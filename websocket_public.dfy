/** websocket_public.go and websocket_public_messages.go: the decoders of the ticker channel and of
    the market channels. Float fields are kept as the decimal text the server sent. */
module WebsocketPublic {
  import opened Errors
  import opened Text
  import opened Json

  /** WSTicker. */
  datatype Ticker = Ticker(
    symbol: string, last: string, lowestAsk: string, highestBid: string, percentChange: string,
    baseVolume: string, quoteVolume: string, isFrozen: bool, high24hr: string, low24hr: string)

  /** One price level of an order book. */
  datatype Book = Book(price: string, quantity: string)

  /** The Data of a MarketUpdate: nil, OrderDepth ("i"), WSOrderBook ("o") or NewTrade ("t"). */
  datatype MarketData =
    | NoData
    | OrderDepth(symbol: string, asks: seq<Book>, bids: seq<Book>)
    | OrderBookData(rate: string, typeOrder: string, amount: string)
    | NewTradeData(tradeID: int, rate: string, amount: string, total: real, typeOrder: string)

  datatype MarketUpdate = MarketUpdate(data: MarketData, typeUpdate: string)

  /** Go's zero MarketUpdate, left in place for a sub-message with an unknown tag. */
  const ZeroUpdate := MarketUpdate(NoData, "")

  /** `channelsByID[id]`: the empty string for an unknown ID. */
  function ChannelName(byID: map<int, string>, id: int): (name: string)
    ensures id in byID ==> name == byID[id]
    ensures id !in byID ==> name == ""
  {
    if id in byID then byID[id] else ""
  }

  /** The field names the ticker errors report, for array positions 1 to 9. */
  const TickerFields: seq<string> :=
    ["Last", "LowestAsk", "HighestBid", "PercentChange", "BaseVolume", "QuoteVolume", "IsFrozen",
     "High24hr", "Low24hr"]

  function TickerError(pos: nat): GoError
    requires 1 <= pos <= 9
  {
    Error(WSTickerError, [TickerFields[pos - 1]])
  }

  /** The statements of convertArgsToTicker, websocket_public.go:67-130: the ID and the eight
      amounts are asserted without a check, IsFrozen is a checked number. */
  const TickerDemands: seq<(nat, Demand)> := [
    (0, Number(None)),
    (1, Float(None, TickerError(1))),
    (2, Float(None, TickerError(2))),
    (3, Float(None, TickerError(3))),
    (4, Float(None, TickerError(4))),
    (5, Float(None, TickerError(5))),
    (6, Float(None, TickerError(6))),
    (7, Number(Some(TickerError(7)))),
    (8, Float(None, TickerError(8))),
    (9, Float(None, TickerError(9)))]

  /** convertArgsToTicker: it decodes exactly when the elements meet every demand, with the symbol
      from the channel registry, IsFrozen set iff element 7 is non-zero and every amount the text
      sent; otherwise the first field that fails ends the decoding (TickerFirstFailure). */
  function DecodeTicker(byID: map<int, string>, args: seq<Json>): (r: Outcome<Ticker>)
    ensures r.Ok? <==> MeetsAll(args, TickerDemands)
    ensures r.Ok? ==> (|args| >= 10 && args[0].JNum? && args[1].JStr? && args[2].JStr? && args[3].JStr?
                       && args[4].JStr? && args[5].JStr? && args[6].JStr? && args[7].JNum? && args[8].JStr?
                       && args[9].JStr?)
    ensures r.Ok? ==> r.value.symbol == ChannelName(byID, Trunc(args[0].num))
    ensures r.Ok? ==> (r.value.isFrozen <==> args[7].num != 0.0)
    ensures r.Ok? ==> (r.value.last == args[1].str && r.value.lowestAsk == args[2].str
                       && r.value.highestBid == args[3].str && r.value.percentChange == args[4].str
                       && r.value.baseVolume == args[5].str && r.value.quoteVolume == args[6].str
                       && r.value.high24hr == args[8].str && r.value.low24hr == args[9].str)
  {
    if MeetsAll(args, TickerDemands) then
      var d := TickerDemands;
      assert Meets(args, d[0]) && Meets(args, d[1]) && Meets(args, d[2]) && Meets(args, d[3])
        && Meets(args, d[4]) && Meets(args, d[5]) && Meets(args, d[6]) && Meets(args, d[7])
        && Meets(args, d[8]) && Meets(args, d[9]);
      Ok(Ticker(ChannelName(byID, Trunc(args[0].num)), args[1].str, args[2].str, args[3].str, args[4].str,
                args[5].str, args[6].str, args[7].num != 0.0, args[8].str, args[9].str))
    else Check(args, TickerDemands).PropagateFailure()
  }

  /** A ticker whose elements fail a demand ends with the failure of the first one: a panic for a
      missing element or an ID or amount of the wrong type, else the error naming the field. */
  lemma TickerFirstFailure(byID: map<int, string>, args: seq<Json>, k: nat)
    requires FirstUnmet(args, TickerDemands, k)
    ensures DecodeTicker(byID, args) == FailureAt(args, TickerDemands, k)
  {
    CheckStopsAtFirstUnmet(args, TickerDemands, k);
  }

  /** The ticker array the server would send for t on channel id (the frozen flag as 0 or 1). */
  function EncodeTicker(id: int, t: Ticker): (args: seq<Json>)
    ensures |args| == 10
  {
    [JNum(id as real), JStr(t.last), JStr(t.lowestAsk), JStr(t.highestBid), JStr(t.percentChange),
     JStr(t.baseVolume), JStr(t.quoteVolume), JNum(if t.isFrozen then 1.0 else 0.0),
     JStr(t.high24hr), JStr(t.low24hr)]
  }

  /** Every amount of t is text ParseFloat accepts. */
  predicate TickerTextsValid(t: Ticker)
  {
    IsFloatText(t.last) && IsFloatText(t.lowestAsk) && IsFloatText(t.highestBid)
    && IsFloatText(t.percentChange) && IsFloatText(t.baseVolume) && IsFloatText(t.quoteVolume)
    && IsFloatText(t.high24hr) && IsFloatText(t.low24hr)
  }

  /** Decoding an encoded ticker gives it back, its symbol looked up from the channel ID. */
  lemma TickerRoundTrip(byID: map<int, string>, id: int, t: Ticker)
    requires TickerTextsValid(t)
    requires ChannelName(byID, id) == t.symbol
    ensures DecodeTicker(byID, EncodeTicker(id, t)) == Ok(t)
  {
    var args, d := EncodeTicker(id, t), TickerDemands;
    forall k | 0 <= k < |d|
      ensures Meets(args, d[k])
    {
      assert k in {0, 1, 2, 3, 4, 5, 6, 7, 8, 9};
    }
    assert Trunc(id as real) == id;
  }

  /** ParseFloat with its error ignored: text that is no number reads as zero. */
  function LenientFloat(s: string): (v: string)
    ensures IsFloatText(v)
    ensures IsFloatText(s) ==> v == s
  {
    if IsFloatText(s) then s
    else
      NatToStringIsFloatText(0);
      "0"
  }

  /** One entry of a side of the book: the key is the price, the value the quantity. */
  function Level(entry: (string, Json)): (b: Book)
    requires entry.1.JStr?
  {
    Book(LenientFloat(entry.0), LenientFloat(entry.1.str))
  }

  /** The price levels of one side of an order book, one per entry visited: the key is the price,
      the value (asserted to be a string) the quantity. */
  function Books(entries: seq<(string, Json)>): (r: Outcome<seq<Book>>)
    ensures r.Ok? || r.Panic?
    ensures r.Ok? <==> forall i | 0 <= i < |entries| :: entries[i].1.JStr?
    ensures r.Ok? ==> |r.value| == |entries|
    ensures r.Ok? ==> forall i | 0 <= i < |entries| :: r.value[i] == Level(entries[i])
  {
    if entries == [] then Ok([])
    else
      var n := |entries| - 1;
      var front := Books(entries[..n]);
      assert forall i | 0 <= i < n :: entries[..n][i] == entries[i];
      if !front.Ok? then Panic
      else if !entries[n].1.JStr? then Panic
      else Ok(front.value + [Level(entries[n])])
  }

  /** The loop over one side of the book: one Book appended per entry of the decoded map. */
  method BuildBooks(side: seq<(string, Json)>) returns (r: Outcome<seq<Book>>)
    ensures r == Books(Entries(side))
  {
    var entries := Entries(side);
    var books: seq<Book> := [];
    var i := 0;
    while i < |entries|
      invariant 0 <= i <= |entries|
      invariant Books(entries[..i]) == Ok(books)
    {
      var (price, v) := entries[i];
      if !v.JStr? {
        BooksPanicsFrom(entries, i);
        return Panic;
      }
      assert entries[..i + 1][..i] == entries[..i];
      books := books + [Level(entries[i])];
      i := i + 1;
    }
    assert entries[..i] == entries;
    return Ok(books);
  }

  /** A non-string quantity anywhere makes the whole side panic. */
  lemma BooksPanicsFrom(entries: seq<(string, Json)>, i: nat)
    requires i < |entries| && !entries[i].1.JStr?
    ensures Books(entries) == Panic
  {
  }

  /** The "i" sub-message: the full order book of one market. */
  function DecodeDepth(vals: seq<Json>): (r: Outcome<MarketUpdate>)
    ensures r.Ok? || r.Panic?
    ensures r.Ok? ==> r.value.typeUpdate == "OrderDepth" && r.value.data.OrderDepth?
  {
    var v1 :- Index(vals, 1);
    var depth :- AsObject(v1);
    var pair :- Member(depth, "currencyPair");
    var symbol :- AsString(pair);
    var orderBook :- Member(depth, "orderBook");
    var sides :- AsArray(orderBook);
    var asksV :- Index(sides, 0);
    var asks :- AsObject(asksV);
    var bidsV :- Index(sides, 1);
    var bids :- AsObject(bidsV);
    var bidBooks :- Books(Entries(bids));
    var askBooks :- Books(Entries(asks));
    Ok(MarketUpdate(OrderDepth(symbol, askBooks, bidBooks), "OrderDepth"))
  }

  /** The bids and asks of a decoded "i" sub-message: one level per distinct price key, each
      quantity the one the decoded map holds for that key. */
  lemma DepthLevelsPerKey(vals: seq<Json>, bids: seq<(string, Json)>, asks: seq<(string, Json)>)
    requires DecodeDepth(vals).Ok?
    requires 2 <= |vals| && vals[1].JObj? && Lookup(vals[1].members, "orderBook").Some?
    requires var ob := Lookup(vals[1].members, "orderBook").value;
      ob.JArr? && |ob.elems| >= 2 && ob.elems[0] == JObj(asks) && ob.elems[1] == JObj(bids)
    ensures var d := DecodeDepth(vals).value.data;
      |d.bids| == |KeysOf(bids)| && |d.asks| == |KeysOf(asks)|
      && (forall i | 0 <= i < |d.bids| :: exists k | k in KeysOf(bids) ::
            Lookup(bids, k).Some? && Lookup(bids, k).value.JStr?
            && d.bids[i] == Level((k, Lookup(bids, k).value)))
  {
    DepthBooks(vals, bids, asks);
    BooksPerKey(bids);
    BooksPerKey(asks);
  }

  lemma DepthBooks(vals: seq<Json>, bids: seq<(string, Json)>, asks: seq<(string, Json)>)
    requires DecodeDepth(vals).Ok?
    requires 2 <= |vals| && vals[1].JObj? && Lookup(vals[1].members, "orderBook").Some?
    requires var ob := Lookup(vals[1].members, "orderBook").value;
      ob.JArr? && |ob.elems| >= 2 && ob.elems[0] == JObj(asks) && ob.elems[1] == JObj(bids)
    ensures Books(Entries(bids)).Ok? && Books(Entries(asks)).Ok?
    ensures DecodeDepth(vals).value.data.bids == Books(Entries(bids)).value
    ensures DecodeDepth(vals).value.data.asks == Books(Entries(asks)).value
  {
  }

  /** The levels of one side: one per distinct key, with the quantity the decoded map holds. */
  lemma BooksPerKey(side: seq<(string, Json)>)
    requires Books(Entries(side)).Ok?
    ensures |Books(Entries(side)).value| == |KeysOf(side)|
    ensures forall i | 0 <= i < |Books(Entries(side)).value| :: exists k | k in KeysOf(side) ::
      Lookup(side, k).Some? && Lookup(side, k).value.JStr?
      && Books(Entries(side)).value[i] == Level((k, Lookup(side, k).value))
  {
    EntriesCount(side);
    forall i | 0 <= i < |Books(Entries(side)).value|
      ensures exists k | k in KeysOf(side) ::
        Lookup(side, k).Some? && Lookup(side, k).value.JStr?
        && Books(Entries(side)).value[i] == Level((k, Lookup(side, k).value))
    {
      var k := BookKey(side, i);
    }
  }

  /** The key the i-th level of one side was built from. */
  lemma BookKey(side: seq<(string, Json)>, i: nat) returns (k: string)
    requires Books(Entries(side)).Ok? && i < |Entries(side)|
    ensures k in KeysOf(side) && Lookup(side, k).Some? && Lookup(side, k).value.JStr?
    ensures Books(Entries(side)).value[i] == Level((k, Lookup(side, k).value))
  {
    var es := Entries(side);
    EntriesAreTheMap(side);
    k := es[i].0;
    assert k in KeysOf(es);
    assert Lookup(side, k) == Some(es[i].1);
    assert es[i] == (k, Lookup(side, k).value);
  }

  /** The statements of the "o" case, websocket_public.go:165-192: the amount is first compared
      with zero as an unchecked string, the side is an unchecked number, and then rate and amount
      are parsed. */
  const OrderBookDemands: seq<(nat, Demand)> := [
    (3, Text(None)),
    (1, Number(None)),
    (2, Float(None, Error(WSOrderBookError, ["Rate"]))),
    (3, Float(None, Error(WSOrderBookError, ["Amount"])))]

  /** The "o" sub-message: an order book change. It decodes exactly when the elements meet every
      demand; the update removes the level iff the amount is the text "0.00000000", is a bid iff
      the side code is 1, and keeps the texts sent. */
  function DecodeOrderBook(vals: seq<Json>): (r: Outcome<MarketUpdate>)
    ensures r.Ok? <==> MeetsAll(vals, OrderBookDemands)
    ensures r.Ok? ==> |vals| >= 4 && vals[1].JNum? && vals[2].JStr? && vals[3].JStr?
    ensures r.Ok? ==> r.value.data.OrderBookData?
    ensures r.Ok? ==> (r.value.typeUpdate == "OrderBookRemove" <==> vals[3].str == "0.00000000")
    ensures r.Ok? ==> (r.value.typeUpdate == "OrderBookModify" <==> vals[3].str != "0.00000000")
    ensures r.Ok? ==> (r.value.data.typeOrder == "bid" <==> vals[1].num == 1.0)
    ensures r.Ok? ==> (r.value.data.typeOrder == "ask" <==> vals[1].num != 1.0)
    ensures r.Ok? ==> r.value.data.rate == vals[2].str && r.value.data.amount == vals[3].str
  {
    if MeetsAll(vals, OrderBookDemands) then
      var d := OrderBookDemands;
      assert Meets(vals, d[0]) && Meets(vals, d[1]) && Meets(vals, d[2]);
      var typeUpdate := if vals[3].str == "0.00000000" then "OrderBookRemove" else "OrderBookModify";
      var typeOrder := if vals[1].num == 1.0 then "bid" else "ask";
      Ok(MarketUpdate(OrderBookData(vals[2].str, typeOrder, vals[3].str), typeUpdate))
    else Check(vals, OrderBookDemands).PropagateFailure()
  }

  /** An "o" sub-message whose elements fail a demand ends with the failure of the first one. */
  lemma OrderBookFirstFailure(vals: seq<Json>, k: nat)
    requires FirstUnmet(vals, OrderBookDemands, k)
    ensures DecodeOrderBook(vals) == FailureAt(vals, OrderBookDemands, k)
  {
    CheckStopsAtFirstUnmet(vals, OrderBookDemands, k);
  }

  /** `strconv.ParseInt(s, 10, 64)` with its error replaced by err. */
  function ParseInt(s: string, err: GoError): (r: Outcome<int>)
    ensures r != Panic
    ensures r.Ok? <==> Atoi(s).Some?
    ensures r.Ok? ==> Atoi(s) == Some(r.value)
    ensures r.Err? ==> r.error == err
  {
    match Atoi(s)
    case Some(n) => Ok(n)
    case None => Err(err)
  }

  /** The statements of the "t" case, websocket_public.go:194-224: every assertion is unchecked. */
  const NewTradeDemands: seq<(nat, Demand)> := [
    (1, Integer(None, Error(NewTradeError, ["TradeID"]))),
    (2, Number(None)),
    (3, Float(None, Error(NewTradeError, ["Rate"]))),
    (4, Float(None, Error(NewTradeError, ["Amount"]))),
    (5, Number(None))]

  /** The "t" sub-message: a public trade. It decodes exactly when the elements meet every demand;
      the trade ID is element 1 read as an integer, the side is buy iff element 2 is 1, rate and
      amount are the texts sent and the total is element 5. */
  function DecodeNewTrade(vals: seq<Json>): (r: Outcome<MarketUpdate>)
    ensures r.Ok? <==> MeetsAll(vals, NewTradeDemands)
    ensures r.Ok? ==> (|vals| >= 6 && vals[1].JStr? && Atoi(vals[1].str).Some? && vals[2].JNum? && vals[3].JStr?
                       && vals[4].JStr? && vals[5].JNum?)
    ensures r.Ok? ==> r.value.typeUpdate == "NewTrade" && r.value.data.NewTradeData?
    ensures r.Ok? ==> Atoi(vals[1].str) == Some(r.value.data.tradeID)
    ensures r.Ok? ==> (r.value.data.typeOrder == "buy" <==> vals[2].num == 1.0)
    ensures r.Ok? ==> (r.value.data.typeOrder == "sell" <==> vals[2].num != 1.0)
    ensures r.Ok? ==> r.value.data.rate == vals[3].str && r.value.data.amount == vals[4].str
    ensures r.Ok? ==> r.value.data.total == vals[5].num
  {
    if MeetsAll(vals, NewTradeDemands) then
      var d := NewTradeDemands;
      assert Meets(vals, d[0]) && Meets(vals, d[1]) && Meets(vals, d[2]) && Meets(vals, d[3]) && Meets(vals, d[4]);
      var typeOrder := if vals[2].num == 1.0 then "buy" else "sell";
      Ok(MarketUpdate(NewTradeData(Atoi(vals[1].str).value, vals[3].str, vals[4].str, vals[5].num, typeOrder),
                      "NewTrade"))
    else Check(vals, NewTradeDemands).PropagateFailure()
  }

  /** A "t" sub-message whose elements fail a demand ends with the failure of the first one. */
  lemma NewTradeFirstFailure(vals: seq<Json>, k: nat)
    requires FirstUnmet(vals, NewTradeDemands, k)
    ensures DecodeNewTrade(vals) == FailureAt(vals, NewTradeDemands, k)
  {
    CheckStopsAtFirstUnmet(vals, NewTradeDemands, k);
  }

  /** One sub-message of a market frame, dispatched on its tag. The sub-message and its tag are
      asserted without a check; an unknown tag leaves the zero update and no error. */
  function DecodeMarketEntry(val: Json): (r: Outcome<MarketUpdate>)
    ensures !(val.JArr? && |val.elems| > 0 && val.elems[0].JStr?) ==> r == Panic
    ensures r.Ok? ==> val.JArr? && |val.elems| > 0 && val.elems[0].JStr?
  {
    var vals :- AsArray(val);
    var tag :- StringAt(vals, 0);
    if tag == "i" then DecodeDepth(vals)
    else if tag == "o" then DecodeOrderBook(vals)
    else if tag == "t" then DecodeNewTrade(vals)
    else Ok(ZeroUpdate)
  }

  /** A sub-message with a tag the switch does not know decodes, whatever follows the tag, to the
      zero update. */
  lemma UnknownMarketTag(tag: string, rest: seq<Json>)
    requires tag !in {"i", "o", "t"}
    ensures DecodeMarketEntry(JArr([JStr(tag)] + rest)) == Ok(ZeroUpdate)
  {
    assert ([JStr(tag)] + rest)[0] == JStr(tag);
  }

  /** A trade sub-message whose side code is sent as the string "1" rather than the number 1 gets
      past the trade ID and then fails the unchecked number assertion on the side. */
  lemma TextSideCodePanics()
    ensures DecodeMarketEntry(JArr([JStr("t"), JStr("5"), JStr("1"), JStr("100.5"), JStr("10.0"), JStr("50.25")]))
      == Panic
  {
    var vals := [JStr("t"), JStr("5"), JStr("1"), JStr("100.5"), JStr("10.0"), JStr("50.25")];
    assert Atoi("5") == Some(5) by {
      assert "5"[..0] == [];
    }
    assert Meets(vals, NewTradeDemands[0]) && !Meets(vals, NewTradeDemands[1]);
    NewTradeFirstFailure(vals, 1);
  }

  /** The tag decides the update type: "i" OrderDepth, "o" OrderBookRemove or OrderBookModify,
      "t" NewTrade, anything else the empty type of the zero update. */
  lemma MarketTagDecidesType(val: Json)
    ensures DecodeMarketEntry(val).Ok? ==>
      var u := DecodeMarketEntry(val).value; var tag := val.elems[0].str;
      (tag == "i" <==> u.typeUpdate == "OrderDepth")
      && (tag == "o" <==> u.typeUpdate in {"OrderBookRemove", "OrderBookModify"})
      && (tag == "t" <==> u.typeUpdate == "NewTrade")
      && (tag !in {"i", "o", "t"} <==> u == ZeroUpdate)
  {
  }

  /** The decoding of each sub-message of a market frame, in order. */
  function MarketResults(args: seq<Json>): (rs: seq<Outcome<MarketUpdate>>)
    ensures |rs| == |args|
    ensures forall i | 0 <= i < |args| :: rs[i] == DecodeMarketEntry(args[i])
  {
    seq(|args|, i requires 0 <= i < |args| => DecodeMarketEntry(args[i]))
  }

  /** convertArgsToMarketUpdate: every sub-message decoded in order; the first failure (error or
      panic) is the result of the whole frame. */
  function DecodeMarketUpdates(args: seq<Json>): (r: Outcome<seq<MarketUpdate>>)
    ensures r.Ok? ==> |r.value| == |args|
    ensures r.Ok? <==> forall i | 0 <= i < |args| :: DecodeMarketEntry(args[i]).Ok?
    ensures r.Ok? ==> forall i | 0 <= i < |args| :: r.value[i] == DecodeMarketEntry(args[i]).value
  {
    AllOk(MarketResults(args))
  }

  /** The "i" loop body: the prefix checks of DecodeDepth, then the bids loop and the asks loop. */
  method ConvertDepth(vals: seq<Json>) returns (r: Outcome<MarketUpdate>)
    ensures r == DecodeDepth(vals)
  {
    var prefix := DepthSides(vals);
    if prefix.IsFailure() {
      return prefix.PropagateFailure();
    }
    var (symbol, asks, bids) := prefix.value;
    var bidBooks := BuildBooks(bids);
    if bidBooks.IsFailure() {
      return bidBooks.PropagateFailure();
    }
    var askBooks := BuildBooks(asks);
    if askBooks.IsFailure() {
      return askBooks.PropagateFailure();
    }
    return Ok(MarketUpdate(OrderDepth(symbol, askBooks.value, bidBooks.value), "OrderDepth"));
  }

  /** The symbol and the two sides of an "i" sub-message, with the panics of their assertions. */
  function DepthSides(vals: seq<Json>): (r: Outcome<(string, seq<(string, Json)>, seq<(string, Json)>)>)
    ensures r.Ok? || r.Panic?
    ensures r.Ok? ==>
      (DecodeDepth(vals) ==
        var bidBooks :- Books(Entries(r.value.2));
        var askBooks :- Books(Entries(r.value.1));
        Ok(MarketUpdate(OrderDepth(r.value.0, askBooks, bidBooks), "OrderDepth")))
    ensures r.Panic? ==> DecodeDepth(vals) == Panic
  {
    var v1 :- Index(vals, 1);
    var depth :- AsObject(v1);
    var pair :- Member(depth, "currencyPair");
    var symbol :- AsString(pair);
    var orderBook :- Member(depth, "orderBook");
    var sides :- AsArray(orderBook);
    var asksV :- Index(sides, 0);
    var asks :- AsObject(asksV);
    var bidsV :- Index(sides, 1);
    var bids :- AsObject(bidsV);
    Ok((symbol, asks, bids))
  }

  /** One iteration of the frame loop: the "i" case runs its loops, the other cases are
      straight-line. */
  method ConvertEntry(val: Json) returns (u: Outcome<MarketUpdate>)
    ensures u == DecodeMarketEntry(val)
  {
    var vals := AsArray(val);
    var tag := if vals.Ok? then StringAt(vals.value, 0) else Panic;
    if tag.Ok? && tag.value == "i" {
      u := ConvertDepth(vals.value);
    } else {
      u := DecodeMarketEntry(val);
    }
  }

  /** The frame loop of convertArgsToMarketUpdate: res[i] is filled in order, and any error or
      panic abandons the frame. */
  method ConvertArgsToMarketUpdate(args: seq<Json>) returns (r: Outcome<seq<MarketUpdate>>)
    ensures r == DecodeMarketUpdates(args)
  {
    ghost var results := MarketResults(args);
    var res: seq<MarketUpdate> := [];
    var i := 0;
    while i < |args|
      invariant 0 <= i <= |args|
      invariant AllOk(results[..i]) == Ok(res)
    {
      var u := ConvertEntry(args[i]);
      assert results[i] == u;
      if u.IsFailure() {
        FirstFailureWins(results, i);
        return u.PropagateFailure();
      }
      AllOkStep(results, i, res);
      res := res + [u.value];
      i := i + 1;
    }
    assert results[..i] == results;
    return Ok(res);
  }
}
