/** websocket.go with the subscription entry points of websocket_public.go and
    websocket_private.go: the channel registry, the bounded subscription queues, the control
    messages written to the socket and the routing of incoming frames to the decoders. */
module Websocket {
  import opened Errors
  import opened Text
  import opened Json
  import opened WebsocketPublic
  import opened WebsocketPrivate
  import opened Observer

  // websocket.go:17-22
  const ACCOUNT := 1000
  const TICKER := 1002
  const SUBSBUFFER := 256

  /** channelsByName after registering the tickers in order: a later entry overrides an earlier
      one. */
  function WithNames(byName: map<string, int>, tickers: seq<(string, int)>): (m: map<string, int>)
    ensures m.Keys == byName.Keys + KeysOf(tickers)
  {
    if tickers == [] then byName
    else
      var last := tickers[|tickers| - 1];
      KeysOfInit(tickers);
      WithNames(byName, tickers[..|tickers| - 1])[last.0 := last.1]
  }

  /** The IDs of the tickers, in order. */
  function IDsOf(tickers: seq<(string, int)>): (ids: seq<int>)
    ensures |ids| == |tickers|
    ensures forall i | 0 <= i < |tickers| :: ids[i] == tickers[i].1
  {
    if tickers == [] then [] else IDsOf(tickers[..|tickers| - 1]) + [tickers[|tickers| - 1].1]
  }

  /** channelsByID after registering the tickers in order: when two tickers share an ID the later
      one wins. */
  function WithIDs(byID: map<int, string>, tickers: seq<(string, int)>): (m: map<int, string>)
    ensures m.Keys == byID.Keys + set id | id in IDsOf(tickers)
  {
    if tickers == [] then byID
    else
      var last := tickers[|tickers| - 1];
      WithIDs(byID, tickers[..|tickers| - 1])[last.1 := last.0]
  }

  /** channelsByName after setChannelsID: the tickers, then TICKER and ACCOUNT. */
  function NamesAfter(byName: map<string, int>, tickers: seq<(string, int)>): (m: map<string, int>)
    ensures m.Keys == byName.Keys + KeysOf(tickers) + {"TICKER", "ACCOUNT"}
    ensures m["TICKER"] == TICKER && m["ACCOUNT"] == ACCOUNT
  {
    WithNames(byName, tickers)["TICKER" := TICKER]["ACCOUNT" := ACCOUNT]
  }

  /** channelsByID after setChannelsID: the tickers, then TICKER and ACCOUNT, which therefore win
      any collision with a market ID. */
  function IDsAfter(byID: map<int, string>, tickers: seq<(string, int)>): (m: map<int, string>)
    ensures m.Keys == byID.Keys + (set id | id in IDsOf(tickers)) + {TICKER, ACCOUNT}
    ensures m[TICKER] == "TICKER" && m[ACCOUNT] == "ACCOUNT"
  {
    WithIDs(byID, tickers)[TICKER := "TICKER"][ACCOUNT := "ACCOUNT"]
  }

  /** A market registers under its own ID when its name is unique among the tickers (as the keys
      of a Go map are) and is not one of the two fixed names. */
  lemma {:induction false} NameRegistered(byName: map<string, int>, tickers: seq<(string, int)>, i: nat)
    requires DistinctKeys(tickers) && i < |tickers|
    ensures WithNames(byName, tickers)[tickers[i].0] == tickers[i].1
  {
    var n := |tickers| - 1;
    if i < n {
      DistinctKeysInit(tickers);
      assert tickers[..n][i] == tickers[i];
      NameRegistered(byName, tickers[..n], i);
      assert tickers[i].0 != tickers[n].0;
    }
  }

  /** An ID maps back to the name of the last ticker that carries it, unless it is one of the two
      fixed IDs. */
  lemma {:induction false} IDRegistered(byID: map<int, string>, tickers: seq<(string, int)>, i: nat)
    requires i < |tickers|
    requires forall j | i < j < |tickers| :: tickers[j].1 != tickers[i].1
    ensures WithIDs(byID, tickers)[tickers[i].1] == tickers[i].0
  {
    var n := |tickers| - 1;
    if i < n {
      assert tickers[..n][i] == tickers[i];
      forall j | i < j < n ensures tickers[..n][j].1 != tickers[..n][i].1 {
        assert tickers[..n][j] == tickers[j];
      }
      IDRegistered(byID, tickers[..n], i);
    }
  }

  /** After setChannelsID a market keeps its ID under its name, unless it is one of the two fixed
      names. */
  lemma NameAfterSetup(byName: map<string, int>, tickers: seq<(string, int)>, i: nat)
    requires DistinctKeys(tickers) && i < |tickers|
    requires tickers[i].0 != "TICKER" && tickers[i].0 != "ACCOUNT"
    ensures NamesAfter(byName, tickers)[tickers[i].0] == tickers[i].1
  {
    var w := WithNames(byName, tickers);
    NameRegistered(byName, tickers, i);
    assert NamesAfter(byName, tickers) == w["TICKER" := TICKER]["ACCOUNT" := ACCOUNT];
  }

  /** After setChannelsID a market's ID maps back to it, unless it is one of the two fixed IDs. */
  lemma IDAfterSetup(byID: map<int, string>, tickers: seq<(string, int)>, i: nat)
    requires i < |tickers|
    requires forall j | i < j < |tickers| :: tickers[j].1 != tickers[i].1
    requires tickers[i].1 != TICKER && tickers[i].1 != ACCOUNT
    ensures IDsAfter(byID, tickers)[tickers[i].1] == tickers[i].0
  {
    var w := WithIDs(byID, tickers);
    IDRegistered(byID, tickers, i);
    assert IDsAfter(byID, tickers) == w[TICKER := "TICKER"][ACCOUNT := "ACCOUNT"];
  }

  /** One more ticker updates both tables and appends its ID. */
  lemma RegisterStep(byName: map<string, int>, byID: map<int, string>, tickers: seq<(string, int)>, i: nat)
    requires i < |tickers|
    ensures WithNames(byName, tickers[..i + 1]) == WithNames(byName, tickers[..i])[tickers[i].0 := tickers[i].1]
    ensures WithIDs(byID, tickers[..i + 1]) == WithIDs(byID, tickers[..i])[tickers[i].1 := tickers[i].0]
    ensures IDsOf(tickers[..i + 1]) == IDsOf(tickers[..i]) + [tickers[i].1]
  {
    assert tickers[..i + 1][..i] == tickers[..i];
  }

  /** The process-wide channel tables of websocket.go:24-28. */
  class Registry {
    var byName: map<string, int>
    var byID: map<int, string>
    var marketChannels: seq<int>

    constructor ()
      ensures byName == map[] && byID == map[] && marketChannels == []
    {
      byName := map[];
      byID := map[];
      marketChannels := [];
    }

    /** setChannelsID over the tickers returned by GetTickers, in the order the ticker map is
        iterated; a failed GetTickers (fetchError) changes nothing. */
    method SetChannelsID(tickers: seq<(string, int)>, fetchError: Option<GoError>) returns (err: Option<GoError>)
      modifies this
      ensures err == fetchError
      ensures fetchError.Some? ==> byName == old(byName) && byID == old(byID) && marketChannels == old(marketChannels)
      ensures fetchError.None? ==> byName == NamesAfter(old(byName), tickers)
      ensures fetchError.None? ==> byID == IDsAfter(old(byID), tickers)
      ensures fetchError.None? ==> marketChannels == old(marketChannels) + IDsOf(tickers)
    {
      if fetchError.Some? {
        return fetchError;
      }
      var i := 0;
      while i < |tickers|
        invariant 0 <= i <= |tickers|
        invariant byName == WithNames(old(byName), tickers[..i])
        invariant byID == WithIDs(old(byID), tickers[..i])
        invariant marketChannels == old(marketChannels) + IDsOf(tickers[..i])
      {
        var (name, id) := tickers[i];
        RegisterStep(old(byName), old(byID), tickers, i);
        ConcatAssoc(old(marketChannels), IDsOf(tickers[..i]), [id]);
        byName := byName[name := id];
        byID := byID[id := name];
        marketChannels := marketChannels + [id];
        i := i + 1;
      }
      assert tickers[..i] == tickers;
      byName := byName["TICKER" := TICKER];
      byID := byID[TICKER := "TICKER"];
      byName := byName["ACCOUNT" := ACCOUNT];
      byID := byID[ACCOUNT := "ACCOUNT"];
      return None;
    }
  }

  /** A buffered Go channel of capacity SUBSBUFFER. Items is what is buffered, oldest first. */
  class Queue<T> {
    var items: seq<T>

    ghost predicate Valid()
      reads this
    {
      |items| <= SUBSBUFFER
    }

    /** make(chan interface{}, SUBSBUFFER). */
    constructor ()
      ensures Valid() && items == []
    {
      items := [];
    }

    /** A `select` with a default branch: the value is buffered if there is room and dropped
        otherwise. */
    method TryPush(x: T) returns (delivered: bool)
      requires Valid()
      modifies this
      ensures Valid()
      ensures delivered <==> |old(items)| < SUBSBUFFER
      ensures items == if delivered then old(items) + [x] else old(items)
    {
      if |items| == SUBSBUFFER {
        return false;
      }
      items := items + [x];
      return true;
    }

    /** A receive from a non-empty channel: the oldest value. */
    method Pop() returns (x: T)
      requires Valid() && |items| > 0
      modifies this
      ensures Valid()
      ensures x == old(items)[0] && items == old(items)[1..]
    {
      x := items[0];
      items := items[1..];
    }
  }

  /** What a subscription queue carries: one decoded frame. */
  datatype WsUpdate =
    | TickerUpdate(ticker: Ticker)
    | MarketUpdates(market: seq<MarketUpdate>)
    | AccountUpdates(account: seq<AccountUpdate>)

  /** The account batches at the head of a queue, up to the first item that is not one: the
      ones the fill goroutine of ListeningReports gets through before its type assertion fails. */
  function AccountBatches(us: seq<WsUpdate>): (bs: seq<seq<AccountUpdate>>)
    ensures |bs| <= |us|
    ensures forall i | 0 <= i < |bs| :: us[i].AccountUpdates? && bs[i] == us[i].account
    ensures |bs| < |us| ==> !us[|bs|].AccountUpdates?
  {
    if us == [] || !us[0].AccountUpdates? then [] else [us[0].account] + AccountBatches(us[1..])
  }

  /** Receiving the item at k after the first k batches: it is the next batch exactly when it
      is an account batch. */
  lemma AccountBatchesStep(us: seq<WsUpdate>, k: nat)
    requires k < |us| && k <= |AccountBatches(us)|
    ensures var bs := AccountBatches(us); us[k].AccountUpdates? <==> k < |bs|
    ensures var bs := AccountBatches(us); k < |bs| ==> bs[..k + 1] == bs[..k] + [us[k].account]
  {
    var bs := AccountBatches(us);
    if k < |bs| {
      assert us[k].AccountUpdates? && bs[k] == us[k].account;
      assert bs[..k + 1] == bs[..k] + [bs[k]];
    } else {
      assert !us[|bs|].AccountUpdates?;
    }
  }

  /** Where receiving stops, at the end or at an item that is no batch, all batches are in. */
  lemma AccountBatchesStop(us: seq<WsUpdate>, k: nat)
    requires k <= |AccountBatches(us)|
    requires k == |us| || (k < |us| && !us[k].AccountUpdates?)
    ensures k == |AccountBatches(us)|
  {
  }

  /** Every account update buffered in us carries the data its type names, as the account
      decoders produce it. */
  predicate AccountTyped(us: seq<WsUpdate>)
  {
    forall j, i | 0 <= j < |us| && us[j].AccountUpdates? && 0 <= i < |us[j].account| :: WellTyped(us[j].account[i])
  }

  /** The JSON control messages written to the socket. */
  datatype ControlMessage =
    | Subscription(command: string, channel: string)
    | AuthenticatedSubscription(command: string, channel: string, sign: string, key: string, payload: string)

  /** sign: refused without both credentials; otherwise the hex HMAC-SHA512 of the form data
      keyed by the secret, which is the parameter hmacHex(secret, formData) here. */
  function Sign(key: string, secret: string, formData: string, hmacHex: (string, string) -> string)
    : (r: Outcome<string>)
    ensures r.Err? <==> key == "" || secret == ""
    ensures r.Err? ==> r.error == Error(SetAPIError, [])
    ensures r.Ok? ==> r.value == hmacHex(secret, formData)
  {
    if key == "" || secret == "" then Err(Error(SetAPIError, [])) else Ok(hmacHex(secret, formData))
  }

  /** The frame-shape checks of wsHandler: a JSON array of at least three elements whose first is
      a number (the channel ID, converted with int()) and whose third is an array (the arguments). */
  function FrameShape(frame: Json): (r: Option<(int, seq<Json>)>)
    ensures r.Some? <==> frame.JArr? && |frame.elems| >= 3 && frame.elems[0].JNum? && frame.elems[2].JArr?
    ensures r.Some? ==> r.value.0 == Trunc(frame.elems[0].num) && r.value.1 == frame.elems[2].elems
  {
    if frame.JArr? && |frame.elems| >= 3 && frame.elems[0].JNum? && frame.elems[2].JArr? then
      Some((Trunc(frame.elems[0].num), frame.elems[2].elems))
    else None
  }

  datatype Route = ToTicker | ToAccount | ToMarket | Ignore

  /** The routing switch: TICKER first, then ACCOUNT, then the market channels; any other ID is
      ignored. */
  function RouteOf(chID: int, marketChannels: seq<int>): (r: Route)
    ensures r == ToTicker <==> chID == TICKER
    ensures r == ToAccount <==> chID == ACCOUNT
    ensures r == ToMarket <==> chID != TICKER && chID != ACCOUNT && chID in marketChannels
    ensures r == Ignore <==> chID != TICKER && chID != ACCOUNT && chID !in marketChannels
  {
    if chID == TICKER then ToTicker
    else if chID == ACCOUNT then ToAccount
    else if chID in marketChannels then ToMarket
    else Ignore
  }

  /** The decoder a route selects. */
  function Decoded(route: Route, byID: map<int, string>, args: seq<Json>): (r: Outcome<WsUpdate>)
    requires route != Ignore
    ensures route == ToTicker && r.Ok? ==> r.value.TickerUpdate? && Ok(r.value.ticker) == DecodeTicker(byID, args)
    ensures route == ToMarket && r.Ok? ==> r.value.MarketUpdates? && Ok(r.value.market) == DecodeMarketUpdates(args)
    ensures route == ToAccount && r.Ok? ==> r.value.AccountUpdates? && Ok(r.value.account) == DecodeAccount(args)
  {
    match route
    case ToTicker => var t :- DecodeTicker(byID, args); Ok(TickerUpdate(t))
    case ToAccount => var us :- DecodeAccount(args); Ok(AccountUpdates(us))
    case ToMarket => var us :- DecodeMarketUpdates(args); Ok(MarketUpdates(us))
  }

  /** One frame through wsHandler: Ok(None) when it is skipped (bad shape, unknown channel) or
      dropped (a decoder error); Ok(Some((name, u))) when u is to be offered to the queue of the
      channel named name; Panic when a decoder panics, which ends the process. */
  function DecodeFrame(frame: Json, byID: map<int, string>, marketChannels: seq<int>): (r: Outcome<Option<(string, WsUpdate)>>)
    ensures !r.Err?
    ensures FrameShape(frame).None? ==> r == Ok(None)
    ensures r.Ok? && r.value.Some? ==>
      var (chID, args) := FrameShape(frame).value;
      var route := RouteOf(chID, marketChannels);
      route != Ignore && Decoded(route, byID, args).Ok?
      && r.value.value == (ChannelName(byID, chID), Decoded(route, byID, args).value)
    ensures FrameShape(frame).Some? ==>
      var (chID, args) := FrameShape(frame).value;
      var route := RouteOf(chID, marketChannels);
      (route == Ignore ==> r == Ok(None))
      && (route != Ignore && Decoded(route, byID, args).Err? ==> r == Ok(None))
      && (r.Panic? <==> route != Ignore && Decoded(route, byID, args).Panic?)
  {
    match FrameShape(frame)
    case None => Ok(None)
    case Some((chID, args)) =>
      var route := RouteOf(chID, marketChannels);
      if route == Ignore then Ok(None)
      else
        match Decoded(route, byID, args)
        case Ok(u) => Ok(Some((ChannelName(byID, chID), u)))
        case Err(_) => Ok(None)
        case Panic => Panic
  }

  /** The buffered updates per subscribed channel after one frame: the update is appended to its
      channel's queue when that channel is subscribed and the queue has room, and nothing changes
      otherwise. */
  function Delivered(pending: map<string, seq<WsUpdate>>, d: Option<(string, WsUpdate)>): (p: map<string, seq<WsUpdate>>)
    ensures p.Keys == pending.Keys
    ensures forall n | n in p && (d.None? || n != d.value.0) :: p[n] == pending[n]
    ensures d.Some? && d.value.0 in pending ==>
      p[d.value.0] == if |pending[d.value.0]| < SUBSBUFFER then pending[d.value.0] + [d.value.1] else pending[d.value.0]
  {
    match d
    case None => pending
    case Some((name, u)) =>
      if name in pending && |pending[name]| < SUBSBUFFER then pending[name := pending[name] + [u]] else pending
  }

  /** Queues that start within capacity stay within capacity, and what was buffered stays at the
      front in the same order. */
  lemma {:induction false} DeliveredKeepsBound(pending: map<string, seq<WsUpdate>>, d: Option<(string, WsUpdate)>)
    requires forall n | n in pending :: |pending[n]| <= SUBSBUFFER
    ensures forall n | n in pending :: |Delivered(pending, d)[n]| <= SUBSBUFFER
    ensures forall n | n in pending :: pending[n] <= Delivered(pending, d)[n]
  {
    var p := Delivered(pending, d);
    forall n | n in pending ensures |p[n]| <= SUBSBUFFER && pending[n] <= p[n] {
      if d.Some? && n == d.value.0 && |pending[n]| < SUBSBUFFER {
        assert p[n] == pending[n] + [d.value.1];
      }
    }
  }

  /** One frame on top of a run that has not panicked so far. */
  function StepFrame(acc: Outcome<map<string, seq<WsUpdate>>>, frame: Json, byID: map<int, string>,
                     marketChannels: seq<int>): (r: Outcome<map<string, seq<WsUpdate>>>)
    ensures r.Ok? <==> acc.Ok? && DecodeFrame(frame, byID, marketChannels).Ok?
    ensures r.Ok? ==> r.value == Delivered(acc.value, DecodeFrame(frame, byID, marketChannels).value)
  {
    var p :- acc;
    var d :- DecodeFrame(frame, byID, marketChannels);
    Ok(Delivered(p, d))
  }

  /** The buffered updates after a sequence of frames, as long as no decoder panics. */
  function DeliveredAll(pending: map<string, seq<WsUpdate>>, frames: seq<Json>, byID: map<int, string>,
                        marketChannels: seq<int>): (r: Outcome<map<string, seq<WsUpdate>>>)
    ensures r.Ok? ==> r.value.Keys == pending.Keys
    ensures !r.Err?
  {
    if frames == [] then Ok(pending)
    else StepFrame(DeliveredAll(pending, frames[..|frames| - 1], byID, marketChannels), frames[|frames| - 1], byID, marketChannels)
  }

  /** One websocket connection. Subs maps a channel name to its queue; sent is everything written
      to the socket, in order. */
  class WSClient {
    const key: string
    const secret: string
    var subs: map<string, Queue<WsUpdate>>
    var sent: seq<ControlMessage>
    ghost var Repr: set<object>
    /** The updates buffered per subscribed channel. */
    ghost var Pending: map<string, seq<WsUpdate>>

    /** Every queue is valid and buffers what Pending records for its name, and no two names
        share a queue or a buffer. */
    ghost predicate Valid()
      reads this`subs, this`Repr, this`Pending, Repr
    {
      this !in Repr && Pending.Keys == subs.Keys && Owned() && Disjoint() && Buffered()
    }

    /** Every queue belongs to this client. */
    ghost predicate Owned()
      reads this`subs, this`Repr
    {
      forall n | n in subs :: subs[n] in Repr
    }

    /** No two names share a queue. */
    ghost predicate Disjoint()
      reads this`subs
    {
      forall n, m | n in subs && m in subs && n != m :: subs[n] != subs[m]
    }

    /** Every queue is a valid ring buffer holding what Pending records for its name. */
    ghost predicate Buffered()
      reads this`subs, this`Repr, this`Pending, Repr
      requires Owned()
    {
      forall n | n in subs && n in Pending :: subs[n].Valid() && subs[n].items == Pending[n]
    }

    /** NewPublicWSClient (empty credentials) and NewPrivateWSClient. */
    constructor (key: string, secret: string)
      ensures Valid() && subs == map[] && sent == [] && this.key == key && this.secret == secret
      ensures Pending == map[]
    {
      this.key := key;
      this.secret := secret;
      subs := map[];
      sent := [];
      Repr := {};
      Pending := map[];
    }

    /** subscribe: a queue is made only for a name that has none, and the subscription is written
        on every call. */
    method Subscribe(chID: int, chName: string)
      requires Valid()
      modifies this
      ensures Valid() && fresh(Repr - old(Repr))
      ensures subs.Keys == old(subs.Keys) + {chName}
      ensures forall n | n in old(subs) :: subs[n] == old(subs[n])
      ensures Pending == if chName in old(subs) then old(Pending) else old(Pending)[chName := []]
      ensures sent == old(sent) + [Subscription("subscribe", IntToString(chID))]
    {
      EnsureQueue(chName);
      sent := sent + [Subscription("subscribe", IntToString(chID))];
    }

    /** The `if ws.Subs[chName] == nil` step shared by both subscriptions. */
    method EnsureQueue(chName: string)
      requires Valid()
      modifies this
      ensures Valid() && fresh(Repr - old(Repr)) && sent == old(sent)
      ensures subs.Keys == old(subs.Keys) + {chName}
      ensures forall n | n in old(subs) :: subs[n] == old(subs[n])
      ensures Pending == if chName in old(subs) then old(Pending) else old(Pending)[chName := []]
    {
      if chName !in subs {
        var q := new Queue<WsUpdate>();
        subs := subs[chName := q];
        Repr := Repr + {q};
        Pending := Pending[chName := []];
        forall n | n in old(subs) ensures subs[n] == old(subs)[n] && Pending[n] == old(Pending)[n] {
          assert n != chName;
        }
      }
    }

    /** unsubscribe: nothing happens without a queue; otherwise the unsubscription is written. The
        queue is kept either way. */
    method Unsubscribe(chName: string)
      requires Valid()
      modifies this
      ensures Valid() && subs == old(subs) && Repr == old(Repr)
      ensures sent == if chName in subs then old(sent) + [Subscription("unsubscribe", chName)] else old(sent)
    {
      if chName !in subs {
        return;
      }
      sent := sent + [Subscription("unsubscribe", chName)];
    }

    /** SubscribeMarket: the upper-cased name must be a known channel, and is subscribed under its
        ID. */
    method SubscribeMarket(registry: Registry, chName: string) returns (err: Option<GoError>)
      requires Valid()
      modifies this
      ensures Valid() && fresh(Repr - old(Repr))
      ensures err.Some? <==> ToUpper(chName) !in registry.byName
      ensures err.Some? ==> (err.value == Error(ChannelError, [ToUpper(chName)]) && subs == old(subs)
        && Pending == old(Pending) && sent == old(sent))
      ensures err.None? ==> (subs.Keys == old(subs.Keys) + {ToUpper(chName)}
        && sent == old(sent) + [Subscription("subscribe", IntToString(registry.byName[ToUpper(chName)]))])
      ensures forall n | n in old(subs) :: subs[n] == old(subs[n])
      ensures err.None? ==> Pending == if ToUpper(chName) in old(subs) then old(Pending) else old(Pending)[ToUpper(chName) := []]
    {
      var name := ToUpper(chName);
      if name !in registry.byName {
        return Some(Error(ChannelError, [name]));
      }
      Subscribe(registry.byName[name], name);
      return None;
    }

    /** UnsubscribeMarket: the upper-cased name must be a known channel, and is unsubscribed by
        name. */
    method UnsubscribeMarket(registry: Registry, chName: string) returns (err: Option<GoError>)
      requires Valid()
      modifies this
      ensures Valid() && subs == old(subs) && Repr == old(Repr)
      ensures err.Some? <==> ToUpper(chName) !in registry.byName
      ensures err.Some? ==> err.value == Error(ChannelError, [ToUpper(chName)]) && sent == old(sent)
      ensures err.None? ==> sent == if ToUpper(chName) in subs
        then old(sent) + [Subscription("unsubscribe", ToUpper(chName))] else old(sent)
    {
      var name := ToUpper(chName);
      if name !in registry.byName {
        return Some(Error(ChannelError, [name]));
      }
      Unsubscribe(name);
      return None;
    }

    method SubscribeTicker()
      requires Valid()
      modifies this
      ensures Valid() && fresh(Repr - old(Repr))
      ensures subs.Keys == old(subs.Keys) + {"TICKER"}
      ensures forall n | n in old(subs) :: subs[n] == old(subs[n])
      ensures Pending == if "TICKER" in old(subs) then old(Pending) else old(Pending)["TICKER" := []]
      ensures sent == old(sent) + [Subscription("subscribe", IntToString(TICKER))]
    {
      Subscribe(TICKER, "TICKER");
    }

    method UnsubscribeTicker()
      requires Valid()
      modifies this
      ensures Valid() && subs == old(subs) && Repr == old(Repr)
      ensures sent == if "TICKER" in subs then old(sent) + [Subscription("unsubscribe", "TICKER")] else old(sent)
    {
      Unsubscribe("TICKER");
    }

    /** subscribeToAccountNotification at time now (nanoseconds): the queue is made first, so it
        survives a signing failure; the signed form data and the payload are the same nonce. */
    method SubscribeToAccountNotification(chID: int, chName: string, now: int, hmacHex: (string, string) -> string)
      returns (err: Option<GoError>)
      requires Valid()
      modifies this
      ensures Valid() && fresh(Repr - old(Repr))
      ensures subs.Keys == old(subs.Keys) + {chName}
      ensures forall n | n in old(subs) :: subs[n] == old(subs[n])
      ensures Pending == if chName in old(subs) then old(Pending) else old(Pending)[chName := []]
      ensures err.Some? <==> key == "" || secret == ""
      ensures err.Some? ==> err.value == Error(SetAPIError, []) && sent == old(sent)
      ensures err.None? ==> sent == old(sent) + [AuthenticatedSubscription("subscribe", IntToString(chID),
        hmacHex(secret, "nonce=" + IntToString(now)), key, "nonce=" + IntToString(now))]
    {
      EnsureQueue(chName);
      var formData := "nonce=" + IntToString(now);
      var sign := Sign(key, secret, formData, hmacHex);
      if sign.Err? {
        return Some(sign.error);
      }
      sent := sent + [AuthenticatedSubscription("subscribe", IntToString(chID), sign.value, key,
                                                "nonce=" + IntToString(now))];
      return None;
    }

    method SubscribeAccount(now: int, hmacHex: (string, string) -> string) returns (err: Option<GoError>)
      requires Valid()
      modifies this
      ensures Valid() && fresh(Repr - old(Repr))
      ensures subs.Keys == old(subs.Keys) + {"ACCOUNT"}
      ensures forall n | n in old(subs) :: subs[n] == old(subs[n])
      ensures Pending == if "ACCOUNT" in old(subs) then old(Pending) else old(Pending)["ACCOUNT" := []]
      ensures err.Some? <==> key == "" || secret == ""
      ensures err.Some? ==> err.value == Error(SetAPIError, []) && sent == old(sent)
      ensures err.None? ==> sent == old(sent) + [AuthenticatedSubscription("subscribe", IntToString(ACCOUNT),
        hmacHex(secret, "nonce=" + IntToString(now)), key, "nonce=" + IntToString(now))]
    {
      err := SubscribeToAccountNotification(ACCOUNT, "ACCOUNT", now, hmacHex);
    }

    method UnsubscribeAccount()
      requires Valid()
      modifies this
      ensures Valid() && subs == old(subs) && Repr == old(Repr)
      ensures sent == if "ACCOUNT" in subs then old(sent) + [Subscription("unsubscribe", "ACCOUNT")] else old(sent)
    {
      Unsubscribe("ACCOUNT");
    }

    /** The subscription step of ListeningReports: it subscribes to the account channel only when
        no ACCOUNT queue exists yet. The fills it then streams are CollectFills over the batches
        that queue delivers. */
    method ListeningReports(now: int, hmacHex: (string, string) -> string) returns (err: Option<GoError>)
      requires Valid()
      modifies this
      ensures Valid() && fresh(Repr - old(Repr))
      ensures subs.Keys == old(subs.Keys) + {"ACCOUNT"}
      ensures "ACCOUNT" in old(subs) ==> err.None? && subs == old(subs) && Pending == old(Pending) && sent == old(sent)
      ensures forall n | n in old(subs) :: subs[n] == old(subs[n])
      ensures Pending == if "ACCOUNT" in old(subs) then old(Pending) else old(Pending)["ACCOUNT" := []]
      ensures "ACCOUNT" !in old(subs) ==> (err.Some? <==> key == "" || secret == "")
      ensures "ACCOUNT" !in old(subs) && err.Some? ==> err.value == Error(SetAPIError, []) && sent == old(sent)
      ensures "ACCOUNT" !in old(subs) && err.None? ==> sent == old(sent) + [AuthenticatedSubscription("subscribe",
        IntToString(ACCOUNT), hmacHex(secret, "nonce=" + IntToString(now)), key, "nonce=" + IntToString(now))]
    {
      if "ACCOUNT" !in subs {
        err := SubscribeToAccountNotification(ACCOUNT, "ACCOUNT", now, hmacHex);
        if err.Some? {
          return;
        }
      }
      return None;
    }

    /** The fill goroutine of ListeningReports over what the ACCOUNT queue holds: it receives
        the batches oldest first and turns each tracked trade into a fill, and panics at the first
        item that is not a batch of account updates. */
    method DrainAccountFills(observer: WebsocketObserver) returns (fills: seq<Fill>, panicked: bool)
      requires Valid() && "ACCOUNT" in subs && AccountTyped(Pending["ACCOUNT"])
      modifies this, subs["ACCOUNT"]
      ensures Valid() && subs == old(subs) && sent == old(sent) && Repr == old(Repr)
      ensures var us := old(Pending)["ACCOUNT"]; var bs := AccountBatches(us);
        && (panicked <==> |bs| < |us|)
        && fills == Fills(bs, observer.items)
        && Pending == old(Pending)["ACCOUNT" := if panicked then us[|bs| + 1..] else []]
    {
      var batches;
      batches, panicked := ReceiveAccountBatches();
      AccountBatchesTyped(old(Pending)["ACCOUNT"]);
      fills := CollectFills(batches, observer);
    }

    /** The receiving half of the fill goroutine: the account batches at the head of the ACCOUNT
        queue, each received once, and whether the type assertion on the next item fails. */
    method ReceiveAccountBatches() returns (batches: seq<seq<AccountUpdate>>, panicked: bool)
      requires Valid() && "ACCOUNT" in subs
      modifies this, subs["ACCOUNT"]
      ensures Valid() && subs == old(subs) && sent == old(sent) && Repr == old(Repr)
      ensures var us := old(Pending)["ACCOUNT"];
        && batches == AccountBatches(us)
        && (panicked <==> |batches| < |us|)
        && Pending == old(Pending)["ACCOUNT" := if panicked then us[|batches| + 1..] else []]
    {
      ghost var us := Pending["ACCOUNT"];
      ghost var bs := AccountBatches(us);
      batches := [];
      panicked := false;
      while |subs["ACCOUNT"].items| > 0
        invariant |batches| <= |bs| && batches == bs[..|batches|]
        invariant Valid() && subs == old(subs) && sent == old(sent) && Repr == old(Repr)
        invariant Pending == old(Pending)["ACCOUNT" := us[|batches|..]]
        decreases |Pending["ACCOUNT"]|
      {
        var u := PopAccount();
        AccountBatchesStep(us, |batches|);
        if !u.AccountUpdates? {
          panicked := true;
          break;
        }
        batches := batches + [u.account];
      }
      AccountBatchesStop(us, |batches|);
      assert batches == bs;
    }

    /** A receive on the ACCOUNT queue: its oldest update, and nothing else changes. */
    method PopAccount() returns (u: WsUpdate)
      requires Valid() && "ACCOUNT" in subs && |Pending["ACCOUNT"]| > 0
      modifies this, subs["ACCOUNT"]
      ensures Valid() && subs == old(subs) && sent == old(sent) && Repr == old(Repr)
      ensures u == old(Pending)["ACCOUNT"][0]
      ensures Pending == old(Pending)["ACCOUNT" := old(Pending)["ACCOUNT"][1..]]
    {
      var q := subs["ACCOUNT"];
      u := q.Pop();
      Pending := Pending["ACCOUNT" := q.items];
      forall n | n in subs && n != "ACCOUNT" ensures subs[n].Valid() && subs[n].items == Pending[n] {
        assert subs[n] != q;
      }
    }

    /** The body of wsHandler's loop for one frame: decode it, then offer the update to its
        channel's queue without blocking. Returns whether the update was buffered. */
    method HandleFrame(byID: map<int, string>, marketChannels: seq<int>, frame: Json) returns (r: Outcome<bool>)
      requires Valid()
      modifies this, Repr
      ensures Valid() && subs == old(subs) && sent == old(sent) && Repr == old(Repr)
      ensures r.Panic? <==> DecodeFrame(frame, byID, marketChannels).Panic?
      ensures r.Ok? ==> Pending == Delivered(old(Pending), DecodeFrame(frame, byID, marketChannels).value)
      ensures StepFrame(Ok(old(Pending)), frame, byID, marketChannels) == if r.Panic? then Panic else Ok(Pending)
    {
      var d := DecodeFrame(frame, byID, marketChannels);
      if d.Panic? {
        return Panic;
      }
      if d.Err? || d.value.None? {
        return Ok(false);
      }
      var (name, u) := d.value.value;
      var ok := Offer(name, u);
      return Ok(ok);
    }

    /** The delivery step of wsHandler: a non-blocking send to the named channel's queue, if the
        channel is subscribed. */
    method Offer(name: string, u: WsUpdate) returns (delivered: bool)
      requires Valid()
      modifies this, Repr
      ensures Valid() && subs == old(subs) && sent == old(sent) && Repr == old(Repr)
      ensures delivered <==> name in subs && |old(Pending)[name]| < SUBSBUFFER
      ensures Pending == Delivered(old(Pending), Some((name, u)))
    {
      if name !in subs {
        return false;
      }
      var q := subs[name];
      delivered := q.TryPush(u);
      Pending := Pending[name := q.items];
      forall n | n in subs && n != name ensures subs[n].Valid() && subs[n].items == Pending[n] {
        assert subs[n] != q && Pending[n] == old(Pending)[n];
      }
    }

    /** wsHandler over a sequence of frames (reading them from the socket is not modelled); it
        stops at the first panic. */
    method HandleFrames(byID: map<int, string>, marketChannels: seq<int>, frames: seq<Json>) returns (r: Outcome<bool>)
      requires Valid()
      modifies this, Repr
      ensures Valid() && subs == old(subs) && sent == old(sent) && Repr == old(Repr)
      ensures DeliveredAll(old(Pending), frames, byID, marketChannels).Ok? ==>
        r.Ok? && Pending == DeliveredAll(old(Pending), frames, byID, marketChannels).value
      ensures r.Panic? <==> DeliveredAll(old(Pending), frames, byID, marketChannels).Panic?
    {
      ghost var start := Pending;
      var i := 0;
      while i < |frames|
        invariant 0 <= i <= |frames|
        invariant Valid() && subs == old(subs) && sent == old(sent) && Repr == old(Repr)
        invariant DeliveredAll(start, frames[..i], byID, marketChannels) == Ok(Pending)
      {
        var step := HandleFrame(byID, marketChannels, frames[i]);
        DeliveredAllStep(start, frames, i, byID, marketChannels);
        if step.Panic? {
          PanicPersists(start, frames, i + 1, byID, marketChannels);
          return Panic;
        }
        i := i + 1;
      }
      assert frames[..i] == frames;
      return Ok(true);
    }
  }

  /** The account batches of a typed queue are typed. */
  lemma AccountBatchesTyped(us: seq<WsUpdate>)
    requires AccountTyped(us)
    ensures var bs := AccountBatches(us); forall c, i | 0 <= c < |bs| && 0 <= i < |bs[c]| :: WellTyped(bs[c][i])
  {
    var bs := AccountBatches(us);
    forall c, i | 0 <= c < |bs| && 0 <= i < |bs[c]| ensures WellTyped(bs[c][i]) {
      assert bs[c] == us[c].account;
    }
  }

  /** One more frame extends the run by one step. */
  lemma DeliveredAllStep(pending: map<string, seq<WsUpdate>>, frames: seq<Json>, i: nat,
                         byID: map<int, string>, marketChannels: seq<int>)
    requires i < |frames|
    ensures DeliveredAll(pending, frames[..i + 1], byID, marketChannels) ==
      StepFrame(DeliveredAll(pending, frames[..i], byID, marketChannels), frames[i], byID, marketChannels)
  {
    assert frames[..i + 1][..i] == frames[..i];
  }

  /** Once a frame panics, every longer run of frames panics too. */
  lemma {:induction false} PanicPersists(pending: map<string, seq<WsUpdate>>, frames: seq<Json>, k: nat,
                                         byID: map<int, string>, marketChannels: seq<int>)
    requires k <= |frames| && DeliveredAll(pending, frames[..k], byID, marketChannels).Panic?
    ensures DeliveredAll(pending, frames, byID, marketChannels).Panic?
    decreases |frames| - k
  {
    if k < |frames| {
      assert frames[..k + 1][..k] == frames[..k];
      PanicPersists(pending, frames, k + 1, byID, marketChannels);
    } else {
      assert frames[..k] == frames;
    }
  }
}
