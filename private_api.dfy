/** private_api.go: the request parameters of the trading commands, the pruning of
    GetAllOpenOrders, the classification of GetOrderStat and the registration of placed orders
    with the order registry. The HTTP exchange itself is an input: its error and the decoded
    response are parameters. */
module PrivateApi {
  import opened Errors
  import opened Text
  import opened Json
  import opened Observer
  import opened WebsocketPrivate

  /** A trading request: the command and its form parameters. */
  datatype Request = Request(command: string, parameters: map<string, string>)

  /** A left-padding with zeros to at least n characters. */
  function PadZeros(s: string, n: nat): (t: string)
    ensures |t| >= n && |t| >= |s|
    ensures AllDigits(s) ==> AllDigits(t)
  {
    if |s| >= n then s
    else
      var z := Zeros(n - |s|);
      ZerosAreDigits(n - |s|);
      assert forall i | 0 <= i < |z + s| :: (z + s)[i] == if i < |z| then z[i] else s[i - |z|];
      z + s
  }

  lemma {:induction false} ZerosAreDigits(n: nat)
    ensures |Zeros(n)| == n && AllDigits(Zeros(n))
  {
    if n > 0 {
      ZerosAreDigits(n - 1);
      assert Zeros(n) == "0" + Zeros(n - 1);
    }
  }

  /** strconv.FormatFloat(x, 'f', 8, 64) on the exact value: the magnitude rounded to eight
      decimals, ties to even, with a minus sign for every negative input. */
  function FormatFixed8(x: real): (s: string)
    ensures |s| >= 10 && s[|s| - 9] == '.'
    ensures AllDigits(s[|s| - 8..])
    ensures x >= 0.0 ==> AllDigits(s[..|s| - 9])
    ensures x < 0.0 ==> s[0] == '-' && AllDigits(s[1..|s| - 9])
  {
    var digits := PadZeros(NatToString(RoundHalfEven((if x < 0.0 then -x else x) * 100000000.0)), 9);
    var whole, fraction := digits[..|digits| - 8], digits[|digits| - 8..];
    var sign := if x < 0.0 then "-" else "";
    var s := sign + whole + "." + fraction;
    assert s[|s| - 8..] == fraction;
    assert s[..|s| - 9] == sign + whole;
    assert sign == "-" ==> s[1..|s| - 9] == whole;
    s
  }

  /** Appending a zero digit multiplies by ten. */
  lemma NatToStringTimesTen(n: nat)
    requires n > 0
    ensures NatToString(n * 10) == NatToString(n) + "0"
  {
    assert (n * 10) / 10 == n && (n * 10) % 10 == 0;
  }

  /** Appending k zero digits multiplies by 10^k. */
  lemma {:induction false} NatToStringShifted(n: nat, k: nat)
    requires n > 0
    ensures NatToString(n * Pow10(k)) == NatToString(n) + Zeros(k)
  {
    if k > 0 {
      NatToStringShifted(n, k - 1);
      var p := Pow10(k - 1);
      ShiftByTen(n, p);
      NatToStringTimesTen(n * p);
      ZerosSnoc(k - 1);
    }
  }

  lemma ShiftByTen(n: nat, p: nat)
    requires n > 0 && p >= 1
    ensures n * p > 0 && n * (10 * p) == (n * p) * 10
  {
  }

  lemma EightZeros()
    ensures Pow10(8) == 100000000
    ensures Zeros(8) == "00000000"
  {
    assert Zeros(2) == "00";
    assert Zeros(4) == "0000";
    assert Zeros(6) == "000000";
  }

  /** The digits FormatFixed8 splits around the point, for a whole amount. */
  lemma WholeDigits(n: nat)
    ensures var d := PadZeros(NatToString(n * 100000000), 9);
      FormatFixed8(n as real) == d[..|d| - 8] + "." + d[|d| - 8..]
  {
    var x, m := n as real, n * 100000000;
    assert (if x < 0.0 then -x else x) * 100000000.0 == m as real;
    RoundWhole(m);
    var d := PadZeros(NatToString(m), 9);
    assert FormatFixed8(x) == (if x < 0.0 then "-" else "") + d[..|d| - 8] + "." + d[|d| - 8..];
    assert (if x < 0.0 then "-" else "") + d[..|d| - 8] == d[..|d| - 8];
  }

  /** The digits of FormatFixed8(x) on both sides of the point, read as one numeral, are |x|
      scaled by 10^8 and rounded half to even: the text is |x| to eight decimals. */
  lemma FormatFixed8Value(x: real)
    ensures var s := FormatFixed8(x); var body := if x < 0.0 then s[1..] else s;
      |body| >= 10 && AllDigits(body[..|body| - 9] + body[|body| - 8..])
      && DigitsValue(body[..|body| - 9] + body[|body| - 8..])
         == RoundHalfEven((if x < 0.0 then -x else x) * 100000000.0)
  {
    var m := RoundHalfEven((if x < 0.0 then -x else x) * 100000000.0);
    FormatFixed8Digits(x);
    PadZerosValue(NatToString(m), 9);
    NatToStringRoundTrip(m);
  }

  /** Without its sign and its point, FormatFixed8(x) is the padded numeral of the rounded value. */
  lemma FormatFixed8Digits(x: real)
    ensures var s := FormatFixed8(x); var body := if x < 0.0 then s[1..] else s;
      |body| >= 10 && body[..|body| - 9] + body[|body| - 8..]
         == PadZeros(NatToString(RoundHalfEven((if x < 0.0 then -x else x) * 100000000.0)), 9)
  {
    var d := PadZeros(NatToString(RoundHalfEven((if x < 0.0 then -x else x) * 100000000.0)), 9);
    var sign := if x < 0.0 then "-" else "";
    var s := FormatFixed8(x);
    FormatFixed8Shape(x);
    JoinAroundPoint(sign, d);
    assert (if x < 0.0 then s[1..] else s) == s[|sign|..];
  }

  lemma FormatFixed8Shape(x: real)
    ensures var d := PadZeros(NatToString(RoundHalfEven((if x < 0.0 then -x else x) * 100000000.0)), 9);
      FormatFixed8(x) == (if x < 0.0 then "-" else "") + d[..|d| - 8] + "." + d[|d| - 8..]
  {
  }

  /** Dropping the sign and the point of sign + whole + "." + fraction gives the digits back. */
  lemma JoinAroundPoint(sign: string, d: string)
    requires |d| >= 9
    ensures var s := sign + d[..|d| - 8] + "." + d[|d| - 8..]; var body := s[|sign|..];
      |body| >= 10 && body[..|body| - 9] + body[|body| - 8..] == d
  {
    var s := sign + d[..|d| - 8] + "." + d[|d| - 8..];
    assert s[|sign|..] == d[..|d| - 8] + "." + d[|d| - 8..];
  }

  /** Padding with zeros on the left keeps the value of a numeral. */
  lemma PadZerosValue(s: string, n: nat)
    requires AllDigits(s)
    ensures AllDigits(PadZeros(s, n)) && DigitsValue(PadZeros(s, n)) == DigitsValue(s)
  {
    if |s| < n {
      LeadingZerosValue(n - |s|, s);
    }
  }

  lemma {:induction false} LeadingZerosValue(k: nat, s: string)
    requires AllDigits(s)
    ensures AllDigits(Zeros(k) + s) && DigitsValue(Zeros(k) + s) == DigitsValue(s)
    decreases |s|
  {
    ZerosAreDigits(k);
    var z := Zeros(k);
    assert forall i | 0 <= i < |z + s| :: (z + s)[i] == if i < |z| then z[i] else s[i - |z|];
    if s == [] {
      assert z + s == z;
      ZerosValue(k);
    } else {
      var init := s[..|s| - 1];
      assert (z + s)[..|z + s| - 1] == z + init;
      LeadingZerosValue(k, init);
    }
  }

  lemma {:induction false} ZerosValue(k: nat)
    ensures AllDigits(Zeros(k)) && DigitsValue(Zeros(k)) == 0
  {
    ZerosAreDigits(k);
    if k > 0 {
      ZerosSnoc(k - 1);
      ZerosValue(k - 1);
      assert Zeros(k)[..k - 1] == Zeros(k - 1);
    }
  }

  /** A whole amount needs no rounding. */
  lemma RoundWhole(m: nat)
    ensures RoundHalfEven(m as real) == m
  {
    assert (m as real).Floor == m;
  }

  lemma ZeroDigits()
    ensures PadZeros(NatToString(0), 9) == "000000000"
  {
    EightZeros();
    assert NatToString(0) == "0";
  }

  lemma {:induction false} PositiveDigits(n: nat, d: string)
    requires n > 0 && d == PadZeros(NatToString(n * 100000000), 9)
    ensures d[..|d| - 8] == NatToString(n) && d[|d| - 8..] == "00000000"
  {
    EightZeros();
    NatToStringShifted(n, 8);
    assert NatToString(n * 100000000) == NatToString(n) + "00000000";
  }

  lemma ZeroAmount()
    ensures FormatFixed8(0 as real) == "0.00000000"
  {
    var d := PadZeros(NatToString(0), 9);
    WholeDigits(0);
    assert FormatFixed8(0 as real) == d[..|d| - 8] + "." + d[|d| - 8..];
    ZeroDigits();
    assert d[..|d| - 8] == "0" && d[|d| - 8..] == "00000000";
    ZeroText();
  }

  lemma ZeroText()
    ensures "0" + "." + "00000000" == "0.00000000"
  {
    var t := "0" + "." + "00000000";
    assert |t| == 10;
    forall i | 0 <= i < 10 ensures t[i] == "0.00000000"[i] {
    }
  }

  lemma {:induction false} PositiveAmount(n: nat)
    requires n > 0
    ensures FormatFixed8(n as real) == NatToString(n) + ".00000000"
  {
    WholeDigits(n);
    PositiveDigits(n, PadZeros(NatToString(n * 100000000), 9));
  }

  /** A whole amount is written with eight zero decimals. */
  lemma {:induction false} FormatFixed8OfNat(n: nat)
    ensures FormatFixed8(n as real) == NatToString(n) + ".00000000"
  {
    if n == 0 {
      ZeroAmount();
    } else {
      PositiveAmount(n);
    }
  }

  /** GenerateNewAddress (private_api.go:102). */
  function NewAddressRequest(currency: string): (r: Request)
    ensures r.parameters.Keys == {"currency"} && r.parameters["currency"] == ToUpper(currency)
  {
    Request("generateNewAddress", map["currency" := ToUpper(currency)])
  }

  /** GetOpenOrders (private_api.go:132). */
  function OpenOrdersRequest(market: string): (r: Request)
    ensures r.parameters.Keys == {"currencyPair"} && r.parameters["currencyPair"] == ToUpper(market)
  {
    Request("returnOpenOrders", map["currencyPair" := ToUpper(market)])
  }

  /** GetAllOpenOrders (private_api.go:151): the literal "all", which is not upper-cased. */
  const AllOpenOrdersRequest := Request("returnOpenOrders", map["currencyPair" := "all"])

  /** GetTradeHistory (private_api.go:210-215), with the two times as Unix seconds. */
  function TradeHistoryRequest(market: string, start: int, end: int, limit: int): (r: Request)
    ensures r.parameters.Keys == {"currencyPair", "start", "end", "limit"}
    ensures r.parameters["currencyPair"] == ToUpper(market)
  {
    Request("returnTradeHistory", map["currencyPair" := ToUpper(market), "start" := IntToString(start),
                                      "end" := IntToString(end), "limit" := IntToString(limit)])
  }

  /** The server reads back the times and the limit it was sent. */
  lemma TradeHistoryReadsBack(market: string, start: int, end: int, limit: int)
    requires MinInt64 <= start <= MaxInt64 && MinInt64 <= end <= MaxInt64 && MinInt64 <= limit <= MaxInt64
    ensures var ps := TradeHistoryRequest(market, start, end, limit).parameters;
      Atoi(ps["start"]) == Some(start) && Atoi(ps["end"]) == Some(end) && Atoi(ps["limit"]) == Some(limit)
  {
    IntToStringRoundTrip(start);
    IntToStringRoundTrip(end);
    IntToStringRoundTrip(limit);
  }

  /** Buy and Sell (private_api.go:344-348 and 372-376): the pair upper-cased, rate and amount with
      eight decimals. */
  function OrderRequest(command: string, market: string, price: real, amount: real): (r: Request)
    ensures r.command == command
    ensures r.parameters.Keys == {"currencyPair", "rate", "amount"}
    ensures r.parameters["currencyPair"] == ToUpper(market)
    ensures r.parameters["rate"] == FormatFixed8(price) && r.parameters["amount"] == FormatFixed8(amount)
  {
    Request(command, map["currencyPair" := ToUpper(market), "rate" := FormatFixed8(price),
                         "amount" := FormatFixed8(amount)])
  }

  /** Every market or currency symbol a request carries is upper case, and the price and amount
      have exactly eight decimals. */
  lemma SymbolsUpperCased(currency: string, market: string, start: int, end: int, limit: int, price: real, amount: real)
    ensures IsUpperCase(NewAddressRequest(currency).parameters["currency"])
    ensures IsUpperCase(OpenOrdersRequest(market).parameters["currencyPair"])
    ensures IsUpperCase(TradeHistoryRequest(market, start, end, limit).parameters["currencyPair"])
    ensures IsUpperCase(OrderRequest("buy", market, price, amount).parameters["currencyPair"])
    ensures IsUpperCase(OrderRequest("sell", market, price, amount).parameters["currencyPair"])
  {
  }

  /** An entry of the open-orders map; the decimals are kept as text. */
  datatype OpenOrder = OpenOrder(orderNumber: string, orderType: string, price: string, startingAmount: string,
                                 amount: string, total: string, date: string, margin: int)

  /** The open-orders map without the markets that have no open order. */
  function NonEmptyMarkets(openOrders: map<string, seq<OpenOrder>>): (m: map<string, seq<OpenOrder>>)
    ensures forall k :: k in m <==> k in openOrders && |openOrders[k]| > 0
    ensures forall k | k in m :: m[k] == openOrders[k]
  {
    map k | k in openOrders && |openOrders[k]| > 0 :: openOrders[k]
  }

  /** Pruning twice is pruning once, and pruning never adds a market. */
  lemma NonEmptyMarketsIdempotent(openOrders: map<string, seq<OpenOrder>>)
    ensures NonEmptyMarkets(NonEmptyMarkets(openOrders)) == NonEmptyMarkets(openOrders)
    ensures NonEmptyMarkets(openOrders).Keys <= openOrders.Keys
  {
  }

  /** GetAllOpenOrders after the request: an error (of the request or of the decoding) is returned
      as it is; otherwise the markets with an empty list are deleted one by one. */
  method GetAllOpenOrders(decoded: map<string, seq<OpenOrder>>, err: Option<GoError>)
    returns (openOrders: map<string, seq<OpenOrder>>, e: Option<GoError>)
    ensures e == err
    ensures err.None? ==> openOrders == NonEmptyMarkets(decoded)
  {
    openOrders := decoded;
    if err.Some? {
      return openOrders, err;
    }
    var keys := decoded.Keys;
    while keys != {}
      invariant keys <= decoded.Keys
      invariant openOrders == map k | k in decoded && (k in keys || |decoded[k]| > 0) :: decoded[k]
      decreases |keys|
    {
      var k :| k in keys;
      if |openOrders[k]| == 0 {
        openOrders := openOrders - {k};
      }
      keys := keys - {k};
    }
    return openOrders, None;
  }

  /** The order status the server reports; the decimals are kept as text. */
  datatype OrderStat = OrderStat(status: string, rate: string, amount: string, currencyPair: string, date: string,
                                 total: string, orderType: string, startingAmount: string)

  const ZeroOrderStat := OrderStat("", "", "", "", "", "", "", "")

  /** The response read as an error report (success and result.error). */
  datatype OrderStat1 = OrderStat1(success: int, error: string)

  /** The response read as a success report (success and the result map). */
  datatype OrderStat2 = OrderStat2(success: int, result: map<string, OrderStat>)

  const UnexpectedResult := GoError("unexpected result")

  /** GetOrderStat after the request: the request error, then the first decoding and its error
      check, then the second decoding and its success check. */
  function GetOrderStat(orderNumber: string, requestErr: Option<GoError>, check1: OrderStat1, err1: Option<GoError>,
                        check2: OrderStat2, err2: Option<GoError>): (r: Outcome<OrderStat>)
    ensures !r.Panic?
    ensures r.Ok? <==> requestErr.None? && err1.None? && !(check1.success == 0 && |check1.error| > 0)
                        && err2.None? && check2.success == 1
    ensures r.Ok? ==> r.value == if orderNumber in check2.result then check2.result[orderNumber] else ZeroOrderStat
    ensures requestErr.Some? ==> r == Err(requestErr.value)
    ensures requestErr.None? && err1.Some? ==> r == Err(err1.value)
    ensures requestErr.None? && err1.None? && check1.success == 0 && |check1.error| > 0 ==> r == Err(GoError(check1.error))
    ensures requestErr.None? && err1.None? && !(check1.success == 0 && |check1.error| > 0) && err2.Some? ==>
      r == Err(err2.value)
    ensures (requestErr.None? && err1.None? && !(check1.success == 0 && |check1.error| > 0) && err2.None?
             && check2.success != 1) ==> r == Err(UnexpectedResult)
  {
    if requestErr.Some? then Err(requestErr.value)
    else if err1.Some? then Err(err1.value)
    else if check1.success == 0 && |check1.error| > 0 then Err(GoError(check1.error))
    else if err2.Some? then Err(err2.value)
    else if check2.success == 1 then
      Ok(if orderNumber in check2.result then check2.result[orderNumber] else ZeroOrderStat)
    else Err(UnexpectedResult)
  }

  /** A server error message always wins over the result map, whatever success code accompanies
      it in the second reading. */
  lemma ServerErrorWins(orderNumber: string, check1: OrderStat1, check2: OrderStat2, err2: Option<GoError>)
    requires check1.success == 0 && |check1.error| > 0
    ensures GetOrderStat(orderNumber, None, check1, None, check2, err2) == Err(GoError(check1.error))
  {
  }

  /** An empty error text with success 0 is not an error report: the status then depends on the
      second reading alone. */
  lemma EmptyErrorIsNotReported(orderNumber: string, check2: OrderStat2)
    ensures GetOrderStat(orderNumber, None, OrderStat1(0, ""), None, check2, None) ==
      if check2.success == 1 then
        Ok(if orderNumber in check2.result then check2.result[orderNumber] else ZeroOrderStat)
      else Err(UnexpectedResult)
  {
  }

  /** The response of buy and sell. */
  datatype OrderResult = OrderResult(orderNumber: string)

  /** The registry after an order is placed with the given side: a fresh order number is filed
      under that side and the upper-cased market; a tracked one leaves the registry as it was. */
  function Registration(items: Items, side: string, market: string, orderNumber: string): (r: Items)
    ensures orderNumber in r
    ensures orderNumber !in items ==> r[orderNumber] == ServerableObject(side, ToUpper(market), orderNumber)
    ensures orderNumber in items ==> r == items
  {
    Observed(items, side, ToUpper(market), orderNumber)
  }

  /** As written, Sell registers with side "buy", so a trade of a fresh sell order is reported as a
      buy fill. */
  lemma SellAsWrittenReportsBuy(items: Items, market: string, u: AccountUpdate)
    requires WellTyped(u) && u.data.Trade? && u.data.orderNumber !in items
    ensures var fs := FillsOf(u, Registration(items, "buy", market, u.data.orderNumber));
      |fs| == 1 && fs[0].side == "buy" && fs[0].side != "sell"
  {
  }

  /** As intended, registering with the side the order was placed with reports a trade of a fresh
      sell order as a sell fill and one of a fresh buy order as a buy fill, both with the
      upper-cased market. */
  lemma RegisteredSideReachesFill(items: Items, market: string, u: AccountUpdate)
    requires WellTyped(u) && u.data.Trade? && u.data.orderNumber !in items
    ensures var fs := FillsOf(u, Registration(items, "sell", market, u.data.orderNumber));
      |fs| == 1 && fs[0].side == "sell" && fs[0].symbol == ToUpper(market)
    ensures var fs := FillsOf(u, Registration(items, "buy", market, u.data.orderNumber));
      |fs| == 1 && fs[0].side == "buy" && fs[0].symbol == ToUpper(market)
  {
  }

  /** The REST client with the order registry it reports placed orders to. */
  class Poloniex {
    const observer: WebsocketObserver
    var requests: seq<Request>

    constructor (observer: WebsocketObserver)
      ensures this.observer == observer && requests == []
    {
      this.observer := observer;
      requests := [];
    }

    /** Buy: the request is sent; a request error returns at once, and otherwise the order is
        registered as a buy, even if the decoding failed; Observe's error is discarded. */
    method Buy(market: string, price: real, amount: real, requestErr: Option<GoError>, decoded: OrderResult,
               decodeErr: Option<GoError>) returns (buy: OrderResult, err: Option<GoError>)
      requires observer.Valid()
      modifies this, observer
      ensures observer.Valid()
      ensures requests == old(requests) + [OrderRequest("buy", market, price, amount)]
      ensures requestErr.Some? ==> err == requestErr && observer.items == old(observer.items)
      ensures requestErr.None? ==> (buy == decoded && err == decodeErr
        && observer.items == Registration(old(observer.items), "buy", market, decoded.orderNumber))
    {
      var request := OrderRequest("buy", market, price, amount);
      requests := requests + [request];
      if requestErr.Some? {
        return OrderResult(""), requestErr;
      }
      buy, err := decoded, decodeErr;
      var _ := observer.Observe("buy", request.parameters["currencyPair"], buy.orderNumber);
    }

    /** Sell as written: like Buy, with a sell request, but the order is registered under side
        "buy" too (registering it with side "sell" is what is intended). */
    method Sell(market: string, price: real, amount: real, requestErr: Option<GoError>, decoded: OrderResult,
                decodeErr: Option<GoError>) returns (sell: OrderResult, err: Option<GoError>)
      requires observer.Valid()
      modifies this, observer
      ensures observer.Valid()
      ensures requests == old(requests) + [OrderRequest("sell", market, price, amount)]
      ensures requestErr.Some? ==> err == requestErr && observer.items == old(observer.items)
      ensures requestErr.None? ==> (sell == decoded && err == decodeErr
        && observer.items == Registration(old(observer.items), "buy", market, decoded.orderNumber))
    {
      var request := OrderRequest("sell", market, price, amount);
      requests := requests + [request];
      if requestErr.Some? {
        return OrderResult(""), requestErr;
      }
      sell, err := decoded, decodeErr;
      var _ := observer.Observe("buy", request.parameters["currencyPair"], sell.orderNumber);
    }
  }
}
