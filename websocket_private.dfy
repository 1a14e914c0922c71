/** websocket_private.go and websocket_private_messages.go: the decoder of the account
    notification channel and the join of its trades with the order registry. Float fields are
    kept as the decimal text the server sent. */
module WebsocketPrivate {
  import opened Errors
  import opened Text
  import opened Json
  import opened Observer

  // Codes and names of websocket_private_messages.go:6-28.
  const OrderTypeSell := 0.0
  const OrderTypeBuy := 1.0
  const OrderTypeSellValue := "sell"
  const OrderTypeBuyValue := "buy"
  const MessageTypePending := "Pending"
  const MessageTypeOrderUpdate := "OrderUpdate"
  const MessageTypeTrade := "Trade"
  const MessageTypeBalance := "BalanceUpdate"
  const MessageTypeNewOrder := "NewOrder"
  const MessageTypeMargin := "MarginPositionUpdate"
  const MessageTypeKill := "Kill"
  const KillError := "[ERROR] Account Notification Kill Parsing"

  /** The Data of an AccountUpdate, one variant per message struct. */
  datatype AccountData =
    | NoData
    | Pending(orderNumber: string, currencyPairID: string, rate: string, amount: string,
              orderType: string, clientOrderID: string, epochMS: string)
    | OrderUpdate(orderNumber: string, newAmount: string, orderType: string, clientOrderID: string,
                  canceledAmount: string)
    | Trade(tradeID: string, rate: string, amount: string, feeMultiplier: string, fundingType: string,
            orderNumber: string, totalFee: string, date: string, clientOrderID: string,
            tradeTotal: string, epochMS: string)
    | BalanceUpdate(currencyID: string, wallet: string, amount: string, balance: string)
    | NewOrder(currencyPairID: string, orderNumber: string, orderType: string, rate: string,
               amount: string, date: string, originalAmountOrdered: string, clientOrderID: string)
    | MarginPositionUpdate(orderNumber: string, currency: string, amount: string, clientOrderID: string)
    | Kill(orderNumber: string, clientOrderID: string)

  datatype AccountUpdate = AccountUpdate(data: AccountData, typeUpdate: string)

  /** The message type that belongs to each kind of data. */
  function TypeOf(d: AccountData): string
  {
    match d
    case NoData => ""
    case Pending(_, _, _, _, _, _, _) => MessageTypePending
    case OrderUpdate(_, _, _, _, _) => MessageTypeOrderUpdate
    case Trade(_, _, _, _, _, _, _, _, _, _, _) => MessageTypeTrade
    case BalanceUpdate(_, _, _, _) => MessageTypeBalance
    case NewOrder(_, _, _, _, _, _, _, _) => MessageTypeNewOrder
    case MarginPositionUpdate(_, _, _, _) => MessageTypeMargin
    case Kill(_, _) => MessageTypeKill
  }

  /** An update whose type names the kind of its data. */
  predicate WellTyped(u: AccountUpdate)
  {
    u.typeUpdate == TypeOf(u.data)
  }

  /** The message type each sub-message tag announces. */
  function TagType(tag: string): string
  {
    if tag == "p" then MessageTypePending
    else if tag == "o" then MessageTypeOrderUpdate
    else if tag == "t" then MessageTypeTrade
    else if tag == "b" then MessageTypeBalance
    else if tag == "n" then MessageTypeNewOrder
    else if tag == "m" then MessageTypeMargin
    else if tag == "k" then MessageTypeKill
    else ""
  }

  /** The order type codes of "p" and "n": 1 is a buy, 0 a sell, nothing else is known. */
  function OrderSide(code: real): (side: Option<string>)
    ensures side.Some? <==> code == OrderTypeBuy || code == OrderTypeSell
  {
    if code == OrderTypeBuy then Some(OrderTypeBuyValue)
    else if code == OrderTypeSell then Some(OrderTypeSellValue)
    else None
  }

  /** The code the server sends for a side. */
  function SideCode(side: string): real
    requires side == OrderTypeBuyValue || side == OrderTypeSellValue
  {
    if side == OrderTypeBuyValue then OrderTypeBuy else OrderTypeSell
  }

  /** Side codes and side names are in one-to-one correspondence. */
  lemma OrderSideRoundTrip(code: real, side: string)
    ensures (side == OrderTypeBuyValue || side == OrderTypeSellValue) ==> OrderSide(SideCode(side)) == Some(side)
    ensures OrderSide(code).Some? ==> SideCode(OrderSide(code).value) == code
  {
  }

  /** The kinds of an "o" order update: f fill, s self-trade, c canceled. */
  function UpdateKind(letter: string): (kind: Option<string>)
    ensures kind.Some? <==> letter in {"f", "s", "c"}
  {
    if letter == "f" then Some("fill")
    else if letter == "s" then Some("self-trade")
    else if letter == "c" then Some("canceled")
    else None
  }

  function KindLetter(kind: string): string
    requires kind in {"fill", "self-trade", "canceled"}
  {
    if kind == "fill" then "f" else if kind == "self-trade" then "s" else "c"
  }

  /** Kind letters and kind names are in one-to-one correspondence. */
  lemma UpdateKindRoundTrip(letter: string, kind: string)
    ensures kind in {"fill", "self-trade", "canceled"} ==> UpdateKind(KindLetter(kind)) == Some(kind)
    ensures UpdateKind(letter).Some? ==> KindLetter(UpdateKind(letter).value) == letter
  {
  }

  /** The wallets of a "b" balance update: e exchange, m margin, l lending. */
  function WalletName(letter: string): (name: Option<string>)
    ensures name.Some? <==> letter in {"e", "m", "l"}
  {
    if letter == "e" then Some("exchange")
    else if letter == "m" then Some("margin")
    else if letter == "l" then Some("lending")
    else None
  }

  function WalletLetter(name: string): string
    requires name in {"exchange", "margin", "lending"}
  {
    if name == "exchange" then "e" else if name == "margin" then "m" else "l"
  }

  /** Wallet letters and wallet names are in one-to-one correspondence. */
  lemma WalletRoundTrip(letter: string, name: string)
    ensures name in {"exchange", "margin", "lending"} ==> WalletName(WalletLetter(name)) == Some(name)
    ensures WalletName(letter).Some? ==> WalletLetter(WalletName(letter).value) == letter
  {
  }

  function AccountError(field: string): GoError
  {
    Error(WSAccountNotification, [field])
  }

  // Each sub-message decoder of websocket_private.go:133-408 is the list of demands its statements
  // make of the elements, in the order the statements run, followed by the update built from the
  // elements once every demand is met. A checked assertion (`v, ok := x.(T)`) demands with
  // Some(error), an unchecked one (`x.(T)`) with None; `%v` only demands the element exists.

  /** The statements of the "p" case, websocket_private.go:140-196. */
  const PendingDemands: seq<(nat, Demand)> := [
    (1, Number(Some(AccountError("pending.OrderNumber")))),
    (2, Number(Some(AccountError("pending.CurrencyPairID")))),
    (3, Float(Some(AccountError("pending.Rate")), AccountError("pending.Rate"))),
    (4, Float(Some(AccountError("pending.Amount")), AccountError("pending.Amount"))),
    (5, NumberIn(Some(AccountError("pending.OrderType")), {OrderTypeBuy, OrderTypeSell},
                 Error(WSWrongOrderType, ["pending.OrderType"]))),
    (6, Present),
    (7, Text(Some(AccountError("pending.EpochMS"))))]

  /** The "p" sub-message: an order is pending. Like every decoder below, it decodes exactly when
      its elements meet every demand, and a decoded message carries every field from its element;
      otherwise the statements run up to the first demand not met, and end with its failure. */
  function DecodePending(vals: seq<Json>): (r: Outcome<AccountUpdate>)
    ensures r.Ok? ==> WellTyped(r.value) && r.value.typeUpdate == MessageTypePending
    ensures r.Ok? <==> MeetsAll(vals, PendingDemands)
    ensures r.Ok? ==> (|vals| >= 8 && vals[1].JNum? && vals[2].JNum? && vals[3].JStr? && vals[4].JStr?
                       && vals[5].JNum? && OrderSide(vals[5].num).Some? && vals[7].JStr?)
    ensures r.Ok? ==> r.value == AccountUpdate(Pending(FormatFixed0(vals[1].num), FormatFixed0(vals[2].num),
      vals[3].str, vals[4].str, OrderSide(vals[5].num).value, Show(vals[6]), vals[7].str), MessageTypePending)
  {
    if MeetsAll(vals, PendingDemands) then
      var d := PendingDemands;
      assert Meets(vals, d[0]) && Meets(vals, d[1]) && Meets(vals, d[2]) && Meets(vals, d[3])
        && Meets(vals, d[4]) && Meets(vals, d[6]);
      Ok(AccountUpdate(Pending(FormatFixed0(vals[1].num), FormatFixed0(vals[2].num), vals[3].str, vals[4].str,
                               OrderSide(vals[5].num).value, Show(vals[6]), vals[7].str), MessageTypePending))
    else Check(vals, PendingDemands).PropagateFailure()
  }

  /** A "p" sub-message whose elements fail a demand ends with the failure of the first one. */
  lemma PendingFirstFailure(vals: seq<Json>, k: nat)
    requires FirstUnmet(vals, PendingDemands, k)
    ensures DecodePending(vals) == FailureAt(vals, PendingDemands, k)
  {
    CheckStopsAtFirstUnmet(vals, PendingDemands, k);
  }

  /** The statements of the "o" case, websocket_private.go:198-235: the amounts are asserted to be
      strings without a check. */
  const OrderUpdateDemands: seq<(nat, Demand)> := [
    (1, Number(Some(AccountError("orderUpdate.OrderNumber")))),
    (2, Float(None, AccountError("orderUpdate.NewAmount"))),
    (3, TextIn(Some(AccountError("orderUpdate.orderType")), {"f", "s", "c"},
               Error(WSWrongOrderType, ["orderUpdate.OrderType"]))),
    (4, Present),
    (5, Float(None, AccountError("orderUpdate.CanceledAmount")))]

  /** The "o" sub-message: an order was filled, self-traded or canceled. */
  function DecodeOrderUpdate(vals: seq<Json>): (r: Outcome<AccountUpdate>)
    ensures r.Ok? ==> WellTyped(r.value) && r.value.typeUpdate == MessageTypeOrderUpdate
    ensures r.Ok? <==> MeetsAll(vals, OrderUpdateDemands)
    ensures r.Ok? ==> (|vals| >= 6 && vals[1].JNum? && vals[2].JStr? && vals[3].JStr?
                       && UpdateKind(vals[3].str).Some? && vals[5].JStr?)
    ensures r.Ok? ==> r.value == AccountUpdate(OrderUpdate(FormatFixed0(vals[1].num), vals[2].str,
      UpdateKind(vals[3].str).value, Show(vals[4]), vals[5].str), MessageTypeOrderUpdate)
  {
    if MeetsAll(vals, OrderUpdateDemands) then
      var d := OrderUpdateDemands;
      assert Meets(vals, d[0]) && Meets(vals, d[1]) && Meets(vals, d[2]) && Meets(vals, d[4]);
      Ok(AccountUpdate(OrderUpdate(FormatFixed0(vals[1].num), vals[2].str, UpdateKind(vals[3].str).value,
                                   Show(vals[4]), vals[5].str), MessageTypeOrderUpdate))
    else Check(vals, OrderUpdateDemands).PropagateFailure()
  }

  /** A "o" sub-message whose elements fail a demand ends with the failure of the first one. */
  lemma OrderUpdateFirstFailure(vals: seq<Json>, k: nat)
    requires FirstUnmet(vals, OrderUpdateDemands, k)
    ensures DecodeOrderUpdate(vals) == FailureAt(vals, OrderUpdateDemands, k)
  {
    CheckStopsAtFirstUnmet(vals, OrderUpdateDemands, k);
  }

  /** The statements of the "t" case, websocket_private.go:237-290: the identifiers are checked
      numbers, the amounts unchecked strings. */
  const TradeDemands: seq<(nat, Demand)> := [
    (1, Number(Some(AccountError("trade.TradeId")))),
    (2, Float(None, AccountError("trade.Rate"))),
    (3, Float(None, AccountError("trade.Amount"))),
    (4, Float(None, AccountError("trade.FeeMultiplier"))),
    (5, Present),
    (6, Number(Some(AccountError("trade.OrderNumber")))),
    (7, Float(None, AccountError("trade.TotalFee"))),
    (8, Present),
    (9, Present),
    (10, Float(None, AccountError("trade.TradeTotal"))),
    (11, Present)]

  /** The "t" sub-message: one of the account's orders traded. (On a parse error the source
      returns its partly filled slice together with the error; the caller drops both, as here.) */
  function DecodeTrade(vals: seq<Json>): (r: Outcome<AccountUpdate>)
    ensures r.Ok? ==> WellTyped(r.value) && r.value.typeUpdate == MessageTypeTrade
    ensures r.Ok? <==> MeetsAll(vals, TradeDemands)
    ensures r.Ok? ==> (|vals| >= 12 && vals[1].JNum? && vals[2].JStr? && vals[3].JStr? && vals[4].JStr?
                       && vals[6].JNum? && vals[7].JStr? && vals[10].JStr?)
    ensures r.Ok? ==> r.value == AccountUpdate(Trade(FormatFixed0(vals[1].num), vals[2].str, vals[3].str,
      vals[4].str, Show(vals[5]), FormatFixed0(vals[6].num), vals[7].str, Show(vals[8]), Show(vals[9]),
      vals[10].str, Show(vals[11])), MessageTypeTrade)
  {
    if MeetsAll(vals, TradeDemands) then
      var d := TradeDemands;
      assert Meets(vals, d[0]) && Meets(vals, d[1]) && Meets(vals, d[2]) && Meets(vals, d[3])
        && Meets(vals, d[5]) && Meets(vals, d[6]) && Meets(vals, d[9]) && Meets(vals, d[10]);
      Ok(AccountUpdate(Trade(FormatFixed0(vals[1].num), vals[2].str, vals[3].str, vals[4].str, Show(vals[5]),
                             FormatFixed0(vals[6].num), vals[7].str, Show(vals[8]), Show(vals[9]), vals[10].str,
                             Show(vals[11])), MessageTypeTrade))
    else Check(vals, TradeDemands).PropagateFailure()
  }

  /** A "t" sub-message whose elements fail a demand ends with the failure of the first one. */
  lemma TradeFirstFailure(vals: seq<Json>, k: nat)
    requires FirstUnmet(vals, TradeDemands, k)
    ensures DecodeTrade(vals) == FailureAt(vals, TradeDemands, k)
  {
    CheckStopsAtFirstUnmet(vals, TradeDemands, k);
  }

  /** The statements of the "b" case, websocket_private.go:292-324. The wallet is printed with %v
      and then switched on as an unchecked string; both read element 2, so the second demand
      stands for both. */
  const BalanceDemands: seq<(nat, Demand)> := [
    (1, Number(Some(AccountError("balance.CurrencyID")))),
    (2, TextIn(None, {"e", "m", "l"}, AccountError("unknown balance.Wallet type"))),
    (3, Float(None, AccountError("balance.Amount"))),
    (4, Float(None, AccountError("balance.Balance")))]

  /** The "b" sub-message: an available balance changed. */
  function DecodeBalance(vals: seq<Json>): (r: Outcome<AccountUpdate>)
    ensures r.Ok? ==> WellTyped(r.value) && r.value.typeUpdate == MessageTypeBalance
    ensures r.Ok? <==> MeetsAll(vals, BalanceDemands)
    ensures r.Ok? ==> (|vals| >= 5 && vals[1].JNum? && vals[2].JStr? && WalletName(vals[2].str).Some?
                       && vals[3].JStr? && vals[4].JStr?)
    ensures r.Ok? ==> r.value == AccountUpdate(BalanceUpdate(FormatFixed0(vals[1].num),
      WalletName(vals[2].str).value, vals[3].str, vals[4].str), MessageTypeBalance)
  {
    if MeetsAll(vals, BalanceDemands) then
      var d := BalanceDemands;
      assert Meets(vals, d[0]) && Meets(vals, d[1]) && Meets(vals, d[2]) && Meets(vals, d[3]);
      Ok(AccountUpdate(BalanceUpdate(FormatFixed0(vals[1].num), WalletName(vals[2].str).value, vals[3].str,
                                     vals[4].str), MessageTypeBalance))
    else Check(vals, BalanceDemands).PropagateFailure()
  }

  /** A "b" sub-message whose elements fail a demand ends with the failure of the first one. */
  lemma BalanceFirstFailure(vals: seq<Json>, k: nat)
    requires FirstUnmet(vals, BalanceDemands, k)
    ensures DecodeBalance(vals) == FailureAt(vals, BalanceDemands, k)
  {
    CheckStopsAtFirstUnmet(vals, BalanceDemands, k);
  }

  /** The statements of the "n" case, websocket_private.go:326-366: the order type is asserted
      without a check, and an unknown code reports the field under the name "pending.OrderType". */
  const NewOrderDemands: seq<(nat, Demand)> := [
    (1, Present),
    (2, Number(Some(AccountError("order.OrderNumber")))),
    (3, NumberIn(None, {OrderTypeBuy, OrderTypeSell}, Error(WSWrongOrderType, ["pending.OrderType"]))),
    (4, Float(None, AccountError("order.Rate"))),
    (5, Float(None, AccountError("order.Amount"))),
    (6, Present),
    (7, Float(None, AccountError("order.OriginalAmountOrdered"))),
    (8, Present)]

  /** The "n" sub-message: a new limit order. */
  function DecodeNewOrder(vals: seq<Json>): (r: Outcome<AccountUpdate>)
    ensures r.Ok? ==> WellTyped(r.value) && r.value.typeUpdate == MessageTypeNewOrder
    ensures r.Ok? <==> MeetsAll(vals, NewOrderDemands)
    ensures r.Ok? ==> (|vals| >= 9 && vals[2].JNum? && vals[3].JNum? && OrderSide(vals[3].num).Some?
                       && vals[4].JStr? && vals[5].JStr? && vals[7].JStr?)
    ensures r.Ok? ==> r.value == AccountUpdate(NewOrder(Show(vals[1]), FormatFixed0(vals[2].num),
      OrderSide(vals[3].num).value, vals[4].str, vals[5].str, Show(vals[6]), vals[7].str, Show(vals[8])),
      MessageTypeNewOrder)
  {
    if MeetsAll(vals, NewOrderDemands) then
      var d := NewOrderDemands;
      assert Meets(vals, d[1]) && Meets(vals, d[2]) && Meets(vals, d[3]) && Meets(vals, d[4])
        && Meets(vals, d[6]) && Meets(vals, d[7]);
      Ok(AccountUpdate(NewOrder(Show(vals[1]), FormatFixed0(vals[2].num), OrderSide(vals[3].num).value,
                                vals[4].str, vals[5].str, Show(vals[6]), vals[7].str, Show(vals[8])),
                       MessageTypeNewOrder))
    else Check(vals, NewOrderDemands).PropagateFailure()
  }

  /** A "n" sub-message whose elements fail a demand ends with the failure of the first one. */
  lemma NewOrderFirstFailure(vals: seq<Json>, k: nat)
    requires FirstUnmet(vals, NewOrderDemands, k)
    ensures DecodeNewOrder(vals) == FailureAt(vals, NewOrderDemands, k)
  {
    CheckStopsAtFirstUnmet(vals, NewOrderDemands, k);
  }

  /** The statements of the "m" case, websocket_private.go:368-387. */
  const MarginDemands: seq<(nat, Demand)> := [
    (1, Number(Some(AccountError("mpu.OrderNumber")))),
    (2, Present),
    (3, Float(None, AccountError("mpu.Amount"))),
    (4, Present)]

  /** The "m" sub-message: a margin position changed. */
  function DecodeMargin(vals: seq<Json>): (r: Outcome<AccountUpdate>)
    ensures r.Ok? ==> WellTyped(r.value) && r.value.typeUpdate == MessageTypeMargin
    ensures r.Ok? <==> MeetsAll(vals, MarginDemands)
    ensures r.Ok? ==> |vals| >= 5 && vals[1].JNum? && vals[3].JStr?
    ensures r.Ok? ==> r.value == AccountUpdate(MarginPositionUpdate(FormatFixed0(vals[1].num), Show(vals[2]),
      vals[3].str, Show(vals[4])), MessageTypeMargin)
  {
    if MeetsAll(vals, MarginDemands) then
      var d := MarginDemands;
      assert Meets(vals, d[0]) && Meets(vals, d[2]) && Meets(vals, d[3]);
      Ok(AccountUpdate(MarginPositionUpdate(FormatFixed0(vals[1].num), Show(vals[2]), vals[3].str,
                                            Show(vals[4])), MessageTypeMargin))
    else Check(vals, MarginDemands).PropagateFailure()
  }

  /** A "m" sub-message whose elements fail a demand ends with the failure of the first one. */
  lemma MarginFirstFailure(vals: seq<Json>, k: nat)
    requires FirstUnmet(vals, MarginDemands, k)
    ensures DecodeMargin(vals) == FailureAt(vals, MarginDemands, k)
  {
    CheckStopsAtFirstUnmet(vals, MarginDemands, k);
  }

  /** The statements of the "k" case, websocket_private.go:389-401: its error has a message of its
      own. */
  const KillDemands: seq<(nat, Demand)> := [
    (1, Number(Some(Error(KillError, ["kill.OrderNumber"])))),
    (2, Present)]

  /** The "k" sub-message: an order was killed. */
  function DecodeKill(vals: seq<Json>): (r: Outcome<AccountUpdate>)
    ensures r.Ok? ==> WellTyped(r.value) && r.value.typeUpdate == MessageTypeKill
    ensures r.Ok? <==> MeetsAll(vals, KillDemands)
    ensures r.Ok? ==> |vals| >= 3 && vals[1].JNum?
    ensures r.Ok? ==> r.value == AccountUpdate(Kill(FormatFixed0(vals[1].num), Show(vals[2])), MessageTypeKill)
  {
    if MeetsAll(vals, KillDemands) then
      var d := KillDemands;
      assert Meets(vals, d[0]) && Meets(vals, d[1]);
      Ok(AccountUpdate(Kill(FormatFixed0(vals[1].num), Show(vals[2])), MessageTypeKill))
    else Check(vals, KillDemands).PropagateFailure()
  }

  /** A "k" sub-message whose elements fail a demand ends with the failure of the first one. */
  lemma KillFirstFailure(vals: seq<Json>, k: nat)
    requires FirstUnmet(vals, KillDemands, k)
    ensures DecodeKill(vals) == FailureAt(vals, KillDemands, k)
  {
    CheckStopsAtFirstUnmet(vals, KillDemands, k);
  }

  /** One sub-message of an account frame, dispatched on its tag. The sub-message and its tag are
      asserted without a check; an unknown tag leaves the zero update and no error. A decoded
      sub-message has the type its tag announces, and that type names the kind of its data. */
  function DecodeAccountEntry(val: Json): (r: Outcome<AccountUpdate>)
    ensures !(val.JArr? && |val.elems| > 0 && val.elems[0].JStr?) ==> r == Panic
    ensures r.Ok? ==> val.JArr? && |val.elems| > 0 && val.elems[0].JStr?
    ensures r.Ok? ==> WellTyped(r.value) && r.value.typeUpdate == TagType(val.elems[0].str)
  {
    var vals :- AsArray(val);
    var tag :- StringAt(vals, 0);
    if tag == "p" then DecodePending(vals)
    else if tag == "o" then DecodeOrderUpdate(vals)
    else if tag == "t" then DecodeTrade(vals)
    else if tag == "b" then DecodeBalance(vals)
    else if tag == "n" then DecodeNewOrder(vals)
    else if tag == "m" then DecodeMargin(vals)
    else if tag == "k" then DecodeKill(vals)
    else Ok(AccountUpdate(NoData, ""))
  }

  /** A sub-message with a tag the switch does not know decodes, whatever follows the tag, to the
      zero update. */
  lemma UnknownAccountTag(tag: string, rest: seq<Json>)
    requires tag !in {"p", "o", "t", "b", "n", "m", "k"}
    ensures DecodeAccountEntry(JArr([JStr(tag)] + rest)) == Ok(AccountUpdate(NoData, ""))
  {
    assert ([JStr(tag)] + rest)[0] == JStr(tag);
  }

  /** The decoding of each sub-message of an account frame, in order. */
  function AccountResults(args: seq<Json>): (rs: seq<Outcome<AccountUpdate>>)
    ensures |rs| == |args|
    ensures forall i | 0 <= i < |args| :: rs[i] == DecodeAccountEntry(args[i])
  {
    seq(|args|, i requires 0 <= i < |args| => DecodeAccountEntry(args[i]))
  }

  /** convertArgsToAccountNotification, as a value: one update per sub-message at the same index,
      or the first failure. */
  function DecodeAccount(args: seq<Json>): (r: Outcome<seq<AccountUpdate>>)
    ensures r.Ok? <==> forall i | 0 <= i < |args| :: DecodeAccountEntry(args[i]).Ok?
    ensures r.Ok? ==> |r.value| == |args|
    ensures r.Ok? ==> forall i | 0 <= i < |args| :: r.value[i] == DecodeAccountEntry(args[i]).value
    ensures r.Ok? ==> forall i | 0 <= i < |args| :: WellTyped(r.value[i])
  {
    AllOk(AccountResults(args))
  }

  /** The frame loop of convertArgsToAccountNotification: res[i] is filled in order, and any error
      or panic abandons the frame. */
  method ConvertArgsToAccountNotification(args: seq<Json>) returns (r: Outcome<seq<AccountUpdate>>)
    ensures r == DecodeAccount(args)
  {
    ghost var results := AccountResults(args);
    var res: seq<AccountUpdate> := [];
    var i := 0;
    while i < |args|
      invariant 0 <= i <= |args|
      invariant AllOk(results[..i]) == Ok(res)
    {
      var u := DecodeAccountEntry(args[i]);
      if u.IsFailure() {
        FirstFailureWins(results, i);
        return u.PropagateFailure();
      }
      AllOkStep(results, i, res);
      res := res + [u.value];
      i := i + 1;
    }
    assert results[..i] == results;
    return Ok(res);
  }

  /** A fill reported to the caller of ListeningReports. */
  datatype Fill = Fill(orderID: string, tradeID: string, symbol: string, price: string, size: string,
                       side: string, filledAt: string)

  /** The fills one update yields: a trade of a tracked order gives one, joined with what the
      registry knows of the order; every other update gives none. */
  function FillsOf(u: AccountUpdate, items: Items): (fs: seq<Fill>)
    requires WellTyped(u)
    ensures |fs| <= 1
    ensures |fs| == 1 <==> u.typeUpdate == MessageTypeTrade && u.data.orderNumber in items
  {
    if u.typeUpdate == MessageTypeTrade && u.data.orderNumber in items then
      var t, o := u.data, items[u.data.orderNumber];
      [Fill(t.orderNumber, t.tradeID, o.symbol, t.rate, t.amount, o.side, t.date)]
    else []
  }

  /** The fills of one batch of updates, in arrival order. */
  function TradeFills(updates: seq<AccountUpdate>, items: Items): (fs: seq<Fill>)
    requires forall i | 0 <= i < |updates| :: WellTyped(updates[i])
    ensures |fs| <= |updates|
  {
    if updates == [] then []
    else FillsOf(updates[0], items) + TradeFills(updates[1..], items)
  }

  /** The fills of a sequence of batches, in arrival order. */
  function Fills(batches: seq<seq<AccountUpdate>>, items: Items): (fs: seq<Fill>)
    requires forall b, i | 0 <= b < |batches| && 0 <= i < |batches[b]| :: WellTyped(batches[b][i])
  {
    if batches == [] then []
    else TradeFills(batches[0], items) + Fills(batches[1..], items)
  }

  /** Joining batches one after the other joins their fills one after the other. */
  lemma {:induction false} TradeFillsAppend(a: seq<AccountUpdate>, b: seq<AccountUpdate>, items: Items)
    requires forall i | 0 <= i < |a| :: WellTyped(a[i])
    requires forall i | 0 <= i < |b| :: WellTyped(b[i])
    ensures forall i | 0 <= i < |a + b| :: WellTyped((a + b)[i])
    ensures TradeFills(a + b, items) == TradeFills(a, items) + TradeFills(b, items)
  {
    if a == [] {
      assert a + b == b;
    } else {
      assert (a + b)[0] == a[0];
      assert (a + b)[1..] == a[1..] + b;
      TradeFillsAppend(a[1..], b, items);
    }
  }

  /** Every fill is a trade of a tracked order: its order and trade come from the trade, its symbol
      and side from the registry. */
  lemma {:induction false} FillsComeFromTrackedTrades(updates: seq<AccountUpdate>, items: Items, k: nat)
    requires forall i | 0 <= i < |updates| :: WellTyped(updates[i])
    requires k < |TradeFills(updates, items)|
    ensures exists i | 0 <= i < |updates| :: FilledFrom(TradeFills(updates, items)[k], updates[i], items)
  {
    var head := FillsOf(updates[0], items);
    if k < |head| {
      assert TradeFills(updates, items)[k] == head[k];
      assert FilledFrom(head[k], updates[0], items);
    } else {
      FillsComeFromTrackedTrades(updates[1..], items, k - |head|);
      var i :| 0 <= i < |updates[1..]| && FilledFrom(TradeFills(updates[1..], items)[k - |head|], updates[1..][i], items);
      assert TradeFills(updates, items)[k] == TradeFills(updates[1..], items)[k - |head|];
      assert updates[1..][i] == updates[i + 1];
    }
  }

  /** The fill f reports the trade u of an order the registry tracks. */
  predicate FilledFrom(f: Fill, u: AccountUpdate, items: Items)
  {
    u.data.Trade? && u.data.orderNumber in items && f.orderID == u.data.orderNumber
    && f.tradeID == u.data.tradeID && f.symbol == items[u.data.orderNumber].symbol
    && f.side == items[u.data.orderNumber].side && f.price == u.data.rate && f.size == u.data.amount
    && f.filledAt == u.data.date
  }

  /** Every trade of a tracked order is reported as a fill. */
  lemma {:induction false} TrackedTradesAreFilled(updates: seq<AccountUpdate>, items: Items, i: nat)
    requires forall j | 0 <= j < |updates| :: WellTyped(updates[j])
    requires i < |updates| && updates[i].data.Trade? && updates[i].data.orderNumber in items
    ensures exists k | 0 <= k < |TradeFills(updates, items)| :: FilledFrom(TradeFills(updates, items)[k], updates[i], items)
  {
    var head := FillsOf(updates[0], items);
    if i == 0 {
      assert TradeFills(updates, items)[0] == head[0];
      assert FilledFrom(head[0], updates[0], items);
    } else {
      assert updates[1..][i - 1] == updates[i];
      TrackedTradesAreFilled(updates[1..], items, i - 1);
      var k :| 0 <= k < |TradeFills(updates[1..], items)| && FilledFrom(TradeFills(updates[1..], items)[k], updates[i], items);
      assert TradeFills(updates, items)[|head| + k] == TradeFills(updates[1..], items)[k];
    }
  }

  /** A batch with no trade of a tracked order yields no fill. */
  lemma {:induction false} UntrackedNeverFilled(updates: seq<AccountUpdate>, items: Items)
    requires forall j | 0 <= j < |updates| :: WellTyped(updates[j])
    requires forall j | 0 <= j < |updates| :: !(updates[j].data.Trade? && updates[j].data.orderNumber in items)
    ensures TradeFills(updates, items) == []
  {
    if updates != [] {
      UntrackedNeverFilled(updates[1..], items);
    }
  }

  /** Appending a batch appends its fills. */
  lemma {:induction false} FillsAppend(batches: seq<seq<AccountUpdate>>, updates: seq<AccountUpdate>, items: Items)
    requires forall b, i | 0 <= b < |batches| && 0 <= i < |batches[b]| :: WellTyped(batches[b][i])
    requires forall i | 0 <= i < |updates| :: WellTyped(updates[i])
    ensures forall b, i | 0 <= b < |batches + [updates]| && 0 <= i < |(batches + [updates])[b]| ::
      WellTyped((batches + [updates])[b][i])
    ensures Fills(batches + [updates], items) == Fills(batches, items) + TradeFills(updates, items)
  {
    if batches == [] {
      assert [updates][1..] == [];
    } else {
      assert (batches + [updates])[0] == batches[0];
      assert (batches + [updates])[1..] == batches[1..] + [updates];
      FillsAppend(batches[1..], updates, items);
    }
  }

  lemma ConcatAssoc<T>(a: seq<T>, b: seq<T>, c: seq<T>)
    ensures (a + b) + c == a + (b + c)
  {
  }

  /** One more update of a batch adds its fills at the end. */
  lemma TradeFillsStep(updates: seq<AccountUpdate>, i: nat, items: Items)
    requires forall j | 0 <= j < |updates| :: WellTyped(updates[j])
    requires i < |updates|
    ensures TradeFills(updates[..i + 1], items) == TradeFills(updates[..i], items) + FillsOf(updates[i], items)
  {
    assert updates[..i + 1] == updates[..i] + [updates[i]];
    TradeFillsAppend(updates[..i], [updates[i]], items);
    assert [updates[i]][1..] == [];
  }

  /** One more batch adds its fills at the end. */
  lemma FillsStep(batches: seq<seq<AccountUpdate>>, b: nat, items: Items)
    requires forall c, i | 0 <= c < |batches| && 0 <= i < |batches[c]| :: WellTyped(batches[c][i])
    requires b < |batches|
    ensures Fills(batches[..b + 1], items) == Fills(batches[..b], items) + TradeFills(batches[b], items)
  {
    assert batches[..b + 1] == batches[..b] + [batches[b]];
    FillsAppend(batches[..b], batches[b], items);
  }

  /** The fill goroutine of ListeningReports over the batches the ACCOUNT queue delivers: each
      trade whose order the registry tracks becomes a fill, in arrival order. */
  method CollectFills(batches: seq<seq<AccountUpdate>>, observer: WebsocketObserver) returns (fills: seq<Fill>)
    requires forall b, i | 0 <= b < |batches| && 0 <= i < |batches[b]| :: WellTyped(batches[b][i])
    ensures fills == Fills(batches, observer.items)
  {
    fills := [];
    var b := 0;
    while b < |batches|
      invariant 0 <= b <= |batches|
      invariant fills == Fills(batches[..b], observer.items)
    {
      var updates := batches[b];
      ghost var before := fills;
      var i := 0;
      while i < |updates|
        invariant 0 <= i <= |updates|
        invariant fills == before + TradeFills(updates[..i], observer.items)
      {
        var msg := updates[i];
        TradeFillsStep(updates, i, observer.items);
        ghost var found := FillsOf(msg, observer.items);
        ConcatAssoc(before, TradeFills(updates[..i], observer.items), found);
        ghost var prior := fills;
        if msg.typeUpdate == MessageTypeTrade {
          var trade := msg.data;
          var tracked := observer.IsObservable(trade.orderNumber);
          if tracked {
            var servObj, err := observer.Items(trade.orderNumber);
            if err.Some? {
              assert false;
            }
            fills := fills + [Fill(trade.orderNumber, trade.tradeID, servObj.symbol, trade.rate, trade.amount,
                                   servObj.side, trade.date)];
          }
        }
        assert fills == prior + found;
        i := i + 1;
      }
      assert updates[..i] == updates;
      FillsStep(batches, b, observer.items);
      b := b + 1;
    }
    assert batches[..b] == batches;
  }
}
