/** Error values of the client (errors.go) and the result shapes used throughout the model. */
module Errors {

  /** Go's `error` interface: a non-nil error carries its message text. */
  datatype GoError = GoError(text: string)

  /** A nil-able value, used for Go's `error` results (None is nil). */
  datatype Option<+T> = None | Some(value: T)

  /** The outcome of a Go operation returning `(T, error)` that may also panic: Err is a returned
      error, Panic a run-time panic (failed unchecked type assertion, index out of range). */
  datatype Outcome<+T> = Ok(value: T) | Err(error: GoError) | Panic
  {
    predicate IsFailure() { !Ok? }

    function PropagateFailure<U>(): Outcome<U>
      requires !Ok?
    {
      if Err? then Err(error) else Panic
    }

    function Extract(): T
      requires Ok?
    {
      value
    }
  }

  /** A loop over results that stops at the first failure: every value, in order, when all
      succeed; otherwise the first failure. */
  function AllOk<T>(rs: seq<Outcome<T>>): (r: Outcome<seq<T>>)
    ensures r.Ok? <==> forall i | 0 <= i < |rs| :: rs[i].Ok?
    ensures r.Ok? ==> |r.value| == |rs|
    ensures r.Ok? ==> forall i | 0 <= i < |rs| :: r.value[i] == rs[i].value
  {
    if rs == [] then Ok([])
    else
      var n := |rs| - 1;
      assert forall i | 0 <= i < n :: rs[..n][i] == rs[i];
      var front :- AllOk(rs[..n]);
      var last :- rs[n];
      Ok(front + [last])
  }

  /** After a run of successes, the first failure is the failure of the whole. */
  lemma {:induction false} FirstFailureWins<T>(rs: seq<Outcome<T>>, k: nat)
    requires k < |rs| && !rs[k].Ok?
    requires AllOk(rs[..k]).Ok?
    ensures AllOk(rs) == rs[k].PropagateFailure()
  {
    var n := |rs| - 1;
    if k < n {
      assert rs[..n][k] == rs[k];
      assert rs[..n][..k] == rs[..k];
      FirstFailureWins(rs[..n], k);
    } else {
      assert rs[..n] == rs[..k];
    }
  }

  /** One more success extends the collected values by one. */
  lemma AllOkStep<T>(rs: seq<Outcome<T>>, i: nat, done: seq<T>)
    requires i < |rs| && rs[i].Ok? && AllOk(rs[..i]) == Ok(done)
    ensures AllOk(rs[..i + 1]) == Ok(done + [rs[i].value])
  {
    assert rs[..i + 1][..i] == rs[..i];
  }

  // Message constants (errors.go:9-26).
  const ConnectError := "[ERROR] Connection could not be established!"
  const RequestError := "[ERROR] NewRequest Error!"
  const SetAPIError := "[ERROR] Set the API KEY and API SECRET!"
  const PeriodError := "[ERROR] Invalid Period!"
  const TimePeriodError := "[ERROR] Time Period incompatibility!"
  const TimeError := "[ERROR] Invalid Time!"
  const StartTimeError := "[ERROR] Start Time Format Error!"
  const EndTimeError := "[ERROR] End Time Format Error!"
  const LimitError := "[ERROR] Limit Format Error!"
  const ChannelError := "[ERROR] Unknown Channel Name: %s"
  const SubscribeError := "[ERROR] Already Subscribed!"
  const WSTickerError := "[ERROR] WSTicker Parsing %s"
  const WSOrderBookError := "[ERROR] MarketUpdate OrderBook Parsing %s"
  const NewTradeError := "[ERROR] MarketUpdate NewTrade Parsing %s"
  const WSAccountNotification := "[ERROR] Account Notification Parsing %s"
  const WSWrongOrderType := "[ERROR] Account Notification Parsing: Wrong Order Type %s"
  const ServerError := "[SERVER ERROR] Response: %s"

  /** `%v` of a `[]interface{}` holding strings: the elements separated by single spaces. */
  function Words(args: seq<string>): string
  {
    if |args| == 0 then ""
    else if |args| == 1 then args[0]
    else args[0] + " " + Words(args[1..])
  }

  /** errors.go `Error(msg, args...)`: the bare message without arguments; otherwise
      `fmt.Errorf("%v %v", msg, args)`, which prints the argument list in brackets. Placeholders
      such as `%s` inside msg are never substituted. */
  function Error(msg: string, args: seq<string>): (e: GoError)
    ensures |args| == 0 ==> e.text == msg
    ensures |args| > 0 ==> e.text == msg + " [" + Words(args) + "]"
  {
    if |args| > 0 then GoError(msg + " " + "[" + Words(args) + "]") else GoError(msg)
  }

  /** The message always leads the text, and arguments only ever extend it. */
  lemma ErrorKeepsMessage(msg: string, args: seq<string>)
    ensures |Error(msg, args).text| >= |msg|
    ensures Error(msg, args).text[..|msg|] == msg
    ensures |args| > 0 <==> |Error(msg, args).text| > |msg|
  {
  }

  /** A one-argument error determines its argument: two errors built from the same message agree
      exactly when their arguments agree. */
  lemma ErrorArgumentRecoverable(msg: string, a: string, b: string)
    ensures Error(msg, [a]) == Error(msg, [b]) <==> a == b
  {
    if Error(msg, [a]) == Error(msg, [b]) {
      var ta, tb := Error(msg, [a]).text, Error(msg, [b]).text;
      assert ta[|msg| + 2..|ta| - 1] == a;
      assert tb[|msg| + 2..|tb| - 1] == b;
    }
  }

  /** The `%s` of ChannelError stays literal: the channel name follows it in brackets. */
  lemma ChannelErrorKeepsPlaceholder(name: string)
    ensures Error(ChannelError, [name]).text == "[ERROR] Unknown Channel Name: %s [" + name + "]"
  {
  }
}
