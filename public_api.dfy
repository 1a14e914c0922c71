/** public_api.go: the validation and query strings of GetChartData, GetPublicTradeHistory and
    GetOrderBook, and the key routing of Volume.UnmarshalJSON. */
module PublicApi {
  import opened Errors
  import opened Text
  import opened Json

  /** A time as its Unix seconds; Go's zero time.Time is the instant of year 1, which is this
      number of seconds before the Unix epoch. */
  const ZeroUnix := -62135596800

  predicate IsZero(t: int)
  {
    t == ZeroUnix
  }

  const Day := 86400

  /** The candle periods GetChartData accepts, in seconds. */
  function PeriodSeconds(period: string): (sec: Option<nat>)
    ensures sec.Some? <==> period in {"5m", "15m", "30m", "2h", "4h", "1d"}
    ensures sec.Some? ==> 300 <= sec.value <= Day
  {
    if period == "5m" then Some(300)
    else if period == "15m" then Some(900)
    else if period == "30m" then Some(1800)
    else if period == "2h" then Some(7200)
    else if period == "4h" then Some(14400)
    else if period == "1d" then Some(86400)
    else None
  }

  /** The name of a period length. */
  function PeriodName(sec: nat): string
    requires sec in {300, 900, 1800, 7200, 14400, 86400}
  {
    if sec == 300 then "5m"
    else if sec == 900 then "15m"
    else if sec == 1800 then "30m"
    else if sec == 7200 then "2h"
    else if sec == 14400 then "4h"
    else "1d"
  }

  /** Period names and lengths are in one-to-one correspondence. */
  lemma PeriodRoundTrip(period: string, sec: nat)
    ensures PeriodSeconds(period).Some? ==> PeriodName(PeriodSeconds(period).value) == period
    ensures sec in {300, 900, 1800, 7200, 14400, 86400} ==> PeriodSeconds(PeriodName(sec)) == Some(sec)
  {
  }

  /** The [start, end] window of GetChartData: both times given and at least one period apart,
      or both zero for the day up to now; exactly one zero time is refused. */
  function ChartWindow(start: int, end: int, periodSec: nat, now: int): (r: Outcome<(int, int)>)
    ensures !r.Panic?
    ensures r.Ok? <==> (!IsZero(start) && !IsZero(end) && end - start >= periodSec) || (IsZero(start) && IsZero(end))
    ensures r.Ok? && !IsZero(start) ==> r.value == (start, end)
    ensures r.Ok? && IsZero(start) ==> r.value == (now - Day, now)
    ensures r.Err? ==> r.error == Error(TimePeriodError, []) || r.error == Error(TimeError, [])
    ensures r.Err? ==> (r.error == Error(TimeError, []) <==> IsZero(start) != IsZero(end))
  {
    if !IsZero(start) && !IsZero(end) then
      if end - start < periodSec then Err(Error(TimePeriodError, [])) else Ok((start, end))
    else if IsZero(start) && IsZero(end) then Ok((now - Day, now))
    else Err(Error(TimeError, []))
  }

  /** GetChartData's validation and action string; now is the current Unix time. */
  function ChartAction(market: string, start: int, end: int, period: string, now: int): (r: Outcome<string>)
    ensures !r.Panic?
    ensures PeriodSeconds(period).None? ==> r == Err(Error(PeriodError, []))
    ensures PeriodSeconds(period).Some? ==> (r.Ok? <==> ChartWindow(start, end, PeriodSeconds(period).value, now).Ok?)
    ensures (PeriodSeconds(period).Some? && ChartWindow(start, end, PeriodSeconds(period).value, now).Err?)
      ==> r == Err(ChartWindow(start, end, PeriodSeconds(period).value, now).error)
  {
    var periodSec :- match PeriodSeconds(period)
      case None => Err(Error(PeriodError, []))
      case Some(sec) => Ok(sec);
    var window :- ChartWindow(start, end, periodSec, now);
    Ok("returnChartData&currencyPair=" + ToUpper(market) + "&start=" + IntToString(window.0)
       + "&end=" + IntToString(window.1) + "&period=" + IntToString(periodSec))
  }

  /** An accepted chart query names the upper-cased market, the window ChartWindow accepted
      (start and end as given, or the day up to now when both are zero) and the period in
      seconds; all three numbers read back as the values they were written from. */
  lemma ChartActionWindow(market: string, start: int, end: int, period: string, now: int)
    requires ChartAction(market, start, end, period, now).Ok?
    requires MinInt64 <= start <= MaxInt64 && MinInt64 <= end <= MaxInt64 && MinInt64 + Day <= now <= MaxInt64
    ensures PeriodSeconds(period).Some?
    ensures var p := PeriodSeconds(period).value; var w := ChartWindow(start, end, p, now);
      w.Ok? && w.value == (if IsZero(start) then (now - Day, now) else (start, end)) && w.value.1 - w.value.0 >= p
      && ChartAction(market, start, end, period, now).value == "returnChartData&currencyPair=" + ToUpper(market)
        + "&start=" + IntToString(w.value.0) + "&end=" + IntToString(w.value.1) + "&period=" + IntToString(p)
      && Atoi(IntToString(w.value.0)) == Some(w.value.0) && Atoi(IntToString(w.value.1)) == Some(w.value.1)
      && Atoi(IntToString(p)) == Some(p)
  {
    var p := PeriodSeconds(period).value;
    var w := ChartWindow(start, end, p, now).value;
    IntToStringRoundTrip(w.0);
    IntToStringRoundTrip(w.1);
    IntToStringRoundTrip(p);
  }

  /** The period is checked before the times: a bad period wins over a bad window. */
  lemma PeriodCheckedFirst(market: string, period: string, t: int, now: int)
    requires PeriodSeconds(period).None? && !IsZero(t)
    ensures ChartAction(market, t, ZeroUnix, period, now) == Err(Error(PeriodError, []))
  {
  }

  /** A span of exactly one period is accepted; one second less is refused. */
  lemma SpanOfOnePeriod(market: string, start: int, period: string, now: int)
    requires PeriodSeconds(period).Some? && !IsZero(start)
    requires !IsZero(start + PeriodSeconds(period).value) && !IsZero(start + PeriodSeconds(period).value - 1)
    ensures ChartAction(market, start, start + PeriodSeconds(period).value, period, now).Ok?
    ensures ChartAction(market, start, start + PeriodSeconds(period).value - 1, period, now)
      == Err(Error(TimePeriodError, []))
  {
  }

  /** GetPublicTradeHistory's action: the window is appended only when exactly two times are
      given, start first. */
  function TradeHistoryAction(market: string, times: seq<int>): (action: string)
    ensures var base := "returnTradeHistory&currencyPair=" + ToUpper(market);
      |action| >= |base| && action[..|base|] == base && (|action| > |base| <==> |times| == 2)
    ensures var base := "returnTradeHistory&currencyPair=" + ToUpper(market);
      |times| == 2 ==> action[|base|..] == "&start=" + IntToString(times[0]) + "&end=" + IntToString(times[1])
    ensures |times| != 2 ==> action == "returnTradeHistory&currencyPair=" + ToUpper(market)
  {
    var base := "returnTradeHistory&currencyPair=" + ToUpper(market);
    if |times| == 2 then
      var action := base + "&start=" + IntToString(times[0]) + "&end=" + IntToString(times[1]);
      assert action[..|base|] == base;
      assert action[|base|..] == "&start=" + IntToString(times[0]) + "&end=" + IntToString(times[1]);
      action
    else base
  }

  /** The start and end of a windowed trade-history query read back from the text appended to
      the base action, as the times given. */
  lemma TradeHistoryWindowReadsBack(market: string, start: int, end: int)
    requires MinInt64 <= start <= MaxInt64 && MinInt64 <= end <= MaxInt64
    ensures var base := "returnTradeHistory&currencyPair=" + ToUpper(market);
      var tail := TradeHistoryAction(market, [start, end])[|base|..];
      var s, e := IntToString(start), IntToString(end);
      |tail| == 12 + |s| + |e| && Atoi(tail[7..7 + |s|]) == Some(start) && Atoi(tail[|tail| - |e|..]) == Some(end)
  {
    WindowFields(IntToString(start), IntToString(end));
    IntToStringRoundTrip(start);
    IntToStringRoundTrip(end);
  }

  lemma WindowFields(s: string, e: string)
    ensures var t := "&start=" + s + "&end=" + e; |t| == 12 + |s| + |e| && t[7..7 + |s|] == s && t[|t| - |e|..] == e
  {
    var t := "&start=" + s + "&end=" + e;
    assert t == "&start=" + (s + ("&end=" + e));
  }

  /** GetOrderBook's action. */
  function OrderBookAction(market: string, depth: int): (action: string)
    ensures var head := "returnOrderBook&currencyPair=" + ToUpper(market); var tail := "&depth=" + IntToString(depth);
      |action| == |head| + |tail| && action[..|head|] == head && action[|head|..] == tail
  {
    "returnOrderBook&currencyPair=" + ToUpper(market) + "&depth=" + IntToString(depth)
  }

  /** The depth reads back from the end of the action. */
  lemma OrderBookDepthReadsBack(market: string, depth: int)
    requires MinInt64 <= depth <= MaxInt64
    ensures var a := OrderBookAction(market, depth); var d := IntToString(depth);
      Atoi(a[|a| - |d|..]) == Some(depth)
  {
    var a := OrderBookAction(market, depth);
    var d := IntToString(depth);
    assert a[|a| - |d|..] == d;
    IntToStringRoundTrip(depth);
  }

  /** The 24-hour volumes: per market a map of currency amounts (kept as JSON values) and six
      totals kept as the decimal text the server sent. */
  datatype Volume = Volume(volumes: map<string, seq<(string, Json)>>, totalBTC: string, totalETH: string,
                           totalUSDC: string, totalUSDT: string, totalXMR: string, totalXUSD: string)

  const ZeroVolume := Volume(map[], "0", "0", "0", "0", "0", "0")

  const TotalKeys := {"totalBTC", "totalETH", "totalUSDC", "totalUSDT", "totalXMR", "totalXUSD"}

  /** The total a key names. */
  function Total(v: Volume, key: string): string
    requires key in TotalKeys
  {
    if key == "totalBTC" then v.totalBTC
    else if key == "totalETH" then v.totalETH
    else if key == "totalUSDC" then v.totalUSDC
    else if key == "totalUSDT" then v.totalUSDT
    else if key == "totalXMR" then v.totalXMR
    else v.totalXUSD
  }

  function SetTotal(v: Volume, key: string, text: string): (w: Volume)
    requires key in TotalKeys
    ensures Total(w, key) == text && w.volumes == v.volumes
    ensures forall k | k in TotalKeys && k != key :: Total(w, k) == Total(v, k)
  {
    if key == "totalBTC" then v.(totalBTC := text)
    else if key == "totalETH" then v.(totalETH := text)
    else if key == "totalUSDC" then v.(totalUSDC := text)
    else if key == "totalUSDT" then v.(totalUSDT := text)
    else if key == "totalXMR" then v.(totalXMR := text)
    else v.(totalXUSD := text)
  }

  /** The error of a value that does not decode; the text of encoding/json's and strconv's own
      errors is not modelled, so it names the key. */
  function DecodeFailure(key: string): GoError
  {
    GoError("cannot decode " + key)
  }

  /** One key of the response: a total must be a JSON string holding a float; any other key must
      be an object (or null, which leaves the per-market map empty). */
  function VolumeEntry(v: Volume, key: string, value: Json): (r: Outcome<Volume>)
    ensures !r.Panic?
    ensures r.Err? ==> r.error == DecodeFailure(key)
    ensures key in TotalKeys ==> (r.Ok? <==> value.JStr? && IsFloatText(value.str))
    ensures key in TotalKeys && r.Ok? ==> r.value == SetTotal(v, key, value.str)
    ensures key !in TotalKeys ==> (r.Ok? <==> value.JObj? || value.JNull?)
    ensures key !in TotalKeys && r.Ok? ==> r.value.volumes == v.volumes[key := if value.JObj? then Entries(value.members) else []]
    ensures key !in TotalKeys && r.Ok? ==> forall k | k in TotalKeys :: Total(r.value, k) == Total(v, k)
  {
    if key in TotalKeys then
      if value.JStr? && IsFloatText(value.str) then Ok(SetTotal(v, key, value.str)) else Err(DecodeFailure(key))
    else if value.JObj? then Ok(v.(volumes := v.volumes[key := Entries(value.members)]))
    else if value.JNull? then Ok(v.(volumes := v.volumes[key := []]))
    else Err(DecodeFailure(key))
  }

  /** The keys of the response taken in order. */
  function DecodeVolume(entries: seq<(string, Json)>): (r: Outcome<Volume>)
    ensures !r.Panic?
  {
    if entries == [] then Ok(ZeroVolume)
    else
      var v :- DecodeVolume(entries[..|entries| - 1]);
      VolumeEntry(v, entries[|entries| - 1].0, entries[|entries| - 1].1)
  }

  /** Volume.UnmarshalJSON over the members of the response object, visited once per distinct key:
      the first key that does not decode ends the decoding with its error. */
  method UnmarshalVolume(members: seq<(string, Json)>) returns (r: Outcome<Volume>)
    ensures r == DecodeVolume(Entries(members))
  {
    var entries := Entries(members);
    var v := ZeroVolume;
    var i := 0;
    while i < |entries|
      invariant 0 <= i <= |entries|
      invariant DecodeVolume(entries[..i]) == Ok(v)
    {
      var (key, value) := entries[i];
      var step := VolumeEntry(v, key, value);
      DecodeVolumeStep(entries, i, v);
      if step.Err? {
        VolumeErrorPersists(entries, i + 1);
        return step;
      }
      v := step.value;
      i := i + 1;
    }
    assert entries[..i] == entries;
    return Ok(v);
  }

  /** One more member of the prefix goes through VolumeEntry. */
  lemma DecodeVolumeStep(entries: seq<(string, Json)>, i: nat, v: Volume)
    requires i < |entries| && DecodeVolume(entries[..i]) == Ok(v)
    ensures DecodeVolume(entries[..i + 1]) == VolumeEntry(v, entries[i].0, entries[i].1)
  {
    assert entries[..i + 1][..i] == entries[..i];
  }

  /** Once a prefix fails, the whole fails with the same error. */
  lemma {:induction false} VolumeErrorPersists(entries: seq<(string, Json)>, k: nat)
    requires k <= |entries| && DecodeVolume(entries[..k]).Err?
    ensures DecodeVolume(entries) == DecodeVolume(entries[..k])
    decreases |entries| - k
  {
    if k < |entries| {
      assert entries[..k + 1][..k] == entries[..k];
      VolumeErrorPersists(entries, k + 1);
    } else {
      assert entries[..k] == entries;
    }
  }

  /** Exactly the keys other than the six totals become per-market entries. */
  lemma {:induction false} VolumeKeys(entries: seq<(string, Json)>)
    requires DecodeVolume(entries).Ok?
    ensures DecodeVolume(entries).value.volumes.Keys == KeysOf(entries) - TotalKeys
  {
    if entries != [] {
      var n := |entries| - 1;
      var init := entries[..n];
      var last := entries[n];
      VolumeKeys(init);
      var before := DecodeVolume(init).value.volumes.Keys;
      var after := DecodeVolume(entries).value.volumes.Keys;
      assert after == before + ({last.0} - TotalKeys) by {
        assert DecodeVolume(entries) == VolumeEntry(DecodeVolume(init).value, last.0, last.1);
      }
      KeysOfInit(entries);
      DifferenceOfSnoc(KeysOf(init), last.0, TotalKeys);
    }
  }

  /** Removing a set from a set grown by one element. */
  lemma DifferenceOfSnoc(a: set<string>, x: string, t: set<string>)
    ensures (a + {x}) - t == (a - t) + ({x} - t)
  {
  }

  /** The total key at position i fills its field with the text it carries, when no key
      repeats. */
  lemma {:induction false} VolumeTotalAt(entries: seq<(string, Json)>, i: nat)
    requires DistinctKeys(entries) && DecodeVolume(entries).Ok?
    requires i < |entries| && entries[i].0 in TotalKeys
    ensures entries[i].1.JStr? && Total(DecodeVolume(entries).value, entries[i].0) == entries[i].1.str
  {
    var n := |entries| - 1;
    var init := entries[..n];
    var v := DecodeVolume(init).value;
    var w := VolumeEntry(v, entries[n].0, entries[n].1);
    assert DecodeVolume(entries) == w;
    if i < n {
      DistinctKeysInit(entries);
      assert init[i] == entries[i];
      VolumeTotalAt(init, i);
      assert entries[i].0 != entries[n].0;
    }
  }

  /** Each total key fills its field with the text it carries, when no key repeats. */
  lemma VolumeTotals(entries: seq<(string, Json)>)
    requires DistinctKeys(entries) && DecodeVolume(entries).Ok?
    ensures forall i | 0 <= i < |entries| && entries[i].0 in TotalKeys ::
      entries[i].1.JStr? && Total(DecodeVolume(entries).value, entries[i].0) == entries[i].1.str
  {
    forall i | 0 <= i < |entries| && entries[i].0 in TotalKeys
      ensures entries[i].1.JStr? && Total(DecodeVolume(entries).value, entries[i].0) == entries[i].1.str
    {
      VolumeTotalAt(entries, i);
    }
  }

  /** Key routing over the members of the response: the six total keys fill their fields with
      the text they carry, and every other key, and only those, becomes a per-market entry. */
  lemma VolumeRouting(members: seq<(string, Json)>)
    requires DecodeVolume(Entries(members)).Ok?
    ensures DecodeVolume(Entries(members)).value.volumes.Keys == KeysOf(members) - TotalKeys
    ensures forall k | k in KeysOf(members) && k in TotalKeys ::
      Lookup(members, k).value.JStr? && Total(DecodeVolume(Entries(members)).value, k) == Lookup(members, k).value.str
  {
    var es := Entries(members);
    EntriesAreTheMap(members);
    VolumeKeys(es);
    VolumeTotals(es);
    forall k | k in KeysOf(members) && k in TotalKeys
      ensures Lookup(members, k).value.JStr? && Total(DecodeVolume(es).value, k) == Lookup(members, k).value.str
    {
      var i :| 0 <= i < |es| && es[i].0 == k;
    }
  }
}
