/** Already-parsed JSON values as `encoding/json` hands them to the client (`interface{}` holding
    float64, string, bool, nil, []interface{} or map[string]interface{}), and the two fmt verbs the
    decoders apply to them: `%.0f` for identifiers and `%v` for free-form fields. */
module Json {
  import opened Errors
  import opened Text

  /** A JSON number is kept as its exact value; an object as its members in document order. */
  datatype Json =
    | JNull
    | JBool(b: bool)
    | JNum(num: real)
    | JStr(str: string)
    | JArr(elems: seq<Json>)
    | JObj(members: seq<(string, Json)>)

  /** The keys an object's members mention. */
  function KeysOf<V>(members: seq<(string, V)>): set<string>
  {
    set i | 0 <= i < |members| :: members[i].0
  }

  lemma KeysOfAppend<V>(a: seq<(string, V)>, b: seq<(string, V)>)
    ensures KeysOf(a + b) == KeysOf(a) + KeysOf(b)
  {
    forall k | k in KeysOf(a) + KeysOf(b) ensures k in KeysOf(a + b) {
      if k in KeysOf(a) {
        var i :| 0 <= i < |a| && a[i].0 == k;
        assert (a + b)[i] == a[i];
      } else {
        var i :| 0 <= i < |b| && b[i].0 == k;
        assert (a + b)[|a| + i] == b[i];
      }
    }
  }

  /** The keys of all members are those of all but the last, plus the last one's. */
  lemma KeysOfInit<V>(members: seq<(string, V)>)
    requires members != []
    ensures KeysOf(members) == KeysOf(members[..|members| - 1]) + {members[|members| - 1].0}
  {
    var n := |members| - 1;
    forall k | k in KeysOf(members) ensures k in KeysOf(members[..n]) + {members[n].0} {
      var i :| 0 <= i < |members| && members[i].0 == k;
      if i < n { assert members[..n][i] == members[i]; }
    }
    forall k | k in KeysOf(members[..n]) ensures k in KeysOf(members) {
      var i :| 0 <= i < n && members[..n][i].0 == k;
      assert members[..n][i] == members[i];
    }
  }

  /** The value a decoded Go map holds for key: the last member with that key wins. */
  function Lookup<V>(members: seq<(string, V)>, key: string): (r: Option<V>)
    ensures r.Some? <==> key in KeysOf(members)
  {
    if members == [] then None
    else if members[|members| - 1].0 == key then Some(members[|members| - 1].1)
    else
      var r := Lookup(members[..|members| - 1], key);
      assert KeysOf(members) == KeysOf(members[..|members| - 1]) + {members[|members| - 1].0};
      r
  }

  /** The entries of the decoded Go map: each key once, with the value Lookup gives it. Go visits
      them in an unspecified order; this model visits them in the document order of each key's last
      occurrence, one of the orders Go may pick. */
  function Entries<V>(members: seq<(string, V)>): (es: seq<(string, V)>)
  {
    if members == [] then []
    else if members[0].0 in KeysOf(members[1..]) then Entries(members[1..])
    else [members[0]] + Entries(members[1..])
  }

  predicate DistinctKeys<V>(es: seq<(string, V)>)
  {
    forall i, j | 0 <= i < j < |es| :: es[i].0 != es[j].0
  }

  /** The entries mention every key exactly once, each with its looked-up value. */
  lemma {:induction false} EntriesAreTheMap<V>(members: seq<(string, V)>)
    ensures DistinctKeys(Entries(members))
    ensures KeysOf(Entries(members)) == KeysOf(members)
    ensures forall i | 0 <= i < |Entries(members)| ::
              Lookup(members, Entries(members)[i].0) == Some(Entries(members)[i].1)
  {
    if members != [] {
      var rest := members[1..];
      EntriesAreTheMap(rest);
      assert KeysOf(members) == {members[0].0} + KeysOf(rest);
      forall k | k in KeysOf(rest) ensures Lookup(members, k) == Lookup(rest, k) {
        LookupSkipsHead(members, k);
      }
      if members[0].0 !in KeysOf(rest) {
        LookupHead(members);
        assert Entries(members) == [members[0]] + Entries(rest);
        KeysOfAppend([members[0]], Entries(rest));
        assert KeysOf([members[0]]) == {members[0].0} by {
          assert [members[0]][0] == members[0];
        }
      }
    }
  }

  /** Lookup ignores the first member when a later one has the same key or the key differs. */
  lemma {:induction false} LookupSkipsHead<V>(members: seq<(string, V)>, key: string)
    requires members != [] && key in KeysOf(members[1..])
    ensures Lookup(members, key) == Lookup(members[1..], key)
  {
    var n := |members|;
    if members[n - 1].0 != key {
      var front := members[..n - 1];
      assert KeysOf(members[1..]) == KeysOf(front[1..]) + {members[n - 1].0} by {
        assert members[1..] == front[1..] + [members[n - 1]];
      }
      LookupSkipsHead(front, key);
      assert front[1..] == members[1..][..n - 2];
    }
  }

  /** The first member's value is the looked-up one when no later member repeats its key. */
  lemma {:induction false} LookupHead<V>(members: seq<(string, V)>)
    requires members != [] && members[0].0 !in KeysOf(members[1..])
    ensures Lookup(members, members[0].0) == Some(members[0].1)
  {
    var n := |members|;
    if n > 1 {
      assert members[n - 1] == members[1..][n - 2];
      var front := members[..n - 1];
      assert front[1..] == members[1..][..n - 2];
      assert KeysOf(front[1..]) <= KeysOf(members[1..]);
      LookupHead(front);
    }
  }

  /** A sequence with distinct keys has as many members as keys. */
  lemma {:induction false} DistinctKeysCount<V>(es: seq<(string, V)>)
    requires DistinctKeys(es)
    ensures |KeysOf(es)| == |es|
  {
    if es != [] {
      var rest := es[1..];
      DistinctKeysCount(rest);
      assert KeysOf(es) == {es[0].0} + KeysOf(rest);
      assert es[0].0 !in KeysOf(rest);
    }
  }

  /** The decoded map has one entry per distinct key. */
  lemma EntriesCount<V>(members: seq<(string, V)>)
    ensures |Entries(members)| == |KeysOf(members)|
  {
    EntriesAreTheMap(members);
    DistinctKeysCount(Entries(members));
  }

  /** Dropping the last entry keeps the keys distinct. */
  lemma DistinctKeysInit<V>(es: seq<(string, V)>)
    requires DistinctKeys(es) && es != []
    ensures DistinctKeys(es[..|es| - 1])
  {
    var init := es[..|es| - 1];
    forall a, b | 0 <= a < b < |init| ensures init[a].0 != init[b].0 {
      assert init[a] == es[a] && init[b] == es[b];
    }
  }

  /** int(f) for a float64 f: truncation toward zero. */
  function Trunc(r: real): (n: int)
    ensures r >= 0.0 ==> n as real <= r < n as real + 1.0
    ensures r < 0.0 ==> n as real - 1.0 < r <= n as real
  {
    if r >= 0.0 then r.Floor else -((-r).Floor)
  }

  /** The nearest integer to a non-negative real, ties to the even neighbour. */
  function RoundHalfEven(r: real): (n: nat)
    requires r >= 0.0
    ensures r - 0.5 <= n as real <= r + 0.5
    ensures (n as real == r - 0.5 || n as real == r + 0.5) ==> n % 2 == 0
  {
    var f := r.Floor;
    var d := r - f as real;
    if d < 0.5 then f
    else if d > 0.5 then f + 1
    else if f % 2 == 0 then f
    else f + 1
  }

  /** fmt's `%.0f` (equally `%0.f`): the rounded value in decimal, with a minus sign for every
      negative input. */
  function FormatFixed0(r: real): (s: string)
    ensures r >= 0.0 ==> AllDigits(s) && |s| > 0
    ensures r < 0.0 ==> |s| > 1 && s[0] == '-' && AllDigits(s[1..])
  {
    if r < 0.0 then "-" + NatToString(RoundHalfEven(-r)) else NatToString(RoundHalfEven(r))
  }

  /** The digits of `%.0f` (after the minus sign of a negative input) read back as the magnitude
      rounded half to even. */
  lemma FormatFixed0Value(r: real)
    ensures var s := FormatFixed0(r); var digits := if r < 0.0 then s[1..] else s;
      AllDigits(digits) && DigitsValue(digits) == RoundHalfEven(if r < 0.0 then -r else r)
  {
    var n := RoundHalfEven(if r < 0.0 then -r else r);
    NatToStringRoundTrip(n);
    if r < 0.0 {
      assert ("-" + NatToString(n))[1..] == NatToString(n);
    }
  }

  /** A whole number prints under `%.0f` as its plain numeral: no fraction, no exponent. */
  lemma FormatFixed0OfNat(n: nat)
    ensures FormatFixed0(n as real) == NatToString(n)
  {
  }

  function Pow10(k: nat): (p: nat)
    ensures p >= 1
  {
    if k == 0 then 1 else 10 * Pow10(k - 1)
  }

  /** The fewest decimals (at most 20) that write m exactly. */
  function ScaleOf(m: real, k: nat): nat
    requires k <= 20
    decreases 20 - k
  {
    var scaled := m * Pow10(k) as real;
    if scaled == scaled.Floor as real || k == 20 then k else ScaleOf(m, k + 1)
  }

  function StripZeros(d: string): (t: string)
    ensures |t| <= |d|
    ensures |d| > 0 ==> |t| > 0
  {
    if |d| > 1 && d[|d| - 1] == '0' then StripZeros(d[..|d| - 1]) else d
  }

  function Zeros(n: nat): string
  {
    if n == 0 then "" else "0" + Zeros(n - 1)
  }

  lemma {:induction false} ZerosSnoc(k: nat)
    ensures Zeros(k + 1) == Zeros(k) + "0"
  {
    if k > 0 {
      ZerosSnoc(k - 1);
    }
  }

  /** Only zeros are stripped: padding them back gives the digits again. */
  lemma {:induction false} StripZerosPadded(d: string)
    ensures |StripZeros(d)| <= |d| && d == StripZeros(d) + Zeros(|d| - |StripZeros(d)|)
  {
    if |d| > 1 && d[|d| - 1] == '0' {
      var p := d[..|d| - 1];
      StripZerosPadded(p);
      ZerosSnoc(|p| - |StripZeros(p)|);
      assert d == p + "0";
    }
  }

  /** A number below 10^k has at most k digits. */
  lemma {:induction false} NatToStringShort(n: nat, k: nat)
    requires k >= 1 && n < Pow10(k)
    ensures |NatToString(n)| <= k
  {
    if n >= 10 {
      assert k >= 2;
      assert n / 10 < Pow10(k - 1);
      NatToStringShort(n / 10, k - 1);
    }
  }

  /** The two-digit-at-least exponent of `%e`. */
  function ExponentText(x: int): string
  {
    var sign := if x < 0 then "-" else "+";
    var mag := if x < 0 then -x else x;
    sign + (if mag < 10 then "0" else "") + NatToString(mag)
  }

  /** `%v` of a positive float64 (shortest `%g`): the digits of m scaled by the fewest decimals
      that write it exactly, placed by PlaceDigits. */
  function ShowMagnitude(m: real): string
    requires m > 0.0
  {
    ShowScaled(ScaleOf(m, 0), (m * Pow10(ScaleOf(m, 0)) as real).Floor)
  }

  /** The digits of n placed with k decimals; nothing left after scaling prints as 0. */
  function ShowScaled(k: nat, n: int): string
  {
    if n <= 0 then "0" else PlaceDigits(NatToString(n), k)
  }

  /** The shortest `%g` of the digits d with k decimals: significant digits t, leading-digit
      exponent x; the exponent form below 1e-4 and from 1e+06 on, the plain form in between. */
  function PlaceDigits(d: string, k: nat): string
    requires |d| > 0
  {
    var t := StripZeros(d);
    var x := |d| - 1 - k;
    if x < -4 || x >= 6 then
      t[..1] + (if |t| > 1 then "." + t[1..] else "") + "e" + ExponentText(x)
    else if x < 0 then
      "0." + Zeros(-x - 1) + t
    else if |t| <= x + 1 then
      t + Zeros(x + 1 - |t|)
    else
      t[..x + 1] + "." + t[x + 1..]
  }

  function ShowNumber(r: real): string
  {
    if r == 0.0 then "0" else if r < 0.0 then "-" + ShowMagnitude(-r) else ShowMagnitude(r)
  }

  predicate StrLess(a: string, b: string)
  {
    if a == [] then b != []
    else if b == [] then false
    else if a[0] != b[0] then a[0] < b[0]
    else StrLess(a[1..], b[1..])
  }

  /** Insertion of one rendered entry into key order. */
  function InsertByKey(e: (string, string), es: seq<(string, string)>): seq<(string, string)>
  {
    if es == [] || !StrLess(es[0].0, e.0) then [e] + es else [es[0]] + InsertByKey(e, es[1..])
  }

  function SortByKey(es: seq<(string, string)>): seq<(string, string)>
  {
    if es == [] then [] else InsertByKey(es[0], SortByKey(es[1..]))
  }

  function JoinEntries(es: seq<(string, string)>): string
  {
    if es == [] then ""
    else
      var last := es[|es| - 1].0 + ":" + es[|es| - 1].1;
      if |es| == 1 then last else JoinEntries(es[..|es| - 1]) + " " + last
  }

  /** fmt's `%v`: strings as they are, nil as `<nil>`, numbers in shortest `%g`, slices as
      `[a b]`, maps as `map[k:v ...]` in key order. */
  function Show(v: Json): (r: string)
    ensures v.JStr? ==> r == v.str
    ensures v.JNull? ==> r == "<nil>"
    ensures v.JBool? ==> r == if v.b then "true" else "false"
    ensures v.JArr? ==> |r| >= 2 && r[0] == '[' && r[|r| - 1] == ']'
    ensures v.JObj? ==> |r| >= 5 && r[..4] == "map[" && r[|r| - 1] == ']'
    decreases v, 1
  {
    match v
    case JNull => "<nil>"
    case JBool(b) => if b then "true" else "false"
    case JNum(r) => ShowNumber(r)
    case JStr(s) => s
    case JArr(elems) => "[" + ShowAll(elems) + "]"
    case JObj(members) => "map[" + JoinEntries(SortByKey(Entries(ShowMembers(members)))) + "]"
  }

  /** A whole number below a million in magnitude prints under `%v` as its decimal numeral, the
      form the order and client IDs of account messages arrive in. */
  lemma ShowWholeNumber(n: int)
    requires -1000000 < n < 1000000
    ensures Show(JNum(n as real)) == IntToString(n)
  {
    if n > 0 {
      ShowWholeMagnitude(n);
    } else if n < 0 {
      ShowWholeMagnitude(-n);
      assert -(n as real) == (-n) as real;
    }
  }

  lemma ShowWholeMagnitude(mag: nat)
    requires 0 < mag < 1000000
    ensures ShowMagnitude(mag as real) == NatToString(mag)
  {
    WholeMagnitudeScaled(mag);
    ScaledWhole(mag);
  }

  /** A whole magnitude is shown with no decimals. */
  lemma WholeMagnitudeScaled(mag: nat)
    requires 0 < mag
    ensures ShowMagnitude(mag as real) == ShowScaled(0, mag)
  {
    WholeScale(mag);
  }

  /** Up to six digits with no decimals are the numeral itself. */
  lemma ScaledWhole(n: nat)
    requires 0 < n < 1000000
    ensures ShowScaled(0, n) == NatToString(n)
  {
    assert Pow10(6) == 1000000;
    NatToStringShort(n, 6);
    PlaceWholeDigits(NatToString(n));
  }

  /** Up to six digits without decimals are printed as they are. */
  lemma PlaceWholeDigits(d: string)
    requires 0 < |d| <= 6
    ensures PlaceDigits(d, 0) == d
  {
    var t := StripZeros(d);
    StripZerosPadded(d);
    assert |d| - 1 - 0 + 1 - |t| == |d| - |t|;
  }

  /** A whole number needs no decimals: its scale is 0 and its scaled value is itself. */
  lemma WholeScale(mag: nat)
    ensures ScaleOf(mag as real, 0) == 0
    ensures (mag as real * Pow10(ScaleOf(mag as real, 0)) as real).Floor == mag
  {
    assert Pow10(0) == 1;
    assert mag as real * 1 as real == mag as real;
  }


  function ShowAll(elems: seq<Json>): string
    decreases elems, 0
  {
    if elems == [] then ""
    else Show(elems[0]) + (if |elems| == 1 then "" else " " + ShowAll(elems[1..]))
  }

  function ShowMembers(members: seq<(string, Json)>): (r: seq<(string, string)>)
    ensures |r| == |members|
    decreases members, 0
  {
    if members == [] then []
    else
      var (key, value) := members[0];
      assert members[0] in members && value < members[0];
      [(key, Show(value))] + ShowMembers(members[1..])
  }

  /** `xs[i]`: a panic when i is out of range. */
  function Index(xs: seq<Json>, i: nat): (r: Outcome<Json>)
    ensures r.Ok? <==> i < |xs|
    ensures r.Ok? ==> r.value == xs[i]
  {
    if i < |xs| then Ok(xs[i]) else Panic
  }

  /** The unchecked assertion `v.(string)`: a panic on anything but a string. */
  function AsString(v: Json): (r: Outcome<string>)
    ensures r.Ok? <==> v.JStr?
    ensures r.Ok? ==> r.value == v.str
  {
    if v.JStr? then Ok(v.str) else Panic
  }

  /** The unchecked assertion `v.(float64)`. */
  function AsNumber(v: Json): (r: Outcome<real>)
    ensures r.Ok? <==> v.JNum?
    ensures r.Ok? ==> r.value == v.num
  {
    if v.JNum? then Ok(v.num) else Panic
  }

  /** The unchecked assertion `v.([]interface{})`. */
  function AsArray(v: Json): (r: Outcome<seq<Json>>)
    ensures r.Ok? <==> v.JArr?
    ensures r.Ok? ==> r.value == v.elems
  {
    if v.JArr? then Ok(v.elems) else Panic
  }

  /** The unchecked assertion `v.(map[string]interface{})`. */
  function AsObject(v: Json): (r: Outcome<seq<(string, Json)>>)
    ensures r.Ok? <==> v.JObj?
    ensures r.Ok? ==> r.value == v.members
  {
    if v.JObj? then Ok(v.members) else Panic
  }

  /** `m[key].(T)` on a decoded map: a missing key reads as nil, which every assertion refuses. */
  function Member(members: seq<(string, Json)>, key: string): (r: Outcome<Json>)
    ensures r.Ok? <==> key in KeysOf(members)
    ensures r.Ok? ==> Lookup(members, key) == Some(r.value)
  {
    match Lookup(members, key)
    case Some(v) => Ok(v)
    case None => Panic
  }

  /** `xs[i].(string)`. */
  function StringAt(xs: seq<Json>, i: nat): (r: Outcome<string>)
    ensures r.Ok? <==> i < |xs| && xs[i].JStr?
    ensures r.Ok? ==> r.value == xs[i].str
  {
    var v :- Index(xs, i);
    AsString(v)
  }

  /** `xs[i].(float64)`. */
  function NumberAt(xs: seq<Json>, i: nat): (r: Outcome<real>)
    ensures r.Ok? <==> i < |xs| && xs[i].JNum?
    ensures r.Ok? ==> r.value == xs[i].num
  {
    var v :- Index(xs, i);
    AsNumber(v)
  }

  /** `strconv.ParseFloat(s, 64)` with its error replaced by err; the value is kept as its text. */
  function ParseFloat(s: string, err: GoError): (r: Outcome<string>)
    ensures r != Panic
    ensures r.Ok? <==> IsFloatText(s)
    ensures r.Ok? ==> r.value == s
    ensures r.Err? ==> r.error == err
  {
    if IsFloatText(s) then Ok(s) else Err(err)
  }

  /** `strconv.ParseFloat(xs[i].(string), 64)`, failing with err when the text is no number. */
  function FloatAt(xs: seq<Json>, i: nat, err: GoError): (r: Outcome<string>)
    ensures r.Ok? <==> i < |xs| && xs[i].JStr? && IsFloatText(xs[i].str)
    ensures r.Ok? ==> r.value == xs[i].str
    ensures r.Err? <==> i < |xs| && xs[i].JStr? && !IsFloatText(xs[i].str)
    ensures r.Err? ==> r.error == err
  {
    var s :- StringAt(xs, i);
    ParseFloat(s, err)
  }

  /** What one statement of a frame decoder asks of element i of the frame's array. The index is
      always checked by the run-time (a panic when out of range). A type assertion is checked when
      its error is Some (that error is returned) and unchecked when it is None (a panic). */
  datatype Demand =
    | Present                                                     // `%v` of the element
    | Number(typeErr: Option<GoError>)                            // `.(float64)`
    | Text(typeErr: Option<GoError>)                              // `.(string)`
    | Float(typeErr: Option<GoError>, parseErr: GoError)          // `.(string)`, then ParseFloat
    | Integer(typeErr: Option<GoError>, parseErr: GoError)        // `.(string)`, then ParseInt
    | NumberIn(typeErr: Option<GoError>, codes: set<real>, unknownErr: GoError)   // `.(float64)`, then a switch
    | TextIn(typeErr: Option<GoError>, letters: set<string>, unknownErr: GoError)  // `.(string)`, then a switch

  /** A refused type assertion: its error when checked, a panic when not. */
  function Refused(typeErr: Option<GoError>): Outcome<()>
  {
    match typeErr
    case Some(e) => Err(e)
    case None => Panic
  }

  /** What the statement for demand d does with element i: carry on, return an error or panic. */
  function Verdict(vals: seq<Json>, i: nat, d: Demand): Outcome<()>
  {
    if i >= |vals| then Panic
    else
      var v := vals[i];
      match d
      case Present => Ok(())
      case Number(e) => if v.JNum? then Ok(()) else Refused(e)
      case Text(e) => if v.JStr? then Ok(()) else Refused(e)
      case Float(e, p) => if !v.JStr? then Refused(e) else if IsFloatText(v.str) then Ok(()) else Err(p)
      case Integer(e, p) => if !v.JStr? then Refused(e) else if Atoi(v.str).Some? then Ok(()) else Err(p)
      case NumberIn(e, known, u) => if !v.JNum? then Refused(e) else if v.num in known then Ok(()) else Err(u)
      case TextIn(e, known, u) => if !v.JStr? then Refused(e) else if v.str in known then Ok(()) else Err(u)
  }

  /** The element meets the demand made of it. */
  predicate Meets(vals: seq<Json>, demand: (nat, Demand))
  {
    Verdict(vals, demand.0, demand.1).Ok?
  }

  predicate MeetsAll(vals: seq<Json>, demands: seq<(nat, Demand)>)
  {
    forall k | 0 <= k < |demands| :: Meets(vals, demands[k])
  }

  /** Demand k is the first one the elements do not meet. */
  predicate FirstUnmet(vals: seq<Json>, demands: seq<(nat, Demand)>, k: nat)
  {
    k < |demands| && !Meets(vals, demands[k]) && forall j | 0 <= j < k :: Meets(vals, demands[j])
  }

  /** The failure a decoder ends with when demand k is the first one not met. */
  function FailureAt<T>(vals: seq<Json>, demands: seq<(nat, Demand)>, k: nat): Outcome<T>
    requires FirstUnmet(vals, demands, k)
  {
    Verdict(vals, demands[k].0, demands[k].1).PropagateFailure()
  }

  /** Elements that do not meet every demand have a first demand they do not meet, and only one. */
  lemma FindFirstUnmet(vals: seq<Json>, demands: seq<(nat, Demand)>) returns (k: nat)
    requires !MeetsAll(vals, demands)
    ensures FirstUnmet(vals, demands, k)
    ensures forall j | FirstUnmet(vals, demands, j) :: j == k
  {
    k := 0;
    while Meets(vals, demands[k])
      invariant k < |demands| && forall j | 0 <= j < k :: Meets(vals, demands[j])
      invariant exists j | k <= j < |demands| :: !Meets(vals, demands[j])
      decreases |demands| - k
    {
      k := k + 1;
    }
  }

  /** The statements of a decoder run in order: all of them carry on exactly when every demand is
      met. */
  function Check(vals: seq<Json>, demands: seq<(nat, Demand)>): (r: Outcome<()>)
    ensures r.Ok? <==> MeetsAll(vals, demands)
    decreases |demands|
  {
    if demands == [] then Ok(())
    else
      var _ :- Verdict(vals, demands[0].0, demands[0].1);
      var rest := demands[1..];
      assert forall k | 0 <= k < |rest| :: rest[k] == demands[k + 1];
      Check(vals, rest)
  }

  /** The first demand not met ends the run with its failure. */
  lemma {:induction false} CheckStopsAtFirstUnmet(vals: seq<Json>, demands: seq<(nat, Demand)>, k: nat)
    requires FirstUnmet(vals, demands, k)
    ensures Check(vals, demands) == FailureAt(vals, demands, k)
    decreases |demands|
  {
    if k > 0 {
      var rest := demands[1..];
      assert Meets(vals, demands[0]);
      assert forall j | 0 <= j < |rest| :: rest[j] == demands[j + 1];
      CheckStopsAtFirstUnmet(vals, rest, k - 1);
    }
  }
}
