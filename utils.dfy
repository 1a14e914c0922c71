/** utils.go: the membership search over channel IDs and the fixed-offset date parser. */
module Utils {
  import opened Errors
  import opened Text

  /** utils.go refers to an error constant that errors.go never defines; this is its text here. */
  const WrongTimeFormat := "[ERROR] Wrong Time Format!"

  /** intInSlice: a linear search that stops at the first match. */
  method IntInSlice(a: int, list: seq<int>) returns (found: bool)
    ensures found <==> a in list
  {
    var i := 0;
    while i < |list|
      invariant 0 <= i <= |list|
      invariant a !in list[..i]
    {
      if list[i] == a {
        return true;
      }
      i := i + 1;
    }
    assert list[..i] == list;
    return false;
  }

  /** The components time.Date receives, in UTC (time.Date's normalisation of out-of-range
      components is not part of this model). */
  datatype DateTime = DateTime(year: int, month: int, day: int, hour: int, minute: int, second: int)

  /** Go's `t[lo:hi]` on a string: a panic unless lo <= hi <= len(t). */
  function Slice(t: string, lo: nat, hi: nat): (r: Outcome<string>)
    ensures r.Ok? <==> lo <= hi <= |t|
    ensures r.Ok? ==> r.value == t[lo..hi]
  {
    if lo <= hi <= |t| then Ok(t[lo..hi]) else Panic
  }

  /** One component: the slice (which may panic) read by strconv.Atoi (which may fail). */
  function Component(t: string, lo: nat, hi: nat): (r: Outcome<int>)
    ensures r.Ok? ==> lo <= hi <= |t| && Atoi(t[lo..hi]) == Some(r.value)
    ensures r.Panic? <==> !(lo <= hi <= |t|)
  {
    var s :- Slice(t, lo, hi);
    match Atoi(s)
    case Some(v) => Ok(v)
    case None => Err(Error(WrongTimeFormat, []))
  }

  /** parseStringToTime: year, month, day, hour, minute and second at the fixed offsets of
      "2021-07-09 03:46:50", read one after the other; the first failure decides the result. */
  function ParseStringToTime(t: string): (r: Outcome<DateTime>)
    ensures r.Err? ==> r.error == Error(WrongTimeFormat, [])
  {
    var year :- Component(t, 0, 4);
    var month :- Component(t, 5, 7);
    var day :- Component(t, 8, 10);
    var hour :- Component(t, 11, 13);
    var minute :- Component(t, 14, 16);
    var second :- Component(t, 17, |t|);
    Ok(DateTime(year, month, day, hour, minute, second))
  }

  /** A successful parse reads each component at its offset, and needs at least 18 characters. */
  lemma ParseStringToTimeReadsOffsets(t: string)
    requires ParseStringToTime(t).Ok?
    ensures |t| >= 18
    ensures var d := ParseStringToTime(t).value;
      Atoi(t[0..4]) == Some(d.year) && Atoi(t[5..7]) == Some(d.month) && Atoi(t[8..10]) == Some(d.day)
      && Atoi(t[11..13]) == Some(d.hour) && Atoi(t[14..16]) == Some(d.minute) && Atoi(t[17..]) == Some(d.second)
  {
    assert t[17..|t|] == t[17..];
  }

  /** The slice bounds of component j (0 year, 1 month, 2 day, 3 hour, 4 minute, 5 second). */
  function Bounds(t: string, j: nat): (nat, nat)
    requires j < 6
  {
    if j == 0 then (0, 4) else if j == 1 then (5, 7) else if j == 2 then (8, 10)
    else if j == 3 then (11, 13) else if j == 4 then (14, 16) else (17, |t|)
  }

  function ComponentAt(t: string, j: nat): Outcome<int>
    requires j < 6
  {
    Component(t, Bounds(t, j).0, Bounds(t, j).1)
  }

  /** When every component reads as an integer, the parse succeeds with exactly those values. */
  lemma ParseStringToTimeSucceeds(t: string)
    requires |t| >= 17
    requires Atoi(t[0..4]).Some? && Atoi(t[5..7]).Some? && Atoi(t[8..10]).Some?
    requires Atoi(t[11..13]).Some? && Atoi(t[14..16]).Some? && Atoi(t[17..]).Some?
    ensures ParseStringToTime(t) == Ok(DateTime(Atoi(t[0..4]).value, Atoi(t[5..7]).value, Atoi(t[8..10]).value,
      Atoi(t[11..13]).value, Atoi(t[14..16]).value, Atoi(t[17..]).value))
  {
    assert t[17..|t|] == t[17..];
  }

  /** The components are read in order, and the first one that fails decides the result: a panic
      when its slice is out of range, WrongTimeFormat when its text is no integer. */
  lemma ParseStringToTimeFirstFailure(t: string, k: nat)
    requires k < 6 && !ComponentAt(t, k).Ok?
    requires forall j | 0 <= j < k :: ComponentAt(t, j).Ok?
    ensures ParseStringToTime(t) == ComponentAt(t, k).PropagateFailure()
  {
    if k > 0 { assert ComponentAt(t, 0).Ok?; }
    if k > 1 { assert ComponentAt(t, 1).Ok?; }
    if k > 2 { assert ComponentAt(t, 2).Ok?; }
    if k > 3 { assert ComponentAt(t, 3).Ok?; }
    if k > 4 { assert ComponentAt(t, 4).Ok?; }
  }

  /** Sixteen characters that carry the first five components read them all and then panic on the
      seconds slice t[17:], which starts past the end. */
  lemma SixteenCharactersPanic(t: string)
    requires |t| == 16
    requires Atoi(t[0..4]).Some? && Atoi(t[5..7]).Some? && Atoi(t[8..10]).Some?
    requires Atoi(t[11..13]).Some? && Atoi(t[14..16]).Some?
    ensures ParseStringToTime(t) == Panic
  {
    assert forall j | 0 <= j < 5 :: ComponentAt(t, j).Ok?;
    ParseStringToTimeFirstFailure(t, 5);
  }

  /** A two-digit field with a leading zero or not. */
  lemma TwoDigits(s: string)
    requires |s| == 2 && IsDigit(s[0]) && IsDigit(s[1])
    ensures Atoi(s) == Some((s[0] as int - '0' as int) * 10 + (s[1] as int - '0' as int))
  {
    assert DigitsValue(s[..1]) == s[0] as int - '0' as int by {
      assert s[..1][..0] == [];
    }
    assert DigitsValue(s) == DigitsValue(s[..1]) * 10 + (s[1] as int - '0' as int);
  }

  const Example := "2021-07-09 03:46:50"

  lemma ExampleDate()
    ensures Component(Example, 0, 4) == Ok(2021)
    ensures Component(Example, 5, 7) == Ok(7)
    ensures Component(Example, 8, 10) == Ok(9)
  {
    ExampleYear();
    ExampleMonthDay();
  }

  lemma ExampleYear()
    ensures Component(Example, 0, 4) == Ok(2021)
  {
    var y := Example[0..4];
    assert y == "2021";
    assert Atoi(y) == Some(2021) by {
      assert y[..3] == "202" && y[..3][..2] == "20";
      TwoDigits("20");
      assert DigitsValue("202") == 202;
    }
  }

  lemma ExampleMonthDay()
    ensures Component(Example, 5, 7) == Ok(7)
    ensures Component(Example, 8, 10) == Ok(9)
  {
    assert Example[5..7] == "07";
    TwoDigits("07");
    assert Example[8..10] == "09";
    TwoDigits("09");
  }

  lemma ExampleClock()
    ensures Component(Example, 11, 13) == Ok(3)
    ensures Component(Example, 14, 16) == Ok(46)
    ensures Component(Example, 17, |Example|) == Ok(50)
  {
    assert Example[11..13] == "03";
    TwoDigits("03");
    assert Example[14..16] == "46";
    TwoDigits("46");
    assert Example[17..|Example|] == "50";
    TwoDigits("50");
  }

  /** The documented example parses to its six components. */
  lemma ParseExample()
    ensures ParseStringToTime(Example) == Ok(DateTime(2021, 7, 9, 3, 46, 50))
  {
    ExampleDate();
    ExampleClock();
  }

  /** The separators at offsets 4, 7, 10, 13 and 16 are never looked at: two inputs that agree
      everywhere else parse alike. */
  lemma SeparatorsIgnored(t: string, u: string)
    requires |t| == |u|
    requires forall i | 0 <= i < |t| && i !in {4, 7, 10, 13, 16} :: t[i] == u[i]
    ensures ParseStringToTime(t) == ParseStringToTime(u)
  {
    if |t| >= 4 { assert t[0..4] == u[0..4]; }
    if |t| >= 7 { assert t[5..7] == u[5..7]; }
    if |t| >= 10 { assert t[8..10] == u[8..10]; }
    if |t| >= 13 { assert t[11..13] == u[11..13]; }
    if |t| >= 16 { assert t[14..16] == u[14..16]; }
    if |t| >= 17 { assert t[17..|t|] == u[17..|u|]; }
    assert Component(t, 17, |t|) == Component(u, 17, |u|);
  }

  /** Fewer than four characters cannot even be sliced for the year. */
  lemma ShortInputPanics(t: string)
    requires |t| < 4
    ensures ParseStringToTime(t).Panic?
  {
  }

  /** Seventeen characters leave the seconds slice empty, which strconv.Atoi rejects. */
  lemma SeventeenCharactersNeverParse(t: string)
    requires |t| == 17
    ensures !ParseStringToTime(t).Ok?
  {
  }
}
