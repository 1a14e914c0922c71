/** Decimal numerals, ASCII case mapping and number syntax as the Go standard library treats them
    (strconv.Itoa, strconv.Atoi / ParseInt base 10, strconv.ParseFloat's syntax, strings.ToUpper). */
module Text {
  import opened Errors

  const MinInt64: int := -0x8000_0000_0000_0000
  const MaxInt64: int := 0x7fff_ffff_ffff_ffff

  predicate IsDigit(c: char) { '0' <= c <= '9' }

  predicate AllDigits(s: string) { forall i | 0 <= i < |s| :: IsDigit(s[i]) }

  function DigitChar(d: nat): (c: char)
    requires d < 10
    ensures IsDigit(c) && c as int - '0' as int == d
  {
    ('0' as int + d) as char
  }

  /** The number a string of decimal digits denotes. */
  function DigitsValue(s: string): nat
    requires AllDigits(s)
  {
    if s == [] then 0 else DigitsValue(s[..|s| - 1]) * 10 + (s[|s| - 1] as int - '0' as int)
  }

  /** The decimal numeral of n: non-empty, digits only, no leading zero. */
  function NatToString(n: nat): (s: string)
    ensures |s| > 0 && AllDigits(s)
    ensures |s| > 1 ==> s[0] != '0'
  {
    if n < 10 then [DigitChar(n)] else NatToString(n / 10) + [DigitChar(n % 10)]
  }

  /** strconv.Itoa: the decimal numeral of i, with a leading minus sign when negative. */
  function IntToString(i: int): (s: string)
    ensures |s| > 0
    ensures i < 0 <==> s[0] == '-'
  {
    if i < 0 then "-" + NatToString(-i) else NatToString(i)
  }

  /** strconv.Atoi (= ParseInt(s, 10, 64) on a 64-bit platform): an optional sign, then at least
      one decimal digit; values outside the 64-bit range are errors. */
  function Atoi(s: string): (r: Option<int>)
    ensures r.Some? ==> MinInt64 <= r.value <= MaxInt64
    ensures r.Some? ==> |s| > 0
  {
    var body := if |s| > 0 && (s[0] == '+' || s[0] == '-') then s[1..] else s;
    if body == [] || !AllDigits(body) then None
    else
      var v: int := if |s| > 0 && s[0] == '-' then -(DigitsValue(body) as int) else DigitsValue(body);
      if MinInt64 <= v <= MaxInt64 then Some(v) else None
  }

  /** Reading back the numeral of n yields n. */
  lemma {:induction false} NatToStringRoundTrip(n: nat)
    ensures DigitsValue(NatToString(n)) == n
  {
    if n >= 10 {
      NatToStringRoundTrip(n / 10);
      var s := NatToString(n);
      assert s[..|s| - 1] == NatToString(n / 10);
    }
  }

  /** strconv.Atoi inverts strconv.Itoa on the 64-bit range. */
  lemma IntToStringRoundTrip(i: int)
    requires MinInt64 <= i <= MaxInt64
    ensures Atoi(IntToString(i)) == Some(i)
  {
    var s := IntToString(i);
    if i < 0 {
      NatToStringRoundTrip(-i);
      assert s[1..] == NatToString(-i);
    } else {
      NatToStringRoundTrip(i);
    }
  }

  predicate IsSign(c: char) { c == '+' || c == '-' }

  /** Where a scan of a decimal float literal stands: before anything, after the sign, in the
      integer digits, after a '.' with no digit before it, after "digits.", in the fraction, after
      the exponent mark, after the exponent's sign, in the exponent digits; and after a '_' that
      follows a digit of the integer part, the fraction or the exponent. */
  datatype FloatPart =
    | Start | Signed | Whole | LoneDot | WholeDot | Fraction | Mark | MarkSigned | Exponent
    | WholeGap | FractionGap | ExponentGap

  /** The parts after which the literal may end. */
  predicate Accepting(p: FloatPart)
  {
    p == Whole || p == WholeDot || p == Fraction || p == Exponent
  }

  /** The part reached by reading c; None when c cannot come next. A '_' may separate two
      digits and nothing else, as strconv's underscoreOK demands. */
  function Step(p: FloatPart, c: char): Option<FloatPart>
  {
    var digit := IsDigit(c);
    var mark := c == 'e' || c == 'E';
    match p
    case Start => if IsSign(c) then Some(Signed) else if digit then Some(Whole) else if c == '.' then Some(LoneDot) else None
    case Signed => if digit then Some(Whole) else if c == '.' then Some(LoneDot) else None
    case Whole =>
      if digit then Some(Whole) else if c == '_' then Some(WholeGap)
      else if c == '.' then Some(WholeDot) else if mark then Some(Mark) else None
    case LoneDot => if digit then Some(Fraction) else None
    case WholeDot => if digit then Some(Fraction) else if mark then Some(Mark) else None
    case Fraction =>
      if digit then Some(Fraction) else if c == '_' then Some(FractionGap) else if mark then Some(Mark) else None
    case Mark => if IsSign(c) then Some(MarkSigned) else if digit then Some(Exponent) else None
    case MarkSigned => if digit then Some(Exponent) else None
    case Exponent => if digit then Some(Exponent) else if c == '_' then Some(ExponentGap) else None
    case WholeGap => if digit then Some(Whole) else None
    case FractionGap => if digit then Some(Fraction) else None
    case ExponentGap => if digit then Some(Exponent) else None
  }

  /** The rest of s from position i completes a literal begun in part p. */
  predicate ScanFloat(s: string, i: nat, p: FloatPart)
    requires i <= |s|
    decreases |s| - i
  {
    if i == |s| then Accepting(p)
    else match Step(p, s[i])
      case None => false
      case Some(q) => ScanFloat(s, i + 1, q)
  }

  /** A decimal literal as strconv.ParseFloat reads it: an optional sign, digits with an optional
      fraction (at least one digit in all), then an optional exponent of an optional sign and at
      least one digit; single underscores may separate digits. */
  predicate IsDecimalFloat(s: string)
  {
    ScanFloat(s, 0, Start)
  }

  /** In a decimal literal every '_' stands between two digits. */
  lemma UnderscoresSeparateDigits(s: string, i: nat)
    requires IsDecimalFloat(s) && i < |s| && s[i] == '_'
    ensures 0 < i < |s| - 1 && IsDigit(s[i - 1]) && IsDigit(s[i + 1])
  {
    UnderscoreBetweenDigitsFrom(s, 0, Start, i);
  }

  lemma {:induction false} UnderscoreBetweenDigitsFrom(s: string, j: nat, p: FloatPart, i: nat)
    requires j <= i < |s| && s[i] == '_' && ScanFloat(s, j, p)
    requires (p == Whole || p == Fraction || p == Exponent) ==> 0 < j && IsDigit(s[j - 1])
    ensures 0 < i < |s| - 1 && IsDigit(s[i - 1]) && IsDigit(s[i + 1])
    decreases i - j
  {
    var q := Step(p, s[j]).value;
    if i > j {
      UnderscoreBetweenDigitsFrom(s, j + 1, q, i);
    } else {
      assert ScanFloat(s, j + 1, q) && !Accepting(q);
      assert Step(q, s[j + 1]).Some?;
    }
  }

  /** Underscores between digits are read past: "1_000.5" is a literal. */
  lemma UnderscoredLiteral()
    ensures IsFloatText("1_000.5") && IsFloatText("2e1_0")
    ensures !IsDecimalFloat("_1") && !IsDecimalFloat("1_") && !IsDecimalFloat("1__0") && !IsDecimalFloat("1_.5")
  {
  }

  /** Digits to the end keep a literal in its integer part accepted. */
  lemma {:induction false} DigitsToEndAccepted(s: string, i: nat)
    requires i <= |s| && AllDigits(s[i..])
    ensures ScanFloat(s, i, Whole)
    decreases |s| - i
  {
    if i < |s| {
      assert IsDigit(s[i..][0]);
      assert s[i + 1..] == s[i..][1..];
      DigitsToEndAccepted(s, i + 1);
    }
  }

  function LowerAscii(c: char): char
  {
    if 'A' <= c <= 'Z' then (c as int + 32) as char else c
  }

  /** s equals the lower-case word w when ASCII case is ignored. */
  predicate EqualsIgnoringCase(s: string, w: string)
  {
    |s| == |w| && (s == [] || (LowerAscii(s[0]) == w[0] && EqualsIgnoringCase(s[1..], w[1..])))
  }

  /** The special values strconv.ParseFloat accepts, ignoring case: a signed or unsigned
      "inf"/"infinity", and an unsigned "nan". */
  predicate IsSpecialFloat(s: string)
  {
    var body := if |s| > 0 && IsSign(s[0]) then s[1..] else s;
    EqualsIgnoringCase(body, "inf") || EqualsIgnoringCase(body, "infinity") || EqualsIgnoringCase(s, "nan")
  }

  /** The strings strconv.ParseFloat(s, 64) accepts (hexadecimal literals and range errors
      are not part of this model). */
  predicate IsFloatText(s: string)
  {
    IsDecimalFloat(s) || IsSpecialFloat(s)
  }

  /** Every decimal numeral is a float literal. */
  lemma NatToStringIsFloatText(n: nat)
    ensures IsFloatText(NatToString(n))
  {
    var s := NatToString(n);
    assert s[1..] == s[0..][1..];
    DigitsToEndAccepted(s, 1);
  }

  function UpperAscii(c: char): (u: char)
    ensures !('a' <= u <= 'z')
  {
    if 'a' <= c <= 'z' then (c as int - 32) as char else c
  }

  /** No lower-case ASCII letter occurs in s. */
  predicate IsUpperCase(s: string)
  {
    forall i | 0 <= i < |s| :: !('a' <= s[i] <= 'z')
  }

  /** strings.ToUpper restricted to ASCII: every letter a-z becomes A-Z, everything else stays. */
  function ToUpper(s: string): (u: string)
    ensures |u| == |s| && IsUpperCase(u)
    ensures forall i | 0 <= i < |s| :: u[i] == s[i] || ('a' <= s[i] <= 'z' && u[i] as int == s[i] as int - 32)
  {
    seq(|s|, i requires 0 <= i < |s| => UpperAscii(s[i]))
  }

  /** Upper-casing twice is upper-casing once. */
  lemma ToUpperIdempotent(s: string)
    ensures ToUpper(ToUpper(s)) == ToUpper(s)
  {
  }
}
