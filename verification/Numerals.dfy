/** The number formats of the line protocol: printf's %f and %lld, and Python's float(). */
module Numerals {
  import opened Text

  type Magnitude = r: real | 0.0 <= r

  /** A double with its rounding left out: sign and magnitude (so -0 exists), an infinity or a NaN. */
  datatype Num = Finite(neg: bool, mag: Magnitude) | Infinite(neg: bool) | NaN

  /** The real a finite double stands for. */
  function Value(n: Num): real {
    match n
    case Finite(neg, mag) => if neg then 0.0 - mag else mag
    case _ => 0.0
  }

  function OfInt(i: int): Num {
    if i < 0 then Finite(true, (-i) as real) else Finite(false, i as real)
  }

  // ---------- digits ----------

  predicate IsDigit(c: char) { '0' <= c <= '9' }

  predicate AllDigits(s: string) {
    forall i :: 0 <= i < |s| ==> IsDigit(s[i])
  }

  function Digit(d: nat): (c: char)
    requires d < 10
    ensures IsDigit(c)
  {
    '0' + d as char
  }

  function DigitValue(c: char): (d: nat)
    requires IsDigit(c)
    ensures d < 10
  {
    c as int - '0' as int
  }

  function Pow10(k: nat): (p: nat)
    ensures p >= 1
  {
    if k == 0 then 1 else 10 * Pow10(k - 1)
  }

  function PrintNat(n: nat): (s: string)
    ensures s != "" && AllDigits(s)
    ensures s[0] == '0' <==> n == 0
    ensures n < 10 <==> |s| == 1
  {
    if n < 10 then [Digit(n)] else PrintNat(n / 10) + [Digit(n % 10)]
  }

  /** The low w digits of n, zero padded, as %06d would print them. */
  function PrintPadded(n: nat, w: nat): (s: string)
    ensures |s| == w && AllDigits(s)
  {
    if w == 0 then "" else PrintPadded(n / 10, w - 1) + [Digit(n % 10)]
  }

  function ParseNat(s: string): nat
    requires AllDigits(s)
  {
    if s == "" then 0 else 10 * ParseNat(s[..|s| - 1]) + DigitValue(s[|s| - 1])
  }

  lemma {:induction false} ParsePrintNat(n: nat)
    ensures ParseNat(PrintNat(n)) == n
  {
    if n < 10 {
      assert PrintNat(n)[..0] == "";
    } else {
      ParsePrintNat(n / 10);
      assert PrintNat(n)[..|PrintNat(n)| - 1] == PrintNat(n / 10);
    }
  }

  lemma ParseSnoc(a: string, b: string, d: nat)
    requires AllDigits(a) && AllDigits(b) && d < 10
    ensures AllDigits(a + b) && AllDigits(a + (b + [Digit(d)]))
    ensures ParseNat(a + (b + [Digit(d)])) == 10 * ParseNat(a + b) + d
  {
    var s := a + (b + [Digit(d)]);
    assert s[..|s| - 1] == a + b;
  }

  lemma Shift(q: nat, p: nat, r: nat)
    ensures 10 * (q * p + r / 10) + r % 10 == q * (10 * p) + r
  {
  }

  /** Digits followed by w zero-padded digits spell the first number shifted by w places plus the second. */
  lemma {:induction false} ParsePadded(q: nat, r: nat, w: nat)
    requires r < Pow10(w)
    ensures ParseNat(PrintNat(q) + PrintPadded(r, w)) == q * Pow10(w) + r
  {
    if w == 0 {
      assert PrintNat(q) + PrintPadded(r, 0) == PrintNat(q);
      ParsePrintNat(q);
    } else {
      ParsePadded(q, r / 10, w - 1);
      ParseSnoc(PrintNat(q), PrintPadded(r / 10, w - 1), r % 10);
      Shift(q, Pow10(w - 1), r);
    }
  }

  lemma {:induction false} PrintNatLength(n: nat, k: nat)
    requires 1 <= k && n < Pow10(k)
    ensures |PrintNat(n)| <= k
  {
    if n >= 10 {
      assert k >= 2 by { assert Pow10(1) == 10 * Pow10(0); }
      PrintNatLength(n / 10, k - 1);
    }
  }

  // ---------- %lld and %f ----------

  function PrintInt(i: int): string {
    if i < 0 then "-" + PrintNat(-i) else PrintNat(i)
  }

  /** Nearest multiple of 10^-6, ties to even. */
  function RoundMicro(m: Magnitude): (k: nat)
    ensures -0.5 <= k as real - m * 1000000.0 <= 0.5
    ensures k as real - m * 1000000.0 == 0.5 || k as real - m * 1000000.0 == -0.5 ==> k % 2 == 0
  {
    var f := (m * 1000000.0).Floor;
    var d := m * 1000000.0 - f as real;
    if d < 0.5 || (d == 0.5 && f % 2 == 0) then f else f + 1
  }

  function Micros(k: nat): Magnitude {
    k as real / 1000000.0
  }

  function Sign(neg: bool): string {
    if neg then "-" else ""
  }

  const MICRO: nat := 1000000

  /** printf's "%f" (section 7.21.6.1 of C11; the sign it may put before nan is left out). */
  function PrintFixed(n: Num): string {
    match n
    case Infinite(neg) => Sign(neg) + "inf"
    case NaN => "nan"
    case Finite(neg, mag) =>
      var k := RoundMicro(mag);
      Sign(neg) + (PrintNat(k / MICRO) + "." + PrintPadded(k % MICRO, 6))
  }

  // ---------- float() ----------

  /** Digits with the last of them behind the decimal point. */
  function Decimal(neg: bool, digits: string, places: nat): Option<Num> {
    if digits != "" && AllDigits(digits) then Some(Finite(neg, ParseNat(digits) as real / Pow10(places) as real))
    else None
  }

  function ParseDigits(neg: bool, s: string): Option<Num> {
    var parts := Split(s, '.');
    if |parts| == 1 then Decimal(neg, parts[0], 0)
    else if |parts| == 2 then Decimal(neg, parts[0] + parts[1], |parts[1]|)
    else None
  }

  function ParseMagnitude(neg: bool, s: string): Option<Num> {
    if s == "inf" then Some(Infinite(neg)) else if s == "nan" then Some(NaN) else ParseDigits(neg, s)
  }

  /** Python's float() on decimal literals, inf and nan; None is its ValueError. */
  function ParseFloat(s: string): Option<Num> {
    if s != "" && s[0] == '-' then ParseMagnitude(true, s[1..])
    else if s != "" && s[0] == '+' then ParseMagnitude(false, s[1..])
    else ParseMagnitude(false, s)
  }

  // ---------- what is printed is what is read ----------

  /** The double that "%f" shows: n rounded to six decimals. */
  function Rounded(n: Num): Num {
    match n
    case Finite(neg, mag) => Finite(neg, Micros(RoundMicro(mag)))
    case _ => n
  }

  lemma DigitsOnly(s: string)
    requires AllDigits(s)
    ensures '.' !in s && '-' !in s && '+' !in s && SpaceFree(s)
  {
  }

  lemma Pow10Values()
    ensures Pow10(20) == 100000000000000000000
    ensures Pow10(19) == 10000000000000000000
  {
    assert Pow10(5) == 100000;
    assert Pow10(10) == 10000000000;
    assert Pow10(15) == 1000000000000000;
    assert Pow10(20) == 100000000000000000000;
  }

  lemma ParseDecimal(neg: bool, whole: string, fraction: string)
    requires AllDigits(whole) && AllDigits(fraction) && whole != ""
    ensures ParseDigits(neg, whole + "." + fraction) == Decimal(neg, whole + fraction, |fraction|)
  {
    DigitsOnly(whole);
    DigitsOnly(fraction);
    SplitAppend(whole, fraction, '.');
    SplitFree(whole, '.');
    SplitFree(fraction, '.');
    assert whole + "." + fraction == whole + ['.'] + fraction;
    assert Split(whole + "." + fraction, '.') == [whole, fraction];
  }

  lemma ParseWhole(neg: bool, whole: string)
    requires AllDigits(whole) && whole != ""
    ensures ParseDigits(neg, whole) == Some(Finite(neg, ParseNat(whole) as real))
  {
    DigitsOnly(whole);
    SplitFree(whole, '.');
    assert Split(whole, '.') == [whole];
    assert Pow10(0) == 1;
  }

  /** Digits, with one point among, before or after them. */
  predicate Decimals(s: string) {
    (s != "" && AllDigits(s)) || exists k :: 0 <= k < |s| && PointAt(s, k)
  }

  predicate PointAt(s: string, k: nat)
    requires k < |s|
  {
    |s| > 1 && AllDigits(s[..k]) && s[k] == '.' && AllDigits(s[k + 1..])
  }

  predicate Unsigned(s: string) { s == "inf" || s == "nan" || Decimals(s) }

  lemma DigitsAppend(a: string, b: string)
    ensures AllDigits(a + b) <==> AllDigits(a) && AllDigits(b)
  {
    assert forall i :: 0 <= i < |a| ==> (a + b)[i] == a[i];
    assert forall i :: 0 <= i < |b| ==> (a + b)[|a| + i] == b[i];
  }

  lemma PointParses(neg: bool, s: string, k: nat)
    requires k < |s| && PointAt(s, k)
    ensures ParseDigits(neg, s).Some?
  {
    var a, b := s[..k], s[k + 1..];
    assert s == a + ['.'] + b;
    DigitsOnly(a);
    DigitsOnly(b);
    DigitsAppend(a, b);
    SplitAppend(a, b, '.');
    SplitFree(a, '.');
    SplitFree(b, '.');
    assert Split(s, '.') == [a, b];
  }

  lemma ParsedIsDecimal(neg: bool, s: string)
    requires ParseDigits(neg, s).Some?
    ensures Decimals(s)
  {
    var parts := Split(s, '.');
    JoinSplit(s, '.', '.');
    assert Replace(s, '.', '.') == s;
    if |parts| == 2 {
      assert parts[1..] == [parts[1]];
      assert s == parts[0] + ['.'] + parts[1];
      DigitsAppend(parts[0], parts[1]);
      assert s[..|parts[0]|] == parts[0] && s[|parts[0]| + 1..] == parts[1];
      assert PointAt(s, |parts[0]|);
    }
  }

  lemma DecimalsParse(neg: bool, s: string)
    ensures ParseDigits(neg, s).Some? <==> Decimals(s)
  {
    if ParseDigits(neg, s).Some? {
      ParsedIsDecimal(neg, s);
    } else if s != "" && AllDigits(s) {
      ParseWhole(neg, s);
    } else if k :| 0 <= k < |s| && PointAt(s, k) {
      PointParses(neg, s, k);
    }
  }

  /** float() takes decimal literals, inf and nan, each with at most one sign, and raises on everything else. */
  lemma FloatLiterals(s: string)
    ensures ParseFloat(s).Some? <==> Unsigned(if s != "" && (s[0] == '-' || s[0] == '+') then s[1..] else s)
    ensures ParseFloat(s).Some? && ParseFloat(s).value.Finite? ==> (ParseFloat(s).value.neg <==> s[0] == '-')
  {
    var t := if s != "" && (s[0] == '-' || s[0] == '+') then s[1..] else s;
    DecimalsParse(s != "" && s[0] == '-', t);
  }

  lemma ParseSigned(neg: bool, s: string)
    requires s != "" && IsDigit(s[0])
    ensures ParseFloat(Sign(neg) + s) == ParseDigits(neg, s)
  {
    assert s != "inf" && s != "nan" by { assert "inf"[0] == 'i' && "nan"[0] == 'n'; }
    if neg {
      assert (Sign(neg) + s)[1..] == s;
    } else {
      assert Sign(neg) + s == s;
    }
  }

  lemma FixedDigits(k: nat)
    ensures ParseNat(PrintNat(k / MICRO) + PrintPadded(k % MICRO, 6)) == k
  {
    MicroPower();
    ParsePadded(k / MICRO, k % MICRO, 6);
  }

  lemma FixedShape(neg: bool, whole: string, fraction: string)
    requires AllDigits(whole) && AllDigits(fraction) && whole != "" && |fraction| == 6
    ensures ParseFloat(Sign(neg) + (whole + "." + fraction)) == Some(Finite(neg, Micros(ParseNat(whole + fraction))))
  {
    var s := whole + "." + fraction;
    assert s[0] == whole[0];
    ParseSigned(neg, s);
    ParseDecimal(neg, whole, fraction);
    DecimalMicros(neg, whole + fraction);
  }

  lemma DecimalMicros(neg: bool, digits: string)
    requires AllDigits(digits) && digits != ""
    ensures Decimal(neg, digits, 6) == Some(Finite(neg, Micros(ParseNat(digits))))
  {
    MicroPower();
  }

  lemma MicroPower()
    ensures Pow10(6) == MICRO
  {
    assert Pow10(3) == 1000;
  }

  lemma RoundMicroExact(k: nat)
    ensures RoundMicro(Micros(k)) == k
  {
    assert Micros(k) * 1000000.0 == k as real;
  }

  /** float() of a "%f" text is the printed double within 5e-7, and it prints as the same text again. */
  lemma FixedRoundTrip(n: Num)
    ensures ParseFloat(PrintFixed(n)) == Some(Rounded(n))
    ensures -0.0000005 <= Value(Rounded(n)) - Value(n) <= 0.0000005
    ensures PrintFixed(Rounded(n)) == PrintFixed(n)
  {
    match n
    case Infinite(neg) =>
      assert neg ==> (Sign(neg) + "inf")[1..] == "inf";
    case NaN =>
    case Finite(neg, mag) =>
      var k := RoundMicro(mag);
      FixedDigits(k);
      FixedShape(neg, PrintNat(k / MICRO), PrintPadded(k % MICRO, 6));
      RoundMicroExact(k);
      assert Micros(k) * 1000000.0 == k as real;
  }

  /** float() of a "%lld" text is the integer itself. */
  lemma IntRoundTrip(i: int)
    ensures ParseFloat(PrintInt(i)) == Some(OfInt(i))
    ensures Value(OfInt(i)) == i as real
  {
    var n := if i < 0 then -i else i;
    var s := PrintNat(n);
    DigitsOnly(s);
    ParsePrintNat(n);
    ParseWhole(i < 0, s);
    ParseSigned(i < 0, s);
  }

  lemma ByMicros(k: nat)
    ensures k / MICRO * MICRO + k % MICRO == k
    ensures k % MICRO % 2 == k % 2
  {
  }

  /** "%f" shows a number as its sign, digits without a leading zero but for 0 itself, a point and six digits,
      the nearest to it there is and the even one of two; negative zero keeps its sign. */
  lemma FixedFormat(n: Num) returns (whole: nat, micros: nat)
    requires n.Finite?
    ensures micros < 1000000
    ensures PrintFixed(n) == (if n.neg then "-" else "") + (PrintNat(whole) + "." + PrintPadded(micros, 6))
    ensures var off := (whole * 1000000 + micros) as real - n.mag * 1000000.0;
      -0.5 <= off <= 0.5 && (off == 0.5 || off == -0.5 ==> micros % 2 == 0)
  {
    var k := RoundMicro(n.mag);
    whole, micros := k / MICRO, k % MICRO;
    ByMicros(k);
    assert (whole * 1000000 + micros) as real == k as real;
  }

  lemma FixedIsWord(n: Num)
    ensures IsWord(PrintFixed(n))
  {
    match n
    case Infinite(neg) =>
      assert PrintFixed(n)[|Sign(neg)|] == 'i';
    case NaN =>
    case Finite(neg, mag) =>
      var k := RoundMicro(mag);
      DigitsOnly(PrintNat(k / MICRO));
      DigitsOnly(PrintPadded(k % MICRO, 6));
  }

  lemma IntIsWord(i: int)
    ensures IsWord(PrintInt(i))
  {
    DigitsOnly(PrintNat(if i < 0 then -i else i));
  }

  /** Below 10^w in magnitude a "%f" text takes at most w + 8 characters. */
  lemma FixedLength(n: Num, w: nat)
    requires w >= 1
    requires n.Finite? ==> n.mag <= Pow10(w) as real - 1.0
    ensures |PrintFixed(n)| <= w + 8
  {
    match n
    case Infinite(_) =>
    case NaN =>
    case Finite(neg, mag) =>
      var k := RoundMicro(mag);
      assert k as real <= mag * 1000000.0 + 0.5;
      assert k < MICRO * Pow10(w);
      PrintNatLength(k / MICRO, w);
  }

  lemma IntLength(i: int, w: nat)
    requires w >= 1
    requires -(Pow10(w) as int) < i < Pow10(w)
    ensures |PrintInt(i)| <= w + 1
  {
    PrintNatLength(if i < 0 then -i else i, w);
  }
}
