/** Numbers as the core reads and writes them: `parseFloat(x) || 0` on numeric input, and `Math.round`. */
module Numbers {
  import opened Wrappers
  import Strings

  predicate IsDigit(c: char) {
    '0' <= c <= '9'
  }

  function DigitValue(c: char): (d: nat)
    requires IsDigit(c)
    ensures d < 10
  {
    c as int - '0' as int
  }

  /** The number of digits `s` starts with. */
  function LeadingDigits(s: string): (k: nat)
    ensures k <= |s|
    ensures forall i :: 0 <= i < k ==> IsDigit(s[i])
    ensures k < |s| ==> !IsDigit(s[k])
  {
    if s == [] || !IsDigit(s[0]) then 0 else 1 + LeadingDigits(s[1..])
  }

  /** The value of a string of digits read as a whole number. */
  function IntValue(digits: string): (v: nat)
    requires forall i :: 0 <= i < |digits| ==> IsDigit(digits[i])
  {
    if digits == [] then 0
    else IntValue(digits[..|digits| - 1]) * 10 + DigitValue(digits[|digits| - 1])
  }

  /** The value of a string of digits read after a decimal point. */
  function FracValue(digits: string): (v: real)
    requires forall i :: 0 <= i < |digits| ==> IsDigit(digits[i])
    ensures 0.0 <= v <= 1.0
  {
    if digits == [] then 0.0
    else (DigitValue(digits[0]) as real + FracValue(digits[1..])) / 10.0
  }

  /** `x` times 10 to the power `e`, one factor of ten at a time. */
  function Scale(x: real, e: int): (r: real)
    ensures e == 0 ==> r == x
    ensures x >= 0.0 ==> r >= 0.0
    decreases if e >= 0 then e else -e
  {
    if e == 0 then x else if e > 0 then Scale(x * 10.0, e - 1) else Scale(x / 10.0, e + 1)
  }

  /** The exponent part at the start of `s`: `e` or `E`, an optional sign and digits. Without
      digits there is no exponent part, `parseFloat` stops before the `e`, and the exponent is 0. */
  function Exponent(s: string): (e: int)
    ensures s == [] || (s[0] != 'e' && s[0] != 'E') ==> e == 0
  {
    if |s| < 2 || (s[0] != 'e' && s[0] != 'E') then 0
    else
      var digits := if s[1] == '+' || s[1] == '-' then s[2..] else s[1..];
      var magnitude: int := IntValue(digits[..LeadingDigits(digits)]);
      if s[1] == '-' then -magnitude else magnitude
  }

  /** Where the digits, point and digits of a literal at the start of `s` end. */
  function MantissaEnd(s: string): (n: nat)
    ensures n <= |s|
  {
    var k := LeadingDigits(s);
    if k < |s| && s[k] == '.' then k + 1 + LeadingDigits(s[k + 1..]) else k
  }

  /** The value of the digits, point and digits at the start of `s`. */
  function MantissaValue(s: string): (v: real)
    ensures v >= 0.0
  {
    var k := LeadingDigits(s);
    IntValue(s[..k]) as real
      + if k < |s| && s[k] == '.' then FracValue(s[k + 1..][..LeadingDigits(s[k + 1..])]) else 0.0
  }

  /** The unsigned decimal literal at the start of `s`, read as far as it goes: digits, optionally
      a point and more digits, optionally an exponent part. There is one exactly when `s` starts
      with a digit or with a point followed by a digit. */
  function UnsignedPrefix(s: string): (r: Option<real>)
    ensures r.Some? <==> (|s| > 0 && IsDigit(s[0])) || (|s| > 1 && s[0] == '.' && IsDigit(s[1]))
    ensures r.Some? ==> r.value >= 0.0
  {
    if MantissaEnd(s) == 0 || (MantissaEnd(s) == 1 && s[0] == '.') then None
    else Some(Scale(MantissaValue(s), Exponent(s[MantissaEnd(s)..])))
  }

  /** A string without leading white space read as `parseFloat` reads it: one optional sign, then
      the unsigned literal; 0 when there is no literal. */
  function ReadSigned(t: string): (v: real)
    ensures v < 0.0 ==> t != [] && t[0] == '-'
  {
    var signed := t != [] && (t[0] == '+' || t[0] == '-');
    match UnsignedPrefix(if signed then t[1..] else t)
    case None => 0.0
    case Some(x) => if signed && t[0] == '-' then -x else x
  }

  /** `parseFloat(s) || 0`: leading white space is skipped, one optional sign is read, then the
      longest unsigned decimal literal. Without a literal `parseFloat` answers NaN, and `|| 0`
      turns NaN (and -0) into 0. A negative result needs a minus sign in the string, so a string
      of digits and points never reads as negative. */
  function ParseDecimal(s: string): (v: real)
    ensures v < 0.0 ==> '-' in s
    ensures Strings.IsNumeric(s) ==> v >= 0.0
    ensures s == [] ==> v == 0.0
    ensures |s| > 0 && !IsDigit(s[0]) && s[0] !in ".+-I" && !Strings.IsWhitespace(s[0]) ==> v == 0.0
  {
    var k := Strings.LeadingWhitespace(s);
    assert ReadSigned(s[k..]) < 0.0 ==> s[k] == '-';
    ReadSigned(s[k..])
  }

  /** Without leading white space a string reads as its signed literal. */
  lemma ParseTrimmed(s: string)
    requires s == [] || !Strings.IsWhitespace(s[0])
    ensures ParseDecimal(s) == ReadSigned(s)
  {
    assert Strings.LeadingWhitespace(s) == 0 && s[0..] == s;
  }

  /** Without leading white space or sign, a string reads as its unsigned literal, or 0. */
  lemma ReadsUnsigned(s: string)
    requires s == [] || (s[0] != '+' && s[0] != '-' && !Strings.IsWhitespace(s[0]))
    ensures ParseDecimal(s) == UnsignedPrefix(s).GetOr(0.0)
  {
    ParseTrimmed(s);
  }

  /** Leading white space does not change what a string reads as. */
  lemma ParseSkipsWhitespace(c: char, s: string)
    requires Strings.IsWhitespace(c)
    ensures ParseDecimal([c] + s) == ParseDecimal(s)
  {
    var t := [c] + s;
    assert t[1..] == s;
    var k := Strings.LeadingWhitespace(s);
    assert Strings.LeadingWhitespace(t) == 1 + k;
    assert t[1 + k..] == s[k..];
  }

  /** A minus sign in front of an unsigned literal negates it. */
  lemma ParseNegated(t: string)
    requires t == [] || (t[0] != '+' && t[0] != '-' && !Strings.IsWhitespace(t[0]))
    ensures ParseDecimal("-" + t) == -ParseDecimal(t)
  {
    ReadsUnsigned(t);
    ParseTrimmed("-" + t);
    assert ("-" + t)[1..] == t;
  }

  /** A plus sign in front of an unsigned literal changes nothing. */
  lemma ParsePlus(t: string)
    requires t == [] || (t[0] != '+' && t[0] != '-' && !Strings.IsWhitespace(t[0]))
    ensures ParseDecimal("+" + t) == ParseDecimal(t)
  {
    ReadsUnsigned(t);
    ParseTrimmed("+" + t);
    assert ("+" + t)[1..] == t;
  }

  lemma {:induction false} IntValueOfNumeral(n: nat)
    ensures IntValue(Strings.NatToString(n)) == n
  {
    if n >= 10 {
      IntValueOfNumeral(n / 10);
      var s := Strings.NatToString(n);
      assert s[..|s| - 1] == Strings.NatToString(n / 10);
    }
  }

  lemma {:induction false} LeadingDigitsAll(s: string)
    requires forall i :: 0 <= i < |s| ==> IsDigit(s[i])
    ensures LeadingDigits(s) == |s|
  {
    if s != [] {
      LeadingDigitsAll(s[1..]);
    }
  }

  /** When the first `k` characters are digits and the next one is not, `s` has `k` leading digits. */
  lemma {:induction false} LeadingDigitsAt(s: string, k: nat)
    requires k <= |s|
    requires forall i :: 0 <= i < k ==> IsDigit(s[i])
    requires k == |s| || !IsDigit(s[k])
    ensures LeadingDigits(s) == k
  {
    if k > 0 {
      LeadingDigitsAt(s[1..], k - 1);
    }
  }

  /** A literal without exponent reads as its whole part plus its fraction: `k` digits, a point at
      index `k` and `m` more digits, followed by something that neither continues the digits nor
      starts an exponent part. */
  lemma UnsignedPoint(s: string, k: nat, m: nat)
    requires k + 1 + m <= |s| && s[k] == '.' && k + m > 0
    requires forall i :: 0 <= i < k ==> IsDigit(s[i])
    requires forall i :: k < i <= k + m ==> IsDigit(s[i])
    requires k + 1 + m == |s| || (!IsDigit(s[k + 1 + m]) && s[k + 1 + m] != 'e' && s[k + 1 + m] != 'E')
    ensures UnsignedPrefix(s) == Some(IntValue(s[..k]) as real + FracValue(s[k + 1..k + 1 + m]))
  {
    LeadingDigitsAt(s, k);
    LeadingDigitsAt(s[k + 1..], m);
    assert s[k + 1..][..m] == s[k + 1..k + 1 + m];
    assert Exponent(s[k + 1 + m..]) == 0;
  }

  /** Digits without point or exponent read as a whole number. */
  lemma UnsignedWhole(w: string)
    requires forall i :: 0 <= i < |w| ==> IsDigit(w[i])
    requires |w| > 0
    ensures UnsignedPrefix(w) == Some(IntValue(w) as real)
  {
    LeadingDigitsAll(w);
    assert w[..|w|] == w && w[|w|..] == [];
  }

  /** Reading back the numeral of a whole number gives that number. */
  lemma ParseNumeral(n: nat)
    ensures ParseDecimal(Strings.NatToString(n)) == n as real
  {
    var s := Strings.NatToString(n);
    assert IsDigit(s[0]);
    ReadsUnsigned(s);
    UnsignedWhole(s);
    IntValueOfNumeral(n);
  }

  /** Digits, a point and more digits read as a decimal number. */
  lemma ParseFraction()
    ensures ParseDecimal("2.5") == 2.5
  {
    ReadsUnsigned("2.5");
    UnsignedFraction();
  }

  lemma UnsignedFraction()
    ensures UnsignedPrefix("2.5") == Some(2.5)
  {
    UnsignedPoint("2.5", 1, 1);
    assert "2.5"[..1] == "2" && "2.5"[2..3] == "5";
    assert FracValue("5") == 0.5 && IntValue("2") == 2;
  }

  /** A trailing point is ignored. */
  lemma ParseTrailingPoint()
    ensures ParseDecimal("3.") == 3.0
  {
    ReadsUnsigned("3.");
    UnsignedPoint("3.", 1, 0);
    assert "3."[..1] == "3" && "3."[2..2] == "";
    assert IntValue("3") == 3;
  }

  /** A leading point starts the fraction. */
  lemma ParseLeadingPoint()
    ensures ParseDecimal(".5") == 0.5
  {
    ReadsUnsigned(".5");
    UnsignedPoint(".5", 0, 1);
    assert ".5"[..0] == "" && ".5"[1..2] == "5";
    assert FracValue("5") == 0.5;
  }

  /** A second point ends the number. */
  lemma ParseSecondPoint()
    ensures ParseDecimal("1.2.3") == 1.2
  {
    ReadsUnsigned("1.2.3");
    UnsignedSecondPoint();
  }

  lemma UnsignedSecondPoint()
    ensures UnsignedPrefix("1.2.3") == Some(1.2)
  {
    UnsignedPoint("1.2.3", 1, 1);
    assert "1.2.3"[..1] == "1" && "1.2.3"[2..3] == "2";
    assert FracValue("2") == 0.2 && IntValue("1") == 1;
  }

  /** A lone point holds no literal and reads as 0. */
  lemma ParseLonePoint()
    ensures ParseDecimal(".") == 0.0
  {
    ReadsUnsigned(".");
  }

  /** A string starting with a letter holds no literal and reads as 0. */
  lemma ParseLetterFirst()
    ensures ParseDecimal("x1") == 0.0
  {
    ReadsUnsigned("x1");
  }

  /** A lone sign holds no literal and reads as 0. */
  lemma ParseLoneSign()
    ensures ParseDecimal("-") == 0.0
  {
    ParseNegated("");
    assert "-" == "-" + "";
  }

  /** A minus sign is read: "-5" is -5. */
  lemma ParseMinusExample()
    ensures ParseDecimal("-5") == -5.0
  {
    ParseDigitExample('5', 5);
    ParseNegated("5");
    assert "-5" == "-" + "5";
  }

  /** Leading white space is skipped: " 7" is 7. */
  lemma ParseSpaceExample()
    ensures ParseDecimal(" 7") == 7.0
  {
    ParseDigitExample('7', 7);
    ParseSkipsWhitespace(' ', "7");
    assert " 7" == [' '] + "7";
  }

  /** A single digit reads as its value. */
  lemma ParseDigitExample(c: char, n: nat)
    requires IsDigit(c) && DigitValue(c) == n
    ensures ParseDecimal([c]) == n as real
  {
    UnsignedWhole([c]);
    ReadsUnsigned([c]);
    assert IntValue([c]) == n;
  }

  /** An exponent part scales the literal by a power of ten. */
  lemma ParseExponent()
    ensures ParseDecimal("2e3") == 2000.0
  {
    ReadsUnsigned("2e3");
    UnsignedExponent();
  }

  lemma UnsignedExponent()
    ensures UnsignedPrefix("2e3") == Some(2000.0)
  {
    LeadingDigitsAt("2e3", 1);
    assert "2e3"[..1] == "2" && "2e3"[1..] == "e3" && "e3"[1..] == "3";
    LeadingDigitsAt("3", 1);
    assert "3"[..1] == "3" && IntValue("3") == 3 && IntValue("2") == 2;
    assert Exponent("e3") == 3;
    assert Scale(2.0, 3) == 2000.0;
  }

  /** A negative exponent divides by a power of ten. */
  lemma ParseNegativeExponent()
    ensures ParseDecimal("5e-1") == 0.5
  {
    ReadsUnsigned("5e-1");
    UnsignedNegativeExponent();
  }

  lemma UnsignedNegativeExponent()
    ensures UnsignedPrefix("5e-1") == Some(0.5)
  {
    LeadingDigitsAt("5e-1", 1);
    assert "5e-1"[..1] == "5" && "5e-1"[1..] == "e-1" && "e-1"[2..] == "1";
    LeadingDigitsAt("1", 1);
    assert "1"[..1] == "1" && IntValue("1") == 1 && IntValue("5") == 5;
    assert Exponent("e-1") == -1;
    assert Scale(5.0, -1) == 0.5;
  }

  /** An `e` without digits is not part of the literal. */
  lemma ParseBareExponentMark()
    ensures ParseDecimal("4e") == 4.0
  {
    ReadsUnsigned("4e");
    LeadingDigitsAt("4e", 1);
    assert "4e"[..1] == "4" && "4e"[1..] == "e" && IntValue("4") == 4;
  }

  /** `Math.round(x)`: the nearest integer, halves rounded up. */
  function Round(x: real): (r: int)
    ensures x - 0.5 < r as real <= x + 0.5
  {
    (x + 0.5).Floor
  }

  /** `Math.round(x * 10) / 10`: the nearest tenth, halves rounded up. */
  function RoundTenth(x: real): (r: real)
    ensures x - 0.05 < r <= x + 0.05
    ensures (r * 10.0).Floor as real == r * 10.0
  {
    Round(x * 10.0) as real / 10.0
  }

  /** Rounding is monotone. */
  lemma RoundMonotone(x: real, y: real)
    requires x <= y
    ensures Round(x) <= Round(y)
  {
  }

  lemma ProductNonNegative(x: real, y: real)
    requires x >= 0.0 && y >= 0.0
    ensures x * y >= 0.0
  {
  }

  lemma ProductWithZero(x: real, y: real)
    requires x == 0.0 || y == 0.0
    ensures x * y == 0.0
  {
  }

  /** Taking a fraction of a non-negative amount gives at most that amount. */
  lemma FractionAtMost(x: real, f: real)
    requires x >= 0.0 && 0.0 <= f <= 1.0
    ensures 0.0 <= x * f <= x
  {
    ProductNonNegative(x, f);
    ProductNonNegative(x, 1.0 - f);
    assert x - x * f == x * (1.0 - f);
  }

  lemma QuotientNonNegative(x: real, y: real)
    requires x >= 0.0 && y > 0.0
    ensures x / y >= 0.0
  {
  }
}
