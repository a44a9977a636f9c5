// Decimal text <-> numbers, as Python's `str(int)`, `int(text)`, `float(text)`,
// `str.isdigit()` and the `:.0%` format do it for the values QualiaIA handles.
module Numerals {
  import opened Py

  function DigitChar(d: nat): (c: char)
    requires d < 10
    ensures IsDigit(c)
  {
    ('0' as int + d) as char
  }

  function DigitValue(c: char): (d: nat)
    requires IsDigit(c)
    ensures d < 10 && DigitChar(d) == c
  {
    c as int - '0' as int
  }

  predicate AllDigits(s: string) {
    forall i :: 0 <= i < |s| ==> IsDigit(s[i])
  }

  /** `s.isdigit()` (ASCII digits; other Unicode digits are not modelled). */
  predicate IsDigitString(s: string) {
    |s| > 0 && AllDigits(s)
  }

  function Pow10(n: nat): (r: nat)
    ensures r >= 1
  {
    if n == 0 then 1 else 10 * Pow10(n - 1)
  }

  /** The value of a string of decimal digits. */
  function DigitsValue(s: string): nat
    requires AllDigits(s)
  {
    if s == [] then 0 else DigitsValue(s[..|s| - 1]) * 10 + DigitValue(s[|s| - 1])
  }

  /** `str(n)` for a natural number: the shortest decimal spelling. */
  function NatToString(n: nat): (r: string)
    ensures IsDigitString(r)
    ensures |r| > 1 ==> r[0] != '0'
  {
    if n < 10 then [DigitChar(n)] else NatToString(n / 10) + [DigitChar(n % 10)]
  }

  /** `str(i)` */
  function IntToString(i: int): (r: string)
    ensures |r| > 0
  {
    if i < 0 then "-" + NatToString(-i) else NatToString(i)
  }

  lemma {:induction false} DigitsValueOfNatToString(n: nat)
    ensures DigitsValue(NatToString(n)) == n
  {
    if n >= 10 {
      DigitsValueOfNatToString(n / 10);
      var s := NatToString(n);
      assert s[..|s| - 1] == NatToString(n / 10);
    }
  }

  lemma StripUnpadded(s: string)
    requires s == [] || (!IsSpace(s[0]) && !IsSpace(s[|s| - 1]))
    ensures Strip(s) == s
  {
    assert StripLeft(s) == s;
  }

  /** The first index of `c` in `s`, if any. */
  function IndexOf(s: string, c: char): (r: Option<nat>)
    ensures r.Some? ==> r.value < |s| && s[r.value] == c && forall i :: 0 <= i < r.value ==> s[i] != c
    ensures r.None? ==> forall i :: 0 <= i < |s| ==> s[i] != c
  {
    if s == [] then None
    else if s[0] == c then Some(0)
    else match IndexOf(s[1..], c)
      case None => None
      case Some(k) => Some(k + 1)
  }

  /** Splits a leading `+` or `-` off: (is negative, the rest). */
  function SignSplit(s: string): (bool, string)
  {
    if |s| > 0 && (s[0] == '-' || s[0] == '+') then (s[0] == '-', s[1..]) else (false, s)
  }

  /**
   * `int(text)`: surrounding whitespace, an optional sign and one or more digits;
   * anything else raises ValueError (None here). Digit-group underscores are not modelled.
   */
  function ParseInt(text: string): Option<int>
  {
    SignedDigits(SignSplit(Strip(text)))
  }

  function SignedDigits(sb: (bool, string)): Option<int>
  {
    if IsDigitString(sb.1) then Some(if sb.0 then -(DigitsValue(sb.1) as int) else DigitsValue(sb.1)) else None
  }

  lemma ParseIntUnpadded(s: string)
    requires s == [] || (!IsSpace(s[0]) && !IsSpace(s[|s| - 1]))
    ensures ParseInt(s) == SignedDigits(SignSplit(s))
  {
    StripUnpadded(s);
  }

  /** `int(str(i)) == i` */
  lemma ParseIntOfIntToString(i: int)
    ensures ParseInt(IntToString(i)) == Some(i)
  {
    var s := IntToString(i);
    var digits := NatToString(if i < 0 then -i else i);
    assert IsDigit(digits[0]) && IsDigit(digits[|digits| - 1]);
    DigitsValueOfNatToString(if i < 0 then -i else i);
    if i < 0 {
      assert s[0] == '-' && s[1..] == digits && s[|s| - 1] == digits[|digits| - 1];
      ParseIntUnpadded(s);
      assert SignSplit(s) == (true, digits);
    } else {
      ParseIntUnpadded(s);
      assert SignSplit(s) == (false, s);
    }
  }

  /**
   * `float(text)` for plain decimals: surrounding whitespace, an optional sign, digits with
   * at most one '.', and at least one digit. Exponents, "inf" and "nan" are not modelled.
   */
  function ParseDecimal(text: string): (r: Option<real>)
  {
    var sb := SignSplit(Strip(text));
    match Unsigned(sb.1)
    case None => None
    case Some(m) => Some(if sb.0 then -m else m)
  }

  function Unsigned(body: string): Option<real>
  {
      match IndexOf(body, '.')
      case None => if IsDigitString(body) then Some(DigitsValue(body) as real) else None
      case Some(k) =>
        var whole, frac := body[..k], body[k + 1..];
        if AllDigits(whole) && AllDigits(frac) && |whole| + |frac| > 0 then
          Some(DigitsValue(whole) as real + DigitsValue(frac) as real / Pow10(|frac|) as real)
        else None
  }

  /** Python's `int(x)` on a float: truncation toward zero. */
  function TruncateTowardZero(x: real): (r: int)
    ensures x >= 0.0 ==> 0 <= r && r as real <= x < r as real + 1.0
    ensures x < 0.0 ==> r <= 0 && r as real - 1.0 < x <= r as real
  {
    if x >= 0.0 then x.Floor else -((-x).Floor)
  }

  /** Rounding to the nearest integer, ties to the even neighbour. */
  function RoundHalfEven(x: real): (r: int)
    ensures r as real - x <= 0.5 && x - r as real <= 0.5
    ensures (r as real - x == 0.5 || x - r as real == 0.5) ==> r % 2 == 0
  {
    var f := x.Floor;
    var frac := x - f as real;
    if frac < 0.5 then f
    else if frac > 0.5 then f + 1
    else if f % 2 == 0 then f
    else f + 1
  }

  /** The `:.0%` format of a ratio, e.g. 0.875 -> "88%". */
  function Percent(x: real): string {
    IntToString(RoundHalfEven(x * 100.0)) + "%"
  }
}
