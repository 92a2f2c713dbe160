/**
 * JavaScript numbers as the screens observe them, ECMAScript's `parseFloat`
 * over exact decimals, and `String(n)` for non-negative integers.
 */
module JsNumbers {
  import Text

  /** A JavaScript number: an exact finite value, one of the infinities, or NaN. */
  datatype Number = Finite(value: real) | PositiveInfinity | NegativeInfinity | NaN

  predicate IsDigit(c: char) {
    '0' <= c <= '9'
  }

  function DigitValue(c: char): nat
    requires IsDigit(c)
  {
    c as int - '0' as int
  }

  function DigitChar(d: nat): char
    requires d < 10
  {
    (d + '0' as int) as char
  }

  predicate AllDigits(s: string) {
    forall i :: 0 <= i < |s| ==> IsDigit(s[i])
  }

  /** The number of decimal digits `s` starts with. */
  function DigitRun(s: string): (n: nat)
    ensures n <= |s|
    ensures AllDigits(s[..n])
    ensures n < |s| ==> !IsDigit(s[n])
  {
    if s != [] && IsDigit(s[0]) then
      var n := DigitRun(s[1..]);
      assert forall i :: 1 <= i < n + 1 ==> s[i] == s[1..][..n][i - 1];
      n + 1
    else 0
  }

  /** The integer a string of decimal digits denotes, most significant digit first. */
  function DigitsValue(s: string): nat
    requires AllDigits(s)
  {
    if s == [] then 0 else DigitsValue(s[..|s| - 1]) * 10 + DigitValue(s[|s| - 1])
  }

  /** The value of the digits after a decimal point: "25" denotes 0.25. */
  function FractionValue(s: string): real
    requires AllDigits(s)
  {
    if s == [] then 0.0 else (DigitValue(s[0]) as real + FractionValue(s[1..])) / 10.0
  }

  function Pow10(n: nat): (r: real)
    ensures r >= 1.0
  {
    if n == 0 then 1.0 else 10.0 * Pow10(n - 1)
  }

  /** `m` times ten to the power `e`. */
  function Scale(m: real, e: int): real {
    if e >= 0 then m * Pow10(e) else m / Pow10(-e)
  }

  function Negate(x: Number): Number {
    match x
    case Finite(v) => Finite(-v)
    case PositiveInfinity => NegativeInfinity
    case NegativeInfinity => PositiveInfinity
    case NaN => NaN
  }

  /**
   * The exponent part `e` or `E`, an optional sign and at least one digit, at the head
   * of `s`; 0 when `s` does not start with one (so "1e" reads as 1).
   */
  function ExponentOf(s: string): int {
    if s == [] || (s[0] != 'e' && s[0] != 'E') then 0
    else
      var t := s[1..];
      var negative := t != [] && t[0] == '-';
      var digits := if t != [] && (t[0] == '-' || t[0] == '+') then t[1..] else t;
      var n := DigitRun(digits);
      if n == 0 then 0
      else if negative then 0 - DigitsValue(digits[..n]) as int else DigitsValue(digits[..n])
  }

  /** The longest unsigned decimal literal at the head of `u`, or `Infinity`. */
  function ParseUnsigned(u: string): Number {
    if "Infinity" <= u then PositiveInfinity
    else
      var intLen := DigitRun(u);
      var rest := u[intLen..];
      var hasPoint := rest != [] && rest[0] == '.';
      var fracLen := if hasPoint then DigitRun(rest[1..]) else 0;
      if intLen == 0 && fracLen == 0 then NaN
      else
        var fraction := if hasPoint then FractionValue(rest[1..][..fracLen]) else 0.0;
        var used := if hasPoint then intLen + 1 + fracLen else intLen;
        Finite(Scale(DigitsValue(u[..intLen]) as real + fraction, ExponentOf(u[used..])))
  }

  /**
   * ECMAScript's `parseFloat(s)`: leading white space is skipped, then the longest
   * prefix that is a signed decimal literal or `Infinity` is read; NaN when there is none.
   */
  function ParseFloat(s: string): Number {
    var t := s[Text.LeadingSpace(s)..];
    var u := if t != [] && (t[0] == '-' || t[0] == '+') then t[1..] else t;
    if t != [] && t[0] == '-' then Negate(ParseUnsigned(u)) else ParseUnsigned(u)
  }

  /** `String(n)` for a non-negative integer below 10^21: its decimal digits. */
  function NumberToString(n: nat): (r: string)
    ensures |r| >= 1 && AllDigits(r)
  {
    if n < 10 then [DigitChar(n)] else NumberToString(n / 10) + [DigitChar(n % 10)]
  }

  /** Reading back the digits `String(n)` writes gives `n`. */
  lemma {:induction false} NumberToStringRoundTrip(n: nat)
    ensures DigitsValue(NumberToString(n)) == n
  {
    var r := NumberToString(n);
    if n >= 10 {
      NumberToStringRoundTrip(n / 10);
      assert r[..|r| - 1] == NumberToString(n / 10);
    }
  }

  /** Distinct integers have distinct decimal strings. */
  lemma NumberToStringInjective(m: nat, n: nat)
    requires NumberToString(m) == NumberToString(n)
    ensures m == n
  {
    NumberToStringRoundTrip(m);
    NumberToStringRoundTrip(n);
  }

  /** `parseFloat(String(n)) === n`. */
  lemma ParseFloatOfNumberToString(n: nat)
    ensures ParseFloat(NumberToString(n)) == Finite(n as real)
  {
    var s := NumberToString(n);
    assert !Text.IsWhiteSpace(s[0]);
    assert Text.LeadingSpace(s) == 0;
    assert s[0..] == s;
    assert !("Infinity" <= s) by { assert s[0] != 'I'; }
    assert DigitRun(s) == |s|;
    assert s[..|s|] == s;
    NumberToStringRoundTrip(n);
  }

  /** `parseFloat` reads the words `Infinity` and `-Infinity` as the infinities. */
  lemma ParseFloatInfinity()
    ensures ParseFloat("Infinity") == PositiveInfinity
    ensures ParseFloat("-Infinity") == NegativeInfinity
  {
    assert Text.LeadingSpace("Infinity") == 0;
    assert Text.LeadingSpace("-Infinity") == 0;
    assert "Infinity"[0..] == "Infinity";
    assert "-Infinity"[0..] == "-Infinity";
    assert "-Infinity"[1..] == "Infinity";
  }

  /** Text with no digit at all (after an optional sign) is NaN, the empty text in particular. */
  lemma ParseFloatEmpty()
    ensures ParseFloat("") == NaN
  {
  }
}
