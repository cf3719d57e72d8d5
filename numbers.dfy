/**
 * Numeric literals as Python reads and writes them: `str(n)`, `int(s)`,
 * `float(s)`, `int(x)` on a float (truncation toward zero) and the
 * two-decimal format `f"{x:.2f}"`.  Floats are kept exact, as `real`s,
 * with the two infinities and NaN beside them.
 */
module Numbers {
  import opened Wrappers
  import opened Text

  predicate IsDigit(c: char) {
    '0' <= c <= '9'
  }

  predicate AllDigits(s: string) {
    forall i :: 0 <= i < |s| ==> IsDigit(s[i])
  }

  function DigitValue(c: char): nat
    requires IsDigit(c)
  {
    c as int - '0' as int
  }

  function DigitChar(d: nat): (c: char)
    requires d < 10
    ensures IsDigit(c) && DigitValue(c) == d
  {
    ('0' as int + d) as char
  }

  /** The value of a string of decimal digits (the empty string reads as 0). */
  function DigitsValue(s: string): nat
    requires AllDigits(s)
  {
    if s == [] then 0 else DigitsValue(s[..|s| - 1]) * 10 + DigitValue(s[|s| - 1])
  }

  function Pow10(n: nat): (p: nat)
    ensures p >= 1
  {
    if n == 0 then 1 else 10 * Pow10(n - 1)
  }

  /** `str(n)` for a non-negative integer. */
  function NatToString(n: nat): (r: string)
    ensures r != [] && AllDigits(r)
  {
    if n < 10 then [DigitChar(n)] else NatToString(n / 10) + [DigitChar(n % 10)]
  }

  /** `str(i)`. */
  function IntToString(i: int): string {
    WithSign(i < 0, NatToString(if i < 0 then -i else i))
  }

  /** A literal with a leading minus sign when `negative` holds. */
  function WithSign(negative: bool, body: string): string {
    if negative then "-" + body else body
  }

  function SignedReal(negative: bool, v: real): real {
    if negative then -v else v
  }

  /** Splits off one leading `+` or `-`. */
  function SignSplit(s: string): (r: (bool, string))
    ensures r.1 == s || (s != [] && r.1 == s[1..] && (s[0] == '-' || s[0] == '+'))
    ensures r.0 ==> s != [] && s[0] == '-'
  {
    if s != [] && s[0] == '-' then (true, s[1..])
    else if s != [] && s[0] == '+' then (false, s[1..])
    else (false, s)
  }

  /** `int(s)` on a string: surrounding whitespace, an optional sign, then ASCII digits; `None` stands for `ValueError`. */
  function ParseIntLiteral(s: string): Option<int> {
    var (negative, digits) := SignSplit(Strip(s));
    if digits != [] && AllDigits(digits) then
      Some(if negative then -(DigitsValue(digits) as int) else DigitsValue(digits))
    else None
  }

  /** A Python float: a finite value, kept exactly, or one of the infinities, or NaN. */
  datatype Float = Finite(value: real) | Infinity(negative: bool) | NaN

  /** Digits, an optional point and more digits, with at least one digit in all. */
  function ParseMantissa(s: string): Option<real> {
    var p := IndexOf(s, '.');
    var whole := s[..p];
    var fraction := if p < |s| then s[p + 1..] else "";
    if AllDigits(whole) && AllDigits(fraction) && (whole != [] || fraction != []) then
      Some(DecimalValue(DigitsValue(whole), DigitsValue(fraction), |fraction|))
    else None
  }

  /** The value of the decimal `whole.fraction` whose fraction has `places` digits. */
  function DecimalValue(whole: nat, fraction: nat, places: nat): real {
    (whole * Pow10(places) + fraction) as real / Pow10(places) as real
  }

  /** A decimal literal with an optional `e`/`E` exponent. */
  function ParseDecimal(s: string): Option<real> {
    var e := IndexOf(Lower(s), 'e');
    match ParseMantissa(s[..e])
    case None => None
    case Some(m) =>
      if e == |s| then Some(m)
      else
        var (negative, digits) := SignSplit(s[e + 1..]);
        if digits != [] && AllDigits(digits) then
          var scale := Pow10(DigitsValue(digits)) as real;
          Some(if negative then m / scale else m * scale)
        else None
  }

  /** `float(s)`; `None` stands for `ValueError`. */
  function ParseFloatLiteral(s: string): Option<Float> {
    var (negative, body) := SignSplit(Strip(s));
    var lowered := Lower(body);
    if lowered == "inf" || lowered == "infinity" then Some(Infinity(negative))
    else if lowered == "nan" then Some(NaN)
    else
      match ParseDecimal(body)
      case None => None
      case Some(v) => Some(Finite(SignedReal(negative, v)))
  }

  /** `int(x)` for a finite float: truncation toward zero. */
  function Trunc(x: real): (n: int)
    ensures x >= 0.0 ==> 0 <= n && n as real <= x < n as real + 1.0
    ensures x < 0.0 ==> n <= 0 && n as real - 1.0 < x <= n as real
  {
    if x >= 0.0 then x.Floor else -((-x).Floor)
  }

  /** The real number a count of hundredths stands for. */
  function Hundredths(h: int): real {
    h as real / 100.0
  }

  /** `round(x, 2)` in hundredths; an exact tie is rounded up. */
  function RoundHundredths(x: real): (h: int)
    ensures Hundredths(h) - 0.005 <= x < Hundredths(h) + 0.005
  {
    (x * 100.0 + 0.5).Floor
  }

  /** `f"{h / 100:.2f}"` for a value held in hundredths. */
  function FormatHundredths(h: int): string {
    var n := if h < 0 then -h else h;
    TwoDecimals(h < 0, n / 100, n % 100)
  }

  /** The literal `whole.cents` with exactly two decimals, signed when `negative` holds. */
  function TwoDecimals(negative: bool, whole: nat, cents: nat): string
    requires cents < 100
  {
    WithSign(negative, NatToString(whole) + "." + [DigitChar(cents / 10), DigitChar(cents % 10)])
  }

  // ---------------------------------------------------------------------
  // Round trips between the formatters and the parsers
  // ---------------------------------------------------------------------

  lemma {:induction false} DigitsValueOfNatToString(n: nat)
    ensures DigitsValue(NatToString(n)) == n
  {
    if n >= 10 {
      var s := NatToString(n / 10) + [DigitChar(n % 10)];
      assert s[..|s| - 1] == NatToString(n / 10);
      DigitsValueOfNatToString(n / 10);
    }
  }

  lemma StripNoSpace(s: string)
    requires NoSpace(s)
    ensures Strip(s) == s
  {
    assert TrimLeft(s) == s;
    assert TrimRight(s) == s;
  }

  /** `int(str(i)) == i`. */
  lemma IntToStringRoundTrip(i: int)
    ensures ParseIntLiteral(IntToString(i)) == Some(i)
  {
    var s := IntToString(i);
    var digits := NatToString(if i < 0 then -i else i);
    assert NoSpace(s);
    StripNoSpace(s);
    if i < 0 {
      assert s[1..] == digits;
    }
    assert SignSplit(s) == (i < 0, digits);
    DigitsValueOfNatToString(if i < 0 then -i else i);
  }

  lemma {:induction false} TwoDigitsValue(a: nat, b: nat)
    requires a < 10 && b < 10
    ensures DigitsValue([DigitChar(a), DigitChar(b)]) == 10 * a + b
  {
    var f := [DigitChar(a), DigitChar(b)];
    assert f[..1] == [DigitChar(a)];
    assert f[..1][..0] == [];
    assert DigitsValue(f[..1]) == a;
    assert DigitsValue(f) == DigitsValue(f[..1]) * 10 + b;
  }

  lemma MantissaWithPoint(whole: string, fraction: string)
    requires whole != [] && AllDigits(whole) && AllDigits(fraction)
    ensures ParseMantissa(whole + "." + fraction) == Some(DecimalValue(DigitsValue(whole), DigitsValue(fraction), |fraction|))
  {
    var s := whole + "." + fraction;
    assert '.' !in whole;
    IndexAfterFree(whole, '.', fraction);
    assert s[..|whole|] == whole;
    assert s[|whole| + 1..] == fraction;
  }

  lemma NoExponent(s: string)
    requires forall i :: 0 <= i < |s| ==> IsDigit(s[i]) || s[i] == '.'
    ensures ParseDecimal(s) == ParseMantissa(s)
  {
    var l := Lower(s);
    assert 'e' !in l by {
      forall i | 0 <= i < |l| ensures l[i] != 'e' {
        assert IsDigit(s[i]) || s[i] == '.';
      }
    }
    IndexOfAbsent(l, 'e');
    assert s[..|s|] == s;
  }

  /** A signed literal whose body starts with a digit is read as a decimal. */
  lemma SignedDecimal(negative: bool, body: string, v: real)
    requires body != [] && IsDigit(body[0]) && NoSpace(body)
    requires ParseDecimal(body) == Some(v)
    ensures ParseFloatLiteral(WithSign(negative, body)) == Some(Finite(SignedReal(negative, v)))
  {
    SignedLiteralParts(negative, body);
    NotSpecialName(body);
  }

  lemma SignedLiteralParts(negative: bool, body: string)
    requires body != [] && IsDigit(body[0]) && NoSpace(body)
    ensures Strip(WithSign(negative, body)) == WithSign(negative, body)
    ensures SignSplit(WithSign(negative, body)) == (negative, body)
  {
    var s := WithSign(negative, body);
    assert NoSpace(s);
    StripNoSpace(s);
    if negative { assert s[1..] == body; }
  }

  lemma NotSpecialName(body: string)
    requires body != [] && IsDigit(body[0])
    ensures Lower(body) != "inf" && Lower(body) != "infinity" && Lower(body) != "nan"
  {
    assert Lower(body)[0] == body[0];
  }

  /** `float(f"{h / 100:.2f}") == h / 100`: the two-decimal format reads back exactly. */
  lemma FormatHundredthsRoundTrip(h: int)
    ensures ParseFloatLiteral(FormatHundredths(h)) == Some(Finite(Hundredths(h)))
  {
    var whole, cents := HundredthsParts(h);
    TwoDecimalsRoundTrip(h < 0, whole, cents, Hundredths(h));
  }

  /** The whole and hundredths parts `FormatHundredths` prints. */
  lemma HundredthsParts(h: int) returns (whole: nat, cents: nat)
    ensures cents < 100
    ensures FormatHundredths(h) == TwoDecimals(h < 0, whole, cents)
    ensures Hundredths(h) == SignedReal(h < 0, DecimalValue(whole, cents, 2))
  {
    var n: nat := if h < 0 then -h else h;
    whole, cents := n / 100, n % 100;
    HundredthsValue(n);
  }

  lemma TwoDecimalsRoundTrip(negative: bool, whole: nat, cents: nat, v: real)
    requires cents < 100
    requires v == SignedReal(negative, DecimalValue(whole, cents, 2))
    ensures ParseFloatLiteral(TwoDecimals(negative, whole, cents)) == Some(Finite(v))
  {
    var body := NatToString(whole) + "." + [DigitChar(cents / 10), DigitChar(cents % 10)];
    assert body[0] == NatToString(whole)[0];
    assert NoSpace(body);
    TwoDecimalsRead(whole, cents / 10, cents % 10);
    SignedDecimal(negative, body, DecimalValue(whole, cents, 2));
  }

  lemma TwoDecimalsRead(q: nat, a: nat, b: nat)
    requires a < 10 && b < 10
    ensures ParseDecimal(NatToString(q) + "." + [DigitChar(a), DigitChar(b)]) == Some(DecimalValue(q, 10 * a + b, 2))
  {
    var whole := NatToString(q);
    var fraction := [DigitChar(a), DigitChar(b)];
    var body := whole + "." + fraction;
    PointedDigits(whole, fraction);
    NoExponent(body);
    MantissaWithPoint(whole, fraction);
    DigitsValueOfNatToString(q);
    TwoDigitsValue(a, b);
    assert ParseMantissa(body) == Some(DecimalValue(q, 10 * a + b, |fraction|));
  }

  lemma PointedDigits(whole: string, fraction: string)
    requires AllDigits(whole) && AllDigits(fraction)
    ensures forall i :: 0 <= i < |whole + "." + fraction| ==> IsDigit((whole + "." + fraction)[i]) || (whole + "." + fraction)[i] == '.'
  {
  }

  lemma HundredthsValue(n: nat)
    ensures DecimalValue(n / 100, n % 100, 2) == n as real / 100.0
  {
    assert Pow10(2) == 100;
    assert n / 100 * 100 + n % 100 == n;
  }
}
