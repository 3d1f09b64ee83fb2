/**
  The two ECMAScript conversions between integers and text that the provider's
  loose comparisons rely on: Number::toString for integral numbers, and
  StringToNumber (section 7.1.4.1.1 of ECMA-262) restricted to decimal integers.
  Numbers are unbounded integers here; fractional and non-finite numbers are
  outside the model.
 */
module NumberText {
  import opened Options

  /** WhiteSpace and LineTerminator code points, which StringToNumber ignores at both ends. */
  predicate IsJsSpace(c: char) {
    || c == '\t' || c == '\n' || c == '\U{B}' || c == '\U{C}' || c == '\r' || c == ' '
    || c == '\U{A0}' || c == '\U{1680}' || ('\U{2000}' <= c <= '\U{200A}')
    || c == '\U{2028}' || c == '\U{2029}' || c == '\U{202F}' || c == '\U{205F}'
    || c == '\U{3000}' || c == '\U{FEFF}'
  }

  predicate IsDigit(c: char) {
    '0' <= c <= '9'
  }

  predicate AllDigits(s: string) {
    forall i :: 0 <= i < |s| ==> IsDigit(s[i])
  }

  function DigitValue(c: char): (d: nat)
    requires IsDigit(c)
    ensures d < 10
  {
    c as int - '0' as int
  }

  function DigitChar(d: nat): (c: char)
    requires d < 10
    ensures IsDigit(c) && DigitValue(c) == d
  {
    ('0' as int + d) as char
  }

  /** Drops leading white space. */
  function TrimStart(s: string): (r: string)
    ensures |r| <= |s| && r == s[|s| - |r|..]
    ensures forall i :: 0 <= i < |s| - |r| ==> IsJsSpace(s[i])
    ensures |r| > 0 ==> !IsJsSpace(r[0])
  {
    if |s| > 0 && IsJsSpace(s[0]) then TrimStart(s[1..]) else s
  }

  /** Drops trailing white space. */
  function TrimEnd(s: string): (r: string)
    ensures |r| <= |s| && r == s[..|r|]
    ensures forall i :: |r| <= i < |s| ==> IsJsSpace(s[i])
    ensures |r| > 0 ==> !IsJsSpace(r[|r| - 1])
  {
    if |s| > 0 && IsJsSpace(s[|s| - 1]) then TrimEnd(s[..|s| - 1]) else s
  }

  function Trim(s: string): string {
    TrimEnd(TrimStart(s))
  }

  /** The value of a run of decimal digits, most significant first. */
  function DigitsValue(s: string): nat
    requires AllDigits(s)
  {
    if |s| == 0 then 0 else 10 * DigitsValue(s[..|s| - 1]) + DigitValue(s[|s| - 1])
  }

  /** The shortest decimal digits of `n`: no leading zero except for `n == 0` itself. */
  function NatToDigits(n: nat): (r: string)
    ensures |r| > 0 && AllDigits(r)
    ensures r[0] == '0' <==> n == 0
  {
    if n < 10 then [DigitChar(n)] else NatToDigits(n / 10) + [DigitChar(n % 10)]
  }

  /**
    Number::toString for an integral number below 10^21 in magnitude: an
    optional '-' followed by the digits of its magnitude. JavaScript prints
    larger magnitudes in exponent form, which this model does not cover.
   */
  function IntToDecimal(n: int): string {
    if n < 0 then "-" + NatToDigits(-n) else NatToDigits(n)
  }

  /**
    StringToNumber on decimal integers: white space is trimmed, an empty
    remainder is 0, an optional sign may precede at least one digit, and any
    other text is NaN (`None`).
   */
  function StringToNumber(s: string): Option<int> {
    ReadInteger(Trim(s))
  }

  /** Reads trimmed text as an optionally signed decimal integer. */
  function ReadInteger(t: string): Option<int> {
    if |t| == 0 then Some(0)
    else if |t| > 1 && t[0] == '-' && AllDigits(t[1..]) then Some(0 - DigitsValue(t[1..]) as int)
    else if |t| > 1 && t[0] == '+' && AllDigits(t[1..]) then Some(DigitsValue(t[1..]))
    else if AllDigits(t) then Some(DigitsValue(t))
    else None
  }

  lemma {:induction false} DigitsRoundTrip(n: nat)
    ensures DigitsValue(NatToDigits(n)) == n
  {
    if n >= 10 {
      var s := NatToDigits(n);
      assert s[..|s| - 1] == NatToDigits(n / 10);
      DigitsRoundTrip(n / 10);
    }
  }

  /** Text with no space at either end is its own trim. */
  lemma TrimUnspaced(s: string)
    requires |s| > 0 && !IsJsSpace(s[0]) && !IsJsSpace(s[|s| - 1])
    ensures Trim(s) == s
  {
  }

  lemma DigitIsNotSpace(c: char)
    requires IsDigit(c)
    ensures !IsJsSpace(c)
  {
  }

  /** A run of digits reads as its value. */
  lemma ReadDigits(d: string)
    requires |d| > 0 && AllDigits(d)
    ensures StringToNumber(d) == Some(DigitsValue(d))
  {
    DigitIsNotSpace(d[0]);
    DigitIsNotSpace(d[|d| - 1]);
    TrimUnspaced(d);
  }

  lemma ReadIntegerNegative(d: string)
    requires |d| > 0 && AllDigits(d)
    ensures ReadInteger("-" + d) == Some(0 - DigitsValue(d) as int)
  {
  }

  /** A '-' followed by a run of digits reads as the negated value. */
  lemma ReadNegativeDigits(d: string)
    requires |d| > 0 && AllDigits(d)
    ensures StringToNumber("-" + d) == Some(0 - DigitsValue(d) as int)
  {
    var s := "-" + d;
    assert s[|s| - 1] == d[|d| - 1];
    DigitIsNotSpace(d[|d| - 1]);
    TrimUnspaced(s);
    ReadIntegerNegative(d);
  }

  /** Reading back the text an integer prints as gives the integer. */
  lemma IntToDecimalRoundTrip(n: int)
    ensures StringToNumber(IntToDecimal(n)) == Some(n)
  {
    if n < 0 {
      var d := NatToDigits(-n);
      DigitsRoundTrip(-n);
      assert DigitsValue(d) == -n;
      ReadNegativeDigits(d);
      assert StringToNumber("-" + d) == Some(n);
      assert IntToDecimal(n) == "-" + d;
    } else {
      var d := NatToDigits(n);
      DigitsRoundTrip(n);
      ReadDigits(d);
      assert IntToDecimal(n) == d;
    }
  }
}
