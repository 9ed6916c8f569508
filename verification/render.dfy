/**
 Text rendering of the numbers the dashboard writes into its exports. A template
 literal such as `${n}` turns a JavaScript number into its shortest decimal text.
 For a non-zero value from 10^-6 up to (but excluding) 10^21, and for zero, that
 text is the plain digits, with a point before the fractional digits when there
 are any; outside that range JavaScript switches to exponent notation, which is
 not modelled here.
 */
module Render {

  /** One decimal digit. */
  type Digit = d: nat | d < 10

  /**
   A non-negative JavaScript number with finitely many decimals: its integer part
   and the digits after the decimal point (none for an integral value).
   */
  datatype DecimalDigits = Decimal(whole: nat, fraction: seq<Digit>)

  /** The shortest digits of a decimal, the ones JavaScript prints: no trailing zero after the point. */
  type Decimal = d: DecimalDigits | d.fraction == [] || d.fraction[|d.fraction| - 1] != 0
    witness Decimal(0, [])

  predicate IsDigitChar(c: char) {
    '0' <= c <= '9'
  }

  /** Text made only of digits and decimal points: no separator and no line break. */
  predicate IsNumeral(s: string) {
    forall i :: 0 <= i < |s| ==> IsDigitChar(s[i]) || s[i] == '.'
  }

  function DigitChar(d: Digit): (c: char)
    ensures IsDigitChar(c)
    ensures c as int - '0' as int == d
  {
    ('0' as int + d) as char
  }

  /** The decimal text of `n`: at least one digit, and no leading zero. */
  function NatToString(n: nat): (s: string)
    ensures |s| >= 1
    ensures forall i :: 0 <= i < |s| ==> IsDigitChar(s[i])
    ensures s[0] == '0' <==> n == 0
    decreases n
  {
    if n < 10 then [DigitChar(n)] else NatToString(n / 10) + [DigitChar(n % 10)]
  }

  function DigitValue(c: char): Digit
    requires IsDigitChar(c)
  {
    c as int - '0' as int
  }

  /** The value of a string of decimal digits, read most significant digit first. */
  function DigitsValue(s: string): nat
    requires forall i :: 0 <= i < |s| ==> IsDigitChar(s[i])
  {
    if s == [] then 0
    else DigitsValue(s[..|s| - 1]) * 10 + DigitValue(s[|s| - 1])
  }

  /** Reading back the text of `n` gives `n`: the rendering loses nothing. */
  lemma {:induction false} NatToStringRoundTrip(n: nat)
    ensures DigitsValue(NatToString(n)) == n
  {
    if n >= 10 {
      var s := NatToString(n / 10);
      var t := s + [DigitChar(n % 10)];
      assert t[..|t| - 1] == s;
      NatToStringRoundTrip(n / 10);
    }
  }

  /** Two naturals have the same text only when they are equal. */
  lemma NatToStringInjective(m: nat, n: nat)
    requires NatToString(m) == NatToString(n)
    ensures m == n
  {
    NatToStringRoundTrip(m);
    NatToStringRoundTrip(n);
  }

  function DigitsToString(ds: seq<Digit>): (s: string)
    ensures |s| == |ds|
    ensures forall i :: 0 <= i < |s| ==> IsDigitChar(s[i])
  {
    seq(|ds|, i requires 0 <= i < |ds| => DigitChar(ds[i]))
  }

  /** The text of a decimal: its integer digits, then `.` and the fraction when there is one. */
  function DecimalToString(d: Decimal): (s: string)
    ensures IsNumeral(s)
    ensures d.fraction == [] ==> s == NatToString(d.whole)
    ensures d.fraction != [] ==> |s| == |NatToString(d.whole)| + 1 + |d.fraction|
  {
    NatToString(d.whole) + if d.fraction == [] then "" else "." + DigitsToString(d.fraction)
  }

  /** The first decimal point of `s`, or `|s|` when there is none. */
  function PointIndex(s: string): (k: nat)
    ensures k <= |s|
    ensures forall i :: 0 <= i < k ==> s[i] != '.'
    ensures k < |s| ==> s[k] == '.'
  {
    if s == [] || s[0] == '.' then 0 else 1 + PointIndex(s[1..])
  }

  /** The point, if any, sits right after the integer digits. */
  lemma DecimalPoint(d: Decimal)
    ensures PointIndex(DecimalToString(d)) == |NatToString(d.whole)|
    ensures DecimalToString(d)[..|NatToString(d.whole)|] == NatToString(d.whole)
    ensures d.fraction != [] ==> DecimalToString(d)[|NatToString(d.whole)| + 1..] == DigitsToString(d.fraction)
  {
    var w, s := NatToString(d.whole), DecimalToString(d);
    var k := PointIndex(s);
    assert s[..|w|] == w;
    assert forall i :: 0 <= i < |w| ==> s[i] == w[i] && s[i] != '.';
    if d.fraction != [] {
      assert s[|w|] == '.';
    }
  }

  /** Different decimals print differently: the text loses nothing of the value. */
  lemma DecimalToStringInjective(a: Decimal, b: Decimal)
    requires DecimalToString(a) == DecimalToString(b)
    ensures a == b
  {
    var s := DecimalToString(a);
    DecimalPoint(a);
    DecimalPoint(b);
    NatToStringInjective(a.whole, b.whole);
    if a.fraction != [] {
      var da, db := DigitsToString(a.fraction), DigitsToString(b.fraction);
      assert da == db;
      forall i | 0 <= i < |a.fraction|
        ensures a.fraction[i] == b.fraction[i]
      {
        assert da[i] == DigitChar(a.fraction[i]) && db[i] == DigitChar(b.fraction[i]);
      }
    }
  }
}
