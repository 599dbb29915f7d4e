/** Python's `str(n)` for an integer, as it appears inside the f-string of
    the confirmation message: an optional `-` and canonical decimal digits. */
module Decimal {

  predicate IsDigit(c: char) {
    '0' <= c <= '9'
  }

  predicate AllDigits(s: string) {
    forall k :: 0 <= k < |s| ==> IsDigit(s[k])
  }

  function DigitChar(d: nat): (c: char)
    requires d < 10
    ensures IsDigit(c) && c as int - '0' as int == d
  {
    ('0' as int + d) as char
  }

  /** The decimal digits of `n`, without leading zeros. */
  function NatToDecimal(n: nat): (s: string)
    ensures |s| >= 1 && AllDigits(s)
    ensures n > 0 ==> s[0] != '0'
    ensures n == 0 ==> s == "0"
    decreases n
  {
    if n < 10 then [DigitChar(n)] else NatToDecimal(n / 10) + [DigitChar(n % 10)]
  }

  /** `str(n)`: a `-` exactly for negative numbers, then digits with no
      leading zero. */
  function IntToDecimal(n: int): (s: string)
    ensures |s| >= 1 && (s[0] == '-' <==> n < 0)
    ensures n < 0 ==> |s| >= 2 && AllDigits(s[1..]) && s[1] != '0'
    ensures n >= 0 ==> AllDigits(s) && (n > 0 ==> s[0] != '0')
  {
    if n < 0 then "-" + NatToDecimal(-n) else NatToDecimal(n)
  }

  /** The value of a string of decimal digits: the partner of `NatToDecimal`. */
  function DecimalValue(s: string): (v: nat)
    requires AllDigits(s)
    ensures |s| >= 1 && s[0] != '0' ==> v > 0
  {
    if s == [] then 0 else DecimalValue(s[..|s| - 1]) * 10 + (s[|s| - 1] as int - '0' as int)
  }

  /** `int(s)` for the strings `str` produces. */
  function ParseInt(s: string): (n: int)
    requires |s| >= 1
    requires if s[0] == '-' then AllDigits(s[1..]) else AllDigits(s)
    ensures s[0] != '-' ==> n >= 0
    ensures s[0] == '-' ==> n <= 0
    ensures s[0] == '-' && |s| >= 2 && s[1] != '0' ==> n < 0
  {
    if s[0] == '-' then -(DecimalValue(s[1..]) as int) else DecimalValue(s)
  }

  /** Reading the digits back gives the number: the rendering loses nothing. */
  lemma {:induction false} NatToDecimalRoundTrip(n: nat)
    ensures DecimalValue(NatToDecimal(n)) == n
    decreases n
  {
    if n >= 10 {
      var s := NatToDecimal(n);
      assert s[..|s| - 1] == NatToDecimal(n / 10);
      NatToDecimalRoundTrip(n / 10);
    }
  }

  /** `int(str(n)) == n`. */
  lemma IntToDecimalRoundTrip(n: int)
    ensures var s := IntToDecimal(n);
      |s| >= 1 && (if s[0] == '-' then AllDigits(s[1..]) else AllDigits(s)) && ParseInt(s) == n
  {
    if n < 0 {
      assert IntToDecimal(n)[1..] == NatToDecimal(-n);
      NatToDecimalRoundTrip(-n);
    } else {
      NatToDecimalRoundTrip(n);
    }
  }

  /** A canonical digit string (no leading zero unless it is "0") is the
      rendering of its own value: `str(int(s)) == s`. */
  lemma {:induction false} DecimalValueRoundTrip(s: string)
    requires |s| >= 1 && AllDigits(s) && (s[0] == '0' ==> |s| == 1)
    ensures NatToDecimal(DecimalValue(s)) == s
    decreases |s|
  {
    var last := s[|s| - 1];
    var d := last as int - '0' as int;
    if |s| == 1 {
      assert DigitChar(d) == last;
      assert s == [last];
    } else {
      var p := s[..|s| - 1];
      assert p[0] == s[0];
      DecimalValueRoundTrip(p);
      var v := DecimalValue(p);
      var n := v * 10 + d;
      assert DecimalValue(s) == n;
      assert n / 10 == v && n % 10 == d;
      assert DigitChar(d) == last;
      assert s == p + [last];
    }
  }
}
