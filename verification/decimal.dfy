/**
  Python's `str(n)` for an integer, as used by the f-string that puts the
  inserted row's id into the notification text, together with the parser that
  reads such a string back.
*/
module Decimal {
  import opened Options

  predicate IsDigit(c: char) {
    '0' <= c <= '9'
  }

  predicate AllDigits(s: string) {
    forall k :: 0 <= k < |s| ==> IsDigit(s[k])
  }

  function DigitChar(d: nat): (c: char)
    requires d < 10
    ensures IsDigit(c)
  {
    ('0' as int + d) as char
  }

  function DigitValue(c: char): (d: nat)
    requires IsDigit(c)
    ensures d < 10 && DigitChar(d) == c
  {
    c as int - '0' as int
  }

  /** The decimal digits of n, most significant first, without leading zeros. */
  function NatToString(n: nat): (s: string)
    ensures s != [] && AllDigits(s)
    ensures s[0] == '0' ==> n == 0 && s == "0"
    decreases n
  {
    if n < 10 then [DigitChar(n)] else NatToString(n / 10) + [DigitChar(n % 10)]
  }

  /** The value of a string of decimal digits. */
  function StringToNat(s: string): nat
    requires AllDigits(s)
    decreases |s|
  {
    if s == [] then 0 else StringToNat(s[..|s| - 1]) * 10 + DigitValue(s[|s| - 1])
  }

  /** `str(i)`: a minus sign before the digits of |i| when i is negative. */
  function IntToString(i: int): (s: string)
    ensures s != []
    ensures i < 0 <==> s[0] == '-'
    ensures forall k :: 0 <= k < |s| ==> s[k] == '-' || IsDigit(s[k])
    ensures forall k :: 1 <= k < |s| ==> IsDigit(s[k])
    // No leading zeros: only zero itself is written with a leading '0'.
    ensures s[0] == '0' ==> s == "0"
    ensures i < 0 ==> |s| > 1 && s[1] != '0'
  {
    if i < 0 then "-" + NatToString(-i) else NatToString(i)
  }

  /** `int(s)` restricted to the strings `str` produces: optional '-', then digits. */
  function ParseInt(s: string): Option<int> {
    if s != [] && s[0] == '-' then
      if |s| > 1 && AllDigits(s[1..]) then Some(0 - StringToNat(s[1..]) as int) else None
    else if s != [] && AllDigits(s) then Some(StringToNat(s))
    else None
  }

  lemma {:induction false} NatRoundTrip(n: nat)
    ensures StringToNat(NatToString(n)) == n
    decreases n
  {
    if n >= 10 {
      var s := NatToString(n);
      assert s[..|s| - 1] == NatToString(n / 10);
      NatRoundTrip(n / 10);
    }
  }

  /** Reading back what `str` wrote gives the same integer. */
  lemma IntRoundTrip(i: int)
    ensures ParseInt(IntToString(i)) == Some(i)
  {
    if i < 0 {
      assert IntToString(i)[1..] == NatToString(-i);
      NatRoundTrip(-i);
    } else {
      NatRoundTrip(i);
    }
  }
}
