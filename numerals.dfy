/**
 * Decimal rendering of Java integers, `Integer.toString`: an optional minus
 * sign followed by the digits of the magnitude, without leading zeros.
 */
module Numerals {

  predicate IsDigit(c: char)
  {
    '0' <= c <= '9'
  }

  predicate AllDigits(s: string)
  {
    forall i :: 0 <= i < |s| ==> IsDigit(s[i])
  }

  /** The number a string of decimal digits denotes. */
  function DigitsValue(s: string): nat
    requires AllDigits(s)
  {
    if s == [] then 0
    else
      var d := s[|s| - 1] as int - '0' as int;
      assert 0 <= d;
      DigitsValue(s[..|s| - 1]) * 10 + d
  }

  /** The decimal digits of `n`: at least one digit, no leading zero, and they denote `n`. */
  function NatToDigits(n: nat): (s: string)
    ensures |s| > 0 && AllDigits(s)
    ensures s[0] == '0' ==> n == 0 && s == "0"
    ensures DigitsValue(s) == n
    decreases n
  {
    var last := [(('0' as int) + n % 10) as char];
    if n < 10 then last
    else
      var front := NatToDigits(n / 10);
      assert (front + last)[..|front + last| - 1] == front;
      front + last
  }

  /** `Integer.toString(i)`: a minus sign exactly for negative values, then the digits of the magnitude. */
  function IntToString(i: int): (s: string)
    ensures |s| > 0
    ensures s[0] == '-' <==> i < 0
    ensures i < 0 ==> |s| > 1 && AllDigits(s[1..]) && DigitsValue(s[1..]) == -i && s[1] != '0'
    ensures i >= 0 ==> AllDigits(s) && DigitsValue(s) == i
    ensures i >= 0 ==> (s[0] == '0' ==> i == 0 && s == "0")
  {
    if i < 0 then
      var d := NatToDigits(-i);
      assert ("-" + d)[1..] == d;
      "-" + d
    else NatToDigits(i)
  }

  /** The rendering is injective: distinct integers never print alike. */
  lemma IntToStringInjective(i: int, j: int)
    requires IntToString(i) == IntToString(j)
    ensures i == j
  {
  }
}
