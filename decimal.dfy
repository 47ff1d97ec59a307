/**
 * Decimal text of whole numbers, as `Number.prototype.toString` and
 * Python's `str` write them.
 */
module Decimal {

  /** Decimal digits of a natural number. */
  function NatText(n: nat): (s: string)
    ensures |s| >= 1
    ensures forall k :: 0 <= k < |s| ==> '0' <= s[k] <= '9'
    decreases n
  {
    if n < 10 then [('0' as int + n) as char]
    else NatText(n / 10) + [('0' as int + n % 10) as char]
  }

  /** The number a string of decimal digits denotes. */
  function DigitsValue(s: string): nat
    requires forall k :: 0 <= k < |s| ==> '0' <= s[k] <= '9'
    decreases |s|
  {
    if s == [] then 0 else DigitsValue(s[..|s| - 1]) * 10 + (s[|s| - 1] as int - '0' as int)
  }

  /** The text reads back as the number it was written from. */
  lemma {:induction false} NatTextRoundTrip(n: nat)
    ensures DigitsValue(NatText(n)) == n
    decreases n
  {
    if n >= 10 {
      NatTextRoundTrip(n / 10);
      var s := NatText(n);
      assert s[..|s| - 1] == NatText(n / 10);
    }
  }

  /** Distinct numbers get distinct texts. */
  lemma NatTextInjective(m: nat, n: nat)
    requires NatText(m) == NatText(n)
    ensures m == n
  {
    NatTextRoundTrip(m);
    NatTextRoundTrip(n);
  }

  /** Python's `str` of an integer: a minus sign before the digits of a negative one. */
  function IntText(i: int): (s: string)
    ensures i >= 0 ==> s == NatText(i)
    ensures i < 0 ==> s == "-" + NatText(-i)
  {
    if i >= 0 then NatText(i) else "-" + NatText(-i)
  }
}
