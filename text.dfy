/** Decimal rendering of integers, as JavaScript's template literals do for
    `${id}` in the "not found" messages, and its inverse. */
module Text {
  import opened Base

  predicate IsDigit(c: char)
  {
    '0' <= c <= '9'
  }

  function Digit(d: nat): (c: char)
    requires d < 10
    ensures IsDigit(c) && (c as int) - ('0' as int) == d
  {
    (('0' as int) + d) as char
  }

  /** The decimal digits of `n`, most significant first, without leading zeros. */
  function NatToString(n: nat): (s: string)
    ensures |s| >= 1
    ensures forall i :: 0 <= i < |s| ==> IsDigit(s[i])
    ensures |s| > 1 ==> s[0] != '0'
    decreases n
  {
    if n < 10 then [Digit(n)] else NatToString(n / 10) + [Digit(n % 10)]
  }

  function IntToString(i: int): (s: string)
    ensures |s| >= 1
  {
    if i < 0 then "-" + NatToString(-i) else NatToString(i)
  }

  function DigitValue(c: char): nat
    requires IsDigit(c)
  {
    (c as int) - ('0' as int)
  }

  /** The value of a string of decimal digits. */
  function DigitsValue(s: string): nat
    requires forall i :: 0 <= i < |s| ==> IsDigit(s[i])
  {
    if s == [] then 0
    else DigitsValue(s[..|s| - 1]) * 10 + DigitValue(s[|s| - 1])
  }

  /** Reads back what IntToString writes; anything else is not a number. */
  function ParseInt(s: string): Option<int>
  {
    if |s| >= 2 && s[0] == '-' && forall i :: 1 <= i < |s| ==> IsDigit(s[i]) then
      Some(-(DigitsValue(s[1..]) as int))
    else if |s| >= 1 && forall i :: 0 <= i < |s| ==> IsDigit(s[i]) then
      Some(DigitsValue(s))
    else
      None
  }

  lemma {:induction false} NatRoundTrip(n: nat)
    ensures DigitsValue(NatToString(n)) == n
    decreases n
  {
    if n >= 10 {
      var s := NatToString(n);
      assert s[..|s| - 1] == NatToString(n / 10);
      NatRoundTrip(n / 10);
    }
  }

  /** Rendering an id loses nothing: the message names exactly that id. */
  lemma IntRoundTrip(i: int)
    ensures ParseInt(IntToString(i)) == Some(i)
  {
    if i < 0 {
      var s := IntToString(i);
      assert s[1..] == NatToString(-i);
      NatRoundTrip(-i);
    } else {
      NatRoundTrip(i);
    }
  }

  lemma IntToStringInjective(i: int, j: int)
    ensures IntToString(i) == IntToString(j) ==> i == j
  {
    IntRoundTrip(i);
    IntRoundTrip(j);
  }
}
