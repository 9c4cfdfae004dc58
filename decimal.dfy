/**
  Decimal rendering of integers, as Python's `str(int)` produces it:
  an optional '-' followed by the digits, with no leading zero unless
  the number is zero.
 */
module Decimal {
  import opened Wrappers

  function DigitChar(d: nat): (c: char)
    requires d < 10
    ensures '0' <= c <= '9'
  {
    "0123456789"[d]
  }

  function CharValue(c: char): (d: nat)
    requires '0' <= c <= '9'
    ensures d < 10 && DigitChar(d) == c
  {
    (c as int - '0' as int) as nat
  }

  predicate IsDigit(c: char) {
    '0' <= c <= '9'
  }

  /** The decimal digits of a natural number. */
  function NatToString(n: nat): (s: string)
    ensures |s| >= 1
    ensures forall i :: 0 <= i < |s| ==> IsDigit(s[i])
    ensures s[0] == '0' ==> n == 0
  {
    if n < 10 then [DigitChar(n)] else NatToString(n / 10) + [DigitChar(n % 10)]
  }

  /** Python's `str(i)` for an int. */
  function IntToString(i: int): (s: string)
    ensures |s| >= 1
  {
    if i < 0 then "-" + NatToString(-i) else NatToString(i)
  }

  /** Reads back a string of decimal digits. */
  function ParseDigits(s: string): Option<nat>
  {
    if s == [] then None
    else if !IsDigit(s[|s| - 1]) then None
    else if |s| == 1 then Some(CharValue(s[0]))
    else match ParseDigits(s[..|s| - 1])
      case None => None
      case Some(p) => Some(p * 10 + CharValue(s[|s| - 1]))
  }

  /** Reads back a rendered int. */
  function ParseInt(s: string): Option<int>
  {
    if |s| >= 2 && s[0] == '-' then
      match ParseDigits(s[1..])
      case None => None
      case Some(n) => Some(0 - n)
    else match ParseDigits(s)
      case None => None
      case Some(n) => Some(n as int)
  }

  /** Reading a digit string one digit longer: ten times the shorter value plus the new digit. */
  lemma ParseDigitsSnoc(t: string, c: char)
    requires t != [] && IsDigit(c)
    ensures ParseDigits(t + [c]) == if ParseDigits(t).None? then None else Some(ParseDigits(t).value * 10 + CharValue(c))
  {
    assert (t + [c])[..|t|] == t;
  }

  /** Rendering a natural number and reading it back gives the same number. */
  lemma {:induction false} ParseNatToString(n: nat)
    ensures ParseDigits(NatToString(n)) == Some(n)
  {
    if n < 10 {
      assert NatToString(n) == [DigitChar(n)];
    } else {
      var q, d := n / 10, n % 10;
      ParseNatToString(q);
      assert NatToString(n) == NatToString(q) + [DigitChar(d)];
      ParseDigitsSnoc(NatToString(q), DigitChar(d));
      assert CharValue(DigitChar(d)) == d;
      assert q * 10 + d == n;
    }
  }

  /** Rendering an int and reading it back gives the same int. */
  lemma IntToStringRoundTrip(i: int)
    ensures ParseInt(IntToString(i)) == Some(i)
  {
    var s := IntToString(i);
    if i < 0 {
      var digits := NatToString(-i);
      ParseNatToString(-i);
      assert s == "-" + digits;
      assert s[1..] == digits;
    } else {
      ParseNatToString(i);
      assert s == NatToString(i);
      assert IsDigit(s[0]);
    }
  }

  /** Distinct ints render to distinct strings. */
  lemma IntToStringInjective(a: int, b: int)
    requires IntToString(a) == IntToString(b)
    ensures a == b
  {
    IntToStringRoundTrip(a);
    IntToStringRoundTrip(b);
  }
}
