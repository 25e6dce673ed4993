/** Decimal rendering of integers, as Python's `str` and f-string `{n}` write
    them: no leading zeros, a leading '-' for negative numbers. */
module Text {

  predicate IsDigit(c: char) {
    '0' <= c <= '9'
  }

  predicate AllDigits(s: string) {
    forall i :: 0 <= i < |s| ==> IsDigit(s[i])
  }

  /** The character of one decimal digit. */
  function Digit(d: nat): (c: char)
    requires d < 10
    ensures IsDigit(c)
    ensures c as int - '0' as int == d
  {
    ('0' as int + d) as char
  }

  /** Decimal text of a natural number. */
  function NatStr(n: nat): (s: string)
    ensures |s| >= 1 && AllDigits(s)
    ensures n < 10 <==> |s| == 1
  {
    if n < 10 then [Digit(n)] else NatStr(n / 10) + [Digit(n % 10)]
  }

  /** Decimal text of an integer, with a minus sign for negative values. */
  function IntStr(x: int): (s: string)
    ensures |s| >= 1
    ensures x >= 0 ==> s == NatStr(x)
    ensures x < 0 ==> s[0] == '-' && s[1..] == NatStr(-x)
  {
    if x < 0 then "-" + NatStr(-x) else NatStr(x)
  }

  /** The number a string of decimal digits denotes (most significant first). */
  function DigitsValue(s: string): nat
    requires AllDigits(s)
  {
    if s == [] then 0
    else DigitsValue(s[..|s| - 1]) * 10 + (s[|s| - 1] as int - '0' as int)
  }

  /** Reading back the decimal text of n yields n. */
  lemma {:induction false} NatStrRoundTrip(n: nat)
    ensures DigitsValue(NatStr(n)) == n
  {
    if n >= 10 {
      var s := NatStr(n);
      assert s[..|s| - 1] == NatStr(n / 10);
      NatStrRoundTrip(n / 10);
    }
  }

  /** Different numbers have different decimal texts. */
  lemma NatStrInjective(a: nat, b: nat)
    requires NatStr(a) == NatStr(b)
    ensures a == b
  {
    NatStrRoundTrip(a);
    NatStrRoundTrip(b);
  }

  /** Different integers have different decimal texts. */
  lemma IntStrInjective(a: int, b: int)
    requires IntStr(a) == IntStr(b)
    ensures a == b
  {
    if a >= 0 && b >= 0 {
      NatStrInjective(a, b);
    } else if a < 0 && b < 0 {
      assert IntStr(a)[1..] == IntStr(b)[1..];
      NatStrInjective(-a, -b);
    }
  }

  /** The length of the run of digits that a string starts with. */
  function LeadingDigits(u: string): (n: nat)
    ensures n <= |u|
  {
    if u != [] && IsDigit(u[0]) then 1 + LeadingDigits(u[1..]) else 0
  }

  lemma {:induction false} LeadingDigitsOfConcat(a: string, s: string)
    requires AllDigits(a)
    requires |s| >= 1 && !IsDigit(s[0])
    ensures LeadingDigits(a + s) == |a|
  {
    if a != [] {
      assert (a + s)[1..] == a[1..] + s;
      LeadingDigitsOfConcat(a[1..], s);
    } else {
      assert a + s == s;
    }
  }

  /** A digit string followed by a text that starts with a non-digit can be
      split in only one way: the digits end where the first non-digit is. */
  lemma DigitsPrefixUnique(a: string, s: string, b: string, t: string)
    requires AllDigits(a) && AllDigits(b)
    requires |s| >= 1 && !IsDigit(s[0])
    requires |t| >= 1 && !IsDigit(t[0])
    requires a + s == b + t
    ensures a == b && s == t
  {
    LeadingDigitsOfConcat(a, s);
    LeadingDigitsOfConcat(b, t);
    assert a == (a + s)[..|a|];
    assert b == (b + t)[..|b|];
  }
}
