/**
 * Decimal text of integers, as a JavaScript template literal splices an
 * integer into a string (`${n}`) when its magnitude is below 10^21 (larger
 * ones JavaScript writes in exponent form, which is not modelled here), and
 * the reading back of such text.
 * The builder splices placeholder numbers (`$1`, `$2`, ...) and the result
 * limit this way; reading them back is what shows the query text determines
 * the clauses it was built from.
 */
module Decimal {
  import opened Wrappers

  predicate IsDigit(c: char) {
    '0' <= c <= '9'
  }

  predicate AllDigits(s: string) {
    forall i :: 0 <= i < |s| ==> IsDigit(s[i])
  }

  function DigitValue(c: char): (d: nat)
    requires IsDigit(c)
    ensures d < 10
  {
    c as int - '0' as int
  }

  function DigitChar(d: nat): (c: char)
    requires d < 10
    ensures IsDigit(c) && DigitValue(c) == d
  {
    ('0' as int + d) as char
  }

  /** The text of a non-negative integer: digits only, no leading zero. */
  function NatText(n: nat): (s: string)
    ensures |s| > 0 && AllDigits(s)
    ensures s[0] == '0' ==> n == 0
  {
    if n < 10 then [DigitChar(n)] else NatText(n / 10) + [DigitChar(n % 10)]
  }

  /** The text of an integer: a minus sign before the digits of a negative one. */
  function IntText(i: int): (s: string)
    ensures |s| > 0
    ensures (s[0] == '-') == (i < 0)
  {
    if i < 0 then "-" + NatText(-i) else NatText(i)
  }

  /** The value of a run of digits, most significant first. */
  function ParseNat(s: string): (n: nat)
    requires AllDigits(s)
  {
    if s == [] then 0 else 10 * ParseNat(s[..|s| - 1]) + DigitValue(s[|s| - 1])
  }

  lemma {:induction false} ParseNatText(n: nat)
    ensures ParseNat(NatText(n)) == n
  {
    if n >= 10 {
      var s := NatText(n);
      assert s[..|s| - 1] == NatText(n / 10);
      ParseNatText(n / 10);
    }
  }

  /** The length of the longest run of digits that starts s. */
  function DigitRun(s: string): (k: nat)
    ensures k <= |s| && AllDigits(s[..k])
    ensures k < |s| ==> !IsDigit(s[k])
  {
    if s == [] || !IsDigit(s[0]) then 0 else 1 + DigitRun(s[1..])
  }

  /** A run of digits followed by a non-digit (or nothing) is exactly the digit run. */
  lemma {:induction false} DigitRunStopsAfter(d: string, rest: string)
    requires AllDigits(d)
    requires rest == [] || !IsDigit(rest[0])
    ensures DigitRun(d + rest) == |d|
  {
    if d != [] {
      assert (d + rest)[1..] == d[1..] + rest;
      DigitRunStopsAfter(d[1..], rest);
    }
  }

  /** Reads a non-negative integer at the start of s; None when s does not start with a digit. */
  function ReadNat(s: string): (r: Option<(nat, string)>)
    ensures r.Some? ==> |r.value.1| < |s|
  {
    var k := DigitRun(s);
    if k == 0 then None else Some((ParseNat(s[..k]), s[k..]))
  }

  /** Reads an integer, with an optional leading minus sign, at the start of s. */
  function ReadInt(s: string): (r: Option<(int, string)>)
    ensures r.Some? ==> |r.value.1| < |s|
  {
    if s != [] && s[0] == '-' then
      match ReadNat(s[1..])
      case None => None
      case Some((n, rest)) => Some((-(n as int), rest))
    else
      match ReadNat(s)
      case None => None
      case Some((n, rest)) => Some((n as int, rest))
  }

  /** Text written by NatText reads back as the same number, up to the first non-digit. */
  lemma ReadNatText(n: nat, rest: string)
    requires rest == [] || !IsDigit(rest[0])
    ensures ReadNat(NatText(n) + rest) == Some((n, rest))
  {
    var d := NatText(n);
    var s := d + rest;
    var k := DigitRun(s);
    DigitRunStopsAfter(d, rest);
    assert s[..k] == d;
    assert s[k..] == rest;
    ParseNatText(n);
  }

  /** Text written by IntText reads back as the same integer, up to the first non-digit. */
  lemma ReadIntText(i: int, rest: string)
    requires rest == [] || !IsDigit(rest[0])
    ensures ReadInt(IntText(i) + rest) == Some((i, rest))
  {
    if i < 0 {
      ReadNegativeText(-i, rest);
    } else {
      var s := NatText(i) + rest;
      assert s[0] == NatText(i)[0];
      ReadNatText(i, rest);
    }
  }

  lemma ReadNegativeText(n: nat, rest: string)
    requires n > 0
    requires rest == [] || !IsDigit(rest[0])
    ensures ReadInt("-" + NatText(n) + rest) == Some((-(n as int), rest))
  {
    var t := NatText(n) + rest;
    var s := "-" + NatText(n) + rest;
    assert s == "-" + t;
    assert s[1..] == t;
    ReadNatText(n, rest);
  }
}
