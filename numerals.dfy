/**
 * Decimal rendering of non-negative integers (template-literal `${n}` and
 * `n.toString().padStart(2, '0')`), together with the reader that inverts it.
 */
module Numerals {
  import opened Options

  predicate IsDigit(c: char) { '0' <= c <= '9' }

  predicate AllDigits(s: string) { forall i :: 0 <= i < |s| ==> IsDigit(s[i]) }

  function DigitChar(d: nat): (c: char)
    requires d < 10
    ensures IsDigit(c)
  {
    ('0' as int + d) as char
  }

  function DigitValue(c: char): nat
    requires IsDigit(c)
  {
    c as int - '0' as int
  }

  /** `${n}` for a non-negative integer: no sign, no leading zeros. */
  function NatToString(n: nat): (r: string)
    ensures 1 <= |r| && AllDigits(r)
    ensures n < 10 <==> |r| == 1
    decreases n
  {
    if n < 10 then [DigitChar(n)] else NatToString(n / 10) + [DigitChar(n % 10)]
  }

  /** The value of a string of decimal digits. */
  function DigitsValue(s: string): nat
    requires AllDigits(s)
  {
    if s == [] then 0 else 10 * DigitsValue(s[..|s| - 1]) + DigitValue(s[|s| - 1])
  }

  lemma {:induction false} DigitsValueOfNatToString(n: nat)
    ensures DigitsValue(NatToString(n)) == n
    decreases n
  {
    if n >= 10 {
      var s := NatToString(n);
      assert s[..|s| - 1] == NatToString(n / 10);
      DigitsValueOfNatToString(n / 10);
    }
  }

  /** Rendering is injective: distinct numbers have distinct decimal strings. */
  lemma NatToStringInjective(m: nat, n: nat)
    requires NatToString(m) == NatToString(n)
    ensures m == n
  {
    DigitsValueOfNatToString(m);
    DigitsValueOfNatToString(n);
  }

  /** `n.toString().padStart(2, '0')`. */
  function Pad2(n: nat): (r: string)
    ensures AllDigits(r) && 2 <= |r|
    ensures n < 100 ==> |r| == 2
  {
    var s := NatToString(n);
    if |s| < 2 then "0" + s else s
  }

  lemma Pad2Value(n: nat)
    ensures DigitsValue(Pad2(n)) == n
  {
    DigitsValueOfNatToString(n);
    if n < 10 {
      var r := Pad2(n);
      assert r[..1] == "0";
    }
  }

  /** Length of the longest prefix of `s` made of digits. */
  function DigitRun(s: string): (k: nat)
    ensures k <= |s| && AllDigits(s[..k])
    ensures k < |s| ==> !IsDigit(s[k])
  {
    if s != [] && IsDigit(s[0]) then 1 + DigitRun(s[1..]) else 0
  }

  /** Reads a maximal run of digits from the front: the number and the rest of the input. */
  function ReadNat(s: string): Option<(nat, string)>
  {
    var k := DigitRun(s);
    if k == 0 then None else Some((DigitsValue(s[..k]), s[k..]))
  }

  /** Does not start with a digit, so a digit run stops in front of it. */
  predicate StopsDigits(rest: string) { rest == [] || !IsDigit(rest[0]) }

  lemma {:induction false} DigitRunOfDigits(d: string, rest: string)
    requires AllDigits(d) && StopsDigits(rest)
    ensures DigitRun(d + rest) == |d|
    decreases |d|
  {
    if d != [] {
      assert (d + rest)[1..] == d[1..] + rest;
      DigitRunOfDigits(d[1..], rest);
    } else {
      assert d + rest == rest;
    }
  }

  /** Reading back a rendered number followed by a non-digit gives the number and the rest. */
  lemma ReadNatToString(n: nat, rest: string)
    requires StopsDigits(rest)
    ensures ReadNat(NatToString(n) + rest) == Some((n, rest))
  {
    var d := NatToString(n);
    DigitRunOfDigits(d, rest);
    assert (d + rest)[..|d|] == d;
    assert (d + rest)[|d|..] == rest;
    DigitsValueOfNatToString(n);
  }
}
