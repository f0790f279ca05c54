/**
 * Decimal rendering of integers, as the sketch's `String(int)` conversion
 * does it (base 10, a leading '-' for negative values, no leading zeros),
 * and a reader for the same text that accepts exactly the integer form of
 * a JSON number (section 6 of RFC 8259: an optional minus, then "0" or a
 * non-zero digit followed by digits).
 */
module Decimal {
  import opened Wrappers

  predicate IsDigit(c: char) {
    '0' <= c <= '9'
  }

  predicate AllDigits(s: string) {
    forall i :: 0 <= i < |s| ==> IsDigit(s[i])
  }

  function DigitValue(c: char): (d: nat)
    requires IsDigit(c)
    ensures d < 10
  {
    c as int - '0' as int
  }

  function DigitChar(d: nat): (c: char)
    requires d < 10
    ensures IsDigit(c) && DigitValue(c) == d
  {
    ('0' as int + d) as char
  }

  /** The decimal digits of `n`, most significant first, without leading zeros. */
  function Digits(n: nat): (s: string)
    ensures 1 <= |s| && AllDigits(s)
    ensures s[0] == '0' ==> n == 0 && s == "0"
    decreases n
  {
    if n < 10 then [DigitChar(n)] else Digits(n / 10) + [DigitChar(n % 10)]
  }

  /** The number a string of decimal digits denotes. */
  function ValueOf(s: string): nat
    requires AllDigits(s)
    decreases |s|
  {
    if s == [] then 0 else ValueOf(s[..|s| - 1]) * 10 + DigitValue(s[|s| - 1])
  }

  /** `String(n)` for an `int` n. */
  function IntToString(n: int): (s: string)
    ensures 1 <= |s|
    ensures s[0] == '-' <==> n < 0
  {
    if n < 0 then "-" + Digits(-n) else Digits(n)
  }

  /** Length of the run of digits that `s` starts with. */
  function DigitRun(s: string): (k: nat)
    ensures k <= |s| && AllDigits(s[..k])
    ensures k < |s| ==> !IsDigit(s[k])
    decreases |s|
  {
    if s != [] && IsDigit(s[0]) then 1 + DigitRun(s[1..]) else 0
  }

  /**
   * Reads a JSON integer at the front of `s`: the value and the text after
   * it, or None when `s` does not start with one.
   */
  function ReadInt(s: string): (r: Option<(int, string)>)
    ensures r.Some? ==> |r.value.1| < |s| && r.value.1 == s[|s| - |r.value.1|..]
    ensures r.Some? ==> r.value.1 == [] || !IsDigit(r.value.1[0])
  {
    var negative := s != [] && s[0] == '-';
    var t := if negative then s[1..] else s;
    var k := DigitRun(t);
    if k == 0 || (k > 1 && t[0] == '0') then None
    else
      var v: int := ValueOf(t[..k]);
      Some((if negative then -v else v, t[k..]))
  }

  lemma {:induction false} ValueOfDigits(n: nat)
    ensures ValueOf(Digits(n)) == n
    decreases n
  {
    if n >= 10 {
      var s := Digits(n);
      assert s[..|s| - 1] == Digits(n / 10);
      ValueOfDigits(n / 10);
    }
  }

  lemma {:induction false} DigitRunOfDigits(d: string, rest: string)
    requires AllDigits(d)
    requires rest == [] || !IsDigit(rest[0])
    ensures DigitRun(d + rest) == |d|
    decreases |d|
  {
    if d != [] {
      assert (d + rest)[1..] == d[1..] + rest;
      DigitRunOfDigits(d[1..], rest);
    }
  }

  lemma ConcatAssoc(a: string, b: string, c: string)
    ensures (a + b) + c == a + (b + c)
  {
  }

  /** Reading the digits of m followed by text that is not a digit. */
  lemma ReadDigits(m: nat, rest: string)
    requires rest == [] || !IsDigit(rest[0])
    ensures ReadInt(Digits(m) + rest) == Some((m, rest))
  {
    var d := Digits(m);
    var s := d + rest;
    assert s[0] == d[0] && IsDigit(s[0]);
    DigitRunOfDigits(d, rest);
    assert s[..|d|] == d && s[|d|..] == rest;
    ValueOfDigits(m);
  }

  /** Reading a minus sign, then the digits of m, then text that is not a digit. */
  lemma ReadNegativeDigits(m: int, rest: string)
    requires 0 < m
    requires rest == [] || !IsDigit(rest[0])
    ensures ReadInt("-" + (Digits(m) + rest)) == Some((-m, rest))
  {
    var d := Digits(m);
    var s := "-" + (d + rest);
    assert s[0] == '-' && s[1..] == d + rest;
    DigitRunOfDigits(d, rest);
    assert (d + rest)[..|d|] == d && (d + rest)[|d|..] == rest;
    ValueOfDigits(m);
  }

  /** Reading back what `String(n)` wrote gives n and leaves the rest untouched. */
  lemma ReadIntString(n: int, rest: string)
    requires rest == [] || !IsDigit(rest[0])
    ensures ReadInt(IntToString(n) + rest) == Some((n, rest))
  {
    if n < 0 {
      ConcatAssoc("-", Digits(-n), rest);
      ReadNegativeDigits(-n, rest);
    } else {
      ReadDigits(n, rest);
    }
  }
}
