/** String helpers that the pages and the report generator rely on. */
module Text {

  /** `s.split(sep)[0]`: the part of `s` before the first `sep` (all of `s` when `sep` does not occur). */
  function BeforeFirst(s: string, sep: char): (r: string)
    ensures sep !in r
    ensures r <= s
    ensures |r| < |s| ==> s[|r|] == sep
    ensures sep !in s ==> r == s
  {
    if s == [] then []
    else if s[0] == sep then []
    else [s[0]] + BeforeFirst(s[1..], sep)
  }

  /** Splitting at a separator that first occurs right after `head` gives back `head`. */
  lemma {:induction false} BeforeFirstAt(head: string, sep: char, rest: string)
    requires sep !in head
    ensures BeforeFirst(head + [sep] + rest, sep) == head
  {
    if head != [] {
      assert (head + [sep] + rest)[1..] == head[1..] + [sep] + rest;
      BeforeFirstAt(head[1..], sep, rest);
    }
  }

  /** The digit character for `d`. */
  function Digit(d: nat): (c: char)
    requires d < 10
    ensures '0' <= c <= '9' && c as int - '0' as int == d
  {
    ('0' as int + d) as char
  }

  /** The number a string of decimal digits denotes, most significant digit first. */
  function DigitsValue(s: string): nat
    requires forall k :: 0 <= k < |s| ==> '0' <= s[k] <= '9'
  {
    if s == [] then 0 else 10 * DigitsValue(s[..|s| - 1]) + (s[|s| - 1] as int - '0' as int)
  }

  /**
   * The decimal rendering of `n`, as a JavaScript template literal prints a
   * non-negative integer: digits that spell `n`, with no leading zero.
   */
  function Decimal(n: nat): (r: string)
    ensures 0 < |r|
    ensures forall k :: 0 <= k < |r| ==> '0' <= r[k] <= '9'
    ensures n < 10 <==> |r| == 1
    ensures DigitsValue(r) == n
    ensures 10 <= n ==> r[0] != '0'
  {
    if n < 10 then
      var r := [Digit(n)];
      assert r[..0] == [];
      r
    else
      var high := Decimal(n / 10);
      var r := high + [Digit(n % 10)];
      assert r[..|r| - 1] == high;
      assert r[0] == high[0];
      r
  }
}
