/**
 * The handful of Python string operations the plugins rely on: `str()` and
 * `int()` on decimal numbers, `isdigit()`, `lower()`, `in`, `find()`,
 * `endswith()`, `replace(pattern, '')` and `sep.join(parts)`.
 */
module Text {

  // ---------------------------------------------------------------------
  // Decimal numbers
  // ---------------------------------------------------------------------

  predicate IsDigit(c: char) {
    '0' <= c <= '9'
  }

  /** `s.isdigit()` for ASCII text: non-empty and made of digits only. */
  predicate IsDigits(s: string) {
    |s| > 0 && forall i :: 0 <= i < |s| ==> IsDigit(s[i])
  }

  function DigitChar(d: nat): (c: char)
    requires d < 10
    ensures IsDigit(c)
  {
    ('0' as int + d) as char
  }

  function DigitValue(c: char): (d: nat)
    requires IsDigit(c)
    ensures d < 10
  {
    c as int - '0' as int
  }

  /** A decimal numeral as `str()` writes it: a lone zero, or no zero in front. */
  predicate NoLeadingZero(s: string) {
    |s| == 1 || (|s| > 1 && s[0] != '0')
  }

  /** `str(n)` for a natural number: decimal digits without leading zeros. */
  function NatToString(n: nat): (s: string)
    ensures IsDigits(s)
    ensures NoLeadingZero(s)
  {
    if n < 10 then [DigitChar(n)] else NatToString(n / 10) + [DigitChar(n % 10)]
  }

  /** `int(s)` for a string of decimal digits. */
  function ParseNat(s: string): nat
    requires IsDigits(s)
  {
    if |s| == 1 then DigitValue(s[0])
    else ParseNat(s[..|s| - 1]) * 10 + DigitValue(s[|s| - 1])
  }

  /** Reading back a rendered number gives the number. */
  lemma {:induction false} ParseNatToString(n: nat)
    ensures ParseNat(NatToString(n)) == n
  {
    if n >= 10 {
      var s := NatToString(n);
      assert s[..|s| - 1] == NatToString(n / 10);
      ParseNatToString(n / 10);
    }
  }

  /** `str(i)` for any integer: a minus sign before the digits of a negative one. */
  function IntToString(i: int): (s: string)
    ensures 0 <= i ==> IsDigits(s) && NoLeadingZero(s) && ParseNat(s) == i
    ensures i < 0 ==> |s| > 1 && s[0] == '-' && IsDigits(s[1..]) && NoLeadingZero(s[1..]) && ParseNat(s[1..]) == -i
  {
    if i < 0 then
      ParseNatToString(-i);
      assert ("-" + NatToString(-i))[1..] == NatToString(-i);
      "-" + NatToString(-i)
    else
      ParseNatToString(i);
      NatToString(i)
  }

  // ---------------------------------------------------------------------
  // Case
  // ---------------------------------------------------------------------

  /** Upper-case letters of the Latin (A-Z) and Russian (А-Я, Ё) alphabets. */
  predicate IsUpper(c: char) {
    ('A' <= c <= 'Z') || ('А' <= c <= 'Я') || c == 'Ё'
  }

  function LowerChar(c: char): (l: char)
    ensures !IsUpper(l)
    ensures !IsUpper(c) ==> l == c
  {
    if 'A' <= c <= 'Z' || 'А' <= c <= 'Я' then (c as int + 32) as char
    else if c == 'Ё' then 'ё'
    else c
  }

  /** `s.lower()`, character by character. */
  function Lower(s: string): (r: string)
    ensures |r| == |s|
    ensures forall i :: 0 <= i < |s| ==> r[i] == LowerChar(s[i])
  {
    seq(|s|, i requires 0 <= i < |s| => LowerChar(s[i]))
  }

  predicate NoUpper(s: string) {
    forall i :: 0 <= i < |s| ==> !IsUpper(s[i])
  }

  /** Lowering is idempotent, and a lowered string has no upper-case letter left. */
  lemma LowerIsLower(s: string)
    ensures NoUpper(Lower(s))
    ensures Lower(Lower(s)) == Lower(s)
  {
  }

  // ---------------------------------------------------------------------
  // Substrings
  // ---------------------------------------------------------------------

  /** `needle` occurs in `hay` starting at index `i`. */
  predicate OccursAt(hay: string, needle: string, i: nat) {
    i + |needle| <= |hay| && hay[i..i + |needle|] == needle
  }

  /** Python's `needle in hay`. */
  predicate Contains(hay: string, needle: string) {
    exists i :: 0 <= i <= |hay| && OccursAt(hay, needle, i)
  }

  /** `hay.find(needle, k)`: the first occurrence at or after `k`, or -1. */
  function FindFrom(hay: string, needle: string, k: nat): (r: int)
    requires k <= |hay|
    ensures r == -1 || (k <= r <= |hay| && OccursAt(hay, needle, r))
    ensures r == -1 ==> forall j :: k <= j <= |hay| ==> !OccursAt(hay, needle, j)
    ensures r != -1 ==> forall j :: k <= j < r ==> !OccursAt(hay, needle, j)
    decreases |hay| - k
  {
    if OccursAt(hay, needle, k) then k
    else if k == |hay| then -1
    else FindFrom(hay, needle, k + 1)
  }

  /** `hay.find(needle)`: the first occurrence, found exactly when `needle in hay`. */
  function Find(hay: string, needle: string): (r: int)
    ensures r >= 0 <==> Contains(hay, needle)
    ensures r >= 0 ==> OccursAt(hay, needle, r) && forall j :: 0 <= j < r ==> !OccursAt(hay, needle, j)
  {
    FindFrom(hay, needle, 0)
  }

  /** A string without upper-case letters has none in any part of it. */
  lemma NoUpperInPart(hay: string, needle: string)
    requires NoUpper(hay)
    requires Contains(hay, needle)
    ensures NoUpper(needle)
  {
    var i :| 0 <= i <= |hay| && OccursAt(hay, needle, i);
    forall k | 0 <= k < |needle|
      ensures !IsUpper(needle[k])
    {
      assert needle[k] == hay[i + k];
    }
  }

  predicate StartsWith(s: string, prefix: string) {
    |prefix| <= |s| && s[..|prefix|] == prefix
  }

  /** `s.endswith(suffix)`. */
  predicate EndsWith(s: string, suffix: string) {
    |suffix| <= |s| && s[|s| - |suffix|..] == suffix
  }

  // ---------------------------------------------------------------------
  // replace(pattern, '') and join
  // ---------------------------------------------------------------------

  /**
   * `s.replace(pattern, '')`: every occurrence found scanning from the left,
   * without overlaps, is removed.
   */
  function RemoveAll(s: string, pattern: string): (r: string)
    requires |pattern| > 0
    ensures |r| <= |s|
    ensures r == s <==> !Contains(s, pattern)
    ensures NoUpper(s) ==> NoUpper(r)
    decreases |s|
  {
    if |s| < |pattern| then
      assert !Contains(s, pattern);
      s
    else if s[..|pattern|] == pattern then
      assert OccursAt(s, pattern, 0);
      RemoveAll(s[|pattern|..], pattern)
    else
      var rest := RemoveAll(s[1..], pattern);
      ContainsPastHead(s, pattern);
      assert [s[0]] + s[1..] == s;
      [s[0]] + rest
  }

  /** When the pattern does not start the text, it occurs in the text exactly when it occurs past the first character. */
  lemma ContainsPastHead(s: string, pattern: string)
    requires |pattern| <= |s| && s[..|pattern|] != pattern
    ensures Contains(s, pattern) <==> Contains(s[1..], pattern)
  {
    if Contains(s, pattern) {
      var i :| 0 <= i <= |s| && OccursAt(s, pattern, i);
      assert i != 0;
      assert OccursAt(s[1..], pattern, i - 1);
    }
    if Contains(s[1..], pattern) {
      var i :| 0 <= i <= |s[1..]| && OccursAt(s[1..], pattern, i);
      assert OccursAt(s, pattern, i + 1);
    }
  }

  /** A string without the pattern's first character does not contain the pattern. */
  lemma AbsentLeadNotContained(s: string, pattern: string)
    requires |pattern| > 0
    requires forall k :: 0 <= k < |s| ==> s[k] != pattern[0]
    ensures !Contains(s, pattern)
  {
    forall i | 0 <= i <= |s|
      ensures !OccursAt(s, pattern, i)
    {
      if i + |pattern| <= |s| {
        assert s[i..i + |pattern|][0] == s[i];
      }
    }
  }

  /** Removing a pattern from text that ends in it and has no other start of it leaves the text before it. */
  lemma {:induction false} RemoveAllTrailing(s: string, pattern: string)
    requires |pattern| > 0
    requires forall k :: 0 <= k < |s| ==> s[k] != pattern[0]
    ensures RemoveAll(s + pattern, pattern) == s
  {
    if |s| == 0 {
      assert s + pattern == pattern;
      assert pattern[|pattern|..] == "";
    } else {
      assert (s + pattern)[..|pattern|][0] == s[0];
      assert (s + pattern)[1..] == s[1..] + pattern;
      RemoveAllTrailing(s[1..], pattern);
      assert [s[0]] + s[1..] == s;
    }
  }

  /** `sep.join(parts)`. */
  function Join(parts: seq<string>, sep: string): (r: string)
    ensures |parts| == 1 ==> r == parts[0]
    ensures r == "" ==> forall i :: 0 <= i < |parts| ==> parts[i] == ""
  {
    if |parts| == 0 then ""
    else if |parts| == 1 then parts[0]
    else parts[0] + sep + Join(parts[1..], sep)
  }
}
