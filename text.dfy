/**
 * The handful of Python string operations the reasoning loop relies on:
 * `str.isspace`, the regex classes `\s` and `\w`, `str.strip`, `str.lower`,
 * the substring test `in` and `str.split(sep, 1)`.
 */
module Text {
  import opened Wrappers

  /** `str.isspace()` (and the regex class `\s` on `str` patterns): the 29
      code points Python treats as whitespace. */
  predicate IsSpace(c: char) {
    || ('\t' <= c <= '\r')
    || ('\U{1C}' <= c <= '\U{1F}')
    || c == ' '
    || c == '\U{85}'
    || c == '\U{A0}'
    || c == '\U{1680}'
    || ('\U{2000}' <= c <= '\U{200A}')
    || c == '\U{2028}'
    || c == '\U{2029}'
    || c == '\U{202F}'
    || c == '\U{205F}'
    || c == '\U{3000}'
  }

  /** The regex class `\w`, restricted to ASCII letters, digits and `_`. */
  predicate IsWordChar(c: char) {
    ('a' <= c <= 'z') || ('A' <= c <= 'Z') || ('0' <= c <= '9') || c == '_'
  }

  /** The regex `.` without DOTALL: anything but a line feed. */
  predicate IsLineChar(c: char) {
    c != '\n'
  }

  /** `str.lower()` on one character, ASCII letters only. */
  function ToLower(c: char): (d: char)
    ensures IsWordChar(c) <==> IsWordChar(d)
    ensures !('A' <= d <= 'Z')
  {
    if 'A' <= c <= 'Z' then (c as int + 32) as char else c
  }

  function Lower(s: string): (r: string)
    ensures |r| == |s|
  {
    seq(|s|, i requires 0 <= i < |s| => ToLower(s[i]))
  }

  /** Lower-casing a string without capital letters changes nothing. */
  lemma LowerIdentity(s: string)
    requires forall i :: 0 <= i < |s| ==> !('A' <= s[i] <= 'Z')
    ensures Lower(s) == s
  {
  }

  ghost predicate AllSat(s: string, lo: nat, hi: nat, p: char -> bool)
    requires lo <= hi <= |s|
  {
    forall m :: lo <= m < hi ==> p(s[m])
  }

  /** The end of the longest run of characters satisfying `p` that starts at
      `from`: a greedy `p*` in a regex. */
  function SkipWhile(s: string, from: nat, p: char -> bool): (k: nat)
    requires from <= |s|
    ensures from <= k <= |s|
    ensures AllSat(s, from, k, p)
    ensures k < |s| ==> !p(s[k])
    decreases |s| - from
  {
    if from < |s| && p(s[from]) then SkipWhile(s, from + 1, p) else from
  }

  /** The run `SkipWhile` finds is the only one that ends at a character
      failing `p`. */
  lemma {:induction false} SkipWhileUnique(s: string, from: nat, k: nat, p: char -> bool)
    requires from <= k <= |s|
    requires AllSat(s, from, k, p) && (k < |s| ==> !p(s[k]))
    ensures SkipWhile(s, from, p) == k
    decreases k - from
  {
    if from < k {
      SkipWhileUnique(s, from + 1, k, p);
    }
  }

  /** The start of the longest run of whitespace that ends at `hi` and does
      not reach below `lo`. */
  function TrimEnd(s: string, lo: nat, hi: nat): (k: nat)
    requires lo <= hi <= |s|
    ensures lo <= k <= hi
    ensures AllSat(s, k, hi, IsSpace)
    ensures lo < k ==> !IsSpace(s[k - 1])
    decreases hi
  {
    if lo < hi && IsSpace(s[hi - 1]) then TrimEnd(s, lo, hi - 1) else hi
  }

  ghost predicate IsBlank(s: string) {
    forall m :: 0 <= m < |s| ==> IsSpace(s[m])
  }

  /** The slice `s[lo..hi]` that `str.strip()` keeps. */
  function StripBounds(s: string): (b: (nat, nat))
    ensures b.0 <= b.1 <= |s|
    ensures AllSat(s, 0, b.0, IsSpace) && AllSat(s, b.1, |s|, IsSpace)
    ensures b.0 < b.1 ==> !IsSpace(s[b.0]) && !IsSpace(s[b.1 - 1])
    ensures b.0 == b.1 ==> b.0 == |s|
  {
    var lo := SkipWhile(s, 0, IsSpace);
    (lo, TrimEnd(s, lo, |s|))
  }

  /** `str.strip()`: drop leading and trailing whitespace. */
  function Strip(s: string): (r: string)
    ensures |r| <= |s|
    ensures r == [] <==> IsBlank(s)
    ensures r != [] ==> !IsSpace(r[0]) && !IsSpace(r[|r| - 1])
  {
    var b := StripBounds(s);
    s[b.0..b.1]
  }

  /** Stripping a string that has no whitespace at either end changes nothing. */
  lemma StripUnpadded(s: string)
    requires s != [] ==> !IsSpace(s[0]) && !IsSpace(s[|s| - 1])
    ensures Strip(s) == s
  {
    var b := StripBounds(s);
    if s != [] {
      assert !IsSpace(s[0]) && !IsSpace(s[|s| - 1]);
    }
  }

  /** `str.strip()` keeps exactly the slice between the leading and the
      trailing whitespace runs. */
  lemma StripExact(s: string, lo: nat, hi: nat)
    requires lo < hi <= |s|
    requires AllSat(s, 0, lo, IsSpace) && AllSat(s, hi, |s|, IsSpace)
    requires !IsSpace(s[lo]) && !IsSpace(s[hi - 1])
    ensures Strip(s) == s[lo..hi]
  {
    var b := StripBounds(s);
  }

  predicate OccursAt(s: string, pat: string, p: nat) {
    p + |pat| <= |s| && s[p..p + |pat|] == pat
  }

  /** Python's `pat in s`. */
  ghost predicate Contains(s: string, pat: string) {
    exists p: nat :: OccursAt(s, pat, p)
  }

  ghost predicate FirstOccurrence(s: string, pat: string, p: nat) {
    OccursAt(s, pat, p) && forall q: nat :: q < p ==> !OccursAt(s, pat, q)
  }

  /** The leftmost occurrence of `pat` in `s` at or after `from`
      (`str.find(pat, from)`, with None for -1). */
  function FindFrom(s: string, pat: string, from: nat): (r: Option<nat>)
    requires from <= |s|
    ensures r.Some? ==> from <= r.value && OccursAt(s, pat, r.value)
    ensures r.Some? ==> forall q: nat :: from <= q < r.value ==> !OccursAt(s, pat, q)
    ensures r.None? ==> forall q: nat :: from <= q ==> !OccursAt(s, pat, q)
    decreases |s| - from
  {
    if |s| < from + |pat| then None
    else if s[from..from + |pat|] == pat then Some(from)
    else FindFrom(s, pat, from + 1)
  }

  /** `s.find(pat)`: the first occurrence, and None exactly when `pat in s` is false. */
  function Find(s: string, pat: string): (r: Option<nat>)
    ensures r.None? <==> !Contains(s, pat)
    ensures r.Some? ==> FirstOccurrence(s, pat, r.value)
  {
    FindFrom(s, pat, 0)
  }

  /** A string that contains `pat` contains each of its characters; so a
      string lacking one of them does not contain `pat`. */
  lemma ContainsHasChar(s: string, pat: string, j: nat)
    requires j < |pat|
    ensures Contains(s, pat) ==> pat[j] in s
  {
    if Contains(s, pat) {
      var p: nat :| OccursAt(s, pat, p);
      assert s[p + j] == pat[j];
    }
  }

  /** Two first occurrences are the same occurrence. */
  lemma FirstOccurrenceUnique(s: string, pat: string, p: nat, q: nat)
    requires FirstOccurrence(s, pat, p) && FirstOccurrence(s, pat, q)
    ensures p == q
  {
  }
}
