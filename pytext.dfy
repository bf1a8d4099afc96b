/** The three Python string operations the sidecar relies on: `str.strip()` with no
    argument, `str.lower()` and `str.startswith(prefix)`; and stripping in general, by
    any set of whitespace characters. */
module PyText {

  /** The characters for which Python 3's `str.isspace()` holds; `str.strip()` with no
      argument removes exactly these from both ends. */
  predicate IsSpace(c: char) {
    ('\t' <= c <= '\r') || ('\U{1C}' <= c <= '\U{1F}') || c == ' ' || c == '\U{85}' ||
    c == '\U{A0}' || c == '\U{1680}' || ('\U{2000}' <= c <= '\U{200A}') ||
    c == '\U{2028}' || c == '\U{2029}' || c == '\U{202F}' || c == '\U{205F}' || c == '\U{3000}'
  }

  /** Neither end of `t` is in the set `space` (vacuous for the empty string). */
  predicate TrimmedBy(t: string, space: char -> bool) {
    t != [] ==> !space(t[0]) && !space(t[|t| - 1])
  }

  /** Neither end of `t` is whitespace in the sense of `str.isspace()`. */
  predicate Stripped(t: string) {
    TrimmedBy(t, IsSpace)
  }

  /** `t` is the slice `s[i..j]`, only characters of `space` lie outside it, and neither
      of its ends is in `space`. */
  ghost predicate StripsAt(s: string, t: string, i: int, j: int, space: char -> bool) {
    0 <= i <= j <= |s| && t == s[i..j] &&
    (forall k :: 0 <= k < i ==> space(s[k])) &&
    (forall k :: j <= k < |s| ==> space(s[k])) &&
    TrimmedBy(t, space)
  }

  /** `t` is what stripping the characters of `space` from both ends of `s` leaves. */
  ghost predicate IsStripOf(s: string, t: string, space: char -> bool) {
    exists i, j :: StripsAt(s, t, i, j, space)
  }

  /** The index of the first character of `s` at or after `i` not in `space` (or `|s|`). */
  function SkipSpace(s: string, i: nat, space: char -> bool): (r: nat)
    requires i <= |s|
    ensures i <= r <= |s|
    ensures forall k :: i <= k < r ==> space(s[k])
    ensures r < |s| ==> !space(s[r])
    decreases |s| - i
  {
    if i < |s| && space(s[i]) then SkipSpace(s, i + 1, space) else i
  }

  /** Going back from `j` no further than `lo`, the end of the last character not in
      `space` (or `lo`). */
  function SkipSpaceBack(s: string, lo: nat, j: nat, space: char -> bool): (r: nat)
    requires lo <= j <= |s|
    ensures lo <= r <= j
    ensures forall k :: r <= k < j ==> space(s[k])
    ensures r > lo ==> !space(s[r - 1])
  {
    if j > lo && space(s[j - 1]) then SkipSpaceBack(s, lo, j - 1, space) else j
  }

  /** Strip the characters of `space` from both ends: skip them from the front, then from
      the back. */
  function StripBy(s: string, space: char -> bool): (r: string)
    ensures IsStripOf(s, r, space)
  {
    var i := SkipSpace(s, 0, space);
    var j := SkipSpaceBack(s, i, |s|, space);
    assert StripsAt(s, s[i..j], i, j, space);
    s[i..j]
  }

  /** `str.strip()`. */
  function Strip(s: string): (r: string)
    ensures IsStripOf(s, r, IsSpace)
  {
    StripBy(s, IsSpace)
  }

  /** The strip of a string is unique. */
  lemma StripOfUnique(s: string, t1: string, t2: string, space: char -> bool)
    requires IsStripOf(s, t1, space) && IsStripOf(s, t2, space)
    ensures t1 == t2
  {
  }

  /** A string with neither end in `space` strips to itself. */
  lemma TrimmedIsFixed(t: string, space: char -> bool)
    requires TrimmedBy(t, space)
    ensures StripBy(t, space) == t
  {
    assert StripsAt(t, t, 0, |t|, space);
    StripOfUnique(t, StripBy(t, space), t, space);
  }

  /** A string with no whitespace at either end is its own `strip()`. */
  lemma StrippedIsFixed(t: string)
    requires Stripped(t)
    ensures Strip(t) == t
  {
    TrimmedIsFixed(t, IsSpace);
  }

  /** Stripping is idempotent. */
  lemma StripIdempotent(s: string)
    ensures Strip(Strip(s)) == Strip(s)
  {
  }

  /** Stripping leaves nothing exactly when every character is whitespace. */
  lemma StripEmptyIffAllSpace(s: string)
    ensures Strip(s) == [] <==> forall k :: 0 <= k < |s| ==> IsSpace(s[k])
  {
  }

  /** The strip of any string has no whitespace at its ends. */
  lemma StripIsStripped(s: string)
    ensures Stripped(Strip(s))
  {
  }

  predicate IsUpper(c: char) { 'A' <= c <= 'Z' }

  function LowerChar(c: char): char {
    if IsUpper(c) then (c as int + 32) as char else c
  }

  /** `str.lower()` on the ASCII letters; every other character is kept. */
  function Lower(s: string): (r: string)
    ensures |r| == |s|
    ensures forall k :: 0 <= k < |r| ==> !IsUpper(r[k])
    ensures forall k :: 0 <= k < |r| ==> r[k] == s[k] || (IsUpper(s[k]) && r[k] as int == s[k] as int + 32)
  {
    seq(|s|, k requires 0 <= k < |s| => LowerChar(s[k]))
  }

  /** Lowering never turns whitespace into non-whitespace or back, so a stripped string
      stays stripped when lowered. */
  lemma LowerKeepsStripped(s: string)
    requires Stripped(s)
    ensures Stripped(Lower(s))
  {
  }

  /** `s.startswith(p)`: `p` is no longer than `s` and agrees with it character by
      character. */
  function StartsWith(s: string, p: string): (r: bool)
    ensures r <==> |p| <= |s| && forall k :: 0 <= k < |p| ==> s[k] == p[k]
  {
    |p| <= |s| && s[..|p|] == p
  }
}
