/**
 * The string tests the pages and handlers use: ASCII lower-casing for the
 * case-insensitive searches, substring and prefix tests, the digit and e-mail
 * patterns, and `Array.prototype.join`.
 */
module Text {

  /** `toLowerCase` on one character, restricted to the ASCII letters. */
  function LowerChar(c: char): char {
    if 'A' <= c <= 'Z' then (c as int + 32) as char else c
  }

  /** `s.toLowerCase()`, ASCII letters only. */
  function ToLower(s: string): (r: string)
    ensures |r| == |s|
    ensures forall i :: 0 <= i < |s| ==> r[i] == LowerChar(s[i])
  {
    if s == [] then [] else [LowerChar(s[0])] + ToLower(s[1..])
  }

  /** `s.startsWith(prefix)`. */
  predicate StartsWith(s: string, prefix: string) {
    |prefix| <= |s| && s[..|prefix|] == prefix
  }

  /** `sub` occurs in `s` starting at position `i`. */
  predicate OccursAt(s: string, sub: string, i: int) {
    0 <= i && i + |sub| <= |s| && s[i..i + |sub|] == sub
  }

  /** `s.includes(sub)`: `sub` occurs in `s` at some position. */
  predicate Contains(s: string, sub: string) {
    exists i :: 0 <= i <= |s| && OccursAt(s, sub, i)
  }

  /** The empty string occurs in every string, so an empty search query matches everything. */
  lemma EmptyIsContained(s: string)
    ensures Contains(s, "")
  {
    assert OccursAt(s, "", 0);
  }

  /** A prefix of a string occurs in it. */
  lemma PrefixIsContained(s: string, prefix: string)
    requires StartsWith(s, prefix)
    ensures Contains(s, prefix)
  {
    assert OccursAt(s, prefix, 0);
  }

  /** `s.toLowerCase().includes(q.toLowerCase())`. */
  predicate ContainsIgnoringCase(s: string, q: string) {
    Contains(ToLower(s), ToLower(q))
  }

  lemma EmptyQueryMatches(s: string)
    ensures ContainsIgnoringCase(s, "")
  {
    EmptyIsContained(ToLower(s));
  }

  /** `\d` and `[0-9]`. */
  predicate IsDigit(c: char) {
    '0' <= c <= '9'
  }

  /** `/^\d{10}$/.test(s)`: exactly ten ASCII digits (`$` without the `m` flag anchors at the end of input). */
  predicate IsTenDigits(s: string) {
    |s| == 10 && forall i :: 0 <= i < |s| ==> IsDigit(s[i])
  }

  /** `\s` of JavaScript regular expressions: white space and line terminators. */
  predicate IsSpace(c: char) {
    c == ' ' || c == '\t' || c == '\n' || c == '\r' || c == '\U{000B}' || c == '\U{000C}' ||
    c == '\U{00A0}' || c == '\U{1680}' || ('\U{2000}' <= c <= '\U{200A}') ||
    c == '\U{2028}' || c == '\U{2029}' || c == '\U{202F}' || c == '\U{205F}' ||
    c == '\U{3000}' || c == '\U{FEFF}'
  }

  /** No white space among `s[lo..hi]`. */
  predicate NoSpaceIn(s: string, lo: int, hi: int)
    requires 0 <= lo <= hi <= |s|
  {
    forall k :: lo <= k < hi ==> !IsSpace(s[k])
  }

  /** The only `@` of `s` is the one at position `at`. */
  predicate OnlyAtSignAt(s: string, at: int) {
    forall k :: 0 <= k < |s| && k != at ==> s[k] != '@'
  }

  /**
   * `/\S+@\S+\.\S+/.test(s)`. The pattern is not anchored, so it succeeds when some
   * `@` has a non-space character just before it and is followed by a non-empty run
   * of non-space characters, a `.`, and one more non-space character.
   */
  predicate LooseEmail(s: string) {
    exists at, dot :: 0 < at && at + 1 < dot && dot + 1 < |s| &&
      s[at] == '@' && s[dot] == '.' && NoSpaceIn(s, at - 1, dot + 2)
  }

  /**
   * `/^[^\s@]+@[^\s@]+\.[^\s@]+$/.test(s)`: no white space anywhere, exactly one `@`,
   * not first, and a `.` after it that is neither right after the `@` nor last.
   */
  predicate StrictEmail(s: string) {
    NoSpaceIn(s, 0, |s|) &&
    exists at, dot :: 0 < at && at + 1 < dot && dot + 1 < |s| &&
      s[at] == '@' && s[dot] == '.' && OnlyAtSignAt(s, at)
  }

  /** What the strict pattern accepts the loose one accepts too. */
  lemma StrictEmailIsLoose(s: string)
    requires StrictEmail(s)
    ensures LooseEmail(s)
  {
    var at, dot :| 0 < at && at + 1 < dot && dot + 1 < |s| &&
      s[at] == '@' && s[dot] == '.' && OnlyAtSignAt(s, at);
    assert NoSpaceIn(s, at - 1, dot + 2);
  }

  /** A second `@` before the `.` is refused by the strict pattern and accepted by the loose one. */
  lemma StrictAndLooseDiffer()
    ensures LooseEmail("a@b@c.d") && !StrictEmail("a@b@c.d")
  {
    var s := "a@b@c.d";
    assert s[3] == '@' && s[5] == '.' && NoSpaceIn(s, 2, 7);
    forall at | 0 <= at < |s| ensures !OnlyAtSignAt(s, at) {
      if at == 1 {
        assert s[3] == '@';
      } else {
        assert s[1] == '@';
      }
    }
  }

  /** `xs.join(sep)`. */
  function Join(xs: seq<string>, sep: string): (r: string)
    ensures xs == [] ==> r == ""
    ensures |xs| == 1 ==> r == xs[0]
  {
    if xs == [] then ""
    else if |xs| == 1 then xs[0]
    else xs[0] + sep + Join(xs[1..], sep)
  }
}
