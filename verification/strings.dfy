/**
 * The JavaScript string routines the components rely on, stated over `seq<char>`:
 * the `\s` character class (which is also the set `String.prototype.trim` strips),
 * `trim`, `toLowerCase` (ASCII letters only), `includes`, and `localeCompare`
 * (taken here as code-unit lexicographic order).
 */
module Strings {

  /** Membership in JavaScript's `\s` class: WhiteSpace and LineTerminator characters. */
  predicate IsSpace(c: char) {
    || c == '\t' || c == '\n' || c == '\U{000B}' || c == '\U{000C}' || c == '\r' || c == ' '
    || c == '\U{00A0}' || c == '\U{1680}' || ('\U{2000}' <= c <= '\U{200A}')
    || c == '\U{2028}' || c == '\U{2029}' || c == '\U{202F}' || c == '\U{205F}'
    || c == '\U{3000}' || c == '\U{FEFF}'
  }

  /** Every character is white space (so `s.trim()` is the empty, falsy string). */
  predicate IsBlank(s: string) {
    forall i :: 0 <= i < |s| ==> IsSpace(s[i])
  }

  /** Blank strings concatenate to a blank string. */
  lemma BlankConcat(a: string, b: string)
    requires IsBlank(a) && IsBlank(b)
    ensures IsBlank(a + b)
  {
    forall i | 0 <= i < |a + b| ensures IsSpace((a + b)[i]) {
      if i >= |a| { assert (a + b)[i] == b[i - |a|]; }
    }
  }

  /** The number of white-space characters at the front of `s`. */
  function LeadingSpaces(s: string): (n: nat)
    ensures n <= |s| && IsBlank(s[..n])
    ensures n < |s| ==> !IsSpace(s[n])
  {
    if s != [] && IsSpace(s[0]) then
      var m := LeadingSpaces(s[1..]);
      assert s[..m + 1] == [s[0]] + s[1..][..m];
      BlankConcat([s[0]], s[1..][..m]);
      m + 1
    else
      0
  }

  /** The length of `s` once its trailing white space is cut off. */
  function KeptLength(s: string): (n: nat)
    ensures n <= |s| && IsBlank(s[n..])
    ensures n > 0 ==> !IsSpace(s[n - 1])
  {
    if s != [] && IsSpace(s[|s| - 1]) then
      var p := s[..|s| - 1];
      var m := KeptLength(p);
      assert s[m..] == p[m..] + [s[|s| - 1]];
      BlankConcat(p[m..], [s[|s| - 1]]);
      m
    else
      |s|
  }

  /** `r` sits at index `a` of `s`, with only white space before and after it. */
  ghost predicate TrimmedAt(s: string, r: string, a: int) {
    0 <= a <= |s| - |r| && r == s[a..a + |r|] && IsBlank(s[..a]) && IsBlank(s[a + |r|..])
  }

  /**
   * `s.trim()`: the longest infix of `s` that neither starts nor ends with white space,
   * everything cut away on either side being white space.
   */
  function Trim(s: string): (r: string)
    ensures r == [] <==> IsBlank(s)
    ensures |r| <= |s|
    ensures r != [] ==> !IsSpace(r[0]) && !IsSpace(r[|r| - 1])
    ensures exists a :: TrimmedAt(s, r, a)
  {
    var a := LeadingSpaces(s);
    var k := KeptLength(s[a..]);
    TrimmedInfix(s, a, k);
    s[a..][..k]
  }

  /** The infix left between the leading and the trailing white space of `s`. */
  lemma TrimmedInfix(s: string, a: nat, k: nat)
    requires a <= |s| && IsBlank(s[..a]) && (a < |s| ==> !IsSpace(s[a]))
    requires k <= |s| - a && IsBlank(s[a..][k..]) && (k > 0 ==> !IsSpace(s[a..][k - 1]))
    ensures var r := s[a..][..k];
      && TrimmedAt(s, r, a)
      && (r == [] <==> IsBlank(s))
      && (r != [] ==> !IsSpace(r[0]) && !IsSpace(r[|r| - 1]))
  {
    var t := s[a..];
    var r := t[..k];
    assert r == s[a..a + k] && s[a + k..] == t[k..];
    if r == [] {
      assert s == s[..a] + t[k..];
      BlankConcat(s[..a], t[k..]);
    } else {
      assert r[0] == s[a] && r[k - 1] == t[k - 1];
    }
  }

  /** An ASCII upper-case letter mapped to lower case; every other character unchanged. */
  function LowerChar(c: char): char {
    if 'A' <= c <= 'Z' then (c as int + 32) as char else c
  }

  /** `s.toLowerCase()`, character by character. */
  function Lower(s: string): (r: string)
    ensures |r| == |s|
    ensures forall i :: 0 <= i < |s| ==> r[i] == LowerChar(s[i])
  {
    if s == [] then [] else [LowerChar(s[0])] + Lower(s[1..])
  }

  /** `q` occurs in `s` starting at index `i`. */
  predicate OccursAt(s: string, q: string, i: int) {
    0 <= i <= |s| - |q| && s[i..i + |q|] == q
  }

  /** `s.includes(q)`: `q` occurs in `s` at some position. */
  predicate Contains(s: string, q: string) {
    exists i :: 0 <= i <= |s| && OccursAt(s, q, i)
  }

  /** The strict code-unit lexicographic order that stands for `localeCompare` < 0. */
  predicate LexLess(a: string, b: string) {
    if a == [] then b != []
    else if b == [] then false
    else a[0] < b[0] || (a[0] == b[0] && LexLess(a[1..], b[1..]))
  }

  /** `a.localeCompare(b)`: negative, zero or positive. */
  function LocaleCompare(a: string, b: string): (r: int)
    ensures r < 0 <==> LexLess(a, b)
    ensures r == 0 <==> a == b
  {
    LexLessTrichotomy(a, b);
    if LexLess(a, b) then -1 else if LexLess(b, a) then 1 else 0
  }

  lemma {:induction false} LexLessIrreflexive(a: string)
    ensures !LexLess(a, a)
  {
    if a != [] { LexLessIrreflexive(a[1..]); }
  }

  lemma {:induction false} LexLessTransitive(a: string, b: string, c: string)
    requires LexLess(a, b) && LexLess(b, c)
    ensures LexLess(a, c)
  {
    if a != [] && b != [] && c != [] && a[0] == b[0] && b[0] == c[0] {
      LexLessTransitive(a[1..], b[1..], c[1..]);
    }
  }

  /** Exactly one of `a < b`, `a == b`, `b < a` holds. */
  lemma {:induction false} LexLessTrichotomy(a: string, b: string)
    ensures a == b <==> !LexLess(a, b) && !LexLess(b, a)
    ensures !(LexLess(a, b) && LexLess(b, a))
  {
    if a != [] && b != [] {
      LexLessTrichotomy(a[1..], b[1..]);
      if a[0] == b[0] && a[1..] == b[1..] {
        assert a == [a[0]] + a[1..] && b == [b[0]] + b[1..];
      }
    }
  }
}
