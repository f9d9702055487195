/**
 * The e-mail format test `/\S+@\S+\.\S+/.test(s)` shared by the sign-up form, the
 * login form and the member invitation. The pattern is not anchored, so it holds as soon
 * as some infix of `s` matches it.
 */
module EmailFormat {
  import opened Strings

  /** Positions `i` (the `@`) and `j` (the `.`) carry a match of `\S+@\S+\.\S+`. */
  ghost predicate MatchAt(s: string, i: int, j: int) {
    && 1 <= i && i + 2 <= j && j + 1 < |s|
    && s[i] == '@' && s[j] == '.'
    && !IsSpace(s[i - 1]) && !IsSpace(s[j + 1])
    && forall k :: i < k < j ==> !IsSpace(s[k])
  }

  /** What the regular expression accepts, stated directly. */
  ghost predicate EmailSpec(s: string) {
    exists i, j :: MatchAt(s, i, j)
  }

  /**
   * A `.` at `j >= from`, followed by a non-space, with no space in `s[k..j]`.
   */
  ghost predicate DotFrom(s: string, k: int, from: int, j: int) {
    && 0 <= k <= j && from <= j && j + 1 < |s|
    && s[j] == '.' && !IsSpace(s[j + 1])
    && forall m :: k <= m < j ==> !IsSpace(s[m])
  }

  /** Scans the run of non-space characters starting at `k` for a usable `.`. */
  function DotAhead(s: string, k: nat, from: int): bool
    decreases |s| - k
  {
    if k >= |s| || IsSpace(s[k]) then false
    else (k >= from && s[k] == '.' && k + 1 < |s| && !IsSpace(s[k + 1])) || DotAhead(s, k + 1, from)
  }

  /** Scans for an `@` at index `i` or later that starts a match. */
  function MatchFrom(s: string, i: nat): bool
    decreases |s| - i
  {
    if i >= |s| then false
    else (1 <= i && s[i] == '@' && !IsSpace(s[i - 1]) && DotAhead(s, i + 1, i + 2)) || MatchFrom(s, i + 1)
  }

  lemma {:induction false} DotAheadCorrect(s: string, k: nat, from: int)
    ensures DotAhead(s, k, from) <==> exists j :: DotFrom(s, k, from, j)
    decreases |s| - k
  {
    if k < |s| && !IsSpace(s[k]) {
      var next := k + 1;
      DotAheadCorrect(s, next, from);
      if k >= from && s[k] == '.' && k + 1 < |s| && !IsSpace(s[k + 1]) {
        assert DotFrom(s, k, from, k);
      } else if DotAhead(s, next, from) {
        var j :| DotFrom(s, next, from, j);
        assert DotFrom(s, k, from, j);
      }
      if exists j :: DotFrom(s, k, from, j) {
        var j :| DotFrom(s, k, from, j);
        if j == k {
          assert k >= from && s[k] == '.' && k + 1 < |s| && !IsSpace(s[k + 1]);
        } else {
          assert DotFrom(s, next, from, j);
        }
      }
    } else {
      forall j ensures !DotFrom(s, k, from, j) {
        if k < j && j + 1 < |s| { assert IsSpace(s[k]); }
      }
    }
  }

  lemma {:induction false} MatchFromCorrect(s: string, i: nat)
    ensures MatchFrom(s, i) <==> exists a, j :: i <= a && MatchAt(s, a, j)
    decreases |s| - i
  {
    if i < |s| {
      var next := i + 1;
      var from := i + 2;
      MatchFromCorrect(s, next);
      DotAheadCorrect(s, next, from);
      if 1 <= i && s[i] == '@' && !IsSpace(s[i - 1]) && DotAhead(s, next, from) {
        var j :| DotFrom(s, next, from, j);
        assert MatchAt(s, i, j);
      }
      if exists a, j :: i <= a && MatchAt(s, a, j) {
        var a, j :| i <= a && MatchAt(s, a, j);
        if a == i {
          assert DotFrom(s, next, from, j);
        } else {
          assert next <= a;
        }
      }
    }
  }

  /** `/\S+@\S+\.\S+/.test(s)`. */
  function IsEmail(s: string): (b: bool)
    ensures b <==> EmailSpec(s)
  {
    MatchFromCorrect(s, 0);
    MatchFrom(s, 0)
  }

  /** A blank string never matches, since `@` and `.` are not white space. */
  lemma BlankIsNotEmail(s: string)
    requires IsBlank(s)
    ensures !IsEmail(s)
  {
    forall i, j ensures !MatchAt(s, i, j) {
      if 0 <= i < |s| { assert IsSpace(s[i]); }
    }
  }

  /** A matching string has at least five characters (`x@y.z`). */
  lemma {:induction false} EmailLength(s: string)
    requires IsEmail(s)
    ensures |s| >= 5
  {
    var i, j :| MatchAt(s, i, j);
  }

  /** The pattern is unanchored: spaces around, or text after, a match do not stop it. */
  lemma PaddedEmailMatches()
    ensures IsEmail(" a@b.co ")
    ensures IsEmail("a@b.c d")
    ensures !IsEmail("a@b.")
    ensures !IsEmail("a @b.c")
    ensures !IsEmail("a@.c")
  {
    assert MatchAt(" a@b.co ", 2, 4);
    assert MatchAt("a@b.c d", 1, 3);
    forall i, j ensures !MatchAt("a@b.", i, j) {}
    forall i, j ensures !MatchAt("a @b.c", i, j) {}
    forall i, j ensures !MatchAt("a@.c", i, j) {}
  }
}
