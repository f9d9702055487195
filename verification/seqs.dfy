/** `Array.prototype.filter` and `map` over sequences, with what they promise. */
module Seqs {

  /** `a` is `b` with some elements dropped, the rest kept in their order. */
  ghost predicate Subsequence<T>(a: seq<T>, b: seq<T>)
    decreases |b|
  {
    a == [] || (b != [] && ((a[0] == b[0] && Subsequence(a[1..], b[1..])) || Subsequence(a, b[1..])))
  }

  /**
   * `s.filter(p)`: the elements satisfying `p`, each as often as in `s`, in the order of `s`.
   */
  function Filter<T>(p: T -> bool, s: seq<T>): (r: seq<T>)
    ensures |r| <= |s|
    ensures forall x :: x in r ==> x in s && p(x)
    ensures forall x :: x in s && p(x) ==> x in r
    ensures forall x :: x in s ==> multiset(r)[x] == if p(x) then multiset(s)[x] else 0
    ensures Subsequence(r, s)
  {
    if s == [] then []
    else
      var rest := Filter(p, s[1..]);
      assert s == [s[0]] + s[1..];
      assert multiset(s) == multiset{s[0]} + multiset(s[1..]);
      if p(s[0]) then [s[0]] + rest else rest
  }

  /** A filter that keeps everything returns its input. */
  lemma {:induction false} FilterAll<T>(p: T -> bool, s: seq<T>)
    requires forall x :: x in s ==> p(x)
    ensures Filter(p, s) == s
  {
    if s != [] { FilterAll(p, s[1..]); }
  }

  /** A filter that keeps nothing returns the empty sequence. */
  lemma FilterNone<T>(p: T -> bool, s: seq<T>)
    requires forall x :: x in s ==> !p(x)
    ensures Filter(p, s) == []
  {
    if Filter(p, s) != [] {
      assert Filter(p, s)[0] in Filter(p, s);
    }
  }

  /** Filtering is idempotent. */
  lemma FilterTwice<T>(p: T -> bool, s: seq<T>)
    ensures Filter(p, Filter(p, s)) == Filter(p, s)
  {
    FilterAll(p, Filter(p, s));
  }

  /** Every sequence is a subsequence of itself. */
  lemma {:induction false} SubsequenceReflexive<T>(s: seq<T>)
    ensures Subsequence(s, s)
  {
    if s != [] { SubsequenceReflexive(s[1..]); }
  }

  /** Filtering a sequence extended at the end filters the extension on its own. */
  lemma {:induction false} FilterAppend<T>(p: T -> bool, s: seq<T>, x: T)
    ensures Filter(p, s + [x]) == Filter(p, s) + (if p(x) then [x] else [])
  {
    if s != [] {
      assert (s + [x])[1..] == s[1..] + [x];
      FilterAppend(p, s[1..], x);
    }
  }

  /** `s.map(f)`: `f` applied to every element, in order. */
  function Map<T, U>(f: T -> U, s: seq<T>): (r: seq<U>)
    ensures |r| == |s|
    ensures forall i :: 0 <= i < |s| ==> r[i] == f(s[i])
  {
    if s == [] then [] else [f(s[0])] + Map(f, s[1..])
  }

  /** Filtering an element put in front decides that element, then filters the rest. */
  lemma FilterCons<T>(p: T -> bool, x: T, s: seq<T>)
    ensures Filter(p, [x] + s) == (if p(x) then [x] else []) + Filter(p, s)
  {
    assert ([x] + s)[1..] == s;
  }

  /** Filtering distributes over concatenation. */
  lemma {:induction false} FilterConcat<T>(p: T -> bool, a: seq<T>, b: seq<T>)
    ensures Filter(p, a + b) == Filter(p, a) + Filter(p, b)
  {
    if a == [] {
      assert a + b == b;
    } else {
      var x, rest := a[0], a[1..];
      var head := if p(x) then [x] else [];
      assert a == [x] + rest;
      calc {
        Filter(p, a + b);
        { assert a + b == [x] + (rest + b); }
        Filter(p, [x] + (rest + b));
        { FilterCons(p, x, rest + b); }
        head + Filter(p, rest + b);
        { FilterConcat(p, rest, b); }
        head + (Filter(p, rest) + Filter(p, b));
        (head + Filter(p, rest)) + Filter(p, b);
        { FilterCons(p, x, rest); }
        Filter(p, a) + Filter(p, b);
      }
    }
  }

  /** A filter that rejects exactly the element at index `k` returns the rest, in order. */
  lemma FilterSkipsOne<T>(p: T -> bool, s: seq<T>, k: nat)
    requires k < |s| && !p(s[k])
    requires forall i :: 0 <= i < |s| && i != k ==> p(s[i])
    ensures Filter(p, s) == s[..k] + s[k + 1..]
  {
    var front, back := s[..k], s[k + 1..];
    assert s == front + ([s[k]] + back);
    forall x | x in front ensures p(x) {
      var i :| 0 <= i < |front| && front[i] == x;
    }
    forall x | x in back ensures p(x) {
      var i :| 0 <= i < |back| && back[i] == x;
      assert back[i] == s[k + 1 + i];
    }
    calc {
      Filter(p, s);
      Filter(p, front + ([s[k]] + back));
      { FilterConcat(p, front, [s[k]] + back); }
      Filter(p, front) + Filter(p, [s[k]] + back);
      { FilterAll(p, front); FilterCons(p, s[k], back); }
      front + Filter(p, back);
      { FilterAll(p, back); }
      front + back;
    }
  }
}
