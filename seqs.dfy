/** Sequence helpers shared by every page of the dashboard: optional values,
    the order-preserving `Array.prototype.filter`, sums of `reduce`, and the
    `Math.max(0, ...ids) + 1` id allocation that every create handler uses. */
module Seqs {

  datatype Option<T> = None | Some(value: T)

  /** `a` lists some of the elements of `b`, in the order `b` has them
      (greedy matching from the end, which decides subsequence). */
  predicate IsSubsequence<T(==)>(a: seq<T>, b: seq<T>)
    decreases |b|
  {
    if a == [] then true
    else if b == [] then false
    else if a[|a| - 1] == b[|b| - 1] then IsSubsequence(a[..|a| - 1], b[..|b| - 1])
    else IsSubsequence(a, b[..|b| - 1])
  }

  lemma {:induction false} SubsequenceDropLast<T>(a: seq<T>, b: seq<T>)
    requires a != [] && IsSubsequence(a, b)
    ensures IsSubsequence(a[..|a| - 1], b)
    decreases |b|, 0
  {
    var a' := a[..|a| - 1];
    if a' != [] && b != [] {
      var b' := b[..|b| - 1];
      if a[|a| - 1] == b[|b| - 1] {
        // IsSubsequence(a', b') holds; extending b keeps it
        SubsequenceExtend(a', b', b[|b| - 1]);
        assert b' + [b[|b| - 1]] == b;
      } else {
        SubsequenceDropLast(a, b');
        SubsequenceExtend(a', b', b[|b| - 1]);
        assert b' + [b[|b| - 1]] == b;
      }
    }
  }

  lemma {:induction false} SubsequenceExtend<T>(a: seq<T>, b: seq<T>, x: T)
    requires IsSubsequence(a, b)
    ensures IsSubsequence(a, b + [x])
    decreases |b|, 1
  {
    var b2 := b + [x];
    assert b2[..|b2| - 1] == b;
    if a != [] && a[|a| - 1] == x {
      SubsequenceDropLast(a, b);
    }
  }

  lemma {:induction false} SubsequenceReflexive<T>(s: seq<T>)
    ensures IsSubsequence(s, s)
    decreases |s|
  {
    if s != [] {
      SubsequenceReflexive(s[..|s| - 1]);
    }
  }

  /** Every element of a subsequence is an element of the whole. */
  lemma {:induction false} SubsequenceElements<T>(a: seq<T>, b: seq<T>)
    requires IsSubsequence(a, b)
    ensures forall i :: 0 <= i < |a| ==> a[i] in b
    decreases |b|
  {
    if a != [] {
      var b' := b[..|b| - 1];
      if a[|a| - 1] == b[|b| - 1] {
        SubsequenceElements(a[..|a| - 1], b');
        forall i | 0 <= i < |a| ensures a[i] in b {
          if i < |a| - 1 { assert a[i] == a[..|a| - 1][i]; assert a[i] in b'; }
        }
      } else {
        SubsequenceElements(a, b');
      }
    }
  }

  /** `s` lists `f(0), f(1), ..., f(|s| - 1)`, built up one push at a time. */
  predicate Tabulates<T(==)>(s: seq<T>, f: nat -> T)
    decreases |s|
  {
    s == [] || (Tabulates(s[..|s| - 1], f) && s[|s| - 1] == f(|s| - 1))
  }

  lemma {:induction false} TabulatesAt<T>(s: seq<T>, f: nat -> T)
    requires Tabulates(s, f)
    ensures forall i :: 0 <= i < |s| ==> s[i] == f(i)
    decreases |s|
  {
    if s != [] {
      var init := s[..|s| - 1];
      TabulatesAt(init, f);
      forall i | 0 <= i < |s| ensures s[i] == f(i) {
        if i < |init| { assert s[i] == init[i]; }
      }
    }
  }

  lemma TabulatesPush<T>(s: seq<T>, f: nat -> T, x: T)
    requires Tabulates(s, f) && x == f(|s|)
    ensures Tabulates(s + [x], f)
  {
    assert (s + [x])[..|s|] == s;
  }

  /** JavaScript's `s.filter(p)`: the elements satisfying `p`, in order. */
  function Filter<T>(p: T -> bool, s: seq<T>): (r: seq<T>)
    ensures |r| <= |s|
    ensures forall i :: 0 <= i < |r| ==> r[i] in s && p(r[i])
    ensures forall i :: 0 <= i < |s| && p(s[i]) ==> s[i] in r
    decreases |s|
  {
    if s == [] then []
    else
      var init := Filter(p, s[..|s| - 1]);
      assert s == s[..|s| - 1] + [s[|s| - 1]];
      if p(s[|s| - 1]) then init + [s[|s| - 1]] else init
  }

  /** A filter keeps the input order: its result is a subsequence of the input. */
  lemma {:induction false} FilterIsSubsequence<T>(p: T -> bool, s: seq<T>)
    ensures IsSubsequence(Filter(p, s), s)
    decreases |s|
  {
    if s != [] {
      var s' := s[..|s| - 1];
      var last := s[|s| - 1];
      FilterIsSubsequence(p, s');
      assert s' + [last] == s;
      var init := Filter(p, s');
      if p(last) {
        var r := init + [last];
        assert r[..|r| - 1] == init;
      } else {
        SubsequenceExtend(init, s', last);
      }
    }
  }

  /** Every element of a filter's result satisfies its predicate. */
  lemma InFilterSatisfies<T>(p: T -> bool, s: seq<T>, x: T)
    requires x in Filter(p, s)
    ensures p(x) && x in s
  {
    var r := Filter(p, s);
    var i :| 0 <= i < |r| && r[i] == x;
  }

  /** A filter whose predicate holds everywhere returns its input unchanged. */
  lemma {:induction false} FilterAll<T>(p: T -> bool, s: seq<T>)
    requires forall i :: 0 <= i < |s| ==> p(s[i])
    ensures Filter(p, s) == s
    decreases |s|
  {
    if s != [] {
      FilterAll(p, s[..|s| - 1]);
      assert s[..|s| - 1] + [s[|s| - 1]] == s;
    }
  }

  /** Filtering a filtered list is filtering by the conjunction. */
  lemma {:induction false} FilterFilter<T>(p: T -> bool, q: T -> bool, pq: T -> bool, s: seq<T>)
    requires forall x :: pq(x) == (p(x) && q(x))
    ensures Filter(q, Filter(p, s)) == Filter(pq, s)
    decreases |s|
  {
    if s != [] {
      var s' := s[..|s| - 1];
      FilterFilter(p, q, pq, s');
      var fp := Filter(p, s');
      var last := s[|s| - 1];
      if p(last) {
        var r := fp + [last];
        assert r[..|r| - 1] == fp;
      }
    }
  }

  /** The number of elements satisfying `p`: `s.filter(p).length`. */
  function Count<T>(p: T -> bool, s: seq<T>): nat
  {
    |Filter(p, s)|
  }

  /** `s.reduce((sum, x) => sum + f(x), 0)`. */
  function SumOf<T>(f: T -> int, s: seq<T>): int
    decreases |s|
  {
    if s == [] then 0 else SumOf(f, s[..|s| - 1]) + f(s[|s| - 1])
  }

  /** `f` where `p` holds and 0 elsewhere. */
  function Masked<T>(f: T -> int, p: T -> bool): T -> int
  {
    (x: T) => if p(x) then f(x) else 0
  }

  /** The sum over a filtered list only counts the kept elements. */
  lemma {:induction false} SumOfFilter<T>(f: T -> int, p: T -> bool, s: seq<T>)
    ensures SumOf(f, Filter(p, s)) == SumOf(Masked(f, p), s)
    decreases |s|
  {
    if s != [] {
      var s' := s[..|s| - 1];
      SumOfFilter(f, p, s');
      var init := Filter(p, s');
      if p(s[|s| - 1]) {
        var r := init + [s[|s| - 1]];
        assert r[..|r| - 1] == init;
      }
    }
  }

  /** `Math.max(0, ...ids)`. */
  function MaxOrZero(ids: seq<int>): (m: int)
    ensures m >= 0
    ensures forall i :: 0 <= i < |ids| ==> ids[i] <= m
    ensures m == 0 || m in ids
    decreases |ids|
  {
    if ids == [] then 0
    else
      var rest := MaxOrZero(ids[..|ids| - 1]);
      assert ids == ids[..|ids| - 1] + [ids[|ids| - 1]];
      if ids[|ids| - 1] > rest then ids[|ids| - 1] else rest
  }

  /** `Math.max(0, ...ids) + 1`: an id larger than every id in use, and one
      more than the largest of them (or 1 for an empty or non-positive list). */
  function NextId(ids: seq<int>): (r: int)
    ensures r >= 1
    ensures forall i :: 0 <= i < |ids| ==> ids[i] < r
    ensures r == 1 || r - 1 in ids
  {
    MaxOrZero(ids) + 1
  }
}
