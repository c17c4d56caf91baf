/** The list operations every record page shares: a list keyed by a numeric
    id, updated by mapping over it (`prev.map(x => x.id === id ? f(x) : x)`),
    shrunk by filtering an id out, and grown by appending a record whose id is
    `Math.max(0, ...ids) + 1`. */
module Records {
  import opened Seqs

  /** The ids of a list, in order: `list.map(x => x.id)`. */
  function Keys<T>(s: seq<T>, key: T -> int): (ks: seq<int>)
    ensures |ks| == |s|
    ensures forall i :: 0 <= i < |s| ==> ks[i] == key(s[i])
  {
    seq(|s|, i requires 0 <= i < |s| => key(s[i]))
  }

  /** `s.map(x => key(x) === k ? f(x) : x)`. */
  function UpdateWhere<T>(s: seq<T>, key: T -> int, k: int, f: T -> T): (r: seq<T>)
  {
    seq(|s|, i requires 0 <= i < |s| => if key(s[i]) == k then f(s[i]) else s[i])
  }

  /** An update touches exactly the records carrying the id: they become
      `f` of themselves, every other record and the length stay as they were. */
  lemma UpdateWhereSpec<T>(s: seq<T>, key: T -> int, k: int, f: T -> T)
    ensures var r := UpdateWhere(s, key, k, f);
      |r| == |s|
      && (forall i :: 0 <= i < |s| && key(s[i]) == k ==> r[i] == f(s[i]))
      && (forall i :: 0 <= i < |s| && key(s[i]) != k ==> r[i] == s[i])
  {
  }

  /** An id that no record carries leaves the list unchanged. */
  lemma UpdateUnknownKey<T>(s: seq<T>, key: T -> int, k: int, f: T -> T)
    requires forall i :: 0 <= i < |s| ==> key(s[i]) != k
    ensures UpdateWhere(s, key, k, f) == s
  {
  }

  /** An update whose `f` keeps the id keeps every id of the list. */
  lemma UpdateKeepsKeys<T>(s: seq<T>, key: T -> int, k: int, f: T -> T)
    requires forall x :: key(f(x)) == key(x)
    ensures Keys(UpdateWhere(s, key, k, f), key) == Keys(s, key)
  {
  }

  /** Two updates of the same id where the second overwrites what the first
      wrote are one update by the later value. */
  lemma UpdateOverwrites<T>(s: seq<T>, key: T -> int, k: int, f: T -> T, g: T -> T)
    requires forall x :: key(f(x)) == key(x)
    requires forall x :: g(f(x)) == g(x)
    ensures UpdateWhere(UpdateWhere(s, key, k, f), key, k, g) == UpdateWhere(s, key, k, g)
  {
  }

  /** The test of a delete's filter: the record does not carry id `k`. */
  function KeyIsNot<T>(key: T -> int, k: int): T -> bool
  {
    (x: T) => key(x) != k
  }

  /** `s.filter(x => key(x) !== k)`. */
  function RemoveKey<T>(s: seq<T>, key: T -> int, k: int): seq<T>
  {
    Filter(KeyIsNot(key, k), s)
  }

  /** A delete removes exactly the records carrying the id: none is left,
      every other record stays, and the survivors keep their order. */
  lemma RemoveKeySpec<T>(s: seq<T>, key: T -> int, k: int)
    ensures var r := RemoveKey(s, key, k);
      (forall i :: 0 <= i < |r| ==> key(r[i]) != k && r[i] in s)
      && (forall i :: 0 <= i < |s| && key(s[i]) != k ==> s[i] in r)
      && IsSubsequence(r, s)
  {
    FilterIsSubsequence(KeyIsNot(key, k), s);
  }

  /** Deleting an id that no record carries leaves the list unchanged. */
  lemma RemoveUnknownKey<T>(s: seq<T>, key: T -> int, k: int)
    requires forall i :: 0 <= i < |s| ==> key(s[i]) != k
    ensures RemoveKey(s, key, k) == s
  {
    FilterAll(KeyIsNot(key, k), s);
  }

  /** The id a create handler gives a new record: `Math.max(0, ...ids) + 1`. */
  function FreshKey<T>(s: seq<T>, key: T -> int): int
  {
    NextId(Keys(s, key))
  }

  /** The new id is positive and carried by no record of the list, so after
      appending the new record its id picks out that record alone. */
  lemma FreshKeyIsNew<T>(s: seq<T>, key: T -> int, x: T)
    requires key(x) == FreshKey(s, key)
    ensures key(x) >= 1
    ensures forall i :: 0 <= i < |s| ==> key(s[i]) < key(x)
    ensures var r := s + [x];
      forall i :: 0 <= i < |r| && key(r[i]) == key(x) ==> i == |s|
  {
    var ks := Keys(s, key);
    assert forall i :: 0 <= i < |s| ==> ks[i] < key(x);
  }

  /** Ids stay distinct: a list of distinct ids grown by a fresh id still has distinct ids. */
  predicate DistinctKeys<T>(s: seq<T>, key: T -> int)
  {
    forall i, j :: 0 <= i < j < |s| ==> key(s[i]) != key(s[j])
  }

  lemma AppendFreshKeepsDistinct<T>(s: seq<T>, key: T -> int, x: T)
    requires DistinctKeys(s, key) && key(x) == FreshKey(s, key)
    ensures DistinctKeys(s + [x], key)
  {
    FreshKeyIsNew(s, key, x);
  }

  lemma RemoveKeepsDistinct<T>(s: seq<T>, key: T -> int, k: int)
    requires DistinctKeys(s, key)
    ensures DistinctKeys(RemoveKey(s, key, k), key)
  {
    var r := RemoveKey(s, key, k);
    RemoveKeySpec(s, key, k);
    SubsequenceDistinct(r, s, key);
  }

  lemma {:induction false} SubsequenceDistinct<T>(r: seq<T>, s: seq<T>, key: T -> int)
    requires IsSubsequence(r, s) && DistinctKeys(s, key)
    ensures DistinctKeys(r, key)
    decreases |s|
  {
    if r != [] && s != [] {
      var s' := s[..|s| - 1];
      assert DistinctKeys(s', key);
      if r[|r| - 1] == s[|s| - 1] {
        var r' := r[..|r| - 1];
        SubsequenceDistinct(r', s', key);
        SubsequenceElements(r', s');
        forall i | 0 <= i < |r'| ensures key(r'[i]) != key(r[|r| - 1]) {
          var j :| 0 <= j < |s'| && s'[j] == r'[i];
        }
      } else {
        SubsequenceDistinct(r, s', key);
      }
    }
  }

  lemma UpdateKeepsDistinct<T>(s: seq<T>, key: T -> int, k: int, f: T -> T)
    requires DistinctKeys(s, key) && forall x :: key(f(x)) == key(x)
    ensures DistinctKeys(UpdateWhere(s, key, k, f), key)
  {
  }

  /** With distinct ids, an update by id changes a sum over the list by what
      it changes in the one record carrying that id. */
  lemma {:induction false} SumOfUpdate<T>(f: T -> int, s: seq<T>, key: T -> int, k: int, g: T -> T, j: int)
    requires DistinctKeys(s, key) && 0 <= j < |s| && key(s[j]) == k
    ensures SumOf(f, UpdateWhere(s, key, k, g)) == SumOf(f, s) - f(s[j]) + f(g(s[j]))
    decreases |s|
  {
    var n := |s|;
    var init := s[..n - 1];
    var r := UpdateWhere(s, key, k, g);
    assert r[..n - 1] == UpdateWhere(init, key, k, g);
    assert DistinctKeys(init, key);
    if j == n - 1 {
      UpdateUnknownKey(init, key, k, g);
    } else {
      SumOfUpdate(f, init, key, k, g, j);
      assert init[j] == s[j];
    }
  }

  /** Two functions that agree everywhere have the same sum over any list. */
  lemma {:induction false} SumOfAgree<T>(f: T -> int, g: T -> int, s: seq<T>)
    requires forall x :: f(x) == g(x)
    ensures SumOf(f, s) == SumOf(g, s)
    decreases |s|
  {
    if s != [] {
      SumOfAgree(f, g, s[..|s| - 1]);
    }
  }
}
