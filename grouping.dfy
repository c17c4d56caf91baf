/** Group-by over a list, as the pages build it with
    `list.reduce((acc, x) => { if (!acc[k]) acc[k] = …; … }, {})`: the keys
    of the accumulator object in the order they were first met (the order
    `Object.entries` lists them in), and per key the records carrying it. */
module Grouping {
  import opened Seqs

  function HasKey<T, K(==)>(key: T -> K, k: K): T -> bool
  {
    (x: T) => key(x) == k
  }

  /** The distinct keys of a list, in order of first occurrence. */
  function KeysInOrder<T, K(==)>(s: seq<T>, key: T -> K): (ks: seq<K>)
    ensures forall i, j :: 0 <= i < j < |ks| ==> ks[i] != ks[j]
    decreases |s|
  {
    if s == [] then []
    else
      var ks := KeysInOrder(s[..|s| - 1], key);
      var k := key(s[|s| - 1]);
      if k in ks then ks else ks + [k]
  }

  /** A key is listed exactly when some record carries it. */
  lemma {:induction false} KeysInOrderSpec<T, K>(s: seq<T>, key: T -> K, k: K)
    ensures k in KeysInOrder(s, key) <==> exists i :: 0 <= i < |s| && key(s[i]) == k
    decreases |s|
  {
    if s != [] {
      var s' := s[..|s| - 1];
      KeysInOrderSpec(s', key, k);
      if exists i :: 0 <= i < |s'| && key(s'[i]) == k {
        var i :| 0 <= i < |s'| && key(s'[i]) == k;
        assert s[i] == s'[i];
      }
      if exists i :: 0 <= i < |s| && key(s[i]) == k {
        var i :| 0 <= i < |s| && key(s[i]) == k;
        if i < |s'| { assert s'[i] == s[i]; }
      }
    }
  }

  /** Keys are listed in order of first occurrence: a record carrying a later
      key is preceded by a record carrying each earlier key. */
  lemma {:induction false} KeysInFirstOccurrenceOrder<T, K>(s: seq<T>, key: T -> K, a: int, b: int, p: int)
    requires var ks := KeysInOrder(s, key); 0 <= a < b < |ks| && 0 <= p < |s| && key(s[p]) == ks[b]
    ensures exists q :: 0 <= q < p && key(s[q]) == KeysInOrder(s, key)[a]
    decreases |s|
  {
    var s' := s[..|s| - 1];
    var ks' := KeysInOrder(s', key);
    var ks := KeysInOrder(s, key);
    var x := s[|s| - 1];
    if p < |s'| && b < |ks'| {
      assert s'[p] == s[p] && ks[a] == ks'[a] && ks[b] == ks'[b];
      KeysInFirstOccurrenceOrder(s', key, a, b, p);
      var q :| 0 <= q < p && key(s'[q]) == ks'[a];
      assert s[q] == s'[q];
    } else {
      // Either p is the last record or ks[b] is the key it introduced: then
      // ks[a] already occurs among the records before p.
      assert ks[a] == ks'[a];
      KeysInOrderSpec(s', key, ks'[a]);
      var q :| 0 <= q < |s'| && key(s'[q]) == ks'[a];
      assert s[q] == s'[q];
      if q >= p {
        assert p < |s'| && b == |ks'| && ks[b] == key(x);
        assert s'[p] == s[p];
        KeysInOrderSpec(s', key, key(x));
        assert false;
      }
    }
  }

  /** The records carrying key `k`, in list order: one group. */
  function Group<T, K(==)>(s: seq<T>, key: T -> K, k: K): seq<T>
  {
    Filter(HasKey(key, k), s)
  }

  /** Appending a record extends its own group only. */
  lemma GroupSnoc<T, K>(s: seq<T>, key: T -> K, x: T, k: K)
    ensures Group(s + [x], key, k) == Group(s, key, k) + (if key(x) == k then [x] else [])
  {
    assert (s + [x])[..|s|] == s;
  }

  /** A key no record carries has an empty group. */
  lemma GroupOfAbsentKey<T, K>(s: seq<T>, key: T -> K, k: K)
    requires k !in KeysInOrder(s, key)
    ensures Group(s, key, k) == []
  {
    KeysInOrderSpec(s, key, k);
  }

  /** The keys after one more record: its key joins the end unless listed. */
  lemma KeysStep<T, K>(s: seq<T>, i: int, key: T -> K)
    requires 0 <= i < |s|
    ensures KeysInOrder(s[..i + 1], key)
      == if key(s[i]) in KeysInOrder(s[..i], key) then KeysInOrder(s[..i], key) else KeysInOrder(s[..i], key) + [key(s[i])]
  {
    assert s[..i + 1][..i] == s[..i];
  }

  /** What one more step of a group-by walk over `s` changes: the key of
      `s[i]` is listed once it is met, its group gains `s[i]`, and every other
      group stays as it was. */
  lemma WalkStep<T, K>(s: seq<T>, i: int, key: T -> K, amount: T -> int)
    requires 0 <= i < |s|
    ensures KeysInOrder(s[..i + 1], key)
      == if key(s[i]) in KeysInOrder(s[..i], key) then KeysInOrder(s[..i], key) else KeysInOrder(s[..i], key) + [key(s[i])]
    ensures key(s[i]) !in KeysInOrder(s[..i], key) ==> Group(s[..i], key, key(s[i])) == []
    ensures forall u :: Group(s[..i + 1], key, u) == Group(s[..i], key, u) + (if key(s[i]) == u then [s[i]] else [])
    ensures forall u :: (GroupSum(s[..i + 1], key, amount, u)
      == GroupSum(s[..i], key, amount, u) + (if key(s[i]) == u then amount(s[i]) else 0))
  {
    assert s[..i + 1] == s[..i] + [s[i]];
    assert s[..i + 1][..i] == s[..i];
    forall u ensures Group(s[..i + 1], key, u) == Group(s[..i], key, u) + (if key(s[i]) == u then [s[i]] else []) {
      GroupSnoc(s[..i], key, s[i], u);
    }
    forall u ensures GroupSum(s[..i + 1], key, amount, u)
      == GroupSum(s[..i], key, amount, u) + (if key(s[i]) == u then amount(s[i]) else 0)
    {
      GroupSumSnoc(s[..i], key, amount, s[i], u);
    }
    if key(s[i]) !in KeysInOrder(s[..i], key) {
      GroupOfAbsentKey(s[..i], key, key(s[i]));
    }
  }

  /** `acc[k].amount`: the sum of `amount` over one group. */
  function GroupSum<T, K(==)>(s: seq<T>, key: T -> K, amount: T -> int, k: K): int
  {
    SumOf(amount, Group(s, key, k))
  }

  /** The sum of the group sums of the keys `ks`. */
  function SumOverKeys<T, K(==)>(ks: seq<K>, s: seq<T>, key: T -> K, amount: T -> int): int
    decreases |ks|
  {
    if ks == [] then 0 else SumOverKeys(ks[..|ks| - 1], s, key, amount) + GroupSum(s, key, amount, ks[|ks| - 1])
  }

  lemma GroupSumSnoc<T, K>(s: seq<T>, key: T -> K, amount: T -> int, x: T, k: K)
    ensures GroupSum(s + [x], key, amount, k) == GroupSum(s, key, amount, k) + (if key(x) == k then amount(x) else 0)
  {
    GroupSnoc(s, key, x, k);
    if key(x) == k {
      var g := Group(s, key, k) + [x];
      assert g[..|g| - 1] == Group(s, key, k);
    }
  }

  /** Over distinct keys, appending a record raises the sum of group sums by
      its amount if its key is among them, and leaves it otherwise. */
  lemma {:induction false} SumOverKeysSnoc<T, K>(ks: seq<K>, s: seq<T>, key: T -> K, amount: T -> int, x: T)
    requires forall i, j :: 0 <= i < j < |ks| ==> ks[i] != ks[j]
    ensures SumOverKeys(ks, s + [x], key, amount)
      == SumOverKeys(ks, s, key, amount) + (if key(x) in ks then amount(x) else 0)
    decreases |ks|
  {
    if ks != [] {
      var ks' := ks[..|ks| - 1];
      var last := ks[|ks| - 1];
      SumOverKeysSnoc(ks', s, key, amount, x);
      GroupSumSnoc(s, key, amount, x, last);
      assert ks == ks' + [last];
      if key(x) == last {
        assert key(x) !in ks';
      }
    }
  }

  /** The group sums add up to the sum over the whole list: every record is
      counted in exactly one group. */
  lemma {:induction false} GroupSumsPartition<T, K>(s: seq<T>, key: T -> K, amount: T -> int)
    ensures SumOverKeys(KeysInOrder(s, key), s, key, amount) == SumOf(amount, s)
    decreases |s|
  {
    if s != [] {
      var s' := s[..|s| - 1];
      var x := s[|s| - 1];
      var ks' := KeysInOrder(s', key);
      assert s == s' + [x];
      GroupSumsPartition(s', key, amount);
      SumOverKeysSnoc(ks', s', key, amount, x);
      if key(x) !in ks' {
        GroupOfAbsentKey(s', key, key(x));
        GroupSumSnoc(s', key, amount, x, key(x));
        var ks := ks' + [key(x)];
        assert ks[..|ks| - 1] == ks';
      }
    }
  }

  /** Counting is summing ones. */
  function One<T>(x: T): int { 1 }

  lemma {:induction false} SumOfOneIsLength<T>(s: seq<T>)
    ensures SumOf(One, s) == |s|
    decreases |s|
  {
    if s != [] {
      SumOfOneIsLength(s[..|s| - 1]);
    }
  }

  /** The group sizes add up to the length of the list. */
  lemma GroupSizesPartition<T, K>(s: seq<T>, key: T -> K)
    ensures SumOverKeys(KeysInOrder(s, key), s, key, One) == |s|
  {
    GroupSumsPartition(s, key, One);
    SumOfOneIsLength(s);
  }

  /** A record lies in the group of key `k` exactly when it carries `k`; so
      each record of the list lies in exactly one listed group. */
  lemma InGroupIff<T, K>(s: seq<T>, key: T -> K, k: K, x: T)
    requires x in s
    ensures x in Group(s, key, k) <==> key(x) == k
    ensures key(x) in KeysInOrder(s, key)
  {
    var i :| 0 <= i < |s| && s[i] == x;
    KeysInOrderSpec(s, key, key(x));
    if x in Group(s, key, k) {
      InFilterSatisfies(HasKey(key, k), s, x);
    }
  }
}
