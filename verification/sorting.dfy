/**
 * The stable comparator sort every list view of the application uses.
 * JavaScript's `Array.prototype.sort` is stable, and every comparator in the
 * source has the shape `(a, b) => key(b) - key(a)` (descending by an integer key)
 * or `(a, b) => key(a) - key(b)` (ascending, which is descending on `-key`).
 * The sort is specified by three properties: the output is ordered by the key,
 * it is a permutation of the input, and items with equal keys keep their input order.
 */
module Sorting {
  import opened Seqs

  /** `s` is ordered non-increasingly by `key`. */
  predicate SortedDesc<T>(s: seq<T>, key: T -> int) {
    forall i, j :: 0 <= i < j < |s| ==> key(s[i]) >= key(s[j])
  }

  /** Inserts `x` after every element whose key is at least `x`'s key. */
  function Insert<T>(s: seq<T>, x: T, key: T -> int): (r: seq<T>)
    ensures |r| == |s| + 1
    ensures multiset(r) == multiset(s) + multiset{x}
  {
    if s == [] then [x]
    else if key(s[0]) >= key(x) then
      assert s == [s[0]] + s[1..];
      [s[0]] + Insert(s[1..], x, key)
    else [x] + s
  }

  lemma {:induction false} InsertSorted<T>(s: seq<T>, x: T, key: T -> int)
    requires SortedDesc(s, key)
    ensures SortedDesc(Insert(s, x, key), key)
  {
    if s != [] && key(s[0]) >= key(x) {
      InsertSorted(s[1..], x, key);
      var tail := Insert(s[1..], x, key);
      forall i | 0 <= i < |tail| ensures key(tail[i]) <= key(s[0]) {
        assert tail[i] in multiset(tail);
        if tail[i] != x {
          assert tail[i] in multiset(s[1..]);
          var j :| 0 <= j < |s[1..]| && s[1..][j] == tail[i];
          assert s[1 + j] == tail[i];
        }
      }
    }
  }

  /** Stable sort, descending by `key`: insertion of each element, in input order. */
  function SortDesc<T>(s: seq<T>, key: T -> int): (r: seq<T>)
    ensures SortedDesc(r, key)
    ensures multiset(r) == multiset(s)
    ensures |r| == |s|
  {
    if s == [] then []
    else
      var init, x := s[..|s| - 1], s[|s| - 1];
      assert s == init + [x];
      var sorted := SortDesc(init, key);
      InsertSorted(sorted, x, key);
      Insert(sorted, x, key)
  }

  /** Stable sort, ascending by `key`. */
  function SortAsc<T>(s: seq<T>, key: T -> int): (r: seq<T>)
    ensures forall i, j :: 0 <= i < j < |r| ==> key(r[i]) <= key(r[j])
    ensures multiset(r) == multiset(s)
  {
    var r := SortDesc(s, x => -key(x));
    assert forall i, j :: 0 <= i < j < |r| ==> -key(r[i]) >= -key(r[j]);
    r
  }

  /** Elements of `s` whose key is exactly `k`, in their order in `s`. */
  function WithKey<T>(s: seq<T>, key: T -> int, k: int): seq<T> {
    if s == [] then []
    else if key(s[|s| - 1]) == k then WithKey(s[..|s| - 1], key, k) + [s[|s| - 1]]
    else WithKey(s[..|s| - 1], key, k)
  }

  lemma {:induction false} WithKeyAppend<T>(a: seq<T>, b: seq<T>, key: T -> int, k: int)
    ensures WithKey(a + b, key, k) == WithKey(a, key, k) + WithKey(b, key, k)
  {
    if b == [] {
      assert a + b == a;
    } else {
      var b' := b[..|b| - 1];
      assert (a + b)[..|a + b| - 1] == a + b';
      WithKeyAppend(a, b', key, k);
    }
  }

  lemma {:induction false} WithKeySingle<T>(x: T, key: T -> int, k: int)
    ensures WithKey([x], key, k) == if key(x) == k then [x] else []
  {
    assert [x][..0] == [];
  }

  lemma {:induction false} NoneWithKey<T>(s: seq<T>, key: T -> int, k: int)
    requires forall i :: 0 <= i < |s| ==> key(s[i]) != k
    ensures WithKey(s, key, k) == []
  {
    if s != [] {
      NoneWithKey(s[..|s| - 1], key, k);
    }
  }

  /** Inserting `x` appends it to the run of items that share its key. */
  lemma {:induction false} InsertKeepsTies<T>(s: seq<T>, x: T, key: T -> int, k: int)
    requires SortedDesc(s, key)
    ensures WithKey(Insert(s, x, key), key, k)
         == WithKey(s, key, k) + (if key(x) == k then [x] else [])
    decreases |s|, 1
  {
    WithKeySingle(x, key, k);
    if s == [] {
      assert Insert(s, x, key) == [x];
    } else if key(s[0]) >= key(x) {
      InsertKeepsTiesBehind(s, x, key, k);
    } else {
      InsertKeepsTiesFront(s, x, key, k);
    }
  }

  lemma {:induction false} InsertKeepsTiesBehind<T>(s: seq<T>, x: T, key: T -> int, k: int)
    requires SortedDesc(s, key) && s != [] && key(s[0]) >= key(x)
    ensures WithKey(Insert(s, x, key), key, k)
         == WithKey(s, key, k) + (if key(x) == k then [x] else [])
    decreases |s|, 0
  {
    var head, rest := [s[0]], s[1..];
    assert SortedDesc(rest, key);
    assert Insert(s, x, key) == head + Insert(rest, x, key);
    InsertKeepsTies(rest, x, key, k);
    WithKeyAppend(head, Insert(rest, x, key), key, k);
    WithKeyAppend(head, rest, key, k);
    assert s == head + rest;
  }

  lemma {:induction false} InsertKeepsTiesFront<T>(s: seq<T>, x: T, key: T -> int, k: int)
    requires SortedDesc(s, key) && s != [] && key(s[0]) < key(x)
    ensures WithKey(Insert(s, x, key), key, k)
         == WithKey(s, key, k) + (if key(x) == k then [x] else [])
  {
    WithKeySingle(x, key, k);
    assert Insert(s, x, key) == [x] + s;
    WithKeyAppend([x], s, key, k);
    if key(x) == k {
      assert forall i :: 0 <= i < |s| ==> key(s[i]) <= key(s[0]);
      NoneWithKey(s, key, k);
    }
  }

  /**
   * Stability: for every key value, the items with that key appear in the
   * output in exactly the order they had in the input.
   */
  lemma {:induction false} SortDescStable<T>(s: seq<T>, key: T -> int, k: int)
    ensures WithKey(SortDesc(s, key), key, k) == WithKey(s, key, k)
  {
    if s != [] {
      var init, x := s[..|s| - 1], s[|s| - 1];
      SortDescStable(init, key, k);
      InsertKeepsTies(SortDesc(init, key), x, key, k);
    }
  }

  /** A list already ordered by the key is left exactly as it is. */
  lemma {:induction false} SortDescSorted<T>(s: seq<T>, key: T -> int)
    requires SortedDesc(s, key)
    ensures SortDesc(s, key) == s
  {
    if s != [] {
      var init, x := s[..|s| - 1], s[|s| - 1];
      assert s == init + [x];
      SortedPrefix(init, x, key);
      SortDescSorted(init, key);
      InsertLast(init, x, key);
    }
  }

  /** Dropping the last item of an ordered list leaves an ordered list whose keys all reach the last item's. */
  lemma {:induction false} SortedPrefix<T>(init: seq<T>, x: T, key: T -> int)
    requires SortedDesc(init + [x], key)
    ensures SortedDesc(init, key)
    ensures forall i :: 0 <= i < |init| ==> key(init[i]) >= key(x)
  {
    assert forall i :: 0 <= i < |init| ==> (init + [x])[i] == init[i];
    assert (init + [x])[|init|] == x;
  }

  lemma {:induction false} InsertLast<T>(s: seq<T>, x: T, key: T -> int)
    requires SortedDesc(s, key)
    requires forall i :: 0 <= i < |s| ==> key(s[i]) >= key(x)
    ensures Insert(s, x, key) == s + [x]
  {
    if s != [] {
      InsertLast(s[1..], x, key);
      assert s == [s[0]] + s[1..];
    }
  }

  /** A permutation of a sequence whose elements all satisfy `p` has only such elements. */
  lemma PermutationKeeps<T>(a: seq<T>, b: seq<T>, p: T -> bool)
    requires multiset(a) == multiset(b)
    requires forall j :: 0 <= j < |b| ==> p(b[j])
    ensures forall i :: 0 <= i < |a| ==> p(a[i])
  {
    forall i | 0 <= i < |a| ensures p(a[i]) {
      assert a[i] in multiset(a);
      var j :| 0 <= j < |b| && b[j] == a[i];
    }
  }

  /** A permutation of `b` contains every element of `b`. */
  lemma PermutationContains<T>(a: seq<T>, b: seq<T>)
    requires multiset(a) == multiset(b)
    ensures forall j :: 0 <= j < |b| ==> b[j] in a
  {
    forall j | 0 <= j < |b| ensures b[j] in a {
      assert b[j] in multiset(b);
    }
  }

  /**
   * Keep the elements satisfying `p`, then sort them stably by `key`, descending:
   * the shape of every list view (`filter` calls followed by `sort` on a copy).
   */
  function FilterSortDesc<T>(s: seq<T>, p: T -> bool, key: T -> int): (r: seq<T>)
    ensures multiset(r) <= multiset(s)
    ensures forall i :: 0 <= i < |r| ==> p(r[i])
    ensures forall i :: 0 <= i < |s| && p(s[i]) ==> s[i] in r
    ensures SortedDesc(r, key)
  {
    FilterSortDescSpec(s, p, key);
    SortDesc(Filter(s, p), key)
  }

  lemma FilterSortDescSpec<T>(s: seq<T>, p: T -> bool, key: T -> int)
    ensures multiset(SortDesc(Filter(s, p), key)) <= multiset(s)
    ensures forall i :: 0 <= i < |SortDesc(Filter(s, p), key)| ==> p(SortDesc(Filter(s, p), key)[i])
    ensures forall i :: 0 <= i < |s| && p(s[i]) ==> s[i] in SortDesc(Filter(s, p), key)
  {
    var kept := Filter(s, p);
    var r := SortDesc(kept, key);
    FilterSpec(s, p);
    PermutationKeeps(r, kept, p);
    PermutationContains(r, kept);
    forall i | 0 <= i < |s| && p(s[i]) ensures s[i] in r {
      var j :| 0 <= j < |kept| && kept[j] == s[i];
    }
  }

  /** Filtering a sorted sequence keeps it sorted. */
  lemma {:induction false} FilterSorted<T>(s: seq<T>, p: T -> bool, key: T -> int)
    requires SortedDesc(s, key)
    ensures SortedDesc(Filter(s, p), key)
  {
    if s != [] {
      var init, x := s[..|s| - 1], s[|s| - 1];
      FilterSorted(init, p, key);
      if p(x) {
        var f := Filter(init, p);
        FilterSpec(init, p);
        forall i | 0 <= i < |f| ensures key(f[i]) >= key(x) {
          assert f[i] in multiset(init) by { assert f[i] in multiset(f); }
          var j :| 0 <= j < |init| && init[j] == f[i];
          assert s[j] == init[j];
        }
        assert Filter(s, p) == f + [x];
      }
    }
  }
}
