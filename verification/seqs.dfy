/** Order-preserving filtering of sequences (the source's `Array.prototype.filter`). */
module Seqs {

  /** The elements of `s` that satisfy `p`, in their original order. */
  function Filter<T>(s: seq<T>, p: T -> bool): (r: seq<T>)
    ensures |r| <= |s|
  {
    if s == [] then []
    else if p(s[|s| - 1]) then Filter(s[..|s| - 1], p) + [s[|s| - 1]]
    else Filter(s[..|s| - 1], p)
  }

  /** What filtering keeps: only elements satisfying `p`, each of them, and no element more often than in `s`. */
  lemma {:induction false} FilterSpec<T>(s: seq<T>, p: T -> bool)
    ensures forall i :: 0 <= i < |Filter(s, p)| ==> p(Filter(s, p)[i])
    ensures forall i :: 0 <= i < |s| && p(s[i]) ==> s[i] in Filter(s, p)
    ensures multiset(Filter(s, p)) <= multiset(s)
  {
    if s != [] {
      var init, x := s[..|s| - 1], s[|s| - 1];
      FilterSpec(init, p);
      assert s == init + [x];
      forall i | 0 <= i < |s| && p(s[i]) ensures s[i] in Filter(s, p) {
        if i < |init| { assert s[i] == init[i]; }
      }
    }
  }

  /** Filtering distributes over concatenation: the kept elements keep their relative order. */
  lemma {:induction false} FilterAppend<T>(a: seq<T>, b: seq<T>, p: T -> bool)
    ensures Filter(a + b, p) == Filter(a, p) + Filter(b, p)
  {
    if b == [] {
      assert a + b == a;
    } else {
      var b' := b[..|b| - 1];
      assert (a + b)[..|a + b| - 1] == a + b';
      FilterAppend(a, b', p);
    }
  }

  /** Filtering with a predicate that every element satisfies keeps the whole sequence. */
  lemma {:induction false} FilterAll<T>(s: seq<T>, p: T -> bool)
    requires forall x :: x in s ==> p(x)
    ensures Filter(s, p) == s
  {
    if s != [] {
      FilterAll(s[..|s| - 1], p);
      assert s == s[..|s| - 1] + [s[|s| - 1]];
    }
  }

  /** Filters with predicates that agree on every element of `s` give the same result. */
  lemma {:induction false} FilterSame<T>(s: seq<T>, p: T -> bool, q: T -> bool)
    requires forall i :: 0 <= i < |s| ==> p(s[i]) == q(s[i])
    ensures Filter(s, p) == Filter(s, q)
  {
    if s != [] {
      FilterSame(s[..|s| - 1], p, q);
    }
  }

  /** Two filters in a row equal one filter on the conjunction. */
  lemma {:induction false} FilterFilter<T>(s: seq<T>, p: T -> bool, q: T -> bool)
    ensures Filter(Filter(s, p), q) == Filter(s, x => p(x) && q(x))
  {
    if s != [] {
      var s' := s[..|s| - 1];
      FilterFilter(s', p, q);
      var x := s[|s| - 1];
      if p(x) {
        FilterAppend(Filter(s', p), [x], q);
        assert Filter([x], q) == if q(x) then [x] else [] by {
          assert [x][..0] == [];
        }
      }
    }
  }

  /** The first `n` elements of `s`, or all of them when there are fewer (JavaScript `slice(0, n)`). */
  function Take<T>(s: seq<T>, n: int): (r: seq<T>)
    ensures |r| == if n <= 0 then 0 else if n < |s| then n else |s|
    ensures r <= s
  {
    if n <= 0 then [] else if n < |s| then s[..n] else s
  }

  /** JavaScript `slice(from, to)` with non-negative bounds: clamped to the sequence. */
  function Slice<T>(s: seq<T>, from: nat, to: nat): (r: seq<T>)
    ensures from <= to <= |s| ==> r == s[from..to]
    ensures to <= from || |s| <= from ==> r == []
  {
    var hi := if to < |s| then to else |s|;
    if from < hi then s[from..hi] else []
  }

  /** The distinct elements of `s` in order of first occurrence (`Array.from(new Set(s))`). */
  function Dedup<T(==)>(s: seq<T>): (r: seq<T>)
    ensures forall i :: 0 <= i < |s| ==> s[i] in r
    ensures forall i :: 0 <= i < |r| ==> r[i] in s
    ensures forall i, j :: 0 <= i < j < |r| ==> r[i] != r[j]
  {
    if s == [] then []
    else
      var init, x := s[..|s| - 1], s[|s| - 1];
      var d := Dedup(init);
      assert forall i :: 0 <= i < |s| - 1 ==> s[i] == init[i];
      if x in d then d else d + [x]
  }

  /**
   * `Dedup` lists elements in order of first occurrence: an element listed before
   * another occurs in `s` before the other's first occurrence.
   */
  lemma {:induction false} DedupFirstOrder<T>(s: seq<T>, i: int, j: int)
    requires 0 <= i < j < |Dedup(s)|
    ensures exists p :: 0 <= p < |s| && s[p] == Dedup(s)[i] && forall q :: 0 <= q < p ==> s[q] != Dedup(s)[j]
  {
    var init, x := s[..|s| - 1], s[|s| - 1];
    var d := Dedup(init);
    assert forall q :: 0 <= q < |init| ==> s[q] == init[q];
    if x in d || j < |d| {
      DedupFirstOrder(init, i, j);
      var p :| 0 <= p < |init| && init[p] == d[i] && forall q :: 0 <= q < p ==> init[q] != d[j];
      assert s[p] == Dedup(s)[i];
    } else {
      assert x !in init;
      var p :| 0 <= p < |init| && init[p] == d[i];
      assert s[p] == Dedup(s)[i];
    }
  }

  /** `Dedup` keeps the first occurrence: extending `s` only extends its result. */
  lemma DedupPrefix<T>(s: seq<T>, x: T)
    ensures Dedup(s) <= Dedup(s + [x])
  {
    assert (s + [x])[..|s + [x]| - 1] == s;
  }
}
