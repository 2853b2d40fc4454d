/**
 * The reveal buffer of the infinite-scroll cards tab: the items shown so far,
 * a prefix of the filtered content that grows by a batch of twelve whenever
 * the load trigger scrolls into view, and that starts over from the first
 * twelve whenever the search, filters or sorting change. An "intersection"
 * here is one run of the effect that appends a batch; the effect also runs
 * when the filtered content is rebuilt, so one scroll can append several batches.
 */
module RevealBuffer {
  import opened Seqs
  import opened SwipTypes

  /** The size of the first batch and of every batch appended after it. */
  const BatchSize := 12

  function Min(a: int, b: int): int { if a < b then a else b }

  /**
   * One intersection: `content.slice(len, min(len + 12, n))` is appended when it
   * is non-empty. On a prefix of `content` the result is the prefix twelve
   * items longer, or all of `content`.
   */
  function Extend(visible: seq<SwipContent>, content: seq<SwipContent>): (r: seq<SwipContent>)
    ensures visible <= r
    ensures r == visible <==> |content| <= |visible|
    ensures visible <= content ==> r <= content && |r| == Min(|visible| + BatchSize, |content|)
  {
    var batch := Slice(content, |visible|, Min(|visible| + BatchSize, |content|));
    if |batch| > 0 then visible + batch else visible
  }

  /** Extending the first `m` items gives the first `m + 12`. */
  lemma ExtendTake(content: seq<SwipContent>, m: nat)
    ensures Extend(Take(content, m), content) == Take(content, m + BatchSize)
  {
    var t := Take(content, m);
    if m < |content| {
      assert t <= content;
    }
  }

  /** The buffer after `k` intersections. */
  function ExtendTimes(visible: seq<SwipContent>, content: seq<SwipContent>, k: nat): seq<SwipContent> {
    if k == 0 then visible else Extend(ExtendTimes(visible, content, k - 1), content)
  }

  /** After the first batch and `k` intersections, the buffer is the first `12(k + 1)` items. */
  lemma {:induction false} RevealedAfter(content: seq<SwipContent>, k: nat)
    ensures ExtendTimes(Take(content, BatchSize), content, k) == Take(content, BatchSize * (k + 1))
  {
    if k > 0 {
      var prev := ExtendTimes(Take(content, BatchSize), content, k - 1);
      RevealedAfter(content, k - 1);
      assert prev == Take(content, BatchSize * k);
      ExtendTake(content, BatchSize * k);
      assert BatchSize * k + BatchSize == BatchSize * (k + 1);
    }
  }

  /** The buffer's state, kept by the component. */
  class Buffer {
    var visible: seq<SwipContent>

    /** The buffer starts as the first twelve items. */
    constructor (content: seq<SwipContent>)
      ensures visible == Take(content, BatchSize)
    {
      visible := Take(content, BatchSize);
    }

    /** The load trigger is rendered exactly while some item is not yet revealed. */
    predicate TriggerShown(content: seq<SwipContent>)
      reads this
    {
      |visible| < |content|
    }

    /**
     * The trigger intersecting the viewport. With `content` unchanged the
     * buffer stays a prefix of it and never grows past it.
     */
    method OnIntersect(content: seq<SwipContent>)
      modifies this
      ensures visible == Extend(old(visible), content)
      ensures old(visible) <= content ==> visible <= content && |visible| <= |content|
      ensures old(TriggerShown(content)) ==> |visible| > |old(visible)|
    {
      visible := Extend(visible, content);
    }

    /** A change of search, filters or sorting: the buffer starts over. */
    method Reset(content: seq<SwipContent>)
      modifies this
      ensures visible == Take(content, BatchSize)
    {
      visible := Take(content, BatchSize);
    }
  }
}
