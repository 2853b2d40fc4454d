/**
 * The video tab: the videos of a view that pass the swips store's search,
 * category and difficulty, sorted by the store's `sorting`, shown one at a time
 * with a cursor that wraps around at both ends and that an autoplay timer
 * advances.
 */
module VideoTab {
  import opened Sorting
  import opened SwipTypes
  import opened Feeds
  import SS = SwipsStore

  /** `sortedVideos`, filtered by the swips store's own filters and sorting. */
  function TabVideos(content: seq<SwipContent>, ui: map<string, Interaction>, view: View,
                     f: SS.StoreFilters, sorting: SortOrder): (r: seq<SwipContent>)
    ensures multiset(r) <= multiset(content)
    ensures forall i :: 0 <= i < |r| ==> FeedKeeps(ui, Video, view, FeedFilters(f.search, f.category, f.difficulty), r[i])
    ensures forall i :: 0 <= i < |content|
              && FeedKeeps(ui, Video, view, FeedFilters(f.search, f.category, f.difficulty), content[i])
              ==> content[i] in r
    ensures SortedDesc(r, SortKey(sorting))
  {
    FeedItems(content, ui, Video, view, FeedFilters(f.search, f.category, f.difficulty), sorting)
  }

  /**
   * `handleSwipe` as written, over a list of `n` videos: 'up' goes to the next
   * video and from the last back to the first, 'down' to the previous and from
   * the first to the last. Only a cursor inside the list stays inside it.
   */
  function CyclicStep(index: int, dir: Direction, n: int): (r: int)
    ensures 0 <= index < n ==> 0 <= r < n
    ensures 0 <= index < n && n > 1 ==> r != index
  {
    if dir == Up then (if index == n - 1 then 0 else index + 1)
    else (if index == 0 then n - 1 else index - 1)
  }

  /** Inside the list, 'down' undoes 'up' and 'up' undoes 'down'. */
  lemma StepInverse(index: int, n: int)
    requires 0 <= index < n
    ensures CyclicStep(CyclicStep(index, Up, n), Down, n) == index
    ensures CyclicStep(CyclicStep(index, Down, n), Up, n) == index
  {
  }

  /** The cursor after `k` steps 'up' with the cyclic step as written. */
  function Ups(index: int, k: nat, n: int): int
  {
    if k == 0 then index else CyclicStep(Ups(index, k - 1, n), Up, n)
  }

  /** `k` steps 'up' move the cursor `k` places forward, wrapping once past the end. */
  lemma {:induction false} UpsAdvance(index: int, k: nat, n: int)
    requires 0 <= index < n && k <= n
    ensures Ups(index, k, n) == if index + k < n then index + k else index + k - n
  {
    if k > 0 {
      UpsAdvance(index, k - 1, n);
    }
  }

  /** `n` steps 'up' (for example, `n` autoplay ticks) bring the cursor back to where it was. */
  lemma FullCycle(index: int, n: int)
    requires 0 <= index < n
    ensures Ups(index, n, n) == index
  {
    UpsAdvance(index, n, n);
  }

  /**
   * A cursor outside the list is never brought back: 'up' keeps moving it
   * further out. With no video matching, the autoplay timer still fires, so
   * the cursor drifts to 1, 2, ... and stays out of range when videos match
   * again.
   */
  lemma OutOfRangeDrifts(index: int, n: int)
    requires index >= n
    ensures CyclicStep(index, Up, n) == index + 1 > n
  {
  }

  /** The drift from the initial cursor: an autoplay tick on an empty list, then a list of one video. */
  lemma EmptyListTickLeavesRange()
    ensures CyclicStep(0, Up, 0) == 1
    ensures !(0 <= CyclicStep(0, Up, 0) < 1)
  {
  }

  /**
   * The step as evidently intended: the cursor always ends inside a non-empty
   * list (at 0 for an empty one), and inside the list it is the cyclic step.
   */
  function Step(index: int, dir: Direction, n: int): (r: int)
    ensures n > 0 ==> 0 <= r < n
    ensures n <= 0 ==> r == 0
    ensures 0 <= index < n ==> r == CyclicStep(index, dir, n)
  {
    if 0 <= index < n then CyclicStep(index, dir, n) else 0
  }

  /** The record a video without a stored interaction is shown with (it has no view time, written 0). */
  const Fallback := Interaction(false, false, false, false, 0, 0)

  /** What the tab renders: the "no match" message, one video, or a failed render. */
  datatype TabScreen = NoMatches | Showing(video: SwipContent, interaction: Interaction) | RenderError

  /**
   * The tab's render: the message for an empty list; otherwise the video at the
   * cursor, and a failed render (reading `.id` of `undefined`) when the cursor
   * is outside the list.
   */
  function ScreenOf(videos: seq<SwipContent>, ui: map<string, Interaction>, index: int): (s: TabScreen)
    ensures s.NoMatches? <==> videos == []
    ensures s.RenderError? <==> videos != [] && !(0 <= index < |videos|)
    ensures s.Showing? ==> s.video == videos[index]
                           && s.interaction == (if videos[index].id in ui then ui[videos[index].id] else Fallback)
  {
    if videos == [] then NoMatches
    else if !(0 <= index < |videos|) then RenderError
    else
      var v := videos[index];
      Showing(v, if v.id in ui then ui[v.id] else Fallback)
  }

  /** After any corrected step over the current list, the tab renders without failing. */
  lemma StepNeverFailsRender(videos: seq<SwipContent>, ui: map<string, Interaction>, index: int, dir: Direction)
    ensures !ScreenOf(videos, ui, Step(index, dir, |videos|)).RenderError?
  {
  }

  /** The tab's own state: cursor and autoplay. */
  class Tab {
    var currentIndex: int
    var isAutoplay: bool

    constructor ()
      ensures currentIndex == 0 && isAutoplay
    {
      currentIndex, isAutoplay := 0, true;
    }

    /** A swipe or side tap over a list of `n` videos. */
    method HandleSwipe(dir: Direction, n: int)
      modifies this`currentIndex
      ensures currentIndex == Step(old(currentIndex), dir, n)
      ensures n > 0 ==> 0 <= currentIndex < n
    {
      currentIndex := Step(currentIndex, dir, n);
    }

    /** The autoplay timer firing: with autoplay on, the cursor moves 'up'; otherwise nothing happens. */
    method AutoplayTick(n: int)
      modifies this`currentIndex
      ensures isAutoplay ==> currentIndex == Step(old(currentIndex), Up, n)
      ensures !isAutoplay ==> currentIndex == old(currentIndex)
    {
      if isAutoplay {
        HandleSwipe(Up, n);
      }
    }

    method ToggleAutoplay()
      modifies this`isAutoplay
      ensures isAutoplay == !old(isAutoplay)
    {
      isAutoplay := !isAutoplay;
    }
  }
}
