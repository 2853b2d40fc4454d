/**
 * The list pipeline the card feed, the video feed and the video tab share:
 * keep one kind of item, keep the items the view's interaction flag selects,
 * apply the search and the exact category/difficulty facets, then sort by the
 * chosen key, largest first.
 */
module Feeds {
  import opened Wrappers
  import opened Seqs
  import opened Sorting
  import opened SwipTypes

  /** A swipe gesture (or the matching arrow button). */
  datatype Direction = Up | Down

  /** The search, category and difficulty values a feed filters by. */
  datatype FeedFilters = FeedFilters(search: string, category: Option<string>, difficulty: Option<string>)

  /** Every step of the pipeline accepts `x`. */
  predicate FeedKeeps(ui: map<string, Interaction>, kind: Kind, view: View, f: FeedFilters, x: SwipContent) {
    x.kind == kind
    && InView(ui, view, x.id)
    && MatchesTitleOrDescription(x, f.search)
    && MatchesExactly(x.category, f.category)
    && MatchesExactly(x.difficulty, f.difficulty)
  }

  function KeepFn(ui: map<string, Interaction>, kind: Kind, view: View, f: FeedFilters): SwipContent -> bool {
    (x: SwipContent) => FeedKeeps(ui, kind, view, f, x)
  }

  /**
   * The feed's sorted list: a sub-multiset of `content` holding exactly the
   * items every step accepts, ordered by the sort key, largest first.
   */
  function FeedItems(content: seq<SwipContent>, ui: map<string, Interaction>, kind: Kind, view: View,
                     f: FeedFilters, sorting: SortOrder): (r: seq<SwipContent>)
    ensures multiset(r) <= multiset(content)
    ensures forall i :: 0 <= i < |r| ==> FeedKeeps(ui, kind, view, f, r[i])
    ensures forall i :: 0 <= i < |content| && FeedKeeps(ui, kind, view, f, content[i]) ==> content[i] in r
    ensures SortedDesc(r, SortKey(sorting))
  {
    FilterSortDesc(content, KeepFn(ui, kind, view, f), SortKey(sorting))
  }

  /** In the liked/wishlisted/enrolled views an item without an interaction record never appears. */
  lemma MissingRecordExcluded(content: seq<SwipContent>, ui: map<string, Interaction>, kind: Kind, view: View,
                              f: FeedFilters, sorting: SortOrder, i: nat)
    requires view != AllItems
    requires i < |FeedItems(content, ui, kind, view, f, sorting)|
    ensures FeedItems(content, ui, kind, view, f, sorting)[i].id in ui
  {
  }

  /** Items with equal sort keys keep their order in `content`. */
  lemma FeedItemsStable(content: seq<SwipContent>, ui: map<string, Interaction>, kind: Kind, view: View,
                        f: FeedFilters, sorting: SortOrder, k: int)
    ensures WithKey(FeedItems(content, ui, kind, view, f, sorting), SortKey(sorting), k)
         == WithKey(Filter(content, KeepFn(ui, kind, view, f)), SortKey(sorting), k)
  {
    SortDescStable(Filter(content, KeepFn(ui, kind, view, f)), SortKey(sorting), k);
  }

  /** Clicking a chip: the selected value is cleared, any other value becomes the selection. */
  function ToggleChip(current: Option<string>, value: string): (r: Option<string>)
    ensures r.None? <==> current == Some(value)
    ensures r.Some? ==> r.value == value
  {
    if current == Some(value) then None else Some(value)
  }

  /** Clicking the same chip twice from no selection ends with no selection. */
  lemma ToggleChipTwice(value: string)
    ensures ToggleChip(ToggleChip(None, value), value) == None
  {
  }

  /** `items[index]`: the item at the cursor, or `undefined` when the cursor is outside the list. */
  function ItemAt(items: seq<SwipContent>, index: int): (r: Option<SwipContent>)
    ensures r.Some? <==> 0 <= index < |items|
    ensures r.Some? ==> r.value == items[index]
  {
    if 0 <= index < |items| then Some(items[index]) else None
  }

  /**
   * A bounded cursor step: 'up' moves forward unless at the last item, 'down'
   * moves back unless at the first.
   */
  function BoundedStep(index: int, dir: Direction, n: int): (r: int)
    ensures dir == Up && index < n - 1 ==> r == index + 1
    ensures dir == Down && index > 0 ==> r == index - 1
    ensures (dir == Up && index >= n - 1) || (dir == Down && index <= 0) ==> r == index
    ensures 0 <= index < n ==> 0 <= r < n
  {
    if dir == Up && index < n - 1 then index + 1
    else if dir == Down && index > 0 then index - 1
    else index
  }

  /** The cursor after a sequence of bounded steps. */
  function BoundedSteps(index: int, dirs: seq<Direction>, n: int): int
    decreases |dirs|
  {
    if dirs == [] then index else BoundedSteps(BoundedStep(index, dirs[0], n), dirs[1..], n)
  }

  /** Starting inside a non-empty list, no sequence of steps leaves it. */
  lemma {:induction false} BoundedStepsStayInRange(index: int, dirs: seq<Direction>, n: int)
    requires 0 <= index < n
    ensures 0 <= BoundedSteps(index, dirs, n) < n
    decreases |dirs|
  {
    if dirs != [] {
      BoundedStepsStayInRange(BoundedStep(index, dirs[0], n), dirs[1..], n);
    }
  }
}
