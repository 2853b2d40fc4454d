/**
 * The card feed: the cards of a view that pass the filter store's search,
 * category and difficulty, sorted by its `sorting`, shown three at a time
 * through a sliding window that swipes move by one card.
 */
module CardFeed {
  import opened Wrappers
  import opened Seqs
  import opened Sorting
  import opened SwipTypes
  import opened Feeds
  import FS = FilterStore

  /** The part of the filter store the feed filters by. */
  function FeedFiltersOf(f: FS.FilterState): FeedFilters {
    FeedFilters(f.search, f.category, f.difficulty)
  }

  /**
   * `sortedCards`: only cards of the view, taken from `content`, each card the
   * filters accept among them, sorted by the store's `sorting`.
   */
  function SortedCards(content: seq<SwipContent>, ui: map<string, Interaction>, view: View, f: FS.FilterState)
    : (r: seq<SwipContent>)
    ensures multiset(r) <= multiset(content)
    ensures forall i :: 0 <= i < |r| ==> FeedKeeps(ui, Card, view, FeedFiltersOf(f), r[i])
    ensures forall i :: 0 <= i < |content| && FeedKeeps(ui, Card, view, FeedFiltersOf(f), content[i])
              ==> content[i] in r
    ensures SortedDesc(r, SortKey(f.sorting))
  {
    FeedItems(content, ui, Card, view, FeedFiltersOf(f), f.sorting)
  }

  /** `content.map(item => item.category)`. */
  function CategoryOfEach(content: seq<SwipContent>): (r: seq<string>)
    ensures |r| == |content|
    ensures forall i :: 0 <= i < |content| ==> r[i] == content[i].category
  {
    seq(|content|, i requires 0 <= i < |content| => content[i].category)
  }

  /** The category chips: each category of `content` once, in order of first appearance. */
  function Categories(content: seq<SwipContent>): (r: seq<string>)
    ensures forall i :: 0 <= i < |content| ==> content[i].category in r
    ensures forall i :: 0 <= i < |r| ==> exists j :: 0 <= j < |content| && content[j].category == r[i]
    ensures forall i, j :: 0 <= i < j < |r| ==> r[i] != r[j]
  {
    var cats := CategoryOfEach(content);
    var r := Dedup(cats);
    assert forall i :: 0 <= i < |r| ==> exists j :: 0 <= j < |content| && content[j].category == r[i] by {
      forall i | 0 <= i < |r| ensures exists j :: 0 <= j < |content| && content[j].category == r[i] {
        var j :| 0 <= j < |cats| && cats[j] == r[i];
      }
    }
    r
  }

  /** The chips come in order of first appearance: a chip listed earlier has its category appear first in the content. */
  lemma CategoriesFirstAppearance(content: seq<SwipContent>, i: int, j: int)
    requires 0 <= i < j < |Categories(content)|
    ensures exists p :: 0 <= p < |content| && content[p].category == Categories(content)[i]
              && forall q :: 0 <= q < p ==> content[q].category != Categories(content)[j]
  {
    var cats := CategoryOfEach(content);
    DedupFirstOrder(cats, i, j);
    var p :| 0 <= p < |cats| && cats[p] == Dedup(cats)[i] && forall q :: 0 <= q < p ==> cats[q] != Dedup(cats)[j];
    assert content[p].category == Categories(content)[i];
  }

  /** How many cards the window shows. */
  const PageSize := 3

  /** The `visibleRange` window `[start, end)` over the sorted cards. */
  datatype Range = Range(start: int, end: int)

  const InitialRange := Range(0, PageSize)

  /** A window of one page that starts inside the list or after it, never before it. */
  predicate WellFormed(r: Range) {
    0 <= r.start && r.end == r.start + PageSize
  }

  function Max(a: int, b: int): int { if a < b then b else a }

  /** While the list has `n` cards, the window never runs past them unless the list is shorter than a page. */
  predicate Valid(r: Range, n: int) {
    WellFormed(r) && r.end <= Max(n, PageSize)
  }

  /**
   * `handleSwipe`: 'up' moves the window one card forward while cards remain
   * beyond it, 'down' one card back while it does not start at the first card.
   */
  function Swipe(r: Range, dir: Direction, n: int): (q: Range)
    ensures q.end - q.start == r.end - r.start
    ensures q.start > r.start <==> dir == Up && r.end < n
    ensures q.start < r.start <==> dir == Down && r.start > 0
    ensures r.start - 1 <= q.start <= r.start + 1
  {
    if dir == Up && r.end < n then Range(r.start + 1, r.end + 1)
    else if dir == Down && r.start > 0 then Range(r.start - 1, r.end - 1)
    else r
  }

  /** The window after a series of swipes over a list of `n` cards. */
  function Swipes(r: Range, dirs: seq<Direction>, n: int): Range
    decreases |dirs|
  {
    if dirs == [] then r else Swipes(Swipe(r, dirs[0], n), dirs[1..], n)
  }

  /** A swipe keeps the window valid for the same list. */
  lemma SwipeKeepsValid(r: Range, dir: Direction, n: int)
    requires Valid(r, n)
    ensures Valid(Swipe(r, dir, n), n)
  {
  }

  /** From the initial window, no series of swipes makes it invalid. */
  lemma {:induction false} SwipesKeepValid(r: Range, dirs: seq<Direction>, n: int)
    requires Valid(r, n)
    ensures Valid(Swipes(r, dirs, n), n)
    decreases |dirs|
  {
    if dirs != [] {
      SwipeKeepsValid(r, dirs[0], n);
      SwipesKeepValid(Swipe(r, dirs[0], n), dirs[1..], n);
    }
  }

  lemma InitialValid(dirs: seq<Direction>, n: int)
    ensures Valid(Swipes(InitialRange, dirs, n), n)
  {
    SwipesKeepValid(InitialRange, dirs, n);
  }

  /** A successful 'up' is undone by a 'down'. */
  lemma UpThenDown(r: Range, n: int)
    requires WellFormed(r) && r.end < n
    ensures Swipe(Swipe(r, Up, n), Down, n) == r
  {
  }

  /** `sortedCards.slice(start, end)`: the cards at positions `start` up to `end`, those that exist. */
  function Visible(cards: seq<SwipContent>, r: Range): (v: seq<SwipContent>)
    requires WellFormed(r)
    ensures |v| <= PageSize
    ensures forall i :: 0 <= i < |v| ==> r.start + i < |cards| && v[i] == cards[r.start + i]
    ensures r.end <= |cards| ==> |v| == PageSize
  {
    Slice(cards, r.start, r.end)
  }

  /** The progress badge `first - last of total`. */
  datatype Counter = Counter(first: int, last: int, total: int)

  function CounterOf(r: Range, n: int): Counter {
    Counter(r.start + 1, if r.end < n then r.end else n, n)
  }

  /** While the window starts inside the list, the badge counts exactly the visible cards. */
  lemma CounterMatchesVisible(cards: seq<SwipContent>, r: Range)
    requires WellFormed(r) && r.start < |cards|
    ensures var c := CounterOf(r, |cards|);
            1 <= c.first <= c.last <= c.total == |cards|
            && c.last - c.first + 1 == |Visible(cards, r)|
  {
  }

  /**
   * The window is not moved back when the list shrinks: a window left beyond
   * the new end shows no card while the badge reads `first - last` with
   * `first > last`.
   */
  lemma StaleWindow(cards: seq<SwipContent>, r: Range)
    requires WellFormed(r) && |cards| <= r.start
    ensures Visible(cards, r) == []
    ensures CounterOf(r, |cards|).first > CounterOf(r, |cards|).last
  {
  }

  /** The feed's own state: the window and whether the filter panel is open. */
  class Feed {
    var visibleRange: Range
    var showFilters: bool

    constructor ()
      ensures visibleRange == InitialRange && !showFilters
    {
      visibleRange := InitialRange;
      showFilters := false;
    }

    /** A swipe or arrow click over a list of `n` sorted cards. */
    method HandleSwipe(dir: Direction, n: int)
      modifies this`visibleRange
      ensures visibleRange == Swipe(old(visibleRange), dir, n)
      ensures Valid(old(visibleRange), n) ==> Valid(visibleRange, n)
    {
      if Valid(visibleRange, n) {
        SwipeKeepsValid(visibleRange, dir, n);
      }
      visibleRange := Swipe(visibleRange, dir, n);
    }

    method ToggleFilters()
      modifies this`showFilters
      ensures showFilters == !old(showFilters)
    {
      showFilters := !showFilters;
    }
  }

  /** A category chip click on the filter store. */
  method ClickCategory(store: FS.Store, category: string)
    modifies store
    ensures store.filters == old(store.filters).(category := ToggleChip(old(store.filters.category), category))
  {
    store.SetFilter(FS.SetCategory(ToggleChip(store.filters.category, category)));
  }

  /** A difficulty chip click on the filter store. */
  method ClickDifficulty(store: FS.Store, difficulty: string)
    modifies store
    ensures store.filters == old(store.filters).(difficulty := ToggleChip(old(store.filters.difficulty), difficulty))
  {
    store.SetFilter(FS.SetDifficulty(ToggleChip(store.filters.difficulty, difficulty)));
  }

  /** "Reset Filters": the store's reset, then 'latest' sorting, which is the initial record again. */
  method ResetButton(store: FS.Store)
    modifies store
    ensures store.filters == FS.Initial
  {
    store.ResetFilters();
    store.SetFilter(FS.SetSorting(Latest));
  }
}
