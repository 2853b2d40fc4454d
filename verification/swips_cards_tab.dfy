/**
 * The swips cards tab: the store's filtered content restricted to cards and
 * notes, revealed twelve at first and eight more per "Load More", with a reset
 * that puts the store's filters and sorting back to their defaults.
 */
module SwipsCardsTab {
  import opened Wrappers
  import opened Seqs
  import opened Sorting
  import opened SwipTypes
  import opened Feeds
  import SS = SwipsStore

  /** `item.type === 'card' || item.type === 'note'`. */
  const IsCardOrNote: SwipContent -> bool := (x: SwipContent) => x.kind == Card || x.kind == Note

  /**
   * `cards`: the store's filtered and sorted content, keeping only cards and
   * notes, in the same order.
   */
  function Cards(content: seq<SwipContent>, f: SS.StoreFilters, sorting: SortOrder): (r: seq<SwipContent>)
    ensures multiset(r) <= multiset(content)
    ensures forall i :: 0 <= i < |r| ==> (r[i].kind == Card || r[i].kind == Note) && SS.Keeps(f, r[i])
    ensures forall i :: 0 <= i < |content| && SS.Keeps(f, content[i]) && content[i].kind != Video
              ==> content[i] in r
    ensures SortedDesc(r, SortKey(sorting))
  {
    CardsSpec(content, f, sorting);
    Filter(SS.FilteredContent(content, f, sorting), IsCardOrNote)
  }

  lemma CardsSpec(content: seq<SwipContent>, f: SS.StoreFilters, sorting: SortOrder)
    ensures var r := Filter(SS.FilteredContent(content, f, sorting), IsCardOrNote);
            multiset(r) <= multiset(content)
            && (forall i :: 0 <= i < |r| ==> (r[i].kind == Card || r[i].kind == Note) && SS.Keeps(f, r[i]))
            && (forall i :: 0 <= i < |content| && SS.Keeps(f, content[i]) && content[i].kind != Video
                  ==> content[i] in r)
            && SortedDesc(r, SortKey(sorting))
  {
    var all := SS.FilteredContent(content, f, sorting);
    var r := Filter(all, IsCardOrNote);
    FilterSpec(all, IsCardOrNote);
    FilterSorted(all, IsCardOrNote, SortKey(sorting));
    forall i | 0 <= i < |r| ensures SS.Keeps(f, r[i]) {
      assert r[i] in multiset(all) by { assert r[i] in multiset(r); }
      var j :| 0 <= j < |all| && all[j] == r[i];
    }
    forall i | 0 <= i < |content| && SS.Keeps(f, content[i]) && content[i].kind != Video
      ensures content[i] in r
    {
      var j :| 0 <= j < |all| && all[j] == content[i];
      assert IsCardOrNote(all[j]);
    }
  }

  /** How many cards are shown at first, and how many more each "Load More" adds. */
  const InitialVisible := 12
  const LoadStep := 8

  /**
   * `handleLoadMore` over `n` cards: eight more, but never more than there are.
   * While cards remain hidden, each press shows at least one more.
   */
  function LoadMore(visible: int, n: int): (r: int)
    ensures r <= n && r <= visible + LoadStep
    ensures visible < n ==> visible < r
    ensures visible + LoadStep <= n ==> r == visible + LoadStep
  {
    if visible + LoadStep < n then visible + LoadStep else n
  }

  /** The count after `k` presses. */
  function LoadMoreTimes(visible: int, k: nat, n: int): int {
    if k == 0 then visible else LoadMore(LoadMoreTimes(visible, k - 1, n), n)
  }

  /** `k` presses from a count within the list show `8k` more cards, or all of them. */
  lemma {:induction false} LoadMoreTimesValue(visible: int, k: nat, n: int)
    requires visible <= n
    ensures LoadMoreTimes(visible, k, n) == if visible + LoadStep * k < n then visible + LoadStep * k else n
  {
    if k > 0 {
      LoadMoreTimesValue(visible, k - 1, n);
    }
  }

  /** From the initial twelve, `(n - 12 + 7) / 8` presses reveal every card. */
  lemma LoadMoreReachesEnd(n: int)
    requires n >= InitialVisible
    ensures LoadMoreTimes(InitialVisible, (n - InitialVisible + LoadStep - 1) / LoadStep, n) == n
  {
    var k := (n - InitialVisible + LoadStep - 1) / LoadStep;
    LoadMoreTimesValue(InitialVisible, k, n);
  }

  /** "Load More" is offered exactly while cards remain hidden. */
  predicate LoadMoreOffered(visible: int, n: int) {
    visible < n
  }

  /** `cards.slice(0, visibleCards)`: the first `min(visible, n)` cards. */
  function Shown(cards: seq<SwipContent>, visible: int): (r: seq<SwipContent>)
    ensures r <= cards
    ensures visible >= 0 ==> |r| == if visible < |cards| then visible else |cards|
  {
    Take(cards, visible)
  }

  /** The "Showing k of n" line counts exactly the shown cards; when it equals `n` no button is offered. */
  lemma CounterMatchesShown(cards: seq<SwipContent>, visible: int)
    requires visible >= 0
    ensures |Shown(cards, visible)| == if visible < |cards| then visible else |cards|
    ensures |Shown(cards, visible)| == |cards| <==> !LoadMoreOffered(visible, |cards|)
  {
  }

  /** A card without an interaction record is shown as not liked, disliked, wishlisted or enrolled, at progress 0. */
  lemma MissingRecordShownAsDefault(ui: map<string, Interaction>, id: string, now: int)
    requires id !in ui
    ensures SS.Current(ui, id, now) == DefaultInteraction(now)
  {
  }

  /** The patch of "Reset filters": every field named, each with its initial value. */
  const ResetPatch := SS.FilterPatch(Some(None), Some(None), Some(AllTypes), Some(""))

  /** The reset patch gives the initial filters whatever the filters were. */
  lemma ResetPatchRestores(f: SS.StoreFilters)
    ensures SS.Merge(f, ResetPatch) == SS.InitialFilters
  {
  }

  /** The tab's own state. */
  class Tab {
    var visibleCards: int
    var showFilters: bool

    constructor ()
      ensures visibleCards == InitialVisible && !showFilters
    {
      visibleCards, showFilters := InitialVisible, false;
    }

    /** "Load More" over `n` cards. */
    method HandleLoadMore(n: int)
      modifies this`visibleCards
      ensures visibleCards == LoadMore(old(visibleCards), n)
      ensures old(visibleCards) < n ==> old(visibleCards) < visibleCards <= n
    {
      visibleCards := LoadMore(visibleCards, n);
    }

    method ToggleFilters()
      modifies this`showFilters
      ensures showFilters == !old(showFilters)
    {
      showFilters := !showFilters;
    }
  }

  /** "Reset filters": the initial filters and 'latest' sorting; interactions and content are kept. */
  method Reset(store: SS.Store)
    modifies store`filters, store`sorting
    ensures store.filters == SS.InitialFilters && store.sorting == Latest
    ensures store.content == old(store.content) && store.userInteractions == old(store.userInteractions)
  {
    ResetPatchRestores(store.filters);
    store.SetFilter(ResetPatch);
    store.SetSorting(Latest);
  }

  /** Typing in the search box: `{ ...filters, search }`, which changes only the search. */
  method Search(store: SS.Store, text: string)
    modifies store`filters
    ensures store.filters == old(store.filters).(search := text)
    ensures store.content == old(store.content) && store.sorting == old(store.sorting)
            && store.userInteractions == old(store.userInteractions)
  {
    var f := store.filters;
    store.SetFilter(SS.FilterPatch(Some(f.category), Some(f.difficulty), Some(f.kind), Some(text)));
  }

  /** A category chip click: `{ ...filters, category: toggled }`. */
  method ClickCategory(store: SS.Store, category: string)
    modifies store`filters
    ensures store.filters == old(store.filters).(category := ToggleChip(old(store.filters.category), category))
    ensures store.content == old(store.content) && store.sorting == old(store.sorting)
            && store.userInteractions == old(store.userInteractions)
  {
    var f := store.filters;
    store.SetFilter(SS.FilterPatch(Some(ToggleChip(f.category, category)), Some(f.difficulty), Some(f.kind),
                                   Some(f.search)));
  }

  /** A difficulty chip click: `{ ...filters, difficulty: toggled }`. */
  method ClickDifficulty(store: SS.Store, difficulty: string)
    modifies store`filters
    ensures store.filters == old(store.filters).(difficulty := ToggleChip(old(store.filters.difficulty), difficulty))
    ensures store.content == old(store.content) && store.sorting == old(store.sorting)
            && store.userInteractions == old(store.userInteractions)
  {
    var f := store.filters;
    store.SetFilter(SS.FilterPatch(Some(f.category), Some(ToggleChip(f.difficulty, difficulty)), Some(f.kind),
                                   Some(f.search)));
  }
}
