/**
 * The swips store: the content list, its filters and sorting, and the map of
 * per-item interaction records that the like, dislike, wishlist, enrolment and
 * progress actions replace one entry of at a time.
 */
module SwipsStore {
  import opened Wrappers
  import opened Text
  import opened Seqs
  import opened Sorting
  import opened SwipTypes

  /** The store's `filters` record. */
  datatype StoreFilters = StoreFilters(
    category: Option<string>,
    difficulty: Option<string>,
    kind: TypeFilter,
    search: string)

  /** The filters the store starts with: nothing selected, every type, empty search. */
  const InitialFilters := StoreFilters(None, None, AllTypes, "")

  /**
   * `Partial<filters>` as passed to `setFilter`: each field is absent (`None`)
   * or carries its new value, where an explicit `null` is `Some(None)`.
   */
  datatype FilterPatch = FilterPatch(
    category: Option<Option<string>>,
    difficulty: Option<Option<string>>,
    kind: Option<TypeFilter>,
    search: Option<string>)

  /** `{ ...filters, ...patch }`: the fields present in the patch win. */
  function Merge(f: StoreFilters, p: FilterPatch): (r: StoreFilters)
    ensures p.category.Some? ==> r.category == p.category.value
    ensures p.category.None? ==> r.category == f.category
    ensures p.difficulty.Some? ==> r.difficulty == p.difficulty.value
    ensures p.difficulty.None? ==> r.difficulty == f.difficulty
    ensures p.kind.Some? ==> r.kind == p.kind.value
    ensures p.kind.None? ==> r.kind == f.kind
    ensures p.search.Some? ==> r.search == p.search.value
    ensures p.search.None? ==> r.search == f.search
  {
    StoreFilters(
      p.category.GetOr(f.category),
      p.difficulty.GetOr(f.difficulty),
      p.kind.GetOr(f.kind),
      p.search.GetOr(f.search))
  }

  /** Merging the same patch twice is merging it once. */
  lemma MergeIdempotent(f: StoreFilters, p: FilterPatch)
    ensures Merge(Merge(f, p), p) == Merge(f, p)
  {
  }

  /** A patch that names every field determines the result whatever the filters were. */
  lemma MergeFull(f: StoreFilters, g: StoreFilters, p: FilterPatch)
    requires p.category.Some? && p.difficulty.Some? && p.kind.Some? && p.search.Some?
    ensures Merge(f, p) == Merge(g, p)
  {
  }

  // ---------------------------------------------------------------------------
  // Interactions

  /** The five interaction actions. */
  datatype Action =
    | Like
    | Dislike
    | Wishlist
    | Enroll
    | Progress(progress: int)

  /** `Math.min(100, Math.max(0, p))`. */
  function Clamp(p: int): (r: int)
    ensures 0 <= r <= 100
    ensures 0 <= p <= 100 ==> r == p
    ensures p < 0 ==> r == 0
    ensures p > 100 ==> r == 100
  {
    if p < 0 then 0 else if p > 100 then 100 else p
  }

  /** `userInteractions[id] || default`: the stored record, or the all-false, progress-0 record. */
  function Current(ui: map<string, Interaction>, id: string, now: int): (r: Interaction)
    ensures id in ui ==> r == ui[id]
    ensures id !in ui ==> !r.isLiked && !r.isDisliked && !r.isWishlisted && !r.isEnrolled
    ensures id !in ui ==> r.progress == 0 && r.lastViewed == now
  {
    if id in ui then ui[id] else DefaultInteraction(now)
  }

  /**
   * The new record for one action. Like and dislike each clear the other flag,
   * so neither can leave both set; every action keeps progress within [0, 100].
   */
  function Apply(cur: Interaction, a: Action, now: int): (r: Interaction)
    ensures (a.Like? || a.Dislike?) ==> !(r.isLiked && r.isDisliked)
    ensures !(cur.isLiked && cur.isDisliked) ==> !(r.isLiked && r.isDisliked)
    ensures a.Progress? ==> 0 <= r.progress <= 100
    ensures 0 <= cur.progress <= 100 ==> 0 <= r.progress <= 100
  {
    match a
    case Like => cur.(isLiked := !cur.isLiked, isDisliked := false)
    case Dislike => cur.(isDisliked := !cur.isDisliked, isLiked := false)
    case Wishlist => cur.(isWishlisted := !cur.isWishlisted)
    case Enroll => cur.(isEnrolled := !cur.isEnrolled, lastViewed := now)
    case Progress(p) => cur.(progress := Clamp(p), lastViewed := now)
  }

  /** One action on the whole map: only the entry for `id` is written. */
  function Step(ui: map<string, Interaction>, id: string, a: Action, now: int): (r: map<string, Interaction>)
    ensures r.Keys == ui.Keys + {id}
    ensures r[id] == Apply(Current(ui, id, now), a, now)
    ensures forall k :: k in ui && k != id ==> r[k] == ui[k]
  {
    ui[id := Apply(Current(ui, id, now), a, now)]
  }

  /** No record is both liked and disliked, and every progress lies in [0, 100]. */
  predicate Consistent(ui: map<string, Interaction>) {
    forall id :: id in ui ==> !(ui[id].isLiked && ui[id].isDisliked) && 0 <= ui[id].progress <= 100
  }

  /** One action applied to the store at time `now`. */
  datatype Event = Event(id: string, action: Action, now: int)

  /** The map after a sequence of actions, in order. */
  function Replay(ui: map<string, Interaction>, events: seq<Event>): map<string, Interaction>
    decreases |events|
  {
    if events == [] then ui
    else Replay(Step(ui, events[0].id, events[0].action, events[0].now), events[1..])
  }

  /** Every action keeps the map consistent. */
  lemma StepConsistent(ui: map<string, Interaction>, id: string, a: Action, now: int)
    requires Consistent(ui)
    ensures Consistent(Step(ui, id, a, now))
  {
  }

  /** Any sequence of actions keeps the map consistent. */
  lemma {:induction false} ReplayConsistent(ui: map<string, Interaction>, events: seq<Event>)
    requires Consistent(ui)
    ensures Consistent(Replay(ui, events))
    decreases |events|
  {
    if events != [] {
      StepConsistent(ui, events[0].id, events[0].action, events[0].now);
      ReplayConsistent(Step(ui, events[0].id, events[0].action, events[0].now), events[1..]);
    }
  }

  /** From the empty map, no sequence of actions makes an item both liked and disliked. */
  lemma NeverLikedAndDisliked(events: seq<Event>)
    ensures forall id :: id in Replay(map[], events) ==>
              !(Replay(map[], events)[id].isLiked && Replay(map[], events)[id].isDisliked)
  {
    ReplayConsistent(map[], events);
  }

  /** Toggling the wishlist twice restores the map, apart from creating the default record. */
  lemma WishlistTwice(ui: map<string, Interaction>, id: string, now1: int, now2: int)
    ensures Step(Step(ui, id, Wishlist, now1), id, Wishlist, now2)
         == ui[id := Current(ui, id, now1)]
  {
  }

  /** Liking twice restores the like flag; the dislike flag ends up cleared. */
  lemma LikeTwice(ui: map<string, Interaction>, id: string, now1: int, now2: int)
    ensures Step(Step(ui, id, Like, now1), id, Like, now2)
         == ui[id := Current(ui, id, now1).(isDisliked := false)]
  {
  }

  // ---------------------------------------------------------------------------
  // getFilteredContent

  /** `!f || value.toLowerCase() === f.toLowerCase()`. */
  predicate MatchesIgnoringCase(value: string, f: Option<string>) {
    !IsSet(f) || EqualsIgnoreCase(value, f.value)
  }

  /** The lower-cased query occurs in the title, the description or some tag. */
  predicate MatchesSearch(x: SwipContent, search: string) {
    search == ""
    || Includes(Lower(x.title), Lower(search))
    || Includes(Lower(x.description), Lower(search))
    || exists i :: 0 <= i < |x.tags| && Includes(Lower(x.tags[i]), Lower(search))
  }

  /** Every active filter of `f` accepts `x`. */
  predicate Keeps(f: StoreFilters, x: SwipContent) {
    MatchesIgnoringCase(x.category, f.category)
    && MatchesIgnoringCase(x.difficulty, f.difficulty)
    && (f.kind.AllTypes? || x.kind == f.kind.kind)
    && MatchesSearch(x, f.search)
  }

  /**
   * The filters compare without regard to case: lower-casing the search, the category or the
   * difficulty keeps exactly the same items, and an item's own category is matched whatever its case.
   */
  lemma KeepsIgnoresCase(f: StoreFilters, x: SwipContent)
    ensures Keeps(f.(search := Lower(f.search)), x) <==> Keeps(f, x)
    ensures f.category.Some? ==> (Keeps(f.(category := Some(Lower(f.category.value))), x) <==> Keeps(f, x))
    ensures f.difficulty.Some? ==> (Keeps(f.(difficulty := Some(Lower(f.difficulty.value))), x) <==> Keeps(f, x))
    ensures MatchesIgnoringCase(Lower(x.category), f.category) <==> MatchesIgnoringCase(x.category, f.category)
  {
    LowerIdempotent(f.search);
    LowerIdempotent(x.category);
    if f.category.Some? {
      LowerIdempotent(f.category.value);
    }
    if f.difficulty.Some? {
      LowerIdempotent(f.difficulty.value);
    }
  }

  /**
   * The content the filters accept, sorted by the sorting's key, newest,
   * most-liked or most-viewed first: a sub-multiset of `content` that holds
   * exactly the accepted items.
   */
  function FilteredContent(content: seq<SwipContent>, f: StoreFilters, sorting: SortOrder): (r: seq<SwipContent>)
    ensures multiset(r) <= multiset(content)
    ensures forall i :: 0 <= i < |r| ==> Keeps(f, r[i])
    ensures forall i :: 0 <= i < |content| && Keeps(f, content[i]) ==> content[i] in r
    ensures SortedDesc(r, SortKey(sorting))
  {
    FilterSortDesc(content, x => Keeps(f, x), SortKey(sorting))
  }

  /** Items with equal sort keys keep their order in `content`. */
  lemma FilteredContentStable(content: seq<SwipContent>, f: StoreFilters, sorting: SortOrder, k: int)
    ensures WithKey(FilteredContent(content, f, sorting), SortKey(sorting), k)
         == WithKey(Filter(content, x => Keeps(f, x)), SortKey(sorting), k)
  {
    SortDescStable(Filter(content, x => Keeps(f, x)), SortKey(sorting), k);
  }

  /** With the initial filters nothing is dropped: the result is a reordering of `content`. */
  lemma InitialFiltersKeepAll(content: seq<SwipContent>, sorting: SortOrder)
    ensures multiset(FilteredContent(content, InitialFilters, sorting)) == multiset(content)
  {
    FilterAll(content, x => Keeps(InitialFilters, x));
  }

  // ---------------------------------------------------------------------------
  // The store

  class Store {
    var content: seq<SwipContent>
    var filters: StoreFilters
    var sorting: SortOrder
    var userInteractions: map<string, Interaction>

    ghost predicate Valid()
      reads this
    {
      Consistent(userInteractions)
    }

    /** The store as created: the given content, initial filters, 'latest', no interactions. */
    constructor (content: seq<SwipContent>)
      ensures Valid()
      ensures this.content == content && filters == InitialFilters
      ensures sorting == Latest && userInteractions == map[]
    {
      this.content := content;
      filters := InitialFilters;
      sorting := Latest;
      userInteractions := map[];
    }

    /** Flips the like flag of `id` and clears its dislike flag. */
    method ToggleLike(id: string, now: int)
      requires Valid()
      modifies this`userInteractions
      ensures Valid()
      ensures var cur := Current(old(userInteractions), id, now);
              userInteractions == old(userInteractions)[id := cur.(isLiked := !cur.isLiked, isDisliked := false)]
    {
      userInteractions := Step(userInteractions, id, Like, now);
    }

    /** Flips the dislike flag of `id` and clears its like flag. */
    method ToggleDislike(id: string, now: int)
      requires Valid()
      modifies this`userInteractions
      ensures Valid()
      ensures var cur := Current(old(userInteractions), id, now);
              userInteractions == old(userInteractions)[id := cur.(isDisliked := !cur.isDisliked, isLiked := false)]
    {
      userInteractions := Step(userInteractions, id, Dislike, now);
    }

    /** Flips only the wishlist flag of `id`. */
    method ToggleWishlist(id: string, now: int)
      requires Valid()
      modifies this`userInteractions
      ensures Valid()
      ensures var cur := Current(old(userInteractions), id, now);
              userInteractions == old(userInteractions)[id := cur.(isWishlisted := !cur.isWishlisted)]
    {
      userInteractions := Step(userInteractions, id, Wishlist, now);
    }

    /** Flips the enrolment flag of `id` and stamps it as viewed now. */
    method ToggleEnrollment(id: string, now: int)
      requires Valid()
      modifies this`userInteractions
      ensures Valid()
      ensures var cur := Current(old(userInteractions), id, now);
              userInteractions == old(userInteractions)[id := cur.(isEnrolled := !cur.isEnrolled, lastViewed := now)]
    {
      userInteractions := Step(userInteractions, id, Enroll, now);
    }

    /** Stores the clamped progress of `id` and stamps it as viewed now. */
    method UpdateProgress(id: string, progress: int, now: int)
      requires Valid()
      modifies this`userInteractions
      ensures Valid()
      ensures id in userInteractions && 0 <= userInteractions[id].progress <= 100
      ensures var cur := Current(old(userInteractions), id, now);
              userInteractions == old(userInteractions)[id := cur.(progress := Clamp(progress), lastViewed := now)]
    {
      userInteractions := Step(userInteractions, id, Progress(progress), now);
    }

    /** Merges a partial filter record into the filters. */
    method SetFilter(patch: FilterPatch)
      modifies this`filters
      ensures filters == Merge(old(filters), patch)
    {
      filters := Merge(filters, patch);
    }

    /** Replaces the sorting. */
    method SetSorting(sorting: SortOrder)
      modifies this`sorting
      ensures this.sorting == sorting
    {
      this.sorting := sorting;
    }

    /** The current content under the current filters and sorting; the store is not changed. */
    method GetFilteredContent() returns (r: seq<SwipContent>)
      ensures multiset(r) <= multiset(content)
      ensures forall i :: 0 <= i < |r| ==> Keeps(filters, r[i])
      ensures forall i :: 0 <= i < |content| && Keeps(filters, content[i]) ==> content[i] in r
      ensures SortedDesc(r, SortKey(sorting))
    {
      r := FilteredContent(content, filters, sorting);
    }
  }
}
