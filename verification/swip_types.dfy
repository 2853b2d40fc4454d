/**
 * The learning-content record (`SwipContent`), the per-item interaction record
 * kept by the swips store, and the filter vocabulary shared by the stores and
 * the feeds.
 */
module SwipTypes {
  import opened Wrappers
  import opened Text

  /** `type`: a video, a card, or a note (the cards tab also admits notes). */
  datatype Kind = Video | Card | Note

  /** The `type` filter: `'all'` or one kind. */
  datatype TypeFilter = AllTypes | OnlyKind(kind: Kind)

  /** The `sorting` choice: `'latest' | 'popular' | 'trending'`. */
  datatype SortOrder = Latest | Popular | Trending

  /**
   * One item of learning content. `lastUpdated` is the ISO timestamp as an
   * integer, so that `new Date(b).getTime() - new Date(a).getTime()` is an
   * integer difference. Thumbnail, duration and video URL carry no logic.
   */
  datatype SwipContent = SwipContent(
    id: string,
    kind: Kind,
    title: string,
    description: string,
    category: string,
    likes: int,
    views: int,
    isWishlisted: bool,
    isEnrolled: bool,
    instructor: string,
    tags: seq<string>,
    noteId: Option<string>,
    difficulty: string,
    lastUpdated: int)

  /** A user's interaction with one item; `lastViewed` is a timestamp. */
  datatype Interaction = Interaction(
    isLiked: bool,
    isDisliked: bool,
    isWishlisted: bool,
    isEnrolled: bool,
    progress: int,
    lastViewed: int)

  /** The record an item without a stored interaction is treated as. */
  function DefaultInteraction(now: int): (r: Interaction)
    ensures !r.isLiked && !r.isDisliked && !r.isWishlisted && !r.isEnrolled
    ensures r.progress == 0 && r.lastViewed == now
  {
    Interaction(false, false, false, false, 0, now)
  }

  /** The sort key of each sorting: likes, views, or the last-update time. */
  function SortKey(s: SortOrder): SwipContent -> int {
    match s
    case Popular => (x: SwipContent) => x.likes
    case Trending => (x: SwipContent) => x.views
    case Latest => (x: SwipContent) => x.lastUpdated
  }

  /** JavaScript truthiness of a `string | null` filter value: set and non-empty. */
  predicate IsSet(f: Option<string>) {
    f.Some? && f.value != ""
  }

  /** The feeds' `filter` prop: `'all' | 'liked' | 'wishlisted' | 'enrolled'`. */
  datatype View = AllItems | LikedItems | WishlistedItems | EnrolledItems

  /**
   * `userInteractions[id]?.flag` for the flag the view selects; a missing
   * record gives `undefined`, which excludes the item.
   */
  predicate InView(ui: map<string, Interaction>, v: View, id: string) {
    match v
    case AllItems => true
    case LikedItems => id in ui && ui[id].isLiked
    case WishlistedItems => id in ui && ui[id].isWishlisted
    case EnrolledItems => id in ui && ui[id].isEnrolled
  }

  /**
   * The feeds' search: no (or an empty) query, or the lower-cased query occurs
   * in the lower-cased title or description.
   */
  predicate MatchesTitleOrDescription(x: SwipContent, search: string) {
    search == ""
    || Includes(Lower(x.title), Lower(search))
    || Includes(Lower(x.description), Lower(search))
  }

  /** `!f || value === f`: an exact, case-sensitive facet match. */
  predicate MatchesExactly(value: string, f: Option<string>) {
    !IsSet(f) || value == f.value
  }
}
