/**
 * The video feed: the videos of a view that pass the filter store's search,
 * category and difficulty, sorted by its `sorting`, shown one at a time with a
 * cursor that swipes move within the list and that stops playback.
 */
module VideoFeed {
  import opened Wrappers
  import opened Sorting
  import opened SwipTypes
  import opened Feeds
  import FS = FilterStore

  /** `sortedVideos`: the filtered videos of the view, sorted by the store's `sorting`. */
  function SortedVideos(content: seq<SwipContent>, ui: map<string, Interaction>, view: View, f: FS.FilterState)
    : (r: seq<SwipContent>)
    ensures multiset(r) <= multiset(content)
    ensures forall i :: 0 <= i < |r| ==> FeedKeeps(ui, Video, view, FeedFilters(f.search, f.category, f.difficulty), r[i])
    ensures forall i :: 0 <= i < |content|
              && FeedKeeps(ui, Video, view, FeedFilters(f.search, f.category, f.difficulty), content[i])
              ==> content[i] in r
    ensures SortedDesc(r, SortKey(f.sorting))
  {
    FeedItems(content, ui, Video, view, FeedFilters(f.search, f.category, f.difficulty), f.sorting)
  }

  /** What the feed renders: the "No videos available" message, or the player for one video. */
  datatype Screen = NoVideos | Player(video: SwipContent, interaction: Option<Interaction>)

  /** The screen for the cursor; the interaction record is the stored one, absent if there is none. */
  function ScreenOf(videos: seq<SwipContent>, ui: map<string, Interaction>, index: int): (s: Screen)
    ensures s.NoVideos? <==> !(0 <= index < |videos|)
    ensures s.Player? ==> s.video == videos[index]
    ensures s.Player? ==> (s.interaction.Some? <==> videos[index].id in ui)
    ensures s.Player? && s.interaction.Some? ==> s.interaction.value == ui[videos[index].id]
  {
    match ItemAt(videos, index)
    case None => NoVideos
    case Some(v) => Player(v, if v.id in ui then Some(ui[v.id]) else None)
  }

  /**
   * The cursor is not moved back when the list shrinks: with the cursor at or
   * past the new end, the message is shown even though videos match.
   */
  lemma StaleCursorHidesVideos(videos: seq<SwipContent>, ui: map<string, Interaction>, index: int)
    requires 0 < |videos| <= index
    ensures ScreenOf(videos, ui, index) == NoVideos
  {
  }

  /** The feed's own state: cursor, playback and sound. */
  class Feed {
    var currentIndex: int
    var isPlaying: bool
    var isMuted: bool

    constructor ()
      ensures currentIndex == 0 && !isPlaying && isMuted
    {
      currentIndex, isPlaying, isMuted := 0, false, true;
    }

    /**
     * `handleSwipe` over a list of `n` videos: playback stops, and the cursor
     * moves one step within the list.
     */
    method HandleSwipe(dir: Direction, n: int)
      modifies this`currentIndex, this`isPlaying
      ensures !isPlaying
      ensures currentIndex == BoundedStep(old(currentIndex), dir, n)
      ensures 0 <= old(currentIndex) < n ==> 0 <= currentIndex < n
    {
      isPlaying := false;
      currentIndex := BoundedStep(currentIndex, dir, n);
    }

    method TogglePlaying()
      modifies this`isPlaying
      ensures isPlaying == !old(isPlaying)
    {
      isPlaying := !isPlaying;
    }

    method ToggleMuted()
      modifies this`isMuted
      ensures isMuted == !old(isMuted)
    {
      isMuted := !isMuted;
    }
  }
}
