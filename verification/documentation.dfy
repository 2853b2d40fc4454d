/**
 * The documentation page for a topic: the filtered item that points at the
 * topic's note, the note itself, the interaction record the page shows, and
 * the name of the downloaded notes file.
 */
module Documentation {
  import opened Wrappers
  import opened Text
  import opened SwipTypes
  import SS = SwipsStore
  import NS = NotesStore

  /** `item.noteId === topicId`: both present and equal (a missing `topicId` matches nothing). */
  predicate NoteMatches(x: SwipContent, topicId: Option<string>) {
    topicId.Some? && x.noteId == topicId
  }

  /** The position of the first item from `k` on that points at the topic. */
  function FindFrom(items: seq<SwipContent>, topicId: Option<string>, k: nat): (r: Option<nat>)
    requires k <= |items|
    ensures r.None? <==> forall i :: k <= i < |items| ==> !NoteMatches(items[i], topicId)
    ensures r.Some? ==> k <= r.value < |items| && NoteMatches(items[r.value], topicId)
    ensures r.Some? ==> forall i :: k <= i < r.value ==> !NoteMatches(items[i], topicId)
    decreases |items| - k
  {
    if k == |items| then None
    else if NoteMatches(items[k], topicId) then Some(k)
    else FindFrom(items, topicId, k + 1)
  }

  /** `find(item => item.noteId === topicId)`: the first item pointing at the topic, if any. */
  function FindByNote(items: seq<SwipContent>, topicId: Option<string>): (r: Option<SwipContent>)
    ensures r.None? <==> forall i :: 0 <= i < |items| ==> !NoteMatches(items[i], topicId)
    ensures r.Some? ==> NoteMatches(r.value, topicId)
    ensures r.Some? ==> exists i :: 0 <= i < |items| && items[i] == r.value
                                    && forall j :: 0 <= j < i ==> !NoteMatches(items[j], topicId)
  {
    match FindFrom(items, topicId, 0)
    case None => None
    case Some(i) => Some(items[i])
  }

  /** `topicId ? notes[topicId] : null`: the note stored under a non-empty topic id, if any. */
  function TopicNote(notes: map<string, NS.Note>, topicId: Option<string>): (r: Option<NS.Note>)
    ensures r.Some? <==> IsSet(topicId) && topicId.value in notes
    ensures r.Some? ==> r.value == notes[topicId.value]
  {
    if IsSet(topicId) && topicId.value in notes then Some(notes[topicId.value]) else None
  }

  /** The part of an interaction record the page reads: the wishlist flag, the enrolment flag and the progress. */
  datatype Shown = Shown(isWishlisted: bool, isEnrolled: bool, progress: int)

  /** The stored record for the item, or the item's own flags with no progress when there is none. */
  function ShownInteraction(ui: map<string, Interaction>, x: SwipContent): (r: Shown)
    ensures x.id in ui ==> r == Shown(ui[x.id].isWishlisted, ui[x.id].isEnrolled, ui[x.id].progress)
    ensures x.id !in ui ==> r == Shown(x.isWishlisted, x.isEnrolled, 0)
  {
    if x.id in ui then Shown(ui[x.id].isWishlisted, ui[x.id].isEnrolled, ui[x.id].progress)
    else Shown(x.isWishlisted, x.isEnrolled, 0)
  }

  /** What the page renders. */
  datatype Page = TopicNotFound | Topic(content: SwipContent, note: NS.Note, shown: Shown)

  /**
   * The page for `topicId` over the swips store's filtered content: "Topic Not
   * Found" unless both an item pointing at the topic and the topic's note
   * exist; otherwise that item, that note and the interaction shown for it.
   */
  function PageOf(content: seq<SwipContent>, f: SS.StoreFilters, sorting: SortOrder,
                  ui: map<string, Interaction>, notes: map<string, NS.Note>, topicId: Option<string>): (p: Page)
    ensures p.TopicNotFound? <==>
              FindByNote(SS.FilteredContent(content, f, sorting), topicId).None? || TopicNote(notes, topicId).None?
    ensures p.Topic? ==> p.content in content && SS.Keeps(f, p.content) && p.content.noteId == topicId
    ensures p.Topic? ==> topicId.value in notes && p.note == notes[topicId.value]
    ensures p.Topic? ==> p.shown == ShownInteraction(ui, p.content)
  {
    var items := SS.FilteredContent(content, f, sorting);
    match (FindByNote(items, topicId), TopicNote(notes, topicId))
    case (Some(x), Some(n)) =>
      assert x in multiset(items);
      Topic(x, n, ShownInteraction(ui, x))
    case _ => TopicNotFound
  }

  /** Without a topic id in the address, or with an empty one, the page is "Topic Not Found". */
  lemma NoTopicNotFound(content: seq<SwipContent>, f: SS.StoreFilters, sorting: SortOrder,
                        ui: map<string, Interaction>, notes: map<string, NS.Note>, topicId: Option<string>)
    requires !IsSet(topicId)
    ensures PageOf(content, f, sorting, ui, notes, topicId) == TopicNotFound
  {
  }

  /** An item the store's filters hide cannot be the page's item: hiding every item of the topic gives "Topic Not Found". */
  lemma HiddenTopicNotFound(content: seq<SwipContent>, f: SS.StoreFilters, sorting: SortOrder,
                            ui: map<string, Interaction>, notes: map<string, NS.Note>, topicId: Option<string>)
    requires forall i :: 0 <= i < |content| && NoteMatches(content[i], topicId) ==> !SS.Keeps(f, content[i])
    ensures PageOf(content, f, sorting, ui, notes, topicId) == TopicNotFound
  {
    var items := SS.FilteredContent(content, f, sorting);
    forall i | 0 <= i < |items| ensures !NoteMatches(items[i], topicId) {
      assert items[i] in multiset(items);
      var j :| 0 <= j < |content| && content[j] == items[i];
    }
  }

  /** Lower-case ASCII and free of whitespace. */
  predicate IsSlug(s: string) {
    Lower(s) == s && forall i :: 0 <= i < |s| ==> !IsSpace(s[i])
  }

  /** `title.toLowerCase().replace(/\s+/g, '-')`. */
  function Slug(title: string): (r: string)
    ensures IsSlug(r)
    ensures |r| <= |title|
  {
    var r := ReplaceSpaceRuns(Lower(title));
    forall i | 0 <= i < |r| ensures LowerChar(r[i]) == r[i] {
      if r[i] != '-' {
        var j :| 0 <= j < |title| && Lower(title)[j] == r[i];
      }
    }
    r
  }

  /** Slugging a slug changes nothing. */
  lemma {:induction false} SlugIdempotent(title: string)
    ensures Slug(Slug(title)) == Slug(title)
  {
    ReplaceSpaceRunsNoSpace(Slug(title));
  }

  /** The download name: the title's slug followed by `-notes.txt`. */
  function DownloadName(title: string): (r: string)
    ensures |r| >= 10 && r[|r| - 10..] == "-notes.txt"
    ensures IsSlug(r[..|r| - 10])
  {
    var r := Slug(title) + "-notes.txt";
    assert r[..|r| - 10] == Slug(title);
    r
  }

  /** The name of a title that is already a slug is that title with the suffix. */
  lemma {:induction false} SlugTitleKept(title: string)
    requires IsSlug(title)
    ensures DownloadName(title) == title + "-notes.txt"
  {
    ReplaceSpaceRunsNoSpace(title);
  }
}
