/**
 * The notes section: the notes ordered by last modification, the note being
 * read, the slide cursor with its previous/next buttons and auto-play tick,
 * and the progress written back to the notes store when the slide changes.
 * Each effect is modelled by one run: `ReportProgress` is one write of the
 * progress effect and `AutoPlayTick` one tick of the interval.
 */
module NotesSection {
  import opened Wrappers
  import opened Sorting
  import opened NotesStore

  const LastModified: Note -> int := (n: Note) => n.lastModified

  /** `notesList`: the stored notes, most recently modified first; ties keep their stored order. */
  function NotesList(values: seq<Note>): (r: seq<Note>)
    ensures multiset(r) == multiset(values)
    ensures SortedDesc(r, LastModified)
  {
    SortDesc(values, LastModified)
  }

  /** Every stored note appears in `notesList`, and nothing else does. */
  lemma NotesListHoldsEveryNote(notes: map<string, Note>, order: seq<string>)
    requires forall i :: 0 <= i < |order| ==> order[i] in notes
    requires forall k :: k in notes ==> k in order
    ensures forall k :: k in notes ==> notes[k] in NotesList(ValuesIn(notes, order))
    ensures forall n :: n in NotesList(ValuesIn(notes, order)) ==> exists k :: k in notes && notes[k] == n
  {
    var values := ValuesIn(notes, order);
    var list := NotesList(values);
    forall k | k in notes ensures notes[k] in list {
      var i :| 0 <= i < |order| && order[i] == k;
      assert values[i] == notes[k];
      assert notes[k] in multiset(values);
    }
    forall n | n in list ensures exists k :: k in notes && notes[k] == n {
      assert n in multiset(values) by { assert n in multiset(list); }
      var i :| 0 <= i < |values| && values[i] == n;
      assert notes[order[i]] == n;
    }
  }

  /** JavaScript truthiness of a `string | null` id: present and non-empty. */
  predicate IsSetId(id: Option<string>) {
    id.Some? && id.value != ""
  }

  /**
   * `currentNote`: with an id set (a non-empty string), the note stored under
   * it, if any; otherwise the first note of the list, if any.
   */
  function CurrentNote(notes: map<string, Note>, currentNoteId: Option<string>, list: seq<Note>): (r: Option<Note>)
    ensures IsSetId(currentNoteId) ==>
              (r.Some? <==> currentNoteId.value in notes) && (r.Some? ==> r.value == notes[currentNoteId.value])
    ensures !IsSetId(currentNoteId) ==>
              (r.Some? <==> list != []) && (r.Some? ==> r.value == list[0])
  {
    if IsSetId(currentNoteId) then
      (if currentNoteId.value in notes then Some(notes[currentNoteId.value]) else None)
    else if list != [] then Some(list[0])
    else None
  }

  /** The previous-slide button: one back, never below the first slide. */
  function PrevSlide(s: int): (r: int)
    ensures s > 0 ==> r == s - 1
    ensures s <= 0 ==> r == 0
  {
    if s - 1 > 0 then s - 1 else 0
  }

  /** The next-slide button: one forward, never past the last slide. */
  function NextSlide(s: int, total: int): (r: int)
    ensures s < total - 1 ==> r == s + 1
    ensures s >= total - 1 ==> r == total - 1
  {
    if total - 1 < s + 1 then total - 1 else s + 1
  }

  /** Within a note of at least one slide, both buttons keep the cursor on a slide. */
  lemma ButtonsStayInRange(s: int, total: int)
    requires 0 <= s < total
    ensures 0 <= PrevSlide(s) < total
    ensures 0 <= NextSlide(s, total) < total
  {
  }

  /** Previous undoes next, except at the last slide. */
  lemma PrevAfterNext(s: int, total: int)
    requires 0 <= s < total - 1
    ensures PrevSlide(NextSlide(s, total)) == s
  {
  }

  /** The auto-play state: slide cursor and whether auto-play is on. */
  datatype Play = Play(slide: int, autoPlay: bool)

  /** One auto-play tick: advance while not at the last slide, otherwise switch auto-play off and stay. */
  function AutoTick(p: Play, total: int): (r: Play)
    ensures p.slide < total - 1 ==> r == Play(p.slide + 1, p.autoPlay)
    ensures p.slide >= total - 1 ==> r == Play(p.slide, false)
  {
    if p.slide < total - 1 then p.(slide := p.slide + 1) else p.(autoPlay := false)
  }

  function AutoTicks(p: Play, k: nat, total: int): Play {
    if k == 0 then p else AutoTick(AutoTicks(p, k - 1, total), total)
  }

  /** Started on slide `s` of `total`, auto-play reaches the last slide after `total - 1 - s` ticks and stops on the next. */
  lemma {:induction false} AutoPlayRunsToEnd(s: int, total: int, k: nat)
    requires 0 <= s < total && k <= total - 1 - s
    ensures AutoTicks(Play(s, true), k, total) == Play(s + k, true)
    ensures k == total - 1 - s ==> AutoTicks(Play(s, true), k + 1, total) == Play(total - 1, false)
  {
    if k > 0 {
      AutoPlayRunsToEnd(s, total, k - 1);
    }
  }

  // ---------------------------------------------------------------------------
  // Progress written back to the store

  /**
   * As written, the section reports the 0-based slide index, so the last slide
   * of a note with fewer than 200 slides never rounds to 100%: the note can
   * never become 'completed'.
   */
  lemma {:induction false} ProgressAsWrittenNeverCompletes(s: int, t: int)
    requires 1 <= t < 200 && 0 <= s < t
    ensures RoundPercent(s, t) != Pct(100)
  {
    RoundPercentIsHundred(s, t);
    assert 200 * s <= 200 * (t - 1) by { MulMono(200, s, t - 1); }
  }

  /** The concrete case: the last slide of a three-slide note is stored as 67%, 'in-progress'. */
  lemma ProgressAsWrittenExample(n: Note)
    requires n.totalSlides == 3
    ensures WithProgress(n, 2).progress == Pct(67)
    ensures WithProgress(n, 2).status == InProgress
  {
  }

  /**
   * The progress for viewing slide `s` as evidently intended: the number of
   * slides seen, `s + 1`, out of the total, which is also the percentage the
   * slide header displays. Only progress and status change.
   */
  function ViewedProgress(n: Note, s: int): (r: Note)
    ensures r.progress == RoundPercent(s + 1, n.totalSlides)
    ensures r.status == Completed <==> r.progress == Pct(100)
    ensures r.(progress := n.progress, status := n.status) == n
  {
    WithProgress(n, s + 1)
  }

  /** With the slides seen counted, the last slide completes the note. */
  lemma {:induction false} LastSlideCompletes(n: Note)
    requires n.totalSlides >= 1
    ensures ViewedProgress(n, n.totalSlides - 1).progress == Pct(100)
    ensures ViewedProgress(n, n.totalSlides - 1).status == Completed
  {
    RoundPercentIsHundred(n.totalSlides, n.totalSlides);
  }

  /** On a slide of the note, the corrected progress is a percentage between 0 and 100. */
  lemma {:induction false} ViewedProgressInRange(n: Note, s: int)
    requires 0 <= s < n.totalSlides
    ensures 0 <= ViewedProgress(n, s).progress.value <= 100
  {
    RoundPercentInRange(s + 1, n.totalSlides);
  }

  /** The section's own state. */
  class Section {
    var currentSlide: int
    var isAutoPlay: bool

    constructor ()
      ensures currentSlide == 0 && !isAutoPlay
    {
      currentSlide, isAutoPlay := 0, false;
    }

    method Previous()
      modifies this`currentSlide
      ensures currentSlide == PrevSlide(old(currentSlide))
    {
      currentSlide := PrevSlide(currentSlide);
    }

    /** The next button on a note of `total` slides. */
    method Next(total: int)
      modifies this`currentSlide
      ensures currentSlide == NextSlide(old(currentSlide), total)
      ensures 0 <= old(currentSlide) < total ==> 0 <= currentSlide < total
    {
      currentSlide := NextSlide(currentSlide, total);
    }

    /** The auto-play interval firing on a note of `total` slides. */
    method AutoPlayTick(total: int)
      requires isAutoPlay
      modifies this`currentSlide, this`isAutoPlay
      ensures Play(currentSlide, isAutoPlay) == AutoTick(Play(old(currentSlide), old(isAutoPlay)), total)
    {
      var p := AutoTick(Play(currentSlide, isAutoPlay), total);
      currentSlide, isAutoPlay := p.slide, p.autoPlay;
    }

    method ToggleAutoPlay()
      modifies this`isAutoPlay
      ensures isAutoPlay == !old(isAutoPlay)
    {
      isAutoPlay := !isAutoPlay;
    }

    /** `handleNoteSelect`: the note becomes current and reading restarts at the first slide. */
    method SelectNote(store: NotesStore.Store, id: string)
      modifies this`currentSlide, store`currentNoteId
      ensures store.currentNoteId == Some(id) && currentSlide == 0
    {
      store.SetCurrentNote(Some(id));
      currentSlide := 0;
    }

    /** With no current note id (none, or the empty one) and a non-empty list, the first note of the list becomes current. */
    method SelectDefault(store: NotesStore.Store)
      requires store.Valid()
      modifies store`currentNoteId
      ensures !IsSetId(old(store.currentNoteId)) && |store.order| > 0 ==>
                store.currentNoteId == Some(NotesList(store.Values())[0].id)
      ensures !(!IsSetId(old(store.currentNoteId)) && |store.order| > 0) ==> store.currentNoteId == old(store.currentNoteId)
    {
      if !IsSetId(store.currentNoteId) && |store.order| > 0 {
        var list := NotesList(store.Values());
        store.SetCurrentNote(Some(list[0].id));
      }
    }

    /**
     * The slide change reported to the store for the note being read, with the
     * number of slides seen (the corrected progress).
     */
    method ReportProgress(store: NotesStore.Store, note: Note)
      requires store.Valid()
      modifies store`notes
      ensures store.Valid()
      ensures note.id in old(store.notes) ==>
                store.notes == old(store.notes)[note.id := ViewedProgress(old(store.notes)[note.id], currentSlide)]
      ensures note.id !in old(store.notes) ==> store.notes == old(store.notes)
    {
      store.UpdateNoteProgress(note.id, currentSlide + 1);
    }
  }
}
