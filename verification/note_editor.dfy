/**
 * The note editor: a form holding title, category, description and slides,
 * started from a stored note or from blanks, whose slides are appended and
 * edited one field at a time, and which on submit either creates a note or
 * updates the stored one.
 */
module NoteEditor {
  import opened Wrappers
  import opened Text
  import opened NotesStore

  /** The slide a new form starts with. */
  const FirstSlide := Slide(1, "", "")

  /** The two editable fields of a slide. */
  datatype SlideField = TitleField | ContentField

  /** The slide list the form starts from: the note's own list when it has one, otherwise one empty slide. */
  function InitialSlides(note: Option<Note>): (r: seq<Slide>)
    ensures note.Some? && note.value.slides.Some? ==> r == note.value.slides.value
    ensures !(note.Some? && note.value.slides.Some?) ==> r == [FirstSlide]
  {
    if note.Some? && note.value.slides.Some? then note.value.slides.value else [FirstSlide]
  }

  /** The note the editor opens: with an id given (a non-empty string), the note stored under it, if any. */
  function EditedNote(notes: map<string, Note>, noteId: Option<string>): (r: Option<Note>)
    ensures r.Some? <==> noteId.Some? && noteId.value != "" && noteId.value in notes
    ensures r.Some? ==> r.value == notes[noteId.value]
  {
    if noteId.Some? && noteId.value != "" && noteId.value in notes then Some(notes[noteId.value]) else None
  }

  /** The slides after "Add Slide": one empty slide appended, numbered one past the old length. */
  function SlideAdded(slides: seq<Slide>): (r: seq<Slide>)
    ensures |r| == |slides| + 1
    ensures r[..|slides|] == slides
    ensures r[|slides|] == Slide(|slides| + 1, "", "")
  {
    slides + [Slide(|slides| + 1, "", "")]
  }

  /** The slides after editing field `field` of slide `index`: that field alone changes; an index off the list changes nothing. */
  function SlideUpdated(slides: seq<Slide>, index: int, field: SlideField, value: string): (r: seq<Slide>)
    ensures |r| == |slides|
    ensures forall i :: 0 <= i < |r| && i != index ==> r[i] == slides[i]
    ensures 0 <= index < |r| ==> r[index].id == slides[index].id
    ensures 0 <= index < |r| && field == TitleField ==> r[index] == slides[index].(title := value)
    ensures 0 <= index < |r| && field == ContentField ==> r[index] == slides[index].(content := value)
  {
    seq(|slides|, i requires 0 <= i < |slides| =>
      if i != index then slides[i]
      else if field == TitleField then slides[i].(title := value)
      else slides[i].(content := value))
  }

  /** Slides numbered 1, 2, 3, … in order. */
  predicate Numbered(slides: seq<Slide>) {
    forall i :: 0 <= i < |slides| ==> slides[i].id == i + 1
  }

  /** A new form's slides are numbered, and adding and editing slides keeps them numbered. */
  lemma NumberingKept(slides: seq<Slide>, index: int, field: SlideField, value: string)
    ensures Numbered([FirstSlide])
    ensures Numbered(slides) ==> Numbered(SlideAdded(slides))
    ensures Numbered(slides) ==> Numbered(SlideUpdated(slides, index, field, value))
  {
  }

  /** The id a new note gets: `note-` followed by the creation time in decimal. */
  function NewNoteId(now: nat): (r: string)
    ensures |r| > 5 && r[..5] == "note-"
    ensures forall i :: 5 <= i < |r| ==> IsDigit(r[i])
    ensures DigitsValue(r[5..]) == now
  {
    DigitsValueOfNatToString(now);
    assert ("note-" + NatToString(now))[5..] == NatToString(now);
    "note-" + NatToString(now)
  }

  /** Two notes created at different times get different ids. */
  lemma NewNoteIdsDiffer(a: nat, b: nat)
    requires a != b
    ensures NewNoteId(a) != NewNoteId(b)
  {
  }

  /**
   * The note "Create Note" builds: the form's text and slides, as many slides
   * counted as the form holds, no progress, 'in-progress', a five-minute read.
   */
  function NewNote(title: string, category: string, content: string, slides: seq<Slide>, now: nat): (r: Note)
    ensures r.id == NewNoteId(now)
    ensures r.title == title && r.category == category && r.content == content
    ensures r.slides == Some(slides) && r.totalSlides == |slides|
    ensures r.progress == Pct(0) && r.status == InProgress
    ensures r.lastModified == now && r.readTime == "5 min"
  {
    Note(NewNoteId(now), title, content, category, |slides|, Pct(0), now, "5 min", InProgress, Some(slides))
  }

  /** The update "Save Changes" merges into the stored note: text, slides, slide count and time; nothing else. */
  function EditUpdate(title: string, category: string, content: string, slides: seq<Slide>, now: nat): (u: NoteUpdate)
    ensures u.id.None? && u.progress.None? && u.status.None? && u.readTime.None?
    ensures u.title == Some(title) && u.category == Some(category) && u.content == Some(content)
    ensures u.slides == Some(Some(slides)) && u.totalSlides == Some(|slides|) && u.lastModified == Some(now)
  {
    NoteUpdate(None, Some(title), Some(content), Some(category), Some(|slides|), None, Some(now), None, None,
               Some(Some(slides)))
  }

  /** Saving an edit keeps the note's id, progress, status and read time, and takes everything else from the form. */
  lemma EditKeepsProgress(n: Note, title: string, category: string, content: string, slides: seq<Slide>, now: nat)
    ensures MergeNote(n, EditUpdate(title, category, content, slides, now))
              == n.(title := title, category := category, content := content, slides := Some(slides),
                    totalSlides := |slides|, lastModified := now)
  {
  }

  /** The editor's form. */
  class Editor {
    var title: string
    var category: string
    var content: string
    var slides: seq<Slide>

    /** The form for `noteId` (an edit) or for no id (a new note). */
    constructor (notes: map<string, Note>, noteId: Option<string>)
      ensures EditedNote(notes, noteId).Some? ==>
                var n := EditedNote(notes, noteId).value;
                title == n.title && category == n.category && content == n.content
      ensures EditedNote(notes, noteId).None? ==> title == "" && category == "" && content == ""
      ensures slides == InitialSlides(EditedNote(notes, noteId))
    {
      var note := EditedNote(notes, noteId);
      if note.Some? {
        title, category, content := note.value.title, note.value.category, note.value.content;
      } else {
        title, category, content := "", "", "";
      }
      slides := InitialSlides(note);
    }

    method SetTitle(value: string)
      modifies this`title
      ensures title == value
    {
      title := value;
    }

    method SetCategory(value: string)
      modifies this`category
      ensures category == value
    {
      category := value;
    }

    method SetContent(value: string)
      modifies this`content
      ensures content == value
    {
      content := value;
    }

    /** `addSlide`. */
    method AddSlide()
      modifies this`slides
      ensures slides == SlideAdded(old(slides))
    {
      slides := slides + [Slide(|slides| + 1, "", "")];
    }

    /** `updateSlide`. */
    method UpdateSlide(index: int, field: SlideField, value: string)
      modifies this`slides
      ensures slides == SlideUpdated(old(slides), index, field, value)
    {
      if 0 <= index < |slides| {
        var s := slides[index];
        slides := slides[index := if field == TitleField then s.(title := value) else s.(content := value)];
      }
    }

    /**
     * `handleSubmit` at time `now`: without an id (or with the empty one) a new
     * note is added; otherwise the form is merged into the note stored under
     * the id.
     */
    method HandleSubmit(store: NotesStore.Store, noteId: Option<string>, now: nat)
      requires store.Valid()
      modifies store`notes, store`order
      ensures store.Valid()
      ensures !(noteId.Some? && noteId.value != "") ==>
                var n := NewNote(title, category, content, slides, now);
                store.notes == old(store.notes)[n.id := n]
      ensures noteId.Some? && noteId.value != "" && noteId.value in old(store.notes) ==>
                store.notes == old(store.notes)[noteId.value :=
                  MergeNote(old(store.notes)[noteId.value], EditUpdate(title, category, content, slides, now))]
      ensures noteId.Some? && noteId.value != "" && noteId.value !in old(store.notes) ==>
                store.notes == old(store.notes)[noteId.value :=
                  MergeNote(BlankNote(noteId.value), EditUpdate(title, category, content, slides, now))]
    {
      if !(noteId.Some? && noteId.value != "") {
        store.AddNote(NewNote(title, category, content, slides, now));
      } else {
        store.UpdateNote(noteId.value, EditUpdate(title, category, content, slides, now));
      }
    }
  }
}
