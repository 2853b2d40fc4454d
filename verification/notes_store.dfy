/**
 * The notes store: a record of notes keyed by id, the id of the note being
 * read, and the progress/status recomputation run when a slide is viewed.
 */
module NotesStore {
  import opened Wrappers

  datatype Status = Completed | Updated | InProgress

  /**
   * A stored progress percentage. `Math.round(slideIndex / totalSlides * 100)`
   * is not a finite number when `totalSlides` is 0 (NaN or Infinity).
   */
  datatype Percent = Pct(value: int) | NonFinite

  datatype Slide = Slide(id: int, title: string, content: string)

  /** One note; `lastModified` is a timestamp. */
  datatype Note = Note(
    id: string,
    title: string,
    content: string,
    category: string,
    totalSlides: int,
    progress: Percent,
    lastModified: int,
    readTime: string,
    status: Status,
    slides: Option<seq<Slide>>)

  /** `Partial<Note>`: each field absent, or its new value (`slides` may be set to `undefined`). */
  datatype NoteUpdate = NoteUpdate(
    id: Option<string>,
    title: Option<string>,
    content: Option<string>,
    category: Option<string>,
    totalSlides: Option<int>,
    progress: Option<Percent>,
    lastModified: Option<int>,
    readTime: Option<string>,
    status: Option<Status>,
    slides: Option<Option<seq<Slide>>>)

  /** `{ ...note, ...updates }`: present fields replace, absent ones are kept. */
  function MergeNote(n: Note, u: NoteUpdate): (r: Note)
    ensures u.id.None? ==> r.id == n.id
    ensures u.title.None? ==> r.title == n.title
    ensures u.content.None? ==> r.content == n.content
    ensures u.category.None? ==> r.category == n.category
    ensures u.totalSlides.None? ==> r.totalSlides == n.totalSlides
    ensures u.progress.None? ==> r.progress == n.progress
    ensures u.lastModified.None? ==> r.lastModified == n.lastModified
    ensures u.readTime.None? ==> r.readTime == n.readTime
    ensures u.status.None? ==> r.status == n.status
    ensures u.slides.None? ==> r.slides == n.slides
    ensures u.id.Some? ==> r.id == u.id.value
    ensures u.title.Some? ==> r.title == u.title.value
    ensures u.content.Some? ==> r.content == u.content.value
    ensures u.category.Some? ==> r.category == u.category.value
    ensures u.totalSlides.Some? ==> r.totalSlides == u.totalSlides.value
    ensures u.progress.Some? ==> r.progress == u.progress.value
    ensures u.lastModified.Some? ==> r.lastModified == u.lastModified.value
    ensures u.readTime.Some? ==> r.readTime == u.readTime.value
    ensures u.status.Some? ==> r.status == u.status.value
    ensures u.slides.Some? ==> r.slides == u.slides.value
  {
    Note(
      u.id.GetOr(n.id),
      u.title.GetOr(n.title),
      u.content.GetOr(n.content),
      u.category.GetOr(n.category),
      u.totalSlides.GetOr(n.totalSlides),
      u.progress.GetOr(n.progress),
      u.lastModified.GetOr(n.lastModified),
      u.readTime.GetOr(n.readTime),
      u.status.GetOr(n.status),
      u.slides.GetOr(n.slides))
  }

  /** An update with no fields changes nothing. */
  lemma MergeNothing(n: Note)
    ensures MergeNote(n, NoteUpdate(None, None, None, None, None, None, None, None, None, None)) == n
  {
  }

  /** The record an update of an unknown id is merged into. */
  function BlankNote(id: string): Note {
    Note(id, "", "", "", 0, Pct(0), 0, "", InProgress, None)
  }

  lemma DivBounds(p: int, q: int)
    requires q > 0
    ensures q * (p / q) <= p < q * (p / q) + q
  {
  }

  /**
   * `Math.round(s / t * 100)` in exact arithmetic: the integer nearest to
   * 100·s/t, halves rounded up; not finite when t is 0.
   */
  function RoundPercent(s: int, t: int): (r: Percent)
    ensures r.Pct? <==> t != 0
    ensures t > 0 ==> 2 * t * r.value <= 200 * s + t < 2 * t * r.value + 2 * t
    ensures t < 0 ==> 2 * t * r.value >= 200 * s + t > 2 * t * r.value + 2 * t
  {
    if t == 0 then NonFinite
    else if t > 0 then
      DivBounds(200 * s + t, 2 * t);
      Pct((200 * s + t) / (2 * t))
    else
      DivBounds(-(200 * s + t), -2 * t);
      Pct((-(200 * s + t)) / (-2 * t))
  }

  /** Two integers that both satisfy the rounding bounds are equal. */
  lemma {:induction false} RoundingUnique(x: int, q: int, a: int, b: int)
    requires q > 0
    requires q * a <= x < q * a + q
    requires q * b <= x < q * b + q
    ensures a == b
  {
    if a < b {
      assert q * (b - a) >= q * 1 by { MulMono(q, 1, b - a); }
      assert false;
    } else if b < a {
      assert q * (a - b) >= q * 1 by { MulMono(q, 1, a - b); }
      assert false;
    }
  }

  lemma MulMono(q: int, x: int, y: int)
    requires q > 0 && x <= y
    ensures q * x <= q * y
  {
  }

  /** For 0 ≤ s ≤ t the percentage lies in [0, 100]. */
  lemma {:induction false} RoundPercentInRange(s: int, t: int)
    requires 0 <= s <= t && t > 0
    ensures 0 <= RoundPercent(s, t).value <= 100
  {
    var v := RoundPercent(s, t).value;
    assert 2 * t * (v + 1) == 2 * t * v + 2 * t;
    MulLess(2 * t, 0, v + 1);
    assert 2 * t * 101 == 202 * t;
    MulLess(2 * t, v, 101);
  }

  /** A positive factor can be cancelled from a strict inequality. */
  lemma MulLess(q: int, x: int, y: int)
    requires q > 0 && q * x < q * y
    ensures x < y
  {
    if x >= y {
      MulMono(q, y, x);
    }
  }

  /** The percentage is exactly 100 when 199·t ≤ 200·s < 201·t (t > 0). */
  lemma {:induction false} RoundPercentIsHundred(s: int, t: int)
    requires t > 0
    ensures RoundPercent(s, t) == Pct(100) <==> 199 * t <= 200 * s < 201 * t
  {
    var v := RoundPercent(s, t).value;
    if 199 * t <= 200 * s < 201 * t {
      RoundingUnique(200 * s + t, 2 * t, v, 100);
    }
  }

  /** 'completed' exactly when the percentage is 100, 'in-progress' otherwise. */
  function StatusFor(p: Percent): (st: Status)
    ensures st == Completed <==> p == Pct(100)
    ensures st == InProgress <==> p != Pct(100)
  {
    if p == Pct(100) then Completed else InProgress
  }

  /** The note after viewing slide `slideIndex`: only progress and status change. */
  function WithProgress(n: Note, slideIndex: int): (r: Note)
    ensures r.progress == RoundPercent(slideIndex, n.totalSlides)
    ensures r.status == Completed <==> r.progress == Pct(100)
    ensures r.status != Updated
    ensures r.(progress := n.progress, status := n.status) == n
  {
    var p := RoundPercent(slideIndex, n.totalSlides);
    n.(progress := p, status := StatusFor(p))
  }

  /** The three notes the store starts with, all unread and last modified `now`. */
  function SeedNotes(now: int): (r: seq<Note>)
    ensures |r| == 3
    ensures forall i :: 0 <= i < |r| ==> r[i].progress == Pct(0) && r[i].status == InProgress && r[i].lastModified == now
    ensures forall i :: 0 <= i < |r| ==> r[i].slides.Some? && |r[i].slides.value| == r[i].totalSlides
    ensures forall i, j :: 0 <= i < j < |r| ==> r[i].id != r[j].id
  {
    [
      Note("react-tutorial", "React Fundamentals", "A comprehensive guide to React fundamentals",
        "React", 3, Pct(0), now, "15 min", InProgress, Some([
          Slide(1, "Introduction to React", ""),
          Slide(2, "Component Lifecycle", ""),
          Slide(3, "React Hooks", "")])),
      Note("ml-basics", "Machine Learning Fundamentals",
        "A beginner's guide to machine learning concepts and applications.",
        "Computer Science", 5, Pct(0), now, "20 min", InProgress, Some([
          Slide(1, "What is Machine Learning?", ""),
          Slide(2, "Types of Machine Learning", ""),
          Slide(3, "Common Algorithms", ""),
          Slide(4, "Data Preprocessing", ""),
          Slide(5, "Model Evaluation", "")])),
      Note("quantum-basics", "Quantum Mechanics Introduction",
        "Understanding the fundamentals of quantum mechanics and wave functions.",
        "Physics", 4, Pct(0), now, "25 min", InProgress, Some([
          Slide(1, "Wave-Particle Duality", ""),
          Slide(2, "Schr\U{F6}dinger's Equation", ""),
          Slide(3, "Uncertainty Principle", ""),
          Slide(4, "Quantum States", "")]))
    ]
  }

  /** `order` lists each key of `notes` exactly once. */
  ghost predicate KeysInOrder(notes: map<string, Note>, order: seq<string>) {
    (forall i, j :: 0 <= i < j < |order| ==> order[i] != order[j])
    && (forall k :: k in notes <==> k in order)
  }

  /** The notes stored under `keys`, in the order of `keys`. */
  function ValuesIn(notes: map<string, Note>, keys: seq<string>): (r: seq<Note>)
    requires forall i :: 0 <= i < |keys| ==> keys[i] in notes
    ensures |r| == |keys|
    ensures forall i :: 0 <= i < |r| ==> r[i] == notes[keys[i]]
  {
    seq(|keys|, i requires 0 <= i < |keys| => notes[keys[i]])
  }

  class Store {
    var notes: map<string, Note>
    /** The keys of `notes` in insertion order, the order `Object.values` lists them in. */
    var order: seq<string>
    var currentNoteId: Option<string>

    ghost predicate Valid()
      reads this
    {
      KeysInOrder(notes, order)
    }

    /** `Object.values(notes)`. */
    function Values(): (r: seq<Note>)
      reads this
      requires Valid()
      ensures |r| == |order|
      ensures forall i :: 0 <= i < |r| ==> r[i] == notes[order[i]]
    {
      ValuesIn(notes, order)
    }

    /** The store as created: the three seed notes keyed by id, no current note. */
    constructor (now: int)
      ensures Valid()
      ensures order == ["react-tutorial", "ml-basics", "quantum-basics"]
      ensures forall i :: 0 <= i < 3 ==> notes[order[i]] == SeedNotes(now)[i]
      ensures currentNoteId == None
    {
      var seed := SeedNotes(now);
      notes := map[seed[0].id := seed[0], seed[1].id := seed[1], seed[2].id := seed[2]];
      order := [seed[0].id, seed[1].id, seed[2].id];
      currentNoteId := None;
    }

    /** Stores `n` under its id; a new id is appended to the order, other notes are kept. */
    method AddNote(n: Note)
      requires Valid()
      modifies this`notes, this`order
      ensures Valid()
      ensures notes == old(notes)[n.id := n]
      ensures order == if n.id in old(notes) then old(order) else old(order) + [n.id]
    {
      if n.id !in notes {
        order := order + [n.id];
      }
      notes := notes[n.id := n];
    }

    /** Merges `u` into the note stored under `id`; other notes are kept. */
    method UpdateNote(id: string, u: NoteUpdate)
      requires Valid()
      modifies this`notes, this`order
      ensures Valid()
      ensures id in old(notes) ==> notes == old(notes)[id := MergeNote(old(notes)[id], u)] && order == old(order)
      ensures id !in old(notes) ==> notes == old(notes)[id := MergeNote(BlankNote(id), u)] && order == old(order) + [id]
    {
      var base := if id in notes then notes[id] else BlankNote(id);
      if id !in notes {
        order := order + [id];
      }
      notes := notes[id := MergeNote(base, u)];
    }

    method SetCurrentNote(id: Option<string>)
      modifies this`currentNoteId
      ensures currentNoteId == id
    {
      currentNoteId := id;
    }

    /** `notes[id]`: the stored note, or nothing for an unknown id. */
    function GetNoteById(id: string): (r: Option<Note>)
      reads this
      ensures r.Some? <==> id in notes
      ensures r.Some? ==> r.value == notes[id]
    {
      if id in notes then Some(notes[id]) else None
    }

    /**
     * Recomputes progress and status of the note `id` for slide `slideIndex`;
     * an unknown id changes nothing.
     */
    method UpdateNoteProgress(id: string, slideIndex: int)
      requires Valid()
      modifies this`notes
      ensures Valid()
      ensures id !in old(notes) ==> notes == old(notes)
      ensures id in old(notes) ==> notes == old(notes)[id := WithProgress(old(notes)[id], slideIndex)]
    {
      if id in notes {
        notes := notes[id := WithProgress(notes[id], slideIndex)];
      }
    }
  }
}
