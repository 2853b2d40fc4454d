/**
 * The filter controls: the select boxes that write the filter store, the
 * removable chips of the active filters, the sort labels, and when "Reset All"
 * is offered.
 */
module FilterControls {
  import opened Wrappers
  import opened Text
  import opened SwipTypes
  import opened FilterStore

  /** `value || null`: the empty option stores no selection. */
  function NullIfEmpty(value: string): (r: Option<string>)
    ensures r.None? <==> value == ""
    ensures r.Some? ==> r.value == value
  {
    if value == "" then None else Some(value)
  }

  /** `filters.category ?? ''`: what the select box displays for a stored value. */
  function Displayed(f: Option<string>): (r: string)
    ensures f.Some? ==> r == f.value
    ensures f.None? ==> r == ""
  {
    f.GetOr("")
  }

  /** Choosing an option and displaying the stored value gives the option back. */
  lemma DisplayedAfterChoice(value: string)
    ensures Displayed(NullIfEmpty(value)) == value
  {
  }

  /** A stored value the select box can produce survives displaying and choosing it again. */
  lemma ChoiceAfterDisplayed(f: Option<string>)
    requires f != Some("")
    ensures NullIfEmpty(Displayed(f)) == f
  {
  }

  /** A category or difficulty that is set, but not to the empty string. */
  predicate NoEmptySelection(f: FilterState) {
    f.category != Some("") && f.difficulty != Some("")
  }

  /** The writes the controls make. */
  datatype Control =
    | TypeSearch(text: string)
    | ChooseCategory(value: string)
    | ChooseDifficulty(value: string)
    | ChooseType(kind: TypeFilter)
    | ChooseSorting(sorting: SortOrder)
    | ClearChip(key: Key)

  /** The store assignment each control makes. */
  function AssignmentOf(c: Control): (a: Assignment)
    ensures c.ChooseCategory? ==> a == SetCategory(NullIfEmpty(c.value))
    ensures c.ChooseDifficulty? ==> a == SetDifficulty(NullIfEmpty(c.value))
    ensures c.ClearChip? ==> a == ResetKey(c.key)
  {
    match c
    case TypeSearch(text) => SetSearch(text)
    case ChooseCategory(v) => SetCategory(NullIfEmpty(v))
    case ChooseDifficulty(v) => SetDifficulty(NullIfEmpty(v))
    case ChooseType(k) => SetType(k)
    case ChooseSorting(s) => SetSorting(s)
    case ClearChip(k) => ResetKey(k)
  }

  /** No control stores an empty category or difficulty. */
  lemma ControlsKeepNoEmptySelection(f: FilterState, c: Control)
    requires NoEmptySelection(f)
    ensures NoEmptySelection(Assign(f, AssignmentOf(c)))
  {
  }

  /** Whether the chip of key `k` is shown: the sorting chip always, the others while their filter is active. */
  predicate ChipShown(f: FilterState, k: Key) {
    match k
    case SearchKey => f.search != ""
    case CategoryKey => IsSet(f.category)
    case DifficultyKey => IsSet(f.difficulty)
    case TypeKey => f.kind != AllTypes
    case SortingKey => true
  }

  /**
   * With no empty selection stored, the chip of a filter key is shown exactly when that key
   * differs from its initial value, and "Reset All" is offered exactly when some chip other
   * than the sorting chip is shown or the sorting is not 'latest'.
   */
  lemma ChipShownIffChanged(f: FilterState, k: Key)
    requires NoEmptySelection(f)
    ensures k != SortingKey ==> (ChipShown(f, k) <==> !SameAt(f, Initial, k))
    ensures ResetAllShown(f) <==> (exists j :: j != SortingKey && ChipShown(f, j)) || f.sorting != Latest
  {
    if f.search != "" {
      assert ChipShown(f, SearchKey);
    } else if IsSet(f.category) {
      assert ChipShown(f, CategoryKey);
    } else if IsSet(f.difficulty) {
      assert ChipShown(f, DifficultyKey);
    } else if f.kind != AllTypes {
      assert ChipShown(f, TypeKey);
    }
  }

  /** A chip's × puts its own key back to the initial value, hides that chip (bar the sorting chip), and keeps every other key. */
  lemma ClearChipResetsOwnKey(f: FilterState, k: Key)
    ensures SameAt(Assign(f, ResetKey(k)), Initial, k)
    ensures k != SortingKey ==> !ChipShown(Assign(f, ResetKey(k)), k)
    ensures forall j :: j != k ==> SameAt(Assign(f, ResetKey(k)), f, j)
  {
    ResetKeyRestores(f, k);
  }

  /** The option value of each sorting. */
  function SortName(s: SortOrder): string {
    match s
    case Latest => "latest"
    case Popular => "popular"
    case Trending => "trending"
  }

  /** The sort label: the option with its first character upper-cased. */
  function SortLabel(s: SortOrder): (r: string)
    ensures |r| == |SortName(s)| && r[1..] == SortName(s)[1..]
    ensures s == Latest ==> r == "Latest"
    ensures s == Popular ==> r == "Popular"
    ensures s == Trending ==> r == "Trending"
  {
    Capitalize(SortName(s))
  }

  /** "Reset All" is offered while any filter is active or the sorting is not 'latest'. */
  predicate ResetAllShown(f: FilterState) {
    f.search != "" || IsSet(f.category) || IsSet(f.difficulty) || f.kind != AllTypes || f.sorting != Latest
  }

  /** With no empty selection stored, "Reset All" is offered exactly when the filters differ from the initial record. */
  lemma ResetAllShownIffChanged(f: FilterState)
    requires NoEmptySelection(f)
    ensures ResetAllShown(f) <==> f != Initial
  {
  }

  /** An empty-string selection is the one case where the filters differ from the initial record while "Reset All" is hidden. */
  lemma EmptySelectionHidesReset()
    ensures Initial.(category := Some("")) != Initial
    ensures !ResetAllShown(Initial.(category := Some("")))
  {
  }
}
