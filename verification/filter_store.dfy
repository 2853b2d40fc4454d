/**
 * The filter store: one five-field filter record, written one key at a time
 * and reset to its initial value.
 */
module FilterStore {
  import opened Wrappers
  import opened SwipTypes

  /** The filter record: search text, category, difficulty, type and sorting. */
  datatype FilterState = FilterState(
    search: string,
    category: Option<string>,
    difficulty: Option<string>,
    kind: TypeFilter,
    sorting: SortOrder)

  /** The initial record: empty search, no category or difficulty, every type, latest first. */
  const Initial := FilterState("", None, None, AllTypes, Latest)

  /** The five keys of the record. */
  datatype Key = SearchKey | CategoryKey | DifficultyKey | TypeKey | SortingKey

  /** `setFilter(key, value)` with a value of the key's type. */
  datatype Assignment =
    | SetSearch(search: string)
    | SetCategory(category: Option<string>)
    | SetDifficulty(difficulty: Option<string>)
    | SetType(kind: TypeFilter)
    | SetSorting(sorting: SortOrder)

  function KeyOf(a: Assignment): Key {
    match a
    case SetSearch(_) => SearchKey
    case SetCategory(_) => CategoryKey
    case SetDifficulty(_) => DifficultyKey
    case SetType(_) => TypeKey
    case SetSorting(_) => SortingKey
  }

  /** `f` and `g` hold the same value under key `k`. */
  predicate SameAt(f: FilterState, g: FilterState, k: Key) {
    match k
    case SearchKey => f.search == g.search
    case CategoryKey => f.category == g.category
    case DifficultyKey => f.difficulty == g.difficulty
    case TypeKey => f.kind == g.kind
    case SortingKey => f.sorting == g.sorting
  }

  /** `{ ...filters, [key]: value }`: the assigned key takes the value, every other key is kept. */
  function Assign(f: FilterState, a: Assignment): (r: FilterState)
    ensures a.SetSearch? ==> r.search == a.search
    ensures a.SetCategory? ==> r.category == a.category
    ensures a.SetDifficulty? ==> r.difficulty == a.difficulty
    ensures a.SetType? ==> r.kind == a.kind
    ensures a.SetSorting? ==> r.sorting == a.sorting
    ensures forall k :: k != KeyOf(a) ==> SameAt(r, f, k)
  {
    match a
    case SetSearch(v) => f.(search := v)
    case SetCategory(v) => f.(category := v)
    case SetDifficulty(v) => f.(difficulty := v)
    case SetType(v) => f.(kind := v)
    case SetSorting(v) => f.(sorting := v)
  }

  /** Assigning the same key and value twice is assigning it once. */
  lemma AssignIdempotent(f: FilterState, a: Assignment)
    ensures Assign(Assign(f, a), a) == Assign(f, a)
  {
  }

  /** Assignments to different keys commute. */
  lemma AssignCommutes(f: FilterState, a: Assignment, b: Assignment)
    requires KeyOf(a) != KeyOf(b)
    ensures Assign(Assign(f, a), b) == Assign(Assign(f, b), a)
  {
  }

  /** The assignment that puts key `k` back to its initial value. */
  function ResetKey(k: Key): (a: Assignment)
    ensures KeyOf(a) == k
  {
    match k
    case SearchKey => SetSearch(Initial.search)
    case CategoryKey => SetCategory(Initial.category)
    case DifficultyKey => SetDifficulty(Initial.difficulty)
    case TypeKey => SetType(Initial.kind)
    case SortingKey => SetSorting(Initial.sorting)
  }

  /** Resetting key `k` gives it its initial value and keeps every other key. */
  lemma ResetKeyRestores(f: FilterState, k: Key)
    ensures SameAt(Assign(f, ResetKey(k)), Initial, k)
    ensures forall j :: j != k ==> SameAt(Assign(f, ResetKey(k)), f, j)
  {
  }

  /** Resetting all five keys one at a time gives the initial record. */
  lemma ResetEveryKey(f: FilterState)
    ensures Assign(Assign(Assign(Assign(Assign(f,
              ResetKey(SearchKey)), ResetKey(CategoryKey)), ResetKey(DifficultyKey)),
              ResetKey(TypeKey)), ResetKey(SortingKey)) == Initial
  {
  }

  class Store {
    var filters: FilterState

    /** The store as created. */
    constructor ()
      ensures filters == Initial
    {
      filters := Initial;
    }

    /** Writes one key. */
    method SetFilter(a: Assignment)
      modifies this
      ensures filters == Assign(old(filters), a)
    {
      filters := Assign(filters, a);
    }

    /** Puts back the initial record, whatever the filters were. */
    method ResetFilters()
      modifies this
      ensures filters == Initial
    {
      filters := Initial;
    }
  }
}
