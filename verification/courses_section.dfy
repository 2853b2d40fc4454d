/**
 * The courses section: the tab / search / level-or-price / sort pipeline over
 * the course catalogue, and the "view courses" action of a subject card.
 */
module CoursesSection {
  import opened Wrappers
  import opened Text
  import opened Seqs
  import opened Sorting
  import opened CourseData

  /** The list a tab starts from; "subjects" shows subject cards and is handled by the caller. */
  function TabBase(courses: seq<Course>, tab: string): (r: seq<Course>)
    ensures tab == "mycourses" ==> r == EnrolledCourses(courses)
    ensures tab == "wishlist" ==> r == WishlistCourses(courses)
    ensures tab != "mycourses" && tab != "wishlist" ==> r == courses
    ensures multiset(r) <= multiset(courses)
  {
    if tab == "mycourses" then EnrolledCourses(courses)
    else if tab == "wishlist" then WishlistCourses(courses)
    else courses
  }

  /** The query, lower-cased, occurs in the title, subject, author or a tag, lower-cased. */
  predicate MatchesQuery(c: Course, query: string) {
    var q := Lower(query);
    Includes(Lower(c.title), q)
    || Includes(Lower(c.subject), q)
    || Includes(Lower(c.author), q)
    || exists i :: 0 <= i < |c.tags| && Includes(Lower(c.tags[i]), q)
  }

  /** The `filterBy` rule: "all" keeps everything, "free"/"paid" test the price flag, anything else the level. */
  predicate PassesFilterBy(c: Course, filterBy: string) {
    if filterBy == "all" then true
    else if filterBy == "free" then c.isFree
    else if filterBy == "paid" then !c.isFree
    else EqualsIgnoreCase(c.level, filterBy)
  }

  /** A blank query (only whitespace) keeps every course; otherwise the course must match it. */
  predicate Keeps(c: Course, query: string, filterBy: string) {
    (IsBlank(query) || MatchesQuery(c, query)) && PassesFilterBy(c, filterBy)
  }

  /**
   * The query is compared without regard to case, "free" and "paid" split the catalogue
   * in two, and "all" with a blank query keeps every course.
   */
  lemma KeepsRules(c: Course, query: string, filterBy: string)
    ensures Keeps(c, Lower(query), filterBy) <==> Keeps(c, query, filterBy)
    ensures PassesFilterBy(c, "free") <==> !PassesFilterBy(c, "paid")
    ensures IsBlank(query) ==> Keeps(c, query, "all")
  {
    LowerIdempotent(query);
    LowerKeepsSpaces(query);
  }

  function KeepFn(query: string, filterBy: string): Course -> bool {
    (c: Course) => Keeps(c, query, filterBy)
  }

  const AddedDate: Course -> int := (c: Course) => c.addedDate
  const Price: Course -> int := (c: Course) => c.price
  const Students: Course -> int := (c: Course) => c.students

  /** The `sortBy` step; an unknown key leaves the order as it is. */
  function SortCourses(s: seq<Course>, sortBy: string): (r: seq<Course>)
    ensures multiset(r) == multiset(s)
    ensures sortBy == "recent" ==> SortedDesc(r, AddedDate)
    ensures sortBy == "priceLowToHigh" ==> forall i, j :: 0 <= i < j < |r| ==> r[i].price <= r[j].price
    ensures sortBy == "priceHighToLow" ==> SortedDesc(r, Price)
    ensures sortBy == "popular" ==> SortedDesc(r, Students)
    ensures sortBy !in {"recent", "priceLowToHigh", "priceHighToLow", "popular"} ==> r == s
  {
    if sortBy == "recent" then SortDesc(s, AddedDate)
    else if sortBy == "priceLowToHigh" then SortAsc(s, Price)
    else if sortBy == "priceHighToLow" then SortDesc(s, Price)
    else if sortBy == "popular" then SortDesc(s, Students)
    else s
  }

  /**
   * `filteredCourses`: nothing on the subjects tab; otherwise the tab's list,
   * restricted to the courses the query and `filterBy` keep, then sorted.
   */
  function FilteredCourses(courses: seq<Course>, tab: string, query: string, filterBy: string, sortBy: string)
    : (r: seq<Course>)
    ensures tab == "subjects" ==> r == []
    ensures multiset(r) <= multiset(TabBase(courses, tab))
    ensures forall i :: 0 <= i < |r| ==> Keeps(r[i], query, filterBy)
    ensures tab != "subjects" ==>
              forall i :: 0 <= i < |TabBase(courses, tab)| && Keeps(TabBase(courses, tab)[i], query, filterBy)
                ==> TabBase(courses, tab)[i] in r
  {
    if tab == "subjects" then []
    else
      var base := TabBase(courses, tab);
      var kept := Filter(base, KeepFn(query, filterBy));
      FilteredCoursesSpec(base, query, filterBy, sortBy);
      SortCourses(kept, sortBy)
  }

  lemma FilteredCoursesSpec(base: seq<Course>, query: string, filterBy: string, sortBy: string)
    ensures var r := SortCourses(Filter(base, KeepFn(query, filterBy)), sortBy);
            multiset(r) <= multiset(base)
            && (forall i :: 0 <= i < |r| ==> Keeps(r[i], query, filterBy))
            && (forall i :: 0 <= i < |base| && Keeps(base[i], query, filterBy) ==> base[i] in r)
  {
    var p := KeepFn(query, filterBy);
    var kept := Filter(base, p);
    var r := SortCourses(kept, sortBy);
    FilterSpec(base, p);
    PermutationKeeps(r, kept, p);
    PermutationContains(r, kept);
    forall i | 0 <= i < |base| && Keeps(base[i], query, filterBy) ensures base[i] in r {
      assert p(base[i]);
      var j :| 0 <= j < |kept| && kept[j] == base[i];
    }
  }

  /** The result is ordered as `sortBy` asks, and lies within the whole catalogue. */
  lemma FilteredCoursesOrdered(courses: seq<Course>, tab: string, query: string, filterBy: string, sortBy: string)
    ensures var r := FilteredCourses(courses, tab, query, filterBy, sortBy);
            multiset(r) <= multiset(courses)
            && (sortBy == "recent" ==> SortedDesc(r, AddedDate))
            && (sortBy == "priceLowToHigh" ==> forall i, j :: 0 <= i < j < |r| ==> r[i].price <= r[j].price)
            && (sortBy == "priceHighToLow" ==> SortedDesc(r, Price))
            && (sortBy == "popular" ==> SortedDesc(r, Students))
  {
  }

  /** With a blank query, "all" filter and an unknown sort key, the "all" tab shows the catalogue unchanged. */
  lemma NoFiltersShowsEverything(courses: seq<Course>, query: string, sortBy: string)
    requires IsBlank(query)
    requires sortBy !in {"recent", "priceLowToHigh", "priceHighToLow", "popular"}
    ensures FilteredCourses(courses, "all", query, "all", sortBy) == courses
  {
    FilterAll(courses, KeepFn(query, "all"));
  }

  /** `subjects.find(s => s.id === id)`: the first subject with that id. */
  function FindSubject(subjects: seq<Subject>, id: int): (r: Option<Subject>)
    ensures r.Some? ==> r.value in subjects && r.value.id == id
    ensures r.None? ==> forall i :: 0 <= i < |subjects| ==> subjects[i].id != id
    decreases |subjects|
  {
    if subjects == [] then None
    else if subjects[0].id == id then Some(subjects[0])
    else FindSubject(subjects[1..], id)
  }

  /** `find` returns the earliest match. */
  lemma {:induction false} FindSubjectFirst(subjects: seq<Subject>, id: int, k: nat)
    requires k < |subjects| && subjects[k].id == id
    requires forall i :: 0 <= i < k ==> subjects[i].id != id
    ensures FindSubject(subjects, id) == Some(subjects[k])
    decreases k
  {
    if k > 0 {
      FindSubjectFirst(subjects[1..], id, k - 1);
    }
  }

  /** The section's own state. */
  class Section {
    var selectedTab: string
    var sortBy: string
    var filterBy: string
    var searchQuery: string

    constructor ()
      ensures selectedTab == "all" && sortBy == "recent" && filterBy == "all" && searchQuery == ""
    {
      selectedTab, sortBy, filterBy, searchQuery := "all", "recent", "all", "";
    }

    /** The list the section shows for the current state. */
    function Shown(courses: seq<Course>): seq<Course>
      reads this
    {
      FilteredCourses(courses, selectedTab, searchQuery, filterBy, sortBy)
    }

    /**
     * "View courses" on subject `id`: a known subject puts its name in the
     * search box and switches to the "all" tab; an unknown id changes nothing.
     */
    method HandleViewCourses(courses: seq<Course>, id: int)
      modifies this`searchQuery, this`selectedTab
      ensures FindSubject(Subjects(courses), id).Some? ==>
                searchQuery == FindSubject(Subjects(courses), id).value.name && selectedTab == "all"
      ensures FindSubject(Subjects(courses), id).None? ==>
                searchQuery == old(searchQuery) && selectedTab == old(selectedTab)
    {
      var subject := FindSubject(Subjects(courses), id);
      if subject.Some? {
        searchQuery := subject.value.name;
        selectedTab := "all";
      }
    }
  }
}
