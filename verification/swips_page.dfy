/**
 * The swips page: a videos/cards tab that rewrites the filter store, a view
 * selector, the rule that picks the listed items, and the choice between a
 * selected item, the "nothing found" message, the grid and the reel.
 */
module SwipsPage {
  import opened Wrappers
  import opened Seqs
  import opened SwipTypes
  import FS = FilterStore

  /** The page's content-type tab: 'videos' or 'cards'. */
  datatype ContentType = Videos | Cards

  /** The item type a tab lists. */
  function KindOf(t: ContentType): (k: Kind)
    ensures k == Video <==> t == Videos
    ensures k == Card <==> t == Cards
  {
    match t
    case Videos => Video
    case Cards => Card
  }

  /**
   * The `filteredItems` rule: the type must match; the 'all' view also needs
   * the category (when one is set) to match exactly, and the other views need
   * the view's interaction flag instead, ignoring the category.
   */
  predicate PageKeeps(ui: map<string, Interaction>, view: View, t: ContentType, category: Option<string>,
                      x: SwipContent) {
    x.kind == KindOf(t)
    && (if view == AllItems then MatchesExactly(x.category, category) else InView(ui, view, x.id))
  }

  function KeepFn(ui: map<string, Interaction>, view: View, t: ContentType, category: Option<string>)
    : SwipContent -> bool
  {
    (x: SwipContent) => PageKeeps(ui, view, t, category, x)
  }

  /**
   * `filteredItems` for the filter store's record `f`: the items of `content`
   * the rule keeps, in content order. Only the category is read from `f`.
   */
  function FilteredItems(content: seq<SwipContent>, ui: map<string, Interaction>, view: View, t: ContentType,
                         f: FS.FilterState): (r: seq<SwipContent>)
    ensures multiset(r) <= multiset(content)
    ensures forall i :: 0 <= i < |r| ==> r[i].kind == KindOf(t)
    ensures view == AllItems ==> forall i :: 0 <= i < |r| ==> MatchesExactly(r[i].category, f.category)
    ensures view != AllItems ==> forall i :: 0 <= i < |r| ==> InView(ui, view, r[i].id)
    ensures forall i :: 0 <= i < |content| && PageKeeps(ui, view, t, f.category, content[i]) ==> content[i] in r
  {
    FilterSpec(content, KeepFn(ui, view, t, f.category));
    Filter(content, KeepFn(ui, view, t, f.category))
  }

  /**
   * The list does not depend on the search text, the difficulty, the type or
   * the sorting in the store: the page's search box leaves the list unchanged.
   */
  lemma OnlyCategoryIsRead(content: seq<SwipContent>, ui: map<string, Interaction>, view: View, t: ContentType,
                           f: FS.FilterState, g: FS.FilterState)
    requires f.category == g.category
    ensures FilteredItems(content, ui, view, t, f) == FilteredItems(content, ui, view, t, g)
  {
  }

  /** Outside the 'all' view the category is ignored. */
  lemma CategoryIgnoredOutsideAll(content: seq<SwipContent>, ui: map<string, Interaction>, view: View,
                                  t: ContentType, f: FS.FilterState, c: Option<string>)
    requires view != AllItems
    ensures FilteredItems(content, ui, view, t, f) == FilteredItems(content, ui, view, t, f.(category := c))
  {
    FilterSame(content, KeepFn(ui, view, t, f.category), KeepFn(ui, view, t, c));
  }

  /** What the content area shows. */
  datatype Display =
    | Single(item: SwipContent)
    | NothingFound(t: ContentType, category: Option<string>)
    | Grid(items: seq<SwipContent>)
    | Reel(items: seq<SwipContent>)

  /**
   * A selected item is shown alone; otherwise an empty list gives the
   * "No … found" message (naming the category when one is set), the 'all'
   * view a grid, and the other views a reel.
   */
  function DisplayOf(selected: Option<SwipContent>, items: seq<SwipContent>, view: View, t: ContentType,
                     category: Option<string>): (d: Display)
    ensures selected.Some? ==> d == Single(selected.value)
    ensures selected.None? && items == [] ==> d.NothingFound? && d.t == t
    ensures d.NothingFound? ==> (d.category.Some? <==> IsSet(category))
    ensures selected.None? && items != [] ==> (d.Grid? <==> view == AllItems) && (d.Grid? || d.Reel?)
    ensures d.Grid? || d.Reel? ==> d.items == items
  {
    if selected.Some? then Single(selected.value)
    else if items == [] then NothingFound(t, if IsSet(category) then category else None)
    else if view == AllItems then Grid(items)
    else Reel(items)
  }

  /** The page's own state. */
  class Page {
    var activeView: View
    var contentType: ContentType
    var selectedItem: Option<SwipContent>

    constructor ()
      ensures activeView == AllItems && contentType == Cards && selectedItem == None
    {
      activeView, contentType, selectedItem := AllItems, Cards, None;
    }

    /**
     * `handleTabChange`: the tab becomes the content type, and the store's type
     * becomes that tab's kind while category, difficulty and search are
     * cleared; the sorting is kept.
     */
    method HandleTabChange(t: ContentType, store: FS.Store)
      modifies this`contentType, store
      ensures contentType == t
      ensures store.filters == FS.FilterState("", None, None, OnlyKind(KindOf(t)), old(store.filters.sorting))
    {
      contentType := t;
      store.SetFilter(FS.SetType(OnlyKind(KindOf(t))));
      store.SetFilter(FS.SetCategory(None));
      store.SetFilter(FS.SetDifficulty(None));
      store.SetFilter(FS.SetSearch(""));
    }

    method HandleViewChange(v: View)
      modifies this`activeView
      ensures activeView == v
    {
      activeView := v;
    }

    /** Opening an item from the grid. */
    method ViewItem(x: SwipContent)
      modifies this`selectedItem
      ensures selectedItem == Some(x)
    {
      selectedItem := Some(x);
    }

    /** "Back" or the close button. */
    method CloseItem()
      modifies this`selectedItem
      ensures selectedItem == None
    {
      selectedItem := None;
    }
  }
}
