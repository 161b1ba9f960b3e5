/**
 * The search page: a filter panel (rent bounds, tenant types, area text) whose
 * tenant-type checkboxes toggle membership, a list/map view switch, and a result
 * grid that always shows the whole catalog.
 */
module Search {
  import opened Lists
  import opened Listings

  datatype ViewMode = ListView | MapView

  /** The view button: list becomes map and map becomes list. */
  function SwitchView(v: ViewMode): (r: ViewMode)
    ensures r != v
  {
    if v == ListView then MapView else ListView
  }

  /** Switching twice is no switch at all. */
  lemma SwitchViewInvolution(v: ViewMode)
    ensures SwitchView(SwitchView(v)) == v
  {
  }

  /** The filter panel's state. */
  datatype Filters = Filters(minRent: string, maxRent: string, types: seq<string>, area: string)

  const NoFilters := Filters("", "", [], "")

  /** `toggleType`: the tenant-type checkbox. */
  function ToggleType(f: Filters, t: string): (r: Filters)
    ensures r.minRent == f.minRent && r.maxRent == f.maxRent && r.area == f.area
    ensures t in r.types <==> t !in f.types
  {
    ToggleFlipsMembership(f.types, t, t);
    f.(types := Toggle(f.types, t))
  }

  /**
   * A type checkbox flips only its own type, keeps the other types in order and
   * without repeats, and checking then unchecking an unchecked type restores the list.
   */
  lemma ToggleTypeSpec(f: Filters, t: string, other: string)
    ensures other != t ==> (other in ToggleType(f, t).types <==> other in f.types)
    ensures RemoveAll(ToggleType(f, t).types, t) == RemoveAll(f.types, t)
    ensures NoDuplicates(f.types) ==> NoDuplicates(ToggleType(f, t).types)
    ensures t !in f.types ==> ToggleType(ToggleType(f, t), t) == f
  {
    ToggleFlipsMembership(f.types, t, other);
    ToggleKeepsOthers(f.types, t);
    if NoDuplicates(f.types) {
      ToggleNoDuplicates(f.types, t);
    }
    if t !in f.types {
      ToggleTwiceAbsent(f.types, t);
    }
  }

  /** The cards rendered: the whole catalog in list view, the map placeholder otherwise. */
  function Rendered(f: Filters, v: ViewMode): seq<Listing> {
    if v == ListView then MockListings else []
  }

  /** No filter setting changes what is shown; the list view always shows every mock listing in order. */
  lemma RenderedIgnoresFilters(f: Filters, g: Filters, v: ViewMode)
    ensures Rendered(f, v) == Rendered(g, v)
    ensures v == ListView ==> Rendered(f, v) == MockListings && |Rendered(f, v)| == 5
  {
  }

  /** The search page's state. */
  class SearchPage {
    var showFilters: bool
    var viewMode: ViewMode
    var filters: Filters

    /** Filters hidden, list view, nothing filtered. */
    constructor()
      ensures !showFilters && viewMode == ListView && filters == NoFilters
    {
      showFilters := false;
      viewMode := ListView;
      filters := NoFilters;
    }

    method ToggleTypeFilter(t: string)
      modifies this
      ensures filters == ToggleType(old(filters), t)
      ensures showFilters == old(showFilters) && viewMode == old(viewMode)
    {
      filters := ToggleType(filters, t);
    }

    method SwitchViewMode()
      modifies this
      ensures viewMode == SwitchView(old(viewMode))
      ensures showFilters == old(showFilters) && filters == old(filters)
    {
      viewMode := SwitchView(viewMode);
    }

    /** The area box and the rent inputs. */
    method SetArea(text: string)
      modifies this
      ensures filters == old(filters).(area := text)
      ensures showFilters == old(showFilters) && viewMode == old(viewMode)
    {
      filters := filters.(area := text);
    }

    method SetRentRange(minRent: string, maxRent: string)
      modifies this
      ensures filters == old(filters).(minRent := minRent, maxRent := maxRent)
      ensures showFilters == old(showFilters) && viewMode == old(viewMode)
    {
      filters := filters.(minRent := minRent, maxRent := maxRent);
    }

    /** The Filters button opens the panel; closing it or "Show 25+ Results" hides it. */
    method SetShowFilters(show: bool)
      modifies this
      ensures showFilters == show
      ensures viewMode == old(viewMode) && filters == old(filters)
    {
      showFilters := show;
    }

    function Results(): seq<Listing>
      reads this
    {
      Rendered(filters, viewMode)
    }
  }
}
