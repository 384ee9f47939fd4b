/**
 * The search page's state and its transitions. Every transition rebuilds the
 * whole record; each one except the page change sends the user back to page 1.
 */
module SearchPage {
  import opened Wrappers
  import CuisinesFilter
  import SortOptionDropdown

  datatype SearchState = SearchState(searchQuery: string, page: int, selectedCuisines: seq<string>, sortOption: string)

  const InitialState: SearchState := SearchState("", 1, [], "bestMatch")

  function SetSearchQuery(s: SearchState, searchQuery: string): (r: SearchState)
    ensures r.searchQuery == searchQuery && r.page == 1
    ensures r.selectedCuisines == s.selectedCuisines && r.sortOption == s.sortOption
  {
    s.(searchQuery := searchQuery, page := 1)
  }

  /** Clears the query and the filters and restores the default sort, whatever the state was. */
  function ResetSearch(s: SearchState): (r: SearchState)
    ensures r == InitialState
  {
    s.(searchQuery := "", page := 1, selectedCuisines := [], sortOption := "bestMatch")
  }

  function SetPage(s: SearchState, page: int): (r: SearchState)
    ensures r.page == page
    ensures r.searchQuery == s.searchQuery && r.selectedCuisines == s.selectedCuisines && r.sortOption == s.sortOption
  {
    s.(page := page)
  }

  function SetSelectedCuisines(s: SearchState, selectedCuisines: seq<string>): (r: SearchState)
    ensures r.selectedCuisines == selectedCuisines && r.page == 1
    ensures r.searchQuery == s.searchQuery && r.sortOption == s.sortOption
  {
    s.(page := 1, selectedCuisines := selectedCuisines)
  }

  function SetSortOption(s: SearchState, sortOption: string): (r: SearchState)
    ensures r.sortOption == sortOption && r.page == 1
    ensures r.searchQuery == s.searchQuery && r.selectedCuisines == s.selectedCuisines
  {
    s.(page := 1, sortOption := sortOption)
  }

  /** The user actions that reach the search state, one per setter. */
  datatype SearchAction =
    | SubmitQuery(searchQuery: string)
    | Reset
    | ChangePage(page: int)
    | ChangeCuisines(selectedCuisines: seq<string>)
    | ChangeSort(sortOption: string)

  function Step(s: SearchState, a: SearchAction): SearchState
  {
    match a
    case SubmitQuery(q) => SetSearchQuery(s, q)
    case Reset => ResetSearch(s)
    case ChangePage(n) => SetPage(s, n)
    case ChangeCuisines(cs) => SetSelectedCuisines(s, cs)
    case ChangeSort(o) => SetSortOption(s, o)
  }

  /** The state after the actions, applied first to last. */
  function Run(s: SearchState, actions: seq<SearchAction>): SearchState
    decreases |actions|
  {
    if actions == [] then s else Run(Step(s, actions[0]), actions[1..])
  }

  /** The page a run ends on, stated without running it: that of the last action, unless it was not a page change. */
  function FinalPage(start: int, actions: seq<SearchAction>): int
  {
    if actions == [] then start
    else if actions[|actions| - 1].ChangePage? then actions[|actions| - 1].page
    else 1
  }

  /** Every action but a page change leaves the state on page 1. */
  lemma PageResetsUnlessPageChange(s: SearchState, a: SearchAction)
    ensures !a.ChangePage? ==> Step(s, a).page == 1
    ensures a.ChangePage? ==> Step(s, a) == s.(page := a.page)
  {
  }

  lemma {:induction false} RunEndsOnFinalPage(s: SearchState, actions: seq<SearchAction>)
    ensures Run(s, actions).page == FinalPage(s.page, actions)
    decreases |actions|
  {
    if actions != [] {
      RunEndsOnFinalPage(Step(s, actions[0]), actions[1..]);
      if |actions| == 1 {
        assert Run(Step(s, actions[0]), actions[1..]) == Step(s, actions[0]);
      } else {
        assert actions[1..][|actions[1..]| - 1] == actions[|actions| - 1];
      }
    }
  }

  /** Page changes alone move only the page: query, filters and sort are as before. */
  lemma {:induction false} PageChangesKeepFilters(s: SearchState, actions: seq<SearchAction>)
    requires forall i :: 0 <= i < |actions| ==> actions[i].ChangePage?
    ensures Run(s, actions) == s.(page := FinalPage(s.page, actions))
    decreases |actions|
  {
    if actions != [] {
      PageChangesKeepFilters(Step(s, actions[0]), actions[1..]);
      RunEndsOnFinalPage(s, actions);
    }
  }

  /** Starting on a positive page, the page stays positive as long as every page change asks for a positive page. */
  lemma {:induction false} PagePositive(s: SearchState, actions: seq<SearchAction>)
    requires s.page >= 1
    requires forall i :: 0 <= i < |actions| && actions[i].ChangePage? ==> actions[i].page >= 1
    ensures Run(s, actions).page >= 1
  {
    RunEndsOnFinalPage(s, actions);
  }

  /** Reset is idempotent, and a reset from any state gives the state the page starts in. */
  lemma ResetIdempotent(s: SearchState)
    ensures ResetSearch(ResetSearch(s)) == ResetSearch(s) == InitialState
    ensures ResetSearch(SearchState("sushi", 3, ["Japanese"], "deliveryPrice"))
      == SearchState("", 1, [], "bestMatch")
  {
  }

  /** Ticking or unticking a cuisine box filters by the toggled list and returns to page 1. */
  lemma ToggleCuisineResetsPage(s: SearchState, cuisine: string, isChecked: bool)
    ensures var r := SetSelectedCuisines(s, CuisinesFilter.HandleCuisinesChange(s.selectedCuisines, cuisine, isChecked));
      r.page == 1 && CuisinesFilter.IsSelected(r.selectedCuisines, cuisine) == isChecked
  {
  }

  /** Picking a sort entry makes it the sort option, its caption the one shown, and returns to page 1. */
  lemma ChooseSortOption(s: SearchState, i: nat)
    requires i < |SortOptionDropdown.SortOptions|
    ensures var r := SetSortOption(s, SortOptionDropdown.OnSelect(i));
      r.page == 1 && r.sortOption == SortOptionDropdown.SortOptions[i].value
      && SortOptionDropdown.SelectedSortLabel(r.sortOption) == SortOptionDropdown.SortOptions[i].caption
  {
  }

  /** The results of a search response: absent data is distinct from an empty list. */
  datatype Pagination = Pagination(page: int, pages: int, total: int)
  datatype RestaurantSummary = RestaurantSummary(id: string, restaurantName: string)
  datatype SearchResponse = SearchResponse(data: Option<seq<RestaurantSummary>>, pagination: Pagination)

  /** `!!city`: the route parameter is present and not the empty string. */
  predicate HasCity(city: Option<string>)
  {
    city.Some? && city.value != ""
  }

  /**
   * `!results?.data || !city`: the page shows "No results found" when there is
   * no response, the response carries no data array, or there is no city. An
   * empty data array is truthy, so an empty result list does not take this branch.
   */
  function NoResults(results: Option<SearchResponse>, city: Option<string>): (b: bool)
    ensures b <==> results.None? || results.value.data.None? || city.None? || city.value == ""
  {
    results.None? || results.value.data.None? || !HasCity(city)
  }
}
