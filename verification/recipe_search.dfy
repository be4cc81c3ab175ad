/** The text-search screen: a search bar or a paginated result grid, four
    results per page, with an error line. Every handler is one atomic
    transition; the awaited search call is an abstract outcome. */
module RecipeSearch {
  import opened Common
  import opened Pagination
  import SearchBar

  const RetypeMessage: string := "Retype your search"

  /** The response body of the text search; `results` may be absent. */
  datatype Response = Response(results: Option<seq<Recipe>>)

  datatype State = State(
    allRecipes: seq<Recipe>,
    query: string,
    showSearchBar: bool,
    page: PageNumber,
    error: string)

  /** The state on mount. */
  function Init(): State
  {
    State([], "", true, 1, "")
  }

  /** `Math.ceil(allRecipes.length / 4) || 1` for this state. */
  function PageCount(s: State): PageNumber
  {
    TotalPages(|s.allRecipes|)
  }

  /** `getPageRecipes()`: what the grid shows. */
  function Visible(s: State): seq<Recipe>
  {
    PageItems(s.allRecipes, s.page)
  }

  /** `handleSearch` after the awaited call settled. */
  function OnSearch(s: State, outcome: ApiOutcome<Response>): (r: State)
    ensures r.query == s.query
    ensures outcome.Success? ==>
      && r.allRecipes == (if outcome.data.results.Some? then outcome.data.results.value else [])
      && r.page == 1 && !r.showSearchBar && r.error == ""
      && Visible(r) == r.allRecipes[..Min(PageSize, |r.allRecipes|)]
    ensures outcome.Failure? ==>
      r.allRecipes == [] && r.showSearchBar && r.error == RetypeMessage && r.page == s.page
  {
    match outcome
    case Success(data) =>
      var all := if data.results.Some? then data.results.value else [];
      assert PageItems(all, 1) == all[..Min(PageSize, |all|)];
      State(all, s.query, false, 1, "")
    case Failure(_) =>
      State([], s.query, true, s.page, RetypeMessage)
  }

  /** `handleNewSearch`. */
  function NewSearch(s: State): (r: State)
    ensures r == Init()
  {
    s.(allRecipes := [], query := "", showSearchBar := true, page := 1, error := "")
  }

  /** The effect run when the screen is reached with `resetSearchBar` set
      in the navigation state (the detail view's "back to search"). */
  function ResetSignal(s: State): (r: State)
    ensures r == NewSearch(s).(query := s.query, error := s.error)
  {
    s.(showSearchBar := true, page := 1, allRecipes := [])
  }

  datatype Event =
    | TypeQuery(value: string)
    | Search(input: SearchBar.Input, outcome: ApiOutcome<Response>)
    | NewSearchClicked
    | PrevClicked
    | NextClicked
    | PageClicked(p: int)
    | ResetArrived

  /** What the rendered screen lets the user do. The bar (and so typing and
      searching) exists only in search mode, with its button disabled when
      `!query`; the pagination exists only while the current page has items,
      with each arrow disabled at its own end; New Search exists only in
      results mode. The reset signal comes from navigation. */
  predicate Enabled(s: State, e: Event)
  {
    match e
    case TypeQuery(_) => s.showSearchBar
    case Search(input, _) => s.showSearchBar && SearchBar.Triggers(input, s.query, s.query == "")
    case NewSearchClicked => !s.showSearchBar
    case PrevClicked => |Visible(s)| > 0 && s.page != 1
    case NextClicked => |Visible(s)| > 0 && s.page != PageCount(s)
    case PageClicked(p) => |Visible(s)| > 0 && p in PageButtons(PageCount(s))
    case ResetArrived => true
  }

  function Step(s: State, e: Event): State
  {
    match e
    case TypeQuery(v) => s.(query := SearchBar.OnChange(v))
    case Search(_, outcome) => OnSearch(s, outcome)
    case NewSearchClicked => NewSearch(s)
    case PrevClicked => s.(page := PrevPage(s.page))
    case NextClicked => s.(page := NextPage(s.page, PageCount(s)))
    case PageClicked(p) => if p >= 1 then s.(page := p) else s
    case ResetArrived => ResetSignal(s)
  }

  /** The invariant the screen keeps: the page is one of the page buttons,
      and the search bar is only ever shown over an empty result list. */
  predicate Inv(s: State)
  {
    && s.page <= PageCount(s)
    && (s.showSearchBar ==> s.allRecipes == [])
  }

  lemma InitInv()
    ensures Inv(Init())
  {
  }

  /** Every transition the screen offers keeps the invariant. */
  lemma StepKeepsInv(s: State, e: Event)
    requires Inv(s) && Enabled(s, e)
    ensures Inv(Step(s, e))
  {
  }

  /** In a reachable state the grid is empty only when there are no results:
      results mode with results always shows a non-empty page and the
      pagination. */
  lemma VisibleNonEmptyIffResults(s: State)
    requires Inv(s)
    ensures |Visible(s)| > 0 <==> |s.allRecipes| > 0
  {
  }

  /** New Search is idempotent and forgets everything, including the query. */
  lemma NewSearchIdempotent(s: State)
    ensures NewSearch(NewSearch(s)) == NewSearch(s)
    ensures Inv(NewSearch(s))
  {
  }

  /** The reset signal keeps the query and error but is otherwise New Search. */
  lemma ResetKeepsQueryAndError(s: State)
    ensures ResetSignal(s).query == s.query && ResetSignal(s).error == s.error
    ensures ResetSignal(s).showSearchBar && ResetSignal(s).page == 1 && ResetSignal(s).allRecipes == []
    ensures ResetSignal(ResetSignal(s)) == ResetSignal(s)
  {
  }

  /** The signal only arrives with navigation to the screen, which mounts it
      afresh; on the state on mount it changes nothing. */
  lemma ResetOnMountIsInit()
    ensures ResetSignal(Init()) == Init()
    ensures Step(Init(), ResetArrived) == Init()
  {
  }

  /** Ten results give three pages and the first page shows the first four. */
  lemma TenResultsScenario(rs: seq<Recipe>, q: string)
    requires |rs| == 10 && q != ""
    ensures var r := Step(Init().(query := q), Search(SearchBar.ButtonClick, Success(Response(Some(rs)))));
      && !r.showSearchBar && PageCount(r) == 3 && Visible(r) == rs[..4]
  {
  }
}
