/** The ingredient-search screen: a comma-separated ingredient list is sent
    to the API, at most ten results are kept and laid out in rows of 4, 3
    and 3. A failed search shows the bar again but keeps the old results. */
module IngredientSearch {
  import opened Common
  import Rows
  import SearchBar

  /** Results kept from a response: `data.slice(0, 10)`. */
  const MaxKept: nat := 10

  const UntitledTitle: string := "Untitled Recipe"

  datatype State = State(
    ingredients: string,
    recipes: seq<Recipe>,
    loading: bool,
    error: Option<string>,
    showSearchBar: bool)

  function Init(): State
  {
    State("", [], false, None, true)
  }

  /** `recipe.title || 'Untitled Recipe'`: an absent or empty title falls
      back to the placeholder, so a card never has an empty heading. */
  function DisplayTitle(r: Recipe): (t: string)
    ensures t != ""
    ensures r.title.Some? && r.title.value != "" ==> t == r.title.value
    ensures r.title.None? || r.title.value == "" ==> t == UntitledTitle
  {
    match r.title
    case Some(title) => if title != "" then title else UntitledTitle
    case None => UntitledTitle
  }

  /** The start of `handleSearch`: loading set, error cleared. */
  function BeginSearch(s: State): (r: State)
    ensures r.loading && r.error == None
    ensures r.recipes == s.recipes && r.ingredients == s.ingredients && r.showSearchBar == s.showSearchBar
  {
    s.(loading := true, error := None)
  }

  /** The end of `handleSearch`, after `searchRecipesByIngredients` settled. */
  function Complete(s: State, outcome: ApiOutcome<seq<Recipe>>): (r: State)
    ensures !r.loading && r.ingredients == s.ingredients
    ensures outcome.Success? ==>
      && r.recipes == outcome.data[..Min(|outcome.data|, MaxKept)]
      && !r.showSearchBar && r.error == s.error
    ensures outcome.Failure? ==>
      r.error == Some(outcome.message) && r.showSearchBar && r.recipes == s.recipes
  {
    match outcome
    case Success(data) =>
      SliceFromZero(data, MaxKept);
      s.(recipes := Slice(data, 0, MaxKept), showSearchBar := false, loading := false)
    case Failure(msg) => s.(error := Some(msg), showSearchBar := true, loading := false)
  }

  /** `handleNewSearch`; loading is not touched. */
  function NewSearch(s: State): (r: State)
    ensures r == Init().(loading := s.loading)
  {
    s.(recipes := [], ingredients := "", showSearchBar := true, error := None)
  }

  /** The search button's `disabled={loading || !ingredients}`. */
  predicate SearchDisabled(s: State)
  {
    s.loading || s.ingredients == ""
  }

  /** The New Search button is rendered when `!showSearchBar && recipes.length > 0`. */
  predicate NewSearchShown(s: State)
  {
    !s.showSearchBar && |s.recipes| > 0
  }

  /** The rows under the bar: `recipes.slice(0, 4)`, `(4, 7)`, `(7, 10)`. */
  function Shown(s: State): Rows.Layout<Recipe>
  {
    Rows.SplitRows(s.recipes)
  }

  datatype Event =
    | TypeIngredients(value: string)
    | Search(input: SearchBar.Input, outcome: ApiOutcome<seq<Recipe>>)
    | NewSearchClicked

  /** What the rendered screen offers, as written. */
  predicate Enabled(s: State, e: Event)
  {
    match e
    case TypeIngredients(_) => s.showSearchBar
    case Search(input, _) => s.showSearchBar && SearchBar.Triggers(input, s.ingredients, SearchDisabled(s))
    case NewSearchClicked => NewSearchShown(s)
  }

  function Step(s: State, e: Event): State
  {
    match e
    case TypeIngredients(v) => s.(ingredients := SearchBar.OnChange(v))
    case Search(_, outcome) => Complete(BeginSearch(s), outcome)
    case NewSearchClicked => NewSearch(s)
  }

  /** Between handlers nothing is loading, at most ten results are held, and
      the bar is only shown over an empty list. */
  predicate Inv(s: State)
  {
    && !s.loading
    && |s.recipes| <= MaxKept
    && (s.showSearchBar ==> s.recipes == [])
  }

  lemma StepKeepsInv(s: State, e: Event)
    requires Inv(s) && Enabled(s, e)
    ensures Inv(Step(s, e))
  {
  }

  /** In a reachable state the three rows show every held recipe, in order. */
  lemma RowsCoverRecipes(s: State)
    requires Inv(s)
    ensures Shown(s).first + Shown(s).second + Shown(s).third == s.recipes
  {
  }

  /** The button refuses to search while loading or with no ingredients,
      but Enter on non-blank text searches even while loading. */
  lemma ButtonGuardVersusEnter(s: State)
    ensures SearchDisabled(s) ==> !SearchBar.Triggers(SearchBar.ButtonClick, s.ingredients, SearchDisabled(s))
    ensures s.ingredients == "" ==> !SearchBar.Triggers(SearchBar.KeyDown("Enter"), s.ingredients, SearchDisabled(s))
    ensures SearchBar.HasVisibleChar(s.ingredients) ==>
              SearchBar.Triggers(SearchBar.KeyDown("Enter"), s.ingredients, SearchDisabled(s))
  {
  }

  /** New Search is idempotent and returns to the state on mount. */
  lemma NewSearchIdempotent(s: State)
    requires Inv(s)
    ensures NewSearch(NewSearch(s)) == NewSearch(s) == Init()
  {
  }

  /** As written, a successful search with no results leaves the screen with
      the bar hidden and no New Search button: nothing on the screen can be
      used any more. */
  lemma EmptyResultStrandsScreen(q: string)
    requires q != ""
    ensures Enabled(Init().(ingredients := q), Search(SearchBar.ButtonClick, Success([])))
    ensures var s := Step(Init().(ingredients := q), Search(SearchBar.ButtonClick, Success([])));
      Inv(s) && forall e :: !Enabled(s, e)
  {
  }

  /** The New Search button as evidently intended: shown whenever the bar is
      hidden, as on the other two search screens. */
  predicate NewSearchShownIntended(s: State)
  {
    !s.showSearchBar
  }

  predicate EnabledIntended(s: State, e: Event)
  {
    match e
    case NewSearchClicked => NewSearchShownIntended(s)
    case _ => Enabled(s, e)
  }

  /** With the intended button every state offers a way back to the search
      bar: typing in search mode, New Search in results mode. */
  lemma IntendedNeverStranded(s: State)
    ensures EnabledIntended(s, TypeIngredients("")) || EnabledIntended(s, NewSearchClicked)
    ensures EnabledIntended(s, NewSearchClicked) ==> Step(s, NewSearchClicked).showSearchBar
    ensures NewSearchShown(s) ==> NewSearchShownIntended(s)
    ensures Inv(s) && EnabledIntended(s, NewSearchClicked) ==> Step(s, NewSearchClicked) == Init()
  {
  }

  /** The intended screen keeps the same invariant as the screen as written. */
  lemma IntendedStepKeepsInv(s: State, e: Event)
    requires Inv(s) && EnabledIntended(s, e)
    ensures Inv(Step(s, e))
  {
  }

  /** The state that strands the screen as written is left by the intended
      New Search button, straight back to the state on mount. */
  lemma IntendedRescuesEmptyResult(q: string)
    requires q != ""
    ensures var s := Step(Init().(ingredients := q), Search(SearchBar.ButtonClick, Success([])));
      && !Enabled(s, NewSearchClicked)
      && EnabledIntended(s, NewSearchClicked)
      && Step(s, NewSearchClicked) == Init()
  {
  }
}
