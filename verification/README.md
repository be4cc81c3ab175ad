# Recipe search screens: result-view bookkeeping in Dafny

This project models the client-side bookkeeping of the recipe-discovery web
front end. There are three search screens, one similar-recipes modal and the
shared search bar. Each screen is an immutable state record with pure
transition functions. Every awaited API call becomes an abstract
`ApiOutcome`: `Success(data)` or `Failure(message)`. Each handler is a single
atomic transition.

- `Common`: `Option`, the `Recipe` summary (id, optional title), `ApiOutcome`,
  and `Slice`, which is `Array.prototype.slice` for non-negative bounds.
- `Pagination`: pages of 4 on the text-search screen. It covers `totalPages`,
  the previous and next arrows, and the page buttons.
- `Rows`: the 4/3/3 row split shared by the random and ingredient screens.
- `SearchBar`: the Enter-key guard using JavaScript `trim`, the button's
  `disabled` gate, and the raw `onChange`.
- `RecipeSearch`: the text-search screen. It has a search mode and a results
  mode, pagination, failure handling, New Search and the `resetSearchBar`
  navigation signal.
- `RandomRecipes`: the random-recipes screen. It has the digit filter, the
  count clamp into [1, 10], and success and failure handling. A failure does
  not change the mode.
- `IngredientSearch`: the ingredient screen. It keeps at most 10 results. A
  failure shows the bar again and keeps the old results. It also has the
  title fallback.
- `SimilarRecipes`: the modal's fetch guard and its fetches of 8 items, plus
  picking a recipe. It also holds a corrected one-shot guard (see Findings).

Each screen has an `Event` type and `Enabled(s, e)`, which says what the
rendered UI offers in state `s`. `Step(s, e)` applies an event. `Inv(s)` is
an invariant that every step the screen offers preserves.

Where the screens behave less uniformly than one would expect, the model
follows the code:
- Text search: the button is disabled only for an empty query (`!query`), so
  a query of spaces can still be submitted with the button. Enter needs a
  non-blank query.
- Ingredient search: a failure sets `showSearchBar` back to true. The random
  screen, by contrast, leaves the mode alone on failure.
- The `resetSearchBar` signal shows the bar, returns to page 1 and empties
  the results, but does not itself clear the query or the error. It only
  arrives with the navigation to `/search` from the detail view, and that
  route mounts the screen afresh, so the query and the error are already
  empty when it is applied (`RecipeSearch.ResetOnMountIsInit`).
- The similar-recipes modal fetches again after an empty successful result,
  although the modal is evidently meant to fetch once per mount (see
  Findings).

## Model

| member | source | states |
|---|---|---|
| Pagination.TotalPages | src/components/Templates/RecipeSearch.js:34 | the page count (`ceil(n/4)`, or 1 when that is 0) is at least 1, is 1 for an empty list, and otherwise is the unique `t` with `4(t-1) < n <= 4t` |
| Pagination.PageItems | src/components/Templates/RecipeSearch.js:28-31 | page `p` is the contiguous, order-preserving slice starting at `(p-1)*4`; it has at most 4 items, exactly `min(4, n - start)` when the start is inside the list, and none beyond the end |
| Pagination.PageButtons | src/components/Templates/RecipeSearch.js:75 | the buttons offer exactly the pages 1..totalPages, each once, in increasing order |
| Pagination.ArrowsStayInRange | src/components/Templates/RecipeSearch.js:64-93 | from a page in [1, total], "previous" (`max(1,p-1)`) and "next" (`min(total,p+1)`) stay in [1, total]; each moves one step, or stays put exactly at its own end, where the screen disables it |
| Pagination.PageInRangeNonEmpty | src/components/Templates/RecipeSearch.js:28-34 | a page within totalPages has items exactly when the result list does |
| Pagination.FirstPagesCover | src/components/Templates/RecipeSearch.js:28-31 | pages 1..k concatenated are the first `min(4k, n)` results, in order |
| Pagination.AllPagesCoverResults | src/components/Templates/RecipeSearch.js:28-34 | pages 1..totalPages concatenated give back the whole result list |
| Rows.SplitRows | src/components/Templates/getRandomRecipes.js:50-55 | rows of at most 4, 3 and 3 items whose concatenation is the first `min(n,10)` items; a later row is non-empty only when the earlier rows are full |
| Rows.RowsAtFixedOffsets | src/components/Templates/getRandomRecipes.js:50-55 | the rows are the blocks at offsets 0, 4 and 7, so they occupy the disjoint index ranges [0,4), [4,7) and [7,10) |
| Rows.ShortListFullyShown | src/components/Templates/searchRecipesByIngredients.js:46-48 | a list of at most 10 items is shown completely; a list of exactly 10 gives rows of 4, 3 and 3 |
| Rows.TwoItemsFirstRowOnly | src/components/Templates/getRandomRecipes.js:50-55 | two items all go into the first row and the other two rows are empty |
| SearchBar.TrimStart | src/components/searchBar.js:10 | the leading-whitespace strip removes only whitespace and leaves a suffix that is empty or starts with a visible character |
| SearchBar.TrimEnd | src/components/searchBar.js:10 | the trailing-whitespace strip removes only whitespace and leaves a prefix that is empty or ends with a visible character |
| SearchBar.TrimNonEmptyIffVisible | src/components/searchBar.js:10 | `value.trim() !== ''` holds exactly when some character is not ECMAScript whitespace |
| SearchBar.Triggers | src/components/searchBar.js:9-35 | a key press starts a search iff the key is Enter and the value has a visible character; a button click starts one iff the button is not disabled |
| SearchBar.EnterIgnoresDisabled | src/components/searchBar.js:9-35 | the Enter path gives the same answer whatever `disabled` is, so Enter on "pasta" searches while the disabled button does not |
| SearchBar.OtherKeysNeverTrigger | src/components/searchBar.js:10 | no key other than Enter ever starts a search |
| SearchBar.OnChange | src/components/searchBar.js:21 | the typed value reaches the screen character for character, with no filtering |
| RecipeSearch.OnSearch | src/components/Templates/RecipeSearch.js:36-48 | success stores `results` (empty when absent), returns to page 1, hides the bar, clears the error and shows the first up-to-4 results; failure empties the results, shows the bar and sets "Retype your search"; the query is kept either way |
| RecipeSearch.NewSearch | src/components/Templates/RecipeSearch.js:50-56 | New Search returns the screen to its state on mount: no results, empty query, bar shown, page 1, no error |
| RecipeSearch.ResetSignal | src/components/Templates/RecipeSearch.js:19-25 | the reset signal is New Search except that the query and the error are kept |
| RecipeSearch.InitInv | src/components/Templates/RecipeSearch.js:11-15 | the state on mount satisfies the screen invariant |
| RecipeSearch.StepKeepsInv | src/components/Templates/RecipeSearch.js:19-138 | every event the screen offers keeps the page within [1, totalPages] and keeps the bar shown only over an empty result list |
| RecipeSearch.VisibleNonEmptyIffResults | src/components/Templates/RecipeSearch.js:28-34 | in a reachable state the grid (and with it the pagination) is non-empty exactly when there are results |
| RecipeSearch.NewSearchIdempotent | src/components/Templates/RecipeSearch.js:50-56 | New Search twice is New Search once, and its result satisfies the invariant |
| RecipeSearch.ResetKeepsQueryAndError | src/components/Templates/RecipeSearch.js:19-25 | the reset signal shows the bar, sets page 1, empties the results, keeps the query and the error, and is idempotent |
| RecipeSearch.ResetOnMountIsInit | src/components/Templates/RecipeSearch.js:11-25 | applied to the screen as mounted, where the signal actually arrives, the reset leaves the state on mount unchanged |
| RecipeSearch.TenResultsScenario | src/components/Templates/RecipeSearch.js:28-42 | a successful search with 10 results enters results mode with 3 pages, and page 1 shows the first four |
| RandomRecipes.FilterDigits | src/components/Templates/getRandomRecipes.js:92 | the stored input holds digits only and keeps every digit of the typed text with its multiplicity; all-digit text passes unchanged |
| RandomRecipes.FilterDigitsDistributes | src/components/Templates/getRandomRecipes.js:92 | filtering works character by character: it distributes over concatenation and is idempotent |
| RandomRecipes.RequestCount | src/components/Templates/getRandomRecipes.js:9-22 | the requested count is in [1, 10]; empty or zero input gives 1, values above 10 give 10, and 1..10 pass through |
| RandomRecipes.RequestCountExamples | src/components/Templates/getRandomRecipes.js:22 | `""`, `"0"`, `"15"` and `"7"` request 1, 1, 10 and 7 recipes |
| RandomRecipes.BeginFetch | src/components/Templates/getRandomRecipes.js:19-21 | a fetch starts by setting loading and clearing the error; nothing else changes |
| RandomRecipes.Complete | src/components/Templates/getRandomRecipes.js:23-31 | loading ends after either outcome; success stores `data.recipes` and hides the bar; failure sets the error to the exception message and leaves the recipes and the mode alone |
| RandomRecipes.NewSearch | src/components/Templates/getRandomRecipes.js:38-43 | New Search returns to the state on mount (loading untouched) |
| RandomRecipes.StepKeepsInv | src/components/Templates/getRandomRecipes.js:19-94 | every step keeps the stored input digits-only and leaves nothing loading |
| RandomRecipes.RequestAlwaysInRange | src/components/Templates/getRandomRecipes.js:22 | in every reachable state the count a search would request lies in [1, 10] |
| RandomRecipes.FailureKeepsScreen | src/components/Templates/getRandomRecipes.js:27-29 | a failed search changes only the error |
| RandomRecipes.NewSearchIdempotent | src/components/Templates/getRandomRecipes.js:38-43 | New Search twice is New Search once, and both equal the state on mount |
| RandomRecipes.ShownIsPrefix | src/components/Templates/getRandomRecipes.js:125-129 | results mode shows the first `min(n,10)` recipes in order, and search mode shows none |
| IngredientSearch.DisplayTitle | src/components/Templates/searchRecipesByIngredients.js:161 | the card title is the recipe's title when present and non-empty, otherwise "Untitled Recipe"; it is never empty |
| IngredientSearch.BeginSearch | src/components/Templates/searchRecipesByIngredients.js:20-22 | a search starts by setting loading and clearing the error; nothing else changes |
| IngredientSearch.Complete | src/components/Templates/searchRecipesByIngredients.js:23-32 | loading ends after either outcome; success keeps the first `min(n,10)` results in order and hides the bar; failure sets the error to the exception message, shows the bar and keeps the old results |
| IngredientSearch.NewSearch | src/components/Templates/searchRecipesByIngredients.js:35-40 | New Search returns to the state on mount (loading untouched) |
| IngredientSearch.StepKeepsInv | src/components/Templates/searchRecipesByIngredients.js:20-99 | every offered step keeps at most 10 results, leaves nothing loading, and shows the bar only over an empty list |
| IngredientSearch.RowsCoverRecipes | src/components/Templates/searchRecipesByIngredients.js:46-48 | in a reachable state the three rows together are all held recipes, in order |
| IngredientSearch.ButtonGuardVersusEnter | src/components/Templates/searchRecipesByIngredients.js:99 | the button cannot search while loading or with no ingredients; Enter cannot search with no ingredients but does search on non-blank text even while loading |
| IngredientSearch.NewSearchIdempotent | src/components/Templates/searchRecipesByIngredients.js:35-40 | New Search twice is New Search once, and both equal the state on mount |
| IngredientSearch.EmptyResultStrandsScreen | src/components/Templates/searchRecipesByIngredients.js:57 | as written, after a successful search with no results no event is enabled: the bar is hidden and New Search is not rendered |
| IngredientSearch.IntendedNeverStranded | src/components/Templates/searchRecipesByIngredients.js:57 | with New Search shown whenever the bar is hidden, every state offers an event, New Search from a reachable state returns exactly to the state on mount, and the intended button shows at least whenever the written one does |
| IngredientSearch.IntendedStepKeepsInv | src/components/Templates/searchRecipesByIngredients.js:35-57 | the screen with the intended button keeps the same invariant: at most 10 results, nothing loading, the bar only over an empty list |
| IngredientSearch.IntendedRescuesEmptyResult | src/components/Templates/searchRecipesByIngredients.js:23-57 | after a successful search with no results, the written button is absent but the intended one is offered and leads back to the state on mount |
| SimilarRecipes.Fetch | src/components/Templates/SimilarRecipes.js:14-24 | loading is false after either outcome; success stores the response and no error; failure sets "Failed to load similar recipes" and keeps the list |
| SimilarRecipes.Step | src/components/Templates/SimilarRecipes.js:27-39 | an event issues a request iff it is an effect run whose guard holds (open, empty list, not loading, no error); at most one request, always for this recipe and 8 items |
| SimilarRecipes.PickNavigatesAndCloses | src/components/Templates/SimilarRecipes.js:36-39 | picking a recipe navigates to its id, closes the modal and issues no request |
| SimilarRecipes.RunRequestsAreForRecipe | src/components/Templates/SimilarRecipes.js:18 | every request of any run of events is for the component's recipe id and asks for 8 items |
| SimilarRecipes.SettledNeverRefetches | src/components/Templates/SimilarRecipes.js:27-30 | once the list is non-empty or an error is set, no sequence of opens, closes, effect runs and picks issues another request |
| SimilarRecipes.NoResultsLineIsFetchTrigger | src/components/Templates/SimilarRecipes.js:28-56 | while open, the "No similar recipes found" line shows exactly when the fetch guard fires |
| SimilarRecipes.EmptyResultRefetches | src/components/Templates/SimilarRecipes.js:19-30 | as written, with the guard open and empty successful responses, `n` effect runs issue `n` requests |
| SimilarRecipes.FetchOnce | src/components/Templates/SimilarRecipes.js:14-24 | the corrected fetch always leaves the not-started phase: loaded with the response, or failed with the fixed message |
| SimilarRecipes.StepOnce | src/components/Templates/SimilarRecipes.js:27-30 | under the corrected guard an event issues a request iff it is an effect run while open and not started; the request is for this recipe and 8 items, at most one is issued, and the not-started phase is never entered again |
| SimilarRecipes.RunOnceFetchesAtMostOnce | src/components/Templates/SimilarRecipes.js:27-30 | under the corrected guard any run issues at most one request, and none once a fetch has happened, whatever it returned |
| SimilarRecipes.FirstOpenFetchesOnce | src/components/Templates/SimilarRecipes.js:14-30 | under the corrected guard, opening a fresh modal and running the effect issues exactly one request for this recipe and 8 items, and no later events (an empty response included) issue another |

## Left out

- `src/services/apiService.js`, the HTTP layer with its API key, is not part of this model. Each call is an abstract `ApiOutcome`. The request parameters of the text and ingredient searches (query, ingredients, `number = 10`) are not modelled as values.
- Async ordering, double submits and React effect scheduling are not modelled. Each handler is one atomic step. A fetch is split into its start and its completion only where the screen has a loading flag. Between events nothing is loading.
- `RecipeInformation.js`, the rendering, layout and styling (`App.js`, `layout.js`, `Header.js`) and the modal's scroll reset are not part of this model. The detail view's "back to search" matters here only as the `resetSearchBar` event of the text-search screen.
- The navigation to a recipe's details page from a result card (`handleViewDetails`) is not modelled. It changes no screen state. The modal's pick is modelled because it also closes the modal.
- RandomRecipes.RequestCount: requires digits-only input and reads `Number()` as the decimal value. Stored input is always digits-only (`RandomRecipes.StepKeepsInv`), so `Number()` on other strings (NaN, whitespace, exponents) and its floating-point rounding never apply.
- RandomRecipes.Complete: takes the response as the `recipes` list itself. An absent `data.recipes`, which would crash the render, is not modelled.
- RecipeSearch.Enabled: offers `ResetArrived` in every state. The signal is only sent by the detail view's navigation to `/search` (`RecipeInformation.js:108`), and `/search` and `/recipe-details/:recipeId` are separate routes (`App.js:65`, `App.js:68`), so in the program it only ever meets the freshly mounted screen. Allowing it everywhere is a safe over-approximation: the invariant holds either way.
- The header's route links, which can still leave a stranded ingredient screen, are not modelled.

## Findings

| source | as written | input that shows it | evidently intended | confidence | as-written member | corrected member |
|---|---|---|---|---|---|---|
| src/components/Templates/searchRecipesByIngredients.js:57 | New Search is rendered only when `!showSearchBar && recipes.length > 0`, and a successful search hides the bar | a non-empty ingredient list whose search succeeds with `[]` | New Search whenever the bar is hidden, as on the other two screens | not executed; high | IngredientSearch.EmptyResultStrandsScreen | IngredientSearch.IntendedNeverStranded |
| src/components/Templates/SimilarRecipes.js:28 | the fetch guard tests `similarRecipes.length === 0`, so an empty successful response reopens it and every effect run fetches again while the modal is open | open the modal of a recipe whose similar-recipes response is `[]` | one fetch per mount, with "loaded, possibly empty" distinct from "not fetched" | not executed; high | SimilarRecipes.EmptyResultRefetches | SimilarRecipes.FirstOpenFetchesOnce |

The screen modules keep the as-written behaviour for everything else.
`IngredientSearch.EnabledIntended` and `SimilarRecipes.StepOnce` are the
corrected definitions, used by the corrected lemmas.
