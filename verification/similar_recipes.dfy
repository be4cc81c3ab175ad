/** The similar-recipes modal of one recipe card: opening it fetches eight
    related recipes once the fetch guard lets it, and picking one navigates
    to its details and closes the modal. */
module SimilarRecipes {
  import opened Common

  /** `getSimilarRecipes(recipeId, 8)`. */
  const SimilarCount: nat := 8

  const LoadFailedMessage: string := "Failed to load similar recipes"

  datatype State = State(isOpen: bool, similar: seq<Recipe>, loading: bool, error: Option<string>)

  /** A request issued to the API: the recipe it is about and how many items. */
  datatype Request = Request(recipeId: int, count: nat)

  function Init(): State
  {
    State(false, [], false, None)
  }

  /** The effect's condition `isOpen && similarRecipes.length === 0 && !loading && !error`. */
  predicate ShouldFetch(s: State)
  {
    s.isOpen && |s.similar| == 0 && !s.loading && s.error.None?
  }

  /** The modal body's "No similar recipes found" line. */
  predicate NoResultsShown(s: State)
  {
    !s.loading && s.error.None? && |s.similar| == 0
  }

  /** `fetchSimilarRecipes`, with the awaited call's outcome. */
  function Fetch(s: State, outcome: ApiOutcome<seq<Recipe>>): (r: State)
    ensures !r.loading && r.isOpen == s.isOpen
    ensures outcome.Success? ==> r.similar == outcome.data && r.error == None
    ensures outcome.Failure? ==> r.error == Some(LoadFailedMessage) && r.similar == s.similar
  {
    var started := s.(loading := true, error := None);
    match outcome
    case Success(data) => started.(similar := data, loading := false)
    case Failure(_) => started.(error := Some(LoadFailedMessage), loading := false)
  }

  datatype Event =
    | Open
    | Close
    | EffectRuns(outcome: ApiOutcome<seq<Recipe>>)
    | Pick(id: int)

  /** The state after an event, the requests it issued and where it navigated. */
  datatype Effect = Effect(state: State, requests: seq<Request>, navigateTo: Option<int>)

  function Step(recipeId: int, s: State, e: Event): (r: Effect)
    ensures |r.requests| <= 1
    ensures r.requests != [] <==> e.EffectRuns? && ShouldFetch(s)
    ensures forall q :: q in r.requests ==> q == Request(recipeId, SimilarCount)
  {
    match e
    case Open => Effect(s.(isOpen := true), [], None)
    case Close => Effect(s.(isOpen := false), [], None)
    case EffectRuns(outcome) =>
      if ShouldFetch(s) then Effect(Fetch(s, outcome), [Request(recipeId, SimilarCount)], None)
      else Effect(s, [], None)
    case Pick(id) => Effect(s.(isOpen := false), [], Some(id))
  }

  /** `handleRecipeClick`: navigate to the picked recipe and close the modal. */
  lemma PickNavigatesAndCloses(recipeId: int, s: State, id: int)
    ensures Step(recipeId, s, Pick(id)).navigateTo == Some(id)
    ensures !Step(recipeId, s, Pick(id)).state.isOpen
    ensures Step(recipeId, s, Pick(id)).requests == []
  {
  }

  /** Runs a sequence of events; returns the final state and every request issued. */
  function Run(recipeId: int, s: State, es: seq<Event>): (State, seq<Request>)
    decreases |es|
  {
    if es == [] then (s, [])
    else
      var step := Step(recipeId, s, es[0]);
      var rest := Run(recipeId, step.state, es[1..]);
      (rest.0, step.requests + rest.1)
  }

  /** Every request a run issues is for the component's own recipe and asks
      for eight items. */
  lemma {:induction false} RunRequestsAreForRecipe(recipeId: int, s: State, es: seq<Event>)
    ensures forall q :: q in Run(recipeId, s, es).1 ==> q == Request(recipeId, SimilarCount)
    decreases |es|
  {
    if es != [] {
      RunRequestsAreForRecipe(recipeId, Step(recipeId, s, es[0]).state, es[1..]);
    }
  }

  /** The guard is blocked for good once something was loaded or an error set. */
  predicate Settled(s: State)
  {
    |s.similar| > 0 || s.error.Some?
  }

  /** Once the list is non-empty or an error is set, no run of opens, closes,
      effect runs and picks issues another request. */
  lemma {:induction false} SettledNeverRefetches(recipeId: int, s: State, es: seq<Event>)
    requires Settled(s)
    ensures Run(recipeId, s, es).1 == []
    ensures Settled(Run(recipeId, s, es).0)
    decreases |es|
  {
    if es != [] {
      var step := Step(recipeId, s, es[0]);
      assert step.requests == [] && step.state.similar == s.similar && step.state.error == s.error;
      SettledNeverRefetches(recipeId, step.state, es[1..]);
    }
  }

  /** While the modal is open the "no results" line and the fetch trigger
      coincide: the guard reads an empty list as "not fetched yet". */
  lemma NoResultsLineIsFetchTrigger(s: State)
    requires s.isOpen
    ensures NoResultsShown(s) <==> ShouldFetch(s)
  {
  }

  /** `n` copies of `x`. */
  function Repeat<T>(x: T, n: nat): (r: seq<T>)
    ensures |r| == n && forall i :: 0 <= i < n ==> r[i] == x
  {
    if n == 0 then [] else [x] + Repeat(x, n - 1)
  }

  /** As written, an empty successful response leaves the guard open: with
      the modal open, every one of `n` effect runs issues a new request. */
  lemma {:induction false} EmptyResultRefetches(recipeId: int, s: State, n: nat)
    requires ShouldFetch(s)
    ensures Run(recipeId, s, Repeat(EffectRuns(Success([])), n)).1 == Repeat(Request(recipeId, SimilarCount), n)
  {
    if n > 0 {
      var es := Repeat(EffectRuns(Success([])), n);
      assert es[0] == EffectRuns(Success([])) && es[1..] == Repeat(EffectRuns(Success([])), n - 1);
      assert Step(recipeId, s, es[0]).state == s;
      EmptyResultRefetches(recipeId, s, n - 1);
    }
  }

  /** The fetch life cycle as evidently intended: not started, loaded
      (possibly with nothing) or failed. The in-flight phase is not a state
      of its own here because a fetch is one atomic step. */
  datatype Phase = NotStarted | Loaded(items: seq<Recipe>) | Failed(message: string)

  datatype OnceState = OnceState(isOpen: bool, phase: Phase)

  predicate ShouldFetchOnce(s: OnceState)
  {
    s.isOpen && s.phase.NotStarted?
  }

  function FetchOnce(s: OnceState, outcome: ApiOutcome<seq<Recipe>>): (r: OnceState)
    ensures !r.phase.NotStarted? && r.isOpen == s.isOpen
    ensures outcome.Success? ==> r.phase == Loaded(outcome.data)
    ensures outcome.Failure? ==> r.phase == Failed(LoadFailedMessage)
  {
    match outcome
    case Success(data) => s.(phase := Loaded(data))
    case Failure(_) => s.(phase := Failed(LoadFailedMessage))
  }

  function StepOnce(recipeId: int, s: OnceState, e: Event): (r: (OnceState, seq<Request>))
    ensures r.1 != [] ==> s.phase.NotStarted? && !r.0.phase.NotStarted?
    ensures s.phase.NotStarted? ==> |r.1| <= 1
    ensures !s.phase.NotStarted? ==> r.1 == [] && !r.0.phase.NotStarted?
    ensures r.1 != [] <==> e.EffectRuns? && ShouldFetchOnce(s)
    ensures forall q :: q in r.1 ==> q == Request(recipeId, SimilarCount)
  {
    match e
    case Open => (s.(isOpen := true), [])
    case Close => (s.(isOpen := false), [])
    case EffectRuns(outcome) =>
      if ShouldFetchOnce(s) then (FetchOnce(s, outcome), [Request(recipeId, SimilarCount)])
      else (s, [])
    case Pick(_) => (s.(isOpen := false), [])
  }

  function RunOnce(recipeId: int, s: OnceState, es: seq<Event>): (OnceState, seq<Request>)
    decreases |es|
  {
    if es == [] then (s, [])
    else
      var step := StepOnce(recipeId, s, es[0]);
      var rest := RunOnce(recipeId, step.0, es[1..]);
      (rest.0, step.1 + rest.1)
  }

  /** With the tri-state guard a mounted modal issues at most one request,
      and none once a fetch has started, whatever the response was. */
  lemma {:induction false} RunOnceFetchesAtMostOnce(recipeId: int, s: OnceState, es: seq<Event>)
    ensures |RunOnce(recipeId, s, es).1| <= (if s.phase.NotStarted? then 1 else 0)
    ensures !s.phase.NotStarted? ==> !RunOnce(recipeId, s, es).0.phase.NotStarted?
    decreases |es|
  {
    if es != [] {
      var step := StepOnce(recipeId, s, es[0]);
      RunOnceFetchesAtMostOnce(recipeId, step.0, es[1..]);
    }
  }

  /** Opening a fresh modal and letting the effect run issues exactly one
      request, for eight recipes like this one, and nothing that follows
      (an empty result included) issues another. */
  lemma FirstOpenFetchesOnce(recipeId: int, outcome: ApiOutcome<seq<Recipe>>, es: seq<Event>)
    ensures RunOnce(recipeId, OnceState(false, NotStarted), [Open, EffectRuns(outcome)] + es).1
         == [Request(recipeId, SimilarCount)]
  {
    var all := [Open, EffectRuns(outcome)] + es;
    assert all[0] == Open && all[1..] == [EffectRuns(outcome)] + es;
    assert all[1..][0] == EffectRuns(outcome) && all[1..][1..] == es;
    var fetched := FetchOnce(OnceState(true, NotStarted), outcome);
    RunOnceFetchesAtMostOnce(recipeId, fetched, es);
  }
}
