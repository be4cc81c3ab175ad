/** The random-recipes screen: the user types how many recipes to fetch (the
    input keeps digits only), the count is clamped into [1, 10], and the
    result is laid out in rows of 4, 3 and 3. A failed fetch only sets the
    error: the recipes and the mode stay as they were. */
module RandomRecipes {
  import opened Common
  import Rows
  import SearchBar

  const MaxRecipes: nat := 10

  predicate IsDigit(c: char)
  {
    '0' <= c <= '9'
  }

  predicate AllDigits(s: string)
  {
    forall i :: 0 <= i < |s| ==> IsDigit(s[i])
  }

  /** Number of characters of `s` the digit filter keeps. */
  function DigitCount(s: string): nat
  {
    if s == [] then 0 else (if IsDigit(s[0]) then 1 else 0) + DigitCount(s[1..])
  }

  /** `value.replace(/[^0-9]/g, '')`. */
  function FilterDigits(raw: string): (r: string)
    ensures AllDigits(r)
    ensures |r| == DigitCount(raw)
    ensures AllDigits(raw) ==> r == raw
    ensures forall c :: IsDigit(c) ==> multiset(r)[c] == multiset(raw)[c]
  {
    if raw == [] then []
    else
      var rest := FilterDigits(raw[1..]);
      assert raw == [raw[0]] + raw[1..];
      (if IsDigit(raw[0]) then [raw[0]] else []) + rest
  }

  /** The filter works character by character, so filtering a text is
      filtering its pieces; in particular it is idempotent. */
  lemma {:induction false} FilterDigitsDistributes(a: string, b: string)
    ensures FilterDigits(a + b) == FilterDigits(a) + FilterDigits(b)
    ensures FilterDigits(FilterDigits(a)) == FilterDigits(a)
  {
    if a != [] {
      assert (a + b)[1..] == a[1..] + b;
      FilterDigitsDistributes(a[1..], b);
    } else {
      assert a + b == b;
    }
  }

  function DigitValue(c: char): nat
    requires IsDigit(c)
  {
    (c as int) - ('0' as int)
  }

  /** `Number(s)` on a digits-only string: its decimal value, with `""` read as 0. */
  function DecimalValue(s: string): nat
    requires AllDigits(s)
  {
    if s == [] then 0 else DecimalValue(s[..|s| - 1]) * 10 + DigitValue(s[|s| - 1])
  }

  /** `Math.max(1, Math.min(Number(number) || 1, MAX_RECIPES))`. */
  function RequestCount(number: string): (n: nat)
    requires AllDigits(number)
    ensures 1 <= n <= MaxRecipes
    ensures DecimalValue(number) == 0 ==> n == 1
    ensures DecimalValue(number) > MaxRecipes ==> n == MaxRecipes
    ensures 1 <= DecimalValue(number) <= MaxRecipes ==> n == DecimalValue(number)
  {
    var v := DecimalValue(number);
    var orOne := if v == 0 then 1 else v;
    Max(1, Min(orOne, MaxRecipes))
  }

  /** Empty input, `"0"` and `"15"` ask for 1, 1 and 10 recipes. */
  lemma RequestCountExamples()
    ensures RequestCount("") == 1
    ensures RequestCount("0") == 1
    ensures RequestCount("15") == 10
    ensures RequestCount("7") == 7
  {
  }

  datatype State = State(
    recipes: seq<Recipe>,
    loading: bool,
    error: Option<string>,
    number: string,
    showSearchBar: bool)

  function Init(): State
  {
    State([], false, None, "", true)
  }

  /** The start of `fetchRandomRecipes`: loading is set and the error cleared;
      the request asks for `RequestCount(number)` recipes. */
  function BeginFetch(s: State): (r: State)
    ensures r.loading && r.error == None
    ensures r.recipes == s.recipes && r.number == s.number && r.showSearchBar == s.showSearchBar
  {
    s.(loading := true, error := None)
  }

  /** The end of `fetchRandomRecipes`, after `getRandomRecipes` settled. */
  function Complete(s: State, outcome: ApiOutcome<seq<Recipe>>): (r: State)
    ensures !r.loading && r.number == s.number
    ensures outcome.Success? ==> r.recipes == outcome.data && !r.showSearchBar && r.error == s.error
    ensures outcome.Failure? ==>
      r.error == Some(outcome.message) && r.recipes == s.recipes && r.showSearchBar == s.showSearchBar
  {
    match outcome
    case Success(recipes) => s.(recipes := recipes, showSearchBar := false, loading := false)
    case Failure(msg) => s.(error := Some(msg), loading := false)
  }

  /** `handleNewSearch`; loading is not touched. */
  function NewSearch(s: State): (r: State)
    ensures r == Init().(loading := s.loading)
  {
    s.(recipes := [], showSearchBar := true, number := "", error := None)
  }

  /** The three rows shown in results mode (nothing in search mode). */
  function Shown(s: State): Rows.Layout<Recipe>
  {
    if !s.showSearchBar && |s.recipes| > 0 then Rows.SplitRows(s.recipes) else Rows.Layout([], [], [])
  }

  datatype Event =
    | TypeNumber(raw: string)
    | Search(input: SearchBar.Input, outcome: ApiOutcome<seq<Recipe>>)
    | NewSearchClicked

  /** The bar exists in search mode only, its button disabled while loading;
      New Search exists in results mode only. */
  predicate Enabled(s: State, e: Event)
  {
    match e
    case TypeNumber(_) => s.showSearchBar
    case Search(input, _) => s.showSearchBar && SearchBar.Triggers(input, s.number, s.loading)
    case NewSearchClicked => !s.showSearchBar
  }

  function Step(s: State, e: Event): State
  {
    match e
    case TypeNumber(raw) => s.(number := FilterDigits(SearchBar.OnChange(raw)))
    case Search(_, outcome) => Complete(BeginFetch(s), outcome)
    case NewSearchClicked => NewSearch(s)
  }

  /** Between handlers nothing is loading, and the stored input holds
      digits only, so it always parses to a count. */
  predicate Inv(s: State)
  {
    !s.loading && AllDigits(s.number)
  }

  /** Every step keeps the invariant, whether or not the UI offers it. */
  lemma StepKeepsInv(s: State, e: Event)
    requires Inv(s)
    ensures Inv(Step(s, e))
  {
  }

  /** A search asks for between 1 and 10 recipes, whatever was typed. */
  lemma RequestAlwaysInRange(s: State, e: Event)
    requires Inv(s)
    ensures 1 <= RequestCount(BeginFetch(s).number) <= MaxRecipes
    ensures 1 <= RequestCount(Step(s, e).number) <= MaxRecipes
  {
  }

  /** On failure only the error changes: the recipes, the mode and the typed
      count are those from before the search. */
  lemma FailureKeepsScreen(s: State, input: SearchBar.Input, msg: string)
    requires Inv(s)
    ensures var r := Step(s, Search(input, Failure(msg)));
      r == s.(error := Some(msg))
  {
  }

  /** New Search is idempotent and returns to the state on mount. */
  lemma NewSearchIdempotent(s: State)
    requires Inv(s)
    ensures NewSearch(NewSearch(s)) == NewSearch(s) == Init()
  {
  }

  /** In results mode the rows show the first `min(len, 10)` recipes in
      order; in search mode nothing is shown. */
  lemma ShownIsPrefix(s: State)
    ensures Shown(s).first + Shown(s).second + Shown(s).third
         == (if s.showSearchBar then [] else s.recipes[..Min(|s.recipes|, Rows.ThirdRowEnd)])
  {
  }
}
