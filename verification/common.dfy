/** Shared vocabulary of the recipe screens: optional values, the recipe
    summaries the remote API returns, the abstract outcome of one API call,
    and the slicing primitive every screen uses to carve up a result list. */
module Common {

  datatype Option<+T> = None | Some(value: T)

  /** A recipe summary as listed by the API: an opaque id and a title that
      the ingredient endpoint may leave out. */
  datatype Recipe = Recipe(id: int, title: Option<string>)

  /** The result of awaiting one API call: the parsed response body, or the
      message of the error the call threw. Transport details are not modelled. */
  datatype ApiOutcome<+T> = Success(data: T) | Failure(message: string)

  function Min(a: int, b: int): int { if a <= b then a else b }

  function Max(a: int, b: int): int { if a <= b then b else a }

  /** `s.slice(start, end)` for non-negative bounds: both bounds are clamped
      to the length, and an empty range gives the empty list. */
  function Slice<T>(s: seq<T>, start: nat, end: nat): (r: seq<T>)
    ensures |r| == Max(0, Min(end, |s|) - start)
    ensures forall i :: 0 <= i < |r| ==> start + i < |s| && r[i] == s[start + i]
  {
    var lo := Min(start, |s|);
    var hi := Min(end, |s|);
    if hi <= lo then [] else s[lo..hi]
  }

  /** Slicing from the front is taking a prefix. */
  lemma SliceFromZero<T>(s: seq<T>, end: nat)
    ensures Slice(s, 0, end) == s[..Min(end, |s|)]
  {
  }

  /** Two adjacent slices glue into the slice that spans both. */
  lemma SliceAdjacent<T>(s: seq<T>, a: nat, b: nat, c: nat)
    requires a <= b <= c
    ensures Slice(s, a, b) + Slice(s, b, c) == Slice(s, a, c)
  {
  }
}
