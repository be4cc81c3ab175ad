/** The fixed 4/3/3 row layout of the random-recipes and ingredient screens:
    the list is cut at indices 4, 7 and 10 and anything beyond the tenth item
    is not shown. */
module Rows {
  import opened Common

  const FirstRowEnd: nat := 4
  const SecondRowEnd: nat := 7
  const ThirdRowEnd: nat := 10

  datatype Layout<T> = Layout(first: seq<T>, second: seq<T>, third: seq<T>)

  /** `[recipes.slice(0, 4), recipes.slice(4, 7), recipes.slice(7, 10)]`. */
  function SplitRows<T>(rs: seq<T>): (r: Layout<T>)
    ensures |r.first| <= 4 && |r.second| <= 3 && |r.third| <= 3
    ensures r.first + r.second + r.third == rs[..Min(|rs|, ThirdRowEnd)]
    ensures r.second != [] ==> |r.first| == 4
    ensures r.third != [] ==> |r.second| == 3
  {
    SliceAdjacent(rs, 0, FirstRowEnd, SecondRowEnd);
    SliceAdjacent(rs, 0, SecondRowEnd, ThirdRowEnd);
    SliceFromZero(rs, ThirdRowEnd);
    Layout(Slice(rs, 0, FirstRowEnd), Slice(rs, FirstRowEnd, SecondRowEnd), Slice(rs, SecondRowEnd, ThirdRowEnd))
  }

  /** Each row is the contiguous block of the list at its own fixed offset,
      so the rows occupy disjoint index ranges `[0,4)`, `[4,7)`, `[7,10)`. */
  lemma RowsAtFixedOffsets<T>(rs: seq<T>)
    ensures forall i :: 0 <= i < |SplitRows(rs).first| ==> rs[i] == SplitRows(rs).first[i]
    ensures forall i :: 0 <= i < |SplitRows(rs).second| ==> rs[FirstRowEnd + i] == SplitRows(rs).second[i]
    ensures forall i :: 0 <= i < |SplitRows(rs).third| ==> rs[SecondRowEnd + i] == SplitRows(rs).third[i]
  {
  }

  /** A list of at most ten items is shown entirely, and one of exactly ten
      fills the rows 4, 3 and 3. */
  lemma ShortListFullyShown<T>(rs: seq<T>)
    requires |rs| <= ThirdRowEnd
    ensures SplitRows(rs).first + SplitRows(rs).second + SplitRows(rs).third == rs
    ensures |rs| == ThirdRowEnd ==>
              |SplitRows(rs).first| == 4 && |SplitRows(rs).second| == 3 && |SplitRows(rs).third| == 3
  {
  }

  /** Two items all land in the first row. */
  lemma TwoItemsFirstRowOnly(a: int, b: int)
    ensures SplitRows([a, b]) == Layout([a, b], [], [])
  {
  }
}
