/** Client-side pagination of the text-search screen: four results per page,
    page numbers counted from 1, clamped previous/next moves and one button
    per page. */
module Pagination {
  import opened Common

  const PageSize: nat := 4

  /** Pages are numbered from 1; every setter of the screen keeps this. */
  type PageNumber = p: int | 1 <= p witness 1

  /** `Math.ceil(n / d)` for a natural count and a positive divisor. */
  function CeilDiv(n: nat, d: nat): nat
    requires d > 0
  {
    (n + d - 1) / d
  }

  /** `Math.ceil(n / 4) || 1`: an empty list still has one (empty) page. */
  function TotalPages(n: nat): (t: nat)
    ensures t >= 1
    ensures n == 0 ==> t == 1
    ensures n > 0 ==> (t - 1) * PageSize < n <= t * PageSize
  {
    var c := CeilDiv(n, PageSize);
    if c == 0 then 1 else c
  }

  /** Index of the first item shown on page `p`. */
  function PageStart(p: PageNumber): nat
  {
    (p - 1) * PageSize
  }

  /** The items shown on page `p`: the slice `[(p-1)*4, (p-1)*4 + 4)`. */
  function PageItems<T>(all: seq<T>, p: PageNumber): (r: seq<T>)
    ensures |r| <= PageSize
    ensures PageStart(p) < |all| ==> |r| == Min(PageSize, |all| - PageStart(p))
    ensures PageStart(p) >= |all| ==> r == []
    ensures forall i :: 0 <= i < |r| ==> r[i] == all[PageStart(p) + i]
  {
    Slice(all, PageStart(p), PageStart(p) + PageSize)
  }

  /** The "previous page" arrow: `Math.max(1, p - 1)`. */
  function PrevPage(p: PageNumber): PageNumber
  {
    Max(1, p - 1)
  }

  /** The "next page" arrow: `Math.min(totalPages, p + 1)`. */
  function NextPage(p: PageNumber, total: PageNumber): PageNumber
  {
    Min(total, p + 1)
  }

  /** The numbered page buttons: `Array.from({length: totalPages}, (_, i) => i + 1)`. */
  function PageButtons(total: nat): (r: seq<int>)
    ensures |r| == total
    ensures forall p :: p in r <==> 1 <= p <= total
    ensures forall i, j :: 0 <= i < j < |r| ==> r[i] < r[j]
  {
    var r := seq(total, i => i + 1);
    forall p | 1 <= p <= total
      ensures p in r
    {
      assert r[p - 1] == p;
    }
    r
  }

  /** Both arrows move at most one page, in their own direction, and keep a
      page that lies in `[1, total]` inside that range; each is a no-op
      exactly at its own end of the range, which is when the screen disables it. */
  lemma ArrowsStayInRange(p: PageNumber, total: PageNumber)
    requires p <= total
    ensures 1 <= PrevPage(p) <= total && 1 <= NextPage(p, total) <= total
    ensures PrevPage(p) == p - 1 || (p == 1 && PrevPage(p) == 1)
    ensures NextPage(p, total) == p + 1 || (p == total && NextPage(p, total) == total)
  {
  }

  /** A page in range is never empty when there is something to show. */
  lemma PageInRangeNonEmpty<T>(all: seq<T>, p: PageNumber)
    requires p <= TotalPages(|all|)
    ensures |PageItems(all, p)| > 0 <==> |all| > 0
  {
  }

  /** Concatenation of a list of lists, in order. */
  function Flatten<T>(pages: seq<seq<T>>): seq<T>
  {
    if |pages| == 0 then [] else Flatten(pages[..|pages| - 1]) + pages[|pages| - 1]
  }

  /** The first `k` pages, in page order. */
  function FirstPages<T>(all: seq<T>, k: nat): (r: seq<seq<T>>)
    ensures |r| == k
  {
    seq(k, i requires 0 <= i < k => PageItems(all, i + 1))
  }

  /** Pages 1..k together show exactly the first `4k` items, in order. */
  lemma {:induction false} FirstPagesCover<T>(all: seq<T>, k: nat)
    ensures Flatten(FirstPages(all, k)) == all[..Min(k * PageSize, |all|)]
  {
    if k > 0 {
      var ps := FirstPages(all, k);
      assert ps[..k - 1] == FirstPages(all, k - 1);
      FirstPagesCover(all, k - 1);
      var m := Min((k - 1) * PageSize, |all|);
      SliceFromZero(all, (k - 1) * PageSize);
      SliceFromZero(all, k * PageSize);
      SliceAdjacent(all, 0, (k - 1) * PageSize, k * PageSize);
      assert ps[k - 1] == Slice(all, (k - 1) * PageSize, k * PageSize);
    }
  }

  /** Walking the page buttons 1..totalPages shows every result exactly
      once, in the order the API returned them. */
  lemma AllPagesCoverResults<T>(all: seq<T>)
    ensures Flatten(FirstPages(all, TotalPages(|all|))) == all
  {
    FirstPagesCover(all, TotalPages(|all|));
  }
}
