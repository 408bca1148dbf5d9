/** The page selector under the product grid. */
module PaginationControls {
  import Paging

  function Max(a: int, b: int): int { if a >= b then a else b }

  /**
   * The selector renders nothing when the current page loaded no products
   * (`products.length`) or there is a single page.
   */
  predicate Rendered(loadedCount: nat, totalPages: int) {
    !(loadedCount == 0 || totalPages <= 1)
  }

  /** The consecutive page numbers `lo..hi`, empty when `lo > hi`. */
  function Range(lo: int, hi: int): (r: seq<int>)
    ensures |r| == (if lo <= hi then hi - lo + 1 else 0)
    ensures forall i :: 0 <= i < |r| ==> r[i] == lo + i
    decreases hi - lo
  {
    if lo > hi then [] else [lo] + Range(lo + 1, hi)
  }

  /** The window of up to two pages on each side of the current one. */
  function Window(currentPage: int, totalPages: int): seq<int> {
    Range(Max(1, currentPage - 2), Paging.Min(totalPages, currentPage + 2))
  }

  /** `getPageNumbers`: the `for` loop that pushes every page of the window. */
  method GetPageNumbers(currentPage: int, totalPages: int) returns (pageNumbers: seq<int>)
    ensures pageNumbers == Window(currentPage, totalPages)
  {
    pageNumbers := [];
    var lo := Max(1, currentPage - 2);
    var hi := Paging.Min(totalPages, currentPage + 2);
    var i := lo;
    while i <= hi
      invariant lo <= i <= Max(lo, hi + 1)
      invariant |pageNumbers| == i - lo
      invariant forall k :: 0 <= k < |pageNumbers| ==> pageNumbers[k] == lo + k
      decreases hi - i
    {
      pageNumbers := pageNumbers + [i];
      i := i + 1;
    }
    var w := Range(lo, hi);
    assert |pageNumbers| == |w|;
    assert forall k :: 0 <= k < |w| ==> pageNumbers[k] == w[k];
  }

  /**
   * The window has at most five pages, all within `[1, totalPages]` and at
   * most two away from the current page, and it holds the current page
   * whenever that is a real page.
   */
  lemma WindowProperties(currentPage: int, totalPages: int)
    ensures var w := Window(currentPage, totalPages);
      |w| <= 5 &&
      (forall i :: 0 <= i < |w| ==> 1 <= w[i] <= totalPages && currentPage - 2 <= w[i] <= currentPage + 2) &&
      (forall i :: 0 <= i < |w| - 1 ==> w[i + 1] == w[i] + 1) &&
      (1 <= currentPage <= totalPages ==> currentPage in w)
  {
    var w := Window(currentPage, totalPages);
    if 1 <= currentPage <= totalPages {
      var lo := Max(1, currentPage - 2);
      assert w[currentPage - lo] == currentPage;
    }
  }

  /** The First and Prev buttons and their targets, shown only past the first page. */
  function FirstPrev(currentPage: int): (r: seq<int>)
    ensures |r| > 0 <==> currentPage > 1
    ensures |r| > 0 ==> r == [1, currentPage - 1]
  {
    if currentPage > 1 then [1, currentPage - 1] else []
  }

  /** The Next and Last buttons and their targets, shown only before the last page. */
  function NextLast(currentPage: int, totalPages: int): (r: seq<int>)
    ensures |r| > 0 <==> currentPage < totalPages
    ensures |r| > 0 ==> r == [currentPage + 1, totalPages]
  {
    if currentPage < totalPages then [currentPage + 1, totalPages] else []
  }

  /** On a real page, every button of the selector leads to a real page. */
  lemma ButtonsStayInRange(currentPage: int, totalPages: int)
    requires 1 <= currentPage <= totalPages
    ensures var buttons := FirstPrev(currentPage) + Window(currentPage, totalPages) + NextLast(currentPage, totalPages);
      forall p :: p in buttons ==> 1 <= p <= totalPages
  {
    WindowProperties(currentPage, totalPages);
  }
}
