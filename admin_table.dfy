/**
 * What the three admin tables (products, orders, users) share: eight rows a
 * page, the page buttons under the table, the page that goes back to 1
 * whenever the filter or the search changes, and the outcome of a form
 * button that either shows a toast or dispatches a request.
 */
module AdminTable {
  import Lists
  import Paging

  /** `ROWS_PER_PAGE`. */
  const RowsPerPage: nat := 8

  /** The page a table opens on, and the one a new filter or search sends it back to. */
  const FirstPage: int := 1

  /** `Math.ceil(filtered.length / ROWS_PER_PAGE)`. */
  function TotalPages(rows: nat): (r: nat)
    ensures rows <= r * RowsPerPage
    ensures r > 0 ==> (r - 1) * RowsPerPage < rows
  {
    Paging.CeilDiv(rows, RowsPerPage)
  }

  /** `filtered.slice((page - 1) * ROWS_PER_PAGE, page * ROWS_PER_PAGE)`. */
  function Paginated<T>(rows: seq<T>, page: int): seq<T> {
    Lists.JsSlice(rows, (page - 1) * RowsPerPage, page * RowsPerPage)
  }

  /** The pagination controls are rendered only when `totalPages > 1`. */
  predicate ShowsControls(totalPages: nat) {
    totalPages > 1
  }

  /** A click under the table: `‹`, `›`, or the button of page `n`. */
  datatype PageButton = Prev | Next | Number(n: int)

  /**
   * The page after a click. Nothing is rendered to click on a single page;
   * `‹` is disabled on page 1, `›` on page `totalPages`, and the numbered
   * buttons are `1..totalPages`.
   */
  function Navigate(page: int, totalPages: nat, b: PageButton): int {
    if !ShowsControls(totalPages) then page
    else match b
      case Prev => if page == 1 then page else page - 1
      case Next => if page == totalPages then page else page + 1
      case Number(n) => if 1 <= n <= totalPages then n else page
  }

  /** What a form button does: a toast that refuses, or a dispatched request. */
  datatype Submit<T> = Refused(toast: string) | Dispatched(request: T)

  /* ---------------- properties ---------------- */

  /** For a page counted from 1 the slice is the `Paging.Page` of eight rows. */
  lemma PaginatedIsPage<T>(rows: seq<T>, page: int)
    requires page >= 1
    ensures Paginated(rows, page) == Paging.Page(rows, page, RowsPerPage)
    ensures |Paginated(rows, page)| <= RowsPerPage
  {
    Paging.SliceIsPage(rows, page, RowsPerPage);
  }

  /**
   * The pages `1..totalPages` show every filtered row exactly once and in
   * order, each of them holds one to eight rows, and a page past the last
   * shows nothing.
   */
  lemma AllRowsPaged<T>(rows: seq<T>)
    ensures forall p :: 1 <= p <= TotalPages(|rows|) ==> 1 <= |Paginated(rows, p)| <= RowsPerPage
    ensures forall p :: p > TotalPages(|rows|) ==> Paginated(rows, p) == []
    ensures Paging.PagesUpTo(rows, TotalPages(|rows|), RowsPerPage) == rows
  {
    Paging.PagesPartition(rows, RowsPerPage);
    forall p | 1 <= p <= TotalPages(|rows|)
      ensures 1 <= |Paginated(rows, p)| <= RowsPerPage
    {
      PaginatedIsPage(rows, p);
      Paging.PageInRange(rows, p, RowsPerPage);
    }
    forall p | p > TotalPages(|rows|)
      ensures Paginated(rows, p) == []
    {
      PaginatedIsPage(rows, p);
    }
  }

  /** After a reset the table shows the first eight rows, and something whenever there is a row. */
  lemma FirstPageShowsFirstRows<T>(rows: seq<T>)
    ensures Paginated(rows, FirstPage) == rows[..Paging.Min(RowsPerPage, |rows|)]
    ensures |rows| > 0 ==> |Paginated(rows, FirstPage)| > 0
  {
    PaginatedIsPage(rows, FirstPage);
  }

  /** The controls appear exactly when there are more rows than fit on one page. */
  lemma ControlsShownIff(rows: nat)
    ensures ShowsControls(TotalPages(rows)) <==> rows > RowsPerPage
  {
    var t := TotalPages(rows);
    if t > 1 {
      Paging.MulMonotonic(1, t - 1, RowsPerPage);
    }
  }

  /** A click never leaves the pages `1..totalPages` once the page is among them. */
  lemma NavigateStaysInRange(page: int, totalPages: nat, b: PageButton)
    requires 1 <= page <= totalPages
    ensures 1 <= Navigate(page, totalPages, b) <= totalPages
  {
  }

  /**
   * The page is not brought back when the list shrinks under it (a row
   * deleted from the last page): the table is then empty, and `›` stays
   * enabled and moves further away.
   */
  lemma StalePageShowsNothing<T>(rows: seq<T>, page: int)
    requires ShowsControls(TotalPages(|rows|)) && page > TotalPages(|rows|)
    ensures Paginated(rows, page) == []
    ensures Navigate(page, TotalPages(|rows|), Next) == page + 1
  {
    AllRowsPaged(rows);
  }
}
