/** The 50-row pagination that frontend/src/components/products/ProductsTable.jsx
    and frontend/src/components/invoices/InvoicesList.jsx both carry: the page
    count, the visible slice, and the current page clamped by Prev and Next and
    reset when the list changes. */
module Pagination {
  import opened Base

  const RowsPerPage: nat := 50

  /** `Math.ceil(n / rowsPerPage)`. */
  function TotalPages(n: nat): (t: nat)
    ensures n == 0 <==> t == 0
    ensures t > 0 ==> (t - 1) * RowsPerPage < n <= t * RowsPerPage
  {
    (n + RowsPerPage - 1) / RowsPerPage
  }

  /** `Array.prototype.slice(begin, end)`: negative bounds count from the end,
      bounds are clamped to the array, and a crossed range is empty. */
  function Slice<T>(s: seq<T>, begin: int, end: int): (r: seq<T>)
    ensures |r| <= |s|
    ensures 0 <= begin <= end ==> r == s[Min(begin, |s|)..Min(end, |s|)]
  {
    var b := if begin < 0 then Max(|s| + begin, 0) else Min(begin, |s|);
    var e := if end < 0 then Max(|s| + end, 0) else Min(end, |s|);
    if b < e then s[b..e] else []
  }

  /** The rows shown on `page`: `slice(startIndex, startIndex + rowsPerPage)`. */
  function PageRows<T>(rows: seq<T>, page: int): (r: seq<T>)
    ensures |r| <= RowsPerPage
  {
    var start := (page - 1) * RowsPerPage;
    Slice(rows, start, start + RowsPerPage)
  }

  /** Row `i` is shown on page `i / 50 + 1`, at position `i % 50`, and that page exists. */
  lemma RowOnItsPage<T>(rows: seq<T>, i: nat)
    requires i < |rows|
    ensures 1 <= i / RowsPerPage + 1 <= TotalPages(|rows|)
    ensures i % RowsPerPage < |PageRows(rows, i / RowsPerPage + 1)|
    ensures PageRows(rows, i / RowsPerPage + 1)[i % RowsPerPage] == rows[i]
  {
    var p := i / RowsPerPage + 1;
    assert (p - 1) * RowsPerPage + i % RowsPerPage == i;
  }

  /** Every existing page of a non-empty list shows at least one row. */
  lemma ExistingPageNonEmpty<T>(rows: seq<T>, page: int)
    requires 1 <= page <= TotalPages(|rows|)
    ensures PageRows(rows, page) != []
  {
    assert (page - 1) * RowsPerPage <= (TotalPages(|rows|) - 1) * RowsPerPage;
  }

  /** Pages 1 to `k` laid end to end. */
  function FirstPages<T>(rows: seq<T>, k: nat): seq<T> {
    if k == 0 then [] else FirstPages(rows, k - 1) + PageRows(rows, k)
  }

  /** The first `k` pages are the first `50 k` rows. */
  lemma {:induction false} FirstPagesArePrefix<T>(rows: seq<T>, k: nat)
    ensures FirstPages(rows, k) == rows[..Min(k * RowsPerPage, |rows|)]
  {
    if k > 0 {
      FirstPagesArePrefix(rows, k - 1);
      var a := Min((k - 1) * RowsPerPage, |rows|);
      var b := Min(k * RowsPerPage, |rows|);
      assert PageRows(rows, k) == rows[a..b];
      assert rows[..a] + rows[a..b] == rows[..b];
    }
  }

  /** The pages partition the list: laid end to end they give back every row, in order. */
  lemma PagesPartitionRows<T>(rows: seq<T>)
    ensures FirstPages(rows, TotalPages(|rows|)) == rows
  {
    FirstPagesArePrefix(rows, TotalPages(|rows|));
    assert rows[..|rows|] == rows;
  }

  /** The `currentPage` state of a paginated table over `rowCount` rows. */
  class Pager {
    var currentPage: int
    var rowCount: nat

    /** The page is one that exists (page 1 when the list is empty). */
    ghost predicate Valid()
      reads this
    {
      1 <= currentPage <= Max(TotalPages(rowCount), 1)
    }

    /** `useState(1)`. */
    constructor (rowCount: nat)
      ensures currentPage == 1 && this.rowCount == rowCount
      ensures Valid()
    {
      currentPage := 1;
      this.rowCount := rowCount;
    }

    /** Prev: `Math.max(prev - 1, 1)`. */
    method Prev()
      modifies this
      ensures currentPage == Max(old(currentPage) - 1, 1) && rowCount == old(rowCount)
      ensures currentPage >= 1
      ensures old(Valid()) ==> Valid()
    {
      currentPage := Max(currentPage - 1, 1);
    }

    /** Next: `Math.min(prev + 1, totalPages)`. The button exists only when
        there is more than one page. */
    method Next()
      requires TotalPages(rowCount) > 1
      modifies this
      ensures currentPage == Min(old(currentPage) + 1, TotalPages(rowCount)) && rowCount == old(rowCount)
      ensures currentPage <= TotalPages(rowCount)
      ensures old(Valid()) ==> Valid()
    {
      currentPage := Min(currentPage + 1, TotalPages(rowCount));
    }

    /** The effect that runs when the list changes: back to page 1. */
    method Reset(rowCount: nat)
      modifies this
      ensures currentPage == 1 && this.rowCount == rowCount
      ensures Valid()
    {
      currentPage := 1;
      this.rowCount := rowCount;
    }
  }
}
