/**
 * The `usePagination` composable: a page number, a page size and a total
 * item count, the derived page count and index window, and the navigation
 * methods. The page count is `Math.ceil(total / size) || 1`; sizes are
 * non-zero, because a zero size makes that expression `Infinity` or `NaN`.
 */
module Pagination {
  import opened JsMath

  class Pager {
    var page: int
    var size: int
    var total: int
    const initialPage: int
    const initialSize: int

    /** The size the page count divides by is never zero, nor is the size `reset` restores. */
    predicate Valid()
      reads this`size
    {
      size != 0 && initialSize != 0
    }

    /** `usePagination({ initialPage, initialSize })`: `total` starts at 0. */
    constructor (initialPage: int, initialSize: int)
      requires initialSize != 0
      ensures this.initialPage == initialPage && this.initialSize == initialSize
      ensures page == initialPage && size == initialSize && total == 0
      ensures Valid()
    {
      this.initialPage := initialPage;
      this.initialSize := initialSize;
      page := initialPage;
      size := initialSize;
      total := 0;
    }

    /** `totalPages`: never 0; for a non-negative total and positive size, the fewest pages holding `total` items, and at least 1. */
    function TotalPages(): (n: int)
      reads this`size, this`total
      requires Valid()
      ensures n != 0
      ensures total >= 0 && size > 0 ==> n >= 1 && total <= n * size && (total == 0 || (n - 1) * size < total)
    {
      if total >= 0 && size > 0 then
        PageCountBounds(total, size);
        PageCount(total, size)
      else
        PageCount(total, size)
    }

    /** `hasNextPage` */
    predicate HasNextPage()
      reads this`page, this`size, this`total
      requires Valid()
    {
      page < TotalPages()
    }

    /** `hasPrevPage` */
    predicate HasPrevPage()
      reads this`page
    {
      page > 1
    }

    /** `startIndex`: the 1-based position of the page's first item. */
    function StartIndex(): (i: int)
      reads this`page, this`size, this`total
      ensures size > 0 && page >= 1 ==> 1 <= i <= page * size && page * size - size < i
      ensures size > 0 && page >= 1 && EndIndex() == page * size ==> EndIndex() - i + 1 == size
    {
      assert (page - 1) * size == page * size - size;
      (page - 1) * size + 1
    }

    /** `endIndex`: the 1-based position of the page's last item, capped at `total`. */
    function EndIndex(): (i: int)
      reads this`page, this`size, this`total
      ensures i <= total && i <= page * size
      ensures i == total || i == page * size
    {
      var end := page * size;
      if end > total then total else end
    }

    /** The page is a page that exists. */
    predicate InRange()
      reads this`page, this`size, this`total
      requires Valid()
    {
      1 <= page <= TotalPages()
    }

    /** `setPage(n)`: only a page between 1 and `totalPages` is taken. */
    method SetPage(newPage: int)
      requires Valid()
      modifies this`page
      ensures 1 <= newPage <= TotalPages() ==> page == newPage
      ensures !(1 <= newPage <= TotalPages()) ==> page == old(page)
      ensures old(InRange()) ==> InRange()
    {
      if newPage >= 1 && newPage <= TotalPages() {
        page := newPage;
      }
    }

    /** `setSize(n)`: a new size always returns to page 1. */
    method SetSize(newSize: int)
      requires Valid() && newSize != 0
      modifies this`size, this`page
      ensures size == newSize && page == 1
      ensures Valid()
      ensures total >= 0 && size > 0 ==> InRange()
    {
      size := newSize;
      page := 1;
    }

    /** `setTotal(n)`: the page is not clamped to the new page count. */
    method SetTotal(newTotal: int)
      requires Valid()
      modifies this`total
      ensures total == newTotal
    {
      total := newTotal;
    }

    /** `nextPage()`: one page forward when there is a next page. */
    method NextPage()
      requires Valid()
      modifies this`page
      ensures old(HasNextPage()) ==> page == old(page) + 1
      ensures !old(HasNextPage()) ==> page == old(page)
      ensures old(InRange()) ==> InRange()
    {
      if HasNextPage() {
        page := page + 1;
      }
    }

    /** `prevPage()`: one page back when there is a previous page. */
    method PrevPage()
      requires Valid()
      modifies this`page
      ensures old(HasPrevPage()) ==> page == old(page) - 1
      ensures !old(HasPrevPage()) ==> page == old(page)
      ensures old(InRange()) ==> InRange()
    {
      if HasPrevPage() {
        page := page - 1;
      }
    }

    /** `firstPage()` */
    method FirstPage()
      requires Valid()
      modifies this`page
      ensures page == 1
      ensures total >= 0 && size > 0 ==> InRange()
    {
      page := 1;
    }

    /** `lastPage()`: the page becomes the page count, which is a page that exists whenever the total is not negative. */
    method LastPage()
      requires Valid()
      modifies this`page
      ensures page == TotalPages()
      ensures total >= 0 && size > 0 ==> InRange()
    {
      page := TotalPages();
    }

    /** `reset()`: the initial page and size, and no items. */
    method Reset()
      requires Valid()
      modifies this`page, this`size, this`total
      ensures page == initialPage && size == initialSize && total == 0
      ensures Valid()
      ensures TotalPages() == 1
    {
      page := initialPage;
      size := initialSize;
      total := 0;
    }
  }
}
