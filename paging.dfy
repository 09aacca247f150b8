/**
 * The page request both list stores send: the filters keep a zero-based
 * page index, the server expects a one-based one.
 */
module Paging {
  import opened Wrappers

  datatype FilterPager = FilterPager(pageSize: int, pageIndex: int)

  /**
   * `if (pageIndex || pageSize) pager = { pageSize, pageIndex: pageIndex + 1 }`:
   * no pager when both numbers are falsy (zero), otherwise the given size and
   * the page index shifted to one-based.
   */
  function PagerFor(pageIndex: int, pageSize: int): (r: Option<FilterPager>)
    ensures r.None? <==> pageIndex == 0 && pageSize == 0
    ensures r.Some? ==> r.value.pageSize == pageSize && r.value.pageIndex == pageIndex + 1
    ensures r.Some? && pageIndex >= 0 ==> r.value.pageIndex >= 1
  {
    if pageIndex != 0 || pageSize != 0 then Some(FilterPager(pageSize, pageIndex + 1)) else None
  }
}
