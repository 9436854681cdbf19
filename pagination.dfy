/** The server-shaped page envelope and the empty page the list starts with. */
module Pagination {

  const DefaultPageSize := 10

  datatype Page<+T> = Page(
    content: seq<T>,
    totalElements: int,
    totalPages: int,
    number: int,
    size: int,
    first: bool,
    last: bool,
    empty: bool)

  /**
   * The consistency a page envelope is meant to keep between its fields, as
   * the server fills them: the index is not negative, the first page has index
   * 0, and the page is the last exactly when no page follows it.
   */
  predicate Consistent<T>(p: Page<T>) {
    && |p.content| <= p.size
    && p.empty == (|p.content| == 0)
    && 0 <= p.number
    && p.first == (p.number == 0)
    && p.last == (p.number + 1 >= p.totalPages)
  }

  /** A page with no content, no pages, page index 0 and the given page size. */
  function EmptyPage<T>(size: int := DefaultPageSize): (p: Page<T>)
    ensures |p.content| == 0 && p.empty
    ensures p.totalElements == 0 && p.totalPages == 0 && p.number == 0
    ensures p.size == size
    ensures p.first && p.last
  {
    Page([], 0, 0, 0, size, true, true, true)
  }

  /** An empty page of non-negative size is a consistent envelope. */
  lemma EmptyPageConsistent<T>(size: int)
    requires size >= 0
    ensures Consistent(EmptyPage<T>(size))
    ensures EmptyPage<T>() == EmptyPage<T>(DefaultPageSize)
  {
  }
}
