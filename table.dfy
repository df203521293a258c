/** `TableWithPagination`: a table that pages its data itself, keeps its current page as state, moves it
    with clamped previous/next updates, and fills an empty page with one "No data available" row. */
module PagedTables {
  import opened Records
  import opened Paging

  /** The header cells: one per column, plus "Actions" when an edit or a delete handler is given. */
  function Headers(labels: seq<string>, hasEdit: bool, hasDelete: bool): seq<string> {
    labels + (if hasEdit || hasDelete then ["Actions"] else [])
  }

  /** The `colSpan` of the "No data available" row: the number of columns, plus one for the actions. The
      row spans exactly the header. */
  function EmptyRowColSpan(labels: seq<string>, hasEdit: bool, hasDelete: bool): (span: nat)
    ensures span == |Headers(labels, hasEdit, hasDelete)|
    ensures |labels| <= span <= |labels| + 1
  {
    |labels| + (if hasEdit || hasDelete then 1 else 0)
  }

  /** The default page size when the `itemsPerPage` prop is absent. */
  const DefaultItemsPerPage: nat := 5

  /** One mounted table: its data and page size (props) and its current page (state). */
  class PagedTable<T> {
    const data: seq<T>
    const itemsPerPage: nat
    var currentPage: int

    /** The page is in range: at least 1, and no further than the last page when there is one. */
    predicate Valid()
      reads this
    {
      itemsPerPage > 0 && 1 <= currentPage && (currentPage == 1 || currentPage <= TotalPages(|data|, itemsPerPage))
    }

    function PageCount(): nat
      reads this
      requires itemsPerPage > 0
    {
      TotalPages(|data|, itemsPerPage)
    }

    /** `paginatedData`. */
    function Shown(): seq<T>
      reads this
    {
      Page(data, currentPage, itemsPerPage)
    }

    /** The pagination row (range text and buttons) appears only for more than one page. */
    function ControlsShown(): (r: bool)
      reads this
      requires itemsPerPage > 0
      ensures r <==> |data| > itemsPerPage
    {
      MoreThanOnePage(|data|, itemsPerPage);
      TotalPages(|data|, itemsPerPage) > 1
    }

    /** Mounting: the given page size or the default, and page 1. */
    constructor(data: seq<T>, itemsPerPage: Option<nat>)
      requires itemsPerPage != Some(0)
      ensures this.data == data
      ensures this.itemsPerPage == (if itemsPerPage.Some? then itemsPerPage.value else DefaultItemsPerPage)
      ensures currentPage == 1 && Valid()
    {
      this.data := data;
      this.itemsPerPage := if itemsPerPage.Some? then itemsPerPage.value else DefaultItemsPerPage;
      currentPage := 1;
    }

    /** The previous button (shown only with the controls): `Math.max(prev - 1, 1)`. */
    method Prev()
      requires Valid() && ControlsShown()
      modifies this
      ensures currentPage == (if old(currentPage) - 1 > 1 then old(currentPage) - 1 else 1)
      ensures Valid()
    {
      currentPage := if currentPage - 1 > 1 then currentPage - 1 else 1;
    }

    /** The next button (shown only with the controls): `Math.min(prev + 1, totalPages)`. */
    method Next()
      requires Valid() && ControlsShown()
      modifies this
      ensures currentPage == (if old(currentPage) + 1 < PageCount() then old(currentPage) + 1 else PageCount())
      ensures Valid()
    {
      currentPage := if currentPage + 1 < PageCount() then currentPage + 1 else PageCount();
    }
  }

  /** On a valid table the "No data available" row appears only when there is no data at all, and the page
      never holds more than `itemsPerPage` rows. */
  lemma EmptyRowOnlyWithoutData<T>(t: PagedTable<T>)
    requires t.Valid()
    ensures t.Shown() == [] <==> t.data == []
    ensures |t.Shown()| <= t.itemsPerPage
  {
    PageIsSegment(t.data, t.currentPage, t.itemsPerPage);
    if t.data != [] {
      PageInRangeNonEmpty(t.data, t.currentPage, t.itemsPerPage);
    }
  }
}
