/** The page controls: the stand-alone `Pagination` component, which relies on disabled buttons at the
    ends, and the pagination row of `TableUi`, which clamps its requests instead; plus `TableUi`'s cells. */
module PageControls {
  import opened Records
  import opened Paging

  /** The props of `Pagination`. */
  datatype PaginationProps = PaginationProps(currentPage: int, totalPages: int, itemsPerPage: nat, totalItems: nat, startIndex: int)

  /** What `Pagination` renders when it renders anything: the range text, the "p of t" label and the two
      buttons' disabled flags. */
  datatype PaginationView = PaginationView(range: Range, current: int, total: int, prevDisabled: bool, nextDisabled: bool)

  /** `Pagination`: nothing for a single page or none; otherwise the range and the buttons, each disabled at
      its own end. */
  function RenderPagination(p: PaginationProps): (v: Option<PaginationView>)
    ensures v.None? <==> p.totalPages <= 1
    ensures v.Some? ==> v.value.range == ShowingRange(p.startIndex, p.itemsPerPage, p.totalItems)
    ensures v.Some? ==> v.value.range.from == p.startIndex + 1 && v.value.range.to <= p.totalItems
    ensures v.Some? ==> v.value.current == p.currentPage && v.value.total == p.totalPages
    ensures v.Some? ==> (v.value.prevDisabled <==> p.currentPage == 1)
    ensures v.Some? ==> (v.value.nextDisabled <==> p.currentPage == p.totalPages)
  {
    if p.totalPages <= 1 then None
    else Some(PaginationView(ShowingRange(p.startIndex, p.itemsPerPage, p.totalItems), p.currentPage, p.totalPages,
                             p.currentPage == 1, p.currentPage == p.totalPages))
  }

  /** The page the previous button asks for. */
  function PrevRequest(p: PaginationProps): int {
    p.currentPage - 1
  }

  /** The page the next button asks for. */
  function NextRequest(p: PaginationProps): int {
    p.currentPage + 1
  }

  /** From a page in range, an enabled button only ever asks for a page in range, and a button is enabled
      exactly when there is a page on its side. */
  lemma PaginationRequestsInRange(p: PaginationProps)
    requires 1 <= p.currentPage <= p.totalPages && p.totalPages > 1
    ensures var v := RenderPagination(p).value;
            && (!v.prevDisabled <==> p.currentPage > 1)
            && (!v.nextDisabled <==> p.currentPage < p.totalPages)
            && (!v.prevDisabled ==> 1 <= PrevRequest(p) <= p.totalPages)
            && (!v.nextDisabled ==> 1 <= NextRequest(p) <= p.totalPages)
  {
  }

  /** The props of `TableUi` that concern paging; an absent prop takes its default. */
  datatype TableUiProps = TableUiProps(currentPage: Option<int>, totalPages: Option<int>, hasPageHandler: bool, showPagination: Option<bool>)

  function OrDefault<T>(o: Option<T>, d: T): T {
    match o
    case Some(v) => v
    case None => d
  }

  /** `showPagination && totalPages > 1 && onPageChange`, with the defaults `false` and 1. */
  function ControlsShown(p: TableUiProps): (r: bool)
    ensures r <==> OrDefault(p.showPagination, false) && OrDefault(p.totalPages, 1) > 1 && p.hasPageHandler
    ensures r ==> p.showPagination == Some(true) && p.totalPages.Some?
  {
    OrDefault(p.showPagination, false) && OrDefault(p.totalPages, 1) > 1 && p.hasPageHandler
  }

  /** A table given no paging props shows no controls. */
  lemma DefaultsHideControls(hasPageHandler: bool)
    ensures !ControlsShown(TableUiProps(None, None, hasPageHandler, None))
  {
  }

  /** `Math.max(currentPage - 1, 1)`. */
  function ClampedPrev(current: int): (r: int)
    ensures r >= 1
    ensures current > 1 ==> r == current - 1
    ensures current <= 1 ==> r == 1
  {
    if current - 1 > 1 then current - 1 else 1
  }

  /** `Math.min(currentPage + 1, totalPages)`. */
  function ClampedNext(current: int, total: int): (r: int)
    ensures r <= total
    ensures current < total ==> r == current + 1
    ensures current >= total ==> r == total
  {
    if current + 1 < total then current + 1 else total
  }

  /** From a page in range, both clamped requests stay in range, and they agree with `Pagination`'s requests
      whenever that component's button is enabled. */
  lemma TableUiRequestsInRange(current: int, total: int)
    requires 1 <= current <= total
    ensures 1 <= ClampedPrev(current) <= total && 1 <= ClampedNext(current, total) <= total
    ensures current != 1 ==> ClampedPrev(current) == current - 1
    ensures current != total ==> ClampedNext(current, total) == current + 1
  {
  }

  /** A column: the key it reads and an optional renderer. */
  datatype Column<!C> = Column(key: string, header: string, render: Option<map<string, C> -> C>)

  /** A cell: the renderer's output when there is a renderer, otherwise the row's value under the key
      (absent when the row has no such key). */
  function CellValue<C>(col: Column<C>, row: map<string, C>): (r: Option<C>)
    ensures col.render.Some? ==> r == Some(col.render.value(row))
    ensures col.render.None? ==> (r.Some? <==> col.key in row)
    ensures col.render.None? && col.key in row ==> r.value == row[col.key]
  {
    match col.render
    case Some(f) => Some(f(row))
    case None => if col.key in row then Some(row[col.key]) else None
  }
}
