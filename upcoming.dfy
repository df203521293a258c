/** The dashboard's upcoming-bookings panel: a constant list of eight bookings shown four to a page. */
module Upcoming {
  import opened Paging

  datatype UpcomingBooking = UpcomingBooking(id: string, user: string, room: string, status: string)

  const bookings: seq<UpcomingBooking> := [
    UpcomingBooking("1", "John Smith", "PS5-001", "Confirmed"),
    UpcomingBooking("2", "Emma Davis", "PS4-002", "Pending"),
    UpcomingBooking("3", "Mike Johnson", "PS5-003", "Confirmed"),
    UpcomingBooking("4", "Lisa Wang", "VIP-001", "Confirmed"),
    UpcomingBooking("5", "Alex Chen", "PS5-002", "Pending"),
    UpcomingBooking("6", "Sarah Johnson", "PS4-003", "Confirmed"),
    UpcomingBooking("7", "Tom Wilson", "VIP-002", "Pending"),
    UpcomingBooking("8", "Nina Rodriguez", "PS5-004", "Confirmed")
  ]

  const ItemsPerPage: nat := 4

  /** `paginatedBookings` for the current page: never more than four bookings. */
  function UpcomingPage(page: int): (r: seq<UpcomingBooking>)
    requires page >= 1
    ensures |r| <= ItemsPerPage
  {
    PageIsSegment(bookings, page, ItemsPerPage);
    Page(bookings, page, ItemsPerPage)
  }

  /** Eight bookings at four a page make two pages, so the pagination row is shown. */
  lemma UpcomingTwoPages()
    ensures TotalPages(|bookings|, ItemsPerPage) == 2
  {
  }

  /** The first page starts at index 0 and holds the first four bookings; the second holds the rest. */
  lemma UpcomingPages()
    ensures StartIndex(1, ItemsPerPage) == 0
    ensures UpcomingPage(1) == bookings[..4] && UpcomingPage(2) == bookings[4..]
  {
    PageIsSegment(bookings, 1, ItemsPerPage);
    PageIsSegment(bookings, 2, ItemsPerPage);
  }

  /** The two pages, laid end to end, are the whole list in order. */
  lemma UpcomingPagesPartition()
    ensures PagesUpTo(bookings, ItemsPerPage, TotalPages(|bookings|, ItemsPerPage)) == bookings
  {
    PagesPartition(bookings, ItemsPerPage);
  }
}
