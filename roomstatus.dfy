/** The dashboard's room-status panel: per-type room lists, filtered by a status select and a search box and
    shown three to a page, with a type tab bar that sends the panel back to page 1. */
module RoomPanel {
  import opened Text
  import opened Records
  import opened Paging
  import opened PageControls

  datatype PanelTab = PS4 | PS5 | VIP

  datatype PanelRoom = PanelRoom(id: string, name: string, status: string)

  /** `roomsData[tab]`: the rooms of each type. */
  function RoomsOf(tab: PanelTab): seq<PanelRoom> {
    match tab
    case PS4 => [
      PanelRoom("PS4-001", "PlayStation 4 Room A", "Available"),
      PanelRoom("PS4-002", "PlayStation 4 Room B", "In Use"),
      PanelRoom("PS4-003", "PlayStation 4 Room C", "Maintenance"),
      PanelRoom("PS4-004", "PlayStation 4 Room D", "Available"),
      PanelRoom("PS4-005", "PlayStation 4 Room E", "In Use")]
    case PS5 => [
      PanelRoom("PS5-001", "PlayStation 5 Room A", "Available"),
      PanelRoom("PS5-002", "PlayStation 5 Room B", "In Use"),
      PanelRoom("PS5-003", "PlayStation 5 Room C", "Maintenance"),
      PanelRoom("PS5-004", "PlayStation 5 Room D", "Available")]
    case VIP => [
      PanelRoom("VIP-001", "VIP Gaming Suite A", "Available"),
      PanelRoom("VIP-002", "VIP Gaming Suite B", "In Use"),
      PanelRoom("VIP-003", "VIP Gaming Suite C", "Available")]
  }

  const ItemsPerPage: nat := 3

  predicate MatchesPanelRoom(r: PanelRoom, status: string, term: string) {
    Selects(status, r.status) && (MatchesText(r.name, term) || MatchesText(r.id, term))
  }

  /** `filteredRooms`: only the active type's list is filtered, by the status select ("All" or exact) and a
      case-insensitive search over the name and the id. */
  function FilteredPanelRooms(tab: PanelTab, status: string, term: string): (r: seq<PanelRoom>)
    ensures SubsequenceOf(r, RoomsOf(tab))
    ensures forall i :: 0 <= i < |r| ==> r[i] in RoomsOf(tab) && MatchesPanelRoom(r[i], status, term)
    ensures forall i :: 0 <= i < |RoomsOf(tab)| && MatchesPanelRoom(RoomsOf(tab)[i], status, term) ==> RoomsOf(tab)[i] in r
  {
    KeepSubsequence(RoomsOf(tab), (r: PanelRoom) => MatchesPanelRoom(r, status, term));
    KeepSound(RoomsOf(tab), (r: PanelRoom) => MatchesPanelRoom(r, status, term));
    KeepComplete(RoomsOf(tab), (r: PanelRoom) => MatchesPanelRoom(r, status, term));
    Keep(RoomsOf(tab), (r: PanelRoom) => MatchesPanelRoom(r, status, term))
  }

  /** Two search terms that lower-case alike show the same rooms. */
  lemma FilteredPanelRoomsCaseInsensitive(tab: PanelTab, status: string, term: string, term': string)
    requires Lower(term) == Lower(term')
    ensures FilteredPanelRooms(tab, status, term) == FilteredPanelRooms(tab, status, term')
  {
    forall r | r in RoomsOf(tab) ensures MatchesPanelRoom(r, status, term) == MatchesPanelRoom(r, status, term') {
      MatchesTextCaseInsensitive(r.name, term, term');
      MatchesTextCaseInsensitive(r.id, term, term');
    }
    KeepAgree(RoomsOf(tab), (r: PanelRoom) => MatchesPanelRoom(r, status, term), (r: PanelRoom) => MatchesPanelRoom(r, status, term'));
  }

  /** The panel's state, updated in place by its tab bar, inputs and pagination. */
  class RoomStatusPanel {
    var activeTab: PanelTab
    var statusFilter: string
    var searchTerm: string
    var currentPage: int

    function Filtered(): seq<PanelRoom>
      reads this
    {
      FilteredPanelRooms(activeTab, statusFilter, searchTerm)
    }

    /** `paginatedRooms`. */
    function Shown(): seq<PanelRoom>
      reads this
    {
      Page(Filtered(), currentPage, ItemsPerPage)
    }

    /** The page is one the filtered list has (or page 1 of an empty list). */
    predicate OnRealPage()
      reads this
    {
      1 <= currentPage && (currentPage == 1 || currentPage <= TotalPages(|Filtered()|, ItemsPerPage))
    }

    /** Mounting: the PS5 tab, no status, no search, page 1. */
    constructor()
      ensures activeTab == PS5 && statusFilter == "All" && searchTerm == "" && currentPage == 1
      ensures OnRealPage()
    {
      activeTab := PS5;
      statusFilter := "All";
      searchTerm := "";
      currentPage := 1;
    }

    /** A tab click: the tab changes and the panel returns to page 1. */
    method ClickTab(tab: PanelTab)
      modifies this
      ensures activeTab == tab && currentPage == 1
      ensures statusFilter == old(statusFilter) && searchTerm == old(searchTerm)
      ensures OnRealPage()
    {
      activeTab := tab;
      currentPage := 1;
    }

    /** `onPageChange` from the `Pagination` below the panel, which only asks for pages in range. */
    method ChangePage(page: int)
      requires 1 <= page <= TotalPages(|Filtered()|, ItemsPerPage)
      modifies this
      ensures currentPage == page
      ensures activeTab == old(activeTab) && statusFilter == old(statusFilter) && searchTerm == old(searchTerm)
      ensures OnRealPage()
    {
      currentPage := page;
    }

    /** The search input as written: the term changes and the page stays where it was. */
    method SetSearchKeepingPage(term: string)
      modifies this
      ensures searchTerm == term
      ensures activeTab == old(activeTab) && statusFilter == old(statusFilter) && currentPage == old(currentPage)
    {
      searchTerm := term;
    }

    /** The status select as written: the status changes and the page stays where it was. */
    method SetStatusKeepingPage(status: string)
      modifies this
      ensures statusFilter == status
      ensures activeTab == old(activeTab) && searchTerm == old(searchTerm) && currentPage == old(currentPage)
    {
      statusFilter := status;
    }

    /** The search input as it should be: the term changes and the panel returns to page 1, as a tab click does. */
    method SetSearch(term: string)
      modifies this
      ensures searchTerm == term && currentPage == 1
      ensures activeTab == old(activeTab) && statusFilter == old(statusFilter)
      ensures OnRealPage()
    {
      searchTerm := term;
      currentPage := 1;
    }

    /** The status select as it should be: the status changes and the panel returns to page 1. */
    method SetStatus(status: string)
      modifies this
      ensures statusFilter == status && currentPage == 1
      ensures activeTab == old(activeTab) && searchTerm == old(searchTerm)
      ensures OnRealPage()
    {
      statusFilter := status;
      currentPage := 1;
    }
  }

  /** While the panel is on a real page, it shows at least one room whenever any room matches, and at most
      three. */
  lemma RealPageShowsRooms(p: RoomStatusPanel)
    requires p.OnRealPage()
    ensures p.Filtered() != [] ==> p.Shown() != []
    ensures |p.Shown()| <= ItemsPerPage
  {
    PageIsSegment(p.Filtered(), p.currentPage, ItemsPerPage);
    if p.Filtered() != [] {
      PageInRangeNonEmpty(p.Filtered(), p.currentPage, ItemsPerPage);
    }
  }

  /** Every page of the filtered list, laid end to end, is the filtered list. */
  lemma PanelPagesPartition(tab: PanelTab, status: string, term: string)
    ensures var f := FilteredPanelRooms(tab, status, term);
            PagesUpTo(f, ItemsPerPage, TotalPages(|f|, ItemsPerPage)) == f
  {
    PagesPartition(FilteredPanelRooms(tab, status, term), ItemsPerPage);
  }

  /** The PS4 rooms that are "Available" with an empty search are PS4-001 and PS4-004. */
  lemma AvailablePs4Rooms()
    ensures FilteredPanelRooms(PS4, "Available", "") == [RoomsOf(PS4)[0], RoomsOf(PS4)[3]]
  {
    var rs := RoomsOf(PS4);
    var p := (r: PanelRoom) => MatchesPanelRoom(r, "Available", "");
    forall r | r in rs ensures p(r) == (r.status == "Available") {
      MatchesTextEmpty(r.name);
    }
    KeepAgree(rs, p, (r: PanelRoom) => r.status == "Available");
    AvailableOfStatuses(rs);
  }

  /** Of five rooms with the statuses of the PS4 list, the first and the fourth are the available ones. */
  lemma AvailableOfStatuses(rs: seq<PanelRoom>)
    requires |rs| == 5 && rs[0].status == "Available" && rs[1].status == "In Use" && rs[2].status == "Maintenance"
    requires rs[3].status == "Available" && rs[4].status == "In Use"
    ensures Keep(rs, (r: PanelRoom) => r.status == "Available") == [rs[0], rs[3]]
  {
    var a := (r: PanelRoom) => r.status == "Available";
    assert rs[4..][1..] == [];
    assert Keep(rs[4..], a) == [];
    assert rs[3..][1..] == rs[4..];
    assert Keep(rs[3..], a) == [rs[3]];
    assert rs[2..][1..] == rs[3..];
    assert Keep(rs[2..], a) == [rs[3]];
    assert rs[1..][1..] == rs[2..];
    assert Keep(rs[1..], a) == [rs[3]];
  }

  /** As written: on the PS4 tab the unfiltered list has two pages; after moving to page 2 and then choosing
      "Available", the page stays 2 while the list has only one page, so the panel shows no room and
      `Pagination` (one page) renders nothing to go back with. */
  lemma StaleStatusPageIsEmpty()
    ensures TotalPages(|FilteredPanelRooms(PS4, "All", "")|, ItemsPerPage) == 2
    ensures |FilteredPanelRooms(PS4, "Available", "")| == 2
    ensures TotalPages(|FilteredPanelRooms(PS4, "Available", "")|, ItemsPerPage) == 1
    ensures Page(FilteredPanelRooms(PS4, "Available", ""), 2, ItemsPerPage) == []
    ensures RenderPagination(PaginationProps(2, 1, ItemsPerPage, 2, StartIndex(2, ItemsPerPage))).None?
  {
    var rs := RoomsOf(PS4);
    forall r | r in rs ensures MatchesPanelRoom(r, "All", "") {
      MatchesTextEmpty(r.name);
    }
    KeepAllPass(rs, (r: PanelRoom) => MatchesPanelRoom(r, "All", ""));
    AvailablePs4Rooms();
    PageBeyondLast(FilteredPanelRooms(PS4, "Available", ""), 2, ItemsPerPage);
  }
}
