/** The room management page: the room list filtered by a status tab, a room-type select, a status
    select and a search box, and the handler that keeps the status tab in step with the status select. */
module Rooms {
  import opened Text
  import opened Records

  datatype RoomType = PS4 | PS5 | VIP {
    function Label(): string {
      match this
      case PS4 => "PS4"
      case PS5 => "PS5"
      case VIP => "VIP"
    }
  }

  datatype RoomStatus = Available | InUse | Maintenance {
    function Label(): string {
      match this
      case Available => "Available"
      case InUse => "In Use"
      case Maintenance => "Maintenance"
    }
  }

  /** The fields of a room that the page filters on; `currentUser` is present only while a room is in use. */
  datatype Room = Room(roomId: string, roomName: string, roomType: RoomType, status: RoomStatus, currentUser: Option<string>)

  /** The tab bar ("All" or a status), the room-type and status selects (strings) and the search box. */
  datatype RoomQuery = RoomQuery(activeTab: Tab<RoomStatus>, roomTypeFilter: string, statusFilter: string, searchTerm: string)

  const Unfiltered: RoomQuery := RoomQuery(AllTab, "All", "All", "")

  const roomsData: seq<Room> := [
    Room("PS4-001", "PlayStation 4 Room A", PS4, InUse, Some("John Smith")),
    Room("PS4-002", "PlayStation 4 Room B", PS4, Available, None),
    Room("PS4-003", "PlayStation 4 Room C", PS4, Maintenance, None),
    Room("PS5-001", "PlayStation 5 Room A", PS5, Available, None),
    Room("PS5-002", "PlayStation 5 Room B", PS5, InUse, Some("Emma Davis")),
    Room("PS5-003", "PlayStation 5 Room C", PS5, Maintenance, None),
    Room("VIP-001", "VIP Gaming Suite A", VIP, Available, None),
    Room("VIP-002", "VIP Gaming Suite B", VIP, InUse, Some("Mike Johnson"))
  ]

  /** Case-insensitive search over the id and the name, and over the current user only when there is one. */
  predicate MatchesSearch(r: Room, term: string) {
    || MatchesText(r.roomId, term)
    || MatchesText(r.roomName, term)
    || (r.currentUser.Some? && MatchesText(r.currentUser.value, term))
  }

  predicate MatchesRoom(r: Room, q: RoomQuery) {
    && OnTab(q.activeTab, r.status)
    && Selects(q.roomTypeFilter, r.roomType.Label())
    && Selects(q.statusFilter, r.status.Label())
    && MatchesSearch(r, q.searchTerm)
  }

  /** `filteredRooms`, applied by the page to `roomsData`. */
  function FilteredRooms(data: seq<Room>, q: RoomQuery): seq<Room> {
    Keep(data, (r: Room) => MatchesRoom(r, q))
  }

  /** The switch in `handleStatusFilterChange`: a known status selects its own tab, "All" and any other value select "All". */
  function TabForStatus(status: string): (t: Tab<RoomStatus>)
    ensures t.TabOf? <==> status in {"Available", "In Use", "Maintenance"}
    ensures t.TabOf? ==> t.value.Label() == status
  {
    match status
    case "All" => AllTab
    case "Available" => TabOf(Available)
    case "In Use" => TabOf(InUse)
    case "Maintenance" => TabOf(Maintenance)
    case _ => AllTab
  }

  /** The page's filter state, updated in place by its handlers. */
  class RoomFilters {
    var activeTab: Tab<RoomStatus>
    var roomTypeFilter: string
    var statusFilter: string
    var searchTerm: string

    function Query(): RoomQuery
      reads this
    {
      RoomQuery(activeTab, roomTypeFilter, statusFilter, searchTerm)
    }

    constructor()
      ensures Query() == Unfiltered
    {
      activeTab := AllTab;
      roomTypeFilter := "All";
      statusFilter := "All";
      searchTerm := "";
    }

    /** `handleStatusFilterChange(status)`: the status select always takes the value, and the tab follows
        it (StatusChangeAgrees says the two then select alike). */
    method ChangeStatusFilter(status: string)
      modifies this
      ensures statusFilter == status && activeTab == TabForStatus(status)
      ensures roomTypeFilter == old(roomTypeFilter) && searchTerm == old(searchTerm)
    {
      statusFilter := status;
      activeTab := TabForStatus(status);
    }

    /** A tab click: only the tab changes. */
    method ClickTab(tab: Tab<RoomStatus>)
      modifies this
      ensures activeTab == tab
      ensures roomTypeFilter == old(roomTypeFilter) && statusFilter == old(statusFilter) && searchTerm == old(searchTerm)
    {
      activeTab := tab;
    }
  }

  /** The visible list is an order-preserving subsequence of the data, holding exactly the rooms that match. */
  lemma FilteredRoomsSelects(data: seq<Room>, q: RoomQuery)
    ensures SubsequenceOf(FilteredRooms(data, q), data)
    ensures forall i :: 0 <= i < |FilteredRooms(data, q)| ==> MatchesRoom(FilteredRooms(data, q)[i], q)
    ensures forall i :: 0 <= i < |data| ==> (MatchesRoom(data[i], q) <==> data[i] in FilteredRooms(data, q))
  {
    var p := (r: Room) => MatchesRoom(r, q);
    KeepSubsequence(data, p);
    KeepSound(data, p);
    KeepComplete(data, p);
    var k := FilteredRooms(data, q);
    forall i | 0 <= i < |data| && data[i] in k ensures MatchesRoom(data[i], q) {
      var j :| 0 <= j < |k| && k[j] == data[i];
    }
  }

  /** With every filter on "All" and an empty search, every room is visible. */
  lemma FilteredRoomsUnfiltered(data: seq<Room>)
    ensures FilteredRooms(data, Unfiltered) == data
  {
    forall r | r in data ensures MatchesRoom(r, Unfiltered) {
      MatchesTextEmpty(r.roomId);
    }
    KeepAllPass(data, (r: Room) => MatchesRoom(r, Unfiltered));
  }

  /** Filtering the visible list again changes nothing. */
  lemma FilteredRoomsIdempotent(data: seq<Room>, q: RoomQuery)
    ensures FilteredRooms(FilteredRooms(data, q), q) == FilteredRooms(data, q)
  {
    KeepIdempotent(data, (r: Room) => MatchesRoom(r, q));
  }

  /** Two search terms that lower-case alike select the same rooms. */
  lemma FilteredRoomsCaseInsensitive(data: seq<Room>, q: RoomQuery, term: string)
    requires Lower(term) == Lower(q.searchTerm)
    ensures FilteredRooms(data, q.(searchTerm := term)) == FilteredRooms(data, q)
  {
    var q' := q.(searchTerm := term);
    forall r | r in data ensures MatchesRoom(r, q') == MatchesRoom(r, q) {
      MatchesTextCaseInsensitive(r.roomId, term, q.searchTerm);
      MatchesTextCaseInsensitive(r.roomName, term, q.searchTerm);
      if r.currentUser.Some? {
        MatchesTextCaseInsensitive(r.currentUser.value, term, q.searchTerm);
      }
    }
    KeepAgree(data, (r: Room) => MatchesRoom(r, q'), (r: Room) => MatchesRoom(r, q));
  }

  /** After a tab click that disagrees with a non-"All" status selection, nothing is visible. */
  lemma FilteredRoomsConflict(data: seq<Room>, q: RoomQuery)
    requires q.activeTab.TabOf? && q.statusFilter != "All" && q.statusFilter != q.activeTab.value.Label()
    ensures FilteredRooms(data, q) == []
  {
    KeepNonePass(data, (r: Room) => MatchesRoom(r, q));
  }

  /** After a status select change, the tab and the status predicates coincide: the list is the one the
      status select alone gives. */
  lemma StatusChangeAgrees(data: seq<Room>, q: RoomQuery, status: string)
    ensures FilteredRooms(data, q.(activeTab := TabForStatus(status), statusFilter := status))
         == FilteredRooms(data, q.(activeTab := AllTab, statusFilter := status))
  {
    var q1 := q.(activeTab := TabForStatus(status), statusFilter := status);
    var q2 := q.(activeTab := AllTab, statusFilter := status);
    forall r | r in data ensures MatchesRoom(r, q1) == MatchesRoom(r, q2) {
      if TabForStatus(status).TabOf? && Selects(status, r.status.Label()) {
        assert r.status.Label() == TabForStatus(status).value.Label();
      }
    }
    KeepAgree(data, (r: Room) => MatchesRoom(r, q1), (r: Room) => MatchesRoom(r, q2));
  }

  /** The room-type select is exact equality on the type unless it is "All". */
  lemma FilteredRoomsByType(data: seq<Room>, q: RoomQuery, t: RoomType)
    requires q.roomTypeFilter == t.Label()
    ensures forall i :: 0 <= i < |FilteredRooms(data, q)| ==> FilteredRooms(data, q)[i].roomType == t
  {
    KeepSound(data, (r: Room) => MatchesRoom(r, q));
  }

  /** Searching "Davis" shows PS5-002, whose current user is Emma Davis. */
  lemma SearchDavisFindsItsRoom()
    ensures roomsData[4] in FilteredRooms(roomsData, Unfiltered.(searchTerm := "Davis"))
  {
    var q := Unfiltered.(searchTerm := "Davis");
    DavisIsEmmasSurname();
    KeepKeepsAt(roomsData, (r: Room) => MatchesRoom(r, q), 4);
  }

  lemma DavisIsEmmasSurname()
    ensures MatchesText("Emma Davis", "Davis")
  {
    assert "Emma Davis"[5..] == "Davis";
    assert OccursAt(Lower("Emma Davis"), Lower("Davis"), 5);
    ContainsIff(Lower("Emma Davis"), Lower("Davis"));
  }
}
