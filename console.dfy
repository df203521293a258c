/** The console management page: the console list filtered by a platform tab, a status select and a
    search box; the handler that resets the tab when the status select returns to "All"; and the
    per-platform stat cards. */
module Consoles {
  import opened Text
  import opened Records
  import opened Devices

  /** The fields of a console that the page filters and counts on (`type` in the record is `platform` here). */
  datatype Console = Console(consoleId: string, consoleName: string, platform: Platform, status: DeviceStatus, serialNumber: string)

  /** The tab bar ("All", "PS4", "PS5"), the status select (a string) and the search box. */
  datatype ConsoleQuery = ConsoleQuery(activeTab: Tab<Platform>, statusFilter: string, searchTerm: string)

  const Unfiltered: ConsoleQuery := ConsoleQuery(AllTab, "All", "")

  const consolesData: seq<Console> := [
    Console("PS4-CON-001", "PlayStation 4 Console A", PS4, InUse, "PS4-ABC123456"),
    Console("PS4-CON-002", "PlayStation 4 Console B", PS4, Available, "PS4-DEF789012"),
    Console("PS4-CON-003", "PlayStation 4 Console C", PS4, Maintenance, "PS4-GHI345678"),
    Console("PS4-CON-004", "PlayStation 4 Console D", PS4, Available, "PS4-JKL901234"),
    Console("PS4-CON-005", "PlayStation 4 Console E", PS4, Offline, "PS4-MNO567890"),
    Console("PS5-CON-001", "PlayStation 5 Console A", PS5, InUse, "PS5-PQR123456"),
    Console("PS5-CON-002", "PlayStation 5 Console B", PS5, Available, "PS5-STU789012"),
    Console("PS5-CON-003", "PlayStation 5 Console C", PS5, Available, "PS5-VWX345678"),
    Console("PS5-CON-004", "PlayStation 5 Console D", PS5, Maintenance, "PS5-YZA901234")
  ]

  /** Case-insensitive search over the id, the name and the serial number. */
  predicate MatchesSearch(c: Console, term: string) {
    MatchesText(c.consoleId, term) || MatchesText(c.consoleName, term) || MatchesText(c.serialNumber, term)
  }

  predicate MatchesConsole(c: Console, q: ConsoleQuery) {
    && OnTab(q.activeTab, c.platform)
    && Selects(q.statusFilter, c.status.Label())
    && MatchesSearch(c, q.searchTerm)
  }

  /** `filteredConsoles`, applied by the page to `consolesData`. */
  function FilteredConsoles(data: seq<Console>, q: ConsoleQuery): seq<Console> {
    Keep(data, (c: Console) => MatchesConsole(c, q))
  }

  /** The page's filter state, updated in place by its handlers. */
  class ConsoleFilters {
    var activeTab: Tab<Platform>
    var statusFilter: string
    var searchTerm: string

    function Query(): ConsoleQuery
      reads this
    {
      ConsoleQuery(activeTab, statusFilter, searchTerm)
    }

    constructor()
      ensures Query() == Unfiltered
    {
      activeTab := AllTab;
      statusFilter := "All";
      searchTerm := "";
    }

    /** `handleStatusFilterChange(status)`: the status select takes the value; "All" also resets the tab,
        any other status keeps it (after "All", OnlySearchLeft says only the search narrows the list). */
    method ChangeStatusFilter(status: string)
      modifies this
      ensures statusFilter == status && searchTerm == old(searchTerm)
      ensures activeTab == (if status == "All" then AllTab else old(activeTab))
    {
      statusFilter := status;
      if status == "All" {
        activeTab := AllTab;
      }
    }

    /** A tab click: only the tab changes. */
    method ClickTab(tab: Tab<Platform>)
      modifies this
      ensures activeTab == tab && statusFilter == old(statusFilter) && searchTerm == old(searchTerm)
    {
      activeTab := tab;
    }
  }

  /** The visible list is an order-preserving subsequence of the data, holding exactly the consoles that match. */
  lemma FilteredConsolesSelects(data: seq<Console>, q: ConsoleQuery)
    ensures SubsequenceOf(FilteredConsoles(data, q), data)
    ensures forall i :: 0 <= i < |FilteredConsoles(data, q)| ==> MatchesConsole(FilteredConsoles(data, q)[i], q)
    ensures forall i :: 0 <= i < |data| ==> (MatchesConsole(data[i], q) <==> data[i] in FilteredConsoles(data, q))
  {
    var p := (c: Console) => MatchesConsole(c, q);
    KeepSubsequence(data, p);
    KeepSound(data, p);
    KeepComplete(data, p);
    var k := FilteredConsoles(data, q);
    forall i | 0 <= i < |data| && data[i] in k ensures MatchesConsole(data[i], q) {
      var j :| 0 <= j < |k| && k[j] == data[i];
    }
  }

  /** With the tab and the status on "All" and an empty search, every console is visible. */
  lemma FilteredConsolesUnfiltered(data: seq<Console>)
    ensures FilteredConsoles(data, Unfiltered) == data
  {
    forall c | c in data ensures MatchesConsole(c, Unfiltered) {
      MatchesTextEmpty(c.consoleId);
    }
    KeepAllPass(data, (c: Console) => MatchesConsole(c, Unfiltered));
  }

  /** Filtering the visible list again changes nothing. */
  lemma FilteredConsolesIdempotent(data: seq<Console>, q: ConsoleQuery)
    ensures FilteredConsoles(FilteredConsoles(data, q), q) == FilteredConsoles(data, q)
  {
    KeepIdempotent(data, (c: Console) => MatchesConsole(c, q));
  }

  /** Two search terms that lower-case alike select the same consoles. */
  lemma FilteredConsolesCaseInsensitive(data: seq<Console>, q: ConsoleQuery, term: string)
    requires Lower(term) == Lower(q.searchTerm)
    ensures FilteredConsoles(data, q.(searchTerm := term)) == FilteredConsoles(data, q)
  {
    var q' := q.(searchTerm := term);
    forall c | c in data ensures MatchesConsole(c, q') == MatchesConsole(c, q) {
      MatchesTextCaseInsensitive(c.consoleId, term, q.searchTerm);
      MatchesTextCaseInsensitive(c.consoleName, term, q.searchTerm);
      MatchesTextCaseInsensitive(c.serialNumber, term, q.searchTerm);
    }
    KeepAgree(data, (c: Console) => MatchesConsole(c, q'), (c: Console) => MatchesConsole(c, q));
  }

  /** A platform tab is exact equality on the console's platform. */
  lemma FilteredConsolesTabExact(data: seq<Console>, q: ConsoleQuery)
    requires q.activeTab.TabOf?
    ensures forall i :: 0 <= i < |FilteredConsoles(data, q)| ==> FilteredConsoles(data, q)[i].platform == q.activeTab.value
  {
    KeepSound(data, (c: Console) => MatchesConsole(c, q));
  }

  /** With the tab and the status on "All", the list is the search result alone. */
  lemma OnlySearchLeft(data: seq<Console>, q: ConsoleQuery)
    requires q.activeTab == AllTab && q.statusFilter == "All"
    ensures FilteredConsoles(data, q) == Keep(data, (c: Console) => MatchesSearch(c, q.searchTerm))
  {
    KeepAgree(data, (c: Console) => MatchesConsole(c, q), (c: Console) => MatchesSearch(c, q.searchTerm));
  }

  /** The consoles of one platform (the cards' "/N units" denominators). */
  function PlatformCount(data: seq<Console>, t: Platform): nat {
    Count(data, (c: Console) => c.platform == t)
  }

  /** `ps4Available` / `ps5Available`. */
  function AvailableCount(data: seq<Console>, t: Platform): nat {
    Count(data, (c: Console) => c.platform == t && c.status == Available)
  }

  /** `ps4Maintenance` / `ps5Maintenance`: maintenance or offline. */
  function MaintenanceCount(data: seq<Console>, t: Platform): nat {
    Count(data, (c: Console) => c.platform == t && OutOfService(c.status))
  }

  /** For each platform the available and the maintenance cards count disjoint consoles of that platform. */
  lemma ConsoleStatsDisjoint(data: seq<Console>, t: Platform)
    ensures AvailableCount(data, t) + MaintenanceCount(data, t) <= PlatformCount(data, t)
    ensures PlatformCount(data, PS4) + PlatformCount(data, PS5) == |data|
  {
    CountDisjointWithin(data,
      (c: Console) => c.platform == t && c.status == Available,
      (c: Console) => c.platform == t && OutOfService(c.status),
      (c: Console) => c.platform == t);
    PlatformsPartition(data);
  }

  lemma {:induction false} PlatformsPartition(data: seq<Console>)
    ensures PlatformCount(data, PS4) + PlatformCount(data, PS5) == |data|
    decreases |data|
  {
    if |data| > 0 {
      PlatformsPartition(data[1..]);
    }
  }

  /** The "/5 units" and "/4 units" denominators are the PS4 and PS5 counts of the constant data. */
  lemma ConsoleDenominators()
    ensures PlatformCount(consolesData, PS4) == 5 && PlatformCount(consolesData, PS5) == 4
  {
  }
}
