/** The rental page: the PlayStation units filtered by a type tab, a status select and a search box, and the
    per-type "available" stat cards with their "/N units" denominators. */
module Rentals {
  import opened Text
  import opened Records

  datatype UnitType = PS4 | PS5 | VIP {
    function Label(): string {
      match this
      case PS4 => "PS4"
      case PS5 => "PS5"
      case VIP => "VIP"
    }
  }

  datatype UnitStatus = Available | InUse | Offline {
    function Label(): string {
      match this
      case Available => "Available"
      case InUse => "In Use"
      case Offline => "Offline"
    }
  }

  /** The fields of a `PlayStationUnit` that the page filters and counts on; `user` is present only while
      the unit is rented. */
  datatype Unit = Unit(id: string, number: string, unitType: UnitType, status: UnitStatus, user: Option<string>)

  /** The type tab bar ("All" or a type), the status select (a string) and the search box. */
  datatype RentQuery = RentQuery(activeTab: Tab<UnitType>, statusFilter: string, searchTerm: string)

  const Unfiltered: RentQuery := RentQuery(AllTab, "All", "")

  const unitsData: seq<Unit> := [
    Unit("1", "PS4-001", PS4, InUse, Some("John Smith")),
    Unit("2", "PS4-002", PS4, Available, None),
    Unit("3", "PS4-003", PS4, Offline, None),
    Unit("4", "PS4-004", PS4, InUse, Some("Emma Davis")),
    Unit("5", "PS4-005", PS4, Available, None),
    Unit("6", "PS5-001", PS5, InUse, Some("Mike Johnson")),
    Unit("7", "PS5-002", PS5, Available, None),
    Unit("8", "PS5-003", PS5, InUse, Some("Lisa Wang")),
    Unit("9", "PS5-004", PS5, Offline, None),
    Unit("10", "VIP-001", VIP, InUse, Some("Alex Chen")),
    Unit("11", "VIP-002", VIP, Available, None),
    Unit("12", "VIP-003", VIP, Available, None),
    Unit("13", "PS4-006", PS4, InUse, Some("Sarah Kim")),
    Unit("14", "PS5-005", PS5, Available, None),
    Unit("15", "VIP-004", VIP, Offline, None)
  ]

  /** Case-insensitive search over the unit number, and over the user only when there is one. */
  predicate MatchesSearch(u: Unit, term: string) {
    MatchesText(u.number, term) || (u.user.Some? && MatchesText(u.user.value, term))
  }

  predicate MatchesUnit(u: Unit, q: RentQuery) {
    && OnTab(q.activeTab, u.unitType)
    && Selects(q.statusFilter, u.status.Label())
    && MatchesSearch(u, q.searchTerm)
  }

  /** `filteredUnits`, applied by the page to `unitsData`. */
  function FilteredUnits(data: seq<Unit>, q: RentQuery): seq<Unit> {
    Keep(data, (u: Unit) => MatchesUnit(u, q))
  }

  /** The visible grid is an order-preserving subsequence of the data, holding exactly the units that match. */
  lemma FilteredUnitsSelects(data: seq<Unit>, q: RentQuery)
    ensures SubsequenceOf(FilteredUnits(data, q), data)
    ensures forall i :: 0 <= i < |FilteredUnits(data, q)| ==> MatchesUnit(FilteredUnits(data, q)[i], q)
    ensures forall i :: 0 <= i < |data| ==> (MatchesUnit(data[i], q) <==> data[i] in FilteredUnits(data, q))
  {
    var p := (u: Unit) => MatchesUnit(u, q);
    KeepSubsequence(data, p);
    KeepSound(data, p);
    KeepComplete(data, p);
    var k := FilteredUnits(data, q);
    forall i | 0 <= i < |data| && data[i] in k ensures MatchesUnit(data[i], q) {
      var j :| 0 <= j < |k| && k[j] == data[i];
    }
  }

  /** With the tab and the status on "All" and an empty search, every unit is visible. */
  lemma FilteredUnitsUnfiltered(data: seq<Unit>)
    ensures FilteredUnits(data, Unfiltered) == data
  {
    forall u | u in data ensures MatchesUnit(u, Unfiltered) {
      MatchesTextEmpty(u.number);
    }
    KeepAllPass(data, (u: Unit) => MatchesUnit(u, Unfiltered));
  }

  /** Filtering the visible grid again changes nothing. */
  lemma FilteredUnitsIdempotent(data: seq<Unit>, q: RentQuery)
    ensures FilteredUnits(FilteredUnits(data, q), q) == FilteredUnits(data, q)
  {
    KeepIdempotent(data, (u: Unit) => MatchesUnit(u, q));
  }

  /** Two search terms that lower-case alike select the same units. */
  lemma FilteredUnitsCaseInsensitive(data: seq<Unit>, q: RentQuery, term: string)
    requires Lower(term) == Lower(q.searchTerm)
    ensures FilteredUnits(data, q.(searchTerm := term)) == FilteredUnits(data, q)
  {
    var q' := q.(searchTerm := term);
    forall u | u in data ensures MatchesUnit(u, q') == MatchesUnit(u, q) {
      MatchesTextCaseInsensitive(u.number, term, q.searchTerm);
      if u.user.Some? {
        MatchesTextCaseInsensitive(u.user.value, term, q.searchTerm);
      }
    }
    KeepAgree(data, (u: Unit) => MatchesUnit(u, q'), (u: Unit) => MatchesUnit(u, q));
  }

  /** A type tab is exact equality on the type, and a status selection other than "All" is exact equality
      on the status. */
  lemma FilteredUnitsExact(data: seq<Unit>, q: RentQuery)
    ensures q.activeTab.TabOf? ==> forall i :: 0 <= i < |FilteredUnits(data, q)| ==> FilteredUnits(data, q)[i].unitType == q.activeTab.value
    ensures q.statusFilter != "All" ==> forall i :: 0 <= i < |FilteredUnits(data, q)| ==> FilteredUnits(data, q)[i].status.Label() == q.statusFilter
  {
    KeepSound(data, (u: Unit) => MatchesUnit(u, q));
  }

  /** A unit nobody is renting is found by its number alone. */
  lemma FilteredUnitsUnrented(data: seq<Unit>, q: RentQuery, i: nat)
    requires i < |data| && data[i].user.None?
    requires OnTab(q.activeTab, data[i].unitType) && Selects(q.statusFilter, data[i].status.Label())
    ensures data[i] in FilteredUnits(data, q) <==> MatchesText(data[i].number, q.searchTerm)
  {
    FilteredUnitsSelects(data, q);
  }

  /** The units of one type. */
  function TypeCount(data: seq<Unit>, t: UnitType): nat {
    Count(data, (u: Unit) => u.unitType == t)
  }

  /** `ps4Available` / `ps5Available` / `vipAvailable`: units of the type whose status is "Available". */
  function AvailableCount(data: seq<Unit>, t: UnitType): nat {
    Count(data, (u: Unit) => u.unitType == t && u.status == Available)
  }

  /** The three available cards count disjoint units, so together they never exceed the number of units. */
  lemma AvailableCardsWithinUnits(data: seq<Unit>)
    ensures AvailableCount(data, PS4) + AvailableCount(data, PS5) + AvailableCount(data, VIP) <= |data|
  {
    CountDisjoint3(data,
      (u: Unit) => u.unitType == PS4 && u.status == Available,
      (u: Unit) => u.unitType == PS5 && u.status == Available,
      (u: Unit) => u.unitType == VIP && u.status == Available);
  }

  /** The type of every unit of the data, index by index. */
  lemma UnitTypesOfData()
    ensures |unitsData| == 15
    ensures unitsData[0].unitType == PS4 && unitsData[1].unitType == PS4 && unitsData[2].unitType == PS4 && unitsData[3].unitType == PS4 && unitsData[4].unitType == PS4
    ensures unitsData[5].unitType == PS5 && unitsData[6].unitType == PS5 && unitsData[7].unitType == PS5 && unitsData[8].unitType == PS5 && unitsData[9].unitType == VIP
    ensures unitsData[10].unitType == VIP && unitsData[11].unitType == VIP && unitsData[12].unitType == PS4 && unitsData[13].unitType == PS5 && unitsData[14].unitType == VIP
  {
    assert |unitsData| == 15 && unitsData[0].unitType == PS4 && unitsData[1].unitType == PS4 && unitsData[2].unitType == PS4 && unitsData[3].unitType == PS4 && unitsData[4].unitType == PS4;
    assert |unitsData| == 15 && unitsData[5].unitType == PS5 && unitsData[6].unitType == PS5 && unitsData[7].unitType == PS5 && unitsData[8].unitType == PS5 && unitsData[9].unitType == VIP;
    assert |unitsData| == 15 && unitsData[10].unitType == VIP && unitsData[11].unitType == VIP && unitsData[12].unitType == PS4 && unitsData[13].unitType == PS5 && unitsData[14].unitType == VIP;
  }

  /** The status of every unit of the data, index by index. */
  lemma UnitStatusesOfData()
    ensures |unitsData| == 15
    ensures unitsData[0].status == InUse && unitsData[1].status == Available && unitsData[2].status == Offline && unitsData[3].status == InUse && unitsData[4].status == Available
    ensures unitsData[5].status == InUse && unitsData[6].status == Available && unitsData[7].status == InUse && unitsData[8].status == Offline && unitsData[9].status == InUse
    ensures unitsData[10].status == Available && unitsData[11].status == Available && unitsData[12].status == InUse && unitsData[13].status == Available && unitsData[14].status == Offline
  {
    assert |unitsData| == 15 && unitsData[0].status == InUse && unitsData[1].status == Available && unitsData[2].status == Offline && unitsData[3].status == InUse && unitsData[4].status == Available;
    assert |unitsData| == 15 && unitsData[5].status == InUse && unitsData[6].status == Available && unitsData[7].status == InUse && unitsData[8].status == Offline && unitsData[9].status == InUse;
    assert |unitsData| == 15 && unitsData[10].status == Available && unitsData[11].status == Available && unitsData[12].status == InUse && unitsData[13].status == Available && unitsData[14].status == Offline;
  }

  /** The per-type totals of any list typed like the data, one prefix at a time. */
  lemma TypeCountsOfShape(data: seq<Unit>, t: UnitType)
    requires |data| == 15
    requires data[0].unitType == PS4 && data[1].unitType == PS4 && data[2].unitType == PS4 && data[3].unitType == PS4 && data[4].unitType == PS4
    requires data[5].unitType == PS5 && data[6].unitType == PS5 && data[7].unitType == PS5 && data[8].unitType == PS5 && data[9].unitType == VIP
    requires data[10].unitType == VIP && data[11].unitType == VIP && data[12].unitType == PS4 && data[13].unitType == PS5 && data[14].unitType == VIP
    ensures TypeCount(data, t) == (match t case PS4 => 6 case PS5 => 5 case VIP => 4)
  {
    var p := (u: Unit) => u.unitType == t;
    CountPrefixStep(data, p, 0);
    CountPrefixStep(data, p, 1);
    CountPrefixStep(data, p, 2);
    CountPrefixStep(data, p, 3);
    CountPrefixStep(data, p, 4);
    CountPrefixStep(data, p, 5);
    CountPrefixStep(data, p, 6);
    CountPrefixStep(data, p, 7);
    CountPrefixStep(data, p, 8);
    CountPrefixStep(data, p, 9);
    CountPrefixStep(data, p, 10);
    CountPrefixStep(data, p, 11);
    CountPrefixStep(data, p, 12);
    CountPrefixStep(data, p, 13);
    CountPrefixStep(data, p, 14);
    assert data[..15] == data;
  }

  /** The per-type available counts of any list whose statuses are those of the data and whose available
      units have the data's types, one prefix at a time. */
  lemma AvailableCountsOfShape(data: seq<Unit>, t: UnitType)
    requires |data| == 15
    requires data[0].status == InUse && data[1].status == Available && data[2].status == Offline && data[3].status == InUse && data[4].status == Available
    requires data[5].status == InUse && data[6].status == Available && data[7].status == InUse && data[8].status == Offline && data[9].status == InUse
    requires data[10].status == Available && data[11].status == Available && data[12].status == InUse && data[13].status == Available && data[14].status == Offline
    requires data[1].unitType == PS4 && data[4].unitType == PS4 && data[6].unitType == PS5 && data[10].unitType == VIP && data[11].unitType == VIP && data[13].unitType == PS5
    ensures AvailableCount(data, t) == 2
  {
    var front, back := data[..8], data[8..];
    assert data == front + back;
    CountAppend(front, back, (u: Unit) => u.unitType == t && u.status == Available);
    AvailableFrontOfShape(front, t);
    AvailableBackOfShape(back, t);
  }

  /** The first eight units of that shape hold two available PS4 units and one available PS5 unit. */
  lemma AvailableFrontOfShape(front: seq<Unit>, t: UnitType)
    requires |front| == 8
    requires front[0].status == InUse && front[1].status == Available && front[2].status == Offline && front[3].status == InUse
    requires front[4].status == Available && front[5].status == InUse && front[6].status == Available && front[7].status == InUse
    requires front[1].unitType == PS4 && front[4].unitType == PS4 && front[6].unitType == PS5
    ensures AvailableCount(front, t) == if t == PS4 then 2 else if t == PS5 then 1 else 0
  {
    var a := (u: Unit) => u.unitType == t && u.status == Available;
    CountPrefixStep(front, a, 0);
    CountPrefixStep(front, a, 1);
    CountPrefixStep(front, a, 2);
    CountPrefixStep(front, a, 3);
    CountPrefixStep(front, a, 4);
    CountPrefixStep(front, a, 5);
    CountPrefixStep(front, a, 6);
    CountPrefixStep(front, a, 7);
    assert front[..8] == front;
  }

  /** The last seven units of that shape hold two available VIP units and one available PS5 unit. */
  lemma AvailableBackOfShape(back: seq<Unit>, t: UnitType)
    requires |back| == 7
    requires back[0].status == Offline && back[1].status == InUse && back[2].status == Available && back[3].status == Available
    requires back[4].status == InUse && back[5].status == Available && back[6].status == Offline
    requires back[2].unitType == VIP && back[3].unitType == VIP && back[5].unitType == PS5
    ensures AvailableCount(back, t) == if t == VIP then 2 else if t == PS5 then 1 else 0
  {
    var a := (u: Unit) => u.unitType == t && u.status == Available;
    CountPrefixStep(back, a, 0);
    CountPrefixStep(back, a, 1);
    CountPrefixStep(back, a, 2);
    CountPrefixStep(back, a, 3);
    CountPrefixStep(back, a, 4);
    CountPrefixStep(back, a, 5);
    CountPrefixStep(back, a, 6);
    assert back[..7] == back;
  }

  /** The "/5 units" text of the PS4 card, as the page writes it. */
  const Ps4CardDenominator: nat := 5

  /** The data hold six PS4 units, so the PS4 card's "/5 units" understates the fleet by one. */
  lemma Ps4CardDenominatorIsWrong()
    ensures TypeCount(unitsData, PS4) == 6 != Ps4CardDenominator
  {
    UnitTypesOfData();
    TypeCountsOfShape(unitsData, PS4);
  }

  /** The denominator a card should print: the number of units of its type in the data it counts. */
  function UnitsDenominator(data: seq<Unit>, t: UnitType): (n: nat)
    ensures AvailableCount(data, t) <= n <= |data|
  {
    CountMonotone(data, (u: Unit) => u.unitType == t && u.status == Available, (u: Unit) => u.unitType == t);
    CountIsFilterLength(data, (u: Unit) => u.unitType == t);
    TypeCount(data, t)
  }

  /** The corrected PS4 card prints "/6 units": six PS4 units in the data. */
  lemma Ps4CorrectedDenominator()
    ensures UnitsDenominator(unitsData, PS4) == 6
  {
    UnitTypesOfData();
    TypeCountsOfShape(unitsData, PS4);
  }

  /** The "/5 units" of the PS5 card is the PS5 denominator of the data. */
  lemma Ps5CardDenominator()
    ensures UnitsDenominator(unitsData, PS5) == 5
  {
    UnitTypesOfData();
    TypeCountsOfShape(unitsData, PS5);
  }

  /** The "/4 units" of the VIP card is the VIP denominator of the data. */
  lemma VipCardDenominator()
    ensures UnitsDenominator(unitsData, VIP) == 4
  {
    UnitTypesOfData();
    TypeCountsOfShape(unitsData, VIP);
  }

  /** Every available card shows 2: two units of each type are free in the data. */
  lemma AvailableCardValues(t: UnitType)
    ensures AvailableCount(unitsData, t) == 2
  {
    UnitTypesOfData();
    UnitStatusesOfData();
    AvailableCountsOfShape(unitsData, t);
  }
}
