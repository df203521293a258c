/** The controller management page: the controller list filtered by a status select and a search box,
    the battery colour band, and the per-platform stat cards. */
module Controllers {
  import opened Text
  import opened Records
  import opened Devices

  /** The fields of a controller that the page filters, counts and colours on (`type` is `platform` here).
      The optional battery level is a JavaScript number, modelled as a real without NaN. */
  datatype Controller = Controller(controllerId: string, controllerName: string, platform: Platform,
                                   status: DeviceStatus, batteryLevel: Option<real>, serialNumber: string)

  /** The status select (a string) and the search box; this page has no tab bar. */
  datatype ControllerQuery = ControllerQuery(statusFilter: string, searchTerm: string)

  const Unfiltered: ControllerQuery := ControllerQuery("All", "")

  const controllersData: seq<Controller> := [
    Controller("PS4-CTRL-001", "PS4 Controller A1", PS4, InUse, Some(85.0), "PS4-CTRL-ABC123"),
    Controller("PS4-CTRL-002", "PS4 Controller A2", PS4, Available, Some(100.0), "PS4-CTRL-DEF456"),
    Controller("PS4-CTRL-003", "PS4 Controller B1", PS4, Maintenance, Some(0.0), "PS4-CTRL-GHI789"),
    Controller("PS4-CTRL-004", "PS4 Controller B2", PS4, Available, Some(92.0), "PS4-CTRL-JKL012"),
    Controller("PS4-CTRL-005", "PS4 Controller C1", PS4, Offline, Some(0.0), "PS4-CTRL-MNO345"),
    Controller("PS5-CTRL-001", "PS5 DualSense A1", PS5, InUse, Some(78.0), "PS5-CTRL-PQR678"),
    Controller("PS5-CTRL-002", "PS5 DualSense A2", PS5, Available, Some(95.0), "PS5-CTRL-STU901"),
    Controller("PS5-CTRL-003", "PS5 DualSense B1", PS5, Available, Some(88.0), "PS5-CTRL-VWX234"),
    Controller("PS5-CTRL-004", "PS5 DualSense B2", PS5, Maintenance, Some(45.0), "PS5-CTRL-YZA567"),
    Controller("PS4-CTRL-006", "PS4 Controller D1", PS4, Available, Some(100.0), "PS4-CTRL-BCD890"),
    Controller("PS5-CTRL-005", "PS5 DualSense C1", PS5, Available, Some(92.0), "PS5-CTRL-EFG123"),
    Controller("PS4-CTRL-007", "PS4 Controller E1", PS4, InUse, Some(67.0), "PS4-CTRL-HIJ456")
  ]

  /** Case-insensitive search over the id, the name and the serial number. */
  predicate MatchesSearch(c: Controller, term: string) {
    MatchesText(c.controllerId, term) || MatchesText(c.controllerName, term) || MatchesText(c.serialNumber, term)
  }

  predicate MatchesController(c: Controller, q: ControllerQuery) {
    Selects(q.statusFilter, c.status.Label()) && MatchesSearch(c, q.searchTerm)
  }

  /** `filteredControllers`, applied by the page to `controllersData`. */
  function FilteredControllers(data: seq<Controller>, q: ControllerQuery): seq<Controller> {
    Keep(data, (c: Controller) => MatchesController(c, q))
  }

  /** The visible list is an order-preserving subsequence of the data, holding exactly the controllers that match. */
  lemma FilteredControllersSelects(data: seq<Controller>, q: ControllerQuery)
    ensures SubsequenceOf(FilteredControllers(data, q), data)
    ensures forall i :: 0 <= i < |FilteredControllers(data, q)| ==> MatchesController(FilteredControllers(data, q)[i], q)
    ensures forall i :: 0 <= i < |data| ==> (MatchesController(data[i], q) <==> data[i] in FilteredControllers(data, q))
  {
    var p := (c: Controller) => MatchesController(c, q);
    KeepSubsequence(data, p);
    KeepSound(data, p);
    KeepComplete(data, p);
    var k := FilteredControllers(data, q);
    forall i | 0 <= i < |data| && data[i] in k ensures MatchesController(data[i], q) {
      var j :| 0 <= j < |k| && k[j] == data[i];
    }
  }

  /** With the status on "All" and an empty search, every controller is visible. */
  lemma FilteredControllersUnfiltered(data: seq<Controller>)
    ensures FilteredControllers(data, Unfiltered) == data
  {
    forall c | c in data ensures MatchesController(c, Unfiltered) {
      MatchesTextEmpty(c.controllerId);
    }
    KeepAllPass(data, (c: Controller) => MatchesController(c, Unfiltered));
  }

  /** Filtering the visible list again changes nothing. */
  lemma FilteredControllersIdempotent(data: seq<Controller>, q: ControllerQuery)
    ensures FilteredControllers(FilteredControllers(data, q), q) == FilteredControllers(data, q)
  {
    KeepIdempotent(data, (c: Controller) => MatchesController(c, q));
  }

  /** Two search terms that lower-case alike select the same controllers. */
  lemma FilteredControllersCaseInsensitive(data: seq<Controller>, q: ControllerQuery, term: string)
    requires Lower(term) == Lower(q.searchTerm)
    ensures FilteredControllers(data, q.(searchTerm := term)) == FilteredControllers(data, q)
  {
    var q' := q.(searchTerm := term);
    forall c | c in data ensures MatchesController(c, q') == MatchesController(c, q) {
      MatchesTextCaseInsensitive(c.controllerId, term, q.searchTerm);
      MatchesTextCaseInsensitive(c.controllerName, term, q.searchTerm);
      MatchesTextCaseInsensitive(c.serialNumber, term, q.searchTerm);
    }
    KeepAgree(data, (c: Controller) => MatchesController(c, q'), (c: Controller) => MatchesController(c, q));
  }

  /** A status selection other than "All" is exact equality on the status. */
  lemma FilteredControllersByStatus(data: seq<Controller>, q: ControllerQuery, s: DeviceStatus)
    requires q.statusFilter == s.Label()
    ensures forall i :: 0 <= i < |FilteredControllers(data, q)| ==> FilteredControllers(data, q)[i].status == s
  {
    KeepSound(data, (c: Controller) => MatchesController(c, q));
  }

  /** The colour `getBatteryColor` gives the battery icon, from best to worst. */
  datatype BatteryBand = Emerald | Yellow | Orange | Red {
    /** The Tailwind class the icon receives. */
    function ClassName(): string {
      match this
      case Emerald => "text-emerald-600"
      case Yellow => "text-yellow-600"
      case Orange => "text-orange-600"
      case Red => "text-red-600"
    }

    /** Higher is better. */
    function Rank(): nat {
      match this
      case Emerald => 3
      case Yellow => 2
      case Orange => 1
      case Red => 0
    }
  }

  /** `getBatteryColor(level)`: the first threshold the level reaches, tried from the top. */
  function BatteryColor(level: real): (b: BatteryBand)
    ensures b == Emerald <==> 80.0 <= level
    ensures b == Yellow <==> 50.0 <= level < 80.0
    ensures b == Orange <==> 20.0 <= level < 50.0
    ensures b == Red <==> level < 20.0
  {
    if level >= 80.0 then Emerald
    else if level >= 50.0 then Yellow
    else if level >= 20.0 then Orange
    else Red
  }

  /** `controller.batteryLevel || 0`: a missing level is shown as 0 (a present 0 stays 0). */
  function ShownBattery(level: Option<real>): (r: real)
    ensures level.Some? ==> r == level.value
    ensures level.None? ==> r == 0.0
  {
    match level
    case None => 0.0
    case Some(v) => if v == 0.0 then 0.0 else v
  }

  /** A higher battery level never gives a worse band. */
  lemma BatteryMonotone(a: real, b: real)
    requires a <= b
    ensures BatteryColor(a).Rank() <= BatteryColor(b).Rank()
  {
  }

  /** A controller with no battery reading is shown in the red band. */
  lemma MissingBatteryIsRed()
    ensures BatteryColor(ShownBattery(None)) == Red
  {
  }

  /** The controllers of one platform (the cards' "/N units" denominators). */
  function PlatformCount(data: seq<Controller>, t: Platform): nat {
    Count(data, (c: Controller) => c.platform == t)
  }

  /** `ps4Available` / `ps5Available`. */
  function AvailableCount(data: seq<Controller>, t: Platform): nat {
    Count(data, (c: Controller) => c.platform == t && c.status == Available)
  }

  /** `ps4Maintenance` / `ps5Maintenance`: maintenance or offline. */
  function MaintenanceCount(data: seq<Controller>, t: Platform): nat {
    Count(data, (c: Controller) => c.platform == t && OutOfService(c.status))
  }

  /** For each platform the available and the maintenance cards count disjoint controllers of that platform. */
  lemma ControllerStatsDisjoint(data: seq<Controller>, t: Platform)
    ensures AvailableCount(data, t) + MaintenanceCount(data, t) <= PlatformCount(data, t)
  {
    CountDisjointWithin(data,
      (c: Controller) => c.platform == t && c.status == Available,
      (c: Controller) => c.platform == t && OutOfService(c.status),
      (c: Controller) => c.platform == t);
  }

  /** The "/7 units" and "/5 units" denominators are the PS4 and PS5 counts of the constant data. */
  lemma ControllerDenominators()
    ensures PlatformCount(controllersData, PS4) == 7 && PlatformCount(controllersData, PS5) == 5
  {
  }
}
