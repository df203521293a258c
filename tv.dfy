/** The TV management page: the TV list filtered by a status select and a search box, the colour
    badge of a TV type, and the status stat cards. */
module Tvs {
  import opened Text
  import opened Records
  import opened Devices

  datatype TvType = Led | Oled | FourK | SmartTv {
    function Label(): string {
      match this
      case Led => "LED"
      case Oled => "OLED"
      case FourK => "4K"
      case SmartTv => "Smart TV"
    }
  }

  /** The fields of a TV that the page filters and counts on (`type` is `tvType` here). */
  datatype Tv = Tv(tvId: string, tvName: string, tvType: TvType, status: DeviceStatus, serialNumber: string, brand: string)

  /** The status select (a string) and the search box; this page has no tab bar. */
  datatype TvQuery = TvQuery(statusFilter: string, searchTerm: string)

  const Unfiltered: TvQuery := TvQuery("All", "")

  const tvsData: seq<Tv> := [
    Tv("TV-001", "Samsung 55\" 4K Smart TV A", FourK, InUse, "SAM-55-4K-001", "Samsung"),
    Tv("TV-002", "LG 50\" LED TV B", Led, Available, "LG-50-LED-002", "LG"),
    Tv("TV-003", "Sony 65\" OLED TV C", Oled, Maintenance, "SONY-65-OLED-003", "Sony"),
    Tv("TV-004", "Samsung 55\" Smart TV D", SmartTv, Available, "SAM-55-SMART-004", "Samsung"),
    Tv("TV-005", "LG 50\" LED TV E", Led, Offline, "LG-50-LED-005", "LG"),
    Tv("TV-006", "Sony 65\" 4K TV F", FourK, InUse, "SONY-65-4K-006", "Sony"),
    Tv("TV-007", "Samsung 75\" OLED TV G", Oled, Available, "SAM-75-OLED-007", "Samsung"),
    Tv("TV-008", "LG 55\" Smart TV H", SmartTv, Maintenance, "LG-55-SMART-008", "LG")
  ]

  /** Case-insensitive search over the id, the name, the serial number and the brand. */
  predicate MatchesSearch(t: Tv, term: string) {
    || MatchesText(t.tvId, term)
    || MatchesText(t.tvName, term)
    || MatchesText(t.serialNumber, term)
    || MatchesText(t.brand, term)
  }

  predicate MatchesTv(t: Tv, q: TvQuery) {
    Selects(q.statusFilter, t.status.Label()) && MatchesSearch(t, q.searchTerm)
  }

  /** `filteredTVs`, applied by the page to `tvsData`. */
  function FilteredTvs(data: seq<Tv>, q: TvQuery): seq<Tv> {
    Keep(data, (t: Tv) => MatchesTv(t, q))
  }

  /** The visible list is an order-preserving subsequence of the data, holding exactly the TVs that match. */
  lemma FilteredTvsSelects(data: seq<Tv>, q: TvQuery)
    ensures SubsequenceOf(FilteredTvs(data, q), data)
    ensures forall i :: 0 <= i < |FilteredTvs(data, q)| ==> MatchesTv(FilteredTvs(data, q)[i], q)
    ensures forall i :: 0 <= i < |data| ==> (MatchesTv(data[i], q) <==> data[i] in FilteredTvs(data, q))
  {
    var p := (t: Tv) => MatchesTv(t, q);
    KeepSubsequence(data, p);
    KeepSound(data, p);
    KeepComplete(data, p);
    var k := FilteredTvs(data, q);
    forall i | 0 <= i < |data| && data[i] in k ensures MatchesTv(data[i], q) {
      var j :| 0 <= j < |k| && k[j] == data[i];
    }
  }

  /** With the status on "All" and an empty search, every TV is visible. */
  lemma FilteredTvsUnfiltered(data: seq<Tv>)
    ensures FilteredTvs(data, Unfiltered) == data
  {
    forall t | t in data ensures MatchesTv(t, Unfiltered) {
      MatchesTextEmpty(t.tvId);
    }
    KeepAllPass(data, (t: Tv) => MatchesTv(t, Unfiltered));
  }

  /** Filtering the visible list again changes nothing. */
  lemma FilteredTvsIdempotent(data: seq<Tv>, q: TvQuery)
    ensures FilteredTvs(FilteredTvs(data, q), q) == FilteredTvs(data, q)
  {
    KeepIdempotent(data, (t: Tv) => MatchesTv(t, q));
  }

  /** Two search terms that lower-case alike select the same TVs. */
  lemma FilteredTvsCaseInsensitive(data: seq<Tv>, q: TvQuery, term: string)
    requires Lower(term) == Lower(q.searchTerm)
    ensures FilteredTvs(data, q.(searchTerm := term)) == FilteredTvs(data, q)
  {
    var q' := q.(searchTerm := term);
    forall t | t in data ensures MatchesTv(t, q') == MatchesTv(t, q) {
      MatchesTextCaseInsensitive(t.tvId, term, q.searchTerm);
      MatchesTextCaseInsensitive(t.tvName, term, q.searchTerm);
      MatchesTextCaseInsensitive(t.serialNumber, term, q.searchTerm);
      MatchesTextCaseInsensitive(t.brand, term, q.searchTerm);
    }
    KeepAgree(data, (t: Tv) => MatchesTv(t, q'), (t: Tv) => MatchesTv(t, q));
  }

  /** A status selection other than "All" is exact equality on the status. */
  lemma FilteredTvsByStatus(data: seq<Tv>, q: TvQuery, s: DeviceStatus)
    requires q.statusFilter == s.Label()
    ensures forall i :: 0 <= i < |FilteredTvs(data, q)| ==> FilteredTvs(data, q)[i].status == s
  {
    KeepSound(data, (t: Tv) => MatchesTv(t, q));
  }

  /** `getTypeColor(type)`: the badge colour of a TV type, gray for anything else. */
  function TypeColor(typeName: string): (c: string)
    ensures c != "bg-gray-500" <==> exists t: TvType :: t.Label() == typeName
  {
    match typeName
    case "LED" => assert Led.Label() == typeName; "bg-blue-500"
    case "OLED" => assert Oled.Label() == typeName; "bg-purple-500"
    case "4K" => assert FourK.Label() == typeName; "bg-green-500"
    case "Smart TV" => assert SmartTv.Label() == typeName; "bg-orange-500"
    case _ => "bg-gray-500"
  }

  /** The four TV types get four different colours. */
  lemma TypeColorsDistinct(a: TvType, b: TvType)
    requires a != b
    ensures TypeColor(a.Label()) != TypeColor(b.Label())
  {
  }

  /** `availableTVs`. */
  function AvailableTvs(data: seq<Tv>): nat {
    Count(data, (t: Tv) => t.status == Available)
  }

  /** `inUseTVs`. */
  function InUseTvs(data: seq<Tv>): nat {
    Count(data, (t: Tv) => t.status == InUse)
  }

  /** `maintenanceTVs`: maintenance or offline. */
  function MaintenanceTvs(data: seq<Tv>): nat {
    Count(data, (t: Tv) => OutOfService(t.status))
  }

  /** The three cards partition the TVs: the statuses are exhaustive and the maintenance card takes two of
      them, so the cards add up to `totalTVs` and none exceeds it. */
  lemma TvStatsPartition(data: seq<Tv>)
    ensures AvailableTvs(data) + InUseTvs(data) + MaintenanceTvs(data) == |data|
    ensures AvailableTvs(data) <= |data| && InUseTvs(data) <= |data| && MaintenanceTvs(data) <= |data|
  {
    CountPartition3(data, (t: Tv) => t.status == Available, (t: Tv) => t.status == InUse, (t: Tv) => OutOfService(t.status));
  }
}
