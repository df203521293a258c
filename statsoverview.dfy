/** The rental stats overview component: the three per-type "available" counts over the units it is given. */
module StatsOverview {
  import opened Records
  import opened Rentals

  /** The values of the three available cards. */
  datatype AvailabilityStats = AvailabilityStats(ps4: nat, ps5: nat, vip: nat)

  /** `ps4Available`, `ps5Available` and `vipAvailable` of the `units` prop; the types are disjoint, so the
      three cards together never count more units than there are. */
  function Stats(units: seq<Unit>): (s: AvailabilityStats)
    ensures s.ps4 + s.ps5 + s.vip <= |units|
  {
    var ps4 := Count(units, (u: Unit) => u.unitType == PS4 && u.status == Available);
    var ps5 := Count(units, (u: Unit) => u.unitType == PS5 && u.status == Available);
    var vip := Count(units, (u: Unit) => u.unitType == VIP && u.status == Available);
    CountDisjoint3(units,
      (u: Unit) => u.unitType == PS4 && u.status == Available,
      (u: Unit) => u.unitType == PS5 && u.status == Available,
      (u: Unit) => u.unitType == VIP && u.status == Available);
    AvailabilityStats(ps4, ps5, vip)
  }

  /** Each card counts exactly the available units of its type, as the rental page's own cards do. */
  lemma StatsMatchRentPage(units: seq<Unit>)
    ensures Stats(units).ps4 == AvailableCount(units, PS4)
    ensures Stats(units).ps5 == AvailableCount(units, PS5)
    ensures Stats(units).vip == AvailableCount(units, VIP)
  {
  }

  /** The cards do not depend on the order of the units. */
  lemma StatsPermutationInvariant(a: seq<Unit>, b: seq<Unit>)
    requires multiset(a) == multiset(b)
    ensures Stats(a) == Stats(b)
  {
    CountPermutation(a, b, (u: Unit) => u.unitType == PS4 && u.status == Available);
    CountPermutation(a, b, (u: Unit) => u.unitType == PS5 && u.status == Available);
    CountPermutation(a, b, (u: Unit) => u.unitType == VIP && u.status == Available);
  }

  /** Given the rental page's data, every card shows 2. */
  lemma StatsOfRentData()
    ensures Stats(unitsData) == AvailabilityStats(2, 2, 2)
  {
    AvailableCardValues(PS4);
    AvailableCardValues(PS5);
    AvailableCardValues(VIP);
  }

  /** The "/5", "/5" and "/4 units" the three cards print, fixed whatever `units` holds. */
  const CardDenominators: AvailabilityStats := AvailabilityStats(5, 5, 4)

  /** Given the rental page's data, the overview repeats that page's PS4 error: it prints "/5" against six
      PS4 units, while its PS5 and VIP denominators are right. */
  lemma OverviewDenominatorsOnRentData()
    ensures CardDenominators.ps4 != UnitsDenominator(unitsData, PS4)
    ensures CardDenominators.ps5 == UnitsDenominator(unitsData, PS5)
    ensures CardDenominators.vip == UnitsDenominator(unitsData, VIP)
  {
    Ps4CorrectedDenominator();
    Ps5CardDenominator();
    VipCardDenominator();
  }
}
