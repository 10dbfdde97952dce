/** The statistics cards of the manager home page
    (client/src/pages/manager/home.tsx): unit and booking counts, the
    monthly revenue of occupied units, the occupancy rate and the number
    of available units. An absent list (a query still loading) is `None`. */
module Home {
  import opened Wrappers
  import opened Schema
  import Seqs

  function Occupied(u: Unit): bool { u.isOccupied }
  function Vacant(u: Unit): bool { !u.isOccupied }
  function IsActive(b: Booking): bool { b.status == "active" }

  datatype Stats = Stats(totalUnits: nat, occupiedUnits: nat, activeBookings: nat, monthlyRevenue: int)

  /** The revenue `reduce`: from `acc`, add the price of each occupied unit, left to right. */
  function RevenueFold(units: seq<Unit>, acc: int): (r: int)
    ensures (forall i :: 0 <= i < |units| ==> !units[i].isOccupied) ==> r == acc
    ensures (forall i :: 0 <= i < |units| ==> units[i].price >= 0) ==> r >= acc
    decreases |units|
  {
    if units == [] then acc
    else RevenueFold(units[1..], if units[0].isOccupied then acc + units[0].price else acc)
  }

  /** The sum of the prices of some units. */
  function TotalPrice(units: seq<Unit>): int
    decreases |units|
  {
    if units == [] then 0 else units[0].price + TotalPrice(units[1..])
  }

  /** The fold adds exactly the prices of the occupied units to its start value. */
  lemma {:induction false} RevenueIsOccupiedPrices(units: seq<Unit>, acc: int)
    ensures RevenueFold(units, acc) == acc + TotalPrice(Seqs.Filter(units, Occupied))
    decreases |units|
  {
    if units != [] {
      var next := if units[0].isOccupied then acc + units[0].price else acc;
      RevenueIsOccupiedPrices(units[1..], next);
      var rest := Seqs.Filter(units[1..], Occupied);
      if units[0].isOccupied {
        var kept := [units[0]] + rest;
        assert kept[0] == units[0] && kept[1..] == rest;
      }
    }
  }

  /** Occupied and vacant units together are all the units. */
  lemma {:induction false} OccupiedPlusVacant(units: seq<Unit>)
    ensures |Seqs.Filter(units, Occupied)| + |Seqs.Filter(units, Vacant)| == |units|
    decreases |units|
  {
    if units != [] {
      OccupiedPlusVacant(units[1..]);
    }
  }

  /** The `stats` object. */
  function HomeStats(units: Option<seq<Unit>>, bookings: Option<seq<Booking>>): (s: Stats)
    ensures s.totalUnits == |units.GetOr([])|
    ensures s.occupiedUnits == |Seqs.Filter(units.GetOr([]), Occupied)| <= s.totalUnits
    ensures s.activeBookings == |Seqs.Filter(bookings.GetOr([]), IsActive)|
    ensures s.monthlyRevenue == TotalPrice(Seqs.Filter(units.GetOr([]), Occupied))
    ensures (forall u :: u in units.GetOr([]) ==> !u.isOccupied) ==> s.occupiedUnits == 0 && s.monthlyRevenue == 0
  {
    var us := units.GetOr([]);
    RevenueIsOccupiedPrices(us, 0);
    var occupied := Seqs.Filter(us, Occupied);
    assert occupied != [] ==> occupied[0] in occupied;
    Stats(
      match units case Some(us) => |us| case None => 0,
      match units case Some(us) => |Seqs.Filter(us, Occupied)| case None => 0,
      match bookings case Some(bs) => |Seqs.Filter(bs, IsActive)| case None => 0,
      match units case Some(us) => RevenueFold(us, 0) case None => 0)
  }

  /** Stats as `HomeStats` produces them. */
  predicate Consistent(s: Stats) {
    s.occupiedUnits <= s.totalUnits
  }

  lemma RatioBelow(r: int, d: int, k: int)
    requires d > 0 && r * d < k * d
    ensures r < k
  {
    assert (k - r) * d > 0;
  }

  /** `Math.round((o / t) * 100)` for `0 <= o <= t`, with `t > 0`, computed
      exactly: the nearest integer to 100 * o / t, halves rounded up. */
  function RoundedPercent(o: nat, t: nat): (r: nat)
    requires 0 < t && o <= t
    ensures r <= 100
    ensures -(t as int) <= 2 * (100 * o - r * t) < t
  {
    var n, d := 200 * o + t, 2 * t;
    var r := n / d;
    assert n == r * d + n % d && 0 <= n % d < d;
    assert r * d <= n < 101 * d;
    RatioBelow(r, d, 101);
    r
  }

  /** The occupancy-rate card: 0 without units, else the rounded percentage. */
  function OccupancyRate(s: Stats): (r: nat)
    requires Consistent(s)
    ensures r <= 100
    ensures s.totalUnits == 0 ==> r == 0
    ensures s.totalUnits > 0 ==>
      -(s.totalUnits as int) <= 2 * (100 * s.occupiedUnits - r * s.totalUnits) < s.totalUnits
  {
    if s.totalUnits == 0 then 0 else RoundedPercent(s.occupiedUnits, s.totalUnits)
  }

  /** No unit occupied reads 0%, every unit occupied reads 100%. */
  lemma OccupancyRateExtremes(s: Stats)
    requires Consistent(s) && s.totalUnits > 0
    ensures s.occupiedUnits == 0 ==> OccupancyRate(s) == 0
    ensures s.occupiedUnits == s.totalUnits ==> OccupancyRate(s) == 100
  {
    var r := OccupancyRate(s);
    var t := s.totalUnits;
    if s.occupiedUnits == 0 {
      assert (2 * r) * t < 2 * t;
      RatioBelow(2 * r, t, 2);
    }
    if s.occupiedUnits == t {
      assert 199 * t < (2 * r) * t;
      RatioBelow(199, t, 2 * r);
    }
  }

  /** The available-units card. */
  function AvailableUnits(s: Stats): (n: nat)
    requires Consistent(s)
    ensures n + s.occupiedUnits == s.totalUnits
  {
    s.totalUnits - s.occupiedUnits
  }

  /** The available-units card shows the number of vacant units, the count
      the public units page displays as the number of vacant units. */
  lemma AvailableIsVacantCount(units: seq<Unit>, bookings: Option<seq<Booking>>)
    ensures Consistent(HomeStats(Some(units), bookings))
    ensures AvailableUnits(HomeStats(Some(units), bookings)) == |Seqs.Filter(units, Vacant)|
  {
    OccupiedPlusVacant(units);
  }
}
