/** The three cards of the manager dashboard
    (client/src/pages/manager/dashboard.tsx). */
module Dashboard {
  import opened Wrappers
  import opened Schema
  import Seqs
  import Home

  datatype DashboardStats = DashboardStats(totalUnits: nat, occupiedUnits: nat, activeBookings: nat)

  /** The dashboard's `stats`: the same three numbers as the home page's. */
  function DashboardStatsOf(units: Option<seq<Unit>>, bookings: Option<seq<Booking>>): (s: DashboardStats)
    ensures s.occupiedUnits <= s.totalUnits
    ensures s.totalUnits == Home.HomeStats(units, bookings).totalUnits
    ensures s.occupiedUnits == Home.HomeStats(units, bookings).occupiedUnits
    ensures s.activeBookings == Home.HomeStats(units, bookings).activeBookings
    ensures units.None? ==> s.totalUnits == 0 && s.occupiedUnits == 0
    ensures bookings.None? ==> s.activeBookings == 0
  {
    DashboardStats(
      match units case Some(us) => |us| case None => 0,
      match units case Some(us) => |Seqs.Filter(us, Home.Occupied)| case None => 0,
      match bookings case Some(bs) => |Seqs.Filter(bs, Home.IsActive)| case None => 0)
  }
}
