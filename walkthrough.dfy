/** The facility walkthrough (client/src/pages/manager/walkthrough.tsx):
    units ordered by the first number in their location, each shown with
    its occupancy, its active booking's tenant and how many days that
    booking's bill is late. `today` is the page's clock as a millisecond
    timestamp; `parse` stands for reading a date string as a timestamp, `None` being
    an invalid date. */
module Walkthrough {
  import opened Wrappers
  import opened Schema
  import opened Numerals
  import Seqs

  /** `calculateDaysLate`: days past the next bill date, rounded up, and 0
      when the date is not past or does not parse (a `NaN` difference). */
  function DaysLate(nextBill: Option<int>, today: int): (d: nat)
    ensures nextBill.None? ==> d == 0
    ensures nextBill.Some? ==> (d > 0 <==> today > nextBill.value)
    ensures d > 0 ==> (d - 1) * MillisPerDay < today - nextBill.value <= d * MillisPerDay
  {
    match nextBill
    case None => 0
    case Some(t) =>
      var days := -((t - today) / MillisPerDay);
      if days > 0 then days else 0
  }

  function BookingDaysLate(b: Booking, today: int, parse: string -> Option<int>): nat {
    DaysLate(parse(b.nextBillDate), today)
  }

  // ------------------------------------------------------------- sort key

  /** End of the run of digits starting at `i`. */
  function DigitRunEnd(s: string, i: nat): (j: nat)
    requires i <= |s|
    ensures i <= j <= |s|
    ensures forall k :: i <= k < j ==> IsDigit(s[k])
    ensures j < |s| ==> !IsDigit(s[j])
    decreases |s| - i
  {
    if i < |s| && IsDigit(s[i]) then DigitRunEnd(s, i + 1) else i
  }

  /** `r` is the first run of digits of `s`, starting at `i`: no digit
      before it, and it ends at the end of `s` or before a non-digit. */
  predicate FirstRunAt(s: string, i: int, r: string) {
    && 0 <= i && i + |r| <= |s|
    && r != [] && AllDigits(r) && s[i..i + |r|] == r
    && (forall k :: 0 <= k < i ==> !IsDigit(s[k]))
    && (i + |r| == |s| || !IsDigit(s[i + |r|]))
  }

  /** The first run of decimal digits in the location, empty when there is no digit. */
  function FirstDigitRun(s: string): (r: string)
    ensures AllDigits(r)
    ensures r == [] <==> forall k :: 0 <= k < |s| ==> !IsDigit(s[k])
    ensures r != [] ==> exists i :: FirstRunAt(s, i, r)
  {
    var i := Seqs.FirstIndex(s, IsDigit);
    var j := DigitRunEnd(s, i);
    assert i < |s| ==> j > i;
    assert i < |s| ==> FirstRunAt(s, i, s[i..j]);
    s[i..j]
  }

  /** The number written by that run of digits, 0 when there is none. */
  function SortKey(location: string): (k: nat)
    ensures (forall i :: 0 <= i < |location| ==> !IsDigit(location[i])) ==> k == 0
    ensures k == DigitsValue(FirstDigitRun(location))
  {
    DigitsValue(FirstDigitRun(location))
  }

  /** The first run of digits after a digit-free prefix is found, leading
      zeros included, and the key is the value of those digits. */
  lemma SortKeyOfRun(prefix: string, digits: string, suffix: string)
    requires forall k :: 0 <= k < |prefix| ==> !IsDigit(prefix[k])
    requires digits != [] && AllDigits(digits)
    requires suffix == [] || !IsDigit(suffix[0])
    ensures FirstDigitRun(prefix + digits + suffix) == digits
    ensures SortKey(prefix + digits + suffix) == DigitsValue(digits)
  {
    var s := prefix + digits + suffix;
    var p, e := |prefix|, |prefix| + |digits|;
    assert forall k :: 0 <= k < p ==> s[k] == prefix[k];
    assert forall k :: p <= k < e ==> s[k] == digits[k - p];
    assert e < |s| ==> s[e] == suffix[0];
    var i := Seqs.FirstIndex(s, IsDigit);
    assert IsDigit(s[p]);
    assert i == p;
    var j := DigitRunEnd(s, i);
    assert j == e;
    assert s[i..j] == digits;
  }

  /** A location written with a numeral sorts by that number. */
  lemma SortKeyOfNumeral(prefix: string, n: nat, suffix: string)
    requires forall k :: 0 <= k < |prefix| ==> !IsDigit(prefix[k])
    requires suffix == [] || !IsDigit(suffix[0])
    ensures SortKey(prefix + Numeral(n) + suffix) == n
  {
    SortKeyOfRun(prefix, Numeral(n), suffix);
    NumeralRoundTrip(n);
  }

  /** Leading zeros do not count: "Unit 007" sorts as 7. */
  lemma SortKeyLeadingZeros()
    ensures SortKey("Unit 007") == 7
  {
    assert "Unit " + "007" + "" == "Unit 007";
    SortKeyOfRun("Unit ", "007", "");
    assert "0" + "07" == "007" && "0" + "7" == "07";
    LeadingZero("07");
    LeadingZero("7");
    assert "7"[..0] == "";
  }

  function UnitSortKey(u: Unit): int { SortKey(u.location) }

  /** `sortedUnits`: a sorted copy of the unit list; equal keys keep their order. */
  function SortedUnits(units: Option<seq<Unit>>): (r: seq<Unit>)
    ensures multiset(r) == multiset(units.GetOr([]))
    ensures forall i, j :: 0 <= i < j < |r| ==> SortKey(r[i].location) <= SortKey(r[j].location)
  {
    var r := Seqs.SortBy(units.GetOr([]), UnitSortKey);
    assert forall i, j :: 0 <= i < j < |r| ==> UnitSortKey(r[i]) <= UnitSortKey(r[j]);
    r
  }

  /** Units with the same key appear in the order the server listed them. */
  lemma SortedUnitsStable(units: seq<Unit>, k: int)
    ensures Seqs.Filter(SortedUnits(Some(units)), Seqs.KeyIs(UnitSortKey, k))
         == Seqs.Filter(units, Seqs.KeyIs(UnitSortKey, k))
  {
    Seqs.SortByStable(units, UnitSortKey, k);
  }

  // ---------------------------------------------------------------- rows

  predicate ActiveFor(b: Booking, unitId: int) {
    b.unitId == unitId && b.status == "active"
  }

  /** `bs[i]` is the first active booking of the unit in `bs`. */
  predicate FirstActiveAt(bs: seq<Booking>, unitId: int, i: int) {
    && 0 <= i < |bs|
    && ActiveFor(bs[i], unitId)
    && forall j :: 0 <= j < i ==> !ActiveFor(bs[j], unitId)
  }

  /** The first active booking of the unit. */
  function ActiveBookingFor(unitId: int, bookings: Option<seq<Booking>>): (r: Option<Booking>)
    ensures r.None? <==> forall b :: b in bookings.GetOr([]) ==> !ActiveFor(b, unitId)
    ensures r.Some? ==> ActiveFor(r.value, unitId) && exists i :: FirstActiveAt(bookings.GetOr([]), unitId, i) && bookings.GetOr([])[i] == r.value
  {
    var bs := bookings.GetOr([]);
    var r := Seqs.Find(bs, (b: Booking) => ActiveFor(b, unitId));
    assert r.Some? ==> FirstActiveAt(bs, unitId, Seqs.FirstIndex(bs, (b: Booking) => ActiveFor(b, unitId)));
    r
  }

  /** The tenant of that booking: the first customer with its `customerId`. */
  function TenantOf(booking: Option<Booking>, customers: Option<seq<Customer>>): (r: Option<Customer>)
    ensures booking.None? ==> r.None?
    ensures booking.Some? ==> r == CustomerWithId(customers.GetOr([]), booking.value.customerId)
    ensures booking.Some? ==>
      (r.None? <==> forall c :: c in customers.GetOr([]) ==> c.id != booking.value.customerId)
    ensures r.Some? ==>
      exists i :: FirstWithKey(customers.GetOr([]), CustomerId, booking.value.customerId, i) && customers.GetOr([])[i] == r.value
  {
    match booking
    case None => None
    case Some(b) => CustomerWithId(customers.GetOr([]), b.customerId)
  }

  /** `customer?.name || "N/A"`: the tenant's name, or "N/A" when there is no
      tenant or its name is empty. */
  function TenantName(c: Option<Customer>): (name: string)
    ensures c.Some? && c.value.name != "" ==> name == c.value.name
    ensures c.None? || c.value.name == "" ==> name == "N/A"
  {
    if c.Some? && c.value.name != "" then c.value.name else "N/A"
  }

  datatype LateCell = Late(days: nat) | Current

  /** One table row; the notes column, which prints today's date, is not modelled. */
  datatype Row = Row(location: string, size: string, status: string, tenant: string, late: LateCell, lock: string)

  function RowFor(unit: Unit, bookings: Option<seq<Booking>>, customers: Option<seq<Customer>>,
                  today: int, parse: string -> Option<int>): (row: Row)
    ensures row.location == unit.location && row.size == unit.size
    ensures row.status == (if unit.isOccupied then "Occupied" else "Vacant")
    ensures row.lock == (if unit.isOccupied then "Secured" else "No Lock")
    ensures row.tenant == TenantName(TenantOf(ActiveBookingFor(unit.id, bookings), customers))
    ensures ActiveBookingFor(unit.id, bookings).None? ==> row.tenant == "N/A" && row.late == Current
    ensures ActiveBookingFor(unit.id, bookings).Some? ==>
      var days := BookingDaysLate(ActiveBookingFor(unit.id, bookings).value, today, parse);
      row.late == if days > 0 then Late(days) else Current
  {
    var booking := ActiveBookingFor(unit.id, bookings);
    var daysLate := if booking.Some? then BookingDaysLate(booking.value, today, parse) else 0;
    Row(unit.location, unit.size,
      if unit.isOccupied then "Occupied" else "Vacant",
      TenantName(TenantOf(booking, customers)),
      if daysLate > 0 then Late(daysLate) else Current,
      if unit.isOccupied then "Secured" else "No Lock")
  }

  /** The table: one row per unit, in sorted order. */
  function Rows(units: Option<seq<Unit>>, bookings: Option<seq<Booking>>, customers: Option<seq<Customer>>,
                today: int, parse: string -> Option<int>): (rows: seq<Row>)
    ensures |rows| == |units.GetOr([])|
    ensures forall i :: 0 <= i < |rows| ==>
      rows[i] == RowFor(SortedUnits(units)[i], bookings, customers, today, parse)
  {
    var sorted := SortedUnits(units);
    assert |sorted| == |multiset(sorted)| == |units.GetOr([])|;
    seq(|sorted|, i requires 0 <= i < |sorted| => RowFor(sorted[i], bookings, customers, today, parse))
  }
}
