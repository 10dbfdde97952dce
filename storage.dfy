/** `DatabaseStorage` of server/storage.ts: the unit, customer and booking
    tables held in memory, with the two follow-up writes that keep a unit's
    occupancy flag in step with its bookings. A thrown `Error` is an `Err`
    carrying its message. */
module Storage {
  import opened Wrappers
  import opened Schema
  import Seqs

  const UnitNotFound := "Unit not found"
  const BookingNotFound := "Booking not found"

  /** Booking statuses after which the unit is released. */
  predicate ReleasesUnit(status: string): (r: bool)
    ensures r <==> status in {"completed", "cancelled"}
    ensures r ==> status != "active"
  {
    status == "completed" || status == "cancelled"
  }

  /** `update units set isOccupied = occ where id = ?` on the whole table. */
  function WithOccupancy(units: seq<Unit>, id: int, occ: bool): (r: seq<Unit>)
    ensures |r| == |units|
    ensures forall i :: 0 <= i < |r| ==>
      r[i] == if units[i].id == id then units[i].(isOccupied := occ) else units[i]
  {
    seq(|units|, i requires 0 <= i < |units| =>
      if units[i].id == id then units[i].(isOccupied := occ) else units[i])
  }

  /** `update bookings set status = s where id = ?` on the whole table. */
  function WithStatus(bookings: seq<Booking>, id: int, status: string): (r: seq<Booking>)
    ensures |r| == |bookings|
    ensures forall i :: 0 <= i < |r| ==>
      r[i] == if bookings[i].id == id then bookings[i].(status := status) else bookings[i]
  {
    seq(|bookings|, i requires 0 <= i < |bookings| =>
      if bookings[i].id == id then bookings[i].(status := status) else bookings[i])
  }

  /** Setting one unit's occupancy changes what a lookup of that id finds
      in its flag only, and what a lookup of any other id finds not at all. */
  lemma {:induction false} LookupAfterOccupancy(units: seq<Unit>, id: int, occ: bool, other: int)
    ensures UnitWithId(WithOccupancy(units, id, occ), other) ==
      if other == id && UnitWithId(units, id).Some?
      then Some(UnitWithId(units, id).value.(isOccupied := occ))
      else UnitWithId(units, other)
  {
    var w := WithOccupancy(units, id, occ);
    var p := (u: Unit) => u.id == other;
    assert forall k :: 0 <= k < |units| ==> w[k].id == units[k].id;
    assert Seqs.FirstIndex(units, p) == Seqs.FirstIndex(w, p);
  }

  /** Setting one booking's status changes what a lookup of that id finds
      in its status only, and what a lookup of any other id finds not at all. */
  lemma {:induction false} LookupAfterStatus(bookings: seq<Booking>, id: int, status: string, other: int)
    ensures BookingWithId(WithStatus(bookings, id, status), other) ==
      if other == id && BookingWithId(bookings, id).Some?
      then Some(BookingWithId(bookings, id).value.(status := status))
      else BookingWithId(bookings, other)
  {
    var w := WithStatus(bookings, id, status);
    var p := (b: Booking) => b.id == other;
    assert forall k :: 0 <= k < |bookings| ==> w[k].id == bookings[k].id;
    assert Seqs.FirstIndex(bookings, p) == Seqs.FirstIndex(w, p);
  }

  /** Primary keys: positive, distinct, below the table's next autoincrement value. */
  ghost predicate KeysValid<T>(rows: seq<T>, key: T -> int, next: int) {
    && 1 <= next
    && (forall i :: 0 <= i < |rows| ==> 1 <= key(rows[i]) < next)
    && (forall i, j :: 0 <= i < j < |rows| ==> key(rows[i]) != key(rows[j]))
  }

  /** Appending a row under the next autoincrement value keeps the keys valid. */
  lemma KeysValidAppend<T>(rows: seq<T>, key: T -> int, next: int, x: T)
    requires KeysValid(rows, key, next) && key(x) == next
    ensures KeysValid(rows + [x], key, next + 1)
    ensures forall i :: 0 <= i < |rows| ==> key(rows[i]) != key(x)
  {
    var r := rows + [x];
    assert forall i :: 0 <= i < |rows| ==> r[i] == rows[i];
    assert r[|rows|] == x;
    forall i, j | 0 <= i < j < |r| ensures key(r[i]) != key(r[j]) {
      if j < |rows| {
        assert key(r[i]) == key(rows[i]) && key(r[j]) == key(rows[j]);
      } else {
        assert key(r[i]) == key(rows[i]) < next;
      }
    }
  }


  /** Everything a storage object holds. */
  datatype Tables = Tables(
    units: seq<Unit>, customers: seq<Customer>, bookings: seq<Booking>,
    nextUnitId: int, nextCustomerId: int, nextBookingId: int)

  class DatabaseStorage {
    var units: seq<Unit>
    var customers: seq<Customer>
    var bookings: seq<Booking>
    var nextUnitId: int
    var nextCustomerId: int
    var nextBookingId: int

    ghost predicate Valid()
      reads this
    {
      && KeysValid(units, UnitId, nextUnitId)
      && KeysValid(customers, CustomerId, nextCustomerId)
      && KeysValid(bookings, BookingId, nextBookingId)
    }

    ghost function State(): Tables
      reads this
    {
      Tables(units, customers, bookings, nextUnitId, nextCustomerId, nextBookingId)
    }

    /** Empty tables whose autoincrement counters start at 1. */
    constructor ()
      ensures Valid()
      ensures units == [] && customers == [] && bookings == []
    {
      units, customers, bookings := [], [], [];
      nextUnitId, nextCustomerId, nextBookingId := 1, 1, 1;
    }

    method GetUnits() returns (r: seq<Unit>)
      ensures r == units
    {
      r := units;
    }

    /** The unit with key `id`, or nothing. */
    method GetUnit(id: int) returns (r: Option<Unit>)
      ensures r.None? <==> forall u :: u in units ==> u.id != id
      ensures r.Some? ==> r.value in units && r.value.id == id
    {
      r := UnitWithId(units, id);
    }

    /** Appends the unit under the next key; it starts vacant. */
    method CreateUnit(u: InsertUnit) returns (r: Unit)
      requires Valid()
      modifies this
      ensures Valid()
      ensures r == NewUnit(old(nextUnitId), u) && !r.isOccupied
      ensures forall v :: v in old(units) ==> v.id != r.id
      ensures units == old(units) + [r]
      ensures customers == old(customers) && bookings == old(bookings)
      ensures nextUnitId == old(nextUnitId) + 1
      ensures nextCustomerId == old(nextCustomerId) && nextBookingId == old(nextBookingId)
    {
      r := NewUnit(nextUnitId, u);
      KeysValidAppend(units, UnitId, nextUnitId, r);
      units := units + [r];
      nextUnitId := nextUnitId + 1;
    }

    /** Sets the occupancy flag of the unit with key `id`; fails when there is none. */
    method UpdateUnitStatus(id: int, isOccupied: bool) returns (r: Result<Unit, string>)
      requires Valid()
      modifies this
      ensures Valid()
      ensures old(UnitWithId(units, id)).None? ==> r == Err(UnitNotFound) && units == old(units)
      ensures old(UnitWithId(units, id)).Some? ==>
        && r == Ok(old(UnitWithId(units, id)).value.(isOccupied := isOccupied))
        && units == WithOccupancy(old(units), id, isOccupied)
      ensures customers == old(customers) && bookings == old(bookings)
      ensures nextUnitId == old(nextUnitId) && nextCustomerId == old(nextCustomerId)
      ensures nextBookingId == old(nextBookingId)
    {
      var found := UnitWithId(units, id);
      if found.None? {
        return Err(UnitNotFound);
      }
      units := WithOccupancy(units, id, isOccupied);
      r := Ok(found.value.(isOccupied := isOccupied));
    }

    method GetCustomer(id: int) returns (r: Option<Customer>)
      ensures r.None? <==> forall c :: c in customers ==> c.id != id
      ensures r.Some? ==> r.value in customers && r.value.id == id
    {
      r := CustomerWithId(customers, id);
    }

    /** Appends the customer under the next key, defaults filled in. */
    method CreateCustomer(c: InsertCustomer, now: int) returns (r: Customer)
      requires Valid()
      modifies this
      ensures Valid()
      ensures r == NewCustomer(old(nextCustomerId), c, now)
      ensures forall d :: d in old(customers) ==> d.id != r.id
      ensures customers == old(customers) + [r]
      ensures units == old(units) && bookings == old(bookings)
      ensures nextCustomerId == old(nextCustomerId) + 1
      ensures nextUnitId == old(nextUnitId) && nextBookingId == old(nextBookingId)
    {
      r := NewCustomer(nextCustomerId, c, now);
      KeysValidAppend(customers, CustomerId, nextCustomerId, r);
      customers := customers + [r];
      nextCustomerId := nextCustomerId + 1;
    }

    method GetCustomers() returns (r: seq<Customer>)
      ensures r == customers
    {
      r := customers;
    }

    method GetBookings() returns (r: seq<Booking>)
      ensures r == bookings
    {
      r := bookings;
    }

    /** Inserts the booking, then marks its unit occupied. When the unit does
        not exist the booking stays inserted and "Unit not found" is raised. */
    method CreateBooking(b: InsertBooking) returns (r: Result<Booking, string>)
      requires Valid()
      modifies this
      ensures Valid()
      ensures bookings == old(bookings) + [NewBooking(old(nextBookingId), b)]
      ensures forall x :: x in old(bookings) ==> x.id != old(nextBookingId)
      ensures old(UnitWithId(units, b.unitId)).Some? ==>
        && r == Ok(NewBooking(old(nextBookingId), b))
        && units == WithOccupancy(old(units), b.unitId, true)
      ensures old(UnitWithId(units, b.unitId)).None? ==>
        r == Err(UnitNotFound) && units == old(units)
      ensures customers == old(customers)
      ensures nextBookingId == old(nextBookingId) + 1
      ensures nextUnitId == old(nextUnitId) && nextCustomerId == old(nextCustomerId)
    {
      var newBooking := NewBooking(nextBookingId, b);
      KeysValidAppend(bookings, BookingId, nextBookingId, newBooking);
      bookings := bookings + [newBooking];
      nextBookingId := nextBookingId + 1;
      var updated := UpdateUnitStatus(b.unitId, true);
      if updated.Err? {
        return Err(updated.error);
      }
      r := Ok(newBooking);
    }

    /** Sets the status of the booking with key `id`. A completed or cancelled
        booking releases its unit; any other status leaves units alone. The
        status change stays even when releasing the unit fails. */
    method UpdateBookingStatus(id: int, status: string) returns (r: Result<Booking, string>)
      requires Valid()
      modifies this
      ensures Valid()
      ensures old(BookingWithId(bookings, id)).None? ==>
        && r == Err(BookingNotFound)
        && bookings == old(bookings) && units == old(units)
      ensures old(BookingWithId(bookings, id)).Some? ==>
        var updated := old(BookingWithId(bookings, id)).value.(status := status);
        && bookings == WithStatus(old(bookings), id, status)
        && (!ReleasesUnit(status) ==> r == Ok(updated) && units == old(units))
        && (ReleasesUnit(status) && old(UnitWithId(units, updated.unitId)).Some? ==>
              r == Ok(updated) && units == WithOccupancy(old(units), updated.unitId, false))
        && (ReleasesUnit(status) && old(UnitWithId(units, updated.unitId)).None? ==>
              r == Err(UnitNotFound) && units == old(units))
      ensures customers == old(customers)
      ensures nextUnitId == old(nextUnitId) && nextCustomerId == old(nextCustomerId)
      ensures nextBookingId == old(nextBookingId)
    {
      var found := BookingWithId(bookings, id);
      if found.None? {
        return Err(BookingNotFound);
      }
      bookings := WithStatus(bookings, id, status);
      var updated := found.value.(status := status);
      if ReleasesUnit(status) {
        var released := UpdateUnitStatus(updated.unitId, false);
        if released.Err? {
          return Err(released.error);
        }
      }
      r := Ok(updated);
    }
  }
}
