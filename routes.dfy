/** The request handlers of server/routes.ts over the storage class: body
    validation (a failed `safeParse` is `None`), the existence and vacancy
    checks in front of a booking, the status enums of the PATCH routes, and
    the start-up seeding of the unit table. Each handler runs atomically. */
module Routes {
  import opened Wrappers
  import opened Schema
  import opened Storage
  import Numerals

  /** Status codes, as defined in RFC 9110. */
  const OK := 200          // section 15.3.1
  const Created := 201     // section 15.3.2
  const BadRequest := 400  // section 15.5.1
  const NotFound := 404    // section 15.5.5

  datatype Body<T> = Json(value: T) | Message(text: string)
  datatype Response<T> = Response(status: int, body: Body<T>)

  const BookingStatuses: seq<string> := ["active", "completed", "cancelled"]
  const LeadStatuses: seq<string> := ["new", "contacted", "qualified", "converted", "lost"]
  const PaymentStatuses: seq<string> := ["pending", "completed", "failed", "refunded"]

  /** The zod enum check on the body's `status` field: the status
      accepted from the body, or the 400 reply. `status` is `None` when the
      body has no string `status` field. */
  function ValidateStatus<T>(status: Option<string>, allowed: seq<string>): (r: Result<string, Response<T>>)
    ensures r.Ok? <==> status.Some? && status.value in allowed
    ensures r.Ok? ==> r.value == status.value
    ensures r.Err? ==> r.error == Response(BadRequest, Message("Invalid status"))
  {
    if status.Some? && status.value in allowed then Ok(status.value)
    else Err(Response(BadRequest, Message("Invalid status")))
  }

  /** PATCH /api/leads/:id/status accepts exactly the five lead statuses. */
  lemma LeadStatusAccepted<T>(s: string)
    ensures ValidateStatus<T>(Some(s), LeadStatuses).Ok?
        <==> s == "new" || s == "contacted" || s == "qualified" || s == "converted" || s == "lost"
  {
  }

  /** PATCH /api/payments/:id/status accepts exactly the four payment statuses. */
  lemma PaymentStatusAccepted<T>(s: string)
    ensures ValidateStatus<T>(Some(s), PaymentStatuses).Ok?
        <==> s == "pending" || s == "completed" || s == "failed" || s == "refunded"
  {
  }

  /** GET /api/units */
  method GetUnitsRoute(s: DatabaseStorage) returns (resp: Response<seq<Unit>>)
    ensures resp == Response(OK, Json(s.units))
  {
    var units := s.GetUnits();
    resp := Response(OK, Json(units));
  }

  /** GET /api/units/:id */
  method GetUnitRoute(s: DatabaseStorage, id: int) returns (resp: Response<Unit>)
    ensures resp.status == NotFound <==> forall u :: u in s.units ==> u.id != id
    ensures resp.status == NotFound ==> resp.body == Message("Unit not found")
    ensures resp.status != NotFound ==>
      resp.status == OK && resp.body.Json? && resp.body.value in s.units && resp.body.value.id == id
  {
    var unit := s.GetUnit(id);
    if unit.None? {
      return Response(NotFound, Message("Unit not found"));
    }
    resp := Response(OK, Json(unit.value));
  }

  /** POST /api/units */
  method PostUnitRoute(s: DatabaseStorage, body: Option<InsertUnit>) returns (resp: Response<Unit>)
    requires s.Valid()
    modifies s
    ensures s.Valid()
    ensures body.None? ==> resp == Response(BadRequest, Message("Invalid unit data")) && s.State() == old(s.State())
    ensures body.Some? ==>
      var unit := NewUnit(old(s.nextUnitId), body.value);
      && resp == Response(Created, Json(unit))
      && s.State() == old(s.State()).(units := old(s.units) + [unit], nextUnitId := old(s.nextUnitId) + 1)
  {
    if body.None? {
      return Response(BadRequest, Message("Invalid unit data"));
    }
    var unit := s.CreateUnit(body.value);
    resp := Response(Created, Json(unit));
  }

  /** POST /api/customers; `now` stands for the database clock. */
  method PostCustomerRoute(s: DatabaseStorage, body: Option<InsertCustomer>, now: int)
    returns (resp: Response<Customer>)
    requires s.Valid()
    modifies s
    ensures s.Valid()
    ensures body.None? ==> resp == Response(BadRequest, Message("Invalid customer data")) && s.State() == old(s.State())
    ensures body.Some? ==>
      var customer := NewCustomer(old(s.nextCustomerId), body.value, now);
      && resp == Response(Created, Json(customer))
      && s.State() == old(s.State()).(customers := old(s.customers) + [customer],
                                       nextCustomerId := old(s.nextCustomerId) + 1)
  {
    if body.None? {
      return Response(BadRequest, Message("Invalid customer data"));
    }
    var customer := s.CreateCustomer(body.value, now);
    resp := Response(Created, Json(customer));
  }

  /** GET /api/customers */
  method GetCustomersRoute(s: DatabaseStorage) returns (resp: Response<seq<Customer>>)
    ensures resp == Response(OK, Json(s.customers))
  {
    var customers := s.GetCustomers();
    resp := Response(OK, Json(customers));
  }

  /** GET /api/bookings */
  method GetBookingsRoute(s: DatabaseStorage) returns (resp: Response<seq<Booking>>)
    ensures resp == Response(OK, Json(s.bookings))
  {
    var bookings := s.GetBookings();
    resp := Response(OK, Json(bookings));
  }

  /** POST /api/bookings: only an existing, vacant unit can be booked; the
      booking then occupies it. */
  method PostBookingRoute(s: DatabaseStorage, body: Option<InsertBooking>) returns (resp: Response<Booking>)
    requires s.Valid()
    modifies s
    ensures s.Valid()
    ensures body.None? ==> resp == Response(BadRequest, Message("Invalid booking data")) && s.State() == old(s.State())
    ensures body.Some? && UnitWithId(old(s.units), body.value.unitId).None? ==>
      resp == Response(NotFound, Message("Unit not found")) && s.State() == old(s.State())
    ensures body.Some? && UnitWithId(old(s.units), body.value.unitId).Some?
                       && UnitWithId(old(s.units), body.value.unitId).value.isOccupied ==>
      resp == Response(BadRequest, Message("Unit is already occupied")) && s.State() == old(s.State())
    ensures resp.status == Created <==>
      body.Some? && UnitWithId(old(s.units), body.value.unitId).Some?
                 && !UnitWithId(old(s.units), body.value.unitId).value.isOccupied
    ensures resp.status == Created ==>
      var booking := NewBooking(old(s.nextBookingId), body.value);
      && resp.body == Json(booking)
      && s.State() == old(s.State()).(bookings := old(s.bookings) + [booking],
                                       units := WithOccupancy(old(s.units), booking.unitId, true),
                                       nextBookingId := old(s.nextBookingId) + 1)
      && (forall u :: u in s.units && u.id == booking.unitId ==> u.isOccupied)
  {
    if body.None? {
      return Response(BadRequest, Message("Invalid booking data"));
    }
    var unit := s.GetUnit(body.value.unitId);
    if unit.None? {
      return Response(NotFound, Message("Unit not found"));
    }
    if unit.value.isOccupied {
      return Response(BadRequest, Message("Unit is already occupied"));
    }
    var booking := s.CreateBooking(body.value);
    resp := Response(Created, Json(booking.value));
  }

  /** PATCH /api/bookings/:id/status. Any failure of the storage call is
      answered 404 "Booking not found", including a released unit that no
      longer exists, in which case the status change has already happened. */
  method PatchBookingStatusRoute(s: DatabaseStorage, id: int, status: Option<string>)
    returns (resp: Response<Booking>)
    requires s.Valid()
    modifies s
    ensures s.Valid()
    ensures ValidateStatus<Booking>(status, BookingStatuses).Err? ==>
      resp == Response(BadRequest, Message("Invalid status")) && s.State() == old(s.State())
    ensures ValidateStatus<Booking>(status, BookingStatuses).Ok? && BookingWithId(old(s.bookings), id).None? ==>
      resp == Response(NotFound, Message("Booking not found")) && s.State() == old(s.State())
    ensures ValidateStatus<Booking>(status, BookingStatuses).Ok? && BookingWithId(old(s.bookings), id).Some? ==>
      var updated := BookingWithId(old(s.bookings), id).value.(status := status.value);
      var unitFound := UnitWithId(old(s.units), updated.unitId).Some?;
      && s.State() == old(s.State()).(bookings := WithStatus(old(s.bookings), id, status.value), units := s.units)
      && (ReleasesUnit(status.value) && unitFound ==>
            resp == Response(OK, Json(updated)) && s.units == WithOccupancy(old(s.units), updated.unitId, false))
      && (ReleasesUnit(status.value) && !unitFound ==>
            resp == Response(NotFound, Message("Booking not found")) && s.units == old(s.units))
      && (!ReleasesUnit(status.value) ==> resp == Response(OK, Json(updated)) && s.units == old(s.units))
  {
    var checked := ValidateStatus<Booking>(status, BookingStatuses);
    if checked.Err? {
      return checked.error;
    }
    var result := s.UpdateBookingStatus(id, checked.value);
    if result.Err? {
      return Response(NotFound, Message("Booking not found"));
    }
    resp := Response(OK, Json(result.value));
  }

  /** Cancelling a booking and then setting it back to "active" answers 200
      twice, yet leaves its unit vacant: only a new booking occupies a unit. */
  method CancelThenReactivate(s: DatabaseStorage, id: int) returns (first: Response<Booking>, second: Response<Booking>)
    requires s.Valid()
    requires BookingWithId(s.bookings, id).Some?
    requires UnitWithId(s.units, BookingWithId(s.bookings, id).value.unitId).Some?
    modifies s
    ensures first.status == OK && second.status == OK
    ensures var unitId := old(BookingWithId(s.bookings, id).value.unitId);
      && BookingWithId(s.bookings, id) == Some(old(BookingWithId(s.bookings, id).value).(status := "active"))
      && UnitWithId(s.units, unitId) == Some(old(UnitWithId(s.units, unitId).value).(isOccupied := false))
  {
    ghost var booking := BookingWithId(s.bookings, id).value;
    ghost var unit := UnitWithId(s.units, booking.unitId).value;
    assert ValidateStatus<Booking>(Some("cancelled"), BookingStatuses) == Ok("cancelled");
    assert ValidateStatus<Booking>(Some("active"), BookingStatuses) == Ok("active");
    assert ReleasesUnit("cancelled") && !ReleasesUnit("active");
    LookupAfterStatus(s.bookings, id, "cancelled", id);
    LookupAfterOccupancy(s.units, booking.unitId, false, booking.unitId);
    first := PatchBookingStatusRoute(s, id, Some("cancelled"));
    ghost var cancelled := booking.(status := "cancelled");
    assert BookingWithId(s.bookings, id) == Some(cancelled);
    assert UnitWithId(s.units, booking.unitId) == Some(unit.(isOccupied := false));
    LookupAfterStatus(s.bookings, id, "active", id);
    second := PatchBookingStatusRoute(s, id, Some("active"));
    assert cancelled.(status := "active") == booking.(status := "active");
  }

  // --------------------------------------------------------------- seeding

  /** The two random draws behind a seeded location:
      a floor index below 3 and a block index below 4. */
  datatype Draw = Draw(floor: nat, block: nat)

  predicate DrawsInRange(draws: seq<Draw>) {
    forall i :: 0 <= i < |draws| ==> draws[i].floor < 3 && draws[i].block < 4
  }

  /** `Floor ${floorNumber}, Block ${blockLetter}`. */
  function SeedLocation(d: Draw): (loc: string)
    requires d.floor < 3 && d.block < 4
    ensures |loc| == 16 && loc[..6] == "Floor " && loc[7..15] == ", Block "
    ensures '1' <= loc[6] <= '3' && loc[6] as int - '0' as int == d.floor + 1
    ensures 'A' <= loc[15] <= 'D' && loc[15] as int - 'A' as int == d.block
  {
    "Floor " + Numerals.Numeral(d.floor + 1) + ", Block " + [(65 + d.block) as char]
  }

  /** The unit seeded for one `unitSizeInfo` entry. */
  function SeedInsert(entry: (string, SizeInfo), d: Draw): (u: InsertUnit)
    requires d.floor < 3 && d.block < 4
    ensures u.unitType == entry.0 && u.size == entry.1.size && u.price == entry.1.price
    ensures u.location == SeedLocation(d)
    ensures u.pricingGroupId.None? && u.customerId.None?
  {
    InsertUnit(entry.0, entry.1.size, entry.1.price, SeedLocation(d), None, None)
  }

  /** `seedUnits`: an empty unit table receives one vacant unit per unit
      type, with that type's size and price; a non-empty one is left alone. */
  method SeedUnits(s: DatabaseStorage, draws: seq<Draw>)
    requires s.Valid()
    requires |draws| == |UnitSizeInfo()| && DrawsInRange(draws)
    modifies s
    ensures s.Valid()
    ensures old(|s.units|) != 0 ==> s.State() == old(s.State())
    ensures old(|s.units|) == 0 ==>
      && |s.units| == |UnitSizeInfo()|
      && (forall k :: 0 <= k < |s.units| ==>
            s.units[k] == NewUnit(old(s.nextUnitId) + k, SeedInsert(UnitSizeInfo()[k], draws[k])))
      && (forall k :: 0 <= k < |s.units| ==>
            && s.units[k].unitType == UnitTypes[k]
            && s.units[k].size == UnitSizeInfo()[k].1.size
            && s.units[k].price == UnitSizeInfo()[k].1.price
            && !s.units[k].isOccupied)
      && s.State() == old(s.State()).(units := s.units, nextUnitId := old(s.nextUnitId) + |UnitSizeInfo()|)
  {
    var existing := s.GetUnits();
    if |existing| == 0 {
      var entries := UnitSizeInfo();
      ghost var start := s.nextUnitId;
      for k := 0 to |entries|
        invariant s.Valid()
        invariant |s.units| == k && s.nextUnitId == start + k
        invariant forall j :: 0 <= j < k ==> s.units[j] == NewUnit(start + j, SeedInsert(entries[j], draws[j]))
        invariant s.customers == old(s.customers) && s.bookings == old(s.bookings)
        invariant s.nextCustomerId == old(s.nextCustomerId) && s.nextBookingId == old(s.nextBookingId)
      {
        var _ := s.CreateUnit(SeedInsert(entries[k], draws[k]));
      }
    }
  }

  /** Seeding twice leaves the table the first seeding produced. */
  method SeedUnitsTwice(s: DatabaseStorage, first: seq<Draw>, second: seq<Draw>)
    requires s.Valid() && |s.units| == 0
    requires |first| == |UnitSizeInfo()| && DrawsInRange(first)
    requires |second| == |UnitSizeInfo()| && DrawsInRange(second)
    modifies s
    ensures s.Valid()
    ensures |s.units| == |UnitSizeInfo()|
    ensures forall k :: 0 <= k < |s.units| ==>
      s.units[k] == NewUnit(old(s.nextUnitId) + k, SeedInsert(UnitSizeInfo()[k], first[k]))
  {
    SeedUnits(s, first);
    SeedUnits(s, second);
  }
}
