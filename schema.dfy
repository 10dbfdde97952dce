/** The record shapes of shared/schema.ts, the constant unit-type tables,
    and the values the database fills in when an insert leaves a column out
    (autoincrement ids, column defaults, creation timestamps). */
module Schema {
  import opened Wrappers
  import Seqs

  /** Timestamps are milliseconds since the epoch; one day of them. */
  const MillisPerDay: int := 1000 * 60 * 60 * 24

  /** The unit types, in declaration order. */
  const UnitTypes: seq<string> := ["small", "medium", "large", "extra-large"]

  /** Size label, monthly price and picture of one unit type. */
  datatype SizeInfo = SizeInfo(size: string, price: int, image: string)

  /** `unitSizeInfo` as its `Object.entries`, in key order. */
  function UnitSizeInfo(): (entries: seq<(string, SizeInfo)>)
    ensures |entries| == |UnitTypes|
    ensures forall i :: 0 <= i < |entries| ==> entries[i].0 == UnitTypes[i]
    ensures forall i, j :: 0 <= i < j < |entries| ==> entries[i].1.price < entries[j].1.price
  {
    [ ("small", SizeInfo("5x5", 50, "https://images.unsplash.com/photo-1465779042638-3e4bfcc3475d")),
      ("medium", SizeInfo("10x10", 100, "https://images.unsplash.com/photo-1719937051128-d2d7ccd7853c")),
      ("large", SizeInfo("10x15", 150, "https://images.unsplash.com/photo-1576669801820-a9ab287ac2d1")),
      ("extra-large", SizeInfo("10x20", 200, "https://images.unsplash.com/photo-1719937050988-dd510cf0e512")) ]
  }

  /** The size and price of each unit type. */
  lemma UnitSizeInfoEntries()
    ensures UnitSizeInfo()[0].1.size == "5x5" && UnitSizeInfo()[0].1.price == 50
    ensures UnitSizeInfo()[1].1.size == "10x10" && UnitSizeInfo()[1].1.price == 100
    ensures UnitSizeInfo()[2].1.size == "10x15" && UnitSizeInfo()[2].1.price == 150
    ensures UnitSizeInfo()[3].1.size == "10x20" && UnitSizeInfo()[3].1.price == 200
  {
  }

  // ---------------------------------------------------------------- units

  /** A row of `units`; the key column is called `id` throughout. */
  datatype Unit = Unit(
    id: int, unitType: string, size: string, price: int, isOccupied: bool,
    location: string, pricingGroupId: Option<int>, customerId: Option<int>)

  /** What `insertUnitSchema` accepts: no key and no occupancy flag. */
  datatype InsertUnit = InsertUnit(
    unitType: string, size: string, price: int, location: string,
    pricingGroupId: Option<int>, customerId: Option<int>)

  /** The columns of a unit that an insert supplies. */
  function UnitInsertPart(u: Unit): InsertUnit {
    InsertUnit(u.unitType, u.size, u.price, u.location, u.pricingGroupId, u.customerId)
  }

  /** The row the database stores for an inserted unit under key `id`. */
  function NewUnit(id: int, u: InsertUnit): (r: Unit)
    ensures r.id == id && UnitInsertPart(r) == u
    ensures !r.isOccupied
  {
    Unit(id, u.unitType, u.size, u.price, false, u.location, u.pricingGroupId, u.customerId)
  }

  // ------------------------------------------------------------ customers

  datatype Customer = Customer(
    id: int, name: string, email: string, phone: string,
    address: Option<string>, accessCode: Option<string>,
    accountStatus: string, recurringBillingStatus: string,
    autopayEnabled: bool, autopayMethod: Option<string>, autopayDay: Option<int>,
    createdAt: int)

  /** What `insertCustomerSchema` accepts: columns with a default may be left out. */
  datatype InsertCustomer = InsertCustomer(
    name: string, email: string, phone: string,
    address: Option<string>, accessCode: Option<string>,
    accountStatus: Option<string>, recurringBillingStatus: Option<string>,
    autopayEnabled: Option<bool>, autopayMethod: Option<string>, autopayDay: Option<int>,
    createdAt: Option<int>)

  const DefaultAccountStatus := "enabled"
  const DefaultRecurringBillingStatus := "not_activated"

  /** The stored customer: supplied columns are kept, left-out ones take their default. */
  function NewCustomer(id: int, c: InsertCustomer, now: int): (r: Customer)
    ensures r.id == id && r.name == c.name && r.email == c.email && r.phone == c.phone
    ensures r.address == c.address && r.accessCode == c.accessCode
    ensures r.autopayMethod == c.autopayMethod && r.autopayDay == c.autopayDay
    ensures r.accountStatus == if c.accountStatus.Some? then c.accountStatus.value else "enabled"
    ensures r.recurringBillingStatus
         == if c.recurringBillingStatus.Some? then c.recurringBillingStatus.value else "not_activated"
    ensures r.autopayEnabled == (c.autopayEnabled.Some? && c.autopayEnabled.value)
    ensures r.createdAt == if c.createdAt.Some? then c.createdAt.value else now
  {
    Customer(id, c.name, c.email, c.phone, c.address, c.accessCode,
      c.accountStatus.GetOr(DefaultAccountStatus),
      c.recurringBillingStatus.GetOr(DefaultRecurringBillingStatus),
      c.autopayEnabled.GetOr(false), c.autopayMethod, c.autopayDay,
      c.createdAt.GetOr(now))
  }

  // ------------------------------------------------------------- bookings

  /** A row of `bookings`; dates and decimals are the text the database returns. */
  datatype Booking = Booking(
    id: int, unitId: int, customerId: int, startDate: string, endDate: Option<string>,
    status: string, monthlyRate: string, nextBillDate: string, insuranceAmount: Option<string>)

  /** What `insertBookingSchema` accepts: everything but the key. */
  datatype InsertBooking = InsertBooking(
    unitId: int, customerId: int, startDate: string, endDate: Option<string>,
    status: string, monthlyRate: string, nextBillDate: string, insuranceAmount: Option<string>)

  function BookingInsertPart(b: Booking): InsertBooking {
    InsertBooking(b.unitId, b.customerId, b.startDate, b.endDate, b.status,
      b.monthlyRate, b.nextBillDate, b.insuranceAmount)
  }

  function NewBooking(id: int, b: InsertBooking): (r: Booking)
    ensures r.id == id && BookingInsertPart(r) == b
  {
    Booking(id, b.unitId, b.customerId, b.startDate, b.endDate, b.status,
      b.monthlyRate, b.nextBillDate, b.insuranceAmount)
  }

  // ------------------------------------------------------ lookups by key

  /** `rows[i]` is the first row of `rows` whose key is `id`. */
  predicate FirstWithKey<T>(rows: seq<T>, key: T -> int, id: int, i: int) {
    && 0 <= i < |rows|
    && key(rows[i]) == id
    && forall j :: 0 <= j < i ==> key(rows[j]) != id
  }

  function UnitId(u: Unit): int { u.id }
  function CustomerId(c: Customer): int { c.id }
  function BookingId(b: Booking): int { b.id }

  /** The first unit whose key is `id` (a `select ... where id = ?`, or a `find` by id). */
  function UnitWithId(units: seq<Unit>, id: int): (r: Option<Unit>)
    ensures r.None? <==> forall u :: u in units ==> u.id != id
    ensures r.Some? ==> exists i :: FirstWithKey(units, UnitId, id, i) && units[i] == r.value
  {
    var r := Seqs.Find(units, (u: Unit) => u.id == id);
    assert r.Some? ==> FirstWithKey(units, UnitId, id, Seqs.FirstIndex(units, (u: Unit) => u.id == id));
    r
  }

  function BookingWithId(bookings: seq<Booking>, id: int): (r: Option<Booking>)
    ensures r.None? <==> forall b :: b in bookings ==> b.id != id
    ensures r.Some? ==> exists i :: FirstWithKey(bookings, BookingId, id, i) && bookings[i] == r.value
  {
    var r := Seqs.Find(bookings, (b: Booking) => b.id == id);
    assert r.Some? ==> FirstWithKey(bookings, BookingId, id, Seqs.FirstIndex(bookings, (b: Booking) => b.id == id));
    r
  }

  function CustomerWithId(customers: seq<Customer>, id: int): (r: Option<Customer>)
    ensures r.None? <==> forall c :: c in customers ==> c.id != id
    ensures r.Some? ==> exists i :: FirstWithKey(customers, CustomerId, id, i) && customers[i] == r.value
  {
    var r := Seqs.Find(customers, (c: Customer) => c.id == id);
    assert r.Some? ==> FirstWithKey(customers, CustomerId, id, Seqs.FirstIndex(customers, (c: Customer) => c.id == id));
    r
  }

  // ------------------------------------------------------------- payments

  /** A row of `payments`; `createdAt` is a millisecond timestamp. */
  datatype Payment = Payment(
    id: int, bookingId: int, amount: int, status: string,
    transactionId: Option<string>, createdAt: int)

  /** What `insertPaymentSchema` accepts: no key and no creation time. */
  datatype InsertPayment = InsertPayment(
    bookingId: int, amount: int, status: string, transactionId: Option<string>)

  function PaymentInsertPart(p: Payment): InsertPayment {
    InsertPayment(p.bookingId, p.amount, p.status, p.transactionId)
  }

  /** A new payment keeps the inserted columns and is stamped `now`. */
  function NewPayment(id: int, p: InsertPayment, now: int): (r: Payment)
    ensures r.id == id && PaymentInsertPart(r) == p
    ensures r.createdAt == now
  {
    Payment(id, p.bookingId, p.amount, p.status, p.transactionId, now)
  }

  // ------------------------------------------------ notification templates

  datatype NotificationTemplate = NotificationTemplate(
    id: int, name: string, templateType: string, subject: Option<string>, content: string,
    trigger: string, triggerConditions: Option<string>, isActive: bool,
    createdAt: int, updatedAt: int)

  /** What `insertNotificationTemplateSchema` accepts: no key, no timestamps, no active flag. */
  datatype InsertNotificationTemplate = InsertNotificationTemplate(
    name: string, templateType: string, subject: Option<string>, content: string,
    trigger: string, triggerConditions: Option<string>)

  function TemplateInsertPart(t: NotificationTemplate): InsertNotificationTemplate {
    InsertNotificationTemplate(t.name, t.templateType, t.subject, t.content, t.trigger, t.triggerConditions)
  }

  /** A new template is stored active, stamped `now`. */
  function NewNotificationTemplate(id: int, t: InsertNotificationTemplate, now: int): (r: NotificationTemplate)
    ensures r.id == id && TemplateInsertPart(r) == t
    ensures r.isActive
    ensures r.createdAt == now && r.updatedAt == now
  {
    NotificationTemplate(id, t.name, t.templateType, t.subject, t.content, t.trigger,
      t.triggerConditions, true, now, now)
  }

  // ------------------------------------------------- facility summary rows

  /** A row of `StorageManagerData`; decimals are the text the database returns. */
  datatype StorageManagerData = StorageManagerData(
    id: int, facilityId: int, facilityName: string, facilityCode: string,
    layoutId: Option<int>, pricingGroupId: Option<int>,
    totalUnits: int, availableUnits: int, occupiedUnits: int, maintenanceUnits: int,
    totalRevenue: string, pendingPayments: string, overduePayments: string,
    totalCustomers: int, activeCustomers: int, overdueCustomers: int,
    totalBookings: int, activeBookings: int, totalLeads: int, convertedLeads: int,
    lastUpdated: int, createdAt: int)

  /** `InsertStorageManagerData`: the key and every column with a default are optional. */
  datatype InsertStorageManagerData = InsertStorageManagerData(
    facilityId: int, facilityName: string, facilityCode: string,
    layoutId: Option<int>, pricingGroupId: Option<int>,
    totalUnits: int, availableUnits: int, occupiedUnits: int, maintenanceUnits: int,
    totalRevenue: Option<string>, pendingPayments: Option<string>, overduePayments: Option<string>,
    totalCustomers: Option<int>, activeCustomers: Option<int>, overdueCustomers: Option<int>,
    totalBookings: Option<int>, activeBookings: Option<int>, totalLeads: Option<int>,
    convertedLeads: Option<int>, lastUpdated: Option<int>, createdAt: Option<int>)

  /** The stored row: `id` is the autoincrement key unless one is supplied;
      supplied columns are kept and left-out ones take their default. */
  function NewStorageManagerData(id: Option<int>, nextId: int, d: InsertStorageManagerData, now: int)
    : (r: StorageManagerData)
    ensures r.id == id.GetOr(nextId)
    ensures r.facilityId == d.facilityId && r.facilityName == d.facilityName && r.facilityCode == d.facilityCode
    ensures r.layoutId == d.layoutId && r.pricingGroupId == d.pricingGroupId
    ensures r.totalUnits == d.totalUnits && r.availableUnits == d.availableUnits
    ensures r.occupiedUnits == d.occupiedUnits && r.maintenanceUnits == d.maintenanceUnits
    ensures r.totalRevenue == d.totalRevenue.GetOr("0")
    ensures r.pendingPayments == d.pendingPayments.GetOr("0")
    ensures r.overduePayments == d.overduePayments.GetOr("0")
    ensures r.totalCustomers == d.totalCustomers.GetOr(0)
    ensures r.activeCustomers == d.activeCustomers.GetOr(0)
    ensures r.overdueCustomers == d.overdueCustomers.GetOr(0)
    ensures r.totalBookings == d.totalBookings.GetOr(0)
    ensures r.activeBookings == d.activeBookings.GetOr(0)
    ensures r.totalLeads == d.totalLeads.GetOr(0)
    ensures r.convertedLeads == d.convertedLeads.GetOr(0)
    ensures r.lastUpdated == d.lastUpdated.GetOr(now) && r.createdAt == d.createdAt.GetOr(now)
  {
    StorageManagerData(
      id.GetOr(nextId), d.facilityId, d.facilityName, d.facilityCode, d.layoutId, d.pricingGroupId,
      d.totalUnits, d.availableUnits, d.occupiedUnits, d.maintenanceUnits,
      d.totalRevenue.GetOr("0"), d.pendingPayments.GetOr("0"), d.overduePayments.GetOr("0"),
      d.totalCustomers.GetOr(0), d.activeCustomers.GetOr(0), d.overdueCustomers.GetOr(0),
      d.totalBookings.GetOr(0), d.activeBookings.GetOr(0), d.totalLeads.GetOr(0),
      d.convertedLeads.GetOr(0), d.lastUpdated.GetOr(now), d.createdAt.GetOr(now))
  }

  /** Every column of a stored row, supplied explicitly. */
  function SuppliedInsert(r: StorageManagerData): InsertStorageManagerData {
    InsertStorageManagerData(
      r.facilityId, r.facilityName, r.facilityCode, r.layoutId, r.pricingGroupId,
      r.totalUnits, r.availableUnits, r.occupiedUnits, r.maintenanceUnits,
      Some(r.totalRevenue), Some(r.pendingPayments), Some(r.overduePayments),
      Some(r.totalCustomers), Some(r.activeCustomers), Some(r.overdueCustomers),
      Some(r.totalBookings), Some(r.activeBookings), Some(r.totalLeads),
      Some(r.convertedLeads), Some(r.lastUpdated), Some(r.createdAt))
  }

  /** Inserting a row with every column and its key supplied stores exactly that row. */
  lemma StorageManagerDataRoundTrip(r: StorageManagerData, nextId: int, now: int)
    ensures NewStorageManagerData(Some(r.id), nextId, SuppliedInsert(r), now) == r
  {
  }

  /** Leaving out every column with a default stores zero counts and "0" amounts. */
  lemma StorageManagerDataDefaults(id: Option<int>, nextId: int, d: InsertStorageManagerData, now: int)
    requires d.totalRevenue.None? && d.pendingPayments.None? && d.overduePayments.None?
    requires d.totalCustomers.None? && d.activeCustomers.None? && d.overdueCustomers.None?
    requires d.totalBookings.None? && d.activeBookings.None?
    requires d.totalLeads.None? && d.convertedLeads.None?
    ensures var r := NewStorageManagerData(id, nextId, d, now);
      && r.totalRevenue == "0" && r.pendingPayments == "0" && r.overduePayments == "0"
      && r.totalCustomers == 0 && r.activeCustomers == 0 && r.overdueCustomers == 0
      && r.totalBookings == 0 && r.activeBookings == 0 && r.totalLeads == 0 && r.convertedLeads == 0
  {
  }
}
