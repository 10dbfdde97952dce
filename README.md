# Storage facility manager — a Dafny model

This project models the core of a self-storage facility manager: the
server's `DatabaseStorage` (units, customers and bookings, and the rule that a
booking occupies its unit while completing or cancelling it releases the
unit), the request handlers in front of it (validation, the existence and
vacancy checks before a booking, the status enums of the PATCH routes, and
the start-up seeding of the unit table), the record shapes and defaults of
the shared schema, and the computations of the manager pages: the home and
dashboard statistics, the collections list of overdue payments, the
facility walkthrough table, the notification-template filters and labels,
the tenant-messaging selection state and the settings form bounds.

One Dafny module stands for each source file:

| module | file |
|---|---|
| `Schema` | shared/schema.ts |
| `Storage` | server/storage.ts |
| `Routes` | server/routes.ts |
| `Home` | client/src/pages/manager/home.tsx |
| `Dashboard` | client/src/pages/manager/dashboard.tsx |
| `Collections` | client/src/pages/manager/collections.tsx |
| `Walkthrough` | client/src/pages/manager/walkthrough.tsx |
| `Notifications` | client/src/pages/manager/notifications.tsx |
| `Messaging` | client/src/pages/manager/messaging.tsx |
| `Settings` | client/src/pages/manager/settings.tsx |

`SeedOrder` relates the two: how the units seeded by server/routes.ts sort
on the walkthrough page.

`Wrappers` (Option, Result), `Seqs` (the array methods `find`, `filter` and
the stable `sort`) and `Numerals` (printing a number in a template literal
and reading it back with `parseInt`) are shared helpers.

Modelling conventions:

- The database is a `DatabaseStorage` object whose tables are `seq` fields
  with one autoincrement counter per table. `Valid()` says every primary
  key is positive, below its counter and unique. Each storage call runs
  atomically, so concurrent requests are not modelled.
- A thrown `Error` is an `Err` carrying its message. The storage methods
  that update state after an earlier write keep that earlier write when
  they fail, as the source does: `createBooking` leaves the inserted
  booking when its unit is missing, and `updateBookingStatus` leaves the
  new status when the released unit is missing.
- A request body that fails its zod `safeParse` is `None`; a body that
  parses is the parsed insert record.
- Timestamps are integers in milliseconds. The clock is a parameter (`now`,
  `today`), and so is date parsing in the walkthrough (`parse`, with `None`
  for an invalid date).
- A list still loading on a page (`data` undefined) is `None`.
- The schema field `type` is called `unitType` on units and `templateType`
  on notification templates, because `type` is a Dafny keyword.
- `Math.round((o / t) * 100)` is computed exactly on integers as
  `(200 * o + t) / (2 * t)`; `Math.floor` and `Math.ceil` of a day count are
  Euclidean division by 86 400 000 and its negation trick.
- The random floor and block of a seeded unit are a parameter (`draws`),
  constrained to the ranges `Math.random` can produce.

## Model

| member | source | states |
|---|---|---|
| Schema.UnitSizeInfo | shared/schema.ts:95-100 | one entry per unit type, keyed in `unitTypes` order, with prices strictly increasing along that order |
| Schema.UnitSizeInfoEntries | shared/schema.ts:96-99 | the sizes and prices are 5x5/50, 10x10/100, 10x15/150, 10x20/200 |
| Schema.NewUnit | shared/schema.ts:8-17 | an inserted unit carries the given key and the inserted fields unchanged, and is vacant (`isOccupied` defaults to false and is not insertable) |
| Schema.NewCustomer | shared/schema.ts:19-32 | an inserted customer keeps the supplied fields; absent ones default to account status "enabled", billing status "not_activated", autopay off and creation time `now` |
| Schema.NewBooking | shared/schema.ts:61-71 | an inserted booking carries the given key and every inserted field unchanged |
| Schema.NewNotificationTemplate | shared/schema.ts:123-134 | a new template keeps its inserted fields, is active, and is stamped `now` on creation and update |
| Schema.NewPayment | shared/schema.ts:52-59 | an inserted payment carries the given key and every inserted field unchanged, and is stamped `now` |
| Schema.NewStorageManagerData | shared/schema.ts:226-249 | the key is the supplied one or the next autoincrement value; the required columns are kept; each optional count is the supplied value or 0, each optional amount the supplied value or "0", and both timestamps the supplied value or `now` |
| Schema.StorageManagerDataRoundTrip | shared/schema.ts:226-249 | inserting a row with every column supplied gives that row back |
| Schema.StorageManagerDataDefaults | shared/schema.ts:236-248 | inserting with no optional count or amount gives every count 0 and every amount "0" |
| Schema.UnitWithId | server/storage.ts:30 | the lookup finds nothing iff no unit has the id, and otherwise the first unit of the table with that id |
| Schema.BookingWithId | server/storage.ts:74-78 | the lookup finds nothing iff no booking has the id, and otherwise the first booking of the table with that id |
| Schema.CustomerWithId | server/storage.ts:50 | the lookup finds nothing iff no customer has the id, and otherwise the first customer of the table with that id |
| Storage.ReleasesUnit | server/storage.ts:81 | a booking status frees its unit iff it is "completed" or "cancelled"; "active" never does |
| Storage.WithOccupancy | server/storage.ts:40-44 | the update keeps the table's length and changes only the occupancy flag of rows with the id |
| Storage.WithStatus | server/storage.ts:74-78 | the update keeps the table's length and changes only the status of rows with the id |
| Storage.LookupAfterOccupancy | server/storage.ts:39-47 | after setting one unit's occupancy, a lookup of that id finds the same unit with the new flag, and a lookup of any other id finds what it found before |
| Storage.LookupAfterStatus | server/storage.ts:73-79 | after setting one booking's status, a lookup of that id finds the same booking with the new status, and a lookup of any other id finds what it found before |
| Storage.KeysValidAppend | shared/schema.ts:9 | appending a row under the next autoincrement value keeps keys positive, below the counter and distinct |
| Storage.DatabaseStorage.constructor | server/storage.ts:88 | the storage starts with empty tables and valid keys |
| Storage.DatabaseStorage.GetUnits | server/storage.ts:25-27 | returns the whole unit table |
| Storage.DatabaseStorage.GetUnit | server/storage.ts:29-32 | returns nothing iff no unit has the id, and otherwise a unit with that id |
| Storage.DatabaseStorage.CreateUnit | server/storage.ts:34-37 | appends exactly one vacant unit under a fresh key, returns it, and leaves every other row and table unchanged |
| Storage.DatabaseStorage.UpdateUnitStatus | server/storage.ts:39-47 | a missing id fails with "Unit not found" and changes nothing; otherwise only that unit's occupancy changes and the updated unit is returned |
| Storage.DatabaseStorage.GetCustomer | server/storage.ts:49-52 | returns nothing iff no customer has the id, and otherwise a customer with that id |
| Storage.DatabaseStorage.CreateCustomer | server/storage.ts:54-57 | appends exactly one customer with the schema defaults under a fresh key and leaves the other tables unchanged |
| Storage.DatabaseStorage.GetCustomers | server/storage.ts:59-61 | returns the whole customer table |
| Storage.DatabaseStorage.GetBookings | server/storage.ts:63-65 | returns the whole booking table |
| Storage.DatabaseStorage.CreateBooking | server/storage.ts:67-71 | always appends the booking; when its unit exists exactly that unit becomes occupied and the booking is returned, otherwise it fails with "Unit not found" and the units are unchanged |
| Storage.DatabaseStorage.UpdateBookingStatus | server/storage.ts:73-85 | a missing booking fails with "Booking not found" and changes nothing; otherwise the status is set, a completed or cancelled booking vacates its unit (failing with "Unit not found" when the unit is gone), and any other status leaves every unit unchanged |
| Routes.ValidateStatus | server/routes.ts:97-103 | a status is accepted iff it is one of the allowed values; anything else is the 400 "Invalid status" reply |
| Routes.LeadStatusAccepted | server/routes.ts:136 | the lead-status PATCH accepts exactly new, contacted, qualified, converted and lost |
| Routes.PaymentStatusAccepted | server/routes.ts:209 | the payment-status PATCH accepts exactly pending, completed, failed and refunded |
| Routes.GetUnitsRoute | server/routes.ts:37-40 | answers 200 with the unit table |
| Routes.GetUnitRoute | server/routes.ts:42-46 | answers 404 "Unit not found" iff no unit has the id, and otherwise 200 with that unit |
| Routes.PostUnitRoute | server/routes.ts:48-55 | an invalid body is answered 400 with no change; a valid one appends one vacant unit, advances the unit counter by one, leaves every other table and counter unchanged and answers 201 with the unit |
| Routes.PostCustomerRoute | server/routes.ts:58-65 | an invalid body is answered 400 with no change; a valid one appends one customer, advances the customer counter by one, leaves every other table and counter unchanged and answers 201 with the customer |
| Routes.GetCustomersRoute | server/routes.ts:67-70 | answers 200 with the customer table |
| Routes.GetBookingsRoute | server/routes.ts:73-76 | answers 200 with the booking table |
| Routes.PostBookingRoute | server/routes.ts:78-94 | an invalid body gives 400, a missing unit 404 and an occupied unit 400, each with no state change; the reply is 201 iff the unit exists and is vacant, and then the booking is appended, the booking counter advances by one, exactly that unit becomes occupied and the customers and other counters are unchanged |
| Routes.PatchBookingStatusRoute | server/routes.ts:96-111 | a status outside active/completed/cancelled gives 400 and a missing booking 404, both with no change; otherwise only the booking's status is set (all other tables and counters unchanged), completed or cancelled vacates the unit, and a vanished unit is answered 404 "Booking not found" although the status has changed |
| Routes.CancelThenReactivate | server/routes.ts:96-111 | cancelling a booking and setting it back to active both answer 200, and the booking ends active while its unit stays vacant |
| Routes.SeedUnits | server/routes.ts:15-30 | on an empty unit table it creates one vacant unit per size entry, in order, with that entry's type, size and price and a location from the draws; the unit counter advances by the number of entries and nothing else changes; on a non-empty table it changes nothing |
| Routes.SeedLocation | server/routes.ts:20-26 | the location reads "Floor f, Block b" with f the digit of the floor draw plus one (1 to 3) and b the letter of the block draw (A to D) |
| Routes.SeedInsert | server/routes.ts:22-27 | the seeded insert record carries the entry's type, size and price and the drawn location, with no pricing group and no customer |
| Routes.SeedUnitsTwice | server/routes.ts:16-17 | seeding twice leaves exactly the units the first seeding created |
| Numerals.Numeral | server/routes.ts:26 | the printed floor number is a non-empty run of digits without a leading zero |
| Numerals.DigitsValue | client/src/pages/manager/walkthrough.tsx:45 | `parseInt` of a run of k digits is below 10^k, and 0 for a run of zeros |
| Numerals.LeadingZero | client/src/pages/manager/walkthrough.tsx:45 | a leading zero does not change the value `parseInt` reads |
| Numerals.NumeralRoundTrip | client/src/pages/manager/walkthrough.tsx:45 | reading a printed number back as digits gives the number |
| Seqs.Find | client/src/pages/manager/walkthrough.tsx:75-77 | `find` returns nothing iff no element matches, and otherwise the first match |
| Seqs.Filter | client/src/pages/manager/home.tsx:18 | `filter` keeps exactly the matching elements and is no longer than its input |
| Seqs.SortBy | client/src/pages/manager/walkthrough.tsx:44-48 | `sort` with a numeric comparator returns a permutation ordered by the key |
| Seqs.SortByStable | client/src/pages/manager/walkthrough.tsx:44-48 | elements with equal keys keep their relative order |
| Home.RevenueFold | client/src/pages/manager/home.tsx:20-22 | the `reduce` returns its start value when no unit is occupied, and never less than it when no price is negative |
| Home.RevenueIsOccupiedPrices | client/src/pages/manager/home.tsx:20-22 | the `reduce` over units adds exactly the prices of occupied units to its start value |
| Home.OccupiedPlusVacant | client/src/pages/manager/home.tsx:18 | occupied and vacant units together are all units |
| Home.HomeStats | client/src/pages/manager/home.tsx:16-23 | total units is the list length (0 when absent), occupied units count the occupied ones and never exceed the total, active bookings count the status "active", and revenue is the sum of occupied prices, 0 when nothing is occupied |
| Home.RoundedPercent | client/src/pages/manager/home.tsx:62 | the rounded percentage is at most 100 and within half a point of 100 * occupied / total |
| Home.OccupancyRate | client/src/pages/manager/home.tsx:61-62 | the rate is 0 without units, otherwise the rounded percentage, and at most 100 |
| Home.OccupancyRateExtremes | client/src/pages/manager/home.tsx:61-62 | no occupied unit gives 0% and all units occupied gives 100% |
| Home.AvailableUnits | client/src/pages/manager/home.tsx:74 | available plus occupied units is the total, so availability is never negative |
| Home.AvailableIsVacantCount | client/src/pages/dashboard.tsx:34 | the home page's available count equals the number of vacant units |
| Dashboard.DashboardStatsOf | client/src/pages/manager/dashboard.tsx:15-19 | the three counts agree with the home page's, occupied never exceeds total, and an absent list counts 0 |
| Collections.OverduePayments | client/src/pages/manager/collections.tsx:31-34 | a payment is listed iff it is pending and created before now, in the server's order |
| Collections.OverduePaymentsMultiplicity | client/src/pages/manager/collections.tsx:31-34 | each overdue payment is listed exactly as often as the server listed it, and no other payment is |
| Collections.CustomerOf | client/src/pages/manager/collections.tsx:37-38 | the customer is absent when no booking has the payment's booking id; otherwise it is the customer lookup of the first such booking's customer id, and a customer found belongs to the table and to a booking of the payment |
| Collections.DaysOverdue | client/src/pages/manager/collections.tsx:42-45 | the count is the floor of the elapsed days, non-negative for a payment created before now |
| Collections.Entries | client/src/pages/manager/collections.tsx:36-46 | one entry per payment, in the same order |
| Collections.EntriesGood | client/src/pages/manager/collections.tsx:36-46 | every entry's payment is overdue, its customer is the looked-up one and its day count is the non-negative floor |
| Collections.OverdueCustomers | client/src/pages/manager/collections.tsx:36-47 | exactly one entry per overdue payment, each well formed, ordered by days overdue from most to least |
| Collections.OverdueCustomersStable | client/src/pages/manager/collections.tsx:47 | entries equally overdue keep the order of their payments |
| Collections.Badge | client/src/pages/manager/collections.tsx:86 | the badge is destructive iff the payment is more than 30 days overdue |
| Walkthrough.DaysLate | client/src/pages/manager/walkthrough.tsx:35-41 | an unparseable date gives 0; otherwise the count is positive iff today is past the bill date, and is then the ceiling of the elapsed days |
| Walkthrough.DigitRunEnd | client/src/pages/manager/walkthrough.tsx:45 | the run of digits from a position ends at the first non-digit |
| Walkthrough.FirstDigitRun | client/src/pages/manager/walkthrough.tsx:45 | the match of `/\d+/` is empty iff the location has no digit, and otherwise the first maximal run of digits: no digit before it, and it ends at the end of the location or before a non-digit |
| Walkthrough.SortKey | client/src/pages/manager/walkthrough.tsx:45-46 | the key is the value of the first run of digits, and 0 when the location has no digit |
| Walkthrough.SortKeyOfRun | client/src/pages/manager/walkthrough.tsx:45-46 | for any digit-free prefix, any non-empty run of digits (leading zeros included) and a rest not starting with a digit, the match is that run and the key is its value |
| Walkthrough.SortKeyOfNumeral | client/src/pages/manager/walkthrough.tsx:45-46 | a location with a printed number after a digit-free prefix sorts by that number |
| Walkthrough.SortKeyLeadingZeros | client/src/pages/manager/walkthrough.tsx:45-46 | `parseInt` ignores leading zeros: "Unit 007" sorts as 7 |
| SeedOrder.SeededLocationKey | server/routes.ts:20-26 | a seeded unit's sort key on the walkthrough page is its floor number |
| Walkthrough.SortedUnits | client/src/pages/manager/walkthrough.tsx:44-48 | the sorted units are a permutation of the fetched units (none when absent), non-decreasing by key |
| Walkthrough.SortedUnitsStable | client/src/pages/manager/walkthrough.tsx:44-48 | units with equal keys keep the server's order |
| Walkthrough.ActiveBookingFor | client/src/pages/manager/walkthrough.tsx:75-77 | the booking shown is the first active booking of the unit, and none iff the unit has no active booking |
| Walkthrough.TenantOf | client/src/pages/manager/walkthrough.tsx:78-80 | without a booking there is no tenant; with one, the tenant is absent iff no customer has the booking's customer id, and otherwise is the first customer with it |
| Walkthrough.TenantName | client/src/pages/manager/walkthrough.tsx:97 | the cell shows the tenant's name when there is a tenant with a non-empty name, and "N/A" otherwise |
| Walkthrough.RowFor | client/src/pages/manager/walkthrough.tsx:74-127 | the row shows the unit's location and size, "Occupied" or "Vacant", the tenant of the unit's first active booking, "Secured" or "No Lock" by occupancy, and a late badge exactly when that booking is a positive number of days late (the bill is current without an active booking) |
| Walkthrough.Rows | client/src/pages/manager/walkthrough.tsx:74-129 | one row per unit, in sorted order |
| Notifications.FilterTemplates | client/src/pages/manager/notifications.tsx:34-38 | a template is listed iff the type menu is "all" or its type and the trigger menu is "all" or its trigger; nothing is listed while templates are absent |
| Notifications.FilterAllAll | client/src/pages/manager/notifications.tsx:35-36 | with both menus on "all" the list is the input |
| Notifications.FilterKeepsOrder | client/src/pages/manager/notifications.tsx:34-38 | the list is an order-preserving subsequence keeping each matching template as often as it occurs |
| Notifications.FilterIdempotent | client/src/pages/manager/notifications.tsx:34-38 | filtering the filtered list again changes nothing |
| Notifications.FiltersCommute | client/src/pages/manager/notifications.tsx:34-37 | applying the type menu and the trigger menu one at a time, in either order, gives the combined filter |
| Notifications.FilterComposesTriggerFirst | client/src/pages/manager/notifications.tsx:34-37 | the trigger-menu filter followed by the type-menu filter is the combined filter |
| Notifications.FilterComposes | client/src/pages/manager/notifications.tsx:34-37 | the combined predicate is the two menu predicates applied one after the other |
| Notifications.TriggerLabel | client/src/pages/manager/notifications.tsx:40-46 | exactly the five known triggers have a non-empty label; every other trigger has none (inherited object properties aside) |
| Notifications.TriggerMenuAgreesWithLabels | client/src/pages/manager/notifications.tsx:82-87 | each trigger menu entry shows its trigger's label, and the menu lists exactly the labelled triggers |
| Notifications.TypeLabel | client/src/pages/manager/notifications.tsx:114 | "Email" iff the type is email, "SMS" otherwise |
| Notifications.ActiveLabel | client/src/pages/manager/notifications.tsx:122 | "Active" iff the template is active, "Inactive" otherwise |
| Messaging.Without | client/src/pages/manager/messaging.tsx:142 | unchecking removes every occurrence of the id and keeps only other selected ids |
| Messaging.WithoutKeepsOthers | client/src/pages/manager/messaging.tsx:142 | the other ids stay in order and as often as they were selected |
| Messaging.WithoutAbsent | client/src/pages/manager/messaging.tsx:142 | unchecking an unselected id changes nothing |
| Messaging.CheckThenUncheck | client/src/pages/manager/messaging.tsx:139-143 | checking a tenant and unchecking it again restores the selection |
| Messaging.MessagingPage.constructor | client/src/pages/manager/messaging.tsx:22-23 | the page starts with an empty message and no selection |
| Messaging.MessagingPage.IsChecked | client/src/pages/manager/messaging.tsx:137 | a tenant's box is ticked iff its id occurs in the selection |
| Messaging.MessagingPage.SendAllDisabled | client/src/pages/manager/messaging.tsx:105 | "Send to All Tenants" is disabled iff the message is empty |
| Messaging.MessagingPage.SendSelectedDisabled | client/src/pages/manager/messaging.tsx:164 | "Send to Selected Tenants" is disabled iff the message is empty or no tenant's box is ticked |
| Messaging.MessagingPage.SetMessage | client/src/pages/manager/messaging.tsx:99 | typing replaces the message and keeps the selection; "Send to All" is disabled iff the text is empty |
| Messaging.MessagingPage.OnCheckedChange | client/src/pages/manager/messaging.tsx:138-144 | checking appends the id, unchecking removes all of its copies; the box then shows the new value and every other box keeps its state |
| Messaging.MessagingPage.HandleMassMessage | client/src/pages/manager/messaging.tsx:29-51 | sends the current message; success clears it, failure leaves it; the selection is untouched |
| Messaging.MessagingPage.HandleSelectMessage | client/src/pages/manager/messaging.tsx:53-79 | sends the message with the selected ids; success clears both (disabling the button), failure leaves both unchanged |
| Settings.RangeIssues | client/src/pages/manager/settings.tsx:24 | a number has no issue iff it lies within its bounds, and otherwise exactly the one bound it breaks |
| Settings.SecurityIssues | client/src/pages/manager/settings.tsx:22-26 | there is an issue for the session timeout iff it lies outside 5..1440, and for password expiration iff it lies outside 30..365; a value under its minimum yields that field's TooSmall issue with the minimum, one over its maximum that field's TooBig issue with the maximum |
| Settings.ValidateSecurity | client/src/pages/manager/settings.tsx:22-26 | the settings are accepted unchanged iff both numbers lie within their bounds, and are otherwise rejected with exactly the schema's issues, at least one |
| Settings.SecurityDefaults | client/src/pages/manager/settings.tsx:40-44 | the defaults are two-factor off, a 30-minute session timeout and 90-day password expiration, and pass the security schema |
| Settings.BoolIssues | client/src/pages/manager/settings.tsx:29 | a `z.boolean()` field has no issue iff it holds a boolean, and otherwise exactly one |
| Settings.NotificationIssues | client/src/pages/manager/settings.tsx:28-33 | each of the four switches has a "not a boolean" issue iff it does not hold a boolean, and there is no other kind of issue |
| Settings.ValidateNotifications | client/src/pages/manager/settings.tsx:28-33 | the form is accepted iff all four fields hold booleans, and then yields exactly those values; otherwise it is rejected with the non-boolean fields |
| Settings.NotificationRoundTrip | client/src/pages/manager/settings.tsx:28-33 | any settings put into the form are accepted back unchanged |
| Settings.NotificationDefaults | client/src/pages/manager/settings.tsx:49-54 | the defaults are email on, SMS off, payment reminders on and maintenance alerts on, and the form holding them is accepted as exactly those values |

## Left out

- server/database.py is not part of this model: it is a connect-and-query script with nothing to verify beyond call order.
- server/db.ts (the connection pool) and the drizzle query builder are replaced by the in-memory tables; `.returning()` is read as returning the rows just written.
- The units table declares its key as `unit_id`, while server/storage.ts looks units up by `units.id`; the model gives a unit a single key `id` used by both.
- Storage methods for leads, pricing groups and payments, which server/routes.ts calls but server/storage.ts does not define, are not modelled; of those routes only the status enums of the two PATCH routes are.
- `Number(req.params.id)` that is not a number (`NaN`) is not modelled: route ids are integers.
- Concurrency: two requests interleaving between a handler's lookup and its write (for example two bookings of the same vacant unit) are not modelled; each handler runs atomically.
- Network sends in messaging.tsx are the `sendOk` parameter; toasts are not modelled.
- Randomness in the seeding is the `draws` parameter; the clock and date parsing are parameters; `toLocaleDateString` in the walkthrough's notes column is not modelled, so neither is that column.
- Floating point: all divisions are modelled exactly on integers, so rounding differences of IEEE doubles are not captured.
- Home.RoundedPercent: where 100 * o / t is exactly a half, the page's `(o / t) * 100` in doubles can fall just below it (23 of 40 gives 57.49999999999999), so the page shows one point less than the model's exact round-half-up (57% against 58%; likewise 29 of 200 shows 14% against 15%).
- Notifications.TriggerLabel: `triggerLabels` is a plain object, so a trigger named after an inherited property (`constructor`, `toString`, `__proto__`) reads an inherited value rather than nothing; the model treats every trigger other than the five keys as unlabelled.
- `parseInt` of a digit run too long for a double's exact range is read as the exact integer.
- Non-numeric and fractional input to the settings fields (`Number(e.target.value)`) is not modelled: the fields are integers.
- The tenant checkbox's `checked` prop is `selectedTenants.includes(tenant.id)` (client/src/pages/manager/messaging.tsx:137), always a boolean, so its "indeterminate" state never arises; `OnCheckedChange` takes a `bool`.
- Rendering, icons, layout and the other pages and components (gate, locks, leads, payments, pricing, dialogs, the booking page and client/src/lib/api.ts) are not modelled.
- Storage.DatabaseStorage.UpdateBookingStatus: re-activating a cancelled or completed booking does not occupy its unit again; this is the source's behaviour, shown by Routes.CancelThenReactivate, and no invariant tying active bookings to occupied units is claimed.
