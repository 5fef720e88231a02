# Salon booking API: the booking table and its rules

This project models the core of a salon/barber-shop booking back end in Dafny.
The core is a collection of `Booking` documents and the rules for changing it.
A create request is refused when its (date, time, stylist) slot is already held
by a booking that is not cancelled; the stylist `"any"` matches every stylist.
The availability query lists the occupied slots of one day. There are also
listing, lookup, patching, cancelling and deleting operations.

The model follows the three core files of the repository:

- `booking_model.dfy` (module `BookingModel`) models `models/booking.js`.
  The schema becomes a conformance predicate: required strings are non-empty and
  the status is `confirmed`, `pending` or `cancelled`. `NewDocument` builds a new
  document and applies the schema's defaults. `GenerateBookingId` builds the
  `BK…` identifier. The class `Store` is the Mongoose model: a sequence of stored
  documents in insertion order, with `Save`, `FindById`, `FindByIdAndUpdate` and
  `FindByIdAndDelete`. The store enforces the unique index on `bookingId`, assigns
  `_id`s and keeps the `createdAt`/`updatedAt` timestamps.
- `booking_queries.dfy` (module `BookingQueries`) holds the filters the handlers
  send to the store. These are the conflict `findOne`, the availability
  `find(...).select('time stylist')`, the `YYYY-MM-DD` shape check and the
  newest-first sort.
- `bookings_routes.dfy` (module `BookingsRoutes`) models `routes/bookings.js`,
  the router that `server.js` mounts. Its handlers are methods that act on a `Store`.
- `legacy_booking_routes.dfy` (module `LegacyBookingRoutes`) models
  `routes/booking.js`. This older router is not mounted. It also imports
  `'../models/Booking'` with a capital B, while the file is `models/booking.js`.
  It is modelled as a second variant so that the two conflict rules can be compared.
  Its list handler (`routes/booking.js:6-13`) does the same find-and-sort as the
  live one, so `BookingsRoutes.ListBookings` models both.

Each handler returns a `Result` of its reply or a `Failure`. The failures are
`Invalid(fields)`, `DuplicateKey`, `NotFound`, `Conflict` and `BadDate`.
The clock (`Date.now()`), the random source (`Math.floor(Math.random() * 1000)`)
and the connection state (`readyState === 1`) are parameters: `now`, `rand < 1000`
and `connected`.

Every state-changing method's contract ties the new collection to a pure
function of the old one: `CreateOutcome`/`AfterCreate`, `UpdateOutcome`/`AfterUpdate`
or `Remove`. The lemmas state the properties of those functions.

Four behaviours of the code are worth stating plainly:

- The stylist `"any"` is a one-sided wildcard (`routes/bookings.js:62`). A create
  for `"any"` is refused by any live booking in the slot, whatever its stylist.
  A create for a specific stylist is not refused by a live `"any"` booking.
- The availability handler checks the date's `YYYY-MM-DD` shape only when the
  database is connected (`routes/bookings.js:110-132`). When it is not, any date
  gets an empty success.
- A validation failure names every failing path, not just the first one, so
  `Invalid` carries the set of failing fields.
- The slot invariant (no two non-cancelled bookings share date, time and
  stylist, `NoDoubleBooking`) is kept by both creates, by the cancel and by the
  hard delete. Neither PUT checks for conflicts, and both accept `confirmed` for
  a cancelled booking, so a PUT can break the invariant
  (`routes/bookings.js:194-198`, `routes/booking.js:79-83`).

## Model

| member | source | states |
|---|---|---|
| `BookingModel.NewDocument` | models/booking.js:3-60 | the new document satisfies the schema exactly when no required field is absent or empty; every supplied date, time, service, stylist, customer name, phone, email and whatsapp is stored as given; status defaults to confirmed, notes and an omitted email/whatsapp to '', price to 0; it carries the generated bookingId and createdAt = updatedAt = the store's clock |
| `BookingModel.Decimal` | models/booking.js:47 | a non-negative integer's string form is a non-empty string of decimal digits with no leading zero |
| `BookingModel.DecimalRoundTrip` | models/booking.js:47 | reading the decimal string back gives the number |
| `BookingModel.GenerateBookingId` | models/booking.js:46-48 | a generated bookingId starts with "BK" and the rest, at least two characters, is all digits |
| `BookingModel.BookingIdValue` | models/booking.js:47 | the digits after "BK" denote now * 10^k + rand, where k is the number of digits of rand (no zero padding) |
| `BookingModel.GeneratedIdsCanCollide` | models/booking.js:45-48 | different (clock, random) pairs (12, 34) and (123, 4) generate the same bookingId, so uniqueness rests on the unique index |
| `BookingModel.SaveOutcome` | models/booking.js:3-60 | save succeeds exactly when no required field is missing and the generated bookingId is not stored yet; the saved document is the defaulted one and satisfies the schema; missing required fields give `Invalid` with exactly those fields, and otherwise a taken bookingId gives a duplicate-key failure |
| `BookingModel.SaveKeepsInvariant` | models/booking.js:43-60 | appending a saved document keeps distinct `_id`s and distinct bookingIds, and the new document is found by its `_id` |
| `BookingModel.IndexOf` | routes/bookings.js:168 | the position found holds a document with that `_id`; no position is found exactly when no document has it |
| `BookingModel.LookupFinds` | routes/bookings.js:168 | with distinct `_id`s, looking up a stored document's `_id` returns that document |
| `BookingModel.Put` | routes/bookings.js:194-198 | replacing by `_id` keeps the length, puts the new document where its `_id` was and leaves every other document as it was |
| `BookingModel.Remove` | routes/booking.js:111 | deleting by `_id` keeps every other document and no document with that `_id` |
| `BookingModel.StatusUpdateEffect` | routes/booking.js:79-83 | the update `{ status }` changes the status and updatedAt and nothing else |
| `BookingModel.UpdateOutcomeMeaning` | routes/bookings.js:194-205 | a successful update returns the stored document with that `_id` with the update applied; with validators it keeps the schema; with validators, an update that fails validation is refused with `Invalid` and its failing fields before any lookup; a valid update of an unknown `_id` is not found; a valid update of a stored `_id` succeeds with that document updated, unless it sets a bookingId another document holds, which the unique index refuses as a duplicate key |
| `BookingModel.UpdateKeepsInvariant` | models/booking.js:43-45 | an update keeps distinct `_id`s and the unique index on bookingId |
| `BookingModel.RemoveKeepsInvariant` | routes/booking.js:111 | a delete keeps distinct `_id`s and distinct bookingIds |
| `BookingModel.RemoveAbsent` | routes/booking.js:111 | deleting an `_id` that no document has leaves the collection unchanged |
| `BookingModel.RemoveDropsOne` | routes/booking.js:111 | with distinct `_id`s, deleting a stored `_id` removes exactly one document |
| `BookingModel.Store.Save` | routes/bookings.js:74-82 | insert: the reply is the save outcome; on success exactly one document is appended and the next `_id` advances by one, otherwise the store is unchanged |
| `BookingModel.Store.FindById` | routes/bookings.js:168 | returns a stored document with the `_id` exactly when one exists |
| `BookingModel.Store.FindByIdAndUpdate` | routes/bookings.js:194-198 | the reply is the update outcome; the store changes only by replacing that document on success |
| `BookingModel.Store.FindByIdAndDelete` | routes/booking.js:111 | returns the stored document and removes it when the `_id` exists; otherwise not found and the store is unchanged |
| `BookingQueries.FindOne` | routes/bookings.js:59-64 | the document found is stored and selected by the query; nothing is found exactly when no stored document is selected |
| `BookingQueries.AppendKeepsSlots` | routes/bookings.js:59-82 | storing a document after a query that selects its slot found nothing keeps every (date, time, stylist) held by at most one live document |
| `BookingQueries.BookedSlots` | routes/bookings.js:136-139 | the availability answer is never longer than the collection |
| `BookingQueries.BookedSlotsExact` | routes/bookings.js:136-139 | a (_id, time, stylist) entry is in the answer exactly when a non-cancelled document on that date projects to it |
| `BookingQueries.BookedSlotsDistinct` | routes/bookings.js:136-139 | with distinct `_id`s, no document is listed twice in the availability answer: with BookedSlotsExact, each non-cancelled document on that date is listed exactly once |
| `BookingQueries.DateShapeFields` | routes/bookings.js:125 | the date check accepts exactly 4 digits, '-', 2 digits, '-', 2 digits |
| `BookingQueries.DateShapeExamples` | routes/bookings.js:125 | "2024-13-40" passes the check, "06/01/2024" and "" fail it |
| `BookingQueries.InsertByAgeOrder` | routes/bookings.js:9 | inserting one document into a newest-first list keeps it newest first |
| `BookingQueries.NewestFirst` | routes/bookings.js:9 | the sorted list is a permutation of the collection and its createdAt never increases |
| `BookingsRoutes.ListBookings` | routes/bookings.js:7-14 | the list holds the same documents as the store (as a multiset), newest first, with count equal to its length |
| `BookingsRoutes.CreateBooking` | routes/bookings.js:25-98 | POST replies as CreateOutcome (mock when disconnected, conflict, or the save outcome); the store gains exactly the saved document, and the next `_id` advances only then |
| `BookingsRoutes.CheckAvailability` | routes/bookings.js:101-149 | disconnected: empty success whatever the date; connected: a malformed date is refused; otherwise the answer is the projection of the non-cancelled documents on that date, each listed exactly once (distinct `_id`s), with count equal to the length of the list |
| `BookingsRoutes.GetBooking` | routes/bookings.js:166-180 | returns a stored document with that `_id` exactly when one exists; otherwise not found |
| `BookingsRoutes.UpdateBooking` | routes/bookings.js:192-211 | PUT applies the body with validators; the reply and the new store are UpdateOutcome and AfterUpdate of the old store |
| `BookingsRoutes.CancelBooking` | routes/bookings.js:223-242 | DELETE applies `{ status: 'cancelled' }` without validators; the reply and the new store follow from the old store |
| `BookingsRoutes.CreateConflictSpecific` | routes/bookings.js:59-71 | a create for a specific stylist is refused as a conflict exactly when a non-cancelled document has the same date, time and stylist |
| `BookingsRoutes.CreateConflictAny` | routes/bookings.js:62 | a create for "any" is refused exactly when some non-cancelled document has the same date and time, whatever its stylist |
| `BookingsRoutes.SpecificNotBlockedByAny` | routes/bookings.js:62 | a create for a specific stylist is not refused when the only live bookings in the slot are "any" bookings |
| `BookingsRoutes.CreateWithoutConflictSaves` | routes/bookings.js:73-82 | with no conflict, complete fields and a fresh bookingId, the create stores exactly one new document, the defaulted one |
| `BookingsRoutes.CreateRefusalKeepsStore` | routes/bookings.js:33-71 | a refused or mock create leaves the store unchanged; a disconnected create replies with a confirmed mock; any change adds exactly one document |
| `BookingsRoutes.CancelChangesOnlyStatus` | routes/bookings.js:225-236 | cancel succeeds exactly when the `_id` exists; it sets that document's status to cancelled and updatedAt to now and leaves every other field and document unchanged; an unknown `_id` is not found and changes nothing |
| `BookingsRoutes.CancelIdempotent` | routes/bookings.js:225-229 | cancelling twice at the same clock value gives the same store as once, and both succeed or both are not found |
| `BookingsRoutes.CancelFreesSlot` | routes/bookings.js:63 | after the only live document that a create would collide with is cancelled, that create is no longer refused as a conflict |
| `BookingsRoutes.CreateKeepsSlots` | routes/bookings.js:59-82 | if no two live documents share date, time and stylist before POST, none do after it |
| `BookingsRoutes.CancelKeepsSlots` | routes/bookings.js:225-229 | DELETE keeps the rule that no two live documents share date, time and stylist |
| `BookingsRoutes.PutCanDoubleBook` | routes/bookings.js:194-198 | PUT has no conflict check: setting a cancelled document in a held slot back to confirmed succeeds and leaves two live documents in one slot |
| `BookingsRoutes.LiveRoutesKeepSchema` | routes/bookings.js:25-229 | from documents that satisfy the schema, create, validated update and cancel store only documents that satisfy it |
| `BookingsRoutes.ExampleScenario` | routes/bookings.js:59-229 | on an empty store: create succeeds (confirmed, BK identifier), the identical create is a conflict, cancel, and the identical create succeeds |
| `LegacyBookingRoutes.CreateBooking` | routes/booking.js:16-49 | POST replies as the legacy CreateOutcome (conflict or the save outcome); the store gains exactly the saved document and is otherwise unchanged, and the next `_id` advances only on success |
| `LegacyBookingRoutes.CheckAvailability` | routes/booking.js:52-71 | with no date check, the answer is the projection of the non-cancelled documents on that date, each listed once (distinct `_id`s) |
| `LegacyBookingRoutes.UpdateStatus` | routes/booking.js:74-104 | PUT applies `{ status }` without validators; the reply and the new store follow from the old store |
| `LegacyBookingRoutes.DeleteBooking` | routes/booking.js:107-131 | DELETE removes the document when the `_id` exists, after which it cannot be looked up; otherwise not found and the store is unchanged |
| `LegacyBookingRoutes.CreateConflictExact` | routes/booking.js:21-33 | a create is refused as a conflict exactly when a non-cancelled document has the same date, time and identical stylist string, "any" included |
| `LegacyBookingRoutes.CreateKeepsSlots` | routes/booking.js:21-36 | if no two live documents share date, time and stylist before POST, none do after it |
| `LegacyBookingRoutes.ConflictRulesCompared` | routes/booking.js:21-26 | the legacy and live conflict rules agree for every stylist but "any"; a legacy conflict is always a live conflict |
| `LegacyBookingRoutes.AnyDiffersBetweenRouters` | routes/booking.js:24 | a live booking for "Alex" blocks a live-router create for "any" but not a legacy one |
| `LegacyBookingRoutes.UpdateStatusChangesOnlyStatus` | routes/booking.js:77-90 | PUT sets only that document's status and updatedAt and keeps every other document; it fails only with not found, for an unknown `_id` |
| `LegacyBookingRoutes.UpdateStatusCanBreakEnum` | routes/booking.js:79-83 | with no validators, PUT can store the status "done", so a document that satisfied the schema no longer does |
| `LegacyBookingRoutes.UpdateStatusCanDoubleBook` | routes/booking.js:79-83 | the legacy PUT can also set a cancelled document in a held slot back to confirmed, leaving two live documents in one slot |
| `LegacyBookingRoutes.DeleteThenLookupFails` | routes/booking.js:111-119 | after a delete, the `_id` is not found, and every other `_id` finds what it found before |
| `LegacyBookingRoutes.DeleteKeepsSlots` | routes/booking.js:111 | a hard delete keeps the rule that no two live documents share date, time and stylist |

## Left out

- The race between the conflict `findOne` and `save` (routes/bookings.js:59-82) is left out. A sequential model runs each request to completion, so two concurrent creates cannot interleave.
- HTTP status codes, JSON envelopes, message strings and `console` logging are left out. The mock reply's `note` string is left out too.
- Store failures (a 500 reply) are left out. So is Mongoose's buffering when the database is disconnected, for every handler except the live POST and availability handlers, which check `readyState`.
- `_id`s are modelled as naturals handed out by the store. A malformed id, which Mongoose refuses with a cast error, is not modelled.
- Each request reads the clock once. The source calls `Date.now()` and `new Date()` several times in one request, and those readings may differ by a few milliseconds.
- A create field that is omitted is `None`, and the model's filter then matches no stored document. Mongoose may instead drop an undefined key from the filter. Either way the create is refused (a conflict or a validation error) and the store is unchanged.
- A PUT body that carries a whole `customer` object is left out. It replaces the nested object, and its validation depends on the Mongoose version. The model's update sets customer sub-fields one at a time, as the dotted paths `customer.name` and so on do. Other non-schema keys (`_id`, `createdAt`) are left out as well.
- The legacy PUT with no `status` in its body is left out.
- Type casting of request values (a non-string `date`, a non-numeric `price`) is left out. `price`, a JavaScript Number, is modelled as a `real`.
- `server.js` is left out: CORS, body parsing, connection options and events, `/health`. The secondary indexes (models/booking.js:63-65) are left out too, since they affect only performance.
- `BookingsRoutes.ListBookings`: the order of documents with equal `createdAt` is left open, because the store does not fix it. The contract states only the newest-first order and that the list is a permutation of the store.
- `BookingModel.Remove`: the contract does not state that the remaining documents keep their store order. The body is an order-keeping filter, but only membership, absence of the `_id` and the length (through `RemoveDropsOne`) are stated. The legacy delete is the only user, and no lemma about it depends on order.
