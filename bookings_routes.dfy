/** The handlers of routes/bookings.js, the router mounted at /api/bookings.

    Each handler is a method that acts on a `Store`; its result says which reply the
    handler sends (the HTTP status and JSON envelope are left to the caller).
    The clock, the random source and the connection state are parameters:
    `now` stands for Date.now(), `rand` for Math.floor(Math.random() * 1000)
    and `connected` for `mongoose.connection.readyState === 1`. */
module BookingsRoutes {
  import opened BookingModel
  import opened BookingQueries

  /** The reply POST fabricates when the database is not connected. */
  datatype MockBooking = MockBooking(
    mockId: string,
    input: BookingInput,
    status: string,
    bookingId: string,
    createdAt: nat,
    updatedAt: nat)

  datatype Created = Saved(booking: Booking) | MockSaved(mock: MockBooking)

  function Mock(input: BookingInput, now: nat, rand: nat): MockBooking
    requires rand < 1000
  {
    MockBooking("mock_" + Decimal(now), input, Confirmed, GenerateBookingId(now, rand), now, now)
  }

  /** The conflict query of POST: date, time, not cancelled, and
      `stylist: stylist !== 'any' ? stylist : { $exists: true }`. */
  function ConflictQuery(input: BookingInput): SlotQuery {
    SlotQuery(input.date, input.time, if input.stylist == Some("any") then AnyStylist else Exactly(input.stylist))
  }

  /** The reply of POST /api/bookings on a store holding `records`. */
  function CreateOutcome(records: seq<Booking>, nextId: nat, input: BookingInput, connected: bool, now: nat, rand: nat): Result<Created>
    requires rand < 1000
  {
    if !connected then Ok(MockSaved(Mock(input, now, rand)))
    else if FindOne(records, ConflictQuery(input)).Some? then Err(Conflict)
    else
      match SaveOutcome(records, nextId, input, now, rand)
      case Ok(b) => Ok(Saved(b))
      case Err(e) => Err(e)
  }

  /** The collection after POST replied r: one more document exactly when
      it was saved. */
  function AfterCreate(records: seq<Booking>, r: Result<Created>): seq<Booking> {
    if r.Ok? && r.value.Saved? then records + [r.value.booking] else records
  }

  /** The update DELETE sends: `{ status: 'cancelled' }`, without validators. */
  function CancelOutcome(records: seq<Booking>, id: nat, now: nat): Result<Booking> {
    UpdateOutcome(records, id, StatusUpdate(Cancelled), false, now)
  }

  // ---------------------------------------------------------------------
  // The handlers

  /** GET /api/bookings: every stored document, newest first, with the count. */
  method ListBookings(store: Store) returns (data: seq<Booking>, count: nat)
    ensures multiset(data) == multiset(store.records)
    ensures NewestFirstOrder(data)
    ensures count == |data| == |store.records|
  {
    data := NewestFirst(store.records);
    count := |data|;
    assert |multiset(data)| == |multiset(store.records)|;
  }

  /** POST /api/bookings. */
  method CreateBooking(store: Store, input: BookingInput, connected: bool, now: nat, rand: nat) returns (r: Result<Created>)
    requires store.Valid() && rand < 1000
    modifies store
    ensures store.Valid()
    ensures r == CreateOutcome(old(store.records), old(store.nextId), input, connected, now, rand)
    ensures store.records == AfterCreate(old(store.records), r)
    ensures store.nextId == if r.Ok? && r.value.Saved? then old(store.nextId) + 1 else old(store.nextId)
  {
    if !connected {
      r := Ok(MockSaved(Mock(input, now, rand)));
      return;
    }
    var existing := FindOne(store.records, ConflictQuery(input));
    if existing.Some? {
      r := Err(Conflict);
      return;
    }
    var saved := store.Save(input, now, rand);
    r := if saved.Ok? then Ok(Saved(saved.value)) else Err(saved.error);
  }

  datatype Availability = Availability(date: string, bookedSlots: seq<Slot>, count: nat)

  /** GET /api/bookings/availability/:date. */
  method CheckAvailability(store: Store, date: string, connected: bool) returns (r: Result<Availability>)
    requires store.Valid()
    ensures !connected ==> r == Ok(Availability(date, [], 0))
    ensures connected && !IsDateShape(date) ==> r == Err(BadDate)
    ensures connected && IsDateShape(date) ==> r.Ok? && r.value.date == date
    ensures r.Ok? ==> r.value.count == |r.value.bookedSlots| <= |store.records|
    ensures r.Ok? && connected ==> forall s :: s in r.value.bookedSlots <==>
      exists i :: 0 <= i < |store.records| && IsLive(store.records[i]) && store.records[i].date == date && s == SlotOf(store.records[i])
    ensures r.Ok? && connected ==> r.value.bookedSlots == BookedSlots(store.records, date)
    ensures r.Ok? ==> forall i, j :: 0 <= i < j < |r.value.bookedSlots| ==> r.value.bookedSlots[i].id != r.value.bookedSlots[j].id
  {
    if !connected {
      return Ok(Availability(date, [], 0));
    }
    if !IsDateShape(date) {
      return Err(BadDate);
    }
    var slots := BookedSlots(store.records, date);
    forall s
      ensures s in slots <==>
        exists i :: 0 <= i < |store.records| && IsLive(store.records[i]) && store.records[i].date == date && s == SlotOf(store.records[i])
    {
      BookedSlotsExact(store.records, date, s);
    }
    BookedSlotsDistinct(store.records, date);
    r := Ok(Availability(date, slots, |slots|));
  }

  /** GET /api/bookings/:id. */
  method GetBooking(store: Store, id: nat) returns (r: Result<Booking>)
    requires store.Valid()
    ensures r.Ok? <==> exists i :: 0 <= i < |store.records| && store.records[i].id == id
    ensures r.Ok? ==> r.value in store.records && r.value.id == id
    ensures r.Err? ==> r.error == NotFound
  {
    var found := store.FindById(id);
    r := if found.Some? then Ok(found.value) else Err(NotFound);
  }

  /** PUT /api/bookings/:id: the body as an update, with runValidators. */
  method UpdateBooking(store: Store, id: nat, patch: Update, now: nat) returns (r: Result<Booking>)
    requires store.Valid()
    modifies store
    ensures store.Valid()
    ensures r == UpdateOutcome(old(store.records), id, patch, true, now)
    ensures store.records == AfterUpdate(old(store.records), r)
    ensures store.nextId == old(store.nextId)
  {
    r := store.FindByIdAndUpdate(id, patch, true, now);
  }

  /** DELETE /api/bookings/:id: a soft cancel. */
  method CancelBooking(store: Store, id: nat, now: nat) returns (r: Result<Booking>)
    requires store.Valid()
    modifies store
    ensures store.Valid()
    ensures r == CancelOutcome(old(store.records), id, now)
    ensures store.records == AfterUpdate(old(store.records), r)
    ensures store.nextId == old(store.nextId)
  {
    r := store.FindByIdAndUpdate(id, StatusUpdate(Cancelled), false, now);
  }

  // ---------------------------------------------------------------------
  // Properties of the conflict rule

  /** A create for a specific stylist is refused exactly when a live
      document has the same date, time and stylist. */
  lemma CreateConflictSpecific(records: seq<Booking>, nextId: nat, input: BookingInput, s: string, now: nat, rand: nat)
    requires rand < 1000 && input.stylist == Some(s) && s != "any"
    ensures CreateOutcome(records, nextId, input, true, now, rand) == Err(Conflict) <==>
      exists i :: 0 <= i < |records| && IsLive(records[i]) && input.date == Some(records[i].date)
        && input.time == Some(records[i].time) && records[i].stylist == s
  {
    var q := ConflictQuery(input);
    if exists i :: 0 <= i < |records| && IsLive(records[i]) && input.date == Some(records[i].date)
        && input.time == Some(records[i].time) && records[i].stylist == s {
      var i :| 0 <= i < |records| && IsLive(records[i]) && input.date == Some(records[i].date)
        && input.time == Some(records[i].time) && records[i].stylist == s;
      assert Matches(records[i], q);
    }
  }

  /** A create for "any" is refused whenever some live document occupies
      that date and time, whatever its stylist. */
  lemma CreateConflictAny(records: seq<Booking>, nextId: nat, input: BookingInput, now: nat, rand: nat)
    requires rand < 1000 && input.stylist == Some("any")
    ensures CreateOutcome(records, nextId, input, true, now, rand) == Err(Conflict) <==>
      exists i :: 0 <= i < |records| && IsLive(records[i]) && input.date == Some(records[i].date)
        && input.time == Some(records[i].time)
  {
    var q := ConflictQuery(input);
    if exists i :: 0 <= i < |records| && IsLive(records[i]) && input.date == Some(records[i].date)
        && input.time == Some(records[i].time) {
      var i :| 0 <= i < |records| && IsLive(records[i]) && input.date == Some(records[i].date)
        && input.time == Some(records[i].time);
      assert Matches(records[i], q);
    }
  }

  /** The rule is one-sided: a create for a specific stylist is not refused
      because the slot holds "any" bookings, although a create for "any"
      would be refused by the specific one. */
  lemma SpecificNotBlockedByAny(records: seq<Booking>, nextId: nat, input: BookingInput, s: string, now: nat, rand: nat)
    requires rand < 1000 && input.stylist == Some(s) && s != "any"
    requires forall i :: (0 <= i < |records| && IsLive(records[i]) && input.date == Some(records[i].date)
      && input.time == Some(records[i].time)) ==> records[i].stylist == "any"
    ensures CreateOutcome(records, nextId, input, true, now, rand) != Err(Conflict)
  {
    CreateConflictSpecific(records, nextId, input, s, now, rand);
  }

  /** Without a conflict, a connected create is exactly a save: it stores
      one new document when the schema and the unique index accept it. */
  lemma CreateWithoutConflictSaves(records: seq<Booking>, nextId: nat, input: BookingInput, now: nat, rand: nat)
    requires rand < 1000 && FindOne(records, ConflictQuery(input)).None?
    requires MissingFields(input) == {} && !BookingIdTaken(records, GenerateBookingId(now, rand))
    ensures var r := CreateOutcome(records, nextId, input, true, now, rand);
      r == Ok(Saved(NewDocument(input, nextId, now, rand)))
      && AfterCreate(records, r) == records + [NewDocument(input, nextId, now, rand)]
  {
  }

  /** Every refusal leaves the collection as it was, and a disconnected
      create answers with a confirmed mock booking without touching it. */
  lemma CreateRefusalKeepsStore(records: seq<Booking>, nextId: nat, input: BookingInput, connected: bool, now: nat, rand: nat)
    requires rand < 1000
    ensures var r := CreateOutcome(records, nextId, input, connected, now, rand);
      (r.Err? || r.value.MockSaved?) ==> AfterCreate(records, r) == records
    ensures !connected ==> CreateOutcome(records, nextId, input, connected, now, rand).value.mock.status == Confirmed
    ensures var r := CreateOutcome(records, nextId, input, connected, now, rand);
      AfterCreate(records, r) != records ==> |AfterCreate(records, r)| == |records| + 1
  {
  }

  // ---------------------------------------------------------------------
  // Properties of cancellation

  /** DELETE changes only the status (to cancelled) and `updatedAt` of the
      document with that id and nothing else; an unknown id is not found. */
  lemma CancelChangesOnlyStatus(records: seq<Booking>, id: nat, now: nat)
    requires UniqueIds(records)
    ensures var r := CancelOutcome(records, id, now);
      r.Ok? <==> exists i :: 0 <= i < |records| && records[i].id == id
    ensures var r := CancelOutcome(records, id, now);
      r.Err? ==> r.error == NotFound && AfterUpdate(records, r) == records
    ensures var s := AfterUpdate(records, CancelOutcome(records, id, now));
      |s| == |records|
      && forall j :: 0 <= j < |records| ==>
        s[j] == if records[j].id == id then records[j].(status := Cancelled, updatedAt := now) else records[j]
  {
    var r := CancelOutcome(records, id, now);
    match IndexOf(records, id)
    case None =>
      assert r == Err(NotFound);
    case Some(i) =>
      StatusUpdateEffect(records[i], Cancelled, now);
      var b := records[i].(status := Cancelled, updatedAt := now);
      assert r == Ok(b) && b.id == id;
      var s := Put(records, b);
      forall j | 0 <= j < |records|
        ensures s[j] == if records[j].id == id then records[j].(status := Cancelled, updatedAt := now) else records[j]
      {
        if records[j].id == id {
          assert s[j] == b;
          assert j == i;
        }
      }
  }

  /** Cancelling twice (within the same millisecond) leaves the collection
      as one cancel does, and the second cancel also succeeds. */
  lemma CancelIdempotent(records: seq<Booking>, id: nat, now: nat)
    requires UniqueIds(records)
    ensures var s1 := AfterUpdate(records, CancelOutcome(records, id, now));
      AfterUpdate(s1, CancelOutcome(s1, id, now)) == s1
      && CancelOutcome(s1, id, now).Ok? == CancelOutcome(records, id, now).Ok?
  {
    CancelChangesOnlyStatus(records, id, now);
    var s1 := AfterUpdate(records, CancelOutcome(records, id, now));
    assert UniqueIds(s1) by {
      assert forall j :: 0 <= j < |s1| ==> s1[j].id == records[j].id;
    }
    CancelChangesOnlyStatus(s1, id, now);
    var s2 := AfterUpdate(s1, CancelOutcome(s1, id, now));
    forall j | 0 <= j < |s1| ensures s2[j] == s1[j] {
      assert s1[j].id == records[j].id;
    }
    assert s2 == s1;
  }

  /** A cancelled document never blocks a create: once the only live
      document in the requested slot is cancelled, the identical create is
      no longer refused for a conflict. */
  lemma CancelFreesSlot(records: seq<Booking>, nextId: nat, input: BookingInput, k: nat, now: nat, rand: nat)
    requires rand < 1000 && k < |records|
    requires forall i :: 0 <= i < |records| && Matches(records[i], ConflictQuery(input)) ==> i == k
    requires UniqueIds(records)
    ensures var s := AfterUpdate(records, CancelOutcome(records, records[k].id, now));
      CreateOutcome(s, nextId, input, true, now, rand) != Err(Conflict)
  {
    var id := records[k].id;
    CancelChangesOnlyStatus(records, id, now);
    var s := AfterUpdate(records, CancelOutcome(records, id, now));
    forall j | 0 <= j < |s| ensures !Matches(s[j], ConflictQuery(input)) {
      if records[j].id == id {
        assert s[j].status == Cancelled;
      } else {
        assert j != k;
      }
    }
  }

  // ---------------------------------------------------------------------
  // The slot invariant: no two live documents share date, time and stylist

  /** POST keeps the slot invariant: a saved document's slot is one the
      conflict query selects, and the query found nothing there. */
  lemma CreateKeepsSlots(records: seq<Booking>, nextId: nat, input: BookingInput, connected: bool, now: nat, rand: nat)
    requires rand < 1000 && NoDoubleBooking(records)
    ensures NoDoubleBooking(AfterCreate(records, CreateOutcome(records, nextId, input, connected, now, rand)))
  {
    var r := CreateOutcome(records, nextId, input, connected, now, rand);
    if r.Ok? && r.value.Saved? {
      var b := r.value.booking;
      assert MissingFields(input) == {} && b == NewDocument(input, nextId, now, rand);
      AppendKeepsSlots(records, b, ConflictQuery(input));
    }
  }

  /** DELETE keeps the slot invariant: it only takes a document out of the
      live ones. */
  lemma CancelKeepsSlots(records: seq<Booking>, id: nat, now: nat)
    requires NoDoubleBooking(records)
    ensures NoDoubleBooking(AfterUpdate(records, CancelOutcome(records, id, now)))
  {
    var r := CancelOutcome(records, id, now);
    if r.Ok? {
      var k := IndexOf(records, id).value;
      StatusUpdateEffect(records[k], Cancelled, now);
      var s := Put(records, r.value);
      forall i, j | 0 <= i < j < |s| && IsLive(s[i]) && IsLive(s[j])
        ensures !SameSlot(s[i], s[j])
      {
        assert s[i] == records[i] && s[j] == records[j];
      }
    }
  }

  /** PUT has no conflict check and accepts any valid status, so it can move
      a cancelled document back to confirmed into a slot that is held again:
      two documents in one slot, one confirmed and one cancelled, satisfy the
      invariant before and break it after. */
  lemma PutCanDoubleBook(a: Booking, b: Booking, now: nat)
    requires a.id != b.id && SameSlot(a, b)
    requires a.status == Confirmed && b.status == Cancelled
    ensures NoDoubleBooking([a, b])
    ensures var r := UpdateOutcome([a, b], b.id, StatusUpdate(Confirmed), true, now);
      r.Ok? && !NoDoubleBooking(AfterUpdate([a, b], r))
  {
    var r := UpdateOutcome([a, b], b.id, StatusUpdate(Confirmed), true, now);
    assert IndexOf([a, b], b.id) == Some(1);
    StatusUpdateEffect(b, Confirmed, now);
    var s := AfterUpdate([a, b], r);
    assert s[0] == a && s[1] == b.(status := Confirmed, updatedAt := now);
  }

  // ---------------------------------------------------------------------
  // The schema holds across the live routes

  /** Starting from documents that satisfy the schema, POST, PUT (with its
      validators) and DELETE store only documents that satisfy it. */
  lemma LiveRoutesKeepSchema(records: seq<Booking>, nextId: nat, input: BookingInput, connected: bool, id: nat, patch: Update, now: nat, rand: nat)
    requires rand < 1000 && AllConform(records) && UniqueIds(records)
    ensures AllConform(AfterCreate(records, CreateOutcome(records, nextId, input, connected, now, rand)))
    ensures AllConform(AfterUpdate(records, UpdateOutcome(records, id, patch, true, now)))
    ensures AllConform(AfterUpdate(records, CancelOutcome(records, id, now)))
  {
    var rc := CreateOutcome(records, nextId, input, connected, now, rand);
    if rc.Ok? && rc.value.Saved? {
      AppendKeepsSchema(records, rc.value.booking);
    }
    var ru := UpdateOutcome(records, id, patch, true, now);
    if ru.Ok? {
      UpdateOutcomeMeaning(records, id, patch, true, now);
      PutKeepsSchema(records, ru.value);
    }
    var rd := CancelOutcome(records, id, now);
    if rd.Ok? {
      var i := IndexOf(records, id).value;
      StatusUpdateEffect(records[i], Cancelled, now);
      PutKeepsSchema(records, rd.value);
    }
  }

  lemma AppendKeepsSchema(records: seq<Booking>, b: Booking)
    requires AllConform(records) && Conforms(b)
    ensures AllConform(records + [b])
  {
    forall i | 0 <= i < |records + [b]| ensures Conforms((records + [b])[i]) {
      if i < |records| { assert (records + [b])[i] == records[i]; }
    }
  }

  lemma PutKeepsSchema(records: seq<Booking>, b: Booking)
    requires AllConform(records) && Conforms(b)
    ensures AllConform(Put(records, b))
  {
  }

  // ---------------------------------------------------------------------
  // The worked example: book, book again, cancel, book again

  function ExampleInput(): BookingInput {
    BookingInput(Some("2024-06-01"), Some("10:00"), Some("Haircut"), Some("Alex"),
                 Some(CustomerInput(Some("Sam"), Some("555-0100"), None, None)))
  }

  /** On an empty store: the first create is saved as confirmed with a
      `BK` identifier, the identical second one is refused for the slot,
      and after the first is cancelled the identical third one is saved. */
  lemma ExampleScenario()
    ensures var r1 := CreateOutcome([], 0, ExampleInput(), true, 1000, 7);
      var s1 := AfterCreate([], r1);
      var r2 := CreateOutcome(s1, 1, ExampleInput(), true, 2000, 8);
      var s2 := AfterUpdate(s1, CancelOutcome(s1, 0, 3000));
      var r3 := CreateOutcome(s2, 1, ExampleInput(), true, 4000, 9);
      && r1.Ok? && r1.value.Saved? && r1.value.booking.status == Confirmed
      && r1.value.booking.bookingId[..2] == "BK"
      && r2 == Err(Conflict)
      && s2[0].status == Cancelled
      && r3.Ok? && r3.value.Saved? && |AfterCreate(s2, r3)| == 2
  {
    var input := ExampleInput();
    assert MissingFields(input) == {};
    var b1 := NewDocument(input, 0, 1000, 7);
    var r1 := CreateOutcome([], 0, input, true, 1000, 7);
    assert r1 == Ok(Saved(b1));
    var s1 := AfterCreate([], r1);
    assert s1 == [b1];
    assert Matches(b1, ConflictQuery(input));
    assert CreateOutcome(s1, 1, input, true, 2000, 8) == Err(Conflict);
    CancelChangesOnlyStatus(s1, 0, 3000);
    var s2 := AfterUpdate(s1, CancelOutcome(s1, 0, 3000));
    assert |s2| == 1 && s2[0] == b1.(status := Cancelled, updatedAt := 3000);
    CancelFreesSlot(s1, 1, input, 0, 3000, 9);
    ExampleIdsDiffer();
    assert !BookingIdTaken(s2, GenerateBookingId(4000, 9));
    CreateWithoutConflictSaves(s2, 1, input, 4000, 9);
  }

  lemma ExampleIdsDiffer()
    ensures GenerateBookingId(1000, 7) != GenerateBookingId(4000, 9)
  {
    BookingIdValue(1000, 7);
    BookingIdValue(4000, 9);
  }
}
