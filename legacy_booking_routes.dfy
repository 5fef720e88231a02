/** The handlers of routes/booking.js, an older router that server.js does
    not mount. It differs from routes/bookings.js in four ways: the conflict
    query compares the stylist by plain equality ("any" is an ordinary
    name), there is no connection check and no date check, PUT sets only
    `status` and runs no validators, and DELETE removes the document. Its
    list handler is the same find-and-sort as BookingsRoutes.ListBookings. */
module LegacyBookingRoutes {
  import opened BookingModel
  import opened BookingQueries
  import Live = BookingsRoutes

  /** The conflict query: `{ date, time, stylist, status: { $ne: 'cancelled' } }`. */
  function ConflictQuery(input: BookingInput): SlotQuery {
    SlotQuery(input.date, input.time, Exactly(input.stylist))
  }

  /** The reply of POST on a store holding `records`. */
  function CreateOutcome(records: seq<Booking>, nextId: nat, input: BookingInput, now: nat, rand: nat): Result<Booking>
    requires rand < 1000
  {
    if FindOne(records, ConflictQuery(input)).Some? then Err(Conflict)
    else SaveOutcome(records, nextId, input, now, rand)
  }

  /** The update PUT sends: `{ status }` as given, without validators. */
  function StatusOutcome(records: seq<Booking>, id: nat, status: string, now: nat): Result<Booking> {
    UpdateOutcome(records, id, StatusUpdate(status), false, now)
  }

  // ---------------------------------------------------------------------
  // The handlers

  /** POST. */
  method CreateBooking(store: Store, input: BookingInput, now: nat, rand: nat) returns (r: Result<Booking>)
    requires store.Valid() && rand < 1000
    modifies store
    ensures store.Valid()
    ensures r == CreateOutcome(old(store.records), old(store.nextId), input, now, rand)
    ensures store.records == if r.Ok? then old(store.records) + [r.value] else old(store.records)
    ensures store.nextId == if r.Ok? then old(store.nextId) + 1 else old(store.nextId)
  {
    var existing := FindOne(store.records, ConflictQuery(input));
    if existing.Some? {
      r := Err(Conflict);
      return;
    }
    r := store.Save(input, now, rand);
  }

  datatype Availability = Availability(date: string, bookedSlots: seq<Slot>)

  /** GET /availability/:date: no format check and no count. */
  method CheckAvailability(store: Store, date: string) returns (r: Availability)
    requires store.Valid()
    ensures r.date == date && |r.bookedSlots| <= |store.records|
    ensures r.bookedSlots == BookedSlots(store.records, date)
    ensures forall i, j :: 0 <= i < j < |r.bookedSlots| ==> r.bookedSlots[i].id != r.bookedSlots[j].id
    ensures forall s :: s in r.bookedSlots <==>
      exists i :: 0 <= i < |store.records| && IsLive(store.records[i]) && store.records[i].date == date && s == SlotOf(store.records[i])
  {
    var slots := BookedSlots(store.records, date);
    forall s
      ensures s in slots <==>
        exists i :: 0 <= i < |store.records| && IsLive(store.records[i]) && store.records[i].date == date && s == SlotOf(store.records[i])
    {
      BookedSlotsExact(store.records, date, s);
    }
    BookedSlotsDistinct(store.records, date);
    r := Availability(date, slots);
  }

  /** PUT /:id: sets the status. */
  method UpdateStatus(store: Store, id: nat, status: string, now: nat) returns (r: Result<Booking>)
    requires store.Valid()
    modifies store
    ensures store.Valid()
    ensures r == StatusOutcome(old(store.records), id, status, now)
    ensures store.records == AfterUpdate(old(store.records), r)
    ensures store.nextId == old(store.nextId)
  {
    r := store.FindByIdAndUpdate(id, StatusUpdate(status), false, now);
  }

  /** DELETE /:id: removes the document. */
  method DeleteBooking(store: Store, id: nat) returns (r: Result<Booking>)
    requires store.Valid()
    modifies store
    ensures store.Valid()
    ensures r.Ok? <==> Lookup(old(store.records), id).Some?
    ensures r.Ok? ==> store.records == Remove(old(store.records), id) && Lookup(store.records, id).None?
    ensures r.Err? ==> r.error == NotFound && store.records == old(store.records)
    ensures store.nextId == old(store.nextId)
  {
    r := store.FindByIdAndDelete(id);
    if r.Ok? {
      DeleteThenLookupFails(old(store.records), id);
    }
  }

  // ---------------------------------------------------------------------
  // Properties of the conflict rule

  /** A create is refused exactly when a live document has the same date,
      time and the identical stylist string, "any" included. */
  lemma CreateConflictExact(records: seq<Booking>, nextId: nat, input: BookingInput, s: string, now: nat, rand: nat)
    requires rand < 1000 && input.stylist == Some(s)
    ensures CreateOutcome(records, nextId, input, now, rand) == Err(Conflict) <==>
      exists i :: 0 <= i < |records| && IsLive(records[i]) && input.date == Some(records[i].date)
        && input.time == Some(records[i].time) && records[i].stylist == s
  {
    var q := ConflictQuery(input);
    if exists i :: 0 <= i < |records| && IsLive(records[i]) && input.date == Some(records[i].date)
        && input.time == Some(records[i].time) && records[i].stylist == s {
      var i :| 0 <= i < |records| && IsLive(records[i]) && input.date == Some(records[i].date)
        && input.time == Some(records[i].time) && records[i].stylist == s;
      assert Matches(records[i], q);
    }
    var r := CreateOutcome(records, nextId, input, now, rand);
    if r == Err(Conflict) {
      assert FindOne(records, q).Some?;
    }
  }

  /** The two routers agree on every stylist but "any"; for "any" the
      legacy rule refuses only when the live rule does, and the live rule
      refuses in some stores where the legacy one accepts. */
  lemma ConflictRulesCompared(records: seq<Booking>, input: BookingInput)
    ensures input.stylist != Some("any") ==>
      (FindOne(records, ConflictQuery(input)).Some? <==> FindOne(records, Live.ConflictQuery(input)).Some?)
    ensures FindOne(records, ConflictQuery(input)).Some? ==> FindOne(records, Live.ConflictQuery(input)).Some?
  {
    var r := FindOne(records, ConflictQuery(input));
    if r.Some? {
      var i :| 0 <= i < |records| && records[i] == r.value;
      assert Matches(records[i], Live.ConflictQuery(input));
    }
    if input.stylist != Some("any") {
      assert ConflictQuery(input) == Live.ConflictQuery(input);
    }
  }

  /** A concrete store where the two rules differ: one live booking for
      "Alex" at 10:00 blocks a live-router create for "any" but not a
      legacy one. */
  lemma AnyDiffersBetweenRouters(b: Booking)
    requires b.status == Confirmed && b.date == "2024-06-01" && b.time == "10:00" && b.stylist == "Alex"
    ensures var input := BookingInput(Some("2024-06-01"), Some("10:00"), Some("Haircut"), Some("any"), None);
      FindOne([b], Live.ConflictQuery(input)).Some? && FindOne([b], ConflictQuery(input)).None?
  {
    var input := BookingInput(Some("2024-06-01"), Some("10:00"), Some("Haircut"), Some("any"), None);
    assert Matches(b, Live.ConflictQuery(input));
    assert !Matches(b, ConflictQuery(input)) by { assert "Alex" != "any"; }
  }

  /** POST keeps the slot invariant: no two live documents share date,
      time and stylist. */
  lemma CreateKeepsSlots(records: seq<Booking>, nextId: nat, input: BookingInput, now: nat, rand: nat)
    requires rand < 1000 && NoDoubleBooking(records)
    ensures var r := CreateOutcome(records, nextId, input, now, rand);
      NoDoubleBooking(if r.Ok? then records + [r.value] else records)
  {
    var r := CreateOutcome(records, nextId, input, now, rand);
    if r.Ok? {
      assert MissingFields(input) == {} && r.value == NewDocument(input, nextId, now, rand);
      AppendKeepsSlots(records, r.value, ConflictQuery(input));
    }
  }

  // ---------------------------------------------------------------------
  // Properties of PUT and DELETE

  /** PUT changes only the status (and `updatedAt`) of the document with
      that id; every other document is kept; an unknown id is not found. */
  lemma UpdateStatusChangesOnlyStatus(records: seq<Booking>, id: nat, status: string, now: nat)
    requires UniqueIds(records)
    ensures var r := StatusOutcome(records, id, status, now);
      r.Err? <==> (r == Err(NotFound) && IndexOf(records, id).None?)
    ensures var s := AfterUpdate(records, StatusOutcome(records, id, status, now));
      |s| == |records|
      && forall j :: 0 <= j < |records| ==>
        s[j] == if records[j].id == id then records[j].(status := status, updatedAt := now) else records[j]
  {
    match IndexOf(records, id)
    case None =>
    case Some(i) =>
      StatusUpdateEffect(records[i], status, now);
      var b := records[i].(status := status, updatedAt := now);
      var s := Put(records, b);
      forall j | 0 <= j < |records|
        ensures s[j] == if records[j].id == id then records[j].(status := status, updatedAt := now) else records[j]
      {
        if records[j].id == id {
          assert j == i;
        }
      }
  }

  /** Because no validator runs, PUT can store a status outside the enum:
      the schema holds before and is broken after. */
  lemma UpdateStatusCanBreakEnum(b: Booking, now: nat)
    requires Conforms(b)
    ensures var s := AfterUpdate([b], StatusOutcome([b], b.id, "done", now));
      AllConform([b]) && |s| == 1 && !Conforms(s[0])
  {
    UpdateStatusChangesOnlyStatus([b], b.id, "done", now);
  }

  /** After DELETE removes a document, looking up its id fails, and every
      other id finds what it found before. */
  lemma {:induction false} DeleteThenLookupFails(records: seq<Booking>, id: nat)
    ensures Lookup(Remove(records, id), id).None?
    ensures forall other :: other != id ==> Lookup(Remove(records, id), other) == Lookup(records, other)
  {
    if records != [] {
      DeleteThenLookupFails(records[1..], id);
      var rest := Remove(records[1..], id);
      forall other | other != id
        ensures Lookup(Remove(records, id), other) == Lookup(records, other)
      {
        if records[0].id != id {
          assert Remove(records, id) == [records[0]] + rest;
          if records[0].id != other {
            LookupTail([records[0]] + rest, other);
            LookupTail(records, other);
          }
        } else {
          assert Remove(records, id) == rest;
          LookupTail(records, other);
        }
      }
    }
  }

  /** DELETE keeps the slot invariant: what remains is a subsequence of
      the collection. */
  lemma {:induction false} DeleteKeepsSlots(records: seq<Booking>, id: nat)
    requires NoDoubleBooking(records)
    ensures NoDoubleBooking(Remove(records, id))
  {
    if records != [] {
      var tail := records[1..];
      assert NoDoubleBooking(tail) by {
        assert forall i :: 0 <= i < |tail| ==> tail[i] == records[i + 1];
      }
      DeleteKeepsSlots(tail, id);
      if records[0].id != id {
        var rest := Remove(tail, id);
        forall j | 0 <= j < |rest| && IsLive(records[0]) && IsLive(rest[j])
          ensures !SameSlot(records[0], rest[j])
        {
          var m :| 0 <= m < |tail| && tail[m] == rest[j];
          assert records[m + 1] == rest[j];
        }
        PrependKeepsSlots(records[0], rest);
        assert Remove(records, id) == [records[0]] + rest;
      }
    }
  }

  lemma PrependKeepsSlots(b: Booking, rest: seq<Booking>)
    requires NoDoubleBooking(rest)
    requires forall j :: 0 <= j < |rest| && IsLive(b) && IsLive(rest[j]) ==> !SameSlot(b, rest[j])
    ensures NoDoubleBooking([b] + rest)
  {
    var s := [b] + rest;
    forall i, j | 0 <= i < j < |s| && IsLive(s[i]) && IsLive(s[j]) ensures !SameSlot(s[i], s[j]) {
      assert s[j] == rest[j - 1];
      if i > 0 { assert s[i] == rest[i - 1]; }
    }
  }

  /** With no conflict check, PUT can also set a cancelled document back to
      confirmed in a slot that is held again. */
  lemma UpdateStatusCanDoubleBook(a: Booking, b: Booking, now: nat)
    requires a.id != b.id && SameSlot(a, b)
    requires a.status == Confirmed && b.status == Cancelled
    ensures NoDoubleBooking([a, b])
    ensures var r := StatusOutcome([a, b], b.id, Confirmed, now);
      r.Ok? && !NoDoubleBooking(AfterUpdate([a, b], r))
  {
    Live.PutCanDoubleBook(a, b, now);
  }

  /** Looking past a first document with a different id. */
  lemma LookupTail(records: seq<Booking>, id: nat)
    requires records != [] && records[0].id != id
    ensures Lookup(records, id) == Lookup(records[1..], id)
  {
    match IndexOf(records[1..], id)
    case None =>
    case Some(k) =>
      assert IndexOf(records, id) == Some(k + 1);
      assert records[k + 1] == records[1..][k];
  }
}
