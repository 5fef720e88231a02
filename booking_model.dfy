/** The Booking schema of models/booking.js and the Mongoose model built on it.

    The schema is a conformance predicate (required strings, the status enum),
    a function that builds a new document with the schema's defaults, and the
    generator of the human-facing `bookingId`. The model itself is the class
    `Store`: the collection of stored documents, in insertion order, with the
    store-side operations the routes call (save, findById, findByIdAndUpdate,
    findByIdAndDelete), including the unique index on `bookingId` and the
    `createdAt`/`updatedAt` timestamps. */
module BookingModel {

  datatype Option<+T> = None | Some(value: T)

  /** The values of the `status` enum. */
  const Confirmed: string := "confirmed"
  const Pending: string := "pending"
  const Cancelled: string := "cancelled"

  predicate IsStatus(s: string) {
    s == Confirmed || s == Pending || s == Cancelled
  }

  datatype Customer = Customer(name: string, phone: string, email: string, whatsapp: string)

  /** A stored document. `id` is the `_id` the store assigns; `createdAt` and
      `updatedAt` are the store's timestamps, in milliseconds. */
  datatype Booking = Booking(
    id: nat,
    date: string,
    time: string,
    service: string,
    stylist: string,
    customer: Customer,
    status: string,
    bookingId: string,
    notes: string,
    price: real,
    createdAt: nat,
    updatedAt: nat)

  /** The schema paths whose validators can fail. */
  datatype Field = Date | Time | Service | Stylist | CustomerName | CustomerPhone | Status

  /** Everything a handler can report other than success. */
  datatype Failure =
    | Invalid(fields: set<Field>)   // schema validation failed on these paths
    | DuplicateKey                  // the unique index on bookingId refused the write
    | NotFound                      // no document with that _id
    | Conflict                      // the slot is already booked
    | BadDate                       // the availability date is not YYYY-MM-DD

  datatype Result<+T> = Ok(value: T) | Err(error: Failure)

  /** Mongoose's `required` check for a String path: present and non-empty. */
  predicate Filled(v: Option<string>) {
    v.Some? && |v.value| > 0
  }

  /** The value stored for an optional String path whose default is ''. */
  function TextOr(v: Option<string>): string {
    if v.Some? then v.value else ""
  }

  /** A document satisfies the schema: every required string is non-empty
      and the status is one of the enum values. */
  predicate Conforms(b: Booking) {
    && |b.date| > 0 && |b.time| > 0 && |b.service| > 0 && |b.stylist| > 0
    && |b.customer.name| > 0 && |b.customer.phone| > 0
    && IsStatus(b.status)
  }

  predicate AllConform(records: seq<Booking>) {
    forall i :: 0 <= i < |records| ==> Conforms(records[i])
  }

  // ---------------------------------------------------------------------
  // Creating a document: `new Booking({ date, time, service, stylist, customer })`

  datatype CustomerInput = CustomerInput(
    name: Option<string>, phone: Option<string>, email: Option<string>, whatsapp: Option<string>)

  /** The fields a create request passes to the model; an omitted field is None. */
  datatype BookingInput = BookingInput(
    date: Option<string>,
    time: Option<string>,
    service: Option<string>,
    stylist: Option<string>,
    customer: Option<CustomerInput>)

  function CustomerOf(input: BookingInput): CustomerInput {
    if input.customer.Some? then input.customer.value else CustomerInput(None, None, None, None)
  }

  /** The required paths a create request leaves absent or empty. */
  function MissingFields(input: BookingInput): set<Field> {
    var c := CustomerOf(input);
    (if Filled(input.date) then {} else {Date})
    + (if Filled(input.time) then {} else {Time})
    + (if Filled(input.service) then {} else {Service})
    + (if Filled(input.stylist) then {} else {Stylist})
    + (if Filled(c.name) then {} else {CustomerName})
    + (if Filled(c.phone) then {} else {CustomerPhone})
  }

  /** The document `save` would store for `input`: the request's fields, the
      defaults of the schema (status confirmed, empty notes, email and
      whatsapp, price 0, a generated bookingId) and the store's `_id` and
      timestamps. */
  function NewDocument(input: BookingInput, id: nat, now: nat, rand: nat): (b: Booking)
    requires rand < 1000
    ensures Conforms(b) <==> MissingFields(input) == {}
    ensures b.id == id && b.createdAt == now && b.updatedAt == now
    ensures b.status == Confirmed && b.notes == "" && b.price == 0.0
    ensures b.bookingId == GenerateBookingId(now, rand)
    ensures Filled(input.date) ==> b.date == input.date.value
    ensures Filled(input.time) ==> b.time == input.time.value
    ensures Filled(input.service) ==> b.service == input.service.value
    ensures Filled(input.stylist) ==> b.stylist == input.stylist.value
    ensures Filled(CustomerOf(input).name) ==> b.customer.name == CustomerOf(input).name.value
    ensures Filled(CustomerOf(input).phone) ==> b.customer.phone == CustomerOf(input).phone.value
    ensures CustomerOf(input).email.Some? ==> b.customer.email == CustomerOf(input).email.value
    ensures CustomerOf(input).whatsapp.Some? ==> b.customer.whatsapp == CustomerOf(input).whatsapp.value
    ensures CustomerOf(input).email.None? ==> b.customer.email == ""
    ensures CustomerOf(input).whatsapp.None? ==> b.customer.whatsapp == ""
  {
    var c := CustomerOf(input);
    Booking(
      id,
      TextOr(input.date), TextOr(input.time), TextOr(input.service), TextOr(input.stylist),
      Customer(TextOr(c.name), TextOr(c.phone), TextOr(c.email), TextOr(c.whatsapp)),
      Confirmed,
      GenerateBookingId(now, rand),
      "",
      0.0,
      now, now)
  }

  // ---------------------------------------------------------------------
  // The bookingId default: 'BK' + Date.now() + Math.floor(Math.random() * 1000)

  predicate IsDigit(c: char) {
    '0' <= c <= '9'
  }

  predicate AllDigits(s: string) {
    forall i :: 0 <= i < |s| ==> IsDigit(s[i])
  }

  function DigitChar(d: nat): (c: char)
    requires d < 10
    ensures IsDigit(c) && c as int - '0' as int == d
  {
    "0123456789"[d]
  }

  /** JavaScript's conversion of a non-negative integer Number to a string:
      its decimal digits, most significant first, without leading zeros. */
  function Decimal(n: nat): (s: string)
    ensures |s| >= 1 && AllDigits(s)
    ensures s[0] == '0' ==> n == 0
  {
    if n < 10 then [DigitChar(n)] else Decimal(n / 10) + [DigitChar(n % 10)]
  }

  /** The number a string of decimal digits denotes. */
  function ValueOf(s: string): nat
    requires AllDigits(s)
  {
    if s == [] then 0 else ValueOf(s[..|s| - 1]) * 10 + (s[|s| - 1] as int - '0' as int)
  }

  function Pow10(k: nat): nat {
    if k == 0 then 1 else 10 * Pow10(k - 1)
  }

  lemma {:induction false} DecimalRoundTrip(n: nat)
    ensures ValueOf(Decimal(n)) == n
  {
    if n >= 10 {
      DecimalRoundTrip(n / 10);
      var s := Decimal(n);
      assert s[..|s| - 1] == Decimal(n / 10);
    }
  }

  lemma {:induction false} ValueOfConcat(a: string, b: string)
    requires AllDigits(a) && AllDigits(b)
    ensures AllDigits(a + b)
    ensures ValueOf(a + b) == ValueOf(a) * Pow10(|b|) + ValueOf(b)
    decreases |b|
  {
    forall i | 0 <= i < |a + b| ensures IsDigit((a + b)[i]) {
      if i >= |a| { assert (a + b)[i] == b[i - |a|]; }
    }
    if b == [] {
      assert a + b == a;
    } else {
      var b' := b[..|b| - 1];
      var d := b[|b| - 1] as int - '0' as int;
      assert (a + b)[..|a + b| - 1] == a + b';
      assert (a + b)[|a + b| - 1] == b[|b| - 1];
      ValueOfConcat(a, b');
      var va, vb' := ValueOf(a), ValueOf(b');
      assert ValueOf(a + b) == ValueOf(a + b') * 10 + d;
      assert ValueOf(b) == vb' * 10 + d;
      assert Pow10(|b|) == Pow10(|b'|) * 10;
      calc {
        ValueOf(a + b);
        (va * Pow10(|b'|) + vb') * 10 + d;
        { MulAssoc(va, Pow10(|b'|), 10); }
        va * (Pow10(|b'|) * 10) + (vb' * 10 + d);
      }
    }
  }

  lemma MulAssoc(x: int, y: int, z: int)
    ensures (x * y) * z == x * (y * z)
  {
  }

  function GenerateBookingId(now: nat, rand: nat): (r: string)
    requires rand < 1000
    ensures |r| >= 4 && r[..2] == "BK" && AllDigits(r[2..])
  {
    "BK" + Decimal(now) + Decimal(rand)
  }

  /** The digits after "BK" read as the timestamp followed by the random
      part, unpadded: the number is now * 10^k + rand, where k is the count
      of digits of rand. */
  lemma BookingIdValue(now: nat, rand: nat)
    requires rand < 1000
    ensures ValueOf(GenerateBookingId(now, rand)[2..]) == now * Pow10(|Decimal(rand)|) + rand
  {
    var r := GenerateBookingId(now, rand);
    assert r[2..] == Decimal(now) + Decimal(rand);
    ValueOfConcat(Decimal(now), Decimal(rand));
    DecimalRoundTrip(now);
    DecimalRoundTrip(rand);
  }

  /** Because the random part is not zero-padded, two different (clock,
      random) pairs can produce the same identifier; only the unique index
      on bookingId keeps stored identifiers distinct. */
  lemma GeneratedIdsCanCollide()
    ensures GenerateBookingId(12, 34) == GenerateBookingId(123, 4)
  {
    assert Decimal(1) == "1" && Decimal(3) == "3";
    assert Decimal(12) == "12" && Decimal(34) == "34";
    assert Decimal(123) == "123" && Decimal(4) == "4";
  }

  // ---------------------------------------------------------------------
  // The stored collection

  predicate UniqueIds(records: seq<Booking>) {
    forall i, j :: 0 <= i < j < |records| ==> records[i].id != records[j].id
  }

  predicate UniqueBookingIds(records: seq<Booking>) {
    forall i, j :: 0 <= i < j < |records| ==> records[i].bookingId != records[j].bookingId
  }

  predicate IdsBelow(records: seq<Booking>, bound: nat) {
    forall i :: 0 <= i < |records| ==> records[i].id < bound
  }

  /** What the store guarantees of its collection: distinct `_id`s, all
      below the next one to be handed out, and the unique index on bookingId. */
  predicate StoreInvariant(records: seq<Booking>, nextId: nat) {
    IdsBelow(records, nextId) && UniqueIds(records) && UniqueBookingIds(records)
  }

  predicate BookingIdTaken(records: seq<Booking>, bookingId: string) {
    exists i :: 0 <= i < |records| && records[i].bookingId == bookingId
  }

  predicate BookingIdTakenByOther(records: seq<Booking>, bookingId: string, id: nat) {
    exists i :: 0 <= i < |records| && records[i].bookingId == bookingId && records[i].id != id
  }

  /** The position of the document with `_id` id. */
  function IndexOf(records: seq<Booking>, id: nat): (r: Option<nat>)
    ensures r.Some? ==> r.value < |records| && records[r.value].id == id
    ensures r.None? <==> forall i :: 0 <= i < |records| ==> records[i].id != id
  {
    if records == [] then None
    else if records[0].id == id then Some(0)
    else
      match IndexOf(records[1..], id)
      case None => None
      case Some(k) => Some(k + 1)
  }

  /** findById. */
  function Lookup(records: seq<Booking>, id: nat): Option<Booking> {
    match IndexOf(records, id)
    case None => None
    case Some(i) => Some(records[i])
  }

  lemma LookupFinds(records: seq<Booking>, i: nat)
    requires UniqueIds(records) && i < |records|
    ensures Lookup(records, records[i].id) == Some(records[i])
  {
  }

  /** The collection with the document whose `_id` is b.id replaced by b. */
  function Put(records: seq<Booking>, b: Booking): (r: seq<Booking>)
    ensures |r| == |records|
    ensures forall i :: 0 <= i < |r| ==> r[i] == if records[i].id == b.id then b else records[i]
  {
    if records == [] then [] else [if records[0].id == b.id then b else records[0]] + Put(records[1..], b)
  }

  /** The collection without the document whose `_id` is id. */
  function Remove(records: seq<Booking>, id: nat): (r: seq<Booking>)
    ensures forall i :: 0 <= i < |r| ==> r[i].id != id && r[i] in records
    ensures forall i :: 0 <= i < |records| && records[i].id != id ==> records[i] in r
    ensures |r| <= |records|
  {
    if records == [] then []
    else (if records[0].id == id then [] else [records[0]]) + Remove(records[1..], id)
  }

  /** Deleting an `_id` that no document has changes nothing. */
  lemma {:induction false} RemoveAbsent(records: seq<Booking>, id: nat)
    requires forall i :: 0 <= i < |records| ==> records[i].id != id
    ensures Remove(records, id) == records
  {
    if records != [] {
      RemoveAbsent(records[1..], id);
    }
  }

  /** With distinct `_id`s, deleting a stored `_id` removes exactly one
      document. */
  lemma {:induction false} RemoveDropsOne(records: seq<Booking>, id: nat)
    requires UniqueIds(records) && IndexOf(records, id).Some?
    ensures |Remove(records, id)| == |records| - 1
  {
    var tail := records[1..];
    assert forall i :: 0 <= i < |tail| ==> tail[i] == records[i + 1];
    if records[0].id == id {
      RemoveAbsent(tail, id);
    } else {
      var k := IndexOf(records, id).value;
      assert tail[k - 1].id == id;
      RemoveDropsOne(tail, id);
    }
  }

  // ---------------------------------------------------------------------
  // Updating a document: findByIdAndUpdate(id, update, { new: true, ... })

  /** An update document: the schema paths it sets. Customer sub-fields are
      set one by one, as with the dotted paths `customer.name` and so on. */
  datatype Update = Update(
    date: Option<string>,
    time: Option<string>,
    service: Option<string>,
    stylist: Option<string>,
    customerName: Option<string>,
    customerPhone: Option<string>,
    customerEmail: Option<string>,
    customerWhatsapp: Option<string>,
    status: Option<string>,
    bookingId: Option<string>,
    notes: Option<string>,
    price: Option<real>)

  /** The update `{ status }`. */
  function StatusUpdate(status: string): Update {
    Update(None, None, None, None, None, None, None, None, Some(status), None, None, None)
  }

  /** The update `{ status }` changes the status and nothing else but the
      store's `updatedAt`. */
  lemma StatusUpdateEffect(b: Booking, status: string, now: nat)
    ensures ApplyUpdate(b, StatusUpdate(status), now) == b.(status := status, updatedAt := now)
  {
  }

  function Override<T>(v: Option<T>, old_: T): T {
    if v.Some? then v.value else old_
  }

  /** The document after `u` is applied; the store refreshes `updatedAt`. */
  function ApplyUpdate(b: Booking, u: Update, now: nat): Booking {
    Booking(
      b.id,
      Override(u.date, b.date), Override(u.time, b.time),
      Override(u.service, b.service), Override(u.stylist, b.stylist),
      Customer(Override(u.customerName, b.customer.name), Override(u.customerPhone, b.customer.phone),
               Override(u.customerEmail, b.customer.email), Override(u.customerWhatsapp, b.customer.whatsapp)),
      Override(u.status, b.status),
      Override(u.bookingId, b.bookingId),
      Override(u.notes, b.notes),
      Override(u.price, b.price),
      b.createdAt, now)
  }

  /** Update validators (runValidators: true) run only on the paths the
      update sets: a required path set to '' fails, and so does a status
      outside the enum. */
  function UpdateFailures(u: Update): set<Field> {
    (if u.date == Some("") then {Date} else {})
    + (if u.time == Some("") then {Time} else {})
    + (if u.service == Some("") then {Service} else {})
    + (if u.stylist == Some("") then {Stylist} else {})
    + (if u.customerName == Some("") then {CustomerName} else {})
    + (if u.customerPhone == Some("") then {CustomerPhone} else {})
    + (if u.status.Some? && !IsStatus(u.status.value) then {Status} else {})
  }

  /** What findByIdAndUpdate returns: validation (when asked for) comes
      first, then the lookup, then the unique index on bookingId. */
  function UpdateOutcome(records: seq<Booking>, id: nat, u: Update, runValidators: bool, now: nat): Result<Booking> {
    if runValidators && UpdateFailures(u) != {} then Err(Invalid(UpdateFailures(u)))
    else
      match IndexOf(records, id)
      case None => Err(NotFound)
      case Some(i) =>
        if u.bookingId.Some? && BookingIdTakenByOther(records, u.bookingId.value, id) then Err(DuplicateKey)
        else Ok(ApplyUpdate(records[i], u, now))
  }

  /** The collection after an update with result r. */
  function AfterUpdate(records: seq<Booking>, r: Result<Booking>): seq<Booking> {
    if r.Ok? then Put(records, r.value) else records
  }

  /** A successful update returns the stored document with that `_id`,
      changed exactly on the paths the update sets, with `updatedAt`
      refreshed; a validated update never breaks the schema. */
  lemma UpdateOutcomeMeaning(records: seq<Booking>, id: nat, u: Update, runValidators: bool, now: nat)
    ensures var r := UpdateOutcome(records, id, u, runValidators, now);
      r.Ok? ==> exists i :: 0 <= i < |records| && records[i].id == id && r.value == ApplyUpdate(records[i], u, now)
    ensures var r := UpdateOutcome(records, id, u, runValidators, now);
      runValidators && r.Ok? && AllConform(records) ==> Conforms(r.value)
    ensures IndexOf(records, id).None? && (!runValidators || UpdateFailures(u) == {}) ==>
      UpdateOutcome(records, id, u, runValidators, now) == Err(NotFound)
    ensures runValidators && UpdateFailures(u) != {} ==>
      UpdateOutcome(records, id, u, runValidators, now) == Err(Invalid(UpdateFailures(u)))
    ensures forall i :: (0 <= i < |records| && records[i].id == id && UniqueIds(records)
        && (!runValidators || UpdateFailures(u) == {})) ==>
      UpdateOutcome(records, id, u, runValidators, now) ==
        if u.bookingId.Some? && BookingIdTakenByOther(records, u.bookingId.value, id) then Err(DuplicateKey)
        else Ok(ApplyUpdate(records[i], u, now))
  {
    var r := UpdateOutcome(records, id, u, runValidators, now);
    if r.Ok? {
      var i := IndexOf(records, id).value;
      assert records[i].id == id && r.value == ApplyUpdate(records[i], u, now);
    }
  }

  /** Applying the result of an update keeps the store's guarantees. */
  lemma {:induction false} UpdateKeepsInvariant(records: seq<Booking>, nextId: nat, id: nat, u: Update, runValidators: bool, now: nat)
    requires StoreInvariant(records, nextId)
    ensures StoreInvariant(AfterUpdate(records, UpdateOutcome(records, id, u, runValidators, now)), nextId)
  {
    var r := UpdateOutcome(records, id, u, runValidators, now);
    if r.Ok? {
      var i := IndexOf(records, id).value;
      var s := Put(records, r.value);
      assert r.value.id == id;
      forall j, k | 0 <= j < k < |s| ensures s[j].bookingId != s[k].bookingId {
        if j == i {
          assert s[j] == r.value;
          if u.bookingId.Some? {
            assert records[k].id != id;
          }
        } else if k == i {
          if u.bookingId.Some? {
            assert records[j].id != id;
          }
        }
      }
    }
  }

  lemma {:induction false} RemoveKeepsInvariant(records: seq<Booking>, nextId: nat, id: nat)
    requires StoreInvariant(records, nextId)
    ensures StoreInvariant(Remove(records, id), nextId)
    decreases |records|
  {
    if records != [] {
      RemoveKeepsInvariant(records[1..], nextId, id);
      var rest := Remove(records[1..], id);
      var s := Remove(records, id);
      if records[0].id != id {
        assert s == [records[0]] + rest;
        forall k | 0 < k < |s| ensures s[0].id != s[k].id && s[0].bookingId != s[k].bookingId {
          assert s[k] in records[1..];
        }
      } else {
        assert s == rest;
      }
    }
  }

  // ---------------------------------------------------------------------
  // Inserting: document.save()

  /** What `save` answers for a new document built from input: validation
      first, then the unique index on bookingId. */
  function SaveOutcome(records: seq<Booking>, nextId: nat, input: BookingInput, now: nat, rand: nat): (r: Result<Booking>)
    requires rand < 1000
    ensures r.Ok? <==> MissingFields(input) == {} && !BookingIdTaken(records, GenerateBookingId(now, rand))
    ensures r.Ok? ==> r.value == NewDocument(input, nextId, now, rand) && Conforms(r.value)
    ensures r.Err? ==> r.error.Invalid? || r.error == DuplicateKey
    ensures MissingFields(input) != {} ==> r == Err(Invalid(MissingFields(input)))
    ensures MissingFields(input) == {} && BookingIdTaken(records, GenerateBookingId(now, rand)) ==> r == Err(DuplicateKey)
  {
    var missing := MissingFields(input);
    if missing != {} then Err(Invalid(missing))
    else
      var b := NewDocument(input, nextId, now, rand);
      if BookingIdTaken(records, b.bookingId) then Err(DuplicateKey) else Ok(b)
  }

  /** Appending a successfully saved document keeps the store's guarantees,
      and the new document can be found by its `_id`. */
  lemma SaveKeepsInvariant(records: seq<Booking>, nextId: nat, input: BookingInput, now: nat, rand: nat)
    requires rand < 1000 && StoreInvariant(records, nextId)
    requires SaveOutcome(records, nextId, input, now, rand).Ok?
    ensures var b := SaveOutcome(records, nextId, input, now, rand).value;
      StoreInvariant(records + [b], nextId + 1) && Lookup(records + [b], b.id) == Some(b)
  {
    var b := SaveOutcome(records, nextId, input, now, rand).value;
    var s := records + [b];
    assert s[|records|] == b;
    LookupFinds(s, |records|);
  }

  class Store {
    var records: seq<Booking>
    var nextId: nat

    ghost predicate Valid()
      reads this
    {
      StoreInvariant(records, nextId)
    }

    constructor ()
      ensures Valid() && records == []
    {
      records := [];
      nextId := 0;
    }

    /** `new Booking(input).save()`: validates, applies the defaults,
        enforces the unique index and, on success, appends exactly one
        document. */
    method Save(input: BookingInput, now: nat, rand: nat) returns (r: Result<Booking>)
      requires Valid() && rand < 1000
      modifies this
      ensures Valid()
      ensures r == SaveOutcome(old(records), old(nextId), input, now, rand)
      ensures nextId == if r.Ok? then old(nextId) + 1 else old(nextId)
      ensures records == if r.Ok? then old(records) + [r.value] else old(records)
      ensures r.Ok? ==> Lookup(records, r.value.id) == Some(r.value)
    {
      r := SaveOutcome(records, nextId, input, now, rand);
      if r.Ok? {
        SaveKeepsInvariant(records, nextId, input, now, rand);
        records := records + [r.value];
        nextId := nextId + 1;
      }
    }

    /** findById: the stored document with that `_id`, if any. */
    method FindById(id: nat) returns (r: Option<Booking>)
      requires Valid()
      ensures r.Some? <==> exists i :: 0 <= i < |records| && records[i].id == id
      ensures r.Some? ==> r.value in records && r.value.id == id
      ensures r == Lookup(records, id)
    {
      r := Lookup(records, id);
    }

    /** findByIdAndUpdate(id, u, { new: true }) with or without runValidators. */
    method FindByIdAndUpdate(id: nat, u: Update, runValidators: bool, now: nat) returns (r: Result<Booking>)
      requires Valid()
      modifies this
      ensures Valid() && nextId == old(nextId)
      ensures r == UpdateOutcome(old(records), id, u, runValidators, now)
      ensures records == AfterUpdate(old(records), r)
    {
      r := UpdateOutcome(records, id, u, runValidators, now);
      UpdateKeepsInvariant(records, nextId, id, u, runValidators, now);
      records := AfterUpdate(records, r);
    }

    /** findByIdAndDelete(id): returns the removed document. */
    method FindByIdAndDelete(id: nat) returns (r: Result<Booking>)
      requires Valid()
      modifies this
      ensures Valid() && nextId == old(nextId)
      ensures r.Ok? <==> Lookup(old(records), id).Some?
      ensures r.Ok? ==> Lookup(old(records), id) == Some(r.value) && records == Remove(old(records), id)
      ensures r.Err? ==> r.error == NotFound && records == old(records)
    {
      var found := Lookup(records, id);
      if found.Some? {
        RemoveKeepsInvariant(records, nextId, id);
        records := Remove(records, id);
        r := Ok(found.value);
      } else {
        r := Err(NotFound);
      }
    }
  }
}
