/** The filters the route handlers send to the store, stated over the stored
    collection: the slot-conflict `findOne` of a create request, the
    availability `find(...).select('time stylist')` of a date, the
    `YYYY-MM-DD` shape check, and the `sort({ createdAt: -1 })` of the list. */
module BookingQueries {
  import opened BookingModel

  /** `status: { $ne: 'cancelled' }`. */
  predicate IsLive(b: Booking) {
    b.status != Cancelled
  }

  /** The stylist condition of a conflict query: equality with the requested
      value (an omitted value matches no stored document, all of which carry
      a stylist) or `{ $exists: true }`, which every stored document meets. */
  datatype StylistFilter = Exactly(name: Option<string>) | AnyStylist

  datatype SlotQuery = SlotQuery(date: Option<string>, time: Option<string>, stylist: StylistFilter)

  predicate StylistMatches(f: StylistFilter, stylist: string) {
    match f
    case AnyStylist => true
    case Exactly(name) => name == Some(stylist)
  }

  /** A document the conflict query selects: not cancelled, on the requested
      date and time, with a matching stylist. */
  predicate Matches(b: Booking, q: SlotQuery) {
    IsLive(b) && q.date == Some(b.date) && q.time == Some(b.time) && StylistMatches(q.stylist, b.stylist)
  }

  /** findOne: the first document in store order that the query selects. */
  function FindOne(records: seq<Booking>, q: SlotQuery): (r: Option<Booking>)
    ensures r.Some? ==> r.value in records && Matches(r.value, q)
    ensures r.None? <==> forall i :: 0 <= i < |records| ==> !Matches(records[i], q)
  {
    if records == [] then None
    else if Matches(records[0], q) then Some(records[0])
    else FindOne(records[1..], q)
  }

  /** Two documents hold the same slot: date, time and stylist. */
  predicate SameSlot(a: Booking, b: Booking) {
    a.date == b.date && a.time == b.time && a.stylist == b.stylist
  }

  /** The slot invariant: no two non-cancelled documents hold the same slot. */
  predicate NoDoubleBooking(records: seq<Booking>) {
    forall i, j :: 0 <= i < j < |records| && IsLive(records[i]) && IsLive(records[j]) ==>
      !SameSlot(records[i], records[j])
  }

  /** Appending a document whose slot a query selects, after the query found
      nothing, keeps the slot invariant. */
  lemma AppendKeepsSlots(records: seq<Booking>, b: Booking, q: SlotQuery)
    requires NoDoubleBooking(records) && FindOne(records, q).None?
    requires q.date == Some(b.date) && q.time == Some(b.time) && StylistMatches(q.stylist, b.stylist)
    ensures NoDoubleBooking(records + [b])
  {
    var s := records + [b];
    forall i, j | 0 <= i < j < |s| && IsLive(s[i]) && IsLive(s[j])
      ensures !SameSlot(s[i], s[j])
    {
      assert s[i] == records[i];
      if j == |records| {
        assert !Matches(records[i], q);
      } else {
        assert s[j] == records[j];
      }
    }
  }

  // ---------------------------------------------------------------------
  // Availability: find({ date, status: { $ne: 'cancelled' } }).select('time stylist')

  /** One projected document: the projection keeps `_id` as well. */
  datatype Slot = Slot(id: nat, time: string, stylist: string)

  function SlotOf(b: Booking): Slot {
    Slot(b.id, b.time, b.stylist)
  }

  /** The projections of the live documents on `date`, in store order. */
  function BookedSlots(records: seq<Booking>, date: string): (r: seq<Slot>)
    ensures |r| <= |records|
  {
    if records == [] then []
    else
      (if IsLive(records[0]) && records[0].date == date then [SlotOf(records[0])] else [])
      + BookedSlots(records[1..], date)
  }

  /** The booked slots are exactly the projections of the live documents on
      that date: nothing else, and none of them missing. */
  lemma {:induction false} BookedSlotsExact(records: seq<Booking>, date: string, s: Slot)
    ensures s in BookedSlots(records, date) <==>
      exists i :: 0 <= i < |records| && IsLive(records[i]) && records[i].date == date && s == SlotOf(records[i])
  {
    if records != [] {
      BookedSlotsExact(records[1..], date, s);
      if s in BookedSlots(records[1..], date) {
        var i :| 0 <= i < |records[1..]| && IsLive(records[1..][i]) && records[1..][i].date == date && s == SlotOf(records[1..][i]);
        assert records[i + 1] == records[1..][i];
      }
      if exists i :: 0 <= i < |records| && IsLive(records[i]) && records[i].date == date && s == SlotOf(records[i]) {
        var i :| 0 <= i < |records| && IsLive(records[i]) && records[i].date == date && s == SlotOf(records[i]);
        if i > 0 {
          assert records[1..][i - 1] == records[i];
        }
      }
    }
  }

  /** With distinct `_id`s, no document is listed twice: the entries of the
      answer carry pairwise distinct `_id`s, so with BookedSlotsExact the
      answer has one entry per live document on that date. */
  lemma {:induction false} BookedSlotsDistinct(records: seq<Booking>, date: string)
    requires UniqueIds(records)
    ensures var r := BookedSlots(records, date);
      forall i, j :: 0 <= i < j < |r| ==> r[i].id != r[j].id
  {
    if records != [] {
      var tail := records[1..];
      assert forall i :: 0 <= i < |tail| ==> tail[i] == records[i + 1];
      BookedSlotsDistinct(tail, date);
      var rest := BookedSlots(tail, date);
      var r := BookedSlots(records, date);
      if IsLive(records[0]) && records[0].date == date {
        assert r == [SlotOf(records[0])] + rest;
        forall j | 0 < j < |r| ensures r[0].id != r[j].id {
          var e := rest[j - 1];
          BookedSlotsExact(tail, date, e);
          var m :| 0 <= m < |tail| && IsLive(tail[m]) && tail[m].date == date && e == SlotOf(tail[m]);
          assert records[m + 1] == tail[m];
        }
        forall i, j | 0 < i < j < |r| ensures r[i].id != r[j].id {
          assert r[i] == rest[i - 1] && r[j] == rest[j - 1];
        }
      } else {
        assert r == rest;
      }
    }
  }

  // ---------------------------------------------------------------------
  // The date check: /^\d{4}-\d{2}-\d{2}$/ on a non-empty string

  /** Four digits, '-', two digits, '-', two digits, and nothing else. The
      regular expression checks only the shape, not that the date exists. */
  predicate IsDateShape(s: string) {
    |s| == 10 && forall i :: 0 <= i < 10 ==> if i == 4 || i == 7 then s[i] == '-' else IsDigit(s[i])
  }

  /** The check splits into the year, month and day fields of the pattern. */
  lemma DateShapeFields(s: string)
    ensures IsDateShape(s) <==>
      |s| == 10 && AllDigits(s[..4]) && s[4] == '-' && AllDigits(s[5..7]) && s[7] == '-' && AllDigits(s[8..])
  {
    if |s| == 10 && AllDigits(s[..4]) && s[4] == '-' && AllDigits(s[5..7]) && s[7] == '-' && AllDigits(s[8..]) {
      forall i | 0 <= i < 10 ensures if i == 4 || i == 7 then s[i] == '-' else IsDigit(s[i]) {
        if i < 4 { assert s[i] == s[..4][i]; }
        else if 4 < i < 7 { assert s[i] == s[5..7][i - 5]; }
        else if 7 < i { assert s[i] == s[8..][i - 8]; }
      }
    }
  }

  /** "2024-13-40" has the shape although no such date exists; "06/01/2024"
      does not have it. */
  lemma DateShapeExamples()
    ensures IsDateShape("2024-13-40") && IsDateShape("2024-06-01")
    ensures !IsDateShape("06/01/2024") && !IsDateShape("")
  {
    assert "06/01/2024"[2] == '/';
  }

  // ---------------------------------------------------------------------
  // The list: find().sort({ createdAt: -1 })

  /** Newest first: createdAt never increases along the list. */
  predicate NewestFirstOrder(s: seq<Booking>) {
    forall i, j :: 0 <= i < j < |s| ==> s[i].createdAt >= s[j].createdAt
  }

  /** No document of s is newer than t. */
  predicate NoneNewerThan(s: seq<Booking>, t: nat) {
    forall i :: 0 <= i < |s| ==> s[i].createdAt <= t
  }

  /** One step of the sort: b placed before the first document no newer than it. */
  function InsertByAge(b: Booking, s: seq<Booking>): (r: seq<Booking>)
    ensures multiset(r) == multiset(s) + multiset{b}
  {
    if s == [] || b.createdAt >= s[0].createdAt then [b] + s
    else
      assert s == [s[0]] + s[1..];
      [s[0]] + InsertByAge(b, s[1..])
  }

  lemma {:induction false} InsertByAgeBound(b: Booking, s: seq<Booking>, t: nat)
    requires NoneNewerThan(s, t) && b.createdAt <= t
    ensures NoneNewerThan(InsertByAge(b, s), t)
  {
    if !(s == [] || b.createdAt >= s[0].createdAt) {
      InsertByAgeBound(b, s[1..], t);
    }
  }

  lemma {:induction false} InsertByAgeOrder(b: Booking, s: seq<Booking>)
    requires NewestFirstOrder(s)
    ensures NewestFirstOrder(InsertByAge(b, s))
  {
    if !(s == [] || b.createdAt >= s[0].createdAt) {
      InsertByAgeOrder(b, s[1..]);
      InsertByAgeBound(b, s[1..], s[0].createdAt);
    }
  }

  /** The documents of the collection, newest first. */
  function NewestFirst(records: seq<Booking>): (r: seq<Booking>)
    ensures NewestFirstOrder(r)
    ensures multiset(r) == multiset(records)
  {
    if records == [] then []
    else
      assert records == [records[0]] + records[1..];
      InsertByAgeOrder(records[0], NewestFirst(records[1..]));
      InsertByAge(records[0], NewestFirst(records[1..]))
  }
}
