/**
 * One tick of the reminder dispatcher, after it holds the lock: the entries the
 * due-scan returned are visited in the order the scan returned them. An entry
 * without a booking id is dropped (marked processed, no call); one without a
 * phone is skipped (left as it is, no call); any other is called. A call that
 * fails throws, which ends the whole tick; a call that succeeds marks the entry
 * processed and stamps the booking's `calledAt` in one transaction, and that
 * transaction fails, ending the tick too, when the booking row is missing.
 *
 * `Sweep` is the tick as a function of the scan snapshot, the scan order, the
 * set of entries whose call fails, and the tables.
 */
module ReminderCron {
  import opened Wrappers
  import opened JsText
  import opened Schema

  const LockName := "reminder-cron"

  /** What the loop body does with an entry, judged from its payload. */
  datatype Disposition = Drop | Skip | Call

  function Classify(e: OutboxEntry): (d: Disposition)
    ensures d == Drop <==> !Truthy(e.payload.bookingId)
    ensures d == Skip <==> Truthy(e.payload.bookingId) && !Truthy(e.payload.phone)
    ensures d == Call <==> Truthy(e.payload.bookingId) && Truthy(e.payload.phone)
  {
    if !Truthy(e.payload.bookingId) then Drop
    else if !Truthy(e.payload.phone) then Skip
    else Call
  }

  /**
   * The tables after the loop, the entries a call was placed for (in order), and
   * how many scanned entries were dealt with before the tick was aborted
   * (all of them when it was not).
   */
  datatype SweepResult = SweepResult(bookings: map<string, Booking>, outbox: seq<OutboxEntry>, calls: seq<nat>, handled: nat)

  predicate InRange(scan: seq<nat>, snap: seq<OutboxEntry>) {
    forall k :: 0 <= k < |scan| ==> scan[k] < |snap|
  }

  predicate Distinct(scan: seq<nat>) {
    forall j, k :: 0 <= j < k < |scan| ==> scan[j] != scan[k]
  }

  /** The due-scan's result: every due entry exactly once, in an order the database chooses. */
  predicate IsDueScan(outbox: seq<OutboxEntry>, scan: seq<nat>, now: int)
    ensures IsDueScan(outbox, scan, now) ==> forall k :: 0 <= k < |scan| ==> scan[k] < |outbox| && IsDue(outbox[scan[k]], now)
  {
    && InRange(scan, outbox)
    && Distinct(scan)
    && forall i :: 0 <= i < |outbox| ==> (i in scan <==> IsDue(outbox[i], now))
  }

  /** A duplicate-free sequence holds each of its elements once. */
  lemma {:induction false} DistinctOnce(scan: seq<nat>, x: nat)
    requires Distinct(scan)
    ensures multiset(scan)[x] == if x in scan then 1 else 0
  {
    if scan != [] {
      var rest := scan[1..];
      assert scan == [scan[0]] + rest;
      assert Distinct(rest);
      assert scan[0] !in rest by {
        forall j | 0 <= j < |rest| ensures rest[j] != scan[0] { assert scan[j + 1] != scan[0]; }
      }
      DistinctOnce(rest, x);
    }
  }

  /** Two due-scans of the same outbox list the same entries: they differ at most in order. */
  lemma DueScansAgree(outbox: seq<OutboxEntry>, scan1: seq<nat>, scan2: seq<nat>, now: int)
    requires IsDueScan(outbox, scan1, now) && IsDueScan(outbox, scan2, now)
    ensures multiset(scan1) == multiset(scan2) && |scan1| == |scan2|
  {
    forall x: nat ensures multiset(scan1)[x] == multiset(scan2)[x] {
      DistinctOnce(scan1, x);
      DistinctOnce(scan2, x);
      assert x in scan1 ==> x < |outbox|;
      assert x in scan2 ==> x < |outbox|;
    }
    assert multiset(scan1) == multiset(scan2);
    assert |multiset(scan1)| == |scan1| && |multiset(scan2)| == |scan2|;
  }

  /** `outbox.update({where: {id}, data: {processed: true}})`. */
  function MarkProcessed(outbox: seq<OutboxEntry>, id: nat): (r: seq<OutboxEntry>)
    requires id < |outbox|
    ensures |r| == |outbox| && r[id].processed
    ensures r[id] == outbox[id].(processed := true)
    ensures forall j :: 0 <= j < |outbox| && j != id ==> r[j] == outbox[j]
  {
    outbox[id := outbox[id].(processed := true)]
  }

  /** `booking.update({where: {bookingId}, data: {calledAt}})` on a row that exists. */
  function Stamp(bookings: map<string, Booking>, bookingId: string, now: int): (r: map<string, Booking>)
    requires bookingId in bookings
    ensures r.Keys == bookings.Keys && r[bookingId].calledAt == Some(now)
    ensures r[bookingId] == bookings[bookingId].(calledAt := Some(now))
    ensures forall b :: b in bookings && b != bookingId ==> r[b] == bookings[b]
  {
    bookings[bookingId := bookings[bookingId].(calledAt := Some(now))]
  }

  /**
   * The loop over the scan. `snap` is the outbox as the scan read it; payloads
   * are taken from there, updates go to `outbox`.
   */
  function Sweep(snap: seq<OutboxEntry>, scan: seq<nat>, failing: set<nat>, now: int,
                 bookings: map<string, Booking>, outbox: seq<OutboxEntry>): (r: SweepResult)
    requires InRange(scan, snap) && |outbox| == |snap|
    ensures |r.outbox| == |outbox| && r.bookings.Keys == bookings.Keys && r.handled <= |scan|
    decreases |scan|
  {
    if scan == [] then SweepResult(bookings, outbox, [], 0)
    else
      var id := scan[0];
      var e := snap[id];
      match Classify(e)
      case Drop =>
        var r := Sweep(snap, scan[1..], failing, now, bookings, MarkProcessed(outbox, id));
        r.(handled := r.handled + 1)
      case Skip =>
        var r := Sweep(snap, scan[1..], failing, now, bookings, outbox);
        r.(handled := r.handled + 1)
      case Call =>
        var b := e.payload.bookingId.value;
        if id in failing || b !in bookings then
          SweepResult(bookings, outbox, [id], 0)
        else
          var r := Sweep(snap, scan[1..], failing, now, Stamp(bookings, b, now), MarkProcessed(outbox, id));
          r.(calls := [id] + r.calls, handled := r.handled + 1)
  }

  /** A step of the sweep at position `i` of the scan that drops the entry. */
  lemma SweepDropStep(snap: seq<OutboxEntry>, scan: seq<nat>, failing: set<nat>, now: int,
                      bookings: map<string, Booking>, outbox: seq<OutboxEntry>, i: nat)
    requires InRange(scan, snap) && |outbox| == |snap| && i < |scan| && Classify(snap[scan[i]]) == Drop
    ensures var r := Sweep(snap, scan[i + 1..], failing, now, bookings, MarkProcessed(outbox, scan[i]));
      Sweep(snap, scan[i..], failing, now, bookings, outbox) == r.(handled := r.handled + 1)
  {
    assert scan[i..][0] == scan[i] && scan[i..][1..] == scan[i + 1..];
  }

  /** A step of the sweep at position `i` of the scan that skips the entry. */
  lemma SweepSkipStep(snap: seq<OutboxEntry>, scan: seq<nat>, failing: set<nat>, now: int,
                      bookings: map<string, Booking>, outbox: seq<OutboxEntry>, i: nat)
    requires InRange(scan, snap) && |outbox| == |snap| && i < |scan| && Classify(snap[scan[i]]) == Skip
    ensures var r := Sweep(snap, scan[i + 1..], failing, now, bookings, outbox);
      Sweep(snap, scan[i..], failing, now, bookings, outbox) == r.(handled := r.handled + 1)
  {
    assert scan[i..][0] == scan[i] && scan[i..][1..] == scan[i + 1..];
  }

  /** A step of the sweep at position `i` of the scan that calls the entry: it aborts, or goes on. */
  lemma SweepCallStep(snap: seq<OutboxEntry>, scan: seq<nat>, failing: set<nat>, now: int,
                      bookings: map<string, Booking>, outbox: seq<OutboxEntry>, i: nat)
    requires InRange(scan, snap) && |outbox| == |snap| && i < |scan| && Classify(snap[scan[i]]) == Call
    ensures var id := scan[i]; var b := snap[id].payload.bookingId.value;
      if id in failing || b !in bookings then
        Sweep(snap, scan[i..], failing, now, bookings, outbox) == SweepResult(bookings, outbox, [id], 0)
      else
        var r := Sweep(snap, scan[i + 1..], failing, now, Stamp(bookings, b, now), MarkProcessed(outbox, id));
        Sweep(snap, scan[i..], failing, now, bookings, outbox) == r.(calls := [id] + r.calls, handled := r.handled + 1)
  {
    assert scan[i..][0] == scan[i] && scan[i..][1..] == scan[i + 1..];
  }

  /**
   * How the loop in the dispatcher resumes the sweep: the whole sweep `s` is the
   * sweep `r` over the scan from position `i` on, after the calls placed so far.
   */
  predicate ResumesAs(s: SweepResult, r: SweepResult, calls: seq<nat>, i: nat) {
    s.bookings == r.bookings && s.outbox == r.outbox && s.calls == calls + r.calls && s.handled == r.handled + i
  }

  /** One more entry dealt with, by a step from `r` to `r'`, keeps the sweep resumable. */
  lemma ResumeAfter(s: SweepResult, r: SweepResult, r': SweepResult, calls: seq<nat>, placed: seq<nat>, i: nat)
    requires ResumesAs(s, r, calls, i)
    requires r.bookings == r'.bookings && r.outbox == r'.outbox && r.handled == r'.handled + 1 && r.calls == placed + r'.calls
    ensures ResumesAs(s, r', calls + placed, i + 1)
  {
    assert calls + (placed + r'.calls) == calls + placed + r'.calls;
  }

  /** The ids, among `ids`, of entries the loop places a call for. */
  function CallIds(snap: seq<OutboxEntry>, ids: seq<nat>): seq<nat>
    requires InRange(ids, snap)
  {
    if ids == [] then []
    else (if Classify(snap[ids[0]]) == Call then [ids[0]] else []) + CallIds(snap, ids[1..])
  }

  /**
   * The sweep only sets `processed` flags, never clears one, and touches no
   * entry outside the scan; a booking either stays as it was or gets
   * `calledAt` stamped with the tick's instant.
   */
  lemma {:induction false} SweepOnlyMarks(snap: seq<OutboxEntry>, scan: seq<nat>, failing: set<nat>, now: int,
                                          bookings: map<string, Booking>, outbox: seq<OutboxEntry>)
    requires InRange(scan, snap) && |outbox| == |snap|
    ensures var r := Sweep(snap, scan, failing, now, bookings, outbox);
      && Evolves(outbox, r.outbox)
      && (forall j :: 0 <= j < |outbox| && j !in scan ==> r.outbox[j] == outbox[j])
      && (forall b :: b in bookings ==> r.bookings[b] == bookings[b] || r.bookings[b] == bookings[b].(calledAt := Some(now)))
    decreases |scan|
  {
    if scan != [] {
      var id := scan[0];
      var e := snap[id];
      assert forall j :: j in scan[1..] ==> j in scan;
      match Classify(e)
      case Drop =>
        SweepOnlyMarks(snap, scan[1..], failing, now, bookings, MarkProcessed(outbox, id));
      case Skip =>
        SweepOnlyMarks(snap, scan[1..], failing, now, bookings, outbox);
      case Call =>
        var b := e.payload.bookingId.value;
        if !(id in failing || b !in bookings) {
          SweepOnlyMarks(snap, scan[1..], failing, now, Stamp(bookings, b, now), MarkProcessed(outbox, id));
        }
    }
  }

  /**
   * The fate of the k-th scanned entry. Before the abort point a dropped or
   * called entry is marked processed and a skipped one is left alone; a called
   * one had a call that succeeded and its booking's `calledAt` is stamped.
   * From the abort point on, entries are left exactly as they were.
   */
  lemma {:induction false} SweepEntryFate(snap: seq<OutboxEntry>, scan: seq<nat>, failing: set<nat>, now: int,
                                          bookings: map<string, Booking>, outbox: seq<OutboxEntry>, k: nat)
    requires InRange(scan, snap) && Distinct(scan) && |outbox| == |snap| && k < |scan|
    ensures var r := Sweep(snap, scan, failing, now, bookings, outbox); var id := scan[k];
      && (k < r.handled ==>
            r.outbox[id] == if Classify(snap[id]) == Skip then outbox[id] else outbox[id].(processed := true))
      && (k < r.handled && Classify(snap[id]) == Call ==>
            && id !in failing
            && snap[id].payload.bookingId.value in bookings
            && r.bookings[snap[id].payload.bookingId.value].calledAt == Some(now))
      && (k >= r.handled ==> r.outbox[id] == outbox[id])
    decreases |scan|, 1
  {
    var id := scan[0];
    var r := Sweep(snap, scan, failing, now, bookings, outbox);
    match Classify(snap[id])
    case Drop =>
      SweepEntryFateStep(snap, scan, failing, now, bookings, outbox, bookings, MarkProcessed(outbox, id), r, k);
    case Skip =>
      SweepEntryFateStep(snap, scan, failing, now, bookings, outbox, bookings, outbox, r, k);
    case Call =>
      var b := snap[id].payload.bookingId.value;
      if !(id in failing || b !in bookings) {
        SweepEntryFateStep(snap, scan, failing, now, bookings, outbox, Stamp(bookings, b, now), MarkProcessed(outbox, id), r, k);
      }
  }

  /**
   * The inductive step of `SweepEntryFate`: the first entry was dealt with,
   * leaving tables `bs` and `o`, and the sweep went on over the rest of the scan.
   */
  lemma {:induction false} SweepEntryFateStep(snap: seq<OutboxEntry>, scan: seq<nat>, failing: set<nat>, now: int,
                                              bookings: map<string, Booking>, outbox: seq<OutboxEntry>,
                                              bs: map<string, Booking>, o: seq<OutboxEntry>, r: SweepResult, k: nat)
    requires InRange(scan, snap) && Distinct(scan) && |outbox| == |snap| && |o| == |snap| && k < |scan|
    requires bs.Keys == bookings.Keys
    requires o[scan[0]] == if Classify(snap[scan[0]]) == Skip then outbox[scan[0]] else outbox[scan[0]].(processed := true)
    requires forall j :: 0 <= j < |o| && j != scan[0] ==> o[j] == outbox[j]
    requires Classify(snap[scan[0]]) == Call ==>
      && scan[0] !in failing
      && snap[scan[0]].payload.bookingId.value in bookings
      && bs[snap[scan[0]].payload.bookingId.value].calledAt == Some(now)
    requires var r' := Sweep(snap, scan[1..], failing, now, bs, o);
      r.outbox == r'.outbox && r.bookings == r'.bookings && r.handled == r'.handled + 1
    ensures var id := scan[k];
      && (k < r.handled ==>
            r.outbox[id] == if Classify(snap[id]) == Skip then outbox[id] else outbox[id].(processed := true))
      && (k < r.handled && Classify(snap[id]) == Call ==>
            && id !in failing
            && snap[id].payload.bookingId.value in bookings
            && r.bookings[snap[id].payload.bookingId.value].calledAt == Some(now))
      && (k >= r.handled ==> r.outbox[id] == outbox[id])
    decreases |scan|, 0
  {
    var id := scan[0];
    var rest := scan[1..];
    assert Distinct(rest);
    assert id !in rest by {
      forall j | 0 <= j < |rest| ensures rest[j] != id { assert scan[j + 1] != scan[0]; }
    }
    if k == 0 {
      SweepOnlyMarks(snap, rest, failing, now, bs, o);
    } else {
      assert scan[k] == rest[k - 1] && scan[k] != id;
      SweepEntryFate(snap, rest, failing, now, bs, o, k - 1);
    }
  }

  /**
   * The calls placed are the callable entries dealt with before the abort point,
   * in scan order, followed, on an abort, by the entry whose call or booking
   * update failed.
   */
  lemma {:induction false} SweepCalls(snap: seq<OutboxEntry>, scan: seq<nat>, failing: set<nat>, now: int,
                                      bookings: map<string, Booking>, outbox: seq<OutboxEntry>)
    requires InRange(scan, snap) && |outbox| == |snap|
    ensures var r := Sweep(snap, scan, failing, now, bookings, outbox);
      r.calls == CallIds(snap, scan[..r.handled]) + (if r.handled < |scan| then [scan[r.handled]] else [])
    decreases |scan|, 1
  {
    if scan != [] {
      var id := scan[0];
      var rest := scan[1..];
      var r := Sweep(snap, scan, failing, now, bookings, outbox);
      match Classify(snap[id])
      case Drop =>
        SweepCallsStep(snap, scan, failing, now, bookings, MarkProcessed(outbox, id), r);
      case Skip =>
        SweepCallsStep(snap, scan, failing, now, bookings, outbox, r);
      case Call =>
        var b := snap[id].payload.bookingId.value;
        if id in failing || b !in bookings {
          assert scan[..0] == [];
        } else {
          SweepCallsStep(snap, scan, failing, now, Stamp(bookings, b, now), MarkProcessed(outbox, id), r);
        }
    }
  }

  /**
   * The inductive step of `SweepCalls`: when the sweep goes on past the first
   * entry with tables `bs` and `o`, the claim for the rest of the scan gives the
   * claim for the whole.
   */
  lemma {:induction false} SweepCallsStep(snap: seq<OutboxEntry>, scan: seq<nat>, failing: set<nat>, now: int,
                                          bs: map<string, Booking>, o: seq<OutboxEntry>, r: SweepResult)
    requires InRange(scan, snap) && |o| == |snap| && scan != []
    requires var r' := Sweep(snap, scan[1..], failing, now, bs, o);
      r == r'.(calls := (if Classify(snap[scan[0]]) == Call then [scan[0]] else []) + r'.calls, handled := r'.handled + 1)
    ensures r.handled <= |scan|
    ensures r.calls == CallIds(snap, scan[..r.handled]) + (if r.handled < |scan| then [scan[r.handled]] else [])
    decreases |scan|, 0
  {
    var id, rest := scan[0], scan[1..];
    var r' := Sweep(snap, rest, failing, now, bs, o);
    SweepCalls(snap, rest, failing, now, bs, o);
    var head := if Classify(snap[id]) == Call then [id] else [];
    var tail := if r'.handled < |rest| then [rest[r'.handled]] else [];
    assert scan[..r.handled] == [id] + rest[..r'.handled];
    CallIdsCons(snap, id, rest[..r'.handled]);
    assert head + (CallIds(snap, rest[..r'.handled]) + tail) == (head + CallIds(snap, rest[..r'.handled])) + tail;
  }

  lemma CallIdsCons(snap: seq<OutboxEntry>, id: nat, ids: seq<nat>)
    requires id < |snap| && InRange(ids, snap)
    ensures InRange([id] + ids, snap)
    ensures CallIds(snap, [id] + ids) == (if Classify(snap[id]) == Call then [id] else []) + CallIds(snap, ids)
  {
    assert ([id] + ids)[1..] == ids;
  }

  /** Whether the loop calls, for booking `b`, one of the entries `ids`. */
  predicate CallsBooking(snap: seq<OutboxEntry>, ids: seq<nat>, b: string)
    requires InRange(ids, snap)
  {
    ids != [] && ((Classify(snap[ids[0]]) == Call && snap[ids[0]].payload.bookingId == Some(b)) || CallsBooking(snap, ids[1..], b))
  }

  /**
   * The fate of a booking row: its `calledAt` is stamped with the tick's instant
   * exactly when an entry for it was called before the abort point; otherwise
   * the row is left exactly as it was.
   */
  lemma {:induction false} SweepBookingFate(snap: seq<OutboxEntry>, scan: seq<nat>, failing: set<nat>, now: int,
                                            bookings: map<string, Booking>, outbox: seq<OutboxEntry>, b: string)
    requires InRange(scan, snap) && |outbox| == |snap| && b in bookings
    ensures var r := Sweep(snap, scan, failing, now, bookings, outbox);
      r.bookings[b] == if CallsBooking(snap, scan[..r.handled], b) then bookings[b].(calledAt := Some(now)) else bookings[b]
    decreases |scan|, 1
  {
    assert scan[..0] == [];
    if scan != [] {
      var id := scan[0];
      var r := Sweep(snap, scan, failing, now, bookings, outbox);
      match Classify(snap[id])
      case Drop =>
        SweepBookingFateStep(snap, scan, failing, now, bookings, bookings, MarkProcessed(outbox, id), r, b);
      case Skip =>
        SweepBookingFateStep(snap, scan, failing, now, bookings, bookings, outbox, r, b);
      case Call =>
        var c := snap[id].payload.bookingId.value;
        if !(id in failing || c !in bookings) {
          SweepBookingFateStep(snap, scan, failing, now, bookings, Stamp(bookings, c, now), MarkProcessed(outbox, id), r, b);
        }
    }
  }

  /**
   * The inductive step of `SweepBookingFate`: the first entry was dealt with,
   * leaving booking rows `bs`, and the sweep went on over the rest of the scan.
   */
  lemma {:induction false} SweepBookingFateStep(snap: seq<OutboxEntry>, scan: seq<nat>, failing: set<nat>, now: int,
                                                bookings: map<string, Booking>, bs: map<string, Booking>,
                                                o: seq<OutboxEntry>, r: SweepResult, b: string)
    requires InRange(scan, snap) && |o| == |snap| && scan != [] && b in bookings && bs.Keys == bookings.Keys
    requires bs[b] == if Classify(snap[scan[0]]) == Call && snap[scan[0]].payload.bookingId == Some(b)
                      then bookings[b].(calledAt := Some(now)) else bookings[b]
    requires var r' := Sweep(snap, scan[1..], failing, now, bs, o);
      r.bookings == r'.bookings && r.handled == r'.handled + 1
    ensures r.bookings[b] == if CallsBooking(snap, scan[..r.handled], b) then bookings[b].(calledAt := Some(now)) else bookings[b]
    decreases |scan|, 0
  {
    var rest := scan[1..];
    var r' := Sweep(snap, rest, failing, now, bs, o);
    SweepBookingFate(snap, rest, failing, now, bs, o, b);
    assert scan[..r.handled] == [scan[0]] + rest[..r'.handled];
    assert scan[..r.handled][1..] == rest[..r'.handled];
  }

  /** The tick is aborted only at a callable entry whose call failed or whose booking row is missing. */
  lemma {:induction false} SweepAbortCause(snap: seq<OutboxEntry>, scan: seq<nat>, failing: set<nat>, now: int,
                                           bookings: map<string, Booking>, outbox: seq<OutboxEntry>)
    requires InRange(scan, snap) && |outbox| == |snap|
    ensures var r := Sweep(snap, scan, failing, now, bookings, outbox);
      r.handled < |scan| ==>
        && Classify(snap[scan[r.handled]]) == Call
        && (scan[r.handled] in failing || snap[scan[r.handled]].payload.bookingId.value !in bookings)
    decreases |scan|
  {
    if scan != [] {
      var id := scan[0];
      var e := snap[id];
      match Classify(e)
      case Drop =>
        SweepAbortCause(snap, scan[1..], failing, now, bookings, MarkProcessed(outbox, id));
      case Skip =>
        SweepAbortCause(snap, scan[1..], failing, now, bookings, outbox);
      case Call =>
        var b := e.payload.bookingId.value;
        if !(id in failing || b !in bookings) {
          SweepAbortCause(snap, scan[1..], failing, now, Stamp(bookings, b, now), MarkProcessed(outbox, id));
        }
    }
  }

  /**
   * From a state where every reminder has its booking row, a tick over a due
   * scan is aborted only by a failed call, and that entry and every later one in
   * the scan are still due: the next tick selects them again. The failed entry's
   * booking keeps `calledAt` as it was, unless an earlier entry for the same
   * booking was called in this tick.
   */
  lemma FailedCallLeavesRestDue(scan: seq<nat>, failing: set<nat>, now: int,
                                bookings: map<string, Booking>, outbox: seq<OutboxEntry>)
    requires IsDueScan(outbox, scan, now) && BookedReminders(bookings, outbox)
    ensures var r := Sweep(outbox, scan, failing, now, bookings, outbox);
      && (r.handled < |scan| ==> scan[r.handled] in failing)
      && (forall k :: r.handled <= k < |scan| ==> IsDue(r.outbox[scan[k]], now))
      && (r.handled < |scan| ==>
            forall b :: outbox[scan[r.handled]].payload.bookingId == Some(b) && !CallsBooking(outbox, scan[..r.handled], b) ==>
              b in r.bookings && r.bookings[b] == bookings[b])
  {
    var r := Sweep(outbox, scan, failing, now, bookings, outbox);
    SweepAbortCause(outbox, scan, failing, now, bookings, outbox);
    if r.handled < |scan| {
      var id := scan[r.handled];
      assert id in scan;
      forall b | outbox[id].payload.bookingId == Some(b) && !CallsBooking(outbox, scan[..r.handled], b)
        ensures b in r.bookings && r.bookings[b] == bookings[b]
      {
        SweepBookingFate(outbox, scan, failing, now, bookings, outbox, b);
      }
    }
    forall k | r.handled <= k < |scan|
      ensures IsDue(r.outbox[scan[k]], now)
    {
      SweepEntryFate(outbox, scan, failing, now, bookings, outbox, k);
      assert scan[k] in scan;
    }
  }

  /** With no failing call, a tick from a state whose reminders all have bookings deals with every due entry. */
  lemma SweepWithoutFailuresCompletes(scan: seq<nat>, failing: set<nat>, now: int,
                                      bookings: map<string, Booking>, outbox: seq<OutboxEntry>)
    requires IsDueScan(outbox, scan, now) && BookedReminders(bookings, outbox)
    requires forall k :: 0 <= k < |scan| ==> scan[k] !in failing
    ensures Sweep(outbox, scan, failing, now, bookings, outbox).handled == |scan|
  {
    FailedCallLeavesRestDue(scan, failing, now, bookings, outbox);
  }

  /** A tick keeps every reminder attached to a booking row. */
  lemma SweepKeepsRemindersBooked(snap: seq<OutboxEntry>, scan: seq<nat>, failing: set<nat>, now: int,
                                  bookings: map<string, Booking>, outbox: seq<OutboxEntry>)
    requires InRange(scan, snap) && |outbox| == |snap| && BookedReminders(bookings, outbox)
    ensures var r := Sweep(snap, scan, failing, now, bookings, outbox); BookedReminders(r.bookings, r.outbox)
  {
    SweepOnlyMarks(snap, scan, failing, now, bookings, outbox);
  }
}
