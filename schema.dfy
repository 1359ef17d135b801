/**
 * The three tables of the reminder pipeline and the predicates over them that
 * every operation is stated with.
 *
 * Instants are integers counting milliseconds, as a JavaScript `Date` does.
 * An outbox entry's id is its position in the outbox: rows are only ever
 * appended, never deleted.
 */
module Schema {
  import opened Wrappers
  import opened JsText

  /** Milliseconds in a minute, for turning a lead time in minutes into an instant offset. */
  const MsPerMinute: int := 60_000

  /** A row of the bookings table (its key, bookingId, is the key of the map holding it). */
  datatype Booking = Booking(startTime: int, organizer: string, attendees: seq<string>, calledAt: Option<int>)

  /** The `type` column of an outbox entry: the two values the code writes. */
  datatype EntryKind = Reminder | BookingCancelled

  /** The JSON payload of an outbox entry; each field may be missing. */
  datatype Payload = Payload(bookingId: Option<string>, phone: Option<string>, accountId: Option<string>)

  /** A row of the outbox table; `reminderAt` is null on cancellation markers. */
  datatype OutboxEntry = OutboxEntry(kind: EntryKind, payload: Payload, reminderAt: Option<int>, processed: bool)

  /** The dispatcher's scan filter: an unprocessed REMINDER whose instant has come. */
  predicate IsDue(e: OutboxEntry, now: int) {
    e.kind == Reminder && !e.processed && e.reminderAt.Some? && e.reminderAt.value <= now
  }

  /** A REMINDER for the given booking that has not been processed yet. */
  predicate IsLiveReminder(e: OutboxEntry, bookingId: string) {
    e.kind == Reminder && !e.processed && e.payload.bookingId == Some(bookingId)
  }

  /**
   * How the outbox may change: existing rows stay where they are, and of each
   * row only `processed` may change, and only from false to true.
   */
  ghost predicate Evolves(before: seq<OutboxEntry>, after: seq<OutboxEntry>) {
    && |before| <= |after|
    && forall i :: 0 <= i < |before| ==>
         && after[i] == before[i].(processed := after[i].processed)
         && (before[i].processed ==> after[i].processed)
  }

  /**
   * Every REMINDER that names a booking names one that is in the bookings table.
   * The handler that writes reminders writes their booking in the same transaction,
   * and nothing deletes bookings.
   */
  ghost predicate BookedReminders(bookings: map<string, Booking>, outbox: seq<OutboxEntry>) {
    forall i :: 0 <= i < |outbox| && outbox[i].kind == Reminder && Truthy(outbox[i].payload.bookingId) ==>
      outbox[i].payload.bookingId.value in bookings
  }

  /** Number of live reminders for a booking. */
  function LiveReminders(outbox: seq<OutboxEntry>, bookingId: string): nat {
    if outbox == [] then 0
    else LiveReminders(outbox[..|outbox| - 1], bookingId) + (if IsLiveReminder(outbox[|outbox| - 1], bookingId) then 1 else 0)
  }

  /** Number of cancellation markers for a booking. */
  function CancelMarkers(outbox: seq<OutboxEntry>, bookingId: string): nat {
    if outbox == [] then 0
    else
      var e := outbox[|outbox| - 1];
      CancelMarkers(outbox[..|outbox| - 1], bookingId) + (if e.kind == BookingCancelled && e.payload.bookingId == Some(bookingId) then 1 else 0)
  }

  /** Counting over a concatenation adds up. */
  lemma {:induction false} LiveRemindersAppend(a: seq<OutboxEntry>, b: seq<OutboxEntry>, bookingId: string)
    ensures LiveReminders(a + b, bookingId) == LiveReminders(a, bookingId) + LiveReminders(b, bookingId)
    decreases |b|
  {
    if b == [] {
      assert a + b == a;
    } else {
      var n := |b| - 1;
      assert (a + b)[..|a + b| - 1] == a + b[..n];
      LiveRemindersAppend(a, b[..n], bookingId);
    }
  }

  lemma {:induction false} CancelMarkersAppend(a: seq<OutboxEntry>, b: seq<OutboxEntry>, bookingId: string)
    ensures CancelMarkers(a + b, bookingId) == CancelMarkers(a, bookingId) + CancelMarkers(b, bookingId)
    decreases |b|
  {
    if b == [] {
      assert a + b == a;
    } else {
      var n := |b| - 1;
      assert (a + b)[..|a + b| - 1] == a + b[..n];
      CancelMarkersAppend(a, b[..n], bookingId);
    }
  }
}
