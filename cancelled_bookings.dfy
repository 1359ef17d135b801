/**
 * The handler for a cancelled booking. In one transaction it stamps `calledAt`
 * on the booking's row (an unknown booking only logs a warning), runs an outbox
 * update meant to retire the booking's reminders, and appends a
 * BOOKING_CANCELLED marker.
 *
 * The retiring update selects REMINDER entries of the booking that are ALREADY
 * processed and sets them processed, so it changes nothing: reminders still
 * pending stay pending and will be called.
 */
module CancelledBookings {
  import opened Wrappers
  import opened AppErrors
  import opened Schema

  const CancelFailed := AppError(500, "Failed to handle cancelled booking")

  /** `booking.updateMany({where: {bookingId}, data: {calledAt}})`; bookingId is unique, so at most one row. */
  function StampCalled(bookings: map<string, Booking>, bookingId: string, now: int): (r: map<string, Booking>)
    ensures r.Keys == bookings.Keys
    ensures bookingId in bookings ==> r[bookingId] == bookings[bookingId].(calledAt := Some(now))
    ensures forall b :: b in bookings && b != bookingId ==> r[b] == bookings[b]
  {
    if bookingId in bookings then bookings[bookingId := bookings[bookingId].(calledAt := Some(now))] else bookings
  }

  /** The outbox update's filter: type REMINDER, processed true, payload bookingId equal to the booking's. */
  predicate RetireFilter(e: OutboxEntry, bookingId: string) {
    e.kind == Reminder && e.processed && e.payload.bookingId == Some(bookingId)
  }

  /** `outbox.updateMany` with that filter, setting processed to true. */
  function RetireReminders(outbox: seq<OutboxEntry>, bookingId: string): (r: seq<OutboxEntry>)
    ensures |r| == |outbox|
  {
    seq(|outbox|, i requires 0 <= i < |outbox| =>
      if RetireFilter(outbox[i], bookingId) then outbox[i].(processed := true) else outbox[i])
  }

  /** The marker appended on every cancellation. */
  function CancelMarker(bookingId: string): (m: OutboxEntry)
    ensures m.kind == BookingCancelled && m.payload.bookingId == Some(bookingId) && m.processed
    ensures forall b :: !IsLiveReminder(m, b)
    ensures forall now :: !IsDue(m, now)
  {
    OutboxEntry(BookingCancelled, Payload(Some(bookingId), None, None), None, true)
  }

  /** The outbox after a cancellation commits. */
  function CancelOutbox(outbox: seq<OutboxEntry>, bookingId: string): seq<OutboxEntry> {
    RetireReminders(outbox, bookingId) + [CancelMarker(bookingId)]
  }

  /** The retiring update, as written, leaves the outbox exactly as it was. */
  lemma RetireChangesNothing(outbox: seq<OutboxEntry>, bookingId: string)
    ensures RetireReminders(outbox, bookingId) == outbox
  {
    var r := RetireReminders(outbox, bookingId);
    forall i | 0 <= i < |outbox|
      ensures r[i] == outbox[i]
    {
      if RetireFilter(outbox[i], bookingId) {
        assert outbox[i].(processed := true) == outbox[i];
      }
    }
  }

  /**
   * A cancellation grows the outbox by exactly its marker: no entry changes,
   * so every live reminder of the cancelled booking (of any booking) stays live,
   * and the booking gains one more marker.
   */
  lemma CancelOnlyAppendsMarker(outbox: seq<OutboxEntry>, bookingId: string, other: string)
    ensures CancelOutbox(outbox, bookingId) == outbox + [CancelMarker(bookingId)]
    ensures LiveReminders(CancelOutbox(outbox, bookingId), other) == LiveReminders(outbox, other)
    ensures CancelMarkers(CancelOutbox(outbox, bookingId), bookingId) == CancelMarkers(outbox, bookingId) + 1
  {
    RetireChangesNothing(outbox, bookingId);
    var after := outbox + [CancelMarker(bookingId)];
    assert after[..|after| - 1] == outbox;
  }

  /** Cancelling keeps every reminder attached to a booking row. */
  lemma CancelKeepsRemindersBooked(bookings: map<string, Booking>, outbox: seq<OutboxEntry>, bookingId: string, now: int)
    requires BookedReminders(bookings, outbox)
    ensures BookedReminders(StampCalled(bookings, bookingId, now), CancelOutbox(outbox, bookingId))
  {
    RetireChangesNothing(outbox, bookingId);
  }
}
