/**
 * Worked examples of the pipeline on concrete data: a booking at
 * 2025-01-10T15:00:00Z whose one attendee account has the phone "+15550001"
 * and a 60-minute lead time. Instants are milliseconds since the epoch.
 */
module Scenarios {
  import opened Wrappers
  import opened Schema
  import opened AccountRepository
  import opened ScheduledBookings
  import opened CancelledBookings
  import opened ReminderCron

  const At1500 := 1736521200000  // 2025-01-10T15:00:00Z
  const At1400 := 1736517600000  // 2025-01-10T14:00:00Z
  const At140001 := 1736517601000  // 2025-01-10T14:00:01Z
  const At1800 := 1736532000000  // 2025-01-10T18:00:00Z
  const At1700 := 1736528400000  // 2025-01-10T17:00:00Z

  function Attendee(): Account {
    Account("acc-1", "user-1", "standard", 100, None, Some("+15550001"), Some(60))
  }

  function FirstReminder(): OutboxEntry {
    OutboxEntry(Reminder, Payload(Some("b1"), Some("+15550001"), Some("acc-1")), Some(At1400), false)
  }

  /**
   * Creating the booking queues one reminder at 14:00; a tick at 14:00:01 whose
   * call succeeds calls it, marks it processed and stamps the booking.
   */
  lemma CreatedBookingIsCalled()
    ensures ReminderEntries("b1", At1500, [Attendee()]) == [FirstReminder()]
    ensures IsDueScan([FirstReminder()], [0], At140001)
    ensures var bookings := Upsert(map[], "b1", At1500, "Olga", ["Olga", "Ann"]);
      var r := Sweep([FirstReminder()], [0], {}, At140001, bookings, [FirstReminder()]);
      && r.outbox == [FirstReminder().(processed := true)]
      && r.bookings["b1"].calledAt == Some(At140001)
      && r.calls == [0] && r.handled == 1
  {
    assert [Attendee()][..0] == [];
  }

  /**
   * Rescheduling to 18:00 before any tick does not retire the 14:00 reminder:
   * both it and the new 17:00 reminder are live, and at 17:00:00 both are due.
   */
  lemma RescheduleKeepsEarlierReminder()
    ensures var outbox := [FirstReminder()] + ReminderEntries("b1", At1800, [Attendee()]);
      && outbox == [FirstReminder(), FirstReminder().(reminderAt := Some(At1700))]
      && LiveReminders(outbox, "b1") == 2
      && IsDueScan(outbox, [0, 1], At1700)
  {
    assert [Attendee()][..0] == [];
    var outbox := [FirstReminder()] + ReminderEntries("b1", At1800, [Attendee()]);
    assert outbox[..1] == [FirstReminder()];
    assert [FirstReminder()][..0] == [];
  }

  /** Cancelling before the tick does not stop the call: the pending reminder is still called. */
  lemma CancelledBookingIsStillCalled()
    ensures var bookings := StampCalled(Upsert(map[], "b1", At1500, "Olga", ["Olga"]), "b1", At1400 - 1);
      var outbox := CancelOutbox([FirstReminder()], "b1");
      && IsDueScan(outbox, [0], At140001)
      && Sweep(outbox, [0], {}, At140001, bookings, outbox).calls == [0]
  {
    CancelOnlyAppendsMarker([FirstReminder()], "b1", "b1");
  }
}
