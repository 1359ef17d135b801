/**
 * The database the reminder pipeline runs against, with its three tables, and
 * the pipeline's operations on it: the two booking handlers, the lock client
 * and one tick of the reminder dispatcher.
 *
 * Each handler runs in one transaction: its writes are staged and become
 * visible together, or, when `reachable` says the database failed, not at all.
 */
module Pipeline {
  import opened Wrappers
  import opened AppErrors
  import opened JsText
  import opened Schema
  import opened AccountRepository
  import LockClient
  import opened ScheduledBookings
  import opened CancelledBookings
  import opened ReminderCron

  class Database {
    var bookings: map<string, Booking>
    var outbox: seq<OutboxEntry>
    var locks: LockClient.LockTable

    /** The pipeline's invariant: every reminder has its booking row. */
    ghost predicate Valid()
      reads this
    {
      BookedReminders(bookings, outbox)
    }

    constructor ()
      ensures Valid() && bookings == map[] && outbox == [] && locks == map[]
    {
      bookings, outbox, locks := map[], [], map[];
    }

    /**
     * A created or rescheduled booking: upsert the row, then append one
     * REMINDER per account with a phone number. Existing entries are left as
     * they are.
     */
    method ScheduleBooking(bookingId: string, startTime: int, organizer: string, attendees: seq<string>,
                           accounts: seq<Account>, reachable: bool) returns (r: Outcome<AppError>)
      modifies this
      ensures locks == old(locks)
      ensures r == if reachable then Pass else Fail(ScheduleFailed)
      ensures bookings == if reachable then Upsert(old(bookings), bookingId, startTime, organizer, attendees) else old(bookings)
      ensures outbox == if reachable then old(outbox) + ReminderEntries(bookingId, startTime, accounts) else old(outbox)
      ensures Evolves(old(outbox), outbox)
      ensures old(Valid()) ==> Valid()
    {
      var staged := bookings;
      if bookingId in staged {
        staged := staged[bookingId := staged[bookingId].(startTime := startTime, organizer := organizer,
                                                         attendees := attendees, calledAt := None)];
      } else {
        staged := staged[bookingId := Booking(startTime, organizer, attendees, None)];
      }
      var pending := outbox;
      for i := 0 to |accounts|
        invariant unchanged(this)
        invariant pending == outbox + ReminderEntries(bookingId, startTime, accounts[..i])
      {
        var account := accounts[i];
        ReminderEntriesStep(bookingId, startTime, accounts, i);
        if !Truthy(account.phoneNumber) {
          continue;
        }
        var minutes := account.remindBeforeMinutes.GetOr(180);
        var reminderAt := startTime - minutes * MsPerMinute;
        pending := pending + [OutboxEntry(Reminder, Payload(Some(bookingId), account.phoneNumber, Some(account.id)),
                                          Some(reminderAt), false)];
      }
      assert accounts[..|accounts|] == accounts;
      if !reachable {
        return Fail(ScheduleFailed);
      }
      if old(Valid()) {
        ScheduleKeepsRemindersBooked(bookings, outbox, bookingId, startTime, organizer, attendees, accounts);
      }
      bookings, outbox := staged, pending;
      r := Pass;
    }

    /**
     * A cancelled booking: stamp `calledAt` (an unknown booking is not an
     * error), run the retiring update, append a cancellation marker.
     */
    method CancelBooking(bookingId: string, now: int, reachable: bool) returns (r: Outcome<AppError>)
      modifies this
      ensures locks == old(locks)
      ensures r == if reachable then Pass else Fail(CancelFailed)
      ensures bookings == if reachable then StampCalled(old(bookings), bookingId, now) else old(bookings)
      ensures outbox == if reachable then CancelOutbox(old(outbox), bookingId) else old(outbox)
      ensures Evolves(old(outbox), outbox)
      ensures old(Valid()) ==> Valid()
    {
      var staged := bookings;
      if bookingId in staged {
        staged := staged[bookingId := staged[bookingId].(calledAt := Some(now))];
      }
      var pending := RetireReminders(outbox, bookingId);
      pending := pending + [CancelMarker(bookingId)];
      RetireChangesNothing(outbox, bookingId);
      if !reachable {
        return Fail(CancelFailed);
      }
      if old(Valid()) {
        CancelKeepsRemindersBooked(bookings, outbox, bookingId, now);
      }
      bookings, outbox := staged, pending;
      r := Pass;
    }

    /** `acquireLock`: insert the name; report whether the insert went through. */
    method AcquireLock(name: string, now: int, reachable: bool) returns (acquired: bool)
      modifies this`locks
      ensures acquired == LockClient.Acquire(old(locks), name, now, reachable).acquired
      ensures locks == LockClient.Acquire(old(locks), name, now, reachable).locks
    {
      if !reachable || name in locks {
        return false;
      }
      locks := locks[name := now];
      acquired := true;
    }

    /** `releaseLock`: delete the name's row. */
    method ReleaseLock(name: string) returns (r: Outcome<LockClient.StoreError>)
      modifies this`locks
      ensures (r, locks) == LockClient.Release(old(locks), name)
    {
      if name !in locks {
        return Fail(LockClient.RecordNotFound);
      }
      locks := locks - {name};
      r := Pass;
    }

    /**
     * One dispatcher tick. `reachable` says whether the database is up for
     * this tick (when it is not, the lock insert fails and the tick is
     * skipped); `scan` is the order in which the due-scan returned the due
     * entries; `failing` holds the entries whose call fails. Returns whether
     * the tick ran and the entries a call was placed for.
     */
    method ReminderTick(now: int, scan: seq<nat>, failing: set<nat>, reachable: bool) returns (ran: bool, calls: seq<nat>)
      requires IsDueScan(outbox, scan, now)
      modifies this
      ensures ran == (reachable && LockName !in old(locks))
      ensures !ran ==> bookings == old(bookings) && outbox == old(outbox) && locks == old(locks) && calls == []
      ensures ran ==>
        var s := Sweep(old(outbox), scan, failing, now, old(bookings), old(outbox));
        && bookings == s.bookings && outbox == s.outbox && calls == s.calls
        && locks == old(locks)
      ensures Evolves(old(outbox), outbox)
      ensures old(Valid()) ==> Valid()
    {
      ran := AcquireLock(LockName, now, reachable);
      if !ran {
        return false, [];
      }
      ghost var b0, o0 := bookings, outbox;
      calls := Dispatch(scan, failing, now);
      // the catch swallows an aborting error; the finally releases the lock either way
      var released := ReleaseLock(LockName);
      assert released == Pass;
      assert locks == old(locks)[LockName := now] - {LockName};
      SweepOnlyMarks(o0, scan, failing, now, b0, o0);
      if old(Valid()) {
        SweepKeepsRemindersBooked(o0, scan, failing, now, b0, o0);
      }
    }

    /**
     * The loop of a tick over the entries the due-scan returned, in the scan's
     * order. A failed call, or the booking update of a missing row, throws and
     * ends the loop; the calls placed so far stay placed.
     */
    method Dispatch(scan: seq<nat>, failing: set<nat>, now: int) returns (calls: seq<nat>)
      requires InRange(scan, outbox)
      modifies this`bookings, this`outbox
      ensures var s := Sweep(old(outbox), scan, failing, now, old(bookings), old(outbox));
        bookings == s.bookings && outbox == s.outbox && calls == s.calls
    {
      var snap := outbox;
      ghost var s := Sweep(snap, scan, failing, now, bookings, outbox);
      calls := [];
      var i := 0;
      while i < |scan|
        invariant 0 <= i <= |scan|
        invariant snap == old(outbox) && |outbox| == |snap|
        invariant ResumesAs(s, Sweep(snap, scan[i..], failing, now, bookings, outbox), calls, i)
      {
        ghost var r := Sweep(snap, scan[i..], failing, now, bookings, outbox);
        var called, aborted := Visit(snap, scan, i, failing, now);
        if aborted {
          calls := calls + [scan[i]];
          return;
        }
        var placed := if called then [scan[i]] else [];
        ResumeAfter(s, r, Sweep(snap, scan[i + 1..], failing, now, bookings, outbox), calls, placed, i);
        calls := calls + placed;
        i := i + 1;
      }
      assert scan[i..] == [];
    }

    /**
     * The loop body for the entry at position `i` of the scan: drop it when its
     * payload has no booking id, skip it when it has no phone, and otherwise
     * place the call; a successful call marks the entry processed and stamps
     * the booking. `aborted` says the call failed or the booking row is missing,
     * which throws out of the loop with the tables as they were.
     */
    method Visit(snap: seq<OutboxEntry>, scan: seq<nat>, i: nat, failing: set<nat>, now: int)
      returns (called: bool, aborted: bool)
      requires InRange(scan, snap) && |outbox| == |snap| && i < |scan|
      modifies this`bookings, this`outbox
      ensures |outbox| == |snap|
      ensures called == (Classify(snap[scan[i]]) == Call)
      ensures aborted ==> called && bookings == old(bookings) && outbox == old(outbox)
      ensures var r := Sweep(snap, scan[i..], failing, now, old(bookings), old(outbox));
        if aborted then r == SweepResult(old(bookings), old(outbox), [scan[i]], 0)
        else
          var r' := Sweep(snap, scan[i + 1..], failing, now, bookings, outbox);
          && r.bookings == r'.bookings && r.outbox == r'.outbox && r.handled == r'.handled + 1
          && r.calls == (if called then [scan[i]] else []) + r'.calls
    {
      var id := scan[i];
      var entry := snap[id];
      if !Truthy(entry.payload.bookingId) {
        SweepDropStep(snap, scan, failing, now, bookings, outbox, i);
        outbox := outbox[id := outbox[id].(processed := true)];
        return false, false;
      }
      var bookingId := entry.payload.bookingId.value;
      if !Truthy(entry.payload.phone) {
        SweepSkipStep(snap, scan, failing, now, bookings, outbox, i);
        return false, false;
      }
      SweepCallStep(snap, scan, failing, now, bookings, outbox, i);
      called := true;
      if id in failing || bookingId !in bookings {
        return true, true;
      }
      outbox := outbox[id := outbox[id].(processed := true)];
      bookings := bookings[bookingId := bookings[bookingId].(calledAt := Some(now))];
      aborted := false;
    }
  }
}
