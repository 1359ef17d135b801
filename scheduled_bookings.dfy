/**
 * The handler for a created or rescheduled booking. In one transaction it
 * upserts the booking row and then appends one REMINDER outbox entry for every
 * attendee account that has a phone number, due the account's lead time (180
 * minutes unless the account overrides it) before the meeting.
 *
 * Nothing here looks at the entries already in the outbox: a reschedule or a
 * redelivered event adds a fresh set of reminders beside the earlier ones, and
 * two accounts with one phone number get one reminder each.
 */
module ScheduledBookings {
  import opened Wrappers
  import opened AppErrors
  import opened JsText
  import opened Schema
  import opened AccountRepository

  const DefaultLeadMinutes := 180
  const ScheduleFailed := AppError(500, "Failed to handle scheduled booking")

  predicate HasPhone(a: Account) {
    Truthy(a.phoneNumber)
  }

  /** `account.remindBeforeMinutes ?? 180`: only a missing value falls back, an explicit 0 does not. */
  function LeadMinutes(a: Account): int {
    a.remindBeforeMinutes.GetOr(DefaultLeadMinutes)
  }

  /** The REMINDER entry written for one phone-bearing account. */
  function ReminderFor(bookingId: string, startTime: int, a: Account): OutboxEntry {
    OutboxEntry(Reminder, Payload(Some(bookingId), a.phoneNumber, Some(a.id)),
                Some(startTime - LeadMinutes(a) * MsPerMinute), false)
  }

  /** The accounts the loop writes a reminder for, in their order. */
  function PhoneAccounts(accounts: seq<Account>): (r: seq<Account>)
    ensures |r| <= |accounts|
    ensures forall a :: a in r <==> a in accounts && HasPhone(a)
  {
    if accounts == [] then []
    else
      var last := accounts[|accounts| - 1];
      var init := accounts[..|accounts| - 1];
      assert accounts == init + [last];
      PhoneAccounts(init) + (if HasPhone(last) then [last] else [])
  }

  /**
   * The entries the loop appends for a prefix of the accounts: the loop
   * invariant's view of the outbox, one account at a time.
   */
  function ReminderEntries(bookingId: string, startTime: int, accounts: seq<Account>): (r: seq<OutboxEntry>)
    ensures |r| <= |accounts|
    ensures forall i :: 0 <= i < |r| ==>
      && r[i].kind == Reminder && !r[i].processed
      && r[i].payload.bookingId == Some(bookingId) && Truthy(r[i].payload.phone)
  {
    if accounts == [] then []
    else
      var last := accounts[|accounts| - 1];
      ReminderEntries(bookingId, startTime, accounts[..|accounts| - 1])
        + (if HasPhone(last) then [ReminderFor(bookingId, startTime, last)] else [])
  }

  /** The entries for one more account: the loop's step. */
  lemma ReminderEntriesStep(bookingId: string, startTime: int, accounts: seq<Account>, i: nat)
    requires i < |accounts|
    ensures ReminderEntries(bookingId, startTime, accounts[..i + 1])
         == ReminderEntries(bookingId, startTime, accounts[..i])
            + (if HasPhone(accounts[i]) then [ReminderFor(bookingId, startTime, accounts[i])] else [])
  {
    assert accounts[..i + 1][..i] == accounts[..i];
  }

  /**
   * The appended entries are exactly one per phone-bearing account, in account
   * order, each due the account's lead time before the start and carrying the
   * account's phone and id.
   */
  lemma {:induction false} RemindersFollowAccounts(bookingId: string, startTime: int, accounts: seq<Account>)
    ensures |ReminderEntries(bookingId, startTime, accounts)| == |PhoneAccounts(accounts)|
    ensures forall k :: 0 <= k < |PhoneAccounts(accounts)| ==>
      var e, a := ReminderEntries(bookingId, startTime, accounts)[k], PhoneAccounts(accounts)[k];
      && e == OutboxEntry(Reminder, Payload(Some(bookingId), a.phoneNumber, Some(a.id)), e.reminderAt, false)
      && e.reminderAt.Some?
      && startTime - e.reminderAt.value == MsPerMinute * (if a.remindBeforeMinutes.None? then 180 else a.remindBeforeMinutes.value)
  {
    if accounts != [] {
      RemindersFollowAccounts(bookingId, startTime, accounts[..|accounts| - 1]);
    }
  }

  /** Accounts with the given phone number. */
  function AccountsWithPhone(accounts: seq<Account>, phone: string): nat {
    if accounts == [] then 0
    else AccountsWithPhone(accounts[..|accounts| - 1], phone) + (if accounts[|accounts| - 1].phoneNumber == Some(phone) then 1 else 0)
  }

  /** Entries addressed to the given phone number. */
  function EntriesWithPhone(entries: seq<OutboxEntry>, phone: string): nat {
    if entries == [] then 0
    else EntriesWithPhone(entries[..|entries| - 1], phone) + (if entries[|entries| - 1].payload.phone == Some(phone) then 1 else 0)
  }

  lemma {:induction false} EntriesWithPhoneAppend(a: seq<OutboxEntry>, b: seq<OutboxEntry>, phone: string)
    ensures EntriesWithPhone(a + b, phone) == EntriesWithPhone(a, phone) + EntriesWithPhone(b, phone)
    decreases |b|
  {
    if b == [] {
      assert a + b == a;
    } else {
      assert (a + b)[..|a + b| - 1] == a + b[..|b| - 1];
      EntriesWithPhoneAppend(a, b[..|b| - 1], phone);
    }
  }

  /** No deduplication: every account carrying a phone number gets its own reminder to that number. */
  lemma {:induction false} NoPhoneDeduplication(bookingId: string, startTime: int, accounts: seq<Account>, phone: string)
    requires phone != ""
    ensures EntriesWithPhone(ReminderEntries(bookingId, startTime, accounts), phone) == AccountsWithPhone(accounts, phone)
  {
    if accounts != [] {
      var init, last := accounts[..|accounts| - 1], accounts[|accounts| - 1];
      NoPhoneDeduplication(bookingId, startTime, init, phone);
      var tail := if HasPhone(last) then [ReminderFor(bookingId, startTime, last)] else [];
      EntriesWithPhoneAppend(ReminderEntries(bookingId, startTime, init), tail, phone);
      if HasPhone(last) {
        assert tail[..0] == [];
      }
    }
  }

  /** The booking upsert: create the row, or overwrite its schedule and clear `calledAt`. */
  function Upsert(bookings: map<string, Booking>, bookingId: string, startTime: int, organizer: string,
                  attendees: seq<string>): (r: map<string, Booking>)
    ensures r.Keys == bookings.Keys + {bookingId}
    ensures r[bookingId] == Booking(startTime, organizer, attendees, None)
    ensures forall b :: b in bookings && b != bookingId ==> r[b] == bookings[b]
  {
    if bookingId in bookings then
      bookings[bookingId := bookings[bookingId].(startTime := startTime, organizer := organizer,
                                                 attendees := attendees, calledAt := None)]
    else
      bookings[bookingId := Booking(startTime, organizer, attendees, None)]
  }

  /**
   * No supersession: a redelivered or rescheduling event leaves every live
   * reminder of the booking live and adds one per phone-bearing account.
   */
  lemma RescheduleAddsLiveReminders(outbox: seq<OutboxEntry>, bookingId: string, startTime: int, accounts: seq<Account>)
    ensures LiveReminders(outbox + ReminderEntries(bookingId, startTime, accounts), bookingId)
            == LiveReminders(outbox, bookingId) + |PhoneAccounts(accounts)|
  {
    var added := ReminderEntries(bookingId, startTime, accounts);
    LiveRemindersAppend(outbox, added, bookingId);
    AllLive(added, bookingId);
    RemindersFollowAccounts(bookingId, startTime, accounts);
  }

  lemma {:induction false} AllLive(entries: seq<OutboxEntry>, bookingId: string)
    requires forall i :: 0 <= i < |entries| ==> IsLiveReminder(entries[i], bookingId)
    ensures LiveReminders(entries, bookingId) == |entries|
  {
    if entries != [] {
      AllLive(entries[..|entries| - 1], bookingId);
    }
  }

  /** Scheduling keeps every reminder attached to a booking row. */
  lemma ScheduleKeepsRemindersBooked(bookings: map<string, Booking>, outbox: seq<OutboxEntry>, bookingId: string,
                                     startTime: int, organizer: string, attendees: seq<string>, accounts: seq<Account>)
    requires BookedReminders(bookings, outbox)
    ensures BookedReminders(Upsert(bookings, bookingId, startTime, organizer, attendees),
                            outbox + ReminderEntries(bookingId, startTime, accounts))
  {
  }
}
