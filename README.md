# Booking reminders: a Dafny model

This project models the core of a backend that receives booking webhooks from a
calendar provider and places reminder phone calls before each meeting. The core
is a state machine over three tables: bookings (keyed by `bookingId`), an outbox
of pending and finished actions, and a cron-lock table keyed by lock name. Four
operations change them:

- scheduling a booking upserts the booking and appends a `REMINDER` entry per
  attendee account that has a phone number;
- cancelling a booking stamps `calledAt` and appends a `BOOKING_CANCELLED` marker;
- one dispatcher tick takes the lock, calls the due reminders and releases the lock;
- the lock client inserts and deletes lock rows.

Around that core the project also models the calendar and account repositories,
the authentication middleware's header parsing and error classification, and
the error filter that turns exceptions into HTTP error bodies.

## Layout

| file | module | models |
|---|---|---|
| `wrappers.dfy` | `Wrappers` | `Option`, `Result`, `Outcome` |
| `app_error.dfy` | `AppErrors` | the `AppError(statusCode, detail)` exception |
| `js_text.dfy` | `JsText` | JavaScript truthiness, the `\s`/`trim` whitespace class, `trim`, `includes` |
| `schema.dfy` | `Schema` | booking and outbox rows, "due", "live reminder", how the outbox may evolve |
| `account_repository.dfy` | `AccountRepository` | the account table, `getMe`, `createAccount` |
| `calendar_repository.dfy` | `CalendarRepository` | the calendar table and its five operations |
| `lock_client.dfy` | `LockClient` | `acquireLock` and `releaseLock` as functions on the lock table |
| `scheduled_bookings.dfy` | `ScheduledBookings` | the booking upsert and the reminder entries, with their lemmas |
| `cancelled_bookings.dfy` | `CancelledBookings` | the cancellation's three writes, with their lemmas |
| `reminder_cron.dfy` | `ReminderCron` | one tick's loop as the function `Sweep`, with its lemmas |
| `pipeline.dfy` | `Pipeline` | class `Database`: the handlers, the lock client and the tick as methods that update the tables |
| `scenarios.dfy` | `Scenarios` | the pipeline on a concrete booking |
| `auth_guard.dfy` | `AuthGuard` | the authentication middleware |
| `http_status.dfy`, `exceptions_filter.dfy` | `HttpStatus`, `ExceptionsFilter` | the status enum and the error filter |

Instants are integers counting milliseconds, as a JavaScript `Date` does. A lead
time of `m` minutes is `m * 60000`. An outbox entry's id is its position in the
outbox, since rows are only ever appended. Each handler's transaction is one
atomic step. Its writes are staged and committed together, or not at all when
its `reachable` argument says the database failed.

Several inputs are parameters because they come from outside the code:

- the dispatcher's call to the voice API is the set `failing` of entry ids whose call fails;
- the order in which the due-scan returns entries is the sequence `scan`;
- ids the database generates for new rows are arguments (`newId`);
- the identity service's `verify` is a function argument.

## Where the code and the design differ

The model follows the code. In several places the code does not do what its
evident intent is (the comment at
modules/cal/handlers/cancelled-bookings.handler.ts:26 says the cancelled
booking's reminders are marked processed, for example), and lemmas state what
the code does instead:

- A reschedule or a redelivered event does not retire earlier reminders. It
  only appends (`ScheduledBookings.RescheduleAddsLiveReminders`,
  `Scenarios.RescheduleKeepsEarlierReminder`).
- Phone numbers are not deduplicated (`ScheduledBookings.NoPhoneDeduplication`).
- The cancellation's outbox update selects entries that are already processed,
  so it changes nothing. Pending reminders of a cancelled booking stay live and
  are still called (`CancelledBookings.RetireChangesNothing`,
  `CancelledBookings.CancelOnlyAppendsMarker`, `Scenarios.CancelledBookingIsStillCalled`).
- A failed call throws and ends the whole tick, instead of moving on to the next
  entry. The failed entry and every later one stay due (`ReminderCron.FailedCallLeavesRestDue`).
- Due entries are not ordered by `reminderAt`: the scan order is arbitrary.
- The handler reads `phoneNumber` and `remindBeforeMinutes` from each account,
  although the account entity does not declare them. The account row here
  carries both as optional columns.
- After a successful call, the booking update throws when the booking row is
  missing. That rolls back the transaction and ends the tick, after the call was
  placed. The invariant `Pipeline.Database.Valid` (every reminder's booking row
  exists) is preserved by every operation. From such a state this abort never
  happens (`ReminderCron.FailedCallLeavesRestDue`).

## Model

| member | source | states |
|---|---|---|
| `ScheduledBookings.Upsert` | modules/cal/handlers/scheduled-bookings.handler.ts:17-31 | afterwards exactly one row exists under `bookingId`; it holds the given start time, organizer and attendees with `calledAt` null (reset on the update branch); other bookings are unchanged |
| `ScheduledBookings.PhoneAccounts` | modules/cal/handlers/scheduled-bookings.handler.ts:33-34 | an account is kept exactly when it is in the input and has a non-empty phone number |
| `ScheduledBookings.ReminderEntries` | modules/cal/handlers/scheduled-bookings.handler.ts:33-52 | every appended entry is an unprocessed REMINDER for this booking with a non-empty phone; at most one per account |
| `ScheduledBookings.RemindersFollowAccounts` | modules/cal/handlers/scheduled-bookings.handler.ts:14-52 | one entry per phone-bearing account, in account order, with payload `{bookingId, phone, accountId}`, `processed = false`, due `remindBeforeMinutes` (180 when absent) minutes before the start |
| `ScheduledBookings.NoPhoneDeduplication` | modules/cal/handlers/scheduled-bookings.handler.ts:33-52 | the number of entries for a phone number equals the number of accounts carrying it |
| `ScheduledBookings.RescheduleAddsLiveReminders` | modules/cal/handlers/scheduled-bookings.handler.ts:33-52 | scheduling again leaves every live reminder of the booking live and adds one per phone-bearing account: no supersession |
| `ScheduledBookings.ScheduleKeepsRemindersBooked` | modules/cal/handlers/scheduled-bookings.handler.ts:16-53 | if every reminder had its booking row before, it still has after |
| `Pipeline.Database.ScheduleBooking` | modules/cal/handlers/scheduled-bookings.handler.ts:6-57 | on commit the bookings become the upsert and the outbox grows by exactly the reminder entries, existing entries untouched; on failure both tables are unchanged and the result is `AppError(500, "Failed to handle scheduled booking")` |
| `CancelledBookings.StampCalled` | modules/cal/handlers/cancelled-bookings.handler.ts:10-21 | the booking's row, if any, gets `calledAt`; no row is added or removed and other bookings are unchanged; an unknown id is not an error |
| `CancelledBookings.CancelMarker` | modules/cal/handlers/cancelled-bookings.handler.ts:32-38 | the marker is a processed `BOOKING_CANCELLED` entry with payload `{bookingId}`; it is never a live reminder and never due |
| `CancelledBookings.RetireReminders` | modules/cal/handlers/cancelled-bookings.handler.ts:23-30 | the filtered outbox update keeps the outbox's length |
| `CancelledBookings.RetireChangesNothing` | modules/cal/handlers/cancelled-bookings.handler.ts:23-30 | because the filter matches only processed entries, the update leaves the outbox exactly as it was |
| `CancelledBookings.CancelOnlyAppendsMarker` | modules/cal/handlers/cancelled-bookings.handler.ts:23-38 | the outbox grows by one `BOOKING_CANCELLED` marker with payload `{bookingId}` and `processed = true`; live reminders are unchanged; each cancellation, redelivered or not, adds one more marker |
| `CancelledBookings.CancelKeepsRemindersBooked` | modules/cal/handlers/cancelled-bookings.handler.ts:9-39 | if every reminder had its booking row before, it still has after |
| `Pipeline.Database.CancelBooking` | modules/cal/handlers/cancelled-bookings.handler.ts:5-45 | on commit the three writes happen together; on failure both tables are unchanged and the result is `AppError(500, "Failed to handle cancelled booking")` |
| `LockClient.Acquire` | infrastructure/lock/lock.client.ts:3-12 | true exactly when the database is reachable and the name is free; held locks keep their rows; the new row records the instant |
| `LockClient.Release` | infrastructure/lock/lock.client.ts:14-16 | removes exactly that name and keeps every other row; a missing row is an error |
| `LockClient.AcquireIsExclusive` | infrastructure/lock/lock.client.ts:3-12 | two acquisitions of one name with no release between them never both succeed |
| `LockClient.ExactlyOneAcquires` | infrastructure/lock/lock.client.ts:3-12 | on a free name, two acquisitions that reach the database: the first succeeds and the second fails |
| `LockClient.FailedAcquireChangesNothing` | infrastructure/lock/lock.client.ts:4-11 | an acquisition that reports false leaves the lock table unchanged |
| `LockClient.ReleaseUndoesAcquire` | infrastructure/lock/lock.client.ts:3-16 | releasing a name just acquired succeeds and restores the table |
| `Pipeline.Database.AcquireLock` | infrastructure/lock/lock.client.ts:3-12 | the method's result and new lock table are those of `Acquire`: true exactly when the database is reachable and the name is free |
| `Pipeline.Database.ReleaseLock` | infrastructure/lock/lock.client.ts:14-16 | the method's outcome and new lock table are those of `Release` |
| `ReminderCron.IsDueScan` | modules/cal/application/cron/reminder.cron.ts:25-31 | every entry the due-scan returns is an unprocessed `REMINDER` whose `reminderAt` has come |
| `ReminderCron.DueScansAgree` | modules/cal/application/cron/reminder.cron.ts:25-31 | two results of the due-scan over the same outbox hold the same entries, each once: they can differ only in order |
| `ReminderCron.Classify` | modules/cal/application/cron/reminder.cron.ts:34-61 | an entry is dropped exactly when its payload has no truthy `bookingId`, skipped exactly when it has one but no truthy `phone`, and called exactly when it has both |
| `ReminderCron.MarkProcessed` | modules/cal/application/cron/reminder.cron.ts:39-42 | the entry becomes itself with `processed` set; every other entry and the outbox's length are unchanged |
| `ReminderCron.Stamp` | modules/cal/application/cron/reminder.cron.ts:110-115 | the booking becomes itself with `calledAt` set to the tick's instant; every other booking is unchanged and no row is added or removed |
| `ReminderCron.Sweep` | modules/cal/application/cron/reminder.cron.ts:33-117 | the loop keeps the outbox's length and the set of bookings, and deals with at most the scanned entries |
| `ReminderCron.SweepOnlyMarks` | modules/cal/application/cron/reminder.cron.ts:33-117 | processed flags only go from false to true; nothing else in an entry changes; entries outside the scan are untouched; a booking is unchanged or stamped with the tick's instant |
| `ReminderCron.SweepEntryFate` | modules/cal/application/cron/reminder.cron.ts:33-117 | before the abort point, a payload without bookingId is marked processed, one without phone is left unprocessed, and a called one succeeded, is marked processed and has its booking stamped; from the abort point on, entries are unchanged |
| `ReminderCron.SweepBookingFate` | modules/cal/application/cron/reminder.cron.ts:33-117 | a booking's `calledAt` is stamped with the tick's instant exactly when an entry for it was called before the abort point; any other booking row, for instance one whose only call failed, is left exactly as it was |
| `ReminderCron.SweepCalls` | modules/cal/application/cron/reminder.cron.ts:37-100 | calls are placed exactly for the entries with bookingId and phone before the abort point, in scan order, plus the aborting entry; dropped and skipped entries get no call |
| `ReminderCron.SweepAbortCause` | modules/cal/application/cron/reminder.cron.ts:97-119 | the tick ends early only at a callable entry whose call failed or whose booking row is missing |
| `ReminderCron.FailedCallLeavesRestDue` | modules/cal/application/cron/reminder.cron.ts:97-122 | from a state where every reminder has its booking, only a failed call ends the tick, and that entry and all later ones in the scan stay due for the next tick; the failed entry's booking is unchanged unless an earlier entry for it was called in the same tick |
| `ReminderCron.SweepWithoutFailuresCompletes` | modules/cal/application/cron/reminder.cron.ts:33-117 | with no failing call, every scanned entry is dealt with |
| `ReminderCron.SweepKeepsRemindersBooked` | modules/cal/application/cron/reminder.cron.ts:105-116 | if every reminder had its booking row before the tick, it still has after |
| `Pipeline.Database.ReminderTick` | modules/cal/application/cron/reminder.cron.ts:13-122 | without the lock nothing changes and the lock is not released; with it, the tables become those of `Sweep` over the due-scan, the calls placed are `Sweep`'s, and the lock is released, after an abort too; processed flags never go back |
| `Pipeline.Database.Dispatch` | modules/cal/application/cron/reminder.cron.ts:33-117 | the loop over the due entries leaves the tables, and returns the calls, exactly as `Sweep` over the scan order describes, an abort included |
| `Pipeline.Database.Visit` | modules/cal/application/cron/reminder.cron.ts:34-116 | one iteration: the call is placed exactly for an entry with booking id and phone; an abort leaves the tables as they were; otherwise the rest of the sweep from the new tables is the sweep from the old ones minus this step |
| `Scenarios.CreatedBookingIsCalled` | modules/cal/application/cron/reminder.cron.ts:23-117 | a booking at 15:00 with a 60-minute lead gets one reminder at 14:00; a tick at 14:00:01 whose call succeeds marks it processed and stamps the booking |
| `Scenarios.RescheduleKeepsEarlierReminder` | modules/cal/handlers/scheduled-bookings.handler.ts:33-52 | after a reschedule to 18:00, the 14:00 and 17:00 reminders are both live and both due at 17:00 |
| `Scenarios.CancelledBookingIsStillCalled` | modules/cal/handlers/cancelled-bookings.handler.ts:23-30 | after a cancellation, a tick still calls the booking's pending reminder |
| `AccountRepository.AccountTable.GetMe` | modules/account/infrastructure/prisma-account.repository.ts:9-39 | an empty user id gives 500 "Database error" (the inner 400 is rewrapped); no account gives the placeholder of type `not_created_yet`; otherwise the account's id, user id, type and tokens |
| `AccountRepository.AccountTable.CreateAccount` | modules/account/infrastructure/prisma-account.repository.ts:41-74 | inserts `type = "standard"`, `tokensLeft = 100`, `expiresAt = null`, and `getMe` then finds it; an existing account gives 409 "Account already exists" and an empty user id 500 "Database error", both with the table unchanged |
| `CalendarRepository.CalendarTable.Create` | modules/calendar/infrastructure/prisma-calendar.repository.ts:12-62 | an empty field gives 500 with "Missing required fields to create calendar"; a row with the same user, account and provider, even soft-deleted, gives 500 with the duplicate message; otherwise exactly one row is appended and the returned entity echoes it and is found by `findById` |
| `CalendarRepository.CalendarTable.Update` | modules/calendar/infrastructure/prisma-calendar.repository.ts:64-96 | needs non-empty id, user id and API key; succeeds exactly when a row has that id and owner; changes only that row's API key and returns that row's entity as updated; every failure is status 500 with the table unchanged |
| `CalendarRepository.CalendarTable.FindById` | modules/calendar/infrastructure/prisma-calendar.repository.ts:98-130 | an empty id or user id gives 404; a calendar is returned exactly when a non-deleted row matches both id and owner, and it is that row's entity, all five fields |
| `CalendarRepository.CalendarTable.FindByUserId` | modules/calendar/infrastructure/prisma-calendar.repository.ts:132-172 | an empty user id gives 404; otherwise the entities of the non-deleted rows of the trimmed user id, each as many times as such rows carry it, and nothing else |
| `CalendarRepository.LiveRowsOf` | modules/calendar/infrastructure/prisma-calendar.repository.ts:145-165 | every entity occurs as many times as non-deleted rows of the user carry it (`LiveCount`): each matching row once, nothing else |
| `CalendarRepository.FirstLive` | modules/calendar/infrastructure/prisma-calendar.repository.ts:104-122 | a result exactly when a non-deleted row has that id and owner, and the result is the entity of such a row |
| `CalendarRepository.CalendarTable.Delete` | modules/calendar/infrastructure/prisma-calendar.repository.ts:174-198 | an empty id gives 404; otherwise sets `isDeleted` on the row with that id, whatever its owner, keeping the row, after which `findById` finds nothing; no such row gives 500 |
| `JsText.TrimStart` | modules/calendar/infrastructure/prisma-calendar.repository.ts:142 | removes a whitespace-only prefix and leaves no leading whitespace |
| `JsText.TrimEnd` | modules/calendar/infrastructure/prisma-calendar.repository.ts:142 | removes a whitespace-only suffix and leaves no trailing whitespace |
| `JsText.Trim` | modules/calendar/infrastructure/prisma-calendar.repository.ts:142 | the result is no longer than the input and has no whitespace at either end |
| `JsText.TrimShape` | modules/calendar/infrastructure/prisma-calendar.repository.ts:142 | trim returns an infix with only whitespace cut from both ends and no whitespace left at either end |
| `JsText.TrimIdempotent` | modules/calendar/infrastructure/prisma-calendar.repository.ts:142 | trimming twice is trimming once |
| `AuthGuard.StripBearer` | presentation/auth.guard.ts:20 | the header is unchanged exactly when it lacks case-insensitive `Bearer` plus whitespace; otherwise the word and the whole whitespace run are removed |
| `AuthGuard.ExtractToken` | presentation/auth.guard.ts:13-24 | a missing or empty header gives 401 "Authorization token is missing"; no Bearer prefix, or only whitespace after it, gives 401 "Invalid authorization header"; otherwise a non-empty suffix of the header |
| `AuthGuard.BearerRoundTrip` | presentation/auth.guard.ts:20-28 | for `Bearer` in any case, whitespace and a token, exactly the token reaches `verify` |
| `JsText.Includes` | presentation/auth.guard.ts:40 | true exactly when `sub` occurs in `s` at some position |
| `AuthGuard.ClassifyFailure` | presentation/auth.guard.ts:38-46 | "Token expired" exactly when the message contains "expired" or the name is `TokenExpiredError`; "Invalid token" otherwise |
| `AuthGuard.AfterVerify` | presentation/auth.guard.ts:28-37 | the request proceeds with the user exactly when `verify` returned a user with a non-empty `user_id`; an empty one gives 404 "User not found" |
| `AuthGuard.Authenticate` | presentation/auth.guard.ts:8-47 | header failures are reported as such and `verify` is not consulted; with a token, the decision is `AfterVerify` of what `verify` did on it; the request proceeds exactly when `verify` returned that user, with a non-empty `user_id`, for the extracted token |
| `AuthGuard.NoVerifyWithoutToken` | presentation/auth.guard.ts:13-24 | when the header checks fail, the decision does not depend on `verify` |
| `HttpStatus.ReasonPhrase` | shared/enums/http.enum.ts:1-9 | a phrase exists exactly for the seven listed codes |
| `HttpStatus.StatusOf` | shared/enums/http.enum.ts:1-9 | a code exists exactly for the seven listed names, and each has a phrase |
| `HttpStatus.PhraseRoundTrip` | shared/enums/http.enum.ts:1-9 | a code's phrase maps back to the code |
| `HttpStatus.StatusRoundTrip` | shared/enums/http.enum.ts:1-9 | a phrase's code maps back to the phrase |
| `ExceptionsFilter.Filter` | shared/filters/all-exceptions.filter.ts:6-33 | `success` is false and `statusCode` is the status sent; an AppError gives its status and detail, anything else 500 and "Internal Server Error"; the title is the status's phrase, or "Error" exactly when the table has none |
| `ExceptionsFilter.ConflictTitle` | shared/filters/all-exceptions.filter.ts:22 | a 409 is titled "Conflict" |

## Left out

- The voice API request itself: the model keeps only whether a call succeeded, as the set `failing`. That includes the JSON body, the credentials, the failure of `response.json()` after a successful status, and the `start_time` formatting. The booking lookup before the call only feeds that formatting, so it is not modelled.
- Cron scheduling every minute, and several instances running at once: the model runs one tick at a time, with `now` as an argument.
- Parsing ISO-8601 start times, and the account's `expiresAt` conversion to milliseconds: instants are integers already.
- Fractional `remindBeforeMinutes`: lead times are whole minutes.
- Database failures other than the ones modelled: each handler transaction as a whole, the lock insert, and the missing booking in the tick. The tick's due-scan and its other updates, and the repositories' queries, are assumed to succeed.
- `Pipeline.Database.ReminderTick`: stamps `calledAt` and the lock's `lockedAt` with the tick's `now`, where the code reads the clock again at each write.
- `CalendarRepository.CalendarTable.Update`: a missing row's error detail is a stand-in string; the database client's exact message is not part of this model. The same holds for `CalendarRepository.CalendarTable.Delete`.
- `CalendarRepository.CalendarTable.Create`: the unique-constraint branch (409 from the insert) is not modelled. In a sequential model the duplicate lookup already rejects every clash.
- `CalendarRepository.CalendarTable.FindByUserId`: returns rows in table order, where the database's order is unspecified.
- The "Prisma client is not initialized" guards, logging, and the delegating services, use cases, controllers, routes and dependency registration.
- The webhook endpoint's signature check (an HMAC over the body) and the identity service's HTTP call: `verify` is an argument.
- `AuthGuard.AfterVerify`: a response body without `user` is mapped straight to "Invalid token". The TypeError it raises has no "expired" in its message, but that message's text is not modelled.
- `ExceptionsFilter.Filter`: the `timestamp` field is left out (a clock read), and so is the framework's rejection of status codes outside 100-999.
- Request validation by schema libraries: the accounts the handler receives are taken as given.
