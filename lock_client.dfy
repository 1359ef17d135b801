/**
 * The cron lock: a table of lock names, each row with the instant it was taken.
 * Acquiring inserts a row and reports whether the insert went through (the name
 * is unique, so a held name makes it fail); releasing deletes the row.
 */
module LockClient {
  import opened Wrappers

  /** Lock rows: name to the instant the lock was taken. */
  type LockTable = map<string, int>

  /** The error the database raises when a delete finds no row. */
  datatype StoreError = RecordNotFound

  /** What `acquireLock` reports, and the table after it. */
  datatype Acquisition = Acquisition(acquired: bool, locks: LockTable)

  /**
   * `acquireLock`. `reachable` says whether the database accepted the insert
   * apart from the uniqueness of the name; every failure is reported as false.
   */
  function Acquire(locks: LockTable, name: string, now: int, reachable: bool): (r: Acquisition)
    ensures r.acquired <==> reachable && name !in locks
    ensures r.locks.Keys == locks.Keys + (if reachable then {name} else {})
    ensures forall n :: n in locks ==> r.locks[n] == locks[n]
    ensures r.acquired ==> r.locks[name] == now
  {
    if reachable && name !in locks then Acquisition(true, locks[name := now])
    else Acquisition(false, locks)
  }

  /** `releaseLock`: deletes the row; a missing row is an error, which propagates. */
  function Release(locks: LockTable, name: string): (r: (Outcome<StoreError>, LockTable))
    ensures r.0 == Pass <==> name in locks
    ensures r.1.Keys == locks.Keys - {name}
    ensures forall n :: n in r.1 ==> r.1[n] == locks[n]
  {
    if name in locks then (Pass, locks - {name}) else (Fail(RecordNotFound), locks)
  }

  /** Two acquisitions of one name with no release between them: at most one succeeds. */
  lemma AcquireIsExclusive(locks: LockTable, name: string, t1: int, t2: int, up1: bool, up2: bool)
    ensures !(Acquire(locks, name, t1, up1).acquired && Acquire(Acquire(locks, name, t1, up1).locks, name, t2, up2).acquired)
  {
  }

  /** Two acquisitions of a free name that both reach the database: exactly one succeeds, the first. */
  lemma ExactlyOneAcquires(locks: LockTable, name: string, t1: int, t2: int)
    requires name !in locks
    ensures Acquire(locks, name, t1, true).acquired
    ensures !Acquire(Acquire(locks, name, t1, true).locks, name, t2, true).acquired
  {
  }

  /** A failed acquisition leaves the table as it was. */
  lemma FailedAcquireChangesNothing(locks: LockTable, name: string, now: int, reachable: bool)
    requires !Acquire(locks, name, now, reachable).acquired
    ensures Acquire(locks, name, now, reachable).locks == locks
  {
  }

  /** Releasing what was just acquired restores the table; other names stay held throughout. */
  lemma ReleaseUndoesAcquire(locks: LockTable, name: string, now: int)
    requires name !in locks
    ensures Release(Acquire(locks, name, now, true).locks, name) == (Pass, locks)
  {
    assert Acquire(locks, name, now, true).locks - {name} == locks;
  }
}
