/** What becomes of the outbox rows. */
module RuntimeReconciliation {
  import opened Wrappers
  import opened RuntimeState
  import opened RuntimeTransitions
  import opened RuntimeInvariant
  import opened RuntimeSafety
  import opened RuntimeTraces

  /** The row's message is still wanted: its task is RUNNABLE at the row's version, in an ACTIVE run. */
  predicate StillWanted(db: Db, k: DispatchKey) {
    && k.task in db.tasks && db.tasks[k.task].state == RUNNABLE && db.tasks[k.task].revision == k.version
    && db.tasks[k.task].run in db.runs && db.runs[db.tasks[k.task].run].state == ACTIVE
  }

  /** The publisher that has leased the row has let the lease run out. */
  predicate LeaseRanOut(d: Dispatch, now: int) {
    d.state == PUBLISHING && d.publishLeaseUntil.Some? && d.publishLeaseUntil.value <= now
  }

  /** The row waits for a publisher, from `at` on. */
  predicate WaitsAgain(d: Dispatch, next: Dispatch, at: int) {
    next == d.(state := DISPATCH_PENDING, publishOwner := None, publishLeaseUntil := None, availableAt := at)
  }

  /** Reconciliation, at every moment of every trace: a leased row waits again exactly if its lease has run out, and a
      published one exactly if it was confirmed at least `ms` ago and its message is still wanted; without a delay, or
      with one that is not positive, no published row does. Nothing else changes, in any table. */
  lemma {:induction false} ReconcileExactly(trace: Trace, i: nat, now: int, ms: Option<int>)
    requires IsTrace(trace) && i < |trace.states|
    ensures var db, next := trace.states[i], Reconcile(trace.states[i], now, ms).db;
      && next == db.(dispatches := next.dispatches) && next.dispatches.Keys == db.dispatches.Keys
      && forall k :: k in db.dispatches ==>
          var d := db.dispatches[k];
          if LeaseRanOut(d, now) then WaitsAgain(d, next.dispatches[k], d.availableAt)
          else if d.state == PUBLISHED && ms.Some? && ms.value > 0 && d.confirmedAt.Some?
                  && d.confirmedAt.value <= now - ms.value && StillWanted(db, k)
                then WaitsAgain(d, next.dispatches[k], now)
          else next.dispatches[k] == d
  {
    hide Safe;
    TraceIsSafe(trace, i);
    ReconcileReopens(trace.states[i], now, ms);
  }

  /** What a publisher leases of a batch: the rows that wait, are due and still wanted. */
  lemma LeaseExactly(db: Db, publisher: string, now: int, leaseMs: int, limit: int, batch: set<DispatchKey>)
    ensures var commit := ClaimDispatchBatch(db, publisher, now, leaseMs, limit, batch);
      if publisher == "" || limit < 1 || limit > 500 then commit == Commit(db, Refused(DISPATCH_CLAIM_INVALID))
      else
        && commit.answer == Done
        && commit.db == db.(dispatches := commit.db.dispatches) && commit.db.dispatches.Keys == db.dispatches.Keys
        && forall k :: k in db.dispatches ==>
            var d, x := db.dispatches[k], commit.db.dispatches[k];
            if k in batch && (d.state == DISPATCH_PENDING || LeaseRanOut(d, now)) && d.availableAt <= now
                && StillWanted(db, k)
            then x == d.(state := PUBLISHING, publishOwner := Some(publisher), publishLeaseUntil := Some(now + leaseMs),
                    publishAttempts := d.publishAttempts + 1)
            else if LeaseRanOut(d, now) then WaitsAgain(d, x, d.availableAt) else x == d
  {
  }

  /** The row waits, is due and still wanted. */
  predicate IsReady(db: Db, k: DispatchKey, now: int) {
    && k in db.dispatches && db.dispatches[k].state == DISPATCH_PENDING && db.dispatches[k].availableAt <= now
    && StillWanted(db, k)
  }

  predicate ComesBefore(db: Db, rank: DispatchKey -> int, l: DispatchKey, k: DispatchKey) {
    && l in db.dispatches && k in db.dispatches
    && (db.dispatches[l].availableAt < db.dispatches[k].availableAt
        || (db.dispatches[l].availableAt == db.dispatches[k].availableAt && rank(l) < rank(k)))
  }

  function ReadyBefore(db: Db, now: int, rank: DispatchKey -> int, k: DispatchKey): set<DispatchKey> {
    set l | l in db.dispatches && IsReady(db, l, now) && ComesBefore(db, rank, l, k)
  }

  /** The rows a publisher picks: exactly those with fewer than `limit` others before them. */
  lemma BatchExactly(db: Db, now: int, limit: nat, rank: DispatchKey -> int, batch: set<DispatchKey>, k: DispatchKey)
    requires Batch(db, now, limit, rank, batch) && k in db.dispatches
    requires forall l, m :: l in db.dispatches && m in db.dispatches && rank(l) == rank(m) ==> l == m
    ensures k in batch <==> IsReady(db, k, now) && |ReadyBefore(db, now, rank, k)| < limit
  {
    var ready, before := Publishable(db, now), ReadyBefore(db, now, rank, k);
    assert forall l :: l in ready <==> IsReady(db, l, now);
    if k in batch {
      forall l | l in ready - batch
        ensures l !in before
      {
        assert NoLater(db, rank, k, l);
      }
      assert before <= ready && k !in before;
      Fewer(before, batch - {k});
    } else if k in ready {
      forall l | l in batch
        ensures l in before
      {
        assert k in ready - batch && NoLater(db, rank, l, k);
      }
      Fewer(batch, before);
    }
  }

  lemma Fewer<T>(a: set<T>, b: set<T>)
    requires a <= b
    ensures |a| <= |b|
  {
    assert b == a + (b - a);
  }

  /** The publisher's two other statements act exactly under its lease. */
  lemma LeasedRowExactly(db: Db, k: DispatchKey, publisher: string, now: int)
    ensures var leased := k in db.dispatches && db.dispatches[k].state == PUBLISHING
          && db.dispatches[k].publishOwner == Some(publisher);
      if !leased then
        && ConfirmDispatch(db, k, publisher, now) == Commit(db, Refused(DISPATCH_PUBLISH_LEASE_LOST))
        && FailDispatch(db, k, publisher, now) == Commit(db, Refused(DISPATCH_PUBLISH_LEASE_LOST))
      else
        && ConfirmDispatch(db, k, publisher, now) == Commit(db.(dispatches := db.dispatches[k := db.dispatches[k].(
              state := PUBLISHED, confirmedAt := Some(now), publishOwner := None, publishLeaseUntil := None)]), Done)
        && FailDispatch(db, k, publisher, now).answer == Done
        && var next := FailDispatch(db, k, publisher, now).db;
            k in next.dispatches && WaitsAgain(db.dispatches[k], next.dispatches[k], now)
            && next == db.(dispatches := db.dispatches[k := next.dispatches[k]])
  {
  }

  /** A published row is put off exactly while its task is RUNNABLE at its version. */
  lemma PutOffExactly(db: Db, t: TaskId, version: nat, retryAt: int)
    ensures var k, commit := DispatchKey(t, version), DeferPublishedDispatch(db, t, version, retryAt);
      if k in db.dispatches && db.dispatches[k].state == PUBLISHED && t in db.tasks && db.tasks[t].state == RUNNABLE
          && db.tasks[t].revision == version
      then commit.answer == Done && k in commit.db.dispatches
            && WaitsAgain(db.dispatches[k], commit.db.dispatches[k], retryAt)
            && commit.db == db.(dispatches := db.dispatches[k := commit.db.dispatches[k]])
      else commit == Commit(db, Null)
  {
  }
}
