/** What a claim answers and does. */
module RuntimeClaims {
  import opened Wrappers
  import opened RuntimeState
  import opened RuntimeTransitions
  import opened RuntimeInvariant
  import opened RuntimeTraces
  import opened RuntimeRows

  /** The message is of the task as it is: RUNNABLE at that version, routed by its tool, in an ACTIVE run. */
  predicate IsWanted(db: Db, t: TaskId, version: nat, route: RoutingClass) {
    && t in db.tasks && db.tasks[t].state == RUNNABLE && db.tasks[t].revision == version
    && db.tasks[t].tool.routingClass == route
    && db.tasks[t].run in db.runs && db.runs[db.tasks[t].run].state == ACTIVE
  }

  function RunningOf(db: Db, c: RoutingClass): set<TaskId> {
    set t | t in db.tasks && db.tasks[t].state == RUNNING && db.tasks[t].tool.routingClass == c
  }

  /** The task runs under a new lease of the worker, as the run's next attempt, which is charged to the run. */
  predicate Starts(db: Db, next: Db, t: TaskId, worker: Worker, until: int, a: AttemptId)
    requires t in db.tasks && db.tasks[t].run in db.runs
  {
    var x, run := db.tasks[t], db.runs[db.tasks[t].run];
    && a !in db.attempts
    && next.tasks == db.tasks[t := x.(state := RUNNING, revision := x.revision + 1, attemptCount := x.attemptCount + 1,
          leaseOwner := Some(worker), leaseToken := x.leaseToken + 1, leaseExpiresAt := Some(until))]
    && next.runs == db.runs[x.run := run.(attemptsUsed := run.attemptsUsed + 1)]
    && next.attempts == db.attempts[a := Attempt(t, x.attemptCount + 1, worker, x.leaseToken + 1, ATTEMPT_RUNNING,
          x.revision)]
    && next.dispatches == db.dispatches && next.effects == db.effects && next.escalations == db.escalations
  }

  /** The group of a shard that starts is running from now on; no other group changes. */
  predicate GroupStarts(db: Db, next: Db, t: TaskId)
    requires t in db.tasks
  {
    && next.groups.Keys == db.groups.Keys
    && forall g :: g in db.groups ==>
        next.groups[g] == db.groups[g].(state :=
          if db.tasks[t].group == Some(g) && db.groups[g].state == PLANNED then GROUP_RUNNING
          else db.groups[g].state)
  }

  /** The answer to a claim of any task by any message, at every moment of every trace: whatever the version or route
      of the message, the first of these questions that is answered yes decides. */
  lemma {:induction false} ClaimIsAnsweredExactly(trace: Trace, i: nat, t: TaskId, version: nat, route: RoutingClass,
      worker: Worker, now: int, leaseMs: int, limits: Limits, a: AttemptId)
    requires IsTrace(trace) && i < |trace.states|
    ensures var db := trace.states[i];
      ClaimById(db, t, version, route, worker, now, leaseMs, limits, a).answer ==
        if !IsWanted(db, t, version, route) then Null
        else if |set x | x in RunningOf(db, route) && db.tasks[x].run == db.tasks[t].run| >= limits.maxPerRun
        then Refused(RABBIT_RUN_CONCURRENCY_LIMIT)
        else if |RunningOf(db, route)| >= limits.maxActivePool then Refused(RABBIT_POOL_CONCURRENCY_LIMIT)
        else if HeldBack(db, t) then Refused(RABBIT_DEPENDENCY_NOT_READY)
        else if now < db.tasks[t].availableAt then Refused(RABBIT_TASK_NOT_YET_AVAILABLE)
        else if now < 0 || db.runs[db.tasks[t].run].attemptsUsed >= db.runs[db.tasks[t].run].attemptsLimit then Null
        else if a in db.attempts then Refused(CONSTRAINT_VIOLATED)
        else Done
  {
    hide Safe, Eligible, DependencyBlocked, HeldBack, RunFull, PoolFull, StartAttempt, StartGroup;
    TraceIsSafe(trace, i);
    var db := trace.states[i];
    if t in db.tasks {
      AtRest(db, t);
      HeldBackIsBlocked(db, t);
      CountedAlike(db, db.tasks[t].run, route, limits);
    }
  }

  lemma CountedAlike(db: Db, r: RunId, route: RoutingClass, limits: Limits)
    requires Safe(db)
    ensures PoolFull(db, route, limits) <==> |RunningOf(db, route)| >= limits.maxActivePool
    ensures RunFull(db, r, route, limits)
        <==> |set x | x in RunningOf(db, route) && db.tasks[x].run == r| >= limits.maxPerRun
  {
    hide Safe;
    forall t | t in db.tasks
      ensures db.tasks[t].routingClass == db.tasks[t].tool.routingClass
    {
      AtRest(db, t);
    }
    assert RunningPool(db, route) == RunningOf(db, route);
    assert RunningIn(db, r, route) == set x | x in RunningOf(db, route) && db.tasks[x].run == r;
  }

  /** A claim that is accepted starts the attempt, and its group, and nothing else; any other changes nothing. */
  lemma ClaimStartsExactly(trace: Trace, i: nat, t: TaskId, version: nat, route: RoutingClass, worker: Worker,
      now: int, leaseMs: int, limits: Limits, a: AttemptId)
    requires IsTrace(trace) && i < |trace.states|
    ensures var db, commit := trace.states[i], ClaimById(trace.states[i], t, version, route, worker, now, leaseMs,
        limits, a);
      if commit.answer == Done then t in db.tasks && db.tasks[t].run in db.runs
          && Starts(db, commit.db, t, worker, now + leaseMs, a) && GroupStarts(db, commit.db, t)
      else commit.db == db
  {
    hide Safe, IsTrace, Eligible, DependencyBlocked, RunFull, PoolFull;
  }

  /** The polling claim starts a task exactly if it is RUNNABLE in an ACTIVE run, due, not held back, and there is
      budget left. */
  lemma {:induction false} PollingClaimExactly(trace: Trace, i: nat, t: TaskId, worker: Worker, now: int, leaseMs: int,
      a: AttemptId)
    requires IsTrace(trace) && i < |trace.states|
    ensures var db, commit := trace.states[i], Claim(trace.states[i], t, worker, now, leaseMs, a);
      commit.answer ==
        if !(t in db.tasks && IsWanted(db, t, db.tasks[t].revision, db.tasks[t].tool.routingClass))
            || now < db.tasks[t].availableAt || HeldBack(db, t) || now < 0
            || db.runs[db.tasks[t].run].attemptsUsed >= db.runs[db.tasks[t].run].attemptsLimit then Null
        else if a in db.attempts then Refused(CONSTRAINT_VIOLATED)
        else Done
    ensures var db, commit := trace.states[i], Claim(trace.states[i], t, worker, now, leaseMs, a);
      if commit.answer == Done then t in db.tasks && db.tasks[t].run in db.runs
          && Starts(db, commit.db, t, worker, now + leaseMs, a) && commit.db.groups == db.groups
      else commit.db == db
  {
    hide Safe, Eligible, HeldBack;
    TraceIsSafe(trace, i);
    var db := trace.states[i];
    if t in db.tasks {
      AtRest(db, t);
      HeldBackIsBlocked(db, t);
    }
  }
}
