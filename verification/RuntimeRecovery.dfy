/** What recovery and resumption do. */
module RuntimeRecovery {
  import opened Wrappers
  import opened RuntimeState
  import opened RuntimeTransitions
  import opened RuntimeInvariant
  import opened RuntimeTraces
  import opened RuntimeOrder
  import opened RuntimeStartOrder
  import opened RuntimeLoops
  import opened RuntimeRows

  predicate InActiveRun(db: Db, t: TaskId) {
    t in db.tasks && db.tasks[t].run in db.runs && db.runs[db.tasks[t].run].state == ACTIVE
  }

  /** A notification of unknown outcome, in a run whose report has been published. */
  predicate IsNotified(db: Db, t: TaskId) {
    && InActiveRun(db, t) && db.tasks[t].state == UNKNOWN_OUTCOME && db.tasks[t].tool.kind == Telegram
    && exists p ::
        p in db.tasks && db.tasks[p].run == db.tasks[t].run && db.tasks[p].tool.kind == DrivePublication
        && db.tasks[p].state == SUCCEEDED
  }

  /** Its worker has let the lease run out. */
  predicate IsExpired(db: Db, t: TaskId, now: int) {
    && InActiveRun(db, t) && db.tasks[t].state == RUNNING
    && db.tasks[t].leaseExpiresAt.Some? && db.tasks[t].leaseExpiresAt.value <= now
  }

  /** An unknown outcome without an effect that could be looked up. */
  predicate IsForgotten(db: Db, t: TaskId) {
    InActiveRun(db, t) && db.tasks[t].state == UNKNOWN_OUTCOME && t !in db.effects && !IsNotified(db, t)
  }

  /** The external effect of the task may have happened. */
  predicate InDoubt(db: Db, t: TaskId) {
    t in db.effects && db.effects[t] == EFFECT_UNKNOWN
  }

  predicate RunsAgain(db: Db, t: TaskId, now: int) {
    (IsExpired(db, t, now) && !InDoubt(db, t)) || IsForgotten(db, t)
  }

  /** The task stops in the state, without a lease. */
  predicate StopsIn(x: Task, y: Task, s: TaskState) {
    y == x.(state := s, revision := x.revision + 1, leaseOwner := None, leaseExpiresAt := None, availableAt := 0)
  }

  predicate RecoversTask(db: Db, next: Db, t: TaskId, now: int)
    requires t in db.tasks && t in next.tasks
  {
    if IsNotified(db, t) then StopsIn(db.tasks[t], next.tasks[t], SUCCEEDED)
    else if IsExpired(db, t, now) && InDoubt(db, t) then StopsIn(db.tasks[t], next.tasks[t], UNKNOWN_OUTCOME)
    else if RunsAgain(db, t, now)
    then Redispatched(db, next, t, 0) && next.tasks[t].retriesScheduled == db.tasks[t].retriesScheduled
    else next.tasks[t] == db.tasks[t]
  }

  /** One recovery, task by task and attempt by attempt. */
  ghost predicate Recovers(db: Db, next: Db, now: int) {
    && next.tasks.Keys == db.tasks.Keys && next.attempts.Keys == db.attempts.Keys
    && (forall t :: t in db.tasks ==> RecoversTask(db, next, t, now))
    && NoOtherRows(db, next, set t | t in db.tasks && RunsAgain(db, t, now))
    && (forall a :: a in db.attempts ==> next.attempts[a] == db.attempts[a].(state :=
          if db.attempts[a].state == ATTEMPT_RUNNING && IsExpired(db, db.attempts[a].task, now)
          then (if InDoubt(db, db.attempts[a].task) then ATTEMPT_UNKNOWN else ATTEMPT_FAILED)
          else db.attempts[a].state))
    && next.groups == db.groups && next.effects == db.effects && next.escalations == db.escalations
  }

  /** Runs whose last open task was a notification are SUCCEEDED; no other run changes. */
  ghost predicate ClosesNotified(db: Db, next: Db) {
    && next.runs.Keys == db.runs.Keys
    && forall r :: r in db.runs ==>
        next.runs[r] == db.runs[r].(state :=
          if db.runs[r].state == ACTIVE && (exists t :: t in db.tasks && IsNotified(db, t) && db.tasks[t].run == r)
              && (forall t :: t in next.tasks && next.tasks[t].run == r ==> next.tasks[t].state == SUCCEEDED)
          then RUN_SUCCEEDED else db.runs[r].state)
  }

  lemma NotifiedAlike(db: Db)
    ensures NotifiedEnough(db) == set t | t in db.tasks && IsNotified(db, t)
  {
  }

  lemma FinishedNotifications(db: Db)
    ensures var next := FinishNotifications(db);
      && next.tasks.Keys == db.tasks.Keys
      && (forall t :: t in db.tasks ==>
            if IsNotified(db, t) then StopsIn(db.tasks[t], next.tasks[t], SUCCEEDED) else next.tasks[t] == db.tasks[t])
      && ClosesNotified(db, next)
  {
    hide IsNotified;
    NotifiedAlike(db);
    var done := NotifiedEnough(db);
    var stopped := Stop(db, done, SUCCEEDED);
    forall r | r in db.runs
      ensures r in RunsOf(db, done) <==> exists t :: t in db.tasks && IsNotified(db, t) && db.tasks[t].run == r
    {
      if t :| t in db.tasks && IsNotified(db, t) && db.tasks[t].run == r { assert t in done; }
    }
    assert RunsOf(stopped, done) == RunsOf(db, done);
  }

  /** The tasks found stale after the notifications are those that were so before. */
  lemma StaleAlike(db: Db, mid: Db, now: int)
    requires mid.tasks.Keys == db.tasks.Keys && mid.effects == db.effects && ClosesNotified(db, mid)
    requires forall t :: t in db.tasks ==>
        if IsNotified(db, t) then StopsIn(db.tasks[t], mid.tasks[t], SUCCEEDED) else mid.tasks[t] == db.tasks[t]
    ensures Stale(mid, now) == set t | t in db.tasks && (IsExpired(db, t, now) || IsForgotten(db, t))
  {
    hide IsNotified;
    forall t | t in db.tasks
      ensures t in Stale(mid, now) <==> IsExpired(db, t, now) || IsForgotten(db, t)
    {
      if IsNotified(db, t) { NotifiedIsDone(db, t); }
    }
  }

  lemma NotifiedIsDone(db: Db, t: TaskId)
    requires IsNotified(db, t)
    ensures InActiveRun(db, t) && db.tasks[t].state == UNKNOWN_OUTCOME
  {
  }

  /** The tasks when their attempts have been ended, before those that run again are woken. */
  lemma ReleasedRows(tasks: Tasks, doubtful: set<TaskId>, again: set<TaskId>)
    requires doubtful !! again && again <= tasks.Keys
    ensures var released := ReleasedTasks(StoppedTasks(tasks, doubtful, UNKNOWN_OUTCOME), again);
      && released.Keys == tasks.Keys
      && forall t :: t in tasks ==>
          if t in doubtful then StopsIn(tasks[t], released[t], UNKNOWN_OUTCOME)
          else if t in again then released[t] == tasks[t].(leaseOwner := None, leaseExpiresAt := None)
          else released[t] == tasks[t]
  {
  }

  lemma RecoveredExactly(db: Db, mid: Db, now: int)
    requires Safe(db) && mid == db.(tasks := mid.tasks, runs := mid.runs) && mid.tasks.Keys == db.tasks.Keys
    requires forall t :: t in db.tasks ==>
        if IsNotified(db, t) then StopsIn(db.tasks[t], mid.tasks[t], SUCCEEDED) else mid.tasks[t] == db.tasks[t]
    requires Stale(mid, now) == set t | t in db.tasks && (IsExpired(db, t, now) || IsForgotten(db, t))
    ensures Recovers(db, RecoverTasks(mid, Stale(mid, now)), now)
  {
    hide Safe, IsNotified, IsExpired, IsForgotten, InDoubt, Stale, Doubtful, NoOtherRows, ClosedAttempts, RecoversTask,
      RecoverTasks, StopsIn, RunsAgain;
    var ps := Stale(mid, now);
    StaleKinds(db, mid, ps, now);
    EndedAttempts(db, ps, now);
    ClosedAlike(db, mid, ps);
    var again := ps - Doubtful(mid, ps);
    TasksRecovered(db, mid, ps, Doubtful(mid, ps), again, now);
  }

  lemma TasksRecovered(db: Db, mid: Db, ps: set<TaskId>, doubtful: set<TaskId>, again: set<TaskId>, now: int)
    requires Safe(db) && mid == db.(tasks := mid.tasks, runs := mid.runs) && mid.tasks.Keys == db.tasks.Keys
    requires forall t :: t in db.tasks ==>
        if IsNotified(db, t) then StopsIn(db.tasks[t], mid.tasks[t], SUCCEEDED) else mid.tasks[t] == db.tasks[t]
    requires ps <= db.tasks.Keys && doubtful == Doubtful(mid, ps) && again == ps - doubtful
    requires forall t :: t in doubtful <==> t in db.tasks && IsExpired(db, t, now) && InDoubt(db, t)
    requires again == set t | t in db.tasks && RunsAgain(db, t, now)
    requires forall t :: IsNotified(db, t) ==> !IsExpired(db, t, now) && !IsForgotten(db, t)
    requires forall t :: IsExpired(db, t, now) ==> !IsForgotten(db, t)
    ensures var next := RecoverTasks(mid, ps);
      && next.tasks.Keys == db.tasks.Keys && next.attempts == ClosedAttempts(mid, ps)
      && (forall t :: t in db.tasks ==> RecoversTask(db, next, t, now))
      && NoOtherRows(db, next, again)
      && next.groups == db.groups && next.effects == db.effects && next.escalations == db.escalations
  {
    hide Safe, IsNotified, IsExpired, IsForgotten, InDoubt, Wake, Redispatched, NoOtherRows, StopsIn, Doubtful,
      ReleasedTasks, StoppedTasks, ClosedAttempts, RecoversTask;
    var released := mid.(tasks := ReleasedTasks(StoppedTasks(mid.tasks, doubtful, UNKNOWN_OUTCOME), again),
        attempts := ClosedAttempts(mid, ps));
    ReleasedRows(mid.tasks, doubtful, again);
    SafeRows(db);
    WokenExactly(db, released, again, 0);
    forall t | t in db.tasks
      ensures RecoversTask(db, Wake(released, again, 0), t, now)
    {
      RecoveredTask(db, mid, released, Wake(released, again, 0), t, now);
    }
  }

  lemma RecoveredTask(db: Db, mid: Db, released: Db, next: Db, t: TaskId, now: int)
    requires t in db.tasks && t in mid.tasks && t in released.tasks && t in next.tasks
    requires if IsNotified(db, t) then StopsIn(db.tasks[t], mid.tasks[t], SUCCEEDED) else mid.tasks[t] == db.tasks[t]
    requires if IsExpired(db, t, now) && InDoubt(db, t) then StopsIn(mid.tasks[t], released.tasks[t], UNKNOWN_OUTCOME)
              else RunsAgain(db, t, now) || released.tasks[t] == mid.tasks[t]
    requires if RunsAgain(db, t, now)
              then Redispatched(db, next, t, 0) && next.tasks[t].retriesScheduled == db.tasks[t].retriesScheduled
              else next.tasks[t] == released.tasks[t]
    requires IsNotified(db, t) ==> !IsExpired(db, t, now) && !IsForgotten(db, t)
    requires IsExpired(db, t, now) ==> !IsForgotten(db, t)
    ensures RecoversTask(db, next, t, now)
  {
    hide IsNotified, IsExpired, IsForgotten, InDoubt, Redispatched, StopsIn;
  }

  lemma ClosedAlike(db: Db, mid: Db, ps: set<TaskId>)
    requires mid.attempts == db.attempts && mid.effects == db.effects
    ensures ClosedAttempts(mid, ps) == ClosedAttempts(db, ps) && ClosedAttempts(mid, ps).Keys == db.attempts.Keys
  {
  }

  /** The stale tasks are those in doubt and those that run again; a notified task is neither. */
  lemma StaleKinds(db: Db, mid: Db, ps: set<TaskId>, now: int)
    requires mid.effects == db.effects
    requires ps == set t | t in db.tasks && (IsExpired(db, t, now) || IsForgotten(db, t))
    ensures forall t :: t in Doubtful(mid, ps) <==> t in db.tasks && IsExpired(db, t, now) && InDoubt(db, t)
    ensures ps - Doubtful(mid, ps) == set t | t in db.tasks && RunsAgain(db, t, now)
    ensures forall t :: IsNotified(db, t) ==> !IsExpired(db, t, now) && !IsForgotten(db, t)
    ensures forall t :: IsExpired(db, t, now) ==> !IsForgotten(db, t)
  {
    forall t | IsNotified(db, t)
      ensures !IsExpired(db, t, now) && !IsForgotten(db, t)
    {
      NotifiedIsDone(db, t);
    }
    hide IsNotified;
  }

  lemma EndedAttempts(db: Db, ps: set<TaskId>, now: int)
    requires Safe(db) && ps == set t | t in db.tasks && (IsExpired(db, t, now) || IsForgotten(db, t))
    ensures forall a :: a in db.attempts ==> ClosedAttempts(db, ps)[a] == db.attempts[a].(state :=
          if db.attempts[a].state == ATTEMPT_RUNNING && IsExpired(db, db.attempts[a].task, now)
          then (if InDoubt(db, db.attempts[a].task) then ATTEMPT_UNKNOWN else ATTEMPT_FAILED)
          else db.attempts[a].state)
  {
    hide Linked, Leased, Dispatched, Counted, RetriesBounded, Honest, Budgeted, IsNotified;
    forall a | a in db.attempts
      ensures ClosedAttempts(db, ps)[a] == db.attempts[a].(state :=
          if db.attempts[a].state == ATTEMPT_RUNNING && IsExpired(db, db.attempts[a].task, now)
          then (if InDoubt(db, db.attempts[a].task) then ATTEMPT_UNKNOWN else ATTEMPT_FAILED)
          else db.attempts[a].state)
    {
      assert AttemptSound(db.tasks, db.attempts[a]);
    }
  }

  lemma RecoveredState(db: Db, next: Db, t: TaskId, now: int)
    requires t in db.tasks && t in next.tasks && RecoversTask(db, next, t, now)
    ensures next.tasks[t].state == SUCCEEDED <==> IsNotified(db, t) || db.tasks[t].state == SUCCEEDED
    ensures next.tasks[t].run == db.tasks[t].run
  {
    hide IsNotified;
  }

  lemma StillClosed(db: Db, mid: Db, next: Db, now: int)
    requires ClosesNotified(db, mid) && Recovers(db, next, now) && mid.tasks.Keys == db.tasks.Keys
    requires next.runs == mid.runs
    requires forall t :: t in db.tasks ==>
        if IsNotified(db, t) then StopsIn(db.tasks[t], mid.tasks[t], SUCCEEDED) else mid.tasks[t] == db.tasks[t]
    ensures ClosesNotified(db, next)
  {
    hide IsNotified, NoOtherRows, RecoversTask;
    forall t | t in db.tasks
      ensures next.tasks[t].state == SUCCEEDED <==> mid.tasks[t].state == SUCCEEDED
      ensures next.tasks[t].run == mid.tasks[t].run
    {
      RecoveredState(db, next, t, now);
    }
  }

  /** Recovery, at every moment of every trace: a task of an ACTIVE run whose lease has run out is in doubt exactly if
      its external effect is, and is else dispatched again, at once; so is a task of unknown outcome without an effect
      row; a notification counts as done once the report is published; nothing else changes. */
  lemma {:induction false} RecoverExactly(trace: Trace, i: nat, now: int)
    requires IsTrace(trace) && i < |trace.states|
    ensures var db, commit := trace.states[i], RecoverStale(trace.states[i], now);
      commit.answer == Done && Recovers(db, commit.db, now) && ClosesNotified(db, commit.db)
  {
    hide Safe, Orderly, IsTrace, FinishNotifications, RecoverTasks, Promote, Recovers, ClosesNotified, Stale,
      IsNotified, IsExpired, IsForgotten;
    TraceIsSafe(trace, i);
    EveryRunIsOrderly(trace, i);
    var db, mid := trace.states[i], FinishNotifications(trace.states[i]);
    FinishedNotifications(db);
    StaleAlike(db, mid, now);
    RecoveredExactly(db, mid, now);
    var recovered := RecoverTasks(mid, Stale(mid, now));
    StillClosed(db, mid, recovered, now);
    NoneAsleep(db, recovered, now);
  }

  /** So the third loop of the recovery finds nothing to do. */
  lemma NoneAsleep(db: Db, next: Db, now: int)
    requires Orderly(db) && Recovers(db, next, now) && ClosesNotified(db, next)
    ensures Promote(next, FailedFanoutRuns(next)) == next
  {
    hide Orderly, ClosesNotified, IsNotified, IsExpired, IsForgotten, NoOtherRows, Promote;
    NoJoinLeftAsleep(db);
    forall g | g in db.groups
      ensures RunIs(next, db.groups[g].run, ACTIVE) ==> RunIs(db, db.groups[g].run, ACTIVE)
    {
      if RunIs(next, db.groups[g].run, ACTIVE) { StaysActive(db, next, db.groups[g].run); }
    }
    assert FailedFanoutRuns(next) <= FailedFanoutRuns(db);
    assert FailedFanoutRuns(next) == {};
    PromoteNone(next);
  }

  lemma StaysActive(db: Db, next: Db, r: RunId)
    requires ClosesNotified(db, next) && RunIs(next, r, ACTIVE)
    ensures RunIs(db, r, ACTIVE)
  {
  }

  // ---------------------------------------------------------------------------------------------
  // Resumption
  // ---------------------------------------------------------------------------------------------

  /** The human's answer: the escalation is closed, its run goes on unless the row has changed meanwhile, and of its
      waiting tasks those whose external effect may have happened are in doubt, the others are dispatched again. */
  ghost predicate Resumes(db: Db, next: Db, e: EscalationId, runUnchanged: bool)
    requires e in db.escalations
  {
    var r := db.escalations[e].run;
    && next.tasks.Keys == db.tasks.Keys
    && (forall t :: t in db.tasks ==> ResumesTask(db, next, r, t))
    && NoOtherRows(db, next, set t | t in db.tasks && IsWaiting(db, r, t) && !InDoubt(db, t))
    && next.escalations == db.escalations[e := db.escalations[e].(open := false)]
    && next.runs == (if runUnchanged && r in db.runs && db.runs[r].state == WAITING_FOR_HUMAN
          then db.runs[r := db.runs[r].(state := ACTIVE)] else db.runs)
    && next.attempts == db.attempts && next.groups == db.groups && next.effects == db.effects
  }

  predicate IsWaiting(db: Db, r: RunId, t: TaskId) {
    t in db.tasks && db.tasks[t].run == r && db.tasks[t].state == WAITING
  }

  predicate ResumesTask(db: Db, next: Db, r: RunId, t: TaskId)
    requires t in db.tasks && t in next.tasks
  {
    var x := db.tasks[t];
    if !IsWaiting(db, r, t) then next.tasks[t] == x
    else if InDoubt(db, t) then next.tasks[t] == x.(state := UNKNOWN_OUTCOME, revision := x.revision + 1)
    else Redispatched(db, next, t, 0) && next.tasks[t].retriesScheduled == x.retriesScheduled
  }

  /** Only an open escalation can be answered, and its answer does exactly that. */
  lemma {:induction false} ResumeExactly(trace: Trace, i: nat, e: EscalationId, runUnchanged: bool)
    requires IsTrace(trace) && i < |trace.states|
    ensures var db, commit := trace.states[i], ResumeRun(trace.states[i], e, runUnchanged);
      if e in db.escalations && db.escalations[e].open
      then commit.answer == Done && Resumes(db, commit.db, e, runUnchanged)
      else commit == Commit(db, Null)
  {
    hide Safe, Doubt, Wake, SetRunState, Resumes;
    TraceIsSafe(trace, i);
    var db := trace.states[i];
    if e in db.escalations && db.escalations[e].open { ResumedExactly(db, e, runUnchanged); }
  }

  lemma DoubtedRow(tasks: Tasks, ps: set<TaskId>, t: TaskId)
    requires t in tasks
    ensures DoubtedTasks(tasks, ps)[t]
        == if t in ps then tasks[t].(state := UNKNOWN_OUTCOME, revision := tasks[t].revision + 1) else tasks[t]
  {
  }

  lemma DoubtedIds(tasks: Tasks, ps: set<TaskId>)
    ensures DoubtedTasks(tasks, ps).Keys == tasks.Keys
  {
  }

  lemma ResumedExactly(db: Db, e: EscalationId, runUnchanged: bool)
    requires Safe(db) && e in db.escalations && db.escalations[e].open
    ensures Resumes(db, ResumeRun(db, e, runUnchanged).db, e, runUnchanged)
  {
    hide Safe, Doubt, Wake, Waiting, NoOtherRows, ResumesTask, InDoubt, IsWaiting;
    var r := db.escalations[e].run;
    var active := if runUnchanged then SetRunState(CloseEscalation(db, e), r, WAITING_FOR_HUMAN, ACTIVE)
        else CloseEscalation(db, e);
    ResumedTasks(db, active, r);
  }

  lemma ResumedTasks(db: Db, active: Db, r: RunId)
    requires Safe(db) && active.tasks == db.tasks && active.dispatches == db.dispatches
    ensures Waiting(db, r, false) <= db.tasks.Keys
    ensures var next := Wake(Doubt(active, Waiting(db, r, true)), Waiting(db, r, false), 0);
      && next.tasks.Keys == db.tasks.Keys
      && (forall t :: t in db.tasks ==> ResumesTask(db, next, r, t))
      && NoOtherRows(db, next, set t | t in db.tasks && IsWaiting(db, r, t) && !InDoubt(db, t))
  {
    hide Safe, Wake, Redispatched, NoOtherRows, DoubtedTasks, Waiting, IsWaiting, InDoubt, ResumesTask, ReleasedFrom;
    var doubted, ps := Waiting(db, r, true), Waiting(db, r, false);
    WaitingKinds(db, r);
    DoubtedIds(db.tasks, doubted);
    var mid := Doubt(active, doubted);
    forall t | t in ps
      ensures ReleasedFrom(db.tasks[t], mid.tasks[t])
    {
      RestsUndoubted(db, t, doubted);
    }
    SafeRows(db);
    WokenExactly(db, mid, ps, 0);
    forall t | t in db.tasks
      ensures ResumesTask(db, Wake(mid, ps, 0), r, t)
    {
      DoubtedRow(db.tasks, doubted, t);
      ResumedTask(db, Wake(mid, ps, 0), r, t);
    }
  }

  lemma RestsUndoubted(db: Db, t: TaskId, doubted: set<TaskId>)
    requires Safe(db) && t in db.tasks && db.tasks[t].state == WAITING && t !in doubted
    ensures t in DoubtedTasks(db.tasks, doubted) && ReleasedFrom(db.tasks[t], DoubtedTasks(db.tasks, doubted)[t])
  {
    hide Safe;
    AtRest(db, t);
  }

  lemma WaitingKinds(db: Db, r: RunId)
    ensures forall t :: t in Waiting(db, r, true) <==> t in db.tasks && IsWaiting(db, r, t) && InDoubt(db, t)
    ensures Waiting(db, r, false) == set t | t in db.tasks && IsWaiting(db, r, t) && !InDoubt(db, t)
    ensures forall t :: IsWaiting(db, r, t) ==> t in db.tasks && db.tasks[t].state == WAITING
  {
  }

  lemma ResumedTask(db: Db, next: Db, r: RunId, t: TaskId)
    requires t in db.tasks && t in next.tasks
    requires if IsWaiting(db, r, t) && !InDoubt(db, t)
              then Redispatched(db, next, t, 0) && next.tasks[t].retriesScheduled == db.tasks[t].retriesScheduled
              else if IsWaiting(db, r, t) then next.tasks[t] == db.tasks[t].(state := UNKNOWN_OUTCOME,
                  revision := db.tasks[t].revision + 1)
              else next.tasks[t] == db.tasks[t]
    ensures ResumesTask(db, next, r, t)
  {
    hide Redispatched, IsWaiting, InDoubt;
  }


  /** A resolution lets the run go on, and wakes nothing. */
  lemma ResolveExactly(db: Db, e: EscalationId, successor: Option<RunId>)
    ensures var commit := ResolveEscalation(db, e, successor);
      if !(e in db.escalations && db.escalations[e].open) then commit == Commit(db, Refused(STALE_ESCALATION_VERSION))
      else if !db.escalations[e].changesInputs then
        var r := db.escalations[e].run;
        && commit.answer == Done
        && commit.db == db.(escalations := db.escalations[e := db.escalations[e].(open := false)],
              runs := if r in db.runs && db.runs[r].state == WAITING_FOR_HUMAN
                then db.runs[r := db.runs[r].(state := ACTIVE)] else db.runs)
      else if successor == None then commit == Commit(db, Refused(NEW_IMMUTABLE_VERSION_REQUIRED))
      else commit.answer == if successor.value in db.runs then Refused(CONSTRAINT_VIOLATED) else Done
  {
  }
}
