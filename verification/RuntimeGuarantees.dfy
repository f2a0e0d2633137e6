/** What the invariant means for workers, messages and runs. */
module RuntimeGuarantees {
  import opened Wrappers
  import opened RuntimeState
  import opened RuntimeTransitions
  import opened RuntimeInvariant
  import opened RuntimeUnits
  import opened RuntimeSafety
  import opened RuntimeTraces

  // ---------------------------------------------------------------------------------------------
  // Wakeups
  // ---------------------------------------------------------------------------------------------

  /** No lost wakeup: in every reachable database each RUNNABLE task has the row of its revision, a row at
      a task's revision belongs to a RUNNABLE task, and the reconciler's repair insert finds nothing. */
  lemma {:induction false} NoLostWakeup(trace: Trace, i: nat, now: int)
    requires IsTrace(trace) && i < |trace.states|
    ensures var db := trace.states[i];
      && (forall t :: t in db.tasks ==>
          (db.tasks[t].state == RUNNABLE <==> DispatchKey(t, db.tasks[t].revision) in db.dispatches))
      && (forall k :: k in db.dispatches ==> k.task in db.tasks && k.version <= db.tasks[k.task].revision)
      && Undispatched(db, now) == {}
  {
    hide Linked, Leased, Attempted, Counted, RetriesBounded, Honest, Budgeted, IsTrace, Undispatched;
    TraceIsSafe(trace, i);
    NothingUndispatched(trace.states[i], now);
  }

  /** A row once written is never deleted, and while its task stays RUNNABLE at its version it stays the
      task's current row, whatever happens in between. */
  lemma {:induction false} RowSurvives(trace: Trace, i: nat, j: nat, t: TaskId)
    requires IsTrace(trace) && i <= j < |trace.states| && t in trace.states[i].tasks
        && trace.states[i].tasks[t].state == RUNNABLE
    ensures var version, later := trace.states[i].tasks[t].revision, trace.states[j];
      && DispatchKey(t, version) in later.dispatches
      && t in later.tasks
      && (later.tasks[t].revision == version ==> later.tasks[t].state == RUNNABLE)
  {
    hide Linked, Leased, Attempted, Counted, RetriesBounded, Honest, Budgeted, IsTrace;
    TraceAdvances(trace, i, j);
  }

  /** Whether the reconciler may take the row up at `now`. */
  predicate TakenUp(d: Dispatch, now: int, republishAfterMs: int) {
    match d.state
    case DISPATCH_PENDING => d.availableAt <= now
    case PUBLISHING => PublishExpired(d, now) && d.availableAt <= now
    case PUBLISHED => d.confirmedAt.Some? && d.confirmedAt.value <= now - republishAfterMs
  }

  /** A current row of an active run that is lost on the broker, or whose publisher died, becomes
      publishable again at the next reconciliation late enough. */
  lemma {:induction false} LostDeliveryIsRepublished(trace: Trace, i: nat, t: TaskId, now: int, republishAfterMs: int)
    requires IsTrace(trace) && i < |trace.states| && republishAfterMs > 0
    requires t in trace.states[i].tasks && trace.states[i].tasks[t].state == RUNNABLE
        && RunIs(trace.states[i], trace.states[i].tasks[t].run, ACTIVE)
    ensures var db, k := trace.states[i], DispatchKey(t, trace.states[i].tasks[t].revision);
      && k in db.dispatches
      && (TakenUp(db.dispatches[k], now, republishAfterMs) ==>
          k in Publishable(Reconcile(db, now, Some(republishAfterMs)).db, now))
  {
    hide IsTrace, Safe, Reconcile, TakenUp, Publishable;
    TraceIsSafe(trace, i);
    RowIsTakenUp(trace.states[i], t, now, republishAfterMs);
  }

  lemma RowIsTakenUp(db: Db, t: TaskId, now: int, republishAfterMs: int)
    requires Safe(db) && republishAfterMs > 0
    requires t in db.tasks && db.tasks[t].state == RUNNABLE && RunIs(db, db.tasks[t].run, ACTIVE)
    ensures var k := DispatchKey(t, db.tasks[t].revision);
      && k in db.dispatches
      && (TakenUp(db.dispatches[k], now, republishAfterMs) ==>
          k in Publishable(Reconcile(db, now, Some(republishAfterMs)).db, now))
  {
    hide Linked, Leased, Attempted, Counted, RetriesBounded, Honest, Budgeted, Reconcile, Keeps, ExpirePublishing,
      Republish;
    var k := DispatchKey(t, db.tasks[t].revision);
    ReconcileReopens(db, now, Some(republishAfterMs));
    ExpiredRow(db, k, now);
    RepublishedRow(ExpirePublishing(db, now), k, now, republishAfterMs);
  }

  lemma ExpiredRow(db: Db, k: DispatchKey, now: int)
    requires k in db.dispatches
    ensures k in ExpirePublishing(db, now).dispatches
    ensures ExpirePublishing(db, now).dispatches[k] == if PublishExpired(db.dispatches[k], now)
        then Reopened(db.dispatches[k]) else db.dispatches[k]
  {
  }

  lemma RepublishedRow(db: Db, k: DispatchKey, now: int, republishAfterMs: int)
    requires k in db.dispatches
    ensures k in Republish(db, now, republishAfterMs).dispatches
    ensures Republish(db, now, republishAfterMs).dispatches[k]
          == if Overdue(db, k, now, republishAfterMs) then Reopened(db.dispatches[k]).(availableAt := now)
              else db.dispatches[k]
  {
  }

  // ---------------------------------------------------------------------------------------------
  // Claims and fencing
  // ---------------------------------------------------------------------------------------------

  /** Only claims create attempts. */
  predicate IsClaim(s: Step) {
    s.DoClaim? || s.DoClaimById?
  }

  lemma OnlyClaimsStart(db: Db, s: Step)
    requires !IsClaim(s)
    ensures Next(db, s).attempts.Keys == db.attempts.Keys
  {
    hide CreateRun, MaterializeFanout, CompleteFanout, Heartbeat, WaitForHuman, ResumeRun, ResolveEscalation, Defer,
      Outcome, RecoverStale, ClaimDispatchBatch, ConfirmDispatch, FailDispatch, DeferPublishedDispatch, Reconcile,
      Promote;
    match s
    case DoCreateRun(r, plan, limit, last, artifacts) => CreateRunFrame(db, r, plan, limit, last, artifacts);
    case DoPromote(r) =>
    case DoMaterialize(coordinator, join, d) => MaterializeFrame(db, coordinator, join, d);
    case DoCompleteFanout(g) => CompleteFanoutFrame(db, g);
    case DoHeartbeat(c, now, leaseMs) => HeartbeatFrame(db, c, now, leaseMs);
    case DoRecordEffect(t, effect) =>
    case DoWaitForHuman(c, obstacle, e) => WaitForHumanStartsNone(db, c, obstacle, e);
    case DoResumeRun(e, runUnchanged) => ResumeRunFrame(db, e, runUnchanged);
    case DoResolveEscalation(e, successor) => ResolveEscalationFrame(db, e, successor);
    case DoDefer(c, now, retryAfterMs) => DeferStartsNone(db, c, now, retryAfterMs);
    case DoOutcome(c, v, now) => OutcomeStartsNone(db, c, v, now);
    case DoRecoverStale(now) => RecoverStaleStartsNone(db, now);
    case DoClaimDispatchBatch(publisher, now, leaseMs, size, batch) =>
      ClaimDispatchBatchFrame(db, publisher, now, leaseMs, size, batch);
    case DoConfirmDispatch(k, publisher, now) => PublisherFrame(db, k, publisher, now);
    case DoFailDispatch(k, publisher, retryAt) => PublisherFrame(db, k, publisher, retryAt);
    case DoDeferPublished(t, version, retryAt) => DeferPublishedFrame(db, t, version, retryAt);
    case DoReconcile(now, republishAfterMs) => ReconcileFrame(db, now, republishAfterMs);
  }

  lemma CreateRunFrame(db: Db, r: RunId, plan: seq<PlanTask>, limit: int, last: Option<RunId>, artifacts: set<string>)
    ensures var next := CreateRun(db, r, plan, limit, last, artifacts).db;
            next == db.(runs := next.runs, tasks := next.tasks, dispatches := next.dispatches)
  {
    hide InsertPlan, RecoverySource, ReusedCount, InsertableDependencies;
  }

  lemma MaterializeFrame(db: Db, coordinator: TaskId, join: TaskId, d: Descriptor)
    ensures var next := MaterializeFanout(db, coordinator, join, d).db;
        next == db.(tasks := next.tasks, groups := next.groups)
  {
    hide InsertGroup, ShardsInsertable, CoordinatorRunning;
  }

  lemma CompleteFanoutFrame(db: Db, g: GroupId)
    ensures CompleteFanout(db, g).db == db.(groups := CompleteFanout(db, g).db.groups)
  {
    hide Required;
  }

  lemma HeartbeatFrame(db: Db, c: Credential, now: int, leaseMs: int)
    ensures Heartbeat(db, c, now, leaseMs).db == db.(tasks := Heartbeat(db, c, now, leaseMs).db.tasks)
  {
  }

  lemma ResumeRunFrame(db: Db, e: EscalationId, runUnchanged: bool)
    ensures var next := ResumeRun(db, e, runUnchanged).db;
            next == db.(runs := next.runs, tasks := next.tasks, dispatches := next.dispatches,
                escalations := next.escalations)
  {
    hide Wake, Doubt, SetRunState, CloseEscalation, Waiting;
    if e in db.escalations && db.escalations[e].open { ResumedWaiting(db, db.escalations[e].run); }
  }

  lemma ResumedWaiting(db: Db, r: RunId)
    ensures Waiting(db, r, false) <= db.tasks.Keys
  {
  }

  /** A resolution closes its escalation and moves a run that waits, or inserts one without tasks and plan. */
  lemma ResolvedRows(db: Db, e: EscalationId, successor: Option<RunId>)
    ensures var next := ResolveEscalation(db, e, successor).db;
      && db.runs.Keys <= next.runs.Keys
      && (forall r :: r in db.runs ==>
            && next.runs[r] == db.runs[r].(state := next.runs[r].state)
            && (next.runs[r].state == db.runs[r].state || ResolvesRun(db, e, next, r)))
      && (forall r :: r in next.runs && r !in db.runs ==> next.runs[r] == Run(ACTIVE, 0, 0, 1, []))
      && (next == db || (e in db.escalations
          && next.escalations == db.escalations[e := db.escalations[e].(open := false)]))
  {
    hide Reactivate, Supersede;
    if e in db.escalations && db.escalations[e].open {
      ReactivatedRuns(db, e);
      if successor.Some? && successor.value !in db.runs { SupersededRuns(db, e, successor.value); }
    }
  }

  lemma ReactivatedRuns(db: Db, e: EscalationId)
    requires e in db.escalations && db.escalations[e].open
    ensures var next := Reactivate(db, e);
      && next.escalations == db.escalations[e := db.escalations[e].(open := false)] && next.runs.Keys == db.runs.Keys
      && forall r :: r in db.runs ==>
            && next.runs[r] == db.runs[r].(state := next.runs[r].state)
            && (next.runs[r].state == db.runs[r].state || ResolvesRun(db, e, next, r))
  {
  }

  lemma SupersededRuns(db: Db, e: EscalationId, n: RunId)
    requires e in db.escalations && db.escalations[e].open && n !in db.runs
    ensures var next := Supersede(db, e, n);
      && next.escalations == db.escalations[e := db.escalations[e].(open := false)]
          && next.runs.Keys == db.runs.Keys + {n}
      && next.runs[n] == Run(ACTIVE, 0, 0, 1, [])
      && forall r :: r in db.runs ==>
            && next.runs[r] == db.runs[r].(state := next.runs[r].state)
            && (next.runs[r].state == db.runs[r].state || ResolvesRun(db, e, next, r))
  {
  }

  /** The run waits for the human that resolves `e`, and goes on or is superseded. */
  predicate ResolvesRun(db: Db, e: EscalationId, next: Db, r: RunId) {
    && e in db.escalations && db.escalations[e].open && db.escalations[e].run == r
    && RunIs(db, r, WAITING_FOR_HUMAN) && (RunIs(next, r, ACTIVE) || RunIs(next, r, SUPERSEDED))
  }

  lemma ResolveEscalationFrame(db: Db, e: EscalationId, successor: Option<RunId>)
    ensures var next := ResolveEscalation(db, e, successor).db;
        next == db.(runs := next.runs, escalations := next.escalations)
  {
    hide Reactivate, Supersede;
  }

  lemma ClaimDispatchBatchFrame(db: Db, publisher: string, now: int, leaseMs: int, limit: int, batch: set<DispatchKey>)
    ensures var next := ClaimDispatchBatch(db, publisher, now, leaseMs, limit, batch).db;
        next == db.(dispatches := next.dispatches)
  {
    hide ExpirePublishing, Publishable;
  }

  lemma PublisherFrame(db: Db, k: DispatchKey, publisher: string, at: int)
    ensures ConfirmDispatch(db, k, publisher, at).db ==
        db.(dispatches := ConfirmDispatch(db, k, publisher, at).db.dispatches)
    ensures FailDispatch(db, k, publisher, at).db == db.(dispatches := FailDispatch(db, k, publisher, at).db.dispatches)
  {
  }

  lemma DeferPublishedFrame(db: Db, t: TaskId, version: nat, retryAt: int)
    ensures var next := DeferPublishedDispatch(db, t, version, retryAt).db; next == db.(dispatches := next.dispatches)
  {
  }

  lemma ReconcileFrame(db: Db, now: int, republishAfterMs: Option<int>)
    ensures var next := Reconcile(db, now, republishAfterMs).db;
        next == db.(tasks := next.tasks, dispatches := next.dispatches)
  {
    hide ExpirePublishing, Republish, Enqueue, Undispatched;
  }

  lemma WaitForHumanStartsNone(db: Db, c: Credential, obstacle: string, e: EscalationId)
    ensures WaitForHuman(db, c, obstacle, e).db.attempts.Keys == db.attempts.Keys
  {
    hide SetRunState;
  }

  lemma DeferStartsNone(db: Db, c: Credential, now: int, retryAfterMs: int)
    ensures Defer(db, c, now, retryAfterMs).db.attempts.Keys == db.attempts.Keys
  {
    hide Wake, Refund;
  }

  lemma RecordVerdictStartsNone(db: Db, c: Credential, v: Verdict)
    ensures RecordVerdict(db, c, v).attempts.Keys == db.attempts.Keys
  {
  }

  lemma OutcomeStartsNone(db: Db, c: Credential, v: Verdict, now: int)
    ensures Outcome(db, c, v, now).db.attempts.Keys == db.attempts.Keys
  {
    hide RecordVerdict, Wake, Promote, FailGroup, CompleteRun, SetRunState, FailedAttemptsOf, StoppedTasks;
    RecordVerdictStartsNone(db, c, v);
  }

  lemma RecoverStaleStartsNone(db: Db, now: int)
    ensures RecoverStale(db, now).db.attempts.Keys == db.attempts.Keys
  {
    hide FinishNotifications, Promote, Wake, FailedFanoutRuns, Stale;
    StaleExist(FinishNotifications(db), now);
  }

  lemma StaleExist(db: Db, now: int)
    ensures Stale(db, now) <= db.tasks.Keys
  {
  }

  /** A message delivered again after its version was claimed starts nothing, however late it arrives. */
  lemma {:induction false} DuplicateDeliveryStartsNothing(trace: Trace, i: nat, j: nat, x: AttemptId,
      route: RoutingClass,
      worker: Worker, now: int, leaseMs: int, limits: Limits, a: AttemptId)
    requires IsTrace(trace) && i <= j < |trace.states| && x in trace.states[i].attempts
    ensures var started := trace.states[i].attempts[x];
      ClaimById(trace.states[j], started.task, started.claimedVersion, route, worker, now, leaseMs, limits, a) ==
          Commit(trace.states[j], Null)
  {
    hide IsTrace, Linked, Leased, Dispatched, Counted, RetriesBounded, Honest, Budgeted, RunFull, PoolFull, Startable,
      DependencyBlocked, Eligible;
    TraceAdvances(trace, i, j);
    assert AttemptSound(trace.states[j].tasks, trace.states[j].attempts[x]);
  }

  /** At most one attempt is ever created for a version of a task; attempt_count, the fencing token and
      the number of attempts agree; a task is RUNNING exactly while it has one RUNNING attempt, which
      carries the task's owner and token. */
  lemma {:induction false} AttemptsAreFenced(trace: Trace, i: nat, t: TaskId)
    requires IsTrace(trace) && i < |trace.states| && t in trace.states[i].tasks
    ensures var db := trace.states[i];
      && (forall x, y :: x in AttemptsOf(db.attempts, t) && y in AttemptsOf(db.attempts, t) && x != y ==>
            db.attempts[x].claimedVersion != db.attempts[y].claimedVersion)
      && db.tasks[t].attemptCount == db.tasks[t].leaseToken == |AttemptsOf(db.attempts, t)|
      && (db.tasks[t].state == RUNNING <==> exists x :: Open(db.attempts, x, t))
      && (forall x, y :: Open(db.attempts, x, t) && Open(db.attempts, y, t) ==> x == y)
      && (forall x ::
          Open(db.attempts, x, t) ==>
          db.attempts[x].token == db.tasks[t].leaseToken && Some(db.attempts[x].owner) == db.tasks[t].leaseOwner)
  {
    hide Linked, Leased, Dispatched, RetriesBounded, Honest, Budgeted, IsTrace;
    TraceIsSafe(trace, i);
    var db := trace.states[i];
    forall x | x in db.attempts
      ensures AttemptSound(db.tasks, db.attempts[x])
    {
    }
    forall x, y | x in db.attempts && y in db.attempts && db.attempts[x].task == t == db.attempts[y].task && x != y
      ensures db.attempts[x].claimedVersion != db.attempts[y].claimedVersion
          && db.attempts[x].token != db.attempts[y].token
    {
      assert Distinct(db.attempts[x], db.attempts[y]);
    }
  }

  /** Once an attempt is closed, no command quoting it changes anything, ever. */
  lemma {:induction false} ClosedAttemptChangesNothing(trace: Trace, i: nat, j: nat, c: Credential, now: int,
      leaseMs: int, v: Verdict, obstacle: string, e: EscalationId)
    requires IsTrace(trace) && i <= j < |trace.states| && Issued(trace.states[i], c)
        && trace.states[i].attempts[c.attempt].state != ATTEMPT_RUNNING
    ensures var later := trace.states[j];
      && Heartbeat(later, c, now, leaseMs).db == later && Heartbeat(later, c, now, leaseMs).answer.Refused?
      && Defer(later, c, now, leaseMs).db == later && Defer(later, c, now, leaseMs).answer.Refused?
      && Outcome(later, c, v, now).db == later && Outcome(later, c, v, now).answer.Refused?
      && WaitForHuman(later, c, obstacle, e).db == later && WaitForHuman(later, c, obstacle, e).answer.Refused?
  {
    hide IsTrace, Linked, Leased, Dispatched, Attempted, Counted, RetriesBounded, Honest, Budgeted;
    TraceAdvances(trace, i, j);
    var later := trace.states[j];
    if HoldsLease(later, c) {
      LeaseHolderIsOpen(later, c);
      assert false;
    }
  }

  /** An older token is the token of a closed attempt: it is refused in the same way. */
  lemma {:induction false} OlderTokenIsClosed(trace: Trace, i: nat, c: Credential)
    requires IsTrace(trace) && i < |trace.states| && Issued(trace.states[i], c) && c.task in trace.states[i].tasks
    requires c.token < trace.states[i].tasks[c.task].leaseToken
    ensures trace.states[i].attempts[c.attempt].state != ATTEMPT_RUNNING
  {
    hide IsTrace, Linked, Leased, Dispatched, Counted, RetriesBounded, Honest, Budgeted;
    TraceIsSafe(trace, i);
    assert AttemptSound(trace.states[i].tasks, trace.states[i].attempts[c.attempt]);
  }

  /** The stored routing class always is the tool's, so this refusal is dead code. */
  lemma RouteMismatchIsNeverAnswered(db: Db, t: TaskId, version: nat, route: RoutingClass, worker: Worker, now: int,
      leaseMs: int, limits: Limits, a: AttemptId)
    requires Safe(db)
    ensures ClaimById(db, t, version, route, worker, now, leaseMs, limits,
        a).answer != Refused(RABBIT_TASK_ROUTE_MISMATCH)
  {
    hide Linked, Leased, Dispatched, Attempted, Counted, RetriesBounded, Honest, Budgeted, AtVersion, RunFull, PoolFull,
      Startable, DependencyBlocked, StartAttempt, StartGroup;
    if AtVersion(db, t, version, route) {
      RouteIsTools(db, t, version, route);
    }
  }

  lemma RouteIsTools(db: Db, t: TaskId, version: nat, route: RoutingClass)
    requires Linked(db.runs, db.tasks, db.groups) && AtVersion(db, t, version, route)
    ensures t in db.tasks && db.tasks[t].tool.routingClass == route
  {
    assert TaskSound(db.runs, db.tasks, db.groups, t);
  }

  /** When a claim of a task that is still RUNNABLE at the message's version is answered null. */
  lemma NullClaimExactly(db: Db, t: TaskId, version: nat, route: RoutingClass, worker: Worker, now: int, leaseMs: int,
      limits: Limits, a: AttemptId)
    requires Safe(db) && AtVersion(db, t, version, route) && 0 <= now
    ensures var r := db.tasks[t].run;
      ClaimById(db, t, version, route, worker, now, leaseMs, limits, a).answer == Null <==>
        || !RunIs(db, r, ACTIVE)
        || (!BudgetLeft(db, r) && !RunFull(db, r, route, limits) && !PoolFull(db, route, limits) && Eligible(db, t)
            && db.tasks[t].availableAt <= now)
  {
    hide Linked, Dispatched, Attempted, Counted, RetriesBounded, Honest, Budgeted, RunFull, PoolFull, StartAttempt,
      StartGroup, Blocks;
    assert LeaseSound(db.tasks[t]);
  }

  // ---------------------------------------------------------------------------------------------
  // Final states
  // ---------------------------------------------------------------------------------------------

  /** Succeeded and failed tasks never move, and ended runs never change state. */
  lemma {:induction false} FinishedStaysFinished(trace: Trace, i: nat, j: nat)
    requires IsTrace(trace) && i <= j < |trace.states|
    ensures var db, later := trace.states[i], trace.states[j];
      && (forall t ::
          t in db.tasks && db.tasks[t].state in {SUCCEEDED, FAILED} ==>
          t in later.tasks && later.tasks[t].state == db.tasks[t].state)
      && (forall r ::
          r in db.runs && db.runs[r].state in {RUN_SUCCEEDED, RUN_FAILED, SUPERSEDED} ==>
          r in later.runs && later.runs[r].state == db.runs[r].state)
  {
    hide IsTrace, Safe;
    TraceAdvances(trace, i, j);
    var db, later := trace.states[i], trace.states[j];
    forall t | t in db.tasks && db.tasks[t].state in {SUCCEEDED, FAILED}
      ensures t in later.tasks && later.tasks[t].state == db.tasks[t].state
    {
      assert TaskAdvances(db.tasks[t], later.tasks[t]);
    }
  }

  /** From the moment a run is reported as succeeded, every task it has or ever gets is SUCCEEDED. */
  lemma {:induction false} SucceededRunIsHonest(trace: Trace, i: nat, j: nat, r: RunId)
    requires IsTrace(trace) && i <= j < |trace.states| && RunIs(trace.states[i], r, RUN_SUCCEEDED)
    ensures AllSucceeded(trace.states[j], r)
  {
    hide IsTrace, Linked, Leased, Dispatched, Attempted, Counted, RetriesBounded, Budgeted;
    TraceAdvances(trace, i, j);
  }

  // ---------------------------------------------------------------------------------------------
  // Budgets
  // ---------------------------------------------------------------------------------------------

  /** The ledger of a run counts exactly its attempts that were not handed back, and stays within the
      limit the run was created with; failures requeue a task at most `maxAttempts - 1` times. */
  lemma {:induction false} LedgerCounts(trace: Trace, i: nat, r: RunId, t: TaskId)
    requires IsTrace(trace) && i < |trace.states|
    ensures var db := trace.states[i];
      && (r in db.runs ==> db.runs[r].attemptsUsed == |ChargedTo(db.attempts, r)| <= db.runs[r].attemptsLimit)
      && (t in db.tasks && db.tasks[t].retriesScheduled > 0 ==>
          db.tasks[t].retriesScheduled <= db.tasks[t].tool.maxAttempts - 1)
  {
    hide IsTrace, Linked, Leased, Dispatched, Attempted, Counted, Honest, ChargedTo, FailedAttemptsOf;
    TraceIsSafe(trace, i);
  }

  /** The clamp of the refund never acts: a deferral that is accepted takes exactly one from the ledger. */
  lemma {:induction false} RefundIsExact(trace: Trace, i: nat, c: Credential, now: int, retryAfterMs: int)
    requires IsTrace(trace) && i < |trace.states| && Defer(trace.states[i], c, now, retryAfterMs).answer == Done
    ensures var db, r := trace.states[i], trace.states[i].tasks[c.task].run;
      r in db.runs && Defer(db, c, now, retryAfterMs).db.runs[r].attemptsUsed == db.runs[r].attemptsUsed - 1
  {
    hide IsTrace, Linked, Leased, Dispatched, Attempted, Counted, RetriesBounded, Honest, Budgeted, Wake;
    TraceIsSafe(trace, i);
    var db := trace.states[i];
    RunExists(db.runs, db.tasks, db.groups, c.task);
    RefundBalances(db.runs, db.attempts, c.attempt, db.tasks[c.task].run);
  }

  // ---------------------------------------------------------------------------------------------
  // Concurrency limits
  // ---------------------------------------------------------------------------------------------

  /** Tasks start running only in claims. */
  lemma OnlyClaimsRun(db: Db, s: Step, t: TaskId)
    requires Safe(db) && Quoted(db, s) && !IsClaim(s)
    requires t in Next(db, s).tasks && Next(db, s).tasks[t].state == RUNNING
    ensures t in db.tasks && db.tasks[t].state == RUNNING && db.tasks[t].tool == Next(db, s).tasks[t].tool
  {
    hide Linked, Leased, Dispatched, Counted, RetriesBounded, Honest, Budgeted, Next, Quoted;
    StepKeepsSafe(db, s);
    OnlyClaimsStart(db, s);
    var x :| Open(Next(db, s).attempts, x, t);
    assert AttemptSound(db.tasks, db.attempts[x]);
    assert TaskAdvances(db.tasks[t], Next(db, s).tasks[t]);
  }

  ghost predicate WithinLimits(db: Db, limits: Limits) {
    && (forall r, c :: |RunningIn(db, r, c)| <= limits.maxPerRun)
    && (forall c :: |RunningPool(db, c)| <= limits.maxActivePool)
  }

  /** Every claim is a claim by id under the same limits. */
  predicate Limited(s: Step, limits: Limits) {
    !s.DoClaim? && (s.DoClaimById? ==> s.limits == limits)
  }

  lemma StepWithinLimits(db: Db, s: Step, limits: Limits)
    requires Safe(db) && Quoted(db, s) && Limited(s, limits) && WithinLimits(db, limits)
    ensures WithinLimits(Next(db, s), limits)
  {
    hide Safe, Advances, Next, Quoted, RunningIn, RunningPool;
    if s.DoClaimById? {
      ClaimWithinLimits(db, s);
    } else {
      forall r, c
        ensures |RunningIn(Next(db, s), r, c)| <= limits.maxPerRun
      {
        FewerRun(db, s, r, c);
      }
      forall c
        ensures |RunningPool(Next(db, s), c)| <= limits.maxActivePool
      {
        FewerRun(db, s, "", c);
      }
    }
  }

  lemma FewerRun(db: Db, s: Step, r: RunId, c: RoutingClass)
    requires Safe(db) && Quoted(db, s) && !IsClaim(s)
    ensures |RunningIn(Next(db, s), r, c)| <= |RunningIn(db, r, c)|
    ensures |RunningPool(Next(db, s), c)| <= |RunningPool(db, c)|
  {
    hide Leased, Dispatched, Attempted, Counted, RetriesBounded, Honest, Budgeted, Next, Quoted, Advances;
    StepKeepsSafe(db, s);
    var next := Next(db, s);
    forall t | t in next.tasks && next.tasks[t].state == RUNNING
      ensures t in db.tasks && db.tasks[t].state == RUNNING && db.tasks[t].run == next.tasks[t].run
          && db.tasks[t].routingClass == next.tasks[t].routingClass
    {
      OnlyClaimsRun(db, s, t);
      assert TaskSound(db.runs, db.tasks, db.groups, t) && TaskSound(next.runs, next.tasks, next.groups, t);
    }
    hide Linked;
    Smaller(RunningIn(next, r, c), RunningIn(db, r, c));
    Smaller(RunningPool(next, c), RunningPool(db, c));
  }

  lemma ClaimWithinLimits(db: Db, s: Step)
    requires s.DoClaimById? && WithinLimits(db, s.limits)
    ensures WithinLimits(Next(db, s), s.limits)
  {
    hide RunningIn, RunningPool, Startable, DependencyBlocked, StartGroup;
    var next := Next(db, s);
    forall r, c
      ensures |RunningIn(next, r, c)| <= s.limits.maxPerRun
    {
      if next.tasks == db.tasks { SameRunning(db, next, r, c); } else { OneMoreRuns(db, next, s.t, r, c); }
    }
    forall c
      ensures |RunningPool(next, c)| <= s.limits.maxActivePool
    {
      if next.tasks == db.tasks { SameRunning(db, next, "", c); } else { OneMoreRuns(db, next, s.t, "", c); }
    }
  }

  lemma SameRunning(db: Db, next: Db, r: RunId, c: RoutingClass)
    requires next.tasks == db.tasks
    ensures RunningIn(next, r, c) == RunningIn(db, r, c) && RunningPool(next, c) == RunningPool(db, c)
  {
  }

  lemma OneMoreRuns(db: Db, next: Db, t: TaskId, r: RunId, c: RoutingClass)
    requires t in db.tasks && t in next.tasks
    requires next.tasks == db.tasks[t := next.tasks[t]] && next.tasks[t].run == db.tasks[t].run
        && next.tasks[t].routingClass == db.tasks[t].routingClass
    ensures |RunningIn(next, r, c)| <= |RunningIn(db, r, c)| + if db.tasks[t].run == r && db.tasks[t].routingClass == c
        then 1 else 0
    ensures |RunningPool(next, c)| <= |RunningPool(db, c)| + if db.tasks[t].routingClass == c then 1 else 0
  {
    hide RunningPool, RunningIn;
    OneMoreInRun(db, next, t, r, c);
    OneMoreInPool(db, next, t, c);
  }

  lemma OneMoreInRun(db: Db, next: Db, t: TaskId, r: RunId, c: RoutingClass)
    requires t in db.tasks && t in next.tasks
    requires next.tasks == db.tasks[t := next.tasks[t]] && next.tasks[t].run == db.tasks[t].run
        && next.tasks[t].routingClass == db.tasks[t].routingClass
    ensures |RunningIn(next, r, c)| <= |RunningIn(db, r, c)| + if db.tasks[t].run == r && db.tasks[t].routingClass == c
        then 1 else 0
  {
    if db.tasks[t].run == r && db.tasks[t].routingClass == c {
      Smaller(RunningIn(next, r, c), RunningIn(db, r, c) + {t});
    } else {
      Smaller(RunningIn(next, r, c), RunningIn(db, r, c));
    }
  }

  lemma OneMoreInPool(db: Db, next: Db, t: TaskId, c: RoutingClass)
    requires t in db.tasks && t in next.tasks
    requires next.tasks == db.tasks[t := next.tasks[t]] && next.tasks[t].routingClass == db.tasks[t].routingClass
    ensures |RunningPool(next, c)| <= |RunningPool(db, c)| + if db.tasks[t].routingClass == c then 1 else 0
  {
    if db.tasks[t].routingClass == c {
      Smaller(RunningPool(next, c), RunningPool(db, c) + {t});
    } else {
      Smaller(RunningPool(next, c), RunningPool(db, c));
    }
  }

  /** With claims only by id under fixed limits, the limits hold at every moment of every run. */
  lemma {:induction false} LimitsHold(trace: Trace, i: nat, limits: Limits)
    requires IsTrace(trace) && i < |trace.states| && IsLimited(trace, limits)
    ensures WithinLimits(trace.states[i], limits)
    decreases i
  {
    hide Safe, Quoted, Next, RunningIn, RunningPool, WithinLimits, Limited;
    if i == 0 {
      NothingRuns(limits);
    } else {
      LimitsHold(trace, i - 1, limits);
      TraceIsSafe(trace, i - 1);
      StepWithinLimits(trace.states[i - 1], trace.steps[i - 1], limits);
    }
  }

  ghost predicate IsLimited(trace: Trace, limits: Limits) {
    forall i {:trigger trace.steps[i]} :: 0 <= i < |trace.steps| ==> Limited(trace.steps[i], limits)
  }

  lemma NothingRuns(limits: Limits)
    ensures WithinLimits(EMPTY, limits)
  {
    forall r, c
      ensures RunningIn(EMPTY, r, c) == {} && RunningPool(EMPTY, c) == {}
    {
    }
  }

  // ---------------------------------------------------------------------------------------------
  // The attempt a command quotes
  // ---------------------------------------------------------------------------------------------

  /** `outcome` checks owner and token of the quoted attempt but not its task. Among the commands it
      accepts, those that keep attempts and tasks in step are exactly those quoting an attempt of the
      task itself. */
  lemma {:induction false} OutcomeKeepsAttemptsExactly(trace: Trace, i: nat, c: Credential, v: Verdict, now: int)
    requires IsTrace(trace) && i < |trace.states| && Outcome(trace.states[i], c, v, now).answer == Done
    ensures c.attempt in trace.states[i].attempts
    ensures var next := Outcome(trace.states[i], c, v, now).db;
      Attempted(next.tasks, next.attempts) <==> trace.states[i].attempts[c.attempt].task == c.task
  {
    hide IsTrace, Linked, Leased, Dispatched, Attempted, Counted, RetriesBounded, Honest, Budgeted, Outcome;
    TraceIsSafe(trace, i);
    OutcomeAccepted(trace.states[i], c, v, now);
    if trace.states[i].attempts[c.attempt].task == c.task {
      OutcomeKeeps(trace.states[i], c, v, now);
    } else {
      ForeignOutcomeStrands(trace.states[i], c, v, now);
    }
  }

  /** `waitForHuman` checks the quoted attempt in no way: not its task, owner or token, and not that it is open.
      The accepted commands that keep attempts and tasks in step are exactly those quoting the open attempt of
      the task. */
  lemma {:induction false} WaitKeepsAttemptsExactly(trace: Trace, i: nat, c: Credential, obstacle: string,
      e: EscalationId)
    requires IsTrace(trace) && i < |trace.states| && WaitForHuman(trace.states[i], c, obstacle, e).answer == Done
    ensures var next := WaitForHuman(trace.states[i], c, obstacle, e).db;
      Attempted(next.tasks, next.attempts) <==> Open(trace.states[i].attempts, c.attempt, c.task)
  {
    hide IsTrace, Linked, Leased, Dispatched, Attempted, Counted, RetriesBounded, Honest, Budgeted, WaitForHuman,
      Advances;
    TraceIsSafe(trace, i);
    WaitHoldsLease(trace.states[i], c, obstacle, e);
    if Open(trace.states[i].attempts, c.attempt, c.task) {
      OpenIsIssued(trace.states[i], c);
      WaitForHumanKeeps(trace.states[i], c, obstacle, e);
    } else {
      ForeignWaitStrands(trace.states[i], c, obstacle, e);
    }
  }

  lemma WaitHoldsLease(db: Db, c: Credential, obstacle: string, e: EscalationId)
    requires WaitForHuman(db, c, obstacle, e).answer == Done
    ensures HoldsLease(db, c)
  {
    hide SetRunState, Suspend;
  }

  lemma OpenIsIssued(db: Db, c: Credential)
    requires Attempted(db.tasks, db.attempts) && HoldsLease(db, c) && Open(db.attempts, c.attempt, c.task)
    ensures Issued(db, c)
  {
    assert AttemptSound(db.tasks, db.attempts[c.attempt]);
  }

  /** Quoting any other attempt leaves the task's own one open although the task waits. */
  lemma ForeignWaitStrands(db: Db, c: Credential, obstacle: string, e: EscalationId)
    requires Attempted(db.tasks, db.attempts) && HoldsLease(db, c) && WaitForHuman(db, c, obstacle, e).answer == Done
    requires !Open(db.attempts, c.attempt, c.task)
    ensures !Attempted(WaitForHuman(db, c, obstacle, e).db.tasks, WaitForHuman(db, c, obstacle, e).db.attempts)
  {
    var x :| Open(db.attempts, x, c.task);
    var next := WaitForHuman(db, c, obstacle, e).db;
    WaitMovesOne(db, c, obstacle, e, x);
    assert !AttemptSound(next.tasks, next.attempts[x]);
  }

  lemma WaitMovesOne(db: Db, c: Credential, obstacle: string, e: EscalationId, x: AttemptId)
    requires HoldsLease(db, c) && WaitForHuman(db, c, obstacle, e).answer == Done && x in db.attempts && x != c.attempt
    ensures var next := WaitForHuman(db, c, obstacle, e).db;
      x in next.attempts && next.attempts[x] == db.attempts[x] && c.task in next.tasks
          && next.tasks[c.task].state == WAITING
  {
    hide SetRunState;
  }

  /** Quoting another task's attempt leaves that task RUNNING without an attempt. */
  lemma ForeignOutcomeStrands(db: Db, c: Credential, v: Verdict, now: int)
    requires Attempted(db.tasks, db.attempts) && Outcome(db, c, v, now).answer == Done
    requires c.attempt in db.attempts && db.attempts[c.attempt].task != c.task
    ensures !Attempted(Outcome(db, c, v, now).db.tasks, Outcome(db, c, v, now).db.attempts)
  {
    hide Outcome;
    OutcomeAccepted(db, c, v, now);
    OutcomeLeavesTask(db, c, v, now);
    var next := Outcome(db, c, v, now).db;
    var u := db.attempts[c.attempt].task;
    assert AttemptSound(db.tasks, db.attempts[c.attempt]);
    forall x
      ensures !Open(next.attempts, x, u)
    {
      if Open(next.attempts, x, u) {
        OpenIsUnique(db.tasks, db.attempts, x, c.attempt, u);
      }
    }
    assert u in next.tasks && next.tasks[u].state == RUNNING;
  }

  lemma OpenIsUnique(tasks: Tasks, attempts: Attempts, x: AttemptId, y: AttemptId, t: TaskId)
    requires Attempted(tasks, attempts) && Open(attempts, x, t) && Open(attempts, y, t)
    ensures x == y
  {
    assert AttemptSound(tasks, attempts[x]) && AttemptSound(tasks, attempts[y]);
    assert x == y || Distinct(attempts[x], attempts[y]);
  }

  lemma OutcomeAccepted(db: Db, c: Credential, v: Verdict, now: int)
    requires Outcome(db, c, v, now).answer == Done
    ensures HoldsLease(db, c) && AttemptOpen(db, c)
    ensures db.attempts[c.attempt].task == c.task ==> Issued(db, c)
  {
    hide Finish, FinishBadly, Retry, CompleteRun, Promote;
  }

  /** An accepted outcome closes the quoted attempt alone and moves no RUNNING task but its own. */
  lemma OutcomeLeavesTask(db: Db, c: Credential, v: Verdict, now: int)
    requires Outcome(db, c, v, now).answer == Done
    ensures var next := Outcome(db, c, v, now).db;
      && c.attempt in db.attempts
      && next.attempts == db.attempts[c.attempt := db.attempts[c.attempt].(state := AttemptVerdict(v))]
      && OthersKeepRunning(db.tasks, next.tasks, c.task)
  {
    hide Finish, FinishBadly, Retry, Promote, CompleteRun, OthersKeepRunning, FailedAttemptsOf, TaskFailurePolicy;
    match v
    case Success => SuccessLeavesTask(db, c);
    case Unknown => BadFinishLeavesTask(db, c, v, UNKNOWN_OUTCOME);
    case Failure(transient) =>
      BadFinishLeavesTask(db, c, v, FAILED);
      RetriedAlone(db, c, v, now);
  }

  ghost predicate ClosesAlone(db: Db, next: Db, c: Credential, v: Verdict) {
    && c.attempt in db.attempts
    && next.attempts == db.attempts[c.attempt := db.attempts[c.attempt].(state := AttemptVerdict(v))]
    && OthersKeepRunning(db.tasks, next.tasks, c.task)
  }

  lemma FinishLeavesTask(db: Db, c: Credential, v: Verdict, s: TaskState)
    requires c.task in db.tasks && c.attempt in db.attempts
    ensures ClosesAlone(db, Finish(db, c, v, s), c, v)
  {
    hide OthersKeepRunning, StoppedTasks;
    StoppedAlone(db.tasks, c.task, s);
  }

  lemma SuccessLeavesTask(db: Db, c: Credential)
    requires c.task in db.tasks && c.attempt in db.attempts
    ensures ClosesAlone(db, CompleteRun(Promote(Finish(db, c, Success, SUCCEEDED), {db.tasks[c.task].run}),
        db.tasks[c.task].run), c, Success)
  {
    hide Finish, Promote, CompleteRun, OthersKeepRunning;
    FinishLeavesTask(db, c, Success, SUCCEEDED);
    PromotedLeaves(db.tasks, Finish(db, c, Success, SUCCEEDED), c.task, {db.tasks[c.task].run});
  }

  lemma BadFinishLeavesTask(db: Db, c: Credential, v: Verdict, s: TaskState)
    requires c.task in db.tasks && c.attempt in db.attempts
    ensures ClosesAlone(db, FinishBadly(db, c, v, s), c, v)
  {
    hide Finish, Promote, FailGroup, SetRunState, OthersKeepRunning;
    FinishLeavesTask(db, c, v, s);
    if db.tasks[c.task].group.Some? {
      PromotedLeaves(db.tasks, FailGroup(Finish(db, c, v, s), db.tasks[c.task].group.value), c.task,
          {db.tasks[c.task].run});
    }
  }

  ghost predicate OthersKeepRunning(a: Tasks, b: Tasks, t: TaskId) {
    forall u :: u in a && u != t && a[u].state == RUNNING ==> u in b && b[u] == a[u]
  }

  lemma StoppedAlone(tasks: Tasks, t: TaskId, s: TaskState)
    ensures OthersKeepRunning(tasks, StoppedTasks(tasks, {t}, s), t)
  {
  }

  lemma RetriedAlone(db: Db, c: Credential, v: Verdict, now: int)
    requires c.task in db.tasks
    ensures c.attempt in db.attempts ==> forall at :: ClosesAlone(db, Retry(db, c, v, at), c, v)
  {
    hide WakeRows;
  }

  lemma PromotedLeaves(a: Tasks, db: Db, t: TaskId, rs: set<RunId>)
    requires OthersKeepRunning(a, db.tasks, t)
    ensures OthersKeepRunning(a, Promote(db, rs).tasks, t)
  {
    hide WakeRows, Eligible;
  }
}
