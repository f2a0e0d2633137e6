/** Every transaction keeps the invariant, so every reachable database satisfies it. The transactions are taken
    one by one; each is a composition of row updates that keep the invariant by themselves. */
module RuntimeSafety {
  import opened Wrappers
  import opened RuntimeState
  import opened RuntimeTransitions
  import opened RuntimeInvariant
  import opened RuntimeUnits
  import opened RuntimeGrowth

  /** What is proved of a step: the invariant survives and no row goes backwards. */
  ghost predicate Keeps(db: Db, next: Db) {
    Safe(next) && Advances(db, next)
  }

  lemma KeepsReflexive(db: Db)
    requires Safe(db)
    ensures Keeps(db, db)
  {
    hide Safe, TasksAdvance, RunsAdvance, AttemptsAdvance;
    AdvancesReflexive(db);
  }

  lemma KeepsTransitive(a: Db, b: Db, c: Db)
    requires Keeps(a, b) && Keeps(b, c)
    ensures Keeps(a, c)
  {
    hide Safe, Advances;
    AdvancesTransitive(a, b, c);
  }

  // ---------------------------------------------------------------------------------------------
  // Plans and groups
  // ---------------------------------------------------------------------------------------------

  lemma CreateRunKeeps(db: Db, r: RunId, plan: seq<PlanTask>, limit: int, last: Option<RunId>, artifacts: set<string>)
    requires Safe(db)
    ensures Keeps(db, CreateRun(db, r, plan, limit, last, artifacts).db)
  {
    hide Safe, Advances, InsertPlan, ReusedCount, RecoverySource;
    if CreateRun(db, r, plan, limit, last, artifacts).answer == Done {
      var source := RecoverySource(db, plan, last);
      var reused := if source.Some? then Some(ReusedCount(db, source.value, plan, artifacts)) else None;
      InsertPlanKeeps(db, r, Run(ACTIVE, 0, limit, 1, plan), plan, reused);
    } else {
      KeepsReflexive(db);
    }
  }

  lemma MaterializeKeeps(db: Db, coordinator: TaskId, join: TaskId, d: Descriptor)
    requires Safe(db)
    ensures Keeps(db, MaterializeFanout(db, coordinator, join, d).db)
  {
    hide Safe, Advances, InsertGroup, ShardsInsertable;
    var next := MaterializeFanout(db, coordinator, join, d).db;
    if next == db {
      KeepsReflexive(db);
    } else {
      assert GroupOf(d) !in db.groups;
      InsertGroupKeeps(db, coordinator, join, d);
    }
  }

  lemma CompleteFanoutKeeps(db: Db, g: GroupId)
    requires Safe(db)
    ensures Keeps(db, CompleteFanout(db, g).db)
  {
    hide Safe, Advances, Required;
    GroupsKeep(db, CompleteFanout(db, g).db);
  }

  lemma StartGroupKeeps(db: Db, g: GroupId)
    requires Safe(db)
    ensures Keeps(db, StartGroup(db, g))
  {
    hide Safe, Advances;
    GroupsKeep(db, StartGroup(db, g));
  }

  // ---------------------------------------------------------------------------------------------
  // Claims and worker commands
  // ---------------------------------------------------------------------------------------------

  lemma ClaimKeeps(db: Db, t: TaskId, worker: Worker, now: int, leaseMs: int, a: AttemptId)
    requires Safe(db)
    ensures Keeps(db, Claim(db, t, worker, now, leaseMs, a).db)
  {
    hide Safe, Advances, StartAttempt, Eligible;
    if Claim(db, t, worker, now, leaseMs, a).answer == Done {
      StartAttemptKeeps(db, t, worker, now + leaseMs, a);
    } else {
      KeepsReflexive(db);
    }
  }

  lemma ClaimByIdKeeps(db: Db, t: TaskId, version: nat, route: RoutingClass, worker: Worker, now: int, leaseMs: int,
      limits: Limits, a: AttemptId)
    requires Safe(db)
    ensures Keeps(db, ClaimById(db, t, version, route, worker, now, leaseMs, limits, a).db)
  {
    hide Safe, Advances, StartAttempt, StartGroup, Eligible, DependencyBlocked, RunFull, PoolFull, Keeps;
    if ClaimById(db, t, version, route, worker, now, leaseMs, limits, a).answer == Done {
      var started := StartAttempt(db, t, worker, now + leaseMs, a);
      StartAttemptKept(db, t, worker, now + leaseMs, a);
      if db.tasks[t].group.Some? {
        StartedGroupKept(db, started, db.tasks[t].group.value);
      }
    } else {
      KeepsReflexive(db);
    }
  }

  lemma StartAttemptKept(db: Db, t: TaskId, worker: Worker, until: int, a: AttemptId)
    requires Safe(db) && a !in db.attempts
    requires t in db.tasks && db.tasks[t].state == RUNNABLE && RunIs(db, db.tasks[t].run, ACTIVE)
        && BudgetLeft(db, db.tasks[t].run)
    ensures Keeps(db, StartAttempt(db, t, worker, until, a))
  {
    hide Safe, Advances, StartAttempt;
    StartAttemptKeeps(db, t, worker, until, a);
  }

  lemma StartedGroupKept(db: Db, started: Db, g: GroupId)
    requires Keeps(db, started)
    ensures Keeps(db, StartGroup(started, g))
  {
    hide Safe, Advances, StartGroup;
    StartGroupKeeps(started, g);
    KeepsTransitive(db, started, StartGroup(started, g));
  }

  lemma HeartbeatKept(db: Db, c: Credential, now: int, leaseMs: int)
    requires Safe(db)
    ensures Keeps(db, Heartbeat(db, c, now, leaseMs).db)
  {
    hide Safe, Advances;
    if HoldsLease(db, c) { HeartbeatKeeps(db, c, now, leaseMs); } else { KeepsReflexive(db); }
  }

  /** Rows of the effect and escalation tables are outside the invariant. */
  lemma ElsewhereKeeps(db: Db, next: Db)
    requires Safe(db) && next == db.(effects := next.effects, escalations := next.escalations)
    ensures Keeps(db, next)
  {
    hide Linked, Leased, Dispatched, Attempted, Counted, RetriesBounded, Honest, Budgeted;
  }

  lemma DeferKeeps(db: Db, c: Credential, now: int, retryAfterMs: int)
    requires Safe(db)
    ensures Keeps(db, Defer(db, c, now, retryAfterMs).db)
  {
    hide Safe, Advances, HandBack;
    if Defer(db, c, now, retryAfterMs).answer == Done {
      HandBackKeeps(db, c, now + retryAfterMs);
    } else {
      KeepsReflexive(db);
    }
  }

  // ---------------------------------------------------------------------------------------------
  // Humans
  // ---------------------------------------------------------------------------------------------

  lemma WaitForHumanKeeps(db: Db, c: Credential, obstacle: string, e: EscalationId)
    requires Safe(db) && Issued(db, c)
    ensures Keeps(db, WaitForHuman(db, c, obstacle, e).db)
  {
    hide Safe, Advances, Suspend, SetRunState, Keeps, Issued;
    if WaitForHuman(db, c, obstacle, e).answer == Done {
      SuspendKept(db, c);
      var r := db.tasks[c.task].run;
      var suspended := Suspend(db, c);
      var recorded := suspended.(escalations := db.escalations[e := Asked(r, obstacle)]);
      KeptThenElsewhere(db, suspended, recorded);
      KeptThenRunState(db, recorded, r, ACTIVE, WAITING_FOR_HUMAN);
    } else {
      KeepsReflexive(db);
    }
  }

  lemma SuspendKept(db: Db, c: Credential)
    requires Safe(db) && Issued(db, c) && HoldsLease(db, c)
    ensures Keeps(db, Suspend(db, c))
  {
    hide Linked, Leased, Dispatched, Attempted, Counted, RetriesBounded, Honest, Budgeted, Advances, Suspend;
    LeaseHolderIsOpen(db, c);
    SuspendKeeps(db, c);
  }

  lemma KeptThenElsewhere(db: Db, mid: Db, next: Db)
    requires Keeps(db, mid) && next == mid.(effects := next.effects, escalations := next.escalations)
    ensures Keeps(db, next)
  {
    hide Safe, Advances;
    ElsewhereKeeps(mid, next);
    KeepsTransitive(db, mid, next);
  }

  lemma KeptThenRunState(db: Db, mid: Db, r: RunId, from: RunState, to: RunState)
    requires Keeps(db, mid) && !Ended(from) && (to == RUN_SUCCEEDED ==> AllSucceeded(mid, r))
    ensures Keeps(db, SetRunState(mid, r, from, to))
  {
    hide Safe, Advances, SetRunState, AllSucceeded;
    SetRunStateKeeps(mid, r, from, to);
    KeepsTransitive(db, mid, SetRunState(mid, r, from, to));
  }

  lemma ResumeRunKeeps(db: Db, e: EscalationId, runUnchanged: bool)
    requires Safe(db)
    ensures Keeps(db, ResumeRun(db, e, runUnchanged).db)
  {
    hide Safe, Advances, Keeps, SetRunState, CloseEscalation, Doubt, Wake, Waiting;
    KeepsReflexive(db);
    if e in db.escalations && db.escalations[e].open {
      var r := db.escalations[e].run;
      var closed := CloseEscalation(db, e);
      KeptThenElsewhere(db, db, closed);
      var active := if runUnchanged then SetRunState(closed, r, WAITING_FOR_HUMAN, ACTIVE) else closed;
      if runUnchanged { KeptThenRunState(db, closed, r, WAITING_FOR_HUMAN, ACTIVE); }
      ResumedTasksKept(db, active, r);
    }
  }

  lemma ResumedTasksKept(db: Db, active: Db, r: RunId)
    requires Keeps(db, active) && active.tasks == db.tasks && active.effects == db.effects
    ensures Waiting(db, r, false) <= db.tasks.Keys
    ensures Keeps(db, Wake(Doubt(active, Waiting(db, r, true)), Waiting(db, r, false), 0))
  {
    hide Safe, Advances, Wake, DoubtedTasks;
    var doubted := Doubt(active, Waiting(db, r, true));
    DoubtKeeps(active, Waiting(db, r, true));
    KeepsTransitive(db, active, doubted);
    DoubtLeaves(db.tasks, Waiting(db, r, true), Waiting(db, r, false));
    WakeKeeps(doubted, Waiting(db, r, false), 0);
    KeepsTransitive(db, doubted, Wake(doubted, Waiting(db, r, false), 0));
  }

  lemma DoubtLeaves(tasks: Tasks, ps: set<TaskId>, qs: set<TaskId>)
    requires ps !! qs && Idle(tasks, qs)
    ensures Idle(DoubtedTasks(tasks, ps), qs)
  {
  }

  lemma ResolveEscalationKeeps(db: Db, e: EscalationId, successor: Option<RunId>)
    requires Safe(db)
    ensures Keeps(db, ResolveEscalation(db, e, successor).db)
  {
    hide Safe, Advances, Keeps, SetRunState, CloseEscalation;
    KeepsReflexive(db);
    if e in db.escalations && db.escalations[e].open {
      var r := db.escalations[e].run;
      var closed := CloseEscalation(db, e);
      KeptThenElsewhere(db, db, closed);
      if !db.escalations[e].changesInputs {
        KeptThenRunState(db, closed, r, WAITING_FOR_HUMAN, ACTIVE);
      } else if successor.Some? {
        KeptThenRunState(db, closed, r, WAITING_FOR_HUMAN, SUPERSEDED);
        var superseded := SetRunState(closed, r, WAITING_FOR_HUMAN, SUPERSEDED);
        SameRunIds(closed, r, WAITING_FOR_HUMAN, SUPERSEDED);
        SuccessorKept(db, superseded, successor.value);
      }
    }
  }

  lemma SameRunIds(db: Db, r: RunId, from: RunState, to: RunState)
    ensures SetRunState(db, r, from, to).runs.Keys == db.runs.Keys
  {
  }

  lemma SuccessorKept(db: Db, superseded: Db, n: RunId)
    requires Keeps(db, superseded)
    ensures n !in superseded.runs ==> Keeps(db, superseded.(runs := superseded.runs[n := Run(ACTIVE, 0, 0, 1, [])]))
  {
    hide Safe, Advances, AllSucceeded;
    if n !in superseded.runs {
      var next := superseded.(runs := superseded.runs[n := Run(ACTIVE, 0, 0, 1, [])]);
      RunsKeep(superseded, next);
      KeepsTransitive(db, superseded, next);
    }
  }

  // ---------------------------------------------------------------------------------------------
  // Outcomes
  // ---------------------------------------------------------------------------------------------

  lemma OutcomeKeeps(db: Db, c: Credential, v: Verdict, now: int)
    requires Safe(db) && Issued(db, c)
    ensures Keeps(db, Outcome(db, c, v, now).db)
  {
    hide Safe, Advances, Finish, FinishBadly, Retry, CompleteRun, Promote, Keeps;
    if Outcome(db, c, v, now).answer == Done {
      match v
      case Success => SuccessKept(db, c, v);
      case Unknown => FinishBadlyKept(db, c, v, UNKNOWN_OUTCOME);
      case Failure(transient) =>
        var policy := TaskFailurePolicy(db.tasks[c.task].tool, transient, |FailedAttemptsOf(db.attempts, c.task)| + 1);
        if policy.retry {
          RetryKept(db, c, transient, now + policy.delayMs);
        } else {
          FinishBadlyKept(db, c, v, FAILED);
        }
    } else {
      KeepsReflexive(db);
    }
  }

  lemma FinishKept(db: Db, c: Credential, v: Verdict, s: TaskState)
    requires Safe(db) && HoldsLease(db, c) && AttemptOpen(db, c) && Issued(db, c) && s !in {RUNNING, RUNNABLE}
    ensures Keeps(db, Finish(db, c, v, s))
  {
    hide Safe, Advances, Finish;
    FinishKeeps(db, c, v, s);
  }

  lemma RetryKept(db: Db, c: Credential, transient: bool, at: int)
    requires Safe(db) && HoldsLease(db, c) && AttemptOpen(db, c) && Issued(db, c)
    requires |FailedAttemptsOf(db.attempts, c.task)| + 1 < db.tasks[c.task].tool.maxAttempts
    ensures Keeps(db, Retry(db, c, Failure(transient), at))
  {
    hide Safe, Advances, Retry;
    RetryKeeps(db, c, transient, at);
  }

  lemma KeptThenPromote(db: Db, mid: Db, rs: set<RunId>)
    requires Keeps(db, mid)
    ensures Keeps(db, Promote(mid, rs))
  {
    hide Safe, Advances, Promote;
    PromoteKeeps(mid, rs);
    KeepsTransitive(db, mid, Promote(mid, rs));
  }

  lemma SuccessKept(db: Db, c: Credential, v: Verdict)
    requires Safe(db) && HoldsLease(db, c) && AttemptOpen(db, c) && Issued(db, c)
    ensures Keeps(db, CompleteRun(Promote(Finish(db, c, v, SUCCEEDED), {db.tasks[c.task].run}), db.tasks[c.task].run))
  {
    hide Safe, Advances, Finish, CompleteRun, Promote, Issued, AttemptOpen;
    var r := db.tasks[c.task].run;
    FinishKept(db, c, v, SUCCEEDED);
    KeptThenPromote(db, Finish(db, c, v, SUCCEEDED), {r});
    var promoted := Promote(Finish(db, c, v, SUCCEEDED), {r});
    CompleteRunKeeps(promoted, r);
    KeepsTransitive(db, promoted, CompleteRun(promoted, r));
  }

  lemma FinishBadlyKept(db: Db, c: Credential, v: Verdict, s: TaskState)
    requires Safe(db) && HoldsLease(db, c) && AttemptOpen(db, c) && Issued(db, c) && s !in {RUNNING, RUNNABLE}
    ensures Keeps(db, FinishBadly(db, c, v, s))
  {
    hide Safe, Advances, Finish, FailGroup, Promote, SetRunState, Issued, AttemptOpen;
    var x := db.tasks[c.task];
    var finished := Finish(db, c, v, s);
    FinishKept(db, c, v, s);
    if x.group.Some? {
      FailGroupKeeps(finished, x.group.value);
      KeepsTransitive(db, finished, FailGroup(finished, x.group.value));
      KeptThenPromote(db, FailGroup(finished, x.group.value), {x.run});
    } else if s == FAILED {
      KeptThenRunState(db, finished, x.run, ACTIVE, RUN_FAILED);
    }
  }

  // ---------------------------------------------------------------------------------------------
  // Recovery
  // ---------------------------------------------------------------------------------------------

  lemma FinishNotificationsKeeps(db: Db)
    requires Safe(db)
    ensures Keeps(db, FinishNotifications(db))
  {
    hide Safe, Advances, Stop, CompleteRuns, Published, RunsOf;
    var stopped := Stop(db, NotifiedEnough(db), SUCCEEDED);
    StopKeeps(db, NotifiedEnough(db), SUCCEEDED);
    CompleteRunsKeeps(stopped, RunsOf(db, NotifiedEnough(db)));
    KeepsTransitive(db, stopped, FinishNotifications(db));
  }

  lemma RecoverStaleKeeps(db: Db, now: int)
    requires Safe(db)
    ensures Keeps(db, RecoverStale(db, now).db)
  {
    hide Safe, Advances, FinishNotifications, RecoverTasks, Promote, FailedFanoutRuns;
    var notified := FinishNotifications(db);
    FinishNotificationsKeeps(db);
    RecoverTasksKeeps(notified, Stale(notified, now));
    var recovered := RecoverTasks(notified, Stale(notified, now));
    KeepsTransitive(db, notified, recovered);
    KeptThenPromote(db, recovered, FailedFanoutRuns(recovered));
  }

  // ---------------------------------------------------------------------------------------------
  // Outbox
  // ---------------------------------------------------------------------------------------------

  /** Rows change their publishing columns only. */
  ghost predicate RowsReplaced(i: Dispatches, j: Dispatches) {
    j.Keys == i.Keys && forall k :: k in j ==> RowSound(j[k])
  }

  lemma OutboxKeeps(db: Db, next: Db)
    requires Safe(db) && next == db.(dispatches := next.dispatches) && RowsReplaced(db.dispatches, next.dispatches)
    ensures Keeps(db, next)
  {
    hide Linked, Leased, Attempted, Counted, RetriesBounded, Honest, Budgeted, TasksAdvance, RunsAdvance,
      AttemptsAdvance;
    AdvancesReflexive(db);
  }

  lemma RowsAreSound(db: Db)
    requires Safe(db)
    ensures RowsReplaced(db.dispatches, db.dispatches)
  {
  }

  lemma ExpiryReplaces(db: Db, now: int)
    requires RowsReplaced(db.dispatches, db.dispatches)
    ensures RowsReplaced(db.dispatches, ExpirePublishing(db, now).dispatches)
  {
  }

  lemma ClaimDispatchBatchKeeps(db: Db, publisher: string, now: int, leaseMs: int, limit: int, batch: set<DispatchKey>)
    requires Safe(db)
    ensures Keeps(db, ClaimDispatchBatch(db, publisher, now, leaseMs, limit, batch).db)
  {
    hide Safe, Keeps, ClaimDispatchBatch, RowsReplaced;
    RowsAreSound(db);
    ExpiryReplaces(db, now);
    BatchReplaces(db, publisher, now, leaseMs, limit, batch);
    OutboxKeeps(db, ClaimDispatchBatch(db, publisher, now, leaseMs, limit, batch).db);
  }

  lemma BatchReplaces(db: Db, publisher: string, now: int, leaseMs: int, limit: int, batch: set<DispatchKey>)
    requires RowsReplaced(db.dispatches, db.dispatches)
        && RowsReplaced(db.dispatches, ExpirePublishing(db, now).dispatches)
    ensures var next := ClaimDispatchBatch(db, publisher, now, leaseMs, limit, batch).db;
      next == db.(dispatches := next.dispatches) && RowsReplaced(db.dispatches, next.dispatches)
  {
    hide Publishable, ExpirePublishing;
  }

  lemma PublisherAnswersKeep(db: Db, k: DispatchKey, publisher: string, now: int, retryAt: int)
    requires Safe(db)
    ensures Keeps(db, ConfirmDispatch(db, k, publisher, now).db)
    ensures Keeps(db, FailDispatch(db, k, publisher, retryAt).db)
  {
    hide Safe, Advances;
    RowsAreSound(db);
    OutboxKeeps(db, ConfirmDispatch(db, k, publisher, now).db);
    OutboxKeeps(db, FailDispatch(db, k, publisher, retryAt).db);
  }

  lemma DeferPublishedKeeps(db: Db, t: TaskId, version: nat, retryAt: int)
    requires Safe(db)
    ensures Keeps(db, DeferPublishedDispatch(db, t, version, retryAt).db)
  {
    hide Safe, Advances;
    RowsAreSound(db);
    OutboxKeeps(db, DeferPublishedDispatch(db, t, version, retryAt).db);
  }

  /** No lost wakeup: the repair query of the reconciler finds nothing to repair. */
  lemma NothingUndispatched(db: Db, now: int)
    requires Safe(db)
    ensures Undispatched(db, now) == {}
  {
  }

  lemma RepublishReplaces(db: Db, now: int, republishAfterMs: int)
    requires RowsReplaced(db.dispatches, db.dispatches)
    ensures RowsReplaced(db.dispatches, Republish(db, now, republishAfterMs).dispatches)
  {
    hide Overdue;
  }

  lemma NothingMissing(db: Db)
    ensures Enqueue(db, {}, 0) == db
  {
    assert Enqueue(db, {}, 0).tasks == db.tasks;
    assert Enqueue(db, {}, 0).dispatches == db.dispatches;
  }

  function Reopening(db: Db, now: int, republishAfterMs: Option<int>): (next: Db)
    ensures next == db.(dispatches := next.dispatches)
  {
    var expired := ExpirePublishing(db, now);
    if republishAfterMs.Some? && republishAfterMs.value > 0 then Republish(expired, now, republishAfterMs.value)
        else expired
  }

  /** Reconciliation only reopens rows. */
  lemma ReconcileReopens(db: Db, now: int, republishAfterMs: Option<int>)
    requires Safe(db)
    ensures Reconcile(db, now, republishAfterMs).db == Reopening(db, now, republishAfterMs)
    ensures Keeps(db, Reopening(db, now, republishAfterMs))
  {
    hide Safe, Advances, Keeps, ExpirePublishing, Republish, Undispatched, Enqueue, RowsReplaced;
    RowsAreSound(db);
    var expired := ExpirePublishing(db, now);
    ExpiryReplaces(db, now);
    ReplacedTwice(db.dispatches, expired.dispatches);
    if republishAfterMs.Some? && republishAfterMs.value > 0 {
      RepublishReplaces(expired, now, republishAfterMs.value);
      ReplacedThrough(db.dispatches, expired.dispatches, Republish(expired, now, republishAfterMs.value).dispatches);
    }
    OutboxKeeps(db, Reopening(db, now, republishAfterMs));
    KeepsSafe(db, Reopening(db, now, republishAfterMs));
    NothingUndispatched(Reopening(db, now, republishAfterMs), now);
    NothingMissing(Reopening(db, now, republishAfterMs));
  }

  lemma KeepsSafe(db: Db, next: Db)
    requires Keeps(db, next)
    ensures Safe(next)
  {
    hide Safe, Advances;
  }

  lemma ReplacedTwice(i: Dispatches, j: Dispatches)
    requires RowsReplaced(i, j)
    ensures RowsReplaced(j, j)
  {
  }

  lemma ReplacedThrough(i: Dispatches, j: Dispatches, k: Dispatches)
    requires RowsReplaced(i, j) && RowsReplaced(j, k)
    ensures RowsReplaced(i, k)
  {
  }

  // ---------------------------------------------------------------------------------------------
  // Steps and runs
  // ---------------------------------------------------------------------------------------------

  lemma StepKeepsSafe(db: Db, s: Step)
    requires Safe(db) && Quoted(db, s)
    ensures Safe(Next(db, s)) && Advances(db, Next(db, s))
  {
    hide Safe, Advances, Issued, CreateRun, MaterializeFanout, CompleteFanout, Claim, ClaimById, Heartbeat,
      WaitForHuman, ResumeRun, ResolveEscalation, Defer, Outcome, RecoverStale, ClaimDispatchBatch, ConfirmDispatch,
      FailDispatch, DeferPublishedDispatch, Reconcile, Promote;
    match s
    case DoCreateRun(r, plan, limit, last, artifacts) => CreateRunKeeps(db, r, plan, limit, last, artifacts);
    case DoPromote(r) => PromoteKeeps(db, {r});
    case DoMaterialize(coordinator, join, d) => MaterializeKeeps(db, coordinator, join, d);
    case DoCompleteFanout(g) => CompleteFanoutKeeps(db, g);
    case DoClaim(t, worker, now, leaseMs, a) => ClaimKeeps(db, t, worker, now, leaseMs, a);
    case DoClaimById(t, version, route, worker, now, leaseMs, limits, a) =>
      ClaimByIdKeeps(db, t, version, route, worker, now, leaseMs, limits, a);
    case DoHeartbeat(c, now, leaseMs) => HeartbeatKept(db, c, now, leaseMs);
    case DoRecordEffect(t, effect) => ElsewhereKeeps(db, Next(db, s));
    case DoWaitForHuman(c, obstacle, e) => WaitForHumanKeeps(db, c, obstacle, e);
    case DoResumeRun(e, runUnchanged) => ResumeRunKeeps(db, e, runUnchanged);
    case DoResolveEscalation(e, successor) => ResolveEscalationKeeps(db, e, successor);
    case DoDefer(c, now, retryAfterMs) => DeferKeeps(db, c, now, retryAfterMs);
    case DoOutcome(c, v, now) => OutcomeKeeps(db, c, v, now);
    case DoRecoverStale(now) => RecoverStaleKeeps(db, now);
    case DoClaimDispatchBatch(publisher, now, leaseMs, size, batch) =>
      ClaimDispatchBatchKeeps(db, publisher, now, leaseMs, size, batch);
    case DoConfirmDispatch(k, publisher, now) => PublisherAnswersKeep(db, k, publisher, now, 0);
    case DoFailDispatch(k, publisher, retryAt) => PublisherAnswersKeep(db, k, publisher, 0, retryAt);
    case DoDeferPublished(t, version, retryAt) => DeferPublishedKeeps(db, t, version, retryAt);
    case DoReconcile(now, republishAfterMs) => ReconcileReopens(db, now, republishAfterMs);
  }

  /** Every worker command in the history quotes what a claim had handed out by then. */
  ghost predicate WellQuoted(db: Db, steps: seq<Step>) {
    forall i :: 0 <= i < |steps| ==> Quoted(After(db, steps[..i]), steps[i])
  }

  lemma AfterPrefix(db: Db, steps: seq<Step>, n: nat)
    requires n < |steps|
    ensures After(db, steps[..n + 1]) == Next(After(db, steps[..n]), steps[n])
  {
    assert steps[..n + 1][..n] == steps[..n];
  }

  /** Safety of every run: from the empty database, through any number of transactions of any workers
      in any order, with any timing and any duplication. */
  lemma {:induction false} EveryRunIsSafe(db: Db, steps: seq<Step>)
    requires Safe(db) && WellQuoted(db, steps)
    ensures Safe(After(db, steps)) && Advances(db, After(db, steps))
    decreases |steps|
  {
    hide Safe, Advances, Quoted, Next;
    if steps == [] {
      AdvancesReflexive(db);
    } else {
      var n := |steps| - 1;
      forall i | 0 <= i < n
        ensures Quoted(After(db, steps[..n][..i]), steps[..n][i])
      {
        assert steps[..n][..i] == steps[..i];
      }
      EveryRunIsSafe(db, steps[..n]);
      StepKeepsSafe(After(db, steps[..n]), steps[n]);
      AdvancesTransitive(db, After(db, steps[..n]), After(db, steps));
    }
  }

  lemma EmptyIsSafe()
    ensures Safe(EMPTY)
  {
  }
}
