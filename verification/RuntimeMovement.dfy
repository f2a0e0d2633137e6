/** What moves a run, transaction by transaction: a run that cannot move is passed by, and for one that can move
    there is a transaction that moves it. A run moves when its state or one of its tasks changes. */
module RuntimeMovement {
  import opened Wrappers
  import opened RuntimeState
  import opened PlanRegistry
  import opened RuntimeTransitions
  import opened RuntimeInvariant
  import opened RuntimeUnits
  import opened RuntimeGrowth
  import opened RuntimeSafety
  import opened RuntimeGuarantees
  import opened RuntimeOrder
  import opened RuntimeLiveness
  import opened RuntimeProgress
  import opened RuntimeSupersession

  // ---------------------------------------------------------------------------------------------
  // What moves a run
  // ---------------------------------------------------------------------------------------------

  /** A worker is at it. */
  predicate AtWork(db: Db, r: RunId) {
    exists t :: t in db.tasks && db.tasks[t].run == r && db.tasks[t].state == RUNNING
  }

  /** A claim would start one of its tasks, sooner or later. */
  predicate Claimable(db: Db, r: RunId) {
    && RunIs(db, r, ACTIVE)
    && BudgetLeft(db, r)
    && exists t :: t in db.tasks && db.tasks[t].run == r && db.tasks[t].state == RUNNABLE && Eligible(db, t)
  }

  /** The recovery takes a task of unknown outcome up again if it left no effect row, and completes a
      notification once the report is published. */
  predicate TakenUpAgain(db: Db, t: TaskId)
    requires t in db.tasks
  {
    db.tasks[t].state == UNKNOWN_OUTCOME
        && (t !in db.effects || (db.tasks[t].tool.kind == Telegram && Published(db, db.tasks[t].run)))
  }

  predicate Recoverable(db: Db, r: RunId) {
    RunIs(db, r, ACTIVE) && exists t :: t in db.tasks && db.tasks[t].run == r && TakenUpAgain(db, t)
  }

  predicate HasOpenEscalation(db: Db, r: RunId) {
    exists e :: e in db.escalations && db.escalations[e].open && db.escalations[e].run == r
  }

  predicate HasWaiting(db: Db, r: RunId) {
    exists t :: t in db.tasks && db.tasks[t].run == r && db.tasks[t].state == WAITING
  }

  /** A human's answer would reactivate the run or wake one of its tasks. */
  predicate Awaited(db: Db, r: RunId) {
    HasOpenEscalation(db, r) && (RunIs(db, r, WAITING_FOR_HUMAN) || HasWaiting(db, r))
  }

  predicate CanMove(db: Db, r: RunId) {
    AtWork(db, r) || !Settled(db, r) || Claimable(db, r) || Recoverable(db, r) || Awaited(db, r)
  }

  /** The run has the same state and the same task rows. */
  ghost predicate Unmoved(db: Db, next: Db, r: RunId) {
    && r in db.runs && r in next.runs && next.runs[r].state == db.runs[r].state
    && (forall t :: t in db.tasks && db.tasks[t].run == r ==> t in next.tasks && next.tasks[t] == db.tasks[t])
    && (forall t :: t in next.tasks && next.tasks[t].run == r ==> t in db.tasks && db.tasks[t].run == r)
  }

  // ---------------------------------------------------------------------------------------------
  // Transactions that pass a run by
  // ---------------------------------------------------------------------------------------------

  ghost predicate NoNewEscalation(db: Db, next: Db, r: RunId) {
    HasOpenEscalation(next, r) ==> HasOpenEscalation(db, r)
  }

  /** Nothing of the run changes, its groups included, and no human is asked about it. */
  ghost predicate PassesBy(db: Db, next: Db, r: RunId) {
    && SameRun(db, next, r)
    && r in db.runs && r in next.runs && next.runs[r] == db.runs[r]
    && db.effects.Keys <= next.effects.Keys
    && NoNewEscalation(db, next, r)
  }

  lemma PassesUnmoved(db: Db, next: Db, r: RunId)
    requires PassesBy(db, next, r)
    ensures Unmoved(db, next, r)
  {
  }

  lemma PassesTransitive(a: Db, b: Db, c: Db, r: RunId)
    requires PassesBy(a, b, r) && PassesBy(b, c, r)
    ensures PassesBy(a, c, r)
  {
    hide SameRun, NoNewEscalation;
    SameRunTransitive(a, b, c, r);
    NoNewTransitive(a, b, c, r);
  }

  lemma NoNewTransitive(a: Db, b: Db, c: Db, r: RunId)
    requires NoNewEscalation(a, b, r) && NoNewEscalation(b, c, r)
    ensures NoNewEscalation(a, c, r)
  {
  }

  lemma SameEscalations(db: Db, next: Db, r: RunId)
    requires next.escalations == db.escalations
    ensures NoNewEscalation(db, next, r)
  {
  }

  lemma SamePublished(db: Db, next: Db, r: RunId)
    requires Unmoved(db, next, r) && Published(next, r)
    ensures Published(db, r)
  {
    var p :| p in next.tasks && next.tasks[p].run == r && next.tasks[p].tool.kind == DrivePublication
        && next.tasks[p].state == SUCCEEDED;
    assert p in db.tasks && db.tasks[p] == next.tasks[p];
  }

  /** What a run that cannot move keeps if its rows stay and none of its tasks becomes easier to start. */
  lemma UnmovedStays(db: Db, next: Db, r: RunId)
    requires Unmoved(db, next, r) && !CanMove(db, r) && next.runs[r] == db.runs[r]
    requires db.effects.Keys <= next.effects.Keys && NoNewEscalation(db, next, r)
    requires forall t ::
        t in db.tasks && db.tasks[t].run == r ==> t in next.tasks && (Eligible(next, t) ==> Eligible(db, t))
    ensures !CanMove(next, r)
  {
    hide Eligible, Published, NoNewEscalation;
    assert !AtWork(next, r) && Settled(next, r);
    assert !Claimable(next, r);
    hide Recoverable, Awaited;
    if Recoverable(next, r) { RecoverableStays(db, next, r); }
    if Awaited(next, r) { AwaitedStays(db, next, r); }
  }

  lemma RecoverableStays(db: Db, next: Db, r: RunId)
    requires Unmoved(db, next, r) && next.runs[r] == db.runs[r] && db.effects.Keys <= next.effects.Keys
        && Recoverable(next, r)
    ensures Recoverable(db, r)
  {
    hide Published;
    var t :| t in next.tasks && next.tasks[t].run == r && TakenUpAgain(next, t);
    if Published(next, r) { SamePublished(db, next, r); }
    assert t in db.tasks && TakenUpAgain(db, t);
  }

  lemma AwaitedStays(db: Db, next: Db, r: RunId)
    requires Unmoved(db, next, r) && NoNewEscalation(db, next, r) && Awaited(next, r)
    ensures Awaited(db, r)
  {
    hide HasOpenEscalation;
    if HasWaiting(next, r) {
      var t :| t in next.tasks && next.tasks[t].run == r && next.tasks[t].state == WAITING;
      assert t in db.tasks && db.tasks[t].state == WAITING;
    }
  }

  lemma PassedStays(db: Db, next: Db, r: RunId)
    requires Linked(db.runs, db.tasks, db.groups) && Linked(next.runs, next.tasks, next.groups) && PassesBy(db, next, r)
        && !CanMove(db, r)
    ensures !CanMove(next, r)
  {
    hide Linked, CanMove, NoNewEscalation, Eligible, NoEasier;
    PassesUnmoved(db, next, r);
    forall t | t in db.tasks && db.tasks[t].run == r
      ensures t in next.tasks && (Eligible(next, t) ==> Eligible(db, t))
    {
      SameRunNoEasier(db, next, r, t);
      if Eligible(next, t) { NoEasierEligible(db, next, t); }
    }
    UnmovedStays(db, next, r);
  }

  // ---------------------------------------------------------------------------------------------
  // The transactions
  // ---------------------------------------------------------------------------------------------

  lemma PromotePasses(db: Db, rs: set<RunId>, r: RunId)
    requires r in db.runs && Settled(db, r)
    ensures PassesBy(db, Promote(db, rs), r)
  {
    hide Promote, Eligible, HasOpenEscalation;
    PromotedIds(db, rs);
    forall t | t in db.tasks
      ensures Promote(db, rs).tasks[t].run == db.tasks[t].run
      ensures db.tasks[t].run == r ==> Promote(db, rs).tasks[t] == db.tasks[t]
    {
      PromotedTask(db, rs, t);
    }
    SameEscalations(db, Promote(db, rs), r);
  }

  lemma CreateRunPasses(db: Db, q: RunId, plan: seq<PlanTask>, limit: int, last: Option<RunId>, artifacts: set<string>,
      r: RunId)
    requires Linked(db.runs, db.tasks, db.groups) && r in db.runs
    ensures PassesBy(db, CreateRun(db, q, plan, limit, last, artifacts).db, r)
  {
    hide Linked, InsertPlan, ReusedCount, RecoverySource, InsertableDependencies, UniqueKeys, KnownDependencies,
      HasOpenEscalation;
    var next := CreateRun(db, q, plan, limit, last, artifacts).db;
    CreateRunFrame(db, q, plan, limit, last, artifacts);
    SameEscalations(db, next, r);
    if CreateRun(db, q, plan, limit, last, artifacts).answer == Done {
      var source := RecoverySource(db, plan, last);
      var reused := if source.Some? then Some(ReusedCount(db, source.value, plan, artifacts)) else None;
      InsertedPlanRuns(db, q, Run(ACTIVE, 0, limit, 1, plan), plan, reused);
    }
  }

  lemma MaterializePasses(db: Db, coordinator: TaskId, join: TaskId, d: Descriptor, r: RunId)
    requires Linked(db.runs, db.tasks, db.groups) && r in db.runs && !AtWork(db, r)
    ensures PassesBy(db, MaterializeFanout(db, coordinator, join, d).db, r)
  {
    hide Linked, InsertGroup, ShardsInsertable, HasOpenEscalation;
    var next := MaterializeFanout(db, coordinator, join, d).db;
    SameEscalations(db, next, r);
    if next != db {
      assert GroupOf(d) !in db.groups;
      InsertGroupElsewhere(db, coordinator, join, d, r);
      MaterializeFrame(db, coordinator, join, d);
    }
  }

  lemma StartPasses(db: Db, t: TaskId, worker: Worker, until: int, a: AttemptId, r: RunId)
    requires t in db.tasks && db.tasks[t].run in db.runs && db.tasks[t].run != r && r in db.runs
    ensures PassesBy(db, StartAttempt(db, t, worker, until, a), r)
  {
    SameEscalations(db, StartAttempt(db, t, worker, until, a), r);
    hide HasOpenEscalation;
  }

  lemma StartGroupPasses(db: Db, g: GroupId, r: RunId)
    requires r in db.runs && g.run != r
    ensures PassesBy(db, StartGroup(db, g), r)
  {
    SameEscalations(db, StartGroup(db, g), r);
    hide HasOpenEscalation;
  }

  lemma ClaimPasses(db: Db, s: Step, r: RunId)
    requires Linked(db.runs, db.tasks, db.groups) && IsClaim(s) && r in db.runs && !Claimable(db, r)
    ensures PassesBy(db, Next(db, s), r)
  {
    hide Linked, StartAttempt, StartGroup, Eligible, DependencyBlocked, RunFull, PoolFull, PassesBy;
    SelfPasses(db, r);
    if Startable(db, s.t, s.now) {
      assert db.tasks[s.t].run != r;
      var started := StartAttempt(db, s.t, s.worker, s.now + s.leaseMs, s.a);
      StartPasses(db, s.t, s.worker, s.now + s.leaseMs, s.a, r);
      if s.DoClaimById? && db.tasks[s.t].group.Some? {
        var g := db.tasks[s.t].group.value;
        TaskGroup(db, s.t);
        RunStays(db, started, r);
        StartGroupPasses(started, g, r);
        PassesTransitive(db, started, StartGroup(started, g), r);
      }
    }
  }

  lemma RunStays(db: Db, next: Db, r: RunId)
    requires PassesBy(db, next, r)
    ensures r in next.runs
  {
  }

  lemma SelfPasses(db: Db, r: RunId)
    requires r in db.runs
    ensures PassesBy(db, db, r)
  {
  }

  lemma TaskGroup(db: Db, t: TaskId)
    requires Linked(db.runs, db.tasks, db.groups) && t in db.tasks && db.tasks[t].group.Some?
    ensures db.tasks[t].group.value.run == db.tasks[t].run
  {
    LinkedTask(db, t);
  }

  lemma WorkerPasses(db: Db, c: Credential, obstacle: string, e: EscalationId, now: int, ms: int, r: RunId)
    requires r in db.runs && !AtWork(db, r)
    ensures PassesBy(db, Heartbeat(db, c, now, ms).db, r)
    ensures PassesBy(db, WaitForHuman(db, c, obstacle, e).db, r)
    ensures PassesBy(db, Defer(db, c, now, ms).db, r)
  {
    hide PassesBy;
    SelfPasses(db, r);
    if HoldsLease(db, c) {
      assert db.tasks[c.task].run != r;
      HeartbeatPasses(db, c, now, ms, r);
      WaitPasses(db, c, obstacle, e, r);
      DeferPasses(db, c, now, ms, r);
    }
  }

  lemma HeartbeatPasses(db: Db, c: Credential, now: int, ms: int, r: RunId)
    requires r in db.runs && HoldsLease(db, c) && db.tasks[c.task].run != r
    ensures PassesBy(db, Heartbeat(db, c, now, ms).db, r)
  {
    SameEscalations(db, Heartbeat(db, c, now, ms).db, r);
    hide HasOpenEscalation;
  }

  lemma WaitPasses(db: Db, c: Credential, obstacle: string, e: EscalationId, r: RunId)
    requires r in db.runs && HoldsLease(db, c) && db.tasks[c.task].run != r
    ensures PassesBy(db, WaitForHuman(db, c, obstacle, e).db, r)
  {
    hide HasOpenEscalation, NoNewEscalation;
    OpensElsewhere(db, e, Asked(db.tasks[c.task].run, obstacle), WaitForHuman(db, c, obstacle, e).db, r);
  }

  lemma OpensElsewhere(db: Db, e: EscalationId, x: Escalation, next: Db, r: RunId)
    requires next.escalations == db.escalations || (next.escalations == db.escalations[e := x] && x.run != r)
    ensures NoNewEscalation(db, next, r)
  {
    if HasOpenEscalation(next, r) {
      var f :| f in next.escalations && next.escalations[f].open && next.escalations[f].run == r;
      assert f in db.escalations && db.escalations[f] == next.escalations[f];
    }
  }

  lemma DeferPasses(db: Db, c: Credential, now: int, ms: int, r: RunId)
    requires r in db.runs && HoldsLease(db, c) && db.tasks[c.task].run != r
    ensures PassesBy(db, Defer(db, c, now, ms).db, r)
  {
    hide HasOpenEscalation, WakeRows, WokenTasks, ReleasedTasks, SetAttemptState, SameRun, Refund;
    var next := Defer(db, c, now, ms).db;
    SameEscalations(db, next, r);
    SameTablesRun(db, db, r);
    if Defer(db, c, now, ms).answer == Done {
      var deferred := SetAttemptState(db.(tasks := ReleasedTasks(db.tasks, {c.task})), c.attempt, DEFERRED);
      RefundElsewhere(deferred, db.tasks[c.task].run, r);
      RequeuedElsewhere(db.tasks, c.task, now + ms, r);
      SameRunTables(db, next, r);
    }
  }

  lemma RefundElsewhere(db: Db, q: RunId, r: RunId)
    requires q != r && r in db.runs
    ensures r in Refund(db, q).runs && Refund(db, q).runs[r] == db.runs[r]
  {
  }

  lemma RequeuedElsewhere(tasks: Tasks, t: TaskId, at: int, r: RunId)
    requires t in tasks && tasks[t].run != r
    ensures var b := WokenTasks(ReleasedTasks(tasks, {t}), {t}, at);
      && b.Keys == tasks.Keys
      && forall u :: u in tasks ==> b[u].run == tasks[u].run && (tasks[u].run == r ==> b[u] == tasks[u])
  {
  }

  lemma ClosingOpensNone(db: Db, next: Db, e: EscalationId, r: RunId)
    requires e in db.escalations && next.escalations == db.escalations[e := db.escalations[e].(open := false)]
    ensures NoNewEscalation(db, next, r)
  {
    if HasOpenEscalation(next, r) {
      var f :| f in next.escalations && next.escalations[f].open && next.escalations[f].run == r;
      assert f in db.escalations && db.escalations[f] == next.escalations[f];
    }
  }

  lemma ResumePasses(db: Db, e: EscalationId, runUnchanged: bool, r: RunId)
    requires r in db.runs && !Awaited(db, r)
    ensures PassesBy(db, ResumeRun(db, e, runUnchanged).db, r)
  {
    hide WakeRows, HasOpenEscalation, WokenTasks, DoubtedTasks, NoNewEscalation, SameRun;
    var next := ResumeRun(db, e, runUnchanged).db;
    SameTablesRun(db, db, r);
    SameEscalations(db, db, r);
    if e in db.escalations && db.escalations[e].open {
      ClosingOpensNone(db, next, e, r);
      OpenShows(db, e);
      var q := db.escalations[e].run;
      ResumedTasks(db.tasks, Waiting(db, q, true), Waiting(db, q, false), r);
      SameRunTables(db, next, r);
    }
  }

  lemma ResumedTasks(tasks: Tasks, doubted: set<TaskId>, woken: set<TaskId>, r: RunId)
    requires forall t :: t in tasks && tasks[t].run == r ==> t !in doubted && t !in woken
    ensures var b := WokenTasks(DoubtedTasks(tasks, doubted), woken, 0);
      && b.Keys == tasks.Keys
      && forall t :: t in tasks ==> b[t].run == tasks[t].run && (tasks[t].run == r ==> b[t] == tasks[t])
  {
  }

  lemma SameRunTables(db: Db, next: Db, r: RunId)
    requires next.groups == db.groups && next.tasks.Keys == db.tasks.Keys
    requires forall t ::
        t in db.tasks ==>
        next.tasks[t].run == db.tasks[t].run && (db.tasks[t].run == r ==> next.tasks[t] == db.tasks[t])
    ensures SameRun(db, next, r)
  {
  }

  lemma OpenShows(db: Db, e: EscalationId)
    requires e in db.escalations && db.escalations[e].open
    ensures HasOpenEscalation(db, db.escalations[e].run)
  {
  }

  lemma ResolvePasses(db: Db, e: EscalationId, successor: Option<RunId>, r: RunId)
    requires r in db.runs && !Awaited(db, r)
    ensures PassesBy(db, ResolveEscalation(db, e, successor).db, r)
  {
    hide HasOpenEscalation, ResolveEscalation;
    var next := ResolveEscalation(db, e, successor).db;
    ResolveEscalationFrame(db, e, successor);
    ResolvedRows(db, e, successor);
    if next == db { SameEscalations(db, next, r); } else { ClosingOpensNone(db, next, e, r); }
    if ResolvesRun(db, e, next, r) { OpenShows(db, e); }
  }

  lemma OutcomePasses(db: Db, c: Credential, v: Verdict, now: int, r: RunId)
    requires Linked(db.runs, db.tasks, db.groups) && r in db.runs && !AtWork(db, r)
    ensures PassesBy(db, Outcome(db, c, v, now).db, r)
  {
    hide Linked, Finish, FinishBadly, Retry, Promote, CompleteRun, FailedAttemptsOf, TaskFailurePolicy,
      HasOpenEscalation, SameRun, AttemptOpen;
    var next := Outcome(db, c, v, now).db;
    SameTablesRun(db, db, r);
    SameEscalations(db, db, r);
    if HoldsLease(db, c) && AttemptOpen(db, c) {
      assert db.tasks[c.task].run != r;
      OutcomeFrame(db, c, v, now);
      SameEscalations(db, next, r);
      if IsGentle(db, DoOutcome(c, v, now)) {
        GentleOutcomeElsewhere(db, c, v, now, r);
      } else {
        OutcomeElsewhere(db, c, v, now, r);
      }
    }
  }

  lemma GentleOutcomeElsewhere(db: Db, c: Credential, v: Verdict, now: int, r: RunId)
    requires HoldsLease(db, c) && AttemptOpen(db, c) && IsGentle(db, DoOutcome(c, v, now)) && db.tasks[c.task].run != r
        && r in db.runs
    ensures var next := Outcome(db, c, v, now).db; SameRun(db, next, r) && r in next.runs && next.runs[r] == db.runs[r]
  {
    hide WakeRows, RecordVerdict, FailedAttemptsOf, TaskFailurePolicy;
  }

  lemma DispatchesPass(db: Db, next: Db, r: RunId)
    requires r in db.runs && next == db.(dispatches := next.dispatches)
    ensures PassesBy(db, next, r)
  {
    SameEscalations(db, next, r);
    hide HasOpenEscalation;
  }

  lemma RecordPasses(db: Db, t: TaskId, effect: EffectState, r: RunId)
    requires r in db.runs
    ensures PassesBy(db, db.(effects := db.effects[t := effect]), r)
  {
    SameEscalations(db, db.(effects := db.effects[t := effect]), r);
    hide HasOpenEscalation;
  }

  lemma NotifiedPasses(db: Db, r: RunId)
    requires Safe(db) && r in db.runs && !CanMove(db, r)
    ensures PassesBy(db, FinishNotifications(db), r)
  {
    hide Safe, SameRun, Stop, Settled, Published, NotifiedEnough, AtWork, Claimable, Awaited, HasOpenEscalation,
      AllSucceeded;
    NoneToNotify(db, r);
    NotifiedElsewhere(db, r);
    SameTablesRun(Stop(db, NotifiedEnough(db), SUCCEEDED), FinishNotifications(db), r);
    SameRunTransitive(db, Stop(db, NotifiedEnough(db), SUCCEEDED), FinishNotifications(db), r);
    SameEscalations(db, FinishNotifications(db), r);
    StopRuns(db);
  }

  lemma StopRuns(db: Db)
    ensures Stop(db, NotifiedEnough(db), SUCCEEDED).runs == db.runs
    ensures forall r :: r in db.runs && r !in RunsOf(db, NotifiedEnough(db)) ==>
              r in FinishNotifications(db).runs && FinishNotifications(db).runs[r] == db.runs[r]
  {
    hide NotifiedEnough, AllSucceeded, RunsOf;
  }

  lemma NoneToNotify(db: Db, r: RunId)
    requires !Recoverable(db, r)
    ensures r !in RunsOf(db, NotifiedEnough(db))
  {
    hide Published;
    forall t | t in NotifiedEnough(db)
      ensures db.tasks[t].run != r
    {
      assert TakenUpAgain(db, t);
    }
  }

  lemma NoneStale(db: Db, now: int, r: RunId)
    requires !Recoverable(db, r) && !AtWork(db, r)
    ensures forall t :: t in Stale(db, now) ==> db.tasks[t].run != r
  {
    hide Published;
    forall t | t in Stale(db, now)
      ensures db.tasks[t].run != r
    {
      if db.tasks[t].state == UNKNOWN_OUTCOME { assert TakenUpAgain(db, t); }
    }
  }

  lemma StaleStates(db: Db, now: int)
    ensures forall t :: t in Stale(db, now) ==> db.tasks[t].state in {RUNNING, UNKNOWN_OUTCOME}
  {
  }

  lemma RecoverTasksPass(db: Db, ps: set<TaskId>, r: RunId)
    requires r in db.runs && ps <= db.tasks.Keys && forall t :: t in ps ==> db.tasks[t].run != r
    ensures PassesBy(db, RecoverTasks(db, ps), r)
  {
    hide HasOpenEscalation, WakeRows, ClosedAttempts, Doubtful, StoppedTasks, ReleasedTasks, WokenTasks, SameRun,
      NoNewEscalation;
    SameEscalations(db, RecoverTasks(db, ps), r);
    DoubtfulAmong(db, ps);
    RecoveredElsewhere(db.tasks, Doubtful(db, ps), ps, r);
    SameRunTables(db, RecoverTasks(db, ps), r);
  }

  lemma RecoveredElsewhere(tasks: Tasks, doubtful: set<TaskId>, ps: set<TaskId>, r: RunId)
    requires doubtful <= ps && forall t :: t in tasks && tasks[t].run == r ==> t !in ps
    ensures var b := WokenTasks(ReleasedTasks(StoppedTasks(tasks, doubtful, UNKNOWN_OUTCOME), ps - doubtful),
        ps - doubtful, 0);
      && b.Keys == tasks.Keys
      && forall t :: t in tasks ==> b[t].run == tasks[t].run && (tasks[t].run == r ==> b[t] == tasks[t])
  {
  }

  lemma DoubtfulAmong(db: Db, ps: set<TaskId>)
    ensures Doubtful(db, ps) <= ps
  {
  }

  lemma RecoverStalePasses(db: Db, now: int, r: RunId)
    requires Safe(db) && r in db.runs && !CanMove(db, r)
    ensures PassesBy(db, RecoverStale(db, now).db, r)
  {
    hide Linked, Leased, Dispatched, Attempted, Counted, RetriesBounded, Honest, Budgeted, FinishNotifications,
      RecoverTasks, Promote, FailedFanoutRuns, Stale, SameRun, AtWork, Settled, Claimable, Recoverable, Awaited,
      HasOpenEscalation, Advances, NoNewEscalation;
    var notified := FinishNotifications(db);
    NotifiedPasses(db, r);
    FinishNotificationsKeeps(db);
    PassedStays(db, notified, r);
    StaleExist(notified, now);
    StaleStates(notified, now);
    NoneStale(notified, now, r);
    var recovered := RecoverTasks(notified, Stale(notified, now));
    RecoverTasksPass(notified, Stale(notified, now), r);
    RecoverTasksKeeps(notified, Stale(notified, now));
    PassedStays(notified, recovered, r);
    PromotePasses(recovered, FailedFanoutRuns(recovered), r);
    PassesTransitive(db, notified, recovered, r);
    PassesTransitive(db, recovered, RecoverStale(db, now).db, r);
  }

  lemma CompleteFanoutStays(db: Db, g: GroupId, r: RunId)
    requires r in db.runs && !CanMove(db, r)
    ensures Unmoved(db, CompleteFanout(db, g).db, r) && !CanMove(CompleteFanout(db, g).db, r)
  {
    hide CanMove, HasOpenEscalation, Eligible, NoEasier, Required;
    var next := CompleteFanout(db, g).db;
    SameEscalations(db, next, r);
    if next != db {
      forall t | t in db.tasks && db.tasks[t].run == r
        ensures t in next.tasks && (Eligible(next, t) ==> Eligible(db, t))
      {
        CompletedNoEasier(db, g, t);
        if Eligible(next, t) { NoEasierEligible(db, next, t); }
      }
      UnmovedStays(db, next, r);
    }
  }

  lemma StepPasses(db: Db, s: Step, r: RunId)
    requires Safe(db) && Quoted(db, s) && r in db.runs && !CanMove(db, r) && !s.DoCompleteFanout?
    ensures PassesBy(db, Next(db, s), r)
  {
    hide Linked, Leased, Dispatched, Attempted, Counted, RetriesBounded, Honest, Budgeted, AtWork, Settled, Claimable,
      Recoverable, Awaited, PassesBy, Issued, CreateRun, MaterializeFanout, Claim, ClaimById, Heartbeat, WaitForHuman,
      ResumeRun, ResolveEscalation, Defer, Outcome, RecoverStale, ClaimDispatchBatch, ConfirmDispatch, FailDispatch,
      DeferPublishedDispatch, Reconcile, Promote;
    match s
    case DoCreateRun(q, plan, limit, last, artifacts) => CreateRunPasses(db, q, plan, limit, last, artifacts, r);
    case DoPromote(q) => PromotePasses(db, {q}, r);
    case DoMaterialize(coordinator, join, d) => MaterializePasses(db, coordinator, join, d, r);
    case DoClaim(t, worker, now, leaseMs, a) => ClaimPasses(db, s, r);
    case DoClaimById(t, version, route, worker, now, leaseMs, limits, a) => ClaimPasses(db, s, r);
    case DoHeartbeat(c, now, leaseMs) => WorkerPasses(db, c, "", "", now, leaseMs, r);
    case DoRecordEffect(t, effect) => RecordPasses(db, t, effect, r);
    case DoWaitForHuman(c, obstacle, e) => WorkerPasses(db, c, obstacle, e, 0, 0, r);
    case DoResumeRun(e, runUnchanged) => ResumePasses(db, e, runUnchanged, r);
    case DoResolveEscalation(e, successor) => ResolvePasses(db, e, successor, r);
    case DoDefer(c, now, retryAfterMs) => WorkerPasses(db, c, "", "", now, retryAfterMs, r);
    case DoOutcome(c, v, now) => OutcomePasses(db, c, v, now, r);
    case DoRecoverStale(now) => RecoverStalePasses(db, now, r);
    case DoClaimDispatchBatch(publisher, now, leaseMs, size, batch) =>
      ClaimDispatchBatchFrame(db, publisher, now, leaseMs, size, batch);
      DispatchesPass(db, Next(db, s), r);
    case DoConfirmDispatch(k, publisher, now) =>
      PublisherFrame(db, k, publisher, now);
      DispatchesPass(db, Next(db, s), r);
    case DoFailDispatch(k, publisher, retryAt) =>
      PublisherFrame(db, k, publisher, retryAt);
      DispatchesPass(db, Next(db, s), r);
    case DoDeferPublished(t, version, retryAt) =>
      DeferPublishedFrame(db, t, version, retryAt);
      DispatchesPass(db, Next(db, s), r);
    case DoReconcile(now, republishAfterMs) => ReconcilePasses(db, now, republishAfterMs, r);
  }

  lemma ReconcilePasses(db: Db, now: int, republishAfterMs: Option<int>, r: RunId)
    requires Safe(db) && r in db.runs
    ensures PassesBy(db, Reconcile(db, now, republishAfterMs).db, r)
  {
    hide Safe, Reconcile, Keeps, ExpirePublishing, Republish, PassesBy;
    ReconcileReopens(db, now, republishAfterMs);
    DispatchesPass(db, Reopening(db, now, republishAfterMs), r);
  }

  /** No transaction moves a run that cannot move, and none makes it movable. */
  lemma StepLeavesUnmovable(db: Db, s: Step, r: RunId)
    requires Safe(db) && Quoted(db, s) && r in db.runs && !CanMove(db, r)
    ensures Unmoved(db, Next(db, s), r) && !CanMove(Next(db, s), r)
  {
    hide Linked, Leased, Dispatched, Attempted, Counted, RetriesBounded, Honest, Budgeted, CanMove, PassesBy,
      CompleteFanout, Quoted, Advances, Unmoved;
    if s.DoCompleteFanout? {
      CompleteFanoutStays(db, s.g, r);
    } else {
      hide Next;
      StepPasses(db, s, r);
      StepKeepsSafe(db, s);
      PassesUnmoved(db, Next(db, s), r);
      PassedStays(db, Next(db, s), r);
    }
  }

  // ---------------------------------------------------------------------------------------------
  // The transaction that moves a run
  // ---------------------------------------------------------------------------------------------

  /** A string longer than all of a set. */
  lemma {:induction false} FreshId(ids: set<string>) returns (id: string)
    ensures id !in ids && forall x :: x in ids ==> |x| < |id|
  {
    id := " ";
    if ids != {} {
      var x :| x in ids;
      var rest := FreshId(ids - {x});
      id := rest + x + " ";
    }
  }

  lemma WorkMoves(db: Db, r: RunId) returns (s: Step)
    requires Safe(db) && AtWork(db, r)
    ensures Quoted(db, s) && !Unmoved(db, Next(db, s), r)
  {
    hide Linked, Leased, Dispatched, Counted, RetriesBounded, Honest, Budgeted, Finish, Promote, FailGroup;
    var t :| t in db.tasks && db.tasks[t].run == r && db.tasks[t].state == RUNNING;
    var a :| Open(db.attempts, a, t);
    assert AttemptSound(db.tasks, db.attempts[a]);
    var c := Credential(t, a, db.attempts[a].owner, db.attempts[a].token);
    s := DoOutcome(c, Unknown, 0);
    UnknownStops(db, c);
  }

  lemma UnknownStops(db: Db, c: Credential)
    requires HoldsLease(db, c) && AttemptOpen(db, c)
    ensures var next := Next(db, DoOutcome(c, Unknown, 0));
        c.task in next.tasks && next.tasks[c.task].state == UNKNOWN_OUTCOME
  {
    hide Finish, Promote, FailGroup;
    FinishedTasks(db, c, Unknown, UNKNOWN_OUTCOME);
    StoppedIdentities(db.tasks, {c.task}, UNKNOWN_OUTCOME);
    var finished := Finish(db, c, Unknown, UNKNOWN_OUTCOME);
    if db.tasks[c.task].group.Some? {
      PromotedTask(FailGroup(finished, db.tasks[c.task].group.value), {db.tasks[c.task].run}, c.task);
    }
  }

  lemma PromotionMoves(db: Db, r: RunId) returns (s: Step)
    requires !Settled(db, r)
    ensures Quoted(db, s) && !Unmoved(db, Next(db, s), r)
  {
    hide Promote, Eligible;
    var t :| t in db.tasks && db.tasks[t].run == r && db.tasks[t].state == PENDING && Eligible(db, t);
    s := DoPromote(r);
    PromotedTask(db, {r}, t);
    assert Next(db, s).tasks[t].state == RUNNABLE;
  }

  lemma ClaimMoves(db: Db, r: RunId) returns (s: Step)
    requires Claimable(db, r)
    ensures Quoted(db, s) && !Unmoved(db, Next(db, s), r)
  {
    hide Eligible;
    var t :| t in db.tasks && db.tasks[t].run == r && db.tasks[t].state == RUNNABLE && Eligible(db, t);
    var expiry := if db.tasks[t].leaseExpiresAt.Some? then db.tasks[t].leaseExpiresAt.value else 0;
    var a := FreshId(db.attempts.Keys);
    s := DoClaim(t, "", if expiry > db.tasks[t].availableAt then expiry else db.tasks[t].availableAt, 0, a);
    assert Next(db, s).tasks[t].state == RUNNING;
  }

  lemma NotifiedRow(db: Db, t: TaskId)
    requires t in db.tasks
    ensures t in FinishNotifications(db).tasks
    ensures t in NotifiedEnough(db) ==> FinishNotifications(db).tasks[t].state == SUCCEEDED
    ensures t !in NotifiedEnough(db) ==> FinishNotifications(db).tasks[t] == db.tasks[t]
    ensures FinishNotifications(db).effects == db.effects
    ensures db.tasks[t].state != SUCCEEDED && t !in NotifiedEnough(db) && RunIs(db, db.tasks[t].run, ACTIVE) ==>
              RunIs(FinishNotifications(db), db.tasks[t].run, ACTIVE)
  {
    hide NotifiedEnough, RunsOf;
  }

  lemma RecoveredRow(db: Db, ps: set<TaskId>, t: TaskId)
    requires ps <= db.tasks.Keys && t in db.tasks
    ensures t in RecoverTasks(db, ps).tasks
    ensures t !in ps ==> RecoverTasks(db, ps).tasks[t] == db.tasks[t]
    ensures t in ps && t !in db.effects ==> RecoverTasks(db, ps).tasks[t].state == RUNNABLE
  {
    hide WakeRows, ClosedAttempts;
  }

  lemma RecoveryMoves(db: Db, r: RunId) returns (s: Step)
    requires Recoverable(db, r)
    ensures Quoted(db, s) && !Unmoved(db, Next(db, s), r)
  {
    hide FinishNotifications, RecoverTasks, Promote, FailedFanoutRuns, Published;
    var t :| t in db.tasks && db.tasks[t].run == r && TakenUpAgain(db, t);
    s := DoRecoverStale(0);
    var notified := FinishNotifications(db);
    NotifiedRow(db, t);
    StaleExist(notified, 0);
    var recovered := RecoverTasks(notified, Stale(notified, 0));
    RecoveredRow(notified, Stale(notified, 0), t);
    PromotedTask(recovered, FailedFanoutRuns(recovered), t);
    assert Next(db, s).tasks[t].state != UNKNOWN_OUTCOME;
  }

  lemma AnswerMoves(db: Db, r: RunId) returns (s: Step)
    requires Awaited(db, r)
    ensures Quoted(db, s) && !Unmoved(db, Next(db, s), r)
  {
    hide ResumeRun, ResolveEscalation;
    var e :| e in db.escalations && db.escalations[e].open && db.escalations[e].run == r;
    if RunIs(db, r, WAITING_FOR_HUMAN) {
      var n := FreshId(db.runs.Keys);
      s := DoResolveEscalation(e, Some(n));
      ResolveCloses(db, e, n);
    } else {
      var t :| t in db.tasks && db.tasks[t].run == r && db.tasks[t].state == WAITING;
      s := DoResumeRun(e, true);
      ResumeWakes(db, e, true, t);
    }
  }

  lemma ResolveCloses(db: Db, e: EscalationId, n: RunId)
    requires e in db.escalations && db.escalations[e].open && RunIs(db, db.escalations[e].run, WAITING_FOR_HUMAN)
    requires n !in db.runs
    ensures !RunIs(ResolveEscalation(db, e, Some(n)).db, db.escalations[e].run, WAITING_FOR_HUMAN)
  {
  }

  /** A resumption wakes every task of the run that waits. */
  lemma ResumeWakes(db: Db, e: EscalationId, runUnchanged: bool, t: TaskId)
    requires e in db.escalations && db.escalations[e].open && t in db.tasks && db.tasks[t].run == db.escalations[e].run
    ensures t in ResumeRun(db, e, runUnchanged).db.tasks && ResumeRun(db, e, runUnchanged).db.tasks[t].state != WAITING
  {
    hide WakeRows, SetRunState;
  }

  lemma SomeStepMoves(db: Db, r: RunId) returns (s: Step)
    requires Safe(db) && CanMove(db, r)
    ensures Quoted(db, s) && !Unmoved(db, Next(db, s), r)
  {
    hide Safe, AtWork, Settled, Claimable, Recoverable, Awaited, Quoted, Next, Unmoved;
    if AtWork(db, r) {
      s := WorkMoves(db, r);
    } else if !Settled(db, r) {
      s := PromotionMoves(db, r);
    } else if Claimable(db, r) {
      s := ClaimMoves(db, r);
    } else if Recoverable(db, r) {
      s := RecoveryMoves(db, r);
    } else {
      s := AnswerMoves(db, r);
    }
  }
}
