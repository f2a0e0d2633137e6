/** Tasks start to wait in one transaction only, and an open escalation is closed by its own answers only: a
    resumption, or a resolution. */
module RuntimeEscalations {
  import opened Wrappers
  import opened RuntimeState
  import opened PlanRegistry
  import opened RuntimeTransitions
  import opened RuntimeInvariant
  import opened RuntimeGrowth
  import opened RuntimeSafety
  import opened RuntimeGuarantees
  import opened RuntimeOrder
  import opened RuntimeStartOrder
  import opened RuntimeProgress
  import opened RuntimeSupersession
  import opened RuntimeMovement

  // ---------------------------------------------------------------------------------------------
  // Tasks start to wait in one transaction only
  // ---------------------------------------------------------------------------------------------

  predicate Waits(tasks: Tasks, t: TaskId) {
    t in tasks && tasks[t].state == WAITING
  }

  ghost predicate NoNewWait(a: Tasks, b: Tasks) {
    forall t :: Waits(b, t) ==> Waits(a, t)
  }

  lemma NoWaitTransitive(a: Tasks, b: Tasks, c: Tasks)
    requires NoNewWait(a, b) && NoNewWait(b, c)
    ensures NoNewWait(a, c)
  {
  }

  lemma PromoteNoWait(db: Db, rs: set<RunId>)
    ensures NoNewWait(db.tasks, Promote(db, rs).tasks)
  {
    hide Promote, Eligible;
    PromotedIds(db, rs);
    forall t | Waits(Promote(db, rs).tasks, t)
      ensures Waits(db.tasks, t)
    {
      PromotedTask(db, rs, t);
    }
  }

  lemma StoppedNoWait(tasks: Tasks, ps: set<TaskId>, s: TaskState)
    requires s != WAITING
    ensures NoNewWait(tasks, StoppedTasks(tasks, ps, s))
  {
  }

  lemma WokenNoWait(tasks: Tasks, ps: set<TaskId>, at: int)
    ensures NoNewWait(tasks, WokenTasks(tasks, ps, at)) && NoNewWait(tasks, ReleasedTasks(tasks, ps))
        && NoNewWait(tasks, DoubtedTasks(tasks, ps))
  {
  }

  lemma CreateRunNoWait(db: Db, q: RunId, plan: seq<PlanTask>, limit: int, last: Option<RunId>, artifacts: set<string>)
    requires Linked(db.runs, db.tasks, db.groups)
    ensures NoNewWait(db.tasks, CreateRun(db, q, plan, limit, last, artifacts).db.tasks)
  {
    hide Linked, InsertPlan, ReusedCount, RecoverySource, InsertableDependencies, UniqueKeys, KnownDependencies,
      PlanTasks, InitialTask;
    if CreateRun(db, q, plan, limit, last, artifacts).answer == Done {
      var source := RecoverySource(db, plan, last);
      var reused := if source.Some? then Some(ReusedCount(db, source.value, plan, artifacts)) else None;
      NewRunIds(db, q, plan, reused);
      InsertedPlan(db.(runs := db.runs[q := Run(ACTIVE, 0, limit, 1, plan)]), q, plan, reused);
      forall t | t in PlanTasks(q, plan, reused, |plan|)
        ensures PlanTasks(q, plan, reused, |plan|)[t].state != WAITING
      {
        var i := PlanTaskAt(q, plan, reused, t);
        InitialColumns(q, plan, reused, i);
      }
    }
  }

  lemma MaterializeNoWait(db: Db, coordinator: TaskId, join: TaskId, d: Descriptor)
    requires Linked(db.runs, db.tasks, db.groups)
    ensures NoNewWait(db.tasks, MaterializeFanout(db, coordinator, join, d).db.tasks)
  {
    hide Linked, InsertGroup, ShardsInsertable, NoNewWait;
    NoWaitReflexive(db.tasks);
    if MaterializeFanout(db, coordinator, join, d).db != db {
      assert GroupOf(d) !in db.groups;
      InsertGroupNoWait(db, coordinator, join, d);
    }
  }

  lemma InsertGroupNoWait(db: Db, coordinator: TaskId, join: TaskId, d: Descriptor)
    requires Linked(db.runs, db.tasks, db.groups) && GroupOf(d) !in db.groups && join in db.tasks
    ensures NoNewWait(db.tasks, InsertGroup(db, coordinator, join, d).tasks)
  {
    hide Linked, InsertGroup, ShardTasks, ShardTask;
    FreshShards(db, d, coordinator);
    InsertedGroup(db, coordinator, join, d);
    forall t | t in ShardTasks(d, coordinator)
      ensures ShardTasks(d, coordinator)[t].state != WAITING
    {
      ShardTaskAt(d, coordinator, t);
      ShardColumns(d, coordinator, t.identity);
    }
  }

  lemma ClaimNoWait(db: Db, s: Step)
    requires IsClaim(s)
    ensures NoNewWait(db.tasks, Next(db, s).tasks)
  {
    hide Eligible, DependencyBlocked, RunFull, PoolFull;
  }

  lemma HeartbeatNoWait(db: Db, c: Credential, now: int, ms: int)
    ensures NoNewWait(db.tasks, Heartbeat(db, c, now, ms).db.tasks)
  {
  }

  lemma DeferNoWait(db: Db, c: Credential, now: int, ms: int)
    ensures NoNewWait(db.tasks, Defer(db, c, now, ms).db.tasks)
  {
    hide WakeRows, NoNewWait, WokenTasks, ReleasedTasks, Refund;
    WokenNoWait(db.tasks, {c.task}, 0);
    WokenNoWait(ReleasedTasks(db.tasks, {c.task}), {c.task}, now + ms);
    NoWaitTransitive(db.tasks, ReleasedTasks(db.tasks, {c.task}),
        WokenTasks(ReleasedTasks(db.tasks, {c.task}), {c.task}, now + ms));
    NoWaitReflexive(db.tasks);
  }

  lemma NoWaitReflexive(tasks: Tasks)
    ensures NoNewWait(tasks, tasks)
  {
  }

  lemma ResumeNoWait(db: Db, e: EscalationId, runUnchanged: bool)
    ensures NoNewWait(db.tasks, ResumeRun(db, e, runUnchanged).db.tasks)
  {
    hide WakeRows, NoNewWait, WokenTasks, DoubtedTasks, Waiting, SetRunState;
    NoWaitReflexive(db.tasks);
    if e in db.escalations && db.escalations[e].open {
      var r := db.escalations[e].run;
      ResumedWaiting(db, r);
      var doubted := DoubtedTasks(db.tasks, Waiting(db, r, true));
      WokenNoWait(db.tasks, Waiting(db, r, true), 0);
      WokenNoWait(doubted, Waiting(db, r, false), 0);
      NoWaitTransitive(db.tasks, doubted, WokenTasks(doubted, Waiting(db, r, false), 0));
    }
  }

  lemma OutcomeNoWait(db: Db, c: Credential, v: Verdict, now: int)
    ensures NoNewWait(db.tasks, Outcome(db, c, v, now).db.tasks)
  {
    hide NoNewWait, Finish, FinishBadly, Retry, Promote, CompleteRun, FailedAttemptsOf, TaskFailurePolicy;
    NoWaitReflexive(db.tasks);
    if Outcome(db, c, v, now).answer == Done {
      match v
      case Success =>
        var finished := Finish(db, c, v, SUCCEEDED);
        FinishNoWait(db, c, v, SUCCEEDED);
        PromoteNoWait(finished, {db.tasks[c.task].run});
        NoWaitTransitive(db.tasks, finished.tasks, Promote(finished, {db.tasks[c.task].run}).tasks);
        SameTasksCompleted(Promote(finished, {db.tasks[c.task].run}), db.tasks[c.task].run);
      case Unknown => FinishBadlyNoWait(db, c, v, UNKNOWN_OUTCOME);
      case Failure(transient) =>
        FinishBadlyNoWait(db, c, v, FAILED);
        RetryNoWait(db, c, v, now + TaskFailurePolicy(db.tasks[c.task].tool, transient,
            |FailedAttemptsOf(db.attempts, c.task)| + 1).delayMs);
    }
  }

  lemma SameTasksCompleted(db: Db, r: RunId)
    ensures CompleteRun(db, r).tasks == db.tasks
  {
  }

  lemma FinishNoWait(db: Db, c: Credential, v: Verdict, s: TaskState)
    requires s != WAITING
    ensures NoNewWait(db.tasks, Finish(db, c, v, s).tasks)
  {
    hide NoNewWait, Finish, StoppedTasks;
    FinishedTasks(db, c, v, s);
    StoppedNoWait(db.tasks, {c.task}, s);
  }

  lemma FinishBadlyNoWait(db: Db, c: Credential, v: Verdict, s: TaskState)
    requires c.task in db.tasks && s != WAITING
    ensures NoNewWait(db.tasks, FinishBadly(db, c, v, s).tasks)
  {
    hide NoNewWait, Finish, Promote, SetRunState, FailGroup;
    FinishNoWait(db, c, v, s);
    if db.tasks[c.task].group.Some? {
      var failed := FailGroup(Finish(db, c, v, s), db.tasks[c.task].group.value);
      PromoteNoWait(failed, {db.tasks[c.task].run});
      NoWaitTransitive(db.tasks, failed.tasks, Promote(failed, {db.tasks[c.task].run}).tasks);
    }
  }

  lemma RetryNoWait(db: Db, c: Credential, v: Verdict, at: int)
    requires c.task in db.tasks
    ensures NoNewWait(db.tasks, Retry(db, c, v, at).tasks)
  {
    hide WakeRows, RecordVerdict;
  }

  lemma RecoverStaleNoWait(db: Db, now: int)
    ensures NoNewWait(db.tasks, RecoverStale(db, now).db.tasks)
  {
    hide NoNewWait, FinishNotifications, RecoverTasks, Promote, FailedFanoutRuns, Stale;
    var notified := FinishNotifications(db);
    StaleExist(notified, now);
    var recovered := RecoverTasks(notified, Stale(notified, now));
    NotifiedNoWait(db);
    RecoveredNoWait(notified, Stale(notified, now));
    NoWaitTransitive(db.tasks, notified.tasks, recovered.tasks);
    PromoteNoWait(recovered, FailedFanoutRuns(recovered));
    NoWaitTransitive(db.tasks, recovered.tasks, RecoverStale(db, now).db.tasks);
  }

  lemma NotifiedNoWait(db: Db)
    ensures NoNewWait(db.tasks, FinishNotifications(db).tasks)
  {
    hide NoNewWait, StoppedTasks, NotifiedEnough, RunsOf, AllSucceeded;
    StoppedNoWait(db.tasks, NotifiedEnough(db), SUCCEEDED);
  }

  lemma RecoveredNoWait(db: Db, ps: set<TaskId>)
    requires ps <= db.tasks.Keys
    ensures NoNewWait(db.tasks, RecoverTasks(db, ps).tasks)
  {
    hide NoNewWait, StoppedTasks, ReleasedTasks, WokenTasks, WakeRows, ClosedAttempts, Doubtful;
    var stopped := StoppedTasks(db.tasks, Doubtful(db, ps), UNKNOWN_OUTCOME);
    var released := ReleasedTasks(stopped, ps - Doubtful(db, ps));
    StoppedNoWait(db.tasks, Doubtful(db, ps), UNKNOWN_OUTCOME);
    WokenNoWait(stopped, ps - Doubtful(db, ps), 0);
    WokenNoWait(released, ps - Doubtful(db, ps), 0);
    NoWaitTransitive(db.tasks, stopped, released);
    NoWaitTransitive(db.tasks, released, WokenTasks(released, ps - Doubtful(db, ps), 0));
  }

  lemma OnlyHumanWaitsWait(db: Db, s: Step)
    requires Safe(db) && !s.DoWaitForHuman?
    ensures NoNewWait(db.tasks, Next(db, s).tasks)
  {
    hide Linked, Leased, Dispatched, Attempted, Counted, RetriesBounded, Honest, Budgeted, NoNewWait, CreateRun,
      MaterializeFanout, CompleteFanout, Claim, ClaimById, Heartbeat, ResumeRun, ResolveEscalation, Defer, Outcome,
      RecoverStale, ClaimDispatchBatch, ConfirmDispatch, FailDispatch, DeferPublishedDispatch, Reconcile, Promote,
      Reopening, Keeps;
    NoWaitReflexive(db.tasks);
    match s
    case DoCreateRun(q, plan, limit, last, artifacts) => CreateRunNoWait(db, q, plan, limit, last, artifacts);
    case DoPromote(q) => PromoteNoWait(db, {q});
    case DoMaterialize(coordinator, join, d) => MaterializeNoWait(db, coordinator, join, d);
    case DoCompleteFanout(g) => CompleteFanoutFrame(db, g);
    case DoClaim(t, worker, now, leaseMs, a) => ClaimNoWait(db, s);
    case DoClaimById(t, version, route, worker, now, leaseMs, limits, a) => ClaimNoWait(db, s);
    case DoHeartbeat(c, now, leaseMs) => HeartbeatNoWait(db, c, now, leaseMs);
    case DoRecordEffect(t, effect) =>
    case DoResumeRun(e, runUnchanged) => ResumeNoWait(db, e, runUnchanged);
    case DoResolveEscalation(e, successor) => ResolveEscalationFrame(db, e, successor);
    case DoDefer(c, now, retryAfterMs) => DeferNoWait(db, c, now, retryAfterMs);
    case DoOutcome(c, v, now) => OutcomeNoWait(db, c, v, now);
    case DoRecoverStale(now) => RecoverStaleNoWait(db, now);
    case DoClaimDispatchBatch(publisher, now, leaseMs, size, batch) =>
      ClaimDispatchBatchFrame(db, publisher, now, leaseMs, size, batch);
    case DoConfirmDispatch(k, publisher, now) => PublisherFrame(db, k, publisher, now);
    case DoFailDispatch(k, publisher, retryAt) => PublisherFrame(db, k, publisher, retryAt);
    case DoDeferPublished(t, version, retryAt) => DeferPublishedFrame(db, t, version, retryAt);
    case DoReconcile(now, republishAfterMs) => ReconcileReopens(db, now, republishAfterMs);
  }

  /** The task that starts to wait opens an escalation of its run. */
  lemma WaitOpens(db: Db, s: Step, t: TaskId)
    requires s.DoWaitForHuman? && Waits(Next(db, s).tasks, t) && !Waits(db.tasks, t)
    ensures HasOpenEscalation(Next(db, s), Next(db, s).tasks[t].run)
  {
    hide SetRunState, SetAttemptState;
    assert Next(db, s).escalations[s.e].open && Next(db, s).escalations[s.e].run == Next(db, s).tasks[t].run;
  }

  // ---------------------------------------------------------------------------------------------
  // Escalations are closed by their answers only
  // ---------------------------------------------------------------------------------------------

  /** The step answers an open escalation of the run. */
  predicate Answers(db: Db, s: Step, r: RunId) {
    (s.DoResumeRun? || s.DoResolveEscalation?) && s.e in db.escalations && db.escalations[s.e].open
        && db.escalations[s.e].run == r
  }

  lemma EscalationStaysOpen(db: Db, s: Step, r: RunId)
    requires Safe(db) && HasOpenEscalation(db, r) && !Answers(db, s, r)
    ensures HasOpenEscalation(Next(db, s), r)
  {
    hide Safe, Next;
    var e :| e in db.escalations && db.escalations[e].open && db.escalations[e].run == r;
    EscalationKept(db, s, e);
  }

  lemma EscalationKept(db: Db, s: Step, e: EscalationId)
    requires Safe(db) && e in db.escalations && db.escalations[e].open && !Answers(db, s, db.escalations[e].run)
    ensures e in Next(db, s).escalations && Next(db, s).escalations[e] == db.escalations[e]
  {
    hide Safe, CreateRun, MaterializeFanout, CompleteFanout, Claim, ClaimById, Heartbeat, WaitForHuman, ResumeRun,
      ResolveEscalation, Defer, Outcome, RecoverStale, ClaimDispatchBatch, ConfirmDispatch, FailDispatch,
      DeferPublishedDispatch, Reconcile, Promote;
    match s
    case DoCreateRun(q, plan, limit, last, artifacts) => CreateRunFrame(db, q, plan, limit, last, artifacts);
    case DoPromote(q) =>
    case DoMaterialize(coordinator, join, d) => MaterializeFrame(db, coordinator, join, d);
    case DoCompleteFanout(g) => CompleteFanoutFrame(db, g);
    case DoClaim(t, worker, now, leaseMs, a) => ClaimEscalations(db, s);
    case DoClaimById(t, version, route, worker, now, leaseMs, limits, a) => ClaimEscalations(db, s);
    case DoHeartbeat(c, now, leaseMs) => HeartbeatFrame(db, c, now, leaseMs);
    case DoRecordEffect(t, effect) =>
    case DoWaitForHuman(c, obstacle, f) => WaitEscalations(db, c, obstacle, f, e);
    case DoResumeRun(f, runUnchanged) => ResumeEscalations(db, f, runUnchanged, e);
    case DoResolveEscalation(f, successor) => ResolveEscalations(db, f, successor, e);
    case DoDefer(c, now, retryAfterMs) => DeferEscalations(db, c, now, retryAfterMs);
    case DoOutcome(c, v, now) => OutcomeFrame(db, c, v, now);
    case DoRecoverStale(now) => RecoverEscalations(db, now);
    case DoClaimDispatchBatch(publisher, now, leaseMs, size, batch) =>
      ClaimDispatchBatchFrame(db, publisher, now, leaseMs, size, batch);
    case DoConfirmDispatch(k, publisher, now) => PublisherFrame(db, k, publisher, now);
    case DoFailDispatch(k, publisher, retryAt) => PublisherFrame(db, k, publisher, retryAt);
    case DoDeferPublished(t, version, retryAt) => DeferPublishedFrame(db, t, version, retryAt);
    case DoReconcile(now, republishAfterMs) => ReconcileFrame(db, now, republishAfterMs);
  }

  lemma WaitEscalations(db: Db, c: Credential, obstacle: string, f: EscalationId, e: EscalationId)
    requires e in db.escalations
    ensures e in WaitForHuman(db, c, obstacle, f).db.escalations
        && WaitForHuman(db, c, obstacle, f).db.escalations[e] == db.escalations[e]
  {
    hide SetRunState, SetAttemptState;
  }

  lemma ResumeEscalations(db: Db, f: EscalationId, runUnchanged: bool, e: EscalationId)
    requires e in db.escalations && (f == e ==> !db.escalations[e].open)
    ensures e in ResumeRun(db, f, runUnchanged).db.escalations
        && ResumeRun(db, f, runUnchanged).db.escalations[e] == db.escalations[e]
  {
    hide SetRunState, Wake, Doubt, Waiting;
    if f in db.escalations { ResumedWaiting(db, db.escalations[f].run); }
  }

  lemma ResolveEscalations(db: Db, f: EscalationId, successor: Option<RunId>, e: EscalationId)
    requires e in db.escalations && (f == e ==> !db.escalations[e].open)
    ensures e in ResolveEscalation(db, f, successor).db.escalations
        && ResolveEscalation(db, f, successor).db.escalations[e] == db.escalations[e]
  {
    hide SetRunState;
  }

}
