/** How the rows of the dispatch outbox move: only a publisher's lease and its confirmation take a row out of
    PENDING; every other transaction inserts pending rows, reopens rows, or leaves them alone. */
module RuntimeOutbox {
  import opened Wrappers
  import opened RuntimeState
  import opened PlanRegistry
  import opened RuntimeTransitions
  import opened RuntimeInvariant
  import opened RuntimeGrowth
  import opened RuntimeSafety
  import opened RuntimeGuarantees

  /** A row keeps its class, and is unchanged or back to PENDING; a new row is PENDING under its tool's class. */
  ghost predicate RowMoves(db: Db, next: Db, k: DispatchKey)
    requires k in next.dispatches
  {
    if k in db.dispatches then
      && next.dispatches[k].routingClass == db.dispatches[k].routingClass
      && (next.dispatches[k] == db.dispatches[k] || next.dispatches[k].state == DISPATCH_PENDING)
    else
      && next.dispatches[k].state == DISPATCH_PENDING
      && k.task in next.tasks && next.dispatches[k].routingClass == next.tasks[k.task].tool.routingClass
  }

  ghost predicate OutboxMoves(db: Db, next: Db) {
    db.dispatches.Keys <= next.dispatches.Keys && forall k :: k in next.dispatches ==> RowMoves(db, next, k)
  }

  ghost predicate SameTools(a: Tasks, b: Tasks) {
    forall t :: t in a ==> t in b && b[t].tool == a[t].tool
  }

  lemma SameRowsMove(db: Db, next: Db)
    requires next.dispatches == db.dispatches
    ensures OutboxMoves(db, next)
  {
  }

  lemma SameThenMove(db: Db, mid: Db, next: Db)
    requires mid.dispatches == db.dispatches && OutboxMoves(mid, next)
    ensures OutboxMoves(db, next)
  {
    forall k | k in next.dispatches
      ensures RowMoves(db, next, k)
    {
      assert RowMoves(mid, next, k);
    }
  }

  lemma MovesTransitive(a: Db, b: Db, c: Db)
    requires OutboxMoves(a, b) && OutboxMoves(b, c) && SameTools(b.tasks, c.tasks)
    ensures OutboxMoves(a, c)
  {
    forall k | k in c.dispatches
      ensures RowMoves(a, c, k)
    {
      assert RowMoves(b, c, k);
      if k in b.dispatches { assert RowMoves(a, b, k); }
    }
  }

  /** The rows were the same before some tasks are woken. */
  lemma WakeMoves(db: Db, mid: Db, ps: set<TaskId>, at: int, next: Db)
    requires ps <= mid.tasks.Keys && mid.dispatches == db.dispatches
    requires next.tasks == WokenTasks(mid.tasks, ps, at)
        && next.dispatches == WakeRows(mid.tasks, ps, at) + mid.dispatches
    ensures OutboxMoves(db, next) && SameTools(mid.tasks, next.tasks)
  {
    hide WokenTasks, WakeRows;
    WokenTools(mid.tasks, ps, at);
    forall k | k in WakeRows(mid.tasks, ps, at)
      ensures WakeRows(mid.tasks, ps, at)[k].state == DISPATCH_PENDING && k.task in mid.tasks
      ensures WakeRows(mid.tasks, ps, at)[k].routingClass == mid.tasks[k.task].tool.routingClass
    {
      WakeRow(mid.tasks, ps, at, k);
    }
  }

  lemma WakeRow(tasks: Tasks, ps: set<TaskId>, at: int, k: DispatchKey)
    requires ps <= tasks.Keys && k in WakeRows(tasks, ps, at)
    ensures k.task in ps && WakeRows(tasks, ps, at)[k] == NewDispatch(tasks[k.task], at)
  {
  }

  lemma WokenTools(tasks: Tasks, ps: set<TaskId>, at: int)
    ensures SameTools(tasks, WokenTasks(tasks, ps, at))
  {
  }

  lemma PromoteMovesRows(db: Db, rs: set<RunId>)
    ensures OutboxMoves(db, Promote(db, rs)) && SameTools(db.tasks, Promote(db, rs).tasks)
  {
    hide OutboxMoves, SameTools, Eligible, WokenTasks, WakeRows;
    WakeMoves(db, db, Promotable(db, rs), 0, Promote(db, rs));
  }

  lemma CreateRunMovesRows(db: Db, r: RunId, plan: seq<PlanTask>, limit: int, last: Option<RunId>,
      artifacts: set<string>)
    requires Linked(db.runs, db.tasks, db.groups)
    ensures OutboxMoves(db, CreateRun(db, r, plan, limit, last, artifacts).db)
  {
    hide Linked, OutboxMoves, InsertPlan, ReusedCount, RecoverySource, InsertableDependencies, UniqueKeys,
      KnownDependencies;
    SameRowsMove(db, db);
    if CreateRun(db, r, plan, limit, last, artifacts).answer == Done {
      var source := RecoverySource(db, plan, last);
      var reused := if source.Some? then Some(ReusedCount(db, source.value, plan, artifacts)) else None;
      PlanMovesRows(db, r, Run(ACTIVE, 0, limit, 1, plan), plan, reused);
    }
  }

  lemma PlanMovesRows(db: Db, r: RunId, x: Run, plan: seq<PlanTask>, reused: Option<nat>)
    requires Linked(db.runs, db.tasks, db.groups) && r !in db.runs && UniqueKeys(plan)
    ensures OutboxMoves(db, InsertPlan(db.(runs := db.runs[r := x]), r, plan, reused, |plan|))
  {
    hide Linked, PlanTasks, UniqueKeys;
    NewRunIds(db, r, plan, reused);
  }

  lemma ResumeMovesRows(db: Db, e: EscalationId, runUnchanged: bool)
    ensures OutboxMoves(db, ResumeRun(db, e, runUnchanged).db)
  {
    hide OutboxMoves, Waiting, SetRunState, WokenTasks, DoubtedTasks, WakeRows, SameTools;
    SameRowsMove(db, db);
    if e in db.escalations && db.escalations[e].open {
      var r := db.escalations[e].run;
      ResumedWaiting(db, r);
      var closed := CloseEscalation(db, e);
      var active := if runUnchanged then SetRunState(closed, r, WAITING_FOR_HUMAN, ACTIVE) else closed;
      var doubted := Doubt(active, Waiting(db, r, true));
      DoubtedKeys(active.tasks, Waiting(db, r, true));
      WakeMoves(db, doubted, Waiting(db, r, false), 0, ResumeRun(db, e, runUnchanged).db);
    }
  }

  lemma DoubtedKeys(tasks: Tasks, ps: set<TaskId>)
    ensures DoubtedTasks(tasks, ps).Keys == tasks.Keys
  {
  }

  lemma DeferMovesRows(db: Db, c: Credential, now: int, retryAfterMs: int)
    ensures OutboxMoves(db, Defer(db, c, now, retryAfterMs).db)
  {
    hide OutboxMoves, WokenTasks, WakeRows, SetAttemptState, Refund, ReleasedTasks, SameTools;
    SameRowsMove(db, db);
    if Defer(db, c, now, retryAfterMs).answer == Done {
      var released := db.(tasks := ReleasedTasks(db.tasks, {c.task}));
      ReleasedKeys(db.tasks, {c.task});
      WakeMoves(db, released, {c.task}, now + retryAfterMs, Defer(db, c, now, retryAfterMs).db);
    }
  }

  lemma ReleasedKeys(tasks: Tasks, ps: set<TaskId>)
    ensures ReleasedTasks(tasks, ps).Keys == tasks.Keys
  {
  }

  lemma OutcomeMovesRows(db: Db, c: Credential, v: Verdict, now: int)
    ensures OutboxMoves(db, Outcome(db, c, v, now).db)
  {
    hide OutboxMoves, Finish, FinishBadly, Retry, Promote, CompleteRun, FailedAttemptsOf, TaskFailurePolicy;
    SameRowsMove(db, db);
    if Outcome(db, c, v, now).answer == Done {
      match v
      case Success =>
        var finished := Finish(db, c, v, SUCCEEDED);
        PromotedOutbox(db, finished, {db.tasks[c.task].run}, Outcome(db, c, v, now).db);
      case Unknown => BadFinishMovesRows(db, c, v, UNKNOWN_OUTCOME);
      case Failure(transient) =>
        BadFinishMovesRows(db, c, v, FAILED);
        RetryMovesRows(db, c, v, now + TaskFailurePolicy(db.tasks[c.task].tool, transient,
            |FailedAttemptsOf(db.attempts, c.task)| + 1).delayMs);
    }
  }

  /** The rows were the same before a promotion and are left alone after it. */
  lemma PromotedOutbox(db: Db, mid: Db, rs: set<RunId>, next: Db)
    requires mid.dispatches == db.dispatches && next.dispatches == Promote(mid, rs).dispatches
        && next.tasks == Promote(mid, rs).tasks
    ensures OutboxMoves(db, next)
  {
    hide Promote;
    PromoteMovesRows(mid, rs);
    forall k | k in next.dispatches
      ensures RowMoves(db, next, k)
    {
      assert RowMoves(mid, Promote(mid, rs), k);
    }
  }

  lemma BadFinishMovesRows(db: Db, c: Credential, v: Verdict, s: TaskState)
    requires c.task in db.tasks
    ensures OutboxMoves(db, FinishBadly(db, c, v, s))
  {
    hide OutboxMoves, Finish, Promote, FailGroup, SetRunState;
    var finished := Finish(db, c, v, s);
    SameRowsMove(db, FinishBadly(db, c, v, s).(dispatches := db.dispatches));
    if db.tasks[c.task].group.Some? {
      PromotedOutbox(db, FailGroup(finished, db.tasks[c.task].group.value), {db.tasks[c.task].run},
          FinishBadly(db, c, v, s));
    }
  }

  lemma RetryMovesRows(db: Db, c: Credential, v: Verdict, at: int)
    requires c.task in db.tasks
    ensures OutboxMoves(db, Retry(db, c, v, at))
  {
    hide RecordVerdict;
  }

  lemma RecoverStaleMovesRows(db: Db, now: int)
    ensures OutboxMoves(db, RecoverStale(db, now).db)
  {
    hide OutboxMoves, FinishNotifications, RecoverTasks, Promote, FailedFanoutRuns, Stale, SameTools;
    var notified := FinishNotifications(db);
    StaleExist(notified, now);
    var recovered := RecoverTasks(notified, Stale(notified, now));
    RecoverMovesRows(notified, Stale(notified, now));
    SameThenMove(db, notified, recovered);
    PromoteMovesRows(recovered, FailedFanoutRuns(recovered));
    MovesTransitive(db, recovered, RecoverStale(db, now).db);
  }

  lemma RecoverMovesRows(db: Db, ps: set<TaskId>)
    requires ps <= db.tasks.Keys
    ensures OutboxMoves(db, RecoverTasks(db, ps))
  {
    hide ClosedAttempts, OutboxMoves, WokenTasks, WakeRows, StoppedTasks, ReleasedTasks, SameTools, Doubtful;
    var doubtful := Doubtful(db, ps);
    var mid := db.(tasks := ReleasedTasks(StoppedTasks(db.tasks, doubtful, UNKNOWN_OUTCOME), ps - doubtful));
    EndedKeys(db.tasks, doubtful, ps);
    WakeMoves(db, mid, ps - doubtful, 0, RecoverTasks(db, ps));
  }

  lemma EndedKeys(tasks: Tasks, doubtful: set<TaskId>, ps: set<TaskId>)
    ensures ReleasedTasks(StoppedTasks(tasks, doubtful, UNKNOWN_OUTCOME), ps - doubtful).Keys == tasks.Keys
  {
  }

  lemma ReopeningMovesRows(db: Db, now: int, republishAfterMs: Option<int>)
    ensures OutboxMoves(db, Reopening(db, now, republishAfterMs))
  {
    hide Overdue;
  }

  predicate IsPublication(s: Step) {
    s.DoClaimDispatchBatch? || s.DoConfirmDispatch?
  }

  /** Only publishers take rows out of PENDING. */
  lemma OnlyPublishersPublish(db: Db, s: Step)
    requires Safe(db) && !IsPublication(s)
    ensures OutboxMoves(db, Next(db, s))
  {
    hide Linked, Leased, Dispatched, Attempted, Counted, RetriesBounded, Honest, Budgeted, OutboxMoves, CreateRun,
      MaterializeFanout, CompleteFanout, Claim, ClaimById, Heartbeat, WaitForHuman, ResumeRun, ResolveEscalation, Defer,
      Outcome, RecoverStale, FailDispatch, DeferPublishedDispatch, Reconcile, Promote, Keeps, Reopening;
    match s
    case DoCreateRun(r, plan, limit, last, artifacts) => CreateRunMovesRows(db, r, plan, limit, last, artifacts);
    case DoPromote(r) => PromoteMovesRows(db, {r});
    case DoMaterialize(coordinator, join, d) =>
      MaterializeFrame(db, coordinator, join, d);
      SameRowsMove(db, Next(db, s));
    case DoCompleteFanout(g) =>
      CompleteFanoutFrame(db, g);
      SameRowsMove(db, Next(db, s));
    case DoClaim(t, worker, now, leaseMs, a) => ClaimMovesRows(db, s);
    case DoClaimById(t, version, route, worker, now, leaseMs, limits, a) => ClaimMovesRows(db, s);
    case DoHeartbeat(c, now, leaseMs) =>
      HeartbeatFrame(db, c, now, leaseMs);
      SameRowsMove(db, Next(db, s));
    case DoRecordEffect(t, effect) => SameRowsMove(db, Next(db, s));
    case DoWaitForHuman(c, obstacle, e) => WaitMovesRows(db, c, obstacle, e);
    case DoResumeRun(e, runUnchanged) => ResumeMovesRows(db, e, runUnchanged);
    case DoResolveEscalation(e, successor) =>
      ResolveEscalationFrame(db, e, successor);
      SameRowsMove(db, Next(db, s));
    case DoDefer(c, now, retryAfterMs) => DeferMovesRows(db, c, now, retryAfterMs);
    case DoOutcome(c, v, now) => OutcomeMovesRows(db, c, v, now);
    case DoRecoverStale(now) => RecoverStaleMovesRows(db, now);
    case DoFailDispatch(k, publisher, retryAt) => FailMovesRows(db, k, publisher, retryAt);
    case DoDeferPublished(t, version, retryAt) => DeferPublishedMovesRows(db, t, version, retryAt);
    case DoReconcile(now, republishAfterMs) =>
      ReconcileReopens(db, now, republishAfterMs);
      ReopeningMovesRows(db, now, republishAfterMs);
  }

  lemma ClaimMovesRows(db: Db, s: Step)
    requires IsClaim(s)
    ensures Next(db, s).dispatches == db.dispatches && OutboxMoves(db, Next(db, s))
  {
    hide StartAttempt, StartGroup, Eligible, DependencyBlocked, RunFull, PoolFull;
  }

  lemma WaitMovesRows(db: Db, c: Credential, obstacle: string, e: EscalationId)
    ensures OutboxMoves(db, WaitForHuman(db, c, obstacle, e).db)
  {
    hide SetRunState, Suspend;
  }

  lemma FailMovesRows(db: Db, k: DispatchKey, publisher: string, retryAt: int)
    ensures OutboxMoves(db, FailDispatch(db, k, publisher, retryAt).db)
  {
  }

  lemma DeferPublishedMovesRows(db: Db, t: TaskId, version: nat, retryAt: int)
    ensures OutboxMoves(db, DeferPublishedDispatch(db, t, version, retryAt).db)
  {
  }

  // ---------------------------------------------------------------------------------------------
  // Rows and their tasks
  // ---------------------------------------------------------------------------------------------

  /** Every row carries the class of its task's tool. */
  ghost predicate RowsRouted(db: Db) {
    forall k :: k in db.dispatches ==>
        k.task in db.tasks && db.dispatches[k].routingClass == db.tasks[k.task].tool.routingClass
  }

  lemma MovedRowsRouted(db: Db, next: Db)
    requires RowsRouted(db) && OutboxMoves(db, next) && TasksAdvance(db.tasks, next.tasks)
    ensures RowsRouted(next)
  {
    forall k | k in next.dispatches
      ensures k.task in next.tasks && next.dispatches[k].routingClass == next.tasks[k.task].tool.routingClass
    {
      assert RowMoves(db, next, k);
      if k in db.dispatches { assert TaskAdvances(db.tasks[k.task], next.tasks[k.task]); }
    }
  }

  lemma PublicationRowsRouted(db: Db, s: Step)
    requires RowsRouted(db) && IsPublication(s)
    ensures RowsRouted(Next(db, s))
  {
    hide Publishable, PublishExpired;
  }

  /** A row that is not its task's current one never becomes it. */
  lemma CurrentStays(db: Db, next: Db, k: DispatchKey)
    requires Dispatched(db.tasks, db.dispatches) && TasksAdvance(db.tasks, next.tasks) && k in db.dispatches
        && Current(next, k)
    ensures Current(db, k)
  {
    assert TaskAdvances(db.tasks[k.task], next.tasks[k.task]);
  }
}
