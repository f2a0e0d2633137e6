/** The order in which tasks start: dependencies, joins of failed groups, and recovery runs. A gentle
    transaction starts no pending task and finishes none; most transactions are gentle. */
module RuntimeOrder {
  import opened Wrappers
  import opened RuntimeState
  import opened PlanRegistry
  import opened RuntimeTransitions
  import opened RuntimeInvariant
  import opened RuntimeUnits
  import opened RuntimeSafety
  import opened RuntimeGuarantees

  // ---------------------------------------------------------------------------------------------
  // What is preserved
  // ---------------------------------------------------------------------------------------------

  /** The task has left PENDING by its own work, or was reused by a recovery. Shards taken over from an
      earlier run are not counted: they are inserted as SUCCEEDED next to a running coordinator. */
  predicate Begun(t: TaskId, x: Task) {
    x.state != PENDING && !(t.Shard? && x.state == SUCCEEDED && x.leaseToken == 0)
  }

  /** Every dependency of a task that has begun, and joins no group, is SUCCEEDED. */
  ghost predicate Ordered(db: Db) {
    forall t, d :: t in db.tasks && d in db.tasks[t].dependsOn && Begun(t, db.tasks[t]) && !Joins(db, t) ==>
      d in db.tasks && db.tasks[d].state == SUCCEEDED
  }

  /** The join of a failed group has been woken. */
  ghost predicate JoinsWoken(db: Db) {
    forall g :: g in db.groups && db.groups[g].state == GROUP_FAILED ==>
      db.groups[g].join in db.tasks && db.tasks[db.groups[g].join].state != PENDING
  }

  /** A failed run has a failed task of its plan. */
  ghost predicate FailuresShown(db: Db) {
    && (forall t :: t in db.tasks && t.Planned? ==> t.run in db.runs && t.key in Keys(db.runs[t.run].plan))
    && (forall r ::
        r in db.runs && db.runs[r].state == RUN_FAILED ==>
        exists t :: t in db.tasks && t.Planned? && t.run == r && db.tasks[t].state == FAILED)
  }

  ghost predicate Orderly(db: Db) {
    && Ordered(db)
    && JoinsWoken(db)
    && FailuresShown(db)
    && (forall t :: t in db.tasks ==> db.tasks[t].state != CANCELLED)
  }

  // ---------------------------------------------------------------------------------------------
  // Gentle changes: tasks move only between live states
  // ---------------------------------------------------------------------------------------------

  predicate Live(s: TaskState) {
    s in {RUNNABLE, RUNNING, WAITING, UNKNOWN_OUTCOME}
  }

  predicate RunOpen(s: RunState) {
    s in {ACTIVE, WAITING_FOR_HUMAN}
  }

  ghost predicate GentleTask(x: Task, y: Task) {
    && y.run == x.run && y.tool == x.tool && y.group == x.group && y.dependsOn == x.dependsOn
    && (y.state == x.state || (Live(x.state) && Live(y.state)))
  }

  ghost predicate GentleTasks(a: Tasks, b: Tasks) {
    b.Keys == a.Keys && forall t :: t in a ==> GentleTask(a[t], b[t])
  }

  ghost predicate GentleRuns(a: Runs, b: Runs) {
    b.Keys == a.Keys && forall r ::
        r in a ==> b[r].plan == a[r].plan && (b[r].state == a[r].state || (RunOpen(a[r].state) && RunOpen(b[r].state)))
  }

  ghost predicate GentleGroups(a: Groups, b: Groups) {
    b.Keys == a.Keys && forall g ::
        g in a ==>
        b[g] == a[g].(state := b[g].state) && (b[g].state == a[g].state
        || (a[g].state == PLANNED && b[g].state == GROUP_RUNNING))
  }

  ghost predicate Gentle(db: Db, next: Db) {
    && GentleTasks(db.tasks, next.tasks)
    && GentleRuns(db.runs, next.runs)
    && GentleGroups(db.groups, next.groups)
  }

  lemma GentleReflexive(db: Db)
    ensures Gentle(db, db)
  {
  }

  lemma GentleTransitive(a: Db, b: Db, c: Db)
    requires Gentle(a, b) && Gentle(b, c)
    ensures Gentle(a, c)
  {
  }

  lemma SameJoins(db: Db, next: Db, t: TaskId)
    requires SameMembers(db.groups, next.groups)
    ensures Joins(next, t) == Joins(db, t)
  {
    if Joins(db, t) {
      var g :| g in db.groups && db.groups[g].join == t;
      assert next.groups[g].join == t;
    }
    if Joins(next, t) {
      var g :| g in next.groups && next.groups[g].join == t;
      assert db.groups[g].join == t;
    }
  }

  // ---------------------------------------------------------------------------------------------
  // Gentle transactions
  // ---------------------------------------------------------------------------------------------

  /** Only the tasks `ps` change, between live states. */
  lemma GentleIn(a: Tasks, b: Tasks, ps: set<TaskId>)
    requires b.Keys == a.Keys && forall t ::
        t in a ==> if t in ps then Live(a[t].state) && Live(b[t].state) && SameIdentity(a[t], b[t]) else b[t] == a[t]
    ensures GentleTasks(a, b)
  {
  }

  predicate AllLive(tasks: Tasks, ps: set<TaskId>) {
    ps <= tasks.Keys && forall t :: t in ps ==> Live(tasks[t].state)
  }

  lemma WokenGently(tasks: Tasks, ps: set<TaskId>, at: int)
    requires AllLive(tasks, ps)
    ensures GentleTasks(tasks, WokenTasks(tasks, ps, at))
  {
  }

  lemma DoubtedGently(tasks: Tasks, ps: set<TaskId>)
    requires AllLive(tasks, ps)
    ensures GentleTasks(tasks, DoubtedTasks(tasks, ps)) && DoubtedTasks(tasks, ps).Keys == tasks.Keys
  {
  }

  lemma StoppedGently(tasks: Tasks, ps: set<TaskId>, s: TaskState)
    requires AllLive(tasks, ps) && Live(s)
    ensures GentleTasks(tasks, StoppedTasks(tasks, ps, s)) && StoppedTasks(tasks, ps, s).Keys == tasks.Keys
  {
  }

  lemma ReleasedGently(tasks: Tasks, ps: set<TaskId>)
    ensures GentleTasks(tasks, ReleasedTasks(tasks, ps)) && ReleasedTasks(tasks, ps).Keys == tasks.Keys
    ensures forall qs :: AllLive(tasks, qs) ==> AllLive(ReleasedTasks(tasks, ps), qs)
  {
  }

  lemma RetryCountedGently(tasks: Tasks, t: TaskId)
    requires t in tasks
    ensures GentleTasks(tasks, RetryCounted(tasks, t)) && RetryCounted(tasks, t)[t].state == tasks[t].state
  {
  }

  lemma GentleTasksTransitive(a: Tasks, b: Tasks, c: Tasks)
    requires GentleTasks(a, b) && GentleTasks(b, c)
    ensures GentleTasks(a, c)
  {
  }

  lemma GentleKeepsLive(a: Tasks, b: Tasks, ps: set<TaskId>)
    requires GentleTasks(a, b) && AllLive(a, ps)
    ensures AllLive(b, ps)
  {
    assert forall t :: t in a ==> GentleTask(a[t], b[t]);
  }

  lemma RunStateGently(db: Db, r: RunId, from: RunState, to: RunState)
    requires RunOpen(from) && RunOpen(to)
    ensures GentleRuns(db.runs, SetRunState(db, r, from, to).runs)
  {
  }

  /** Transactions that start no pending task and finish none. */
  predicate IsGentle(db: Db, s: Step) {
    match s
    case DoClaim(_, _, _, _, _) => true
    case DoClaimById(_, _, _, _, _, _, _, _) => true
    case DoHeartbeat(_, _, _) => true
    case DoRecordEffect(_, _) => true
    case DoWaitForHuman(_, _, _) => true
    case DoResumeRun(_, _) => true
    case DoResolveEscalation(e, successor) => !Supersedes(db, e, successor)
    case DoDefer(_, _, _) => true
    case DoOutcome(c, v, _) => c.task !in db.tasks || !HoldsLease(db, c) || !AttemptOpen(db, c) || Retried(db, c, v)
        || (v == Unknown && db.tasks[c.task].group == None)
    case DoClaimDispatchBatch(_, _, _, _, _) => true
    case DoConfirmDispatch(_, _, _) => true
    case DoFailDispatch(_, _, _) => true
    case DoDeferPublished(_, _, _) => true
    case DoReconcile(_, _) => true
    case _ => false
  }

  predicate Retried(db: Db, c: Credential, v: Verdict) {
    c.task in db.tasks && v.Failure? && TaskFailurePolicy(db.tasks[c.task].tool, v.transient,
        |FailedAttemptsOf(db.attempts, c.task)| + 1).retry
  }

  lemma StartedGently(db: Db, t: TaskId, worker: Worker, until: int, a: AttemptId)
    requires t in db.tasks && db.tasks[t].run in db.runs && db.tasks[t].state == RUNNABLE
    ensures Gentle(db, StartAttempt(db, t, worker, until, a))
  {
  }

  lemma StartGroupGently(db: Db, g: GroupId)
    ensures Gentle(db, StartGroup(db, g))
  {
    GentleReflexive(db);
    assert GentleGroups(db.groups, StartGroup(db, g).groups);
    hide GentleTasks, GentleRuns, GentleGroups;
  }

  lemma ClaimGently(db: Db, s: Step)
    requires IsClaim(s)
    ensures Gentle(db, Next(db, s))
  {
    hide StartAttempt, StartGroup, Eligible, DependencyBlocked, RunFull, PoolFull, Gentle;
    GentleReflexive(db);
    if Startable(db, s.t, s.now) {
      var started := StartAttempt(db, s.t, s.worker, s.now + s.leaseMs, s.a);
      StartedGently(db, s.t, s.worker, s.now + s.leaseMs, s.a);
      if s.DoClaimById? && db.tasks[s.t].group.Some? {
        StartGroupGently(started, db.tasks[s.t].group.value);
        GentleTransitive(db, started, StartGroup(started, db.tasks[s.t].group.value));
      }
    }
  }

  lemma GentleParts(db: Db, next: Db)
    requires GentleTasks(db.tasks, next.tasks) && GentleRuns(db.runs, next.runs) && next.groups == db.groups
    ensures Gentle(db, next)
  {
  }

  lemma SameRunsGently(runs: Runs)
    ensures GentleRuns(runs, runs)
  {
  }

  lemma HeartbeatGently(db: Db, c: Credential, now: int, leaseMs: int)
    ensures Gentle(db, Heartbeat(db, c, now, leaseMs).db)
  {
    hide GentleTasks, GentleRuns;
    if HoldsLease(db, c) {
      GentleIn(db.tasks, Heartbeat(db, c, now, leaseMs).db.tasks, {c.task});
      SameRunsGently(db.runs);
      GentleParts(db, Heartbeat(db, c, now, leaseMs).db);
    } else {
      GentleReflexive(db);
    }
  }

  lemma WaitForHumanGently(db: Db, c: Credential, obstacle: string, e: EscalationId)
    ensures Gentle(db, WaitForHuman(db, c, obstacle, e).db)
  {
    hide SetRunState, SetAttemptState;
    GentleReflexive(db);
    if WaitForHuman(db, c, obstacle, e).answer == Done {
      var suspended := Suspend(db, c).(escalations := db.escalations[e := Asked(db.tasks[c.task].run, obstacle)]);
      RunStateGently(suspended, db.tasks[c.task].run, ACTIVE, WAITING_FOR_HUMAN);
    }
  }

  lemma ResumeRunGently(db: Db, e: EscalationId, runUnchanged: bool)
    ensures Gentle(db, ResumeRun(db, e, runUnchanged).db)
  {
    hide SetRunState, CloseEscalation, WokenTasks, DoubtedTasks, WakeRows, GentleTasks, GentleRuns, AllLive, Waiting;
    if e in db.escalations && db.escalations[e].open {
      var r := db.escalations[e].run;
      RunStateGently(CloseEscalation(db, e), r, WAITING_FOR_HUMAN, ACTIVE);
      SameRunsGently(db.runs);
      WaitingLive(db, r);
      DoubtedGently(db.tasks, Waiting(db, r, true));
      GentleKeepsLive(db.tasks, DoubtedTasks(db.tasks, Waiting(db, r, true)), Waiting(db, r, false));
      WokenGently(DoubtedTasks(db.tasks, Waiting(db, r, true)), Waiting(db, r, false), 0);
      GentleTasksTransitive(db.tasks, DoubtedTasks(db.tasks, Waiting(db, r, true)),
          ResumeRun(db, e, runUnchanged).db.tasks);
      GentleParts(db, ResumeRun(db, e, runUnchanged).db);
    } else {
      GentleReflexive(db);
    }
  }

  lemma WaitingLive(db: Db, r: RunId)
    ensures AllLive(db.tasks, Waiting(db, r, true)) && AllLive(db.tasks, Waiting(db, r, false))
  {
  }

  lemma ResolveGently(db: Db, e: EscalationId, successor: Option<RunId>)
    requires !Supersedes(db, e, successor)
    ensures Gentle(db, ResolveEscalation(db, e, successor).db)
  {
    hide SetRunState, CloseEscalation, GentleRuns;
    GentleReflexive(db);
    if e in db.escalations && db.escalations[e].open {
      RunStateGently(CloseEscalation(db, e), db.escalations[e].run, WAITING_FOR_HUMAN, ACTIVE);
    }
  }

  /** A lease holder's task goes back to the queue. */
  lemma RequeuedGently(tasks: Tasks, mid: Tasks, t: TaskId, at: int)
    requires t in tasks && Live(tasks[t].state) && GentleTasks(tasks, mid)
    ensures GentleTasks(tasks, WokenTasks(mid, {t}, at))
  {
    GentleKeepsLive(tasks, mid, {t});
    hide WokenTasks, GentleTasks;
    WokenGently(mid, {t}, at);
    GentleTasksTransitive(tasks, mid, WokenTasks(mid, {t}, at));
  }

  lemma RefundGently(db: Db, r: RunId)
    ensures GentleRuns(db.runs, Refund(db, r).runs)
  {
  }

  lemma DeferGently(db: Db, c: Credential, now: int, retryAfterMs: int)
    ensures Gentle(db, Defer(db, c, now, retryAfterMs).db)
  {
    hide Refund, SetAttemptState, WokenTasks, WakeRows, ReleasedTasks, GentleTasks, GentleRuns;
    if Defer(db, c, now, retryAfterMs).answer == Done {
      ReleasedGently(db.tasks, {c.task});
      RequeuedGently(db.tasks, ReleasedTasks(db.tasks, {c.task}), c.task, now + retryAfterMs);
      var deferred := SetAttemptState(db.(tasks := ReleasedTasks(db.tasks, {c.task})), c.attempt, DEFERRED);
      RefundGently(deferred, db.tasks[c.task].run);
      GentleParts(db, Defer(db, c, now, retryAfterMs).db);
    } else {
      GentleReflexive(db);
    }
  }

  lemma OutcomeGently(db: Db, c: Credential, v: Verdict, now: int)
    requires IsGentle(db, DoOutcome(c, v, now))
    ensures Gentle(db, Outcome(db, c, v, now).db)
  {
    hide RecordVerdict, WokenTasks, WakeRows, RetryCounted, StoppedTasks, GentleTasks, GentleRuns, FailedAttemptsOf,
      Promote, CompleteRun;
    SameRunsGently(db.runs);
    if Outcome(db, c, v, now).answer == Done {
      if v == Unknown {
        StoppedGently(db.tasks, {c.task}, UNKNOWN_OUTCOME);
      } else {
        RetryCountedGently(db.tasks, c.task);
        var policy := TaskFailurePolicy(db.tasks[c.task].tool, v.transient,
            |FailedAttemptsOf(db.attempts, c.task)| + 1);
        RequeuedGently(db.tasks, RetryCounted(db.tasks, c.task), c.task, now + policy.delayMs);
      }
      GentleParts(db, Outcome(db, c, v, now).db);
    } else {
      GentleReflexive(db);
    }
  }

  lemma ReconcileGently(db: Db, now: int, republishAfterMs: Option<int>)
    requires Safe(db)
    ensures Gentle(db, Reconcile(db, now, republishAfterMs).db)
  {
    hide Safe, Reconcile, Keeps, Gentle, ExpirePublishing, Republish;
    ReconcileReopens(db, now, republishAfterMs);
    OutboxGently(db, Reopening(db, now, republishAfterMs));
  }

  lemma OutboxGently(db: Db, next: Db)
    requires next == db.(dispatches := next.dispatches, effects := next.effects)
    ensures Gentle(db, next)
  {
  }

  lemma GentleStep(db: Db, s: Step)
    requires Safe(db) && IsGentle(db, s)
    ensures Gentle(db, Next(db, s))
  {
    hide Safe, Gentle, CreateRun, MaterializeFanout, CompleteFanout, Claim, ClaimById, Heartbeat, WaitForHuman,
      ResumeRun, ResolveEscalation, Defer, Outcome, RecoverStale, ClaimDispatchBatch, ConfirmDispatch, FailDispatch,
      DeferPublishedDispatch, Reconcile, Promote, HoldsLease, AttemptOpen, Retried;
    match s
    case DoClaim(t, worker, now, leaseMs, a) => ClaimGently(db, s);
    case DoClaimById(t, version, route, worker, now, leaseMs, limits, a) => ClaimGently(db, s);
    case DoHeartbeat(c, now, leaseMs) => HeartbeatGently(db, c, now, leaseMs);
    case DoRecordEffect(t, effect) => OutboxGently(db, Next(db, s));
    case DoWaitForHuman(c, obstacle, e) => WaitForHumanGently(db, c, obstacle, e);
    case DoResumeRun(e, runUnchanged) => ResumeRunGently(db, e, runUnchanged);
    case DoResolveEscalation(e, successor) => ResolveGently(db, e, successor);
    case DoDefer(c, now, retryAfterMs) => DeferGently(db, c, now, retryAfterMs);
    case DoOutcome(c, v, now) => OutcomeGently(db, c, v, now);
    case DoClaimDispatchBatch(publisher, now, leaseMs, size, batch) =>
      ClaimDispatchBatchFrame(db, publisher, now, leaseMs, size, batch);
      OutboxGently(db, Next(db, s));
    case DoConfirmDispatch(k, publisher, now) =>
      PublisherFrame(db, k, publisher, now);
      OutboxGently(db, Next(db, s));
    case DoFailDispatch(k, publisher, retryAt) =>
      PublisherFrame(db, k, publisher, retryAt);
      OutboxGently(db, Next(db, s));
    case DoDeferPublished(t, version, retryAt) =>
      DeferPublishedFrame(db, t, version, retryAt);
      OutboxGently(db, Next(db, s));
    case DoReconcile(now, republishAfterMs) => ReconcileGently(db, now, republishAfterMs);
  }

  // ---------------------------------------------------------------------------------------------
  // The units of the other transactions
  // ---------------------------------------------------------------------------------------------

  /** No task leaves or enters PENDING, finished tasks stay, and identities are kept. */
  ghost predicate Unreleased(a: Tasks, b: Tasks) {
    && b.Keys == a.Keys
    && forall t :: t in a ==>
      && SameIdentity(a[t], b[t])
      && (b[t].state == PENDING <==> a[t].state == PENDING)
      && (Final(a[t].state) ==> b[t].state == a[t].state && b[t].leaseToken == a[t].leaseToken)
      && (b[t].state == CANCELLED ==> a[t].state == CANCELLED)
  }

  lemma GentleUnreleased(a: Tasks, b: Tasks)
    requires GentleTasks(a, b) && TasksAdvance(a, b) && forall t ::
        t in b ==> b[t].routingClass == b[t].tool.routingClass
    ensures Unreleased(a, b)
  {
    forall t | t in a
      ensures SameIdentity(a[t], b[t]) && (b[t].state == PENDING <==> a[t].state == PENDING)
      ensures Final(a[t].state) ==> b[t].state == a[t].state && b[t].leaseToken == a[t].leaseToken
      ensures b[t].state == CANCELLED ==> a[t].state == CANCELLED
    {
      assert GentleTask(a[t], b[t]) && TaskAdvances(a[t], b[t]);
    }
  }

  lemma StoppedUnreleased(tasks: Tasks, ps: set<TaskId>, s: TaskState)
    requires AllLive(tasks, ps) && s !in {PENDING, CANCELLED}
    ensures Unreleased(tasks, StoppedTasks(tasks, ps, s))
  {
  }

  lemma UnreleasedOrder(db: Db, next: Db)
    requires Unreleased(db.tasks, next.tasks) && SameMembers(db.groups, next.groups) && Ordered(db)
    ensures Ordered(next)
  {
    hide Joins;
    forall t, d | t in next.tasks && d in next.tasks[t].dependsOn && Begun(t, next.tasks[t]) && !Joins(next, t)
      ensures d in next.tasks && next.tasks[d].state == SUCCEEDED
    {
      SameJoins(db, next, t);
      assert Begun(t, db.tasks[t]);
      assert d in db.tasks && db.tasks[d].state == SUCCEEDED;
    }
  }

  ghost predicate SamePlans(a: Runs, b: Runs) {
    b.Keys == a.Keys && forall r :: r in a ==> b[r].plan == a[r].plan
  }

  lemma UnreleasedKeeps(db: Db, next: Db)
    requires Orderly(db) && Unreleased(db.tasks, next.tasks) && SameMembers(db.groups, next.groups)
        && SamePlans(db.runs, next.runs)
    requires forall r :: r in next.runs && next.runs[r].state == RUN_FAILED && db.runs[r].state != RUN_FAILED ==>
        exists t :: t in next.tasks && t.Planned? && t.run == r && next.tasks[t].state == FAILED
    requires forall g :: g in next.groups && next.groups[g].state == GROUP_FAILED ==> db.groups[g].state == GROUP_FAILED
    ensures Orderly(next)
  {
    UnreleasedOrder(db, next);
    hide Ordered;
    forall r | r in next.runs && db.runs[r].state == RUN_FAILED
      ensures exists t :: t in next.tasks && t.Planned? && t.run == r && next.tasks[t].state == FAILED
    {
      var t :| t in db.tasks && t.Planned? && t.run == r && db.tasks[t].state == FAILED;
      assert next.tasks[t].state == FAILED;
    }
  }

  lemma RoutesMatch(db: Db)
    requires Linked(db.runs, db.tasks, db.groups)
    ensures forall t :: t in db.tasks ==> db.tasks[t].routingClass == db.tasks[t].tool.routingClass
  {
    assert forall t :: t in db.tasks ==> TaskSound(db.runs, db.tasks, db.groups, t);
  }

  lemma GentleKeepsOrderly(db: Db, next: Db)
    requires Orderly(db) && Gentle(db, next) && Safe(next) && Advances(db, next)
    ensures Orderly(next)
  {
    hide Linked, Leased, Dispatched, Attempted, Counted, RetriesBounded, Honest, Budgeted, Orderly, TasksAdvance,
      GentleTasks, Unreleased;
    RoutesMatch(next);
    GentleUnreleased(db.tasks, next.tasks);
    UnreleasedKeeps(db, next);
  }

  lemma PromotedTask(db: Db, rs: set<RunId>, t: TaskId)
    requires t in db.tasks
    ensures t in Promote(db, rs).tasks
    ensures Promote(db, rs).tasks[t] == if db.tasks[t].run in rs && db.tasks[t].state == PENDING && Eligible(db, t)
        then Woken(db.tasks[t], 0) else db.tasks[t]
  {
    hide Eligible, WakeRows;
  }

  lemma PromotedIds(db: Db, rs: set<RunId>)
    ensures Promote(db, rs).tasks.Keys == db.tasks.Keys
  {
    hide Eligible, WakeRows;
  }

  lemma PromoteOrder(db: Db, rs: set<RunId>)
    requires Linked(db.runs, db.tasks, db.groups) && Ordered(db)
    ensures Ordered(Promote(db, rs))
  {
    hide Promote, Joins;
    var next := Promote(db, rs);
    PromotedIds(db, rs);
    forall t, d | t in next.tasks && d in next.tasks[t].dependsOn && Begun(t, next.tasks[t]) && !Joins(next, t)
      ensures d in next.tasks && next.tasks[d].state == SUCCEEDED
    {
      PromotedTask(db, rs, t);
      SameJoins(db, next, t);
      assert TaskSound(db.runs, db.tasks, db.groups, t);
      PromotedTask(db, rs, d);
      if db.tasks[t].state == PENDING {
        if JoinsFailedGroup(db, t) { FailedGroupJoins(db, t); }
        assert !Blocks(db, t, d);
      }
    }
  }

  lemma FailedGroupJoins(db: Db, t: TaskId)
    requires JoinsFailedGroup(db, t)
    ensures Joins(db, t)
  {
    var g :| g in db.groups && db.groups[g].join == t && db.groups[g].state == GROUP_FAILED;
    assert db.groups[g].join == t;
  }

  /** Promotion wakes the pending joins of failed groups in the runs it covers. */
  lemma PromoteWakesJoins(db: Db, rs: set<RunId>)
    requires forall g ::
        g in db.groups && db.groups[g].state == GROUP_FAILED && db.groups[g].join in db.tasks
        && db.tasks[db.groups[g].join].state == PENDING ==>
            db.tasks[db.groups[g].join].run in rs
    requires forall g :: g in db.groups ==> db.groups[g].join in db.tasks
    ensures JoinsWoken(Promote(db, rs))
  {
    hide Promote;
    PromotedIds(db, rs);
    forall g | g in db.groups && db.groups[g].state == GROUP_FAILED
      ensures Promote(db, rs).tasks[db.groups[g].join].state != PENDING
    {
      PromotedTask(db, rs, db.groups[g].join);
      assert JoinsFailedGroup(db, db.groups[g].join);
    }
  }

  lemma PromoteShows(db: Db, rs: set<RunId>)
    requires FailuresShown(db) && forall t :: t in db.tasks ==> db.tasks[t].state != CANCELLED
    ensures FailuresShown(Promote(db, rs)) && forall t ::
        t in Promote(db, rs).tasks ==> Promote(db, rs).tasks[t].state != CANCELLED
  {
    hide Promote, Eligible;
    var next := Promote(db, rs);
    PromotedIds(db, rs);
    forall t | t in db.tasks
      ensures next.tasks[t].state != CANCELLED && (db.tasks[t].state == FAILED ==> next.tasks[t].state == FAILED)
    {
      PromotedTask(db, rs, t);
    }
    forall r | r in db.runs && db.runs[r].state == RUN_FAILED
      ensures exists t :: t in next.tasks && t.Planned? && t.run == r && next.tasks[t].state == FAILED
    {
      var t :| t in db.tasks && t.Planned? && t.run == r && db.tasks[t].state == FAILED;
      assert next.tasks[t].state == FAILED;
    }
  }

  /** What is left of Orderly while a failed group has not woken its join. */
  ghost predicate OrderlyBut(db: Db, rs: set<RunId>) {
    && Ordered(db)
    && FailuresShown(db)
    && (forall t :: t in db.tasks ==> db.tasks[t].state != CANCELLED)
    && (forall g :: g in db.groups ==> db.groups[g].join in db.tasks)
    && (forall g ::
        g in db.groups && db.groups[g].state == GROUP_FAILED && db.tasks[db.groups[g].join].state == PENDING ==>
        db.tasks[db.groups[g].join].run in rs)
  }

  lemma PromoteKeepsOrderly(db: Db, rs: set<RunId>)
    requires Linked(db.runs, db.tasks, db.groups) && OrderlyBut(db, rs)
    ensures Orderly(Promote(db, rs))
  {
    PromoteWakesJoins(db, rs);
    hide Linked, Ordered, FailuresShown, JoinsWoken, Promote;
    PromoteOrder(db, rs);
    PromoteShows(db, rs);
  }

  lemma JoinsExist(db: Db)
    requires Linked(db.runs, db.tasks, db.groups)
    ensures forall g :: g in db.groups ==> db.groups[g].join in db.tasks && db.tasks[db.groups[g].join].run == g.run
  {
    forall g | g in db.groups
      ensures db.groups[g].join in db.tasks && db.tasks[db.groups[g].join].run == g.run
    {
      assert GroupSound(db.tasks, g, db.groups[g]);
      assert TaskSound(db.runs, db.tasks, db.groups, db.groups[g].join);
    }
  }

  lemma OrderlyIsBut(db: Db, rs: set<RunId>)
    requires Orderly(db) && Linked(db.runs, db.tasks, db.groups)
    ensures OrderlyBut(db, rs)
  {
    JoinsExist(db);
    hide Ordered, FailuresShown;
  }
}
