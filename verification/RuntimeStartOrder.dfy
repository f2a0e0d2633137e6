/** Every transaction keeps the start order, and what that means. */
module RuntimeStartOrder {
  import opened Wrappers
  import opened RuntimeState
  import opened PlanRegistry
  import opened RuntimeTransitions
  import opened RuntimeInvariant
  import opened RuntimeUnits
  import opened RuntimeGrowth
  import opened RuntimeSafety
  import opened RuntimeTraces
  import opened RuntimeGuarantees
  import opened RuntimeOrder

  // ---------------------------------------------------------------------------------------------
  // Outcomes and groups
  // ---------------------------------------------------------------------------------------------

  lemma SameMembersReflexive(groups: Groups)
    ensures SameMembers(groups, groups)
  {
  }

  lemma UnreleasedReflexive(tasks: Tasks)
    ensures Unreleased(tasks, tasks)
  {
  }

  /** Tasks stop in a state other than PENDING; runs and groups stay. */
  lemma StopKeepsOrderly(db: Db, next: Db, ps: set<TaskId>, s: TaskState)
    requires Orderly(db) && AllLive(db.tasks, ps) && s !in {PENDING, CANCELLED}
    requires next.tasks == StoppedTasks(db.tasks, ps, s) && next.groups == db.groups && next.runs == db.runs
    ensures Orderly(next)
  {
    hide Orderly, StoppedTasks, Unreleased, AllLive;
    StoppedUnreleased(db.tasks, ps, s);
    UnreleasedKeeps(db, next);
  }

  lemma RunsKeepOrderly(db: Db, next: Db)
    requires Orderly(db) && next == db.(runs := next.runs)
    requires forall r :: r in db.runs ==> r in next.runs && next.runs[r].plan == db.runs[r].plan
    requires forall r ::
        r in next.runs && next.runs[r].state == RUN_FAILED && !(r in db.runs && db.runs[r].state == RUN_FAILED) ==>
            exists t :: t in db.tasks && t.Planned? && t.run == r && db.tasks[t].state == FAILED
    ensures Orderly(next)
  {
    assert forall t :: Joins(next, t) == Joins(db, t);
    hide Joins;
    forall r | r in next.runs && next.runs[r].state == RUN_FAILED
      ensures exists t :: t in next.tasks && t.Planned? && t.run == r && next.tasks[t].state == FAILED
    {
      if r in db.runs && db.runs[r].state == RUN_FAILED {
        var t :| t in db.tasks && t.Planned? && t.run == r && db.tasks[t].state == FAILED;
        assert t in next.tasks;
      }
    }
  }

  lemma CompleteRunKeepsOrderly(db: Db, r: RunId)
    requires Orderly(db)
    ensures Orderly(CompleteRun(db, r))
  {
    hide Orderly, AllSucceeded;
    RunsKeepOrderly(db, CompleteRun(db, r));
  }

  lemma SuccessKeepsOrderly(db: Db, c: Credential, v: Verdict)
    requires Safe(db) && Orderly(db) && HoldsLease(db, c) && AttemptOpen(db, c) && Issued(db, c)
    ensures Orderly(CompleteRun(Promote(Finish(db, c, v, SUCCEEDED), {db.tasks[c.task].run}), db.tasks[c.task].run))
  {
    hide Linked, Leased, Dispatched, Attempted, Counted, RetriesBounded, Honest, Budgeted, Orderly, OrderlyBut, Promote,
      CompleteRun, StoppedTasks, RecordVerdict, Advances;
    var r := db.tasks[c.task].run;
    var finished := Finish(db, c, v, SUCCEEDED);
    FinishKept(db, c, v, SUCCEEDED);
    StopKeepsOrderly(db, finished, {c.task}, SUCCEEDED);
    OrderlyIsBut(finished, {r});
    PromoteKeepsOrderly(finished, {r});
    CompleteRunKeepsOrderly(Promote(finished, {r}), r);
  }

  lemma FailGroupButOne(db: Db, g: GroupId)
    requires Orderly(db) && Linked(db.runs, db.tasks, db.groups)
    ensures OrderlyBut(FailGroup(db, g), {g.run})
  {
    hide Linked, FailuresShown, FailGroup, Ordered, Unreleased;
    JoinsExist(db);
    FailGroupShows(db, g);
    FailedAlone(db, g);
    UnreleasedReflexive(db.tasks);
    UnreleasedOrder(db, FailGroup(db, g));
  }

  lemma FailedAlone(db: Db, g: GroupId)
    ensures SameMembers(db.groups, FailGroup(db, g).groups)
    ensures forall h :: h in db.groups && h != g ==> FailGroup(db, g).groups[h] == db.groups[h]
  {
  }

  lemma FailGroupShows(db: Db, g: GroupId)
    requires FailuresShown(db)
    ensures FailuresShown(FailGroup(db, g))
  {
  }

  lemma ShardGroup(db: Db, t: TaskId)
    requires Linked(db.runs, db.tasks, db.groups) && t in db.tasks
    ensures db.tasks[t].group.Some? <==> t.Shard?
    ensures t.Shard? ==>
        db.tasks[t].group.value == t.groupId && t.groupId in db.groups && db.tasks[t].run == t.groupId.run
        && t in db.groups[t.groupId].members
    ensures t.Planned? ==> db.tasks[t].run == t.run
  {
    assert TaskSound(db.runs, db.tasks, db.groups, t);
  }

  lemma BadShardKeepsOrderly(db: Db, c: Credential, v: Verdict, s: TaskState)
    requires Safe(db) && Orderly(db) && HoldsLease(db, c) && AttemptOpen(db, c) && Issued(db, c)
    requires s in {FAILED, UNKNOWN_OUTCOME} && db.tasks[c.task].group.Some?
    ensures Orderly(FinishBadly(db, c, v, s))
  {
    hide Linked, Leased, Dispatched, Attempted, Counted, RetriesBounded, Honest, Budgeted, Orderly, OrderlyBut, Promote,
      FailGroup, StoppedTasks, RecordVerdict, Advances;
    var finished := Finish(db, c, v, s);
    var g := db.tasks[c.task].group.value;
    ShardGroup(db, c.task);
    FinishKept(db, c, v, s);
    StopKeepsOrderly(db, finished, {c.task}, s);
    FailGroupButOne(finished, g);
    FailGroupKeeps(finished, g);
    PromoteKeepsOrderly(FailGroup(finished, g), {db.tasks[c.task].run});
  }

  lemma BadTaskKeepsOrderly(db: Db, c: Credential, v: Verdict)
    requires Safe(db) && Orderly(db) && HoldsLease(db, c) && AttemptOpen(db, c) && Issued(db, c)
        && db.tasks[c.task].group == None
    ensures Orderly(FinishBadly(db, c, v, FAILED))
  {
    hide Linked, Leased, Dispatched, Attempted, Counted, RetriesBounded, Honest, Budgeted, Orderly, RecordVerdict,
      Advances;
    var finished := Finish(db, c, v, FAILED);
    ShardGroup(db, c.task);
    StopKeepsOrderly(db, finished, {c.task}, FAILED);
    assert finished.tasks[c.task].state == FAILED;
    RunsKeepOrderly(finished, FinishBadly(db, c, v, FAILED));
  }

  lemma OutcomeKeepsOrderly(db: Db, c: Credential, v: Verdict, now: int)
    requires Safe(db) && Orderly(db) && Issued(db, c)
    ensures Orderly(Outcome(db, c, v, now).db)
  {
    hide Safe, Orderly, Issued, Finish, FinishBadly, Retry, CompleteRun, Promote, FailedAttemptsOf;
    if IsGentle(db, DoOutcome(c, v, now)) {
      OutcomeGently(db, c, v, now);
      OutcomeKeeps(db, c, v, now);
      GentleKeepsOrderly(db, Outcome(db, c, v, now).db);
    } else if v.Success? {
      SuccessKeepsOrderly(db, c, v);
    } else if db.tasks[c.task].group.Some? {
      BadShardKeepsOrderly(db, c, v, if v == Unknown then UNKNOWN_OUTCOME else FAILED);
    } else {
      BadTaskKeepsOrderly(db, c, v);
    }
  }

  lemma CompleteFanoutKeepsOrderly(db: Db, g: GroupId)
    requires Orderly(db)
    ensures Orderly(CompleteFanout(db, g).db)
  {
    hide Orderly, Required, Unreleased, SameMembers, SamePlans;
    UnreleasedReflexive(db.tasks);
    SamePlansReflexive(db.runs);
    if CompleteFanout(db, g).answer == Done {
      GroupStateAlone(db.groups, g, GROUP_SUCCEEDED);
      UnreleasedKeeps(db, CompleteFanout(db, g).db);
    }
  }

  lemma SamePlansReflexive(runs: Runs)
    ensures SamePlans(runs, runs)
  {
  }

  lemma GroupStateAlone(groups: Groups, g: GroupId, s: GroupState)
    requires g in groups
    ensures SameMembers(groups, groups[g := groups[g].(state := s)])
  {
  }

  // ---------------------------------------------------------------------------------------------
  // Recovery of leases
  // ---------------------------------------------------------------------------------------------

  lemma RecoveredGently(db: Db, ps: set<TaskId>)
    requires ps <= db.tasks.Keys && AllLive(db.tasks, ps)
    ensures Gentle(db, RecoverTasks(db, ps))
  {
    hide StoppedTasks, ReleasedTasks, WokenTasks, WakeRows, ClosedAttempts, GentleTasks, GentleRuns, AllLive;
    var doubtful := Doubtful(db, ps);
    var stopped := StoppedTasks(db.tasks, doubtful, UNKNOWN_OUTCOME);
    var released := ReleasedTasks(stopped, ps - doubtful);
    PartLive(db.tasks, ps, doubtful);
    StoppedGently(db.tasks, doubtful, UNKNOWN_OUTCOME);
    ReleasedGently(stopped, ps - doubtful);
    GentleTasksTransitive(db.tasks, stopped, released);
    GentleKeepsLive(db.tasks, released, ps - doubtful);
    WokenGently(released, ps - doubtful, 0);
    GentleTasksTransitive(db.tasks, released, WokenTasks(released, ps - doubtful, 0));
    SameRunsGently(db.runs);
    GentleParts(db, RecoverTasks(db, ps));
  }

  lemma PartLive(tasks: Tasks, ps: set<TaskId>, qs: set<TaskId>)
    requires AllLive(tasks, ps) && qs <= ps
    ensures AllLive(tasks, qs) && AllLive(tasks, ps - qs)
  {
  }

  lemma StaleLive(db: Db, now: int)
    ensures AllLive(db.tasks, Stale(db, now)) && AllLive(db.tasks, NotifiedEnough(db))
  {
  }

  lemma FinishNotificationsKeepsOrderly(db: Db)
    requires Orderly(db)
    ensures Orderly(FinishNotifications(db))
  {
    hide Orderly, StoppedTasks, NotifiedEnough, RunsOf, AllSucceeded, Stale, AllLive;
    var stopped := Stop(db, NotifiedEnough(db), SUCCEEDED);
    StaleLive(db, 0);
    StopKeepsOrderly(db, stopped, NotifiedEnough(db), SUCCEEDED);
    RunsKeepOrderly(stopped, FinishNotifications(db));
  }

  lemma RecoverStaleKeepsOrderly(db: Db, now: int)
    requires Safe(db) && Orderly(db)
    ensures Orderly(RecoverStale(db, now).db)
  {
    hide Linked, Leased, Dispatched, Attempted, Counted, RetriesBounded, Honest, Budgeted, Orderly, FinishNotifications,
      RecoverTasks, Promote, FailedFanoutRuns, Gentle, OrderlyBut, AllLive, Advances;
    var notified := FinishNotifications(db);
    FinishNotificationsKeeps(db);
    FinishNotificationsKeepsOrderly(db);
    StaleLive(notified, now);
    RecoverTasksKeeps(notified, Stale(notified, now));
    RecoveredGently(notified, Stale(notified, now));
    var recovered := RecoverTasks(notified, Stale(notified, now));
    GentleKeepsOrderly(notified, recovered);
    OrderlyIsBut(recovered, FailedFanoutRuns(recovered));
    PromoteKeepsOrderly(recovered, FailedFanoutRuns(recovered));
  }

  /** Nothing is left for the third part of the recovery: a failed group has woken its join already. */
  lemma NoJoinLeftAsleep(db: Db)
    requires Orderly(db)
    ensures FailedFanoutRuns(db) == {}
  {
    hide Ordered, FailuresShown;
  }

  // ---------------------------------------------------------------------------------------------
  // New plans and groups
  // ---------------------------------------------------------------------------------------------

  /** How a plan starts: with its roots, or with the first task a recovery cannot reuse. */
  lemma PlanStartsInOrder(r: RunId, plan: seq<PlanTask>, reused: Option<nat>, i: nat, d: TaskId)
    requires UniqueKeys(plan) && InsertableDependencies(plan) && i < |plan|
    requires InitialState(plan, i, reused) != PENDING && d in InitialTask(r, plan, i, reused).dependsOn
    ensures d in PlanTasks(r, plan, reused, |plan|) && PlanTasks(r, plan, reused, |plan|)[d].state == SUCCEEDED
  {
    var key :| key in plan[i].dependencies && d == Planned(r, key);
    var p :| 0 <= p < |plan[i].dependencies| && plan[i].dependencies[p] == key;
    var j :| 0 <= j < i && plan[j].key == plan[i].dependencies[p];
    PlanTaskOf(r, plan, reused, j);
  }

  lemma InsertedPlan(db: Db, r: RunId, plan: seq<PlanTask>, reused: Option<nat>)
    requires UniqueKeys(plan) && PlanTasks(r, plan, reused, |plan|).Keys !! db.tasks.Keys
    ensures var next, rows := InsertPlan(db, r, plan, reused, |plan|), PlanTasks(r, plan, reused, |plan|);
      && next.tasks.Keys == db.tasks.Keys + rows.Keys
      && (forall t :: t in db.tasks ==> next.tasks[t] == db.tasks[t])
      && (forall t :: t in rows ==> next.tasks[t] == rows[t])
  {
    hide PlanTasks, PlanRows;
  }

  lemma InsertPlanOrder(db: Db, r: RunId, plan: seq<PlanTask>, reused: Option<nat>)
    requires Ordered(db) && UniqueKeys(plan) && InsertableDependencies(plan)
        && PlanTasks(r, plan, reused, |plan|).Keys !! db.tasks.Keys
    ensures Ordered(InsertPlan(db, r, plan, reused, |plan|))
  {
    hide InsertPlan, PlanTasks, UniqueKeys, InsertableDependencies, Joins, InitialTask, InitialState;
    var next := InsertPlan(db, r, plan, reused, |plan|);
    InsertedPlan(db, r, plan, reused);
    forall t, d | t in next.tasks && d in next.tasks[t].dependsOn && Begun(t, next.tasks[t]) && !Joins(next, t)
      ensures d in next.tasks && next.tasks[d].state == SUCCEEDED
    {
      if t in db.tasks {
        SameJoins(db, next, t);
        assert d in db.tasks && db.tasks[d].state == SUCCEEDED;
      } else {
        var i := PlanTaskAt(r, plan, reused, t);
        InitialColumns(r, plan, reused, i);
        PlanStartsInOrder(r, plan, reused, i, d);
      }
    }
  }

  lemma InitialColumns(r: RunId, plan: seq<PlanTask>, reused: Option<nat>, i: nat)
    requires i < |plan|
    ensures var x := InitialTask(r, plan, i, reused);
            && x.state == InitialState(plan, i, reused) && x.state in {PENDING, RUNNABLE, SUCCEEDED}
                && x.tool == plan[i].tool && x.run == r
            && x.dependsOn == set d | d in plan[i].dependencies :: Planned(r, d)
  {
  }

  lemma InsertPlanKeepsOrderly(db: Db, r: RunId, x: Run, plan: seq<PlanTask>, reused: Option<nat>)
    requires Linked(db.runs, db.tasks, db.groups) && Orderly(db) && r !in db.runs && UniqueKeys(plan)
        && InsertableDependencies(plan)
    requires x.plan == plan && x.state == ACTIVE
    ensures Orderly(InsertPlan(db.(runs := db.runs[r := x]), r, plan, reused, |plan|))
  {
    hide InsertPlan, PlanTasks, UniqueKeys, InsertableDependencies, Ordered, Linked, InitialTask, InitialState,
      JoinsWoken, FailuresShown;
    var started := db.(runs := db.runs[r := x]);
    var next := InsertPlan(started, r, plan, reused, |plan|);
    NewRunIds(db, r, plan, reused);
    RunsKeepOrderly(db, started);
    InsertPlanOrder(started, r, plan, reused);
    InsertedPlan(started, r, plan, reused);
    WokenStay(started, next);
    forall t | t in next.tasks && t !in db.tasks
      ensures next.tasks[t].state != CANCELLED && t.Planned? && t.run in next.runs
          && t.key in Keys(next.runs[t.run].plan)
    {
      var i := PlanTaskAt(r, plan, reused, t);
      InitialColumns(r, plan, reused, i);
    }
    ShownStay(started, next);
  }

  lemma WokenStay(db: Db, next: Db)
    requires JoinsWoken(db) && next.groups == db.groups
    requires forall t :: t in db.tasks ==> t in next.tasks && next.tasks[t].state == db.tasks[t].state
    ensures JoinsWoken(next)
  {
  }

  lemma ShownStay(db: Db, next: Db)
    requires FailuresShown(db) && next.runs == db.runs
    requires forall t :: t in db.tasks ==> t in next.tasks && next.tasks[t].state == db.tasks[t].state
    requires forall t ::
        t in next.tasks && t !in db.tasks && t.Planned? ==> t.run in next.runs && t.key in Keys(next.runs[t.run].plan)
    ensures FailuresShown(next)
  {
    forall r | r in next.runs && next.runs[r].state == RUN_FAILED
      ensures exists t :: t in next.tasks && t.Planned? && t.run == r && next.tasks[t].state == FAILED
    {
      var t :| t in db.tasks && t.Planned? && t.run == r && db.tasks[t].state == FAILED;
      assert next.tasks[t].state == FAILED;
    }
  }

  lemma CreateRunKeepsOrderly(db: Db, r: RunId, plan: seq<PlanTask>, limit: int, last: Option<RunId>,
      artifacts: set<string>)
    requires Safe(db) && Orderly(db)
    ensures Orderly(CreateRun(db, r, plan, limit, last, artifacts).db)
  {
    hide Linked, Leased, Dispatched, Attempted, Counted, RetriesBounded, Honest, Budgeted, Orderly, InsertPlan,
      ReusedCount, RecoverySource, InsertableDependencies, UniqueKeys;
    if CreateRun(db, r, plan, limit, last, artifacts).answer == Done {
      var source := RecoverySource(db, plan, last);
      var reused := if source.Some? then Some(ReusedCount(db, source.value, plan, artifacts)) else None;
      InsertPlanKeepsOrderly(db, r, Run(ACTIVE, 0, limit, 1, plan), plan, reused);
    }
  }

  /** Widening a join keeps the order, since a join waits for its shards rather than for their success. */
  lemma InsertGroupOrder(db: Db, coordinator: TaskId, join: TaskId, d: Descriptor)
    requires Ordered(db) && join in db.tasks && GroupOf(d) !in db.groups
        && ShardTasks(d, coordinator).Keys !! db.tasks.Keys
    ensures Ordered(InsertGroup(db, coordinator, join, d))
  {
    hide ShardTasks, WidenedJoin, Joins, NewGroup, InsertGroup, ShardIds;
    var next := InsertGroup(db, coordinator, join, d);
    InsertedGroup(db, coordinator, join, d);
    JoinsGrow(db, coordinator, join, d);
    forall t, e | t in next.tasks && e in next.tasks[t].dependsOn && Begun(t, next.tasks[t]) && !Joins(next, t)
      ensures e in next.tasks && next.tasks[e].state == SUCCEEDED
    {
      if t in db.tasks {
        assert e in db.tasks && db.tasks[e].state == SUCCEEDED;
      } else {
        ShardTaskAt(d, coordinator, t);
      }
    }
  }

  lemma JoinsGrow(db: Db, coordinator: TaskId, join: TaskId, d: Descriptor)
    requires join in db.tasks && GroupOf(d) !in db.groups
    ensures Joins(InsertGroup(db, coordinator, join, d), join)
    ensures forall t :: Joins(db, t) ==> Joins(InsertGroup(db, coordinator, join, d), t)
  {
    hide ShardTasks, WidenedJoin;
    var next := InsertGroup(db, coordinator, join, d);
    assert next.groups[GroupOf(d)].join == join;
    forall t | Joins(db, t)
      ensures Joins(next, t)
    {
      var g :| g in db.groups && db.groups[g].join == t;
      assert next.groups[g].join == t;
    }
  }

  lemma InsertedGroup(db: Db, coordinator: TaskId, join: TaskId, d: Descriptor)
    requires join in db.tasks && ShardTasks(d, coordinator).Keys !! db.tasks.Keys
    ensures var next, shards := InsertGroup(db, coordinator, join, d), ShardTasks(d, coordinator);
      && next.tasks.Keys == db.tasks.Keys + shards.Keys
      && next.groups == db.groups[GroupOf(d) := NewGroup(d, join)]
      && (forall t :: t in db.tasks ==> next.tasks[t] == db.tasks[t].(dependsOn := next.tasks[t].dependsOn))
      && (forall t :: t in db.tasks && t != join ==> next.tasks[t] == db.tasks[t])
      && next.tasks[join].dependsOn == db.tasks[join].dependsOn + shards.Keys
      && (forall t :: t in shards ==> next.tasks[t] == shards[t])
  {
    hide ShardTasks, NewGroup, ShardIds, ShardTask;
    ShardRuns(d, coordinator);
  }

  lemma InsertGroupKeepsOrderly(db: Db, coordinator: TaskId, join: TaskId, d: Descriptor)
    requires Linked(db.runs, db.tasks, db.groups) && Orderly(db) && join in db.tasks && GroupOf(d) !in db.groups
    ensures Orderly(InsertGroup(db, coordinator, join, d))
  {
    hide Ordered, Linked, ShardTasks, WidenedJoin, InsertGroup, FailuresShown, ShardTask, JoinsWoken, NewGroup;
    var next := InsertGroup(db, coordinator, join, d);
    FreshShards(db, d, coordinator);
    InsertGroupOrder(db, coordinator, join, d);
    InsertedGroup(db, coordinator, join, d);
    forall t | t in next.tasks && t !in db.tasks
      ensures t.Shard? && next.tasks[t].state != CANCELLED
    {
      ShardTaskAt(d, coordinator, t);
      ShardColumns(d, coordinator, t.identity);
    }
    ShownStay(db, next);
    NewGroupWaits(db, next, d, join);
  }

  lemma NewGroupWaits(db: Db, next: Db, d: Descriptor, join: TaskId)
    requires JoinsWoken(db) && next.groups == db.groups[GroupOf(d) := NewGroup(d, join)]
    requires forall t :: t in db.tasks ==> t in next.tasks && next.tasks[t].state == db.tasks[t].state
    ensures JoinsWoken(next)
  {
    hide Members;
  }

  lemma ShardColumns(d: Descriptor, coordinator: TaskId, i: string)
    requires i in d.shards
    ensures var x := ShardTask(d, coordinator, i);
            && x.state in {PENDING, SUCCEEDED} && x.leaseToken == 0 && x.tool == d.shards[i].tool && x.run == d.run
            && x.dependsOn == {coordinator} + set e | e in d.shards[i].dependsOn :: Shard(GroupOf(d), e)
  {
  }

  lemma MaterializeKeepsOrderly(db: Db, coordinator: TaskId, join: TaskId, d: Descriptor)
    requires Safe(db) && Orderly(db)
    ensures Orderly(MaterializeFanout(db, coordinator, join, d).db)
  {
    hide Linked, Leased, Dispatched, Attempted, Counted, RetriesBounded, Honest, Budgeted, Orderly, InsertGroup,
      ShardsInsertable;
    if MaterializeFanout(db, coordinator, join, d).db != db {
      assert GroupOf(d) !in db.groups;
      InsertGroupKeepsOrderly(db, coordinator, join, d);
    }
  }

  lemma ResolveKeepsOrderly(db: Db, e: EscalationId, successor: Option<RunId>)
    requires Orderly(db)
    ensures Orderly(ResolveEscalation(db, e, successor).db)
  {
    hide Orderly, ResolveEscalation;
    var next := ResolveEscalation(db, e, successor).db;
    ResolveEscalationFrame(db, e, successor);
    ResolvedRows(db, e, successor);
    EscalationsKeepOrderly(db, db.(escalations := next.escalations));
    RunsKeepOrderly(db.(escalations := next.escalations), next);
  }

  lemma EscalationsKeepOrderly(db: Db, next: Db)
    requires Orderly(db) && next == db.(escalations := next.escalations)
    ensures Orderly(next)
  {
    assert forall t :: Joins(next, t) == Joins(db, t);
    hide Joins;
  }

  // ---------------------------------------------------------------------------------------------
  // Steps and runs
  // ---------------------------------------------------------------------------------------------

  lemma StepKeepsOrderly(db: Db, s: Step)
    requires Safe(db) && Orderly(db) && Quoted(db, s)
    ensures Orderly(Next(db, s))
  {
    hide Safe, Orderly, Issued, Gentle, CreateRun, MaterializeFanout, CompleteFanout, Claim, ClaimById, Heartbeat,
      WaitForHuman, ResumeRun, ResolveEscalation, Defer, Outcome, RecoverStale, ClaimDispatchBatch, ConfirmDispatch,
      FailDispatch, DeferPublishedDispatch, Reconcile, Promote, Advances;
    if s.DoOutcome? {
      OutcomeKeepsOrderly(db, s.c, s.v, s.now);
    } else if IsGentle(db, s) {
      StepKeepsSafe(db, s);
      GentleStep(db, s);
      GentleKeepsOrderly(db, Next(db, s));
    } else {
      match s
      case DoCreateRun(r, plan, limit, last, artifacts) => CreateRunKeepsOrderly(db, r, plan, limit, last, artifacts);
      case DoPromote(r) => PromotedOrderly(db, r);
      case DoMaterialize(coordinator, join, d) => MaterializeKeepsOrderly(db, coordinator, join, d);
      case DoCompleteFanout(g) => CompleteFanoutKeepsOrderly(db, g);
      case DoResolveEscalation(e, successor) => ResolveKeepsOrderly(db, e, successor);
      case DoRecoverStale(now) => RecoverStaleKeepsOrderly(db, now);
    }
  }

  lemma PromotedOrderly(db: Db, r: RunId)
    requires Safe(db) && Orderly(db)
    ensures Orderly(Promote(db, {r}))
  {
    hide Linked, Leased, Dispatched, Attempted, Counted, RetriesBounded, Honest, Budgeted, Orderly, OrderlyBut, Promote;
    OrderlyIsBut(db, {r});
    PromoteKeepsOrderly(db, {r});
  }

  lemma {:induction false} EveryRunIsOrderly(trace: Trace, i: nat)
    requires IsTrace(trace) && i < |trace.states|
    ensures Orderly(trace.states[i])
    decreases i
  {
    hide Safe, Quoted, Next, Ordered, JoinsWoken, FailuresShown;
    if i == 0 {
      EmptyIsOrderly();
    } else {
      EveryRunIsOrderly(trace, i - 1);
      TraceIsSafe(trace, i - 1);
      StepKeepsOrderly(trace.states[i - 1], trace.steps[i - 1]);
    }
  }

  lemma EmptyIsOrderly()
    ensures Orderly(EMPTY)
  {
  }

  // ---------------------------------------------------------------------------------------------
  // What the order means
  // ---------------------------------------------------------------------------------------------

  /** An attempt is created only for a RUNNABLE task of an ACTIVE run with budget left, none of whose
      dependencies holds it back: they have all succeeded, unless the task joins a group, when they need
      only be terminal, or not even that once the group has failed. */
  lemma {:induction false} AttemptsStartInOrder(trace: Trace, i: nat, a: AttemptId)
    requires IsTrace(trace) && i + 1 < |trace.states| && a in trace.states[i + 1].attempts
        && a !in trace.states[i].attempts
    ensures var db, t := trace.states[i], trace.states[i + 1].attempts[a].task;
      && t in db.tasks && db.tasks[t].state == RUNNABLE && RunIs(db, db.tasks[t].run, ACTIVE)
          && BudgetLeft(db, db.tasks[t].run)
      && trace.states[i + 1].attempts[a].claimedVersion == db.tasks[t].revision
      && (trace.steps[i].DoClaim? || trace.steps[i].DoClaimById?) && db.tasks[t].availableAt <= trace.steps[i].now
      && (forall d :: d in db.tasks[t].dependsOn ==>
            && d in db.tasks
            && (JoinsFailedGroup(db, t) || (if Joins(db, t) then Terminal(db.tasks[d].state)
                else db.tasks[d].state == SUCCEEDED)))
  {
    hide Safe, Startable, Next, Joins, JoinsFailedGroup;
    TraceIsSafe(trace, i);
    var s := trace.steps[i];
    if !IsClaim(s) {
      OnlyClaimsStart(trace.states[i], s);
    } else {
      ClaimedTask(trace.states[i], s, a);
      StartableInOrder(trace.states[i], s.t, s.now);
    }
  }

  lemma ClaimedTask(db: Db, s: Step, a: AttemptId)
    requires IsClaim(s) && a in Next(db, s).attempts && a !in db.attempts
    ensures Startable(db, s.t, s.now) && Next(db, s).attempts[a].task == s.t
        && Next(db, s).attempts[a].claimedVersion == db.tasks[s.t].revision
  {
    hide Eligible, StartGroup, RunFull, PoolFull, DependencyBlocked;
  }

  lemma StartableInOrder(db: Db, t: TaskId, now: int)
    requires Safe(db) && Startable(db, t, now)
    ensures t in db.tasks && db.tasks[t].state == RUNNABLE && RunIs(db, db.tasks[t].run, ACTIVE)
        && BudgetLeft(db, db.tasks[t].run) && db.tasks[t].availableAt <= now
    ensures forall d :: d in db.tasks[t].dependsOn ==>
              && d in db.tasks
              && (JoinsFailedGroup(db, t) || (if Joins(db, t) then Terminal(db.tasks[d].state)
                  else db.tasks[d].state == SUCCEEDED))
  {
    hide Leased, Dispatched, Attempted, Counted, RetriesBounded, Honest, Budgeted, Joins, JoinsFailedGroup, Linked;
    LinkedTask(db, t);
    forall d | d in db.tasks[t].dependsOn
      ensures !Blocks(db, t, d)
    {
    }
  }

  /** In every reachable database the dependencies of a task that has begun have succeeded, unless it
      joins a group; a failed group's join has been woken; a failed run shows a failed task of its plan. */
  lemma {:induction false} StartOrderHolds(trace: Trace, i: nat)
    requires IsTrace(trace) && i < |trace.states|
    ensures Ordered(trace.states[i]) && JoinsWoken(trace.states[i]) && FailuresShown(trace.states[i])
    ensures FailedFanoutRuns(trace.states[i]) == {}
  {
    hide Ordered, JoinsWoken, FailuresShown, IsTrace, FailedFanoutRuns;
    EveryRunIsOrderly(trace, i);
    NoJoinLeftAsleep(trace.states[i]);
  }

  /** Only a join can be dispatched before its dependencies are ready. */
  lemma OnlyJoinsAreDeferredForDependencies(db: Db, t: TaskId, version: nat, route: RoutingClass, worker: Worker,
      now: int, leaseMs: int, limits: Limits, a: AttemptId)
    requires Ordered(db) && ClaimById(db, t, version, route, worker, now, leaseMs, limits, a).answer ==
        Refused(RABBIT_DEPENDENCY_NOT_READY)
    ensures Joins(db, t)
  {
    hide Joins, JoinsFailedGroup, RunFull, PoolFull, StartAttempt, StartGroup, Startable;
    assert Begun(t, db.tasks[t]);
    var d :| d in db.tasks[t].dependsOn && d in db.tasks && Blocks(db, t, d);
  }

  lemma {:induction false} ReusedPrefix(db: Db, source: RunId, plan: seq<PlanTask>, artifacts: set<string>)
    ensures forall i ::
        0 <= i < ReusedCount(db, source, plan, artifacts) ==> ReusableTask(db, source, plan[i].key, artifacts)
    ensures ReusedCount(db, source, plan, artifacts) < |plan| ==>
              !ReusableTask(db, source, plan[ReusedCount(db, source, plan, artifacts)].key, artifacts)
  {
    if plan != [] && ReusableTask(db, source, plan[0].key, artifacts) {
      ReusedPrefix(db, source, plan[1..], artifacts);
      assert forall i :: 1 <= i < |plan| ==> plan[i] == plan[1..][i - 1];
    }
  }

  /** A failed run has a task of the plan that cannot be reused. */
  lemma PrefixIsProper(db: Db, source: RunId, plan: seq<PlanTask>, artifacts: set<string>)
    requires FailuresShown(db) && RunIs(db, source, RUN_FAILED) && db.runs[source].plan == plan
    ensures ReusedCount(db, source, plan, artifacts) < |plan|
  {
    var t :| t in db.tasks && t.Planned? && t.run == source && db.tasks[t].state == FAILED;
    var i :| 0 <= i < |plan| && plan[i].key == t.key;
    ReusedPrefix(db, source, plan, artifacts);
  }

  /** A recovery run takes over a proper, dependency-closed prefix of the plan, makes exactly the next
      task RUNNABLE, with its dispatch row, and leaves the rest PENDING. */
  lemma {:induction false} RecoveryStartsAtBoundary(trace: Trace, t: nat, r: RunId, plan: seq<PlanTask>, limit: int,
      last: Option<RunId>, artifacts: set<string>) returns (n: nat)
    requires IsTrace(trace) && t + 1 < |trace.states|
        && CreateRun(trace.states[t], r, plan, limit, last, artifacts) == Commit(trace.states[t + 1], Done)
    requires RecoverySource(trace.states[t], plan, last).Some?
    ensures n < |plan|
    ensures var next := trace.states[t + 1];
      && (forall i :: 0 <= i < |plan| ==>
            && Planned(r, plan[i].key) in next.tasks
            && next.tasks[Planned(r, plan[i].key)].state == if i < n then SUCCEEDED
                else if i == n then RUNNABLE else PENDING)
      && DispatchKey(Planned(r, plan[n].key), 1) in next.dispatches
    ensures forall i :: 0 <= i < n ==> ReusableTask(trace.states[t], last.value, plan[i].key, artifacts)
    ensures !ReusableTask(trace.states[t], last.value, plan[n].key, artifacts)
    ensures forall i, key :: 0 <= i <= n && key in plan[i].dependencies ==> exists j :: 0 <= j < n && plan[j].key == key
  {
    hide IsTrace, Safe, Ordered, JoinsWoken, FailuresShown, PlanTasks, PlanRows, InsertPlan, ReusedCount, UniqueKeys,
      InsertableDependencies;
    var db := trace.states[t];
    TraceIsSafe(trace, t);
    EveryRunIsOrderly(trace, t);
    n := ReusedCount(db, last.value, plan, artifacts);
    PrefixIsProper(db, last.value, plan, artifacts);
    ReusedPrefix(db, last.value, plan, artifacts);
    forall i | 0 <= i < |plan|
      ensures var next := trace.states[t + 1];
        && Planned(r, plan[i].key) in next.tasks
        && next.tasks[Planned(r, plan[i].key)].state == if i < n then SUCCEEDED
            else if i == n then RUNNABLE else PENDING
    {
      CreatedTask(db, r, plan, limit, last, artifacts, i);
    }
    CreatedTask(db, r, plan, limit, last, artifacts, n);
    forall i, key | 0 <= i <= n && key in plan[i].dependencies
      ensures exists j :: 0 <= j < n && plan[j].key == key
    {
      ListedBefore(plan, i, key);
    }
  }

  lemma ListedBefore(plan: seq<PlanTask>, i: nat, key: string)
    requires InsertableDependencies(plan) && i < |plan| && key in plan[i].dependencies
    ensures exists j :: 0 <= j < i && plan[j].key == key
  {
    var p :| 0 <= p < |plan[i].dependencies| && plan[i].dependencies[p] == key;
  }

  lemma CreatedTask(db: Db, r: RunId, plan: seq<PlanTask>, limit: int, last: Option<RunId>, artifacts: set<string>,
      i: nat)
    requires Safe(db) && CreateRun(db, r, plan, limit, last, artifacts).answer == Done && i < |plan|
    ensures var next, source := CreateRun(db, r, plan, limit, last, artifacts).db, RecoverySource(db, plan, last);
      var reused := if source.Some? then Some(ReusedCount(db, source.value, plan, artifacts)) else None;
      && Planned(r, plan[i].key) in next.tasks
      && next.tasks[Planned(r, plan[i].key)] == InitialTask(r, plan, i, reused)
      && (InitialState(plan, i, reused) == RUNNABLE ==> DispatchKey(Planned(r, plan[i].key), 1) in next.dispatches)
  {
    hide Linked, Leased, Dispatched, Attempted, Counted, RetriesBounded, Honest, Budgeted, PlanTasks, PlanRows,
      ReusedCount, RecoverySource, InsertableDependencies;
    var source := RecoverySource(db, plan, last);
    var reused := if source.Some? then Some(ReusedCount(db, source.value, plan, artifacts)) else None;
    NewRunIds(db, r, plan, reused);
    PlanTaskOf(r, plan, reused, i);
    PlanRowsAre(r, plan, reused);
  }

  // ---------------------------------------------------------------------------------------------
  // Dependencies are added only before the start
  // ---------------------------------------------------------------------------------------------

  /** Same dependencies for every task that was there before. */
  ghost predicate SameEdges(a: Tasks, b: Tasks) {
    forall t :: t in a ==> t in b && b[t].dependsOn == a[t].dependsOn
  }

  lemma PromoteSameEdges(a: Tasks, db: Db, rs: set<RunId>)
    requires SameEdges(a, db.tasks)
    ensures SameEdges(a, Promote(db, rs).tasks)
  {
    hide Promote, Eligible;
    PromotedIds(db, rs);
    forall t | t in a
      ensures Promote(db, rs).tasks[t].dependsOn == a[t].dependsOn
    {
      PromotedTask(db, rs, t);
    }
  }

  lemma OutcomeSameEdges(db: Db, c: Credential, v: Verdict, now: int)
    requires !IsGentle(db, DoOutcome(c, v, now))
    ensures SameEdges(db.tasks, Outcome(db, c, v, now).db.tasks)
  {
    hide Promote, FailGroup, CompleteRun, SetRunState, RecordVerdict, FailedAttemptsOf, SameEdges, StoppedTasks;
    StoppedSameEdges(db.tasks, {c.task}, SUCCEEDED);
    StoppedSameEdges(db.tasks, {c.task}, FAILED);
    StoppedSameEdges(db.tasks, {c.task}, UNKNOWN_OUTCOME);
    var r := {db.tasks[c.task].run};
    PromoteSameEdges(db.tasks, Finish(db, c, v, SUCCEEDED), r);
    if db.tasks[c.task].group.Some? {
      PromoteSameEdges(db.tasks, FailGroup(Finish(db, c, v, FAILED), db.tasks[c.task].group.value), r);
      PromoteSameEdges(db.tasks, FailGroup(Finish(db, c, v, UNKNOWN_OUTCOME), db.tasks[c.task].group.value), r);
    }
  }

  lemma StoppedSameEdges(tasks: Tasks, ps: set<TaskId>, s: TaskState)
    ensures SameEdges(tasks, StoppedTasks(tasks, ps, s))
  {
  }

  lemma GentleSameEdges(a: Tasks, db: Db, next: Db)
    requires SameEdges(a, db.tasks) && Gentle(db, next)
    ensures SameEdges(a, next.tasks)
  {
    assert forall t :: t in db.tasks ==> GentleTask(db.tasks[t], next.tasks[t]);
  }

  lemma RecoverStaleSameEdges(db: Db, now: int)
    ensures SameEdges(db.tasks, RecoverStale(db, now).db.tasks)
  {
    hide RecoverTasks, Promote, FailedFanoutRuns, Gentle, SameEdges, CompleteRuns, StoppedTasks, Stale, NotifiedEnough,
      AllLive;
    StoppedSameEdges(db.tasks, NotifiedEnough(db), SUCCEEDED);
    var notified := FinishNotifications(db);
    StaleExist(notified, now);
    var recovered := RecoverTasks(notified, Stale(notified, now));
    StaleLive(notified, now);
    RecoveredGently(notified, Stale(notified, now));
    GentleSameEdges(db.tasks, notified, recovered);
    PromoteSameEdges(db.tasks, recovered, FailedFanoutRuns(recovered));
  }

  /** The only dependencies ever added are those of a join on its shards, and only before it runs. */
  lemma {:induction false} EdgesOnlyBeforeStart(trace: Trace, i: nat, t: TaskId)
    requires IsTrace(trace) && i + 1 < |trace.states| && t in trace.states[i].tasks
    ensures t in trace.states[i + 1].tasks
        && trace.states[i].tasks[t].dependsOn <= trace.states[i + 1].tasks[t].dependsOn
    ensures trace.states[i + 1].tasks[t].dependsOn != trace.states[i].tasks[t].dependsOn ==>
              trace.states[i].tasks[t].state in {PENDING, RUNNABLE} && Joins(trace.states[i + 1], t)
  {
    hide Safe, Next, Joins;
    TraceIsSafe(trace, i);
    StepAddsEdgesBeforeStart(trace.states[i], trace.steps[i], t);
  }

  lemma StepAddsEdgesBeforeStart(db: Db, s: Step, t: TaskId)
    requires Safe(db) && t in db.tasks
    ensures t in Next(db, s).tasks
    ensures Next(db, s).tasks[t].dependsOn != db.tasks[t].dependsOn ==>
        db.tasks[t].state in {PENDING, RUNNABLE} && Joins(Next(db, s), t)
    ensures db.tasks[t].dependsOn <= Next(db, s).tasks[t].dependsOn
  {
    hide Linked, Leased, Dispatched, Attempted, Counted, RetriesBounded, Honest, Budgeted, Gentle, CreateRun,
      MaterializeFanout, CompleteFanout, Claim, ClaimById, Heartbeat, WaitForHuman, Joins, ResumeRun, ResolveEscalation,
      Defer, Outcome, RecoverStale, ClaimDispatchBatch, ConfirmDispatch, FailDispatch, DeferPublishedDispatch,
      Reconcile, Promote, Retried, HoldsLease, AttemptOpen;
    assert SameEdges(db.tasks, db.tasks);
    if IsGentle(db, s) {
      GentleStep(db, s);
      GentleSameEdges(db.tasks, db, Next(db, s));
    } else {
      match s
      case DoOutcome(c, v, now) => OutcomeSameEdges(db, c, v, now);
      case DoCreateRun(q, plan, limit, last, artifacts) => CreateRunSameTasks(db, q, plan, limit, last, artifacts, t);
      case DoPromote(q) => PromoteSameEdges(db.tasks, db, {q});
      case DoMaterialize(coordinator, join, d) => MaterializeEdges(db, coordinator, join, d, t);
      case DoCompleteFanout(g) => CompleteFanoutFrame(db, g);
      case DoResolveEscalation(e, successor) => ResolveEscalationFrame(db, e, successor);
      case DoRecoverStale(now) => RecoverStaleSameEdges(db, now);
    }
  }

  lemma CreateRunSameTasks(db: Db, r: RunId, plan: seq<PlanTask>, limit: int, last: Option<RunId>,
      artifacts: set<string>, t: TaskId)
    requires Linked(db.runs, db.tasks, db.groups) && t in db.tasks
    ensures t in CreateRun(db, r, plan, limit, last, artifacts).db.tasks
        && CreateRun(db, r, plan, limit, last, artifacts).db.tasks[t] == db.tasks[t]
  {
    hide Linked, InsertPlan, PlanTasks, ReusedCount, RecoverySource, InsertableDependencies;
    if CreateRun(db, r, plan, limit, last, artifacts).answer == Done {
      var source := RecoverySource(db, plan, last);
      var reused := if source.Some? then Some(ReusedCount(db, source.value, plan, artifacts)) else None;
      NewRunIds(db, r, plan, reused);
      InsertedPlan(db.(runs := db.runs[r := Run(ACTIVE, 0, limit, 1, plan)]), r, plan, reused);
    }
  }

  lemma MaterializeEdges(db: Db, coordinator: TaskId, join: TaskId, d: Descriptor, t: TaskId)
    requires Linked(db.runs, db.tasks, db.groups) && t in db.tasks
    ensures var next := MaterializeFanout(db, coordinator, join, d).db;
            && t in next.tasks && db.tasks[t].dependsOn <= next.tasks[t].dependsOn
            && (next.tasks[t].dependsOn != db.tasks[t].dependsOn ==>
                db.tasks[t].state in {PENDING, RUNNABLE} && Joins(next, t))
  {
    hide Linked, InsertGroup, ShardTasks, ShardsInsertable, NewGroup, Joins;
    if MaterializeFanout(db, coordinator, join, d).db != db {
      assert GroupOf(d) !in db.groups;
      FreshShards(db, d, coordinator);
      InsertedGroup(db, coordinator, join, d);
      NewGroupJoins(MaterializeFanout(db, coordinator, join, d).db, db.groups, join, d);
    }
  }

  lemma NewGroupJoins(next: Db, groups: Groups, join: TaskId, d: Descriptor)
    requires next.groups == groups[GroupOf(d) := NewGroup(d, join)]
    ensures Joins(next, join)
  {
    assert next.groups[GroupOf(d)].join == join;
  }
}
