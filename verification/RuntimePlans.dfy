/** What a new run or group looks like. */
module RuntimePlans {
  import opened Wrappers
  import opened RuntimeState
  import opened PlanRegistry
  import opened RuntimeTransitions
  import opened RuntimeInvariant
  import opened RuntimeTraces
  import opened RuntimeGrowth
  import opened RuntimeStartOrder
  import opened RuntimeLoops
  import opened RuntimeRows

  // ---------------------------------------------------------------------------------------------
  // Runs
  // ---------------------------------------------------------------------------------------------

  /** The goal's last run failed under the same plan, so that the new one recovers it. */
  predicate Recovering(db: Db, plan: seq<PlanTask>, last: Option<RunId>) {
    && last.Some? && last.value in db.runs && db.runs[last.value].state == RUN_FAILED
    && db.runs[last.value].plan == plan
  }

  /** The first `n` tasks of the plan have succeeded in the run and have left what the next run needs. */
  predicate TakenOver(db: Db, source: RunId, plan: seq<PlanTask>, artifacts: set<string>, n: nat)
    requires n <= |plan|
  {
    forall j :: 0 <= j < n ==>
      && Planned(source, plan[j].key) in db.tasks && db.tasks[Planned(source, plan[j].key)].state == SUCCEEDED
      && plan[j].key in artifacts
  }

  /** A first run starts with its roots. A recovery takes over what it can from the front of the plan, and starts with
      the next task. */
  function StartsIn(db: Db, plan: seq<PlanTask>, last: Option<RunId>, artifacts: set<string>, i: nat): TaskState
    requires i < |plan|
  {
    if !Recovering(db, plan, last) then if plan[i].dependencies == [] then RUNNABLE else PENDING
    else if TakenOver(db, last.value, plan, artifacts, i + 1) then SUCCEEDED
    else if TakenOver(db, last.value, plan, artifacts, i) then RUNNABLE
    else PENDING
  }

  function PlanRow(r: RunId, task: PlanTask, s: TaskState): Task {
    Task(r, task.tool, s, 1, 0, None, 0, None, task.tool.routingClass, 0, None,
      set key | key in task.dependencies :: Planned(r, key), 0)
  }

  predicate IsNewRow(d: Dispatch, route: RoutingClass) {
    d == Dispatch(DISPATCH_PENDING, route, 0, None, None, 0, None)
  }

  /** One new task for each task of the plan. */
  ghost predicate InsertsTasks(db: Db, next: Tasks, r: RunId, plan: seq<PlanTask>, last: Option<RunId>,
      artifacts: set<string>)
  {
    && (forall t :: t in db.tasks ==> t in next && next[t] == db.tasks[t])
    && (forall t :: t in next && t !in db.tasks ==> exists i :: 0 <= i < |plan| && t == Planned(r, plan[i].key))
    && (forall i: nat :: i < |plan| ==>
          && Planned(r, plan[i].key) !in db.tasks && Planned(r, plan[i].key) in next
          && next[Planned(r, plan[i].key)] == PlanRow(r, plan[i], StartsIn(db, plan, last, artifacts, i)))
  }

  /** One new row, to be published at once, for each new task that is RUNNABLE. */
  ghost predicate InsertsRows(db: Db, next: Db) {
    && (forall k :: k in db.dispatches ==> k in next.dispatches && next.dispatches[k] == db.dispatches[k])
    && (forall k :: k in next.dispatches && k !in db.dispatches <==>
          k.version == 1 && k.task in next.tasks && k.task !in db.tasks && next.tasks[k.task].state == RUNNABLE)
    && (forall k :: k in next.dispatches && k !in db.dispatches ==>
          k.task in next.tasks && IsNewRow(next.dispatches[k], next.tasks[k.task].tool.routingClass))
  }

  /** The new run, and nothing else, is new. */
  ghost predicate Inserts(db: Db, next: Db, r: RunId, plan: seq<PlanTask>, limit: int, last: Option<RunId>,
      artifacts: set<string>)
  {
    && next.runs == db.runs[r := Run(ACTIVE, 0, limit, 1, plan)]
    && InsertsTasks(db, next.tasks, r, plan, last, artifacts) && InsertsRows(db, next)
    && next == db.(runs := next.runs, tasks := next.tasks, dispatches := next.dispatches)
  }

  /** A run is created once, from a valid plan with a positive budget whose tasks name earlier ones, each once. */
  lemma {:induction false} CreateExactly(trace: Trace, i: nat, r: RunId, plan: seq<PlanTask>, limit: int,
      last: Option<RunId>, artifacts: set<string>)
    requires IsTrace(trace) && i < |trace.states|
    ensures var db, commit := trace.states[i], CreateRun(trace.states[i], r, plan, limit, last, artifacts);
      if r in db.runs then commit == Commit(db, Null)
      else if !ValidPlan(plan) then commit == Commit(db, Refused(PLAN_REJECTED))
      else if limit <= 0 || exists n, p :: 0 <= n < |plan| && 0 <= p < |plan[n].dependencies| && !Insertable(plan, n, p)
      then commit == Commit(db, Refused(CONSTRAINT_VIOLATED))
      else commit.answer == Done && Inserts(db, commit.db, r, plan, limit, last, artifacts)
  {
    hide Safe, InsertPlan, ValidPlan, Inserts;
    TraceIsSafe(trace, i);
    var db := trace.states[i];
    InsertableAlike(plan);
    if r !in db.runs && ValidPlan(plan) && limit > 0 && InsertableDependencies(plan) {
      ValidKeys(plan);
      InsertedExactly(db, r, plan, limit, last, artifacts);
    }
  }

  /** The dependency names an earlier task, for the first time. */
  predicate Insertable(plan: seq<PlanTask>, n: nat, p: nat)
    requires n < |plan| && p < |plan[n].dependencies|
  {
    && (exists m :: 0 <= m < n && plan[m].key == plan[n].dependencies[p])
    && forall q :: 0 <= q < p ==> plan[n].dependencies[q] != plan[n].dependencies[p]
  }

  lemma InsertableAlike(plan: seq<PlanTask>)
    ensures InsertableDependencies(plan) <==>
              forall n, p :: 0 <= n < |plan| && 0 <= p < |plan[n].dependencies| ==> Insertable(plan, n, p)
  {
    forall n, p | 0 <= n < |plan| && 0 <= p < |plan[n].dependencies|
      ensures Insertable(plan, n, p) <==> IsInsertable(plan, n, p)
    {
      assert forall q :: 0 <= q < p ==> plan[n].dependencies[..p][q] == plan[n].dependencies[q];
    }
    if forall n, p :: 0 <= n < |plan| && 0 <= p < |plan[n].dependencies| ==> Insertable(plan, n, p) {
      forall n, p | 0 <= n < |plan| && 0 <= p < |plan[n].dependencies|
        ensures (exists m :: 0 <= m < n && plan[m].key == plan[n].dependencies[p])
            && plan[n].dependencies[p] !in plan[n].dependencies[..p]
      {
        assert Insertable(plan, n, p) && IsInsertable(plan, n, p);
      }
    }
  }

  predicate IsInsertable(plan: seq<PlanTask>, n: nat, p: nat)
    requires n < |plan| && p < |plan[n].dependencies|
  {
    && (exists m :: 0 <= m < n && plan[m].key == plan[n].dependencies[p])
    && plan[n].dependencies[p] !in plan[n].dependencies[..p]
  }

  lemma ValidKeys(plan: seq<PlanTask>)
    requires ValidPlan(plan)
    ensures UniqueKeys(plan)
  {
  }

  lemma InsertedExactly(db: Db, r: RunId, plan: seq<PlanTask>, limit: int, last: Option<RunId>, artifacts: set<string>)
    requires Safe(db) && r !in db.runs && UniqueKeys(plan)
    ensures var source := RecoverySource(db, plan, last);
      var reused := if source.Some? then Some(ReusedCount(db, source.value, plan, artifacts)) else None;
      Inserts(db, InsertPlan(db.(runs := db.runs[r := Run(ACTIVE, 0, limit, 1, plan)]), r, plan, reused, |plan|), r,
          plan,
        limit, last, artifacts)
  {
    hide Safe, PlanTasks, PlanRows, UniqueKeys, ReusedCount, RecoverySource, InsertsTasks, InsertsRows;
    var source := RecoverySource(db, plan, last);
    var reused := if source.Some? then Some(ReusedCount(db, source.value, plan, artifacts)) else None;
    SafeRows(db);
    NewRunIds(db, r, plan, reused);
    var tasks, rows := PlanTasks(r, plan, reused, |plan|), PlanRows(r, plan, reused, |plan|);
    PlanTasksAre(db, r, plan, last, artifacts);
    TasksInserted(db, tasks, r, plan, last, artifacts);
    PlanRowsAre(r, plan, reused);
    NoRowsYet(db, tasks);
    RowsInserted(db, InsertPlan(db.(runs := db.runs[r := Run(ACTIVE, 0, limit, 1, plan)]), r, plan, reused, |plan|),
        tasks,
      rows);
  }

  lemma TasksInserted(db: Db, tasks: Tasks, r: RunId, plan: seq<PlanTask>, last: Option<RunId>, artifacts: set<string>)
    requires tasks.Keys !! db.tasks.Keys && ArePlanTasks(db, tasks, r, plan, last, artifacts)
    ensures InsertsTasks(db, db.tasks + tasks, r, plan, last, artifacts)
  {
    hide PlanRow, StartsIn;
  }

  lemma RowsInserted(db: Db, next: Db, tasks: Tasks, rows: Dispatches)
    requires tasks.Keys !! db.tasks.Keys && forall k :: k in db.dispatches ==> k.task !in tasks
    requires forall k :: k in rows <==> k.version == 1 && k.task in tasks && tasks[k.task].state == RUNNABLE
    requires forall k :: k in rows ==> IsNewRow(rows[k], tasks[k.task].tool.routingClass)
    requires next.tasks == db.tasks + tasks && next.dispatches == rows + db.dispatches
    ensures InsertsRows(db, next)
  {
    hide IsNewRow;
  }

  lemma PlanRowsAre(r: RunId, plan: seq<PlanTask>, reused: Option<nat>)
    requires UniqueKeys(plan)
    ensures var tasks, rows := PlanTasks(r, plan, reused, |plan|), PlanRows(r, plan, reused, |plan|);
      && (forall k :: k in rows <==> k.version == 1 && k.task in tasks && tasks[k.task].state == RUNNABLE)
      && (forall k :: k in rows ==> IsNewRow(rows[k], tasks[k.task].tool.routingClass))
  {
    PlanRowsExactly(r, plan, reused, |plan|);
  }

  ghost predicate ArePlanTasks(db: Db, tasks: Tasks, r: RunId, plan: seq<PlanTask>, last: Option<RunId>,
      artifacts: set<string>)
  {
    && (forall i: nat :: i < |plan| ==>
          && Planned(r, plan[i].key) in tasks
          && tasks[Planned(r, plan[i].key)] == PlanRow(r, plan[i], StartsIn(db, plan, last, artifacts, i)))
    && (forall t :: t in tasks ==> exists i :: 0 <= i < |plan| && t == Planned(r, plan[i].key))
  }

  lemma PlanTasksAre(db: Db, r: RunId, plan: seq<PlanTask>, last: Option<RunId>, artifacts: set<string>)
    requires UniqueKeys(plan)
    ensures var source := RecoverySource(db, plan, last);
      ArePlanTasks(db, PlanTasks(r, plan,
        if source.Some? then Some(ReusedCount(db, source.value, plan, artifacts)) else None, |plan|), r, plan, last,
        artifacts)
  {
    hide PlanTasks, UniqueKeys, InitialState, StartsIn, ReusedCount, RecoverySource;
    var source := RecoverySource(db, plan, last);
    var reused := if source.Some? then Some(ReusedCount(db, source.value, plan, artifacts)) else None;
    forall i: nat | i < |plan|
      ensures Planned(r, plan[i].key) in PlanTasks(r, plan, reused, |plan|)
      ensures PlanTasks(r, plan, reused, |plan|)[Planned(r, plan[i].key)]
          == PlanRow(r, plan[i], StartsIn(db, plan, last, artifacts, i))
    {
      PlanTaskOf(r, plan, reused, i);
      StateAlike(db, plan, last, artifacts, i);
    }
    forall t | t in PlanTasks(r, plan, reused, |plan|)
      ensures exists i :: 0 <= i < |plan| && t == Planned(r, plan[i].key)
    {
      assert t in PlanIds(r, plan, |plan|);
    }
  }

  lemma NoRowsYet(db: Db, rows: Tasks)
    requires Dispatched(db.tasks, db.dispatches) && rows.Keys !! db.tasks.Keys
    ensures forall k :: k in db.dispatches ==> k.task !in rows
  {
  }

  lemma StateAlike(db: Db, plan: seq<PlanTask>, last: Option<RunId>, artifacts: set<string>, i: nat)
    requires i < |plan|
    ensures var source := RecoverySource(db, plan, last);
      InitialState(plan, i, if source.Some? then Some(ReusedCount(db, source.value, plan, artifacts)) else None)
      == StartsIn(db, plan, last, artifacts, i)
  {
    if RecoverySource(db, plan, last).Some? {
      ReusedPrefix(db, last.value, plan, artifacts);
    }
  }

  // ---------------------------------------------------------------------------------------------
  // Groups
  // ---------------------------------------------------------------------------------------------

  /** A new group, not begun, with one member for each shard. */
  ghost predicate IsNewGroup(x: Group, g: GroupId, join: TaskId, d: Descriptor) {
    && x.run == d.run && x.join == join && x.state == PLANNED && x.expectedCount == |d.shards|
    && (forall m :: m in x.members <==> m.Shard? && m.groupId == g && m.identity in d.shards)
    && (forall i :: i in d.shards ==> Shard(g, i) in x.members && x.members[Shard(g, i)] == d.shards[i].required)
  }

  /** One new task for each shard: already SUCCEEDED if it can be reused, and else PENDING until the coordinator and
      the shards it names have succeeded. The join waits for all of them as well. */
  ghost predicate InsertsShards(db: Db, next: Tasks, members: set<TaskId>, coordinator: TaskId, join: TaskId,
      d: Descriptor)
  {
    var g := GroupId(d.run, d.groupKey, d.fingerprint);
    && next.Keys == db.tasks.Keys + members && db.tasks.Keys !! members
    && (forall i :: i in d.shards ==>
        Shard(g, i) in next && IsShardTask(next[Shard(g, i)], coordinator, g, d.shards[i]))
    && (forall t :: t in db.tasks && t != join ==> next[t] == db.tasks[t])
    && join in db.tasks && next[join] == db.tasks[join].(dependsOn := db.tasks[join].dependsOn + members)
  }

  ghost predicate InsertsGroup(db: Db, next: Db, coordinator: TaskId, join: TaskId, d: Descriptor) {
    var g := GroupId(d.run, d.groupKey, d.fingerprint);
    && g in next.groups && next.groups == db.groups[g := next.groups[g]] && IsNewGroup(next.groups[g], g, join, d)
    && InsertsShards(db, next.tasks, next.groups[g].members.Keys, coordinator, join, d)
    && next == db.(groups := next.groups, tasks := next.tasks)
  }

  predicate IsShardTask(x: Task, coordinator: TaskId, g: GroupId, spec: ShardSpec) {
    x == Task(g.run, spec.tool, if spec.reusable then SUCCEEDED else PENDING, 1, 0, None, 0, None,
      spec.tool.routingClass, 0, Some(g), {coordinator} + (set i | i in spec.dependsOn :: Shard(g, i)), 0)
  }

  /** A group is materialised once, by the running coordinator of an ACTIVE run, for a join that has not begun. */
  lemma {:induction false} MaterializeExactly(trace: Trace, i: nat, coordinator: TaskId, join: TaskId, d: Descriptor)
    requires IsTrace(trace) && i < |trace.states|
    ensures var db, commit := trace.states[i], MaterializeFanout(trace.states[i], coordinator, join, d);
      var g := GroupId(d.run, d.groupKey, d.fingerprint);
      if !(coordinator in db.tasks && db.tasks[coordinator].state == RUNNING && db.tasks[coordinator].run == d.run
            && d.run in db.runs && db.runs[d.run].state == ACTIVE)
      then commit == Commit(db, Refused(FANOUT_COORDINATOR_NOT_RUNNING))
      else if d.planVersion != db.runs[d.run].planVersion then commit == Commit(db, Refused(FANOUT_PLAN_VERSION_STALE))
      else if !(join in db.tasks && db.tasks[join].run == d.run && db.tasks[join].state in {PENDING, RUNNABLE})
      then commit == Commit(db, Refused(FANOUT_JOIN_SCOPE_INVALID))
      else if exists h :: h in db.groups && h.run == d.run && h.groupKey == d.groupKey
      then commit == Commit(db, if g in db.groups && db.groups[g].expectedCount == |d.shards| then Done
            else Refused(FANOUT_DESCRIPTOR_STALE))
      else if exists s :: s in d.shards && d.shards[s].tool.routingClass == Control
      then commit == Commit(db, Refused(FANOUT_SHARD_ROUTE_INVALID))
      else if exists s, e :: s in d.shards && e in d.shards[s].dependsOn && (e !in d.shards || e == s)
      then commit == Commit(db, Refused(FANOUT_SHARD_DEPENDENCY_UNKNOWN))
      else commit.answer == Done && InsertsGroup(db, commit.db, coordinator, join, d)
  {
    hide Safe, InsertGroup, InsertsGroup;
    TraceIsSafe(trace, i);
    var db := trace.states[i];
    if CoordinatorRunning(db, coordinator, d.run) && JoinInScope(db, join, d.run) && GroupOf(d) !in db.groups {
      GroupInserted(db, coordinator, join, d);
    }
  }

  lemma GroupInserted(db: Db, coordinator: TaskId, join: TaskId, d: Descriptor)
    requires Safe(db) && join in db.tasks && GroupOf(d) !in db.groups
    ensures InsertsGroup(db, InsertGroup(db, coordinator, join, d), coordinator, join, d)
  {
    hide Safe, Linked, ShardTasks, WidenedJoin, Members, IsNewGroup, InsertsShards;
    SafeRows(db);
    ShardsInserted(db, coordinator, join, d);
    NewGroupIs(d, join);
    MembersAre(d, coordinator);
  }

  lemma MembersAre(d: Descriptor, coordinator: TaskId)
    ensures ShardTasks(d, coordinator).Keys == Members(d).Keys
  {
  }

  lemma NewGroupIs(d: Descriptor, join: TaskId)
    ensures IsNewGroup(NewGroup(d, join), GroupId(d.run, d.groupKey, d.fingerprint), join, d)
  {
    hide Members;
    ShardsAre(d);
  }

  lemma ShardsInserted(db: Db, coordinator: TaskId, join: TaskId, d: Descriptor)
    requires Linked(db.runs, db.tasks, db.groups) && join in db.tasks && GroupOf(d) !in db.groups
    ensures InsertsShards(db, InsertGroup(db, coordinator, join, d).tasks, ShardTasks(d, coordinator).Keys, coordinator,
        join, d)
  {
    hide InsertGroup, Linked, ShardTasks, IsShardTask, NewGroup;
    var next, shards := InsertGroup(db, coordinator, join, d).tasks, ShardTasks(d, coordinator);
    FreshShards(db, d, coordinator);
    InsertedGroup(db, coordinator, join, d);
    forall i | i in d.shards
      ensures Shard(GroupOf(d), i) in next
          && IsShardTask(next[Shard(GroupOf(d), i)], coordinator, GroupOf(d), d.shards[i])
    {
      ShardTaskIs(d, coordinator, i);
    }
  }

  lemma ShardTaskIs(d: Descriptor, coordinator: TaskId, i: string)
    requires i in d.shards
    ensures Shard(GroupOf(d), i) in ShardTasks(d, coordinator)
    ensures IsShardTask(ShardTasks(d, coordinator)[Shard(GroupOf(d), i)], coordinator, GroupOf(d), d.shards[i])
  {
  }

  lemma ShardsAre(d: Descriptor)
    ensures var g := GroupId(d.run, d.groupKey, d.fingerprint);
      && (forall m :: m in Members(d) <==> m.Shard? && m.groupId == g && m.identity in d.shards)
      && (forall i :: i in d.shards ==> Members(d)[Shard(g, i)] == d.shards[i].required)
  {
  }

  /** A group is complete exactly when all its required shards have succeeded. */
  lemma CompleteExactly(db: Db, g: GroupId)
    ensures var commit := CompleteFanout(db, g);
      if g in db.groups && forall m ::
          m in db.groups[g].members && m in db.tasks && db.groups[g].members[m] ==> db.tasks[m].state == SUCCEEDED
      then commit == Commit(db.(groups := db.groups[g := db.groups[g].(state := GROUP_SUCCEEDED)]), Done)
      else commit == Commit(db, Refused(FANOUT_NOT_COMPLETE))
  {
  }

  const ALL_STATES := {PENDING, RUNNABLE, RUNNING, WAITING, SUCCEEDED, FAILED, UNKNOWN_OUTCOME, CANCELLED}

  /** A required shard of the group is in one of the states. */
  predicate HasRequired(db: Db, g: GroupId, states: set<TaskState>)
    requires g in db.groups
  {
    exists m :: m in db.groups[g].members && m in db.tasks && db.groups[g].members[m] && db.tasks[m].state in states
  }

  /** What the join reads: that all required shards have succeeded, or why they have not. Membership is never
      incomplete. */
  lemma {:induction false} ReadExactly(trace: Trace, i: nat, join: TaskId, g: GroupId)
    requires IsTrace(trace) && i < |trace.states|
    ensures var db := trace.states[i];
      ReadFanout(db, join, g) ==
        if !(g in db.groups && db.groups[g].join == join) then Refused(FANOUT_GROUP_NOT_FOUND)
        else if HasRequired(db, g, {FAILED, CANCELLED, UNKNOWN_OUTCOME}) then Refused(FANOUT_REQUIRED_SHARD_FAILED)
        else if HasRequired(db, g, ALL_STATES - {SUCCEEDED}) then Refused(FANOUT_REQUIRED_SHARD_NOT_TERMINAL)
        else Done
  {
    hide Safe, ReadFanout;
    TraceIsSafe(trace, i);
    ReadAnswer(trace.states[i], join, g);
  }

  lemma ReadAnswer(db: Db, join: TaskId, g: GroupId)
    requires Safe(db)
    ensures ReadFanout(db, join, g) ==
        if !(g in db.groups && db.groups[g].join == join) then Refused(FANOUT_GROUP_NOT_FOUND)
        else if HasRequired(db, g, {FAILED, CANCELLED, UNKNOWN_OUTCOME}) then Refused(FANOUT_REQUIRED_SHARD_FAILED)
        else if HasRequired(db, g, ALL_STATES - {SUCCEEDED}) then Refused(FANOUT_REQUIRED_SHARD_NOT_TERMINAL)
        else Done
  {
    hide Safe;
    if g in db.groups { GroupIsWhole(db, g); }
  }

  lemma GroupIsWhole(db: Db, g: GroupId)
    requires Safe(db) && g in db.groups
    ensures |db.groups[g].members| == db.groups[g].expectedCount
  {
    hide Leased, Dispatched, Attempted, Counted, RetriesBounded, Honest, Budgeted;
    assert GroupSound(db.tasks, g, db.groups[g]);
  }
}
