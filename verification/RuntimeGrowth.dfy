/** Inserting the tasks of a plan or of a fan-out group keeps the invariant: the new rows are fresh, their
    links lead to rows that exist, and the dispatch rows of the tasks that start RUNNABLE come with them. */
module RuntimeGrowth {
  import opened Wrappers
  import opened RuntimeState
  import opened PlanRegistry
  import opened RuntimeTransitions
  import opened RuntimeInvariant
  import opened RuntimeUnits

  /** A row no worker has touched. */
  ghost predicate Untouched(x: Task) {
    && x.state in {PENDING, RUNNABLE, SUCCEEDED}
    && x.leaseToken == 0 == x.attemptCount && x.retriesScheduled == 0
    && x.leaseOwner == None && x.leaseExpiresAt == None
    && x.routingClass == x.tool.routingClass
  }

  /** New rows are untouched; an old row may only gain dependencies, before it has started. */
  ghost predicate Grown(a: Tasks, b: Tasks) {
    && (forall t :: t in a ==> t in b && b[t] == a[t].(dependsOn := b[t].dependsOn) && a[t].dependsOn <= b[t].dependsOn)
    && (forall t :: t in a && a[t].state !in {PENDING, RUNNABLE} ==> b[t].dependsOn == a[t].dependsOn)
    && (forall t :: t in b && t !in a ==> Untouched(b[t]))
  }

  lemma GrownAttempts(a: Tasks, b: Tasks, i: Attempts)
    requires Grown(a, b) && Attempted(a, i)
    ensures Attempted(b, i)
  {
    assert forall x :: x in i ==> AttemptSound(a, i[x]);
    hide Attempted;
    assert AttemptsFollow(a, b, i, i);
    FollowedAttempts(a, b, i, i);
  }

  lemma GrownCounts(a: Tasks, b: Tasks, i: Attempts)
    requires Grown(a, b) && Attempted(a, i) && Counted(a, i)
    ensures Counted(b, i)
  {
    forall t | t in b && t !in a
      ensures AttemptsOf(i, t) == {}
    {
      assert forall x :: x in i ==> AttemptSound(a, i[x]);
    }
  }

  lemma GrownRetries(a: Tasks, b: Tasks, i: Attempts)
    requires Grown(a, b) && RetriesBounded(a, i)
    ensures RetriesBounded(b, i)
  {
  }

  lemma GrownColumns(a: Tasks, b: Tasks)
    requires Grown(a, b)
    ensures TasksAdvance(a, b) && (Leased(a) ==> Leased(b))
  {
  }

  lemma GrowthKeeps(db: Db, next: Db)
    requires Safe(db) && next.attempts == db.attempts
    requires Grown(db.tasks, next.tasks) && RowsFollow(db.tasks, next.tasks, db.dispatches, next.dispatches)
    requires Linked(next.runs, next.tasks, next.groups) && Budgeted(next.runs, next.attempts)
        && Honest(next.runs, next.tasks)
    requires RunsAdvance(db.runs, next.runs)
    ensures Safe(next) && Advances(db, next)
  {
    hide Linked, Leased, Dispatched, Attempted, Counted, RetriesBounded, Honest, Budgeted, RowsFollow, Grown,
      TasksAdvance, RunsAdvance, DispatchesAdvance;
    GrownAttempts(db.tasks, next.tasks, db.attempts);
    GrownCounts(db.tasks, next.tasks, db.attempts);
    GrownRetries(db.tasks, next.tasks, db.attempts);
    GrownColumns(db.tasks, next.tasks);
    FollowedRows(db.tasks, next.tasks, db.dispatches, next.dispatches);
  }

  // ---------------------------------------------------------------------------------------------
  // A plan
  // ---------------------------------------------------------------------------------------------

  lemma PlanTaskAt(r: RunId, plan: seq<PlanTask>, reused: Option<nat>, t: TaskId) returns (i: nat)
    requires UniqueKeys(plan) && t in PlanTasks(r, plan, reused, |plan|)
    ensures i < |plan| && t == Planned(r, plan[i].key)
        && PlanTasks(r, plan, reused, |plan|)[t] == InitialTask(r, plan, i, reused)
  {
    i := Position(plan, t.key);
  }

  lemma PlanTaskOf(r: RunId, plan: seq<PlanTask>, reused: Option<nat>, i: nat)
    requires UniqueKeys(plan) && i < |plan|
    ensures Planned(r, plan[i].key) in PlanTasks(r, plan, reused, |plan|)
    ensures PlanTasks(r, plan, reused, |plan|)[Planned(r, plan[i].key)] == InitialTask(r, plan, i, reused)
  {
    var t := Planned(r, plan[i].key);
    assert t in PlanIds(r, plan, |plan|);
  }

  /** The ids of a new run are new. */
  lemma NewRunIds(db: Db, r: RunId, plan: seq<PlanTask>, reused: Option<nat>)
    requires Linked(db.runs, db.tasks, db.groups) && r !in db.runs && UniqueKeys(plan)
    ensures PlanTasks(r, plan, reused, |plan|).Keys !! db.tasks.Keys
  {
    forall t | t in PlanTasks(r, plan, reused, |plan|)
      ensures t !in db.tasks
    {
      if t in db.tasks { RunExists(db.runs, db.tasks, db.groups, t); }
    }
  }

  lemma PlanGrows(a: Tasks, r: RunId, plan: seq<PlanTask>, reused: Option<nat>)
    requires UniqueKeys(plan) && PlanTasks(r, plan, reused, |plan|).Keys !! a.Keys
    ensures Grown(a, a + PlanTasks(r, plan, reused, |plan|))
  {
    forall t | t in PlanTasks(r, plan, reused, |plan|)
      ensures Untouched(PlanTasks(r, plan, reused, |plan|)[t])
    {
      var i := PlanTaskAt(r, plan, reused, t);
    }
  }

  lemma PlanRowsFollow(a: Tasks, dispatches: Dispatches, r: RunId, plan: seq<PlanTask>, reused: Option<nat>)
    requires UniqueKeys(plan) && PlanTasks(r, plan, reused, |plan|).Keys !! a.Keys
    ensures RowsFollow(a, a + PlanTasks(r, plan, reused, |plan|), dispatches,
        PlanRows(r, plan, reused, |plan|) + dispatches)
  {
    PlanRowsAre(r, plan, reused);
    hide PlanTasks, PlanRows, UniqueKeys;
  }

  lemma PlanRowsAre(r: RunId, plan: seq<PlanTask>, reused: Option<nat>)
    requires UniqueKeys(plan)
    ensures var tasks, rows := PlanTasks(r, plan, reused, |plan|), PlanRows(r, plan, reused, |plan|);
            && (forall t :: t in tasks && tasks[t].state == RUNNABLE ==> DispatchKey(t, tasks[t].revision) in rows)
            && (forall k :: k in rows ==>
                k.task in tasks && k.version == tasks[k.task].revision && tasks[k.task].state == RUNNABLE
                && RowSound(rows[k]))
  {
    var tasks := PlanTasks(r, plan, reused, |plan|);
    forall t | t in tasks
      ensures tasks[t].revision == 1
    {
      var i := PlanTaskAt(r, plan, reused, t);
    }
    hide PlanTasks, UniqueKeys;
  }

  lemma PlanTaskSound(r: RunId, plan: seq<PlanTask>, reused: Option<nat>, t: TaskId, runs: Runs, tasks: Tasks,
      groups: Groups)
    requires UniqueKeys(plan) && KnownDependencies(plan) && r in runs
    requires t in PlanTasks(r, plan, reused, |plan|) && t in tasks && tasks[t] == PlanTasks(r, plan, reused, |plan|)[t]
    requires PlanTasks(r, plan, reused, |plan|).Keys <= tasks.Keys
    ensures TaskSound(runs, tasks, groups, t)
  {
    var i := PlanTaskAt(r, plan, reused, t);
    forall d | d in plan[i].dependencies
      ensures Planned(r, d) in tasks
    {
      assert d in Keys(plan);
      PlanTaskOf(r, plan, reused, Position(plan, d));
    }
  }

  lemma PlanLinks(db: Db, r: RunId, x: Run, plan: seq<PlanTask>, reused: Option<nat>)
    requires Linked(db.runs, db.tasks, db.groups) && r !in db.runs && UniqueKeys(plan) && KnownDependencies(plan)
    ensures Linked(db.runs[r := x], db.tasks + PlanTasks(r, plan, reused, |plan|), db.groups)
  {
    hide PlanTasks, TaskSound, GroupSound, Linked, UniqueKeys, KnownDependencies;
    NewRunIds(db, r, plan, reused);
    var runs, b := db.runs[r := x], db.tasks + PlanTasks(r, plan, reused, |plan|);
    forall t | t in b
      ensures TaskSound(runs, b, db.groups, t)
    {
      if t in db.tasks {
        LinkedTask(db, t);
        OldTaskSound(db.runs, runs, db.tasks, b, db.groups, db.groups, t);
      } else {
        PlanTaskSound(r, plan, reused, t, runs, b, db.groups);
      }
    }
    forall g | g in db.groups
      ensures GroupSound(b, g, db.groups[g])
    {
      OldGroupSound(db, b, g);
    }
    LinkedFromRows(runs, b, db.groups);
  }

  lemma LinkedTask(db: Db, t: TaskId)
    requires Linked(db.runs, db.tasks, db.groups) && t in db.tasks
    ensures TaskSound(db.runs, db.tasks, db.groups, t)
  {
  }

  lemma OldGroupSound(db: Db, b: Tasks, g: GroupId)
    requires Linked(db.runs, db.tasks, db.groups) && g in db.groups && db.tasks.Keys <= b.Keys
    ensures GroupSound(b, g, db.groups[g])
  {
  }

  lemma NewRunBudgeted(db: Db, r: RunId, x: Run)
    requires Linked(db.runs, db.tasks, db.groups) && Attempted(db.tasks, db.attempts) && Budgeted(db.runs, db.attempts)
    requires r !in db.runs && x.state == ACTIVE && x.attemptsUsed == 0 <= x.attemptsLimit
    ensures Budgeted(db.runs[r := x], db.attempts) && RunsAdvance(db.runs, db.runs[r := x])
  {
    NoCharges(db, r);
  }

  lemma NewRunHonest(db: Db, r: RunId, x: Run, plan: seq<PlanTask>, reused: Option<nat>)
    requires Linked(db.runs, db.tasks, db.groups) && Honest(db.runs, db.tasks)
    requires r !in db.runs && x.state == ACTIVE && UniqueKeys(plan)
    ensures Honest(db.runs[r := x], db.tasks + PlanTasks(r, plan, reused, |plan|))
  {
    var b := db.tasks + PlanTasks(r, plan, reused, |plan|);
    hide PlanTasks, Linked;
    forall t | t in b && b[t].run != r
      ensures t in db.tasks && b[t] == db.tasks[t]
    {
      if t in PlanTasks(r, plan, reused, |plan|) {
        PlanTaskRun(r, plan, reused, t);
      }
    }
  }

  lemma PlanTaskRun(r: RunId, plan: seq<PlanTask>, reused: Option<nat>, t: TaskId)
    requires UniqueKeys(plan) && t in PlanTasks(r, plan, reused, |plan|)
    ensures PlanTasks(r, plan, reused, |plan|)[t].run == r
  {
    hide PlanTasks;
    var i := PlanTaskAt(r, plan, reused, t);
  }

  lemma InsertPlanKeeps(db: Db, r: RunId, x: Run, plan: seq<PlanTask>, reused: Option<nat>)
    requires Safe(db) && r !in db.runs && x.state == ACTIVE && x.attemptsUsed == 0 <= x.attemptsLimit
    requires UniqueKeys(plan) && KnownDependencies(plan)
    ensures var next := InsertPlan(db.(runs := db.runs[r := x]), r, plan, reused, |plan|);
        Safe(next) && Advances(db, next)
  {
    hide Linked, Leased, Dispatched, Attempted, Counted, RetriesBounded, Honest, Budgeted, RowsFollow, Grown,
      RunsAdvance, Advances, PlanTasks, PlanRows, UniqueKeys, KnownDependencies;
    var next := InsertPlan(db.(runs := db.runs[r := x]), r, plan, reused, |plan|);
    NewRunIds(db, r, plan, reused);
    PlanGrows(db.tasks, r, plan, reused);
    PlanRowsFollow(db.tasks, db.dispatches, r, plan, reused);
    PlanLinks(db, r, x, plan, reused);
    NewRunBudgeted(db, r, x);
    NewRunHonest(db, r, x, plan, reused);
    GrowthKeeps(db, next);
  }

  // ---------------------------------------------------------------------------------------------
  // A fan-out group
  // ---------------------------------------------------------------------------------------------

  lemma {:induction false} CountImage(g: GroupId, s: set<string>)
    ensures |set i | i in s :: Shard(g, i)| == |s|
  {
    if s != {} {
      var i :| i in s;
      var rest := s - {i};
      CountImage(g, rest);
      assert (set j | j in s :: Shard(g, j)) == (set j | j in rest :: Shard(g, j)) + {Shard(g, i)};
    }
  }

  lemma MemberCount(d: Descriptor)
    ensures |Members(d)| == |d.shards|
  {
    CountImage(GroupOf(d), d.shards.Keys);
    assert Members(d).Keys == set i | i in d.shards.Keys :: Shard(GroupOf(d), i);
  }

  lemma ShardTaskAt(d: Descriptor, coordinator: TaskId, t: TaskId)
    requires t in ShardTasks(d, coordinator)
    ensures t.Shard? && t.groupId == GroupOf(d) && t.identity in d.shards
        && ShardTasks(d, coordinator)[t] == ShardTask(d, coordinator, t.identity)
    ensures t in Members(d)
  {
  }

  /** A taken shard id would belong to a group with the same key, which materialization rules out. */
  lemma FreshShards(db: Db, d: Descriptor, coordinator: TaskId)
    requires Linked(db.runs, db.tasks, db.groups) && GroupOf(d) !in db.groups
    ensures ShardTasks(d, coordinator).Keys !! db.tasks.Keys
  {
    if t :| t in ShardTasks(d, coordinator) && t in db.tasks {
      LinkedTask(db, t);
    }
  }

  lemma GroupGrows(a: Tasks, join: TaskId, d: Descriptor, coordinator: TaskId)
    requires join in a && a[join].state in {PENDING, RUNNABLE} && ShardTasks(d, coordinator).Keys !! a.Keys
    ensures Grown(a, ShardTasks(d, coordinator) + WidenedJoin(a, join, d))
  {
    hide ShardTasks, ShardIds;
    forall t | t in ShardTasks(d, coordinator)
      ensures Untouched(ShardTasks(d, coordinator)[t])
    {
      ShardTaskAt(d, coordinator, t);
    }
  }

  lemma GroupRowsFollow(a: Tasks, dispatches: Dispatches, join: TaskId, d: Descriptor, coordinator: TaskId)
    requires join in a && ShardTasks(d, coordinator).Keys !! a.Keys
    ensures RowsFollow(a, ShardTasks(d, coordinator) + WidenedJoin(a, join, d), dispatches, dispatches)
  {
    hide ShardTasks, ShardIds;
    forall t | t in ShardTasks(d, coordinator)
      ensures ShardTasks(d, coordinator)[t].state != RUNNABLE
    {
      ShardTaskAt(d, coordinator, t);
    }
  }

  lemma ShardSound(runs: Runs, tasks: Tasks, groups: Groups, d: Descriptor, coordinator: TaskId, join: TaskId,
      t: TaskId)
    requires d.run in runs && coordinator in tasks && RunOf(coordinator) == d.run && ShardsInsertable(d)
    requires t in ShardTasks(d, coordinator) && t in tasks && tasks[t] == ShardTasks(d, coordinator)[t]
    requires ShardTasks(d, coordinator).Keys <= tasks.Keys
    requires GroupOf(d) in groups && groups[GroupOf(d)] == NewGroup(d, join)
    ensures TaskSound(runs, tasks, groups, t)
  {
    ShardTaskAt(d, coordinator, t);
    forall e | e in d.shards[t.identity].dependsOn
      ensures Shard(GroupOf(d), e) in tasks
    {
      assert e in d.shards;
    }
  }

  lemma OldTaskSound(runs: Runs, runs': Runs, a: Tasks, b: Tasks, groups: Groups, groups': Groups, t: TaskId)
    requires t in a && TaskSound(runs, a, groups, t) && runs.Keys <= runs'.Keys && a.Keys <= b.Keys
    requires forall g :: g in groups ==> g in groups' && groups'[g] == groups[g]
    requires b[t] == a[t].(dependsOn := b[t].dependsOn)
    requires forall d :: d in b[t].dependsOn ==> d in a[t].dependsOn || (d in b && RunOf(d) == a[t].run)
    ensures TaskSound(runs', b, groups', t)
  {
  }

  lemma ShardIdsIn(d: Descriptor, coordinator: TaskId)
    ensures ShardIds(d) == ShardTasks(d, coordinator).Keys == Members(d).Keys
  {
  }

  lemma NewGroupSound(tasks: Tasks, d: Descriptor, coordinator: TaskId, join: TaskId)
    requires join in tasks && RunOf(join) == d.run && ShardTasks(d, coordinator).Keys <= tasks.Keys
    ensures GroupSound(tasks, GroupOf(d), NewGroup(d, join))
  {
    MemberCount(d);
    ShardIdsIn(d, coordinator);
    forall m | m in Members(d)
      ensures m in tasks && m.Shard? && m.groupId == GroupOf(d)
    {
      ShardTaskAt(d, coordinator, m);
    }
  }

  lemma GroupLinks(db: Db, coordinator: TaskId, join: TaskId, d: Descriptor)
    requires Linked(db.runs, db.tasks, db.groups) && GroupOf(d) !in db.groups && ShardsInsertable(d)
    requires join in db.tasks && coordinator in db.tasks && db.tasks[join].run == d.run == db.tasks[coordinator].run
    ensures Linked(db.runs, ShardTasks(d, coordinator) + WidenedJoin(db.tasks, join, d),
        db.groups[GroupOf(d) := NewGroup(d, join)])
  {
    hide Linked, TaskSound, GroupSound, ShardTasks, ShardTask, ShardIds, NewGroup, ShardsInsertable, Members,
      WidenedJoin;
    var b, groups := ShardTasks(d, coordinator) + WidenedJoin(db.tasks, join, d),
        db.groups[GroupOf(d) := NewGroup(d, join)];
    FreshShards(db, d, coordinator);
    RunExists(db.runs, db.tasks, db.groups, join);
    RunExists(db.runs, db.tasks, db.groups, coordinator);
    WidenedRows(db.tasks, join, d, coordinator);
    ShardRuns(d, coordinator);
    forall t | t in b
      ensures TaskSound(db.runs, b, groups, t)
    {
      if t in db.tasks {
        LinkedTask(db, t);
        OldTaskSound(db.runs, db.runs, db.tasks, b, db.groups, groups, t);
      } else {
        ShardSound(db.runs, b, groups, d, coordinator, join, t);
      }
    }
    forall g | g in groups
      ensures GroupSound(b, g, groups[g])
    {
      if g in db.groups { OldGroupSound(db, b, g); } else { NewGroupSound(b, d, coordinator, join); }
    }
    LinkedFromRows(db.runs, b, groups);
  }

  lemma WidenedRows(a: Tasks, join: TaskId, d: Descriptor, coordinator: TaskId)
    requires join in a && ShardTasks(d, coordinator).Keys !! a.Keys
    ensures var b := ShardTasks(d, coordinator) + WidenedJoin(a, join, d);
            && b.Keys == a.Keys + ShardTasks(d, coordinator).Keys
            && (forall t :: t in a ==> b[t] == a[t].(dependsOn := b[t].dependsOn))
            && (forall t :: t in a && t != join ==> b[t] == a[t])
            && (forall e :: e in b[join].dependsOn ==> e in a[join].dependsOn || e in ShardIds(d))
            && (forall t ::
                t in b && t !in a ==> t in ShardTasks(d, coordinator) && b[t] == ShardTasks(d, coordinator)[t])
  {
    hide ShardTasks, ShardIds;
  }

  lemma ShardRuns(d: Descriptor, coordinator: TaskId)
    ensures ShardIds(d) == ShardTasks(d, coordinator).Keys
    ensures forall t :: t in ShardIds(d) ==> RunOf(t) == d.run
  {
  }

  lemma LinkedFromRows(runs: Runs, tasks: Tasks, groups: Groups)
    requires forall t :: t in tasks ==> TaskSound(runs, tasks, groups, t)
    requires forall g :: g in groups ==> GroupSound(tasks, g, groups[g])
    ensures Linked(runs, tasks, groups)
  {
  }

  lemma GroupHonest(db: Db, coordinator: TaskId, join: TaskId, d: Descriptor)
    requires Honest(db.runs, db.tasks) && join in db.tasks && RunIs(db, d.run, ACTIVE)
    ensures Honest(db.runs, ShardTasks(d, coordinator) + WidenedJoin(db.tasks, join, d))
  {
    hide ShardTasks, ShardIds;
    forall t | t in ShardTasks(d, coordinator)
      ensures ShardTasks(d, coordinator)[t].run == d.run
    {
      ShardTaskAt(d, coordinator, t);
    }
  }

  lemma InsertGroupKeeps(db: Db, coordinator: TaskId, join: TaskId, d: Descriptor)
    requires Safe(db) && GroupOf(d) !in db.groups && ShardsInsertable(d)
    requires CoordinatorRunning(db, coordinator, d.run) && JoinInScope(db, join, d.run)
    ensures Safe(InsertGroup(db, coordinator, join, d)) && Advances(db, InsertGroup(db, coordinator, join, d))
  {
    hide Linked, Leased, Dispatched, Attempted, Counted, RetriesBounded, Honest, Budgeted, RowsFollow, Grown,
      RunsAdvance, Advances, ShardTasks, ShardsInsertable, WidenedJoin, NewGroup;
    var next := InsertGroup(db, coordinator, join, d);
    FreshShards(db, d, coordinator);
    GroupGrows(db.tasks, join, d, coordinator);
    GroupRowsFollow(db.tasks, db.dispatches, join, d, coordinator);
    GroupLinks(db, coordinator, join, d);
    GroupHonest(db, coordinator, join, d);
    RunsReflexive(db.runs);
    GrowthKeeps(db, next);
  }

  lemma RunsReflexive(runs: Runs)
    ensures RunsAdvance(runs, runs)
  {
  }
}
