/** The repository as the code runs it: tables that each transaction updates row by row. Every method is
    proved equal to the transition that the invariants are about. */
module RuntimeRepository {
  import opened Wrappers
  import opened RuntimeState
  import opened PlanRegistry
  import opened RuntimeTransitions
  import opened RuntimeLoops

  lemma NoLaterItself(db: Db, rank: DispatchKey -> int, k: DispatchKey)
    requires k in db.dispatches
    ensures NoLater(db, rank, k, k)
  {
  }

  lemma NoLaterTotal(db: Db, rank: DispatchKey -> int, k: DispatchKey, l: DispatchKey)
    requires k in db.dispatches && l in db.dispatches && !NoLater(db, rank, k, l)
    ensures NoLater(db, rank, l, k) && NoLater(db, rank, l, l)
    ensures forall x :: NoLater(db, rank, k, x) ==> NoLater(db, rank, l, x)
  {
  }

  class Repository {
    var runs: map<RunId, Run>
    var tasks: map<TaskId, Task>
    var groups: map<GroupId, Group>
    var dispatches: map<DispatchKey, Dispatch>
    var attempts: map<AttemptId, Attempt>
    var effects: map<TaskId, EffectState>
    var escalations: map<EscalationId, Escalation>

    function Rows(): Db
      reads this
    {
      Db(runs, tasks, groups, dispatches, attempts, effects, escalations)
    }

    constructor ()
      ensures Rows() == EMPTY
    {
      runs, tasks, groups, dispatches, attempts, effects, escalations :=
          map[], map[], map[], map[], map[], map[], map[];
    }

    /** What other processes have committed. */
    method Restore(db: Db)
      modifies this
      ensures Rows() == db
    {
      runs, tasks, groups, dispatches, attempts, effects, escalations :=
        db.runs, db.tasks, db.groups, db.dispatches, db.attempts, db.effects, db.escalations;
    }

    // -------------------------------------------------------------------------------------------
    // Shared steps
    // -------------------------------------------------------------------------------------------

    method EnqueueDispatch(t: TaskId, at: int)
      requires t in tasks
      modifies this`tasks, this`dispatches
      ensures Rows() == Enqueue(old(Rows()), {t}, at)
    {
      ghost var before := Rows();
      tasks := tasks[t := tasks[t].(availableAt := at, routingClass := tasks[t].tool.routingClass)];
      var key := DispatchKey(t, tasks[t].revision);
      if key !in dispatches {
        dispatches := dispatches[key := NewDispatch(tasks[t], at)];
      }
      EnqueuedRowsExactly(before.tasks, {t}, at);
      assert tasks == EnqueuedTasks(before.tasks, {t}, at);
      assert dispatches == EnqueuedRows(before.tasks, {t}, at) + before.dispatches;
    }

    method EnqueueRows(rows: set<TaskId>, at: int)
      requires rows <= tasks.Keys
      modifies this`tasks, this`dispatches
      ensures Rows() == Enqueue(old(Rows()), rows, at)
    {
      hide Enqueue;
      ghost var before := Rows();
      var left := rows;
      EnqueueNone(before, at);
      assert rows - left == {};
      while left != {}
        invariant left <= rows <= tasks.Keys
        invariant Rows() == Enqueue(before, rows - left, at)
      {
        var t :| t in left;
        ghost var done := rows - left;
        EnqueueDispatch(t, at);
        EnqueuedIds(before, done + {t}, at);
        EnqueueOneMore(before, done, t, at);
        left := left - {t};
        assert rows - left == done + {t};
      }
      assert rows - left == rows;
    }

    method PromoteEligible(r: RunId)
      modifies this`tasks, this`dispatches
      ensures Rows() == Promote(old(Rows()), {r})
    {
      hide Eligible, Enqueue, Wake, MakeRunnable, MovedTasks;
      ghost var before := Rows();
      var rows := Promotable(Rows(), {r});
      MadeRunnable(tasks, rows, 0);
      tasks := MakeRunnable(tasks, rows, 0);
      MoveThenEnqueue(before, tasks, rows, 0);
      EnqueueRows(rows, 0);
    }

    // -------------------------------------------------------------------------------------------
    // Plans and groups
    // -------------------------------------------------------------------------------------------

    /** A run without a plan the registry accepts is refused; otherwise the transaction inserts the run and
        its tasks in plan order. */
    method CreateGoal(r: RunId, goal: Goal, registered: set<Tool>, plan: seq<PlanTask>, limit: int, last: Option<RunId>,
        artifacts: set<string>) returns (answer: Answer)
      modifies this`runs, this`tasks, this`dispatches
      ensures goal.completionCriteria != [] && SupportedTools(plan, registered) ==>
          Commit(Rows(), answer) == CreateRun(old(Rows()), r, plan, limit, last, artifacts)
      ensures goal.completionCriteria == [] || !SupportedTools(plan, registered) ==>
          Rows() == old(Rows()) && answer == if r in old(runs) then Null else Refused(PLAN_REJECTED)
    {
      if r in runs { return Null; }
      var validation := ValidatePlan(goal, plan, registered, goal);
      if validation.Rejected? { return Refused(PLAN_REJECTED); }
      if limit <= 0 || !InsertableDependencies(plan) { return Refused(CONSTRAINT_VIOLATED); }
      var source := RecoverySource(Rows(), plan, last);
      var reused := None;
      if source.Some? {
        var n := CountReusable(source.value, plan, artifacts);
        reused := Some(n);
      }
      runs := runs[r := Run(ACTIVE, 0, limit, 1, plan)];
      InsertTasks(r, plan, reused);
      return Done;
    }

    /** The loop stops at the first task whose result cannot be taken over. */
    method CountReusable(source: RunId, plan: seq<PlanTask>, artifacts: set<string>) returns (n: nat)
      ensures n == ReusedCount(Rows(), source, plan, artifacts)
    {
      n := 0;
      assert plan[0..] == plan;
      while n < |plan| && ReusableTask(Rows(), source, plan[n].key, artifacts)
        invariant n <= |plan| && ReusedCount(Rows(), source, plan, artifacts) ==
            n + ReusedCount(Rows(), source, plan[n..], artifacts)
      {
        assert plan[n..][1..] == plan[n + 1..];
        n := n + 1;
      }
    }

    method InsertTasks(r: RunId, plan: seq<PlanTask>, reused: Option<nat>)
      requires UniqueKeys(plan)
      modifies this`tasks, this`dispatches
      ensures Rows() == InsertPlan(old(Rows()), r, plan, reused, |plan|)
    {
      hide InsertPlan, UniqueKeys, Enqueue, InitialTask;
      ghost var before := Rows();
      InsertNone(before, r, plan, reused);
      for i := 0 to |plan|
        invariant Rows() == InsertPlan(before, r, plan, reused, i)
      {
        var t := Planned(r, plan[i].key);
        ghost var inserted := Rows();
        tasks := tasks[t := InitialTask(r, plan, i, reused)];
        if InitialState(plan, i, reused) == RUNNABLE {
          EnqueueDispatch(t, 0);
        }
        InsertOneMore(before, r, plan, reused, i);
      }
    }

    method MaterializeFanout(coordinator: TaskId, join: TaskId, d: Descriptor) returns (answer: Answer)
      modifies this`tasks, this`groups
      ensures Commit(Rows(), answer) == RuntimeTransitions.MaterializeFanout(old(Rows()), coordinator, join, d)
    {
      hide InsertGroup;
      var g := GroupOf(d);
      if !CoordinatorRunning(Rows(), coordinator, d.run) { return Refused(FANOUT_COORDINATOR_NOT_RUNNING); }
      if runs[d.run].planVersion != d.planVersion { return Refused(FANOUT_PLAN_VERSION_STALE); }
      if !JoinInScope(Rows(), join, d.run) { return Refused(FANOUT_JOIN_SCOPE_INVALID); }
      if exists h :: h in groups && h.run == d.run && h.groupKey == d.groupKey {
        return if g in groups && groups[g].expectedCount == |d.shards| then Done else Refused(FANOUT_DESCRIPTOR_STALE);
      }
      answer := InsertShards(coordinator, join, d);
    }

    /** The group, then each shard with its membership, its edge on the coordinator and the join's edge on it, then
        the edges between shards. A shard on the control route, or one that names an unknown shard, rolls
        everything back. */
    method InsertShards(coordinator: TaskId, join: TaskId, d: Descriptor) returns (answer: Answer)
      requires join in tasks
      modifies this`tasks, this`groups
      ensures (exists i :: i in d.shards && d.shards[i].tool.routingClass == Control) ==>
          Rows() == old(Rows()) && answer == Refused(FANOUT_SHARD_ROUTE_INVALID)
      ensures !(exists i :: i in d.shards && d.shards[i].tool.routingClass == Control) && !ShardsInsertable(d) ==>
          Rows() == old(Rows()) && answer == Refused(FANOUT_SHARD_DEPENDENCY_UNKNOWN)
      ensures !(exists i :: i in d.shards && d.shards[i].tool.routingClass == Control) && ShardsInsertable(d) ==>
          Rows() == InsertGroup(old(Rows()), coordinator, join, d) && answer == Done
    {
      hide ShardTasks, Members, ShardIds, ShardsInsertable, LinkedRows;
      var routed, rows, members, edges := BuildShards(coordinator, d);
      if !routed { return Refused(FANOUT_SHARD_ROUTE_INVALID); }
      var known;
      known, rows := LinkShards(coordinator, d, rows);
      if !known { return Refused(FANOUT_SHARD_DEPENDENCY_UNKNOWN); }
      groups := groups[GroupOf(d) := Group(d.run, join, PLANNED, |d.shards|, members)];
      tasks := rows + tasks[join := tasks[join].(dependsOn := tasks[join].dependsOn + edges)];
      return Done;
    }

    method BuildShards(coordinator: TaskId, d: Descriptor)
        returns (routed: bool, rows: map<TaskId, Task>, members: map<TaskId, bool>, edges: set<TaskId>)
      ensures !routed <==> exists i :: i in d.shards && d.shards[i].tool.routingClass == Control
      ensures routed ==> rows == LinkedRows(d, coordinator, {}) && members == Members(d) && edges == ShardIds(d)
    {
      hide ShardTask, UnlinkedShard, UnlinkedRows, LinkedRows, MemberRows, JoinEdges, ShardTasks, Members, ShardIds;
      rows, members, edges := map[], map[], {};
      var left := d.shards.Keys;
      NoShards(d, coordinator);
      assert d.shards.Keys - left == {};
      while left != {}
        invariant left <= d.shards.Keys
        invariant forall i :: i in d.shards && i !in left ==> d.shards[i].tool.routingClass != Control
        invariant rows == UnlinkedRows(d, coordinator, d.shards.Keys - left)
        invariant members == MemberRows(d, d.shards.Keys - left)
        invariant edges == JoinEdges(d, d.shards.Keys - left)
      {
        var i :| i in left;
        if d.shards[i].tool.routingClass == Control { return false, rows, members, edges; }
        ShardOneMore(d, coordinator, d.shards.Keys - left, i);
        assert d.shards.Keys - left + {i} == d.shards.Keys - (left - {i});
        rows := rows[Shard(GroupOf(d), i) := UnlinkedShard(d, coordinator, i)];
        members := members[Shard(GroupOf(d), i) := d.shards[i].required];
        edges := edges + {Shard(GroupOf(d), i)};
        left := left - {i};
      }
      assert d.shards.Keys - left == d.shards.Keys;
      AllShards(d, coordinator);
      return true, rows, members, edges;
    }

    /** The second loop over the shards, which adds the edges between them. */
    method LinkShards(coordinator: TaskId, d: Descriptor, unlinked: map<TaskId, Task>)
        returns (known: bool, rows: map<TaskId, Task>)
      requires unlinked == LinkedRows(d, coordinator, {})
      ensures known <==> ShardsInsertable(d)
      ensures known ==> rows == ShardTasks(d, coordinator)
    {
      hide ShardTask, UnlinkedShard, LinkedRows, ShardTasks;
      rows := unlinked;
      var left := d.shards.Keys;
      assert d.shards.Keys - left == {};
      while left != {}
        invariant left <= d.shards.Keys && rows == LinkedRows(d, coordinator, d.shards.Keys - left)
        invariant forall i :: i in d.shards && i !in left ==> d.shards[i].dependsOn <= d.shards.Keys - {i}
      {
        var i :| i in left;
        ghost var linked := d.shards.Keys - left;
        ShardIsLinked(d, coordinator, linked, i);
        known, rows := LinkShard(coordinator, d, i, rows);
        if !known { return; }
        LinkOneMore(d, coordinator, linked, i);
        assert linked + {i} == d.shards.Keys - (left - {i});
        left := left - {i};
      }
      assert d.shards.Keys - left == d.shards.Keys;
      AllShards(d, coordinator);
      known := true;
    }

    method LinkShard(coordinator: TaskId, d: Descriptor, i: string, before: map<TaskId, Task>)
        returns (known: bool, rows: map<TaskId, Task>)
      requires i in d.shards && Shard(GroupOf(d), i) in before
      requires before[Shard(GroupOf(d), i)].dependsOn == {coordinator}
      ensures known <==> d.shards[i].dependsOn <= d.shards.Keys - {i}
      ensures known ==> rows == before[Shard(GroupOf(d), i) := before[Shard(GroupOf(d), i)].(dependsOn :=
          {coordinator} + EdgesTo(d, d.shards[i].dependsOn))]
    {
      hide EdgesTo;
      var shard, left := Shard(GroupOf(d), i), d.shards[i].dependsOn;
      rows := before;
      assert d.shards[i].dependsOn - left == {};
      EdgeOneMore(d, {}, i);
      assert {coordinator} + EdgesTo(d, {}) == {coordinator};
      while left != {}
        invariant left <= d.shards[i].dependsOn && d.shards[i].dependsOn - left <= d.shards.Keys - {i}
        invariant shard in rows && rows == before[shard := rows[shard]]
        invariant rows[shard] == before[shard].(dependsOn :=
            {coordinator} + EdgesTo(d, d.shards[i].dependsOn - left))
      {
        var e :| e in left;
        if e !in d.shards || e == i { return false, rows; }
        EdgeOneMore(d, d.shards[i].dependsOn - left, e);
        assert d.shards[i].dependsOn - left + {e} == d.shards[i].dependsOn - (left - {e});
        rows := rows[shard := rows[shard].(dependsOn := rows[shard].dependsOn + {Shard(GroupOf(d), e)})];
        left := left - {e};
      }
      assert d.shards[i].dependsOn - left == d.shards[i].dependsOn;
      known := true;
    }

    method CompleteFanout(g: GroupId) returns (answer: Answer)
      modifies this`groups
      ensures Commit(Rows(), answer) == RuntimeTransitions.CompleteFanout(old(Rows()), g)
    {
      if g !in groups || exists m :: m in Required(Rows(), g) && tasks[m].state != SUCCEEDED {
        return Refused(FANOUT_NOT_COMPLETE);
      }
      groups := groups[g := groups[g].(state := GROUP_SUCCEEDED)];
      return Done;
    }

    // -------------------------------------------------------------------------------------------
    // Claims
    // -------------------------------------------------------------------------------------------

    method Start(t: TaskId, worker: Worker, until: int, a: AttemptId)
      requires t in tasks && tasks[t].run in runs
      modifies this`tasks, this`runs, this`attempts
      ensures Rows() == StartAttempt(old(Rows()), t, worker, until, a)
    {
      var nextToken, nextAttempt := tasks[t].leaseToken + 1, tasks[t].attemptCount + 1;
      var version, r := tasks[t].revision, tasks[t].run;
      tasks := tasks[t := tasks[t].(state := RUNNING, revision := version + 1, attemptCount := nextAttempt,
          leaseOwner := Some(worker), leaseToken := nextToken, leaseExpiresAt := Some(until))];
      runs := runs[r := runs[r].(attemptsUsed := runs[r].attemptsUsed + 1)];
      attempts := attempts[a := Attempt(t, nextAttempt, worker, nextToken, ATTEMPT_RUNNING, version)];
    }

    /** The polling claim takes the first startable task, if there is one: ORDER BY id, for which `rank` stands,
        LIMIT 1. */
    method Claim(worker: Worker, now: int, leaseMs: int, a: AttemptId, rank: TaskId -> int)
        returns (answer: Answer, claimed: Option<TaskId>)
      modifies this`tasks, this`runs, this`attempts
      ensures claimed.Some? ==>
        && Commit(Rows(), answer) == RuntimeTransitions.Claim(old(Rows()), claimed.value, worker, now, leaseMs, a)
        && claimed.value in old(tasks) && Startable(old(Rows()), claimed.value, now)
        && forall t :: t in old(tasks) && Startable(old(Rows()), t, now) ==> rank(claimed.value) <= rank(t)
      ensures claimed == None ==> Rows() == old(Rows()) && answer == Null
      ensures claimed == None <==> !exists t :: t in old(tasks) && Startable(old(Rows()), t, now)
    {
      hide Eligible;
      if !exists t :: t in tasks && Startable(Rows(), t, now) { return Null, None; }
      var startable := set t | t in tasks && Startable(Rows(), t, now);
      ghost var some :| some in tasks && Startable(Rows(), some, now);
      assert some in startable;
      var t := FirstOf(startable, rank);
      claimed := Some(t);
      if a in attempts { return Refused(CONSTRAINT_VIOLATED), claimed; }
      Start(t, worker, now + leaseMs, a);
      answer := Done;
    }

    method FirstOf(startable: set<TaskId>, rank: TaskId -> int) returns (first: TaskId)
      requires startable != {}
      ensures first in startable && forall t :: t in startable ==> rank(first) <= rank(t)
    {
      first :| first in startable;
      var left := startable - {first};
      while left != {}
        invariant left <= startable && first in startable
        invariant forall t :: t in startable - left ==> rank(first) <= rank(t)
        decreases |left|
      {
        var t :| t in left;
        if rank(t) < rank(first) { first := t; }
        left := left - {t};
      }
    }

    method ClaimById(t: TaskId, version: nat, route: RoutingClass, worker: Worker, now: int, leaseMs: int,
        limits: Limits, a: AttemptId) returns (answer: Answer)
      modifies this`tasks, this`runs, this`attempts, this`groups
      ensures Commit(Rows(), answer) == RuntimeTransitions.ClaimById(old(Rows()), t, version, route, worker, now,
          leaseMs, limits, a)
    {
      hide Eligible, DependencyBlocked, RunFull, PoolFull, StartAttempt;
      var candidate := AtVersion(Rows(), t, version, route) && Startable(Rows(), t, now)
        && !RunFull(Rows(), tasks[t].run, route, limits) && !PoolFull(Rows(), route, limits);
      if !candidate {
        if !(AtVersion(Rows(), t, version, route) && RunIs(Rows(), tasks[t].run, ACTIVE)) { return Null; }
        if RunFull(Rows(), tasks[t].run, route, limits) { return Refused(RABBIT_RUN_CONCURRENCY_LIMIT); }
        if PoolFull(Rows(), route, limits) { return Refused(RABBIT_POOL_CONCURRENCY_LIMIT); }
        if DependencyBlocked(Rows(), t) { return Refused(RABBIT_DEPENDENCY_NOT_READY); }
        if tasks[t].availableAt > now { return Refused(RABBIT_TASK_NOT_YET_AVAILABLE); }
        return Null;
      }
      if tasks[t].tool.routingClass != route { return Refused(RABBIT_TASK_ROUTE_MISMATCH); }
      if a in attempts { return Refused(CONSTRAINT_VIOLATED); }
      var group := tasks[t].group;
      Start(t, worker, now + leaseMs, a);
      if group.Some? && group.value in groups && groups[group.value].state == PLANNED {
        groups := groups[group.value := groups[group.value].(state := GROUP_RUNNING)];
      }
      return Done;
    }

    // -------------------------------------------------------------------------------------------
    // A worker's commands
    // -------------------------------------------------------------------------------------------

    method Heartbeat(c: Credential, now: int, leaseMs: int) returns (answer: Answer)
      modifies this`tasks
      ensures Commit(Rows(), answer) == RuntimeTransitions.Heartbeat(old(Rows()), c, now, leaseMs)
    {
      if !HoldsLease(Rows(), c) { return Refused(STALE_LEASE_TOKEN); }
      tasks := tasks[c.task := tasks[c.task].(leaseExpiresAt := Some(now + leaseMs),
          revision := tasks[c.task].revision + 1)];
      return Done;
    }

    method WaitForHuman(c: Credential, obstacle: string, e: EscalationId) returns (answer: Answer)
      modifies this`tasks, this`attempts, this`runs, this`escalations
      ensures Commit(Rows(), answer) == RuntimeTransitions.WaitForHuman(old(Rows()), c, obstacle, e)
    {
      if !HoldsLease(Rows(), c) { return Refused(STALE_LEASE_TOKEN); }
      var r := tasks[c.task].run;
      if AsksAlready(Rows(), r, obstacle) { return Null; }
      if e in escalations { return Refused(CONSTRAINT_VIOLATED); }
      tasks := tasks[c.task := tasks[c.task].(state := WAITING, revision := tasks[c.task].revision + 1,
          leaseOwner := None, leaseExpiresAt := None)];
      CloseAttempt(c.attempt, ATTEMPT_WAITING);
      escalations := escalations[e := Escalation(r, true, obstacle, false)];
      MoveRun(r, ACTIVE, WAITING_FOR_HUMAN);
      return Done;
    }

    method CloseAttempt(a: AttemptId, s: AttemptState)
      modifies this`attempts
      ensures Rows() == SetAttemptState(old(Rows()), a, s)
    {
      if a in attempts { attempts := attempts[a := attempts[a].(state := s)]; }
    }

    method MoveRun(r: RunId, from: RunState, to: RunState)
      modifies this`runs
      ensures Rows() == SetRunState(old(Rows()), r, from, to)
    {
      if r in runs && runs[r].state == from { runs := runs[r := runs[r].(state := to)]; }
    }

    /** One escalation of the resume loop: waiting tasks run again, except those whose effect is in doubt. */
    method ResumeRun(e: EscalationId, runUnchanged: bool) returns (answer: Answer)
      modifies this`tasks, this`dispatches, this`runs, this`escalations
      ensures Commit(Rows(), answer) == RuntimeTransitions.ResumeRun(old(Rows()), e, runUnchanged)
    {
      hide Enqueue, Wake, MakeRunnable, MovedTasks, DoubtedTasks, SetRunState;
      if !(e in escalations && escalations[e].open) { return Null; }
      ghost var before := Rows();
      var r := escalations[e].run;
      escalations := escalations[e := escalations[e].(open := false)];
      if runUnchanged { MoveRun(r, WAITING_FOR_HUMAN, ACTIVE); }
      ghost var active := Rows();
      var doubted, resumed := Waiting(Rows(), r, true), Waiting(Rows(), r, false);
      SameWaiting(before, Rows(), r);
      DoubtedIds(tasks, doubted);
      tasks := DoubtedTasks(tasks, doubted);
      ghost var mid := Rows();
      assert mid == Doubt(active, doubted);
      MadeRunnable(tasks, resumed, 0);
      tasks := MakeRunnable(tasks, resumed, 0);
      MoveThenEnqueue(mid, tasks, resumed, 0);
      EnqueueRows(resumed, 0);
      return Done;
    }

    method ResolveEscalation(e: EscalationId, successor: Option<RunId>) returns (answer: Answer)
      modifies this`runs, this`escalations
      ensures Commit(Rows(), answer) == RuntimeTransitions.ResolveEscalation(old(Rows()), e, successor)
    {
      if !(e in escalations && escalations[e].open) { return Refused(STALE_ESCALATION_VERSION); }
      var r, changesInputs := escalations[e].run, escalations[e].changesInputs;
      if changesInputs && successor == None { return Refused(NEW_IMMUTABLE_VERSION_REQUIRED); }
      if changesInputs && successor.value in runs { return Refused(CONSTRAINT_VIOLATED); }
      escalations := escalations[e := escalations[e].(open := false)];
      if changesInputs {
        MoveRun(r, WAITING_FOR_HUMAN, SUPERSEDED);
        runs := runs[successor.value := Run(ACTIVE, 0, 0, 1, [])];
      } else {
        MoveRun(r, WAITING_FOR_HUMAN, ACTIVE);
      }
      return Done;
    }

    method Defer(c: Credential, now: int, retryAfterMs: int) returns (answer: Answer)
      modifies this`tasks, this`dispatches, this`attempts, this`runs
      ensures Commit(Rows(), answer) == RuntimeTransitions.Defer(old(Rows()), c, now, retryAfterMs)
    {
      hide RuntimeTransitions.HandBack;
      if !(1_000 <= retryAfterMs <= 300_000) { return Refused(TASK_DEFER_DELAY_INVALID); }
      if !HoldsLease(Rows(), c) || !AttemptOpen(Rows(), c) || attempts[c.attempt].task != c.task {
        return Refused(STALE_LEASE_TOKEN);
      }
      HandBack(c, now + retryAfterMs);
      return Done;
    }

    /** The task is RUNNABLE again and its attempt is not charged. */
    method HandBack(c: Credential, at: int)
      requires c.task in tasks
      modifies this`tasks, this`dispatches, this`attempts, this`runs
      ensures Rows() == RuntimeTransitions.HandBack(old(Rows()), c, at)
    {
      hide Enqueue, Wake, ReleasedTasks;
      ghost var before := Rows();
      var r := tasks[c.task].run;
      tasks := tasks[c.task := tasks[c.task].(state := RUNNABLE, revision := tasks[c.task].revision + 1,
          leaseOwner := None, leaseExpiresAt := None, availableAt := at)];
      CloseAttempt(c.attempt, DEFERRED);
      RefundAttempt(r);
      ghost var released := Refund(SetAttemptState(before.(tasks := ReleasedTasks(before.tasks, {c.task})), c.attempt,
          DEFERRED), r);
      ReleasedRow(before.tasks, c.task, tasks);
      MoveThenEnqueue(released, tasks, {c.task}, at);
      EnqueueDispatch(c.task, at);
    }

    method RefundAttempt(r: RunId)
      modifies this`runs
      ensures Rows() == Refund(old(Rows()), r)
    {
      if r in runs {
        runs := runs[r := runs[r].(attemptsUsed := if runs[r].attemptsUsed > 0 then runs[r].attemptsUsed - 1 else 0)];
      }
    }

    // -------------------------------------------------------------------------------------------
    // Outcomes
    // -------------------------------------------------------------------------------------------

    method Outcome(c: Credential, v: Verdict, now: int) returns (answer: Answer)
      modifies this`tasks, this`dispatches, this`attempts, this`effects, this`groups, this`runs
      ensures Commit(Rows(), answer) == RuntimeTransitions.Outcome(old(Rows()), c, v, now)
    {
      hide Enqueue, Wake, RuntimeTransitions.Promote, FailedAttemptsOf, AllSucceeded, Finish, Retry, SetRunState,
        RuntimeTransitions.FailGroup, RuntimeTransitions.CompleteRun;
      if c.task !in tasks { return Refused(TASK_NOT_FOUND); }
      if !HoldsLease(Rows(), c) || !AttemptOpen(Rows(), c) { return Refused(STALE_LEASE_TOKEN); }
      var r, group := tasks[c.task].run, tasks[c.task].group;
      match v {
        case Success =>
          FinishTask(c, v, SUCCEEDED);
          PromoteEligible(r);
          CompleteRun(r);
        case Unknown =>
          FinishTask(c, v, UNKNOWN_OUTCOME);
          if group.Some? {
            FailGroup(group.value);
            PromoteEligible(r);
          }
        case Failure(transient) =>
          var policy := TaskFailurePolicy(tasks[c.task].tool, transient, |FailedAttemptsOf(attempts, c.task)| + 1);
          if policy.retry {
            RetryTask(c, v, now + policy.delayMs);
          } else {
            FinishTask(c, v, FAILED);
            if group.Some? {
              FailGroup(group.value);
              PromoteEligible(r);
            } else {
              MoveRun(r, ACTIVE, RUN_FAILED);
            }
          }
      }
      return Done;
    }

    method Record(c: Credential, v: Verdict)
      modifies this`attempts, this`effects
      ensures Rows() == RecordVerdict(old(Rows()), c, v)
    {
      CloseAttempt(c.attempt, AttemptVerdict(v));
      if c.task in effects { effects := effects[c.task := EffectVerdict(v)]; }
    }

    method FinishTask(c: Credential, v: Verdict, s: TaskState)
      requires c.task in tasks
      modifies this`tasks, this`attempts, this`effects
      ensures Rows() == Finish(old(Rows()), c, v, s)
    {
      hide RecordVerdict, StoppedTasks;
      StoppedRow(tasks, c.task, s);
      tasks := tasks[c.task := tasks[c.task].(state := s, revision := tasks[c.task].revision + 1, leaseOwner := None,
          leaseExpiresAt := None, availableAt := 0)];
      ghost var stopped := Rows();
      Record(c, v);
      RecordFrame(old(Rows()), stopped, c, v);
    }

    method RetryTask(c: Credential, v: Verdict, at: int)
      requires c.task in tasks
      modifies this`tasks, this`dispatches, this`attempts, this`effects
      ensures Rows() == Retry(old(Rows()), c, v, at)
    {
      hide RecordVerdict, Enqueue, Wake, MovedTasks;
      ghost var before := Rows();
      tasks := tasks[c.task := tasks[c.task].(state := RUNNABLE, revision := tasks[c.task].revision + 1,
          leaseOwner := None, leaseExpiresAt := None, availableAt := at,
          retriesScheduled := tasks[c.task].retriesScheduled + 1)];
      ghost var moved := Rows();
      Record(c, v);
      RecordFrame(before, moved, c, v);
      RetriedRow(before.tasks, c.task, tasks);
      MoveThenEnqueue(RecordVerdict(before, c, v).(tasks := RetryCounted(before.tasks, c.task)), tasks, {c.task}, at);
      EnqueueDispatch(c.task, at);
    }

    method FailGroup(g: GroupId)
      modifies this`groups
      ensures Rows() == RuntimeTransitions.FailGroup(old(Rows()), g)
    {
      if g in groups && groups[g].state in {PLANNED, GROUP_RUNNING} {
        groups := groups[g := groups[g].(state := GROUP_FAILED)];
      }
    }

    method CompleteRun(r: RunId)
      modifies this`runs
      ensures Rows() == RuntimeTransitions.CompleteRun(old(Rows()), r)
    {
      hide AllSucceeded;
      if AllSucceeded(Rows(), r) { MoveRun(r, ACTIVE, RUN_SUCCEEDED); }
    }

    // -------------------------------------------------------------------------------------------
    // Recovery of expired leases
    // -------------------------------------------------------------------------------------------

    method RecoverStale(now: int) returns (answer: Answer)
      modifies this`tasks, this`dispatches, this`attempts, this`runs
      ensures Commit(Rows(), answer) == RuntimeTransitions.RecoverStale(old(Rows()), now)
    {
      hide FinishNotifications, RecoverTasks, RuntimeTransitions.Promote, Stale, FailedFanoutRuns;
      CompleteNotifications();
      StaleIds(Rows(), now);
      RecoverLeases(Stale(Rows(), now));
      PromoteRuns(FailedFanoutRuns(Rows()));
      return Done;
    }

    method CompleteNotifications()
      modifies this`tasks, this`runs
      ensures Rows() == FinishNotifications(old(Rows()))
    {
      hide NotifiedEnough, StoppedTasks, CompleteRuns, RuntimeTransitions.CompleteRun, RunsOf;
      ghost var before := Rows();
      var completed := NotifiedEnough(Rows());
      NotifiedIds(Rows());
      tasks := StoppedTasks(tasks, completed, SUCCEEDED);
      ghost var stopped := Rows();
      assert stopped == Stop(before, completed, SUCCEEDED);
      StoppedIds(before.tasks, completed, SUCCEEDED);
      var left := completed;
      CompleteNone(stopped);
      NoRuns(before);
      assert completed - left == {};
      while left != {}
        invariant left <= completed && tasks == stopped.tasks
        invariant Rows() == CompleteRuns(stopped, RunsOf(before, completed - left))
      {
        var t :| t in left;
        ghost var done := completed - left;
        CompleteRun(tasks[t].run);
        CompleteOneMore(stopped, RunsOf(before, done), stopped.tasks[t].run);
        RunsOneMore(before, done, t);
        left := left - {t};
        assert completed - left == done + {t};
      }
      assert completed - left == completed;
    }

    method RecoverLeases(stale: set<TaskId>)
      requires stale <= tasks.Keys
      modifies this`tasks, this`dispatches, this`attempts
      ensures Rows() == RecoverTasks(old(Rows()), stale)
    {
      hide RecoverTasks;
      ghost var before := Rows();
      var left := stale;
      RecoverNone(before);
      assert stale - left == {};
      while left != {}
        invariant left <= stale && tasks.Keys == before.tasks.Keys
        invariant Rows() == RecoverTasks(before, stale - left)
      {
        var t :| t in left;
        ghost var done := stale - left;
        RecoveredRow(before, done, t);
        RecoverOneMore(before, done, t);
        RecoverLease(t);
        RecoveredIds(before, done + {t});
        left := left - {t};
        assert stale - left == done + {t};
      }
      assert stale - left == stale;
    }

    /** Ends the attempt of one stale task; without an effect in doubt the task runs again. */
    method RecoverLease(t: TaskId)
      requires t in tasks
      modifies this`tasks, this`dispatches, this`attempts
      ensures Rows() == RecoverTasks(old(Rows()), {t})
    {
      hide Enqueue, Wake, ClosedAttempts, StoppedTasks, ReleasedTasks, MovedTasks;
      ghost var before := Rows();
      var unknown := EffectUnknown(Rows(), t);
      attempts := ClosedAttempts(Rows(), {t});
      tasks := tasks[t := tasks[t].(state := if unknown then UNKNOWN_OUTCOME
          else RUNNABLE, revision := tasks[t].revision + 1,
          leaseOwner := None, leaseExpiresAt := None, availableAt := 0)];
      if unknown {
        assert Doubtful(before, {t}) == {t} && {t} - {t} == {};
        StoppedRow(before.tasks, t, UNKNOWN_OUTCOME);
        NothingReleased(StoppedTasks(before.tasks, {t}, UNKNOWN_OUTCOME));
        WakeNone(Rows(), 0);
      } else {
        assert Doubtful(before, {t}) == {} && {t} - {} == {t};
        NothingStopped(before);
        ReleasedRow(before.tasks, t, tasks);
        MoveThenEnqueue(before.(tasks := ReleasedTasks(before.tasks, {t}), attempts := ClosedAttempts(before, {t})),
            tasks, {t}, 0);
        EnqueueDispatch(t, 0);
      }
    }

    method PromoteRuns(rs: set<RunId>)
      modifies this`tasks, this`dispatches
      ensures Rows() == RuntimeTransitions.Promote(old(Rows()), rs)
    {
      hide RuntimeTransitions.Promote;
      ghost var before := Rows();
      var left := rs;
      PromoteNone(before);
      assert rs - left == {};
      while left != {}
        invariant left <= rs
        invariant Rows() == RuntimeTransitions.Promote(before, rs - left)
      {
        var r :| r in left;
        ghost var done := rs - left;
        PromoteEligible(r);
        PromoteOneMore(before, done, r);
        left := left - {r};
        assert rs - left == done + {r};
      }
      assert rs - left == rs;
    }

    // -------------------------------------------------------------------------------------------
    // Dispatch outbox
    // -------------------------------------------------------------------------------------------

    method ReopenExpired(now: int)
      modifies this`dispatches
      ensures Rows() == ExpirePublishing(old(Rows()), now)
    {
      dispatches := map k | k in dispatches ::
          if PublishExpired(dispatches[k], now) then Reopened(dispatches[k]) else dispatches[k];
    }

    /** Expired publications are reopened, then the first publishable rows, at most `limit`, are leased. */
    method ClaimDispatchBatch(publisher: string, now: int, leaseMs: int, limit: int, rank: DispatchKey -> int)
        returns (answer: Answer, batch: set<DispatchKey>)
      modifies this`dispatches
      ensures Commit(Rows(), answer) == RuntimeTransitions.ClaimDispatchBatch(old(Rows()), publisher, now, leaseMs,
          limit, batch)
      ensures answer == Done ==>
          1 <= limit <= 500 && Batch(ExpirePublishing(old(Rows()), now), now, limit, rank, batch)
    {
      hide ExpirePublishing, Publishable;
      batch := {};
      if publisher == "" || !(1 <= limit <= 500) { return Refused(DISPATCH_CLAIM_INVALID), batch; }
      ReopenExpired(now);
      batch := OldestPublishable(now, limit, rank);
      var due := Publishable(Rows(), now);
      dispatches := map k | k in dispatches ::
          if k in batch && k in due then Publishing(dispatches[k], publisher, now + leaseMs) else dispatches[k];
      return Done, batch;
    }

    /** ORDER BY available_at, created_at, id LIMIT. */
    method OldestPublishable(now: int, limit: nat, rank: DispatchKey -> int) returns (batch: set<DispatchKey>)
      ensures Batch(Rows(), now, limit, rank, batch)
    {
      hide Publishable, NoLater;
      var due := Publishable(Rows(), now);
      PublishableRows(Rows(), now);
      batch := Oldest(due, limit, rank);
    }

    /** Takes the first row of those left until there are enough. */
    method Oldest(due: set<DispatchKey>, limit: nat, rank: DispatchKey -> int) returns (batch: set<DispatchKey>)
      requires due <= dispatches.Keys
      ensures batch <= due && |batch| <= limit && (|batch| == limit || batch == due)
      ensures forall k, l :: k in batch && l in due - batch ==> NoLater(Rows(), rank, k, l)
    {
      hide NoLater;
      batch := {};
      var left := due;
      while left != {} && |batch| < limit
        invariant left <= due && batch == due - left && |batch| <= limit
        invariant forall k, l :: k in batch && l in left ==> NoLater(Rows(), rank, k, l)
        decreases |left|
      {
        var k := OldestOf(left, rank);
        batch, left := batch + {k}, left - {k};
      }
      assert due - batch == left;
      if left == {} { assert batch == due; }
    }

    method OldestOf(keys: set<DispatchKey>, rank: DispatchKey -> int) returns (k: DispatchKey)
      requires keys != {} && keys <= dispatches.Keys
      ensures k in keys && forall l :: l in keys ==> NoLater(Rows(), rank, k, l)
    {
      hide NoLater;
      k :| k in keys;
      NoLaterItself(Rows(), rank, k);
      var left := keys - {k};
      while left != {}
        invariant left <= keys && k in keys
        invariant forall l :: l in keys - left ==> NoLater(Rows(), rank, k, l)
        decreases |left|
      {
        var l :| l in left;
        if !NoLater(Rows(), rank, k, l) {
          NoLaterTotal(Rows(), rank, k, l);
          k := l;
        }
        left := left - {l};
      }
    }

    method ConfirmDispatch(k: DispatchKey, publisher: string, now: int) returns (answer: Answer)
      modifies this`dispatches
      ensures Commit(Rows(), answer) == RuntimeTransitions.ConfirmDispatch(old(Rows()), k, publisher, now)
    {
      if !PublishLeaseHeld(Rows(), k, publisher) { return Refused(DISPATCH_PUBLISH_LEASE_LOST); }
      dispatches := dispatches[k := dispatches[k].(state := PUBLISHED, confirmedAt := Some(now), publishOwner := None,
          publishLeaseUntil := None)];
      return Done;
    }

    method FailDispatch(k: DispatchKey, publisher: string, retryAt: int) returns (answer: Answer)
      modifies this`dispatches
      ensures Commit(Rows(), answer) == RuntimeTransitions.FailDispatch(old(Rows()), k, publisher, retryAt)
    {
      if !PublishLeaseHeld(Rows(), k, publisher) { return Refused(DISPATCH_PUBLISH_LEASE_LOST); }
      dispatches := dispatches[k := dispatches[k].(state := DISPATCH_PENDING, availableAt := retryAt,
          publishOwner := None, publishLeaseUntil := None)];
      return Done;
    }

    method DeferPublishedDispatch(t: TaskId, version: nat, retryAt: int) returns (answer: Answer)
      modifies this`dispatches
      ensures Commit(Rows(), answer) == RuntimeTransitions.DeferPublishedDispatch(old(Rows()), t, version, retryAt)
    {
      var k := DispatchKey(t, version);
      if !(k in dispatches && dispatches[k].state == PUBLISHED && Current(Rows(), k)) { return Null; }
      dispatches := dispatches[k := dispatches[k].(state := DISPATCH_PENDING, availableAt := retryAt,
          publishOwner := None, publishLeaseUntil := None)];
      return Done;
    }

    method ReconcileDispatch(now: int, republishAfterMs: Option<int>) returns (answer: Answer)
      modifies this`tasks, this`dispatches
      ensures Commit(Rows(), answer) == Reconcile(old(Rows()), now, republishAfterMs)
    {
      hide ExpirePublishing, Republish, Enqueue, Overdue;
      ReopenExpired(now);
      if republishAfterMs.Some? && republishAfterMs.value > 0 {
        ReopenOverdue(now, republishAfterMs.value);
      }
      EnqueueRows(Undispatched(Rows(), now), 0);
      return Done;
    }

    method ReopenOverdue(now: int, republishAfterMs: int)
      modifies this`dispatches
      ensures Rows() == Republish(old(Rows()), now, republishAfterMs)
    {
      hide Overdue;
      var overdue := set k | k in dispatches && Overdue(Rows(), k, now, republishAfterMs);
      dispatches := map k | k in dispatches ::
          if k in overdue then Reopened(dispatches[k]).(availableAt := now) else dispatches[k];
    }
  }

  // ---------------------------------------------------------------------------------------------
  // Loop steps
  // ---------------------------------------------------------------------------------------------

  lemma EnqueuedIds(db: Db, ps: set<TaskId>, at: int)
    ensures Enqueue(db, ps, at).tasks.Keys == db.tasks.Keys
  {
    hide EnqueuedRows;
  }

  lemma SameWaiting(db: Db, next: Db, r: RunId)
    requires next.tasks == db.tasks && next.effects == db.effects
    ensures Waiting(next, r, true) == Waiting(db, r, true)
        && Waiting(next, r, false) == Waiting(db, r, false) <= db.tasks.Keys
  {
  }

  lemma DoubtedIds(tasks: map<TaskId, Task>, ps: set<TaskId>)
    ensures DoubtedTasks(tasks, ps).Keys == tasks.Keys
  {
  }

  lemma StoppedIds(tasks: map<TaskId, Task>, ps: set<TaskId>, s: TaskState)
    ensures StoppedTasks(tasks, ps, s).Keys == tasks.Keys && forall t ::
        t in tasks ==> StoppedTasks(tasks, ps, s)[t].run == tasks[t].run
  {
  }

  lemma StoppedRow(tasks: map<TaskId, Task>, t: TaskId, s: TaskState)
    requires t in tasks
    ensures StoppedTasks(tasks, {t}, s) == tasks[t := Stopped(tasks[t], s, 0)]
  {
  }

  lemma NothingReleased(tasks: map<TaskId, Task>)
    ensures ReleasedTasks(tasks, {}) == tasks
  {
  }

  lemma ReleasedRow(tasks: map<TaskId, Task>, t: TaskId, moved: map<TaskId, Task>)
    requires t in tasks && t in moved
    requires moved == tasks[t := Released(tasks[t]).(state := RUNNABLE, revision := tasks[t].revision + 1,
        availableAt := moved[t].availableAt)]
    ensures MovedTasks(ReleasedTasks(tasks, {t}), moved, {t})
  {
  }

  lemma RetriedRow(tasks: map<TaskId, Task>, t: TaskId, moved: map<TaskId, Task>)
    requires t in tasks && t in moved
    requires moved == tasks[t := Released(tasks[t]).(state := RUNNABLE, revision := tasks[t].revision + 1,
        availableAt := moved[t].availableAt, retriesScheduled := tasks[t].retriesScheduled + 1)]
    ensures MovedTasks(RetryCounted(tasks, t), moved, {t})
  {
  }

  /** The verdict is recorded in other tables than the task's move. */
  lemma RecordFrame(db: Db, next: Db, c: Credential, v: Verdict)
    requires next == db.(tasks := next.tasks)
    ensures RecordVerdict(next, c, v) == RecordVerdict(db, c, v).(tasks := next.tasks)
  {
    hide SetAttemptState;
    SetAttemptFrame(db, next, c.attempt, AttemptVerdict(v));
  }

  lemma SetAttemptFrame(db: Db, next: Db, a: AttemptId, s: AttemptState)
    requires next == db.(tasks := next.tasks)
    ensures SetAttemptState(next, a, s) == SetAttemptState(db, a, s).(tasks := next.tasks)
  {
    var once, twice := SetAttemptState(next, a, s), SetAttemptState(db, a, s).(tasks := next.tasks);
    assert once.attempts == twice.attempts;
  }

  lemma NotifiedIds(db: Db)
    ensures NotifiedEnough(db) <= db.tasks.Keys
  {
    hide Published;
  }

  lemma StaleIds(db: Db, now: int)
    ensures Stale(db, now) <= db.tasks.Keys
  {
  }

  lemma NoRuns(db: Db)
    ensures RunsOf(db, {}) == {}
  {
  }

  lemma RunsOneMore(db: Db, ps: set<TaskId>, t: TaskId)
    requires t in db.tasks
    ensures RunsOf(db, ps + {t}) == RunsOf(db, ps) + {db.tasks[t].run}
  {
  }

  lemma RecoveredIds(db: Db, ps: set<TaskId>)
    requires ps <= db.tasks.Keys
    ensures RecoverTasks(db, ps).tasks.Keys == db.tasks.Keys
  {
    hide WakeRows, ClosedAttempts;
  }

  lemma PublishableRows(db: Db, now: int)
    ensures Publishable(db, now) <= db.dispatches.Keys
  {
  }
}
