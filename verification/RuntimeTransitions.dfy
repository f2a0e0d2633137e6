/** What each repository method commits: one function from the database before the transaction to
    the database after it and the method's answer. A refused transaction leaves the database alone. */
module RuntimeTransitions {
  import opened Wrappers
  import opened RuntimeState
  import opened PlanRegistry

  datatype Code =
    | STALE_LEASE_TOKEN
    | TASK_NOT_FOUND
    | TASK_DEFER_DELAY_INVALID
    | PLAN_REJECTED
    | CONSTRAINT_VIOLATED
    | RABBIT_RUN_CONCURRENCY_LIMIT
    | RABBIT_POOL_CONCURRENCY_LIMIT
    | RABBIT_DEPENDENCY_NOT_READY
    | RABBIT_TASK_NOT_YET_AVAILABLE
    | RABBIT_TASK_ROUTE_MISMATCH
    | FANOUT_COORDINATOR_NOT_RUNNING
    | FANOUT_PLAN_VERSION_STALE
    | FANOUT_JOIN_SCOPE_INVALID
    | FANOUT_DESCRIPTOR_STALE
    | FANOUT_SHARD_ROUTE_INVALID
    | FANOUT_SHARD_DEPENDENCY_UNKNOWN
    | FANOUT_NOT_COMPLETE
    | FANOUT_GROUP_NOT_FOUND
    | FANOUT_MEMBERSHIP_INCOMPLETE
    | FANOUT_REQUIRED_SHARD_FAILED
    | FANOUT_REQUIRED_SHARD_NOT_TERMINAL
    | STALE_ESCALATION_VERSION
    | NEW_IMMUTABLE_VERSION_REQUIRED
    | DISPATCH_PUBLISH_LEASE_LOST
    | DISPATCH_CLAIM_INVALID

  datatype Answer = Done | Null | Refused(code: Code)

  datatype Commit = Commit(db: Db, answer: Answer)

  /** What a worker was given by a claim, and quotes in every later command. */
  datatype Credential = Credential(task: TaskId, attempt: AttemptId, worker: Worker, token: nat)

  datatype Verdict = Success | Failure(transient: bool) | Unknown

  /** One shard of a descriptor; `reusable` is the answer of the recovery-artifact lookup. */
  datatype ShardSpec = ShardSpec(tool: Tool, required: bool, dependsOn: set<string>, reusable: bool)

  datatype Descriptor = Descriptor(run: RunId, planVersion: nat, groupKey: string, fingerprint: int, shards: map<string,
      ShardSpec>)

  // ---------------------------------------------------------------------------------------------
  // Row updates shared by the transactions
  // ---------------------------------------------------------------------------------------------

  function Woken(x: Task, at: int): Task {
    x.(state := RUNNABLE, revision := x.revision + 1, availableAt := at, routingClass := x.tool.routingClass)
  }

  function NewDispatch(x: Task, at: int): Dispatch {
    Dispatch(DISPATCH_PENDING, x.tool.routingClass, at, None, None, 0, None)
  }

  function WokenTasks(tasks: map<TaskId, Task>, ps: set<TaskId>, at: int): map<TaskId, Task> {
    map t | t in tasks :: if t in ps then Woken(tasks[t], at) else tasks[t]
  }

  function WakeRows(tasks: map<TaskId, Task>, ps: set<TaskId>, at: int): map<DispatchKey, Dispatch>
    requires ps <= tasks.Keys
  {
    map t | t in ps :: DispatchKey(t, tasks[t].revision + 1) := NewDispatch(tasks[t], at)
  }

  /** Moves the tasks `ps` to RUNNABLE and enqueues one dispatch row for each at its new revision;
      an existing row with the same key is kept. */
  function Wake(db: Db, ps: set<TaskId>, at: int): (next: Db)
    requires ps <= db.tasks.Keys
    ensures next == db.(tasks := WokenTasks(db.tasks, ps, at), dispatches := WakeRows(db.tasks, ps, at) + db.dispatches)
  {
    db.(tasks := WokenTasks(db.tasks, ps, at), dispatches := WakeRows(db.tasks, ps, at) + db.dispatches)
  }

  function Released(x: Task): Task {
    x.(leaseOwner := None, leaseExpiresAt := None)
  }

  function ReleasedTasks(tasks: map<TaskId, Task>, ps: set<TaskId>): map<TaskId, Task> {
    map t | t in tasks :: if t in ps then Released(tasks[t]) else tasks[t]
  }

  function Stopped(x: Task, s: TaskState, at: int): Task {
    x.(state := s, revision := x.revision + 1, leaseOwner := None, leaseExpiresAt := None, availableAt := at)
  }

  function StoppedTasks(tasks: map<TaskId, Task>, ps: set<TaskId>, s: TaskState): map<TaskId, Task> {
    map t | t in tasks :: if t in ps then Stopped(tasks[t], s, 0) else tasks[t]
  }

  /** Moves the tasks `ps` to a state other than RUNNABLE and clears their leases. */
  function Stop(db: Db, ps: set<TaskId>, s: TaskState): (next: Db)
    ensures next == db.(tasks := StoppedTasks(db.tasks, ps, s))
  {
    db.(tasks := StoppedTasks(db.tasks, ps, s))
  }

  function SetRunState(db: Db, r: RunId, from: RunState, to: RunState): (next: Db)
    ensures next == db.(runs := next.runs)
  {
    if RunIs(db, r, from) then db.(runs := db.runs[r := db.runs[r].(state := to)]) else db
  }

  function SetAttemptState(db: Db, a: AttemptId, s: AttemptState): (next: Db)
    ensures next == db.(attempts := next.attempts)
  {
    if a in db.attempts then db.(attempts := db.attempts[a := db.attempts[a].(state := s)]) else db
  }

  /** The pending tasks of the runs `rs` that nothing holds back. */
  function Promotable(db: Db, rs: set<RunId>): set<TaskId> {
    set t | t in db.tasks && db.tasks[t].run in rs && db.tasks[t].state == PENDING && Eligible(db, t)
  }

  function Promote(db: Db, rs: set<RunId>): (next: Db)
    ensures next == db.(tasks := next.tasks, dispatches := next.dispatches)
  {
    Wake(db, Promotable(db, rs), 0)
  }

  function FailGroup(db: Db, g: GroupId): (next: Db)
    ensures next == db.(groups := next.groups)
  {
    if g in db.groups && db.groups[g].state in {PLANNED, GROUP_RUNNING}
    then db.(groups := db.groups[g := db.groups[g].(state := GROUP_FAILED)])
    else db
  }

  function CompleteRun(db: Db, r: RunId): (next: Db)
    ensures next == db.(runs := next.runs)
  {
    if AllSucceeded(db, r) then SetRunState(db, r, ACTIVE, RUN_SUCCEEDED) else db
  }

  // ---------------------------------------------------------------------------------------------
  // createGoal
  // ---------------------------------------------------------------------------------------------

  /** How many leading plan tasks a recovery run reuses: the source task succeeded and left an
      artifact of the expected schema. */
  function ReusedCount(db: Db, source: RunId, plan: seq<PlanTask>, artifacts: set<string>): (n: nat)
    ensures n <= |plan|
  {
    if plan == [] || !ReusableTask(db, source, plan[0].key, artifacts) then 0
    else 1 + ReusedCount(db, source, plan[1..], artifacts)
  }

  predicate ReusableTask(db: Db, source: RunId, key: string, artifacts: set<string>) {
    && Planned(source, key) in db.tasks
    && db.tasks[Planned(source, key)].state == SUCCEEDED
    && key in artifacts
  }

  /** The source run of a recovery: the last run of the goal, if it failed under the same plan. */
  function RecoverySource(db: Db, plan: seq<PlanTask>, last: Option<RunId>): Option<RunId> {
    if last.Some? && RunIs(db, last.value, RUN_FAILED) && db.runs[last.value].plan == plan then last else None
  }

  function InitialState(plan: seq<PlanTask>, i: nat, reused: Option<nat>): TaskState
    requires i < |plan|
  {
    match reused
    case Some(n) => if i < n then SUCCEEDED else if i == n then RUNNABLE else PENDING
    case None => if plan[i].dependencies == [] then RUNNABLE else PENDING
  }

  function InitialTask(r: RunId, plan: seq<PlanTask>, i: nat, reused: Option<nat>): Task
    requires i < |plan|
  {
    Task(r, plan[i].tool, InitialState(plan, i, reused), 1, 0, None, 0, None, plan[i].tool.routingClass, 0, None,
          set d | d in plan[i].dependencies :: Planned(r, d), 0)
  }

  /** The schema's keys on the dependency table: a dependency row names a task inserted before it,
      and no dependency is listed twice. */
  predicate InsertableDependencies(plan: seq<PlanTask>) {
    forall i, p :: 0 <= i < |plan| && 0 <= p < |plan[i].dependencies| ==>
      && (exists j :: 0 <= j < i && plan[j].key == plan[i].dependencies[p])
      && plan[i].dependencies[p] !in plan[i].dependencies[..p]
  }

  function CreateRun(db: Db, r: RunId, plan: seq<PlanTask>, limit: int, last: Option<RunId>,
      artifacts: set<string>): Commit {
    if r in db.runs then Commit(db, Null)
    else if !ValidPlan(plan) then Commit(db, Refused(PLAN_REJECTED))
    else if limit <= 0 || !InsertableDependencies(plan) then Commit(db, Refused(CONSTRAINT_VIOLATED))
    else
      var source := RecoverySource(db, plan, last);
      var reused := if source.Some? then Some(ReusedCount(db, source.value, plan, artifacts)) else None;
      Commit(InsertPlan(db.(runs := db.runs[r := Run(ACTIVE, 0, limit, 1, plan)]), r, plan, reused, |plan|), Done)
  }

  function PlanIds(r: RunId, plan: seq<PlanTask>, n: nat): set<TaskId>
    requires n <= |plan|
  {
    set i | 0 <= i < n :: Planned(r, plan[i].key)
  }

  function PlanTaskRow(r: RunId, plan: seq<PlanTask>, reused: Option<nat>, t: TaskId): Task
    requires UniqueKeys(plan) && t in PlanIds(r, plan, |plan|)
  {
    InitialTask(r, plan, Position(plan, t.key), reused)
  }

  function PlanTasks(r: RunId, plan: seq<PlanTask>, reused: Option<nat>, n: nat): (rows: map<TaskId, Task>)
    requires n <= |plan| && UniqueKeys(plan)
    ensures rows.Keys == PlanIds(r, plan, n)
  {
    assert PlanIds(r, plan, n) <= PlanIds(r, plan, |plan|);
    map t | t in PlanIds(r, plan, n) :: PlanTaskRow(r, plan, reused, t)
  }

  function PlanRows(r: RunId, plan: seq<PlanTask>, reused: Option<nat>, n: nat): map<DispatchKey, Dispatch>
    requires n <= |plan| && UniqueKeys(plan)
  {
    var rows := PlanTasks(r, plan, reused, n);
    map t | t in rows && rows[t].state == RUNNABLE :: DispatchKey(t, 1) := NewDispatch(rows[t], 0)
  }

  /** The rows of the first `n` plan tasks, with a dispatch row for each that starts RUNNABLE. */
  function InsertPlan(db: Db, r: RunId, plan: seq<PlanTask>, reused: Option<nat>, n: nat): (next: Db)
    requires n <= |plan| && UniqueKeys(plan)
    ensures next == db.(tasks := next.tasks, dispatches := next.dispatches)
  {
    db.(tasks := db.tasks + PlanTasks(r, plan, reused, n), dispatches := PlanRows(r, plan, reused, n) + db.dispatches)
  }

  // ---------------------------------------------------------------------------------------------
  // Fan-out groups
  // ---------------------------------------------------------------------------------------------

  function GroupOf(d: Descriptor): GroupId {
    GroupId(d.run, d.groupKey, d.fingerprint)
  }

  function ShardTask(d: Descriptor, coordinator: TaskId, identity: string): Task
    requires identity in d.shards
  {
    var spec := d.shards[identity];
    Task(d.run, spec.tool, if spec.reusable then SUCCEEDED else PENDING, 1, 0, None, 0, None, spec.tool.routingClass, 0,
          Some(GroupOf(d)), {coordinator} + set e | e in spec.dependsOn :: Shard(GroupOf(d), e), 0)
  }

  function ShardIds(d: Descriptor): set<TaskId> {
    set identity | identity in d.shards :: Shard(GroupOf(d), identity)
  }

  predicate CoordinatorRunning(db: Db, coordinator: TaskId, r: RunId) {
    && coordinator in db.tasks
    && RunIs(db, db.tasks[coordinator].run, ACTIVE)
    && db.tasks[coordinator].state == RUNNING
    && db.tasks[coordinator].run == r
  }

  predicate JoinInScope(db: Db, join: TaskId, r: RunId) {
    && join in db.tasks
    && db.tasks[join].run == r
    && db.tasks[join].state in {PENDING, RUNNABLE}
  }

  predicate ShardsInsertable(d: Descriptor) {
    forall i :: i in d.shards ==> d.shards[i].dependsOn <= d.shards.Keys && i !in d.shards[i].dependsOn
  }

  function MaterializeFanout(db: Db, coordinator: TaskId, join: TaskId, d: Descriptor): Commit {
    var g := GroupOf(d);
    if !CoordinatorRunning(db, coordinator, d.run) then Commit(db, Refused(FANOUT_COORDINATOR_NOT_RUNNING))
    else if db.runs[d.run].planVersion != d.planVersion then Commit(db, Refused(FANOUT_PLAN_VERSION_STALE))
    else if !JoinInScope(db, join, d.run) then Commit(db, Refused(FANOUT_JOIN_SCOPE_INVALID))
    else if exists h :: h in db.groups && h.run == d.run && h.groupKey == d.groupKey then
      if g in db.groups && db.groups[g].expectedCount == |d.shards| then Commit(db, Done)
      else Commit(db, Refused(FANOUT_DESCRIPTOR_STALE))
    else if exists i ::
          i in d.shards && d.shards[i].tool.routingClass == Control then Commit(db, Refused(FANOUT_SHARD_ROUTE_INVALID))
    else if !ShardsInsertable(d) then Commit(db, Refused(FANOUT_SHARD_DEPENDENCY_UNKNOWN))
    else Commit(InsertGroup(db, coordinator, join, d), Done)
  }

  function ShardTasks(d: Descriptor, coordinator: TaskId): map<TaskId, Task> {
    map i | i in d.shards :: Shard(GroupOf(d), i) := ShardTask(d, coordinator, i)
  }

  function Members(d: Descriptor): map<TaskId, bool> {
    map i | i in d.shards :: Shard(GroupOf(d), i) := d.shards[i].required
  }

  function NewGroup(d: Descriptor, join: TaskId): Group {
    Group(d.run, join, PLANNED, |d.shards|, Members(d))
  }

  /** The join depends on every shard as well. */
  function WidenedJoin(tasks: map<TaskId, Task>, join: TaskId, d: Descriptor): map<TaskId, Task>
    requires join in tasks
  {
    tasks[join := tasks[join].(dependsOn := tasks[join].dependsOn + ShardIds(d))]
  }

  /** A new group with one task, one membership and one dependency of the join for each shard. A task
      that already has a shard's id is kept. */
  function InsertGroup(db: Db, coordinator: TaskId, join: TaskId, d: Descriptor): (next: Db)
    requires join in db.tasks
    ensures next == db.(tasks := next.tasks, groups := next.groups)
  {
    db.(groups := db.groups[GroupOf(d) := NewGroup(d, join)],
        tasks := ShardTasks(d, coordinator) + WidenedJoin(db.tasks, join, d))
  }

  /** The states the join's tool is told by `readFanout`, as far as they decide its answer. */
  function ReadFanout(db: Db, join: TaskId, g: GroupId): Answer {
    if !(g in db.groups && db.groups[g].join == join) then Refused(FANOUT_GROUP_NOT_FOUND)
    else if |db.groups[g].members| != db.groups[g].expectedCount then Refused(FANOUT_MEMBERSHIP_INCOMPLETE)
    else if exists m ::
          m in Required(db, g) && db.tasks[m].state in {FAILED, CANCELLED, UNKNOWN_OUTCOME}
          then Refused(FANOUT_REQUIRED_SHARD_FAILED)
    else if exists m ::
          m in Required(db, g) && db.tasks[m].state != SUCCEEDED then Refused(FANOUT_REQUIRED_SHARD_NOT_TERMINAL)
    else Done
  }

  /** The required shards of a group. */
  function Required(db: Db, g: GroupId): set<TaskId>
    requires g in db.groups
  {
    set m | m in db.groups[g].members && m in db.tasks && db.groups[g].members[m]
  }

  function CompleteFanout(db: Db, g: GroupId): Commit {
    if g !in db.groups || exists m :: m in Required(db, g) && db.tasks[m].state != SUCCEEDED
    then Commit(db, Refused(FANOUT_NOT_COMPLETE))
    else Commit(db.(groups := db.groups[g := db.groups[g].(state := GROUP_SUCCEEDED)]), Done)
  }

  // ---------------------------------------------------------------------------------------------
  // Claims
  // ---------------------------------------------------------------------------------------------

  predicate Startable(db: Db, t: TaskId, now: int) {
    && t in db.tasks
    && db.tasks[t].state == RUNNABLE
    && RunIs(db, db.tasks[t].run, ACTIVE)
    && db.tasks[t].availableAt <= now
    && (if db.tasks[t].leaseExpiresAt.Some? then db.tasks[t].leaseExpiresAt.value else 0) <= now
    && Eligible(db, t)
    && BudgetLeft(db, db.tasks[t].run)
  }

  function Started(x: Task, worker: Worker, until: int): Task {
    x.(state := RUNNING, revision := x.revision + 1, attemptCount := x.attemptCount + 1,
        leaseOwner := Some(worker), leaseToken := x.leaseToken + 1, leaseExpiresAt := Some(until))
  }

  function StartAttempt(db: Db, t: TaskId, worker: Worker, until: int, a: AttemptId): (next: Db)
    requires t in db.tasks && db.tasks[t].run in db.runs
    ensures next == db.(tasks := next.tasks, runs := next.runs, attempts := next.attempts)
  {
    var x := db.tasks[t];
    var run := db.runs[x.run];
    db.(tasks := db.tasks[t := Started(x, worker, until)],
        runs := db.runs[x.run := run.(attemptsUsed := run.attemptsUsed + 1)],
        attempts := db.attempts[a := Attempt(t, x.attemptCount + 1, worker, x.leaseToken + 1, ATTEMPT_RUNNING,
            x.revision)])
  }

  /** The polling claim: `t` is the task the query picked, if any is startable. */
  function Claim(db: Db, t: TaskId, worker: Worker, now: int, leaseMs: int, a: AttemptId): Commit {
    if !Startable(db, t, now) then Commit(db, Null)
    else if a in db.attempts then Commit(db, Refused(CONSTRAINT_VIOLATED))
    else Commit(StartAttempt(db, t, worker, now + leaseMs, a), Done)
  }

  datatype Limits = Limits(maxPerRun: nat, maxActivePool: nat)

  predicate AtVersion(db: Db, t: TaskId, version: nat, route: RoutingClass) {
    && t in db.tasks
    && db.tasks[t].state == RUNNABLE
    && db.tasks[t].revision == version
    && db.tasks[t].routingClass == route
  }

  predicate PoolFull(db: Db, route: RoutingClass, limits: Limits) {
    |RunningPool(db, route)| >= limits.maxActivePool
  }

  predicate RunFull(db: Db, r: RunId, route: RoutingClass, limits: Limits) {
    |RunningIn(db, r, route)| >= limits.maxPerRun
  }

  predicate DependencyBlocked(db: Db, t: TaskId)
    requires t in db.tasks
  {
    exists d :: d in db.tasks[t].dependsOn && d in db.tasks && Blocks(db, t, d)
  }

  function ClaimById(db: Db, t: TaskId, version: nat, route: RoutingClass, worker: Worker, now: int, leaseMs: int,
      limits: Limits, a: AttemptId): Commit {
    if AtVersion(db, t, version, route) && Startable(db, t, now) && !RunFull(db, db.tasks[t].run, route, limits)
        && !PoolFull(db, route, limits) then
      if db.tasks[t].tool.routingClass != route then Commit(db, Refused(RABBIT_TASK_ROUTE_MISMATCH))
      else if a in db.attempts then Commit(db, Refused(CONSTRAINT_VIOLATED))
      else
        var started := StartAttempt(db, t, worker, now + leaseMs, a);
        Commit(if db.tasks[t].group.Some? then StartGroup(started, db.tasks[t].group.value) else started, Done)
    else if !(AtVersion(db, t, version, route) && RunIs(db, db.tasks[t].run, ACTIVE)) then Commit(db, Null)
    else if RunFull(db, db.tasks[t].run, route, limits) then Commit(db, Refused(RABBIT_RUN_CONCURRENCY_LIMIT))
    else if PoolFull(db, route, limits) then Commit(db, Refused(RABBIT_POOL_CONCURRENCY_LIMIT))
    else if DependencyBlocked(db, t) then Commit(db, Refused(RABBIT_DEPENDENCY_NOT_READY))
    else if db.tasks[t].availableAt > now then Commit(db, Refused(RABBIT_TASK_NOT_YET_AVAILABLE))
    else Commit(db, Null)
  }

  function StartGroup(db: Db, g: GroupId): (next: Db)
    ensures next == db.(groups := next.groups)
  {
    if g in db.groups && db.groups[g].state == PLANNED
    then db.(groups := db.groups[g := db.groups[g].(state := GROUP_RUNNING)])
    else db
  }

  // ---------------------------------------------------------------------------------------------
  // A worker's commands
  // ---------------------------------------------------------------------------------------------

  predicate HoldsLease(db: Db, c: Credential) {
    && c.task in db.tasks
    && db.tasks[c.task].state == RUNNING
    && db.tasks[c.task].leaseOwner == Some(c.worker)
    && db.tasks[c.task].leaseToken == c.token
  }

  predicate AttemptOpen(db: Db, c: Credential) {
    && c.attempt in db.attempts
    && db.attempts[c.attempt].owner == c.worker
    && db.attempts[c.attempt].token == c.token
    && db.attempts[c.attempt].state == ATTEMPT_RUNNING
  }

  function Heartbeat(db: Db, c: Credential, now: int, leaseMs: int): Commit {
    if !HoldsLease(db, c) then Commit(db, Refused(STALE_LEASE_TOKEN))
    else
      var x := db.tasks[c.task];
      Commit(db.(tasks := db.tasks[c.task := x.(leaseExpiresAt := Some(now + leaseMs), revision := x.revision + 1)]),
          Done)
  }

  /** The escalation of a human wait, whose one action changes no input. */
  function Asked(r: RunId, obstacle: string): Escalation {
    Escalation(r, true, obstacle, false)
  }

  /** The run has an open escalation with this obstacle. */
  predicate AsksAlready(db: Db, r: RunId, obstacle: string) {
    exists f ::
      f in db.escalations && db.escalations[f].run == r && db.escalations[f].open
          && db.escalations[f].obstacle == obstacle
  }

  function WaitForHuman(db: Db, c: Credential, obstacle: string, e: EscalationId): Commit {
    if !HoldsLease(db, c) then Commit(db, Refused(STALE_LEASE_TOKEN))
    else
      var r := db.tasks[c.task].run;
      if AsksAlready(db, r, obstacle) then Commit(db, Null)
      else if e in db.escalations then Commit(db, Refused(CONSTRAINT_VIOLATED))
      else
        var suspended := Suspend(db, c).(escalations := db.escalations[e := Asked(r, obstacle)]);
        Commit(SetRunState(suspended, r, ACTIVE, WAITING_FOR_HUMAN), Done)
  }

  function Suspend(db: Db, c: Credential): (next: Db)
    requires c.task in db.tasks
    ensures next == db.(tasks := next.tasks, attempts := next.attempts)
  {
    var x := db.tasks[c.task];
    SetAttemptState(db.(tasks := db.tasks[c.task := Stopped(x, WAITING, x.availableAt)]), c.attempt, ATTEMPT_WAITING)
  }

  function Waiting(db: Db, r: RunId, unknown: bool): set<TaskId> {
    set t | t in db.tasks && db.tasks[t].run == r && db.tasks[t].state == WAITING && EffectUnknown(db, t) == unknown
  }

  function CloseEscalation(db: Db, e: EscalationId): (next: Db)
    requires e in db.escalations
    ensures next == db.(escalations := next.escalations)
  {
    db.(escalations := db.escalations[e := db.escalations[e].(open := false)])
  }

  /** `runUnchanged`: the run row still has the revision read before the transaction. */
  function ResumeRun(db: Db, e: EscalationId, runUnchanged: bool): Commit {
    if !(e in db.escalations && db.escalations[e].open) then Commit(db, Null)
    else
      var r := db.escalations[e].run;
      var closed := CloseEscalation(db, e);
      var active := if runUnchanged then SetRunState(closed, r, WAITING_FOR_HUMAN, ACTIVE) else closed;
      Commit(Wake(Doubt(active, Waiting(db, r, true)), Waiting(db, r, false), 0), Done)
  }

  function DoubtedTasks(tasks: map<TaskId, Task>, ps: set<TaskId>): map<TaskId, Task> {
    map t | t in tasks ::
        if t in ps then tasks[t].(state := UNKNOWN_OUTCOME, revision := tasks[t].revision + 1) else tasks[t]
  }

  /** Waiting tasks whose external effect has an unknown outcome. */
  function Doubt(db: Db, ps: set<TaskId>): (next: Db)
    ensures next == db.(tasks := next.tasks)
  {
    db.(tasks := DoubtedTasks(db.tasks, ps))
  }

  /** A human resolves an escalation. If its action changes the immutable inputs, a new version supersedes the
      run by a run without a plan and without a budget; else the run goes on, whatever is given. */
  function ResolveEscalation(db: Db, e: EscalationId, successor: Option<RunId>): Commit {
    if !(e in db.escalations && db.escalations[e].open) then Commit(db, Refused(STALE_ESCALATION_VERSION))
    else if !db.escalations[e].changesInputs then Commit(Reactivate(db, e), Done)
    else if successor == None then Commit(db, Refused(NEW_IMMUTABLE_VERSION_REQUIRED))
    else if successor.value in db.runs then Commit(db, Refused(CONSTRAINT_VIOLATED))
    else Commit(Supersede(db, e, successor.value), Done)
  }

  function Reactivate(db: Db, e: EscalationId): (next: Db)
    requires e in db.escalations
    ensures next == db.(runs := next.runs, escalations := next.escalations)
  {
    SetRunState(CloseEscalation(db, e), db.escalations[e].run, WAITING_FOR_HUMAN, ACTIVE)
  }

  function Supersede(db: Db, e: EscalationId, n: RunId): (next: Db)
    requires e in db.escalations
    ensures next == db.(runs := next.runs, escalations := next.escalations)
  {
    var superseded := SetRunState(CloseEscalation(db, e), db.escalations[e].run, WAITING_FOR_HUMAN, SUPERSEDED);
    superseded.(runs := superseded.runs[n := Run(ACTIVE, 0, 0, 1, [])])
  }

  /** The resolution supersedes the run by another. */
  predicate Supersedes(db: Db, e: EscalationId, successor: Option<RunId>) {
    && e in db.escalations && db.escalations[e].open && db.escalations[e].changesInputs
    && successor.Some? && successor.value !in db.runs
  }

  function Refund(db: Db, r: RunId): (next: Db)
    ensures next == db.(runs := next.runs)
  {
    if r in db.runs
    then db.(runs := db.runs[r := db.runs[r].(attemptsUsed := if db.runs[r].attemptsUsed > 0
          then db.runs[r].attemptsUsed - 1 else 0)])
    else db
  }

  function Defer(db: Db, c: Credential, now: int, retryAfterMs: int): Commit {
    if !(1_000 <= retryAfterMs <= 300_000) then Commit(db, Refused(TASK_DEFER_DELAY_INVALID))
    else if !HoldsLease(db, c) || !AttemptOpen(db, c) || db.attempts[c.attempt].task != c.task
          then Commit(db, Refused(STALE_LEASE_TOKEN))
    else
      Commit(HandBack(db, c, now + retryAfterMs), Done)
  }

  /** The attempt is not charged and the task is dispatched again, not before `at`. */
  function HandBack(db: Db, c: Credential, at: int): (next: Db)
    requires c.task in db.tasks
    ensures next == db.(tasks := next.tasks, dispatches := next.dispatches, attempts := next.attempts,
        runs := next.runs)
  {
    var deferred := SetAttemptState(db.(tasks := ReleasedTasks(db.tasks, {c.task})), c.attempt, DEFERRED);
    Wake(Refund(deferred, db.tasks[c.task].run), {c.task}, at)
  }

  // ---------------------------------------------------------------------------------------------
  // Outcomes
  // ---------------------------------------------------------------------------------------------

  const BACKOFF_MS: seq<int> := [5_000, 15_000, 45_000]

  datatype Policy = Policy(retry: bool, delayMs: int)

  /** Whether the `failures`-th failure of a task is retried, and after how long. */
  function TaskFailurePolicy(tool: Tool, transient: bool, failures: nat): Policy {
    var retry := transient && failures < tool.maxAttempts;
    var step := if failures < 1 then 0 else if failures - 1 < |BACKOFF_MS| then failures - 1 else |BACKOFF_MS| - 1;
    Policy(retry, if retry then BACKOFF_MS[step] else 0)
  }

  function AttemptVerdict(v: Verdict): AttemptState {
    match v
    case Success => ATTEMPT_SUCCEEDED
    case Failure(_) => ATTEMPT_FAILED
    case Unknown => ATTEMPT_UNKNOWN
  }

  function EffectVerdict(v: Verdict): EffectState {
    match v
    case Success => SENT
    case Failure(_) => EFFECT_FAILED
    case Unknown => EFFECT_UNKNOWN
  }

  function RecordVerdict(db: Db, c: Credential, v: Verdict): (next: Db)
    ensures next == db.(attempts := next.attempts, effects := next.effects)
  {
    var recorded := SetAttemptState(db, c.attempt, AttemptVerdict(v));
    if c.task in db.effects then recorded.(effects := db.effects[c.task := EffectVerdict(v)]) else recorded
  }

  /** The attempt ends with the verdict and the task stops in state `s`. */
  function Finish(db: Db, c: Credential, v: Verdict, s: TaskState): (next: Db)
    ensures next == db.(tasks := next.tasks, attempts := next.attempts, effects := next.effects)
  {
    Stop(RecordVerdict(db, c, v), {c.task}, s)
  }

  function RetryCounted(tasks: map<TaskId, Task>, t: TaskId): map<TaskId, Task>
    requires t in tasks
  {
    tasks[t := Released(tasks[t]).(retriesScheduled := tasks[t].retriesScheduled + 1)]
  }

  /** The attempt ends with the verdict and the task is dispatched again, not before `at`. */
  function Retry(db: Db, c: Credential, v: Verdict, at: int): (next: Db)
    requires c.task in db.tasks
    ensures next == db.(tasks := next.tasks, dispatches := next.dispatches, attempts := next.attempts,
        effects := next.effects)
  {
    Wake(RecordVerdict(db, c, v).(tasks := RetryCounted(db.tasks, c.task)), {c.task}, at)
  }

  function Outcome(db: Db, c: Credential, v: Verdict, now: int): Commit {
    if c.task !in db.tasks then Commit(db, Refused(TASK_NOT_FOUND))
    else if !HoldsLease(db, c) || !AttemptOpen(db, c) then Commit(db, Refused(STALE_LEASE_TOKEN))
    else
      var x := db.tasks[c.task];
      match v
      case Success => Commit(CompleteRun(Promote(Finish(db, c, v, SUCCEEDED), {x.run}), x.run), Done)
      case Unknown => Commit(FinishBadly(db, c, v, UNKNOWN_OUTCOME), Done)
      case Failure(transient) =>
        var policy := TaskFailurePolicy(x.tool, transient, |FailedAttemptsOf(db.attempts, c.task)| + 1);
        if policy.retry then Commit(Retry(db, c, v, now + policy.delayMs), Done)
        else Commit(FinishBadly(db, c, v, FAILED), Done)
  }

  /** A shard takes its group down and wakes the join; another task's final failure fails its run. */
  function FinishBadly(db: Db, c: Credential, v: Verdict, s: TaskState): Db
    requires c.task in db.tasks
  {
    var x := db.tasks[c.task];
    var finished := Finish(db, c, v, s);
    if x.group.Some? then Promote(FailGroup(finished, x.group.value), {x.run})
    else if s == FAILED then SetRunState(finished, x.run, ACTIVE, RUN_FAILED)
    else finished
  }

  // ---------------------------------------------------------------------------------------------
  // Recovery of expired leases
  // ---------------------------------------------------------------------------------------------

  /** Notifications of unknown outcome whose run has published its report. */
  function NotifiedEnough(db: Db): set<TaskId> {
    set t | t in db.tasks && RunIs(db, db.tasks[t].run, ACTIVE) && db.tasks[t].state == UNKNOWN_OUTCOME
            && db.tasks[t].tool.kind == Telegram && Published(db, db.tasks[t].run)
  }

  predicate Published(db: Db, r: RunId) {
    exists p ::
        p in db.tasks && db.tasks[p].run == r && db.tasks[p].tool.kind == DrivePublication
        && db.tasks[p].state == SUCCEEDED
  }

  function RunsOf(db: Db, ps: set<TaskId>): set<RunId> {
    set t | t in ps && t in db.tasks :: db.tasks[t].run
  }

  function CompleteRuns(db: Db, rs: set<RunId>): (next: Db)
    ensures next == db.(runs := next.runs)
  {
    db.(runs := map r | r in db.runs ::
      if r in rs && db.runs[r].state == ACTIVE && AllSucceeded(db, r) then db.runs[r].(state := RUN_SUCCEEDED)
          else db.runs[r])
  }

  /** Tasks of active runs whose lease has expired, or whose unknown outcome left no effect row. */
  function Stale(db: Db, now: int): set<TaskId> {
    set t | t in db.tasks && RunIs(db, db.tasks[t].run, ACTIVE)
            && ((db.tasks[t].state == RUNNING && db.tasks[t].leaseExpiresAt.Some?
                && db.tasks[t].leaseExpiresAt.value <= now)
                || (db.tasks[t].state == UNKNOWN_OUTCOME && t !in db.effects))
  }

  function ClosedAttempts(db: Db, ps: set<TaskId>): map<AttemptId, Attempt> {
    map a | a in db.attempts ::
      if db.attempts[a].task in ps && db.attempts[a].state == ATTEMPT_RUNNING
      then db.attempts[a].(state := if EffectUnknown(db, db.attempts[a].task) then ATTEMPT_UNKNOWN else ATTEMPT_FAILED)
      else db.attempts[a]
  }

  function Doubtful(db: Db, ps: set<TaskId>): set<TaskId> {
    set t | t in ps && EffectUnknown(db, t)
  }

  /** Ends the attempts of the tasks `ps`: a task in doubt waits for its effect, the others run again. */
  function RecoverTasks(db: Db, ps: set<TaskId>): (next: Db)
    requires ps <= db.tasks.Keys
    ensures next == db.(tasks := next.tasks, dispatches := next.dispatches, attempts := next.attempts)
  {
    var doubtful := Doubtful(db, ps);
    var stopped := StoppedTasks(db.tasks, doubtful, UNKNOWN_OUTCOME);
    Wake(db.(tasks := ReleasedTasks(stopped, ps - doubtful), attempts := ClosedAttempts(db, ps)), ps - doubtful, 0)
  }

  /** Active runs with a failed group whose join is still pending. */
  function FailedFanoutRuns(db: Db): set<RunId> {
    set g | g in db.groups && db.groups[g].state == GROUP_FAILED && RunIs(db, db.groups[g].run, ACTIVE)
            && db.groups[g].join in db.tasks && db.tasks[db.groups[g].join].state == PENDING :: db.groups[g].run
  }

  function FinishNotifications(db: Db): (next: Db)
    ensures next == db.(tasks := next.tasks, runs := next.runs)
  {
    var done := NotifiedEnough(db);
    CompleteRuns(Stop(db, done, SUCCEEDED), RunsOf(db, done))
  }

  function RecoverStale(db: Db, now: int): Commit {
    var notified := FinishNotifications(db);
    var recovered := RecoverTasks(notified, Stale(notified, now));
    Commit(Promote(recovered, FailedFanoutRuns(recovered)), Done)
  }

  // ---------------------------------------------------------------------------------------------
  // Dispatch outbox
  // ---------------------------------------------------------------------------------------------

  predicate PublishExpired(d: Dispatch, now: int) {
    d.state == PUBLISHING && d.publishLeaseUntil.Some? && d.publishLeaseUntil.value <= now
  }

  function Reopened(d: Dispatch): Dispatch {
    d.(state := DISPATCH_PENDING, publishOwner := None, publishLeaseUntil := None)
  }

  function ExpirePublishing(db: Db, now: int): (next: Db)
    ensures next == db.(dispatches := next.dispatches)
  {
    db.(dispatches := map k | k in db.dispatches ::
        if PublishExpired(db.dispatches[k], now) then Reopened(db.dispatches[k]) else db.dispatches[k])
  }

  /** The row's task is still RUNNABLE at the row's version. */
  predicate Current(db: Db, k: DispatchKey) {
    k.task in db.tasks && db.tasks[k.task].state == RUNNABLE && db.tasks[k.task].revision == k.version
  }

  predicate CurrentInActiveRun(db: Db, k: DispatchKey) {
    Current(db, k) && RunIs(db, db.tasks[k.task].run, ACTIVE)
  }

  function Publishable(db: Db, now: int): set<DispatchKey> {
    set k | k in db.dispatches && db.dispatches[k].state == DISPATCH_PENDING && db.dispatches[k].availableAt <= now
        && CurrentInActiveRun(db, k)
  }

  /** The order in which rows are published: by availability, then by creation and id, for which `rank` stands. */
  predicate NoLater(db: Db, rank: DispatchKey -> int, k: DispatchKey, l: DispatchKey) {
    && k in db.dispatches && l in db.dispatches
    && (db.dispatches[k].availableAt < db.dispatches[l].availableAt
        || (db.dispatches[k].availableAt == db.dispatches[l].availableAt && rank(k) <= rank(l)))
  }

  /** The batch that the query returns: the first `limit` publishable rows. */
  predicate Batch(db: Db, now: int, limit: nat, rank: DispatchKey -> int, batch: set<DispatchKey>) {
    && batch <= Publishable(db, now)
    && |batch| <= limit
    && (|batch| == limit || batch == Publishable(db, now))
    && (forall k, l :: k in batch && l in Publishable(db, now) - batch ==> NoLater(db, rank, k, l))
  }

  function Publishing(d: Dispatch, publisher: string, until: int): Dispatch {
    d.(state := PUBLISHING, publishOwner := Some(publisher), publishLeaseUntil := Some(until),
        publishAttempts := d.publishAttempts + 1)
  }

  function ClaimDispatchBatch(db: Db, publisher: string, now: int, leaseMs: int, limit: int,
      batch: set<DispatchKey>): Commit {
    if publisher == "" || !(1 <= limit <= 500) then Commit(db, Refused(DISPATCH_CLAIM_INVALID))
    else
      var expired := ExpirePublishing(db, now);
      Commit(expired.(dispatches := map k | k in expired.dispatches ::
        if k in batch && k in Publishable(expired, now) then Publishing(expired.dispatches[k], publisher, now + leaseMs)
            else expired.dispatches[k]), Done)
  }

  predicate PublishLeaseHeld(db: Db, k: DispatchKey, publisher: string) {
    k in db.dispatches && db.dispatches[k].state == PUBLISHING && db.dispatches[k].publishOwner == Some(publisher)
  }

  function ConfirmDispatch(db: Db, k: DispatchKey, publisher: string, now: int): Commit {
    if !PublishLeaseHeld(db, k, publisher) then Commit(db, Refused(DISPATCH_PUBLISH_LEASE_LOST))
    else Commit(db.(dispatches := db.dispatches[k := db.dispatches[k].(state := PUBLISHED, confirmedAt := Some(now),
          publishOwner := None, publishLeaseUntil := None)]), Done)
  }

  function FailDispatch(db: Db, k: DispatchKey, publisher: string, retryAt: int): Commit {
    if !PublishLeaseHeld(db, k, publisher) then Commit(db, Refused(DISPATCH_PUBLISH_LEASE_LOST))
    else Commit(db.(dispatches := db.dispatches[k := Reopened(db.dispatches[k]).(availableAt := retryAt)]), Done)
  }

  function DeferPublishedDispatch(db: Db, t: TaskId, version: nat, retryAt: int): Commit {
    var k := DispatchKey(t, version);
    if k in db.dispatches && db.dispatches[k].state == PUBLISHED && Current(db, k)
    then Commit(db.(dispatches := db.dispatches[k := Reopened(db.dispatches[k]).(availableAt := retryAt)]), Done)
    else Commit(db, Null)
  }

  predicate Overdue(db: Db, k: DispatchKey, now: int, republishAfterMs: int) {
    && k in db.dispatches
    && db.dispatches[k].state == PUBLISHED
    && db.dispatches[k].confirmedAt.Some?
    && db.dispatches[k].confirmedAt.value <= now - republishAfterMs
    && CurrentInActiveRun(db, k)
  }

  function Republish(db: Db, now: int, republishAfterMs: int): (next: Db)
    ensures next == db.(dispatches := next.dispatches)
  {
    db.(dispatches := map k | k in db.dispatches ::
      if Overdue(db, k, now, republishAfterMs) then Reopened(db.dispatches[k]).(availableAt := now)
          else db.dispatches[k])
  }

  /** RUNNABLE tasks of active runs that have no dispatch row at their revision. */
  function Undispatched(db: Db, now: int): set<TaskId> {
    set t | t in db.tasks && db.tasks[t].state == RUNNABLE && db.tasks[t].availableAt <= now
            && RunIs(db, db.tasks[t].run, ACTIVE) && DispatchKey(t, db.tasks[t].revision) !in db.dispatches
  }

  function EnqueuedTasks(tasks: map<TaskId, Task>, ps: set<TaskId>, at: int): map<TaskId, Task> {
    map t | t in tasks ::
        if t in ps then tasks[t].(availableAt := at, routingClass := tasks[t].tool.routingClass) else tasks[t]
  }

  function EnqueuedRows(tasks: map<TaskId, Task>, ps: set<TaskId>, at: int): map<DispatchKey, Dispatch> {
    map t | t in ps && t in tasks :: DispatchKey(t, tasks[t].revision) := NewDispatch(tasks[t], at)
  }

  /** Stamps the routing columns of the tasks `ps` and inserts one dispatch row for each at its revision;
      an existing row with the same key is kept. */
  function Enqueue(db: Db, ps: set<TaskId>, at: int): (next: Db)
    ensures next == db.(tasks := next.tasks, dispatches := next.dispatches)
  {
    db.(tasks := EnqueuedTasks(db.tasks, ps, at), dispatches := EnqueuedRows(db.tasks, ps, at) + db.dispatches)
  }

  function Reconcile(db: Db, now: int, republishAfterMs: Option<int>): Commit {
    var expired := ExpirePublishing(db, now);
    var republished := if republishAfterMs.Some? && republishAfterMs.value > 0
        then Republish(expired, now, republishAfterMs.value) else expired;
    Commit(Enqueue(republished, Undispatched(republished, now), 0), Done)
  }

  // ---------------------------------------------------------------------------------------------
  // One step of the system
  // ---------------------------------------------------------------------------------------------

  datatype Step =
    | DoCreateRun(r: RunId, plan: seq<PlanTask>, limit: int, last: Option<RunId>, artifacts: set<string>)
    | DoPromote(r: RunId)
    | DoMaterialize(coordinator: TaskId, join: TaskId, descriptor: Descriptor)
    | DoCompleteFanout(g: GroupId)
    | DoClaim(t: TaskId, worker: Worker, now: int, leaseMs: int, a: AttemptId)
    | DoClaimById(t: TaskId, version: nat, route: RoutingClass, worker: Worker, now: int, leaseMs: int, limits: Limits,
        a: AttemptId)
    | DoHeartbeat(c: Credential, now: int, leaseMs: int)
    | DoRecordEffect(t: TaskId, effect: EffectState)
    | DoWaitForHuman(c: Credential, obstacle: string, e: EscalationId)
    | DoResumeRun(e: EscalationId, runUnchanged: bool)
    | DoResolveEscalation(e: EscalationId, successor: Option<RunId>)
    | DoDefer(c: Credential, now: int, retryAfterMs: int)
    | DoOutcome(c: Credential, v: Verdict, now: int)
    | DoRecoverStale(now: int)
    | DoClaimDispatchBatch(publisher: string, now: int, leaseMs: int, size: int, batch: set<DispatchKey>)
    | DoConfirmDispatch(k: DispatchKey, publisher: string, now: int)
    | DoFailDispatch(k: DispatchKey, publisher: string, retryAt: int)
    | DoDeferPublished(t: TaskId, version: nat, retryAt: int)
    | DoReconcile(now: int, republishAfterMs: Option<int>)

  function Transition(db: Db, s: Step): Commit {
    match s
    case DoCreateRun(r, plan, limit, last, artifacts) => CreateRun(db, r, plan, limit, last, artifacts)
    case DoPromote(r) => Commit(Promote(db, {r}), Done)
    case DoMaterialize(coordinator, join, d) => MaterializeFanout(db, coordinator, join, d)
    case DoCompleteFanout(g) => CompleteFanout(db, g)
    case DoClaim(t, worker, now, leaseMs, a) => Claim(db, t, worker, now, leaseMs, a)
    case DoClaimById(t, version, route, worker, now, leaseMs, limits, a) =>
      ClaimById(db, t, version, route, worker, now, leaseMs, limits, a)
    case DoHeartbeat(c, now, leaseMs) => Heartbeat(db, c, now, leaseMs)
    case DoRecordEffect(t, effect) => Commit(db.(effects := db.effects[t := effect]), Done)
    case DoWaitForHuman(c, obstacle, e) => WaitForHuman(db, c, obstacle, e)
    case DoResumeRun(e, runUnchanged) => ResumeRun(db, e, runUnchanged)
    case DoResolveEscalation(e, successor) => ResolveEscalation(db, e, successor)
    case DoDefer(c, now, retryAfterMs) => Defer(db, c, now, retryAfterMs)
    case DoOutcome(c, v, now) => Outcome(db, c, v, now)
    case DoRecoverStale(now) => RecoverStale(db, now)
    case DoClaimDispatchBatch(publisher, now, leaseMs, size, batch) =>
      ClaimDispatchBatch(db, publisher, now, leaseMs, size, batch)
    case DoConfirmDispatch(k, publisher, now) => ConfirmDispatch(db, k, publisher, now)
    case DoFailDispatch(k, publisher, retryAt) => FailDispatch(db, k, publisher, retryAt)
    case DoDeferPublished(t, version, retryAt) => DeferPublishedDispatch(db, t, version, retryAt)
    case DoReconcile(now, republishAfterMs) => Reconcile(db, now, republishAfterMs)
  }

  function Next(db: Db, s: Step): Db {
    Transition(db, s).db
  }

  /** The database after a run of steps, in any order and by any mix of workers. */
  ghost function After(db: Db, steps: seq<Step>): Db
    decreases |steps|
  {
    if steps == [] then db else Next(After(db, steps[..|steps| - 1]), steps[|steps| - 1])
  }
}
