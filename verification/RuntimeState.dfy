/** The rows of the durable task runtime.

    One `Db` value is the committed content of the runtime's tables. Every repository
    method is one transaction, so a method is a function from `Db` to `Db`. */
module RuntimeState {
  import opened Wrappers

  type RunId = string
  type AttemptId = string
  type EscalationId = string
  type Worker = string

  /** A group identity is a fingerprint of its descriptor; the fingerprint is kept abstract. */
  datatype GroupId = GroupId(run: RunId, groupKey: string, fingerprint: int)

  /** Task identities are printed from the run and the plan key, or from the group and the shard. */
  datatype TaskId = Planned(run: RunId, key: string) | Shard(groupId: GroupId, identity: string)

  datatype RoutingClass = Control | Documents | Media | Transcription | Llm | Reports | Drive | Notifications

  datatype ToolKind = Telegram | DrivePublication | Ordinary(key: string)

  /** A tool with its entries in the routing table and in the retry table. */
  datatype Tool = Tool(kind: ToolKind, routingClass: RoutingClass, maxAttempts: nat)

  datatype TaskState = PENDING | RUNNABLE | RUNNING | WAITING | SUCCEEDED | FAILED | UNKNOWN_OUTCOME | CANCELLED
  datatype RunState = ACTIVE | WAITING_FOR_HUMAN | RUN_SUCCEEDED | RUN_FAILED | SUPERSEDED
  datatype GroupState = PLANNED | GROUP_RUNNING | GROUP_SUCCEEDED | GROUP_FAILED
  datatype AttemptState =
    | ATTEMPT_RUNNING
    | ATTEMPT_SUCCEEDED
    | ATTEMPT_FAILED
    | ATTEMPT_UNKNOWN
    | DEFERRED
    | ATTEMPT_WAITING
  datatype EffectState = EFFECT_PENDING | SENT | EFFECT_UNKNOWN | EFFECT_FAILED
  datatype DispatchState = DISPATCH_PENDING | PUBLISHING | PUBLISHED

  datatype PlanTask = PlanTask(key: string, tool: Tool, dependencies: seq<string>, completionGate: bool)

  datatype Run = Run(state: RunState, attemptsUsed: int, attemptsLimit: int, planVersion: nat, plan: seq<PlanTask>)

  /** `retriesScheduled` counts the task's TASK_RETRY_SCHEDULED events; `dependsOn` is its rows of
      the dependency table, whose required outcome is always SUCCEEDED. */
  datatype Task = Task(
    run: RunId,
    tool: Tool,
    state: TaskState,
    revision: nat,
    attemptCount: nat,
    leaseOwner: Option<Worker>,
    leaseToken: nat,
    leaseExpiresAt: Option<int>,
    routingClass: RoutingClass,
    availableAt: int,
    group: Option<GroupId>,
    dependsOn: set<TaskId>,
    retriesScheduled: nat)

  /** `members` maps each shard task to its `required` flag. */
  datatype Group = Group(run: RunId, join: TaskId, state: GroupState, expectedCount: nat, members: map<TaskId, bool>)

  /** `claimedVersion` is the task revision the attempt was claimed at; no column holds it. */
  datatype Attempt = Attempt(task: TaskId, number: nat, owner: Worker, token: nat, state: AttemptState,
      claimedVersion: nat)

  datatype DispatchKey = DispatchKey(task: TaskId, version: nat)

  datatype Dispatch = Dispatch(
    state: DispatchState,
    routingClass: RoutingClass,
    availableAt: int,
    publishOwner: Option<string>,
    publishLeaseUntil: Option<int>,
    publishAttempts: nat,
    confirmedAt: Option<int>)

  /** `changesInputs` is the flag of the action a human may take: it asks for a new immutable input. */
  datatype Escalation = Escalation(run: RunId, open: bool, obstacle: string, changesInputs: bool)

  /** `effects` is the external-effect outbox, keyed by the task whose identity it carries. */
  datatype Db = Db(
    runs: map<RunId, Run>,
    tasks: map<TaskId, Task>,
    groups: map<GroupId, Group>,
    dispatches: map<DispatchKey, Dispatch>,
    attempts: map<AttemptId, Attempt>,
    effects: map<TaskId, EffectState>,
    escalations: map<EscalationId, Escalation>)

  const EMPTY := Db(map[], map[], map[], map[], map[], map[], map[])

  // ---------------------------------------------------------------------------------------------
  // Questions the transactions ask
  // ---------------------------------------------------------------------------------------------

  predicate Terminal(s: TaskState) {
    s in {SUCCEEDED, FAILED, CANCELLED, UNKNOWN_OUTCOME}
  }

  predicate Joins(db: Db, t: TaskId) {
    exists g :: g in db.groups && db.groups[g].join == t
  }

  predicate JoinsFailedGroup(db: Db, t: TaskId) {
    exists g :: g in db.groups && db.groups[g].join == t && db.groups[g].state == GROUP_FAILED
  }

  /** Whether dependency `d` still holds task `t` back. */
  predicate Blocks(db: Db, t: TaskId, d: TaskId)
    requires d in db.tasks
  {
    if JoinsFailedGroup(db, t) then false
    else if Joins(db, t) then !Terminal(db.tasks[d].state)
    else db.tasks[d].state != SUCCEEDED
  }

  predicate Eligible(db: Db, t: TaskId)
    requires t in db.tasks
  {
    forall d :: d in db.tasks[t].dependsOn && d in db.tasks ==> !Blocks(db, t, d)
  }

  predicate RunIs(db: Db, r: RunId, s: RunState) {
    r in db.runs && db.runs[r].state == s
  }

  predicate AllSucceeded(db: Db, r: RunId) {
    forall t :: t in db.tasks && db.tasks[t].run == r ==> db.tasks[t].state == SUCCEEDED
  }

  function RunningIn(db: Db, r: RunId, c: RoutingClass): set<TaskId> {
    set t | t in db.tasks && db.tasks[t].run == r && db.tasks[t].routingClass == c && db.tasks[t].state == RUNNING
  }

  function RunningPool(db: Db, c: RoutingClass): set<TaskId> {
    set t | t in db.tasks && db.tasks[t].routingClass == c && db.tasks[t].state == RUNNING
  }

  function RunOf(t: TaskId): RunId {
    match t
    case Planned(r, _) => r
    case Shard(g, _) => g.run
  }

  function AttemptsOf(attempts: map<AttemptId, Attempt>, t: TaskId): set<AttemptId> {
    set a | a in attempts && attempts[a].task == t
  }

  function FailedAttemptsOf(attempts: map<AttemptId, Attempt>, t: TaskId): set<AttemptId> {
    set a | a in attempts && attempts[a].task == t && attempts[a].state == ATTEMPT_FAILED
  }

  /** The attempts charged to a run: every attempt that was not handed back by a deferral. */
  function ChargedTo(attempts: map<AttemptId, Attempt>, r: RunId): set<AttemptId> {
    set a | a in attempts && RunOf(attempts[a].task) == r && attempts[a].state != DEFERRED
  }

  predicate BudgetLeft(db: Db, r: RunId) {
    r in db.runs && db.runs[r].attemptsUsed < db.runs[r].attemptsLimit
  }

  predicate EffectUnknown(db: Db, t: TaskId) {
    t in db.effects && db.effects[t] == EFFECT_UNKNOWN
  }
}
