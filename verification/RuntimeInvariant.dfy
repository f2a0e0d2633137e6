/** What every reachable database satisfies, stated table by table. */
module RuntimeInvariant {
  import opened Wrappers
  import opened RuntimeState
  import opened RuntimeTransitions

  type Tasks = map<TaskId, Task>
  type Runs = map<RunId, Run>
  type Groups = map<GroupId, Group>
  type Dispatches = map<DispatchKey, Dispatch>
  type Attempts = map<AttemptId, Attempt>

  // ---------------------------------------------------------------------------------------------
  // Referential integrity
  // ---------------------------------------------------------------------------------------------

  /** The lease columns are set exactly while a task is RUNNING. */
  ghost predicate LeaseSound(x: Task) {
    && (x.state == RUNNING <==> x.leaseOwner.Some?)
    && (x.state == RUNNING <==> x.leaseExpiresAt.Some?)
  }

  ghost predicate Leased(tasks: Tasks) {
    forall t :: t in tasks ==> LeaseSound(tasks[t])
  }

  /** A task row agrees with its identity and refers to rows that exist, in its own run. */
  ghost predicate TaskSound(runs: Runs, tasks: Tasks, groups: Groups, t: TaskId)
    requires t in tasks
  {
    var x := tasks[t];
    && x.run == RunOf(t)
    && x.run in runs
    && (t.Planned? ==> x.group == None)
    && (t.Shard? ==> x.group == Some(t.groupId) && t.groupId in groups && t in groups[t.groupId].members)
    && x.routingClass == x.tool.routingClass
    && (forall d :: d in x.dependsOn ==> d in tasks && RunOf(d) == x.run)
  }

  ghost predicate GroupSound(tasks: Tasks, g: GroupId, group: Group) {
    && group.run == g.run
    && group.join in tasks
    && RunOf(group.join) == g.run
    && group.expectedCount == |group.members|
    && (forall m :: m in group.members ==> m in tasks && m.Shard? && m.groupId == g)
  }

  ghost predicate Linked(runs: Runs, tasks: Tasks, groups: Groups) {
    && (forall t :: t in tasks ==> TaskSound(runs, tasks, groups, t))
    && (forall g :: g in groups ==> GroupSound(tasks, g, groups[g]))
  }

  // ---------------------------------------------------------------------------------------------
  // Dispatch: no lost wakeup
  // ---------------------------------------------------------------------------------------------

  ghost predicate RowSound(d: Dispatch) {
    && (d.state == PUBLISHING ==> d.publishOwner.Some? && d.publishLeaseUntil.Some?)
    && (d.state == PUBLISHED ==> d.confirmedAt.Some?)
  }

  /** A RUNNABLE task has a dispatch row at its current revision, and a row at the current revision of a
      task belongs to a RUNNABLE task; every other row is of an older revision. */
  ghost predicate Dispatched(tasks: Tasks, dispatches: Dispatches) {
    && (forall t :: t in tasks && tasks[t].state == RUNNABLE ==> DispatchKey(t, tasks[t].revision) in dispatches)
    && (forall k :: k in dispatches ==> k.task in tasks && k.version <= tasks[k.task].revision)
    && (forall k :: k in dispatches && k.version == tasks[k.task].revision ==> tasks[k.task].state == RUNNABLE)
    && (forall k :: k in dispatches ==> RowSound(dispatches[k]))
  }

  // ---------------------------------------------------------------------------------------------
  // Attempts and fencing
  // ---------------------------------------------------------------------------------------------

  ghost predicate AttemptSound(tasks: Tasks, x: Attempt) {
    && x.task in tasks
    && x.number == x.token
    && 1 <= x.token <= tasks[x.task].leaseToken
    && x.claimedVersion < tasks[x.task].revision
    && (x.state == ATTEMPT_RUNNING ==>
          tasks[x.task].state == RUNNING && x.token == tasks[x.task].leaseToken
              && tasks[x.task].leaseOwner == Some(x.owner))
  }

  /** No two attempts of a task share a fencing token or a claimed version. */
  ghost predicate Distinct(x: Attempt, y: Attempt) {
    x.task == y.task ==> x.token != y.token && x.claimedVersion != y.claimedVersion
  }

  ghost predicate Open(attempts: Attempts, a: AttemptId, t: TaskId) {
    a in attempts && attempts[a].task == t && attempts[a].state == ATTEMPT_RUNNING
  }

  ghost predicate Attempted(tasks: Tasks, attempts: Attempts) {
    && (forall a :: a in attempts ==> AttemptSound(tasks, attempts[a]))
    && (forall a, b :: a in attempts && b in attempts && a != b ==> Distinct(attempts[a], attempts[b]))
    && (forall t :: t in tasks && tasks[t].state == RUNNING ==> exists a :: Open(attempts, a, t))
  }

  /** attempt_count, the fencing token and the number of attempt rows agree. */
  ghost predicate Counted(tasks: Tasks, attempts: Attempts) {
    forall t :: t in tasks ==> tasks[t].attemptCount == tasks[t].leaseToken == |AttemptsOf(attempts, t)|
  }

  // ---------------------------------------------------------------------------------------------
  // Budgets, retries, finished runs
  // ---------------------------------------------------------------------------------------------

  /** The used attempts of a run are the attempts charged to it, and stay within its limit. */
  ghost predicate Budgeted(runs: Runs, attempts: Attempts) {
    forall r :: r in runs ==>
        runs[r].attemptsUsed == |ChargedTo(attempts, r)| && runs[r].attemptsUsed <= runs[r].attemptsLimit
  }

  /** A task is requeued after a failed outcome at most `maxAttempts - 1` times. */
  ghost predicate RetriesBounded(tasks: Tasks, attempts: Attempts) {
    forall t :: t in tasks ==>
      && tasks[t].retriesScheduled <= |FailedAttemptsOf(attempts, t)|
      && (tasks[t].retriesScheduled > 0 ==> tasks[t].retriesScheduled < tasks[t].tool.maxAttempts)
  }

  /** A succeeded run has only succeeded tasks. */
  ghost predicate Honest(runs: Runs, tasks: Tasks) {
    forall t ::
        t in tasks && tasks[t].run in runs && runs[tasks[t].run].state == RUN_SUCCEEDED ==> tasks[t].state == SUCCEEDED
  }

  ghost predicate Safe(db: Db) {
    && Linked(db.runs, db.tasks, db.groups)
    && Leased(db.tasks)
    && Dispatched(db.tasks, db.dispatches)
    && Attempted(db.tasks, db.attempts)
    && Counted(db.tasks, db.attempts)
    && Budgeted(db.runs, db.attempts)
    && RetriesBounded(db.tasks, db.attempts)
    && Honest(db.runs, db.tasks)
  }

  // ---------------------------------------------------------------------------------------------
  // What a step may do to a row
  // ---------------------------------------------------------------------------------------------

  predicate Final(s: TaskState) {
    s in {SUCCEEDED, FAILED}
  }

  /** Rows are never lost, revisions and tokens never fall, and finished tasks never move. */
  ghost predicate TaskAdvances(x: Task, y: Task) {
    && y.run == x.run && y.tool == x.tool && y.group == x.group
    && x.dependsOn <= y.dependsOn
    && x.revision <= y.revision
    && (x.revision == y.revision ==> y.state == x.state)
    && (Final(x.state) ==> y.state == x.state && y.dependsOn == x.dependsOn && y.leaseToken == x.leaseToken)
    && x.leaseToken <= y.leaseToken
  }

  ghost predicate TasksAdvance(a: Tasks, b: Tasks) {
    forall t :: t in a ==> t in b && TaskAdvances(a[t], b[t])
  }

  predicate Ended(s: RunState) {
    s in {RUN_SUCCEEDED, RUN_FAILED, SUPERSEDED}
  }

  ghost predicate RunsAdvance(a: Runs, b: Runs) {
    forall r :: r in a ==>
        r in b && (Ended(a[r].state) ==> b[r].state == a[r].state) && b[r].plan == a[r].plan
        && b[r].attemptsLimit == a[r].attemptsLimit
  }

  ghost predicate AttemptsAdvance(a: Attempts, b: Attempts) {
    forall i :: i in a ==>
        i in b && b[i] == a[i].(state := b[i].state) && (a[i].state != ATTEMPT_RUNNING ==> b[i].state == a[i].state)
  }

  ghost predicate DispatchesAdvance(a: Dispatches, b: Dispatches) {
    a.Keys <= b.Keys
  }

  ghost predicate Advances(a: Db, b: Db) {
    && TasksAdvance(a.tasks, b.tasks)
    && RunsAdvance(a.runs, b.runs)
    && AttemptsAdvance(a.attempts, b.attempts)
    && DispatchesAdvance(a.dispatches, b.dispatches)
  }

  lemma AdvancesTransitive(a: Db, b: Db, c: Db)
    requires Advances(a, b) && Advances(b, c)
    ensures Advances(a, c)
  {
  }

  // ---------------------------------------------------------------------------------------------
  // The worker's discipline
  // ---------------------------------------------------------------------------------------------

  /** The credential is one that a claim handed out. */
  predicate Issued(db: Db, c: Credential) {
    && c.attempt in db.attempts
    && db.attempts[c.attempt].task == c.task
    && db.attempts[c.attempt].owner == c.worker
    && db.attempts[c.attempt].token == c.token
  }

  /** Workers quote in an outcome or a human wait only what a claim gave them, in any order and any
      number of times. No other step is constrained. */
  predicate Quoted(db: Db, s: Step) {
    && (s.DoOutcome? ==> Issued(db, s.c))
    && (s.DoWaitForHuman? ==> Issued(db, s.c))
  }
}
