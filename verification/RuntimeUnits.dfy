/** The row updates out of which transactions are built keep the invariant: waking, stopping, handing back,
    retrying, recovering, suspending and starting tasks, renewing leases, and moving runs and groups. Each
    part of the invariant is followed through an update by a lemma about the tables it mentions. */
module RuntimeUnits {
  import opened Wrappers
  import opened RuntimeState
  import opened RuntimeTransitions
  import opened RuntimeInvariant

  // ---------------------------------------------------------------------------------------------
  // Facts about tables
  // ---------------------------------------------------------------------------------------------

  /** A row change that starts no attempt, moves no finished task and keeps the identity columns. */
  ghost predicate Quiet(x: Task, y: Task) {
    && y.run == x.run && y.tool == x.tool && y.group == x.group && y.dependsOn == x.dependsOn
    && y.leaseToken == x.leaseToken && y.attemptCount == x.attemptCount
    && (x.routingClass == x.tool.routingClass ==> y.routingClass == y.tool.routingClass)
    && (if y.revision == x.revision then y.state == x.state else y.revision > x.revision && !Final(x.state))
    && (y.state == RUNNING ==> x.state == RUNNING && y.leaseOwner == x.leaseOwner)
    && LeaseSound(y)
  }

  ghost predicate QuietChange(a: Tasks, b: Tasks) {
    b.Keys == a.Keys && forall t :: t in a ==> Quiet(a[t], b[t])
  }

  /** The columns that links mention. */
  ghost predicate SameIdentity(x: Task, y: Task) {
    && y.run == x.run && y.tool == x.tool && y.group == x.group && y.dependsOn == x.dependsOn
    && (x.routingClass == x.tool.routingClass ==> y.routingClass == y.tool.routingClass)
  }

  ghost predicate SameIdentities(a: Tasks, b: Tasks) {
    b.Keys == a.Keys && forall t :: t in a ==> SameIdentity(a[t], b[t])
  }

  ghost predicate SameMembers(a: Groups, b: Groups) {
    b.Keys == a.Keys && forall g :: g in a ==> b[g] == a[g].(state := b[g].state)
  }

  lemma LinksKept(runs: Runs, runs': Runs, a: Tasks, b: Tasks, groups: Groups, groups': Groups)
    requires Linked(runs, a, groups) && SameIdentities(a, b) && runs.Keys <= runs'.Keys && SameMembers(groups, groups')
    ensures Linked(runs', b, groups')
  {
    forall t | t in b
      ensures TaskSound(runs', b, groups', t)
    {
      assert TaskSound(runs, a, groups, t) && SameIdentity(a[t], b[t]);
    }
    forall g | g in groups'
      ensures GroupSound(b, g, groups'[g])
    {
      assert GroupSound(a, g, groups[g]);
    }
  }

  lemma QuietLinks(runs: Runs, runs': Runs, a: Tasks, b: Tasks, groups: Groups)
    requires Linked(runs, a, groups) && QuietChange(a, b) && runs.Keys <= runs'.Keys
    ensures Linked(runs', b, groups)
  {
    assert SameIdentities(a, b) by {
      assert forall t :: t in a ==> Quiet(a[t], b[t]);
    }
    hide Linked, QuietChange, SameIdentities;
    LinksKept(runs, runs', a, b, groups, groups);
  }

  lemma QuietCounts(a: Tasks, b: Tasks, attempts: Attempts)
    requires QuietChange(a, b)
    ensures TasksAdvance(a, b) && Leased(b)
    ensures Counted(a, attempts) ==> Counted(b, attempts)
  {
    assert forall t :: t in b ==> Quiet(a[t], b[t]);
  }

  lemma QuietHonest(runs: Runs, runs': Runs, a: Tasks, b: Tasks)
    requires QuietChange(a, b) && Honest(runs, a) && SameRunStates(runs, runs')
    ensures Honest(runs', b)
  {
    assert forall t :: t in b ==> Quiet(a[t], b[t]);
  }

  /** Attempts that close exactly when their task leaves RUNNING. */
  ghost predicate AttemptsFollow(a: Tasks, b: Tasks, i: Attempts, j: Attempts) {
    && j.Keys == i.Keys
    && (forall x :: x in i ==> j[x] == i[x].(state := j[x].state))
    && (forall t :: t in a ==> t in b && b[t].leaseToken == a[t].leaseToken && a[t].revision <= b[t].revision)
    && (forall t ::
        t in b && b[t].state == RUNNING ==> t in a && a[t].state == RUNNING && b[t].leaseOwner == a[t].leaseOwner)
    && (forall x ::
        x in i && i[x].task in b ==>
        (j[x].state == ATTEMPT_RUNNING <==> i[x].state == ATTEMPT_RUNNING && b[i[x].task].state == RUNNING))
  }

  lemma FollowedAttempts(a: Tasks, b: Tasks, i: Attempts, j: Attempts)
    requires Attempted(a, i) && AttemptsFollow(a, b, i, j)
    ensures Attempted(b, j)
  {
    forall x | x in j
      ensures AttemptSound(b, j[x])
    {
      assert AttemptSound(a, i[x]);
    }
    forall x, y | x in j && y in j && x != y
      ensures Distinct(j[x], j[y])
    {
      assert Distinct(i[x], i[y]);
    }
    forall t | t in b && b[t].state == RUNNING
      ensures exists x :: Open(j, x, t)
    {
      var x :| Open(i, x, t);
      assert Open(j, x, t);
    }
  }

  lemma SameCounts(tasks: Tasks, i: Attempts, j: Attempts)
    requires Counted(tasks, i) && j.Keys == i.Keys && forall x :: x in i ==> j[x].task == i[x].task
    ensures Counted(tasks, j)
  {
    assert forall t :: AttemptsOf(j, t) == AttemptsOf(i, t);
  }

  lemma SameCharges(runs: Runs, i: Attempts, j: Attempts)
    requires Budgeted(runs, i) && j.Keys == i.Keys
    requires forall x :: x in i ==> j[x].task == i[x].task && (j[x].state == DEFERRED <==> i[x].state == DEFERRED)
    ensures Budgeted(runs, j)
  {
    assert forall r :: ChargedTo(j, r) == ChargedTo(i, r);
  }

  lemma ClosingCharges(runs: Runs, i: Attempts, j: Attempts, ps: set<TaskId>)
    requires Budgeted(runs, i) && AttemptsClose(i, j, ps)
    requires forall x :: x in i && x in j && j[x].state == DEFERRED ==> i[x].state == DEFERRED
    ensures Budgeted(runs, j)
  {
    SameCharges(runs, i, j);
  }

  /** Closed attempts stay as they are, so the failures of a task only accumulate. */
  lemma FailuresGrow(i: Attempts, j: Attempts, t: TaskId)
    requires AttemptsAdvance(i, j)
    ensures |FailedAttemptsOf(i, t)| <= |FailedAttemptsOf(j, t)|
  {
    Smaller(FailedAttemptsOf(i, t), FailedAttemptsOf(j, t));
  }

  lemma {:induction false} Smaller<T>(s: set<T>, t: set<T>)
    requires s <= t
    ensures |s| <= |t|
  {
    if s != {} {
      var x :| x in s;
      Smaller(s - {x}, t - {x});
    }
  }

  lemma SameRetries(a: Tasks, b: Tasks, i: Attempts, j: Attempts)
    requires RetriesBounded(a, i) && AttemptsAdvance(i, j) && SameRetriesScheduled(a, b)
    ensures RetriesBounded(b, j)
  {
    forall t | t in b
      ensures b[t].retriesScheduled <= |FailedAttemptsOf(j, t)|
    {
      FailuresGrow(i, j, t);
    }
  }

  // ---------------------------------------------------------------------------------------------
  // Dispatch rows of moved tasks
  // ---------------------------------------------------------------------------------------------

  /** Every moved task that ends up RUNNABLE gets the row of its new revision, and no other row is added. */
  ghost predicate RowsFollow(a: Tasks, b: Tasks, i: Dispatches, j: Dispatches) {
    && (forall t :: t in a ==>
        t in b && (if b[t].revision == a[t].revision then b[t].state == a[t].state else b[t].revision > a[t].revision))
    && (forall k :: k in i ==> k in j && j[k] == i[k])
    && (forall k ::
        k in j && k !in i ==>
        k.task in b && k.version == b[k.task].revision && b[k.task].state == RUNNABLE && RowSound(j[k]))
    && (forall t ::
        t in b && b[t].state == RUNNABLE && (t in a ==> b[t].revision > a[t].revision) ==>
        DispatchKey(t, b[t].revision) in j)
  }

  lemma FollowedRows(a: Tasks, b: Tasks, i: Dispatches, j: Dispatches)
    requires Dispatched(a, i) && RowsFollow(a, b, i, j)
    ensures Dispatched(b, j) && DispatchesAdvance(i, j)
  {
    forall k | k in j
      ensures k.task in b && k.version <= b[k.task].revision
      ensures k.version == b[k.task].revision ==> b[k.task].state == RUNNABLE
    {
      if k in i { assert k.task in a; }
    }
  }

  /** Collects what the parts of a transition keep. */
  lemma PartsKeep(db: Db, next: Db)
    requires Safe(db) && next.groups == db.groups
    requires QuietChange(db.tasks, next.tasks)
    requires AttemptsFollow(db.tasks, next.tasks, db.attempts, next.attempts)
        && AttemptsAdvance(db.attempts, next.attempts)
    requires RowsFollow(db.tasks, next.tasks, db.dispatches, next.dispatches)
    requires RetriesBounded(next.tasks, next.attempts) && Budgeted(next.runs, next.attempts)
    requires RunsAdvance(db.runs, next.runs) && SameRunStates(db.runs, next.runs)
    ensures Safe(next) && Advances(db, next)
  {
    hide Linked, Leased, Dispatched, Attempted, Counted, RetriesBounded, Honest, Budgeted, TasksAdvance,
      AttemptsAdvance, RunsAdvance, DispatchesAdvance, AttemptsFollow, RowsFollow, QuietChange;
    SameTasks(db.tasks, next.tasks, db.attempts, next.attempts);
    QuietLinks(db.runs, next.runs, db.tasks, next.tasks, db.groups);
    QuietCounts(db.tasks, next.tasks, db.attempts);
    SameCounts(next.tasks, db.attempts, next.attempts);
    QuietHonest(db.runs, next.runs, db.tasks, next.tasks);
    FollowedAttempts(db.tasks, next.tasks, db.attempts, next.attempts);
    FollowedRows(db.tasks, next.tasks, db.dispatches, next.dispatches);
  }

  lemma SameTasks(a: Tasks, b: Tasks, i: Attempts, j: Attempts)
    requires AttemptsFollow(a, b, i, j)
    ensures j.Keys == i.Keys && forall x :: x in i ==> j[x].task == i[x].task
  {
  }

  ghost predicate SameRunStates(a: Runs, b: Runs) {
    b.Keys == a.Keys && forall r :: r in a ==> b[r].state == a[r].state
  }

  /** `rows` has one sound row for each task of `ps`, at its revision in `b`, and nothing else. */
  ghost predicate RowsOf(b: Tasks, ps: set<TaskId>, rows: Dispatches) {
    && ps <= b.Keys
    && (forall t :: t in ps ==> DispatchKey(t, b[t].revision) in rows)
    && (forall k :: k in rows ==> k.task in ps && k.version == b[k.task].revision && RowSound(rows[k]))
  }

  /** The tasks `ps` become RUNNABLE at a higher revision; no other task becomes RUNNABLE. */
  ghost predicate OnlyTheseWake(a: Tasks, b: Tasks, ps: set<TaskId>) {
    && b.Keys == a.Keys && ps <= a.Keys
    && (forall t ::
        t in a && t !in ps ==>
        if b[t].revision == a[t].revision then b[t].state == a[t].state
        else b[t].revision > a[t].revision && b[t].state != RUNNABLE)
    && (forall t :: t in ps ==> b[t].revision > a[t].revision && b[t].state == RUNNABLE)
  }

  lemma WakeRowsFollow(a: Tasks, b: Tasks, dispatches: Dispatches, ps: set<TaskId>, rows: Dispatches)
    requires OnlyTheseWake(a, b, ps) && RowsOf(b, ps, rows)
    ensures RowsFollow(a, b, dispatches, rows + dispatches)
  {
  }

  lemma WakeRowsAre(tasks: Tasks, ps: set<TaskId>, at: int)
    requires ps <= tasks.Keys
    ensures RowsOf(WokenTasks(tasks, ps, at), ps, WakeRows(tasks, ps, at))
  {
  }

  lemma WokenWake(tasks: Tasks, ps: set<TaskId>, at: int)
    requires ps <= tasks.Keys
    ensures OnlyTheseWake(tasks, WokenTasks(tasks, ps, at), ps)
  {
  }

  ghost predicate NoneWake(a: Tasks, b: Tasks) {
    forall t :: t in a && t in b && b[t].revision > a[t].revision ==> b[t].state != RUNNABLE
  }

  ghost predicate SameRetriesScheduled(a: Tasks, b: Tasks) {
    b.Keys == a.Keys && forall t :: t in a ==> b[t].tool == a[t].tool && b[t].retriesScheduled == a[t].retriesScheduled
  }

  lemma StillRowsFollow(a: Tasks, b: Tasks, dispatches: Dispatches)
    requires QuietChange(a, b) && NoneWake(a, b)
    ensures RowsFollow(a, b, dispatches, dispatches)
  {
    assert forall t :: t in a ==> Quiet(a[t], b[t]);
  }

  // ---------------------------------------------------------------------------------------------
  // Ending attempts
  // ---------------------------------------------------------------------------------------------

  /** The open attempts of the tasks `ps` are closed; no other attempt changes. */
  ghost predicate AttemptsClose(i: Attempts, j: Attempts, ps: set<TaskId>) {
    && j.Keys == i.Keys
    && forall x :: x in i ==>
          if i[x].task in ps && i[x].state == ATTEMPT_RUNNING then j[x] == i[x].(state := j[x].state)
              && j[x].state != ATTEMPT_RUNNING
          else j[x] == i[x]
  }

  /** The tasks `ps` leave RUNNING, if they were RUNNING; no other task changes. */
  ghost predicate OnlyTheseEnd(a: Tasks, b: Tasks, ps: set<TaskId>) {
    && ps <= a.Keys
    && QuietChange(a, b)
    && (forall t :: t in a && t !in ps ==> b[t] == a[t])
    && (forall t :: t in ps ==> b[t].state != RUNNING)
  }

  lemma EndedAttempts(a: Tasks, b: Tasks, i: Attempts, j: Attempts, ps: set<TaskId>)
    requires Attempted(a, i) && OnlyTheseEnd(a, b, ps) && AttemptsClose(i, j, ps)
    ensures AttemptsFollow(a, b, i, j) && AttemptsAdvance(i, j) && QuietChange(a, b)
  {
    assert forall t :: t in a ==> Quiet(a[t], b[t]);
    assert forall x :: x in i ==> AttemptSound(a, i[x]);
  }

  /** The open attempt of a RUNNING task is unique, so closing it by its id closes every open one. */
  lemma ClosedById(a: Tasks, i: Attempts, c: Credential, s: AttemptState)
    requires Attempted(a, i) && c.attempt in i && i[c.attempt].task == c.task && i[c.attempt].state == ATTEMPT_RUNNING
    requires s != ATTEMPT_RUNNING
    ensures AttemptsClose(i, i[c.attempt := i[c.attempt].(state := s)], {c.task})
  {
    forall x | x in i && i[x].task == c.task && i[x].state == ATTEMPT_RUNNING
      ensures x == c.attempt
    {
      assert AttemptSound(a, i[x]) && AttemptSound(a, i[c.attempt]);
    }
  }

  /** A credential that holds the lease and quotes an attempt of its task quotes the open one. */
  lemma LeaseHolderIsOpen(db: Db, c: Credential)
    requires Attempted(db.tasks, db.attempts) && HoldsLease(db, c) && Issued(db, c)
    ensures AttemptOpen(db, c)
  {
    var x :| Open(db.attempts, x, c.task);
    assert AttemptSound(db.tasks, db.attempts[x]);
    assert x == c.attempt || Distinct(db.attempts[x], db.attempts[c.attempt]);
  }

  lemma StoppedTasksEnd(tasks: Tasks, ps: set<TaskId>, s: TaskState)
    requires Leased(tasks) && s !in {RUNNING, RUNNABLE} && ps <= tasks.Keys && forall t ::
        t in ps ==> !Final(tasks[t].state)
    ensures OnlyTheseEnd(tasks, StoppedTasks(tasks, ps, s), ps)
    ensures NoneWake(tasks, StoppedTasks(tasks, ps, s)) && SameRetriesScheduled(tasks, StoppedTasks(tasks, ps, s))
  {
  }

  /** The attempts of `ps` end, their tasks stop, and nothing is charged or refunded. */
  lemma EndingKeeps(db: Db, next: Db, ps: set<TaskId>)
    requires Safe(db) && next == db.(tasks := next.tasks, attempts := next.attempts, dispatches := next.dispatches,
        effects := next.effects)
    requires OnlyTheseEnd(db.tasks, next.tasks, ps) && AttemptsClose(db.attempts, next.attempts, ps)
    requires RowsFollow(db.tasks, next.tasks, db.dispatches, next.dispatches)
    requires RetriesBounded(next.tasks, next.attempts)
    requires forall x ::
        x in db.attempts && x in next.attempts && next.attempts[x].state == DEFERRED ==>
        db.attempts[x].state == DEFERRED
    ensures Safe(next) && Advances(db, next)
  {
    hide Linked, Leased, Dispatched, Attempted, Counted, RetriesBounded, Honest, Budgeted, RowsFollow, OnlyTheseEnd,
      AttemptsClose, AttemptsFollow, AttemptsAdvance, QuietChange, Advances;
    EndedAttempts(db.tasks, next.tasks, db.attempts, next.attempts, ps);
    ClosingCharges(db.runs, db.attempts, next.attempts, ps);
    PartsKeep(db, next);
  }

  lemma FinishKeeps(db: Db, c: Credential, v: Verdict, s: TaskState)
    requires Safe(db) && HoldsLease(db, c) && AttemptOpen(db, c) && db.attempts[c.attempt].task == c.task
    requires s !in {RUNNING, RUNNABLE}
    ensures Safe(Finish(db, c, v, s)) && Advances(db, Finish(db, c, v, s))
  {
    hide Linked, Leased, Dispatched, Attempted, Counted, RetriesBounded, Honest, Budgeted, RowsFollow, AttemptsClose,
      OnlyTheseEnd, StoppedTasks, Advances, NoneWake, SameRetriesScheduled, AttemptsAdvance, AttemptsFollow,
      QuietChange;
    var next := Finish(db, c, v, s);
    ClosedById(db.tasks, db.attempts, c, AttemptVerdict(v));
    StoppedTasksEnd(db.tasks, {c.task}, s);
    EndedAttempts(db.tasks, next.tasks, db.attempts, next.attempts, {c.task});
    StillRowsFollow(db.tasks, next.tasks, db.dispatches);
    SameRetries(db.tasks, next.tasks, db.attempts, next.attempts);
    EndingKeeps(db, next, {c.task});
  }

  // ---------------------------------------------------------------------------------------------
  // Changes of tasks that hold no lease
  // ---------------------------------------------------------------------------------------------

  /** Unfinished tasks that hold no lease. */
  ghost predicate Idle(tasks: Tasks, ps: set<TaskId>) {
    ps <= tasks.Keys && forall t :: t in ps ==> tasks[t].state in {PENDING, WAITING, UNKNOWN_OUTCOME}
  }

  lemma NoneOpen(tasks: Tasks, attempts: Attempts, ps: set<TaskId>)
    requires Attempted(tasks, attempts) && Idle(tasks, ps)
    ensures AttemptsClose(attempts, attempts, ps)
  {
    assert forall x :: x in attempts ==> AttemptSound(tasks, attempts[x]);
  }

  lemma IdleChangeKeeps(db: Db, next: Db, ps: set<TaskId>)
    requires Safe(db) && Idle(db.tasks, ps)
    requires next == db.(tasks := next.tasks, dispatches := next.dispatches)
    requires OnlyTheseEnd(db.tasks, next.tasks, ps) && SameRetriesScheduled(db.tasks, next.tasks)
    requires RowsFollow(db.tasks, next.tasks, db.dispatches, next.dispatches)
    ensures Safe(next) && Advances(db, next)
  {
    hide Linked, Leased, Dispatched, Attempted, Counted, RetriesBounded, Honest, Budgeted, RowsFollow, OnlyTheseEnd,
      AttemptsClose, AttemptsFollow, AttemptsAdvance, QuietChange, SameRetriesScheduled, Advances;
    NoneOpen(db.tasks, db.attempts, ps);
    EndedAttempts(db.tasks, next.tasks, db.attempts, next.attempts, ps);
    SameRetries(db.tasks, next.tasks, db.attempts, db.attempts);
    EndingKeeps(db, next, ps);
  }

  lemma WokenQuietly(tasks: Tasks, ps: set<TaskId>, at: int)
    requires Idle(tasks, ps) && Leased(tasks)
    ensures OnlyTheseEnd(tasks, WokenTasks(tasks, ps, at), ps) && SameRetriesScheduled(tasks, WokenTasks(tasks, ps, at))
  {
  }

  lemma WakeKeeps(db: Db, ps: set<TaskId>, at: int)
    requires Safe(db) && Idle(db.tasks, ps)
    ensures Safe(Wake(db, ps, at)) && Advances(db, Wake(db, ps, at))
  {
    hide Linked, Leased, Dispatched, Attempted, Counted, RetriesBounded, Honest, Budgeted, OnlyTheseEnd,
      SameRetriesScheduled, RowsFollow, RowsOf, OnlyTheseWake, WokenTasks, WakeRows, Advances;
    WokenQuietly(db.tasks, ps, at);
    WokenWake(db.tasks, ps, at);
    WakeRowsAre(db.tasks, ps, at);
    WakeRowsFollow(db.tasks, WokenTasks(db.tasks, ps, at), db.dispatches, ps, WakeRows(db.tasks, ps, at));
    IdleChangeKeeps(db, Wake(db, ps, at), ps);
  }

  lemma PromoteKeeps(db: Db, rs: set<RunId>)
    requires Safe(db)
    ensures Safe(Promote(db, rs)) && Advances(db, Promote(db, rs))
  {
    hide Wake, Safe, Advances, Eligible;
    WakeKeeps(db, Promotable(db, rs), 0);
  }

  lemma StopKeeps(db: Db, ps: set<TaskId>, s: TaskState)
    requires Safe(db) && Idle(db.tasks, ps) && s !in {RUNNING, RUNNABLE}
    ensures Safe(Stop(db, ps, s)) && Advances(db, Stop(db, ps, s))
  {
    hide Linked, Leased, Dispatched, Attempted, Counted, RetriesBounded, Honest, Budgeted, OnlyTheseEnd, QuietChange,
      SameRetriesScheduled, NoneWake, RowsFollow, StoppedTasks, Advances;
    var next := Stop(db, ps, s);
    StoppedTasksEnd(db.tasks, ps, s);
    EndIsQuiet(db.tasks, next.tasks, ps);
    StillRowsFollow(db.tasks, next.tasks, db.dispatches);
    IdleChangeKeeps(db, next, ps);
  }

  lemma EndIsQuiet(a: Tasks, b: Tasks, ps: set<TaskId>)
    requires OnlyTheseEnd(a, b, ps)
    ensures QuietChange(a, b)
  {
  }

  lemma DoubtKeeps(db: Db, ps: set<TaskId>)
    requires Safe(db) && Idle(db.tasks, ps)
    ensures Safe(Doubt(db, ps)) && Advances(db, Doubt(db, ps))
  {
    hide Linked, Leased, Dispatched, Attempted, Counted, RetriesBounded, Honest, Budgeted, OnlyTheseEnd, QuietChange,
      SameRetriesScheduled, NoneWake, RowsFollow, DoubtedTasks, Advances;
    var next := Doubt(db, ps);
    DoubtedTasksEnd(db.tasks, ps);
    EndIsQuiet(db.tasks, next.tasks, ps);
    StillRowsFollow(db.tasks, next.tasks, db.dispatches);
    IdleChangeKeeps(db, next, ps);
  }

  lemma DoubtedTasksEnd(tasks: Tasks, ps: set<TaskId>)
    requires Leased(tasks) && Idle(tasks, ps)
    ensures OnlyTheseEnd(tasks, DoubtedTasks(tasks, ps), ps)
    ensures NoneWake(tasks, DoubtedTasks(tasks, ps)) && SameRetriesScheduled(tasks, DoubtedTasks(tasks, ps))
  {
  }

  // ---------------------------------------------------------------------------------------------
  // Attempts that end with the task back in the queue
  // ---------------------------------------------------------------------------------------------

  /** `mid` is `a` with the leases of `ps` cleared. */
  ghost predicate LeasesCleared(a: Tasks, mid: Tasks, ps: set<TaskId>) {
    && mid.Keys == a.Keys && ps <= a.Keys
    && (forall t :: t in a && t !in ps ==> mid[t] == a[t])
    && (forall t :: t in ps ==>
        !Final(a[t].state) && mid[t] == Released(a[t]).(retriesScheduled := mid[t].retriesScheduled))
  }

  lemma RequeuedEnd(a: Tasks, mid: Tasks, ps: set<TaskId>, at: int)
    requires Leased(a) && LeasesCleared(a, mid, ps)
    ensures OnlyTheseEnd(a, WokenTasks(mid, ps, at), ps)
  {
  }

  lemma RequeuedWake(a: Tasks, mid: Tasks, dispatches: Dispatches, ps: set<TaskId>, at: int)
    requires LeasesCleared(a, mid, ps)
    ensures RowsFollow(a, WokenTasks(mid, ps, at), dispatches, WakeRows(mid, ps, at) + dispatches)
  {
    assert OnlyTheseWake(a, WokenTasks(mid, ps, at), ps);
    WakeRowsAre(mid, ps, at);
    hide WakeRows, WokenTasks, OnlyTheseWake, RowsOf, RowsFollow, LeasesCleared;
    WakeRowsFollow(a, WokenTasks(mid, ps, at), dispatches, ps, WakeRows(mid, ps, at));
  }

  lemma ReleasedClears(tasks: Tasks, ps: set<TaskId>)
    requires ps <= tasks.Keys && forall t :: t in ps ==> !Final(tasks[t].state)
    ensures LeasesCleared(tasks, ReleasedTasks(tasks, ps), ps)
  {
  }

  /** The refund never meets an empty ledger: the attempt handed back is one of those charged. */
  lemma RefundBalances(runs: Runs, i: Attempts, a: AttemptId, r: RunId)
    requires Budgeted(runs, i) && a in i && i[a].state == ATTEMPT_RUNNING && RunOf(i[a].task) == r && r in runs
    ensures runs[r].attemptsUsed > 0
    ensures Budgeted(runs[r := runs[r].(attemptsUsed := runs[r].attemptsUsed - 1)], i[a := i[a].(state := DEFERRED)])
  {
    var j := i[a := i[a].(state := DEFERRED)];
    forall q | q in runs
      ensures ChargedTo(j, q) == if q == r then ChargedTo(i, q) - {a} else ChargedTo(i, q)
    {
    }
    assert a in ChargedTo(i, r);
  }

  lemma RunExists(runs: Runs, tasks: Tasks, groups: Groups, t: TaskId)
    requires Linked(runs, tasks, groups) && t in tasks
    ensures tasks[t].run == RunOf(t) && tasks[t].run in runs
  {
    assert TaskSound(runs, tasks, groups, t);
  }

  lemma HandBackKeeps(db: Db, c: Credential, at: int)
    requires Safe(db) && HoldsLease(db, c) && AttemptOpen(db, c) && db.attempts[c.attempt].task == c.task
    ensures Safe(HandBack(db, c, at)) && Advances(db, HandBack(db, c, at))
  {
    hide Linked, Leased, Dispatched, Attempted, Counted, RetriesBounded, Honest, Budgeted, OnlyTheseEnd, RowsFollow,
      AttemptsClose, AttemptsFollow, AttemptsAdvance, QuietChange, SameRetriesScheduled, Advances, WokenTasks, WakeRows,
      ReleasedTasks, LeasesCleared;
    var next := HandBack(db, c, at);
    var mid := ReleasedTasks(db.tasks, {c.task});
    var r := db.tasks[c.task].run;
    RunExists(db.runs, db.tasks, db.groups, c.task);
    RefundBalances(db.runs, db.attempts, c.attempt, r);
    ClosedById(db.tasks, db.attempts, c, DEFERRED);
    ReleasedClears(db.tasks, {c.task});
    RequeuedEnd(db.tasks, mid, {c.task}, at);
    RequeuedWake(db.tasks, mid, db.dispatches, {c.task}, at);
    EndedAttempts(db.tasks, next.tasks, db.attempts, next.attempts, {c.task});
    ReleasedRetries(db.tasks, {c.task}, at);
    SameRetries(db.tasks, next.tasks, db.attempts, next.attempts);
    PartsKeep(db, next);
  }

  lemma ReleasedRetries(tasks: Tasks, ps: set<TaskId>, at: int)
    requires ps <= tasks.Keys
    ensures SameRetriesScheduled(tasks, WokenTasks(ReleasedTasks(tasks, ps), ps, at))
  {
  }

  lemma CountedClears(tasks: Tasks, t: TaskId)
    requires t in tasks && !Final(tasks[t].state)
    ensures LeasesCleared(tasks, RetryCounted(tasks, t), {t})
  {
  }

  /** A retry is scheduled only while the failures, this one included, are below the limit. */
  lemma RetryBounded(tasks: Tasks, i: Attempts, c: Credential, at: int)
    requires RetriesBounded(tasks, i) && c.task in tasks && c.attempt in i
    requires i[c.attempt].task == c.task && i[c.attempt].state == ATTEMPT_RUNNING
    requires |FailedAttemptsOf(i, c.task)| + 1 < tasks[c.task].tool.maxAttempts
    ensures RetriesBounded(WokenTasks(RetryCounted(tasks, c.task), {c.task}, at),
        i[c.attempt := i[c.attempt].(state := ATTEMPT_FAILED)])
  {
    var j := i[c.attempt := i[c.attempt].(state := ATTEMPT_FAILED)];
    forall t | t in tasks
      ensures FailedAttemptsOf(j, t) == if t == c.task then FailedAttemptsOf(i, t) + {c.attempt}
          else FailedAttemptsOf(i, t)
    {
    }
  }

  lemma RetryKeeps(db: Db, c: Credential, transient: bool, at: int)
    requires Safe(db) && HoldsLease(db, c) && AttemptOpen(db, c) && db.attempts[c.attempt].task == c.task
    requires |FailedAttemptsOf(db.attempts, c.task)| + 1 < db.tasks[c.task].tool.maxAttempts
    ensures Safe(Retry(db, c, Failure(transient), at)) && Advances(db, Retry(db, c, Failure(transient), at))
  {
    hide Linked, Leased, Dispatched, Attempted, Counted, RetriesBounded, Honest, Budgeted, OnlyTheseEnd, RowsFollow,
      AttemptsClose, AttemptsFollow, AttemptsAdvance, QuietChange, SameRetriesScheduled, Advances, WokenTasks, WakeRows,
      RetryCounted, LeasesCleared, FailedAttemptsOf;
    var next := Retry(db, c, Failure(transient), at);
    var mid := RetryCounted(db.tasks, c.task);
    CountedClears(db.tasks, c.task);
    ClosedById(db.tasks, db.attempts, c, ATTEMPT_FAILED);
    RequeuedEnd(db.tasks, mid, {c.task}, at);
    RequeuedWake(db.tasks, mid, db.dispatches, {c.task}, at);
    RetryBounded(db.tasks, db.attempts, c, at);
    EndingKeeps(db, next, {c.task});
  }

  lemma RecoverTasksKeeps(db: Db, ps: set<TaskId>)
    requires Safe(db) && ps <= db.tasks.Keys
    requires forall t :: t in ps ==> db.tasks[t].state in {RUNNING, UNKNOWN_OUTCOME}
    ensures Safe(RecoverTasks(db, ps)) && Advances(db, RecoverTasks(db, ps))
  {
    hide Linked, Leased, Dispatched, Attempted, Counted, RetriesBounded, Honest, Budgeted, OnlyTheseEnd, RowsFollow,
      AttemptsClose, AttemptsFollow, AttemptsAdvance, QuietChange, SameRetriesScheduled, Advances, WokenTasks, WakeRows,
      StoppedTasks, ReleasedTasks, OnlyTheseWake, RowsOf, ClosedAttempts;
    var next := RecoverTasks(db, ps);
    var doubtful := Doubtful(db, ps);
    var mid := ReleasedTasks(StoppedTasks(db.tasks, doubtful, UNKNOWN_OUTCOME), ps - doubtful);
    RecoveredEnd(db.tasks, ps, doubtful);
    RecoveredWake(db.tasks, ps, doubtful);
    RecoveredAttemptsClose(db, ps);
    WakeRowsAre(mid, ps - doubtful, 0);
    WakeRowsFollow(db.tasks, next.tasks, db.dispatches, ps - doubtful, WakeRows(mid, ps - doubtful, 0));
    EndedAttempts(db.tasks, next.tasks, db.attempts, next.attempts, ps);
    SameRetries(db.tasks, next.tasks, db.attempts, next.attempts);
    EndingKeeps(db, next, ps);
  }

  function RecoveredTasks(tasks: Tasks, ps: set<TaskId>, doubtful: set<TaskId>): Tasks {
    WokenTasks(ReleasedTasks(StoppedTasks(tasks, doubtful, UNKNOWN_OUTCOME), ps - doubtful), ps - doubtful, 0)
  }

  lemma RecoveredEnd(tasks: Tasks, ps: set<TaskId>, doubtful: set<TaskId>)
    requires Leased(tasks) && ps <= tasks.Keys && doubtful <= ps && forall t :: t in ps ==> !Final(tasks[t].state)
    ensures ReleasedTasks(StoppedTasks(tasks, doubtful, UNKNOWN_OUTCOME), ps - doubtful).Keys == tasks.Keys
    ensures OnlyTheseEnd(tasks, RecoveredTasks(tasks, ps, doubtful), ps)
        && SameRetriesScheduled(tasks, RecoveredTasks(tasks, ps, doubtful))
  {
    var stopped := StoppedTasks(tasks, doubtful, UNKNOWN_OUTCOME);
    StoppedTasksEnd(tasks, doubtful, UNKNOWN_OUTCOME);
    EndIsQuiet(tasks, stopped, doubtful);
    QuietCounts(tasks, stopped, map[]);
    ReleasedClears(stopped, ps - doubtful);
    RequeuedEnd(stopped, ReleasedTasks(stopped, ps - doubtful), ps - doubtful, 0);
    ReleasedRetries(stopped, ps - doubtful, 0);
    assert doubtful + (ps - doubtful) == ps;
    hide StoppedTasks, ReleasedTasks, WokenTasks, OnlyTheseEnd, QuietChange;
    EndsCompose(tasks, stopped, RecoveredTasks(tasks, ps, doubtful), doubtful, ps - doubtful);
  }

  lemma EndsCompose(a: Tasks, b: Tasks, c: Tasks, ps: set<TaskId>, qs: set<TaskId>)
    requires OnlyTheseEnd(a, b, ps) && OnlyTheseEnd(b, c, qs) && ps !! qs
    ensures OnlyTheseEnd(a, c, ps + qs)
  {
  }

  lemma RecoveredWake(tasks: Tasks, ps: set<TaskId>, doubtful: set<TaskId>)
    requires ps <= tasks.Keys && doubtful <= ps
    ensures OnlyTheseWake(tasks, RecoveredTasks(tasks, ps, doubtful), ps - doubtful)
  {
  }

  lemma RecoveredAttemptsClose(db: Db, ps: set<TaskId>)
    ensures AttemptsClose(db.attempts, ClosedAttempts(db, ps), ps)
    ensures forall x ::
        x in db.attempts && ClosedAttempts(db, ps)[x].state == DEFERRED ==> db.attempts[x].state == DEFERRED
  {
  }

  lemma SuspendKeeps(db: Db, c: Credential)
    requires Safe(db) && HoldsLease(db, c) && AttemptOpen(db, c) && db.attempts[c.attempt].task == c.task
    ensures Safe(Suspend(db, c)) && Advances(db, Suspend(db, c))
  {
    hide Linked, Leased, Dispatched, Attempted, Counted, RetriesBounded, Honest, Budgeted, OnlyTheseEnd, RowsFollow,
      AttemptsClose, AttemptsFollow, AttemptsAdvance, QuietChange, SameRetriesScheduled, NoneWake, Advances;
    var next := Suspend(db, c);
    SuspendedEnd(db.tasks, c.task);
    ClosedById(db.tasks, db.attempts, c, ATTEMPT_WAITING);
    EndedAttempts(db.tasks, next.tasks, db.attempts, next.attempts, {c.task});
    StillRowsFollow(db.tasks, next.tasks, db.dispatches);
    SameRetries(db.tasks, next.tasks, db.attempts, next.attempts);
    EndingKeeps(db, next, {c.task});
  }

  lemma SuspendedEnd(tasks: Tasks, t: TaskId)
    requires Leased(tasks) && t in tasks && tasks[t].state == RUNNING
    ensures var b := tasks[t := Stopped(tasks[t], WAITING, tasks[t].availableAt)];
            OnlyTheseEnd(tasks, b, {t}) && NoneWake(tasks, b) && SameRetriesScheduled(tasks, b)
  {
  }

  // ---------------------------------------------------------------------------------------------
  // Starting and renewing attempts
  // ---------------------------------------------------------------------------------------------

  lemma HeartbeatKeeps(db: Db, c: Credential, now: int, leaseMs: int)
    requires Safe(db) && HoldsLease(db, c)
    ensures Safe(Heartbeat(db, c, now, leaseMs).db) && Advances(db, Heartbeat(db, c, now, leaseMs).db)
  {
    hide Linked, Leased, Dispatched, Attempted, Counted, RetriesBounded, Honest, Budgeted, RowsFollow, AttemptsFollow,
      AttemptsAdvance, QuietChange, SameRetriesScheduled, NoneWake, Advances;
    var next := Heartbeat(db, c, now, leaseMs).db;
    RenewedQuietly(db.tasks, db.attempts, c.task, now + leaseMs);
    StillRowsFollow(db.tasks, next.tasks, db.dispatches);
    SameRetries(db.tasks, next.tasks, db.attempts, db.attempts);
    PartsKeep(db, next);
  }

  lemma RenewedQuietly(tasks: Tasks, attempts: Attempts, t: TaskId, until: int)
    requires t in tasks && tasks[t].state == RUNNING && Leased(tasks) && Attempted(tasks, attempts)
    ensures var b := tasks[t := tasks[t].(leaseExpiresAt := Some(until), revision := tasks[t].revision + 1)];
            && QuietChange(tasks, b) && NoneWake(tasks, b) && SameRetriesScheduled(tasks, b)
            && AttemptsFollow(tasks, b, attempts, attempts) && AttemptsAdvance(attempts, attempts)
  {
    assert forall x :: x in attempts ==> AttemptSound(tasks, attempts[x]);
  }

  lemma StartedAttempts(tasks: Tasks, attempts: Attempts, t: TaskId, worker: Worker, until: int, a: AttemptId)
    requires Attempted(tasks, attempts) && Counted(tasks, attempts)
    requires t in tasks && tasks[t].state == RUNNABLE && a !in attempts
    ensures Attempted(tasks[t := Started(tasks[t], worker, until)],
        attempts[a := Attempt(t, tasks[t].attemptCount + 1, worker, tasks[t].leaseToken + 1,
            ATTEMPT_RUNNING, tasks[t].revision)])
  {
    var b := tasks[t := Started(tasks[t], worker, until)];
    var x := Attempt(t, tasks[t].attemptCount + 1, worker, tasks[t].leaseToken + 1, ATTEMPT_RUNNING, tasks[t].revision);
    var j := attempts[a := x];
    forall y | y in j
      ensures AttemptSound(b, j[y])
    {
      if y != a { assert AttemptSound(tasks, attempts[y]); }
    }
    forall y, z | y in j && z in j && y != z
      ensures Distinct(j[y], j[z])
    {
      if y != a && z != a {
        assert Distinct(attempts[y], attempts[z]);
      } else if y != a {
        assert AttemptSound(tasks, attempts[y]);
      } else {
        assert AttemptSound(tasks, attempts[z]);
      }
    }
    forall u | u in b && b[u].state == RUNNING
      ensures exists y :: Open(j, y, u)
    {
      if u == t {
        assert Open(j, a, t);
      } else {
        var y :| Open(attempts, y, u);
        assert Open(j, y, u);
      }
    }
  }

  lemma StartedCounts(tasks: Tasks, attempts: Attempts, t: TaskId, worker: Worker, until: int, a: AttemptId, x: Attempt)
    requires Counted(tasks, attempts) && t in tasks && a !in attempts && x.task == t
    ensures Counted(tasks[t := Started(tasks[t], worker, until)], attempts[a := x])
  {
    hide AttemptsOf;
    forall u | u in tasks
      ensures |AttemptsOf(attempts[a := x], u)| == |AttemptsOf(attempts, u)| + if u == t then 1 else 0
    {
      AttemptAdded(attempts, a, x, u);
    }
  }

  lemma AttemptAdded(attempts: Attempts, a: AttemptId, x: Attempt, t: TaskId)
    requires a !in attempts
    ensures |AttemptsOf(attempts[a := x], t)| == |AttemptsOf(attempts, t)| + if x.task == t then 1 else 0
  {
    assert AttemptsOf(attempts[a := x], t) == if x.task == t then AttemptsOf(attempts, t) + {a}
        else AttemptsOf(attempts, t);
  }

  lemma ChargeAdded(attempts: Attempts, a: AttemptId, x: Attempt, r: RunId)
    requires a !in attempts && x.state != DEFERRED
    ensures |ChargedTo(attempts[a := x], r)| == |ChargedTo(attempts, r)| + if RunOf(x.task) == r then 1 else 0
  {
    assert ChargedTo(attempts[a := x], r) == if RunOf(x.task) == r then ChargedTo(attempts, r) + {a}
        else ChargedTo(attempts, r);
  }

  lemma StartedCharges(runs: Runs, attempts: Attempts, r: RunId, a: AttemptId, x: Attempt)
    requires Budgeted(runs, attempts) && r in runs && runs[r].attemptsUsed < runs[r].attemptsLimit
    requires a !in attempts && RunOf(x.task) == r && x.state != DEFERRED
    ensures Budgeted(runs[r := runs[r].(attemptsUsed := runs[r].attemptsUsed + 1)], attempts[a := x])
  {
    hide ChargedTo;
    forall q | q in runs
      ensures |ChargedTo(attempts[a := x], q)| == |ChargedTo(attempts, q)| + if q == r then 1 else 0
    {
      ChargeAdded(attempts, a, x, q);
    }
  }

  lemma StartedRetries(tasks: Tasks, attempts: Attempts, t: TaskId, worker: Worker, until: int, a: AttemptId,
      x: Attempt)
    requires RetriesBounded(tasks, attempts) && t in tasks && a !in attempts && x.state != ATTEMPT_FAILED
    ensures RetriesBounded(tasks[t := Started(tasks[t], worker, until)], attempts[a := x])
  {
    forall u | u in tasks
      ensures FailedAttemptsOf(attempts[a := x], u) == FailedAttemptsOf(attempts, u)
    {
    }
  }

  lemma StartedRows(tasks: Tasks, dispatches: Dispatches, t: TaskId, worker: Worker, until: int)
    requires t in tasks && tasks[t].state == RUNNABLE
    ensures var b := tasks[t := Started(tasks[t], worker, until)];
            && RowsFollow(tasks, b, dispatches, dispatches) && SameIdentities(tasks, b) && TasksAdvance(tasks, b)
            && (Leased(tasks) ==> Leased(b))
  {
  }

  lemma StartedHonest(runs: Runs, tasks: Tasks, t: TaskId, worker: Worker, until: int)
    requires Honest(runs, tasks) && t in tasks && tasks[t].run in runs && runs[tasks[t].run].state == ACTIVE
    ensures var r := tasks[t].run;
            Honest(runs[r := runs[r].(attemptsUsed := runs[r].attemptsUsed + 1)],
                tasks[t := Started(tasks[t], worker, until)])
  {
  }

  lemma StartAttemptKeeps(db: Db, t: TaskId, worker: Worker, until: int, a: AttemptId)
    requires Safe(db) && a !in db.attempts
    requires t in db.tasks && db.tasks[t].state == RUNNABLE && RunIs(db, db.tasks[t].run, ACTIVE)
        && BudgetLeft(db, db.tasks[t].run)
    ensures Safe(StartAttempt(db, t, worker, until, a)) && Advances(db, StartAttempt(db, t, worker, until, a))
  {
    hide Linked, Leased, Dispatched, Attempted, Counted, RetriesBounded, Honest, Budgeted, RowsFollow, SameIdentities,
      TasksAdvance;
    var x := Attempt(t, db.tasks[t].attemptCount + 1, worker, db.tasks[t].leaseToken + 1, ATTEMPT_RUNNING,
        db.tasks[t].revision);
    var next := StartAttempt(db, t, worker, until, a);
    RunExists(db.runs, db.tasks, db.groups, t);
    StartedAttempts(db.tasks, db.attempts, t, worker, until, a);
    StartedCounts(db.tasks, db.attempts, t, worker, until, a, x);
    StartedCharges(db.runs, db.attempts, db.tasks[t].run, a, x);
    StartedRetries(db.tasks, db.attempts, t, worker, until, a, x);
    StartedRows(db.tasks, db.dispatches, t, worker, until);
    StartedHonest(db.runs, db.tasks, t, worker, until);
    FollowedRows(db.tasks, next.tasks, db.dispatches, next.dispatches);
    LinksKept(db.runs, next.runs, db.tasks, next.tasks, db.groups, db.groups);
  }

  // ---------------------------------------------------------------------------------------------
  // Run and group states
  // ---------------------------------------------------------------------------------------------

  /** Only run states change, besides new runs without attempts, and a run succeeds only when its tasks have. */
  ghost predicate OnlyStates(db: Db, runs: Runs) {
    && (forall r :: r in db.runs ==> r in runs && runs[r] == db.runs[r].(state := runs[r].state))
    && (forall r :: r in db.runs && Ended(db.runs[r].state) ==> runs[r].state == db.runs[r].state)
    && (forall r ::
        r in db.runs && runs[r].state == RUN_SUCCEEDED && db.runs[r].state != RUN_SUCCEEDED ==> AllSucceeded(db, r))
    && (forall r ::
        r in runs && r !in db.runs ==> runs[r].state == ACTIVE && runs[r].attemptsUsed == 0 <= runs[r].attemptsLimit)
  }

  lemma RunsKeep(db: Db, next: Db)
    requires Safe(db) && next == db.(runs := next.runs) && OnlyStates(db, next.runs)
    ensures Safe(next) && Advances(db, next)
  {
    hide Linked, Leased, Dispatched, Attempted, Counted, RetriesBounded, Honest, Budgeted, TasksAdvance, RunsAdvance,
      AttemptsAdvance, DispatchesAdvance, OnlyStates;
    AdvancesReflexive(db);
    StatesAdvance(db, next.runs);
    RunsHonest(db, next.runs);
    RunsBudgeted(db, next.runs);
    LinksKept(db.runs, next.runs, db.tasks, db.tasks, db.groups, db.groups);
  }

  lemma StatesAdvance(db: Db, runs: Runs)
    requires OnlyStates(db, runs)
    ensures RunsAdvance(db.runs, runs) && db.runs.Keys <= runs.Keys
  {
  }

  lemma RunsHonest(db: Db, runs: Runs)
    requires Honest(db.runs, db.tasks) && Linked(db.runs, db.tasks, db.groups) && OnlyStates(db, runs)
    ensures Honest(runs, db.tasks)
  {
    forall t | t in db.tasks && db.tasks[t].run in runs && runs[db.tasks[t].run].state == RUN_SUCCEEDED
      ensures db.tasks[t].state == SUCCEEDED
    {
      RunExists(db.runs, db.tasks, db.groups, t);
    }
  }

  lemma NoCharges(db: Db, r: RunId)
    requires Linked(db.runs, db.tasks, db.groups) && Attempted(db.tasks, db.attempts) && r !in db.runs
    ensures ChargedTo(db.attempts, r) == {}
  {
    forall a | a in db.attempts
      ensures RunOf(db.attempts[a].task) != r
    {
      assert AttemptSound(db.tasks, db.attempts[a]);
      RunExists(db.runs, db.tasks, db.groups, db.attempts[a].task);
    }
  }

  lemma RunsBudgeted(db: Db, runs: Runs)
    requires Linked(db.runs, db.tasks, db.groups) && Attempted(db.tasks, db.attempts) && Budgeted(db.runs, db.attempts)
    requires OnlyStates(db, runs)
    ensures Budgeted(runs, db.attempts)
  {
    forall r | r in runs
      ensures runs[r].attemptsUsed == |ChargedTo(db.attempts, r)| && runs[r].attemptsUsed <= runs[r].attemptsLimit
    {
      if r !in db.runs { NoCharges(db, r); }
    }
  }

  lemma SetRunStateKeeps(db: Db, r: RunId, from: RunState, to: RunState)
    requires Safe(db) && !Ended(from) && (to == RUN_SUCCEEDED ==> AllSucceeded(db, r))
    ensures Safe(SetRunState(db, r, from, to)) && Advances(db, SetRunState(db, r, from, to))
  {
    hide Safe, AllSucceeded, Advances;
    RunsKeep(db, SetRunState(db, r, from, to));
  }

  lemma CompleteRunKeeps(db: Db, r: RunId)
    requires Safe(db)
    ensures Safe(CompleteRun(db, r)) && Advances(db, CompleteRun(db, r))
  {
    hide Safe, SetRunState, Advances;
    if AllSucceeded(db, r) {
      SetRunStateKeeps(db, r, ACTIVE, RUN_SUCCEEDED);
    } else {
      AdvancesReflexive(db);
    }
  }

  lemma AdvancesReflexive(db: Db)
    ensures Advances(db, db)
  {
  }

  lemma CompleteRunsKeeps(db: Db, rs: set<RunId>)
    requires Safe(db)
    ensures Safe(CompleteRuns(db, rs)) && Advances(db, CompleteRuns(db, rs))
  {
    hide Safe, AllSucceeded, Advances;
    RunsKeep(db, CompleteRuns(db, rs));
  }

  lemma GroupsKeep(db: Db, next: Db)
    requires Safe(db) && next == db.(groups := next.groups) && SameMembers(db.groups, next.groups)
    ensures Safe(next) && Advances(db, next)
  {
    hide Leased, Dispatched, Attempted, Counted, RetriesBounded, Honest, Budgeted, Linked, SameMembers;
    LinksKept(db.runs, db.runs, db.tasks, db.tasks, db.groups, next.groups);
  }

  lemma FailGroupKeeps(db: Db, g: GroupId)
    requires Safe(db)
    ensures Safe(FailGroup(db, g)) && Advances(db, FailGroup(db, g))
  {
    hide Safe, Advances;
    GroupsKeep(db, FailGroup(db, g));
  }
}
