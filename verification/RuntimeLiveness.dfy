/** What keeps a run going, and how the units of the transactions keep it: the dependencies of its tasks have
    no cycle, and a task that could be promoted is never left PENDING while nothing else in the run is alive.
    All of it is about one run: what happens to the others does not matter. */
module RuntimeLiveness {
  import opened RuntimeState
  import opened Graphs
  import opened RuntimeInvariant
  import opened RuntimeUnits
  import opened RuntimeGrowth
  import opened RuntimeOrder

  // ---------------------------------------------------------------------------------------------
  // The invariant
  // ---------------------------------------------------------------------------------------------

  ghost function DependencyGraph(tasks: Tasks, r: RunId): Graph<TaskId> {
    map t | t in tasks && tasks[t].run == r :: tasks[t].dependsOn
  }

  /** Nothing waits for a notification, joins are tasks of the plan, and every shard is required. */
  ghost predicate Shaped(tasks: Tasks, groups: Groups, r: RunId) {
    && (forall t, d ::
        t in tasks && tasks[t].run == r && d in tasks[t].dependsOn && d in tasks ==> tasks[d].tool.kind != Telegram)
    && (forall g :: g in groups && g.run == r ==>
          groups[g].join.Planned? && groups[g].join in tasks && tasks[groups[g].join].tool.kind != Telegram)
    && (forall g, m :: g in groups && g.run == r && m in groups[g].members ==> groups[g].members[m])
  }

  ghost predicate MembersSucceeded(tasks: Tasks, group: Group) {
    forall m :: m in group.members ==> m in tasks && tasks[m].state == SUCCEEDED
  }

  /** A group or a join succeeds only after all its shards. */
  ghost predicate GroupsHonest(tasks: Tasks, groups: Groups, r: RunId) {
    forall g ::
        g in groups && g.run == r && (groups[g].state == GROUP_SUCCEEDED
        || (groups[g].join in tasks && tasks[groups[g].join].state == SUCCEEDED)) ==>
      MembersSucceeded(tasks, groups[g])
  }

  /** A failed task of an open run is a shard of a failed group. */
  ghost predicate FailuresFail(db: Db, r: RunId) {
    forall t ::
        t in db.tasks && db.tasks[t].run == r && db.tasks[t].state == FAILED && r in db.runs
        && RunOpen(db.runs[r].state) ==>
      t.Shard? && t.groupId in db.groups && db.groups[t.groupId].state == GROUP_FAILED
  }

  predicate Busy(db: Db, r: RunId) {
    exists t :: t in db.tasks && db.tasks[t].run == r && Live(db.tasks[t].state) && db.tasks[t].tool.kind != Telegram
  }

  predicate Settled(db: Db, r: RunId) {
    forall t :: t in db.tasks && db.tasks[t].run == r && db.tasks[t].state == PENDING ==> !Eligible(db, t)
  }

  predicate Parked(s: TaskState) {
    s in {WAITING, RUNNABLE, UNKNOWN_OUTCOME}
  }

  predicate HasParked(db: Db, r: RunId) {
    exists t :: t in db.tasks && db.tasks[t].run == r && Parked(db.tasks[t].state)
  }

  /** A run waiting for a human has a task that waits; an open run is not finished, and either works on
      something or has nothing left that could be promoted. */
  ghost predicate Moving(db: Db, r: RunId)
    requires r in db.runs
  {
    && (db.runs[r].state == WAITING_FOR_HUMAN ==> HasParked(db, r))
    && (RunOpen(db.runs[r].state) ==> !AllSucceeded(db, r) && (Busy(db, r) || Settled(db, r)))
  }

  ghost predicate Structured(db: Db, r: RunId) {
    && Acyclic(DependencyGraph(db.tasks, r))
    && Shaped(db.tasks, db.groups, r)
    && GroupsHonest(db.tasks, db.groups, r)
    && FailuresFail(db, r)
  }

  /** Only a run created from a plan works through it; the successor of a superseded run has none. */
  ghost predicate Lively(db: Db, r: RunId) {
    r in db.runs && db.runs[r].plan != [] ==> Structured(db, r) && Moving(db, r)
  }

  // ---------------------------------------------------------------------------------------------
  // What it gives
  // ---------------------------------------------------------------------------------------------

  lemma {:induction false} LeastPending(db: Db, r: RunId, ps: set<TaskId>) returns (t: TaskId)
    requires Acyclic(DependencyGraph(db.tasks, r)) && ps != {} && forall u ::
        u in ps ==> u in db.tasks && db.tasks[u].run == r
    ensures t in ps && db.tasks[t].dependsOn !! ps
  {
    var g := DependencyGraph(db.tasks, r);
    assert ps <= g.Keys;
    assert HasLeast(g, ps);
    t :| t in ps && g[t] !! ps;
  }

  function PendingIn(db: Db, r: RunId): set<TaskId> {
    set t | t in db.tasks && db.tasks[t].run == r && db.tasks[t].state == PENDING
  }

  predicate HasLive(db: Db, r: RunId) {
    exists t :: t in db.tasks && db.tasks[t].run == r && Live(db.tasks[t].state)
  }

  /** Without a live task, a failed shard is impossible: its join has been woken and is neither finished
      nor failed. */
  lemma FailedShardHasLiveJoin(db: Db, t: TaskId)
    requires Safe(db) && JoinsWoken(db) && (forall u :: u in db.tasks ==> db.tasks[u].state != CANCELLED)
    requires t in db.tasks && db.tasks[t].state == FAILED && db.tasks[t].run in db.runs
        && RunOpen(db.runs[db.tasks[t].run].state)
    requires Structured(db, db.tasks[t].run)
    ensures HasLive(db, db.tasks[t].run)
  {
    hide Leased, Dispatched, Attempted, Counted, RetriesBounded, Honest, Budgeted, Acyclic;
    assert TaskSound(db.runs, db.tasks, db.groups, t);
    var g := t.groupId;
    var join := db.groups[g].join;
    assert GroupSound(db.tasks, g, db.groups[g]) && TaskSound(db.runs, db.tasks, db.groups, join);
    assert db.tasks[join].state != SUCCEEDED;
    assert db.tasks[join].state != FAILED;
    assert Live(db.tasks[join].state);
  }

  /** A run that is active or waits for a human has a task that is RUNNABLE, RUNNING, WAITING or
      UNKNOWN_OUTCOME. */
  lemma OpenRunHasLive(db: Db, r: RunId)
    requires Safe(db) && Orderly(db) && Lively(db, r) && r in db.runs && db.runs[r].plan != []
        && RunOpen(db.runs[r].state)
    ensures HasLive(db, r)
  {
    hide Leased, Dispatched, Attempted, Counted, RetriesBounded, Honest, Budgeted, Acyclic, Eligible, Ordered,
      FailuresShown, Shaped, GroupsHonest, FailuresFail, Linked, JoinsWoken;
    assert Moving(db, r);
    if !HasLive(db, r) {
      forall t | t in db.tasks && db.tasks[t].run == r
        ensures db.tasks[t].state in {PENDING, SUCCEEDED}
      {
        if db.tasks[t].state == FAILED { FailedShardHasLiveJoin(db, t); }
      }
      var u :| u in db.tasks && db.tasks[u].run == r && db.tasks[u].state != SUCCEEDED;
      assert u in PendingIn(db, r);
      var t := LeastPending(db, r, PendingIn(db, r));
      LeastIsEligible(db, r, t);
    }
  }

  lemma LeastIsEligible(db: Db, r: RunId, t: TaskId)
    requires Linked(db.runs, db.tasks, db.groups) && t in db.tasks && db.tasks[t].run == r
    requires forall u :: u in db.tasks && db.tasks[u].run == r ==> db.tasks[u].state in {PENDING, SUCCEEDED}
    requires db.tasks[t].dependsOn !! PendingIn(db, r)
    ensures Eligible(db, t)
  {
    forall d | d in db.tasks[t].dependsOn
      ensures d in db.tasks && db.tasks[d].state == SUCCEEDED
    {
      assert TaskSound(db.runs, db.tasks, db.groups, t);
      assert TaskSound(db.runs, db.tasks, db.groups, d);
      assert d !in PendingIn(db, r);
    }
  }

  // ---------------------------------------------------------------------------------------------
  // Eligibility
  // ---------------------------------------------------------------------------------------------

  /** Nothing that holds `t` back in `db` has gone in `next`. */
  ghost predicate NoEasier(db: Db, next: Db, t: TaskId)
    requires t in db.tasks && t in next.tasks
  {
    && next.tasks[t].dependsOn == db.tasks[t].dependsOn
    && (forall d :: d in db.tasks[t].dependsOn && d in db.tasks ==>
          && d in next.tasks
          && (next.tasks[d].state == SUCCEEDED ==> db.tasks[d].state == SUCCEEDED)
          && (Terminal(next.tasks[d].state) ==> Terminal(db.tasks[d].state)))
    && (JoinsFailedGroup(next, t) ==> JoinsFailedGroup(db, t))
    && (Joins(next, t) == Joins(db, t))
  }

  lemma NoEasierEligible(db: Db, next: Db, t: TaskId)
    requires t in db.tasks && t in next.tasks && NoEasier(db, next, t) && Eligible(next, t)
    ensures Eligible(db, t)
  {
    hide Joins, JoinsFailedGroup;
    forall d | d in db.tasks[t].dependsOn && d in db.tasks
      ensures !Blocks(db, t, d)
    {
      assert !Blocks(next, t, d);
    }
  }

  lemma SettledStays(db: Db, next: Db, r: RunId)
    requires Settled(db, r)
    requires forall t :: t in next.tasks && next.tasks[t].run == r && next.tasks[t].state == PENDING ==>
        t in db.tasks && db.tasks[t].run == r && db.tasks[t].state == PENDING && NoEasier(db, next, t)
    ensures Settled(next, r)
  {
    hide Eligible, NoEasier;
    forall t | t in next.tasks && next.tasks[t].run == r && next.tasks[t].state == PENDING
      ensures !Eligible(next, t)
    {
      if Eligible(next, t) { NoEasierEligible(db, next, t); }
    }
  }

  /** The joins of a run see the same failed groups if no group of the run has newly failed. */
  lemma SameFailedGroups(db: Db, next: Db, t: TaskId)
    requires SameMembers(db.groups, next.groups)
    requires forall g ::
        g in next.groups && next.groups[g].join == t && next.groups[g].state == GROUP_FAILED ==>
        db.groups[g].state == GROUP_FAILED
    ensures JoinsFailedGroup(next, t) ==> JoinsFailedGroup(db, t)
  {
    if JoinsFailedGroup(next, t) {
      var g :| g in next.groups && next.groups[g].join == t && next.groups[g].state == GROUP_FAILED;
      assert g in db.groups && db.groups[g].join == t && db.groups[g].state == GROUP_FAILED;
    }
  }

  // ---------------------------------------------------------------------------------------------
  // Runs a transaction does not touch
  // ---------------------------------------------------------------------------------------------

  /** Tasks and groups of the run are the same. */
  ghost predicate SameRun(db: Db, next: Db, r: RunId) {
    && (forall t :: t in db.tasks && db.tasks[t].run == r ==> t in next.tasks && next.tasks[t] == db.tasks[t])
    && (forall t :: t in next.tasks && next.tasks[t].run == r ==> t in db.tasks && db.tasks[t].run == r)
    && (forall g :: g in db.groups && g.run == r ==> g in next.groups && next.groups[g] == db.groups[g])
    && (forall g :: g in next.groups && g.run == r ==> g in db.groups)
  }

  lemma SameRunJoins(db: Db, next: Db, r: RunId, t: TaskId)
    requires Linked(db.runs, db.tasks, db.groups) && Linked(next.runs, next.tasks, next.groups) && SameRun(db, next, r)
    requires t in db.tasks && db.tasks[t].run == r
    ensures Joins(next, t) == Joins(db, t) && JoinsFailedGroup(next, t) == JoinsFailedGroup(db, t)
  {
    assert TaskSound(db.runs, db.tasks, db.groups, t);
    forall g | g in db.groups && db.groups[g].join == t
      ensures g in next.groups && next.groups[g] == db.groups[g]
    {
      assert GroupSound(db.tasks, g, db.groups[g]);
    }
    forall g | g in next.groups && next.groups[g].join == t
      ensures g in db.groups && next.groups[g] == db.groups[g]
    {
      assert GroupSound(next.tasks, g, next.groups[g]);
    }
  }

  lemma SameRunNoEasier(db: Db, next: Db, r: RunId, t: TaskId)
    requires Linked(db.runs, db.tasks, db.groups) && Linked(next.runs, next.tasks, next.groups) && SameRun(db, next, r)
    requires t in db.tasks && db.tasks[t].run == r
    ensures t in next.tasks && NoEasier(db, next, t)
  {
    hide Linked, Joins, JoinsFailedGroup;
    SameRunJoins(db, next, r, t);
    LinkedTask(db, t);
    forall d | d in db.tasks[t].dependsOn
      ensures d in db.tasks && db.tasks[d].run == r
    {
      LinkedTask(db, d);
    }
  }

  lemma SameRunMoves(db: Db, next: Db, r: RunId)
    requires Linked(db.runs, db.tasks, db.groups) && Linked(next.runs, next.tasks, next.groups) && SameRun(db, next, r)
    requires r in db.runs && Moving(db, r) && r in next.runs && next.runs[r].state == db.runs[r].state
    ensures Moving(next, r)
  {
    hide Linked, Settled, NoEasier;
    if HasParked(db, r) {
      var t :| t in db.tasks && db.tasks[t].run == r && Parked(db.tasks[t].state);
      assert t in next.tasks && next.tasks[t] == db.tasks[t];
    }
    if !AllSucceeded(db, r) {
      var t :| t in db.tasks && db.tasks[t].run == r && db.tasks[t].state != SUCCEEDED;
      assert t in next.tasks && next.tasks[t] == db.tasks[t];
    }
    if Busy(db, r) {
      var t :| t in db.tasks && db.tasks[t].run == r && Live(db.tasks[t].state) && db.tasks[t].tool.kind != Telegram;
      assert t in next.tasks && next.tasks[t] == db.tasks[t];
    } else if Settled(db, r) {
      forall t | t in db.tasks && db.tasks[t].run == r
        ensures t in next.tasks && NoEasier(db, next, t)
      {
        SameRunNoEasier(db, next, r, t);
      }
      SettledStays(db, next, r);
    }
  }

  lemma SameRunGraph(db: Db, next: Db, r: RunId)
    requires SameRun(db, next, r)
    ensures DependencyGraph(next.tasks, r) == DependencyGraph(db.tasks, r)
  {
  }

  lemma SameRunStructured(db: Db, next: Db, r: RunId)
    requires Linked(db.runs, db.tasks, db.groups) && SameRun(db, next, r) && Structured(db, r)
    requires r in db.runs && r in next.runs && (RunOpen(next.runs[r].state) ==> RunOpen(db.runs[r].state))
    ensures Structured(next, r)
  {
    hide Linked, SameRun, Acyclic, DependencyGraph, Shaped, GroupsHonest, FailuresFail;
    SameRunGraph(db, next, r);
    SameRunShaped(db, next, r);
    SameRunHonest(db, next, r);
    SameRunFailures(db, next, r);
  }

  lemma SameRunShaped(db: Db, next: Db, r: RunId)
    requires Linked(db.runs, db.tasks, db.groups) && SameRun(db, next, r) && Shaped(db.tasks, db.groups, r)
    ensures Shaped(next.tasks, next.groups, r)
  {
    hide Linked;
    forall t, d | t in db.tasks && db.tasks[t].run == r && d in db.tasks[t].dependsOn
      ensures d in db.tasks && db.tasks[d].run == r
    {
      LinkedTask(db, t);
      LinkedTask(db, d);
    }
    forall g | g in db.groups && g.run == r
      ensures db.groups[g].join in db.tasks && db.tasks[db.groups[g].join].run == r
    {
      GroupTasks(db, g);
    }
  }

  lemma SameRunHonest(db: Db, next: Db, r: RunId)
    requires Linked(db.runs, db.tasks, db.groups) && SameRun(db, next, r) && GroupsHonest(db.tasks, db.groups, r)
    ensures GroupsHonest(next.tasks, next.groups, r)
  {
    hide Linked;
    forall g | g in db.groups && g.run == r
      ensures db.groups[g].join in db.tasks && db.tasks[db.groups[g].join].run == r
      ensures MembersSucceeded(db.tasks, db.groups[g]) ==> MembersSucceeded(next.tasks, db.groups[g])
    {
      GroupTasks(db, g);
    }
    hide MembersSucceeded;
  }

  lemma SameRunFailures(db: Db, next: Db, r: RunId)
    requires Linked(db.runs, db.tasks, db.groups) && SameRun(db, next, r) && FailuresFail(db, r)
    requires r in db.runs && r in next.runs && (RunOpen(next.runs[r].state) ==> RunOpen(db.runs[r].state))
    ensures FailuresFail(next, r)
  {
    forall t | t in db.tasks && db.tasks[t].run == r && t.Shard?
      ensures t.groupId.run == r
    {
      assert TaskSound(db.runs, db.tasks, db.groups, t);
    }
    hide Linked;
  }

  lemma GroupTasks(db: Db, g: GroupId)
    requires Linked(db.runs, db.tasks, db.groups) && g in db.groups
    ensures db.groups[g].join in db.tasks && db.tasks[db.groups[g].join].run == g.run
    ensures forall m :: m in db.groups[g].members ==> m in db.tasks && db.tasks[m].run == g.run
  {
    assert GroupSound(db.tasks, g, db.groups[g]);
    assert forall m :: m in db.tasks ==> TaskSound(db.runs, db.tasks, db.groups, m);
  }

  /** A transaction that leaves the run's rows alone keeps it lively. */
  lemma SameRunLively(db: Db, next: Db, r: RunId)
    requires Linked(db.runs, db.tasks, db.groups) && Linked(next.runs, next.tasks, next.groups) && SameRun(db, next, r)
        && Lively(db, r)
    requires r in db.runs && r in next.runs && next.runs[r].state == db.runs[r].state
        && next.runs[r].plan == db.runs[r].plan
    ensures Lively(next, r)
  {
    hide Linked, SameRun, Structured, Moving;
    if db.runs[r].plan != [] {
      SameRunStructured(db, next, r);
      SameRunMoves(db, next, r);
    }
  }

  // ---------------------------------------------------------------------------------------------
  // Changes that keep the structure
  // ---------------------------------------------------------------------------------------------

  lemma SameGraph(a: Tasks, b: Tasks, r: RunId)
    requires SameIdentities(a, b) && Acyclic(DependencyGraph(a, r))
    ensures Acyclic(DependencyGraph(b, r))
  {
    assert forall t :: t in a ==> SameIdentity(a[t], b[t]);
    assert DependencyGraph(b, r) == DependencyGraph(a, r);
  }

  lemma SameShape(a: Tasks, b: Tasks, groups: Groups, groups': Groups, r: RunId)
    requires SameIdentities(a, b) && SameMembers(groups, groups') && Shaped(a, groups, r)
    ensures Shaped(b, groups', r)
  {
    assert forall t :: t in a ==> SameIdentity(a[t], b[t]);
  }

  /** Successes only accumulate, and groups and joins that succeed have their shards succeeded. */
  lemma HonestStays(a: Tasks, b: Tasks, groups: Groups, groups': Groups, r: RunId)
    requires GroupsHonest(a, groups, r) && b.Keys == a.Keys && SameMembers(groups, groups')
    requires forall t :: t in a && a[t].state == SUCCEEDED ==> b[t].state == SUCCEEDED
    requires forall g ::
        g in groups' && g.run == r && groups'[g].state == GROUP_SUCCEEDED && groups[g].state != GROUP_SUCCEEDED ==>
            MembersSucceeded(b, groups'[g])
    requires forall g ::
        g in groups' && g.run == r && groups'[g].join in b && b[groups'[g].join].state == SUCCEEDED
        && a[groups'[g].join].state != SUCCEEDED ==>
            MembersSucceeded(b, groups'[g])
    ensures GroupsHonest(b, groups', r)
  {
    forall g | g in groups' && g.run == r
        && (groups'[g].state == GROUP_SUCCEEDED || (groups'[g].join in b && b[groups'[g].join].state == SUCCEEDED))
      ensures MembersSucceeded(b, groups'[g])
    {
      if groups[g].state == GROUP_SUCCEEDED || (groups[g].join in a && a[groups[g].join].state == SUCCEEDED) {
        assert MembersSucceeded(a, groups[g]);
      }
    }
  }

  // ---------------------------------------------------------------------------------------------
  // Gentle changes
  // ---------------------------------------------------------------------------------------------

  lemma GentleIdentities(a: Tasks, b: Tasks)
    requires GentleTasks(a, b) && forall t :: t in b ==> b[t].routingClass == b[t].tool.routingClass
    ensures SameIdentities(a, b)
  {
    assert forall t :: t in a ==> GentleTask(a[t], b[t]);
  }

  lemma GentleKeepsStructure(db: Db, next: Db, r: RunId)
    requires Gentle(db, next) && Linked(next.runs, next.tasks, next.groups) && Structured(db, r)
    ensures Structured(next, r)
  {
    hide Linked, Acyclic, DependencyGraph, Shaped, SameIdentities;
    RoutesMatch(next);
    GentleIdentities(db.tasks, next.tasks);
    SameGraph(db.tasks, next.tasks, r);
    SameShape(db.tasks, next.tasks, db.groups, next.groups, r);
    GentleHonest(db, next, r);
  }

  lemma GentleHonest(db: Db, next: Db, r: RunId)
    requires Gentle(db, next) && GroupsHonest(db.tasks, db.groups, r) && FailuresFail(db, r)
    ensures GroupsHonest(next.tasks, next.groups, r) && FailuresFail(next, r)
  {
    assert forall t :: t in db.tasks ==> GentleTask(db.tasks[t], next.tasks[t]);
    assert forall g :: g in db.groups ==> next.groups[g] == db.groups[g].(state := next.groups[g].state);
    hide GroupsHonest;
    HonestStays(db.tasks, next.tasks, db.groups, next.groups, r);
  }

  /** Without other live tasks, only notifications move, and nothing waits for them. */
  lemma GentleMoves(db: Db, next: Db, r: RunId)
    requires Gentle(db, next) && Linked(db.runs, db.tasks, db.groups) && Shaped(db.tasks, db.groups, r)
    requires r in db.runs && Moving(db, r) && (next.runs[r].state == WAITING_FOR_HUMAN ==> HasParked(next, r))
    ensures Moving(next, r)
  {
    hide Linked, Settled, NoEasier, Shaped;
    assert forall t :: t in db.tasks ==> GentleTask(db.tasks[t], next.tasks[t]);
    if !AllSucceeded(db, r) {
      var t :| t in db.tasks && db.tasks[t].run == r && db.tasks[t].state != SUCCEEDED;
      assert next.tasks[t].state != SUCCEEDED;
    }
    if Busy(db, r) {
      var t :| t in db.tasks && db.tasks[t].run == r && Live(db.tasks[t].state) && db.tasks[t].tool.kind != Telegram;
      assert Live(next.tasks[t].state) && next.tasks[t].tool.kind != Telegram;
    } else if Settled(db, r) {
      forall t | t in next.tasks && next.tasks[t].run == r && next.tasks[t].state == PENDING
        ensures NoEasier(db, next, t)
      {
        GentleNoEasier(db, next, r, t);
      }
      SettledStays(db, next, r);
    }
  }

  lemma GentleNoEasier(db: Db, next: Db, r: RunId, t: TaskId)
    requires Gentle(db, next) && Linked(db.runs, db.tasks, db.groups) && Shaped(db.tasks, db.groups, r) && !Busy(db, r)
    requires t in db.tasks && db.tasks[t].run == r
    ensures t in next.tasks && NoEasier(db, next, t)
  {
    hide Linked, Joins, JoinsFailedGroup;
    LinkedTask(db, t);
    assert GentleTask(db.tasks[t], next.tasks[t]);
    SameJoins(db, next, t);
    SameFailedGroups(db, next, t);
    forall d | d in db.tasks[t].dependsOn
      ensures d in db.tasks && next.tasks[d].state == db.tasks[d].state
    {
      LinkedTask(db, d);
      assert GentleTask(db.tasks[d], next.tasks[d]);
    }
  }
}
