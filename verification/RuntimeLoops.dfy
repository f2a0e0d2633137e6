/** Working through rows one at a time comes to the same as treating them all at once. The transitions speak
    of sets of rows, the repository loops over them; these lemmas say that a loop's next iteration adds one
    row to the set. */
module RuntimeLoops {
  import opened Wrappers
  import opened RuntimeState
  import opened PlanRegistry
  import opened RuntimeTransitions

  // ---------------------------------------------------------------------------------------------
  // Loops over rows, as functions of what is left to do
  // ---------------------------------------------------------------------------------------------

  /** Inserting rows in two parts is inserting them together. */
  lemma InsertTwice<K, V>(a: map<K, V>, b: map<K, V>, both: map<K, V>, m: map<K, V>)
    requires forall k :: k in both <==> k in a || k in b
    requires forall k :: k in both ==> both[k] == if k in a then a[k] else b[k]
    requires a.Keys !! b.Keys
    ensures b + (a + m) == both + m
  {
  }

  lemma EnqueueNone(db: Db, at: int)
    ensures Enqueue(db, {}, at) == db
  {
    assert Enqueue(db, {}, at).tasks == db.tasks;
    assert Enqueue(db, {}, at).dispatches == db.dispatches;
  }

  lemma EnqueuedRowsExactly(tasks: map<TaskId, Task>, ps: set<TaskId>, at: int)
    ensures var rows := EnqueuedRows(tasks, ps, at);
      && (forall k :: k in rows <==> k.task in ps && k.task in tasks && k.version == tasks[k.task].revision)
      && (forall k :: k in rows ==> rows[k] == NewDispatch(tasks[k.task], at))
  {
  }

  lemma WakeRowsExactly(tasks: map<TaskId, Task>, ps: set<TaskId>, at: int)
    requires ps <= tasks.Keys
    ensures var rows := WakeRows(tasks, ps, at);
      && (forall k :: k in rows <==> k.task in ps && k.version == tasks[k.task].revision + 1)
      && (forall k :: k in rows ==> rows[k] == NewDispatch(tasks[k.task], at))
  {
  }

  lemma EnqueueOneMore(db: Db, ps: set<TaskId>, t: TaskId, at: int)
    requires t !in ps
    ensures Enqueue(Enqueue(db, ps, at), {t}, at) == Enqueue(db, ps + {t}, at)
  {
    hide EnqueuedRows;
    assert EnqueuedTasks(EnqueuedTasks(db.tasks, ps, at), {t}, at) == EnqueuedTasks(db.tasks, ps + {t}, at);
    EnqueuedRowsExactly(db.tasks, ps, at);
    EnqueuedRowsExactly(EnqueuedTasks(db.tasks, ps, at), {t}, at);
    EnqueuedRowsExactly(db.tasks, ps + {t}, at);
    InsertTwice(EnqueuedRows(db.tasks, ps, at), EnqueuedRows(EnqueuedTasks(db.tasks, ps, at), {t}, at),
        EnqueuedRows(db.tasks, ps + {t}, at), db.dispatches);
  }

  /** `moved` is `tasks` after the UPDATE that makes the tasks `ps` RUNNABLE. */
  ghost predicate MovedTasks(tasks: map<TaskId, Task>, moved: map<TaskId, Task>, ps: set<TaskId>) {
    && ps <= tasks.Keys == moved.Keys
    && (forall t :: t in tasks && t !in ps ==> moved[t] == tasks[t])
    && (forall t :: t in ps ==>
        moved[t] == tasks[t].(state := RUNNABLE, revision := tasks[t].revision + 1,
        availableAt := moved[t].availableAt))
  }

  /** UPDATE tasks SET state='RUNNABLE', revision=revision+1, available_at for the rows `ps`. */
  function MakeRunnable(tasks: map<TaskId, Task>, ps: set<TaskId>, at: int): map<TaskId, Task> {
    map t | t in tasks ::
        if t in ps then tasks[t].(state := RUNNABLE, revision := tasks[t].revision + 1, availableAt := at) else tasks[t]
  }

  lemma MadeRunnable(tasks: map<TaskId, Task>, ps: set<TaskId>, at: int)
    requires ps <= tasks.Keys
    ensures MovedTasks(tasks, MakeRunnable(tasks, ps, at), ps)
  {
  }

  lemma MoveThenEnqueue(db: Db, moved: map<TaskId, Task>, ps: set<TaskId>, at: int)
    requires MovedTasks(db.tasks, moved, ps)
    ensures Enqueue(db.(tasks := moved), ps, at) == Wake(db, ps, at)
  {
    hide EnqueuedRows, WakeRows;
    assert EnqueuedTasks(moved, ps, at) == WokenTasks(db.tasks, ps, at);
    EnqueuedRowsExactly(moved, ps, at);
    WakeRowsExactly(db.tasks, ps, at);
    assert EnqueuedRows(moved, ps, at) == WakeRows(db.tasks, ps, at);
  }

  lemma CompleteOneMore(db: Db, rs: set<RunId>, r: RunId)
    ensures CompleteRun(CompleteRuns(db, rs), r) == CompleteRuns(db, rs + {r})
  {
    var once, twice := CompleteRun(CompleteRuns(db, rs), r), CompleteRuns(db, rs + {r});
    assert AllSucceeded(CompleteRuns(db, rs), r) == AllSucceeded(db, r);
    hide AllSucceeded;
    assert once.runs == twice.runs;
  }

  lemma CompleteNone(db: Db)
    ensures CompleteRuns(db, {}) == db
  {
    hide AllSucceeded;
    assert CompleteRuns(db, {}).runs == db.runs;
  }

  /** Promotions of different runs do not see each other. */
  lemma PromoteSameEligibility(db: Db, rs: set<RunId>, t: TaskId)
    requires t in db.tasks
    ensures t in Promote(db, rs).tasks
    ensures Promote(db, rs).tasks[t].dependsOn == db.tasks[t].dependsOn ==>
        Eligible(Promote(db, rs), t) == Eligible(db, t)
  {
    var next := Promote(db, rs);
    assert Joins(next, t) == Joins(db, t) && JoinsFailedGroup(next, t) == JoinsFailedGroup(db, t);
    forall d | d in db.tasks
      ensures d in next.tasks && (next.tasks[d].state == SUCCEEDED <==> db.tasks[d].state == SUCCEEDED)
          && Terminal(next.tasks[d].state) == Terminal(db.tasks[d].state)
    {
    }
    hide Joins, JoinsFailedGroup, Promote;
  }

  lemma WakeNone(db: Db, at: int)
    ensures Wake(db, {}, at) == db
  {
    assert WokenTasks(db.tasks, {}, at) == db.tasks;
    assert WakeRows(db.tasks, {}, at) == map[];
    assert map[] + db.dispatches == db.dispatches;
  }

  lemma PromoteNone(db: Db)
    ensures Promote(db, {}) == db
  {
    hide Eligible, Wake;
    assert Promotable(db, {}) == {};
    WakeNone(db, 0);
  }

  lemma WakeTwice(db: Db, ps: set<TaskId>, qs: set<TaskId>, at: int)
    requires ps !! qs && ps <= db.tasks.Keys && qs <= db.tasks.Keys
    ensures qs <= Wake(db, ps, at).tasks.Keys
    ensures Wake(Wake(db, ps, at), qs, at) == Wake(db, ps + qs, at)
  {
    hide WakeRows;
    assert WokenTasks(WokenTasks(db.tasks, ps, at), qs, at) == WokenTasks(db.tasks, ps + qs, at);
    WakeRowsExactly(db.tasks, ps, at);
    WakeRowsExactly(WokenTasks(db.tasks, ps, at), qs, at);
    WakeRowsExactly(db.tasks, ps + qs, at);
    InsertTwice(WakeRows(db.tasks, ps, at), WakeRows(WokenTasks(db.tasks, ps, at), qs, at),
        WakeRows(db.tasks, ps + qs, at), db.dispatches);
  }

  lemma PromoteOneMore(db: Db, rs: set<RunId>, r: RunId)
    ensures Promote(Promote(db, rs), {r}) == Promote(db, rs + {r})
  {
    var ps, qs := Promotable(db, rs), Promotable(Promote(db, rs), {r});
    PromotableSplits(db, rs, r);
    hide Eligible, Promote, Promotable, Wake;
    PromoteIsWake(db, rs);
    PromoteIsWake(Promote(db, rs), {r});
    PromoteIsWake(db, rs + {r});
    WakeTwice(db, ps, qs, 0);
  }

  lemma PromotableSplits(db: Db, rs: set<RunId>, r: RunId)
    ensures var ps, qs := Promotable(db, rs), Promotable(Promote(db, rs), {r});
      ps !! qs && ps + qs == Promotable(db, rs + {r}) && qs <= db.tasks.Keys
  {
    hide Eligible, Promote;
    var ps, qs := Promotable(db, rs), Promotable(Promote(db, rs), {r});
    forall t | t in db.tasks
      ensures t in Promote(db, rs).tasks && Promote(db, rs).tasks[t] == if t in ps then Woken(db.tasks[t], 0)
          else db.tasks[t]
      ensures Eligible(Promote(db, rs), t) == Eligible(db, t)
    {
      PromotedRow(db, rs, t);
      PromoteSameEligibility(db, rs, t);
    }
    PromotedKeys(db, rs);
    assert qs == Promotable(db, rs + {r}) - ps;
  }

  lemma PromoteIsWake(db: Db, rs: set<RunId>)
    ensures Promotable(db, rs) <= db.tasks.Keys && Promote(db, rs) == Wake(db, Promotable(db, rs), 0)
  {
    hide Eligible, Wake;
  }

  lemma PromotedKeys(db: Db, rs: set<RunId>)
    ensures Promote(db, rs).tasks.Keys == db.tasks.Keys
  {
    hide Eligible, WakeRows;
  }

  lemma PromotedRow(db: Db, rs: set<RunId>, t: TaskId)
    requires t in db.tasks
    ensures t in Promote(db, rs).tasks && Promote(db, rs).tasks[t] == if t in Promotable(db, rs)
        then Woken(db.tasks[t], 0) else db.tasks[t]
  {
    hide Eligible, WakeRows;
  }

  lemma RecoverNone(db: Db)
    ensures RecoverTasks(db, {}) == db
  {
    hide Wake, StoppedTasks, ReleasedTasks, ClosedAttempts;
    assert Doubtful(db, {}) == {} && {} - Doubtful(db, {}) == {};
    NothingStopped(db);
    WakeNone(db, 0);
  }

  lemma NothingStopped(db: Db)
    ensures StoppedTasks(db.tasks, {}, UNKNOWN_OUTCOME) == db.tasks && ReleasedTasks(db.tasks, {}) == db.tasks
        && ClosedAttempts(db, {}) == db.attempts
  {
  }

  /** One stale task after the others. */
  lemma RecoverOneMore(db: Db, ps: set<TaskId>, t: TaskId)
    requires ps <= db.tasks.Keys && t in db.tasks && t !in ps
    ensures t in RecoverTasks(db, ps).tasks
    ensures RecoverTasks(RecoverTasks(db, ps), {t}) == RecoverTasks(db, ps + {t})
  {
    RecoveredRow(db, ps, t);
    RecoverOneTasks(db, ps, t);
    RecoverOneAttempts(db, ps, t);
    RecoverOneRows(db, ps, t);
    hide RecoverTasks;
  }

  lemma RecoveredRow(db: Db, ps: set<TaskId>, t: TaskId)
    requires ps <= db.tasks.Keys && t in db.tasks && t !in ps
    ensures RecoverTasks(db, ps).tasks.Keys == db.tasks.Keys && RecoverTasks(db, ps).tasks[t] == db.tasks[t]
  {
    hide WakeRows, ClosedAttempts;
  }

  lemma RecoverOneTasks(db: Db, ps: set<TaskId>, t: TaskId)
    requires ps <= db.tasks.Keys && t in db.tasks && t !in ps && t in RecoverTasks(db, ps).tasks
    ensures RecoverTasks(RecoverTasks(db, ps), {t}).tasks == RecoverTasks(db, ps + {t}).tasks
  {
    hide WakeRows, ClosedAttempts;
  }

  lemma RecoverOneAttempts(db: Db, ps: set<TaskId>, t: TaskId)
    requires ps <= db.tasks.Keys && t in db.tasks && t !in ps && t in RecoverTasks(db, ps).tasks
    ensures RecoverTasks(RecoverTasks(db, ps), {t}).attempts == RecoverTasks(db, ps + {t}).attempts
  {
    hide WakeRows, WokenTasks, StoppedTasks, ReleasedTasks, Doubtful;
  }

  /** The dispatch rows a recovery adds. */
  function RecoveryRows(db: Db, ps: set<TaskId>): map<DispatchKey, Dispatch>
    requires ps <= db.tasks.Keys
  {
    WakeRows(ReleasedTasks(StoppedTasks(db.tasks, Doubtful(db, ps), UNKNOWN_OUTCOME), ps - Doubtful(db, ps)),
        ps - Doubtful(db, ps), 0)
  }

  lemma RecoveryRowsExactly(db: Db, ps: set<TaskId>)
    requires ps <= db.tasks.Keys
    ensures var rows := RecoveryRows(db, ps);
      && (forall k :: k in rows <==>
          k.task in ps && !EffectUnknown(db, k.task) && k.version == db.tasks[k.task].revision + 1)
      && (forall k :: k in rows ==> rows[k] == NewDispatch(db.tasks[k.task], 0))
  {
    hide WakeRows;
    WakeRowsExactly(ReleasedTasks(StoppedTasks(db.tasks, Doubtful(db, ps), UNKNOWN_OUTCOME), ps - Doubtful(db, ps)),
        ps - Doubtful(db, ps), 0);
  }

  lemma RecoverOneRows(db: Db, ps: set<TaskId>, t: TaskId)
    requires ps <= db.tasks.Keys && t in db.tasks && t !in ps && t in RecoverTasks(db, ps).tasks
    ensures RecoverTasks(RecoverTasks(db, ps), {t}).dispatches == RecoverTasks(db, ps + {t}).dispatches
  {
    hide RecoverTasks, RecoveryRows;
    RecoveredRow(db, ps, t);
    var next := RecoverTasks(db, ps);
    RecoveryRowsExactly(db, ps);
    RecoveryRowsExactly(next, {t});
    RecoveryRowsExactly(db, ps + {t});
    AddedRows(db, ps);
    AddedRows(next, {t});
    AddedRows(db, ps + {t});
    InsertTwice(RecoveryRows(db, ps), RecoveryRows(next, {t}), RecoveryRows(db, ps + {t}), db.dispatches);
  }

  lemma AddedRows(db: Db, ps: set<TaskId>)
    requires ps <= db.tasks.Keys
    ensures RecoverTasks(db, ps).dispatches == RecoveryRows(db, ps) + db.dispatches
        && RecoverTasks(db, ps).effects == db.effects
  {
    hide WakeRows, WokenTasks, StoppedTasks, ReleasedTasks, ClosedAttempts;
  }

  // ---------------------------------------------------------------------------------------------
  // Plan rows
  // ---------------------------------------------------------------------------------------------

  lemma PlanRowsExactly(r: RunId, plan: seq<PlanTask>, reused: Option<nat>, n: nat)
    requires UniqueKeys(plan) && n <= |plan|
    ensures var rows, tasks := PlanRows(r, plan, reused, n), PlanTasks(r, plan, reused, n);
      && (forall k :: k in rows <==> k.version == 1 && k.task in tasks && tasks[k.task].state == RUNNABLE)
      && (forall k :: k in rows ==> rows[k] == NewDispatch(tasks[k.task], 0))
  {
    hide PlanTasks;
  }

  lemma PlanTasksOneMore(r: RunId, plan: seq<PlanTask>, reused: Option<nat>, i: nat)
    requires UniqueKeys(plan) && i < |plan|
    ensures PlanTasks(r, plan, reused, i + 1) ==
        PlanTasks(r, plan, reused, i)[Planned(r, plan[i].key) := InitialTask(r, plan, i, reused)]
    ensures Planned(r, plan[i].key) !in PlanTasks(r, plan, reused, i)
  {
    assert PlanIds(r, plan, i + 1) == PlanIds(r, plan, i) + {Planned(r, plan[i].key)};
    assert Position(plan, plan[i].key) == i;
    hide InitialTask;
  }

  lemma InsertNone(db: Db, r: RunId, plan: seq<PlanTask>, reused: Option<nat>)
    requires UniqueKeys(plan)
    ensures InsertPlan(db, r, plan, reused, 0) == db
  {
    hide PlanTasks, PlanRows, UniqueKeys;
    assert PlanIds(r, plan, 0) == {};
    PlanRowsExactly(r, plan, reused, 0);
    assert PlanTasks(r, plan, reused, 0) == map[] && PlanRows(r, plan, reused, 0) == map[];
    NothingInserted(db);
  }

  lemma NothingInserted(db: Db)
    ensures db.tasks + map[] == db.tasks && map[] + db.dispatches == db.dispatches
  {
  }

  lemma PlanRowsOneMore(r: RunId, plan: seq<PlanTask>, reused: Option<nat>, i: nat, m: map<DispatchKey, Dispatch>)
    requires UniqueKeys(plan) && i < |plan|
    ensures var t, row := Planned(r, plan[i].key), InitialTask(r, plan, i, reused);
      PlanRows(r, plan, reused, i + 1) + m ==
        if row.state == RUNNABLE then map[DispatchKey(t, 1) := NewDispatch(row, 0)] + (PlanRows(r, plan, reused, i) + m)
            else PlanRows(r, plan, reused, i) + m
  {
    hide PlanTasks, PlanRows, UniqueKeys, InitialTask;
    PlanTasksOneMore(r, plan, reused, i);
    PlanRowsExactly(r, plan, reused, i);
    PlanRowsExactly(r, plan, reused, i + 1);
    var t, row := Planned(r, plan[i].key), InitialTask(r, plan, i, reused);
    if row.state == RUNNABLE {
      InsertTwice(PlanRows(r, plan, reused, i), map[DispatchKey(t, 1) := NewDispatch(row, 0)],
          PlanRows(r, plan, reused, i + 1), m);
    } else {
      assert PlanRows(r, plan, reused, i + 1) == PlanRows(r, plan, reused, i);
    }
  }

  lemma InsertedRow(r: RunId, plan: seq<PlanTask>, i: nat, reused: Option<nat>)
    requires i < |plan|
    ensures var row := InitialTask(r, plan, i, reused);
      && row.state == InitialState(plan, i, reused) && row.revision == 1 && row.availableAt == 0
          && row.routingClass == row.tool.routingClass
  {
  }

  lemma EnqueueFresh(db: Db, t: TaskId)
    requires t in db.tasks && db.tasks[t].availableAt == 0 && db.tasks[t].routingClass == db.tasks[t].tool.routingClass
    ensures Enqueue(db, {t}, 0) == db.(dispatches := map[DispatchKey(t,
        db.tasks[t].revision) := NewDispatch(db.tasks[t], 0)] + db.dispatches)
  {
    assert EnqueuedTasks(db.tasks, {t}, 0) == db.tasks;
    EnqueuedRowsExactly(db.tasks, {t}, 0);
    hide EnqueuedRows, EnqueuedTasks;
    assert EnqueuedRows(db.tasks, {t}, 0) == map[DispatchKey(t, db.tasks[t].revision) := NewDispatch(db.tasks[t], 0)];
  }

  lemma InsertOneMore(db: Db, r: RunId, plan: seq<PlanTask>, reused: Option<nat>, i: nat)
    requires UniqueKeys(plan) && i < |plan|
    ensures var t, before := Planned(r, plan[i].key), InsertPlan(db, r, plan, reused, i);
            var inserted := before.(tasks := before.tasks[t := InitialTask(r, plan, i, reused)]);
            InsertPlan(db, r, plan, reused, i + 1) == if InitialState(plan, i, reused) == RUNNABLE
                then Enqueue(inserted, {t}, 0) else inserted
  {
    hide PlanTasks, PlanRows, UniqueKeys, InitialTask, Enqueue;
    var t, before := Planned(r, plan[i].key), InsertPlan(db, r, plan, reused, i);
    var inserted := before.(tasks := before.tasks[t := InitialTask(r, plan, i, reused)]);
    PlanTasksOneMore(r, plan, reused, i);
    PlanRowsOneMore(r, plan, reused, i, db.dispatches);
    InsertedRow(r, plan, i, reused);
    OneMoreTask(db.tasks, PlanTasks(r, plan, reused, i), t, InitialTask(r, plan, i, reused));
    EnqueueFresh(inserted, t);
  }

  lemma OneMoreTask(tasks: map<TaskId, Task>, rows: map<TaskId, Task>, t: TaskId, x: Task)
    ensures tasks + rows[t := x] == (tasks + rows)[t := x]
  {
  }

  // ---------------------------------------------------------------------------------------------
  // Shard rows
  // ---------------------------------------------------------------------------------------------

  /** A shard as it is inserted, before the edges between shards. */
  function UnlinkedShard(d: Descriptor, coordinator: TaskId, i: string): Task
    requires i in d.shards
  {
    ShardTask(d, coordinator, i).(dependsOn := {coordinator})
  }

  function UnlinkedRows(d: Descriptor, coordinator: TaskId, s: set<string>): map<TaskId, Task> {
    map i | i in s && i in d.shards :: Shard(GroupOf(d), i) := UnlinkedShard(d, coordinator, i)
  }

  /** All shards, those of `s` with their edges to other shards. */
  function LinkedRows(d: Descriptor, coordinator: TaskId, s: set<string>): map<TaskId, Task> {
    map i | i in d.shards ::
      Shard(GroupOf(d), i) := if i in s then ShardTask(d, coordinator, i) else UnlinkedShard(d, coordinator, i)
  }

  function EdgesTo(d: Descriptor, s: set<string>): set<TaskId> {
    set i | i in s :: Shard(GroupOf(d), i)
  }

  function MemberRows(d: Descriptor, s: set<string>): map<TaskId, bool> {
    map i | i in s && i in d.shards :: Shard(GroupOf(d), i) := d.shards[i].required
  }

  function JoinEdges(d: Descriptor, s: set<string>): set<TaskId> {
    set i | i in s && i in d.shards :: Shard(GroupOf(d), i)
  }

  lemma ShardOneMore(d: Descriptor, coordinator: TaskId, s: set<string>, i: string)
    requires i in d.shards && i !in s
    ensures UnlinkedRows(d, coordinator, s + {i}) ==
        UnlinkedRows(d, coordinator, s)[Shard(GroupOf(d), i) := UnlinkedShard(d, coordinator, i)]
    ensures MemberRows(d, s + {i}) == MemberRows(d, s)[Shard(GroupOf(d), i) := d.shards[i].required]
    ensures JoinEdges(d, s + {i}) == JoinEdges(d, s) + {Shard(GroupOf(d), i)}
  {
    hide UnlinkedShard;
  }

  lemma NoShards(d: Descriptor, coordinator: TaskId)
    ensures UnlinkedRows(d, coordinator, {}) == map[] && MemberRows(d, {}) == map[] && JoinEdges(d, {}) == {}
  {
  }

  lemma AllShards(d: Descriptor, coordinator: TaskId)
    ensures UnlinkedRows(d, coordinator, d.shards.Keys) == LinkedRows(d, coordinator, {})
    ensures LinkedRows(d, coordinator, d.shards.Keys) == ShardTasks(d, coordinator)
    ensures MemberRows(d, d.shards.Keys) == Members(d) && JoinEdges(d, d.shards.Keys) == ShardIds(d)
  {
    hide ShardTask, UnlinkedShard;
  }

  lemma LinkOneMore(d: Descriptor, coordinator: TaskId, s: set<string>, i: string)
    requires i in d.shards && i !in s
    ensures LinkedRows(d, coordinator, s + {i}) ==
        LinkedRows(d, coordinator, s)[Shard(GroupOf(d), i) := ShardTask(d, coordinator, i)]
  {
    hide ShardTask, UnlinkedShard;
  }

  /** A shard has its edges when all of them are added to what was inserted. */
  lemma ShardIsLinked(d: Descriptor, coordinator: TaskId, s: set<string>, i: string)
    requires i in d.shards && i !in s
    ensures Shard(GroupOf(d), i) in LinkedRows(d, coordinator, s)
    ensures LinkedRows(d, coordinator, s)[Shard(GroupOf(d), i)] == UnlinkedShard(d, coordinator, i)
    ensures UnlinkedShard(d, coordinator, i).dependsOn == {coordinator}
    ensures UnlinkedShard(d, coordinator, i).(dependsOn := {coordinator} + EdgesTo(d, d.shards[i].dependsOn)) ==
        ShardTask(d, coordinator, i)
  {
  }

  lemma EdgeOneMore(d: Descriptor, s: set<string>, i: string)
    ensures EdgesTo(d, s + {i}) == EdgesTo(d, s) + {Shard(GroupOf(d), i)} && EdgesTo(d, {}) == {}
  {
  }
}
