/** No run gets stuck: every disciplined transaction keeps the liveness invariant of a run. The discipline says
    how the run's own plan, fan-outs, joins and final failures are used: as the pipeline's plans and tools use
    them. What is done to the other runs of the database does not matter, superseding them included. */
module RuntimeProgress {
  import opened Wrappers
  import opened RuntimeState
  import opened Graphs
  import opened PlanRegistry
  import opened RuntimeTransitions
  import opened RuntimeInvariant
  import opened RuntimeUnits
  import opened RuntimeGrowth
  import opened RuntimeSafety
  import opened RuntimeOrder
  import opened RuntimeStartOrder
  import opened RuntimeLiveness

  // ---------------------------------------------------------------------------------------------
  // The discipline
  // ---------------------------------------------------------------------------------------------

  ghost function ShardGraph(d: Descriptor): Graph<string> {
    map i | i in d.shards :: d.shards[i].dependsOn
  }

  /** The join is a task of the plan that waits for the coordinator; all shards are required and depend on
      each other without a cycle. */
  ghost predicate SoundFanout(db: Db, coordinator: TaskId, join: TaskId, d: Descriptor) {
    && (join in db.tasks ==>
        join.Planned? && coordinator in db.tasks[join].dependsOn && db.tasks[join].tool.kind != Telegram)
    && (forall i :: i in d.shards ==> d.shards[i].required && d.shards[i].tool.kind != Telegram)
    && Acyclic(ShardGraph(d))
  }

  /** The join's tool has read all its groups as complete. */
  ghost predicate JoinSatisfied(db: Db, join: TaskId) {
    forall g :: g in db.groups && db.groups[g].join == join ==> ReadFanout(db, join, g) == Done
  }

  /** The failure of a task of the plan that will not be retried. */
  predicate FinalFailure(db: Db, c: Credential, v: Verdict) {
    v.Failure? && c.task in db.tasks && db.tasks[c.task].group == None && !Retried(db, c, v)
  }

  predicate NotificationLast(plan: seq<PlanTask>) {
    forall i :: 0 <= i < |plan| - 1 ==> plan[i].tool.kind != Telegram
  }

  /** What is asked of the transactions that concern the run `r`; all others are free. */
  ghost predicate Disciplined(db: Db, s: Step, r: RunId) {
    match s
    case DoCreateRun(q, plan, _, _, _) => q == r ==> NotificationLast(plan)
    case DoMaterialize(coordinator, join, d) => d.run == r ==> SoundFanout(db, coordinator, join, d)
    case DoOutcome(c, v, _) =>
      c.task in db.tasks && db.tasks[c.task].run == r ==>
        && (v.Success? ==> JoinSatisfied(db, c.task))
        && (FinalFailure(db, c, v) ==> !RunIs(db, r, WAITING_FOR_HUMAN))
    case _ => true
  }

  // ---------------------------------------------------------------------------------------------
  // Promotion
  // ---------------------------------------------------------------------------------------------

  lemma PromoteNoEasier(db: Db, rs: set<RunId>, t: TaskId)
    requires t in db.tasks && db.tasks[t].dependsOn == Promote(db, rs).tasks[t].dependsOn
    ensures NoEasier(db, Promote(db, rs), t)
  {
    hide Promote, Joins, JoinsFailedGroup, Eligible;
    var next := Promote(db, rs);
    PromotedIds(db, rs);
    SameMembersReflexive(db.groups);
    SameJoins(db, next, t);
    SameFailedGroups(db, next, t);
    forall d | d in db.tasks[t].dependsOn && d in db.tasks
      ensures next.tasks[d].state == SUCCEEDED ==> db.tasks[d].state == SUCCEEDED
      ensures Terminal(next.tasks[d].state) ==> Terminal(db.tasks[d].state)
    {
      PromotedTask(db, rs, d);
    }
  }

  /** After a promotion nothing in its runs is left that could be promoted. */
  lemma PromoteSettles(db: Db, rs: set<RunId>, r: RunId)
    requires r in rs
    ensures Settled(Promote(db, rs), r)
  {
    hide Promote, Eligible, NoEasier;
    var next := Promote(db, rs);
    PromotedIds(db, rs);
    forall t | t in next.tasks && next.tasks[t].run == r && next.tasks[t].state == PENDING
      ensures !Eligible(next, t)
    {
      PromotedTask(db, rs, t);
      PromoteNoEasier(db, rs, t);
      if Eligible(next, t) { NoEasierEligible(db, next, t); }
    }
  }

  lemma PromoteKeepsMarks(db: Db, rs: set<RunId>, r: RunId)
    ensures HasParked(db, r) ==> HasParked(Promote(db, rs), r)
    ensures !AllSucceeded(db, r) ==> !AllSucceeded(Promote(db, rs), r)
  {
    hide Promote, Eligible;
    PromotedIds(db, rs);
    if HasParked(db, r) {
      var t :| t in db.tasks && db.tasks[t].run == r && Parked(db.tasks[t].state);
      PromotedTask(db, rs, t);
      assert t in Promote(db, rs).tasks && Promote(db, rs).tasks[t] == db.tasks[t];
    }
    if !AllSucceeded(db, r) {
      var t :| t in db.tasks && db.tasks[t].run == r && db.tasks[t].state != SUCCEEDED;
      PromotedTask(db, rs, t);
      assert Promote(db, rs).tasks[t].state != SUCCEEDED;
    }
  }

  lemma PromoteElsewhere(db: Db, rs: set<RunId>, r: RunId)
    requires r !in rs
    ensures SameRun(db, Promote(db, rs), r)
  {
    hide Promote, Eligible;
    PromotedIds(db, rs);
    forall t | t in db.tasks
      ensures Promote(db, rs).tasks[t].run == db.tasks[t].run
      ensures db.tasks[t].run == r ==> Promote(db, rs).tasks[t] == db.tasks[t]
    {
      PromotedTask(db, rs, t);
    }
  }

  lemma PromoteMoves(db: Db, rs: set<RunId>, r: RunId)
    requires Safe(db) && r in db.runs
    requires r !in rs ==> Moving(db, r)
    requires db.runs[r].state == WAITING_FOR_HUMAN ==> HasParked(db, r)
    requires RunOpen(db.runs[r].state) ==> !AllSucceeded(db, r)
    ensures Moving(Promote(db, rs), r)
  {
    hide Linked, Leased, Dispatched, Attempted, Counted, RetriesBounded, Honest, Budgeted, Promote, HasParked,
      AllSucceeded, Busy, Settled, SameRun, Advances;
    if r in rs {
      PromoteSettles(db, rs, r);
      PromoteKeepsMarks(db, rs, r);
    } else {
      PromoteElsewhere(db, rs, r);
      PromoteKeeps(db, rs);
      SameRunMoves(db, Promote(db, rs), r);
    }
  }

  lemma PromotedIdentities(db: Db, rs: set<RunId>)
    requires forall t :: t in db.tasks ==> db.tasks[t].routingClass == db.tasks[t].tool.routingClass
    ensures SameIdentities(db.tasks, Promote(db, rs).tasks)
    ensures forall t :: t in db.tasks ==>
              && (Promote(db, rs).tasks[t].state == SUCCEEDED <==> db.tasks[t].state == SUCCEEDED)
              && (Promote(db, rs).tasks[t].state == FAILED <==> db.tasks[t].state == FAILED)
  {
    hide Promote, Eligible;
    PromotedIds(db, rs);
    forall t | t in db.tasks
      ensures SameIdentity(db.tasks[t], Promote(db, rs).tasks[t])
      ensures Promote(db, rs).tasks[t].state == SUCCEEDED <==> db.tasks[t].state == SUCCEEDED
      ensures Promote(db, rs).tasks[t].state == FAILED <==> db.tasks[t].state == FAILED
    {
      PromotedTask(db, rs, t);
    }
  }

  lemma PromoteKeepsStructure(db: Db, rs: set<RunId>, r: RunId)
    requires Linked(db.runs, db.tasks, db.groups) && Structured(db, r)
    ensures Structured(Promote(db, rs), r)
  {
    hide Linked, Acyclic, DependencyGraph, Shaped, SameIdentities, Promote, GroupsHonest;
    RoutesMatch(db);
    PromotedIdentities(db, rs);
    PromotedIds(db, rs);
    SameMembersReflexive(db.groups);
    SameGraph(db.tasks, Promote(db, rs).tasks, r);
    SameShape(db.tasks, Promote(db, rs).tasks, db.groups, db.groups, r);
    HonestStays(db.tasks, Promote(db, rs).tasks, db.groups, db.groups, r);
    forall t | t in Promote(db, rs).tasks
      ensures Promote(db, rs).tasks[t].run == db.tasks[t].run
    {
      PromotedTask(db, rs, t);
    }
  }

  // ---------------------------------------------------------------------------------------------
  // Stopping tasks
  // ---------------------------------------------------------------------------------------------

  lemma StoppedIdentities(tasks: Tasks, ps: set<TaskId>, s: TaskState)
    requires AllLive(tasks, ps)
    ensures var b := StoppedTasks(tasks, ps, s);
      && SameIdentities(tasks, b) && b.Keys == tasks.Keys
      && (forall t :: t in tasks ==>
          b[t].run == tasks[t].run && b[t].tool == tasks[t].tool && b[t].state == if t in ps then s else tasks[t].state)
      && (forall t :: t in tasks && t !in ps ==> b[t] == tasks[t])
  {
  }

  /** Stopping tasks keeps the structure, apart from the failures it brings; a join among them must have
      seen its shards succeed. */
  lemma StopKeepsStructure(db: Db, next: Db, ps: set<TaskId>, s: TaskState, r: RunId)
    requires Structured(db, r) && AllLive(db.tasks, ps) && next.tasks == StoppedTasks(db.tasks, ps, s)
        && next.groups == db.groups
    requires s == SUCCEEDED ==>
        forall g ::
            g in db.groups && g.run == r && db.groups[g].join in ps ==> MembersSucceeded(db.tasks, db.groups[g])
    ensures Acyclic(DependencyGraph(next.tasks, r)) && Shaped(next.tasks, next.groups, r)
        && GroupsHonest(next.tasks, next.groups, r)
    ensures s != FAILED && (r in next.runs && RunOpen(next.runs[r].state) ==>
        r in db.runs && RunOpen(db.runs[r].state)) ==>
              FailuresFail(next, r)
  {
    hide Acyclic, DependencyGraph, Shaped, SameIdentities, StoppedTasks, GroupsHonest;
    StoppedIdentities(db.tasks, ps, s);
    SameMembersReflexive(db.groups);
    SameGraph(db.tasks, next.tasks, r);
    SameShape(db.tasks, next.tasks, db.groups, next.groups, r);
    HonestStays(db.tasks, next.tasks, db.groups, next.groups, r);
  }

  lemma StoppedElsewhere(db: Db, next: Db, ps: set<TaskId>, s: TaskState, r: RunId)
    requires AllLive(db.tasks, ps) && next.tasks == StoppedTasks(db.tasks, ps, s)
    requires forall t :: t in ps ==> db.tasks[t].run != r
    requires forall g :: g in db.groups && g.run == r ==> g in next.groups && next.groups[g] == db.groups[g]
    requires forall g :: g in next.groups && g.run == r ==> g in db.groups
    ensures SameRun(db, next, r)
  {
    hide StoppedTasks;
    StoppedIdentities(db.tasks, ps, s);
  }

  lemma StoppedParked(db: Db, next: Db, t: TaskId, s: TaskState, r: RunId)
    requires t in db.tasks && db.tasks[t].state == RUNNING && next.tasks == StoppedTasks(db.tasks, {t}, s)
        && HasParked(db, r)
    ensures HasParked(next, r)
  {
    hide StoppedTasks;
    StoppedIdentities(db.tasks, {t}, s);
    var u :| u in db.tasks && db.tasks[u].run == r && Parked(db.tasks[u].state);
    assert next.tasks[u] == db.tasks[u];
  }

  // ---------------------------------------------------------------------------------------------
  // Outcomes
  // ---------------------------------------------------------------------------------------------

  lemma SatisfiedMembers(db: Db, join: TaskId, g: GroupId)
    requires Linked(db.runs, db.tasks, db.groups) && Shaped(db.tasks, db.groups, g.run) && g in db.groups
        && db.groups[g].join == join
    requires ReadFanout(db, join, g) == Done
    ensures MembersSucceeded(db.tasks, db.groups[g])
  {
    hide TaskSound;
    assert GroupSound(db.tasks, g, db.groups[g]);
    forall m | m in db.groups[g].members
      ensures m in db.tasks && db.tasks[m].state == SUCCEEDED
    {
      assert m in Required(db, g);
    }
  }

  lemma FinishedTasks(db: Db, c: Credential, v: Verdict, s: TaskState)
    ensures var next := Finish(db, c, v, s);
        next.tasks == StoppedTasks(db.tasks, {c.task}, s) && next.groups == db.groups && next.runs == db.runs
  {
    hide RecordVerdict, StoppedTasks;
  }

  lemma SuccessStructured(db: Db, c: Credential, v: Verdict)
    requires Linked(db.runs, db.tasks, db.groups) && HoldsLease(db, c) && JoinSatisfied(db, c.task)
    requires Structured(db, db.tasks[c.task].run)
    ensures Structured(Finish(db, c, v, SUCCEEDED), db.tasks[c.task].run)
  {
    hide Linked, Acyclic, Shaped, GroupsHonest, FailuresFail, Finish, StoppedTasks, MembersSucceeded, ReadFanout;
    var r := db.tasks[c.task].run;
    FinishedTasks(db, c, v, SUCCEEDED);
    forall g | g in db.groups && g.run == r && db.groups[g].join == c.task
      ensures MembersSucceeded(db.tasks, db.groups[g])
    {
      SatisfiedMembers(db, c.task, g);
    }
    StopKeepsStructure(db, Finish(db, c, v, SUCCEEDED), {c.task}, SUCCEEDED, r);
  }

  lemma FinishMarks(db: Db, c: Credential, v: Verdict, s: TaskState)
    requires HoldsLease(db, c) && db.tasks[c.task].run in db.runs && Moving(db, db.tasks[c.task].run)
        && s !in {PENDING, RUNNABLE, RUNNING}
    ensures db.runs[db.tasks[c.task].run].state == WAITING_FOR_HUMAN ==>
        HasParked(Finish(db, c, v, s), db.tasks[c.task].run)
    ensures s != SUCCEEDED ==> !AllSucceeded(Finish(db, c, v, s), db.tasks[c.task].run)
  {
    hide Finish, StoppedTasks, HasParked, Busy, Settled;
    FinishedTasks(db, c, v, s);
    StoppedIdentities(db.tasks, {c.task}, s);
    var r := db.tasks[c.task].run;
    if db.runs[r].state == WAITING_FOR_HUMAN { StoppedParked(db, Finish(db, c, v, s), c.task, s, r); }
  }

  lemma ParkedUnfinished(db: Db, r: RunId)
    requires HasParked(db, r)
    ensures !AllSucceeded(db, r)
  {
    var t :| t in db.tasks && db.tasks[t].run == r && Parked(db.tasks[t].state);
    assert db.tasks[t].state != SUCCEEDED;
  }

  lemma RunStatesKeepStructure(db: Db, next: Db, r: RunId)
    requires Structured(db, r) && next == db.(runs := next.runs)
    requires r in next.runs && RunOpen(next.runs[r].state) ==> r in db.runs && RunOpen(db.runs[r].state)
    ensures Structured(next, r)
  {
    hide Acyclic, DependencyGraph, Shaped, GroupsHonest;
  }

  lemma SameTablesMove(db: Db, next: Db, r: RunId)
    requires next == db.(runs := next.runs) && r in db.runs && r in next.runs
    requires next.runs[r].state == db.runs[r].state || !RunOpen(next.runs[r].state)
    requires RunOpen(next.runs[r].state) ==> Moving(db, r)
    ensures Moving(next, r)
  {
    if RunOpen(next.runs[r].state) {
      assert forall t :: t in db.tasks ==> Eligible(next, t) == Eligible(db, t) by {
        assert forall t :: Joins(next, t) == Joins(db, t) && JoinsFailedGroup(next, t) == JoinsFailedGroup(db, t);
      }
      hide Eligible;
    }
  }

  /** The last success closes its run. */
  lemma SuccessMoves(db: Db, c: Credential, v: Verdict)
    requires Safe(db) && HoldsLease(db, c) && AttemptOpen(db, c) && Issued(db, c) && JoinSatisfied(db, c.task)
    requires Structured(db, db.tasks[c.task].run) && db.tasks[c.task].run in db.runs && Moving(db, db.tasks[c.task].run)
    ensures var r := db.tasks[c.task].run; var next := CompleteRun(Promote(Finish(db, c, v, SUCCEEDED), {r}), r);
      Structured(next, r) && r in next.runs && Moving(next, r)
  {
    hide Linked, Leased, Dispatched, Attempted, Counted, RetriesBounded, Honest, Budgeted, Finish, Promote, HasParked,
      AllSucceeded, Busy, Settled, Structured, Advances, Issued, AttemptOpen, JoinSatisfied;
    var r := db.tasks[c.task].run;
    var finished := Finish(db, c, v, SUCCEEDED);
    var promoted := Promote(finished, {r});
    FinishedTasks(db, c, v, SUCCEEDED);
    FinishKept(db, c, v, SUCCEEDED);
    SuccessStructured(db, c, v);
    PromoteKeepsStructure(finished, {r}, r);
    RunStatesKeepStructure(promoted, CompleteRun(promoted, r), r);
    FinishMarks(db, c, v, SUCCEEDED);
    PromoteSettles(finished, {r}, r);
    PromoteKeepsMarks(finished, {r}, r);
    if HasParked(promoted, r) { ParkedUnfinished(promoted, r); }
    SameTablesMove(promoted, CompleteRun(promoted, r), r);
  }

  lemma FailGroupStates(db: Db, g: GroupId)
    requires g in db.groups
    ensures var groups := FailGroup(db, g).groups;
      && SameMembers(db.groups, groups)
      && (forall h :: h in db.groups && h != g ==> groups[h] == db.groups[h])
      && (groups[g].state == GROUP_FAILED || (db.groups[g].state == GROUP_SUCCEEDED && groups[g] == db.groups[g]))
      && (forall h :: h in db.groups && groups[h].state == GROUP_SUCCEEDED ==> db.groups[h].state == GROUP_SUCCEEDED)
      && (forall h :: h in db.groups && db.groups[h].state == GROUP_FAILED ==> groups[h].state == GROUP_FAILED)
  {
    hide FailGroup;
    FailedAlone(db, g);
    FailedState(db, g);
  }

  lemma FailedState(db: Db, g: GroupId)
    requires g in db.groups && g in FailGroup(db, g).groups
    ensures FailGroup(db, g).groups[g].state == GROUP_FAILED
        || (db.groups[g].state == GROUP_SUCCEEDED && FailGroup(db, g).groups[g] == db.groups[g])
  {
  }

  /** A shard that fails takes its group down: the group cannot have succeeded without it. */
  lemma BadShardStructured(db: Db, c: Credential, v: Verdict, s: TaskState)
    requires Linked(db.runs, db.tasks, db.groups) && HoldsLease(db, c) && Structured(db, db.tasks[c.task].run)
    requires db.tasks[c.task].group.Some? && s in {FAILED, UNKNOWN_OUTCOME}
    ensures Structured(FailGroup(Finish(db, c, v, s), db.tasks[c.task].group.value), db.tasks[c.task].run)
  {
    hide Linked, Acyclic, Shaped, Finish, StoppedTasks, FailGroup, DependencyGraph, SameIdentities, GroupsHonest;
    var g, r := db.tasks[c.task].group.value, db.tasks[c.task].run;
    var finished := Finish(db, c, v, s);
    ShardGroup(db, c.task);
    FinishedTasks(db, c, v, s);
    StoppedIdentities(db.tasks, {c.task}, s);
    FailGroupStates(finished, g);
    StopKeepsStructure(db, finished, {c.task}, s, r);
    SameTasksShape(finished.tasks, finished.groups, FailGroup(finished, g).groups, r);
    HonestStays(finished.tasks, finished.tasks, finished.groups, FailGroup(finished, g).groups, r);
    BadShardGroup(db, c.task);
  }

  /** A group with an unfinished shard has not succeeded. */
  lemma BadShardGroup(db: Db, t: TaskId)
    requires Linked(db.runs, db.tasks, db.groups) && t in db.tasks && db.tasks[t].group.Some?
        && db.tasks[t].state != SUCCEEDED
    requires GroupsHonest(db.tasks, db.groups, db.tasks[t].run)
    ensures db.tasks[t].group.value in db.groups && db.groups[db.tasks[t].group.value].state != GROUP_SUCCEEDED
  {
    ShardGroup(db, t);
    hide Linked;
  }

  lemma SameTasksShape(tasks: Tasks, groups: Groups, groups': Groups, r: RunId)
    requires SameMembers(groups, groups') && Shaped(tasks, groups, r)
    ensures Shaped(tasks, groups', r)
  {
  }

  lemma BadShardElsewhere(db: Db, c: Credential, v: Verdict, s: TaskState, r: RunId)
    requires Linked(db.runs, db.tasks, db.groups) && HoldsLease(db, c) && db.tasks[c.task].group.Some?
        && r != db.tasks[c.task].run
    ensures SameRun(db, FailGroup(Finish(db, c, v, s), db.tasks[c.task].group.value), r)
  {
    hide Linked, Finish, StoppedTasks, FailGroup;
    var g := db.tasks[c.task].group.value;
    ShardGroup(db, c.task);
    FinishedTasks(db, c, v, s);
    FailGroupStates(Finish(db, c, v, s), g);
    StoppedElsewhere(db, FailGroup(Finish(db, c, v, s), g), {c.task}, s, r);
  }

  lemma SameTasksMarks(db: Db, next: Db, r: RunId)
    requires next.tasks == db.tasks
    ensures HasParked(next, r) == HasParked(db, r) && AllSucceeded(next, r) == AllSucceeded(db, r)
  {
  }

  lemma BadShardMoves(db: Db, c: Credential, v: Verdict, s: TaskState)
    requires Safe(db) && HoldsLease(db, c) && AttemptOpen(db, c) && Issued(db, c)
    requires Structured(db, db.tasks[c.task].run) && db.tasks[c.task].run in db.runs && Moving(db, db.tasks[c.task].run)
    requires s in {FAILED, UNKNOWN_OUTCOME} && db.tasks[c.task].group.Some?
    ensures var r := db.tasks[c.task].run; var next := FinishBadly(db, c, v, s);
        Structured(next, r) && r in next.runs && Moving(next, r)
  {
    hide Linked, Leased, Dispatched, Attempted, Counted, RetriesBounded, Honest, Budgeted, Finish, Promote, FailGroup,
      HasParked, AllSucceeded, Busy, Settled, Structured, Advances, Issued, AttemptOpen, SameRun;
    var g, r := db.tasks[c.task].group.value, db.tasks[c.task].run;
    var finished := Finish(db, c, v, s);
    var failed := FailGroup(finished, g);
    FinishedTasks(db, c, v, s);
    FinishKept(db, c, v, s);
    FailGroupKeeps(finished, g);
    BadShardStructured(db, c, v, s);
    PromoteKeepsStructure(failed, {r}, r);
    FinishMarks(db, c, v, s);
    SameTasksMarks(finished, failed, r);
    PromoteMoves(failed, {r}, r);
  }

  lemma BadTaskStructured(db: Db, c: Credential, v: Verdict)
    requires HoldsLease(db, c) && db.tasks[c.task].group == None && !RunIs(db, db.tasks[c.task].run, WAITING_FOR_HUMAN)
    requires Structured(db, db.tasks[c.task].run)
    ensures Structured(FinishBadly(db, c, v, FAILED), db.tasks[c.task].run)
  {
    hide Acyclic, Shaped, GroupsHonest, Finish, StoppedTasks, DependencyGraph;
    FinishedTasks(db, c, v, FAILED);
    StoppedIdentities(db.tasks, {c.task}, FAILED);
    StopKeepsStructure(db, Finish(db, c, v, FAILED), {c.task}, FAILED, db.tasks[c.task].run);
  }

  lemma BadTaskMoves(db: Db, c: Credential, v: Verdict)
    requires HoldsLease(db, c) && db.tasks[c.task].group == None && !RunIs(db, db.tasks[c.task].run, WAITING_FOR_HUMAN)
    requires Structured(db, db.tasks[c.task].run) && db.tasks[c.task].run in db.runs && Moving(db, db.tasks[c.task].run)
    ensures var r := db.tasks[c.task].run; var next := FinishBadly(db, c, v, FAILED);
        Structured(next, r) && r in next.runs && Moving(next, r)
  {
    hide Finish, HasParked, AllSucceeded, Busy, Settled, Structured;
    FinishedTasks(db, c, v, FAILED);
    BadTaskStructured(db, c, v);
    FinishMarks(db, c, v, FAILED);
    SameTablesMove(Finish(db, c, v, FAILED), FinishBadly(db, c, v, FAILED), db.tasks[c.task].run);
  }

  lemma SameRunTransitive(a: Db, b: Db, c: Db, r: RunId)
    requires SameRun(a, b, r) && SameRun(b, c, r)
    ensures SameRun(a, c, r)
  {
  }

  lemma SameTablesRun(db: Db, next: Db, r: RunId)
    requires next.tasks == db.tasks && next.groups == db.groups
    ensures SameRun(db, next, r)
  {
  }

  lemma FinishedElsewhere(db: Db, c: Credential, v: Verdict, s: TaskState, r: RunId)
    requires HoldsLease(db, c) && db.tasks[c.task].run != r
    ensures SameRun(db, Finish(db, c, v, s), r)
  {
    hide Finish, StoppedTasks;
    FinishedTasks(db, c, v, s);
    StoppedElsewhere(db, Finish(db, c, v, s), {c.task}, s, r);
  }

  /** The outcome of a task leaves the rows of the other runs alone. */
  lemma OutcomeElsewhere(db: Db, c: Credential, v: Verdict, now: int, r: RunId)
    requires Linked(db.runs, db.tasks, db.groups) && !IsGentle(db, DoOutcome(c, v, now)) && db.tasks[c.task].run != r
        && r in db.runs
    ensures var next := Outcome(db, c, v, now).db; SameRun(db, next, r) && r in next.runs && next.runs[r] == db.runs[r]
  {
    hide Linked, Finish, Promote, FailGroup, AllSucceeded, SameRun, FailedAttemptsOf;
    var q, next := db.tasks[c.task].run, Outcome(db, c, v, now).db;
    var s := if v == Success then SUCCEEDED else if v == Unknown then UNKNOWN_OUTCOME else FAILED;
    var finished := Finish(db, c, v, s);
    FinishedElsewhere(db, c, v, s, r);
    if v == Success {
      PromoteElsewhere(finished, {q}, r);
      SameRunTransitive(db, finished, Promote(finished, {q}), r);
      SameTablesRun(Promote(finished, {q}), next, r);
      SameRunTransitive(db, Promote(finished, {q}), next, r);
    } else if db.tasks[c.task].group.Some? {
      BadShardElsewhere(db, c, v, s, r);
      var failed := FailGroup(finished, db.tasks[c.task].group.value);
      PromoteElsewhere(failed, {q}, r);
      SameRunTransitive(db, failed, next, r);
    } else {
      SameTablesRun(finished, next, r);
      SameRunTransitive(db, finished, next, r);
    }
  }

  // ---------------------------------------------------------------------------------------------
  // Groups
  // ---------------------------------------------------------------------------------------------

  lemma CompletedStructure(db: Db, g: GroupId, r: RunId)
    requires Linked(db.runs, db.tasks, db.groups) && Structured(db, r) && CompleteFanout(db, g).answer == Done
    ensures Structured(CompleteFanout(db, g).db, r)
  {
    hide Linked, Acyclic, DependencyGraph, Shaped, GroupsHonest, Required;
    var next := CompleteFanout(db, g).db;
    if g.run == r { RequiredMembers(db, g); }
    GroupStateAlone(db.groups, g, GROUP_SUCCEEDED);
    SameTasksShape(db.tasks, db.groups, next.groups, r);
    HonestStays(db.tasks, db.tasks, db.groups, next.groups, r);
    forall t | t in db.tasks && db.tasks[t].run == r && db.tasks[t].state == FAILED && t.Shard?
      ensures t.groupId != g
    {
      ShardGroup(db, t);
    }
  }

  lemma RequiredMembers(db: Db, g: GroupId)
    requires Linked(db.runs, db.tasks, db.groups) && Shaped(db.tasks, db.groups, g.run) && g in db.groups
    requires forall m :: m in Required(db, g) ==> db.tasks[m].state == SUCCEEDED
    ensures MembersSucceeded(db.tasks, db.groups[g])
  {
    assert GroupSound(db.tasks, g, db.groups[g]);
    forall m | m in db.groups[g].members
      ensures m in db.tasks && db.tasks[m].state == SUCCEEDED
    {
      assert m in Required(db, g);
    }
  }

  lemma CompletedMoves(db: Db, g: GroupId, r: RunId)
    requires g in db.groups && r in db.runs && Moving(db, r)
    ensures Moving(db.(groups := db.groups[g := db.groups[g].(state := GROUP_SUCCEEDED)]), r)
  {
    hide Settled, NoEasier, Joins, JoinsFailedGroup, HasParked, AllSucceeded, Busy;
    var next := db.(groups := db.groups[g := db.groups[g].(state := GROUP_SUCCEEDED)]);
    SameTasksMarks(db, next, r);
    SameTasksBusy(db, next, r);
    if Settled(db, r) {
      forall t | t in db.tasks
        ensures NoEasier(db, next, t)
      {
        CompletedNoEasier(db, g, t);
      }
      SettledStays(db, next, r);
    }
  }

  lemma SameTasksBusy(db: Db, next: Db, r: RunId)
    requires next.tasks == db.tasks
    ensures Busy(next, r) == Busy(db, r)
  {
  }

  lemma CompletedNoEasier(db: Db, g: GroupId, t: TaskId)
    requires g in db.groups && t in db.tasks
    ensures NoEasier(db, db.(groups := db.groups[g := db.groups[g].(state := GROUP_SUCCEEDED)]), t)
  {
    hide Joins, JoinsFailedGroup;
    var next := db.(groups := db.groups[g := db.groups[g].(state := GROUP_SUCCEEDED)]);
    GroupStateAlone(db.groups, g, GROUP_SUCCEEDED);
    SameJoins(db, next, t);
    SameFailedGroups(db, next, t);
  }

  lemma CompleteFanoutKeepsLively(db: Db, g: GroupId, r: RunId)
    requires Safe(db) && Lively(db, r)
    ensures Lively(CompleteFanout(db, g).db, r)
  {
    hide Linked, Leased, Dispatched, Attempted, Counted, RetriesBounded, Honest, Budgeted, Structured, Moving, Required;
    if CompleteFanout(db, g).answer == Done && r in db.runs && db.runs[r].plan != [] {
      CompletedStructure(db, g, r);
      CompletedMoves(db, g, r);
    }
  }

  // ---------------------------------------------------------------------------------------------
  // Recovery of leases
  // ---------------------------------------------------------------------------------------------

  lemma NotifiedStructure(db: Db, r: RunId)
    requires Structured(db, r)
    ensures Structured(FinishNotifications(db), r)
  {
    hide Acyclic, DependencyGraph, GroupsHonest, FailuresFail, StoppedTasks, MembersSucceeded, AllSucceeded, RunsOf,
      Published;
    var stopped := Stop(db, NotifiedEnough(db), SUCCEEDED);
    StaleLive(db, 0);
    StopKeepsStructure(db, stopped, NotifiedEnough(db), SUCCEEDED, r);
    RunStatesKeepStructure(stopped, FinishNotifications(db), r);
  }

  lemma NotifiedMoves(db: Db, r: RunId)
    requires Safe(db) && Shaped(db.tasks, db.groups, r) && r in db.runs && Moving(db, r)
    ensures Moving(FinishNotifications(db), r)
  {
    hide Linked, Leased, Dispatched, Attempted, Counted, RetriesBounded, Honest, Budgeted, Shaped, Stop, AllSucceeded,
      Settled, Busy, HasParked, NotifiedEnough, SameRun, Advances;
    var done := NotifiedEnough(db);
    var stopped := Stop(db, done, SUCCEEDED);
    StopNotified(db);
    if r in RunsOf(db, done) {
      NotifiedRun(db, r);
      SameTablesMove(stopped, FinishNotifications(db), r);
    } else {
      NotifiedElsewhere(db, r);
      SameRunMoves(db, stopped, r);
      SameTablesMove(stopped, FinishNotifications(db), r);
    }
  }

  lemma StopNotified(db: Db)
    requires Safe(db)
    ensures Safe(Stop(db, NotifiedEnough(db), SUCCEEDED))
    ensures Stop(db, NotifiedEnough(db), SUCCEEDED).tasks == StoppedTasks(db.tasks, NotifiedEnough(db), SUCCEEDED)
  {
    hide Safe, Advances, StoppedTasks, Published;
    StopKeeps(db, NotifiedEnough(db), SUCCEEDED);
  }

  lemma NotifiedElsewhere(db: Db, r: RunId)
    requires r !in RunsOf(db, NotifiedEnough(db))
    ensures SameRun(db, Stop(db, NotifiedEnough(db), SUCCEEDED), r)
  {
    hide StoppedTasks, Published;
    StaleLive(db, 0);
    StoppedElsewhere(db, Stop(db, NotifiedEnough(db), SUCCEEDED), NotifiedEnough(db), SUCCEEDED, r);
  }

  /** Nothing waits for the notifications that are declared complete. */
  lemma NotifiedRun(db: Db, r: RunId)
    requires Linked(db.runs, db.tasks, db.groups) && Shaped(db.tasks, db.groups, r)
        && r in RunsOf(db, NotifiedEnough(db))
    ensures RunIs(db, r, ACTIVE)
    ensures Busy(db, r) ==> Busy(Stop(db, NotifiedEnough(db), SUCCEEDED), r)
    ensures Settled(db, r) ==> Settled(Stop(db, NotifiedEnough(db), SUCCEEDED), r)
  {
    hide StoppedTasks, Published, Linked, Shaped, NoEasier, Settled;
    var next := Stop(db, NotifiedEnough(db), SUCCEEDED);
    StaleLive(db, 0);
    StoppedIdentities(db.tasks, NotifiedEnough(db), SUCCEEDED);
    if Busy(db, r) {
      var t :| t in db.tasks && db.tasks[t].run == r && Live(db.tasks[t].state) && db.tasks[t].tool.kind != Telegram;
      assert next.tasks[t] == db.tasks[t];
    }
    if Settled(db, r) {
      forall t | t in next.tasks && next.tasks[t].run == r && next.tasks[t].state == PENDING
        ensures NoEasier(db, next, t)
      {
        NotifiedNoEasier(db, t);
      }
      SettledStays(db, next, r);
    }
  }

  lemma NotifiedNoEasier(db: Db, t: TaskId)
    requires Linked(db.runs, db.tasks, db.groups) && t in db.tasks && Shaped(db.tasks, db.groups, db.tasks[t].run)
    requires t in Stop(db, NotifiedEnough(db), SUCCEEDED).tasks
    ensures NoEasier(db, Stop(db, NotifiedEnough(db), SUCCEEDED), t)
  {
    hide StoppedTasks, Published, Linked, Joins, JoinsFailedGroup, SameMembers;
    var next := Stop(db, NotifiedEnough(db), SUCCEEDED);
    StaleLive(db, 0);
    StoppedIdentities(db.tasks, NotifiedEnough(db), SUCCEEDED);
    SameMembersReflexive(db.groups);
    SameJoins(db, next, t);
    SameFailedGroups(db, next, t);
    assert SameIdentity(db.tasks[t], next.tasks[t]);
  }

  lemma RecoveredParked(db: Db, now: int, r: RunId)
    requires Linked(db.runs, db.tasks, db.groups) && RunIs(db, r, WAITING_FOR_HUMAN) && HasParked(db, r)
    ensures HasParked(RecoverTasks(db, Stale(db, now)), r)
  {
    hide Linked, WakeRows, ClosedAttempts;
    var t :| t in db.tasks && db.tasks[t].run == r && Parked(db.tasks[t].state);
    assert t !in Stale(db, now);
    assert RecoverTasks(db, Stale(db, now)).tasks[t] == db.tasks[t];
  }

  lemma RecoverStaleKeepsLively(db: Db, now: int, r: RunId)
    requires Safe(db) && Lively(db, r)
    ensures Lively(RecoverStale(db, now).db, r)
  {
    hide Linked, Leased, Dispatched, Attempted, Counted, RetriesBounded, Honest, Budgeted, FinishNotifications,
      RecoverTasks, Promote, FailedFanoutRuns, Gentle, AllLive, Advances, Acyclic, GroupsHonest, FailuresFail,
      HasParked, AllSucceeded, Busy, Settled, Shaped;
    NotifiedRuns(db);
    var notified := FinishNotifications(db);
    FinishNotificationsKeeps(db);
    var recovered := RecoverTasks(notified, Stale(notified, now));
    StaleLive(notified, now);
    RecoverTasksKeeps(notified, Stale(notified, now));
    RecoveredGently(notified, Stale(notified, now));
    if r in db.runs && db.runs[r].plan != [] {
      NotifiedStructure(db, r);
      GentleKeepsStructure(notified, recovered, r);
      PromoteKeepsStructure(recovered, FailedFanoutRuns(recovered), r);
      NotifiedMoves(db, r);
      if RunIs(notified, r, WAITING_FOR_HUMAN) { RecoveredParked(notified, now, r); }
      GentleMoves(notified, recovered, r);
      PromoteMoves(recovered, FailedFanoutRuns(recovered), r);
    }
  }

  lemma NotifiedRuns(db: Db)
    ensures FinishNotifications(db).runs.Keys == db.runs.Keys
    ensures forall r :: r in db.runs ==> FinishNotifications(db).runs[r].plan == db.runs[r].plan
  {
    hide AllSucceeded, RunsOf, NotifiedEnough;
  }

  // ---------------------------------------------------------------------------------------------
  // New plans
  // ---------------------------------------------------------------------------------------------

  lemma PlanDependencies(plan: seq<PlanTask>, i: nat, key: string)
    requires UniqueKeys(plan) && InsertableDependencies(plan) && i < |plan| && key in plan[i].dependencies
    ensures key in Keys(plan) && Position(plan, key) < i
  {
    ListedBefore(plan, i, key);
    var j :| 0 <= j < i && plan[j].key == key;
    assert Position(plan, key) == j;
  }

  /** Plan tasks rank by their position. */
  lemma PlanGraphAcyclic(b: Tasks, r: RunId, plan: seq<PlanTask>, reused: Option<nat>)
    requires UniqueKeys(plan) && InsertableDependencies(plan)
    requires forall t ::
        t in b && b[t].run == r ==>
        t in PlanTasks(r, plan, reused, |plan|) && b[t] == PlanTasks(r, plan, reused, |plan|)[t]
    ensures Acyclic(DependencyGraph(b, r))
  {
    hide Acyclic, UniqueKeys, InsertableDependencies, PlanTasks, InitialTask, Position;
    var rank := map t | t in b && b[t].run == r ::
        if t.Planned? && UniqueKeys(plan) && t.key in Keys(plan) then Position(plan, t.key) else 0;
    forall t, d | t in b && b[t].run == r && d in b[t].dependsOn && d in b && b[d].run == r
      ensures rank[d] < rank[t]
    {
      var i := PlanTaskAt(r, plan, reused, t);
      InitialColumns(r, plan, reused, i);
      var key :| key in plan[i].dependencies && d == Planned(r, key);
      PlanDependencies(plan, i, key);
      PlanTaskOf(r, plan, reused, Position(plan, key));
      OnlyPosition(plan, i);
    }
    RankedIsAcyclic(DependencyGraph(b, r), rank);
  }

  lemma OnlyPosition(plan: seq<PlanTask>, i: nat)
    requires UniqueKeys(plan) && i < |plan|
    ensures plan[i].key in Keys(plan) && Position(plan, plan[i].key) == i
  {
  }

  lemma PlanShaped(b: Tasks, groups: Groups, r: RunId, plan: seq<PlanTask>, reused: Option<nat>)
    requires UniqueKeys(plan) && InsertableDependencies(plan) && NotificationLast(plan) && forall g ::
        g in groups ==> g.run != r
    requires forall t ::
        t in PlanTasks(r, plan, reused, |plan|) ==> t in b && b[t] == PlanTasks(r, plan, reused, |plan|)[t]
    requires forall t :: t in b && b[t].run == r ==> t in PlanTasks(r, plan, reused, |plan|)
    ensures Shaped(b, groups, r)
  {
    hide UniqueKeys, InsertableDependencies, PlanTasks, InitialTask, Position;
    forall t, d | t in b && b[t].run == r && d in b[t].dependsOn && d in b
      ensures b[d].tool.kind != Telegram
    {
      var i := PlanTaskAt(r, plan, reused, t);
      InitialColumns(r, plan, reused, i);
      var key :| key in plan[i].dependencies && d == Planned(r, key);
      PlanDependencies(plan, i, key);
      PlanTaskOf(r, plan, reused, Position(plan, key));
      InitialColumns(r, plan, reused, Position(plan, key));
    }
  }

  /** Which task a new run starts with. */
  function Boundary(reused: Option<nat>): nat {
    match reused
    case None => 0
    case Some(n) => n
  }

  /** A new run works on its boundary task, or has only a notification left. */
  lemma NewRunMoves(next: Db, r: RunId, plan: seq<PlanTask>, reused: Option<nat>)
    requires UniqueKeys(plan) && InsertableDependencies(plan) && NotificationLast(plan) && Boundary(reused) < |plan|
    requires r in next.runs && next.runs[r].state == ACTIVE
    requires forall t ::
        t in PlanTasks(r, plan, reused, |plan|) ==>
        t in next.tasks && next.tasks[t] == PlanTasks(r, plan, reused, |plan|)[t]
    requires forall t :: t in next.tasks && next.tasks[t].run == r ==> t in PlanTasks(r, plan, reused, |plan|)
    ensures Moving(next, r)
  {
    hide UniqueKeys, PlanTasks, InitialTask, Eligible;
    var n := Boundary(reused);
    var t := Planned(r, plan[n].key);
    PlanTaskOf(r, plan, reused, n);
    InitialColumns(r, plan, reused, n);
    if plan[n].dependencies != [] { DependentsComeLater(plan, n); }
    assert next.tasks[t].state == RUNNABLE && next.tasks[t].run == r;
    if plan[n].tool.kind == Telegram {
      forall u | u in next.tasks && next.tasks[u].run == r
        ensures next.tasks[u].state != PENDING
      {
        var i := PlanTaskAt(r, plan, reused, u);
        InitialColumns(r, plan, reused, i);
      }
    }
  }

  lemma DependentsComeLater(plan: seq<PlanTask>, i: nat)
    requires InsertableDependencies(plan) && i < |plan| && plan[i].dependencies != []
    ensures i > 0
  {
    ListedBefore(plan, i, plan[i].dependencies[0]);
  }

  /** A run that does not exist yet has no tasks and no groups. */
  lemma NoRowsYet(db: Db, r: RunId)
    requires Linked(db.runs, db.tasks, db.groups) && r !in db.runs
    ensures forall t :: t in db.tasks ==> db.tasks[t].run != r
    ensures forall g :: g in db.groups ==> g.run != r
  {
    forall t | t in db.tasks
      ensures db.tasks[t].run != r
    {
      RunExists(db.runs, db.tasks, db.groups, t);
    }
    forall g | g in db.groups
      ensures g.run != r
    {
      GroupTasks(db, g);
    }
  }

  lemma InsertedPlanRuns(db: Db, q: RunId, x: Run, plan: seq<PlanTask>, reused: Option<nat>)
    requires Linked(db.runs, db.tasks, db.groups) && q !in db.runs && UniqueKeys(plan)
    ensures var next := InsertPlan(db.(runs := db.runs[q := x]), q, plan, reused, |plan|);
      && next.runs == db.runs[q := x]
      && (forall t ::
          t in PlanTasks(q, plan, reused, |plan|) ==>
          t in next.tasks && next.tasks[t] == PlanTasks(q, plan, reused, |plan|)[t])
      && (forall t :: t in next.tasks && next.tasks[t].run == q ==> t in PlanTasks(q, plan, reused, |plan|))
      && (forall r :: r != q ==> SameRun(db, next, r))
  {
    hide Linked, UniqueKeys, InsertPlan, PlanTasks, InitialTask;
    NewRunIds(db, q, plan, reused);
    NoRowsYet(db, q);
    InsertedPlan(db.(runs := db.runs[q := x]), q, plan, reused);
    var next := InsertPlan(db.(runs := db.runs[q := x]), q, plan, reused, |plan|);
    forall t | t in next.tasks && t !in db.tasks
      ensures next.tasks[t].run == q
    {
      var i := PlanTaskAt(q, plan, reused, t);
      InitialColumns(q, plan, reused, i);
    }
  }

  lemma NewRunLively(db: Db, r: RunId, x: Run, plan: seq<PlanTask>, reused: Option<nat>)
    requires Linked(db.runs, db.tasks, db.groups) && r !in db.runs && x.state == ACTIVE
    requires UniqueKeys(plan) && InsertableDependencies(plan) && NotificationLast(plan) && Boundary(reused) < |plan|
    ensures Lively(InsertPlan(db.(runs := db.runs[r := x]), r, plan, reused, |plan|), r)
  {
    hide Linked, Acyclic, Shaped, DependencyGraph, Moving, InsertPlan, PlanTasks, UniqueKeys, InsertableDependencies,
      NotificationLast, InitialTask, SameRun;
    var next := InsertPlan(db.(runs := db.runs[r := x]), r, plan, reused, |plan|);
    InsertedPlanRuns(db, r, x, plan, reused);
    NoRowsYet(db, r);
    PlanGraphAcyclic(next.tasks, r, plan, reused);
    PlanShaped(next.tasks, next.groups, r, plan, reused);
    forall t | t in next.tasks && next.tasks[t].run == r
      ensures next.tasks[t].state != FAILED
    {
      var i := PlanTaskAt(r, plan, reused, t);
      InitialColumns(r, plan, reused, i);
    }
    NewRunMoves(next, r, plan, reused);
  }

  lemma DependenciesExist(db: Db)
    requires Linked(db.runs, db.tasks, db.groups)
    ensures forall t, d :: t in db.tasks && d in db.tasks[t].dependsOn ==> d in db.tasks
  {
    forall t, d | t in db.tasks && d in db.tasks[t].dependsOn
      ensures d in db.tasks
    {
      LinkedTask(db, t);
    }
  }

  lemma CreateRunKeepsLively(db: Db, q: RunId, plan: seq<PlanTask>, limit: int, last: Option<RunId>,
      artifacts: set<string>, r: RunId)
    requires Safe(db) && Orderly(db) && Lively(db, r) && (q == r ==> NotificationLast(plan))
    ensures Lively(CreateRun(db, q, plan, limit, last, artifacts).db, r)
  {
    hide Linked, Leased, Dispatched, Attempted, Counted, RetriesBounded, Honest, Budgeted, Lively, InsertPlan,
      ReusedCount, InsertableDependencies, UniqueKeys, KnownDependencies, NotificationLast, Ordered, FailuresShown,
      JoinsWoken, SameRun, Advances;
    if CreateRun(db, q, plan, limit, last, artifacts).answer == Done {
      var source := RecoverySource(db, plan, last);
      var reused := if source.Some? then Some(ReusedCount(db, source.value, plan, artifacts)) else None;
      if source.Some? { PrefixIsProper(db, source.value, plan, artifacts); }
      var x := Run(ACTIVE, 0, limit, 1, plan);
      if q == r {
        NewRunLively(db, q, x, plan, reused);
      } else {
        InsertedPlanRuns(db, q, x, plan, reused);
        CreateRunKeeps(db, q, plan, limit, last, artifacts);
        ElsewhereLively(db, CreateRun(db, q, plan, limit, last, artifacts).db, r);
      }
    }
  }

  /** A transaction that leaves a run and its rows alone keeps it lively, whether the run exists or not. */
  lemma ElsewhereLively(db: Db, next: Db, r: RunId)
    requires Linked(db.runs, db.tasks, db.groups) && Linked(next.runs, next.tasks, next.groups) && SameRun(db, next, r)
        && Lively(db, r)
    requires if r in db.runs then r in next.runs && next.runs[r].state == db.runs[r].state
        && next.runs[r].plan == db.runs[r].plan
              else r in next.runs ==> next.runs[r].plan == []
    ensures Lively(next, r)
  {
    hide Linked, SameRun, Structured, Moving;
    if r in db.runs {
      SameRunLively(db, next, r);
    }
  }

  // ---------------------------------------------------------------------------------------------
  // New groups
  // ---------------------------------------------------------------------------------------------

  /** The largest rank of a finite map. */
  lemma {:induction false} RankBound<K(!new)>(rank: map<K, nat>) returns (bound: nat)
    ensures forall k :: k in rank ==> rank[k] < bound
    decreases |rank|
  {
    bound := 0;
    if rank.Keys != {} {
      var k :| k in rank;
      var rest := rank - {k};
      assert rank.Keys == rest.Keys + {k};
      var below := RankBound(rest);
      forall j | j in rank && j != k
        ensures rank[j] < below
      {
        assert rest[j] == rank[j];
      }
      bound := if below > rank[k] then below else rank[k] + 1;
    }
  }

  lemma {:induction false} Scaled(x: nat, y: nat, m: nat)
    requires x < y
    ensures x * m + m <= y * m
    decreases y
  {
    if x + 1 < y {
      Scaled(x, y - 1, m);
      assert y * m == (y - 1) * m + m;
    } else {
      assert y * m == x * m + m;
    }
  }

  /** Old tasks keep their order, spread out by `m`; shards come right after their coordinator. */
  ghost function SpreadRank(low: map<TaskId, nat>, inner: map<string, nat>, m: nat, coordinator: TaskId, t: TaskId): nat
    requires coordinator in low
  {
    if t in low then low[t] * m
        else if t.Shard? && t.identity in inner then low[coordinator] * m + 1 + inner[t.identity] else 0
  }

  /** Shards rank between their coordinator and their join. */
  lemma GroupGraphAcyclic(a: Tasks, coordinator: TaskId, join: TaskId, d: Descriptor, b: Tasks)
    requires Acyclic(DependencyGraph(a, d.run)) && Acyclic(ShardGraph(d)) && ShardsInsertable(d)
    requires coordinator in a && join in a && coordinator in a[join].dependsOn
        && a[coordinator].run == d.run == a[join].run
    requires forall t, e :: t in a && e in a[t].dependsOn ==> e in a
    requires b.Keys == a.Keys + ShardTasks(d, coordinator).Keys && a.Keys !! ShardTasks(d, coordinator).Keys
    requires forall t :: t in a && t != join ==> b[t] == a[t]
    requires b[join] == a[join].(dependsOn := a[join].dependsOn + ShardTasks(d, coordinator).Keys)
    requires forall t :: t in ShardTasks(d, coordinator) ==> b[t] == ShardTasks(d, coordinator)[t]
    ensures Acyclic(DependencyGraph(b, d.run))
  {
    hide Acyclic, ShardTasks, ShardTask, ShardsInsertable, SpreadRank, ShardGraph;
    var low := RankExists(DependencyGraph(a, d.run));
    var inner := RankExists(ShardGraph(d));
    var bound := RankBound(inner);
    var m := bound + 1;
    var rank := map t | t in b && b[t].run == d.run :: SpreadRank(low, inner, m, coordinator, t);
    forall t, e | t in b && b[t].run == d.run && e in b[t].dependsOn && e in b && b[e].run == d.run
      ensures rank[e] < rank[t]
    {
      if t in a {
        if e in a {
          OldEdge(a, b, join, t, e, ShardTasks(d, coordinator).Keys);
          OldRank(low, inner, m, coordinator, t, e);
        } else {
          ShardTaskAt(d, coordinator, e);
          assert t == join;
          ShardBelowJoin(low, inner, m, coordinator, join, e);
        }
      } else {
        ShardTaskAt(d, coordinator, t);
        ShardDependency(d, coordinator, t.identity, e);
        ShardRank(d, low, inner, m, coordinator, t, e);
      }
    }
    RankedIsAcyclic(DependencyGraph(b, d.run), rank);
  }

  lemma OldRank(low: map<TaskId, nat>, inner: map<string, nat>, m: nat, coordinator: TaskId, t: TaskId, e: TaskId)
    requires coordinator in low && t in low && e in low && low[e] < low[t] && m > 0
    ensures SpreadRank(low, inner, m, coordinator, e) < SpreadRank(low, inner, m, coordinator, t)
  {
    Scaled(low[e], low[t], m);
  }

  lemma ShardBelowJoin(low: map<TaskId, nat>, inner: map<string, nat>, m: nat, coordinator: TaskId, join: TaskId,
      e: TaskId)
    requires coordinator in low && join in low && low[coordinator] < low[join] && e !in low && m > 0
    requires forall k :: k in inner ==> inner[k] + 1 < m
    ensures SpreadRank(low, inner, m, coordinator, e) < SpreadRank(low, inner, m, coordinator, join)
  {
    Scaled(low[coordinator], low[join], m);
  }

  lemma ShardRank(d: Descriptor, low: map<TaskId, nat>, inner: map<string, nat>, m: nat, coordinator: TaskId, t: TaskId,
      e: TaskId)
    requires coordinator in low && t !in low && t.Shard? && t.identity in d.shards
        && e in ShardTask(d, coordinator, t.identity).dependsOn
    requires ShardsInsertable(d) && Ranks(ShardGraph(d), inner) && (e == coordinator || e !in low)
    ensures SpreadRank(low, inner, m, coordinator, e) < SpreadRank(low, inner, m, coordinator, t)
  {
    ShardColumns(d, coordinator, t.identity);
    hide ShardTask;
    if e != coordinator { ShardEdge(d, t.identity, e.identity, inner); }
  }

  lemma OldEdge(a: Tasks, b: Tasks, join: TaskId, t: TaskId, e: TaskId, shards: set<TaskId>)
    requires join in a && join in b && t in a && t in b && e in a && shards !! a.Keys && e in b[t].dependsOn
    requires t != join ==> b[t] == a[t]
    requires b[join].dependsOn == a[join].dependsOn + shards
    ensures e in a[t].dependsOn
  {
  }

  lemma ShardEdge(d: Descriptor, i: string, e: string, inner: map<string, nat>)
    requires i in d.shards && e in d.shards[i].dependsOn && ShardsInsertable(d) && Ranks(ShardGraph(d), inner)
    ensures e in inner && i in inner && inner[e] < inner[i]
  {
  }

  lemma ShardDependency(d: Descriptor, coordinator: TaskId, i: string, e: TaskId)
    requires ShardsInsertable(d) && i in d.shards && e in ShardTask(d, coordinator, i).dependsOn
    ensures e == coordinator || e in ShardTasks(d, coordinator)
  {
    ShardColumns(d, coordinator, i);
    hide ShardTask;
    if e != coordinator {
      var x :| x in d.shards[i].dependsOn && e == Shard(GroupOf(d), x);
      assert x in d.shards;
    }
  }

  lemma GroupShaped(db: Db, coordinator: TaskId, join: TaskId, d: Descriptor, b: Tasks)
    requires Linked(db.runs, db.tasks, db.groups) && Shaped(db.tasks, db.groups, d.run)
        && SoundFanout(db, coordinator, join, d) && ShardsInsertable(d)
    requires coordinator in db.tasks && join in db.tasks && db.tasks[join].run == d.run
    requires b.Keys == db.tasks.Keys + ShardTasks(d, coordinator).Keys
        && db.tasks.Keys !! ShardTasks(d, coordinator).Keys
    requires forall t :: t in db.tasks ==> b[t] == db.tasks[t].(dependsOn := b[t].dependsOn)
    requires forall t :: t in db.tasks && t != join ==> b[t] == db.tasks[t]
    requires b[join].dependsOn == db.tasks[join].dependsOn + ShardTasks(d, coordinator).Keys
    requires forall t :: t in ShardTasks(d, coordinator) ==> b[t] == ShardTasks(d, coordinator)[t]
    ensures forall t, e :: t in b && b[t].run == d.run && e in b[t].dependsOn && e in b ==> b[e].tool.kind != Telegram
  {
    hide Linked, ShardTasks, ShardTask, Acyclic, ShardsInsertable;
    forall t | t in ShardTasks(d, coordinator)
      ensures t.Shard? && t.identity in d.shards && b[t].tool.kind != Telegram
    {
      ShardTaskAt(d, coordinator, t);
      ShardColumns(d, coordinator, t.identity);
    }
    forall t, e | t in b && b[t].run == d.run && e in b[t].dependsOn && e in b
      ensures b[e].tool.kind != Telegram
    {
      if t in db.tasks {
        if e in db.tasks { OldEdge(db.tasks, b, join, t, e, ShardTasks(d, coordinator).Keys); }
      } else {
        ShardTaskAt(d, coordinator, t);
        ShardDependency(d, coordinator, t.identity, e);
        assert db.tasks[coordinator].tool.kind != Telegram;
      }
    }
  }

  lemma GroupMembersRequired(db: Db, coordinator: TaskId, join: TaskId, d: Descriptor, next: Db)
    requires Shaped(db.tasks, db.groups, d.run) && SoundFanout(db, coordinator, join, d) && join in db.tasks
        && db.tasks.Keys <= next.tasks.Keys
    requires next.groups == db.groups[GroupOf(d) := NewGroup(d, join)]
    requires forall t :: t in db.tasks ==> next.tasks[t] == db.tasks[t].(dependsOn := next.tasks[t].dependsOn)
    requires forall t, e ::
        t in next.tasks && next.tasks[t].run == d.run && e in next.tasks[t].dependsOn && e in next.tasks ==>
        next.tasks[e].tool.kind != Telegram
    ensures Shaped(next.tasks, next.groups, d.run)
  {
    hide Acyclic;
    forall m | m in Members(d)
      ensures Members(d)[m]
    {
    }
  }

  lemma GroupHonestly(db: Db, join: TaskId, d: Descriptor, next: Db)
    requires GroupsHonest(db.tasks, db.groups, d.run) && JoinInScope(db, join, d.run)
        && (forall g :: g in db.groups ==> db.groups[g].join in db.tasks)
    requires next.groups == db.groups[GroupOf(d) := NewGroup(d, join)] && GroupOf(d) !in db.groups
    requires forall t :: t in db.tasks ==> t in next.tasks && next.tasks[t].state == db.tasks[t].state
    ensures GroupsHonest(next.tasks, next.groups, d.run)
  {
    hide Members, MembersSucceeded;
    forall g | g in next.groups && g.run == d.run
        && (next.groups[g].state == GROUP_SUCCEEDED
            || (next.groups[g].join in next.tasks && next.tasks[next.groups[g].join].state == SUCCEEDED))
      ensures MembersSucceeded(next.tasks, next.groups[g])
    {
      assert g in db.groups;
      MembersStay(db.tasks, next.tasks, db.groups[g]);
    }
  }

  lemma MembersStay(a: Tasks, b: Tasks, group: Group)
    requires forall t :: t in a ==> t in b && b[t].state == a[t].state
    ensures MembersSucceeded(a, group) ==> MembersSucceeded(b, group)
  {
  }

  lemma GroupFailures(db: Db, d: Descriptor, join: TaskId, next: Db)
    requires FailuresFail(db, d.run) && next.runs == db.runs
        && next.groups == db.groups[GroupOf(d) := NewGroup(d, join)] && GroupOf(d) !in db.groups
    requires forall t ::
        t in next.tasks && next.tasks[t].state == FAILED ==>
        t in db.tasks && db.tasks[t].state == FAILED && next.tasks[t].run == db.tasks[t].run
    ensures FailuresFail(next, d.run)
  {
    hide NewGroup;
  }

  lemma InsertGroupMoves(db: Db, coordinator: TaskId, join: TaskId, d: Descriptor)
    requires Safe(db) && Structured(db, d.run) && GroupOf(d) !in db.groups && ShardsInsertable(d)
        && SoundFanout(db, coordinator, join, d)
    requires CoordinatorRunning(db, coordinator, d.run) && JoinInScope(db, join, d.run)
    ensures var next := InsertGroup(db, coordinator, join, d);
        Structured(next, d.run) && d.run in next.runs && Moving(next, d.run)
  {
    hide Linked, Leased, Dispatched, Attempted, Counted, RetriesBounded, Honest, Budgeted, Acyclic, GroupsHonest,
      FailuresFail, Shaped, DependencyGraph, Moving, InsertGroup, ShardTasks, ShardTask, NewGroup, ShardsInsertable,
      ShardGraph;
    var next := InsertGroup(db, coordinator, join, d);
    FreshShards(db, d, coordinator);
    InsertedGroup(db, coordinator, join, d);
    DependenciesExist(db);
    GroupGraphAcyclic(db.tasks, coordinator, join, d, next.tasks);
    GroupShaped(db, coordinator, join, d, next.tasks);
    GroupMembersRequired(db, coordinator, join, d, next);
    JoinsExist(db);
    GroupHonestly(db, join, d, next);
    forall t | t in next.tasks && t !in db.tasks
      ensures next.tasks[t].run == d.run && next.tasks[t].state in {PENDING, SUCCEEDED}
    {
      ShardTaskAt(d, coordinator, t);
      ShardColumns(d, coordinator, t.identity);
    }
    GroupFailures(db, d, join, next);
    CoordinatorMoves(db, next, coordinator, join, d.run);
  }

  lemma InsertGroupElsewhere(db: Db, coordinator: TaskId, join: TaskId, d: Descriptor, r: RunId)
    requires Linked(db.runs, db.tasks, db.groups) && GroupOf(d) !in db.groups && JoinInScope(db, join, d.run)
        && d.run != r
    ensures SameRun(db, InsertGroup(db, coordinator, join, d), r)
  {
    hide Linked, InsertGroup, ShardTasks, ShardTask, NewGroup;
    var next := InsertGroup(db, coordinator, join, d);
    FreshShards(db, d, coordinator);
    InsertedGroup(db, coordinator, join, d);
    forall t | t in next.tasks && t !in db.tasks
      ensures next.tasks[t].run == d.run
    {
      ShardTaskAt(d, coordinator, t);
      ShardColumns(d, coordinator, t.identity);
    }
  }

  /** The coordinator is at work, and is not a notification, since the join waits for it. */
  lemma CoordinatorMoves(db: Db, next: Db, coordinator: TaskId, join: TaskId, r: RunId)
    requires CoordinatorRunning(db, coordinator, r) && Shaped(db.tasks, db.groups, r) && join in db.tasks
        && db.tasks[join].run == r && coordinator in db.tasks[join].dependsOn
    requires coordinator in next.tasks && next.tasks[coordinator] ==
        db.tasks[coordinator].(dependsOn := next.tasks[coordinator].dependsOn)
    requires next.runs == db.runs
    ensures Moving(next, r)
  {
    assert Live(next.tasks[coordinator].state) && next.tasks[coordinator].tool.kind != Telegram
        && next.tasks[coordinator].run == r;
  }

  lemma MaterializeKeepsLively(db: Db, coordinator: TaskId, join: TaskId, d: Descriptor, r: RunId)
    requires Safe(db) && Lively(db, r) && (d.run == r ==> SoundFanout(db, coordinator, join, d))
    ensures Lively(MaterializeFanout(db, coordinator, join, d).db, r)
  {
    hide Linked, Leased, Dispatched, Attempted, Counted, RetriesBounded, Honest, Budgeted, Structured, Moving,
      InsertGroup, ShardsInsertable, SoundFanout, SameRun, Advances;
    var next := MaterializeFanout(db, coordinator, join, d).db;
    if next != db {
      assert GroupOf(d) !in db.groups;
      if d.run == r {
        if db.runs[r].plan != [] { InsertGroupMoves(db, coordinator, join, d); }
      } else {
        MaterializeKeeps(db, coordinator, join, d);
        InsertGroupElsewhere(db, coordinator, join, d, r);
        ElsewhereLively(db, next, r);
      }
    }
  }
}
