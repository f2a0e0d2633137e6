/** The words in which the exact effects are stated. */
module RuntimeRows {
  import opened Wrappers
  import opened RuntimeState
  import opened RuntimeTransitions
  import opened RuntimeInvariant
  import opened RuntimeLoops

  /** A dependency of the task holds it back: one that has not succeeded or, if the task is a join, one that is not
      over; the join of a failed group waits for nothing. */
  predicate HeldBack(db: Db, t: TaskId)
    requires t in db.tasks
  {
    && !(exists g :: g in db.groups && db.groups[g].join == t && db.groups[g].state == GROUP_FAILED)
    && exists d ::
        d in db.tasks[t].dependsOn && d in db.tasks
        && if exists g :: g in db.groups && db.groups[g].join == t
            then db.tasks[d].state !in {SUCCEEDED, FAILED, CANCELLED, UNKNOWN_OUTCOME}
            else db.tasks[d].state != SUCCEEDED
  }

  lemma HeldBackIsBlocked(db: Db, t: TaskId)
    requires t in db.tasks
    ensures HeldBack(db, t) <==> !Eligible(db, t)
    ensures HeldBack(db, t) <==> DependencyBlocked(db, t)
  {
  }

  /** The task waits to be claimed, not before `at`, and its row at its new version waits to be published then. */
  predicate Redispatched(db: Db, next: Db, t: TaskId, at: int)
    requires t in db.tasks
  {
    var x, k := db.tasks[t], DispatchKey(t, db.tasks[t].revision + 1);
    && t in next.tasks
    && next.tasks[t] == x.(state := RUNNABLE, revision := x.revision + 1, leaseOwner := None, leaseExpiresAt := None,
          availableAt := at, retriesScheduled := next.tasks[t].retriesScheduled)
    && k !in db.dispatches && k in next.dispatches
    && next.dispatches[k] == Dispatch(DISPATCH_PENDING, x.tool.routingClass, at, None, None, 0, None)
  }

  /** Every row is as it was, but for new rows of the tasks `ps`. */
  ghost predicate NoOtherRows(db: Db, next: Db, ps: set<TaskId>) {
    && (forall k :: k in db.dispatches ==> k in next.dispatches && next.dispatches[k] == db.dispatches[k])
    && (forall k :: k in next.dispatches && k !in db.dispatches ==>
          k.task in ps && k.task in db.tasks && k.version == db.tasks[k.task].revision + 1)
  }

  lemma FreshKey(tasks: Tasks, dispatches: Dispatches, t: TaskId)
    requires Dispatched(tasks, dispatches) && t in tasks
    ensures DispatchKey(t, tasks[t].revision + 1) !in dispatches
  {
  }

  /** The task is released from its lease and may have been counted. */
  predicate ReleasedFrom(x: Task, y: Task) {
    y == x.(state := y.state, leaseOwner := None, leaseExpiresAt := None, retriesScheduled := y.retriesScheduled)
  }

  /** What waking does to tasks that have been released from their leases meanwhile. */
  lemma WokenExactly(db: Db, mid: Db, ps: set<TaskId>, at: int)
    requires Linked(db.runs, db.tasks, db.groups) && Dispatched(db.tasks, db.dispatches)
    requires ps <= db.tasks.Keys && mid.tasks.Keys == db.tasks.Keys && mid.dispatches == db.dispatches
    requires forall t :: t in ps ==> ReleasedFrom(db.tasks[t], mid.tasks[t])
    ensures var next := Wake(mid, ps, at);
      && next.tasks.Keys == db.tasks.Keys
      && (forall t :: t in ps ==>
            Redispatched(db, next, t, at) && next.tasks[t].retriesScheduled == mid.tasks[t].retriesScheduled)
      && (forall t :: t in db.tasks && t !in ps ==> next.tasks[t] == mid.tasks[t])
      && NoOtherRows(db, next, ps)
  {
    hide Wake, WakeRows, Linked, Dispatched;
    var next := Wake(mid, ps, at);
    WakeRowsExactly(mid.tasks, ps, at);
    forall t | t in ps
      ensures Redispatched(db, next, t, at)
      ensures next.tasks[t].retriesScheduled == mid.tasks[t].retriesScheduled
    {
      FreshKey(db.tasks, db.dispatches, t);
      RoutedByTool(db, t);
    }
    forall k | k in db.dispatches
      ensures k in next.dispatches && next.dispatches[k] == db.dispatches[k]
    {
    }
    forall k | k in next.dispatches && k !in db.dispatches
      ensures k.task in ps && k.version == db.tasks[k.task].revision + 1
    {
    }
  }

  lemma RoutedByTool(db: Db, t: TaskId)
    requires Linked(db.runs, db.tasks, db.groups) && t in db.tasks
    ensures db.tasks[t].routingClass == db.tasks[t].tool.routingClass
  {
    assert TaskSound(db.runs, db.tasks, db.groups, t);
  }

  /** A task that is not RUNNING has no lease. */
  lemma AtRest(db: Db, t: TaskId)
    requires Safe(db) && t in db.tasks
    ensures db.tasks[t].state != RUNNING ==> db.tasks[t].leaseOwner == None && db.tasks[t].leaseExpiresAt == None
    ensures db.tasks[t].routingClass == db.tasks[t].tool.routingClass && db.tasks[t].run in db.runs
  {
    hide Dispatched, Attempted, Counted, RetriesBounded, Honest, Budgeted;
    assert TaskSound(db.runs, db.tasks, db.groups, t);
    assert LeaseSound(db.tasks[t]);
  }

  lemma SafeRows(db: Db)
    requires Safe(db)
    ensures Linked(db.runs, db.tasks, db.groups) && Dispatched(db.tasks, db.dispatches)
  {
    hide Linked, Dispatched, Leased, Attempted, Counted, RetriesBounded, Honest, Budgeted;
  }
}
