/** What a worker's commands do. */
module RuntimeOutcomes {
  import opened Wrappers
  import opened RuntimeState
  import opened RuntimeTransitions
  import opened RuntimeInvariant
  import opened RuntimeTraces
  import opened RuntimeGuarantees
  import opened RuntimeRows

  // ---------------------------------------------------------------------------------------------
  // Which commands are accepted
  // ---------------------------------------------------------------------------------------------

  predicate HasAsked(db: Db, r: RunId, obstacle: string) {
    exists f ::
        f in db.escalations && db.escalations[f] == Escalation(r, true, obstacle, db.escalations[f].changesInputs)
  }

  /** A credential is good exactly as long as its attempt is open: at every moment of every trace, whatever a claim
      handed out before is accepted from then on exactly until the attempt ends. */
  lemma {:induction false} AcceptedExactlyWhileOpen(trace: Trace, i: nat, c: Credential, now: int, leaseMs: int,
      ms: int, v: Verdict, obstacle: string, e: EscalationId)
    requires IsTrace(trace) && i < |trace.states| && Issued(trace.states[i], c)
    ensures var db, open := trace.states[i], trace.states[i].attempts[c.attempt].state == ATTEMPT_RUNNING;
      && Heartbeat(db, c, now, leaseMs).answer == (if open then Done else Refused(STALE_LEASE_TOKEN))
      && Outcome(db, c, v, now).answer == (if open then Done else Refused(STALE_LEASE_TOKEN))
      && Defer(db, c, now, ms).answer ==
            (if !(1_000 <= ms <= 300_000) then Refused(TASK_DEFER_DELAY_INVALID)
              else if open then Done else Refused(STALE_LEASE_TOKEN))
      && WaitForHuman(db, c, obstacle, e).answer ==
            (if !open then Refused(STALE_LEASE_TOKEN)
              else if HasAsked(db, db.tasks[c.task].run, obstacle) then Null
              else if e in db.escalations then Refused(CONSTRAINT_VIOLATED) else Done)
  {
    hide Safe, Issued, HoldsLease, AttemptOpen;
    TraceIsSafe(trace, i);
    HeldWhileOpen(trace.states[i], c);
    Answers(trace.states[i], c, now, ms, v, obstacle, e);
  }

  /** The holder of the open attempt holds the lease, and nobody holds it by another attempt. */
  lemma HeldWhileOpen(db: Db, c: Credential)
    requires Safe(db) && Issued(db, c)
    ensures c.task in db.tasks
    ensures db.attempts[c.attempt].state == ATTEMPT_RUNNING <==> HoldsLease(db, c) && AttemptOpen(db, c)
    ensures HoldsLease(db, c) ==> AttemptOpen(db, c)
  {
    hide Linked, Leased, Dispatched, Counted, RetriesBounded, Honest, Budgeted;
    assert AttemptSound(db.tasks, db.attempts[c.attempt]);
    if HoldsLease(db, c) {
      var a :| Open(db.attempts, a, c.task);
      assert AttemptSound(db.tasks, db.attempts[a]);
      assert a != c.attempt ==> Distinct(db.attempts[a], db.attempts[c.attempt]);
    }
  }

  lemma Answers(db: Db, c: Credential, now: int, ms: int, v: Verdict, obstacle: string, e: EscalationId)
    requires Issued(db, c) && c.task in db.tasks && (HoldsLease(db, c) ==> AttemptOpen(db, c))
    ensures var held := HoldsLease(db, c);
      && (forall leaseMs :: Heartbeat(db, c, now, leaseMs).answer == if held then Done else Refused(STALE_LEASE_TOKEN))
      && Outcome(db, c, v, now).answer == (if held then Done else Refused(STALE_LEASE_TOKEN))
      && Defer(db, c, now, ms).answer ==
            (if !(1_000 <= ms <= 300_000) then Refused(TASK_DEFER_DELAY_INVALID)
              else if held then Done else Refused(STALE_LEASE_TOKEN))
      && WaitForHuman(db, c, obstacle, e).answer ==
            (if !held then Refused(STALE_LEASE_TOKEN)
              else if HasAsked(db, db.tasks[c.task].run, obstacle) then Null
              else if e in db.escalations then Refused(CONSTRAINT_VIOLATED) else Done)
  {
    hide HoldsLease, AttemptOpen, FinishBadly, Retry, Promote, CompleteRun, Finish, HandBack, Suspend, SetRunState,
      TaskFailurePolicy, FailedAttemptsOf;
  }

  // ---------------------------------------------------------------------------------------------
  // What they do
  // ---------------------------------------------------------------------------------------------

  /** The attempt ends in `v`, and an effect row of the task shows `e`. */
  predicate Records(db: Db, next: Db, c: Credential, v: AttemptState, e: EffectState) {
    && c.attempt in db.attempts
    && next.attempts == db.attempts[c.attempt := db.attempts[c.attempt].(state := v)]
    && next.effects == (if c.task in db.effects then db.effects[c.task := e] else db.effects)
    && next.escalations == db.escalations
  }

  /** The task ends in `s`, without a lease. */
  predicate EndsIn(db: Db, next: Db, t: TaskId, s: TaskState) {
    && t in db.tasks && t in next.tasks
    && next.tasks[t] == db.tasks[t].(state := s, revision := db.tasks[t].revision + 1, leaseOwner := None,
          leaseExpiresAt := None, availableAt := 0)
  }

  /** Of the other tasks, exactly the PENDING ones of the run that nothing holds back now are dispatched, at once. */
  ghost predicate PromotesExactly(db: Db, next: Db, r: RunId, ended: TaskId) {
    && next.tasks.Keys == db.tasks.Keys
    && (forall t :: t in db.tasks && t != ended ==> if IsPromoted(db, next, r, t)
            then Redispatched(db, next, t, 0) && next.tasks[t].retriesScheduled == db.tasks[t].retriesScheduled
            else next.tasks[t] == db.tasks[t])
    && NoOtherRows(db, next, set t | t in db.tasks && t in next.tasks && IsPromoted(db, next, r, t))
  }

  predicate IsPromoted(db: Db, next: Db, r: RunId, t: TaskId)
    requires t in db.tasks && t in next.tasks
  {
    db.tasks[t].state == PENDING && db.tasks[t].run == r && !HeldBack(next, t)
  }

  /** The group of a shard fails unless it has ended; no other group changes. */
  predicate GroupFails(db: Db, next: Db, g: GroupId) {
    && next.groups.Keys == db.groups.Keys
    && forall h :: h in db.groups ==>
        next.groups[h] == db.groups[h].(state :=
          if h == g && db.groups[h].state in {PLANNED, GROUP_RUNNING} then GROUP_FAILED else db.groups[h].state)
  }

  /** Only the task itself changes, and no row. */
  predicate NothingElse(db: Db, next: Db, t: TaskId) {
    t in next.tasks && next.tasks == db.tasks[t := next.tasks[t]] && next.dispatches == db.dispatches
  }

  lemma StillHeldBack(mid: Db, next: Db, t: TaskId)
    requires t in mid.tasks && t in next.tasks && next.tasks.Keys == mid.tasks.Keys && next.groups == mid.groups
    requires next.tasks[t].dependsOn == mid.tasks[t].dependsOn
    requires forall d :: d in mid.tasks ==>
        next.tasks[d].state == mid.tasks[d].state
        || (mid.tasks[d].state == PENDING && next.tasks[d].state == RUNNABLE)
    ensures HeldBack(next, t) <==> HeldBack(mid, t)
  {
  }

  /** Promotion after one task has ended. */
  lemma PromotionExactly(db: Db, mid: Db, r: RunId, ended: TaskId)
    requires Safe(db) && ended in mid.tasks && ended in db.tasks && mid.tasks == db.tasks[ended := mid.tasks[ended]]
    requires db.tasks[ended].state != PENDING && mid.tasks[ended].state != PENDING && mid.dispatches == db.dispatches
    ensures PromotesExactly(db, Promote(mid, {r}), r, ended)
    ensures Promote(mid, {r}).tasks.Keys == db.tasks.Keys && Promote(mid, {r}).tasks[ended] == mid.tasks[ended]
  {
    hide Linked, Leased, Dispatched, Attempted, Counted, RetriesBounded, Honest, Budgeted, Eligible, HeldBack,
      Redispatched, NoOtherRows, Wake;
    var ps, next := Promotable(mid, {r}), Promote(mid, {r});
    forall t | t in ps
      ensures ReleasedFrom(db.tasks[t], mid.tasks[t])
    {
      AtRest(db, t);
    }
    WokenExactly(db, mid, ps, 0);
    WakeKeepsOrder(mid, ps);
    forall t | t in db.tasks
      ensures HeldBack(next, t) <==> !Eligible(mid, t)
    {
      StillHeldBack(mid, next, t);
      HeldBackIsBlocked(mid, t);
    }
    assert ps == set t | t in db.tasks && t in next.tasks && IsPromoted(db, next, r, t);
  }

  lemma WakeKeepsOrder(mid: Db, ps: set<TaskId>)
    requires ps <= mid.tasks.Keys && forall t :: t in ps ==> mid.tasks[t].state == PENDING
    ensures var next := Wake(mid, ps, 0);
      && next.tasks.Keys == mid.tasks.Keys
      && forall d :: d in mid.tasks ==>
          next.tasks[d].dependsOn == mid.tasks[d].dependsOn
          && (next.tasks[d].state == mid.tasks[d].state
              || (mid.tasks[d].state == PENDING && next.tasks[d].state == RUNNABLE))
  {
  }

  /** Promotion, at every moment of every trace: exactly the PENDING tasks of the run that nothing holds back are
      dispatched, at once, and nothing else changes. */
  lemma {:induction false} PromoteExactly(trace: Trace, i: nat, r: RunId)
    requires IsTrace(trace) && i < |trace.states|
    ensures var db, next := trace.states[i], Promote(trace.states[i], {r});
      && next == db.(tasks := next.tasks, dispatches := next.dispatches) && next.tasks.Keys == db.tasks.Keys
      && (forall t :: t in db.tasks ==> if db.tasks[t].state == PENDING && db.tasks[t].run == r && !HeldBack(db, t)
              then Redispatched(db, next, t, 0) && next.tasks[t].retriesScheduled == db.tasks[t].retriesScheduled
              else next.tasks[t] == db.tasks[t])
      && NoOtherRows(db, next, set t |
            t in db.tasks && db.tasks[t].state == PENDING && db.tasks[t].run == r && !HeldBack(db, t))
  {
    hide Safe, Eligible, HeldBack, Redispatched, NoOtherRows, Wake, Promotable, ReleasedFrom;
    TraceIsSafe(trace, i);
    var db, ps := trace.states[i], Promotable(trace.states[i], {r});
    PromotableAlike(db, r);
    forall t | t in ps
      ensures ReleasedFrom(db.tasks[t], db.tasks[t])
    {
      PendingIsReleased(db, t);
    }
    SafeRows(db);
    WokenExactly(db, db, ps, 0);
  }

  lemma PromotableAlike(db: Db, r: RunId)
    ensures Promotable(db, {r}) ==
        set t | t in db.tasks && db.tasks[t].state == PENDING && db.tasks[t].run == r && !HeldBack(db, t)
  {
    hide Eligible, HeldBack;
    forall t | t in db.tasks
      ensures HeldBack(db, t) <==> !Eligible(db, t)
    {
      HeldBackIsBlocked(db, t);
    }
  }

  lemma PendingIsReleased(db: Db, t: TaskId)
    requires Safe(db) && t in db.tasks && db.tasks[t].state == PENDING
    ensures ReleasedFrom(db.tasks[t], db.tasks[t])
  {
    hide Safe;
    AtRest(db, t);
  }

  lemma FinishedAlone(db: Db, c: Credential, v: Verdict, s: TaskState)
    requires c.task in db.tasks && c.attempt in db.attempts
    ensures var mid := Finish(db, c, v, s);
      && EndsIn(db, mid, c.task, s) && Records(db, mid, c, AttemptVerdict(v), EffectVerdict(v))
      && NothingElse(db, mid, c.task) && mid.groups == db.groups && mid.runs == db.runs
  {
  }

  lemma OpenTask(db: Db, c: Credential, v: Verdict, now: int)
    requires Outcome(db, c, v, now).answer == Done
    ensures c.task in db.tasks && c.attempt in db.attempts && db.tasks[c.task].state == RUNNING
  {
    hide FinishBadly, Retry, Promote, CompleteRun, Finish, TaskFailurePolicy, FailedAttemptsOf;
  }

  /** A success ends the task and its attempt, dispatches what it sets free, and closes the run if nothing is left. */
  lemma {:induction false} SuccessExactly(trace: Trace, i: nat, c: Credential, now: int)
    requires IsTrace(trace) && i < |trace.states| && Outcome(trace.states[i], c, Success, now).answer == Done
    ensures var db, next := trace.states[i], Outcome(trace.states[i], c, Success, now).db;
      && EndsIn(db, next, c.task, SUCCEEDED) && Records(db, next, c, ATTEMPT_SUCCEEDED, SENT)
      && PromotesExactly(db, next, db.tasks[c.task].run, c.task) && next.groups == db.groups
      && ClosesExactly(db, next, db.tasks[c.task].run)
  {
    hide Safe, Finish, Promote, CompleteRun, PromotesExactly, EndsIn, Records, ClosesExactly, HoldsLease, AttemptOpen;
    TraceIsSafe(trace, i);
    var db := trace.states[i];
    OpenTask(db, c, Success, now);
    FinishedAlone(db, c, Success, SUCCEEDED);
    var mid, r := Finish(db, c, Success, SUCCEEDED), db.tasks[c.task].run;
    EndedState(db, mid, c.task, SUCCEEDED);
    PromotionExactly(db, mid, r, c.task);
    ClosedExactly(Promote(mid, {r}), r);
    CarriedOver(db, mid, Promote(mid, {r}), CompleteRun(Promote(mid, {r}), r), c, SUCCEEDED, ATTEMPT_SUCCEEDED,
        SENT, r);
  }

  /** The run is SUCCEEDED if it was ACTIVE and every task of it has succeeded; no other run changes. */
  ghost predicate ClosesExactly(db: Db, next: Db, r: RunId) {
    && next.runs.Keys == db.runs.Keys
    && forall q :: q in db.runs ==>
        next.runs[q] == db.runs[q].(state :=
          if q == r && db.runs[q].state == ACTIVE
              && (forall t :: t in next.tasks && next.tasks[t].run == r ==> next.tasks[t].state == SUCCEEDED)
          then RUN_SUCCEEDED else db.runs[q].state)
  }

  lemma ClosedExactly(db: Db, r: RunId)
    ensures ClosesExactly(db, CompleteRun(db, r), r)
  {
  }

  lemma EndedState(db: Db, mid: Db, t: TaskId, s: TaskState)
    requires EndsIn(db, mid, t, s)
    ensures t in db.tasks && t in mid.tasks && mid.tasks[t].state == s
  {
  }

  /** What promotion and completion leave alone. */
  lemma CarriedOver(db: Db, mid: Db, promoted: Db, next: Db, c: Credential, s: TaskState, v: AttemptState,
      e: EffectState, r: RunId)
    requires EndsIn(db, mid, c.task, s) && Records(db, mid, c, v, e) && mid.runs == db.runs
    requires promoted == mid.(tasks := promoted.tasks, dispatches := promoted.dispatches)
        && next == promoted.(runs := next.runs)
    requires PromotesExactly(db, promoted, r, c.task) && promoted.tasks[c.task] == mid.tasks[c.task]
    ensures EndsIn(db, next, c.task, s) && Records(db, next, c, v, e) && PromotesExactly(db, next, r, c.task)
    ensures ClosesExactly(promoted, next, r) ==> ClosesExactly(db, next, r)
  {
    hide HeldBack, Redispatched, NoOtherRows;
    SamePromotion(db, promoted, next, r, c.task);
  }

  lemma SamePromotion(db: Db, promoted: Db, next: Db, r: RunId, ended: TaskId)
    requires PromotesExactly(db, promoted, r, ended)
    requires next.tasks == promoted.tasks && next.dispatches == promoted.dispatches && next.groups == promoted.groups
    ensures PromotesExactly(db, next, r, ended)
  {
    hide HeldBack;
    forall t | t in db.tasks
      ensures HeldBack(next, t) <==> HeldBack(promoted, t)
    {
      StillHeldBack(promoted, next, t);
    }
    assert forall t :: t in db.tasks ==> IsPromoted(db, next, r, t) == IsPromoted(db, promoted, r, t);
    assert (set t | t in db.tasks && t in next.tasks && IsPromoted(db, next, r, t))
        == set t | t in db.tasks && t in promoted.tasks && IsPromoted(db, promoted, r, t);
  }

  /** An unknown outcome leaves the task in doubt; a shard takes its group down, which may set the join free. */
  lemma {:induction false} UnknownExactly(trace: Trace, i: nat, c: Credential, now: int)
    requires IsTrace(trace) && i < |trace.states| && Outcome(trace.states[i], c, Unknown, now).answer == Done
    ensures var db, next := trace.states[i], Outcome(trace.states[i], c, Unknown, now).db;
      && EndsIn(db, next, c.task, UNKNOWN_OUTCOME) && Records(db, next, c, ATTEMPT_UNKNOWN, EFFECT_UNKNOWN)
      && next.runs == db.runs
      && (if db.tasks[c.task].group == None then NothingElse(db, next, c.task) && next.groups == db.groups
          else
            && PromotesExactly(db, next, db.tasks[c.task].run, c.task)
            && GroupFails(db, next, db.tasks[c.task].group.value))
  {
    hide Safe, FinishBadly, HoldsLease, AttemptOpen, EndsIn, Records, PromotesExactly, GroupFails, NothingElse;
    TraceIsSafe(trace, i);
    OpenTask(trace.states[i], c, Unknown, now);
    BadEnd(trace.states[i], c, Unknown, UNKNOWN_OUTCOME);
  }

  lemma BadEnd(db: Db, c: Credential, v: Verdict, s: TaskState)
    requires Safe(db) && c.task in db.tasks && c.attempt in db.attempts && db.tasks[c.task].state == RUNNING
    requires s in {FAILED, UNKNOWN_OUTCOME}
    ensures var next := FinishBadly(db, c, v, s);
      && EndsIn(db, next, c.task, s) && Records(db, next, c, AttemptVerdict(v), EffectVerdict(v))
      && (if db.tasks[c.task].group == None
          then NothingElse(db, next, c.task) && next.groups == db.groups
                && next.runs == (if s == FAILED && RunIs(db, db.tasks[c.task].run, ACTIVE)
                  then db.runs[db.tasks[c.task].run := db.runs[db.tasks[c.task].run].(state := RUN_FAILED)]
                        else db.runs)
          else
            && PromotesExactly(db, next, db.tasks[c.task].run, c.task) && next.runs == db.runs
            && GroupFails(db, next, db.tasks[c.task].group.value))
  {
    hide Safe, Finish, FailGroup, Promote, PromotesExactly, EndsIn, Records, GroupFails, NothingElse;
    FinishedAlone(db, c, v, s);
    var mid := Finish(db, c, v, s);
    EndedState(db, mid, c.task, s);
    if db.tasks[c.task].group.Some? {
      var r, failed := db.tasks[c.task].run, FailGroup(mid, db.tasks[c.task].group.value);
      AloneChanged(db, mid, failed, c.task);
      PromotionExactly(db, failed, r, c.task);
      FailedExactly(db, mid, db.tasks[c.task].group.value);
      SameGroups(db, failed, Promote(failed, {r}), db.tasks[c.task].group.value);
    }
    BadCarriedOver(db, mid, FinishBadly(db, c, v, s), c, s, AttemptVerdict(v), EffectVerdict(v));
  }

  lemma AloneChanged(db: Db, mid: Db, failed: Db, t: TaskId)
    requires NothingElse(db, mid, t) && failed == mid.(groups := failed.groups)
    ensures t in failed.tasks && failed.tasks == db.tasks[t := failed.tasks[t]] && failed.dispatches == db.dispatches
  {
  }

  lemma FailedExactly(db: Db, mid: Db, g: GroupId)
    requires mid.groups == db.groups
    ensures GroupFails(db, FailGroup(mid, g), g)
  {
  }

  lemma SameGroups(db: Db, failed: Db, next: Db, g: GroupId)
    requires GroupFails(db, failed, g) && next.groups == failed.groups
    ensures GroupFails(db, next, g)
  {
  }

  lemma BadCarriedOver(db: Db, mid: Db, next: Db, c: Credential, s: TaskState, v: AttemptState, e: EffectState)
    requires EndsIn(db, mid, c.task, s) && Records(db, mid, c, v, e)
    requires next.attempts == mid.attempts && next.effects == mid.effects && next.escalations == mid.escalations
    requires c.task in mid.tasks && c.task in next.tasks && next.tasks[c.task] == mid.tasks[c.task]
    ensures EndsIn(db, next, c.task, s) && Records(db, next, c, v, e)
    ensures NothingElse(db, mid, c.task) && next.tasks == mid.tasks && next.dispatches == mid.dispatches ==>
              NothingElse(db, next, c.task)
  {
  }

  /** How long after a failure the task is due again, by the number of attempts that have failed before. */
  function DueIn(failed: nat): int {
    if failed == 0 then 5_000 else if failed == 1 then 15_000 else 45_000
  }

  /** A failure is retried exactly if it is transient and the attempts that have failed, this one included, are fewer
      than the tool allows. Then the task is dispatched again, due 5, 15 or 45 seconds later, and nothing else
      changes; else it is over, and takes down its group, or its run if that is ACTIVE. */
  lemma {:induction false} FailureExactly(trace: Trace, i: nat, c: Credential, transient: bool, now: int)
    requires IsTrace(trace) && i < |trace.states|
        && Outcome(trace.states[i], c, Failure(transient), now).answer == Done
    ensures var db, next := trace.states[i], Outcome(trace.states[i], c, Failure(transient), now).db;
      && c.task in db.tasks && c.task in next.tasks
      && Records(db, next, c, ATTEMPT_FAILED, EFFECT_FAILED)
      && var x, failed := db.tasks[c.task],
          |set a | a in db.attempts && db.attempts[a].task == c.task && db.attempts[a].state == ATTEMPT_FAILED|;
        if transient && failed + 1 < x.tool.maxAttempts then
          && Redispatched(db, next, c.task, now + DueIn(failed)) && NoOtherRows(db, next, {c.task})
          && next.tasks == db.tasks[c.task := next.tasks[c.task]]
          && next.tasks[c.task].retriesScheduled == x.retriesScheduled + 1
          && next.groups == db.groups && next.runs == db.runs
        else
          && EndsIn(db, next, c.task, FAILED)
          && (if x.group == None
              then NothingElse(db, next, c.task) && next.groups == db.groups
                    && next.runs == (if RunIs(db, x.run, ACTIVE)
                      then db.runs[x.run := db.runs[x.run].(state := RUN_FAILED)] else db.runs)
              else
                && PromotesExactly(db, next, x.run, c.task) && next.runs == db.runs
                && GroupFails(db, next, x.group.value))
  {
    hide Safe, FinishBadly, Retry, HoldsLease, AttemptOpen, EndsIn, Records, PromotesExactly, GroupFails, NothingElse,
      Redispatched, NoOtherRows;
    TraceIsSafe(trace, i);
    var db := trace.states[i];
    OpenTask(db, c, Failure(transient), now);
    BadEnd(db, c, Failure(transient), FAILED);
    EndedState(db, FinishBadly(db, c, Failure(transient), FAILED), c.task, FAILED);
    RetryExactly(db, c, Failure(transient), now + DueIn(|FailedAttemptsOf(db.attempts, c.task)|));
    assert FailedAttemptsOf(db.attempts, c.task) ==
        set a | a in db.attempts && db.attempts[a].task == c.task && db.attempts[a].state == ATTEMPT_FAILED;
  }

  lemma RetryExactly(db: Db, c: Credential, v: Verdict, at: int)
    requires Safe(db) && c.task in db.tasks && c.attempt in db.attempts
    ensures var next := Retry(db, c, v, at);
      && c.task in next.tasks
      && Records(db, next, c, AttemptVerdict(v), EffectVerdict(v))
      && Redispatched(db, next, c.task, at) && NoOtherRows(db, next, {c.task})
      && next.tasks == db.tasks[c.task := next.tasks[c.task]]
      && next.tasks[c.task].retriesScheduled == db.tasks[c.task].retriesScheduled + 1
      && next.groups == db.groups && next.runs == db.runs
  {
    hide Safe, Redispatched, NoOtherRows, Wake, RecordVerdict, Records, RetryCounted;
    RetryRow(db.tasks, c.task);
    RecordedAlone(db, c, v);
    var mid := RecordVerdict(db, c, v).(tasks := RetryCounted(db.tasks, c.task));
    WokenAlone(db, mid, c.task, at);
    RecordsStay(db, RecordVerdict(db, c, v), Wake(mid, {c.task}, at), c, AttemptVerdict(v), EffectVerdict(v));
  }

  lemma WokenAlone(db: Db, mid: Db, t: TaskId, at: int)
    requires Safe(db) && t in db.tasks && t in mid.tasks && ReleasedFrom(db.tasks[t], mid.tasks[t])
    requires mid.tasks == db.tasks[t := mid.tasks[t]] && mid.dispatches == db.dispatches
    ensures var next := Wake(mid, {t}, at);
      && t in next.tasks && next.tasks == db.tasks[t := next.tasks[t]]
      && next.tasks[t].retriesScheduled == mid.tasks[t].retriesScheduled
      && Redispatched(db, next, t, at) && NoOtherRows(db, next, {t})
  {
    hide Linked, Leased, Dispatched, Attempted, Counted, RetriesBounded, Honest, Budgeted, Redispatched, NoOtherRows,
      Wake;
    WokenExactly(db, mid, {t}, at);
  }

  lemma RetryRow(tasks: Tasks, t: TaskId)
    requires t in tasks
    ensures var moved := RetryCounted(tasks, t);
      && t in moved && moved == tasks[t := moved[t]] && ReleasedFrom(tasks[t], moved[t])
      && moved[t].retriesScheduled == tasks[t].retriesScheduled + 1
  {
  }

  lemma RecordedAlone(db: Db, c: Credential, v: Verdict)
    requires c.attempt in db.attempts
    ensures Records(db, RecordVerdict(db, c, v), c, AttemptVerdict(v), EffectVerdict(v))
  {
  }

  lemma RecordsStay(db: Db, mid: Db, next: Db, c: Credential, v: AttemptState, e: EffectState)
    requires Records(db, mid, c, v, e)
    requires next.attempts == mid.attempts && next.effects == mid.effects && next.escalations == mid.escalations
    ensures Records(db, next, c, v, e)
  {
  }

  /** An accepted deferral hands the attempt back: it is not charged, and the task is dispatched again, due when the
      worker asked. */
  lemma {:induction false} DeferExactly(trace: Trace, i: nat, c: Credential, now: int, ms: int)
    requires IsTrace(trace) && i < |trace.states| && Defer(trace.states[i], c, now, ms).answer == Done
    ensures var db, next := trace.states[i], Defer(trace.states[i], c, now, ms).db;
      && c.task in db.tasks && c.task in next.tasks && c.attempt in db.attempts
      && db.tasks[c.task].run in db.runs && 1_000 <= ms <= 300_000
      && Redispatched(db, next, c.task, now + ms) && NoOtherRows(db, next, {c.task})
      && next.tasks == db.tasks[c.task := next.tasks[c.task]]
      && next.tasks[c.task].retriesScheduled == db.tasks[c.task].retriesScheduled
      && next.attempts == db.attempts[c.attempt := db.attempts[c.attempt].(state := DEFERRED)]
      && var r := db.tasks[c.task].run;
        next == db.(tasks := next.tasks, dispatches := next.dispatches, attempts := next.attempts,
          runs := db.runs[r := db.runs[r].(attemptsUsed := db.runs[r].attemptsUsed - 1)])
  {
    hide Safe, IsTrace, HandBack, Redispatched, NoOtherRows;
    RefundIsExact(trace, i, c, now, ms);
    TraceIsSafe(trace, i);
    HandBackExactly(trace.states[i], c, now + ms);
  }

  lemma HandBackExactly(db: Db, c: Credential, at: int)
    requires Safe(db) && c.task in db.tasks && c.attempt in db.attempts && db.tasks[c.task].run in db.runs
    ensures var next, r := HandBack(db, c, at), db.tasks[c.task].run;
      && Redispatched(db, next, c.task, at) && NoOtherRows(db, next, {c.task})
      && next.tasks == db.tasks[c.task := next.tasks[c.task]]
      && next.tasks[c.task].retriesScheduled == db.tasks[c.task].retriesScheduled
      && next.attempts == db.attempts[c.attempt := db.attempts[c.attempt].(state := DEFERRED)]
      && r in next.runs
      && next == db.(tasks := next.tasks, dispatches := next.dispatches, attempts := next.attempts,
          runs := db.runs[r := db.runs[r].(attemptsUsed := next.runs[r].attemptsUsed)])
  {
    hide Safe, Redispatched, NoOtherRows, Wake;
    var mid := Refund(SetAttemptState(db.(tasks := ReleasedTasks(db.tasks, {c.task})), c.attempt, DEFERRED),
        db.tasks[c.task].run);
    WokenAlone(db, mid, c.task, at);
    assert HandBack(db, c, at) == Wake(mid, {c.task}, at);
  }

  /** A heartbeat moves the expiry of the lease to `leaseMs` after it was sent, and nothing else but the revision. */
  lemma HeartbeatExactly(db: Db, c: Credential, now: int, leaseMs: int)
    requires Heartbeat(db, c, now, leaseMs).answer == Done
    ensures c.task in db.tasks
    ensures Heartbeat(db, c, now, leaseMs).db == db.(tasks := db.tasks[c.task := db.tasks[c.task].(
        leaseExpiresAt := Some(now + leaseMs), revision := db.tasks[c.task].revision + 1)])
  {
  }

  /** An accepted human wait ends the attempt, lets the task and, if it is ACTIVE, its run wait, and asks. */
  lemma WaitExactly(db: Db, c: Credential, obstacle: string, e: EscalationId)
    requires WaitForHuman(db, c, obstacle, e).answer == Done
    ensures var next := WaitForHuman(db, c, obstacle, e).db;
      && c.task in db.tasks && e !in db.escalations
      && var x := db.tasks[c.task];
        && next.tasks == db.tasks[c.task := x.(state := WAITING, revision := x.revision + 1, leaseOwner := None,
              leaseExpiresAt := None)]
        && next.attempts == (if c.attempt in db.attempts
            then db.attempts[c.attempt := db.attempts[c.attempt].(state := ATTEMPT_WAITING)] else db.attempts)
        && next.escalations == db.escalations[e := Escalation(x.run, true, obstacle, false)]
        && next.runs == (if RunIs(db, x.run, ACTIVE)
            then db.runs[x.run := db.runs[x.run].(state := WAITING_FOR_HUMAN)] else db.runs)
        && next.groups == db.groups && next.dispatches == db.dispatches && next.effects == db.effects
  {
    hide AsksAlready;
  }
}
