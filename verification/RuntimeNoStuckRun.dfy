/** No run gets stuck, and what happens without the discipline. */
module RuntimeNoStuckRun {
  import opened Wrappers
  import opened RuntimeState
  import opened Graphs
  import opened RuntimeTransitions
  import opened RuntimeInvariant
  import opened RuntimeUnits
  import opened RuntimeGrowth
  import opened RuntimeSafety
  import opened RuntimeTraces
  import opened RuntimeGuarantees
  import opened RuntimeOrder
  import opened RuntimeStartOrder
  import opened RuntimeLiveness
  import opened RuntimeProgress
  import opened RuntimeSupersession

  // ---------------------------------------------------------------------------------------------
  // Gentle steps
  // ---------------------------------------------------------------------------------------------

  /** Only a human wait makes a run wait. */
  lemma OnlyWaitsSuspend(db: Db, s: Step, r: RunId)
    requires Safe(db) && IsGentle(db, s) && !s.DoWaitForHuman? && RunIs(Next(db, s), r, WAITING_FOR_HUMAN)
    ensures RunIs(db, r, WAITING_FOR_HUMAN)
  {
    hide Safe, CreateRun, MaterializeFanout, CompleteFanout, Claim, ClaimById, Heartbeat, WaitForHuman, ResumeRun,
      ResolveEscalation, Defer, Outcome, RecoverStale, ClaimDispatchBatch, ConfirmDispatch, FailDispatch,
      DeferPublishedDispatch, Reconcile, Promote, Retried;
    match s
    case DoClaim(t, worker, now, leaseMs, a) => ClaimRuns(db, s, r);
    case DoClaimById(t, version, route, worker, now, leaseMs, limits, a) => ClaimRuns(db, s, r);
    case DoHeartbeat(c, now, leaseMs) => HeartbeatFrame(db, c, now, leaseMs);
    case DoRecordEffect(t, effect) =>
    case DoResumeRun(e, runUnchanged) => ResumeRuns(db, e, runUnchanged, r);
    case DoResolveEscalation(e, successor) => ResolveRuns(db, e, successor, r);
    case DoDefer(c, now, retryAfterMs) => DeferRuns(db, c, now, retryAfterMs, r);
    case DoOutcome(c, v, now) => OutcomeRuns(db, c, v, now);
    case DoClaimDispatchBatch(publisher, now, leaseMs, size, batch) =>
      ClaimDispatchBatchFrame(db, publisher, now, leaseMs, size, batch);
    case DoConfirmDispatch(k, publisher, now) => PublisherFrame(db, k, publisher, now);
    case DoFailDispatch(k, publisher, retryAt) => PublisherFrame(db, k, publisher, retryAt);
    case DoDeferPublished(t, version, retryAt) => DeferPublishedFrame(db, t, version, retryAt);
    case DoReconcile(now, republishAfterMs) => ReconcileFrame(db, now, republishAfterMs);
  }

  lemma ClaimRuns(db: Db, s: Step, r: RunId)
    requires IsClaim(s) && RunIs(Next(db, s), r, WAITING_FOR_HUMAN)
    ensures RunIs(db, r, WAITING_FOR_HUMAN)
  {
    hide StartGroup, Eligible, DependencyBlocked, RunFull, PoolFull;
  }

  lemma ResumeRuns(db: Db, e: EscalationId, runUnchanged: bool, r: RunId)
    requires RunIs(ResumeRun(db, e, runUnchanged).db, r, WAITING_FOR_HUMAN)
    ensures RunIs(db, r, WAITING_FOR_HUMAN)
  {
    hide Wake, Doubt, Waiting, CloseEscalation;
    if e in db.escalations && db.escalations[e].open { ResumedWaiting(db, db.escalations[e].run); }
  }

  lemma ResolveRuns(db: Db, e: EscalationId, successor: Option<RunId>, r: RunId)
    requires !Supersedes(db, e, successor) && RunIs(ResolveEscalation(db, e, successor).db, r, WAITING_FOR_HUMAN)
    ensures RunIs(db, r, WAITING_FOR_HUMAN)
  {
    hide CloseEscalation;
  }

  lemma DeferRuns(db: Db, c: Credential, now: int, retryAfterMs: int, r: RunId)
    requires RunIs(Defer(db, c, now, retryAfterMs).db, r, WAITING_FOR_HUMAN)
    ensures RunIs(db, r, WAITING_FOR_HUMAN)
  {
    hide HandBack;
    if Defer(db, c, now, retryAfterMs).answer == Done { HandBackRuns(db, c, now + retryAfterMs, r); }
  }

  lemma HandBackRuns(db: Db, c: Credential, at: int, r: RunId)
    requires c.task in db.tasks && RunIs(HandBack(db, c, at), r, WAITING_FOR_HUMAN)
    ensures RunIs(db, r, WAITING_FOR_HUMAN)
  {
    hide Refund, Wake, SetAttemptState, ReleasedTasks;
    var deferred := SetAttemptState(db.(tasks := ReleasedTasks(db.tasks, {c.task})), c.attempt, DEFERRED);
    RefundRuns(deferred, db.tasks[c.task].run, r);
  }

  lemma RefundRuns(db: Db, q: RunId, r: RunId)
    ensures RunIs(Refund(db, q), r, WAITING_FOR_HUMAN) ==> RunIs(db, r, WAITING_FOR_HUMAN)
  {
  }

  lemma OutcomeRuns(db: Db, c: Credential, v: Verdict, now: int)
    requires IsGentle(db, DoOutcome(c, v, now))
    ensures Outcome(db, c, v, now).db.runs == db.runs
  {
    hide Finish, Retry, Promote, CompleteRun, FailedAttemptsOf;
  }

  /** A claim moves only a task of an active run. */
  lemma ClaimedAlone(db: Db, s: Step, t: TaskId)
    requires IsClaim(s) && t in db.tasks && t in Next(db, s).tasks && Next(db, s).tasks[t] != db.tasks[t]
    ensures RunIs(db, db.tasks[t].run, ACTIVE)
  {
    hide StartGroup, Eligible, DependencyBlocked, RunFull, PoolFull;
  }

  lemma GentleParked(db: Db, s: Step, r: RunId)
    requires Safe(db) && Quoted(db, s) && IsGentle(db, s) && r in db.runs && Moving(db, r)
    ensures RunIs(Next(db, s), r, WAITING_FOR_HUMAN) ==> HasParked(Next(db, s), r)
  {
    hide Linked, Leased, Dispatched, Attempted, Counted, RetriesBounded, Honest, Budgeted, Next, Quoted, IsGentle,
      AllSucceeded, Busy, Settled;
    if RunIs(Next(db, s), r, WAITING_FOR_HUMAN) {
      if RunIs(db, r, WAITING_FOR_HUMAN) {
        var t :| t in db.tasks && db.tasks[t].run == r && Parked(db.tasks[t].state);
        GentleStep(db, s);
        assert GentleTask(db.tasks[t], Next(db, s).tasks[t]);
        if Next(db, s).tasks[t].state == RUNNING {
          if IsClaim(s) { ClaimedAlone(db, s, t); } else { OnlyClaimsRun(db, s, t); }
        }
        assert Parked(Next(db, s).tasks[t].state);
      } else if s.DoWaitForHuman? {
        SuspendedParked(db, s, r);
      } else {
        OnlyWaitsSuspend(db, s, r);
      }
    }
  }

  lemma SuspendedParked(db: Db, s: Step, r: RunId)
    requires s.DoWaitForHuman? && RunIs(Next(db, s), r, WAITING_FOR_HUMAN) && !RunIs(db, r, WAITING_FOR_HUMAN)
    ensures HasParked(Next(db, s), r)
  {
    hide SetAttemptState;
    assert Next(db, s).tasks[s.c.task].state == WAITING && Next(db, s).tasks[s.c.task].run == r;
  }

  lemma GentleStepKeepsLively(db: Db, s: Step, r: RunId)
    requires Safe(db) && Lively(db, r) && Quoted(db, s) && IsGentle(db, s)
    ensures Lively(Next(db, s), r)
  {
    hide Linked, Leased, Dispatched, Attempted, Counted, RetriesBounded, Honest, Budgeted, Next, Quoted, IsGentle,
      Moving, Acyclic, GroupsHonest, FailuresFail, Advances, Shaped;
    GentleStep(db, s);
    StepKeepsSafe(db, s);
    if r in db.runs && db.runs[r].plan != [] {
      GentleKeepsStructure(db, Next(db, s), r);
      GentleParked(db, s, r);
      GentleMoves(db, Next(db, s), r);
    }
  }

  // ---------------------------------------------------------------------------------------------
  // Steps and runs
  // ---------------------------------------------------------------------------------------------

  lemma OutcomeKeepsLively(db: Db, c: Credential, v: Verdict, now: int, r: RunId)
    requires Safe(db) && Lively(db, r) && Issued(db, c) && Disciplined(db, DoOutcome(c, v, now), r)
    ensures Lively(Outcome(db, c, v, now).db, r)
  {
    hide Linked, Leased, Dispatched, Attempted, Counted, RetriesBounded, Honest, Budgeted, Structured, Moving, Issued,
      Outcome, HoldsLease, AttemptOpen, Retried, JoinSatisfied, FinalFailure, SameRun, Advances;
    RunsTouched(db, DoOutcome(c, v, now));
    if IsGentle(db, DoOutcome(c, v, now)) {
      GentleStepKeepsLively(db, DoOutcome(c, v, now), r);
    } else if c.task in db.tasks && db.tasks[c.task].run == r {
      OwnOutcome(db, c, v, now);
    } else {
      StepKeepsSafe(db, DoOutcome(c, v, now));
      if r in db.runs { OutcomeRunsElsewhere(db, c, v, now, r); }
    }
  }

  lemma OutcomeRunsElsewhere(db: Db, c: Credential, v: Verdict, now: int, r: RunId)
    requires Linked(db.runs, db.tasks, db.groups)
        && Linked(Outcome(db, c, v, now).db.runs, Outcome(db, c, v, now).db.tasks, Outcome(db, c, v, now).db.groups)
    requires !IsGentle(db, DoOutcome(c, v, now)) && db.tasks[c.task].run != r && r in db.runs && Lively(db, r)
    ensures Lively(Outcome(db, c, v, now).db, r)
  {
    hide Linked, Lively, Outcome, IsGentle, SameRun;
    OutcomeElsewhere(db, c, v, now, r);
    SameRunLively(db, Outcome(db, c, v, now).db, r);
  }

  lemma OwnOutcome(db: Db, c: Credential, v: Verdict, now: int)
    requires c.task in db.tasks && !IsGentle(db, DoOutcome(c, v, now))
    requires Safe(db) && Lively(db, db.tasks[c.task].run) && Issued(db, c)
        && Disciplined(db, DoOutcome(c, v, now), db.tasks[c.task].run)
    ensures Lively(Outcome(db, c, v, now).db, db.tasks[c.task].run)
  {
    hide Safe, Structured, Moving, Issued, Finish, FinishBadly, Retry, CompleteRun, Promote, FailedAttemptsOf,
      JoinSatisfied, Advances;
    var r := db.tasks[c.task].run;
    StepKeepsSafe(db, DoOutcome(c, v, now));
    OutcomePlans(db, c, v, now);
    if r in db.runs && db.runs[r].plan != [] {
      if v.Success? {
        SuccessMoves(db, c, v);
      } else if db.tasks[c.task].group.Some? {
        BadShardMoves(db, c, v, if v == Unknown then UNKNOWN_OUTCOME else FAILED);
      } else {
        BadTaskMoves(db, c, v);
      }
    }
  }

  lemma OutcomePlans(db: Db, c: Credential, v: Verdict, now: int)
    requires Safe(db) && Issued(db, c)
    ensures RunsAdvance(db.runs, Outcome(db, c, v, now).db.runs) && Outcome(db, c, v, now).db.runs.Keys == db.runs.Keys
  {
    hide Safe, Outcome, Issued;
    StepKeepsSafe(db, DoOutcome(c, v, now));
    RunsTouched(db, DoOutcome(c, v, now));
  }

  lemma PromotedLively(db: Db, q: RunId, r: RunId)
    requires Safe(db) && Lively(db, r)
    ensures Lively(Promote(db, {q}), r)
  {
    hide Linked, Leased, Dispatched, Attempted, Counted, RetriesBounded, Honest, Budgeted, Structured, Promote,
      HasParked, AllSucceeded, Busy, Settled;
    if r in db.runs && db.runs[r].plan != [] {
      PromoteKeepsStructure(db, {q}, r);
      PromoteMoves(db, {q}, r);
    }
  }

  /** A superseded run is closed, and its successor has no plan. */
  lemma ResolveKeepsLively(db: Db, e: EscalationId, n: RunId, r: RunId)
    requires Safe(db) && Lively(db, r) && Supersedes(db, e, Some(n))
    ensures Lively(ResolveEscalation(db, e, Some(n)).db, r)
  {
    hide Linked, Leased, Dispatched, Attempted, Counted, RetriesBounded, Honest, Budgeted, Structured, HasParked,
      AllSucceeded, Busy, Settled, Advances;
    var next := ResolveEscalation(db, e, Some(n)).db;
    if r in db.runs && db.runs[r].plan != [] {
      ResolvedRun(db, e, n, r);
      SameTablesStructure(db, next, r);
      SameTablesMoves(db, next, r);
    }
  }

  lemma ResolvedRun(db: Db, e: EscalationId, n: RunId, r: RunId)
    requires r in db.runs && Supersedes(db, e, Some(n))
    ensures var next := ResolveEscalation(db, e, Some(n)).db;
      && next == db.(runs := next.runs, escalations := next.escalations)
      && r in next.runs && next.runs[r] == db.runs[r].(state := next.runs[r].state)
      && (next.runs[r].state == db.runs[r].state || next.runs[r].state == SUPERSEDED)
  {
  }

  lemma SameTablesStructure(db: Db, next: Db, r: RunId)
    requires Structured(db, r) && next == db.(runs := next.runs, escalations := next.escalations)
    requires r in db.runs && r in next.runs && (RunOpen(next.runs[r].state) ==> RunOpen(db.runs[r].state))
    ensures Structured(next, r)
  {
    hide Acyclic, DependencyGraph, Shaped, GroupsHonest;
  }

  lemma SameTablesMoves(db: Db, next: Db, r: RunId)
    requires next == db.(runs := next.runs, escalations := next.escalations) && r in db.runs && r in next.runs
        && Moving(db, r)
    requires next.runs[r].state == db.runs[r].state || !RunOpen(next.runs[r].state)
    ensures Moving(next, r)
  {
    var quiet := db.(runs := next.runs);
    SameTablesMove(db, quiet, r);
    EscalationsMove(quiet, next, r);
  }

  lemma EscalationsMove(db: Db, next: Db, r: RunId)
    requires next == db.(escalations := next.escalations) && r in db.runs && Moving(db, r)
    ensures Moving(next, r)
  {
    assert forall t :: t in db.tasks ==> Eligible(next, t) == Eligible(db, t) by {
      assert forall t :: Joins(next, t) == Joins(db, t) && JoinsFailedGroup(next, t) == JoinsFailedGroup(db, t);
    }
    hide Eligible;
  }

  lemma StepKeepsLively(db: Db, s: Step, r: RunId)
    requires Safe(db) && Orderly(db) && Lively(db, r) && Quoted(db, s) && Disciplined(db, s, r)
    ensures Lively(Next(db, s), r)
  {
    hide Safe, Orderly, Lively, Issued, CreateRun, MaterializeFanout, CompleteFanout, Claim, ClaimById, Heartbeat,
      WaitForHuman, ResumeRun, ResolveEscalation, Defer, Outcome, RecoverStale, ClaimDispatchBatch, ConfirmDispatch,
      FailDispatch, DeferPublishedDispatch, Reconcile, Promote, SoundFanout, JoinSatisfied, FinalFailure,
      NotificationLast;
    if s.DoOutcome? {
      OutcomeKeepsLively(db, s.c, s.v, s.now, r);
    } else if IsGentle(db, s) {
      GentleStepKeepsLively(db, s, r);
    } else {
      match s
      case DoCreateRun(q, plan, limit, last, artifacts) => CreateRunKeepsLively(db, q, plan, limit, last, artifacts, r);
      case DoPromote(q) => PromotedLively(db, q, r);
      case DoMaterialize(coordinator, join, d) => MaterializeKeepsLively(db, coordinator, join, d, r);
      case DoCompleteFanout(g) => CompleteFanoutKeepsLively(db, g, r);
      case DoResolveEscalation(e, successor) => ResolveKeepsLively(db, e, successor.value, r);
      case DoRecoverStale(now) => RecoverStaleKeepsLively(db, now, r);
    }
  }

  /** Every transaction of the history that concerns the run `r` is disciplined. */
  ghost predicate IsDisciplined(trace: Trace, r: RunId) {
    forall i {:trigger trace.steps[i]} ::
        0 <= i < |trace.steps| && i < |trace.states| ==> Disciplined(trace.states[i], trace.steps[i], r)
  }

  lemma {:induction false} EveryRunIsLively(trace: Trace, i: nat, r: RunId)
    requires IsTrace(trace) && IsDisciplined(trace, r) && i < |trace.states|
    ensures Lively(trace.states[i], r)
    decreases i
  {
    hide Safe, Orderly, Quoted, Disciplined, Next, Structured, Moving;
    if i > 0 {
      EveryRunIsLively(trace, i - 1, r);
      EveryRunIsOrderly(trace, i - 1);
      TraceIsSafe(trace, i - 1);
      StepKeepsLively(trace.states[i - 1], trace.steps[i - 1], r);
    }
  }

  /** No stuck run: at every moment of every history that is disciplined about the run, a run that is ACTIVE
      or waits for a human has a task that is RUNNABLE, RUNNING, WAITING or UNKNOWN_OUTCOME; in particular the
      last success closes it. */
  lemma {:induction false} NoStuckRun(trace: Trace, i: nat, r: RunId)
    requires IsTrace(trace) && IsDisciplined(trace, r) && i < |trace.states|
    requires r in trace.states[i].runs && trace.states[i].runs[r].state in {ACTIVE, WAITING_FOR_HUMAN}
    ensures exists t ::
              t in trace.states[i].tasks && trace.states[i].tasks[t].run == r
              && trace.states[i].tasks[t].state in {RUNNABLE, RUNNING, WAITING, UNKNOWN_OUTCOME}
    ensures !AllSucceeded(trace.states[i], r)
  {
    hide Safe, Orderly, Structured, IsTrace, IsDisciplined, Busy, Settled, AllSucceeded;
    var db := trace.states[i];
    TraceIsSafe(trace, i);
    NeverSuperseded(trace, i);
    EveryRunIsLively(trace, i, r);
    EveryRunIsOrderly(trace, i);
    assert Moving(db, r);
    OpenRunHasLive(db, r);
    var t :| t in db.tasks && db.tasks[t].run == r && Live(db.tasks[t].state);
    assert db.tasks[t].state in {RUNNABLE, RUNNING, WAITING, UNKNOWN_OUTCOME};
  }

  // ---------------------------------------------------------------------------------------------
  // A stuck run stays stuck
  // ---------------------------------------------------------------------------------------------

  /** An active run with nothing to do and nothing to promote. */
  ghost predicate Stuck(db: Db, r: RunId) {
    RunIs(db, r, ACTIVE) && !HasLive(db, r) && Settled(db, r)
  }

  lemma SameRunStuck(db: Db, next: Db, r: RunId)
    requires Linked(db.runs, db.tasks, db.groups) && Linked(next.runs, next.tasks, next.groups) && SameRun(db, next, r)
    requires Stuck(db, r) && RunIs(next, r, ACTIVE)
    ensures Stuck(next, r)
  {
    hide Linked, Settled, NoEasier;
    forall t | t in db.tasks && db.tasks[t].run == r
      ensures t in next.tasks && NoEasier(db, next, t)
    {
      SameRunNoEasier(db, next, r, t);
    }
    SettledStays(db, next, r);
  }

  lemma GentleStuck(db: Db, next: Db, r: RunId)
    requires Linked(db.runs, db.tasks, db.groups) && Gentle(db, next) && Stuck(db, r) && RunIs(next, r, ACTIVE)
    ensures Stuck(next, r)
  {
    hide Linked, Settled, NoEasier;
    assert forall t :: t in db.tasks ==> GentleTask(db.tasks[t], next.tasks[t]);
    forall t | t in next.tasks && next.tasks[t].run == r
      ensures NoEasier(db, next, t)
    {
      StuckNoEasier(db, next, r, t);
    }
    SettledStays(db, next, r);
  }

  lemma StuckNoEasier(db: Db, next: Db, r: RunId, t: TaskId)
    requires Gentle(db, next) && Linked(db.runs, db.tasks, db.groups) && !HasLive(db, r) && t in db.tasks
        && db.tasks[t].run == r
    ensures t in next.tasks && NoEasier(db, next, t)
  {
    hide Linked, Joins, JoinsFailedGroup;
    LinkedTask(db, t);
    assert GentleTask(db.tasks[t], next.tasks[t]);
    SameJoins(db, next, t);
    SameFailedGroups(db, next, t);
    forall d | d in db.tasks[t].dependsOn
      ensures d in db.tasks && next.tasks[d].state == db.tasks[d].state
    {
      LinkedTask(db, d);
      assert GentleTask(db.tasks[d], next.tasks[d]);
    }
  }

  lemma PromoteStuck(db: Db, rs: set<RunId>, r: RunId)
    requires Safe(db) && Stuck(db, r)
    ensures Stuck(Promote(db, rs), r)
  {
    hide Linked, Leased, Dispatched, Attempted, Counted, RetriesBounded, Honest, Budgeted, Promote, Eligible, Advances;
    PromotedIds(db, rs);
    forall t | t in db.tasks
      ensures Promote(db, rs).tasks[t].run == db.tasks[t].run
      ensures db.tasks[t].run == r ==> Promote(db, rs).tasks[t] == db.tasks[t]
    {
      PromotedTask(db, rs, t);
    }
    PromoteKeeps(db, rs);
    SameRunStuck(db, Promote(db, rs), r);
  }

  /** Only the human wait of one of its own tasks stops a run from being active, among the gentle steps. */
  lemma GentleStaysActive(db: Db, s: Step, r: RunId)
    requires Safe(db) && IsGentle(db, s) && RunIs(db, r, ACTIVE) && !HasLive(db, r)
    ensures RunIs(Next(db, s), r, ACTIVE)
  {
    hide Safe, Next, IsGentle, Gentle;
    GentleStep(db, s);
    GentleOpen(db, Next(db, s), r);
    if RunIs(Next(db, s), r, WAITING_FOR_HUMAN) {
      if s.DoWaitForHuman? { OwnTaskWaits(db, s, r); } else { OnlyWaitsSuspend(db, s, r); }
    }
  }

  lemma GentleOpen(db: Db, next: Db, r: RunId)
    requires Gentle(db, next) && RunIs(db, r, ACTIVE)
    ensures RunIs(next, r, ACTIVE) || RunIs(next, r, WAITING_FOR_HUMAN)
  {
  }

  lemma OwnTaskWaits(db: Db, s: Step, r: RunId)
    requires s.DoWaitForHuman? && RunIs(Next(db, s), r, WAITING_FOR_HUMAN)
    ensures RunIs(db, r, WAITING_FOR_HUMAN) || HasLive(db, r)
  {
    hide Suspend;
  }

  lemma OutcomeStuck(db: Db, c: Credential, v: Verdict, now: int, r: RunId)
    requires Safe(db) && Issued(db, c) && Stuck(db, r) && !IsGentle(db, DoOutcome(c, v, now))
    ensures Stuck(Outcome(db, c, v, now).db, r)
  {
    hide Linked, Leased, Dispatched, Attempted, Counted, RetriesBounded, Honest, Budgeted, Settled, Finish, FailGroup,
      Promote, SameRun, Issued, Advances, FailedAttemptsOf, AllSucceeded;
    var q := db.tasks[c.task].run;
    var s := if v == Success then SUCCEEDED else if v == Unknown then UNKNOWN_OUTCOME else FAILED;
    var finished := Finish(db, c, v, s);
    assert q != r;
    FinishedTasks(db, c, v, s);
    FinishKept(db, c, v, s);
    FinishedElsewhere(db, c, v, s, r);
    SameRunStuck(db, finished, r);
    if v != Success && db.tasks[c.task].group.Some? {
      var failed := FailGroup(finished, db.tasks[c.task].group.value);
      FailGroupKeeps(finished, db.tasks[c.task].group.value);
      BadShardElsewhere(db, c, v, s, r);
      SameRunStuck(db, failed, r);
      PromoteStuck(failed, {q}, r);
    } else if v == Success {
      PromoteStuck(finished, {q}, r);
      OtherRunState(Promote(finished, {q}), CompleteRun(Promote(finished, {q}), q), r);
    } else {
      OtherRunState(finished, Outcome(db, c, v, now).db, r);
    }
  }

  lemma OtherRunState(db: Db, next: Db, r: RunId)
    requires next == db.(runs := next.runs) && Stuck(db, r) && RunIs(next, r, ACTIVE)
    ensures Stuck(next, r)
  {
    assert forall t :: t in db.tasks ==> Eligible(next, t) == Eligible(db, t) by {
      assert forall t :: Joins(next, t) == Joins(db, t) && JoinsFailedGroup(next, t) == JoinsFailedGroup(db, t);
    }
    hide Eligible;
  }

  lemma CreateRunStuck(db: Db, q: RunId, plan: seq<PlanTask>, limit: int, last: Option<RunId>, artifacts: set<string>,
      r: RunId)
    requires Safe(db) && Stuck(db, r)
    ensures Stuck(CreateRun(db, q, plan, limit, last, artifacts).db, r)
  {
    hide Linked, Leased, Dispatched, Attempted, Counted, RetriesBounded, Honest, Budgeted, Settled, InsertPlan,
      ReusedCount, RecoverySource, InsertableDependencies, PlanTasks, InitialTask, Advances;
    if CreateRun(db, q, plan, limit, last, artifacts).answer == Done {
      var source := RecoverySource(db, plan, last);
      var reused := if source.Some? then Some(ReusedCount(db, source.value, plan, artifacts)) else None;
      var next := CreateRun(db, q, plan, limit, last, artifacts).db;
      NewRunIds(db, q, plan, reused);
      InsertedPlan(db.(runs := db.runs[q := Run(ACTIVE, 0, limit, 1, plan)]), q, plan, reused);
      forall t | t in next.tasks && t !in db.tasks
        ensures next.tasks[t].run == q
      {
        var i := PlanTaskAt(q, plan, reused, t);
        InitialColumns(q, plan, reused, i);
      }
      CreateRunKeeps(db, q, plan, limit, last, artifacts);
      SameRunStuck(db, next, r);
    }
  }

  lemma MaterializeStuck(db: Db, coordinator: TaskId, join: TaskId, d: Descriptor, r: RunId)
    requires Safe(db) && Stuck(db, r)
    ensures Stuck(MaterializeFanout(db, coordinator, join, d).db, r)
  {
    hide Linked, Leased, Dispatched, Attempted, Counted, RetriesBounded, Honest, Budgeted, Settled, InsertGroup,
      ShardsInsertable, ShardTasks, ShardTask, NewGroup, Advances;
    if MaterializeFanout(db, coordinator, join, d).db != db {
      var next := InsertGroup(db, coordinator, join, d);
      assert GroupOf(d) !in db.groups && d.run != r;
      FreshShards(db, d, coordinator);
      InsertedGroup(db, coordinator, join, d);
      forall t | t in next.tasks && t !in db.tasks
        ensures next.tasks[t].run == d.run
      {
        ShardTaskAt(d, coordinator, t);
        ShardColumns(d, coordinator, t.identity);
      }
      MaterializeKeeps(db, coordinator, join, d);
      SameRunStuck(db, next, r);
    }
  }

  lemma CompleteFanoutStuck(db: Db, g: GroupId, r: RunId)
    requires Stuck(db, r)
    ensures Stuck(CompleteFanout(db, g).db, r)
  {
    hide Settled, NoEasier, Required;
    var next := CompleteFanout(db, g).db;
    if CompleteFanout(db, g).answer == Done {
      forall t | t in db.tasks
        ensures NoEasier(db, next, t)
      {
        CompletedNoEasier(db, g, t);
      }
      SettledStays(db, next, r);
    }
  }

  lemma RecoverStaleStuck(db: Db, now: int, r: RunId)
    requires Safe(db) && Stuck(db, r)
    ensures Stuck(RecoverStale(db, now).db, r)
  {
    hide Linked, Leased, Dispatched, Attempted, Counted, RetriesBounded, Honest, Budgeted, Settled, RecoverTasks,
      Promote, FailedFanoutRuns, Gentle, AllLive, Advances, SameRun, Stop, NotifiedEnough, AllSucceeded, HasLive;
    NoneNotified(db, r);
    NotifiedElsewhere(db, r);
    StopNotified(db);
    var stopped := Stop(db, NotifiedEnough(db), SUCCEEDED);
    var notified := FinishNotifications(db);
    SameRunStuck(db, stopped, r);
    OtherRunState(stopped, notified, r);
    FinishNotificationsKeeps(db);
    StaleLive(notified, now);
    RecoverTasksKeeps(notified, Stale(notified, now));
    RecoveredGently(notified, Stale(notified, now));
    var recovered := RecoverTasks(notified, Stale(notified, now));
    GentleStuck(notified, recovered, r);
    PromoteStuck(recovered, FailedFanoutRuns(recovered), r);
  }

  lemma NoneNotified(db: Db, r: RunId)
    requires !HasLive(db, r)
    ensures r !in RunsOf(db, NotifiedEnough(db))
  {
    hide Published;
  }

  lemma ResolveStuck(db: Db, e: EscalationId, successor: Option<RunId>, r: RunId)
    requires Safe(db) && Stuck(db, r)
    ensures Stuck(ResolveEscalation(db, e, successor).db, r)
  {
    hide Linked, Leased, Dispatched, Attempted, Counted, RetriesBounded, Honest, Budgeted, Settled, HasLive, Advances,
      ResolveEscalation;
    ResolveEscalationFrame(db, e, successor);
    ResolvedRows(db, e, successor);
    ResolveEscalationKeeps(db, e, successor);
    var next := ResolveEscalation(db, e, successor).db;
    assert SameRun(db, next, r);
    SameRunStuck(db, next, r);
  }

  lemma StepStaysStuck(db: Db, s: Step, r: RunId)
    requires Safe(db) && Quoted(db, s) && Stuck(db, r)
    ensures Stuck(Next(db, s), r)
  {
    hide Linked, Leased, Dispatched, Attempted, Counted, RetriesBounded, Honest, Budgeted, HasLive, Settled, Issued,
      Gentle, CreateRun, MaterializeFanout, CompleteFanout, Claim, ClaimById, Heartbeat, WaitForHuman, ResumeRun,
      ResolveEscalation, Defer, Outcome, RecoverStale, ClaimDispatchBatch, ConfirmDispatch, FailDispatch,
      DeferPublishedDispatch, Reconcile, Promote, Retried, HoldsLease, AttemptOpen;
    if IsGentle(db, s) {
      GentleStaysActive(db, s, r);
      GentleStep(db, s);
      GentleStuck(db, Next(db, s), r);
    } else {
      match s
      case DoOutcome(c, v, now) => OutcomeStuck(db, c, v, now, r);
      case DoCreateRun(q, plan, limit, last, artifacts) => CreateRunStuck(db, q, plan, limit, last, artifacts, r);
      case DoPromote(q) => PromoteStuck(db, {q}, r);
      case DoMaterialize(coordinator, join, d) => MaterializeStuck(db, coordinator, join, d, r);
      case DoCompleteFanout(g) => CompleteFanoutStuck(db, g, r);
      case DoResolveEscalation(e, successor) => ResolveStuck(db, e, successor, r);
      case DoRecoverStale(now) => RecoverStaleStuck(db, now, r);
    }
  }

  /** A stuck run stays stuck: no sequence of repository calls ever moves it again. */
  lemma {:induction false} StuckForever(trace: Trace, i: nat, j: nat, r: RunId)
    requires IsTrace(trace) && i <= j < |trace.states| && Stuck(trace.states[i], r)
    ensures Stuck(trace.states[j], r)
    decreases j
  {
    hide Safe, Quoted, Next, Stuck;
    if i < j {
      StuckForever(trace, i, j - 1, r);
      TraceIsSafe(trace, j - 1);
      StepStaysStuck(trace.states[j - 1], trace.steps[j - 1], r);
    }
  }

  // ---------------------------------------------------------------------------------------------
  // What the discipline rules out
  // ---------------------------------------------------------------------------------------------

  /** Whatever happens after a run is stuck, it stays so, from any database that meets the invariant. */
  lemma {:induction false} StuckAfter(db: Db, steps: seq<Step>, r: RunId)
    requires Safe(db) && WellQuoted(db, steps) && Stuck(db, r)
    ensures Stuck(After(db, steps), r)
    decreases |steps|
  {
    hide Safe, Advances, Quoted, Next, Stuck;
    if steps != [] {
      var n := |steps| - 1;
      forall k | 0 <= k < n
        ensures Quoted(After(db, steps[..n][..k]), steps[..n][k])
      {
        assert steps[..n][..k] == steps[..k];
      }
      StuckAfter(db, steps[..n], r);
      EveryRunIsSafe(db, steps[..n]);
      StepStaysStuck(After(db, steps[..n]), steps[n], r);
    }
  }

  /** Were there an open escalation whose action changes the inputs: the run that supersedes another is created
      without tasks, and stays active and empty forever. */
  lemma {:induction false} SuccessorIsStuck(db: Db, e: EscalationId, n: RunId, steps: seq<Step>)
    requires Safe(db) && Supersedes(db, e, Some(n)) && WellQuoted(ResolveEscalation(db, e, Some(n)).db, steps)
    ensures Stuck(After(ResolveEscalation(db, e, Some(n)).db, steps), n)
  {
    hide Safe, Advances, Keeps, Stuck, ResolveEscalation, WellQuoted, After;
    SuccessorStarts(db, e, n);
    SupersessionKeeps(db, e, n);
    StuckAfter(ResolveEscalation(db, e, Some(n)).db, steps, n);
  }

  lemma SupersessionKeeps(db: Db, e: EscalationId, n: RunId)
    requires Safe(db)
    ensures Safe(ResolveEscalation(db, e, Some(n)).db)
  {
    hide Safe, Advances, ResolveEscalation;
    ResolveEscalationKeeps(db, e, Some(n));
  }

  lemma SuccessorStarts(db: Db, e: EscalationId, n: RunId)
    requires Safe(db) && Supersedes(db, e, Some(n))
    ensures Stuck(ResolveEscalation(db, e, Some(n)).db, n)
  {
    hide Linked, Leased, Dispatched, Attempted, Counted, RetriesBounded, Honest, Budgeted, Eligible;
    var next := ResolveEscalation(db, e, Some(n)).db;
    forall t | t in next.tasks
      ensures next.tasks[t].run != n
    {
      RunExists(db.runs, db.tasks, db.groups, t);
    }
  }

  /** What a caller can see before the call: the success of the task is the last thing its run does, though not
      all of it has succeeded. No other task is live, and none of the pending ones would be eligible. */
  ghost predicate Strands(db: Db, c: Credential)
    requires c.task in db.tasks
  {
    var r, done := db.tasks[c.task].run, Finish(db, c, Success, SUCCEEDED);
    && (exists t :: t in db.tasks && db.tasks[t].run == r && t != c.task && db.tasks[t].state != SUCCEEDED)
    && (forall t :: t in db.tasks && db.tasks[t].run == r && t != c.task ==> !Live(db.tasks[t].state))
    && Settled(done, r)
  }

  /** A success strands its run, for good, exactly if no other task of the run is live, not all others have
      succeeded, and none of the pending ones becomes eligible by it. */
  lemma {:induction false} SuccessStrandsExactly(trace: Trace, i: nat, c: Credential, now: int)
    requires IsTrace(trace) && i + 1 < |trace.states|
        && Outcome(trace.states[i], c, Success, now) == Commit(trace.states[i + 1], Done)
    requires Issued(trace.states[i], c) && RunIs(trace.states[i], trace.states[i].tasks[c.task].run, ACTIVE)
    ensures Stuck(trace.states[i + 1], trace.states[i].tasks[c.task].run) <==> Strands(trace.states[i], c)
  {
    hide IsTrace, Safe, Outcome, Stuck, Strands, Issued;
    TraceIsSafe(trace, i);
    LastSuccessStrands(trace.states[i], c, now);
  }

  lemma LastSuccessStrands(db: Db, c: Credential, now: int)
    requires Safe(db) && Outcome(db, c, Success, now).answer == Done && RunIs(db, db.tasks[c.task].run, ACTIVE)
    ensures Stuck(Outcome(db, c, Success, now).db, db.tasks[c.task].run) <==> Strands(db, c)
  {
    hide Safe, Finish, Promote, Settled, Eligible, AllSucceeded, HasLive;
    var r := db.tasks[c.task].run;
    var done := Finish(db, c, Success, SUCCEEDED);
    var promoted := Promote(done, {r});
    FinishedTasks(db, c, Success, SUCCEEDED);
    PromoteSettles(done, {r}, r);
    LiveAfter(db, c, done, promoted);
    SucceededAfter(db, c, done, promoted);
    ClosedSettled(promoted, r);
  }

  lemma LiveAfter(db: Db, c: Credential, done: Db, promoted: Db)
    requires HoldsLease(db, c) && done.tasks == StoppedTasks(db.tasks, {c.task}, SUCCEEDED)
    requires promoted == Promote(done, {db.tasks[c.task].run})
    ensures HasLive(promoted, db.tasks[c.task].run) <==>
            || (exists t ::
                t in db.tasks && db.tasks[t].run == db.tasks[c.task].run && t != c.task && Live(db.tasks[t].state))
            || !Settled(done, db.tasks[c.task].run)
  {
    hide Promote, Eligible, StoppedTasks;
    var r := db.tasks[c.task].run;
    StoppedIdentities(db.tasks, {c.task}, SUCCEEDED);
    PromotedIds(done, {r});
    forall t | t in done.tasks
      ensures promoted.tasks[t].run == done.tasks[t].run
      ensures Live(promoted.tasks[t].state) <==>
              Live(done.tasks[t].state) || (done.tasks[t].run == r && done.tasks[t].state == PENDING
                  && Eligible(done, t))
    {
      PromotedTask(done, {r}, t);
    }
  }

  lemma SucceededAfter(db: Db, c: Credential, done: Db, promoted: Db)
    requires HoldsLease(db, c) && done.tasks == StoppedTasks(db.tasks, {c.task}, SUCCEEDED)
    requires promoted == Promote(done, {db.tasks[c.task].run})
    ensures AllSucceeded(promoted, db.tasks[c.task].run) <==>
            forall t ::
                t in db.tasks && db.tasks[t].run == db.tasks[c.task].run && t != c.task ==>
                db.tasks[t].state == SUCCEEDED
  {
    hide Promote, Eligible, StoppedTasks;
    var r := db.tasks[c.task].run;
    StoppedIdentities(db.tasks, {c.task}, SUCCEEDED);
    PromotedIds(done, {r});
    forall t | t in done.tasks
      ensures promoted.tasks[t].run == done.tasks[t].run
      ensures promoted.tasks[t].state == SUCCEEDED <==> done.tasks[t].state == SUCCEEDED
    {
      PromotedTask(done, {r}, t);
    }
  }

  /** Completing a run changes neither its tasks nor what is eligible. */
  lemma ClosedSettled(db: Db, r: RunId)
    requires RunIs(db, r, ACTIVE)
    ensures HasLive(CompleteRun(db, r), r) == HasLive(db, r)
    ensures Settled(db, r) ==> Settled(CompleteRun(db, r), r)
    ensures RunIs(CompleteRun(db, r), r, ACTIVE) <==> !AllSucceeded(db, r)
  {
    SameLive(db, CompleteRun(db, r), r);
    var next := CompleteRun(db, r);
    assert forall t :: t in db.tasks ==> Eligible(next, t) == Eligible(db, t) by {
      assert forall t :: Joins(next, t) == Joins(db, t) && JoinsFailedGroup(next, t) == JoinsFailedGroup(db, t);
    }
    hide Eligible, AllSucceeded, HasLive;
  }

  /** After a success the run is closed, or has a task that is RUNNABLE, RUNNING, WAITING or UNKNOWN_OUTCOME,
      or is stuck for good; it is closed exactly when it was active and all its tasks, the reported one
      included, have succeeded. */
  lemma {:induction false} SuccessClosesExactly(trace: Trace, i: nat, c: Credential, now: int)
    requires IsTrace(trace) && i + 1 < |trace.states|
        && Outcome(trace.states[i], c, Success, now) == Commit(trace.states[i + 1], Done)
    requires Issued(trace.states[i], c) && RunIs(trace.states[i], trace.states[i].tasks[c.task].run, ACTIVE)
    ensures var db, next, r := trace.states[i], trace.states[i + 1], trace.states[i].tasks[c.task].run;
      && (RunIs(next, r, RUN_SUCCEEDED) || HasLive(next, r) || Stuck(next, r))
      && (RunIs(next, r, RUN_SUCCEEDED) <==> forall t ::
          t in db.tasks && db.tasks[t].run == r && t != c.task ==> db.tasks[t].state == SUCCEEDED)
  {
    hide IsTrace, Safe, Outcome, Stuck, HasLive, Issued;
    TraceIsSafe(trace, i);
    LastSuccessCloses(trace.states[i], c, now);
  }

  lemma LastSuccessCloses(db: Db, c: Credential, now: int)
    requires Safe(db) && Issued(db, c) && Outcome(db, c, Success, now).answer == Done
        && RunIs(db, db.tasks[c.task].run, ACTIVE)
    ensures var next, r := Outcome(db, c, Success, now).db, db.tasks[c.task].run;
      && (RunIs(next, r, RUN_SUCCEEDED) || HasLive(next, r) || Stuck(next, r))
      && (RunIs(next, r, RUN_SUCCEEDED) <==> forall t ::
          t in db.tasks && db.tasks[t].run == r && t != c.task ==> db.tasks[t].state == SUCCEEDED)
  {
    hide Linked, Leased, Dispatched, Attempted, Counted, RetriesBounded, Honest, Budgeted, Finish, Promote, Settled,
      HasLive, Issued, Advances;
    var r := db.tasks[c.task].run;
    var finished := Finish(db, c, Success, SUCCEEDED);
    var promoted := Promote(finished, {r});
    FinishedTasks(db, c, Success, SUCCEEDED);
    StoppedIdentities(db.tasks, {c.task}, SUCCEEDED);
    PromoteSettles(finished, {r}, r);
    PromotedIds(finished, {r});
    forall t | t in finished.tasks
      ensures promoted.tasks[t].run == finished.tasks[t].run
          && (promoted.tasks[t].state == SUCCEEDED <==> finished.tasks[t].state == SUCCEEDED)
    {
      PromotedTask(finished, {r}, t);
    }
    if !HasLive(promoted, r) && !AllSucceeded(promoted, r) {
      assert CompleteRun(promoted, r) == promoted;
    }
    assert HasLive(CompleteRun(promoted, r), r) ==
        HasLive(promoted, r) by { SameLive(promoted, CompleteRun(promoted, r), r); }
  }

  lemma SameLive(db: Db, next: Db, r: RunId)
    requires next.tasks == db.tasks
    ensures HasLive(next, r) == HasLive(db, r)
  {
  }

  /** The final failure of a task of the plan ends exactly the runs that are active. A run that waits for a
      human keeps the failed task, so it can never succeed. */
  lemma {:induction false} FinalFailureEndsActiveRuns(trace: Trace, i: nat, j: nat, c: Credential, v: Verdict, now: int)
    requires IsTrace(trace) && i < j < |trace.states|
        && Outcome(trace.states[i], c, v, now) == Commit(trace.states[i + 1], Done)
    requires Issued(trace.states[i], c) && FinalFailure(trace.states[i], c, v)
    ensures var db, next, r := trace.states[i], trace.states[i + 1], trace.states[i].tasks[c.task].run;
      && (RunIs(next, r, RUN_FAILED) <==> RunIs(db, r, ACTIVE) || RunIs(db, r, RUN_FAILED))
      && (RunIs(db, r, WAITING_FOR_HUMAN) ==> RunIs(next, r, WAITING_FOR_HUMAN))
      && !RunIs(trace.states[j], r, RUN_SUCCEEDED)
  {
    hide IsTrace, Linked, Leased, Dispatched, Attempted, Counted, RetriesBounded, Budgeted, Finish, Promote, Issued,
      Retried, Outcome;
    var db, next := trace.states[i], trace.states[i + 1];
    TraceIsSafe(trace, i);
    OutcomeAccepted(db, c, v, now);
    FinishedTasks(db, c, v, FAILED);
    StoppedIdentities(db.tasks, {c.task}, FAILED);
    FinalFailureState(db, c, v, now);
    TraceAdvances(trace, i + 1, j);
    assert TaskAdvances(next.tasks[c.task], trace.states[j].tasks[c.task]);
    RunExists(db.runs, db.tasks, db.groups, c.task);
  }

  lemma FinalFailureState(db: Db, c: Credential, v: Verdict, now: int)
    requires Outcome(db, c, v, now).answer == Done && FinalFailure(db, c, v)
    ensures Outcome(db, c, v, now).db == SetRunState(Finish(db, c, v, FAILED), db.tasks[c.task].run, ACTIVE, RUN_FAILED)
  {
    hide Finish, Promote, SetRunState, FailedAttemptsOf;
  }
}
