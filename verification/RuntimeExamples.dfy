/** Histories that reach the bad cases. */
module RuntimeExamples {
  import opened Wrappers
  import opened RuntimeState
  import opened Graphs
  import opened PlanRegistry
  import opened RuntimeTransitions
  import opened RuntimeInvariant
  import opened RuntimeTraces
  import opened RuntimeGuarantees
  import opened RuntimeOrder
  import opened RuntimeLiveness
  import opened RuntimeProgress
  import opened RuntimeNoStuckRun
  import opened RuntimeMovement

  // ---------------------------------------------------------------------------------------------
  // Histories, one transaction at a time
  // ---------------------------------------------------------------------------------------------

  function Last(trace: Trace): Db
    requires |trace.states| > 0
  {
    trace.states[|trace.states| - 1]
  }

  const START := Trace([EMPTY], [])

  function Then(trace: Trace, s: Step): (next: Trace)
    requires |trace.states| > 0
    ensures |next.states| == |trace.states| + 1 && Last(next) == Next(Last(trace), s)
  {
    Trace(trace.states + [Next(Last(trace), s)], trace.steps + [s])
  }

  lemma ThenIsTrace(trace: Trace, s: Step)
    requires |trace.states| > 0 && IsTrace(trace) && Quoted(Last(trace), s)
    ensures IsTrace(Then(trace, s))
  {
    hide Quoted, Next;
    var next := Then(trace, s);
    forall i | 0 <= i < |next.steps|
      ensures Quoted(next.states[i], next.steps[i]) && next.states[i + 1] == Next(next.states[i], next.steps[i])
    {
      if i < |trace.steps| {
        assert next.steps[i] == trace.steps[i] && next.states[i] == trace.states[i]
            && next.states[i + 1] == trace.states[i + 1];
      }
    }
  }

  // ---------------------------------------------------------------------------------------------
  // A run with two tasks, both claimed by one worker
  // ---------------------------------------------------------------------------------------------

  const RUN := "run"
  const TOOL := Tool(Ordinary("tool"), Control, 3)
  const PLAN := [PlanTask("a", TOOL, [], false), PlanTask("b", TOOL, [], true)]
  const A := Planned(RUN, "a")
  const B := Planned(RUN, "b")
  const LEASE := 100

  function Row(state: TaskState, revision: nat): Task {
    Task(RUN, TOOL, state, revision, 0, None, 0, None, Control, 0, None, {}, 0)
  }

  function Claimed(token: nat, revision: nat): Task {
    Row(RUNNING, revision).(attemptCount := token, leaseOwner := Some("w"), leaseToken := token,
        leaseExpiresAt := Some(LEASE))
  }

  const OF_A := Credential(A, "1", "w", 1)
  const OF_B := Credential(B, "2", "w", 1)

  ghost predicate Created(db: Db, limit: int) {
    && db.runs == map[RUN := Run(ACTIVE, 0, limit, 1, PLAN)]
    && db.tasks == map[A := Row(RUNNABLE, 1), B := Row(RUNNABLE, 1)]
    && db.groups == map[] && db.attempts == map[] && db.effects == map[] && db.escalations == map[]
  }

  ghost predicate BothClaimed(db: Db, limit: int) {
    && db.runs == map[RUN := Run(ACTIVE, 2, limit, 1, PLAN)]
    && db.tasks == map[A := Claimed(1, 2), B := Claimed(1, 2)]
    && db.attempts == map["1" := Attempt(A, 1, "w", 1, ATTEMPT_RUNNING, 1),
        "2" := Attempt(B, 1, "w", 1, ATTEMPT_RUNNING, 1)]
    && db.groups == map[] && db.effects == map[] && db.escalations == map[]
  }

  lemma PlanIsValid()
    ensures ValidPlan(PLAN) && InsertableDependencies(PLAN) && UniqueKeys(PLAN)
  {
    assert PLAN[1].completionGate;
    forall s: set<string> | s <= PlanGraph(PLAN).Keys && s != {}
      ensures HasLeast(PlanGraph(PLAN), s)
    {
      var k :| k in s;
      assert PlanGraph(PLAN)[k] == {};
      assert PlanGraph(PLAN)[k] !! s;
    }
  }

  lemma PlanRowsOf()
    requires UniqueKeys(PLAN)
    ensures PlanTasks(RUN, PLAN, None, 2) == map[A := Row(RUNNABLE, 1), B := Row(RUNNABLE, 1)]
  {
    assert PlanIds(RUN, PLAN, 2) == {A, B} by {
      assert PLAN[0].key == "a" && PLAN[1].key == "b";
      assert Planned(RUN, PLAN[0].key) in PlanIds(RUN, PLAN, 2) && Planned(RUN, PLAN[1].key) in PlanIds(RUN, PLAN, 2);
    }
    forall i | 0 <= i < 2
      ensures InitialTask(RUN, PLAN, i, None) == Row(RUNNABLE, 1)
    {
      assert (set d | d in PLAN[i].dependencies :: Planned(RUN, d)) == {};
    }
    assert Position(PLAN, "a") == 0 && Position(PLAN, "b") == 1;
  }

  lemma CreateTwo(limit: int) returns (trace: Trace)
    requires limit > 0
    ensures IsTrace(trace) && Created(Last(trace), limit)
  {
    hide ValidPlan, InsertableDependencies, UniqueKeys, PlanTasks, PlanRows;
    var s := DoCreateRun(RUN, PLAN, limit, None, {});
    PlanIsValid();
    PlanRowsOf();
    ThenIsTrace(START, s);
    trace := Then(START, s);
  }

  lemma ClaimTwo(limit: int) returns (trace: Trace)
    requires limit >= 2
    ensures IsTrace(trace) && |trace.states| > 0 && BothClaimed(Last(trace), limit)
  {
    var created := CreateTwo(limit);
    hide IsTrace;
    var one := DoClaim(A, "w", 0, LEASE, "1");
    ThenIsTrace(created, one);
    var first := Then(created, one);
    var two := DoClaim(B, "w", 0, LEASE, "2");
    ThenIsTrace(first, two);
    trace := Then(first, two);
    TwoClaims(Last(created), limit);
  }

  lemma TwoClaims(db: Db, limit: int)
    requires Created(db, limit) && limit >= 2
    ensures BothClaimed(Next(Next(db, DoClaim(A, "w", 0, LEASE, "1")), DoClaim(B, "w", 0, LEASE, "2")), limit)
  {
    assert Startable(db, A, 0);
    var first := Next(db, DoClaim(A, "w", 0, LEASE, "1"));
    assert first.tasks[A] == Claimed(1, 2) && first.tasks[B] == Row(RUNNABLE, 1);
    assert Startable(first, B, 0);
  }

  // ---------------------------------------------------------------------------------------------
  // An outcome that quotes the attempt of another task
  // ---------------------------------------------------------------------------------------------

  /** One worker, two tasks with the same token: the outcome of the first is accepted with the attempt of the
      second, which is closed and leaves its task RUNNING without an attempt. */
  lemma ForeignOutcomeIsReached(v: Verdict) returns (trace: Trace, c: Credential)
    ensures IsTrace(trace) && Outcome(Last(trace), c, v, 0).answer == Done
    ensures c.attempt in Last(trace).attempts && Last(trace).attempts[c.attempt].task != c.task
    ensures !Attempted(Outcome(Last(trace), c, v, 0).db.tasks, Outcome(Last(trace), c, v, 0).db.attempts)
  {
    hide IsTrace, Outcome, Attempted;
    trace := ClaimTwo(2);
    c := Credential(A, "2", "w", 1);
    AcceptedAnyway(Last(trace), c, v);
    TraceIsSafe(trace, |trace.states| - 1);
    SafeAttempts(Last(trace));
    ForeignOutcomeStrands(Last(trace), c, v, 0);
  }

  /** The same worker's human wait is accepted for the first task with the attempt of the second. */
  lemma ForeignWaitIsReached(obstacle: string) returns (trace: Trace, c: Credential)
    ensures IsTrace(trace) && |trace.states| > 0 && WaitForHuman(Last(trace), c, obstacle, "e").answer == Done
    ensures c.attempt in Last(trace).attempts && Last(trace).attempts[c.attempt].task != c.task
    ensures !Attempted(WaitForHuman(Last(trace), c, obstacle, "e").db.tasks,
        WaitForHuman(Last(trace), c, obstacle, "e").db.attempts)
  {
    hide IsTrace, WaitForHuman, Attempted;
    trace := ClaimTwo(2);
    c := Credential(A, "2", "w", 1);
    WaitAcceptedAnyway(Last(trace), c, obstacle);
    TraceIsSafe(trace, |trace.states| - 1);
    SafeAttempts(Last(trace));
    ForeignWaitStrands(Last(trace), c, obstacle, "e");
  }

  lemma WaitAcceptedAnyway(db: Db, c: Credential, obstacle: string)
    requires HoldsLease(db, c) && db.escalations == map[]
    ensures WaitForHuman(db, c, obstacle, "e").answer == Done
  {
    hide SetRunState, Suspend;
  }

  lemma SafeAttempts(db: Db)
    requires Safe(db)
    ensures Attempted(db.tasks, db.attempts)
  {
    hide Attempted;
  }

  lemma AcceptedAnyway(db: Db, c: Credential, v: Verdict)
    requires HoldsLease(db, c) && AttemptOpen(db, c)
    ensures Outcome(db, c, v, 0).answer == Done
  {
    hide FinishBadly, Finish, Retry, Promote, CompleteRun, TaskFailurePolicy, FailedAttemptsOf;
  }

  // ---------------------------------------------------------------------------------------------
  // A failure while the run waits for a human
  // ---------------------------------------------------------------------------------------------

  const QUESTION := "question"
  const FINAL := Failure(false)

  /** The first task waits for a human, the second still runs. */
  ghost predicate OneWaits(db: Db, limit: int) {
    && db.runs == map[RUN := Run(WAITING_FOR_HUMAN, 2, limit, 1, PLAN)]
    && db.tasks == map[A := Row(WAITING, 3).(attemptCount := 1, leaseToken := 1), B := Claimed(1, 2)]
    && db.attempts == map["1" := Attempt(A, 1, "w", 1, ATTEMPT_WAITING, 1),
        "2" := Attempt(B, 1, "w", 1, ATTEMPT_RUNNING, 1)]
    && db.groups == map[] && db.effects == map[] && db.escalations == map["e" := Asked(RUN, QUESTION)]
  }

  lemma FirstWaits(db: Db, limit: int)
    requires BothClaimed(db, limit)
    ensures OneWaits(Next(db, DoWaitForHuman(OF_A, QUESTION, "e")), limit)
  {
  }

  lemma WaitWhileRunning(limit: int) returns (trace: Trace)
    requires limit >= 2
    ensures IsTrace(trace) && |trace.states| > 0 && OneWaits(Last(trace), limit)
  {
    hide IsTrace, Next;
    trace := ClaimTwo(limit);
    ThenIsTrace(trace, DoWaitForHuman(OF_A, QUESTION, "e"));
    FirstWaits(Last(trace), limit);
    trace := Then(trace, DoWaitForHuman(OF_A, QUESTION, "e"));
  }

  /** The second task has failed for good; the run goes on waiting. */
  ghost predicate OneFailed(db: Db, limit: int) {
    && db.runs == map[RUN := Run(WAITING_FOR_HUMAN, 2, limit, 1, PLAN)]
    && db.tasks == map[A := Row(WAITING, 3).(attemptCount := 1, leaseToken := 1),
        B := Row(FAILED, 3).(attemptCount := 1, leaseToken := 1)]
    && db.attempts == map["1" := Attempt(A, 1, "w", 1, ATTEMPT_WAITING, 1),
        "2" := Attempt(B, 1, "w", 1, ATTEMPT_FAILED, 1)]
    && db.groups == map[] && db.effects == map[] && db.escalations == map["e" := Asked(RUN, QUESTION)]
  }

  lemma SecondFails(db: Db, limit: int)
    requires OneWaits(db, limit)
    ensures Outcome(db, OF_B, FINAL, 0).answer == Done && OneFailed(Outcome(db, OF_B, FINAL, 0).db, limit)
  {
    hide FailedAttemptsOf;
  }

  /** A task of the plan fails for good while its run waits for a human, and the run stays open. */
  lemma FailureWhileWaitingIsReached(limit: int) returns (trace: Trace)
    requires limit >= 2
    ensures IsTrace(trace) && |trace.states| > 1
    ensures var n := |trace.states|; var db := trace.states[n - 2];
      && Issued(db, OF_B) && FinalFailure(db, OF_B, FINAL) && RunIs(db, RUN, WAITING_FOR_HUMAN)
      && Outcome(db, OF_B, FINAL, 0) == Commit(trace.states[n - 1], Done)
    ensures OneFailed(Last(trace), limit)
  {
    hide IsTrace, Outcome, FailedAttemptsOf;
    trace := WaitWhileRunning(limit);
    ThenIsTrace(trace, DoOutcome(OF_B, FINAL, 0));
    SecondFails(Last(trace), limit);
    trace := Then(trace, DoOutcome(OF_B, FINAL, 0));
  }

  ghost predicate OneRetried(db: Db) {
    && db.runs == map[RUN := Run(ACTIVE, 3, 3, 1, PLAN)]
    && db.tasks == map[A := Claimed(2, 5), B := Row(FAILED, 3).(attemptCount := 1, leaseToken := 1)]
    && "3" in db.attempts && db.attempts["3"] == Attempt(A, 2, "w", 2, ATTEMPT_RUNNING, 4)
    && db.groups == map[] && db.effects == map[]
  }

  ghost predicate OneResumed(db: Db) {
    && db.runs == map[RUN := Run(ACTIVE, 2, 3, 1, PLAN)]
    && db.tasks == map[A := Row(RUNNABLE, 4).(attemptCount := 1, leaseToken := 1),
        B := Row(FAILED, 3).(attemptCount := 1, leaseToken := 1)]
    && "3" !in db.attempts && db.groups == map[] && db.effects == map[]
  }

  lemma FirstResumes(db: Db)
    requires OneFailed(db, 3)
    ensures OneResumed(ResumeRun(db, "e", true).db)
  {
    hide WakeRows;
    assert Waiting(db, RUN, false) == {A} && Waiting(db, RUN, true) == {};
  }

  lemma FirstRetries(db: Db)
    requires OneResumed(db)
    ensures OneRetried(Next(db, DoClaim(A, "w", 0, LEASE, "3")))
  {
    assert Startable(db, A, 0);
  }

  const AGAIN := Credential(A, "3", "w", 2)

  lemma LastSucceeds(db: Db)
    requires OneRetried(db)
    ensures Outcome(db, AGAIN, Success, 0).answer == Done && Stuck(Outcome(db, AGAIN, Success, 0).db, RUN)
  {
    hide WakeRows;
    var finished := Finish(db, AGAIN, Success, SUCCEEDED);
    assert finished.tasks[A].state == SUCCEEDED && finished.tasks[B].state == FAILED && finished.tasks.Keys == {A, B};
    assert Promotable(finished, {RUN}) == {};
    assert Outcome(db, AGAIN, Success, 0).db.tasks == finished.tasks;
  }

  lemma RetryAfterFailure() returns (trace: Trace)
    ensures IsTrace(trace) && |trace.states| > 0 && OneRetried(Last(trace))
  {
    hide IsTrace, Outcome, Next, FinalFailure, Issued, OneRetried;
    trace := FailureWhileWaitingIsReached(3);
    FirstResumes(Last(trace));
    ResumeStep(Last(trace), "e", true);
    ThenIsTrace(trace, DoResumeRun("e", true));
    trace := Then(trace, DoResumeRun("e", true));
    FirstRetries(Last(trace));
    ThenIsTrace(trace, DoClaim(A, "w", 0, LEASE, "3"));
    trace := Then(trace, DoClaim(A, "w", 0, LEASE, "3"));
  }

  /** The human answers, the waiting task succeeds on its next attempt, and the run is stuck: ACTIVE with one
      task failed and the other done. */
  lemma StrandedSuccessIsReached() returns (trace: Trace, c: Credential)
    ensures IsTrace(trace) && |trace.states| > 1
    ensures var n := |trace.states|; var db := trace.states[n - 2];
      && c.task in db.tasks && Issued(db, c) && RunIs(db, db.tasks[c.task].run, ACTIVE)
      && Outcome(db, c, Success, 0) == Commit(trace.states[n - 1], Done)
          && Stuck(trace.states[n - 1], db.tasks[c.task].run)
  {
    hide IsTrace, Outcome, Next, Stuck;
    trace := RetryAfterFailure();
    c := AGAIN;
    LastSucceeds(Last(trace));
    ThenIsTrace(trace, DoOutcome(c, Success, 0));
    OutcomeStep(Last(trace), c, Success, 0);
    trace := Then(trace, DoOutcome(c, Success, 0));
  }

  lemma ResumeStep(db: Db, e: EscalationId, runUnchanged: bool)
    ensures Next(db, DoResumeRun(e, runUnchanged)) == ResumeRun(db, e, runUnchanged).db
  {
  }

  lemma OutcomeStep(db: Db, c: Credential, v: Verdict, now: int)
    ensures Next(db, DoOutcome(c, v, now)) == Outcome(db, c, v, now).db
  {
  }

  // ---------------------------------------------------------------------------------------------
  // Active runs that keep a live task and never move again
  // ---------------------------------------------------------------------------------------------

  /** The effect of the first task was recorded, then its outcome was unknown. */
  ghost predicate InDoubt(db: Db) {
    && db.runs == map[RUN := Run(ACTIVE, 2, 2, 1, PLAN)]
    && db.tasks == map[A := Row(UNKNOWN_OUTCOME, 3).(attemptCount := 1, leaseToken := 1), B := Claimed(1, 2)]
    && "2" in db.attempts && db.attempts["2"] == Attempt(B, 1, "w", 1, ATTEMPT_RUNNING, 1)
    && db.groups == map[] && db.effects == map[A := EFFECT_UNKNOWN] && db.escalations == map[]
  }

  lemma FirstInDoubt(db: Db)
    requires BothClaimed(db.(effects := map[]), 2) && db.effects == map[A := EFFECT_PENDING]
    ensures InDoubt(Outcome(db, OF_A, Unknown, 0).db)
  {
  }

  lemma SecondSucceeds(db: Db)
    requires db.tasks.Keys == {A, B} && db.tasks[B] == Claimed(1, 2) && db.tasks[A].run == RUN
        && db.tasks[A].state in {UNKNOWN_OUTCOME, WAITING, RUNNABLE}
    requires "2" in db.attempts && db.attempts["2"] == Attempt(B, 1, "w", 1, ATTEMPT_RUNNING, 1) && B !in db.effects
    ensures var next := Next(db, DoOutcome(OF_B, Success, 0));
      next.runs == db.runs && next.escalations == db.escalations && next.effects == db.effects
      && next.tasks.Keys == {A, B} && next.tasks[A] == db.tasks[A] && next.tasks[B].run == RUN
          && next.tasks[B].state == SUCCEEDED
  {
    hide WakeRows;
    var finished := Finish(db, OF_B, Success, SUCCEEDED);
    assert finished.tasks[A] == db.tasks[A] && finished.tasks[B].state == SUCCEEDED && finished.tasks.Keys == {A, B};
    assert Promotable(finished, {RUN}) == {};
    assert Promote(finished, {RUN}).tasks == finished.tasks;
    assert !AllSucceeded(Promote(finished, {RUN}), RUN);
  }

  lemma LeftBehind(db: Db)
    requires db.tasks.Keys == {A, B} && db.tasks[A].run == RUN == db.tasks[B].run && db.tasks[B].state == SUCCEEDED
        && db.tasks[A].tool == TOOL
    requires RunIs(db, RUN, ACTIVE) && HasLive(db, RUN)
    requires || (db.tasks[A].state == UNKNOWN_OUTCOME && A in db.effects)
              || (db.tasks[A].state == WAITING && !HasOpenEscalation(db, RUN))
              || (db.tasks[A].state == RUNNABLE && !BudgetLeft(db, RUN))
    ensures !CanMove(db, RUN)
  {
    hide Eligible, HasOpenEscalation;
  }

  /** A task whose effect was recorded and whose outcome is unknown is never taken up again. */
  lemma DoubtForeverIsReached() returns (trace: Trace)
    ensures IsTrace(trace) && |trace.states| > 0
    ensures RunIs(Last(trace), RUN, ACTIVE) && HasLive(Last(trace), RUN) && !CanMove(Last(trace), RUN)
  {
    hide IsTrace, Next, CanMove;
    trace := ClaimTwo(2);
    ThenIsTrace(trace, DoRecordEffect(A, EFFECT_PENDING));
    EffectRecorded(Last(trace));
    trace := Then(trace, DoRecordEffect(A, EFFECT_PENDING));
    FirstInDoubt(Last(trace));
    OutcomeStep(Last(trace), OF_A, Unknown, 0);
    ThenIsTrace(trace, DoOutcome(OF_A, Unknown, 0));
    trace := Then(trace, DoOutcome(OF_A, Unknown, 0));
    SecondSucceeds(Last(trace));
    ThenIsTrace(trace, DoOutcome(OF_B, Success, 0));
    trace := Then(trace, DoOutcome(OF_B, Success, 0));
    assert Live(Last(trace).tasks[A].state);
    LeftBehind(Last(trace));
  }

  lemma EffectRecorded(db: Db)
    ensures Next(db, DoRecordEffect(A, EFFECT_PENDING)) == db.(effects := db.effects[A := EFFECT_PENDING])
  {
  }

  lemma ResolvedAlone(db: Db)
    requires RunIs(db, RUN, WAITING_FOR_HUMAN) && db.escalations == map["e" := Asked(RUN, QUESTION)]
    ensures var next := Next(db, DoResolveEscalation("e", None));
      RunIs(next, RUN, ACTIVE) && next.tasks == db.tasks && !HasOpenEscalation(next, RUN)
  {
  }

  /** A task whose escalation was resolved, not resumed, waits in an active run that nobody will resume. */
  lemma WaitForeverIsReached() returns (trace: Trace)
    ensures IsTrace(trace) && |trace.states| > 0
    ensures RunIs(Last(trace), RUN, ACTIVE) && HasWaiting(Last(trace), RUN) && !CanMove(Last(trace), RUN)
  {
    hide IsTrace, Next, CanMove;
    trace := WaitWhileRunning(2);
    SecondSucceeds(Last(trace));
    ThenIsTrace(trace, DoOutcome(OF_B, Success, 0));
    trace := Then(trace, DoOutcome(OF_B, Success, 0));
    ResolvedAlone(Last(trace));
    ThenIsTrace(trace, DoResolveEscalation("e", None));
    trace := Then(trace, DoResolveEscalation("e", None));
    assert Live(Last(trace).tasks[A].state);
    LeftBehind(Last(trace));
  }

  lemma FirstRetried(db: Db)
    requires BothClaimed(db, 2)
    ensures var next := Outcome(db, OF_A, Failure(true), 0).db;
      && next.runs == db.runs && next.effects == map[]
      && next.tasks.Keys == {A, B} && next.tasks[B] == db.tasks[B]
      && next.tasks[A] == Row(RUNNABLE, 3).(attemptCount := 1, leaseToken := 1, retriesScheduled := 1,
          availableAt := 5_000)
      && "2" in next.attempts && next.attempts["2"] == db.attempts["2"]
  {
    hide WakeRows;
    assert FailedAttemptsOf(db.attempts, A) == {};
  }

  /** A task is retried by the policy when its run has no budget left, and is never claimed. */
  lemma SpentForeverIsReached() returns (trace: Trace)
    ensures IsTrace(trace) && |trace.states| > 0
    ensures RunIs(Last(trace), RUN, ACTIVE) && HasLive(Last(trace), RUN) && !CanMove(Last(trace), RUN)
    ensures A in Last(trace).tasks && Last(trace).tasks[A].state == RUNNABLE
        && Last(trace).tasks[A].retriesScheduled < TOOL.maxAttempts
  {
    hide IsTrace, Next, CanMove;
    trace := ClaimTwo(2);
    FirstRetried(Last(trace));
    OutcomeStep(Last(trace), OF_A, Failure(true), 0);
    ThenIsTrace(trace, DoOutcome(OF_A, Failure(true), 0));
    trace := Then(trace, DoOutcome(OF_A, Failure(true), 0));
    SecondSucceeds(Last(trace));
    ThenIsTrace(trace, DoOutcome(OF_B, Success, 0));
    trace := Then(trace, DoOutcome(OF_B, Success, 0));
    assert Live(Last(trace).tasks[A].state);
    LeftBehind(Last(trace));
  }
}
