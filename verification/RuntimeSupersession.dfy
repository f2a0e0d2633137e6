/** Who supersedes a run: nobody. */
module RuntimeSupersession {
  import opened Wrappers
  import opened RuntimeState
  import opened RuntimeTransitions
  import opened RuntimeInvariant
  import opened RuntimeSafety
  import opened RuntimeTraces
  import opened RuntimeGuarantees
  import opened RuntimeOrder
  import opened RuntimeProgress

  /** Only two transactions insert runs. */
  lemma RunsTouched(db: Db, s: Step)
    requires Safe(db)
    ensures !s.DoCreateRun? && !s.DoResolveEscalation? ==> Next(db, s).runs.Keys == db.runs.Keys
  {
    hide Safe, CreateRun, MaterializeFanout, CompleteFanout, Claim, ClaimById, Heartbeat, WaitForHuman, ResumeRun,
      ResolveEscalation, Defer, Outcome, RecoverStale, ClaimDispatchBatch, ConfirmDispatch, FailDispatch,
      DeferPublishedDispatch, Reconcile, Promote, Gentle, IsGentle;
    if s.DoOutcome? {
      OutcomeRunIds(db, s.c, s.v, s.now);
    } else if s.DoRecoverStale? {
      RecoverRunIds(db, s.now);
    } else if s.DoMaterialize? {
      MaterializeFrame(db, s.coordinator, s.join, s.descriptor);
    } else if s.DoCompleteFanout? {
      CompleteFanoutFrame(db, s.g);
    } else if !s.DoPromote? && !s.DoCreateRun? && !s.DoResolveEscalation? {
      GentleRunIds(db, s);
    }
  }

  lemma GentleRunIds(db: Db, s: Step)
    requires Safe(db) && !s.DoOutcome? && !s.DoRecoverStale? && !s.DoMaterialize? && !s.DoCompleteFanout?
        && !s.DoPromote? && !s.DoCreateRun?
    requires !s.DoResolveEscalation?
    ensures Next(db, s).runs.Keys == db.runs.Keys
  {
    hide Safe, Next;
    GentleStep(db, s);
  }

  lemma OutcomeRunIds(db: Db, c: Credential, v: Verdict, now: int)
    ensures Outcome(db, c, v, now).db.runs.Keys == db.runs.Keys
  {
    hide Promote, Finish, Retry, FailGroup, FailedAttemptsOf, AllSucceeded, TaskFailurePolicy;
  }

  lemma RecoverRunIds(db: Db, now: int)
    ensures RecoverStale(db, now).db.runs.Keys == db.runs.Keys
  {
    hide FinishNotifications, RecoverTasks, Promote, FailedFanoutRuns, Stale;
    NotifiedRuns(db);
    StaleExist(FinishNotifications(db), now);
  }

  /** A run without a plan was inserted by a supersession. */
  lemma PlanlessIsNew(db: Db, s: Step, r: RunId)
    requires Safe(db) && r !in db.runs && r in Next(db, s).runs && Next(db, s).runs[r].plan == []
    ensures s.DoResolveEscalation? && Supersedes(db, s.e, s.successor)
  {
    hide Safe, CreateRun, Next;
    if s.DoCreateRun? {
      PlanHasGate(db, s, r);
    } else if s.DoResolveEscalation? {
      ResolvedRuns(db, s, r);
    } else {
      RunsTouched(db, s);
    }
  }

  lemma ResolvedRuns(db: Db, s: Step, r: RunId)
    requires s.DoResolveEscalation? && r !in db.runs && r in Next(db, s).runs
    ensures Supersedes(db, s.e, s.successor)
  {
  }

  lemma PlanHasGate(db: Db, s: Step, r: RunId)
    requires s.DoCreateRun? && r !in db.runs && r in Next(db, s).runs
    ensures Next(db, s).runs[r].plan != []
  {
    hide InsertPlan, InsertableDependencies, ReusedCount, RecoverySource;
  }

  // ---------------------------------------------------------------------------------------------
  // Runs are superseded in one branch only
  // ---------------------------------------------------------------------------------------------

  lemma OnlySupersessionSupersedes(db: Db, s: Step, r: RunId)
    requires Safe(db) && RunIs(Next(db, s), r, SUPERSEDED) && !RunIs(db, r, SUPERSEDED)
    ensures s.DoResolveEscalation? && Supersedes(db, s.e, s.successor)
  {
    hide Safe, CreateRun, MaterializeFanout, CompleteFanout, Claim, ClaimById, Heartbeat, WaitForHuman, ResumeRun,
      ResolveEscalation, Defer, Outcome, RecoverStale, ClaimDispatchBatch, ConfirmDispatch, FailDispatch,
      DeferPublishedDispatch, Reconcile, Promote, Gentle, Retried, HoldsLease, AttemptOpen;
    if s.DoOutcome? {
      OutcomeRunStates(db, s.c, s.v, s.now, r);
    } else if s.DoRecoverStale? {
      RecoverRunStates(db, s.now, r);
    } else if s.DoMaterialize? {
      MaterializeFrame(db, s.coordinator, s.join, s.descriptor);
    } else if s.DoCompleteFanout? {
      CompleteFanoutFrame(db, s.g);
    } else if s.DoCreateRun? {
      NewRunStates(db, s, r);
    } else if IsGentle(db, s) {
      GentleRunStates(db, s, r);
    }
  }

  lemma GentleRunStates(db: Db, s: Step, r: RunId)
    requires Safe(db) && IsGentle(db, s)
    ensures RunIs(Next(db, s), r, SUPERSEDED) ==> RunIs(db, r, SUPERSEDED)
  {
    hide Safe, Next, IsGentle;
    GentleStep(db, s);
  }

  lemma NewRunStates(db: Db, s: Step, r: RunId)
    requires s.DoCreateRun?
    ensures RunIs(Next(db, s), r, SUPERSEDED) ==> RunIs(db, r, SUPERSEDED)
  {
    hide InsertPlan, InsertableDependencies, ReusedCount, RecoverySource;
  }

  lemma OutcomeRunStates(db: Db, c: Credential, v: Verdict, now: int, r: RunId)
    ensures RunIs(Outcome(db, c, v, now).db, r, SUPERSEDED) ==> RunIs(db, r, SUPERSEDED)
  {
    hide Promote, Finish, Retry, FailGroup, FailedAttemptsOf, AllSucceeded, TaskFailurePolicy;
  }

  lemma RecoverRunStates(db: Db, now: int, r: RunId)
    ensures RunIs(RecoverStale(db, now).db, r, SUPERSEDED) ==> RunIs(db, r, SUPERSEDED)
  {
    hide NotifiedEnough, RunsOf, AllSucceeded, RecoverTasks, Promote, FailedFanoutRuns, Stale, Stop;
    StaleExist(FinishNotifications(db), now);
  }

  // ---------------------------------------------------------------------------------------------
  // No writer sets the flag
  // ---------------------------------------------------------------------------------------------

  ghost predicate NoneChangesInputs(escalations: map<EscalationId, Escalation>) {
    forall e :: e in escalations ==> !escalations[e].changesInputs
  }

  lemma StepSetsNoFlag(db: Db, s: Step)
    requires Safe(db) && NoneChangesInputs(db.escalations)
    ensures NoneChangesInputs(Next(db, s).escalations)
  {
    hide Safe, CreateRun, MaterializeFanout, CompleteFanout, Claim, ClaimById, Heartbeat, WaitForHuman, ResumeRun,
      ResolveEscalation, Defer, Outcome, RecoverStale, ClaimDispatchBatch, ConfirmDispatch, FailDispatch,
      DeferPublishedDispatch, Reconcile, Promote, NoneChangesInputs;
    match s
    case DoCreateRun(q, plan, limit, last, artifacts) => CreateRunFrame(db, q, plan, limit, last, artifacts);
    case DoPromote(q) =>
    case DoMaterialize(coordinator, join, d) => MaterializeFrame(db, coordinator, join, d);
    case DoCompleteFanout(g) => CompleteFanoutFrame(db, g);
    case DoClaim(t, worker, now, leaseMs, a) => ClaimEscalations(db, s);
    case DoClaimById(t, version, route, worker, now, leaseMs, limits, a) => ClaimEscalations(db, s);
    case DoHeartbeat(c, now, leaseMs) => HeartbeatFrame(db, c, now, leaseMs);
    case DoRecordEffect(t, effect) =>
    case DoWaitForHuman(c, obstacle, e) => WaitSetsNoFlag(db, c, obstacle, e);
    case DoResumeRun(e, runUnchanged) => ResumeSetsNoFlag(db, e, runUnchanged);
    case DoResolveEscalation(e, successor) => ResolutionSetsNoFlag(db, e, successor);
    case DoDefer(c, now, retryAfterMs) => DeferEscalations(db, c, now, retryAfterMs);
    case DoOutcome(c, v, now) => OutcomeFrame(db, c, v, now);
    case DoRecoverStale(now) => RecoverEscalations(db, now);
    case DoClaimDispatchBatch(publisher, now, leaseMs, size, batch) =>
      ClaimDispatchBatchFrame(db, publisher, now, leaseMs, size, batch);
    case DoConfirmDispatch(k, publisher, now) => PublisherFrame(db, k, publisher, now);
    case DoFailDispatch(k, publisher, retryAt) => PublisherFrame(db, k, publisher, retryAt);
    case DoDeferPublished(t, version, retryAt) => DeferPublishedFrame(db, t, version, retryAt);
    case DoReconcile(now, republishAfterMs) => ReconcileFrame(db, now, republishAfterMs);
  }

  /** The one insertion of an escalation writes an action that changes nothing. */
  lemma WaitSetsNoFlag(db: Db, c: Credential, obstacle: string, e: EscalationId)
    requires NoneChangesInputs(db.escalations)
    ensures NoneChangesInputs(WaitForHuman(db, c, obstacle, e).db.escalations)
  {
    hide SetRunState, Suspend;
  }

  lemma ResumeSetsNoFlag(db: Db, e: EscalationId, runUnchanged: bool)
    requires NoneChangesInputs(db.escalations)
    ensures NoneChangesInputs(ResumeRun(db, e, runUnchanged).db.escalations)
  {
    hide SetRunState, Wake, Doubt, Waiting;
    if e in db.escalations { ResumedWaiting(db, db.escalations[e].run); }
  }

  lemma ResolutionSetsNoFlag(db: Db, e: EscalationId, successor: Option<RunId>)
    requires NoneChangesInputs(db.escalations)
    ensures NoneChangesInputs(ResolveEscalation(db, e, successor).db.escalations)
  {
    hide ResolveEscalation;
    ResolvedRows(db, e, successor);
  }

  lemma ClaimEscalations(db: Db, s: Step)
    requires IsClaim(s)
    ensures Next(db, s).escalations == db.escalations
  {
    hide StartAttempt, StartGroup, Eligible, DependencyBlocked, RunFull, PoolFull;
  }

  lemma DeferEscalations(db: Db, c: Credential, now: int, ms: int)
    ensures Defer(db, c, now, ms).db.escalations == db.escalations
  {
    hide HandBack;
  }

  lemma RecoverEscalations(db: Db, now: int)
    ensures RecoverStale(db, now).db.escalations == db.escalations
  {
    hide FinishNotifications, RecoverTasks, Promote, FailedFanoutRuns, Stale;
    StaleExist(FinishNotifications(db), now);
  }

  lemma OutcomeFrame(db: Db, c: Credential, v: Verdict, now: int)
    ensures var next := Outcome(db, c, v, now).db;
        next.escalations == db.escalations && next.effects.Keys == db.effects.Keys
  {
    hide Promote, CompleteRun, FailedAttemptsOf, TaskFailurePolicy, FailGroup, SetRunState, RecordVerdict, Wake, Stop;
    VerdictEffects(db, c, v);
  }

  lemma VerdictEffects(db: Db, c: Credential, v: Verdict)
    ensures RecordVerdict(db, c, v).effects.Keys == db.effects.Keys
  {
  }

  ghost predicate AllPlanned(db: Db) {
    && NoneChangesInputs(db.escalations)
    && forall r :: r in db.runs ==> db.runs[r].plan != [] && db.runs[r].state != SUPERSEDED
  }

  lemma StepKeepsPlanned(db: Db, s: Step)
    requires Safe(db) && Quoted(db, s) && AllPlanned(db)
    ensures AllPlanned(Next(db, s))
  {
    hide Safe, Quoted, Next, NoneChangesInputs;
    StepSetsNoFlag(db, s);
    StepKeepsSafe(db, s);
    var next := Next(db, s);
    NoSupersession(db, s);
    forall r | r in next.runs
      ensures next.runs[r].plan != [] && next.runs[r].state != SUPERSEDED
    {
      if RunIs(next, r, SUPERSEDED) { OnlySupersessionSupersedes(db, s, r); }
      if r !in db.runs && next.runs[r].plan == [] { PlanlessIsNew(db, s, r); }
    }
  }

  lemma NoSupersession(db: Db, s: Step)
    requires NoneChangesInputs(db.escalations)
    ensures s.DoResolveEscalation? ==> !Supersedes(db, s.e, s.successor)
  {
  }

  /** No run is ever superseded, and every run has a plan: the only transaction that inserts an escalation gives
      it an action that changes no input. */
  lemma {:induction false} NeverSuperseded(trace: Trace, i: nat)
    requires IsTrace(trace) && i < |trace.states|
    ensures forall r :: r in trace.states[i].runs ==>
              trace.states[i].runs[r].plan != [] && trace.states[i].runs[r].state != SUPERSEDED
    ensures forall e :: e in trace.states[i].escalations ==> !trace.states[i].escalations[e].changesInputs
    decreases i
  {
    PlannedAlways(trace, i);
  }

  lemma {:induction false} PlannedAlways(trace: Trace, i: nat)
    requires IsTrace(trace) && i < |trace.states|
    ensures AllPlanned(trace.states[i])
    decreases i
  {
    hide Safe, Quoted, Next;
    if i > 0 {
      PlannedAlways(trace, i - 1);
      TraceIsSafe(trace, i - 1);
      StepKeepsPlanned(trace.states[i - 1], trace.steps[i - 1]);
    }
  }
}
