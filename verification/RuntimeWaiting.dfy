/** Whether waiting tasks are awaited. */
module RuntimeWaiting {
  import opened RuntimeState
  import opened RuntimeTransitions
  import opened RuntimeInvariant
  import opened RuntimeSafety
  import opened RuntimeTraces
  import opened RuntimeMovement
  import opened RuntimeEscalations

  // ---------------------------------------------------------------------------------------------
  // When a task that waits is still waited for
  // ---------------------------------------------------------------------------------------------

  /** At moment `k` a human resolves an escalation of the run of `t`, and `t` goes on waiting up to moment `i`:
      `resolveEscalation` closes the escalation and reactivates the run, but wakes no task. */
  ghost predicate PassedOver(trace: Trace, k: nat, i: nat, t: TaskId) {
    && k < i < |trace.states| && i <= |trace.steps|
    && Waits(trace.states[k].tasks, t)
    && trace.steps[k].DoResolveEscalation? && Answers(trace.states[k], trace.steps[k], trace.states[k].tasks[t].run)
    && (forall j :: k <= j <= i ==> Waits(trace.states[j].tasks, t))
  }

  lemma PassedOverLonger(trace: Trace, k: nat, i: nat, t: TaskId)
    requires PassedOver(trace, k, i, t) && i + 1 < |trace.states| && i + 1 <= |trace.steps|
        && Waits(trace.states[i + 1].tasks, t)
    ensures PassedOver(trace, k, i + 1, t)
  {
  }

  lemma SameTaskRun(db: Db, s: Step, t: TaskId)
    requires Safe(db) && Quoted(db, s) && t in db.tasks
    ensures t in Next(db, s).tasks && Next(db, s).tasks[t].run == db.tasks[t].run
  {
    hide Safe, Quoted, Next;
    StepKeepsSafe(db, s);
    assert TaskAdvances(db.tasks[t], Next(db, s).tasks[t]);
  }

  lemma WaitGoesOn(db: Db, s: Step, t: TaskId)
    requires Safe(db) && Quoted(db, s) && Waits(db.tasks, t) && Waits(Next(db, s).tasks, t)
        && HasOpenEscalation(db, db.tasks[t].run)
    ensures HasOpenEscalation(Next(db, s), db.tasks[t].run)
        || (s.DoResolveEscalation? && Answers(db, s, db.tasks[t].run))
  {
    hide Safe, Quoted, ResumeRun, HasOpenEscalation;
    var r := db.tasks[t].run;
    if Answers(db, s, r) {
      if s.DoResumeRun? {
        ResumeWakes(db, s.e, s.runUnchanged, t);
      }
    } else {
      EscalationStaysOpen(db, s, r);
    }
  }

  /** At every moment, the run of a task that waits for a human has an open escalation, unless one of its
      escalations was resolved, not resumed, while the task was waiting. */
  lemma {:induction false} WaitingIsAwaited(trace: Trace, i: nat, t: TaskId)
    requires IsTrace(trace) && i < |trace.states| && Waits(trace.states[i].tasks, t)
    ensures HasOpenEscalation(trace.states[i], trace.states[i].tasks[t].run) || exists k: nat ::
        PassedOver(trace, k, i, t)
    decreases i
  {
    hide Safe, Quoted, Next, HasOpenEscalation, PassedOver, NoNewWait;
    if i > 0 {
      var db, s := trace.states[i - 1], trace.steps[i - 1];
      TraceIsSafe(trace, i - 1);
      if Waits(db.tasks, t) {
        SameTaskRun(db, s, t);
        WaitingIsAwaited(trace, i - 1, t);
        if HasOpenEscalation(db, db.tasks[t].run) {
          WaitGoesOn(db, s, t);
          if !HasOpenEscalation(trace.states[i], db.tasks[t].run) { JustPassedOver(trace, i - 1, t); }
        } else {
          var k: nat :| PassedOver(trace, k, i - 1, t);
          PassedOverLonger(trace, k, i - 1, t);
        }
      } else {
        if !s.DoWaitForHuman? {
          OnlyHumanWaitsWait(db, s);
          NoWaitFor(db.tasks, trace.states[i].tasks, t);
        } else {
          WaitOpens(db, s, t);
        }
      }
    }
  }

  lemma NoWaitFor(a: Tasks, b: Tasks, t: TaskId)
    requires NoNewWait(a, b) && Waits(b, t)
    ensures Waits(a, t)
  {
  }

  lemma JustPassedOver(trace: Trace, k: nat, t: TaskId)
    requires k + 1 < |trace.states| && k + 1 <= |trace.steps| && Waits(trace.states[k].tasks, t)
        && Waits(trace.states[k + 1].tasks, t)
    requires trace.steps[k].DoResolveEscalation?
        && Answers(trace.states[k], trace.steps[k], trace.states[k].tasks[t].run)
    ensures PassedOver(trace, k, k + 1, t)
  {
  }
}
