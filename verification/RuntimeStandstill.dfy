/** When a run stands still for good. */
module RuntimeStandstill {
  import opened RuntimeState
  import opened RuntimeTransitions
  import opened RuntimeInvariant
  import opened RuntimeTraces
  import opened RuntimeOrder
  import opened RuntimeLiveness
  import opened RuntimeNoStuckRun
  import opened RuntimeMovement

  /** Exactly when a run can move: some transaction a worker may issue would change its state or a task. */
  lemma {:induction false} MovesExactly(trace: Trace, i: nat, r: RunId)
    requires IsTrace(trace) && i < |trace.states| && r in trace.states[i].runs
    ensures CanMove(trace.states[i], r)
        <==> exists s :: Quoted(trace.states[i], s) && !Unmoved(trace.states[i], Next(trace.states[i], s), r)
  {
    hide Safe, CanMove, Quoted, Next, Unmoved, IsTrace;
    var db := trace.states[i];
    TraceIsSafe(trace, i);
    if CanMove(db, r) {
      var s := SomeStepMoves(db, r);
      assert Quoted(db, s) && !Unmoved(db, Next(db, s), r);
    } else {
      forall s | Quoted(db, s)
        ensures Unmoved(db, Next(db, s), r)
      {
        StepLeavesUnmovable(db, s, r);
      }
    }
  }

  /** What cannot move never moves again: no sequence of transactions changes the run or makes it movable. */
  lemma {:induction false} UnmovableForever(trace: Trace, i: nat, j: nat, r: RunId)
    requires IsTrace(trace) && i <= j < |trace.states| && r in trace.states[i].runs && !CanMove(trace.states[i], r)
    ensures Unmoved(trace.states[i], trace.states[j], r) && !CanMove(trace.states[j], r)
    decreases j
  {
    hide Safe, CanMove, Quoted, Next;
    if i < j {
      UnmovableForever(trace, i, j - 1, r);
      TraceIsSafe(trace, j - 1);
      StepLeavesUnmovable(trace.states[j - 1], trace.steps[j - 1], r);
    }
  }

  /** What holds a task of an open run back for good. */
  predicate HeldBack(db: Db, t: TaskId)
    requires t in db.tasks
  {
    match db.tasks[t].state
    case RUNNABLE =>
      RunIs(db, db.tasks[t].run, WAITING_FOR_HUMAN) || !BudgetLeft(db, db.tasks[t].run) || !Eligible(db, t)
    case WAITING => !HasOpenEscalation(db, db.tasks[t].run)
    case UNKNOWN_OUTCOME =>
      RunIs(db, db.tasks[t].run, WAITING_FOR_HUMAN)
          || (t in db.effects && !(db.tasks[t].tool.kind == Telegram && Published(db, db.tasks[t].run)))
    case _ => false
  }

  /** Why an open run no longer moves: it always has a live task, and each of them is
      held back: by a spent budget or a blocked dependency, by an escalation that was closed without waking
      it, or by an effect whose outcome stays unknown. A run that waits for a human has lost its escalation. */
  lemma {:induction false} WhyUnmovable(trace: Trace, i: nat, r: RunId)
    requires IsTrace(trace) && IsDisciplined(trace, r) && i < |trace.states| && r in trace.states[i].runs
    requires RunOpen(trace.states[i].runs[r].state)
    ensures !CanMove(trace.states[i], r) <==>
              var db := trace.states[i];
              && HasLive(db, r) && Settled(db, r)
              && (forall t :: t in db.tasks && db.tasks[t].run == r && Live(db.tasks[t].state) ==> HeldBack(db, t))
              && (RunIs(db, r, WAITING_FOR_HUMAN) ==> !HasOpenEscalation(db, r))
  {
    hide Safe, IsTrace, IsDisciplined, Eligible, Published, HasOpenEscalation, Settled, AllSucceeded;
    NoStuckRun(trace, i, r);
    var db := trace.states[i];
    if !CanMove(db, r) {
      UnmovableIsHeld(db, r);
      assert HasLive(db, r);
    }
  }

  lemma UnmovableIsHeld(db: Db, r: RunId)
    requires r in db.runs && RunOpen(db.runs[r].state) && !CanMove(db, r)
    ensures forall t :: t in db.tasks && db.tasks[t].run == r && Live(db.tasks[t].state) ==> HeldBack(db, t)
  {
    hide Eligible, Published, HasOpenEscalation, Settled;
    forall t | t in db.tasks && db.tasks[t].run == r && Live(db.tasks[t].state)
      ensures HeldBack(db, t)
    {
      if db.tasks[t].state == UNKNOWN_OUTCOME && RunIs(db, r, ACTIVE) { assert !TakenUpAgain(db, t); }
    }
  }

  /** A stuck run cannot move. */
  lemma StuckCannotMove(db: Db, r: RunId)
    requires Stuck(db, r)
    ensures !CanMove(db, r)
  {
    hide Eligible, Settled;
  }
}
