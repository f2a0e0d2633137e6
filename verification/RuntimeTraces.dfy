/** Everything that can happen from the empty database on. */
module RuntimeTraces {
  import opened RuntimeState
  import opened RuntimeTransitions
  import opened RuntimeInvariant
  import opened RuntimeSafety

  /** `steps[i]` leads from `states[i]` to `states[i + 1]`. */
  datatype Trace = Trace(states: seq<Db>, steps: seq<Step>)

  /** Any transactions of any workers, in any order, with any timing and any duplication. Workers quote in
      an outcome or a human wait only what a claim gave them, now or earlier. */
  ghost predicate IsTrace(trace: Trace) {
    && |trace.states| == |trace.steps| + 1
    && trace.states[0] == EMPTY
    && forall i {:trigger trace.steps[i]} :: 0 <= i < |trace.steps| ==>
          Quoted(trace.states[i], trace.steps[i]) && trace.states[i + 1] == Next(trace.states[i], trace.steps[i])
  }

  lemma {:induction false} TraceIsRun(trace: Trace, i: nat, j: nat)
    requires IsTrace(trace) && i <= j < |trace.states|
    ensures WellQuoted(trace.states[i], trace.steps[i..j])
    ensures After(trace.states[i], trace.steps[i..j]) == trace.states[j]
    decreases j
  {
    hide Next, Quoted, WellQuoted, After;
    if i == j {
      NothingHappens(trace.states[i]);
      assert trace.steps[i..j] == [];
    } else {
      var steps, n := trace.steps[i..j], j - 1 - i;
      TraceIsRun(trace, i, j - 1);
      assert steps[n] == trace.steps[j - 1];
      assert steps[..n] == trace.steps[i..j - 1];
      RunContinues(trace.states[i], steps, n);
    }
  }

  lemma NothingHappens(db: Db)
    ensures WellQuoted(db, []) && After(db, []) == db
  {
  }

  lemma {:induction false} RunContinues(db: Db, steps: seq<Step>, n: nat)
    requires |steps| == n + 1 && WellQuoted(db, steps[..n]) && Quoted(After(db, steps[..n]), steps[n])
    ensures WellQuoted(db, steps) && After(db, steps) == Next(After(db, steps[..n]), steps[n])
  {
    hide Next, Quoted, After;
    forall k | 0 <= k < |steps|
      ensures Quoted(After(db, steps[..k]), steps[k])
    {
      assert k < n ==> steps[..k] == steps[..n][..k] && steps[k] == steps[..n][k];
    }
    AfterPrefix(db, steps, n);
    assert steps[..n + 1] == steps;
  }

  lemma {:induction false} TraceIsSafe(trace: Trace, i: nat)
    requires IsTrace(trace) && i < |trace.states|
    ensures Safe(trace.states[i])
  {
    hide Safe, Next, Quoted, Advances, WellQuoted, After;
    EmptyIsSafe();
    TraceIsRun(trace, 0, i);
    EveryRunIsSafe(EMPTY, trace.steps[0..i]);
  }

  lemma {:induction false} TraceAdvances(trace: Trace, i: nat, j: nat)
    requires IsTrace(trace) && i <= j < |trace.states|
    ensures Safe(trace.states[i]) && Safe(trace.states[j]) && Advances(trace.states[i], trace.states[j])
  {
    hide Safe, Next, Quoted, Advances, WellQuoted, After;
    TraceIsSafe(trace, i);
    TraceIsSafe(trace, j);
    TraceIsRun(trace, i, j);
    EveryRunIsSafe(trace.states[i], trace.steps[i..j]);
  }

  /** Every sequence of transactions whose commands are well quoted makes a trace. */
  lemma {:induction false} RunIsTrace(steps: seq<Step>) returns (trace: Trace)
    requires WellQuoted(EMPTY, steps)
    ensures IsTrace(trace) && trace.steps == steps && trace.states[|steps|] == After(EMPTY, steps)
  {
    hide Next, Quoted;
    trace := Trace(seq(|steps| + 1, i requires 0 <= i <= |steps| => After(EMPTY, steps[..i])), steps);
    forall i | 0 <= i < |steps|
      ensures Quoted(trace.states[i], steps[i]) && trace.states[i + 1] == Next(trace.states[i], steps[i])
    {
      AfterPrefix(EMPTY, steps, i);
    }
    assert steps[..|steps|] == steps;
  }
}
