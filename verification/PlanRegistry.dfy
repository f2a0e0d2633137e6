/** Plan validation: unique keys, known dependencies, no cycle. */
module PlanRegistry {
  import opened RuntimeState
  import opened Graphs

  function Keys(plan: seq<PlanTask>): set<string> {
    set i | 0 <= i < |plan| :: plan[i].key
  }

  predicate UniqueKeys(plan: seq<PlanTask>) {
    forall i, j :: 0 <= i < j < |plan| ==> plan[i].key != plan[j].key
  }

  /** The position of a key in a plan with unique keys. */
  function Position(plan: seq<PlanTask>, key: string): (i: nat)
    requires UniqueKeys(plan) && key in Keys(plan)
    ensures i < |plan| && plan[i].key == key
  {
    var i: nat :| i < |plan| && plan[i].key == key;
    i
  }

  predicate KnownDependencies(plan: seq<PlanTask>) {
    forall i, d :: 0 <= i < |plan| && d in plan[i].dependencies ==> d in Keys(plan)
  }

  predicate HasGate(plan: seq<PlanTask>) {
    exists i :: 0 <= i < |plan| && plan[i].completionGate
  }

  function Dependencies(plan: seq<PlanTask>, key: string): set<string> {
    set i, d | 0 <= i < |plan| && plan[i].key == key && d in plan[i].dependencies :: d
  }

  /** The dependency graph of a plan with unique keys. */
  function PlanGraph(plan: seq<PlanTask>): Graph<string> {
    map k | k in Keys(plan) :: Dependencies(plan, k)
  }

  predicate ValidPlan(plan: seq<PlanTask>) {
    && HasGate(plan)
    && UniqueKeys(plan)
    && KnownDependencies(plan)
    && Acyclic(PlanGraph(plan))
  }

  // ---------------------------------------------------------------------------------------------
  // The cycle check
  // ---------------------------------------------------------------------------------------------

  /** Every dependency of the nodes is one of them, and they have no cycle. */
  ghost predicate Finished(g: Graph<string>, nodes: set<string>) {
    && nodes <= g.Keys
    && (forall k :: k in nodes ==> g[k] <= nodes)
    && (forall s: set<string> :: s <= nodes && s != {} ==> HasLeast(g, s))
  }

  function Successor(path: seq<string>, key: string, i: nat): string
    requires i < |path|
  {
    if i + 1 < |path| then path[i + 1] else key
  }

  /** Each node of the path depends on the next one, and the last one on `key`. */
  ghost predicate LeadsTo(g: Graph<string>, path: seq<string>, key: string) {
    && (forall i :: 0 <= i < |path| ==> path[i] in g)
    && (forall i :: 0 <= i < |path| ==> Successor(path, key, i) in g[path[i]])
  }

  lemma PathBackIsCycle(g: Graph<string>, path: seq<string>, key: string)
    requires LeadsTo(g, path, key) && key in path
    ensures !Acyclic(g)
  {
    var n :| 0 <= n < |path| && path[n] == key;
    var s := set i | n <= i < |path| :: path[i];
    assert path[n] in s;
    forall k | k in s
      ensures !(g[k] !! s)
    {
      var i :| n <= i < |path| && path[i] == k;
      assert Successor(path, key, i) in g[path[i]];
      assert Successor(path, key, i) in s;
    }
    assert !HasLeast(g, s);
  }

  lemma PathExtends(g: Graph<string>, path: seq<string>, key: string, next: string)
    requires LeadsTo(g, path, key) && key in g && next in g[key]
    ensures LeadsTo(g, path + [key], next)
  {
    var longer := path + [key];
    forall i | 0 <= i < |longer|
      ensures longer[i] in g && Successor(longer, next, i) in g[longer[i]]
    {
      if i < |path| {
        assert longer[i] == path[i] && Successor(path, key, i) in g[path[i]];
        assert Successor(longer, next, i) == Successor(path, key, i);
      }
    }
  }

  lemma FinishedGrows(g: Graph<string>, nodes: set<string>, key: string)
    requires Finished(g, nodes) && key in g && key !in nodes && g[key] <= nodes
    ensures Finished(g, nodes + {key})
  {
    forall s: set<string> | s <= nodes + {key} && s != {}
      ensures HasLeast(g, s)
    {
      var rest := s - {key};
      if rest == {} {
        assert s == {key} && g[key] !! s;
      } else {
        assert HasLeast(g, rest);
        var k :| k in rest && g[k] !! rest;
        assert g[k] !! s;
      }
    }
  }

  class PlanVisitor {
    const plan: seq<PlanTask>
    var visiting: set<string>
    var visited: set<string>

    constructor (plan: seq<PlanTask>)
      ensures this.plan == plan && visiting == {} && visited == {}
    {
      this.plan := plan;
      visiting, visited := {}, {};
    }

    /** Depth-first search from `key`, with the keys being visited as the path that led here. It fails
        only on a cycle; otherwise `key` and all it depends on are finished. */
    method Visit(key: string, ghost path: seq<string>) returns (ok: bool)
      requires UniqueKeys(plan) && KnownDependencies(plan) && key in Keys(plan)
      requires Finished(PlanGraph(plan), visited) && visiting !! visited
      requires visiting <= Keys(plan) && (forall k :: k in visiting <==> k in path)
          && LeadsTo(PlanGraph(plan), path, key)
      modifies this
      ensures !ok ==> !Acyclic(PlanGraph(plan))
      ensures ok ==> Finished(PlanGraph(plan), visited) && visiting !! visited
      ensures ok ==> key in visited && visiting == old(visiting) && old(visited) <= visited
      decreases Keys(plan) - visiting
    {
      hide LeadsTo, Finished, HasLeast;
      ghost var g := PlanGraph(plan);
      if key in visiting {
        PathBackIsCycle(g, path, key);
        return false;
      }
      if key in visited {
        return true;
      }
      visiting := visiting + {key};
      var position := Position(plan, key);
      var dependencies := plan[position].dependencies;
      assert g[key] == set d | d in dependencies by { OwnDependencies(plan, position); }
      var i := 0;
      while i < |dependencies|
        invariant 0 <= i <= |dependencies|
        invariant visiting == old(visiting) + {key} && old(visited) <= visited
        invariant Finished(g, visited) && visiting !! visited
        invariant forall j :: 0 <= j < i ==> dependencies[j] in visited
      {
        PathExtends(g, path, key, dependencies[i]);
        var found := Visit(dependencies[i], path + [key]);
        if !found {
          return false;
        }
        i := i + 1;
      }
      FinishedGrows(g, visited, key);
      visiting := visiting - {key};
      visited := visited + {key};
      return true;
    }
  }

  lemma OwnDependencies(plan: seq<PlanTask>, i: nat)
    requires UniqueKeys(plan) && i < |plan|
    ensures plan[i].key in Keys(plan) && PlanGraph(plan)[plan[i].key] == set d | d in plan[i].dependencies
  {
  }

  datatype PlanError =
    | STALE_INPUT_VERSION
    | STALE_PROFILE_VERSION
    | MISSING_COMPLETION_GATE
    | DUPLICATE_TASK_KEY
    | UNSUPPORTED_TOOL(tool: Tool)
    | MISSING_DEPENDENCY(key: string)
    | PLAN_CYCLE

  datatype Validation = Accepted | Rejected(error: PlanError)

  datatype Goal = Goal(inputVersion: string, profileVersion: string, completionCriteria: seq<string>)

  predicate Fresh(goal: Goal, current: Goal) {
    goal.inputVersion == current.inputVersion && goal.profileVersion == current.profileVersion
  }

  predicate SupportedTools(plan: seq<PlanTask>, registered: set<Tool>) {
    forall i :: 0 <= i < |plan| ==> plan[i].tool in registered
  }

  method CollectKeys(plan: seq<PlanTask>) returns (byKey: set<string>)
    ensures byKey == Keys(plan)
  {
    byKey := {};
    for i := 0 to |plan|
      invariant byKey == Keys(plan[..i])
    {
      assert Keys(plan[..i + 1]) == Keys(plan[..i]) + {plan[i].key};
      byKey := byKey + {plan[i].key};
    }
    assert plan[..|plan|] == plan;
  }

  /** A map built from the plan has as many entries as the plan exactly when no key is repeated. */
  lemma {:induction false} KeyCount(plan: seq<PlanTask>)
    ensures |Keys(plan)| <= |plan|
    ensures |Keys(plan)| == |plan| <==> UniqueKeys(plan)
  {
    if plan != [] {
      var n := |plan| - 1;
      var front := plan[..n];
      KeyCount(front);
      assert Keys(plan) == Keys(front) + {plan[n].key};
      assert plan[n].key in Keys(front) <==> exists i :: 0 <= i < n && plan[i].key == plan[n].key;
    }
  }

  predicate IsSound(plan: seq<PlanTask>, registered: set<Tool>, i: nat)
    requires i < |plan|
  {
    plan[i].tool in registered && forall d :: d in plan[i].dependencies ==> d in Keys(plan)
  }

  ghost predicate FirstUnsound(plan: seq<PlanTask>, registered: set<Tool>, i: nat) {
    i < |plan| && !IsSound(plan, registered, i) && forall j :: 0 <= j < i ==> IsSound(plan, registered, j)
  }

  ghost predicate FirstMissing(plan: seq<PlanTask>, i: nat, k: nat)
    requires i < |plan|
  {
    && k < |plan[i].dependencies| && plan[i].dependencies[k] !in Keys(plan)
    && forall d :: d in plan[i].dependencies[..k] ==> d in Keys(plan)
  }

  /** The error is that of the first task in plan order that has one: its tool's, else its first missing
      dependency's. */
  ghost predicate NamesFirstProblem(plan: seq<PlanTask>, registered: set<Tool>, error: PlanError) {
    exists i: nat ::
      && FirstUnsound(plan, registered, i)
      && if plan[i].tool !in registered then error == UNSUPPORTED_TOOL(plan[i].tool)
          else exists k: nat :: FirstMissing(plan, i, k) && error == MISSING_DEPENDENCY(plan[i].dependencies[k])
  }

  lemma AllSound(plan: seq<PlanTask>, registered: set<Tool>)
    requires forall i :: 0 <= i < |plan| ==> IsSound(plan, registered, i)
    ensures SupportedTools(plan, registered) && KnownDependencies(plan)
  {
    forall i | 0 <= i < |plan|
      ensures plan[i].tool in registered && forall d :: d in plan[i].dependencies ==> d in Keys(plan)
    {
      assert IsSound(plan, registered, i);
    }
  }

  method CheckTasks(plan: seq<PlanTask>, registered: set<Tool>, byKey: set<string>) returns (answer: Validation)
    requires byKey == Keys(plan)
    ensures answer == Accepted <==> SupportedTools(plan, registered) && KnownDependencies(plan)
    ensures answer.Rejected? ==> NamesFirstProblem(plan, registered, answer.error)
  {
    for i := 0 to |plan|
      invariant forall j :: 0 <= j < i ==> IsSound(plan, registered, j)
    {
      if plan[i].tool !in registered {
        assert FirstUnsound(plan, registered, i);
        return Rejected(UNSUPPORTED_TOOL(plan[i].tool));
      }
      for k := 0 to |plan[i].dependencies|
        invariant forall d :: d in plan[i].dependencies[..k] ==> d in byKey
      {
        if plan[i].dependencies[k] !in byKey {
          assert FirstUnsound(plan, registered, i) && FirstMissing(plan, i, k);
          return Rejected(MISSING_DEPENDENCY(plan[i].dependencies[k]));
        }
      }
      assert plan[i].dependencies[..|plan[i].dependencies|] == plan[i].dependencies;
    }
    AllSound(plan, registered);
    return Accepted;
  }

  method HasNoCycle(plan: seq<PlanTask>) returns (ok: bool)
    requires UniqueKeys(plan) && KnownDependencies(plan)
    ensures ok <==> Acyclic(PlanGraph(plan))
  {
    var visitor := new PlanVisitor(plan);
    for i := 0 to |plan|
      invariant visitor.plan == plan && visitor.visiting == {}
      invariant Finished(PlanGraph(plan), visitor.visited)
      invariant forall j :: 0 <= j < i ==> plan[j].key in visitor.visited
    {
      ok := visitor.Visit(plan[i].key, []);
      if !ok { return; }
    }
    assert PlanGraph(plan).Keys <= visitor.visited;
    return true;
  }

  /** The checks in the order of their errors: a plan is accepted exactly when its goal is current and has
      criteria, the plan has a gate, unique keys, supported tools, known dependencies, and no cycle. */
  method ValidatePlan(goal: Goal, plan: seq<PlanTask>, registered: set<Tool>, current: Goal)
      returns (answer: Validation)
    ensures answer == Accepted <==>
        Fresh(goal, current) && goal.completionCriteria != [] && SupportedTools(plan, registered) && ValidPlan(plan)
    ensures answer == Rejected(STALE_INPUT_VERSION) <==> goal.inputVersion != current.inputVersion
    ensures answer == Rejected(MISSING_COMPLETION_GATE)
        <==> Fresh(goal, current) && (goal.completionCriteria == [] || !HasGate(plan))
    ensures answer == Rejected(DUPLICATE_TASK_KEY)
        <==> Fresh(goal, current) && goal.completionCriteria != [] && HasGate(plan) && !UniqueKeys(plan)
    ensures answer == Rejected(PLAN_CYCLE) <==>
              && Fresh(goal, current) && goal.completionCriteria != [] && HasGate(plan) && UniqueKeys(plan)
              && SupportedTools(plan, registered) && KnownDependencies(plan) && !Acyclic(PlanGraph(plan))
    ensures answer == Rejected(STALE_PROFILE_VERSION) <==>
              goal.inputVersion == current.inputVersion && goal.profileVersion != current.profileVersion
    ensures answer.Rejected? && (answer.error.UNSUPPORTED_TOOL? || answer.error.MISSING_DEPENDENCY?) <==>
      && Fresh(goal, current) && goal.completionCriteria != [] && HasGate(plan) && UniqueKeys(plan)
      && !(SupportedTools(plan, registered) && KnownDependencies(plan))
    ensures answer.Rejected? && (answer.error.UNSUPPORTED_TOOL? || answer.error.MISSING_DEPENDENCY?) ==>
              NamesFirstProblem(plan, registered, answer.error)
  {
    if goal.inputVersion != current.inputVersion { return Rejected(STALE_INPUT_VERSION); }
    if goal.profileVersion != current.profileVersion { return Rejected(STALE_PROFILE_VERSION); }
    if goal.completionCriteria == [] || !HasGate(plan) { return Rejected(MISSING_COMPLETION_GATE); }
    var byKey := CollectKeys(plan);
    KeyCount(plan);
    if |byKey| != |plan| { return Rejected(DUPLICATE_TASK_KEY); }
    var problem := CheckTasks(plan, registered, byKey);
    if problem.Rejected? { return problem; }
    var acyclic := HasNoCycle(plan);
    return if acyclic then Accepted else Rejected(PLAN_CYCLE);
  }

  /** A valid plan has a rank that falls along every dependency, and a plan with such a rank has no cycle. */
  lemma AcyclicIsRanked(plan: seq<PlanTask>)
    ensures Acyclic(PlanGraph(plan)) <==> exists rank :: Ranks(PlanGraph(plan), rank)
  {
    if Acyclic(PlanGraph(plan)) {
      var rank := RankExists(PlanGraph(plan));
    } else if rank :| Ranks(PlanGraph(plan), rank) {
      RankedIsAcyclic(PlanGraph(plan), rank);
    }
  }
}
