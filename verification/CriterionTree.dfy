/** Draft criteria become a tree with printed path identifiers. */
module CriterionTree {
  import opened Wrappers
  import opened DocumentText

  // ---------------------------------------------------------------------------------------------
  // Printing paths
  // ---------------------------------------------------------------------------------------------

  function Digit(n: nat): char
    requires n < 10
  {
    "0123456789"[n]
  }

  function Decimal(n: nat): (s: string)
    ensures s != "" && forall c :: c in s ==> '0' <= c <= '9'
  {
    if n < 10 then [Digit(n)] else Decimal(n / 10) + [Digit(n % 10)]
  }

  /** The number printed with at least three digits. */
  function Padded(n: nat): (s: string)
    ensures s != "" && forall c :: c in s ==> '0' <= c <= '9'
  {
    var s := Decimal(n);
    if |s| == 1 then "00" + s else if |s| == 2 then "0" + s else s
  }

  function Value(s: string): int {
    if s == "" then 0 else 10 * Value(s[..|s| - 1]) + (s[|s| - 1] as int - '0' as int)
  }

  lemma {:induction false} DecimalValue(n: nat)
    ensures Value(Decimal(n)) == n
  {
    if n < 10 {
      assert [Digit(n)][..0] == "";
    } else {
      DecimalValue(n / 10);
      var s := Decimal(n / 10);
      assert (s + [Digit(n % 10)])[..|s|] == s;
    }
  }

  lemma {:induction false} LeadingZero(s: string)
    ensures Value("0" + s) == Value(s)
  {
    if s == "" {
      assert ("0" + s)[..0] == "" && ("0" + s)[0] == '0';
    } else {
      LeadingZero(s[..|s| - 1]);
      assert ("0" + s)[..|s|] == "0" + s[..|s| - 1];
    }
  }

  lemma PaddedValue(n: nat)
    ensures Value(Padded(n)) == n
  {
    var s := Decimal(n);
    DecimalValue(n);
    LeadingZero(s);
    LeadingZero("0" + s);
    assert "0" + ("0" + s) == "00" + s;
  }

  function Joined(path: seq<nat>): string
    requires path != []
  {
    if |path| == 1 then Padded(path[0]) else Padded(path[0]) + "." + Joined(path[1..])
  }

  function Printed(path: seq<nat>): string
    requires path != []
  {
    "criterion-" + Joined(path)
  }

  /** The characters before the first dot. */
  function Head(s: string): string {
    if s == "" || s[0] == '.' then "" else [s[0]] + Head(s[1..])
  }

  lemma {:induction false} HeadOfDigits(a: string, x: string)
    requires (forall c :: c in a ==> '0' <= c <= '9') && (x == "" || x[0] == '.')
    ensures Head(a + x) == a
  {
    if a == "" {
      assert a + x == x;
    } else {
      assert a[0] in a && forall c :: c in a[1..] ==> c in a;
      HeadOfDigits(a[1..], x);
      assert (a + x)[1..] == a[1..] + x && (a + x)[0] == a[0];
    }
  }

  /** What follows the first number of a printed path. */
  function Tail(path: seq<nat>): string
    requires path != []
  {
    if |path| == 1 then "" else "." + Joined(path[1..])
  }

  lemma {:induction false} JoinedInjective(p: seq<nat>, q: seq<nat>)
    requires p != [] && q != [] && Joined(p) == Joined(q)
    ensures p == q
  {
    hide Padded, Value, Head;
    SameStart(p, q);
    if |p| > 1 && |q| > 1 {
      assert Tail(p)[1..] == Joined(p[1..]) && Tail(q)[1..] == Joined(q[1..]);
      JoinedInjective(p[1..], q[1..]);
      assert p == [p[0]] + p[1..] && q == [q[0]] + q[1..];
    }
  }

  lemma {:induction false} SameStart(p: seq<nat>, q: seq<nat>)
    requires p != [] && q != [] && Joined(p) == Joined(q)
    ensures p[0] == q[0] && Tail(p) == Tail(q)
  {
    hide Value, Decimal;
    HeadOfDigits(Padded(p[0]), Tail(p));
    HeadOfDigits(Padded(q[0]), Tail(q));
    PaddedValue(p[0]);
    PaddedValue(q[0]);
    assert Joined(p) == Padded(p[0]) + Tail(p) && Joined(q) == Padded(q[0]) + Tail(q);
    assert Tail(p) == Joined(p)[|Padded(p[0])|..] && Tail(q) == Joined(q)[|Padded(q[0])|..];
  }

  lemma PrintedInjective(p: seq<nat>, q: seq<nat>)
    requires p != [] && q != [] && Printed(p) == Printed(q)
    ensures p == q
  {
    assert Joined(p) == Printed(p)[10..] && Joined(q) == Printed(q)[10..];
    JoinedInjective(p, q);
  }

  // ---------------------------------------------------------------------------------------------
  // Drafts
  // ---------------------------------------------------------------------------------------------

  datatype Operator = ALL | ANY | AT_LEAST_N | LEAF

  datatype Draft = Draft(
    temporaryId: string,
    sourceRefs: seq<string>,
    sourceText: string,
    interpretation: string,
    evaluationRule: string,
    explanation: string,
    question: string,
    stopFactorCategory: bool,
    stopFactorEffect: bool,
    required: bool,
    hardRequired: bool,
    operator: Operator,
    atLeast: Option<int>,
    allowedStates: seq<string>,
    children: seq<Draft>)

  datatype Criterion = Criterion(criterionId: string, sourceRefs: seq<string>, sourceText: string, required: bool,
      hardRequired: bool, operator: Operator, children: seq<Criterion>)

  /** The text rules the compiler applies: trimming, the numbers a text mentions, and whether a source
      reference names a stop factor. */
  datatype Rules = Rules(fragments: map<string, string>, trim: string -> string, numbers: string -> set<string>,
      stopFactor: string -> bool)

  ghost predicate Includes(text: string, word: string) {
    exists i: nat :: OccursAt(text, word, i)
  }

  method Contains(text: string, word: string) returns (found: bool)
    ensures found <==> Includes(text, word)
  {
    var at := IndexOf(text, word);
    return at.Some?;
  }

  ghost predicate Faithful(node: Draft, rules: Rules) {
    && node.sourceRefs != []
    && (forall r :: r in node.sourceRefs ==> r in rules.fragments)
    && rules.trim(node.sourceText) != ""
    && (exists r ::
        r in node.sourceRefs && r in rules.fragments && Includes(rules.fragments[r], rules.trim(node.sourceText)))
  }

  function SourceNumbers(refs: seq<string>, rules: Rules): set<string> {
    set r, n | r in refs && r in rules.fragments && n in rules.numbers(rules.fragments[r]) :: n
  }

  function GeneratedNumbers(node: Draft, rules: Rules): set<string> {
    rules.numbers(node.interpretation + " " + node.evaluationRule)
  }

  predicate OnlyStopFactors(node: Draft, rules: Rules) {
    forall r :: r in node.sourceRefs ==> rules.stopFactor(r)
  }

  predicate MixesStopFactors(node: Draft, rules: Rules) {
    (exists r :: r in node.sourceRefs && rules.stopFactor(r)) && !OnlyStopFactors(node, rules)
  }

  predicate StopFactorsAgree(node: Draft, rules: Rules) {
    && !MixesStopFactors(node, rules)
    && (node.hardRequired <==> OnlyStopFactors(node, rules))
    && (node.hardRequired ==> node.required && node.stopFactorCategory && node.stopFactorEffect)
  }

  predicate TextsPresent(node: Draft, rules: Rules) {
    && rules.trim(node.interpretation) != "" && rules.trim(node.explanation) != ""
    && rules.trim(node.evaluationRule) != "" && rules.trim(node.question) != ""
  }

  /** The node keeps to its sources. */
  ghost predicate Grounded(node: Draft, rules: Rules) {
    && Faithful(node, rules)
    && GeneratedNumbers(node, rules) <= SourceNumbers(node.sourceRefs, rules)
    && node.allowedStates != []
    && StopFactorsAgree(node, rules)
    && (node.operator == AT_LEAST_N ==> node.atLeast.Some? && node.atLeast.value >= 1)
  }

  ghost predicate NodeValid(node: Draft, rules: Rules) {
    rules.trim(node.temporaryId) != "" && Grounded(node, rules) && TextsPresent(node, rules)
  }

  ghost predicate TreeValid(node: Draft, rules: Rules)
    decreases node
  {
    NodeValid(node, rules) && forall i :: 0 <= i < |node.children| ==> TreeValid(node.children[i], rules)
  }

  /** The temporary ids of a tree, in preorder. */
  function TreeIds(node: Draft): seq<string>
    decreases node
  {
    [node.temporaryId] + ForestIds(node.children)
  }

  function ForestIds(nodes: seq<Draft>): seq<string>
    decreases nodes
  {
    if nodes == [] then [] else TreeIds(nodes[0]) + ForestIds(nodes[1..])
  }

  ghost predicate AllDistinct<T>(s: seq<T>) {
    forall i, j :: 0 <= i < j < |s| ==> s[i] != s[j]
  }

  /** None of the ids occurs twice or among those already taken. */
  ghost predicate FreshIds(ids: seq<string>, taken: set<string>) {
    AllDistinct(ids) && forall x :: x in ids ==> x !in taken
  }

  function Compiled(node: Draft, path: seq<nat>, rules: Rules): Criterion
    requires path != []
    decreases node
  {
    Criterion(Printed(path), node.sourceRefs, rules.trim(node.sourceText), node.required, node.hardRequired,
        node.operator, CompiledForest(node.children, path, 1, rules))
  }

  /** Children are numbered from `first` on, under the path of their parent. */
  function CompiledForest(nodes: seq<Draft>, path: seq<nat>, first: nat, rules: Rules): (criteria: seq<Criterion>)
    ensures |criteria| == |nodes|
    decreases nodes
  {
    if nodes == [] then []
        else [Compiled(nodes[0], path + [first], rules)] + CompiledForest(nodes[1..], path, first + 1, rules)
  }

  lemma {:induction false} ForestIdsSplit(nodes: seq<Draft>, i: nat)
    requires i < |nodes|
    ensures ForestIds(nodes[..i + 1]) == ForestIds(nodes[..i]) + TreeIds(nodes[i])
    decreases i
  {
    if i == 0 {
      assert nodes[..1] == [nodes[0]] && nodes[..1][1..] == [] && nodes[..0] == [];
    } else {
      ForestIdsSplit(nodes[1..], i - 1);
      assert nodes[..i + 1][1..] == nodes[1..][..i] && nodes[..i][1..] == nodes[1..][..i - 1];
    }
  }

  lemma {:induction false} CompiledAt(nodes: seq<Draft>, path: seq<nat>, first: nat, rules: Rules, i: nat)
    requires i < |nodes|
    ensures CompiledForest(nodes, path, first, rules)[i] == Compiled(nodes[i], path + [first + i], rules)
    decreases i
  {
    if i > 0 { CompiledAt(nodes[1..], path, first + 1, rules, i - 1); }
  }

  lemma FreshApart(a: seq<string>, b: seq<string>, taken: set<string>)
    ensures FreshIds(a + b, taken) <==> FreshIds(a, taken) && FreshIds(b, taken + set x | x in a)
  {
    if FreshIds(a, taken) && FreshIds(b, taken + set x | x in a) {
      forall i, j | 0 <= i < j < |a + b|
        ensures (a + b)[i] != (a + b)[j]
      {
        if i < |a| && j >= |a| { assert b[j - |a|] in b && a[i] in a; }
      }
    } else if FreshIds(a + b, taken) {
      forall i | 0 <= i < |a|
        ensures a[i] == (a + b)[i] && a[i] in a + b
      {
      }
      forall j | 0 <= j < |b|
        ensures b[j] == (a + b)[|a| + j] && b[j] in a + b && b[j] !in a
      {
        forall i | 0 <= i < |a|
          ensures a[i] != b[j]
        {
          assert (a + b)[i] == a[i] && (a + b)[|a| + j] == b[j];
        }
      }
    }
  }

  // ---------------------------------------------------------------------------------------------
  // Compilation
  // ---------------------------------------------------------------------------------------------

  /** The compiler's pass over the drafts. The ids seen so far are shared by the whole forest. */
  class DraftValidator {
    const rules: Rules
    var ids: set<string>

    constructor (rules: Rules)
      ensures this.rules == rules && ids == {}
    {
      this.rules := rules;
      ids := {};
    }

    /** Accepts a tree exactly when every node of it is valid and its temporary ids are new. */
    method ValidateNode(node: Draft, path: seq<nat>) returns (result: Result<Criterion>)
      requires path != []
      modifies this
      ensures result.Ok? <==> TreeValid(node, rules) && FreshIds(TreeIds(node), old(ids))
      ensures result.Ok? ==> result.value == Compiled(node, path, rules) && ids == old(ids) + set x | x in TreeIds(node)
      ensures result.Err? && TreeValid(node, rules) ==> result.code == "MATRIX_TEMPORARY_ID_DUPLICATE"
      decreases node, 1
    {
      hide NodeValid, FreshIds;
      NodeParts(node, rules);
      FreshApart([node.temporaryId], ForestIds(node.children), ids);
      FreshOne(node.temporaryId, ids);
      if rules.trim(node.temporaryId) == "" { return Err("MATRIX_TEMPORARY_ID_INVALID"); }
      if node.temporaryId in ids { return Err("MATRIX_TEMPORARY_ID_DUPLICATE"); }
      ids := ids + {node.temporaryId};
      var problem := CheckNode(node);
      if problem != "" { return Err(problem); }
      assert (set x | x in [node.temporaryId]) == {node.temporaryId};
      ghost var before := ids;
      var children := ValidateForest(node.children, path, node);
      if children.Err? { return Err(children.code); }
      problem := CheckTexts(node);
      if problem != "" { return Err(problem); }
      return Ok(Criterion(Printed(path), node.sourceRefs, rules.trim(node.sourceText), node.required, node.hardRequired,
          node.operator, children.value));
    }

    method ValidateForest(nodes: seq<Draft>, path: seq<nat>, ghost parent: Draft)
        returns (result: Result<seq<Criterion>>)
      requires path != [] && nodes == parent.children
      modifies this
      ensures result.Ok? <==>
          (forall i :: 0 <= i < |nodes| ==> TreeValid(nodes[i], rules)) && FreshIds(ForestIds(nodes), old(ids))
      ensures result.Ok? ==>
          result.value == CompiledForest(nodes, path, 1, rules) && ids == old(ids) + set x | x in ForestIds(nodes)
      ensures result.Err? && (forall i :: 0 <= i < |nodes| ==> TreeValid(nodes[i], rules)) ==>
          result.code == "MATRIX_TEMPORARY_ID_DUPLICATE"
      decreases parent, 0
    {
      hide TreeValid, FreshIds, Compiled, TreeIds;
      ghost var before := ids;
      var criteria: seq<Criterion> := [];
      NothingTaken(nodes, before);
      var i := 0;
      while i < |nodes|
        invariant 0 <= i <= |nodes| && |criteria| == i
        invariant forall j ::
            0 <= j < i ==> TreeValid(nodes[j], rules) && criteria[j] == Compiled(nodes[j], path + [1 + j], rules)
        invariant FreshIds(ForestIds(nodes[..i]), before) && ids == before + set x | x in ForestIds(nodes[..i])
      {
        ForestIdsSplit(nodes, i);
        FreshApart(ForestIds(nodes[..i]), TreeIds(nodes[i]), before);
        FreshPrefix(nodes, i + 1, before);
        var child := ValidateNode(nodes[i], path + [1 + i]);
        if child.Err? { return Err(child.code); }
        criteria := criteria + [child.value];
        i := i + 1;
      }
      assert nodes[..i] == nodes;
      forall j | 0 <= j < |nodes|
        ensures criteria[j] == CompiledForest(nodes, path, 1, rules)[j]
      {
        CompiledAt(nodes, path, 1, rules, j);
      }
      return Ok(criteria);
    }

    /** The checks on one node before its children are compiled, its temporary id aside. */
    method CheckNode(node: Draft) returns (problem: string)
      ensures problem == "" <==> Grounded(node, rules)
    {
      if node.sourceRefs == [] || exists r :: r in node.sourceRefs && r !in rules.fragments {
        return "MATRIX_SOURCE_REF_INVALID";
      }
      var sourceText := rules.trim(node.sourceText);
      if sourceText == "" { return "MATRIX_SOURCE_TEXT_INVALID"; }
      var faithful := QuotedIn(node.sourceRefs, sourceText);
      if !faithful { return "MATRIX_FIDELITY_VIOLATION"; }
      if !(GeneratedNumbers(node, rules) <= SourceNumbers(node.sourceRefs, rules)) {
        return "MATRIX_INVENTED_THRESHOLD";
      }
      if node.allowedStates == [] { return "MATRIX_ALLOWED_STATES_INVALID"; }
      if MixesStopFactors(node, rules) { return "MATRIX_STOP_FACTOR_SOURCE_MIXED"; }
      if node.hardRequired != OnlyStopFactors(node, rules) { return "MATRIX_HARD_REQUIRED_SOURCE_MISMATCH"; }
      if node.hardRequired && (!node.required || !node.stopFactorCategory || !node.stopFactorEffect) {
        return "MATRIX_STOP_FACTOR_SEMANTICS_INVALID";
      }
      if node.operator == AT_LEAST_N && (node.atLeast == None || node.atLeast.value < 1) {
        return "MATRIX_AT_LEAST_N_INVALID";
      }
      return "";
    }

    /** The texts that are read when the node is put together, after its children. */
    method CheckTexts(node: Draft) returns (problem: string)
      ensures problem == "" <==> TextsPresent(node, rules)
    {
      if rules.trim(node.interpretation) == "" { return "MATRIX_INTERPRETATION_INVALID"; }
      if rules.trim(node.explanation) == "" { return "MATRIX_REQUIRED_EXPLANATION_INVALID"; }
      if rules.trim(node.evaluationRule) == "" { return "MATRIX_EVALUATION_RULE_INVALID"; }
      if rules.trim(node.question) == "" { return "MATRIX_MISSING_QUESTION_INVALID"; }
      return "";
    }

    method QuotedIn(refs: seq<string>, text: string) returns (found: bool)
      requires forall r :: r in refs ==> r in rules.fragments
      ensures found <==> exists r :: r in refs && r in rules.fragments && Includes(rules.fragments[r], text)
    {
      for i := 0 to |refs|
        invariant forall j :: 0 <= j < i ==> !Includes(rules.fragments[refs[j]], text)
      {
        found := Contains(rules.fragments[refs[i]], text);
        if found { return; }
      }
      return false;
    }
  }

  lemma NodeParts(node: Draft, rules: Rules)
    ensures NodeValid(node, rules) <==>
              rules.trim(node.temporaryId) != "" && Grounded(node, rules) && TextsPresent(node, rules)
  {
  }

  lemma FreshOne(id: string, taken: set<string>)
    ensures FreshIds([id], taken) <==> id !in taken
  {
    assert [id][0] in [id];
  }

  lemma NothingTaken(nodes: seq<Draft>, taken: set<string>)
    ensures FreshIds(ForestIds(nodes[..0]), taken) && (set x | x in ForestIds(nodes[..0])) == {}
  {
  }

  /** A forest whose ids are fresh has fresh ids in every prefix. */
  lemma FreshPrefix(nodes: seq<Draft>, i: nat, taken: set<string>)
    requires i <= |nodes|
    ensures FreshIds(ForestIds(nodes), taken) ==> FreshIds(ForestIds(nodes[..i]), taken)
    decreases |nodes| - i
  {
    hide FreshIds;
    if i < |nodes| {
      FreshPrefix(nodes, i + 1, taken);
      ForestIdsSplit(nodes, i);
      FreshApart(ForestIds(nodes[..i]), TreeIds(nodes[i]), taken);
    } else {
      assert nodes[..i] == nodes;
    }
  }

  // ---------------------------------------------------------------------------------------------
  // Identifiers of the compiled tree
  // ---------------------------------------------------------------------------------------------

  function CriterionIds(c: Criterion): seq<string>
    decreases c
  {
    [c.criterionId] + AllCriterionIds(c.children)
  }

  /** The ids of a forest in preorder. */
  function AllCriterionIds(criteria: seq<Criterion>): seq<string>
    decreases criteria
  {
    if criteria == [] then [] else CriterionIds(criteria[0]) + AllCriterionIds(criteria[1..])
  }

  /** Collects ids by pushing each node before its children. */
  method VisitCriteria(criteria: seq<Criterion>, pushed: seq<string>) returns (result: seq<string>)
    ensures result == pushed + AllCriterionIds(criteria)
    decreases criteria
  {
    result := pushed;
    var i := 0;
    assert criteria[0..] == criteria;
    while i < |criteria|
      invariant 0 <= i <= |criteria|
      invariant result + AllCriterionIds(criteria[i..]) == pushed + AllCriterionIds(criteria)
      decreases |criteria| - i
    {
      result := result + [criteria[i].criterionId];
      var deeper := VisitCriteria(criteria[i].children, result);
      assert criteria[i..][1..] == criteria[i + 1..];
      assert result + AllCriterionIds(criteria[i].children) + AllCriterionIds(criteria[i + 1..]) ==
          result + (AllCriterionIds(criteria[i].children) + AllCriterionIds(criteria[i + 1..]));
      result := deeper;
      i := i + 1;
    }
  }

  method MatrixCriterionIds(criteria: seq<Criterion>) returns (ids: seq<string>)
    ensures ids == AllCriterionIds(criteria)
  {
    ids := VisitCriteria(criteria, []);
  }

  function TreePaths(node: Draft, path: seq<nat>): seq<seq<nat>>
    decreases node
  {
    [path] + ForestPaths(node.children, path, 1)
  }

  /** The positions of all nodes, in preorder. */
  function ForestPaths(nodes: seq<Draft>, path: seq<nat>, first: nat): seq<seq<nat>>
    decreases nodes
  {
    if nodes == [] then [] else TreePaths(nodes[0], path + [first]) + ForestPaths(nodes[1..], path, first + 1)
  }

  ghost predicate PrintedPaths(ids: seq<string>, paths: seq<seq<nat>>) {
    |ids| == |paths| && forall i :: 0 <= i < |paths| ==> paths[i] != [] && ids[i] == Printed(paths[i])
  }

  lemma PrintedConcat(a: seq<string>, b: seq<string>, p: seq<seq<nat>>, q: seq<seq<nat>>)
    requires PrintedPaths(a, p) && PrintedPaths(b, q)
    ensures PrintedPaths(a + b, p + q)
  {
    hide Printed;
    forall i | 0 <= i < |p + q|
      ensures (p + q)[i] != [] && (a + b)[i] == Printed((p + q)[i])
    {
      if i < |p| { assert (p + q)[i] == p[i]; } else { assert (p + q)[i] == q[i - |p|]; }
    }
  }

  lemma {:induction false} TreeIdsPrintPaths(node: Draft, path: seq<nat>, rules: Rules)
    requires path != []
    ensures PrintedPaths(CriterionIds(Compiled(node, path, rules)), TreePaths(node, path))
    decreases node
  {
    ForestIdsPrintPaths(node.children, path, 1, rules);
    PrintedConcat([Printed(path)], AllCriterionIds(CompiledForest(node.children, path, 1, rules)), [path],
        ForestPaths(node.children, path, 1));
  }

  lemma {:induction false} ForestIdsPrintPaths(nodes: seq<Draft>, path: seq<nat>, first: nat, rules: Rules)
    ensures PrintedPaths(AllCriterionIds(CompiledForest(nodes, path, first, rules)), ForestPaths(nodes, path, first))
    decreases nodes
  {
    if nodes != [] {
      TreeIdsPrintPaths(nodes[0], path + [first], rules);
      ForestIdsPrintPaths(nodes[1..], path, first + 1, rules);
      var criteria := CompiledForest(nodes, path, first, rules);
      assert criteria[1..] == CompiledForest(nodes[1..], path, first + 1, rules);
      PrintedConcat(CriterionIds(criteria[0]), AllCriterionIds(criteria[1..]), TreePaths(nodes[0], path + [first]),
          ForestPaths(nodes[1..], path, first + 1));
    }
  }

  ghost predicate Under(path: seq<nat>, p: seq<nat>, first: nat) {
    |p| > |path| && p[..|path|] == path && p[|path|] >= first
  }

  lemma {:induction false} TreePathsDistinct(node: Draft, path: seq<nat>)
    ensures AllDistinct(TreePaths(node, path))
    ensures forall i ::
        0 <= i < |TreePaths(node, path)| ==>
        |path| <= |TreePaths(node, path)[i]| && TreePaths(node, path)[i][..|path|] == path
    decreases node
  {
    ForestPathsDistinct(node.children, path, 1);
    var rest := ForestPaths(node.children, path, 1);
    assert forall j :: 0 <= j < |rest| ==> Under(path, rest[j], 1);
    assert TreePaths(node, path) == [path] + rest;
  }

  lemma {:induction false} ForestPathsDistinct(nodes: seq<Draft>, path: seq<nat>, first: nat)
    ensures AllDistinct(ForestPaths(nodes, path, first))
    ensures forall i ::
        0 <= i < |ForestPaths(nodes, path, first)| ==> Under(path, ForestPaths(nodes, path, first)[i], first)
    decreases nodes
  {
    if nodes != [] {
      var here, rest := TreePaths(nodes[0], path + [first]), ForestPaths(nodes[1..], path, first + 1);
      TreePathsDistinct(nodes[0], path + [first]);
      ForestPathsDistinct(nodes[1..], path, first + 1);
      forall i | 0 <= i < |here|
        ensures Under(path, here[i], first) && here[i][|path|] == first
      {
        StartsWith(path, first, here[i]);
      }
      assert forall j :: 0 <= j < |rest| ==> Under(path, rest[j], first + 1);
    }
  }

  lemma StartsWith(path: seq<nat>, first: nat, p: seq<nat>)
    requires |path + [first]| <= |p| && p[..|path + [first]|] == path + [first]
    ensures p[..|path|] == path && p[|path|] == first
  {
    assert p[..|path| + 1][..|path|] == p[..|path|];
    assert p[..|path| + 1][|path|] == p[|path|];
  }

  /** The printed ids of any forest are pairwise distinct and list the nodes in preorder. */
  lemma IdsAreDistinct(drafts: seq<Draft>, rules: Rules)
    ensures AllDistinct(AllCriterionIds(CompiledForest(drafts, [], 1, rules)))
    ensures PrintedPaths(AllCriterionIds(CompiledForest(drafts, [], 1, rules)), ForestPaths(drafts, [], 1))
  {
    var ids, paths := AllCriterionIds(CompiledForest(drafts, [], 1, rules)), ForestPaths(drafts, [], 1);
    ForestIdsPrintPaths(drafts, [], 1, rules);
    ForestPathsDistinct(drafts, [], 1);
    forall i, j | 0 <= i < j < |ids|
      ensures ids[i] != ids[j]
    {
      if ids[i] == ids[j] { PrintedInjective(paths[i], paths[j]); }
    }
  }

  // ---------------------------------------------------------------------------------------------
  // Hard requirements
  // ---------------------------------------------------------------------------------------------

  /** A criterion is hard required exactly when all its source references are stop factors, and so at
      every node below it. */
  ghost predicate HardExactly(c: Criterion, rules: Rules)
    decreases c
  {
    && (c.hardRequired <==> forall r :: r in c.sourceRefs ==> rules.stopFactor(r))
    && (forall i :: 0 <= i < |c.children| ==> HardExactly(c.children[i], rules))
  }

  lemma {:induction false} HardRequiredIsExact(node: Draft, path: seq<nat>, rules: Rules)
    requires path != [] && TreeValid(node, rules)
    ensures HardExactly(Compiled(node, path, rules), rules)
    decreases node
  {
    hide Faithful, GeneratedNumbers, SourceNumbers, TextsPresent;
    var children := CompiledForest(node.children, path, 1, rules);
    forall i | 0 <= i < |children|
      ensures HardExactly(children[i], rules)
    {
      CompiledAt(node.children, path, 1, rules, i);
      HardRequiredIsExact(node.children[i], path + [1 + i], rules);
    }
  }

  // ---------------------------------------------------------------------------------------------
  // The whole matrix
  // ---------------------------------------------------------------------------------------------

  /** The source points of the top-level criteria, one for each reference. */
  function SourcePoints(drafts: seq<Draft>, rules: Rules): seq<(string, string)> {
    if drafts == [] then []
    else SourcePoints(drafts[..|drafts| - 1], rules)
          + PointsOf(drafts[|drafts| - 1].sourceRefs, rules.trim(drafts[|drafts| - 1].sourceText))
  }

  function PointsOf(refs: seq<string>, text: string): seq<(string, string)> {
    seq(|refs|, i requires 0 <= i < |refs| => (refs[i], text))
  }

  lemma DistinctPrefix<T>(a: seq<T>, b: seq<T>)
    ensures AllDistinct(a + b) ==> AllDistinct(a)
  {
    if AllDistinct(a + b) {
      forall i, j | 0 <= i < j < |a|
        ensures a[i] != a[j]
      {
        assert (a + b)[i] == a[i] && (a + b)[j] == a[j];
      }
    }
  }

  lemma DistinctOneMore<T>(a: seq<T>, x: T)
    ensures AllDistinct(a + [x]) <==> AllDistinct(a) && x !in a
  {
    if AllDistinct(a + [x]) {
      DistinctPrefix(a, [x]);
      forall i | 0 <= i < |a|
        ensures a[i] != x
      {
        assert (a + [x])[i] == a[i] && (a + [x])[|a|] == x;
      }
    }
  }

  /** A source point that two top-level criteria share, or that one lists twice, is split too far. */
  method CheckSplit(drafts: seq<Draft>, rules: Rules) returns (ok: bool)
    ensures ok <==> AllDistinct(SourcePoints(drafts, rules))
  {
    hide AllDistinct;
    var seen: set<(string, string)> := {};
    ghost var points: seq<(string, string)> := [];
    EmptyDistinct();
    for i := 0 to |drafts|
      invariant points == SourcePoints(drafts[..i], rules) && AllDistinct(points) && seen == set p | p in points
    {
      var refs, text := drafts[i].sourceRefs, rules.trim(drafts[i].sourceText);
      ghost var before := points;
      assert drafts[..i + 1][..i] == drafts[..i];
      for k := 0 to |refs|
        invariant points == before + PointsOf(refs[..k], text) && AllDistinct(points) && seen == set p | p in points
      {
        var point := (refs[k], text);
        assert PointsOf(refs[..k + 1], text) == PointsOf(refs[..k], text) + [point];
        assert points + [point] == before + PointsOf(refs[..k + 1], text);
        DistinctOneMore(points, point);
        if point in seen {
          RestOfPoints(drafts, rules, i, k, before);
          return false;
        }
        seen, points := seen + {point}, points + [point];
      }
      assert refs[..|refs|] == refs;
    }
    assert drafts[..|drafts|] == drafts;
    return true;
  }

  lemma EmptyDistinct()
    ensures AllDistinct<(string, string)>([])
  {
  }

  /** A repetition among the first points is a repetition among all of them. */
  lemma RestOfPoints(drafts: seq<Draft>, rules: Rules, i: nat, k: nat, before: seq<(string, string)>)
    requires i < |drafts| && k < |drafts[i].sourceRefs| && before == SourcePoints(drafts[..i], rules)
    requires !AllDistinct(before + PointsOf(drafts[i].sourceRefs[..k + 1], rules.trim(drafts[i].sourceText)))
    ensures !AllDistinct(SourcePoints(drafts, rules))
  {
    hide AllDistinct;
    var refs, text := drafts[i].sourceRefs, rules.trim(drafts[i].sourceText);
    var all := SourcePoints(drafts[..i + 1], rules);
    assert drafts[..i + 1][..i] == drafts[..i];
    assert all == before + PointsOf(refs, text);
    assert PointsOf(refs, text) == PointsOf(refs[..k + 1], text) + PointsOf(refs[k + 1..], text);
    assert all == (before + PointsOf(refs[..k + 1], text)) + PointsOf(refs[k + 1..], text);
    DistinctPrefix(before + PointsOf(refs[..k + 1], text), PointsOf(refs[k + 1..], text));
    PrefixPoints(drafts, rules, i + 1);
  }

  lemma {:induction false} PrefixPoints(drafts: seq<Draft>, rules: Rules, i: nat)
    requires i <= |drafts|
    ensures AllDistinct(SourcePoints(drafts, rules)) ==> AllDistinct(SourcePoints(drafts[..i], rules))
    decreases |drafts|
  {
    hide AllDistinct;
    if i < |drafts| {
      var front := drafts[..|drafts| - 1];
      DistinctPrefix(SourcePoints(front, rules),
          PointsOf(drafts[|drafts| - 1].sourceRefs, rules.trim(drafts[|drafts| - 1].sourceText)));
      PrefixPoints(front, rules, i);
      assert front[..i] == drafts[..i];
    } else {
      assert drafts[..i] == drafts;
    }
  }

  /** A matrix is accepted exactly when its versions are given and it has criteria, none split too far, and all
      its trees are valid with distinct temporary ids. The accepted matrix has distinct printed ids, in preorder. */
  method Canonicalize(profileVersion: string, policyVersion: string, drafts: seq<Draft>, rules: Rules)
      returns (result: Result<seq<Criterion>>)
    ensures result.Ok? <==>
      && rules.trim(profileVersion) != "" && drafts != [] && AllDistinct(SourcePoints(drafts, rules))
      && (forall i :: 0 <= i < |drafts| ==> TreeValid(drafts[i], rules)) && AllDistinct(ForestIds(drafts))
      && rules.trim(policyVersion) != ""
    ensures result.Ok? ==>
        result.value == CompiledForest(drafts, [], 1, rules) && AllDistinct(AllCriterionIds(result.value))
    ensures result.Ok? ==> forall i :: 0 <= i < |result.value| ==> HardExactly(result.value[i], rules)
    ensures rules.trim(profileVersion) == "" ==> result == Err("MATRIX_PROFILE_VERSION_INVALID")
    ensures rules.trim(profileVersion) != "" && drafts == [] ==> result == Err("MATRIX_CRITERIA_EMPTY")
    ensures rules.trim(profileVersion) != "" && !AllDistinct(SourcePoints(drafts, rules)) ==>
              result == Err("MATRIX_OVER_SPLIT")
  {
    hide AllDistinct, TreeValid, HardExactly, TreeIds, Compiled, CompiledForest, SourcePoints, AllCriterionIds;
    if rules.trim(profileVersion) == "" { return Err("MATRIX_PROFILE_VERSION_INVALID"); }
    NothingSplit(drafts, rules);
    if drafts == [] { return Err("MATRIX_CRITERIA_EMPTY"); }
    var apart := CheckSplit(drafts, rules);
    if !apart { return Err("MATRIX_OVER_SPLIT"); }
    var validator := new DraftValidator(rules);
    var criteria: seq<Criterion> := [];
    NothingTaken(drafts, {});
    var i := 0;
    while i < |drafts|
      invariant 0 <= i <= |drafts| && |criteria| == i && validator.rules == rules
      invariant forall j ::
          0 <= j < i ==> TreeValid(drafts[j], rules) && criteria[j] == Compiled(drafts[j], [] + [1 + j], rules)
      invariant FreshIds(ForestIds(drafts[..i]), {}) && validator.ids == set x | x in ForestIds(drafts[..i])
    {
      ForestIdsSplit(drafts, i);
      FreshApart(ForestIds(drafts[..i]), TreeIds(drafts[i]), {});
      FreshPrefix(drafts, i + 1, {});
      var child := validator.ValidateNode(drafts[i], [1 + i]);
      if child.Err? { return Err(child.code); }
      assert [] + [1 + i] == [1 + i];
      criteria := criteria + [child.value];
      i := i + 1;
    }
    assert drafts[..i] == drafts;
    CompiledOneByOne(drafts, criteria, rules);
    IdsAreDistinct(drafts, rules);
    if rules.trim(policyVersion) == "" { return Err("MATRIX_POLICY_VERSION_INVALID"); }
    return Ok(criteria);
  }

  lemma NothingSplit(drafts: seq<Draft>, rules: Rules)
    ensures drafts == [] ==> AllDistinct(SourcePoints(drafts, rules))
  {
  }

  lemma {:induction false} CompiledOneByOne(drafts: seq<Draft>, criteria: seq<Criterion>, rules: Rules)
    requires |criteria| == |drafts|
    requires forall j ::
        0 <= j < |drafts| ==> TreeValid(drafts[j], rules) && criteria[j] == Compiled(drafts[j], [] + [1 + j], rules)
    ensures criteria == CompiledForest(drafts, [], 1, rules)
    ensures forall j :: 0 <= j < |criteria| ==> HardExactly(criteria[j], rules)
  {
    hide TreeValid, HardExactly, Compiled;
    forall j | 0 <= j < |drafts|
      ensures criteria[j] == CompiledForest(drafts, [], 1, rules)[j] && HardExactly(criteria[j], rules)
    {
      CompiledAt(drafts, [], 1, rules, j);
      HardRequiredIsExact(drafts[j], [] + [1 + j], rules);
    }
  }
}
