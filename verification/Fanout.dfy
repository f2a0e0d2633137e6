/** Fan-out descriptors and joins have one canonical form. */
module Fanout {
  import opened Wrappers

  type Order = (string, string) -> bool

  /** The locale order, as an abstract strict total order. */
  ghost predicate TotalOrder(less: Order) {
    && (forall a: string :: !less(a, a))
    && (forall a: string, b: string :: a == b || less(a, b) || less(b, a))
    && (forall a: string, b: string, c: string :: less(a, b) && less(b, c) ==> less(a, c))
  }

  datatype ShardInput = ShardInput(identity: string, required: Option<bool>, dependsOn: seq<string>, payload: string)

  datatype ShardDescriptor = ShardDescriptor(identity: string, ordinal: nat, required: bool, dependsOn: seq<string>,
      payload: string)

  // ---------------------------------------------------------------------------------------------
  // Sorting by identity
  // ---------------------------------------------------------------------------------------------

  /** Insertion keeps items of equal identity in their order of arrival. */
  function Insert(x: ShardInput, sorted: seq<ShardInput>, less: Order): seq<ShardInput> {
    if sorted == [] then [x]
    else if less(sorted[0].identity, x.identity) then [sorted[0]] + Insert(x, sorted[1..], less)
    else [x] + sorted
  }

  function Sort(s: seq<ShardInput>, less: Order): seq<ShardInput> {
    if s == [] then [] else Insert(s[0], Sort(s[1..], less), less)
  }

  /** None of the items comes before `x`. */
  ghost predicate NoneBefore(s: seq<ShardInput>, x: ShardInput, less: Order) {
    forall y :: y in s ==> !less(y.identity, x.identity)
  }

  ghost predicate Ascending(s: seq<ShardInput>, less: Order) {
    s == [] || (NoneBefore(s[1..], s[0], less) && Ascending(s[1..], less))
  }

  lemma OrderChains(less: Order, a: string, b: string, c: string)
    requires TotalOrder(less) && !less(b, a) && !less(c, b)
    ensures !less(c, a)
  {
    assert b == c || less(b, c);
    assert less(b, c) && less(c, a) ==> less(b, a);
  }

  lemma OrderAsymmetric(less: Order, a: string, b: string)
    requires TotalOrder(less) && less(a, b)
    ensures !less(b, a)
  {
    assert less(a, b) && less(b, a) ==> less(a, a);
  }

  lemma OrderIrreflexive(less: Order, a: string)
    requires TotalOrder(less)
    ensures !less(a, a)
  {
  }

  lemma OrderDecides(less: Order, a: string, b: string)
    requires TotalOrder(less) && !less(a, b) && !less(b, a)
    ensures a == b
  {
  }

  lemma {:induction false} InsertMembers(x: ShardInput, sorted: seq<ShardInput>, less: Order)
    ensures multiset(Insert(x, sorted, less)) == multiset(sorted) + multiset{x}
  {
    if sorted != [] && less(sorted[0].identity, x.identity) {
      InsertMembers(x, sorted[1..], less);
      assert sorted == [sorted[0]] + sorted[1..];
    }
  }

  lemma InsertedNoneBefore(x: ShardInput, sorted: seq<ShardInput>, y: ShardInput, less: Order)
    requires NoneBefore(sorted, y, less) && !less(x.identity, y.identity)
    ensures NoneBefore(Insert(x, sorted, less), y, less)
  {
    InsertMembers(x, sorted, less);
    forall z | z in Insert(x, sorted, less)
      ensures !less(z.identity, y.identity)
    {
      assert z in multiset(Insert(x, sorted, less));
    }
  }

  lemma {:induction false} InsertAscends(x: ShardInput, sorted: seq<ShardInput>, less: Order)
    requires TotalOrder(less) && Ascending(sorted, less)
    ensures Ascending(Insert(x, sorted, less), less)
  {
    hide TotalOrder;
    if sorted == [] {
    } else if less(sorted[0].identity, x.identity) {
      InsertAscends(x, sorted[1..], less);
      OrderAsymmetric(less, sorted[0].identity, x.identity);
      InsertedNoneBefore(x, sorted[1..], sorted[0], less);
    } else {
      forall y | y in sorted
        ensures !less(y.identity, x.identity)
      {
        if y != sorted[0] {
          assert y in sorted[1..];
          OrderChains(less, x.identity, sorted[0].identity, y.identity);
        }
      }
      assert ([x] + sorted)[1..] == sorted;
    }
  }

  lemma {:induction false} SortSorts(s: seq<ShardInput>, less: Order)
    requires TotalOrder(less)
    ensures Ascending(Sort(s, less), less) && multiset(Sort(s, less)) == multiset(s)
  {
    hide TotalOrder, Ascending, Insert;
    if s == [] {
      NoneAscends(less);
    } else {
      SortSorts(s[1..], less);
      InsertAscends(s[0], Sort(s[1..], less), less);
      InsertMembers(s[0], Sort(s[1..], less), less);
      assert s == [s[0]] + s[1..];
    }
  }

  lemma NoneAscends(less: Order)
    ensures Ascending([], less)
  {
  }

  ghost predicate DistinctIdentities(s: seq<ShardInput>) {
    forall i, j :: 0 <= i < j < |s| ==> s[i].identity != s[j].identity
  }

  lemma SameIdentityOnce(s: seq<ShardInput>, x: ShardInput, y: ShardInput)
    requires DistinctIdentities(s) && x in s && y in s
    ensures x.identity == y.identity ==> x == y
  {
    var i :| 0 <= i < |s| && s[i] == x;
    var j :| 0 <= j < |s| && s[j] == y;
    assert i < j ==> s[i].identity != s[j].identity;
    assert j < i ==> s[j].identity != s[i].identity;
  }

  /** Two ascending arrangements of the same items, none sharing an identity, are the same. */
  lemma {:induction false} OneAscendingOrder(a: seq<ShardInput>, b: seq<ShardInput>, less: Order)
    requires TotalOrder(less) && Ascending(a, less) && Ascending(b, less) && multiset(a) == multiset(b)
        && DistinctIdentities(a)
    ensures a == b
  {
    hide TotalOrder, DistinctIdentities;
    assert |multiset(a)| == |a| && |multiset(b)| == |b|;
    if a != [] {
      SameFirst(a, b, less);
      assert a == [a[0]] + a[1..] && b == [b[0]] + b[1..];
      assert multiset(a[1..]) == multiset(a) - multiset{a[0]} && multiset(b[1..]) == multiset(b) - multiset{b[0]};
      DistinctTail(a);
      OneAscendingOrder(a[1..], b[1..], less);
    }
  }

  lemma DistinctTail(a: seq<ShardInput>)
    requires DistinctIdentities(a) && a != []
    ensures DistinctIdentities(a[1..])
  {
  }

  lemma {:induction false} SameFirst(a: seq<ShardInput>, b: seq<ShardInput>, less: Order)
    requires TotalOrder(less) && Ascending(a, less) && Ascending(b, less) && DistinctIdentities(a)
    requires a != [] && b != [] && multiset(a) == multiset(b)
    ensures a[0] == b[0]
  {
    hide TotalOrder, DistinctIdentities;
    assert b[0] in multiset(b) && a[0] in multiset(a);
    OrderIrreflexive(less, a[0].identity);
    assert b[0] == a[0] || b[0] in a[1..];
    assert a[0] == b[0] || a[0] in b[1..];
    OrderDecides(less, a[0].identity, b[0].identity);
    SameIdentityOnce(a, a[0], b[0]);
  }

  lemma {:induction false} OnceEach(s: seq<ShardInput>, x: ShardInput)
    requires DistinctIdentities(s)
    ensures multiset(s)[x] <= 1
  {
    if s != [] {
      OnceEach(s[1..], x);
      assert s == [s[0]] + s[1..];
      if x == s[0] {
        assert forall j :: 1 <= j < |s| ==> s[j] != s[0];
        assert x !in s[1..];
      }
    }
  }

  lemma PermutedDistinct(a: seq<ShardInput>, b: seq<ShardInput>)
    requires multiset(a) == multiset(b) && DistinctIdentities(a)
    ensures DistinctIdentities(b)
  {
    forall i, j | 0 <= i < j < |b|
      ensures b[i].identity != b[j].identity
    {
      DifferentItems(a, b, i, j);
      assert b[i] in multiset(b) && b[j] in multiset(b);
      SameIdentityOnce(a, b[i], b[j]);
    }
  }

  lemma DifferentItems(a: seq<ShardInput>, b: seq<ShardInput>, i: nat, j: nat)
    requires multiset(a) == multiset(b) && DistinctIdentities(a) && i < j < |b|
    ensures b[i] != b[j]
  {
    OnceEach(a, b[j]);
    assert b == b[..j] + [b[j]] + b[j + 1..];
    assert b[i] in b[..j] && b[i] in multiset(b[..j]);
  }

  // ---------------------------------------------------------------------------------------------
  // Descriptors
  // ---------------------------------------------------------------------------------------------

  predicate Blank(s: string) {
    forall c :: c in s ==> c in " \t\n\r"
  }

  predicate DependenciesValid(x: ShardInput) {
    forall d :: d in x.dependsOn ==> !Blank(d) && d != x.identity
  }

  function Identities(s: seq<ShardInput>): set<string> {
    set x | x in s :: x.identity
  }

  /** Identities are present and distinct; dependencies name other shards of the group. */
  ghost predicate WellFormed(s: seq<ShardInput>) {
    && DistinctIdentities(s)
    && (forall x :: x in s ==> !Blank(x.identity) && DependenciesValid(x) && forall d ::
        d in x.dependsOn ==> d in Identities(s))
  }

  function Described(x: ShardInput, ordinal: nat): ShardDescriptor {
    ShardDescriptor(x.identity, ordinal, x.required != Some(false), x.dependsOn, x.payload)
  }

  ghost function Descriptor(inputs: seq<ShardInput>, less: Order): (shards: seq<ShardDescriptor>) {
    var sorted := Sort(inputs, less);
    seq(|sorted|, k requires 0 <= k < |sorted| => Described(sorted[k], k))
  }

  method CreateDescriptor(inputs: seq<ShardInput>, less: Order) returns (result: Result<seq<ShardDescriptor>>)
    requires TotalOrder(less)
    ensures result.Ok? <==> WellFormed(inputs)
    ensures result.Ok? ==> result.value == Descriptor(inputs, less)
  {
    hide TotalOrder, Sort, WellFormed, Identities;
    var sorted := Sort(inputs, less);
    SortSorts(inputs, less);
    SameWellFormed(inputs, sorted);
    WellFormedParts(sorted);
    var code, identities, shards := Number(sorted);
    if code != "" { return Err(code); }
    var known := KnownDependencies(sorted, identities);
    if !known { return Err("FANOUT_SHARD_DEPENDENCY_UNKNOWN"); }
    assert shards == Descriptor(inputs, less);
    return Ok(shards);
  }

  /** Numbers the sorted shards and collects their identities. */
  method Number(sorted: seq<ShardInput>) returns (code: string, identities: set<string>, shards: seq<ShardDescriptor>)
    ensures code == "" ==> identities == Identities(sorted) && |shards| == |sorted| && forall j ::
        0 <= j < |sorted| ==> shards[j] == Described(sorted[j], j)
    ensures code == "" <==> DistinctIdentities(sorted) && forall j ::
        0 <= j < |sorted| ==> !Blank(sorted[j].identity) && DependenciesValid(sorted[j])
  {
    identities, shards := {}, [];
    for k := 0 to |sorted|
      invariant |shards| == k && forall id :: id in identities <==> exists j :: 0 <= j < k && sorted[j].identity == id
      invariant forall i, j :: 0 <= i < j < k ==> sorted[i].identity != sorted[j].identity
      invariant forall j ::
          0 <= j < k ==>
          !Blank(sorted[j].identity) && DependenciesValid(sorted[j]) && shards[j] == Described(sorted[j], j)
    {
      if Blank(sorted[k].identity) || sorted[k].identity in identities {
        return "FANOUT_SHARD_IDENTITY_INVALID", identities, shards;
      }
      identities := identities + {sorted[k].identity};
      if !DependenciesValid(sorted[k]) { return "FANOUT_SHARD_DEPENDENCY_INVALID", identities, shards; }
      shards := shards + [Described(sorted[k], k)];
    }
    return "", identities, shards;
  }

  method KnownDependencies(sorted: seq<ShardInput>, identities: set<string>) returns (ok: bool)
    ensures ok <==> forall j, d :: 0 <= j < |sorted| && d in sorted[j].dependsOn ==> d in identities
  {
    for k := 0 to |sorted|
      invariant forall j, d :: 0 <= j < k && d in sorted[j].dependsOn ==> d in identities
    {
      if exists d :: d in sorted[k].dependsOn && d !in identities { return false; }
    }
    return true;
  }

  lemma WellFormedParts(s: seq<ShardInput>)
    ensures WellFormed(s) <==>
      && DistinctIdentities(s)
      && (forall j :: 0 <= j < |s| ==> !Blank(s[j].identity) && DependenciesValid(s[j]))
      && (forall j, d :: 0 <= j < |s| && d in s[j].dependsOn ==> d in Identities(s))
  {
    hide Identities, Blank, DependenciesValid, DistinctIdentities;
    assert forall j :: 0 <= j < |s| ==> s[j] in s;
  }

  lemma SameWellFormed(a: seq<ShardInput>, b: seq<ShardInput>)
    requires multiset(a) == multiset(b)
    ensures WellFormed(a) <==> WellFormed(b)
    ensures |a| == |b| && Identities(a) == Identities(b)
  {
    assert |multiset(a)| == |a| && |multiset(b)| == |b|;
    assert forall x :: x in a <==> x in multiset(a);
    assert forall x :: x in b <==> x in multiset(b);
    assert Identities(a) == Identities(b);
    if DistinctIdentities(a) { PermutedDistinct(a, b); }
    if DistinctIdentities(b) { PermutedDistinct(b, a); }
  }

  lemma {:induction false} StrictlyAscending(s: seq<ShardInput>, less: Order, j: nat, k: nat)
    requires TotalOrder(less) && Ascending(s, less) && DistinctIdentities(s) && j < k < |s|
    ensures less(s[j].identity, s[k].identity)
  {
    if j == 0 {
      assert s[k] in s[1..];
      assert s[0].identity != s[k].identity;
    } else {
      DistinctTail(s);
      StrictlyAscending(s[1..], less, j - 1, k - 1);
    }
  }

  /** Every permutation of the inputs is accepted or refused alike, and gives the same descriptor, with
      ordinals from 0 in the order of the identities. */
  lemma DescriptorIsCanonical(a: seq<ShardInput>, b: seq<ShardInput>, less: Order)
    requires TotalOrder(less) && multiset(a) == multiset(b)
    ensures WellFormed(a) <==> WellFormed(b)
    ensures WellFormed(a) ==> Descriptor(a, less) == Descriptor(b, less)
    ensures forall k :: 0 <= k < |Descriptor(a, less)| ==> Descriptor(a, less)[k].ordinal == k
    ensures WellFormed(a) ==> forall j, k ::
        0 <= j < k < |Descriptor(a, less)| ==> less(Descriptor(a, less)[j].identity, Descriptor(a, less)[k].identity)
  {
    hide TotalOrder, Sort, Identities, DistinctIdentities;
    SameWellFormed(a, b);
    SortSorts(a, less);
    SortSorts(b, less);
    if WellFormed(a) {
      PermutedDistinct(a, Sort(a, less));
      OneAscendingOrder(Sort(a, less), Sort(b, less), less);
      forall j, k | 0 <= j < k < |Descriptor(a, less)|
        ensures less(Descriptor(a, less)[j].identity, Descriptor(a, less)[k].identity)
      {
        StrictlyAscending(Sort(a, less), less, j, k);
      }
    }
  }

  // ---------------------------------------------------------------------------------------------
  // Joins
  // ---------------------------------------------------------------------------------------------

  datatype ShardResult = ShardResult(shardIdentity: string, output: string)

  ghost predicate DistinctResults(results: seq<ShardResult>) {
    forall i, j :: 0 <= i < j < |results| ==> results[i].shardIdentity != results[j].shardIdentity
  }

  /** One result for each required shard, none twice, none for a shard that is not expected. */
  ghost predicate Joinable(expected: seq<ShardDescriptor>, results: seq<ShardResult>) {
    && DistinctResults(results)
    && (forall x :: x in expected && x.required ==> exists r :: r in results && r.shardIdentity == x.identity)
    && (forall r :: r in results ==> exists x :: x in expected && x.identity == r.shardIdentity)
  }

  function Joined(expected: seq<ShardDescriptor>, byIdentity: map<string, ShardResult>): seq<ShardResult> {
    if expected == [] then []
    else (if expected[0].identity in byIdentity then [byIdentity[expected[0].identity]] else [])
          + Joined(expected[1..], byIdentity)
  }

  function ByIdentity(results: seq<ShardResult>): map<string, ShardResult> {
    if results == [] then map[]
        else ByIdentity(results[..|results| - 1])[results[|results| - 1].shardIdentity := results[|results| - 1]]
  }

  lemma {:induction false} ByIdentityExactly(results: seq<ShardResult>)
    requires DistinctResults(results)
    ensures forall id :: id in ByIdentity(results) <==> exists r :: r in results && r.shardIdentity == id
    ensures forall r ::
        r in results ==> r.shardIdentity in ByIdentity(results) && ByIdentity(results)[r.shardIdentity] == r
  {
    if results != [] {
      var front, last := results[..|results| - 1], results[|results| - 1];
      assert results == front + [last];
      ByIdentityExactly(front);
      assert forall i :: 0 <= i < |front| ==> front[i].shardIdentity != last.shardIdentity;
    }
  }

  predicate AllPresent(expected: seq<ShardDescriptor>, byIdentity: map<string, ShardResult>) {
    forall x :: x in expected && x.required ==> x.identity in byIdentity
  }

  predicate AllExpected(expected: seq<ShardDescriptor>, byIdentity: map<string, ShardResult>) {
    forall id :: id in byIdentity ==> exists x :: x in expected && x.identity == id
  }

  lemma JoinableParts(expected: seq<ShardDescriptor>, results: seq<ShardResult>)
    requires DistinctResults(results)
    ensures Joinable(expected, results)
        <==> AllPresent(expected, ByIdentity(results)) && AllExpected(expected, ByIdentity(results))
  {
    ByIdentityExactly(results);
    hide ByIdentity, DistinctResults;
  }

  method CanonicalJoin(expected: seq<ShardDescriptor>, results: seq<ShardResult>)
      returns (result: Result<seq<ShardResult>>)
    ensures result.Ok? <==> Joinable(expected, results)
    ensures result.Ok? ==> result.value == Joined(expected, ByIdentity(results))
    ensures result == Err("FANOUT_DUPLICATE_SHARD_RESULT") <==> !DistinctResults(results)
  {
    hide Joinable, AllPresent, AllExpected;
    var distinct, byIdentity := IndexResults(results);
    if !distinct {
      NotJoinable(expected, results);
      return Err("FANOUT_DUPLICATE_SHARD_RESULT");
    }
    JoinableParts(expected, results);
    if !AllPresent(expected, byIdentity) { return Err("FANOUT_REQUIRED_SHARD_MISSING"); }
    if !AllExpected(expected, byIdentity) { return Err("FANOUT_UNKNOWN_SHARD_RESULT"); }
    return Ok(Joined(expected, byIdentity));
  }

  lemma NotJoinable(expected: seq<ShardDescriptor>, results: seq<ShardResult>)
    ensures Joinable(expected, results) ==> DistinctResults(results)
  {
  }

  method IndexResults(results: seq<ShardResult>) returns (distinct: bool, byIdentity: map<string, ShardResult>)
    ensures distinct <==> DistinctResults(results)
    ensures distinct ==> byIdentity == ByIdentity(results)
  {
    hide ByIdentity;
    byIdentity := map[];
    NoResults();
    assert results[..0] == [];
    for i := 0 to |results|
      invariant byIdentity == ByIdentity(results[..i]) && DistinctResults(results[..i])
    {
      ByIdentityExactly(results[..i]);
      if results[i].shardIdentity in byIdentity {
        var r :| r in results[..i] && r.shardIdentity == results[i].shardIdentity;
        var k :| 0 <= k < i && results[..i][k] == r;
        assert results[k].shardIdentity == results[i].shardIdentity;
        return false, byIdentity;
      }
      OneMoreResult(results, i);
      byIdentity := byIdentity[results[i].shardIdentity := results[i]];
    }
    assert results[..|results|] == results;
    return true, byIdentity;
  }

  lemma NoResults()
    ensures ByIdentity([]) == map[] && DistinctResults([])
  {
  }

  lemma OneMoreResult(results: seq<ShardResult>, i: nat)
    requires i < |results| && DistinctResults(results[..i]) && forall r ::
        r in results[..i] ==> r.shardIdentity != results[i].shardIdentity
    ensures DistinctResults(results[..i + 1])
    ensures ByIdentity(results[..i + 1]) == ByIdentity(results[..i])[results[i].shardIdentity := results[i]]
  {
    assert results[..i + 1][..i] == results[..i];
    forall j, k | 0 <= j < k < i + 1
      ensures results[j].shardIdentity != results[k].shardIdentity
    {
      assert results[..i][j] == results[j] && results[j] in results[..i];
      if k < i { assert results[..i][k] == results[k]; }
    }
  }

  lemma DistinctPermuted(a: seq<ShardResult>, b: seq<ShardResult>)
    requires multiset(a) == multiset(b) && DistinctResults(a)
    ensures DistinctResults(b)
  {
    forall i, j | 0 <= i < j < |b|
      ensures b[i].shardIdentity != b[j].shardIdentity
    {
      assert b[i] in multiset(a) && b[j] in multiset(a);
      if b[i] == b[j] { OnceInDistinct(a, b, i, j); }
    }
  }

  lemma OnceInDistinct(a: seq<ShardResult>, b: seq<ShardResult>, i: nat, j: nat)
    requires multiset(a) == multiset(b) && DistinctResults(a) && i < j < |b|
    ensures b[i] != b[j]
  {
    SingleInDistinct(a, b[j]);
    assert b == b[..j] + [b[j]] + b[j + 1..];
    assert b[i] in b[..j] && b[i] in multiset(b[..j]);
  }

  lemma {:induction false} SingleInDistinct(a: seq<ShardResult>, r: ShardResult)
    requires DistinctResults(a)
    ensures multiset(a)[r] <= 1
  {
    if a != [] {
      var front, last := a[..|a| - 1], a[|a| - 1];
      assert a == front + [last];
      SingleInDistinct(front, r);
      assert forall i :: 0 <= i < |front| ==> front[i].shardIdentity != last.shardIdentity;
      if last == r { assert r !in front; }
    }
  }

  lemma SameIndex(a: seq<ShardResult>, b: seq<ShardResult>)
    requires multiset(a) == multiset(b) && DistinctResults(a)
    ensures ByIdentity(a) == ByIdentity(b)
  {
    DistinctPermuted(a, b);
    ByIdentityExactly(a);
    ByIdentityExactly(b);
    assert forall r :: r in a <==> r in multiset(a);
    assert forall r :: r in b <==> r in multiset(b);
    assert forall id :: id in ByIdentity(a) <==> id in ByIdentity(b);
    forall id | id in ByIdentity(a)
      ensures ByIdentity(a)[id] == ByIdentity(b)[id]
    {
      var r :| r in a && r.shardIdentity == id;
      assert r in b;
    }
  }

  /** Every permutation of the results is joined or refused alike, with the same output. */
  lemma {:induction false} JoinIsCanonical(expected: seq<ShardDescriptor>, a: seq<ShardResult>, b: seq<ShardResult>)
    requires multiset(a) == multiset(b)
    ensures Joinable(expected, a) <==> Joinable(expected, b)
    ensures Joinable(expected, a) ==> Joined(expected, ByIdentity(a)) == Joined(expected, ByIdentity(b))
  {
    assert forall r :: r in a <==> r in multiset(a);
    assert forall r :: r in b <==> r in multiset(b);
    if DistinctResults(a) {
      DistinctPermuted(a, b);
      SameIndex(a, b);
    }
    if DistinctResults(b) { DistinctPermuted(b, a); }
  }

  /** The output follows the descriptor: it has, in descriptor order, exactly the expected shards that
      have a result, each once. */
  lemma {:induction false} JoinFollowsDescriptor(expected: seq<ShardDescriptor>, byIdentity: map<string, ShardResult>)
      returns (from: seq<nat>)
    requires forall id :: id in byIdentity ==> byIdentity[id].shardIdentity == id
    ensures |from| == |Joined(expected, byIdentity)|
    ensures forall k ::
        0 <= k < |from| ==>
        from[k] < |expected| && Joined(expected, byIdentity)[k].shardIdentity == expected[from[k]].identity
    ensures forall j, k :: 0 <= j < k < |from| ==> from[j] < from[k]
    ensures forall i :: 0 <= i < |expected| && expected[i].identity in byIdentity ==> i in from
  {
    if expected == [] {
      from := [];
    } else {
      var rest := JoinFollowsDescriptor(expected[1..], byIdentity);
      from := (if expected[0].identity in byIdentity then [0] else []) + Shifted(rest);
      FollowsOneMore(expected, byIdentity, rest, from);
    }
  }

  function Shifted(s: seq<nat>): (t: seq<nat>)
    ensures |t| == |s| && forall k :: 0 <= k < |s| ==> t[k] == s[k] + 1
  {
    seq(|s|, k requires 0 <= k < |s| => s[k] + 1)
  }

  lemma FollowsOneMore(expected: seq<ShardDescriptor>, byIdentity: map<string, ShardResult>, rest: seq<nat>,
      from: seq<nat>)
    requires expected != [] && from == (if expected[0].identity in byIdentity then [0] else []) + Shifted(rest)
    requires forall i :: 0 <= i < |expected[1..]| && expected[1..][i].identity in byIdentity ==> i in rest
    ensures forall i :: 0 <= i < |expected| && expected[i].identity in byIdentity ==> i in from
  {
    forall i | 0 <= i < |expected| && expected[i].identity in byIdentity
      ensures i in from
    {
      if i > 0 {
        assert expected[1..][i - 1].identity in byIdentity;
        var k :| 0 <= k < |rest| && rest[k] == i - 1;
        assert Shifted(rest)[k] == i;
      } else {
        assert from[0] == 0;
      }
    }
  }
}
