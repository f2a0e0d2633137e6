/** Finite dependency graphs: a node maps to the nodes it depends on. */
module Graphs {

  type Graph<!K> = map<K, set<K>>

  /** Every nonempty set of nodes has a node that depends on none of them. */
  predicate Acyclic<K(!new,==)>(g: Graph<K>) {
    forall s: set<K> :: s <= g.Keys && s != {} ==> HasLeast(g, s)
  }

  predicate HasLeast<K(!new,==)>(g: Graph<K>, s: set<K>)
    requires s <= g.Keys
  {
    exists k :: k in s && g[k] !! s
  }

  /** `rank` strictly decreases along every dependency between nodes of the graph. */
  ghost predicate Ranks<K(!new)>(g: Graph<K>, rank: map<K, nat>) {
    && rank.Keys == g.Keys
    && forall k, d :: k in g && d in g[k] && d in g ==> rank[d] < rank[k]
  }

  lemma {:induction false} RankExists<K(!new)>(g: Graph<K>) returns (rank: map<K, nat>)
    requires Acyclic(g)
    ensures Ranks(g, rank)
    decreases |g|
  {
    if g.Keys == {} {
      rank := map[];
    } else {
      assert HasLeast(g, g.Keys);
      var k :| k in g.Keys && g[k] !! g.Keys;
      var rest := g - {k};
      assert g.Keys == rest.Keys + {k};
      forall s: set<K> | s <= rest.Keys && s != {}
        ensures HasLeast(rest, s)
      {
        assert HasLeast(g, s);
        var j :| j in s && g[j] !! s;
        assert rest[j] == g[j];
      }
      var below := RankExists(rest);
      rank := (map j | j in g :: if j == k then 0 else below[j] + 1);
    }
  }

  /** A set of ranked nodes has one of least rank. */
  lemma {:induction false} LeastRanked<K(!new)>(s: set<K>, rank: map<K, nat>) returns (k: K)
    requires s != {} && s <= rank.Keys
    ensures k in s && forall j :: j in s ==> rank[k] <= rank[j]
    decreases s
  {
    k :| k in s;
    if s != {k} {
      var other := LeastRanked(s - {k}, rank);
      if rank[other] < rank[k] {
        k := other;
      }
    }
  }

  lemma RankedIsAcyclic<K(!new)>(g: Graph<K>, rank: map<K, nat>)
    requires Ranks(g, rank)
    ensures Acyclic(g)
  {
    forall s: set<K> | s <= g.Keys && s != {}
      ensures HasLeast(g, s)
    {
      var k := LeastRanked(s, rank);
      assert g[k] !! s;
    }
  }
}
