// Reachability over a finite relation, by chains.
module Closure {
  import opened Domain

  type Edges = map<TaskId, set<TaskId>>

  ghost predicate LeadsOn(edges: Edges, p: seq<TaskId>, k: nat)
    requires k < |p| - 1
  {
    p[k] in edges && p[k + 1] in edges[p[k]]
  }

  // Each node of p leads to the next.
  ghost predicate IsChain(edges: Edges, p: seq<TaskId>) {
    forall k: nat :: k < |p| - 1 ==> LeadsOn(edges, p, k)
  }

  ghost predicate ChainFromTo(edges: Edges, p: seq<TaskId>, a: TaskId, b: TaskId) {
    |p| >= 2 && p[0] == a && p[|p| - 1] == b && IsChain(edges, p)
  }

  // b is reached from a in one or more steps.
  ghost predicate Reaches(edges: Edges, a: TaskId, b: TaskId) {
    exists p :: ChainFromTo(edges, p, a, b)
  }

  lemma ChainTail(edges: Edges, p: seq<TaskId>, j: nat)
    requires IsChain(edges, p) && j <= |p|
    ensures IsChain(edges, p[j..])
  {
    forall k: nat | k < |p[j..]| - 1
      ensures LeadsOn(edges, p[j..], k)
    {
      assert LeadsOn(edges, p, j + k);
    }
  }

  lemma ChainJoin(edges: Edges, p: seq<TaskId>, q: seq<TaskId>)
    requires IsChain(edges, p) && IsChain(edges, q) && |p| >= 1 && |q| >= 1
    requires p[|p| - 1] in edges && q[0] in edges[p[|p| - 1]]
    ensures IsChain(edges, p + q)
  {
    var r := p + q;
    forall k: nat | k < |r| - 1
      ensures LeadsOn(edges, r, k)
    {
      if k < |p| - 1 {
        assert LeadsOn(edges, p, k);
      } else if k >= |p| {
        assert LeadsOn(edges, q, k - |p|);
      }
    }
  }

  lemma ReachesStep(edges: Edges, a: TaskId, b: TaskId)
    requires a in edges && b in edges[a]
    ensures Reaches(edges, a, b)
  {
    assert ChainFromTo(edges, [a, b], a, b);
  }

  lemma ReachesTransitive(edges: Edges, a: TaskId, b: TaskId, c: TaskId)
    requires Reaches(edges, a, b) && Reaches(edges, b, c)
    ensures Reaches(edges, a, c)
  {
    var p :| ChainFromTo(edges, p, a, b);
    var q :| ChainFromTo(edges, q, b, c);
    assert LeadsOn(edges, q, 0);
    ChainTail(edges, q, 1);
    ChainJoin(edges, p, q[1..]);
    assert ChainFromTo(edges, p + q[1..], a, c);
  }

  // A chain starts with one step, and the rest of it is empty or a chain.
  lemma ReachesUnfold(edges: Edges, a: TaskId, b: TaskId) returns (m: TaskId)
    requires Reaches(edges, a, b)
    ensures a in edges && m in edges[a] && (m == b || Reaches(edges, m, b))
  {
    var p :| ChainFromTo(edges, p, a, b);
    assert LeadsOn(edges, p, 0);
    m := p[1];
    if |p| > 2 {
      ChainTail(edges, p, 1);
      assert ChainFromTo(edges, p[1..], m, b);
    }
  }

  // S contains the successors of each of its members.
  ghost predicate ClosedUnder(edges: Edges, S: set<TaskId>) {
    forall x :: x in S && x in edges ==> edges[x] <= S
  }

  // A closed set that contains the first step contains everything reached.
  lemma ReachesStaysIn(edges: Edges, S: set<TaskId>, a: TaskId, b: TaskId)
    requires a in edges && edges[a] <= S && ClosedUnder(edges, S)
    requires Reaches(edges, a, b)
    ensures b in S
  {
    var p :| ChainFromTo(edges, p, a, b);
    assert LeadsOn(edges, p, 0);
    ChainTail(edges, p, 1);
    ChainStaysIn(edges, S, p[1..]);
  }

  lemma {:induction false} ChainStaysIn(edges: Edges, S: set<TaskId>, p: seq<TaskId>)
    requires |p| >= 1 && p[0] in S && IsChain(edges, p) && ClosedUnder(edges, S)
    ensures p[|p| - 1] in S
  {
    if |p| > 1 {
      assert LeadsOn(edges, p, 0);
      ChainTail(edges, p, 1);
      ChainStaysIn(edges, S, p[1..]);
    }
  }

  // ---------- ranks ----------

  // A topological rank: every step goes down.
  ghost predicate Ranks(edges: Edges, rank: map<TaskId, nat>) {
    rank.Keys == edges.Keys &&
    forall a, b :: a in edges && b in edges[a] ==> b in edges && rank[b] < rank[a]
  }

  ghost predicate Acyclic(edges: Edges) {
    exists rank :: Ranks(edges, rank)
  }

  lemma {:induction false} RankDescends(edges: Edges, rank: map<TaskId, nat>, p: seq<TaskId>)
    requires Ranks(edges, rank) && |p| >= 2 && IsChain(edges, p)
    ensures p[0] in rank && p[|p| - 1] in rank && rank[p[|p| - 1]] < rank[p[0]]
    decreases |p|
  {
    assert LeadsOn(edges, p, 0);
    if |p| > 2 {
      ChainTail(edges, p, 1);
      RankDescends(edges, rank, p[1..]);
    }
  }

  // With a rank, nothing reaches itself.
  lemma AcyclicIrreflexive(edges: Edges, a: TaskId)
    requires Acyclic(edges)
    ensures !Reaches(edges, a, a)
  {
    var rank :| Ranks(edges, rank);
    if Reaches(edges, a, a) {
      var p :| ChainFromTo(edges, p, a, a);
      RankDescends(edges, rank, p);
    }
  }

  // ---------- restriction to a closed part ----------

  // small is the part of large on some of its nodes.
  ghost predicate IsPart(small: Edges, large: Edges) {
    forall x :: x in small ==> x in large && small[x] == large[x] && small[x] <= small.Keys
  }

  lemma {:induction false} ChainInPart(small: Edges, large: Edges, p: seq<TaskId>)
    requires IsPart(small, large) && |p| >= 1 && p[0] in small && IsChain(large, p)
    ensures IsChain(small, p)
    decreases |p|
  {
    if |p| >= 2 {
      assert LeadsOn(large, p, 0);
      ChainTail(large, p, 1);
      ChainInPart(small, large, p[1..]);
      ChainJoin(small, [p[0]], p[1..]);
      assert p == [p[0]] + p[1..];
    }
  }

  lemma ChainInWhole(small: Edges, large: Edges, p: seq<TaskId>)
    requires IsPart(small, large) && IsChain(small, p)
    ensures IsChain(large, p)
  {
    forall k: nat | k < |p| - 1
      ensures LeadsOn(large, p, k)
    {
      assert LeadsOn(small, p, k);
    }
  }

  // From a node of the part, the part and the whole reach the same nodes.
  lemma ReachesInPart(small: Edges, large: Edges, a: TaskId, b: TaskId)
    requires IsPart(small, large) && a in small
    ensures Reaches(small, a, b) <==> Reaches(large, a, b)
  {
    if Reaches(small, a, b) {
      var p :| ChainFromTo(small, p, a, b);
      ChainInWhole(small, large, p);
      assert ChainFromTo(large, p, a, b);
    }
    if Reaches(large, a, b) {
      var p :| ChainFromTo(large, p, a, b);
      ChainInPart(small, large, p);
      assert ChainFromTo(small, p, a, b);
    }
  }

  lemma AcyclicInPart(small: Edges, large: Edges)
    requires IsPart(small, large) && Acyclic(large)
    ensures Acyclic(small)
  {
    var rank :| Ranks(large, rank);
    var part := map x | x in small :: rank[x];
    forall a, b | a in small && b in small[a]
      ensures b in small && part[b] < part[a]
    {
    }
    assert Ranks(small, part);
  }
}
