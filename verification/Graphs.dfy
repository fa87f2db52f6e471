/** Directed graphs over identifiers: walks, reachability, cycles, and topological sorting. */
module Graphs {
  import opened Common

  ghost predicate IsWalk(E: set<Link>, w: seq<Id>) {
    |w| > 0 && forall i :: 0 <= i < |w| - 1 ==> (w[i], w[i + 1]) in E
  }

  ghost predicate IsWalkBetween(E: set<Link>, w: seq<Id>, x: Id, y: Id) {
    IsWalk(E, w) && w[0] == x && w[|w| - 1] == y
  }

  ghost predicate Reaches(E: set<Link>, x: Id, y: Id) {
    exists w :: IsWalkBetween(E, w, x, y)
  }

  ghost predicate IsCycle(E: set<Link>, w: seq<Id>) {
    IsWalk(E, w) && |w| > 1 && w[0] == w[|w| - 1]
  }

  ghost predicate Cyclic(E: set<Link>) {
    exists w :: IsCycle(E, w)
  }

  lemma EmptyIsAcyclic(E: set<Link>)
    requires E == {}
    ensures !Cyclic(E)
  {
    forall w ensures !IsCycle(E, w) {
      if |w| > 1 {
        assert (w[0], w[1]) !in E;
      }
    }
  }

  // Every edge runs between listed nodes.
  ghost predicate Over(E: set<Link>, nodes: set<Id>) {
    forall e :: e in E ==> e.0 in nodes && e.1 in nodes
  }

  lemma ReachesSelf(E: set<Link>, x: Id)
    ensures Reaches(E, x, x)
  {
    assert IsWalkBetween(E, [x], x, x);
  }

  lemma ReachesStep(E: set<Link>, u: Id, x: Id, y: Id)
    requires (u, x) in E && Reaches(E, x, y)
    ensures Reaches(E, u, y)
  {
    var w :| IsWalkBetween(E, w, x, y);
    assert IsWalkBetween(E, [u] + w, u, y);
  }

  // A set closed under predecessors holds the source of every walk that ends in it.
  lemma {:induction false} ClosedUnderReach(E: set<Link>, S: set<Id>, w: seq<Id>)
    requires IsWalk(E, w) && w[|w| - 1] in S
    requires forall e :: e in E && e.1 in S ==> e.0 in S
    ensures w[0] in S
    decreases |w|
  {
    if |w| > 1 {
      assert (w[|w| - 2], w[|w| - 1]) in E;
      ClosedUnderReach(E, S, w[..|w| - 1]);
    }
  }

  // ----- Topological sort -----

  ghost predicate Ordered(E: set<Link>, s: seq<Id>) {
    forall i, j :: 0 <= i < |s| && 0 <= j < |s| && (s[i], s[j]) in E ==> i < j
  }

  ghost predicate IsTopologicalOrder(nodes: set<Id>, E: set<Link>, s: seq<Id>) {
    NoDup(s) && Elements(s) == nodes && Ordered(E, s)
  }

  lemma {:induction false} OrderedWalk(E: set<Link>, s: seq<Id>, w: seq<Id>, i: nat)
    requires NoDup(s) && Ordered(E, s) && Over(E, Elements(s))
    requires IsWalk(E, w) && |w| > 1 && i < |s| && s[i] == w[0]
    ensures exists j :: i < j < |s| && s[j] == w[|w| - 1]
    decreases |w|
  {
    assert (w[0], w[1]) in E;
    assert w[1] in s;
    var k :| 0 <= k < |s| && s[k] == w[1];
    if |w| > 2 {
      OrderedWalk(E, s, w[1..], k);
    }
  }

  lemma SortedIsAcyclic(nodes: set<Id>, E: set<Link>, s: seq<Id>)
    requires IsTopologicalOrder(nodes, E, s) && Over(E, nodes)
    ensures !Cyclic(E)
  {
    if w :| IsCycle(E, w) {
      assert (w[0], w[1]) in E;
      assert w[0] in s;
      var i :| 0 <= i < |s| && s[i] == w[0];
      OrderedWalk(E, s, w, i);
      assert false;
    }
  }

  predicate IsSource(E: set<Link>, S: set<Id>, v: Id) {
    v in S && forall u :: u in S ==> (u, v) !in E
  }

  ghost predicate Sourceless(E: set<Link>, S: set<Id>) {
    forall v {:trigger IsSource(E, S, v)} :: !IsSource(E, S, v)
  }

  // In a set without sources one can walk backwards forever,
  lemma {:induction false} BackwardWalk(E: set<Link>, S: set<Id>, n: nat) returns (w: seq<Id>)
    requires S != {} && Sourceless(E, S)
    ensures IsWalk(E, w) && |w| == n + 1 && Elements(w) <= S
  {
    if n == 0 {
      var v :| v in S;
      w := [v];
    } else {
      var tail := BackwardWalk(E, S, n - 1);
      assert tail[0] in Elements(tail) && !IsSource(E, S, tail[0]);
      var u :| u in S && (u, tail[0]) in E;
      w := [u] + tail;
    }
  }

  // and so, the set being finite, revisits a node.
  lemma NoSourceIsCyclic(E: set<Link>, S: set<Id>)
    requires S != {} && Sourceless(E, S)
    ensures Cyclic(E)
  {
    var w := BackwardWalk(E, S, |S|);
    if NoDup(w) {
      NoDupCardinality(w);
      SubsetCount(Elements(w), S);
      assert false;
    }
    var i, j :| 0 <= i < j < |w| && w[i] == w[j];
    assert IsCycle(E, w[i..j + 1]);
  }

  lemma {:induction false} SubsetCount<T(!new)>(a: set<T>, b: set<T>)
    requires a <= b
    ensures |a| <= |b|
  {
    if x :| x in a {
      SubsetCount(a - {x}, b - {x});
    }
  }

  // Kahn's algorithm: repeatedly take a node all of whose predecessors are taken. Which one is left open.
  method TopologicalSort(nodes: set<Id>, E: set<Link>) returns (r: Option<seq<Id>>)
    requires Over(E, nodes)
    ensures r.Some? <==> !Cyclic(E)
    ensures r.Some? ==> IsTopologicalOrder(nodes, E, r.value)
  {
    var sorted: seq<Id> := [];
    var rest := nodes;
    while exists v :: v in rest && IsSource(E, rest, v)
      invariant NoDup(sorted) && Elements(sorted) + rest == nodes && Elements(sorted) !! rest
      invariant Ordered(E, sorted)
      invariant forall e :: e in E && e.1 in sorted ==> e.0 in sorted
      decreases rest
    {
      var v :| v in rest && IsSource(E, rest, v);
      assert Elements(sorted + [v]) == Elements(sorted) + {v};
      sorted, rest := sorted + [v], rest - {v};
    }
    if rest == {} {
      SortedIsAcyclic(nodes, E, sorted);
      r := Some(sorted);
    } else {
      NoSourceIsCyclic(E, rest);
      r := None;
    }
  }
}
