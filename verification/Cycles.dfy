/** Expansion preserves and reflects cycles between operators. */
module Cycles {
  import opened Common
  import opened Models
  import opened Graphs
  import opened Expansion
  import opened Wiring
  import opened PipelineGraph
  import opened Expander
  import opened RoundTrip

  function LinkOf(P: CanonicalPipeline, e: CanonicalEdge): Link
    requires IsPortEdge(P, e)
  {
    (PortOf(P, e.inputId).operatorId, PortOf(P, e.outputId).operatorId)
  }

  // The user's operator graph: A feeds B when some edge runs from a port of A to a port of B.
  function CanonicalLinks(P: CanonicalPipeline): set<Link> {
    set e | e in P.edges && IsPortEdge(P, e) :: LinkOf(P, e)
  }

  // The links that survive expansion: all but a loop on an operator with a single replica.
  ghost function EffectiveLinks(x: Run): set<Link>
    requires WellFormed(x.P)
  {
    set l | l in CanonicalLinks(x.P) && (l.0 == l.1 ==> l.0 in OperatorIds(x.P.operators) && x.Count(l.0) != 1)
  }

  lemma LinkEndsListed(P: CanonicalPipeline, l: Link)
    requires WellFormed(P) && l in CanonicalLinks(P)
    ensures l.0 in OperatorIds(P.operators) && l.1 in OperatorIds(P.operators)
  {
    var e :| e in P.edges && IsPortEdge(P, e) && l == LinkOf(P, e);
  }

  // Two replicas are linked exactly when they differ and their operators are linked.
  lemma LinkIff(x: Run, m: map<Id, RuntimePort>, a: RuntimeOperator, b: RuntimeOperator)
    requires x.Valid() && Indexes(m, x.Ports()) && a in x.Operators() && b in x.Operators()
    ensures (a.id, b.id) in OperatorLinks(m, x.Edges())
       <==> a.id != b.id && (a.canonicalId, b.canonicalId) in CanonicalLinks(x.P)
  {
    if (a.id, b.id) in OperatorLinks(m, x.Edges()) {
      var e :| e in x.Edges() && CrossesOperators(m, e) && (a.id, b.id) == (m[e.0].operatorId, m[e.1].operatorId);
      LinkProjects(x, m, e, a, b);
    }
    if a.id != b.id && (a.canonicalId, b.canonicalId) in CanonicalLinks(x.P) {
      var e :| e in x.P.edges && IsPortEdge(x.P, e) && (a.canonicalId, b.canonicalId) == LinkOf(x.P, e);
      LinkLifts(x, m, e, a, b);
    }
  }

  lemma LinkProjects(x: Run, m: map<Id, RuntimePort>, e: Link, a: RuntimeOperator, b: RuntimeOperator)
    requires x.Valid() && Indexes(m, x.Ports()) && a in x.Operators() && b in x.Operators()
    requires e in x.Edges() && CrossesOperators(m, e) && a.id == m[e.0].operatorId && b.id == m[e.1].operatorId
    ensures (a.canonicalId, b.canonicalId) in CanonicalLinks(x.P)
  {
    var s, d := m[e.0], m[e.1];
    PortEdgeIff(x, s, d);
    var sp, sr := PortOrigin(x, s);
    var dp, dr := PortOrigin(x, d);
    OperatorsDistinct(x);
    OperatorLookup(x.Operators(), a);
    OperatorLookup(x.Operators(), b);
    var c := CanonicalEdge(s.canonicalId, d.canonicalId);
    assert c in x.P.edges && IsPortEdge(x.P, c) && LinkOf(x.P, c) == (a.canonicalId, b.canonicalId);
  }

  lemma LinkLifts(x: Run, m: map<Id, RuntimePort>, e: CanonicalEdge, a: RuntimeOperator, b: RuntimeOperator)
    requires x.Valid() && Indexes(m, x.Ports()) && a in x.Operators() && b in x.Operators() && a.id != b.id
    requires e in x.P.edges && IsPortEdge(x.P, e) && LinkOf(x.P, e) == (a.canonicalId, b.canonicalId)
    ensures (a.id, b.id) in OperatorLinks(m, x.Edges())
  {
    var sp, dp := PortOf(x.P, e.inputId), PortOf(x.P, e.outputId);
    ServingTargetOffered(x, e);
    var s := PortExists(x, sp, a, ServingTarget(x.P, e));
    TargetsNonEmpty(x, dp);
    assert x.TargetsOf(dp)[0] in x.TargetsOf(dp);
    var d := PortExists(x, dp, b, x.TargetsOf(dp)[0]);
    PortEdgeIff(x, s, d);
    assert CanonicalEdge(s.canonicalId, d.canonicalId) == e;
    var l := (s.id, d.id);
    assert l in x.Edges() && CrossesOperators(m, l);
  }

  // Both ends of a runtime link are replicas.
  lemma LinkEnds(x: Run, m: map<Id, RuntimePort>, l: Link) returns (a: RuntimeOperator, b: RuntimeOperator)
    requires x.Valid() && Indexes(m, x.Ports()) && l in OperatorLinks(m, x.Edges())
    ensures a in x.Operators() && b in x.Operators() && l == (a.id, b.id) && a.id != b.id
    ensures LookupOperator(x.Operators(), l.0) == Some(a) && LookupOperator(x.Operators(), l.1) == Some(b)
  {
    var e :| e in x.Edges() && CrossesOperators(m, e) && l == (m[e.0].operatorId, m[e.1].operatorId);
    var sp, dp;
    sp, a := PortOrigin(x, m[e.0]);
    dp, b := PortOrigin(x, m[e.1]);
  }

  // ----- Runtime cycles come from canonical ones -----

  lemma {:induction false} PairNeedsTwo(s: set<Id>, a: Id, b: Id)
    requires a in s && b in s && a != b
    ensures |s| > 1
  {
    SubsetCount({a, b}, s);
  }

  lemma LinkIsEffective(x: Run, m: map<Id, RuntimePort>, l: Link)
    requires x.Valid() && Indexes(m, x.Ports()) && l in OperatorLinks(m, x.Edges())
    ensures LookupOperator(x.Operators(), l.0).Some? && LookupOperator(x.Operators(), l.1).Some?
    ensures (LookupOperator(x.Operators(), l.0).value.canonicalId, LookupOperator(x.Operators(), l.1).value.canonicalId)
         in EffectiveLinks(x)
  {
    var a, b := LinkEnds(x, m, l);
    LinkIff(x, m, a, b);
    LinkEndsListed(x.P, (a.canonicalId, b.canonicalId));
    if a.canonicalId == b.canonicalId {
      ReplicaIdCount(x, a.canonicalId);
      PairNeedsTwo(ReplicaIds(x, a.canonicalId), a.id, b.id);
    }
  }

  ghost function Origin(x: Run, id: Id): Id {
    var r := LookupOperator(x.Operators(), id);
    if r.Some? then r.value.canonicalId else 0
  }

  lemma CycleProjects(x: Run, m: map<Id, RuntimePort>, w: seq<Id>)
    requires x.Valid() && Indexes(m, x.Ports()) && IsCycle(OperatorLinks(m, x.Edges()), w)
    ensures Cyclic(EffectiveLinks(x))
  {
    var v := seq(|w|, i requires 0 <= i < |w| => Origin(x, w[i]));
    forall i | 0 <= i < |v| - 1 ensures (v[i], v[i + 1]) in EffectiveLinks(x) {
      LinkIsEffective(x, m, (w[i], w[i + 1]));
    }
    assert IsCycle(EffectiveLinks(x), v);
  }

  // ----- Canonical cycles lift -----

  lemma TwoReplicas(x: Run, op: Id) returns (a: RuntimeOperator, b: RuntimeOperator)
    requires x.Valid() && op in OperatorIds(x.P.operators) && x.Count(op) > 1
    ensures a in x.Operators() && b in x.Operators() && a.id != b.id && a.canonicalId == op && b.canonicalId == op
  {
    var c := OperatorNamed(x.P.operators, op);
    var i :| 0 <= i < |x.P.operators| && x.P.operators[i] == c;
    ReplicasAre(x.P.operators, x.factor, x.supply, i);
    var rs := ReplicasOf(x.Operators(), op);
    OperatorsDistinct(x);
    a, b := rs[0], rs[1];
    assert a in rs && b in rs;
  }

  lemma LoopLifts(x: Run, m: map<Id, RuntimePort>, op: Id)
    requires x.Valid() && x.factor > 0 && Indexes(m, x.Ports()) && (op, op) in EffectiveLinks(x)
    ensures Cyclic(OperatorLinks(m, x.Edges()))
  {
    var a, b := TwoReplicas(x, op);
    LinkIff(x, m, a, b);
    LinkIff(x, m, b, a);
    BackAndForth(OperatorLinks(m, x.Edges()), a.id, b.id);
  }

  lemma BackAndForth(E: set<Link>, a: Id, b: Id)
    requires (a, b) in E && (b, a) in E
    ensures Cyclic(E)
  {
    assert IsCycle(E, [a, b, a]);
  }

  // Some replica of an operator.
  ghost function Representative(x: Run, op: Id): RuntimeOperator
    requires exists r :: r in x.Operators() && r.canonicalId == op
  {
    var r :| r in x.Operators() && r.canonicalId == op;
    r
  }

  lemma LooplessCycleLifts(x: Run, m: map<Id, RuntimePort>, w: seq<Id>)
    requires x.Valid() && x.factor > 0 && Indexes(m, x.Ports()) && IsCycle(EffectiveLinks(x), w)
    requires forall i :: 0 <= i < |w| - 1 ==> w[i] != w[i + 1]
    ensures Cyclic(OperatorLinks(m, x.Edges()))
  {
    forall i | 0 <= i < |w| ensures exists r :: r in x.Operators() && r.canonicalId == w[i] {
      var j := if i < |w| - 1 then i else i - 1;
      assert (w[j], w[j + 1]) in EffectiveLinks(x);
      LinkEndsListed(x.P, (w[j], w[j + 1]));
      var r := ReplicaExists(x, w[i]);
    }
    var v := seq(|w|, i requires 0 <= i < |w| => Representative(x, w[i]).id);
    forall i | 0 <= i < |v| - 1 ensures (v[i], v[i + 1]) in OperatorLinks(m, x.Edges()) {
      var a, b := Representative(x, w[i]), Representative(x, w[i + 1]);
      assert (w[i], w[i + 1]) in EffectiveLinks(x);
      OperatorsDistinct(x);
      OperatorLookup(x.Operators(), a);
      OperatorLookup(x.Operators(), b);
      LinkIff(x, m, a, b);
    }
    assert IsCycle(OperatorLinks(m, x.Edges()), v);
  }

  // For all replica counts, the runtime operator graph has a cycle exactly when the effective user graph has one.
  lemma CyclesMatch(x: Run, m: map<Id, RuntimePort>)
    requires x.Valid() && x.factor > 0 && Indexes(m, x.Ports())
    ensures Cyclic(OperatorLinks(m, x.Edges())) <==> Cyclic(EffectiveLinks(x))
  {
    if w :| IsCycle(OperatorLinks(m, x.Edges()), w) {
      CycleProjects(x, m, w);
    }
    if w :| IsCycle(EffectiveLinks(x), w) {
      if i :| 0 <= i < |w| - 1 && w[i] == w[i + 1] {
        assert (w[i], w[i + 1]) in EffectiveLinks(x);
        LoopLifts(x, m, w[i]);
      } else {
        LooplessCycleLifts(x, m, w);
      }
    }
  }

  // No operator is wired to itself.
  ghost predicate NoSelfWiring(P: CanonicalPipeline) {
    forall l :: l in CanonicalLinks(P) ==> l.0 != l.1
  }

  lemma WithoutSelfWiring(x: Run)
    requires WellFormed(x.P) && NoSelfWiring(x.P)
    ensures EffectiveLinks(x) == CanonicalLinks(x.P)
  {
  }

  // A self-wired operator with one replica is a cycle the runtime graph does not show.
  lemma LostLoop(x: Run, m: map<Id, RuntimePort>, op: Id)
    requires x.Valid() && x.factor > 0 && Indexes(m, x.Ports())
    requires op in OperatorIds(x.P.operators) && x.Count(op) == 1 && CanonicalLinks(x.P) == {(op, op)}
    ensures Cyclic(CanonicalLinks(x.P)) && !Cyclic(OperatorLinks(m, x.Edges()))
  {
    assert IsCycle(CanonicalLinks(x.P), [op, op]);
    CyclesMatch(x, m);
    EmptyIsAcyclic(EffectiveLinks(x));
  }

  // One sequential operator whose output is wired to its own input.
  const SELF_WIRED := CanonicalPipeline(0, 1, [CanonicalOperator(1, [3], [2], {}, None, None, "")],
                                        [CanonicalPort(2, Output, 1, "out"), CanonicalPort(3, Input, 1, "in")],
                                        [CanonicalEdge(2, 3)])

  lemma SelfWiredLinks()
    ensures CanonicalLinks(SELF_WIRED) == {(1, 1)} && WellFormed(SELF_WIRED)
    ensures OperatorNamed(SELF_WIRED.operators, 1) == SELF_WIRED.operators[0]
  {
    var P := SELF_WIRED;
    assert P.ports[0] in P.ports && P.ports[1] in P.ports && P.operators[0] in P.operators;
    assert PortOf(P, 2) == P.ports[0] && PortOf(P, 3) == P.ports[1];
    assert P.edges[0] in P.edges && IsPortEdge(P, P.edges[0]) && LinkOf(P, P.edges[0]) == (1, 1);
  }

  // Expanded with any factor, it has a cycle, and its runtime graph has none.
  lemma SelfWiredLosesItsLoop(x: Run, m: map<Id, RuntimePort>)
    requires x.Valid() && x.P == SELF_WIRED && x.factor > 0 && Indexes(m, x.Ports())
    ensures Cyclic(CanonicalLinks(x.P)) && !Cyclic(EffectiveLinks(x)) && !Cyclic(OperatorLinks(m, x.Edges()))
  {
    SelfWiredLinks();
    LostLoop(x, m, 1);
    CyclesMatch(x, m);
  }

  // Expanding a pipeline and sorting its operators topologically fails exactly on an effective cycle.
  method SortOperators(P: CanonicalPipeline, runtimeId: Id, factor: nat, order: set<Id> -> seq<Id>, supply: nat -> Id)
    returns (r: Option<seq<Id>>)
    requires WellFormed(P) && IsOrder(order) && IsSupply(supply) && factor > 0
    ensures r.None? <==> Cyclic(EffectiveLinks(Run(P, factor, order, supply)))
    ensures NoSelfWiring(P) ==> (r.None? <==> Cyclic(CanonicalLinks(P)))
    ensures r.Some? ==> NoDup(r.value)
    ensures r.Some? ==> Elements(r.value) == set o | o in Run(P, factor, order, supply).Operators() :: o.id
  {
    ghost var x := Run(P, factor, order, supply);
    var g := ExpandCanonicalToRuntime(P, runtimeId, factor, order, supply);
    var graph := g.GetOperatorGraph();
    assert graph == Success(OperatorGraphOf(g.nodes, g.edges));
    ExpandedOperatorGraph(x, g);
    r := TopologicalSort(graph.value.nodes, graph.value.edges);
    CyclesMatch(x, PortsIn(g.nodes));
    if NoSelfWiring(P) {
      WithoutSelfWiring(x);
    }
  }

  lemma ExpandedOperatorGraph(x: Run, g: Pipeline)
    requires x.Valid() && Represents(g, Expand(x.P, x.factor, x.order, x.supply))
    ensures Indexes(PortsIn(g.nodes), x.Ports())
    ensures var graph := OperatorGraphOf(g.nodes, g.edges);
            && graph.edges == OperatorLinks(PortsIn(g.nodes), x.Edges())
            && Over(graph.edges, graph.nodes)
            && graph.nodes == set o | o in x.Operators() :: o.id
  {
    var m := PortsIn(g.nodes);
    var links := OperatorLinks(m, x.Edges());
    var ids := set o | o in x.Operators() :: o.id;
    var G := Expand(x.P, x.factor, x.order, x.supply);
    forall l | l in links ensures l.0 in ids && l.1 in ids {
      var a, b := LinkEnds(x, m, l);
    }
    assert OperatorsIn(g.nodes).Keys == ids by {
      forall n ensures n in ids <==> n in (set r | r in G.operators :: r.id) {
        if n in ids {
          var i :| 0 <= i < |x.Operators()| && x.Operators()[i].id == n;
          assert G.operators[i] in G.operators;
        }
        if n in (set r | r in G.operators :: r.id) {
          var i :| 0 <= i < |G.operators| && G.operators[i].id == n;
          assert x.Operators()[i] in x.Operators();
        }
      }
    }
  }
}
