/** Expanding a pipeline and reading the result back gives the pipeline again, whatever the parallel factor. */
module RoundTrip {
  import opened Common
  import opened Models
  import opened Expansion
  import opened Wiring
  import opened PipelineGraph
  import opened Expander

  // Only the first member of a new group is kept.
  lemma {:induction false} FirstsOfGroup<T(!new)>(kind: T -> Id, xs: seq<T>, group: seq<T>, k: Id)
    requires group != [] && k !in Kinds(kind, xs) && forall y :: y in group ==> kind(y) == k
    ensures Firsts(kind, xs + group) == Firsts(kind, xs) + [group[0]]
  {
    var front, last := group[..|group| - 1], group[|group| - 1];
    assert xs + group == (xs + front) + [last] && (xs + group)[..|xs + group| - 1] == xs + front;
    if front == [] {
      assert xs + front == xs;
    } else {
      FirstsOfGroup(kind, xs, front, k);
      assert front[0] in xs + front;
    }
  }

  // ----- Ports -----

  // Reading these runtime ports back gives these canonical ports.
  ghost predicate ReadBack(qs: seq<RuntimePort>, ports: seq<CanonicalPort>) {
    PortsToCanonical(Firsts(PortKind, qs)) == ports
  }

  // A non-empty run of copies of one port.
  ghost predicate IsRunOf(run: seq<RuntimePort>, port: CanonicalPort) {
    run != []
    && forall q {:trigger PortToCanonical(q)} :: q in run ==> q.canonicalId == port.id && PortToCanonical(q) == port
  }

  lemma {:induction false} PortsBack(ports: seq<CanonicalPort>, owners: Owners, targets: Targets, base: nat,
                                     supply: nat -> Id)
    requires UniquePorts(ports)
    requires forall p :: p in ports ==> |owners(p)| > 0 && |targets(p)| > 0
    ensures ReadBack(ExpandPorts(ports, owners, targets, base, supply), ports)
  {
    if ports != [] {
      var front, port := ports[..|ports| - 1], ports[|ports| - 1];
      assert ports == front + [port] && port in ports;
      PortsBack(front, owners, targets, base, supply);
      NextPortBack(front, port, owners, targets, base, supply);
    }
  }

  lemma NextPortBack(front: seq<CanonicalPort>, port: CanonicalPort, owners: Owners, targets: Targets, base: nat,
                     supply: nat -> Id)
    requires UniquePorts(front + [port])
    requires |owners(port)| > 0 && |targets(port)| > 0
    requires ReadBack(ExpandPorts(front, owners, targets, base, supply), front)
    ensures ReadBack(ExpandPorts(front + [port], owners, targets, base, supply), front + [port])
  {
    var init := ExpandPorts(front, owners, targets, base, supply);
    var run := PortCopies(port, owners(port), targets(port), base + |init|, supply);
    assert ExpandPorts(front + [port], owners, targets, base, supply) == init + run by {
      assert (front + [port])[..|front|] == front;
    }
    GroupOfPort(port, owners(port), targets(port), base + |init|, supply);
    NewPortKind(front, port, owners, targets, base, supply);
    RunReadBack(init, run, front, port);
  }

  lemma RunReadBack(init: seq<RuntimePort>, run: seq<RuntimePort>, front: seq<CanonicalPort>, port: CanonicalPort)
    requires ReadBack(init, front) && port.id !in Kinds(PortKind, init) && IsRunOf(run, port)
    ensures ReadBack(init + run, front + [port])
  {
    forall q | q in run ensures PortKind(q) == port.id {
      assert PortToCanonical(q) == port;
    }
    FirstsOfGroup(PortKind, init, run, port.id);
    assert run[0] in run && PortToCanonical(run[0]) == port;
  }

  lemma GroupOfPort(port: CanonicalPort, rs: seq<RuntimeOperator>, targets: seq<Option<Id>>, base: nat,
                    supply: nat -> Id)
    requires |rs| > 0 && |targets| > 0
    ensures IsRunOf(PortCopies(port, rs, targets, base, supply), port)
  {
    var run := PortCopies(port, rs, targets, base, supply);
    PortCopyIds(port, rs, targets, base, supply);
    assert |rs| * |targets| > 0;
    forall q | q in run ensures q.canonicalId == port.id && PortToCanonical(q) == port {
      PortCopySource(port, rs, targets, base, supply, q);
    }
  }

  lemma NewPortKind(front: seq<CanonicalPort>, port: CanonicalPort, owners: Owners, targets: Targets, base: nat,
                    supply: nat -> Id)
    requires UniquePorts(front + [port])
    ensures port.id !in Kinds(PortKind, ExpandPorts(front, owners, targets, base, supply))
  {
    var init := ExpandPorts(front, owners, targets, base, supply);
    forall q | q in init ensures q.canonicalId != port.id {
      ExpandedPortSource(front, owners, targets, base, supply, q);
      var p :| p in front && CopyAmong(q, p, owners(p), targets(p));
      var i :| 0 <= i < |front| && front[i] == p;
      assert (front + [port])[i].id != (front + [port])[|front|].id;
    }
  }

  // ----- Operators -----

  // The i-th kept operator is replica 0 of the i-th canonical operator.
  ghost predicate LeadsGroups(kept: seq<RuntimeOperator>, ops: seq<CanonicalOperator>, all: seq<RuntimeOperator>,
                              qs: seq<RuntimePort>)
  {
    |kept| == |ops| && forall i :: 0 <= i < |ops| ==> IsLeader(kept[i], ops[i], all, qs)
  }

  ghost predicate IsLeader(k: RuntimeOperator, op: CanonicalOperator, all: seq<RuntimeOperator>, qs: seq<RuntimePort>) {
    FromCanonical(op, k.id, 0) in all && k == Attach(FromCanonical(op, k.id, 0), qs)
  }

  lemma {:induction false} OperatorsBack(ops: seq<CanonicalOperator>, factor: nat, supply: nat -> Id,
                                         qs: seq<RuntimePort>)
    requires UniqueOperators(ops) && factor > 0
    ensures LeadsGroups(Firsts(OperatorKind, AttachAll(ExpandOperators(ops, factor, supply), qs)), ops,
                        ExpandOperators(ops, factor, supply), qs)
  {
    if ops != [] {
      var front, op := ops[..|ops| - 1], ops[|ops| - 1];
      OperatorsBack(front, factor, supply, qs);
      var init := ExpandOperators(front, factor, supply);
      var run := Replicas(op, ReplicaCount(op, factor), |init|, supply);
      assert ops == front + [op];
      NewOperatorKind(front, op, factor, supply, qs);
      NextOperatorBack(front, init, op, run, qs);
    }
  }

  lemma NextOperatorBack(front: seq<CanonicalOperator>, init: seq<RuntimeOperator>, op: CanonicalOperator,
                         run: seq<RuntimeOperator>, qs: seq<RuntimePort>)
    requires LeadsGroups(Firsts(OperatorKind, AttachAll(init, qs)), front, init, qs)
    requires op.id !in Kinds(OperatorKind, AttachAll(init, qs))
    requires run != [] && run[0] == FromCanonical(op, run[0].id, 0) && forall r :: r in run ==> r.canonicalId == op.id
    ensures LeadsGroups(Firsts(OperatorKind, AttachAll(init + run, qs)), front + [op], init + run, qs)
  {
    AttachConcat(init, run, qs);
    FirstsOfGroup(OperatorKind, AttachAll(init, qs), AttachAll(run, qs), op.id);
    var kept := Firsts(OperatorKind, AttachAll(init + run, qs));
    forall i | 0 <= i < |front| + 1 ensures IsLeader(kept[i], (front + [op])[i], init + run, qs) {
      if i < |front| {
        assert IsLeader(kept[i], front[i], init, qs);
      } else {
        assert run[0] in init + run;
      }
    }
  }

  lemma AttachConcat(a: seq<RuntimeOperator>, b: seq<RuntimeOperator>, qs: seq<RuntimePort>)
    ensures AttachAll(a + b, qs) == AttachAll(a, qs) + AttachAll(b, qs)
  {
  }

  lemma NewOperatorKind(front: seq<CanonicalOperator>, op: CanonicalOperator, factor: nat, supply: nat -> Id,
                        qs: seq<RuntimePort>)
    requires UniqueOperators(front + [op])
    ensures op.id !in Kinds(OperatorKind, AttachAll(ExpandOperators(front, factor, supply), qs))
  {
    var init := ExpandOperators(front, factor, supply);
    var attached := AttachAll(init, qs);
    forall r | r in attached ensures r.canonicalId != op.id {
      var j :| 0 <= j < |attached| && attached[j] == r;
      ExpandedOperatorSource(front, factor, supply, init[j]);
      var c :| c in front && init[j] == FromCanonical(c, init[j].id, init[j].parallelIndex);
      var i :| 0 <= i < |front| && front[i] == c;
      assert (front + [op])[i].id != (front + [op])[|front|].id;
    }
  }

  function OwnedPortIds(P: CanonicalPipeline, op: Id, t: PortType): set<Id> {
    set p | p in P.ports && p.operatorId == op && p.portType == t :: p.id
  }

  lemma TargetsNonEmpty(x: Run, port: CanonicalPort)
    requires IsOrder(x.order)
    ensures x.TargetsOf(port) != []
  {
  }

  lemma EntryIds(qs: seq<RuntimePort>)
    ensures CanonicalIds(MapEntries(qs)) == set q | q in qs :: q.canonicalId
  {
  }

  lemma OwnCopyIsOwned(x: Run, r: RuntimeOperator, t: PortType, q: RuntimePort)
    requires x.Valid() && r in x.Operators() && q in x.Ports() && OwnedBy(r.id, t)(q)
    ensures q.canonicalId in OwnedPortIds(x.P, r.canonicalId, t)
  {
    OperatorsDistinct(x);
    OperatorLookup(x.Operators(), r);
    var port, r' := PortOrigin(x, q);
  }

  lemma OwnedIsCopied(x: Run, r: RuntimeOperator, port: CanonicalPort) returns (q: RuntimePort)
    requires x.Valid() && r in x.Operators() && port in x.P.ports && port.operatorId == r.canonicalId
    ensures q in x.Ports() && OwnedBy(r.id, port.portType)(q) && q.canonicalId == port.id
  {
    TargetsNonEmpty(x, port);
    assert x.TargetsOf(port)[0] in x.TargetsOf(port);
    q := PortExists(x, port, r, x.TargetsOf(port)[0]);
  }

  // A replica's port maps name exactly the canonical ports its operator owns.
  lemma AttachedPortIds(x: Run, r: RuntimeOperator, t: PortType)
    requires x.Valid() && r in x.Operators()
    ensures CanonicalIds(MapEntries(Filter(OwnedBy(r.id, t), x.Ports()))) == OwnedPortIds(x.P, r.canonicalId, t)
  {
    var own := Filter(OwnedBy(r.id, t), x.Ports());
    EntryIds(own);
    forall q | q in own ensures q.canonicalId in OwnedPortIds(x.P, r.canonicalId, t) {
      OwnCopyIsOwned(x, r, t, q);
    }
    forall c | c in OwnedPortIds(x.P, r.canonicalId, t) ensures exists q :: q in own && q.canonicalId == c {
      var port :| port in x.P.ports && port.operatorId == r.canonicalId && port.portType == t && port.id == c;
      var q := OwnedIsCopied(x, r, port);
      assert q in own;
    }
  }

  // ----- Edges -----

  function PortEdges(P: CanonicalPipeline): set<CanonicalEdge> {
    set e | e in P.edges && IsPortEdge(P, e)
  }

  lemma ReplicaExists(x: Run, op: Id) returns (r: RuntimeOperator)
    requires x.Valid() && x.factor > 0 && op in OperatorIds(x.P.operators)
    ensures r in x.Operators() && r.canonicalId == op
  {
    var c := OperatorNamed(x.P.operators, op);
    var i :| 0 <= i < |x.P.operators| && x.P.operators[i] == c;
    ReplicasAre(x.P.operators, x.factor, x.supply, i);
    r := ReplicasOf(x.Operators(), op)[0];
    assert r in ReplicasOf(x.Operators(), op);
  }

  lemma EdgeRealised(x: Run, e: CanonicalEdge) returns (s: RuntimePort, d: RuntimePort)
    requires x.Valid() && x.factor > 0 && e in x.P.edges && IsPortEdge(x.P, e)
    ensures s in x.Ports() && d in x.Ports() && (s.id, d.id) in x.Edges()
    ensures s.canonicalId == e.inputId && d.canonicalId == e.outputId
  {
    var sp, dp := PortOf(x.P, e.inputId), PortOf(x.P, e.outputId);
    var a := ReplicaExists(x, sp.operatorId);
    var b := ReplicaExists(x, dp.operatorId);
    ServingTargetOffered(x, e);
    s := PortExists(x, sp, a, ServingTarget(x.P, e));
    TargetsNonEmpty(x, dp);
    assert x.TargetsOf(dp)[0] in x.TargetsOf(dp);
    d := PortExists(x, dp, b, x.TargetsOf(dp)[0]);
    PortEdgeIff(x, s, d);
    assert CanonicalEdge(s.canonicalId, d.canonicalId) == e;
  }

  // A dictionary of exactly the expansion's ports.
  ghost predicate Indexes(m: map<Id, RuntimePort>, qs: seq<RuntimePort>) {
    && (forall q :: q in qs ==> q.id in m && m[q.id] == q)
    && (forall n :: n in m ==> m[n] in qs && m[n].id == n)
  }

  lemma EdgesBack(x: Run, m: map<Id, RuntimePort>)
    requires x.Valid() && x.factor > 0 && Indexes(m, x.Ports())
    ensures CanonicalEdges(m, x.Edges()) == PortEdges(x.P)
  {
    forall e | e in CanonicalEdges(m, x.Edges()) ensures e in PortEdges(x.P) {
      var l :| l in x.Edges() && l.0 in m && l.1 in m && e == CanonicalEdge(m[l.0].canonicalId, m[l.1].canonicalId);
      PortEdgeIff(x, m[l.0], m[l.1]);
    }
    forall e | e in PortEdges(x.P) ensures e in CanonicalEdges(m, x.Edges()) {
      var s, d := EdgeRealised(x, e);
      var l := (s.id, d.id);
      assert l in x.Edges() && l.0 in m && l.1 in m;
    }
  }

  // ----- The round trip -----

  // `Q` is `P` with every operator's port lists recomputed from ownership and its port-to-port edges listed once each.
  ghost predicate SamePipeline(P: CanonicalPipeline, Q: CanonicalPipeline, order: set<Id> -> seq<Id>) {
    && Q.id == P.id && Q.revisionId == P.revisionId
    && Q.ports == P.ports
    && |Q.operators| == |P.operators|
    && (forall i :: 0 <= i < |P.operators| ==> Q.operators[i] == WithOwnedPorts(P, P.operators[i], order))
    && NoDup(Q.edges) && Elements(Q.edges) == PortEdges(P)
  }

  function WithOwnedPorts(P: CanonicalPipeline, op: CanonicalOperator, order: set<Id> -> seq<Id>): CanonicalOperator {
    op.(inputs := order(OwnedPortIds(P, op.id, Input)), outputs := order(OwnedPortIds(P, op.id, Output)))
  }

  lemma ModelsBack(x: Run)
    requires x.Valid() && x.factor > 0
    ensures var G := Expand(x.P, x.factor, x.order, x.supply);
            && PortsToCanonical(Firsts(PortKind, G.ports)) == x.P.ports
            && var back := OperatorsToCanonical(Firsts(OperatorKind, G.operators), x.order);
               |back| == |x.P.operators|
               && forall i :: 0 <= i < |back| ==> back[i] == WithOwnedPorts(x.P, x.P.operators[i], x.order)
  {
    var G := Expand(x.P, x.factor, x.order, x.supply);
    var owners, targets := OwnersIn(x.Operators()), TargetsIn(x.P, x.order);
    forall p | p in x.P.ports ensures |owners(p)| > 0 && |targets(p)| > 0 {
      var r := ReplicaExists(x, p.operatorId);
      assert r in owners(p);
      TargetsNonEmpty(x, p);
    }
    PortsBack(x.P.ports, owners, targets, |x.Operators()|, x.supply);
    OperatorsBack(x.P.operators, x.factor, x.supply, x.Ports());
    var kept := Firsts(OperatorKind, G.operators);
    forall i | 0 <= i < |kept|
      ensures OperatorToCanonical(kept[i], x.order) == WithOwnedPorts(x.P, x.P.operators[i], x.order)
    {
      var r := FromCanonical(x.P.operators[i], kept[i].id, 0);
      assert IsLeader(kept[i], x.P.operators[i], x.Operators(), x.Ports());
      AttachedPortIds(x, r, Input);
      AttachedPortIds(x, r, Output);
    }
  }

  // For every well-formed pipeline and every factor of at least one, there and back is the identity.
  method ExpandAndReadBack(P: CanonicalPipeline, runtimeId: Id, factor: nat, order: set<Id> -> seq<Id>,
                           supply: nat -> Id)
    returns (r: Result<CanonicalPipeline, GraphError>)
    requires WellFormed(P) && IsOrder(order) && IsSupply(supply) && factor > 0
    ensures r.Success? && SamePipeline(P, r.value, order)
  {
    var g := ExpandCanonicalToRuntime(P, runtimeId, factor, order, supply);
    r := g.ToCanonical(order);
    SameBack(Run(P, factor, order, supply), PortsIn(g.nodes), r.value);
  }

  lemma SameBack(x: Run, m: map<Id, RuntimePort>, Q: CanonicalPipeline)
    requires x.Valid() && x.factor > 0 && Indexes(m, x.Ports())
    requires Q.id == x.P.id && Q.revisionId == x.P.revisionId
    requires var G := Expand(x.P, x.factor, x.order, x.supply);
             && Q.operators == OperatorsToCanonical(Firsts(OperatorKind, G.operators), x.order)
             && Q.ports == PortsToCanonical(Firsts(PortKind, G.ports))
             && NoDup(Q.edges) && Elements(Q.edges) == CanonicalEdges(m, G.edges)
    ensures SamePipeline(x.P, Q, x.order)
  {
    ModelsBack(x);
    EdgesBack(x, m);
  }
}
