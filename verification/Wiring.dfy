/** Exact wiring of an expansion: which runtime edges exist, how many, and where targeted ports lead. */
module Wiring {
  import opened Common
  import opened Models
  import opened Expansion

  // One expansion: a pipeline, a parallel factor, an iteration order for sets, and a supply of fresh identifiers.
  datatype Run = Run(P: CanonicalPipeline, factor: nat, order: set<Id> -> seq<Id>, supply: nat -> Id) {
    ghost predicate Valid() {
      WellFormed(P) && IsOrder(order) && IsSupply(supply)
    }

    // The operators before their port maps are attached; attaching changes neither identity nor origin.
    function Operators(): seq<RuntimeOperator> {
      ExpandOperators(P.operators, factor, supply)
    }

    function Ports(): seq<RuntimePort> {
      Expand(P, factor, order, supply).ports
    }

    function Edges(): set<Link> {
      Expand(P, factor, order, supply).edges
    }

    function TargetsOf(port: CanonicalPort): seq<Option<Id>> {
      PortTargets(P, port, order)
    }

    // How many replicas an operator has.
    function Count(op: Id): nat
      requires op in OperatorIds(P.operators)
    {
      ReplicaCount(OperatorNamed(P.operators, op), factor)
    }
  }

  // Every well-formed pipeline can be expanded with every factor: iteration orders and supplies exist.
  lemma EveryPipelineExpands(P: CanonicalPipeline, factor: nat)
    requires WellFormed(P)
    ensures exists x: Run :: x.Valid() && x.P == P && x.factor == factor
  {
    var order := (s: set<Id>) => Listing(s);
    var supply := (n: nat) => n;
    assert forall s :: IsListing(order(s), s);
    assert IsOrder(order) && IsSupply(supply);
    assert Run(P, factor, order, supply).Valid();
  }

  // ----- Identity -----

  lemma OperatorsDistinct(x: Run)
    requires IsSupply(x.supply)
    ensures DistinctOperators(x.Operators())
    ensures forall c :: DistinctOperators(ReplicasOf(x.Operators(), c))
  {
    var rs := x.Operators();
    ExpandedOperatorIds(x.P.operators, x.factor, x.supply);
    forall i, j | 0 <= i < j < |rs| ensures rs[i].id != rs[j].id {
      assert rs[i].id == x.supply(i) && rs[j].id == x.supply(j);
    }
    forall c ensures DistinctOperators(ReplicasOf(x.Operators(), c)) {
      FilterDistinct(x.Operators(), c);
    }
  }

  lemma {:induction false} FilterDistinct(rs: seq<RuntimeOperator>, c: Id)
    requires DistinctOperators(rs)
    ensures DistinctOperators(ReplicasOf(rs, c))
  {
    if rs != [] {
      var front, last := rs[..|rs| - 1], rs[|rs| - 1];
      FilterDistinct(front, c);
      forall r | r in ReplicasOf(front, c) ensures r.id != last.id {
        assert r in front;
      }
    }
  }

  lemma NodesDistinct(x: Run)
    requires IsSupply(x.supply)
    ensures var ops, qs := x.Operators(), x.Ports();
            && (forall i, j :: 0 <= i < j < |qs| ==> qs[i].id != qs[j].id)
            && (forall r, q :: r in ops && q in qs ==> r.id != q.id)
  {
    var ops, qs := x.Operators(), x.Ports();
    ExpandedOperatorIds(x.P.operators, x.factor, x.supply);
    ExpandedPortIds(x.P.ports, OwnersIn(ops), TargetsIn(x.P, x.order), |ops|, x.supply);
    forall i, j | 0 <= i < |ops| && 0 <= j < |qs| ensures ops[i].id != qs[j].id {
      assert qs[j].id == x.supply(|ops| + j);
    }
    forall i, j | 0 <= i < j < |qs| ensures qs[i].id != qs[j].id {
      assert qs[i].id == x.supply(|ops| + i) && qs[j].id == x.supply(|ops| + j);
    }
  }

  lemma OperatorLookup(ops: seq<RuntimeOperator>, r: RuntimeOperator)
    requires DistinctOperators(ops) && r in ops
    ensures LookupOperator(ops, r.id) == Some(r)
  {
  }

  // ----- Parts -----

  lemma TargetsDistinct(x: Run, port: CanonicalPort)
    requires IsOrder(x.order)
    ensures NoDup(x.TargetsOf(port))
  {
    assert NoDup(x.order(Fanout(x.P, port)));
  }

  lemma NoPartRepeats(x: Run)
    requires x.Valid()
    ensures NoPartTwice(x.Ports())
  {
    var ops := x.Operators();
    OperatorsDistinct(x);
    forall p | p in x.P.ports ensures DistinctOperators(OwnersIn(ops)(p)) && NoDup(TargetsIn(x.P, x.order)(p)) {
      TargetsDistinct(x, p);
    }
    ExpandedPortsDistinct(x.P.ports, OwnersIn(ops), TargetsIn(x.P, x.order), |ops|, x.supply);
  }

  // Where a runtime port comes from.
  lemma PortOrigin(x: Run, q: RuntimePort)
    returns (port: CanonicalPort, r: RuntimeOperator)
    requires x.Valid() && q in x.Ports()
    ensures port in x.P.ports && r in x.Operators() && r.canonicalId == port.operatorId
    ensures q.target in x.TargetsOf(port) && IsCopy(q, port, r, q.target)
    ensures LookupOperator(x.Operators(), q.operatorId) == Some(r)
    ensures q.canonicalId in PortIds(x.P.ports) && PortOf(x.P, q.canonicalId) == port
  {
    var ops := x.Operators();
    ExpandedPortSource(x.P.ports, OwnersIn(ops), TargetsIn(x.P, x.order), |ops|, x.supply, q);
    port, r := CopyOrigin(q, x.P.ports, ops, TargetsIn(x.P, x.order));
    OperatorsDistinct(x);
    OperatorLookup(ops, r);
    PortOfListed(x.P, port);
  }

  lemma CopyOrigin(q: RuntimePort, ports: seq<CanonicalPort>, ops: seq<RuntimeOperator>, targets: Targets)
    returns (port: CanonicalPort, r: RuntimeOperator)
    requires CopyOfListed(q, ports, OwnersIn(ops), targets)
    ensures port in ports && r in ops && r.canonicalId == port.operatorId
    ensures q.target in targets(port) && IsCopy(q, port, r, q.target)
  {
    port :| port in ports && CopyAmong(q, port, OwnersIn(ops)(port), targets(port));
    var t;
    r, t :| r in OwnersIn(ops)(port) && t in targets(port) && IsCopy(q, port, r, t);
  }

  lemma PortOfListed(P: CanonicalPipeline, port: CanonicalPort)
    requires UniquePorts(P.ports) && port in P.ports
    ensures port.id in PortIds(P.ports) && PortOf(P, port.id) == port
  {
  }

  lemma PortExists(x: Run, port: CanonicalPort, r: RuntimeOperator, t: Option<Id>)
    returns (q: RuntimePort)
    requires x.Valid()
    requires port in x.P.ports && r in x.Operators() && r.canonicalId == port.operatorId
    requires t in x.TargetsOf(port)
    ensures q in x.Ports() && IsCopy(q, port, r, t)
  {
    var ops := x.Operators();
    assert r in OwnersIn(ops)(port);
    ExpandedPortCovers(x.P.ports, OwnersIn(ops), TargetsIn(x.P, x.order), |ops|, x.supply, port, r, t);
    q :| q in x.Ports() && IsCopy(q, port, r, t);
  }

  // The target a source copy must carry to serve edge `e`: its destination's operator, if the source is an output.
  function ServingTarget(P: CanonicalPipeline, e: CanonicalEdge): Option<Id>
    requires IsPortEdge(P, e)
  {
    Some(if PortOf(P, e.inputId).portType == Output then PortOf(P, e.outputId).operatorId
         else PortOf(P, e.inputId).operatorId)
  }

  lemma ServingTargetOffered(x: Run, e: CanonicalEdge)
    requires IsOrder(x.order) && e in x.P.edges && IsPortEdge(x.P, e)
    ensures ServingTarget(x.P, e) in x.TargetsOf(PortOf(x.P, e.inputId))
  {
    var port := PortOf(x.P, e.inputId);
    if port.portType == Output {
      var b := PortOf(x.P, e.outputId).operatorId;
      assert b in Fanout(x.P, port);
      var ids := x.order(Fanout(x.P, port));
      assert b in Elements(ids);
      var k :| 0 <= k < |ids| && ids[k] == b;
      assert Targeted(ids)[k] == Some(b);
    } else {
      assert x.TargetsOf(port)[0] == Some(port.operatorId);
    }
  }

  // An output with a target somewhere has one on every copy.
  lemma TargetedThroughout(P: CanonicalPipeline, port: CanonicalPort, order: set<Id> -> seq<Id>, t: Option<Id>)
    requires IsOrder(order) && Fanout(P, port) != {} && t in PortTargets(P, port, order)
    ensures t.Some?
  {
  }

  lemma JoinedFromOutput(x: Run, e: CanonicalEdge, s: RuntimePort, d: RuntimePort)
    requires x.Valid() && e in x.P.edges && IsPortEdge(x.P, e) && s in x.Ports() && d in x.Ports()
    requires s.canonicalId == e.inputId && d.canonicalId == e.outputId && PortOf(x.P, e.inputId).portType == Output
    ensures ShouldConnect(s, d, x.Operators()) <==> s.target == Some(PortOf(x.P, e.outputId).operatorId)
  {
    var sp, sr := PortOrigin(x, s);
    var dp, dr := PortOrigin(x, d);
    assert dp.operatorId in Fanout(x.P, sp);
    TargetedThroughout(x.P, sp, x.order, s.target);
  }

  lemma JoinedFromInput(x: Run, e: CanonicalEdge, s: RuntimePort, d: RuntimePort)
    requires x.Valid() && e in x.P.edges && IsPortEdge(x.P, e) && s in x.Ports() && d in x.Ports()
    requires s.canonicalId == e.inputId && d.canonicalId == e.outputId && PortOf(x.P, e.inputId).portType == Input
    ensures ShouldConnect(s, d, x.Operators()) && s.target == Some(PortOf(x.P, e.inputId).operatorId)
  {
    var sp, sr := PortOrigin(x, s);
    var dp, dr := PortOrigin(x, d);
  }

  // Two copies of an edge's ends are joined exactly when the source copy carries the serving target.
  lemma JoinedIff(x: Run, e: CanonicalEdge, s: RuntimePort, d: RuntimePort)
    requires x.Valid() && e in x.P.edges && IsPortEdge(x.P, e)
    requires s in x.Ports() && d in x.Ports()
    requires s.canonicalId == e.inputId && d.canonicalId == e.outputId
    ensures ShouldConnect(s, d, x.Operators()) <==> s.target == ServingTarget(x.P, e)
  {
    if PortOf(x.P, e.inputId).portType == Output {
      JoinedFromOutput(x, e, s, d);
    } else {
      JoinedFromInput(x, e, s, d);
    }
  }

  lemma NotOwnEdge(x: Run, s: RuntimePort, d: RuntimePort)
    requires x.Valid()
    requires s in x.Ports() && d in x.Ports()
    ensures (s.id, d.id) !in OwnEdges(x.Ports())
  {
    var qs := x.Ports();
    if (s.id, d.id) in OwnEdges(qs) {
      var q :| q in qs && OwnEdge(q) == (s.id, d.id);
      var qp, qr := PortOrigin(x, q);
      assert qr.id == q.operatorId;
      NodesDistinct(x);
    }
  }

  lemma DataEdgeIff(edges: seq<CanonicalEdge>, ops: seq<RuntimeOperator>, qs: seq<RuntimePort>, s: RuntimePort,
                    d: RuntimePort)
    requires forall i, j :: 0 <= i < j < |qs| ==> qs[i].id != qs[j].id
    requires s in qs && d in qs
    ensures (s.id, d.id) in DataEdges(edges, qs, ops)
       <==> CanonicalEdge(s.canonicalId, d.canonicalId) in edges && ShouldConnect(s, d, ops)
  {
  }

  // An edge between two ports exists exactly when it realises a canonical edge and its source serves that destination.
  lemma PortEdgeIff(x: Run, s: RuntimePort, d: RuntimePort)
    requires x.Valid()
    requires s in x.Ports() && d in x.Ports()
    ensures (s.id, d.id) in x.Edges()
       <==> var e := CanonicalEdge(s.canonicalId, d.canonicalId);
            e in x.P.edges && IsPortEdge(x.P, e) && s.target == ServingTarget(x.P, e)
  {
    var ops, qs := x.Operators(), x.Ports();
    var e := CanonicalEdge(s.canonicalId, d.canonicalId);
    var sp, sr := PortOrigin(x, s);
    var dp, dr := PortOrigin(x, d);
    NodesDistinct(x);
    NotOwnEdge(x, s, d);
    DataEdgeIff(x.P.edges, ops, qs, s, d);
    if e in x.P.edges {
      JoinedIff(x, e, s, d);
    }
  }

  // ----- Counting -----

  ghost function Pairs<A(!new), B(!new)>(xs: set<A>, ys: set<B>): (ps: set<(A, B)>)
    ensures forall x, y :: (x, y) in ps <==> x in xs && y in ys
  {
    set x, y | x in xs && y in ys :: (x, y)
  }

  lemma {:induction false} PairsCount<A(!new), B(!new)>(xs: set<A>, ys: set<B>)
    ensures |Pairs(xs, ys)| == |xs| * |ys|
  {
    if x :| x in xs {
      var rest := xs - {x};
      PairsCount(rest, ys);
      RowCount(x, ys);
      assert Pairs(xs, ys) == Pairs(rest, ys) + Pairs({x}, ys);
      assert Pairs(rest, ys) !! Pairs({x}, ys);
      calc {
        |Pairs(xs, ys)|;
        |rest| * |ys| + |ys|;
        (|rest| + 1) * |ys|;
        { assert |xs| == |rest| + 1; }
        |xs| * |ys|;
      }
    }
  }

  lemma {:induction false} RowCount<A(!new), B(!new)>(x: A, ys: set<B>)
    ensures |Pairs({x}, ys)| == |ys|
  {
    if y :| y in ys {
      RowCount(x, ys - {y});
      assert Pairs({x}, ys) == Pairs({x}, ys - {y}) + {(x, y)};
    }
  }

  ghost predicate Injective<A(!new), B(!new)>(m: map<A, B>) {
    forall x, y :: x in m && y in m && m[x] == m[y] ==> x == y
  }

  lemma WithoutKey<A(!new), B(!new)>(m: map<A, B>, x: A)
    requires Injective(m) && x in m
    ensures m[x] !in (m - {x}).Values && m.Values == (m - {x}).Values + {m[x]}
  {
    forall y | y in m.Values && y != m[x] ensures y in (m - {x}).Values {
      var k :| k in m && m[k] == y;
      assert k in m - {x};
    }
  }

  lemma {:induction false} InjectiveMapCount<A(!new), B(!new)>(m: map<A, B>)
    requires Injective(m)
    ensures |m.Keys| == |m.Values|
  {
    if x :| x in m {
      InjectiveMapCount(m - {x});
      WithoutKey(m, x);
      assert m.Keys == (m - {x}).Keys + {x};
    } else {
      assert m.Keys == {} && m.Values == {};
    }
  }

  ghost function ReplicaIds(x: Run, op: Id): set<Id> {
    set r | r in x.Operators() && r.canonicalId == op :: r.id
  }

  lemma NewId(front: seq<RuntimeOperator>, last: RuntimeOperator)
    requires DistinctOperators(front + [last])
    ensures last.id !in (set r | r in front :: r.id) && DistinctOperators(front)
    ensures (set r | r in front + [last] :: r.id) == (set r | r in front :: r.id) + {last.id}
  {
    var rs := front + [last];
    forall i, j | 0 <= i < j < |front| ensures front[i].id != front[j].id {
      assert rs[i] == front[i] && rs[j] == front[j];
    }
    forall r | r in front ensures r.id != last.id {
      var i :| 0 <= i < |front| && front[i] == r;
      assert rs[i].id != rs[|front|].id;
    }
    assert last in rs;
  }

  lemma {:induction false} IdCount(rs: seq<RuntimeOperator>)
    requires DistinctOperators(rs)
    ensures |set r | r in rs :: r.id| == |rs|
  {
    if rs == [] {
      assert (set r | r in rs :: r.id) == {};
    } else {
      var front, last := rs[..|rs| - 1], rs[|rs| - 1];
      assert rs == front + [last];
      NewId(front, last);
      IdCount(front);
    }
  }

  lemma ReplicaIdCount(x: Run, op: Id)
    requires WellFormed(x.P) && IsSupply(x.supply) && op in OperatorIds(x.P.operators)
    ensures |ReplicaIds(x, op)| == x.Count(op)
  {
    var c := OperatorNamed(x.P.operators, op);
    var i :| 0 <= i < |x.P.operators| && x.P.operators[i] == c;
    ReplicasAre(x.P.operators, x.factor, x.supply, i);
    OperatorsDistinct(x);
    var rs := ReplicasOf(x.Operators(), op);
    IdCount(rs);
    IdsOfReplicas(x.Operators(), op);
  }

  lemma IdsOfReplicas(ops: seq<RuntimeOperator>, op: Id)
    ensures (set r | r in ops && r.canonicalId == op :: r.id) == set r | r in ReplicasOf(ops, op) :: r.id
  {
  }

  // ----- How often an operator runs -----

  // Of this operator there are n replicas, numbered from zero, each with all that the operator carries.
  ghost predicate HasReplicas(all: seq<RuntimeOperator>, c: CanonicalOperator, n: nat) {
    var rs := set r | r in all && r.canonicalId == c.id;
    && |rs| == n
    && (forall r :: r in rs ==> r.parallelIndex < n && r.tags == c.tags && r.payload == c.payload
                                && r.parallelConfig == c.parallelConfig && r.parallelism == c.parallelism)
    && (forall i: nat :: i < n ==> HasIndex(rs, i))
  }

  ghost predicate HasIndex(rs: set<RuntimeOperator>, i: nat) {
    exists r :: r in rs && r.parallelIndex == i
  }

  // One replica unless the operator is parallel; then as many as it asks for, or else as the pipeline is run with.
  ghost predicate Replicated(all: seq<RuntimeOperator>, c: CanonicalOperator, factor: nat) {
    match (c.parallelConfig, c.parallelism)
    case (None, _) => HasReplicas(all, c, 1)
    case (Some(Sequential), _) => HasReplicas(all, c, 1)
    case (Some(Embarrassing), None) => HasReplicas(all, c, factor)
    case (Some(Embarrassing), Some(n)) => HasReplicas(all, c, if n >= 1 then n else factor)
  }

  ghost predicate AllReplicated(all: seq<RuntimeOperator>, P: CanonicalPipeline, factor: nat) {
    forall c :: c in P.operators ==> Replicated(all, c, factor)
  }

  lemma {:induction false} AttachKeepsGroups(ops: seq<RuntimeOperator>, qs: seq<RuntimePort>, c: Id)
    ensures ReplicasOf(AttachAll(ops, qs), c) == AttachAll(ReplicasOf(ops, c), qs)
  {
    if ops != [] {
      var front, last := ops[..|ops| - 1], ops[|ops| - 1];
      AttachKeepsGroups(front, qs, c);
      assert AttachAll(ops, qs)[..|ops| - 1] == AttachAll(front, qs);
    }
  }

  lemma ListedReplicas(all: seq<RuntimeOperator>, c: CanonicalOperator, rs: seq<RuntimeOperator>)
    requires rs == ReplicasOf(all, c.id)
    requires forall i :: 0 <= i < |rs| ==>
               rs[i].parallelIndex == i && rs[i].tags == c.tags && rs[i].payload == c.payload
               && rs[i].parallelConfig == c.parallelConfig && rs[i].parallelism == c.parallelism
    ensures HasReplicas(all, c, |rs|)
  {
    assert NoDup(rs);
    NoDupCardinality(rs);
    assert (set r | r in all && r.canonicalId == c.id) == Elements(rs);
    forall i: nat | i < |rs| ensures HasIndex(Elements(rs), i) {
      assert rs[i] in Elements(rs);
    }
  }

  lemma ReplicasCounted(x: Run, c: CanonicalOperator)
    requires x.Valid() && c in x.P.operators
    ensures Replicated(Expand(x.P, x.factor, x.order, x.supply).operators, c, x.factor)
  {
    var i :| 0 <= i < |x.P.operators| && x.P.operators[i] == c;
    ReplicasAre(x.P.operators, x.factor, x.supply, i);
    AttachKeepsGroups(x.Operators(), x.Ports(), c.id);
    var all := Expand(x.P, x.factor, x.order, x.supply).operators;
    ListedReplicas(all, c, ReplicasOf(all, c.id));
  }

  // ----- What a port's copies are for -----

  // Some edge leads from the port to a port of operator o.
  ghost predicate LeadsTo(P: CanonicalPipeline, port: CanonicalPort, o: Id) {
    exists e, d :: e in P.edges && d in P.ports && e.inputId == port.id && e.outputId == d.id && d.operatorId == o
  }

  lemma FanoutIff(P: CanonicalPipeline, port: CanonicalPort, o: Id)
    requires UniquePorts(P.ports)
    ensures o in Fanout(P, port) <==> LeadsTo(P, port, o)
  {
    if o in Fanout(P, port) {
      var e :| e in P.edges && e.inputId == port.id && e.outputId in PortIds(P.ports)
        && PortOf(P, e.outputId).operatorId == o;
      assert PortOf(P, e.outputId) in P.ports;
    }
    if LeadsTo(P, port, o) {
      var e, d :| e in P.edges && d in P.ports && e.inputId == port.id && e.outputId == d.id && d.operatorId == o;
      PortOfListed(P, d);
    }
  }

  // An input port's copies are for its own operator. An output port has copies for exactly the operators its edges lead
  // to, and untargeted ones exactly when they lead nowhere; each target once.
  lemma TargetIff(x: Run, port: CanonicalPort)
    requires x.Valid()
    ensures NoDup(x.TargetsOf(port))
    ensures port.portType == Input ==> x.TargetsOf(port) == [Some(port.operatorId)]
    ensures port.portType == Output ==> forall o: Id :: Some(o) in x.TargetsOf(port) <==> LeadsTo(x.P, port, o)
    ensures port.portType == Output ==> (None in x.TargetsOf(port) <==> forall o :: !LeadsTo(x.P, port, o))
  {
    TargetsDistinct(x, port);
    var downstream := Fanout(x.P, port);
    forall o ensures o in downstream <==> LeadsTo(x.P, port, o) {
      FanoutIff(x.P, port, o);
    }
    var listed := x.order(downstream);
    assert Elements(listed) == downstream;
    forall o ensures Some(o) in Targeted(listed) <==> o in downstream {
      if o in downstream {
        var k :| 0 <= k < |listed| && listed[k] == o;
        assert Targeted(listed)[k] == Some(o);
      }
    }
  }

  // An operator's port maps list exactly its own ports, under their identifiers and those of the originals.
  lemma PortMapsIff(x: Run, r: RuntimeOperator, m: PortMap)
    requires r in Expand(x.P, x.factor, x.order, x.supply).operators
    ensures m in r.inputs
       <==> exists q :: q in x.Ports() && IsEntry(m, q) && q.operatorId == r.id && q.portType == Input
    ensures m in r.outputs
       <==> exists q :: q in x.Ports() && IsEntry(m, q) && q.operatorId == r.id && q.portType == Output
  {
    EntriesIff(Filter(OwnedBy(r.id, Input), x.Ports()), m);
    EntriesIff(Filter(OwnedBy(r.id, Output), x.Ports()), m);
  }

  ghost predicate IsEntry(m: PortMap, q: RuntimePort) {
    m.id == q.id && m.canonicalId == q.canonicalId
  }

  lemma EntriesIff(qs: seq<RuntimePort>, m: PortMap)
    ensures m in MapEntries(qs) <==> exists q :: q in qs && IsEntry(m, q)
  {
    if m in MapEntries(qs) {
      var k :| 0 <= k < |qs| && MapEntries(qs)[k] == m;
      assert qs[k] in qs && IsEntry(m, qs[k]);
    }
    if q :| q in qs && IsEntry(m, q) {
      var k :| 0 <= k < |qs| && qs[k] == q;
      assert MapEntries(qs)[k] == m;
    }
  }

  // ----- Which edges touch operators -----

  // An operator has an edge to each of its output ports and from each of its input ports, and no other edges.
  lemma OperatorEdgeIff(x: Run, r: RuntimeOperator, n: Id)
    requires x.Valid() && r in x.Operators()
    ensures (r.id, n) in x.Edges()
       <==> exists q :: q in x.Ports() && q.id == n && q.operatorId == r.id && q.portType == Output
    ensures (n, r.id) in x.Edges()
       <==> exists q :: q in x.Ports() && q.id == n && q.operatorId == r.id && q.portType == Input
  {
    NodesDistinct(x);
    NoDataEdge(x, r, n);
    OwnEdgeIff(x.Ports(), r.id, n);
  }

  // Data edges run between ports, so not at an operator.
  lemma NoDataEdge(x: Run, r: RuntimeOperator, n: Id)
    requires x.Valid() && r in x.Operators()
    ensures (r.id, n) !in DataEdges(x.P.edges, x.Ports(), x.Operators())
    ensures (n, r.id) !in DataEdges(x.P.edges, x.Ports(), x.Operators())
  {
    NodesDistinct(x);
  }

  lemma OwnEdgeIff(qs: seq<RuntimePort>, o: Id, n: Id)
    requires forall q :: q in qs ==> q.id != o
    ensures (o, n) in OwnEdges(qs) <==> exists q :: q in qs && q.id == n && q.operatorId == o && q.portType == Output
    ensures (n, o) in OwnEdges(qs) <==> exists q :: q in qs && q.id == n && q.operatorId == o && q.portType == Input
  {
    assert forall q :: q in qs ==> OwnEdge(q) in OwnEdges(qs);
  }

  ghost function Copies(x: Run, port: Id, t: Option<Id>): set<RuntimePort> {
    set q | q in x.Ports() && q.canonicalId == port && q.target == t
  }

  // Copies of one port for one target differ by owner.
  lemma CopiesHaveOwners(x: Run, port: Id, t: Option<Id>)
    requires x.Valid()
    ensures Injective(map q | q in Copies(x, port, t) :: q.operatorId)
  {
    var qs := x.Ports();
    NoPartRepeats(x);
    forall q, q' | q in Copies(x, port, t) && q' in Copies(x, port, t) && q.operatorId == q'.operatorId
      ensures q == q'
    {
      PartsAgree(qs, q, q');
    }
  }

  lemma CopyOwners(x: Run, port: CanonicalPort, t: Option<Id>)
    requires x.Valid() && port in x.P.ports && t in x.TargetsOf(port)
    ensures (set q | q in Copies(x, port.id, t) :: q.operatorId) == ReplicaIds(x, port.operatorId)
  {
    var owners := set q | q in Copies(x, port.id, t) :: q.operatorId;
    forall q | q in Copies(x, port.id, t) ensures q.operatorId in ReplicaIds(x, port.operatorId) {
      var p, r := PortOrigin(x, q);
      PortOfListed(x.P, port);
    }
    forall o | o in ReplicaIds(x, port.operatorId) ensures o in owners {
      var r :| r in x.Operators() && r.canonicalId == port.operatorId && r.id == o;
      var q := PortExists(x, port, r, t);
      assert q in Copies(x, port.id, t);
    }
  }

  // A port has one copy per replica of its owner, for each of its targets.
  lemma CopiesPerTarget(x: Run, port: CanonicalPort, t: Option<Id>)
    requires x.Valid() && port in x.P.ports && t in x.TargetsOf(port)
    ensures |Copies(x, port.id, t)| == x.Count(port.operatorId)
  {
    var owner := map q | q in Copies(x, port.id, t) :: q.operatorId;
    CopiesHaveOwners(x, port.id, t);
    InjectiveMapCount(owner);
    CopyOwners(x, port, t);
    assert owner.Keys == Copies(x, port.id, t);
    assert owner.Values == set q | q in Copies(x, port.id, t) :: q.operatorId;
    ReplicaIdCount(x, port.operatorId);
  }

  ghost predicate OutputToInput(P: CanonicalPipeline, e: CanonicalEdge) {
    IsPortEdge(P, e) && PortOf(P, e.inputId).portType == Output && PortOf(P, e.outputId).portType == Input
  }

  // The runtime edges, as pairs of ports, that realise `e`.
  ghost function Wires(x: Run, e: CanonicalEdge)
    : set<(RuntimePort, RuntimePort)>
  {
    var qs := x.Ports();
    set s, d | s in qs && d in qs && s.canonicalId == e.inputId && d.canonicalId == e.outputId
            && (s.id, d.id) in x.Edges() :: (s, d)
  }

  lemma WireIff(x: Run, e: CanonicalEdge, s: RuntimePort, d: RuntimePort)
    requires x.Valid() && e in x.P.edges && OutputToInput(x.P, e)
    requires s in x.Ports() && d in x.Ports() && s.canonicalId == e.inputId && d.canonicalId == e.outputId
    ensures (s.id, d.id) in x.Edges() <==> s.target == Some(PortOf(x.P, e.outputId).operatorId)
    ensures d.target == Some(PortOf(x.P, e.outputId).operatorId)
  {
    PortEdgeIff(x, s, d);
    assert e == CanonicalEdge(s.canonicalId, d.canonicalId);
    var p, r := PortOrigin(x, d);
  }

  lemma WireEnds(x: Run, e: CanonicalEdge)
    requires x.Valid() && e in x.P.edges && OutputToInput(x.P, e)
    ensures var b := Some(PortOf(x.P, e.outputId).operatorId);
            Wires(x, e) == Pairs(Copies(x, e.inputId, b), Copies(x, e.outputId, b))
  {
    var b := Some(PortOf(x.P, e.outputId).operatorId);
    var ps := Pairs(Copies(x, e.inputId, b), Copies(x, e.outputId, b));
    forall w ensures w in Wires(x, e) <==> w in ps {
      var (s, d) := w;
      if s in x.Ports() && d in x.Ports() && s.canonicalId == e.inputId && d.canonicalId == e.outputId {
        WireIff(x, e, s, d);
      }
    }
  }

  // A canonical edge from an output of A to an input of B becomes exactly k_A * k_B runtime edges.
  lemma WireCount(x: Run, e: CanonicalEdge)
    requires x.Valid() && e in x.P.edges && OutputToInput(x.P, e)
    ensures |Wires(x, e)|
         == x.Count(PortOf(x.P, e.inputId).operatorId) * x.Count(PortOf(x.P, e.outputId).operatorId)
  {
    var b := PortOf(x.P, e.outputId).operatorId;
    WireEnds(x, e);
    ServingTargetOffered(x, e);
    CopiesPerTarget(x, PortOf(x.P, e.inputId), Some(b));
    assert x.TargetsOf(PortOf(x.P, e.outputId))[0] == Some(b);
    CopiesPerTarget(x, PortOf(x.P, e.outputId), Some(b));
    PairsCount(Copies(x, e.inputId, Some(b)), Copies(x, e.outputId, Some(b)));
  }

  ghost predicate Between(w: (RuntimePort, RuntimePort), a: Id, b: Id) {
    w.0.operatorId == a && w.1.operatorId == b
  }

  // ... one for each pair of replicas: there is one,
  lemma WirePerPair(x: Run, e: CanonicalEdge, a: RuntimeOperator, b: RuntimeOperator)
    returns (w: (RuntimePort, RuntimePort))
    requires x.Valid() && e in x.P.edges && OutputToInput(x.P, e)
    requires a in x.Operators() && a.canonicalId == PortOf(x.P, e.inputId).operatorId
    requires b in x.Operators() && b.canonicalId == PortOf(x.P, e.outputId).operatorId
    ensures w in Wires(x, e) && Between(w, a.id, b.id)
    ensures forall w' :: w' in Wires(x, e) && Between(w', a.id, b.id) ==> w' == w
  {
    var t := Some(b.canonicalId);
    WireEnds(x, e);
    ServingTargetOffered(x, e);
    var s := PortExists(x, PortOf(x.P, e.inputId), a, t);
    assert x.TargetsOf(PortOf(x.P, e.outputId))[0] == t;
    var d := PortExists(x, PortOf(x.P, e.outputId), b, t);
    w := (s, d);
    forall w' | w' in Wires(x, e) && Between(w', a.id, b.id) ensures w' == w {
      WireUnique(x, e, w, w');
    }
  }

  // and there is no second one.
  lemma WireUnique(x: Run, e: CanonicalEdge, w: (RuntimePort, RuntimePort), w': (RuntimePort, RuntimePort))
    requires x.Valid() && e in x.P.edges && OutputToInput(x.P, e)
    requires w in Wires(x, e) && w' in Wires(x, e)
    requires w.0.operatorId == w'.0.operatorId && w.1.operatorId == w'.1.operatorId
    ensures w == w'
  {
    WireEnds(x, e);
    NoPartRepeats(x);
    PartsAgree(x.Ports(), w.0, w'.0);
    PartsAgree(x.Ports(), w.1, w'.1);
  }

  lemma PartsAgree(qs: seq<RuntimePort>, q: RuntimePort, q': RuntimePort)
    requires NoPartTwice(qs) && q in qs && q' in qs && SamePart(q, q')
    ensures q == q'
  {
  }

  // An output port that feeds anything is targeted, and everything it feeds belongs to its target operator.
  lemma TargetedPortsFeedTheirTarget(x: Run, s: RuntimePort, d: RuntimePort)
    requires x.Valid()
    requires s in x.Ports() && d in x.Ports() && s.portType == Output
    requires (s.id, d.id) in x.Edges()
    ensures LookupOperator(x.Operators(), d.operatorId).Some?
    ensures s.target == Some(LookupOperator(x.Operators(), d.operatorId).value.canonicalId)
  {
    PortEdgeIff(x, s, d);
    var sp, sr := PortOrigin(x, s);
    var dp, dr := PortOrigin(x, d);
  }
}
