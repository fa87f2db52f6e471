/** Expanding a canonical pipeline step by step, as the program does it, into a pipeline graph. */
module Expander {
  import opened Common
  import opened Models
  import opened Graphs
  import opened Expansion
  import opened Wiring
  import opened PipelineGraph

  // Dictionary lookup with the empty list as default.
  function Get<T>(m: map<Id, seq<T>>, key: Id): seq<T> {
    if key in m then m[key] else []
  }

  // For every output port, the operators its edges lead to.
  method GetPortFanoutMap(P: CanonicalPipeline) returns (fanout: map<Id, set<Id>>)
    requires UniquePorts(P.ports)
    ensures forall p :: p in P.ports && p.portType == Output ==> p.id in fanout && fanout[p.id] == Fanout(P, p)
    ensures forall id :: id in fanout ==> exists p :: p in P.ports && p.portType == Output && p.id == id
  {
    fanout := map[];
    for i := 0 to |P.ports|
      invariant forall p :: p in P.ports[..i] && p.portType == Output ==> p.id in fanout && fanout[p.id] == Fanout(P, p)
      invariant forall id :: id in fanout ==> exists p :: p in P.ports[..i] && p.portType == Output && p.id == id
    {
      var port := P.ports[i];
      if port.portType == Output {
        var downstream := {};
        for j := 0 to |P.edges|
          invariant downstream == FanoutOver(P, port, P.edges[..j])
        {
          var e := P.edges[j];
          FanoutGrows(P, port, P.edges[..j], e);
          assert P.edges[..j + 1] == P.edges[..j] + [e];
          if e.inputId == port.id && e.outputId in PortIds(P.ports) {
            downstream := downstream + {PortOf(P, e.outputId).operatorId};
          }
        }
        assert P.edges[..|P.edges|] == P.edges;
        assert downstream == Fanout(P, port);
        fanout := fanout[port.id := downstream];
      }
      assert P.ports[..i + 1] == P.ports[..i] + [port];
    }
    assert P.ports[..|P.ports|] == P.ports;
  }

  function FanoutOver(P: CanonicalPipeline, port: CanonicalPort, edges: seq<CanonicalEdge>): set<Id> {
    set e | e in edges && e.inputId == port.id && e.outputId in PortIds(P.ports) :: PortOf(P, e.outputId).operatorId
  }

  lemma FanoutGrows(P: CanonicalPipeline, port: CanonicalPort, edges: seq<CanonicalEdge>, e: CanonicalEdge)
    ensures FanoutOver(P, port, edges + [e])
         == if e.inputId == port.id && e.outputId in PortIds(P.ports)
            then FanoutOver(P, port, edges) + {PortOf(P, e.outputId).operatorId}
            else FanoutOver(P, port, edges)
  {
    assert e in edges + [e];
  }

  method ReplicateFromCanonical(op: CanonicalOperator, n: nat, base: nat, supply: nat -> Id)
    returns (rs: seq<RuntimeOperator>)
    ensures rs == Replicas(op, n, base, supply)
  {
    rs := [];
    for i := 0 to n
      invariant rs == Replicas(op, i, base, supply)
    {
      rs := rs + [FromCanonical(op, supply(base + i), i)];
    }
  }

  method ExpandAllOperators(ops: seq<CanonicalOperator>, factor: nat, supply: nat -> Id)
    returns (all: seq<RuntimeOperator>, mapping: map<Id, seq<RuntimeOperator>>)
    requires UniqueOperators(ops)
    ensures all == ExpandOperators(ops, factor, supply)
    ensures forall c :: Get(mapping, c) == ReplicasOf(all, c)
  {
    all, mapping := [], map[];
    for i := 0 to |ops|
      invariant all == ExpandOperators(ops[..i], factor, supply)
      invariant forall c :: Get(mapping, c) == ReplicasOf(all, c)
    {
      var op := ops[i];
      assert ops[..i + 1] == ops[..i] + [op];
      var replicas := ReplicateFromCanonical(op, ReplicaCount(op, factor), |all|, supply);
      OperatorsStep(ops[..i], op, factor, supply);
      NextGroup(ops[..i], op, factor, supply);
      mapping := mapping[op.id := replicas];
      all := all + replicas;
    }
    assert ops[..|ops|] == ops;
  }

  lemma OperatorsStep(ops: seq<CanonicalOperator>, op: CanonicalOperator, factor: nat, supply: nat -> Id)
    ensures var init := ExpandOperators(ops, factor, supply);
            ExpandOperators(ops + [op], factor, supply) == init + Replicas(op, ReplicaCount(op, factor), |init|, supply)
  {
    var all := ops + [op];
    assert all[..|all| - 1] == ops && all[|all| - 1] == op;
  }

  // Appending the replicas of a new operator leaves every earlier group as it was.
  lemma NextGroup(ops: seq<CanonicalOperator>, op: CanonicalOperator, factor: nat, supply: nat -> Id)
    requires forall o :: o in ops ==> o.id != op.id
    ensures var all := ExpandOperators(ops, factor, supply);
            var replicas := Replicas(op, ReplicaCount(op, factor), |all|, supply);
            && ReplicasOf(all + replicas, op.id) == replicas
            && forall c :: c != op.id ==> ReplicasOf(all + replicas, c) == ReplicasOf(all, c)
  {
    var all := ExpandOperators(ops, factor, supply);
    var replicas := Replicas(op, ReplicaCount(op, factor), |all|, supply);
    forall c ensures ReplicasOf(all + replicas, c) == if c == op.id then replicas else ReplicasOf(all, c) {
      FilterConcat(OfCanonical(c), all, replicas);
      if c == op.id {
        FilterAll(OfCanonical(c), replicas);
        forall r | r in all ensures r.canonicalId != c {
          ExpandedOperatorSource(ops, factor, supply, r);
        }
        FilterNone(OfCanonical(c), all);
      } else {
        FilterNone(OfCanonical(c), replicas);
      }
    }
  }

  method CreateReplicaPorts(port: CanonicalPort, r: RuntimeOperator, targets: seq<Option<Id>>, base: nat,
                            supply: nat -> Id)
    returns (qs: seq<RuntimePort>)
    ensures qs == ReplicaPorts(port, r, targets, base, supply)
  {
    qs := [];
    for k := 0 to |targets|
      invariant qs == ReplicaPorts(port, r, targets[..k], base, supply)
    {
      qs := qs + [PortCopy(port, r, targets[k], supply(base + k))];
    }
    assert targets[..|targets|] == targets;
  }

  lemma PortCopiesStep(port: CanonicalPort, rs: seq<RuntimeOperator>, i: nat, targets: seq<Option<Id>>, base: nat,
                       supply: nat -> Id)
    requires i < |rs|
    ensures var init := PortCopies(port, rs[..i], targets, base, supply);
            PortCopies(port, rs[..i + 1], targets, base, supply)
              == init + ReplicaPorts(port, rs[i], targets, base + |init|, supply)
  {
    var next := rs[..i + 1];
    var front := next[..|next| - 1];
    assert front == rs[..i];
    assert PortCopies(port, next, targets, base, supply)
        == PortCopies(port, front, targets, base, supply)
           + ReplicaPorts(port, rs[i], targets, base + |PortCopies(port, front, targets, base, supply)|, supply);
  }

  method CreatePorts(port: CanonicalPort, rs: seq<RuntimeOperator>, targets: seq<Option<Id>>, base: nat,
                     supply: nat -> Id)
    returns (qs: seq<RuntimePort>)
    ensures qs == PortCopies(port, rs, targets, base, supply)
  {
    qs := [];
    for i := 0 to |rs|
      invariant qs == PortCopies(port, rs[..i], targets, base, supply)
    {
      var copies := CreateReplicaPorts(port, rs[i], targets, base + |qs|, supply);
      PortCopiesStep(port, rs, i, targets, base, supply);
      qs := qs + copies;
    }
    assert rs[..|rs|] == rs;
  }

  // The operators downstream of a port; an input port has none.
  function Downstream(port: CanonicalPort, fanout: map<Id, set<Id>>): set<Id> {
    if port.portType == Output && port.id in fanout then fanout[port.id] else {}
  }

  lemma PortsStep(ports: seq<CanonicalPort>, i: nat, owners: Owners, targets: Targets, base: nat, supply: nat -> Id)
    requires i < |ports|
    ensures var init := ExpandPorts(ports[..i], owners, targets, base, supply);
            var port := ports[i];
            ExpandPorts(ports[..i + 1], owners, targets, base, supply)
              == init + PortCopies(port, owners(port), targets(port), base + |init|, supply)
  {
    var next := ports[..i + 1];
    assert next[..|next| - 1] == ports[..i];
  }

  // The owners and targets of a port, as looked up while expanding.
  ghost predicate LooksUp(port: CanonicalPort, mapping: map<Id, seq<RuntimeOperator>>, fanout: map<Id, set<Id>>,
                          order: set<Id> -> seq<Id>, owners: Owners, targets: Targets)
  {
    Get(mapping, port.operatorId) == owners(port) && TargetList(port, Downstream(port, fanout), order) == targets(port)
  }

  // Appends the copies of the i-th port to those of the ports before it.
  method CreateNextPorts(ports: seq<CanonicalPort>, i: nat, made: seq<RuntimePort>,
                         mapping: map<Id, seq<RuntimeOperator>>, fanout: map<Id, set<Id>>, order: set<Id> -> seq<Id>,
                         base: nat, supply: nat -> Id, ghost owners: Owners, ghost targets: Targets)
    returns (all: seq<RuntimePort>)
    requires i < |ports| && LooksUp(ports[i], mapping, fanout, order, owners, targets)
    requires made == ExpandPorts(ports[..i], owners, targets, base, supply)
    ensures all == ExpandPorts(ports[..i + 1], owners, targets, base, supply)
  {
    var port := ports[i];
    var replicas, wanted := Get(mapping, port.operatorId), TargetList(port, Downstream(port, fanout), order);
    var copies := CreatePorts(port, replicas, wanted, base + |made|, supply);
    PortsStep(ports, i, owners, targets, base, supply);
    all := made + copies;
  }

  method CreateAllPorts(ports: seq<CanonicalPort>, mapping: map<Id, seq<RuntimeOperator>>, fanout: map<Id, set<Id>>,
                        order: set<Id> -> seq<Id>, base: nat, supply: nat -> Id, ghost owners: Owners,
                        ghost targets: Targets)
    returns (all: seq<RuntimePort>)
    requires forall p :: p in ports ==> LooksUp(p, mapping, fanout, order, owners, targets)
    ensures all == ExpandPorts(ports, owners, targets, base, supply)
  {
    all := [];
    for i := 0 to |ports|
      invariant all == ExpandPorts(ports[..i], owners, targets, base, supply)
    {
      all := CreateNextPorts(ports, i, all, mapping, fanout, order, base, supply, owners, targets);
    }
    assert ports[..|ports|] == ports;
  }

  function HasCanonical(c: Id): RuntimePort -> bool {
    (q: RuntimePort) => q.canonicalId == c
  }

  // Groups runtime ports by the canonical port they copy.
  method GroupByCanonical(qs: seq<RuntimePort>) returns (groups: map<Id, seq<RuntimePort>>)
    ensures forall c :: Get(groups, c) == Filter(HasCanonical(c), qs)
  {
    groups := map[];
    for i := 0 to |qs|
      invariant forall c :: Get(groups, c) == Filter(HasCanonical(c), qs[..i])
    {
      var q := qs[i];
      assert qs[..i + 1][..i] == qs[..i];
      groups := groups[q.canonicalId := Get(groups, q.canonicalId) + [q]];
    }
    assert qs[..|qs|] == qs;
  }

  // Every output port hangs off its operator, and every operator off its input ports.
  method LinkToOwners(qs: seq<RuntimePort>) returns (links: set<Link>)
    ensures links == OwnEdges(qs)
  {
    links := {};
    for i := 0 to |qs|
      invariant links == OwnEdges(qs[..i])
    {
      assert qs[..i + 1] == qs[..i] + [qs[i]];
      OwnEdgesGrow(qs[..i], qs[i]);
      links := links + {OwnEdge(qs[i])};
    }
    assert qs[..|qs|] == qs;
  }

  method ExpandEdges(edges: seq<CanonicalEdge>, ops: seq<RuntimeOperator>, qs: seq<RuntimePort>,
                     groups: map<Id, seq<RuntimePort>>)
    returns (links: set<Link>)
    requires forall c :: Get(groups, c) == Filter(HasCanonical(c), qs)
    ensures links == OwnEdges(qs) + DataEdges(edges, qs, ops)
  {
    links := LinkToOwners(qs);
    for i := 0 to |edges|
      invariant links == OwnEdges(qs) + DataEdges(edges[..i], qs, ops)
    {
      var e := edges[i];
      var sources := Get(groups, e.inputId);
      var destinations := Get(groups, e.outputId);
      var wires := JoinAll(sources, destinations, ops);
      assert edges[..i + 1] == edges[..i] + [e];
      DataEdgesGrow(edges[..i], e, qs, ops);
      links := links + wires;
    }
    assert edges[..|edges|] == edges;
  }

  function JoinedPairs(ss: seq<RuntimePort>, ds: seq<RuntimePort>, ops: seq<RuntimeOperator>): set<Link> {
    set s, d | s in ss && d in ds && ShouldConnect(s, d, ops) :: (s.id, d.id)
  }

  method JoinAll(sources: seq<RuntimePort>, destinations: seq<RuntimePort>, ops: seq<RuntimeOperator>)
    returns (wires: set<Link>)
    ensures wires == JoinedPairs(sources, destinations, ops)
  {
    wires := {};
    for i := 0 to |sources|
      invariant wires == JoinedPairs(sources[..i], destinations, ops)
    {
      var s := sources[i];
      ghost var before := wires;
      for j := 0 to |destinations|
        invariant wires == before + JoinedPairs([s], destinations[..j], ops)
      {
        var d := destinations[j];
        JoinedPairsGrow(s, destinations[..j], d, ops);
        assert destinations[..j + 1] == destinations[..j] + [d];
        if ShouldConnect(s, d, ops) {
          wires := wires + {(s.id, d.id)};
        }
      }
      assert destinations[..|destinations|] == destinations;
      assert sources[..i + 1] == sources[..i] + [s];
    }
    assert sources[..|sources|] == sources;
  }

  lemma JoinedPairsGrow(s: RuntimePort, ds: seq<RuntimePort>, d: RuntimePort, ops: seq<RuntimeOperator>)
    ensures JoinedPairs([s], ds + [d], ops)
         == JoinedPairs([s], ds, ops) + if ShouldConnect(s, d, ops) then {(s.id, d.id)} else {}
  {
    assert s in [s] && d in ds + [d];
  }

  lemma OwnEdgesGrow(qs: seq<RuntimePort>, q: RuntimePort)
    ensures OwnEdges(qs + [q]) == OwnEdges(qs) + {OwnEdge(q)}
  {
    assert q in qs + [q];
  }

  lemma DataEdgesGrow(edges: seq<CanonicalEdge>, e: CanonicalEdge, qs: seq<RuntimePort>, ops: seq<RuntimeOperator>)
    ensures DataEdges(edges + [e], qs, ops)
         == DataEdges(edges, qs, ops)
          + JoinedPairs(Filter(HasCanonical(e.inputId), qs), Filter(HasCanonical(e.outputId), qs), ops)
  {
    var whole := DataEdges(edges + [e], qs, ops);
    var wires := JoinedPairs(Filter(HasCanonical(e.inputId), qs), Filter(HasCanonical(e.outputId), qs), ops);
    forall l | l in whole ensures l in DataEdges(edges, qs, ops) + wires {
      var e', s, d :| e' in edges + [e] && s in qs && d in qs && Joins(e', s, d, ops) && l == (s.id, d.id);
      if e' !in edges {
        assert s in Filter(HasCanonical(e.inputId), qs) && d in Filter(HasCanonical(e.outputId), qs);
      }
    }
    forall l | l in DataEdges(edges, qs, ops) ensures l in whole {
      var e', s, d :| e' in edges && s in qs && d in qs && Joins(e', s, d, ops) && l == (s.id, d.id);
      assert e' in edges + [e];
    }
    forall l | l in wires ensures l in whole {
      var s, d :| s in Filter(HasCanonical(e.inputId), qs) && d in Filter(HasCanonical(e.outputId), qs)
               && ShouldConnect(s, d, ops) && l == (s.id, d.id);
      assert e in edges + [e] && Joins(e, s, d, ops);
    }
  }

  function OnOperator(op: Id): RuntimePort -> bool {
    (q: RuntimePort) => q.operatorId == op
  }

  function OfType(t: PortType): RuntimePort -> bool {
    (q: RuntimePort) => q.portType == t
  }

  lemma {:induction false} OwnedInTwoSteps(op: Id, t: PortType, qs: seq<RuntimePort>)
    ensures Filter(OfType(t), Filter(OnOperator(op), qs)) == Filter(OwnedBy(op, t), qs)
  {
    if qs != [] {
      var front := qs[..|qs| - 1];
      OwnedInTwoSteps(op, t, front);
      FilterConcat(OfType(t), Filter(OnOperator(op), front), [qs[|qs| - 1]]);
    }
  }

  // Fills in every operator's port maps.
  method AttachPortsToOperators(ops: seq<RuntimeOperator>, qs: seq<RuntimePort>)
    returns (attached: seq<RuntimeOperator>)
    ensures attached == AttachAll(ops, qs)
  {
    var portMap: map<Id, seq<RuntimePort>> := map[];
    for i := 0 to |qs|
      invariant forall op :: Get(portMap, op) == Filter(OnOperator(op), qs[..i])
    {
      var q := qs[i];
      assert qs[..i + 1][..i] == qs[..i];
      portMap := portMap[q.operatorId := Get(portMap, q.operatorId) + [q]];
    }
    assert qs[..|qs|] == qs;
    attached := ops;
    for i := 0 to |ops|
      invariant |attached| == |ops|
      invariant forall k :: 0 <= k < |ops| ==> attached[k] == if k < i then Attach(ops[k], qs) else ops[k]
    {
      var own := Get(portMap, ops[i].id);
      OwnedInTwoSteps(ops[i].id, Input, qs);
      OwnedInTwoSteps(ops[i].id, Output, qs);
      attached := attached[i := ops[i].(inputs := MapEntries(Filter(OfType(Input), own)),
                                       outputs := MapEntries(Filter(OfType(Output), own)))];
    }
  }

  // The graph holds exactly the given operators, ports and edges, in order.
  ghost predicate Represents(g: Pipeline, G: RuntimeGraph)
    reads g
  {
    && OperatorList(g.order, g.nodes) == G.operators
    && PortList(g.order, g.nodes) == G.ports
    && (forall q :: q in G.ports ==> q.id in PortsIn(g.nodes) && PortsIn(g.nodes)[q.id] == q)
    && (forall n :: n in PortsIn(g.nodes) ==> PortsIn(g.nodes)[n] in G.ports && PortsIn(g.nodes)[n].id == n)
    && OperatorsIn(g.nodes).Keys == (set r | r in G.operators :: r.id)
    && (forall r :: r in G.operators ==> r.id in OperatorsIn(g.nodes) && OperatorsIn(g.nodes)[r.id] == r)
    && Readable(g.nodes)
    && g.edges == G.edges
  }

  lemma ListsIgnoreNewNode(order: seq<Id>, nodes: map<Id, Node>, n: Id, node: Node)
    requires n !in order
    ensures OperatorList(order, nodes[n := node]) == OperatorList(order, nodes)
    ensures PortList(order, nodes[n := node]) == PortList(order, nodes)
  {
    if order != [] {
      ListsIgnoreNewNode(order[..|order| - 1], nodes, n, node);
    }
  }

  lemma ListsGrow(order: seq<Id>, nodes: map<Id, Node>, n: Id, node: Node)
    requires n !in order
    ensures OperatorList(order + [n], nodes[n := node])
         == OperatorList(order, nodes) + if node.OperatorNode? then [node.operator] else []
    ensures PortList(order + [n], nodes[n := node])
         == PortList(order, nodes) + if node.PortNode? then [node.port] else []
  {
    ListsIgnoreNewNode(order, nodes, n, node);
    assert (order + [n])[..|order|] == order;
  }

  // Every node is one of the listed operators or ports, under its own identifier.
  ghost predicate Holds(nodes: map<Id, Node>, ops: seq<RuntimeOperator>, qs: seq<RuntimePort>) {
    && (forall r :: r in ops ==> r.id in nodes && nodes[r.id] == OperatorNode(r))
    && (forall q :: q in qs ==> q.id in nodes && nodes[q.id] == PortNode(q))
    && (forall n :: n in nodes ==>
          match nodes[n]
          case Blank => false
          case OperatorNode(r) => r in ops && r.id == n
          case PortNode(q) => q in qs && q.id == n)
  }

  // A graph under construction that so far holds these operators and ports, and no edges.
  ghost predicate Loaded(g: Pipeline, ops: seq<RuntimeOperator>, qs: seq<RuntimePort>)
    reads g
  {
    && g.Valid() && g.needsRebuild && g.edges == {}
    && OperatorList(g.order, g.nodes) == ops
    && PortList(g.order, g.nodes) == qs
    && Holds(g.nodes, ops, qs)
  }

  lemma HoldsNextOperator(nodes: map<Id, Node>, ops: seq<RuntimeOperator>, r: RuntimeOperator)
    requires Holds(nodes, ops, []) && DistinctOperators(ops + [r])
    ensures r.id !in nodes && Holds(nodes[r.id := OperatorNode(r)], ops + [r], [])
  {
    forall p | p in ops ensures p.id != r.id {
      var i :| 0 <= i < |ops| && ops[i] == p;
      assert (ops + [r])[i].id != (ops + [r])[|ops|].id;
    }
  }

  // Adds the i-th operator.
  method AddOperator(g: Pipeline, ops: seq<RuntimeOperator>, i: nat)
    requires i < |ops| && Loaded(g, ops[..i], []) && DistinctOperators(ops)
    modifies g`order, g`nodes, g`needsRebuild
    ensures Loaded(g, ops[..i + 1], [])
  {
    var r := ops[i];
    assert ops[..i + 1] == ops[..i] + [r];
    HoldsNextOperator(g.nodes, ops[..i], r);
    assert r.id !in Elements(g.order);
    ListsGrow(g.order, g.nodes, r.id, OperatorNode(r));
    g.AddNode(r.id, OperatorNode(r));
  }

  method AddOperators(g: Pipeline, ops: seq<RuntimeOperator>)
    requires Loaded(g, [], []) && DistinctOperators(ops)
    modifies g`order, g`nodes, g`needsRebuild
    ensures Loaded(g, ops, [])
  {
    for i := 0 to |ops|
      invariant Loaded(g, ops[..i], [])
    {
      AddOperator(g, ops, i);
    }
    assert ops[..|ops|] == ops;
  }

  lemma HoldsNextPort(nodes: map<Id, Node>, ops: seq<RuntimeOperator>, qs: seq<RuntimePort>, q: RuntimePort)
    requires Holds(nodes, ops, qs) && DistinctPorts(qs + [q]) && forall r :: r in ops ==> r.id != q.id
    ensures q.id !in nodes && Holds(nodes[q.id := PortNode(q)], ops, qs + [q])
  {
    forall p | p in qs ensures p.id != q.id {
      var i :| 0 <= i < |qs| && qs[i] == p;
      assert (qs + [q])[i].id != (qs + [q])[|qs|].id;
    }
  }

  // Adds the i-th port.
  method AddPort(g: Pipeline, ghost ops: seq<RuntimeOperator>, qs: seq<RuntimePort>, i: nat)
    requires i < |qs| && Loaded(g, ops, qs[..i]) && DistinctPorts(qs) && NoSharedId(ops, qs)
    modifies g`order, g`nodes, g`needsRebuild
    ensures Loaded(g, ops, qs[..i + 1])
  {
    var q := qs[i];
    assert qs[..i + 1] == qs[..i] + [q];
    HoldsNextPort(g.nodes, ops, qs[..i], q);
    assert q.id !in Elements(g.order);
    ListsGrow(g.order, g.nodes, q.id, PortNode(q));
    g.AddNode(q.id, PortNode(q));
  }

  method AddPorts(g: Pipeline, ops: seq<RuntimeOperator>, qs: seq<RuntimePort>)
    requires Loaded(g, ops, []) && DistinctPorts(qs) && NoSharedId(ops, qs)
    modifies g`order, g`nodes, g`needsRebuild
    ensures Loaded(g, ops, qs)
  {
    for i := 0 to |qs|
      invariant Loaded(g, ops, qs[..i])
    {
      AddPort(g, ops, qs, i);
    }
    assert qs[..|qs|] == qs;
  }

  // Expands operators, then ports, attaches port maps, and wires everything up.
  method ExpandModels(P: CanonicalPipeline, factor: nat, order: set<Id> -> seq<Id>, supply: nat -> Id)
    returns (G: RuntimeGraph)
    requires WellFormed(P)
    ensures G == Expand(P, factor, order, supply)
  {
    var ops, mapping := ExpandAllOperators(P.operators, factor, supply);
    var fanout := GetPortFanoutMap(P);
    var qs := CreateAllPorts(P.ports, mapping, fanout, order, |ops|, supply, OwnersIn(ops), TargetsIn(P, order));
    var attached := AttachPortsToOperators(ops, qs);
    var groups := GroupByCanonical(qs);
    var links := ExpandEdges(P.edges, ops, qs, groups);
    return RuntimeGraph(attached, qs, links);
  }

  // The identifiers of a runtime graph's operators and ports.
  function NodeIds(G: RuntimeGraph): set<Id> {
    (set r | r in G.operators :: r.id) + (set q | q in G.ports :: q.id)
  }

  ghost predicate DistinctPorts(qs: seq<RuntimePort>) {
    forall i, j :: 0 <= i < j < |qs| ==> qs[i].id != qs[j].id
  }

  ghost predicate NoSharedId(rs: seq<RuntimeOperator>, qs: seq<RuntimePort>) {
    forall r, q :: r in rs && q in qs ==> r.id != q.id
  }

  // What it takes for a graph to hold `G` without collisions.
  ghost predicate Loadable(G: RuntimeGraph) {
    && DistinctOperators(G.operators)
    && DistinctPorts(G.ports)
    && NoSharedId(G.operators, G.ports)
    && Over(G.edges, NodeIds(G))
  }

  method NewGraph(id: Id, canonicalId: Option<Id>, revisionId: Option<int>) returns (g: Pipeline)
    ensures fresh(g) && Loaded(g, [], [])
    ensures g.id == id && g.canonicalId == canonicalId && g.revisionId == revisionId
  {
    g := new Pipeline(id, canonicalId, revisionId);
  }

  method LoadOperators(ops: seq<RuntimeOperator>, id: Id, canonicalId: Option<Id>, revisionId: Option<int>)
    returns (g: Pipeline)
    requires DistinctOperators(ops)
    ensures fresh(g) && Loaded(g, ops, [])
    ensures g.id == id && g.canonicalId == canonicalId && g.revisionId == revisionId
  {
    g := NewGraph(id, canonicalId, revisionId);
    AddOperators(g, ops);
  }

  method LoadNodes(ops: seq<RuntimeOperator>, qs: seq<RuntimePort>, id: Id, canonicalId: Option<Id>,
                   revisionId: Option<int>)
    returns (g: Pipeline)
    requires DistinctOperators(ops) && DistinctPorts(qs) && NoSharedId(ops, qs)
    ensures fresh(g) && Loaded(g, ops, qs)
    ensures g.id == id && g.canonicalId == canonicalId && g.revisionId == revisionId
  {
    g := LoadOperators(ops, id, canonicalId, revisionId);
    AddPorts(g, ops, qs);
  }

  method Load(G: RuntimeGraph, id: Id, canonicalId: Option<Id>, revisionId: Option<int>) returns (g: Pipeline)
    requires Loadable(G)
    ensures fresh(g) && g.Valid()
    ensures g.id == id && g.canonicalId == canonicalId && g.revisionId == revisionId
    ensures Represents(g, G)
  {
    g := LoadNodes(G.operators, G.ports, id, canonicalId, revisionId);
    AddEdges(g, G);
  }

  // The bulk insertion; like the bulk node insertion into a fresh graph, it relies on the rebuild flag still being set.
  method AddEdges(g: Pipeline, G: RuntimeGraph)
    requires Loaded(g, G.operators, G.ports) && Over(G.edges, NodeIds(G))
    modifies g`edges
    ensures g.Valid() && Represents(g, G)
  {
    g.edges := G.edges;
  }

  method ExpandCanonicalToRuntime(P: CanonicalPipeline, runtimeId: Id, factor: nat, order: set<Id> -> seq<Id>,
                                  supply: nat -> Id)
    returns (g: Pipeline)
    requires WellFormed(P) && IsOrder(order) && IsSupply(supply)
    ensures fresh(g) && g.Valid()
    ensures g.id == runtimeId && g.canonicalId == Some(P.id) && g.revisionId == Some(P.revisionId)
    ensures Represents(g, Expand(P, factor, order, supply))
    ensures AllReplicated(OperatorList(g.order, g.nodes), P, factor)
  {
    var G := ExpandModels(P, factor, order, supply);
    ExpansionLoadable(Run(P, factor, order, supply), G);
    g := Load(G, runtimeId, Some(P.id), Some(P.revisionId));
    forall c | c in P.operators ensures Replicated(OperatorList(g.order, g.nodes), c, factor) {
      ReplicasCounted(Run(P, factor, order, supply), c);
    }
  }

  // No expansion collides with itself, and its edges run between its own operators and ports.
  lemma ExpansionLoadable(x: Run, G: RuntimeGraph)
    requires x.Valid() && G == Expand(x.P, x.factor, x.order, x.supply)
    ensures Loadable(G)
  {
    NodesDistinct(x);
    OperatorsDistinct(x);
    AttachKeepsIds(x.Operators(), x.Ports());
    forall q | q in G.ports ensures q.operatorId in NodeIds(G) {
      var port, r := PortOrigin(x, q);
      var i :| 0 <= i < |x.Operators()| && x.Operators()[i] == r;
      assert G.operators[i] in G.operators && G.operators[i].id == r.id;
    }
    EdgesOver(x.P.edges, x.Operators(), G.ports, NodeIds(G));
  }

  lemma AttachKeepsIds(ops: seq<RuntimeOperator>, qs: seq<RuntimePort>)
    requires DistinctOperators(ops) && NoSharedId(ops, qs)
    ensures DistinctOperators(AttachAll(ops, qs)) && NoSharedId(AttachAll(ops, qs), qs)
  {
  }

  lemma EdgesOver(edges: seq<CanonicalEdge>, ops: seq<RuntimeOperator>, qs: seq<RuntimePort>, nodes: set<Id>)
    requires forall q :: q in qs ==> q.id in nodes && q.operatorId in nodes
    ensures Over(OwnEdges(qs) + DataEdges(edges, qs, ops), nodes)
  {
  }
}
