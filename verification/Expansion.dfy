/** What expanding a canonical pipeline computes: operator replicas, port copies and runtime edges. */
module Expansion {
  import opened Common
  import opened Models

  // ----- Operators -----

  function ReplicaCount(op: CanonicalOperator, factor: nat): nat {
    if op.parallelConfig.None? || op.parallelConfig.value == Sequential then 1
    else if op.parallelism.Some? && op.parallelism.value != 0 then op.parallelism.value
    else factor
  }

  function Replicas(op: CanonicalOperator, n: nat, base: nat, supply: nat -> Id): (rs: seq<RuntimeOperator>)
    ensures |rs| == n && forall i :: 0 <= i < n ==> rs[i] == FromCanonical(op, supply(base + i), i)
  {
    seq(n, i requires 0 <= i => FromCanonical(op, supply(base + i), i))
  }

  function ExpandOperators(ops: seq<CanonicalOperator>, factor: nat, supply: nat -> Id): seq<RuntimeOperator> {
    if ops == [] then [] else
    var init := ExpandOperators(ops[..|ops| - 1], factor, supply);
    var op := ops[|ops| - 1];
    init + Replicas(op, ReplicaCount(op, factor), |init|, supply)
  }

  function OfCanonical(c: Id): RuntimeOperator -> bool {
    (r: RuntimeOperator) => r.canonicalId == c
  }

  function ReplicasOf(ops: seq<RuntimeOperator>, c: Id): seq<RuntimeOperator> {
    Filter(OfCanonical(c), ops)
  }

  function LookupOperator(ops: seq<RuntimeOperator>, id: Id): (r: Option<RuntimeOperator>)
    ensures r.Some? ==> r.value in ops && r.value.id == id
    ensures r.None? ==> forall op :: op in ops ==> op.id != id
  {
    if ops == [] then None else
    assert ops == ops[..|ops| - 1] + [ops[|ops| - 1]];
    if ops[|ops| - 1].id == id then Some(ops[|ops| - 1]) else LookupOperator(ops[..|ops| - 1], id)
  }

  // ----- Ports -----

  // The operators that some edge leads to from this port.
  function Fanout(P: CanonicalPipeline, port: CanonicalPort): set<Id> {
    set e | e in P.edges && e.inputId == port.id && e.outputId in PortIds(P.ports) :: PortOf(P, e.outputId).operatorId
  }

  // An output port is copied once per downstream operator; with none downstream, one untargeted copy remains.
  // An input port has one copy, marked with its own operator.
  function PortTargets(P: CanonicalPipeline, port: CanonicalPort, order: set<Id> -> seq<Id>): seq<Option<Id>> {
    TargetList(port, Fanout(P, port), order)
  }

  function TargetList(port: CanonicalPort, downstream: set<Id>, order: set<Id> -> seq<Id>): seq<Option<Id>> {
    if port.portType == Input then [Some(port.operatorId)]
    else if downstream == {} then [None]
    else Targeted(order(downstream))
  }

  function Targeted(ids: seq<Id>): (ts: seq<Option<Id>>)
    ensures |ts| == |ids| && forall k :: 0 <= k < |ids| ==> ts[k] == Some(ids[k])
  {
    seq(|ids|, k requires 0 <= k < |ids| => Some(ids[k]))
  }

  function PortCopy(port: CanonicalPort, r: RuntimeOperator, target: Option<Id>, id: Id): RuntimePort {
    RuntimePort(id, port.id, r.id, port.operatorId, target, port.portType, port.portkey)
  }

  function ReplicaPorts(port: CanonicalPort, r: RuntimeOperator, targets: seq<Option<Id>>, base: nat, supply: nat -> Id)
    : seq<RuntimePort>
  {
    seq(|targets|, k requires 0 <= k < |targets| => PortCopy(port, r, targets[k], supply(base + k)))
  }

  function PortCopies(port: CanonicalPort, rs: seq<RuntimeOperator>, targets: seq<Option<Id>>, base: nat,
                      supply: nat -> Id)
    : seq<RuntimePort>
  {
    if rs == [] then [] else
    var init := PortCopies(port, rs[..|rs| - 1], targets, base, supply);
    init + ReplicaPorts(port, rs[|rs| - 1], targets, base + |init|, supply)
  }

  // For each port, the replicas that own a copy of it and the targets each of them serves.
  type Owners = CanonicalPort -> seq<RuntimeOperator>
  type Targets = CanonicalPort -> seq<Option<Id>>

  function OwnersIn(ops: seq<RuntimeOperator>): Owners {
    (port: CanonicalPort) => ReplicasOf(ops, port.operatorId)
  }

  function TargetsIn(P: CanonicalPipeline, order: set<Id> -> seq<Id>): Targets {
    (port: CanonicalPort) => PortTargets(P, port, order)
  }

  function ExpandPorts(ports: seq<CanonicalPort>, owners: Owners, targets: Targets, base: nat, supply: nat -> Id)
    : seq<RuntimePort>
  {
    if ports == [] then [] else
    var init := ExpandPorts(ports[..|ports| - 1], owners, targets, base, supply);
    var port := ports[|ports| - 1];
    init + PortCopies(port, owners(port), targets(port), base + |init|, supply)
  }

  // ----- Edges -----

  // The edge between a port and the operator it belongs to.
  function OwnEdge(q: RuntimePort): Link {
    if q.portType == Output then (q.operatorId, q.id) else (q.id, q.operatorId)
  }

  predicate ShouldConnect(s: RuntimePort, d: RuntimePort, ops: seq<RuntimeOperator>) {
    var src := LookupOperator(ops, s.operatorId);
    var dst := LookupOperator(ops, d.operatorId);
    if src.None? || dst.None? then false
    else if s.portType == Output && s.target.Some? then s.target.value == dst.value.canonicalId
    else true
  }

  predicate Joins(e: CanonicalEdge, s: RuntimePort, d: RuntimePort, ops: seq<RuntimeOperator>) {
    s.canonicalId == e.inputId && d.canonicalId == e.outputId && ShouldConnect(s, d, ops)
  }

  function OwnEdges(ports: seq<RuntimePort>): set<Link> {
    set q | q in ports :: OwnEdge(q)
  }

  function DataEdges(edges: seq<CanonicalEdge>, ports: seq<RuntimePort>, ops: seq<RuntimeOperator>): set<Link> {
    set e, s, d | e in edges && s in ports && d in ports && Joins(e, s, d, ops) :: (s.id, d.id)
  }

  // ----- Port maps -----

  function OwnedBy(op: Id, portType: PortType): RuntimePort -> bool {
    (q: RuntimePort) => q.operatorId == op && q.portType == portType
  }

  function MapEntries(qs: seq<RuntimePort>): (ms: seq<PortMap>)
    ensures |ms| == |qs| && forall k :: 0 <= k < |qs| ==> ms[k] == PortMap(qs[k].id, qs[k].canonicalId)
  {
    seq(|qs|, k requires 0 <= k < |qs| => PortMap(qs[k].id, qs[k].canonicalId))
  }

  function Attach(op: RuntimeOperator, ports: seq<RuntimePort>): RuntimeOperator {
    op.(inputs := MapEntries(Filter(OwnedBy(op.id, Input), ports)),
        outputs := MapEntries(Filter(OwnedBy(op.id, Output), ports)))
  }

  function AttachAll(ops: seq<RuntimeOperator>, ports: seq<RuntimePort>): (r: seq<RuntimeOperator>)
    ensures |r| == |ops| && forall i :: 0 <= i < |ops| ==> r[i] == Attach(ops[i], ports)
  {
    seq(|ops|, i requires 0 <= i < |ops| => Attach(ops[i], ports))
  }

  datatype RuntimeGraph = RuntimeGraph(operators: seq<RuntimeOperator>, ports: seq<RuntimePort>, edges: set<Link>)

  // The whole expansion: operators draw their identifiers first, then ports.
  function Expand(P: CanonicalPipeline, factor: nat, order: set<Id> -> seq<Id>, supply: nat -> Id): RuntimeGraph {
    var ops := ExpandOperators(P.operators, factor, supply);
    var ports := ExpandPorts(P.ports, OwnersIn(ops), TargetsIn(P, order), |ops|, supply);
    RuntimeGraph(AttachAll(ops, ports), ports, OwnEdges(ports) + DataEdges(P.edges, ports, ops))
  }

  // ----- What the operator list contains -----

  lemma {:induction false} ExpandedOperatorIds(ops: seq<CanonicalOperator>, factor: nat, supply: nat -> Id)
    ensures var rs := ExpandOperators(ops, factor, supply);
            forall i :: 0 <= i < |rs| ==> rs[i].id == supply(i)
  {
    if ops != [] {
      ExpandedOperatorIds(ops[..|ops| - 1], factor, supply);
    }
  }

  lemma {:induction false} ExpandedOperatorSource(ops: seq<CanonicalOperator>, factor: nat, supply: nat -> Id,
                                                  r: RuntimeOperator)
    requires r in ExpandOperators(ops, factor, supply)
    ensures exists op ::
              op in ops && r == FromCanonical(op, r.id, r.parallelIndex) && r.parallelIndex < ReplicaCount(op, factor)
  {
    var init := ExpandOperators(ops[..|ops| - 1], factor, supply);
    if r in init {
      ExpandedOperatorSource(ops[..|ops| - 1], factor, supply, r);
    } else {
      assert ops[|ops| - 1] in ops;
    }
  }

  // The replicas of the i-th operator are one contiguous run, numbered from zero.
  lemma {:induction false} ReplicasAre(ops: seq<CanonicalOperator>, factor: nat, supply: nat -> Id, i: nat)
    requires UniqueOperators(ops) && i < |ops|
    ensures ReplicasOf(ExpandOperators(ops, factor, supply), ops[i].id)
         == Replicas(ops[i], ReplicaCount(ops[i], factor), |ExpandOperators(ops[..i], factor, supply)|, supply)
  {
    var front := ops[..|ops| - 1];
    var op := ops[|ops| - 1];
    var init := ExpandOperators(front, factor, supply);
    var run := Replicas(op, ReplicaCount(op, factor), |init|, supply);
    FilterConcat(OfCanonical(ops[i].id), init, run);
    if i < |front| {
      ReplicasAre(front, factor, supply, i);
      assert front[..i] == ops[..i];
      FilterNone(OfCanonical(ops[i].id), run);
    } else {
      assert ops[..i] == front;
      FilterAll(OfCanonical(ops[i].id), run);
      forall r | r in init ensures r.canonicalId != op.id {
        ExpandedOperatorSource(front, factor, supply, r);
      }
      FilterNone(OfCanonical(ops[i].id), init);
    }
  }

  // ----- What the port list contains -----

  predicate IsCopy(q: RuntimePort, port: CanonicalPort, r: RuntimeOperator, target: Option<Id>) {
    q == PortCopy(port, r, target, q.id)
  }

  // A copy of `port` made for some replica in `rs` and some target in `targets`.
  ghost predicate CopyAmong(q: RuntimePort, port: CanonicalPort, rs: seq<RuntimeOperator>, targets: seq<Option<Id>>) {
    exists r, t :: r in rs && t in targets && IsCopy(q, port, r, t)
  }

  ghost predicate Copied(qs: seq<RuntimePort>, port: CanonicalPort, r: RuntimeOperator, t: Option<Id>) {
    exists q :: q in qs && IsCopy(q, port, r, t)
  }

  // Identifiers are drawn in list order, starting with the base-th draw.
  ghost predicate Numbered(qs: seq<RuntimePort>, base: nat, supply: nat -> Id) {
    forall j :: 0 <= j < |qs| ==> qs[j].id == supply(base + j)
  }

  lemma NumberedConcat(a: seq<RuntimePort>, b: seq<RuntimePort>, base: nat, supply: nat -> Id, both: seq<RuntimePort>)
    requires Numbered(a, base, supply) && Numbered(b, base + |a|, supply) && both == a + b
    ensures Numbered(both, base, supply)
  {
  }

  lemma {:induction false} PortCopyIds(port: CanonicalPort, rs: seq<RuntimeOperator>, targets: seq<Option<Id>>,
                                       base: nat, supply: nat -> Id)
    ensures Numbered(PortCopies(port, rs, targets, base, supply), base, supply)
  {
    if rs != [] {
      var front, last := rs[..|rs| - 1], rs[|rs| - 1];
      PortCopyIds(port, front, targets, base, supply);
      var init := PortCopies(port, front, targets, base, supply);
      NumberedConcat(init, ReplicaPorts(port, last, targets, base + |init|, supply), base, supply,
                     PortCopies(port, rs, targets, base, supply));
    }
  }

  lemma ReplicaPortSource(port: CanonicalPort, r: RuntimeOperator, targets: seq<Option<Id>>, base: nat,
                          supply: nat -> Id, q: RuntimePort)
    requires q in ReplicaPorts(port, r, targets, base, supply)
    ensures exists t :: t in targets && IsCopy(q, port, r, t)
  {
    var run := ReplicaPorts(port, r, targets, base, supply);
    var k :| 0 <= k < |run| && run[k] == q;
    assert targets[k] in targets && IsCopy(q, port, r, targets[k]);
  }

  lemma CopyAmongMore(q: RuntimePort, port: CanonicalPort, some: seq<RuntimeOperator>, rs: seq<RuntimeOperator>,
                      targets: seq<Option<Id>>)
    requires CopyAmong(q, port, some, targets) && forall r :: r in some ==> r in rs
    ensures CopyAmong(q, port, rs, targets)
  {
  }

  lemma {:induction false} PortCopySource(port: CanonicalPort, rs: seq<RuntimeOperator>, targets: seq<Option<Id>>,
                                          base: nat, supply: nat -> Id, q: RuntimePort)
    requires q in PortCopies(port, rs, targets, base, supply)
    ensures CopyAmong(q, port, rs, targets)
  {
    var front, last := rs[..|rs| - 1], rs[|rs| - 1];
    var init := PortCopies(port, front, targets, base, supply);
    if q in init {
      PortCopySource(port, front, targets, base, supply, q);
      CopyAmongMore(q, port, front, rs, targets);
    } else {
      ReplicaPortSource(port, last, targets, base + |init|, supply, q);
      assert last in rs;
    }
  }

  lemma LastReplicaCopied(port: CanonicalPort, r: RuntimeOperator, targets: seq<Option<Id>>, base: nat,
                          supply: nat -> Id, t: Option<Id>, init: seq<RuntimePort>, both: seq<RuntimePort>)
    requires t in targets && both == init + ReplicaPorts(port, r, targets, base, supply)
    ensures Copied(both, port, r, t)
  {
    var k :| 0 <= k < |targets| && targets[k] == t;
    assert both[|init| + k] in both && IsCopy(both[|init| + k], port, r, t);
  }

  lemma {:induction false} PortCopyCovers(port: CanonicalPort, rs: seq<RuntimeOperator>, targets: seq<Option<Id>>,
                                          base: nat, supply: nat -> Id, r: RuntimeOperator, t: Option<Id>)
    requires r in rs && t in targets
    ensures Copied(PortCopies(port, rs, targets, base, supply), port, r, t)
  {
    var front, last := rs[..|rs| - 1], rs[|rs| - 1];
    var init := PortCopies(port, front, targets, base, supply);
    if r == last {
      LastReplicaCopied(port, r, targets, base + |init|, supply, t, init, PortCopies(port, rs, targets, base, supply));
    } else {
      PortCopyCovers(port, front, targets, base, supply, r, t);
      CopiedMore(init, PortCopies(port, rs, targets, base, supply), port, r, t);
    }
  }

  lemma CopiedMore(some: seq<RuntimePort>, qs: seq<RuntimePort>, port: CanonicalPort, r: RuntimeOperator, t: Option<Id>)
    requires Copied(some, port, r, t) && some <= qs
    ensures Copied(qs, port, r, t)
  {
    var i :| 0 <= i < |some| && IsCopy(some[i], port, r, t);
    assert qs[i] in qs;
  }

  lemma {:induction false} ExpandedPortIds(ports: seq<CanonicalPort>, owners: Owners, targets: Targets, base: nat,
                                           supply: nat -> Id)
    ensures Numbered(ExpandPorts(ports, owners, targets, base, supply), base, supply)
  {
    if ports != [] {
      var front, port := ports[..|ports| - 1], ports[|ports| - 1];
      ExpandedPortIds(front, owners, targets, base, supply);
      var init := ExpandPorts(front, owners, targets, base, supply);
      var copies := PortCopies(port, owners(port), targets(port), base + |init|, supply);
      PortCopyIds(port, owners(port), targets(port), base + |init|, supply);
      NumberedConcat(init, copies, base, supply, ExpandPorts(ports, owners, targets, base, supply));
    }
  }

  // Every runtime port is the copy of some listed port for one of its owner's replicas and one of its targets.
  ghost predicate CopyOfListed(q: RuntimePort, ports: seq<CanonicalPort>, owners: Owners, targets: Targets) {
    exists port :: port in ports && CopyAmong(q, port, owners(port), targets(port))
  }

  lemma {:induction false} ExpandedPortSource(ports: seq<CanonicalPort>, owners: Owners, targets: Targets, base: nat,
                                              supply: nat -> Id, q: RuntimePort)
    requires q in ExpandPorts(ports, owners, targets, base, supply)
    ensures CopyOfListed(q, ports, owners, targets)
  {
    var front, port := ports[..|ports| - 1], ports[|ports| - 1];
    var init := ExpandPorts(front, owners, targets, base, supply);
    if q in init {
      ExpandedPortSource(front, owners, targets, base, supply, q);
      var p :| p in front && CopyAmong(q, p, owners(p), targets(p));
      assert p in ports;
    } else {
      PortCopySource(port, owners(port), targets(port), base + |init|, supply, q);
      assert port in ports;
    }
  }

  lemma {:induction false} ExpandedPortCovers(ports: seq<CanonicalPort>, owners: Owners, targets: Targets, base: nat,
                                              supply: nat -> Id, port: CanonicalPort, r: RuntimeOperator, t: Option<Id>)
    requires port in ports && r in owners(port) && t in targets(port)
    ensures Copied(ExpandPorts(ports, owners, targets, base, supply), port, r, t)
  {
    var front, last := ports[..|ports| - 1], ports[|ports| - 1];
    var init := ExpandPorts(front, owners, targets, base, supply);
    var run := PortCopies(last, owners(last), targets(last), base + |init|, supply);
    assert ExpandPorts(ports, owners, targets, base, supply) == init + run;
    if port == last {
      PortCopyCovers(port, owners(port), targets(port), base + |init|, supply, r, t);
      var q :| q in run && IsCopy(q, port, r, t);
      assert q in init + run;
    } else {
      ExpandedPortCovers(front, owners, targets, base, supply, port, r, t);
      var q :| q in init && IsCopy(q, port, r, t);
      assert q in init + run;
    }
  }

  // Two runtime ports that play the same part: same canonical port, same owner, same target.
  predicate SamePart(a: RuntimePort, b: RuntimePort) {
    a.canonicalId == b.canonicalId && a.operatorId == b.operatorId && a.target == b.target
  }

  ghost predicate NoPartTwice(qs: seq<RuntimePort>) {
    forall i, j :: 0 <= i < j < |qs| ==> !SamePart(qs[i], qs[j])
  }

  ghost predicate DistinctOperators(rs: seq<RuntimeOperator>) {
    forall i, j :: 0 <= i < j < |rs| ==> rs[i].id != rs[j].id
  }

  ghost predicate NoPartShared(a: seq<RuntimePort>, b: seq<RuntimePort>) {
    forall i, j :: 0 <= i < |a| && 0 <= j < |b| ==> !SamePart(a[i], b[j])
  }

  lemma NoPartConcat(a: seq<RuntimePort>, b: seq<RuntimePort>, both: seq<RuntimePort>)
    requires NoPartTwice(a) && NoPartTwice(b) && NoPartShared(a, b) && both == a + b
    ensures NoPartTwice(both)
  {
  }

  // One replica more: its copies differ among themselves by target, and from the others by owner.
  lemma NextReplicaDistinct(port: CanonicalPort, last: RuntimeOperator, targets: seq<Option<Id>>, base: nat,
                            supply: nat -> Id, init: seq<RuntimePort>, both: seq<RuntimePort>)
    requires NoDup(targets) && NoPartTwice(init) && forall q :: q in init ==> q.operatorId != last.id
    requires both == init + ReplicaPorts(port, last, targets, base, supply)
    ensures NoPartTwice(both)
  {
    NoPartConcat(init, ReplicaPorts(port, last, targets, base, supply), both);
  }

  lemma OwnersAmong(port: CanonicalPort, rs: seq<RuntimeOperator>, targets: seq<Option<Id>>, base: nat,
                    supply: nat -> Id, o: Id)
    requires forall r :: r in rs ==> r.id != o
    ensures forall q :: q in PortCopies(port, rs, targets, base, supply) ==> q.operatorId != o
  {
    forall q | q in PortCopies(port, rs, targets, base, supply) ensures q.operatorId != o {
      PortCopySource(port, rs, targets, base, supply, q);
    }
  }

  lemma {:induction false} PortCopiesDistinct(port: CanonicalPort, rs: seq<RuntimeOperator>, targets: seq<Option<Id>>,
                                              base: nat, supply: nat -> Id)
    requires DistinctOperators(rs) && NoDup(targets)
    ensures NoPartTwice(PortCopies(port, rs, targets, base, supply))
  {
    if rs != [] {
      var front, last := rs[..|rs| - 1], rs[|rs| - 1];
      PortCopiesDistinct(port, front, targets, base, supply);
      OwnersAmong(port, front, targets, base, supply, last.id);
      var init := PortCopies(port, front, targets, base, supply);
      NextReplicaDistinct(port, last, targets, base + |init|, supply, init,
                          PortCopies(port, rs, targets, base, supply));
    }
  }

  lemma {:induction false} ExpandedPortsDistinct(ports: seq<CanonicalPort>, owners: Owners, targets: Targets, base: nat,
                                                 supply: nat -> Id)
    requires UniquePorts(ports)
    requires forall p :: p in ports ==> DistinctOperators(owners(p)) && NoDup(targets(p))
    ensures NoPartTwice(ExpandPorts(ports, owners, targets, base, supply))
  {
    if ports != [] {
      var front, port := ports[..|ports| - 1], ports[|ports| - 1];
      ExpandedPortsDistinct(front, owners, targets, base, supply);
      var init := ExpandPorts(front, owners, targets, base, supply);
      var run := PortCopies(port, owners(port), targets(port), base + |init|, supply);
      PortCopiesDistinct(port, owners(port), targets(port), base + |init|, supply);
      forall i, j | 0 <= i < |init| && 0 <= j < |run| ensures !SamePart(init[i], run[j]) {
        ExpandedPortSource(front, owners, targets, base, supply, init[i]);
        PortCopySource(port, owners(port), targets(port), base + |init|, supply, run[j]);
      }
      NoPartConcat(init, run, ExpandPorts(ports, owners, targets, base, supply));
    }
  }
}
