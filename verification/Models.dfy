/** Canonical pipelines, as the user draws them, and the runtime entities they expand to. */
module Models {
  import opened Common

  datatype PortType = Input | Output

  datatype ParallelType = Sequential | Embarrassing

  datatype CanonicalOperator = CanonicalOperator(
    id: Id,
    inputs: seq<Id>,
    outputs: seq<Id>,
    tags: set<string>,
    parallelConfig: Option<ParallelType>,
    parallelism: Option<nat>,
    payload: string  // label, image, parameters, triggers: carried along unread
  )

  datatype CanonicalPort = CanonicalPort(id: Id, portType: PortType, operatorId: Id, portkey: string)

  datatype CanonicalEdge = CanonicalEdge(inputId: Id, outputId: Id)

  datatype CanonicalPipeline = CanonicalPipeline(
    id: Id,
    revisionId: int,
    operators: seq<CanonicalOperator>,
    ports: seq<CanonicalPort>,
    edges: seq<CanonicalEdge>
  )

  datatype PortMap = PortMap(id: Id, canonicalId: Id)

  datatype RuntimeOperator = RuntimeOperator(
    id: Id,
    canonicalId: Id,
    parallelIndex: nat,
    inputs: seq<PortMap>,
    outputs: seq<PortMap>,
    tags: set<string>,
    parallelConfig: Option<ParallelType>,
    parallelism: Option<nat>,
    payload: string
  )

  datatype RuntimePort = RuntimePort(
    id: Id,
    canonicalId: Id,
    operatorId: Id,
    canonicalOperatorId: Id,
    target: Option<Id>,  // the canonical operator this port is destined for
    portType: PortType,
    portkey: string
  )

  function FromCanonical(op: CanonicalOperator, runtimeId: Id, parallelIndex: nat): RuntimeOperator {
    RuntimeOperator(runtimeId, op.id, parallelIndex, [], [], op.tags, op.parallelConfig, op.parallelism, op.payload)
  }

  function CanonicalIds(maps: seq<PortMap>): set<Id> {
    set m | m in maps :: m.canonicalId
  }

  // The canonical port lists are rebuilt from sets, so their order is the set's own.
  function OperatorToCanonical(op: RuntimeOperator, order: set<Id> -> seq<Id>): CanonicalOperator {
    CanonicalOperator(op.canonicalId, order(CanonicalIds(op.inputs)), order(CanonicalIds(op.outputs)),
                      op.tags, op.parallelConfig, op.parallelism, op.payload)
  }

  function PortToCanonical(port: RuntimePort): CanonicalPort {
    CanonicalPort(port.canonicalId, port.portType, port.canonicalOperatorId, port.portkey)
  }

  function OperatorIds(ops: seq<CanonicalOperator>): (ids: set<Id>)
    ensures forall c :: c in ids <==> exists op :: op in ops && op.id == c
  {
    set op | op in ops :: op.id
  }

  function PortIds(ports: seq<CanonicalPort>): (ids: set<Id>)
    ensures forall p :: p in ids <==> exists port :: port in ports && port.id == p
  {
    set port | port in ports :: port.id
  }

  ghost predicate UniqueOperators(ops: seq<CanonicalOperator>) {
    forall i, j :: 0 <= i < j < |ops| ==> ops[i].id != ops[j].id
  }

  ghost predicate UniquePorts(ports: seq<CanonicalPort>) {
    forall i, j :: 0 <= i < j < |ports| ==> ports[i].id != ports[j].id
  }

  // What the expansion expects of its input: unique identifiers, and every port owned by a listed operator.
  ghost predicate WellFormed(P: CanonicalPipeline) {
    && UniqueOperators(P.operators)
    && UniquePorts(P.ports)
    && forall p :: p in P.ports ==> p.operatorId in OperatorIds(P.operators)
  }

  // An edge between two listed ports. A canonical edge may also name an operator; those carry no data link.
  predicate IsPortEdge(P: CanonicalPipeline, e: CanonicalEdge) {
    e.inputId in PortIds(P.ports) && e.outputId in PortIds(P.ports)
  }

  function PortOf(P: CanonicalPipeline, id: Id): (port: CanonicalPort)
    requires id in PortIds(P.ports)
    ensures port in P.ports && port.id == id
  {
    PortNamed(P.ports, id)
  }

  function PortNamed(ports: seq<CanonicalPort>, id: Id): (port: CanonicalPort)
    requires exists p :: p in ports && p.id == id
    ensures port in ports && port.id == id
  {
    if ports[|ports| - 1].id == id then ports[|ports| - 1] else
    assert ports == ports[..|ports| - 1] + [ports[|ports| - 1]];
    PortNamed(ports[..|ports| - 1], id)
  }

  function OperatorNamed(ops: seq<CanonicalOperator>, id: Id): (op: CanonicalOperator)
    requires id in OperatorIds(ops)
    ensures op in ops && op.id == id
  {
    if ops[|ops| - 1].id == id then ops[|ops| - 1] else
    assert ops == ops[..|ops| - 1] + [ops[|ops| - 1]];
    OperatorNamed(ops[..|ops| - 1], id)
  }
}
