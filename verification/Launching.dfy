/** From a canonical pipeline and a list of agents to assignments: expansion, sorting and assignment together. */
module Launching {
  import opened Common
  import opened Models
  import opened Graphs
  import opened Expansion
  import opened Wiring
  import opened PipelineGraph
  import opened Expander
  import opened RoundTrip
  import opened Cycles
  import opened Assigner

  // Some agent's tags cover each of the user's operators.
  ghost predicate Covered(P: CanonicalPipeline, agents: seq<Agent>) {
    forall c :: c in P.operators ==> exists a :: a in agents && c.tags <= a.tags
  }

  // Every replica of every operator is on exactly one agent's list, an agent whose tags cover the operator's;
  // nothing else is listed, and interchangeable agents differ by at most one.
  ghost predicate Launched(x: Run, agents: seq<Agent>, r: seq<Assignment>) {
    && |r| == |agents|
    && (forall i :: 0 <= i < |r| ==> r[i].agentId == agents[i].id && NoDup(r[i].operators))
    && (forall q :: q in x.Operators() ==> PlacedOnce(r, q.id))
    && (forall i, o :: 0 <= i < |r| && o in r[i].operators ==> IsReplicaFor(x, o, agents[i]))
    && (forall i, j :: 0 <= i < |r| && 0 <= j < |r| && Interchangeable(agents[i], agents[j])
          ==> |r[i].operators| <= |r[j].operators| + 1)
  }

  ghost predicate IsReplicaFor(x: Run, o: Id, a: Agent) {
    exists q :: q in x.Operators() && q.id == o && q.tags <= a.tags
  }

  ghost function ReplicaIds(x: Run): set<Id> {
    set q | q in x.Operators() :: q.id
  }

  // Two replicas are linked when they differ and the user's operators are.
  ghost function ReplicaLinks(x: Run): set<Link> {
    set a, b | a in x.Operators() && b in x.Operators() && a.id != b.id
      && (a.canonicalId, b.canonicalId) in CanonicalLinks(x.P) :: (a.id, b.id)
  }

  function ById(rs: seq<RuntimeOperator>): map<Id, RuntimeOperator> {
    if rs == [] then map[] else ById(rs[..|rs| - 1])[rs[|rs| - 1].id := rs[|rs| - 1]]
  }

  // The replicas, with their port maps, under their identifiers.
  ghost function ReplicasById(x: Run): map<Id, RuntimeOperator>
    requires WellFormed(x.P)
  {
    ById(Expand(x.P, x.factor, x.order, x.supply).operators)
  }

  // How the replicas were placed: after their predecessors, each on some of its agent's networks, within those of its
  // predecessors when an agent that covers it is on any, and on a least loaded agent among those that could host it.
  // Every agent lists its replicas in that order.
  ghost predicate WellPlaced(x: Run, agents: seq<Agent>, r: seq<Assignment>, networks: map<Id, set<string>>,
                             sorted: seq<Id>)
    requires WellFormed(x.P) && |r| == |agents|
  {
    && IsTopologicalOrder(ReplicaIds(x), ReplicaLinks(x), sorted)
    && networks.Keys == ReplicaIds(x)
    && NetworksStick(agents, ReplicasById(x), ReplicaLinks(x), r, networks)
    && AllFollow(agents, ReplicasById(x), ReplicaLinks(x), r, networks)
    && ChoicesGreedy(agents, ReplicasById(x), ReplicaLinks(x), networks, sorted, r)
    && ListedInTurn(r, sorted)
  }

  lemma {:induction false} ByIdFinds(rs: seq<RuntimeOperator>)
    requires DistinctOperators(rs)
    ensures forall r :: r in rs ==> r.id in ById(rs) && ById(rs)[r.id] == r
    ensures forall o :: o in ById(rs) ==> exists r :: r in rs && r.id == o
  {
    if rs != [] {
      var front, last := rs[..|rs| - 1], rs[|rs| - 1];
      ByIdFinds(front);
      assert rs == front + [last];
      forall r | r in front ensures r.id != last.id {
        var i :| 0 <= i < |front| && front[i] == r;
        assert rs[i].id != rs[|rs| - 1].id;
      }
    }
  }

  // The assigner works on exactly these links and operators.
  lemma AssignerSees(x: Run, g: Pipeline)
    requires x.Valid() && Represents(g, Expand(x.P, x.factor, x.order, x.supply))
    ensures OperatorGraphOf(g.nodes, g.edges) == Digraph(ReplicaIds(x), ReplicaLinks(x))
    ensures OperatorsIn(g.nodes) == ReplicasById(x)
  {
    ExpandedOperatorGraph(x, g);
    LinksAre(x, PortsIn(g.nodes));
    LooksUpReplicas(x, g);
  }

  lemma LooksUpReplicas(x: Run, g: Pipeline)
    requires x.Valid() && Represents(g, Expand(x.P, x.factor, x.order, x.supply))
    ensures OperatorsIn(g.nodes) == ReplicasById(x)
  {
    var rs := Expand(x.P, x.factor, x.order, x.supply).operators;
    ExpansionLoadable(x, Expand(x.P, x.factor, x.order, x.supply));
    ByIdFinds(rs);
  }

  lemma LinksAre(x: Run, m: map<Id, RuntimePort>)
    requires x.Valid() && Indexes(m, x.Ports())
    ensures OperatorLinks(m, x.Edges()) == ReplicaLinks(x)
  {
    forall l ensures l in OperatorLinks(m, x.Edges()) <==> l in ReplicaLinks(x) {
      if l in OperatorLinks(m, x.Edges()) {
        var a, b := LinkEnds(x, m, l);
        LinkIff(x, m, a, b);
      }
      if l in ReplicaLinks(x) {
        var a, b := ReplicaLinkEnds(x, l);
        LinkIff(x, m, a, b);
      }
    }
  }

  lemma ReplicaLinkEnds(x: Run, l: Link) returns (a: RuntimeOperator, b: RuntimeOperator)
    requires l in ReplicaLinks(x)
    ensures a in x.Operators() && b in x.Operators() && l == (a.id, b.id) && a.id != b.id
    ensures (a.canonicalId, b.canonicalId) in CanonicalLinks(x.P)
  {
    a, b :| a in x.Operators() && b in x.Operators() && l == (a.id, b.id) && a.id != b.id
      && (a.canonicalId, b.canonicalId) in CanonicalLinks(x.P);
  }

  // What the assigner looks up for a replica is the replica, with its port maps attached.
  lemma LookedUp(x: Run, g: Pipeline, q: RuntimeOperator)
    requires x.Valid() && Represents(g, Expand(x.P, x.factor, x.order, x.supply)) && q in x.Operators()
    ensures q.id in OperatorsIn(g.nodes) && OperatorsIn(g.nodes)[q.id].tags == q.tags
  {
    var G := Expand(x.P, x.factor, x.order, x.supply);
    var i :| 0 <= i < |x.Operators()| && x.Operators()[i] == q;
    assert G.operators[i] in G.operators && G.operators[i] == Attach(q, x.Ports());
  }

  // A replica has its operator's tags.
  lemma TagsAreKept(x: Run, c: CanonicalOperator, q: RuntimeOperator)
    requires x.Valid() && c in x.P.operators && q in x.Operators() && q.canonicalId == c.id
    ensures q.tags == c.tags
  {
    ExpandedOperatorSource(x.P.operators, x.factor, x.supply, q);
    var op :| op in x.P.operators && q == FromCanonical(op, q.id, q.parallelIndex);
    SameOperator(x.P.operators, op, c);
  }

  lemma SameOperator(ops: seq<CanonicalOperator>, a: CanonicalOperator, b: CanonicalOperator)
    requires UniqueOperators(ops) && a in ops && b in ops && a.id == b.id
    ensures a == b
  {
    var i :| 0 <= i < |ops| && ops[i] == a;
    var j :| 0 <= j < |ops| && ops[j] == b;
    assert i == j;
  }

  // All replicas can be assigned exactly when all of the user's operators are covered.
  lemma CoveredIff(x: Run, g: Pipeline, agents: seq<Agent>)
    requires x.Valid() && x.factor > 0 && Represents(g, Expand(x.P, x.factor, x.order, x.supply))
    ensures (forall q :: q in x.Operators() ==> Assignable(Elements(agents), OperatorsIn(g.nodes), q.id))
        <==> Covered(x.P, agents)
  {
    if forall q :: q in x.Operators() ==> Assignable(Elements(agents), OperatorsIn(g.nodes), q.id) {
      forall c | c in x.P.operators ensures exists a :: a in agents && c.tags <= a.tags {
        var q := ReplicaExists(x, c.id);
        TagsAreKept(x, c, q);
        LookedUp(x, g, q);
      }
    }
    if Covered(x.P, agents) {
      forall q | q in x.Operators() ensures Assignable(Elements(agents), OperatorsIn(g.nodes), q.id) {
        ExpandedOperatorSource(x.P.operators, x.factor, x.supply, q);
        var c :| c in x.P.operators && q == FromCanonical(c, q.id, q.parallelIndex);
        LookedUp(x, g, q);
        var a :| a in agents && c.tags <= a.tags;
        assert a in Elements(agents) && Matches(a, OperatorsIn(g.nodes)[q.id]);
      }
    }
  }

  lemma ReplicaNamed(ops: seq<RuntimeOperator>, o: Id) returns (q: RuntimeOperator)
    requires o in set q | q in ops :: q.id
    ensures q in ops && q.id == o
  {
    q :| q in ops && q.id == o;
  }

  lemma DistributesLaunches(x: Run, g: Pipeline, agents: seq<Agent>, r: seq<Assignment>)
    requires x.Valid() && Represents(g, Expand(x.P, x.factor, x.order, x.supply))
    requires Distributes(agents, OperatorsIn(g.nodes), ReplicaIds(x), r)
    ensures Launched(x, agents, r)
  {
    var ids := ReplicaIds(x);
    forall i, o | 0 <= i < |r| && o in r[i].operators ensures IsReplicaFor(x, o, agents[i]) {
      assert o in ids;
      var q := ReplicaNamed(x.Operators(), o);
      LookedUp(x, g, q);
    }
  }

  ghost predicate AnswersLaunch(x: Run, agents: seq<Agent>, r: Result<seq<Assignment>, AssignError>,
                                networks: map<Id, set<string>>, sorted: seq<Id>)
    requires WellFormed(x.P)
  {
    match r
    case Failure(NoAgents) => agents == []
    case Failure(CyclicDependencies) => agents != [] && Cyclic(EffectiveLinks(x))
    case Failure(UnassignableOperators) => agents != [] && !Cyclic(EffectiveLinks(x)) && !Covered(x.P, agents)
    case Failure(_) => false
    case Success(assignments) =>
      && agents != [] && !Cyclic(EffectiveLinks(x)) && Covered(x.P, agents)
      && Launched(x, agents, assignments)
      && WellPlaced(x, agents, assignments, networks, sorted)
  }

  // The graph the assigner sees has a cycle, and operators that nothing covers, exactly when the user's pipeline has.
  lemma Launchable(x: Run, g: Pipeline, agents: seq<Agent>)
    requires x.Valid() && x.factor > 0 && Represents(g, Expand(x.P, x.factor, x.order, x.supply))
    ensures var graph := OperatorGraphOf(g.nodes, g.edges);
            && graph.nodes == ReplicaIds(x)
            && (Cyclic(OperatorLinks(PortsIn(g.nodes), g.edges)) <==> Cyclic(EffectiveLinks(x)))
            && ((forall o :: o in graph.nodes ==> Assignable(Elements(agents), OperatorsIn(g.nodes), o))
              <==> Covered(x.P, agents))
    ensures Readable(g.nodes)
  {
    ExpandedOperatorGraph(x, g);
    CyclesMatch(x, PortsIn(g.nodes));
    CoveredIff(x, g, agents);
    assert forall o :: o in OperatorGraphOf(g.nodes, g.edges).nodes <==> exists q :: q in x.Operators() && q.id == o;
  }

  // The user's pipeline is launched exactly when there are agents, it has no effective cycle, and each of its operators
  // is covered by some agent's tags; the first of these that fails is the error. The networks recorded and the order of
  // placement, kept by the assigner, say how the replicas were placed.
  method Launch(P: CanonicalPipeline, runtimeId: Id, factor: nat, order: set<Id> -> seq<Id>, supply: nat -> Id,
                agents: seq<Agent>, dice: nat -> nat)
    returns (r: Result<seq<Assignment>, AssignError>, networks: map<Id, set<string>>, sorted: seq<Id>)
    requires WellFormed(P) && IsOrder(order) && IsSupply(supply) && factor > 0 && ValidAgents(agents)
    ensures AnswersLaunch(Run(P, factor, order, supply), agents, r, networks, sorted)
  {
    var g := ExpandCanonicalToRuntime(P, runtimeId, factor, order, supply);
    r, networks, sorted := AssignExpanded(Run(P, factor, order, supply), g, agents, dice);
  }

  // What the assigner's promises about its graph come to for the user's pipeline.
  lemma AssignedAnswers(x: Run, g: Pipeline, agents: seq<Agent>, graph: Digraph, sorted: seq<Id>,
                        r: Result<seq<Assignment>, AssignError>, networks: map<Id, set<string>>)
    requires x.Valid() && x.factor > 0 && Represents(g, Expand(x.P, x.factor, x.order, x.supply)) && agents != []
    requires graph == OperatorGraphOf(g.nodes, g.edges) && IsTopologicalOrder(graph.nodes, graph.edges, sorted)
    requires !Cyclic(EffectiveLinks(x))
    requires r.Success? <==> forall o :: o in graph.nodes ==> Assignable(Elements(agents), OperatorsIn(g.nodes), o)
    requires r.Failure? ==> r.error == UnassignableOperators
    requires r.Success? ==> Distributes(agents, OperatorsIn(g.nodes), graph.nodes, r.value)
    requires r.Success? ==>
               networks.Keys == graph.nodes
               && NetworksStick(agents, OperatorsIn(g.nodes), graph.edges, r.value, networks)
    requires r.Success? ==> AllFollow(agents, OperatorsIn(g.nodes), graph.edges, r.value, networks)
    requires r.Success? ==> ChoicesGreedy(agents, OperatorsIn(g.nodes), graph.edges, networks, sorted, r.value)
    requires r.Success? ==> ListedInTurn(r.value, sorted)
    ensures AnswersLaunch(x, agents, r, networks, sorted)
  {
    Launchable(x, g, agents);
    AssignerSees(x, g);
    if r.Success? {
      DistributesLaunches(x, g, agents, r.value);
    }
  }

  method AssignExpanded(ghost x: Run, g: Pipeline, agents: seq<Agent>, dice: nat -> nat)
    returns (r: Result<seq<Assignment>, AssignError>, networks: map<Id, set<string>>, sorted: seq<Id>)
    requires x.Valid() && x.factor > 0 && ValidAgents(agents)
    requires g.Valid() && Represents(g, Expand(x.P, x.factor, x.order, x.supply))
    modifies g`operatorGraph, g`needsRebuild
    ensures AnswersLaunch(x, agents, r, networks, sorted)
  {
    networks, sorted := map[], [];
    Launchable(x, g, agents);
    var assigner := MakeAssigner(agents, g);
    if assigner.Failure? {
      return Failure(assigner.error), networks, sorted;
    }
    sorted := assigner.value.sorted;
    r, networks := assigner.value.Assign(dice);
    AssignedAnswers(x, g, agents, assigner.value.graph, sorted, r, networks);
  }
}
