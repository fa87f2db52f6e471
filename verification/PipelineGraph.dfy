/** The pipeline graph: nodes, edges, and a cached operator-to-operator graph. */
module PipelineGraph {
  import opened Common
  import opened Models
  import opened Graphs

  // What a node carries. A node that exists only because an edge named it carries nothing.
  datatype Node = Blank | OperatorNode(operator: RuntimeOperator) | PortNode(port: RuntimePort)

  datatype Digraph = Digraph(nodes: set<Id>, edges: set<Link>)

  datatype GraphError = MissingNode | MissingEdge | BlankNode

  function PortsIn(nodes: map<Id, Node>): (m: map<Id, RuntimePort>)
  {
    map n | n in nodes && nodes[n].PortNode? :: nodes[n].port
  }

  function OperatorsIn(nodes: map<Id, Node>): (m: map<Id, RuntimeOperator>)
  {
    map n | n in nodes && nodes[n].OperatorNode? :: nodes[n].operator
  }

  // Reading the node kinds fails on a blank node.
  predicate Readable(nodes: map<Id, Node>) {
    forall n :: n in nodes ==> !nodes[n].Blank?
  }

  predicate CrossesOperators(ports: map<Id, RuntimePort>, e: Link) {
    e.0 in ports && e.1 in ports && ports[e.0].operatorId != ports[e.1].operatorId
  }

  // Operator u feeds operator v when a port of u is wired to a port of v and they differ.
  function OperatorLinks(ports: map<Id, RuntimePort>, edges: set<Link>): (links: set<Link>)
  {
    set e | e in edges && CrossesOperators(ports, e) :: (ports[e.0].operatorId, ports[e.1].operatorId)
  }

  function Endpoints(links: set<Link>): set<Id> {
    (set l | l in links :: l.0) + (set l | l in links :: l.1)
  }

  lemma LinksGrow(ports: map<Id, RuntimePort>, done: set<Link>, e: Link)
    ensures OperatorLinks(ports, done + {e})
         == if CrossesOperators(ports, e)
            then OperatorLinks(ports, done) + {(ports[e.0].operatorId, ports[e.1].operatorId)}
            else OperatorLinks(ports, done)
  {
  }

  lemma EndpointsGrow(links: set<Link>, l: Link)
    ensures Endpoints(links + {l}) == Endpoints(links) + {l.0, l.1}
  {
    assert l in links + {l};
  }

  function OperatorGraphOf(nodes: map<Id, Node>, edges: set<Link>): Digraph {
    var links := OperatorLinks(PortsIn(nodes), edges);
    Digraph(OperatorsIn(nodes).Keys + Endpoints(links), links)
  }

  function OperatorList(order: seq<Id>, nodes: map<Id, Node>): seq<RuntimeOperator> {
    if order == [] then [] else
    var init := OperatorList(order[..|order| - 1], nodes);
    var n := order[|order| - 1];
    if n in nodes && nodes[n].OperatorNode? then init + [nodes[n].operator] else init
  }

  function PortList(order: seq<Id>, nodes: map<Id, Node>): seq<RuntimePort> {
    if order == [] then [] else
    var init := PortList(order[..|order| - 1], nodes);
    var n := order[|order| - 1];
    if n in nodes && nodes[n].PortNode? then init + [nodes[n].port] else init
  }

  // The first element of each kind, in order of appearance.
  function Firsts<T(!new, ==)>(kind: T -> Id, xs: seq<T>): seq<T> {
    if xs == [] then [] else
    var front, last := xs[..|xs| - 1], xs[|xs| - 1];
    if kind(last) in Kinds(kind, front) then Firsts(kind, front) else Firsts(kind, front) + [last]
  }

  function Kinds<T(!new, ==)>(kind: T -> Id, xs: seq<T>): set<Id> {
    set x | x in xs :: kind(x)
  }

  lemma KindsGrow<T(!new)>(kind: T -> Id, xs: seq<T>, x: T)
    ensures Kinds(kind, xs + [x]) == Kinds(kind, xs) + {kind(x)}
  {
    assert x in xs + [x];
  }

  // An element is kept exactly when it is the first of its kind somewhere.
  lemma {:induction false} FirstsIff<T(!new)>(kind: T -> Id, xs: seq<T>, x: T)
    ensures x in Firsts(kind, xs)
       <==> exists i :: 0 <= i < |xs| && xs[i] == x && forall j :: 0 <= j < i ==> kind(xs[j]) != kind(x)
  {
    if xs != [] {
      var front, last := xs[..|xs| - 1], xs[|xs| - 1];
      assert xs == front + [last];
      FirstsIff(kind, front, x);
    }
  }

  function OperatorKind(r: RuntimeOperator): Id { r.canonicalId }

  function PortKind(q: RuntimePort): Id { q.canonicalId }

  function OperatorsToCanonical(rs: seq<RuntimeOperator>, order: set<Id> -> seq<Id>): (cs: seq<CanonicalOperator>)
    ensures |cs| == |rs| && forall i :: 0 <= i < |rs| ==> cs[i] == OperatorToCanonical(rs[i], order)
  {
    seq(|rs|, i requires 0 <= i < |rs| => OperatorToCanonical(rs[i], order))
  }

  function PortsToCanonical(qs: seq<RuntimePort>): (cs: seq<CanonicalPort>)
    ensures |cs| == |qs| && forall i :: 0 <= i < |qs| ==> cs[i] == PortToCanonical(qs[i])
  {
    seq(|qs|, i requires 0 <= i < |qs| => PortToCanonical(qs[i]))
  }

  // The canonical edges behind the wires between ports.
  function CanonicalEdges(ports: map<Id, RuntimePort>, edges: set<Link>): set<CanonicalEdge> {
    set e | e in edges && e.0 in ports && e.1 in ports :: CanonicalEdge(ports[e.0].canonicalId, ports[e.1].canonicalId)
  }

  // The part of `edges` with both ends in `S`.
  function Induced(edges: set<Link>, S: set<Id>): set<Link> {
    set e | e in edges && e.0 in S && e.1 in S
  }

  lemma BlankEnds(nodes: map<Id, Node>, u: Id, v: Id)
    ensures var withU := if u in nodes then nodes else nodes[u := Blank];
            (if v in withU then withU else withU[v := Blank]) == map[u := Blank, v := Blank] + nodes
  {
  }

  function OtherThan(n: Id): Id -> bool {
    m => m != n
  }

  class Pipeline {
    var id: Id
    var canonicalId: Option<Id>
    var revisionId: Option<int>
    var order: seq<Id>  // insertion order of the nodes
    var nodes: map<Id, Node>
    var edges: set<Link>
    var operatorGraph: Digraph
    var needsRebuild: bool

    ghost predicate Valid()
      reads this
    {
      && NoDup(order) && Elements(order) == nodes.Keys
      && Over(edges, nodes.Keys)
      && (!needsRebuild ==> Readable(nodes) && operatorGraph == OperatorGraphOf(nodes, edges))
    }

    constructor (id: Id, canonicalId: Option<Id>, revisionId: Option<int>)
      ensures Valid() && needsRebuild
      ensures this.id == id && this.canonicalId == canonicalId && this.revisionId == revisionId
      ensures order == [] && nodes == map[] && edges == {}
    {
      this.id, this.canonicalId, this.revisionId := id, canonicalId, revisionId;
      order, nodes, edges := [], map[], {};
      operatorGraph, needsRebuild := Digraph({}, {}), true;
    }

    // ----- Mutators -----

    // Adds a node, or replaces what an existing one carries; attributes already there survive a blank update.
    method AddNode(n: Id, node: Node)
      requires Valid()
      modifies this`order, this`nodes, this`needsRebuild
      ensures Valid()
      ensures order == if n in old(nodes) then old(order) else old(order) + [n]
      ensures nodes == if n in old(nodes) && node.Blank? then old(nodes) else old(nodes)[n := node]
      ensures needsRebuild
    {
      if n !in nodes {
        order := order + [n];
        nodes := nodes[n := node];
        assert Elements(order) == old(Elements(order)) + {n};
      } else if !node.Blank? {
        nodes := nodes[n := node];
      }
      needsRebuild := true;
    }

    // Adds an edge, and any end of it that is not there yet.
    method AddEdge(u: Id, v: Id)
      requires Valid()
      modifies this`order, this`nodes, this`edges, this`needsRebuild
      ensures Valid()
      ensures edges == old(edges) + {(u, v)}
      ensures needsRebuild
      ensures nodes == map[u := Blank, v := Blank] + old(nodes)
      ensures var first := if u in old(nodes) then [] else [u];
              order == old(order) + first + if v in old(nodes) || v == u then [] else [v]
    {
      AddNode(u, Blank);
      AddNode(v, Blank);
      BlankEnds(old(nodes), u, v);
      edges := edges + {(u, v)};
      needsRebuild := true;
    }

    method RemoveNode(n: Id) returns (r: Result<(), GraphError>)
      requires Valid()
      modifies this`order, this`nodes, this`edges, this`needsRebuild
      ensures Valid()
      ensures r.Failure? <==> n !in old(nodes)
      ensures r.Failure? ==> r.error == MissingNode && order == old(order) && nodes == old(nodes) && edges == old(edges)
                             && needsRebuild == old(needsRebuild)
      ensures r.Success? ==> nodes == old(nodes) - {n} && edges == Induced(old(edges), nodes.Keys)
      ensures r.Success? ==> order == Filter(OtherThan(n), old(order))
    {
      if n !in nodes {
        return Failure(MissingNode);
      }
      FilterKeepsDistinct(OtherThan(n), order);
      order := Filter(OtherThan(n), order);
      nodes := nodes - {n};
      edges := Induced(edges, nodes.Keys);
      needsRebuild := true;
      return Success(());
    }

    method RemoveEdge(u: Id, v: Id) returns (r: Result<(), GraphError>)
      requires Valid()
      modifies this`edges, this`needsRebuild
      ensures Valid()
      ensures r.Failure? <==> (u, v) !in old(edges)
      ensures r.Failure? ==> r.error == MissingEdge && edges == old(edges) && needsRebuild == old(needsRebuild)
      ensures r.Success? ==> edges == old(edges) - {(u, v)}
    {
      if (u, v) !in edges {
        return Failure(MissingEdge);
      }
      edges := edges - {(u, v)};
      needsRebuild := true;
      return Success(());
    }

    // ----- The cached operator graph -----

    method BuildOperatorGraph() returns (r: Result<(), GraphError>)
      requires Valid() && needsRebuild
      modifies this`operatorGraph, this`needsRebuild
      ensures Valid()
      ensures r == (if Readable(nodes) then Success(()) else Failure(BlankNode))
      ensures r.Failure? <==> exists n :: n in nodes && nodes[n] == Blank
      ensures needsRebuild == r.Failure?
    {
      operatorGraph := Digraph({}, {});
      if !Readable(nodes) {
        return Failure(BlankNode);
      }
      operatorGraph := Digraph(OperatorsIn(nodes).Keys, {});
      LinkOperators(PortsIn(nodes));
      needsRebuild := false;
      return Success(());
    }

    method LinkOperators(ports: map<Id, RuntimePort>)
      requires operatorGraph.edges == {}
      modifies this`operatorGraph
      ensures operatorGraph.edges == OperatorLinks(ports, edges)
      ensures operatorGraph.nodes == old(operatorGraph.nodes) + Endpoints(operatorGraph.edges)
    {
      var done, todo := {}, edges;
      while todo != {}
        invariant done + todo == edges
        invariant operatorGraph.edges == OperatorLinks(ports, done)
        invariant operatorGraph.nodes == old(operatorGraph.nodes) + Endpoints(operatorGraph.edges)
        decreases todo
      {
        var e :| e in todo;
        LinksGrow(ports, done, e);
        if e.0 in ports && e.1 in ports {
          var src, dst := ports[e.0].operatorId, ports[e.1].operatorId;
          if src != dst {
            EndpointsGrow(operatorGraph.edges, (src, dst));
            operatorGraph := Digraph(operatorGraph.nodes + {src, dst}, operatorGraph.edges + {(src, dst)});
          }
        }
        done, todo := done + {e}, todo - {e};
      }
      assert done == edges;
    }

    // Whatever happened before, the graph handed out is the one a fresh build would give.
    method GetOperatorGraph() returns (r: Result<Digraph, GraphError>)
      requires Valid()
      modifies this`operatorGraph, this`needsRebuild
      ensures Valid()
      ensures r == if Readable(nodes) then Success(OperatorGraphOf(nodes, edges)) else Failure(BlankNode)
    {
      if needsRebuild {
        var built := BuildOperatorGraph();
        if built.Failure? {
          return Failure(built.error);
        }
      }
      return Success(operatorGraph);
    }

    // ----- Back to canonical form -----

    // Keeps the first replica of each operator, the first copy of each port, and each canonical edge once.
    method ToCanonical(setOrder: set<Id> -> seq<Id>) returns (r: Result<CanonicalPipeline, GraphError>)
      requires Valid()
      ensures r == Failure(BlankNode) <==> exists n :: n in nodes && nodes[n] == Blank
      ensures r.Failure? ==> r.error == BlankNode
      ensures r.Success? ==> r.value.id == if canonicalId.Some? then canonicalId.value else id
      ensures r.Success? ==> r.value.revisionId == if revisionId.Some? then revisionId.value else 1
      ensures r.Success? ==>
                r.value.operators == OperatorsToCanonical(Firsts(OperatorKind, OperatorList(order, nodes)), setOrder)
      ensures r.Success? ==> r.value.ports == PortsToCanonical(Firsts(PortKind, PortList(order, nodes)))
      ensures r.Success? ==> NoDup(r.value.edges) && Elements(r.value.edges) == CanonicalEdges(PortsIn(nodes), edges)
    {
      if !Readable(nodes) {
        return Failure(BlankNode);
      }
      var operators := DistinctOperatorsOf(OperatorList(order, nodes), setOrder);
      var ports := DistinctPortsOf(PortList(order, nodes));
      var canonicalEdges := DistinctEdgesOf(PortsIn(nodes), edges);
      return Success(CanonicalPipeline(if canonicalId.Some? then canonicalId.value else id,
                                       if revisionId.Some? then revisionId.value else 1,
                                       operators, ports, canonicalEdges));
    }

    // ----- Upstream subgraph -----

    // The subgraph of everything that can reach `start`, start included.
    method FromUpstreamSubgraph(start: Id) returns (r: Result<Pipeline, GraphError>)
      requires Valid()
      ensures r.Failure? <==> start !in nodes || exists n :: n in nodes && nodes[n].Blank? && Reaches(edges, n, start)
      ensures r.Failure? ==> r.error == if start in nodes then BlankNode else MissingNode
      ensures r.Success? ==>
        var g := r.value;
        && fresh(g) && g.Valid() && g.id == start && g.canonicalId == None && g.revisionId == None && !g.needsRebuild
        && (forall n :: n in g.nodes <==> n in nodes && Reaches(edges, n, start))
        && (forall n :: n in g.nodes ==> g.nodes[n] == nodes[n])
        && g.edges == Induced(edges, g.nodes.Keys)
        && g.operatorGraph == OperatorGraphOf(g.nodes, g.edges)
    {
      if start !in nodes {
        return Failure(MissingNode);
      }
      var visited := CollectUpstream(start);
      var g := CopyInduced(start, visited);
      var built := g.BuildOperatorGraph();
      if built.Failure? {
        return Failure(built.error);
      }
      return Success(g);
    }

    method CopyInduced(id: Id, S: set<Id>) returns (g: Pipeline)
      requires Valid() && S <= nodes.Keys
      ensures fresh(g) && g.Valid() && g.needsRebuild && g.id == id && g.canonicalId == None && g.revisionId == None
      ensures g.nodes.Keys == S && forall n :: n in S ==> g.nodes[n] == nodes[n]
      ensures g.edges == Induced(edges, S)
    {
      g := new Pipeline(id, None, None);
      var todo := S;
      while todo != {}
        invariant fresh(g) && g.Valid() && g.needsRebuild && g.id == id && g.edges == {}
        invariant g.canonicalId == None && g.revisionId == None
        invariant todo <= S
        invariant g.nodes.Keys == S - todo
        invariant forall n :: n in g.nodes ==> g.nodes[n] == nodes[n]
        decreases todo
      {
        var n :| n in todo;
        g.AddNode(n, nodes[n]);
        todo := todo - {n};
      }
      g.AddInducedEdges(edges);
    }

    // Adds those of the given edges whose ends are both present.
    method AddInducedEdges(candidates: set<Link>)
      requires Valid() && edges == {} && needsRebuild
      modifies this`order, this`nodes, this`edges, this`needsRebuild
      ensures Valid() && needsRebuild
      ensures nodes == old(nodes) && edges == Induced(candidates, nodes.Keys)
    {
      var done, links := {}, candidates;
      while links != {}
        invariant Valid() && needsRebuild && nodes == old(nodes)
        invariant done + links == candidates
        invariant edges == Induced(done, nodes.Keys)
        decreases links
      {
        var e :| e in links;
        if e.0 in nodes && e.1 in nodes {
          AddEdge(e.0, e.1);
        }
        done, links := done + {e}, links - {e};
      }
      assert done == candidates;
    }

    // Depth-first search against the edges, with an explicit stack. Predecessors are pushed in any order.
    method CollectUpstream(start: Id) returns (visited: set<Id>)
      requires Valid() && start in nodes
      ensures visited <= nodes.Keys
      ensures forall n :: n in visited <==> n in nodes && Reaches(edges, n, start)
    {
      var stack := [start];
      visited := {};
      ReachesSelf(edges, start);
      while stack != []
        invariant visited <= nodes.Keys && Elements(stack) <= nodes.Keys
        invariant start in visited || start in stack
        invariant forall n :: n in visited || n in stack ==> Reaches(edges, n, start)
        invariant forall e :: e in edges && e.1 in visited ==> e.0 in visited || e.0 in stack
        decreases nodes.Keys - visited, |stack|
      {
        var current := stack[|stack| - 1];
        stack := stack[..|stack| - 1];
        if current !in visited {
          visited := visited + {current};
          var predecessors := Listed(set e | e in edges && e.1 == current :: e.0);
          forall p | p in predecessors ensures Reaches(edges, p, start) {
            ReachesStep(edges, p, current, start);
          }
          stack := stack + predecessors;
        }
      }
      forall n | n in nodes && Reaches(edges, n, start) ensures n in visited {
        var w :| IsWalkBetween(edges, w, n, start);
        ClosedUnderReach(edges, visited, w);
      }
    }
  }

  method DistinctOperatorsOf(rs: seq<RuntimeOperator>, setOrder: set<Id> -> seq<Id>)
    returns (cs: seq<CanonicalOperator>)
    ensures cs == OperatorsToCanonical(Firsts(OperatorKind, rs), setOrder)
  {
    var seen := {};
    cs := [];
    for i := 0 to |rs|
      invariant seen == Kinds(OperatorKind, rs[..i])
      invariant cs == OperatorsToCanonical(Firsts(OperatorKind, rs[..i]), setOrder)
    {
      assert rs[..i + 1] == rs[..i] + [rs[i]] && rs[..i + 1][..i] == rs[..i];
      KindsGrow(OperatorKind, rs[..i], rs[i]);
      if rs[i].canonicalId !in seen {
        seen := seen + {rs[i].canonicalId};
        cs := cs + [OperatorToCanonical(rs[i], setOrder)];
      }
    }
    assert rs[..|rs|] == rs;
  }

  method DistinctPortsOf(qs: seq<RuntimePort>) returns (cs: seq<CanonicalPort>)
    ensures cs == PortsToCanonical(Firsts(PortKind, qs))
  {
    var seen := {};
    cs := [];
    for i := 0 to |qs|
      invariant seen == Kinds(PortKind, qs[..i])
      invariant cs == PortsToCanonical(Firsts(PortKind, qs[..i]))
    {
      assert qs[..i + 1] == qs[..i] + [qs[i]] && qs[..i + 1][..i] == qs[..i];
      KindsGrow(PortKind, qs[..i], qs[i]);
      if qs[i].canonicalId !in seen {
        seen := seen + {qs[i].canonicalId};
        cs := cs + [PortToCanonical(qs[i])];
      }
    }
    assert qs[..|qs|] == qs;
  }

  method DistinctEdgesOf(ports: map<Id, RuntimePort>, edges: set<Link>) returns (cs: seq<CanonicalEdge>)
    ensures NoDup(cs) && Elements(cs) == CanonicalEdges(ports, edges)
  {
    var done, todo := {}, edges;
    cs := [];
    while todo != {}
      invariant done + todo == edges
      invariant NoDup(cs) && Elements(cs) == CanonicalEdges(ports, done)
      decreases todo
    {
      var e :| e in todo;
      if e.0 in ports && e.1 in ports {
        var key := CanonicalEdge(ports[e.0].canonicalId, ports[e.1].canonicalId);
        assert e in done + {e};
        assert CanonicalEdges(ports, done + {e}) == CanonicalEdges(ports, done) + {key};
        if key !in cs {
          assert Elements(cs + [key]) == Elements(cs) + {key};
          cs := cs + [key];
        }
      } else {
        assert CanonicalEdges(ports, done + {e}) == CanonicalEdges(ports, done);
      }
      done, todo := done + {e}, todo - {e};
    }
    assert done == edges;
  }

  method Listed(s: set<Id>) returns (xs: seq<Id>)
    ensures NoDup(xs) && Elements(xs) == s
  {
    xs := [];
    var rest := s;
    while rest != {}
      invariant rest <= s && NoDup(xs) && Elements(xs) == s - rest
      decreases rest
    {
      var x :| x in rest;
      assert Elements(xs + [x]) == Elements(xs) + {x};
      xs, rest := xs + [x], rest - {x};
    }
  }
}
