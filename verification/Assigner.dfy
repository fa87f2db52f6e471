/** Assigning operators to agents: tags must match, networks are preferred, load is balanced, ties are random. */
module Assigner {
  import opened Common
  import opened Models
  import opened Graphs
  import opened PipelineGraph

  // An agent always has at least one network.
  datatype Agent = Agent(id: Id, tags: set<string>, networks: set<string>)

  datatype Assignment = Assignment(agentId: Id, operators: seq<Id>)

  datatype AssignError = NoAgents | CyclicDependencies | NetworkPreference | UnassignableOperators | BrokenPipeline

  const OPERATOR_NOT_FOUND := "Operator not found"
  const NO_MATCHING_AGENTS := "No matching agents"
  const NO_ELIGIBLE_AGENT := "No eligible agent"

  // Agents are listed once each, under distinct identifiers.
  ghost predicate ValidAgents(agents: seq<Agent>) {
    NoDup(agents) && ValidPool(Elements(agents))
  }

  ghost predicate ValidPool(pool: set<Agent>) {
    && (forall a, b :: a in pool && b in pool && a.id == b.id ==> a == b)
    && (forall a :: a in pool ==> a.networks != {})
  }

  function AgentIds(pool: set<Agent>): set<Id> {
    set a | a in pool :: a.id
  }

  predicate Matches(a: Agent, op: RuntimeOperator) {
    op.tags <= a.tags
  }

  predicate SharesNetwork(a: Agent, allowed: set<string>) {
    allowed * a.networks != {}
  }

  // The networks recorded for an operator's direct predecessors, taken together.
  function PredecessorNetworks(E: set<Link>, networks: map<Id, set<string>>, op: Id): set<string> {
    set e, n | e in E && e.1 == op && e.0 in networks && n in networks[e.0] :: n
  }

  // No restriction when no predecessor has recorded a network.
  function AllowedNetworks(E: set<Link>, networks: map<Id, set<string>>, op: Id): Option<set<string>> {
    var upstream := PredecessorNetworks(E, networks, op);
    if upstream == {} then None else Some(upstream)
  }

  predicate OccursAt(text: string, word: string, i: nat) {
    i + |word| <= |text| && text[i..i + |word|] == word
  }

  predicate Contains(text: string, word: string) {
    exists i :: 0 <= i <= |text| && OccursAt(text, word, i)
  }

  // An operator that exists and that some agent's tags cover.
  ghost predicate Assignable(pool: set<Agent>, operators: map<Id, RuntimeOperator>, op: Id) {
    op in operators && exists a :: a in pool && Matches(a, operators[op])
  }

  // ----- What every reachable state keeps -----

  // `host` says which agent each placed operator went to; the agents' lists say the same, each operator once.
  ghost predicate Consistent(pool: set<Agent>, assignments: map<Id, seq<Id>>, host: map<Id, Agent>) {
    && assignments.Keys == AgentIds(pool)
    && (forall o :: o in host ==> host[o] in pool)
    && (forall a :: a in assignments ==> NoDup(assignments[a]))
    && (forall a, o :: a in assignments ==> (o in assignments[a] <==> o in host && host[o].id == a))
  }

  // The recorded networks are some of the host's own.
  ghost predicate OwnNetworks(host: map<Id, Agent>, networks: map<Id, set<string>>) {
    networks.Keys == host.Keys
    && forall o {:trigger SomeOf(networks[o], host[o])} :: o in host ==> SomeOf(networks[o], host[o])
  }

  ghost predicate SomeOf(recorded: set<string>, a: Agent) {
    recorded != {} && recorded <= a.networks
  }

  // The recorded networks stay inside the predecessors' unless no matching agent is on any of those.
  ghost predicate Sticks(pool: set<Agent>, E: set<Link>, op: RuntimeOperator, networks: map<Id, set<string>>, o: Id)
    requires o in networks
  {
    var upstream := PredecessorNetworks(E, networks, o);
    upstream != {} ==> networks[o] <= upstream || NoneShares(pool, op, upstream)
  }

  ghost predicate AllStick(pool: set<Agent>, operators: map<Id, RuntimeOperator>, E: set<Link>,
                           networks: map<Id, set<string>>)
  {
    networks.Keys <= operators.Keys
    && forall o {:trigger Sticks(pool, E, operators[o], networks, o)} :: o in networks ==>
      Sticks(pool, E, operators[o], networks, o)
  }

  // Every placed operator is known, and its host's tags cover it.
  ghost predicate HostsMatch(operators: map<Id, RuntimeOperator>, host: map<Id, Agent>) {
    forall o :: o in host ==> o in operators && Matches(host[o], operators[o])
  }

  ghost predicate Interchangeable(a: Agent, b: Agent) {
    a.tags == b.tags && a.networks == b.networks
  }

  // Interchangeable agents never differ by more than one operator.
  ghost predicate Balanced(pool: set<Agent>, assignments: map<Id, seq<Id>>)
    requires AgentIds(pool) <= assignments.Keys
  {
    forall a, b :: a in pool && b in pool && Interchangeable(a, b) ==> |assignments[a.id]| <= |assignments[b.id]| + 1
  }

  // Every placed operator's agent could host it, and its networks were recorded for that agent.
  ghost predicate AllHosted(pool: set<Agent>, operators: map<Id, RuntimeOperator>, E: set<Link>,
                            networks: map<Id, set<string>>, host: map<Id, Agent>)
  {
    && host.Keys <= operators.Keys && host.Keys <= networks.Keys
    && forall o {:trigger Hosted(pool, operators[o], AllowedNetworks(E, networks, o), host[o], networks[o])} ::
         o in host ==> Hosted(pool, operators[o], AllowedNetworks(E, networks, o), host[o], networks[o])
  }

  ghost predicate Hosted(pool: set<Agent>, op: RuntimeOperator, allowed: Option<set<string>>, a: Agent,
                         recorded: set<string>)
  {
    CanHost(pool, op, allowed, a) && recorded == RecordedNetworks(a, allowed)
  }

  ghost predicate Sound(pool: set<Agent>, operators: map<Id, RuntimeOperator>, E: set<Link>,
                        assignments: map<Id, seq<Id>>, networks: map<Id, set<string>>, host: map<Id, Agent>)
  {
    && Consistent(pool, assignments, host)
    && OwnNetworks(host, networks)
    && AllStick(pool, operators, E, networks)
    && HostsMatch(operators, host)
    && Balanced(pool, assignments)
    && AllHosted(pool, operators, E, networks, host)
  }

  class AssignmentState {
    var assignments: map<Id, seq<Id>>
    var operatorNetworks: map<Id, set<string>>
    ghost var host: map<Id, Agent>

    ghost predicate Valid(pool: set<Agent>, operators: map<Id, RuntimeOperator>, E: set<Link>)
      reads this
    {
      Sound(pool, operators, E, assignments, operatorNetworks, host)
    }

    constructor (pool: set<Agent>, ghost operators: map<Id, RuntimeOperator>, ghost E: set<Link>)
      requires ValidPool(pool)
      ensures Valid(pool, operators, E) && host == map[]
    {
      assignments := map id | id in AgentIds(pool) :: [];
      operatorNetworks := map[];
      host := map[];
    }
  }

  function Covering(op: RuntimeOperator): Agent -> bool {
    a => Matches(a, op)
  }

  // The agents whose tags cover the operator's, in order.
  method FindAgentsMatchingTags(agents: seq<Agent>, op: RuntimeOperator) returns (r: seq<Agent>)
    ensures r == Filter(Covering(op), agents)
  {
    if op.tags == {} {
      FilterAll(Covering(op), agents);
      return agents;
    }
    r := [];
    for i := 0 to |agents|
      invariant r == Filter(Covering(op), agents[..i])
    {
      assert agents[..i + 1][..i] == agents[..i];
      if op.tags <= agents[i].tags {
        r := r + [agents[i]];
      }
    }
    assert agents[..|agents|] == agents;
  }

  method DetermineAllowedNetworks(E: set<Link>, op: Id, networks: map<Id, set<string>>)
    returns (allowed: Option<set<string>>)
    ensures allowed == AllowedNetworks(E, networks, op)
  {
    var upstream: set<string> := {};
    var done, todo := {}, E;
    while todo != {}
      invariant done + todo == E
      invariant upstream == PredecessorNetworks(done, networks, op)
      decreases todo
    {
      var e :| e in todo;
      UpstreamGrows(done, e, networks, op);
      if e.1 == op && e.0 in networks {
        upstream := upstream + networks[e.0];
      }
      done, todo := done + {e}, todo - {e};
    }
    assert done == E;
    allowed := if upstream == {} then None else Some(upstream);
  }

  lemma UpstreamGrows(done: set<Link>, e: Link, networks: map<Id, set<string>>, op: Id)
    ensures PredecessorNetworks(done + {e}, networks, op)
         == PredecessorNetworks(done, networks, op) + if e.1 == op && e.0 in networks then networks[e.0] else {}
  {
    assert e in done + {e};
  }

  function OnNetworks(allowed: set<string>): Agent -> bool {
    a => SharesNetwork(a, allowed)
  }

  // All candidates on the allowed networks, in order; all candidates when there is no restriction or none is on them.
  function Preferred(candidates: seq<Agent>, allowed: Option<set<string>>): (r: seq<Agent>)
    ensures r == [] <==> candidates == []
    ensures forall a :: a in r <==> a in candidates && (allowed.None? || SharesNetwork(a, allowed.value)
                                    || forall c :: c in candidates ==> !SharesNetwork(c, allowed.value))
  {
    if allowed.None? then candidates else
    var on := Filter(OnNetworks(allowed.value), candidates);
    assert on == [] ==> forall c :: c in candidates ==> !SharesNetwork(c, allowed.value) by {
      assert forall c :: c in on <==> c in candidates && SharesNetwork(c, allowed.value);
    }
    assert on != [] ==> on[0] in on;
    if on == [] then candidates else on
  }

  method FilterAgentsByNetworks(candidates: seq<Agent>, allowed: Option<set<string>>) returns (r: seq<Agent>)
    ensures r == Preferred(candidates, allowed)
  {
    if allowed.None? {
      return candidates;
    }
    r := [];
    for i := 0 to |candidates|
      invariant r == Filter(OnNetworks(allowed.value), candidates[..i])
    {
      assert candidates[..i + 1][..i] == candidates[..i];
      if allowed.value * candidates[i].networks != {} {
        r := r + [candidates[i]];
      }
    }
    assert candidates[..|candidates|] == candidates;
    if r == [] {
      r := candidates;
    }
  }

  function Load(assignments: map<Id, seq<Id>>, a: Agent): nat {
    if a.id in assignments then |assignments[a.id]| else 0
  }

  function LightAmong(candidates: seq<Agent>, assignments: map<Id, seq<Id>>): Agent -> bool {
    a => forall c :: c in candidates ==> Load(assignments, a) <= Load(assignments, c)
  }

  // The least loaded candidates, in order.
  function Lightest(candidates: seq<Agent>, assignments: map<Id, seq<Id>>): seq<Agent> {
    Filter(LightAmong(candidates, assignments), candidates)
  }

  // One of the least loaded candidates: which one, the dice say.
  method SelectBestAgent(candidates: seq<Agent>, assignments: map<Id, seq<Id>>, roll: nat) returns (best: Option<Agent>)
    ensures best.None? <==> candidates == []
    ensures candidates != [] ==> Lightest(candidates, assignments) != []
    ensures candidates != [] ==>
              best == Some(Lightest(candidates, assignments)[roll % |Lightest(candidates, assignments)|])
  {
    if candidates == [] {
      return None;
    }
    var minLoad := Load(assignments, candidates[0]);
    ghost var lightest := candidates[0];
    for i := 1 to |candidates|
      invariant forall j :: 0 <= j < i ==> minLoad <= Load(assignments, candidates[j])
      invariant lightest in candidates && Load(assignments, lightest) == minLoad
    {
      if Load(assignments, candidates[i]) < minLoad {
        minLoad, lightest := Load(assignments, candidates[i]), candidates[i];
      }
    }
    var least := LeastLoaded(candidates, assignments, minLoad, lightest);
    return Some(least[roll % |least|]);
  }

  method LeastLoaded(candidates: seq<Agent>, assignments: map<Id, seq<Id>>, minLoad: nat, ghost lightest: Agent)
    returns (least: seq<Agent>)
    requires forall c :: c in candidates ==> minLoad <= Load(assignments, c)
    requires lightest in candidates && Load(assignments, lightest) == minLoad
    ensures least == Lightest(candidates, assignments) && least != []
  {
    least := [];
    for i := 0 to |candidates|
      invariant least == Filter(LightAmong(candidates, assignments), candidates[..i])
    {
      assert candidates[..i + 1][..i] == candidates[..i];
      if Load(assignments, candidates[i]) == minLoad {
        least := least + [candidates[i]];
      }
    }
    assert candidates[..|candidates|] == candidates;
    assert lightest in least;
  }

  // Every least loaded candidate is the choice of some roll.
  lemma EveryTieCanWin(candidates: seq<Agent>, assignments: map<Id, seq<Id>>, a: Agent) returns (roll: nat)
    requires a in candidates && forall c :: c in candidates ==> Load(assignments, a) <= Load(assignments, c)
    ensures Lightest(candidates, assignments) != []
    ensures Lightest(candidates, assignments)[roll % |Lightest(candidates, assignments)|] == a
  {
    assert a in Lightest(candidates, assignments);
    roll := Position(Lightest(candidates, assignments), a);
  }

  lemma Position(xs: seq<Agent>, a: Agent) returns (i: nat)
    requires a in xs
    ensures i < |xs| && i % |xs| == i && xs[i] == a
  {
    i :| 0 <= i < |xs| && xs[i] == a;
  }

  // The networks a placed operator is recorded on.
  function RecordedNetworks(a: Agent, allowed: Option<set<string>>): (r: set<string>)
    ensures r <= a.networks && (a.networks != {} ==> r != {})
    ensures allowed.Some? && SharesNetwork(a, allowed.value) ==> r <= allowed.value
  {
    if allowed.None? || a.networks * allowed.value == {} then a.networks else a.networks * allowed.value
  }

  method RecordAssignment(state: AssignmentState, op: Id, a: Agent, allowed: Option<set<string>>)
    requires a.id in state.assignments
    modifies state
    ensures state.assignments == old(state.assignments)[a.id := old(state.assignments)[a.id] + [op]]
    ensures state.operatorNetworks == old(state.operatorNetworks)[op := RecordedNetworks(a, allowed)]
    ensures state.host == old(state.host)[op := a]
  {
    state.assignments := state.assignments[a.id := state.assignments[a.id] + [op]];
    state.operatorNetworks := state.operatorNetworks[op := RecordedNetworks(a, allowed)];
    state.host := state.host[op := a];
  }

  // An agent that may host the operator: its tags cover it, and it is on an allowed network if any such agent is.
  ghost predicate CanHost(pool: set<Agent>, op: RuntimeOperator, allowed: Option<set<string>>, a: Agent) {
    && a in pool && op.tags <= a.tags
    && (allowed.Some? ==> IsOn(a, allowed.value) || NoneShares(pool, op, allowed.value))
  }

  ghost predicate IsOn(a: Agent, networks: set<string>) {
    exists n :: n in networks && n in a.networks
  }

  ghost predicate NoneShares(pool: set<Agent>, op: RuntimeOperator, allowed: set<string>) {
    forall b :: b in pool && op.tags <= b.tags ==> !IsOn(b, allowed)
  }

  lemma SharingIsOn(a: Agent, networks: set<string>)
    ensures SharesNetwork(a, networks) <==> IsOn(a, networks)
  {
    if IsOn(a, networks) {
      var n :| n in networks && n in a.networks;
      assert n in networks * a.networks;
    }
    if SharesNetwork(a, networks) {
      var n :| n in networks * a.networks;
    }
  }

  // A legitimate choice for an operator: least loaded among all agents that may host it.
  ghost predicate Eligible(pool: set<Agent>, op: RuntimeOperator, allowed: Option<set<string>>,
                           assignments: map<Id, seq<Id>>, a: Agent)
    requires AgentIds(pool) <= assignments.Keys
  {
    && CanHost(pool, op, allowed, a)
    && (forall b :: CanHost(pool, op, allowed, b) ==> |assignments[a.id]| <= |assignments[b.id]|)
  }

  lemma ConsistentNext(pool: set<Agent>, assignments: map<Id, seq<Id>>, host: map<Id, Agent>, op: Id, a: Agent)
    requires ValidPool(pool) && Consistent(pool, assignments, host) && a in pool && op !in host
    ensures Consistent(pool, assignments[a.id := assignments[a.id] + [op]], host[op := a])
  {
  }

  lemma BalancedNext(pool: set<Agent>, assignments: map<Id, seq<Id>>, op: Id, a: Agent)
    requires ValidPool(pool) && AgentIds(pool) <= assignments.Keys && Balanced(pool, assignments) && a in pool
    requires forall b :: b in pool && Interchangeable(a, b) ==> |assignments[a.id]| <= |assignments[b.id]|
    ensures Balanced(pool, assignments[a.id := assignments[a.id] + [op]])
  {
  }

  // Recording an operator that feeds none of those already placed leaves their upstream networks alone.
  lemma UpstreamUnchanged(E: set<Link>, networks: map<Id, set<string>>, op: Id, recorded: set<string>, o: Id)
    requires (op, o) !in E
    ensures PredecessorNetworks(E, networks[op := recorded], o) == PredecessorNetworks(E, networks, o)
  {
    var after := networks[op := recorded];
    forall e | e in E && e.1 == o ensures e.0 != op {
      assert e == (e.0, o);
    }
    forall n | n in PredecessorNetworks(E, networks, o) ensures n in PredecessorNetworks(E, after, o) {
      var e :| e in E && e.1 == o && e.0 in networks && n in networks[e.0];
      assert e.0 in after && n in after[e.0];
    }
    forall n | n in PredecessorNetworks(E, after, o) ensures n in PredecessorNetworks(E, networks, o) {
      var e :| e in E && e.1 == o && e.0 in after && n in after[e.0];
      assert e.0 in networks && n in networks[e.0];
    }
  }

  lemma SticksNext(pool: set<Agent>, operators: map<Id, RuntimeOperator>, E: set<Link>, networks: map<Id, set<string>>,
                   op: Id, a: Agent, allowed: Option<set<string>>, assignments: map<Id, seq<Id>>)
    requires AllStick(pool, operators, E, networks) && op in operators && op !in networks
    requires (op, op) !in E && forall o :: o in networks ==> (op, o) !in E
    requires allowed == AllowedNetworks(E, networks, op)
    requires AgentIds(pool) <= assignments.Keys && Eligible(pool, operators[op], allowed, assignments, a)
    ensures AllStick(pool, operators, E, networks[op := RecordedNetworks(a, allowed)])
  {
    var after := networks[op := RecordedNetworks(a, allowed)];
    if allowed.Some? {
      SharingIsOn(a, allowed.value);
    }
    forall o | o in after ensures Sticks(pool, E, operators[o], after, o) {
      UpstreamUnchanged(E, networks, op, RecordedNetworks(a, allowed), o);
      assert o != op ==> Sticks(pool, E, operators[o], networks, o);
    }
  }

  datatype Verdict = Placed | Refused(reason: string)

  // Picks an agent for an operator, if any agent's tags cover it.
  method ChooseAgent(agents: seq<Agent>, op: RuntimeOperator, allowed: Option<set<string>>,
                     assignments: map<Id, seq<Id>>, roll: nat)
    returns (best: Option<Agent>, matching: bool)
    requires AgentIds(Elements(agents)) <= assignments.Keys
    ensures matching <==> exists a :: a in Elements(agents) && Matches(a, op)
    ensures matching <==> best.Some?
    ensures best.Some? ==> Eligible(Elements(agents), op, allowed, assignments, best.value)
    ensures best.Some? ==> var least := Lightest(Preferred(Filter(Covering(op), agents), allowed), assignments);
                           least != [] && best.value == least[roll % |least|]
  {
    var candidates := FindAgentsMatchingTags(agents, op);
    assert forall a :: a in candidates <==> a in Elements(agents) && Matches(a, op);
    if candidates == [] {
      return None, false;
    }
    assert candidates[0] in candidates;
    var eligible := FilterAgentsByNetworks(candidates, allowed);
    best := SelectBestAgent(eligible, assignments, roll);
    matching := true;
    ChosenIsEligible(Elements(agents), op, allowed, assignments, candidates, best.value);
  }

  // The operator goes to a least loaded agent among those that may host it, and nothing else changes.
  ghost predicate Placing(pool: set<Agent>, operators: map<Id, RuntimeOperator>, E: set<Link>, op: Id, a: Agent,
                          assignments: map<Id, seq<Id>>, networks: map<Id, set<string>>, assignments': map<Id, seq<Id>>,
                          networks': map<Id, set<string>>)
  {
    && AgentIds(pool) <= assignments.Keys && op in operators && a in pool
    && Eligible(pool, operators[op], AllowedNetworks(E, networks, op), assignments, a)
    && assignments' == assignments[a.id := assignments[a.id] + [op]]
    && networks' == networks[op := RecordedNetworks(a, AllowedNetworks(E, networks, op))]
  }

  // Places one operator, or says why it cannot be placed.
  method PlaceOperator(agents: seq<Agent>, operators: map<Id, RuntimeOperator>, E: set<Link>, state: AssignmentState,
                       op: Id, roll: nat)
    returns (v: Verdict)
    requires ValidAgents(agents) && state.Valid(Elements(agents), operators, E)
    requires op !in state.host && (op, op) !in E && forall o :: o in state.host ==> (op, o) !in E
    modifies state
    ensures state.Valid(Elements(agents), operators, E)
    ensures v.Placed? <==> Assignable(Elements(agents), operators, op)
    ensures v.Placed? ==> op in state.host && Placing(Elements(agents), operators, E, op, state.host[op],
              old(state.assignments), old(state.operatorNetworks), state.assignments, state.operatorNetworks)
    ensures v.Placed? ==> state.host == old(state.host)[op := state.host[op]]
    ensures v.Refused? ==> v.reason == if op in operators then "No matching agents" else "Operator not found"
    ensures v.Refused? ==> state.assignments == old(state.assignments) && state.host == old(state.host)
                           && state.operatorNetworks == old(state.operatorNetworks)
  {
    if op !in operators {
      return Refused(OPERATOR_NOT_FOUND);
    }
    var allowed := DetermineAllowedNetworks(E, op, state.operatorNetworks);
    var best, matching := ChooseAgent(agents, operators[op], allowed, state.assignments, roll);
    if !matching {
      return Refused(NO_MATCHING_AGENTS);
    }
    if best.None? {
      return Refused(NO_ELIGIBLE_AGENT);
    }
    StillValid(Elements(agents), operators, E, state.assignments, state.operatorNetworks, state.host, op, best.value);
    RecordAssignment(state, op, best.value, allowed);
    return Placed;
  }

  // Recording a legitimate choice keeps every invariant of the state.
  lemma StillValid(pool: set<Agent>, operators: map<Id, RuntimeOperator>, E: set<Link>, assignments: map<Id, seq<Id>>,
                   networks: map<Id, set<string>>, host: map<Id, Agent>, op: Id, a: Agent)
    requires ValidPool(pool) && Sound(pool, operators, E, assignments, networks, host) && op in operators
    requires op !in host && (op, op) !in E && forall o :: o in host ==> (op, o) !in E
    requires Eligible(pool, operators[op], AllowedNetworks(E, networks, op), assignments, a)
    ensures Sound(pool, operators, E, assignments[a.id := assignments[a.id] + [op]],
                  networks[op := RecordedNetworks(a, AllowedNetworks(E, networks, op))], host[op := a])
  {
    ConsistentNext(pool, assignments, host, op, a);
    var allowed := AllowedNetworks(E, networks, op);
    forall b | b in pool && Interchangeable(a, b) ensures |assignments[a.id]| <= |assignments[b.id]| {
      assert CanHost(pool, operators[op], allowed, b);
    }
    BalancedNext(pool, assignments, op, a);
    SticksNext(pool, operators, E, networks, op, a, AllowedNetworks(E, networks, op), assignments);
    OwnNetworksNext(pool, networks, host, op, a, AllowedNetworks(E, networks, op));
    HostedNext(pool, operators, E, networks, host, op, a);
  }

  lemma HostedNext(pool: set<Agent>, operators: map<Id, RuntimeOperator>, E: set<Link>, networks: map<Id, set<string>>,
                   host: map<Id, Agent>, op: Id, a: Agent)
    requires AllHosted(pool, operators, E, networks, host) && op in operators
    requires op !in host && (op, op) !in E && forall o :: o in host ==> (op, o) !in E
    requires CanHost(pool, operators[op], AllowedNetworks(E, networks, op), a)
    ensures AllHosted(pool, operators, E, networks[op := RecordedNetworks(a, AllowedNetworks(E, networks, op))],
                      host[op := a])
  {
    var recorded := RecordedNetworks(a, AllowedNetworks(E, networks, op));
    var after, host' := networks[op := recorded], host[op := a];
    forall o | o in host' ensures Hosted(pool, operators[o], AllowedNetworks(E, after, o), host'[o], after[o]) {
      UpstreamUnchanged(E, networks, op, recorded, o);
      assert o != op ==> Hosted(pool, operators[o], AllowedNetworks(E, networks, o), host[o], networks[o]);
    }
  }

  lemma OwnNetworksNext(pool: set<Agent>, networks: map<Id, set<string>>, host: map<Id, Agent>, op: Id, a: Agent,
                        allowed: Option<set<string>>)
    requires ValidPool(pool) && OwnNetworks(host, networks) && a in pool
    ensures OwnNetworks(host[op := a], networks[op := RecordedNetworks(a, allowed)])
  {
  }

  lemma ChosenIsEligible(pool: set<Agent>, op: RuntimeOperator, allowed: Option<set<string>>,
                         assignments: map<Id, seq<Id>>, candidates: seq<Agent>, a: Agent)
    requires AgentIds(pool) <= assignments.Keys
    requires forall c :: c in candidates <==> c in pool && Matches(c, op)
    requires a in Lightest(Preferred(candidates, allowed), assignments)
    ensures Eligible(pool, op, allowed, assignments, a)
  {
    if allowed.Some? {
      forall b: Agent ensures SharesNetwork(b, allowed.value) <==> IsOn(b, allowed.value) {
        SharingIsOn(b, allowed.value);
      }
    }
    forall b | CanHost(pool, op, allowed, b) ensures Load(assignments, a) <= Load(assignments, b) {
      assert b in Preferred(candidates, allowed);
    }
  }

  // ----- Greediness over a whole run -----

  function ListOf(assignments: map<Id, seq<Id>>, a: Agent): seq<Id> {
    if a.id in assignments then assignments[a.id] else []
  }

  function Among(earlier: seq<Id>): Id -> bool {
    o => o in earlier
  }

  // How many of an agent's operators are among the earlier ones.
  function LoadWithin(earlier: seq<Id>, list: seq<Id>): nat {
    |Filter(Among(earlier), list)|
  }

  // If the agent hosts the operator, then no agent that could have hosted it had fewer of the earlier operators.
  ghost predicate GreedyFor(pool: set<Agent>, op: RuntimeOperator, allowed: Option<set<string>>,
                            assignments: map<Id, seq<Id>>, earlier: seq<Id>, o: Id, a: Agent)
  {
    o in ListOf(assignments, a) ==>
      forall b :: CanHost(pool, op, allowed, b) ==>
        LoadWithin(earlier, ListOf(assignments, a)) <= LoadWithin(earlier, ListOf(assignments, b))
  }

  // Every operator went to a least loaded agent of its time.
  ghost predicate Greedy(pool: set<Agent>, operators: map<Id, RuntimeOperator>, E: set<Link>,
                         networks: map<Id, set<string>>, assignments: map<Id, seq<Id>>, done: seq<Id>)
  {
    forall k: nat, a {:trigger GreedyAt(pool, operators, E, networks, assignments, done, k, a)} ::
      k < |done| && a in pool ==> GreedyAt(pool, operators, E, networks, assignments, done, k, a)
  }

  ghost predicate GreedyAt(pool: set<Agent>, operators: map<Id, RuntimeOperator>, E: set<Link>,
                           networks: map<Id, set<string>>, assignments: map<Id, seq<Id>>, done: seq<Id>, k: nat,
                           a: Agent)
    requires k < |done|
  {
    done[k] in operators ==>
      GreedyFor(pool, operators[done[k]], AllowedNetworks(E, networks, done[k]), assignments, done[..k], done[k], a)
  }

  lemma LaterIgnored(earlier: seq<Id>, list: seq<Id>, op: Id)
    requires op !in earlier
    ensures LoadWithin(earlier, list + [op]) == LoadWithin(earlier, list)
  {
    FilterConcat(Among(earlier), list, [op]);
    FilterNone(Among(earlier), [op]);
  }

  // An earlier choice stays greedy.
  lemma EarlierStaysGreedy(pool: set<Agent>, operator: RuntimeOperator, allowed: Option<set<string>>,
                           assignments: map<Id, seq<Id>>, earlier: seq<Id>, o: Id, a: Agent, op: Id, host: Agent)
    requires GreedyFor(pool, operator, allowed, assignments, earlier, o, a) && o != op && op !in earlier
    requires host.id in assignments
    ensures GreedyFor(pool, operator, allowed, assignments[host.id := assignments[host.id] + [op]], earlier, o, a)
  {
    var after := assignments[host.id := assignments[host.id] + [op]];
    LaterIgnored(earlier, assignments[host.id], op);
    forall b ensures LoadWithin(earlier, ListOf(after, b)) == LoadWithin(earlier, ListOf(assignments, b)) {
    }
  }

  // All an agent has was placed earlier.
  lemma AllEarlier(pool: set<Agent>, assignments: map<Id, seq<Id>>, host: map<Id, Agent>, earlier: seq<Id>, a: Agent)
    requires Consistent(pool, assignments, host) && host.Keys <= Elements(earlier) && a in pool
    ensures LoadWithin(earlier, ListOf(assignments, a)) == |assignments[a.id]|
  {
    assert a.id in AgentIds(pool);
    FilterAll(Among(earlier), assignments[a.id]);
  }

  // A new choice is greedy.
  lemma NewIsGreedy(pool: set<Agent>, operator: RuntimeOperator, allowed: Option<set<string>>,
                    assignments: map<Id, seq<Id>>, host: map<Id, Agent>, earlier: seq<Id>, op: Id, chosen: Agent,
                    a: Agent)
    requires ValidPool(pool) && Consistent(pool, assignments, host) && host.Keys <= Elements(earlier) && op !in earlier
    requires Eligible(pool, operator, allowed, assignments, chosen) && a in pool
    ensures GreedyFor(pool, operator, allowed, assignments[chosen.id := assignments[chosen.id] + [op]], earlier, op, a)
  {
    var after := assignments[chosen.id := assignments[chosen.id] + [op]];
    LaterIgnored(earlier, assignments[chosen.id], op);
    AllEarlier(pool, assignments, host, earlier, chosen);
    assert op !in host && a.id in assignments;
    forall b | CanHost(pool, operator, allowed, b)
      ensures |assignments[chosen.id]| <= LoadWithin(earlier, ListOf(after, b))
    {
      AllEarlier(pool, assignments, host, earlier, b);
    }
  }

  lemma GreedyNext(pool: set<Agent>, operators: map<Id, RuntimeOperator>, E: set<Link>, networks: map<Id, set<string>>,
                   assignments: map<Id, seq<Id>>, host: map<Id, Agent>, sorted: seq<Id>, i: nat, chosen: Agent,
                   networks': map<Id, set<string>>, assignments': map<Id, seq<Id>>)
    requires ValidPool(pool) && Consistent(pool, assignments, host) && i < |sorted|
    requires host.Keys <= Elements(sorted[..i])
    requires sorted[i] !in sorted[..i] && (sorted[i], sorted[i]) !in E
    requires forall o :: o in sorted[..i] ==> (sorted[i], o) !in E
    requires Greedy(pool, operators, E, networks, assignments, sorted[..i])
    requires Placing(pool, operators, E, sorted[i], chosen, assignments, networks, assignments', networks')
    ensures Greedy(pool, operators, E, networks', assignments', sorted[..i + 1])
  {
    var op, done, next := sorted[i], sorted[..i], sorted[..i + 1];
    forall k: nat, a | k < |next| && a in pool
      ensures GreedyAt(pool, operators, E, networks', assignments', next, k, a)
    {
      UpstreamUnchanged(E, networks, op, RecordedNetworks(chosen, AllowedNetworks(E, networks, op)), next[k]);
      if next[k] !in operators {
      } else if k < i {
        EarlierChoice(pool, operators, E, networks, assignments, sorted, i, k, a, chosen);
      } else {
        assert next[..k] == done;
        NewIsGreedy(pool, operators[op], AllowedNetworks(E, networks, op), assignments, host, done, op, chosen, a);
      }
    }
  }

  lemma EarlierChoice(pool: set<Agent>, operators: map<Id, RuntimeOperator>, E: set<Link>,
                      networks: map<Id, set<string>>, assignments: map<Id, seq<Id>>, sorted: seq<Id>, i: nat, k: nat,
                      a: Agent, chosen: Agent)
    requires k < i < |sorted| && sorted[i] !in sorted[..i] && sorted[k] in operators && a in pool
    requires chosen.id in assignments
    requires Greedy(pool, operators, E, networks, assignments, sorted[..i])
    ensures GreedyFor(pool, operators[sorted[k]], AllowedNetworks(E, networks, sorted[k]),
                      assignments[chosen.id := assignments[chosen.id] + [sorted[i]]], sorted[..i + 1][..k],
                      sorted[k], a)
  {
    var done := sorted[..i];
    assert GreedyAt(pool, operators, E, networks, assignments, done, k, a);
    assert done[k] == sorted[k] && done[..k] == sorted[..i + 1][..k] && done[k] in done;
    EarlierStaysGreedy(pool, operators[sorted[k]], AllowedNetworks(E, networks, sorted[k]), assignments, done[..k],
                       sorted[k], a, sorted[i], chosen);
  }

  lemma RefusedIsGreedy(pool: set<Agent>, operators: map<Id, RuntimeOperator>, E: set<Link>,
                        networks: map<Id, set<string>>, assignments: map<Id, seq<Id>>, host: map<Id, Agent>,
                        sorted: seq<Id>, i: nat)
    requires Consistent(pool, assignments, host) && i < |sorted| && sorted[i] !in host
    requires Greedy(pool, operators, E, networks, assignments, sorted[..i])
    ensures Greedy(pool, operators, E, networks, assignments, sorted[..i + 1])
  {
    var done, next := sorted[..i], sorted[..i + 1];
    forall k: nat, a | k < |next| && a in pool ensures GreedyAt(pool, operators, E, networks, assignments, next, k, a) {
      if k < i {
        assert GreedyAt(pool, operators, E, networks, assignments, done, k, a);
        assert next[..k] == done[..k] && next[k] == done[k];
      }
    }
  }

  // ----- The whole assignment -----

  // A complete, sound and balanced distribution of the operators over the agents.
  ghost predicate Distributes(agents: seq<Agent>, operators: map<Id, RuntimeOperator>, ops: set<Id>, r: seq<Assignment>)
  {
    && |r| == |agents|
    && (forall i :: 0 <= i < |r| ==> r[i].agentId == agents[i].id && NoDup(r[i].operators))
    && (forall i, o :: 0 <= i < |r| && o in r[i].operators ==>
          o in ops && o in operators && Matches(agents[i], operators[o]))
    && (forall o :: o in ops ==> PlacedOnce(r, o))
    && (forall i, j :: 0 <= i < |r| && 0 <= j < |r| && Interchangeable(agents[i], agents[j])
          ==> |r[i].operators| <= |r[j].operators| + 1)
  }

  // The operator is on one agent's list and on no other's.
  ghost predicate PlacedOnce(r: seq<Assignment>, o: Id) {
    exists i :: 0 <= i < |r| && o in r[i].operators && forall j :: 0 <= j < |r| && o in r[j].operators ==> j == i
  }

  // Every placed operator sits on some of its agent's networks, within its predecessors' networks when one can.
  ghost predicate NetworksStick(agents: seq<Agent>, operators: map<Id, RuntimeOperator>, E: set<Link>,
                                r: seq<Assignment>, networks: map<Id, set<string>>)
  {
    && |r| == |agents| && AllStick(Elements(agents), operators, E, networks)
    && forall i, o :: 0 <= i < |r| && o in r[i].operators ==> o in networks && SomeOf(networks[o], agents[i])
  }

  // The network is recorded for a direct predecessor.
  ghost predicate Inherited(E: set<Link>, networks: map<Id, set<string>>, o: Id, n: string) {
    exists p :: (p, o) in E && p in networks && n in networks[p]
  }

  // The agent is on none of the networks recorded for the operator's predecessors.
  ghost predicate InheritsNone(E: set<Link>, networks: map<Id, set<string>>, o: Id, a: Agent) {
    forall n :: n in a.networks ==> !Inherited(E, networks, o, n)
  }

  // What is recorded for an operator on agent a is exactly what the agent shares with its predecessors, or all of the
  // agent's networks when it shares none; and the agent does share some when any agent that covers the operator does.
  ghost predicate FollowsNetworks(agents: seq<Agent>, tags: set<string>, E: set<Link>,
                                  networks: map<Id, set<string>>, o: Id, a: Agent)
  {
    && o in networks
    && (forall n :: n in networks[o]
          <==> n in a.networks && (Inherited(E, networks, o, n) || InheritsNone(E, networks, o, a)))
    && ((exists b :: b in agents && tags <= b.tags && !InheritsNone(E, networks, o, b)) ==>
          !InheritsNone(E, networks, o, a) && forall n :: n in networks[o] ==> Inherited(E, networks, o, n))
  }

  ghost predicate AllFollow(agents: seq<Agent>, operators: map<Id, RuntimeOperator>, E: set<Link>, r: seq<Assignment>,
                            networks: map<Id, set<string>>)
    requires |r| == |agents|
  {
    forall i, o :: 0 <= i < |r| && o in r[i].operators ==>
      o in operators && FollowsNetworks(agents, operators[o].tags, E, networks, o, agents[i])
  }

  lemma InheritedIff(E: set<Link>, networks: map<Id, set<string>>, o: Id, n: string)
    ensures n in PredecessorNetworks(E, networks, o) <==> Inherited(E, networks, o, n)
  {
    if n in PredecessorNetworks(E, networks, o) {
      var e :| e in E && e.1 == o && e.0 in networks && n in networks[e.0];
      assert e == (e.0, o);
    }
    if Inherited(E, networks, o, n) {
      var p :| (p, o) in E && p in networks && n in networks[p];
      assert (p, o).1 == o;
    }
  }

  // An agent that is on a predecessor's network is one the source calls eligible for it.
  lemma InheritsIff(E: set<Link>, networks: map<Id, set<string>>, o: Id, a: Agent)
    ensures InheritsNone(E, networks, o, a) <==> !IsOn(a, PredecessorNetworks(E, networks, o))
  {
    forall n ensures n in PredecessorNetworks(E, networks, o) <==> Inherited(E, networks, o, n) {
      InheritedIff(E, networks, o, n);
    }
  }

  lemma HostedFollows(agents: seq<Agent>, op: RuntimeOperator, E: set<Link>, networks: map<Id, set<string>>, o: Id,
                      a: Agent)
    requires o in networks && Hosted(Elements(agents), op, AllowedNetworks(E, networks, o), a, networks[o])
    ensures FollowsNetworks(agents, op.tags, E, networks, o, a)
  {
    var upstream := PredecessorNetworks(E, networks, o);
    forall b: Agent ensures InheritsNone(E, networks, o, b) <==> !IsOn(b, upstream) {
      InheritsIff(E, networks, o, b);
    }
    forall n ensures n in upstream <==> Inherited(E, networks, o, n) {
      InheritedIff(E, networks, o, n);
    }
    SharingIsOn(a, upstream);
    assert upstream == {} ==> forall b: Agent :: !IsOn(b, upstream);
    assert (exists b :: b in agents && op.tags <= b.tags && IsOn(b, upstream)) ==> IsOn(a, upstream);
  }

  lemma ListsFollow(agents: seq<Agent>, operators: map<Id, RuntimeOperator>, E: set<Link>,
                    assignments: map<Id, seq<Id>>, networks: map<Id, set<string>>, host: map<Id, Agent>,
                    r: seq<Assignment>)
    requires ValidAgents(agents) && Sound(Elements(agents), operators, E, assignments, networks, host)
    requires |r| == |agents| && forall i :: 0 <= i < |r| ==> r[i] == Assignment(agents[i].id, assignments[agents[i].id])
    ensures AllFollow(agents, operators, E, r, networks)
  {
    forall i: nat, o | i < |r| && o in r[i].operators
      ensures o in operators && FollowsNetworks(agents, operators[o].tags, E, networks, o, agents[i])
    {
      ListedMatch(agents, operators, assignments, host, r, i, o);
      assert Hosted(Elements(agents), operators[o], AllowedNetworks(E, networks, o), host[o], networks[o]);
      HostedFollows(agents, operators[o], E, networks, o, agents[i]);
    }
  }

  // Every list is in the order in which its operators were tried.
  ghost predicate InTurn(assignments: map<Id, seq<Id>>, done: seq<Id>) {
    forall a {:trigger TurnOf(assignments[a], done)} :: a in assignments ==> TurnOf(assignments[a], done)
  }

  ghost predicate TurnOf(list: seq<Id>, done: seq<Id>) {
    list == Filter(Among(list), done)
  }

  ghost predicate ListedInTurn(r: seq<Assignment>, sorted: seq<Id>) {
    forall i {:trigger TurnOf(r[i].operators, sorted)} :: 0 <= i < |r| ==> TurnOf(r[i].operators, sorted)
  }

  lemma ListsInTurn(agents: seq<Agent>, assignments: map<Id, seq<Id>>, sorted: seq<Id>, r: seq<Assignment>)
    requires AgentIds(Elements(agents)) <= assignments.Keys && InTurn(assignments, sorted)
    requires |r| == |agents| && forall i :: 0 <= i < |r| ==> r[i] == Assignment(agents[i].id, assignments[agents[i].id])
    ensures ListedInTurn(r, sorted)
  {
    forall i | 0 <= i < |r| ensures TurnOf(r[i].operators, sorted) {
      assert agents[i] in Elements(agents) && agents[i].id in assignments;
      assert TurnOf(assignments[agents[i].id], sorted);
    }
  }

  lemma NothingListed(pool: set<Agent>, assignments: map<Id, seq<Id>>, host: map<Id, Agent>)
    requires Consistent(pool, assignments, host) && host == map[]
    ensures InTurn(assignments, [])
  {
    forall a | a in assignments ensures TurnOf(assignments[a], []) {
      ListedIsHosted(pool, assignments, host, a);
    }
  }

  lemma ListedIsHosted(pool: set<Agent>, assignments: map<Id, seq<Id>>, host: map<Id, Agent>, a: Id)
    requires Consistent(pool, assignments, host) && a in assignments
    ensures assignments[a] == [] || host != map[]
  {
    if assignments[a] != [] {
      assert assignments[a][0] in assignments[a] && assignments[a][0] in host;
    }
  }

  lemma {:induction false} AmongMore(list: seq<Id>, op: Id, done: seq<Id>)
    requires op !in done
    ensures Filter(Among(list + [op]), done) == Filter(Among(list), done)
  {
    if done != [] {
      var front, last := done[..|done| - 1], done[|done| - 1];
      assert last in done;
      AmongMore(list, op, front);
    }
  }

  // The list that gets an operator, and the lists that do not, stay in turn.
  lemma TurnNext(list: seq<Id>, done: seq<Id>, op: Id)
    requires TurnOf(list, done) && op !in done
    ensures TurnOf(list, done + [op]) && TurnOf(list + [op], done + [op])
  {
    AmongMore(list, op, done);
    assert (done + [op])[..|done|] == done;
  }

  lemma InTurnNext(assignments: map<Id, seq<Id>>, assignments': map<Id, seq<Id>>, done: seq<Id>, op: Id)
    requires InTurn(assignments, done) && op !in done
    requires assignments' == assignments
      || exists a :: a in assignments && assignments' == assignments[a := assignments[a] + [op]]
    ensures InTurn(assignments', done + [op])
  {
    forall a | a in assignments' ensures TurnOf(assignments'[a], done + [op]) {
      assert TurnOf(assignments[a], done);
      TurnNext(assignments[a], done, op);
    }
  }

  // Each operator's agent had, of the operators sorted before it, no more than any agent that could have hosted it.
  ghost predicate ChoicesGreedy(agents: seq<Agent>, operators: map<Id, RuntimeOperator>, E: set<Link>,
                                networks: map<Id, set<string>>, sorted: seq<Id>, r: seq<Assignment>)
    requires |r| == |agents|
  {
    forall k, i, j :: 0 <= k < |sorted| && 0 <= i < |agents| && 0 <= j < |agents| && sorted[k] in operators ==>
      (sorted[k] in r[i].operators
       && CanHost(Elements(agents), operators[sorted[k]], AllowedNetworks(E, networks, sorted[k]), agents[j]) ==>
         LoadWithin(sorted[..k], r[i].operators) <= LoadWithin(sorted[..k], r[j].operators))
  }

  lemma ListsGreedy(agents: seq<Agent>, operators: map<Id, RuntimeOperator>, E: set<Link>,
                    networks: map<Id, set<string>>, assignments: map<Id, seq<Id>>, sorted: seq<Id>, r: seq<Assignment>)
    requires AgentIds(Elements(agents)) <= assignments.Keys
    requires |r| == |agents| && forall i :: 0 <= i < |r| ==> r[i] == Assignment(agents[i].id, assignments[agents[i].id])
    requires Greedy(Elements(agents), operators, E, networks, assignments, sorted)
    ensures ChoicesGreedy(agents, operators, E, networks, sorted, r)
  {
    forall k, i, j | 0 <= k < |sorted| && 0 <= i < |agents| && 0 <= j < |agents| && sorted[k] in operators
      && sorted[k] in r[i].operators
      && CanHost(Elements(agents), operators[sorted[k]], AllowedNetworks(E, networks, sorted[k]), agents[j])
      ensures LoadWithin(sorted[..k], r[i].operators) <= LoadWithin(sorted[..k], r[j].operators)
    {
      assert agents[i] in Elements(agents);
      assert GreedyAt(Elements(agents), operators, E, networks, assignments, sorted, k, agents[i]);
    }
  }

  class PipelineAssigner {
    const agents: seq<Agent>
    const operators: map<Id, RuntimeOperator>
    const graph: Digraph
    const sorted: seq<Id>

    ghost predicate Valid() {
      && agents != [] && ValidAgents(agents)
      && IsTopologicalOrder(graph.nodes, graph.edges, sorted) && Over(graph.edges, graph.nodes)
    }

    constructor (agents: seq<Agent>, operators: map<Id, RuntimeOperator>, graph: Digraph, sorted: seq<Id>)
      requires agents != [] && ValidAgents(agents)
      requires IsTopologicalOrder(graph.nodes, graph.edges, sorted) && Over(graph.edges, graph.nodes)
      ensures Valid() && this.agents == agents && this.operators == operators && this.graph == graph
      ensures this.sorted == sorted
    {
      this.agents, this.operators, this.graph, this.sorted := agents, operators, graph, sorted;
    }

    // Tries every operator in topological order. Whatever the dice: success exactly when every operator is known and
    // some agent's tags cover it; and then the distribution is complete, sound, balanced, sticky and greedy.
    method Assign(dice: nat -> nat) returns (r: Result<seq<Assignment>, AssignError>, networks: map<Id, set<string>>)
      requires Valid()
      ensures r.Success? <==> forall o :: o in graph.nodes ==> Assignable(Elements(agents), operators, o)
      ensures r.Failure? ==> r.error == UnassignableOperators
      ensures r.Success? ==> Distributes(agents, operators, graph.nodes, r.value)
      ensures r.Success? ==>
                networks.Keys == graph.nodes && NetworksStick(agents, operators, graph.edges, r.value, networks)
      ensures r.Success? ==> AllFollow(agents, operators, graph.edges, r.value, networks)
      ensures r.Success? ==> ChoicesGreedy(agents, operators, graph.edges, networks, sorted, r.value)
      ensures r.Success? ==> ListedInTurn(r.value, sorted)
      ensures r.Success? ==> forall e :: e in graph.edges ==> AllowedNetworks(graph.edges, networks, e.1).Some?
    {
      var state := new AssignmentState(Elements(agents), operators, graph.edges);
      var refused := PlaceAll(state, dice);
      networks := state.operatorNetworks;
      if refused != [] {
        ReasonsSayNothingOfNetworks();
        var aboutNetworks := exists k :: 0 <= k < |refused| && Contains(refused[k].1, "network");
        return Failure(if aboutNetworks then NetworkPreference else UnassignableOperators), networks;
      }
      var final := Conclude(state);
      return Success(final), networks;
    }

    // Lists every agent's operators once all are placed.
    method Conclude(state: AssignmentState) returns (final: seq<Assignment>)
      requires Valid() && state.Valid(Elements(agents), operators, graph.edges) && state.host.Keys == graph.nodes
      requires Greedy(Elements(agents), operators, graph.edges, state.operatorNetworks, state.assignments, sorted)
      requires InTurn(state.assignments, sorted)
      ensures Distributes(agents, operators, graph.nodes, final)
      ensures ChoicesGreedy(agents, operators, graph.edges, state.operatorNetworks, sorted, final)
      ensures ListedInTurn(final, sorted)
      ensures state.operatorNetworks.Keys == graph.nodes
      ensures NetworksStick(agents, operators, graph.edges, final, state.operatorNetworks)
      ensures AllFollow(agents, operators, graph.edges, final, state.operatorNetworks)
      ensures forall e :: e in graph.edges ==> AllowedNetworks(graph.edges, state.operatorNetworks, e.1).Some?
    {
      final := ListAssignments(agents, state.assignments);
      Concludes(agents, operators, graph, sorted, state.assignments, state.operatorNetworks, state.host, final);
    }

    // Tries every operator once and lists those that could not be placed.
    method PlaceAll(state: AssignmentState, dice: nat -> nat) returns (refused: seq<(Id, string)>)
      requires Valid() && state.Valid(Elements(agents), operators, graph.edges) && state.host == map[]
      modifies state
      ensures state.Valid(Elements(agents), operators, graph.edges)
      ensures refused == [] <==> forall o :: o in graph.nodes ==> Assignable(Elements(agents), operators, o)
      ensures refused == [] ==> state.host.Keys == graph.nodes
      ensures RefusedRight(Elements(agents), operators, sorted, refused)
      ensures Greedy(Elements(agents), operators, graph.edges, state.operatorNetworks, state.assignments, sorted)
      ensures InTurn(state.assignments, sorted)
    {
      refused := [];
      NothingListed(Elements(agents), state.assignments, state.host);
      for i := 0 to |sorted|
        invariant state.Valid(Elements(agents), operators, graph.edges)
        invariant Tried(Elements(agents), operators, sorted[..i], state.host.Keys, refused)
        invariant RefusedRight(Elements(agents), operators, sorted[..i], refused)
        invariant Greedy(Elements(agents), operators, graph.edges, state.operatorNetworks, state.assignments,
                         sorted[..i])
        invariant InTurn(state.assignments, sorted[..i])
      {
        var more := TryNext(state, i, dice(i), refused);
        refused := refused + more;
      }
      assert sorted[..|sorted|] == sorted;
      assert forall o :: o in graph.nodes <==> o in sorted;
    }

    // Tries one more operator; lists it if it could not be placed.
    method TryNext(state: AssignmentState, i: nat, roll: nat, ghost refused: seq<(Id, string)>)
      returns (more: seq<(Id, string)>)
      requires Valid() && i < |sorted| && state.Valid(Elements(agents), operators, graph.edges)
      requires Tried(Elements(agents), operators, sorted[..i], state.host.Keys, refused)
      requires RefusedRight(Elements(agents), operators, sorted[..i], refused)
      requires Greedy(Elements(agents), operators, graph.edges, state.operatorNetworks, state.assignments, sorted[..i])
      requires InTurn(state.assignments, sorted[..i])
      modifies state
      ensures state.Valid(Elements(agents), operators, graph.edges)
      ensures Tried(Elements(agents), operators, sorted[..i + 1], state.host.Keys, refused + more)
      ensures RefusedRight(Elements(agents), operators, sorted[..i + 1], refused + more)
      ensures Greedy(Elements(agents), operators, graph.edges, state.operatorNetworks, state.assignments,
                     sorted[..i + 1])
      ensures InTurn(state.assignments, sorted[..i + 1])
    {
      ghost var placed := state.host.Keys;
      var v := PlaceNext(state, i, roll);
      more := if v.Refused? then [(sorted[i], v.reason)] else [];
      VerdictNext(Elements(agents), operators, sorted, i, placed, state.host.Keys, refused, more, v);
    }

    // Tries the i-th operator, whose predecessors have all been tried.
    method PlaceNext(state: AssignmentState, i: nat, roll: nat) returns (v: Verdict)
      requires Valid() && i < |sorted| && state.Valid(Elements(agents), operators, graph.edges)
      requires state.host.Keys <= Elements(sorted[..i])
      requires Greedy(Elements(agents), operators, graph.edges, state.operatorNetworks, state.assignments, sorted[..i])
      requires InTurn(state.assignments, sorted[..i])
      modifies state
      ensures state.Valid(Elements(agents), operators, graph.edges)
      ensures v.Placed? <==> Assignable(Elements(agents), operators, sorted[i])
      ensures v.Refused? ==> IsReason(operators, sorted[i], v.reason)
      ensures state.host.Keys == old(state.host).Keys + if v.Placed? then {sorted[i]} else {}
      ensures Greedy(Elements(agents), operators, graph.edges, state.operatorNetworks, state.assignments,
                     sorted[..i + 1])
      ensures InTurn(state.assignments, sorted[..i + 1])
    {
      NotYetPlaced(sorted, graph.edges, i);
      ghost var assignments, networks, host := state.assignments, state.operatorNetworks, state.host;
      v := PlaceOperator(agents, operators, graph.edges, state, sorted[i], roll);
      GreedyStep(Elements(agents), operators, graph.edges, networks, assignments, host, sorted, i, v,
                 state.operatorNetworks, state.assignments, state.host);
      if v.Placed? {
        HostKeys(host, sorted[i], state.host[sorted[i]]);
      }
    }
  }

  lemma HostKeys(host: map<Id, Agent>, op: Id, a: Agent)
    ensures host[op := a].Keys == host.Keys + {op}
  {
  }

  // Whatever the verdict, one more operator has been tried, every choice so far is greedy and every list in turn.
  lemma GreedyStep(pool: set<Agent>, operators: map<Id, RuntimeOperator>, E: set<Link>, networks: map<Id, set<string>>,
                   assignments: map<Id, seq<Id>>, host: map<Id, Agent>, sorted: seq<Id>, i: nat, v: Verdict,
                   networks': map<Id, set<string>>, assignments': map<Id, seq<Id>>, host': map<Id, Agent>)
    requires ValidPool(pool) && Consistent(pool, assignments, host) && i < |sorted|
    requires host.Keys <= Elements(sorted[..i])
    requires sorted[i] !in sorted[..i] && (sorted[i], sorted[i]) !in E
    requires forall o :: o in sorted[..i] ==> (sorted[i], o) !in E
    requires Greedy(pool, operators, E, networks, assignments, sorted[..i])
    requires v.Placed? ==>
      (sorted[i] in host'
       && Placing(pool, operators, E, sorted[i], host'[sorted[i]], assignments, networks, assignments', networks'))
    requires v.Refused? ==> assignments' == assignments && networks' == networks
    requires InTurn(assignments, sorted[..i])
    ensures Greedy(pool, operators, E, networks', assignments', sorted[..i + 1])
    ensures InTurn(assignments', sorted[..i + 1])
  {
    InTurnNext(assignments, assignments', sorted[..i], sorted[i]);
    assert sorted[..i + 1] == sorted[..i] + [sorted[i]];
    if v.Placed? {
      GreedyNext(pool, operators, E, networks, assignments, host, sorted, i, host'[sorted[i]], networks', assignments');
    } else {
      RefusedIsGreedy(pool, operators, E, networks, assignments, host, sorted, i);
    }
  }

  // What the lists of a sound and greedy state amount to.
  lemma Concludes(agents: seq<Agent>, operators: map<Id, RuntimeOperator>, graph: Digraph, sorted: seq<Id>,
                  assignments: map<Id, seq<Id>>, networks: map<Id, set<string>>, host: map<Id, Agent>,
                  r: seq<Assignment>)
    requires ValidAgents(agents) && Over(graph.edges, graph.nodes) && host.Keys == graph.nodes
    requires Sound(Elements(agents), operators, graph.edges, assignments, networks, host)
    requires Greedy(Elements(agents), operators, graph.edges, networks, assignments, sorted)
    requires InTurn(assignments, sorted)
    requires |r| == |agents| && forall i :: 0 <= i < |r| ==> r[i] == Assignment(agents[i].id, assignments[agents[i].id])
    ensures Distributes(agents, operators, graph.nodes, r)
    ensures ChoicesGreedy(agents, operators, graph.edges, networks, sorted, r)
    ensures ListedInTurn(r, sorted)
    ensures networks.Keys == graph.nodes && NetworksStick(agents, operators, graph.edges, r, networks)
    ensures AllFollow(agents, operators, graph.edges, r, networks)
    ensures forall e :: e in graph.edges ==> AllowedNetworks(graph.edges, networks, e.1).Some?
  {
    ListsDistribute(agents, operators, graph.nodes, assignments, host, r);
    ListsOnNetworks(agents, assignments, host, networks, r);
    ListsGreedy(agents, operators, graph.edges, networks, assignments, sorted, r);
    ListsInTurn(agents, assignments, sorted, r);
    ListsFollow(agents, operators, graph.edges, assignments, networks, host, r);
    UpstreamRecorded(graph.edges, host, networks);
  }

  ghost predicate IsReason(operators: map<Id, RuntimeOperator>, op: Id, reason: string) {
    reason == if op in operators then "No matching agents" else "Operator not found"
  }

  // After these operators: all placed and assignable, or some refused.
  ghost predicate Tried(pool: set<Agent>, operators: map<Id, RuntimeOperator>, done: seq<Id>, placed: set<Id>,
                        refused: seq<(Id, string)>)
  {
    && placed <= Elements(done)
    && (refused == [] ==> placed == Elements(done))
    && (refused == [] <==> forall o :: o in done ==> Assignable(pool, operators, o))
  }

  // The operators refused are those that nothing can take, each with its reason.
  ghost predicate RefusedRight(pool: set<Agent>, operators: map<Id, RuntimeOperator>, done: seq<Id>,
                               refused: seq<(Id, string)>)
  {
    && (forall k :: 0 <= k < |refused| ==> IsReason(operators, refused[k].0, refused[k].1))
    && (forall o :: o in RefusedIds(refused) <==> o in done && !Assignable(pool, operators, o))
  }

  ghost function RefusedIds(refused: seq<(Id, string)>): set<Id> {
    set r | r in refused :: r.0
  }

  lemma VerdictNext(pool: set<Agent>, operators: map<Id, RuntimeOperator>, sorted: seq<Id>, i: nat, placed: set<Id>,
                    placed': set<Id>, refused: seq<(Id, string)>, more: seq<(Id, string)>, v: Verdict)
    requires i < |sorted| && Tried(pool, operators, sorted[..i], placed, refused)
    requires RefusedRight(pool, operators, sorted[..i], refused)
    requires v.Placed? <==> Assignable(pool, operators, sorted[i])
    requires v.Refused? ==> IsReason(operators, sorted[i], v.reason)
    requires placed' == placed + if v.Placed? then {sorted[i]} else {}
    requires more == if v.Refused? then [(sorted[i], v.reason)] else []
    ensures Tried(pool, operators, sorted[..i + 1], placed', refused + more)
    ensures RefusedRight(pool, operators, sorted[..i + 1], refused + more)
  {
    TriedNext(pool, operators, sorted, i, placed, refused, v);
    RefusedNext(pool, operators, sorted, i, refused, v);
    assert v.Placed? ==> refused + more == refused;
  }

  lemma TriedNext(pool: set<Agent>, operators: map<Id, RuntimeOperator>, sorted: seq<Id>, i: nat, placed: set<Id>,
                  refused: seq<(Id, string)>, v: Verdict)
    requires i < |sorted| && Tried(pool, operators, sorted[..i], placed, refused)
    requires v.Placed? <==> Assignable(pool, operators, sorted[i])
    ensures Tried(pool, operators, sorted[..i + 1], placed + if v.Placed? then {sorted[i]} else {},
                  if v.Placed? then refused else refused + [(sorted[i], v.reason)])
  {
    assert sorted[..i + 1] == sorted[..i] + [sorted[i]];
  }

  lemma RefusedNext(pool: set<Agent>, operators: map<Id, RuntimeOperator>, sorted: seq<Id>, i: nat,
                    refused: seq<(Id, string)>, v: Verdict)
    requires i < |sorted| && RefusedRight(pool, operators, sorted[..i], refused)
    requires v.Placed? <==> Assignable(pool, operators, sorted[i])
    requires v.Refused? ==> IsReason(operators, sorted[i], v.reason)
    ensures RefusedRight(pool, operators, sorted[..i + 1],
                         if v.Placed? then refused else refused + [(sorted[i], v.reason)])
  {
    assert sorted[..i + 1] == sorted[..i] + [sorted[i]];
    if v.Refused? {
      OneMoreRefused(refused, (sorted[i], v.reason));
    }
  }

  lemma OneMoreRefused(refused: seq<(Id, string)>, last: (Id, string))
    ensures RefusedIds(refused + [last]) == RefusedIds(refused) + {last.0}
  {
    assert forall r :: r in refused + [last] <==> r in refused || r == last;
  }

  lemma NotYetPlaced(sorted: seq<Id>, E: set<Link>, i: nat)
    requires NoDup(sorted) && Ordered(E, sorted) && i < |sorted|
    ensures sorted[i] !in sorted[..i] && (sorted[i], sorted[i]) !in E
    ensures forall o :: o in sorted[..i] ==> (sorted[i], o) !in E
  {
  }

  // A text contains a word exactly when it can be split around it.
  lemma ContainsIff(text: string, word: string)
    ensures Contains(text, word) <==> exists before: string, after: string :: text == before + word + after
  {
    if Contains(text, word) {
      var i :| 0 <= i <= |text| && OccursAt(text, word, i);
      assert text == text[..i] + word + text[i + |word|..];
    }
    if before, after :| text == before + word + after {
      assert OccursAt(text, word, |before|);
    }
  }

  lemma ReasonsSayNothingOfNetworks()
    ensures forall reason :: reason in {OPERATOR_NOT_FOUND, NO_MATCHING_AGENTS, NO_ELIGIBLE_AGENT} ==>
          !Contains(reason, "network")
  {
    assert "network"[6] == 'k';
    forall reason, i: nat | reason in {OPERATOR_NOT_FOUND, NO_MATCHING_AGENTS, NO_ELIGIBLE_AGENT}
      ensures !OccursAt(reason, "network", i)
    {
      if i + 7 <= |reason| {
        assert reason[i..i + 7][6] == reason[i + 6];
      }
    }
  }

  method ListAssignments(agents: seq<Agent>, assignments: map<Id, seq<Id>>) returns (r: seq<Assignment>)
    requires AgentIds(Elements(agents)) <= assignments.Keys
    ensures |r| == |agents| && forall i :: 0 <= i < |r| ==> r[i] == Assignment(agents[i].id, assignments[agents[i].id])
  {
    r := [];
    for i := 0 to |agents|
      invariant |r| == i && forall k :: 0 <= k < i ==> r[k] == Assignment(agents[k].id, assignments[agents[k].id])
    {
      r := r + [Assignment(agents[i].id, assignments[agents[i].id])];
    }
  }

  // An operator is on its host's list only.
  lemma ListedOnce(agents: seq<Agent>, assignments: map<Id, seq<Id>>, host: map<Id, Agent>, r: seq<Assignment>, o: Id)
    requires ValidAgents(agents) && Consistent(Elements(agents), assignments, host) && o in host
    requires |r| == |agents| && forall i :: 0 <= i < |r| ==> r[i] == Assignment(agents[i].id, assignments[agents[i].id])
    ensures PlacedOnce(r, o)
  {
    var i :| 0 <= i < |agents| && agents[i] == host[o];
    assert o in assignments[agents[i].id] && o in r[i].operators;
    forall j | 0 <= j < |r| && o in r[j].operators ensures j == i {
      assert agents[j] in Elements(agents) && o in assignments[agents[j].id];
    }
  }

  lemma ListedMatch(agents: seq<Agent>, operators: map<Id, RuntimeOperator>, assignments: map<Id, seq<Id>>,
                    host: map<Id, Agent>, r: seq<Assignment>, i: nat, o: Id)
    requires ValidAgents(agents) && Consistent(Elements(agents), assignments, host) && HostsMatch(operators, host)
    requires i < |r| == |agents| && r[i] == Assignment(agents[i].id, assignments[agents[i].id]) && o in r[i].operators
    ensures o in host && host[o] == agents[i] && o in operators && Matches(agents[i], operators[o])
  {
    assert agents[i] in Elements(agents) && o in assignments[agents[i].id];
  }

  lemma ListsBalanced(agents: seq<Agent>, assignments: map<Id, seq<Id>>, r: seq<Assignment>, i: nat, j: nat)
    requires AgentIds(Elements(agents)) <= assignments.Keys && Balanced(Elements(agents), assignments)
    requires i < |r| == |agents| && j < |r| && Interchangeable(agents[i], agents[j])
    requires forall k :: 0 <= k < |r| ==> r[k] == Assignment(agents[k].id, assignments[agents[k].id])
    ensures |r[i].operators| <= |r[j].operators| + 1
  {
    assert agents[i] in Elements(agents) && agents[j] in Elements(agents);
  }

  lemma ListsDistribute(agents: seq<Agent>, operators: map<Id, RuntimeOperator>, ops: set<Id>,
                        assignments: map<Id, seq<Id>>, host: map<Id, Agent>, r: seq<Assignment>)
    requires ValidAgents(agents) && Consistent(Elements(agents), assignments, host)
    requires Balanced(Elements(agents), assignments)
    requires host.Keys == ops && HostsMatch(operators, host)
    requires |r| == |agents| && forall i :: 0 <= i < |r| ==> r[i] == Assignment(agents[i].id, assignments[agents[i].id])
    ensures Distributes(agents, operators, ops, r)
  {
    forall i | 0 <= i < |r| ensures r[i].agentId == agents[i].id && NoDup(r[i].operators) {
      assert agents[i] in Elements(agents);
    }
    forall i: nat, o | i < |r| && o in r[i].operators
      ensures o in ops && o in operators && Matches(agents[i], operators[o])
    {
      ListedMatch(agents, operators, assignments, host, r, i, o);
    }
    forall o | o in ops ensures PlacedOnce(r, o) {
      ListedOnce(agents, assignments, host, r, o);
    }
    forall i: nat, j: nat | i < |r| && j < |r| && Interchangeable(agents[i], agents[j])
      ensures |r[i].operators| <= |r[j].operators| + 1
    {
      ListsBalanced(agents, assignments, r, i, j);
    }
  }

  lemma ListsOnNetworks(agents: seq<Agent>, assignments: map<Id, seq<Id>>, host: map<Id, Agent>,
                        networks: map<Id, set<string>>, r: seq<Assignment>)
    requires ValidAgents(agents) && Consistent(Elements(agents), assignments, host) && OwnNetworks(host, networks)
    requires |r| == |agents| && forall i :: 0 <= i < |r| ==> r[i] == Assignment(agents[i].id, assignments[agents[i].id])
    ensures forall i, o :: 0 <= i < |r| && o in r[i].operators ==> o in networks && SomeOf(networks[o], agents[i])
  {
  }

  // Once everything is placed, an operator with a predecessor has upstream networks to stick to.
  lemma UpstreamRecorded(E: set<Link>, host: map<Id, Agent>, networks: map<Id, set<string>>)
    requires OwnNetworks(host, networks) && forall e :: e in E ==> e.0 in host
    ensures forall e :: e in E ==> AllowedNetworks(E, networks, e.1).Some?
  {
    forall e | e in E ensures AllowedNetworks(E, networks, e.1).Some? {
      assert SomeOf(networks[e.0], host[e.0]);
      var n :| n in networks[e.0];
      assert n in PredecessorNetworks(E, networks, e.1);
    }
  }

  // Builds an assigner for a pipeline: fails without agents, and on cycles.
  method MakeAssigner(agents: seq<Agent>, pipeline: Pipeline) returns (r: Result<PipelineAssigner, AssignError>)
    requires ValidAgents(agents) && pipeline.Valid()
    modifies pipeline`operatorGraph, pipeline`needsRebuild
    ensures pipeline.Valid()
    ensures agents == [] <==> r == Failure(NoAgents)
    ensures agents != [] && Readable(pipeline.nodes) ==>
              (r.Failure? <==> Cyclic(OperatorLinks(PortsIn(pipeline.nodes), pipeline.edges)))
    ensures agents != [] && r.Failure? ==>
          r.error == if Readable(pipeline.nodes) then CyclicDependencies else BrokenPipeline
    ensures r.Success? ==>
              r.value.Valid() && r.value.agents == agents && r.value.operators == OperatorsIn(pipeline.nodes)
    ensures r.Success? ==> r.value.graph == OperatorGraphOf(pipeline.nodes, pipeline.edges)
  {
    if agents == [] {
      return Failure(NoAgents);
    }
    var graph := pipeline.GetOperatorGraph();
    if graph.Failure? {
      return Failure(BrokenPipeline);
    }
    var sorted := TopologicalSort(graph.value.nodes, graph.value.edges);
    if sorted.None? {
      return Failure(CyclicDependencies);
    }
    var assigner := new PipelineAssigner(agents, OperatorsIn(pipeline.nodes), graph.value, sorted.value);
    return Success(assigner);
  }
}
