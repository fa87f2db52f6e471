/** Orchestrator state: deployment machines, agent values and the trackers that link them, changed event by event. */
module Orchestrator {
  import opened Common
  import opened Machine

  datatype AgentStatus =
    Initializing | Idle | CleaningOperators | OperatorsStarting | DeploymentRunning | DeploymentError | ShuttingDown

  datatype AgentVal = AgentVal(status: AgentStatus, deployment: Option<Id>)

  // The state as a value: stored agent values, machine states, and the deployment each tracker is linked to.
  datatype World = World(agents: map<Id, AgentVal>, machines: map<Id, DeploymentState>, links: map<Id, Option<Id>>)

  // A run either reaches assignment or fails before it, on a pipeline error.
  datatype Event = Put(agent: Id, val: AgentVal) | Delete(agent: Id) | RunAssigned(d: Id) | RunFailed(d: Id)
      | Stop(d: Id)

  // ----- What each event does -----

  // Machines are made on demand, pending, and never removed.
  function Registered(machines: map<Id, DeploymentState>, d: Id): map<Id, DeploymentState> {
    if d in machines then machines else machines[d := Pending]
  }

  function Fired(machines: map<Id, DeploymentState>, d: Id, t: Trigger): map<Id, DeploymentState> {
    Registered(machines, d)[d := After(Registered(machines, d)[d], t)]
  }

  function CancelledIfLive(machines: map<Id, DeploymentState>, d: Id): map<Id, DeploymentState> {
    if Terminal(Registered(machines, d)[d]) then Registered(machines, d) else Fired(machines, d, Cancel)
  }

  // A machine that no trigger can move any more.
  predicate Dead(machines: map<Id, DeploymentState>, d: Id) {
    d in machines && Terminal(machines[d])
  }

  function StatusTrigger(s: AgentStatus): Option<Trigger> {
    match s
    case DeploymentRunning => Some(Start)
    case DeploymentError => Some(AgentFailure)
    case ShuttingDown => Some(Cancel)
    case _ => None
  }

  // The agent's stored deployment changed: cancel the one it left, link the one it joined.
  function Relinked(w: World, agent: Id, left: Option<Id>, joined: Option<Id>): World {
    var m := if left.Some? then CancelledIfLive(w.machines, left.value) else w.machines;
    World(w.agents, if joined.Some? then Registered(m, joined.value) else m, w.links[agent := joined])
  }

  function StatusChanged(w: World, agent: Id, s: AgentStatus): World
    requires agent in w.links
  {
    if w.links[agent].Some? && StatusTrigger(s).Some?
    then w.(machines := Fired(w.machines, w.links[agent].value, StatusTrigger(s).value))
    else w
  }

  // The tracker is made on first sight; only later changes are acted on.
  function Stored(w: World, agent: Id, val: AgentVal): World {
    World(w.agents[agent := val], w.machines, if agent in w.links then w.links else w.links[agent := None])
  }

  function MaybeRelinked(w: World, agent: Id, left: Option<Id>, joined: Option<Id>): World {
    if joined != left then Relinked(w, agent, left, joined) else w
  }

  function Updated(w: World, agent: Id, was: AgentVal, val: AgentVal): World
    requires agent in w.links
  {
    var w' := MaybeRelinked(w, agent, was.deployment, val.deployment);
    if val.status != was.status then StatusChanged(w', agent, val.status) else w'
  }

  function Handle(w: World, e: Event): World {
    match e
    case Put(agent, val) =>
      if agent in w.agents then Updated(Stored(w, agent, val), agent, w.agents[agent], val) else Stored(w, agent, val)
    case Delete(agent) =>
      var d := if agent in w.links then w.links[agent] else None;
      var m := if d.Some? then CancelledIfLive(w.machines, d.value) else w.machines;
      World(w.agents - {agent}, m, w.links - {agent})
    case RunAssigned(d) => w.(machines := Fired(w.machines, d, Assign))
    case RunFailed(d) => w.(machines := Fired(w.machines, d, StartFailure))
    case Stop(d) => w.(machines := Fired(w.machines, d, Cancel))
  }

  predicate StatusRaises(w: World, agent: Id, s: AgentStatus)
    requires agent in w.links
  {
    && w.links[agent].Some? && StatusTrigger(s).Some?
    && Fire(Registered(w.machines, w.links[agent].value)[w.links[agent].value], StatusTrigger(s).value).Invalid?
  }

  predicate UpdateRaises(w: World, agent: Id, was: AgentVal, val: AgentVal)
    requires agent in w.links
  {
    val.status != was.status && StatusRaises(MaybeRelinked(w, agent, was.deployment, val.deployment), agent, val.status)
  }

  // Whether handling the event raises an error, from a trigger its machine does not allow.
  predicate Raises(w: World, e: Event) {
    match e
    case Put(agent, val) => agent in w.agents && UpdateRaises(Stored(w, agent, val), agent, w.agents[agent], val)
    case Delete(_) => false
    case RunAssigned(d) => Fire(Registered(w.machines, d)[d], Assign).Invalid?
    case RunFailed(d) => Fire(Registered(w.machines, d)[d], StartFailure).Invalid?
    case Stop(d) => Fire(Registered(w.machines, d)[d], Cancel).Invalid?
  }

  // ----- What each event does, state by state -----

  function StateOf(machines: map<Id, DeploymentState>, d: Id): DeploymentState {
    if d in machines then machines[d] else Pending
  }

  // A status says nothing of a machine, or it moves it on, or it is an error and leaves it.
  ghost predicate StatusMoves(s: DeploymentState, now: AgentStatus, s': DeploymentState, ok: bool) {
    match now
    case DeploymentRunning =>
      && s' == (if s == AgentsAssigned then Running else s)
      && (ok <==> s == AgentsAssigned || s == Running)
    case DeploymentError =>
      && s' == (if s == AgentsAssigned || s == Running then FailureOnAgent else s)
      && (ok <==> s == AgentsAssigned || s == Running || s == FailureOnAgent)
    case ShuttingDown =>
      && s' == (if s == FailedToStart then s else Cancelled)
      && (ok <==> s != FailedToStart)
    case _ => s' == s && ok
  }

  // A deployment that is left is cancelled unless it is over; one that is joined is made, pending, if it is new.
  ghost predicate ChangeMoves(machines: map<Id, DeploymentState>, left: Option<Id>, joined: Option<Id>,
                              machines': map<Id, DeploymentState>)
  {
    && machines'.Keys == machines.Keys + (if left.Some? then {left.value} else {})
         + (if joined.Some? then {joined.value} else {})
    && forall d :: d in machines' ==>
         machines'[d] == (if left != Some(d) || StateOf(machines, d) == FailedToStart then StateOf(machines, d)
                          else Cancelled)
  }

  // What an agent's put does: first the change of deployment, if any, then the change of status, if any.
  ghost predicate PutMoves(w: World, agent: Id, val: AgentVal, w': World, ok: bool) {
    var linked := if agent in w.links then w.links[agent] else None;
    var was := if agent in w.agents then w.agents[agent] else val;
    var link := if val.deployment != was.deployment then val.deployment else linked;
    && w'.agents == w.agents[agent := val] && w'.links == w.links[agent := link]
    && exists m ::
         && (if val.deployment == was.deployment then m == w.machines
             else ChangeMoves(w.machines, was.deployment, val.deployment, m))
         && PutStatusMoves(m, link, was.status, val.status, w'.machines, ok)
  }

  ghost predicate PutStatusMoves(machines: map<Id, DeploymentState>, link: Option<Id>, was: AgentStatus,
                                 now: AgentStatus, machines': map<Id, DeploymentState>, ok: bool)
  {
    if was == now then machines' == machines && ok else ChangedStatusMoves(machines, link, now, machines', ok)
  }

  // A changed status moves the machine the agent is linked to, if it says anything of it, and no other.
  ghost predicate ChangedStatusMoves(machines: map<Id, DeploymentState>, link: Option<Id>, now: AgentStatus,
                                     machines': map<Id, DeploymentState>, ok: bool)
  {
    if link.None? || now !in {DeploymentRunning, DeploymentError, ShuttingDown} then machines' == machines && ok
    else
      && link.value in machines' && machines' == machines[link.value := machines'[link.value]]
      && StatusMoves(StateOf(machines, link.value), now, machines'[link.value], ok)
  }

  // A trigger makes one machine, if it is new, and moves it.
  ghost predicate OneMoves(w: World, d: Id, w': World, s': DeploymentState) {
    w' == w.(machines := w.machines[d := s'])
  }

  ghost predicate EventMoves(w: World, e: Event, w': World, ok: bool) {
    match e
    case Put(agent, val) => PutMoves(w, agent, val, w', ok)
    case Delete(agent) =>
      && ok && w'.links == w.links - {agent} && w'.agents == w.agents - {agent}
      && ChangeMoves(w.machines, if agent in w.links then w.links[agent] else None, None, w'.machines)
    case RunAssigned(d) =>
      var s := StateOf(w.machines, d);
      && OneMoves(w, d, w', if s == Pending then AgentsAssigned else s)
      && (ok <==> s == Pending)
    case RunFailed(d) =>
      var s := StateOf(w.machines, d);
      && OneMoves(w, d, w', if s == Pending || s == AgentsAssigned then FailedToStart else s)
      && (ok <==> s == Pending || s == AgentsAssigned || s == FailureOnAgent)
    case Stop(d) =>
      var s := StateOf(w.machines, d);
      && OneMoves(w, d, w', if s == FailedToStart then s else Cancelled)
      && (ok <==> s != FailedToStart)
  }

  lemma RelinkingMoves(machines: map<Id, DeploymentState>, left: Option<Id>, joined: Option<Id>)
    ensures var m := if left.Some? then CancelledIfLive(machines, left.value) else machines;
            ChangeMoves(machines, left, joined, if joined.Some? then Registered(m, joined.value) else m)
  {
    if left.Some? {
      FireTable(StateOf(machines, left.value), Cancel);
    }
  }

  lemma StatusFires(s: DeploymentState, now: AgentStatus)
    ensures var t := StatusTrigger(now);
            StatusMoves(s, now, if t.Some? then After(s, t.value) else s, !(t.Some? && Fire(s, t.value).Invalid?))
  {
    if StatusTrigger(now).Some? {
      FireTable(s, StatusTrigger(now).value);
    }
  }

  lemma StatusChangeMoves(w: World, agent: Id, now: AgentStatus)
    requires agent in w.links
    ensures ChangedStatusMoves(w.machines, w.links[agent], now, StatusChanged(w, agent, now).machines,
                               !StatusRaises(w, agent, now))
  {
    if w.links[agent].Some? {
      StatusFires(StateOf(w.machines, w.links[agent].value), now);
    }
  }

  lemma PutTells(w: World, agent: Id, val: AgentVal)
    requires w.agents.Keys == w.links.Keys
    ensures PutMoves(w, agent, val, Handle(w, Put(agent, val)), !Raises(w, Put(agent, val)))
  {
    if agent in w.agents {
      var was, w1 := w.agents[agent], Stored(w, agent, val);
      var w2 := MaybeRelinked(w1, agent, was.deployment, val.deployment);
      if val.deployment != was.deployment {
        RelinkingMoves(w.machines, was.deployment, val.deployment);
      }
      StatusChangeMoves(w2, agent, val.status);
      assert PutStatusMoves(w2.machines, w2.links[agent], was.status, val.status, Handle(w, Put(agent, val)).machines,
                            !Raises(w, Put(agent, val)));
    } else {
      assert PutStatusMoves(w.machines, None, val.status, val.status, w.machines, true);
    }
  }

  // Every event does to the machines what their states and its own contents tell.
  lemma EventTells(w: World, e: Event)
    requires w.agents.Keys == w.links.Keys
    ensures EventMoves(w, e, Handle(w, e), !Raises(w, e))
  {
    match e
    case Put(agent, val) => PutTells(w, agent, val);
    case Delete(agent) =>
      if agent in w.links && w.links[agent].Some? {
        RelinkingMoves(w.machines, w.links[agent], None);
      }
    case RunAssigned(d) => FireTable(StateOf(w.machines, d), Assign);
    case RunFailed(d) => FireTable(StateOf(w.machines, d), StartFailure);
    case Stop(d) => FireTable(StateOf(w.machines, d), Cancel);
  }

  // ----- The classes -----

  class AgentTracker {
    const id: Id
    var val: AgentVal
    var status: AgentStatus
    var deployment: DeploymentStateMachine?

    constructor (id: Id, val: AgentVal)
      ensures this.id == id && this.val == val && deployment == null
    {
      this.id, this.val, this.status, this.deployment := id, val, val.status, null;
    }

    ghost function Link(): Option<Id>
      reads this
    {
      if deployment == null then None else Some(deployment.id)
    }
  }

  class OrchestratorState {
    var agents: map<Id, AgentVal>
    var machines: map<Id, DeploymentStateMachine>
    var trackers: map<Id, AgentTracker>

    // Machines and trackers sit under their own identifiers, and trackers point at registered machines only.
    ghost predicate Valid()
      reads this, trackers.Values
    {
      && (forall d :: d in machines ==> machines[d].id == d)
      && (forall a :: a in trackers ==> trackers[a].id == a)
      && (forall a :: a in trackers && trackers[a].deployment != null ==>
            trackers[a].deployment.id in machines && machines[trackers[a].deployment.id] == trackers[a].deployment)
      && agents.Keys == trackers.Keys
    }

    // No machine was smuggled in from elsewhere: each is one of the given ones, or new.
    twostate predicate OldOrFresh(known: set<DeploymentStateMachine>)
      reads this
    {
      forall d :: d in machines ==> machines[d] in known || fresh(machines[d])
    }

    ghost function States(): map<Id, DeploymentState>
      reads this`machines, machines.Values
    {
      map d | d in machines :: machines[d].state
    }

    ghost function Links(): map<Id, Option<Id>>
      reads this`trackers, trackers.Values
    {
      map a | a in trackers :: trackers[a].Link()
    }

    ghost function Snapshot(): World
      reads this, machines.Values, trackers.Values
    {
      World(agents, States(), Links())
    }

    constructor ()
      ensures Valid() && Snapshot() == World(map[], map[], map[])
      ensures machines == map[] && trackers == map[]
    {
      agents, machines, trackers := map[], map[], map[];
    }

    method GetDeploymentSm(d: Id) returns (sm: DeploymentStateMachine)
      requires Valid()
      modifies this`machines
      ensures Valid() && d in machines && sm == machines[d]
      ensures d in old(machines) ==> machines == old(machines)
      ensures d !in old(machines) ==> fresh(sm) && machines == old(machines)[d := sm]
      ensures States() == Registered(old(States()), d) && Links() == old(Links())
    {
      if d in machines {
        return machines[d];
      }
      sm := new DeploymentStateMachine(d, Pending);
      machines := machines[d := sm];
    }

    // Looks the machine up, making it if needed, and fires a trigger at it.
    method FireAt(d: Id, t: Trigger) returns (ok: bool)
      requires Valid()
      modifies this`machines, machines.Values
      ensures Valid() && trackers == old(trackers) && Grown(old(machines), machines)
      ensures OldOrFresh(old(machines.Values))
      ensures States() == Fired(old(States()), d, t) && Links() == old(Links())
      ensures ok <==> !Fire(Registered(old(States()), d)[d], t).Invalid?
    {
      var sm := GetDeploymentSm(d);
      ok := FireRegistered(d, t);
    }

    method FireRegistered(d: Id, t: Trigger) returns (ok: bool)
      requires Valid() && d in machines
      modifies machines.Values
      ensures Valid()
      ensures States() == old(States())[d := After(old(States())[d], t)] && Links() == old(Links())
      ensures ok <==> !Fire(old(States())[d], t).Invalid?
    {
      ok := machines[d].Trigger(t);
    }

    method CancelIfLive(d: Id)
      requires Valid()
      modifies this`machines, machines.Values
      ensures Valid() && trackers == old(trackers) && Grown(old(machines), machines)
      ensures OldOrFresh(old(machines.Values))
      ensures States() == CancelledIfLive(old(States()), d) && Links() == old(Links())
    {
      var sm := GetDeploymentSm(d);
      assert States()[d] == sm.state;
      if !Terminal(sm.state) {
        var ok := FireAt(d, Cancel);
      }
    }

    method SetLink(agent: Id, sm: DeploymentStateMachine?)
      requires Valid() && agent in trackers && (sm != null ==> sm.id in machines && machines[sm.id] == sm)
      modifies trackers.Values`deployment
      ensures Valid() && States() == old(States())
      ensures Links() == old(Links())[agent := if sm == null then None else Some(sm.id)]
    {
      trackers[agent].deployment := sm;
    }

    // Points an agent's tracker at its new deployment, after cancelling the one it left.
    method HandleDeploymentChange(agent: Id, left: Option<Id>, joined: Option<Id>)
      requires Valid() && agent in trackers
      modifies this`machines, machines.Values, trackers.Values`deployment
      ensures Valid() && trackers == old(trackers) && agents == old(agents)
      ensures OldOrFresh(old(machines.Values))
      ensures Snapshot() == Relinked(old(Snapshot()), agent, left, joined)
      ensures ChangeMoves(old(States()), left, joined, States()) && Links() == old(Links())[agent := joined]
    {
      RelinkingMoves(States(), left, joined);
      Relink(agent, left, joined);
    }

    method Relink(agent: Id, left: Option<Id>, joined: Option<Id>)
      requires Valid() && agent in trackers
      modifies this`machines, machines.Values, trackers.Values`deployment
      ensures Valid() && trackers == old(trackers) && agents == old(agents)
      ensures OldOrFresh(old(machines.Values))
      ensures Snapshot() == Relinked(old(Snapshot()), agent, left, joined)
    {
      if left.Some? {
        CancelIfLive(left.value);
      }
      Join(agent, joined);
    }

    method Join(agent: Id, joined: Option<Id>)
      requires Valid() && agent in trackers
      modifies this`machines, trackers.Values`deployment
      ensures Valid() && trackers == old(trackers) && agents == old(agents)
      ensures Grown(old(machines), machines) && OldOrFresh(old(machines.Values))
      ensures Snapshot() == Relinked(old(Snapshot()), agent, None, joined)
    {
      if joined.None? {
        SetLink(agent, null);
      } else {
        var sm := GetDeploymentSm(joined.value);
        SetLink(agent, sm);
      }
    }

    // Drives the linked machine by the agent's new status; false stands for the error of an invalid trigger.
    method HandleStatusChange(agent: Id, s: AgentStatus) returns (ok: bool)
      requires Valid() && agent in trackers
      modifies this`machines, machines.Values
      ensures Valid() && trackers == old(trackers) && agents == old(agents)
      ensures OldOrFresh(old(machines.Values))
      ensures Snapshot() == StatusChanged(old(Snapshot()), agent, s)
      ensures ok <==> !StatusRaises(old(Snapshot()), agent, s)
      ensures ChangedStatusMoves(old(States()), old(Links())[agent], s, States(), ok) && Links() == old(Links())
    {
      StatusChangeMoves(Snapshot(), agent, s);
      ok := FireStatus(agent, s);
    }

    method FireStatus(agent: Id, s: AgentStatus) returns (ok: bool)
      requires Valid() && agent in trackers
      modifies this`machines, machines.Values
      ensures Valid() && trackers == old(trackers) && agents == old(agents)
      ensures OldOrFresh(old(machines.Values))
      ensures Snapshot() == StatusChanged(old(Snapshot()), agent, s)
      ensures ok <==> !StatusRaises(old(Snapshot()), agent, s)
    {
      ok := true;
      var sm := trackers[agent].deployment;
      if sm != null && StatusTrigger(s).Some? {
        assert machines[sm.id] == sm && States()[sm.id] == sm.state;
        ok := FireAt(sm.id, StatusTrigger(s).value);
      }
    }

    // A put of an agent's value.
    method AgentPut(agent: Id, val: AgentVal) returns (ok: bool)
      requires Valid()
      modifies this, machines.Values, trackers.Values
      ensures Valid() && OldOrFresh(old(machines.Values)) && fresh(trackers.Values - old(trackers.Values))
      ensures Snapshot() == Handle(old(Snapshot()), Put(agent, val))
      ensures ok <==> !Raises(old(Snapshot()), Put(agent, val))
      ensures EventMoves(old(Snapshot()), Put(agent, val), Snapshot(), ok)
      ensures agent in trackers && trackers[agent].val == val && trackers[agent].status == val.status
    {
      EventTells(Snapshot(), Put(agent, val));
      if agent in agents {
        ok := Revise(agent, val);
      } else {
        Store(agent, val);
        ok := true;
      }
    }

    // A later value of a known agent.
    method Revise(agent: Id, val: AgentVal) returns (ok: bool)
      requires Valid() && agent in agents
      modifies this, machines.Values, trackers.Values
      ensures Valid() && OldOrFresh(old(machines.Values)) && fresh(trackers.Values - old(trackers.Values))
      ensures Snapshot() == Updated(Stored(old(Snapshot()), agent, val), agent, old(agents[agent]), val)
      ensures ok <==> !UpdateRaises(Stored(old(Snapshot()), agent, val), agent, old(agents[agent]), val)
      ensures agent in trackers && trackers[agent].val == val && trackers[agent].status == val.status
    {
      var was := agents[agent];
      Store(agent, val);
      ok := Update(agent, was, val);
    }

    // Acts on what changed between an agent's last value and its new one, which is already stored.
    method Update(agent: Id, was: AgentVal, val: AgentVal) returns (ok: bool)
      requires Valid() && agent in trackers
      modifies this`machines, machines.Values, trackers.Values`deployment
      ensures Valid() && OldOrFresh(old(machines.Values)) && trackers == old(trackers)
      ensures Snapshot() == Updated(old(Snapshot()), agent, was, val)
      ensures ok <==> !UpdateRaises(old(Snapshot()), agent, was, val)
    {
      MaybeChangeDeployment(agent, was.deployment, val.deployment);
      ok := MaybeChangeStatus(agent, was.status, val.status);
    }

    method MaybeChangeDeployment(agent: Id, left: Option<Id>, joined: Option<Id>)
      requires Valid() && agent in trackers
      modifies this`machines, machines.Values, trackers.Values`deployment
      ensures Valid() && OldOrFresh(old(machines.Values)) && trackers == old(trackers)
      ensures Snapshot() == MaybeRelinked(old(Snapshot()), agent, left, joined)
    {
      if joined != left {
        HandleDeploymentChange(agent, left, joined);
      }
    }

    method MaybeChangeStatus(agent: Id, was: AgentStatus, now: AgentStatus) returns (ok: bool)
      requires Valid() && agent in trackers
      modifies this`machines, machines.Values
      ensures Valid() && OldOrFresh(old(machines.Values)) && trackers == old(trackers)
      ensures Snapshot() == if now != was then StatusChanged(old(Snapshot()), agent, now) else old(Snapshot())
      ensures ok <==> !(now != was && StatusRaises(old(Snapshot()), agent, now))
    {
      ok := true;
      if now != was {
        ok := HandleStatusChange(agent, now);
      }
    }

    // Stores the value and makes sure a tracker follows the agent.
    method Store(agent: Id, val: AgentVal)
      requires Valid()
      modifies this`agents, this`trackers, trackers.Values
      ensures Valid() && agent in trackers && machines == old(machines)
      ensures fresh(trackers.Values - old(trackers.Values))
      ensures Snapshot() == Stored(old(Snapshot()), agent, val)
      ensures trackers[agent].val == val && trackers[agent].status == val.status
    {
      var tracker := GetAgentTracker(agent, val);
      Refresh(tracker, val);
    }

    // A tracker takes over a new value; its link stays.
    method Refresh(tracker: AgentTracker, val: AgentVal)
      requires Valid()
      modifies tracker`val, tracker`status
      ensures Valid() && Links() == old(Links()) && States() == old(States())
      ensures tracker.val == val && tracker.status == val.status
    {
      tracker.val := val;
      tracker.status := val.status;
    }

    // The agent's tracker, made on first sight.
    method GetAgentTracker(agent: Id, val: AgentVal) returns (tracker: AgentTracker)
      requires Valid()
      modifies this`trackers, this`agents
      ensures agents == old(agents)[agent := val] && Valid() && agent in trackers && tracker == trackers[agent]
      ensures fresh(trackers.Values - old(trackers.Values))
      ensures Links() == if agent in old(trackers) then old(Links()) else old(Links())[agent := None]
      ensures States() == old(States())
    {
      if agent in trackers {
        agents := agents[agent := val];
      } else {
        MakeTracker(agent, val);
      }
      tracker := trackers[agent];
    }

    method MakeTracker(agent: Id, val: AgentVal)
      requires Valid() && agent !in trackers
      modifies this`trackers, this`agents
      ensures agents == old(agents)[agent := val] && Valid() && agent in trackers
      ensures fresh(trackers[agent]) && trackers == old(trackers)[agent := trackers[agent]]
      ensures Links() == old(Links())[agent := None] && States() == old(States())
    {
      var made := new AgentTracker(agent, val);
      Track(agent, val, made);
    }

    method Track(agent: Id, val: AgentVal, tracker: AgentTracker)
      requires Valid() && agent !in trackers && tracker.id == agent && tracker.deployment == null
      modifies this`trackers, this`agents
      ensures agents == old(agents)[agent := val] && trackers == old(trackers)[agent := tracker]
      ensures Valid() && Links() == old(Links())[agent := None] && States() == old(States())
    {
      agents, trackers := agents[agent := val], trackers[agent := tracker];
    }

    // A deletion, or expiry, of an agent's value.
    method AgentDelete(agent: Id)
      requires Valid()
      modifies this, machines.Values
      ensures Valid() && OldOrFresh(old(machines.Values)) && trackers.Values <= old(trackers.Values)
      ensures Snapshot() == Handle(old(Snapshot()), Delete(agent))
      ensures EventMoves(old(Snapshot()), Delete(agent), Snapshot(), true)
    {
      EventTells(Snapshot(), Delete(agent));
      if agent in trackers {
        var sm := trackers[agent].deployment;
        if sm != null {
          assert machines[sm.id] == sm;
          CancelIfLive(sm.id);
        }
      }
      Forget(agent);
    }

    method Forget(agent: Id)
      requires Valid()
      modifies this`agents, this`trackers
      ensures Valid() && trackers.Values <= old(trackers.Values) && States() == old(States())
      ensures agents == old(agents) - {agent} && Links() == old(Links()) - {agent}
    {
      agents := agents - {agent};
      trackers := trackers - {agent};
    }

    // A run, a failed run, or a stop: one trigger at the deployment's machine.
    method HandleDeploymentEvent(d: Id, t: Trigger) returns (ok: bool)
      requires Valid() && t in {Assign, StartFailure, Cancel}
      modifies this`machines, machines.Values
      ensures Valid() && OldOrFresh(old(machines.Values)) && trackers == old(trackers)
      ensures Snapshot() == Handle(old(Snapshot()), DeploymentEvent(d, t))
      ensures ok <==> !Raises(old(Snapshot()), DeploymentEvent(d, t))
      ensures EventMoves(old(Snapshot()), DeploymentEvent(d, t), Snapshot(), ok)
    {
      EventTells(Snapshot(), DeploymentEvent(d, t));
      ok := FireAt(d, t);
    }
  }

  function DeploymentEvent(d: Id, t: Trigger): Event
    requires t in {Assign, StartFailure, Cancel}
  {
    match t
    case Assign => RunAssigned(d)
    case StartFailure => RunFailed(d)
    case Cancel => Stop(d)
  }

  // Machines are only ever added.
  ghost predicate Grown(before: map<Id, DeploymentStateMachine>, after: map<Id, DeploymentStateMachine>) {
    forall d :: d in before ==> d in after && after[d] == before[d]
  }
}
