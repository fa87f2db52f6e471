/** Whole sessions of events handled one after the other. */
module Session {
  import opened Common
  import opened Machine
  import opened Orchestrator

  function Play(w: World, events: seq<Event>): World {
    if events == [] then w else Handle(Play(w, events[..|events| - 1]), events[|events| - 1])
  }

  lemma {:induction false} PlayConcat(w: World, a: seq<Event>, b: seq<Event>)
    ensures Play(w, a + b) == Play(Play(w, a), b)
  {
    if b == [] {
      assert a + b == a;
    } else {
      assert (a + b)[..|a + b| - 1] == a + b[..|b| - 1];
      PlayConcat(w, a, b[..|b| - 1]);
    }
  }

  // An agent's stored deployment changes away from d, or the agent goes while its tracker is linked to d.
  predicate Leaves(w: World, e: Event, d: Id) {
    match e
    case Put(agent, val) => agent in w.agents && w.agents[agent].deployment == Some(d) && val.deployment != Some(d)
    case Delete(agent) => agent in w.links && w.links[agent] == Some(d)
    case _ => false
  }

  lemma FiredKeeps(machines: map<Id, DeploymentState>, other: Id, t: Trigger, d: Id)
    requires Dead(machines, d)
    ensures Dead(Fired(machines, other, t), d) && Fired(machines, other, t)[d] == machines[d]
  {
    TerminalAbsorbs(machines[d], t);
  }

  lemma CancelledIsDead(machines: map<Id, DeploymentState>, d: Id)
    ensures Dead(CancelledIfLive(machines, d), d)
  {
    CancelTerminates(Registered(machines, d)[d]);
  }

  lemma StatusKeeps(w: World, agent: Id, s: AgentStatus, d: Id)
    requires Dead(w.machines, d) && agent in w.links
    ensures Dead(StatusChanged(w, agent, s).machines, d) && StatusChanged(w, agent, s).machines[d] == w.machines[d]
  {
    if w.links[agent].Some? && StatusTrigger(s).Some? {
      FiredKeeps(w.machines, w.links[agent].value, StatusTrigger(s).value, d);
    }
  }

  lemma HandleKeeps(w: World, e: Event, d: Id)
    requires Dead(w.machines, d)
    ensures Dead(Handle(w, e).machines, d) && Handle(w, e).machines[d] == w.machines[d]
  {
    match e
    case Put(agent, val) =>
      if agent in w.agents {
        var w1 := Stored(w, agent, val);
        StatusKeeps(MaybeRelinked(w1, agent, w.agents[agent].deployment, val.deployment), agent, val.status, d);
      }
    case Delete(agent) =>
      if agent in w.links && w.links[agent].Some? {
        FiredKeeps(w.machines, w.links[agent].value, Cancel, d);
      }
    case RunAssigned(x) => FiredKeeps(w.machines, x, Assign, d);
    case RunFailed(x) => FiredKeeps(w.machines, x, StartFailure, d);
    case Stop(x) => FiredKeeps(w.machines, x, Cancel, d);
  }

  lemma LeavingKills(w: World, e: Event, d: Id)
    requires Leaves(w, e, d)
    ensures Dead(Handle(w, e).machines, d)
  {
    CancelledIsDead(w.machines, d);
    if e.Put? {
      var w1 := Stored(w, e.agent, e.val);
      var w2 := MaybeRelinked(w1, e.agent, w.agents[e.agent].deployment, e.val.deployment);
      assert Dead(w2.machines, d);
      StatusKeeps(w2, e.agent, e.val.status, d);
    }
  }

  lemma {:induction false} PlayKeeps(w: World, events: seq<Event>, d: Id)
    requires Dead(w.machines, d)
    ensures Dead(Play(w, events).machines, d) && Play(w, events).machines[d] == w.machines[d]
  {
    if events != [] {
      PlayKeeps(w, events[..|events| - 1], d);
      HandleKeeps(Play(w, events[..|events| - 1]), events[|events| - 1], d);
    }
  }

  // Once an agent has left a deployment, its machine is terminal in every later state, wherever the session began
  // and whatever events follow.
  lemma LeftIsDeadForGood(start: World, past: seq<Event>, e: Event, future: seq<Event>, d: Id)
    requires Leaves(Play(start, past), e, d)
    ensures Dead(Play(start, past + [e] + future).machines, d)
  {
    PlayConcat(start, past + [e], future);
    assert (past + [e])[..|past|] == past;
    LeavingKills(Play(start, past), e, d);
    PlayKeeps(Play(start, past + [e]), future, d);
  }
}
