/** A handler that is not interrupted does exactly what handling the event in one piece does. */
module Alone {
  import opened Common
  import opened Machine
  import opened Orchestrator
  import opened Interleaving
  import Session

  function Weight(op: Op): nat {
    match op
    case CheckLive(_) => 2
    case StatusOp(_, _) => 2
    case _ => 1
  }

  function TaskWeight(task: Task): nat {
    if task == [] then 0 else Weight(task[0]) + TaskWeight(task[1..])
  }

  lemma StepLightens(s: Sys, i: nat)
    requires i < |s.tasks| && s.tasks[i] != []
    ensures |Step(s, i).tasks| == |s.tasks| && TaskWeight(Step(s, i).tasks[i]) < TaskWeight(s.tasks[i])
  {
    var rest := s.tasks[i][1..];
    var next := Step(s, i).tasks[i];
    assert next == rest || next == [] || (next != [] && next[1..] == rest && next[0].FireOp?);
  }

  // Runs one task to its end, alone.
  function Drain(s: Sys, i: nat): Sys
    requires i < |s.tasks|
    decreases TaskWeight(s.tasks[i])
  {
    if s.tasks[i] == [] then s else
    StepLightens(s, i);
    Drain(Step(s, i), i)
  }

  // No handler is half way through forgetting an agent: values and trackers are in step, trackers unshared.
  ghost predicate Settled(s: Sys) {
    && WellFormedSys(s)
    && s.agents.Keys == s.trackerOf.Keys
    && Unshared(s.trackerOf)
  }

  ghost predicate Unshared(trackerOf: map<Id, Ref>) {
    forall a, b :: a in trackerOf && b in trackerOf && trackerOf[a] == trackerOf[b] ==> a == b
  }

  // Same state but for what a finished task may have changed.
  ghost predicate Reached(s: Sys, machines: map<Id, DeploymentState>, trackers: seq<Option<Id>>, s': Sys) {
    s'.machines == machines && s'.trackers == trackers && s'.agents == s.agents && s'.trackerOf == s.trackerOf
  }

  lemma FireAlone(s: Sys, i: nat, d: Id, t: Trigger)
    requires i < |s.tasks| && s.tasks[i] == [FireOp(d, t)] && d in s.machines
    ensures Reached(s, Fired(s.machines, d, t), s.trackers, Drain(s, i))
  {
  }

  lemma StatusAlone(s: Sys, i: nat, ref: Ref, status: AgentStatus)
    requires i < |s.tasks| && s.tasks[i] == [StatusOp(ref, status)] && ref < |s.trackers|
    requires s.trackers[ref].Some? ==> s.trackers[ref].value in s.machines
    ensures var d, t := s.trackers[ref], StatusTrigger(status);
            var m := if d.Some? && t.Some? then Fired(s.machines, d.value, t.value) else s.machines;
            Reached(s, m, s.trackers, Drain(s, i))
  {
    var s1 := Step(s, i);
    if s.trackers[ref].Some? && StatusTrigger(status).Some? {
      var d, t := s.trackers[ref].value, StatusTrigger(status).value;
      assert s1.tasks[i] == [FireOp(d, t)];
      FireAlone(s1, i, d, t);
      assert Drain(s, i) == Drain(s1, i);
    } else {
      assert s1.tasks[i] == [];
    }
  }

  // Looking and cancelling, with nothing in between, is cancelling if live.
  lemma CancelAlone(s: Sys, i: nat, d: Id, rest: Task) returns (s': Sys)
    requires i < |s.tasks| && s.tasks[i] == [CheckLive(d)] + rest
    ensures |s'.tasks| == |s.tasks| && s'.tasks[i] == rest && Drain(s, i) == Drain(s', i)
    ensures Reached(s, CancelledIfLive(s.machines, d), s.trackers, s')
  {
    s' := Step(s, i);
    assert s.tasks[i][1..] == rest;
    if !Terminal(Registered(s.machines, d)[d]) {
      assert s'.tasks[i] == [FireOp(d, Cancel)] + rest && s'.tasks[i][1..] == rest;
      CancelTerminates(s'.machines[d]);
      FireTable(s'.machines[d], Cancel);
      s' := Step(s', i);
    }
  }

  lemma RelinkAlone(s: Sys, i: nat, ref: Ref, left: Option<Id>, joined: Option<Id>, rest: Task) returns (s': Sys)
    requires i < |s.tasks| && ref < |s.trackers|
    requires s.tasks[i] == (if left.Some? then [CheckLive(left.value)] else []) + [LinkOp(ref, joined)] + rest
    ensures |s'.tasks| == |s.tasks| && s'.tasks[i] == rest && Drain(s, i) == Drain(s', i)
    ensures var m := if left.Some? then CancelledIfLive(s.machines, left.value) else s.machines;
            Reached(s, if joined.Some? then Registered(m, joined.value) else m, s.trackers[ref := joined], s')
  {
    var s1 := s;
    if left.Some? {
      assert s.tasks[i] == [CheckLive(left.value)] + ([LinkOp(ref, joined)] + rest);
      s1 := CancelAlone(s, i, left.value, [LinkOp(ref, joined)] + rest);
    }
    assert s1.tasks[i] == [LinkOp(ref, joined)] + rest && s1.tasks[i][1..] == rest;
    s' := Step(s1, i);
  }

  lemma PutAlone(s: Sys, agent: Id, val: AgentVal)
    requires Settled(s) && agent in s.agents
    ensures WellFormedSys(Drain(Begin(s, Put(agent, val)), |s.tasks|))
    ensures View(Drain(Begin(s, Put(agent, val)), |s.tasks|)) == Handle(View(s), Put(agent, val))
  {
    var i, was, ref := |s.tasks|, s.agents[agent], s.trackerOf[agent];
    var s0 := Begin(s, Put(agent, val));
    BeginWellFormed(s, Put(agent, val));
    DrainWellFormed(s0, i);
    var tail := if val.status != was.status then [StatusOp(ref, val.status)] else [];
    var s1 := s0;
    if val.deployment != was.deployment {
      s1 := RelinkAlone(s0, i, ref, was.deployment, val.deployment, tail);
    } else {
      assert s0.tasks[i] == tail;
    }
    if val.status != was.status {
      RelinkKeepsLinked(s, s1, ref, was.deployment, val.deployment);
      StatusAlone(s1, i, ref, val.status);
    }
    ViewOfReached(s, Drain(s0, i), agent, s1.trackers[ref]);
    HandledPut(View(s), agent, val, s1.machines, s1.trackers[ref]);
  }

  // What a put comes to, by the machines and the link that the change of deployment leaves.
  lemma HandledPut(w: World, agent: Id, val: AgentVal, machines: map<Id, DeploymentState>, link: Option<Id>)
    requires agent in w.agents && agent in w.links
    requires var was := w.agents[agent];
             var w1 := MaybeRelinked(Stored(w, agent, val), agent, was.deployment, val.deployment);
             machines == w1.machines && link == w1.links[agent]
    ensures var t := if val.status != w.agents[agent].status then StatusTrigger(val.status) else None;
            var m := if link.Some? && t.Some? then Fired(machines, link.value, t.value) else machines;
            Handle(w, Put(agent, val)) == World(w.agents[agent := val], m, w.links[agent := link])
  {
  }

  lemma RelinkKeepsLinked(s: Sys, s1: Sys, ref: Ref, left: Option<Id>, joined: Option<Id>)
    requires WellFormedSys(s) && ref < |s.trackers| && |s1.trackers| == |s.trackers|
    requires joined == left ==> s1.machines == s.machines && s1.trackers == s.trackers
    requires joined != left ==>
               var m := if left.Some? then CancelledIfLive(s.machines, left.value) else s.machines;
               s1.machines == (if joined.Some? then Registered(m, joined.value) else m)
               && s1.trackers == s.trackers[ref := joined]
    ensures s1.trackers[ref].Some? ==> s1.trackers[ref].value in s1.machines
  {
  }

  lemma {:induction false} DrainWellFormed(s: Sys, i: nat)
    requires WellFormedSys(s) && i < |s.tasks|
    ensures WellFormedSys(Drain(s, i))
    decreases TaskWeight(s.tasks[i])
  {
    if s.tasks[i] != [] {
      StepLightens(s, i);
      StepWellFormed(s, i);
      DrainWellFormed(Step(s, i), i);
    }
  }

  // Changing one tracker's link changes one agent's link.
  lemma ViewOfReached(s: Sys, s': Sys, agent: Id, link: Option<Id>)
    requires Settled(s) && WellFormedSys(s') && agent in s.trackerOf && s'.trackerOf == s.trackerOf
    requires s'.trackers == s.trackers[s.trackerOf[agent] := link]
    ensures View(s').links == View(s).links[agent := link]
  {
  }

  lemma DeleteAlone(s: Sys, agent: Id)
    requires Settled(s) && agent in s.trackerOf
    ensures WellFormedSys(Drain(Begin(s, Delete(agent)), |s.tasks|))
    ensures View(Drain(Begin(s, Delete(agent)), |s.tasks|)) == Handle(View(s), Delete(agent))
  {
    var i, link := |s.tasks|, LinkedTo(s, agent);
    var s0 := Begin(s, Delete(agent));
    BeginWellFormed(s, Delete(agent));
    DrainWellFormed(s0, i);
    var s1 := s0;
    if link.Some? {
      assert s0.tasks[i] == [CheckLive(link.value)] + [DropOp(agent)];
      s1 := CancelAlone(s0, i, link.value, [DropOp(agent)]);
    }
    var s2 := Step(s1, i);
    assert s2.tasks[i] == [];
    assert Drain(s0, i) == s2;
    ViewOfDropped(s, s2, agent);
  }

  lemma ViewOfDropped(s: Sys, s': Sys, agent: Id)
    requires WellFormedSys(s) && WellFormedSys(s') && s'.trackers == s.trackers && s'.trackerOf == s.trackerOf - {agent}
    ensures View(s').links == View(s).links - {agent}
  {
  }

  // A first value only gets the agent a tracker.
  lemma FirstPut(s: Sys, agent: Id, val: AgentVal)
    requires Settled(s) && agent !in s.agents && WellFormedSys(Begin(s, Put(agent, val)))
    ensures View(Begin(s, Put(agent, val))) == Handle(View(s), Put(agent, val))
  {
  }

  lemma UnknownDelete(s: Sys, agent: Id)
    requires Settled(s) && agent !in s.trackerOf && WellFormedSys(Begin(s, Delete(agent)))
    ensures View(Begin(s, Delete(agent))) == Handle(View(s), Delete(agent))
  {
    assert View(s).links - {agent} == View(s).links;
  }

  // An event from its arrival to the end of its task, if it has one, with nothing in between.
  function Uninterrupted(s: Sys, e: Event): Sys {
    var s0 := Begin(s, e);
    if |s0.tasks| > |s.tasks| then Drain(s0, |s.tasks|) else s0
  }

  // Any event, handled from a settled state and not interrupted, changes the dictionaries as `Handle` says.
  lemma AloneIsAtomic(s: Sys, e: Event)
    requires Settled(s)
    ensures WellFormedSys(Uninterrupted(s, e)) && View(Uninterrupted(s, e)) == Handle(View(s), e)
  {
    BeginWellFormed(s, e);
    match e
    case Put(agent, val) => if agent in s.agents { PutAlone(s, agent, val); } else { FirstPut(s, agent, val); }
    case Delete(agent) => if agent in s.trackerOf { DeleteAlone(s, agent); } else { UnknownDelete(s, agent); }
    case RunAssigned(d) => LaunchAlone(s, d, Assign);
    case RunFailed(d) => LaunchAlone(s, d, StartFailure);
    case Stop(d) => LaunchAlone(s, d, Cancel);
  }

  lemma LaunchAlone(s: Sys, d: Id, t: Trigger)
    requires Settled(s) && WellFormedSys(Launch(s, d, t))
    ensures var s' := Drain(Launch(s, d, t), |s.tasks|);
            WellFormedSys(s') && View(s') == View(s).(machines := Fired(s.machines, d, t))
  {
    DrainWellFormed(Launch(s, d, t), |s.tasks|);
    FireAlone(Launch(s, d, t), |s.tasks|, d, t);
  }

  // ----- Whole lists of events, each handled without interruption -----

  lemma BegunIsSettled(start: map<Id, DeploymentState>)
    ensures Settled(Begun(start)) && View(Begun(start)) == World(map[], start, map[])
  {
  }

  // Running a task to its end gives no agent another tracker.
  lemma {:induction false} DrainKeepsTrackers(s: Sys, i: nat)
    requires i < |s.tasks|
    ensures forall a :: a in Drain(s, i).trackerOf ==> a in s.trackerOf && Drain(s, i).trackerOf[a] == s.trackerOf[a]
    decreases TaskWeight(s.tasks[i])
  {
    if s.tasks[i] != [] {
      StepLightens(s, i);
      DrainKeepsTrackers(Step(s, i), i);
    }
  }

  // A new tracker is a fresh one.
  lemma BeginKeepsUnshared(s: Sys, e: Event)
    requires WellFormedSys(s) && Unshared(s.trackerOf)
    ensures Unshared(Begin(s, e).trackerOf)
  {
  }

  lemma HandleKeepsInStep(w: World, e: Event)
    requires w.agents.Keys == w.links.Keys
    ensures Handle(w, e).agents.Keys == Handle(w, e).links.Keys
  {
  }

  lemma UninterruptedUnshared(s: Sys, e: Event)
    requires WellFormedSys(s) && Unshared(s.trackerOf)
    ensures Unshared(Uninterrupted(s, e).trackerOf)
  {
    BeginKeepsUnshared(s, e);
    if |Begin(s, e).tasks| > |s.tasks| {
      DrainKeepsTrackers(Begin(s, e), |s.tasks|);
    }
  }

  lemma ViewInStep(s: Sys)
    requires WellFormedSys(s) && View(s).agents.Keys == View(s).links.Keys
    ensures s.agents.Keys == s.trackerOf.Keys
  {
    assert View(s).links.Keys == s.trackerOf.Keys;
  }

  // Handling an event without interruption keeps a state settled.
  lemma StaysSettled(s: Sys, e: Event)
    requires Settled(s)
    ensures Settled(Uninterrupted(s, e))
  {
    AloneIsAtomic(s, e);
    UninterruptedUnshared(s, e);
    HandleKeepsInStep(View(s), e);
    ViewInStep(Uninterrupted(s, e));
  }

  // Every event handled without interruption, one after the other.
  function PlayAlone(s: Sys, events: seq<Event>): Sys {
    if events == [] then s else Uninterrupted(PlayAlone(s, events[..|events| - 1]), events[|events| - 1])
  }

  // The interleaved protocol, left uninterrupted, refines the atomic one: from the start of a session, a list of events
  // shows at its end what handling them as atomic steps gives.
  lemma {:induction false} AloneRefinesAtomic(start: map<Id, DeploymentState>, events: seq<Event>)
    ensures Settled(PlayAlone(Begun(start), events))
    ensures View(PlayAlone(Begun(start), events)) == Session.Play(World(map[], start, map[]), events)
  {
    if events == [] {
      BegunIsSettled(start);
    } else {
      var front, e := events[..|events| - 1], events[|events| - 1];
      AloneRefinesAtomic(start, front);
      AloneIsAtomic(PlayAlone(Begun(start), front), e);
      StaysSettled(PlayAlone(Begun(start), front), e);
    }
  }

  // Running a task to its end, alone, is one of the interleavings.
  lemma {:induction false} DrainIsARun(s: Sys, i: nat) returns (actions: seq<Action>)
    requires i < |s.tasks|
    ensures Run(s, actions) == Drain(s, i)
    decreases TaskWeight(s.tasks[i])
  {
    actions := [];
    if s.tasks[i] != [] {
      StepLightens(s, i);
      var rest := DrainIsARun(Step(s, i), i);
      actions := [Resume(i)] + rest;
      RunConcat(s, [Resume(i)], rest);
      assert [Resume(i)][..0] == [];
      assert Run(s, [Resume(i)]) == Step(s, i);
    }
  }

  // And so is any list of events handled without interruption: what holds of every run holds of it.
  lemma {:induction false} AloneIsARun(s: Sys, events: seq<Event>) returns (actions: seq<Action>)
    ensures Run(s, actions) == PlayAlone(s, events)
  {
    actions := [];
    if events != [] {
      var front, e := events[..|events| - 1], events[|events| - 1];
      var before := AloneIsARun(s, front);
      var s0 := PlayAlone(s, front);
      var s1 := Begin(s0, e);
      assert (before + [Arrive(e)])[..|before|] == before;
      actions := before + [Arrive(e)];
      if |s1.tasks| > |s0.tasks| {
        var rest := DrainIsARun(s1, |s0.tasks|);
        RunConcat(s, actions, rest);
        actions := actions + rest;
      }
    }
  }
}
