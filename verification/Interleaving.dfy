/**
 * Event handlers that interleave. Handling an event stores what must be stored at once and leaves a task, a list of
 * steps between which other handlers may run: looking whether a machine is live and cancelling it are two steps.
 */
module Interleaving {
  import opened Common
  import opened Machine
  import opened Orchestrator

  // Trackers are objects: a handler holds on to one even after the agent has got another.
  type Ref = nat

  datatype Op =
    | CheckLive(d: Id)                         // look the machine up; if it is live, cancel it next
    | FireOp(d: Id, t: Trigger)                // fire a trigger; an invalid one is an error and ends its task
    | LinkOp(ref: Ref, target: Option<Id>)     // point the tracker at its new deployment
    | StatusOp(ref: Ref, status: AgentStatus)  // pick the trigger for the tracker's machine; fire it next
    | DropOp(agent: Id)                        // forget the agent's tracker

  type Task = seq<Op>

  datatype Sys = Sys(
    agents: map<Id, AgentVal>,
    machines: map<Id, DeploymentState>,
    trackers: seq<Option<Id>>,                 // every tracker ever made, and its link
    trackerOf: map<Id, Ref>,
    tasks: seq<Task>,
    log: seq<(Id, DeploymentState)>,           // published state updates
    departed: set<Id>                          // deployments some tracked agent has left
  )

  datatype Action = Arrive(e: Event) | Resume(task: nat)

  // A session begins with the machines that recovery registered, and knows no agents yet.
  function Begun(start: map<Id, DeploymentState>): Sys {
    Sys(map[], start, [], map[], [], [], {})
  }

  // ----- Steps -----

  function PutTask(ref: Ref, was: AgentVal, val: AgentVal): Task {
    (if val.deployment != was.deployment
     then (if was.deployment.Some? then [CheckLive(was.deployment.value)] else []) + [LinkOp(ref, val.deployment)]
     else [])
    + (if val.status != was.status then [StatusOp(ref, val.status)] else [])
  }

  function Tracked(s: Sys, agent: Id): Sys {
    if agent in s.trackerOf then s
    else s.(trackers := s.trackers + [None], trackerOf := s.trackerOf[agent := |s.trackers|])
  }

  // The deployment that the agent's tracker is linked to.
  function LinkedTo(s: Sys, agent: Id): Option<Id> {
    if agent in s.trackerOf && s.trackerOf[agent] < |s.trackers| then s.trackers[s.trackerOf[agent]] else None
  }

  // What the orchestrator's dictionaries show.
  function View(s: Sys): World {
    World(s.agents, s.machines, map a | a in s.trackerOf :: LinkedTo(s, a))
  }

  function Left(was: AgentVal, val: AgentVal): set<Id> {
    if val.deployment != was.deployment && was.deployment.Some? then {was.deployment.value} else {}
  }

  // An event arrives: everything up to the handler's first pause.
  function Begin(s: Sys, e: Event): Sys {
    match e
    case Put(agent, val) =>
      var s1 := Tracked(s, agent).(agents := s.agents[agent := val]);
      if agent !in s.agents then s1 else
      s1.(tasks := s.tasks + [PutTask(s1.trackerOf[agent], s.agents[agent], val)],
          departed := s.departed + Left(s.agents[agent], val))
    case Delete(agent) =>
      var s1, link := s.(agents := s.agents - {agent}), LinkedTo(s, agent);
      if agent !in s.trackerOf then s1
      else if link.None? then s1.(tasks := s.tasks + [[DropOp(agent)]])
      else s1.(tasks := s.tasks + [[CheckLive(link.value), DropOp(agent)]], departed := s.departed + {link.value})
    case RunAssigned(d) => Launch(s, d, Assign)
    case RunFailed(d) => Launch(s, d, StartFailure)
    case Stop(d) => Launch(s, d, Cancel)
  }

  function Launch(s: Sys, d: Id, t: Trigger): Sys {
    s.(machines := Registered(s.machines, d), tasks := s.tasks + [[FireOp(d, t)]])
  }

  // A task takes its next step.
  function Step(s: Sys, i: nat): Sys
    requires i < |s.tasks| && s.tasks[i] != []
  {
    var op, rest := s.tasks[i][0], s.tasks[i][1..];
    match op
    case CheckLive(d) =>
      var m := Registered(s.machines, d);
      s.(machines := m, tasks := s.tasks[i := if Terminal(m[d]) then rest else [FireOp(d, Cancel)] + rest])
    case FireOp(d, t) =>
      if d !in s.machines then s.(tasks := s.tasks[i := []]) else
      (match Fire(s.machines[d], t)
       case Invalid => s.(tasks := s.tasks[i := []])
       case Stays => s.(tasks := s.tasks[i := rest])
       case Moves(next) =>
         s.(machines := s.machines[d := next], log := s.log + [(d, next)], tasks := s.tasks[i := rest]))
    case LinkOp(ref, target) =>
      if ref >= |s.trackers| then s.(tasks := s.tasks[i := []]) else
      s.(machines := if target.Some? then Registered(s.machines, target.value) else s.machines,
         trackers := s.trackers[ref := target], tasks := s.tasks[i := rest])
    case StatusOp(ref, status) =>
      if ref < |s.trackers| && s.trackers[ref].Some? && StatusTrigger(status).Some?
      then s.(tasks := s.tasks[i := [FireOp(s.trackers[ref].value, StatusTrigger(status).value)] + rest])
      else s.(tasks := s.tasks[i := rest])
    case DropOp(agent) => s.(trackerOf := s.trackerOf - {agent}, tasks := s.tasks[i := rest])
  }

  function Act(s: Sys, a: Action): Sys {
    match a
    case Arrive(e) => Begin(s, e)
    case Resume(i) => if i < |s.tasks| && s.tasks[i] != [] then Step(s, i) else s
  }

  function Run(s: Sys, actions: seq<Action>): Sys {
    if actions == [] then s else Act(Run(s, actions[..|actions| - 1]), actions[|actions| - 1])
  }

  // A trigger that its machine does not allow raises an error: nothing changes, and the rest of the handler is skipped.
  lemma ErrorEndsTask(s: Sys, i: nat)
    requires i < |s.tasks| && s.tasks[i] != [] && s.tasks[i][0].FireOp?
    requires s.tasks[i][0].d in s.machines && s.machines[s.tasks[i][0].d] == FailedToStart
    ensures Step(s, i) == s.(tasks := s.tasks[i := []])
  {
    FireTable(FailedToStart, s.tasks[i][0].t);
  }

  // ----- The invariant -----

  // A step that has yet to make sure the machine is dead.
  predicate Kills(op: Op, d: Id) {
    op == CheckLive(d) || op == FireOp(d, Cancel)
  }

  ghost predicate KillPending(tasks: seq<Task>, d: Id) {
    exists i :: 0 <= i < |tasks| && tasks[i] != [] && Kills(tasks[i][0], d)
  }

  // Killing steps come first in their task, so an error cannot skip one.
  predicate KillsFirst(task: Task) {
    forall k :: 0 < k < |task| ==> task[k].LinkOp? || task[k].StatusOp? || task[k].DropOp?
  }

  // References are to existing trackers, and triggers go to registered machines.
  predicate Grounded(op: Op, machines: map<Id, DeploymentState>, trackerCount: nat) {
    match op
    case FireOp(d, _) => d in machines
    case LinkOp(ref, _) => ref < trackerCount
    case StatusOp(ref, _) => ref < trackerCount
    case _ => true
  }

  ghost predicate GroundedTask(task: Task, machines: map<Id, DeploymentState>, trackerCount: nat) {
    KillsFirst(task) && forall k :: 0 <= k < |task| ==> Grounded(task[k], machines, trackerCount)
  }

  ghost predicate WellFormedSys(s: Sys) {
    && (forall i :: 0 <= i < |s.tasks| ==> GroundedTask(s.tasks[i], s.machines, |s.trackers|))
    && (forall r :: 0 <= r < |s.trackers| && s.trackers[r].Some? ==> s.trackers[r].value in s.machines)
    && (forall a :: a in s.trackerOf ==> s.trackerOf[a] < |s.trackers|)
  }

  // Every deployment that was left is dead, or about to be.
  ghost predicate DepartedDie(s: Sys) {
    forall d :: d in s.departed ==> Dead(s.machines, d) || KillPending(s.tasks, d)
  }

  // The last update published for a deployment.
  function LastUpdate(log: seq<(Id, DeploymentState)>, d: Id): Option<DeploymentState> {
    if log == [] then None
    else if log[|log| - 1].0 == d then Some(log[|log| - 1].1)
    else LastUpdate(log[..|log| - 1], d)
  }

  function StartOf(start: map<Id, DeploymentState>, d: Id): DeploymentState {
    if d in start then start[d] else Pending
  }

  // The log tells every machine's state; a machine that never moved has no entry.
  ghost predicate LogFollows(start: map<Id, DeploymentState>, s: Sys) {
    forall d :: LastUpdate(s.log, d)
      == if d in s.machines && s.machines[d] != StartOf(start, d) then Some(s.machines[d]) else None
  }

  // Machines are never removed, and none is further back than where it started.
  ghost predicate NeverBack(start: map<Id, DeploymentState>, s: Sys) {
    start.Keys <= s.machines.Keys && forall d :: d in s.machines ==> Rank(s.machines[d]) >= Rank(StartOf(start, d))
  }

  // Nothing is published for a deployment after a terminal update.
  ghost predicate LogEnds(s: Sys) {
    forall i :: 0 <= i < |s.log| && Terminal(s.log[i].1) ==>
      s.log[i].0 in s.machines && s.machines[s.log[i].0] == s.log[i].1
  }

  ghost predicate LogTells(start: map<Id, DeploymentState>, s: Sys) {
    LogFollows(start, s) && NeverBack(start, s) && LogEnds(s)
  }

  // Machines stay registered, and dead ones stay as they are.
  ghost predicate Succeeds(before: map<Id, DeploymentState>, after: map<Id, DeploymentState>) {
    forall d :: d in before ==> d in after && (Terminal(before[d]) ==> after[d] == before[d])
  }

  lemma StepSucceeds(s: Sys, i: nat)
    requires i < |s.tasks| && s.tasks[i] != []
    ensures Succeeds(s.machines, Step(s, i).machines)
  {
    match s.tasks[i][0]
    case FireOp(d, t) =>
      if d in s.machines && Terminal(s.machines[d]) {
        TerminalAbsorbs(s.machines[d], t);
      }
    case _ =>
  }

  lemma ActSucceeds(s: Sys, a: Action)
    ensures Succeeds(s.machines, Act(s, a).machines)
  {
    if a.Resume? && a.task < |s.tasks| && s.tasks[a.task] != [] {
      StepSucceeds(s, a.task);
    }
  }

  lemma {:induction false} RunSucceeds(s: Sys, actions: seq<Action>)
    ensures Succeeds(s.machines, Run(s, actions).machines)
  {
    if actions != [] {
      RunSucceeds(s, actions[..|actions| - 1]);
      ActSucceeds(Run(s, actions[..|actions| - 1]), actions[|actions| - 1]);
    }
  }

  // ----- Steps keep the invariant -----

  lemma GroundedGrows(task: Task, before: map<Id, DeploymentState>, after: map<Id, DeploymentState>, m: nat, n: nat)
    requires GroundedTask(task, before, m) && before.Keys <= after.Keys && m <= n
    ensures GroundedTask(task, after, n)
  {
  }

  // The head task replaced: the remaining steps are grounded, with or without a trigger put in front.
  lemma RestGrounded(task: Task, machines: map<Id, DeploymentState>, n: nat, d: Id, t: Trigger)
    requires GroundedTask(task, machines, n) && task != []
    ensures GroundedTask(task[1..], machines, n)
    ensures d in machines ==> GroundedTask([FireOp(d, t)] + task[1..], machines, n)
  {
  }

  lemma StepWellFormed(s: Sys, i: nat)
    requires WellFormedSys(s) && i < |s.tasks| && s.tasks[i] != []
    ensures WellFormedSys(Step(s, i))
  {
    var s', op := Step(s, i), s.tasks[i][0];
    StepSucceeds(s, i);
    assert |s'.trackers| == |s.trackers|;
    forall j | 0 <= j < |s'.tasks| ensures GroundedTask(s'.tasks[j], s'.machines, |s'.trackers|) {
      GroundedGrows(s.tasks[j], s.machines, s'.machines, |s.trackers|, |s'.trackers|);
      if j == i {
        NextTaskGrounded(s, i);
      }
    }
  }

  lemma NextTaskGrounded(s: Sys, i: nat)
    requires WellFormedSys(s) && i < |s.tasks| && s.tasks[i] != []
    ensures GroundedTask(Step(s, i).tasks[i], Step(s, i).machines, |s.trackers|)
  {
    var s', op := Step(s, i), s.tasks[i][0];
    StepSucceeds(s, i);
    GroundedGrows(s.tasks[i], s.machines, s'.machines, |s.trackers|, |s.trackers|);
    assert Grounded(op, s.machines, |s.trackers|);
    match op
    case CheckLive(d) => RestGrounded(s.tasks[i], s'.machines, |s.trackers|, d, Cancel);
    case StatusOp(ref, status) =>
      RestGrounded(s.tasks[i], s'.machines, |s.trackers|, if s.trackers[ref].Some? then s.trackers[ref].value else 0,
                   if StatusTrigger(status).Some? then StatusTrigger(status).value else Cancel);
    case _ => RestGrounded(s.tasks[i], s'.machines, |s.trackers|, 0, Cancel);
  }

  // A new agent gets a tracker of its own.
  lemma TrackedWellFormed(s: Sys, agent: Id)
    requires WellFormedSys(s)
    ensures WellFormedSys(Tracked(s, agent)) && agent in Tracked(s, agent).trackerOf
  {
    forall i | 0 <= i < |s.tasks| ensures GroundedTask(s.tasks[i], s.machines, |Tracked(s, agent).trackers|) {
      GroundedGrows(s.tasks[i], s.machines, s.machines, |s.trackers|, |Tracked(s, agent).trackers|);
    }
  }

  // Other values, records and one more grounded task make no difference.
  lemma TaskAdded(s: Sys, task: Task, s': Sys)
    requires WellFormedSys(s) && GroundedTask(task, s.machines, |s.trackers|)
    requires s'.machines == s.machines && s'.trackers == s.trackers && s'.trackerOf == s.trackerOf
    requires s'.tasks == s.tasks + [task]
    ensures WellFormedSys(s')
  {
  }

  lemma LaunchWellFormed(s: Sys, d: Id, t: Trigger)
    requires WellFormedSys(s)
    ensures WellFormedSys(Launch(s, d, t))
  {
    var s1 := s.(machines := Registered(s.machines, d));
    forall i | 0 <= i < |s.tasks| ensures GroundedTask(s.tasks[i], s1.machines, |s.trackers|) {
      GroundedGrows(s.tasks[i], s.machines, s1.machines, |s.trackers|, |s.trackers|);
    }
    TaskAdded(s1, [FireOp(d, t)], Launch(s, d, t));
  }

  lemma BeginWellFormed(s: Sys, e: Event)
    requires WellFormedSys(s)
    ensures WellFormedSys(Begin(s, e))
  {
    match e
    case Put(agent, val) =>
      TrackedWellFormed(s, agent);
      if agent in s.agents {
        var s1 := Tracked(s, agent);
        TaskAdded(s1, PutTask(s1.trackerOf[agent], s.agents[agent], val), Begin(s, e));
      }
    case Delete(agent) =>
      if agent in s.trackerOf {
        var link := LinkedTo(s, agent);
        TaskAdded(s, if link.None? then [DropOp(agent)] else [CheckLive(link.value), DropOp(agent)], Begin(s, e));
      }
    case RunAssigned(d) => LaunchWellFormed(s, d, Assign);
    case RunFailed(d) => LaunchWellFormed(s, d, StartFailure);
    case Stop(d) => LaunchWellFormed(s, d, Cancel);
  }

  // A kill that was pending stays pending, or the machine is dead.
  lemma KillSurvives(s: Sys, i: nat, d: Id)
    requires WellFormedSys(s) && i < |s.tasks| && s.tasks[i] != []
    requires Dead(s.machines, d) || KillPending(s.tasks, d)
    ensures Dead(Step(s, i).machines, d) || KillPending(Step(s, i).tasks, d)
  {
    var s' := Step(s, i);
    StepSucceeds(s, i);
    if !Dead(s.machines, d) {
      var j :| 0 <= j < |s.tasks| && s.tasks[j] != [] && Kills(s.tasks[j][0], d);
      if j != i {
        assert s'.tasks[j] == s.tasks[j];
      } else if s.tasks[i][0] == CheckLive(d) {
        assert Dead(s'.machines, d) || s'.tasks[i][0] == FireOp(d, Cancel);
      } else {
        assert Grounded(s.tasks[i][0], s.machines, |s.trackers|);
        CancelTerminates(s.machines[d]);
      }
    }
  }

  lemma StepDepartedDie(s: Sys, i: nat)
    requires WellFormedSys(s) && DepartedDie(s) && i < |s.tasks| && s.tasks[i] != []
    ensures DepartedDie(Step(s, i))
  {
    var s' := Step(s, i);
    forall d | d in s'.departed ensures Dead(s'.machines, d) || KillPending(s'.tasks, d) {
      KillSurvives(s, i, d);
    }
  }

  lemma BeginDepartedDie(s: Sys, e: Event)
    requires WellFormedSys(s) && DepartedDie(s)
    ensures DepartedDie(Begin(s, e))
  {
    var s' := Begin(s, e);
    forall d | d in s'.departed ensures Dead(s'.machines, d) || KillPending(s'.tasks, d) {
      if d in s.departed {
        ActSucceeds(s, Arrive(e));
        if !Dead(s.machines, d) {
          var j :| 0 <= j < |s.tasks| && s.tasks[j] != [] && Kills(s.tasks[j][0], d);
          assert s'.tasks[j] == s.tasks[j];
        }
      } else {
        assert s'.tasks[|s.tasks|][0] == CheckLive(d);
      }
    }
  }

  // Registering a machine, or nothing, publishes nothing.
  lemma RegisteringLog(start: map<Id, DeploymentState>, s: Sys, s': Sys, d: Id)
    requires LogTells(start, s)
    requires s'.log == s.log && (s'.machines == s.machines || s'.machines == Registered(s.machines, d))
    ensures LogTells(start, s')
  {
  }

  // A machine that moves publishes where it moved.
  lemma MovingLog(start: map<Id, DeploymentState>, s: Sys, s': Sys, d: Id, t: Trigger)
    requires LogTells(start, s)
    requires d in s.machines && Fire(s.machines[d], t).Moves?
    requires s'.machines == s.machines[d := Fire(s.machines[d], t).state]
    requires s'.log == s.log + [(d, Fire(s.machines[d], t).state)]
    ensures LogTells(start, s')
  {
    MovesForward(s.machines[d], t);
    assert s'.log[..|s.log|] == s.log;
    if Terminal(s.machines[d]) {
      TerminalAbsorbs(s.machines[d], t);
    }
  }

  lemma CheckLog(start: map<Id, DeploymentState>, s: Sys, i: nat)
    requires LogTells(start, s) && i < |s.tasks| && s.tasks[i] != [] && s.tasks[i][0].CheckLive?
    ensures LogTells(start, Step(s, i))
  {
    RegisteringLog(start, s, Step(s, i), s.tasks[i][0].d);
  }

  lemma LinkLog(start: map<Id, DeploymentState>, s: Sys, i: nat)
    requires LogTells(start, s) && i < |s.tasks| && s.tasks[i] != [] && s.tasks[i][0].LinkOp?
    ensures LogTells(start, Step(s, i))
  {
    var target := s.tasks[i][0].target;
    RegisteringLog(start, s, Step(s, i), if target.Some? then target.value else 0);
  }

  lemma FireLog(start: map<Id, DeploymentState>, s: Sys, i: nat)
    requires LogTells(start, s) && i < |s.tasks| && s.tasks[i] != [] && s.tasks[i][0].FireOp?
    ensures LogTells(start, Step(s, i))
  {
    var d, t := s.tasks[i][0].d, s.tasks[i][0].t;
    if d in s.machines && Fire(s.machines[d], t).Moves? {
      MovingLog(start, s, Step(s, i), d, t);
    } else {
      RegisteringLog(start, s, Step(s, i), d);
    }
  }

  lemma StepLog(start: map<Id, DeploymentState>, s: Sys, i: nat)
    requires LogTells(start, s) && i < |s.tasks| && s.tasks[i] != []
    ensures LogTells(start, Step(s, i))
  {
    match s.tasks[i][0]
    case CheckLive(_) => CheckLog(start, s, i);
    case LinkOp(_, _) => LinkLog(start, s, i);
    case FireOp(_, _) => FireLog(start, s, i);
    case _ =>
      RegisteringLog(start, s, Step(s, i), 0);
  }

  ghost predicate Safe(start: map<Id, DeploymentState>, s: Sys) {
    WellFormedSys(s) && DepartedDie(s) && LogTells(start, s)
  }

  // ----- Whole runs -----

  lemma BeginLog(start: map<Id, DeploymentState>, s: Sys, e: Event)
    requires LogTells(start, s)
    ensures LogTells(start, Begin(s, e))
  {
    RegisteringLog(start, s, Begin(s, e), if e.Put? || e.Delete? then 0 else e.d);
  }

  lemma ActSafe(start: map<Id, DeploymentState>, s: Sys, a: Action)
    requires Safe(start, s)
    ensures Safe(start, Act(s, a))
  {
    match a
    case Arrive(e) =>
      BeginWellFormed(s, e);
      BeginDepartedDie(s, e);
      BeginLog(start, s, e);
    case Resume(i) =>
      if i < |s.tasks| && s.tasks[i] != [] {
        StepWellFormed(s, i);
        StepDepartedDie(s, i);
        StepLog(start, s, i);
      }
  }

  // Every reachable state is safe, however handlers interleave.
  lemma {:induction false} RunSafe(start: map<Id, DeploymentState>, actions: seq<Action>)
    ensures Safe(start, Run(Begun(start), actions))
  {
    if actions != [] {
      RunSafe(start, actions[..|actions| - 1]);
      ActSafe(start, Run(Begun(start), actions[..|actions| - 1]), actions[|actions| - 1]);
    }
  }

  lemma {:induction false} RunConcat(s: Sys, a: seq<Action>, b: seq<Action>)
    ensures Run(s, a + b) == Run(Run(s, a), b)
  {
    if b == [] {
      assert a + b == a;
    } else {
      assert (a + b)[..|a + b| - 1] == a + b[..|b| - 1];
      RunConcat(s, a, b[..|b| - 1]);
    }
  }

  // A step publishes at most one update, of a machine that was not dead.
  lemma ActPublishes(s: Sys, a: Action, s': Sys)
    requires s' == Act(s, a)
    ensures s.log <= s'.log && |s'.log| <= |s.log| + 1
    ensures s.log != s'.log ==> var d := s'.log[|s.log|].0; d in s.machines && !Terminal(s.machines[d])
  {
    if a.Resume? && a.task < |s.tasks| && s.tasks[a.task] != [] && s.tasks[a.task][0].FireOp? {
      var d, t := s.tasks[a.task][0].d, s.tasks[a.task][0].t;
      if d in s.machines && Terminal(s.machines[d]) {
        TerminalAbsorbs(s.machines[d], t);
      }
    }
  }

  // No update follows a terminal one for the same deployment.
  ghost predicate Final(log: seq<(Id, DeploymentState)>) {
    forall i, j :: 0 <= i < j < |log| && log[i].0 == log[j].0 ==> !Terminal(log[i].1)
  }

  lemma FinalNext(s: Sys, log: seq<(Id, DeploymentState)>)
    requires Final(s.log) && LogEnds(s) && s.log <= log && |log| <= |s.log| + 1
    requires s.log != log ==> var d := log[|s.log|].0; d in s.machines && !Terminal(s.machines[d])
    ensures Final(log)
  {
    forall i, j | 0 <= i < j < |log| && log[i].0 == log[j].0 ensures !Terminal(log[i].1) {
      assert log[i] == s.log[i];
      assert j < |s.log| ==> log[j] == s.log[j];
    }
  }

  lemma {:induction false} RunFinal(start: map<Id, DeploymentState>, actions: seq<Action>)
    ensures LogEnds(Run(Begun(start), actions)) && Final(Run(Begun(start), actions).log)
  {
    RunSafe(start, actions);
    if actions != [] {
      var front, a := actions[..|actions| - 1], actions[|actions| - 1];
      RunFinal(start, front);
      ActPublishes(Run(Begun(start), front), a, Run(Begun(start), actions));
      FinalNext(Run(Begun(start), front), Run(Begun(start), actions).log);
    }
  }

  // In every run, no update follows a terminal one for the same deployment.
  lemma NoUpdateAfterTheLast(start: map<Id, DeploymentState>, actions: seq<Action>, i: nat, j: nat)
    requires i < j < |Run(Begun(start), actions).log|
    requires Run(Begun(start), actions).log[i].0 == Run(Begun(start), actions).log[j].0
    ensures !Terminal(Run(Begun(start), actions).log[i].1)
  {
    RunFinal(start, actions);
  }
}
