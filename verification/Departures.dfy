/** What becomes of the deployments that agents leave, however the handlers interleave. */
module Departures {
  import opened Common
  import opened Machine
  import opened Orchestrator
  import opened Interleaving
  import Session

  // The k-th action is an event by which an agent leaves the deployment.
  predicate LeftBy(start: map<Id, DeploymentState>, actions: seq<Action>, k: nat, d: Id)
    requires k < |actions|
  {
    actions[k].Arrive? && Session.Leaves(View(Run(Begun(start), actions[..k])), actions[k].e, d)
  }

  // Some event so far has made an agent leave the deployment.
  ghost predicate HasLeft(start: map<Id, DeploymentState>, actions: seq<Action>, d: Id) {
    exists k: nat :: k < |actions| && LeftBy(start, actions, k, d)
  }

  // An event adds exactly the deployments it makes an agent leave to those left so far; steps add none.
  lemma ActDeparts(s: Sys, a: Action, s': Sys, d: Id)
    requires s' == Act(s, a)
    ensures d in s'.departed <==> d in s.departed || (a.Arrive? && Session.Leaves(View(s), a.e, d))
  {
  }

  lemma LeftByNext(start: map<Id, DeploymentState>, front: seq<Action>, a: Action, d: Id, s: Sys)
    requires s == Run(Begun(start), front)
    ensures HasLeft(start, front + [a], d)
       <==> HasLeft(start, front, d) || (a.Arrive? && Session.Leaves(View(s), a.e, d))
  {
    var actions := front + [a];
    assert actions[..|front|] == front;
    forall k: nat | k < |front| ensures LeftBy(start, actions, k, d) <==> LeftBy(start, front, k, d) {
      assert front[..k] == actions[..k];
    }
    assert LeftBy(start, actions, |front|, d) <==> a.Arrive? && Session.Leaves(View(s), a.e, d);
  }

  // `departed` records exactly what was left.
  lemma {:induction false} DepartedIff(start: map<Id, DeploymentState>, actions: seq<Action>, d: Id)
    ensures d in Run(Begun(start), actions).departed <==> HasLeft(start, actions, d)
  {
    if actions != [] {
      var front, a := actions[..|actions| - 1], actions[|actions| - 1];
      DepartedIff(start, front, d);
      ActDeparts(Run(Begun(start), front), a, Run(Begun(start), actions), d);
      LeftByNext(start, front, a, d, Run(Begun(start), front));
      assert front + [a] == actions;
    }
  }

  // A deployment that was left, and whose cancellation is no longer pending, is dead and stays exactly so in every
  // later state, whatever arrives and however it interleaves.
  lemma LeftStaysDead(start: map<Id, DeploymentState>, past: seq<Action>, future: seq<Action>, d: Id)
    requires HasLeft(start, past, d) && !KillPending(Run(Begun(start), past).tasks, d)
    ensures Dead(Run(Begun(start), past).machines, d)
    ensures Dead(Run(Begun(start), past + future).machines, d)
    ensures Run(Begun(start), past + future).machines[d] == Run(Begun(start), past).machines[d]
  {
    DepartedIff(start, past, d);
    RunSafe(start, past);
    RunConcat(Begun(start), past, future);
    RunSucceeds(Run(Begun(start), past), future);
  }

  // Whenever every task has run to its end, everything that was left is dead.
  lemma QuietMeansDead(start: map<Id, DeploymentState>, actions: seq<Action>, d: Id)
    requires forall i :: 0 <= i < |Run(Begun(start), actions).tasks| ==> Run(Begun(start), actions).tasks[i] == []
    requires HasLeft(start, actions, d)
    ensures Dead(Run(Begun(start), actions).machines, d)
  {
    DepartedIff(start, actions, d);
    RunSafe(start, actions);
  }
}
