/** The deployment state machine: a transition table, and a machine driven by triggers. */
module Machine {
  import opened Common

  datatype DeploymentState = Pending | AgentsAssigned | FailedToStart | FailureOnAgent | Running | Cancelled

  datatype Trigger = Assign | StartFailure | AgentFailure | Start | Cancel

  datatype Destination = Same | To(state: DeploymentState)

  datatype Rule = Rule(trigger: Trigger, sources: set<DeploymentState>, destination: Destination)

  const TRANSITIONS: seq<Rule> := [
    Rule(Assign, {Pending}, To(AgentsAssigned)),
    Rule(StartFailure, {Pending, AgentsAssigned}, To(FailedToStart)),
    Rule(StartFailure, {FailureOnAgent}, Same),
    Rule(AgentFailure, {AgentsAssigned, Running}, To(FailureOnAgent)),
    Rule(AgentFailure, {FailureOnAgent}, Same),
    Rule(Start, {AgentsAssigned}, To(Running)),
    Rule(Start, {Running}, Same),
    Rule(Cancel, {Pending, AgentsAssigned, Running, FailureOnAgent}, To(Cancelled)),
    Rule(Cancel, {Cancelled}, Same)
  ]

  predicate Terminal(s: DeploymentState) {
    s in {Cancelled, FailedToStart}
  }

  // A trigger without a matching rule is an error; a rule to the same state changes and publishes nothing.
  datatype Outcome = Invalid | Stays | Moves(state: DeploymentState)

  function Apply(rule: Rule): Outcome {
    match rule.destination
    case Same => Stays
    case To(state) => Moves(state)
  }

  // The first matching rule, from the i-th on.
  function FireFrom(i: nat, s: DeploymentState, t: Trigger): Outcome
    decreases |TRANSITIONS| - i
  {
    if i >= |TRANSITIONS| then Invalid
    else if TRANSITIONS[i].trigger == t && s in TRANSITIONS[i].sources then Apply(TRANSITIONS[i])
    else FireFrom(i + 1, s, t)
  }

  function Fire(s: DeploymentState, t: Trigger): Outcome {
    FireFrom(0, s, t)
  }

  function After(s: DeploymentState, t: Trigger): DeploymentState {
    match Fire(s, t)
    case Moves(state) => state
    case _ => s
  }

  // The table, row by row.
  lemma FireTable(s: DeploymentState, t: Trigger)
    ensures Fire(s, t) ==
      match t
      case Assign => if s == Pending then Moves(AgentsAssigned) else Invalid
      case StartFailure => if s in {Pending, AgentsAssigned} then Moves(FailedToStart)
          else if s == FailureOnAgent then Stays else Invalid
      case AgentFailure => if s in {AgentsAssigned, Running} then Moves(FailureOnAgent)
          else if s == FailureOnAgent then Stays else Invalid
      case Start => if s == AgentsAssigned then Moves(Running) else if s == Running then Stays else Invalid
      case Cancel => if s == FailedToStart then Invalid else if s == Cancelled then Stays else Moves(Cancelled)
  {
  }

  // No trigger leaves a terminal state.
  lemma TerminalAbsorbs(s: DeploymentState, t: Trigger)
    requires Terminal(s)
    ensures After(s, t) == s && !Fire(s, t).Moves?
  {
    FireTable(s, t);
  }

  // How far along a deployment is.
  function Rank(s: DeploymentState): nat {
    match s
    case Pending => 0
    case AgentsAssigned => 1
    case Running => 2
    case FailureOnAgent => 3
    case _ => 4
  }

  // A machine only ever moves forward: it never comes back to a state it has left.
  lemma MovesForward(s: DeploymentState, t: Trigger)
    ensures Fire(s, t).Moves? ==> Rank(Fire(s, t).state) > Rank(s)
  {
    FireTable(s, t);
  }

  // Cancelling ends in a terminal state from everywhere, also where the trigger is invalid.
  lemma CancelTerminates(s: DeploymentState)
    ensures Terminal(After(s, Cancel))
    ensures Fire(s, Cancel).Invalid? <==> s == FailedToStart
  {
    FireTable(s, Cancel);
  }

  class DeploymentStateMachine {
    const id: Id
    var state: DeploymentState
    var published: seq<DeploymentState>  // the state updates sent out

    constructor (id: Id, initial: DeploymentState)
      ensures this.id == id && state == initial && published == []
    {
      this.id, this.state, this.published := id, initial, [];
    }

    // Fires a trigger; false stands for the error an invalid trigger raises. Every real move is published, once.
    method Trigger(t: Trigger) returns (ok: bool)
      modifies this
      ensures state == After(old(state), t)
      ensures ok <==> !Fire(old(state), t).Invalid?
      ensures published == if Fire(old(state), t).Moves? then old(published) + [state] else old(published)
    {
      match Fire(state, t)
      case Invalid =>
        ok := false;
      case Stays =>
        ok := true;
      case Moves(next) =>
        state := next;
        published := published + [state];
        ok := true;
    }
  }
}
