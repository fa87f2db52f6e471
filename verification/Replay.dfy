/** Recovery: a restarted orchestrator reads the last event of every subject and puts each deployment in order. */
module Replay {
  import opened Common
  import opened Machine
  import opened Interleaving

  datatype Entry = RunEntry(d: Id) | StopEntry(d: Id) | RestartEntry(d: Id)
      | UpdateEntry(d: Id, state: DeploymentState) | AssignmentsEntry(d: Id)

  // Run, stop and restart requests of a deployment share one subject; updates and assignments have their own.
  datatype Subject = Main(d: Id) | Updates(d: Id) | Assignments(d: Id)

  function SubjectOf(e: Entry): Subject {
    match e
    case UpdateEntry(d, _) => Updates(d)
    case AssignmentsEntry(d) => Assignments(d)
    case _ => Main(e.d)
  }

  // The last entry on a subject.
  function LastOn(log: seq<Entry>, s: Subject): Option<Entry> {
    if log == [] then None
    else if SubjectOf(log[|log| - 1]) == s then Some(log[|log| - 1])
    else LastOn(log[..|log| - 1], s)
  }

  function Off(s: Subject): Entry -> bool {
    (e: Entry) => SubjectOf(e) != s
  }

  // What the stream delivers: the last entry of every subject, in stream order.
  function LastPerSubject(log: seq<Entry>): seq<Entry> {
    if log == [] then [] else
    var last := log[|log| - 1];
    Filter(Off(SubjectOf(last)), LastPerSubject(log[..|log| - 1])) + [last]
  }

  // Two entries share a subject exactly when they speak of one deployment and are both updates, both assignments, or
  // both requests to run, stop or restart.
  lemma SameSubject(a: Entry, b: Entry)
    ensures SubjectOf(a) == SubjectOf(b)
       <==> a.d == b.d && (a.UpdateEntry? <==> b.UpdateEntry?) && (a.AssignmentsEntry? <==> b.AssignmentsEntry?)
  {
  }

  // The entry at place i is delivered exactly when none after it has its subject.
  lemma {:induction false} DeliveredUnlessSuperseded(log: seq<Entry>, e: Entry)
    ensures e in LastPerSubject(log)
       <==> exists i :: 0 <= i < |log| && log[i] == e && NoneAfter(log, i)
  {
    if log != [] {
      var front, last := log[..|log| - 1], log[|log| - 1];
      DeliveredUnlessSuperseded(front, e);
      forall i | 0 <= i < |front|
        ensures NoneAfter(log, i) <==> NoneAfter(front, i) && SubjectOf(last) != SubjectOf(log[i])
      {
        NoneAfterNext(front, last, i, log);
      }
      assert NoneAfter(log, |log| - 1);
    }
  }

  ghost predicate NoneAfter(log: seq<Entry>, i: int)
    requires 0 <= i < |log|
  {
    forall j :: i < j < |log| ==>
      !(log[j].d == log[i].d && (log[j].UpdateEntry? <==> log[i].UpdateEntry?)
        && (log[j].AssignmentsEntry? <==> log[i].AssignmentsEntry?))
  }

  lemma NoneAfterNext(front: seq<Entry>, last: Entry, i: nat, log: seq<Entry>)
    requires i < |front| && log == front + [last]
    ensures NoneAfter(log, i) <==> NoneAfter(front, i) && SubjectOf(last) != SubjectOf(log[i])
  {
    SameSubject(last, log[i]);
    assert forall j :: 0 <= j < |front| ==> log[j] == front[j];
    assert log[|front|] == last;
  }

  lemma {:induction false} DeliveredIff(log: seq<Entry>, e: Entry)
    ensures e in LastPerSubject(log) <==> LastOn(log, SubjectOf(e)) == Some(e)
  {
    if log != [] {
      DeliveredIff(log[..|log| - 1], e);
    }
  }

  lemma {:induction false} LastOnHasSubject(log: seq<Entry>, s: Subject)
    ensures LastOn(log, s).Some? ==> SubjectOf(LastOn(log, s).value) == s
  {
    if log != [] {
      LastOnHasSubject(log[..|log| - 1], s);
    }
  }

  lemma {:induction false} LastOnConcat(a: seq<Entry>, b: seq<Entry>, s: Subject)
    ensures LastOn(a + b, s) == if LastOn(b, s).Some? then LastOn(b, s) else LastOn(a, s)
  {
    if b == [] {
      assert a + b == a;
    } else {
      assert (a + b)[..|a + b| - 1] == a + b[..|b| - 1];
      LastOnConcat(a, b[..|b| - 1], s);
    }
  }

  // ----- What recovery is to do with each deployment -----

  function LatestState(log: seq<Entry>, d: Id): Option<DeploymentState> {
    var last := LastOn(log, Updates(d));
    if last.Some? && last.value.UpdateEntry? then Some(last.value.state) else None
  }

  // A deployment counts as seen by its updates, its assignments, or a run or stop as its last request.
  predicate Seen(log: seq<Entry>, d: Id) {
    || LatestState(log, d).Some?
    || LastOn(log, Assignments(d)).Some?
    || LastOn(log, Main(d)) == Some(RunEntry(d)) || LastOn(log, Main(d)) == Some(StopEntry(d))
  }

  lemma {:induction false} LastOnSome(log: seq<Entry>, s: Subject)
    ensures LastOn(log, s).Some? <==> exists e :: e in log && SubjectOf(e) == s
  {
    if log != [] {
      var front, last := log[..|log| - 1], log[|log| - 1];
      assert log == front + [last];
      LastOnSome(front, s);
    }
  }

  // The latest state is that of the last update, and seen means: an update or an assignment, ever, or a request to run
  // or stop that no later request has replaced.
  lemma SeenIff(log: seq<Entry>, d: Id)
    ensures forall s :: LatestState(log, d) == Some(s)
                   <==> exists i :: 0 <= i < |log| && log[i] == UpdateEntry(d, s) && NoneAfter(log, i)
    ensures Seen(log, d)
       <==> || (exists e :: e in log && e.d == d && (e.UpdateEntry? || e.AssignmentsEntry?))
            || (exists i :: 0 <= i < |log| && (log[i] == RunEntry(d) || log[i] == StopEntry(d)) && NoneAfter(log, i))
  {
    LastOnHasSubject(log, Updates(d));
    LastOnSome(log, Updates(d));
    LastOnSome(log, Assignments(d));
    forall s ensures LatestState(log, d) == Some(s)
                <==> exists i :: 0 <= i < |log| && log[i] == UpdateEntry(d, s) && NoneAfter(log, i) {
      LastOnIff(log, UpdateEntry(d, s));
    }
    LastOnIff(log, RunEntry(d));
    LastOnIff(log, StopEntry(d));
  }

  lemma LastOnIff(log: seq<Entry>, e: Entry)
    ensures LastOn(log, SubjectOf(e)) == Some(e)
       <==> exists i :: 0 <= i < |log| && log[i] == e && NoneAfter(log, i)
  {
    DeliveredIff(log, e);
    DeliveredUnlessSuperseded(log, e);
  }

  predicate InOrder(s: Option<DeploymentState>) {
    s.Some? && (Terminal(s.value) || s.value == Running)
  }

  // ----- Recovery -----

  // What the delivered messages say, sorted by kind.
  datatype Inbox = Inbox(updates: map<Id, DeploymentState>, assignments: set<Id>, runs: set<Id>, stops: set<Id>)

  function Sorted(messages: seq<Entry>): Inbox {
    if messages == [] then Inbox(map[], {}, {}, {}) else
    var box := Sorted(messages[..|messages| - 1]);
    match messages[|messages| - 1]
    case UpdateEntry(d, s) => box.(updates := box.updates[d := s])
    case AssignmentsEntry(d) => box.(assignments := box.assignments + {d})
    case RunEntry(d) => box.(runs := box.runs + {d})
    case StopEntry(d) => box.(stops := box.stops + {d})
    case RestartEntry(_) => box
  }

  method SortMessages(messages: seq<Entry>) returns (box: Inbox)
    ensures box == Sorted(messages)
  {
    box := Inbox(map[], {}, {}, {});
    for i := 0 to |messages|
      invariant box == Sorted(messages[..i])
    {
      assert messages[..i + 1][..i] == messages[..i];
      match messages[i]
      case UpdateEntry(d, s) => box := box.(updates := box.updates[d := s]);
      case AssignmentsEntry(d) => box := box.(assignments := box.assignments + {d});
      case RunEntry(d) => box := box.(runs := box.runs + {d});
      case StopEntry(d) => box := box.(stops := box.stops + {d});
      case RestartEntry(_) =>
    }
    assert messages[..|messages|] == messages;
  }

  lemma {:induction false} SortedContents(messages: seq<Entry>)
    ensures var box := Sorted(messages);
            && (forall d :: d in box.updates ==> UpdateEntry(d, box.updates[d]) in messages)
            && (forall d, s :: UpdateEntry(d, s) in messages ==> d in box.updates)
            && (forall d :: d in box.assignments <==> AssignmentsEntry(d) in messages)
            && (forall d :: d in box.runs <==> RunEntry(d) in messages)
            && (forall d :: d in box.stops <==> StopEntry(d) in messages)
  {
    if messages != [] {
      var front, last := messages[..|messages| - 1], messages[|messages| - 1];
      assert messages == front + [last];
      SortedContents(front);
      forall d | d in Sorted(messages).updates ensures UpdateEntry(d, Sorted(messages).updates[d]) in messages {
        if last.UpdateEntry? && last.d == d {
          assert last == UpdateEntry(d, Sorted(messages).updates[d]);
        } else {
          assert UpdateEntry(d, Sorted(front).updates[d]) in front;
        }
      }
    }
  }

  function Ids(box: Inbox): set<Id> {
    box.assignments + box.updates.Keys + box.runs + box.stops
  }

  // The inbox of a log says exactly which deployments were seen, and in what state each was last.
  lemma InboxTellsAll(log: seq<Entry>, d: Id)
    ensures var box := Sorted(LastPerSubject(log));
            && (d in Ids(box) <==> Seen(log, d))
            && (if d in box.updates then LatestState(log, d) == Some(box.updates[d]) else LatestState(log, d) == None)
  {
    var messages := LastPerSubject(log);
    var box := Sorted(messages);
    SortedContents(messages);
    LastOnHasSubject(log, Updates(d));
    LastOnHasSubject(log, Assignments(d));
    var last := LastOn(log, Updates(d));
    if last.Some? {
      DeliveredIff(log, last.value);
      assert last.value == UpdateEntry(d, last.value.state);
    }
    if d in box.updates {
      DeliveredIff(log, UpdateEntry(d, box.updates[d]));
    }
    DeliveredIff(log, AssignmentsEntry(d));
    DeliveredIff(log, RunEntry(d));
    DeliveredIff(log, StopEntry(d));
  }

  // The state that puts a deployment in order: failed if it never got an update, cancelled if it is neither running
  // nor over, and otherwise the one it has.
  ghost predicate Settles(last: Option<DeploymentState>, state: DeploymentState) {
    match last
    case None => state == FailedToStart
    case Some(Pending) => state == Cancelled
    case Some(AgentsAssigned) => state == Cancelled
    case Some(FailureOnAgent) => state == Cancelled
    case Some(s) => state == s
  }

  // Puts one deployment in order: fails it if it never got an update, cancels it if it is neither running nor over.
  method Tidy(d: Id, last: Option<DeploymentState>) returns (sm: DeploymentStateMachine, registered: bool, ok: bool)
    ensures fresh(sm) && sm.id == d && ok
    ensures registered <==> last == Some(Running)
    ensures registered ==> sm.state == Running
    ensures |sm.published| <= 1 && (sm.published == [] <==> InOrder(last))
    ensures Settles(last, sm.state) && (sm.published != [] ==> sm.published == [sm.state])
  {
    if last.None? {
      sm := new DeploymentStateMachine(d, Pending);
      FireTable(Pending, StartFailure);
      ok := sm.Trigger(StartFailure);
      return sm, false, ok;
    }
    sm := new DeploymentStateMachine(d, last.value);
    if Terminal(sm.state) {
      return sm, false, true;
    }
    if sm.state != Running {
      FireTable(sm.state, Cancel);
      ok := sm.Trigger(Cancel);
      return sm, false, ok;
    }
    return sm, true, true;
  }

  ghost predicate OnlyUpdates(published: seq<Entry>) {
    forall i :: 0 <= i < |published| ==> published[i].UpdateEntry?
  }

  // What is fixed for one deployment: the update it lacks if it was handled and not in order, and otherwise nothing.
  ghost predicate FixedRight(log: seq<Entry>, handled: set<Id>, published: seq<Entry>, d: Id) {
    match LastOn(published, Updates(d))
    case None => d in handled ==> InOrder(LatestState(log, d))
    case Some(e) =>
      && d in handled && !InOrder(LatestState(log, d))
      && e.UpdateEntry? && e.d == d && Settles(LatestState(log, d), e.state)
  }

  // What recovery has published so far: updates only, the right ones, and none without need.
  ghost predicate Fixes(log: seq<Entry>, handled: set<Id>, published: seq<Entry>) {
    && OnlyUpdates(published)
    && (forall d :: FixedRight(log, handled, published, d))
    && (published != [] ==> exists d :: d in handled && !InOrder(LatestState(log, d)))
  }

  // An entry recovery has to publish: the update that puts a handled deployment in order.
  ghost predicate Mends(log: seq<Entry>, handled: set<Id>, e: Entry) {
    e.UpdateEntry? && e.d in handled && !InOrder(LatestState(log, e.d)) && Settles(LatestState(log, e.d), e.state)
  }

  // Each of those once, and nothing else.
  ghost predicate MendsAll(log: seq<Entry>, handled: set<Id>, published: seq<Entry>) {
    NoDup(published) && forall e :: e in published <==> Mends(log, handled, e)
  }

  ghost predicate SettledAs(last: Option<DeploymentState>, now: Option<DeploymentState>) {
    InOrder(now) && Settles(last, now.value)
  }

  // Everything recovery promises about the log it leaves behind.
  ghost predicate PutsInOrder(log: seq<Entry>, published: seq<Entry>) {
    && (forall d :: Seen(log, d) ==> SettledAs(LatestState(log, d), LatestState(log + published, d)))
    && (forall d :: InOrder(LatestState(log, d)) ==> LatestState(log + published, d) == LatestState(log, d))
    && (forall d :: LatestState(log + published, d) == Some(Running) ==> LatestState(log, d) == Some(Running))
    && (forall d :: Seen(log + published, d) <==> Seen(log, d))
  }

  // Exactly the handled deployments that were running have a machine, and it is running.
  ghost predicate RegistersRunning(machines: map<Id, DeploymentStateMachine>, log: seq<Entry>, handled: set<Id>)
    reads machines.Values
  {
    && (forall d :: d in machines <==> d in handled && LatestState(log, d) == Some(Running))
    && (forall d :: d in machines ==> machines[d].id == d && machines[d].state == Running)
  }

  // What recovery does with a log: it publishes the fixes, and the machines it registers are the running ones.
  ghost predicate Recovers(log: seq<Entry>, published: seq<Entry>, start: map<Id, DeploymentState>) {
    && PutsInOrder(log, published)
    && (forall d :: d in start <==> LatestState(log, d) == Some(Running))
    && (forall d :: d in start ==> start[d] == Running)
  }

  // Replays the last events. Afterwards exactly the running deployments have machines, every other deployment
  // seen has a terminal last update, and no trigger fired was invalid.
  method ReplayAndCleanup(log: seq<Entry>)
    returns (machines: map<Id, DeploymentStateMachine>, published: seq<Entry>, ok: bool)
    ensures ok
    ensures forall d :: d in machines ==> machines[d].id == d
    ensures Recovers(log, published, map d | d in machines :: machines[d].state)
    ensures (forall d :: Seen(log, d) ==> InOrder(LatestState(log, d))) ==> published == []
    ensures NoDup(published)
    ensures forall e :: e in published
                   <==> e.UpdateEntry? && Seen(log, e.d) && !InOrder(LatestState(log, e.d))
                        && Settles(LatestState(log, e.d), e.state)
  {
    var box := SortMessages(LastPerSubject(log));
    InboxOfLog(log, box);
    machines, published, ok := TidyAll(box, log);
    assert forall e :: e in published <==> Mends(log, Ids(box), e);
    FixesRecover(log, Ids(box), published, map d | d in machines :: machines[d].state);
  }

  lemma FixesRecover(log: seq<Entry>, handled: set<Id>, published: seq<Entry>, start: map<Id, DeploymentState>)
    requires Fixes(log, handled, published) && forall d :: d in handled <==> Seen(log, d)
    requires forall d :: d in start <==> d in handled && LatestState(log, d) == Some(Running)
    requires forall d :: d in start ==> start[d] == Running
    ensures Recovers(log, published, start)
    ensures (forall d :: Seen(log, d) ==> InOrder(LatestState(log, d))) ==> published == []
  {
    FixesApply(log, handled, published);
  }

  // Puts every deployment of the inbox in order.
  method TidyAll(box: Inbox, ghost log: seq<Entry>)
    returns (machines: map<Id, DeploymentStateMachine>, published: seq<Entry>, ok: bool)
    requires forall d :: LatestState(log, d) == if d in box.updates then Some(box.updates[d]) else None
    ensures ok && RegistersRunning(machines, log, Ids(box))
    ensures Fixes(log, Ids(box), published) && MendsAll(log, Ids(box), published)
  {
    machines, published, ok := map[], [], true;
    var todo := Ids(box);
    ghost var handled: set<Id> := {};
    while todo != {}
      invariant handled + todo == Ids(box) && handled !! todo && ok
      invariant RegistersRunning(machines, log, handled)
      invariant Fixes(log, handled, published) && MendsAll(log, handled, published)
      decreases todo
    {
      var d :| d in todo;
      var sm, registered, fired := Tidy(d, if d in box.updates then Some(box.updates[d]) else None);
      ok := ok && fired;
      if registered {
        machines := machines[d := sm];
      }
      FixesNext(log, handled, published, d, sm.published);
      MendsNext(log, handled, published, d, sm.published);
      if sm.published != [] {
        published := published + [UpdateEntry(d, sm.published[0])];
      }
      handled, todo := handled + {d}, todo - {d};
    }
    assert handled == Ids(box);
  }

  lemma InboxOfLog(log: seq<Entry>, box: Inbox)
    requires box == Sorted(LastPerSubject(log))
    ensures forall d :: d in Ids(box) <==> Seen(log, d)
    ensures forall d :: LatestState(log, d) == if d in box.updates then Some(box.updates[d]) else None
  {
    forall d ensures d in Ids(box) <==> Seen(log, d)
             ensures LatestState(log, d) == if d in box.updates then Some(box.updates[d]) else None {
      InboxTellsAll(log, d);
    }
  }

  lemma FixesNext(log: seq<Entry>, handled: set<Id>, published: seq<Entry>, d: Id, states: seq<DeploymentState>)
    requires Fixes(log, handled, published) && d !in handled
    requires states == [] <==> InOrder(LatestState(log, d))
    requires states != [] ==> Settles(LatestState(log, d), states[0])
    ensures Fixes(log, handled + {d}, if states == [] then published else published + [UpdateEntry(d, states[0])])
  {
    var next := if states == [] then published else published + [UpdateEntry(d, states[0])];
    assert states != [] ==> next[..|published|] == published;
    forall x ensures FixedRight(log, handled + {d}, next, x) {
      assert FixedRight(log, handled, published, x);
    }
    if next != [] {
      var x :| x in handled + {d} && !InOrder(LatestState(log, x));
    }
  }

  lemma MendsNext(log: seq<Entry>, handled: set<Id>, published: seq<Entry>, d: Id, states: seq<DeploymentState>)
    requires MendsAll(log, handled, published) && d !in handled
    requires states == [] <==> InOrder(LatestState(log, d))
    requires states != [] ==> Settles(LatestState(log, d), states[0])
    ensures MendsAll(log, handled + {d}, if states == [] then published else published + [UpdateEntry(d, states[0])])
  {
    var next := if states == [] then published else published + [UpdateEntry(d, states[0])];
    if states != [] {
      assert !Mends(log, handled, UpdateEntry(d, states[0]));
      assert next[..|published|] == published;
    }
    forall e ensures e in next <==> Mends(log, handled + {d}, e) {
      assert e in next <==> e in published || (states != [] && e == UpdateEntry(d, states[0]));
      assert e in published <==> Mends(log, handled, e);
    }
  }

  // Appending the fixes puts every deployment seen in order, and touches no other.
  lemma FixesApply(log: seq<Entry>, handled: set<Id>, published: seq<Entry>)
    requires Fixes(log, handled, published) && forall d :: d in handled <==> Seen(log, d)
    ensures PutsInOrder(log, published)
    ensures (forall d :: Seen(log, d) ==> InOrder(LatestState(log, d))) ==> published == []
  {
    forall d
      ensures Seen(log, d) ==> SettledAs(LatestState(log, d), LatestState(log + published, d))
      ensures InOrder(LatestState(log, d)) ==> LatestState(log + published, d) == LatestState(log, d)
      ensures LatestState(log + published, d) == Some(Running) ==> LatestState(log, d) == Some(Running)
      ensures Seen(log + published, d) <==> Seen(log, d)
    {
      FixApplies(log, handled, published, d);
    }
  }

  lemma FixApplies(log: seq<Entry>, handled: set<Id>, published: seq<Entry>, d: Id)
    requires OnlyUpdates(published) && FixedRight(log, handled, published, d) && (d in handled <==> Seen(log, d))
    ensures Seen(log, d) ==> SettledAs(LatestState(log, d), LatestState(log + published, d))
    ensures InOrder(LatestState(log, d)) ==> LatestState(log + published, d) == LatestState(log, d)
    ensures LatestState(log + published, d) == Some(Running) ==> LatestState(log, d) == Some(Running)
    ensures Seen(log + published, d) <==> Seen(log, d)
  {
    LastOnConcat(log, published, Updates(d));
    LastOnConcat(log, published, Main(d));
    LastOnConcat(log, published, Assignments(d));
    UpdatesOnly(published, Main(d));
    UpdatesOnly(published, Assignments(d));
  }

  lemma {:induction false} UpdatesOnly(published: seq<Entry>, s: Subject)
    requires OnlyUpdates(published) && !s.Updates?
    ensures LastOn(published, s) == None
  {
    if published != [] {
      UpdatesOnly(published[..|published| - 1], s);
    }
  }

  // Recovering again from the log that recovery left publishes nothing and finds the same running deployments.
  method ReplayTwice(log: seq<Entry>)
    returns (first: map<Id, DeploymentStateMachine>, second: map<Id, DeploymentStateMachine>, published: seq<Entry>,
             again: seq<Entry>)
    ensures again == [] && first.Keys == second.Keys
    ensures forall d :: d in first <==> LatestState(log, d) == Some(Running)
  {
    var ok, ok';
    first, published, ok := ReplayAndCleanup(log);
    second, again, ok' := ReplayAndCleanup(log + published);
    forall d ensures d in first <==> d in second {
      assert LatestState(log, d) == Some(Running) <==> LatestState(log + published, d) == Some(Running);
    }
  }

  // ----- Session after session -----

  // The state updates among some entries.
  function UpdatesIn(entries: seq<Entry>): seq<(Id, DeploymentState)> {
    if entries == [] then [] else
    var front, last := entries[..|entries| - 1], entries[|entries| - 1];
    if last.UpdateEntry? then UpdatesIn(front) + [(last.d, last.state)] else UpdatesIn(front)
  }

  lemma {:induction false} LatestInEntries(entries: seq<Entry>, d: Id)
    ensures LatestState(entries, d) == LastUpdate(UpdatesIn(entries), d)
  {
    if entries != [] {
      var front, last := entries[..|entries| - 1], entries[|entries| - 1];
      LatestInEntries(front, d);
      if last.UpdateEntry? {
        assert (UpdatesIn(front) + [(last.d, last.state)])[..|UpdatesIn(front)|] == UpdatesIn(front);
      }
    }
  }

  lemma LatestAfter(before: seq<Entry>, entries: seq<Entry>, d: Id)
    ensures LatestState(before + entries, d)
         == if LatestState(entries, d).Some? then LatestState(entries, d) else LatestState(before, d)
  {
    LastOnConcat(before, entries, Updates(d));
    LastOnHasSubject(entries, Updates(d));
    LastOnHasSubject(before, Updates(d));
  }

  // One orchestrator's life: what recovery published, the machines it registered, the session that followed, and the
  // entries the stream got meanwhile, from the orchestrator and from others.
  datatype Life = Life(published: seq<Entry>, start: map<Id, DeploymentState>, actions: seq<Action>,
                       entries: seq<Entry>) {
    function End(): Sys {
      Run(Begun(start), actions)
    }

    predicate RunningAtEnd(d: Id) {
      d in End().machines && End().machines[d] == Running
    }
  }

  // The stream after these lives.
  function LogAfter(log: seq<Entry>, lives: seq<Life>): seq<Entry> {
    if lives == [] then log else
    var last := lives[|lives| - 1];
    LogAfter(log, lives[..|lives| - 1]) + last.published + last.entries
  }

  // Each orchestrator recovers from the stream the ones before it left, then runs a session, whose updates, in order,
  // are the only updates among the new entries.
  ghost predicate Lived(log: seq<Entry>, lives: seq<Life>) {
    lives != [] ==>
      var front, last := lives[..|lives| - 1], lives[|lives| - 1];
      && Lived(log, front)
      && Recovers(LogAfter(log, front), last.published, last.start)
      && UpdatesIn(last.entries) == last.End().log
  }

  // Whatever happened in a session and however its handlers interleaved, the stream it leaves says of exactly those
  // deployments that they run whose machines were running at its end.
  lemma StreamTellsWhatRan(log: seq<Entry>, lives: seq<Life>, d: Id)
    requires Lived(log, lives) && lives != []
    ensures LatestState(LogAfter(log, lives), d) == Some(Running) <==> lives[|lives| - 1].RunningAtEnd(d)
  {
    var last, before := lives[|lives| - 1], LogAfter(log, lives[..|lives| - 1]);
    RunSafe(last.start, last.actions);
    var s := last.End();
    LatestAfter(before + last.published, last.entries, d);
    LatestInEntries(last.entries, d);
    assert LastUpdate(s.log, d)
        == if d in s.machines && s.machines[d] != StartOf(last.start, d) then Some(s.machines[d]) else None;
    assert d in last.start <==> LatestState(before + last.published, d) == Some(Running) by {
      assert LatestState(before + last.published, d) == Some(Running) ==> LatestState(before, d) == Some(Running);
      assert InOrder(LatestState(before, d)) ==> LatestState(before + last.published, d) == LatestState(before, d);
    }
  }

  lemma {:induction false} LivedPrefix(log: seq<Entry>, lives: seq<Life>, n: nat)
    requires Lived(log, lives) && n <= |lives|
    ensures Lived(log, lives[..n])
    decreases |lives|
  {
    if n == |lives| {
      assert lives[..n] == lives;
    } else {
      LivedPrefix(log, lives[..|lives| - 1], n);
      assert lives[..|lives| - 1][..n] == lives[..n];
    }
  }

  // Across any number of restarts: every orchestrator starts from exactly the machines that were running when the one
  // before it stopped, the first one from those the stream said were running.
  lemma RecoversWhatRan(log: seq<Entry>, lives: seq<Life>, i: nat, d: Id)
    requires Lived(log, lives) && i < |lives|
    ensures d in lives[i].start
        <==> if i == 0 then LatestState(log, d) == Some(Running) else lives[i - 1].RunningAtEnd(d)
    ensures d in lives[i].start ==> lives[i].start[d] == Running
  {
    LivedPrefix(log, lives, i + 1);
    var upTo := lives[..i + 1];
    assert upTo[..|upTo| - 1] == lives[..i];
    if i == 0 {
      assert lives[..i] == [];
    } else {
      LivedPrefix(log, lives, i);
      StreamTellsWhatRan(log, lives[..i], d);
    }
  }

  lemma CarriedThrough(log: seq<Entry>, lives: seq<Life>, j: nat, d: Id)
    requires Lived(log, lives) && 0 < j < |lives| && lives[j - 1].RunningAtEnd(d)
    requires LastUpdate(lives[j].End().log, d) == None
    ensures lives[j].RunningAtEnd(d)
  {
    RecoversWhatRan(log, lives, j, d);
    RunSafe(lives[j].start, lives[j].actions);
  }

  // A deployment that runs and of which no later session publishes an update is carried through all of them.
  lemma {:induction false} UntouchedKeepsRunning(log: seq<Entry>, lives: seq<Life>, i: nat, j: nat, d: Id)
    requires Lived(log, lives) && i <= j < |lives| && lives[i].RunningAtEnd(d)
    requires forall k :: i < k <= j ==> LastUpdate(lives[k].End().log, d) == None
    ensures lives[j].RunningAtEnd(d)
    decreases j
  {
    if i < j {
      UntouchedKeepsRunning(log, lives, i, j - 1, d);
      CarriedThrough(log, lives, j, d);
    }
  }
}
