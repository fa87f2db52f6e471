/** A background process tells its client which node is the head node, sending only the changes. */
module HeadNode {
  import opened Common

  // Per group, the short ids that report; the innermost records are not looked at.
  datatype NodeInfo = NodeInfo(nodeId: string, groups: map<int, set<int>>)

  // The node map in its own order; everything else is one payload.
  datatype SharedState = SharedState(nodes: seq<NodeInfo>, payload: Id)

  datatype Message = Message(body: string, state: SharedState)

  const HEARTBEAT := "HUGZ"

  datatype Update = NodeConnected(head: string) | NodeDisconnected | StateUpdate(state: SharedState)

  // What the client shows: the head node and the latest state.
  datatype View = View(head: Option<string>, latest: Option<SharedState>)

  const START := View(None, None)

  predicate Leads(n: NodeInfo) {
    exists g :: g in n.groups && 0 in n.groups[g]
  }

  // Short id 0 reports in none of the groups.
  ghost predicate NoZero(groups: map<int, set<int>>) {
    forall g :: g in groups ==> 0 !in groups[g]
  }

  // The id of the first node that has a short id 0 in some group.
  function HeadOf(nodes: seq<NodeInfo>): (r: Option<string>)
    ensures r.None? <==> forall i :: 0 <= i < |nodes| ==> NoZero(nodes[i].groups)
    ensures r.Some? ==> exists i :: 0 <= i < |nodes| && !NoZero(nodes[i].groups) && r == Some(nodes[i].nodeId)
                                    && forall j :: 0 <= j < i ==> NoZero(nodes[j].groups)
  {
    if nodes == [] then None
    else if Leads(nodes[0]) then Some(nodes[0].nodeId)
    else
      var r := HeadOf(nodes[1..]);
      assert forall i :: 0 <= i < |nodes| - 1 ==> nodes[1..][i] == nodes[i + 1];
      r
  }

  // ----- Applying updates -----

  function Handle(v: View, u: Update): View {
    match u
    case NodeConnected(head) => v.(head := Some(head))
    case NodeDisconnected => v.(head := None)
    case StateUpdate(state) => v.(latest := Some(state))
  }

  function Apply(v: View, us: seq<Update>): View {
    if us == [] then v else Handle(Apply(v, us[..|us| - 1]), us[|us| - 1])
  }

  lemma {:induction false} ApplyConcat(v: View, a: seq<Update>, b: seq<Update>)
    ensures Apply(v, a + b) == Apply(Apply(v, a), b)
  {
    if b == [] {
      assert a + b == a;
    } else {
      ApplyConcat(v, a, b[..|b| - 1]);
      assert (a + b)[..|a + b| - 1] == a + b[..|b| - 1];
    }
  }

  // The notice of a change of head, if it changed.
  function Notice(last: Option<string>, head: Option<string>): seq<Update> {
    if head == last then []
    else if head.Some? then [NodeConnected(head.value)]
    else [NodeDisconnected]
  }

  lemma NoticeTells(v: View, head: Option<string>)
    ensures Apply(v, Notice(v.head, head)) == v.(head := head)
  {
  }

  // ----- The two ends as the program has them -----

  class Channel {
    var queue: seq<Update>

    constructor ()
      ensures queue == []
    {
      queue := [];
    }

    method Send(u: Update)
      modifies this
      ensures queue == old(queue) + [u]
    {
      queue := queue + [u];
    }

    // The oldest update, if there is one.
    method Receive() returns (u: Option<Update>)
      modifies this
      ensures if old(queue) == [] then u == None && queue == []
              else u == Some(old(queue)[0]) && queue == old(queue)[1..]
    {
      if queue == [] {
        return None;
      }
      u := Some(queue[0]);
      queue := queue[1..];
    }
  }

  // One turn of the background process; returns the head node it now remembers.
  method ProcessIncomingMessage(message: Option<Message>, updates: Channel, last: Option<string>)
    returns (head: Option<string>)
    modifies updates
    ensures if message.None? || message.value.body == "HUGZ" then head == last && updates.queue == old(updates.queue)
            else
              head == HeadOf(message.value.state.nodes)
              && updates.queue == old(updates.queue) + [StateUpdate(message.value.state)] + Notice(last, head)
  {
    if message.None? || message.value.body == HEARTBEAT {
      return last;
    }
    var state := message.value.state;
    updates.Send(StateUpdate(state));
    head := FindHead(state.nodes);
    Notify(updates, last, head);
  }

  method FindHead(nodes: seq<NodeInfo>) returns (head: Option<string>)
    ensures head == HeadOf(nodes)
  {
    for i := 0 to |nodes|
      invariant HeadOf(nodes) == HeadOf(nodes[i..])
    {
      if Leads(nodes[i]) {
        return Some(nodes[i].nodeId);
      }
    }
    head := None;
  }

  // Tells of the new head if it is another one.
  method Notify(updates: Channel, last: Option<string>, head: Option<string>)
    modifies updates
    ensures updates.queue == old(updates.queue) + Notice(last, head)
  {
    if head != last {
      if head.Some? {
        updates.Send(NodeConnected(head.value));
      } else {
        updates.Send(NodeDisconnected);
      }
    }
  }

  class Client {
    const updates: Channel
    var currentHead: Option<string>
    var latest: Option<SharedState>
    var socket: Option<string>     // the node the open data socket is connected to
    var connected: Option<string>  // the node the client believes it is connected to

    ghost predicate Valid()
      reads this`socket, this`connected
    {
      socket == connected && (connected.Some? ==> connected.value != "")
    }

    ghost function Shown(): View
      reads this`currentHead, this`latest
    {
      View(currentHead, latest)
    }

    constructor (channel: Channel)
      ensures Valid() && updates == channel && Shown() == START && connected == None
    {
      updates, currentHead, latest, socket, connected := channel, None, None, None, None;
    }

    method HandleUpdate(u: Update)
      modifies this`currentHead, this`latest
      ensures Shown() == Handle(old(Shown()), u)
    {
      match u
      case NodeConnected(head) => currentHead := Some(head);
      case NodeDisconnected => currentHead := None;
      case StateUpdate(state) => latest := Some(state);
    }

    // Drains the queue, oldest first.
    method ReceiveUpdate()
      modifies this`currentHead, this`latest, updates
      ensures Shown() == Apply(old(Shown()), old(updates.queue)) && updates.queue == []
    {
      ghost var taken: seq<Update> := [];
      var u := updates.Receive();
      while u.Some?
        invariant if u.Some? then old(updates.queue) == taken + [u.value] + updates.queue
                  else old(updates.queue) == taken && updates.queue == []
        invariant Shown() == Apply(old(Shown()), taken)
        decreases u.Some?, |updates.queue|
      {
        HandleUpdate(u.value);
        assert (taken + [u.value])[..|taken|] == taken;
        taken := taken + [u.value];
        u := updates.Receive();
      }
    }

    method CloseDataSocket()
      modifies this`socket, this`connected
      ensures socket == None && connected == None
    {
      socket, connected := None, None;
    }

    // A socket to the current head node; `connects` says whether connecting works. A failure is an error.
    method GetDataSocket(connects: bool) returns (r: Result<Option<string>, string>)
      requires Valid()
      modifies this, updates
      ensures Valid() && updates.queue == []
      ensures Shown() == Apply(old(Shown()), old(updates.queue))
      ensures var target := if currentHead == Some("") then None else currentHead;
              if target.Some? && target != old(connected) && !connects then r.Failure? && connected == None
              else r == Success(target) && connected == target
    {
      ReceiveUpdate();
      var head := currentHead;
      if head != connected {
        CloseDataSocket();
        if head.Some? && head.value != "" {
          if !connects {
            return Failure("Data socket connection failed");
          }
          socket, connected := head, head;
        }
      }
      r := Success(socket);
    }
  }

  // ----- Both ends running side by side -----

  function HeadNow(seen: seq<SharedState>): Option<string> {
    if seen == [] then None else HeadOf(seen[|seen| - 1].nodes)
  }

  function LatestNow(seen: seq<SharedState>): Option<SharedState> {
    if seen == [] then None else Some(seen[|seen| - 1])
  }

  // Between sending a state and telling of its head, the process holds that head.
  datatype Phase = Idle | Announcing(head: Option<string>)

  datatype Wire = Wire(
    last: Option<string>,     // the head the process remembers
    phase: Phase,
    queue: seq<Update>,       // sent and not yet received
    view: View,               // what the client shows
    seen: seq<SharedState>,   // history: the states the process has taken in
    taken: seq<Update>        // history: the updates the client has received
  )

  datatype Event = Arrive(message: Message) | Announce | Receive

  const INITIAL := Wire(None, Idle, [], START, [], [])

  function Step(s: Wire, e: Event): Wire {
    match e
    case Arrive(m) =>
      if s.phase != Idle || m.body == HEARTBEAT then s
      else s.(phase := Announcing(HeadOf(m.state.nodes)), queue := s.queue + [StateUpdate(m.state)],
              seen := s.seen + [m.state])
    case Announce =>
      if s.phase == Idle then s
      else s.(last := s.phase.head, phase := Idle, queue := s.queue + Notice(s.last, s.phase.head))
    case Receive =>
      if s.queue == [] then s
      else s.(view := Handle(s.view, s.queue[0]), queue := s.queue[1..], taken := s.taken + [s.queue[0]])
  }

  function Run(s: Wire, es: seq<Event>): Wire {
    if es == [] then s else Step(Run(s, es[..|es| - 1]), es[|es| - 1])
  }

  // Everything the process sends for the states it takes in.
  function Sent(seen: seq<SharedState>): seq<Update> {
    if seen == [] then [] else
    var front := seen[..|seen| - 1];
    Sent(front) + [StateUpdate(seen[|seen| - 1])] + Notice(HeadNow(front), HeadNow(seen))
  }

  // A message handled without interruption does what the method above does.
  lemma ArriveThenAnnounce(s: Wire, m: Message)
    requires s.phase == Idle && m.body != HEARTBEAT
    ensures var t := Step(Step(s, Arrive(m)), Announce);
            t == s.(last := HeadOf(m.state.nodes), seen := s.seen + [m.state],
                    queue := s.queue + [StateUpdate(m.state)] + Notice(s.last, HeadOf(m.state.nodes)))
  {
  }

  ghost predicate Inv(s: Wire) {
    && s.view == Apply(START, s.taken)
    && match s.phase
       case Idle => s.last == HeadNow(s.seen) && s.taken + s.queue == Sent(s.seen)
       case Announcing(head) =>
         s.seen != [] && head == HeadNow(s.seen)
         && var front := s.seen[..|s.seen| - 1];
            s.last == HeadNow(front) && s.taken + s.queue == Sent(front) + [StateUpdate(s.seen[|s.seen| - 1])]
  }

  lemma Append(a: seq<Update>, b: seq<Update>, c: seq<Update>)
    ensures a + (b + c) == a + b + c
  {
  }

  lemma ReceiveKeeps(s: Wire)
    requires Inv(s) && s.queue != []
    ensures Inv(Step(s, Receive))
  {
    assert (s.taken + [s.queue[0]])[..|s.taken|] == s.taken;
    assert s.queue == [s.queue[0]] + s.queue[1..];
    Append(s.taken, [s.queue[0]], s.queue[1..]);
  }

  lemma ArriveKeeps(s: Wire, m: Message)
    requires Inv(s) && s.phase == Idle && m.body != HEARTBEAT
    ensures Inv(Step(s, Arrive(m)))
  {
  }

  lemma AnnounceKeeps(s: Wire)
    requires Inv(s) && s.phase.Announcing?
    ensures Inv(Step(s, Announce))
  {
    Append(s.taken, s.queue, Notice(s.last, s.phase.head));
  }

  lemma StepKeeps(s: Wire, e: Event)
    requires Inv(s)
    ensures Inv(Step(s, e))
  {
    if Step(s, e) != s {
      match e
      case Arrive(m) => ArriveKeeps(s, m);
      case Announce => AnnounceKeeps(s);
      case Receive => ReceiveKeeps(s);
    }
  }

  lemma {:induction false} RunKeeps(es: seq<Event>)
    ensures Inv(Run(INITIAL, es))
  {
    if es != [] {
      RunKeeps(es[..|es| - 1]);
      StepKeeps(Run(INITIAL, es[..|es| - 1]), es[|es| - 1]);
    }
  }

  // All that is sent amounts to the latest state and its head.
  lemma {:induction false} SentAmountsTo(seen: seq<SharedState>)
    ensures Apply(START, Sent(seen)) == View(HeadNow(seen), LatestNow(seen))
  {
    if seen != [] {
      var front, state := seen[..|seen| - 1], seen[|seen| - 1];
      SentAmountsTo(front);
      SentStateAmountsTo(front, state);
      ApplyConcat(START, Sent(front) + [StateUpdate(state)], Notice(HeadNow(front), HeadNow(seen)));
      NoticeTells(View(HeadNow(front), Some(state)), HeadNow(seen));
    }
  }

  lemma SentStateAmountsTo(front: seq<SharedState>, state: SharedState)
    requires Apply(START, Sent(front)) == View(HeadNow(front), LatestNow(front))
    ensures Apply(START, Sent(front) + [StateUpdate(state)]) == View(HeadNow(front), Some(state))
  {
    assert (Sent(front) + [StateUpdate(state)])[..|Sent(front)|] == Sent(front);
  }

  // At every moment, what is still queued would bring the client to the head the process remembers
  // and to the last state it sent.
  lemma PendingUpdatesCatchUp(es: seq<Event>)
    ensures var s := Run(INITIAL, es); Apply(s.view, s.queue) == View(s.last, LatestNow(s.seen))
  {
    RunKeeps(es);
    var s := Run(INITIAL, es);
    ApplyConcat(START, s.taken, s.queue);
    match s.phase
    case Idle => SentAmountsTo(s.seen);
    case Announcing(_) =>
      var front := s.seen[..|s.seen| - 1];
      SentAmountsTo(front);
      SentStateAmountsTo(front, s.seen[|s.seen| - 1]);
  }

  // A client that has received everything shows the last state, and the head of exactly that state unless the
  // process has yet to tell of a change.
  lemma DrainedClientAgreesIff(es: seq<Event>)
    requires Run(INITIAL, es).queue == []
    ensures var s := Run(INITIAL, es);
            s.view.latest == LatestNow(s.seen)
            && (s.view.head == HeadNow(s.seen) <==> s.phase == Idle || s.phase.head == s.last)
  {
    PendingUpdatesCatchUp(es);
    RunKeeps(es);
  }

  // The view belongs to the i-th state taken in, with that state's head or the one before's.
  ghost predicate BelongsTo(v: View, seen: seq<SharedState>, i: nat) {
    && i <= |seen|
    && v.latest == LatestNow(seen[..i])
    && (v.head == HeadNow(seen[..i]) || (i > 0 && v.head == HeadNow(seen[..i - 1])))
  }

  lemma BelongsLater(v: View, seen: seq<SharedState>, i: nat)
    requires seen != [] && BelongsTo(v, seen[..|seen| - 1], i)
    ensures BelongsTo(v, seen, i)
  {
    var front := seen[..|seen| - 1];
    assert front[..i] == seen[..i];
    if i > 0 {
      assert front[..i - 1] == seen[..i - 1];
    }
  }

  // Just after the last state went out, and just after its notice.
  lemma LastStateBelongs(seen: seq<SharedState>)
    requires seen != []
    ensures BelongsTo(View(HeadNow(seen[..|seen| - 1]), LatestNow(seen)), seen, |seen|)
    ensures BelongsTo(View(HeadNow(seen), LatestNow(seen)), seen, |seen|)
  {
    assert seen[..|seen|] == seen;
  }

  // Where a prefix of what is sent for a state may end: before it, right after the state, or after its notice.
  lemma {:induction false} PrefixOfSent(seen: seq<SharedState>, n: nat, us: seq<Update>)
    requires seen != [] && n <= |Sent(seen)| && us == Sent(seen)[..n]
    ensures n <= |Sent(seen[..|seen| - 1])| ==> us == Sent(seen[..|seen| - 1])[..n]
    ensures n == |Sent(seen[..|seen| - 1])| + 1 ==> us == Sent(seen[..|seen| - 1]) + [StateUpdate(seen[|seen| - 1])]
    ensures n > |Sent(seen[..|seen| - 1])| + 1 ==> us == Sent(seen)
  {
  }

  lemma {:induction false} PrefixBelongs(seen: seq<SharedState>, n: nat) returns (i: nat)
    requires n <= |Sent(seen)|
    ensures BelongsTo(Apply(START, Sent(seen)[..n]), seen, i)
  {
    i := |seen|;
    if seen != [] {
      var front, us := seen[..|seen| - 1], Sent(seen)[..n];
      PrefixOfSent(seen, n, us);
      if n <= |Sent(front)| {
        i := PrefixBelongs(front, n);
        BelongsLater(Apply(START, us), seen, i);
      } else {
        SentAmountsTo(front);
        SentStateAmountsTo(front, seen[|seen| - 1]);
        SentAmountsTo(seen);
        LastStateBelongs(seen);
      }
    }
  }

  // At no moment, drained or not, does the client pair a state with a head older than the previous state's.
  lemma HeadLagsAtMostOneState(es: seq<Event>) returns (i: nat)
    ensures var s := Run(INITIAL, es); BelongsTo(s.view, s.seen, i)
  {
    RunKeeps(es);
    var s := Run(INITIAL, es);
    assert (s.taken + s.queue)[..|s.taken|] == s.taken;
    if s.phase.Announcing? {
      assert Sent(s.seen)[..|s.taken + s.queue|] == s.taken + s.queue;
    }
    assert Sent(s.seen)[..|s.taken|] == s.taken;
    i := PrefixBelongs(s.seen, |s.taken|);
  }

  // ----- A restarted process -----

  // A new process starts from no head and no history, while the client keeps what it shows: once everything is
  // received, the client shows the right head exactly when it had shown none, or the new process ever saw one.
  lemma {:induction false} RestartedProcessAgreesIff(before: View, seen: seq<SharedState>)
    requires seen != []
    ensures var v := Apply(before, Sent(seen));
            v.latest == LatestNow(seen)
            && (v.head == HeadNow(seen)
              <==> before.head == None || exists i :: 0 <= i < |seen| && HeadOf(seen[i].nodes).Some?)
  {
    RestartedProcess(before, seen);
  }

  ghost predicate EverLed(seen: seq<SharedState>) {
    exists i :: 0 <= i < |seen| && HeadOf(seen[i].nodes).Some?
  }

  lemma {:induction false} RestartedProcess(before: View, seen: seq<SharedState>)
    ensures Apply(before, Sent(seen)) == View(if EverLed(seen) then HeadNow(seen) else before.head,
                                            if seen == [] then before.latest else LatestNow(seen))
    ensures !EverLed(seen) ==> HeadNow(seen) == None
  {
    if seen != [] {
      var front, state := seen[..|seen| - 1], seen[|seen| - 1];
      RestartedProcess(before, front);
      var us := Sent(front) + [StateUpdate(state)];
      assert us[..|Sent(front)|] == Sent(front);
      ApplyConcat(before, us, Notice(HeadNow(front), HeadNow(seen)));
      EverLedNext(front, state);
      assert seen == front + [state];
      if EverLed(front) {
        NoticeTells(Apply(before, us), HeadNow(seen));
      } else {
        FirstNotice(Apply(before, us), HeadNow(seen));
      }
    }
  }

  lemma FirstNotice(v: View, head: Option<string>)
    ensures Apply(v, Notice(None, head)) == v.(head := if head.Some? then head else v.head)
  {
    NoticeTells(v.(head := None), head);
    if head.Some? {
      var us := Notice(None, head);
      assert us == [us[0]] && us[..0] == [];
    }
  }

  lemma EverLedNext(front: seq<SharedState>, state: SharedState)
    ensures EverLed(front + [state]) <==> EverLed(front) || HeadOf(state.nodes).Some?
  {
    var seen := front + [state];
    if EverLed(front) {
      var i :| 0 <= i < |front| && HeadOf(front[i].nodes).Some?;
      assert seen[i] == front[i];
    }
    if HeadOf(state.nodes).Some? {
      assert seen[|front|] == state;
    }
  }

  // A client that knew a head, and a new process that only ever sees states without one.
  lemma StaleHeadAfterRestart(head: string, payload: Id)
    ensures var seen := [SharedState([], payload)];
            Apply(View(Some(head), None), Sent(seen)).head == Some(head) && HeadNow(seen) == None
  {
    RestartedProcess(View(Some(head), None), [SharedState([], payload)]);
  }
}
