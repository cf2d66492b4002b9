/** Scheduling independence: if every processor and sink has one input, the messages on every channel are
    fixed by the source's events alone, whatever the interleaving and the channel capacity. */
module Determinism {
  import opened Wrappers
  import opened Messages
  import opened ReceiverLoop
  import opened Network
  import opened Protocol
  import opened Preservation
  import opened Quiescence

  ghost predicate SingleInput(net: Net) {
    Wired(net) && forall t :: 0 < t < |net.ins| ==> |net.ins[t]| == 1
  }

  // ---------------------------------------------------------------- the streams, without any scheduling

  function Pending(outs: seq<nat>, task: Task): seq<Send> {
    match task
    case Emit(sends) => sends
    case Broadcast(msg, next) => BroadcastFrom(outs, msg, next)
  }

  /** The messages a sequence of sends puts on channel e. */
  function Project(sends: seq<Send>, e: nat): seq<Message> {
    if sends == [] then []
    else if sends[0].edge == e then [sends[0].msg] + Project(sends[1..], e)
    else Project(sends[1..], e)
  }

  /** The callback that a message causes in a thread with one port. */
  function CallOf(m: Message): Callback {
    match m
    case Op(data, tag) => OnOp(0, data, tag)
    case Snapshotting(event, tag) => OnSnapshotting(0, event, tag)
    case Commit(epoch) => OnCommit(epoch)
    case Terminate => OnTerminate
  }

  datatype Trace = Trace(local: Local, sends: seq<Send>)

  function Handle(net: Net, t: nat, before: Trace, m: Message): Trace
    requires t < |net.outs|
  {
    var r := React(net, t, before.local, CallOf(m));
    Trace(r.0, before.sends + Pending(net.outs[t], r.1))
  }

  function Fold(f: (Trace, Message) -> Trace, start: Trace, h: seq<Message>, k: nat): Trace
    requires k <= |h|
  {
    if k == 0 then start else f(Fold(f, start, h, k - 1), h[k - 1])
  }

  /** The state of thread t and all it sends, as functions of the first k messages of its input. */
  function NodeRun(net: Net, t: nat, h: seq<Message>, k: nat): Trace
    requires t < |net.outs| && k <= |h|
  {
    Fold((before, m) => Handle(net, t, before, m), Trace(net.initial(t), []), h, k)
  }

  /** The source's epoch id after a sequence of events, and all it sends for them. */
  function SourceRun(net: Net, events: seq<Event>): (nat, seq<Send>)
    requires 0 < |net.outs|
  {
    if events == [] then (net.initialEpoch, [])
    else
      var n := |events| - 1;
      var before := SourceRun(net, events[..n]);
      (before.0 + if events[n].SourceCommit? then 1 else 0,
       before.1 + Pending(net.outs[0], EventTask(net, before.0, events[n])))
  }

  /** The whole stream of channel e. */
  ghost function Stream(net: Net, events: seq<Event>, e: nat): seq<Message>
    requires SingleInput(net) && e < |net.edges|
    decreases net.edges[e].src
  {
    var t := net.edges[e].src;
    if t == 0 then Project(SourceRun(net, events).1, e)
    else
      var input := Stream(net, events, net.ins[t][0]);
      Project(NodeRun(net, t, input, |input|).sends, e)
  }

  // ---------------------------------------------------------------- what every step keeps

  /** Everything thread t has decided to send so far. */
  ghost function Plan(net: Net, s: State, events: seq<Event>, t: nat): seq<Send>
    requires SingleInput(net) && Shape(net, s) && t < |s.threads|
  {
    if t == 0 then SourceRun(net, events).1
    else NodeRun(net, t, s.hist[net.ins[t][0]], s.recvd[net.ins[t][0]]).sends
  }

  ghost predicate EdgeFollows(net: Net, s: State, events: seq<Event>, e: nat)
    requires SingleInput(net) && Shape(net, s) && e < |s.hist|
  {
    var t := net.edges[e].src;
    s.hist[e] + Project(Pending(net.outs[t], s.threads[t].task), e) == Project(Plan(net, s, events, t), e)
  }

  ghost predicate ThreadFollows(net: Net, s: State, t: nat)
    requires SingleInput(net) && Shape(net, s) && 0 < t < |s.threads|
  {
    s.threads[t].local == NodeRun(net, t, s.hist[net.ins[t][0]], s.recvd[net.ins[t][0]]).local
  }

  ghost predicate Follows(net: Net, s: State, events: seq<Event>)
    requires SingleInput(net) && Shape(net, s)
  {
    && s.threads[0].loop.epoch == SourceRun(net, events).0
    && (forall e :: 0 <= e < |s.hist| ==> EdgeFollows(net, s, events, e))
    && (forall t :: 0 < t < |s.threads| ==> ThreadFollows(net, s, t))
  }

  lemma {:induction false} ProjectConcat(a: seq<Send>, b: seq<Send>, e: nat)
    ensures Project(a + b, e) == Project(a, e) + Project(b, e)
  {
    if a == [] {
      assert a + b == b;
    } else {
      assert (a + b)[1..] == a[1..] + b;
      ProjectConcat(a[1..], b, e);
    }
  }

  lemma {:induction false} FoldPrefix(f: (Trace, Message) -> Trace, start: Trace, h: seq<Message>, g: seq<Message>,
                                      k: nat)
    requires k <= |h| && h <= g
    ensures Fold(f, start, g, k) == Fold(f, start, h, k)
  {
    if k > 0 {
      FoldPrefix(f, start, h, g, k - 1);
    }
  }

  lemma NodeRunPrefix(net: Net, t: nat, h: seq<Message>, g: seq<Message>, k: nat)
    requires t < |net.outs| && k <= |h| && h <= g
    ensures NodeRun(net, t, g, k) == NodeRun(net, t, h, k)
  {
    FoldPrefix((before, m) => Handle(net, t, before, m), Trace(net.initial(t), []), h, g, k);
  }

  lemma NodeRunStep(net: Net, t: nat, h: seq<Message>, k: nat)
    requires t < |net.outs| && k < |h|
    ensures NodeRun(net, t, h, k + 1) == Handle(net, t, NodeRun(net, t, h, k), h[k])
  {
  }

  lemma PendingAdvance(outs: seq<nat>, task: Task)
    requires !Idle(outs, task)
    ensures Pending(outs, task) == [NextSend(outs, task)] + Pending(outs, Advance(outs, task))
  {
  }

  lemma IdlePending(outs: seq<nat>, task: Task)
    requires Idle(outs, task)
    ensures Pending(outs, task) == []
  {
  }

  lemma SendKeepsPlan(net: Net, s: State, events: seq<Event>, t: nat, u: nat)
    requires SingleInput(net) && CanSend(net, s, t) && u < |s.threads|
    ensures Shape(net, SendStep(net, s, t))
    ensures Plan(net, SendStep(net, s, t), events, u) == Plan(net, s, events, u)
    ensures 0 < u && ThreadFollows(net, s, u) ==> ThreadFollows(net, SendStep(net, s, t), u)
  {
    SendKeepsShape(net, s, t);
    if 0 < u {
      var e := net.ins[u][0];
      NodeRunPrefix(net, u, s.hist[e], SendStep(net, s, t).hist[e], s.recvd[e]);
    }
  }

  /** Sending the next message moves it from what is pending to the history. */
  lemma SendMoves(h: seq<Message>, outs: seq<nat>, task: Task, plan: seq<Message>, e: nat)
    requires !Idle(outs, task) && h + Project(Pending(outs, task), e) == plan
    ensures var send := NextSend(outs, task);
            (if send.edge == e then h + [send.msg] else h) + Project(Pending(outs, Advance(outs, task)), e) == plan
  {
    PendingAdvance(outs, task);
    var send, rest := NextSend(outs, task), Pending(outs, Advance(outs, task));
    ProjectConcat([send], rest, e);
    assert Project([send], e) == if send.edge == e then [send.msg] else [];
  }

  lemma SendKeepsEdge(net: Net, s: State, events: seq<Event>, t: nat, e: nat)
    requires SingleInput(net) && CanSend(net, s, t) && e < |s.hist| && EdgeFollows(net, s, events, e)
    ensures Shape(net, SendStep(net, s, t)) && EdgeFollows(net, SendStep(net, s, t), events, e)
  {
    var u := net.edges[e].src;
    SendKeepsPlan(net, s, events, t, u);
    SendKeepsSum(net, s, t, e, Project(Plan(net, s, events, u), e));
  }

  lemma SendKeepsSum(net: Net, s: State, t: nat, e: nat, plan: seq<Message>)
    requires CanSend(net, s, t) && e < |s.hist|
    requires var u := net.edges[e].src; s.hist[e] + Project(Pending(net.outs[u], s.threads[u].task), e) == plan
    ensures var u, s' := net.edges[e].src, SendStep(net, s, t);
            s'.hist[e] + Project(Pending(net.outs[u], s'.threads[u].task), e) == plan
  {
    var j := SendTarget(net, s, t);
    if net.edges[e].src == t {
      SendMoves(s.hist[e], net.outs[t], s.threads[t].task, plan, e);
    }
  }

  lemma ReceiveCalls(net: Net, s: State, t: nat)
    requires SingleInput(net) && Receives(net, s, t, 0)
    ensures var th, m := s.threads[t], Incoming(net, s, t, 0);
            var r := React(net, t, th.local, CallOf(m));
            var s' := ReceiveStep(net, s, t, 0);
            && s'.threads[t].local == r.0 && s'.threads[t].task == r.1
            && s'.hist == s.hist
            && s'.recvd == s.recvd[net.ins[t][0] := s.recvd[net.ins[t][0]] + 1]
            && forall u :: 0 <= u < |s.threads| && u != t ==> s'.threads[u] == s.threads[u]
  {
    ReceiveNeverPanics(net, s, t, 0);
    assert ReceiverOk(net, s, t);
  }

  lemma ReceiveKeepsThread(net: Net, s: State, t: nat, u: nat)
    requires SingleInput(net) && Receives(net, s, t, 0) && 0 < u < |s.threads| && ThreadFollows(net, s, u)
    ensures Shape(net, ReceiveStep(net, s, t, 0)) && ThreadFollows(net, ReceiveStep(net, s, t, 0), u)
  {
    ReceiveKeepsShape(net, s, t, 0);
    ReceiveCalls(net, s, t);
    if u == t {
      NextState(net, t, s.hist[net.ins[t][0]], s.recvd[net.ins[t][0]]);
    } else {
      assert net.ins[u][0] != net.ins[t][0];
    }
  }

  lemma NextState(net: Net, t: nat, h: seq<Message>, k: nat)
    requires t < |net.outs| && k < |h|
    ensures NodeRun(net, t, h, k + 1).local == React(net, t, NodeRun(net, t, h, k).local, CallOf(h[k])).0
  {
    NodeRunStep(net, t, h, k);
  }

  /** An idle thread has sent its whole plan; whatever it decides next extends the plan. */
  lemma ExtendPlan(h: seq<Message>, plan: seq<Send>, outs: seq<nat>, task: Task, next: seq<Send>, e: nat)
    requires Idle(outs, task) && h + Project(Pending(outs, task), e) == Project(plan, e)
    ensures h + Project(next, e) == Project(plan + next, e)
  {
    IdlePending(outs, task);
    ProjectConcat(plan, next, e);
  }

  lemma ReceivePlan(net: Net, s: State, events: seq<Event>, t: nat, u: nat)
    requires SingleInput(net) && Receives(net, s, t, 0) && ThreadFollows(net, s, t) && u < |s.threads|
    ensures var s' := ReceiveStep(net, s, t, 0);
            && Shape(net, s')
            && Plan(net, s', events, u)
               == if u == t then Plan(net, s, events, t) + Pending(net.outs[t], s'.threads[t].task)
                  else Plan(net, s, events, u)
  {
    ReceiveKeepsShape(net, s, t, 0);
    if u == t {
      ReceiveOwnPlan(net, s, events, t);
    } else if 0 < u {
      ReceiveCalls(net, s, t);
      SamePlan(net, s, ReceiveStep(net, s, t, 0), events, u);
    }
  }

  lemma ReceiveOwnPlan(net: Net, s: State, events: seq<Event>, t: nat)
    requires SingleInput(net) && Receives(net, s, t, 0) && ThreadFollows(net, s, t)
    ensures var s' := ReceiveStep(net, s, t, 0);
            && Shape(net, s')
            && Plan(net, s', events, t) == Plan(net, s, events, t) + Pending(net.outs[t], s'.threads[t].task)
  {
    var e, s' := net.ins[t][0], ReceiveStep(net, s, t, 0);
    assert Shape(net, s') by {
      ReceiveKeepsShape(net, s, t, 0);
    }
    assert s'.hist == s.hist && s'.recvd == s.recvd[e := s.recvd[e] + 1]
        && NodeRun(net, t, s.hist[e], s.recvd[e] + 1).sends
           == NodeRun(net, t, s.hist[e], s.recvd[e]).sends + Pending(net.outs[t], s'.threads[t].task) by {
      ReceiveCalls(net, s, t);
      NextPlan(net, t, s.hist[e], s.recvd[e], s.threads[t].local, s'.threads[t].task);
    }
  }

  lemma NextPlan(net: Net, t: nat, h: seq<Message>, k: nat, local: Local, task: Task)
    requires t < |net.outs| && k < |h| && local == NodeRun(net, t, h, k).local
    requires task == React(net, t, local, CallOf(h[k])).1
    ensures NodeRun(net, t, h, k + 1).sends == NodeRun(net, t, h, k).sends + Pending(net.outs[t], task)
  {
    NextHandled(net, t, h, k);
  }

  lemma SamePlan(net: Net, s: State, s': State, events: seq<Event>, u: nat)
    requires SingleInput(net) && Shape(net, s) && Shape(net, s') && 0 < u < |s.threads|
    requires var e := net.ins[u][0]; s'.hist[e] == s.hist[e] && s'.recvd[e] == s.recvd[e]
    ensures Plan(net, s', events, u) == Plan(net, s, events, u)
  {
  }

  lemma NextHandled(net: Net, t: nat, h: seq<Message>, k: nat)
    requires t < |net.outs| && k < |h|
    ensures var before := NodeRun(net, t, h, k);
            NodeRun(net, t, h, k + 1).sends
            == before.sends + Pending(net.outs[t], React(net, t, before.local, CallOf(h[k])).1)
  {
    NodeRunStep(net, t, h, k);
  }

  lemma ReceiveKeepsEdge(net: Net, s: State, events: seq<Event>, t: nat, e: nat)
    requires SingleInput(net) && Receives(net, s, t, 0) && e < |s.hist| && EdgeFollows(net, s, events, e)
    requires ThreadFollows(net, s, t)
    ensures Shape(net, ReceiveStep(net, s, t, 0)) && EdgeFollows(net, ReceiveStep(net, s, t, 0), events, e)
  {
    var u, s' := net.edges[e].src, ReceiveStep(net, s, t, 0);
    ReceivePlan(net, s, events, t, u);
    assert s'.hist == s.hist && (u != t ==> s'.threads[u] == s.threads[u]) by {
      ReceiveCalls(net, s, t);
    }
    if u == t {
      var task, outs := s.threads[t].task, net.outs[t];
      ExtendPlan(s.hist[e], Plan(net, s, events, t), outs, task, Pending(outs, s'.threads[t].task), e);
    }
  }

  lemma EventPlan(net: Net, events: seq<Event>, ev: Event)
    requires 0 < |net.outs|
    ensures SourceRun(net, events + [ev]).1
            == SourceRun(net, events).1 + Pending(net.outs[0], EventTask(net, SourceRun(net, events).0, ev))
    ensures SourceRun(net, events + [ev]).0 == SourceRun(net, events).0 + if ev.SourceCommit? then 1 else 0
  {
    assert (events + [ev])[..|events|] == events;
  }

  lemma EventKeepsEdge(net: Net, s: State, events: seq<Event>, ev: Event, e: nat)
    requires SingleInput(net) && CanHandle(net, s, ev) && Follows(net, s, events) && e < |s.hist|
    ensures Shape(net, EventStep(net, s, ev)) && EdgeFollows(net, EventStep(net, s, ev), events + [ev], e)
  {
    assert EdgeFollows(net, s, events, e);
    EventPlan(net, events, ev);
    if net.edges[e].src == 0 {
      ExtendPlan(s.hist[e], SourceRun(net, events).1, net.outs[0], s.threads[0].task,
                 Pending(net.outs[0], EventTask(net, SourceRun(net, events).0, ev)), e);
    }
  }

  lemma EventKeepsThread(net: Net, s: State, ev: Event, t: nat)
    requires SingleInput(net) && CanHandle(net, s, ev) && 0 < t < |s.threads| && ThreadFollows(net, s, t)
    ensures Shape(net, EventStep(net, s, ev)) && ThreadFollows(net, EventStep(net, s, ev), t)
  {
    assert EventStep(net, s, ev).threads[t] == s.threads[t];
  }

  lemma EventKeepsEpoch(net: Net, s: State, events: seq<Event>, ev: Event)
    requires SingleInput(net) && CanHandle(net, s, ev) && s.threads[0].loop.epoch == SourceRun(net, events).0
    ensures EventStep(net, s, ev).threads[0].loop.epoch == SourceRun(net, events + [ev]).0
  {
    EventPlan(net, events, ev);
  }

  lemma EventKeepsEdges(net: Net, s: State, events: seq<Event>, ev: Event)
    requires SingleInput(net) && CanHandle(net, s, ev) && Follows(net, s, events)
    ensures var s' := EventStep(net, s, ev);
            Shape(net, s') && forall e :: 0 <= e < |s'.hist| ==> EdgeFollows(net, s', events + [ev], e)
  {
    var s' := EventStep(net, s, ev);
    assert Shape(net, s') by {
      EventKeepsInv(net, s, ev);
    }
    forall e | 0 <= e < |s'.hist|
      ensures EdgeFollows(net, s', events + [ev], e)
    {
      EventKeepsEdge(net, s, events, ev, e);
    }
  }

  lemma EventKeepsThreads(net: Net, s: State, events: seq<Event>, ev: Event)
    requires SingleInput(net) && CanHandle(net, s, ev) && Follows(net, s, events)
    ensures var s' := EventStep(net, s, ev);
            Shape(net, s') && forall t :: 0 < t < |s'.threads| ==> ThreadFollows(net, s', t)
  {
    var s' := EventStep(net, s, ev);
    assert Shape(net, s') by {
      EventKeepsInv(net, s, ev);
    }
    forall t | 0 < t < |s'.threads|
      ensures ThreadFollows(net, s', t)
    {
      EventKeepsThread(net, s, ev, t);
    }
  }

  lemma EventKeepsFollows(net: Net, s: State, events: seq<Event>, ev: Event)
    requires SingleInput(net) && CanHandle(net, s, ev) && Follows(net, s, events)
    ensures Shape(net, EventStep(net, s, ev)) && Follows(net, EventStep(net, s, ev), events + [ev])
  {
    EventKeepsEpoch(net, s, events, ev);
    EventKeepsEdges(net, s, events, ev);
    EventKeepsThreads(net, s, events, ev);
  }

  lemma SendKeepsFollows(net: Net, s: State, events: seq<Event>, t: nat)
    requires SingleInput(net) && CanSend(net, s, t) && Follows(net, s, events)
    ensures Shape(net, SendStep(net, s, t)) && Follows(net, SendStep(net, s, t), events)
  {
    var s' := SendStep(net, s, t);
    SendKeepsShape(net, s, t);
    forall e | 0 <= e < |s'.hist|
      ensures EdgeFollows(net, s', events, e)
    {
      SendKeepsEdge(net, s, events, t, e);
    }
    forall u | 0 < u < |s'.threads|
      ensures ThreadFollows(net, s', u)
    {
      SendKeepsPlan(net, s, events, t, u);
    }
  }

  lemma ReceiveKeepsFollows(net: Net, s: State, events: seq<Event>, t: nat, i: nat)
    requires SingleInput(net) && Receives(net, s, t, i) && Follows(net, s, events)
    ensures Shape(net, ReceiveStep(net, s, t, i)) && Follows(net, ReceiveStep(net, s, t, i), events)
  {
    var s' := ReceiveStep(net, s, t, i);
    ReceiveKeepsShape(net, s, t, i);
    assert ThreadFollows(net, s, t);
    ReceiveCalls(net, s, t);
    forall e | 0 <= e < |s'.hist|
      ensures EdgeFollows(net, s', events, e)
    {
      ReceiveKeepsEdge(net, s, events, t, e);
    }
    forall u | 0 < u < |s'.threads|
      ensures ThreadFollows(net, s', u)
    {
      ReceiveKeepsThread(net, s, t, u);
    }
  }

  function AddEvent(events: seq<Event>, a: Action): seq<Event> {
    if a.DoEvent? then events + [a.event] else events
  }

  /** The source events of a run, in order. */
  function Events(acts: seq<Action>): seq<Event> {
    if acts == [] then [] else AddEvent(Events(acts[..|acts| - 1]), acts[|acts| - 1])
  }

  /** An operation for a port without channels adds nothing to what the source sends. */
  lemma MisroutedPlan(net: Net, events: seq<Event>, ev: Event)
    requires 0 < |net.outs| && ev.SourceOp? && !HasPort(net, 0, ev.port)
    ensures SourceRun(net, events + [ev]) == SourceRun(net, events)
  {
    EventPlan(net, events, ev);
    var before := SourceRun(net, events);
    RouteNothing(net, net.outs[0], ev.port, Op(ev.data, before.0));
    assert Pending(net.outs[0], EventTask(net, before.0, ev)) == [];
    assert SourceRun(net, events + [ev]).1 == before.1;
  }

  lemma MisroutedKeepsFollows(net: Net, s: State, events: seq<Event>, a: Action)
    requires SingleInput(net) && Inv(net, s) && Follows(net, s, events) && Enabled(net, s, a) && Misrouted(net, s, a)
    ensures Shape(net, Apply(net, s, a)) && Follows(net, Apply(net, s, a), AddEvent(events, a))
  {
    StepKeepsInv(net, s, a);
    var s', events' := Apply(net, s, a), AddEvent(events, a);
    if a.DoEvent? {
      MisroutedPlan(net, events, a.event);
    }
    forall e | 0 <= e < |s'.hist|
      ensures EdgeFollows(net, s', events', e)
    {
      assert EdgeFollows(net, s, events, e);
    }
    forall t | 0 < t < |s'.threads|
      ensures ThreadFollows(net, s', t)
    {
      assert ThreadFollows(net, s, t);
    }
  }

  lemma StepKeepsFollows(net: Net, s: State, events: seq<Event>, a: Action)
    requires SingleInput(net) && Inv(net, s) && Follows(net, s, events) && Enabled(net, s, a)
    ensures Shape(net, Apply(net, s, a)) && Follows(net, Apply(net, s, a), AddEvent(events, a))
  {
    if Misrouted(net, s, a) {
      MisroutedKeepsFollows(net, s, events, a);
    } else {
      match a
      case DoSend(t) => SendKeepsFollows(net, s, events, t);
      case DoReceive(t, i) => ReceiveKeepsFollows(net, s, events, t, i);
      case DoPoll(t) => SelectNeverEmpty(net, s, t);
      case DoEvent(ev) => EventKeepsFollows(net, s, events, ev);
    }
  }

  lemma InitFollows(net: Net, capacity: nat)
    requires SingleInput(net) && 0 < capacity
    ensures Shape(net, Init(net, capacity)) && Follows(net, Init(net, capacity), [])
  {
    InitOk(net, capacity);
    var s := Init(net, capacity);
    InitThread(net, capacity, 0);
    forall e | 0 <= e < |s.hist|
      ensures EdgeFollows(net, s, [], e)
    {
      InitEdge(net, capacity, e);
    }
    forall t | 0 < t < |s.threads|
      ensures ThreadFollows(net, s, t)
    {
      InitThread(net, capacity, t);
      NodeRunStart(net, t, s.hist[net.ins[t][0]]);
    }
  }

  lemma NodeRunStart(net: Net, t: nat, h: seq<Message>)
    requires t < |net.outs|
    ensures NodeRun(net, t, h, 0) == Trace(net.initial(t), [])
  {
  }

  lemma InitEdge(net: Net, capacity: nat, e: nat)
    requires SingleInput(net) && Shape(net, Init(net, capacity)) && e < |net.edges|
    ensures EdgeFollows(net, Init(net, capacity), [], e)
  {
    var s, t := Init(net, capacity), net.edges[e].src;
    InitThread(net, capacity, t);
    assert s.hist[e] == [];
    if 0 < t {
      NodeRunStart(net, t, s.hist[net.ins[t][0]]);
    }
    assert Plan(net, s, [], t) == [];
  }

  lemma {:induction false} ReachableFollows(net: Net, capacity: nat, acts: seq<Action>)
    requires SingleInput(net) && 0 < capacity && Exec(net, capacity, acts).Some?
    ensures Inv(net, Unmarked(Exec(net, capacity, acts).value))
    ensures Follows(net, Exec(net, capacity, acts).value, Events(acts))
  {
    ReachableInv(net, capacity, acts);
    if acts == [] {
      InitOk(net, capacity);
      InitFollows(net, capacity);
    } else {
      var n := |acts| - 1;
      ReachableFollows(net, capacity, acts[..n]);
      StepKeepsFollows(net, Exec(net, capacity, acts[..n]).value, Events(acts[..n]), acts[n]);
    }
  }

  // ---------------------------------------------------------------- every history is a prefix of its stream

  lemma HandleExtends(net: Net, t: nat, before: Trace, m: Message, e: nat)
    requires t < |net.outs|
    ensures Project(before.sends, e) <= Project(Handle(net, t, before, m).sends, e)
  {
    ProjectConcat(before.sends, Pending(net.outs[t], React(net, t, before.local, CallOf(m)).1), e);
  }

  lemma {:induction false} FoldGrows(f: (Trace, Message) -> Trace, start: Trace, h: seq<Message>, j: nat, k: nat,
                                     e: nat)
    requires j <= k <= |h|
    requires forall before: Trace, m :: Project(before.sends, e) <= Project(f(before, m).sends, e)
    ensures Project(Fold(f, start, h, j).sends, e) <= Project(Fold(f, start, h, k).sends, e)
  {
    if j < k {
      FoldGrows(f, start, h, j, k - 1, e);
    }
  }

  lemma NodeRunGrows(net: Net, t: nat, h: seq<Message>, j: nat, k: nat, e: nat)
    requires t < |net.outs| && j <= k <= |h|
    ensures Project(NodeRun(net, t, h, j).sends, e) <= Project(NodeRun(net, t, h, k).sends, e)
  {
    var f := (before: Trace, m: Message) => Handle(net, t, before, m);
    forall before: Trace, m
      ensures Project(before.sends, e) <= Project(f(before, m).sends, e)
    {
      HandleExtends(net, t, before, m, e);
    }
    FoldGrows(f, Trace(net.initial(t), []), h, j, k, e);
  }

  lemma {:induction false} HistoryIsPrefix(net: Net, s: State, events: seq<Event>, e: nat)
    requires SingleInput(net) && Inv(net, Unmarked(s)) && Follows(net, s, events) && e < |s.hist|
    ensures s.hist[e] <= Stream(net, events, e)
    decreases net.edges[e].src
  {
    var t := net.edges[e].src;
    assert EdgeFollows(net, s, events, e);
    if 0 < t {
      var f := net.ins[t][0];
      HistoryIsPrefix(net, s, events, f);
      var g := Stream(net, events, f);
      NodeRunPrefix(net, t, s.hist[f], g, s.recvd[f]);
      NodeRunGrows(net, t, g, s.recvd[f], |g|, e);
    }
  }

  lemma IdleSentPlan(net: Net, s: State, events: seq<Event>, e: nat)
    requires SingleInput(net) && Shape(net, s) && e < |s.hist| && EdgeFollows(net, s, events, e)
    requires IdleThread(net, s, net.edges[e].src)
    ensures s.hist[e] == Project(Plan(net, s, events, net.edges[e].src), e)
  {
    IdlePending(net.outs[net.edges[e].src], s.threads[net.edges[e].src].task);
  }

  lemma {:induction false} StuckIsStream(net: Net, s: State, events: seq<Event>, e: nat)
    requires SingleInput(net) && Stuck(net, s) && Follows(net, s, events) && e < |s.hist|
    ensures s.hist[e] == Stream(net, events, e)
    decreases net.edges[e].src
  {
    var t := net.edges[e].src;
    NobodyBlocked(net, s, t);
    IdleSentPlan(net, s, events, e);
    if 0 < t {
      var f := net.ins[t][0];
      NothingQueued(net, s, f);
      StuckIsStream(net, s, events, f);
    }
  }

  /** At all times each channel's history is a prefix of a stream computed from the events alone. */
  lemma SchedulingIndependence(net: Net, capacity: nat, acts: seq<Action>, e: nat)
    requires SingleInput(net) && 0 < capacity && Exec(net, capacity, acts).Some? && e < |net.edges|
    ensures var s := Exec(net, capacity, acts).value;
            && Shape(net, s)
            && s.hist[e] <= Stream(net, Events(acts), e)
            && (!s.crashed && Quiescent(net, s) ==> s.hist[e] == Stream(net, Events(acts), e))
  {
    ReachableFollows(net, capacity, acts);
    var s := Exec(net, capacity, acts).value;
    HistoryIsPrefix(net, s, Events(acts), e);
    if !s.crashed && Quiescent(net, s) {
      StuckIsStream(net, s, Events(acts), e);
    }
  }

  /** Two runs on the same events that have come to rest agree on every channel and every node's state,
      even if their channels have different capacities. */
  lemma SameOutcome(net: Net, capacity: nat, acts: seq<Action>, capacity': nat, acts': seq<Action>, t: nat)
    requires SingleInput(net) && 0 < t < |net.ins| && 0 < capacity && 0 < capacity'
    requires Exec(net, capacity, acts).Some? && Exec(net, capacity', acts').Some? && Events(acts) == Events(acts')
    requires var s, s' := Exec(net, capacity, acts).value, Exec(net, capacity', acts').value;
             && Shape(net, s) && Quiescent(net, s) && !s.crashed
             && Shape(net, s') && Quiescent(net, s') && !s'.crashed
    ensures var s, s' := Exec(net, capacity, acts).value, Exec(net, capacity', acts').value;
            s.hist == s'.hist && s.threads[t].local == s'.threads[t].local
  {
    var s, s' := Exec(net, capacity, acts).value, Exec(net, capacity', acts').value;
    ReachableFollows(net, capacity, acts);
    ReachableFollows(net, capacity', acts');
    forall e | 0 <= e < |net.edges|
      ensures s.hist[e] == s'.hist[e] && s.recvd[e] == |s.hist[e]| && s'.recvd[e] == |s'.hist[e]|
    {
      SchedulingIndependence(net, capacity, acts, e);
      SchedulingIndependence(net, capacity', acts', e);
      NothingQueued(net, s, e);
      NothingQueued(net, s', e);
    }
    assert ThreadFollows(net, s, t) && ThreadFollows(net, s', t);
  }
}
