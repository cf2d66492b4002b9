/** What travels on every channel, for any number of inputs: what the node's processor answered to the node's callbacks,
    or what the sources handed to the source thread, message by message and in order. */
module Delivery {
  import opened Wrappers
  import opened Messages
  import opened ReceiverLoop
  import opened Network
  import opened Protocol
  import opened Preservation
  import opened Quiescence
  import opened ConsistentCut
  import opened Determinism

  // ---------------------------------------------------------------- what a node owes its channels

  /** The node's state after a callback. */
  function StateAfter(net: Net, t: nat, local: Local, c: Callback): Local {
    match c
    case OnOp(port, data, _) => net.process(t, local, port, data).0
    case OnSnapshotting(_, event, _) => net.snapshot(t, local, event)
    case OnCommit(epoch) => net.commit(t, local, epoch)
    case OnTerminate => local
  }

  /** The node's state after the first k callbacks. */
  function StateAt(net: Net, t: nat, log: seq<Callback>, k: nat): Local
    requires k <= |log|
  {
    if k == 0 then net.initial(t) else StateAfter(net, t, StateAt(net, t, log, k - 1), log[k - 1])
  }

  /** The outputs for a port, as operations of an epoch. */
  function OutputsFor(outputs: seq<Output>, port: nat, tag: nat): seq<Message> {
    if outputs == [] then []
    else if outputs[0].port == port then [Op(outputs[0].data, tag)] + OutputsFor(outputs[1..], port, tag)
    else OutputsFor(outputs[1..], port, tag)
  }

  /** What a callback puts on each channel of an output port. */
  function Answer(net: Net, t: nat, local: Local, c: Callback, port: nat): seq<Message> {
    match c
    case OnOp(input, data, tag) => OutputsFor(net.process(t, local, input, data).1, port, tag)
    case OnSnapshotting(_, event, tag) => [Snapshotting(event, tag)]
    case OnCommit(epoch) => [Commit(epoch)]
    case OnTerminate => [Terminate]
  }

  /** What the first k callbacks put there. */
  function Answers(net: Net, t: nat, log: seq<Callback>, k: nat, port: nat): seq<Message>
    requires k <= |log|
  {
    if k == 0 then []
    else Answers(net, t, log, k - 1, port) + Answer(net, t, StateAt(net, t, log, k - 1), log[k - 1], port)
  }

  // ---------------------------------------------------------------- what the source thread owes its channels

  /** The epoch id after the first k events. */
  function EpochAt(initial: nat, events: seq<Event>, k: nat): nat
    requires k <= |events|
  {
    if k == 0 then initial else EpochAt(initial, events, k - 1) + if events[k - 1].SourceCommit? then 1 else 0
  }

  function Copies(ports: seq<nat>, port: nat, m: Message): seq<Message> {
    if ports == [] then []
    else if ports[0] == port then [m] + Copies(ports[1..], port, m)
    else Copies(ports[1..], port, m)
  }

  /** What an event puts on each channel of a port. */
  function EventMessages(epoch: nat, ev: Event, port: nat): seq<Message> {
    match ev
    case SourceOp(p, data) => if p == port then [Op(data, epoch)] else []
    case SourceSnapshotting(ports, event) => Copies(ports, port, Snapshotting(event, epoch))
    case SourceCommit(info) => [Commit(Epoch(epoch, info))]
    case Shutdown => [Terminate]
  }

  /** What the first k events put there. */
  function FromEvents(initial: nat, events: seq<Event>, k: nat, port: nat): seq<Message>
    requires k <= |events|
  {
    if k == 0 then []
    else FromEvents(initial, events, k - 1, port)
         + EventMessages(EpochAt(initial, events, k - 1), events[k - 1], port)
  }

  // ---------------------------------------------------------------- the sends of a step, channel by channel

  lemma {:induction false} ProjectRoute(net: Net, outs: seq<nat>, port: nat, m: Message, e: nat)
    requires NoDuplicates(outs) && e < |net.edges| && forall k :: 0 <= k < |outs| ==> outs[k] < |net.edges|
    ensures Project(Route(net, outs, port, m), e) == if e in outs && net.edges[e].outPort == port then [m] else []
  {
    if outs != [] {
      ProjectRoute(net, outs[1..], port, m, e);
      if net.edges[outs[0]].outPort == port {
        ProjectConcat([Send(outs[0], m)], Route(net, outs[1..], port, m), e);
        assert Project([Send(outs[0], m)], e) == if outs[0] == e then [m] else [];
      } else {
        assert Route(net, outs, port, m) == [] + Route(net, outs[1..], port, m) == Route(net, outs[1..], port, m);
      }
    }
  }

  lemma {:induction false} ProjectRouteAll(net: Net, outs: seq<nat>, outputs: seq<Output>, tag: nat, e: nat)
    requires NoDuplicates(outs) && e in outs && forall k :: 0 <= k < |outs| ==> outs[k] < |net.edges|
    ensures Project(RouteAll(net, outs, outputs, tag), e) == OutputsFor(outputs, net.edges[e].outPort, tag)
  {
    if outputs != [] {
      var m := Op(outputs[0].data, tag);
      ProjectRoute(net, outs, outputs[0].port, m, e);
      ProjectRouteAll(net, outs, outputs[1..], tag, e);
      ProjectConcat(Route(net, outs, outputs[0].port, m), RouteAll(net, outs, outputs[1..], tag), e);
    }
  }

  lemma {:induction false} ProjectRoutePorts(net: Net, outs: seq<nat>, ports: seq<nat>, m: Message, e: nat)
    requires NoDuplicates(outs) && e in outs && forall k :: 0 <= k < |outs| ==> outs[k] < |net.edges|
    ensures Project(RoutePorts(net, outs, ports, m), e) == Copies(ports, net.edges[e].outPort, m)
  {
    if ports != [] {
      ProjectRoute(net, outs, ports[0], m, e);
      ProjectRoutePorts(net, outs, ports[1..], m, e);
      ProjectConcat(Route(net, outs, ports[0], m), RoutePorts(net, outs, ports[1..], m), e);
    }
  }

  lemma {:induction false} ProjectBroadcast(outs: seq<nat>, m: Message, next: nat, e: nat)
    requires NoDuplicates(outs) && next <= |outs|
    ensures Project(BroadcastFrom(outs, m, next), e) == if e in outs[next..] then [m] else []
    decreases |outs| - next
  {
    if next < |outs| {
      ProjectBroadcast(outs, m, next + 1, e);
      assert outs[next..] == [outs[next]] + outs[next + 1..];
      ProjectConcat([Send(outs[next], m)], BroadcastFrom(outs, m, next + 1), e);
      assert Project([Send(outs[next], m)], e) == if outs[next] == e then [m] else [];
    }
  }

  /** A node's reaction to a callback is its answer, on every channel. */
  lemma ReactAnswers(net: Net, t: nat, local: Local, c: Callback, e: nat)
    requires Wired(net) && t < |net.outs| && e in net.outs[t]
    ensures Project(Pending(net.outs[t], React(net, t, local, c).1), e)
            == Answer(net, t, local, c, net.edges[e].outPort)
    ensures React(net, t, local, c).0 == StateAfter(net, t, local, c)
  {
    var outs := net.outs[t];
    assert outs[0..] == outs;
    match c
    case OnOp(port, data, tag) => ProjectRouteAll(net, outs, net.process(t, local, port, data).1, tag, e);
    case OnSnapshotting(_, event, tag) => ProjectBroadcast(outs, Snapshotting(event, tag), 0, e);
    case OnCommit(epoch) => ProjectBroadcast(outs, Commit(epoch), 0, e);
    case OnTerminate => ProjectBroadcast(outs, Terminate, 0, e);
  }

  lemma EventAnswers(net: Net, epoch: nat, ev: Event, e: nat)
    requires Wired(net) && e in net.outs[0]
    ensures Project(Pending(net.outs[0], EventTask(net, epoch, ev)), e)
            == EventMessages(epoch, ev, net.edges[e].outPort)
  {
    var outs := net.outs[0];
    assert outs[0..] == outs;
    match ev
    case SourceOp(port, data) => ProjectRoute(net, outs, port, Op(data, epoch), e);
    case SourceSnapshotting(ports, event) => ProjectRoutePorts(net, outs, ports, Snapshotting(event, epoch), e);
    case SourceCommit(info) => ProjectBroadcast(outs, Commit(Epoch(epoch, info)), 0, e);
    case Shutdown => ProjectBroadcast(outs, Terminate, 0, e);
  }

  // ---------------------------------------------------------------- what every step keeps

  /** What channel e should carry, counting what its sender has still to send. */
  ghost function Owed(net: Net, s: State, events: seq<Event>, e: nat): seq<Message>
    requires Wired(net) && Shape(net, s) && e < |s.hist|
  {
    var t, port := net.edges[e].src, net.edges[e].outPort;
    if t == 0 then FromEvents(net.initialEpoch, events, |events|, port)
    else Answers(net, t, s.threads[t].log, |s.threads[t].log|, port)
  }

  ghost predicate EdgeSays(net: Net, s: State, events: seq<Event>, e: nat)
    requires Wired(net) && Shape(net, s) && e < |s.hist|
  {
    var t := net.edges[e].src;
    s.hist[e] + Project(Pending(net.outs[t], s.threads[t].task), e) == Owed(net, s, events, e)
  }

  ghost predicate StateSays(net: Net, th: Thread, t: nat) {
    th.local == StateAt(net, t, th.log, |th.log|)
  }

  ghost predicate Delivered(net: Net, s: State, events: seq<Event>)
    requires Wired(net) && Shape(net, s)
  {
    && s.threads[0].loop.epoch == EpochAt(net.initialEpoch, events, |events|)
    && (forall e :: 0 <= e < |s.hist| ==> EdgeSays(net, s, events, e))
    && (forall t :: 0 < t < |s.threads| ==> StateSays(net, s.threads[t], t))
  }

  lemma {:induction false} LogPrefix(net: Net, t: nat, log: seq<Callback>, c: Callback, k: nat, port: nat)
    requires k <= |log|
    ensures StateAt(net, t, log + [c], k) == StateAt(net, t, log, k)
    ensures Answers(net, t, log + [c], k, port) == Answers(net, t, log, k, port)
  {
    if 0 < k {
      LogPrefix(net, t, log, c, k - 1, port);
    }
  }

  lemma {:induction false} EventsPrefix(initial: nat, events: seq<Event>, ev: Event, k: nat, port: nat)
    requires k <= |events|
    ensures EpochAt(initial, events + [ev], k) == EpochAt(initial, events, k)
    ensures FromEvents(initial, events + [ev], k, port) == FromEvents(initial, events, k, port)
  {
    if 0 < k {
      EventsPrefix(initial, events, ev, k - 1, port);
    }
  }

  lemma NextCall(net: Net, t: nat, log: seq<Callback>, c: Callback, port: nat)
    ensures StateAt(net, t, log + [c], |log| + 1) == StateAfter(net, t, StateAt(net, t, log, |log|), c)
    ensures Answers(net, t, log + [c], |log| + 1, port)
            == Answers(net, t, log, |log|, port) + Answer(net, t, StateAt(net, t, log, |log|), c, port)
  {
    LogPrefix(net, t, log, c, |log|, port);
  }

  lemma NextEvent(initial: nat, events: seq<Event>, ev: Event, port: nat)
    ensures EpochAt(initial, events + [ev], |events| + 1)
            == EpochAt(initial, events, |events|) + if ev.SourceCommit? then 1 else 0
    ensures FromEvents(initial, events + [ev], |events| + 1, port)
            == FromEvents(initial, events, |events|, port) + EventMessages(EpochAt(initial, events, |events|), ev, port)
  {
    EventsPrefix(initial, events, ev, |events|, port);
  }

  lemma SendKeepsDelivered(net: Net, s: State, events: seq<Event>, t: nat)
    requires CanSend(net, s, t) && Delivered(net, s, events)
    ensures Shape(net, SendStep(net, s, t)) && Delivered(net, SendStep(net, s, t), events)
  {
    var s' := SendStep(net, s, t);
    SendKeepsShape(net, s, t);
    forall e | 0 <= e < |s'.hist|
      ensures EdgeSays(net, s', events, e)
    {
      assert EdgeSays(net, s, events, e);
      assert Owed(net, s', events, e) == Owed(net, s, events, e);
      SendKeepsSum(net, s, t, e, Owed(net, s, events, e));
    }
    assert forall u :: 0 < u < |s'.threads| ==> StateSays(net, s.threads[u], u);
  }

  /** A thread after a receive. */
  lemma ReceiveGives(net: Net, s: State, t: nat, i: nat)
    requires Receives(net, s, t, i)
    ensures var s', r := ReceiveStep(net, s, t, i), Receive(s.threads[t].loop, i, Incoming(net, s, t, i));
            && Shape(net, s') && r.Next? && s'.hist == s.hist
            && s'.threads == s.threads[t := AfterCall(net, t, s.threads[t], r.loop, r.call)]
  {
    ReceiveKeepsShape(net, s, t, i);
    ReceiveNeverPanics(net, s, t, i);
  }

  /** A thread with nothing to send takes up new sends. */
  lemma ExtendOwed(h: seq<Message>, outs: seq<nat>, task: Task, next: seq<Send>, e: nat, owed: seq<Message>,
                   more: seq<Message>)
    requires Idle(outs, task) && h + Project(Pending(outs, task), e) == owed && Project(next, e) == more
    ensures h + Project(next, e) == owed + more
  {
    IdlePending(outs, task);
  }

  /** A node's answer to a callback, on one of its channels. */
  lemma CallAddsToEdge(net: Net, t: nat, local: Local, task: Task, c: Callback, h: seq<Message>, e: nat,
                       owed: seq<Message>)
    requires Wired(net) && 0 < t < |net.outs| && e in net.outs[t] && Idle(net.outs[t], task)
    requires h + Project(Pending(net.outs[t], task), e) == owed
    ensures h + Project(Pending(net.outs[t], React(net, t, local, c).1), e)
            == owed + Answer(net, t, local, c, net.edges[e].outPort)
  {
    var next, more := Pending(net.outs[t], React(net, t, local, c).1), Answer(net, t, local, c, net.edges[e].outPort);
    assert Project(next, e) == more by {
      ReactAnswers(net, t, local, c, e);
    }
    ExtendOwed(h, net.outs[t], task, next, e, owed, more);
  }

  /** The thread that received, on one of its channels. */
  lemma CallKeepsEdge(net: Net, t: nat, th: Thread, c: Callback, loop: Loop, h: seq<Message>, e: nat)
    requires Wired(net) && 0 < t < |net.outs| && e in net.outs[t] && Idle(net.outs[t], th.task) && StateSays(net, th, t)
    requires h + Project(Pending(net.outs[t], th.task), e)
             == Answers(net, t, th.log, |th.log|, net.edges[e].outPort)
    ensures var th' := AfterCall(net, t, th, loop, Some(c));
            h + Project(Pending(net.outs[t], th'.task), e)
            == Answers(net, t, th'.log, |th'.log|, net.edges[e].outPort)
  {
    var port := net.edges[e].outPort;
    CallAddsToEdge(net, t, th.local, th.task, c, h, e, Answers(net, t, th.log, |th.log|, port));
    NextCall(net, t, th.log, c, port);
  }

  lemma CallKeepsState(net: Net, t: nat, th: Thread, c: Callback, loop: Loop)
    requires Wired(net) && t < |net.outs| && StateSays(net, th, t)
    ensures StateSays(net, AfterCall(net, t, th, loop, Some(c)), t)
  {
    NextCall(net, t, th.log, c, 0);
  }

  lemma ReceiveKeepsSays(net: Net, s: State, events: seq<Event>, t: nat, i: nat, e: nat)
    requires Receives(net, s, t, i) && Delivered(net, s, events) && e < |s.hist|
    ensures Shape(net, ReceiveStep(net, s, t, i)) && EdgeSays(net, ReceiveStep(net, s, t, i), events, e)
  {
    ReceiveGives(net, s, t, i);
    assert EdgeSays(net, s, events, e);
    var r := Receive(s.threads[t].loop, i, Incoming(net, s, t, i));
    if net.edges[e].src == t && r.call.Some? {
      assert StateSays(net, s.threads[t], t);
      CallKeepsEdge(net, t, s.threads[t], r.call.value, r.loop, s.hist[e], e);
    }
  }

  lemma ReceiveKeepsDelivered(net: Net, s: State, events: seq<Event>, t: nat, i: nat)
    requires Receives(net, s, t, i) && Delivered(net, s, events)
    ensures Shape(net, ReceiveStep(net, s, t, i)) && Delivered(net, ReceiveStep(net, s, t, i), events)
  {
    var s' := ReceiveStep(net, s, t, i);
    ReceiveGives(net, s, t, i);
    forall e | 0 <= e < |s'.hist|
      ensures EdgeSays(net, s', events, e)
    {
      ReceiveKeepsSays(net, s, events, t, i, e);
    }
    forall u | 0 < u < |s'.threads|
      ensures StateSays(net, s'.threads[u], u)
    {
      assert StateSays(net, s.threads[u], u);
      var r := Receive(s.threads[t].loop, i, Incoming(net, s, t, i));
      if u == t && r.call.Some? {
        CallKeepsState(net, t, s.threads[t], r.call.value, r.loop);
      }
    }
  }

  /** The source thread, on one of its channels. */
  lemma EventAddsToEdge(net: Net, epoch: nat, ev: Event, task: Task, h: seq<Message>, e: nat, owed: seq<Message>)
    requires Wired(net) && e in net.outs[0] && Idle(net.outs[0], task)
    requires h + Project(Pending(net.outs[0], task), e) == owed
    ensures h + Project(Pending(net.outs[0], EventTask(net, epoch, ev)), e)
            == owed + EventMessages(epoch, ev, net.edges[e].outPort)
  {
    var next, more := Pending(net.outs[0], EventTask(net, epoch, ev)), EventMessages(epoch, ev, net.edges[e].outPort);
    assert Project(next, e) == more by {
      EventAnswers(net, epoch, ev, e);
    }
    ExtendOwed(h, net.outs[0], task, next, e, owed, more);
  }

  lemma SourceSays(net: Net, th: Thread, events: seq<Event>, ev: Event, h: seq<Message>, e: nat)
    requires Wired(net) && e in net.outs[0] && Idle(net.outs[0], th.task)
    requires th.loop.epoch == EpochAt(net.initialEpoch, events, |events|)
    requires h + Project(Pending(net.outs[0], th.task), e)
             == FromEvents(net.initialEpoch, events, |events|, net.edges[e].outPort)
    ensures h + Project(Pending(net.outs[0], EventTask(net, th.loop.epoch, ev)), e)
            == FromEvents(net.initialEpoch, events + [ev], |events| + 1, net.edges[e].outPort)
  {
    var port := net.edges[e].outPort;
    EventAddsToEdge(net, th.loop.epoch, ev, th.task, h, e, FromEvents(net.initialEpoch, events, |events|, port));
    NextEvent(net.initialEpoch, events, ev, port);
  }

  lemma EventKeepsSays(net: Net, s: State, events: seq<Event>, ev: Event, e: nat)
    requires CanHandle(net, s, ev) && Delivered(net, s, events) && e < |s.hist|
    ensures Shape(net, EventStep(net, s, ev)) && EdgeSays(net, EventStep(net, s, ev), events + [ev], e)
  {
    var s', t := EventStep(net, s, ev), net.edges[e].src;
    assert Shape(net, s') by {
      EventKeepsInv(net, s, ev);
    }
    assert EdgeSays(net, s, events, e);
    if t == 0 {
      SourceSays(net, s.threads[0], events, ev, s.hist[e], e);
    } else {
      assert s'.threads[t] == s.threads[t];
    }
  }

  lemma EventKeepsDelivered(net: Net, s: State, events: seq<Event>, ev: Event)
    requires CanHandle(net, s, ev) && Delivered(net, s, events)
    ensures Shape(net, EventStep(net, s, ev)) && Delivered(net, EventStep(net, s, ev), events + [ev])
  {
    var s' := EventStep(net, s, ev);
    assert Shape(net, s') by {
      EventKeepsInv(net, s, ev);
    }
    NextEvent(net.initialEpoch, events, ev, 0);
    forall e | 0 <= e < |s'.hist|
      ensures EdgeSays(net, s', events + [ev], e)
    {
      EventKeepsSays(net, s, events, ev, e);
    }
    forall t | 0 < t < |s'.threads|
      ensures StateSays(net, s'.threads[t], t)
    {
      assert s'.threads[t] == s.threads[t] && StateSays(net, s.threads[t], t);
    }
  }

  /** A step that forwards to an unconnected port puts nothing on any channel. */
  lemma MisroutedKeepsDelivered(net: Net, s: State, events: seq<Event>, a: Action)
    requires Inv(net, s) && Delivered(net, s, events) && Enabled(net, s, a) && Misrouted(net, s, a)
    ensures Shape(net, Apply(net, s, a)) && Delivered(net, Apply(net, s, a), AddEvent(events, a))
  {
    StepKeepsInv(net, s, a);
    var s', events' := Apply(net, s, a), AddEvent(events, a);
    if a.DoEvent? {
      NextEvent(net.initialEpoch, events, a.event, 0);
    }
    forall e | 0 <= e < |s'.hist|
      ensures EdgeSays(net, s', events', e)
    {
      assert EdgeSays(net, s, events, e);
      if a.DoEvent? && net.edges[e].src == 0 {
        assert e in net.outs[0];
        NextEvent(net.initialEpoch, events, a.event, net.edges[e].outPort);
      }
    }
    assert forall t :: 0 < t < |s'.threads| ==> StateSays(net, s.threads[t], t);
  }

  lemma StepKeepsDelivered(net: Net, s: State, events: seq<Event>, a: Action)
    requires Inv(net, s) && Delivered(net, s, events) && Enabled(net, s, a)
    ensures Shape(net, Apply(net, s, a)) && Delivered(net, Apply(net, s, a), AddEvent(events, a))
  {
    if Misrouted(net, s, a) {
      MisroutedKeepsDelivered(net, s, events, a);
    } else {
      match a
      case DoSend(t) => SendKeepsDelivered(net, s, events, t);
      case DoReceive(t, i) => ReceiveKeepsDelivered(net, s, events, t, i);
      case DoPoll(t) => SelectNeverEmpty(net, s, t);
      case DoEvent(ev) => EventKeepsDelivered(net, s, events, ev);
    }
  }

  lemma InitDelivered(net: Net, capacity: nat)
    requires Wired(net) && 0 < capacity
    ensures Shape(net, Init(net, capacity)) && Delivered(net, Init(net, capacity), [])
  {
    InitOk(net, capacity);
    InitThread(net, capacity, 0);
    var s := Init(net, capacity);
    forall e | 0 <= e < |s.hist|
      ensures EdgeSays(net, s, [], e)
    {
      InitThread(net, capacity, net.edges[e].src);
    }
    forall t | 0 < t < |s.threads|
      ensures StateSays(net, s.threads[t], t)
    {
      InitThread(net, capacity, t);
    }
  }

  lemma {:induction false} ReachableDelivered(net: Net, capacity: nat, acts: seq<Action>)
    requires Wired(net) && 0 < capacity && Exec(net, capacity, acts).Some?
    ensures Inv(net, Unmarked(Exec(net, capacity, acts).value))
    ensures Delivered(net, Exec(net, capacity, acts).value, Events(acts))
  {
    ReachableInv(net, capacity, acts);
    if acts == [] {
      InitDelivered(net, capacity);
    } else {
      var n := |acts| - 1;
      ReachableDelivered(net, capacity, acts[..n]);
      StepKeepsDelivered(net, Exec(net, capacity, acts[..n]).value, Events(acts[..n]), acts[n]);
    }
  }

  // ---------------------------------------------------------------- the theorems

  /** In every run a node's state is that of its processor after its callbacks, and each of its channels has carried,
      with what is still to be sent, exactly what the processor answered for that port. */
  lemma NodesDeliver(net: Net, capacity: nat, acts: seq<Action>, e: nat)
    requires Wired(net) && 0 < capacity && Exec(net, capacity, acts).Some? && e < |net.edges| && 0 < net.edges[e].src
    ensures var s, t := Exec(net, capacity, acts).value, net.edges[e].src;
            && Shape(net, s) && t < |s.threads|
            && var th := s.threads[t];
            && th.local == StateAt(net, t, th.log, |th.log|)
            && s.hist[e] + Project(Pending(net.outs[t], th.task), e)
               == Answers(net, t, th.log, |th.log|, net.edges[e].outPort)
  {
    ReachableDelivered(net, capacity, acts);
    var s := Exec(net, capacity, acts).value;
    assert EdgeSays(net, s, Events(acts), e) && StateSays(net, s.threads[net.edges[e].src], net.edges[e].src);
  }

  /** And each channel of the source thread has carried exactly what the sources handed over for its port. */
  lemma SourcesDeliver(net: Net, capacity: nat, acts: seq<Action>, e: nat)
    requires Wired(net) && 0 < capacity && Exec(net, capacity, acts).Some? && e < |net.edges| && net.edges[e].src == 0
    ensures var s, events := Exec(net, capacity, acts).value, Events(acts);
            && Shape(net, s)
            && s.hist[e] + Project(Pending(net.outs[0], s.threads[0].task), e)
               == FromEvents(net.initialEpoch, events, |events|, net.edges[e].outPort)
  {
    ReachableDelivered(net, capacity, acts);
    assert EdgeSays(net, Exec(net, capacity, acts).value, Events(acts), e);
  }

  /** At rest nothing is still to be sent, and every receiver has received all of it. */
  lemma AllDelivered(net: Net, capacity: nat, acts: seq<Action>, e: nat)
    requires Wired(net) && 0 < capacity && Exec(net, capacity, acts).Some? && e < |net.edges|
    requires var s := Exec(net, capacity, acts).value; !s.crashed && Shape(net, s) && Quiescent(net, s)
    ensures var s, events := Exec(net, capacity, acts).value, Events(acts);
            var t, port := net.edges[e].src, net.edges[e].outPort;
            && s.recvd[e] == |s.hist[e]|
            && s.hist[e] == if t == 0 then FromEvents(net.initialEpoch, events, |events|, port)
                            else Answers(net, t, s.threads[t].log, |s.threads[t].log|, port)
  {
    ReachableDelivered(net, capacity, acts);
    var s, t := Exec(net, capacity, acts).value, net.edges[e].src;
    assert EdgeSays(net, s, Events(acts), e);
    NobodyBlocked(net, s, t);
    IdlePending(net.outs[t], s.threads[t].task);
    NothingQueued(net, s, e);
  }
}
