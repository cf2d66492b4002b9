/** Every step of every thread keeps the invariant, so it holds in every reachable state. */
module Preservation {
  import opened Wrappers
  import opened Messages
  import opened Sets
  import opened ReceiverLoop
  import opened Network
  import opened Protocol

  // ---------------------------------------------------------------- sending

  ghost predicate CanSend(net: Net, s: State, t: nat) {
    Inv(net, s) && Enabled(net, s, DoSend(t))
  }

  lemma SendTarget(net: Net, s: State, t: nat) returns (j: nat)
    requires CanSend(net, s, t)
    ensures j < |net.outs[t]| && net.outs[t][j] == NextSend(net.outs[t], s.threads[t].task).edge
    ensures s.threads[t].task.Broadcast? ==> j == s.threads[t].task.next
  {
    assert SenderOk(net, s, t);
    match s.threads[t].task
    case Emit(sends) => j :| 0 <= j < |net.outs[t]| && net.outs[t][j] == sends[0].edge;
    case Broadcast(_, next) => j := next;
  }

  lemma DisciplinedAppend(h: seq<Message>, m: Message, epochs: seq<Epoch>, initial: nat)
    requires Disciplined(h, epochs, initial) && !Ended(h, |h|)
    requires Fits(m, AllCommits(h), epochs, initial)
    ensures Disciplined(h + [m], epochs, initial)
  {
    var h' := h + [m];
    forall k: nat | k < |h'|
      ensures FitsAt(h', k, epochs, initial)
    {
      CommitsAppend(h, m, k);
      if k < |h| {
        assert FitsAt(h, k, epochs, initial);
      }
    }
  }

  lemma SendKeepsShape(net: Net, s: State, t: nat)
    requires CanSend(net, s, t)
    ensures Shape(net, SendStep(net, s, t))
  {
  }

  lemma SendKeepsStreams(net: Net, s: State, t: nat, e: nat)
    requires CanSend(net, s, t) && e < |s.hist|
    ensures Disciplined(SendStep(net, s, t).hist[e], s.epochs, net.initialEpoch)
  {
    var j := SendTarget(net, s, t);
    assert SenderOk(net, s, t);
    if e == net.outs[t][j] {
      DisciplinedAppend(s.hist[e], NextSend(net.outs[t], s.threads[t].task).msg, s.epochs, net.initialEpoch);
    }
  }

  /** Advancing a thread's task keeps every sender's condition, the one just used with the message appended. */
  lemma AdvanceKeepsOut(initial: nat, loop: Loop, task: Task, outs: seq<nat>, epochs: seq<Epoch>,
                        used: nat, j: nat, h: seq<Message>)
    requires !Idle(outs, task) && TaskOk(initial, loop, task, outs, epochs)
    requires task.Broadcast? ==> used == task.next
    requires OutOk(initial, loop.epoch, task, j, h)
    ensures OutOk(initial, loop.epoch, Advance(outs, task), j,
                  if j == used then h + [NextSend(outs, task).msg] else h)
  {
    AllCommitsAppend(h, NextSend(outs, task).msg);
  }

  lemma AdvanceKeepsTask(initial: nat, loop: Loop, task: Task, outs: seq<nat>, epochs: seq<Epoch>)
    requires !Idle(outs, task) && TaskOk(initial, loop, task, outs, epochs)
    ensures TaskOk(initial, loop, Advance(outs, task), outs, epochs)
  {
  }

  lemma SendKeepsSender(net: Net, s: State, t: nat, u: nat)
    requires CanSend(net, s, t) && u < |s.threads|
    ensures Shape(net, SendStep(net, s, t)) && SenderOk(net, SendStep(net, s, t), u)
  {
    var s' := SendStep(net, s, t);
    SendKeepsShape(net, s, t);
    var used := SendTarget(net, s, t);
    assert SenderOk(net, s, u);
    var th, outs := s.threads[u], net.outs[u];
    if u == t {
      AdvanceKeepsTask(net.initialEpoch, th.loop, th.task, outs, s.epochs);
    }
    forall j | 0 <= j < |outs|
      ensures OutOk(net.initialEpoch, s'.threads[u].loop.epoch, s'.threads[u].task, j, s'.hist[outs[j]])
    {
      assert OutOk(net.initialEpoch, th.loop.epoch, th.task, j, s.hist[outs[j]]);
      assert outs[j] == net.outs[t][used] ==> u == t && j == used;
      if u == t {
        AdvanceKeepsOut(net.initialEpoch, th.loop, th.task, outs, s.epochs, used, j, s.hist[outs[j]]);
      }
    }
  }

  lemma SendKeepsReceiver(net: Net, s: State, t: nat, u: nat)
    requires CanSend(net, s, t) && u < |s.threads|
    ensures Shape(net, SendStep(net, s, t)) && ReceiverOk(net, SendStep(net, s, t), u)
  {
    var s' := SendStep(net, s, t);
    assert ReceiverOk(net, s, u);
    forall i | 0 <= i < |net.ins[u]|
      ensures PortOk(net.initialEpoch, s'.threads[u].loop, i, s'.hist[net.ins[u][i]], s'.recvd[net.ins[u][i]])
    {
      var e := net.ins[u][i];
      assert PortOk(net.initialEpoch, s.threads[u].loop, i, s.hist[e], s.recvd[e]);
      CommitsAppend(s.hist[e], NextSend(net.outs[t], s.threads[t].task).msg, s.recvd[e]);
    }
  }

  lemma SendKeepsInv(net: Net, s: State, t: nat)
    requires CanSend(net, s, t)
    ensures Inv(net, SendStep(net, s, t))
  {
    var s' := SendStep(net, s, t);
    SendKeepsShape(net, s, t);
    forall e | 0 <= e < |s'.hist|
      ensures Disciplined(s'.hist[e], s'.epochs, net.initialEpoch)
    {
      SendKeepsStreams(net, s, t, e);
    }
    forall u | 0 <= u < |s'.threads|
      ensures SenderOk(net, s', u) && ReceiverOk(net, s', u)
    {
      SendKeepsSender(net, s, t, u);
      SendKeepsReceiver(net, s, t, u);
    }
  }

  // ---------------------------------------------------------------- receiving

  ghost predicate CanReceive(net: Net, s: State, t: nat, i: nat) {
    Inv(net, s) && Enabled(net, s, DoReceive(t, i))
  }

  /** The thread can receive, and what it forwards because of that goes to connected ports. */
  ghost predicate Receives(net: Net, s: State, t: nat, i: nat) {
    CanReceive(net, s, t, i) && !Misrouted(net, s, DoReceive(t, i))
  }

  function Incoming(net: Net, s: State, t: nat, i: nat): Message
    requires t < |net.ins| && i < |net.ins[t]| && net.ins[t][i] < |s.hist| == |s.recvd|
    requires s.recvd[net.ins[t][i]] < |s.hist[net.ins[t][i]]|
  {
    s.hist[net.ins[t][i]][s.recvd[net.ins[t][i]]]
  }

  /** The message fits the epoch of the thread that receives it. */
  lemma IncomingFits(net: Net, s: State, t: nat, i: nat)
    requires CanReceive(net, s, t, i)
    ensures var m, epoch := Incoming(net, s, t, i), s.threads[t].loop.epoch;
            && net.initialEpoch <= epoch
            && Fits(m, epoch - net.initialEpoch, s.epochs, net.initialEpoch)
            && (m.Commit? ==> m.epoch.id == epoch)
            && (m.Payload?() ==> m.tag == epoch)
  {
    assert ReceiverOk(net, s, t);
    var e := net.ins[t][i];
    assert PortOk(net.initialEpoch, s.threads[t].loop, i, s.hist[e], s.recvd[e]);
    assert FitsAt(s.hist[e], s.recvd[e], s.epochs, net.initialEpoch);
  }

  /** The epoch assertion holds and no receiver is removed from the select twice: a receive fails exactly if the
      node, in its present state, answers the message by forwarding to an unconnected port. */
  lemma ReceiveNeverPanics(net: Net, s: State, t: nat, i: nat)
    requires CanReceive(net, s, t, i)
    ensures var r, s' := Receive(s.threads[t].loop, i, Incoming(net, s, t, i)), ReceiveStep(net, s, t, i);
            && r.Next?
            && (s'.crashed <==> !Forwardable(net, t, s.threads[t].local, r.call))
            && (s'.crashed <==> Misrouted(net, s, DoReceive(t, i)))
            && (s'.crashed ==> s' == s.(crashed := true))
  {
    IncomingFits(net, s, t, i);
  }

  lemma OnlyCommitsChangeEpoch(l: Loop, i: nat, m: Message)
    requires i < |l.ports| && Receive(l, i, m).Next?
    ensures var r := Receive(l, i, m);
            && |r.loop.ports| == |l.ports|
            && (r.loop.epoch != l.epoch ==> r.call == Some(OnCommit(m.epoch)) && r.loop.epoch == l.epoch + 1)
            && (r.loop.returned != l.returned ==> r.call == Some(OnTerminate) && m.Terminate?)
  {
  }

  lemma ReceiveKeepsShape(net: Net, s: State, t: nat, i: nat)
    requires Receives(net, s, t, i)
    ensures Shape(net, ReceiveStep(net, s, t, i))
  {
    ReceiveNeverPanics(net, s, t, i);
    OnlyCommitsChangeEpoch(s.threads[t].loop, i, Incoming(net, s, t, i));
  }

  /** When the last commit of an epoch arrives, every other port has committed. */
  lemma LastCommit(l: Loop, i: nat)
    requires i < |l.ports| && i in l.select && l.commits == |Committed(l)| && l.commits + 1 == |l.ports|
    ensures forall k :: 0 <= k < |l.ports| && k != i ==> k in Committed(l)
  {
    assert Committed(l) + {i} <= Below(|l.ports|);
    SizeBelow(|l.ports|);
    SubsetSize(Committed(l) + {i}, Below(|l.ports|));
  }

  ghost predicate AllOf(sends: seq<Send>, outs: seq<nat>, tag: nat) {
    forall k :: 0 <= k < |sends| ==>
      sends[k].edge in outs && sends[k].msg.Payload?() && sends[k].msg.tag == tag
  }

  lemma {:induction false} RouteOk(net: Net, outs: seq<nat>, port: nat, m: Message)
    requires m.Payload?()
    ensures AllOf(Route(net, outs, port, m), outs, m.tag)
  {
    if outs != [] {
      RouteOk(net, outs[1..], port, m);
    }
  }

  lemma {:induction false} RouteAllOk(net: Net, outs: seq<nat>, outputs: seq<Output>, tag: nat)
    ensures AllOf(RouteAll(net, outs, outputs, tag), outs, tag)
  {
    if outputs != [] {
      RouteOk(net, outs, outputs[0].port, Op(outputs[0].data, tag));
      RouteAllOk(net, outs, outputs[1..], tag);
    }
  }

  lemma {:induction false} RoutePortsOk(net: Net, outs: seq<nat>, ports: seq<nat>, m: Message)
    requires m.Payload?()
    ensures AllOf(RoutePorts(net, outs, ports, m), outs, m.tag)
  {
    if ports != [] {
      RouteOk(net, outs, ports[0], m);
      RoutePortsOk(net, outs, ports[1..], m);
    }
  }

  /** The reaction of an idle thread to a message of its epoch leaves its sending side in order. */
  lemma ReactKeepsTask(net: Net, t: nat, th: Thread, i: nat, m: Message, epochs: seq<Epoch>)
    requires t < |net.outs| && i < |th.loop.ports| && Receive(th.loop, i, m).Next?
    requires TaskOk(net.initialEpoch, th.loop, th.task, net.outs[t], epochs)
    requires Idle(net.outs[t], th.task) && !th.loop.returned
    requires net.initialEpoch <= th.loop.epoch
    requires Fits(m, th.loop.epoch - net.initialEpoch, epochs, net.initialEpoch)
    ensures var r := Receive(th.loop, i, m);
            var th' := AfterCall(net, t, th, r.loop, r.call);
            TaskOk(net.initialEpoch, th'.loop, th'.task, net.outs[t], epochs)
  {
    if m.Op? {
      RouteAllOk(net, net.outs[t], net.process(t, th.local, i, m.data).1, m.tag);
    }
  }

  lemma ReactKeepsOut(net: Net, t: nat, th: Thread, i: nat, m: Message, j: nat, h: seq<Message>)
    requires t < |net.outs| && i < |th.loop.ports| && Receive(th.loop, i, m).Next?
    requires OutOk(net.initialEpoch, th.loop.epoch, th.task, j, h)
    requires UpToDate(net.initialEpoch, th.loop.epoch, h)
    ensures var r := Receive(th.loop, i, m);
            var th' := AfterCall(net, t, th, r.loop, r.call);
            OutOk(net.initialEpoch, th'.loop.epoch, th'.task, j, h)
  {
  }

  lemma ReceiveKeepsSender(net: Net, s: State, t: nat, i: nat, u: nat)
    requires Receives(net, s, t, i) && u < |s.threads|
    ensures Shape(net, ReceiveStep(net, s, t, i)) && SenderOk(net, ReceiveStep(net, s, t, i), u)
  {
    var s' := ReceiveStep(net, s, t, i);
    ReceiveKeepsShape(net, s, t, i);
    ReceiveNeverPanics(net, s, t, i);
    assert SenderOk(net, s, u);
    if u == t {
      var m := Incoming(net, s, t, i);
      IncomingFits(net, s, t, i);
      IdleUpToDate(net, s, t);
      ReactKeepsTask(net, t, s.threads[t], i, m, s.epochs);
      forall j | 0 <= j < |net.outs[t]|
        ensures OutOk(net.initialEpoch, s'.threads[t].loop.epoch, s'.threads[t].task, j, s'.hist[net.outs[t][j]])
      {
        ReactKeepsOut(net, t, s.threads[t], i, m, j, s.hist[net.outs[t][j]]);
      }
    }
  }

  lemma ReceiveKeepsOtherReceiver(net: Net, s: State, t: nat, i: nat, u: nat)
    requires Receives(net, s, t, i) && u < |s.threads| && u != t
    ensures Shape(net, ReceiveStep(net, s, t, i)) && ReceiverOk(net, ReceiveStep(net, s, t, i), u)
  {
    var s' := ReceiveStep(net, s, t, i);
    ReceiveKeepsShape(net, s, t, i);
    ReceiveNeverPanics(net, s, t, i);
    assert ReceiverOk(net, s, u);
    assert forall k :: 0 <= k < |net.ins[u]| ==> net.ins[u][k] != net.ins[t][i];
  }

  /** A port's condition after a message was received on port i, on it (k == i) or on another. */
  lemma ReceiveKeepsPort(initial: nat, l: Loop, i: nat, m: Message, k: nat, h: seq<Message>, read: nat)
    requires i < |l.ports| && k < |l.ports| && read <= |h| && i in l.select && l.ports[i] == Open
    requires Receive(l, i, m).Next?
    requires l.commits == |Committed(l)|
    requires PortOk(initial, l, k, h, read)
    requires k == i ==> read < |h| && h[read] == m
    ensures PortOk(initial, Receive(l, i, m).loop, k, h, if k == i then read + 1 else read)
  {
    if m.Commit? && l.commits + 1 == |l.ports| {
      LastCommit(l, i);
      assert k != i ==> k in Committed(l);
    }
  }

  ghost predicate CountOk(l: Loop) {
    && l.commits == |Committed(l)| < |l.ports|
    && l.select <= Below(|l.ports|)
    && (l.returned <==> AllTerminated(l.ports))
  }

  lemma CommitKeepsCount(l: Loop, i: nat, m: Message)
    requires i < |l.ports| && i in l.select && l.ports[i] == Open && CountOk(l)
    requires m.Commit? && Receive(l, i, m).Next?
    ensures CountOk(Receive(l, i, m).loop)
  {
    var l' := Receive(l, i, m).loop;
    assert l'.ports[i] == Open;
    if l.commits + 1 == |l.ports| {
      assert Committed(l') == {};
    } else {
      assert i !in Committed(l);
      assert Committed(l') == Committed(l) + {i};
    }
  }

  lemma TerminateKeepsCount(l: Loop, i: nat)
    requires i < |l.ports| && i in l.select && l.ports[i] == Open && CountOk(l)
    ensures CountOk(Receive(l, i, Terminate).loop)
  {
    assert Committed(Receive(l, i, Terminate).loop) == Committed(l);
  }

  lemma ReceiveKeepsCount(l: Loop, i: nat, m: Message)
    requires i < |l.ports| && i in l.select && l.ports[i] == Open && CountOk(l)
    requires Receive(l, i, m).Next?
    ensures CountOk(Receive(l, i, m).loop)
  {
    if m.Commit? {
      CommitKeepsCount(l, i, m);
    } else if m.Terminate? {
      TerminateKeepsCount(l, i);
    }
  }

  lemma ReceiveKeepsPorts(net: Net, s: State, t: nat, i: nat, k: nat)
    requires Receives(net, s, t, i) && k < |net.ins[t]|
    ensures var s', f := ReceiveStep(net, s, t, i), net.ins[t][k];
            && Shape(net, s')
            && PortOk(net.initialEpoch, s'.threads[t].loop, k, s'.hist[f], s'.recvd[f])
  {
    ReceiveKeepsShape(net, s, t, i);
    ReceiveNeverPanics(net, s, t, i);
    assert ReceiverOk(net, s, t);
    var l, e, f := s.threads[t].loop, net.ins[t][i], net.ins[t][k];
    assert PortOk(net.initialEpoch, l, i, s.hist[e], s.recvd[e]);
    assert PortOk(net.initialEpoch, l, k, s.hist[f], s.recvd[f]);
    assert f == e ==> k == i;
    ReceiveKeepsPort(net.initialEpoch, l, i, Incoming(net, s, t, i), k, s.hist[f], s.recvd[f]);
  }

  /** Terminate arrives only after the source has shut down, at the source's last epoch. */
  lemma TerminateIsLast(net: Net, s: State, t: nat, i: nat)
    requires CanReceive(net, s, t, i) && Incoming(net, s, t, i).Terminate?
    ensures s.threads[0].loop.returned && s.threads[t].loop.epoch == s.threads[0].loop.epoch
  {
    assert ReceiverOk(net, s, t);
    var e := net.ins[t][i];
    assert PortOk(net.initialEpoch, s.threads[t].loop, i, s.hist[e], s.recvd[e]);
    EndedIsWhole(s.hist[e], s.recvd[e] + 1, s.epochs, net.initialEpoch);
    EdgeBounds(net, s, e);
  }

  lemma ReceiveKeepsReceiver(net: Net, s: State, t: nat, i: nat)
    requires Receives(net, s, t, i)
    ensures Shape(net, ReceiveStep(net, s, t, i)) && ReceiverOk(net, ReceiveStep(net, s, t, i), t)
  {
    var s' := ReceiveStep(net, s, t, i);
    var m := Incoming(net, s, t, i);
    ReceiveKeepsShape(net, s, t, i);
    ReceiveNeverPanics(net, s, t, i);
    IncomingFits(net, s, t, i);
    var l := s.threads[t].loop;
    assert ReceiverOk(net, s, t);
    assert PortOk(net.initialEpoch, l, i, s.hist[net.ins[t][i]], s.recvd[net.ins[t][i]]);
    ReceiveKeepsCount(l, i, m);
    OnlyCommitsChangeEpoch(l, i, m);
    forall k | 0 <= k < |net.ins[t]|
      ensures PortOk(net.initialEpoch, s'.threads[t].loop, k, s'.hist[net.ins[t][k]], s'.recvd[net.ins[t][k]])
    {
      ReceiveKeepsPorts(net, s, t, i, k);
    }
    if m.Terminate? {
      TerminateIsLast(net, s, t, i);
    }
  }

  lemma ReceiveKeepsInv(net: Net, s: State, t: nat, i: nat)
    requires Receives(net, s, t, i)
    ensures Inv(net, ReceiveStep(net, s, t, i))
  {
    var s' := ReceiveStep(net, s, t, i);
    ReceiveKeepsShape(net, s, t, i);
    ReceiveNeverPanics(net, s, t, i);
    forall u | 0 <= u < |s'.threads|
      ensures SenderOk(net, s', u) && ReceiverOk(net, s', u)
    {
      ReceiveKeepsSender(net, s, t, i, u);
      if u == t {
        ReceiveKeepsReceiver(net, s, t, i);
      } else {
        ReceiveKeepsOtherReceiver(net, s, t, i, u);
      }
    }
  }

  // ---------------------------------------------------------------- source events

  ghost predicate CanHandle(net: Net, s: State, ev: Event) {
    Inv(net, s) && Enabled(net, s, DoEvent(ev)) && !Misrouted(net, s, DoEvent(ev))
  }

  lemma EventKeepsInv(net: Net, s: State, ev: Event)
    requires CanHandle(net, s, ev)
    ensures Inv(net, EventStep(net, s, ev))
  {
    var s' := EventStep(net, s, ev);
    forall e | 0 <= e < |s'.hist|
      ensures Disciplined(s'.hist[e], s'.epochs, net.initialEpoch)
    {
      forall k: nat | k < |s.hist[e]|
        ensures FitsAt(s'.hist[e], k, s'.epochs, net.initialEpoch)
      {
        assert FitsAt(s.hist[e], k, s.epochs, net.initialEpoch);
      }
    }
    EventKeepsSource(net, s, ev);
    forall u | 0 <= u < |s'.threads|
      ensures SenderOk(net, s', u) && ReceiverOk(net, s', u)
    {
      if u != 0 {
        EventKeepsOthers(net, s, ev, u);
      }
    }
  }

  lemma EventKeepsSource(net: Net, s: State, ev: Event)
    requires CanHandle(net, s, ev)
    ensures var s' := EventStep(net, s, ev);
            Shape(net, s') && SenderOk(net, s', 0) && ReceiverOk(net, s', 0)
  {
    var s' := EventStep(net, s, ev);
    assert SenderOk(net, s, 0) && ReceiverOk(net, s, 0);
    IdleUpToDate(net, s, 0);
    var epoch := s.threads[0].loop.epoch;
    match ev {
      case SourceOp(port, data) => RouteOk(net, net.outs[0], port, Op(data, epoch));
      case SourceSnapshotting(ports, event) => RoutePortsOk(net, net.outs[0], ports, Snapshotting(event, epoch));
      case _ =>
    }
    forall j | 0 <= j < |net.outs[0]|
      ensures OutOk(net.initialEpoch, s'.threads[0].loop.epoch, s'.threads[0].task, j, s'.hist[net.outs[0][j]])
    {
      assert UpToDate(net.initialEpoch, s.threads[0].loop.epoch, s.hist[net.outs[0][j]]);
    }
  }

  lemma EventKeepsOthers(net: Net, s: State, ev: Event, u: nat)
    requires CanHandle(net, s, ev) && 0 < u < |s.threads|
    ensures var s' := EventStep(net, s, ev);
            Shape(net, s') && SenderOk(net, s', u) && ReceiverOk(net, s', u)
  {
    assert SenderOk(net, s, u) && ReceiverOk(net, s, u);
    assert EventStep(net, s, ev).threads[u] == s.threads[u];
  }

  // ---------------------------------------------------------------- runs

  /** Every enabled step keeps the invariant, or it forwards to an unconnected port, which ends the run and
      changes nothing else. */
  lemma StepKeepsInv(net: Net, s: State, a: Action)
    requires Inv(net, s) && Enabled(net, s, a)
    ensures if Misrouted(net, s, a) then Apply(net, s, a) == s.(crashed := true) else Inv(net, Apply(net, s, a))
  {
    match a
    case DoSend(t) => SendKeepsInv(net, s, t);
    case DoReceive(t, i) =>
      ReceiveNeverPanics(net, s, t, i);
      if !Misrouted(net, s, a) {
        ReceiveKeepsInv(net, s, t, i);
      }
    case DoPoll(t) => SelectNeverEmpty(net, s, t);
    case DoEvent(ev) =>
      if !Misrouted(net, s, a) {
        EventKeepsInv(net, s, ev);
      }
  }

  /** The state after a sequence of steps from the start, if each of them is enabled in turn. */
  ghost function Exec(net: Net, capacity: nat, acts: seq<Action>): Option<State>
    requires Wired(net)
  {
    if acts == [] then Some(Init(net, capacity))
    else
      var n := |acts| - 1;
      match Exec(net, capacity, acts[..n])
      case None => None
      case Some(s) =>
        if Shape(net, s) && Enabled(net, s, acts[n]) then Some(Apply(net, s, acts[n])) else None
  }

  /** The last step of the run, and no earlier one, forwards to an unconnected port. */
  ghost predicate EndsMisrouted(net: Net, capacity: nat, acts: seq<Action>)
    requires Wired(net)
  {
    acts != [] &&
    var n := |acts| - 1;
    var before := Exec(net, capacity, acts[..n]);
    && before.Some? && Shape(net, before.value) && Enabled(net, before.value, acts[n])
    && Misrouted(net, before.value, acts[n])
  }

  /** The state without its mark of failure. */
  function Unmarked(s: State): State {
    s.(crashed := false)
  }

  /** Every reachable state satisfies the invariant, and a run fails exactly if its last step forwards to an
      unconnected port. */
  lemma {:induction false} ReachableInv(net: Net, capacity: nat, acts: seq<Action>)
    requires Wired(net) && 0 < capacity
    ensures Exec(net, capacity, acts).Some? ==>
              && Inv(net, Unmarked(Exec(net, capacity, acts).value))
              && (Exec(net, capacity, acts).value.crashed <==> EndsMisrouted(net, capacity, acts))
  {
    if acts == [] {
      InitOk(net, capacity);
    } else {
      var n := |acts| - 1;
      ReachableInv(net, capacity, acts[..n]);
      if Exec(net, capacity, acts).Some? {
        StepKeepsInv(net, Exec(net, capacity, acts[..n]).value, acts[n]);
      }
    }
  }

  /** It is enough that no processor ever does, and that sources send on connected ports only. */
  lemma RespectedNeverFails(net: Net, capacity: nat, acts: seq<Action>)
    requires Wired(net) && 0 < capacity && Exec(net, capacity, acts).Some? && PortsRespected(net)
    requires forall k :: 0 <= k < |acts| && acts[k].DoEvent? && acts[k].event.SourceOp? ==>
               HasPort(net, 0, acts[k].event.port)
    ensures !Exec(net, capacity, acts).value.crashed
  {
    ReachableInv(net, capacity, acts);
  }
}
