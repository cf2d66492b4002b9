/** The running pipeline: the source thread, one thread per processor and sink, and one bounded
    channel per edge, as a transition system over the threads' atomic steps
    (dozer-core/src/executor/, dozer-core/src/forwarder.rs). */
module Network {
  import opened Wrappers
  import opened Messages
  import opened ReceiverLoop

  /** The state of a processor or sink, known only to itself. */
  type Local(!new, ==)

  /** An operation a processor forwards: `ProcessorChannelForwarder::send(op, port)`. */
  datatype Output = Output(port: nat, data: Data)

  /** A channel of the execution DAG. */
  datatype Edge = Edge(src: nat, dst: nat, outPort: nat)

  /** Thread 0 runs all sources (executor/source_node/mod.rs), the others one processor or sink each.
      Threads are numbered in a topological order of the DAG.
      `ins[t]` are the receivers of thread t, `outs[t]` its senders in the order
      `send_to_all_ports` visits them. */
  datatype Net = Net(
    edges: seq<Edge>,
    ins: seq<seq<nat>>,
    outs: seq<seq<nat>>,
    initialEpoch: nat,
    initial: nat -> Local,
    process: (nat, Local, nat, Data) -> (Local, seq<Output>),
    commit: (nat, Local, Epoch) -> Local,
    snapshot: (nat, Local, Snapshot) -> Local)

  ghost predicate NoDuplicates(s: seq<nat>) {
    forall i, j :: 0 <= i < j < |s| ==> s[i] != s[j]
  }

  predicate HasPort(net: Net, t: nat, port: nat)
    requires t < |net.outs|
  {
    exists k :: 0 <= k < |net.outs[t]| && net.outs[t][k] < |net.edges| && net.edges[net.outs[t][k]].outPort == port
  }

  /** What ExecutionDag::new and validate_connectivity establish: one channel per edge, and every
       processor and sink has a receiver. */
  ghost predicate Wired(net: Net) {
    && 0 < |net.ins| == |net.outs|
    && net.ins[0] == []
    && (forall t :: 0 < t < |net.ins| ==> net.ins[t] != [])
    && (forall e :: 0 <= e < |net.edges| ==> net.edges[e].src < net.edges[e].dst < |net.ins|)
    && (forall e :: 0 <= e < |net.edges| ==> e in net.outs[net.edges[e].src] && e in net.ins[net.edges[e].dst])
    && (forall t, k :: 0 <= t < |net.ins| && 0 <= k < |net.ins[t]| ==>
          net.ins[t][k] < |net.edges| && net.edges[net.ins[t][k]].dst == t)
    && (forall t, k :: 0 <= t < |net.outs| && 0 <= k < |net.outs[t]| ==>
          net.outs[t][k] < |net.edges| && net.edges[net.outs[t][k]].src == t)
    && (forall t :: 0 <= t < |net.ins| ==> NoDuplicates(net.ins[t]))
    && (forall t :: 0 <= t < |net.outs| ==> NoDuplicates(net.outs[t]))
  }

  /** Does thread t, reacting to the call, forward to connected ports only? `send` panics otherwise. */
  predicate Forwardable(net: Net, t: nat, local: Local, call: Option<Callback>)
    requires t < |net.outs|
  {
    call.Some? && call.value.OnOp? ==>
      var outputs := net.process(t, local, call.value.port, call.value.data).1;
      forall k :: 0 <= k < |outputs| ==> HasPort(net, t, outputs[k].port)
  }

  /** No processor forwards to an unconnected port, in any state. */
  ghost predicate PortsRespected(net: Net)
    requires |net.ins| == |net.outs|
  {
    forall t: nat, local, call :: t < |net.outs| ==> Forwardable(net, t, local, call)
  }

  // ---------------------------------------------------------------- sending

  datatype Send = Send(edge: nat, msg: Message)

  /** What a thread still has to send before it receives again: the operations an `on_op` forwards,
      or the rest of the loop in `send_to_all_ports`. */
  datatype Task =
    | Emit(sends: seq<Send>)
    | Broadcast(msg: Message, next: nat)

  /** `send_op`: the operation goes to every sender of the port, in order. */
  function Route(net: Net, outs: seq<nat>, port: nat, m: Message): seq<Send> {
    if outs == [] then []
    else
      (if outs[0] < |net.edges| && net.edges[outs[0]].outPort == port then [Send(outs[0], m)] else [])
      + Route(net, outs[1..], port, m)
  }

  lemma {:induction false} RouteNothing(net: Net, outs: seq<nat>, port: nat, m: Message)
    requires forall k :: 0 <= k < |outs| && outs[k] < |net.edges| ==> net.edges[outs[k]].outPort != port
    ensures Route(net, outs, port, m) == []
  {
    if outs != [] {
      RouteNothing(net, outs[1..], port, m);
    }
  }

  function RouteAll(net: Net, outs: seq<nat>, outputs: seq<Output>, tag: nat): seq<Send> {
    if outputs == [] then []
    else Route(net, outs, outputs[0].port, Op(outputs[0].data, tag)) + RouteAll(net, outs, outputs[1..], tag)
  }

  /** A message to the ports of one source (`SnapshottingStarted` and `SnapshottingDone` of that source). */
  function RoutePorts(net: Net, outs: seq<nat>, ports: seq<nat>, m: Message): seq<Send> {
    if ports == [] then []
    else Route(net, outs, ports[0], m) + RoutePorts(net, outs, ports[1..], m)
  }

  /** The rest of the loop in `send_to_all_ports`. */
  function BroadcastFrom(outs: seq<nat>, m: Message, next: nat): seq<Send>
    decreases |outs| - next
  {
    if next < |outs| then [Send(outs[next], m)] + BroadcastFrom(outs, m, next + 1) else []
  }

  predicate Idle(outs: seq<nat>, task: Task) {
    match task
    case Emit(sends) => sends == []
    case Broadcast(_, next) => |outs| <= next
  }

  function NextSend(outs: seq<nat>, task: Task): Send
    requires !Idle(outs, task)
  {
    match task
    case Emit(sends) => sends[0]
    case Broadcast(msg, next) => Send(outs[next], msg)
  }

  function Advance(outs: seq<nat>, task: Task): Task
    requires !Idle(outs, task)
  {
    match task
    case Emit(sends) => Emit(sends[1..])
    case Broadcast(msg, next) => Broadcast(msg, next + 1)
  }

  // ---------------------------------------------------------------- states and steps

  /** `log` records the callbacks made so far. The source thread has no ports; of `loop` it uses
      `epoch`, its `epoch_id`, and `returned`, set once it starts to send Terminate. */
  datatype Thread = Thread(loop: Loop, local: Local, task: Task, log: seq<Callback>)

  /** A channel is everything ever sent on it, `hist[e]`, and how much of that was received, `recvd[e]`.
      `epochs` are the epochs the source thread has decided to commit; `capacity` is `channel_buffer_sz`.
      The run ends when a thread panics or fails: `crashed`. */
  datatype State = State(
    threads: seq<Thread>,
    hist: seq<seq<Message>>,
    recvd: seq<nat>,
    epochs: seq<Epoch>,
    capacity: nat,
    crashed: bool)

  function Init(net: Net, capacity: nat): State {
    State(
      seq(|net.ins|, (t: nat) => Thread(Start(if t < |net.ins| then |net.ins[t]| else 0, net.initialEpoch),
                                        net.initial(t), Emit([]), [])),
      seq(|net.edges|, e => []),
      seq(|net.edges|, e => 0),
      [],
      capacity,
      false)
  }

  ghost predicate Shape(net: Net, s: State) {
    && |s.threads| == |net.ins| == |net.outs|
    && 0 < s.capacity
    && |s.hist| == |net.edges| == |s.recvd|
    && (forall t :: 0 <= t < |s.threads| ==> |s.threads[t].loop.ports| == |net.ins[t]|)
    && (forall e :: 0 <= e < |s.hist| ==> s.recvd[e] <= |s.hist[e]| <= s.recvd[e] + s.capacity)
  }

  /** The messages in the channel's buffer. */
  function Queue(s: State, e: nat): seq<Message>
    requires e < |s.hist| == |s.recvd| && s.recvd[e] <= |s.hist[e]|
  {
    s.hist[e][s.recvd[e]..]
  }

  /** What the sources hand to the source thread. */
  datatype Event =
    | SourceOp(port: nat, data: Data)
    | SourceSnapshotting(ports: seq<nat>, event: Snapshot)
    | SourceCommit(info: EpochInfo)
    | Shutdown

  datatype Action =
    | DoSend(thread: nat)
    | DoReceive(thread: nat, port: nat)
    | DoPoll(thread: nat)
    | DoEvent(event: Event)

  predicate IdleThread(net: Net, s: State, t: nat)
    requires t < |s.threads| == |net.outs|
  {
    Idle(net.outs[t], s.threads[t].task)
  }

  /** A blocking `send` completes when the channel has room; a receive happens when the thread has
      nothing left to send and a selected channel has a message; `ready()` on an empty select panics. */
  ghost predicate Enabled(net: Net, s: State, a: Action)
    requires Wired(net) && Shape(net, s)
  {
    !s.crashed &&
    match a
    case DoSend(t) =>
      && t < |s.threads| && !IdleThread(net, s, t)
      && var e := NextSend(net.outs[t], s.threads[t].task).edge;
         e < |s.hist| && |s.hist[e]| < s.recvd[e] + s.capacity
    case DoReceive(t, i) =>
      && 0 < t < |s.threads| && IdleThread(net, s, t) && !s.threads[t].loop.returned
      && i < |net.ins[t]| && i in s.threads[t].loop.select
      && s.recvd[net.ins[t][i]] < |s.hist[net.ins[t][i]]|
    case DoPoll(t) =>
      && 0 < t < |s.threads| && IdleThread(net, s, t) && !s.threads[t].loop.returned
      && s.threads[t].loop.select == {}
    case DoEvent(_) => IdleThread(net, s, 0) && !s.threads[0].loop.returned
  }

  /** Does the step forward an operation to a port without a channel? A processor's `send` then panics, and the
      source thread's `send_op` fails. */
  ghost predicate Misrouted(net: Net, s: State, a: Action)
    requires Wired(net) && Shape(net, s) && Enabled(net, s, a)
  {
    match a
    case DoReceive(t, i) =>
      var e := net.ins[t][i];
      var r := Receive(s.threads[t].loop, i, s.hist[e][s.recvd[e]]);
      r.Next? && !Forwardable(net, t, s.threads[t].local, r.call)
    case DoEvent(ev) => ev.SourceOp? && !HasPort(net, 0, ev.port)
    case _ => false
  }

  /** The node's reaction to a callback: its new state and what it sends. */
  function React(net: Net, t: nat, local: Local, c: Callback): (Local, Task)
    requires t < |net.outs|
  {
    match c
    case OnOp(port, data, tag) =>
      var r := net.process(t, local, port, data);
      (r.0, Emit(RouteAll(net, net.outs[t], r.1, tag)))
    case OnSnapshotting(_, event, tag) => (net.snapshot(t, local, event), Broadcast(Snapshotting(event, tag), 0))
    case OnCommit(epoch) => (net.commit(t, local, epoch), Broadcast(Commit(epoch), 0))
    case OnTerminate => (local, Broadcast(Terminate, 0))
  }

  function AfterCall(net: Net, t: nat, thread: Thread, loop: Loop, call: Option<Callback>): Thread
    requires t < |net.outs|
  {
    match call
    case None => thread.(loop := loop)
    case Some(c) =>
      var r := React(net, t, thread.local, c);
      Thread(loop, r.0, r.1, thread.log + [c])
  }

  function SendStep(net: Net, s: State, t: nat): State
    requires t < |s.threads| == |net.outs| && !IdleThread(net, s, t)
    requires NextSend(net.outs[t], s.threads[t].task).edge < |s.hist|
  {
    var send := NextSend(net.outs[t], s.threads[t].task);
    s.(threads := s.threads[t := s.threads[t].(task := Advance(net.outs[t], s.threads[t].task))],
       hist := s.hist[send.edge := s.hist[send.edge] + [send.msg]])
  }

  function ReceiveStep(net: Net, s: State, t: nat, i: nat): State
    requires t < |s.threads| == |net.ins| == |net.outs| && i < |net.ins[t]| == |s.threads[t].loop.ports|
    requires net.ins[t][i] < |s.hist| == |s.recvd| && s.recvd[net.ins[t][i]] < |s.hist[net.ins[t][i]]|
  {
    var e := net.ins[t][i];
    match Receive(s.threads[t].loop, i, s.hist[e][s.recvd[e]])
    case Panic => s.(crashed := true)
    case Next(loop, call) =>
      if !Forwardable(net, t, s.threads[t].local, call) then s.(crashed := true)
      else
      s.(threads := s.threads[t := AfterCall(net, t, s.threads[t], loop, call)],
         recvd := s.recvd[e := s.recvd[e] + 1])
  }

  /** What the source thread sends for an event, at the given epoch. */
  function EventTask(net: Net, epoch: nat, ev: Event): Task
    requires 0 < |net.outs|
  {
    match ev
    case SourceOp(port, data) => Emit(Route(net, net.outs[0], port, Op(data, epoch)))
    case SourceSnapshotting(ports, event) => Emit(RoutePorts(net, net.outs[0], ports, Snapshotting(event, epoch)))
    case SourceCommit(info) => Broadcast(Commit(Epoch(epoch, info)), 0)
    case Shutdown => Broadcast(Terminate, 0)
  }

  /** The source thread's loop body (executor/source_node/mod.rs). */
  function EventStep(net: Net, s: State, ev: Event): State
    requires 0 < |s.threads| == |net.outs|
  {
    var th := s.threads[0];
    var loop := match ev
      case SourceCommit(_) => th.loop.(epoch := th.loop.epoch + 1)
      case Shutdown => th.loop.(returned := true)
      case _ => th.loop;
    if ev.SourceOp? && !HasPort(net, 0, ev.port) then s.(crashed := true)
    else
    s.(threads := s.threads[0 := th.(task := EventTask(net, th.loop.epoch, ev), loop := loop)],
       epochs := if ev.SourceCommit? then s.epochs + [Epoch(th.loop.epoch, ev.info)] else s.epochs)
  }

  ghost function Apply(net: Net, s: State, a: Action): State
    requires Wired(net) && Shape(net, s) && Enabled(net, s, a)
  {
    match a
    case DoSend(t) => SendStep(net, s, t)
    case DoReceive(t, i) => ReceiveStep(net, s, t, i)
    case DoPoll(_) => s.(crashed := true)
    case DoEvent(ev) => EventStep(net, s, ev)
  }
}
