/** What every step of the running pipeline keeps: each channel carries the source's commits in order and
    then Terminate, and every thread's counters agree with its channels. */
module Protocol {
  import opened Wrappers
  import opened Messages
  import opened Sets
  import opened ReceiverLoop
  import opened Network

  // ---------------------------------------------------------------- streams

  /** The number of commits among the first k messages. */
  function Commits(h: seq<Message>, k: nat): nat
    requires k <= |h|
  {
    if k == 0 then 0 else Commits(h, k - 1) + if h[k - 1].Commit? then 1 else 0
  }

  function AllCommits(h: seq<Message>): nat {
    Commits(h, |h|)
  }

  /** Is Terminate the last of the first k messages? */
  predicate Ended(h: seq<Message>, k: nat)
    requires k <= |h|
  {
    0 < k && h[k - 1].Terminate?
  }

  /** A message that follows c commits on its channel: commits come in the source's order, and
      everything else belongs to the epoch that the next commit closes. */
  predicate Fits(m: Message, c: nat, epochs: seq<Epoch>, initial: nat) {
    match m
    case Op(_, tag) => tag == initial + c
    case Snapshotting(_, tag) => tag == initial + c
    case Commit(epoch) => c < |epochs| && epoch == epochs[c]
    case Terminate => true
  }

  ghost predicate FitsAt(h: seq<Message>, k: nat, epochs: seq<Epoch>, initial: nat)
    requires k < |h|
  {
    Fits(h[k], Commits(h, k), epochs, initial) && (h[k].Terminate? ==> k == |h| - 1)
  }

  ghost predicate Disciplined(h: seq<Message>, epochs: seq<Epoch>, initial: nat) {
    forall k: nat :: k < |h| ==> FitsAt(h, k, epochs, initial)
  }

  lemma {:induction false} CommitsAppend(h: seq<Message>, m: Message, k: nat)
    requires k <= |h|
    ensures Commits(h + [m], k) == Commits(h, k)
  {
    if k > 0 {
      CommitsAppend(h, m, k - 1);
    }
  }

  lemma AllCommitsAppend(h: seq<Message>, m: Message)
    ensures AllCommits(h + [m]) == AllCommits(h) + if m.Commit? then 1 else 0
  {
    CommitsAppend(h, m, |h|);
  }

  lemma {:induction false} CommitsMonotone(h: seq<Message>, j: nat, k: nat)
    requires j <= k <= |h|
    ensures Commits(h, j) <= Commits(h, k)
  {
    if j < k {
      CommitsMonotone(h, j, k - 1);
    }
  }

  // ---------------------------------------------------------------- the invariant

  /** Everything a thread at `epoch` has decided was sent, and the channel is still open. */
  ghost predicate UpToDate(initial: nat, epoch: nat, h: seq<Message>) {
    initial + AllCommits(h) == epoch && !Ended(h, |h|)
  }

  /** The j-th sender of a thread, whose history is h: while the thread broadcasts a commit, the commit is
      the last message on the senders the loop is past, and the others are one commit behind; while it
      broadcasts Terminate, exactly the senders the loop is past are closed. */
  ghost predicate OutOk(initial: nat, epoch: nat, task: Task, j: nat, h: seq<Message>) {
    if task.Broadcast? && task.msg.Commit? then
      if j < task.next then initial + AllCommits(h) == epoch && 0 < |h| && h[|h| - 1].Commit?
      else initial + AllCommits(h) + 1 == epoch && !Ended(h, |h|)
    else if task.Broadcast? && task.msg.Terminate? then
      initial + AllCommits(h) == epoch && (Ended(h, |h|) <==> j < task.next)
    else
      UpToDate(initial, epoch, h)
  }

  /** What a thread is sending belongs to its epoch. */
  ghost predicate TaskOk(initial: nat, loop: Loop, task: Task, outs: seq<nat>, epochs: seq<Epoch>) {
    match task
    case Emit(sends) =>
      && !loop.returned
      && (forall k :: 0 <= k < |sends| ==>
            sends[k].edge in outs && sends[k].msg.Payload?() && sends[k].msg.tag == loop.epoch)
    case Broadcast(msg, next) =>
      && next <= |outs|
      && (loop.returned <==> msg.Terminate?)
      && !msg.Op?
      && (msg.Snapshotting? ==> msg.tag == loop.epoch)
      && (msg.Commit? ==>
            && initial < loop.epoch <= initial + |epochs|
            && msg.epoch == epochs[loop.epoch - initial - 1])
  }

  /** The sending side of a thread. */
  ghost predicate SenderOk(net: Net, s: State, t: nat)
    requires Wired(net) && Shape(net, s) && t < |s.threads|
  {
    var th := s.threads[t];
    && TaskOk(net.initialEpoch, th.loop, th.task, net.outs[t], s.epochs)
    && (forall j :: 0 <= j < |net.outs[t]| ==>
          OutOk(net.initialEpoch, th.loop.epoch, th.task, j, s.hist[net.outs[t][j]]))
  }

  /** The ports that have delivered the commit of the current epoch. */
  ghost function Committed(l: Loop): set<nat> {
    set i | i in Below(|l.ports|) && l.ports[i] == Open && i !in l.select
  }

  /** Port i agrees with the first k messages of its channel's history h, which were received. */
  ghost predicate PortOk(initial: nat, l: Loop, i: nat, h: seq<Message>, k: nat)
    requires i < |l.ports| && k <= |h|
  {
    if l.ports[i] == Terminated then
      i !in l.select && Ended(h, k) && initial + Commits(h, k) == l.epoch
    else
      !Ended(h, k) && initial + Commits(h, k) == if i in l.select then l.epoch else l.epoch + 1
  }

  ghost predicate ReceiverOk(net: Net, s: State, t: nat)
    requires Wired(net) && Shape(net, s) && t < |s.threads|
  {
    var l := s.threads[t].loop;
    && net.initialEpoch <= l.epoch <= net.initialEpoch + |s.epochs|
    && (forall i :: 0 <= i < |net.ins[t]| ==>
          PortOk(net.initialEpoch, l, i, s.hist[net.ins[t][i]], s.recvd[net.ins[t][i]]))
    && l.select <= Below(|l.ports|)
    && (0 < t ==> l.commits == |Committed(l)| < |l.ports|)
    && (0 < t ==> (l.returned <==> AllTerminated(l.ports)))
    && (l.returned ==> s.threads[0].loop.returned && l.epoch == s.threads[0].loop.epoch)
  }

  ghost predicate EpochsOk(net: Net, s: State)
    requires Wired(net) && Shape(net, s)
  {
    && s.threads[0].loop.epoch == net.initialEpoch + |s.epochs|
    && (forall k :: 0 <= k < |s.epochs| ==> s.epochs[k].id == net.initialEpoch + k)
  }

  ghost predicate Inv(net: Net, s: State) {
    && Wired(net) && Shape(net, s) && !s.crashed
    && EpochsOk(net, s)
    && (forall e :: 0 <= e < |s.hist| ==> Disciplined(s.hist[e], s.epochs, net.initialEpoch))
    && (forall t :: 0 <= t < |s.threads| ==> SenderOk(net, s, t))
    && (forall t :: 0 <= t < |s.threads| ==> ReceiverOk(net, s, t))
  }

  lemma InitThread(net: Net, capacity: nat, t: nat)
    requires Wired(net) && t < |net.ins|
    ensures Init(net, capacity).threads[t]
            == Thread(Start(|net.ins[t]|, net.initialEpoch), net.initial(t), Emit([]), [])
    ensures Committed(Init(net, capacity).threads[t].loop) == {}
  {
    assert Committed(Start(|net.ins[t]|, net.initialEpoch)) == {};
  }

  lemma InitOk(net: Net, capacity: nat)
    requires Wired(net) && 0 < capacity
    ensures Inv(net, Init(net, capacity))
  {
    var s := Init(net, capacity);
    assert forall e :: 0 <= e < |s.hist| ==> s.hist[e] == [];
    InitThread(net, capacity, 0);
    forall t | 0 <= t < |s.threads|
      ensures |s.threads[t].loop.ports| == |net.ins[t]|
    {
      InitThread(net, capacity, t);
    }
    assert Shape(net, s);
    forall t | 0 <= t < |s.threads|
      ensures SenderOk(net, s, t) && ReceiverOk(net, s, t)
    {
      InitSides(net, capacity, t);
    }
  }

  lemma InitSides(net: Net, capacity: nat, t: nat)
    requires Wired(net) && Shape(net, Init(net, capacity)) && t < |net.ins|
    ensures SenderOk(net, Init(net, capacity), t) && ReceiverOk(net, Init(net, capacity), t)
  {
    InitThread(net, capacity, t);
    InitThread(net, capacity, 0);
  }

  // ---------------------------------------------------------------- consequences of the invariant

  /** A thread with nothing left to send is up to date on all its senders. */
  lemma IdleUpToDate(net: Net, s: State, t: nat)
    requires Inv(net, s) && t < |s.threads| && IdleThread(net, s, t) && !s.threads[t].loop.returned
    ensures forall j :: 0 <= j < |net.outs[t]| ==>
              UpToDate(net.initialEpoch, s.threads[t].loop.epoch, s.hist[net.outs[t][j]])
  {
    assert SenderOk(net, s, t);
  }

  /** No channel is ahead of the source, and a channel is closed only after its sender and the source
      have decided to terminate, at the source's last epoch. */
  lemma EdgeBounds(net: Net, s: State, e: nat)
    requires Inv(net, s) && e < |s.hist|
    ensures net.initialEpoch + AllCommits(s.hist[e]) <= s.threads[net.edges[e].src].loop.epoch
    ensures s.threads[net.edges[e].src].loop.epoch <= s.threads[0].loop.epoch
    ensures Ended(s.hist[e], |s.hist[e]|) ==>
              && s.threads[net.edges[e].src].loop.returned && s.threads[0].loop.returned
              && net.initialEpoch + AllCommits(s.hist[e]) == s.threads[0].loop.epoch
  {
    var t := net.edges[e].src;
    var j :| 0 <= j < |net.outs[t]| && net.outs[t][j] == e;
    assert SenderOk(net, s, t) && ReceiverOk(net, s, t);
  }

  lemma EndedIsWhole(h: seq<Message>, k: nat, epochs: seq<Epoch>, initial: nat)
    requires Disciplined(h, epochs, initial) && k <= |h| && Ended(h, k)
    ensures k == |h|
  {
    assert FitsAt(h, k - 1, epochs, initial);
  }

  /** Once a port has terminated, no port can have delivered a further commit. */
  lemma TerminatedMeansAligned(net: Net, s: State, t: nat, i: nat, j: nat)
    requires Inv(net, s) && 0 < t < |s.threads| && i < |net.ins[t]| && j < |net.ins[t]|
    requires s.threads[t].loop.ports[i] == Terminated
    ensures s.threads[t].loop.ports[j] == Open ==> j in s.threads[t].loop.select
  {
    assert ReceiverOk(net, s, t);
    var e, f := net.ins[t][i], net.ins[t][j];
    EndedIsWhole(s.hist[e], s.recvd[e], s.epochs, net.initialEpoch);
    EdgeBounds(net, s, e);
    EdgeBounds(net, s, f);
    CommitsMonotone(s.hist[f], s.recvd[f], |s.hist[f]|);
  }

  /** The select set is never empty before the loop returns, so `ready()` does not panic. */
  lemma SelectNeverEmpty(net: Net, s: State, t: nat)
    requires Inv(net, s) && 0 < t < |s.threads| && !s.threads[t].loop.returned
    ensures s.threads[t].loop.select != {}
  {
    var l := s.threads[t].loop;
    assert ReceiverOk(net, s, t);
    if l.select == {} {
      var i :| 0 <= i < |l.ports| && l.ports[i] == Open;
      if j :| 0 <= j < |l.ports| && l.ports[j] == Terminated {
        TerminatedMeansAligned(net, s, t, j, i);
      } else {
        assert Committed(l) == Below(|l.ports|);
        SizeBelow(|l.ports|);
      }
    }
  }
}
