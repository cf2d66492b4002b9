/** The snapshot that a thread takes when it commits an epoch is a consistent cut: it has handled exactly
    the operations that the source sent, directly or through other threads, up to that epoch. */
module ConsistentCut {
  import opened Wrappers
  import opened Messages
  import opened ReceiverLoop
  import opened Network
  import opened Protocol
  import opened Preservation

  /** The commits among the first k callbacks. */
  function LogCommits(log: seq<Callback>, k: nat): nat
    requires k <= |log|
  {
    if k == 0 then 0 else LogCommits(log, k - 1) + if log[k - 1].OnCommit? then 1 else 0
  }

  function FromPort(c: Callback, i: nat): Option<Message> {
    if c.OnOp? && c.port == i then Some(Op(c.data, c.tag))
    else if c.OnSnapshotting? && c.port == i then Some(Snapshotting(c.event, c.tag))
    else None
  }

  function Add(ms: seq<Message>, m: Option<Message>): seq<Message> {
    if m.Some? then ms + [m.value] else ms
  }

  /** What the first k callbacks handled from port i. */
  function Handled(log: seq<Callback>, i: nat, k: nat): seq<Message>
    requires k <= |log|
  {
    if k == 0 then [] else Add(Handled(log, i, k - 1), FromPort(log[k - 1], i))
  }

  function Carried(m: Message): Option<Message> {
    if m.Payload?() then Some(m) else None
  }

  /** The operations and snapshotting messages among the first k of a channel. */
  function Payload(h: seq<Message>, k: nat): seq<Message>
    requires k <= |h|
  {
    if k == 0 then [] else Add(Payload(h, k - 1), Carried(h[k - 1]))
  }

  /** A callback that follows c commits: it belongs to the epoch that the next commit closes. */
  predicate CallFits(call: Callback, c: nat, epochs: seq<Epoch>, initial: nat) {
    match call
    case OnOp(_, _, tag) => tag == initial + c
    case OnSnapshotting(_, _, tag) => tag == initial + c
    case OnCommit(epoch) => c < |epochs| && epoch == epochs[c]
    case OnTerminate => true
  }

  ghost predicate CallFitsAt(log: seq<Callback>, k: nat, epochs: seq<Epoch>, initial: nat)
    requires k < |log|
  {
    CallFits(log[k], LogCommits(log, k), epochs, initial) && (log[k].OnTerminate? ==> k == |log| - 1)
  }

  ghost predicate CallsFit(log: seq<Callback>, epochs: seq<Epoch>, initial: nat) {
    forall k: nat :: k < |log| ==> CallFitsAt(log, k, epochs, initial)
  }

  /** The callbacks of a thread: they all fit, there is one commit per epoch, and the thread has returned
      exactly if the last one was `on_terminate`. */
  ghost predicate CallsOk(initial: nat, l: Loop, log: seq<Callback>, epochs: seq<Epoch>) {
    && CallsFit(log, epochs, initial)
    && initial + LogCommits(log, |log|) == l.epoch
    && (l.returned <==> 0 < |log| && log[|log| - 1].OnTerminate?)
  }

  ghost predicate LogOk(net: Net, s: State, t: nat)
    requires Wired(net) && Shape(net, s) && t < |s.threads|
  {
    var th := s.threads[t];
    && CallsOk(net.initialEpoch, th.loop, th.log, s.epochs)
    && (forall i :: 0 <= i < |net.ins[t]| ==>
          Handled(th.log, i, |th.log|) == Payload(s.hist[net.ins[t][i]], s.recvd[net.ins[t][i]]))
  }

  lemma {:induction false} LogAppend(log: seq<Callback>, c: Callback, i: nat, k: nat)
    requires k <= |log|
    ensures LogCommits(log + [c], k) == LogCommits(log, k) && Handled(log + [c], i, k) == Handled(log, i, k)
  {
    if k > 0 {
      LogAppend(log, c, i, k - 1);
    }
  }

  lemma {:induction false} PayloadAppend(h: seq<Message>, m: Message, k: nat)
    requires k <= |h|
    ensures Payload(h + [m], k) == Payload(h, k)
  {
    if k > 0 {
      PayloadAppend(h, m, k - 1);
    }
  }

  lemma SendKeepsLog(net: Net, s: State, t: nat, u: nat)
    requires CanSend(net, s, t) && u < |s.threads| && LogOk(net, s, u)
    ensures Shape(net, SendStep(net, s, t)) && LogOk(net, SendStep(net, s, t), u)
  {
    SendKeepsShape(net, s, t);
    forall i | 0 <= i < |net.ins[u]|
      ensures var s', e := SendStep(net, s, t), net.ins[u][i];
              Payload(s'.hist[e], s'.recvd[e]) == Payload(s.hist[e], s.recvd[e])
    {
      var e := net.ins[u][i];
      PayloadAppend(s.hist[e], NextSend(net.outs[t], s.threads[t].task).msg, s.recvd[e]);
    }
  }

  lemma CallsStillFit(log: seq<Callback>, c: Callback, epochs: seq<Epoch>, initial: nat)
    requires CallsFit(log, epochs, initial)
    requires 0 < |log| ==> !log[|log| - 1].OnTerminate?
    requires CallFits(c, LogCommits(log, |log|), epochs, initial)
    ensures CallsFit(log + [c], epochs, initial)
  {
    forall k: nat | k < |log + [c]|
      ensures CallFitsAt(log + [c], k, epochs, initial)
    {
      LogAppend(log, c, 0, k);
      if k < |log| {
        assert CallFitsAt(log, k, epochs, initial);
      }
    }
  }

  /** What port k has delivered, after a message was received on port i. */
  lemma ReceiveKeepsHandled(l: Loop, log: seq<Callback>, i: nat, m: Message, k: nat, h: seq<Message>, read: nat)
    requires i < |l.ports| && k < |l.ports| && read <= |h| && Receive(l, i, m).Next?
    requires Handled(log, k, |log|) == Payload(h, read)
    requires k == i ==> read < |h| && h[read] == m
    ensures var log' := Extend(log, Receive(l, i, m).call);
            Handled(log', k, |log'|) == Payload(h, if k == i then read + 1 else read)
  {
    var call := Receive(l, i, m).call;
    if call.Some? {
      LogAppend(log, call.value, k, |log|);
    }
  }

  function Extend(log: seq<Callback>, call: Option<Callback>): seq<Callback> {
    if call.Some? then log + [call.value] else log
  }

  lemma ReceiveKeepsCalls(initial: nat, l: Loop, log: seq<Callback>, epochs: seq<Epoch>, i: nat, m: Message)
    requires i < |l.ports| && Receive(l, i, m).Next? && !l.returned && initial <= l.epoch
    requires Fits(m, l.epoch - initial, epochs, initial)
    requires CallsOk(initial, l, log, epochs)
    ensures var r := Receive(l, i, m);
            CallsOk(initial, r.loop, Extend(log, r.call), epochs)
  {
    var r := Receive(l, i, m);
    OnlyCommitsChangeEpoch(l, i, m);
    if r.call.Some? {
      LogAppend(log, r.call.value, 0, |log|);
      CallsStillFit(log, r.call.value, epochs, initial);
    }
  }

  lemma ReceiveStepLog(net: Net, s: State, t: nat, i: nat)
    requires Receives(net, s, t, i)
    ensures var th, s', m := s.threads[t], ReceiveStep(net, s, t, i), Incoming(net, s, t, i);
            && Receive(th.loop, i, m).Next?
            && s'.threads[t].loop == Receive(th.loop, i, m).loop
            && s'.threads[t].log == Extend(th.log, Receive(th.loop, i, m).call)
            && s'.epochs == s.epochs && s'.hist == s.hist
            && s'.recvd == s.recvd[net.ins[t][i] := s.recvd[net.ins[t][i]] + 1]
            && forall u :: 0 <= u < |s.threads| && u != t ==> s'.threads[u] == s.threads[u]
  {
    ReceiveNeverPanics(net, s, t, i);
  }

  lemma ReceiveKeepsOwnLog(net: Net, s: State, t: nat, i: nat, k: nat)
    requires Receives(net, s, t, i) && LogOk(net, s, t) && k < |net.ins[t]|
    ensures var s', e := ReceiveStep(net, s, t, i), net.ins[t][k];
            && Shape(net, s')
            && var log := s'.threads[t].log;
               Handled(log, k, |log|) == Payload(s'.hist[e], s'.recvd[e])
  {
    ReceiveKeepsShape(net, s, t, i);
    ReceiveStepLog(net, s, t, i);
    var e := net.ins[t][k];
    assert e == net.ins[t][i] ==> k == i;
    ReceiveKeepsHandled(s.threads[t].loop, s.threads[t].log, i, Incoming(net, s, t, i), k, s.hist[e], s.recvd[e]);
  }

  lemma ReceiveKeepsLog(net: Net, s: State, t: nat, i: nat, u: nat)
    requires Receives(net, s, t, i) && u < |s.threads| && LogOk(net, s, u)
    ensures Shape(net, ReceiveStep(net, s, t, i)) && LogOk(net, ReceiveStep(net, s, t, i), u)
  {
    ReceiveKeepsShape(net, s, t, i);
    ReceiveStepLog(net, s, t, i);
    if u == t {
      IncomingFits(net, s, t, i);
      ReceiveKeepsCalls(net.initialEpoch, s.threads[t].loop, s.threads[t].log, s.epochs, i, Incoming(net, s, t, i));
      forall k | 0 <= k < |net.ins[t]|
        ensures var s', e := ReceiveStep(net, s, t, i), net.ins[t][k];
                Handled(s'.threads[t].log, k, |s'.threads[t].log|) == Payload(s'.hist[e], s'.recvd[e])
      {
        ReceiveKeepsOwnLog(net, s, t, i, k);
      }
    } else {
      assert forall k :: 0 <= k < |net.ins[u]| ==> net.ins[u][k] != net.ins[t][i];
    }
  }

  lemma EventKeepsLog(net: Net, s: State, ev: Event, u: nat)
    requires CanHandle(net, s, ev) && 0 < u < |s.threads| && LogOk(net, s, u)
    ensures Shape(net, EventStep(net, s, ev)) && LogOk(net, EventStep(net, s, ev), u)
  {
    var s' := EventStep(net, s, ev);
    assert s'.threads[u] == s.threads[u];
    forall k: nat | k < |s.threads[u].log|
      ensures CallFitsAt(s.threads[u].log, k, s'.epochs, net.initialEpoch)
    {
      assert CallFitsAt(s.threads[u].log, k, s.epochs, net.initialEpoch);
    }
  }

  lemma {:induction false} ReachableLogs(net: Net, capacity: nat, acts: seq<Action>, u: nat)
    requires Wired(net) && 0 < capacity && 0 < u < |net.ins|
    ensures Exec(net, capacity, acts).Some? ==>
              && Inv(net, Unmarked(Exec(net, capacity, acts).value))
              && LogOk(net, Exec(net, capacity, acts).value, u)
  {
    ReachableInv(net, capacity, acts);
    if acts == [] {
      InitThread(net, capacity, u);
    } else if Exec(net, capacity, acts).Some? {
      var n := |acts| - 1;
      ReachableLogs(net, capacity, acts[..n], u);
      StepKeepsLog(net, Exec(net, capacity, acts[..n]).value, acts[n], u);
    }
  }

  lemma StepKeepsLog(net: Net, s: State, a: Action, u: nat)
    requires Inv(net, s) && Enabled(net, s, a) && 0 < u < |s.threads| && LogOk(net, s, u)
    ensures Shape(net, Apply(net, s, a)) && LogOk(net, Apply(net, s, a), u)
  {
    StepKeepsInv(net, s, a);
    if !Misrouted(net, s, a) {
      match a
      case DoSend(t) => SendKeepsLog(net, s, t, u);
      case DoReceive(t, i) => ReceiveKeepsLog(net, s, t, i, u);
      case DoPoll(t) => SelectNeverEmpty(net, s, t);
      case DoEvent(ev) => EventKeepsLog(net, s, ev, u);
    }
  }

  // ---------------------------------------------------------------- the cut

  predicate Within(m: Message, last: nat) {
    m.Payload?() ==> m.tag <= last
  }

  /** The messages of the epochs up to `last`. */
  function UpTo(ms: seq<Message>, last: nat): seq<Message> {
    if ms == [] then []
    else
      var n := |ms| - 1;
      UpTo(ms[..n], last) + if Within(ms[n], last) then [ms[n]] else []
  }

  lemma UpToAdd(ms: seq<Message>, m: Option<Message>, last: nat, before: bool)
    requires m.Some? ==> (Within(m.value, last) <==> before)
    ensures UpTo(Add(ms, m), last) == if before then Add(UpTo(ms, last), m) else UpTo(ms, last)
  {
    if m.Some? {
      assert (ms + [m.value])[..|ms|] == ms;
    }
  }

  lemma {:induction false} LogCommitsMonotone(log: seq<Callback>, j: nat, k: nat)
    requires j <= k <= |log|
    ensures LogCommits(log, j) <= LogCommits(log, k)
  {
    if j < k {
      LogCommitsMonotone(log, j, k - 1);
    }
  }

  /** What a callback handles is of an epoch up to that of commit p exactly if it comes before it. */
  lemma CallWithin(log: seq<Callback>, i: nat, p: nat, j: nat, epochs: seq<Epoch>, initial: nat)
    requires CallsFit(log, epochs, initial)
    requires p < |log| && log[p].OnCommit? && j < |log| && FromPort(log[j], i).Some?
    ensures Within(FromPort(log[j], i).value, initial + LogCommits(log, p)) <==> j < p
  {
    assert CallFitsAt(log, j, epochs, initial);
    if j <= p {
      LogCommitsMonotone(log, j, p);
    } else {
      LogCommitsMonotone(log, p + 1, j);
    }
  }

  /** Filtering what was handled by epoch gives what was handled before commit p. */
  lemma {:induction false} HandledUpTo(log: seq<Callback>, i: nat, p: nat, k: nat, epochs: seq<Epoch>, initial: nat)
    requires CallsFit(log, epochs, initial)
    requires p < |log| && log[p].OnCommit? && k <= |log|
    ensures UpTo(Handled(log, i, k), initial + LogCommits(log, p)) == Handled(log, i, if k <= p then k else p)
  {
    if k > 0 {
      HandledUpTo(log, i, p, k - 1, epochs, initial);
      if FromPort(log[k - 1], i).Some? {
        CallWithin(log, i, p, k - 1, epochs, initial);
      }
      UpToAdd(Handled(log, i, k - 1), FromPort(log[k - 1], i), initial + LogCommits(log, p), k - 1 < p);
    }
  }

  /** A payload is of an epoch up to that of commit q exactly if it comes before it. */
  lemma MessageWithin(h: seq<Message>, q: nat, j: nat, epochs: seq<Epoch>, initial: nat)
    requires Disciplined(h, epochs, initial)
    requires q < |h| && h[q].Commit? && j < |h| && h[j].Payload?()
    ensures Within(h[j], initial + Commits(h, q)) <==> j < q
  {
    assert FitsAt(h, j, epochs, initial);
    if j <= q {
      CommitsMonotone(h, j, q);
    } else {
      CommitsMonotone(h, q + 1, j);
    }
  }

  lemma {:induction false} PayloadUpTo(h: seq<Message>, q: nat, k: nat, epochs: seq<Epoch>, initial: nat)
    requires Disciplined(h, epochs, initial)
    requires q < |h| && h[q].Commit? && k <= |h|
    ensures UpTo(Payload(h, k), initial + Commits(h, q)) == Payload(h, if k <= q then k else q)
  {
    if k > 0 {
      var j, last := k - 1, initial + Commits(h, q);
      PayloadUpTo(h, q, j, epochs, initial);
      assert Carried(h[j]).Some? ==> (Within(h[j], last) <==> j < q) by {
        if h[j].Payload?() {
          MessageWithin(h, q, j, epochs, initial);
        }
      }
      UpToAdd(Payload(h, j), Carried(h[j]), last, j < q);
    }
  }

  /** The position of the (c+1)-th commit of a channel. */
  lemma {:induction false} FindCommit(h: seq<Message>, k: nat, c: nat) returns (q: nat)
    requires k <= |h| && c < Commits(h, k)
    ensures q < k && h[q].Commit? && Commits(h, q) == c
  {
    if h[k - 1].Commit? && Commits(h, k - 1) == c {
      q := k - 1;
    } else {
      q := FindCommit(h, k - 1, c);
    }
  }

  /** q is where the channel carries the commit of this epoch. */
  ghost predicate CommitAt(h: seq<Message>, q: nat, epoch: Epoch) {
    q < |h| && h[q] == Commit(epoch)
  }

  /** A thread's commit p and the commit of the same epoch on port i's channel cut at the same place. */
  ghost predicate SameCut(log: seq<Callback>, i: nat, p: nat, h: seq<Message>)
    requires p < |log| && log[p].OnCommit?
  {
    exists q: nat :: CommitAt(h, q, log[p].epoch) && Handled(log, i, p) == Payload(h, q)
  }

  lemma CutOfStream(log: seq<Callback>, i: nat, p: nat, h: seq<Message>, k: nat, epochs: seq<Epoch>, initial: nat)
    requires CallsFit(log, epochs, initial) && Disciplined(h, epochs, initial)
    requires p < |log| && log[p].OnCommit? && k <= |h|
    requires Handled(log, i, |log|) == Payload(h, k)
    requires LogCommits(log, p) < Commits(h, k)
    ensures SameCut(log, i, p, h)
  {
    var q := FindCommit(h, k, LogCommits(log, p));
    assert CallFitsAt(log, p, epochs, initial) && FitsAt(h, q, epochs, initial);
    HandledUpTo(log, i, p, |log|, epochs, initial);
    PayloadUpTo(h, q, k, epochs, initial);
    assert CommitAt(h, q, log[p].epoch);
  }

  lemma CutAtPort(net: Net, s: State, t: nat, p: nat, i: nat)
    requires Inv(net, s) && 0 < t < |s.threads| && LogOk(net, s, t) && i < |net.ins[t]|
    requires p < |s.threads[t].log| && s.threads[t].log[p].OnCommit?
    ensures SameCut(s.threads[t].log, i, p, s.hist[net.ins[t][i]])
  {
    var log, e := s.threads[t].log, net.ins[t][i];
    assert ReceiverOk(net, s, t);
    assert PortOk(net.initialEpoch, s.threads[t].loop, i, s.hist[e], s.recvd[e]);
    LogCommitsMonotone(log, p + 1, |log|);
    CutOfStream(log, i, p, s.hist[e], s.recvd[e], s.epochs, net.initialEpoch);
  }

  /** When thread t committed an epoch, it had handled from each port exactly what that port's channel
      carries before its own commit of this epoch, now and for ever; and each callback belongs to the
      epoch that the next commit of the thread closes. */
  lemma EveryCommitIsACut(net: Net, capacity: nat, acts: seq<Action>, t: nat, p: nat)
    requires Wired(net) && 0 < capacity && Exec(net, capacity, acts).Some? && 0 < t < |net.ins|
    requires var s := Exec(net, capacity, acts).value;
             t < |s.threads| && p < |s.threads[t].log| && s.threads[t].log[p].OnCommit?
    ensures var s := Exec(net, capacity, acts).value;
            && Shape(net, s)
            && var log := s.threads[t].log;
            && LogCommits(log, p) < |s.epochs| && log[p].epoch == s.epochs[LogCommits(log, p)]
            && CallsFit(log, s.epochs, net.initialEpoch)
            && (forall i :: 0 <= i < |net.ins[t]| ==> SameCut(log, i, p, s.hist[net.ins[t][i]]))
  {
    ReachableLogs(net, capacity, acts, t);
    var s := Exec(net, capacity, acts).value;
    assert CallFitsAt(s.threads[t].log, p, s.epochs, net.initialEpoch);
    forall i | 0 <= i < |net.ins[t]|
      ensures SameCut(s.threads[t].log, i, p, s.hist[net.ins[t][i]])
    {
      CutAtPort(net, Unmarked(s), t, p, i);
    }
  }
}
