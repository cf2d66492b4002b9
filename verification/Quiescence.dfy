/** Deadlock freedom with bounded channels: when no thread can step, everything sent has been received
    and handled, all threads have committed the same epochs, and after a shutdown all have returned. */
module Quiescence {
  import opened Wrappers
  import opened Messages
  import opened ReceiverLoop
  import opened Network
  import opened Protocol
  import opened Preservation

  /** No thread can take a step; only a new event from the sources could. */
  ghost predicate Quiescent(net: Net, s: State)
    requires Wired(net) && Shape(net, s)
  {
    forall a: Action :: !a.DoEvent? ==> !Enabled(net, s, a)
  }

  ghost predicate Stuck(net: Net, s: State) {
    Inv(net, s) && Quiescent(net, s)
  }

  /** Thread t and all later ones have nothing to do. */
  ghost predicate StuckFrom(net: Net, s: State, t: nat) {
    Inv(net, s) && forall a: Action :: !a.DoEvent? && t <= a.thread ==> !Enabled(net, s, a)
  }

  /** Every sender of a thread has carried every commit that another of its senders has moved past. */
  lemma SendersInStep(net: Net, s: State, e: nat, p: nat, g: nat)
    requires Inv(net, s) && e < |s.hist| && g < |s.hist| && net.edges[e].src == net.edges[g].src
    requires p < |s.hist[e]|
    ensures Commits(s.hist[e], p) <= AllCommits(s.hist[g])
  {
    var t := net.edges[e].src;
    var th, outs := s.threads[t], net.outs[t];
    assert SenderOk(net, s, t);
    var i :| 0 <= i < |outs| && outs[i] == e;
    var j :| 0 <= j < |outs| && outs[j] == g;
    assert OutOk(net.initialEpoch, th.loop.epoch, th.task, i, s.hist[e]);
    assert OutOk(net.initialEpoch, th.loop.epoch, th.task, j, s.hist[g]);
    CommitsMonotone(s.hist[e], p, |s.hist[e]| - 1);
  }

  /** A port whose channel still has messages is open, and its thread has not returned. */
  lemma PendingPort(net: Net, s: State, e: nat) returns (i: nat)
    requires Inv(net, s) && e < |s.hist| && s.recvd[e] < |s.hist[e]|
    ensures var m := net.edges[e].dst;
            && i < |net.ins[m]| && net.ins[m][i] == e && s.threads[m].loop.ports[i] == Open
            && PortOk(net.initialEpoch, s.threads[m].loop, i, s.hist[e], s.recvd[e])
            && !s.threads[m].loop.returned
  {
    var m := net.edges[e].dst;
    i :| 0 <= i < |net.ins[m]| && net.ins[m][i] == e;
    assert ReceiverOk(net, s, m);
    assert PortOk(net.initialEpoch, s.threads[m].loop, i, s.hist[e], s.recvd[e]);
    if s.threads[m].loop.ports[i] == Terminated {
      EndedIsWhole(s.hist[e], s.recvd[e], s.epochs, net.initialEpoch);
    }
  }

  /** A thread that waits for input waits for a channel that has carried exactly its epoch. */
  lemma WaitsForLaggard(net: Net, s: State, m: nat) returns (f: nat)
    requires StuckFrom(net, s, m) && 0 < m < |s.threads| && IdleThread(net, s, m) && !s.threads[m].loop.returned
    ensures f < |s.hist| && net.edges[f].dst == m
    ensures net.initialEpoch + AllCommits(s.hist[f]) == s.threads[m].loop.epoch
  {
    SelectNeverEmpty(net, s, m);
    var l := s.threads[m].loop;
    var i :| i in l.select;
    assert ReceiverOk(net, s, m);
    f := net.ins[m][i];
    assert PortOk(net.initialEpoch, l, i, s.hist[f], s.recvd[f]);
    assert !Enabled(net, s, DoReceive(m, i));
  }

  /** A thread that is blocked in a send, while no later thread can step, has moved all its senders past the slowest
      channel of the DAG. */
  lemma {:induction false} BlockedIsAhead(net: Net, s: State, k: nat, t: nat, g: nat)
    requires StuckFrom(net, s, t) && t < |s.threads| && !IdleThread(net, s, t)
    requires forall e :: 0 <= e < |s.hist| ==> k <= AllCommits(s.hist[e])
    requires g < |s.hist| && net.edges[g].src == t
    ensures k < AllCommits(s.hist[g])
    decreases |s.threads| - t
  {
    var e := BlockedOn(net, s, t);
    var i := PendingPort(net, s, e);
    var m := net.edges[e].dst;
    if IdleThread(net, s, m) {
      var f := WaitsForLaggard(net, s, m);
      assert !Enabled(net, s, DoReceive(m, i));
    } else {
      var f := BlockedOn(net, s, m);
      BlockedIsAhead(net, s, k, m, f);
      EdgeBounds(net, s, f);
    }
    SendersInStep(net, s, e, s.recvd[e], g);
  }

  /** The channel a thread is blocked on is full, hence not empty. */
  lemma BlockedOn(net: Net, s: State, t: nat) returns (e: nat)
    requires StuckFrom(net, s, t) && t < |s.threads| && !IdleThread(net, s, t)
    ensures e < |s.hist| && net.edges[e].src == t && s.recvd[e] < |s.hist[e]|
  {
    assert SenderOk(net, s, t);
    e := NextSend(net.outs[t], s.threads[t].task).edge;
    assert e in net.outs[t];
    assert !Enabled(net, s, DoSend(t));
  }

  /** The slowest channel carries all the commits the source has decided. */
  lemma {:induction false} SlowestIsComplete(net: Net, s: State, e: nat)
    requires Stuck(net, s) && e < |s.hist|
    requires forall f :: 0 <= f < |s.hist| ==> AllCommits(s.hist[e]) <= AllCommits(s.hist[f])
    ensures AllCommits(s.hist[e]) == |s.epochs|
    decreases net.edges[e].src
  {
    var t := net.edges[e].src;
    if !IdleThread(net, s, t) {
      BlockedIsAhead(net, s, AllCommits(s.hist[e]), t, e);
    } else {
      var j :| 0 <= j < |net.outs[t]| && net.outs[t][j] == e;
      assert SenderOk(net, s, t) && ReceiverOk(net, s, t);
      assert OutOk(net.initialEpoch, s.threads[t].loop.epoch, s.threads[t].task, j, s.hist[e]);
      if 0 < t && !s.threads[t].loop.returned {
        var f := WaitsForLaggard(net, s, t);
        SlowestIsComplete(net, s, f);
      }
    }
  }

  lemma {:induction false} Slowest(hist: seq<seq<Message>>, n: nat) returns (e: nat)
    requires 0 < n <= |hist|
    ensures e < n && forall f :: 0 <= f < n ==> AllCommits(hist[e]) <= AllCommits(hist[f])
  {
    if n == 1 {
      e := 0;
    } else {
      e := Slowest(hist, n - 1);
      if AllCommits(hist[n - 1]) < AllCommits(hist[e]) {
        e := n - 1;
      }
    }
  }

  lemma AllComplete(net: Net, s: State, e: nat)
    requires Stuck(net, s) && e < |s.hist|
    ensures AllCommits(s.hist[e]) == |s.epochs|
  {
    var f := Slowest(s.hist, |s.hist|);
    SlowestIsComplete(net, s, f);
    EdgeBounds(net, s, e);
  }

  lemma NobodyBlocked(net: Net, s: State, t: nat)
    requires Stuck(net, s) && t < |s.threads|
    ensures IdleThread(net, s, t)
  {
    if !IdleThread(net, s, t) {
      var e := BlockedOn(net, s, t);
      forall f | 0 <= f < |s.hist|
        ensures AllCommits(s.hist[f]) == |s.epochs|
      {
        AllComplete(net, s, f);
      }
      BlockedIsAhead(net, s, |s.epochs|, t, e);
    }
  }

  lemma AllAtSourceEpoch(net: Net, s: State, t: nat)
    requires Stuck(net, s) && t < |s.threads|
    ensures s.threads[t].loop.epoch == s.threads[0].loop.epoch
  {
    NobodyBlocked(net, s, t);
    assert ReceiverOk(net, s, t);
    if 0 < t && !s.threads[t].loop.returned {
      var f := WaitsForLaggard(net, s, t);
      AllComplete(net, s, f);
    }
  }

  lemma NothingQueued(net: Net, s: State, e: nat)
    requires Stuck(net, s) && e < |s.hist|
    ensures s.recvd[e] == |s.hist[e]|
  {
    if s.recvd[e] < |s.hist[e]| {
      var i := PendingPort(net, s, e);
      var m := net.edges[e].dst;
      NobodyBlocked(net, s, m);
      assert !Enabled(net, s, DoReceive(m, i));
      AllComplete(net, s, e);
      CommitsMonotone(s.hist[e], s.recvd[e], |s.hist[e]|);
      AllAtSourceEpoch(net, s, m);
    }
  }

  lemma {:induction false} AllReturned(net: Net, s: State, t: nat)
    requires Stuck(net, s) && t < |s.threads| && s.threads[0].loop.returned
    ensures s.threads[t].loop.returned
  {
    if 0 < t {
      assert ReceiverOk(net, s, t);
      forall i | 0 <= i < |net.ins[t]|
        ensures s.threads[t].loop.ports[i] == Terminated
      {
        var e := net.ins[t][i];
        var u := net.edges[e].src;
        AllReturned(net, s, u);
        NobodyBlocked(net, s, u);
        NothingQueued(net, s, e);
        assert SenderOk(net, s, u);
        var j :| 0 <= j < |net.outs[u]| && net.outs[u][j] == e;
        assert OutOk(net.initialEpoch, s.threads[u].loop.epoch, s.threads[u].task, j, s.hist[e]);
        assert PortOk(net.initialEpoch, s.threads[t].loop, i, s.hist[e], s.recvd[e]);
      }
    }
  }

  /** Everything sent was received, nothing is left to send, all threads stand at the source's epoch, and
      they have all returned if the source has shut down. */
  ghost predicate Drained(net: Net, s: State)
    requires Wired(net) && Shape(net, s)
  {
    && (forall e :: 0 <= e < |s.hist| ==> Queue(s, e) == [])
    && (forall t :: 0 <= t < |s.threads| ==> IdleThread(net, s, t))
    && (forall t :: 0 <= t < |s.threads| ==> s.threads[t].loop.epoch == net.initialEpoch + |s.epochs|)
    && (s.threads[0].loop.returned ==> forall t :: 0 <= t < |s.threads| ==> s.threads[t].loop.returned)
  }

  lemma StuckIsDrained(net: Net, s: State)
    requires Stuck(net, s)
    ensures Drained(net, s)
  {
    forall e | 0 <= e < |s.hist|
      ensures Queue(s, e) == []
    {
      NothingQueued(net, s, e);
    }
    forall t | 0 <= t < |s.threads|
      ensures IdleThread(net, s, t) && s.threads[t].loop.epoch == net.initialEpoch + |s.epochs|
      ensures s.threads[0].loop.returned ==> s.threads[t].loop.returned
    {
      NobodyBlocked(net, s, t);
      AllAtSourceEpoch(net, s, t);
      if s.threads[0].loop.returned {
        AllReturned(net, s, t);
      }
    }
  }

  /** Deadlock freedom: in every reachable state some thread can step, or the pipeline is drained, or the last step
      forwarded to an unconnected port. */
  lemma NoDeadlock(net: Net, capacity: nat, acts: seq<Action>)
    requires Wired(net) && 0 < capacity && Exec(net, capacity, acts).Some?
    ensures var s := Exec(net, capacity, acts).value;
            && Shape(net, s)
            && if s.crashed then EndsMisrouted(net, capacity, acts)
               else (exists a: Action :: !a.DoEvent? && Enabled(net, s, a)) || Drained(net, s)
  {
    ReachableInv(net, capacity, acts);
    var s := Exec(net, capacity, acts).value;
    if !s.crashed && Quiescent(net, s) {
      StuckIsDrained(net, s);
    }
  }
}
