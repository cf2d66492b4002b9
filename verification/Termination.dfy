/** Without new source events every run is finite, and it ends with the pipeline drained. */
module Termination {
  import opened Wrappers
  import opened Messages
  import opened ReceiverLoop
  import opened Network
  import opened Protocol
  import opened Preservation
  import opened Quiescence

  /** Messages that wait in the given channels. */
  ghost function Backlog(s: State, es: seq<nat>): nat
    requires |s.hist| == |s.recvd|
    requires forall k :: 0 <= k < |es| ==> es[k] < |s.hist| && s.recvd[es[k]] <= |s.hist[es[k]]|
  {
    if es == [] then 0 else |s.hist[es[0]]| - s.recvd[es[0]] + Backlog(s, es[1..])
  }

  /** Sends that a task still has to do. */
  ghost function Remaining(outs: seq<nat>, task: Task): nat {
    match task
    case Emit(sends) => |sends|
    case Broadcast(_, next) => if next < |outs| then |outs| - next else 0
  }

  ghost predicate Internal(net: Net, s: State, a: Action, s': State)
    requires Wired(net)
  {
    Shape(net, s) && !a.DoEvent? && Enabled(net, s, a) && s' == Apply(net, s, a)
  }

  ghost function InBacklog(net: Net, s: State, t: nat): nat
    requires Wired(net) && Shape(net, s) && t < |s.threads|
  {
    Backlog(s, net.ins[t])
  }

  ghost function Load(net: Net, s: State, t: nat): nat
    requires Wired(net) && Shape(net, s) && t < |s.threads|
  {
    Remaining(net.outs[t], s.threads[t].task)
  }

  lemma {:induction false} BacklogFrame(s: State, s': State, es: seq<nat>)
    requires |s.hist| == |s.recvd| == |s'.hist| == |s'.recvd|
    requires forall k :: 0 <= k < |es| ==> es[k] < |s.hist| && s.recvd[es[k]] <= |s.hist[es[k]]|
    requires forall k :: 0 <= k < |es| ==> s'.hist[es[k]] == s.hist[es[k]] && s'.recvd[es[k]] == s.recvd[es[k]]
    ensures Backlog(s', es) == Backlog(s, es)
  {
    if es != [] {
      BacklogFrame(s, s', es[1..]);
    }
  }

  lemma {:induction false} BacklogReceive(s: State, s': State, es: seq<nat>, i: nat)
    requires |s.hist| == |s.recvd| == |s'.hist| == |s'.recvd| && i < |es| && NoDuplicates(es)
    requires forall k :: 0 <= k < |es| ==> es[k] < |s.hist| && s.recvd[es[k]] <= |s.hist[es[k]]|
    requires s'.hist == s.hist && s.recvd[es[i]] < |s.hist[es[i]]|
    requires s'.recvd == s.recvd[es[i] := s.recvd[es[i]] + 1]
    ensures Backlog(s', es) == Backlog(s, es) - 1
  {
    if i == 0 {
      BacklogFrame(s, s', es[1..]);
    } else {
      BacklogReceive(s, s', es[1..], i - 1);
    }
  }

  lemma ReceiveEffect(net: Net, s: State, t: nat, i: nat, u: nat)
    requires Receives(net, s, t, i) && u < |s.threads|
    ensures var s' := ReceiveStep(net, s, t, i);
            && Shape(net, s')
            && (u == t ==> InBacklog(net, s', u) < InBacklog(net, s, u))
            && (u != t ==> InBacklog(net, s', u) == InBacklog(net, s, u) && Load(net, s', u) == Load(net, s, u))
  {
    ReceiveKeepsShape(net, s, t, i);
    ReceiveNeverPanics(net, s, t, i);
    var s' := ReceiveStep(net, s, t, i);
    if u == t {
      BacklogReceive(s, s', net.ins[t], i);
    } else {
      BacklogFrame(s, s', net.ins[u]);
    }
  }

  lemma SendEffect(net: Net, s: State, t: nat, u: nat)
    requires CanSend(net, s, t) && u <= t
    ensures var s' := SendStep(net, s, t);
            && Shape(net, s')
            && InBacklog(net, s', u) == InBacklog(net, s, u)
            && (u == t ==> Load(net, s', u) < Load(net, s, u))
            && (u != t ==> Load(net, s', u) == Load(net, s, u))
  {
    SendKeepsShape(net, s, t);
    var j := SendTarget(net, s, t);
    assert net.edges[net.outs[t][j]].dst > t;
    BacklogFrame(s, SendStep(net, s, t), net.ins[u]);
  }

  /** A step of thread t or of a later one never adds to the work of thread t, and its own reduce it. */
  lemma StepEffect(net: Net, s: State, a: Action, s': State, t: nat)
    requires Inv(net, s) && Internal(net, s, a, s') && !s'.crashed && t < |s.threads| && t <= a.thread
    ensures Inv(net, s') && s'.threads[0].loop == s.threads[0].loop
    ensures a.thread == t ==> InBacklog(net, s', t) < InBacklog(net, s, t) ||
                              (InBacklog(net, s', t) == InBacklog(net, s, t) && Load(net, s', t) < Load(net, s, t))
    ensures a.thread != t ==> InBacklog(net, s', t) == InBacklog(net, s, t) && Load(net, s', t) == Load(net, s, t)
  {
    StepKeepsInv(net, s, a);
    match a
    case DoSend(u) => SendEffect(net, s, u, t);
    case DoReceive(u, i) => ReceiveEffect(net, s, u, i, t);
    case DoPoll(u) => SelectNeverEmpty(net, s, u);
  }

  // ---------------------------------------------------------------- infinite runs

  /** From a state that satisfies the invariant on, a step each time, and never a source event. */
  ghost predicate InfiniteRun(net: Net, states: nat -> State, acts: nat -> Action)
  {
    && Wired(net) && Inv(net, states(0))
    && forall i: nat :: Internal(net, states(i), acts(i), states(i + 1))
  }

  /** A step after which the run has not failed keeps the invariant. */
  lemma GoesOn(net: Net, s: State, a: Action, s': State)
    requires Inv(net, s) && Internal(net, s, a, s') && !s'.crashed
    ensures Inv(net, s')
  {
    StepKeepsInv(net, s, a);
  }

  lemma {:induction false} RunKeepsInv(net: Net, states: nat -> State, acts: nat -> Action, i: nat)
    requires InfiniteRun(net, states, acts)
    ensures Inv(net, states(i))
  {
    if i > 0 {
      RunKeepsInv(net, states, acts, i - 1);
      assert Internal(net, states(i - 1), acts(i - 1), states(i - 1 + 1));
      assert Internal(net, states(i), acts(i), states(i + 1));
      GoesOn(net, states(i - 1), acts(i - 1), states(i));
    }
  }

  /** From step n on, only threads t and later ones step. */
  ghost predicate OnlyFrom(acts: nat -> Action, n: nat, t: nat) {
    forall i: nat :: n <= i && !acts(i).DoEvent? ==> t <= acts(i).thread
  }

  ghost predicate NotMore(b': nat, l': nat, b: nat, l: nat) {
    b' < b || (b' == b && l' <= l)
  }

  ghost predicate NoMoreWork(net: Net, s: State, s': State, t: nat) {
    && Inv(net, s) && Inv(net, s') && t < |net.ins|
    && NotMore(InBacklog(net, s', t), Load(net, s', t), InBacklog(net, s, t), Load(net, s, t))
  }

  lemma {:induction false} WorkNeverGrows(net: Net, states: nat -> State, acts: nat -> Action, t: nat, n: nat, i: nat)
    requires InfiniteRun(net, states, acts) && OnlyFrom(acts, n, t) && n <= i && t < |net.ins|
    ensures NoMoreWork(net, states(n), states(i), t)
  {
    RunKeepsInv(net, states, acts, n);
    if n < i {
      WorkNeverGrows(net, states, acts, t, n, i - 1);
      RunStep(net, states, acts, t, n, i - 1);
      assert i - 1 + 1 == i;
      NoMoreWorkChains(net, states(n), states(i - 1), states(i), t);
    }
  }

  lemma NoMoreWorkChains(net: Net, a: State, b: State, c: State, t: nat)
    requires NoMoreWork(net, a, b, t) && NoMoreWork(net, b, c, t)
    ensures NoMoreWork(net, a, c, t)
  {
  }

  lemma RunStep(net: Net, states: nat -> State, acts: nat -> Action, t: nat, n: nat, i: nat)
    requires InfiniteRun(net, states, acts) && OnlyFrom(acts, n, t) && n <= i && t < |net.ins|
    ensures NoMoreWork(net, states(i), states(i + 1), t)
  {
    RunKeepsInv(net, states, acts, i);
    RunKeepsInv(net, states, acts, i + 1);
    assert Internal(net, states(i), acts(i), states(i + 1));
    StepEffect(net, states(i), acts(i), states(i + 1), t);
  }

  /** If only threads t and later ones step from n on, then thread t steps finitely often. */
  lemma {:induction false} Settles(net: Net, states: nat -> State, acts: nat -> Action, t: nat, n: nat)
    returns (n': nat)
    requires InfiniteRun(net, states, acts) && OnlyFrom(acts, n, t) && t < |net.ins|
    requires Inv(net, states(n))
    ensures OnlyFrom(acts, n', t + 1)
    decreases InBacklog(net, states(n), t), Load(net, states(n), t)
  {
    if i: nat :| n <= i && !acts(i).DoEvent? && acts(i).thread == t {
      WorkNeverGrows(net, states, acts, t, n, i);
      assert Internal(net, states(i), acts(i), states(i + 1));
      RunKeepsInv(net, states, acts, i + 1);
      StepEffect(net, states(i), acts(i), states(i + 1), t);
      n' := Settles(net, states, acts, t, i + 1);
    } else {
      n' := n;
    }
  }

  lemma {:induction false} AllSettle(net: Net, states: nat -> State, acts: nat -> Action, t: nat) returns (n: nat)
    requires InfiniteRun(net, states, acts) && t <= |net.ins|
    ensures OnlyFrom(acts, n, t)
  {
    if t == 0 {
      n := 0;
    } else {
      n := AllSettle(net, states, acts, t - 1);
      RunKeepsInv(net, states, acts, n);
      n := Settles(net, states, acts, t - 1, n);
    }
  }

  lemma SomeThreadSteps(net: Net, states: nat -> State, acts: nat -> Action, n: nat)
    requires InfiniteRun(net, states, acts)
    ensures !acts(n).DoEvent? && acts(n).thread < |net.ins|
  {
    assert Internal(net, states(n), acts(n), states(n + 1));
  }

  /** There is no infinite run without source events. */
  lemma NoInfiniteRun(net: Net, states: nat -> State, acts: nat -> Action)
    requires Wired(net) && Inv(net, states(0))
    ensures exists i: nat :: !Internal(net, states(i), acts(i), states(i + 1))
  {
    if forall i: nat :: Internal(net, states(i), acts(i), states(i + 1)) {
      var n := AllSettle(net, states, acts, |net.ins|);
      SomeThreadSteps(net, states, acts, n);
    }
  }

  /** A run that steps as long as a thread can step. */
  ghost predicate Maximal(net: Net, states: nat -> State, acts: nat -> Action)
    requires Wired(net)
  {
    forall i: nat ::
      || Internal(net, states(i), acts(i), states(i + 1))
      || (states(i + 1) == states(i) && Shape(net, states(i)) && Quiescent(net, states(i)))
  }

  lemma {:induction false} MaximalKeepsInv(net: Net, states: nat -> State, acts: nat -> Action, i: nat)
    requires Wired(net) && Inv(net, states(0)) && Maximal(net, states, acts) && !states(i).crashed
    ensures Inv(net, states(i)) && states(i).threads[0].loop == states(0).threads[0].loop
  {
    if i > 0 {
      assert states(i) == states(i - 1 + 1);
      assert !states(i - 1).crashed;
      MaximalKeepsInv(net, states, acts, i - 1);
      if Internal(net, states(i - 1), acts(i - 1), states(i)) {
        StepEffect(net, states(i - 1), acts(i - 1), states(i), 0);
      }
    }
  }

  /** The i-th step of a run forwards to an unconnected port. */
  ghost predicate MisroutedAt(net: Net, s: State, a: Action)
    requires Wired(net)
  {
    Shape(net, s) && Enabled(net, s, a) && Misrouted(net, s, a)
  }

  /** A maximal run fails only by forwarding to an unconnected port. */
  lemma {:induction false} FailureIsMisrouted(net: Net, states: nat -> State, acts: nat -> Action, i: nat)
    requires Wired(net) && Inv(net, states(0)) && Maximal(net, states, acts) && states(i).crashed
    ensures exists j: nat :: j < i && MisroutedAt(net, states(j), acts(j))
  {
    assert states(i) == states(i - 1 + 1);
    if states(i - 1).crashed {
      FailureIsMisrouted(net, states, acts, i - 1);
    } else {
      MaximalKeepsInv(net, states, acts, i - 1);
      StepKeepsInv(net, states(i - 1), acts(i - 1));
      assert MisroutedAt(net, states(i - 1), acts(i - 1));
    }
  }

  ghost predicate Completed(net: Net, s: State)
    requires Wired(net)
  {
    Shape(net, s) && Drained(net, s) && forall t :: 0 <= t < |s.threads| ==> s.threads[t].loop.returned
  }

  /** Whatever the scheduler does, after a shutdown all threads return with every channel empty, unless a node
      forwards to an unconnected port on the way. */
  lemma EveryRunCompletes(net: Net, capacity: nat, prefix: seq<Action>, states: nat -> State, acts: nat -> Action)
    requires Wired(net) && 0 < capacity && !states(0).crashed
    requires Exec(net, capacity, prefix) == Some(states(0)) && Maximal(net, states, acts)
    requires 0 < |states(0).threads| && states(0).threads[0].loop.returned
    ensures (exists i: nat :: Completed(net, states(i))) || (exists i: nat :: MisroutedAt(net, states(i), acts(i)))
  {
    ReachableInv(net, capacity, prefix);
    assert Unmarked(states(0)) == states(0);
    NoInfiniteRun(net, states, acts);
    var i: nat :| !Internal(net, states(i), acts(i), states(i + 1));
    assert Quiescent(net, states(i));
    if states(i).crashed {
      FailureIsMisrouted(net, states, acts, i);
    } else {
      MaximalKeepsInv(net, states, acts, i);
      StuckIsDrained(net, states(i));
      assert Completed(net, states(i));
    }
  }
}
