/** What the sources can rely on, in every interleaving of their calls. */
module EpochAgreement {
  import opened Wrappers
  import opened Sets
  import opened EpochManager

  function StatesOf(q: map<nat, Request>): map<nat, SourceState> {
    map t | t in q :: q[t].state
  }

  predicate AllTerminate(q: map<nat, Request>) {
    forall t :: t in q ==> q[t].terminate
  }

  predicate AnyCommit(q: map<nat, Request>) {
    exists t :: t in q && q[t].commit
  }

  /** The answer to a round is what its requests call for. */
  predicate Honours(q: map<nat, Request>, a: ClosedEpoch) {
    && (a.terminate <==> AllTerminate(q))
    && (a.info.Some? <==> AnyCommit(q))
    && (a.info.Some? ==> a.info.value.states == StatesOf(q))
  }

  /** The rounds among the first k that were committed. */
  function Committed(answers: seq<ClosedEpoch>, k: nat): nat
    requires k <= |answers|
  {
    if k == 0 then 0 else Committed(answers, k - 1) + if answers[k - 1].info.Some? then 1 else 0
  }

  predicate Persisted(a: ClosedEpoch) {
    a.info.Some? && a.info.value.queue
  }

  /** When the last of the first k rounds was persisted that was, or the manager's start. */
  function LastPersisted(answers: seq<ClosedEpoch>, start: int, k: nat): int
    requires k <= |answers|
  {
    if k == 0 then start
    else if Persisted(answers[k - 1]) then answers[k - 1].instant
    else LastPersisted(answers, start, k - 1)
  }

  /** A checkpoint writer is handed out exactly if the round is persisted, checkpoints are written at all, and every
      source can be restarted. */
  predicate WriterDue(o: Options, q: map<nat, Request>, a: ClosedEpoch) {
    Persisted(a) && o.checkpoints && forall t :: t in q ==> q[t].state != NonRestartable
  }

  /** The k-th round: everybody took part, the answer honours the requests, a committed round has the next
      epoch id, and it is persisted exactly if no records are awaited or the interval has passed. */
  ghost predicate RoundOk(o: Options, initial: nat, start: int, n: nat, q: map<nat, Request>,
                          answers: seq<ClosedEpoch>, k: nat)
    requires k < |answers|
  {
    var a := answers[k];
    && q.Keys == Below(n) && Honours(q, a)
    && (a.info.Some? ==> a.info.value.id == initial + Committed(answers, k))
    && (a.info.Some? ==> (a.info.value.writer <==> WriterDue(o, q, a)))
    && (Persisted(a) <==>
          a.info.Some? && (o.maxRecords == 0 || Elapsed(a.instant, LastPersisted(answers, start, k)) >= o.maxInterval))
  }

  ghost predicate Done(s: State, t: nat)
    requires t < |s.results|
  {
    |s.results[t]| == |s.waits|
  }

  predicate InBarrier(pc: Pc) {
    pc.Waiting? || pc.Released?
  }

  /** The threads that have called `wait` in the current round. */
  ghost function Arrived(s: State): set<nat>
    requires |s.pcs| == |s.results|
  {
    set t | t in Below(|s.pcs|) && (InBarrier(s.pcs[t]) || Done(s, t))
  }

  /** The threads that have their answer of the current round. */
  ghost function Confirmed(s: State): set<nat>
    requires |s.pcs| == |s.results|
  {
    set t | t in Below(|s.pcs|) && Done(s, t)
  }

  /** A thread, seen from the current round. */
  ghost predicate ThreadOk(s: State, t: nat)
    requires Shape(s) && t < |s.pcs|
  {
    var last := |s.waits| - 1;
    && (Done(s, t) || |s.results[t]| == last)
    && |s.results[t]| <= |s.answers|
    && s.results[t] == s.answers[..|s.results[t]|]
    && (s.pcs[t].Released? ==> s.waits[last] == |s.pcs|)
    && (if s.m.kind.Closing? then
          !Done(s, t) && (t in s.requests[last] <==> !(s.pcs[t].Outside? || s.pcs[t].Entered?))
        else
          (if Done(s, t) then s.pcs[t].Outside? || s.pcs[t].Entered? else InBarrier(s.pcs[t])))
  }

  ghost predicate KindOk(o: Options, s: State)
    requires Shape(s)
  {
    var last := |s.waits| - 1;
    var q := s.requests[last];
    match s.m.kind
    case Closing(_, shouldTerminate, shouldCommit, states, _) =>
      && |s.answers| == last
      && q.Keys <= Below(|s.pcs|)
      && states == StatesOf(q)
      && (shouldTerminate <==> AllTerminate(q))
      && (shouldCommit <==> AnyCommit(q))
    case Closed(_, _, _, _, _, confirmations) =>
      && |s.answers| == last + 1
      && s.answers[last] == Answer(o, s.m.kind)
      && confirmations == |Confirmed(s)| < |s.pcs|
  }

  /** What has been decided so far, for n sources in the given number of rounds. */
  ghost predicate RoundsOk(o: Options, initial: nat, start: int, n: nat, m: Manager, requests: seq<map<nat, Request>>,
                           answers: seq<ClosedEpoch>, rounds: nat) {
    && m.nextRecord == 0
    && |answers| <= |requests|
    && (forall k: nat :: k < |answers| ==> RoundOk(o, initial, start, n, requests[k], answers, k))
    && 0 <= rounds - 1 <= |answers|
    && m.kind.epochId == initial + Committed(answers, rounds - 1)
    && m.lastPersisted == LastPersisted(answers, start, |answers|)
  }

  ghost predicate Inv(o: Options, initial: nat, start: int, s: State) {
    && Shape(s) && !s.crashed
    && KindOk(o, s)
    && RoundsOk(o, initial, start, |s.pcs|, s.m, s.requests, s.answers, |s.waits|)
    && s.waits[|s.waits| - 1] == |Arrived(s)|
    && (forall t :: 0 <= t < |s.pcs| ==> ThreadOk(s, t))
  }

  lemma InitOk(o: Options, n: nat, initial: nat, now: int)
    requires 0 < n
    ensures Inv(o, initial, now, Init(n, initial, now))
  {
    var s := Init(n, initial, now);
    assert Arrived(s) == {};
  }

  lemma {:induction false} AppendAnswer(answers: seq<ClosedEpoch>, a: ClosedEpoch, start: int, k: nat)
    requires k <= |answers|
    ensures Committed(answers + [a], k) == Committed(answers, k)
    ensures LastPersisted(answers + [a], start, k) == LastPersisted(answers, start, k)
  {
    if k > 0 {
      AppendAnswer(answers, a, start, k - 1);
    }
  }

  lemma EnterKeepsInv(o: Options, initial: nat, start: int, s: State, t: nat, r: Request)
    requires Inv(o, initial, start, s) && Enabled(s, Enter(t, r))
    ensures Inv(o, initial, start, Apply(o, s, Enter(t, r)))
  {
    MoveKeepsInv(o, initial, start, s, t, Entered(r));
  }

  /** Moves of a thread that the round does not notice: into a call, and past the barrier once all have arrived. */
  ghost predicate Unnoticed(s: State, t: nat, pc: Pc)
    requires Shape(s) && t < |s.pcs|
  {
    || (s.pcs[t].Outside? && pc.Entered?)
    || (s.pcs[t].Waiting? && pc == Released(s.pcs[t].round) && s.waits[|s.waits| - 1] == |s.pcs|)
  }

  lemma MoveKeepsThread(s: State, t: nat, pc: Pc, u: nat)
    requires Shape(s) && t < |s.pcs| && u < |s.pcs| && Unnoticed(s, t, pc) && ThreadOk(s, u)
    ensures Shape(s.(pcs := s.pcs[t := pc])) && ThreadOk(s.(pcs := s.pcs[t := pc]), u)
  {
  }

  lemma MoveKeepsSets(s: State, t: nat, pc: Pc)
    requires Shape(s) && t < |s.pcs| && Unnoticed(s, t, pc)
    ensures var s' := s.(pcs := s.pcs[t := pc]); Arrived(s') == Arrived(s) && Confirmed(s') == Confirmed(s)
  {
  }

  lemma MoveKeepsInv(o: Options, initial: nat, start: int, s: State, t: nat, pc: Pc)
    requires Inv(o, initial, start, s) && t < |s.pcs| && Unnoticed(s, t, pc)
    ensures Inv(o, initial, start, s.(pcs := s.pcs[t := pc]))
  {
    var s' := s.(pcs := s.pcs[t := pc]);
    MoveKeepsSets(s, t, pc);
    forall u | 0 <= u < |s'.pcs|
      ensures Shape(s') && ThreadOk(s', u)
    {
      MoveKeepsThread(s, t, pc, u);
    }
  }

  lemma RegisterKeepsKind(q: map<nat, Request>, k: Kind, t: nat, r: Request)
    requires k.Closing? && t !in q
    requires k.states == StatesOf(q) && (k.shouldTerminate <==> AllTerminate(q)) && (k.shouldCommit <==> AnyCommit(q))
    ensures var k', q' := Register(k, t, r), q[t := r];
            && k'.states == StatesOf(q')
            && (k'.shouldTerminate <==> AllTerminate(q')) && (k'.shouldCommit <==> AnyCommit(q'))
  {
    var q' := q[t := r];
    assert q'[t] == r && forall u :: u in q ==> u in q' && q'[u] == q[u];
  }

  lemma RegisterKeepsInv(o: Options, initial: nat, start: int, s: State, t: nat)
    requires Inv(o, initial, start, s) && Enabled(s, DoRegister(t))
    ensures Inv(o, initial, start, Apply(o, s, DoRegister(t)))
  {
    var s' := Apply(o, s, DoRegister(t));
    var last := |s.waits| - 1;
    assert ThreadOk(s, t);
    RegisterKeepsKind(s.requests[last], s.m.kind, t, s.pcs[t].request);
    assert Arrived(s') == Arrived(s);
    forall u | 0 <= u < |s'.pcs|
      ensures ThreadOk(s', u)
    {
      assert ThreadOk(s, u);
    }
    forall k: nat | k < |s'.answers|
      ensures RoundOk(o, initial, start, |s'.pcs|, s'.requests[k], s'.answers, k)
    {
      assert RoundOk(o, initial, start, |s.pcs|, s.requests[k], s.answers, k);
    }
  }

  /** While a thread has not arrived, nobody is past the barrier. */
  lemma NobodyReleased(o: Options, initial: nat, start: int, s: State, t: nat, u: nat)
    requires Inv(o, initial, start, s) && t < |s.pcs| && u < |s.pcs| && t !in Arrived(s)
    ensures !s.pcs[u].Released?
  {
    assert ThreadOk(s, u);
    SizeBelow(|s.pcs|);
    SubsetSize(Arrived(s), Below(|s.pcs|));
  }

  lemma WaitKeepsThread(o: Options, initial: nat, start: int, s: State, t: nat, u: nat)
    requires Inv(o, initial, start, s) && Enabled(s, Wait(t)) && u < |s.pcs|
    ensures Shape(Apply(o, s, Wait(t))) && ThreadOk(Apply(o, s, Wait(t)), u)
  {
    assert ThreadOk(s, t) && ThreadOk(s, u);
    NobodyReleased(o, initial, start, s, t, u);
  }

  lemma WaitArrives(o: Options, initial: nat, start: int, s: State, t: nat)
    requires Inv(o, initial, start, s) && Enabled(s, Wait(t))
    ensures var s' := Apply(o, s, Wait(t));
            |Arrived(s')| == |Arrived(s)| + 1 && Confirmed(s') == Confirmed(s)
  {
    var s' := Apply(o, s, Wait(t));
    assert ThreadOk(s, t);
    assert t !in Arrived(s);
    assert Arrived(s') == Arrived(s) + {t};
  }

  lemma WaitKeepsInv(o: Options, initial: nat, start: int, s: State, t: nat)
    requires Inv(o, initial, start, s) && Enabled(s, Wait(t))
    ensures Inv(o, initial, start, Apply(o, s, Wait(t)))
  {
    var s' := Apply(o, s, Wait(t));
    WaitKeepsThread(o, initial, start, s, t, t);
    WaitArrives(o, initial, start, s, t);
    forall u | 0 <= u < |s'.pcs|
      ensures ThreadOk(s', u)
    {
      WaitKeepsThread(o, initial, start, s, t, u);
    }
  }

  lemma PassKeepsInv(o: Options, initial: nat, start: int, s: State, t: nat)
    requires Inv(o, initial, start, s) && Enabled(s, Pass(t))
    ensures Inv(o, initial, start, Apply(o, s, Pass(t)))
  {
    MoveKeepsInv(o, initial, start, s, t, Released(s.pcs[t].round));
  }

  // ---------------------------------------------------------------- finishing a call

  /** Once a thread is past the barrier, every thread has arrived. */
  lemma EveryoneArrived(o: Options, initial: nat, start: int, s: State, t: nat, u: nat)
    requires Inv(o, initial, start, s) && t < |s.pcs| && s.pcs[t].Released? && u < |s.pcs|
    ensures InBarrier(s.pcs[u]) || Done(s, u)
  {
    assert ThreadOk(s, t);
    SizeBelow(|s.pcs|);
    SubsetSize(Arrived(s), Below(|s.pcs|));
    assert u in Arrived(s);
  }

  /** The manager after the first thread past the barrier has closed the epoch, before its confirmation. */
  ghost function Decided(o: Options, s: State, now: int): State
    requires !Underflows(s.m)
  {
    var m := Close(o, s.m, now);
    s.(m := m, answers := if s.m.kind.Closing? then s.answers + [Answer(o, m.kind)] else s.answers)
  }

  lemma RestartableStates(q: map<nat, Request>)
    ensures IsRestartable(StatesOf(q)) <==> forall t :: t in q ==> q[t].state != NonRestartable
  {
    assert forall t :: t in q ==> t in StatesOf(q) && StatesOf(q)[t] == q[t].state;
  }

  lemma DecidedRound(o: Options, initial: nat, start: int, s: State, t: nat, now: int, k: nat)
    requires Inv(o, initial, start, s) && t < |s.pcs| && s.pcs[t].Released? && s.m.kind.Closing?
    requires k < |Decided(o, s, now).answers|
    ensures RoundOk(o, initial, start, |s.pcs|, s.requests[k], Decided(o, s, now).answers, k)
  {
    var s' := Decided(o, s, now);
    var last := |s.waits| - 1;
    AppendAnswer(s.answers, s'.answers[last], start, k);
    if k < last {
      assert RoundOk(o, initial, start, |s.pcs|, s.requests[k], s.answers, k);
    } else {
      RestartableStates(s.requests[last]);
      forall u | u in Below(|s.pcs|)
        ensures u in s.requests[last]
      {
        EveryoneArrived(o, initial, start, s, t, u);
        assert ThreadOk(s, u);
      }
    }
  }

  lemma DecidedOk(o: Options, initial: nat, start: int, s: State, t: nat, now: int)
    requires Inv(o, initial, start, s) && t < |s.pcs| && s.pcs[t].Released?
    ensures Inv(o, initial, start, Decided(o, s, now)) && Decided(o, s, now).m.kind.Closed?
  {
    if s.m.kind.Closing? {
      var s' := Decided(o, s, now);
      var last := |s.waits| - 1;
      forall k: nat | k < |s'.answers|
        ensures RoundOk(o, initial, start, |s'.pcs|, s'.requests[k], s'.answers, k)
      {
        DecidedRound(o, initial, start, s, t, now, k);
      }
      forall u | 0 <= u < |s'.pcs|
        ensures ThreadOk(s', u) && !Done(s', u)
      {
        DecidedThread(o, initial, start, s, t, now, u);
      }
      AppendAnswer(s.answers, s'.answers[last], start, last);
      assert Arrived(s') == Arrived(s);
      assert Confirmed(s') == {};
    }
  }

  lemma DecidedThread(o: Options, initial: nat, start: int, s: State, t: nat, now: int, u: nat)
    requires Inv(o, initial, start, s) && t < |s.pcs| && s.pcs[t].Released? && s.m.kind.Closing? && u < |s.pcs|
    ensures Shape(Decided(o, s, now)) && ThreadOk(Decided(o, s, now), u) && !Done(Decided(o, s, now), u)
  {
    assert ThreadOk(s, u);
    EveryoneArrived(o, initial, start, s, t, u);
  }

  lemma FinishDecided(o: Options, s: State, t: nat, now: int)
    requires t < |s.pcs| == |s.results| && !Underflows(s.m) && Decided(o, s, now).m.kind.Closed?
    requires s.m.kind.Closing? ==> |s.answers| + 1 == |s.waits|
    ensures FinishStep(o, s, t, now) == FinishStep(o, Decided(o, s, now), t, now)
  {
  }

  lemma ConfirmRound(o: Options, initial: nat, start: int, s: State, t: nat)
    requires Inv(o, initial, start, s) && t < |s.pcs| && s.pcs[t].Released? && s.m.kind.Closed?
    ensures t !in Confirmed(s)
    ensures |Confirmed(s) + {t}| == s.m.kind.confirmations + 1
    ensures s.m.kind.confirmations + 1 == |s.pcs| ==> Confirmed(s) + {t} == Below(|s.pcs|)
  {
    assert ThreadOk(s, t);
    SizeBelow(|s.pcs|);
    SubsetSize(Confirmed(s) + {t}, Below(|s.pcs|));
  }

  /** The finishing thread gets the answer of the round. */
  lemma FinishOwn(o: Options, s: State, t: nat, now: int)
    requires Shape(s) && KindOk(o, s) && t < |s.pcs| && ThreadOk(s, t) && s.pcs[t].Released? && s.m.kind.Closed?
    ensures var s' := FinishStep(o, s, t, now);
            && s'.answers == s.answers && s'.pcs[t].Outside? && |s.answers| == |s.waits| == |s'.results[t]|
            && s'.results[t] == s.answers
  {
    assert s.results[t] + [s.answers[|s.results[t]|]] == s.answers;
  }

  /** The others stay as they are. */
  lemma FinishOther(o: Options, s: State, t: nat, now: int, u: nat)
    requires Shape(s) && t < |s.pcs| && u < |s.pcs| && u != t && s.m.kind.Closed?
    ensures var s' := FinishStep(o, s, t, now);
            s'.answers == s.answers && s'.pcs[u] == s.pcs[u] && s'.results[u] == s.results[u]
  {
  }

  /** A thread after thread t's confirmation, if others are still to confirm. */
  lemma ConfirmThread(o: Options, initial: nat, start: int, s: State, t: nat, now: int, u: nat)
    requires Inv(o, initial, start, s) && t < |s.pcs| && s.pcs[t].Released? && s.m.kind.Closed? && u < |s.pcs|
    requires s.m.kind.confirmations + 1 < |s.pcs|
    ensures Shape(FinishStep(o, s, t, now)) && ThreadOk(FinishStep(o, s, t, now), u)
  {
    assert ThreadOk(s, t) && ThreadOk(s, u);
    if u == t {
      FinishOwn(o, s, t, now);
    } else {
      FinishOther(o, s, t, now, u);
    }
  }

  /** A thread after the last confirmation of a round: it has its answer and is not in a barrier. */
  lemma LastConfirmThread(o: Options, initial: nat, start: int, s: State, t: nat, now: int, u: nat)
    requires Inv(o, initial, start, s) && t < |s.pcs| && s.pcs[t].Released? && s.m.kind.Closed? && u < |s.pcs|
    requires s.m.kind.confirmations + 1 == |s.pcs|
    ensures var s' := FinishStep(o, s, t, now);
            && (s'.pcs[u].Outside? || s'.pcs[u].Entered?)
            && |s'.results[u]| == |s'.answers| == |s.waits|
            && s'.results[u] == s'.answers
  {
    assert ThreadOk(s, t) && ThreadOk(s, u);
    FinishOwn(o, s, t, now);
    if u != t {
      FinishOther(o, s, t, now, u);
      OthersDone(o, initial, start, s, t, u);
    }
  }

  lemma OthersDone(o: Options, initial: nat, start: int, s: State, t: nat, u: nat)
    requires Inv(o, initial, start, s) && t < |s.pcs| && s.pcs[t].Released? && s.m.kind.Closed? && u < |s.pcs|
    requires s.m.kind.confirmations + 1 == |s.pcs| && u != t
    ensures Done(s, u)
  {
    ConfirmRound(o, initial, start, s, t);
    assert u in Below(|s.pcs|) && u in Confirmed(s) + {t};
  }

  lemma LastConfirmKeepsInv(o: Options, initial: nat, start: int, s: State, t: nat, now: int)
    requires Inv(o, initial, start, s) && t < |s.pcs| && s.pcs[t].Released? && s.m.kind.Closed?
    requires s.m.kind.confirmations + 1 == |s.pcs|
    ensures Inv(o, initial, start, FinishStep(o, s, t, now))
  {
    LastConfirmThreads(o, initial, start, s, t, now);
    LastConfirmRounds(o, initial, start, s, t, now);
  }

  lemma LastConfirmRounds(o: Options, initial: nat, start: int, s: State, t: nat, now: int)
    requires Inv(o, initial, start, s) && t < |s.pcs| && s.pcs[t].Released? && s.m.kind.Closed?
    requires s.m.kind.confirmations + 1 == |s.pcs|
    ensures var s' := FinishStep(o, s, t, now);
            && !s'.crashed && s'.requests == s.requests + [map[]]
            && RoundsOk(o, initial, start, |s'.pcs|, s'.m, s'.requests, s'.answers, |s'.waits|)
  {
    var s' := FinishStep(o, s, t, now);
    forall k: nat | k < |s'.answers|
      ensures RoundOk(o, initial, start, |s'.pcs|, s'.requests[k], s'.answers, k)
    {
      assert RoundOk(o, initial, start, |s.pcs|, s.requests[k], s.answers, k);
    }
  }

  lemma LastConfirmThreads(o: Options, initial: nat, start: int, s: State, t: nat, now: int)
    requires Inv(o, initial, start, s) && t < |s.pcs| && s.pcs[t].Released? && s.m.kind.Closed?
    requires s.m.kind.confirmations + 1 == |s.pcs|
    ensures var s' := FinishStep(o, s, t, now);
            && Shape(s') && Arrived(s') == {} && |s'.answers| == |s.waits|
            && forall u :: 0 <= u < |s'.pcs| ==> ThreadOk(s', u)
  {
    var s' := FinishStep(o, s, t, now);
    forall u | 0 <= u < |s'.pcs|
      ensures (s'.pcs[u].Outside? || s'.pcs[u].Entered?) && s'.results[u] == s'.answers && |s'.answers| == |s.waits|
    {
      LastConfirmThread(o, initial, start, s, t, now, u);
    }
    LastConfirmThread(o, initial, start, s, t, now, t);
    assert |s'.waits| == |s.waits| + 1;
    assert Arrived(s') == {};
  }

  lemma ConfirmKeepsInv(o: Options, initial: nat, start: int, s: State, t: nat, now: int)
    requires Inv(o, initial, start, s) && t < |s.pcs| && s.pcs[t].Released? && s.m.kind.Closed?
    ensures Inv(o, initial, start, FinishStep(o, s, t, now))
  {
    if s.m.kind.confirmations + 1 == |s.pcs| {
      LastConfirmKeepsInv(o, initial, start, s, t, now);
    } else {
      var s' := FinishStep(o, s, t, now);
      ConfirmSets(o, initial, start, s, t, now);
      forall u | 0 <= u < |s'.pcs|
        ensures Shape(s') && ThreadOk(s', u)
      {
        ConfirmThread(o, initial, start, s, t, now, u);
      }
    }
  }

  lemma ConfirmSets(o: Options, initial: nat, start: int, s: State, t: nat, now: int)
    requires Inv(o, initial, start, s) && t < |s.pcs| && s.pcs[t].Released? && s.m.kind.Closed?
    requires s.m.kind.confirmations + 1 < |s.pcs|
    ensures var s' := FinishStep(o, s, t, now);
            && Arrived(s') == Arrived(s) && Confirmed(s') == Confirmed(s) + {t}
            && |Confirmed(s')| == s.m.kind.confirmations + 1
  {
    assert ThreadOk(s, t);
    ConfirmRound(o, initial, start, s, t);
    var s' := FinishStep(o, s, t, now);
    assert Done(s', t);
    assert forall u :: 0 <= u < |s.pcs| && u != t ==> s'.results[u] == s.results[u] && s'.pcs[u] == s.pcs[u];
  }

  lemma FinishKeepsInv(o: Options, initial: nat, start: int, s: State, t: nat, now: int)
    requires Inv(o, initial, start, s) && Enabled(s, Finish(t, now))
    ensures Inv(o, initial, start, Apply(o, s, Finish(t, now)))
  {
    DecidedOk(o, initial, start, s, t, now);
    FinishDecided(o, s, t, now);
    ConfirmKeepsInv(o, initial, start, Decided(o, s, now), t, now);
  }

  lemma StepKeepsInv(o: Options, initial: nat, start: int, s: State, a: Step)
    requires Inv(o, initial, start, s) && Enabled(s, a)
    ensures Inv(o, initial, start, Apply(o, s, a))
  {
    match a
    case Enter(t, r) => EnterKeepsInv(o, initial, start, s, t, r);
    case DoRegister(t) => RegisterKeepsInv(o, initial, start, s, t);
    case Wait(t) => WaitKeepsInv(o, initial, start, s, t);
    case Pass(t) => PassKeepsInv(o, initial, start, s, t);
    case Finish(t, now) => FinishKeepsInv(o, initial, start, s, t, now);
  }

  // ---------------------------------------------------------------- runs

  ghost function Exec(o: Options, n: nat, initial: nat, start: int, steps: seq<Step>): Option<State> {
    if steps == [] then Some(Init(n, initial, start))
    else
      var k := |steps| - 1;
      match Exec(o, n, initial, start, steps[..k])
      case None => None
      case Some(s) => if Shape(s) && Enabled(s, steps[k]) then Some(Apply(o, s, steps[k])) else None
  }

  lemma {:induction false} ReachableInv(o: Options, n: nat, initial: nat, start: int, steps: seq<Step>)
    requires 0 < n
    ensures Exec(o, n, initial, start, steps).Some? ==>
              Inv(o, initial, start, Exec(o, n, initial, start, steps).value)
              && |Exec(o, n, initial, start, steps).value.pcs| == n
  {
    if steps == [] {
      InitOk(o, n, initial, start);
    } else {
      var k := |steps| - 1;
      ReachableInv(o, n, initial, start, steps[..k]);
      if Exec(o, n, initial, start, steps).Some? {
        StepKeepsInv(o, initial, start, Exec(o, n, initial, start, steps[..k]).value, steps[k]);
      }
    }
  }

  // ---------------------------------------------------------------- what the callers asked

  function AddAsked(asked: seq<Request>, a: Step, t: nat): seq<Request> {
    if a.Enter? && a.thread == t then asked + [a.request] else asked
  }

  /** The requests that thread t passed to its calls, one after the other. */
  function Asked(steps: seq<Step>, t: nat): seq<Request> {
    if steps == [] then [] else AddAsked(Asked(steps[..|steps| - 1], t), steps[|steps| - 1], t)
  }

  /** What was registered for thread t in the k-th round is what it passed to its k-th call. */
  ghost predicate AskedOk(s: State, asked: seq<Request>, t: nat)
    requires Shape(s) && t < |s.pcs|
  {
    && |asked| == |s.results[t]| + (if s.pcs[t].Outside? then 0 else 1)
    && (s.pcs[t].Entered? ==> asked[|s.results[t]|] == s.pcs[t].request)
    && (forall k :: 0 <= k < |s.requests| && t in s.requests[k] ==> k < |asked| && s.requests[k][t] == asked[k])
  }

  lemma FinishKeepsAsked(o: Options, initial: nat, start: int, s: State, u: nat, now: int, asked: seq<Request>, t: nat)
    requires Inv(o, initial, start, s) && Enabled(s, Finish(u, now)) && t < |s.pcs| && AskedOk(s, asked, t)
    ensures Shape(FinishStep(o, s, u, now)) && AskedOk(FinishStep(o, s, u, now), asked, t)
  {
    assert Shape(FinishStep(o, s, u, now)) by {
      FinishKeepsInv(o, initial, start, s, u, now);
    }
    FinishRecords(o, s, u, now);
    ReturnKeepsAsked(s, FinishStep(o, s, u, now), u, asked, t);
  }

  lemma FinishRecords(o: Options, s: State, u: nat, now: int)
    requires u < |s.pcs| == |s.results| && !Underflows(s.m)
    ensures Returns(s, FinishStep(o, s, u, now), u)
  {
  }

  /** A call of thread u returns, and perhaps a new round begins. */
  ghost predicate Returns(s: State, s': State, u: nat) {
    && u < |s.pcs| == |s.results| && s'.pcs == s.pcs[u := Outside]
    && (s'.requests == s.requests || s'.requests == s.requests + [map[]])
    && |s'.results| == |s.results| && |s'.results[u]| == |s.results[u]| + 1
    && forall t :: 0 <= t < |s.pcs| && t != u ==> s'.results[t] == s.results[t]
  }

  lemma ReturnKeepsAsked(s: State, s': State, u: nat, asked: seq<Request>, t: nat)
    requires Shape(s) && Shape(s') && Returns(s, s', u) && s.pcs[u].Released? && t < |s.pcs| && AskedOk(s, asked, t)
    ensures AskedOk(s', asked, t)
  {
  }

  lemma StepKeepsAsked(o: Options, initial: nat, start: int, s: State, a: Step, asked: seq<Request>, t: nat)
    requires Inv(o, initial, start, s) && Enabled(s, a) && t < |s.pcs| && AskedOk(s, asked, t)
    ensures Shape(Apply(o, s, a)) && AskedOk(Apply(o, s, a), AddAsked(asked, a, t), t)
  {
    match a
    case Enter(u, _) =>
    case DoRegister(u) => RegisterKeepsAsked(o, initial, start, s, u, asked, t);
    case Wait(u) =>
    case Pass(u) =>
    case Finish(u, now) => FinishKeepsAsked(o, initial, start, s, u, now, asked, t);
  }

  lemma RegisterKeepsAsked(o: Options, initial: nat, start: int, s: State, u: nat, asked: seq<Request>, t: nat)
    requires Inv(o, initial, start, s) && Enabled(s, DoRegister(u)) && t < |s.pcs| && AskedOk(s, asked, t)
    ensures Shape(Apply(o, s, DoRegister(u))) && AskedOk(Apply(o, s, DoRegister(u)), asked, t)
  {
    assert ThreadOk(s, t);
  }

  lemma {:induction false} ReachableAsked(o: Options, n: nat, initial: nat, start: int, steps: seq<Step>, t: nat)
    requires 0 < n && Exec(o, n, initial, start, steps).Some? && t < n
    ensures var s := Exec(o, n, initial, start, steps).value;
            Shape(s) && t < |s.pcs| && AskedOk(s, Asked(steps, t), t)
  {
    ReachableInv(o, n, initial, start, steps);
    if steps != [] {
      var k := |steps| - 1;
      ReachableInv(o, n, initial, start, steps[..k]);
      ReachableAsked(o, n, initial, start, steps[..k], t);
      var s := Exec(o, n, initial, start, steps[..k]).value;
      StepKeepsAsked(o, initial, start, s, steps[k], Asked(steps[..k], t), t);
    }
  }

  // ---------------------------------------------------------------- the clock

  /** The clock at the returns of the calls, one after the other. */
  function Finishes(steps: seq<Step>): seq<int> {
    if steps == [] then []
    else
      var k := |steps| - 1;
      if steps[k].Finish? then Finishes(steps[..k]) + [steps[k].now] else Finishes(steps[..k])
  }

  ghost predicate ClockAt(answers: seq<ClosedEpoch>, n: nat, clock: seq<int>, k: nat)
    requires k < |answers|
  {
    k * n < |clock| && answers[k].instant == clock[k * n]
  }

  /** After the given number of rounds and `extra` returns in the next one: every round has n returns, and the first of
      them fixes its instant. */
  ghost predicate Clocked(n: nat, clock: seq<int>, rounds: nat, extra: nat, answers: seq<ClosedEpoch>) {
    && extra < n && |clock| == rounds * n + extra && |answers| == rounds + (if extra == 0 then 0 else 1)
    && forall k: nat :: k < |answers| ==> ClockAt(answers, n, clock, k)
  }

  lemma NextReturn(n: nat, clock: seq<int>, rounds: nat, extra: nat, answers: seq<ClosedEpoch>, now: int,
                   answers': seq<ClosedEpoch>)
    requires Clocked(n, clock, rounds, extra, answers)
    requires if extra == 0 then |answers'| == |answers| + 1 && answers <= answers' && answers'[|answers|].instant == now
             else answers' == answers
    ensures if extra + 1 == n then Clocked(n, clock + [now], rounds + 1, 0, answers')
            else Clocked(n, clock + [now], rounds, extra + 1, answers')
  {
    assert (rounds + 1) * n == rounds * n + n;
    forall k: nat | k < |answers'|
      ensures ClockAt(answers', n, clock + [now], k)
    {
      if k < |answers| {
        assert answers'[k] == answers[k] && ClockAt(answers, n, clock, k);
      }
    }
  }

  function Extra(k: Kind): nat {
    if k.Closed? then k.confirmations else 0
  }

  ghost predicate ClockOk(s: State, n: nat, clock: seq<int>)
    requires Shape(s)
  {
    Clocked(n, clock, |s.waits| - 1, Extra(s.m.kind), s.answers) && (s.m.kind.Closed? ==> 0 < s.m.kind.confirmations)
  }

  lemma FinishCounts(o: Options, s: State, t: nat, now: int)
    requires t < |s.pcs| == |s.results| && !Underflows(s.m) && (s.m.kind.Closed? ==> 0 < s.m.kind.confirmations)
    ensures var s', n, extra := FinishStep(o, s, t, now), |s.pcs|, Extra(s.m.kind);
            && (if extra == 0 then
                  |s'.answers| == |s.answers| + 1 && s.answers <= s'.answers && s'.answers[|s.answers|].instant == now
                else s'.answers == s.answers)
            && (if extra + 1 == n then s'.m.kind.Closing? && |s'.waits| == |s.waits| + 1
                else s'.m.kind.Closed? && s'.m.kind.confirmations == extra + 1 && s'.waits == s.waits)
  {
  }

  lemma FinishClocked(o: Options, s: State, t: nat, now: int, clock: seq<int>)
    requires Shape(s) && t < |s.pcs| && !Underflows(s.m) && ClockOk(s, |s.pcs|, clock)
    requires Shape(FinishStep(o, s, t, now))
    ensures ClockOk(FinishStep(o, s, t, now), |s.pcs|, clock + [now])
  {
    FinishCounts(o, s, t, now);
    var s', n, rounds, extra := FinishStep(o, s, t, now), |s.pcs|, |s.waits| - 1, Extra(s.m.kind);
    NextReturn(n, clock, rounds, extra, s.answers, now, s'.answers);
    if extra + 1 == n {
      assert Clocked(n, clock + [now], rounds + 1, 0, s'.answers) && |s'.waits| - 1 == rounds + 1;
    } else {
      assert Clocked(n, clock + [now], rounds, extra + 1, s'.answers) && |s'.waits| - 1 == rounds;
    }
  }

  lemma FinishKeepsClock(o: Options, initial: nat, start: int, s: State, t: nat, now: int, clock: seq<int>)
    requires Inv(o, initial, start, s) && Enabled(s, Finish(t, now)) && ClockOk(s, |s.pcs|, clock)
    ensures Shape(FinishStep(o, s, t, now)) && ClockOk(FinishStep(o, s, t, now), |s.pcs|, clock + [now])
  {
    FinishKeepsInv(o, initial, start, s, t, now);
    FinishClocked(o, s, t, now, clock);
  }

  lemma {:induction false} ReachableClock(o: Options, n: nat, initial: nat, start: int, steps: seq<Step>)
    requires 0 < n && Exec(o, n, initial, start, steps).Some?
    ensures var s := Exec(o, n, initial, start, steps).value; Shape(s) && ClockOk(s, n, Finishes(steps))
  {
    ReachableInv(o, n, initial, start, steps);
    if steps != [] {
      var k := |steps| - 1;
      ReachableInv(o, n, initial, start, steps[..k]);
      ReachableClock(o, n, initial, start, steps[..k]);
      var s := Exec(o, n, initial, start, steps[..k]).value;
      if steps[k].Finish? {
        FinishKeepsClock(o, initial, start, s, steps[k].thread, steps[k].now, Finishes(steps[..k]));
      } else {
        OthersKeepClock(o, s, steps[k], n, Finishes(steps[..k]));
      }
    }
  }

  lemma OthersKeepClock(o: Options, s: State, a: Step, n: nat, clock: seq<int>)
    requires Shape(s) && Enabled(s, a) && !a.Finish? && ClockOk(s, n, clock) && Shape(Apply(o, s, a))
    ensures ClockOk(Apply(o, s, a), n, clock)
  {
    assert Apply(o, s, a).answers == s.answers;
  }

  /** All callers of a round get the same answer; it is the one its own requests call for. These are the requests of
      every source, each exactly once, and each is what that source passed to its call of this number; the instant is
      the clock at the round's first return; nobody is more than one round ahead. */
  lemma Agreement(o: Options, n: nat, initial: nat, start: int, steps: seq<Step>, t: nat, k: nat)
    requires 0 < n && Exec(o, n, initial, start, steps).Some? && t < n
    requires var s := Exec(o, n, initial, start, steps).value; t < |s.results| && k < |s.results[t]|
    ensures var s := Exec(o, n, initial, start, steps).value;
            && !s.crashed && k < |s.answers| <= |s.requests|
            && s.results[t][k] == s.answers[k]
            && s.requests[k].Keys == Below(n) && Honours(s.requests[k], s.results[t][k])
            && (s.results[t][k].info.Some? ==>
                  (s.results[t][k].info.value.writer <==> WriterDue(o, s.requests[k], s.results[t][k])))
            && k * n < |Finishes(steps)| && s.results[t][k].instant == Finishes(steps)[k * n]
            && (forall u :: 0 <= u < n ==> k < |Asked(steps, u)| && s.requests[k][u] == Asked(steps, u)[k])
            && |s.results| == n && forall u :: 0 <= u < n ==> |s.results[t]| <= |s.results[u]| + 1
  {
    ReachableInv(o, n, initial, start, steps);
    ReachableClock(o, n, initial, start, steps);
    var s := Exec(o, n, initial, start, steps).value;
    assert ThreadOk(s, t);
    assert RoundOk(o, initial, start, n, s.requests[k], s.answers, k);
    assert ClockAt(s.answers, n, Finishes(steps), k);
    forall u | 0 <= u < n
      ensures |s.results[t]| <= |s.results[u]| + 1
      ensures k < |Asked(steps, u)| && s.requests[k][u] == Asked(steps, u)[k]
    {
      assert ThreadOk(s, u);
      assert u in Below(n);
      ReachableAsked(o, n, initial, start, steps, u);
    }
  }

  /** The epoch ids of the committed rounds, in order. */
  function Ids(answers: seq<ClosedEpoch>, k: nat): seq<nat>
    requires k <= |answers|
  {
    if k == 0 then []
    else if answers[k - 1].info.Some? then Ids(answers, k - 1) + [answers[k - 1].info.value.id]
    else Ids(answers, k - 1)
  }

  lemma {:induction false} IdsCount(answers: seq<ClosedEpoch>, k: nat, initial: nat)
    requires k <= |answers|
    requires forall j :: 0 <= j < k && answers[j].info.Some? ==>
               answers[j].info.value.id == initial + Committed(answers, j)
    ensures |Ids(answers, k)| == Committed(answers, k)
    ensures forall j :: 0 <= j < |Ids(answers, k)| ==> Ids(answers, k)[j] == initial + j
  {
    if k > 0 {
      IdsCount(answers, k - 1, initial);
    }
  }

  /** Every caller sees the epoch ids initial, initial + 1, ... with no gap and no repetition. */
  lemma NoGaps(o: Options, n: nat, initial: nat, start: int, steps: seq<Step>, t: nat)
    requires 0 < n && Exec(o, n, initial, start, steps).Some? && t < n
    ensures var s := Exec(o, n, initial, start, steps).value;
            && t < |s.results|
            && var ids := Ids(s.results[t], |s.results[t]|);
               forall j :: 0 <= j < |ids| ==> ids[j] == initial + j
  {
    ReachableInv(o, n, initial, start, steps);
    var s := Exec(o, n, initial, start, steps).value;
    assert ThreadOk(s, t);
    var mine := s.results[t];
    forall j | 0 <= j < |mine| && mine[j].info.Some?
      ensures mine[j].info.value.id == initial + Committed(mine, j)
    {
      assert RoundOk(o, initial, start, n, s.requests[j], s.answers, j);
      CommittedPrefix(s.answers, |mine|, j);
    }
    IdsCount(mine, |mine|, initial);
  }

  lemma {:induction false} CommittedPrefix(answers: seq<ClosedEpoch>, n: nat, k: nat)
    requires k <= n <= |answers|
    ensures Committed(answers[..n], k) == Committed(answers, k)
  {
    if k > 0 {
      CommittedPrefix(answers, n, k - 1);
    }
  }

  lemma {:induction false} LastPersistedBound(o: Options, start: int, answers: seq<ClosedEpoch>, j: nat, k: nat)
    requires j < k <= |answers| && Persisted(answers[j]) && 0 < o.maxRecords && 0 < o.maxInterval
    requires forall i: nat :: i < |answers| && Persisted(answers[i]) ==>
               Elapsed(answers[i].instant, LastPersisted(answers, start, i)) >= o.maxInterval
    ensures answers[j].instant <= LastPersisted(answers, start, k)
  {
    if j < k - 1 {
      LastPersistedBound(o, start, answers, j, k - 1);
    }
  }

  /** With a positive record threshold and interval, persisted epochs are at least the interval apart, in
      whatever direction the clock steps in between; the record threshold never fires. */
  lemma PersistSpacing(o: Options, n: nat, initial: nat, start: int, steps: seq<Step>, j: nat, k: nat)
    requires 0 < n && Exec(o, n, initial, start, steps).Some? && 0 < o.maxRecords && 0 < o.maxInterval
    requires var a := Exec(o, n, initial, start, steps).value.answers;
             j < k < |a| && Persisted(a[j]) && Persisted(a[k])
    ensures var a := Exec(o, n, initial, start, steps).value.answers;
            a[j].instant + o.maxInterval <= a[k].instant
  {
    ReachableInv(o, n, initial, start, steps);
    var s := Exec(o, n, initial, start, steps).value;
    var a := s.answers;
    forall i: nat | i < |a| && Persisted(a[i])
      ensures Elapsed(a[i].instant, LastPersisted(a, start, i)) >= o.maxInterval
    {
      assert RoundOk(o, initial, start, n, s.requests[i], a, i);
    }
    LastPersistedBound(o, start, a, j, k);
  }

  /** Without those thresholds every committed epoch is persisted, so the spacing is lost. */
  lemma PersistAlways(o: Options, n: nat, initial: nat, start: int, steps: seq<Step>, k: nat)
    requires 0 < n && Exec(o, n, initial, start, steps).Some? && (o.maxRecords == 0 || o.maxInterval == 0)
    requires k < |Exec(o, n, initial, start, steps).value.answers|
    ensures var a := Exec(o, n, initial, start, steps).value.answers[k];
            Persisted(a) <==> a.info.Some?
  {
    ReachableInv(o, n, initial, start, steps);
    var s := Exec(o, n, initial, start, steps).value;
    assert RoundOk(o, initial, start, n, s.requests[k], s.answers, k);
  }

  ghost predicate CanGoOn(s: State) {
    exists a: Step :: !a.Enter? && Enabled(s, a)
  }

  lemma InsideCanGoOn(o: Options, initial: nat, start: int, s: State)
    requires Inv(o, initial, start, s) && forall t :: 0 <= t < |s.pcs| ==> !s.pcs[t].Outside?
    ensures CanGoOn(s)
  {
    if t :| 0 <= t < |s.pcs| && s.pcs[t].Registered? {
      assert Enabled(s, Wait(t));
    } else if t :| 0 <= t < |s.pcs| && s.pcs[t].Released? {
      assert Enabled(s, Finish(t, 0));
    } else if t :| 0 <= t < |s.pcs| && s.pcs[t].Entered? && s.m.kind.Closing? {
      assert Enabled(s, DoRegister(t));
    } else {
      AllArrived(o, initial, start, s);
    }
  }

  /** If everybody who is not through with the round waits, the barrier lets them pass. */
  lemma AllArrived(o: Options, initial: nat, start: int, s: State)
    requires Inv(o, initial, start, s)
    requires forall t :: 0 <= t < |s.pcs| ==> s.pcs[t].Waiting? || (s.pcs[t].Entered? && s.m.kind.Closed?)
    ensures CanGoOn(s)
  {
    SomeoneWaits(o, initial, start, s);
    var t :| 0 <= t < |s.pcs| && s.pcs[t].Waiting?;
    assert s.waits[|s.waits| - 1] == |s.pcs| by {
      SizeBelow(|s.pcs|);
    }
    assert Enabled(s, Pass(t));
  }

  /** If every source is inside a call, one of them can go on: the barrier never strands anybody. */
  lemma SomeoneCanGoOn(o: Options, n: nat, initial: nat, start: int, steps: seq<Step>)
    requires 0 < n && Exec(o, n, initial, start, steps).Some?
    requires var s := Exec(o, n, initial, start, steps).value;
             forall t :: 0 <= t < |s.pcs| ==> !s.pcs[t].Outside?
    ensures CanGoOn(Exec(o, n, initial, start, steps).value)
  {
    ReachableInv(o, n, initial, start, steps);
    InsideCanGoOn(o, initial, start, Exec(o, n, initial, start, steps).value);
  }

  lemma SomeoneWaits(o: Options, initial: nat, start: int, s: State)
    requires Inv(o, initial, start, s)
    requires forall t :: 0 <= t < |s.pcs| ==> s.pcs[t].Waiting? || (s.pcs[t].Entered? && s.m.kind.Closed?)
    ensures exists t :: 0 <= t < |s.pcs| && s.pcs[t].Waiting?
    ensures Arrived(s) == Below(|s.pcs|)
  {
    forall t | t in Below(|s.pcs|)
      ensures InBarrier(s.pcs[t]) || Done(s, t)
    {
      assert ThreadOk(s, t);
    }
    if forall t :: 0 <= t < |s.pcs| ==> s.pcs[t].Entered? {
      assert s.pcs[0].Entered?;
      assert forall t :: t in Below(|s.pcs|) ==> ThreadOk(s, t) && Done(s, t);
      assert Confirmed(s) == Below(|s.pcs|);
      SizeBelow(|s.pcs|);
    }
  }
}
