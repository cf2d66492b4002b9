/** The agreement of the sources on closing an epoch: a mutex-guarded state, a fresh barrier per round and a
    count of confirmations (dozer-core/src/epoch/manager.rs). The crate's module tree does not declare that
    file, so this models the file as written, not code that the executor calls. */
module EpochManager {
  import opened Wrappers

  datatype SourceState = NotStarted | NonRestartable | Restartable(opId: nat)

  datatype Verdict = Commit | CommitAndPersist | Nothing

  /** `EpochManagerStateKind`; a source is known by the index of its thread, which stands for its handle;
      `round` tells the barriers of different rounds apart. */
  datatype Kind =
    | Closing(epochId: nat, shouldTerminate: bool, shouldCommit: bool, states: map<nat, SourceState>, round: nat)
    | Closed(terminating: bool, verdict: Verdict, epochId: nat, states: map<nat, SourceState>,
             instant: int, confirmations: nat)

  datatype Manager = Manager(kind: Kind, nextRecord: nat, lastPersisted: int)

  /** Durations and instants are counted in one unit of time. */
  datatype Options = Options(maxRecords: nat, maxInterval: nat, checkpoints: bool)

  datatype CommonInfo = CommonInfo(id: nat, writer: bool, queue: bool, states: map<nat, SourceState>)

  datatype ClosedEpoch = ClosedEpoch(terminate: bool, info: Option<CommonInfo>, instant: int)

  datatype Request = Request(state: SourceState, terminate: bool, commit: bool)

  predicate ShouldCommit(v: Verdict) {
    v.Commit? || v.CommitAndPersist?
  }

  predicate IsRestartable(states: map<nat, SourceState>) {
    forall t :: t in states ==> states[t] != NonRestartable
  }

  function NewClosing(epochId: nat, round: nat): Kind {
    Closing(epochId, true, false, map[], round)
  }

  function Elapsed(now: int, since: int): nat {
    if since <= now then now - since else 0
  }

  /** The first critical section: a source adds its request to the round that is closing. */
  function Register(k: Kind, source: nat, r: Request): Kind
    requires k.Closing?
  {
    k.(shouldTerminate := k.shouldTerminate && r.terminate,
       shouldCommit := k.shouldCommit || r.commit,
       states := k.states[source := r.state])
  }

  /** `num_records` is the constant 0, and the subtraction is on unsigned numbers. */
  const NUM_RECORDS: nat := 0

  predicate Underflows(m: Manager) {
    m.kind.Closing? && m.kind.shouldCommit && NUM_RECORDS < m.nextRecord
  }

  predicate Persists(o: Options, m: Manager, now: int)
    requires m.nextRecord <= NUM_RECORDS
  {
    NUM_RECORDS - m.nextRecord >= o.maxRecords || Elapsed(now, m.lastPersisted) >= o.maxInterval
  }

  /** The second critical section, first part: the first source past the barrier closes the epoch. */
  function Close(o: Options, m: Manager, now: int): Manager
    requires !Underflows(m)
  {
    match m.kind
    case Closed(_, _, _, _, _, _) => m
    case Closing(epochId, shouldTerminate, shouldCommit, states, _) =>
      var persists := shouldCommit && Persists(o, m, now);
      var verdict := if persists then CommitAndPersist else if shouldCommit then Commit else Nothing;
      Manager(Closed(shouldTerminate, verdict, epochId, states, now, 0),
              if persists then NUM_RECORDS else m.nextRecord,
              if persists then now else m.lastPersisted)
  }

  /** What every source is told about a closed epoch. */
  function Answer(o: Options, k: Kind): ClosedEpoch
    requires k.Closed?
  {
    var info := CommonInfo(k.epochId, k.verdict.CommitAndPersist? && o.checkpoints && IsRestartable(k.states),
                           k.verdict.CommitAndPersist?, k.states);
    ClosedEpoch(k.terminating, if ShouldCommit(k.verdict) then Some(info) else None, k.instant)
  }

  /** The second critical section, second part: the last source to confirm opens the next round. */
  function Confirm(k: Kind, sources: nat, round: nat): Kind
    requires k.Closed?
  {
    if k.confirmations + 1 == sources then
      NewClosing(if ShouldCommit(k.verdict) then k.epochId + 1 else k.epochId, round)
    else
      k.(confirmations := k.confirmations + 1)
  }

  /** The critical sections as the manager runs them, with the lock held. */
  class Guarded {
    const sources: nat
    const options: Options
    var state: Manager
    var round: nat

    constructor (sources: nat, epochId: nat, options: Options, now: int)
      ensures this.sources == sources && this.options == options && round == 0
      ensures state == Manager(NewClosing(epochId, 0), 0, now)
    {
      this.sources := sources;
      this.options := options;
      this.state := Manager(NewClosing(epochId, 0), 0, now);
      this.round := 0;
    }

    /** Fails while an earlier round still waits for confirmations: the caller sleeps and retries. */
    method TryRegister(source: nat, r: Request) returns (barrier: Option<nat>)
      modifies this
      ensures round == old(round)
      ensures old(state.kind).Closed? ==> barrier == None && state == old(state)
      ensures old(state.kind).Closing? ==>
                && barrier == Some(old(state.kind.round))
                && state == old(state).(kind := Register(old(state.kind), source, r))
    {
      match state.kind
      case Closing(epochId, shouldTerminate, shouldCommit, states, b) =>
        shouldTerminate := shouldTerminate && r.terminate;
        shouldCommit := shouldCommit || r.commit;
        states := states[source := r.state];
        state := state.(kind := Closing(epochId, shouldTerminate, shouldCommit, states, b));
        barrier := Some(b);
      case Closed(_, _, _, _, _, _) =>
        barrier := None;
    }

    method CloseAndConfirm(now: int) returns (result: ClosedEpoch)
      requires !Underflows(state)
      modifies this
      ensures var closed := Close(options, old(state), now);
              && result == Answer(options, closed.kind)
              && state == closed.(kind := Confirm(closed.kind, sources, old(round) + 1))
              && round == if state.kind.Closing? then old(round) + 1 else old(round)
    {
      if state.kind.Closing? {
        var k := state.kind;
        var verdict := Nothing;
        if k.shouldCommit {
          if NUM_RECORDS - state.nextRecord >= options.maxRecords
            || Elapsed(now, state.lastPersisted) >= options.maxInterval {
            state := state.(nextRecord := NUM_RECORDS, lastPersisted := now);
            verdict := CommitAndPersist;
          } else {
            verdict := Commit;
          }
        }
        state := state.(kind := Closed(k.shouldTerminate, verdict, k.epochId, k.states, now, 0));
      }
      var k := state.kind;
      var persists := k.verdict.CommitAndPersist?;
      var info := None;
      if ShouldCommit(k.verdict) {
        var writes := persists && options.checkpoints && IsRestartable(k.states);
        info := Some(CommonInfo(k.epochId, writes, persists, k.states));
      }
      result := ClosedEpoch(k.terminating, info, k.instant);
      if k.confirmations + 1 == sources {
        round := round + 1;
        state := state.(kind := NewClosing(if ShouldCommit(k.verdict) then k.epochId + 1 else k.epochId, round));
      } else {
        state := state.(kind := k.(confirmations := k.confirmations + 1));
      }
    }
  }

  // ---------------------------------------------------------------- the interleaved calls

  /** Where a source's thread is in `wait_for_epoch_close`. */
  datatype Pc =
    | Outside
    | Entered(request: Request)
    | Registered(round: nat)
    | Waiting(round: nat)
    | Released(round: nat)

  /** `waits[r]` counts the calls of `wait` on the barrier of round r. For the record, `requests[r]` are the
      requests registered in round r, `answers[r]` is how it was closed, and `results[t]` are the values
      thread t's calls have returned. */
  datatype State = State(
    m: Manager,
    pcs: seq<Pc>,
    waits: seq<nat>,
    requests: seq<map<nat, Request>>,
    answers: seq<ClosedEpoch>,
    results: seq<seq<ClosedEpoch>>,
    crashed: bool)

  datatype Step =
    | Enter(thread: nat, request: Request)
    | DoRegister(thread: nat)
    | Wait(thread: nat)
    | Pass(thread: nat)
    | Finish(thread: nat, now: int)

  function Init(sources: nat, epochId: nat, now: int): State {
    State(Manager(NewClosing(epochId, 0), 0, now), seq(sources, t => Outside), [0], [map[]], [],
          seq(sources, t => []), false)
  }

  predicate Enabled(s: State, a: Step) {
    && !s.crashed
    && a.thread < |s.pcs|
    && match a
       case Enter(t, _) => s.pcs[t].Outside?
       case DoRegister(t) => s.pcs[t].Entered? && s.m.kind.Closing?
       case Wait(t) => s.pcs[t].Registered?
       case Pass(t) => s.pcs[t].Waiting? && s.pcs[t].round < |s.waits| && s.waits[s.pcs[t].round] == |s.pcs|
       case Finish(t, _) => s.pcs[t].Released?
  }

  ghost predicate Shape(s: State) {
    && 0 < |s.pcs| == |s.results|
    && 0 < |s.waits| == |s.requests|
    && (s.m.kind.Closing? ==> s.m.kind.round == |s.waits| - 1)
    && (forall t :: 0 <= t < |s.pcs| && (s.pcs[t].Registered? || s.pcs[t].Waiting? || s.pcs[t].Released?) ==>
          s.pcs[t].round == |s.waits| - 1)
  }

  function FinishStep(o: Options, s: State, t: nat, now: int): State
    requires t < |s.pcs| == |s.results|
  {
    if Underflows(s.m) then s.(crashed := true)
    else
      var m := Close(o, s.m, now);
      var answer := Answer(o, m.kind);
      var kind := Confirm(m.kind, |s.pcs|, |s.waits|);
      s.(m := m.(kind := kind),
         pcs := s.pcs[t := Outside],
         waits := if kind.Closing? then s.waits + [0] else s.waits,
         requests := if kind.Closing? then s.requests + [map[]] else s.requests,
         answers := if s.m.kind.Closing? then s.answers + [answer] else s.answers,
         results := s.results[t := s.results[t] + [answer]])
  }

  ghost function Apply(o: Options, s: State, a: Step): State
    requires Shape(s) && Enabled(s, a)
  {
    var last := |s.waits| - 1;
    match a
    case Enter(t, r) => s.(pcs := s.pcs[t := Entered(r)])
    case DoRegister(t) =>
      s.(m := s.m.(kind := Register(s.m.kind, t, s.pcs[t].request)),
         pcs := s.pcs[t := Registered(s.m.kind.round)],
         requests := s.requests[last := s.requests[last][t := s.pcs[t].request]])
    case Wait(t) =>
      s.(pcs := s.pcs[t := Waiting(s.pcs[t].round)], waits := s.waits[last := s.waits[last] + 1])
    case Pass(t) => s.(pcs := s.pcs[t := Released(s.pcs[t].round)])
    case Finish(t, now) => FinishStep(o, s, t, now)
  }
}
