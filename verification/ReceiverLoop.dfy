/** The alignment and termination logic that processors and sinks share
    (dozer-core/src/executor/receiver_loop.rs). */
module ReceiverLoop {
  import opened Wrappers
  import opened Messages
  import opened Sets

  datatype PortState = Open | Terminated

  /** The local variables of `receiver_loop`; `select` is the set of receivers in the `Select`. */
  datatype Loop = Loop(
    ports: seq<PortState>,
    commits: nat,
    epoch: nat,
    select: set<nat>,
    returned: bool)

  /** The calls `receiver_loop` makes into its node, in the order it makes them. */
  datatype Callback =
    | OnOp(port: nat, data: Data, tag: nat)
    | OnSnapshotting(port: nat, event: Snapshot, tag: nat)
    | OnCommit(epoch: Epoch)
    | OnTerminate

  datatype Outcome =
    | Panic
    | Next(loop: Loop, call: Option<Callback>)

  predicate AllTerminated(ports: seq<PortState>) {
    forall i :: 0 <= i < |ports| ==> ports[i] == Terminated
  }

  function Start(receivers: nat, epoch: nat): Loop {
    Loop(seq(receivers, i => Open), 0, epoch, Below(receivers), false)
  }

  /** One iteration of the loop after `sel.ready()` chose `index` and `recv` returned `m`.
      `Select::remove` panics on a receiver that is not in the select. */
  function Receive(l: Loop, index: nat, m: Message): Outcome
    requires index < |l.ports|
  {
    match m
    case Op(data, tag) => Next(l, Some(OnOp(index, data, tag)))
    case Snapshotting(event, tag) => Next(l, Some(OnSnapshotting(index, event, tag)))
    case Commit(epoch) =>
      if epoch.id != l.epoch || index !in l.select then
        Panic
      else if l.commits + 1 == |l.ports| then
        Next(l.(commits := 0, epoch := l.epoch + 1, select := Below(|l.ports|)), Some(OnCommit(epoch)))
      else
        Next(l.(commits := l.commits + 1, select := l.select - {index}), None)
    case Terminate =>
      if index !in l.select then
        Panic
      else
        var ports := l.ports[index := Terminated];
        if AllTerminated(ports) then
          Next(l.(ports := ports, select := l.select - {index}, returned := true), Some(OnTerminate))
        else
          Next(l.(ports := ports, select := l.select - {index}), None)
  }

  datatype Status = Running | Returned | Panicked

  /** Where a call of `receiver_loop` stands after a number of iterations. */
  datatype Progress = Progress(loop: Loop, log: seq<Callback>, read: seq<nat>, status: Status)

  /** Can `sel.ready()` return `index`: it is in the select and its channel has a message? */
  predicate Ready(l: Loop, receivers: seq<seq<Message>>, read: seq<nat>, index: nat)
    requires |l.ports| == |receivers| == |read|
  {
    index < |receivers| && index in l.select && read[index] < |receivers[index]|
  }

  function Iterate(p: Progress, receivers: seq<seq<Message>>, index: nat): (q: Progress)
    requires |p.loop.ports| == |receivers| == |p.read|
    requires Ready(p.loop, receivers, p.read, index)
    ensures |q.loop.ports| == |receivers| == |q.read|
  {
    var read := p.read[index := p.read[index] + 1];
    match Receive(p.loop, index, receivers[index][p.read[index]])
    case Panic => p.(read := read, status := Panicked)
    case Next(loop, call) =>
      Progress(loop, if call.Some? then p.log + [call.value] else p.log, read,
               if loop.returned then Returned else Running)
  }

  /** The first `k` iterations, `schedule` being the receivers `sel.ready()` picked. An iteration
      that picks a receiver that is not ready does not happen. */
  function Iterations(receivers: seq<seq<Message>>, epoch: nat, schedule: seq<nat>, k: nat): (p: Progress)
    requires k <= |schedule|
    ensures |p.loop.ports| == |receivers| == |p.read|
  {
    if k == 0 then
      Progress(Start(|receivers|, epoch), [], seq(|receivers|, i => 0), Running)
    else
      var p := Iterations(receivers, epoch, schedule, k - 1);
      if p.status == Running && Ready(p.loop, receivers, p.read, schedule[k - 1])
      then Iterate(p, receivers, schedule[k - 1])
      else p
  }

  /** `receiver_loop` itself, run against the full contents of its channels. */
  class Receiver {
    var portStates: array<PortState>
    var commitsReceived: nat
    var epochId: nat
    var select: set<nat>
    var status: Status
    var log: seq<Callback>
    var read: seq<nat>

    ghost predicate Valid()
      reads this
    {
      portStates.Length == |read|
    }

    ghost function Model(): Progress
      reads this, portStates
    {
      Progress(Loop(portStates[..], commitsReceived, epochId, select, status == Returned), log, read, status)
    }

    constructor (receivers: nat, initialEpochId: nat)
      ensures Valid() && fresh(portStates) && portStates.Length == receivers
      ensures Model() == Progress(Start(receivers, initialEpochId), [], seq(receivers, i => 0), Running)
    {
      portStates := new PortState[receivers](i => Open);
      commitsReceived := 0;
      epochId := initialEpochId;
      select := Below(receivers);
      status := Running;
      log := [];
      read := seq(receivers, i => 0);
      new;
      assert portStates[..] == Start(receivers, initialEpochId).ports;
    }

    method AllPortsTerminated() returns (all: bool)
      ensures all <==> AllTerminated(portStates[..])
    {
      for i := 0 to portStates.Length
        invariant forall j :: 0 <= j < i ==> portStates[j] == Terminated
      {
        if portStates[i] != Terminated {
          return false;
        }
      }
      return true;
    }

    method Step(index: nat, receivers: seq<seq<Message>>)
      requires Valid() && |receivers| == portStates.Length && status == Running
      requires Ready(Model().loop, receivers, read, index)
      modifies this, portStates
      ensures Valid() && portStates == old(portStates)
      ensures Model() == Iterate(old(Model()), receivers, index)
    {
      var op := receivers[index][read[index]];
      read := read[index := read[index] + 1];
      match op {
        case Op(data, tag) =>
          log := log + [OnOp(index, data, tag)];
        case Snapshotting(event, tag) =>
          log := log + [OnSnapshotting(index, event, tag)];
        case Commit(epoch) =>
          if epoch.id != epochId {
            status := Panicked;
            return;
          }
          commitsReceived := commitsReceived + 1;
          select := select - {index};
          if commitsReceived == portStates.Length {
            log := log + [OnCommit(epoch)];
            epochId := epochId + 1;
            commitsReceived := 0;
            select := Below(portStates.Length);
          }
        case Terminate =>
          portStates[index] := Terminated;
          select := select - {index};
          var all := AllPortsTerminated();
          if all {
            log := log + [OnTerminate];
            status := Returned;
          }
      }
    }

    method Run(receivers: seq<seq<Message>>, schedule: seq<nat>, initialEpochId: nat)
      requires Valid() && |receivers| == portStates.Length
      requires Model() == Iterations(receivers, initialEpochId, schedule, 0)
      modifies this, portStates
      ensures Valid() && portStates == old(portStates)
      ensures Model() == Iterations(receivers, initialEpochId, schedule, |schedule|)
    {
      for k := 0 to |schedule|
        invariant Valid() && portStates == old(portStates)
        invariant Model() == Iterations(receivers, initialEpochId, schedule, k)
      {
        var index := schedule[k];
        if status == Running && index < |receivers| && index in select && read[index] < |receivers[index]| {
          Step(index, receivers);
        }
      }
    }
  }
}
