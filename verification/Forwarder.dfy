/** The sending loops of a node's channel manager (dozer-core/src/forwarder.rs), which the network model
    takes step by step. */
module Forwarder {
  import opened Wrappers
  import opened Messages
  import opened Network

  /** The senders of one output port, an entry of the `senders` table. */
  datatype Group = Group(port: nat, edges: seq<nat>)

  function Flatten(groups: seq<Group>): seq<nat> {
    if groups == [] then [] else groups[0].edges + Flatten(groups[1..])
  }

  function ToEach(edges: seq<nat>, m: Message): seq<Send> {
    if edges == [] then [] else [Send(edges[0], m)] + ToEach(edges[1..], m)
  }

  /** The senders of a port. */
  function EdgesOf(groups: seq<Group>, port: nat): seq<nat> {
    if groups == [] then [] else if groups[0].port == port then groups[0].edges else EdgesOf(groups[1..], port)
  }

  lemma {:induction false} FoundEdges(groups: seq<Group>, port: nat, g: nat)
    requires g <= |groups| && (forall i :: 0 <= i < g ==> groups[i].port != port)
    requires g < |groups| ==> groups[g].port == port
    ensures EdgesOf(groups, port) == if g < |groups| then groups[g].edges else []
  {
    if 0 < g {
      FoundEdges(groups[1..], port, g - 1);
    }
  }

  datatype SendError = InvalidPortHandle(port: nat)

  /** The table agrees with the wiring: every group has senders, all of its port, and ports are not
      repeated. */
  ghost predicate Grouped(net: Net, groups: seq<Group>) {
    && (forall g :: 0 <= g < |groups| ==> groups[g].edges != [])
    && (forall g, k :: 0 <= g < |groups| && 0 <= k < |groups[g].edges| ==>
          groups[g].edges[k] < |net.edges| && net.edges[groups[g].edges[k]].outPort == groups[g].port)
    && (forall g, g' :: 0 <= g < g' < |groups| ==> groups[g].port != groups[g'].port)
  }

  /** The state of a port's record writer. */
  type Store(!new, ==)

  type Write = (Store, Data) -> (Option<Data>, Store)

  /** What becomes of an operation for a port, None if its record writer refuses it, and of the writers. */
  function Recorded(write: Write, writers: map<nat, Store>, port: nat, data: Data): (Option<Data>, map<nat, Store>) {
    if port !in writers then (Some(data), writers)
    else
      var r := write(writers[port], data);
      (r.0, writers[port := r.1])
  }

  class ChannelManager {
    const groups: seq<Group>
    const write: Write
    var writers: map<nat, Store>
    var sent: seq<Send>

    constructor (groups: seq<Group>, writers: map<nat, Store>, write: Write)
      ensures this.groups == groups && this.writers == writers && this.write == write && sent == []
    {
      this.groups := groups;
      this.writers := writers;
      this.write := write;
      sent := [];
    }

    method SendToGroup(edges: seq<nat>, m: Message)
      modifies this`sent
      ensures sent == old(sent) + ToEach(edges, m)
    {
      var k := 0;
      while k < |edges|
        invariant 0 <= k <= |edges|
        invariant sent + ToEach(edges[k..], m) == old(sent) + ToEach(edges, m)
      {
        sent := sent + [Send(edges[k], m)];
        k := k + 1;
      }
    }

    method SendToAllPorts(m: Message)
      modifies this`sent
      ensures sent == old(sent) + BroadcastFrom(Flatten(groups), m, 0)
    {
      var g := 0;
      BroadcastIsToEach(Flatten(groups), m, 0);
      while g < |groups|
        invariant 0 <= g <= |groups|
        invariant sent == old(sent) + ToEach(Flatten(groups[..g]), m)
      {
        NextGroup(groups, g, m);
        SendToGroup(groups[g].edges, m);
        g := g + 1;
      }
      assert groups[..|groups|] == groups;
    }

    /** The place of the port's senders, or the number of groups. */
    method FindGroup(port: nat) returns (g: nat)
      ensures g <= |groups| && (g < |groups| ==> groups[g].port == port)
      ensures forall i :: 0 <= i < g ==> groups[i].port != port
    {
      g := 0;
      while g < |groups| && groups[g].port != port
        invariant 0 <= g <= |groups|
        invariant forall i :: 0 <= i < g ==> groups[i].port != port
      {
        g := g + 1;
      }
    }

    /** The port's record writer completes or refuses the operation, whether or not the port has senders; what it
        lets through goes to every sender of the port. A refused operation is not sent and is no error. */
    method SendOp(data: Data, tag: nat, port: nat) returns (r: Result<(), SendError>)
      modifies this
      ensures var recorded := Recorded(write, old(writers), port, data);
              && writers == recorded.1
              && match recorded.0
                 case None => r == Ok(()) && sent == old(sent)
                 case Some(d) =>
                   && (r == Err(InvalidPortHandle(port)) <==> forall g :: 0 <= g < |groups| ==> groups[g].port != port)
                   && sent == old(sent) + ToEach(EdgesOf(groups, port), Op(d, tag))
    {
      var op := data;
      if port in writers {
        var (written, store) := write(writers[port], data);
        writers := writers[port := store];
        if written.None? {
          return Ok(());
        }
        op := written.value;
      }
      var g := FindGroup(port);
      FoundEdges(groups, port, g);
      if g == |groups| {
        return Err(InvalidPortHandle(port));
      }
      SendToGroup(groups[g].edges, Op(op, tag));
      return Ok(());
    }
  }

  lemma {:induction false} ToEachConcat(a: seq<nat>, b: seq<nat>, m: Message)
    ensures ToEach(a + b, m) == ToEach(a, m) + ToEach(b, m)
  {
    if a == [] {
      assert a + b == b;
    } else {
      assert (a + b)[1..] == a[1..] + b;
      ToEachConcat(a[1..], b, m);
    }
  }

  lemma {:induction false} FlattenConcat(a: seq<Group>, b: seq<Group>)
    ensures Flatten(a + b) == Flatten(a) + Flatten(b)
  {
    if a == [] {
      assert a + b == b;
    } else {
      assert (a + b)[1..] == a[1..] + b;
      FlattenConcat(a[1..], b);
    }
  }

  lemma NextGroup(groups: seq<Group>, g: nat, m: Message)
    requires g < |groups|
    ensures ToEach(Flatten(groups[..g + 1]), m) == ToEach(Flatten(groups[..g]), m) + ToEach(groups[g].edges, m)
  {
    assert groups[..g + 1] == groups[..g] + [groups[g]];
    FlattenConcat(groups[..g], [groups[g]]);
    assert Flatten([groups[g]]) == groups[g].edges + [] == groups[g].edges;
    ToEachConcat(Flatten(groups[..g]), groups[g].edges, m);
  }

  lemma {:induction false} BroadcastIsToEach(outs: seq<nat>, m: Message, next: nat)
    requires next <= |outs|
    ensures BroadcastFrom(outs, m, next) == ToEach(outs[next..], m)
    decreases |outs| - next
  {
    if next < |outs| {
      BroadcastIsToEach(outs, m, next + 1);
      assert outs[next..][1..] == outs[next + 1..];
    }
  }

  lemma {:induction false} RouteConcat(net: Net, a: seq<nat>, b: seq<nat>, port: nat, m: Message)
    ensures Route(net, a + b, port, m) == Route(net, a, port, m) + Route(net, b, port, m)
  {
    if a == [] {
      assert a + b == b;
    } else {
      assert (a + b)[1..] == a[1..] + b;
      RouteConcat(net, a[1..], b, port, m);
    }
  }

  lemma {:induction false} RouteOne(net: Net, edges: seq<nat>, of: nat, port: nat, m: Message)
    requires forall k :: 0 <= k < |edges| ==> edges[k] < |net.edges| && net.edges[edges[k]].outPort == of
    ensures Route(net, edges, port, m) == if of == port then ToEach(edges, m) else []
  {
    if edges != [] {
      RouteOne(net, edges[1..], of, port, m);
    }
  }

  /** The network's routing finds exactly the senders of the port's group. */
  lemma {:induction false} RouteGroups(net: Net, groups: seq<Group>, port: nat, m: Message, g: nat)
    requires Grouped(net, groups) && g <= |groups|
    requires forall i :: 0 <= i < g ==> groups[i].port != port
    requires g < |groups| ==> groups[g].port == port
    ensures Route(net, Flatten(groups), port, m) == if g < |groups| then ToEach(groups[g].edges, m) else []
  {
    if groups != [] {
      RouteConcat(net, groups[0].edges, Flatten(groups[1..]), port, m);
      RouteOne(net, groups[0].edges, groups[0].port, port, m);
      assert Grouped(net, groups[1..]);
      RouteGroups(net, groups[1..], port, m, if g == 0 then |groups| - 1 else g - 1);
    }
  }

  /** Where the table agrees with the wiring, `send_op` sends what the network routes. */
  lemma {:induction false} RouteIsGroup(net: Net, groups: seq<Group>, port: nat, m: Message)
    requires Grouped(net, groups)
    ensures Route(net, Flatten(groups), port, m) == ToEach(EdgesOf(groups, port), m)
  {
    if groups != [] {
      RouteConcat(net, groups[0].edges, Flatten(groups[1..]), port, m);
      RouteOne(net, groups[0].edges, groups[0].port, port, m);
      assert Grouped(net, groups[1..]);
      RouteIsGroup(net, groups[1..], port, m);
      if groups[0].port == port {
        NotInGroups(groups[1..], port);
      }
    }
  }

  lemma {:induction false} NotInGroups(groups: seq<Group>, port: nat)
    requires forall g :: 0 <= g < |groups| ==> groups[g].port != port
    ensures EdgesOf(groups, port) == []
  {
    if groups != [] {
      NotInGroups(groups[1..], port);
    }
  }

  // ---------------------------------------------------------------- the record writers over many operations

  datatype Sending = Sending(port: nat, data: Data)

  /** The writers after a sequence of operations, each for its port. */
  function WritersAfter(write: Write, writers: map<nat, Store>, ops: seq<Sending>): map<nat, Store> {
    if ops == [] then writers
    else
      var n := |ops| - 1;
      Recorded(write, WritersAfter(write, writers, ops[..n]), ops[n].port, ops[n].data).1
  }

  function ForPort(ops: seq<Sending>, port: nat): seq<Data> {
    if ops == [] then []
    else
      var n := |ops| - 1;
      if ops[n].port == port then ForPort(ops[..n], port) + [ops[n].data] else ForPort(ops[..n], port)
  }

  function StoreAfter(write: Write, store: Store, datas: seq<Data>): Store {
    if datas == [] then store
    else
      var n := |datas| - 1;
      write(StoreAfter(write, store, datas[..n]), datas[n]).1
  }

  /** A port's writer sees exactly the operations for its port, in order, refused ones included; and what it answers to
      the next one is what is sent, or nothing. */
  lemma {:induction false} WriterSeesItsPort(write: Write, writers: map<nat, Store>, ops: seq<Sending>, port: nat,
                                             data: Data)
    ensures WritersAfter(write, writers, ops).Keys == writers.Keys
    ensures port in writers ==>
              var store := StoreAfter(write, writers[port], ForPort(ops, port));
              && WritersAfter(write, writers, ops)[port] == store
              && Recorded(write, WritersAfter(write, writers, ops), port, data).0 == write(store, data).0
    ensures port !in writers ==> Recorded(write, WritersAfter(write, writers, ops), port, data).0 == Some(data)
  {
    if ops != [] {
      var n := |ops| - 1;
      WriterSeesItsPort(write, writers, ops[..n], port, data);
      WriterSeesItsPort(write, writers, ops[..n], ops[n].port, ops[n].data);
      if ops[n].port == port {
        assert (ForPort(ops[..n], port) + [ops[n].data])[..|ForPort(ops[..n], port)|] == ForPort(ops[..n], port);
      }
    }
  }
}
