/** Starting a pipeline (dozer-core/src/executor/mod.rs): from a validated and built DAG to the network of
    threads and channels. */
module Wiring {
  import opened Wrappers
  import opened Graphs
  import opened Dag
  import opened DagSchemas
  import opened AncestorSources
  import opened BuilderDag
  import opened ExecutionDag
  import opened Messages
  import opened SchemaMeaning
  import Network
  import Forwarder

  // ---------------------------------------------------------------- what a validated DAG gives

  ghost predicate Fed(g: BuiltDag, n: nat) {
    exists a :: a in g.arcs && a.dst == n
  }

  ghost predicate NothingLeavesSinks(g: BuiltDag) {
    forall a :: a in g.arcs ==> a.src < |g.nodes| && !g.nodes[a.src].kind.BuiltSink?
  }

  /** No edge leaves a sink or enters a source, and every other node has one. */
  ghost predicate Startable(g: BuiltDag) {
    && Acyclic(g) && InRange(g) && NothingLeavesSinks(g)
    && (forall a :: a in g.arcs ==> !g.nodes[a.dst].kind.BuiltSource?)
    && (forall n :: 0 <= n < |g.nodes| && !g.nodes[n].kind.BuiltSource? ==> Fed(g, n))
  }

  /** A validated DAG and what has been built from it. */
  ghost predicate BuiltDagOf(g: DagGraph, dag: SchemaDag, f: Builders, built: BuiltDag, index: map<nat, nat>) {
    && GraphOk(g) && Connected(g) && SameStructure(g, dag) && Isomorphic(dag, built, index) && Acyclic(built)
    && forall n :: 0 <= n < |dag.nodes| ==> BuiltFrom(dag, f, n, built.nodes[index[n]])
  }

  lemma NoEdgeFromSink(g: DagGraph, dag: SchemaDag, f: Builders, built: BuiltDag, index: map<nat, nat>, k: nat)
    requires BuiltDagOf(g, dag, f, built, index) && k < |built.arcs|
    ensures built.arcs[k].src < |built.nodes| && !built.nodes[built.arcs[k].src].kind.BuiltSink?
  {
    assert RenumberedArc(dag.arcs[k], built.arcs[k], index);
    assert g.arcs[k] in g.arcs;
    assert BuiltFrom(dag, f, g.arcs[k].src, built.nodes[built.arcs[k].src]);
  }

  lemma NoEdgeIntoSource(g: DagGraph, dag: SchemaDag, f: Builders, built: BuiltDag, index: map<nat, nat>, k: nat)
    requires BuiltDagOf(g, dag, f, built, index) && k < |built.arcs|
    ensures built.arcs[k].dst < |built.nodes| && !built.nodes[built.arcs[k].dst].kind.BuiltSource?
  {
    assert RenumberedArc(dag.arcs[k], built.arcs[k], index);
    assert g.arcs[k] in g.arcs;
    assert BuiltFrom(dag, f, g.arcs[k].dst, built.nodes[built.arcs[k].dst]);
  }

  lemma NodeFed(g: DagGraph, dag: SchemaDag, f: Builders, built: BuiltDag, index: map<nat, nat>, p: nat)
    requires BuiltDagOf(g, dag, f, built, index) && p < |built.nodes| && !built.nodes[p].kind.BuiltSource?
    ensures Fed(built, p)
  {
    assert Taken(index, p);
    var n :| n in index && index[n] == p;
    assert BuiltFrom(dag, f, n, built.nodes[p]);
    assert NodeConnected(g, n);
    var arc := SomeoneFeeds(g, n);
    var k :| 0 <= k < |g.arcs| && g.arcs[k] == arc;
    assert RenumberedArc(dag.arcs[k], built.arcs[k], index);
    assert built.arcs[k] in built.arcs;
  }

  lemma BuiltIsStartable(g: DagGraph, dag: SchemaDag, f: Builders, built: BuiltDag, index: map<nat, nat>)
    requires BuiltDagOf(g, dag, f, built, index)
    ensures Startable(built)
  {
    forall a | a in built.arcs
      ensures a.dst < |built.nodes| && !built.nodes[a.dst].kind.BuiltSource?
      ensures a.src < |built.nodes| && !built.nodes[a.src].kind.BuiltSink?
    {
      var k :| 0 <= k < |built.arcs| && built.arcs[k] == a;
      NoEdgeIntoSource(g, dag, f, built, index, k);
      NoEdgeFromSink(g, dag, f, built, index, k);
    }
    forall p | 0 <= p < |built.nodes| && !built.nodes[p].kind.BuiltSource?
      ensures Fed(built, p)
    {
      NodeFed(g, dag, f, built, index, p);
    }
  }

  /** The writer that edge k of a built DAG asks for: none, unless the edge leaves a port of a source whose type needs
      one; then the one restored for the source's handle, the port's name and the port's schema. */
  ghost predicate WriterMeans(g: DagGraph, f: Factories, recorders: Recorders, k: nat, asked: Option<Option<Writer>>)
    requires InRange(g) && k < |g.arcs|
  {
    assert g.arcs[k] in g.arcs;
    var n, port := g.arcs[k].src, g.arcs[k].weight.from;
    if !g.nodes[n].kind.Source? then asked == Some(None)
    else
      exists i :: 0 <= i < |g.nodes[n].kind.outs| && g.nodes[n].kind.outs[i] == port
        && WriterOfPort(g, f, recorders, n, port, i, asked)
  }

  ghost predicate WriterOfPort(g: DagGraph, f: Factories, recorders: Recorders, n: nat, port: nat, i: nat,
                               asked: Option<Option<Writer>>)
    requires n < |g.nodes|
  {
    var schema := f.sourceSchema(n, port);
    && schema.Some?
    && if !recorders.lookup(f.portType(n, i)) then asked == Some(None)
       else
         var writer := recorders.create(g.nodes[n].handle, f.portName(n, port), schema.value);
         asked == if writer.None? then None else Some(writer)
  }

  /** An edge of what was built carries the weight of the DAG's edge, and leaves the node of the same handle. */
  lemma BuiltEdge(g: DagGraph, dag: SchemaDag, b: Builders, built: BuiltDag, index: map<nat, nat>, k: nat)
    requires BuiltDagOf(g, dag, b, built, index) && k < |g.arcs|
    ensures k < |built.arcs| && k < |dag.arcs| && built.arcs[k].weight == dag.arcs[k].weight
    ensures g.arcs[k].src < |g.nodes| && built.arcs[k].src < |built.nodes|
    ensures built.nodes[built.arcs[k].src].handle == g.nodes[g.arcs[k].src].handle
  {
    assert g.arcs[k] in g.arcs;
    assert RenumberedArc(dag.arcs[k], built.arcs[k], index);
    assert BuiltFrom(dag, b, g.arcs[k].src, built.nodes[built.arcs[k].src]);
  }

  lemma SourceWriter(g: DagGraph, f: Factories, dag: SchemaDag, built: BuiltDag, recorders: Recorders, k: nat, n: nat)
    requires InRange(g) && SameStructure(g, dag) && InRange(built) && k < |g.arcs| == |built.arcs|
    requires n == g.arcs[k].src < |g.nodes| && g.nodes[n].kind.Source? && EdgeMeans(g, f, dag, k)
    requires built.arcs[k].weight == dag.arcs[k].weight && built.arcs[k].src < |built.nodes|
    requires built.nodes[built.arcs[k].src].handle == g.nodes[n].handle
    ensures WriterMeans(g, f, recorders, k, WriterFor(built, recorders, k))
  {
    var outs, port, edge := g.nodes[n].kind.outs, g.arcs[k].weight.from, dag.arcs[k].weight;
    var i :| 0 <= i < |outs| && outs[i] == port && port !in outs[..i]
             && edge.kind == FromSource(f.portType(n, i), f.portName(n, port));
    assert WriterOfPort(g, f, recorders, n, port, i, WriterFor(built, recorders, k));
  }

  lemma WritersMean(g: DagGraph, f: Factories, dag: SchemaDag, b: Builders, built: BuiltDag, index: map<nat, nat>,
                    recorders: Recorders, k: nat)
    requires ValidDag(g, f, dag) && BuiltDagOf(g, dag, b, built, index) && k < |g.arcs| && InRange(built)
    ensures k < |built.arcs| && WriterMeans(g, f, recorders, k, WriterFor(built, recorders, k))
  {
    EdgesMean(g, f, dag, k);
    BuiltEdge(g, dag, b, built, index, k);
    if g.nodes[g.arcs[k].src].kind.Source? {
      SourceWriter(g, f, dag, built, recorders, k, g.arcs[k].src);
    }
  }

  // ---------------------------------------------------------------- a topological order exists

  ghost predicate SortedBy(rank: seq<nat>, order: seq<nat>) {
    && (forall i :: 0 <= i < |order| ==> order[i] < |rank|)
    && (forall i, j :: 0 <= i < j < |order| ==> rank[order[i]] <= rank[order[j]] && order[i] != order[j])
  }

  lemma {:induction false} InsertSorted(rank: seq<nat>, order: seq<nat>, n: nat) returns (r: seq<nat>)
    requires SortedBy(rank, order) && n < |rank| && n !in order
    ensures SortedBy(rank, r) && forall m :: m in r <==> m == n || m in order
  {
    if order == [] || rank[order[|order| - 1]] <= rank[n] {
      r := order + [n];
    } else {
      var front, last := order[..|order| - 1], order[|order| - 1];
      assert order == front + [last];
      assert forall m :: m in front ==> rank[m] <= rank[last] && m != last;
      var front' := InsertSorted(rank, front, n);
      r := front' + [last];
      AppendSorted(rank, front', last);
    }
  }

  lemma AppendSorted(rank: seq<nat>, front: seq<nat>, last: nat)
    requires SortedBy(rank, front) && last < |rank|
    requires forall m :: m in front ==> m < |rank| && rank[m] <= rank[last] && m != last
    ensures SortedBy(rank, front + [last])
  {
    assert forall i :: 0 <= i < |front| ==> front[i] in front;
  }

  lemma {:induction false} SortAll(rank: seq<nat>, n: nat) returns (r: seq<nat>)
    requires n <= |rank|
    ensures SortedBy(rank, r) && forall m :: m in r <==> 0 <= m < n
  {
    if n == 0 {
      r := [];
    } else {
      r := SortAll(rank, n - 1);
      r := InsertSorted(rank, r, n - 1);
    }
  }

  /** Every DAG has a topological traversal. */
  lemma TopologicalExists<N, W>(g: Graph<N, W>) returns (order: seq<nat>)
    requires Acyclic(g)
    ensures Topological(g, order)
  {
    var rank :| Ranked(g, rank);
    order := SortAll(rank, |g.nodes|);
    forall i, a | 0 <= i < |order| && a in g.arcs && a.dst == order[i]
      ensures a.src in order[..i]
    {
      assert a.src in order;
      var j :| 0 <= j < |order| && order[j] == a.src;
      assert j < i;
      assert order[..i][j] == a.src;
    }
  }

  // ---------------------------------------------------------------- numbering the threads

  /** Thread 0 runs the sources; thread t + 1 runs node workers[t]; along every edge the number grows. */
  ghost predicate Numbered(g: BuiltDag, done: seq<nat>, workers: seq<nat>, threadOf: map<nat, nat>) {
    && (forall n :: n in threadOf <==> n in done)
    && (forall n :: n in threadOf ==> n < |g.nodes| && ThreadOk(g, workers, n, threadOf[n]))
    && (forall t :: 0 <= t < |workers| ==> workers[t] in threadOf && threadOf[workers[t]] == t + 1)
    && (forall a :: a in g.arcs && a.dst in threadOf ==> a.src in threadOf && threadOf[a.src] < threadOf[a.dst])
  }

  ghost predicate ThreadOk(g: BuiltDag, workers: seq<nat>, n: nat, t: nat)
    requires n < |g.nodes|
  {
    if g.nodes[n].kind.BuiltSource? then t == 0 else 0 < t <= |workers| && workers[t - 1] == n
  }

  lemma {:induction false} NumberThreads(g: BuiltDag, order: seq<nat>, i: nat)
    returns (workers: seq<nat>, threadOf: map<nat, nat>)
    requires Startable(g) && Topological(g, order) && i <= |order|
    ensures Numbered(g, order[..i], workers, threadOf)
  {
    if i == 0 {
      workers, threadOf := [], map[];
    } else {
      var n := order[i - 1];
      var workers0, threadOf0 := NumberThreads(g, order, i - 1);
      assert order[..i] == order[..i - 1] + [n];
      assert n !in order[..i - 1];
      assert forall a :: a in g.arcs && a.dst == n ==> a.src in order[..i - 1];
      if g.nodes[n].kind.BuiltSource? {
        workers, threadOf := workers0, threadOf0[n := 0];
        NumberSource(g, order[..i - 1], workers0, threadOf0, n);
      } else {
        workers, threadOf := workers0 + [n], threadOf0[n := |workers0| + 1];
        NumberWorker(g, order[..i - 1], workers0, threadOf0, n);
      }
    }
  }

  lemma NumberSource(g: BuiltDag, done: seq<nat>, workers: seq<nat>, threadOf: map<nat, nat>, n: nat)
    requires Startable(g) && Numbered(g, done, workers, threadOf) && n < |g.nodes| && n !in done
    requires g.nodes[n].kind.BuiltSource?
    ensures Numbered(g, done + [n], workers, threadOf[n := 0])
  {
  }

  lemma NumberWorker(g: BuiltDag, done: seq<nat>, workers: seq<nat>, threadOf: map<nat, nat>, n: nat)
    requires Numbered(g, done, workers, threadOf) && n < |g.nodes| && n !in done
    requires !g.nodes[n].kind.BuiltSource? && forall a :: a in g.arcs && a.dst == n ==> a.src in done
    ensures Numbered(g, done + [n], workers + [n], threadOf[n := |workers| + 1])
  {
    var workers', threadOf' := workers + [n], threadOf[n := |workers| + 1];
    forall m | m in threadOf'
      ensures m < |g.nodes| && ThreadOk(g, workers', m, threadOf'[m])
    {
      if m != n {
        assert ThreadOk(g, workers, m, threadOf[m]);
      }
    }
    forall a | a in g.arcs && a.dst in threadOf'
      ensures a.src in threadOf' && threadOf'[a.src] < threadOf'[a.dst]
    {
      if a.dst == n {
        assert a.src != n && ThreadOk(g, workers, a.src, threadOf[a.src]);
      }
    }
  }

  // ---------------------------------------------------------------- the channels of a node

  lemma {:induction false} EnteringElements(g: BuiltDag, node: nat, start: nat)
    requires start <= |g.arcs|
    ensures forall e :: e in Entering(g, node, start) <==> start <= e < |g.arcs| && g.arcs[e].dst == node
    ensures Network.NoDuplicates(Entering(g, node, start))
    decreases |g.arcs| - start
  {
    if start < |g.arcs| {
      EnteringElements(g, node, start + 1);
    }
  }

  lemma {:induction false} LeavingElements(g: BuiltDag, node: nat, port: nat, start: nat)
    requires start <= |g.arcs|
    ensures forall e :: e in Leaving(g, node, port, start) <==> start <= e && FromPort(g, e, node, port)
    ensures Network.NoDuplicates(Leaving(g, node, port, start))
    decreases |g.arcs| - start
  {
    if start < |g.arcs| {
      LeavingElements(g, node, port, start + 1);
    }
  }

  /** The list holds every edge out of the nodes once. */
  ghost predicate SendsFrom(g: BuiltDag, nodes: set<nat>, s: seq<nat>) {
    && Network.NoDuplicates(s)
    && (forall e :: e in s <==> 0 <= e < |g.arcs| && g.arcs[e].src in nodes)
  }

  /** The senders as the channel manager iterates over them, in some order of the ports. */
  ghost predicate Enumerated(senders: map<nat, seq<nat>>, groups: seq<Forwarder.Group>) {
    && (forall i :: 0 <= i < |groups| ==> groups[i].port in senders && groups[i].edges == senders[groups[i].port])
    && (forall i, j :: 0 <= i < j < |groups| ==> groups[i].port != groups[j].port)
    && (forall p :: p in senders ==> exists i :: 0 <= i < |groups| && groups[i].port == p)
  }

  lemma {:induction false} FlattenElements(groups: seq<Forwarder.Group>, e: nat)
    ensures e in Forwarder.Flatten(groups) <==> exists i :: 0 <= i < |groups| && e in groups[i].edges
  {
    if groups != [] {
      FlattenElements(groups[1..], e);
      if exists i :: 0 <= i < |groups| && e in groups[i].edges {
        var i :| 0 <= i < |groups| && e in groups[i].edges;
        assert 0 < i ==> groups[1..][i - 1] == groups[i];
      }
    }
  }

  lemma {:induction false} FlattenDistinct(g: BuiltDag, node: nat, groups: seq<Forwarder.Group>)
    requires forall i :: 0 <= i < |groups| ==> groups[i].edges == Leaving(g, node, groups[i].port, 0)
    requires forall i, j :: 0 <= i < j < |groups| ==> groups[i].port != groups[j].port
    ensures Network.NoDuplicates(Forwarder.Flatten(groups))
  {
    if groups != [] {
      FlattenDistinct(g, node, groups[1..]);
      LeavingElements(g, node, groups[0].port, 0);
      var rest := Forwarder.Flatten(groups[1..]);
      forall e | e in groups[0].edges
        ensures e !in rest
      {
        FlattenElements(groups[1..], e);
        if e in rest {
          var i :| 0 <= i < |groups[1..]| && e in groups[1..][i].edges;
          LeavingElements(g, node, groups[i + 1].port, 0);
        }
      }
      ConcatDistinct(groups[0].edges, rest);
    }
  }

  lemma ConcatDistinct(s: seq<nat>, t: seq<nat>)
    requires Network.NoDuplicates(s) && Network.NoDuplicates(t) && forall e :: e in s ==> e !in t
    ensures Network.NoDuplicates(s + t)
  {
    forall i, j | 0 <= i < j < |s + t|
      ensures (s + t)[i] != (s + t)[j]
    {
      if i < |s| <= j {
        assert s[i] in s && t[j - |s|] in t;
      }
    }
  }

  lemma GroupsSend(g: BuiltDag, node: nat, groups: seq<Forwarder.Group>)
    requires GroupsOf(g, node, groups)
    ensures SendsFrom(g, {node}, Forwarder.Flatten(groups))
  {
    FlattenDistinct(g, node, groups);
    var s := Forwarder.Flatten(groups);
    forall e: nat
      ensures e in s <==> 0 <= e < |g.arcs| && g.arcs[e].src in {node}
    {
      FlattenElements(groups, e);
      if e in s {
        var i :| 0 <= i < |groups| && e in groups[i].edges;
        LeavingElements(g, node, groups[i].port, 0);
      }
      if e < |g.arcs| && g.arcs[e].src == node {
        var p := g.arcs[e].weight.outputPort;
        assert HasGroup(groups, p);
        LeavingElements(g, node, p, 0);
        assert FromPort(g, e, node, p);
      }
    }
  }

  /** Whatever the order of the ports, a node sends to each of its edges once. */
  lemma FlattenSends(g: BuiltDag, node: nat, senders: map<nat, seq<nat>>, groups: seq<Forwarder.Group>)
    requires SendersOk(g, node, senders, 0) && Enumerated(senders, groups)
    ensures SendsFrom(g, {node}, Forwarder.Flatten(groups))
  {
    EnumeratedGroups(g, node, senders, groups);
    GroupsSend(g, node, groups);
  }

  lemma AppendSends(g: BuiltDag, nodes: set<nat>, s: seq<nat>, node: nat, t: seq<nat>)
    requires SendsFrom(g, nodes, s) && SendsFrom(g, {node}, t) && node !in nodes
    ensures SendsFrom(g, nodes + {node}, s + t)
  {
    ConcatDistinct(s, t);
  }

  method EnumerateSenders(senders: map<nat, seq<nat>>) returns (groups: seq<Forwarder.Group>)
    ensures Enumerated(senders, groups)
  {
    groups := [];
    var left := senders.Keys;
    while left != {}
      invariant left <= senders.Keys
      invariant forall i :: 0 <= i < |groups| ==>
                  groups[i].port in senders && groups[i].port !in left && groups[i].edges == senders[groups[i].port]
      invariant forall i, j :: 0 <= i < j < |groups| ==> groups[i].port != groups[j].port
      invariant forall p :: p in senders && p !in left ==> exists i :: 0 <= i < |groups| && groups[i].port == p
      decreases |left|
    {
      var port :| port in left;
      ghost var groups0, left0 := groups, left;
      left := left - {port};
      groups := groups + [Forwarder.Group(port, senders[port])];
      forall p | p in senders && p !in left
        ensures exists i :: 0 <= i < |groups| && groups[i].port == p
      {
        if p in left0 {
          assert groups[|groups0|].port == p;
        } else {
          var i :| 0 <= i < |groups0| && groups0[i].port == p;
          assert groups[i] == groups0[i];
        }
      }
    }
  }

  /** What the started threads hold: per node its receivers and its senders; of the sources' senders one list. */
  ghost predicate ChannelsOf(g: BuiltDag, n: nat, entering: seq<nat>, leaving: seq<nat>) {
    entering == Entering(g, n, 0) && SendsFrom(g, {n}, leaving)
  }

  ghost function SourcesBelow(g: BuiltDag, i: nat): set<nat>
    requires i <= |g.nodes|
  {
    set n | 0 <= n < i && g.nodes[n].kind.BuiltSource?
  }

  /** The table of a node's channel manager: every output port that has edges, with all of them. */
  ghost predicate GroupsOf(g: BuiltDag, n: nat, groups: seq<Forwarder.Group>) {
    && (forall i :: 0 <= i < |groups| ==>
          groups[i].edges != [] && groups[i].edges == Leaving(g, n, groups[i].port, 0))
    && (forall i, j :: 0 <= i < j < |groups| ==> groups[i].port != groups[j].port)
    && (forall k :: 0 <= k < |g.arcs| && g.arcs[k].src == n ==> HasGroup(groups, g.arcs[k].weight.outputPort))
  }

  ghost predicate HasGroup(groups: seq<Forwarder.Group>, port: nat) {
    exists i :: 0 <= i < |groups| && groups[i].port == port
  }

  lemma EnumeratedGroups(g: BuiltDag, n: nat, senders: map<nat, seq<nat>>, groups: seq<Forwarder.Group>)
    requires SendersOk(g, n, senders, 0) && Enumerated(senders, groups)
    ensures GroupsOf(g, n, groups)
  {
    forall k | 0 <= k < |g.arcs| && g.arcs[k].src == n
      ensures HasGroup(groups, g.arcs[k].weight.outputPort)
    {
      var p := g.arcs[k].weight.outputPort;
      LeavingElements(g, n, p, 0);
      assert FromPort(g, k, n, p);
      assert p in senders;
    }
  }

  /** The channel manager of a node, its senders and its writers taken out of the DAG. */
  method TakeSenders(dag: Executable, n: nat) returns (groups: seq<Forwarder.Group>)
    requires dag.Valid()
    modifies dag
    ensures dag.Valid() && GroupsOf(dag.graph, n, groups) && SendsFrom(dag.graph, {n}, Forwarder.Flatten(groups))
  {
    var senders, writers := dag.CollectSendersAndRecordWriters(n);
    groups := EnumerateSenders(senders);
    EnumeratedGroups(dag.graph, n, senders, groups);
    FlattenSends(dag.graph, n, senders, groups);
  }

  /** The senders of the sources below i, one source after the other: the order of `send_to_all_nodes`. */
  function SourceSenders(g: BuiltDag, managers: seq<seq<Forwarder.Group>>, i: nat): seq<nat>
    requires i <= |g.nodes| == |managers|
  {
    if i == 0 then []
    else if g.nodes[i - 1].kind.BuiltSource? then
      SourceSenders(g, managers, i - 1) + Forwarder.Flatten(managers[i - 1])
    else SourceSenders(g, managers, i - 1)
  }

  lemma {:induction false} SourceSendersFrame(g: BuiltDag, managers: seq<seq<Forwarder.Group>>,
                                              managers': seq<seq<Forwarder.Group>>, i: nat)
    requires i <= |g.nodes| == |managers| == |managers'|
    requires forall n :: 0 <= n < i && g.nodes[n].kind.BuiltSource? ==> managers'[n] == managers[n]
    ensures SourceSenders(g, managers', i) == SourceSenders(g, managers, i)
  {
    if 0 < i {
      SourceSendersFrame(g, managers, managers', i - 1);
    }
  }

  /** `create_source_node`: the channel managers of all sources, one after the other. */
  method CreateSourceNode(dag: Executable) returns (leaving: seq<nat>, managers: seq<seq<Forwarder.Group>>)
    requires dag.Valid()
    modifies dag
    ensures dag.Valid() && SendsFrom(dag.graph, SourcesBelow(dag.graph, |dag.graph.nodes|), leaving)
    ensures |managers| == |dag.graph.nodes| && leaving == SourceSenders(dag.graph, managers, |managers|)
    ensures forall n :: 0 <= n < |managers| && dag.graph.nodes[n].kind.BuiltSource? ==>
              GroupsOf(dag.graph, n, managers[n])
  {
    leaving, managers := [], seq(|dag.graph.nodes|, _ => []);
    for n := 0 to |dag.graph.nodes|
      invariant dag.Valid() && SendsFrom(dag.graph, SourcesBelow(dag.graph, n), leaving)
      invariant |managers| == |dag.graph.nodes| && leaving == SourceSenders(dag.graph, managers, n)
      invariant forall m :: 0 <= m < n && dag.graph.nodes[m].kind.BuiltSource? ==> GroupsOf(dag.graph, m, managers[m])
    {
      ghost var before := SourcesBelow(dag.graph, n);
      if dag.graph.nodes[n].kind.BuiltSource? {
        var groups := TakeSenders(dag, n);
        AppendSends(dag.graph, before, leaving, n, Forwarder.Flatten(groups));
        SourceSendersFrame(dag.graph, managers, managers[n := groups], n);
        managers := managers[n := groups];
        leaving := leaving + Forwarder.Flatten(groups);
        assert SourcesBelow(dag.graph, n + 1) == before + {n};
      } else {
        assert SourcesBelow(dag.graph, n + 1) == before;
      }
    }
  }

  lemma SinkSendsNothing(g: BuiltDag, n: nat)
    requires NothingLeavesSinks(g) && n < |g.nodes| && g.nodes[n].kind.BuiltSink?
    ensures SendsFrom(g, {n}, []) && GroupsOf(g, n, [])
  {
    assert forall k :: 0 <= k < |g.arcs| ==> g.arcs[k] in g.arcs;
  }

  /** The senders of a node that is not a source are those of its channel manager. */
  ghost predicate ManagerOf(g: BuiltDag, n: nat, leaving: seq<nat>, groups: seq<Forwarder.Group>) {
    leaving == Forwarder.Flatten(groups) && GroupsOf(g, n, groups)
  }

  /** The channels of a processor or sink. */
  method TakeChannels(dag: Executable, n: nat) returns (entering: seq<nat>, groups: seq<Forwarder.Group>)
    requires dag.Valid() && NothingLeavesSinks(dag.graph) && n < |dag.graph.nodes|
    requires !dag.graph.nodes[n].kind.BuiltSource?
    modifies dag
    ensures dag.Valid() && ChannelsOf(dag.graph, n, entering, Forwarder.Flatten(groups))
    ensures ManagerOf(dag.graph, n, Forwarder.Flatten(groups), groups)
  {
    var ports;
    ports, entering := dag.CollectReceivers(n);
    if dag.graph.nodes[n].kind.BuiltProcessor? {
      groups := TakeSenders(dag, n);
    } else {
      groups := [];
      SinkSendsNothing(dag.graph, n);
    }
  }

  /** `DagExecutor::start`: the source thread's senders, and every other node's receivers and senders. */
  method Start(dag: Executable) returns (c: Channels)
    requires dag.Valid() && NothingLeavesSinks(dag.graph)
    modifies dag
    ensures dag.Valid() && ChannelsOk(dag.graph, c)
  {
    var sources, managers := CreateSourceNode(dag);
    ghost var created := managers;
    var entering, leaving := [], [];
    for n := 0 to |dag.graph.nodes|
      invariant dag.Valid() && |entering| == |leaving| == n && |managers| == |created|
      invariant forall m :: 0 <= m < |managers| && dag.graph.nodes[m].kind.BuiltSource? ==> managers[m] == created[m]
      invariant forall m :: 0 <= m < n && !dag.graph.nodes[m].kind.BuiltSource? ==>
                  && ChannelsOf(dag.graph, m, entering[m], leaving[m])
                  && ManagerOf(dag.graph, m, leaving[m], managers[m])
    {
      if dag.graph.nodes[n].kind.BuiltSource? {
        entering, leaving := entering + [[]], leaving + [[]];
      } else {
        var receivers, groups := TakeChannels(dag, n);
        managers := managers[n := groups];
        entering, leaving := entering + [receivers], leaving + [Forwarder.Flatten(groups)];
      }
    }
    SourceSendersFrame(dag.graph, created, managers, |managers|);
    c := Channels(sources, entering, leaving, managers);
  }

  // ---------------------------------------------------------------- the network

  /** The name of an edge's output port within its thread. The source thread serves the ports of all sources, which
      the cells of the record writers tell apart. */
  function PortName(g: BuiltDag, cellOf: seq<nat>, k: nat): nat
    requires InRange(g) && k < |g.arcs| == |cellOf|
  {
    assert g.arcs[k] in g.arcs;
    if g.nodes[g.arcs[k].src].kind.BuiltSource? then cellOf[k] else g.arcs[k].weight.outputPort
  }

  /** The senders of the source thread; of every other node its receivers and senders; and of all nodes the tables of
      their channel managers. */
  datatype Channels = Channels(
    sources: seq<nat>,
    entering: seq<seq<nat>>,
    leaving: seq<seq<nat>>,
    managers: seq<seq<Forwarder.Group>>)

  /** What Start returns. */
  ghost predicate ChannelsOk(g: BuiltDag, c: Channels) {
    && SendsFrom(g, SourcesBelow(g, |g.nodes|), c.sources) && |c.entering| == |c.leaving| == |g.nodes|
    && (forall n :: 0 <= n < |g.nodes| && !g.nodes[n].kind.BuiltSource? ==>
          ChannelsOf(g, n, c.entering[n], c.leaving[n]))
    && ManagersOk(g, c)
  }

  ghost predicate ManagersOk(g: BuiltDag, c: Channels) {
    && |c.managers| == |c.leaving| == |g.nodes| && c.sources == SourceSenders(g, c.managers, |g.nodes|)
    && (forall n :: 0 <= n < |g.nodes| && !g.nodes[n].kind.BuiltSource? ==>
          ManagerOf(g, n, c.leaving[n], c.managers[n]))
    && (forall n :: 0 <= n < |g.nodes| && g.nodes[n].kind.BuiltSource? ==> GroupsOf(g, n, c.managers[n]))
  }

  /** The network of the started threads, numbered as given. */
  ghost predicate Runs(net: Network.Net, g: BuiltDag, cellOf: seq<nat>, workers: seq<nat>, threadOf: map<nat, nat>,
                       c: Channels) {
    && InRange(g) && |net.ins| == |net.outs| == |workers| + 1 && |net.edges| == |g.arcs| == |cellOf|
    && (forall k :: 0 <= k < |g.arcs| ==> Carries(g, cellOf, threadOf, net.edges[k], k))
    && net.ins[0] == [] && net.outs[0] == c.sources
    && forall t :: 0 <= t < |workers| ==>
         && workers[t] < |c.entering| == |c.leaving|
         && net.ins[t + 1] == c.entering[workers[t]] && net.outs[t + 1] == c.leaving[workers[t]]
  }

  ghost predicate Carries(g: BuiltDag, cellOf: seq<nat>, threadOf: map<nat, nat>, e: Network.Edge, k: nat)
    requires InRange(g) && k < |g.arcs| == |cellOf|
  {
    var arc := g.arcs[k];
    && arc.src in threadOf && e.src == threadOf[arc.src] && arc.dst in threadOf && e.dst == threadOf[arc.dst]
    && e.outPort == PortName(g, cellOf, k)
  }

  /** A thread's senders and receivers are exactly the channels from and to its node. */
  ghost predicate ThreadWired(net: Network.Net, t: nat)
    requires t < |net.ins| == |net.outs|
  {
    && Network.NoDuplicates(net.ins[t]) && Network.NoDuplicates(net.outs[t])
    && (forall e :: e in net.ins[t] <==> 0 <= e < |net.edges| && net.edges[e].dst == t)
    && (forall e :: e in net.outs[t] <==> 0 <= e < |net.edges| && net.edges[e].src == t)
  }

  /** Everything that starting a built DAG establishes. */
  ghost predicate Started(net: Network.Net, g: BuiltDag, cellOf: seq<nat>, size: nat, workers: seq<nat>,
                          threadOf: map<nat, nat>, c: Channels) {
    && Startable(g) && SharedByPort(g, cellOf, size) && AllNumbered(g, workers, threadOf)
    && Runs(net, g, cellOf, workers, threadOf, c) && ChannelsOk(g, c)
  }

  ghost predicate AllNumbered(g: BuiltDag, workers: seq<nat>, threadOf: map<nat, nat>) {
    && (forall n :: n in threadOf <==> 0 <= n < |g.nodes|)
    && Numbered(g, seq(|g.nodes|, i => i), workers, threadOf)
  }

  lemma NumberAll(g: BuiltDag) returns (workers: seq<nat>, threadOf: map<nat, nat>)
    requires Startable(g)
    ensures AllNumbered(g, workers, threadOf)
  {
    var order := TopologicalExists(g);
    workers, threadOf := NumberThreads(g, order, |order|);
    assert order[..|order|] == order;
    var all := seq(|g.nodes|, i => i);
    forall n: nat
      ensures n in order <==> 0 <= n < |g.nodes|
      ensures n in all <==> 0 <= n < |g.nodes|
    {
      assert 0 <= n < |g.nodes| ==> all[n] == n;
    }
  }

  /** An edge belongs to a worker's thread exactly if it belongs to the worker. */
  lemma EdgeOfWorker(g: BuiltDag, cellOf: seq<nat>, workers: seq<nat>, threadOf: map<nat, nat>, e: Network.Edge,
                     k: nat, t: nat)
    requires InRange(g) && k < |g.arcs| == |cellOf| && AllNumbered(g, workers, threadOf) && t < |workers|
    requires Carries(g, cellOf, threadOf, e, k)
    ensures e.src == t + 1 <==> g.arcs[k].src == workers[t]
    ensures e.dst == t + 1 <==> g.arcs[k].dst == workers[t]
    ensures e.src < e.dst <= |workers| && (e.src == 0 <==> g.arcs[k].src in SourcesBelow(g, |g.nodes|))
  {
    EdgeOfThread(g, cellOf, workers, threadOf, e, k);
    assert ThreadOk(g, workers, g.arcs[k].src, threadOf[g.arcs[k].src]);
    assert ThreadOk(g, workers, g.arcs[k].dst, threadOf[g.arcs[k].dst]);
  }

  lemma EdgeOfThread(g: BuiltDag, cellOf: seq<nat>, workers: seq<nat>, threadOf: map<nat, nat>, e: Network.Edge, k: nat)
    requires InRange(g) && k < |g.arcs| == |cellOf| && AllNumbered(g, workers, threadOf)
    requires Carries(g, cellOf, threadOf, e, k)
    ensures e.src < e.dst <= |workers| && (e.src == 0 <==> g.arcs[k].src in SourcesBelow(g, |g.nodes|))
  {
    assert g.arcs[k] in g.arcs;
    assert ThreadOk(g, workers, g.arcs[k].src, threadOf[g.arcs[k].src]);
    assert ThreadOk(g, workers, g.arcs[k].dst, threadOf[g.arcs[k].dst]);
  }

  lemma SourceThreadWired(net: Network.Net, g: BuiltDag, cellOf: seq<nat>, workers: seq<nat>, threadOf: map<nat, nat>,
                          c: Channels)
    requires Runs(net, g, cellOf, workers, threadOf, c) && AllNumbered(g, workers, threadOf)
    requires SendsFrom(g, SourcesBelow(g, |g.nodes|), c.sources)
    ensures ThreadWired(net, 0)
  {
    forall e: nat | e < |net.edges|
      ensures net.edges[e].dst != 0 && (net.edges[e].src == 0 <==> g.arcs[e].src in SourcesBelow(g, |g.nodes|))
    {
      EdgeOfThread(g, cellOf, workers, threadOf, net.edges[e], e);
    }
  }

  lemma WorkerThreadWired(net: Network.Net, g: BuiltDag, cellOf: seq<nat>, workers: seq<nat>, threadOf: map<nat, nat>,
                          c: Channels, t: nat)
    requires Runs(net, g, cellOf, workers, threadOf, c) && AllNumbered(g, workers, threadOf) && t < |workers|
    requires ChannelsOf(g, workers[t], net.ins[t + 1], net.outs[t + 1])
    ensures ThreadWired(net, t + 1)
  {
    EnteringElements(g, workers[t], 0);
    forall e: nat | e < |net.edges|
      ensures net.edges[e].src == t + 1 <==> g.arcs[e].src == workers[t]
      ensures net.edges[e].dst == t + 1 <==> g.arcs[e].dst == workers[t]
    {
      EdgeOfWorker(g, cellOf, workers, threadOf, net.edges[e], e, t);
    }
  }

  lemma WorkerFed(g: BuiltDag, n: nat, entering: seq<nat>)
    requires Fed(g, n) && entering == Entering(g, n, 0)
    ensures entering != []
  {
    EnteringElements(g, n, 0);
    var a :| a in g.arcs && a.dst == n;
    var k :| 0 <= k < |g.arcs| && g.arcs[k] == a;
    assert k in entering;
  }

  lemma WorkerWired(net: Network.Net, g: BuiltDag, cellOf: seq<nat>, size: nat, workers: seq<nat>,
                    threadOf: map<nat, nat>, c: Channels, t: nat)
    requires Started(net, g, cellOf, size, workers, threadOf, c) && t < |workers|
    ensures ThreadWired(net, t + 1) && net.ins[t + 1] != []
  {
    var n := workers[t];
    assert ThreadOk(g, workers, n, threadOf[n]);
    assert ChannelsOf(g, n, c.entering[n], c.leaving[n]);
    WorkerThreadWired(net, g, cellOf, workers, threadOf, c, t);
    WorkerFed(g, n, net.ins[t + 1]);
  }

  lemma AllWired(net: Network.Net)
    requires 0 < |net.ins| == |net.outs| && net.ins[0] == []
    requires forall t :: 0 <= t < |net.ins| ==> ThreadWired(net, t) && (0 < t ==> net.ins[t] != [])
    requires forall e :: 0 <= e < |net.edges| ==> net.edges[e].src < net.edges[e].dst < |net.ins|
    ensures Network.Wired(net)
  {
    forall t, k | 0 <= t < |net.ins| && 0 <= k < |net.ins[t]|
      ensures net.ins[t][k] < |net.edges| && net.edges[net.ins[t][k]].dst == t
    {
      assert ThreadWired(net, t);
      assert net.ins[t][k] in net.ins[t];
    }
    forall t, k | 0 <= t < |net.outs| && 0 <= k < |net.outs[t]|
      ensures net.outs[t][k] < |net.edges| && net.edges[net.outs[t][k]].src == t
    {
      assert ThreadWired(net, t);
      assert net.outs[t][k] in net.outs[t];
    }
    forall t | 0 <= t < |net.outs|
      ensures Network.NoDuplicates(net.outs[t])
    {
      assert ThreadWired(net, t);
    }
    forall e | 0 <= e < |net.edges|
      ensures e in net.outs[net.edges[e].src] && e in net.ins[net.edges[e].dst]
    {
      assert ThreadWired(net, net.edges[e].src) && ThreadWired(net, net.edges[e].dst);
    }
  }

  /** The network of a started DAG satisfies everything that the executor's theorems ask of a network. */
  lemma StartedIsWired(net: Network.Net, g: BuiltDag, cellOf: seq<nat>, size: nat, workers: seq<nat>,
                       threadOf: map<nat, nat>, c: Channels)
    requires Started(net, g, cellOf, size, workers, threadOf, c)
    ensures Network.Wired(net)
  {
    forall t | 0 <= t < |net.ins|
      ensures ThreadWired(net, t) && (0 < t ==> net.ins[t] != [])
    {
      if t == 0 {
        SourceThreadWired(net, g, cellOf, workers, threadOf, c);
      } else {
        WorkerWired(net, g, cellOf, size, workers, threadOf, c, t - 1);
      }
    }
    forall e | 0 <= e < |net.edges|
      ensures net.edges[e].src < net.edges[e].dst < |net.ins|
    {
      EdgeOfThread(g, cellOf, workers, threadOf, net.edges[e], e);
    }
    AllWired(net);
  }

  /** Two channels of one thread go by the same port name exactly if they leave the same port of the same node. */
  lemma PortNamesFaithful(net: Network.Net, g: BuiltDag, cellOf: seq<nat>, size: nat, workers: seq<nat>,
                          threadOf: map<nat, nat>, c: Channels, k: nat, l: nat)
    requires Started(net, g, cellOf, size, workers, threadOf, c) && k < |net.edges| && l < |net.edges|
    requires net.edges[k].src == net.edges[l].src
    ensures net.edges[k].outPort == net.edges[l].outPort <==> SamePort(g, k, l)
  {
    assert Carries(g, cellOf, threadOf, net.edges[k], k) && Carries(g, cellOf, threadOf, net.edges[l], l);
    assert g.arcs[k] in g.arcs && g.arcs[l] in g.arcs;
    assert ThreadOk(g, workers, g.arcs[k].src, threadOf[g.arcs[k].src]);
    assert ThreadOk(g, workers, g.arcs[l].src, threadOf[g.arcs[l].src]);
  }

  // ---------------------------------------------------------------- sending and routing

  /** A worker's channel manager agrees with the wiring. */
  lemma WorkerGrouped(net: Network.Net, g: BuiltDag, cellOf: seq<nat>, size: nat, workers: seq<nat>,
                      threadOf: map<nat, nat>, c: Channels, t: nat)
    requires Started(net, g, cellOf, size, workers, threadOf, c) && t < |workers|
    ensures workers[t] < |c.managers| && net.outs[t + 1] == Forwarder.Flatten(c.managers[workers[t]])
    ensures Forwarder.Grouped(net, c.managers[workers[t]])
  {
    var n := workers[t];
    assert ThreadOk(g, workers, n, threadOf[n]);
    assert ManagerOf(g, n, c.leaving[n], c.managers[n]);
    var groups := c.managers[n];
    forall i, j | 0 <= i < |groups| && 0 <= j < |groups[i].edges|
      ensures groups[i].edges[j] < |net.edges| && net.edges[groups[i].edges[j]].outPort == groups[i].port
    {
      var e := groups[i].edges[j];
      LeavingElements(g, n, groups[i].port, 0);
      assert e in groups[i].edges && FromPort(g, e, n, groups[i].port);
      assert Carries(g, cellOf, threadOf, net.edges[e], e);
    }
  }

  /** What a worker's `send_op` sends is what the network routes. */
  lemma WorkerSends(net: Network.Net, g: BuiltDag, cellOf: seq<nat>, size: nat, workers: seq<nat>,
                    threadOf: map<nat, nat>, c: Channels, t: nat, port: nat, m: Message)
    requires Started(net, g, cellOf, size, workers, threadOf, c) && t < |workers|
    ensures workers[t] < |c.managers|
    ensures Network.Route(net, net.outs[t + 1], port, m)
            == Forwarder.ToEach(Forwarder.EdgesOf(c.managers[workers[t]], port), m)
  {
    WorkerGrouped(net, g, cellOf, size, workers, threadOf, c, t);
    Forwarder.RouteIsGroup(net, c.managers[workers[t]], port, m);
  }

  lemma {:induction false} SourceSplit(g: BuiltDag, managers: seq<seq<Forwarder.Group>>, n: nat, i: nat)
    returns (after: seq<nat>)
    requires n < i <= |g.nodes| == |managers| && g.nodes[n].kind.BuiltSource?
    ensures SourceSenders(g, managers, i)
            == SourceSenders(g, managers, n) + Forwarder.Flatten(managers[n]) + after
  {
    if i == n + 1 {
      after := [];
    } else {
      after := SourceSplit(g, managers, n, i - 1);
      if g.nodes[i - 1].kind.BuiltSource? {
        after := after + Forwarder.Flatten(managers[i - 1]);
      }
    }
  }

  /** In a list without repetitions, what is around a part is not in the part. */
  lemma NotAround(a: seq<nat>, b: seq<nat>, c: seq<nat>, e: nat)
    requires Network.NoDuplicates(a + b + c) && e in b
    ensures e !in a && e !in c
  {
    var s := a + b + c;
    var j :| 0 <= j < |b| && b[j] == e;
    assert s[|a| + j] == e;
    forall i | 0 <= i < |a|
      ensures a[i] != e
    {
      assert s[i] == a[i];
    }
    forall i | 0 <= i < |c|
      ensures c[i] != e
    {
      assert s[|a| + |b| + i] == c[i];
    }
  }

  /** Edges of other ports are not routed. */
  lemma OtherEdges(net: Network.Net, outs: seq<nat>, port: nat, m: Message)
    requires forall e :: e in outs && e < |net.edges| ==> net.edges[e].outPort != port
    ensures Network.Route(net, outs, port, m) == []
  {
    forall k | 0 <= k < |outs| && outs[k] < |net.edges|
      ensures net.edges[outs[k]].outPort != port
    {
      assert outs[k] in outs;
    }
    Network.RouteNothing(net, outs, port, m);
  }

  ghost predicate Nameable(g: BuiltDag, cellOf: seq<nat>, groups: seq<Forwarder.Group>) {
    && InRange(g) && |cellOf| == |g.arcs|
    && forall i :: 0 <= i < |groups| ==> groups[i].edges != [] && groups[i].edges[0] < |g.arcs|
  }

  /** The table with the ports' names within the source thread. */
  ghost function Named(g: BuiltDag, cellOf: seq<nat>, groups: seq<Forwarder.Group>): seq<Forwarder.Group>
    requires Nameable(g, cellOf, groups)
  {
    seq(|groups|, i requires 0 <= i < |groups| =>
      Forwarder.Group(PortName(g, cellOf, groups[i].edges[0]), groups[i].edges))
  }

  lemma {:induction false} SameFlat(a: seq<Forwarder.Group>, b: seq<Forwarder.Group>)
    requires |a| == |b| && forall i :: 0 <= i < |a| ==> a[i].edges == b[i].edges
    ensures Forwarder.Flatten(a) == Forwarder.Flatten(b)
  {
    if a != [] {
      SameFlat(a[1..], b[1..]);
    }
  }

  /** An edge of a source's port goes by the cell of that port. */
  lemma SourceEdge(net: Network.Net, g: BuiltDag, cellOf: seq<nat>, size: nat, workers: seq<nat>,
                   threadOf: map<nat, nat>, c: Channels, n: nat, port: nat, e: nat)
    requires Started(net, g, cellOf, size, workers, threadOf, c) && n < |g.nodes| && g.nodes[n].kind.BuiltSource?
    requires e in Leaving(g, n, port, 0)
    ensures e < |net.edges| && FromPort(g, e, n, port)
    ensures net.edges[e].outPort == PortName(g, cellOf, e) == cellOf[e]
  {
    LeavingElements(g, n, port, 0);
    assert Carries(g, cellOf, threadOf, net.edges[e], e);
  }

  /** Every edge in a source's table goes by the cell of its group's first edge. */
  lemma SourceGroupEdge(net: Network.Net, g: BuiltDag, cellOf: seq<nat>, size: nat, workers: seq<nat>,
                        threadOf: map<nat, nat>, c: Channels, n: nat, group: Forwarder.Group, j: nat)
    requires Started(net, g, cellOf, size, workers, threadOf, c) && n < |g.nodes| && g.nodes[n].kind.BuiltSource?
    requires group.edges == Leaving(g, n, group.port, 0) && j < |group.edges|
    ensures var e, first := group.edges[j], group.edges[0];
            && e < |net.edges| && first < |net.edges| && FromPort(g, first, n, group.port)
            && net.edges[e].outPort == PortName(g, cellOf, first) == cellOf[first]
  {
    var e, first := group.edges[j], group.edges[0];
    assert e in group.edges && first in group.edges;
    SourceEdge(net, g, cellOf, size, workers, threadOf, c, n, group.port, e);
    SourceEdge(net, g, cellOf, size, workers, threadOf, c, n, group.port, first);
    assert SamePort(g, e, first);
  }

  lemma NamesDiffer(g: BuiltDag, cellOf: seq<nat>, size: nat, n: nat, k: nat, l: nat, p: nat, q: nat)
    requires SharedByPort(g, cellOf, size) && FromPort(g, k, n, p) && FromPort(g, l, n, q) && p != q
    ensures cellOf[k] != cellOf[l]
  {
    assert !SamePort(g, k, l);
  }

  /** The j-th edge of a group goes by the cell of the group's first edge. */
  ghost predicate NamedEdge(net: Network.Net, g: BuiltDag, cellOf: seq<nat>, n: nat, group: Forwarder.Group, j: nat)
    requires InRange(g) && |net.edges| == |g.arcs| == |cellOf| && j < |group.edges|
  {
    var e, first := group.edges[j], group.edges[0];
    && e < |net.edges| && first < |net.edges| && FromPort(g, first, n, group.port)
    && net.edges[e].outPort == PortName(g, cellOf, first) == cellOf[first]
  }

  lemma NamedGrouped(net: Network.Net, g: BuiltDag, cellOf: seq<nat>, size: nat, n: nat, groups: seq<Forwarder.Group>)
    requires InRange(g) && |net.edges| == |g.arcs| && SharedByPort(g, cellOf, size)
    requires forall i :: 0 <= i < |groups| ==> groups[i].edges != []
    requires forall i, j :: 0 <= i < j < |groups| ==> groups[i].port != groups[j].port
    requires forall i, j :: 0 <= i < |groups| && 0 <= j < |groups[i].edges| ==>
               NamedEdge(net, g, cellOf, n, groups[i], j)
    ensures Nameable(g, cellOf, groups) && Forwarder.Grouped(net, Named(g, cellOf, groups))
  {
    forall i | 0 <= i < |groups|
      ensures groups[i].edges[0] < |g.arcs|
    {
      assert NamedEdge(net, g, cellOf, n, groups[i], 0);
    }
    var named := Named(g, cellOf, groups);
    forall i, j | 0 <= i < |named| && 0 <= j < |named[i].edges|
      ensures named[i].edges[j] < |net.edges| && net.edges[named[i].edges[j]].outPort == named[i].port
    {
      assert NamedEdge(net, g, cellOf, n, groups[i], j);
    }
    forall i, j | 0 <= i < j < |named|
      ensures named[i].port != named[j].port
    {
      assert NamedEdge(net, g, cellOf, n, groups[i], 0) && NamedEdge(net, g, cellOf, n, groups[j], 0);
      NamesDiffer(g, cellOf, size, n, groups[i].edges[0], groups[j].edges[0], groups[i].port, groups[j].port);
    }
  }

  /** A source's channel manager agrees with the wiring under the ports' names. */
  lemma SourceGrouped(net: Network.Net, g: BuiltDag, cellOf: seq<nat>, size: nat, workers: seq<nat>,
                      threadOf: map<nat, nat>, c: Channels, n: nat)
    requires Started(net, g, cellOf, size, workers, threadOf, c) && n < |g.nodes| && g.nodes[n].kind.BuiltSource?
    ensures n < |c.managers| && Nameable(g, cellOf, c.managers[n])
    ensures Forwarder.Grouped(net, Named(g, cellOf, c.managers[n]))
    ensures Forwarder.Flatten(Named(g, cellOf, c.managers[n])) == Forwarder.Flatten(c.managers[n])
  {
    var groups := c.managers[n];
    assert GroupsOf(g, n, groups);
    forall i, j | 0 <= i < |groups| && 0 <= j < |groups[i].edges|
      ensures NamedEdge(net, g, cellOf, n, groups[i], j)
    {
      SourceGroupEdge(net, g, cellOf, size, workers, threadOf, c, n, groups[i], j);
    }
    NamedGrouped(net, g, cellOf, size, n, groups);
    SameFlat(Named(g, cellOf, groups), groups);
  }

  /** Channels of other sources do not go by the name of a port of source n. */
  lemma OtherSources(net: Network.Net, g: BuiltDag, cellOf: seq<nat>, size: nat, workers: seq<nat>,
                     threadOf: map<nat, nat>, c: Channels, n: nat, k: nat, outs: seq<nat>, m: Message)
    requires Started(net, g, cellOf, size, workers, threadOf, c) && n < |g.nodes| && g.nodes[n].kind.BuiltSource?
    requires k < |g.arcs| && g.arcs[k].src == n
    requires forall e :: e in outs ==> e in c.sources && g.arcs[e].src != n
    ensures Network.Route(net, outs, PortName(g, cellOf, k), m) == []
  {
    forall e | e in outs && e < |net.edges|
      ensures net.edges[e].outPort != PortName(g, cellOf, k)
    {
      assert e in c.sources;
      assert Carries(g, cellOf, threadOf, net.edges[e], e);
      assert !SamePort(g, e, k);
    }
    OtherEdges(net, outs, PortName(g, cellOf, k), m);
  }

  /** What a source's `send_op` sends is what the network routes for the port's name. */
  lemma SourceSends(net: Network.Net, g: BuiltDag, cellOf: seq<nat>, size: nat, workers: seq<nat>,
                    threadOf: map<nat, nat>, c: Channels, n: nat, i: nat, m: Message)
    requires Started(net, g, cellOf, size, workers, threadOf, c) && n < |g.nodes| && g.nodes[n].kind.BuiltSource?
    requires n < |c.managers| && i < |c.managers[n]|
    ensures Nameable(g, cellOf, c.managers[n])
    ensures Network.Route(net, net.outs[0], Named(g, cellOf, c.managers[n])[i].port, m)
            == Forwarder.ToEach(Forwarder.EdgesOf(c.managers[n], c.managers[n][i].port), m)
  {
    var groups := c.managers[n];
    SourceGrouped(net, g, cellOf, size, workers, threadOf, c, n);
    var named := Named(g, cellOf, groups);
    OnlyItsSource(net, g, cellOf, size, workers, threadOf, c, n, i, m);
    assert Network.Route(net, Forwarder.Flatten(named), named[i].port, m)
        == Forwarder.ToEach(Forwarder.EdgesOf(named, named[i].port), m) by {
      Forwarder.RouteIsGroup(net, named, named[i].port, m);
    }
    assert Forwarder.EdgesOf(named, named[i].port) == named[i].edges by {
      Forwarder.FoundEdges(named, named[i].port, i);
    }
    assert GroupsOf(g, n, groups);
    Forwarder.FoundEdges(groups, groups[i].port, i);
  }

  /** Of the source thread's senders only those of the source are routed for the name of one of its ports. */
  lemma OnlyItsSource(net: Network.Net, g: BuiltDag, cellOf: seq<nat>, size: nat, workers: seq<nat>,
                      threadOf: map<nat, nat>, c: Channels, n: nat, i: nat, m: Message)
    requires Started(net, g, cellOf, size, workers, threadOf, c) && n < |g.nodes| && g.nodes[n].kind.BuiltSource?
    requires n < |c.managers| && i < |c.managers[n]| && Nameable(g, cellOf, c.managers[n])
    ensures var name := Named(g, cellOf, c.managers[n])[i].port;
            Network.Route(net, net.outs[0], name, m)
            == Network.Route(net, Forwarder.Flatten(c.managers[n]), name, m)
  {
    var groups := c.managers[n];
    assert GroupsOf(g, n, groups);
    var k := groups[i].edges[0];
    assert k in groups[i].edges;
    SourceEdge(net, g, cellOf, size, workers, threadOf, c, n, groups[i].port, k);
    var before := SourceSenders(g, c.managers, n);
    var after := SourceSplit(g, c.managers, n, |g.nodes|);
    AroundSource(g, n, groups, before, after, c.sources);
    OtherSources(net, g, cellOf, size, workers, threadOf, c, n, k, before, m);
    OtherSources(net, g, cellOf, size, workers, threadOf, c, n, k, after, m);
    RouteMiddle(net, before, Forwarder.Flatten(groups), after, PortName(g, cellOf, k), m);
  }

  lemma RouteMiddle(net: Network.Net, a: seq<nat>, b: seq<nat>, c: seq<nat>, port: nat, m: Message)
    requires Network.Route(net, a, port, m) == [] && Network.Route(net, c, port, m) == []
    ensures Network.Route(net, a + b + c, port, m) == Network.Route(net, b, port, m)
  {
    Forwarder.RouteConcat(net, a + b, c, port, m);
    Forwarder.RouteConcat(net, a, b, port, m);
  }

  lemma AroundSource(g: BuiltDag, n: nat, groups: seq<Forwarder.Group>, before: seq<nat>, after: seq<nat>,
                     all: seq<nat>)
    requires GroupsOf(g, n, groups) && all == before + Forwarder.Flatten(groups) + after
    requires Network.NoDuplicates(all) && forall e :: e in all ==> e < |g.arcs|
    ensures forall e :: e in before ==> e in all && g.arcs[e].src != n
    ensures forall e :: e in after ==> e in all && g.arcs[e].src != n
  {
    GroupsSend(g, n, groups);
    var flat := Forwarder.Flatten(groups);
    forall e | e in before || e in after
      ensures e in all && g.arcs[e].src != n
    {
      assert e in all;
      if e in flat {
        NotAround(before, flat, after, e);
      }
    }
  }

  function Names(groups: seq<Forwarder.Group>): seq<nat> {
    if groups == [] then [] else [groups[0].port] + Names(groups[1..])
  }

  /** What a source's `send_to_all_ports` sends is what the network routes to the names of all its ports. */
  lemma SourceBroadcasts(net: Network.Net, g: BuiltDag, cellOf: seq<nat>, size: nat, workers: seq<nat>,
                         threadOf: map<nat, nat>, c: Channels, n: nat, m: Message)
    requires Started(net, g, cellOf, size, workers, threadOf, c) && n < |g.nodes| && g.nodes[n].kind.BuiltSource?
    ensures n < |c.managers| && Nameable(g, cellOf, c.managers[n])
    ensures Network.RoutePorts(net, net.outs[0], Names(Named(g, cellOf, c.managers[n])), m)
            == Forwarder.ToEach(Forwarder.Flatten(c.managers[n]), m)
  {
    SourceGrouped(net, g, cellOf, size, workers, threadOf, c, n);
    var groups := c.managers[n];
    var named := Named(g, cellOf, groups);
    forall i | 0 <= i < |groups|
      ensures Network.Route(net, net.outs[0], named[i].port, m) == Forwarder.ToEach(groups[i].edges, m)
    {
      SourceSends(net, g, cellOf, size, workers, threadOf, c, n, i, m);
      Forwarder.FoundEdges(groups, groups[i].port, i);
    }
    RouteNames(net, net.outs[0], named, groups, m);
  }

  lemma {:induction false} RouteNames(net: Network.Net, outs: seq<nat>, named: seq<Forwarder.Group>,
                                      groups: seq<Forwarder.Group>, m: Message)
    requires |named| == |groups|
    requires forall i :: 0 <= i < |groups| ==>
               Network.Route(net, outs, named[i].port, m) == Forwarder.ToEach(groups[i].edges, m)
    ensures Network.RoutePorts(net, outs, Names(named), m) == Forwarder.ToEach(Forwarder.Flatten(groups), m)
  {
    if groups != [] {
      RouteNames(net, outs, named[1..], groups[1..], m);
      Forwarder.ToEachConcat(groups[0].edges, Forwarder.Flatten(groups[1..]), m);
    }
  }

  ghost function Laid(g: BuiltDag, cellOf: seq<nat>, workers: seq<nat>, threadOf: map<nat, nat>, c: Channels,
                      behaviour: Network.Net): Network.Net
    requires InRange(g) && |cellOf| == |g.arcs|
  {
    behaviour.(
      edges := seq(|g.arcs|, (k: nat) =>
        if k < |g.arcs| && g.arcs[k].src in threadOf && g.arcs[k].dst in threadOf then
          Network.Edge(threadOf[g.arcs[k].src], threadOf[g.arcs[k].dst], PortName(g, cellOf, k))
        else Network.Edge(0, 0, 0)),
      ins := [[]] + seq(|workers|, (t: nat) =>
        if t < |workers| && workers[t] < |c.entering| then c.entering[workers[t]] else []),
      outs := [c.sources] + seq(|workers|, (t: nat) =>
        if t < |workers| && workers[t] < |c.leaving| then c.leaving[workers[t]] else []))
  }

  lemma LaidRuns(g: BuiltDag, cellOf: seq<nat>, workers: seq<nat>, threadOf: map<nat, nat>, c: Channels,
                 behaviour: Network.Net)
    requires InRange(g) && |cellOf| == |g.arcs| && AllNumbered(g, workers, threadOf)
    requires |c.entering| == |c.leaving| == |g.nodes|
    ensures Runs(Laid(g, cellOf, workers, threadOf, c, behaviour), g, cellOf, workers, threadOf, c)
  {
    var net := Laid(g, cellOf, workers, threadOf, c, behaviour);
    forall k | 0 <= k < |g.arcs|
      ensures Carries(g, cellOf, threadOf, net.edges[k], k)
    {
      assert g.arcs[k] in g.arcs;
    }
  }

  /** Every validated and built DAG runs as a network to which the executor's theorems apply. */
  lemma EveryBuiltDagRuns(g: DagGraph, dag: SchemaDag, f: Builders, built: BuiltDag, index: map<nat, nat>,
                          cellOf: seq<nat>, size: nat, c: Channels, behaviour: Network.Net)
    returns (net: Network.Net, workers: seq<nat>, threadOf: map<nat, nat>)
    requires BuiltDagOf(g, dag, f, built, index) && SharedByPort(built, cellOf, size) && ChannelsOk(built, c)
    ensures Started(net, built, cellOf, size, workers, threadOf, c) && Network.Wired(net)
    ensures net.process == behaviour.process && net.commit == behaviour.commit && net.snapshot == behaviour.snapshot
  {
    BuiltIsStartable(g, dag, f, built, index);
    workers, threadOf := NumberAll(built);
    net := Laid(built, cellOf, workers, threadOf, c, behaviour);
    LaidRuns(built, cellOf, workers, threadOf, c, behaviour);
    StartedIsWired(net, built, cellOf, size, workers, threadOf, c);
  }

  /** What a launch leaves: the validated DAG, what was built from it, the writers' cells, the numbering of the threads
      and the network. */
  datatype Launched = Launched(
    dag: SchemaDag,
    built: BuiltDag,
    index: map<nat, nat>,
    cellOf: seq<nat>,
    cells: seq<Option<Writer>>,
    channels: Channels,
    workers: seq<nat>,
    threadOf: map<nat, nat>,
    net: Network.Net)

  /** Each of these is made from the one before, and the first from the DAG: its edges carry the one solution of the
      schema equations, its nodes are built from their schemas, its edges share writers by port, and its nodes and
      edges are the network's threads and channels. */
  ghost predicate LaunchedFrom(g: DagGraph, factories: Factories, builders: Builders, recorders: Recorders,
                               behaviour: Network.Net, l: Launched) {
    && SameStructure(g, l.dag) && Solution(g, factories, Weights(l.dag))
    && BuiltDagOf(g, l.dag, builders, l.built, l.index)
    && InRange(l.built) && SharedByPort(l.built, l.cellOf, |l.cells|)
    && (forall k :: 0 <= k < |l.built.arcs| ==> Holds(l.built, recorders, l.cells, l.cellOf[k], k))
    && Started(l.net, l.built, l.cellOf, |l.cells|, l.workers, l.threadOf, l.channels)
    && l.net.process == behaviour.process && l.net.commit == behaviour.commit
    && l.net.snapshot == behaviour.snapshot
  }

  ghost predicate Validated(g: DagGraph, factories: Factories, dag: SchemaDag) {
    SameStructure(g, dag) && Solution(g, factories, Weights(dag))
  }

  /** The writer of some edge cannot be restored. */
  ghost predicate WriterRefused(built: BuiltDag, recorders: Recorders) {
    InRange(built) && exists k :: 0 <= k < |built.arcs| && WriterFor(built, recorders, k).None?
  }

  ghost predicate WritersFail(g: DagGraph, dag: SchemaDag, builders: Builders, recorders: Recorders) {
    exists built, index :: BuiltDagOf(g, dag, builders, built, index) && WriterRefused(built, recorders)
  }

  /** On the validated DAG an answer that the build asks for is an error: one of a node, or the writer of an edge of
      what was built. */
  ghost predicate BuildFails(g: DagGraph, factories: Factories, builders: Builders, recorders: Recorders) {
    exists dag ::
      Validated(g, factories, dag) && (SomeFails(dag, builders) || WritersFail(g, dag, builders, recorders))
  }

  /** `DagExecutor::new` and `start` on a DAG as the builder leaves it: unless it is not connected, declares a port
      twice, or a factory, node or checkpoint refuses, it ends in the network of that DAG, to which the executor's
      theorems apply. */
  method Launch(g: DagGraph, factories: Factories, order: seq<nat>, builders: Builders, recorders: Recorders,
                ghost behaviour: Network.Net)
    returns (c: Option<Channels>, ghost l: Option<Launched>)
    requires GraphOk(g) && Topological(g, order)
    ensures c.Some? <==> l.Some?
    ensures l.Some? ==>
              && Connected(g) && DistinctInputPorts(g) && c == Some(l.value.channels)
              && LaunchedFrom(g, factories, builders, recorders, behaviour, l.value) && Network.Wired(l.value.net)
    ensures c.None? ==>
              || !Connected(g) || !DistinctInputPorts(g) || !(exists sol :: Solution(g, factories, sol))
              || BuildFails(g, factories, builders, recorders)
  {
    c, l := None, None;
    var validated := NewDagSchemas(g, factories, order);
    if validated.Err? {
      return;
    }
    ValidatedIsBuildable(g, validated.value);
    var answer, index := NewBuilderDag(validated.value, builders);
    if answer.Err? {
      NodeRefuses(g, factories, validated.value, builders, recorders);
      return;
    }
    var built := answer.value;
    BuiltIsStartable(g, validated.value, builders, built, index);
    var restored, cellOf, cells := AssignWriters(built, recorders);
    if !restored {
      WriterRefuses(g, factories, validated.value, builders, built, index, recorders);
      return;
    }
    var dag := new Executable(built, cellOf, cells);
    var channels := Start(dag);
    c := Some(channels);
    ghost var launched :=
      AllLaunched(g, factories, validated.value, builders, built, index, recorders, cellOf, cells, channels, behaviour);
    l := Some(launched);
  }

  lemma NodeRefuses(g: DagGraph, factories: Factories, dag: SchemaDag, builders: Builders, recorders: Recorders)
    requires Validated(g, factories, dag) && SomeFails(dag, builders)
    ensures BuildFails(g, factories, builders, recorders)
  {
  }

  lemma WriterRefuses(g: DagGraph, factories: Factories, dag: SchemaDag, builders: Builders, built: BuiltDag,
                      index: map<nat, nat>, recorders: Recorders)
    requires Validated(g, factories, dag) && BuiltDagOf(g, dag, builders, built, index) && InRange(built)
    requires exists k :: 0 <= k < |built.arcs| && WriterFor(built, recorders, k).None?
    ensures BuildFails(g, factories, builders, recorders)
  {
    assert WriterRefused(built, recorders);
    assert WritersFail(g, dag, builders, recorders);
  }

  lemma AllLaunched(g: DagGraph, factories: Factories, dag: SchemaDag, builders: Builders, built: BuiltDag,
                    index: map<nat, nat>, recorders: Recorders, cellOf: seq<nat>, cells: seq<Option<Writer>>,
                    c: Channels, behaviour: Network.Net)
    returns (l: Launched)
    requires Validated(g, factories, dag) && BuiltDagOf(g, dag, builders, built, index) && InRange(built)
    requires SharedByPort(built, cellOf, |cells|) && ChannelsOk(built, c)
    requires forall k :: 0 <= k < |built.arcs| ==> Holds(built, recorders, cells, cellOf[k], k)
    ensures LaunchedFrom(g, factories, builders, recorders, behaviour, l) && Network.Wired(l.net) && l.channels == c
  {
    var net, workers, threadOf := EveryBuiltDagRuns(g, dag, builders, built, index, cellOf, |cells|, c, behaviour);
    l := Launched(dag, built, index, cellOf, cells, c, workers, threadOf, net);
  }
}
