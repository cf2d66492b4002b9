/** The description DAG (dozer-core/src/dag_impl.rs): adding nodes, connecting ports, merging DAGs. */
module Dag {
  import opened Wrappers
  import opened Graphs

  datatype Handle = Handle(ns: Option<nat>, id: string)

  /** A factory and the ports it declares. */
  datatype Kind =
    | Source(outs: seq<nat>)
    | Processor(ins: seq<nat>, outs: seq<nat>)
    | Sink(ins: seq<nat>)

  datatype Node = Node(handle: Handle, kind: Kind)

  datatype Ports = Ports(from: nat, to: nat)

  type DagGraph = Graph<Node, Ports>

  datatype Direction = Input | Output

  datatype Failure = InvalidPortHandle(port: nat) | Cycle | Panic

  predicate ContainsPort(kind: Kind, direction: Direction, port: nat) {
    match kind
    case Processor(ins, outs) => if direction == Output then port in outs else port in ins
    case Sink(ins) => direction == Input && port in ins
    case Source(outs) => direction == Output && port in outs
  }

  ghost predicate PortsOk(g: DagGraph) {
    && InRange(g)
    && forall a :: a in g.arcs ==>
         && ContainsPort(g.nodes[a.src].kind, Output, a.weight.from)
         && ContainsPort(g.nodes[a.dst].kind, Input, a.weight.to)
  }

  ghost predicate DistinctHandles(g: DagGraph) {
    forall i, j :: 0 <= i < j < |g.nodes| ==> g.nodes[i].handle != g.nodes[j].handle
  }

  ghost predicate DistinctArcs(g: DagGraph) {
    forall i, j :: 0 <= i < j < |g.arcs| ==> g.arcs[i] != g.arcs[j]
  }

  /** What every sequence of calls that do not panic keeps of the graph. */
  ghost predicate GraphOk(g: DagGraph) {
    PortsOk(g) && DistinctHandles(g) && DistinctArcs(g) && Acyclic(g)
  }

  /** The handle table is a bijection onto the nodes, and the edge set is the set of the graph's edges. */
  ghost predicate IndexOk(g: DagGraph, table: map<Handle, nat>, arcs: set<Arc<Ports>>) {
    && (forall h :: h in table ==> table[h] < |g.nodes| && g.nodes[table[h]].handle == h)
    && (forall i :: 0 <= i < |g.nodes| ==> g.nodes[i].handle in table)
    && (forall a :: a in arcs <==> a in g.arcs)
  }

  /** An edge between declared ports that closes no cycle and is not there yet. */
  ghost predicate Connectable(g: DagGraph, arc: Arc<Ports>) {
    && arc.src < |g.nodes| && arc.dst < |g.nodes|
    && ContainsPort(g.nodes[arc.src].kind, Output, arc.weight.from)
    && ContainsPort(g.nodes[arc.dst].kind, Input, arc.weight.to)
    && Acyclic(AddArc(g, arc)) && arc !in g.arcs
  }

  /** Why an edge cannot be connected: the first of a bad source port, a bad target port, a cycle, or else a
      repetition, which panics. */
  ghost function ConnectError(g: DagGraph, arc: Arc<Ports>): Failure
    requires arc.src < |g.nodes| && arc.dst < |g.nodes|
  {
    if !ContainsPort(g.nodes[arc.src].kind, Output, arc.weight.from) then InvalidPortHandle(arc.weight.from)
    else if !ContainsPort(g.nodes[arc.dst].kind, Input, arc.weight.to) then InvalidPortHandle(arc.weight.to)
    else if WouldCycle(g, arc) then Cycle
    else Panic
  }

  /** Why endpoints cannot be connected: an unknown source panics, then a bad source port is reported, then an unknown
      target panics. */
  ghost function EndpointsError(g: DagGraph, table: map<Handle, nat>, src: Handle, from: nat, dst: Handle,
                                to: nat): Failure
    requires forall h :: h in table ==> table[h] < |g.nodes|
  {
    if src !in table then Panic
    else if !ContainsPort(g.nodes[table[src]].kind, Output, from) then InvalidPortHandle(from)
    else if dst !in table then Panic
    else ConnectError(g, Arc(table[src], table[dst], Ports(from, to)))
  }

  class DagBuilder {
    var graph: DagGraph
    var table: map<Handle, nat>
    var arcs: set<Arc<Ports>>

    ghost predicate Valid()
      reads this
    {
      GraphOk(graph) && IndexOk(graph, table, arcs)
    }

    constructor ()
      ensures Valid() && graph == Graph([], [])
    {
      graph := Graph([], []);
      table := map[];
      arcs := {};
      new;
      EmptyOk(graph);
      EmptyIndexOk(graph, table, arcs);
    }

    /** Panics exactly if the handle is taken. */
    method AddNode(handle: Handle, kind: Kind) returns (r: Result<nat, Failure>)
      requires Valid()
      modifies this
      ensures r.Err? <==> exists i :: 0 <= i < |old(graph).nodes| && old(graph).nodes[i].handle == handle
      ensures r.Err? ==> r.error == Panic
      ensures r.Ok? ==>
                && Valid() && r.value == |old(graph).nodes|
                && graph == old(graph).(nodes := old(graph).nodes + [Node(handle, kind)])
    {
      var index := |graph.nodes|;
      ghost var g := graph;
      graph := graph.(nodes := graph.nodes + [Node(handle, kind)]);
      if handle in table {
        table := table[handle := index];
        return Err(Panic);
      }
      table := table[handle := index];
      AddNodeOk(g, Node(handle, kind));
      return Ok(index);
    }

    /** `connect_with_index`; `cyclic` is daggy's verdict on the edge. */
    method Connect(src: nat, from: nat, dst: nat, to: nat, cyclic: bool) returns (r: Result<(), Failure>)
      requires Valid() && src < |graph.nodes| && dst < |graph.nodes|
      requires cyclic <==> WouldCycle(graph, Arc(src, dst, Ports(from, to)))
      modifies this
      ensures var g, arc := old(graph), Arc(src, dst, Ports(from, to));
              && (r.Ok? <==> Connectable(g, arc))
              && table == old(table)
              && (r.Ok? ==> Valid() && graph == AddArc(g, arc))
              && (r.Err? && r.error != Panic ==> Valid() && graph == g)
              && (r.Err? ==> r.error == ConnectError(g, arc))
    {
      var arc := Arc(src, dst, Ports(from, to));
      AddArcAcyclic(graph, arc);
      if !ContainsPort(graph.nodes[src].kind, Output, from) {
        return Err(InvalidPortHandle(from));
      }
      if !ContainsPort(graph.nodes[dst].kind, Input, to) {
        return Err(InvalidPortHandle(to));
      }
      if cyclic {
        return Err(Cycle);
      }
      graph := AddArc(graph, arc);
      if arc in arcs {
        return Err(Panic);
      }
      arcs := arcs + {arc};
      return Ok(());
    }

    /** `connect`: looks the handles up and then does what `connect_with_index` does. */
    method ConnectEndpoints(src: Handle, from: nat, dst: Handle, to: nat, cyclic: bool) returns (r: Result<(), Failure>)
      requires Valid()
      requires src in table && dst in table ==>
                 (cyclic <==> WouldCycle(graph, Arc(table[src], table[dst], Ports(from, to))))
      modifies this
      ensures table == old(table)
      ensures r.Ok? <==>
                && src in table && dst in table
                && Connectable(old(graph), Arc(table[src], table[dst], Ports(from, to)))
      ensures r.Ok? ==> Valid() && graph == AddArc(old(graph), Arc(table[src], table[dst], Ports(from, to)))
      ensures r.Err? && r.error != Panic ==> Valid() && graph == old(graph)
      ensures r.Err? ==> r.error == EndpointsError(old(graph), table, src, from, dst, to)
    {
      if src !in table {
        return Err(Panic);
      }
      if !ContainsPort(graph.nodes[table[src]].kind, Output, from) {
        return Err(InvalidPortHandle(from));
      }
      if dst !in table {
        return Err(Panic);
      }
      if !ContainsPort(graph.nodes[table[dst]].kind, Input, to) {
        return Err(InvalidPortHandle(to));
      }
      r := Connect(table[src], from, table[dst], to, cyclic);
    }
  }

  lemma EmptyIndexOk(g: DagGraph, table: map<Handle, nat>, arcs: set<Arc<Ports>>)
    requires g.nodes == [] && g.arcs == [] && table == map[] && arcs == {}
    ensures IndexOk(g, table, arcs)
  {
  }

  lemma EmptyOk(g: DagGraph)
    requires g.nodes == [] && g.arcs == []
    ensures GraphOk(g)
  {
    assert Ranked(g, []);
  }

  lemma AddNodeOk(g: DagGraph, node: Node)
    requires GraphOk(g) && forall i :: 0 <= i < |g.nodes| ==> g.nodes[i].handle != node.handle
    ensures GraphOk(g.(nodes := g.nodes + [node]))
  {
    var g' := g.(nodes := g.nodes + [node]);
    var rank :| Ranked(g, rank);
    assert Ranked(g', rank + [0]);
  }

  // ---------------------------------------------------------------- merging

  function Renamed(ns: Option<nat>, n: Node): Node {
    Node(Handle(if ns.Some? then ns else n.handle.ns, n.handle.id), n.kind)
  }

  function RenamedAll(ns: Option<nat>, nodes: seq<Node>): seq<Node> {
    seq(|nodes|, i requires 0 <= i < |nodes| => Renamed(ns, nodes[i]))
  }

  function Shifted(arc: Arc<Ports>, offset: nat): Arc<Ports> {
    Arc(arc.src + offset, arc.dst + offset, arc.weight)
  }

  function ShiftedAll(arcs: seq<Arc<Ports>>, offset: nat): seq<Arc<Ports>> {
    seq(|arcs|, i requires 0 <= i < |arcs| => Shifted(arcs[i], offset))
  }

  /** The disjoint union of g and other, other's nodes renamed and listed after g's. */
  function Union(g: DagGraph, ns: Option<nat>, other: DagGraph): DagGraph {
    Graph(g.nodes + RenamedAll(ns, other.nodes), g.arcs + ShiftedAll(other.arcs, |g.nodes|))
  }

  /** The nodes of g stay where they are; those of other follow, each with its kind and id, and under the given
      namespace or else its own; every edge of other connects the same ports of the same nodes. */
  lemma UnionMeans(g: DagGraph, ns: Option<nat>, other: DagGraph, j: nat, k: nat)
    requires InRange(other)
    ensures var u, n := Union(g, ns, other), |g.nodes|;
            && |u.nodes| == n + |other.nodes| && u.nodes[..n] == g.nodes
            && |u.arcs| == |g.arcs| + |other.arcs| && u.arcs[..|g.arcs|] == g.arcs
            && (j < |other.nodes| ==>
                  var x, y := u.nodes[n + j], other.nodes[j];
                  && x.kind == y.kind && x.handle.id == y.handle.id
                  && x.handle.ns == (if ns.Some? then ns else y.handle.ns))
            && (k < |other.arcs| ==>
                  var a, b := u.arcs[|g.arcs| + k], other.arcs[k];
                  && a.weight == b.weight && a.src == n + b.src && a.dst == n + b.dst
                  && a.src < |u.nodes| && u.nodes[a.src] == Renamed(ns, other.nodes[b.src])
                  && a.dst < |u.nodes| && u.nodes[a.dst] == Renamed(ns, other.nodes[b.dst]))
  {
    if k < |other.arcs| {
      assert other.arcs[k] in other.arcs;
    }
  }

  ghost predicate NoCollision(g: DagGraph, ns: Option<nat>, other: DagGraph) {
    DistinctHandles(Union(g, ns, other))
  }

  lemma UnionRanked(g: DagGraph, ns: Option<nat>, other: DagGraph, rank: seq<nat>, rank': seq<nat>)
    requires Ranked(g, rank) && Ranked(other, rank')
    ensures Ranked(Union(g, ns, other), rank + rank')
  {
    var u := Union(g, ns, other);
    forall x | x in u.arcs
      ensures x.src < |u.nodes| && x.dst < |u.nodes|
      ensures (rank + rank')[x.src] < (rank + rank')[x.dst]
    {
      if x !in g.arcs {
        var k :| 0 <= k < |other.arcs| && x == Shifted(other.arcs[k], |g.nodes|);
        assert other.arcs[k] in other.arcs;
      }
    }
  }

  lemma UnionPorts(g: DagGraph, ns: Option<nat>, other: DagGraph)
    requires PortsOk(g) && PortsOk(other)
    ensures PortsOk(Union(g, ns, other))
  {
    var u := Union(g, ns, other);
    forall x | x in u.arcs
      ensures x.src < |u.nodes| && x.dst < |u.nodes|
      ensures ContainsPort(u.nodes[x.src].kind, Output, x.weight.from)
      ensures ContainsPort(u.nodes[x.dst].kind, Input, x.weight.to)
    {
      if x !in g.arcs {
        var k :| 0 <= k < |other.arcs| && x == Shifted(other.arcs[k], |g.nodes|);
        ShiftedPorts(g, ns, other, other.arcs[k]);
      }
    }
  }

  lemma ShiftedPorts(g: DagGraph, ns: Option<nat>, other: DagGraph, a: Arc<Ports>)
    requires PortsOk(other) && a in other.arcs
    ensures var u, x := Union(g, ns, other), Shifted(a, |g.nodes|);
            && x.src < |u.nodes| && x.dst < |u.nodes|
            && ContainsPort(u.nodes[x.src].kind, Output, x.weight.from)
            && ContainsPort(u.nodes[x.dst].kind, Input, x.weight.to)
  {
    var u, x := Union(g, ns, other), Shifted(a, |g.nodes|);
    assert u.nodes[x.src] == Renamed(ns, other.nodes[a.src]);
    assert u.nodes[x.dst] == Renamed(ns, other.nodes[a.dst]);
  }

  lemma UnionDistinct(g: DagGraph, ns: Option<nat>, other: DagGraph)
    requires InRange(g) && DistinctArcs(g) && DistinctArcs(other)
    ensures DistinctArcs(Union(g, ns, other))
  {
    var u := Union(g, ns, other);
    forall i, j | 0 <= i < j < |u.arcs|
      ensures u.arcs[i] != u.arcs[j]
    {
      if i >= |g.arcs| {
        assert other.arcs[i - |g.arcs|] != other.arcs[j - |g.arcs|];
      } else {
        assert u.arcs[i] in g.arcs;
      }
    }
  }

  /** The union of two valid DAGs without common handles is a valid DAG. */
  lemma UnionOk(g: DagGraph, ns: Option<nat>, other: DagGraph)
    requires GraphOk(g) && GraphOk(other) && NoCollision(g, ns, other)
    ensures GraphOk(Union(g, ns, other))
  {
    var rank :| Ranked(g, rank);
    var rank' :| Ranked(other, rank');
    UnionRanked(g, ns, other, rank, rank');
    UnionPorts(g, ns, other);
    UnionDistinct(g, ns, other);
  }

  /** Any list of edges of a ranked graph, in any order, leaves it ranked: so while the other DAG's edges
      are inserted one by one, daggy finds no cycle. */
  lemma PartialUnionAcyclic(u: DagGraph, part: DagGraph, arc: Arc<Ports>)
    requires GraphOk(u) && part.nodes == u.nodes && arc in u.arcs && arc !in part.arcs
    requires forall a :: a in part.arcs ==> a in u.arcs
    ensures PortsOk(part) && Acyclic(part) && !WouldCycle(part, arc)
    ensures ContainsPort(u.nodes[arc.src].kind, Output, arc.weight.from)
    ensures ContainsPort(u.nodes[arc.dst].kind, Input, arc.weight.to)
  {
    var rank :| Ranked(u, rank);
    assert Ranked(part, rank);
    NoPathBack(part, rank, arc.dst, arc.src);
  }

  ghost function Prefix(u: DagGraph, n: nat): DagGraph
    requires n <= |u.arcs|
  {
    Graph(u.nodes, u.arcs[..n])
  }

  lemma NextArc(u: DagGraph, n: nat)
    requires GraphOk(u) && n < |u.arcs|
    ensures var a := u.arcs[n];
            && Connectable(Prefix(u, n), a) && !WouldCycle(Prefix(u, n), a)
            && AddArc(Prefix(u, n), a) == Prefix(u, n + 1)
  {
    var part, a := Prefix(u, n), u.arcs[n];
    PartialUnionAcyclic(u, part, a);
    AddArcAcyclic(part, a);
    assert u.arcs[..n + 1] == u.arcs[..n] + [a];
  }

  /** The first loop of `merge`. */
  method MergeNodes(dag: DagBuilder, nodes: seq<Node>) returns (ok: bool)
    requires dag.Valid()
    modifies dag
    ensures ok <==> DistinctHandles(old(dag.graph).(nodes := old(dag.graph).nodes + nodes))
    ensures ok ==> dag.Valid() && dag.graph == old(dag.graph).(nodes := old(dag.graph).nodes + nodes)
  {
    ghost var all := dag.graph.nodes + nodes;
    for i := 0 to |nodes|
      invariant dag.Valid()
      invariant dag.graph == old(dag.graph).(nodes := old(dag.graph).nodes + nodes[..i])
    {
      var added := dag.AddNode(nodes[i].handle, nodes[i].kind);
      assert all[|old(dag.graph).nodes| + i] == nodes[i];
      assert forall j :: 0 <= j < |old(dag.graph).nodes| + i ==> all[j] == (old(dag.graph).nodes + nodes[..i])[j];
      if added.Err? {
        return false;
      }
      assert nodes[..i + 1] == nodes[..i] + [nodes[i]];
    }
    assert nodes[..|nodes|] == nodes;
    return true;
  }

  method MergeArc(dag: DagBuilder, a: Arc<Ports>, ghost u: DagGraph, ghost n: nat)
    requires dag.Valid() && GraphOk(u) && n < |u.arcs| && dag.graph == Prefix(u, n) && a == u.arcs[n]
    modifies dag
    ensures dag.Valid() && dag.graph == Prefix(u, n + 1)
  {
    NextArc(u, n);
    var connected := dag.Connect(a.src, a.weight.from, a.dst, a.weight.to, false);
    assert connected.Ok?;
  }

  /** The second loop of `merge`: connecting never fails. */
  method MergeArcs(dag: DagBuilder, arcs: seq<Arc<Ports>>, ghost u: DagGraph, ghost n: nat)
    requires dag.Valid() && GraphOk(u) && n <= |u.arcs| && dag.graph == Prefix(u, n) && arcs == u.arcs[n..]
    modifies dag
    ensures dag.Valid() && dag.graph == u
  {
    for k := 0 to |arcs|
      invariant dag.Valid() && dag.graph == Prefix(u, n + k)
    {
      MergeArc(dag, arcs[k], u, n + k);
    }
    assert u.arcs[..n + |arcs|] == u.arcs;
  }

  /** The edges of g in some order, as a set is iterated. */
  ghost predicate Reordered(g: DagGraph, order: seq<Arc<Ports>>) {
    && (forall a :: a in order <==> a in g.arcs)
    && (forall i, j :: 0 <= i < j < |order| ==> order[i] != order[j])
  }

  lemma ReorderedOk(g: DagGraph, order: seq<Arc<Ports>>)
    requires GraphOk(g) && Reordered(g, order)
    ensures GraphOk(Graph(g.nodes, order))
  {
    var rank :| Ranked(g, rank);
    var g' := Graph(g.nodes, order);
    assert forall a :: a in g'.arcs ==> a in g.arcs;
    assert Ranked(g', rank);
  }

  /** `merge`: the nodes first, then the edges, in whatever order the edge set is iterated. Panics exactly if a
      handle is taken; the inner connects never fail. */
  method Merge(dag: DagBuilder, ns: Option<nat>, other: DagGraph, order: seq<Arc<Ports>>)
    returns (r: Result<(), Failure>)
    requires dag.Valid() && GraphOk(other) && Reordered(other, order)
    modifies dag
    ensures r.Ok? <==> NoCollision(old(dag.graph), ns, other)
    ensures r.Ok? ==> dag.Valid() && dag.graph == Union(old(dag.graph), ns, Graph(other.nodes, order))
  {
    ghost var g, other' := dag.graph, Graph(other.nodes, order);
    var offset := |dag.graph.nodes|;
    var ok := MergeNodes(dag, RenamedAll(ns, other.nodes));
    if !ok {
      return Err(Panic);
    }
    ReorderedOk(other, order);
    UnionOk(g, ns, other');
    MergeArcs(dag, ShiftedAll(order, offset), Union(g, ns, other'), |g.arcs|);
    return Ok(());
  }
}
