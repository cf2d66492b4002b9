/** The execution DAG (dozer-core/src/executor/execution_dag.rs): one channel per edge, named by the edge's
    number, and one record writer per output port, shared by the edges that leave it. */
module ExecutionDag {
  import opened Wrappers
  import opened Graphs
  import opened Dag
  import opened DagSchemas
  import opened BuilderDag

  type Writer(==, !new)

  type BuiltDag = Graph<BuiltNode, EdgeType>

  /** Which port types need a record writer, and the writer restored from the checkpoint (None is an error). */
  datatype Recorders = Recorders(lookup: PortType -> bool, create: (Handle, string, Schema) -> Option<Writer>)

  /** What edge k asks for if it is the first of its output port; Some(None) is no writer. */
  function WriterFor(g: BuiltDag, f: Recorders, k: nat): Option<Option<Writer>>
    requires InRange(g) && k < |g.arcs|
  {
    var arc := g.arcs[k];
    assert arc in g.arcs;
    if arc.weight.kind.FromSource? && f.lookup(arc.weight.kind.portType) then
      match f.create(g.nodes[arc.src].handle, arc.weight.kind.portName, arc.weight.schema)
      case None => None
      case Some(w) => Some(Some(w))
    else Some(None)
  }

  predicate FromPort(g: BuiltDag, k: nat, node: nat, port: nat) {
    k < |g.arcs| && g.arcs[k].src == node && g.arcs[k].weight.outputPort == port
  }

  predicate SamePort(g: BuiltDag, k: nat, l: nat)
    requires k < |g.arcs| && l < |g.arcs|
  {
    FromPort(g, k, g.arcs[l].src, g.arcs[l].weight.outputPort)
  }

  /** Edges share a writer's cell exactly if they leave the same output port. */
  ghost predicate SharedByPort(g: BuiltDag, cellOf: seq<nat>, size: nat) {
    && |cellOf| == |g.arcs|
    && (forall k :: 0 <= k < |cellOf| ==> cellOf[k] < size)
    && (forall k, l :: 0 <= k < |cellOf| && 0 <= l < |cellOf| ==> (cellOf[k] == cellOf[l] <==> SamePort(g, k, l)))
  }

  /** The cell of an edge holds what one of the edges of its port asked for. */
  ghost predicate Holds(g: BuiltDag, f: Recorders, cells: seq<Option<Writer>>, c: nat, k: nat)
    requires InRange(g) && k < |g.arcs|
  {
    exists l :: 0 <= l < |g.arcs| && SamePort(g, l, k) && c < |cells| && WriterFor(g, f, l) == Some(cells[c])
  }

  /** Every entry of the tables names the cell of its node's port; `first` is the edge that created the cell. */
  ghost predicate TablesOk(g: BuiltDag, tables: seq<map<nat, nat>>, first: seq<nat>, i: nat) {
    && |tables| == |g.nodes|
    && (forall c :: 0 <= c < |first| ==> first[c] < i)
    && (forall n, p :: 0 <= n < |tables| && p in tables[n] ==>
          tables[n][p] < |first| && FromPort(g, first[tables[n][p]], n, p))
  }

  ghost predicate EdgesOk(g: BuiltDag, tables: seq<map<nat, nat>>, cellOf: seq<nat>)
    requires InRange(g) && |tables| == |g.nodes|
  {
    && |cellOf| <= |g.arcs|
    && forall k :: 0 <= k < |cellOf| ==> EdgeListed(g, tables, cellOf[k], k)
  }

  ghost predicate EdgeListed(g: BuiltDag, tables: seq<map<nat, nat>>, cell: nat, k: nat)
    requires InRange(g) && |tables| == |g.nodes| && k < |g.arcs|
  {
    var arc := g.arcs[k];
    assert arc in g.arcs;
    arc.weight.outputPort in tables[arc.src] && tables[arc.src][arc.weight.outputPort] == cell
  }

  lemma TablesShare(g: BuiltDag, tables: seq<map<nat, nat>>, first: seq<nat>, cellOf: seq<nat>)
    requires InRange(g) && TablesOk(g, tables, first, |g.arcs|) && EdgesOk(g, tables, cellOf) && |cellOf| == |g.arcs|
    ensures SharedByPort(g, cellOf, |first|)
  {
    forall k, l | 0 <= k < |cellOf| && 0 <= l < |cellOf|
      ensures cellOf[k] < |first| && (cellOf[k] == cellOf[l] <==> SamePort(g, k, l))
    {
      assert EdgeListed(g, tables, cellOf[k], k) && EdgeListed(g, tables, cellOf[l], l);
      assert g.arcs[k] in g.arcs && g.arcs[l] in g.arcs;
    }
  }

  /** Every cell holds what the edge that created it asked for. */
  ghost predicate CellsOk(g: BuiltDag, f: Recorders, first: seq<nat>, cells: seq<Option<Writer>>)
    requires InRange(g)
  {
    && |cells| == |first|
    && forall c :: 0 <= c < |first| ==>
         first[c] < |g.arcs| && WriterFor(g, f, first[c]) == Some(cells[c])
  }

  lemma EdgeHolds(g: BuiltDag, f: Recorders, tables: seq<map<nat, nat>>, first: seq<nat>, cellOf: seq<nat>,
                  cells: seq<Option<Writer>>, k: nat)
    requires InRange(g) && TablesOk(g, tables, first, |g.arcs|) && k < |cellOf| && EdgesOk(g, tables, cellOf)
    requires CellsOk(g, f, first, cells)
    ensures Holds(g, f, cells, cellOf[k], k)
  {
    assert EdgeListed(g, tables, cellOf[k], k);
    assert g.arcs[k] in g.arcs;
    assert SamePort(g, first[cellOf[k]], k);
  }

  /** The cell of edge k, created if its port has none yet. */
  method CellOf(g: BuiltDag, f: Recorders, tables: seq<map<nat, nat>>, cells: seq<Option<Writer>>, k: nat,
                ghost first: seq<nat>)
    returns (ok: bool, tables': seq<map<nat, nat>>, cells': seq<Option<Writer>>, cell: nat, ghost first': seq<nat>)
    requires InRange(g) && k < |g.arcs| && TablesOk(g, tables, first, k) && CellsOk(g, f, first, cells)
    ensures !ok ==> WriterFor(g, f, k).None?
    ensures ok ==>
              && TablesOk(g, tables', first', k + 1) && CellsOk(g, f, first', cells')
              && EdgeListed(g, tables', cell, k)
              && forall n, p :: 0 <= n < |tables| && p in tables[n] ==> p in tables'[n] && tables'[n][p] == tables[n][p]
  {
    ok, tables', cells', cell, first' := true, tables, cells, 0, first;
    var arc := g.arcs[k];
    assert arc in g.arcs;
    var port := arc.weight.outputPort;
    if port !in tables[arc.src] {
      var writer := WriterFor(g, f, k);
      if writer.None? {
        ok := false;
        return;
      }
      var table: map<nat, nat> := tables[arc.src][port := |cells|];
      tables' := tables[arc.src := table];
      cells' := cells + [writer.value];
      first' := first + [k];
    }
    cell := tables'[arc.src][port];
  }

  /** The loop of `ExecutionDag::new`: it fails only if a writer cannot be restored. */
  method AssignWriters(g: BuiltDag, f: Recorders) returns (ok: bool, cellOf: seq<nat>, cells: seq<Option<Writer>>)
    requires InRange(g)
    ensures !ok ==> exists k :: 0 <= k < |g.arcs| && WriterFor(g, f, k).None?
    ensures ok ==>
              && SharedByPort(g, cellOf, |cells|)
              && forall k :: 0 <= k < |g.arcs| ==> Holds(g, f, cells, cellOf[k], k)
  {
    var tables: seq<map<nat, nat>> := seq(|g.nodes|, _ => map[]);
    ghost var first: seq<nat> := [];
    ok, cellOf, cells := true, [], [];
    for k := 0 to |g.arcs|
      invariant |cellOf| == k && TablesOk(g, tables, first, k) && EdgesOk(g, tables, cellOf)
      invariant CellsOk(g, f, first, cells)
    {
      ghost var tables0 := tables;
      var cell;
      ok, tables, cells, cell, first := CellOf(g, f, tables, cells, k, first);
      if !ok {
        return;
      }
      KeepListed(g, tables0, tables, cellOf);
      cellOf := cellOf + [cell];
    }
    TablesShare(g, tables, first, cellOf);
    forall k | 0 <= k < |g.arcs|
      ensures Holds(g, f, cells, cellOf[k], k)
    {
      EdgeHolds(g, f, tables, first, cellOf, cells, k);
    }
    ok := true;
  }

  lemma KeepListed(g: BuiltDag, tables: seq<map<nat, nat>>, tables': seq<map<nat, nat>>, cellOf: seq<nat>)
    requires InRange(g) && |tables| == |g.nodes| == |tables'| && EdgesOk(g, tables, cellOf)
    requires forall n, p :: 0 <= n < |tables| && p in tables[n] ==> p in tables'[n] && tables'[n][p] == tables[n][p]
    ensures EdgesOk(g, tables', cellOf)
  {
    forall l | 0 <= l < |cellOf|
      ensures EdgeListed(g, tables', cellOf[l], l)
    {
      assert EdgeListed(g, tables, cellOf[l], l);
      assert g.arcs[l] in g.arcs;
    }
  }

  // ---------------------------------------------------------------- what a node takes

  /** The edges from number `start` on that leave a port, latest first. */
  function Leaving(g: BuiltDag, node: nat, port: nat, start: nat): seq<nat>
    requires start <= |g.arcs|
    decreases |g.arcs| - start
  {
    if start == |g.arcs| then []
    else if FromPort(g, start, node, port) then Leaving(g, node, port, start + 1) + [start]
    else Leaving(g, node, port, start + 1)
  }

  /** The edges from number `start` on into a node, latest first. */
  function Entering(g: BuiltDag, node: nat, start: nat): seq<nat>
    requires start <= |g.arcs|
    decreases |g.arcs| - start
  {
    if start == |g.arcs| then []
    else if g.arcs[start].dst == node then Entering(g, node, start + 1) + [start]
    else Entering(g, node, start + 1)
  }

  lemma {:induction false} LeavingSome(g: BuiltDag, node: nat, port: nat, start: nat)
    requires start <= |g.arcs|
    ensures Leaving(g, node, port, start) != [] <==> exists k :: start <= k < |g.arcs| && FromPort(g, k, node, port)
    decreases |g.arcs| - start
  {
    if start < |g.arcs| {
      LeavingSome(g, node, port, start + 1);
    }
  }

  /** The cell belongs to a port of the node, by an edge from number `start` on. */
  ghost predicate OwnedBy(g: BuiltDag, cellOf: seq<nat>, node: nat, c: nat, start: nat)
    requires |cellOf| == |g.arcs|
  {
    exists k :: start <= k < |g.arcs| && g.arcs[k].src == node && cellOf[k] == c
  }

  ghost predicate WriterTaken(g: BuiltDag, cellOf: seq<nat>, cells: seq<Option<Writer>>, writers: map<nat, Writer>,
                              k: nat)
    requires SharedByPort(g, cellOf, |cells|) && k < |g.arcs|
  {
    var port, writer := g.arcs[k].weight.outputPort, cells[cellOf[k]];
    if writer.Some? then port in writers && writers[port] == writer.value else port !in writers
  }

  /** The senders collected from the edges from number `start` on. */
  ghost predicate SendersOk(g: BuiltDag, node: nat, senders: map<nat, seq<nat>>, start: nat)
    requires start <= |g.arcs|
  {
    && (forall p :: p in senders <==> Leaving(g, node, p, start) != [])
    && (forall p :: p in senders ==> senders[p] == Leaving(g, node, p, start))
  }

  /** The writers taken for those edges: each port's writer, if it has one, whichever edge comes first. */
  ghost predicate WritersOk(g: BuiltDag, cellOf: seq<nat>, cells: seq<Option<Writer>>, node: nat,
                            writers: map<nat, Writer>, start: nat)
    requires SharedByPort(g, cellOf, |cells|) && start <= |g.arcs|
  {
    && (forall p :: p in writers ==> Leaving(g, node, p, start) != [])
    && (forall k :: start <= k < |g.arcs| && g.arcs[k].src == node ==> WriterTaken(g, cellOf, cells, writers, k))
  }

  ghost predicate CellsTaken(g: BuiltDag, cellOf: seq<nat>, cells: seq<Option<Writer>>, cells': seq<Option<Writer>>,
                             node: nat, start: nat)
    requires |cellOf| == |g.arcs|
  {
    && |cells'| == |cells|
    && forall c :: 0 <= c < |cells| ==> cells'[c] == if OwnedBy(g, cellOf, node, c, start) then None else cells[c]
  }

  /** Before edge k is looked at, its cell is empty if the port's writer is taken already, and else unchanged. */
  lemma CellBefore(g: BuiltDag, cellOf: seq<nat>, cells: seq<Option<Writer>>, cells': seq<Option<Writer>>,
                   node: nat, writers: map<nat, Writer>, k: nat)
    requires SharedByPort(g, cellOf, |cells|) && k < |g.arcs| && g.arcs[k].src == node
    requires WritersOk(g, cellOf, cells, node, writers, k + 1) && CellsTaken(g, cellOf, cells, cells', node, k + 1)
    ensures var port, c := g.arcs[k].weight.outputPort, cellOf[k];
            if port in writers then cells'[c] == None && cells[c] == Some(writers[port]) else cells'[c] == cells[c]
  {
    var port, c := g.arcs[k].weight.outputPort, cellOf[k];
    LeavingSome(g, node, port, k + 1);
    if port in writers {
      var l :| k + 1 <= l < |g.arcs| && FromPort(g, l, node, port);
      assert SamePort(g, l, k);
      assert WriterTaken(g, cellOf, cells, writers, l);
      assert OwnedBy(g, cellOf, node, c, k + 1);
    } else if OwnedBy(g, cellOf, node, c, k + 1) {
      var l :| k + 1 <= l < |g.arcs| && g.arcs[l].src == node && cellOf[l] == c;
      assert SamePort(g, l, k);
      assert WriterTaken(g, cellOf, cells, writers, l);
    }
  }

  lemma NextWriters(g: BuiltDag, cellOf: seq<nat>, cells: seq<Option<Writer>>, node: nat, writers: map<nat, Writer>,
                    writers': map<nat, Writer>, k: nat)
    requires SharedByPort(g, cellOf, |cells|) && k < |g.arcs| && WritersOk(g, cellOf, cells, node, writers, k + 1)
    requires g.arcs[k].src != node ==> writers' == writers
    requires g.arcs[k].src == node ==>
               var port, writer := g.arcs[k].weight.outputPort, cells[cellOf[k]];
               && (port in writers ==> writer == Some(writers[port]))
               && writers' == if writer.Some? then writers[port := writer.value] else writers
    ensures WritersOk(g, cellOf, cells, node, writers', k)
  {
    forall l | k <= l < |g.arcs| && g.arcs[l].src == node
      ensures WriterTaken(g, cellOf, cells, writers', l)
    {
      assert k < l ==> WriterTaken(g, cellOf, cells, writers, l);
      assert SamePort(g, k, l) <==> cellOf[k] == cellOf[l];
    }
  }

  lemma NextCells(g: BuiltDag, cellOf: seq<nat>, cells: seq<Option<Writer>>, cells': seq<Option<Writer>>,
                  cells'': seq<Option<Writer>>, node: nat, k: nat)
    requires SharedByPort(g, cellOf, |cells|) && k < |g.arcs| && CellsTaken(g, cellOf, cells, cells', node, k + 1)
    requires cells'' == if g.arcs[k].src == node then cells'[cellOf[k] := None] else cells'
    ensures CellsTaken(g, cellOf, cells, cells'', node, k)
  {
    forall c | 0 <= c < |cells|
      ensures OwnedBy(g, cellOf, node, c, k) <==>
                OwnedBy(g, cellOf, node, c, k + 1) || (g.arcs[k].src == node && cellOf[k] == c)
    {
    }
  }

  class Executable {
    const graph: BuiltDag
    const cellOf: seq<nat>
    var cells: seq<Option<Writer>>

    ghost predicate Valid()
      reads this
    {
      SharedByPort(graph, cellOf, |cells|)
    }

    constructor (graph: BuiltDag, cellOf: seq<nat>, cells: seq<Option<Writer>>)
      requires SharedByPort(graph, cellOf, |cells|)
      ensures Valid() && this.graph == graph && this.cellOf == cellOf && this.cells == cells
    {
      this.graph := graph;
      this.cellOf := cellOf;
      this.cells := cells;
    }

    method CollectReceivers(node: nat) returns (ports: seq<nat>, receivers: seq<nat>)
      ensures receivers == Entering(graph, node, 0) && |ports| == |receivers|
      ensures forall i :: 0 <= i < |receivers| ==>
                receivers[i] < |graph.arcs| && ports[i] == graph.arcs[receivers[i]].weight.inputPort
    {
      ports, receivers := [], [];
      for k := |graph.arcs| downto 0
        invariant receivers == Entering(graph, node, k) && |ports| == |receivers|
        invariant forall i :: 0 <= i < |receivers| ==>
                    receivers[i] < |graph.arcs| && ports[i] == graph.arcs[receivers[i]].weight.inputPort
      {
        if graph.arcs[k].dst == node {
          ports := ports + [graph.arcs[k].weight.inputPort];
          receivers := receivers + [k];
        }
      }
    }

    /** The senders of every output port, and every port's writer, which leaves its cell: no edge of another
        port, and no later call, finds it there. */
    method CollectSendersAndRecordWriters(node: nat) returns (senders: map<nat, seq<nat>>, writers: map<nat, Writer>)
      requires Valid()
      modifies this
      ensures Valid() && SendersOk(graph, node, senders, 0)
      ensures WritersOk(graph, cellOf, old(cells), node, writers, 0)
      ensures CellsTaken(graph, cellOf, old(cells), cells, node, 0)
    {
      senders, writers := map[], map[];
      for k := |graph.arcs| downto 0
        invariant SendersOk(graph, node, senders, k)
        invariant WritersOk(graph, cellOf, old(cells), node, writers, k)
        invariant CellsTaken(graph, cellOf, old(cells), cells, node, k)
      {
        ghost var writers0, cells0 := writers, cells;
        if graph.arcs[k].src == node {
          var port, c := graph.arcs[k].weight.outputPort, cellOf[k];
          CellBefore(graph, cellOf, old(cells), cells, node, writers, k);
          senders := senders[port := (if port in senders then senders[port] else []) + [k]];
          if port !in writers && cells[c].Some? {
            writers := writers[port := cells[c].value];
            cells := cells[c := None];
          }
        }
        NextWriters(graph, cellOf, old(cells), node, writers0, writers, k);
        NextCells(graph, cellOf, old(cells), cells0, cells, node, k);
      }
    }
  }
}
