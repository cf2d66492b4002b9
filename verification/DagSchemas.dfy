/** Validated DAGs (dozer-core/src/dag_schemas.rs): the connectivity check, and the propagation of schemas in
    topological order. */
module DagSchemas {
  import opened Wrappers
  import opened Graphs
  import opened Dag

  type Schema(==, !new)
  type PortType(==, !new)

  datatype EdgeKind = FromSource(portType: PortType, portName: string) | FromProcessor

  datatype EdgeType = EdgeType(outputPort: nat, inputPort: nat, schema: Schema, kind: EdgeKind)

  /** What the factories answer: `portType` gives the type of the i-th declared output port of a source;
      the others are `get_output_port_name`, `get_output_schema` and `prepare`. None and false are errors. */
  datatype Factories = Factories(
    portType: (nat, nat) -> PortType,
    portName: (nat, nat) -> string,
    sourceSchema: (nat, nat) -> Option<Schema>,
    processorSchema: (nat, nat, map<nat, Schema>) -> Option<Schema>,
    prepare: (nat, map<nat, Schema>) -> bool)

  datatype SchemaError =
    | NotConnected
    | FactoryFailed
    | DuplicateInput(node: nat, port: nat)
    | MissingInput(node: nat, port: nat)
    | PortNotFound(port: nat)
    | EdgeNotCreated
    | EdgeCreatedTwice

  // ---------------------------------------------------------------- connectivity

  function InputPorts(kind: Kind): seq<nat> {
    match kind
    case Source(_) => []
    case Processor(ins, _) => ins
    case Sink(ins) => ins
  }

  /** The input ports at which edges from number `start` on arrive at a node. */
  function Arriving(g: DagGraph, node: nat, start: nat): seq<nat>
    requires start <= |g.arcs|
    decreases |g.arcs| - start
  {
    if start == |g.arcs| then []
    else
      var rest := Arriving(g, node, start + 1);
      if g.arcs[start].dst == node then [g.arcs[start].weight.to] + rest else rest
  }

  ghost predicate NodeConnected(g: DagGraph, n: nat)
    requires n < |g.nodes|
  {
    && (!g.nodes[n].kind.Sink? ==> exists a :: a in g.arcs && a.src == n)
    && (!g.nodes[n].kind.Source? ==>
          && InputPorts(g.nodes[n].kind) != []
          && multiset(InputPorts(g.nodes[n].kind)) == multiset(Arriving(g, n, 0)))
  }

  ghost predicate Connected(g: DagGraph) {
    forall n :: 0 <= n < |g.nodes| ==> NodeConnected(g, n)
  }

  predicate Sorted(s: seq<nat>) {
    forall i, j :: 0 <= i < j < |s| ==> s[i] <= s[j]
  }

  method Insert(t: seq<nat>, x: nat) returns (r: seq<nat>)
    requires Sorted(t)
    ensures Sorted(r) && multiset(r) == multiset(t) + multiset{x}
  {
    var j := 0;
    while j < |t| && t[j] < x
      invariant 0 <= j <= |t| && forall l :: 0 <= l < j ==> t[l] < x
    {
      j := j + 1;
    }
    SplitElements(t, j);
    r := t[..j] + [x] + t[j..];
  }

  lemma SplitElements(t: seq<nat>, j: nat)
    requires j <= |t|
    ensures multiset(t) == multiset(t[..j]) + multiset(t[j..])
  {
    assert t == t[..j] + t[j..];
  }

  /** `sort`, by insertion. */
  method Sort(s: seq<nat>) returns (t: seq<nat>)
    ensures Sorted(t) && multiset(t) == multiset(s)
  {
    t := [];
    for i := 0 to |s|
      invariant Sorted(t) && multiset(t) == multiset(s[..i])
    {
      assert s[..i + 1] == s[..i] + [s[i]];
      t := Insert(t, s[i]);
    }
    assert s[..|s|] == s;
  }

  /** Two sorted lists with the same elements are the same list. */
  lemma {:induction false} SortedUnique(s: seq<nat>, t: seq<nat>)
    requires Sorted(s) && Sorted(t) && multiset(s) == multiset(t)
    ensures s == t
  {
    assert |s| == |multiset(s)| == |multiset(t)| == |t|;
    if s != [] {
      HeadIsLeast(s, t);
      HeadIsLeast(t, s);
      TailElements(s);
      TailElements(t);
      SortedUnique(s[1..], t[1..]);
      assert s == [s[0]] + s[1..] && t == [t[0]] + t[1..];
    }
  }

  lemma HeadIsLeast(s: seq<nat>, t: seq<nat>)
    requires Sorted(s) && multiset(s) == multiset(t) && t != [] && s != []
    ensures s[0] <= t[0]
  {
    assert t[0] in multiset(s);
    var i :| 0 <= i < |s| && s[i] == t[0];
  }

  lemma TailElements(s: seq<nat>)
    requires s != []
    ensures multiset(s[1..]) == multiset(s) - multiset{s[0]}
  {
    assert s == [s[0]] + s[1..];
  }

  method HasOutgoing(g: DagGraph, n: nat) returns (found: bool)
    ensures found <==> exists a :: a in g.arcs && a.src == n
  {
    found := false;
    for k := 0 to |g.arcs|
      invariant found <==> exists j :: 0 <= j < k && g.arcs[j].src == n
    {
      if g.arcs[k].src == n {
        found := true;
      }
    }
  }

  /** `validate_connectivity`; false is a panic. */
  method ValidateConnectivity(g: DagGraph) returns (ok: bool)
    ensures ok <==> Connected(g)
  {
    for n := 0 to |g.nodes|
      invariant forall m :: 0 <= m < n && !g.nodes[m].kind.Sink? ==> exists a :: a in g.arcs && a.src == m
    {
      if !g.nodes[n].kind.Sink? {
        var outgoing := HasOutgoing(g, n);
        if !outgoing {
          assert !NodeConnected(g, n);
          return false;
        }
      }
    }
    for n := 0 to |g.nodes|
      invariant forall m :: 0 <= m < n ==> NodeConnected(g, m)
    {
      if !g.nodes[n].kind.Source? {
        var ins := InputPorts(g.nodes[n].kind);
        if ins == [] {
          assert !NodeConnected(g, n);
          return false;
        }
        var sorted := Sort(ins);
        var arriving := Sort(Arriving(g, n, 0));
        if sorted != arriving {
          if multiset(sorted) == multiset(arriving) {
            SortedUnique(sorted, arriving);
          }
          assert !NodeConnected(g, n);
          return false;
        }
      }
    }
    return true;
  }

  // ---------------------------------------------------------------- what a schema assignment is

  /** The schemas of the created edges from number `start` on that arrive at a node, by input port. */
  function Inputs(g: DagGraph, edges: seq<Option<EdgeType>>, node: nat, start: nat): map<nat, Schema>
    requires |edges| == |g.arcs| && start <= |edges|
    decreases |edges| - start
  {
    if start == |edges| then map[]
    else
      var rest := Inputs(g, edges, node, start + 1);
      if g.arcs[start].dst == node && edges[start].Some? then
        rest[g.arcs[start].weight.to := edges[start].value.schema]
      else rest
  }

  function FirstIndex(ports: seq<nat>, port: nat): Option<nat> {
    if ports == [] then None
    else if ports[0] == port then Some(0)
    else match FirstIndex(ports[1..], port)
      case None => None
      case Some(i) => Some(i + 1)
  }

  /** The edge that the factories define for edge number k, given the edges into its source node. */
  function Defined(g: DagGraph, f: Factories, edges: seq<Option<EdgeType>>, k: nat): Option<EdgeType>
    requires InRange(g) && |edges| == |g.arcs| && k < |g.arcs|
  {
    var arc := g.arcs[k];
    assert arc in g.arcs;
    match g.nodes[arc.src].kind
    case Source(outs) =>
      var index, schema := FirstIndex(outs, arc.weight.from), f.sourceSchema(arc.src, arc.weight.from);
      if index.None? || schema.None? then None
      else
        var kind := FromSource(f.portType(arc.src, index.value), f.portName(arc.src, arc.weight.from));
        Some(EdgeType(arc.weight.from, arc.weight.to, schema.value, kind))
    case Processor(_, _) =>
      var schema := f.processorSchema(arc.src, arc.weight.from, Inputs(g, edges, arc.src, 0));
      if schema.None? then None
      else Some(EdgeType(arc.weight.from, arc.weight.to, schema.value, FromProcessor))
    case Sink(_) => None
  }

  ghost predicate SinkReady(g: DagGraph, f: Factories, edges: seq<Option<EdgeType>>, n: nat)
    requires |edges| == |g.arcs| && n < |g.nodes|
  {
    g.nodes[n].kind.Sink? ==> f.prepare(n, Inputs(g, edges, n, 0))
  }

  /** Every edge has the type its source node's factory gives it from that node's input schemas, and every
      sink accepts its own: a system of equations, with no order of evaluation in it. */
  ghost predicate Solution(g: DagGraph, f: Factories, edges: seq<Option<EdgeType>>) {
    && InRange(g) && |edges| == |g.arcs|
    && (forall k :: 0 <= k < |edges| ==> edges[k].Some? && edges[k] == Defined(g, f, edges, k))
    && (forall n :: 0 <= n < |g.nodes| ==> SinkReady(g, f, edges, n))
  }

  ghost predicate SameInto(g: DagGraph, e: seq<Option<EdgeType>>, e': seq<Option<EdgeType>>, node: nat)
    requires |e| == |g.arcs| == |e'|
  {
    forall k :: 0 <= k < |e| && g.arcs[k].dst == node ==> e[k] == e'[k]
  }

  lemma {:induction false} SameInputs(g: DagGraph, e: seq<Option<EdgeType>>, e': seq<Option<EdgeType>>, node: nat,
                                      start: nat)
    requires |e| == |g.arcs| == |e'| && start <= |e| && SameInto(g, e, e', node)
    ensures Inputs(g, e, node, start) == Inputs(g, e', node, start)
    decreases |e| - start
  {
    if start < |e| {
      SameInputs(g, e, e', node, start + 1);
    }
  }

  lemma SameDefined(g: DagGraph, f: Factories, e: seq<Option<EdgeType>>, e': seq<Option<EdgeType>>, k: nat)
    requires InRange(g) && |e| == |g.arcs| == |e'| && k < |e| && SameInto(g, e, e', g.arcs[k].src)
    ensures Defined(g, f, e, k) == Defined(g, f, e', k)
  {
    SameInputs(g, e, e', g.arcs[k].src, 0);
  }

  /** On an acyclic graph the equations have at most one solution. */
  lemma SolutionUnique(g: DagGraph, f: Factories, e: seq<Option<EdgeType>>, e': seq<Option<EdgeType>>)
    requires Acyclic(g) && Solution(g, f, e) && Solution(g, f, e')
    ensures e == e'
  {
    var rank :| Ranked(g, rank);
    forall k | 0 <= k < |e|
      ensures e[k] == e'[k]
    {
      SameEdge(g, f, e, e', rank, k);
    }
  }

  lemma {:induction false} SameEdge(g: DagGraph, f: Factories, e: seq<Option<EdgeType>>, e': seq<Option<EdgeType>>,
                                    rank: seq<nat>, k: nat)
    requires Ranked(g, rank) && Solution(g, f, e) && Solution(g, f, e') && k < |e|
    ensures e[k] == e'[k]
    decreases assert g.arcs[k] in g.arcs; rank[g.arcs[k].src]
  {
    var n := g.arcs[k].src;
    forall j | 0 <= j < |e| && g.arcs[j].dst == n
      ensures e[j] == e'[j]
    {
      assert g.arcs[j] in g.arcs;
      SameEdge(g, f, e, e', rank, j);
    }
    SameDefined(g, f, e, e', k);
  }

  // ---------------------------------------------------------------- propagation

  /** A topological traversal: every node once, after all nodes with an edge to it. */
  ghost predicate Topological<N, W>(g: Graph<N, W>, order: seq<nat>) {
    && (forall i :: 0 <= i < |order| ==> order[i] < |g.nodes|)
    && (forall n :: 0 <= n < |g.nodes| ==> n in order)
    && (forall i, j :: 0 <= i < j < |order| ==> order[i] != order[j])
    && (forall i, a :: 0 <= i < |order| && a in g.arcs && a.dst == order[i] ==> a.src in order[..i])
  }

  predicate NoRepeats(s: seq<nat>) {
    forall i, j :: 0 <= i < j < |s| ==> s[i] != s[j]
  }

  /** No processor or sink declares an input port twice. */
  ghost predicate DistinctInputPorts(g: DagGraph) {
    forall n :: 0 <= n < |g.nodes| ==> NoRepeats(InputPorts(g.nodes[n].kind))
  }

  /** `find_output_port_type`: the position of the first port with the handle. */
  method FindOutputPort(ports: seq<nat>, port: nat) returns (r: Option<nat>)
    ensures r == FirstIndex(ports, port)
  {
    var i := 0;
    while i < |ports|
      invariant 0 <= i <= |ports|
      invariant var later := FirstIndex(ports[i..], port);
                FirstIndex(ports, port) == if later.None? then None else Some(later.value + i)
    {
      if ports[i] == port {
        return Some(i);
      }
      assert ports[i..][1..] == ports[i + 1..];
      i := i + 1;
    }
    return None;
  }

  lemma {:induction false} FirstIndexFinds(ports: seq<nat>, port: nat)
    ensures var r := FirstIndex(ports, port);
            match r
            case None => port !in ports
            case Some(i) => i < |ports| && ports[i] == port && port !in ports[..i]
  {
    if ports != [] {
      FirstIndexFinds(ports[1..], port);
      var r := FirstIndex(ports, port);
      if r.Some? && 0 < r.value {
        assert ports[..r.value] == [ports[0]] + ports[1..][..r.value - 1];
      }
    }
  }

  /** `validate_input_schemas`: the input schemas, unless an edge into the node has no schema yet, two edges
      arrive at one port, or a declared port has none. */
  method ValidateInputSchemas(g: DagGraph, edges: seq<Option<EdgeType>>, node: nat, ins: seq<nat>)
    returns (r: Result<map<nat, Schema>, SchemaError>)
    requires |edges| == |g.arcs|
    ensures r.Ok? ==>
              && r.value == Inputs(g, edges, node, 0) && NoRepeats(Arriving(g, node, 0))
              && forall p :: p in ins ==> p in r.value
    ensures r.Err? ==>
              match r.error
              case EdgeNotCreated => exists k :: 0 <= k < |edges| && g.arcs[k].dst == node && edges[k].None?
              case DuplicateInput(n, _) => n == node && !NoRepeats(Arriving(g, node, 0))
              case MissingInput(n, p) => n == node && p in ins && p !in Arriving(g, node, 0)
              case _ => false
  {
    var inputs := map[];
    for k := |edges| downto 0
      invariant inputs == Inputs(g, edges, node, k) && NoRepeats(Arriving(g, node, k))
      invariant forall p :: p in inputs <==> p in Arriving(g, node, k)
    {
      if g.arcs[k].dst == node {
        var port := g.arcs[k].weight.to;
        if edges[k].None? {
          return Err(EdgeNotCreated);
        }
        if port in inputs {
          var rest := Arriving(g, node, k + 1);
          var j :| 0 <= j < |rest| && rest[j] == port;
          var all := Arriving(g, node, k);
          assert all[0] == port && all[j + 1] == port;
          RepeatsStay(g, node, k);
          return Err(DuplicateInput(node, port));
        }
        inputs := inputs[port := edges[k].value.schema];
      }
    }
    for i := 0 to |ins|
      invariant forall p :: p in ins[..i] ==> p in inputs
    {
      if ins[i] !in inputs {
        return Err(MissingInput(node, ins[i]));
      }
    }
    return Ok(inputs);
  }

  lemma {:induction false} RepeatsStay(g: DagGraph, node: nat, start: nat)
    requires start <= |g.arcs| && !NoRepeats(Arriving(g, node, start))
    ensures !NoRepeats(Arriving(g, node, 0))
    decreases start
  {
    if 0 < start {
      var rest, all := Arriving(g, node, start), Arriving(g, node, start - 1);
      var i, j :| 0 <= i < j < |rest| && rest[i] == rest[j];
      var d := |all| - |rest|;
      assert all[i + d] == rest[i] && all[j + d] == rest[j];
      RepeatsStay(g, node, start - 1);
    }
  }

  /** edges' is edges with all edges out of a node created. */
  ghost predicate Filled(g: DagGraph, f: Factories, edges: seq<Option<EdgeType>>, edges': seq<Option<EdgeType>>,
                         node: nat, start: nat)
    requires InRange(g) && |edges| == |g.arcs|
  {
    && |edges'| == |edges|
    && forall k :: 0 <= k < |edges| ==>
         if g.arcs[k].src == node && start <= k then edges'[k].Some? && edges'[k] == Defined(g, f, edges, k)
         else edges'[k] == edges[k]
  }

  /** The edges out of a node, whose input schemas are already collected: a source's or a processor's branch. */
  method CreateEdges(g: DagGraph, f: Factories, edges: seq<Option<EdgeType>>, node: nat, inputs: map<nat, Schema>)
    returns (r: Result<seq<Option<EdgeType>>, SchemaError>)
    requires InRange(g) && |edges| == |g.arcs| && node < |g.nodes| && !g.nodes[node].kind.Sink?
    requires g.nodes[node].kind.Processor? ==> inputs == Inputs(g, edges, node, 0)
    ensures r.Ok? ==> Filled(g, f, edges, r.value, node, 0)
    ensures r.Err? ==>
              exists k :: 0 <= k < |edges| && g.arcs[k].src == node &&
                match r.error
                case FactoryFailed => Defined(g, f, edges, k).None?
                case PortNotFound(port) => !ContainsPort(g.nodes[node].kind, Output, g.arcs[k].weight.from)
                case EdgeCreatedTwice => edges[k].Some?
                case _ => false
  {
    var kind, created := g.nodes[node].kind, edges;
    for k := |edges| downto 0
      invariant Filled(g, f, edges, created, node, k)
    {
      if g.arcs[k].src == node {
        var ports := g.arcs[k].weight;
        var schema, edgeKind := None, FromProcessor;
        if kind.Source? {
          var index := FindOutputPort(kind.outs, ports.from);
          FirstIndexFinds(kind.outs, ports.from);
          if index.None? {
            return Err(PortNotFound(ports.from));
          }
          edgeKind := FromSource(f.portType(node, index.value), f.portName(node, ports.from));
          schema := f.sourceSchema(node, ports.from);
        } else {
          schema := f.processorSchema(node, ports.from, inputs);
        }
        if schema.None? {
          return Err(FactoryFailed);
        }
        if created[k].Some? {
          return Err(EdgeCreatedTwice);
        }
        created := created[k := Some(EdgeType(ports.from, ports.to, schema.value, edgeKind))];
      }
    }
    return Ok(created);
  }

  // ---------------------------------------------------------------- what the traversal keeps

  /** After the nodes in `done`: exactly their outgoing edges exist, each as the factories define it. */
  ghost predicate Progress(g: DagGraph, f: Factories, edges: seq<Option<EdgeType>>, done: seq<nat>) {
    && InRange(g) && |edges| == |g.arcs|
    && (forall k :: 0 <= k < |edges| ==> (edges[k].Some? <==> g.arcs[k].src in done))
    && (forall k :: 0 <= k < |edges| && edges[k].Some? ==> edges[k] == Defined(g, f, edges, k))
    && (forall n :: n in done && n < |g.nodes| ==>
          SinkReady(g, f, edges, n) && NoRepeats(InputPorts(g.nodes[n].kind)))
  }

  /** All edges into a node whose predecessors are done have been created, and later ones do not change them. */
  ghost predicate Settled(g: DagGraph, node: nat, done: seq<nat>) {
    forall k :: 0 <= k < |g.arcs| && g.arcs[k].dst == node ==> g.arcs[k].src in done
  }

  ghost predicate AllSettled(g: DagGraph, done: seq<nat>) {
    forall n :: n in done ==> Settled(g, n, done)
  }

  lemma FillKeepsProgress(g: DagGraph, f: Factories, edges: seq<Option<EdgeType>>, edges': seq<Option<EdgeType>>,
                          node: nat, done: seq<nat>)
    requires Progress(g, f, edges, done) && AllSettled(g, done) && Settled(g, node, done)
    requires node < |g.nodes| && node !in done && Filled(g, f, edges, edges', node, 0)
    requires SinkReady(g, f, edges, node) && NoRepeats(InputPorts(g.nodes[node].kind))
    ensures Progress(g, f, edges', done + [node]) && AllSettled(g, done + [node])
  {
    forall n | n in done + [node]
      ensures SameInto(g, edges, edges', n) && Settled(g, n, done + [node])
      ensures Inputs(g, edges, n, 0) == Inputs(g, edges', n, 0)
    {
      assert Settled(g, n, done);
      SameInputs(g, edges, edges', n, 0);
    }
    forall k | 0 <= k < |edges'| && edges'[k].Some?
      ensures edges'[k] == Defined(g, f, edges', k)
    {
      assert g.arcs[k].src in done + [node];
      SameDefined(g, f, edges, edges', k);
    }
  }

  /** Whatever has been created agrees with every solution. */
  ghost predicate Agrees(edges: seq<Option<EdgeType>>, sol: seq<Option<EdgeType>>) {
    |edges| == |sol| && forall k :: 0 <= k < |edges| && edges[k].Some? ==> edges[k] == sol[k]
  }

  lemma SettledAgrees(g: DagGraph, f: Factories, edges: seq<Option<EdgeType>>, sol: seq<Option<EdgeType>>,
                      node: nat, done: seq<nat>)
    requires Progress(g, f, edges, done) && Settled(g, node, done) && Solution(g, f, sol) && Agrees(edges, sol)
    ensures Inputs(g, edges, node, 0) == Inputs(g, sol, node, 0)
    ensures forall k :: 0 <= k < |edges| && g.arcs[k].src == node ==> Defined(g, f, edges, k) == sol[k]
  {
    SameInputs(g, edges, sol, node, 0);
    forall k | 0 <= k < |edges| && g.arcs[k].src == node
      ensures Defined(g, f, edges, k) == sol[k]
    {
      SameDefined(g, f, edges, sol, k);
    }
  }

  lemma {:induction false} CountOnce(s: seq<nat>, x: nat)
    requires NoRepeats(s)
    ensures multiset(s)[x] <= 1
  {
    if s != [] {
      assert s == [s[0]] + s[1..];
      CountOnce(s[1..], x);
    }
  }

  /** Reordering a list neither adds nor removes repetitions. */
  lemma RepeatsReordered(s: seq<nat>, t: seq<nat>)
    requires multiset(s) == multiset(t) && NoRepeats(s)
    ensures NoRepeats(t)
  {
    forall i, j | 0 <= i < j < |t|
      ensures t[i] != t[j]
    {
      CountOnce(s, t[i]);
      assert t == t[..j] + [t[j]] + t[j + 1..];
      assert t[i] in t[..j];
    }
  }

  /** The node may be visited next. */
  ghost predicate Ready(g: DagGraph, f: Factories, edges: seq<Option<EdgeType>>, node: nat, done: seq<nat>) {
    && Progress(g, f, edges, done) && AllSettled(g, done) && Settled(g, node, done)
    && node < |g.nodes| && node !in done
  }

  ghost predicate NoSolutionAgrees(g: DagGraph, f: Factories, edges: seq<Option<EdgeType>>) {
    forall sol :: Solution(g, f, sol) ==> !Agrees(edges, sol)
  }

  lemma EdgeRefused(g: DagGraph, f: Factories, edges: seq<Option<EdgeType>>, node: nat, done: seq<nat>, k: nat)
    requires Ready(g, f, edges, node, done) && k < |edges| && g.arcs[k].src == node && Defined(g, f, edges, k).None?
    ensures NoSolutionAgrees(g, f, edges)
  {
    forall sol | Solution(g, f, sol) && Agrees(edges, sol)
      ensures false
    {
      SettledAgrees(g, f, edges, sol, node, done);
    }
  }

  lemma SinkRefused(g: DagGraph, f: Factories, edges: seq<Option<EdgeType>>, node: nat, done: seq<nat>)
    requires Ready(g, f, edges, node, done) && !SinkReady(g, f, edges, node)
    ensures NoSolutionAgrees(g, f, edges)
  {
    forall sol | Solution(g, f, sol) && Agrees(edges, sol)
      ensures false
    {
      assert SinkReady(g, f, sol, node);
      SettledAgrees(g, f, edges, sol, node, done);
    }
  }

  lemma FillAgrees(g: DagGraph, f: Factories, edges: seq<Option<EdgeType>>, edges': seq<Option<EdgeType>>,
                   node: nat, done: seq<nat>, sol: seq<Option<EdgeType>>)
    requires Ready(g, f, edges, node, done) && Filled(g, f, edges, edges', node, 0)
    requires Solution(g, f, sol) && Agrees(edges, sol)
    ensures Agrees(edges', sol)
  {
    SettledAgrees(g, f, edges, sol, node, done);
  }

  /** The input schemas of a node whose predecessors are done: after the connectivity check only a port
      declared twice is refused. */
  method CollectInputs(g: DagGraph, f: Factories, edges: seq<Option<EdgeType>>, node: nat, ghost done: seq<nat>)
    returns (r: Result<map<nat, Schema>, SchemaError>)
    requires Ready(g, f, edges, node, done) && NodeConnected(g, node) && !g.nodes[node].kind.Source?
    ensures r.Ok? ==> r.value == Inputs(g, edges, node, 0)
    ensures r.Ok? <==> NoRepeats(InputPorts(g.nodes[node].kind))
    ensures r.Err? ==> r.error.DuplicateInput?
  {
    var ins := InputPorts(g.nodes[node].kind);
    r := ValidateInputSchemas(g, edges, node, ins);
    ghost var arriving := Arriving(g, node, 0);
    assert forall p :: p in ins ==> p in multiset(ins);
    assert forall p :: p in multiset(arriving) ==> p in arriving;
    if NoRepeats(ins) {
      RepeatsReordered(ins, arriving);
    } else if NoRepeats(arriving) {
      RepeatsReordered(arriving, ins);
    }
  }

  /** One node of the traversal. Only a factory's refusal or a port declared twice stops it, and a refusal
      means that no solution continues what has been created. */
  method VisitNode(g: DagGraph, f: Factories, edges: seq<Option<EdgeType>>, node: nat, ghost done: seq<nat>)
    returns (r: Result<seq<Option<EdgeType>>, SchemaError>)
    requires PortsOk(g) && Ready(g, f, edges, node, done) && NodeConnected(g, node)
    ensures r.Ok? ==> Filled(g, f, edges, r.value, node, 0) && SinkReady(g, f, edges, node)
    ensures r.Ok? ==> NoRepeats(InputPorts(g.nodes[node].kind))
    ensures r.Err? ==>
              || (r.error == FactoryFailed && NoSolutionAgrees(g, f, edges))
              || (r.error.DuplicateInput? && !NoRepeats(InputPorts(g.nodes[node].kind)))
  {
    var inputs := map[];
    if !g.nodes[node].kind.Source? {
      var collected := CollectInputs(g, f, edges, node, done);
      if collected.Err? {
        return Err(collected.error);
      }
      inputs := collected.value;
    }
    if g.nodes[node].kind.Sink? {
      if !f.prepare(node, inputs) {
        SinkRefused(g, f, edges, node, done);
        return Err(FactoryFailed);
      }
      NothingLeavesASink(g, f, edges, node);
      return Ok(edges);
    }
    r := CreateEdges(g, f, edges, node, inputs);
    if r.Err? {
      PortsDeclared(g);
      forall k | 0 <= k < |edges| && g.arcs[k].src == node && Defined(g, f, edges, k).None?
        ensures NoSolutionAgrees(g, f, edges)
      {
        EdgeRefused(g, f, edges, node, done, k);
      }
    }
  }

  lemma PortsDeclared(g: DagGraph)
    requires PortsOk(g)
    ensures forall k :: 0 <= k < |g.arcs| ==> ContainsPort(g.nodes[g.arcs[k].src].kind, Output, g.arcs[k].weight.from)
  {
    assert forall k :: 0 <= k < |g.arcs| ==> g.arcs[k] in g.arcs;
  }

  lemma NothingLeavesASink(g: DagGraph, f: Factories, edges: seq<Option<EdgeType>>, node: nat)
    requires PortsOk(g) && |edges| == |g.arcs| && node < |g.nodes| && g.nodes[node].kind.Sink?
    ensures Filled(g, f, edges, edges, node, 0)
  {
    PortsDeclared(g);
  }

  function Weights(dag: Graph<Node, EdgeType>): seq<Option<EdgeType>> {
    seq(|dag.arcs|, k requires 0 <= k < |dag.arcs| => Some(dag.arcs[k].weight))
  }

  /** The same nodes, and the same edges between the same ports. */
  ghost predicate SameStructure(g: DagGraph, dag: Graph<Node, EdgeType>) {
    && dag.nodes == g.nodes && |dag.arcs| == |g.arcs|
    && forall k :: 0 <= k < |g.arcs| ==>
         && dag.arcs[k].src == g.arcs[k].src && dag.arcs[k].dst == g.arcs[k].dst
         && dag.arcs[k].weight.outputPort == g.arcs[k].weight.from
         && dag.arcs[k].weight.inputPort == g.arcs[k].weight.to
  }

  /** `map_owned`: the same graph with the created edges. */
  function WithWeights(g: DagGraph, ghost f: Factories, edges: seq<Option<EdgeType>>): (dag: Graph<Node, EdgeType>)
    requires Solution(g, f, edges)
    ensures Weights(dag) == edges && SameStructure(g, dag)
  {
    var dag := Graph(g.nodes, seq(|g.arcs|, k requires 0 <= k < |g.arcs| =>
      Arc(g.arcs[k].src, g.arcs[k].dst, edges[k].value)));
    assert Weights(dag) == edges;
    dag
  }

  lemma DoneProgress(g: DagGraph, f: Factories, order: seq<nat>, edges: seq<Option<EdgeType>>)
    requires Topological(g, order) && Progress(g, f, edges, order)
    ensures Solution(g, f, edges) && DistinctInputPorts(g)
  {
    forall k | 0 <= k < |edges|
      ensures edges[k].Some?
    {
      assert g.arcs[k] in g.arcs;
    }
  }

  lemma NextSettled(g: DagGraph, order: seq<nat>, i: nat)
    requires Topological(g, order) && i < |order|
    ensures Settled(g, order[i], order[..i]) && order[i] !in order[..i] && order[..i + 1] == order[..i] + [order[i]]
  {
    assert forall k :: 0 <= k < |g.arcs| ==> g.arcs[k] in g.arcs;
  }

  /** `populate_schemas` along any topological traversal: it succeeds exactly if the equations have a solution
      and no input port is declared twice, the result is that solution on the same structure, and the only
      errors are a factory's and DuplicateInput for a port declared twice. */
  method PopulateSchemas(g: DagGraph, f: Factories, order: seq<nat>)
    returns (r: Result<Graph<Node, EdgeType>, SchemaError>)
    requires PortsOk(g) && Connected(g) && Topological(g, order)
    ensures r.Ok? <==> DistinctInputPorts(g) && exists sol :: Solution(g, f, sol)
    ensures r.Ok? ==> Solution(g, f, Weights(r.value)) && SameStructure(g, r.value)
    ensures r.Err? ==>
              || (r.error == FactoryFailed && !exists sol :: Solution(g, f, sol))
              || (r.error.DuplicateInput? && !DistinctInputPorts(g))
  {
    var edges := seq(|g.arcs|, _ => None);
    assert order[..0] == [];
    for i := 0 to |order|
      invariant Progress(g, f, edges, order[..i]) && AllSettled(g, order[..i])
      invariant forall sol :: Solution(g, f, sol) ==> Agrees(edges, sol)
    {
      NextSettled(g, order, i);
      var visited := VisitNode(g, f, edges, order[i], order[..i]);
      if visited.Err? {
        return Err(visited.error);
      }
      FillKeepsProgress(g, f, edges, visited.value, order[i], order[..i]);
      forall sol | Solution(g, f, sol)
        ensures Agrees(visited.value, sol)
      {
        FillAgrees(g, f, edges, visited.value, order[i], order[..i], sol);
      }
      edges := visited.value;
    }
    assert order[..|order|] == order;
    DoneProgress(g, f, order, edges);
    return Ok(WithWeights(g, f, edges));
  }

  /** The traversal does not matter: two results for one DAG are the same graph. */
  lemma OrderIrrelevant(g: DagGraph, f: Factories, a: Graph<Node, EdgeType>, b: Graph<Node, EdgeType>)
    requires Acyclic(g) && Solution(g, f, Weights(a)) && SameStructure(g, a)
    requires Solution(g, f, Weights(b)) && SameStructure(g, b)
    ensures a == b
  {
    SolutionUnique(g, f, Weights(a), Weights(b));
    forall k | 0 <= k < |a.arcs|
      ensures a.arcs[k] == b.arcs[k]
    {
      assert Weights(a)[k] == Weights(b)[k];
    }
  }

  /** `DagSchemas::new`. */
  method NewDagSchemas(g: DagGraph, f: Factories, order: seq<nat>)
    returns (r: Result<Graph<Node, EdgeType>, SchemaError>)
    requires GraphOk(g) && Topological(g, order)
    ensures r.Ok? <==> Connected(g) && DistinctInputPorts(g) && exists sol :: Solution(g, f, sol)
    ensures r.Ok? ==> Solution(g, f, Weights(r.value)) && SameStructure(g, r.value)
    ensures r.Err? ==>
              match r.error
              case NotConnected => !Connected(g)
              case DuplicateInput(_, _) => Connected(g) && !DistinctInputPorts(g)
              case FactoryFailed => Connected(g) && !exists sol :: Solution(g, f, sol)
              case _ => false
  {
    var ok := ValidateConnectivity(g);
    if !ok {
      return Err(NotConnected);
    }
    r := PopulateSchemas(g, f, order);
  }

  // ---------------------------------------------------------------- one edge per input port

  ghost predicate ArrivesAt(g: DagGraph, k: nat, node: nat, port: nat) {
    k < |g.arcs| && g.arcs[k].dst == node && g.arcs[k].weight.to == port
  }

  lemma {:induction false} ArrivingElements(g: DagGraph, node: nat, port: nat, start: nat)
    requires start <= |g.arcs|
    ensures port in Arriving(g, node, start) <==> exists k :: start <= k && ArrivesAt(g, k, node, port)
    decreases |g.arcs| - start
  {
    if start < |g.arcs| {
      ArrivingElements(g, node, port, start + 1);
      if port in Arriving(g, node, start) && port !in Arriving(g, node, start + 1) {
        assert ArrivesAt(g, start, node, port);
      }
    }
  }

  lemma {:induction false} ArrivingOnce(g: DagGraph, node: nat, port: nat, start: nat, k: nat, l: nat)
    requires start <= k < l && ArrivesAt(g, k, node, port) && ArrivesAt(g, l, node, port)
    ensures !NoRepeats(Arriving(g, node, start))
    decreases k - start
  {
    if start < k {
      ArrivingOnce(g, node, port, start + 1, k, l);
      var rest, all := Arriving(g, node, start + 1), Arriving(g, node, start);
      var i, j :| 0 <= i < j < |rest| && rest[i] == rest[j];
      var d := |all| - |rest|;
      assert all[i + d] == rest[i] && all[j + d] == rest[j];
    } else {
      ArrivingElements(g, node, port, start + 1);
      var rest, all := Arriving(g, node, start + 1), Arriving(g, node, start);
      var j :| 0 <= j < |rest| && rest[j] == port;
      assert all[0] == port && all[j + 1] == port;
    }
  }

  /** What the connectivity check is for: an input port has exactly one incoming edge. */
  lemma OneEdgePerPort(g: DagGraph, node: nat, port: nat)
    requires Connected(g) && DistinctInputPorts(g) && node < |g.nodes| && !g.nodes[node].kind.Source?
    ensures port in InputPorts(g.nodes[node].kind) <==> exists k :: ArrivesAt(g, k, node, port)
    ensures forall k, l :: ArrivesAt(g, k, node, port) && ArrivesAt(g, l, node, port) ==> k == l
  {
    assert NodeConnected(g, node);
    var ins, arriving := InputPorts(g.nodes[node].kind), Arriving(g, node, 0);
    assert port in ins <==> port in multiset(ins);
    assert port in arriving <==> port in multiset(arriving);
    ArrivingElements(g, node, port, 0);
    RepeatsReordered(ins, arriving);
    forall k, l | ArrivesAt(g, k, node, port) && ArrivesAt(g, l, node, port)
      ensures k == l
    {
      if k < l {
        ArrivingOnce(g, node, port, 0, k, l);
      } else if l < k {
        ArrivingOnce(g, node, port, 0, l, k);
      }
    }
  }
}
