/** What the schemas of a validated DAG are, edge by edge, and with which of them its nodes are built. */
module SchemaMeaning {
  import opened Wrappers
  import opened Graphs
  import opened Dag
  import opened DagSchemas
  import opened AncestorSources
  import opened BuilderDag

  /** Edge k arrives at an input port of the node. */
  predicate Enters(dag: SchemaDag, k: nat, node: nat, port: nat) {
    k < |dag.arcs| && dag.arcs[k].dst == node && dag.arcs[k].weight.inputPort == port
  }

  /** Edge k leaves an output port of the node. */
  predicate Leaves(dag: SchemaDag, k: nat, node: nat, port: nat) {
    k < |dag.arcs| && dag.arcs[k].src == node && dag.arcs[k].weight.outputPort == port
  }

  /** The map holds, for exactly the ports at which edges arrive, the schema of the edge that arrives there. */
  ghost predicate InputSchemas(dag: SchemaDag, node: nat, m: map<nat, Schema>) {
    && (forall p :: p in m ==> exists k :: Enters(dag, k, node, p))
    && (forall k: nat, p: nat :: Enters(dag, k, node, p) ==> p in m && m[p] == dag.arcs[k].weight.schema)
  }

  /** The map holds, for exactly the ports that edges leave, the schema of the edges that leave there. */
  ghost predicate OutputSchemas(dag: SchemaDag, node: nat, m: map<nat, Schema>) {
    && (forall p :: p in m ==> exists k :: Leaves(dag, k, node, p))
    && (forall k: nat, p: nat :: Leaves(dag, k, node, p) ==> p in m && m[p] == dag.arcs[k].weight.schema)
  }

  ghost predicate ValidDag(g: DagGraph, f: Factories, dag: SchemaDag) {
    && GraphOk(g) && Connected(g) && DistinctInputPorts(g) && SameStructure(g, dag) && Solution(g, f, Weights(dag))
  }

  lemma {:induction false} InputKeys(dag: SchemaDag, node: nat, start: nat, p: nat)
    requires start <= |dag.arcs|
    ensures p in InputsOf(dag, node, start) <==> exists k :: start <= k && Enters(dag, k, node, p)
    ensures p in InputsOf(dag, node, start) ==>
              exists k :: start <= k && Enters(dag, k, node, p)
                && InputsOf(dag, node, start)[p] == dag.arcs[k].weight.schema
    decreases |dag.arcs| - start
  {
    if start < |dag.arcs| {
      InputKeys(dag, node, start + 1, p);
      if Enters(dag, start, node, p) {
        assert InputsOf(dag, node, start)[p] == dag.arcs[start].weight.schema;
      } else if p in InputsOf(dag, node, start + 1) {
        assert InputsOf(dag, node, start)[p] == InputsOf(dag, node, start + 1)[p];
      }
    }
  }

  lemma {:induction false} OutputKeys(dag: SchemaDag, node: nat, start: nat, p: nat)
    requires start <= |dag.arcs|
    ensures p in OutputsOf(dag, node, start) <==> exists k :: start <= k && Leaves(dag, k, node, p)
    decreases |dag.arcs| - start
  {
    if start < |dag.arcs| {
      OutputKeys(dag, node, start + 1, p);
      assert Leaves(dag, start, node, p) ==> p in OutputsOf(dag, node, start);
    }
  }

  /** What `get_node_input_schemas` collects. */
  lemma InputsAre(g: DagGraph, f: Factories, dag: SchemaDag, node: nat)
    requires ValidDag(g, f, dag) && node < |g.nodes|
    ensures InputSchemas(dag, node, InputsOf(dag, node, 0))
  {
    var m := InputsOf(dag, node, 0);
    forall p | p in m
      ensures exists k :: Enters(dag, k, node, p)
    {
      InputKeys(dag, node, 0, p);
    }
    forall k: nat, p: nat | Enters(dag, k, node, p)
      ensures p in m && m[p] == dag.arcs[k].weight.schema
    {
      InputKeys(dag, node, 0, p);
      var l :| 0 <= l && Enters(dag, l, node, p) && m[p] == dag.arcs[l].weight.schema;
      OneArrival(g, f, dag, node, p, k, l);
    }
  }

  lemma OneArrival(g: DagGraph, f: Factories, dag: SchemaDag, node: nat, p: nat, k: nat, l: nat)
    requires ValidDag(g, f, dag) && node < |g.nodes| && Enters(dag, k, node, p) && Enters(dag, l, node, p)
    ensures k == l
  {
    assert g.arcs[k] in g.arcs;
    assert ArrivesAt(g, k, node, p) && ArrivesAt(g, l, node, p);
    OneEdgePerPort(g, node, p);
  }

  /** What `get_node_output_schemas` collects. */
  lemma OutputsAre(g: DagGraph, f: Factories, dag: SchemaDag, node: nat)
    requires ValidDag(g, f, dag) && node < |g.nodes|
    ensures OutputSchemas(dag, node, OutputsOf(dag, node, 0))
  {
    var m := OutputsOf(dag, node, 0);
    forall p | p in m
      ensures exists k :: Leaves(dag, k, node, p)
    {
      OutputKeys(dag, node, 0, p);
    }
    forall k: nat, p: nat | Leaves(dag, k, node, p)
      ensures p in m && m[p] == dag.arcs[k].weight.schema
    {
      OutputsAgree(g, f, dag, 0, k);
    }
  }

  /** The edge of a source has the schema, port type and port name that the source's factory gives for its port; the
      edge of a processor has the schema that its factory computes from the schemas of the edges into it. */
  ghost predicate EdgeMeans(g: DagGraph, f: Factories, dag: SchemaDag, k: nat)
    requires InRange(g) && SameStructure(g, dag) && k < |g.arcs|
  {
    assert g.arcs[k] in g.arcs;
    var n, port, edge := g.arcs[k].src, g.arcs[k].weight.from, dag.arcs[k].weight;
    match g.nodes[n].kind
    case Source(outs) =>
      && f.sourceSchema(n, port) == Some(edge.schema)
      && exists i :: 0 <= i < |outs| && outs[i] == port && port !in outs[..i]
           && edge.kind == FromSource(f.portType(n, i), f.portName(n, port))
    case Processor(_, _) =>
      && edge.kind == FromProcessor
      && exists ins :: InputSchemas(dag, n, ins) && f.processorSchema(n, port, ins) == Some(edge.schema)
    case Sink(_) => false
  }

  lemma EdgesMean(g: DagGraph, f: Factories, dag: SchemaDag, k: nat)
    requires ValidDag(g, f, dag) && k < |g.arcs|
    ensures EdgeMeans(g, f, dag, k)
  {
    assert g.arcs[k] in g.arcs;
    var n, port := g.arcs[k].src, g.arcs[k].weight.from;
    assert Weights(dag)[k] == Some(dag.arcs[k].weight) == Defined(g, f, Weights(dag), k);
    match g.nodes[n].kind
    case Source(outs) => FirstIndexFinds(outs, port);
    case Processor(_, _) =>
      BuiltWithValidated(g, dag, n, 0);
      InputsAre(g, f, dag, n);
    case Sink(_) =>
  }

  /** And every sink has accepted the schemas of the edges into it. */
  lemma SinksAccept(g: DagGraph, f: Factories, dag: SchemaDag, n: nat)
    requires ValidDag(g, f, dag) && n < |g.nodes| && g.nodes[n].kind.Sink?
    ensures exists ins :: InputSchemas(dag, n, ins) && f.prepare(n, ins)
  {
    assert SinkReady(g, f, Weights(dag), n);
    BuiltWithValidated(g, dag, n, 0);
    InputsAre(g, f, dag, n);
  }

  /** A source is built from the schemas of its outgoing edges, without a state; a processor from those of its incoming
      and outgoing edges and its checkpoint data; a sink from those of its incoming edges, with the state of a source
      that reaches it written to it. */
  ghost predicate NodeMeans(dag: SchemaDag, b: Builders, n: nat, x: BuiltNode)
    requires n < |dag.nodes|
  {
    && x.handle == dag.nodes[n].handle
    && match dag.nodes[n].kind
       case Source(_) =>
         && x.kind.BuiltSource? && x.kind.lastCheckpoint == None
         && exists outs :: OutputSchemas(dag, n, outs) && b.source(n, outs, None) == Some(x.kind.source)
       case Processor(_, _) =>
         && x.kind.BuiltProcessor?
         && exists ins, outs, data :: ProcessorParts(dag, b, n, x.kind.processor, ins, outs, data)
       case Sink(_) =>
         && x.kind.BuiltSink?
         && exists a: nat, ins, outs, source, state :: SinkParts(dag, b, n, x.kind.sink, a, ins, outs, source, state)
  }

  ghost predicate ProcessorParts(dag: SchemaDag, b: Builders, n: nat, x: Instance, ins: map<nat, Schema>,
                                 outs: map<nat, Schema>, data: Data) {
    && InputSchemas(dag, n, ins) && OutputSchemas(dag, n, outs)
    && b.loadData(n) == Some(data) && b.processor(n, ins, outs, data) == Some(x)
  }

  ghost predicate SinkParts(dag: SchemaDag, b: Builders, n: nat, x: Instance, a: nat, ins: map<nat, Schema>,
                            outs: map<nat, Schema>, source: Instance, state: State) {
    && a < |dag.nodes| && dag.nodes[a].kind.Source? && Reaches(dag, a, n)
    && OutputSchemas(dag, a, outs) && b.source(a, outs, None) == Some(source) && b.sourceState(source) == Some(state)
    && InputSchemas(dag, n, ins)
    && var sink := b.sink(n, ins); sink.Some? && b.setSourceState(sink.value, state) == Some(x)
  }

  lemma SinksMean(g: DagGraph, f: Factories, dag: SchemaDag, b: Builders, n: nat, x: BuiltNode, a: nat)
    requires ValidDag(g, f, dag) && Feeds(dag, a, n) && SinkAt(dag, b, n, a, |dag.nodes|, x)
    ensures NodeMeans(dag, b, n, x)
  {
    InputsAre(g, f, dag, n);
    OutputsAre(g, f, dag, a);
    var source := SourceOf(dag, b, a).value;
    assert SinkParts(dag, b, n, x.kind.sink, a, InputsOf(dag, n, 0), OutputsOf(dag, a, 0), source,
                     b.sourceState(source).value);
  }

  lemma NodesMean(g: DagGraph, f: Factories, dag: SchemaDag, b: Builders, n: nat, x: BuiltNode)
    requires ValidDag(g, f, dag) && n < |dag.nodes| && BuiltFrom(dag, b, n, x)
    ensures NodeMeans(dag, b, n, x)
  {
    if OtherAt(dag, b, n, x) {
      OthersMean(g, f, dag, b, n, x);
    } else {
      var a :| Feeds(dag, a, n) && SinkAt(dag, b, n, a, |dag.nodes|, x);
      SinksMean(g, f, dag, b, n, x, a);
    }
  }

  lemma OthersMean(g: DagGraph, f: Factories, dag: SchemaDag, b: Builders, n: nat, x: BuiltNode)
    requires ValidDag(g, f, dag) && OtherAt(dag, b, n, x)
    ensures NodeMeans(dag, b, n, x)
  {
    InputsAre(g, f, dag, n);
    OutputsAre(g, f, dag, n);
    if dag.nodes[n].kind.Processor? {
      var ins, outs := InputsOf(dag, n, 0), OutputsOf(dag, n, 0);
      assert ProcessorParts(dag, b, n, x.kind.processor, ins, outs, b.loadData(n).value);
    }
  }
}
