/** Building the nodes (dozer-core/src/builder_dag.rs): the sinks in a first pass, the sources and processors in
    a second one, then the edges between the renumbered nodes. */
module BuilderDag {
  import opened Wrappers
  import opened Graphs
  import opened Dag
  import opened DagSchemas
  import opened AncestorSources

  type Instance(==, !new)
  type State(==, !new)
  type Data(==, !new)

  type SchemaDag = Graph<Node, EdgeType>

  datatype Built =
    | BuiltSource(source: Instance, lastCheckpoint: Option<nat>)
    | BuiltProcessor(processor: Instance)
    | BuiltSink(sink: Instance)

  datatype BuiltNode = BuiltNode(handle: Handle, kind: Built)

  /** What the factories and the built nodes answer, by node; None is an error. */
  datatype Builders = Builders(
    loadData: nat -> Option<Data>,
    sink: (nat, map<nat, Schema>) -> Option<Instance>,
    sinkState: Instance -> Option<Option<State>>,
    sinkOpId: Instance -> Option<Option<nat>>,
    source: (nat, map<nat, Schema>, Option<State>) -> Option<Instance>,
    sourceState: Instance -> Option<State>,
    setSourceState: (Instance, State) -> Option<Instance>,
    processor: (nat, map<nat, Schema>, map<nat, Schema>, Data) -> Option<Instance>)

  /** Failed is an error of a factory, a node or the checkpoint; Broken stands for every `expect` and
      `unreachable!`. */
  datatype BuildError = Failed | SourceStateConflict(handle: Handle) | Broken

  // ---------------------------------------------------------------- schemas of a node

  /** `get_node_input_schemas`, over the edges from number `start` on. */
  function InputsOf(dag: SchemaDag, node: nat, start: nat): map<nat, Schema>
    requires start <= |dag.arcs|
    decreases |dag.arcs| - start
  {
    if start == |dag.arcs| then map[]
    else
      var rest := InputsOf(dag, node, start + 1);
      var arc := dag.arcs[start];
      if arc.dst == node then rest[arc.weight.inputPort := arc.weight.schema] else rest
  }

  /** `get_node_output_schemas`. */
  function OutputsOf(dag: SchemaDag, node: nat, start: nat): map<nat, Schema>
    requires start <= |dag.arcs|
    decreases |dag.arcs| - start
  {
    if start == |dag.arcs| then map[]
    else
      var rest := OutputsOf(dag, node, start + 1);
      var arc := dag.arcs[start];
      if arc.src == node then rest[arc.weight.outputPort := arc.weight.schema] else rest
  }

  /** A node is built with the input schemas with which it was validated. */
  lemma {:induction false} BuiltWithValidated(g: DagGraph, dag: SchemaDag, node: nat, start: nat)
    requires SameStructure(g, dag) && start <= |g.arcs|
    ensures InputsOf(dag, node, start) == Inputs(g, Weights(dag), node, start)
    decreases |g.arcs| - start
  {
    if start < |g.arcs| {
      BuiltWithValidated(g, dag, node, start + 1);
    }
  }

  /** Edges from one output port all carry the schema under which the port is listed: none hides another. */
  lemma {:induction false} OutputsAgree(g: DagGraph, f: Factories, dag: SchemaDag, start: nat, k: nat)
    requires SameStructure(g, dag) && Solution(g, f, Weights(dag)) && start <= k < |g.arcs|
    ensures var outs, arc := OutputsOf(dag, dag.arcs[k].src, start), dag.arcs[k];
            arc.weight.outputPort in outs && outs[arc.weight.outputPort] == arc.weight.schema
    decreases |g.arcs| - start
  {
    if start < k {
      OutputsAgree(g, f, dag, start + 1, k);
    }
    assert Weights(dag)[k] == Defined(g, f, Weights(dag), k);
    assert Weights(dag)[start] == Defined(g, f, Weights(dag), start);
  }

  // ---------------------------------------------------------------- what the build needs

  ghost predicate Differ(dag: SchemaDag, i: nat, j: nat) {
    i < |dag.nodes| && j < |dag.nodes| && i != j ==> dag.nodes[i].handle != dag.nodes[j].handle
  }

  ghost predicate DistinctNames(dag: SchemaDag) {
    forall i, j :: Differ(dag, i, j)
  }

  /** What a validated DAG gives: distinct handles, no cycle, and a source for every sink. */
  ghost predicate Buildable(dag: SchemaDag) {
    && Acyclic(dag) && DistinctNames(dag)
    && (forall n :: 0 <= n < |dag.nodes| && dag.nodes[n].kind.Sink? ==> exists h :: Affects(dag, h, n))
  }

  lemma SameReach(g: DagGraph, dag: SchemaDag, a: nat, b: nat)
    requires SameStructure(g, dag) && Reaches(g, a, b)
    ensures Reaches(dag, a, b)
  {
    var p :| PathFrom(g, p, a, b);
    forall i | 0 <= i < |p| - 1
      ensures Linked(dag, p[i], p[i + 1])
    {
      assert Linked(g, p[i], p[i + 1]);
      var k :| 0 <= k < |g.arcs| && g.arcs[k].src == p[i] && g.arcs[k].dst == p[i + 1];
      assert dag.arcs[k] in dag.arcs;
    }
    assert PathFrom(dag, p, a, b);
  }

  lemma SameRanks(g: DagGraph, dag: SchemaDag, rank: seq<nat>)
    requires SameStructure(g, dag) && Ranked(g, rank)
    ensures Ranked(dag, rank)
  {
    forall a | a in dag.arcs
      ensures a.src < |dag.nodes| && a.dst < |dag.nodes| && rank[a.src] < rank[a.dst]
    {
      var k :| 0 <= k < |dag.arcs| && dag.arcs[k] == a;
      assert g.arcs[k] in g.arcs;
    }
  }

  /** Every validated DAG can be built. */
  lemma ValidatedIsBuildable(g: DagGraph, dag: SchemaDag)
    requires GraphOk(g) && Connected(g) && SameStructure(g, dag)
    ensures Buildable(dag)
  {
    var rank :| Ranked(g, rank);
    SameRanks(g, dag, rank);
    forall n | 0 <= n < |dag.nodes| && dag.nodes[n].kind.Sink?
      ensures exists h :: Affects(dag, h, n)
    {
      var h := EveryNodeHasASource(g, n, rank);
      var a :| IsSource(g, a, h) && Reaches(g, a, n);
      SameReach(g, dag, a, n);
      assert IsSource(dag, a, h);
      assert Affects(dag, h, n);
    }
  }

  // ---------------------------------------------------------------- what is built

  function SourceOf(dag: SchemaDag, f: Builders, n: nat): Option<Instance> {
    f.source(n, OutputsOf(dag, n, 0), None)
  }

  function SinkOf(dag: SchemaDag, f: Builders, n: nat): Option<Instance> {
    f.sink(n, InputsOf(dag, n, 0))
  }

  function ProcessorOf(dag: SchemaDag, f: Builders, n: nat): Option<Instance> {
    var data := f.loadData(n);
    if data.None? then None else f.processor(n, InputsOf(dag, n, 0), OutputsOf(dag, n, 0), data.value)
  }

  /** The sink with the state of source a written to it. */
  function SinkWithState(dag: SchemaDag, f: Builders, n: nat, a: nat): Option<Instance> {
    var sink, source := SinkOf(dag, f, n), SourceOf(dag, f, a);
    if sink.None? || source.None? then None
    else
      var state := f.sourceState(source.value);
      if state.None? then None else f.setSourceState(sink.value, state.value)
  }

  /** Sink n as it is once the nodes below `done` have been through the second pass; source a feeds it. */
  ghost predicate SinkAt(dag: SchemaDag, f: Builders, n: nat, a: nat, done: nat, x: BuiltNode) {
    && n < |dag.nodes| && dag.nodes[n].kind.Sink? && x.handle == dag.nodes[n].handle && x.kind.BuiltSink?
    && Some(x.kind.sink) == if a < done then SinkWithState(dag, f, n, a) else SinkOf(dag, f, n)
  }

  /** A source is built without a state and without a checkpoint, whatever the sinks reported. */
  ghost predicate OtherAt(dag: SchemaDag, f: Builders, n: nat, x: BuiltNode) {
    && n < |dag.nodes| && x.handle == dag.nodes[n].handle
    && match dag.nodes[n].kind
       case Source(_) =>
         x.kind.BuiltSource? && Some(x.kind.source) == SourceOf(dag, f, n) && x.kind.lastCheckpoint == None
       case Processor(_, _) => x.kind.BuiltProcessor? && Some(x.kind.processor) == ProcessorOf(dag, f, n)
       case Sink(_) => false
  }

  /** Sink n refuses the state of source a. */
  ghost predicate Refuses(dag: SchemaDag, f: Builders, n: nat, a: nat) {
    var sink, source := SinkOf(dag, f, n), SourceOf(dag, f, a);
    && Feeds(dag, a, n) && sink.Some? && source.Some?
    && var state := f.sourceState(source.value); state.Some? && f.setSourceState(sink.value, state.value).None?
  }

  /** One of the answers that building the node asks for is an error: the instance itself, built from the node's own
      schemas and data, a source's state, a sink's report, or writing the state of one of its sources to a sink. */
  ghost predicate NodeFails(dag: SchemaDag, f: Builders, n: nat) {
    n < |dag.nodes| &&
    match dag.nodes[n].kind
    case Source(_) =>
      var source := SourceOf(dag, f, n);
      source.None? || f.sourceState(source.value).None?
    case Processor(_, _) => ProcessorOf(dag, f, n).None?
    case Sink(_) =>
      var sink := SinkOf(dag, f, n);
      || sink.None? || f.sinkState(sink.value).None? || f.sinkOpId(sink.value).None?
      || exists a :: Refuses(dag, f, n, a)
  }

  ghost predicate SomeFails(dag: SchemaDag, f: Builders) {
    exists n :: NodeFails(dag, f, n)
  }

  // ---------------------------------------------------------------- the state of the build

  datatype Build = Build(
    nodes: seq<Option<Node>>,
    built: seq<BuiltNode>,
    index: map<nat, nat>,
    states: map<Handle, State>,
    opIds: map<Handle, nat>,
    sinksOf: map<Handle, seq<nat>>,
    inputs: map<nat, map<nat, Schema>>,
    outputs: map<nat, map<nat, Schema>>,
    data: map<nat, Data>)

  /** Node n, if it is still to be taken, has its schemas and checkpoint data. */
  ghost predicate HasData(dag: SchemaDag, f: Builders, b: Build, n: nat)
    requires n < |dag.nodes|
  {
    n !in b.index ==>
      && n in b.inputs && b.inputs[n] == InputsOf(dag, n, 0)
      && n in b.outputs && b.outputs[n] == OutputsOf(dag, n, 0)
      && (dag.nodes[n].kind.Processor? ==> n in b.data && Some(b.data[n]) == f.loadData(n))
  }

  ghost predicate Collected(dag: SchemaDag, f: Builders, b: Build) {
    forall n :: 0 <= n < |dag.nodes| ==> HasData(dag, f, b, n)
  }

  /** `index` numbers the nodes taken so far in the order in which they were built; `origin` is its inverse. */
  ghost predicate Indexed(dag: SchemaDag, nodes: seq<Option<Node>>, index: map<nat, nat>, origin: seq<nat>) {
    && |nodes| == |dag.nodes|
    && (forall n :: 0 <= n < |dag.nodes| ==> nodes[n] == if n in index then None else Some(dag.nodes[n]))
    && (forall n :: n in index ==> n < |dag.nodes| && index[n] < |origin| && origin[index[n]] == n)
    && (forall p :: 0 <= p < |origin| ==> origin[p] in index && index[origin[p]] == p)
  }

  ghost predicate SinkBelow(dag: SchemaDag, h: Handle, i: nat) {
    exists n :: 0 <= n < i && n < |dag.nodes| && dag.nodes[n].kind.Sink? && dag.nodes[n].handle == h
  }

  /** Everything is filed under the handle of a sink below i: so no source finds anything under its own. */
  ghost predicate OnlySinkHandles(dag: SchemaDag, handles: set<Handle>, i: nat) {
    forall h :: h in handles ==> SinkBelow(dag, h, i)
  }

  /** The places at which x occurs. */
  function Positions(s: seq<nat>, x: nat): seq<nat> {
    if s == [] then []
    else
      var n := |s| - 1;
      if s[n] == x then Positions(s[..n], x) + [n] else Positions(s[..n], x)
  }

  lemma {:induction false} PositionsElements(s: seq<nat>, x: nat, p: nat)
    ensures p in Positions(s, x) <==> p < |s| && s[p] == x
  {
    if s != [] {
      PositionsElements(s[..|s| - 1], x, p);
    }
  }

  lemma {:induction false} PositionsDistinct(s: seq<nat>, x: nat)
    ensures NoRepeats(Positions(s, x))
  {
    if s != [] {
      var n := |s| - 1;
      PositionsDistinct(s[..n], x);
      PositionsElements(s[..n], x, n);
    }
  }

  function Listed(sinksOf: map<Handle, seq<nat>>, h: Handle): seq<nat> {
    if h in sinksOf then sinksOf[h] else []
  }

  /** The lists name, for every source, exactly the sinks it feeds. */
  ghost predicate Lists(dag: SchemaDag, sinksOf: map<Handle, seq<nat>>, feeder: seq<nat>) {
    forall a :: 0 <= a < |dag.nodes| ==> Listed(sinksOf, dag.nodes[a].handle) == Positions(feeder, a)
  }

  ghost predicate Feeds(dag: SchemaDag, a: nat, n: nat) {
    a < |dag.nodes| && dag.nodes[a].kind.Source? && Reaches(dag, a, n)
  }

  // ---------------------------------------------------------------- first pass

  ghost predicate SinksAt(dag: SchemaDag, f: Builders, origin: seq<nat>, feeder: seq<nat>, built: seq<BuiltNode>) {
    && |origin| == |feeder| == |built|
    && forall p :: 0 <= p < |origin| ==>
         SinkAt(dag, f, origin[p], feeder[p], 0, built[p]) && Feeds(dag, feeder[p], origin[p])
  }

  /** Before the first pass looks at node i. */
  ghost predicate FirstPass(dag: SchemaDag, f: Builders, b: Build, origin: seq<nat>, feeder: seq<nat>, i: nat) {
    && i <= |dag.nodes| && Collected(dag, f, b) && Indexed(dag, b.nodes, b.index, origin) && |feeder| == |origin|
    && (forall n :: n in b.index <==> 0 <= n < i && dag.nodes[n].kind.Sink?)
    && SinksAt(dag, f, origin, feeder, b.built)
    && Lists(dag, b.sinksOf, feeder)
    && OnlySinkHandles(dag, b.states.Keys, i) && OnlySinkHandles(dag, b.opIds.Keys, i)
  }

  /** `take_sink`: empties the slot exactly if it holds a sink. */
  method TakeSink(slot: Option<Node>) returns (sink: Option<Node>, left: Option<Node>)
    ensures slot.Some? && slot.value.kind.Sink? ==> sink == slot && left == None
    ensures slot.None? || !slot.value.kind.Sink? ==> sink == None && left == slot
  {
    if slot.None? {
      return None, None;
    }
    if slot.value.kind.Sink? {
      return slot, None;
    }
    return None, slot;
  }

  lemma TakeIndexed(dag: SchemaDag, nodes: seq<Option<Node>>, index: map<nat, nat>, origin: seq<nat>, n: nat)
    requires Indexed(dag, nodes, index, origin) && n < |dag.nodes| && n !in index
    ensures Indexed(dag, nodes[n := None], index[n := |origin|], origin + [n])
  {
  }

  lemma TakeCollected(dag: SchemaDag, f: Builders, b: Build, b': Build, n: nat)
    requires Collected(dag, f, b) && n < |dag.nodes| && n in b'.index && b.index.Keys <= b'.index.Keys
    requires b'.inputs == b.inputs - {n} || b'.inputs == b.inputs
    requires b'.outputs == b.outputs - {n} || b'.outputs == b.outputs
    requires b'.data == b.data - {n} || b'.data == b.data
    ensures Collected(dag, f, b')
  {
    forall m | 0 <= m < |dag.nodes|
      ensures HasData(dag, f, b', m)
    {
      assert HasData(dag, f, b, m);
    }
  }

  lemma ListFed(dag: SchemaDag, sinksOf: map<Handle, seq<nat>>, feeder: seq<nat>, a: nat)
    requires Lists(dag, sinksOf, feeder) && a < |dag.nodes|
    requires DistinctNames(dag)
    ensures var h := dag.nodes[a].handle;
            Lists(dag, sinksOf[h := Listed(sinksOf, h) + [|feeder|]], feeder + [a])
  {
    var h, feeder' := dag.nodes[a].handle, feeder + [a];
    assert feeder'[..|feeder|] == feeder;
    forall c | 0 <= c < |dag.nodes|
      ensures Listed(sinksOf[h := Listed(sinksOf, h) + [|feeder|]], dag.nodes[c].handle) == Positions(feeder', c)
    {
      assert Differ(dag, a, c);
    }
  }

  lemma OneMoreHandle(dag: SchemaDag, handles: set<Handle>, handles': set<Handle>, n: nat)
    requires OnlySinkHandles(dag, handles, n) && n < |dag.nodes| && dag.nodes[n].kind.Sink?
    requires handles' <= handles + {dag.nodes[n].handle}
    ensures OnlySinkHandles(dag, handles', n + 1)
  {
    assert SinkBelow(dag, dag.nodes[n].handle, n + 1);
    forall h | h in handles
      ensures SinkBelow(dag, h, n + 1)
    {
      assert SinkBelow(dag, h, n);
    }
  }

  lemma NotFiled(dag: SchemaDag, handles: set<Handle>, i: nat, n: nat)
    requires DistinctNames(dag) && OnlySinkHandles(dag, handles, i) && n < |dag.nodes|
    requires i <= n || !dag.nodes[n].kind.Sink?
    ensures dag.nodes[n].handle !in handles
  {
    forall h | h in handles
      ensures h != dag.nodes[n].handle
    {
      assert SinkBelow(dag, h, i);
      var m :| 0 <= m < i && m < |dag.nodes| && dag.nodes[m].kind.Sink? && dag.nodes[m].handle == h;
      assert Differ(dag, m, n);
    }
  }

  method FileState(states: map<Handle, State>, handle: Handle, state: State) returns (ok: bool, r: map<Handle, State>)
    ensures ok <==> handle !in states || states[handle] == state
    ensures ok ==> r == states[handle := state]
  {
    r := states;
    if handle in states {
      return states[handle] == state, states;
    }
    return true, states[handle := state];
  }

  method FileOpId(opIds: map<Handle, nat>, handle: Handle, op: nat) returns (r: map<Handle, nat>)
    ensures r.Keys == opIds.Keys + {handle} && forall h :: h in opIds && h != handle ==> r[h] == opIds[h]
    ensures r[handle] <= op && (handle in opIds ==> r[handle] <= opIds[handle])
    ensures r[handle] == op || (handle in opIds && r[handle] == opIds[handle])
  {
    if handle in opIds {
      r := opIds[handle := if op < opIds[handle] then op else opIds[handle]];
    } else {
      r := opIds[handle := op];
    }
  }

  /** Files the state and op id that a sink reports under its handle. No other sink has that handle, so there
      is no conflict and no minimum to take. */
  method FileReports(dag: SchemaDag, f: Builders, n: nat, sink: Instance, states: map<Handle, State>,
                     opIds: map<Handle, nat>)
    returns (r: Result<(map<Handle, State>, map<Handle, nat>), BuildError>)
    requires DistinctNames(dag) && n < |dag.nodes| && dag.nodes[n].kind.Sink? && SinkOf(dag, f, n) == Some(sink)
    requires OnlySinkHandles(dag, states.Keys, n) && OnlySinkHandles(dag, opIds.Keys, n)
    ensures r.Err? ==> r.error == Failed && SomeFails(dag, f)
    ensures r.Ok? ==> OnlySinkHandles(dag, r.value.0.Keys, n + 1) && OnlySinkHandles(dag, r.value.1.Keys, n + 1)
    ensures r.Ok? ==>
              var state, opId, handle := f.sinkState(sink), f.sinkOpId(sink), dag.nodes[n].handle;
              && state.Some? && opId.Some?
              && r.value.0 == (if state.value.None? then states else states[handle := state.value.value])
              && r.value.1 == (if opId.value.None? then opIds else opIds[handle := opId.value.value])
  {
    var handle, states', opIds' := dag.nodes[n].handle, states, opIds;
    var state := f.sinkState(sink);
    if state.None? {
      assert NodeFails(dag, f, n);
      return Err(Failed);
    }
    NotFiled(dag, states.Keys, n, n);
    if state.value.Some? {
      var ok;
      ok, states' := FileState(states, handle, state.value.value);
      if !ok {
        return Err(SourceStateConflict(handle));
      }
    }
    var opId := f.sinkOpId(sink);
    if opId.None? {
      assert NodeFails(dag, f, n);
      return Err(Failed);
    }
    NotFiled(dag, opIds.Keys, n, n);
    if opId.value.Some? {
      opIds' := FileOpId(opIds, handle, opId.value.value);
      assert opIds' == opIds[handle := opId.value.value];
    }
    OneMoreHandle(dag, states.Keys, states'.Keys, n);
    OneMoreHandle(dag, opIds.Keys, opIds'.Keys, n);
    return Ok((states', opIds'));
  }

  /** The new node's entries after a sink has been taken keep the first pass's invariant. */
  lemma SinkTaken(dag: SchemaDag, f: Builders, b: Build, b': Build, origin: seq<nat>, feeder: seq<nat>, n: nat, a: nat,
                  x: BuiltNode)
    requires DistinctNames(dag) && FirstPass(dag, f, b, origin, feeder, n) && n < |dag.nodes|
    requires dag.nodes[n].kind.Sink? && Feeds(dag, a, n) && SinkAt(dag, f, n, a, 0, x)
    requires b'.nodes == b.nodes[n := None] && b'.built == b.built + [x] && b'.index == b.index[n := |b.built|]
    requires b'.inputs == b.inputs - {n} && b'.outputs == b.outputs && b'.data == b.data
    requires b'.sinksOf == b.sinksOf[dag.nodes[a].handle := Listed(b.sinksOf, dag.nodes[a].handle) + [|b.built|]]
    requires OnlySinkHandles(dag, b'.states.Keys, n + 1) && OnlySinkHandles(dag, b'.opIds.Keys, n + 1)
    ensures FirstPass(dag, f, b', origin + [n], feeder + [a], n + 1)
  {
    TakeIndexed(dag, b.nodes, b.index, origin, n);
    TakeCollected(dag, f, b, b', n);
    ListFed(dag, b.sinksOf, feeder, a);
    MoreSinks(dag, f, origin, feeder, b.built, n, a, x);
  }

  lemma MoreSinks(dag: SchemaDag, f: Builders, origin: seq<nat>, feeder: seq<nat>, built: seq<BuiltNode>, n: nat,
                  a: nat, x: BuiltNode)
    requires SinksAt(dag, f, origin, feeder, built) && SinkAt(dag, f, n, a, 0, x) && Feeds(dag, a, n)
    ensures SinksAt(dag, f, origin + [n], feeder + [a], built + [x])
  {
  }

  lemma NotASink(dag: SchemaDag, f: Builders, b: Build, origin: seq<nat>, feeder: seq<nat>, n: nat)
    requires FirstPass(dag, f, b, origin, feeder, n) && n < |dag.nodes| && !dag.nodes[n].kind.Sink?
    ensures FirstPass(dag, f, b, origin, feeder, n + 1)
  {
    WiderHandles(dag, b.states.Keys, n);
    WiderHandles(dag, b.opIds.Keys, n);
  }

  lemma WiderHandles(dag: SchemaDag, handles: set<Handle>, i: nat)
    requires OnlySinkHandles(dag, handles, i)
    ensures OnlySinkHandles(dag, handles, i + 1)
  {
    forall h | h in handles
      ensures SinkBelow(dag, h, i + 1)
    {
      assert SinkBelow(dag, h, i);
    }
  }

  /** Some source of a sink; None is the failing `expect`. */
  method ChooseSource(dag: SchemaDag, n: nat, sources: set<Handle>) returns (r: Option<Handle>, ghost a: nat)
    requires Buildable(dag) && n < |dag.nodes| && dag.nodes[n].kind.Sink?
    requires forall h :: h in sources <==> Affects(dag, h, n)
    ensures r.Some? && Feeds(dag, a, n) && dag.nodes[a].handle == r.value
  {
    a := 0;
    if sources == {} {
      return None, a;
    }
    var source :| source in sources;
    a :| IsSource(dag, a, source) && Reaches(dag, a, n);
    return Some(source), a;
  }

  /** The body of the first loop for a sink. */
  method BuildSink(dag: SchemaDag, f: Builders, b: Build, n: nat, source: Handle,
                   ghost origin: seq<nat>, ghost feeder: seq<nat>, ghost a: nat)
    returns (r: Result<Build, BuildError>)
    requires DistinctNames(dag) && FirstPass(dag, f, b, origin, feeder, n) && n < |dag.nodes| && dag.nodes[n].kind.Sink?
    requires Feeds(dag, a, n) && dag.nodes[a].handle == source
    ensures r.Err? ==> r.error == Failed && SomeFails(dag, f)
    ensures r.Ok? ==> FirstPass(dag, f, r.value, origin + [n], feeder + [a], n + 1)
  {
    assert HasData(dag, f, b, n);
    if n !in b.inputs {
      return Err(Broken);
    }
    var sink := f.sink(n, b.inputs[n]);
    if sink.None? {
      assert NodeFails(dag, f, n);
      return Err(Failed);
    }
    var filed := FileReports(dag, f, n, sink.value, b.states, b.opIds);
    if filed.Err? {
      return Err(filed.error);
    }
    var x := BuiltNode(dag.nodes[n].handle, BuiltSink(sink.value));
    var b' := b.(nodes := b.nodes[n := None], built := b.built + [x], index := b.index[n := |b.built|],
                 states := filed.value.0, opIds := filed.value.1, inputs := b.inputs - {n},
                 sinksOf := b.sinksOf[source := Listed(b.sinksOf, source) + [|b.built|]]);
    SinkTaken(dag, f, b, b', origin, feeder, n, a, x);
    return Ok(b');
  }

  /** The body of the first loop. */
  method VisitForSink(dag: SchemaDag, f: Builders, b: Build, n: nat, sources: set<Handle>,
                      ghost origin: seq<nat>, ghost feeder: seq<nat>)
    returns (r: Result<Build, BuildError>, ghost origin': seq<nat>, ghost feeder': seq<nat>)
    requires Buildable(dag) && FirstPass(dag, f, b, origin, feeder, n) && n < |dag.nodes|
    requires forall h :: h in sources <==> Affects(dag, h, n)
    ensures r.Err? ==> r.error == Failed && SomeFails(dag, f)
    ensures r.Ok? ==> FirstPass(dag, f, r.value, origin', feeder', n + 1)
  {
    origin', feeder' := origin, feeder;
    var sink, left := TakeSink(b.nodes[n]);
    if sink.Some? {
      ghost var a;
      var source;
      source, a := ChooseSource(dag, n, sources);
      r := BuildSink(dag, f, b, n, source.value, origin, feeder, a);
      origin', feeder' := origin + [n], feeder + [a];
    } else {
      NotASink(dag, f, b, origin, feeder, n);
      r := Ok(b);
    }
  }

  /** The first pass: "sink must have a source" and "we collected all input schemas" hold. */
  method BuildSinks(dag: SchemaDag, f: Builders, b0: Build, affecting: seq<set<Handle>>)
    returns (r: Result<Build, BuildError>, ghost origin: seq<nat>, ghost feeder: seq<nat>)
    requires Buildable(dag) && FirstPass(dag, f, b0, [], [], 0) && |affecting| == |dag.nodes|
    requires forall n, h :: 0 <= n < |dag.nodes| ==> (h in affecting[n] <==> Affects(dag, h, n))
    ensures r.Err? ==> r.error == Failed && SomeFails(dag, f)
    ensures r.Ok? ==> FirstPass(dag, f, r.value, origin, feeder, |dag.nodes|)
  {
    origin, feeder := [], [];
    r := Ok(b0);
    for n := 0 to |dag.nodes|
      invariant r.Ok? && FirstPass(dag, f, r.value, origin, feeder, n)
    {
      r, origin, feeder := VisitForSink(dag, f, r.value, n, affecting[n], origin, feeder);
      if r.Err? {
        return;
      }
    }
  }

  // ---------------------------------------------------------------- second pass

  ghost predicate SinksWritten(dag: SchemaDag, f: Builders, origin: seq<nat>, feeder: seq<nat>,
                               built: seq<BuiltNode>, i: nat) {
    && |feeder| <= |origin| == |built|
    && forall p :: 0 <= p < |feeder| ==>
         SinkAt(dag, f, origin[p], feeder[p], i, built[p]) && Feeds(dag, feeder[p], origin[p])
  }

  ghost predicate OthersAt(dag: SchemaDag, f: Builders, origin: seq<nat>, built: seq<BuiltNode>, start: nat) {
    |origin| == |built| && forall p :: start <= p < |origin| ==> OtherAt(dag, f, origin[p], built[p])
  }

  ghost predicate ListsFrom(dag: SchemaDag, sinksOf: map<Handle, seq<nat>>, feeder: seq<nat>, i: nat) {
    forall a :: i <= a < |dag.nodes| ==> Listed(sinksOf, dag.nodes[a].handle) == Positions(feeder, a)
  }

  /** Before the second pass looks at node i. */
  ghost predicate SecondPass(dag: SchemaDag, f: Builders, b: Build, origin: seq<nat>, feeder: seq<nat>, i: nat) {
    && i <= |dag.nodes| && Collected(dag, f, b) && Indexed(dag, b.nodes, b.index, origin)
    && (forall n :: n in b.index <==> 0 <= n < |dag.nodes| && (n < i || dag.nodes[n].kind.Sink?))
    && SinksWritten(dag, f, origin, feeder, b.built, i) && OthersAt(dag, f, origin, b.built, |feeder|)
    && ListsFrom(dag, b.sinksOf, feeder, i)
    && OnlySinkHandles(dag, b.states.Keys, |dag.nodes|) && OnlySinkHandles(dag, b.opIds.Keys, |dag.nodes|)
  }

  lemma FirstToSecond(dag: SchemaDag, f: Builders, b: Build, origin: seq<nat>, feeder: seq<nat>)
    requires FirstPass(dag, f, b, origin, feeder, |dag.nodes|)
    ensures SecondPass(dag, f, b, origin, feeder, 0)
  {
  }

  /** Writes a source's state to the sinks at the given places. */
  method WriteState(f: Builders, built: seq<BuiltNode>, places: seq<nat>, state: State)
    returns (r: Result<seq<BuiltNode>, BuildError>)
    requires NoRepeats(places) && forall p :: p in places ==> p < |built|
    ensures r.Err? ==>
              || (r.error == Failed && exists p :: p in places && WriteFails(f, built[p], state))
              || (r.error == Broken && exists p :: p in places && !built[p].kind.BuiltSink?)
    ensures r.Ok? ==>
              && |r.value| == |built|
              && forall p :: 0 <= p < |built| ==> Written(f, built[p], r.value[p], p in places, state)
  {
    var written := built;
    for q := 0 to |places|
      invariant |written| == |built|
      invariant forall p :: 0 <= p < |built| ==> Written(f, built[p], written[p], p in places[..q], state)
    {
      var p := places[q];
      assert p in places && p !in places[..q];
      var node := written[p];
      if !node.kind.BuiltSink? {
        return Err(Broken);
      }
      var sink := f.setSourceState(node.kind.sink, state);
      if sink.None? {
        assert WriteFails(f, built[p], state);
        return Err(Failed);
      }
      written := written[p := BuiltNode(node.handle, BuiltSink(sink.value))];
      assert places[..q + 1] == places[..q] + [p];
    }
    assert places[..|places|] == places;
    return Ok(written);
  }

  ghost predicate WriteFails(f: Builders, x: BuiltNode, state: State) {
    x.kind.BuiltSink? && f.setSourceState(x.kind.sink, state).None?
  }

  ghost predicate Written(f: Builders, x: BuiltNode, y: BuiltNode, write: bool, state: State) {
    if write then
      && y.handle == x.handle && x.kind.BuiltSink? && y.kind.BuiltSink?
      && f.setSourceState(x.kind.sink, state) == Some(y.kind.sink)
    else y == x
  }

  lemma StateWritten(dag: SchemaDag, f: Builders, origin: seq<nat>, feeder: seq<nat>, built: seq<BuiltNode>,
                     built': seq<BuiltNode>, i: nat, source: Instance, state: State)
    requires SinksWritten(dag, f, origin, feeder, built, i) && OthersAt(dag, f, origin, built, |feeder|)
    requires SourceOf(dag, f, i) == Some(source) && f.sourceState(source) == Some(state) && |built'| == |built|
    requires forall p :: 0 <= p < |built| ==> Written(f, built[p], built'[p], p in Positions(feeder, i), state)
    ensures SinksWritten(dag, f, origin, feeder, built', i + 1) && OthersAt(dag, f, origin, built', |feeder|)
  {
    forall p | 0 <= p < |origin|
      ensures p < |feeder| ==> SinkAt(dag, f, origin[p], feeder[p], i + 1, built'[p])
      ensures |feeder| <= p ==> OtherAt(dag, f, origin[p], built'[p])
    {
      PositionsElements(feeder, i, p);
      assert Written(f, built[p], built'[p], p in Positions(feeder, i), state);
    }
  }

  /** A node that is not a source feeds no sink. */
  lemma NothingToWrite(dag: SchemaDag, f: Builders, origin: seq<nat>, feeder: seq<nat>, built: seq<BuiltNode>, i: nat)
    requires SinksWritten(dag, f, origin, feeder, built, i) && i < |dag.nodes| && !dag.nodes[i].kind.Source?
    ensures SinksWritten(dag, f, origin, feeder, built, i + 1)
  {
    forall p | 0 <= p < |feeder|
      ensures SinkAt(dag, f, origin[p], feeder[p], i + 1, built[p])
    {
      assert Feeds(dag, feeder[p], origin[p]);
    }
  }

  lemma NodeBuilt(dag: SchemaDag, f: Builders, origin: seq<nat>, feeder: seq<nat>, built: seq<BuiltNode>, i: nat,
                  n: nat, x: BuiltNode)
    requires SinksWritten(dag, f, origin, feeder, built, i) && OthersAt(dag, f, origin, built, |feeder|)
    requires OtherAt(dag, f, n, x)
    ensures SinksWritten(dag, f, origin + [n], feeder, built + [x], i)
    ensures OthersAt(dag, f, origin + [n], built + [x], |feeder|)
  {
    forall p | 0 <= p < |feeder|
      ensures SinkAt(dag, f, (origin + [n])[p], feeder[p], i, (built + [x])[p])
    {
      assert SinkAt(dag, f, origin[p], feeder[p], i, built[p]);
    }
  }

  lemma ListTaken(dag: SchemaDag, sinksOf: map<Handle, seq<nat>>, feeder: seq<nat>, i: nat)
    requires DistinctNames(dag) && i < |dag.nodes| && ListsFrom(dag, sinksOf, feeder, i)
    ensures ListsFrom(dag, sinksOf - {dag.nodes[i].handle}, feeder, i + 1)
  {
    forall a | i + 1 <= a < |dag.nodes|
      ensures Listed(sinksOf - {dag.nodes[i].handle}, dag.nodes[a].handle) == Positions(feeder, a)
    {
      assert Differ(dag, i, a);
    }
  }

  /** Builds a source and asks for its state. Nothing is filed under its handle, so it starts without a state
      and without a checkpoint. */
  method OpenSource(dag: SchemaDag, f: Builders, b: Build, n: nat)
    returns (r: Result<(Instance, State, BuiltNode), BuildError>)
    requires DistinctNames(dag) && n < |dag.nodes| && dag.nodes[n].kind.Source?
    requires n !in b.index && HasData(dag, f, b, n)
    requires OnlySinkHandles(dag, b.states.Keys, |dag.nodes|) && OnlySinkHandles(dag, b.opIds.Keys, |dag.nodes|)
    ensures r.Err? ==> r.error == Failed && SomeFails(dag, f)
    ensures r.Ok? ==>
              && SourceOf(dag, f, n) == Some(r.value.0) && f.sourceState(r.value.0) == Some(r.value.1)
              && OtherAt(dag, f, n, r.value.2)
  {
    var handle := dag.nodes[n].handle;
    if n !in b.outputs {
      return Err(Broken);
    }
    NotFiled(dag, b.states.Keys, |dag.nodes|, n);
    NotFiled(dag, b.opIds.Keys, |dag.nodes|, n);
    var source := f.source(n, b.outputs[n], Lookup(b.states, handle));
    if source.None? {
      assert NodeFails(dag, f, n);
      return Err(Failed);
    }
    var state := f.sourceState(source.value);
    if state.None? {
      assert NodeFails(dag, f, n);
      return Err(Failed);
    }
    return Ok((source.value, state.value, BuiltNode(handle, BuiltSource(source.value, Lookup(b.opIds, handle)))));
  }

  lemma WriteFailed(dag: SchemaDag, f: Builders, origin: seq<nat>, feeder: seq<nat>, built: seq<BuiltNode>, n: nat,
                    source: Instance, state: State, p: nat)
    requires SinksWritten(dag, f, origin, feeder, built, n) && p in Positions(feeder, n) && p < |built|
    requires SourceOf(dag, f, n) == Some(source) && f.sourceState(source) == Some(state)
    requires WriteFails(f, built[p], state)
    ensures SomeFails(dag, f)
  {
    PositionsElements(feeder, n, p);
    assert SinkAt(dag, f, origin[p], feeder[p], n, built[p]) && Feeds(dag, feeder[p], origin[p]);
    assert Refuses(dag, f, origin[p], n);
    assert NodeFails(dag, f, origin[p]);
  }

  method WriteToSinks(dag: SchemaDag, f: Builders, built: seq<BuiltNode>, places: seq<nat>, n: nat,
                      source: Instance, state: State, ghost origin: seq<nat>, ghost feeder: seq<nat>)
    returns (r: Result<seq<BuiltNode>, BuildError>)
    requires SinksWritten(dag, f, origin, feeder, built, n) && OthersAt(dag, f, origin, built, |feeder|)
    requires places == Positions(feeder, n)
    requires SourceOf(dag, f, n) == Some(source) && f.sourceState(source) == Some(state)
    ensures r.Err? ==> r.error == Failed && SomeFails(dag, f)
    ensures r.Ok? ==>
              && SinksWritten(dag, f, origin, feeder, r.value, n + 1)
              && OthersAt(dag, f, origin, r.value, |feeder|)
  {
    PlacesAreSinks(dag, f, origin, feeder, built, n);
    r := WriteState(f, built, places, state);
    if r.Ok? {
      StateWritten(dag, f, origin, feeder, built, r.value, n, source, state);
    } else {
      ghost var p :| p in places && WriteFails(f, built[p], state);
      WriteFailed(dag, f, origin, feeder, built, n, source, state, p);
    }
  }

  method BuildSource(dag: SchemaDag, f: Builders, b: Build, n: nat, ghost origin: seq<nat>, ghost feeder: seq<nat>)
    returns (r: Result<Build, BuildError>)
    requires DistinctNames(dag) && SecondPass(dag, f, b, origin, feeder, n)
    requires n < |dag.nodes| && dag.nodes[n].kind.Source?
    ensures r.Err? ==> r.error == Failed && SomeFails(dag, f)
    ensures r.Ok? ==> SecondPass(dag, f, r.value, origin + [n], feeder, n + 1)
  {
    assert HasData(dag, f, b, n);
    var answer := OpenSource(dag, f, b, n);
    if answer.Err? {
      return Err(answer.error);
    }
    var handle := dag.nodes[n].handle;
    var (source, state, x) := answer.value;
    var written := WriteToSinks(dag, f, b.built, Listed(b.sinksOf, handle), n, source, state, origin, feeder);
    if written.Err? {
      return Err(written.error);
    }
    SourceTaken(dag, f, b, origin, feeder, n, written.value, x);
    return Ok(WithSource(b, n, handle, written.value, x));
  }

  /** The source is taken out of its slot, and everything filed under its handle is removed. */
  function WithSource(b: Build, n: nat, handle: Handle, written: seq<BuiltNode>, x: BuiltNode): Build
    requires n < |b.nodes|
  {
    b.(nodes := b.nodes[n := None], built := written + [x], index := b.index[n := |written|],
       states := b.states - {handle}, opIds := b.opIds - {handle}, sinksOf := b.sinksOf - {handle},
       outputs := b.outputs - {n})
  }

  lemma SourceTaken(dag: SchemaDag, f: Builders, b: Build, origin: seq<nat>, feeder: seq<nat>, n: nat,
                    written: seq<BuiltNode>, x: BuiltNode)
    requires DistinctNames(dag) && SecondPass(dag, f, b, origin, feeder, n)
    requires n < |dag.nodes| && !dag.nodes[n].kind.Sink?
    requires SinksWritten(dag, f, origin, feeder, written, n + 1) && OthersAt(dag, f, origin, written, |feeder|)
    requires OtherAt(dag, f, n, x)
    ensures SecondPass(dag, f, WithSource(b, n, dag.nodes[n].handle, written, x), origin + [n], feeder, n + 1)
  {
    NodeBuilt(dag, f, origin, feeder, written, n + 1, n, x);
    NodeTaken(dag, f, b, WithSource(b, n, dag.nodes[n].handle, written, x), origin, feeder, n);
  }

  function Lookup<V>(m: map<Handle, V>, h: Handle): Option<V> {
    if h in m then Some(m[h]) else None
  }

  lemma PlacesAreSinks(dag: SchemaDag, f: Builders, origin: seq<nat>, feeder: seq<nat>, built: seq<BuiltNode>, n: nat)
    requires SinksWritten(dag, f, origin, feeder, built, n)
    ensures NoRepeats(Positions(feeder, n))
    ensures forall p :: p in Positions(feeder, n) ==> p < |built| && built[p].kind.BuiltSink?
  {
    PositionsDistinct(feeder, n);
    forall p | p in Positions(feeder, n)
      ensures p < |built| && built[p].kind.BuiltSink?
    {
      PositionsElements(feeder, n, p);
      assert SinkAt(dag, f, origin[p], feeder[p], n, built[p]);
    }
  }

  lemma NodeTaken(dag: SchemaDag, f: Builders, b: Build, b': Build, origin: seq<nat>, feeder: seq<nat>, n: nat)
    requires DistinctNames(dag) && SecondPass(dag, f, b, origin, feeder, n)
    requires n < |dag.nodes| && !dag.nodes[n].kind.Sink?
    requires b'.nodes == b.nodes[n := None] && b'.index == b.index[n := |origin|]
    requires b'.inputs == b.inputs - {n} || b'.inputs == b.inputs
    requires b'.outputs == b.outputs - {n} || b'.outputs == b.outputs
    requires b'.data == b.data - {n} || b'.data == b.data
    requires b'.states.Keys <= b.states.Keys && b'.opIds.Keys <= b.opIds.Keys
    requires b'.sinksOf == b.sinksOf - {dag.nodes[n].handle} || b'.sinksOf == b.sinksOf
    requires SinksWritten(dag, f, origin + [n], feeder, b'.built, n + 1)
    requires OthersAt(dag, f, origin + [n], b'.built, |feeder|)
    ensures SecondPass(dag, f, b', origin + [n], feeder, n + 1)
  {
    TakeIndexed(dag, b.nodes, b.index, origin, n);
    TakeCollected(dag, f, b, b', n);
    ListTaken(dag, b.sinksOf, feeder, n);
  }

  method BuildProcessor(dag: SchemaDag, f: Builders, b: Build, n: nat, ghost origin: seq<nat>, ghost feeder: seq<nat>)
    returns (r: Result<Build, BuildError>)
    requires DistinctNames(dag) && SecondPass(dag, f, b, origin, feeder, n)
    requires n < |dag.nodes| && dag.nodes[n].kind.Processor?
    ensures r.Err? ==> r.error == Failed && SomeFails(dag, f)
    ensures r.Ok? ==> SecondPass(dag, f, r.value, origin + [n], feeder, n + 1)
  {
    assert HasData(dag, f, b, n);
    if n !in b.inputs || n !in b.outputs || n !in b.data {
      return Err(Broken);
    }
    var processor := f.processor(n, b.inputs[n], b.outputs[n], b.data[n]);
    if processor.None? {
      assert NodeFails(dag, f, n);
      return Err(Failed);
    }
    var x := BuiltNode(dag.nodes[n].handle, BuiltProcessor(processor.value));
    var b' := b.(nodes := b.nodes[n := None], built := b.built + [x], index := b.index[n := |b.built|],
                 inputs := b.inputs - {n}, outputs := b.outputs - {n}, data := b.data - {n});
    NothingToWrite(dag, f, origin, feeder, b.built, n);
    NodeBuilt(dag, f, origin, feeder, b.built, n + 1, n, x);
    NodeTaken(dag, f, b, b', origin, feeder, n);
    return Ok(b');
  }

  lemma SlotOf(dag: SchemaDag, f: Builders, b: Build, origin: seq<nat>, feeder: seq<nat>, n: nat)
    requires SecondPass(dag, f, b, origin, feeder, n) && n < |dag.nodes|
    ensures |b.nodes| == |dag.nodes|
    ensures b.nodes[n] == if dag.nodes[n].kind.Sink? then None else Some(dag.nodes[n])
    ensures dag.nodes[n].kind.Sink? ==> SecondPass(dag, f, b, origin, feeder, n + 1)
  {
    if dag.nodes[n].kind.Sink? {
      NothingToWrite(dag, f, origin, feeder, b.built, n);
    }
  }

  /** The body of the second loop: a slot is empty exactly if it held a sink. */
  method VisitForOther(dag: SchemaDag, f: Builders, b: Build, n: nat, ghost origin: seq<nat>, ghost feeder: seq<nat>)
    returns (r: Result<Build, BuildError>, ghost origin': seq<nat>)
    requires DistinctNames(dag) && SecondPass(dag, f, b, origin, feeder, n) && n < |dag.nodes|
    ensures r.Err? ==> r.error == Failed && SomeFails(dag, f)
    ensures r.Ok? ==> SecondPass(dag, f, r.value, origin', feeder, n + 1)
  {
    origin' := origin;
    SlotOf(dag, f, b, origin, feeder, n);
    if b.nodes[n].None? {
      return Ok(b), origin';
    }
    origin' := origin + [n];
    match b.nodes[n].value.kind {
      case Source(_) => r := BuildSource(dag, f, b, n, origin, feeder);
      case Processor(_, _) => r := BuildProcessor(dag, f, b, n, origin, feeder);
      case Sink(_) => r := Err(Broken);
    }
  }

  method BuildOthers(dag: SchemaDag, f: Builders, b0: Build, ghost origin0: seq<nat>, ghost feeder: seq<nat>)
    returns (r: Result<Build, BuildError>, ghost origin: seq<nat>)
    requires DistinctNames(dag) && SecondPass(dag, f, b0, origin0, feeder, 0)
    ensures r.Err? ==> r.error == Failed && SomeFails(dag, f)
    ensures r.Ok? ==> SecondPass(dag, f, r.value, origin, feeder, |dag.nodes|)
  {
    origin := origin0;
    r := Ok(b0);
    for n := 0 to |dag.nodes|
      invariant r.Ok? && SecondPass(dag, f, r.value, origin, feeder, n)
    {
      r, origin := VisitForOther(dag, f, r.value, n, origin, feeder);
      if r.Err? {
        return;
      }
    }
  }

  // ---------------------------------------------------------------- before and after the passes

  method CollectSchemas(dag: SchemaDag)
    returns (inputs: map<nat, map<nat, Schema>>, outputs: map<nat, map<nat, Schema>>)
    ensures forall n :: 0 <= n < |dag.nodes| ==> n in inputs && inputs[n] == InputsOf(dag, n, 0)
    ensures forall n :: 0 <= n < |dag.nodes| ==> n in outputs && outputs[n] == OutputsOf(dag, n, 0)
  {
    inputs, outputs := map[], map[];
    for n := 0 to |dag.nodes|
      invariant forall m :: 0 <= m < n ==> m in inputs && inputs[m] == InputsOf(dag, m, 0)
      invariant forall m :: 0 <= m < n ==> m in outputs && outputs[m] == OutputsOf(dag, m, 0)
    {
      inputs := inputs[n := InputsOf(dag, n, 0)];
      outputs := outputs[n := OutputsOf(dag, n, 0)];
    }
  }

  method LoadData(dag: SchemaDag, f: Builders) returns (r: Option<map<nat, Data>>)
    ensures r.None? ==> SomeFails(dag, f)
    ensures r.Some? ==>
              forall n :: 0 <= n < |dag.nodes| && dag.nodes[n].kind.Processor? ==>
                n in r.value && Some(r.value[n]) == f.loadData(n)
  {
    var data: map<nat, Data> := map[];
    for n := 0 to |dag.nodes|
      invariant forall m :: 0 <= m < n && dag.nodes[m].kind.Processor? ==> m in data && Some(data[m]) == f.loadData(m)
    {
      if dag.nodes[n].kind.Processor? {
        var loaded := f.loadData(n);
        if loaded.None? {
          assert NodeFails(dag, f, n);
          return None;
        }
        data := data[n := loaded.value];
      }
    }
    return Some(data);
  }

  method CollectAffecting(dag: SchemaDag) returns (affecting: seq<set<Handle>>)
    requires Acyclic(dag)
    ensures |affecting| == |dag.nodes|
    ensures forall n, h :: 0 <= n < |dag.nodes| ==> (h in affecting[n] <==> Affects(dag, h, n))
  {
    affecting := [];
    for n := 0 to |dag.nodes|
      invariant |affecting| == n
      invariant forall m, h :: 0 <= m < n ==> (h in affecting[m] <==> Affects(dag, h, m))
    {
      var sources := CollectAncestorSources(dag, n);
      affecting := affecting + [sources];
    }
  }

  function Mapped(dag: SchemaDag, index: map<nat, nat>): seq<Arc<EdgeType>>
    requires forall a :: a in dag.arcs ==> a.src in index && a.dst in index
  {
    seq(|dag.arcs|, k requires 0 <= k < |dag.arcs| =>
      assert dag.arcs[k] in dag.arcs;
      Arc(index[dag.arcs[k].src], index[dag.arcs[k].dst], dag.arcs[k].weight))
  }

  /** All nodes have been taken. */
  ghost predicate Complete(dag: SchemaDag, index: map<nat, nat>, origin: seq<nat>) {
    && (forall n :: n in index <==> 0 <= n < |dag.nodes|)
    && (forall n :: n in index ==> index[n] < |origin| && origin[index[n]] == n)
    && (forall p :: 0 <= p < |origin| ==> origin[p] in index && index[origin[p]] == p)
  }

  lemma MappedRanks(dag: SchemaDag, built: seq<BuiltNode>, index: map<nat, nat>, origin: seq<nat>, rank: seq<nat>,
                    n: nat)
    requires Ranked(dag, rank) && Complete(dag, index, origin) && |built| == |origin| && n <= |dag.arcs|
    ensures Ranked(Graph(built, Mapped(dag, index)[..n]),
                   seq(|origin|, p requires 0 <= p < |origin| => rank[origin[p]]))
  {
    var mapped := Mapped(dag, index);
    forall a | a in mapped[..n]
      ensures a.src < |origin| && a.dst < |origin| && rank[origin[a.src]] < rank[origin[a.dst]]
    {
      var k :| 0 <= k < n && mapped[k] == a;
      assert dag.arcs[k] in dag.arcs;
    }
  }

  /** Connecting the edges: "we know there's no loop". */
  method ConnectEdges(dag: SchemaDag, built: seq<BuiltNode>, index: map<nat, nat>, ghost origin: seq<nat>)
    returns (g: Graph<BuiltNode, EdgeType>)
    requires Acyclic(dag) && Complete(dag, index, origin) && |built| == |origin|
    ensures g == Graph(built, Mapped(dag, index)) && Acyclic(g)
  {
    ghost var rank :| Ranked(dag, rank);
    ghost var rank' := seq(|origin|, p requires 0 <= p < |origin| => rank[origin[p]]);
    ghost var mapped := Mapped(dag, index);
    g := Graph(built, []);
    for k := 0 to |dag.arcs|
      invariant g == Graph(built, mapped[..k])
    {
      assert dag.arcs[k] in dag.arcs;
      var arc := Arc(index[dag.arcs[k].src], index[dag.arcs[k].dst], dag.arcs[k].weight);
      MappedRanks(dag, built, index, origin, rank, k);
      NoPathBack(g, rank', arc.dst, arc.src);
      assert !WouldCycle(g, arc);
      g := AddArc(g, arc);
      assert mapped[..k + 1] == mapped[..k] + [arc];
    }
    assert mapped[..|dag.arcs|] == mapped;
    MappedRanks(dag, built, index, origin, rank, |dag.arcs|);
  }

  /** The index map is a bijection between the nodes, and the edges are those of the DAG, renumbered. */
  ghost predicate Isomorphic(dag: SchemaDag, g: Graph<BuiltNode, EdgeType>, index: map<nat, nat>) {
    && (forall n :: n in index <==> 0 <= n < |dag.nodes|)
    && (forall n :: n in index ==> index[n] < |g.nodes|)
    && (forall n, m :: n in index && m in index && index[n] == index[m] ==> n == m)
    && (forall p :: 0 <= p < |g.nodes| ==> Taken(index, p))
    && |g.arcs| == |dag.arcs|
    && forall k :: 0 <= k < |g.arcs| ==> RenumberedArc(dag.arcs[k], g.arcs[k], index)
  }

  ghost predicate Taken(index: map<nat, nat>, p: nat) {
    exists n :: n in index && index[n] == p
  }

  ghost predicate RenumberedArc(a: Arc<EdgeType>, b: Arc<EdgeType>, index: map<nat, nat>) {
    a.src in index && b.src == index[a.src] && a.dst in index && b.dst == index[a.dst] && b.weight == a.weight
  }

  /** Node n became x: same handle, same kind, built from its own schemas; a sink holds the state of one of the
      sources that reach it. */
  ghost predicate BuiltFrom(dag: SchemaDag, f: Builders, n: nat, x: BuiltNode) {
    || OtherAt(dag, f, n, x)
    || exists a :: Feeds(dag, a, n) && SinkAt(dag, f, n, a, |dag.nodes|, x)
  }

  lemma SecondPassComplete(dag: SchemaDag, f: Builders, b: Build, origin: seq<nat>, feeder: seq<nat>)
    requires SecondPass(dag, f, b, origin, feeder, |dag.nodes|)
    ensures Complete(dag, b.index, origin) && |b.built| == |origin|
    ensures forall n :: 0 <= n < |dag.nodes| ==> BuiltFrom(dag, f, n, b.built[b.index[n]])
  {
    forall n | 0 <= n < |dag.nodes|
      ensures BuiltFrom(dag, f, n, b.built[b.index[n]])
    {
      var p := b.index[n];
      if p < |feeder| {
        assert Feeds(dag, feeder[p], origin[p]);
      }
    }
  }

  lemma CompleteIsIsomorphic(dag: SchemaDag, g: Graph<BuiltNode, EdgeType>, index: map<nat, nat>, origin: seq<nat>)
    requires Acyclic(dag) && Complete(dag, index, origin) && |g.nodes| == |origin| && g.arcs == Mapped(dag, index)
    ensures Isomorphic(dag, g, index)
  {
    forall p | 0 <= p < |g.nodes|
      ensures Taken(index, p)
    {
      assert origin[p] in index;
    }
    forall k | 0 <= k < |g.arcs|
      ensures RenumberedArc(dag.arcs[k], g.arcs[k], index)
    {
      assert dag.arcs[k] in dag.arcs;
    }
  }

  /** `BuilderDag::new`: an acyclic graph isomorphic to the DAG, each node built from its own schemas. Only the
      factories', the nodes' and the checkpoint's errors stop it: there is no conflict between sinks, and no
      `expect` fails. */
  method NewBuilderDag(dag: SchemaDag, f: Builders)
    returns (r: Result<Graph<BuiltNode, EdgeType>, BuildError>, index: map<nat, nat>)
    requires Buildable(dag)
    ensures r.Err? ==> r.error == Failed && SomeFails(dag, f)
    ensures r.Ok? ==> Isomorphic(dag, r.value, index) && Acyclic(r.value)
    ensures r.Ok? ==> forall n :: 0 <= n < |dag.nodes| ==> BuiltFrom(dag, f, n, r.value.nodes[index[n]])
  {
    index := map[];
    var inputs, outputs := CollectSchemas(dag);
    var data := LoadData(dag, f);
    if data.None? {
      return Err(Failed), index;
    }
    var affecting := CollectAffecting(dag);
    var nodes := seq(|dag.nodes|, n requires 0 <= n < |dag.nodes| => Some(dag.nodes[n]));
    var b := Build(nodes, [], map[], map[], map[], map[], inputs, outputs, data.value);
    var first, origin, feeder := BuildSinks(dag, f, b, affecting);
    if first.Err? {
      return Err(first.error), index;
    }
    FirstToSecond(dag, f, first.value, origin, feeder);
    var second;
    second, origin := BuildOthers(dag, f, first.value, origin, feeder);
    if second.Err? {
      return Err(second.error), index;
    }
    SecondPassComplete(dag, f, second.value, origin, feeder);
    index := second.value.index;
    var g := ConnectEdges(dag, second.value.built, index, origin);
    CompleteIsIsomorphic(dag, g, index, origin);
    return Ok(g), index;
  }
}
