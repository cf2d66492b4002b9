# Dozer: a verified model of the pipeline core

This project models the parts of Dozer that decide whether a pipeline is correct, and proves what they are for.

* **The executor** (`ReceiverLoop`, `Network`, `Protocol`, `Preservation`, `Quiescence`, `ConsistentCut`,
  `Termination`, `Determinism`, `Delivery`, `Forwarder`). One thread runs all sources, every processor and sink has a thread of its
  own, and every edge of the DAG is a bounded FIFO channel. A node stops reading a port once that port has delivered its
  `Commit`, commits when all ports have, and returns when all ports have delivered `Terminate`. All of this is one
  transition system over the threads' atomic steps: a blocking send, a receive, an event of the sources. One invariant is
  proved of every reachable state, and from it: no assertion or panic of the receive loop is ever hit, no deadlock whatever
  the DAG and the buffer size, every commit is a consistent cut, every run ends after shutdown, every channel carries
  exactly what the sender's processor answered to its callbacks, and pipelines with one
  input per node give the same streams whatever the scheduling and the buffer sizes. The one way for a run to fail is that
  a node forwards an operation to a port without an edge, and the theorems say so as an if-and-only-if.
* **From the description to that network** (`Graphs`, `Dag`, `DagSchemas`, `AncestorSources`, `BuilderDag`, `SchemaMeaning`,
  `ExecutionDag`, `Wiring`). Adding, connecting and merging nodes; the connectivity check; schema propagation; ancestor sources; the
  two-pass build; record writers shared by port; starting the threads. `Wiring.Launch` composes them: every DAG that passes
  ends in its own network, whose threads and channels are its nodes and edges, and which is of exactly the kind the
  executor's theorems are about.
* **The epoch manager** (`EpochManager`, `EpochAgreement`): a mutex-guarded state, a fresh barrier per round and a count of
  confirmations, as interleaved atomic steps of any number of sources.
* **The cache builder** (`CacheBuilder`): replay from the last commit, reconnects, rebuilding under another log id, the
  swap of the served cache.
* **Smaller cores**: the primary-key record writer and its checkpoint bytes (`RecordStore`, `Serialize`), the comparison of
  JSON values (`JsonOrder`, `JsonDirection`), the merge of YAML values (`YamlMerge`).

`dafny verify dfyconfig.toml` checks everything.

## How the model stands to the code

* Code that updates things step by step is a class or a method with loops, proved against a specification function or a
  predicate on values; the theorems are about those. `ReceiverLoop.Receiver`, `Forwarder.ChannelManager`,
  `EpochManager.Guarded`, `CacheBuilder.CacheBuilderImpl`, `Dag.DagBuilder`, `ExecutionDag.Executable`,
  `Serialize.Cursor` and `RecordStore.RecordWriter` are such classes.
* A channel is everything ever sent on it and a read cursor. Its capacity is any positive number. A channel's message
  carries, besides its content, the epoch in which the source caused it; the code has no such field, and nothing in the
  model decides by it. Outputs inherit it from the input that caused them.
* Processors and sinks are arbitrary deterministic functions of their own state and the input: an operation, a commit or a
  snapshot event. A processor that forwards to
  a port without an edge panics in the code, and a source that does so ends its thread with an error. A validated DAG can
  have such ports, since the connectivity check asks a node for one outgoing edge only. In the model such a step,
  `Misrouted`, ends the run: `Preservation.ReachableInv` proves that a run fails exactly if its last step is one, and the
  other theorems hold of every run up to there. `PortsRespected` is a sufficient condition, not an assumption.
* Threads are numbered along the edges. `Wiring.NumberAll` proves that every built DAG can be so numbered; the code has no
  such numbers.
* `expect`, `unreachable!`, `panic!` and `debug_assert!` are error results of their own, and the contracts say that they
  do not occur, or exactly when.
* daggy, petgraph, crossbeam, bincode and LMDB are used through what they promise: an edge is refused exactly if it closes
  a cycle, a topological traversal visits every node once after its predecessors, a channel is FIFO, decoding undoes
  encoding, a transaction commits or is dropped. Factories, nodes and the checkpoint answer through function parameters,
  errors included.
* Epoch ids, log positions and instants are unbounded; lengths in checkpoints are 64-bit, least significant byte first.

## Where the code and its surroundings disagree

* The epoch manager is not part of the crate's module tree (dozer-core/src/epoch/mod.rs:1-47 does not declare it). Its
  `num_records` is the constant 0 (dozer-core/src/epoch/manager.rs:202-216), so a positive record threshold never fires, while the file's
  own last test expects it to. The model follows the code: `EpochAgreement.PersistSpacing` and `PersistAlways` are the two
  cases.
* `open_cache` uses default write options, `create_cache` the configured ones (dozer-api/src/cache_builder/mod.rs:213-252). Replay is
  proved for configurations that equal the defaults.
* Some reconnects break the replay. `CacheBuilder.ConnectReplays` gives the exact condition, `Safe`, which a caller can
  check before connecting; the replay theorem holds of all runs whose reconnects pass it, during catch-up too. Three kinds do
  not pass: to the new log during catch-up once a commit of it is stored (`RestartDuringCatchUp`), to an earlier log
  outside catch-up (`ReturnToEarlierLog`), and to the served log during catch-up (`ReturnDuringCatchUp`). These lemmas state
  what such a builder commits, and that the result is a replay exactly if applying the operations again makes no
  difference; `AppliedTwice` is an input for which it does.
* A restart during catch-up serves the cache that is being built, so readers fall back to what it has committed
  (`CacheBuilder.RestartServes` gives the exact condition).
* The build files a sink's state and last operation under the sink's handle but looks them up under the source's
  (dozer-core/src/builder_dag.rs:108-134 against 156-180). `BuilderDag.OpenSource` and `NewBuilderDag` state what follows:
  every source starts without a state and without a checkpoint, `SourceStateConflict` never occurs, and no minimum is taken.
* A list of input ports that names a port twice passes the connectivity check and then ends in `DuplicateInput`;
  `DagSchemas.NewDagSchemas` states it as an if-and-only-if.

## Model

| member | source | states |
|---|---|---|
| `ReceiverLoop.Receiver.Step` | dozer-core/src/executor/receiver_loop.rs:48-95 | one iteration of the loop, on the array of port states and the select set, does what the specification says, the two ways to panic included |
| `ReceiverLoop.Receiver.Run` | dozer-core/src/executor/receiver_loop.rs:36-96 | the whole loop equals the specified iterations for every schedule of ready receivers |
| `ReceiverLoop.Receiver.AllPortsTerminated` | dozer-core/src/executor/receiver_loop.rs:77-82 | true exactly if every port has terminated |
| `Forwarder.ChannelManager.SendToAllPorts` | dozer-core/src/forwarder.rs:60-68 | sends the message once on every channel, in the order of the senders table |
| `Forwarder.ChannelManager.SendOp` | dozer-core/src/forwarder.rs:28-58 | the port's record writer completes or refuses the operation; what it lets through goes to exactly the senders of the port, in order, with an error exactly if there are none |
| `Forwarder.RouteIsGroup` | dozer-core/src/forwarder.rs:43-57 | where the senders table agrees with the wiring, that is what the network routes |
| `Forwarder.WriterSeesItsPort` | dozer-core/src/forwarder.rs:33-41 | over any sequence of operations a port's record writer sees exactly those for its port, in order, and what it answers is what is sent |
| `Forwarder.RouteGroups` | dozer-core/src/forwarder.rs:50-57 | the network's routing over all senders finds exactly the port's group |
| `Protocol.InitOk` | dozer-core/src/executor/execution_dag.rs:103-104 | the initial network satisfies the invariant |
| `Protocol.EdgeBounds` | dozer-core/src/forwarder.rs:60-98 | no channel is ahead of its sender, no sender ahead of the source, and a closed channel has carried every commit |
| `Protocol.TerminatedMeansAligned` | dozer-core/src/executor/receiver_loop.rs:58-83 | once a port has terminated, every open port is selected: no port waits for a commit that will not come |
| `Protocol.SelectNeverEmpty` | dozer-core/src/executor/receiver_loop.rs:48-50 | the select set is not empty before the loop returns |
| `Preservation.SendKeepsInv` | dozer-core/src/forwarder.rs:43-68 | a completed send keeps the invariant; every channel's history stays disciplined |
| `Preservation.IncomingFits` | dozer-core/src/executor/receiver_loop.rs:58-62 | whatever a node receives belongs to the node's current epoch |
| `Preservation.ReceiveNeverPanics` | dozer-core/src/executor/receiver_loop.rs:58-69 | the epoch assertion holds and no port is removed from the select twice; a receive fails exactly if the node, in its present state, forwards to an unconnected port |
| `Preservation.TerminateIsLast` | dozer-core/src/executor/receiver_loop.rs:71-82 | `Terminate` arrives only at the source's last epoch, after shutdown |
| `Preservation.ReceiveKeepsInv` | dozer-core/src/executor/processor_node.rs:98-140 | a receive, and what the node decides to send because of it, keeps the invariant |
| `Preservation.EventKeepsInv` | dozer-core/src/executor/source_node/mod.rs:56-150 | an operation, commit, snapshot event or shutdown of the source thread keeps the invariant |
| `Preservation.StepKeepsInv` | dozer-core/src/executor/receiver_loop.rs:36-104 | every enabled step of every thread keeps the invariant, or forwards to an unconnected port, which ends the run and changes nothing else |
| `Preservation.ReachableInv` | dozer-core/src/executor/receiver_loop.rs:36-104 | every reachable state of every network and buffer size satisfies the invariant; a run has failed exactly if its last step forwards to an unconnected port |
| `Preservation.RespectedNeverFails` | dozer-core/src/forwarder.rs:119-124 | if no node and no source ever forwards to an unconnected port, no run fails |
| `Quiescence.BlockedIsAhead` | dozer-core/src/forwarder.rs:50-68 | a thread that is blocked in a send, while no later thread can step, has moved all its channels past the slowest channel of the DAG |
| `Quiescence.SlowestIsComplete` | dozer-core/src/executor/receiver_loop.rs:48-95 | in a stuck state even the slowest channel carries every commit the source decided |
| `Quiescence.NoDeadlock` | dozer-core/src/executor/execution_dag.rs:103-104 | in every reachable state, for any DAG and any positive buffer size, some thread can step or everything is drained: all queues empty, all nodes at the source's epoch, all returned if the source has; a failed run has just forwarded to an unconnected port |
| `ConsistentCut.ReachableLogs` | dozer-core/src/executor/receiver_loop.rs:54-69 | in every run a node's callbacks from each port are exactly what that port's channel delivered, in order, each in its epoch, and `on_terminate` comes once and last |
| `ConsistentCut.EveryCommitIsACut` | dozer-core/src/executor/processor_node.rs:98-121 | when a node commits an epoch it has handled from each port exactly what that channel carries before its commit of the same epoch |
| `Termination.StepEffect` | dozer-core/src/forwarder.rs:43-68 | a thread's own steps reduce its queued input or its pending sends; later threads do not add to them |
| `Termination.NoInfiniteRun` | dozer-core/src/executor/receiver_loop.rs:48-95 | there is no infinite run without new source events |
| `Termination.EveryRunCompletes` | dozer-core/src/executor/receiver_loop.rs:77-82 | whatever the scheduler does, after a shutdown all threads return with every channel empty, unless a node forwards to an unconnected port on the way |
| `Delivery.ReactAnswers` | dozer-core/src/executor/processor_node.rs:98-140 | a node's reaction to a callback puts on every channel of a port exactly the outputs for that port, or the commit, snapshot event or `Terminate` |
| `Delivery.NodesDeliver` | dozer-core/src/executor/processor_node.rs:98-140 | in every run, with any number of inputs, a node's state is its processor's after its callbacks, and each channel has carried, with what is still to be sent, exactly what the processor answered for its port, in order |
| `Delivery.SourcesDeliver` | dozer-core/src/executor/source_node/mod.rs:92-149 | each channel of the source thread has carried exactly what the sources handed over for its port, in order and epoch |
| `Delivery.AllDelivered` | dozer-core/src/forwarder.rs:43-68 | at rest all of it has been sent and received |
| `Determinism.SchedulingIndependence` | dozer-core/src/executor/receiver_loop.rs:48-95 | with one input per node every channel's history is at all times a prefix of a stream computed from the source events alone, and the whole of it when the run has come to rest without a failure |
| `Determinism.SameOutcome` | dozer-core/src/executor/processor_node.rs:98-125 | two runs on the same events that are at rest agree on all channels and all node states, even with different buffer sizes |
| `Graphs.AddArcAcyclic` | dozer-core/src/dag_impl.rs:167-171 | adding an edge keeps the graph acyclic exactly if it does not close a path |
| `Graphs.AcyclicIffNoCycle` | dozer-core/src/dag_impl.rs:88-96 | a graph can be ranked along its edges exactly if no node reaches itself |
| `Dag.DagBuilder.constructor` | dozer-core/src/dag_impl.rs:105-111 | the empty DAG satisfies the invariant |
| `Dag.DagBuilder.AddNode` | dozer-core/src/dag_impl.rs:323-332 | panics exactly if the handle is taken; else appends the node and keeps the handle table a bijection onto the nodes |
| `Dag.DagBuilder.Connect` | dozer-core/src/dag_impl.rs:158-183 | succeeds exactly for a new edge between declared ports that closes no cycle; on an error nothing changes |
| `Dag.DagBuilder.ConnectEndpoints` | dozer-core/src/dag_impl.rs:149-153 | the same by handles, and which error comes first: an unknown source panics, then a bad source port, an unknown target (panic), a bad target port, a cycle, and a repeated edge (panic) |
| `Dag.UnionMeans` | dozer-core/src/dag_impl.rs:186-213 | the union keeps g in place and appends the other DAG: each node with its kind and id under the given namespace or its own, each edge between the same ports of the same nodes |
| `Dag.UnionOk` | dozer-core/src/dag_impl.rs:186-213 | the disjoint union of two valid DAGs without common handles is a valid DAG |
| `Dag.Merge` | dozer-core/src/dag_impl.rs:186-213 | succeeds exactly if no handle collides, and then leaves the disjoint union, in whatever order the edge set is iterated; its inner connects never fail |
| `DagSchemas.ValidateConnectivity` | dozer-core/src/dag_schemas.rs:170-210 | passes exactly if every source and processor has an outgoing edge and the input ports of every other node are, with multiplicity, those at which edges arrive |
| `DagSchemas.OneEdgePerPort` | dozer-core/src/dag_schemas.rs:183-209 | after the check an input port is declared exactly if an edge arrives there, and that edge is unique |
| `DagSchemas.ValidateInputSchemas` | dozer-core/src/dag_schemas.rs:301-337 | returns the arriving schemas, or says which of its three errors applies |
| `DagSchemas.CreateEdges` | dozer-core/src/dag_schemas.rs:221-255 | creates exactly the node's outgoing edges as the factory defines them, or says why not |
| `DagSchemas.FindOutputPort` | dozer-core/src/dag_schemas.rs:272-283 | the first declared port with the handle |
| `DagSchemas.SolutionUnique` | dozer-core/src/dag_schemas.rs:212-270 | on an acyclic graph the schema equations have at most one solution |
| `DagSchemas.PopulateSchemas` | dozer-core/src/dag_schemas.rs:213-270 | along any topological traversal: succeeds exactly if the equations have a solution and no port is declared twice; the result solves them on the same structure; no `expect` fails and `MissingInput` does not occur |
| `DagSchemas.OrderIrrelevant` | dozer-core/src/dag_schemas.rs:212-270 | two traversals give the same graph |
| `DagSchemas.NewDagSchemas` | dozer-core/src/dag_schemas.rs:93-106 | connectivity check and propagation together, with the cause of every failure: not connected, a port declared twice, or equations without a solution |
| `AncestorSources.CollectRecursive` | dozer-core/src/dag_schemas.rs:115-128 | terminates and adds exactly the sources with a non-empty path to the node |
| `AncestorSources.CollectAncestorSources` | dozer-core/src/dag_schemas.rs:108-112 | the set of sources with a non-empty path to the node |
| `AncestorSources.EveryNodeHasASource` | dozer-core/src/builder_dag.rs:96-99 | after the connectivity check every processor and sink has an ancestor source |
| `AncestorSources.EveryNodeHasASink` | dozer-core/src/dag_schemas.rs:170-181 | and every source and processor has a path to a sink |
| `BuilderDag.BuiltWithValidated` | dozer-core/src/dag_schemas.rs:136-146 | a node is built with the input schemas with which it was validated |
| `BuilderDag.OutputsAgree` | dozer-core/src/dag_schemas.rs:148-158 | edges from one output port carry one schema, so the collected map loses none |
| `BuilderDag.ValidatedIsBuildable` | dozer-core/src/builder_dag.rs:74-99 | a validated DAG meets everything the build relies on |
| `BuilderDag.TakeSink` | dozer-core/src/builder_dag.rs:239-247 | empties the slot exactly if it holds a sink |
| `BuilderDag.FileReports` | dozer-core/src/builder_dag.rs:111-137 | files what the sink reports under the sink's handle, without ever a conflict |
| `BuilderDag.ChooseSource` | dozer-core/src/builder_dag.rs:95-99 | finds a source that reaches the sink |
| `BuilderDag.BuildSinks` | dozer-core/src/builder_dag.rs:93-149 | the first pass keeps its invariant, and fails only if building a sink or its report does |
| `BuilderDag.OpenSource` | dozer-core/src/builder_dag.rs:157-189 | a source is built from its own output schemas, without state and checkpoint |
| `BuilderDag.WriteState` | dozer-core/src/builder_dag.rs:172-180 | writes the state to exactly the listed sinks |
| `BuilderDag.BuildOthers` | dozer-core/src/builder_dag.rs:151-214 | the second pass takes every node left, and its `expect`s and `unreachable!`s hold |
| `BuilderDag.ConnectEdges` | dozer-core/src/builder_dag.rs:216-225 | the renumbered edges never close a loop, and the result is acyclic |
| `BuilderDag.NewBuilderDag` | dozer-core/src/builder_dag.rs:52-228 | the result is isomorphic to the DAG by the returned bijection, weights kept; every node keeps handle and kind and is built from its own schemas; a sink holds the state of a source that reaches it; if it fails, an answer that building one of its nodes asks for is an error |
| `SchemaMeaning.InputsAre` | dozer-core/src/dag_schemas.rs:136-146 | for exactly the ports at which edges arrive, the schema of the edge that arrives there |
| `SchemaMeaning.OutputsAre` | dozer-core/src/dag_schemas.rs:148-158 | for exactly the ports that edges leave, the schema of the edges that leave there |
| `SchemaMeaning.EdgesMean` | dozer-core/src/dag_schemas.rs:213-270 | in a validated DAG a source's edge has the schema, port type and name its factory gives for the port, and a processor's edge the schema its factory computes from the schemas of the edges into it |
| `SchemaMeaning.SinksAccept` | dozer-core/src/dag_schemas.rs:255-261 | every sink has accepted the schemas of the edges into it |
| `SchemaMeaning.NodesMean` | dozer-core/src/builder_dag.rs:100-214 | a source is built from its outgoing schemas, a processor from its incoming and outgoing ones and its checkpoint data, a sink from its incoming ones with the state of a source that reaches it |
| `ExecutionDag.AssignWriters` | dozer-core/src/executor/execution_dag.rs:62-113 | two edges share a record writer's cell exactly if they leave the same port of the same node; each cell holds what its port asks for |
| `ExecutionDag.Executable.CollectReceivers` | dozer-core/src/executor/execution_dag.rs:193-214 | exactly the node's incoming channels, each with its input port |
| `ExecutionDag.Executable.CollectSendersAndRecordWriters` | dozer-core/src/executor/execution_dag.rs:161-191 | all senders of every port; every port's writer once, whichever of its edges comes first; the node's cells are left empty and no other changes |
| `ExecutionDag.CellBefore` | dozer-core/src/executor/execution_dag.rs:182-187 | while a node collects, an edge's cell is empty if its port's writer is taken already, and untouched otherwise |
| `Wiring.WritersMean` | dozer-core/src/executor/execution_dag.rs:76-97 | an edge asks for a writer exactly if it leaves a source port whose type needs one, restored for the source's handle, the port's name and its schema |
| `Wiring.EnumerateSenders` | dozer-core/src/forwarder.rs:60-68 | some order of the ports, each with all its senders |
| `Wiring.FlattenSends` | dozer-core/src/forwarder.rs:60-68 | whatever that order, a node sends to each of its edges exactly once |
| `Wiring.CreateSourceNode` | dozer-core/src/executor/source_node/mod.rs:176-230 | the source thread holds every channel out of a source exactly once |
| `Wiring.Start` | dozer-core/src/executor/mod.rs:94-133 | every other thread holds exactly its node's channels |
| `Wiring.TopologicalExists` | dozer-core/src/dag_schemas.rs:218-219 | every acyclic graph has a topological traversal |
| `Wiring.PortNamesFaithful` | dozer-core/src/executor/source_node/mod.rs:92-100 | within a thread two channels go by one port name exactly if they leave the same port of the same node |
| `Wiring.WorkerSends` | dozer-core/src/forwarder.rs:43-57 | in the network of a started DAG, what a processor's `send_op` sends is what the network routes |
| `Wiring.SourceSends` | dozer-core/src/executor/source_node/mod.rs:92-100 | the same for a source, under its port's name in the source thread: no channel of another source is hit |
| `Wiring.SourceBroadcasts` | dozer-core/src/executor/source_node/mod.rs:136-149 | what a source's `send_to_all_ports` sends is what the network routes to the names of all its ports |
| `Wiring.StartedIsWired` | dozer-core/src/executor/mod.rs:94-133 | the started threads and channels form a network as the executor's theorems require it |
| `Wiring.EveryBuiltDagRuns` | dozer-core/src/executor/mod.rs:94-133 | every validated and built DAG runs as such a network, whatever its nodes compute |
| `Wiring.Launch` | dozer-core/src/executor/mod.rs:73-133 | validating, building and starting a DAG ends in that DAG's network: its edges carry the solution of the schema equations, its nodes are built from them, and they are the network's channels and threads; otherwise it is not connected, repeats a port, has no solution, or an answer that building one of its nodes or restoring the writer of one of its edges asks for is an error |
| `EpochManager.Guarded.TryRegister` | dozer-core/src/epoch/manager.rs:163-190 | joins the closing round, or leaves a closed one untouched |
| `EpochManager.Guarded.CloseAndConfirm` | dozer-core/src/epoch/manager.rs:192-290 | the first source past the barrier closes, each confirms, the last one opens the next round |
| `EpochAgreement.StepKeepsInv` | dozer-core/src/epoch/manager.rs:157-291 | every atomic step of every source keeps the invariant; the `unreachable!` is not reached and the subtraction does not underflow |
| `EpochAgreement.Agreement` | dozer-core/src/epoch/manager.rs:157-291 | in every interleaving all callers of a round get one answer: the AND of the termination requests, a commit iff any asked, the clock at the round's first return, a checkpoint writer iff the round is persisted, checkpoints are on and every source can be restarted, and exactly the reports that all sources passed to their call of that number; nobody is more than a round ahead |
| `EpochAgreement.ReachableAsked` | dozer-core/src/epoch/manager.rs:163-190 | what is registered for a source in the k-th round is what it passed to its k-th call: no report leaks into another round |
| `EpochAgreement.NoGaps` | dozer-core/src/epoch/manager.rs:272-283 | every caller sees the epoch ids initial, initial + 1, ... without gap or repetition |
| `EpochAgreement.PersistSpacing` | dozer-core/src/epoch/manager.rs:202-234 | with positive thresholds persisted epochs are at least the interval apart, however the clock steps |
| `EpochAgreement.PersistAlways` | dozer-core/src/epoch/manager.rs:202-234 | with a zero threshold exactly the committed epochs are persisted |
| `EpochAgreement.SomeoneCanGoOn` | dozer-core/src/epoch/manager.rs:163-200 | if all sources are inside a call, one of them can go on |
| `CacheBuilder.CacheBuilderImpl.Connect` | dozer-api/src/cache_builder/builder_impl.rs:54-104 | which cache is built, from which position, and with which catch-up target |
| `CacheBuilder.CacheBuilderImpl.ProcessOp` | dozer-api/src/cache_builder/builder_impl.rs:106-257 | applies, commits with the position, and swaps the served cache on catch-up |
| `CacheBuilder.ProcessKeepsReplay` | dozer-api/src/cache_builder/builder_impl.rs:218-247 | processing the next operation keeps every committed cache equal to its log replayed up to its position |
| `CacheBuilder.ConnectReplays` | dozer-api/src/cache_builder/builder_impl.rs:63-98 | a new builder continues the log at the first uncommitted position if and only if a condition on alias and caches holds |
| `CacheBuilder.ReadKeepsRun` | dozer-api/src/cache_builder/builder_impl.rs:234-247 | what readers see never goes back; the served cache is swapped exactly when the operation read is a commit that reaches the served position, and then is the one being built |
| `CacheBuilder.ReadSucceeds` | dozer-api/src/cache_builder/builder_impl.rs:106-257 | in a run in order a read fails exactly if the cache refuses the operation |
| `CacheBuilder.SwapAtFirstCatchUp` | dozer-api/src/cache_builder/builder_impl.rs:234-247 | however many operations are read, the served cache has changed exactly if such a commit was among them: the swap happens once, at the first one |
| `CacheBuilder.ReconnectKeepsRun` | dozer-api/src/cache_builder/mod.rs:108-154 | a reconnect that passes the check keeps all of that and restarts at the first uncommitted position |
| `CacheBuilder.ReplayCorrect` | dozer-api/src/cache_builder/mod.rs:108-154 | from a start on no caches, or on what earlier runs left, and over any run whose connects pass the check, every cache is its log's operations applied once each in order up to its position, and what readers see never goes back |
| `CacheBuilder.StartsInOrder` | dozer-api/src/cache_builder/mod.rs:193-211 | opening or creating the served cache and the first connect put the run in order, if that connect passes the check |
| `CacheBuilder.StartIsSafe` | dozer-api/src/cache_builder/mod.rs:193-211 | without caches, or if the table's alias leads to the log's cache, the first connect passes the check |
| `CacheBuilder.Opens` | dozer-api/src/cache_builder/mod.rs:193-211 | which cache is served at the start: the one behind the alias, or of the table's name, if it exists; else one for the log that was seen |
| `CacheBuilder.RestartServes` | dozer-api/src/cache_builder/mod.rs:193-211 | a restart, whatever log it sees, serves the cache that was being built; readers keep what they saw if and only if the run was outside catch-up or they had seen nothing |
| `CacheBuilder.RestartsInOrder` | dozer-api/src/cache_builder/mod.rs:102-155 | the run after a restart is in order, and outside catch-up nothing visible is taken back |
| `CacheBuilder.StepsKeepRun` | dozer-api/src/cache_builder/mod.rs:108-154 | reads, and reconnects that pass the check, keep a run in order |
| `CacheBuilder.ReadsApply` | dozer-api/src/cache_builder/builder_impl.rs:106-257 | any builder, in order or not, applies what it reads to the content it opened and touches no other cache |
| `CacheBuilder.RestartOverCommit` | dozer-api/src/cache_builder/builder_impl.rs:63-76 | building a log that is not served over a cache with a commit stores the log's first operations applied on top of it; that is a replay exactly if it equals one |
| `CacheBuilder.ReturnToEarlierLog` | dozer-api/src/cache_builder/builder_impl.rs:63-76 | the same for a log built earlier, outside catch-up |
| `CacheBuilder.AppliedTwice` | dozer-api/src/cache_builder/builder_impl.rs:63-76 | a whole run from no caches, with one reconnect during catch-up, after which a committed cache holds an operation twice and is no replay |
| `CacheBuilder.ReturnDuringCatchUp` | dozer-api/src/cache_builder/builder_impl.rs:63-98 | returning to the served log during catch-up applies it to the other log's cache, and says when that is still a replay; the served cache no longer advances |
| `CacheBuilder.RestartDuringCatchUp` | dozer-api/src/cache_builder/builder_impl.rs:63-69 | reconnecting to the new log during catch-up commits its operations applied on top of what was committed; a replay exactly if that makes no difference |
| `Serialize.Cursor.Take` | dozer-core/src/checkpoint/serialize.rs:35-47 | consumes exactly the requested bytes or nothing |
| `Serialize.Cursor.ReadU64` | dozer-core/src/checkpoint/serialize.rs:61-64 | reads eight bytes, least significant first |
| `Serialize.Cursor.ReadVec` | dozer-core/src/checkpoint/serialize.rs:71-75 | reads a length and as many bytes |
| `Serialize.LittleEndian` | dozer-core/src/checkpoint/serialize.rs:57-64 | byte i counts the i-th power of 256 |
| `Serialize.U64RoundTrip` | dozer-core/src/checkpoint/serialize.rs:57-64 | decoding an encoded number gives it back and leaves what follows |
| `Serialize.VecRoundTrip` | dozer-core/src/checkpoint/serialize.rs:66-75 | the same for length-prefixed data |
| `Serialize.VecTruncated` | dozer-core/src/checkpoint/serialize.rs:35-75 | data cut off anywhere is refused for lack of data |
| `RecordStore.RecordWriter.Apply` | dozer-core/src/record_store.rs:71-108 | the writer's step on its index |
| `RecordStore.RecordWriter.Save` | dozer-core/src/record_store.rs:110-118 | the bytes of the index in any iteration order |
| `RecordStore.RecordWriter.Load` | dozer-core/src/record_store.rs:43-68 | the index restored from a checkpoint, or the decoding error |
| `RecordStore.IndexIsCurrent` | dozer-core/src/record_store.rs:71-108 | over every sequence of operations the index holds under each key the record last stored there |
| `RecordStore.OldIsLastStored` | dozer-core/src/record_store.rs:78-97 | a delete or update passes exactly if a record is stored under its key, which becomes its old record; a refused one changes nothing |
| `RecordStore.InsertsPassOn` | dozer-core/src/record_store.rs:73-77 | an insert or batch insert is passed on unchanged |
| `RecordStore.EmittedAsExpected` | dozer-core/src/record_store.rs:71-108 | over every sequence the emitted operations are the given ones in order, a delete or update with the record last stored under its key as the old one, and left out if there is none |
| `RecordStore.EmittedFoldsToIndex` | dozer-core/src/record_store.rs:71-108 | a consumer that applies the emitted operations holds exactly the writer's index |
| `RecordStore.CheckpointRoundTrip` | dozer-core/src/record_store.rs:43-118 | restoring a saved index gives it back, whatever the iteration order and whatever follows |
| `RecordStore.CheckpointLayout` | dozer-core/src/record_store.rs:110-118 | where each number, key and record stands in the bytes |
| `RecordStore.TruncatedCheckpointRefused` | dozer-core/src/record_store.rs:43-68 | a checkpoint cut off anywhere is refused, never restored to a smaller index |
| `JsonOrder.Reflexivity` | dozer-types/src/json_types.rs:51-89 | every value equals itself |
| `JsonOrder.Reversal` | dozer-types/src/json_types.rs:51-89 | swapping the sides reverses the result |
| `JsonOrder.Transitivity` | dozer-types/src/json_types.rs:51-89 | less and equal chain in every combination, at any nesting |
| `JsonOrder.EqualIffSame` | dozer-types/src/json_types.rs:51-89 | equal exactly if the values are the same with objects taken as maps |
| `JsonOrder.InsertionOrderIrrelevant` | dozer-types/src/json_types.rs:56-77 | the order in which keys were inserted changes no comparison |
| `JsonDirection.TypesInOrder` | dozer-types/src/json_types.rs:52-55 | null, booleans, numbers, strings, arrays, objects |
| `JsonDirection.PlainValuesInOrder` | dozer-types/src/json_types.rs:83-84 | numbers by value, false before true |
| `JsonDirection.StringsInOrder` | dozer-types/src/json_types.rs:85 | less iff at the first difference the left character is smaller, or the left string ends |
| `JsonDirection.ArraysInOrder` | dozer-types/src/json_types.rs:73-81 | less iff at the first unequal place the left element is less, or the left array ends |
| `JsonDirection.ObjectsInOrder` | dozer-types/src/json_types.rs:58-72 | the least key at which two objects differ decides, by its values, or, if only one holds it, by whether the other goes on |
| `YamlMerge.MergeYaml` | dozer-cli/src/config_helper.rs:101-139 | the loop over entries computes the specified merge, failures included |
| `YamlMerge.EntriesMerged` | dozer-cli/src/config_helper.rs:106-118 | the merged mapping, key by key, and its key order |
| `YamlMerge.EntriesFail` | dozer-cli/src/config_helper.rs:106-118 | a failing merge fails at a key that both mappings hold |
| `YamlMerge.MergeAssociative` | dozer-cli/src/config_helper.rs:101-139 | either grouping of three values fails or succeeds alike and gives the same tree, key order included |
| `YamlMerge.NothingLost` | dozer-cli/src/config_helper.rs:101-139 | a successful merge keeps every entry and element of both sides at every depth: what was there comes first, what is added comes last |
| `YamlMerge.SequencesMerge` | dozer-cli/src/config_helper.rs:119-124 | the elements of the target, then the added ones |
| `YamlMerge.MergesIff` | dozer-cli/src/config_helper.rs:105-138 | two sequences always merge, mappings iff the values under every common key do, tagged values iff tags agree and values merge, nothing else |

## Left out

- A channel capacity of 0, where crossbeam's send and receive meet without a buffer.
- Errors that end a thread early, other than an operation for an unconnected port: disconnected channels, failing nodes, the error threshold.
- Exactly-once delivery of snapshot events: a node with several inputs forwards one copy per port, so it does not hold; the events are in the model as messages of their epoch.
- Resuming a source where its sinks left off: the code does not deliver it (see above).
- Record writers inside the network model: its source events are what the writers let through, which `Forwarder` and `RecordStore` describe.
- What the other threads do after one has panicked or failed: the run of the model ends there.
- YAML mapping keys that are mappings themselves: serde_yaml compares them without regard to entry order, the model entry by entry.
- YamlMerge.MergeYaml: on a failure the partly merged target is not described, because the caller discards it.
- Dag.DagBuilder.AddNode: after a panic the DAG's state is not described.
- Wrap-around of 64-bit epoch ids and log positions.
- The numeric formats of JSON and YAML: numbers are reals, YAML scalars are compared as text, and NaN does not occur.
- The order in which a `HashMap` is iterated, a `HashSet`'s next element and `Select::ready`'s choice: all of them are arbitrary in the model.
- Collecting configuration files, the SQL planner, connectors, sinks of other systems, servers, metrics, progress bars and logging: thin wrappers, input and output, or code that adds no state to what is modelled.
