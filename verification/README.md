# interactEM: a verified model

A Dafny model of the parts of interactEM whose correctness rests on reasoning rather than on libraries: how a user's
pipeline is compiled into a graph of replicas, how a scan is cut into batches and put together again, how operators
are given to agents, how deployments live and die, and two small streaming protocols. `dafny verify dfyconfig.toml`
checks the whole project.

## What is modelled

**Pipeline expansion** (`Models`, `Expansion`, `Expander`, `PipelineGraph`, `Wiring`, `RoundTrip`, `Cycles`,
`Graphs`). A canonical pipeline has operators, ports and edges between ports. Expansion replicates operators, copies
every output port once per downstream operator, and wires copies all-to-all where the copy's target allows it.
`Expansion` is the specification as recursive functions; `Expander` has the loops and is proved against it;
`PipelineGraph` is the mutable graph with its cached operator graph. `Wiring` says exactly which edges exist and how
many, `RoundTrip` that reading the expansion back gives the pipeline again, and `Cycles` that cycles are preserved and
reflected. A well-formed pipeline has unique ids and ports on listed operators; nothing is asked of its edges, except
where wires are counted, which is done for edges from an output to an input.

**Streaming a scan** (`Frames`, `Packing`, `Emitter`, `Accumulator`, `Streaming`). `Packing` specifies the greedy
split of a scan's positions into size-limited batches; `Emitter` has the object that makes them and `Accumulator` the
growing two-dimensional array that takes them in, frame by frame or batch by batch. `Streaming` connects the two ends.

**Assignment** (`Assigner`, `Launching`). Operators are placed in topological order on an agent of least load among
those whose tags match, preferring the networks of their predecessors. The random choices among equals are a
parameter, the dice, so every guarantee holds for each tie-break. `Launching` puts expansion, sorting and assignment
together and says for which pipelines and agents the whole succeeds.

**Deployments** (`Machine`, `Orchestrator`, `Session`, `Interleaving`, `Departures`, `Alone`, `Replay`). `Machine` is
the transition table. `Orchestrator` has the dictionaries of agents, machines and trackers as objects and proves each
handler against a step on values; `Session` reasons about whole sequences of such steps. `Interleaving` splits
handlers at every `await`, so that looking at a machine and cancelling it are separate steps, `Departures` says what
becomes of the deployments agents leave, and `Alone` proves that events handled without interruption add up to the
atomic steps. `Replay` is recovery from the event stream, and what it means for one orchestrator after the other.

**Two protocols** (`Reassembly`, `HeadNode`). Four detector modules send packets that a cache turns into frames; a
background process sends its client the changes of the head node.

## What turned out differently from the documentation or the obvious reading

- Frame headers made by the emitter never state the element type, so the accumulator reads every frame as 32-bit
  unsigned integers. The end-to-end theorem is about the scan so read; `Streaming.ScanPreservedIff` says when that is
  the scan itself, and `Streaming.SmallIntegersAreLost` shows a scan that it is not.
- The number of batches announced in advance is one short exactly when every position of the scan is empty, or a
  position that holds bytes and reaches the limit by itself is followed by empty positions, at least one, and by
  nothing else (`Packing.AnnouncedIff`, with instances in `Packing.AnnouncedShort`). Completion by batch count is then
  reported one batch too early or, for a single batch, never (`Streaming.CompletesAtLastBatchIff`,
  `Streaming.StreamPart`).
- An operator wired to itself and run with one replica is a cycle that the operator graph does not show
  (`Cycles.LostLoop`, and `Cycles.SelfWiredLosesItsLoop` for one such pipeline), so it is assigned without complaint;
  `Cycles.CyclesMatch` is exact for all pipelines.
- The error for networks that cannot be matched is never raised (`Assigner.ReasonsSayNothingOfNetworks`).
- A complete camera frame's header lists its modules in order of arrival, its data in order of module number.
- A client that restarts its background process keeps showing the old head node when the new process only sees states
  without one (`HeadNode.RestartedProcessAgreesIff`).

## Reading the model

Identifiers are natural numbers. Fresh identifiers come from a supply in which no two draws agree, and the iteration
order of a Python set is a function from sets to lists of their elements; both are parameters, so results hold for
every supply and every order (`Wiring.EveryPipelineExpands` says that there are some). So are the dice: the choice
among n agents is roll modulo n, and each of them is some roll's choice. Python exceptions are the failure case of a
result. Everything an operator carries that the modelled code only copies (labels, images, parameters, environment) is
one payload. Objects the source updates in place are classes; a ghost field or a function of the fields gives the
value their contracts speak of.

## Model

| member | source | states |
|---|---|---|
| `Expander.ExpandCanonicalToRuntime` | backend/core/interactem/core/pipeline.py:157-210 | the graph built by the loops holds exactly the operators, ports and edges of the recursive specification `Expand`, under its ids, and is internally consistent; no two models share an id; every operator is there once when it has no parallel configuration or a sequential one, otherwise as often as its own parallelism says when that is at least one, else factor times, its replicas numbered from zero and each with all that it carries |
| `Wiring.ReplicasCounted` | backend/core/interactem/core/pipeline.py:232-244 | the same numbers of replicas, on the specification |
| `Expander.GetPortFanoutMap` | backend/core/interactem/core/pipeline.py:43-62 | every output port is mapped to the set of operators its edges lead to, edges to unknown ports ignored, and no other port has an entry |
| `Expander.ExpandAllOperators` | backend/core/interactem/core/pipeline.py:178-184 | the replica list and, for every canonical id, the group of its replicas in that list |
| `Expander.ReplicateFromCanonical` | backend/core/interactem/core/models/runtime.py:270-281 | replicas numbered from zero, each drawing the next fresh id |
| `Expander.CreateAllPorts` | backend/core/interactem/core/pipeline.py:246-326 | the port list is the one specified port by port, replica by replica, target by target |
| `Expander.GroupByCanonical` | backend/core/interactem/core/pipeline.py:199-202 | the grouping dictionary gives, for every canonical port, its copies in list order |
| `Expander.ExpandEdges` | backend/core/interactem/core/pipeline.py:328-372 | the edges made by the nested loops are the own edges of all ports together with the pairs of copies that a canonical edge joins |
| `Expander.AttachPortsToOperators` | backend/core/interactem/core/pipeline.py:213-231 | every operator's port maps list exactly its own ports of each type, in port order |
| `Wiring.PortMapsIff` | backend/core/interactem/core/pipeline.py:213-230 | an operator's port maps list exactly its own ports of that type, under their ids and those of the originals |
| `Wiring.PortOrigin` | backend/core/interactem/core/pipeline.py:246-326 | every runtime port is a copy of one listed canonical port, for one replica of its owner and one of its targets |
| `Wiring.TargetIff` | backend/core/interactem/core/pipeline.py:283-326 | an input port's copies are for its own operator; an output port has copies for exactly the operators its edges lead to, and untargeted ones exactly when they lead nowhere; each target once |
| `Wiring.PortExists` | backend/core/interactem/core/pipeline.py:283-326 | and every such combination has a copy |
| `Wiring.NodesDistinct` | backend/core/interactem/core/pipeline.py:195-197 | no runtime operator or port shares its id with another node of the graph |
| `Wiring.CopiesPerTarget` | backend/core/interactem/core/pipeline.py:283-326 | a port has exactly one copy per replica of its owner for each of its targets |
| `Wiring.JoinedIff` | backend/core/interactem/core/pipeline.py:374-397 | copies of an edge's two ends are connected exactly when the source copy carries the target that serves that edge |
| `Wiring.PortEdgeIff` | backend/core/interactem/core/pipeline.py:328-397 | an edge between two ports exists exactly when some canonical edge joins their originals and the source copy serves it: no other port-to-port edge |
| `Wiring.OperatorEdgeIff` | backend/core/interactem/core/pipeline.py:342-354 | an operator has an edge to each of its output ports and from each of its input ports, and no other edges |
| `Wiring.WireCount` | backend/core/interactem/core/pipeline.py:356-370 | a canonical edge from an output of A to an input of B becomes exactly k_A times k_B runtime edges |
| `Wiring.WirePerPair` | backend/core/interactem/core/pipeline.py:356-370 | one of them runs between each pair of replicas, and only one |
| `Wiring.WireUnique` | backend/core/interactem/core/pipeline.py:356-370 | two of them between the same replicas are the same edge |
| `Wiring.TargetedPortsFeedTheirTarget` | backend/core/interactem/core/pipeline.py:387-394 | an output copy that feeds anything is targeted, and everything it feeds belongs to its target operator |
| `RoundTrip.ExpandAndReadBack` | backend/core/interactem/core/pipeline.py:157-210 | the law of the module: for every well-formed pipeline and every factor of at least one, reading the expansion back gives the same operators and ports in order and the same set of edges, each operator listing exactly the ports it owns; the result does not depend on the factor |
| `RoundTrip.ModelsBack` | backend/core/interactem/core/pipeline.py:519-568 | the same law on the specification functions |
| `RoundTrip.OperatorsBack` | backend/core/interactem/core/pipeline.py:524-531 | keeping the first operator of each canonical id keeps replica 0 of every operator, in order |
| `RoundTrip.PortsBack` | backend/core/interactem/core/pipeline.py:533-540 | keeping the first port of each canonical id keeps one copy of every port, in order |
| `RoundTrip.EdgesBack` | backend/core/interactem/core/pipeline.py:542-560 | the canonical edges read back are exactly the port-to-port edges of the original |
| `RoundTrip.AttachedPortIds` | backend/core/interactem/core/models/runtime.py:252-256 | the canonical ids in any replica's port maps are exactly those of the ports its operator owns |
| `PipelineGraph.Pipeline.ToCanonical` | backend/core/interactem/core/pipeline.py:519-568 | reads back first replicas, first copies and each canonical edge once, with the defaults for a missing canonical id or revision; fails, with that error only, exactly on a graph with an attribute-less node |
| `PipelineGraph.FirstsIff` | backend/core/interactem/core/pipeline.py:524-540 | an operator or port is kept exactly when none before it has its canonical id |
| `PipelineGraph.Pipeline.AddNode` | backend/core/interactem/core/pipeline.py:637-639 | adds or replaces one node, keeps insertion order, asks for a rebuild |
| `PipelineGraph.Pipeline.AddEdge` | backend/core/interactem/core/pipeline.py:641-643 | adds one edge and, where missing, its ends as attribute-less nodes, the source end first, behind all others in insertion order; asks for a rebuild |
| `PipelineGraph.Pipeline.RemoveNode` | backend/core/interactem/core/pipeline.py:645-647 | removes a node with all its edges and leaves the others in their order, or fails and changes nothing when it is missing |
| `PipelineGraph.Pipeline.RemoveEdge` | backend/core/interactem/core/pipeline.py:649-651 | removes one edge, or fails and changes nothing when it is missing |
| `PipelineGraph.Pipeline.BuildOperatorGraph` | backend/core/interactem/core/pipeline.py:426-450 | rebuilds the cached operator graph and clears the flag; the invariant every mutator keeps says an unflagged cache equals a fresh build |
| `PipelineGraph.Pipeline.GetOperatorGraph` | backend/core/interactem/core/pipeline.py:653-656 | after any sequence of mutations, the graph handed out is the operator graph of the current nodes and edges |
| `PipelineGraph.Pipeline.LinkOperators` | backend/core/interactem/core/pipeline.py:438-448 | the links are exactly the pairs of different operators with a port-to-port edge between them |
| `PipelineGraph.Pipeline.CollectUpstream` | backend/core/interactem/core/pipeline.py:403-412 | the stack loop ends on every finite graph, cyclic ones included, and visits exactly the nodes that can reach the start |
| `PipelineGraph.Pipeline.FromUpstreamSubgraph` | backend/core/interactem/core/pipeline.py:399-424 | the result is the induced subgraph on those nodes, with its operator graph built; fails exactly when one of them has no attributes or the start is missing, and says which |
| `Graphs.TopologicalSort` | backend/orchestrator/interactem/orchestrator/assign.py:56-61 | a topological order, or none exactly when the graph has a cycle |
| `Cycles.LinkIff` | backend/core/interactem/core/pipeline.py:426-448 | there is a link between two replicas exactly when their operators are linked in the user's graph and they are different replicas |
| `Cycles.CyclesMatch` | backend/core/interactem/core/pipeline.py:426-450 | for all replica counts the runtime operator graph has a cycle exactly when the user's graph has one, leaving out self-wired operators with a single replica |
| `Cycles.WithoutSelfWiring` | backend/core/interactem/core/pipeline.py:446-448 | when no operator is wired to itself that is exactly the user's graph |
| `Cycles.LostLoop` | backend/core/interactem/core/pipeline.py:446-448 | the family in which the plain claim fails: a self-wired operator with one replica is a cycle that the operator graph does not show |
| `Cycles.SelfWiredLosesItsLoop` | backend/core/interactem/core/pipeline.py:446-448 | one such pipeline, one operator wired to itself: cyclic, and for every factor, order and supply its operator graph is not |
| `Cycles.SortOperators` | backend/orchestrator/interactem/orchestrator/assign.py:45-66 | expanding and sorting fails exactly when the user's graph has such a cycle, and otherwise orders every replica once |
| `Frames.FlatUnravel` | operators/distiller-streaming/distiller_streaming/emitter.py:42-49 | the flat position of the row and column of position i is i |
| `Frames.CheckHeader` | operators/distiller-streaming/distiller_streaming/models.py:83-98 | the header check accepts exactly non-empty headers of one scan whose sizes add up; otherwise the first of these to fail, in this order, is the error; mixed scans are two headers with different scan numbers |
| `Frames.WholeBytesIff` | operators/distiller-streaming/distiller_streaming/models.py:11-17 | bytes make up whole items exactly when their number is a multiple of 1, 2, 4, 4, 4 or 8 for the six element types |
| `Frames.ReadingsAgreeIff` | operators/distiller-streaming/distiller_streaming/models.py:168-187 | reading frame by frame works and agrees with reading the batch as one buffer exactly for batches of one element type and whole items |
| `Packing.CutsPartition` | operators/distiller-streaming/distiller_streaming/emitter.py:127-168 | the batches split the positions into consecutive non-empty runs: none is split, skipped or repeated |
| `Packing.BatchBounds` | operators/distiller-streaming/distiller_streaming/emitter.py:141-151 | every batch is below the limit or holds all its bytes in its last position; every batch but the last is closed by the position after it |
| `Packing.NeighboursReachLimit` | operators/distiller-streaming/distiller_streaming/emitter.py:141-151 | two consecutive batches together reach the limit |
| `Packing.BatchCountBound` | operators/distiller-streaming/distiller_streaming/emitter.py:127-168 | for a limit of at least one byte there are at most twice the total over the limit, rounded down, plus one batches |
| `Packing.OnlyMaximalPacking` | operators/distiller-streaming/distiller_streaming/emitter.py:127-168 | the emitter's split is the only one into consecutive batches that each run exactly up to the first position that would close them |
| `Packing.CountBatches` | operators/distiller-streaming/distiller_streaming/emitter.py:98-125 | the separate counting loop gives the number of batches of the split, less one when the last of them holds no bytes |
| `Packing.LastEmptyIff` | operators/distiller-streaming/distiller_streaming/emitter.py:127-168 | the last batch holds no bytes exactly when all positions are empty, or one that reaches the limit by itself is followed by empty ones, at least one, and nothing else |
| `Packing.AnnouncedIff` | operators/distiller-streaming/distiller_streaming/emitter.py:98-125 | so the announced count, for all sizes and limits, equals the number of batches made unless the sizes end like that, and is then short by exactly one |
| `Packing.AnnouncedShort` | operators/distiller-streaming/distiller_streaming/emitter.py:98-125 | two inputs with a wrong announcement: one empty position, and a position over the limit followed by an empty one |
| `Emitter.BatchEmitter.constructor` | operators/distiller-streaming/distiller_streaming/emitter.py:19-82 | positions measured, totals announced, nothing emitted |
| `Emitter.BatchEmitter.GetNextBatchMessage` | operators/distiller-streaming/distiller_streaming/emitter.py:175-211 | the k-th call returns the k-th batch of the split, whole, with its header valid: number k, the scan's number, the announced totals, and for every frame of its positions, in order, a label with the scan's number, rows and columns, the frame's row and column and its size in bytes; after the last batch, and ever after, it reports exhaustion with all frames emitted |
| `Emitter.BatchEmitter.MessageDescribed` | operators/distiller-streaming/distiller_streaming/emitter.py:57-66 | field by field, what the header of the k-th batch of the split says of its frames |
| `Emitter.BatchEmitter.FillBatch` | operators/distiller-streaming/distiller_streaming/emitter.py:134-164 | takes whole positions up to the end of the current batch of the split |
| `Emitter.MeasurePositions` | operators/distiller-streaming/distiller_streaming/emitter.py:70-78 | the byte size of every position |
| `Accumulator.FrameAccumulator.constructor` | operators/distiller-streaming/distiller_streaming/accumulator.py:21-57 | one empty slot per position, showing the empty array of the given element type, all counters zero |
| `Accumulator.FrameAccumulator.ExpandFrameDimensionIfNeeded` | operators/distiller-streaming/distiller_streaming/accumulator.py:211-236 | widens to what is required, never narrows, and shows the same frames |
| `Accumulator.FrameAccumulator.AddFrame` | operators/distiller-streaming/distiller_streaming/accumulator.py:99-129 | puts the frame behind those of its position, exactly when its number of bytes is a multiple of its element type's and row times columns plus column is below the number of positions; the array widens to the slot tried, also when the frame is then refused, and a refused frame changes nothing else that is stored |
| `Accumulator.FrameAccumulator.AddFrames` | operators/distiller-streaming/distiller_streaming/models.py:168-187 | feeding a batch frame by frame succeeds exactly when sizes, items and positions are right, and then appends each frame to its position; otherwise exactly the frames before the first that cannot be added are in, or all of them when there are bytes left over, and the error says which it was |
| `Accumulator.FrameAccumulator.AddBatch` | operators/distiller-streaming/distiller_streaming/accumulator.py:135-195 | the batch path appends the batch's frames to their positions, widens once to the fullest position, and succeeds exactly when sizes and positions are right; a batch whose sizes do not add up stores nothing, and one that leaves the scan stores, whole, exactly the positions named before its first frame outside |
| `Accumulator.FrameAccumulator.StoreGroups` | operators/distiller-streaming/distiller_streaming/accumulator.py:184-195 | storing position by position is the same as appending every frame in order |
| `Accumulator.GroupByPosition` | operators/distiller-streaming/distiller_streaming/accumulator.py:143-152 | groups list, for each position once, in order of first appearance, exactly the indices of its frames in order |
| `Accumulator.StoppedByKey` | operators/distiller-streaming/distiller_streaming/accumulator.py:184-195 | when storing stops at a position outside the scan, the positions filled are those named before the first frame outside |
| `Accumulator.AddBothWays` | operators/distiller-streaming/distiller_streaming/accumulator.py:135-195 | the fast path refines the simple one: from equal states, for every uniform batch that measures up and stays in range, same slots, width, per-position counts and total |
| `Accumulator.FrameAccumulator.AddMessage` | operators/distiller-streaming/distiller_streaming/accumulator.py:197-200 | adds the batch and counts it, only if it was added; a failed one leaves what the failed batch leaves |
| `Accumulator.FrameAccumulator.Clear` | operators/distiller-streaming/distiller_streaming/accumulator.py:238-258 | back to the state of a new accumulator |
| `Accumulator.FrameAccumulator.Finished` | operators/distiller-streaming/distiller_streaming/accumulator.py:203-209 | finished means that totals are known and a hundred times the frames in is at least ninety-nine times the frames expected |
| `Streaming.UnpackPacked` | operators/distiller-streaming/distiller_streaming/accumulator.py:164-182 | unpacking a batch the emitter packed gives back its frames in order, read with the default element type |
| `Streaming.DeliveredAt` | operators/distiller-streaming/distiller_streaming/accumulator.py:184-195 | in whatever order batches arrive, a position holds its whole row once its batch is in and nothing before |
| `Streaming.AllDelivered` | operators/distiller-streaming/distiller_streaming/emitter.py:127-168 | all batches, each once, in any permutation, rebuild the whole scan |
| `Streaming.StreamScan` | operators/distiller-streaming/distiller_streaming/accumulator.py:135-209 | end to end: emitter and accumulator objects, any permutation of the messages; every cell of the array holds its frame's bytes as 32-bit unsigned integers, cut after the last whole one, the frame count equals the announced total, and the accumulator says it is finished; completion by batch count shows then exactly if the announcement was right or there are more than two batches |
| `Streaming.StreamPart` | operators/quantem-direct-ptycho/run.py:42-57 | after the first m messages of any permutation, with the two objects: exactly their frames are in, so many as they cover positions times the frames of one; the accumulator says it is finished exactly when something came and they cover ninety-nine percent of the positions; and completion by batch count shows at the last message and no other, unless the announcement was short; then at the announced count and, with more than two batches, at the last |
| `Streaming.ScanPreservedIff` | operators/distiller-streaming/distiller_streaming/models.py:31-35 | transport is the identity exactly on scans of 32-bit unsigned integers, because headers never state another element type |
| `Streaming.SmallIntegersAreLost` | operators/distiller-streaming/distiller_streaming/models.py:31-35 | a scan of 8-bit integers that comes out as another: four of them become one 32-bit integer, a single one is dropped |
| `Streaming.CompletionWindow` | operators/quantem-direct-ptycho/run.py:42-57 | completion by batch count holds exactly while at least the expected and fewer than twice the expected batches are in |
| `Streaming.CompletesAtLastBatchIff` | operators/quantem-direct-ptycho/run.py:42-57 | with each batch delivered once, completion is reported at the last batch and at no earlier one exactly when the sizes do not end in the way that makes the announcement short |
| `Assigner.PipelineAssigner.Assign` | backend/orchestrator/interactem/orchestrator/assign.py:68-134 | for all dice: succeeds exactly when every operator is known and some agent's tags cover it, never with the network error; then every agent gets one assignment, every operator sits on exactly one agent whose tags cover it, interchangeable agents differ by at most one, and each operator's agent had, of the operators sorted before it, no more than any agent that could have hosted it; if some agent whose tags cover an operator has a network recorded for one of its predecessors, so has the agent the operator is on, and every network recorded for the operator is recorded for one of them; every agent's list is in the sorted order |
| `Assigner.PipelineAssigner.PlaceAll` | backend/orchestrator/interactem/orchestrator/assign.py:75-98 | every operator is tried after its predecessors; those refused are exactly the ones that do not exist or that no agent's tags cover, each with the reason for its kind |
| `Assigner.PlaceOperator` | backend/orchestrator/interactem/orchestrator/assign.py:76-98 | an operator is placed exactly when it is known and some agent matches: on an agent least loaded among all that match and, if any matching agent is on the predecessors' networks, among those that are; the new lists and networks are exactly the old ones with this operator added, and the state stays sound, balanced and sticky; a refusal changes nothing and says whether the operator is unknown or unmatched |
| `Assigner.FindAgentsMatchingTags` | backend/orchestrator/interactem/orchestrator/assign.py:136-144 | all agents whose tags cover the operator's and no others, in their order |
| `Assigner.DetermineAllowedNetworks` | backend/orchestrator/interactem/orchestrator/assign.py:146-162 | the union of the direct predecessors' recorded networks, or no restriction when it is empty |
| `Assigner.FilterAgentsByNetworks` | backend/orchestrator/interactem/orchestrator/assign.py:164-175 | all the candidates on an allowed network, in order, if there are any, else all candidates |
| `Assigner.SelectBestAgent` | backend/orchestrator/interactem/orchestrator/assign.py:177-190 | the agent that the roll picks from the list of all least loaded candidates, none exactly when there are no candidates |
| `Assigner.EveryTieCanWin` | backend/orchestrator/interactem/orchestrator/assign.py:177-190 | every least loaded candidate is the choice of some roll |
| `Assigner.ChooseAgent` | backend/orchestrator/interactem/orchestrator/assign.py:81-90 | tags, then networks, then load, then the roll: the agent picked is that entry of the least loaded preferred candidates, and no agent that may host the operator has less load |
| `Assigner.GreedyNext` | backend/orchestrator/interactem/orchestrator/assign.py:177-190 | a placement keeps every earlier choice a least loaded one at its time, measured by the final lists |
| `Assigner.RecordAssignment` | backend/orchestrator/interactem/orchestrator/assign.py:192-214 | appends the operator to its agent and records the shared networks, or all the agent's when there is no restriction or nothing shared |
| `Assigner.BalancedNext` | backend/orchestrator/interactem/orchestrator/assign.py:177-190 | giving an operator to a least-loaded agent keeps interchangeable agents within one of each other |
| `Assigner.SticksNext` | backend/orchestrator/interactem/orchestrator/assign.py:192-211 | a recorded choice lies inside the predecessors' networks unless no matching agent is on any of them |
| `Assigner.HostedFollows` | backend/orchestrator/interactem/orchestrator/assign.py:164-211 | the agent of one operator has a network of a predecessor whenever a matching agent has, and the networks recorded are then all predecessors' networks |
| `Assigner.UpstreamRecorded` | backend/orchestrator/interactem/orchestrator/assign.py:154-162 | with every predecessor placed first, an operator with predecessors always has a restriction to follow |
| `Assigner.ReasonsSayNothingOfNetworks` | backend/orchestrator/interactem/orchestrator/assign.py:104-110 | no reason for refusing an operator contains the word the error branch looks for, so the network error is never raised |
| `Assigner.ContainsIff` | backend/orchestrator/interactem/orchestrator/assign.py:104-110 | containing a word means that the text can be split around it |
| `Assigner.MakeAssigner` | backend/orchestrator/interactem/orchestrator/assign.py:38-66 | no agents and a cyclic graph are errors, in that order; otherwise the assigner holds a topological order |
| `Launching.Launch` | backend/orchestrator/interactem/orchestrator/orchestrator.py:33-58 | from the user's pipeline and a list of agents: assignments exactly when there are agents, no effective cycle, and for every operator of the user's an agent whose tags cover it, the first of these to fail being the error; then every replica is on exactly one agent's list, of an agent whose tags cover its own, interchangeable agents differ by at most one, replicas were placed after their predecessors, networks stick along the links between replicas, and every choice was a least loaded one; every agent lists its replicas in the order they were placed |
| `Launching.AssignerSees` | backend/orchestrator/interactem/orchestrator/assign.py:45-66 | the assigner works on exactly the replicas and on the links between different replicas of linked operators |
| `Launching.CoveredIff` | backend/orchestrator/interactem/orchestrator/assign.py:75-98 | all replicas can be assigned exactly when all of the user's operators are covered |
| `Machine.FireTable` | backend/orchestrator/interactem/orchestrator/machine.py:39-51 | what every trigger does in every state, read off the transition table |
| `Machine.TerminalAbsorbs` | backend/orchestrator/interactem/orchestrator/machine.py:57-64 | no trigger leaves a terminal state |
| `Machine.MovesForward` | backend/orchestrator/interactem/orchestrator/machine.py:39-51 | a machine never comes back to a state it has left |
| `Machine.CancelTerminates` | backend/orchestrator/interactem/orchestrator/machine.py:48-50 | cancelling ends in a terminal state from everywhere, and is invalid exactly after a failed start |
| `Machine.DeploymentStateMachine.Trigger` | backend/orchestrator/interactem/orchestrator/machine.py:53-101 | moves by the table, publishes every real move once, and fails exactly when no rule matches |
| `Orchestrator.OrchestratorState.AgentPut` | backend/orchestrator/interactem/orchestrator/state.py:203-227 | a put stores the value, makes a tracker on first sight and otherwise acts on what changed: a changed deployment cancels the one left, unless it had failed to start, and links the one joined, made pending if new; then a changed status moves the linked machine: running takes assigned agents to running, an error takes them and running to failed, shutting down cancels all but a failed start, every other status leaves all machines alone; and it fails exactly when the state does not allow the status |
| `Orchestrator.OrchestratorState.AgentDelete` | backend/orchestrator/interactem/orchestrator/state.py:213-219 | a deletion forgets agent and tracker and cancels the linked deployment, unless it had failed to start; nothing else changes |
| `Orchestrator.OrchestratorState.HandleDeploymentChange` | backend/orchestrator/interactem/orchestrator/machine.py:139-161 | the deployment left is cancelled unless it had failed to start, the one joined is linked, pending if new, all other machines stay, and links always point at registered machines |
| `Orchestrator.OrchestratorState.HandleStatusChange` | backend/orchestrator/interactem/orchestrator/machine.py:163-176 | running, error and shutting down move the linked machine, state by state as for a put, and no other; any other status moves none; a status that the state does not allow is an error |
| `Orchestrator.OrchestratorState.HandleDeploymentEvent` | backend/orchestrator/interactem/orchestrator/orchestrator.py:61-62 | one machine, made on demand, moves: a run takes pending to assigned, a failed run takes pending and assigned to a failed start, a stop cancels all but a failed start; in the other states a stop or failed run has nothing to do or is an error, as stated for each |
| `Orchestrator.EventTells` | backend/orchestrator/interactem/orchestrator/machine.py:117-183 | the specification steps, and when they raise an error, written out state by state for every event |
| `Orchestrator.OrchestratorState.GetDeploymentSm` | backend/orchestrator/interactem/orchestrator/state.py:174-179 | the registered machine, or a new pending one; machines are never removed |
| `Session.LeftIsDeadForGood` | backend/orchestrator/interactem/orchestrator/machine.py:139-161 | once an agent's stored deployment changes away from d, or the agent goes while linked to d, the machine of d is terminal in every later state, wherever the session began and whatever follows |
| `Session.HandleKeeps` | backend/orchestrator/interactem/orchestrator/machine.py:117-183 | no event moves a terminal machine |
| `Session.LeavingKills` | backend/orchestrator/interactem/orchestrator/machine.py:147-154 | the event that leaves a deployment leaves its machine terminal |
| `Interleaving.RunSafe` | backend/orchestrator/interactem/orchestrator/machine.py:117-183 | with handlers split at every await, whatever machines the session began with, every reachable state is safe: every deployment left so far, counted from the moment of the change or deletion, is dead or its cancellation is next in some task, and the published log tells every machine's state |
| `Interleaving.ErrorEndsTask` | backend/orchestrator/interactem/orchestrator/machine.py:93-101 | a trigger fired after a failed start raises an error: nothing changes and the rest of that handler is skipped |
| `Departures.DepartedIff` | backend/orchestrator/interactem/orchestrator/machine.py:139-183 | what the state records as left is exactly what some event so far made an agent leave: its stored deployment changed away, or it was deleted while its tracker was linked |
| `Departures.LeftStaysDead` | backend/orchestrator/interactem/orchestrator/machine.py:147-154 | a deployment that some event made an agent leave, and whose cancellation is no longer pending, is dead and stays exactly so, whatever arrives and however it interleaves |
| `Departures.QuietMeansDead` | backend/orchestrator/interactem/orchestrator/machine.py:147-183 | whenever every task has ended, every deployment that some event made an agent leave is dead |
| `Interleaving.NoUpdateAfterTheLast` | backend/orchestrator/interactem/orchestrator/machine.py:93-101 | no update is published for a deployment after a terminal one |
| `Alone.AloneIsAtomic` | backend/orchestrator/interactem/orchestrator/state.py:203-227 | from a settled state, any handler that runs without interruption shows exactly the effect of the atomic step |
| `Alone.StaysSettled` | backend/orchestrator/interactem/orchestrator/state.py:203-227 | and leaves a settled state: agents and trackers in step, no tracker shared |
| `Alone.AloneRefinesAtomic` | backend/orchestrator/interactem/orchestrator/state.py:203-227 | the interleaved protocol, left uninterrupted, refines the atomic one: from the start of any session, any list of events ends in what playing them as atomic steps gives |
| `Alone.AloneIsARun` | backend/orchestrator/interactem/orchestrator/state.py:203-227 | such a session is one of the interleavings, so what holds of every run holds of it |
| `Replay.DeliveredIff` | backend/orchestrator/interactem/orchestrator/state.py:97-104 | the consumer delivers exactly the last entry of every subject |
| `Replay.DeliveredUnlessSuperseded` | backend/orchestrator/interactem/orchestrator/state.py:97-104 | by position: an entry is delivered exactly when no later one has its subject |
| `Replay.SameSubject` | backend/orchestrator/interactem/orchestrator/state.py:97-104 | entries share a subject exactly when they speak of one deployment and are both updates, both assignments, or both requests |
| `Replay.SeenIff` | backend/orchestrator/interactem/orchestrator/state.py:105-133 | the latest state is that of the last update; a deployment is seen when it has an update or an assignment, or its last request is to run or to stop |
| `Replay.SortMessages` | backend/orchestrator/interactem/orchestrator/state.py:105-126 | the four dictionaries filled by the loop are those of the specification |
| `Replay.InboxTellsAll` | backend/orchestrator/interactem/orchestrator/state.py:116-133 | they say exactly which deployments were seen and in what state each was last |
| `Replay.Tidy` | backend/orchestrator/interactem/orchestrator/state.py:139-168 | one deployment: running is registered again, terminal is left, one without any update gets a failed start, and any other is cancelled; nothing else is published and no trigger is invalid |
| `Replay.ReplayAndCleanup` | backend/orchestrator/interactem/orchestrator/state.py:92-172 | afterwards the registered machines are exactly the deployments whose last update was running; every deployment seen without any update has now failed to start, every one last pending, assigned or failed is now cancelled, and a deployment in order keeps its last state; no trigger fired was invalid, and a log in order gets no new entries; what is published is exactly one update for each deployment seen that was not in order |
| `Replay.ReplayTwice` | backend/orchestrator/interactem/orchestrator/state.py:92-172 | recovering from the log that recovery left publishes nothing and finds the same running deployments |
| `Replay.RecoversWhatRan` | backend/orchestrator/interactem/orchestrator/state.py:151-168 | for any number of orchestrators one after the other, each recovering from the stream the others left and then running any interleaved session: each starts from exactly the machines that were running when the one before it stopped |
| `Replay.StreamTellsWhatRan` | backend/orchestrator/interactem/orchestrator/state.py:151-168 | the stream a session leaves says of exactly those deployments that they run whose machines were running at its end |
| `Replay.UntouchedKeepsRunning` | backend/orchestrator/interactem/orchestrator/state.py:151-168 | a running deployment that no later session updates is carried through all of them |
| `Reassembly.FrameCache.AddFrame` | operators/detstream-assembler/run.py:79-87 | files the packet under its frame and module; complete exactly when the frame's packets come from four different modules |
| `Reassembly.FrameCache.GetCompleteFrame` | operators/detstream-assembler/run.py:89-115 | joins the modules in increasing order under module 0's header and forgets the frame; otherwise the first fault is reported and the frame stays |
| `Reassembly.FrameCache.Assemble` | operators/detstream-assembler/run.py:123-143 | nothing, a frame, or an error, exactly as the packets of that frame decide |
| `Reassembly.PutTogether` | operators/detstream-assembler/run.py:94-109 | the faults in their order: a buffer of odd length, no module 0, wrong sizes |
| `Reassembly.FaultIff` | operators/detstream-assembler/run.py:94-109 | the faults by the sizes themselves: none exactly when every module present has sent 165888 bytes and module 0 is among them |
| `Reassembly.SortKeys` | operators/detstream-assembler/run.py:96 | the modules in increasing order, each once |
| `Reassembly.ArrivalOrder` | operators/detstream-assembler/run.py:79-87 | a module's bytes are joined in order of arrival, and its last header counts |
| `Reassembly.OnePacket` | operators/detstream-assembler/run.py:79-87 | one packet gives its own module's bytes and header, and nothing for any other |
| `Reassembly.ArrivalsInOrder` | operators/detstream-assembler/run.py:79-87 | the modules listed in a frame's header come in order of first arrival |
| `Reassembly.AssembleAll` | operators/detstream-assembler/run.py:123-143 | over a whole stream, the frames sent are those of the groups that leave the cache, in order, and the errors raised are those of the faulty groups, in order |
| `Reassembly.NothingLostOrDoubled` | operators/detstream-assembler/run.py:70-115 | for any stream, at every moment and for every frame, the packets received are those that left followed by those still cached |
| `Reassembly.EveryFrameLeavesOnce` | operators/detstream-assembler/run.py:79-115 | for any interleaving in which each frame gets one packet from each of modules 0 to 3, every frame leaves exactly once with exactly its packets, and the cache ends empty |
| `Reassembly.AssembleRegular` | operators/detstream-assembler/run.py:123-143 | the whole operator on such a stream, each packet of 165888 bytes: no error, exactly one frame of 663552 bytes sent for every frame key, its bytes those of modules 0 to 3 in order under module 0's header, and both dictionaries empty at the end |
| `Reassembly.QuartetFrame` | operators/detstream-assembler/run.py:94-115 | its bytes are those of modules 0, 1, 2 and 3 in that order, whatever order they arrived in |
| `Reassembly.ArrivalOrderIsIrrelevant` | operators/detstream-assembler/run.py:94-115 | the same packets in another order give the same frame, but for the recorded list of modules, which keeps the order of arrival |
| `HeadNode.HeadOf` | operators/distiller-streaming/distiller_streaming/client.py:569-577 | the first node, in the map's order, that reports a short id 0 |
| `HeadNode.ProcessIncomingMessage` | operators/distiller-streaming/distiller_streaming/client.py:544-588 | heartbeats are skipped; any other message sends its state and then, only if the head node changed, one notice |
| `HeadNode.Client.ReceiveUpdate` | operators/distiller-streaming/distiller_streaming/client.py:698-740 | drains the queue and applies every update, oldest first |
| `HeadNode.Client.GetDataSocket` | operators/distiller-streaming/distiller_streaming/client.py:801-832 | the socket, if any, is connected to the client's current head node; a failed connection is an error and leaves none |
| `HeadNode.ArriveThenAnnounce` | operators/distiller-streaming/distiller_streaming/client.py:544-588 | the two protocol steps of the process, back to back, do what the method does |
| `HeadNode.PendingUpdatesCatchUp` | operators/distiller-streaming/distiller_streaming/client.py:681-696 | at every moment, applying what is queued to what the client shows gives the head the process remembers and the last state it sent |
| `HeadNode.DrainedClientAgreesIff` | operators/distiller-streaming/distiller_streaming/client.py:698-740 | a drained client shows the last state, and that state's head unless the process has yet to send the notice of a change |
| `HeadNode.HeadLagsAtMostOneState` | operators/distiller-streaming/distiller_streaming/client.py:544-588 | at no moment, drained or not, is the head shown older than the one of the state before the state shown |
| `HeadNode.RestartedProcessAgreesIff` | operators/distiller-streaming/distiller_streaming/client.py:754-795 | after a restart the head shown is right exactly when none was shown before or the new process ever saw one |
| `HeadNode.StaleHeadAfterRestart` | operators/distiller-streaming/distiller_streaming/client.py:754-795 | a restart after which the client goes on showing a head node that is gone |

## Left out

- Messaging, key-value storage and time-to-live, sockets, encoding and validation libraries: messages are decoded values and channels are queues.
- `backend/agent`: containers and the agent's own task groups.
- Building a graph from a runtime pipeline, writing one out, and the lookups by operator: single loops and filters without further properties.
- The bulk node and edge insertions of the graph library bypass the rebuild flag; they are modelled only where the source uses them, on a graph whose flag is still set.
- Callers that change the operator graph they were handed, as the assigner's constructor may: the operator graph of a readable graph already has every operator as a node, so nothing is ever added there.
- The iteration order of a set is a function of the set: two equal sets made in different ways iterate alike here.
- Runtime operators are values; that the source attaches port maps to operator objects shared between two lists is not modelled.
- The batch limit is a number of bytes: its computation from a floating-point size in megabytes, and the check that the size is positive, are not modelled.
- Scan positions are natural numbers: a header with a negative row or column, which would index from the end of the array, is not modelled. Item contents are bytes; no arithmetic on pixels.
- `Accumulator.FrameAccumulator.Finished`: the threshold 0.99 is an exact decimal here, a binary floating-point number in the source.
- Alternative constructors of the accumulator (from a message, a batch or a header) and the sparse-array operations it inherits.
- `PipelineAssigner.Assign` also returns the recorded networks, which the source keeps in a local object; logging of assignments is left out.
- The text of errors and logs, except the assigner's reasons, which decide which error is raised.
- The operators dictionary of the orchestrator and restarting single operators: stored and forwarded, not acted on.
- Publishing to agents and to the database, authentication keys, and the failure of a publication.
- What an orchestrator keeps over a restart other than what replay rebuilds: a deployment that is over has no machine in the next session, and gets a new pending one if it is named again.
- `Departures.LeftStaysDead`: says that a left deployment is dead once its cancellation has been carried out; that it is carried out at all needs the event loop to go on.
- `Interleaving`: the queueing inside the state-machine library is not modelled; a trigger is one step.
- `Interleaving`: a handler may pause at every `await`, also where what it waits for never does, so the model has more interleavings than the source; that a deletion takes the machine its tracker is linked to at that moment is as in the source.
- The keep-alive of the background process, its restart after a socket error and the retry of binding a socket.
- The camera headers' fields that are neither key, position nor module, and the one-time print of the first frame.
- Image processing operators, front end, command line, REST application, RDMA bindings, metrics and launcher.
