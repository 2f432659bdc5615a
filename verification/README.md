# Juturna, modelled and proved

Juturna runs pipelines: graphs of nodes that pass messages to each other through bounded queues, each node
with threads of its own. This project models how such a pipeline is ordered, started, run and stopped, how a
node's buffer batches what it is given, how the remote service pairs answers with calls, and four small kernels
of its plugins, and proves what those parts are for. `dafny verify dfyconfig.toml` checks all of it.

## What is modelled

**The graph** (`Graphs`, `Dag`). `DAG` keeps links in a list but targets in sets, so a link added twice counts
twice on the way up and once on the way down. Both worklist algorithms are methods with the original's loops;
the sets are walked in any order. `HasCycle` answers true exactly for a cycle or a repeated link. `BFS` emits
exactly the nodes that neither leads to, each in the layer numbered by the longest path that ends there.

**The runtime** (`Messages`, `Nodes`, `NodeObject`, `System`, `Safety`, `Shutdown`, `Lossless`, `Clogs`, `Liveness`, `Drain`,
`Propagation`, `Return`, `Reach`, `Wedge`, `Delivery`, `SelfStop`). `Systems` is a transition system: the worker, update,
source and control threads of every node, the thread that drives the pipeline, and callers outside, interleaved in any
order. A step is one queue operation, one locked block, or one read or write of a flag; `put` is two steps, as the flag
it reads may change before it queues. Of a caller outside only the second step is modelled, which may come at any time.
`update` is any sequence of at most `fanout` transmissions, a source function returns any message at any time.
`NodeObjects.Node` is a node as the object it is: a method for each of these steps, done in place and shown to do to the
node exactly what the step does.

Proved over every run: a node is one first-in first-out queue; what its worker sends on while it is suspended is
exactly what it forwards; a node that has met a stop has updated or sent on all that was ever sent to it, once each and
in order; so when `Pipeline.stop` has returned, the target of every link, if sent no suspend, has updated exactly what
its origin transmitted. A node is suspended exactly if the last suspend or resume that ran on it was a suspend, and what
it transmits bears the id of the message it is working on. Stop-propagate comes down to every node below. A measure that
every step lowers bounds the drain.

One kind of node is excepted from "all that was ever sent to it": a node is exposed if a stop may come to it while one of
its origins still runs, from its own source function, or, if it has several origins, as a stop-propagate handed on by
another one. Along a link to a node that stops itself messages can be missed exactly if data can come to the origin and
the origin sends any; `SelfStop` builds the runs, by bringing data along any path, and also one in which two origins and
stop-propagate lose messages.

The runtime can get stuck in one way. A node is clogged when it has met its stop and a queue of its own is full for
good, with its worker before the buffer or with its inbound queue shut. Clogs never clear, and take at least a queue's
worth of messages accepted after the stop. A clogged exposed node can hold up a thread above it that transmits to it, and
that thread others above; they wait for good. While a message is on its way through a node, some message can be moved on,
unless that very node is clogged or held up in this way; while a stop is under way, a message can be moved on or the node
the pipeline is busy with can come nearer to its end, unless that very node is clogged or held up or its source function
has not returned. From every such state a stop can still return or come to such a node; and every pipeline that has a
node and bounded queues, and no other, has a run after which its stop can never return.

**The pipeline** (`Pipeline`, `Validation`). Linking, starting and stopping are methods of a class that records
what it does to the nodes; those records are the script of the transition system. A graph that passes the
validation starts every node once, destinations before origins, and its stop is lossless.

**Buffers** (`Tables`, `Policies`, `Buffer`, `Batching`, `Grouping`). `Buffer` is the class with its table by
creator and its destructive pop loop; the policies are the original's loops. Over runs of arrivals: passthrough
is a first-in first-out queue; the prompter's policy cuts the arrivals into consecutive runs of `every`; the
summarizer's policy, with all its indices, refines a reference that knows only one list and no sources. Each of
these is carried to the messages the update thread gets, with batches unpacked.

**Topic history** (`History`). The table of the summarizer is the least-recently-used cache of its updates.

**The remote service** (`Remote`, `RemoteSafety`, `RemoteObject`, `RemoteOutcomes`, `RemoteProgress`). Calls, node,
dispatcher, cleaner and shutdown as a transition system, with correlation, completion at most once, statistics that
balance, every outcome told apart by what the call has gone through, and success within reach from every state.

**Kernels** (`Udp`, `Rescale`, `Audio`). Fragmentation, speech-time rescaling and the audio block chunker.

## Assumptions

- `join` waits until the threads have ended. The original waits for a bounded time and goes on; where the stop proved
  here never returns, the original's returns with a worker blocked for good.
- A node runs once: stop events are never cleared, and restarting is documented as unsupported. A START signal
  that reaches a running node is left without effect.
- Stop signals come from the pipeline and from a node's own source function. `update` transmits none, and callers
  outside put suspend, resume and other positive signals only.
- Every update makes at most `fanout` transmissions, for some bound that may be chosen freely.
- In the transition system a node's buffer relays every message, which `Batching.PassthroughIsFifo` proves of the
  passthrough policy. Messages are immutable, and a node transmits a message object of its own each time.
- Only a node's own worker, update and control threads transmit. `AudioRtpAv` transmits from a thread of its own
  (juturna/nodes/source/_audio_rtp_av/audio_rtp_av.py:241); what is proved of shutdown does not cover that source.
- The remote service's node gets data requests through the service only, is not suspended, and transmits inside `update` only.
- Texts of the UDP notifier are base64 (alphabet of section 4 of RFC 4648), so that JSON needs no escape for them
  (section 7 of RFC 8259), in an encoding with one byte per such character.
- Audio times and word times are exact reals. Audio blocks hold at least one sample, the output rate is positive.
- Messages under the summarizer's policy have a topic; reading one that has none raises in the original.

## Where code and documentation differ

The model follows the code.

- `_check_dag_properties` promises that sources have no predecessors and sinks no successors; the first is not
  checked, the second only warned about. A repeated link is reported as a cycle, and without validation the
  target of a repeated link and all that follows it is never started and never stopped.
- `Pipeline.start` is documented to start nodes in reverse order of configuration; it uses the reversed layers.
- The statistics of the remote service announce `timeouts`, which never moves; time-outs are counted under `timeout_requests`.
- `RequestContext` checks the type of a response, but the dispatcher completes the future directly and the check is never made.
- The summarizer documents -1 as unlimited history. A negative limit raises for every new topic; 0 is unlimited.
- The UDP notifier divides by the data size after rounding up by the packet size and so may send empty fragments at the end.
  With base64 switched off it hands bytes to `json.dumps`, which raises.
- In stereo the audio source counts the samples of both channels, so that a block lasts half its stated duration.

## Model

| member | source | states |
|---|---|---|
| Dags.Dag.AddNode | juturna/components/_dag.py:10-11 | a known node changes nothing, a new one comes last and without links |
| Dags.Dag.AddEdge | juturna/components/_dag.py:13-19 | an unknown end is refused and leaves the graph alone; otherwise the link is appended, repeated or not |
| Dags.Dag.InDegree | juturna/components/_dag.py:38-44 | the number of links entering each node, repeated links counted each time |
| Dags.Dag.OutDegree | juturna/components/_dag.py:46-52 | the number of links leaving each node |
| Graphs.CountsAreNumbers | juturna/components/_dag.py:38-52 | both degrees are the numbers of places in the list of links that end or begin at the node, and zero exactly if there is none |
| Dags.Dag.Release | juturna/components/_dag.py:30-34 | counting down the targets of a node, in any order, keeps: each countdown is the links not yet notified, and exactly the nodes at zero are released or queued |
| Dags.Dag.HasCycle | juturna/components/_dag.py:21-36 | true exactly when the links contain a cycle or repeat a link |
| Dags.Dag.ReleaseLevel | juturna/components/_dag.py:62-75 | one level is exactly the queue it began with, and every node it leaves queued is entered from the level |
| Dags.Dag.BFS | juturna/components/_dag.py:54-77 | the layers are a layering: distinct nodes, none entered by a repeated link, all origins in earlier layers, one in the layer before, nothing releasable left out |
| Graphs.CountdownAtZero | juturna/components/_dag.py:41-42 | the countdown reaches zero exactly when all origins are released and no link into the node repeats |
| Graphs.ReleaseOrderIsExact | juturna/components/_dag.py:26-36 | any exhausted release order, last-in or first-in first-out, holds exactly the nodes that no cycle and no repeated link leads to |
| Graphs.AllReleasable | juturna/components/_dag.py:36 | all nodes are releasable exactly when there is no cycle and no repeated link |
| Graphs.RepetitionBlocks | juturna/components/_dag.py:18-19 | the target of a repeated link is never released |
| Graphs.LayeringHoldsReleasable | juturna/components/_dag.py:54-77 | a layering holds exactly the nodes that no cycle and no repeated link leads to |
| Graphs.LayerIsLongestPath | juturna/components/_dag.py:61-77 | the number of a node's layer is the length of the longest path that ends at it |
| Graphs.LinksGoToLaterLayers | juturna/components/_dag.py:61-77 | a link between two layered nodes goes to a strictly later layer |
| NodeObjects.Node.Put | juturna/components/_node.py:187-191 | undisturbed, a draining node discards; any other appends if its queue has room and else has the caller wait; the node invariant is kept |
| NodeObjects.Node.PutEnqueues | juturna/components/_node.py:191 | the second half of a put, whatever has become of the flag: queued exactly if there is room |
| NodeObjects.Node.Start | juturna/components/_node.py:342-382 | the draining flag is taken back and each missing thread created, a source thread only with a source function |
| NodeObjects.Node.WorkerLoops | juturna/components/_node.py:443 | the worker ends exactly if told to |
| NodeObjects.Node.WorkerTakes | juturna/components/_node.py:444-447 | the oldest message is taken into the hand, or nothing changes if there is none |
| NodeObjects.Node.WorkerDecides | juturna/components/_node.py:449-453 | a suspended node transmits what it holds, stamped with its last data id, unless it is a control message |
| NodeObjects.Node.WorkerGives | juturna/components/_node.py:455 | the message goes to the end of the buffer exactly if there is room |
| NodeObjects.Node.UpdateLoops | juturna/components/_node.py:461 | the update thread ends exactly after a stop or if told to |
| NodeObjects.Node.UpdateGets | juturna/components/_node.py:463 | the oldest buffered message is taken, or nothing changes if there is none |
| NodeObjects.Node.UpdateBegins | juturna/components/_node.py:467-477 | data becomes pending and is noted as the data source; a stop ends the loop, other signals do not |
| NodeObjects.Node.Transmits | juturna/components/_node.py:328-334 | what a transmission puts is the message stamped with the last data id |
| NodeObjects.Node.UpdateFinishes | juturna/components/_node.py:480-484 | the message counts as handled and no longer as pending |
| NodeObjects.Node.SourceLoops | juturna/components/_node.py:487 | the source ends exactly if told to |
| NodeObjects.Node.SourceReturns | juturna/components/_node.py:491-500 | a stop raises the source flag and is put; anything else is held |
| NodeObjects.Node.SourceChecks | juturna/components/_node.py:502-508 | what is held is put, or dropped if the source was told to stop meanwhile |
| NodeObjects.Node.ControlRuns | juturna/components/_node.py:527-536 | suspend and resume set and clear the flag, other signals above zero do nothing |
| NodeObjects.Node.StopRaisesFlags | juturna/components/_node.py:394-397 | draining, worker, source and update flag go up in this order before the joins |
| NodeObjects.Node.StopJoins | juturna/components/_node.py:399-404 | a stop goes on only when a wait is over, and transmits a stop-propagate only after the last |
| Nodes.DecideKeepsInv | juturna/components/_node.py:449-455 | deciding what to do with what was taken keeps the node one queue and lets no control message be forwarded |
| Nodes.BeginKeepsInv | juturna/components/_node.py:460-477 | handling a message keeps the node one queue, and a stop the last thing it handles |
| Nodes.StopWasAccepted | juturna/components/_node.py:467-472 | a node that has met a stop was sent one |
| Safety.LocalStepKeepsInv | juturna/components/_node.py:442-508 | steps of a node's own threads keep what every reachable state has |
| Safety.BeginTxKeepsInv | juturna/components/_node.py:316-334 | beginning a transmission keeps it: what a link has carried is what its origin began to send, up to the one under way |
| Safety.DropKeepsInv | juturna/components/_node.py:187-190 | a draining node discards only what no link carries |
| Safety.DeliverKeepsInv | juturna/components/_node.py:191 | a queued message is the next one of its link, and a stop arrives only when all origins have ended |
| Safety.PipeStopIsLate | juturna/components/_pipeline.py:244-256 | the pipeline's stop reaches a node only after all its origins have been joined |
| Shutdown.StepKeepsInv | juturna/components/_node.py:442-535 | every step of any thread keeps the invariant |
| Shutdown.RunKeepsInv | juturna/components/_node.py:442-535 | the invariant holds in every reachable state |
| Shutdown.ForwardedIsSent | juturna/components/_node.py:449-453 | in every reachable state what the worker has transmitted is what the node has forwarded, message by message in that order, but for the stamp |
| Shutdown.NodeIsOneQueue | juturna/components/_node.py:442-484 | in every reachable state a node's buffers and the hands of its threads, laid end to end, are what it accepted, in order; what was forwarded was transmitted and is no control message |
| Shutdown.StopDrainsNode | juturna/components/_node.py:460-484 | when the update thread has met a stop, everything accepted up to the first stop has been updated or forwarded, in order, and what was forwarded was transmitted |
| Shutdown.StoppedNodeMissedNothing | juturna/components/_node.py:486-520 | whatever stop it was, all origins have ended, and each message they ever sent was updated by the node or transmitted by its worker, exactly once and in the order sent |
| Shutdown.PipelineStopEndsAll | juturna/components/_pipeline.py:244-256 | when stop has returned, every worker, update and source thread has ended |
| Lossless.LastSignalDecides | juturna/components/_node.py:460-536 | in every reachable state a node is suspended exactly if the last suspend or resume whose control thread has run was a suspend, every other signal handled has run or is still to run, and the data source id is that of the message being updated or last updated |
| Lossless.DecisionsFollowSignals | juturna/components/_node.py:449-455 | over any run, data is transmitted with the id of the last data message exactly if the last suspend or resume that ran was a suspend, and goes to the buffer otherwise, as control messages always do |
| Lossless.UpdatesAreStamped | juturna/components/_node.py:328-334 | over any run, what an update transmits bears the id of the message being updated, and the update thread transmits at no other step |
| Lossless.NotSuspended | juturna/components/_node.py:527-533 | a node that has accepted no suspend is not suspended |
| Lossless.NeverForwards | juturna/components/_node.py:449-453 | a node that has accepted no suspend has forwarded nothing |
| Lossless.StoppedNodeIsLossless | juturna/components/_node.py:460-484 | a node that was sent no suspend and has met a stop has updated exactly what each thread of its origins transmitted, once each and in order |
| Lossless.LosslessShutdown | juturna/components/_pipeline.py:230-261 | after stop, the target of every link, unless exposed or sent a suspend, has updated exactly the messages that its origin transmitted, by its update thread or by its worker, once each and in order |
| SelfStopping.MissesIffSelfStopping | juturna/components/_node.py:493-500 | along any link into a node that has no second origin or gets no stop-propagate, messages can be missed exactly if the node may stop itself, a node with a source function reaches the origin, and updates transmit at all |
| SelfStopping.WaitsIffSelfStopping | juturna/components/_node.py:187-191 | along such a link an origin that was sent no stop can come to wait at its clogged target exactly if, moreover, queues are bounded; and then it is held up |
| SelfStopping.TwoOriginsMiss | juturna/components/_node.py:514-520 | with stop-propagate, if one of two origins of a node stops itself, what the other sends can be missed |
| Delivery.DataGetsThere | juturna/components/_node.py:460-484 | along any path from a node with a source function data can be brought to the update thread of the last node, with everything else at rest |
| Delivery.OnlyFedNodesSend | juturna/components/_node.py:442-484 | in every reachable state only nodes that a source function reaches have been sent data or have sent any |
| Liveness.NoDeadlock | juturna/components/_node.py:316-334 | while a message is on its way through a started node some message can be moved on, unless that node is clogged or a thread of it is held up by a clogged exposed node below; if it was sent no stop, only the latter |
| Liveness.OnlyClogsRemain | juturna/components/_node.py:442-484 | when no message can be moved on, those still on their way are exactly the ones a clogged node keeps in the hand of its worker or source, and those of threads that transmit, all held up |
| Liveness.PutsGoOn | juturna/components/_node.py:187-191 | a thread in the middle of a put waits only for a node that is clogged or jammed by threads held up; a thread that transmits data waits only if it is held up |
| Clogs.ClogsAreForever | juturna/components/_node.py:460-484 | whatever any thread or caller does, a clogged node stays clogged |
| Clogs.HeldUpIsForever | juturna/components/_node.py:187-191 | whatever any thread or caller does, a thread that is held up by a clogged exposed node stays so |
| Clogs.ClogsTakeLateArrivals | juturna/components/_node.py:187-191 | a node is clogged only if at least a queue's capacity of messages was accepted after its first stop, and never if queues are unbounded |
| Liveness.LevelsExist | juturna/components/_dag.py:54-77 | the layers give the levels, strictly falling along links, by which progress and drain are shown |
| Liveness.StopProgresses | juturna/components/_pipeline.py:244-256 | from the call of stop until it returns, a message can be moved on or the node the pipeline is busy with can come nearer to its end, unless that very node is clogged or held up or its source function has not returned |
| Propagation.AlwaysSpread | juturna/components/_node.py:514-520 | in every reachable state a stop-propagate that a node is through with has reached, or is being put to, each of its targets |
| Propagation.StopPropagates | juturna/components/_node.py:514-520 | once nothing can move and nothing is clogged, every node that can be reached, over nodes that cannot stop themselves, from one stopped by stop-propagate has ended and was stopped by it |
| Returning.StopCanSettle | juturna/components/_pipeline.py:244-256 | from every reachable state with a stop under way there is a way on to its return, or to a clogged or held-up node that the pipeline is busy with |
| Returning.ChokedNeverReturns | juturna/components/_pipeline.py:244-256 | once a worker is choked, no way on leads to the return of stop |
| Returning.HeldUpNeverReturns | juturna/components/_pipeline.py:244-256 | once a thread is held up, no way on leads to the return of stop |
| Wedge.StopCanWedge | juturna/components/_node.py:442-484 | every pipeline with a node and bounded queues has a run with a stop under way that ends with a choked worker |
| Wedge.WedgeRunsDown | juturna/components/_node.py:442-484 | from there it can go on until no thread can move, the stop still under way |
| Wedge.StopsAreLostIff | juturna/components/_pipeline.py:244-256 | a pipeline can come to where its stop can never return, exactly if it has a node and bounded queues |
| Drain.StepMeasure | juturna/components/_node.py:442-535 | every step but an arrival lowers the measure of queued work weighted by what it may still cause downstream |
| Drain.DrainTerminates | juturna/components/_node.py:442-484 | from any reachable state the remaining steps are bounded, plus a fixed number for each arrival |
| Drain.StopReturns | juturna/components/_pipeline.py:230-261 | a stop that runs until nothing can move has carried out every operation, or the node it is busy with is clogged, held up, or waits for its source function |
| Pipelines.Pipeline.AddNode | juturna/components/_pipeline.py:162-163 | a new node gets empty tables and enters the graph |
| Pipelines.Pipeline.AddLink | juturna/components/_pipeline.py:165-176 | both tables and the graph stay in step; an unknown end leaves all of them alone |
| Pipelines.IncomingIsExact | juturna/components/_pipeline.py:165-173 | the origins of a node are those of the links that enter it, once for each link, in linking order |
| Pipelines.TargetsAreInOrder | juturna/components/_pipeline.py:165-171 | the destinations of a node are in the order in which they were first linked |
| Pipelines.Pipeline.Warmup | juturna/components/_pipeline.py:109-191 | refused unless new; otherwise the tables are those of the linked graph, and a link to an unknown node stops it with the links before it in place |
| Pipelines.Pipeline.Start | juturna/components/_pipeline.py:201-226 | refused unless ready and not empty; otherwise the nodes of a layering are started, last layer first |
| Pipelines.Pipeline.Stop | juturna/components/_pipeline.py:230-261 | refused unless running and not empty; otherwise, layer by layer from the first, every node is sent a stop and then every node is joined |
| Validation.BuildDag | juturna/cli/commands/validate.py:157-166 | succeeds exactly when every link joins known nodes, and then the graph is the configuration's |
| Validation.CheckDagProperties | juturna/cli/commands/validate.py:169-193 | raises nothing exactly when there is no cycle, no repeated link and no node that no link enters but sources; warns exactly if a link leaves a sink |
| Validation.StartOrderIsSafe | juturna/components/_pipeline.py:220-224 | along reversed layers no node comes twice and every destination comes before its origins |
| Validation.ValidatedStart | juturna/components/_pipeline.py:201-226 | a validated pipeline starts every node exactly once, destinations first, and the last layer started holds only source-typed nodes |
| Validation.LinkedPipelineIsWellFormed | juturna/components/_pipeline.py:165-176 | a linked pipeline without cycle or repeated link meets all that the runtime is assumed to meet, and its links to nodes that cannot stop themselves are those over which nothing is missed, with stop-propagate if the origin is the only one |
| Validation.PipelineStopIsLossless | juturna/components/_pipeline.py:230-261 | the lossless shutdown, of a pipeline as it is linked and layered |
| Tables.PopNext | juturna/components/_buffer.py:58-60 | popping from the highest mark down, the next mark still names the message it named at first |
| Tables.PopAll | juturna/components/_buffer.py:59-60 | the loop gives the marked messages newest first and leaves the others in order |
| Tables.NothingLost | juturna/components/_buffer.py:56-60 | what is taken and what stays are together what was there |
| Policies.PrompterNextBatch | plugins/nodes/proc/_prompter_ollama/prompter_ollama.py:156-178 | nothing if fewer than `every` messages are held; otherwise each source in order gives its oldest ones, as many as are still missing |
| Batching.PrompterTakesEarliest | plugins/nodes/proc/_prompter_ollama/prompter_ollama.py:156-178 | in any table that holds at least `every` messages just `every` are taken, the oldest of each source, from no source before those ahead of it are exhausted; otherwise none |
| Policies.TopicsAreInOrder | plugins/nodes/proc/_summarizer_ollama/summarizer_ollama.py:257-264 | topics come in the order in which they first appear |
| Policies.GroupByTopic | plugins/nodes/proc/_summarizer_ollama/summarizer_ollama.py:257-262 | topics in order of first appearance, each there once and with exactly the positions of its messages |
| Policies.SummarizerNextBatch | plugins/nodes/proc/_summarizer_ollama/summarizer_ollama.py:245-283 | the first `every` positions of the first greatest group, by length of the source and then size, among the groups of at least `every`; nothing if there is none |
| Policies.StepBest | plugins/nodes/proc/_summarizer_ollama/summarizer_ollama.py:267-278 | the condition without parentheses replaces the best so far exactly as it should, and never by a group that is too small |
| Policies.SummarizerAnswerIsUnique | plugins/nodes/proc/_summarizer_ollama/summarizer_ollama.py:249-283 | the selection determines the answer |
| Policies.SummarizerAnswerShape | plugins/nodes/proc/_summarizer_ollama/summarizer_ollama.py:280-283 | an answer is exactly `every` strictly increasing positions of one topic of one source |
| Buffers.ChoicesFit | juturna/components/_buffer.py:36-39 | every policy marks each creator once at most, with increasing positions that exist |
| Buffers.Buffer.Put | juturna/components/_buffer.py:30-39 | the message is stored, the policy's choice leaves the table and nothing else does, and it is given out after all before it: a single message as it is, several as one message whose payload is the batch of just these, under the name of the buffer; the put waits exactly if something is given out and the out queue is full |
| Buffers.Buffer.Consume | juturna/components/_buffer.py:41-74 | the marked messages leave, creator by creator and newest first, all others stay in order; what leaves is queued, alone as it is or as the batch of just these, or waits for room |
| Buffers.Buffer.Get | juturna/components/_buffer.py:27-28 | the oldest message given out, also when one waits for room |
| Buffers.Buffer.Flush | juturna/components/_buffer.py:76-87 | table and queue are empty |
| Batching.PassthroughIsFifo | juturna/components/_synchronisers.py:4-11 | over any run each arrival is given out at once and by itself, so that the buffer is a first-in first-out queue |
| Batching.PassthroughDelivers | juturna/components/_synchronisers.py:4-11 | over any run what was got and is to be got is exactly what was put, in order |
| Batching.PrompterDelivers | plugins/nodes/proc/_prompter_ollama/prompter_ollama.py:156-178 | over any run the update thread gets one message for each `every` arrivals, the batch of just those, in the order of the batch; for `every` of one, the arrival itself |
| Batching.PrompterCutsArrivals | plugins/nodes/proc/_prompter_ollama/prompter_ollama.py:156-178 | over any run an output leaves exactly at every `every`-th arrival and holds the last `every` arrivals, in a stated order; fewer than `every` stay |
| Batching.ByCreatorKeepsContents | juturna/components/_buffer.py:56-60 | the order of a batch is a permutation of the arrivals it holds |
| Grouping.ChoiceFromSmall | plugins/nodes/proc/_summarizer_ollama/summarizer_ollama.py:264-283 | when all groups are small, a choice is made exactly when the new message completes its group, and it is that group |
| Grouping.SummarizerChunksGroups | plugins/nodes/proc/_summarizer_ollama/summarizer_ollama.py:245-283 | over any run the buffer holds and gives out exactly what a reference of one list without sources holds and releases |
| Grouping.PendingIsRemainder | plugins/nodes/proc/_summarizer_ollama/summarizer_ollama.py:245-283 | of each group, what is held is its last messages, its size modulo `every` of them |
| Grouping.ReleasedExactly | plugins/nodes/proc/_summarizer_ollama/summarizer_ollama.py:245-283 | a batch leaves exactly when a group's size reaches a multiple of `every`, and is the last `every` messages of the group, newest first |
| Grouping.SummarizerDelivers | plugins/nodes/proc/_summarizer_ollama/summarizer_ollama.py:245-283 | over any run the update thread gets one message for each arrival that brings its group to a multiple of `every`: the batch of the last `every` messages of the group, newest first |
| Histories.SummarizerHistory.UpdateHistory | plugins/nodes/proc/_summarizer_ollama/summarizer_ollama.py:207-237 | a known topic keeps the end of its messages and the new summary, as long as the limit allows, a new one enters with the summary alone; on an increasing clock the table stays the cache of all updates; a new topic under a negative limit raises, after the oldest may already be dropped |
| Histories.SummarizerHistory.OldestTopic | plugins/nodes/proc/_summarizer_ollama/summarizer_ollama.py:221-224 | no topic has a smaller time than the one found, and none that entered before it has the same |
| Histories.OldestIsLeastRecent | plugins/nodes/proc/_summarizer_ollama/summarizer_ollama.py:220-228 | in a full table the smallest time belongs to the least recently updated topic |
| Histories.HistoryIsLruCache | plugins/nodes/proc/_summarizer_ollama/summarizer_ollama.py:207-237 | after any run of updates on an increasing clock the table holds exactly the `max_topics` most recently updated topics, each with its last `max_history` summaries since it came in, or all of them if there are fewer or the limit is 0, and the summary of its latest update last |
| RemoteObjects.MessagingService.CleanUp | juturna/cli/commands/_juturna_remote_service.py:83-101 | exactly the overdue pending entries are removed, each future cancelled unless done |
| RemoteObjects.MessagingService.ClearPending | juturna/cli/commands/_juturna_remote_service.py:231-234 | all pending futures are cancelled and the map is empty |
| RemoteObjects.MessagingService.DispatchOne | juturna/cli/commands/_juturna_remote_service.py:111-131 | one message goes to the future of the pending request it is stamped with, or nowhere |
| RemoteObjects.MessagingService.Cancel | juturna/remotizer/_remote_context.py:36-39 | only a future that is not done is given the time-out |
| RemoteSafety.CallerKeepsInv | juturna/cli/commands/_juturna_remote_service.py:138-223 | every step of a call, on every path to success, time-out, rejection or failure, keeps the invariant |
| RemoteSafety.InHandIsFirst | juturna/cli/commands/_juturna_remote_service.py:113-127 | a message whose request is still pending is the first the node transmitted for it |
| RemoteSafety.StepKeepsInv | juturna/cli/commands/_juturna_remote_service.py:83-240 | every step of callers, node, dispatcher, cleaner and shutdown keeps the invariant |
| RemoteSafety.ResponsesAreCorrelated | juturna/cli/commands/_juturna_remote_service.py:106-188 | a successful call returns the first message the node transmitted while updating that call's own request, in any run |
| RemoteSafety.LaterOutputsAreDropped | juturna/cli/commands/_juturna_remote_service.py:124-129 | outputs are looked at in the order transmitted, and one that is not the first for its request, even if equal to it, changes nothing |
| RemoteSafety.FuturesCompleteOnce | juturna/cli/commands/_juturna_remote_service.py:96-127 | a future is completed at most once, and dispatcher, cleaner and shutdown find open every future they complete |
| RemoteSafety.PendingIdsAreInFlight | juturna/cli/commands/_juturna_remote_service.py:163-188 | every pending id belongs to exactly one call, still in flight; no id is registered twice |
| RemoteOutcomes.OutcomesAreEarned | juturna/cli/commands/_juturna_remote_service.py:140-223 | in every reachable state: a call has succeeded with a message exactly if its request was put, its future answered with that message, and it collected it and could encode the reply; it has timed out exactly if it gave up or its future was timed out; it is invalid exactly if unreadable as a value or without sender; else, if it has ended, it failed |
| RemoteOutcomes.AnsweredCallSucceeds | juturna/cli/commands/_juturna_remote_service.py:178-207 | from every reachable state in which a call waits with its future answered, whatever the others do, its own steps are to collect, leave and reply, each possible in turn, and an encodable reply ends in success with that answer |
| RemoteOutcomes.SendersAreRegistered | juturna/cli/commands/_juturna_remote_service.py:149-166 | a call with a sender is registered under its own id and never taken for a duplicate; one without is turned away |
| RemoteOutcomes.PendingIsExact | juturna/cli/commands/_juturna_remote_service.py:124-188 | a request is pending exactly if its call waits with an open future that the dispatcher is not about to complete |
| RemoteOutcomes.CancelledAreTimedOut | juturna/cli/commands/_juturna_remote_service.py:89-98 | cleaner and shutdown take out just the entries they name and time out just the futures of those |
| RemoteOutcomes.FirstOutputAnswers | juturna/cli/commands/_juturna_remote_service.py:113-127 | an output looked up for a pending request is its first, and completes the future of the very call registered under it, which stays so |
| RemoteOutcomes.RequestsAreTakenInOrder | juturna/cli/commands/_juturna_remote_service.py:168-176 | the node takes up the requests put into it in the order they were put, each once |
| RemoteProgress.CallsCanSucceed | juturna/cli/commands/_juturna_remote_service.py:138-207 | from every reachable state of a service not told to stop there is a way to go on in which a new call succeeds with any message the node may answer, stamped with the call's own id |
| RemoteSafety.StatisticsBalance | juturna/cli/commands/_juturna_remote_service.py:205-220 | in every reachable state each counter is the number of calls that ended that way, and total requests are successful, timed out, invalid, failed and in flight ones; the counter `timeouts` stays zero |
| Udp.NotifierUdp.PrepareChunks | juturna/nodes/sink/_notifier_udp/notifier_udp.py:93-126 | for any sizes: the packets in order; none if there is less than no room for data; or the first error met, a division by zero, bytes that cannot be dumped, or a packet that is too long |
| Udp.FloorDivMod | juturna/nodes/sink/_notifier_udp/notifier_udp.py:100-111 | quotients are rounded down and remainders have the sign of the divisor, whatever the signs |
| Udp.NoValueError | juturna/nodes/sink/_notifier_udp/notifier_udp.py:66-77 | below the maximum of fragments no packet exceeds the payload size and the error cannot occur |
| Udp.ValueErrorIff | juturna/nodes/sink/_notifier_udp/notifier_udp.py:118-122 | the error occurs exactly when some fragment needs more digits, beyond those set aside for its three numbers, than its piece leaves unused |
| Udp.CountBounds | juturna/nodes/sink/_notifier_udp/notifier_udp.py:100-102 | the number of fragments is at least the least possible and exceeds it by the overhead in data sizes, rounded up, at most |
| Udp.ExtraFragmentsAreEmpty | juturna/nodes/sink/_notifier_udp/notifier_udp.py:104-107 | the fragments beyond the least number are exactly the empty ones |
| Udp.FragmentsReassemble | juturna/nodes/sink/_notifier_udp/notifier_udp.py:104-114 | any delivery of exactly these fragments, reordered or repeated, makes up the text |
| Udp.PacketReads | juturna/nodes/sink/_notifier_udp/notifier_udp.py:109-116 | a reader that knows the keys finds in a packet each number under its own key, and the data |
| Udp.DumpIsInjective | juturna/nodes/sink/_notifier_udp/notifier_udp.py:109-116 | two different fragments never give the same packet |
| Udp.PacketsReassemble | juturna/nodes/sink/_notifier_udp/notifier_udp.py:100-126 | any delivery of exactly the packets, reordered or repeated, gives back the text from their contents alone |
| Udp.NumbersAreDistinctIff | juturna/nodes/sink/_notifier_udp/notifier_udp.py:111 | fragment numbers are distinct exactly when there are at most `max_chunks` fragments |
| Rescaling.RescaleTrxWords | juturna/utils/proc_utils/_trx_utils.py:1-61 | the loops with their breaks compute the search of every word, for any segments; if the segments follow one another, the words kept are those with both times in the speech, put back |
| Rescaling.SearchIsExact | juturna/utils/proc_utils/_trx_utils.py:28-49 | whatever the segments, overlapping or not, each time is put in the last segment that covers it of those looked at before both times were found, and is missing only if none covers it |
| Rescaling.SearchInverts | juturna/utils/proc_utils/_trx_utils.py:28-49 | a time is found exactly if it lies in the concatenated speech, and then at the moment with just that much speech before it |
| Rescaling.RescalingInvertsConcatenation | juturna/utils/proc_utils/_trx_utils.py:24-61 | exactly the words with both times in the speech are kept, in order, each time put back to the moment inside some segment of some clip with just that much speech, summed over the clips' segments, before it |
| Rescaling.TimesSpreadOut | juturna/utils/proc_utils/_trx_utils.py:33-37 | the map of times is strictly increasing and no word gets shorter |
| Audio.AudioRtpAv.FlushPending | juturna/nodes/source/_audio_rtp_av/audio_rtp_av.py:188-201 | all full blocks are sent in order; a forced flush sends the padded leftover as one more |
| Audio.AudioRtpAv.EmitChunk | juturna/nodes/source/_audio_rtp_av/audio_rtp_av.py:225-241 | a chunk starts where the last one ended, lasts as long as its samples and has the next version |
| Audio.AudioRtpAv.GenerateChunks | juturna/nodes/source/_audio_rtp_av/audio_rtp_av.py:203-223 | the thread's loops over connections and packets, up to the packet after which the stop event is found set |
| Audio.PacketsDoNotMatter | juturna/nodes/source/_audio_rtp_av/audio_rtp_av.py:206-208 | however samples are split into packets, the source ends up as if they had come in one |
| Audio.SessionKeepsSamples | juturna/nodes/source/_audio_rtp_av/audio_rtp_av.py:188-201 | every block has the one size and together they are the samples, up to the leftover or fewer than a block of zeros |
| Audio.SessionsAreCut | juturna/nodes/source/_audio_rtp_av/audio_rtp_av.py:220-223 | a connection adds the blocks of its own samples, with times from zero; nothing is carried over but the count |
| Audio.BetweenSessions | juturna/nodes/source/_audio_rtp_av/audio_rtp_av.py:225-239 | chunk number k of the whole stream has version k, across connections |
| Audio.ChunksTile | juturna/nodes/source/_audio_rtp_av/audio_rtp_av.py:225-240 | chunk `k` starts after the samples of all chunks before it, over the rate, and ends after its own, where the next one starts |
| Audio.FirstPacketsAreFirst | juturna/nodes/source/_audio_rtp_av/audio_rtp_av.py:203-223 | what is received is the first `limit` packets in order, each over its own connection |
| Audio.BegunBelowLimit | juturna/nodes/source/_audio_rtp_av/audio_rtp_av.py:203-223 | a connection is begun exactly if the limit has not been reached with those before it |

## Left out

- Wall-clock time, sleeps, polling and join timeouts: steps are taken at any time and joins wait.
- Updates that raise, nodes that override `stop`, and updates that never return.
- Restarting a stopped node or pipeline, and START signals to running nodes.
- Batching policies inside the transition system of the runtime: drain results hold for the passthrough policy only, as control messages go through the same buffer.
- Telemetry, dumping, logging, the HTTP manager, the command line, configuration merging, hub downloads and AI models.
- gRPC, protobuf packing, envelopes and `remotizer/utils.py`: a response either encodes or does not.
- `RequestContext.is_valid_response` and `set_result`: nothing in the service calls them.
- A node of the remote service whose `put` raises: its entry would stay pending until the cleaner takes it.
- `AudioRTP` process respawning, `RTPDatagram`, and the copies of the rescaler in other nodes.
- Message freezing and `Draft`: messages are values here.
- Udp.NotifierUdp.PrepareChunks: takes the text as given; that base64 of the JSON text is that text is library behaviour.
- Histories.HistoryIsLruCache: for negative `max_history` only what a single update does is stated; with an include list the table is filled beforehand, which is not modelled.
- Liveness.NoDeadlock: excepts clogs and what they hold up, because the code does get stuck there (`Wedge.StopsAreLostIff`, `SelfStopping.WaitsIffSelfStopping`).
- Liveness.StopProgresses: the same; and a source function that never returns keeps a stop from returning.
- SelfStopping.MissesIffSelfStopping: for a node with several origins under stop-propagate there is only a run that fails, not the exact condition.
- Buffers.Buffer.Put: the lock of the buffer is modelled only by what may not begin while a put waits.
- Audio.AudioRtpAv.GenerateChunks: errors that end a connection appear only as the ends of the given lists.
- Drain.DrainTerminates: bounds steps between arrivals; that the scheduler goes on taking steps is not stated.
- RemoteProgress.CallsCanSucceed: says that a call can succeed, not that the threads take the steps in time.
- Grouping.ReleasedExactly: for an arrival that has a topic, as the original reads the topic of every message.
