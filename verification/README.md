# A verified model of the Attention/FFN disaggregation plugin

The plugin splits a language model over two roles. Attention ranks run attention and send hidden
states; FFN ranks receive them, compute the FFN and send the answers back. A proxy in front spreads
requests over prefill and decode servers. This project models the parts whose correctness rests on
protocols, bookkeeping and arithmetic, and proves what they keep.

| files | what they model |
|---|---|
| `ProxyHeap`, `ProxySpec`, `ProxyPool`, `ProxyScheduler`, `ProxyRequests`, `ProxyFlows`, `ProxyRuns`, `ProxyAnyRun`, `ProxyEffects`, `ProxyProgress`, `ProxyWitness` | the shared proxy scheduler: a binary heap with lazy deletion, load accounting, tainting and draining, and whole runs of requests and administration |
| `RoutedSchedule` | the FFN's routed-experts loop against Attention's round-robin micro-batches over blocking transfers |
| `Topology`, `TokenCounts`, `P2PDataPath`, `P2PForward` | rank blocks, the two computations of batch sizes, and rows going to the FFN and back through all stages and layers |
| `FfnMode`, `CamStartup`, `CamInputs`, `CamProgress`, `CamFailure`, `StartupChunks` | the Async CAM startup handshake of N ranks over a key-value store |
| `GraphKeys`, `FfnGraphRunner`, `CaptureEvents` | CUDA graph capture and replay in two processes |
| `Camp2p`, `TpSlicing`, `BalancedRouting`, `BalancedRanks`, `Json`, `SortedJson`, `ControlCodec` | padding counts, tensor-parallel slicing, benchmark routing with its cache, and the control-payload codec |
| `Arithmetic`, `Decimals`, `Sequences`, `Wrappers` | shared facts and types |

How the main results fit together:

- **Proxy.** `ProxyPool.RolePools.Valid` says that the heap holds each live server's current entry
  exactly once, that every other entry is older, that none names a removed server, and that the heap
  has at most two entries per server. Every scheduler method keeps it and refines one operation of
  `ProxySpec`, which has no heap: there a pick is the least (priority, ordinal) by scan. `ProxyRequests`
  and `ProxyRuns` then prove over all runs of that specification, recomputations included, that the
  books balance throughout if and only if every step is `Balanced`. `ProxyAnyRun` says what holds even
  where they do not: requests are counted, their servers stay, and recomputation only ever under-counts.
  `ProxyWitness` has the runs that show it does. `ProxyEffects` says what the events do in terms of the
  recorded loads and nodes: every pick takes the lightest server, and what is charged, given back, announced,
  activated and removed. `ProxyProgress` shows that every run can go on: a request always finds its one
  server while any is live, and all open requests can be ended.
- **Schedule.** Attention's trace comes from running the coroutines of `RoutedSchedule.Program`; the FFN's
  from the loop. They are equal for every number of layers and stages, so the rendezvous product never sticks.
  `CallsAre` lists the loop's calls one by one, with the payload, weights and context of each.
- **Data path.** `P2PForward.RemoteForward` composes counts, topology, channels, concatenation and
  splitting over all stages and layers, there and back: the remote FFN is the local one for every
  row-wise function. `LocalRow` says what the local one is, row by row, and
  `TokenCounts.WorkersShareCount` and `AggregateOfWorkers` say which counts each rank and batch has.
- **Startup.** `CamInputs` reads the outcome off what the ranks bring: which plans and transports are refused,
  and what is agreed otherwise. `CamStartup` interleaves single store accesses of all ranks. Agreement, barrier order and the
  effect of an error key hold in every reachable state. `CamProgress` adds the absence of deadlock, that
  only an abort or a rank giving up ever makes an accepted startup fail, and exactly when such a
  failure can leave some ranks finished. `CamFailure` proves that no failure is silent and that after one every run ends.
- **Graphs.** `FfnGraphRunner.FfnModelRunner` refines the relation `Handles`; `CaptureEvents` joins it
  with Attention's capture events, down to the token counts of every payload and the rows of every
  replayed buffer.
- **Routing.** `BalancedRouting` proves each rank's table balanced; `BalancedRanks` compares the tables of all
  source ranks, which rotate, so that every pick reaches every rank exactly once.

Where the code and its own description differ, the model follows the code. Results of that kind:

- Removing a node that is not live while requests are open taints its key. A later activation of that
  key fails half-way, and the node is then neither live nor waiting
  (`ProxySpec.TaintingUnknownBlocksActivation`). Nothing else makes an activation fail
  (`ProxyAnyRun.ActivationNeedsBlindRemoval`).
- Recomputing a request releases its prefiller KV a second time, and a failed reassignment releases the
  old decoder a second time. The first keeps the books balanced exactly when the prefiller's recorded KV
  load is zero (`ProxyRuns.RecomputeKeepsIff`), the second never
  (`ProxyRuns.FailedRecomputeNeverKeeps`). `ProxyWitness.UnderCountingRun` and
  `ProxyWitness.FailedRecomputeRun` are reachable runs in which they do not balance.
- The startup handshake is no atomic commit: a run in which one rank finishes and another fails exists
  exactly when the plans are accepted and there are at least two ranks (`CamProgress.SplitIff`).
- A mismatch in the optional tensors goes unnoticed and puts tensors into the wrong buffers; two
  stages' tensors land in place exactly when both sides agree on both (`P2PDataPath.InPlaceIff`).
- A CAMP2P FFN rank counts at least one row, so its batch equals what it is sent exactly when some rank
  of its group has a token (`Camp2p.BatchIsSentIff`; `Camp2p.EmptyGroupIsMiscounted` is an input where
  it does not).

Choices of representation:

- Loads are `real`; the scores' float rounding is not modelled. The scheduler's lock is modelled by
  making every method one atomic step.
- Python's heap compares (priority, ordinal, heap_seq, key). The model compares the first three;
  `ProxyPool.KeyNeverDecides` shows that the key never decides.
- Some Python methods are split into several Dafny methods so that each changes one field.
- A timeout is a choice that a waiting rank may make whenever it found keys missing; polling intervals
  and clocks do not appear.
- The permutation from the seeded generator, device and index types, gate, experts and row functions
  are parameters.
- Torch buffers are allocation numbers, and a captured graph is the list of buffers it receives into.

## Model

| member | source | states |
|---|---|---|
| ProxyHeap.HeapPush | tools/proxy_server.py:283-292 | pushing keeps the heap order and adds exactly the entry |
| ProxyHeap.HeapPop | tools/proxy_server.py:294-303 | popping removes exactly one entry, no greater than any other, and keeps the order |
| ProxyHeap.Heapify | tools/proxy_server.py:305-315 | rebuilding gives a heap with the same entries |
| ProxyPool.KeyNeverDecides | tools/proxy_server.py:283-292 | heap entries that tie on priority, ordinal and sequence number are the same entry |
| ProxyPool.LeastEntryIsLeast | tools/proxy_server.py:294-303 | the server of the least current entry is the one a scan for the least (priority, ordinal) finds |
| ProxyPool.RolePools.PushHeap | tools/proxy_server.py:283-292 | after any change to one server's load or tainting, a push re-establishes the whole index invariant, including the size bound |
| ProxyPool.RolePools.ResetHeap | tools/proxy_server.py:305-315 | a rebuild establishes the index invariant from the servers alone |
| ProxyPool.RolePools.PopValid | tools/proxy_server.py:294-303 | discarding outdated entries ends with the least server of a scan, or with none exactly when the role has no server |
| ProxyPool.RolePools.Pick | tools/proxy_server.py:361-376 | the picked server is the least by scan, and exactly its load is charged; by `ProxyEffects.LightestPrefiller` and `LightestDecoder` that is the lightest one |
| ProxyPool.RolePools.ReleaseLoad | tools/proxy_server.py:378-394 | only the named server's load falls, KV clamped at zero; unknown or missing keys change nothing |
| ProxyPool.RolePools.AddServer | tools/proxy_server.py:317-324 | a new key gets an idle server with the given ordinal; a live key changes nothing |
| ProxyPool.RolePools.Untaint | tools/proxy_server.py:463-473 | the key is un-tainted, and the call fails exactly when no live server has it |
| ProxyPool.RolePools.Taint | tools/proxy_server.py:479-503 | tainting changes priorities only, and the index follows |
| ProxyPool.RolePools.Remove | tools/proxy_server.py:479-503 | removal deletes servers and taints of the keys and nothing else |
| ProxyPool.RolePools.Drain | tools/proxy_server.py:505-518 | draining deletes exactly the tainted servers |
| ProxyScheduler.SharedProxyScheduler.constructor | tools/proxy_server.py:245-258 | the initial state is all listed servers in order, repeated keys once |
| ProxyScheduler.SharedProxyScheduler.AddServerNoLock | tools/proxy_server.py:317-324 | adds under the next ordinal exactly when the key is new |
| ProxyScheduler.SharedProxyScheduler.BeginRequest | tools/proxy_server.py:396-401 | reserves KV on the least prefiller and counts one more request; without prefillers nothing changes |
| ProxyScheduler.SharedProxyScheduler.ReservePrefillKv | tools/proxy_server.py:403-406 | reserves KV on the least prefiller without counting a request |
| ProxyScheduler.SharedProxyScheduler.PickDecoder | tools/proxy_server.py:408-410 | charges tokens to the least decoder |
| ProxyScheduler.SharedProxyScheduler.ReleasePrefillKv | tools/proxy_server.py:412-414 | gives KV back to the prefiller and to nothing else |
| ProxyScheduler.SharedProxyScheduler.ReleaseDecoder | tools/proxy_server.py:416-418 | gives tokens back to the decoder and to nothing else |
| ProxyScheduler.SharedProxyScheduler.FinishRequest | tools/proxy_server.py:420-436 | gives back what the request held and counts one request less, never below zero |
| ProxyScheduler.SharedProxyScheduler.AddInstances | tools/proxy_server.py:442-454 | announced keys wait unless they are live or waiting, and exactly the newly waiting ones are returned, in order |
| ProxyScheduler.SharedProxyScheduler.MarkWaitingRetry | tools/proxy_server.py:456-461 | only a waiting node's retry count changes |
| ProxyScheduler.SharedProxyScheduler.DropWaitingInstance | tools/proxy_server.py:475-477 | the node no longer waits |
| ProxyScheduler.SharedProxyScheduler.ActivateWaitingInstance | tools/proxy_server.py:463-473 | a waiting node goes live or is un-tainted; the call fails exactly when it un-taints a key that is not live, after its partial updates |
| ProxyScheduler.SharedProxyScheduler.RemoveInstances | tools/proxy_server.py:479-503 | with open requests the keys are only tainted; without, they leave pool, taints and waiting list |
| ProxyScheduler.SharedProxyScheduler.FinalizeTaintedInstances | tools/proxy_server.py:505-518 | tainted servers of both roles are deleted, and only when no request is open |
| ProxySpec.LeastIsUnique | tools/proxy_server.py:294-303 | the server a scan finds is unique |
| ProxySpec.LeastExists | tools/proxy_server.py:294-303 | a non-empty pool always has a least server |
| ProxySpec.TaintedIsLast | tools/proxy_server.py:276-281 | no tainted server is picked while an untainted one has a priority below 1e15 |
| ProxyEffects.LightestPrefiller | tools/proxy_server.py:276-303 | whoever starts or restarts a prefill gets, among the untainted prefillers, the one with the least KV load, the first to join among equals; a tainted one only if every untainted KV load times 0.3 reaches 1e15 |
| ProxyEffects.LightestDecoder | tools/proxy_server.py:276-303 | whoever picks a decoder gets, among the untainted ones, the one with the fewest tokens, the first to join among equals; a tainted one only if all untainted ones have 1e15 tokens |
| ProxyEffects.EveryPickIsLightest | tools/proxy_server.py:361-410 | in no run of a freshly started proxy does an untainted server get a request while a lighter untainted one is live |
| ProxyEffects.ReservationIs | tools/proxy_server.py:205-211 | a prefill reserves 120.0745 and 0.0345 for every four bytes of KV on its server, is counted if it is new, and will charge one token per byte; nothing else changes |
| ProxyEffects.PickIs | tools/proxy_server.py:408-410 | a pick charges exactly that to its decoder |
| ProxyEffects.LifeOfRequest | tools/proxy_server.py:944-1207 | an undisturbed request holds KV from its start to its first chunk and tokens from the pick to its end, and then leaves no trace |
| ProxyEffects.ActivationIs | tools/proxy_server.py:463-473 | an activated node no longer waits and is live: idle under the next ordinal, or as it was; its taint is gone; all other servers stay as they are |
| ProxyEffects.DrainIs | tools/proxy_server.py:505-518 | a drain without open requests leaves exactly the untainted servers, as they were, and no taint; otherwise it changes nothing |
| ProxyEffects.RemovalIs | tools/proxy_server.py:479-503 | removed nodes are tainted under traffic, and otherwise gone from servers, taints and waiting nodes |
| ProxyEffects.RemovalSpares | tools/proxy_server.py:479-503 | a removal leaves every other node alone |
| ProxyEffects.AnnouncedAre | tools/proxy_server.py:442-454 | after an announcement exactly the old waiting nodes and the announced ones that are not live wait; the old ones keep their retry counts |
| ProxyEffects.WaitingIs | tools/proxy_server.py:456-477 | a retry changes one count of one waiting node; a node that is given up waits no more; nothing else changes |
| ProxyEffects.StartupOrder | tools/proxy_server.py:245-258 | at startup the listed nodes join idle and are numbered in their order |
| ProxyEffects.LocalNamesAgree | tools/proxy_server.py:214-219 | localhost, 127.0.0.1 and 0.0.0.0 name the same server |
| ProxyProgress.RequestsFindTheirServer | tools/proxy_server.py:294-303 | in every run a new request can go to exactly one prefiller as long as any is live, and a prefilled one to exactly one decoder |
| ProxyProgress.EndsAlone | tools/proxy_server.py:944-1207 | any open request can be ended by at most two calls of its own |
| ProxyProgress.EveryRunCanDrain | tools/proxy_server.py:420-518 | from every state of every run all open requests can be ended; then the request count and all KV loads are zero, and the drain removes every tainted node |
| ProxyAnyRun.TaintsStayLiveIff | tools/proxy_server.py:479-503 | a step keeps only live servers tainted if and only if it is no removal under traffic that names a key which is not live |
| ProxyAnyRun.LiveTaintsIff | tools/proxy_server.py:463-518 | along a run only live servers are ever tainted if and only if it contains no such removal |
| ProxyAnyRun.ActivationNeedsBlindRemoval | tools/proxy_server.py:463-489 | from startup, an activation can fail only after such a removal |
| ProxyWitness.FailingActivationRun | tools/proxy_server.py:463-489 | a reachable state in which an activation fails |
| ProxySpec.TaintingUnknownBlocksActivation | tools/proxy_server.py:463-489 | tainting a key that is not live makes its activation fail and lose the node |
| ProxyRuns.StepKeepsIff | tools/proxy_server.py:944-1119 | a scheduler call of a request or an administrator keeps the books if and only if it is no failed recomputation and no second release of KV from a prefiller that still records some |
| ProxyRuns.ConservedIff | tools/proxy_server.py:361-436 | along any run the loads are the sums of the open reservations in every state if and only if every step is balanced |
| ProxyRuns.RunsStayConsistent | tools/proxy_server.py:361-436 | in every run without a second KV release or a failed recomputation, each KV and token load is the sum of the open reservations on it, and the request count is the number of open requests |
| ProxyRuns.DrainedLoadsAreZero | tools/proxy_server.py:420-436 | while the books balance, every load is exactly zero once no request is open |
| ProxyAnyRun.ClampsIff | tools/proxy_server.py:378-394 | while the books balance, a release exceeds the KV load it reduces, so that the clamp at zero takes effect, if and only if a recomputation releases more than its prefiller still records; the clamp of the request count never takes effect; only a failed recomputation may release more tokens than are recorded |
| ProxyAnyRun.BusyServersStay | tools/proxy_server.py:479-518 | a server leaves a pool only by a removal or a drain, and only in a state without open requests; all it takes is that the request count is right and open requests name live servers |
| ProxyAnyRun.EveryRunKeeps | tools/proxy_server.py:245-518 | in every run of a freshly started proxy, recomputations and their failures included, the request count is the number of open requests, the servers that they name are live, no step removes a server while a request is open, each recorded load is at most what is held, and no KV load is negative: recomputation can only under-count; if every step is balanced, the loads are exactly what is held |
| ProxyAnyRun.DrainedInAnyRun | tools/proxy_server.py:420-436 | in every such run, without open requests KV loads are exactly zero and token loads at most zero |
| ProxyAnyRun.TokensDriftExactly | tools/proxy_server.py:1202-1207 | between removals a decoder under-counts by exactly the loads that failed recomputations released twice |
| ProxyRuns.RequestsLeaveNoTrace | tools/proxy_server.py:1094-1207 | however requests interleave, once those opened since are closed the scheduler is exactly where it was |
| ProxyRuns.AbortRestores | tools/proxy_server.py:944-961 | an aborted prefill selection restores the state before the request, whatever other requests did and undid in between |
| ProxyRuns.RecomputeKeepsIff | tools/proxy_server.py:1040-1059 | recomputing after the first chunk keeps the books balanced if and only if the prefiller, which is live, records no KV load |
| ProxyRuns.FailedRecomputeNeverKeeps | tools/proxy_server.py:1202-1207 | a failed recomputation never leaves the books balanced: the old decoder is released twice |
| ProxyRuns.RecomputationKeeps | tools/proxy_server.py:1040-1059 | a whole reassignment (both releases, new reservation, new pick) keeps the books if the prefiller's recorded KV load is zero |
| ProxyWitness.UnderCountingRun | tools/proxy_server.py:1094-1119 | a state that a freshly started proxy reaches, in which a prefiller records no KV although an open request holds some |
| ProxyWitness.FailedRecomputeRun | tools/proxy_server.py:1202-1207 | a state that a freshly started proxy reaches, without open requests, in which a decoder's tokens are below zero |
| RoutedSchedule.SameTrace | afd_plugin/v1/worker/ffn_routed_experts_model_runner.py:168-185 | the loop makes the transfers of the round-robin coroutines in the same order, for every number of layers and stages |
| RoutedSchedule.FfnForward | afd_plugin/v1/worker/ffn_routed_experts_model_runner.py:174-185 | the loop's calls are that trace, every result goes back with its own context, and nothing stays pending |
| RoutedSchedule.AnsweredOnceInOrder | afd_plugin/v1/worker/ffn_routed_experts_model_runner.py:175-185 | each stage's payloads and answers occur once per layer, in layer order |
| RoutedSchedule.CallsAre | afd_plugin/v1/worker/ffn_routed_experts_model_runner.py:168-185 | which call comes when: first a receive per stage, then layer by layer and stage by stage the answer to the layer before and the next receive, then the last answers; each answer is the expert run of its own payload with its own layer's weights and carries its own context |
| RoutedSchedule.ScheduleNeverSticks | afd_plugin/model_executor/models/deepseek_v2.py:203-213 | the blocking pair of Attention and FFN never sticks and finishes |
| RoutedSchedule.RunsImplyMatching | afd_plugin/v1/worker/ffn_routed_experts_model_runner.py:168-173 | two blocking sides that never stick make matching transfers |
| RoutedSchedule.EagerSticksIff | afd_plugin/v1/worker/ffn_routed_experts_model_runner.py:168-173 | answering each payload at once works if and only if there is at most one stage or no layer |
| Topology.BlockIsSubgroup | afd_plugin/distributed/topology.py:108-162 | `a * F // A` is exactly the index of the block that contains Attention rank `a` |
| Topology.SubgroupBounds | afd_plugin/distributed/topology.py:118-162 | Attention rank `a` belongs to FFN rank `f` if and only if `f/F <= a/A < (f+1)/F` |
| Topology.SubgroupInRange | afd_plugin/distributed/topology.py:118-162 | every Attention rank has an FFN rank |
| Topology.BlocksPartition | afd_plugin/distributed/topology.py:108-115 | the blocks are contiguous, non-empty and cover all Attention ranks |
| Topology.BlocksAreBalanced | afd_plugin/distributed/topology.py:108-115 | block sizes differ by at most one |
| Topology.BuildRankMapping | afd_plugin/distributed/topology.py:118-184 | accepts exactly the ranks in range with A >= F, and gives each its world rank, roster position and metadata receivers |
| Topology.RosterIsSubgroup | afd_plugin/distributed/topology.py:150-170 | a roster's positions are distinct, and it lists exactly the Attention ranks of its block |
| Topology.OneList | afd_plugin/distributed/topology.py:161-170 | for every pair of sizes each FFN rank is on exactly one rank's list of metadata receivers, once |
| Topology.OneMetadataSender | afd_plugin/connectors/gpu/p2p.py:868-925 | exactly one rank passes the senders' gate and lists a given FFN rank, and it is the one that the FFN rank receives from; FFN ranks list nobody |
| TokenCounts.NumTokens | afd_plugin/connectors/gpu/p2p.py:957-980 | a rank always sends at least one row; `TokenCounts.WorkersShareCount` and `OtherCounts` say how many |
| TokenCounts.WorkersShareCount | afd_plugin/connectors/gpu/p2p.py:957-980 | with `tp` workers per data-parallel rank, every worker of rank `d` sends `max(1, counts[d])` rows |
| TokenCounts.OtherCounts | afd_plugin/connectors/gpu/p2p.py:957-980 | counts that cannot be spread evenly are read as they are, and the fallback stands for a missing one |
| TokenCounts.OutsideCounts | afd_plugin/connectors/gpu/p2p.py:957-980 | for a rank that is no Attention rank the fallback stands in |
| TokenCounts.AggregateOfWorkers | afd_plugin/v1/worker/ffn_metadata.py:15-60 | an FFN batch is the sum of its block's counts, each worker having its data-parallel rank's count |
| TokenCounts.FourToTwo | afd_plugin/v1/worker/ffn_metadata.py:15-60 | the documented example of four Attention and two FFN ranks, and one with two workers per rank |
| TokenCounts.AggregateIsSent | afd_plugin/v1/worker/ffn_metadata.py:15-60 | for every count vector an FFN batch is what its block sends |
| TokenCounts.TotalsAgree | afd_plugin/v1/worker/ffn_metadata.py:15-60 | all FFN batches together are all rows that Attention sends |
| TokenCounts.PeerSizes | afd_plugin/connectors/gpu/p2p.py:792-822 | one receive size per Attention peer, and their total |
| TokenCounts.PeerSizesAgree | afd_plugin/connectors/gpu/p2p.py:792-822 | the receive sizes of an FFN rank add up to its aggregated batch |
| P2PDataPath.SendAttnOutput | afd_plugin/connectors/gpu/p2p.py:323-390 | rejects tensors that are not token-aligned and input ids that are not flat 32-bit integers, otherwise appends the tensors in wire order |
| P2PDataPath.DeliveryInPlace | afd_plugin/connectors/gpu/p2p.py:668-687 | with matching optional tensors each tensor lands in the buffer of its kind, and only later messages stay unread |
| P2PDataPath.InPlaceIff | afd_plugin/connectors/gpu/p2p.py:467-515 | two consecutive stages' tensors all land in their buffers if and only if both sides agree on both optional tensors |
| P2PDataPath.MismatchMisplaces | afd_plugin/connectors/gpu/p2p.py:467-515 | with a router-logits mismatch the receive for the next stage's hidden states gets the logits |
| P2PDataPath.RecvAttnOutput | afd_plugin/connectors/gpu/p2p.py:428-552 | joins whatever lands in the receives of each kind and records the posted lengths; if the peers sent what is expected, these are their tensors in peer order and nothing else is read |
| P2PDataPath.SendFfnOutput | afd_plugin/connectors/gpu/p2p.py:554-613 | splits by the recorded lengths, evenly when they do not cover all peers, and rejects what cannot be split |
| P2PDataPath.SplitIsUnique | afd_plugin/connectors/gpu/p2p.py:584-613 | a split is determined by its lengths |
| P2PDataPath.BatchIsLocal | afd_plugin/v1/worker/ffn_model_runner.py:230-271 | computing on the joined batch is computing on each peer's rows |
| P2PDataPath.FfnStep | afd_plugin/v1/worker/ffn_model_runner.py:236-271 | every peer of an FFN rank gets the FFN applied to its own rows |
| P2PForward.ServeStage | afd_plugin/v1/worker/ffn_model_runner.py:230-271 | one stage of one FFN rank: each peer is answered from its own rows, and exactly the later stages stay unread |
| P2PForward.ServeLayer | afd_plugin/v1/worker/ffn_model_runner.py:190-271 | all FFN ranks serve a layer: each Attention rank gets its stages' answers in stage order |
| P2PForward.RecvStages | afd_plugin/connectors/gpu/p2p.py:392-426 | every answer has the rows that its stage declared, so each receive succeeds |
| P2PForward.RemoteForward | afd_plugin/connectors/gpu/p2p.py:323-613 | for all sizes, counts, stages, layers and row-wise functions, every Attention rank ends with the answers that it would have computed itself |
| P2PForward.LocalRow | afd_plugin/v1/worker/ffn_model_runner.py:230-271 | what a rank would compute itself: each row is the layer's function of that row's hidden state, its logits and its input id, all taken from what attention makes of the previous answer |
| FfnMode.AcceptedIff | afd_plugin/async_cam_startup.py:31-55 | plans are accepted if and only if they all say the same and none objects; the mode is the requested one |
| FfnMode.RejectionIs | afd_plugin/async_cam_startup.py:31-55 | which rejection is reported, in terms of the plans: the first that applies of seven causes |
| FfnMode.OrderIsIgnored | afd_plugin/async_cam_startup.py:31-55 | which rank holds which plan does not matter |
| FfnMode.ReasonsAreComplete | afd_plugin/async_cam_startup.py:45-50 | a rejected graph mode lists each rank's reason, and a signature mismatch exactly when plans without errors differ, each once, and nothing else |
| CamStartup.StepKeeps | afd_plugin/async_cam_startup.py:72-163 | every store access of every rank keeps the protocol's invariant |
| CamStartup.RunsKeep | afd_plugin/async_cam_startup.py:82-97 | in every run keys are only added and no plan is rewritten |
| CamStartup.AllHoldTheSame | afd_plugin/async_cam_startup.py:116-153 | all ranks past negotiation hold the same mode, stream choice and warmup layer |
| CamStartup.BarriersAreOrdered | afd_plugin/connectors/npu/async_cam.py:404-476 | a rank that published a stage implies that every rank published every scheduled stage before it |
| CamStartup.DoneMeansAllPassed | afd_plugin/v1/worker/npu/async_ffn_model_runner.py:228-254 | a rank that is done has seen all ranks through all barriers, and a full-graph Attention rank also all service announcements |
| CamStartup.RejectionStopsAll | afd_plugin/async_cam_startup.py:136-156 | a refused outcome lets no rank past negotiation; `CamInputs.RefusalStopsAll` says for which inputs |
| CamInputs.OutcomeIs | afd_plugin/async_cam_startup.py:116-156 | the startup is accepted if and only if no FFN plan objects to the first and, in full mode or with streams, all transports are equal; then mode, streams and warmup layer are those of the first plan |
| CamInputs.RefusalStopsAll | afd_plugin/async_cam_startup.py:116-156 | if a plan objects or the transports that matter differ, no rank agrees, publishes a later stage, announces its service or finishes, in any run |
| CamInputs.AgreementIs | afd_plugin/async_cam_startup.py:116-156 | every rank that agrees has the requested mode, streams exactly with a stream signature, and a warmup layer, the first of the table, exactly in full mode |
| CamInputs.DoneHasSeen | afd_plugin/connectors/npu/async_cam.py:404-476 | a rank that is done has seen every plan, with a stream signature every stream check, and in full mode every graph check, warmup, capture and (Attention) service key |
| CamInputs.OnlyNeededBarriers | afd_plugin/connectors/npu/async_cam.py:404-476 | the stream barrier occurs only with a stream signature, and the other three only in full mode |
| CamInputs.StagesComeInOrder | afd_plugin/connectors/npu/async_cam.py:404-476 | plans, stream check, graph check, warmup, capture: no rank publishes one before all ranks have published the one before it |
| CamStartup.ErrorStopsEveryWait | afd_plugin/async_cam_startup.py:89-110 | once an error key exists, no wait iteration that starts later ever passes |
| CamProgress.SomeoneAdvances | afd_plugin/async_cam_startup.py:99-114 | without a failure some rank can always go on until all are done |
| CamProgress.EveryoneCanFinish | afd_plugin/connectors/npu/async_cam.py:455-479 | with accepted plans and no failure every rank can still reach the end |
| CamProgress.CalmRunsNeverFail | afd_plugin/async_cam_startup.py:72-163 | with accepted plans, a run in which no rank aborts or gives up never fails |
| CamProgress.SplitIff | afd_plugin/async_cam_startup.py:99-110 | some run ends one rank and fails another if and only if the plans are accepted and there are at least two ranks |
| CamProgress.AnyPairCanSplit | afd_plugin/async_cam_startup.py:99-110 | with accepted plans any rank can time out although any other, given FFN rank finishes |
| CamProgress.OnePassesOneTimesOut | afd_plugin/async_cam_startup.py:99-110 | an instance: two eager ranks, one done and one timed out |
| CamFailure.EveryWaitEnds | afd_plugin/async_cam_startup.py:89-110 | once an error key exists, a waiting rank gets out of its wait within the current polling iteration or the next |
| CamFailure.FailureStopsEveryone | afd_plugin/async_cam_startup.py:72-163 | after a reported failure every run of `n` ranks has at most `n * (12 * n + 61)` steps, and it is at its end if and only if every rank is done or failed |
| CamFailure.LateRanksFail | afd_plugin/async_cam_startup.py:89-110 | of these, a rank that had not looked at the error key in its current iteration ends failed |
| CamFailure.FailuresAreReported | afd_plugin/async_cam_startup.py:89-110 | no failure is silent: a failed Attention rank has written its error key, and a failed FFN rank has too or stopped for the key of another |
| StartupChunks.ValidatedCapacity | afd_plugin/validation.py:79-87 | validated capacities make the chunk divisor positive, and a chunk never exceeds the capacity |
| StartupChunks.CapacityIsValidIff | afd_plugin/validation.py:79-87 | accepted are exactly the envelopes that are positive, a multiple of TP, at most 65535 rows per TP rank and within the capacity |
| StartupChunks.LocalExpertsAre | afd_plugin/connectors/npu/async_cam.py:445-451 | a rank's startup experts are those of its own below `topk` |
| StartupChunks.SharesAddUp | afd_plugin/connectors/npu/async_cam.py:445-451 | the shares of the ranks add up to `topk`, or to all experts if there are fewer |
| StartupChunks.EveryStartupExpertIsServed | afd_plugin/connectors/npu/async_cam.py:1020-1031 | with experts spread evenly and `topk` at most their number, the shares add up to `topk` |
| StartupChunks.ChunksAreLeast | afd_plugin/connectors/npu/async_cam.py:443-453 | the chunk count is the least positive number of chunks that covers the rank's experts |
| GraphKeys.SortedAscends | afd_plugin/v1/worker/cuda_graph.py:114-133 | stages enter the key in ascending order |
| GraphKeys.MakeFfnGraphKey | afd_plugin/v1/worker/cuda_graph.py:104-133 | the key lists every stage once with its counts |
| GraphKeys.EqualKeys | afd_plugin/v1/worker/cuda_graph.py:104-133 | keys are equal if and only if stages and counts are, so equal keys mean equal peer shapes |
| FfnGraphRunner.FfnModelRunner.UpdateState | afd_plugin/connectors/gpu/p2p.py:759-866 | sets one receive slot per stage and peer; buffers are allocated only when capturing, and only missing ones |
| FfnGraphRunner.SlotRows | afd_plugin/connectors/gpu/p2p.py:792-822 | the slot of peer `src` is that of Attention rank `BlockStart + src - 1` and has `max(1, counts[d])` rows for its data-parallel rank `d` |
| FfnGraphRunner.FfnModelRunner.RecvAttnOutput | afd_plugin/connectors/gpu/p2p.py:467-480 | a receive uses the cached buffer of its slot if there is one, else a fresh one of the slot's size |
| FfnGraphRunner.FfnModelRunner.FfnForward | afd_plugin/v1/worker/ffn_model_runner.py:190-271 | receives layer by layer, stage by stage, peer by peer |
| FfnGraphRunner.StageSlotsAt | afd_plugin/connectors/gpu/p2p.py:428-480 | within a layer the receives are stage by stage, and within a stage one per peer, in roster order |
| FfnGraphRunner.ReceiveAt | afd_plugin/v1/worker/ffn_model_runner.py:190-271 | every layer makes the same receives, and there are no others |
| FfnGraphRunner.FfnModelRunner.ExecuteModel | afd_plugin/v1/worker/ffn_model_runner.py:153-188 | replays a captured graph or runs eagerly, as the flags and the cache say |
| FfnGraphRunner.FfnModelRunner.CaptureModel | afd_plugin/v1/worker/ffn_model_runner.py:337-424 | without graphs nothing happens; a warmup leaves the graph cache alone; a capture stores the buffers it received into under the payload's key |
| FfnGraphRunner.FfnModelRunner.HandlePayload | afd_plugin/v1/worker/ffn_worker.py:199-218 | dispatches each payload to capture or execution and keeps the runner's invariant; it fails exactly without stages |
| FfnGraphRunner.StepKeeps | afd_plugin/v1/worker/ffn_model_runner.py:337-424 | every handled payload keeps all graphs bound to cached buffers, one slot each |
| FfnGraphRunner.GraphsStayBound | afd_plugin/connectors/gpu/p2p.py:832-855 | a captured graph stays bound to the buffers of its first capture, whatever is handled later |
| FfnGraphRunner.ReplaysIff | afd_plugin/v1/worker/ffn_model_runner.py:163-188 | the FFN replays if and only if a replay is asked for and the same counts were captured before |
| FfnGraphRunner.ReplayWritesWhatWasCaptured | afd_plugin/v1/worker/ffn_model_runner.py:175-177 | a replay writes into the buffers of its capture, and each has the rows its peer sends |
| FfnGraphRunner.CacheIsWhatWasCaptured | afd_plugin/connectors/gpu/p2p.py:844-855 | the buffer cache holds exactly the slots of captured payloads: no other step adds one |
| CaptureEvents.CaptureEventTracker.constructor | afd_plugin/v1/worker/attention_model_runner_v2.py:62-69 | one warmup and then one capture are expected per descriptor |
| CaptureEvents.CaptureEventTracker.Consume | afd_plugin/v1/worker/attention_model_runner_v2.py:71-93 | accepts exactly the expected descriptor and advances even on drift; an extra call is an error |
| CaptureEvents.CaptureModel | afd_plugin/v1/worker/attention_model_runner_v2.py:568-611 | capture succeeds if and only if the preparations pair up with the descriptors, and publishes one warmup and one capture payload each, in order |
| CaptureEvents.PublishedAre | afd_plugin/v1/worker/attention_metadata.py:177-206 | payload `k` is the warmup (even) or capture (odd) of descriptor `k / 2`; a single stage carries that descriptor's token count for every data-parallel rank |
| CaptureEvents.ReplayIs | afd_plugin/v1/worker/attention_metadata.py:177-206 | so does a replay |
| CaptureEvents.SameKeyIff | afd_plugin/v1/worker/cuda_graph.py:104-133 | single-stage payloads share a graph if and only if their token counts are equal |
| CaptureEvents.ReplayNeverFallsBack | afd_plugin/v1/worker/attention_model_runner_v2.py:288-319 | after a completed capture every later single-stage replay of a captured descriptor is a replay on the FFN, into the buffers of its capture, and each buffer has the descriptor's rows (one at least) |
| Camp2p.PhysicalPayload | afd_plugin/connectors/npu/camp2p.py:808-825 | a payload is left alone for one group member or one stage; otherwise every stage gets its physical counts or the call fails |
| Camp2p.PhysicalIsLeastCover | afd_plugin/connectors/npu/camp2p.py:813-824 | the physical counts dominate the real ones, are constant on each strided group, and are the least such |
| Camp2p.WideAt | afd_plugin/connectors/npu/camp2p.py:813-824 | before taking maxima each rank has the count of its data-parallel rank |
| Camp2p.PhysicalIsFixed | afd_plugin/connectors/npu/camp2p.py:808-825 | the physical counts are a fixed point |
| Camp2p.BatchIsGroup | afd_plugin/connectors/npu/camp2p.py:910-954 | the batch of FFN rank `f` is what Attention ranks `f`, `f + F`, ... hold together, each its data-parallel rank's count, and at least one |
| Camp2p.BatchOfTwoByTwo | afd_plugin/connectors/npu/camp2p.py:910-954 | an instance: with two workers for each of two data-parallel ranks, either of two FFN ranks serves one of each |
| Camp2p.BatchIsSentIff | afd_plugin/connectors/npu/camp2p.py:937-1039 | padding always succeeds, and the FFN batch equals the padded sends of its group if and only if some rank of the group has a token |
| Camp2p.EmptyGroupIsMiscounted | afd_plugin/connectors/npu/camp2p.py:937-1039 | an instance: a group without tokens is counted as one row and sends none |
| TpSlicing.RowOfSlice | afd_plugin/model_executor/models/deepseek_v2.py:138-146 | a slice row that is a real token keeps its experts; a padding row is zero and all its experts are -1 |
| TpSlicing.OneOwner | afd_plugin/model_executor/models/deepseek_v2.py:161-167 | every real token is in exactly one place of exactly one rank's slice |
| TpSlicing.SliceIsLeast | afd_plugin/model_executor/models/deepseek_v2.py:161-167 | slices are no longer than it takes to cover the rows |
| TpSlicing.ForwardIsSliced | afd_plugin/model_executor/models/deepseek_v2.py:178-201 | with several TP ranks every token's row comes from the rank whose slice it is in |
| TpSlicing.SlicingIsInvisible | afd_plugin/model_executor/models/deepseek_v2.py:178-201 | slicing, gathering and truncating gives the unsliced row-wise result |
| BalancedRouting.CycleListsPool | afd_plugin/model_executor/routing_simulator.py:66-96 | for every accepted configuration the cycle lists the same pool, each expert once, with the same number of experts per rank; `BalancedRouting.IdsAre` says in which order |
| BalancedRouting.ConfigIsAcceptedIff | afd_plugin/model_executor/routing_simulator.py:46-64 | accepted are exactly the configurations with experts spread evenly over ranks, a rank in range, and a pool that holds a token's experts |
| BalancedRouting.IdsAre | afd_plugin/model_executor/routing_simulator.py:66-112 | each id written out: the next of the shuffled experts, or of the first experts of every rank, moved on by the source rank's share |
| BalancedRanks.RanksRotate | afd_plugin/model_executor/routing_simulator.py:95-112 | for the same token and place all source ranks choose the same offset on a rank that is as far on from them |
| BalancedRanks.EveryRankOnce | afd_plugin/model_executor/routing_simulator.py:95-112 | so for each place exactly one source rank chooses each rank |
| BalancedRanks.RanksAreBalanced | afd_plugin/model_executor/routing_simulator.py:95-119 | with equally many tokens on all source ranks, all ranks get equally many picks, at every moment |
| BalancedRouting.IdAt | afd_plugin/model_executor/routing_simulator.py:99-112 | tokens take their experts in turn from the cycle, however many are built |
| BalancedRouting.TokenExpertsDiffer | afd_plugin/model_executor/routing_simulator.py:99-112 | a token's experts are distinct members of the pool |
| BalancedRouting.LoadsAreBalanced | afd_plugin/model_executor/routing_simulator.py:99-119 | over any number of tokens the loads of the pool's experts differ by at most one, and no other expert is used |
| BalancedRouting.WeightsAreNormalized | afd_plugin/model_executor/routing_simulator.py:113-118 | a token's weights are uniform and add up to one |
| BalancedRouting.PrefixIsFresh | afd_plugin/model_executor/routing_simulator.py:149-163 | the first tokens of a larger table are the table of fewer tokens |
| BalancedRouting.BalancedRoutingStrategy.RouteTokens | afd_plugin/model_executor/routing_simulator.py:134-163 | whatever was routed before, the result is that of a fresh build |
| Json.ParsePrint | afd_plugin/connectors/metadata.py:406-413 | reading written compact JSON gives back the value |
| ControlCodec.EncodeControlPayload | afd_plugin/connectors/metadata.py:382-408 | filling the objects in any order of the dictionary gives the same bytes, those of the encoding that decoding inverts |
| SortedJson.SortsTo | afd_plugin/connectors/metadata.py:406-408 | fields with different names are written in one order, whatever order they were filled in |
| ControlCodec.KeysAreSorted | afd_plugin/connectors/metadata.py:406-408 | every object is written with its keys in text order, stage keys included |
| ControlCodec.DecodeEncode | afd_plugin/connectors/metadata.py:382-435 | decoding an encoded payload returns its stages, counts, maxima and flags |
| ControlCodec.RoundTripIff | afd_plugin/connectors/metadata.py:382-435 | decoding an encoded payload returns it if and only if all counts fit 32 bits; otherwise decoding fails |
| ControlCodec.PayloadText | afd_plugin/connectors/metadata.py:382-408 | the bytes of a payload with one stage and two ranks, field by field |
| ControlCodec.AbsentFlagsAreOff | afd_plugin/connectors/metadata.py:429-435 | flags that the sender left out are off |
| ControlCodec.EncodeIsInjective | afd_plugin/connectors/metadata.py:382-408 | different payloads are never written the same |

## Left out

- The proxy's HTTP handlers, clients, manager bridge, argument parsing, snapshots, health checks and logging: only the order of scheduler calls per request is kept.
- Task cancellation, and a missing client between the decoder pick and the start of streaming: no clean-up runs there, so conservation is stated for requests that reach their clean-up.
- The branch of the heap pop for an entry whose server is gone: removals rebuild the heap, so no such entry exists.
- Float rounding of loads and scores.
- NCCL, HCCL, CANN kernels, streams and bindings: channels are FIFO, rows and buffers abstract, and reuse of freed memory does not appear.
- The wait queue inside a blocking transfer, and several FFN ranks per stage in the routed-experts schedule: one pair of blocking sides is modelled.
- P2PDataPath.RecvAttnOutput: what the transport does when a message and its buffer differ in size is not modelled; the mismatched rows are taken as they were sent.
- P2PForward.RemoteForward: batches each layer's sends before its receives; `RoutedSchedule` treats the interleaving of blocking transfers.
- FfnGraphRunner.FfnModelRunner.UpdateState: does not model the input-id buffer cache, which eager steps also fill and which no growth bound covers.
- FfnGraphRunner.FfnModelRunner.FfnForward: the per-stage forward context and its projection to data-parallel counts are left out, because they leave no buffer behind.
- CaptureEvents.ReplayNeverFallsBack: covers single-stage descriptors; the counts of several micro-batches come from native slices, and `FfnGraphRunner.ReplaysIff` says when those replay.
- The graph-key variant with aggregated counts: no caller passes the sizes it needs.
- GraphKeys.MakeFfnGraphKey: metadata without counts, whose key is its printed form, is not modelled.
- CamStartup: the store is new and has one nonce, and its values are written and read as values rather than JSON text; a rank reads all plans in one step, since no plan is ever rewritten.
- CamStartup: an FFN rank may publish its error text twice; the second, equal write is not modelled.
- CamStartup: device warmup and capture are local work that may fail at any time; the transfers they make are not modelled.
- The float rounding of the CAM receive capacity: the capacity is a parameter.
- BalancedRouting.BalancedRoutingStrategy.RouteTokens: conversion of expert ids to the index type is not modelled.
- ControlCodec.DecodeEncode: is stated for counts and maxima of 32 bits, which both sides' tensors hold (`RoundTripIff` has the others); general JSON (escapes, floats, null, white space, repeated keys) is outside the subset.
- Camp2p.PhysicalIsLeastCover: needs A to be a multiple of F and the count list to divide A; otherwise the reshape decides, and `PhysicalPayload` says when it fails.
- The NPU and DeepEP connectors beyond the parts above, model construction, weight loading, patches of vLLM, configuration parsing, validators, profilers and tools.
