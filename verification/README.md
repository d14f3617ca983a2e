# SimAI, modelled in Dafny

Models of seven parts of SimAI and proofs about them.  Every part has a state or a meaning of its own, a model of the code
(functions over values, and classes with methods for the code that updates objects in place, proved to do what the
functions say), and theorems about all inputs and all runs.

| part | files |
|---|---|
| 1F1B pipeline schedule: the programs of the stages, and running all of them with synchronous transfers | `Pipeline`, `PipelineRun`, `PipelineFlow` |
| LogGP bus: two partner state machines that yield to each other | `LogGPModel`, `LogGPSafety`, `LogGPRoute`, `LogGPOrder`, `LogGP` |
| ZeRO-3 gather, prefetch and partition machine | `Zero3Model`, `Zero3Safety`, `Zero3Results`, `Zero3Messages`, `Zero3Persistent`, `Zero3` |
| ZeRO-1/2 buckets and gradient ranges | `Zero2Model`, `Zero2Safety`, `Zero2Run`, `Zero2Tiling`, `Zero2Messages`, `Zero2` |
| Rank groups in mixed radix, and the groups of the applyer | `Radix`, `RankGroups`, `ParallelGroups`, `ExpertPartition` |
| Node scheduler and event core: event queue, send serialization, stream queues, collectives, dimension split | `EventQueueModel`, `EventQueue`, `PendingSends`, `StreamModel`, `StreamSafety`, `StreamScheduler`, `StreamPhases`, `DataSets`, `DataSetRuns`, `Collective`, `BreakDimension` |
| Usage sweep and trace filter | `UsageSweep`, `TraceFilterModel`, `TraceFilterGrammar`, `TraceFilterResults`, `TraceFilterMeaning`, `TraceFilterNumbers`, `TraceFilter` |

`Options` holds the option type.  `dafny verify dfyconfig.toml` checks everything.

## How to read it

- A class method's contract names a function of the old state (`ensures View() == Flush(cfg, old(View()))`); the theorems
  are lemmas about those functions and about runs of them.
- Runs are sequences of steps in any order the environment may choose: stages that advance at different speeds, bus
  events delivered in any order, registrations and wake-ups, backward passes and steps, streams that end their phases.
- History fields (the merged ranges reduced so far, how often a parameter was gathered, what has happened to a request, what
  was registered and called) are never read by the modelled code.
- Products and quotients of variables go through `Radix.Mul`, `Radix.Div` and `Radix.Mod`, so that proofs use them through
  named lemmas.

## What the proofs turned up

- **Nested bus call.** A side of the LogGP bus that yields never finds its partner free with both sides waiting, so the
  nested call at `LogGP.cc:309-310` (and at `LogGP.cc:98-99`) is never made (`LogGPSafety.ProceedSettles`).
- **Merged reduces.** With `contiguous_gradients`, when the whole buffer is in one slice, every backward pass that
  starts while the bucket is not empty and the last parameter still fits loses the whole buffer from the reduces; the
  printed warning is exact about it
  (`Zero2Run.NothingMissing`, `Zero2Safety.WarnsIffLost`, `Zero2Run.WrapLoses`).
- **Negative reduces.** A merged range that is joined over that wrap ends before it starts when the bucket lacks the middle of
  the buffer, and the reduce gets a negative size (`Zero2Messages.NegativeReduce`).
- **Chunk loop.** A collective of fewer bytes than `preferred_dataset_splits`, but more than none, has chunks of no bytes,
  and when some dimension takes part its loop never ends (`Collective.LoopEnds`).  In the hierarchical all-reduce the loop that goes back to an active
  dimension never runs (`Collective.HierarchicalPhases`).
- **Empty collective.** A collective of no bytes makes no streams, and its data set never turns finished
  (`DataSets.TimesIs`).
- **Expert groups.** When the expert size does not divide the data-parallel size, some ranks of the world are in no group of
  the order with the expert dimension (`ExpertPartition.ExpertPartitionIff`).
- **Printed filters.** The text that a filter prints for itself holds offsets, and its own parser never accepts it
  (`TraceFilterResults.PrintedRefused`).  An expression with an unknown field or a bad shorthand leaves a filter that passes
  every record (`TraceFilterMeaning.FilterMeans`).
- **Dimension split.** When a dimension is split for a model-parallel group, two floor divisions decide its parts: the group
  and the number of nodes are kept only under the two divisibility conditions of `BreakDimension.GroupHolds`.
- **Usage report.** `report_percentage` takes the level down and up again to record the present interval; an idle tracker has
  nothing to take down and is left at level 1 (`UsageSweep.UsageTracker.ReportPercentage`).
- **Wake-ups.** The early exit of `call_events` for a tick without a list is never taken by a scheduled wake-up
  (`EventQueueModel.FindsList`).

## Model

| member | source | states |
|---|---|---|
| `Pipeline.MegatronWorkload.WithPipelineForwardBackward` | aicb/workload_generator/generate_megatron_workload.py:128-329 | what one rank appends to the workload is the three-phase program of the stage that its rank number gives, and nothing else changes |
| `Pipeline.MegatronWorkload.WarmupItems` | aicb/workload_generator/generate_megatron_workload.py:144-194 | the warm-up loop appends the first min(P-r-1, M) forwards with their transfers |
| `Pipeline.MegatronWorkload.SteadyItems` | aicb/workload_generator/generate_megatron_workload.py:196-298 | the receive before the steady state and its loop append one forward and one backward a microbatch, each with its two transfers |
| `Pipeline.MegatronWorkload.CooldownItems` | aicb/workload_generator/generate_megatron_workload.py:300-329 | the cool-down loop completes the program with one backward for every warm-up forward |
| `Pipeline.ProgramShape` | aicb/workload_generator/generate_megatron_workload.py:136-329 | for all P, M and r: every transfer occurs M times on each link the stage has and not on others, timestamps increase along the program, and forwards less backwards stay between 0 and min(P-r, M) |
| `Pipeline.StampsIncrease` | aicb/workload_generator/generate_megatron_workload.py:144-329 | of two transfers of one program the later one has the greater global timestamp, also when there are fewer microbatches than stages |
| `Pipeline.ActivationBound` | aicb/workload_generator/generate_megatron_workload.py:136-329 | in every prefix of a program forwards less backwards lie between 0 and the bound of its stage |
| `Pipeline.LinkDuality` | aicb/workload_generator/generate_megatron_workload.py:144-329 | what stage r does on its link to r+1 is, operation by operation and in order, the dual of what stage r+1 does on it |
| `PipelineFlow.ComputesReceived` | aicb/workload_generator/generate_megatron_workload.py:144-329 | in every prefix of every program: an activation is received before its forward pass and sent on after it, a gradient is received before its backward pass and sent back after it, and at most one of either waits |
| `PipelineFlow.OneForwardOneBackward` | aicb/workload_generator/generate_megatron_workload.py:136-329 | backward pass k of stage r comes after exactly its first min(P-r+k, M) forward passes; each forward pass comes right after its two broadcasts, and there are no others |
| `PipelineFlow.PassesInOrder` | aicb/workload_applyer.py:207-258 | at every moment of every run a stage has done no more forward passes than any stage before it and no more backward passes than any stage after it |
| `PipelineRun.RunKeepsBalance` | aicb/workload_applyer.py:207-258 | in every run of all stages, each transfer waited for, the two ends of every link have executed equally many operations of each kind |
| `PipelineRun.TransfersMatch` | aicb/workload_applyer.py:207-258 | a transfer that happens joins the k-th send with the k-th receive of that direction, with equal sizes |
| `PipelineRun.Progress` | aicb/workload_applyer.py:207-258 | in a balanced state that is not finished some stage can go on; the witness is the transfer with the least timestamp |
| `PipelineRun.RunBounded` | aicb/workload_applyer.py:207-258 | a run is no longer than the items that are left |
| `PipelineRun.DeadlockFree` | aicb/workload_applyer.py:207-258 | for all P and M: every run is finite, and one that cannot continue has every stage at the end of its program |
| `PipelineRun.Completable` | aicb/workload_applyer.py:207-258 | every balanced state, so every reachable one, can be run to completion |
| `PipelineRun.ActivationsHeld` | aicb/workload_generator/generate_megatron_workload.py:136-140 | at any moment of any run stage r holds at most min(P-r, M) activations |
| `PipelineRun.AllDelivered` | aicb/workload_applyer.py:207-258 | when all stages are done every link has carried each activation and each gradient once |
| `LogGP.LogGP.RequestRead` | astra-sim-alibabacloud/astra-sim/system/LogGP.cc:80-106 | a request changes the bus exactly as the model says: memory, yield test and first send included |
| `LogGP.LogGP.ProcessNextRead` | astra-sim-alibabacloud/astra-sim/system/LogGP.cc:60-79 | the first waiting request leaves `sends` and crosses the bus, with the busy-run counter and one send event |
| `LogGP.LogGP.SwitchToReceiver` | astra-sim-alibabacloud/astra-sim/system/LogGP.cc:107-118 | the partner queues the request and gets one receive event |
| `LogGP.LogGP.OnRecFinished` | astra-sim-alibabacloud/astra-sim/system/LogGP.cc:125-208 | the end of a transfer moves the request to processing, back to `sends`, to memory or out, and the free side resumes |
| `LogGP.LogGP.OnProcessingFinished` | astra-sim-alibabacloud/astra-sim/system/LogGP.cc:209-269 | the end of processing moves the request on and starts the next one, which alone keeps the processing slot busy |
| `LogGP.LogGP.OnMemDone` | astra-sim-alibabacloud/astra-sim/system/LogGP.cc:270-304 | a request that returns from memory is taken from the list it waits in and goes on as its call event says |
| `LogGP.LogGP.Proceed` | astra-sim-alibabacloud/astra-sim/system/LogGP.cc:305-316 | the tail of every call: a free side sends unless it yields to its partner |
| `LogGP.LogGP.Call` | astra-sim-alibabacloud/astra-sim/system/LogGP.cc:119-317 | the event handler does for each of its events what the model says |
| `LogGP.LogGP.MemReturned` | astra-sim-alibabacloud/astra-sim/system/MemMovRequest.cc:37-51 | the callback of memory hands the request back to its own side, at its own place |
| `LogGP.MemBus.SendFromNpuToMa` | astra-sim-alibabacloud/astra-sim/system/MemBus.cc:38-46 | on the shared bus the request goes to the NPU side |
| `LogGP.MemBus.SendFromMaToNpu` | astra-sim-alibabacloud/astra-sim/system/MemBus.cc:63-74 | on the shared bus the request goes to the MA side |
| `LogGP.MemBus.RunToIdle` | astra-sim-alibabacloud/astra-sim/system/LogGP.cc:119-317 | handling outstanding events in any order ends, with both sides empty and every request completed once |
| `LogGPSafety.ProceedSettles` | astra-sim-alibabacloud/astra-sim/system/LogGP.cc:305-316 | the nested call on a partner that is free is never made, and every call ends with the yield rule restored |
| `LogGPSafety.DeliverKeeps` | astra-sim-alibabacloud/astra-sim/system/LogGP.cc:119-317 | delivering any outstanding event keeps the invariant of both sides and uses up work |
| `LogGPSafety.RequestKeeps` | astra-sim-alibabacloud/astra-sim/system/LogGP.cc:80-106 | a request of either client keeps the invariant of both sides |
| `LogGPSafety.HandleAny` | astra-sim-alibabacloud/astra-sim/system/LogGP.cc:125-304 | in every state of the invariant any outstanding event finds what it needs: the lists it takes from are not empty |
| `LogGPSafety.Reachable` | astra-sim-alibabacloud/astra-sim/system/MemBus.cc:15-37 | every state of every run of requests and events, in any order, satisfies the invariant, with or without memory on either side |
| `LogGPSafety.NeverStalls` | astra-sim-alibabacloud/astra-sim/system/LogGP.cc:60-118 | in every reachable state a free side with waiting requests has a partner that is not free and has waiting requests too; when no event is outstanding all lists of both sides are empty and every request has been completed once |
| `LogGPSafety.ExactlyOnce` | astra-sim-alibabacloud/astra-sim/system/LogGP.cc:80-304 | every accepted request is at exactly one place or completed, once; it crosses at most twice, and when completed it has crossed and been processed exactly as often as asked |
| `LogGPRoute.Journeys` | astra-sim-alibabacloud/astra-sim/system/LogGP.cc:80-304 | in every reachable state what has happened to a request is a beginning of its journey, and all of it when it is completed or no event is outstanding: fetched from memory where a side has one, queued and sent by the side of its client, received by the other side and processed there if asked for, sent back if asked for, and completed at the side of the client when sent back and at the other side otherwise |
| `LogGPOrder.FirstInFirstOut` | astra-sim-alibabacloud/astra-sim/system/LogGP.cc:60-317 | in every reachable state: a side sends what was queued, its partner receives what was sent, and a side processes what was ready, each in the order of arrival |
| `LogGPOrder.Turns` | astra-sim-alibabacloud/astra-sim/system/LogGP.cc:305-316 | from any reachable state a side starts its eleventh transfer in a row, or a later one, only when its partner has nothing to send or is itself past the threshold |
| `LogGPOrder.BusyRun` | astra-sim-alibabacloud/astra-sim/system/LogGP.cc:107-124 | the counter of a side is how many of its transfers have ended since its partner last started one |
| `LogGPOrder.LineState` | astra-sim-alibabacloud/astra-sim/system/LogGP.cc:107-134 | a side is sending when it starts a transfer, receiving when its partner does, free when a transfer of its own or the last of its receptions ends, and unchanged otherwise |
| `LogGPSafety.EventsMatch` | astra-sim-alibabacloud/astra-sim/system/LogGP.cc:107-304 | in every reachable state the outstanding receive events of a side are as many as its received requests, there is exactly one processing event while a request is being processed and none otherwise, a side that is not free has an event of its own outstanding, and every request at memory has its callback |
| `LogGPSafety.Drains` | astra-sim-alibabacloud/astra-sim/system/LogGP.cc:119-317 | without new requests every run is bounded by the work left at its start; it can go on with any outstanding event, and when there is none both sides are empty and every request has been completed once |
| `Zero3Safety.MemoryAccounting` | aicb/workload_generator/generate_deepspeed_stage3_workload.py:162-233 | in every run of phases in any order, persistent parameters included, the live counter is the size of the gathered parameters and the all-gather messages add up to the gathers |
| `Zero3Safety.UseKeeps` | aicb/workload_generator/generate_deepspeed_stage3_workload.py:178-233 | one use of one parameter keeps the window, the accounting and the peak bound |
| `Zero3Results.SlidingWindow` | aicb/workload_generator/generate_deepspeed_stage3_workload.py:178-242 | without persistent parameters: before use k of a pass the queue stands at some entry q, and exactly the parameters of entries k to q-1 are gathered |
| `Zero3Results.Alignment` | aicb/workload_generator/generate_deepspeed_stage3_workload.py:180-189 | the entry popped for a parameter's own use is that use, so the mismatch warning is unreachable |
| `Zero3Results.PassTraffic` | aicb/workload_generator/generate_deepspeed_stage3_workload.py:235-269 | a forward and a backward pass gather each parameter once or twice, whatever the limits, and leave nothing live |
| `Zero3Results.StepKeeps` | aicb/workload_generator/generate_deepspeed_stage3_workload.py:271-308 | a step keeps the state a pass may start in and gathers nothing |
| `Zero3Results.PassesKeep` | aicb/workload_generator/workload_generator.py:38-40 | m passes gather each parameter at least m and at most 2m times and end where a pass may start |
| `Zero3Results.EpochsKeep` | aicb/workload_generator/workload_generator.py:33-42 | a whole run of e epochs of m passes: each parameter is gathered between e*m and 2*e*m times, and no warning is printed |
| `Zero3Results.PeakMemory` | aicb/workload_generator/generate_deepspeed_stage3_workload.py:162-233 | at every use of every pass of a run the live elements, now and at their peak, are below the limit plus the largest parameter |
| `Zero3Results.ReduceTraffic` | aicb/workload_generator/generate_deepspeed_stage3_workload.py:244-282 | with two-byte elements, and for any persistent set, the reduce-scatters between two steps carry two bytes for every element and backward pass |
| `Zero3Messages.GatherTakes` | aicb/workload_generator/generate_deepspeed_stage3_workload.py:178-219 | for any limits and persistent set: a use takes its own entry if its parameter is not gathered, and then entries exactly until none is left, or the message has reached the prefetch size, or the live elements their limit; all that was not gathered goes into one message |
| `Zero3Messages.RunMessages` | aicb/workload_generator/generate_deepspeed_stage3_workload.py:162-308 | in every run, with two-byte elements: an all-gather is of one parameter or of fewer elements than the prefetch size and the largest parameter together; a reduce-scatter is within the bucket size, or of one parameter, or empty |
| `Zero3Messages.SendsWhenFull` | aicb/workload_generator/generate_deepspeed_stage3_workload.py:244-257 | a use sends the reduce bucket, all of it, if and only if it is of the backward pass and its gradient does not fit any more |
| `Zero3Persistent.StepGathers` | aicb/workload_generator/generate_deepspeed_stage3_workload.py:303-308 | after a step exactly the persistent parameters are gathered |
| `Zero3Persistent.PersistentHeld` | aicb/workload_generator/generate_deepspeed_stage3_workload.py:227-233 | while the queue lasts a persistent parameter stays gathered |
| `Zero3Persistent.UsedReleased` | aicb/workload_generator/generate_deepspeed_stage3_workload.py:222-226 | with no queue left the parameter in use is released, persistent or not |
| `Zero3Persistent.RunChecks` | aicb/workload_generator/generate_deepspeed_stage3_workload.py:284-301 | in every run there are two all-reduces a step, of one and of eight bytes, and no others |
| `Zero3.DeepSpeedStage3.GatherParamDirectly` | aicb/workload_generator/generate_deepspeed_stage3_workload.py:162-176 | gathers a parameter that is not gathered, with one message, and counts it live |
| `Zero3.DeepSpeedStage3.GatherParamPrefetch` | aicb/workload_generator/generate_deepspeed_stage3_workload.py:178-219 | pops the parameter's own entry, prefetches while the two limits allow, and sends one message for all of it |
| `Zero3.DeepSpeedStage3.PartitionParam` | aicb/workload_generator/generate_deepspeed_stage3_workload.py:221-233 | releases a parameter unless it is persistent or was fetched for a later use |
| `Zero3.DeepSpeedStage3.ReduceParamWithBucket` | aicb/workload_generator/generate_deepspeed_stage3_workload.py:244-257 | adds to the bucket, or sends it first when the parameter does not fit |
| `Zero3.DeepSpeedStage3.Forward` | aicb/workload_generator/generate_deepspeed_stage3_workload.py:235-242 | uses every parameter in order, as the model's pass does |
| `Zero3.DeepSpeedStage3.Backward` | aicb/workload_generator/generate_deepspeed_stage3_workload.py:259-269 | uses every parameter in the opposite order and reduces its gradient |
| `Zero3.DeepSpeedStage3.Step` | aicb/workload_generator/generate_deepspeed_stage3_workload.py:271-308 | flushes the bucket and starts the next pass afresh |
| `Zero3.DeepSpeedStage3.Run` | aicb/workload_generator/workload_generator.py:28-43 | the generator's run is the model's run |
| `RankGroups.DecomposeChecks` | aicb/utils/utils.py:97-115 | the assertion in `decompose` holds exactly for indices below the product of the shape, and then gives the digits |
| `RankGroups.PrefixProduct` | aicb/utils/utils.py:87-92 | the loop computes the prefix products |
| `RankGroups.GenerateMaskedOrthogonalRankGroups` | aicb/utils/utils.py:117-140 | no assertion fails exactly when there are not more groups than the unmasked digits number; then group g has rank Place(g, i) at place i |
| `RankGroups.GroupRanks` | aicb/utils/utils.py:130-139 | the inner loop lists one group in order |
| `RankGroups.FormulaIsPlace` | aicb/utils/utils.py:117-140 | the stride arithmetic of the two inner products is the digit-by-digit definition of a rank, for every shape and mask |
| `RankGroups.PlaceThenGroup` | aicb/utils/utils.py:117-140 | place i of group g is a rank of the world whose group is g and whose place is i |
| `RankGroups.GroupThenPlace` | aicb/utils/utils.py:117-140 | every rank is at its place of its group |
| `RankGroups.WorldSplits` | aicb/utils/utils.py:124-125 | the size of a shape is the group size times the number of groups |
| `RankGroups.WorldFits` | aicb/utils/utils.py:124-125 | for a world of the size of the shape no assertion fails |
| `RankGroups.Partition` | aicb/utils/utils.py:127-140 | the generated groups hold every rank exactly once |
| `RankGroups.MeetOnce` | aicb/utils/utils.py:117-140 | a group of a mask and a group of the complementary mask meet in exactly one rank |
| `RankGroups.SameGroupIff` | aicb/utils/utils.py:117-140 | two ranks share a group if and only if their unmasked digits agree |
| `ParallelGroups.OrderedSizes` | aicb/utils/utils.py:177-185 | the two lists of sizes, with the expert dimension split off and without it |
| `ParallelGroups.SplitDimension` | aicb/utils/utils.py:160-185 | writing a size as two adjacent ones splits that digit into remainder and quotient and leaves the other digits |
| `ParallelGroups.FinerGroups` | aicb/utils/utils.py:195-220 | ranks that share a group of either finer dimension share the full group |
| `ParallelGroups.FinerGroupsCross` | aicb/utils/utils.py:195-220 | in one full group, a finer group of each kind cross in exactly one rank |
| `ParallelGroups.ExpertGroupsRefine` | aicb/workload_applyer.py:99-126 | when ep divides dp: every dp group is a disjoint union of ep groups and of ep-independent dp groups, which cross in one rank |
| `ExpertPartition.ExpertPartitionIff` | aicb/utils/utils.py:117-140 | for every mask over the order with the expert dimension: what the generator returns for the world of the sizes is a partition of it if and only if ep divides dp |
| `ExpertPartition.RankLeftOut` | aicb/utils/utils.py:177-185 | an input where it is not: with dp 3 and ep 2 rank 2 is in no expert group |
| `ParallelGroups.LastDimension` | aicb/utils/utils.py:117-140 | the place in a group of the last dimension is the last digit |
| `ParallelGroups.PipelinePosition` | aicb/workload_generator/generate_megatron_workload.py:123-126 | the stage number the schedule computes is the rank's place in its pp group |
| `ParallelGroups.Neighbours` | aicb/workload_applyer.py:197-205 | the next and the previous rank of the applyer are of the stage one higher and one lower |
| `Zero2Model.NextRank` | aicb/workload_generator/generate_deepspeed_stage1_2_workload.py:208-212 | a slice that ends before an element of the buffer is not the last one: the rank index stays in bounds |
| `Zero2Model.CeilCovers` | aicb/workload_generator/generate_deepspeed_stage1_2_workload.py:187-192 | the ceiling: the slices cover the buffer, and smaller ones would not |
| `Zero2Safety.RangeMap` | aicb/workload_generator/generate_deepspeed_stage1_2_workload.py:198-216 | every parameter is cut into contiguous ranges that exactly cover it, on increasing ranks that exist, each inside its owner's slice |
| `Zero2Safety.RankHolds` | aicb/workload_generator/generate_deepspeed_stage1_2_workload.py:198-216 | before every parameter the map stands at a rank whose slice holds the start of the parameter |
| `Zero2Safety.MergeLength` | aicb/workload_generator/generate_deepspeed_stage1_2_workload.py:224-232 | merging keeps the number of elements, plus the gaps it joins over |
| `Zero2Safety.BucketTotal` | aicb/workload_generator/generate_deepspeed_stage1_2_workload.py:224-243 | the merged reduces of a bucket have the elements of its parameters, less the whole buffer for every wrap inside one slice |
| `Zero2Safety.WarnsIffLost` | aicb/workload_generator/generate_deepspeed_stage1_2_workload.py:228-229 | merging a bucket prints the warning if and only if it loses elements |
| `Zero2Safety.OneSliceIff` | aicb/workload_generator/generate_deepspeed_stage1_2_workload.py:187-192 | the whole buffer is in one slice if and only if there is one rank or at most one element |
| `Zero2Run.RunKeeps` | aicb/workload_generator/generate_deepspeed_stage1_2_workload.py:95-139 | in every run of backward passes and steps, both stages: bytes reduced, bucket counter and missing elements balance, and the warning was printed exactly when elements are missing |
| `Zero2Run.ReduceTraffic` | aicb/workload_generator/generate_deepspeed_stage1_2_workload.py:137-139 | after every step the reduces carry two bytes for every element and backward pass, less what is missing; the warning says whether anything is |
| `Zero2Run.NothingMissing` | aicb/workload_generator/generate_deepspeed_stage1_2_workload.py:107-139 | for every run that ends with a step: the reduces carry all elements of all passes if and only if there is no merging, or more than one rank and element, or an empty buffer, or no pass starts while the bucket is not empty and the last parameter still fits; the warning is printed if and only if something is missing |
| `Zero2Run.CarriesWhen` | aicb/workload_generator/generate_deepspeed_stage1_2_workload.py:107-113 | a pass starts on top of the bucket if and only if the bucket is not empty and the last parameter still fits |
| `Zero2Run.OnePass` | aicb/workload_generator/generate_deepspeed_stage1_2_workload.py:107-139 | a pass from an empty bucket and a step reduce every element once and print no new warning |
| `Zero2Run.WrapLoses` | aicb/workload_generator/generate_deepspeed_stage1_2_workload.py:219-245 | a counterexample: one rank, two passes before a step, half of the bytes and the warning |
| `Zero2Messages.FlushedWhenFull` | aicb/workload_generator/generate_deepspeed_stage1_2_workload.py:107-113 | in every backward pass of every run: the bucket holds at most its limit or one parameter, and is flushed, all of it, if and only if the next parameter does not fit; a flush moves no more than the bucket held |
| `Zero2Messages.AllReducesBounded` | aicb/workload_generator/generate_deepspeed_stage1_2_workload.py:95-113 | every all-reduce of every run is within the bucket limit, or of one parameter, or of nothing |
| `Zero2Messages.StepItems` | aicb/workload_generator/generate_deepspeed_stage1_2_workload.py:137-172 | a step adds its flush, the overflow check, and as many all-gathers as whole shard limits fit the buffer, or one; every rank has an equal part of each, and they carry all the elements with less than one element a rank more for each |
| `Zero2Messages.NegativeReduce` | aicb/workload_generator/generate_deepspeed_stage1_2_workload.py:219-243 | an input whose merged reduce has a negative size |
| `Zero2Tiling.MergeHits` | aicb/workload_generator/generate_deepspeed_stage1_2_workload.py:224-232 | merging without the warning keeps how often each element is held |
| `Zero2Tiling.MergeOwned` | aicb/workload_generator/generate_deepspeed_stage1_2_workload.py:224-232 | merged ranges stay inside the slices of their ranks |
| `Zero2Tiling.ElementsOnce` | aicb/workload_generator/generate_deepspeed_stage1_2_workload.py:219-245 | after every step of a run without the warning each element of the buffer has been reduced exactly once a pass, to the rank whose slice holds it |
| `Zero2Tiling.ShardsCover` | aicb/workload_generator/generate_deepspeed_stage1_2_workload.py:150-157 | the all-gather shards have all the elements, are at least as large as the limit when there are several, and the last one is less than one element a shard larger |
| `Zero2Tiling.PaddedIsLeast` | aicb/workload_generator/generate_deepspeed_stage1_2_workload.py:158-163 | a padded shard is the least multiple of the number of ranks that holds it |
| `Zero2.WorldRanges` | aicb/workload_generator/generate_deepspeed_stage1_2_workload.py:185-192 | the slice boundaries of the ranks |
| `Zero2.BuildModelGbufParamRangeMap` | aicb/workload_generator/generate_deepspeed_stage1_2_workload.py:184-217 | the two loops build the range map of the model |
| `Zero2.DeepSpeedStage2.MergeRanges` | aicb/workload_generator/generate_deepspeed_stage1_2_workload.py:224-232 | the loop over the bucket merges the ranges and prints the warning exactly as the model says |
| `Zero2.DeepSpeedStage2.ReduceIpgGrads` | aicb/workload_generator/generate_deepspeed_stage1_2_workload.py:95-105 | a flush issues one all-reduce, or one reduce a merged range, and empties the bucket |
| `Zero2.DeepSpeedStage2.Backward` | aicb/workload_generator/generate_deepspeed_stage1_2_workload.py:107-113 | a pass adds the parameters from last to first, flushing before one that does not fit |
| `Zero2.DeepSpeedStage2.Step` | aicb/workload_generator/generate_deepspeed_stage1_2_workload.py:137-172 | a step flushes the bucket and issues the overflow check and the shards |
| `EventQueueModel.RunKeeps` | astra-sim-alibabacloud/astra-sim/system/Sys.cc:1703-1723 | in every run: what was called at a tick, followed by what waits under it, is what was registered for it; every waiting list has exactly one wake-up and the list being called has none |
| `EventQueueModel.OnTimeInOrder` | astra-sim-alibabacloud/astra-sim/system/Sys.cc:1982-2015 | the calls made at a tick are a prefix of the registrations due at it, all of them once the tick is over; `pending_events` is what was registered and not called |
| `EventQueueModel.CalledWhenDue` | astra-sim-alibabacloud/astra-sim/system/Sys.cc:1931-2015 | in every run: an event registered at tick n with c cycles is called at tick n + c, one without latency at n, once the tick is over, and nothing is called otherwise |
| `EventQueueModel.FindsList` | astra-sim-alibabacloud/astra-sim/system/Sys.cc:1704-1706 | every wake-up finds the list of its tick |
| `EventQueueModel.EmptyMeansDone` | astra-sim-alibabacloud/astra-sim/system/Sys.cc:1724-1725 | between wake-ups the map is empty if and only if the counter is 0, if and only if every registered event has been called exactly once |
| `EventQueueModel.NeverStranded` | astra-sim-alibabacloud/astra-sim/system/Sys.cc:2006-2011 | while an event is pending the node is calling, or can be woken now or at the next scheduled tick |
| `EventQueueModel.WakeUpDrains` | astra-sim-alibabacloud/astra-sim/system/Sys.cc:1707-1722 | a wake-up calls all that is registered for its tick, also what the callables add to it, and ends |
| `EventQueue.Sys.TryRegisterEvent` | astra-sim-alibabacloud/astra-sim/system/Sys.cc:1982-2015 | the list under the tick of now plus cycles ends with the event, and a new tick gets its wake-up; nothing else changes |
| `EventQueue.Sys.ZeroLatencyRegisterEvent` | astra-sim-alibabacloud/astra-sim/system/Sys.cc:1931-1966 | registration at the current tick; a new list is called at once |
| `EventQueue.Sys.CallEvents` | astra-sim-alibabacloud/astra-sim/system/Sys.cc:1703-1729 | the loop over the growing list calls all of it and removes it |
| `EventQueue.Sys.HandleCallEvents` | astra-sim-alibabacloud/astra-sim/system/Sys.cc:2062-2065 | after a wake-up nothing registered for the tick is left |
| `PendingSends.SentInOrder` | astra-sim-alibabacloud/astra-sim/system/Sys.cc:485-519 | for every destination and tag: sends enter the network in the order they were submitted, at most one is in it, the flag is up if and only if one is, and none waits without one |
| `PendingSends.FinishTest` | astra-sim-alibabacloud/astra-sim/system/Sys.cc:2107-2111 | `pending_sends` is empty if and only if every submitted send has entered the network |
| `PendingSends.AllSent` | astra-sim-alibabacloud/astra-sim/system/Sys.cc:2079-2135 | when the network has reported all that entered, everything submitted has been sent |
| `PendingSends.Sys.SimSend` | astra-sim-alibabacloud/astra-sim/system/Sys.cc:475-537 | which sends are serialized, given to the network directly, or put off |
| `PendingSends.Sys.HandlePacketSent` | astra-sim-alibabacloud/astra-sim/system/Sys.cc:2079-2135 | a report lets the next send of the pair in, or takes the flag down; no empty list is kept |
| `StreamSafety.QueueDiscipline` | astra-sim-alibabacloud/astra-sim/system/Sys.cc:945-988 | after every step of every run, in every queue: the running streams are the first ones, as many as the threshold or the list allows; the others are in non-increasing priority with ties in arrival order; each stream is in the phase of its queue |
| `StreamSafety.Admission` | astra-sim-alibabacloud/astra-sim/system/Sys.cc:934-944 | the counters count the streams in the queues and those in their first phase, stay within their limits, and a stream waits in the ready list only at a limit |
| `StreamSafety.PhasesOnce` | astra-sim-alibabacloud/astra-sim/system/Sys.cc:1751-1834 | the phases still to do, over all streams, are those added less those ended |
| `StreamPhases.PhasesInOrder` | astra-sim-alibabacloud/astra-sim/system/Sys.cc:1751-1834 | a stream number that is given once: at stage n of a plan, the queues it has ended a phase in are the first n of the plan, in order |
| `StreamPhases.EachPhaseOnce` | astra-sim-alibabacloud/astra-sim/system/Sys.cc:1751-1834 | each phase of each stream once and in order: a stream has ended none of its phases while it waits, those before the present one while it is in a queue, and all of its plan when it is finished |
| `StreamSafety.StreamsConserved` | astra-sim-alibabacloud/astra-sim/system/Sys.cc:1751-1834 | no stream of a data set is lost or doubled, and a stream is finished only after all its phases |
| `StreamSafety.DataSetDone` | astra-sim-alibabacloud/astra-sim/system/Sys.cc:1751-1834 | the finished streams of a range of numbers are as many as were added if and only if none of them waits or is in a queue |
| `DataSets.TimesIs` | astra-sim-alibabacloud/astra-sim/system/DataSet.cc:25-46 | after n notifications the flag is up, and the layer told once, if and only if 1 <= total_streams <= n |
| `DataSetRuns.NotifiedAsFinished` | astra-sim-alibabacloud/astra-sim/system/Sys.cc:1764-1795 | in every run a data set has been notified exactly once for each stream of its own that is finished |
| `DataSetRuns.UpOnce` | astra-sim-alibabacloud/astra-sim/system/DataSet.cc:25-46 | in every run the flag of a data set goes up at most once and stays up, and the layer is told exactly when it does |
| `DataSetRuns.FinishedIff` | astra-sim-alibabacloud/astra-sim/system/DataSet.cc:25-46 | at every moment of every run a data set whose stream numbers are given once is finished if and only if it has streams and each of them is finished after all phases of its plan, in order |
| `DataSetRuns.CollectiveCompletes` | astra-sim-alibabacloud/astra-sim/system/Sys.cc:1682-1700 | the data set of a collective is finished if and only if every chunk of it has ended all its phases, in order, in queues of their dimensions; it is so once |
| `StreamSafety.NeverStuck` | astra-sim-alibabacloud/astra-sim/system/Sys.cc:934-988 | with limits of at least one, some stream runs as long as any phase is still to do |
| `StreamSafety.InsertRanked` | astra-sim-alibabacloud/astra-sim/system/Sys.cc:1836-1852 | inserting a stream keeps the running prefix and the order of the others |
| `StreamSafety.CompleteKeeps` | astra-sim-alibabacloud/astra-sim/system/Sys.cc:1764-1795 | a stream that ends its last phase, with the layer making new streams before it has left its queue, keeps the discipline and the counters |
| `StreamSafety.MoveKeeps` | astra-sim-alibabacloud/astra-sim/system/Sys.cc:1797-1831 | a stream that goes on to its next phase, with the admission this allows, keeps the discipline and the counters |
| `StreamScheduler.InsertStream` | astra-sim-alibabacloud/astra-sim/system/Sys.cc:1836-1852 | the loop finds the place after the running streams and those of no lower priority |
| `StreamScheduler.Sys.StartStreams` | astra-sim-alibabacloud/astra-sim/system/Sys.cc:950-957 | starts the next streams of a queue while there is room |
| `StreamScheduler.Sys.Schedule` | astra-sim-alibabacloud/astra-sim/system/Sys.cc:2026-2051 | admits the given number of ready streams, or all there are |
| `StreamScheduler.Sys.NotifyStreamRemoved` | astra-sim-alibabacloud/astra-sim/system/Sys.cc:961-988 | counts a stream out, admits others and refills the queue |
| `StreamScheduler.Sys.InsertIntoReadyList` | astra-sim-alibabacloud/astra-sim/system/Sys.cc:2022-2025 | a new stream is ranked in the ready list and admission is attempted |
| `StreamScheduler.Sys.ProceedToNextVnetBaseline` | astra-sim-alibabacloud/astra-sim/system/Sys.cc:1751-1834 | a new or a running stream goes on to its next phase or is finished, in the order of updates of the source |
| `Collective.LoopEnds` | astra-sim-alibabacloud/astra-sim/system/Sys.cc:1488-1695 | the chunk loop, with its break for a chunk without phases, ends if and only if there are no bytes, or at least as many bytes as splits, or no dimension takes part |
| `Collective.ChunksCover` | astra-sim-alibabacloud/astra-sim/system/Sys.cc:1488-1529 | the chunks have all the bytes, only the last may be smaller, and they are ceil(size/chunk) many |
| `Collective.ChunkCount` | astra-sim-alibabacloud/astra-sim/system/Sys.cc:1025-1028 | at least `splits` and at most 2*splits-1 chunks |
| `Collective.ChunkPhases` | astra-sim-alibabacloud/astra-sim/system/Sys.cc:1534-1681 | the phases of a chunk are the plan over the active dimensions |
| `Collective.HierarchicalPhases` | astra-sim-alibabacloud/astra-sim/system/Sys.cc:1607-1681 | the loops of the hierarchical all-reduce build its plan; the loop back to an active dimension never runs |
| `Collective.PlanMirrors` | astra-sim-alibabacloud/astra-sim/system/Sys.cc:1607-1681 | the hierarchical all-reduce scatters and gathers each dimension but the last once, at mirrored places around the one reduce |
| `Collective.PlanEmpty` | astra-sim-alibabacloud/astra-sim/system/Sys.cc:1682-1695 | a chunk has no phases if and only if no dimension takes part |
| `Collective.RoundRobinFair` | astra-sim-alibabacloud/astra-sim/system/Sys.cc:1496-1505 | in any d chunks that follow each other every one of the d dimensions comes first exactly once |
| `Collective.Sys.GenerateCollective` | astra-sim-alibabacloud/astra-sim/system/Sys.cc:1455-1702 | the streams made are those of all chunks, and the data set, not notified yet, waits for as many; with bytes and no active dimension, however few bytes, it is inactive and nothing is made |
| `Collective.Sys.NextMapper` | astra-sim-alibabacloud/astra-sim/system/Sys.cc:1491-1505 | the order of the dimensions of the next chunk |
| `DataSets.DataSet.NotifyStreamFinished` | astra-sim-alibabacloud/astra-sim/system/DataSet.cc:25-46 | the data set is finished, and its layer told once, by the last of the streams it waits for |
| `BreakDimension.FindBoundary` | astra-sim-alibabacloud/astra-sim/system/Sys.cc:321-423 | the boundary is after the first dimension whose prefix product reaches the group, inside it when the product passes the group |
| `BreakDimension.GroupHolds` | astra-sim-alibabacloud/astra-sim/system/Sys.cc:352-364 | with p the nodes of the dimensions before the one the group ends in: the dimensions up to the boundary hold the group if and only if p divides it, and the number of nodes is kept if and only if group/p divides that dimension |
| `BreakDimension.SplitsLose` | astra-sim-alibabacloud/astra-sim/system/Sys.cc:352-364 | two inputs for which these fail |
| `UsageSweep.UsageTracker.IncreaseUsage` | astra-sim-alibabacloud/astra-sim/system/UsageTracker.cc:14-21 | raises the level below the top and records the interval; the levels of past ticks do not change |
| `UsageSweep.UsageTracker.DecreaseUsage` | astra-sim-alibabacloud/astra-sim/system/UsageTracker.cc:22-29 | lowers the level above 0 and records the interval; the levels of past ticks do not change |
| `UsageSweep.UsageTracker.SetUsage` | astra-sim-alibabacloud/astra-sim/system/UsageTracker.cc:30-37 | sets any level, also one past the top; the levels of past ticks do not change |
| `UsageSweep.UsageTracker.ReportPercentage` | astra-sim-alibabacloud/astra-sim/system/UsageTracker.cc:48-78 | entry j is the sum of the level over the ticks of period j, in percent of the most possible, and between 0 and 100 when no level was past the top; all full periods are reported; the level is kept, except that an idle tracker is left at level 1 and one past the top a level lower |
| `UsageSweep.UsageTracker.Sweep` | astra-sim-alibabacloud/astra-sim/system/UsageTracker.cc:52-77 | the one pass over the intervals equals the pointwise sums, its begin never passes its end, and it terminates |
| `UsageSweep.ReportBound` | astra-sim-alibabacloud/astra-sim/system/UsageTracker.cc:65-70 | no entry of the pointwise report exceeds 100 percent |
| `TraceFilterGrammar.ParseShow` | ns-3-alibabacloud/analysis/trace_filter.hpp:240-319 | for every expression of the grammar, parsing its text gives its meaning: brackets group, connectives have no precedence and group to the right |
| `TraceFilterGrammar.ScanWhole` | ns-3-alibabacloud/analysis/trace_filter.hpp:237-247 | a comparison is scanned as its three tokens whatever follows it |
| `TraceFilterGrammar.CloseShown` | ns-3-alibabacloud/analysis/trace_filter.hpp:324-332 | the bracket counter passes over every expression |
| `TraceFilterGrammar.ParseBracket` | ns-3-alibabacloud/analysis/trace_filter.hpp:320-346 | an outer pair of brackets does not matter |
| `TraceFilterModel.ExpandLighter` | ns-3-alibabacloud/analysis/trace_filter.hpp:347-380 | the text a shorthand stands for has none of the letters w and u, and the name of a shorthand has one: the reason why parsing ends |
| `TraceFilterMeaning.FilterMeans` | ns-3-alibabacloud/analysis/trace_filter.hpp:173-182 | for every expression of the grammar and every record: it is parsed if and only if each comparison is of a known field or a shorthand with its values, and then the record passes if and only if it matches the expression, read without the parser; otherwise every record passes |
| `TraceFilterNumbers.NumberFilter` | ns-3-alibabacloud/analysis/trace_filter.hpp:57-67 | for every field, every number written in base 10, 16 or 8, and every record: the text of a comparison with each of the six operators accepts what the operator says |
| `TraceFilterNumbers.FlowFilter` | ns-3-alibabacloud/analysis/trace_filter.hpp:347-366 | the texts `flow=` and `rflow=` with two addresses in any base and two ports accept exactly the records of the flow, and of the reversed one |
| `TraceFilterNumbers.QueueFilter` | ns-3-alibabacloud/analysis/trace_filter.hpp:367-377 | the text `queue=` with node, interface and queue number accepts exactly the records of that queue |
| `TraceFilterMeaning.QueueAccepts` | ns-3-alibabacloud/analysis/trace_filter.hpp:367-377 | the expression of a queue accepts exactly the records of its node, interface and queue |
| `TraceFilterResults.PrintedRefused` | ns-3-alibabacloud/analysis/trace_filter.hpp:75-79 | the printed text is not an expression: for every tree, with the offsets that the code prints, the parser refuses it |
| `TraceFilterResults.PrintParse` | ns-3-alibabacloud/analysis/trace_filter.hpp:385-391 | for the printer with field names in the place of offsets: parsing the text of a tree gives the tree |
| `TraceFilterResults.ParsedProper` | ns-3-alibabacloud/analysis/trace_filter.hpp:189-235 | whatever the parser builds has known fields and operators and values that fit their fields |
| `TraceFilterResults.Reparse` | ns-3-alibabacloud/analysis/trace_filter.hpp:385-391 | for every text the parser accepts, printing with field names in the place of offsets and parsing again gives the same tree, so the same records |
| `TraceFilterResults.FlowAccepts` | ns-3-alibabacloud/analysis/trace_filter.hpp:354-358 | the expression of a flow accepts exactly the records with its addresses and the ports of their protocol |
| `TraceFilterResults.FlowShorthands` | ns-3-alibabacloud/analysis/trace_filter.hpp:347-366 | for every value text: the three shorthands parse together, `flow` and `rflow` accept the records of the 4-tuple and of the reversed one, and `biflow` exactly the union |
| `TraceFilter.FindClose` | ns-3-alibabacloud/analysis/trace_filter.hpp:325-332 | the loop finds the closing bracket of the model |
| `TraceFilter.StripOuterBracket` | ns-3-alibabacloud/analysis/trace_filter.hpp:320-346 | strips every outer pair of brackets |
| `TraceFilter.ParseText` | ns-3-alibabacloud/analysis/trace_filter.hpp:240-319 | the recursive parser builds the tree of the model |

## Left out

- LogGP timing: the delays of the events and the order they give are not modelled; events may come in any order, which covers every timing; the previous state of a side enters the delays only; statistics of the bus are left out.
- The nested memory bus of a LogGP side is a service that calls back once for each request; client callables do not enter the bus again while they are called.
- The Fast and the non-shared path of `MemBus` register the callable with a fixed delay; that is the event queue's registration and is not repeated.
- Message sizes of the pipeline transfers are one constant; computation items of all generators and the size formulas of work items do not drive the state machines and are left out.
- Parameters of the ZeRO generators are named by their position, so they are distinct objects, as in the source's models.
- `math.ceil(gbuf_size / dp_world_size)` is the exact ceiling; the source divides in floating point first, which is exact below 2^53 elements. The same holds for the stream count of a collective.
- The initial items of the ZeRO generators and the epoch markers are left out; they do not touch the modelled state.
- Rank groups: order strings are lists of tokens; an order without the expert dimension in it is the case of expert size 1.
- ExpertPartition.ExpertPartitionIff: an expert size above the data-parallel size makes one size 0; the division by zero, or the empty list of groups, of the source stands in the condition of the lemma and not in the method.
- ParallelGroups.PipelinePosition: stated for a world of the size of the groups; the applyer divides the world by the tensor and pipeline sizes only to get its data-parallel size, so this is the case of context-parallel size 1.
- Event queue: simulated time is counted in whole ticks, as the division by the clock period does; negative delays do not occur. A callable is a tree of the registrations it makes when called, so what it does besides is left out, as is an exception thrown by it.
- Deleting a node at the finish tests, and reports that arrive for a node that has been deleted, are not modelled.
- Sends: a node that a report calls back reads and writes the two maps before the network is called, so a network that reports synchronously is covered as the next step.
- Streams: the FIFO policy with enabled phases; a stream is a value in the lists and is taken out of its queue by its place, where the source searches for its number, which is unique. A collective algorithm does not end its phase within the call that starts it.
- StreamScheduler.Sys.ProceedToNextVnetBaseline: latency averages, the per-dimension usage counters and object deletion are left out.
- Collectives: the greedy policies, boost mode, queue selection and the data sizes between phases are left out; a dimension takes part when it is involved and has more than one node.
- Collective.Sys.GenerateCollective: requires no bytes, or at least as many bytes as splits, or no dimension that takes part, because the source's loop does not end otherwise. With chunks of no bytes the first stream count of the data set is an infinite quotient converted to an integer, so any number.
- DataSetRuns.FinishedIff: a stream number is given at most once in a run, as the counter of streams does; the dimension of each queue and the streams that carry a collective's chunks are parameters of `DataSetRuns.CollectiveCompletes`.
- Break dimension: rebuilding the topologies, the queue levels and the scheduler is left out.
- UsageSweep.UsageTracker.SetUsage: takes any natural level; the source also takes a negative one, which it multiplies as a large unsigned number.
- UsageSweep.UsageTracker.ReportPercentage: requires more than one level and a period of at least one tick; the source divides by zero for one level and does not end for no ticks. The percentages are real numbers.
- Trace filter: a record is a value for every field name, so that fields that overlap in memory are independent; the offsets of the fields are a parameter of the printed text. A value text that is not a number counts as 0, where the source leaves it undefined. Freeing nodes is left out; the 512-byte buffer of a shorthand always suffices.
- TraceFilterMeaning.FilterMeans: the expressions are written without spaces; the parser's way with spaces is in the model but not in this statement.
- RDMA, MPI bootstrap, torch execution, logging, CSV output, plotting, option parsing, bus bandwidth formulas, logical topologies and the NCCL flow generator are not modelled.
- The PHY and multi-threaded builds and their critical sections are not modelled.
