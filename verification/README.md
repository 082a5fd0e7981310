# Verified models of the hard parts of this repository

This project models the state machines, index arithmetic, queue protocols and text formats of the
repository and proves what they promise, on all inputs, runs and interleavings. Each module follows
one component of the source: the code's branches are functions on values or methods of a class that
updates its fields in place, and the theorems are lemmas about every run of these.

* `WindowMap`, `Tensors`, `OffloadHandler`, `OffloadErrors`, `SyncHandler`, `OffloadSchedule`,
  `OffloadInvariant`, `OffloadGroups`, `OffloadTheorems`, `OffloadIteration`, `OffloadRepeated`,
  `OffloadRefinement`: activation offloading. An iteration is a job: what every layer saves, which
  tensors are filtered out, and the order of the pops. The asynchronous double-buffered handler is
  driven step by step, keeps an invariant in every reachable state, and is compared with the
  synchronous handler, its specification.
* `IndexedDataset`, `IndexedDatasetQueue`: the sharded dataset file, its writer thread behind a
  queue, and the reader's bisect.
* `BinPacking`, `Packing`, `PackingGather`, `PackingResult`, `StreamPacking`, `StreamRun`: sequence
  packing by several workers over one queue, and the streaming packer that restores the order.
* `PassAtK`: the loop product behind pass@k, the binomial ratio and the count of subsets.
* `Scheduler`, `SchedulerSafety`, `SchedulerTermination`, `SchedulerRecords`, `ExpManager`: the
  experiment scheduler as a transition system, what every reachable state keeps, when it ends, what it
  puts on record, and the class itself.
* `Scan`, `ToolArguments`, `Dsml`, `DsmlRoundTrip`, `DsmlText`, `Seed`, `SeedRoundTrip`, `SeedText`:
  printers and parsers of tool calls. The parsers' patterns are leftmost matches that scan for the
  first delimiter.
* `Shard`, `Dispatcher`: two ways of dealing samples to data-parallel ranks.
* `Frames`, `Wilson`: crop-box repair and the Wilson score interval, over the reals.
* `Wrappers`, `Collections`, `Reals`: what several components share.

Where a promise is false of the code, the code is kept, and the lemma says exactly when it holds:

* Pops of the asynchronous handler return the pushed tensors if and only if, in each moved group,
  what is popped has the data of the first tensor that shares its copy
  (`OffloadIteration.PopsReturnPushed`): views at one address with one element type come back as copies
  of the first, so a matrix and its transpose do not both come back (`TransposeReturnsOther`). With
  other sizes the reload raises (`IterationFinishes`), as for a vector and a view of its first element
  (`PartialViewRaises`).
* Tags that are never popped stay in the handler's maps (`OffloadIteration.IterationResets`), and an
  iteration that pushes such a tag again raises (`OffloadRepeated.LeftoverRaises`): the push asserts that
  its tag is new. So one model trains on exactly when the copies fit and each iteration pops all it
  keeps (`IterationsRepeat`, `SecondIteration`; `OneLeftRunsOnce` shows one that does not). Until then
  what is left stays on the device; two groups are enough exactly when no backward commit leaves more
  there (`OffloadIteration.AtMostTwoGroupsIff`), and `LeftBehindExceedsTwo` shows one that does.
* The constructor's comment allows as many groups as layers (activation_cpu_offload.py:262); then
  every group but the first is "offloaded" before it is pushed and stays on the device
  (`OffloadIteration.FullOffloadStaysOnDevice`). The caller uses one group fewer.
* A negative index wraps by the remainder, however small it is, and on an empty dataset divides by
  zero (`IndexedDataset.ReadsBack`).
* The scheduler polls for ever when nothing runs. Even when names differ, builds succeed and what is
  left to do is known and fits the machine with at most one export, it hangs exactly when there are
  experiments and all of them are already done (`SchedulerTermination.NeverHangsIff`). Without each of
  these conditions some queue hangs: `OversizedHangs`, `OversizedEvalHangs`, `UnknownCommandHangs`,
  `SameNameHangs`, `TwoExportsRetry`, `FailedBuildHangs`. An assertion other than for want of devices
  leaves the head on the queue and is retried without polling (`RetryForever`): a second export, or
  arguments that an assertion rejects, stop everything (`AssertingBuildRetries`).
* Tool calls come back exactly when names and values avoid the delimiters in the ways stated by
  `DsmlRoundTrip.RoundTripIff` and `SeedRoundTrip.RoundTripIff`. For Seed a function name that holds
  a parameter tag swallows the lines up to the first closing tag, and the call comes back all the
  same only when its one parameter mirrors them (`SeedRoundTrip.OpensIff`, `MirroringComesBack`).

## Model

| member | source | states |
|---|---|---|
| WindowMap.Build | swift/callbacks/activation_cpu_offload.py:280-289 | the loop with its carried constant computes (L div G)(i+1) - 1 + min(i+1, L mod G) for every group |
| WindowMap.BuiltWindowIsGood | swift/callbacks/activation_cpu_offload.py:280-289 | the map is strictly increasing, ends at L-1, is at least i at i, and at least i+1 when G < L |
| WindowMap.Gap | swift/callbacks/activation_cpu_offload.py:280-289 | consecutive windows are L div G apart, or one more |
| WindowMap.Increasing | swift/callbacks/activation_cpu_offload.py:280-289 | windows of later groups are later |
| WindowMap.Bounds | swift/callbacks/activation_cpu_offload.py:280-289 | lower bounds of a window, the last window, and the case G = L |
| OffloadHandler.AsyncDoubleBufferGroupOffloadHandler.constructor | swift/callbacks/activation_cpu_offload.py:260-289 | a new handler is empty and its window map is good for 1 <= G <= L |
| OffloadHandler.AsyncDoubleBufferGroupOffloadHandler.TensorPush | swift/callbacks/activation_cpu_offload.py:295-315 | stray and filtered tensors are their own identifiers; others get a new tag, or the assertion fails; the whole new state |
| OffloadHandler.AsyncDoubleBufferGroupOffloadHandler.TensorPop | swift/callbacks/activation_cpu_offload.py:317-328 | the tensor under the tag, taken out of both maps, or which assertion fails |
| OffloadHandler.WithoutKeepsOrder | swift/callbacks/activation_cpu_offload.py:321-322 | taking a tag out of the dictionary keeps the order of the others, in which bulk offloads walk it |
| OffloadHandler.AsyncDoubleBufferGroupOffloadHandler.BulkOffloadGroup | swift/callbacks/activation_cpu_offload.py:330-349 | every tag of the group becomes key and shape, and the group map gets a copy of the first tensor under each key; raises exactly if one was moved before |
| OffloadHandler.AsyncDoubleBufferGroupOffloadHandler.BulkReloadGroup | swift/callbacks/activation_cpu_offload.py:387-403 | every moved tag of the group becomes a view of its key's copy; raises exactly for a bad group, a missing entry or a view of another size |
| OffloadHandler.AsyncDoubleBufferGroupOffloadHandler.SlideWindow | swift/callbacks/activation_cpu_offload.py:362-377 | at a window's end the oldest buffer is released and the next group offloaded |
| OffloadHandler.AsyncDoubleBufferGroupOffloadHandler.OnGroupCommitForward | swift/callbacks/activation_cpu_offload.py:351-384 | the forward commit: first-group kick, window part, counters |
| OffloadHandler.AsyncDoubleBufferGroupOffloadHandler.OnGroupCommitBackward | swift/callbacks/activation_cpu_offload.py:405-427 | the backward commit: reload at a window's end, counters |
| OffloadErrors.PushFails | swift/callbacks/activation_cpu_offload.py:303-309 | in any state a push fails exactly for a tensor that gets a tag when the tag is taken |
| OffloadErrors.PopFails | swift/callbacks/activation_cpu_offload.py:317-328 | in any state a pop fails exactly for a tag that is not there, or whose tensor has not come back |
| OffloadErrors.CommitForwardFails | swift/callbacks/activation_cpu_offload.py:332-384 | in any state a forward commit fails exactly when a group that it offloads has a moved tensor, or the window map has no entry |
| OffloadErrors.BulkReloadFails | swift/callbacks/activation_cpu_offload.py:387-403 | which of the three errors of a reload there is, in any state |
| OffloadErrors.CommitBackwardFails | swift/callbacks/activation_cpu_offload.py:405-427 | in any state a backward commit fails exactly at group 0, without a window entry, or with the reload at its window |
| SyncHandler.SynchronizedGroupOffloadHandler.TensorPush | swift/callbacks/activation_cpu_offload.py:227-240 | every tensor gets a tag; those of the first groups that pass the filter are copied at once |
| SyncHandler.SynchronizedGroupOffloadHandler.TensorPop | swift/callbacks/activation_cpu_offload.py:242-250 | the tensor, reloaded when it had been copied |
| SyncHandler.SynchronizedGroupOffloadHandler.OnGroupCommitBackward | swift/callbacks/activation_cpu_offload.py:189-192 | the group counter, and the assertion that it stays non-negative |
| OffloadInvariant.PushStep | swift/callbacks/activation_cpu_offload.py:295-315 | a push keeps the invariant of the forward pass and never fails |
| OffloadInvariant.CommitForwardStep | swift/callbacks/activation_cpu_offload.py:351-384 | a forward commit never fails, makes exactly the bulk offloads that are due and keeps the invariant |
| OffloadInvariant.Turn | swift/callbacks/activation_cpu_offload.py:405-427 | the end of the forward pass is the start of the backward pass |
| OffloadInvariant.CommitBackwardStep | swift/callbacks/activation_cpu_offload.py:405-427 | a backward commit fails exactly when the copies of the group it reloads have other sizes; otherwise it keeps the invariant |
| OffloadInvariant.PopStep | swift/callbacks/activation_cpu_offload.py:317-328 | a pop of the current layer finds a live tensor and keeps the invariant |
| OffloadTheorems.NextInv | swift/callbacks/activation_cpu_offload.py:295-427 | every step of an iteration keeps the invariant of the whole run, logs included |
| OffloadGroups.FirstSharedIsCopied | swift/callbacks/activation_cpu_offload.py:334-347 | under the key of a kept tensor there is a copy of the first kept tensor of its layer with the same address and element type, and of no other |
| OffloadGroups.FitsIff | swift/callbacks/activation_cpu_offload.py:397-403 | every view of a shared copy fits if and only if each kept tensor has as many elements as the first with its address and element type |
| OffloadGroups.CoherentIffFirstAgrees | swift/callbacks/activation_cpu_offload.py:334-347 | reading back one copy for all that share address and element type is lossless exactly if these have equal elements |
| OffloadIteration.IterationFinishes | swift/callbacks/activation_cpu_offload.py:295-427 | an iteration ends without a failing assertion or lookup if and only if the copies of all moved groups have the sizes asked for |
| OffloadIteration.PopsReturnPushed | swift/callbacks/activation_cpu_offload.py:295-427 | for every job: nothing raises and each pop returns the pushed tensor, if and only if in every moved group the copies fit and each tensor asked for has the data of the first kept one with its address and element type |
| OffloadIteration.WhatPopsReturn | swift/callbacks/activation_cpu_offload.py:295-427 | what every pop returns, whatever is saved: a tensor that is stray, filtered out or of a group that is not moved itself; any other at a new address in its own shape with the data of the first that shares its copy |
| OffloadIteration.CoherentReturns | swift/callbacks/activation_cpu_offload.py:295-427 | for that it is enough, whichever tensors are popped, that in every moved group kept tensors with one address and element type have equal elements; and it is needed when all that is kept is popped |
| OffloadIteration.TwoBuffersComeBack | swift/callbacks/activation_cpu_offload.py:334-347 | any two tensors at different addresses saved in one layer of three come back, each with its own data, at new addresses |
| OffloadIteration.TransposeReturnsOther | swift/callbacks/activation_cpu_offload.py:335-347 | a matrix and its transpose saved in one layer of three are not both returned as pushed |
| OffloadIteration.PartialViewRaises | swift/callbacks/activation_cpu_offload.py:397-403 | an iteration that saves a vector and a view of its first element raises |
| OffloadIteration.IterationResets | swift/callbacks/activation_cpu_offload.py:351-427 | counters and group map are back at their start; exactly the unpopped tags are left; so the handler is as new if and only if all were popped |
| OffloadIteration.EachGroupTravelsOnce | swift/callbacks/activation_cpu_offload.py:351-427 | each group is bulk-offloaded once, in order, when the window of the one before closes, with G < L not before its own pushes are over; and reloaded once, in reverse, no later than the commit before its pops |
| OffloadIteration.AfterInv | swift/callbacks/activation_cpu_offload.py:295-427 | every state reached after any number of steps keeps the invariant |
| OffloadIteration.DriveIsAfter | swift/callbacks/activation_cpu_offload.py:295-427 | an iteration's end is one of the states reached step by step |
| OffloadIteration.DeviceHoldsTwo | swift/callbacks/activation_cpu_offload.py:531-574 | with G = L-1, for every job and reachable state: the device holds at most two groups besides those left behind by tags that are never popped, and it holds all of these |
| OffloadIteration.AtMostTwoGroupsIff | swift/callbacks/activation_cpu_offload.py:531-574 | with G = L-1 an iteration never holds more than two groups on the device if and only if no backward commit leaves more: its layer and the one before, if they keep anything, and the later layers left behind |
| OffloadIteration.LeftBehindExceedsTwo | swift/callbacks/activation_cpu_offload.py:531-574 | an iteration that leaves one tensor unpopped holds three groups |
| OffloadIteration.AtMostTwoGroups | swift/callbacks/activation_cpu_offload.py:531-574 | the promise of the docstring when every kept tensor is popped: never more than two groups on the device |
| OffloadIteration.NoBufferDroppedEarly | swift/callbacks/activation_cpu_offload.py:366-377 | in every reachable state a released buffer whose tensor was moved has its CPU copy |
| OffloadIteration.FullOffloadStaysOnDevice | swift/callbacks/activation_cpu_offload.py:262-263 | with G = L every group after the first is still on the device after the forward pass |
| OffloadRepeated.LeftoverRaises | swift/callbacks/activation_cpu_offload.py:305-309 | whatever iteration comes next on the handler: if it pushes a tag that the one before left, it raises |
| OffloadRepeated.IterationsCompose | swift/callbacks/activation_cpu_offload.py:295-427 | iterations that pop all they keep run one after the other to the end if and only if the copies of each fit, and then leave the handler as new |
| OffloadRepeated.IterationsRepeat | swift/callbacks/activation_cpu_offload.py:295-427 | iterations that each push at least the tags of the one before run to the end if and only if the copies of each fit and each but the last pops all it keeps |
| OffloadRepeated.SecondIteration | swift/callbacks/activation_cpu_offload.py:305-309 | an iteration runs twice on one handler if and only if its copies fit and it pops all it keeps |
| OffloadRepeated.OneLeftRunsOnce | swift/callbacks/activation_cpu_offload.py:305-309 | the iteration that leaves one tensor unpopped runs once, and raises the second time |
| OffloadRefinement.SyncReturnsPushed | swift/callbacks/activation_cpu_offload.py:227-250 | the synchronous handler returns every pushed tensor |
| OffloadRefinement.SyncOffloadsAtOnce | swift/callbacks/activation_cpu_offload.py:227-240 | in every reachable state the synchronous handler holds a tensor in CPU memory exactly if its layer is one of the first groups and the filter wants it |
| OffloadRefinement.SyncLeftoverRaises | swift/callbacks/activation_cpu_offload.py:227-240 | an iteration that comes to push a tag that is still there raises on the synchronous handler too |
| OffloadRefinement.AsyncRefinesSync | swift/callbacks/activation_cpu_offload.py:295-427 | for every job: both handlers finish and return equal tensors at every pop of the same schedule if and only if in every moved group the copies fit and each tensor asked for has the data of the first kept one with its address and element type |
| IndexedDataset.BisectRight | swift/dataset/indexed_dataset.py:126 | the halving search finds the border between offsets up to x and offsets above x |
| IndexedDataset.WriteBatchInv | swift/dataset/indexed_dataset.py:30-50 | a batch keeps offsets, lengths, shard contents and boundaries; a closed shard is at least a chunk long and the open one shorter, so the batch that fills it closes it |
| IndexedDataset.WriteAllInv | swift/dataset/indexed_dataset.py:30-50 | any sequence of batches keeps it |
| IndexedDataset.StaleShardsUnread | swift/dataset/indexed_dataset.py:21-23 | files of an older dataset make no difference to the shards |
| IndexedDataset.FoundShard | swift/dataset/indexed_dataset.py:125-128 | the bisect finds the shard that holds the item whole |
| IndexedDataset.ReadBufferIs | swift/dataset/indexed_dataset.py:72-87 | whatever a file holds: the bytes asked for if they are all there, and otherwise which of the two errors |
| IndexedDataset.ItemBytes | swift/dataset/indexed_dataset.py:36-40 | the stretch between two offsets is the item's serialised form |
| IndexedDataset.ReadsItem | swift/dataset/indexed_dataset.py:84-87 | the reader never rejects a valid index, an empty last shard included, and returns the item's bytes |
| IndexedDataset.GetsItem | swift/dataset/indexed_dataset.py:122-132 | `ds[i]` is the i-th item, and past the end an error |
| IndexedDataset.ReadsBack | swift/dataset/indexed_dataset.py:122-132 | length, every index, the wrap of negative indices and the errors agree with the plain list |
| IndexedDatasetQueue.IndexedDatasetBuilder.constructor | swift/dataset/indexed_dataset.py:16-28 | a new builder drops an old first shard |
| IndexedDatasetQueue.IndexedDatasetBuilder.WriteItems | swift/dataset/indexed_dataset.py:32-50 | one round of the worker's loop does to the fields what the batch function says |
| IndexedDatasetQueue.IndexedDatasetBuilder.WriteWorker | swift/dataset/indexed_dataset.py:30-50 | the worker takes the queue up to the end marker, batch after batch |
| IndexedDatasetQueue.NextInv | swift/dataset/indexed_dataset.py:52-62 | every step of producer or worker keeps the queue and file invariant |
| IndexedDatasetQueue.EveryInterleavingReadsBack | swift/dataset/indexed_dataset.py:30-70 | for every interleaving, batching, positive chunk size and old directory, what is read back is the list of items |
| IndexedDatasetQueue.EveryInterleavingFillsShards | swift/dataset/indexed_dataset.py:30-50 | in every interleaving each shard but the last is at least a chunk long, the last one is shorter, and each is as long as its offsets say |
| IndexedDatasetQueue.NeverStuck | swift/dataset/indexed_dataset.py:52-62 | before the index is written a step is enabled, and every step is progress |
| BinPacking.MatchedGroupConserves | swift/dataset/packing.py:15-27 | the bins emitted and then the one carried over are what the packer makes, in order; samples are conserved, bins fit, and nothing is carried at the end |
| BinPacking.BestFitPacks | swift/dataset/packing.py:21 | best fit rearranges the samples into bins that fit, or hold one sample that is too large |
| BinPacking.BestFitIsPacker | swift/dataset/packing.py:21 | so the contract assumed of the packing library can be met |
| Packing.RoundConserves | swift/dataset/packing.py:93-101 | a round of the worker's loop keeps what is carried, sent and left |
| Packing.WorkConserves | swift/dataset/packing.py:89-102 | a worker sends each of its samples once, in bins that fit, and reports lengths that sum to its share |
| Packing.TotalAdds | swift/dataset/packing.py:90 | a list of lengths counts as their sum: additive over concatenation, a single number as itself |
| Packing.WorkIsRounds | swift/dataset/packing.py:89-102 | one message for each batch of the chunk, with the bins packed from the batch and the bin carried over, all but the last bin unless it is the last batch, and the size of the batch; then the end marker |
| Packing.CreatePackedIdx | swift/dataset/packing.py:89-102 | the worker's loop ends, although it carries the last bin over, with the specified messages |
| PackingGather.EndsBound | swift/dataset/packing.py:72-76 | as many end markers as workers have arrived exactly when all messages have |
| PackingGather.AllTaken | swift/dataset/packing.py:71-76 | when the loop stops no message is left on the queue |
| PackingGather.PackingDataset.Gather | swift/dataset/packing.py:67-81 | for every interleaving of the workers' messages the loop ends with the same lists: rank after rank |
| PackingGather.AllWorkConserves | swift/dataset/packing.py:56-66 | all workers together send each sample of the dataset once, in bins that fit |
| PackingResult.Build | swift/dataset/packing.py:54-81 | building the dataset gives the specified lists for this order of arrival |
| PackingResult.PackedPartition | swift/dataset/packing.py:56-84 | for every interleaving: each index is in one bin, once; the length recorded for a bin is the total of the numbers of its entries, and fits the volume exactly if each entry does |
| PackingResult.PackedNumbers | swift/dataset/packing.py:79-90 | for a column of numbers the length recorded for a bin is the sum of the numbers at its indices, and is at most the volume exactly if each of them is |
| PackingResult.PackedLists | swift/dataset/packing.py:79-90 | for a column of lists it is the total of all lists at its indices, and is at most the volume exactly if the total of each is |
| PackingResult.ProgressIsComplete | swift/dataset/packing.py:77 | the reported data lengths sum to n |
| StreamPacking.NextInv | swift/dataset/packing.py:145-171 | every step of main process or worker keeps each round index in one place once |
| StreamPacking.RoundEndsEmpty | swift/dataset/packing.py:156-174 | at the end of a round both queues are empty and no worker holds an item, whatever the order of completion |
| StreamPacking.RoundNeverStuck | swift/dataset/packing.py:145-171 | a round never blocks before its end, and every step is progress |
| StreamPacking.IterablePackingDataset.FetchDataOutQueue | swift/dataset/packing.py:165-174 | results are back in input order, without the failed ones, for every order of completion |
| StreamPacking.IterablePackingDataset.Iterate | swift/dataset/packing.py:182-203 | the loop emits what the specification says, for every order of completion in every round |
| StreamPacking.PlacedEncoded | swift/dataset/packing.py:165-174 | whatever the order of the answers, the filled places hold the encoded samples in input order, without the failed ones |
| StreamRun.AfterInv | swift/dataset/packing.py:145-203 | over all rounds of a run, whose queues and workers carry over from one to the next, every step keeps each round index of the current round in one place once and what has been emitted a part of the specification |
| StreamRun.EveryInterleavingEmits | swift/dataset/packing.py:145-203 | in every interleaving of main process and workers no answer has an index of another round, and a run that has ended has emitted what the specification says |
| StreamRun.RunEnds | swift/dataset/packing.py:145-203 | with a worker alive every run can go on until it ends, within 5n+1 moves for n samples |
| StreamPacking.StreamConserves | swift/dataset/packing.py:182-203 | over a whole run the bins hold each encoded sample once, also when the stream's length is a multiple of the interval |
| PassAtK.Compute | research/eval/score_and_aggregate.py:80-94 | the loop computes one minus the product, with the guards for c <= 0 and n - c < k |
| PassAtK.ProductIsRatio | research/eval/score_and_aggregate.py:83 | the product is C(n-c, k) / C(n, k) |
| PassAtK.ValueIsBinomial | research/eval/score_and_aggregate.py:80-94 | the value is 1 - C(n-c, k) / C(n, k), guards included |
| PassAtK.SubsetCount | research/eval/score_and_aggregate.py:81 | a set of n has C(n, k) subsets of size k |
| PassAtK.ValueIsShareOfSubsets | research/eval/score_and_aggregate.py:81 | the value is the share of k-subsets that hold a correct sample |
| PassAtK.ValueBounds | research/eval/score_and_aggregate.py:80-94 | it is in [0, 1]; 0 exactly without a correct sample, 1 exactly when k draws cannot all be wrong |
| PassAtK.ValueAtOne | research/eval/score_and_aggregate.py:80-94 | it is c/n at k = 1 |
| PassAtK.MonotoneInCorrect | research/eval/score_and_aggregate.py:80-94 | more correct samples never lower it |
| PassAtK.MonotoneInDraws | research/eval/score_and_aggregate.py:80-94 | more draws never lower it |
| SchedulerSafety.NextDisjoint | scripts/benchmark/exp_utils.py:226-234 | every step keeps the running experiments on disjoint devices, as many as each asked for |
| SchedulerSafety.NextConserves | scripts/benchmark/exp_utils.py:315-376 | every step keeps each experiment queued, running, finished or rejected, exactly once |
| SchedulerSafety.NextOrdered | scripts/benchmark/exp_utils.py:358-376 | every step keeps the queue some evaluations and then the rest of the initial queue |
| SchedulerSafety.AlwaysSafe | scripts/benchmark/exp_utils.py:350-376 | disjoint devices and conservation in every reachable state |
| SchedulerSafety.AlwaysExclusive | scripts/benchmark/exp_utils.py:131-134 | in every reachable state no training or export runs that was launched beside one of its name, and no two exports |
| SchedulerSafety.TrainingFollowsPriority | scripts/benchmark/exp_utils.py:353-376 | in every run training launches follow the initial order, so sorted requests never decrease, although evaluations jump the queue |
| SchedulerSafety.DisjointNeverOverlaps | scripts/benchmark/exp_utils.py:97-103 | the overlap check passes whenever devices are disjoint |
| SchedulerTermination.NextProgress | scripts/benchmark/exp_utils.py:315-376 | every step lowers the measure on remaining stages but a retry of the same head after an assertion, which changes nothing |
| SchedulerTermination.RunsAreShort | scripts/benchmark/exp_utils.py:358-376 | a run without such retries is no longer than its measure, whatever processes and builds do |
| SchedulerTermination.RetryForever | scripts/benchmark/exp_utils.py:363-373 | a head whose attempt ends in an assertion is retried without polling, and while its build ends alike nothing happens any more |
| SchedulerTermination.BusyForever | scripts/benchmark/exp_utils.py:363-373 | an export that waits for another is retried without polling, for ever |
| SchedulerTermination.StuckIff | scripts/benchmark/exp_utils.py:315-348 | the loops have no next step exactly in a poll with nothing running |
| SchedulerTermination.NeverHangsIff | scripts/benchmark/exp_utils.py:350-376 | with other names, and fitting requests, known commands and at most one export among what is left to do: no run whose builds succeed hangs in the poll or in retries, if and only if there is no experiment or one has something left to do |
| SchedulerTermination.AdmissibleFinishes | scripts/benchmark/exp_utils.py:350-376 | in that case every run is at most 8n+1 steps, can always go on, and ends with every experiment finished and none rejected |
| SchedulerTermination.OversizedHangs | scripts/benchmark/exp_utils.py:148-180 | a request larger than the machine, for training or for an evaluation, hangs the scheduler |
| SchedulerTermination.OversizedEvalHangs | scripts/benchmark/exp_utils.py:148-154 | so does the evaluation after a training that fits |
| SchedulerTermination.UnknownCommandHangs | scripts/benchmark/exp_utils.py:216-217 | so does a command that the manager does not know |
| SchedulerTermination.SameNameHangs | scripts/benchmark/exp_utils.py:105-116 | so do two experiments with one name, each of which fits: the second is skipped for the record of the first |
| SchedulerTermination.TwoExportsRetry | scripts/benchmark/exp_utils.py:133-134 | two exports reach the endless retry, so the scheduler hangs |
| SchedulerTermination.FailedBuildHangs | scripts/benchmark/exp_utils.py:363-376 | a build that raises with nothing running leads to the endless poll |
| SchedulerTermination.AssertingBuildRetries | scripts/benchmark/exp_utils.py:363-373 | behind a running experiment, a build that asserts is retried for ever |
| SchedulerRecords.RecordsFollowResults | scripts/benchmark/exp_utils.py:315-348 | in every run a record says whether the last process of its name that ended well with a result was an evaluation; without one it is what it was |
| SchedulerRecords.LaunchFollowsRecord | scripts/benchmark/exp_utils.py:105-118 | in every run an experiment is skipped exactly with an evaluation on record, or a training and no data to evaluate on; it is launched as an evaluation with a training on record, and otherwise as it was queued |
| SchedulerRecords.EvaluatedIff | scripts/benchmark/exp_utils.py:315-348 | under the conditions of `NeverHangsIff`, at any point: an experiment not evaluated before is on record as evaluated exactly if an evaluation of it has ended well with a result |
| SchedulerRecords.TrainedAreEvaluated | scripts/benchmark/exp_utils.py:325-331 | under these conditions, at the end: of every training with data to evaluate on that ended well with a result an evaluation was launched |
| ExpManager.SortSorts | scripts/benchmark/exp_utils.py:353 | the queue starts sorted by request, a permutation, equal requests in the given order |
| ExpManager.ExpManager.FindFreeGpu | scripts/benchmark/exp_utils.py:226-234 | n devices that no running experiment holds, or nothing exactly when fewer are free |
| ExpManager.ExpManager.AssertGpuNotOverlap | scripts/benchmark/exp_utils.py:97-103 | passes exactly when no two running experiments share a device |
| ExpManager.ExpManager.RunExp | scripts/benchmark/exp_utils.py:105-146 | one launch attempt in the order of the source's checks; its overlap check always passes |
| ExpManager.ExpManager.TryHead | scripts/benchmark/exp_utils.py:360-375 | what an attempt does to the queue when it returns, raises, or fails an assertion, which keeps the head |
| ExpManager.ExpManager.SweepOnce | scripts/benchmark/exp_utils.py:319-347 | one sweep: evaluations to the front of the queue, records, and the survivors in order |
| ExpManager.RetriesInForever | scripts/benchmark/exp_utils.py:363-373 | where `Begin` reports an endless retry, no run whose builds end alike leaves the state |
| ExpManager.ExpManager.Poll | scripts/benchmark/exp_utils.py:315-348 | polls until a process has ended; never returns exactly when none is running |
| ExpManager.ExpManager.Begin | scripts/benchmark/exp_utils.py:350-376 | for all inputs the nested loops finish, poll for ever or retry the head for ever, as a run of the transition system; under the conditions of `NeverHangsIff` they finish, without a rejection, exactly when there is nothing or something to do |
| Dsml.ParamMatches | swift/agent_template/deepseek_v4.py:51-58 | a printed parameter with a clean name and text is matched whole, whatever follows |
| Dsml.CallMatches | swift/agent_template/deepseek_v4.py:126-138 | a printed invocation is matched whole, whatever follows |
| DsmlRoundTrip.ParsedIsPrintable | swift/agent_template/deepseek_v4.py:63-92 | every call parsed from any text is printable |
| DsmlRoundTrip.RoundTripIff | swift/agent_template/deepseek_v4.py:63-138 | printing then parsing gives the calls back if and only if names are non-empty and quote-free and names and texts avoid the closing tags |
| DsmlRoundTrip.ParsePrintParse | swift/agent_template/deepseek_v4.py:63-138 | what was parsed from any text prints to a text that parses to the same |
| DsmlRoundTrip.FunctionsRoundTrip | swift/agent_template/deepseek_v4.py:51-138 | functions come back with names, order, exact strings, and other values by the JSON contract |
| ToolArguments.AssignAllFills | swift/agent_template/deepseek_v4.py:76-87 | the dictionary of arguments has each name once, where it came first, with the value that came last |
| DsmlRoundTrip.FunctionsAreRead | swift/agent_template/deepseek_v4.py:73-88 | each call found becomes a function of its name; a string parameter and one whose text is not JSON keep their exact text, any other has the loaded value |
| DsmlRoundTrip.PrintedAreRead | swift/agent_template/deepseek_v4.py:63-138 | so do the functions parsed from the print of printable calls with any flags and texts |
| Scan.SpacesAre | swift/agent_template/deepseek_v4.py:67-70 | which characters the patterns take for spaces |
| DsmlText.ParamAccepted | swift/agent_template/deepseek_v4.py:69-71 | the parameter pattern accepts any spacing between the attributes, any name without quotes and any text up to the first closing tag |
| DsmlText.AcceptedParam | swift/agent_template/deepseek_v4.py:69-71 | and nothing else |
| DsmlText.CallAccepted | swift/agent_template/deepseek_v4.py:67-68 | the invocation pattern accepts any spacing before the name and any body up to the first closing tag |
| DsmlText.AcceptedCall | swift/agent_template/deepseek_v4.py:67-68 | and nothing else |
| DsmlText.CallsInText | swift/agent_template/deepseek_v4.py:63-138 | printed calls are found between any texts in which no invocation begins |
| DsmlRoundTrip.EncodeArguments | swift/agent_template/deepseek_v4.py:51-58 | the loop prints the parameters one to a line |
| DsmlRoundTrip.FormatToolCalls | swift/agent_template/deepseek_v4.py:126-138 | the loop prints the calls in one block |
| DsmlRoundTrip.GetToolcall | swift/agent_template/deepseek_v4.py:63-92 | the nested loops return the functions of the calls found, with their values as `FunctionsAreRead` says, or the fallback exactly when there is no call |
| SeedRoundTrip.RoundTrip | swift/agent_template/seed_oss.py:29-45 | clean calls whose function names open no parameter come back exactly |
| SeedRoundTrip.ParsedIsClean | swift/agent_template/seed_oss.py:29-45 | every call parsed from any text is clean |
| SeedRoundTrip.OpensIff | swift/agent_template/seed_oss.py:36-42 | a clean call whose function name opens a parameter comes back if and only if its one parameter mirrors what is swallowed |
| SeedRoundTrip.MirroringComesBack | swift/agent_template/seed_oss.py:36-42 | a call for which that happens |
| SeedRoundTrip.RoundTripIff | swift/agent_template/seed_oss.py:29-153 | for calls with distinct parameter names, as dictionaries have: printing then parsing gives them back if and only if each is clean and its function name opens no parameter before a first one, or mirrors it |
| SeedRoundTrip.FunctionsRoundTrip | swift/agent_template/seed_oss.py:29-153 | functions whose calls are clean, and apart or mirroring, come back with names and order, strings exactly and other values as JSON text |
| SeedRoundTrip.FunctionsAreRead | swift/agent_template/seed_oss.py:34-43 | each call found becomes a function of its name with the dictionary of its parameters and their exact texts |
| SeedText.ParamAccepted | swift/agent_template/seed_oss.py:40 | the parameter pattern accepts any name without `>` and any text up to the first closing tag |
| SeedText.AcceptedParam | swift/agent_template/seed_oss.py:40 | and nothing else |
| SeedText.BlockAccepted | swift/agent_template/seed_oss.py:30 | a block has at least one character and ends at the first closing tag after it |
| SeedText.AcceptedBlock | swift/agent_template/seed_oss.py:30 | and nothing else is a block |
| SeedText.CallsInText | swift/agent_template/seed_oss.py:29-153 | between texts in which no call begins clean calls are found exactly as alone: if and only if each is apart or mirrors |
| SeedRoundTrip.FormatToolCalls | swift/agent_template/seed_oss.py:136-153 | the nested loops print the calls |
| SeedRoundTrip.GetToolcall | swift/agent_template/seed_oss.py:29-45 | the loop returns the functions of blocks that have a name, with their dictionaries of exact texts, or the fallback exactly when there is no block |
| Shard.StrideAt | swift/dataloader/shard.py:55-57 | element k of a rank's share is element r + kW, and shares of whole rounds have equal length |
| Shard.BatchesHold | swift/dataloader/shard.py:59-77 | as many batches as `__len__` says, full but perhaps the last, that hold the indices in order, all or all but an incomplete last batch |
| Shard.RankIsBlock | swift/dataloader/shard.py:37-43 | the rank and the number of ranks that a process works with are the block of tp processes that it is in and the number of whole blocks |
| Shard.IndicesAt | swift/dataloader/shard.py:45-57 | index k of a share is entry r + kW of the permutation of the seed, or r + kW itself without shuffling |
| Shard.RanksPartition | swift/dataloader/shard.py:23-57 | each rank gets floor(N/W) indices and together they get each of 0..W*floor(N/W)-1 once, for every permutation |
| Shard.RanksDisjoint | swift/dataloader/shard.py:45-57 | no index goes to two ranks |
| Shard.ProcessesPartition | swift/dataloader/shard.py:37-57 | one process out of each block of tp, whichever, and together they get each index below W*floor(N/W) once |
| Shard.RankYieldsLen | swift/dataloader/shard.py:73-77 | every rank yields the announced number of batches, the same on all ranks |
| Shard.BatchSamplerShard.Iter | swift/dataloader/shard.py:45-77 | the loop that grows and resets a batch yields the batches of the share of the block that the process is in, as many as `__len__` says |
| Dispatcher.ReceivedAt | swift/dataloader/dispatcher.py:43-56 | after the same number of rounds on every rank, rank r has items r, r + W, and so on |
| Dispatcher.DataLoaderDispatcher.SkipBatches | swift/dataloader/dispatcher.py:35-38 | whole rounds are dropped; past the end it raises |
| Dispatcher.DataLoaderDispatcher.ScatterRound | swift/dataloader/dispatcher.py:44-56 | a round gives every rank its item, or stops every rank |
| Dispatcher.DataLoaderDispatcher.Run | swift/dataloader/dispatcher.py:40-56 | all ranks stop in the same round with the items of their positions after the skip |
| Dispatcher.DispatcherMatchesSampler | swift/dataloader/dispatcher.py:40-56 | scattering in order gives each rank what the unshuffled sampler gives it in batches of one |
| Dispatcher.SkipResumes | swift/dataloader/dispatcher.py:35-38 | skipping k rounds gives what would have come from round k on |
| Frames.ReturnsIff | research/agentic/frames.py:149-190 | a box is returned exactly for four numbers whose clamped box is not empty, at most 1:100, and has room if it must grow |
| Frames.ErrorIs | research/agentic/frames.py:149-175 | which error there is otherwise, in the order of the checks |
| Frames.ClampIsIntersection | research/agentic/frames.py:160-162 | a point is in the clamped box exactly if it is in the box and in the image |
| Frames.ReturnedPixels | research/agentic/frames.py:171-190 | the pixels of the corners of the clamped box if both sides are at least 28, and of the grown box otherwise |
| Frames.ReturnedIsUsable | research/agentic/frames.py:149-190 | a returned box lies in the image with sides of at least 28 after truncation, and before truncation contains the clamped box |
| Frames.GrowCovers | research/agentic/frames.py:176-188 | a grown box contains the clamped one also when shifted off an edge |
| Frames.GrowsAboutCentre | research/agentic/frames.py:176-188 | on each axis the centre stays exactly if the grown side about it lies in the image; otherwise the box is flush with the edge that it would cross |
| Frames.GrowKeepsRatioIff | research/agentic/frames.py:179-188 | the shorter side grows to exactly 28; the longer one keeps the aspect ratio exactly when, scaled alike, it fits the image, and is else the whole side of the image |
| Frames.RoutesAgree | research/agentic/frames.py:114-137 | normalised to fetched is the same directly or through native, and native and fetched conversions are inverse |
| Frames.FramesAgree | research/agentic/frames.py:193-215 | corresponding boxes in any frame give the same pixels or the same error |
| Frames.RejectedFor | research/agentic/frames.py:193-215 | which error a malformed box or an unknown frame gives, and that further coordinates are ignored where they are not unpacked |
| Wilson.IntervalIff | research/eval/plotstyle.py:203-220 | 0 <= lo <= p <= hi <= 1, the clamps change nothing, and x is in the interval exactly when (p-x)^2 <= z^2 x(1-x)/n |
| Wilson.AnswersIff | research/eval/plotstyle.py:203-220 | whatever the counts: an answer exactly if there are samples, with the proportion, and ends that do not leave [0, 1] |
| Wilson.RadicandNonNegative | research/eval/plotstyle.py:217 | the square root is always taken of a non-negative number |

## Left out

- Streams, events, pinned memory, device copies, FSDP wrapping, autograd hooks and checkpointing: offload and reload are copies, and the schedule of pushes, commits and pops is given.
- State after a failed assertion of the offload handlers: the methods say which assertion fails, not what the fields then hold.
- Layouts and devices of tensors, and how a key is computed from storage: a key is an address with a dtype, and a view fails exactly on another number of elements.
- OffloadRepeated.IterationsRepeat: assumes that each iteration pushes the tags of the one before. Of an iteration after an incomplete one that pushes other tags it is only said that a leftover one raises (`LeftoverRaises`), not what it returns when it pushes none.
- OffloadIteration.AtMostTwoGroups: assumes that every tag is popped; `DeviceHoldsTwo` and `AtMostTwoGroupsIff` say what holds without that.
- Threads, processes and pickling: steps over queues, a queue in order, and serialisation as a lossless map to non-empty bytes. The size limit of the writer's queue is modelled; the queues of the packers have none.
- The chunk size is a whole number; the source writes the constant as a float.
- The bin packing library and `split_list`: the first by its contract, with best fit as a witness; the second by any chunks that concatenate to the list. How many workers are started is not part of this model.
- A dataset of the streaming packer that cannot be iterated a second time, a worker that dies in strict mode, and cyclic streaming, which never ends.
- Broadcast of the packed index, `__getitem__` and `__len__` of the packing dataset: easy members.
- Floating-point rounding in pass@k, crop boxes and the Wilson interval; the root taken by the Wilson interval is given as the non-negative square root.
- `majority_answer`, bootstrap intervals and the rest of the scoring: filters and aggregation.
- Experiments without a GPU request, building commands, metric files and reloading an experiment from its record beyond the evaluation flag.
- The two calls of `poll` in one sweep see the same processes; experiments are values, so an experiment object shared between lists is not modelled.
- SchedulerTermination.NeverHangsIff: assumes that builds succeed; `FailedBuildHangs` and `AssertingBuildRetries` show that it must, and how a build ends is not known before the launch.
- Which arguments a build rejects, and by which kind of exception: the environment decides for each experiment, and may change its mind between two polls (`World.build`).
- An exception other than an assertion whose message happens to say that no device is free, which also ends the inner loop.
- SchedulerTermination.AdmissibleFinishes: every launched process is taken to end at some poll, as in `World.ends` of `ExpManager`; a process that never ends keeps the poll waiting.
- The fallback of both parsers to the ReAct format, JSON parsing of the messages themselves, and regular expressions beyond leftmost matches with first delimiters.
- Other agent templates, whose parsers strip or guess string values or rest on JSON alone.
- Sampling grouped by length, whose order is not a permutation of whole rounds; the seeded generator, which is any function from seed and length to a permutation.
- World sizes that the tensor-parallel size does not divide, and a dispatched batch that is itself empty of a value.
- Values in a box that are not numbers, and the computation of the fetched image size.
