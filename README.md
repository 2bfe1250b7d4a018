# Marian training groups and hard-attention indices, modelled in Dafny

This project models two parts of the Marian neural machine translation toolkit.

**Training groups** (`src/training/graph_group.h`) drive training across devices:

- `AsyncGraphGroup` splits the flat parameter vector into one shard per device.
  - Each shard keeps a ring of `history_size_` parameter versions and a global version counter.
  - Each worker keeps the version of every shard it last synchronised against.
  - Workers fetch parameters densely, or sparsely as the change since their own version.
  - They push dense or sparsified gradients, which step each shard's optimizer.
- `SyncGraphGroup` collects one batch per replica and computes a gradient on every replica. Replica 0 averages the gradients, takes one optimizer step and copies its parameters to every other replica.
- `Singleton` trains one graph, optionally keeping a moving average of its parameters.
- All three write checkpoints, under names chosen as the source chooses them.

**Hard-attention decoders** (`src/models/hardatt.h`) attend to exactly one source position per target position.

- That position is a row index into the flattened source context. Source word `t` of sentence `j`, in a batch of `dimBatch` sentences, is row `t * dimBatch + j`.
- The model covers how these indices are:
  - derived from the target words and the "special" symbols for training;
  - advanced and clamped during search;
  - gathered by beam selection.

**How the source maps to Dafny**

- Stateful objects become classes. The fields the source updates are Dafny fields, and every method says what it changes and what the new state is.
- Tensors are an opaque type parameter.
- Tensor operations are function-valued fields of an `Ops` datatype passed to the constructor. These are the optimizer step, `copyFrom` arithmetic, the gradient dropper, sparse slicing, densifying and the moving average. Their implementations are not part of this model.
- A ghost log `history[s]` holds every value shard `s` has taken.
- The central invariant, `VersionRing.RingHolds`, says that slot `k` of a shard's ring holds the latest version `v <= g` with `v % h == k`, or version 0 when slot `k` was never written. Here `g` is the shard's global version and `h` the history size.
- Each per-shard thread body is one sequential method. The loops that spawn threads are loops over the shards.

**Files**

- `wrappers.dfy`: `Option` and `Result`.
- `partition.dfy`: the shard partition of the first batch.
- `version_ring.dfy`: history sizing and the ring of versions.
- `checkpoint.dfy`: checkpoint names and save actions.
- `async_group.dfy`, `sync_group.dfy`, `singleton.dfy`: the three training groups.
- `hardatt.dfy`: the attention indices of `DecoderStateHardAtt`, `DecoderHardAtt` and `MultiDecoderHardSoftAtt`.

**Where the model follows the code, and where it follows the corrected behaviour**

- At five of the six source defects listed under "## Findings", the classes use the corrected behaviour. The code as written is the `…AsWritten` member next to each one, with a lemma that shows the discrepancy on a concrete input:
  - `AsyncGraphGroup.InitBuffers` uses the rounded-up `Partition.ShardSize`. The floor of line 417 is `Partition.ShardSizeAsWritten`.
  - `AsyncGraphGroup.RunTask` and `FetchParams` read `LatestParams`. The slot of line 532 is `VersionRing.DenseFetchSlotsAsWritten` and `AsyncGraphGroup.DenseFetchSourceAsWritten`.
  - `Singleton.Save` saves the graph that `ModelGraph` selects. `ModelGraph` is the average graph whenever the moving average is on, as at lines 97-100 and 139-141, and the save fails while that graph is not built yet. The `graph_` of lines 146-165 is `SingletonGroup.SaveActionsAsWritten`.
  - `SyncGraphGroup.Finish` executes only when batches are pending. The unconditional `execute()` of lines 772-774 is `SyncGroup.FinishAsWritten`.
  - `DecoderHardAtt.GroundTruth` computes `AlignedGroundTruth`. The leading row of zeros of line 228 is `HardAtt.GroundTruthAsWritten`.
- Everywhere else the model follows the code, including two points where the behaviour might be expected to differ:
  - A partition whose shard sizes sum to the parameter count and differ by at most one would be expected. Even with the size rounded up, the code's last shards can shrink by more than one. For example, 10 parameters on 4 devices give 3, 3, 3, 1. The model keeps the code's `min(shardSize_, remaining)` sizes.
  - A worker `history_size_` or more versions behind takes its delta against the oldest retained slot (`graph_group.h:305-306`). It then records the shard's global version as its own (`graph_group.h:333`), whichever baseline the delta was taken against. `AsyncGroup.AsyncGraphGroup.SparseFetchShard` states this behaviour.
  - The sixth defect: the dense fetch (`graph_group.h:530-533`, `fetchParams` at 234-250) does not record the versions it copied. With dropping on, the worker's next fetch is sparse and adds the change since its old recorded version on top of parameters already fetched at a later version. The classes keep this behaviour (`AsyncGroup.AsyncGraphGroup.TaskEffect`: the dense case leaves `localVersion` as it was). Its effect on one slice is `VersionRing.TwoFetchesAsWritten`, and the intended behaviour is `VersionRing.TwoFetches`.

## Model

| member | source | states |
|---|---|---|
| Partition.ShardSizeAsWritten | src/training/graph_group.h:417 | `ceil(totalSize / D)` on integers is the floor: `s * D <= totalSize < (s + 1) * D` |
| Partition.ShardSize | src/training/graph_group.h:417 | the rounded-up shard size: `totalSize <= s * D < totalSize + D` |
| Partition.ComputeShards | src/training/graph_group.h:419-437 | each shard gets `min(shardSize, remaining)` elements; offsets are the running sums of the earlier sizes; no shard exceeds `shardSize`; the shards never exceed the vector |
| Partition.SumOfSizes | src/training/graph_group.h:421-423 | the shard sizes sum to `min(totalSize, D * shardSize)` |
| Partition.SizesAllFull | src/training/graph_group.h:421-423 | when `D * shardSize` elements remain, every shard is full |
| Partition.AsWrittenCoverage | src/training/graph_group.h:417-423 | as written, every shard has `totalSize / D` elements, and the shards cover the vector exactly when `D` divides `totalSize` |
| Partition.AsWrittenLosesRemainder | src/training/graph_group.h:417-423 | as written, 10 parameters on 4 devices leave 2 parameters in no shard |
| Partition.CorrectedCoverage | src/training/graph_group.h:417-423 | with the shard size rounded up, the shards cover the whole vector |
| Partition.Sizes | src/training/graph_group.h:421-423 | one size per device, none above the shard size; the first device gets `min(shardSize, remaining)` |
| VersionRing.HistorySize | src/training/graph_group.h:587-591 | 1 without gradient dropping; otherwise `D * 1.5` truncated, i.e. `D + D / 2` |
| VersionRing.SparseHistoryExceedsWorkers | src/training/graph_group.h:587-589 | with dropping on and two or more devices, the ring has more slots than there are workers, and at least 3 |
| VersionRing.SlotVersion | src/training/graph_group.h:266-269 | the version held by slot `k`: never above the global version |
| VersionRing.LatestSlot | src/training/graph_group.h:268 | slot `g % h` holds version `g` |
| VersionRing.RetainedSlot | src/training/graph_group.h:302 | every version younger than `h` steps is still in its own slot `v % h` |
| VersionRing.PushSlot | src/training/graph_group.h:267-269 | a push moves only slot `(g + 1) % h`, which then holds version `g + 1` |
| VersionRing.BaselineSlot | src/training/graph_group.h:301-306 | `currVersion`, always a valid slot |
| VersionRing.BaselineSlotHoldsBaseline | src/training/graph_group.h:301-306 | the baseline slot holds the worker's own version when it is fewer than `h` behind, else the oldest still-retained version `g - h + 1` |
| VersionRing.RingStart | src/training/graph_group.h:426-433 | a ring with every slot equal to version 0 satisfies the ring invariant |
| VersionRing.RingLatest | src/training/graph_group.h:268-272 | under the ring invariant, slot `g % h` is the latest value |
| VersionRing.RingPush | src/training/graph_group.h:267-272 | writing the next value into slot `(g + 1) % h` keeps the invariant at version `g + 1` |
| VersionRing.RingRewrite | src/training/graph_group.h:264-272 | with one slot, an in-place update keeps the invariant with the latest version rewritten |
| VersionRing.RingBaseline | src/training/graph_group.h:313-314 | the delta is taken against the baseline version's value |
| VersionRing.DenseFetchSlots | src/training/graph_group.h:532 | the corrected dense fetch reads, for every shard, the slot holding that shard's latest version |
| VersionRing.DenseFetchSlotsAsWritten | src/training/graph_group.h:532 | as written, every shard is read at slot `globalVersionNumber[my_id] % h`, a worker id used as a shard index |
| VersionRing.DenseFetchAsWrittenIsStale | src/training/graph_group.h:532 | as written, with shards at versions 0 and 1, worker 0 reads shard 1 at version 0 instead of 1 |
| VersionRing.DenseFetchAsWrittenLevel | src/training/graph_group.h:532 | as written, the fetch reads the same slots as the corrected one when the ring has one slot or every shard is at the worker's counter's version |
| VersionRing.TwoFetchesAsWritten | src/training/graph_group.h:297-333 | as written, a dense fetch of version `g1` and a later sparse fetch at `g2`, within the window of the recorded version `l`, give `hist[g2] + (hist[g1] - hist[l])` |
| VersionRing.TwoFetches | src/training/graph_group.h:297-333 | with the dense fetch recording `g1`, the two fetches give the latest value `hist[g2]` within the window |
| VersionRing.TwoFetchesAsWrittenAgrees | src/training/graph_group.h:297-333 | within the window, the fetches as written give the intended value exactly when the slice did not change between versions `l` and `g1` |
| VersionRing.TwoFetchesAsWrittenDoubleCounts | src/training/graph_group.h:530-533 | as written, values 0, 1, 2 with three slots, recorded version 0 and a dense fetch of version 1, give 3 after the sparse fetch instead of 2 |
| Checkpoint.NatToString | src/training/graph_group.h:159 | `std::to_string`: non-empty decimal digits with no leading zero |
| Checkpoint.ParsePrinted | src/training/graph_group.h:159 | reading the printed batch count gives the count back |
| Checkpoint.PrintedInjective | src/training/graph_group.h:159 | different counts print differently |
| Checkpoint.IterName | src/training/graph_group.h:157-159 | the last four characters give way to `.iter<batches>.npz`; fails exactly when the name is shorter than four characters |
| Checkpoint.SaveActions | src/training/graph_group.h:632-650 | overwrite or final: the builder saves `model` (flag true), then the reporter saves `model`; otherwise an iteration-numbered save comes first; fails only for a short name when neither is set |
| Checkpoint.SyncSaveName | src/training/graph_group.h:783-791 | the name starts with `model` and ends with ".npz"; when overwriting there is nothing in between; otherwise the between part is "." followed by decimal digits that read back as the batch count |
| Checkpoint.SyncSaveNamesDistinct | src/training/graph_group.h:788-789 | without overwriting, different batch counts never share a file |
| Checkpoint.GraphIndex | src/training/graph_group.h:624-630 | the first position of the graph among the group's graphs, 0 when it is not one of them |
| AsyncGroup.AllBehindAdvance | src/training/graph_group.h:268 | a shard's counter advancing keeps every worker at or behind every shard |
| AsyncGroup.AllBehindSync | src/training/graph_group.h:333 | a worker adopting a shard's version stays at or behind every shard |
| AsyncGroup.AllRingsUpdate | src/training/graph_group.h:257-282 | updating one shard's ring consistently keeps every ring valid |
| AsyncGroup.ZeroVersions | src/training/graph_group.h:407-412 | one global 0 per shard, and a row of `D` zeros per worker |
| AsyncGroup.InitialRing | src/training/graph_group.h:426-433 | a fresh ring of `h` copies of the shard's slice satisfies the ring invariant at version 0 |
| AsyncGroup.AsyncGraphGroup.constructor | src/training/graph_group.h:578-600 | no shard exists yet; `historySize == HistorySize(dropRate, D)` |
| AsyncGroup.AsyncGraphGroup.LatestParams | src/training/graph_group.h:532 | shard `s` of the result is its latest version `history[s][globalVersion[s]]` |
| AsyncGroup.AsyncGraphGroup.DenseFetchSourceAsWritten | src/training/graph_group.h:532 | what the dense fetch reads as written: shard `s` at the version in slot `globalVersion[w] % h` |
| AsyncGroup.AsyncGraphGroup.InitFirstBatch | src/training/graph_group.h:398-492 | versions all 0; every slot of shard `s` holds graph 0's slice; every worker keeps its built parameters; the shards cover the vector; the average starts as slot 0; batch counters start at 0 |
| AsyncGroup.AsyncGraphGroup.InitBuffers | src/training/graph_group.h:415-475 | the rounded-up partition, which sums to the parameter count; gradient buffers; the moving average from graph 0's slices |
| AsyncGroup.AsyncGraphGroup.InitRings | src/training/graph_group.h:407-433 | every shard at version 0, its log graph 0's slice, and every slot of its ring graph 0's slice; the rings are valid |
| AsyncGroup.AsyncGraphGroup.InitWorkers | src/training/graph_group.h:400-412 | every worker at version 0 of every shard, with its own built parameters; the worker state is valid |
| AsyncGroup.AsyncGraphGroup.FetchParams | src/training/graph_group.h:234-251 | worker `w`'s slices become `src`; nothing else changes |
| AsyncGroup.AsyncGraphGroup.ApplyUpdate | src/training/graph_group.h:264-276 | versioned: the counter advances and slot `(g + 1) % h` holds the optimizer's result; unversioned: slot 0 is rewritten; the log and the average follow; validity is kept |
| AsyncGroup.AsyncGraphGroup.PushShard | src/training/graph_group.h:258-279 | the shard's gradient buffer takes the slice, and one step is logged, versioned exactly when `h > 1` |
| AsyncGroup.AsyncGraphGroup.PushGradients | src/training/graph_group.h:253-285 | every shard takes one optimizer step with its own slice; versions advance by 1 exactly when `h > 1`; each step appears in the log and the average |
| AsyncGroup.AsyncGraphGroup.SparsePushShard | src/training/graph_group.h:354-382 | the shard's slice of the sparse gradient is densified at offset `-pos`, then applied as a new version |
| AsyncGroup.AsyncGraphGroup.SparsePush | src/training/graph_group.h:345-389 | one graph: the global optimizer updates it, and the shards, their gradient buffers and the averages are untouched; otherwise every shard advances one version with its own densified slice, and with the moving average on each average takes one step towards the new version |
| AsyncGroup.AsyncGraphGroup.SparsePushShards | src/training/graph_group.h:352-387 | shard `s` uses offset `s * shardSize`; every shard advances exactly one version, logs the optimizer's result on its densified slice, and its average, when kept, steps towards that result |
| AsyncGroup.AsyncGraphGroup.SparseFetchShard | src/training/graph_group.h:297-335 | up to date: nothing changes; otherwise the sparsified `latest - baseline` is added to the worker's slice; either way the worker records the shard's global version |
| AsyncGroup.AsyncGraphGroup.SparseFetchParams | src/training/graph_group.h:288-342 | a no-op with one graph; otherwise the worker ends at every shard's version, and only its own slices and buffers change |
| AsyncGroup.AsyncGraphGroup.RunTask | src/training/graph_group.h:527-546 | the task's effect (`TaskEffect`): the counter `t` advances; a dense fetch of the latest versions that keeps the recorded versions, or, with dropping on and after the first batch, a sparse fetch that adds the densified dropped delta to every slice the worker is behind on and records every shard's version, leaving other workers alone; a dense push steps every shard with the gradient at the fetched parameters; a sparse push logs, per shard, the optimizer's result on the densified slice of the dropped gradient at the fetched parameters; with one graph the global optimizer updates it and no shard changes; the moving average steps towards every shard's new value exactly when shards are pushed |
| AsyncGroup.AsyncGraphGroup.TaskFetch | src/training/graph_group.h:530-533 | dense: the worker gets every shard's latest version and the recorded versions and delta buffers stay; sparse: a slice the worker is behind on gets the densified dropped delta added and kept in the delta buffer, an up-to-date slice stays, the worker records every shard's version, and no other worker changes; with one graph the sparse fetch changes nothing |
| AsyncGroup.AsyncGraphGroup.TaskPush | src/training/graph_group.h:535-546 | the gradient is taken at the worker's parameters; dense: every shard steps with its slice; sparse: every shard steps with its densified slice of the dropped gradient; one graph: the global optimizer updates it; the moving average steps towards each shard's new value exactly when shards are pushed |
| AsyncGroup.AsyncGraphGroup.Execute | src/training/graph_group.h:397-570 | the first call has the effect of `FirstTask`; every later call keeps the partition and has the task's effect (`TaskEffect`) on fetched parameters, delta buffers, versions, logs and averages |
| AsyncGroup.AsyncGraphGroup.FirstTask | src/training/graph_group.h:403-437 | `FirstTaskDone`: the rounded-up shards; every worker at version 0; worker `w` holds graph 0's parameters and each shard's log is graph 0's slice followed by the step taken from graph 0's slices; each average one step from graph 0's slice when shards are pushed |
| AsyncGroup.AsyncGraphGroup.Save | src/training/graph_group.h:618-620 | the checkpoint actions for graph 0 |
| AsyncGroup.AsyncGraphGroup.SaveFrom | src/training/graph_group.h:555-559 | with the moving average on, the worker's graph first receives the averaged parameters; then the actions for that worker's graph, with `final` false |
| SyncGroup.Distributed | src/training/graph_group.h:689-700 | every replica holds replica 0's tensor |
| SyncGroup.Accumulated | src/training/graph_group.h:667-687 | with two or more replicas, replica 0 receives the sum of all gradients divided by their number; the others are unchanged; one replica is untouched |
| SyncGroup.TaskGrads | src/training/graph_group.h:732-737 | one gradient per replica; a replica that no batch reached keeps its old gradient |
| SyncGroup.TaskGradsRoute | src/training/graph_group.h:712-737 | replica `k` holds the gradient of batch `k` at its own parameters, or its old gradient when no batch reached it |
| SyncGroup.FullRoundGradients | src/training/graph_group.h:734-737 | a full round gives every replica the gradient of its own batch |
| SyncGroup.Built | src/training/graph_group.h:703-707 | replica `w` holds its parameters after the first build |
| SyncGroup.Step | src/training/graph_group.h:702-743 | one round; afterwards the replicas are built, and there are as many parameters and gradients as replicas |
| SyncGroup.StepReplicasAgree | src/training/graph_group.h:738-740 | after a round, every replica holds replica 0's parameters after one step with the averaged gradient |
| SyncGroup.FoldAddTotal | src/training/graph_group.h:677-683 | on numbers, the accumulating loop computes the plain sum |
| SyncGroup.TotalFront | src/training/graph_group.h:677-683 | the sum splits off its first element |
| SyncGroup.AccumulatedIsMean | src/training/graph_group.h:677-686 | on numbers, replica 0's accumulated gradient is the floored mean |
| SyncGroup.FinishAsWritten | src/training/graph_group.h:772-774 | as written, the destructor always runs `execute()`; it fails exactly when nothing was ever built and no batch is pending (`batches_[0]` out of range) |
| SyncGroup.FinishAsWrittenStepsAgain | src/training/graph_group.h:772-774 | as written, with no batch pending, replica parameters 10 with gradient 1 become 9 |
| SyncGroup.Flushed | src/training/graph_group.h:772-774 | corrected: with no batch pending the state is unchanged, otherwise one round runs |
| SyncGroup.SyncGraphGroup.constructor | src/training/graph_group.h:756-770 | `workers` replicas, none built, no batch pending |
| SyncGroup.SyncGraphGroup.Update | src/training/graph_group.h:776-780 | the batch is queued; when it fills the round, one `Step` runs and the queue empties |
| SyncGroup.SyncGraphGroup.Execute | src/training/graph_group.h:702-743 | the new state is `Step` of the old state and the pending batches; the queue empties |
| SyncGroup.SyncGraphGroup.BuildReplicas | src/training/graph_group.h:703-707 | every replica holds its first-build parameters |
| SyncGroup.SyncGraphGroup.RunTasks | src/training/graph_group.h:732-737 | batch `i` runs on replica `i % workers` |
| SyncGroup.SyncGraphGroup.AccumulateGradients | src/training/graph_group.h:667-687 | the gradients become `Accumulated` of the old ones |
| SyncGroup.SyncGraphGroup.DistributeParameters | src/training/graph_group.h:689-700 | the parameters become `Distributed` of the old ones |
| SyncGroup.SyncGraphGroup.Finish | src/training/graph_group.h:772-774 | corrected destructor: the state becomes `Flushed`, and the queue is empty |
| SyncGroup.SyncGraphGroup.Save | src/training/graph_group.h:782-792 | one builder save of replica 0 under `SyncSaveName` |
| SingletonGroup.MovingAverageBetween | src/training/graph_group.h:60-63 | for a decay in [0, 1], the new average lies between the old average and the parameters |
| SingletonGroup.MovingAverage | src/training/graph_group.h:60-63 | the average moves `(1 - decay)` of the way towards the parameter: it stays put with decay 1 and becomes the parameter with decay 0 |
| SingletonGroup.RealOps | src/training/graph_group.h:60-63 | a group on one real parameter whose moving average is the `updateMovingAverage` formula |
| SingletonGroup.RealAverageBetween | src/training/graph_group.h:60-89 | a `Singleton` built with `RealOps` keeps its average between the previous average and the new parameter at every step after the first |
| SingletonGroup.ModelGraph | src/training/graph_group.h:138-144 | the average graph exactly when the moving average is on, whether or not it is built yet; validation (97-100) makes the same choice |
| SingletonGroup.SaveActionsAsWritten | src/training/graph_group.h:146-165 | as written, the actions are those of a save of the graph passed, with the same files and order, except that every builder save writes the training graph; it fails exactly where that save fails |
| SingletonGroup.SaveAsWrittenIgnoresGraph | src/training/graph_group.h:146-165 | as written, the actions are the same whichever graph is passed |
| SingletonGroup.SaveAsWrittenIgnoresAverage | src/training/graph_group.h:138-165 | as written, with the average on, the checkpoint still holds the training parameters |
| SingletonGroup.Singleton.constructor | src/training/graph_group.h:108-122 | no average graph exists yet |
| SingletonGroup.Singleton.Execute | src/training/graph_group.h:65-89 | one optimizer step; the average graph starts as a copy of the new parameters, then decays towards them; no average without `mvAvg_` |
| SingletonGroup.Singleton.Save | src/training/graph_group.h:138-165 | corrected: fails exactly when the average is on but not built yet, or the name is too short for an iteration save; otherwise the actions of `SaveActions` for `ModelGraph`, whose builder saves write the average graph exactly when the average is on |
| HardAtt.SpecialSymbols | src/models/hardatt.h:99-102 | exactly the `special-vocab` values; empty without the option |
| HardAtt.GatherIndices | src/models/hardatt.h:41-43 | `selected[k] == indices[selIdx[k]]`, with length `\|selIdx\|` |
| HardAtt.Advance | src/models/hardatt.h:261-263 | `++` on the `size_t` index, then clamped: below `dimSrcWords`; `x + 1` inside the sentence, `dimSrcWords - 1` past it; `SIZE_MAX` for an empty source |
| HardAtt.SelectedAttention | src/models/hardatt.h:255-265 | empty `embIdx`: `[0]`; fails exactly when the indices are empty and a special word was emitted; otherwise the length is unchanged |
| HardAtt.SelectKeepsOrdinary | src/models/hardatt.h:259-260 | positions whose word is not special keep their index |
| HardAtt.SelectAdvancesSpecial | src/models/hardatt.h:260-264 | a special position becomes `old + 1`, or `dimSrcWords - 1` once past the end; either way it is below `dimSrcWords` |
| HardAtt.SelectStaysInSource | src/models/hardatt.h:255-265 | indices inside the source sentence stay inside it |
| HardAtt.SelectMovesForward | src/models/hardatt.h:259-264 | inside the sentence, an index never moves back and moves by at most one |
| HardAtt.Count | src/models/hardatt.h:232-236 | the number of special words of a sentence in the first `n` rows, at most `n` |
| HardAtt.RowsBetween | src/models/hardatt.h:232-238 | one row of `dimBatch` positions per row read |
| HardAtt.PositionStep | src/models/hardatt.h:235-236 | reading one more row adds `dimBatch` exactly when that row's word is special |
| HardAtt.PositionResidue | src/models/hardatt.h:229-236 | sentence `j`'s position is `j` modulo `dimBatch` and at most `j + dimBatch * n` |
| HardAtt.RowsBetweenAt | src/models/hardatt.h:232-238 | entry `(r - lo) * dimBatch + j` is sentence `j`'s position after `r` rows |
| HardAtt.RowsBetweenFront | src/models/hardatt.h:232-238 | the rows split off their first row |
| HardAtt.GroundTruthAsWritten | src/models/hardatt.h:228-239 | as written, `dimBatch` entries per target row, with a leading row of zeros |
| HardAtt.AlignedGroundTruth | src/models/hardatt.h:228-239 | `dimBatch` entries per target row, the leading row being every sentence's own row `j` |
| HardAtt.AlignedGroundTruthAt | src/models/hardatt.h:228-239 | `dimBatch * dimWords` entries (`dimBatch` when there are no words); row `r`, column `j` is `j + dimBatch` times that sentence's special words in rows `0 .. r-1` |
| HardAtt.AlignedColumn | src/models/hardatt.h:232-238 | down a column, entries differ by 0, or by `dimBatch` exactly when the word in between is special; each entry is `j` modulo `dimBatch` |
| HardAtt.AsWrittenAfterLeadingRow | src/models/hardatt.h:228-239 | as written, the length is `dimBatch * dimWords`; the leading row is all zeros; every later entry agrees with the aligned ground truth |
| HardAtt.GroundTruthAsWrittenMisaligned | src/models/hardatt.h:228 | as written, in a batch of two sentences, sentence 1 first attends to row 0 (sentence 0's first word) instead of its own row 1 |
| HardAtt.DecoderStateHardAtt.GetAttentionIndices | src/models/hardatt.h:53-56 | fails ("Empty attention indices") exactly when the indices are empty; otherwise returns them |
| HardAtt.DecoderStateHardAtt.SetAttentionIndices | src/models/hardatt.h:49-51 | the indices become the argument |
| HardAtt.DecoderStateHardAtt.Select | src/models/hardatt.h:29-47 | a fresh state whose indices are those of the selected hypotheses, in selection order |
| HardAtt.DecoderHardAtt.constructor | src/models/hardatt.h:96-103 | the special symbols are `SpecialSymbols` of the option |
| HardAtt.DecoderHardAtt.StartState | src/models/hardatt.h:105-121 | a fresh state attending to `[0]`; `MultiDecoderHardSoftAtt::startState` (430-431) starts there too |
| HardAtt.DecoderHardAtt.AlignedIndices | src/models/hardatt.h:228-239 | the nested loops compute the aligned ground truth |
| HardAtt.DecoderHardAtt.ReadRow | src/models/hardatt.h:233-238 | one outer iteration: every position advances past row `i` and is appended |
| HardAtt.DecoderHardAtt.GroundTruth | src/models/hardatt.h:215-244 | the state's indices become the aligned ground truth of the batch |
| HardAtt.DecoderHardAtt.SelectEmbeddings | src/models/hardatt.h:246-266 | the state's indices become `SelectedAttention` of the old ones; on failure, the error comes back and nothing changes; `MultiDecoderHardSoftAtt::selectEmbeddings` (545-567) runs the same loop with the first encoder's source length |

## Left out

- Threads, mutexes, the thread pool and device synchronisation are not modelled. Each per-shard lambda body runs as one atomic sequential step, so interleavings between workers are not modelled.
- `thread_local` worker-id assignment is not modelled. Workers are named by their index `w`.
- SyncGroup.TaskGrads: the model fixes the schedule in which each pool thread takes one batch, so batch `i` runs on replica `i % workers`. In the source, `thread_local int j` (714-717) keeps a thread on the replica of its first batch, so a thread that takes a second batch of a round runs it on that first replica instead. `SyncGroup.SyncGraphGroup.RunTasks` follows the same schedule.
- Floating-point tensor arithmetic is not modelled. The optimizer, `Element` expressions, the moving average and gradient division are opaque operations, except the single-value moving average `SingletonGroup.MovingAverage` on reals and `SyncGroup.NumberOps` on integers.
- `GradientDrop::dropGraph` and the `SparseTensor` operations are uninterpreted functions. Their definitions (`dropper.h`, `sparse_tensor.h`) are not part of this model. With one graph and dropping on, the model takes the optimizer step (`opt_->update(graphs_[0])`, 347) with the gradient from before dropping. This assumes that `dropGraph(graph->params()->grads(), …)` (542) leaves the graph's own gradient as it was.
- The Builder, the expression graph, the Reporter and `boost::filesystem` are left out. For the Builder and the graph, only their effects are kept: build and forward become parameter values, backward becomes a gradient function, and saves become `SaveAction` values. From the Reporter, only the batch count is kept, passed in as a parameter.
- Tensor allocation and sizes are left out. A shard slice is one opaque value; sizes appear only in the partition and in sparse slicing.
- `load()`, `collectStats()`, validation, and the save-frequency check inside the tasks are not modelled. They are I/O and Reporter calls. Of validation, only the graph it reads is kept (`SingletonGroup.ModelGraph`).
- The tensor parts of the hard-attention decoders are not modelled. This covers the `step` bodies, GRU cells, attention, the `Dense` layers and the reshapes, and the `states_` gathered by `select`. Only the `size_t` attention indices are modelled.
- `DecoderBase::groundTruth` and `selectEmbeddings` of the base class are left out. They are defined outside the hard-attention decoder.
- SyncGroup.SyncGraphGroup.Save: the unused `final` argument is not modelled. The builder's default third argument is taken to be `false`, since the Builder is not part of this model.
- Checkpoint.SaveActions: the iteration save (`builders_[idx]->save(graphs_[idx], nameOverwrite)` at 645, and the Singleton's at 160) passes no third argument. The model takes the Builder's default to be `false`, since the Builder is not part of this model.
- HardAtt.DecoderHardAtt.SelectEmbeddings: it requires every special position to be below the number of indices when there are any. The source indexes the vector there without a check, which is undefined behaviour.

## Findings

| source | as written | input that shows it | evidently intended | confidence | as-written member | corrected member |
|---|---|---|---|---|---|---|
| src/training/graph_group.h:417 | `ceil(totalSize / devices_.size())` divides two integers before `ceil`, so the shard size is `floor(N / D)` | 10 parameters on 4 devices: shards of 2, 2, 2, 2 cover 8 parameters | the shard size rounded up, so the shards cover all `N` parameters | high, not executed | Partition.AsWrittenLosesRemainder | Partition.CorrectedCoverage |
| src/training/graph_group.h:532 | the dense fetch reads every shard at slot `globalVersionNumber[my_id] % history_size_`, indexing the per-shard counters by worker id | history 3; shards at versions 0 and 1; worker 0 reads shard 1 at version 0. The slot can be wrong only when dropping is on, since otherwise the ring has one slot. With dropping on, only a worker's first fetch is dense, and the shards must then stand at different versions. That state needs other workers' per-shard pushes to be under way concurrently. In the sequential model every push advances all shards together, so the classes never reach it. `VersionRing.DenseFetchAsWrittenLevel` proves that the two fetches agree with one slot or with all shards at one version | each shard read at the slot of its own latest version | medium, not executed | VersionRing.DenseFetchAsWrittenIsStale | AsyncGroup.AsyncGraphGroup.LatestParams |
| src/training/graph_group.h:146-165 | `save(graph, final)` ignores `graph` and always saves `graph_`, so `save(final)`'s choice of the average graph is lost | moving average on and built; `save(false)` with overwrite writes the training parameters | the builder saves the graph passed in | high, not executed | SingletonGroup.SaveAsWrittenIgnoresAverage | SingletonGroup.Singleton.Save |
| src/training/graph_group.h:772-774 | the destructor calls `execute()` even when no batch is pending | one replica at 10 with gradient 1 and no pending batch ends at 9; on a group that never trained, `batches_[0]` is read out of range | run the last round only when batches are pending | medium, not executed | SyncGroup.FinishAsWrittenStepsAgain | SyncGroup.SyncGraphGroup.Finish |
| src/models/hardatt.h:228 | the leading row of ground-truth indices is all 0, while `currentPos` starts at `j` for sentence `j` | two sentences, two words, no special symbols: entry 1 is 0, not 1 | the leading row is the initial `currentPos` (`0 .. dimBatch-1`) | medium, not executed | HardAtt.GroundTruthAsWrittenMisaligned | HardAtt.DecoderHardAtt.GroundTruth |
| src/training/graph_group.h:530-533 | with dropping on, a worker's first fetch is dense (`fetchParams`, 234-250) and leaves its recorded versions at 0. Its next fetch is sparse and adds the change since version 0 on top of parameters already fetched at a later version | a slice with values 0, 1, 2 at versions 0, 1, 2 and three slots; the dense fetch copies version 1, the sparse fetch at version 2 adds `2 - 0`, giving 3 instead of 2 | the dense fetch records the versions it copied, so the sparse fetch adds only the change since then | medium, not executed | VersionRing.TwoFetchesAsWrittenDoubleCounts | VersionRing.TwoFetches |
