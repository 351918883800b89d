# Verification of the host-side cores

A Dafny 4.11 project beside the repository. It models the parts of the GPU driver layer and of the benchmark
tools that carry invariants of their own, and proves what they promise. `dafny verify dfyconfig.toml` checks
everything.

| file | what it models |
|---|---|
| `GraphCapture`, `GraphExec`, `GraphReplay` | recording launches and copies during a graph capture, zipping the records with the captured nodes, updating slots between replays, and what a replay then means |
| `KvAppend` | the capturable append to a KV cache |
| `PeerCopy`, `PeerCopyInvariant`, `PeerCopySteps`, `PeerCopyDevice`, `PeerCopyTheorems`, `PeerCopyOrder`, `PeerCopyRace`, `PeerCopyCluster`, `PeerCopyCallers`, `PeerCopyMemory` | copies between devices through one pinned slab per source rank: host threads, FIFO streams, events, the per-rank lock, every interleaving, byte by byte |
| `Bounce` | growing that slab by double-checked locking, with any number of threads between atomic actions |
| `AllReduce` | tensor-parallel sums over peer memory: argument order, schedules, agreement of the ranks |
| `Calendar`, `Timestamp` | Unix seconds to a Gregorian stamp and back |
| `Sums`, `GatedDelta`, `Attention`, `SplitK`, `SplitKDecode`, `AttentionReal`, `Q8`, `CausalConv` | the reference numerics: flat loop nests against their recurrences, streaming, chunk merging, quantisation |
| `Csv`, `RunMatrix` | the quote-aware field splitter and the resumable benchmark driver |
| `Wrappers` | `Option` and `Result` |

Code that changes state step by step is a class or a method with loops, proved against a function; the
properties are lemmas about the function. Concurrent code is a transition system, tied back to the method by a
lemma about an uninterrupted thread (`PeerCopyCluster.UninterruptedEventCall`, `Bounce.UninterruptedCall`).
Kernels and copies are arbitrary functions on memory in the replay theorem; the streaming results leave all
arithmetic open, split-K and quantisation are over the reals, and the all-reduce takes any addition and any
rounding on store.

Where the code does less than its comments or a caller would expect, the model follows the code and the exact
condition is proved:

- A value passed to `set_slot` must outlive the call: a later update of the same node reads through its pointer
  again (`GraphReplay.ReplayMeansProgramIff`, `GraphReplay.ReusedStorageGoesStale`). The comment asks for less.
- A node whose parameters the driver hides gets no shadow, and updating its slot panics
  (`GraphReplay.HiddenParametersPanic`).
- The blocking peer copy never looks at the stored landing event, so it may overwrite a slab an event copy is still
  using. When it is safe: `PeerCopyRace.TakeIsSafeIff` for one copy, `PeerCopyRace.RunIsSafeIff` for whole runs,
  `PeerCopyCallers.EventThenBlockingIff` for a program of two calls.
- A copy within one rank ignores its consumer stream (`PeerCopyCallers.ConsumerWaitsIff`).
- A failed allocation leaves a null slab beside the old size, and a later small grow can then mislead a reader
  (`Bounce.SafeExactlyWhenSound`).
- The in-place sums need every partial read before its owner overwrites it (`AllReduce.SumRightIffReadsFirst`).
- The year is narrowed to 32 bits, so stamps of far-away seconds repeat (`Timestamp.StampReadsBack`).
- A cell whose server never boots collects failure entries (`RunMatrix.OneEntryPerCellIff`, `RunMatrix.FailedBootsPileUp`).
- A scale that rounds to zero loses its block (`Q8.RequantisingIsStableIff`).
- A window start beyond 32 bits is misplaced (`Attention.StartIsWindowStartIff`).

## Model

| member | source | states |
|---|---|---|
| GraphCapture.KernelArgs.Push | crates/backend-hip/src/module.rs:273-283 | appends one pointer; the tags stay as they were and keep naming existing arguments |
| GraphCapture.KernelArgs.PushSlot | crates/backend-hip/src/module.rs:286-290 | appends one pointer and tags exactly that argument; tags stay in range and in order |
| GraphCapture.KernelArgs.Set | crates/backend-hip/src/module.rs:309-312 | overwrites one pointer and no tag |
| GraphCapture.Recorder.RecordLaunch | crates/backend-hip/src/graph_capture.rs:160-175 | inside a capture the launch is appended to the records, outside nothing happens |
| GraphCapture.Recorder.RecordMemcpy | crates/backend-hip/src/graph_capture.rs:177-199 | inside a capture the copy is appended to the records, outside nothing happens |
| GraphCapture.Recorder.End | crates/backend-hip/src/graph_capture.rs:140-147 | hands over everything recorded since `Begin` and leaves the thread outside a capture |
| GraphCapture.FromRecorder | crates/backend-hip/src/graph_capture.rs:256-317 | succeeds if and only if both counts match and no slot is tagged twice; then the map holds exactly the recorded tags; otherwise the error names the first check that failed |
| GraphExec.CollectNodesByType | crates/backend-hip/src/device.rs:918-960 | the two buckets are the positions of the kernel nodes and of the copy nodes, in dispatch order |
| GraphExec.BucketsZip | crates/backend-hip/src/device.rs:918-960 | if the counts match, the n-th record of each kind was made by the command behind the n-th node of that kind, however kernels and copies interleave |
| GraphExec.RecordsMatchIff | crates/backend-hip/src/device.rs:383-527 | the counts match if and only if no launch and no copy bypassed the recorder |
| GraphExec.LaunchKernel | crates/backend-hip/src/module.rs:402-460 | the node has one argument for each pointer, argument `k` being what pointer `k` led to at that moment; a launch record with its arity and tags is added inside a capture, and nothing outside one |
| GraphExec.MemcpyAsync | crates/backend-hip/src/device.rs:1027-1058 | a copy of no bytes is neither issued nor recorded; any other is issued, and recorded inside a capture, so records and nodes stay aligned |
| GraphExec.RunClosure | crates/backend-hip/src/device.rs:383-527 | after the closure the captured nodes and both record lists belong to the same list of issued commands |
| GraphExec.ShadowKernels | crates/backend-hip/src/device.rs:467-503 | a kernel node gets a shadow as long as its argument array if and only if a slot is bound to it and the driver exposes its parameters |
| GraphExec.Capture | crates/backend-hip/src/device.rs:383-527 | capture succeeds if and only if the closure did, nothing bypassed the recorder and no slot is tagged twice; the new exec is exactly the capture of the issued commands; the recorder is left closed on every path |
| GraphExec.HipGraphExec.SetSlot | crates/backend-hip/src/device.rs:776-817 | one shadow entry moves and the node gets what every pointer of its array leads to now; an unbound slot changes nothing |
| GraphExec.HipGraphExec.SetMemcpySlot | crates/backend-hip/src/device.rs:701-740 | only the destination of the bound copy moves; source, length and kind stay |
| GraphReplay.BoundIffTagged | crates/backend-hip/src/graph_capture.rs:256-317 | an argument carries a slot if and only if the slot map binds the slot to that node and argument |
| GraphReplay.LaunchArguments | crates/backend-hip/src/module.rs:418-432 | for any slot values: a tagged argument whose slot has a value has that value, every other argument what its own pointer leads to |
| GraphReplay.NodeDoesCommand | crates/backend-hip/src/module.rs:402-460 | executing the node of a command does what the command does uncaptured: the kernel runs on the values behind its pointers with those of set slots put in tag by tag, a copy of no bytes does nothing |
| GraphReplay.HistoryFollows | crates/backend-hip/src/device.rs:701-817 | after any sequence of updates of nodes with exposed parameters every shadow and every node is the captured one with the last value of each of its slots, and no other node or argument has moved |
| GraphReplay.SetSlotNeverPanics | crates/backend-hip/src/device.rs:776-817 | with the slot's own node exposed, `set_slot` after any history, of any nodes, updates the node if the slot is bound and never indexes past the argument array |
| GraphReplay.HiddenParametersPanic | crates/backend-hip/src/device.rs:467-503 | after any history of updates, `set_slot` on a bound slot runs off the array if and only if the driver hid that node's parameters |
| GraphReplay.KernelMeansProgram | crates/backend-hip/src/device.rs:793-816 | a kernel node has the intended arguments if and only if the last value of each of its slots was still in place at the node's last update |
| GraphReplay.ExecMeansProgram | crates/backend-hip/src/device.rs:776-817 | the exec holds the program with every slot at its last value if and only if those values stayed in place until the driver last read them |
| GraphReplay.KeptWhenNeverOverwritten | crates/backend-hip/src/device.rs:776-817 | giving every value storage that later updates find unchanged is enough |
| GraphReplay.ReusedStorageGoesStale | crates/backend-hip/src/device.rs:776-817 | reusing one variable for two slots of a launch, as the comment on lifetimes would allow, changes the first slot's value too |
| GraphReplay.GraphOfProgram | crates/backend-hip/src/device.rs:897-910 | running the captured nodes is running the commands one by one without a graph, for any meaning of kernels and copies |
| GraphReplay.ReplayPreservesMeaning | crates/backend-hip/src/device.rs:383-910 | over any sequence of updates and replays whose slot values were kept at each replay, the captured graph leaves the memory that running the program afresh with the last slot values would leave, for any kernels, copies and memory |
| GraphReplay.ReplayMeansProgramIff | crates/backend-hip/src/device.rs:776-910 | graph and program leave the same memory for every meaning of kernels and copies if and only if every replay found the slots' values kept |
| KvAppend.KvCache.AppendSlotted | crates/backend-hip/src/kv_cache_slot.rs:56-92 | if the rows do not fit nothing happens; otherwise two copies are issued, keys to the key tensor and values to the value tensor at the old tail, recorded under their slots inside a capture, and the tail advances by the rows |
| KvAppend.AppendIssues | crates/backend-hip/src/kv_cache_slot.rs:56-92 | an append issues both copies or, when it moves no bytes, neither |
| KvAppend.AppendedRows | crates/backend-hip/src/kv_cache_slot.rs:72-87 | in byte memory an append leaves the source's keys and values in the rows at the tail, and changes nothing else |
| KvAppend.RetargetedAppend | crates/backend-hip/src/kv_cache_slot.rs:56-92 | an append captured at one tail and retargeted to another does what an append issued at the other tail does |
| PeerCopyCluster.HipCluster.PeerCopyViaHostEvent | crates/backend-hip/src/cluster.rs:647-759 | no bytes: nothing; a rank out of range: an error and no change; one rank: a device copy only; otherwise the seven or fewer operations in order, the stored landing event taken before and its own stored after |
| PeerCopyCluster.HipCluster.PeerCopyViaHost | crates/backend-hip/src/cluster.rs:518-633 | the same early exits; otherwise copy out, wait, copy in, wait; the stored landing events are neither read nor changed |
| PeerCopyCluster.AdvanceFollowsProgram | crates/backend-hip/src/cluster.rs:518-759 | every host step of the transition system is the next operation of the method, possible exactly when a synchronisation there would return |
| PeerCopyCluster.UninterruptedEventCall | crates/backend-hip/src/cluster.rs:647-759 | a whole event call of one thread is a run that never waits for a device and enqueues exactly what the method enqueues |
| PeerCopyTheorems.RunKeepsInv | crates/backend-hip/src/cluster.rs:518-759 | every state reached by a careful run keeps the invariant: locks, log positions, stream order, guards and the bytes of every call |
| PeerCopyTheorems.LandedCopiesAreFaithful | crates/backend-hip/src/cluster.rs:647-759 | in every careful interleaving a copy that has landed wrote exactly the bytes its own copy-out read, all of them |
| PeerCopyMemory.CopyArrives | crates/backend-hip/src/cluster.rs:555-614 | a landed copy's bytes are in the destination's memory from its destination address on, all of them, when no other step of the careful run writes there |
| PeerCopyMemory.CopyDelivers | crates/backend-hip/src/cluster.rs:690-742 | and they are the bytes the source range held before the run, when nothing in the run writes those |
| PeerCopyMemory.TakenAtSomeMoment | crates/backend-hip/src/cluster.rs:690-720 | whatever else writes: each byte a call took stood at its place in the source range at some moment while the call was under way |
| PeerCopyMemory.WithinArrives | crates/backend-hip/src/cluster.rs:667-681 | in any run a finished copy within one rank has moved each byte from its source to its destination place, when nothing else writes either |
| PeerCopyTheorems.SlabServesOneCall | crates/backend-hip/src/cluster.rs:690-705 | a byte of the slab that one call has brought and not yet delivered is still that call's byte and waits for no other call |
| PeerCopyTheorems.BlockingCopyHasLanded | crates/backend-hip/src/cluster.rs:518-633 | when the blocking call has returned, its data has arrived |
| PeerCopyTheorems.ConsumerSeesTheData | crates/backend-hip/src/cluster.rs:636-645 | in every run, careful or not, nothing enqueued on the consumer stream after a cross-rank call's wait starts before the data has arrived |
| PeerCopyTheorems.EventRunsAreCareful | crates/backend-hip/src/cluster.rs:647-759 | runs with event copies only satisfy the caution that blocking copies need |
| PeerCopyTheorems.BlockingRunsAreCareful | crates/backend-hip/src/cluster.rs:518-633 | so do runs with blocking copies only, from any number of threads and with any fan-out |
| PeerCopyTheorems.PureRunsAreSafe | crates/backend-hip/src/cluster.rs:518-759 | runs of event copies alone and of blocking copies alone deliver what was read, and a returned blocking copy has landed |
| PeerCopyTheorems.SomethingCanRun | crates/backend-hip/src/cluster.rs:700-756 | in every state any run reaches, careful or not, some stream can run as long as anything is unfinished |
| PeerCopyTheorems.DevicesDrain | crates/backend-hip/src/cluster.rs:700-756 | every unit of device work shortens the remaining work by one: any schedule drains all queues, in a number of steps that does not depend on the schedule |
| PeerCopyTheorems.DrainedHostsAdvance | crates/backend-hip/src/cluster.rs:518-759 | once the queues are drained no host thread inside a call is kept waiting |
| PeerCopyOrder.OvertakesIff | crates/backend-hip/src/cluster.rs:518-759 | with one operation unfinished and another not started, some device schedule starts the second before the first finishes if and only if the second does not wait for the first through stream order and event waits |
| PeerCopyRace.TakeIsSafeIff | crates/backend-hip/src/cluster.rs:555-600 | when a blocking copy is about to enqueue its copy-out, no later device schedule delivers wrong bytes if and only if every earlier copy from the rank has landed, has delivered as many bytes as this one moves, or is waited for by the stream |
| PeerCopyRace.RunIsSafeIff | crates/backend-hip/src/cluster.rs:518-759 | any mixture of event and blocking copies by any threads delivers what was read, at every point and under every device schedule, if and only if the run is careful |
| PeerCopyCallers.EventThenBlockingIff | crates/backend-hip/src/cluster.rs:518-759 | an event copy followed by a blocking copy of the same rank, of any sizes, is safe under every device schedule if and only if the event copy's consumer is the source's own default stream |
| PeerCopyCallers.ConsumerWaitsIff | crates/backend-hip/src/cluster.rs:636-681 | what is enqueued on the consumer stream after the call waits for the data, from any state and whatever happens later, if and only if the ranks differ or the consumer is the rank's default stream |
| Bounce.RankBounce.EnsureBounceIn | crates/backend-hip/src/cluster.rs:424-502 | a slab that serves is returned untouched, be it found by the first look or under the lock; otherwise the one found under the lock is taken out and freed and one of `need` bytes installed; a failed free or allocation leaves no slab beside the size found |
| Bounce.ReplacesOnlyTooSmall | crates/backend-hip/src/cluster.rs:450-502 | a call that takes the lock frees a slab if and only if the one there is too small, and lowers the size if and only if there was no slab behind a larger one |
| Bounce.RankBounce.FreeBounce | crates/backend-hip/src/cluster.rs:398-414 | the slot forgets its slab whether or not the free succeeds |
| Bounce.ReserveBounceCapacity | crates/backend-hip/src/cluster.rs:350-358 | on success every rank's slab holds at least the bytes; on a failure the ranks before the failing one were served and those behind it are untouched, whatever HIP answers and whatever other growers left |
| Bounce.StepKeepsInv | crates/backend-hip/src/cluster.rs:424-502 | every atomic action of any thread keeps the invariant and never lowers the size |
| Bounce.ThreadsAreSafe | crates/backend-hip/src/cluster.rs:424-502 | with any number of threads and successful HIP calls: the size never decreases and covers every call that returned, a slab holds it, every returned slab was allocated with the bytes asked for, none is freed twice |
| Bounce.UninterruptedCall | crates/backend-hip/src/cluster.rs:424-502 | one thread alone in the transition system comes out as the method does, failures included |
| Bounce.InterruptedCall | crates/backend-hip/src/cluster.rs:424-502 | with any steps of other threads between its first look and its lock a call ends as the method does on the slot they left |
| Bounce.ReservedIffSteady | crates/backend-hip/src/cluster.rs:340-358 | calls up to `most` bytes leave the slab alone in every interleaving if and only if `most` bytes are reserved |
| Bounce.EnsuredIsPlausible | crates/backend-hip/src/cluster.rs:470-502 | whatever HIP answers, a failed call leaves no slab beside the old size |
| Bounce.SafeExactlyWhenSound | crates/backend-hip/src/cluster.rs:424-502 | every later schedule returns large enough slabs if and only if the slot does not claim more than one byte without a slab |
| AllReduce.ResidualTp2 | crates/backend-hip/src/bar_p2p.rs:378-410 | an error unless there are two ranks; otherwise both ranks get the partials in rank order |
| AllReduce.ResidualTp4 | crates/backend-hip/src/bar_p2p.rs:333-365 | an error unless there are four ranks; otherwise all ranks get the partials in rank order |
| AllReduce.SumTp2 | crates/backend-hip/src/bar_p2p.rs:712-746 | each rank writes its own partial and starts at it |
| AllReduce.SumTp4 | crates/backend-hip/src/bar_p2p.rs:416-451 | each rank writes its own partial, starts at it and goes round |
| AllReduce.GridCoversOnce | crates/backend-hip/src/bar_p2p.rs:126-130 | every element below any 32-bit count is handled by exactly one thread of the grid, without wrap-around in the kernels' index arithmetic |
| AllReduce.ElementsAreIndependent | crates/kernels-hip/src/kernels/p2p_allreduce_residual.cu:34-136 | however the threads of all elements interleave, each element runs its own schedule |
| AllReduce.ResidualReplicates | crates/backend-hip/src/bar_p2p.rs:333-410 | for any addition and any schedule, equal hidden states stay equal, and each is the sum in rank order |
| AllReduce.HiddenStaysReplicated | crates/backend-hip/src/bar_p2p.rs:367-377 | over whole runs of layers, each with its own partials and schedule, the ranks hold what one rank alone would compute |
| AllReduce.SumIsOwed | crates/backend-hip/src/bar_p2p.rs:416-451 | if every partial is read before its owner overwrites it, each rank gets its own sum of the original partials |
| AllReduce.SumRightIffReadsFirst | crates/backend-hip/src/bar_p2p.rs:712-746 | a complete schedule of the in-place sum is right for every integer arithmetic, rounding on store included, and all inputs if and only if every rank reads each partial before its owner overwrites it |
| AllReduce.TwoRanksAgreeIff | crates/backend-hip/src/bar_p2p.rs:645-746 | two ranks agree on the in-place sum, stored exactly or rounded, for all inputs if and only if stored sums commute |
| AllReduce.FourRanksAgreeIff | crates/backend-hip/src/bar_p2p.rs:416-451 | four ranks agree on the rotated sum, stored exactly or rounded, for all inputs if and only if stored sums are unchanged by rotation |
| AllReduce.RotatesIfBoth | crates/backend-hip/src/bar_p2p.rs:416-451 | whatever the rounding on store, four ranks agree if addition commutes and associates |
| AllReduce.WideRanksAgreeIff | crates/backend-hip/src/bar_p2p.rs:677-705 | when sums are stored exactly and addition has a zero, four ranks agree if and only if addition commutes and associates |
| AllReduce.CommutingIsNotEnough | crates/backend-hip/src/bar_p2p.rs:677-705 | a commuting addition on which two ranks agree and four do not |
| AllReduce.LocalFirstAgreesIff | crates/backend-hip/src/bar_p2p.rs:367-377 | adding the local partial first, as before the fix, agrees under any rounding if addition commutes and associates, and with a zero and exact stores only then |
| Calendar.DaysToYmd | crates/bench/src/cert.rs:118-131 | computes the date of the era algorithm in 64 bits, the year narrowed to 32 bits, month and day in their ranges |
| Calendar.YearOfEraFromCycles | crates/bench/src/cert.rs:118-131 | the three corrections find the year of the era from its centuries, four-year cycles and years |
| Calendar.CivilFromDaysIsInverse | crates/bench/src/cert.rs:118-131 | every day number gives a real date, and counting days year by year and month by month up to it gives the number back |
| Calendar.CivilFromDaysIsOnto | crates/bench/src/cert.rs:118-131 | every real date is the date of its day count |
| Calendar.CivilFromDaysSteps | crates/bench/src/cert.rs:118-131 | the next day number is the next calendar day, leap days and year ends included |
| Calendar.CivilEpoch | crates/bench/src/cert.rs:118-131 | day 0 is 1970-01-01 |
| Timestamp.FormatUnixUtc | crates/bench/src/cert.rs:101-116 | the text is the stamp of the second, for every 64-bit second |
| Timestamp.StampReadsBack | crates/bench/src/cert.rs:101-131 | a reader of the pattern gives the second back if and only if it lies before the year outgrows 32 bits |
| Timestamp.StampIsInjective | crates/bench/src/cert.rs:101-131 | distinct seconds below that bound have distinct stamps |
| Timestamp.StampWidth | crates/bench/src/cert.rs:101-131 | the stamp has twenty characters if and only if the year is at most 9999 |
| Timestamp.WrappedStampsCollide | crates/bench/src/cert.rs:118-131 | beyond the bound a 64-bit second shares its stamp with the epoch |
| GatedDelta.StepRow | crates/bench/src/sweep_gdn_step.rs:164-183 | one row at one token: decay, read at the key, correct, read at the query; no other state moves |
| GatedDelta.RunShape | crates/bench/src/sweep_gdn_step.rs:149-189 | in every batch and head each row follows, token by token, `g row + beta (v - g (row . k)) k` with gate, beta, value and key read at their flat indices, and each output is its row's product with the query there |
| GatedDelta.OneToken | crates/bench/src/sweep_gdn_step.rs:149-189 | a run of one token written out on the flat arrays: every number of the state and every output |
| GatedDelta.KeyIsLearnt | crates/bench/src/sweep_gdn_step.rs:164-183 | after any token with a unit key in `k`, the row read at that key is the value in `v` mixed by `beta` with the decayed reading before |
| GatedDelta.QueriesOnlyRead | crates/bench/src/sweep_gdn_step.rs:149-189 | the state after any number of tokens does not depend on the queries |
| GatedDelta.CarriedState | crates/bench/src/sweep_gdn_step.rs:149-189 | a row run over one stretch of tokens and then another, state carried over, is the row run over both |
| GatedDelta.StreamingEqualsBatch | crates/bench/src/sweep_gdn_step.rs:149-189 | in the flat layout, for any number of batches, a run over the first tokens of every batch and a run over the rest from its state give the rows and outputs of one run over all tokens |
| GatedDelta.DeltaRule | crates/bench/src/sweep_gdn_step.rs:164-177 | for a key of length one, the new state maps the key to the value mixed by `beta` with the decayed reading before |
| GatedDelta.OrthogonalQueryDecays | crates/bench/src/sweep_gdn_step.rs:164-183 | for a query orthogonal to the key the token only decays the output |
| Attention.Prefill | crates/bench/src/sweep_attention_prefill_q8_kv.rs:491-543 | every output element is what its query owes over the keys from the window start, in 32-bit arithmetic, to the limit, and zero when it sees none |
| Attention.Decode | crates/bench/src/sweep_attention_q8_kv.rs:239-270 | every output element is what the query owes over all tokens |
| AttentionReal.PrefillIsAverage | crates/bench/src/sweep_attention_prefill_q8_kv.rs:491-543 | over the reals each prefill output is the average of the values of its group's key head over the visible tokens, weighted by the exponentials of scaled query-key dot products, all read at their flat indices; zero when none is visible |
| AttentionReal.DecodeIsAverage | crates/bench/src/sweep_attention_q8_kv.rs:239-270 | over the reals each decode output is that average over all tokens |
| AttentionReal.ScoreOfRows | crates/bench/src/sweep_attention_prefill_q8_kv.rs:516-521 | a score is the scaled dot product of the query row and the key row where they lie in the flat arrays |
| Sums.DotWithUnit | crates/bench/src/sweep_attention_prefill_q8_kv.rs:516-521 | a dot product with a unit stretch picks the number across from the one |
| Sums.DotAdds | crates/bench/src/sweep_attention_prefill_q8_kv.rs:516-521 | dot products are additive in the second stretch |
| Sums.DotScales | crates/bench/src/sweep_attention_prefill_q8_kv.rs:516-521 | dot products are homogeneous in the second stretch |
| Attention.OutputIsLocal | crates/bench/src/sweep_attention_prefill_q8_kv.rs:491-543 | an output depends on its query row and on the rows of its own key head in its range, and on nothing else |
| Attention.PrefillStreams | crates/bench/src/sweep_attention_prefill.rs:223-266 | prefill in any number of batches, each at its own offset against the cache as it then is, is prefill in one batch |
| Attention.StartIsWindowStartIff | crates/bench/src/sweep_attention_prefill_q8_kv.rs:493-503 | the 32-bit computation finds the window start if and only if that start fits 32 bits |
| Attention.LastQueryIsDecode | crates/bench/src/sweep_attention_prefill.rs:223-266 | a single query at the last position without a window is a decode step |
| Attention.WindowHides | crates/bench/src/sweep_attention_prefill_q8_kv.rs:493-503 | a position sees the last `window` keys up to itself; a window hides nothing if and only if it is off or exceeds the position, as long as window starts fit 32 bits |
| Attention.WideWindowChangesNothing | crates/bench/src/sweep_attention_prefill_q8_kv.rs:493-503 | a window larger than the position gives the output without a window |
| SplitK.PickChunkFits | crates/bench/src/sweep_attention_q8_kv_splitk.rs:38-51 | a multiple of 32 of at least 128 with at most 32 chunks; past 16384 tokens no smaller multiple of 32 would do |
| SplitK.PickChunkSteps | crates/bench/src/sweep_attention_q8_kv_splitk.rs:38-51 | 128 up to 1024 tokens, 256 up to 2048, 512 up to 16384 |
| SplitK.ChunkHolds | crates/kernels-hip/src/kernels/attention_decode_q8_kv_splitk.cu:65-88 | a key lies in a chunk if and only if it is at or past both the first chunk's base and the window start, and its distance from the base falls to that chunk; so each such key is in exactly one |
| SplitK.ChunksTile | crates/kernels-hip/src/kernels/attention_decode_q8_kv_splitk.cu:65-88 | every chunk is in range, none lies past the last key, and without a window none is empty |
| SplitK.ChunkPartial | crates/kernels-hip/src/kernels/attention_decode_q8_kv_splitk.cu:120-204 | the online pass with its running maximum and rescaling yields the chunk's greatest score, weight sum and weighted values |
| SplitK.Combine | crates/kernels-hip/src/kernels/attention_decode_q8_kv_splitk.cu:209-245 | the partials of any consecutive chunks, empty ones included, merge to the softmax average over all their keys |
| SplitK.MergeChunks | crates/kernels-hip/src/kernels/attention_decode_q8_kv_splitk.cu:209-245 | the partials of all chunks, from any base and with any window, merge to the softmax average over the keys they cover |
| SplitKDecode.ChunkPass | crates/kernels-hip/src/kernels/attention_decode_q8_kv_splitk.cu:30-202 | through the flat buffers of all heads, every slot ends up with the partial of its own head and chunk, and later slots leave earlier ones alone |
| SplitKDecode.Decode | crates/bench/src/sweep_attention_q8_kv_splitk.rs:203-270 | both kernels leave in every element of the output the softmax average owed to its head and component |
| SplitKDecode.SplitKIsReference | crates/bench/src/sweep_attention_prefill_q8_kv.rs:491-543 | over the reals, for every head and component, any chunk size and window: split-K owes what the windowed prefill reference gives at the last position |
| SplitKDecode.SplitKIsDecode | crates/bench/src/sweep_attention_q8_kv_splitk.rs:307-341 | without a window that is the decode reference |
| SplitK.ThreePass | crates/bench/src/sweep_attention_q8_kv_splitk.rs:317-341 | the in-place three-pass reference gives the same softmax average |
| SplitK.SoftmaxInPlace | crates/bench/src/sweep_attention_q8_kv_splitk.rs:327-336 | every score is overwritten with its attention weight |
| SplitK.AttendedAnywhere | crates/bench/src/sweep_attention_q8_kv_splitk.rs:327-341 | the softmax average does not depend on the number the exponents are taken relative to |
| Q8.QuantizeRow | crates/bench/src/sweep_attention_q8_kv.rs:107-128 | block `i` of the result is the quantisation of elements `32 i` to `32 i + 31` |
| Q8.DequantizeRow | crates/bench/src/sweep_attention_q8_kv.rs:130-139 | every element is its integer times the scale of its block |
| Q8.RoundIs | crates/bench/src/sweep_attention_q8_kv.rs:117-121 | rounding gives the nearest integer, and of two as near the one farther from zero |
| Q8.ClampNeverBites | crates/bench/src/sweep_attention_q8_kv.rs:117-121 | a value within 127 scales rounds to at most 127 in magnitude, so the clamp changes nothing |
| Q8.RoundTripError | crates/bench/src/sweep_attention_q8_kv.rs:107-139 | after a round trip every element is off by at most the greatest magnitude over 254, and 127 times what rounding the scale lost |
| Q8.GreatestError | crates/bench/src/sweep_attention_q8_kv.rs:107-139 | an element of greatest magnitude is off by exactly 127 times what rounding the scale lost |
| Q8.GreatestUsesRange | crates/bench/src/sweep_attention_q8_kv.rs:113-121 | an element of greatest magnitude becomes 127 or -127 |
| Q8.RequantisingIsStableIff | crates/bench/src/sweep_attention_q8_kv.rs:107-139 | quantising what quantisation produced gives the same block if and only if the block is zero or its scale did not round to zero |
| Q8.ExactIff | crates/bench/src/sweep_attention_q8_kv.rs:107-139 | a block survives the round trip unchanged if and only if it is zero or its scale is stored exactly, and every element is a whole number of scales |
| CausalConv.RunReference | crates/bench/src/sweep_causal_conv1d.rs:102-125 | the flat output array holds, row by row, the convolution of the input rows; each number is the sum over its taps at the flat indices of input and weights |
| CausalConv.ImpulseResponse | crates/bench/src/sweep_causal_conv1d.rs:116-121 | over the reals an impulse in row `u` comes out at output `t` as weight `u - t` of its channel, if the kernel reaches it, and nowhere else |
| CausalConv.OutputIsCausal | crates/bench/src/sweep_causal_conv1d.rs:102-125 | output `t` depends on rows `t` to `t + kernel - 1` only |
| CausalConv.ConvSplits | crates/bench/src/sweep_causal_conv1d.rs:102-125 | the convolution of two stretches is the two convolutions, the second prefixed by the last `kernel - 1` rows |
| CausalConv.StreamIsConv | crates/bench/src/sweep_causal_conv1d.rs:102-125 | convolving chunk by chunk, in any chunks, is convolving the whole sequence |
| Csv.SplitCsv | crates/bench/src/pmc.rs:150-170 | joining the fields gives the line back; commas stand inside quotes only, and every quote is closed except perhaps in the last field |
| Csv.ParsedIsUnique | crates/bench/src/pmc.rs:150-170 | a line has only one list of fields of that kind |
| Csv.SplitOfJoin | crates/bench/src/pmc.rs:150-170 | splitting the join of a list gives the list back if and only if the list is of that kind |
| RunMatrix.ListCells | scripts/bench/run_matrix.py:451-473 | the cell list holds exactly the requested cells, parked and infeasible ones as skipped, none twice |
| RunMatrix.Driver.Run | scripts/bench/run_matrix.py:475-600 | the file after a run that dies after any number of writes; the run finishes if and only if it lives for all of them |
| RunMatrix.ResumingIsSafe | scripts/bench/run_matrix.py:475-602 | over any crashes and resumptions the file only grows at its end, and a completed cell gets no further entry |
| RunMatrix.OneCompletedEntry | scripts/bench/run_matrix.py:475-602 | no cell ever has two completed entries |
| RunMatrix.UninterruptedRunCovers | scripts/bench/run_matrix.py:505-600 | an uninterrupted run leaves an entry for every requested cell and completes exactly the skipped cells, those complete before, and those that booted and measured |
| RunMatrix.NothingLeftIff | scripts/bench/run_matrix.py:505-600 | a resumed run that lives long enough to add an entry leaves the file as it is if and only if every requested cell was complete |
| RunMatrix.OneEntryPerCellIff | scripts/bench/run_matrix.py:505-600 | a file with one entry per cell keeps one entry per cell if and only if the run reaches no cell that already has one |
| RunMatrix.FailedBootsPileUp | scripts/bench/run_matrix.py:528-540 | over any sessions, a cell that is not complete and boots in none of them gets exactly one more entry from each and stays incomplete |

## Left out

- PeerCopyTheorems.DevicesDrain: counts device work only; that host threads inside a call can then move on is `PeerCopyTheorems.DrainedHostsAdvance`.
- PeerCopyCluster.HipCluster.PeerCopyViaHost: the wait for the device after a copy within one rank is in the method's trace but not a step of the transition system.
- Bounce.ThreadsAreSafe: atomic loads and stores are sequentially consistent; that the acquire and release orderings of the source suffice is not proved.
- The slab of a rank in the peer-copy transition system: reserved up front, as large as every copy from the rank. `Bounce` models its growth; a copy that outgrows the slab while an earlier one is still being delivered would free memory that copy reads, and is in neither model.
- SplitK.ThreePass: one component before its narrowing to half precision; the narrowing, as any function, is in `Attention.Decode` and `SplitKDecode.Decode`.
- RunMatrix.Driver.Run: file writes are atomic and the file stays readable; an unreadable file makes the original start over.
- HIP and RCCL calls, return codes, device binding and handle destruction: foreign calls; streams, events and graph nodes follow the meaning their comments state, and the calls succeed unless a result says otherwise.
- The order in which the driver lists graph nodes: taken to be dispatch order, as the source assumes.
- `capture_into_shared_graph`: always ends in an error.
- `peer_copy_via_host_async_laned` and `reserve_lane_bounces`: the caller must keep one copy in flight per lane, and the function itself orders nothing between calls.
- Floating-point rounding and kernel bodies, except the order of additions, rounding on store in the all-reduce and of the quantisation scale, and the split-K arithmetic. Overflow to infinity, as of a scale beyond half precision, is part of that.
- The split-K kernel's quantised dot products and its ring buffer of cache rows: scores are those of the reference, rows are stored in order.
- Debug builds: the narrowing of the window start wraps as in release builds; with overflow checks the subtraction would panic.
- The fused all-reduce and RMSNorm launches: the same argument order with more buffers.
- The kernel handle cache of `HipModule`: a map filled under a lock.
- `parse_counter_csv` and `aggregate_pmc`: column lookups and averages over the split fields.
- Server start and stop, HTTP measurement, cooling waits and logs of the benchmark driver: they appear only as the fate of a cell.
