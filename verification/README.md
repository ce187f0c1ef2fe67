# Serving-path model and proofs

A Dafny model of the decision logic that sits around the device calls of a two-chip Qwen serving stack, with proofs of
what that logic is for. Device operations and floating-point kernels appear as uninterpreted functions; everything the
code itself decides (bits, addresses, partitions, protocols, groupings, merges, counts) is modelled and proved.
`dafny verify dfyconfig.toml` checks the whole project.

## The five parts

1. **Compact score selection** (`Fp32`, `ScoreSelection`, `ScoreKernels`, `ScoreDevice`, `CompactMarkov`). Workers scan
   slices of a score row with a sign-magnitude key, a second kernel validates and reduces their 8-word records, and the
   winner feeds the next step of a Markov chain. The key is an order isomorphism onto IEEE 754-2019 values; the two
   kernels, on 32-bit words in shared buffers, compute the serial argmax for every worker count; the reduction agrees
   with the host on arbitrary records; an accepted chain is the greedy one, and one nonfinite score rejects it.
2. **Prefill continuation and interleaving** (`Prefill`, `Continuation`, `ContinuationState`, `Interleave`,
   `StepFaults`, `Scheduler`, `Serving`, `ServingRuns`, `LostReport`, `Deadline`). One controller owns the shared
   prefill scratch, a ledger gives requests epochs, and the scheduler admits one partial prefill. Every run of steps,
   with failures at every device step of the nested try blocks, keeps the ownership history lawful; an epoch that was
   completed, released or replaced never runs again; and a completed prompt has the state of one whole prefill of its
   own tokens, on its own pages. Exactly when a step succeeds, and which failures latch, is said per operation
   (`StepFaults`), and the prefill ratio as a condition on the history of calls alone. `single_prefill` conserves
   requests. Joined with the plugin's own passes, over every run of arrivals, preemptions, decodes, failed steps and
   prefill passes, the step scheduled next passes every check on the way to the device exactly when no lost report
   stands in its way (below), and a prompt of n chunks completes within n * (ratio + 1) scheduling decisions.
3. **Folded, grouped and replayed attention** (`TileLayout`, `HeadFold`, `FoldDma`, `ChunkGroups`, `MaskReplay`,
   `SerialAttention`, `AttentionParallel`, `AttentionEquivalence`, `DeviceAttention`, `AttentionGrouped`,
   `ReplayProtocol`, `AttentionReplay`, `RequestPlan`). Folding query tokens into heads, grouping, bundling, masking,
   slicing and unfolding equals one causal attention per token, for every attention function, on vectors and on the
   tiles the layout kernels permute. The mask kernel's tail rewrite keeps the whole mask causal after any history of
   starts; the replay reader's results are those of the per-token reader at the start staged last, with one exact
   exception below, and over every run each of its operations succeeds exactly when the events so far allow it; the
   capture plan exists exactly for the budgets whose families are served, and selects exactly one admitted capture for
   every ticket it offers.
4. **Parser re-chunking** (`DeltaMerge`, `LastMessage`, `ParserRechunk`, `ServedText`). A multi-token delta is split
   exactly when the ids and messages of the request so far, or a marker in it, ask for it; splitting loses nothing, and
   a client reaches the same state from the merged messages, built by assigning the sub-messages' own objects, as from
   the sub-messages in order, over whole requests. When a message cannot be built, once or twice, the exact condition
   under which a client still gets what the parser produced is proved, and exactly which text is lost otherwise.
5. **Acceptance-log arithmetic** (`DraftRecovery`, `DraftSoundness`, `AcceptanceReport`, `Attribution`). Recovering a
   draft count from printed figures and exactly when its answers can be trusted, recognising a stream as a coarsening
   of rounds, conserving tokens across ragged records, and attributing records to users without conflict.

`Arithmetic`, `Bits` and `Results` hold the shared vocabulary: quotients and products by repeated addition, 32-bit words
as naturals with recursive bit operations, and outcomes that may be an exception.

Code that updates state is modelled by methods and classes with loops and assignments, each tied by its contract to a
specification function or relation; the main results are lemmas about those. Loops over devices, chips and runtime
tables are sequential, which the code's disjoint writes justify (`MaskReplay.TailPagesHaveOneTask`,
`ScoreDevice.CoresRunOneWorkerEach`).

## Where the code does less than its description

- A shared-mask scope is meant to run under one completed refresh. A refresh that a caller invokes directly, and that
  raises, does not fail the reader, so a caller that swallows the exception keeps getting results inside the scope. In
  long context they are still those of the per-token reader, because a refresh within a scope only rewrites the words
  that are there. In short context the refresh first clears the mask; if it fails after that, nothing is hidden and the
  results are wrong. `ReplayProtocol.ResultsUseLastStagedStart` gives the exact condition over all runs, and
  `AttentionReplay.SwallowedRefreshShows` a run whose result differs from the reference exactly under it.
- A prefill pass may preempt the partial prefill it sees (optimisation/sim/interleave.py:75-83 puts it back in the
  queue) and schedule nothing. If a decode runs, the patched scheduler replaces that pass's output by a decode-only
  one (optimisation/sim/stage-plugin.py:28-32), and with it goes the report of the preemption. The runner then never
  releases the scratch, and every later prefill step, the preempted request's own included, is refused
  (optimisation/sim/continuation.py:82-88) until that request is dropped from the queue.
  `LostReport.LostReportRefuses` is such a run. Right after a replaced pass with everything reported before it, the
  next scheduled step is accepted if and only if there was no partial prefill or it still runs
  (`ServingRuns.ReplacedPassIsClear`); over all runs, if and only if its request has no lost report and the holder of
  the scratch is reported with this step or runs and has not failed (`ServingRuns.ScheduledStepIsAccepted`).
- Past a thousand drafts, says the docstring of the draft recovery (scripts/ci/acceptance_report.py:221-232), rounding
  leaves no fitting count and the answer comes from the mean. It can be worse: the search can answer `exact` with a wrong
  count. 1001 drafts of 1002 tokens with 501 accepted, printed as rates 0.500 and 0.000 and a mean of 1.50, are answered
  as exactly 1002 (`DraftSoundness.SmallestWrongAnswer`). What a caller can check is the drafted tokens and the printed
  positions: the true count is always among the matches if and only if at most 1000 tokens were drafted or no rates are
  printed (`DraftSoundness.TrueCountsMatchIff`), and every exact answer is right if and only if at most 1001 were drafted
  or at most one rate is printed (`DraftSoundness.ExactAnswersRightIff`).
- The offered widths go up to 64 rows (scripts/ci/verifier_engine.py:118-129), but no ticket has more than 32. With the
  verifier rows and the cap both at 64, planning raises as soon as some family has room for 64 rows of the budget, as it
  does for 64 tokens from position 4096 (`RequestPlan.WidestLimitsRaise`); with the default cap of 32 it does not. When a
  plan exists is `RequestPlan.PlannableExactlyWhen`.
- When building the merged message fails after its calls were coalesced, the fallback lists call objects that already
  hold the joined arguments, and calls that share a function object see it grow too. The comment beside the fallback
  promises what the parser produced; a client gets that exactly when no call but the first of its index has arguments
  (`DeltaMerge.RelistingRepeatsArguments`, and over whole requests `ParserRechunk.ServedMeansFiner`), otherwise it gets
  arguments twice (`DeltaMerge.RelistingExamples`). When that message cannot be built either, the last sub-message is
  served, and means what all do exactly when it says everything they say (`LastMessage.LastMessageMeansTheSame`);
  otherwise the text of the earlier ones is lost for good (`ServedText.ServedTextLosesEarlier`).

## Model

| member | source | states |
|---|---|---|
| `Fp32.KeyOrdersValues` | scripts/ci/compact_score_selection.py:7-15 | over all finite FP32 encodings the ordered key orders exactly as the decoded real values do (sections 3.4 and 5.11 of IEEE 754-2019), equal keys if and only if equal values |
| `Fp32.KeyIdentifiesEncoding` | scripts/ci/compact_score_selection.py:13-15 | only the two zeros share a key |
| `Fp32.FiniteByExponent` | scripts/ci/compact_score_selection.py:10-12 | the exponent mask test is the IEEE finiteness test on the biased exponent field |
| `ScoreSelection.PartitionsTile` | scripts/ci/compact_score_selection.py:18-23 | the floor-division ranges are nonempty, ordered and tile the items without gap or overlap |
| `ScoreSelection.MaxWinner` | scripts/ci/compact_score_selection.py:36 | the final maximum is the best winner: largest key, then lowest token |
| `ScoreSelection.PartitionWinner` | scripts/ci/compact_score_selection.py:28-35 | a slice scan returns the first token of maximal value, or raises exactly when the slice has a nonfinite score |
| `ScoreSelection.Select` | scripts/ci/compact_score_selection.py:26-36 | host selection returns the lowest-index token of maximal value for every row and worker count, and raises exactly on a bad worker count or a nonfinite score |
| `ScoreSelection.ReduceRecords` | scripts/ci/compact_score_selection.py:48-58 | host reduction raises exactly on an unsupported shape or an unacceptable record, and otherwise returns the token of the best record |
| `ScoreSelection.RangesReduce` | scripts/ci/compact_score_selection.py:26-36 | the best of any partition's slice winners is the serial argmax of the whole row |
| `ScoreSelection.ArgmaxUnique` | scripts/ci/compact_score_selection.py:36 | the selected token is determined by the row |
| `ScoreKernels.KernelStartIsBoundary` | scripts/ci/compact_score_io.cpp:25 | the 32-bit start of a worker's loop does not wrap for the supported shapes and is the host's partition boundary |
| `ScoreKernels.KernelRange` | scripts/ci/compact_score_io.cpp:25 | both 32-bit loop bounds equal the host partition boundaries |
| `ScoreKernels.ReadRow` | scripts/ci/compact_score_io.cpp:20-31 | the two 64-byte face reads put exactly the selected tile row where lane order expects it |
| `ScoreKernels.ScanFinds` | scripts/ci/compact_score_io.cpp:21-51 | the lane scan finds the first token of maximal value among the finite scores and flags a nonfinite one |
| `ScoreKernels.IoKernel` | scripts/ci/compact_score_io.cpp:3-62 | one worker, over its tiles and lanes in a shared buffer, writes exactly the record of its slice of the score row |
| `ScoreKernels.LocalRecordValid` | scripts/ci/compact_score_io.cpp:37-58 | a worker's record is acceptable to the host exactly when its slice is finite |
| `ScoreKernels.ReduceKernel` | scripts/ci/compact_score_reduce.cpp:3-46 | the reduction kernel over its scratch buffer computes the reduced record of its inputs |
| `ScoreKernels.ReduceMatchesHost` | scripts/ci/compact_score_reduce.cpp:19-42 | on arbitrary records the kernel reports invalid exactly when the host reduction raises, otherwise the same best token, and feeds back token 0 when invalid |
| `ScoreKernels.ReduceInvalid` | scripts/ci/compact_score_reduce.cpp:23-28 | the invalid flag is set exactly when some record of the prefix is unacceptable to the host |
| `ScoreKernels.RecordsValidIffFinite` | scripts/ci/compact_score_io.cpp:37-58 | all workers' records are acceptable exactly when the whole row is finite |
| `ScoreKernels.KernelsSelectArgmax` | scripts/ci/compact_score_reduce.cpp:19-42 | scan kernels followed by the reduction kernel give the serial argmax of a finite row, and the invalid record for any row with a nonfinite score |
| `ScoreKernels.WorkerCountIrrelevant` | scripts/ci/compact_score_io.cpp:25-60 | the whole result record of a finite row is the same for any two worker counts |
| `ScoreDevice.Geometry` | scripts/ci/compact_score_device.py:8-16 | the admitted shapes, and the worker and tile counts they give |
| `ScoreDevice.CoresRunOneWorkerEach` | scripts/ci/compact_score_device.py:29-59 | the core ranges hold exactly the cores that get runtime arguments, and each of them gets exactly one worker |
| `CompactMarkov.ChipStep` | scripts/ci/compact_markov.py:31-38 | one step on one chip selects from the scores that follow the fed-back token |
| `CompactMarkov.Execute` | scripts/ci/compact_markov.py:28-42 | every record of a run comes from the scores of its own chip, step and fed-back word |
| `CompactMarkov.ValidateReadback` | scripts/ci/compact_markov.py:45-56 | the readback check accepts exactly the complete well-formed chains |
| `CompactMarkov.FeedbackInVocabulary` | scripts/ci/compact_score_reduce.cpp:37-42 | every id fed to the embedding is in the vocabulary, whatever the scores were |
| `CompactMarkov.AcceptedIsGreedy` | scripts/ci/compact_markov.py:45-56 | an accepted chain is the greedy argmax chain on each chip, and every step of it saw only finite scores, whatever tokens are presented |
| `CompactMarkov.AcceptedIffFinite` | scripts/ci/compact_markov.py:45-56 | with the run's own tokens the check accepts exactly when no step on either chip saw a nonfinite score |
| `CompactMarkov.AcceptedExactlyWhen` | scripts/ci/compact_markov.py:45-56 | the host accepts exactly the records of a token of the vocabulary with a finite score word, as the reduction writes them |
| `Prefill.PrefillTraced` | optimisation/sim/stage-continuation.py:36-42 | the rewritten loop: reset only at position 0, replay from the start chunk, return early unless last |
| `Prefill.IntermediateStep` | optimisation/sim/stage-continuation.py:36-42 | an intermediate step leaves exactly the chunk-by-chunk state and pages of its prefix, no slot and no foreign page changed |
| `Prefill.FinalStep` | optimisation/sim/stage-continuation.py:36-42 | a final step leaves the state, pages and logits of one whole prefill |
| `Prefill.ChunksTilePrompt` | scripts/ci/fixtures/qwen36_model.py:2530-2533 | the chunks of one size and the tail are the prompt: every token once, in order |
| `Prefill.RunChunksHolds` | scripts/ci/fixtures/qwen36_model.py:2530-2545 | replaying chunks carries held progress forward and touches only the request's pages |
| `Continuation.TPPrefillBackend.Drain` | optimisation/sim/continuation.py:126-133 | a drain raises under the latch, and a failed one latches |
| `Continuation.TPPrefillBackend.Run` | optimisation/sim/continuation.py:135-171 | the backend run with its nested try and finally blocks, where every drain, the binding and unbinding, the rope, prefill, readback, release of the logits and slot write may fail; `StepFaults.ForwardExactlyWhen` and `ContinuationState.ForwardFaithful` say when it succeeds and what it leaves |
| `Continuation.ContinuationController.Cancel` | optimisation/sim/continuation.py:15-20 | only the live owner cancels, and only a successful drain frees the scratch |
| `Continuation.ContinuationController.Forward` | optimisation/sim/continuation.py:22-104 | all checks, the ownership rules, and poisoning by a run that raises; `ContinuationState.ForwardFaithful` says which tokens, pages and slot a completed step has prefilled |
| `ContinuationState.ForwardFaithful` | optimisation/sim/continuation.py:69-104 | every step keeps the device faithful to the whole prefill of what was processed; an accepted final step leaves, on the first pages of the request, the state, KV pages and logits of one whole prefill of exactly its tokens up to the end; decode slots change only then, and only the named one |
| `ContinuationState.ContinuedPrefillIsWhole` | optimisation/sim/continuation.py:93-104 | in every run, with decode steps between, a completed prompt has, for its own tokens, pages and slot, the recurrent, convolution and KV state, logits and slot of one whole prefill |
| `ContinuationState.RunsStayFaithful` | optimisation/sim/continuation.py:22-104 | the invariant over every run of forwards, cancels and decodes |
| `StepFaults.AdmissibleExactlyWhen` | optimisation/sim/continuation.py:60-81 | the controller admits exactly the whole chunk at a chunk boundary, or a final part of it, with a named nonnegative epoch, a slot, tokens of the vocabulary and just enough pages of the pool |
| `StepFaults.ForwardExactlyWhen` | optimisation/sim/continuation.py:22-171 | over every faithful state: a step succeeds exactly when it is lawful, no restart is required and no device operation it gets to fails; one that is not lawful changes nothing, one that is and raises poisons the scratch of its owner; a restart is required exactly when a transfer, a drain it got to or the slot write failed, and the scratch stays bound exactly when its unbinding failed |
| `StepFaults.CancelExactlyWhen` | optimisation/sim/continuation.py:15-20 | only the live owner cancels, poisoned or not, and exactly a successful drain frees the scratch |
| `Interleave.Runner.Identities` | optimisation/sim/interleave.py:93-105 | a new epoch for an unseen request, the same one for a live one |
| `Interleave.Runner.Submit` | optimisation/sim/interleave.py:130-154 | the submission checks, and completion recorded only after a successful final run |
| `Interleave.Runner.ReleaseRequests` | optimisation/sim/interleave.py:115-127 | releasing cancels the live owner before its ledger entry goes |
| `StepFaults.IdentifyExactlyWhen` | optimisation/sim/interleave.py:93-105 | an identity is captured exactly for one request: the epoch it has, or one that no request had before |
| `StepFaults.SubmitExactlyWhen` | optimisation/sim/interleave.py:130-154 | a submission that is not a current entry's, or whose wait fails, changes nothing; any other is the controller's step of its owner over its own tokens, pages, range and slot, and completes the entry exactly when it succeeds and is final |
| `StepFaults.ReleaseExactlyWhen` | optimisation/sim/interleave.py:115-127 | a release fails exactly when the live owner is among the dead and the wait or its cancellation fails; it forgets exactly the dead, or nobody |
| `Interleave.RunsKeepInvariant` | optimisation/sim/interleave.py:86-154 | in every run of identity, submit and release steps with any backend failures, controller, ledger and history agree; a live owner is an unfinished ledger entry |
| `Interleave.OwnerRunsAreContiguous` | optimisation/sim/continuation.py:82-104 | two runs of an owner enclose only that owner's successful intermediate runs, each starting where the one before ended |
| `Interleave.FirstRunStartsAtZero` | optimisation/sim/continuation.py:82-84 | an owner's first run starts at position 0 |
| `Interleave.ClosedOwnerNeverReturns` | optimisation/sim/continuation.py:82-104 | in the history, an owner whose final run succeeded or whose cancellation drained has no later event |
| `Interleave.OneFinalAttempt` | optimisation/sim/continuation.py:82-104 | an owner has at most one attempt marked final, failed ones included, and no attempt after it |
| `Interleave.CompletionRetires` | optimisation/sim/interleave.py:148-149 | a successful final submission retires its epoch |
| `Interleave.ReleaseRetires` | optimisation/sim/interleave.py:115-127 | a successful release retires every epoch its dead requests ever had, even one that never held the scratch |
| `Interleave.RenewalRetires` | optimisation/sim/interleave.py:93-105 | a new epoch for a request retires all its earlier ones |
| `Interleave.RetiredSubmissionRaises` | optimisation/sim/interleave.py:134-136 | every submission under a retired epoch is refused without effect |
| `Interleave.RetiredEpochNeverRuns` | optimisation/sim/interleave.py:115-149 | in every run an epoch completed, released or replaced never runs again: it stays retired and no event of it follows |
| `Interleave.StaleSubmissionChangesNothing` | optimisation/sim/interleave.py:134-136 | in every run, whatever is submitted under an epoch retired before changes nothing |
| `Interleave.ReleasedEpochNeverRuns` | optimisation/sim/interleave.py:115-136 | in every run, nothing of an epoch known at a successful release of its request ever follows |
| `Interleave.FailureBlocksUntilCancelled` | optimisation/sim/continuation.py:24-25 | after a failed run the next event is that owner's drained cancellation |
| `Interleave.LatchHoldsForever` | optimisation/sim/continuation.py:126-133 | once a restart is required nothing runs, no scratch is freed and the device stays as it is |
| `Scheduler.CreditOwner.ChoosePrefill` | optimisation/sim/interleave.py:39-51 | the choice and the new credit, and an error on an unsupported ratio |
| `Scheduler.ChosenExactlyWhen` | optimisation/sim/interleave.py:39-51 | over every sequence of calls: a prefill is chosen exactly when it is wanted and either no decode runs or none of the last ratio calls was a chosen prefill beside a decode with every call since wanted and beside a decode |
| `Scheduler.WantedPrefillWaitsAtMostRatio` | optimisation/sim/interleave.py:39-51 | at any point of any run a prefill that stays wanted is chosen after at most ratio decode steps |
| `Scheduler.PrefillsAreSpacedByRatio` | optimisation/sim/interleave.py:39-51 | under constant load each prefill is followed by exactly ratio decode steps |
| `Scheduler.SchedulerState.Enter` | optimisation/sim/interleave.py:61-72 | hiding the decodes and, with a partial prefill, both queues |
| `Scheduler.SchedulerState.Exit` | optimisation/sim/interleave.py:75-83 | restoring them on any exit |
| `Scheduler.PassRunsExactly` | optimisation/sim/interleave.py:54-83 | a prefill pass can run exactly the partial prefill if there is one, and otherwise, if and only if the decodes leave a place, any one waiting request |
| `Scheduler.SinglePrefillConserves` | optimisation/sim/interleave.py:54-83 | for any inner scheduling, finished or interrupted, no request is lost or duplicated and capacity and queues come back |
| `Scheduler.SinglePrefillKeepsHealthy` | optimisation/sim/interleave.py:54-83 | running requests stay within capacity with at most one partial prefill |
| `Scheduler.RunsStayHealthy` | optimisation/sim/interleave.py:63-64 | in every run the error for several partial prefills is unreachable |
| `Serving.DecodedRequests` | scripts/ci/fixtures/vllm_tt_plugin_bf77cd63/scheduler.py:175-206 | a decode-only pass, which hides the waiting queues and the partial prefill, loses and duplicates no request |
| `Serving.DecodedPartials` | scripts/ci/fixtures/vllm_tt_plugin_bf77cd63/scheduler.py:175-206 | and leaves the partial prefill alone |
| `Serving.AcceptedIffClear` | optimisation/sim/interleave.py:130-154 | in every state that satisfies the invariant a scheduled step passes every check of the submission and of the controller if and only if its request has no lost report, and the holder of the scratch is reported now or runs and has not failed |
| `Serving.UntoldRunnerRefuses` | optimisation/sim/continuation.py:82-88 | until the runner is told that the partial prefill is gone, no request can start, whatever its epoch |
| `ServingRuns.RunsStayGood` | optimisation/sim/interleave.py:54-154 | in every run of arrivals, decode-only passes, idle passes with outputs replaced or not, and scheduled steps, failed ones and their releases included: the request the scheduler left in the middle of its prompt owns the scratch, at the scheduler's own position while it runs, and the ledger knows exactly the running requests and those whose end the runner was not told |
| `ServingRuns.ScheduledStepIsAccepted` | optimisation/sim/interleave.py:54-154 | in every such run the next prefill step that `single_prefill` lets through is accepted if and only if no lost report and no unreleased failure stands in its way |
| `ServingRuns.CarriedReportsSuffice` | optimisation/sim/interleave.py:54-154 | so it always is as long as no replaced output named a request and no step failed |
| `ServingRuns.ReplacedPassIsClear` | optimisation/sim/stage-plugin.py:28-32 | right after an idle pass whose output was replaced: accepted if and only if that output named neither the scheduled request nor the holder of the scratch; with nothing to report before the pass, if and only if there was no partial prefill or it still runs |
| `LostReport.LostReportRefuses` | optimisation/sim/stage-plugin.py:28-32 | a run of three passes after which the scheduled step is refused: a request decodes, another gets its first chunk and is preempted in an idle pass |
| `ServingRuns.ScheduledPrefillIsWhole` | optimisation/sim/interleave.py:54-154 | in every such run an accepted step succeeds if its device operations do, and one that ends a prompt leaves state, pages, logits and slot of one whole prefill of the request's tokens, on the pages of its block table and in its slot, with arrivals, preemptions, failures, decodes and other prefills between |
| `ServingRuns.ReleaseRecovers` | optimisation/sim/interleave.py:115-127 | in every such run a report that names the holder of the scratch, failed or not, frees it and restores the invariant with no failure left, and every scheduled request without a lost report is accepted again |
| `ServingRuns.FailureBlocks` | optimisation/sim/continuation.py:24-25 | until then nothing is accepted after a failed step |
| `Deadline.PromptCompletesInTime` | optimisation/sim/interleave.py:39-51 | in every such run a prompt with n chunks left that stays wanted, its steps schedulable, makes its last step within n * (ratio + 1) scheduling decisions, however many other operations lie between |
| `TileLayout.FaceIndexInverts` | scripts/ci/attention_mask_replay.cpp:26 | the 32x32 tile index over 16x16 faces determines row and column |
| `TileLayout.CoordinatesInvert` | scripts/ci/attention_mask_replay.cpp:26 | and every word of a tile has a row and a column |
| `HeadFold.FoldAt` | scripts/ci/attention_head_fold.py:4-10 | the reshape and permute put head 6 kv + h of a token at kv (6 rows) + 6 token + h |
| `HeadFold.UnfoldAt` | scripts/ci/attention_head_fold.py:13-16 | and unfolding puts it back |
| `HeadFold.UnfoldInvertsFold` | scripts/ci/attention_head_fold.py:4-16 | unfolding undoes folding for every query and token count |
| `HeadFold.FoldFollowsSourceRow` | scripts/ci/attention_fold_dma.py:12-14 | source_row is exactly the permutation of fold_query |
| `HeadFold.UnfoldFollowsSourceRow` | scripts/ci/attention_fold_dma.py:9-11 | and inverted, that of unfold_output |
| `HeadFold.SourceRowsInvert` | scripts/ci/attention_fold_dma.py:6-14 | its two directions are inverse permutations |
| `FoldDma.FoldTask` | scripts/ci/attention_fold_dma.cpp:3-50 | one task, inside a buffer of max(4, rows) + 1 tiles, writes its permuted rows and zeros elsewhere |
| `FoldDma.DeviceLayoutDma` | scripts/ci/attention_fold_dma.py:17-61 | the admitted geometry, and one output page per task |
| `FoldDma.ForwardRefines` | scripts/ci/attention_fold_dma.cpp:33-46 | on tiled storage the forward kernel follows source_row from the offset token, with zero padding rows |
| `FoldDma.InverseRefines` | scripts/ci/attention_fold_dma.cpp:26-46 | and the inverse kernel the inverse source_row, with zero rows 12 to 31 |
| `FoldDma.RoundTrip` | scripts/ci/attention_fold_dma.cpp:13-48 | forward then inverse returns the twelve heads of every selected token, with zero padding |
| `ChunkGroups.ChunkGroupsOf` | scripts/ci/attention_head_fold.py:32-48 | the grouping loop, and when it raises |
| `ChunkGroups.GroupsPartitionTokens` | scripts/ci/attention_head_fold.py:37-48 | the groups are consecutive runs of one signature, cover every token once, respect the row limit and split no sooner than needed |
| `ChunkGroups.SignatureCovers` | scripts/ci/attention_head_fold.py:39-43 | the chunk is the smallest power of two of tiles that covers the position, up to the limit, and the capacity the end of the chunk that holds it |
| `ChunkGroups.ParallelGroups` | scripts/ci/attention_head_fold.py:51-63 | the bundling loop, and when it raises |
| `ChunkGroups.BundlesKeepGroups` | scripts/ci/attention_head_fold.py:56-63 | bundling keeps groups and order, and bundles at most the limit of groups of one shape |
| `ChunkGroups.BundlesFill` | scripts/ci/attention_head_fold.py:56-63 | a bundle ends only when it is full or the next group has another shape |
| `ChunkGroups.BundleOffsets` | scripts/ci/attention_mask_replay.cpp:24 | group b of a bundle starts b x rows tokens after the bundle, as the mask kernel computes |
| `ChunkGroups.ValidateTicket` | scripts/ci/attention_mask_replay.py:13-32 | the conditions of a ticket, ladder and short context included |
| `ChunkGroups.FamilySignatures` | scripts/ci/attention_mask_replay.py:30-32 | every position of an admitted ticket has chunk 256 and the captured capacity |
| `ChunkGroups.PreparedBundlesFitFamily` | scripts/ci/attention_replay.py:47-57 | the bundles prepared at the family's first position are those of every admitted start |
| `MaskReplay.CausalPositionsByHead` | scripts/ci/attention_head_fold.py:26 | the expanded and flattened positions are the kernel's token position of each folded head |
| `MaskReplay.TaskPage` | scripts/ci/attention_mask_replay.cpp:18-32 | the kernel's batch, head tile and page arithmetic is the page of its strip and column |
| `MaskReplay.TailPagesHaveOneTask` | scripts/ci/attention_mask_replay.cpp:18-33 | every tail page is written by exactly one task and no other page by any |
| `MaskReplay.BuildTile` | scripts/ci/attention_mask_replay.cpp:22-30 | the row and column loops fill the tile with the tail of the mask |
| `MaskReplay.Refresh` | scripts/ci/attention_replay.py:91-97 | all tasks of one refresh rewrite every tail page in place and leave the rest clear |
| `MaskReplay.RefreshedMaskIsCausal` | scripts/ci/attention_mask_replay.cpp:18-34 | after it the whole mask, every entry of every group, is the stacked causal mask at the given start |
| `MaskReplay.PaddingIsHidden` | scripts/ci/attention_mask_replay.cpp:24-32 | after a refresh the tile rows past the last folded head are hidden in all tail pages |
| `SerialAttention.SerialAttentionReader.Call` | scripts/ci/attention_batch.py:91-113 | the per-token reference, for every supported token count, 1 to 32 heads and any positions and page tables: the tokens' outputs in token order, or an error exactly for another geometry |
| `SerialAttention.HeadOfToken` | scripts/ci/attention_batch.py:101-106 | every head of every token of that output comes from its own query vector and KV head, at its own token's position and page table |
| `SerialAttention.TokensAreSerial` | scripts/ci/attention_batch.py:101-106 | at the twelve heads of a chip and consecutive positions that output is the per-token causal attention the grouped readers are compared with |
| `AttentionParallel.GroupOutputAt` | scripts/ci/attention_parallel.py:14-25 | after fold, attention and unfold every vector comes from its own query under its own mask row |
| `AttentionParallel.Execute` | scripts/ci/attention_parallel.py:6-30 | the bundle loops: each group's outputs in order, or an error exactly when a bundle does not fit or there is none |
| `AttentionEquivalence.MaskRowCells` | scripts/ci/attention_head_fold.py:26-28 | a causal mask over whole pages shows a folded head exactly the cache cells of causal attention at its token |
| `AttentionEquivalence.GroupedAttentionIsSerial` | scripts/ci/attention_parallel.py:6-30 | fold, bundle, masked attention, slice, unfold and join equal the per-token reference, for every start, token count, query and attention function |
| `DeviceAttention.KernelFolds` | scripts/ci/attention_fold_dma.cpp:33-46 | the head vectors held by the tiles of a forward layout call are fold_query of the vectors of the selected tokens, for every tensor, offset and row count |
| `DeviceAttention.KernelUnfolds` | scripts/ci/attention_fold_dma.cpp:26-46 | and those of an inverse call are unfold_output of the folded vectors |
| `DeviceAttention.ConcatVectors` | scripts/ci/attention_parallel.py:28 | joining tensors of whole tokens joins their vectors in order |
| `DeviceAttention.ExecuteTiles` | scripts/ci/attention_parallel.py:6-30 | the bundle loops on tiles, with the layout kernels around any native attention that is right on the folded vectors: an error exactly when the loops on vectors raise, otherwise tiles whose vectors are their output |
| `DeviceAttention.ReadTiles` | scripts/ci/attention_parallel.py:6-30 | under a ticket's metadata it never raises, and the tiles hold the per-token causal results of every token |
| `AttentionGrouped.CausalMaskOf` | scripts/ci/attention_head_fold.py:19-29 | the causal mask, and when it raises |
| `AttentionGrouped.GroupedAttentionReader.Open` | scripts/ci/attention_grouped.py:9-52 | exactly which static readers can be built |
| `AttentionGrouped.GroupedAttentionReader.Call` | scripts/ci/attention_grouped.py:54-90 | every static reader, serial, grouped or parallel, returns the per-token results |
| `ReplayProtocol.ResultsUseLastStagedStart` | scripts/ci/attention_replay.py:62-141 | in every run a result is computed under masks that are all causal at the start staged last, if and only if the caller is not, in short context, inside a scope in which its own refresh raised after the clear; then nothing is hidden |
| `ReplayProtocol.TornScopeReturns` | scripts/ci/attention_replay.py:91-97 | the run that shows it: a result is returned under a blank mask in short context, and under causal masks in long context |
| `ReplayProtocol.FailedReaderNeverReturns` | scripts/ci/attention_replay.py:62-67 | a failed or closed reader stays so and returns no result |
| `ReplayProtocol.ScopesConsumeTheirBudget` | scripts/ci/attention_replay.py:99-116 | a shared-mask scope ends normally exactly after its one to sixteen budgeted calls |
| `ReplayProtocol.SucceedsExactlyWhen` | scripts/ci/attention_replay.py:62-152 | over every run, each stage, refresh, opening or end of a scope, call and close succeeds if and only if its own arguments are admitted, its device operations succeed, and no earlier event failed or closed the reader or left a scope that forbids it, all said of the events alone |
| `ReplayProtocol.CountersCount` | scripts/ci/attention_replay.py:91-97 | over every run the counters are the results returned and the masks rewritten |
| `AttentionReplay.PrepareAccepts` | scripts/ci/attention_mask_replay.py:41-49 | prepare accepts every bundle of an admitted family, in short context too |
| `AttentionReplay.ReplayAttentionReader.Open` | scripts/ci/attention_replay.py:13-60 | exactly which replay readers can be built |
| `AttentionReplay.ReplayAttentionReader.Stage` | scripts/ci/attention_replay.py:69-89 | staging, with a failure ahead of the copy, which leaves the reader usable, or in it, which fails the reader whatever reached the device; `ReplayProtocol.SucceedsExactlyWhen` says when it succeeds |
| `AttentionReplay.ReplayAttentionReader.RefreshMasks` | scripts/ci/attention_replay.py:91-97 | the refresh loop, complete or interrupted at any bundle, before or after its clear: exactly which bundles' masks then hold the start, nothing, or what they held |
| `AttentionReplay.ReplayAttentionReader.RefreshMask` | scripts/ci/attention_replay.py:93-97 | one bundle: rewritten, cleared, or untouched |
| `AttentionReplay.ReplayAttentionReader.Enter` | scripts/ci/attention_replay.py:99-108 | opening a shared-mask scope |
| `AttentionReplay.ReplayAttentionReader.Leave` | scripts/ci/attention_replay.py:109-116 | leaving it |
| `AttentionReplay.ReplayAttentionReader.Call` | scripts/ci/attention_replay.py:118-141 | a call under masks causal at the staged start, however refreshed, returns the results of the per-token reference there; under a blank short-context mask its first vector attends the whole capacity |
| `AttentionReplay.SwallowedRefresh` | scripts/ci/attention_replay.py:91-116 | for every attention, query and start: a refresh that raises inside a scope and is swallowed leaves the per-token results, unless it cleared the short-context mask |
| `AttentionReplay.SwallowedRefreshShows` | scripts/ci/attention_replay.py:91-116 | for an attention that returns the cells it sees the result equals the reference if and only if the mask was not cleared |
| `AttentionReplay.UnmaskedDiffers` | scripts/ci/attention_replay.py:94-95 | at every admitted start and for every query an unmasked result differs from the reference |
| `AttentionReplay.ReplayAttentionReader.Close` | scripts/ci/attention_replay.py:143-152 | closing |
| `RequestPlan.CaptureWidths` | scripts/ci/verifier_engine.py:122-129 | the offered widths, and when there are none |
| `RequestPlan.CapturePlan` | scripts/ci/attention_request_plan.py:47-64 | the captures of a request, and exactly when planning raises; its own uniqueness check never fails |
| `RequestPlan.PlannableExactlyWhen` | scripts/ci/attention_request_plan.py:47-61 | planning succeeds if and only if the request is within the limits, a short-context one within its own, and every family in which the budget has room for eight rows is served, by the ladder where it is set, and cannot be asked for 64 rows, which no ticket admits |
| `RequestPlan.WidestLimitsRaise` | scripts/ci/attention_request_plan.py:57-60 | 64 tokens from position 4096 can be planned with a cap of 32 rows and cannot with one of 64 |
| `RequestPlan.CapturesWanted` | scripts/ci/attention_request_plan.py:53-61 | a plan holds each narrow width once and each wide width once per family whose share of the budget holds it, and nothing else |
| `RequestPlan.CapturesUnique` | scripts/ci/attention_request_plan.py:62-63 | capture keys are unique |
| `RequestPlan.Select` | scripts/ci/attention_request_plan.py:38-44 | the single usable capture of a width, or an error |
| `RequestPlan.SelectServesOfferedTickets` | scripts/ci/attention_request_plan.py:26-44 | selection succeeds exactly for the in-budget tickets of an offered width that fit their family, with the one capture for it |
| `RequestPlan.SelectedExactlyWhen` | scripts/ci/attention_request_plan.py:26-44 | over every plan, of any captures: one is selected if and only if the ticket is in the budget and it is the only usable one of the width |
| `RequestPlan.SelectedTicketIsValid` | scripts/ci/attention_request_plan.py:38-60 | a selected mask-family capture is admitted by the ticket check at the ticket's own position |
| `RequestPlan.AlwaysOneToken` | scripts/ci/attention_request_plan.py:35-36 | every in-budget ticket has an available width, so max_rows does not raise |
| `RequestPlan.MaxRows` | scripts/ci/attention_request_plan.py:35-36 | the widest available capture |
| `RequestPlan.PoolCoversPlans` | scripts/ci/verifier_engine.py:132-148 | the bucket rows of a pool sized with at least the request's verifier rows, budget and row cap cover, for every width, the captures of every plan of the request, at every position |
| `RequestPlan.LargerPoolCovers` | scripts/ci/verifier_engine.py:144-148 | the same for any increasing widths of the request and of the pool, for every width the pool offers |
| `RequestPlan.BucketCoversPlan` | scripts/ci/verifier_engine.py:137-143 | and for one and the same budget and widths, at every position |
| `RequestPlan.BucketIsLargest` | scripts/ci/verifier_engine.py:147-149 | the bucket has each narrow width once and each wide one as often as the families a budget can touch and whole blocks it holds allow, whichever is less |
| `DeltaMerge.CoalescedMeansTheSame` | scripts/ci/c2_parser_rechunk.py:357-384 | a client reaches the same tool-call state from the coalesced entries as from the calls in order |
| `DeltaMerge.CoalescedIndices` | scripts/ci/c2_parser_rechunk.py:357-384 | one entry per index |
| `DeltaMerge.DistinctCallsStay` | scripts/ci/c2_parser_rechunk.py:382-384 | calls stay as they are exactly when their indices are distinct |
| `DeltaMerge.Coalesce` | scripts/ci/c2_parser_rechunk.py:357-384 | the in-place loop over call and function objects, sharing included, computes that list, and leaves every call object, first of its index or not, with exactly its relisted value |
| `DeltaMerge.FillInPlace` | scripts/ci/c2_parser_rechunk.py:367-381 | one in-place step: unset fields filled, arguments appended, a missing function shared |
| `DeltaMerge.Merge` | scripts/ci/c2_parser_rechunk.py:334-354 | nothing, the only message as it is, or one message of all, unless its constructor raises; and what the calls hold after either |
| `DeltaMerge.MergedMeansTheSame` | scripts/ci/c2_parser_rechunk.py:334-384 | for every list of sub-messages a client reaches the same state from the merged message, coalesced or not |
| `DeltaMerge.LoneMessageKept` | scripts/ci/c2_parser_rechunk.py:338-342 | a message that is alone is served as it is, its calls not coalesced, and nothing is served without one |
| `DeltaMerge.RelistingRepeatsArguments` | scripts/ci/c2_parser_rechunk.py:227-240 | for every list of calls, listing them again after coalescing means the same to a client if and only if no call but the first of its index has arguments |
| `DeltaMerge.RelistingExamples` | scripts/ci/c2_parser_rechunk.py:227-240 | two lists for which it does not: split arguments, and a function object that two calls share |
| `DeltaMerge.MergeOrKeep` | scripts/ci/c2_parser_rechunk.py:227-240 | the merge with its fallbacks on the objects: the merged message, else one of the calls listed again, else the last message |
| `DeltaMerge.RelistedMessageMeansTheSame` | scripts/ci/c2_parser_rechunk.py:227-240 | the message of the first fallback means what the sub-messages mean under that same condition, and only then |
| `ParserRechunk.SplitsJoin` | scripts/ci/c2_parser_rechunk.py:183-212 | whenever a delta is split its texts join to the delta's text and its ids to its ids, one token each |
| `ParserRechunk.TrackedIsHistory` | scripts/ci/c2_parser_rechunk.py:196-206 | the tool flags say whether a tool call has started, and whether one started with no end since |
| `ParserRechunk.WindowIsHistory` | scripts/ci/c2_parser_rechunk.py:196-225 | in every run, while re-chunking is on, the whitespace window is what all ids and messages of the request so far say |
| `ParserRechunk.PiecesExactlyWhen` | scripts/ci/c2_parser_rechunk.py:164-181 | a stream renders ids as exactly the texts the decoder gives when stepped over them, a refused id as nothing, an invalid prefix by a fresh stream, and a repeated added token by its content |
| `ParserRechunk.Stream.Step` | scripts/ci/c2_parser_rechunk.py:164-181 | one token's text, with the guarded decode stream |
| `ParserRechunk.Stream.MakePlan` | scripts/ci/c2_parser_rechunk.py:183-214 | the plan, the flags after it, and when the stream switches itself off |
| `ParserRechunk.SplitExactlyWhen` | scripts/ci/c2_parser_rechunk.py:126-214 | in every run with the stream on, the parser gets the tokens one at a time if and only if they render as the delta's text (a finished one's stop token left out), there are at least two, and one is a marker or a tool call has started, none is open and no message had text; what it gets; and exactly when the stream goes off |
| `ParserRechunk.Stream.Merge` | scripts/ci/c2_parser_rechunk.py:227-240 | a message that cannot be built is kept by the fallbacks and switches re-chunking off |
| `ParserRechunk.Stream.ParseDelta` | scripts/ci/c2_parser_rechunk.py:126-141 | one wrapped parse_delta: plan, parse in order, merge or fall back, observe |
| `ParserRechunk.ServedParserMeansFiner` | scripts/ci/c2_parser_rechunk.py:126-141 | over every run the stock parser ends where it would had it been given the finer deltas |
| `ParserRechunk.HarmlessMeansAlike` | scripts/ci/c2_parser_rechunk.py:227-240 | for every delta and every failure: no client can tell the message served from the messages it was made of, if and only if the message was built, or was listed again with arguments only in the first call of each index, or the last message suffices |
| `ParserRechunk.ServedMeansFiner` | scripts/ci/c2_parser_rechunk.py:126-240 | over every run, merges failing once, twice or not, the client ends where it would had it been given each message of the finer deltas, if every delta is harmless in that sense; and only if so, when no delta fails twice |
| `LastMessage.LastCallsMeanTheSame` | scripts/ci/c2_parser_rechunk.py:237-240 | after coalescing, the last message's calls alone mean to every client what all calls mean, if and only if they repeat every index, id, type and name of the earlier calls, whose arguments are empty, and nothing a call was lent by coalescing is followed by arguments |
| `LastMessage.LastMessageMeansTheSame` | scripts/ci/c2_parser_rechunk.py:237-240 | and the last message alone means what all messages mean, if and only if its calls suffice, the earlier ones have no role but its own, and no text |
| `ServedText.ServedTextLosesEarlier` | scripts/ci/c2_parser_rechunk.py:227-240 | over every run and all failures, a client's content and reasoning are those of the finer deltas if and only if no delta for which nothing could be built had such text in a message but its last; otherwise it is shorter by the length of that text |
| `ParserRechunk.FinerJoins` | scripts/ci/c2_parser_rechunk.py:183-212 | no text or token is lost, repeated or moved |
| `ParserRechunk.OffForGood` | scripts/ci/c2_parser_rechunk.py:216-219 | once off, whatever was served since, the next delta goes to the stock parser whole |
| `DraftRecovery.RecoverDrafts` | scripts/ci/acceptance_report.py:221-254 | the recovery with its matching loop, and that its answer is the deserved one |
| `DraftRecovery.RecoveredIsDeserved` | scripts/ci/acceptance_report.py:233-254 | for every interval: the only count that fits the figures; without accepted tokens the least count of full drafts; of several the nearest to accepted / (mean - 1), or the least without a mean; that estimate rounded if none fits; nothing otherwise |
| `DraftRecovery.CountRecovered` | scripts/ci/acceptance_report.py:236-240 | up to a thousand drafts a printed rate gives its count back |
| `DraftRecovery.CountsRecoverableUpToThousand` | scripts/ci/acceptance_report.py:235-243 | printed rates give every count back if and only if there are at most a thousand drafts |
| `DraftRecovery.TrueDraftsMatch` | scripts/ci/acceptance_report.py:235-244 | the true draft count, up to a thousand, is always among the matches |
| `DraftRecovery.RecoveryIsSound` | scripts/ci/acceptance_report.py:245-254 | a no-acceptance answer is at most the true count, for any count; up to a thousand drafts, so whenever at most a thousand tokens were drafted, an exact answer is the true count, an ambiguous one has it among its matches, and no other answer is given |
| `DraftRecovery.LargeIntervalsCanFail` | scripts/ci/acceptance_report.py:235-243 | for every count past a thousand there is an interval, printed with its own mean, whose true count is not among the matches |
| `DraftSoundness.PrintedOfDrafts` | scripts/ci/acceptance_report.py:224-227 | what is printed for any list of drafts satisfies the relation the docstring states between the count and the figures |
| `DraftSoundness.TrueCountsMatchIff` | scripts/ci/acceptance_report.py:235-244 | for every number of drafted tokens and printed positions: all intervals have their true count among the matches if and only if at most 1000 tokens were drafted or no rates are printed |
| `DraftSoundness.ExactAnswersRightIff` | scripts/ci/acceptance_report.py:235-246 | all exact answers are the true count if and only if at most 1001 tokens were drafted or at most one position is printed |
| `DraftSoundness.WrongExactAnswer` | scripts/ci/acceptance_report.py:235-246 | a family of wrong exact answers: an odd number of accepted tokens, from 501 on, out of twice as many drafts less one, is answered with one draft too many |
| `DraftSoundness.SmallestWrongAnswer` | scripts/ci/acceptance_report.py:235-246 | the smallest of them: 1002 drafted, 501 accepted, rates 0.500 and 0.000, mean 1.50, from 1001 drafts, is answered exactly 1002 |
| `DraftRecovery.NearestIsNearest` | scripts/ci/acceptance_report.py:251 | the ambiguous answer is the match nearest the estimate, the smaller of two equally near |
| `AcceptanceReport.StreamAgreement` | scripts/ci/acceptance_report.py:474-491 | the verdict on a stream |
| `AcceptanceReport.AgreementIsCoarsening` | scripts/ci/acceptance_report.py:474-499 | for positive sizes the verdict is exact or coalesced exactly when the chunks are consecutive groups of rounds, only the first of which may be empty, and exact exactly when the first is empty and the others are single rounds |
| `AcceptanceReport.CountAgreement` | scripts/ci/acceptance_report.py:479-483 | without chunk sizes the verdict is on the number of chunks: whether it is that of a stream with every round a chunk of its own |
| `AcceptanceReport.RoundSplit` | scripts/ci/acceptance_report.py:356-401 | the alignment check and the grouping loop |
| `AcceptanceReport.AlignedExactlyWhen` | scripts/ci/acceptance_report.py:366-380 | log and records are aligned exactly when every step has as many users as records with a block there, and their rows, and the longest record has a block for each step |
| `AcceptanceReport.GroupsHoldTheirRounds` | scripts/ci/acceptance_report.py:381-397 | every group holds exactly the rounds of its live count and packing |
| `AcceptanceReport.ColumnsAreRecords` | scripts/ci/acceptance_report.py:366-383 | over ragged records every block stands in exactly one step |
| `AcceptanceReport.SplitConserves` | scripts/ci/acceptance_report.py:356-401 | groups hold every decode step once, and when aligned their tokens, rows and user rounds are those of all blocks of all records, otherwise nothing |
| `AcceptanceReport.SplitHoldsItsSteps` | scripts/ci/acceptance_report.py:381-397 | a group holds exactly the steps of its live count that are packed throughout, or not, when aligned, and the tokens of their blocks |
| `Attribution.Attribute` | scripts/ci/acceptance_report.py:502-552 | the five passes, each attributing exactly the records it can; no user gets two records, every attribution rests on its evidence, and one made on a stream has no rival among the records and users left over at the end |
| `Attribution.AcceptsExactlyWhen` | scripts/ci/acceptance_report.py:540-545 | chunk sizes are evidence exactly when they are the record's rounds grouped, a number of chunks exactly when it is that of a stream with every round a chunk of its own |
| `Attribution.ByStream` | scripts/ci/acceptance_report.py:540-551 | the user whose stream alone fits a record, if no other free record fits that stream |
| `Attribution.ByPosition` | scripts/ci/acceptance_report.py:530-536 | the user singled out by the first block's position |
| `Attribution.ClaimKeepsSound` | scripts/ci/acceptance_report.py:521-523 | a claim keeps every earlier attribution sound |

## Left out

- Device, mesh, trace and program-descriptor calls, buffer allocation and release, and the lists of owned temporaries: foreign resources; only shapes, task numbers and staged words remain.
- Floating-point numerics of attention, matrix products, convolution and score addition: uninterpreted functions. `Attention` depends on a head's query, its KV head, the visible cache cells and the native chunk workload, and is assumed to depend on nothing else.
- Tensor data types, layouts, memory configurations, device placement and grid-size checks: single-branch checks of foreign objects; in `Continuation` one flag stands for the shape, dtype and text-only checks of the entry.
- Environment flags and mode guards: the context ladder and the compact scratch flag are parameters, the simulator-only guards and the `enabled()` switches of the interleaving module are taken as on, and a flag is taken not to change during a reader's life.
- Compile-time kernel arguments, barriers, circular-buffer handshakes and `volatile` accesses: each kernel runs alone on its own buffer, so only the order of its own reads and writes remains.
- Prefill kernels: a chunk's outcome is a function of the recurrent state, the pages of earlier positions, its tokens and its position, and it writes only its own pages; rope tables are a function of positions for text requests, and the page ids of one request are distinct, as the block allocator hands them out.
- The lazily created continuation controller and the request's rope delta in `submit`: a fresh controller stands for the first, the second is not read by this code.
- Continuation.TPPrefillBackend.Run: a binding of the scratch that fails is taken to change nothing and an unbinding that fails to leave it bound, because what a failed foreign call leaves is not visible to this code.
- The order in which a request queue prepends requests is that of the repository's own test double; conservation does not depend on it.
- The inner vLLM scheduler: any step that moves requests among the queues it sees within its limit, interrupted or not.
- ServingRuns.ScheduledStepIsAccepted: takes a scheduled prompt to get the whole token budget and a block table that keeps its pages, an output that is not replaced to name all requests that finished or were preempted since the one before and a replaced one to take its reports along (scripts/ci/serving_prefill_admission.py:72-84, docs/lever-n-plugin-contract-2026-09-19.md:127-130), no forced mode (validate_config admits a single lane), drains of releases to succeed, and a refused step or a required restart to end the run, because vLLM's own scheduler and engine are not part of this model; a decode-only pass that follows a replaced one is a step of its own.
- Audit capture and close in the replay reader, and device failures in its constructor: no state of this code depends on them.
- AttentionReplay.ReplayAttentionReader.RefreshMasks: a failing bundle refresh happens before or after the short-context clear but writes no partial tile, because what a failed device operation leaves is foreign.
- DeviceAttention.ExecuteTiles: a stack of folded groups is the list of its batches' tiles, and what the native attention leaves in padding rows is arbitrary, because the stacked layout and the native kernel are foreign.
- AttentionGrouped.GroupedAttentionReader.Call: groups taken one at a time run as bundles of one group, because the two loops of the source differ only in the layout call they make, and positions and pages are those the reader was built for.
- DeltaMerge.Merge: requires, when it coalesces, that no call object or function object occurs twice among the sub-messages, because each parser result is built afresh; it raises only when the constructor of the message does, as fields of other types are foreign.
- ParserRechunk.Stream.ParseDelta: takes message values rather than objects; `DeltaMerge.MergeOrKeep` shows that the merge of objects, fallbacks included, gives those values.
- ParserRechunk.ServedMeansFiner: once some delta fails twice, its condition is sufficient for the end of a run but not necessary, because a later message can repeat what was lost; for each delta `HarmlessMeansAlike` is exact.
- The tokenizer's decode stream: an arbitrary step function that may refuse, report an invalid prefix or break; reading markers, the tokenizer and the parser's own exceptions are foreign.
- DraftSoundness.PrintedOf: takes an interval without rates to have no accepted tokens, on which the `width == 0` case of `TrueCountsMatchIff` and `ExactAnswersRightIff` rests; accepted tokens printed without rates would match no count (`RatelessNeverMatches`).
- DraftRecovery.RecoverDrafts: figures are exact rationals rounded half to even, because binary rounding of the quotients is not the point of the search; an interval's `mean` value is in hundredths and may be nan.
- Log parsing, timestamps, median and mean times, rates and the display order of groups in the acceptance report; an audit owner is given per record, as a list in record order.
- Serial and ordered cache writers, the fold through reshape operations on the device (`device_layout`), and the pooled and extent readers: easy members or variants of what is modelled.
- HTTP clients, image provenance, overlays, gate runners, simulator probes and evidence checks: I/O plumbing.
