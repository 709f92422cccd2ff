# chibillm: what its scheduler, its memory and its text paths guarantee

chibillm serves a language model from one machine. Requests wait in a queue, are admitted against a page budget,
prefilled in chunks, decoded in rounds, and may resume from cached prompt prefixes; a worker thread does all of this
while other threads submit and cancel. This project models that machinery in Dafny and proves that none of it shows in
the answers: every request gets the text that a one-request greedy loop would have produced, and gets it.

The model runner is an arbitrary deterministic function of the recurrent memory, the cached keys and values of all earlier
positions, and a token (`Kernels`). A forward pass is that function applied row by row, through the page tables, to one
flat array of slots. Allocation failures of the backend, failures of the runner, checkpoints that cannot be saved or
restored, and the iteration order of hash maps are inputs, so every theorem holds for all of them.

## How the project is laid out

Code that changes objects in place is a class here as well, and each method is proved to compute a function of the old
value; the theorems are about those functions.

* Values and classes: `Sequences`, `Paging`, `PrefixCaching`, `HybridStates` with `ModelStates`, `Batches`,
  `Scheduling` with `SchedulerObjects`, `Engine` with `EngineObjects`, `Serving` with `ServingObjects`.
* What every operation keeps: `Invariants`, `Selection` (schedule), `Completion` and `Protocol` (complete, abort),
  `Lifecycle` (admission, cancellation), `Residence`, `Execution` and `Transactions` (memory), `Building` (batches),
  `Generation` and `Admission` (tokens).
* What each operation must do, as relations that leave it one choice and name none of its helpers: `Choosing` (schedule),
  `Storing` (complete), `Budgeting` and `Resuming` (admission), `AcceptedBatches` (build and prepare), `Preparing`,
  `ServingEndings` and `ServingSweeps` (the server), `PieceShapes`, `MergeOrder` and `Readings` (the tokenizer).
* Whole runs of the engine: `Steps`, `OpenedRounds`, `Retrying`, `Runs`, `Resident`, `Fairness`, `Finishing`, `Delivery`;
  of single calls in any order: `Interleavings`, `Conversations`.
* Whole runs of the server: `ServingBooks`, `ServingRuns`, `ServingHistories`, `ServingLiveness`, `ServingFairness`,
  `ServingResults`.
* Independent parts: `KvCaches`, `AttentionTiles`, `Utf8`, `TextDecoders`, `Utf8Units`, `ByteCodecs`, `Pretokenizing`,
  `PairMerging`, `Tokenizing`, `EncodingEnds`, `PromptCheckpoints` with `TokenizerObjects`, `Rounding`, `Doubles`,
  `Quantization` with `Bfloats`.

## What was found

* A failed step, or a batch that is aborted, leaves queues, tokens, counts, prefix cache and recurrent memory as they were,
  but not always the turn. The turn is kept if and only if it was not a prefill turn with an empty waiting queue and
  something running; in that case `schedule` had opened a decode round over everything running, and the round stays open
  (`OpenedRounds.FailedTurn`, `OpenedRounds.AbortedTurn`). One request, a prefill, a decode and a failing step show it
  (`OpenedRounds.FailureMovesTurn`). A batch number is also used up. Retrying selects the same items regardless
  (`Retrying.FailedStepComesBack`).
* The half-scale error bound of the 4-bit weights does not always hold. With all roundings of the source (binary64 for
  differences and quotients, binary32 and bfloat16 for what is stored) it holds for a group if and only if the stored scale
  keeps at least 30 parts in 31 of the exact step, and no difference from the minimum is rounded up, in binary64, onto an odd
  multiple of half the stored scale (`Bfloats.GroupDecodes`). Rounding the quotient does no harm. A step that is a normal number
  always meets the first condition, and weights whose exponents differ by at most 44 always meet the second
  (`Bfloats.SimilarDecodes`). Three groups fail: 63 zeros and one smallest weight get a scale of zero
  (`Bfloats.ZeroScaleFails`), 63 zeros and 22 times that weight a positive one that is too small (`Bfloats.SmallScaleFails`),
  and -1, 29 and -2^-100 have an exact scale, but the difference 1 - 2^-100 becomes 1 (`Bfloats.LiftedFails`).
* Encoding a prompt ends if and only if no added token is empty, or the text is tiled by non-empty added tokens from its first
  byte to its last (`EncodingEnds.EndsExactly`). Loading accepts an empty one (src/qwen/qwen_tokenizer.cc:397-413), and then
  one letter is a text on which the call never returns (`EncodingEnds.NeverEnds`). Whenever a call does return tokens,
  decoding them gives the text back (`Tokenizing.EndedDecodes`).
* Several differences of unsigned numbers are safe only by invariants that span classes: `required - existing` in the page
  allocator and the model state, `available -= blocks` in admission, the difference of prefix lengths in the decoder, and
  `--outstanding_`. Each is proved never to wrap.

## Model

| member | source | states |
|---|---|---|
| `Runs.RunsAnswerGreedily` | src/scheduler.cc:162-452 | Over every interleaving of admissions, steps, failures, retries, cancellations, removals of others, prefix hits and failed restores, an admitted request holds its prompt and a prefix of its one-request greedy generation, and exactly that generation, cut at EOS or the limit, when it finished by itself. |
| `Runs.WarmEqualsCold` | src/scheduler.cc:207-228 | Two engines with the same model, whatever their caches, loads and limits, give two copies of a request generations of which one is a prefix of the other, and the same one when both finished. |
| `Runs.RunKeeps` | src/inference_engine.cc:73-151 | The engine's invariant (queues, reservations, budgets, pages, checkpoints, tokens) holds in every reachable state. |
| `Runs.FreshRests` | src/scheduler.cc:42-84 | A new scheduler over a new state satisfies it. |
| `Runs.RunCarries` | src/seq.cc:138-303 | A request that is not removed keeps its identity, prompt and parameters through any run, its tokens only grow, and a finished one never changes. |
| `Runs.StepWorks` | src/scheduler.cc:338-429 | A completed batch strictly decreases the number of tokens that the live requests can still push through the model; a failed step leaves that number alone. |
| `Runs.DrainsWithAnswers` | src/scheduler.cc:237-429 | Without arrivals and with every pass succeeding, as many steps as there are tokens left suffice; then everything is finished and holds exactly its greedy answer. |
| `Resident.MemoryRefinesHistories` | src/model_batch.cc:172-193 | In every reachable state the slot `table[p / bs] * bs + p % bs` of a live request holds what a run over its own tokens computes for position p, its recurrent memory is that run's memory, committed equals processed and does not exceed reserved, and pages are partitioned. |
| `Steps.StepKeeps` | src/inference_engine.cc:73-151 | A step keeps the invariant; when it fails, no batch is in flight and nothing but page capacity, slots beyond the histories and the batch number changed, except that the turn is the one schedule had opened; abort and complete never fail. |
| `OpenedRounds.FailedTurn` | src/scheduler.cc:237-253 | A failed step keeps the turn if and only if it was not a prefill turn with nothing waiting and something running; otherwise the turn is a decode round over all that run. |
| `OpenedRounds.AbortedTurn` | src/scheduler.cc:431-452 | The same for schedule followed by abort. |
| `OpenedRounds.FailureMovesTurn` | src/scheduler.cc:249-250 | A concrete run: one request is admitted, prefilled, decoded until the round closes, and a failing step then leaves a decode round of one where a prefill turn was. |
| `Retrying.StepSucceeds` | src/qwen/qwen3_5_model_state.cc:284-335 | With anything live and positions within the model's limits, a step whose forward pass succeeds succeeds if and only if the slots and table entries of its own batch fit 32 bits: nothing else makes the builder or the state reject a batch that schedule produced. |
| `Retrying.StepTells` | src/inference_engine.cc:73-151 | A step that fails tells why: nothing is live, the batch does not fit 32 bits, the pass was cut short, or it returned a wrong number of samples; without such a cause it succeeds. |
| `Retrying.SmallNext` | src/model_batch.cc:153-187 | In a pool of at most 2^32 slots and fewer than 2^32 pages every batch fits. |
| `Retrying.AbortedBatchComesBack` | src/scheduler.cc:431-452 | Schedule, abort, schedule returns the same items in the same phase. |
| `Retrying.FailedStepComesBack` | src/inference_engine.cc:73-151 | After any failed step the next schedule returns the items that the failed one had returned. |
| `Delivery.StepDelivers` | src/scheduler.cc:376-428 | The updates of a successful step name each request that got a token exactly once, with that token and the stop reason it now has, and no other request changed its tokens. |
| `Fairness.BoundedService` | src/scheduler.cc:252-303 | A request at index p of the waiting queue that is not cancelled takes part in a prefill batch before (p + 1) * max_sequences batches have completed, whatever else happens. |
| `Fairness.AddJoinsBack` | src/scheduler.cc:228-235 | Admission changes the waiting queue at its end only, and neither turn nor running queue. |
| `Finishing.FinishesWithin` | src/scheduler.cc:237-429 | An admitted request that is not cancelled has finished by the time that (tokens left + 1) * (max_sequences^2 + max_sequences + 2) batches have completed, whatever is admitted, cancelled, failed and retried meanwhile. |
| `Finishing.DoRemaining` | src/scheduler.cc:162-510 | One measure of a live request: every completed batch lowers it, and no operation on other requests, failed step or retry raises it. |
| `Interleavings.CallsKeep` | src/scheduler.cc:162-510 | The scheduler's invariant survives its calls in any order and with any arguments, with or without a batch in flight, whatever the runner writes. |
| `Interleavings.NothingMovesInFlight` | src/scheduler.cc:162-510 | Until the batch in flight is itself completed or aborted, no sequence of calls changes queues, requests, turn, cache or page tables. |
| `Interleavings.EndsOnce` | src/scheduler.cc:237-452 | A scheduled batch is completed or aborted at most once: whatever is called before and after its end, its late result or a second abort is refused and changes nothing. |
| `Interleavings.InterruptedStep` | src/inference_engine.cc:73-118 | A step that succeeds, with admissions, cancellations, removals and schedules attempted between its calls, makes the same state as the step in one piece. |
| `Conversations.ConversationsAnswerGreedily` | src/inference_engine.cc:73-151 | With the calls of a step taken one by one and anything called in between (admissions, cancellations and removals of others, schedules, aborts before, during and after a pass, late and miscounted results), an admitted request holds its prompt and a prefix of its greedy generation at every moment, and exactly that generation when it finished by itself. |
| `Conversations.ActKeeps` | src/inference_engine.cc:73-151 | Each single call, successful, failed or refused, keeps what the engine knows about the batch in flight and carries every request that it does not remove. |
| `Conversations.ConversationsRest` | src/scheduler.cc:338-452 | Whenever no batch is in flight in such a conversation, the engine's invariant holds. |
| `Fairness.RoundCovers` | src/scheduler.cc:237-423 | From the step that opens a decode round on, over any run inside it, the members still to visit at its start are the ones decoded meanwhile followed by the ones still to visit, in order and up to cancelled ones; no prefill batch is scheduled. |
| `Fairness.ClosedRoundDecodedAll` | src/scheduler.cc:237-423 | When a round closes, also one that schedule itself opened, every member that was not cancelled has been decoded exactly once, in queue order. |
| `Fairness.RoundCancel` | src/scheduler.cc:468-478 | Cancelling during a round removes exactly that request from the members still to be visited. |
| `Selection.ScheduleKeeps` | src/scheduler.cc:237-319 | schedule keeps the invariant and fails only with a batch in flight, with nothing live, or when positions exceed the model; running out of pages is impossible. |
| `Choosing.ScheduleChoosesOnly` | src/scheduler.cc:237-319 | The batch takes the front of the queue of the turn, each member with its share: all it has left, the rest of max_batch_tokens, the chunk (only when prefills compete), or up to the first checkpoint inside that is long enough, fits the cache and is not stored. Otherwise some member of that front asks for positions beyond the model. |
| `Choosing.ChosenOnce` | src/scheduler.cc:259-303 | Those conditions leave one batch. |
| `Selection.RollBackKeeps` | src/scheduler.cc:548-562 | Rolling back reservations returns every counter to what it was. |
| `Completion.CompleteItemKeeps` | src/scheduler.cc:376-414 | Completing one item moves the invariant on to the remaining items of the batch and never fails. |
| `Completion.CompleteItemsKeeps` | src/scheduler.cc:376-414 | Completing a batch leaves both queues consistent: the items leave the front, survivors join the back. |
| `Protocol.CompleteKeeps` | src/scheduler.cc:338-429 | complete keeps the invariant and rejects exactly a missing batch, a foreign batch number and a wrong sample count. |
| `Storing.StepRecords` | src/scheduler.cc:376-429 | A successful step stores, item after item, exactly the worthwhile checkpoints: a prefill that ends on a checkpoint that is long enough, fits and is not stored puts an entry with just these tokens in front if the copy can be made, and every other item leaves the cache alone; a failed step leaves it alone too. |
| `Storing.CompleteRecords` | src/scheduler.cc:338-429 | The same for complete after a pass. |
| `Storing.ItemRecords` | src/scheduler.cc:524-546 | One item: the entry in front of what the byte limit leaves of the others, or, when the copy fails, that eviction alone. |
| `Protocol.AbortKeeps` | src/scheduler.cc:431-452 | abort keeps the invariant and undoes reservations and transaction. |
| `Protocol.BeginKeeps` | src/scheduler.cc:321-336 | begin_execution keeps the invariant whether or not the state accepts the batch. |
| `Lifecycle.PromisedIsTotal` | src/scheduler.cc:187-198 | The budgets subtracted from the pool during admission are those of exactly the page holders, so `available` never wraps. |
| `Lifecycle.TryAddKeeps` | src/scheduler.cc:162-235 | try_add keeps the invariant and ends as its tests say, in their order: deferred exactly without room, refused only by the backend, otherwise entered at the back with a small reservation. |
| `Budgeting.TryAddDecides` | src/scheduler.cc:153-198 | In plain arithmetic: a request is too large exactly when prompt + limit - 1 overflows or exceeds all slots of the pool; it is deferred exactly when max_sequences are live or the least page numbers of all live requests and its own exceed the pool together; otherwise only the backend decides. |
| `Budgeting.BudgetCovers` | src/scheduler.cc:13-23 | A budget is the least number of pages that holds prompt + limit - 1 tokens. |
| `Resuming.AdmissionResumes` | src/scheduler.cc:200-228 | An admission that is neither too large nor deferred starts at the first token when no proper prefix of its prompt is stored; otherwise right after the longest stored one if that can be restored, and at the first token if not and the backend creates the memory anew. |
| `Resuming.StoredServes` | src/scheduler.cc:207-228 | While a proper prefix of c tokens is stored and restores work, the admission resumes at c tokens or more. |
| `Resuming.AdmittedStarts` | src/scheduler.cc:200-235 | However a request is admitted, it starts inside its prompt with as many tokens cached as committed. |
| `Lifecycle.IdleNeverDefers` | src/scheduler.cc:182-198 | An idle scheduler never defers a request that fits at all. |
| `Lifecycle.CancelKeeps` | src/scheduler.cc:454-490 | cancel keeps the invariant, returns the pages, and shortens an open round by the member it removes. |
| `Lifecycle.RemoveKeeps` | src/scheduler.cc:492-510 | remove keeps the invariant and forgets finished requests only. |
| `Lifecycle.WithoutPrefix` | src/scheduler.cc:512-522 | Erasing an entry from a queue shortens a prefix exactly when the entry lies in it. |
| `Admission.AdmitWelcomes` | src/scheduler.cc:200-228 | However an admission ends, the other requests' memory stays; on success the newcomer's cached prefix is resident, from a restored checkpoint or from nothing. |
| `Admission.TryAddRests` | src/scheduler.cc:162-235 | Admission keeps the token invariant: hit, miss, failed restore and failed second reservation alike. |
| `Generation.CompleteItemsTell` | src/scheduler.cc:376-414 | Completing a batch with the greedy samples keeps every request on its greedy generation, and every stored checkpoint equal to what a dedicated run over its prefix would save. |
| `Engine.PassAnswers` | src/inference_engine.cc:99-112 | The pass over a built batch returns one sample per sampled item, each the greedy token after that request's history, in item order. |
| `Engine.AdvanceIsAhead` | src/model_batch.cc:60-118 | The built rows continue each request's committed history by exactly its scheduled tokens. |
| `Invariants.ReserveFitsBudget` | src/scheduler.cc:287-298 | A reservation within a request's own budget always succeeds. |
| `Sequences.MakeAcceptsExactly` | src/seq.cc:19-46 | make accepts exactly non-empty prompts, positive limits and distinct checkpoints strictly inside the prompt, and sorts them; given none, it takes the one before the last token. |
| `Sequences.WorkIsExclusive` | src/seq.cc:233-280 | Work is scheduled only while none is, no more of it than is left, and is then taken back or committed once; meanwhile nothing else is accepted. |
| `Sequences.TokensInTurn` | src/seq.cc:139-185 | A sequence starts to run exactly when its prompt is processed and takes a token exactly when it runs and has caught up; after that it has exactly one token to process. |
| `Sequences.ResumesOnce` | src/seq.cc:49-61 | Only an untouched sequence resumes after a prefix, strictly inside its prompt and once. |
| `Sequences.FinishedIsFinal` | src/seq.cc:187-207 | A sequence finishes once, with a reason and nothing scheduled, and refuses everything afterwards. |
| `Paging.ReserveKeepsPartition` | src/block_manager.cc:32-53 | After a reservation every page is still free or in one table, once. |
| `Paging.ReleaseKeepsPartition` | src/block_manager.cc:55-64 | So it is after a release. |
| `Paging.OldestFreeFirst` | src/block_manager.cc:32-64 | Pages are reused oldest first: what a release gives back is not taken while pages freed earlier suffice. |
| `Paging.ReserveWithinBudget` | src/block_manager.cc:32-53 | When budgets sum to at most the pool and everyone is within budget, a reservation within budget succeeds. |
| `Paging.SlotInjective` | src/model_batch.cc:186-189 | Two positions of one table never share a slot. |
| `Paging.SlotsApart` | src/model_batch.cc:186-189 | Positions of disjoint tables never share a slot. |
| `Paging.BlockManager.Reserve` | src/block_manager.cc:32-53 | The loop over the free list computes the reservation. |
| `Paging.BlockManager.Release` | src/block_manager.cc:55-64 | The loop that returns pages computes the release. |
| `PrefixCaching.FindAnswers` | src/prefix_cache.cc:17-33 | find returns the longest stored proper prefix, none exactly when there is none, and moves only that entry to the front. |
| `PrefixCaching.MakeRoomKeepsLongest` | src/prefix_cache.cc:50-60 | make_room keeps exactly the longest recency prefix that still fits with the new entry, and never pops an empty list. |
| `PrefixCaching.InsertKeepsBound` | src/prefix_cache.cc:62-73 | insert puts the entry in front, keeps the byte count equal to the sum of the entries and within capacity, and keys distinct; otherwise it changes nothing. |
| `PrefixCaching.PrefixCache.Find` | src/prefix_cache.cc:17-33 | The in-place search and splice compute find. |
| `PrefixCaching.PrefixCache.MakeRoom` | src/prefix_cache.cc:50-60 | The popping loop computes make_room. |
| `Residence.ReservationNeverWraps` | src/qwen/qwen3_5_model_state.cc:142-145 | A larger reservation never needs fewer pages than the table has. |
| `Residence.ReserveKeepsSound` | src/qwen/qwen3_5_model_state.cc:131-186 | reserve keeps page tables and sequence records in proportion. |
| `Residence.CheckpointFaithful` | src/qwen/qwen3_5_model_state.cc:233-252 | A checkpoint of a resident history is what a dedicated run over that history would save. |
| `Residence.RestoredLodges` | src/metal/metal_model_state.h:60-68 | Restoring a faithful checkpoint makes its history resident through the new table. |
| `Residence.RestoredElsewhere` | src/qwen/qwen3_5_model_state.cc:254-282 | A restore disturbs no other request. |
| `Execution.PassAdvances` | src/qwen/qwen_model_runner.cc:335-363 | A pass over a batch extends every listed history by its rows, leaves the others resident, and samples greedily. |
| `Execution.PassKeepsCells` | src/qwen/qwen_model_runner.cc:335-363 | A pass cut short after any number of rows overwrites no committed position of anyone. |
| `Transactions.TransactionCommits` | src/qwen/qwen3_5_model_state.cc:284-346 | Begin, run, commit: all histories advance and are resident. |
| `Transactions.TransactionAborts` | src/qwen/qwen3_5_model_state.cc:348-370 | Begin, run any part, abort: sequence records are those from before and all old histories are still resident. |
| `Transactions.BeginsExactly` | src/qwen/qwen3_5_model_state.cc:284-336 | A transaction begins exactly when none is open, the batch is acceptable, and every item is the only one of its sequence and goes on at its committed position, within its reservation, through its own pages, one row at a time in a decode. |
| `Transactions.FrozenWhileOpen` | src/qwen/qwen3_5_model_state.cc:131-285 | While a transaction is open, nothing is reserved, released, saved, restored or begun. |
| `Transactions.ClosedStaysClosed` | src/qwen/qwen3_5_model_state.cc:337-362 | Without one, commit and abort change nothing. |
| `Transactions.CheckpointsOfCommitted` | src/qwen/qwen3_5_model_state.cc:233-282 | A checkpoint is taken exactly of what is committed, and restored only where nothing is. |
| `ModelStates.ModelState.BeginBatch` | src/qwen/qwen3_5_model_state.cc:284-335 | The checking and snapshotting loops compute begin_batch. |
| `ModelStates.ModelState.Reserve` | src/qwen/qwen3_5_model_state.cc:131-186 | The method computes reserve on the object's fields. |
| `ModelStates.ModelState.AbortBatch` | src/qwen/qwen3_5_model_state.cc:348-370 | The loop over the snapshots computes abort_batch. |
| `Building.BuildSucceedsExactly` | src/model_batch.cc:34-125 | For a batch that schedule produced, building succeeds exactly when its positions fit 32 bits, and then each item carries its own request's tokens, positions, table and sample row. |
| `Building.BeginSucceeds` | src/qwen/qwen3_5_model_state.cc:284-335 | The state accepts a built batch if and only if its slots and table entries fit 32 bits. |
| `Building.BatchSlotsDistinct` | src/model_batch.cc:172-193 | All slots of a built batch are pairwise distinct and inside the pool. |
| `Building.BatchAcceptable` | src/model_batch.cc:127-204 | A built batch passes the tests of prepare_paged_batch if and only if its own slots and table entries fit 32 bits. |
| `AcceptedBatches.AcceptsExactly` | src/model_batch.cc:127-206 | prepare_paged_batch accepts exactly batches made for its page size whose items take all rows in order, at least one each, with pages in the pool, a sample among their own rows, and for every row a position that the model and the item's table have and a slot of 32 bits. |
| `AcceptedBatches.AcceptedSlot` | src/model_batch.cc:177-196 | Every row of an accepted batch has a slot inside the pool. |
| `AcceptedBatches.LogitRowsAre` | src/model_batch.cc:197-203 | The rows to sample are listed in item order, one for each item that samples. |
| `AcceptedBatches.BuildsExactly` | src/model_batch.cc:34-125 | build_model_batch succeeds exactly when there are items, no two for one sequence, each for just what its sequence has scheduled in this phase; the rows are then those tokens at their positions under the sequence's own table. |
| `Building.RowTable` | src/model_batch.cc:172-193 | Each row's slice of the flattened table is its own request's table. |
| `Batches.PreparePagedBatch` | src/model_batch.cc:127-204 | The nested loops accept exactly the consistent batches and produce the slots, offsets, lengths and tables. |
| `SchedulerObjects.Scheduler.Schedule` | src/scheduler.cc:237-319 | The method over queues and sequence objects computes schedule. |
| `SchedulerObjects.Scheduler.Complete` | src/scheduler.cc:338-429 | Likewise complete, with its loop over items. |
| `SchedulerObjects.Scheduler.Abort` | src/scheduler.cc:431-452 | Likewise abort. |
| `SchedulerObjects.Scheduler.TryAdd` | src/scheduler.cc:162-235 | Likewise try_add; the sequence object joins the scheduler exactly when it is admitted. |
| `SchedulerObjects.Scheduler.SubtractBudgets` | src/scheduler.cc:187-198 | The subtraction loop over a queue yields what is left, never below zero. |
| `SchedulerObjects.Scheduler.Cancel` | src/scheduler.cc:454-490 | Likewise cancel, with its two searches. |
| `SchedulerObjects.Scheduler.Remove` | src/scheduler.cc:492-510 | Likewise remove. |
| `EngineObjects.Build` | src/model_batch.cc:34-125 | The building loops over sequence objects compute the batch or the first fault. |
| `EngineObjects.RunRowsOf` | src/qwen/qwen_model_runner.cc:335-363 | The in-place row loop over the slot array computes the pass of one item. |
| `EngineObjects.InferenceEngine.Step` | src/inference_engine.cc:73-118 | The method computes the engine step and keeps its invariant. |
| `ServingResults.Conservation` | src/serving_runtime.cc:40-65 | In every reachable state outstanding_ is the number of accepted and unfinished requests, at most the limit and never negative, and every finished request was finished exactly once. |
| `ServingResults.AcceptsExactly` | src/serving_runtime.cc:51-64 | enqueue accepts exactly while the runtime is open and fewer requests than the limit are unfinished. |
| `Preparing.PrepareDecides` | src/serving_runtime.cc:106-184 | A submission that is not cancelled joins the back of the line, with exactly its encoded tokens and its limit, if and only if it encodes to n > 0 tokens, asks for m > 0 more, n < context limit, n + m <= context limit, n + m - 1 fits a size_t and the slots of the pool, its offsets are proper, and a decoder is made; otherwise it ends at once with the error of the first failing test. |
| `ServingEndings.WorkEnds` | src/serving_runtime.cc:60-392 | Each step of the worker ends exactly the unfinished requests that have cause to end, with the reason or the kind of error of that cause. |
| `ServingEndings.EndingsExplained` | src/serving_runtime.cc:60-392 | In every reachable state the prompt counts of every request are right, and each finished one was cancelled on demand, refused before its prompt was accepted, failed in execution, or answered after an admission; no other combination of reason, error and history occurs. |
| `ServingEndings.AdmissionCounts` | src/serving_runtime.cc:240-271 | The cached tokens that an admission reports are those with which the engine starts it, fewer than the prompt has. |
| `ServingSweeps.CancelledInTime` | src/serving_runtime.cc:186-271 | A request flagged when the worker begins a round is neither pending nor active when it admits and when it steps the engine, whatever other threads do meanwhile. |
| `ServingEndings.StopsOnDemand` | src/serving_runtime.cc:320-392 | The worker leaves its loop only when a stop was requested, or asleep when the runtime is stopping, and fails all requests only after a failed step or on its way out. |
| `ServingResults.SleepsOnlyWhenIdle` | src/serving_runtime.cc:365-381 | When the worker waits, nothing is pending or active, the engine is idle, and only new submissions are unfinished. |
| `ServingResults.ShutdownFinishesAll` | src/serving_runtime.cc:382-392 | When the worker has left, every accepted request is finished. |
| `ServingResults.OldestFirst` | src/serving_runtime.cc:240-270 | Whatever was admitted was accepted before everything that still waits. |
| `ServingResults.ServesReferenceAnswers` | src/serving_runtime.cc:273-318 | The output of a request that finished by itself is the whole decoded greedy generation for its prompt, with the right count and reason; all others failed or were cancelled. |
| `ServingResults.ServersAgree` | src/serving_runtime.cc:273-318 | Two servers give the same text to the same prepared question. |
| `ServingResults.OnlyTheRunnerFails` | src/serving_runtime.cc:320-335 | When prompts fit the model, no engine step fails requests unless the runner itself does. |
| `ServingRuns.ServeKeeps` | src/serving_runtime.cc:364-392 | The server's invariant survives every interleaving of enqueue, cancel, stop and worker steps: active requests are exactly the engine's, unfinished up to updates that are due, and show the text of what was generated. |
| `ServingHistories.RequestsGoOn` | src/serving_runtime.cc:87-318 | A request only moves forward: text only grows, prompt and parameters are set once, and a finished request never changes. |
| `ServingLiveness.WorkLess` | src/serving_runtime.cc:364-392 | Until the worker rests, each of its steps lowers a well-founded measure. |
| `ServingLiveness.EveryRequestFinishes` | src/serving_runtime.cc:364-392 | Left alone by other threads, the worker finishes every accepted request, whatever fails meanwhile. |
| `ServingFairness.EveryoneIsServed` | src/serving_runtime.cc:40-392 | As long as the worker keeps taking steps, every request that was ever accepted gets finished, whatever other threads submit, cancel and stop between any two of them, and whatever the runner, the decoder and the pages do. |
| `ServingFairness.WorkNearer` | src/serving_runtime.cc:364-392 | Each step of the worker lowers a well-founded measure of each unfinished request: requests ahead, submissions ahead, what the engine still owes it, steps to the next place that matters. |
| `ServingFairness.OthersFarther` | src/serving_runtime.cc:40-85 | No call of another thread raises that measure for anyone. |
| `ServingBooks.OutstandingCounts` | src/serving_runtime.cc:99-104 | The counter equals the size of the set of unfinished requests. |
| `ServingObjects.ServingRuntime.Work` | src/serving_runtime.cc:364-392 | One step of the worker object computes the step of the state machine. |
| `ServingObjects.ServingRuntime.Enqueue` | src/serving_runtime.cc:40-65 | The lock region of enqueue computes the accepted or refused state. |
| `ServingObjects.ServingRuntime.AppendUpdate` | src/serving_runtime.cc:273-318 | Passing on one update computes the new request, engine and active set. |
| `ServingObjects.ServingRuntime.AdmitFront` | src/serving_runtime.cc:240-270 | One iteration of the admission loop. |
| `KvCaches.OffsetOfPlace` | src/metal/metal_kv_cache.cc:150-179 | element_offset accepts exactly the places within bounds, stays below element_count, and the place can be read back. |
| `KvCaches.PlaceOfOffset` | src/metal/metal_kv_cache.cc:150-179 | Every offset below element_count is the offset of a place: with the row above, a bijection. |
| `KvCaches.RelocationMoves` | src/metal/metal_kv_cache.cc:14-35 | Checkpoint through one table and restore through a duplicate-free other one, possibly with other pages, puts every element of every token below n at its new place. |
| `KvCaches.RelocationSpares` | src/metal/metal_kv_cache.cc:14-35 | The restore changes no other element. |
| `KvCaches.RelocationScatters` | src/metal/metal_kv_cache.cc:14-35 | Seen as cells, each holding all layers of one token, the layered copies put the cell of every token below n at the slot that the other table names. |
| `KvCaches.RelocationKeepsCells` | src/metal/metal_kv_cache.cc:14-35 | The cells at all other slots keep their values. |
| `KvCaches.TokenIndexIsOffset` | src/metal/metal_kv_cache.cc:150-179 | The places used by those copies are the ones that element_offset names. |
| `KvCaches.TokenIndexIsSlot` | src/model_batch.cc:186-189 | They are also the ones that the batch's slot numbers name. |
| `KvCaches.CopyPrefix` | src/metal/metal_kv_cache.cc:14-35 | The nested loops over layers and pages compute the copy in place. |
| `KvCaches.KvCache.Checkpoint` | src/metal/metal_kv_cache.cc:225-238 | checkpoint accepts exactly usable prefixes whose size in bytes does not overflow, and packs keys and values. |
| `KvCaches.BytesOfBoth` | src/metal/metal_kv_cache.cc:205-212 | checkpoint_bytes is the size of both packed buffers, or 0 when there is nothing to save, the pool is too small, or the size does not fit a size_t. |
| `KvCaches.KvCache.Restore` | src/metal/metal_kv_cache.cc:240-255 | restore accepts exactly compatible checkpoints, and changes nothing otherwise. |
| `AttentionTiles.Prepare` | src/tensor/attention.cc:121-167 | The bounds scan accepts exactly rows whose table slice lies in the table and covers their position, and tables inside the pool; the tiles then cover the rows. |
| `AttentionTiles.MakeTiles` | src/tensor/attention.cc:140-167 | Tiles are runs of 1 to 8 rows that share a table and have consecutive positions, cover the rows in order, and cannot be longer. |
| `AttentionTiles.TileOfRow` | src/tensor/attention.cc:140-167 | Every row is in exactly one tile. |
| `AttentionTiles.TileWithinItem` | src/tensor/attention.cc:137-139 | On a batch that prepare_paged_batch accepts, no tile crosses two requests. |
| `AttentionTiles.AcceptableInBounds` | src/tensor/attention.cc:121-139 | The bounds scan passes on every row of a batch that prepare_paged_batch accepts. |
| `Utf8.AcceptsExactly` | src/model_runner.cc:7-46 | The lead, continuation, minimum and surrogate tests accept exactly the characters of RFC 3629 section 4. |
| `Utf8.ScanExactly` | src/model_runner.cc:7-46 | The result is k exactly when the first k bytes are well-formed and the rest is a proper beginning of one character. |
| `Utf8.ScanIsLongest` | src/model_runner.cc:7-46 | No longer prefix is well-formed. |
| `Utf8.RefusedForGood` | src/model_runner.cc:7-46 | Refused text cannot become well-formed by more bytes. |
| `Utf8.CompleteUtf8Prefix` | src/model_runner.cc:7-46 | The byte loop computes that scan. |
| `TextDecoders.PushesAgree` | src/qwen/qwen_model_runner.cc:20-45 | Decoders in step answer a push alike, delta or failure, and stay in step. |
| `TextDecoders.PushExactly` | src/qwen/qwen_model_runner.cc:27-41 | A push fails exactly on an unknown token, on bytes that no well-formed text begins with, and, at the end, on text that is not well-formed; otherwise it emits the longest well-formed prefix. |
| `TextDecoders.StreamsAgree` | src/model_runner.cc:48-77 | On every stream the incremental decoder and the one that decodes everything give the same deltas and the same failure. |
| `TextDecoders.StreamEmitsText` | src/qwen/qwen_model_runner.cc:20-45 | The concatenated deltas are the longest well-formed prefix of the decoded text, and all of it after a final push. |
| `TextDecoders.TextDecoder.Push` | src/qwen/qwen_model_runner.cc:27-41 | The decoder object computes the incremental push. |
| `TextDecoders.PrefixDecoder.Push` | src/model_runner.cc:55-66 | The reference decoder object computes the other one. |
| `Utf8Units.SplitExactly` | src/qwen/qwen_tokenizer.cc:45-93 | split_utf8 accepts exactly well-formed text. |
| `Utf8Units.SplitJoins` | src/qwen/qwen_tokenizer.cc:45-93 | Its units are non-empty and join back to the text. |
| `Utf8Units.SplitEncoded` | src/qwen/qwen_tokenizer.cc:23-93 | Splitting what encode_utf8 wrote returns the code point. |
| `ByteCodecs.CodesDiffer` | src/qwen/qwen_tokenizer.cc:263-291 | No two bytes get the same code point. |
| `ByteCodecs.CodecInverts` | src/qwen/qwen_tokenizer.cc:263-291 | The decoder table inverts the encoder table in both directions. |
| `ByteCodecs.MakeByteCodec` | src/qwen/qwen_tokenizer.cc:263-291 | The loops build both tables for all 256 bytes, and the decoder holds nothing else. |
| `Pretokenizing.PretokenizePartitions` | src/qwen/qwen_tokenizer.cc:178-249 | Pre-tokenising accepts exactly well-formed text and cuts it into non-empty pieces that join back to it. |
| `PieceShapes.CutsOneWay` | src/qwen/qwen_tokenizer.cc:95-249 | Well-formed text can be cut into pieces of the six shapes (contraction; letters after at most one other character; one digit; a newline with blanks; marks after a blank or before newlines; blanks), each the first possible in this order, in one way only, and pretokenize cuts it so. |
| `PieceShapes.PieceOnce` | src/qwen/qwen_tokenizer.cc:178-249 | Where a piece starts fixes where it ends. |
| `PieceShapes.KindsAre` | src/qwen/qwen_tokenizer.cc:95-148 | The character tests divide all code points into letters, digits, newlines, other blanks and marks, by explicit ranges. |
| `Pretokenizing.PretokenizeText` | src/qwen/qwen_tokenizer.cc:178-249 | The loop over classes and runs computes the pieces. |
| `PairMerging.MergeAllKeepsText` | src/qwen/qwen_tokenizer.cc:512-542 | Merging by rank never changes the bytes that the symbols stand for. |
| `MergeOrder.PieceEncodes` | src/qwen/qwen_tokenizer.cc:505-552 | A piece is encoded as the ids of the symbols in which a run of merges over its bytes' characters ends, and refused exactly when one has none. A run joins, pass after pass and from left to right, every occurrence of the least-ranked adjacent pair, the leftmost of equals, until no adjacent pair has a rank. |
| `MergeOrder.MergingOnce` | src/qwen/qwen_tokenizer.cc:512-542 | From the same symbols there is only one such run. |
| `PairMerging.MergeKeyInjective` | src/qwen/qwen_tokenizer.cc:252-260 | The joined key of a pair determines the pair when the first part holds no zero byte. |
| `PairMerging.LoadedKeys` | src/qwen/qwen_tokenizer.cc:430-480 | In the table that loading fills, looking two symbols without zero bytes up by their joined key finds what the merge list says about the pair, whatever else the list holds. |
| `PairMerging.RankedFirst` | src/qwen/qwen_tokenizer.cc:433-443 | What the list says: a pair has a rank exactly when it is listed, and it is the index of its first listing. |
| `PairMerging.LoadMerges` | src/qwen/qwen_tokenizer.cc:433-480 | The loop that adds merges fills that table. |
| `PairMerging.Merge` | src/qwen/qwen_tokenizer.cc:512-542 | The search-and-merge loop, looking pairs up by joined key, computes the merge by listed pairs. |
| `Tokenizing.NextAddedIs` | src/qwen/qwen_tokenizer.cc:590-598 | The next added token is the earliest occurrence, and at one place the first listed. |
| `EncodingEnds.EndsExactly` | src/qwen/qwen_tokenizer.cc:566-618 | With the added tokens listed longest first, the loop over a text ends if and only if none of them is empty or the whole text is tiled by non-empty ones. |
| `EncodingEnds.NeverEnds` | src/qwen/qwen_tokenizer.cc:589-614 | With an empty added token alone, the loop over one letter does not end. |
| `Tokenizing.EndedDecodes` | src/qwen/qwen_tokenizer.cc:566-662 | Whenever the loop ends with tokens, empty added tokens or not, decoding them gives the text back. |
| `Tokenizing.EncodeDecodes` | src/qwen/qwen_tokenizer.cc:557-662 | For a well-formed vocabulary without empty added tokens, decoding an encoded text gives the text back. |
| `Tokenizing.DecodeConcat` | src/qwen/qwen_tokenizer.cc:632-662 | Decoding a concatenation gives the concatenation of the texts, or the first failure of either part. |
| `Tokenizing.SkipLeavesOut` | src/qwen/qwen_tokenizer.cc:632-662 | For ids with strings, decoding with special tokens skipped is decoding the list without them. |
| `Tokenizing.SpecialStandsForItself` | src/qwen/qwen_tokenizer.cc:636-648 | Without skipping, a special token contributes its own string anywhere in a list; an id without a string fails the call either way. |
| `PromptCheckpoints.CheckpointsSound` | src/qwen/qwen_tokenizer.cc:566-618 | Recorded checkpoints are strictly increasing, strictly inside the prompt, and each is the encoding of the text up to one of the given offsets. |
| `Readings.CheckpointsComplete` | src/qwen/qwen_tokenizer.cc:566-618 | encode_prompt succeeds exactly on text that can be read as ordinary text between the earliest added tokens; its tokens are those of the reading, and its checkpoints, in increasing order, are exactly the numbers of tokens before the added tokens at requested offsets, none of them zero. |
| `PromptCheckpoints.SequenceAccepts` | src/seq.cc:32-46 | Hence a sequence accepts them. |
| `PromptCheckpoints.DecodeIsStreamed` | src/qwen/qwen_model_runner.cc:47-56 | The decoders' view of the vocabulary is the tokenizer's decode. |
| `TokenizerObjects.Tokenizer.EncodeWithCheckpoints` | src/qwen/qwen_tokenizer.cc:566-618 | The loop, with the piece cache in between, computes the encoding. |
| `TokenizerObjects.Tokenizer.EncodeText` | src/qwen/qwen_tokenizer.cc:557-564 | encode without checkpoints. |
| `TokenizerObjects.Tokenizer.Piece` | src/qwen/qwen_tokenizer.cc:498-554 | The piece cache is transparent. |
| `TokenizerObjects.Tokenizer.DecodeTokens` | src/qwen/qwen_tokenizer.cc:632-662 | The decoding loop computes decode. |
| `Quantization.GroupBound` | src/tensor/matrix.cc:81-104 | For every arithmetic that compares with midpoints as the exact one does up to lifting a difference onto one: reading a group back gives every weight within half the stored scale if and only if 30 times the exact step is at most 31 times the stored scale and no difference is lifted, clamping and a zero scale included. |
| `Quantization.GroupNearly` | src/tensor/matrix.cc:81-104 | A stored scale within one part in 31 of the step suffices when no difference is lifted. |
| `Quantization.HalfScaleBound` | src/tensor/matrix.cc:96-103 | One weight decodes within half a scale exactly up to 15.5 scales above the offset and when its difference is not lifted onto a midpoint. |
| `Bfloats.GroupDecodes` | src/tensor/matrix.cc:81-104 | For 64 finite bfloat16 weights and all roundings of the source: the same equivalence, in terms of the rounded step and the rounded differences alone; a step of at least the least normal number always keeps 30 parts in 31. |
| `Bfloats.SimilarDecodes` | src/tensor/matrix.cc:81-104 | Weights that are zero or have exponents within 44 of each other: the bound holds if and only if the stored scale keeps 30 parts in 31 of the step, and always for a normal step. |
| `Bfloats.SourceSharp` | src/tensor/matrix.cc:96-103 | Against a bfloat16 scale, the rounded difference passes no midpoint that the difference does not reach, and rounding the quotient to binary64 moves it over no half. |
| `Bfloats.ZeroScaleFails` | src/tensor/matrix.cc:87-101 | 63 zeros and the smallest weight: the stored scale is zero and the bound fails. |
| `Bfloats.SmallScaleFails` | src/tensor/matrix.cc:87-101 | 63 zeros and 22 times the smallest weight: the stored scale is positive and the bound fails. |
| `Bfloats.LiftedFails` | src/tensor/matrix.cc:96-103 | -1, 29 and 62 weights of -2^-100: the stored scale is the exact step and the bound fails. |
| `Bfloats.Bf16Fixes` | src/tensor/types.h:60-88 | Rounding a finite bfloat16 value returns it, so the stored offset is the exact minimum. |
| `Bfloats.NormalStep` | src/tensor/types.h:60-76 | A normal number loses at most one part in 100 by rounding to binary32 and then to bfloat16. |
| `Bfloats.Quantize` | src/tensor/matrix.cc:44-111 | On bit patterns: the loops refuse exactly a layout without whole groups and any infinity or NaN, and otherwise every group is encoded with the source's roundings. |
| `Doubles.NearestDouble` | src/tensor/matrix.cc:87-103 | The binary64 rounding used here takes the nearest double, the one with even digits of two (IEEE 754-2019, section 4.3.1). |
| `Doubles.StaysBelow` | src/tensor/matrix.cc:96-103 | The rounded quotient of a rounded difference by a number of eight digits reaches c + 1/2 only if the rounded difference reaches c + 1/2 times that number. |
| `Quantization.ZeroScale` | src/tensor/matrix.cc:98-99 | With a zero scale every weight of the group decodes to the offset. |
| `Quantization.PlaceNibble` | src/tensor/matrix.cc:95-104 | OR-ing a code into an empty nibble puts it there and leaves the other nibbles alone. |
| `Quantization.QuantizeGroup` | src/tensor/matrix.cc:81-108 | For any roundings of stored numbers, differences and quotients, the loops over words and nibbles store the rounded minimum, the rounded step and the code of each weight at its nibble. |
| `Quantization.Quantize` | src/tensor/matrix.cc:44-111 | For any such roundings, the loop over groups refuses exactly a layout without whole groups and any infinity or NaN, and otherwise encodes every group. |
| `Rounding.RoundsTiesToEven` | src/tensor/types.h:60-76 | On everything but NaN, from_float keeps the sign and takes the nearest magnitude, the even one of two (IEEE 754-2019, section 4.3.1). |
| `Rounding.KeepsNaN` | src/tensor/types.h:65-69 | A NaN stays a NaN of the same sign. |
| `Rounding.ToFloatRoundTrip` | src/tensor/types.h:78-88 | Values survive the trip through binary32. |
| `Rounding.RelativeError` | src/tensor/types.h:71-76 | For normal numbers the error is at most one part in 256. |

## Left out

- `std::bad_alloc` while a container grows, and the texts of error messages.
- Other model states behind the virtual interface, and states that report a block size of zero; the hybrid state is modelled.
- The split of keys, values and recurrent memory over layers in the scheduler's model: a cell stands for all layers of one token. `KvCaches` models the layers on its own.
- Resident.MemoryRefinesHistories: a batch's rows are computed item by item, because the bodies of the kernels are not part of this model; the parallel order of the device does not appear.
- Bfloats.GroupDecodes: reading back, offset plus code times scale, is exact; the kernels that read weights back are not part of this model. Doubles has no largest number, which no operand comes near.
- Runs.DrainsWithAnswers: asks for a pool of at most 2^32 slots and fewer than 2^32 pages at the start, where Retrying.StepSucceeds asks that each batch fits; ServingResults.OnlyTheRunnerFails likewise.
- Rounding.RoundsTiesToEven: masks and shifts are written as remainders and quotients of natural numbers.
- Tokenizing.EncodeDecodes: assumes the vocabulary tables that loading builds (token strings and ids inverse, non-special added tokens made of bytes that the codec keeps); loading itself is not modelled. EncodingEnds.EndsExactly assumes the list sorted longest first, as loading sorts it.
- Delivery.StepDelivers: find_sequence and the other getters of the engine are not modelled.
- ServingRuns.ServeKeeps: each lock region is one step, and the worker's private containers change together with the lock region that follows; memory ordering and spurious wake-ups are not modelled. Request numbers are assumed fresh, as the atomic counter makes them.
- ServingLiveness.EveryRequestFinishes: stated for a worker that no other thread interrupts any more; ServingFairness.EveryoneIsServed is the statement with interruptions, and only it needs the worker to be scheduled for ever.
- The chat template and the encoding of a submission's messages as a whole: what they yield is an input of the server's model.
- Sleeping of clients in submit, the creation time of a request, and the exception path of the worker thread.
- The Metal device and its kernels, tensor operations, HTTP and SSE, JSON and safetensors loading, command line, metrics.
