# Verified model of the Chitu serving engine

Chitu serves language-model requests from a paged or a dense KV cache. These Dafny modules model the
bookkeeping behind that: which requests run in which pass, which cache memory they own, which tokens
they receive, and when. The neural network is not modelled: `LanguageModel.Lm` is any pair of functions,
one that computes the KV entry of a token from the entries in front of it, and one that picks the next
token from all entries of a request. Every theorem holds for all such functions, all request contents,
all orders the scorer may produce, and all enumeration orders of the sets the source iterates over.

Verify with `dafny verify dfyconfig.toml`.

## How it is built

- **Serving loop of one rank.** `CacheSpec`, `TaskSpec` and `Serving` state as functions what the
  allocator, a task, and one pass of the loop do. `ServingInvariant` shows what every pass keeps,
  `ServingTheorems` what follows for whole runs: every request gets exactly what the naive one-request
  loop (`LanguageModel.Generate`) produces, under any schedule and any sequence of evictions, and every
  pass makes progress. `ServingChoice` says which batch is chosen, who is evicted and when scheduling
  raises, in terms of the scorer's order and the cache manager's own allocation; `Ranking` has the notion
  of a beginning of a ranking that it and the other schedulers share.
- **The objects.** `PagedCache`, `ModelStep`, `Tasks`, `Engine` and `MainLoop` are the classes and
  methods that update their fields in place: free queue, block table, device table, lengths, block
  memory, task objects, pool, threshold and result queue. Each method is proved to act like its
  counterpart in the specification, up to `MainLoop.RunMainRank`, one pass of the loop.
  `PagedMemory` and `PagedRefinement` connect the block memory, which is written and read only through
  page ids and offsets, to the map from request to entries that the specification speaks of.
- **Overlapped scheduling.** `Overlap` (state machine and what every run keeps), `OverlapProgress` (with
  enough cache every request is served, exactly as in the synchronous loop), `OverlapSchedule` (its
  scheduler, and when its count suffices) and `OverlapLoop` (objects) do the same for the mode in which a
  result is synchronised one step late. `Weights` holds the sums that the progress arguments use.
- **Skew cache.** `SkewSpec` (slots and compaction), `SkewRuns` (scheduler lists and slots together),
  `SkewCache` and `SkewScheduler` (the objects). The two data structures never talk to each other, and no
  step looks at both; the theorem is that row i of a group's slice is nevertheless the row of member i.
- **Batch indices.** `Ragged` (prefix sums and searches against a direct enumeration) and `BatchedLens`
  (the caching classes).
- **Smaller parts.** `DeviceLists` (LRU rows that lists alias), `DpRounds` and `DpScheduler` (owners
  and budgets), `Wire` (batch tensors and ids), `Stream` (producer thread and event loop), `Relayout` (nibbles and
  tiles).

The scope of the serving loop is one rank: no pipeline, tensor or data parallelism, one token per step,
no warm-up, no chunked prefill (see below for where chunks are modelled), task id equal to request id.

## What the proofs found

- **A request gets at least two tokens** unless it meets a stop token first, when its prefill is not cut
  into parts: the source stops at `max(2, max_new_tokens)` (`LanguageModel.Cap`), because the status after
  the prefill step can only announce the stop. A request for one token receives two.
- **Prefill in parts stops requests early.** With chunked prefill the status of a task whose prefill is not
  finished is updated too if another task of its batch has an output (and only then: a batch without outputs
  returns early). That announces or carries out a stop although no token has been produced, as soon as at
  most one of `max_new_tokens` is to go. A new request with `max_new_tokens <= 1` gets a single token after
  one such batch, and none after two. A request of any size that was evicted one token before its end is
  prefilled again, and one such batch stops it one token short. A request stopped like that never has its
  stream closed, since that only happens with a token, and as it is still of the prefill kind its blocks are
  never released. `TaskSpec.PartialPrefillOutcome`, `PartialPrefillOfRequest` and `PartialPrefillNaive` state
  exactly when that happens, `StoppedBeforeFirstToken` and `StoppedAfterEviction` give inputs,
  `ServingInvariant.StoppedPrefillLeaks` the leak.
- **With overlapped scheduling the scheduler counts short.** A task that has not decoded since its prefill is
  counted without the token it is about to take. So a batch can pass the scheduler's check and then find
  no block in the executor, where nothing is evicted any more. `OverlapSchedule.DecodeStepExact` says exactly
  when that happens, and `OverlapSchedule.CountedShort` is a run with two requests that would each fit alone.
  It cannot happen when all requests fit together (`OverlapSchedule.LoopGoesOn`).
- **Skew removals need a group that decodes throughout.** If a finished member leaves a group of which
  only a part has slots, list and slots no longer agree, unless it was the last one with a slot:
  `SkewRuns.LeaveExact` is the exact condition, and `SkewRuns.LeaveMisaligns` a run with chunked prefill
  that fails it. Without chunked prefill it is met in every reachable state (`SkewRuns.UnchunkedDecodes`).
- **DP budgets.** With a chunk size below the number of ranks, only rank 0 ever gets a prefill budget
  (`DpRounds.BudgetPositive`), so requests owned by other ranks wait as long as that holds.
- **Reallocation of the block pool** leaves the block tables alone, so it conserves blocks if and only
  if no request holds one (`CacheSpec.ReallocConserves`).
- **`batch_append` on a list without a row** bumps its length but writes the item to row 0
  (`DeviceLists.StaticDeviceListManager.BatchAppend`). A removed list keeps aliasing its old row.
- **An id whose number is zero** ends the list of ids for the receiver, and one with a minus sign changes
  its kind (`Wire.IdRoundTrip`); `Wire.WireRoundTrip` says what arrives for any ids, `Wire.GoodIdsArrive`
  that positive ones all arrive.
- **`delta_max_len` of an empty batch** is one by the classic-decoding shortcut, where the general
  computation is an error (`Ragged.ClassicLongest`).

## Model

| member | source | states |
|---|---|---|
| `ServingTheorems.DeliveredIsNaive` | chitu/chitu_main.py:632-659 | in every state of every run, whatever the scorer, batching and evictions: the tokens a request has received are a beginning of what the naive one-request loop generates for it, and its stream is closed only with all of it and the naive finish reason |
| `ServingTheorems.ScheduleIndependence` | chitu/scheduler.py:180-422 | two tasks with equal requests, in reachable states of any two runs, with different batch limits too: one stream is a prefix of the other, and two closed streams are equal with equal finish reasons |
| `ServingTheorems.TaskIsNaive` | chitu/task.py:462-548 | a task's prefix is prompt plus naive tokens, and finish reason, delivery and closing follow the naive completion |
| `ServingTheorems.RunInv` | chitu/chitu_main.py:632-659 | pool, task states, block tables, cached lengths, cached entries, queued results and threshold agree in every state of every run of arrivals and passes |
| `ServingTheorems.InitInv` | chitu/scheduler.py:163-164 | the state after start-up is in agreement |
| `ServingTheorems.ArriveKeeps` | chitu/task.py:781-786 | adding a request keeps the agreement; an id already in the pool is refused |
| `ServingTheorems.PassKeeps` | chitu/chitu_main.py:632-659 | one pass of the loop keeps the agreement |
| `ServingTheorems.PassTotal` | chitu/chitu_main.py:632-659 | every pass has a next state or raises one of the two capacity errors in scheduling; the executor never runs out of blocks half-way |
| `ServingTheorems.PassAdvances` | chitu/scheduler.py:229-239 | with a non-empty pool a pass strictly decreases the sum over live tasks of max(2, max_new_tokens) minus generated tokens, evictions included; requests and cache size stay |
| `ServingTheorems.Completion` | chitu/chitu_main.py:632-659 | after more passes than tokens still to be produced the pool and the result queue are empty and every request has received exactly its naive completion with its finish reason |
| `ServingTheorems.NeverRaises` | chitu/scheduler.py:304-381 | if every live request would fit into the cache alone, no order of the tasks makes scheduling raise |
| `ServingTheorems.NeverStuck` | chitu/chitu_main.py:632-659 | if every live request fits alone, each pass has a next state of the same kind, so the loop can go on forever |
| `ServingTheorems.LengthBound` | chitu/task.py:207-214 | between passes a request that passed the checks at construction caches fewer than max_seq_len entries, has a live prefix of at most max_seq_len tokens, and has generated at most max(2, max_new_tokens), evictions included |
| `ServingTheorems.StepLengthBound` | chitu/executor.py:812-926 | inside a pass each scheduled request caches its whole prefix, at most max_seq_len entries, also when it is prefilled again after an eviction |
| `ServingTheorems.RequestClamped` | chitu/task.py:199-214 | only prompts that reach max_seq_len are refused; otherwise the request is unchanged, except that it gets the largest number of new tokens, up to what it asks for, with which prompt and new tokens exceed max_seq_len by at most one: one that fits keeps what it asks for |
| `LanguageModel.GenerateShape` | chitu/task.py:462-483 | the reference completion is the greedy continuation, cut exactly at the first stop token or, failing one, at max(2, max_new_tokens) tokens; Stop and Length reasons say which |
| `LanguageModel.NaiveIs` | chitu/task.py:462-483 | the reference completion spelled out: every token is the next one after all entries of the prompt and the tokens before it, it ends at the first stop token if the request asks for that and otherwise at max(2, max_new_tokens), and the reason says which |
| `LanguageModel.EntryAt` | chitu/executor.py:959-1036 | the entry of every token is computed from exactly the entries in front of it |
| `LanguageModel.ExtendConcat` | chitu/executor.py:959-1036 | feeding a prefix in two slices leaves the same entries as feeding it at once |
| `ServingInvariant.ScheduleAdmits` | chitu/scheduler.py:180-266 | whatever schedule returns can be allocated; its tasks are untouched, every other task is untouched or evicted; and with a non-empty pool the batch is not empty |
| `ServingInvariant.DecodeNeedIsAllocation` | chitu/scheduler.py:349-363 | for decode tasks the blocks counted by the scheduler are exactly those the cache manager will take |
| `ServingInvariant.PrefillNeedIsAllocation` | chitu/scheduler.py:287-304 | a beginning of the prefill list is counted if and only if what the cache manager will allocate for it fits under the threshold together with the blocks in use |
| `ServingInvariant.EvictLoopKeeps` | chitu/scheduler.py:330-381 | the eviction loop keeps a non-empty highest-priority prefix that fits; only the tasks behind it lost their caches, and the agreement holds |
| `ServingInvariant.EvictKeeps` | chitu/scheduler.py:383-422 | an evicted task keeps its generated tokens in its prefix and its queued token in the queue, its blocks are free again, nobody else changes |
| `ServingInvariant.UsedMeansDecoding` | chitu/scheduler.py:304-312 | blocks in use belong to a live decode task |
| `ServingInvariant.PrefillOutcome` | chitu/scheduler.py:304-314 | when no prefill task is taken and nothing is raised, some task is decoding |
| `ServingInvariant.LocalStep` | chitu/executor.py:812-926 | run, delivery of the queued token and sampling move a scheduled task exactly one token along the naive loop and leave exactly that token queued |
| `ServingInvariant.ComputeKeeps` | chitu/executor.py:812-926 | a step on an admitted batch never fails and leaves every task in agreement, each scheduled one just run |
| `ServingInvariant.ComputeProgress` | chitu/executor.py:812-926 | each scheduled task has one more token and decodes; no other task has moved |
| `ServingInvariant.UpdateKeeps` | chitu/scheduler.py:466-512 | dropping the stopped tasks and releasing their caches restores the agreement for any enumeration order of the batch |
| `ServingInvariant.UpdateEffect` | chitu/scheduler.py:466-512 | exactly the stopped tasks of the batch leave the pool and the cache, and the threshold goes back to the number of blocks if there is one |
| `ServingInvariant.StoppedPrefillLeaks` | chitu/scheduler.py:481-492 | a task stopped while it is being prefilled leaves the pool with its blocks still in the table |
| `ServingChoice.BatchIsChosen` | chitu/scheduler.py:180-266 | what schedule returns, for any order of the ready tasks: a beginning of that order among the tasks of one kind, at most prefill_num_tasks of them if they prefill and at most decode_num_tasks if they decode. A prefill batch fits under the threshold, evicts nobody, and is below its limit only if nobody is left or the next one does not fit. A decode batch comes only if the highest-ranked task decodes or does not fit, keeps as many decode tasks as fit, and is below its limit only if it has all that are kept |
| `ServingChoice.RaisesExactly` | chitu/scheduler.py:304-372 | scheduling raises the prefill error if and only if the highest-ranked task is to be prefilled and does not fit into an empty cache with an untouched threshold, and the decode error if and only if the decode tasks are looked at and not even the first of them fits after evicting all others |
| `ServingChoice.EvictionIsMinimal` | chitu/scheduler.py:340-422 | the eviction loop keeps the largest number of highest-priority decode tasks whose need is covered by the free blocks and those that everybody behind them gives back; it raises if and only if that number is zero for a non-empty list; and after n evictions the threshold is the old one divided by 2 to the n, at least one |
| `ServingChoice.OfKindAll` | chitu/scheduler.py:274-281 | filtering by kind keeps exactly the tasks of that kind, in their order |
| `ServingChoice.ReadyAndStopped` | chitu/scheduler.py:187-194 | the ready tasks are those not stopped, the removed ones the stopped, both in their order |
| `ServingChoice.PoolKeepsOrder` | chitu/task.py:798-808 | the pool keeps its order when tasks leave |
| `ServingChoice.PoolInArrivalOrder` | chitu/task.py:781-808 | in every state of every run the pool lists exactly the live requests in the order of their arrival, evictions included |
| `TaskSpec.ChunksConcatenate` | chitu/task.py:597-677 | for any chunk sizes the slices fed concatenate to exactly the consumed part of the prefix, and the task turns to decoding exactly when all of it has been fed |
| `TaskSpec.ConsumeFacts` | chitu/task.py:627-677 | one prefill step feeds exactly the tokens it counts as consumed |
| `TaskSpec.AdvanceKeeps` | chitu/task.py:462-548 | a task that receives the greedy successor of its prefix stays on the naive loop: status, finish reason and counters fit the new token |
| `TaskSpec.AddDataKeeps` | chitu/task.py:218-242 | delivering the one missing token makes the delivered tokens equal the generated ones, and closes the stream exactly when the request is finished |
| `TaskSpec.EvictedKeeps` | chitu/scheduler.py:383-419 | restoring an unfinished task for prefill keeps it on the naive loop: it waits to be fed its whole prefix again, and status, counters, delivered tokens and request are as before |
| `TaskSpec.PartialPrefillStatus` | chitu/task.py:1298-1326 | partial chunks of any task that waits for its prefill, new or evicted, change status and finish reason only, and only in batches with an output task: what they are after any sequence of parts |
| `TaskSpec.PartialPrefillOutcome` | chitu/task.py:1298-1326 | in the middle of a prefill in parts a task, new or evicted, has kept its status exactly when it has been in no batch with an output or has at least two tokens to go; it has been stopped, with nothing generated and its stream as it was, exactly when the stop had been announced (or its last token is a stop token) and there was one such batch, or at most one token is to go and there were two |
| `TaskSpec.PartialPrefillOfRequest` | chitu/task.py:1298-1326 | the same in terms of the request: a new one is stopped exactly when max_new_tokens <= 1 after two batches with an output, an evicted one exactly when it lacks at most one of max_new_tokens after one; then its tokens are not its naive completion and its stream is open |
| `TaskSpec.PartialPrefillNaive` | chitu/task.py:462-548 | a prefill in parts leaves a task on the naive loop if and only if it was in no batch with an output, or more than one token is to go, or the next token is a stop token |
| `TaskSpec.StoppedAfterEviction` | chitu/scheduler.py:383-419 | an input that shows it for evicted tasks: a request for two tokens, evicted after the first, is stopped by one mixed batch |
| `TaskSpec.PartOfBatch` | chitu/task.py:1298-1326 | what one step of a batch does to a task whose prefill it does not complete, depending on whether the batch has an output task |
| `TaskSpec.PartialPrefillCompletes` | chitu/task.py:462-483 | the token that completes a prefill in parts is the last one exactly when it is a stop token, the stop had been announced before, or it was announced in between |
| `TaskSpec.StoppedBeforeFirstToken` | chitu/task.py:1298-1326 | an input that shows it: two mixed batches stop a request of max_new_tokens = 1 before its first token |
| `TaskSpec.AloneIsLeftAlone` | chitu/task.py:1298-1300 | the same request prefilled in parts on its own is not touched |
| `CacheSpec.PrepareKeeps` | chitu/cache_manager.py:544-599 | preparing a batch succeeds exactly when the free list covers the total need; then blocks stay conserved and every request owns exactly ceil(length / block size) blocks, with only the batch having grown |
| `CacheSpec.AllocAllCount` | chitu/cache_manager.py:544-599 | allocation raises exactly when the free list is shorter than the need, takes exactly that many blocks otherwise, and loses none |
| `CacheSpec.AllocAllRows` | chitu/cache_manager.py:544-599 | no table row outside the batch changes, old blocks keep their place, each batch row gets exactly the blocks for its length |
| `CacheSpec.FinalizeKeeps` | chitu/cache_manager.py:628-644 | releasing a request returns all its blocks and only its row and length disappear |
| `CacheSpec.FinalizeAllKeeps` | chitu/chitu_main.py:617-628 | the same for a list of requests |
| `CacheSpec.TakeConserves` | chitu/cache_manager.py:591-599 | moving blocks from the free list into a table keeps the permutation of 0..num_blocks-1 |
| `CacheSpec.CellsInjective` | chitu/cache_manager.py:544-599 | no block is in two table cells or both held and free, and all are in range |
| `CacheSpec.CountBlocks` | chitu/cache_manager.py:484-492 | free blocks plus those of one request never exceed the total, and are exactly the total if nobody else holds one |
| `CacheSpec.ReallocConserves` | chitu/cache_manager.py:451-465 | reallocation keeps every block accounted for if and only if no request holds a block |
| `PagedRefinement.PagedStepRefines` | chitu/cache_manager.py:544-599 | allocation plus a model run over the paged memory acts on the map from request to entries exactly like extending each request of the batch on its own and leaving all others alone |
| `PagedRefinement.SlotsInjective` | chitu/cache_manager.py:494-517 | (request, position) to (page, offset) is injective over all live requests |
| `PagedRefinement.LivePosition` | chitu/cache_manager.py:520-537 | a live position lies inside its own table row, so the zero padding is never used for it, and its page and offset exist |
| `PagedRefinement.RunScheduled` | chitu/cache_manager.py:606-626 | the flat run extends each batch request by its own tokens |
| `PagedRefinement.RunOther` | chitu/cache_manager.py:606-626 | the flat run changes no entry of another request |
| `PagedRefinement.FinalizeDenotes` | chitu/cache_manager.py:628-644 | releasing requests leaves what all others denote |
| `PagedRefinement.TableRowAt` | chitu/cache_manager.py:520-533 | a row of the device table is the block table of its request, with zeros behind it |
| `PagedMemory.WriteOneRow` | chitu/cache_manager.py:494-517 | writing the new cells of one request extends what its row denotes token by token and touches no other slot |
| `PagedMemory.RunFromSpec` | chitu/cache_manager.py:494-517 | writing a whole flat batch extends each row by its own tokens and changes no slot outside the new cells |
| `PagedCache.PagedKVCacheManager.constructor` | chitu/cache_manager.py:358-429 | an empty cache: all blocks free, in order |
| `PagedCache.PagedKVCacheManager.NumAdditionalBlocksReqNeed` | chitu/cache_manager.py:558-576 | blocks missing for a target length, by the request's current table |
| `PagedCache.PagedKVCacheManager.GetFreeBlock` | chitu/cache_manager.py:591-599 | takes the oldest free block; raises exactly when there is none |
| `PagedCache.PagedKVCacheManager.Allocate` | chitu/cache_manager.py:544-599 | allocates for the batch in order, raising exactly when the specification does |
| `PagedCache.PagedKVCacheManager.UpdGpuBlockTable` | chitu/cache_manager.py:520-537 | the device table is the zero-padded block table of the batch, as wide as its longest row or, for graphs, as the fixed width; cached page ids and offsets are marked stale |
| `PagedCache.PagedKVCacheManager.PrepareCachePrefill` | chitu/cache_manager.py:544-556 | lengths, blocks, device table and length objects are those of the specified preparation, for any slice lengths |
| `PagedCache.PagedKVCacheManager.PrepareCacheDecode` | chitu/cache_manager.py:578-589 | the same with one token per request |
| `PagedCache.PagedKVCacheManager.FreeReqCacheBlocks` | chitu/cache_manager.py:628-634 | the blocks return to the free queue in table order |
| `PagedCache.PagedKVCacheManager.FinalizeCacheAllDecode` | chitu/cache_manager.py:636-644 | table row, length and blocks of the request go; an unknown request is ignored |
| `PagedCache.PagedKVCacheManager.GetPageIds` | chitu/cache_manager.py:494-500 | the cached page ids are those of a fresh lookup after any history |
| `PagedCache.PagedKVCacheManager.GetOffsInPage` | chitu/cache_manager.py:510-515 | the cached offsets are those of a fresh computation after any history |
| `ModelStep.Forward` | chitu/cache_manager.py:606-626 | a run that only uses page ids, offsets and the device table changes the memory exactly as the flat cell-by-cell specification |
| `ModelStep.Sample` | chitu/executor.py:1335-1389 | each output is the next token of that row's own entries |
| `ModelStep.FlatRun` | chitu/cache_manager.py:520-556 | the cells of a prepared batch are those of the abstract model run |
| `ModelStep.RunPrepared` | chitu/executor.py:1182-1252 | after a prepared run the memory denotes the old map with each batch request extended, and every sampled token comes from its own request |
| `Tasks.Task.constructor` | chitu/task.py:362-448 | a new task waits for its prefill with the prompt as prefix |
| `Tasks.Task.NextReqTokens` | chitu/task.py:627-631 | the slice of the prefix for the next prefill step |
| `Tasks.Task.ConsumeReqTokens` | chitu/task.py:633-677 | advances by that slice and turns to decoding at the end of the prefix |
| `Tasks.Task.UpdateDecodeStatus` | chitu/task.py:462-483 | status and finish reason from the last token and the counters |
| `Tasks.Task.UpdateResponseNoSync` | chitu/task.py:485-523 | takes a token that is not in the prefix yet |
| `Tasks.Task.UpdatePrefix` | chitu/task.py:525-548 | moves the token taken into the prefix, once |
| `Tasks.Task.AddData` | chitu/task.py:218-242 | delivers a token; the stop signal goes out with the last token of a finished request |
| `Tasks.Task.RestoreForPrefill` | chitu/scheduler.py:416-419 | an evicted task starts its prefill again with prompt and generated tokens |
| `Tasks.AfterModelRun` | chitu/executor.py:878-889 | prefill tasks consume, decode tasks mark their token as not synchronised; every object of the batch once |
| `Tasks.EmitBatch` | chitu/hooks.py:53-83 | each task receives the token at its own index |
| `Tasks.UpdateTasksByResult` | chitu/task.py:1298-1319 | each task takes its own token, then prefix and status follow; no other object changes |
| `Tasks.BatchUpdateStatus` | chitu/task.py:1321-1326 | prefix and status of every task of the batch |
| `Engine.Rank.constructor` | chitu/scheduler.py:84-162 | empty pool, all blocks free, threshold at the number of blocks |
| `Engine.Rank.Add` | chitu/task.py:781-786 | appends to the pool in arrival order, refuses an id in use |
| `Engine.Rank.SchedulePrefillTasks` | chitu/scheduler.py:268-314 | result or capacity error as specified, state unchanged |
| `Engine.Rank.CountFitting` | chitu/scheduler.py:287-302 | how many prefill tasks fit under the threshold |
| `Engine.Rank.HasEnoughBlock` | chitu/scheduler.py:349-363 | whether the free blocks cover one more token for each live task of the list |
| `Engine.Rank.EvictDecodeTask` | chitu/scheduler.py:383-422 | task reset, cache released, threshold halved but at least one; memory of all others kept |
| `Engine.Rank.ScheduleDecodeTasks` | chitu/scheduler.py:330-381 | evicts from the low end until the rest fits; outcome and state as specified |
| `Engine.Rank.EvictUntilFits` | chitu/scheduler.py:365-381 | the loop itself; terminates and raises exactly when one task is left that does not fit |
| `Engine.Rank.Schedule` | chitu/scheduler.py:180-266 | batch or error, and the whole new state, for any order of the ready tasks |
| `Engine.Rank.PostprocessAsync` | chitu/executor.py:1455-1491 | delivers the oldest queued result to the task objects it was made for |
| `MainLoop.RunMainRank` | chitu/chitu_main.py:632-659 | one imperative pass over the objects: raises exactly when scheduling does, and then a capacity error; otherwise it makes a pass of the state machine and leads back into the invariant |
| `MainLoop.ScheduleBatch` | chitu/chitu_main.py:633-640 | a batch that can be allocated, or a capacity error |
| `MainLoop.Step` | chitu/executor.py:812-926 | on an admitted batch the objects end in exactly the state of the specified step |
| `MainLoop.GatherPrefill` | chitu/executor.py:959-1000 | the flat input and the slice lengths of a prefill batch |
| `MainLoop.GatherDecode` | chitu/executor.py:726-731 | the last token of each task, in batch order |
| `MainLoop.PrepareFor` | chitu/cache_manager.py:544-589 | an admitted batch never runs out of blocks when it is prepared |
| `MainLoop.RunBatch` | chitu/executor.py:959-1036 | cache, memory and sampled tokens after prefill or decode of a batch |
| `MainLoop.Launch` | chitu/executor.py:857-904 | the same on the engine's own objects |
| `MainLoop.Bookkeep` | chitu/executor.py:878-889 | token and kind bookkeeping of exactly the batch |
| `MainLoop.TakeTokens` | chitu/task.py:1298-1319 | every task of the batch takes the token its own entries yield |
| `MainLoop.QueueResult` | chitu/task.py:1277-1296 | the new tokens of the batch are queued, each under its own request |
| `MainLoop.DropStopped` | chitu/scheduler.py:466-512 | stopped tasks leave the pool; returned are those that hold a cache; threshold lifted exactly then |
| `MainLoop.RemoveTask` | chitu/task.py:798-808 | one id leaves the pool, the order of the others stays |
| `MainLoop.ReleaseAll` | chitu/chitu_main.py:617-628 | caches of the removed tasks are released, all other contents stay |
| `MainLoop.UpdateAndRelease` | chitu/chitu_main.py:655-659 | the whole state after update and release, for any enumeration order of the batch |
| `MainLoop.EmptyStep` | chitu/executor.py:928-930 | a pass without a batch only delivers what is queued |
| `Overlap.OverlapRefinesSync` | chitu/executor.py:839-855 | as far as two runs have got: a request served with overlapped scheduling and the same request served synchronously have comparable streams, and two closed ones are equal with equal finish reasons |
| `OverlapProgress.OverlapEqualsSync` | chitu/executor.py:839-926 | let the overlapped loop run, from a state in which everything fits, until no pass is possible, and the synchronous one long enough: the same request is closed in both, with the same stream and finish reason |
| `OverlapProgress.Completion` | chitu/executor.py:839-926 | passes without arrivals are at most as many as there are steps left; if everything fitted and no pass is possible any more, every request has received exactly its naive completion |
| `OverlapProgress.PassAdvances` | chitu/executor.py:812-926 | every overlapped pass strictly decreases the prefills and tokens that are left, sums over the pool |
| `OverlapProgress.StepMoves` | chitu/executor.py:839-926 | every task of the batch comes strictly closer to its end, no other task moves |
| `OverlapProgress.PassPossible` | chitu/executor.py:839-926 | if all requests of the pool fit into the cache together, every batch of ready tasks can be run, and the pass leads back into such a state |
| `OverlapProgress.BatchFits` | chitu/cache_manager.py:544-599 | then the free blocks cover what any batch will take |
| `OverlapProgress.SomeBatch` | chitu/scheduler.py:180-200 | with a non-empty pool there is a batch |
| `OverlapSchedule.ScheduleBatches` | chitu/scheduler.py:180-381 | if all requests fit into the cache together, the scheduler of the overlapped mode neither evicts nor raises for any order of the tasks, and returns a batch of the loop as long as the pool is not empty: the highest-ranked tasks of the kind of the first one, as many as the limit of that kind allows |
| `OverlapSchedule.NoEviction` | chitu/scheduler.py:349-363 | then the free blocks cover what the decode tasks that will run are counted to need |
| `OverlapSchedule.AllPrefills` | chitu/scheduler.py:287-302 | and all prefill tasks fit under the threshold |
| `OverlapSchedule.LoopGoesOn` | chitu/chitu_main.py:632-659 | the overlapped loop under its own scheduler: each pass with a non-empty pool is possible, makes progress, and leads back into such a state |
| `OverlapSchedule.TakenInOrder` | chitu/scheduler.py:180-266 | in any state, whenever the scheduler of the overlapped mode returns without evicting or raising: a beginning of the scorer's order of one kind, within the limit of that kind; below the limit a prefill batch only if nobody is left or the next one does not fit, a decode batch only if nobody is left; decode tasks come only if the highest-ranked task decodes or does not fit |
| `OverlapSchedule.DecodeStepExact` | chitu/scheduler.py:349-363 | in the overlapped mode a decode batch can be run if and only if the free blocks cover the count of the scheduler and one block more for every task that has not decoded since its prefill and whose entries fill its blocks |
| `OverlapSchedule.CountedShort` | chitu/scheduler.py:349-363 | a run that shows that the scheduler's count is not enough: two requests that would each fit alone are prefilled, the scheduler hands out both, and the executor has no block for them |
| `Overlap.TaskIsNaive` | chitu/executor.py:839-926 | with overlap a request has received a beginning of its naive completion, and its stream is closed exactly when it has left the pool, with the whole completion |
| `Overlap.RunInv` | chitu/executor.py:812-926 | in every state of a run no batch result is queued between steps and every task is in agreement |
| `Overlap.OnePending` | chitu/executor.py:912-924 | between steps a task that is not stopped has a waiting result exactly when it decodes, and it is the greedy successor of its prefix |
| `Overlap.StepWhenEnough` | chitu/executor.py:839-926 | a step is possible exactly when the free blocks cover the tasks that will run; the waiting results are never misaligned with the batch |
| `Overlap.StepKeeps` | chitu/executor.py:812-926 | a prefill or decode step keeps the agreement |
| `Overlap.UpdateKeeps` | chitu/scheduler.py:466-512 | the update after an overlapped step keeps the agreement |
| `Overlap.CollectAligned` | chitu/executor.py:845-852 | if every task has one result, the collected tensor is aligned with the batch |
| `Overlap.CollectShort` | chitu/executor.py:845-852 | a tensor of full length means that every task had a result |
| `Overlap.RunningAll` | chitu/task.py:459-460 | the tasks of a batch that will run are those whose stop has not been announced, in their order |
| `Overlap.SyncEach` | chitu/executor.py:1413-1453 | after synchronisation each task has taken its own result, and exactly that is queued |
| `Overlap.SyncTrack` | chitu/task.py:462-548 | synchronising the waiting token is one step of the naive loop |
| `OverlapLoop.ModelRuns` | chitu/task.py:459-460 | the tasks that will run are chosen before the results are looked at |
| `OverlapLoop.CollectResults` | chitu/executor.py:845-852 | concatenates the waiting results in batch order |
| `OverlapLoop.SyncPart` | chitu/executor.py:1413-1453 | the objects after synchronisation are in exactly the specified state |
| `OverlapLoop.LeaveResults` | chitu/executor.py:916-924 | each new result is left with its own task, the others stay |
| `OverlapLoop.RunPart` | chitu/executor.py:857-924 | run, bookkeeping, delivery and new results as specified |
| `OverlapLoop.Step` | chitu/executor.py:812-926 | an overlapped step of the objects is one of the state machine |
| `OverlapLoop.Pass` | chitu/chitu_main.py:632-659 | a pass on any batch for which the cache suffices is one of the state machine and keeps its invariant |
| `Ragged.RaggedEnumeration` | chitu/batched_seq_len.py:390-498 | the searched sequence ids and positions list exactly the new cells, for any old and new lengths, zeros included |
| `Ragged.CellsContents` | chitu/batched_seq_len.py:445-498 | those cells are all pairs (i, p) with old[i] <= p < new[i], each once, in lexicographic order |
| `Ragged.FlatIds` | chitu/batched_seq_len.py:203-244 | ids and positions of flat index j name the cell that starts j entries into the batch |
| `Ragged.SearchIsRow` | chitu/batched_seq_len.py:232-244 | binary search in the prefix sums finds the row |
| `Ragged.ClassicShortcuts` | chitu/batched_seq_len.py:390-498 | in classic decoding the shortcuts equal the general values |
| `Ragged.ClassicLongest` | chitu/batched_seq_len.py:404-408 | the shortcut for the longest gain is right if and only if the batch is not empty |
| `Ragged.ClassicCells` | chitu/batched_seq_len.py:345-371 | a step is classic if and only if nobody starts empty and everybody gains exactly one cell |
| `BatchedLens.BatchedSeqLen.constructor` | chitu/batched_seq_len.py:47-91 | nothing is marked as up to date |
| `BatchedLens.BatchedSeqLen.CopyFromList` | chitu/batched_seq_len.py:115-132 | new lengths; everything derived is marked stale |
| `BatchedLens.BatchedSeqLen.CopyFrom` | chitu/batched_seq_len.py:134-170 | copies lengths and what the other object has computed; nothing stale is marked as up to date, also when it is copied from itself |
| `BatchedLens.BatchedSeqLen.GetPrefixList` | chitu/batched_seq_len.py:181-186 | always the fresh prefix sums |
| `BatchedLens.BatchedSeqLen.GetPrefixTensor` | chitu/cuda_graph.py:247-273 | the cached property equals its recomputation, caching enabled or not |
| `BatchedLens.BatchedSeqLen.GetSeqTensor` | chitu/batched_seq_len.py:232-244 | always the fresh sequence ids |
| `BatchedLens.BatchedSeqLen.GetPositionTensor` | chitu/batched_seq_len.py:203-229 | always the fresh positions |
| `BatchedLens.BatchedSeqLen.GetMaxLen` | chitu/batched_seq_len.py:250-252 | always the fresh maximum, an error for an empty batch |
| `BatchedLens.BatchedSeqLenDelta.CopyFromList` | chitu/batched_seq_len.py:362-371 | old, new and gained lengths and the shortcut flag fit each other; cached positions are stale |
| `BatchedLens.BatchedSeqLenDelta.CopyFrom` | chitu/batched_seq_len.py:373-388 | the same when copied from two other objects |
| `BatchedLens.BatchedSeqLenDelta.GetDeltaTotalLen` | chitu/batched_seq_len.py:396-401 | the total gain, by shortcut or not |
| `BatchedLens.BatchedSeqLenDelta.GetDeltaMaxLen` | chitu/batched_seq_len.py:403-408 | the longest gain; one for an empty batch |
| `BatchedLens.BatchedSeqLenDelta.GetDeltaPrefixList` | chitu/batched_seq_len.py:424-429 | prefix sums of the gains, by shortcut or not |
| `BatchedLens.BatchedSeqLenDelta.GetDeltaSeqIds` | chitu/batched_seq_len.py:493-498 | sequence ids of the new cells, by shortcut or not |
| `BatchedLens.BatchedSeqLenDelta.GetDeltaPositions` | chitu/batched_seq_len.py:439-491 | positions of the new cells, by shortcut, cached or fresh |
| `SkewRuns.RunInv` | chitu/scheduler.py:543-670 | in every state of every run, where steps are guarded by task kinds and lists only: the members of each group that have slots are its first ones and occupy the front of the group's range in list order, and no request is in two groups or slots |
| `SkewRuns.RowsAligned` | chitu/cache_manager.py:871-878 | row i of the slice given to the model is the row of member i |
| `SkewRuns.FillKeeps` | chitu/scheduler.py:579-635 | filling a group keeps the agreement |
| `SkewRuns.FillJoins` | chitu/scheduler.py:579-635 | who joins a group: distinct waiting prefill tasks, the highest-ranked ones of its kind in the scorer's order, as many as its size allows, and none behind a group that decodes |
| `SkewRuns.ExtendedJoins` | chitu/scheduler.py:579-625 | who joins any list: the highest-ranked waiting tasks of the kind of its last member, an empty list taking the kind of the highest-ranked one, in the scorer's order; somebody of that kind stays out only if the list is full |
| `SkewRuns.AllocateGroup` | chitu/cache_manager.py:838-862 | slots of a batch that is partly slotted: the new members are packed behind the old ones |
| `SkewRuns.PrefilledIs` | chitu/cache_manager.py:838-862 | a prefill step never runs out of slots, and its slice starts at its first member |
| `SkewRuns.PrefillNew` | chitu/cache_manager.py:838-878 | every member of a prefill batch has its own new row |
| `SkewRuns.PrefillOther` | chitu/cache_manager.py:838-878 | every other request keeps its row in a prefill |
| `SkewRuns.PrefillKeeps` | chitu/cache_manager.py:838-878 | a prefill step keeps the agreement of all groups |
| `SkewRuns.DecodeKeeps` | chitu/cache_manager.py:864-878 | a decode step writes row i to member i, keeps everybody else's row and the agreement |
| `SkewRuns.LeaveKeeps` | chitu/cache_manager.py:889-945 | one removal in a group that decodes: swap-with-last in the list and compaction of the slots agree, exactly its row is lost |
| `SkewRuns.LeavePlaces` | chitu/scheduler.py:660-671 | the last member of its group takes the place of the one that leaves; everybody else keeps their place |
| `SkewRuns.LeaveAllKeeps` | chitu/scheduler.py:661-670 | a batch of removals, first all in the lists and then all in the cache, in the same order: alignment holds and exactly those rows are gone |
| `SkewRuns.UnchunkedDecodes` | chitu/scheduler.py:579-635 | without chunked prefill, in every state in agreement: where one member decodes, all members of its group decode and have slots |
| `SkewRuns.LeaversDecode` | chitu/scheduler.py:661-670 | whoever may leave, by kinds alone, is in a group all of whose members have slots and decode |
| `SkewRuns.FeedIsBatch` | chitu/scheduler.py:648-658 | the prefill stretch found by kinds starts where the decoding members end |
| `SkewRuns.DecodesAligned` | chitu/cache_manager.py:864-878 | a group whose last member decodes has all its members slotted and decoding |
| `SkewRuns.FeedSteps` | chitu/cache_manager.py:838-862 | every prefill step the scheduler makes is possible and keeps the agreement |
| `SkewRuns.DecodeSteps` | chitu/cache_manager.py:864-870 | every decode step fits into the buffer and keeps the agreement |
| `SkewRuns.LeaveExact` | chitu/cache_manager.py:889-945 | in a list of which only the first c members have slots, removing one of those keeps the alignment if and only if all members have slots or it was the last slotted one |
| `SkewRuns.LeaveMisaligns` | chitu/cache_manager.py:889-945 | a run with chunked prefill to a group of three of which two have slots: when the first leaves, no beginning of the list describes the slots |
| `SkewSpec.FreeKeeps` | chitu/cache_manager.py:889-945 | freeing a request removes exactly its contents, every other request keeps its row whether it is moved or not, free slots are zero |
| `SkewSpec.FreePacked` | chitu/cache_manager.py:889-945 | compaction of the slots is removal-with-last of the list of occupants, and no slot outside the range changes |
| `SkewSpec.FreeInKeeps` | chitu/cache_manager.py:889-945 | the same with the range end looked up in the slot handle |
| `SkewSpec.RangesApart` | chitu/global_vars.py:363-380 | group ranges are disjoint and the end found for a slot is that of its own group |
| `SkewSpec.RunEndIsLast` | chitu/cache_manager.py:910-921 | on a packed buffer the forward search of the branch without slot handle finds the last occupied slot |
| `SkewSpec.AllocateSkips` | chitu/cache_manager.py:838-855 | requests that have a slot are passed over |
| `SkewSpec.AllocatePacks` | chitu/cache_manager.py:838-855 | new requests are packed behind the old ones in order; no other slot changes |
| `SkewSpec.AllocateDistinct` | chitu/cache_manager.py:838-855 | no request gets a second slot and no occupant changes |
| `SkewCache.SplitSlots` | chitu/global_vars.py:376-380 | shares add up to the total, are positive and descending, and differ by at most one |
| `SkewCache.SlotHandle.constructor` | chitu/global_vars.py:363-374 | starts and ends are the partial sums of the shares |
| `SkewCache.SlotHandle.EndBehind` | chitu/cache_manager.py:896-904 | the first range end behind a slot is the end of its own group |
| `SkewCache.DenseKVCacheManager.constructor` | chitu/cache_manager.py:754-796 | all slots free and zero, maps inverse |
| `SkewCache.DenseKVCacheManager.TakeSlot` | chitu/cache_manager.py:845-855 | the first free slot from a place on, and nothing if there is none |
| `SkewCache.DenseKVCacheManager.PrepareCachePrefill` | chitu/cache_manager.py:838-862 | slots as specified; fails exactly when a slot is missing or the slice leaves the buffer; the slot of the first request starts the slice |
| `SkewCache.DenseKVCacheManager.PrepareCacheDecode` | chitu/cache_manager.py:864-878 | the slice starts at the front of the range |
| `SkewCache.DenseKVCacheManager.Vacate` | chitu/cache_manager.py:923-943 | the last occupied row moves into the hole, req2slot and hot_reqs stay inverse |
| `SkewCache.DenseKVCacheManager.FinalizeCacheAllDecode` | chitu/cache_manager.py:889-945 | contents and occupants as specified, with and without slot handle; an unknown request is ignored |
| `SkewCache.DenseKVCacheManager.LastBusy` | chitu/cache_manager.py:905-909 | the backward search finds the last occupied slot of a range |
| `SkewCache.DenseKVCacheManager.RunEndBusy` | chitu/cache_manager.py:911-921 | the forward search finds the end of the first occupied run |
| `SkewCache.UnhandledIsFree` | chitu/cache_manager.py:889-945 | without slot handle, on a packed buffer, releasing is releasing in one range |
| `SkewCache.UnhandledPacked` | chitu/cache_manager.py:889-945 | and the occupied slots stay a prefix, all other contents kept |
| `SkewScheduling.FindPrefillTaskStartPos` | chitu/scheduler.py:648-658 | binary search finds the first member that does not decode |
| `SkewScheduling.ChunkPrefillTasksCount` | chitu/scheduler.py:316-328 | all counted tasks but the last get all their remaining tokens, the total stays within the chunk size, and it is used up if a task is left out |
| `SkewScheduling.SkewScheduler.constructor` | chitu/scheduler.py:520-541 | all groups empty and free |
| `SkewScheduling.SkewScheduler.Schedule` | chitu/scheduler.py:543-646 | takes the group that has been free longest, fills it with the highest-ranked waiting tasks of its kind up to its size, keeps the agreement, and returns a stretch of the group as the batch: all of it, or from its first member that is not decoding, with chunks within the chunk size that are all that remains, except possibly the last one when the chunk size is used up |
| `SkewScheduling.BatchSteps` | chitu/scheduler.py:618-646 | whatever batch is scheduled, the state machine makes its prefill or decode step, for any rows the model writes, and stays in agreement |
| `SkewScheduling.CompletingFirst` | chitu/task.py:633-677 | the tasks of a batch that complete their prefill are its first ones, exactly those whose chunk is all that remains |
| `SkewScheduling.SkewScheduler.ReorderTasksForBatching` | chitu/scheduler.py:661-670 | finished tasks are swapped out of their groups one after the other |
| `SkewScheduling.SkewScheduler.ReleaseGroups` | chitu/scheduler.py:499-504 | exactly the groups without waiting tasks come free |
| `SkewScheduling.FinishTasks` | chitu/scheduler.py:466-512 | removal in the scheduler's lists, then in the cache's slots, of the objects themselves: aligned before, aligned afterwards, and no other request loses its row |
| `DeviceLists.PushedStay` | chitu/task.py:1151-1168 | pushing up to max_num_rows distinct lists leaves all of them in the buffer, whatever was there |
| `DeviceLists.DeviceList.constructor` | chitu/device_list.py:16-19 | denotes its initial items |
| `DeviceLists.DeviceList.Append` | chitu/device_list.py:24-36 | appends one item; fails exactly when full storage may not be replaced |
| `DeviceLists.StaticDeviceListManager.RowsPartition` | chitu/device_list.py:46-60 | every row of 1..max_num_rows is either free or owned by a managed list |
| `DeviceLists.StaticDeviceListManager.constructor` | chitu/device_list.py:46-60 | all rows free; row 0 kept back |
| `DeviceLists.StaticDeviceListManager.EvictList` | chitu/device_list.py:86-100 | the list keeps its contents in storage of its own, its row is handed back |
| `DeviceLists.StaticDeviceListManager.TakeRow` | chitu/device_list.py:102-112 | a free row or that of the list pushed longest ago, nobody's contents change |
| `DeviceLists.StaticDeviceListManager.PushList` | chitu/device_list.py:62-76 | the list moves to the recent end of the queue, all lists keep their contents; fails exactly for a list longer than a row |
| `DeviceLists.StaticDeviceListManager.PushAll` | chitu/task.py:1151-1152 | a whole batch is resident afterwards, no list in use has changed |
| `DeviceLists.StaticDeviceListManager.RemoveList` | chitu/device_list.py:78-84 | the row is free again, all remaining lists keep their contents |
| `DeviceLists.StaticDeviceListManager.AppendTo` | chitu/device_list.py:24-36 | appending to one list changes no other, managed or not; fails exactly when a managed row is full |
| `DeviceLists.StaticDeviceListManager.BatchAppend` | chitu/device_list.py:119-133 | every managed list gains its own item; all others are untouched; what happens to lists without a row and with full rows |
| `DpScheduling.DPFifoScheduler.Schedule` | chitu/scheduler.py:687-895 | pool, cursor, lists and kind afterwards are those of the specified round, with all its promises |
| `DpRounds.RunInv` | chitu/scheduler.py:741-820 | in every state of every run of arrivals and rounds, each followed by its step and update, each rank owns at most max_num_tasks_per_dp unfinished requests |
| `DpRounds.RunRounds` | chitu/scheduler.py:687-895 | every round of every run keeps the promises of a round |
| `DpRounds.RoundKeeps` | chitu/scheduler.py:687-895 | a round: capacity kept, owners only added, requests listed with their owners only and each once, no list longer than the capacity. In a prefill round the list of a rank holds its candidates by start time, all of them, or with chunks the first of those with tokens remaining, each with all that remains except possibly the last, within the rank's budget; if that is not used up, nobody is left out or gets less. In a decode round it holds exactly its ready decode tasks in the order of the pool. Candidates are the first capacity times ranks; one is passed over only when all ranks are full, or with chunks when nothing remains or the budget is used up; and new owners are taken in turns |
| `DpRounds.AssignKeeps` | chitu/scheduler.py:766-782 | the assignment of all candidates: the list of a rank holds exactly the candidates it owns, in their order, and somebody has no owner only because all ranks are full |
| `DpRounds.NextRankFails` | chitu/scheduler.py:757-764 | the round-robin search fails exactly when no rank has a free slot |
| `DpRounds.NextRankFirst` | chitu/scheduler.py:757-764 | the search ends at the first rank with a free slot from the cursor on and leaves the cursor one behind it |
| `DpRounds.TurnsKeep` | chitu/scheduler.py:757-782 | over all candidates: whoever gets an owner gets the first rank with a free slot behind the one given out before, and the cursor ends one behind the last one given out |
| `DpRounds.DifferentRanks` | chitu/scheduler.py:757-782 | two requests that get an owner one after the other go to different ranks, unless all other ranks are full by then |
| `DpRounds.CutListIs` | chitu/scheduler.py:790-815 | one rank's list cut to its budget: the first of its tasks with tokens remaining, in list order, each with a chunk of all that remains except possibly the last, within the budget; while budget is left, nobody is left out or gets less |
| `DpRounds.CutFromKeeps` | chitu/scheduler.py:784-815 | all lists cut: the chunks of the ranks stay within the sum of their budgets |
| `DpRounds.TruncatedSame` | chitu/scheduler.py:817-820 | the final truncation changes nothing |
| `DpRounds.DecodeRound` | chitu/scheduler.py:827-846 | the decode lists hold every ready decode task, with its owner, in the order of the pool, within the capacity |
| `DpRounds.SteppedKeeps` | chitu/scheduler.py:741-755 | the step on the listed tasks and the removal of finished ones keep bounds and owners |
| `DpRounds.FedOnce` | chitu/task.py:633-677 | one event of a run: the tokens that remain of a request fall by exactly what it is fed, and a request that is fed turns to decoding if and only if nothing remains |
| `DpRounds.FedIsConsumed` | chitu/task.py:633-677 | over any stretch of a run the tokens a request is fed are exactly those that no longer remain |
| `DpRounds.OwnerStays` | chitu/scheduler.py:766-782 | as long as a request is in the pool its owner never changes |
| `DpRounds.ScheduledOnOwner` | chitu/scheduler.py:766-782 | a request that has an owner is handed to no other rank in any later round of the run |
| `DpRounds.NothingDropped` | chitu/scheduler.py:817-820 | the final truncation drops nothing |
| `DpRounds.BudgetsAddUp` | chitu/scheduler.py:784-795 | the budgets of all ranks add up to exactly the chunk size |
| `DpRounds.BudgetPositive` | chitu/scheduler.py:784-795 | a rank has a budget if and only if it is the first or the chunk size reaches the number of ranks |
| `DpRounds.BudgetShares` | chitu/scheduler.py:784-795 | all ranks but the first get the same budget, and the first gets fewer than dp_size tokens more |
| `DpScheduling.DPFifoScheduler.constructor` | chitu/scheduler.py:674-685 | an empty pool |
| `DpScheduling.DPFifoScheduler.CountOccupied` | chitu/scheduler.py:743-755 | the unfinished requests each rank owns |
| `DpScheduling.DPFifoScheduler.NextRankWithFreeSlot` | chitu/scheduler.py:757-764 | rank and cursor of the specified search; it fails exactly when all ranks are full |
| `DpScheduling.DPFifoScheduler.AssignOne` | chitu/scheduler.py:766-782 | one candidate, assigned in place as specified |
| `DpScheduling.DPFifoScheduler.AssignOwners` | chitu/scheduler.py:766-782 | all candidates, assigned in place as specified |
| `DpScheduling.DPFifoScheduler.ChunkRank` | chitu/scheduler.py:790-815 | chunks and list of one rank are those of the specified cut |
| `DpScheduling.DPFifoScheduler.CutToBudgets` | chitu/scheduler.py:784-815 | chunks and lists of all ranks as specified |
| `DpScheduling.DPFifoScheduler.TruncateAll` | chitu/scheduler.py:817-820 | every list cut to the capacity |
| `DpScheduling.DPFifoScheduler.DecodeLists` | chitu/scheduler.py:827-846 | the decode lists as specified |
| `DpRounds.ArriveKeeps` | chitu/scheduler.py:741-755 | a new request, owned by nobody, keeps the bounds |
| `Wire.WireRoundTrip` | chitu/task.py:876-994 | deserializing a serialized batch of up to the configured number of tasks gives back payload kind, slot index, and for all tasks before the first zero id, in order, the spelled ids, with token lengths and output flags or run flags unless an id has a minus sign |
| `Wire.NumTokens` | chitu/task.py:928-932 | the receiver counts the sum of the lengths that were sent in a prefill batch, and the number of tasks otherwise |
| `Wire.EmptyArrives` | chitu/task.py:822-828 | payloads without tasks always serialize, to their code and zeros, and arrive without tasks and tokens |
| `Wire.CodesInOrder` | chitu/task.py:811-819 | the payload codes are 1 to 8 in the order of the declaration, and no other number is one |
| `Wire.GoodIdsArrive` | chitu/task.py:876-994 | with positive ids within int64 the batch serializes and comes back whole: payload kind, slot, order, lengths and output flags or run flags; every id arrives with its number, and an id without underscore arrives with its exact text if and only if it is canonical lower-case hex |
| `Wire.SerializesExactly` | chitu/task.py:950-994 | up to the configured number of tasks serialize if and only if every id is a number within int64 and every task has its length and flags |
| `Wire.SerializedLaid` | chitu/task.py:950-994 | what every cell of the serialized tensor holds |
| `Wire.IdRoundTrip` | chitu/task.py:712-732 | any id with a non-zero number, signs, 0x, blanks and underscores included: the number comes back without its sign, the kind survives if and only if it is positive, and the text if and only if the part behind the prefix is canonical |
| `Wire.SignTellsKind` | chitu/task.py:720-723 | a positive id is positive on the wire in a prefill batch and negative otherwise |
| `Wire.PrefixDropped` | chitu/task.py:713-718 | what stands in front of the first underscore of an id is not part of its number |
| `Wire.SpellingReads` | chitu/task.py:720-723 | blanks on both sides, a sign and a 0x are read as int(s, 16) reads them |
| `Wire.UnderscoreReads` | chitu/task.py:720-723 | one underscore between digits is skipped, two in a row are an error |
| `Wire.ParseConcat` | chitu/task.py:720-723 | appending n digits multiplies by 16 to the n |
| `Wire.DigitValues` | chitu/task.py:720-723 | the digits have their usual values, in either case, and nothing else is one |
| `Wire.CanonicalReads` | chitu/task.py:712-723 | the reader of integers takes a canonical string digit by digit |
| `Wire.PrintParse` | chitu/task.py:726-732 | hex printing is canonical and parses back |
| `Wire.ParsePrint` | chitu/task.py:712-732 | parsing and printing gives the string back if and only if it is canonical |
| `Wire.EncodeIds` | chitu/task.py:950-960 | all ids encoded in order; fails exactly when one has no number |
| `Wire.Serialize` | chitu/task.py:950-994 | the tensor as specified, or an error exactly in the specified cases |
| `Wire.Deserialize` | chitu/task.py:876-948 | the batch the tensor denotes: ids up to the first zero, signs decide the kind |
| `Wire.UpdateByDecodeStatus` | chitu/task.py:1017-1034 | exactly the tasks whose run flag is set stay, in order |
| `Wire.StillRunningAt` | chitu/task.py:1017-1034 | the tasks that stay are those at the places whose flag is set, in their order |
| `Stream.RunInv` | chitu/async_response.py:61-138 | over all interleavings of producer and event loop: the consumer has received each chunk once, in order, and never sleeps with something unread unless a wake-up is still to come |
| `Stream.StepKeeps` | chitu/async_response.py:61-138 | one atomic step of either thread keeps that |
| `Stream.NeverStuck` | chitu/async_response.py:118-138 | once the producer has stopped, the loop always has a step until the consumer has finished |
| `Stream.LoopAdvances` | chitu/async_response.py:118-138 | and each of its steps brings it closer |
| `Stream.ConsumerCompletes` | chitu/async_response.py:95-138 | so it is done after a bounded number of steps, with every chunk received |
| `Stream.RunContent` | chitu/async_response.py:61-93 | in every state of every run the chunks are those of the tokens produced so far |
| `Stream.ChunksFollowTokens` | chitu/async_response.py:61-93 | decoding chunk by chunk: the chunks are the texts of consecutive token groups, nothing lost, repeated or reordered; each group is the shortest with a complete text, and no beginning of what is held back has one |
| `Stream.CutUnique` | chitu/async_response.py:61-93 | tokens can be cut into such groups in one way only |
| `Stream.ChunksFollowText` | chitu/async_response.py:61-93 | decoding the whole sequence, for any tokenizer: one chunk for every beginning of the tokens with a complete text, the part of that text behind the length of the one before |
| `Stream.ChunksAreText` | chitu/async_response.py:61-93 | at every such place the chunks together are the text if and only if each of these texts continues the one before |
| `Stream.WholeText` | chitu/async_response.py:61-93 | then the chunks together are the text of the longest complete beginning, and the whole text once that is complete |
| `Stream.AsyncDataStream.constructor` | chitu/async_response.py:27-59 | an empty open stream |
| `Stream.AsyncDataStream.AddData` | chitu/async_response.py:61-93 | content as specified; a notification exactly when a chunk appeared and it is asked for |
| `Stream.AsyncDataStream.SendStopSignal` | chitu/async_response.py:95-98 | only the stop flag changes |
| `Stream.AsyncDataStream.TryNext` | chitu/async_response.py:122-136 | end, next chunk or nothing, as the protocol's consumer finds it |
| `Relayout.ConvertKeepsMeaning` | chitu/native_layout.py:327-355 | repacking from stride s to t denotes the same sequence along K for all strides that divide the row, and back restores every byte |
| `Relayout.UnpackPacked` | chitu/native_layout.py:337-355 | unpacking what was packed |
| `Relayout.PackUnpacked` | chitu/native_layout.py:337-355 | packing what was unpacked |
| `Relayout.PackedAt` | chitu/native_layout.py:317-355 | element k is found in the byte and half in which it is stored |
| `Relayout.UnpackedRows` | chitu/native_layout.py:342-345 | a row of s bytes unpacks to the low halves of its bytes followed by their high halves |
| `Relayout.PackedRows` | chitu/native_layout.py:346-347 | two rows of elements pack to one row of bytes, the first row in the low halves and the second in the high halves |
| `Relayout.ConvertedByte` | chitu/native_layout.py:327-355 | every byte after repacking in terms of the bytes before: which two elements it holds, and in which half of which byte they were |
| `Relayout.SwizzleRoundTrip` | chitu/native_layout.py:861-915 | swizzled-to-linear after linear-to-swizzled is the identity on an m x k scale, row padding included |
| `Relayout.SwizzledPosition` | chitu/native_layout.py:861-883 | where each entry of a scale is stored, and zeros for the rows it is padded with |
| `Relayout.LinearPosition` | chitu/native_layout.py:886-915 | from where each entry of a linear scale is read, for any swizzled one |
| `Relayout.PaddedIs` | chitu/native_layout.py:866-874 | rows are padded with zeros to the next multiple of 128 |
| `Relayout.SwapTwice` | chitu/native_layout.py:861-915 | exchanging two digits of the index twice is the identity, in any mixed radix |
| `Relayout.Separate` | chitu/native_layout.py:623-643 | the columns of a range are separated into even and odd ones, the others stay |
| `Relayout.SeparatedOutside` | chitu/native_layout.py:623-643 | columns outside the range stay where they are |
| `Relayout.SeparateRoundTrip` | chitu/native_layout.py:623-657 | separating and interleaving are inverse, both ways |

## Left out

- Pipeline, tensor and data parallelism and multi-token prediction in the serving loop; DP together with the skew cache or pipelines.
- Strict gating and warm-up in `Scheduler.schedule`, and the scheduler groups of the paged scheduler: with one group it is taken and returned within a pass.
- Chunked prefill in the whole-run theorems of the serving loop: it is covered by `TaskSpec`, by the paged preparation (any slice lengths), by the skew machine and by the DP scheduler.
- Evictions with overlapped scheduling: `OverlapSchedule` shows that there are none when all requests fit together.
- Ids of finished requests are not used again; the pool only refuses ids that are in it.
- The state after a capacity error: the source lets the exception end the pass.
- Neural network, sampling, attention backends, CUDA graph capture and replay: the next token is a function of the entries; tensors are sequences or arrays, static buffers have no capacity limit.
- The first prefill pass of the memory manager (sizing), KV transfer and `reserve_blocks_for_transfer`, the second linear and indexer caches.
- CacheSpec.ReallocConserves: on the specified cache state only; the memory that is allocated anew is not modelled.
- The queue of results holds tokens only: no log-probabilities, task loads, metrics or traces.
- Response side of a request: merged into the task (tokens delivered, stream closed); the stream object itself is in `Stream`.
- Tasks.Task.AddData: reasoning tokens and the counters of characters are not modelled.
- The generated results of overlapped tasks are kept in a map by id, not as tensor fields of the task objects.
- SkewCache.DenseKVCacheManager.FinalizeCacheAllDecode: a buffer row is one value, one key and one layer stand for all; the lengths kept by the base class are not repeated here.
- SkewScheduling.SkewScheduler.Schedule: the scorer's order of the waiting tasks is a parameter, and which of the tasks are ready is said by the caller.
- DeviceLists.StaticDeviceListManager.RemoveList: the removed list still aliases its row in the source; here it is out of use from then on.
- DeviceLists.StaticDeviceListManager.BatchAppend: the lists of one call are pairwise different; for repeated indices the assignment to the buffer does not define which item is stored.
- DpScheduling.DPFifoScheduler.Schedule: outside warm-up; start times are given by the order of the candidates. Two stays of the same id in the pool may have different owners.
- Wire.SerializesExactly: a list of lengths or flags with exactly one element, which tensor assignment would broadcast over a batch of another size, counts as an error here.
- Wire.IdRoundTrip: digits and blanks outside ASCII, which `int(s, 16)` also accepts.
- Special payloads of the wire format made by `serialize_special`: a code and zeros.
- Log-probabilities are not attached to the chunks of a stream.
- Relayout.SwizzleRoundTrip: one matrix at a time, and not the native kernel of the fast path.
- Routers, token senders, dispatchers, load balancer, checkpoint and tokenizer loading, configuration: input and output, or only easy members.
