/**
 The executor's step and the loop body of the main rank, over the live objects of `Engine`. Each phase
 is proved to act on the abstract state like its counterpart in `Serving`; a whole pass is a step of
 the runs of `ServingTheorems`.
 */
module MainLoop {
  import opened Base
  import opened LanguageModel
  import opened CacheSpec
  import opened PagedMemory
  import opened PagedRefinement
  import opened PagedCache
  import opened ModelStep
  import opened Tasks
  import T = TaskSpec
  import opened Serving
  import opened ServingInvariant
  import opened ServingTheorems
  import opened Engine

  // ----- Model run -----

  /** A batch of distinct live tasks of one kind on which the model can be run: decode tasks have a cache,
      and the free blocks suffice. */
  ghost predicate Launchable(s: State, batch: seq<TaskId>) {
    && Runnable(s, batch) && Distinct(batch) && CacheInv(s.cache) && s.cache.numBlocks > 0
    && (forall id :: id in batch ==> s.tasks[id].kind == s.tasks[batch[0]].kind)
    && (forall id :: id in batch && s.tasks[id].kind == T.Decode ==> id in s.cache.len)
    && NeedAll(Grow(s.cache, Growth(s, batch)), batch) <= |s.cache.free|
  }

  /** In the invariant of the serving loop every admitted batch can be launched. */
  lemma AdmittedLaunches(cfg: Config, s: State, batch: seq<TaskId>)
    requires Core(cfg, s) && Admitted(s, batch)
    ensures Launchable(s, batch)
  {
    hide LocalIn, CacheInv, NeedAll, Grow;
    forall id | id in batch && s.tasks[id].kind == T.Decode
      ensures id in s.cache.len
    {
      DecoderFacts(cfg, s, id);
    }
  }

  lemma BatchPrepared(s: State, batch: seq<TaskId>)
    requires Launchable(s, batch)
    ensures s.cache.blockSize > 0 && Prepare(s.cache, batch, Growth(s, batch)).Ok?
    ensures Growth(s, batch).Keys == Ids(batch)
    ensures Prepared(s.cache, batch, InputOf(s, batch), Growth(s, batch),
      Prepare(s.cache, batch, Growth(s, batch)).value)
    ensures Prepare(s.cache, batch, Growth(s, batch)).value.numBlocks > 0
  {
    hide Conserved, NeedAll, Grow, Prepare, Input;
    PrepareKeeps(s.cache, batch, Growth(s, batch));
    GrowSize(s.cache, Growth(s, batch));
  }

  /** The objects of a batch, with the inputs they have in the abstract state. */
  ghost predicate BatchOf(tasks: seq<Task>, s: State, batch: seq<TaskId>)
    reads tasks
  {
    && Runnable(s, batch) && |tasks| == |batch|
    && forall i :: 0 <= i < |batch| ==> tasks[i].Abs() == s.tasks[batch[i]]
  }

  lemma FlattenStep(inputs: seq<seq<Token>>, i: nat)
    requires i < |inputs|
    ensures Flatten(inputs[i..]) == inputs[i] + Flatten(inputs[i + 1..])
  {
    assert inputs[i..][1..] == inputs[i + 1..];
  }

  lemma InputAt(tasks: seq<Task>, s: State, batch: seq<TaskId>, i: nat)
    requires BatchOf(tasks, s, batch) && i < |batch|
    ensures tasks[i].kind == s.tasks[batch[i]].kind && Inputs(batch, InputOf(s, batch))[i] == Input(s.tasks[batch[i]])
    ensures tasks[i].kind == T.Prefill ==>
      tasks[i].consumed <= |tasks[i].prefix| && Input(s.tasks[batch[i]]) == T.NextTokens(tasks[i].Abs())
    ensures tasks[i].kind == T.Decode ==> Input(s.tasks[batch[i]]) == [tasks[i].nextToken]
  {
    assert batch[i] in batch;
  }

  lemma GatherStart(tasks: seq<Task>, s: State, batch: seq<TaskId>)
    requires BatchOf(tasks, s, batch)
    ensures Runnable(s, batch) && |tasks| == |batch|
  {
  }

  /** The flat input of a prefill batch. */
  method GatherPrefill(tasks: seq<Task>, ghost s: State, ghost batch: seq<TaskId>)
      returns (tokens: seq<Token>, deltas: seq<nat>)
    requires BatchOf(tasks, s, batch) && forall id :: id in batch ==> s.tasks[id].kind == T.Prefill
    ensures tokens == Flatten(Inputs(batch, InputOf(s, batch)))
    ensures |deltas| == |batch| && forall i :: 0 <= i < |batch| ==> deltas[i] == |Input(s.tasks[batch[i]])|
  {
    hide Flatten, T.NextTokens, Inputs, InputOf, Input, BatchOf, Task.Abs;
    GatherStart(tasks, s, batch);
    ghost var inputs := Inputs(batch, InputOf(s, batch));
    tokens, deltas := [], [];
    assert inputs[0..] == inputs;
    for i := 0 to |tasks|
      invariant tokens + Flatten(inputs[i..]) == Flatten(inputs)
      invariant |deltas| == i && forall k :: 0 <= k < i ==> deltas[k] == |Input(s.tasks[batch[k]])|
    {
      FlattenStep(inputs, i);
      InputAt(tasks, s, batch, i);
      var slice := tasks[i].NextReqTokens();
      tokens, deltas := tokens + slice, deltas + [|slice|];
    }
    FlattenNil(inputs[|tasks|..]);
  }

  lemma FlattenNil(inputs: seq<seq<Token>>)
    requires inputs == []
    ensures Flatten(inputs) == []
  {
  }

  /** `_prepare_new_tokens_for_decode`. */
  method GatherDecode(tasks: seq<Task>, ghost s: State, ghost batch: seq<TaskId>) returns (tokens: seq<Token>)
    requires BatchOf(tasks, s, batch) && forall id :: id in batch ==> s.tasks[id].kind == T.Decode
    ensures tokens == Flatten(Inputs(batch, InputOf(s, batch)))
  {
    hide Flatten, T.NextTokens, Inputs, InputOf, Input, BatchOf, Task.Abs;
    GatherStart(tasks, s, batch);
    ghost var inputs := Inputs(batch, InputOf(s, batch));
    tokens := [];
    assert inputs[0..] == inputs;
    for i := 0 to |tasks|
      invariant tokens + Flatten(inputs[i..]) == Flatten(inputs)
    {
      FlattenStep(inputs, i);
      InputAt(tasks, s, batch, i);
      tokens := tokens + [tasks[i].nextToken];
    }
    FlattenNil(inputs[|tasks|..]);
  }

  /** Lengths, blocks and device table for the batch, by the preparation of its kind. An admitted batch
      never runs out of blocks here. */
  method PrepareFor(m: PagedKVCacheManager, tasks: seq<Task>, batch: seq<TaskId>, ghost s: State)
      returns (tokens: seq<Token>, o: Outcome<()>)
    requires m.Valid() && m.Abs() == s.cache && Launchable(s, batch) && batch != []
    requires BatchOf(tasks, s, batch)
    modifies m, m.seqLenDelta.Repr()
    ensures o.Ok? && s.cache.blockSize > 0 && m.Ready(s.cache, batch, Growth(s, batch))
    ensures tokens == Flatten(Inputs(batch, InputOf(s, batch)))
  {
    hide Launchable, Prepare, Flatten, Prepared, Input, Inputs, GpuTable;
    BatchKinds(s, batch);
    ghost var grow := Growth(s, batch);
    BatchPrepared(s, batch);
    GrowthIs(s, batch);
    if tasks[0].kind == T.Prefill {
      var deltas;
      tokens, deltas := GatherPrefill(tasks, s, batch);
      o := m.PrepareCachePrefill(batch, deltas, grow);
    } else {
      tokens := GatherDecode(tasks, s, batch);
      o := m.PrepareCacheDecode(batch, grow);
    }
  }

  lemma GrowthIs(s: State, batch: seq<TaskId>)
    requires Runnable(s, batch)
    ensures forall i :: 0 <= i < |batch| ==>
      batch[i] in Growth(s, batch) && Growth(s, batch)[batch[i]] == |Input(s.tasks[batch[i]])|
    ensures forall i :: 0 <= i < |batch| && s.tasks[batch[i]].kind == T.Decode ==> Growth(s, batch)[batch[i]] == 1
  {
  }

  lemma BatchKinds(s: State, batch: seq<TaskId>)
    requires Launchable(s, batch) && batch != []
    ensures forall id :: id in batch ==> s.tasks[id].kind == s.tasks[batch[0]].kind
    ensures s.tasks[batch[0]].kind == T.Decode ==> forall id :: id in batch ==> id in s.cache.len && id in s.cache.table
    ensures Runnable(s, batch) && Distinct(batch)
  {
    hide Conserved, NeedAll, Grow;
  }

  /** The state after the model has run on a batch. */
  ghost function Ran(cfg: Config, s: State, batch: seq<TaskId>): State
    requires Runnable(s, batch) && Prepare(s.cache, batch, Growth(s, batch)).Ok?
  {
    s.(cache := Prepare(s.cache, batch, Growth(s, batch)).value, contents := RunModel(cfg.lm, s, batch))
  }

  /** `prefill_step`, `decode_step` and sampling. */
  method RunBatch(m: PagedKVCacheManager, lm: Lm, tasks: seq<Task>, batch: seq<TaskId>, ghost s: State)
      returns (out: seq<nat>)
    requires m.Valid() && s.cache.blockSize > 0 && m.Abs() == s.cache && Contents(s.cache, m.Memory()) == s.contents
    requires Launchable(s, batch) && batch != [] && BatchOf(tasks, s, batch)
    modifies m, m.seqLenDelta.Repr(), m.kv
    ensures m.Valid() && Prepare(s.cache, batch, Growth(s, batch)) == Ok(m.Abs())
    ensures m.Abs().blockSize > 0 && Contents(m.Abs(), m.Memory()) == RunModel(lm, s, batch)
    ensures |out| == |batch|
    ensures forall i :: 0 <= i < |batch| ==> out[i] == lm.next(KvOf(RunModel(lm, s, batch), batch[i]))
  {
    hide Launchable, Prepare, Flatten, Prepared, Input, Inputs, GpuTable, Contents, ExtendAll, View, Growth, KvOf;
    BatchPrepared(s, batch);
    ghost var mem := m.Memory();
    var tokens, o := PrepareFor(m, tasks, batch, s);
    assert m.Memory() == mem;
    out := RunPrepared(lm, m, batch, tokens, s.cache, InputOf(s, batch), Growth(s, batch));
    SampledIs(lm, s, batch, m.Abs(), m.Memory());
  }

  lemma SampledIs(lm: Lm, s: State, batch: seq<TaskId>, c: Cache, mem: Mem)
    requires Runnable(s, batch) && c.blockSize > 0 && Contents(c, mem) == RunModel(lm, s, batch)
    ensures forall id :: id in batch ==> View(c, mem, id) == KvOf(RunModel(lm, s, batch), id)
  {
    hide View, Extend, Input;
  }

  // ----- The executor's step -----

  /** The live objects of the batch. */
  ghost predicate Live(r: Rank, tasks: seq<Task>, batch: seq<TaskId>)
    reads r`all
  {
    Listed(r.all, tasks) && IdsOf(tasks) == batch
  }

  method PoolTasks(r: Rank, batch: seq<TaskId>, ghost s: State) returns (tasks: seq<Task>)
    requires r.Holds(s) && Runnable(s, batch) && Distinct(batch)
    ensures r.Holds(s) && Live(r, tasks, batch) && BatchOf(tasks, s, batch)
  {
    hide Rank.Holds, Task.Abs;
    PoolMembers(r, s);
    tasks := [];
    for i := 0 to |batch|
      invariant |tasks| == i
      invariant forall k :: 0 <= k < i ==> tasks[k] == r.all[batch[k]]
    {
      tasks := tasks + [r.pool[batch[i]]];
    }
    assert forall k :: 0 <= k < |batch| ==> tasks[k].req.id == batch[k] && batch[k] in s.pool;
  }

  lemma PoolMembers(r: Rank, s: State)
    requires r.Holds(s)
    ensures forall id :: id in r.all ==> r.all[id].req.id == id
    ensures forall id :: id in s.pool ==>
      id in r.pool && id in r.all && r.pool[id] == r.all[id] && id in s.tasks && r.pool[id].Abs() == s.tasks[id]
  {
    hide QueueDenotes, Contents;
  }

  method Launch(r: Rank, tasks: seq<Task>, batch: seq<TaskId>, ghost s: State) returns (out: seq<nat>)
    requires r.Holds(s) && Live(r, tasks, batch) && BatchOf(tasks, s, batch)
    requires Launchable(s, batch) && batch != []
    modifies r.cache.Repr()
    ensures Prepare(s.cache, batch, Growth(s, batch)).Ok? && r.Holds(Ran(r.cfg, s, batch))
    ensures |out| == |batch|
    ensures forall i :: 0 <= i < |batch| ==> out[i] == r.cfg.lm.next(KvOf(RunModel(r.cfg.lm, s, batch), batch[i]))
  {
    hide Launchable, Prepare, Input, Contents, Task.Abs, QueueDenotes, PoolLists, Listed, RunModel, Growth, KvOf,
      BatchOf, WellTyped;
    out := RunBatch(r.cache, r.cfg.lm, tasks, batch, s);
  }

  /** Token and kind bookkeeping of the batch. */
  method Bookkeep(r: Rank, tasks: seq<Task>, batch: seq<TaskId>, ghost s: State)
    requires r.Holds(s) && Live(r, tasks, batch)
    modifies tasks
    ensures r.Holds(s.(tasks := RunTasks(s.tasks, batch))) && Live(r, tasks, batch)
  {
    hide Task.Abs, T.Consume, Contents, QueueDenotes;
    ListedIn(r.all, tasks);
    AfterModelRun(tasks);
    r.BatchApplied(tasks, s.tasks, RunTasks(s.tasks, batch));
  }

  /** `update_task_by_result`. */
  method TakeTokens(r: Rank, tasks: seq<Task>, batch: seq<TaskId>, out: seq<Token>, ghost s: State,
      ghost contents: map<TaskId, seq<Kv>>)
    requires r.Holds(s) && Live(r, tasks, batch) && |out| == |batch|
    requires forall i :: 0 <= i < |batch| ==> out[i] == r.cfg.lm.next(KvOf(contents, batch[i]))
    modifies tasks
    ensures r.Holds(Sampled(r.cfg, s, batch, contents)) && Live(r, tasks, batch)
  {
    hide Task.Abs, T.Advance, Contents, QueueDenotes;
    ListedIn(r.all, tasks);
    UpdateTasksByResult(r.cfg.stops, tasks, out);
    r.BatchApplied(tasks, s.tasks, SampleTasks(r.cfg, s.tasks, batch, contents));
  }

  /** `get_batch_result`, appended to the queue. */
  method QueueResult(r: Rank, tasks: seq<Task>, batch: seq<TaskId>, ghost s: State)
    requires r.Holds(s) && Live(r, tasks, batch)
    requires forall id :: id in batch && id in s.tasks ==> s.tasks[id].nextToken >= 0
    modifies r`lastBatchResults
    ensures r.Holds(s.(results := s.results + [BatchResult(s.tasks, batch)]))
  {
    hide Contents, PoolLists, ResultMap;
    var tokens := [];
    for i := 0 to |tasks|
      invariant |tokens| == i && forall k :: 0 <= k < i ==> tokens[k] == tasks[k].nextToken
    {
      tokens := tokens + [tasks[i].nextToken];
    }
    ResultIs(r, tasks, batch, s, tokens);
    r.lastBatchResults := r.lastBatchResults + [Result(tasks, tokens)];
  }

  lemma ResultIs(r: Rank, tasks: seq<Task>, batch: seq<TaskId>, s: State, tokens: seq<Token>)
    requires r.TasksAre(s.tasks) && Live(r, tasks, batch) && |tokens| == |tasks|
    requires forall k :: 0 <= k < |tokens| ==> tokens[k] == tasks[k].nextToken
    requires forall id :: id in batch && id in s.tasks ==> s.tasks[id].nextToken >= 0
    ensures BatchResult(s.tasks, batch) == ResultMap(batch, tokens)
  {
    hide ResultMap;
    ListedIn(r.all, tasks);
    var m := ResultMap(batch, tokens);
    forall id | id in batch
      ensures id in s.tasks && id in m && m[id] == s.tasks[id].nextToken
    {
      var i :| 0 <= i < |batch| && batch[i] == id;
      ResultMapAt(batch, tokens, i);
      assert tasks[i].Abs() == s.tasks[id];
    }
    assert forall id :: id in m <==> id in batch;
  }

  ghost function Bookkept(cfg: Config, s: State, batch: seq<TaskId>): State
    requires Runnable(s, batch) && Prepare(s.cache, batch, Growth(s, batch)).Ok?
  {
    var ran := Ran(cfg, s, batch);
    ran.(tasks := RunTasks(ran.tasks, batch))
  }

  ghost function Sampled(cfg: Config, s: State, batch: seq<TaskId>, contents: map<TaskId, seq<Kv>>): State {
    s.(tasks := SampleTasks(cfg, s.tasks, batch, contents))
  }

  ghost function Queued(s: State, batch: seq<TaskId>): State {
    s.(results := s.results + [BatchResult(s.tasks, batch)])
  }

  lemma StepIs(cfg: Config, s: State, batch: seq<TaskId>)
    requires Runnable(s, batch) && Prepare(s.cache, batch, Growth(s, batch)).Ok?
    ensures var t := Queued(Sampled(cfg, Sent(cfg, s, batch), batch, RunModel(cfg.lm, s, batch)), batch);
      Compute(cfg, s, batch) == Ok(t) && t.threshold == s.threshold
  {
    hide Prepare, RunModel, RunTasks, SampleTasks, BatchResult, Growth;
  }

  /** The state once the model has run and the previous result has been delivered. */
  ghost function Sent(cfg: Config, s: State, batch: seq<TaskId>): State
    requires Runnable(s, batch) && Prepare(s.cache, batch, Growth(s, batch)).Ok?
  {
    Deliver(Bookkept(cfg, s, batch))
  }

  method RunAndDeliver(r: Rank, tasks: seq<Task>, batch: seq<TaskId>, ghost s: State) returns (out: seq<nat>)
    requires r.Holds(s) && Live(r, tasks, batch) && BatchOf(tasks, s, batch)
    requires Core(r.cfg, s) && Admitted(s, batch) && batch != []
    modifies r`lastBatchResults, r.all.Values, r.cache.Repr()
    ensures Prepare(s.cache, batch, Growth(s, batch)).Ok? && r.Holds(Sent(r.cfg, s, batch)) && Live(r, tasks, batch)
    ensures |out| == |batch|
    ensures forall i :: 0 <= i < |batch| ==> out[i] == r.cfg.lm.next(KvOf(RunModel(r.cfg.lm, s, batch), batch[i]))
  {
    hide Core, Rank.Holds, Task.Abs, Admitted, Launchable, Prepare, RunModel, Deliver, BatchOf, Listed, Ran, Bookkept;
    AdmittedRuns(s, batch);
    AdmittedLaunches(r.cfg, s, batch);
    InAll(r, tasks, batch);
    out := Launch(r, tasks, batch, s);
    RanContents(r.cfg, s, batch);
    Bookkeep(r, tasks, batch, Ran(r.cfg, s, batch));
    BookkeptIs(r.cfg, s, batch);
    r.PostprocessAsync(Bookkept(r.cfg, s, batch));
  }

  method SampleAndQueue(r: Rank, tasks: seq<Task>, batch: seq<TaskId>, out: seq<Token>, ghost s: State,
      ghost contents: map<TaskId, seq<Kv>>)
    requires r.Holds(s) && Live(r, tasks, batch) && |out| == |batch|
    requires forall i :: 0 <= i < |batch| ==> out[i] == r.cfg.lm.next(KvOf(contents, batch[i]))
    modifies tasks, r`lastBatchResults
    ensures r.Holds(Queued(Sampled(r.cfg, s, batch, contents), batch))
  {
    hide Rank.Holds, Task.Abs, Listed, Sampled, Queued;
    TakeTokens(r, tasks, batch, out, s, contents);
    SampledTokens(r.cfg, s, batch, contents);
    QueueResult(r, tasks, batch, Sampled(r.cfg, s, batch, contents));
    QueuedIs(Sampled(r.cfg, s, batch, contents), batch);
  }

  /** `Executor.step` in synchronous mode. */
  method Step(r: Rank, batch: seq<TaskId>)
    requires r.Valid() && Core(r.cfg, r.st) && Admitted(r.st, batch) && batch != []
    modifies r`lastBatchResults, r`threshold, r`st, r.all.Values, r.cache.Repr()
    ensures r.Valid() && r.all == old(r.all)
    ensures Compute(r.cfg, old(r.st), batch) == Ok(r.st)
  {
    hide Core, Rank.Holds, Task.Abs, Admitted, Prepare, RunModel, Sent, BatchOf, Listed, Sampled, Queued, Compute;
    ghost var s := r.st;
    AdmittedRuns(s, batch);
    var tasks := PoolTasks(r, batch, s);
    InAll(r, tasks, batch);
    var out := RunAndDeliver(r, tasks, batch, s);
    ghost var contents := RunModel(r.cfg.lm, s, batch);
    SampleAndQueue(r, tasks, batch, out, Sent(r.cfg, s, batch), contents);
    StepIs(r.cfg, s, batch);
    ghost var t := Queued(Sampled(r.cfg, Sent(r.cfg, s, batch), batch, contents), batch);
    r.Commit(r.threshold, t, t);
  }

  lemma AdmittedRuns(s: State, batch: seq<TaskId>)
    requires Admitted(s, batch)
    ensures Runnable(s, batch) && Distinct(batch)
  {
    hide NeedAll;
  }

  lemma RanContents(cfg: Config, s: State, batch: seq<TaskId>)
    requires Runnable(s, batch) && Prepare(s.cache, batch, Growth(s, batch)).Ok?
    ensures Ran(cfg, s, batch).contents == RunModel(cfg.lm, s, batch)
  {
    hide RunModel, Prepare;
  }

  lemma BookkeptIs(cfg: Config, s: State, batch: seq<TaskId>)
    requires Runnable(s, batch) && Prepare(s.cache, batch, Growth(s, batch)).Ok?
    ensures var ran := Ran(cfg, s, batch);
      Bookkept(cfg, s, batch) == ran.(tasks := RunTasks(ran.tasks, batch))
  {
    hide RunModel, Prepare, RunTasks;
  }

  lemma QueuedIs(s: State, batch: seq<TaskId>)
    ensures Queued(s, batch) == s.(results := s.results + [BatchResult(s.tasks, batch)])
  {
  }

  lemma InAll(r: Rank, tasks: seq<Task>, batch: seq<TaskId>)
    requires Live(r, tasks, batch)
    ensures forall t :: t in tasks ==> t in r.all.Values
  {
    ListedIn(r.all, tasks);
  }

  lemma SampledTokens(cfg: Config, s: State, batch: seq<TaskId>, contents: map<TaskId, seq<Kv>>)
    ensures var tasks := Sampled(cfg, s, batch, contents).tasks;
      forall id :: id in batch && id in tasks ==> tasks[id].nextToken >= 0
  {
    forall id | id in batch && id in s.tasks
      ensures SampleTasks(cfg, s.tasks, batch, contents)[id].nextToken >= 0
    {
      AdvanceToken(cfg.stops, s.tasks[id], cfg.lm.next(KvOf(contents, id)));
    }
  }

  // ----- Update -----

  lemma RemoveStep(pool: seq<TaskId>, gone: set<TaskId>)
    requires pool != []
    ensures RemoveIds(pool, gone) == (if pool[0] in gone then [] else [pool[0]]) + RemoveIds(pool[1..], gone)
  {
  }

  lemma {:induction false} RemoveSplit(pool: seq<TaskId>, i: nat)
    requires Distinct(pool) && i < |pool|
    ensures RemoveIds(pool, {pool[i]}) == pool[..i] + pool[i + 1..]
    decreases |pool|
  {
    hide RemoveIds;
    RemoveStep(pool, {pool[i]});
    if i == 0 {
      RemoveNone(pool[1..], {pool[0]});
    } else {
      RemoveSplit(pool[1..], i - 1);
      assert pool[1..][..i - 1] + pool[1..][i..] == pool[1..i] + pool[i + 1..];
      assert pool[..i] == [pool[0]] + pool[1..i];
    }
  }

  lemma {:induction false} RemoveNone(pool: seq<TaskId>, gone: set<TaskId>)
    requires forall id :: id in pool ==> id !in gone
    ensures RemoveIds(pool, gone) == pool
    decreases |pool|
  {
    if pool != [] {
      RemoveNone(pool[1..], gone);
    }
  }

  lemma {:induction false} RemoveMore(pool: seq<TaskId>, gone: set<TaskId>, id: TaskId)
    ensures RemoveIds(RemoveIds(pool, gone), {id}) == RemoveIds(pool, gone + {id})
    decreases |pool|
  {
    if pool != [] {
      RemoveMore(pool[1..], gone, id);
      var rest := RemoveIds(pool[1..], gone);
      if pool[0] !in gone {
        assert ([pool[0]] + rest)[1..] == rest;
      } else {
        assert [] + rest == rest;
      }
    }
  }

  /** `list.remove` on a list without repetitions. */
  method RemoveFirst(list: seq<TaskId>, id: TaskId) returns (rest: seq<TaskId>)
    requires Distinct(list) && id in list
    ensures rest == RemoveIds(list, {id})
  {
    var i := 0;
    while list[i] != id
      invariant i < |list| && id in list[i..]
      decreases |list| - i
    {
      assert list[i..] == [list[i]] + list[i + 1..];
      i := i + 1;
    }
    RemoveSplit(list, i);
    rest := list[..i] + list[i + 1..];
  }

  lemma PoolShrinks(all: map<TaskId, Task>, pool: map<TaskId, Task>, idList: seq<TaskId>, id: TaskId)
    requires PoolLists(all, pool, idList)
    ensures PoolLists(all, pool - {id}, RemoveIds(idList, {id}))
  {
    hide RemoveIds;
    assert Ids(RemoveIds(idList, {id})) == Ids(idList) - {id};
  }

  /** `TaskPool.remove`. */
  method RemoveTask(r: Rank, id: TaskId, ghost s: State)
    requires r.Holds(s) && Distinct(s.pool) && id in s.pool
    modifies r`pool, r`idList
    ensures r.Holds(s.(pool := RemoveIds(s.pool, {id})))
  {
    hide Task.Abs, Contents, QueueDenotes, RemoveIds, PoolLists, Listed;
    PoolShrinks(r.all, r.pool, r.idList, id);
    r.idList := RemoveFirst(r.idList, id);
    r.pool := r.pool - {id};
  }

  lemma {:induction false} StoppedAppend(tasks: map<TaskId, T.Task>, ids: seq<TaskId>, id: TaskId)
    requires id in tasks && forall x :: x in ids ==> x in tasks
    ensures StoppedOf(tasks, ids + [id]) == StoppedOf(tasks, ids) + (if tasks[id].status == T.Stopped then [id] else [])
    decreases |ids|
  {
    hide StoppedOf;
    StoppedStep(tasks, ids + [id]);
    if ids == [] {
      StoppedNone(tasks, (ids + [id])[1..]);
      StoppedNone(tasks, ids);
    } else {
      assert (ids + [id])[0] == ids[0] && (ids + [id])[1..] == ids[1..] + [id];
      StoppedStep(tasks, ids);
      StoppedAppend(tasks, ids[1..], id);
    }
  }

  lemma StoppedStep(tasks: map<TaskId, T.Task>, ids: seq<TaskId>)
    requires ids != [] && forall x :: x in ids ==> x in tasks
    ensures StoppedOf(tasks, ids) ==
      (if tasks[ids[0]].status == T.Stopped then [ids[0]] else []) + StoppedOf(tasks, ids[1..])
  {
  }

  lemma StoppedNone(tasks: map<TaskId, T.Task>, ids: seq<TaskId>)
    requires ids == []
    ensures StoppedOf(tasks, ids) == []
  {
  }

  /** The state once the first tasks of the batch have been looked at. */
  ghost function Removing(s: State, ids: seq<TaskId>): State
    requires forall id :: id in ids ==> id in s.tasks
  {
    s.(pool := RemoveIds(s.pool, Ids(StoppedOf(s.tasks, ids))))
  }

  ghost function Freed(s: State, ids: seq<TaskId>): seq<TaskId>
    requires forall id :: id in ids ==> id in s.tasks
  {
    OfKind(s.tasks, StoppedOf(s.tasks, ids), T.Decode)
  }

  lemma RemovingNone(s: State)
    ensures Removing(s, []) == s && Freed(s, []) == []
  {
    RemoveNone(s.pool, {});
    assert StoppedOf(s.tasks, []) == [] && Ids([]) == {};
  }

  lemma RemovingNext(s: State, ids: seq<TaskId>, id: TaskId)
    requires id in s.tasks && (forall x :: x in ids ==> x in s.tasks) && Distinct(s.pool)
    ensures Distinct(Removing(s, ids).pool) && Removing(s, ids).tasks == s.tasks && Removing(s, ids).cache == s.cache
    ensures id in s.pool && id !in ids ==> id in Removing(s, ids).pool
    ensures var r := Removing(s, ids);
      Removing(s, ids + [id]) == if s.tasks[id].status == T.Stopped then r.(pool := RemoveIds(r.pool, {id})) else r
    ensures Freed(s, ids + [id]) ==
      Freed(s, ids) + if s.tasks[id].status == T.Stopped && s.tasks[id].kind == T.Decode then [id] else []
  {
    hide RemoveIds, StoppedOf, OfKind;
    var stopped := StoppedOf(s.tasks, ids);
    RemoveIdsDistinct(s.pool, Ids(stopped));
    StoppedAppend(s.tasks, ids, id);
    if s.tasks[id].status == T.Stopped {
      RemoveMore(s.pool, Ids(stopped), id);
      OfKindAppend(s.tasks, stopped, id, T.Decode);
      assert Ids(stopped + [id]) == Ids(stopped) + {id};
    } else {
      assert stopped + [] == stopped;
    }
  }

  /** `Scheduler.update`: drops the stopped tasks from the pool and returns those that hold a cache. */
  method DropStopped(r: Rank, ids: seq<TaskId>, ghost s: State) returns (removed: seq<TaskId>)
    requires r.Holds(s) && r.threshold == s.threshold && Distinct(s.pool) && Distinct(ids)
    requires forall id :: id in ids ==> id in s.pool && id in s.tasks
    modifies r`pool, r`idList, r`threshold
    ensures r.Holds(Removing(s, ids)) && removed == Freed(s, ids)
    ensures r.threshold == if removed != [] then s.cache.numBlocks else s.threshold
  {
    hide Rank.Holds, Removing, Freed, RemoveIds;
    removed := [];
    RemovingNone(s);
    for i := 0 to |ids|
      invariant r.Holds(Removing(s, ids[..i])) && removed == Freed(s, ids[..i])
      invariant r.threshold == if removed != [] then s.cache.numBlocks else s.threshold
    {
      var id := ids[i];
      assert ids[..i + 1] == ids[..i] + [id];
      RemovingNext(s, ids[..i], id);
      var stopped, decoding := Inspect(r, id, s, Removing(s, ids[..i]));
      if stopped {
        if decoding {
          removed := removed + [id];
          LiftThreshold(r, Removing(s, ids[..i]));
        }
        RemoveTask(r, id, Removing(s, ids[..i]));
      }
    }
    assert ids[..|ids|] == ids;
  }

  method Inspect(r: Rank, id: TaskId, ghost s: State, ghost now: State) returns (stopped: bool, decoding: bool)
    requires r.Holds(now) && id in now.pool && id in s.tasks && now.tasks == s.tasks && now.cache == s.cache
    ensures stopped == (s.tasks[id].status == T.Stopped) && decoding == (s.tasks[id].kind == T.Decode)
    ensures r.Holds(now) && r.cache.numBlocks == s.cache.numBlocks
  {
    hide QueueDenotes, Contents;
    var t := r.pool[id];
    return t.status == T.Stopped, t.kind == T.Decode;
  }

  method LiftThreshold(r: Rank, ghost s: State)
    requires r.Holds(s)
    modifies r`threshold
    ensures r.Holds(s) && r.threshold == s.cache.numBlocks
  {
    hide QueueDenotes, Contents, PoolLists, Task.Abs;
    r.threshold := r.cache.numBlocks;
  }

  /** `remove_kvcache_all_device`. */
  method ReleaseAll(r: Rank, ids: seq<TaskId>, ghost s: State)
    requires r.Holds(s) && CacheInv(s.cache)
    modifies r.cache`freeBlocks, r.cache`blockTable, r.cache`seqLens
    ensures r.Holds(s.(cache := FinalizeAll(s.cache, ids), contents := s.contents - Ids(ids)))
  {
    hide Rank.Holds, CacheInv, Finalize;
    ghost var now := s;
    assert ids[0..] == ids && s.contents - {} == s.contents;
    for i := 0 to |ids|
      invariant r.Holds(now) && CacheInv(now.cache)
      invariant now == s.(cache := now.cache, contents := s.contents - Ids(ids[..i]))
      invariant FinalizeAll(now.cache, ids[i..]) == FinalizeAll(s.cache, ids)
    {
      assert ids[i..][0] == ids[i] && ids[i..][1..] == ids[i + 1..];
      assert ids[..i + 1] == ids[..i] + [ids[i]];
      FinalizeKeeps(now.cache, ids[i]);
      RemoveOneMore(s.contents, ids[..i], ids[i]);
      r.ReleaseCache(ids[i], now);
      now := now.(cache := Finalize(now.cache, ids[i]), contents := now.contents - {ids[i]});
    }
    assert ids[..|ids|] == ids;
  }

  lemma RemoveOneMore<V>(m: map<TaskId, V>, ids: seq<TaskId>, id: TaskId)
    ensures m - Ids(ids) - {id} == m - Ids(ids + [id])
  {
  }

  lemma UpdateIs(s: State, ids: seq<TaskId>)
    requires forall id :: id in ids ==> id in s.tasks
    ensures var (now, freed) := (Removing(s, ids), Freed(s, ids));
      Update(s, ids) == now.(cache := FinalizeAll(now.cache, freed), contents := now.contents - Ids(freed))
        .(threshold := if freed != [] then s.cache.numBlocks else s.threshold)
  {
  }

  /** `Scheduler.update` and the release of the finished requests' caches, over the batch in the order
      in which the source's set is enumerated. */
  method UpdateAndRelease(r: Rank, ids: seq<TaskId>)
    requires r.Valid() && CacheInv(r.st.cache) && Distinct(r.st.pool) && Distinct(ids)
    requires forall id :: id in ids ==> id in r.st.pool && id in r.st.tasks
    modifies r`pool, r`idList, r`threshold, r`st, r.cache`freeBlocks, r.cache`blockTable, r.cache`seqLens
    ensures r.Valid() && r.st == Update(old(r.st), ids)
  {
    hide Rank.Holds, CacheInv, Removing, Freed, Update, FinalizeAll;
    ghost var s := r.st;
    var removed := DropStopped(r, ids, s);
    RemovingCache(s, ids);
    ReleaseAll(r, removed, Removing(s, ids));
    UpdateIs(s, ids);
    ghost var now := Removing(s, ids);
    r.Commit(r.threshold, now.(cache := FinalizeAll(now.cache, removed), contents := now.contents - Ids(removed)),
        Update(s, ids));
  }

  lemma RemovingCache(s: State, ids: seq<TaskId>)
    requires forall id :: id in ids ==> id in s.tasks
    ensures Removing(s, ids).cache == s.cache
  {
  }

  // ----- The loop body -----

  /** `empty_step`. */
  method EmptyStep(r: Rank)
    requires r.Valid()
    modifies r`lastBatchResults, r`threshold, r`st, r.all.Values
    ensures r.Valid() && r.st == Deliver(old(r.st))
  {
    hide Rank.Holds, Deliver;
    ghost var s := r.st;
    r.PostprocessAsync(s);
    DeliverThreshold(s);
    r.Commit(r.threshold, Deliver(s), Deliver(s));
  }

  lemma DeliverThreshold(s: State)
    ensures Deliver(s).threshold == s.threshold
  {
  }

  lemma OrderFacts(cfg: Config, s: State, ch: Choice)
    requires Inv(cfg, s) && WellTyped(s) && Fair(s, ch)
    ensures Core(cfg, s) && Distinct(ch.order) && forall id :: id in ch.order ==> id in s.pool
    ensures IsOrder(s, ch.order) && forall b :: multiset(ch.shuffle(b)) == multiset(b)
  {
    hide LocalIn, CacheInv, IsOrder;
    OrderIsPool(cfg, s, ch.order);
  }

  lemma BatchFacts(cfg: Config, s: State, e: State, batch: seq<TaskId>)
    requires Scheduled(cfg, s, e, batch)
    ensures Core(cfg, e) && Admitted(e, batch) && Runnable(e, batch)
  {
    hide LocalIn, CacheInv, NeedAll, SameRun;
  }

  lemma ComputedFacts(cfg: Config, e: State, batch: seq<TaskId>, ids: seq<TaskId>, c: State)
    requires Core(cfg, e) && Admitted(e, batch) && Compute(cfg, e, batch) == Ok(c) && multiset(ids) == multiset(batch)
    ensures CacheInv(c.cache) && Distinct(c.pool) && Distinct(ids)
    ensures forall id :: id in ids ==> id in c.pool && id in c.tasks
  {
    hide LocalIn, CacheInv, NeedAll, Compute, JustRan, Runnable;
    ComputeKeeps(cfg, e, batch);
    DistinctPermutation(batch, ids);
  }

  lemma FinishIs(cfg: Config, e: State, batch: seq<TaskId>, ids: seq<TaskId>, c: State, t: State)
    requires batch != [] && Runnable(e, batch) && Compute(cfg, e, batch) == Ok(c)
    requires (forall id :: id in ids ==> id in c.tasks) && t == Update(c, ids)
    ensures FinishTo(cfg, e, batch, ids, t)
  {
    hide Compute, Update;
  }

  method StepAndUpdate(r: Rank, batch: seq<TaskId>, ids: seq<TaskId>, ghost s: State)
    requires r.Valid() && Scheduled(r.cfg, s, r.st, batch) && batch != [] && multiset(ids) == multiset(batch)
    modifies r, r.all.Values, r.cache.Repr()
    ensures r.Valid() && FinishTo(r.cfg, old(r.st), batch, ids, r.st)
  {
    hide Core, Rank.Valid, Scheduled, Admitted, Compute, Update, FinishTo, CacheInv, Runnable;
    ghost var e := r.st;
    BatchFacts(r.cfg, s, e, batch);
    Step(r, batch);
    ghost var c := r.st;
    ComputedFacts(r.cfg, e, batch, ids, c);
    UpdateAndRelease(r, ids);
    FinishIs(r.cfg, e, batch, ids, c, r.st);
  }

  lemma PassIs(cfg: Config, s: State, ch: Choice, e: State, batch: seq<TaskId>, t: State)
    requires WellTyped(s) && Fair(s, ch) && (forall id :: id in ch.order ==> id in s.pool)
    requires Serving.Schedule(cfg, s, ch.order) == Ok((e, batch)) && FinishTo(cfg, e, batch, ch.shuffle(batch), t)
    ensures PassTo(cfg, s, ch, t)
  {
    hide Serving.Schedule, FinishTo;
  }

  lemma EmptyIs(cfg: Config, e: State, ids: seq<TaskId>)
    ensures FinishTo(cfg, e, [], ids, Deliver(e))
  {
  }

  lemma Agreed(x: Outcome<(State, seq<TaskId>)>, o: Outcome<seq<TaskId>>, t: State)
    requires Agree(x, o, t)
    ensures o.Raised? <==> x.Raised?
    ensures o.Raised? ==> x == Raised(o.error)
    ensures o.Ok? ==> x == Ok((t, o.value))
  {
  }

  /** Scheduling of a pass: a batch that can be allocated, or a capacity error. */
  method ScheduleBatch(r: Rank, ch: Choice) returns (o: Outcome<seq<TaskId>>)
    requires r.Valid() && Inv(r.cfg, r.st) && WellTyped(r.st) && Fair(r.st, ch)
    modifies r, r.all.Values, r.cache.Repr()
    ensures (forall id :: id in ch.order ==> id in old(r.st).pool) && r.all == old(r.all)
    ensures o.Raised? <==> Serving.Schedule(r.cfg, old(r.st), ch.order).Raised?
    ensures o.Raised? ==> o.error == PrefillCapacity || o.error == DecodeCapacity
    ensures o.Ok? ==> r.Valid() && Serving.Schedule(r.cfg, old(r.st), ch.order) == Ok((r.st, o.value))
    ensures o.Ok? ==> Scheduled(r.cfg, old(r.st), r.st, o.value)
  {
    hide Inv, Core, Rank.Valid, WellTyped, Fair, Scheduled, Serving.Schedule, Agree, IsOrder;
    ghost var s := r.st;
    OrderFacts(r.cfg, s, ch);
    PassTotal(r.cfg, s, ch);
    o := r.Schedule(ch.order);
    Agreed(Serving.Schedule(r.cfg, s, ch.order), o, r.st);
    if o.Ok? {
      ScheduleAdmits(r.cfg, s, ch.order);
    }
  }

  /** `chitu_run_main_rank`: one pass. It raises exactly when scheduling does, and then only a capacity
      error; otherwise it is a pass of a run and leads back into the invariant. */
  method RunMainRank(r: Rank, ch: Choice) returns (o: Outcome<()>)
    requires r.Valid() && Inv(r.cfg, r.st) && WellTyped(r.st) && Fair(r.st, ch)
    modifies r, r.all.Values, r.cache.Repr()
    ensures forall id :: id in ch.order ==> id in old(r.st).pool
    ensures o.Raised? <==> Serving.Schedule(r.cfg, old(r.st), ch.order).Raised?
    ensures o.Raised? ==> o.error == PrefillCapacity || o.error == DecodeCapacity
    ensures o.Ok? ==> r.Valid() && PassTo(r.cfg, old(r.st), ch, r.st) && Inv(r.cfg, r.st)
  {
    hide Inv, Core, Rank.Valid, WellTyped, Fair, PassTo, FinishTo, Scheduled, Deliver, Serving.Schedule, IsOrder;
    ghost var s := r.st;
    OrderFacts(r.cfg, s, ch);
    var batch := ScheduleBatch(r, ch);
    if batch.Raised? {
      return Raised(batch.error);
    }
    ghost var e := r.st;
    if batch.value == [] {
      EmptyStep(r);
      EmptyIs(r.cfg, e, ch.shuffle([]));
    } else {
      StepAndUpdate(r, batch.value, ch.shuffle(batch.value), s);
    }
    PassIs(r.cfg, s, ch, e, batch.value, r.st);
    PassKeeps(r.cfg, s, ch, r.st);
    o := Ok(());
  }
}

