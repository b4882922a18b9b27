/**
 The executor's step with overlapped scheduling over live objects. `generated` holds the result tensors
 that the source leaves on the task objects, by request. The step is proved to be a step of `Overlap`.
 */
module OverlapLoop {
  import opened Base
  import opened LanguageModel
  import opened CacheSpec
  import opened PagedRefinement
  import opened PagedCache
  import opened Tasks
  import T = TaskSpec
  import opened Serving
  import opened Engine
  import opened MainLoop
  import O = Overlap

  class OverlapExecutor {
    const rank: Rank
    var generated: map<TaskId, nat>

    constructor (rank: Rank)
      ensures this.rank == rank && generated == map[]
    {
      this.rank, generated := rank, map[];
    }
  }

  /** The objects are in the overlap state o. */
  ghost predicate Holds(e: OverlapExecutor, o: O.OState)
    reads e`generated, e.rank`all, e.rank`idList, e.rank`pool, e.rank`lastBatchResults, e.rank.all.Values,
      e.rank.cache.Repr()
  {
    e.rank.Holds(o.s) && e.generated == o.pending
  }

  /** `has_model_run` of the batch, looked at before its results are synchronised. */
  method ModelRuns(r: Rank, batch: seq<TaskId>, ghost s: State) returns (runs: seq<TaskId>)
    requires r.Holds(s) && Runnable(s, batch)
    ensures r.Holds(s) && (forall id :: id in batch ==> id in s.tasks) && runs == O.Running(s.tasks, batch)
  {
    hide Rank.Holds, Task.Abs, O.Running;
    runs := [];
    assert batch[0..] == batch;
    for i := 0 to |batch|
      invariant r.Holds(s) && runs + O.Running(s.tasks, batch[i..]) == O.Running(s.tasks, batch)
    {
      RunningStep(r, s, batch, i);
      if r.pool[batch[i]].status == T.Normal {
        runs := runs + [batch[i]];
      }
    }
    RunningEnd(s, batch[|batch|..]);
  }

  lemma RunningStep(r: Rank, s: State, batch: seq<TaskId>, i: nat)
    requires r.Holds(s) && Runnable(s, batch) && i < |batch|
    ensures batch[i] in r.pool && forall id :: id in batch ==> id in s.tasks
    ensures O.Running(s.tasks, batch[i..])
      == (if r.pool[batch[i]].status == T.Normal then [batch[i]] else []) + O.Running(s.tasks, batch[i + 1..])
  {
    hide Rank.Holds;
    PoolMembers(r, s);
    assert batch[i] in batch && r.pool[batch[i]].Abs() == s.tasks[batch[i]];
    assert batch[i..][0] == batch[i] && batch[i..][1..] == batch[i + 1..];
  }

  lemma RunningEnd(s: State, ids: seq<TaskId>)
    requires ids == []
    ensures O.Running(s.tasks, ids) == []
  {
  }

  /** The concatenation of the results of the batch. */
  method CollectResults(e: OverlapExecutor, batch: seq<TaskId>, ghost o: O.OState) returns (tokens: seq<Token>)
    requires Holds(e, o)
    ensures Holds(e, o) && tokens == O.Collect(o.pending, batch)
  {
    hide Rank.Holds;
    tokens := [];
    assert batch[0..] == batch;
    for i := 0 to |batch|
      invariant tokens + O.Collect(o.pending, batch[i..]) == O.Collect(o.pending, batch)
    {
      assert batch[i..][0] == batch[i] && batch[i..][1..] == batch[i + 1..];
      if batch[i] in e.generated {
        tokens := tokens + [e.generated[batch[i]]];
      }
    }
  }

  // ----- Synchronisation -----

  /** The tasks after the synchronisation of a batch all of whose results are there. */
  lemma SyncTasks(cfg: Config, o: O.OState, batch: seq<TaskId>, id: TaskId)
    requires Runnable(o.s, batch) && Distinct(batch) && O.AllPending(o.pending, batch) && id in o.s.tasks
    ensures |O.Collect(o.pending, batch)| == |batch|
    ensures var m := O.SyncPart(cfg, o, batch);
      && m.s.tasks.Keys == o.s.tasks.Keys
      && (id !in batch ==> m.s.tasks[id] == o.s.tasks[id])
      && (id in batch ==> m.s.tasks[id] == T.Advance(cfg.stops, o.s.tasks[id], o.pending[id]))
  {
    O.SyncEach(cfg, o, batch, id);
  }

  lemma SyncIs(cfg: Config, o: O.OState, batch: seq<TaskId>)
    requires Runnable(o.s, batch) && |O.Collect(o.pending, batch)| == |batch|
    ensures var m := O.SyncPart(cfg, o, batch);
      && m.pending == o.pending - Ids(batch)
      && m.s == Queued(o.s.(tasks := m.s.tasks), batch)
  {
  }

  method AdvanceTasks(r: Rank, tasks: seq<Task>, batch: seq<TaskId>, tokens: seq<Token>, ghost s: State,
      ghost after: map<TaskId, T.Task>)
    requires r.Holds(s) && Live(r, tasks, batch) && |tokens| == |batch| && after.Keys == s.tasks.Keys
    requires forall i :: 0 <= i < |batch| ==>
      batch[i] in s.tasks && after[batch[i]] == T.Advance(r.cfg.stops, s.tasks[batch[i]], tokens[i])
    requires forall id :: id in s.tasks && id !in batch ==> after[id] == s.tasks[id]
    modifies tasks
    ensures r.Holds(s.(tasks := after)) && Live(r, tasks, batch)
  {
    hide Task.Abs, T.Advance, Contents, QueueDenotes;
    ListedIn(r.all, tasks);
    UpdateTasksByResult(r.cfg.stops, tasks, tokens);
    r.BatchApplied(tasks, s.tasks, after);
  }

  /** `postprocess_sync_part` before the model run. */
  method SyncPart(e: OverlapExecutor, batch: seq<TaskId>, ghost o: O.OState)
    requires Holds(e, o) && Runnable(o.s, batch) && Distinct(batch) && O.AllPending(o.pending, batch)
    modifies e`generated, e.rank`lastBatchResults, e.rank.all.Values
    ensures |O.Collect(o.pending, batch)| == |batch| && Holds(e, O.SyncPart(e.rank.cfg, o, batch))
  {
    hide Rank.Holds, Task.Abs, T.Advance, O.SyncPart, O.Collect, Listed, BatchOf, BatchResult;
    O.CollectAligned(o.pending, batch);
    var tokens := CollectResults(e, batch, o);
    var tasks := PoolTasks(e.rank, batch, o.s);
    InAll(e.rank, tasks, batch);
    ghost var m := O.SyncPart(e.rank.cfg, o, batch);
    forall id | id in o.s.tasks
      ensures m.s.tasks.Keys == o.s.tasks.Keys
      ensures id !in batch ==> m.s.tasks[id] == o.s.tasks[id]
      ensures id in batch ==> m.s.tasks[id] == T.Advance(e.rank.cfg.stops, o.s.tasks[id], o.pending[id])
    {
      SyncTasks(e.rank.cfg, o, batch, id);
    }
    TasksKept(e.rank.cfg, o, batch);
    SyncIs(e.rank.cfg, o, batch);
    AdvanceTasks(e.rank, tasks, batch, tokens, o.s, m.s.tasks);
    SyncedTokens(e.rank.cfg, o, batch);
    QueueResult(e.rank, tasks, batch, o.s.(tasks := m.s.tasks));
    SetGenerated(e, e.generated - Ids(batch), m.s);
  }

  method SetGenerated(e: OverlapExecutor, generated: map<TaskId, nat>, ghost s: State)
    requires e.rank.Holds(s)
    modifies e`generated
    ensures e.rank.Holds(s) && e.generated == generated
  {
    e.generated := generated;
  }

  lemma TasksKept(cfg: Config, o: O.OState, batch: seq<TaskId>)
    requires Runnable(o.s, batch) && |O.Collect(o.pending, batch)| == |batch|
    ensures O.SyncPart(cfg, o, batch).s.tasks.Keys == o.s.tasks.Keys
    ensures forall id :: id in batch ==> id in o.s.tasks
  {
    hide O.Collect;
  }

  lemma SyncedTokens(cfg: Config, o: O.OState, batch: seq<TaskId>)
    requires Runnable(o.s, batch) && Distinct(batch) && O.AllPending(o.pending, batch)
    ensures |O.Collect(o.pending, batch)| == |batch|
    ensures forall id :: id in batch && id in o.s.tasks ==> O.SyncPart(cfg, o, batch).s.tasks[id].nextToken >= 0
  {
    hide T.Advance, O.SyncPart, O.Collect;
    O.CollectAligned(o.pending, batch);
    TasksKept(cfg, o, batch);
    forall id | id in batch && id in o.s.tasks
      ensures O.SyncPart(cfg, o, batch).s.tasks[id].nextToken >= 0
    {
      SyncTasks(cfg, o, batch, id);
      T.AdvanceIs(cfg.stops, o.s.tasks[id], o.pending[id]);
    }
  }

  // ----- Model run -----

  lemma EmptyRun(cfg: Config, o: O.OState)
    requires Runnable(o.s, []) && o.s.cache.blockSize > 0
    ensures O.RunPart(cfg, o, []) == Ok(O.OState(Deliver(o.s), o.pending))
  {
    var c := o.s.cache;
    assert Growth(o.s, []) == map[];
    assert Grow(c, map[]).len == c.len;
    assert Prepare(c, [], map[]) == Ok(c);
    assert RunModel(cfg.lm, o.s, []) == o.s.contents;
    assert RunTasks(o.s.tasks, []) == o.s.tasks;
    assert o.s.(cache := c, contents := o.s.contents, tasks := o.s.tasks) == o.s;
    assert o.pending.Keys + Ids([]) == o.pending.Keys;
    assert (map id | id in o.pending.Keys + Ids([]) :: if id in [] then cfg.lm.next(KvOf(o.s.contents, id))
      else o.pending[id]) == o.pending;
  }

  /** The results of a run, added to those that are waiting. */
  ghost function AddResults(cfg: Config, pending: map<TaskId, nat>, contents: map<TaskId, seq<Kv>>,
      runs: seq<TaskId>): map<TaskId, nat> {
    map id | id in pending.Keys + Ids(runs) :: if id in runs then cfg.lm.next(KvOf(contents, id)) else pending[id]
  }

  lemma RunIs(cfg: Config, o: O.OState, runs: seq<TaskId>)
    requires Runnable(o.s, runs) && Prepare(o.s.cache, runs, Growth(o.s, runs)).Ok?
    ensures O.RunPart(cfg, o, runs)
      == Ok(O.OState(Deliver(Bookkept(cfg, o.s, runs)), AddResults(cfg, o.pending, RunModel(cfg.lm, o.s, runs), runs)))
  {
    hide Prepare, RunModel, RunTasks, Deliver;
  }

  lemma NoResults(cfg: Config, pending: map<TaskId, nat>, contents: map<TaskId, seq<Kv>>)
    ensures AddResults(cfg, pending, contents, []) == pending
  {
  }

  lemma OneResult(cfg: Config, pending: map<TaskId, nat>, contents: map<TaskId, seq<Kv>>, runs: seq<TaskId>, id: TaskId)
    ensures AddResults(cfg, pending, contents, runs + [id]) ==
      AddResults(cfg, pending, contents, runs)[id := cfg.lm.next(KvOf(contents, id))]
  {
  }

  /** The waiting results with every new result at its task. */
  method CombineResults(e: OverlapExecutor, runs: seq<TaskId>, out: seq<nat>, ghost s: State,
      ghost contents: map<TaskId, seq<Kv>>)
      returns (all: map<TaskId, nat>)
    requires e.rank.Holds(s) && |out| == |runs| && Distinct(runs)
    requires forall i :: 0 <= i < |runs| ==> out[i] == e.rank.cfg.lm.next(KvOf(contents, runs[i]))
    ensures e.rank.Holds(s) && all == AddResults(e.rank.cfg, e.generated, contents, runs)
  {
    hide Rank.Holds, AddResults;
    all := e.generated;
    NoResults(e.rank.cfg, all, contents);
    for i := 0 to |runs|
      invariant e.rank.Holds(s) && all == AddResults(e.rank.cfg, e.generated, contents, runs[..i])
    {
      assert runs[..i + 1] == runs[..i] + [runs[i]];
      OneResult(e.rank.cfg, e.generated, contents, runs[..i], runs[i]);
      all := all[runs[i] := out[i]];
    }
    assert runs[..|runs|] == runs;
  }

  method LeaveResults(e: OverlapExecutor, runs: seq<TaskId>, out: seq<nat>, ghost s: State,
      ghost contents: map<TaskId, seq<Kv>>)
    requires e.rank.Holds(s) && |out| == |runs| && Distinct(runs)
    requires forall i :: 0 <= i < |runs| ==> out[i] == e.rank.cfg.lm.next(KvOf(contents, runs[i]))
    modifies e`generated
    ensures e.rank.Holds(s) && e.generated == AddResults(e.rank.cfg, old(e.generated), contents, runs)
  {
    hide Rank.Holds, AddResults;
    var all := CombineResults(e, runs, out, s, contents);
    SetGenerated(e, all, s);
  }

  /** Model run, bookkeeping, delivery, and the new results. */
  method RunPart(e: OverlapExecutor, runs: seq<TaskId>, ghost o: O.OState) returns (ghost t: O.OState)
    requires Holds(e, o) && Launchable(o.s, runs)
    modifies e`generated, e.rank`lastBatchResults, e.rank.all.Values, e.rank.cache.Repr()
    ensures Runnable(o.s, runs) && O.RunPart(e.rank.cfg, o, runs) == Ok(t) && Holds(e, t)
  {
    hide Rank.Holds, Task.Abs, Launchable, Prepare, RunModel, Deliver, BatchOf, Listed, Ran, Bookkept, O.RunPart,
      AddResults;
    LaunchFacts(o.s, runs);
    if |runs| == 0 {
      EmptyRun(e.rank.cfg, o);
      e.rank.PostprocessAsync(o.s);
      t := O.OState(Deliver(o.s), o.pending);
    } else {
      var tasks := PoolTasks(e.rank, runs, o.s);
      InAll(e.rank, tasks, runs);
      var out := Launch(e.rank, tasks, runs, o.s);
      RunIs(e.rank.cfg, o, runs);
      Bookkeep(e.rank, tasks, runs, Ran(e.rank.cfg, o.s, runs));
      BookkeptIs(e.rank.cfg, o.s, runs);
      e.rank.PostprocessAsync(Bookkept(e.rank.cfg, o.s, runs));
      LeaveResults(e, runs, out, Deliver(Bookkept(e.rank.cfg, o.s, runs)), RunModel(e.rank.cfg.lm, o.s, runs));
      t := O.OState(Deliver(Bookkept(e.rank.cfg, o.s, runs)),
        AddResults(e.rank.cfg, o.pending, RunModel(e.rank.cfg.lm, o.s, runs), runs));
    }
  }

  lemma LaunchFacts(s: State, runs: seq<TaskId>)
    requires Launchable(s, runs)
    ensures Runnable(s, runs) && Distinct(runs) && s.cache.blockSize > 0
  {
    hide Conserved, NeedAll, Grow;
  }

  // ----- The whole step -----

  /** The free blocks suffice for the tasks of the batch that will run. */
  ghost predicate Enough(o: O.OState, batch: seq<TaskId>) {
    && Runnable(o.s, batch) && batch != [] && o.s.cache.blockSize > 0
        && (forall id :: id in O.Runs(o, batch) ==> id in o.s.tasks)
    && NeedAll(Grow(o.s.cache, O.Grown(o, O.Runs(o, batch))), O.Runs(o, batch)) <= |o.s.cache.free|
  }

  lemma PrefillLaunches(cfg: Config, o: O.OState, batch: seq<TaskId>)
    requires O.Inv(cfg, o) && O.Batched(o, batch) && Enough(o, batch) && o.s.tasks[batch[0]].kind == T.Prefill
    ensures Launchable(o.s, batch)
  {
    hide O.LocalIn, Conserved, NeedAll, Grow;
    O.EnoughFacts(cfg, o, batch);
  }

  lemma DecodeLaunches(cfg: Config, o: O.OState, batch: seq<TaskId>)
    requires O.Inv(cfg, o) && O.Batched(o, batch) && Enough(o, batch) && o.s.tasks[batch[0]].kind == T.Decode
    ensures O.AllPending(o.pending, batch) && |O.Collect(o.pending, batch)| == |batch|
    ensures Launchable(O.SyncPart(cfg, o, batch).s, O.Running(o.s.tasks, batch))
  {
    hide O.LocalIn, O.Local, Conserved, NeedAll, Grow, O.SyncPart, O.Collect, O.Shape;
    O.EnoughFacts(cfg, o, batch);
    O.DecodeBatch(cfg, o, batch);
    O.CollectAligned(o.pending, batch);
    O.SyncShape(cfg, o, batch);
    O.DecodeRunnable(cfg, o, batch);
    SyncedKinds(cfg, o, batch);
    BlocksExist(o.s);
  }

  lemma BlocksExist(s: State)
    requires O.Shape(s)
    ensures s.cache.numBlocks > 0
  {
    hide CacheInv;
  }

  lemma SyncedKinds(cfg: Config, o: O.OState, batch: seq<TaskId>)
    requires Runnable(o.s, batch) && Distinct(batch) && O.AllPending(o.pending, batch)
    requires |O.Collect(o.pending, batch)| == |batch|
    requires forall id :: id in batch ==> o.s.tasks[id].kind == T.Decode
    ensures forall id :: id in batch ==>
      id in O.SyncPart(cfg, o, batch).s.tasks && O.SyncPart(cfg, o, batch).s.tasks[id].kind == T.Decode
  {
    hide T.Advance, O.SyncPart, O.Collect;
    TasksKept(cfg, o, batch);
    forall id | id in batch
      ensures O.SyncPart(cfg, o, batch).s.tasks[id].kind == T.Decode
    {
      SyncTasks(cfg, o, batch, id);
      T.AdvanceIs(cfg.stops, o.s.tasks[id], o.pending[id]);
    }
  }

  method BatchIsPrefill(r: Rank, batch: seq<TaskId>, ghost s: State) returns (b: bool)
    requires r.Holds(s) && Runnable(s, batch) && batch != []
    ensures r.Holds(s) && (b <==> s.tasks[batch[0]].kind == T.Prefill)
  {
    hide Rank.Holds;
    PoolMembers(r, s);
    b := r.pool[batch[0]].kind == T.Prefill;
  }

  /** `Executor.step` with overlapped scheduling: which tasks run is decided before the results of the
      previous step are synchronised. */
  method Step(e: OverlapExecutor, batch: seq<TaskId>, ghost o: O.OState) returns (ghost t: O.OState)
    requires Holds(e, o) && O.Inv(e.rank.cfg, o) && O.Batched(o, batch) && Enough(o, batch)
    modifies e`generated, e.rank`lastBatchResults, e.rank.all.Values, e.rank.cache.Repr()
    ensures Holds(e, t) && O.StepTo(e.rank.cfg, o, batch, t)
  {
    hide Rank.Holds, Launchable, O.Inv, O.RunPart, O.SyncPart, O.Collect, O.Running, Enough;
    var prefill := BatchIsPrefill(e.rank, batch, o.s);
    if prefill {
      PrefillLaunches(e.rank.cfg, o, batch);
      t := RunPart(e, batch, o);
    } else {
      DecodeLaunches(e.rank.cfg, o, batch);
      var runs := ModelRuns(e.rank, batch, o.s);
      SyncPart(e, batch, o);
      t := RunPart(e, runs, O.SyncPart(e.rank.cfg, o, batch));
    }
  }

  lemma BetweenFacts(cfg: Config, t: O.OState, batch: seq<TaskId>, ids: seq<TaskId>)
    requires O.Between(cfg, t, batch) && multiset(ids) == multiset(batch)
    ensures CacheInv(t.s.cache) && Distinct(t.s.pool) && Distinct(ids)
    ensures forall id :: id in ids ==> id in t.s.pool && id in t.s.tasks
  {
    hide CacheInv, O.LocalIn, O.Stepped;
    DistinctPermutation(batch, ids);
  }

  lemma ValidHolds(e: OverlapExecutor, m: O.OState)
    requires e.rank.Valid() && e.generated == m.pending
    ensures Holds(e, m.(s := e.rank.st)) && e.rank.threshold == e.rank.st.threshold
  {
    hide Rank.Holds;
  }

  lemma PassIs(cfg: Config, o: O.OState, batch: seq<TaskId>, ids: seq<TaskId>, m: O.OState)
    requires O.Batched(o, batch) && multiset(ids) == multiset(batch) && O.StepTo(cfg, o, batch, m)
    requires forall id :: id in ids ==> id in m.s.tasks
    ensures O.PassTo(cfg, o, batch, ids, m.(s := Update(m.s, ids)))
  {
    hide O.Batched, O.StepTo, Update;
  }

  /** One pass of the loop with overlapped scheduling, after some batch has been scheduled without an
      eviction. `ids` is the batch in the order in which the update goes through it. */
  method Pass(e: OverlapExecutor, batch: seq<TaskId>, ids: seq<TaskId>, ghost o: O.OState) returns (ghost t: O.OState)
    requires Holds(e, o) && O.Inv(e.rank.cfg, o) && O.Batched(o, batch) && Enough(o, batch)
    requires multiset(ids) == multiset(batch)
    requires e.rank.threshold == o.s.threshold
    modifies e, e.rank, e.rank.all.Values, e.rank.cache.Repr()
    ensures Holds(e, t) && e.rank.threshold == t.s.threshold && O.PassTo(e.rank.cfg, o, batch, ids, t)
    ensures O.Inv(e.rank.cfg, t)
  {
    hide Rank.Holds, O.Inv, O.StepTo, O.Between, Update, Enough, CacheInv;
    ghost var m := Step(e, batch, o);
    O.StepThreshold(e.rank.cfg, o, batch, m);
    O.StepKeeps(e.rank.cfg, o, batch, m);
    BetweenFacts(e.rank.cfg, m, batch, ids);
    e.rank.Commit(e.rank.threshold, m.s, m.s);
    UpdateAndRelease(e.rank, ids);
    t := m.(s := e.rank.st);
    ValidHolds(e, m);
    PassIs(e.rank.cfg, o, batch, ids, m);
    O.PassKeeps(e.rank.cfg, o, batch, ids, t);
  }
}
