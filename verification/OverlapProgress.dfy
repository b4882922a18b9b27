/**
 Progress with overlapped scheduling: every pass brings the requests closer to their completion, and
 with enough cache no pass is ever impossible, so that every request ends up with exactly what the
 synchronous loop serves.
 */
module OverlapProgress {
  import opened Base
  import opened LanguageModel
  import opened CacheSpec
  import opened TaskSpec
  import opened Serving
  import opened Weights
  import opened Overlap
  import I = ServingInvariant
  import R = ServingTheorems

  // ----- Every pass moves its tasks -----

  /** The steps a task still has to take part in: its prefill, and one for every token. */
  function StepsLeft(t: Task): nat {
    R.Remaining(t) + if t.kind == Prefill then 1 else 0
  }

  function StepsOf(tasks: map<TaskId, Task>): map<TaskId, nat> {
    map id | id in tasks :: StepsLeft(tasks[id])
  }

  /** The steps that the requests of the pool still need. */
  function Work(s: State): nat
    requires forall id :: id in s.pool ==> id in s.tasks
  {
    Weight(StepsOf(s.tasks), s.pool)
  }

  /** The tasks of the batch have come closer to their end, the others have not moved. */
  ghost predicate Moved(s: State, batch: seq<TaskId>, t: State) {
    && t.tasks.Keys == s.tasks.Keys && t.pool == s.pool
    && t.cache.numBlocks == s.cache.numBlocks && t.cache.blockSize == s.cache.blockSize
    && forall id :: id in s.tasks ==> MovedTask(s.tasks[id], id in batch, t.tasks[id])
  }

  ghost predicate MovedTask(t: Task, ran: bool, u: Task) {
    u.req == t.req && if ran then StepsLeft(u) < StepsLeft(t) else u == t
  }

  lemma RunSizes(cfg: Config, o: OState, runs: seq<TaskId>, t: OState)
    requires Runnable(o.s, runs) && RunPart(cfg, o, runs) == Ok(t) && CacheInv(o.s.cache) && Distinct(runs)
    ensures t.s.cache.numBlocks == o.s.cache.numBlocks && t.s.cache.blockSize == o.s.cache.blockSize
  {
    hide CacheInv, NeedAll, Extend, Input, AfterRun, AddData;
    PrepareKeeps(o.s.cache, runs, Growth(o.s, runs));
    hide Prepare;
  }

  lemma PrefillMoves(cfg: Config, o: OState, batch: seq<TaskId>, t: OState)
    requires Inv(cfg, o) && Batched(o, batch) && o.s.tasks[batch[0]].kind == Prefill && RunPart(cfg, o, batch) == Ok(t)
    ensures Moved(o.s, batch, t.s)
  {
    hide RunPart, Local, Consume, NextTokens, CacheInv;
    RunSizes(cfg, o, batch, t);
    forall id | id in o.s.tasks
      ensures id in t.s.tasks && MovedTask(o.s.tasks[id], id in batch, t.s.tasks[id])
    {
      RunEach(cfg, o, batch, t, id);
      if id in batch {
        PrefillEach(cfg, o, batch, id);
        ConsumedSteps(cfg, o.s.tasks[id], KvOf(o.s.contents, id));
      }
    }
    RunEach(cfg, o, batch, t, batch[0]);
  }

  lemma ConsumedSteps(cfg: Config, t: Task, kv: seq<Kv>)
    requires Local(cfg, t, true, false, kv, None) && t.kind == Prefill
    ensures MovedTask(t, true, Consume(t))
  {
  }

  lemma DecodeMoves(cfg: Config, o: OState, batch: seq<TaskId>, m: OState, t: OState)
    requires Inv(cfg, o) && Batched(o, batch) && o.s.tasks[batch[0]].kind == Decode
    requires |Collect(o.pending, batch)| == |batch| && m == SyncPart(cfg, o, batch)
    requires Runnable(m.s, Running(o.s.tasks, batch)) && RunPart(cfg, m, Running(o.s.tasks, batch)) == Ok(t)
    ensures Moved(o.s, batch, t.s)
  {
    hide LocalIn, Local, RunPart, SyncPart, Running, Collect, Advance, AddData, BatchResult, CacheInv, MovedTask;
    var runs := Running(o.s.tasks, batch);
    DecodeBatch(cfg, o, batch);
    SyncShape(cfg, o, batch);
    RunningDistinct(o.s.tasks, batch);
    RunSizes(cfg, m, runs, t);
    forall id | id in o.s.tasks
      ensures id in t.s.tasks && MovedTask(o.s.tasks[id], id in batch, t.s.tasks[id])
    {
      DecodeMovesTask(cfg, o, batch, m, t, id);
    }
    RunEach(cfg, m, runs, t, batch[0]);
  }

  lemma DecodeMovesTask(cfg: Config, o: OState, batch: seq<TaskId>, m: OState, t: OState, id: TaskId)
    requires Inv(cfg, o) && Batched(o, batch) && o.s.tasks[batch[0]].kind == Decode && id in o.s.tasks
    requires |Collect(o.pending, batch)| == |batch| && m == SyncPart(cfg, o, batch)
    requires Runnable(m.s, Running(o.s.tasks, batch)) && RunPart(cfg, m, Running(o.s.tasks, batch)) == Ok(t)
    ensures id in t.s.tasks && MovedTask(o.s.tasks[id], id in batch, t.s.tasks[id])
  {
    hide LocalIn, Local, RunPart, SyncPart, Running, Collect, Advance, CacheInv, Greedy;
    var runs := Running(o.s.tasks, batch);
    DecodeBatch(cfg, o, batch);
    SyncShape(cfg, o, batch);
    SyncEach(cfg, o, batch, id);
    RunEach(cfg, m, runs, t, id);
    if id in batch {
      ReceivedSteps(cfg, o.s.tasks[id], KvOf(o.s.contents, id));
    }
  }

  lemma ReceivedSteps(cfg: Config, t: Task, kv: seq<Kv>)
    requires Local(cfg, t, true, true, kv, Some(Greedy(cfg.lm, t.prefix)))
    ensures var u := Advance(cfg.stops, t, Greedy(cfg.lm, t.prefix));
      u.req == t.req && u.kind == Decode && u.numNew == t.numNew + 1 && t.numNew < Cap(t.req)
  {
    hide Greedy, Naive, Generate;
  }

  lemma StepMoves(cfg: Config, o: OState, batch: seq<TaskId>, t: OState)
    requires Inv(cfg, o) && Batched(o, batch) && StepTo(cfg, o, batch, t)
    ensures Moved(o.s, batch, t.s)
  {
    hide Inv, Moved, RunPart, SyncPart, Running, Collect;
    if o.s.tasks[batch[0]].kind == Prefill {
      PrefillMoves(cfg, o, batch, t);
    } else {
      DecodeMoves(cfg, o, batch, SyncPart(cfg, o, batch), t);
    }
  }

  /** What a pass leaves as it is, and that it makes progress. */
  ghost predicate Advances(s: State, t: State) {
    && (forall id :: id in s.pool ==> id in s.tasks) && (forall id :: id in t.pool ==> id in t.tasks && id in s.pool)
    && t.tasks.Keys == s.tasks.Keys && (forall id :: id in s.tasks ==> t.tasks[id].req == s.tasks[id].req)
    && t.cache.numBlocks == s.cache.numBlocks && t.cache.blockSize == s.cache.blockSize
    && Work(t) < Work(s)
  }

  lemma MovedWork(s: State, batch: seq<TaskId>, t: State)
    requires Moved(s, batch, t) && (forall id :: id in s.pool ==> id in s.tasks)
    requires batch != [] && forall id :: id in batch ==> id in s.pool
    ensures (forall id :: id in t.pool ==> id in t.tasks) && Work(t) < Work(s)
  {
    WeightMono(StepsOf(s.tasks), StepsOf(t.tasks), s.pool);
    assert batch[0] in s.pool && StepsOf(t.tasks)[batch[0]] < StepsOf(s.tasks)[batch[0]];
  }

  /** Every pass strictly decreases the steps that are left. */
  lemma PassAdvances(cfg: Config, o: OState, batch: seq<TaskId>, ids: seq<TaskId>, t: OState)
    requires Inv(cfg, o) && PassTo(cfg, o, batch, ids, t)
    ensures Advances(o.s, t.s)
  {
    hide Inv, StepTo, Between, Update, Moved, Advances;
    var m :| StepTo(cfg, o, batch, m) && (forall id :: id in ids ==> id in m.s.tasks) && t == m.(s := Update(m.s, ids));
    StepMoves(cfg, o, batch, m);
    StepKeeps(cfg, o, batch, m);
    PoolIn(cfg, o);
    MovedWork(o.s, batch, m.s);
    UpdateSizes(cfg, m, batch, ids);
    UpdateAdvances(o.s, batch, m.s, ids, t.s);
  }

  lemma UpdateAdvances(s: State, batch: seq<TaskId>, m: State, ids: seq<TaskId>, t: State)
    requires Moved(s, batch, m)
    requires (forall id :: id in s.pool ==> id in s.tasks) && forall id :: id in ids ==> id in m.tasks
    requires Work(m) < Work(s)
    requires t.tasks == m.tasks && t.pool == RemoveIds(m.pool, Ids(StoppedOf(m.tasks, ids)))
    requires t.cache.numBlocks == m.cache.numBlocks && t.cache.blockSize == m.cache.blockSize
    ensures Advances(s, t)
  {
    hide StepsLeft, Weight, StoppedOf;
    WeightRemove(StepsOf(m.tasks), m.pool, Ids(StoppedOf(m.tasks, ids)));
  }

  lemma PoolIn(cfg: Config, o: OState)
    requires Inv(cfg, o)
    ensures (forall id :: id in o.s.pool ==> id in o.s.tasks) && Distinct(o.s.pool) && o.s.cache.blockSize > 0
  {
    hide LocalIn, Conserved;
  }

  lemma UpdateSizes(cfg: Config, m: OState, batch: seq<TaskId>, ids: seq<TaskId>)
    requires Between(cfg, m, batch) && multiset(ids) == multiset(batch)
    requires forall id :: id in ids ==> id in m.s.tasks
    ensures var t := Update(m.s, ids);
      && t.tasks == m.s.tasks && t.pool == RemoveIds(m.s.pool, Ids(StoppedOf(m.s.tasks, ids)))
      && t.cache.numBlocks == m.s.cache.numBlocks && t.cache.blockSize == m.s.cache.blockSize
  {
    hide CacheInv, LocalIn, Stepped, FinalizeAll;
    FinalizeAllKeeps(m.s.cache, OfKind(m.s.tasks, StoppedOf(m.s.tasks, ids), Decode));
  }

  // ----- With enough cache every pass is possible -----

  /** The blocks a request may come to need. */
  function Budget(c: Cache, r: Request): nat
    requires c.blockSize > 0
  {
    CeilDiv(|r.prompt| + Cap(r) - 1, c.blockSize)
  }

  function Budgets(c: Cache, tasks: map<TaskId, Task>): map<TaskId, nat>
    requires c.blockSize > 0
  {
    map id | id in tasks :: Budget(c, tasks[id].req)
  }

  /** All requests of the pool fit into the cache together. */
  ghost predicate AllFitTogether(s: State) {
    && s.cache.blockSize > 0 && (forall id :: id in s.pool ==> id in s.tasks)
    && Weight(Budgets(s.cache, s.tasks), s.pool) <= s.cache.numBlocks
  }

  function Held(table: map<TaskId, seq<nat>>, ids: seq<TaskId>): map<TaskId, nat> {
    map id | id in ids :: if id in table then |table[id]| else 0
  }

  /** The blocks in the table are those of the listed requests. */
  lemma {:induction false} HeldIsOwned(table: map<TaskId, seq<nat>>, w: map<TaskId, nat>, ids: seq<TaskId>)
    requires Distinct(ids) && table.Keys <= Ids(ids)
    requires forall id :: id in ids ==> id in w && w[id] == if id in table then |table[id]| else 0
    ensures |Owned(table)| == Weight(w, ids)
    decreases |ids|
  {
    if ids == [] {
      assert table == map[];
    } else {
      var rest := table - {ids[0]};
      OwnedRow(table, ids[0]);
      assert forall id :: id in ids[1..] ==> id != ids[0];
      IdsCons(ids);
      HeldIsOwned(rest, w, ids[1..]);
    }
  }

  /** Blocks of the pool plus free blocks are all blocks. */
  lemma FreeIsRest(c: Cache, pool: seq<TaskId>)
    requires CacheInv(c) && Distinct(pool) && c.table.Keys <= Ids(pool)
    ensures Weight(Held(c.table, pool), pool) + |c.free| == c.numBlocks
  {
    HeldIsOwned(c.table, Held(c.table, pool), pool);
    assert |multiset(c.free)| + |Owned(c.table)| == |multiset(Range(c.numBlocks))|;
    assert |multiset(c.free)| == |c.free|;
  }

  /** What the listed requests need is within what they may still take. */
  lemma {:induction false} NeedWithin(c: Cache, spare: map<TaskId, nat>, ids: seq<TaskId>)
    requires c.blockSize > 0
    requires forall id :: id in ids ==> id in spare && Need(c, id, LenOf(c, id)) <= spare[id]
    ensures NeedAll(c, ids) <= Weight(spare, ids)
    decreases |ids|
  {
    if ids != [] {
      NeedWithin(c, spare, ids[1..]);
    }
  }

  /** A live request holds at most its budget. */
  lemma HeldWithin(cfg: Config, o: OState, id: TaskId)
    requires Inv(cfg, o) && id in o.s.pool
    ensures id in o.s.tasks && o.s.cache.blockSize > 0
    ensures |BlocksOf(o.s.cache, id)| <= Budget(o.s.cache, o.s.tasks[id].req)
  {
    hide Conserved, LocalIn, CeilDiv;
    CachedLength(cfg, o, id);
    var r := o.s.tasks[id].req;
    if id in o.s.cache.table {
      CeilDivMono(o.s.cache.len[id], |r.prompt| + Cap(r) - 1, o.s.cache.blockSize);
    }
  }

  lemma CachedLength(cfg: Config, o: OState, id: TaskId)
    requires Inv(cfg, o) && id in o.s.pool
    ensures id in o.s.tasks
    ensures id in o.s.cache.len ==> o.s.cache.len[id] <= |o.s.tasks[id].req.prompt| + Cap(o.s.tasks[id].req) - 1
  {
    hide CacheInv, Local;
    assert LocalIn(cfg, o, id);
    PrefixLength(cfg, o.s.tasks[id], id in o.s.cache.len, KvOf(o.s.contents, id), PendingOf(o.pending, id));
  }

  lemma PrefixLength(cfg: Config, t: Task, cached: bool, kv: seq<Kv>, pending: Option<Token>)
    requires Local(cfg, t, true, cached, kv, pending)
    ensures |kv| <= |t.req.prompt| + Cap(t.req) - 1
  {
    hide Naive, Generate, Greedy;
  }

  /** So does a request that runs, once it has run. */
  lemma NeedOfRun(cfg: Config, o: OState, batch: seq<TaskId>, id: TaskId)
    requires Inv(cfg, o) && Batched(o, batch) && id in Runs(o, batch)
    ensures id in o.s.pool && id in o.s.tasks && o.s.cache.blockSize > 0
    ensures (forall x :: x in Runs(o, batch) ==> x in o.s.tasks)
    ensures var g := Grow(o.s.cache, Grown(o, Runs(o, batch)));
      && |BlocksOf(o.s.cache, id)| <= Budget(o.s.cache, o.s.tasks[id].req)
      && Need(g, id, LenOf(g, id)) <= Budget(o.s.cache, o.s.tasks[id].req) - |BlocksOf(o.s.cache, id)|
  {
    hide Inv, CeilDiv, LenOf;
    HeldWithin(cfg, o, id);
    RunLength(cfg, o, batch, id);
    var (c, r) := (o.s.cache, o.s.tasks[id].req);
    var g := Grow(c, Grown(o, Runs(o, batch)));
    CeilDivMono(LenOf(g, id), |r.prompt| + Cap(r) - 1, c.blockSize);
  }

  lemma RunLength(cfg: Config, o: OState, batch: seq<TaskId>, id: TaskId)
    requires Inv(cfg, o) && Batched(o, batch) && id in Runs(o, batch)
    ensures id in o.s.pool && id in o.s.tasks && (forall x :: x in Runs(o, batch) ==> x in o.s.tasks)
    ensures var r := o.s.tasks[id].req;
      LenOf(Grow(o.s.cache, Grown(o, Runs(o, batch))), id) <= |r.prompt| + Cap(r) - 1
  {
    hide CacheInv, Track, Local;
    assert LocalIn(cfg, o, id);
    var t := o.s.tasks[id];
    assert LenOf(o.s.cache, id) == |KvOf(o.s.contents, id)|;
    GrownLength(cfg, t, id in o.s.cache.len, KvOf(o.s.contents, id), PendingOf(o.pending, id));
  }

  lemma GrownLength(cfg: Config, t: Task, cached: bool, kv: seq<Kv>, pending: Option<Token>)
    requires Local(cfg, t, true, cached, kv, pending) && (t.kind == Prefill || HasModelRun(t))
    ensures |kv| + (if t.kind == Prefill then |t.prefix| else 1) <= |t.req.prompt| + Cap(t.req) - 1
  {
    hide Naive, Generate, Greedy;
  }

  /** Whatever the listed requests need within their budgets, the free blocks cover it. */
  lemma FreeCovers(cfg: Config, o: OState, need: map<TaskId, nat>, ids: seq<TaskId>)
    requires Inv(cfg, o) && AllFitTogether(o.s) && Distinct(ids)
    requires forall id :: id in ids ==>
      && id in o.s.pool && id in o.s.tasks && id in need
      && need[id] + |BlocksOf(o.s.cache, id)| <= Budget(o.s.cache, o.s.tasks[id].req)
    ensures Weight(need, ids) <= |o.s.cache.free|
  {
    hide Inv, BlocksOf, CeilDiv, Budget, Weight;
    PoolIn(cfg, o);
    CachedInPool(cfg, o);
    var (c, pool) := (o.s.cache, o.s.pool);
    var budgets, held := Budgets(c, o.s.tasks), Held(c.table, pool);
    forall id | id in pool
      ensures held[id] == |BlocksOf(c, id)| <= budgets[id]
    {
      HeldWithin(cfg, o, id);
      HeldIs(c, pool, id);
    }
    var spare: map<TaskId, nat> := map id | id in pool :: budgets[id] - held[id];
    WeightMono(spare, need, ids);
    WeightSubset(spare, ids, pool);
    WeightSum(spare, held, budgets, pool);
    CacheOk(cfg, o);
    FreeIsRest(c, pool);
  }

  lemma CacheOk(cfg: Config, o: OState)
    requires Inv(cfg, o)
    ensures CacheInv(o.s.cache)
  {
    hide CacheInv, LocalIn;
  }

  /** The free blocks cover every batch. */
  lemma BatchFits(cfg: Config, o: OState, batch: seq<TaskId>)
    requires Inv(cfg, o) && AllFitTogether(o.s) && Batched(o, batch)
    ensures forall id :: id in Runs(o, batch) ==> id in o.s.tasks
    ensures NeedAll(Grow(o.s.cache, Grown(o, Runs(o, batch))), Runs(o, batch)) <= |o.s.cache.free|
  {
    hide Inv, Runs, Grow, Need, BlocksOf, CeilDiv, NeedAll, Budget, Weight, AllFitTogether;
    EnoughFacts(cfg, o, batch);
    var runs := Runs(o, batch);
    var g := Grow(o.s.cache, Grown(o, runs));
    GrowSize(o.s.cache, Grown(o, runs));
    var need: map<TaskId, nat> := map id | id in runs :: Need(g, id, LenOf(g, id));
    forall id | id in runs
      ensures id in o.s.pool && id in o.s.tasks
      ensures need[id] + |BlocksOf(o.s.cache, id)| <= Budget(o.s.cache, o.s.tasks[id].req)
    {
      NeedOfRun(cfg, o, batch, id);
    }
    NeedWithin(g, need, runs);
    FreeCovers(cfg, o, need, runs);
  }

  lemma HeldIs(c: Cache, pool: seq<TaskId>, id: TaskId)
    requires id in pool
    ensures Held(c.table, pool)[id] == |BlocksOf(c, id)|
  {
  }

  lemma CachedInPool(cfg: Config, o: OState)
    requires Inv(cfg, o)
    ensures o.s.cache.table.Keys <= Ids(o.s.pool)
  {
    hide Conserved, Track;
    forall id | id in o.s.cache.table
      ensures id in o.s.pool
    {
      assert LocalIn(cfg, o, id);
    }
  }

  /** With enough cache every batch can be run, and the pass leads back into the invariant and again
      leaves enough cache. */
  lemma PassPossible(cfg: Config, o: OState, batch: seq<TaskId>, ids: seq<TaskId>) returns (t: OState)
    requires Inv(cfg, o) && AllFitTogether(o.s) && Batched(o, batch) && multiset(ids) == multiset(batch)
    ensures PassTo(cfg, o, batch, ids, t) && Inv(cfg, t) && AllFitTogether(t.s)
  {
    hide Inv, StepTo, Batched, Between, Update, AllFitTogether, Advances;
    StepWhenEnough(cfg, o, batch);
    BatchFits(cfg, o, batch);
    var m :| StepTo(cfg, o, batch, m);
    StepKeeps(cfg, o, batch, m);
    BetweenIn(cfg, m, batch, ids);
    t := m.(s := Update(m.s, ids));
    PassKeeps(cfg, o, batch, ids, t);
    PassAdvances(cfg, o, batch, ids, t);
    StillFit(cfg, o, t);
  }

  lemma BetweenIn(cfg: Config, m: OState, batch: seq<TaskId>, ids: seq<TaskId>)
    requires Between(cfg, m, batch) && multiset(ids) == multiset(batch)
    ensures forall id :: id in ids ==> id in m.s.tasks
  {
    hide Shape, LocalIn, Stepped;
    SameElements(ids, batch);
  }

  lemma StillFit(cfg: Config, o: OState, t: OState)
    requires Inv(cfg, t) && AllFitTogether(o.s) && Advances(o.s, t.s)
    ensures AllFitTogether(t.s)
  {
    hide Inv, Work, Weight, CeilDiv;
    PoolIn(cfg, t);
    var w := Budgets(o.s.cache, o.s.tasks);
    assert Budgets(t.s.cache, t.s.tasks) == w;
    WeightSubset(w, t.s.pool, o.s.pool);
  }

  /** As long as a request is in the pool there is a batch. */
  lemma SomeBatch(cfg: Config, o: OState)
    requires Inv(cfg, o) && o.s.pool != []
    ensures Batched(o, [o.s.pool[0]])
  {
    hide Inv;
    PoolReady(cfg, o);
  }

  /** The whole pool is ready. */
  lemma PoolReady(cfg: Config, o: OState)
    requires Inv(cfg, o)
    ensures WellTyped(o.s) && forall id :: id in o.s.pool ==> id in o.s.tasks && o.s.tasks[id].status != Stopped
  {
    hide CacheInv, Track;
    PoolIn(cfg, o);
    forall id | id in o.s.pool
      ensures id in o.s.tasks && o.s.tasks[id].status != Stopped && o.s.tasks[id].consumed <= |o.s.tasks[id].prefix|
    {
      assert LocalIn(cfg, o, id);
      TrackConsumed(cfg, o.s.tasks[id]);
    }
  }

  lemma TrackConsumed(cfg: Config, t: Task)
    requires Track(cfg, t)
    ensures t.consumed <= |t.prefix|
  {
  }

  // ----- Completion -----

  datatype Choice = Choice(batch: seq<TaskId>, ids: seq<TaskId>)

  /** A run of passes with no arrival in between. */
  ghost predicate IsPasses(cfg: Config, states: seq<OState>, choices: seq<Choice>) {
    && |states| == |choices| + 1
    && forall i :: 0 <= i < |choices| ==> PassTo(cfg, states[i], choices[i].batch, choices[i].ids, states[i + 1])
  }

  /** What a run of passes keeps, and how long it can be. */
  ghost predicate Continues(cfg: Config, s: OState, t: OState, passes: nat) {
    && Inv(cfg, t) && (forall id :: id in s.s.pool ==> id in s.s.tasks)
        && (forall id :: id in t.s.pool ==> id in t.s.tasks)
    && t.s.tasks.Keys == s.s.tasks.Keys && (forall id :: id in s.s.tasks ==> t.s.tasks[id].req == s.s.tasks[id].req)
    && (AllFitTogether(s.s) ==> AllFitTogether(t.s))
    && passes + Work(t.s) <= Work(s.s)
  }

  lemma {:induction false} PassesKeep(cfg: Config, states: seq<OState>, choices: seq<Choice>)
    requires IsPasses(cfg, states, choices) && Inv(cfg, states[0])
    ensures Continues(cfg, states[0], states[|choices|], |choices|)
    decreases |choices|
  {
    hide Inv, PassTo, Work, AllFitTogether;
    PoolIn(cfg, states[0]);
    if choices != [] {
      var n := |choices| - 1;
      PassesKeep(cfg, states[..n + 1], choices[..n]);
      var (s, t) := (states[..n + 1][n], states[n + 1]);
      assert PassTo(cfg, states[n], choices[n].batch, choices[n].ids, states[n + 1]);
      PassKeeps(cfg, s, choices[n].batch, choices[n].ids, t);
      PassAdvances(cfg, s, choices[n].batch, choices[n].ids, t);
      if AllFitTogether(s.s) {
        StillFit(cfg, s, t);
      }
    }
  }

  lemma EmptyMeansServed(cfg: Config, o: OState)
    requires Inv(cfg, o) && o.s.pool == []
    ensures R.AllServed(cfg, o.s, o.s)
  {
    hide LocalIn, Shape, Naive;
    forall id | id in o.s.tasks
      ensures R.FullyServed(cfg, o.s.tasks[id].req, o.s.tasks[id])
    {
      TaskIsNaive(cfg, o, id);
    }
  }

  /** No pass can be made. */
  ghost predicate Done(cfg: Config, o: OState) {
    forall batch, ids, t :: !PassTo(cfg, o, batch, ids, t)
  }

  /** Completion: passes can only be made as often as there are steps left. When none is possible any
      more, and the cache was big enough, every request has been served with exactly its naive completion. */
  lemma Completion(cfg: Config, states: seq<OState>, choices: seq<Choice>)
    requires IsPasses(cfg, states, choices) && Inv(cfg, states[0])
    ensures forall id :: id in states[0].s.pool ==> id in states[0].s.tasks
    ensures |choices| <= Work(states[0].s)
    ensures AllFitTogether(states[0].s) && Done(cfg, states[|choices|]) ==>
      R.AllServed(cfg, states[0].s, states[|choices|].s)
  {
    hide Inv, PassTo, Work, AllFitTogether;
    PassesKeep(cfg, states, choices);
    var (s, t) := (states[0], states[|choices|]);
    if AllFitTogether(s.s) && Done(cfg, t) {
      if t.s.pool != [] {
        var batch := [t.s.pool[0]];
        SomeBatch(cfg, t);
        var u := PassPossible(cfg, t, batch, batch);
        assert false;
      }
      EmptyMeansServed(cfg, t);
    }
  }

  /** Overlap equals the synchronous loop: let the one run from a state in which everything fits until no
      pass is possible, and the other for more passes than there are tokens to produce. Then the same
      request has been closed in both, with the same stream and the same finish reason. */
  lemma OverlapEqualsSync(cfg: Config, a: seq<OState>, choices: seq<Choice>, id: TaskId,
                          cfg': Config, b: seq<State>, choices': seq<Serving.Choice>, id': TaskId)
    requires cfg.lm == cfg'.lm && cfg.stops == cfg'.stops
    requires IsPasses(cfg, a, choices) && Inv(cfg, a[0]) && AllFitTogether(a[0].s) && Done(cfg, a[|choices|])
    requires R.IsPasses(cfg', b, choices') && I.Inv(cfg', b[0])
    requires (forall x :: x in b[0].pool ==> x in b[0].tasks) && |choices'| > R.Measure(b[0].tasks, b[0].pool)
    requires id in a[0].s.tasks && id' in b[0].tasks && a[0].s.tasks[id].req == b[0].tasks[id'].req
    ensures var (s, t) := (a[|choices|].s, b[|choices'|]);
      && id in s.tasks && id' in t.tasks && s.tasks[id].closed && t.tasks[id'].closed
      && s.tasks[id].delivered == t.tasks[id'].delivered && s.tasks[id].finish == t.tasks[id'].finish
  {
    hide Naive, Inv, I.Inv, PassTo, R.PassTo, AllFitTogether;
    Completion(cfg, a, choices);
    R.Completion(cfg', b, choices');
  }
}
