/**
 The serving loop over live objects: task pool, scheduler, executor and cache manager of one rank.
 Every method is proved to act on the abstract state exactly like its counterpart in `Serving`, so
 the theorems about runs hold of this loop.
 */
module Engine {
  import opened Base
  import opened LanguageModel
  import opened CacheSpec
  import opened PagedMemory
  import opened PagedRefinement
  import opened PagedCache
  import opened ModelStep
  import opened Tasks
  import T = TaskSpec
  import opened Serving
  import opened ServingInvariant

  /** A queued batch result: tasks and their tokens, index by index. */
  datatype Result = Result(tasks: seq<Task>, tokens: seq<Token>)

  /** The result as a map from request to token. */
  ghost function ResultMap(ids: seq<TaskId>, tokens: seq<Token>): (m: map<TaskId, Token>)
    ensures |ids| == |tokens| ==> m.Keys == Ids(ids)
    decreases |ids|
  {
    if ids == [] || tokens == [] then map[] else ResultMap(ids[1..], tokens[1..])[ids[0] := tokens[0]]
  }

  lemma {:induction false} ResultMapAt(ids: seq<TaskId>, tokens: seq<Token>, i: nat)
    requires |ids| == |tokens| && Distinct(ids) && i < |ids|
    ensures ids[i] in ResultMap(ids, tokens) && ResultMap(ids, tokens)[ids[i]] == tokens[i]
    decreases |ids|
  {
    if i > 0 {
      ResultMapAt(ids[1..], tokens[1..], i - 1);
    }
  }

  ghost function IdsOf(tasks: seq<Task>): (r: seq<TaskId>)
    ensures |r| == |tasks| && forall i :: 0 <= i < |r| ==> r[i] == tasks[i].req.id
  {
    seq(|tasks|, i requires 0 <= i < |tasks| => tasks[i].req.id)
  }

  lemma OfKindStep(tasks: map<TaskId, T.Task>, ids: seq<TaskId>, k: T.Kind)
    requires ids != [] && forall x :: x in ids ==> x in tasks
    ensures OfKind(tasks, ids, k) == (if tasks[ids[0]].kind == k then [ids[0]] else []) + OfKind(tasks, ids[1..], k)
  {
  }

  lemma {:induction false} OfKindAppend(tasks: map<TaskId, T.Task>, ids: seq<TaskId>, id: TaskId, k: T.Kind)
    requires id in tasks && forall x :: x in ids ==> x in tasks
    ensures OfKind(tasks, ids + [id], k) == OfKind(tasks, ids, k) + (if tasks[id].kind == k then [id] else [])
    decreases |ids|
  {
    hide OfKind;
    OfKindStep(tasks, ids + [id], k);
    OfKindNil(tasks, k);
    if ids == [] {
      assert (ids + [id])[1..] == [];
    } else {
      assert (ids + [id])[0] == ids[0] && (ids + [id])[1..] == ids[1..] + [id];
      OfKindAppend(tasks, ids[1..], id, k);
      OfKindStep(tasks, ids, k);
    }
  }

  lemma OfKindNil(tasks: map<TaskId, T.Task>, k: T.Kind)
    ensures OfKind(tasks, [], k) == []
  {
  }

  ghost predicate Listed(all: map<TaskId, Task>, tasks: seq<Task>) {
    DistinctTasks(tasks) && forall i :: 0 <= i < |tasks| ==> tasks[i].req.id in all && all[tasks[i].req.id] == tasks[i]
  }

  /** The queued results denote the abstract queue. */
  ghost predicate QueueDenotes(all: map<TaskId, Task>, rs: seq<Result>, q: seq<map<TaskId, Token>>) {
    && |rs| == |q|
    && forall i :: 0 <= i < |q| ==>
         && Listed(all, rs[i].tasks) && |rs[i].tokens| == |rs[i].tasks|
         && q[i] == ResultMap(IdsOf(rs[i].tasks), rs[i].tokens)
  }

  /** The pool holds exactly the listed tasks, under their own ids. */
  ghost predicate PoolLists(all: map<TaskId, Task>, pool: map<TaskId, Task>, idList: seq<TaskId>) {
    && pool.Keys == Ids(idList)
    && (forall id :: id in pool ==> id in all && pool[id] == all[id])
    && (forall id :: id in all ==> all[id].req.id == id)
  }

  lemma QueueGrows(all: map<TaskId, Task>, id: TaskId, t: Task, rs: seq<Result>, q: seq<map<TaskId, Token>>)
    requires QueueDenotes(all, rs, q) && id !in all
    ensures QueueDenotes(all[id := t], rs, q)
  {
    hide DistinctTasks, ResultMap;
  }

  class Rank {
    const cfg: Config
    const cache: PagedKVCacheManager
    var idList: seq<TaskId>
    var pool: map<TaskId, Task>
    var threshold: nat
    var lastBatchResults: seq<Result>
    /** Every task object ever added, by id. */
    ghost var all: map<TaskId, Task>
    /** The abstract state. */
    ghost var st: State

    /** The task objects are in these abstract states. */
    ghost predicate TasksAre(tasks: map<TaskId, T.Task>)
      reads this`all, all.Values
    {
      all.Keys == tasks.Keys && forall id :: id in all ==> all[id].Abs() == tasks[id]
    }

    /** The cache manager's fields and memory denote this abstract cache. */
    ghost predicate CacheIs(c: Cache, contents: map<TaskId, seq<Kv>>)
      reads cache.Repr()
    {
      cache.Valid() && cache.Abs() == c && Contents(cache.Abs(), cache.Memory()) == contents
    }

    /** Tasks, cache, pool and queue are as in s, whatever its threshold. */
    ghost predicate Holds(s: State)
      reads this`all, this`idList, this`pool, this`lastBatchResults, all.Values, cache.Repr()
    {
      && TasksAre(s.tasks) && CacheIs(s.cache, s.contents)
      && idList == s.pool && PoolLists(all, pool, idList) && QueueDenotes(all, lastBatchResults, s.results)
    }

    /** The fields agree with the abstract state. */
    ghost predicate Valid()
      reads this, all.Values, cache.Repr()
    {
      Holds(st) && threshold == st.threshold
    }

    constructor (cfg: Config, blockSize: nat, numBlocks: nat, maxBlocksPerReq: nat, useCudaGraph: bool)
      requires blockSize > 0
      ensures Valid() && this.cfg == cfg && all == map[]
      ensures st == State(Cache(blockSize, numBlocks, Range(numBlocks), map[], map[]), map[], [], map[], numBlocks, [])
    {
      this.cfg := cfg;
      cache := new PagedKVCacheManager(blockSize, numBlocks, maxBlocksPerReq, useCudaGraph);
      idList, pool, all, threshold, lastBatchResults := [], map[], map[], numBlocks, [];
      st := State(Cache(blockSize, numBlocks, Range(numBlocks), map[], map[]), map[], [], map[], numBlocks, []);
    }

    /** Commits to a new abstract state. */
    method Commit(newThreshold: nat, ghost s: State, ghost t: State)
      requires Holds(s) && t == s.(threshold := newThreshold)
      modifies this`threshold, this`st
      ensures Valid() && st == t
    {
      hide QueueDenotes, PoolLists, Contents;
      threshold := newThreshold;
      st := t;
    }

    /** What a valid engine says about its pool. */
    lemma Members()
      requires Valid()
      ensures Holds(st) && idList == st.pool && threshold == st.threshold
      ensures forall id :: id in st.pool ==>
        id in pool && id in all && pool[id] == all[id] && id in st.tasks && pool[id].Abs() == st.tasks[id]
      ensures forall id :: id in pool ==> id in st.pool
      ensures cache.Abs() == st.cache
    {
      hide QueueDenotes, Contents;
    }

    // ----- Task pool -----

    /** `TaskPool.add`. */
    method Add(t: Task) returns (added: bool)
      requires Valid() && t.Abs() == T.NewTask(t.req)
      requires t.req.id in idList || t.req.id !in all
      modifies this`idList, this`pool, this`all, this`threshold, this`st
      ensures Valid()
      ensures added == (t.req.id !in old(idList))
      ensures st ==
        if added then
          old(st).(pool := old(st.pool) + [t.req.id], tasks := old(st.tasks)[t.req.id := T.NewTask(t.req)])
        else old(st)
    {
      hide Holds, T.NewTask, Task.Abs;
      Members();
      if t.req.id in pool {
        return false;
      }
      ghost var s := st.(pool := st.pool + [t.req.id], tasks := st.tasks[t.req.id := T.NewTask(t.req)]);
      Enter(t, st);
      Commit(threshold, s, s);
      return true;
    }

    method Enter(t: Task, ghost s: State)
      requires Holds(s) && t.Abs() == T.NewTask(t.req) && t.req.id !in all
      modifies this`idList, this`pool, this`all
      ensures Holds(s.(pool := s.pool + [t.req.id], tasks := s.tasks[t.req.id := T.NewTask(t.req)]))
    {
      hide Task.Abs, T.NewTask, QueueDenotes, Contents, PoolLists;
      QueueGrows(all, t.req.id, t, lastBatchResults, s.results);
      PoolGrows(all, pool, idList, t);
      pool := pool[t.req.id := t];
      all := all[t.req.id := t];
      idList := idList + [t.req.id];
    }

    // ----- Scheduler -----

    method FilterKind(ids: seq<TaskId>, k: T.Kind) returns (r: seq<TaskId>)
      requires Valid() && forall id :: id in ids ==> id in st.pool && id in st.tasks
      ensures Valid() && r == OfKind(st.tasks, ids, k)
    {
      hide OfKind, Holds;
      Members();
      r := [];
      OfKindNil(st.tasks, k);
      for i := 0 to |ids|
        invariant Valid() && r == OfKind(st.tasks, ids[..i], k)
      {
        OfKindAppend(st.tasks, ids[..i], ids[i], k);
        assert ids[..i + 1] == ids[..i] + [ids[i]];
        if pool[ids[i]].kind == k {
          r := r + [ids[i]];
        }
      }
      assert ids[..|ids|] == ids;
    }

    /** `_schedule_prefill_tasks`. */
    method SchedulePrefillTasks(order: seq<TaskId>) returns (o: Outcome<seq<TaskId>>)
      requires Valid() && WellTyped(st) && forall id :: id in order ==> id in st.pool
      ensures Valid() && o == SchedulePrefill(st, order)
    {
      hide OfKind, PrefillCount, Holds;
      Members();
      var ids := FilterKind(order, T.Prefill);
      var num := CountFitting(ids);
      var used := cache.numBlocks - |cache.freeBlocks|;
      if num == 0 && threshold == cache.numBlocks && used == 0 {
        return Raised(PrefillCapacity);
      }
      return Ok(ids[..num]);
    }

    /** The capacity loop of `_schedule_prefill_tasks`. */
    method CountFitting(ids: seq<TaskId>) returns (num: nat)
      requires Valid() && WellTyped(st) && forall id :: id in ids ==> id in st.pool && st.tasks[id].kind == T.Prefill
      ensures Valid() && num == PrefillCount(st, ids, 0)
    {
      hide Need, T.NextTokens, Holds, PrefillCount;
      Members();
      assert ids[0..] == ids;
      var need: nat := 0;
      var used := cache.numBlocks - |cache.freeBlocks|;
      num := 0;
      while num < |ids|
        invariant Valid() && num <= |ids|
        invariant PrefillCount(st, ids, 0) == num + PrefillCount(st, ids[num..], need)
      {
        var t := pool[ids[num]];
        CountStep(st, ids, num, need);
        var more := need + cache.NumAdditionalBlocksReqNeed(ids[num], t.consumed + |t.NextReqTokens()|);
        if used + more > threshold {
          break;
        }
        need := more;
        num := num + 1;
      }
      if num == |ids| {
        CountEnd(st, ids, need);
      }
    }

    /** `has_enough_block`. */
    method HasEnoughBlock(ids: seq<TaskId>) returns (b: bool)
      requires Valid() && st.cache.blockSize > 0 && forall id :: id in ids ==> id in st.pool && id in st.tasks
      ensures Valid() && b == Fits(st, ids)
    {
      hide Need, Holds;
      Members();
      var need: nat := 0;
      for i := 0 to |ids|
        invariant need + DecodeNeed(st, ids[i..]) == DecodeNeed(st, ids)
      {
        var t := pool[ids[i]];
        assert ids[i..][0] == ids[i] && ids[i..][1..] == ids[i + 1..];
        if t.status != T.Stopped {
          need := need + cache.NumAdditionalBlocksReqNeed(ids[i], t.PrefixTokensLen());
        }
      }
      b := |cache.freeBlocks| >= need;
    }

    /** `evict_decode_task`. */
    method EvictDecodeTask(id: TaskId)
      requires Valid() && CacheInv(st.cache) && id in pool && id in st.pool
      modifies this`threshold, this`st, cache`freeBlocks, cache`blockTable, cache`seqLens, pool[id]
      ensures Valid() && id in old(st.tasks) && st == Evict(old(st), id)
    {
      hide Holds, T.Evicted, Finalize, CacheInv;
      Members();
      ghost var s := st.(cache := Finalize(st.cache, id), contents := st.contents - {id});
      ReleaseCache(id, st);
      ResetTask(id, s);
      Commit(Max(1, threshold / 2), s.(tasks := s.tasks[id := T.Evicted(s.tasks[id])]), Evict(st, id));
    }

    method ReleaseCache(id: TaskId, ghost s: State)
      requires Holds(s) && CacheInv(s.cache)
      modifies cache`freeBlocks, cache`blockTable, cache`seqLens
      ensures Holds(s.(cache := Finalize(s.cache, id), contents := s.contents - {id}))
    {
      hide Contents, CacheInv, Task.Abs, PoolLists, QueueDenotes;
      EvictContents(s.cache, cache.Memory(), id);
      cache.FinalizeCacheAllDecode(id);
    }

    method ResetTask(id: TaskId, ghost s: State)
      requires Holds(s) && id in pool && id in s.tasks
      modifies pool[id]
      ensures Holds(s.(tasks := s.tasks[id := T.Evicted(s.tasks[id])]))
    {
      hide T.Evicted, Contents, QueueDenotes, Task.Abs;
      var t := pool[id];
      ListedOne(all, pool, idList, id);
      t.RestoreForPrefill();
      BatchApplied([t], s.tasks, s.tasks[id := T.Evicted(s.tasks[id])]);
    }

    /** `_schedule_decode_tasks`: evicts from the low end until the rest fits. */
    method ScheduleDecodeTasks(order: seq<TaskId>) returns (o: Outcome<seq<TaskId>>)
      requires Valid() && Core(cfg, st) && Distinct(order)
      requires forall id :: id in order ==> id in st.pool && id in st.tasks
      modifies this`threshold, this`st, cache`freeBlocks, cache`blockTable, cache`seqLens, all.Values
      ensures Valid() && st.pool == old(st.pool)
      ensures st.cache.blockSize > 0 && old(st.cache.blockSize) > 0
      ensures Agree(EvictLoop(old(st), OfKind(old(st.tasks), order, T.Decode)), o, st)
    {
      hide Valid, Core, EvictLoop, OfKind;
      var ids := FilterKind(order, T.Decode);
      OfKindDistinct(st.tasks, order, T.Decode);
      EvictingStart(cfg, st, ids);
      o := EvictUntilFits(ids);
    }

    /** The eviction loop. */
    method EvictUntilFits(first: seq<TaskId>) returns (o: Outcome<seq<TaskId>>)
      requires Valid() && Core(cfg, st) && Decoders(st, first)
      modifies this`threshold, this`st, cache`freeBlocks, cache`blockTable, cache`seqLens, all.Values
      ensures Valid() && st.pool == old(st.pool)
      ensures st.cache.blockSize > 0 && old(st.cache.blockSize) > 0 && forall id :: id in first ==> id in old(st.tasks)
      ensures Agree(EvictLoop(old(st), first), o, st)
    {
      hide Valid, Core, Evict, Evicting, EvictLoop, DecodeNeed, Fits;
      ghost var start := st;
      EvictingStart(cfg, st, first);
      var ids := first;
      var enough := EnoughFor(ids, start, first);
      while !enough
        invariant Valid() && Evicting(cfg, start, first, st, ids) && st.pool == start.pool
        invariant enough == Fits(st, ids)
        decreases |ids|, !enough
      {
        EvictingFacts(cfg, start, first, st, ids);
        if |ids| == 1 {
          return Raised(DecodeCapacity);
        }
        ids := EvictLast(ids, start, first);
        enough := EnoughFor(ids, start, first);
      }
      EvictingFacts(cfg, start, first, st, ids);
      o := Ok(ids);
    }

    method EvictLast(ids: seq<TaskId>, ghost start: State, ghost first: seq<TaskId>) returns (rest: seq<TaskId>)
      requires Valid() && Evicting(cfg, start, first, st, ids) && |ids| != 1 && !Fits(st, ids)
      modifies this`threshold, this`st, cache`freeBlocks, cache`blockTable, cache`seqLens, all.Values
      ensures Valid() && |rest| < |ids| && Evicting(cfg, start, first, st, rest) && st.pool == start.pool
    {
      hide Valid, Core, Evict, Evicting, EvictLoop, DecodeNeed, Fits;
      EvictingFacts(cfg, start, first, st, ids);
      Members();
      EvictedNext(cfg, start, first, st, ids);
      EvictDecodeTask(ids[|ids| - 1]);
      rest := ids[..|ids| - 1];
      EvictingFacts(cfg, start, first, st, rest);
    }

    method EnoughFor(ids: seq<TaskId>, ghost start: State, ghost first: seq<TaskId>) returns (b: bool)
      requires Valid() && Evicting(cfg, start, first, st, ids)
      ensures Valid() && b == Fits(st, ids)
    {
      hide Evicting;
      EvictingFacts(cfg, start, first, st, ids);
      b := HasEnoughBlock(ids);
    }

    /** `Scheduler.schedule` for a given order of the ready tasks. */
    method Schedule(order: seq<TaskId>) returns (o: Outcome<seq<TaskId>>)
      requires Valid() && Core(cfg, st) && WellTyped(st) && Distinct(order)
      requires forall id :: id in order ==> id in st.pool
      modifies this`threshold, this`st, cache`freeBlocks, cache`blockTable, cache`seqLens, all.Values
      ensures Valid() && st.pool == old(st.pool)
      ensures Agree(Serving.Schedule(cfg, old(st), order), o, st)
    {
      hide Valid, Core, EvictLoop, OfKind, SchedulePrefill;
      Members();
      if order == [] {
        return Ok([]);
      }
      if pool[order[0]].kind == T.Prefill {
        var ids := SchedulePrefillTasks(order);
        if ids.Raised? {
          return Raised(ids.error);
        }
        if ids.value != [] {
          return Ok(ids.value[..Min(cfg.prefillNum, |ids.value|)]);
        }
      }
      var kept := ScheduleDecodeTasks(order);
      if kept.Raised? {
        return Raised(kept.error);
      }
      o := Ok(kept.value[..Min(cfg.decodeNum, |kept.value|)]);
    }

    // ----- Executor -----

    /** After a batch of task objects has been updated, the whole map of tasks is as expected. */
    lemma BatchApplied(tasks: seq<Task>, before: map<TaskId, T.Task>, after: map<TaskId, T.Task>)
      requires all.Keys == before.Keys == after.Keys && Listed(all, tasks)
      requires forall i :: 0 <= i < |tasks| ==> tasks[i].req.id in after && tasks[i].Abs() == after[tasks[i].req.id]
      requires forall id :: id in all && all[id] !in tasks ==> all[id].Abs() == before[id]
      requires forall id :: id in all && id !in IdsOf(tasks) ==> after[id] == before[id]
      requires forall id :: id in all ==> all[id].req.id == id
      ensures TasksAre(after)
    {
      forall id | id in all
        ensures all[id].Abs() == after[id]
      {
        if all[id] in tasks {
          var i :| 0 <= i < |tasks| && tasks[i] == all[id];
          assert tasks[i].req.id == id;
        } else {
          NotListed(all, tasks, id);
        }
      }
    }

    /** `postprocess_async_part` on the oldest queued result, if there is one. */
    method PostprocessAsync(ghost s: State)
      requires Holds(s)
      modifies this`lastBatchResults, all.Values
      ensures Holds(Deliver(s))
    {
      hide Holds, Deliver, Delivered, Listed, ResultMap;
      var some := HasResult(s);
      DeliverIs(s);
      if some {
        var r := PopResult(s);
        EmitTo(r, s.(results := s.results[1..]));
      }
    }

    method HasResult(ghost s: State) returns (b: bool)
      requires Holds(s)
      ensures Holds(s) && b == (s.results != [])
    {
      b := |lastBatchResults| > 0;
    }

    method PopResult(ghost s: State) returns (r: Result)
      requires Holds(s) && s.results != []
      modifies this`lastBatchResults
      ensures Holds(s.(results := s.results[1..]))
      ensures Listed(all, r.tasks) && |r.tokens| == |r.tasks| && s.results[0] == ResultMap(IdsOf(r.tasks), r.tokens)
    {
      hide Contents, Task.Abs, ResultMap, Listed, PoolLists;
      r := lastBatchResults[0];
      lastBatchResults := lastBatchResults[1..];
    }

    method EmitTo(r: Result, ghost s: State)
      requires Holds(s) && Listed(all, r.tasks) && |r.tokens| == |r.tasks|
      modifies all.Values
      ensures Holds(s.(tasks := Delivered(s.tasks, ResultMap(IdsOf(r.tasks), r.tokens))))
    {
      hide Delivered, ResultMap, Contents, Listed, Task.Abs, QueueDenotes;
      EmitTasks(r, s.tasks);
    }

    method EmitTasks(r: Result, ghost tasks: map<TaskId, T.Task>)
      requires TasksAre(tasks) && Listed(all, r.tasks) && |r.tokens| == |r.tasks|
      requires forall id :: id in all ==> all[id].req.id == id
      modifies all.Values
      ensures TasksAre(Delivered(tasks, ResultMap(IdsOf(r.tasks), r.tokens)))
    {
      hide Task.Abs, T.AddData, ResultMap;
      ListedIn(all, r.tasks);
      EmitBatch(r.tasks, r.tokens);
      ghost var after := Delivered(tasks, ResultMap(IdsOf(r.tasks), r.tokens));
      forall i | 0 <= i < |r.tasks|
        ensures r.tasks[i].req.id in after && r.tasks[i].Abs() == after[r.tasks[i].req.id]
      {
        ResultMapAt(IdsOf(r.tasks), r.tokens, i);
      }
      BatchApplied(r.tasks, tasks, after);
    }
  }

  /** A method's outcome and final state agree with a specified outcome. */
  ghost predicate Agree(r: Outcome<(State, seq<TaskId>)>, o: Outcome<seq<TaskId>>, s: State) {
    match r
    case Ok(v) => o.Ok? && v == (s, o.value)
    case Raised(e) => o == Raised(e)
  }

  lemma ListedOne(all: map<TaskId, Task>, pool: map<TaskId, Task>, idList: seq<TaskId>, id: TaskId)
    requires PoolLists(all, pool, idList) && id in pool
    ensures Listed(all, [pool[id]]) && IdsOf([pool[id]]) == [id] && pool[id].req.id == id
  {
  }

  lemma PoolGrows(all: map<TaskId, Task>, pool: map<TaskId, Task>, idList: seq<TaskId>, t: Task)
    requires PoolLists(all, pool, idList) && t.req.id !in all
    ensures PoolLists(all[t.req.id := t], pool[t.req.id := t], idList + [t.req.id])
  {
    assert Ids(idList + [t.req.id]) == Ids(idList) + {t.req.id};
  }

  /** The tasks after delivery of one result. */
  ghost function Delivered(tasks: map<TaskId, T.Task>, r: map<TaskId, Token>): map<TaskId, T.Task> {
    map id | id in tasks :: if id in r then T.AddData(tasks[id], r[id]) else tasks[id]
  }

  lemma DeliverIs(s: State)
    ensures Deliver(s) == if s.results == [] then s
      else s.(results := s.results[1..]).(tasks := Delivered(s.tasks, s.results[0]))
  {
  }

  lemma NotListed(all: map<TaskId, Task>, tasks: seq<Task>, id: TaskId)
    requires Listed(all, tasks) && id in all && all[id] !in tasks
    ensures id !in IdsOf(tasks)
  {
  }

  lemma ListedIn(all: map<TaskId, Task>, tasks: seq<Task>)
    requires Listed(all, tasks)
    ensures forall t :: t in tasks ==> t in all.Values
    ensures Distinct(IdsOf(tasks))
  {
    forall t | t in tasks
      ensures t in all.Values
    {
      var i :| 0 <= i < |tasks| && tasks[i] == t;
      assert all[tasks[i].req.id] == t;
    }
  }

  /** The state of the eviction loop: the rest of the loop decides the outcome of the whole. */
  ghost predicate Evicting(cfg: Config, start: State, first: seq<TaskId>, s: State, ids: seq<TaskId>) {
    && Core(cfg, s) && Decoders(s, ids) && s.pool == start.pool
    && s.cache.blockSize > 0 && start.cache.blockSize > 0 && (forall id :: id in first ==> id in start.tasks)
    && EvictLoop(s, ids) == EvictLoop(start, first)
  }

  ghost predicate Fits(s: State, ids: seq<TaskId>) {
    && s.cache.blockSize > 0 && (forall id :: id in ids ==> id in s.tasks)
    && |s.cache.free| >= DecodeNeed(s, ids)
  }

  lemma CountStep(s: State, ids: seq<TaskId>, i: nat, need: nat)
    requires WellTyped(s) && i < |ids| && forall id :: id in ids ==> id in s.pool && s.tasks[id].kind == T.Prefill
    ensures var more := need + PrefillNeed(s, ids[i]);
      PrefillCount(s, ids[i..], need) == if s.cache.Used() + more > s.threshold then 0 else 1 + PrefillCount(s,
          ids[i + 1..], more)
  {
    assert ids[i..][0] == ids[i] && ids[i..][1..] == ids[i + 1..];
  }

  lemma CountEnd(s: State, ids: seq<TaskId>, need: nat)
    requires WellTyped(s) && forall id :: id in ids ==> id in s.pool && s.tasks[id].kind == T.Prefill
    ensures PrefillCount(s, ids[|ids|..], need) == 0
  {
    assert ids[|ids|..] == [];
  }

  lemma EvictingStart(cfg: Config, s: State, ids: seq<TaskId>)
    requires Core(cfg, s) && Decoders(s, ids)
    ensures Evicting(cfg, s, ids, s, ids) && CacheInv(s.cache) && s.cache.blockSize > 0
    ensures forall id :: id in ids ==> id in s.pool && id in s.tasks
  {
    hide LocalIn;
  }

  lemma EvictingFacts(cfg: Config, start: State, first: seq<TaskId>, s: State, ids: seq<TaskId>)
    requires Evicting(cfg, start, first, s, ids)
    ensures CacheInv(s.cache) && s.cache.blockSize > 0 && s.pool == start.pool
    ensures forall id :: id in ids ==> id in s.pool && id in s.tasks
    ensures start.cache.blockSize > 0 && forall id :: id in first ==> id in start.tasks
    ensures Fits(s, ids) ==> EvictLoop(start, first) == Ok((s, ids))
    ensures !Fits(s, ids) ==> |ids| > 0 && (|ids| == 1 ==> EvictLoop(start, first) == Raised(DecodeCapacity))
  {
    hide LocalIn;
  }

  /** One round of the eviction loop. */
  lemma EvictedNext(cfg: Config, start: State, first: seq<TaskId>, s: State, ids: seq<TaskId>)
    requires Evicting(cfg, start, first, s, ids) && |ids| > 1 && !Fits(s, ids)
    ensures ids[|ids| - 1] in s.tasks
    ensures Evicting(cfg, start, first, Evict(s, ids[|ids| - 1]), ids[..|ids| - 1])
  {
    hide LocalIn, Conserved;
    EvictKeeps(cfg, s, ids[|ids| - 1]);
    EvictStaysDecoding(s, Evict(s, ids[|ids| - 1]), ids);
  }

  lemma EvictContents(c: Cache, mem: Mem, id: TaskId)
    requires CacheInv(c)
    ensures Finalize(c, id).blockSize > 0 && Contents(Finalize(c, id), mem) == Contents(c, mem) - {id}
    ensures id in c.len ==> id in c.table
  {
    hide ReadRow, Conserved;
    FinalizeKeeps(c, id);
  }
}
