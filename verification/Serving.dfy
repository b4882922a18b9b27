/**
 The serving loop of one rank as a state machine: schedule, model step, delivery of the previous
 results, status update, release of finished requests. One event of a run is either the arrival of a
 request or one pass of the loop.
 */
module Serving {
  import opened Base
  import opened LanguageModel
  import opened CacheSpec
  import opened TaskSpec

  datatype Config = Config(lm: Lm, stops: set<Token>, prefillNum: nat, decodeNum: nat)

  /** `contents` is what the block memory denotes: the KV entries of every cached request.
      `tasks` also keeps finished tasks; `pool` lists the live ones in arrival order. */
  datatype State = State(
    cache: Cache,
    contents: map<TaskId, seq<Kv>>,
    pool: seq<TaskId>,
    tasks: map<TaskId, Task>,
    threshold: nat,
    results: seq<map<TaskId, Token>>)

  ghost predicate WellTyped(s: State) {
    && s.cache.blockSize > 0
    && forall id :: id in s.pool ==> id in s.tasks && s.tasks[id].consumed <= |s.tasks[id].prefix|
  }

  // ----- Scheduling -----

  function OfKind(tasks: map<TaskId, Task>, ids: seq<TaskId>, k: Kind): (r: seq<TaskId>)
    requires forall id :: id in ids ==> id in tasks
    ensures forall id :: id in r <==> id in ids && tasks[id].kind == k
    ensures |r| <= |ids|
    decreases |ids|
  {
    if ids == [] then []
    else (if tasks[ids[0]].kind == k then [ids[0]] else []) + OfKind(tasks, ids[1..], k)
  }

  /** The tasks of the pool that can be scheduled. */
  function Ready(tasks: map<TaskId, Task>, ids: seq<TaskId>): (r: seq<TaskId>)
    requires forall id :: id in ids ==> id in tasks
    ensures forall id :: id in r <==> id in ids && tasks[id].status != Stopped
    decreases |ids|
  {
    if ids == [] then []
    else (if tasks[ids[0]].status != Stopped then [ids[0]] else []) + Ready(tasks, ids[1..])
  }

  /** Any ordering of the ready tasks: the scorer is arbitrary. */
  ghost predicate IsOrder(s: State, order: seq<TaskId>)
    requires WellTyped(s)
  {
    multiset(order) == multiset(Ready(s.tasks, s.pool))
  }

  /** Blocks a prefill task needs for its next slice. */
  function PrefillNeed(s: State, id: TaskId): nat
    requires s.cache.blockSize > 0 && id in s.tasks
    requires s.tasks[id].kind == Prefill && s.tasks[id].consumed <= |s.tasks[id].prefix|
  {
    Need(s.cache, id, s.tasks[id].consumed + |NextTokens(s.tasks[id])|)
  }

  /** How many of the prefill tasks, in order, fit under the congestion threshold. */
  function PrefillCount(s: State, ids: seq<TaskId>, need: nat): (n: nat)
    requires WellTyped(s) && forall id :: id in ids ==> id in s.pool && s.tasks[id].kind == Prefill
    ensures n <= |ids|
    decreases |ids|
  {
    if ids == [] then 0
    else
      var more := need + PrefillNeed(s, ids[0]);
      if s.cache.Used() + more > s.threshold then 0 else 1 + PrefillCount(s, ids[1..], more)
  }

  /** `_schedule_prefill_tasks` without chunking. */
  function SchedulePrefill(s: State, order: seq<TaskId>): Outcome<seq<TaskId>>
    requires WellTyped(s) && forall id :: id in order ==> id in s.pool
  {
    var ids := OfKind(s.tasks, order, Prefill);
    var n := PrefillCount(s, ids, 0);
    if n == 0 && s.threshold == s.cache.numBlocks && s.cache.Used() == 0 then Raised(PrefillCapacity)
    else Ok(ids[..n])
  }

  /** Blocks the decode tasks need for one more token each. */
  function DecodeNeed(s: State, ids: seq<TaskId>): nat
    requires s.cache.blockSize > 0 && forall id :: id in ids ==> id in s.tasks
    decreases |ids|
  {
    if ids == [] then 0
    else
      var t := s.tasks[ids[0]];
      (if t.status != Stopped then Need(s.cache, ids[0], PrefixLen(t)) else 0) + DecodeNeed(s, ids[1..])
  }

  /** `evict_decode_task`. */
  function Evict(s: State, id: TaskId): State
    requires id in s.tasks
  {
    s.(tasks := s.tasks[id := Evicted(s.tasks[id])],
       cache := Finalize(s.cache, id),
       contents := s.contents - {id},
       threshold := Max(1, s.threshold / 2))
  }

  /** The eviction loop: drops the lowest-priority decode task until the rest fits. */
  function EvictLoop(s: State, ids: seq<TaskId>): Outcome<(State, seq<TaskId>)>
    requires s.cache.blockSize > 0 && forall id :: id in ids ==> id in s.tasks
    decreases |ids|
  {
    if |s.cache.free| >= DecodeNeed(s, ids) then Ok((s, ids))
    else if |ids| <= 1 then Raised(DecodeCapacity)
    else EvictLoop(Evict(s, ids[|ids| - 1]), ids[..|ids| - 1])
  }

  function ScheduleDecode(cfg: Config, s: State, order: seq<TaskId>): Outcome<(State, seq<TaskId>)>
    requires WellTyped(s) && forall id :: id in order ==> id in s.pool
  {
    var (s', ids) :- EvictLoop(s, OfKind(s.tasks, order, Decode));
    Ok((s', ids[..Min(cfg.decodeNum, |ids|)]))
  }

  /** `Scheduler.schedule` for a given ordering of the ready tasks. */
  function Schedule(cfg: Config, s: State, order: seq<TaskId>): Outcome<(State, seq<TaskId>)>
    requires WellTyped(s) && forall id :: id in order ==> id in s.pool
  {
    if order == [] then Ok((s, []))
    else if s.tasks[order[0]].kind == Prefill then
      var ids :- SchedulePrefill(s, order);
      if ids != [] then Ok((s, ids[..Min(cfg.prefillNum, |ids|)])) else ScheduleDecode(cfg, s, order)
    else ScheduleDecode(cfg, s, order)
  }

  // ----- One model step -----

  /** The tokens a task feeds to the model. */
  function Input(t: Task): seq<Token>
    requires t.kind == Prefill ==> t.consumed <= |t.prefix|
  {
    if t.kind == Prefill then NextTokens(t) else [t.nextToken]
  }

  function KvOf(contents: map<TaskId, seq<Kv>>, id: TaskId): seq<Kv> {
    if id in contents then contents[id] else []
  }

  ghost predicate Runnable(s: State, batch: seq<TaskId>) {
    WellTyped(s) && forall id :: id in batch ==> id in s.pool
  }

  function Growth(s: State, batch: seq<TaskId>): map<TaskId, nat>
    requires Runnable(s, batch)
  {
    map id | id in batch :: |Input(s.tasks[id])|
  }

  /** What every task of a batch feeds to the model. */
  function InputOf(s: State, batch: seq<TaskId>): (m: map<TaskId, seq<Token>>)
    requires Runnable(s, batch)
    ensures forall id :: id in batch ==> id in m
  {
    map id | id in batch :: Input(s.tasks[id])
  }

  /** The cache contents after the model has run on the batch. */
  function RunModel(lm: Lm, s: State, batch: seq<TaskId>): map<TaskId, seq<Kv>>
    requires Runnable(s, batch)
  {
    ExtendAll(lm, s.contents, batch, InputOf(s, batch))
  }

  /** The entries of one request after the run. */
  lemma RunModelAt(lm: Lm, s: State, batch: seq<TaskId>, id: TaskId)
    requires Runnable(s, batch)
    ensures KvOf(RunModel(lm, s, batch), id) ==
      if id in batch then Extend(lm, KvOf(s.contents, id), Input(s.tasks[id])) else KvOf(s.contents, id)
  {
    hide Extend, Input;
  }

  /** Task bookkeeping between the model run and sampling. */
  function AfterRun(t: Task): Task {
    if t.kind == Prefill then Consume(t) else t.(synced := false)
  }

  /** Delivers the oldest queued batch result, if any. */
  function Deliver(s: State): State {
    if s.results == [] then s
    else
      var r := s.results[0];
      s.(tasks := map id | id in s.tasks :: if id in r then AddData(s.tasks[id], r[id]) else s.tasks[id],
         results := s.results[1..])
  }

  function RunTasks(tasks: map<TaskId, Task>, batch: seq<TaskId>): map<TaskId, Task> {
    map id | id in tasks :: if id in batch then AfterRun(tasks[id]) else tasks[id]
  }

  /** Sampling and synchronisation: every task of the batch takes the token its entries yield. */
  function SampleTasks(cfg: Config, tasks: map<TaskId, Task>, batch: seq<TaskId>,
      contents: map<TaskId, seq<Kv>>): map<TaskId, Task> {
    map id | id in tasks ::
      if id in batch then Advance(cfg.stops, tasks[id], cfg.lm.next(KvOf(contents, id))) else tasks[id]
  }

  /** `get_batch_result`: the new tokens of the batch, queued for delivery in the next step. */
  function BatchResult(tasks: map<TaskId, Task>, batch: seq<TaskId>): map<TaskId, Token> {
    map id | id in batch && id in tasks && tasks[id].nextToken >= 0 :: tasks[id].nextToken
  }

  /** `Executor.step` in synchronous mode: run, deliver what the previous step queued, then sample. */
  function Compute(cfg: Config, s: State, batch: seq<TaskId>): Outcome<State>
    requires Runnable(s, batch)
  {
    var cache :- Prepare(s.cache, batch, Growth(s, batch));
    var contents := RunModel(cfg.lm, s, batch);
    var sent := Deliver(s.(cache := cache, contents := contents, tasks := RunTasks(s.tasks, batch)));
    var tasks := SampleTasks(cfg, sent.tasks, batch, contents);
    Ok(sent.(tasks := tasks, results := sent.results + [BatchResult(tasks, batch)]))
  }

  // ----- After the step -----

  function RemoveIds(pool: seq<TaskId>, gone: set<TaskId>): (r: seq<TaskId>)
    ensures forall id :: id in r <==> id in pool && id !in gone
    decreases |pool|
  {
    if pool == [] then []
    else (if pool[0] in gone then [] else [pool[0]]) + RemoveIds(pool[1..], gone)
  }

  function StoppedOf(tasks: map<TaskId, Task>, ids: seq<TaskId>): (r: seq<TaskId>)
    requires forall id :: id in ids ==> id in tasks
    ensures forall id :: id in r <==> id in ids && tasks[id].status == Stopped
    decreases |ids|
  {
    if ids == [] then []
    else (if tasks[ids[0]].status == Stopped then [ids[0]] else []) + StoppedOf(tasks, ids[1..])
  }

  /** `Scheduler.update` followed by `remove_kvcache_all_device`. `ids` is the batch in the arbitrary
      order in which the source's set is enumerated. */
  function Update(s: State, ids: seq<TaskId>): State
    requires forall id :: id in ids ==> id in s.tasks
  {
    var stopped := StoppedOf(s.tasks, ids);
    var freed := OfKind(s.tasks, stopped, Decode);
    s.(pool := RemoveIds(s.pool, Ids(stopped)),
       threshold := if freed != [] then s.cache.numBlocks else s.threshold,
       cache := FinalizeAll(s.cache, freed),
       contents := s.contents - Ids(freed))
  }

  /** The choices the environment makes in one pass: the scorer's order of the ready tasks, and the
      enumeration order of the set of scheduled tasks. */
  datatype Choice = Choice(order: seq<TaskId>, shuffle: seq<TaskId> -> seq<TaskId>)

  ghost predicate Fair(s: State, ch: Choice)
    requires WellTyped(s)
  {
    IsOrder(s, ch.order) && forall b :: multiset(ch.shuffle(b)) == multiset(b)
  }
}
