/** What every pass of the serving loop keeps, and why a scheduled batch can always be allocated. */
module ServingInvariant {
  import opened Base
  import opened LanguageModel
  import opened CacheSpec
  import opened TaskSpec
  import opened Serving

  /** The token of `id` that is generated but still queued for delivery. */
  function PendingFor(results: seq<map<TaskId, Token>>, id: TaskId): seq<Token>
    decreases |results|
  {
    if results == [] then []
    else (if id in results[0] then [results[0][id]] else []) + PendingFor(results[1..], id)
  }

  /** The cached length and the cached entries are those of the prefix without its last token. */
  ghost predicate Cached(cfg: Config, t: Task, len: nat, kv: seq<Kv>) {
    |t.prefix| >= 1 && len == |t.prefix| - 1 && kv == Entries(cfg.lm, t.prefix[..|t.prefix| - 1])
  }

  /** One task: scheduler pool, task state, cached length, cached entries and queued token agree. */
  ghost predicate Local(cfg: Config, t: Task, live: bool, cached: bool, len: nat, kv: seq<Kv>, pending: seq<Token>) {
    && TaskInv(cfg.lm, cfg.stops, t)
    && (live <==> t.status != Stopped)
    && (cached <==> live && t.kind == Decode)
    && (if cached then Cached(cfg, t, len, kv) else len == 0 && kv == [])
    && Generated(t) == t.delivered + pending
  }

  /** A task that has just been run and is not yet looked at by `update`. */
  ghost predicate JustRan(cfg: Config, t: Task, len: nat, kv: seq<Kv>, pending: seq<Token>) {
    && TaskInv(cfg.lm, cfg.stops, t) && t.kind == Decode
    && Cached(cfg, t, len, kv)
    && Generated(t) == t.delivered + pending
  }

  ghost predicate LocalIn(cfg: Config, s: State, id: TaskId)
    requires id in s.tasks
  {
    Local(cfg, s.tasks[id], id in s.pool, id in s.cache.len, LenOf(s.cache, id), KvOf(s.contents, id),
        PendingFor(s.results, id))
  }

  ghost predicate Shape(s: State) {
    && CacheInv(s.cache) && 1 <= s.threshold <= s.cache.numBlocks
    && Distinct(s.pool)
    && (forall id :: id in s.pool ==> id in s.tasks)
    && s.cache.len.Keys <= s.tasks.Keys && s.contents.Keys == s.cache.len.Keys
    && |s.results| <= 1 && (s.results != [] ==> s.results[0].Keys <= s.tasks.Keys)
  }

  /** The invariant without the part that ties the congestion threshold to a live decode task. */
  ghost predicate Core(cfg: Config, s: State) {
    Shape(s) && forall id :: id in s.tasks ==> LocalIn(cfg, s, id)
  }

  ghost predicate SomeDecoding(s: State)
    requires forall id :: id in s.pool ==> id in s.tasks
  {
    exists id :: id in s.pool && s.tasks[id].kind == Decode
  }

  ghost predicate Inv(cfg: Config, s: State) {
    && cfg.prefillNum > 0 && cfg.decodeNum > 0
    && Core(cfg, s)
    && (s.threshold < s.cache.numBlocks ==> SomeDecoding(s))
  }

  lemma CoreWellTyped(cfg: Config, s: State)
    requires Core(cfg, s)
    ensures WellTyped(s)
  {
    hide Naive, Generate, Conserved;
    forall id | id in s.pool
      ensures s.tasks[id].consumed <= |s.tasks[id].prefix|
    {
      assert LocalIn(cfg, s, id);
    }
  }

  // ----- Eviction -----

  lemma LocalEvict(cfg: Config, t: Task, len: nat, kv: seq<Kv>, pending: seq<Token>)
    requires Local(cfg, t, true, true, len, kv, pending)
    ensures Local(cfg, Evicted(t), true, false, 0, [], pending)
  {
    EvictedKeeps(cfg.lm, cfg.stops, t);
  }

  /** Evicting a decode task keeps every agreement: the task keeps its generated tokens in its prefix,
      its queued token stays queued, its blocks go back, and nobody else is touched. */
  lemma EvictKeeps(cfg: Config, s: State, id: TaskId)
    requires Core(cfg, s) && id in s.pool && s.tasks[id].kind == Decode
    ensures Core(cfg, Evict(s, id))
    ensures EvictFrame(s, Evict(s, id), id)
  {
    hide Naive, Generate, Conserved, TaskInv, Cached;
    var e := Evict(s, id);
    FinalizeKeeps(s.cache, id);
    forall other | other in e.tasks
      ensures LocalIn(cfg, e, other)
    {
      assert LocalIn(cfg, s, other);
      if other == id {
        LocalEvict(cfg, s.tasks[id], LenOf(s.cache, id), KvOf(s.contents, id), PendingFor(s.results, id));
      }
    }
  }

  ghost predicate EvictFrame(s: State, e: State, id: TaskId)
    requires id in s.tasks
  {
    && e.pool == s.pool && e.results == s.results
    && e.cache.numBlocks == s.cache.numBlocks && e.cache.blockSize == s.cache.blockSize
    && e.tasks == s.tasks[id := Evicted(s.tasks[id])]
  }

  /** A list of live decode tasks without repetitions. */
  ghost predicate Decoders(s: State, ids: seq<TaskId>) {
    Distinct(ids) && forall id :: id in ids ==> id in s.pool && id in s.tasks && s.tasks[id].kind == Decode
  }

  /** The outcome of the eviction loop: a prefix of the priority list, untouched and not empty, fits
      into the free blocks; only the tasks behind that prefix have lost their cache. */
  ghost predicate KeptPrefix(s: State, ids: seq<TaskId>, e: State, kept: seq<TaskId>) {
    && kept <= ids && (ids != [] ==> kept != [])
    && e.pool == s.pool && e.results == s.results && e.tasks.Keys == s.tasks.Keys
    && e.cache.numBlocks == s.cache.numBlocks && e.cache.blockSize == s.cache.blockSize
    && (forall id :: id in s.tasks ==>
          e.tasks[id] == if id in ids[|kept|..] then Evicted(s.tasks[id]) else s.tasks[id])
    && (kept == ids ==> e == s)
  }

  lemma {:induction false} EvictLoopKeeps(cfg: Config, s: State, ids: seq<TaskId>)
    requires Core(cfg, s) && Decoders(s, ids) && EvictLoop(s, ids).Ok?
    ensures var (e, kept) := EvictLoop(s, ids).value;
      && Core(cfg, e) && Decoders(e, kept) && KeptPrefix(s, ids, e, kept)
      && DecodeNeed(e, kept) <= |e.cache.free|
    decreases |ids|
  {
    assert s.cache.blockSize > 0 && forall id :: id in ids ==> id in s.tasks;
    hide Core, Evict, EvictFrame, KeptPrefix;
    if |s.cache.free| >= DecodeNeed(s, ids) {
      KeptAll(s, ids);
    } else {
      var last, front := ids[|ids| - 1], ids[..|ids| - 1];
      EvictKeeps(cfg, s, last);
      var s' := Evict(s, last);
      EvictStaysDecoding(s, s', ids);
      EvictLoopKeeps(cfg, s', front);
      var (e, kept) := EvictLoop(s', front).value;
      KeptMore(s, s', ids, e, kept);
    }
  }

  lemma EvictStaysDecoding(s: State, e: State, ids: seq<TaskId>)
    requires ids != [] && Decoders(s, ids) && EvictFrame(s, e, ids[|ids| - 1])
    ensures Decoders(e, ids[..|ids| - 1])
  {
  }

  lemma KeptAll(s: State, ids: seq<TaskId>)
    ensures KeptPrefix(s, ids, s, ids)
  {
  }

  lemma KeptMore(s: State, s': State, ids: seq<TaskId>, e: State, kept: seq<TaskId>)
    requires |ids| > 1 && Decoders(s, ids) && EvictFrame(s, s', ids[|ids| - 1])
    requires KeptPrefix(s', ids[..|ids| - 1], e, kept)
    ensures KeptPrefix(s, ids, e, kept)
  {
    var last, front := ids[|ids| - 1], ids[..|ids| - 1];
    assert ids[|kept|..] == front[|kept|..] + [last];
    assert last !in front;
  }

  // ----- Admission -----

  /** A batch of distinct live tasks of one kind whose allocation fits. */
  ghost predicate Admitted(s: State, batch: seq<TaskId>) {
    && Runnable(s, batch) && Distinct(batch)
    && (forall id :: id in batch ==> s.tasks[id].status != Stopped && s.tasks[id].kind == s.tasks[batch[0]].kind)
    && NeedAll(Grow(s.cache, Growth(s, batch)), batch) <= |s.cache.free|
  }

  lemma DecoderFacts(cfg: Config, s: State, id: TaskId)
    requires Core(cfg, s) && id in s.pool && s.tasks[id].kind == Decode
    ensures id in s.cache.len && id in s.cache.table
    ensures s.tasks[id].synced && |s.tasks[id].prefix| == s.cache.len[id] + 1
  {
    hide Naive, Generate, Conserved, Entries;
    assert LocalIn(cfg, s, id);
  }

  lemma PrefillFacts(cfg: Config, s: State, id: TaskId)
    requires Core(cfg, s) && id in s.pool && s.tasks[id].kind == Prefill
    ensures id !in s.cache.len && id !in s.cache.table
    ensures s.tasks[id].consumed == 0 && s.tasks[id].chunk == None
  {
    hide Naive, Generate, Conserved, Entries;
    assert LocalIn(cfg, s, id);
  }

  lemma NeedOfDecoder(cfg: Config, s: State, batch: seq<TaskId>, id: TaskId)
    requires Core(cfg, s) && Runnable(s, batch) && id in batch && s.tasks[id].kind == Decode
    ensures var g := Grow(s.cache, Growth(s, batch));
      Need(g, id, LenOf(g, id)) == Need(s.cache, id, PrefixLen(s.tasks[id]))
  {
    hide LocalIn, Conserved, Tight, CeilDiv;
    DecoderFacts(cfg, s, id);
  }

  lemma NeedOfPrefill(cfg: Config, s: State, batch: seq<TaskId>, id: TaskId)
    requires Core(cfg, s) && Runnable(s, batch) && id in batch && s.tasks[id].kind == Prefill
    ensures var g := Grow(s.cache, Growth(s, batch));
      Need(g, id, LenOf(g, id)) == PrefillNeed(s, id)
  {
    hide LocalIn, Conserved, Tight, CeilDiv;
    PrefillFacts(cfg, s, id);
  }

  /** For decode tasks the prefix is one token ahead of the cache, so what the scheduler counts is
      what the cache manager will allocate. */
  lemma {:induction false} DecodeNeedIsAllocation(cfg: Config, s: State, batch: seq<TaskId>, ids: seq<TaskId>)
    requires Core(cfg, s) && Runnable(s, batch) && Decoders(s, batch) && Ids(ids) <= Ids(batch)
    ensures NeedAll(Grow(s.cache, Growth(s, batch)), ids) == DecodeNeed(s, ids)
    decreases |ids|
  {
    hide LocalIn, Conserved, Tight, Grow, Growth, Need;
    if ids != [] {
      assert ids[0] in Ids(ids);
      StatusLive(cfg, s);
      NeedOfDecoder(cfg, s, batch, ids[0]);
      IdsCons(ids);
      DecodeNeedIsAllocation(cfg, s, batch, ids[1..]);
    }
  }

  lemma {:induction false} DecodeNeedPrefix(s: State, ids: seq<TaskId>, k: nat)
    requires s.cache.blockSize > 0 && k <= |ids| && forall id :: id in ids ==> id in s.tasks
    ensures DecodeNeed(s, ids[..k]) <= DecodeNeed(s, ids)
    decreases k
  {
    if k > 0 {
      assert ids[..k][0] == ids[0] && ids[..k][1..] == ids[1..][..k - 1];
      DecodeNeedPrefix(s, ids[1..], k - 1);
    }
  }

  /** For prefill tasks nothing is consumed and nothing is cached, so a beginning of the priority list is
      counted exactly when what the cache manager will allocate for it fits under the threshold together
      with the blocks in use. */
  lemma {:induction false} PrefillNeedIsAllocation(cfg: Config, s: State, batch: seq<TaskId>, ids: seq<TaskId>,
      need: nat, k: nat)
    requires Core(cfg, s) && Runnable(s, batch)
    requires forall id :: id in ids ==> id in s.pool && s.tasks[id].kind == Prefill
    requires 0 < k <= |ids| && Ids(ids[..k]) <= Ids(batch)
    ensures k <= PrefillCount(s, ids, need) <==>
      s.cache.Used() + need + NeedAll(Grow(s.cache, Growth(s, batch)), ids[..k]) <= s.threshold
    decreases k
  {
    hide LocalIn, Conserved, Tight, Grow, Growth, Need, PrefillNeed;
    var id := ids[0];
    assert ids[..k][0] == id && ids[..k][1..] == ids[1..][..k - 1];
    assert id in Ids(ids[..k]);
    NeedOfPrefill(cfg, s, batch, id);
    IdsCons(ids[..k]);
    if k > 1 {
      PrefillNeedIsAllocation(cfg, s, batch, ids[1..], need + PrefillNeed(s, id), k - 1);
    }
  }

  lemma {:induction false} OfKindDistinct(tasks: map<TaskId, Task>, ids: seq<TaskId>, k: Kind)
    requires Distinct(ids) && forall id :: id in ids ==> id in tasks
    ensures Distinct(OfKind(tasks, ids, k))
    decreases |ids|
  {
    if ids != [] {
      assert forall id :: id in ids[1..] ==> id != ids[0];
      OfKindDistinct(tasks, ids[1..], k);
    }
  }

  lemma {:induction false} ReadyAll(tasks: map<TaskId, Task>, ids: seq<TaskId>)
    requires forall id :: id in ids ==> id in tasks && tasks[id].status != Stopped
    ensures Ready(tasks, ids) == ids
    decreases |ids|
  {
    if ids != [] {
      ReadyAll(tasks, ids[1..]);
    }
  }

  /** In the invariant, an order of the ready tasks is a permutation of the whole pool. */
  lemma OrderIsPool(cfg: Config, s: State, order: seq<TaskId>)
    requires Core(cfg, s) && WellTyped(s) && IsOrder(s, order)
    ensures Distinct(order) && forall id :: id in order <==> id in s.pool
  {
    hide Naive, Generate, Conserved, Entries;
    forall id | id in s.pool
      ensures s.tasks[id].status != Stopped
    {
      assert LocalIn(cfg, s, id);
    }
    ReadyAll(s.tasks, s.pool);
    DistinctPermutation(s.pool, order);
  }

  /** Blocks in use belong to a live decode task. */
  lemma UsedMeansDecoding(cfg: Config, s: State)
    requires Core(cfg, s) && s.cache.Used() != 0
    ensures SomeDecoding(s)
  {
    hide Naive, Generate, Entries;
    CountBlocks(s.cache, TaskId(""));
    var id :| id in s.cache.table && s.cache.table[id] != [];
    assert LocalIn(cfg, s, id);
    assert id in s.pool && s.tasks[id].kind == Decode;
  }

  /** Scheduling decode tasks: the kept tasks are admitted, and one of them is still decoding. */
  lemma ScheduleDecodeAdmits(cfg: Config, s: State, order: seq<TaskId>)
    requires Inv(cfg, s) && WellTyped(s) && IsOrder(s, order)
    requires forall id :: id in order ==> id in s.pool
    requires ScheduleDecode(cfg, s, order).Ok?
    ensures var (e, batch) := ScheduleDecode(cfg, s, order).value;
      Scheduled(cfg, s, e, batch) && (SomeDecoding(s) ==> batch != [])
  {
    hide LocalIn, Conserved, Tight, DecodeNeed, NeedAll, Grow, Growth, OfKind, Ready, IsOrder, EvictLoop;
    OrderIsPool(cfg, s, order);
    var ids := OfKind(s.tasks, order, Decode);
    OfKindDistinct(s.tasks, order, Decode);
    EvictLoopKeeps(cfg, s, ids);
    var (e, kept) := EvictLoop(s, ids).value;
    var batch := kept[..Min(cfg.decodeNum, |kept|)];
    CoreWellTyped(cfg, e);
    KeptAdmitted(cfg, e, kept, |batch|);
    assert ids == kept + ids[|kept|..];
    if e.threshold < e.cache.numBlocks && ids != [] {
      assert kept[0] in e.pool && e.tasks[kept[0]].kind == Decode;
    }
  }

  /** A prefix of decode tasks that fit is admitted. */
  lemma KeptAdmitted(cfg: Config, e: State, kept: seq<TaskId>, k: nat)
    requires Core(cfg, e) && WellTyped(e) && Decoders(e, kept) && k <= |kept|
    requires DecodeNeed(e, kept) <= |e.cache.free|
    ensures Admitted(e, kept[..k])
  {
    hide LocalIn, Conserved, Tight, DecodeNeed, NeedAll, Grow, Growth;
    DecodeNeedPrefix(e, kept, k);
    DecodeNeedIsAllocation(cfg, e, kept[..k], kept[..k]);
    StatusLive(cfg, e);
  }

  /** Scheduling and eviction add nothing to a run but evictions. */
  ghost predicate SameRun(s: State, e: State) {
    && e.pool == s.pool && e.results == s.results && e.tasks.Keys == s.tasks.Keys
    && e.cache.numBlocks == s.cache.numBlocks && e.cache.blockSize == s.cache.blockSize
    && forall id :: id in s.tasks ==> e.tasks[id] == s.tasks[id] || e.tasks[id] == Evicted(s.tasks[id])
  }

  /** The batch can be allocated, its tasks are untouched, and every other task is untouched or evicted. */
  ghost predicate Scheduled(cfg: Config, s: State, e: State, batch: seq<TaskId>) {
    && Inv(cfg, e) && Admitted(e, batch) && SameRun(s, e)
    && forall id :: id in batch ==> id in s.tasks && e.tasks[id] == s.tasks[id]
  }

  lemma StatusLive(cfg: Config, s: State)
    requires Core(cfg, s)
    ensures forall id :: id in s.pool ==> s.tasks[id].status != Stopped
  {
    hide Naive, Generate, Conserved, Entries;
    forall id | id in s.pool
      ensures s.tasks[id].status != Stopped
    {
      assert LocalIn(cfg, s, id);
    }
  }

  /** The prefill tasks that fit are admitted. */
  lemma SchedulePrefillAdmits(cfg: Config, s: State, order: seq<TaskId>)
    requires Inv(cfg, s) && WellTyped(s) && IsOrder(s, order)
    requires forall id :: id in order ==> id in s.pool
    requires SchedulePrefill(s, order).Ok? && SchedulePrefill(s, order).value != []
    ensures AdmittedPrefix(cfg, s, SchedulePrefill(s, order).value)
  {
    hide LocalIn, CacheInv, OfKind, Ready, IsOrder, PrefillCount, Admitted;
    OrderIsPool(cfg, s, order);
    var ids := OfKind(s.tasks, order, Prefill);
    var n := PrefillCount(s, ids, 0);
    var k := Min(cfg.prefillNum, n);
    assert ids[..n][..k] == ids[..k];
    OfKindDistinct(s.tasks, order, Prefill);
    PrefixAdmitted(cfg, s, ids, k);
  }

  /** The beginning of the list that makes up a batch is not empty and can be scheduled as it is. */
  ghost predicate AdmittedPrefix(cfg: Config, s: State, ids: seq<TaskId>) {
    var batch := ids[..Min(cfg.prefillNum, |ids|)];
    Scheduled(cfg, s, s, batch) && batch != []
  }

  /** A beginning of the prefill list that fits is admitted. */
  lemma PrefixAdmitted(cfg: Config, s: State, ids: seq<TaskId>, k: nat)
    requires Core(cfg, s) && WellTyped(s) && Distinct(ids)
    requires forall id :: id in ids ==> id in s.pool && s.tasks[id].kind == Prefill
    requires 0 < k <= PrefillCount(s, ids, 0) && s.threshold <= s.cache.numBlocks
    ensures Admitted(s, ids[..k])
  {
    hide LocalIn, Conserved, NeedAll, Grow, Growth, PrefillCount;
    var batch := ids[..k];
    assert forall id :: id in batch ==> id in ids;
    StatusLive(cfg, s);
    PrefillNeedIsAllocation(cfg, s, batch, ids, 0, k);
  }

  lemma EmptyNeed(s: State, batch: seq<TaskId>)
    requires Runnable(s, batch)
    ensures batch == [] ==> NeedAll(Grow(s.cache, Growth(s, batch)), batch) == 0
  {
  }

  /** Whatever `schedule` returns can be allocated, and with a non-empty pool it returns a non-empty
      batch or raises the capacity error. */
  lemma ScheduleAdmits(cfg: Config, s: State, order: seq<TaskId>)
    requires Inv(cfg, s) && WellTyped(s) && IsOrder(s, order)
    requires forall id :: id in order ==> id in s.pool
    requires Schedule(cfg, s, order).Ok?
    ensures var (e, batch) := Schedule(cfg, s, order).value;
      Scheduled(cfg, s, e, batch) && (s.pool != [] <==> batch != [])
  {
    hide Inv, Scheduled, IsOrder, SchedulePrefill, ScheduleDecode, PrefillCount, OfKind, Core;
    PoolOrder(cfg, s, order);
    if order == [] {
      NothingScheduled(cfg, s);
    } else if s.tasks[order[0]].kind == Prefill {
      PrefillOutcome(cfg, s, order);
      if SchedulePrefill(s, order).value != [] {
        SchedulePrefillAdmits(cfg, s, order);
      } else {
        ScheduleDecodeAdmits(cfg, s, order);
      }
    } else {
      assert order[0] in s.pool;
      ScheduleDecodeAdmits(cfg, s, order);
    }
  }

  lemma PoolOrder(cfg: Config, s: State, order: seq<TaskId>)
    requires Inv(cfg, s) && WellTyped(s) && IsOrder(s, order)
    ensures order == [] <==> s.pool == []
    ensures Core(cfg, s)
  {
    hide LocalIn, Conserved, Tight;
    OrderIsPool(cfg, s, order);
    if s.pool != [] {
      assert s.pool[0] in order;
    }
    if order != [] {
      assert order[0] in s.pool;
    }
  }

  lemma NothingScheduled(cfg: Config, s: State)
    requires Inv(cfg, s) && WellTyped(s)
    ensures Scheduled(cfg, s, s, [])
  {
    hide LocalIn, Conserved, Tight;
    EmptyNeed(s, []);
  }

  /** When no prefill task fits and no capacity error is raised, some task is decoding. */
  lemma PrefillOutcome(cfg: Config, s: State, order: seq<TaskId>)
    requires Inv(cfg, s) && WellTyped(s) && forall id :: id in order ==> id in s.pool
    requires SchedulePrefill(s, order).Ok?
    ensures SchedulePrefill(s, order).value != [] <==> PrefillCount(s, OfKind(s.tasks, order, Prefill), 0) > 0
    ensures SchedulePrefill(s, order).value == [] ==> SomeDecoding(s)
  {
    hide LocalIn, Conserved, Tight, OfKind, PrefillCount;
    if s.cache.Used() != 0 {
      UsedMeansDecoding(cfg, s);
    }
  }

  // ----- One model step -----

  /** What a step does to one scheduled task: run, deliver its queued token, then sample. */
  ghost function Stepped(cfg: Config, t: Task, kv: seq<Kv>, pending: seq<Token>): Task
    requires t.kind == Prefill ==> t.consumed <= |t.prefix|
    requires |pending| <= 1
  {
    var sent := if pending == [] then AfterRun(t) else AddData(AfterRun(t), pending[0]);
    Advance(cfg.stops, sent, cfg.lm.next(Extend(cfg.lm, kv, Input(t))))
  }

  /** Feeding its input to the cached entries gives the entries of the whole prefix. */
  lemma InputCompletes(cfg: Config, t: Task, cached: bool, len: nat, kv: seq<Kv>, pending: seq<Token>)
    requires Local(cfg, t, true, cached, len, kv, pending)
    ensures Extend(cfg.lm, kv, Input(t)) == Entries(cfg.lm, t.prefix)
    ensures len + |Input(t)| == |t.prefix|
  {
    hide Naive, Generate, Extend, Input;
    if t.kind == Prefill {
      InputIsPrefix(t);
    } else {
      LastInput(cfg.lm, t);
    }
  }

  lemma InputIsPrefix(t: Task)
    requires t.kind == Prefill && t.chunk == None && t.consumed == 0
    ensures Input(t) == t.prefix
  {
  }

  lemma LastInput(lm: Lm, t: Task)
    requires t.kind == Decode && t.prefix != [] && t.nextToken == t.prefix[|t.prefix| - 1]
    ensures Extend(lm, Entries(lm, t.prefix[..|t.prefix| - 1]), Input(t)) == Entries(lm, t.prefix)
    ensures |Input(t)| == 1
  {
    hide Extend;
    var front := t.prefix[..|t.prefix| - 1];
    assert t.prefix == front + [t.nextToken];
    ExtendConcat(lm, [], front, [t.nextToken]);
  }

  /** Delivering the queued token and then advancing by the greedy token keeps the task on track. */
  lemma StepOnTrack(cfg: Config, t: Task, pending: seq<Token>, ran: Task, token: Token)
    requires TaskInv(cfg.lm, cfg.stops, t) && t.status != Stopped && |pending| <= 1
    requires Generated(t) == t.delivered + pending && token == Greedy(cfg.lm, t.prefix)
    requires ran == if pending == [] then AfterRun(t) else AddData(AfterRun(t), pending[0])
    ensures var u := Advance(cfg.stops, ran, token);
      && TaskInv(cfg.lm, cfg.stops, u) && u.kind == Decode && u.prefix == t.prefix + [token]
      && u.nextToken == token && u.numNew == t.numNew + 1 && u.req == t.req
      && Generated(u) == u.delivered + [token]
  {
    hide Naive, Generate, Greedy, Advance;
    var sent := if pending == [] then t else AddData(t, pending[0]);
    if pending != [] {
      assert pending == [pending[0]];
      AddDataKeeps(cfg.lm, cfg.stops, t, pending[0]);
    } else {
      assert t.delivered + pending == t.delivered;
    }
    assert ran == AfterRun(sent);
    AdvanceKeeps(cfg.lm, cfg.stops, sent, ran);
  }

  /** The sampled token is the greedy successor, so the task moves one token along the naive loop. */
  lemma LocalStep(cfg: Config, t: Task, cached: bool, len: nat, kv: seq<Kv>, pending: seq<Token>)
    requires Local(cfg, t, true, cached, len, kv, pending) && |pending| <= 1
    ensures var u := Stepped(cfg, t, kv, pending);
      && JustRan(cfg, u, len + |Input(t)|, Extend(cfg.lm, kv, Input(t)), [u.nextToken])
      && u.nextToken == Greedy(cfg.lm, t.prefix) && u.numNew == t.numNew + 1 && u.req == t.req
  {
    hide Naive, Generate, Greedy, Entries, Extend, Advance, AfterRun, AddData, Input;
    InputCompletes(cfg, t, cached, len, kv, pending);
    GreedyIs(cfg.lm, t.prefix);
    var token := Greedy(cfg.lm, t.prefix);
    var ran := if pending == [] then AfterRun(t) else AddData(AfterRun(t), pending[0]);
    StepOnTrack(cfg, t, pending, ran, token);
    var u := Stepped(cfg, t, kv, pending);
    assert u == Advance(cfg.stops, ran, token);
    assert u.prefix[..|u.prefix| - 1] == t.prefix;
  }

  lemma GreedyIs(lm: Lm, tokens: seq<Token>)
    ensures lm.next(Entries(lm, tokens)) == Greedy(lm, tokens)
  {
  }

  /** Delivery of a queued token to a task that is not scheduled. */
  lemma LocalDeliver(cfg: Config, t: Task, live: bool, cached: bool, len: nat, kv: seq<Kv>, token: Token)
    requires Local(cfg, t, live, cached, len, kv, [token])
    ensures Local(cfg, AddData(t, token), live, cached, len, kv, [])
  {
    hide Naive, Generate, Entries;
    AddDataKeeps(cfg.lm, cfg.stops, t, token);
  }

  /** The state between a model step and the scheduler update. */
  ghost predicate Between(cfg: Config, s: State, batch: seq<TaskId>) {
    && Shape(s) && Distinct(batch) && (forall id :: id in batch ==> id in s.pool && id in s.cache.len)
    && (forall id :: id in s.tasks && id !in batch ==> LocalIn(cfg, s, id))
    && (forall id :: id in batch ==>
          JustRan(cfg, s.tasks[id], LenOf(s.cache, id), KvOf(s.contents, id), PendingFor(s.results, id)))
  }

  lemma PendingOne(results: seq<map<TaskId, Token>>, id: TaskId)
    requires |results| <= 1
    ensures PendingFor(results, id) == if results != [] && id in results[0] then [results[0][id]] else []
  {
    if results != [] {
      assert PendingFor(results[1..], id) == [];
    }
  }

  /** Allocation for an admitted batch: it succeeds, and every length grows by the task's own input. */
  lemma PrepareBatch(cfg: Config, s: State, batch: seq<TaskId>)
    requires Core(cfg, s) && Admitted(s, batch)
    ensures Prepare(s.cache, batch, Growth(s, batch)).Ok?
    ensures var d := Prepare(s.cache, batch, Growth(s, batch)).value;
      && CacheInv(d) && d.numBlocks == s.cache.numBlocks && d.blockSize == s.cache.blockSize
      && d.len == Grow(s.cache, Growth(s, batch)).len
  {
    hide LocalIn, Conserved, Tight, NeedAll, Prepare, Input;
    PrepareKeeps(s.cache, batch, Growth(s, batch));
  }

  /** An admitted batch is always computed: no allocation error. */
  lemma ComputeSucceeds(cfg: Config, s: State, batch: seq<TaskId>)
    requires Core(cfg, s) && Admitted(s, batch)
    ensures Compute(cfg, s, batch).Ok?
  {
    hide LocalIn, CacheInv, NeedAll, Grow, Prepare, RunModel, RunTasks, SampleTasks, Deliver, BatchResult;
    PrepareBatch(cfg, s, batch);
  }

  /** The executor's step seen by one task. */
  lemma ComputeTask(cfg: Config, s: State, batch: seq<TaskId>, id: TaskId)
    requires Core(cfg, s) && Admitted(s, batch) && Compute(cfg, s, batch).Ok? && id in s.tasks
    ensures var e := Compute(cfg, s, batch).value;
      && e.tasks.Keys == s.tasks.Keys && |e.results| == 1
      && |PendingFor(s.results, id)| <= 1
      && PendingFor(e.results, id) == (if id in batch then [e.tasks[id].nextToken] else [])
      && e.tasks[id] == TaskAfter(cfg, s, batch, id)
  {
    hide LocalIn, CacheInv, Compute, TaskAfter, BatchResult, Deliver, SampleTasks, RunTasks, RunModel, PendingFor;
    var e := Compute(cfg, s, batch).value;
    var ran := RanState(cfg, s, batch, e.cache);
    ComputeIs(cfg, s, batch);
    SampledTask(cfg, s, batch, e.cache, id);
    PendingOne(s.results, id);
    PendingOne(e.results, id);
    QueuedToken(cfg, s, batch, id, e.tasks);
  }

  /** The state between the model run and the delivery of earlier results. */
  ghost function RanState(cfg: Config, s: State, batch: seq<TaskId>, cache: Cache): State
    requires Runnable(s, batch)
  {
    s.(cache := cache, contents := RunModel(cfg.lm, s, batch), tasks := RunTasks(s.tasks, batch))
  }

  lemma ComputeIs(cfg: Config, s: State, batch: seq<TaskId>)
    requires Runnable(s, batch) && Compute(cfg, s, batch).Ok? && |s.results| <= 1
    ensures var e := Compute(cfg, s, batch).value;
      var ran := RanState(cfg, s, batch, e.cache);
      && e.tasks == SampleTasks(cfg, Deliver(ran).tasks, batch, ran.contents)
      && e.results == [BatchResult(e.tasks, batch)]
  {
    hide Prepare, RunModel, RunTasks, SampleTasks, BatchResult;
  }

  /** Sampling after delivery after the run, seen by one task. */
  lemma SampledTask(cfg: Config, s: State, batch: seq<TaskId>, cache: Cache, id: TaskId)
    requires Runnable(s, batch) && id in s.tasks && |s.results| <= 1
    ensures var ran := RanState(cfg, s, batch, cache);
      var tasks := SampleTasks(cfg, Deliver(ran).tasks, batch, ran.contents);
      tasks.Keys == s.tasks.Keys && tasks[id] == TaskAfter(cfg, s, batch, id)
  {
    hide Advance, AfterRun, AddData, RunModel, PendingFor, Input, Extend;
    PendingOne(s.results, id);
    RunModelAt(cfg.lm, s, batch, id);
  }

  lemma QueuedToken(cfg: Config, s: State, batch: seq<TaskId>, id: TaskId, tasks: map<TaskId, Task>)
    requires Runnable(s, batch) && id in s.tasks && id in tasks && tasks[id] == TaskAfter(cfg, s, batch, id)
    ensures var r := BatchResult(tasks, batch);
      (id in r <==> id in batch) && (id in batch ==> r[id] == tasks[id].nextToken)
  {
    hide Advance, TaskSent;
    if id in batch {
      AdvanceToken(cfg.stops, TaskSent(s, batch, id),
          cfg.lm.next(Extend(cfg.lm, KvOf(s.contents, id), Input(s.tasks[id]))));
    }
  }

  lemma AdvanceToken(stops: set<Token>, t: Task, token: Token)
    ensures Advance(stops, t, token).nextToken == token
  {
  }

  ghost function TaskSent(s: State, batch: seq<TaskId>, id: TaskId): Task
    requires id in s.tasks
  {
    var ran := if id in batch then AfterRun(s.tasks[id]) else s.tasks[id];
    var pending := PendingFor(s.results, id);
    if pending == [] then ran else AddData(ran, pending[0])
  }

  ghost function TaskAfter(cfg: Config, s: State, batch: seq<TaskId>, id: TaskId): Task
    requires Runnable(s, batch) && id in s.tasks
  {
    var sent := TaskSent(s, batch, id);
    if id in batch then Advance(cfg.stops, sent, cfg.lm.next(Extend(cfg.lm, KvOf(s.contents, id), Input(s.tasks[id]))))
    else sent
  }

  /** Every scheduled task is one naive token further and decoding; the others have not moved. */
  ghost predicate Progressed(s: State, batch: seq<TaskId>, e: State) {
    && e.pool == s.pool && e.threshold == s.threshold && e.tasks.Keys == s.tasks.Keys
    && e.cache.numBlocks == s.cache.numBlocks && e.cache.blockSize == s.cache.blockSize
    && forall id :: id in s.tasks ==>
         if id in batch then OneFurther(s.tasks[id], e.tasks[id]) else SameProgress(s.tasks[id], e.tasks[id])
  }

  ghost predicate SameProgress(t: Task, u: Task) {
    u.req == t.req && u.kind == t.kind && u.numNew == t.numNew && u.status == t.status
  }

  ghost predicate OneFurther(t: Task, u: Task) {
    u.req == t.req && u.kind == Decode && u.numNew == t.numNew + 1
  }

  /** The executor's step keeps every agreement: afterwards each scheduled task is one naive token
      further, its cache covers the whole old prefix, and exactly that token is queued. */
  lemma ComputeKeeps(cfg: Config, s: State, batch: seq<TaskId>)
    requires Core(cfg, s) && Admitted(s, batch)
    ensures Compute(cfg, s, batch).Ok?
    ensures Between(cfg, Compute(cfg, s, batch).value, batch)
  {
    hide Core, CacheInv, Compute, Shape, JustRan, NeedAll, LocalIn, RunModel;
    ComputeSucceeds(cfg, s, batch);
    var e := Compute(cfg, s, batch).value;
    ComputeParts(cfg, s, batch);
    ComputeShape(cfg, s, batch);
    forall id | id in e.tasks && id !in batch
      ensures LocalIn(cfg, e, id)
    {
      ComputeOther(cfg, s, batch, id);
    }
    forall id | id in batch
      ensures JustRan(cfg, e.tasks[id], LenOf(e.cache, id), KvOf(e.contents, id), PendingFor(e.results, id))
    {
      ComputeScheduled(cfg, s, batch, id);
    }
    BatchInPool(cfg, s, batch);
  }

  lemma BatchInPool(cfg: Config, s: State, batch: seq<TaskId>)
    requires Core(cfg, s) && Admitted(s, batch)
    ensures Distinct(batch) && forall id :: id in batch ==> id in s.pool && id in s.tasks && id in Ids(batch)
  {
  }

  lemma ComputeProgress(cfg: Config, s: State, batch: seq<TaskId>)
    requires Core(cfg, s) && Admitted(s, batch) && Compute(cfg, s, batch).Ok?
    ensures Progressed(s, batch, Compute(cfg, s, batch).value)
  {
    hide Core, Shape, Compute, JustRan, SameProgress, OneFurther, LocalIn, RunModel, CacheInv, Prepare, Growth;
    var e := Compute(cfg, s, batch).value;
    ComputeParts(cfg, s, batch);
    ComputeShape(cfg, s, batch);
    forall id | id in s.tasks
      ensures if id in batch then OneFurther(s.tasks[id], e.tasks[id]) else SameProgress(s.tasks[id], e.tasks[id])
    {
      if id in batch {
        ComputeScheduled(cfg, s, batch, id);
      } else {
        ComputeOther(cfg, s, batch, id);
      }
    }
  }

  lemma ComputeParts(cfg: Config, s: State, batch: seq<TaskId>)
    requires Core(cfg, s) && Admitted(s, batch) && Compute(cfg, s, batch).Ok?
    ensures var e := Compute(cfg, s, batch).value;
      && Prepare(s.cache, batch, Growth(s, batch)) == Ok(e.cache)
      && e.contents == RunModel(cfg.lm, s, batch)
      && e.pool == s.pool && e.threshold == s.threshold && e.tasks.Keys == s.tasks.Keys
      && |e.results| == 1 && e.results[0].Keys <= e.tasks.Keys
  {
    hide Prepare, Advance, AfterRun, AddData, Extend, Input, LocalIn, CacheInv, NeedAll, RunModel, InputOf;
  }

  lemma ComputeShape(cfg: Config, s: State, batch: seq<TaskId>)
    requires Core(cfg, s) && Admitted(s, batch) && Compute(cfg, s, batch).Ok?
    ensures var e := Compute(cfg, s, batch).value;
      && Shape(e)
      && e.cache.numBlocks == s.cache.numBlocks && e.cache.blockSize == s.cache.blockSize
      && e.cache.len.Keys == s.cache.len.Keys + Ids(batch)
  {
    hide LocalIn, NeedAll, Prepare, Compute, Extend, Input, CacheInv;
    ComputeParts(cfg, s, batch);
    PrepareBatch(cfg, s, batch);
  }

  lemma ComputeLen(cfg: Config, s: State, batch: seq<TaskId>, id: TaskId)
    requires Core(cfg, s) && Admitted(s, batch) && Compute(cfg, s, batch).Ok?
    ensures LenOf(Compute(cfg, s, batch).value.cache, id) ==
      LenOf(s.cache, id) + if id in batch then |Input(s.tasks[id])| else 0
  {
    hide Core, NeedAll, Prepare, Compute, Input, CacheInv, RunModel;
    ComputeParts(cfg, s, batch);
    PrepareBatch(cfg, s, batch);
  }

  /** The step keeps an unscheduled task in agreement. */
  lemma ComputeOther(cfg: Config, s: State, batch: seq<TaskId>, id: TaskId)
    requires Core(cfg, s) && Admitted(s, batch) && Compute(cfg, s, batch).Ok? && id in s.tasks && id !in batch
    ensures var e := Compute(cfg, s, batch).value;
      id in e.tasks && SameProgress(s.tasks[id], e.tasks[id]) && LocalIn(cfg, e, id)
  {
    hide Compute, Core, Local, Shape, RunModel, PendingFor, NeedAll, SameProgress, AddData, CacheInv;
    ComputeParts(cfg, s, batch);
    ComputeTask(cfg, s, batch, id);
    ComputeShape(cfg, s, batch);
    ComputeLen(cfg, s, batch, id);
    BatchInPool(cfg, s, batch);
    RunModelAt(cfg.lm, s, batch, id);
    TaskLocal(cfg, s, id);
    var pending := PendingFor(s.results, id);
    OtherTask(cfg, s.tasks[id], id in s.pool, id in s.cache.len, LenOf(s.cache, id), KvOf(s.contents, id), pending);
  }

  lemma TaskLocal(cfg: Config, s: State, id: TaskId)
    requires Core(cfg, s) && id in s.tasks
    ensures LocalIn(cfg, s, id)
  {
    hide LocalIn, CacheInv;
  }

  /** What a step does to a task that is not scheduled: its queued token is delivered. */
  lemma OtherTask(cfg: Config, t: Task, live: bool, cached: bool, len: nat, kv: seq<Kv>, pending: seq<Token>)
    requires Local(cfg, t, live, cached, len, kv, pending) && |pending| <= 1
    ensures var u := if pending == [] then t else AddData(t, pending[0]);
      Local(cfg, u, live, cached, len, kv, []) && SameProgress(t, u)
  {
    hide TaskInv, Cached;
    if pending != [] {
      assert pending == [pending[0]];
      LocalDeliver(cfg, t, live, cached, len, kv, pending[0]);
    }
  }

  /** The step moves a scheduled task one naive token further. */
  lemma ScheduledStep(cfg: Config, s: State, batch: seq<TaskId>, id: TaskId)
    requires Core(cfg, s) && Admitted(s, batch) && id in batch
    ensures var (t, kv, u) := (s.tasks[id], KvOf(s.contents, id), TaskAfter(cfg, s, batch, id));
      && OneFurther(t, u)
      && JustRan(cfg, u, LenOf(s.cache, id) + |Input(t)|, Extend(cfg.lm, kv, Input(t)), [u.nextToken])
  {
    var t, kv, pending := s.tasks[id], KvOf(s.contents, id), PendingFor(s.results, id);
    assert LocalIn(cfg, s, id) && id in s.pool && |s.results| <= 1 by {
      hide LocalIn, CacheInv;
    }
    hide Core, Local, OneFurther, NeedAll, Extend, Input, Advance, AfterRun, AddData, JustRan, TaskAfter, Stepped;
    PendingOne(s.results, id);
    LocalStep(cfg, t, id in s.cache.len, LenOf(s.cache, id), kv, pending);
    AfterIsStepped(cfg, s, batch, id);
    RanOneFurther(cfg, t, TaskAfter(cfg, s, batch, id), LenOf(s.cache, id) + |Input(t)|, Extend(cfg.lm, kv, Input(t)));
  }

  lemma AfterIsStepped(cfg: Config, s: State, batch: seq<TaskId>, id: TaskId)
    requires Runnable(s, batch) && id in batch && |s.results| <= 1
    ensures |PendingFor(s.results, id)| <= 1
    ensures TaskAfter(cfg, s, batch, id) == Stepped(cfg, s.tasks[id], KvOf(s.contents, id), PendingFor(s.results, id))
  {
    hide Extend, Input, Advance, AfterRun, AddData;
    PendingOne(s.results, id);
  }

  lemma RanOneFurther(cfg: Config, t: Task, u: Task, len: nat, kv: seq<Kv>)
    requires JustRan(cfg, u, len, kv, [u.nextToken]) && u.numNew == t.numNew + 1 && u.req == t.req
    ensures OneFurther(t, u)
  {
    hide TaskInv, Cached;
  }

  lemma ComputeScheduled(cfg: Config, s: State, batch: seq<TaskId>, id: TaskId)
    requires Core(cfg, s) && Admitted(s, batch) && Compute(cfg, s, batch).Ok? && id in batch
    ensures var e := Compute(cfg, s, batch).value;
      && id in e.tasks && OneFurther(s.tasks[id], e.tasks[id])
      && JustRan(cfg, e.tasks[id], LenOf(e.cache, id), KvOf(e.contents, id), PendingFor(e.results, id))
  {
    hide Compute, Prepare, Core, JustRan, OneFurther, TaskAfter, NeedAll, Extend, Input, RunModel, PendingFor,
      CacheInv, LocalIn;
    ComputeParts(cfg, s, batch);
    ComputeTask(cfg, s, batch, id);
    ComputeLen(cfg, s, batch, id);
    ScheduledStep(cfg, s, batch, id);
    RunModelAt(cfg.lm, s, batch, id);
  }

  // ----- After the step -----

  /** A task that has just run leaves the pool and the cache exactly when it is stopped. */
  lemma LocalUpdate(cfg: Config, t: Task, len: nat, kv: seq<Kv>, pending: seq<Token>)
    requires JustRan(cfg, t, len, kv, pending)
    ensures t.status == Stopped ==> Local(cfg, t, false, false, 0, [], pending)
    ensures t.status != Stopped ==> Local(cfg, t, true, true, len, kv, pending)
  {
    hide Naive, Generate, Entries;
  }

  lemma {:induction false} RemoveIdsDistinct(pool: seq<TaskId>, gone: set<TaskId>)
    requires Distinct(pool)
    ensures Distinct(RemoveIds(pool, gone))
    decreases |pool|
  {
    if pool != [] {
      assert forall id :: id in pool[1..] ==> id != pool[0];
      RemoveIdsDistinct(pool[1..], gone);
    }
  }

  ghost predicate SomeStopped(s: State, batch: seq<TaskId>)
    requires forall id :: id in batch ==> id in s.tasks
  {
    exists id :: id in batch && s.tasks[id].status == Stopped
  }

  /** `update` removes the stopped tasks of the batch, all of them decoding, and with the first of
      them lifts the congestion threshold again. */
  ghost predicate Updated(s: State, batch: seq<TaskId>, e: State)
    requires forall id :: id in batch ==> id in s.tasks
  {
    && e.tasks == s.tasks && e.results == s.results
    && e.cache.numBlocks == s.cache.numBlocks && e.cache.blockSize == s.cache.blockSize
    && (forall id :: id in e.pool <==> id in s.pool && !(id in batch && s.tasks[id].status == Stopped))
    && (forall id :: id in e.cache.len <==> id in s.cache.len && !(id in batch && s.tasks[id].status == Stopped))
    && (forall id :: id in e.cache.len ==>
         e.cache.len[id] == s.cache.len[id] && KvOf(e.contents, id) == KvOf(s.contents, id))
    && e.threshold == if SomeStopped(s, batch) then s.cache.numBlocks else s.threshold
  }

  /** Every task of the batch has turned to decoding. */
  ghost predicate AllDecoding(s: State, batch: seq<TaskId>) {
    forall id :: id in batch ==> id in s.tasks && s.tasks[id].kind == Decode
  }

  lemma FreedIsStopped(s: State, batch: seq<TaskId>, ids: seq<TaskId>)
    requires AllDecoding(s, batch) && multiset(ids) == multiset(batch)
    requires forall id :: id in ids ==> id in s.tasks
    ensures var stopped := StoppedOf(s.tasks, ids);
      var freed := OfKind(s.tasks, stopped, Decode);
      && Ids(freed) == Ids(stopped)
      && (forall id :: id in Ids(stopped) <==> id in batch && s.tasks[id].status == Stopped)
      && (freed != [] <==> SomeStopped(s, batch))
  {
    hide StoppedOf, OfKind;
    SameElements(ids, batch);
    var freed := OfKind(s.tasks, StoppedOf(s.tasks, ids), Decode);
    if id :| id in batch && s.tasks[id].status == Stopped {
      assert id in freed;
    }
    if freed != [] {
      assert freed[0] in batch && s.tasks[freed[0]].status == Stopped;
    }
  }

  /** What the update does to pool, cache and threshold. */
  lemma UpdateEffect(s: State, batch: seq<TaskId>, ids: seq<TaskId>)
    requires CacheInv(s.cache) && Distinct(s.pool) && s.contents.Keys == s.cache.len.Keys
    requires AllDecoding(s, batch) && multiset(ids) == multiset(batch)
    requires forall id :: id in ids ==> id in s.tasks
    ensures var e := Update(s, ids);
      CacheInv(e.cache) && Distinct(e.pool) && e.contents.Keys == e.cache.len.Keys && Updated(s, batch, e)
  {
    hide CacheInv, StoppedOf, OfKind, FinalizeAll, RemoveIds, SomeStopped, AllDecoding;
    FreedIsStopped(s, batch, ids);
    var stopped := StoppedOf(s.tasks, ids);
    RemoveIdsDistinct(s.pool, Ids(stopped));
    FinalizeAllKeeps(s.cache, OfKind(s.tasks, stopped, Decode));
    InBatch(s, batch);
    hide Ids;
  }

  /** A stopped task that is still being prefilled, as partial prefills can leave one behind, is dropped
      from the pool, but nothing releases its cache. */
  lemma StoppedPrefillLeaks(s: State, ids: seq<TaskId>, id: TaskId)
    requires CacheInv(s.cache) && (forall x :: x in ids ==> x in s.tasks) && id in ids
    requires s.tasks[id].status == Stopped && s.tasks[id].kind == Prefill && id in s.cache.table
    ensures var e := Update(s, ids);
      id !in e.pool && id in e.cache.table && e.cache.table[id] == s.cache.table[id]
  {
    hide CacheInv, StoppedOf, OfKind, FinalizeAll, RemoveIds;
    var stopped := StoppedOf(s.tasks, ids);
    assert id in stopped;
    FinalizeAllKeeps(s.cache, OfKind(s.tasks, stopped, Decode));
  }

  lemma InBatch(s: State, batch: seq<TaskId>)
    requires AllDecoding(s, batch)
    ensures forall id :: id in batch ==> id in s.tasks
  {
  }

  lemma BetweenDecoding(cfg: Config, s: State, batch: seq<TaskId>)
    requires Between(cfg, s, batch)
    ensures AllDecoding(s, batch)
  {
    hide LocalIn, TaskInv, Cached;
  }

  lemma UpdateParts(cfg: Config, s: State, batch: seq<TaskId>, ids: seq<TaskId>)
    requires Between(cfg, s, batch) && multiset(ids) == multiset(batch)
    requires forall id :: id in ids ==> id in s.tasks
    ensures Shape(Update(s, ids)) && Updated(s, batch, Update(s, ids))
  {
    hide LocalIn, JustRan, CacheInv, Update, SomeStopped, AllDecoding;
    BetweenDecoding(cfg, s, batch);
    UpdateEffect(s, batch, ids);
  }

  /** The scheduler update restores the agreement of every task. */
  lemma UpdateKeeps(cfg: Config, s: State, batch: seq<TaskId>, ids: seq<TaskId>)
    requires Between(cfg, s, batch) && multiset(ids) == multiset(batch)
    requires forall id :: id in ids ==> id in s.tasks
    ensures Core(cfg, Update(s, ids))
  {
    var e := Update(s, ids);
    UpdateParts(cfg, s, batch, ids);
    hide Update, Cached, TaskInv, CacheInv, SomeStopped;
    forall id | id in e.tasks
      ensures LocalIn(cfg, e, id)
    {
      if id in batch {
        LocalUpdate(cfg, s.tasks[id], LenOf(s.cache, id), KvOf(s.contents, id), PendingFor(s.results, id));
      } else {
        assert LocalIn(cfg, s, id);
      }
    }
  }
}
