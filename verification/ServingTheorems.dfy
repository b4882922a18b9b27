/** Theorems about whole runs of the serving loop. */
module ServingTheorems {
  import opened Base
  import opened LanguageModel
  import opened CacheSpec
  import opened TaskSpec
  import opened Serving
  import opened ServingInvariant
  import opened Weights

  /** A run interleaves arrivals and passes of the loop. */
  datatype Event = Arrive(r: Request) | Pass(ch: Choice)

  /** The state after start-up. */
  ghost function Init(numBlocks: nat, blockSize: nat): State {
    State(Cache(blockSize, numBlocks, Range(numBlocks), map[], map[]), map[], [], map[], numBlocks, [])
  }

  /** `TaskPool.add`: a request whose id is already in the pool is refused. */
  function Add(s: State, r: Request): State {
    if r.id in s.pool then s
    else s.(pool := s.pool + [r.id], tasks := s.tasks[r.id := NewTask(r)])
  }

  /** The part of a pass after scheduling: step or empty step, then the update. */
  ghost predicate FinishTo(cfg: Config, e: State, batch: seq<TaskId>, ids: seq<TaskId>, t: State) {
    if batch == [] then t == Deliver(e)
    else Runnable(e, batch) && Compute(cfg, e, batch).Ok? && UpdateTo(Compute(cfg, e, batch).value, ids, t)
  }

  ghost predicate UpdateTo(r: State, ids: seq<TaskId>, t: State) {
    (forall id :: id in ids ==> id in r.tasks) && t == Update(r, ids)
  }

  /** One pass of `chitu_run_main_rank`. */
  ghost predicate PassTo(cfg: Config, s: State, ch: Choice, t: State) {
    && WellTyped(s) && Fair(s, ch) && (forall id :: id in ch.order ==> id in s.pool)
    && Schedule(cfg, s, ch.order).Ok?
    && var (e, batch) := Schedule(cfg, s, ch.order).value;
    FinishTo(cfg, e, batch, ch.shuffle(batch), t)
  }

  /** Ids of requests that have finished are not used again. */
  ghost predicate StepTo(cfg: Config, s: State, ev: Event, t: State) {
    match ev
    case Arrive(r) => (r.id in s.pool || r.id !in s.tasks) && t == Add(s, r)
    case Pass(ch) => PassTo(cfg, s, ch, t)
  }

  ghost predicate IsRun(cfg: Config, states: seq<State>, events: seq<Event>) {
    && |states| == |events| + 1
    && forall i :: 0 <= i < |events| ==> StepTo(cfg, states[i], events[i], states[i + 1])
  }

  // ----- The invariant holds in every reachable state -----

  lemma InitInv(cfg: Config, numBlocks: nat, blockSize: nat)
    requires cfg.prefillNum > 0 && cfg.decodeNum > 0 && numBlocks > 0 && blockSize > 0
    ensures Inv(cfg, Init(numBlocks, blockSize))
  {
    assert Owned(map[]) == multiset{};
  }

  lemma ArriveKeeps(cfg: Config, s: State, r: Request)
    requires Inv(cfg, s) && (r.id in s.pool || r.id !in s.tasks)
    ensures Inv(cfg, Add(s, r))
  {
    hide Naive, Generate, CacheInv, TaskInv, Cached;
    var e := Add(s, r);
    if r.id !in s.pool {
      NewTaskInv(cfg.lm, cfg.stops, r);
      assert r.id !in s.cache.len;
      forall id | id in e.tasks
        ensures LocalIn(cfg, e, id)
      {
        if id == r.id {
          ArriveLocal(cfg, s, r);
        } else {
          assert LocalIn(cfg, s, id);
        }
      }
      if id :| id in s.pool && s.tasks[id].kind == Decode {
        assert id in e.pool && e.tasks[id].kind == Decode;
      }
    }
  }

  lemma ArriveLocal(cfg: Config, s: State, r: Request)
    requires Inv(cfg, s) && r.id !in s.tasks
    ensures LocalIn(cfg, Add(s, r), r.id)
  {
    hide Naive, Generate, CacheInv, Cached, TaskInv;
    NewTaskInv(cfg.lm, cfg.stops, r);
    PendingOne(s.results, r.id);
    assert r.id !in s.cache.len && r.id !in s.contents;
    assert Generated(NewTask(r)) == [];
  }

  // ----- One pass -----

  /** From any state of a run, every fair pass either raises the capacity error or leads to exactly
      one next state: the executor never runs out of blocks half-way. */
  lemma PassTotal(cfg: Config, s: State, ch: Choice)
    requires Inv(cfg, s) && WellTyped(s) && Fair(s, ch)
    ensures forall id :: id in ch.order ==> id in s.pool
    ensures Schedule(cfg, s, ch.order).Ok? ==> exists t :: PassTo(cfg, s, ch, t)
    ensures Schedule(cfg, s, ch.order).Raised? ==>
      Schedule(cfg, s, ch.order).error == PrefillCapacity || Schedule(cfg, s, ch.order).error == DecodeCapacity
  {
    OrderIsPool(cfg, s, ch.order);
    ScheduleErrors(cfg, s, ch.order);
    if Schedule(cfg, s, ch.order).Ok? {
      var (e, batch) := Schedule(cfg, s, ch.order).value;
      ScheduleAdmits(cfg, s, ch.order);
      FinishTotal(cfg, s, e, batch, ch.shuffle(batch));
      var t :| FinishTo(cfg, e, batch, ch.shuffle(batch), t);
      hide Schedule, FinishTo, Inv, Scheduled;
      assert PassTo(cfg, s, ch, t);
    }
  }

  lemma FinishTotal(cfg: Config, s: State, e: State, batch: seq<TaskId>, ids: seq<TaskId>)
    requires Scheduled(cfg, s, e, batch) && multiset(ids) == multiset(batch)
    ensures exists t :: FinishTo(cfg, e, batch, ids, t)
  {
    hide Core, NeedAll, Grow, Compute, Update, Deliver, SameRun;
    if batch == [] {
      assert FinishTo(cfg, e, batch, ids, Deliver(e));
    } else {
      ComputeKeeps(cfg, e, batch);
      var r := Compute(cfg, e, batch).value;
      ShuffleIn(cfg, r, batch, ids);
      hide Between;
      assert UpdateTo(r, ids, Update(r, ids));
      assert FinishTo(cfg, e, batch, ids, Update(r, ids));
    }
  }

  lemma ShuffleIn(cfg: Config, r: State, batch: seq<TaskId>, ids: seq<TaskId>)
    requires Between(cfg, r, batch) && multiset(ids) == multiset(batch)
    ensures forall id :: id in ids ==> id in r.tasks
  {
    hide LocalIn, JustRan, CacheInv;
    SameElements(ids, batch);
  }

  lemma ScheduleErrors(cfg: Config, s: State, order: seq<TaskId>)
    requires WellTyped(s) && forall id :: id in order ==> id in s.pool
    ensures Schedule(cfg, s, order).Raised? ==>
      Schedule(cfg, s, order).error == PrefillCapacity || Schedule(cfg, s, order).error == DecodeCapacity
  {
    EvictLoopErrors(s, OfKind(s.tasks, order, Decode));
  }

  lemma {:induction false} EvictLoopErrors(s: State, ids: seq<TaskId>)
    requires s.cache.blockSize > 0 && forall id :: id in ids ==> id in s.tasks
    ensures EvictLoop(s, ids).Raised? ==> EvictLoop(s, ids).error == DecodeCapacity
    decreases |ids|
  {
    if |s.cache.free| < DecodeNeed(s, ids) && |ids| > 1 {
      var s' := Evict(s, ids[|ids| - 1]);
      assert s'.cache.blockSize == s.cache.blockSize;
      EvictLoopErrors(s', ids[..|ids| - 1]);
    }
  }

  // ----- Every pass keeps the invariant -----

  lemma DeliverTask(cfg: Config, s: State, id: TaskId)
    requires Core(cfg, s) && id in s.tasks
    ensures LocalIn(cfg, Deliver(s), id) && SameProgress(s.tasks[id], Deliver(s).tasks[id])
  {
    hide CacheInv, TaskInv, Cached;
    assert LocalIn(cfg, s, id);
    PendingOne(s.results, id);
    PendingOne(Deliver(s).results, id);
    if s.results != [] && id in s.results[0] {
      LocalDeliver(cfg, s.tasks[id], id in s.pool, id in s.cache.len, LenOf(s.cache, id), KvOf(s.contents, id),
          s.results[0][id]);
    }
  }

  lemma DeliverKeeps(cfg: Config, s: State)
    requires Inv(cfg, s)
    ensures Inv(cfg, Deliver(s)) && Progressed(s, [], Deliver(s))
  {
    var t := Deliver(s);
    hide CacheInv, LocalIn, SameProgress;
    forall id | id in s.tasks
      ensures LocalIn(cfg, t, id) && SameProgress(s.tasks[id], t.tasks[id])
    {
      DeliverTask(cfg, s, id);
    }
    DeliverDecoding(cfg, s);
  }

  lemma DeliverDecoding(cfg: Config, s: State)
    requires Core(cfg, s)
    ensures SomeDecoding(s) ==> SomeDecoding(Deliver(s))
  {
    hide CacheInv, LocalIn;
    if id :| id in s.pool && s.tasks[id].kind == Decode {
      assert Deliver(s).tasks[id].kind == Decode;
    }
  }

  /** After an update either some task was stopped, and the threshold is back at the number of blocks,
      or the whole batch is still live and decoding. */
  lemma UpdateLive(cfg: Config, r: State, batch: seq<TaskId>, t: State)
    requires Between(cfg, r, batch) && Updated(r, batch, t) && batch != []
    requires forall id :: id in t.pool ==> id in t.tasks
    ensures t.threshold < t.cache.numBlocks ==> SomeDecoding(t)
  {
    hide LocalIn, CacheInv, TaskInv, Cached;
    if !SomeStopped(r, batch) {
      var id := batch[0];
      assert r.tasks[id].status != Stopped;
      assert JustRan(cfg, r.tasks[id], LenOf(r.cache, id), KvOf(r.contents, id), PendingFor(r.results, id));
      assert id in t.pool && t.tasks[id].kind == Decode;
    }
  }

  /** The second half of a pass leads back into the invariant. */
  lemma FinishKeeps(cfg: Config, s: State, e: State, batch: seq<TaskId>, ids: seq<TaskId>, t: State)
    requires Scheduled(cfg, s, e, batch) && multiset(ids) == multiset(batch) && FinishTo(cfg, e, batch, ids, t)
    ensures Inv(cfg, t)
  {
    hide LocalIn, CacheInv, NeedAll, Grow, Compute, Update, Deliver, SameRun;
    if batch == [] {
      DeliverKeeps(cfg, e);
    } else {
      ComputeKeeps(cfg, e, batch);
      var r := Compute(cfg, e, batch).value;
      UpdateParts(cfg, r, batch, ids);
      UpdateKeeps(cfg, r, batch, ids);
      UpdateLive(cfg, r, batch, t);
    }
  }

  lemma PassKeeps(cfg: Config, s: State, ch: Choice, t: State)
    requires Inv(cfg, s) && PassTo(cfg, s, ch, t)
    ensures Inv(cfg, t)
  {
    hide Inv, WellTyped, FinishTo, Schedule, IsOrder;
    ScheduleAdmits(cfg, s, ch.order);
    var (e, batch) := Schedule(cfg, s, ch.order).value;
    FinishKeeps(cfg, s, e, batch, ch.shuffle(batch), t);
  }

  /** Whatever arrives, in whatever order the scorer ranks the tasks and whatever is evicted on the
      way: every reachable state satisfies the invariant. */
  lemma {:induction false} RunInv(cfg: Config, states: seq<State>, events: seq<Event>)
    requires IsRun(cfg, states, events) && Inv(cfg, states[0])
    ensures forall i :: 0 <= i < |states| ==> Inv(cfg, states[i])
    decreases |events|
  {
    hide Inv;
    if events != [] {
      var n := |events| - 1;
      RunInv(cfg, states[..n + 1], events[..n]);
      assert states[..n + 1][n] == states[n] && StepTo(cfg, states[n], events[n], states[n + 1]);
      assert Inv(cfg, states[n]);
      StepKeeps(cfg, states[n], events[n], states[n + 1]);
      forall i | 0 <= i < |states|
        ensures Inv(cfg, states[i])
      {
        if i <= n {
          assert states[..n + 1][i] == states[i];
        }
      }
    }
  }

  lemma StepKeeps(cfg: Config, s: State, ev: Event, t: State)
    requires Inv(cfg, s) && StepTo(cfg, s, ev, t)
    ensures Inv(cfg, t)
  {
    hide Inv, PassTo, Add;
    match ev
    case Arrive(r) => ArriveKeeps(cfg, s, r);
    case Pass(ch) => PassKeeps(cfg, s, ch, t);
  }

  // ----- What users receive -----

  /** Safety of every run: a request has received a beginning of its naive completion and nothing
      else; its stream is closed only with the whole completion and its finish reason. */
  lemma DeliveredIsNaive(cfg: Config, states: seq<State>, events: seq<Event>, i: nat, id: TaskId)
    requires IsRun(cfg, states, events) && Inv(cfg, states[0]) && i < |states| && id in states[i].tasks
    ensures ServedNaively(cfg, states[i].tasks[id])
  {
    hide Inv, ServedNaively, StepTo;
    RunInv(cfg, states, events);
    TaskIsNaive(cfg, states[i], id);
  }

  ghost predicate ServedNaively(cfg: Config, t: Task) {
    var full := Naive(cfg.lm, cfg.stops, t.req);
    && t.delivered <= full.tokens
    && (t.closed ==> t.delivered == full.tokens && t.finish == Some(full.reason))
    && (t.finish.Some? ==> t.finish == Some(full.reason) && t.prefix == t.req.prompt + full.tokens)
  }

  lemma TaskIsNaive(cfg: Config, s: State, id: TaskId)
    requires Inv(cfg, s) && id in s.tasks
    ensures ServedNaively(cfg, s.tasks[id])
  {
    hide CacheInv, Generate;
    assert LocalIn(cfg, s, id);
    var t := s.tasks[id];
    if t.status != Stopped {
      GenerateShape(cfg.lm, cfg.stops, t.req, Generated(t));
    }
    if t.closed {
      assert t.delivered == Generated(t);
    }
    assert t.prefix == t.req.prompt + Generated(t);
  }

  /** Schedule independence: in any two runs, whatever their batch limits, scorers, batches and
      evictions, the same request receives the same tokens as far as both streams have got, and exactly
      the same stream and finish reason once both are closed. */
  lemma ScheduleIndependence(cfg: Config, a: State, id: TaskId, cfg': Config, b: State, id': TaskId)
    requires cfg.lm == cfg'.lm && cfg.stops == cfg'.stops
    requires Inv(cfg, a) && Inv(cfg', b) && id in a.tasks && id' in b.tasks
    requires a.tasks[id].req == b.tasks[id'].req
    ensures var (t, u) := (a.tasks[id], b.tasks[id']);
      && (t.delivered <= u.delivered || u.delivered <= t.delivered)
      && (t.closed && u.closed ==> t.delivered == u.delivered && t.finish == u.finish)
  {
    hide Inv, Generate;
    TaskIsNaive(cfg, a, id);
    TaskIsNaive(cfg', b, id');
    var full := Naive(cfg.lm, cfg.stops, a.tasks[id].req).tokens;
    var t, u := a.tasks[id], b.tasks[id'];
    assert t.delivered == full[..|t.delivered|] && u.delivered == full[..|u.delivered|];
  }

  // ----- Length bound -----

  /** The checks of `UserRequest.__init__`: too long a prompt is refused, and the number of new tokens
      is clamped to what the sequence length leaves. */
  function MakeRequest(id: TaskId, prompt: seq<Token>, maxNewTokens: int, stopWithEos: bool,
      maxSeqLen: nat): Option<Request> {
    if |prompt| >= maxSeqLen then None
    else Some(Request(id, prompt, Min(maxNewTokens, maxSeqLen - |prompt| + 1), stopWithEos))
  }

  /** Only too long prompts are refused; a request is otherwise unchanged, except that it gets the largest number
      of new tokens, up to what it asks for, with which prompt and new tokens exceed the sequence length by at
      most one. So one that fits keeps what it asks for. */
  lemma RequestClamped(id: TaskId, prompt: seq<Token>, maxNewTokens: int, stopWithEos: bool, maxSeqLen: nat)
    ensures var made := MakeRequest(id, prompt, maxNewTokens, stopWithEos, maxSeqLen);
      && (made == None <==> |prompt| >= maxSeqLen)
      && (made.Some? ==>
            var n := made.value.maxNewTokens;
            && made.value == Request(id, prompt, n, stopWithEos)
            && n <= maxNewTokens && |prompt| + n <= maxSeqLen + 1
            && (n == maxNewTokens || |prompt| + n == maxSeqLen + 1)
            && (n == maxNewTokens <==> |prompt| + maxNewTokens <= maxSeqLen + 1))
  {
  }

  /** The request passed those checks. */
  ghost predicate Checked(r: Request, maxSeqLen: nat) {
    exists prompt, n, eos :: MakeRequest(r.id, prompt, n, eos, maxSeqLen) == Some(r)
  }

  /** Before and after each pass a request that passed the checks caches fewer entries than the maximal
      sequence length, and its prefix fits. */
  lemma LengthBound(cfg: Config, s: State, id: TaskId, maxSeqLen: nat)
    requires Core(cfg, s) && id in s.tasks && Checked(s.tasks[id].req, maxSeqLen)
    ensures id in s.cache.len ==> s.cache.len[id] < maxSeqLen
    ensures id in s.pool ==> |s.tasks[id].prefix| <= maxSeqLen
    ensures s.tasks[id].numNew <= Cap(s.tasks[id].req)
  {
    hide CacheInv, Generate, Entries;
    assert LocalIn(cfg, s, id);
    var t := s.tasks[id];
    if t.status == Stopped {
      GenerateShape(cfg.lm, cfg.stops, t.req, []);
    }
  }

  /** Inside a pass a scheduled request caches its whole prefix, so the bound is reached but never
      exceeded, also when it is prefilled again after an eviction. */
  lemma StepLengthBound(cfg: Config, s: State, batch: seq<TaskId>, id: TaskId, maxSeqLen: nat)
    requires Core(cfg, s) && Admitted(s, batch) && id in batch && id in s.tasks && Checked(s.tasks[id].req, maxSeqLen)
    ensures Compute(cfg, s, batch).Ok?
    ensures var len := Compute(cfg, s, batch).value.cache.len;
      id in len && len[id] == |s.tasks[id].prefix| <= maxSeqLen
  {
    hide Core, Admitted, Compute, Checked, Cached, TaskInv;
    BatchInPool(cfg, s, batch);
    ComputeSucceeds(cfg, s, batch);
    ComputeShape(cfg, s, batch);
    ComputeLen(cfg, s, batch, id);
    LengthBound(cfg, s, id, maxSeqLen);
    WholePrefix(cfg, s, id);
  }

  lemma WholePrefix(cfg: Config, s: State, id: TaskId)
    requires Core(cfg, s) && id in s.pool
    ensures id in s.tasks && (s.tasks[id].kind == Prefill ==> s.tasks[id].consumed <= |s.tasks[id].prefix|)
    ensures LenOf(s.cache, id) + |Input(s.tasks[id])| == |s.tasks[id].prefix|
  {
    hide CacheInv, Naive, Generate, Cached;
    assert LocalIn(cfg, s, id);
    InputCompletes(cfg, s.tasks[id], id in s.cache.len, LenOf(s.cache, id), KvOf(s.contents, id),
        PendingFor(s.results, id));
  }

  // ----- No capacity error, progress, completion -----

  /** The request could be served if it were alone. */
  ghost predicate FitsAlone(c: Cache, r: Request)
    requires c.blockSize > 0
  {
    CeilDiv(|r.prompt| + Cap(r) - 1, c.blockSize) <= c.numBlocks
  }

  ghost predicate AllFit(s: State)
    requires WellTyped(s)
  {
    forall id :: id in s.pool ==> FitsAlone(s.cache, s.tasks[id].req)
  }

  /** A live task never needs more blocks than its request needs alone. */
  lemma PrefixFits(cfg: Config, s: State, id: TaskId)
    requires Core(cfg, s) && WellTyped(s) && id in s.pool && FitsAlone(s.cache, s.tasks[id].req)
    ensures CeilDiv(|s.tasks[id].prefix|, s.cache.blockSize) <= s.cache.numBlocks
  {
    hide CacheInv, Naive, Generate, Entries, CeilDiv;
    assert LocalIn(cfg, s, id);
    var r := s.tasks[id].req;
    CeilDivMono(|s.tasks[id].prefix|, |r.prompt| + Cap(r) - 1, s.cache.blockSize);
  }

  /** The first prefill task always fits into an empty cache. */
  lemma PrefillFits(cfg: Config, s: State, order: seq<TaskId>)
    requires Inv(cfg, s) && WellTyped(s) && AllFit(s)
    requires order != [] && (forall id :: id in order ==> id in s.pool) && s.tasks[order[0]].kind == Prefill
    ensures SchedulePrefill(s, order).Ok?
  {
    hide LocalIn, CacheInv, CeilDiv;
    var ids := OfKind(s.tasks, order, Prefill);
    assert ids[0] == order[0];
    PrefillFacts(cfg, s, ids[0]);
    PrefixFits(cfg, s, ids[0]);
    PrefillNeedIs(s, ids[0]);
  }

  lemma PrefillNeedIs(s: State, id: TaskId)
    requires s.cache.blockSize > 0 && id in s.tasks && s.tasks[id].kind == Prefill
    requires s.tasks[id].consumed == 0 && s.tasks[id].chunk == None && id !in s.cache.table
    ensures PrefillNeed(s, id) == CeilDiv(|s.tasks[id].prefix|, s.cache.blockSize)
  {
  }

  /** `ids` are all the tasks that hold blocks. */
  ghost predicate AllDecoders(s: State, ids: seq<TaskId>)
    requires forall id :: id in s.pool ==> id in s.tasks
  {
    forall id :: id in s.pool && s.tasks[id].kind == Decode ==> id in ids
  }

  /** The eviction loop never raises: at the latest the last decode task alone fits. */
  lemma {:induction false} EvictionFits(cfg: Config, s: State, ids: seq<TaskId>)
    requires Core(cfg, s) && WellTyped(s) && AllFit(s) && Decoders(s, ids) && AllDecoders(s, ids)
    ensures EvictLoop(s, ids).Ok?
    decreases |ids|
  {
    hide Core, Evict, EvictFrame, FitsAlone;
    if |s.cache.free| < DecodeNeed(s, ids) {
      if |ids| <= 1 {
        LastFits(cfg, s, ids);
        assert false;
      } else {
        var last, front := ids[|ids| - 1], ids[..|ids| - 1];
        EvictKeeps(cfg, s, last);
        var e := Evict(s, last);
        EvictStaysDecoding(s, e, ids);
        CoreWellTyped(cfg, e);
        EvictedFits(s, e, ids);
        EvictionFits(cfg, e, front);
      }
    }
  }

  lemma EvictedFits(s: State, e: State, ids: seq<TaskId>)
    requires ids != [] && Decoders(s, ids) && EvictFrame(s, e, ids[|ids| - 1])
    requires WellTyped(s) && WellTyped(e) && AllFit(s) && AllDecoders(s, ids)
    ensures AllFit(e) && AllDecoders(e, ids[..|ids| - 1])
  {
    hide CeilDiv;
    var last, front := ids[|ids| - 1], ids[..|ids| - 1];
    assert ids == front + [last];
  }

  lemma LastFits(cfg: Config, s: State, ids: seq<TaskId>)
    requires Core(cfg, s) && WellTyped(s) && AllFit(s) && Decoders(s, ids) && AllDecoders(s, ids) && |ids| <= 1
    ensures DecodeNeed(s, ids) <= |s.cache.free|
  {
    hide LocalIn, Conserved, CeilDiv;
    if ids != [] {
      var id := ids[0];
      forall other | other in s.cache.table
        ensures other == id
      {
        CachedDecodes(cfg, s, other);
      }
      CountBlocks(s.cache, id);
      DecoderFacts(cfg, s, id);
      PrefixFits(cfg, s, id);
      assert DecodeNeed(s, ids[1..]) == 0;
    }
  }

  lemma CachedDecodes(cfg: Config, s: State, id: TaskId)
    requires Core(cfg, s) && id in s.cache.table
    ensures id in s.pool && s.tasks[id].kind == Decode
  {
    hide Conserved, TaskInv, Cached;
    assert LocalIn(cfg, s, id);
  }

  /** If every request in the pool fits alone, no pass raises, whatever the order of the tasks. */
  lemma NeverRaises(cfg: Config, s: State, order: seq<TaskId>)
    requires Inv(cfg, s) && WellTyped(s) && IsOrder(s, order) && AllFit(s)
    requires forall id :: id in order ==> id in s.pool
    ensures Schedule(cfg, s, order).Ok?
  {
    hide LocalIn, CacheInv, AllFit, EvictLoop, SchedulePrefill, OfKind;
    OrderIsPool(cfg, s, order);
    OfKindDistinct(s.tasks, order, Decode);
    EvictionFits(cfg, s, OfKind(s.tasks, order, Decode));
    if order != [] && s.tasks[order[0]].kind == Prefill {
      PrefillFits(cfg, s, order);
    }
  }

  /** Tokens a task may still produce. */
  function Remaining(t: Task): nat {
    Max(0, Cap(t.req) - t.numNew)
  }

  function RemainingOf(tasks: map<TaskId, Task>): map<TaskId, nat> {
    map id | id in tasks :: Remaining(tasks[id])
  }

  /** The tokens that the listed tasks may still produce. */
  function Measure(tasks: map<TaskId, Task>, ids: seq<TaskId>): nat
    requires forall id :: id in ids ==> id in tasks
  {
    Weight(RemainingOf(tasks), ids)
  }

  lemma MeasureMono(a: map<TaskId, Task>, b: map<TaskId, Task>, ids: seq<TaskId>)
    requires forall id :: id in ids ==> id in a && id in b && Remaining(b[id]) <= Remaining(a[id])
    ensures Measure(b, ids) <= Measure(a, ids)
    ensures (exists id :: id in ids && Remaining(b[id]) < Remaining(a[id])) ==> Measure(b, ids) < Measure(a, ids)
  {
    WeightMono(RemainingOf(a), RemainingOf(b), ids);
  }

  /** A live task has at least one token to go. */
  lemma LiveRemaining(cfg: Config, s: State, id: TaskId)
    requires Core(cfg, s) && id in s.pool
    ensures Remaining(s.tasks[id]) == Cap(s.tasks[id].req) - s.tasks[id].numNew > 0
  {
    hide CacheInv, Naive, Generate, Cached;
    assert LocalIn(cfg, s, id);
  }

  /** What a pass does to the set of live tasks and their remaining work. */
  ghost predicate Advances(s: State, t: State) {
    && (forall id :: id in s.pool ==> id in s.tasks) && (forall id :: id in t.pool ==> id in t.tasks && id in s.pool)
    && t.tasks.Keys == s.tasks.Keys && (forall id :: id in s.tasks ==> t.tasks[id].req == s.tasks[id].req)
    && t.cache.numBlocks == s.cache.numBlocks && t.cache.blockSize == s.cache.blockSize
    && Measure(t.tasks, t.pool) <= Measure(s.tasks, s.pool)
    && (s.pool != [] ==> Measure(t.tasks, t.pool) < Measure(s.tasks, s.pool))
    && (s.pool == [] ==> t.results == [])
  }

  lemma SameRunMeasure(s: State, e: State)
    requires SameRun(s, e) && forall id :: id in s.pool ==> id in s.tasks
    ensures Measure(e.tasks, e.pool) <= Measure(s.tasks, s.pool)
  {
    MeasureMono(s.tasks, e.tasks, s.pool);
  }

  lemma ProgressedMeasure(cfg: Config, e: State, batch: seq<TaskId>, r: State)
    requires Core(cfg, e) && Progressed(e, batch, r) && forall id :: id in batch ==> id in e.pool
    ensures Measure(r.tasks, r.pool) <= Measure(e.tasks, e.pool)
    ensures batch != [] ==> Measure(r.tasks, r.pool) < Measure(e.tasks, e.pool)
  {
    hide LocalIn, CacheInv;
    if batch != [] {
      LiveRemaining(cfg, e, batch[0]);
      assert OneFurther(e.tasks[batch[0]], r.tasks[batch[0]]);
    }
    MeasureMono(e.tasks, r.tasks, e.pool);
  }

  lemma FinishAdvances(cfg: Config, s: State, e: State, batch: seq<TaskId>, ids: seq<TaskId>, t: State)
    requires Inv(cfg, s) && Scheduled(cfg, s, e, batch) && (s.pool != [] <==> batch != [])
    requires multiset(ids) == multiset(batch) && FinishTo(cfg, e, batch, ids, t)
    ensures Advances(s, t)
  {
    hide LocalIn, CacheInv, NeedAll, Grow, Measure, Deliver, Compute, Update, SameRun;
    if batch == [] {
      EmptyAdvances(cfg, s, e, t);
    } else {
      ComputeAdvances(cfg, s, e, batch, ids, t);
    }
  }

  lemma EmptyAdvances(cfg: Config, s: State, e: State, t: State)
    requires Inv(cfg, e) && SameRun(s, e) && t == Deliver(e) && s.pool == []
    ensures Advances(s, t)
  {
    hide LocalIn, CacheInv, Deliver;
    DeliverKeeps(cfg, e);
    DeliverEmpties(e);
  }

  lemma ComputeAdvances(cfg: Config, s: State, e: State, batch: seq<TaskId>, ids: seq<TaskId>, t: State)
    requires Core(cfg, s) && Core(cfg, e) && SameRun(s, e) && Admitted(e, batch) && batch != []
    requires multiset(ids) == multiset(batch) && FinishTo(cfg, e, batch, ids, t)
    requires s.pool != []
    ensures Advances(s, t)
  {
    hide LocalIn, CacheInv, NeedAll, Grow, Compute, Update, Measure, JustRan, Deliver;
    SameRunMeasure(s, e);
    ComputeKeeps(cfg, e, batch);
    ComputeProgress(cfg, e, batch);
    var r := Compute(cfg, e, batch).value;
    ProgressedMeasure(cfg, e, batch, r);
    UpdateMeasure(r, ids);
    UpdateSizes(cfg, r, batch, ids);
    hide Between, Admitted, Core;
  }

  lemma UpdateSizes(cfg: Config, r: State, batch: seq<TaskId>, ids: seq<TaskId>)
    requires Between(cfg, r, batch) && multiset(ids) == multiset(batch)
    requires forall id :: id in ids ==> id in r.tasks
    ensures var t := Update(r, ids);
      && t.tasks == r.tasks && t.cache.numBlocks == r.cache.numBlocks && t.cache.blockSize == r.cache.blockSize
  {
    hide LocalIn, CacheInv, JustRan, Update;
    UpdateParts(cfg, r, batch, ids);
  }

  lemma DeliverEmpties(s: State)
    requires |s.results| <= 1
    ensures Deliver(s).results == []
  {
  }

  lemma UpdateMeasure(r: State, ids: seq<TaskId>)
    requires (forall id :: id in ids ==> id in r.tasks) && (forall id :: id in r.pool ==> id in r.tasks)
    ensures var t := Update(r, ids);
      && t.tasks == r.tasks && (forall id :: id in t.pool ==> id in r.pool)
      && Measure(t.tasks, t.pool) <= Measure(r.tasks, r.pool)
  {
    WeightRemove(RemainingOf(r.tasks), r.pool, Ids(StoppedOf(r.tasks, ids)));
  }

  /** Progress: with a non-empty pool every pass strictly decreases the tokens still to be produced,
      evictions included; with an empty pool it delivers what is queued. */
  lemma PassAdvances(cfg: Config, s: State, ch: Choice, t: State)
    requires Inv(cfg, s) && PassTo(cfg, s, ch, t)
    ensures Advances(s, t)
  {
    hide Inv, FinishTo, Schedule, IsOrder, Advances;
    ScheduleAdmits(cfg, s, ch.order);
    var (e, batch) := Schedule(cfg, s, ch.order).value;
    FinishAdvances(cfg, s, e, batch, ch.shuffle(batch), t);
  }

  ghost predicate IsPasses(cfg: Config, states: seq<State>, choices: seq<Choice>) {
    && |states| == |choices| + 1
    && forall i :: 0 <= i < |choices| ==> PassTo(cfg, states[i], choices[i], states[i + 1])
  }

  ghost predicate FullyServed(cfg: Config, r: Request, t: Task) {
    var full := Naive(cfg.lm, cfg.stops, r);
    t.req == r && t.closed && t.delivered == full.tokens && t.finish == Some(full.reason)
  }

  /** Everything asked for at `s` has been served at `t`. */
  ghost predicate AllServed(cfg: Config, s: State, t: State) {
    && t.pool == [] && t.results == []
    && forall id :: id in s.tasks ==> id in t.tasks && FullyServed(cfg, s.tasks[id].req, t.tasks[id])
  }

  lemma EmptyMeansServed(cfg: Config, t: State)
    requires Inv(cfg, t) && t.pool == [] && t.results == []
    ensures AllServed(cfg, t, t)
  {
    forall id | id in t.tasks
      ensures t.tasks[id].closed
    {
      hide CacheInv, Naive, Generate, Cached;
      assert LocalIn(cfg, t, id);
    }
    forall id | id in t.tasks
      ensures ServedNaively(cfg, t.tasks[id])
    {
      hide Inv, ServedNaively;
      TaskIsNaive(cfg, t, id);
    }
    hide Inv, Naive;
  }

  /** Completion: any number of passes from one more than the tokens still to be produced serves
      every request, with exactly its naive completion, whatever the scorer does. */
  lemma {:induction false} Completion(cfg: Config, states: seq<State>, choices: seq<Choice>)
    requires IsPasses(cfg, states, choices) && Inv(cfg, states[0])
    requires forall id :: id in states[0].pool ==> id in states[0].tasks
    requires |choices| > Measure(states[0].tasks, states[0].pool)
    ensures AllServed(cfg, states[0], states[|choices|])
    decreases |choices|
  {
    hide Inv, Measure, Advances, PassTo, AllServed;
    var s, t, n := states[0], states[1], |choices|;
    assert PassTo(cfg, states[0], choices[0], states[0 + 1]);
    PassKeeps(cfg, s, choices[0], t);
    PassAdvances(cfg, s, choices[0], t);
    if n == 1 {
      LastPass(cfg, s, t);
    } else {
      NextMeasure(s, t);
      assert IsPasses(cfg, states[1..], choices[1..]);
      Completion(cfg, states[1..], choices[1..]);
      ServedEarlier(cfg, s, t, states[n]);
    }
  }

  lemma NextMeasure(s: State, t: State)
    requires Advances(s, t)
    ensures forall id :: id in t.pool ==> id in t.tasks
    ensures Measure(t.tasks, t.pool) <= Max(0, Measure(s.tasks, s.pool) - 1)
  {
    SubsetOfEmpty(t.pool, s.pool);
  }

  lemma SubsetOfEmpty<T>(a: seq<T>, b: seq<T>)
    requires forall x :: x in a ==> x in b
    ensures b == [] ==> a == []
  {
    if a != [] {
      assert a[0] in b;
    }
  }

  lemma LastPass(cfg: Config, s: State, t: State)
    requires Inv(cfg, t) && Advances(s, t) && Measure(s.tasks, s.pool) == 0
    ensures AllServed(cfg, s, t)
  {
    hide Inv;
    NextMeasure(s, t);
    SubsetOfEmpty(t.pool, s.pool);
    EmptyMeansServed(cfg, t);
  }

  lemma ServedEarlier(cfg: Config, s: State, t: State, u: State)
    requires Advances(s, t) && AllServed(cfg, t, u)
    ensures AllServed(cfg, s, u)
  {
  }

  /** If every live request fits alone, the loop can always go on: each fair pass has a next state,
      which again satisfies the invariant and again only holds requests that fit. */
  lemma NeverStuck(cfg: Config, s: State, ch: Choice) returns (t: State)
    requires Inv(cfg, s) && WellTyped(s) && Fair(s, ch) && AllFit(s)
    ensures PassTo(cfg, s, ch, t) && Inv(cfg, t) && WellTyped(t) && AllFit(t)
  {
    hide Inv, PassTo, Advances, Schedule, AllFit;
    PassTotal(cfg, s, ch);
    NeverRaises(cfg, s, ch.order);
    t :| PassTo(cfg, s, ch, t);
    PassKeeps(cfg, s, ch, t);
    PassAdvances(cfg, s, ch, t);
    InvWellTyped(cfg, t);
    StillFit(s, t);
  }

  lemma InvWellTyped(cfg: Config, s: State)
    requires Inv(cfg, s)
    ensures WellTyped(s)
  {
    CoreWellTyped(cfg, s);
  }

  lemma StillFit(s: State, t: State)
    requires WellTyped(s) && WellTyped(t) && AllFit(s) && Advances(s, t)
    ensures AllFit(t)
  {
    hide CeilDiv, Measure;
  }
}
