/**
 The scheduler with overlapped scheduling. Its count of blocks differs from the allocation by one token
 right after a prefill, but when all requests fit into the cache together it never has to evict or to raise,
 and what it returns is a batch of the overlapped loop.
 */
module OverlapSchedule {
  import opened Base
  import opened LanguageModel
  import opened CacheSpec
  import opened TaskSpec
  import opened Serving
  import opened Weights
  import opened Overlap
  import opened OverlapProgress
  import I = ServingInvariant
  import opened Ranking
  import C = ServingChoice
  import R = ServingTheorems

  /** Blocks the decode tasks are counted to need: only those that will run, each up to `prefix_tokens_len`. */
  function RunNeed(s: State, ids: seq<TaskId>): nat
    requires s.cache.blockSize > 0 && forall id :: id in ids ==> id in s.tasks
    decreases |ids|
  {
    if ids == [] then 0
    else
      var t := s.tasks[ids[0]];
      (if HasModelRun(t) then Need(s.cache, ids[0], PrefixLen(t)) else 0) + RunNeed(s, ids[1..])
  }

  /** `Scheduler.schedule` for a given order of the ready tasks; None where it would evict or raise. */
  function Schedule(cfg: Config, s: State, order: seq<TaskId>): Option<seq<TaskId>>
    requires WellTyped(s) && forall id :: id in order ==> id in s.pool
  {
    if order == [] then Some([])
    else if s.tasks[order[0]].kind == Prefill then
      match SchedulePrefill(s, order)
      case Raised(_) => None
      case Ok(ids) => if ids != [] then Some(ids[..Min(cfg.prefillNum, |ids|)]) else ScheduleDecode(cfg, s, order)
    else ScheduleDecode(cfg, s, order)
  }

  function ScheduleDecode(cfg: Config, s: State, order: seq<TaskId>): Option<seq<TaskId>>
    requires WellTyped(s) && forall id :: id in order ==> id in s.pool
  {
    var ids := OfKind(s.tasks, order, Decode);
    if |s.cache.free| >= RunNeed(s, ids) then Some(ids[..Min(cfg.decodeNum, |ids|)]) else None
  }

  /** A state the loop goes on from: in agreement, everything fits, and the threshold has never been
      lowered. */
  ghost predicate Going(cfg: Config, o: OState) {
    Inv(cfg, o) && AllFitTogether(o.s) && o.s.threshold == o.s.cache.numBlocks
  }

  lemma GoingStarts(cfg: Config, numBlocks: nat, blockSize: nat)
    requires numBlocks > 0 && blockSize > 0
    ensures Going(cfg, OState(R.Init(numBlocks, blockSize), map[]))
  {
    InitInv(cfg, numBlocks, blockSize);
  }

  /** What a decode task is counted to need is within its budget. */
  lemma CountWithin(cfg: Config, o: OState, id: TaskId)
    requires Inv(cfg, o) && id in o.s.pool
    ensures id in o.s.tasks && o.s.cache.blockSize > 0
    ensures var t := o.s.tasks[id];
      var need := if HasModelRun(t) then Need(o.s.cache, id, PrefixLen(t)) else 0;
      need + |BlocksOf(o.s.cache, id)| <= Budget(o.s.cache, t.req)
  {
    hide Inv, CeilDiv;
    HeldWithin(cfg, o, id);
    if HasModelRun(o.s.tasks[id]) {
      CountedLength(cfg, o, id);
      var r := o.s.tasks[id].req;
      CeilDivMono(PrefixLen(o.s.tasks[id]), |r.prompt| + Cap(r) - 1, o.s.cache.blockSize);
    }
  }

  lemma CountedLength(cfg: Config, o: OState, id: TaskId)
    requires Inv(cfg, o) && id in o.s.pool && id in o.s.tasks && HasModelRun(o.s.tasks[id])
    ensures PrefixLen(o.s.tasks[id]) <= |o.s.tasks[id].req.prompt| + Cap(o.s.tasks[id].req) - 1
  {
    hide CacheInv, Naive, Generate, Entries, Greedy;
    assert LocalIn(cfg, o, id);
  }

  lemma {:induction false} RunNeedIs(s: State, need: map<TaskId, nat>, ids: seq<TaskId>)
    requires s.cache.blockSize > 0 && forall id :: id in ids ==> id in s.tasks && id in need
    requires forall id :: id in ids ==>
      need[id] == if HasModelRun(s.tasks[id]) then Need(s.cache, id, PrefixLen(s.tasks[id])) else 0
    ensures RunNeed(s, ids) == Weight(need, ids)
    decreases |ids|
  {
    if ids != [] {
      RunNeedIs(s, need, ids[1..]);
    }
  }

  /** So no decode task is ever evicted. */
  lemma NoEviction(cfg: Config, o: OState, ids: seq<TaskId>)
    requires Inv(cfg, o) && AllFitTogether(o.s) && Distinct(ids) && forall id :: id in ids ==> id in o.s.pool
    ensures o.s.cache.blockSize > 0 && forall id :: id in ids ==> id in o.s.tasks
    ensures RunNeed(o.s, ids) <= |o.s.cache.free|
  {
    hide Inv, Need, BlocksOf, Budget, Weight, AllFitTogether, PrefixLen;
    PoolIn(cfg, o);
    var need: map<TaskId, nat> := map id | id in ids ::
      if HasModelRun(o.s.tasks[id]) then Need(o.s.cache, id, PrefixLen(o.s.tasks[id])) else 0;
    forall id | id in ids
      ensures need[id] + |BlocksOf(o.s.cache, id)| <= Budget(o.s.cache, o.s.tasks[id].req)
    {
      CountWithin(cfg, o, id);
    }
    RunNeedIs(o.s, need, ids);
    FreeCovers(cfg, o, need, ids);
  }

  /** A waiting prefill task needs all of its prefix, and that is within its budget. */
  lemma PrefillWithin(cfg: Config, o: OState, id: TaskId)
    requires Inv(cfg, o) && id in o.s.pool && id in o.s.tasks && o.s.tasks[id].kind == Prefill
    ensures o.s.cache.blockSize > 0 && o.s.tasks[id].consumed <= |o.s.tasks[id].prefix|
    ensures PrefillNeed(o.s, id) + |BlocksOf(o.s.cache, id)| <= Budget(o.s.cache, o.s.tasks[id].req)
  {
    hide Inv, CeilDiv;
    PrefillShape(cfg, o, id);
    HeldWithin(cfg, o, id);
    var (c, t) := (o.s.cache, o.s.tasks[id]);
    CeilDivMono(|t.prefix|, |t.req.prompt| + Cap(t.req) - 1, c.blockSize);
  }

  lemma PrefillShape(cfg: Config, o: OState, id: TaskId)
    requires Inv(cfg, o) && id in o.s.pool && id in o.s.tasks && o.s.tasks[id].kind == Prefill
    ensures var t := o.s.tasks[id];
      && o.s.cache.blockSize > 0 && t.consumed == 0 && t.chunk == None
      && |t.prefix| <= |t.req.prompt| + Cap(t.req) - 1
  {
    hide Conserved, Naive, Generate, Entries, Greedy;
    assert LocalIn(cfg, o, id);
  }

  lemma {:induction false} CountAll(s: State, need: map<TaskId, nat>, ids: seq<TaskId>, before: nat)
    requires WellTyped(s) && forall id :: id in ids ==> id in s.pool && s.tasks[id].kind == Prefill && id in need
    requires forall id :: id in ids ==> need[id] == PrefillNeed(s, id)
    requires s.cache.Used() + before + Weight(need, ids) <= s.threshold
    ensures PrefillCount(s, ids, before) == |ids|
    decreases |ids|
  {
    hide PrefillNeed;
    if ids != [] {
      CountAll(s, need, ids[1..], before + need[ids[0]]);
    }
  }

  /** All prefill tasks fit under the threshold. */
  lemma AllPrefills(cfg: Config, o: OState, ids: seq<TaskId>)
    requires Going(cfg, o) && WellTyped(o.s) && Distinct(ids)
    requires forall id :: id in ids ==> id in o.s.pool && o.s.tasks[id].kind == Prefill
    ensures PrefillCount(o.s, ids, 0) == |ids|
  {
    hide Inv, PrefillNeed, BlocksOf, Budget, Weight, AllFitTogether, PrefillCount;
    var need: map<TaskId, nat> := map id | id in ids :: PrefillNeed(o.s, id);
    forall id | id in ids
      ensures need[id] + |BlocksOf(o.s.cache, id)| <= Budget(o.s.cache, o.s.tasks[id].req)
    {
      PrefillWithin(cfg, o, id);
    }
    FreeCovers(cfg, o, need, ids);
    CountAll(o.s, need, ids, 0);
  }

  /** A beginning of the tasks of one kind is a batch. */
  lemma KindBatched(cfg: Config, o: OState, order: seq<TaskId>, k: Kind, n: nat)
    requires Inv(cfg, o) && WellTyped(o.s) && Distinct(order) && forall id :: id in order ==> id in o.s.pool
    requires 0 < n <= |OfKind(o.s.tasks, order, k)|
    ensures Batched(o, OfKind(o.s.tasks, order, k)[..n])
  {
    hide Inv, OfKind;
    PoolReady(cfg, o);
    I.OfKindDistinct(o.s.tasks, order, k);
    var ids := OfKind(o.s.tasks, order, k);
    assert forall id :: id in ids[..n] ==> id in ids;
    assert ids[..n][0] in ids;
  }

  lemma OrderIsPool(cfg: Config, o: OState, order: seq<TaskId>)
    requires Inv(cfg, o) && WellTyped(o.s) && IsOrder(o.s, order)
    ensures Distinct(order) && forall id :: id in order <==> id in o.s.pool
  {
    hide Inv, Ready;
    PoolReady(cfg, o);
    PoolIn(cfg, o);
    I.ReadyAll(o.s.tasks, o.s.pool);
    DistinctPermutation(o.s.pool, order);
  }

  // ----- Who is taken -----

  /** The blocks that each listed prefill task needs for its next slice. */
  ghost function PrefillNeeds(s: State, ids: seq<TaskId>): map<TaskId, nat>
    requires WellTyped(s) && forall id :: id in ids ==> id in s.pool && s.tasks[id].kind == Prefill
  {
    map id | id in ids :: PrefillNeed(s, id)
  }

  /** A beginning of the prefill tasks is counted exactly when its blocks fit under the threshold. */
  lemma {:induction false} CountExact(s: State, need: map<TaskId, nat>, ids: seq<TaskId>, before: nat, k: nat)
    requires WellTyped(s) && forall id :: id in ids ==> id in s.pool && s.tasks[id].kind == Prefill && id in need
    requires (forall id :: id in ids ==> need[id] == PrefillNeed(s, id)) && 0 < k <= |ids|
    ensures k <= PrefillCount(s, ids, before) <==> s.cache.Used() + before + Weight(need, ids[..k]) <= s.threshold
    decreases |ids|
  {
    hide PrefillNeed;
    assert ids[..k][1..] == ids[1..][..k - 1];
    if k > 1 {
      CountExact(s, need, ids[1..], before + need[ids[0]], k - 1);
    }
  }

  /** The batch is a beginning of the scorer's order of its kind, within its limit. A prefill batch is below
      the limit only if nobody is left or the next one does not fit; a decode batch only if nobody is left,
      and it comes first only if the highest-ranked task decodes or does not fit. */
  ghost predicate Taken(cfg: Config, s: State, order: seq<TaskId>, batch: seq<TaskId>)
    requires WellTyped(s) && order != [] && forall id :: id in order ==> id in s.pool
  {
    var first := order[0];
    || (C.Selected(cfg, s, order, Prefill, batch) && s.tasks[first].kind == Prefill && batch != []
        && (|batch| < C.Limit(cfg, Prefill) ==>
              forall id :: FirstOf(order, C.KindOf(s.tasks, Prefill), batch + [id]) ==> TooMany(s, batch + [id])))
    || (C.Selected(cfg, s, order, Decode, batch)
        && (|batch| < C.Limit(cfg, Decode) ==> AllOf(order, C.KindOf(s.tasks, Decode), batch))
        && (s.tasks[first].kind == Prefill ==> TooMany(s, [first])))
  }

  ghost predicate TooMany(s: State, ids: seq<TaskId>) {
    && WellTyped(s) && (forall id :: id in ids ==> id in s.pool && s.tasks[id].kind == Prefill)
    && s.cache.Used() + Weight(PrefillNeeds(s, ids), ids) > s.threshold
  }

  lemma WeightSame(a: map<TaskId, nat>, b: map<TaskId, nat>, ids: seq<TaskId>)
    requires forall id :: id in ids ==> id in a && id in b && a[id] == b[id]
    ensures Weight(a, ids) == Weight(b, ids)
  {
    WeightMono(a, b, ids);
    WeightMono(b, a, ids);
  }

  /** A beginning of the prefill tasks is not counted exactly when it is too much. */
  lemma CountedOrTooMany(s: State, ids: seq<TaskId>, k: nat)
    requires WellTyped(s) && 0 < k <= |ids| && forall id :: id in ids ==> id in s.pool && s.tasks[id].kind == Prefill
    ensures TooMany(s, ids[..k]) <==> k > PrefillCount(s, ids, 0)
  {
    hide PrefillNeed, PrefillCount, Weight;
    var need := PrefillNeeds(s, ids);
    assert forall id :: id in ids[..k] ==> id in ids;
    CountExact(s, need, ids, 0, k);
    WeightSame(need, PrefillNeeds(s, ids[..k]), ids[..k]);
  }

  lemma PrefillsTaken(cfg: Config, s: State, order: seq<TaskId>, ids: seq<TaskId>)
    requires WellTyped(s) && Distinct(order) && order != [] && forall id :: id in order ==> id in s.pool
    requires s.tasks[order[0]].kind == Prefill && cfg.prefillNum > 0
    requires ids == OfKind(s.tasks, order, Prefill) && PrefillCount(s, ids, 0) > 0
    ensures Taken(cfg, s, order, ids[..Min(cfg.prefillNum, PrefillCount(s, ids, 0))])
  {
    hide OfKind, PrefillCount, TooMany, C.KindOf, FirstOf, AllOf;
    C.OfKindAll(s.tasks, order, Prefill);
    var (of, n) := (C.KindOf(s.tasks, Prefill), PrefillCount(s, ids, 0));
    var k := Min(cfg.prefillNum, n);
    AllOfTake(order, of, ids, k);
    forall id | k < cfg.prefillNum && FirstOf(order, of, ids[..k] + [id])
      ensures TooMany(s, ids[..k] + [id])
    {
      FirstOfUnique(order, of, ids, ids[..k] + [id]);
      assert ids[..k] + [id] == ids[..k + 1];
      CountedOrTooMany(s, ids, k + 1);
    }
  }

  lemma DecodesTaken(cfg: Config, s: State, order: seq<TaskId>, ids: seq<TaskId>)
    requires WellTyped(s) && Distinct(order) && order != [] && forall id :: id in order ==> id in s.pool
    requires s.tasks[order[0]].kind == Prefill ==> TooMany(s, [order[0]])
    requires ids == OfKind(s.tasks, order, Decode)
    ensures Taken(cfg, s, order, ids[..Min(cfg.decodeNum, |ids|)])
  {
    hide OfKind, TooMany, C.KindOf, FirstOf, AllOf;
    C.OfKindAll(s.tasks, order, Decode);
    AllOfTake(order, C.KindOf(s.tasks, Decode), ids, Min(cfg.decodeNum, |ids|));
    assert ids[..|ids|] == ids;
  }

  /** In any state: whenever the scheduler returns without evicting or raising, this is what it takes. */
  lemma TakenInOrder(cfg: Config, s: State, order: seq<TaskId>)
    requires WellTyped(s) && Distinct(order) && order != [] && forall id :: id in order ==> id in s.pool
    requires cfg.prefillNum > 0 && Schedule(cfg, s, order).Some?
    ensures Taken(cfg, s, order, Schedule(cfg, s, order).value)
  {
    hide OfKind, PrefillCount, RunNeed, Taken, TooMany;
    if s.tasks[order[0]].kind == Prefill {
      var ids := OfKind(s.tasks, order, Prefill);
      var n := PrefillCount(s, ids, 0);
      FirstIsFirst(s, order);
      assert ids[..1] == [order[0]] && ids[..n][..Min(cfg.prefillNum, n)] == ids[..Min(cfg.prefillNum, n)];
      CountedOrTooMany(s, ids, 1);
      if n > 0 {
        PrefillsTaken(cfg, s, order, ids);
      } else {
        DecodesTaken(cfg, s, order, OfKind(s.tasks, order, Decode));
      }
    } else {
      DecodesTaken(cfg, s, order, OfKind(s.tasks, order, Decode));
    }
  }

  lemma FirstIsFirst(s: State, order: seq<TaskId>)
    requires WellTyped(s) && order != [] && (forall id :: id in order ==> id in s.pool)
    ensures var ids := OfKind(s.tasks, order, s.tasks[order[0]].kind); ids != [] && ids[0] == order[0]
  {
  }

  /** When everything fits, it takes the kind of the highest-ranked task, and as many of them as the limit
      allows. */
  ghost predicate TakenFully(cfg: Config, s: State, order: seq<TaskId>, batch: seq<TaskId>)
    requires order != [] && order[0] in s.tasks
  {
    var k := s.tasks[order[0]].kind;
    && C.Selected(cfg, s, order, k, batch)
    && (|batch| < C.Limit(cfg, k) ==> AllOf(order, C.KindOf(s.tasks, k), batch))
  }

  lemma KindTaken(cfg: Config, s: State, order: seq<TaskId>)
    requires Distinct(order) && order != [] && forall id :: id in order ==> id in s.tasks
    ensures var k := s.tasks[order[0]].kind;
      var ids := OfKind(s.tasks, order, k);
      TakenFully(cfg, s, order, ids[..Min(C.Limit(cfg, k), |ids|)])
  {
    hide OfKind, C.KindOf, FirstOf, AllOf;
    var k := s.tasks[order[0]].kind;
    var ids := OfKind(s.tasks, order, k);
    C.OfKindAll(s.tasks, order, k);
    AllOfTake(order, C.KindOf(s.tasks, k), ids, Min(C.Limit(cfg, k), |ids|));
    assert ids[..|ids|] == ids;
  }

  /** Whatever the order of the tasks, the scheduler neither evicts nor raises, and it returns a batch of the
      overlapped loop as long as the pool is not empty: the highest-ranked tasks of the kind of the first one,
      up to the limit. */
  lemma ScheduleBatches(cfg: Config, o: OState, order: seq<TaskId>)
    requires Going(cfg, o) && WellTyped(o.s) && IsOrder(o.s, order) && cfg.prefillNum > 0 && cfg.decodeNum > 0
    ensures forall id :: id in order ==> id in o.s.pool
    ensures Schedule(cfg, o.s, order).Some?
    ensures var batch := Schedule(cfg, o.s, order).value;
      if o.s.pool == [] then batch == []
      else Batched(o, batch) && order != [] && TakenFully(cfg, o.s, order, batch)
  {
    hide Inv, AllFitTogether, Batched, RunNeed, OfKind, PrefillCount, IsOrder, TakenFully;
    OrderIsPool(cfg, o, order);
    if order == [] {
      R.SubsetOfEmpty(o.s.pool, order);
    } else {
      assert order[0] in o.s.pool;
      KindTaken(cfg, o.s, order);
      if o.s.tasks[order[0]].kind == Prefill {
        PrefillsFirst(cfg, o, order, OfKind(o.s.tasks, order, Prefill));
      } else {
        DecodesFirst(cfg, o, order, OfKind(o.s.tasks, order, Decode));
      }
    }
  }

  lemma PrefillsFirst(cfg: Config, o: OState, order: seq<TaskId>, ids: seq<TaskId>)
    requires WellTyped(o.s) && order != [] && forall id :: id in order ==> id in o.s.pool && id in o.s.tasks
    requires o.s.tasks[order[0]].kind == Prefill && Distinct(order) && cfg.prefillNum > 0 && Going(cfg, o)
    requires ids == OfKind(o.s.tasks, order, Prefill)
    ensures var batch := ids[..Min(cfg.prefillNum, |ids|)];
      Schedule(cfg, o.s, order) == Some(batch) && Batched(o, batch)
  {
    hide Inv, AllFitTogether, Batched, OfKind, PrefillCount, ScheduleDecode;
    assert order[0] in ids;
    I.OfKindDistinct(o.s.tasks, order, Prefill);
    AllPrefills(cfg, o, ids);
    assert ids[..|ids|] == ids;
    KindBatched(cfg, o, order, Prefill, Min(cfg.prefillNum, |ids|));
  }

  lemma DecodesFirst(cfg: Config, o: OState, order: seq<TaskId>, ids: seq<TaskId>)
    requires WellTyped(o.s) && order != [] && forall id :: id in order ==> id in o.s.pool && id in o.s.tasks
    requires o.s.tasks[order[0]].kind != Prefill && Distinct(order) && cfg.decodeNum > 0 && Going(cfg, o)
    requires ids == OfKind(o.s.tasks, order, Decode)
    ensures var batch := ids[..Min(cfg.decodeNum, |ids|)];
      Schedule(cfg, o.s, order) == Some(batch) && Batched(o, batch)
  {
    hide Inv, AllFitTogether, Batched, OfKind, RunNeed, SchedulePrefill;
    assert order[0] in ids;
    I.OfKindDistinct(o.s.tasks, order, Decode);
    NoEviction(cfg, o, ids);
    KindBatched(cfg, o, order, Decode, Min(cfg.decodeNum, |ids|));
  }

  /** The loop under its own scheduler: as long as a request is in the pool, the batch it returns is run, the
      pass makes progress, and the loop can go on. */
  lemma LoopGoesOn(cfg: Config, o: OState, order: seq<TaskId>) returns (batch: seq<TaskId>, t: OState)
    requires Going(cfg, o) && WellTyped(o.s) && IsOrder(o.s, order) && cfg.prefillNum > 0 && cfg.decodeNum > 0
    requires o.s.pool != []
    ensures (forall id :: id in order ==> id in o.s.pool) && Schedule(cfg, o.s, order) == Some(batch)
    ensures PassTo(cfg, o, batch, batch, t) && Going(cfg, t) && WellTyped(t.s) && Advances(o.s, t.s)
  {
    hide Inv, AllFitTogether, Batched, Schedule, PassTo, Advances;
    ScheduleBatches(cfg, o, order);
    batch := Schedule(cfg, o.s, order).value;
    t := PassPossible(cfg, o, batch, batch);
    PassAdvances(cfg, o, batch, batch, t);
    PassThreshold(cfg, o, batch, batch, t);
    PoolReady(cfg, t);
  }

  lemma PassThreshold(cfg: Config, o: OState, batch: seq<TaskId>, ids: seq<TaskId>, t: OState)
    requires Inv(cfg, o) && PassTo(cfg, o, batch, ids, t) && Advances(o.s, t.s)
    requires o.s.threshold == o.s.cache.numBlocks
    ensures t.s.threshold == t.s.cache.numBlocks
  {
    hide Inv, StepTo, FinalizeAll;
    var m :| StepTo(cfg, o, batch, m) && (forall id :: id in ids ==> id in m.s.tasks) && t == m.(s := Update(m.s, ids));
    StepThreshold(cfg, o, batch, m);
    StepMoves(cfg, o, batch, m);
  }

  // ----- The count and the allocation -----

  lemma CeilDivNext(n: nat, b: nat)
    requires b > 0
    ensures CeilDiv(n + 1, b) == CeilDiv(n, b) + if n % b == 0 then 1 else 0
  {
    DivBounds(n, b);
    var q, r := n / b, n % b;
    if r == 0 {
      DivUnique(q, b - 1, b);
      DivUnique(q + 1, 0, b);
      assert n + b == (q + 1) * b;
    } else {
      DivUnique(q + 1, r - 1, b);
      DivUnique(q + 1, r, b);
      assert n + b - 1 == (q + 1) * b + (r - 1);
    }
  }

  /** A task whose count is one block short: it has not decoded since its prefill, so the scheduler does not count
      the token it is about to take, and its entries fill its blocks. */
  predicate OneShort(s: State, id: TaskId)
    requires s.cache.blockSize > 0
  {
    id in s.tasks && HasModelRun(s.tasks[id]) && s.tasks[id].synced && LenOf(s.cache, id) % s.cache.blockSize == 0
  }

  function Short(s: State, ids: seq<TaskId>): nat
    requires s.cache.blockSize > 0
    decreases |ids|
  {
    if ids == [] then 0 else (if OneShort(s, ids[0]) then 1 else 0) + Short(s, ids[1..])
  }

  lemma DecoderLength(cfg: Config, o: OState, id: TaskId)
    requires Inv(cfg, o) && id in o.s.pool && id in o.s.tasks && o.s.tasks[id].kind == Decode
    ensures var c := o.s.cache;
      && c.blockSize > 0 && id in c.len && id in c.table && c.len[id] == |o.s.tasks[id].prefix|
      && |c.table[id]| == CeilDiv(c.len[id], c.blockSize)
  {
    hide Conserved, Naive, Generate, Greedy, CeilDiv;
    assert LocalIn(cfg, o, id);
  }

  /** What a running decode task is counted to need, and what it will take. */
  lemma TaskShort(cfg: Config, o: OState, runs: seq<TaskId>, id: TaskId)
    requires Inv(cfg, o) && id in runs && (forall x :: x in runs ==> x in o.s.tasks) && id in o.s.pool
    requires o.s.tasks[id].kind == Decode && HasModelRun(o.s.tasks[id])
    ensures var (c, g) := (o.s.cache, Grow(o.s.cache, Grown(o, runs)));
      && c.blockSize > 0 && g.blockSize > 0
      && Need(g, id, LenOf(g, id)) == Need(c, id, PrefixLen(o.s.tasks[id])) + if OneShort(o.s, id) then 1 else 0
  {
    hide Inv, CeilDiv;
    DecoderLength(cfg, o, id);
    CeilDivNext(o.s.cache.len[id], o.s.cache.blockSize);
  }

  lemma {:induction false} AllocationIs(cfg: Config, o: OState, runs: seq<TaskId>, ids: seq<TaskId>)
    requires Inv(cfg, o) && o.s.cache.blockSize > 0 && (forall x :: x in runs ==> x in o.s.tasks)
    requires forall id :: id in ids ==> id in o.s.pool && id in o.s.tasks && o.s.tasks[id].kind == Decode
    requires forall id :: id in ids && HasModelRun(o.s.tasks[id]) ==> id in runs
    ensures NeedAll(Grow(o.s.cache, Grown(o, runs)), Running(o.s.tasks, ids)) == RunNeed(o.s, ids) + Short(o.s, ids)
    decreases |ids|
  {
    hide Inv, Grow, Grown, Need, OneShort;
    if ids != [] {
      AllocationIs(cfg, o, runs, ids[1..]);
      var (id, rest) := (ids[0], Running(o.s.tasks, ids[1..]));
      if HasModelRun(o.s.tasks[id]) {
        TaskShort(cfg, o, runs, id);
        assert Grow(o.s.cache, Grown(o, runs)).blockSize > 0;
        NeedCons(Grow(o.s.cache, Grown(o, runs)), id, rest);
      } else {
        assert [] + rest == rest;
        NotShort(o.s, id);
      }
    }
  }

  lemma NeedCons(c: Cache, id: TaskId, rest: seq<TaskId>)
    requires c.blockSize > 0
    ensures NeedAll(c, [id] + rest) == Need(c, id, LenOf(c, id)) + NeedAll(c, rest)
  {
    assert ([id] + rest)[1..] == rest;
  }

  lemma NotShort(s: State, id: TaskId)
    requires s.cache.blockSize > 0 && id in s.tasks && !HasModelRun(s.tasks[id])
    ensures !OneShort(s, id)
  {
  }

  /** A decode batch can be run exactly when the free blocks cover the count of the scheduler and one block more
      for every task that is counted short: passing the scheduler's check is not enough. */
  lemma DecodeStepExact(cfg: Config, o: OState, batch: seq<TaskId>)
    requires Inv(cfg, o) && Batched(o, batch) && o.s.tasks[batch[0]].kind == Decode
    ensures o.s.cache.blockSize > 0 && forall id :: id in batch ==> id in o.s.tasks
    ensures (exists t :: StepTo(cfg, o, batch, t)) <==> RunNeed(o.s, batch) + Short(o.s, batch) <= |o.s.cache.free|
  {
    hide Inv, StepTo, NeedAll, Grow, Running, RunNeed, Short;
    StepWhenEnough(cfg, o, batch);
    AllocationIs(cfg, o, Running(o.s.tasks, batch), batch);
  }

  // ----- An input for it -----

  const A: Request := Request(TaskId("a"), [7], 2, false)
  const B: Request := Request(TaskId("b"), [7], 2, false)

  /** Two requests that wait for their prefill, in a cache of two blocks of one entry each. */
  ghost function TwoWaiting(): OState {
    OState(R.Add(R.Add(R.Init(2, 1), A), B), map[])
  }

  lemma TwoArrive(cfg: Config)
    requires cfg.prefillNum > 0 && cfg.decodeNum > 0
    ensures Inv(cfg, TwoWaiting()) && Batched(TwoWaiting(), [A.id, B.id])
    ensures EventTo(cfg, OState(R.Init(2, 1), map[]), Arrive(A), OState(R.Add(R.Init(2, 1), A), map[]))
    ensures EventTo(cfg, OState(R.Add(R.Init(2, 1), A), map[]), Arrive(B), TwoWaiting())
  {
    hide Inv;
    InitInv(cfg, 2, 1);
    assert A.id.text != B.id.text;
    ArriveKeeps(cfg, OState(R.Init(2, 1), map[]), A);
    ArriveKeeps(cfg, OState(R.Add(R.Init(2, 1), A), map[]), B);
  }

  /** What the prefill of both leaves behind: no free block, and two tasks that have one entry each. */
  ghost predicate BothFull(s: State) {
    && s.pool == [A.id, B.id] && A.id in s.tasks && B.id in s.tasks
    && s.cache.blockSize == 1 && s.cache.numBlocks == 2 && s.cache.free == []
    && Full(s, A) && Full(s, B)
  }

  ghost predicate Full(s: State, r: Request) {
    && r.id in s.tasks && r.id in s.cache.table && |s.cache.table[r.id]| == 1
    && r.id in s.cache.len && s.cache.len[r.id] == 1
    && s.tasks[r.id] == NewTask(r).(kind := Decode, consumed := 1)
  }

  lemma TwoTasks()
    ensures var s := TwoWaiting().s;
      && A.id != B.id && s.pool == [A.id, B.id] && s.tasks == map[A.id := NewTask(A), B.id := NewTask(B)]
      && s.cache == Cache(1, 2, Range(2), map[], map[]) && s.results == []
  {
    assert A.id.text != B.id.text;
  }

  /** The cache with the new lengths. */
  lemma TwoGrown()
    ensures Runnable(TwoWaiting().s, [A.id, B.id])
    ensures Grow(TwoWaiting().s.cache, Growth(TwoWaiting().s, [A.id, B.id])) ==
      Cache(1, 2, Range(2), map[], map[A.id := 1, B.id := 1])
    ensures Growth(TwoWaiting().s, [A.id, B.id]).Keys == Ids([A.id, B.id])
  {
    hide TwoWaiting;
    TwoTasks();
    var (s, ids) := (TwoWaiting().s, [A.id, B.id]);
    TwoInputs(s);
    GrowNew(s.cache, map[A.id := 1, B.id := 1]);
  }

  lemma TwoInputs(s: State)
    requires s.tasks == map[A.id := NewTask(A), B.id := NewTask(B)] && s.pool == [A.id, B.id] && s.cache.blockSize > 0
    ensures Runnable(s, [A.id, B.id]) && Growth(s, [A.id, B.id]) == map[A.id := 1, B.id := 1]
  {
    hide Input;
    NewRunnable(s);
    I.InputIsPrefix(NewTask(A));
    I.InputIsPrefix(NewTask(B));
  }

  lemma NewRunnable(s: State)
    requires s.tasks == map[A.id := NewTask(A), B.id := NewTask(B)] && s.pool == [A.id, B.id] && s.cache.blockSize > 0
    ensures Runnable(s, [A.id, B.id]) && s.tasks[A.id] == NewTask(A) && s.tasks[B.id] == NewTask(B)
  {
    assert A.id.text != B.id.text;
  }

  lemma GrowNew(c: Cache, grow: map<TaskId, nat>)
    requires c.len == map[]
    ensures Grow(c, grow) == c.(len := grow)
  {
  }

  /** Allocating for both takes both blocks. */
  lemma TwoAllocated(cfg: Config) returns (d: Cache)
    requires cfg.prefillNum > 0 && cfg.decodeNum > 0
    ensures Runnable(TwoWaiting().s, [A.id, B.id])
    ensures Prepare(TwoWaiting().s.cache, [A.id, B.id], Growth(TwoWaiting().s, [A.id, B.id])) == Ok(d)
    ensures d.blockSize == 1 && d.numBlocks == 2 && d.free == [] && d.len == map[A.id := 1, B.id := 1]
    ensures forall id :: id in d.len ==> id in d.table && |d.table[id]| == 1
  {
    hide Growth, Grow, NeedAll, AllocAll, Inv, Batched, EventTo, Runnable;
    TwoTasks();
    TwoGrown();
    TwoArrive(cfg);
    InvCache(cfg, TwoWaiting());
    var (c, grow, ids) := (TwoWaiting().s.cache, Growth(TwoWaiting().s, [A.id, B.id]), [A.id, B.id]);
    TwoNeeded();
    PrepareKeeps(c, ids, grow);
    AllocAllCount(Grow(c, grow), ids);
    d := Prepare(c, ids, grow).value;
    TightOne(d);
  }

  lemma InvCache(cfg: Config, o: OState)
    requires Inv(cfg, o)
    ensures CacheInv(o.s.cache)
  {
    hide LocalIn, CacheInv;
  }

  lemma TwoNeeded()
    ensures A.id != B.id && NeedAll(Cache(1, 2, Range(2), map[], map[A.id := 1, B.id := 1]), [A.id, B.id]) == 2
  {
    var g := Cache(1, 2, Range(2), map[], map[A.id := 1, B.id := 1]);
    assert A.id.text != B.id.text;
    assert [A.id, B.id] == [A.id] + [B.id] && [B.id] == [B.id] + [];
    NeedCons(g, A.id, [B.id]);
    NeedCons(g, B.id, []);
  }

  lemma TightOne(d: Cache)
    requires CacheInv(d) && d.blockSize == 1 && d.len == map[A.id := 1, B.id := 1]
    ensures forall id :: id in d.len ==> id in d.table && |d.table[id]| == 1
  {
    hide Conserved;
  }

  lemma TwoPrefilled(cfg: Config) returns (m: OState)
    requires cfg.prefillNum > 0 && cfg.decodeNum > 0
    ensures StepTo(cfg, TwoWaiting(), [A.id, B.id], m) && BothFull(m.s)
  {
    hide Prepare, Growth, RunModel, Input, TwoWaiting;
    TwoTasks();
    var d := TwoAllocated(cfg);
    m := RunPart(cfg, TwoWaiting(), [A.id, B.id]).value;
  }

  /** The update after it has nothing to do. */
  lemma NothingStopped(s: State)
    requires BothFull(s)
    ensures BothFull(Update(s, [A.id, B.id]))
  {
    hide RemoveIds, FinalizeAll;
    NoneStopped(s);
    NoIds();
    C.NobodyGone(s.pool);
    NoFinalize(s.cache);
  }

  lemma NoneStopped(s: State)
    requires BothFull(s)
    ensures StoppedOf(s.tasks, [A.id, B.id]) == [] && OfKind(s.tasks, [], Decode) == []
  {
    R.SubsetOfEmpty(StoppedOf(s.tasks, [A.id, B.id]), []);
  }

  lemma NoFinalize(c: Cache)
    ensures FinalizeAll(c, []) == c
  {
  }

  /** A run after which the scheduler hands out a batch for which the executor has not enough blocks, although
      each of its requests would fit alone. */
  lemma CountedShort(cfg: Config) returns (states: seq<OState>, events: seq<Event>)
    requires cfg.prefillNum > 0 && cfg.decodeNum > 1
    ensures IsRun(cfg, states, events) && |states| == 4 && states[0] == OState(R.Init(2, 1), map[])
    ensures NotEnough(cfg, states[3])
  {
    hide Inv, EventTo, NotEnough, Update;
    var o, t := TwoRun(cfg);
    TwoArrive(cfg);
    states := [OState(R.Init(2, 1), map[]), OState(R.Add(R.Init(2, 1), A), map[]), o, t];
    events := [Arrive(A), Arrive(B), Pass([A.id, B.id], [A.id, B.id])];
  }

  ghost predicate NotEnough(cfg: Config, o: OState) {
    && WellTyped(o.s) && R.AllFit(o.s) && IsOrder(o.s, o.s.pool) && o.s.pool != []
    && Schedule(cfg, o.s, o.s.pool) == Some(o.s.pool) && !exists t :: StepTo(cfg, o, o.s.pool, t)
  }

  lemma TwoRun(cfg: Config) returns (o: OState, t: OState)
    requires cfg.prefillNum > 0 && cfg.decodeNum > 1
    ensures o == TwoWaiting() && EventTo(cfg, o, Pass([A.id, B.id], [A.id, B.id]), t) && NotEnough(cfg, t)
  {
    hide Inv, StepTo, Batched, Between, Update, BothFull, NotEnough;
    TwoArrive(cfg);
    var ids := [A.id, B.id];
    o := TwoWaiting();
    var m := TwoPrefilled(cfg);
    StepKeeps(cfg, o, ids, m);
    BetweenIn(cfg, m, ids, ids);
    t := m.(s := Update(m.s, ids));
    PassKeeps(cfg, o, ids, ids, t);
    NothingStopped(m.s);
    FullNotEnough(cfg, t);
  }

  lemma FullNotEnough(cfg: Config, t: OState)
    requires Inv(cfg, t) && BothFull(t.s) && cfg.decodeNum > 1
    ensures NotEnough(cfg, t)
  {
    hide Inv, StepTo, Short, RunNeed, Ready, R.AllFit;
    var (s, ids) := (t.s, t.s.pool);
    PoolReady(cfg, t);
    I.ReadyAll(s.tasks, ids);
    FullCount(s);
    FullFits(s);
    FullBatched(t);
    FullSchedule(cfg, s);
    DecodeStepExact(cfg, t, ids);
  }

  lemma FullSchedule(cfg: Config, s: State)
    requires BothFull(s) && WellTyped(s) && cfg.decodeNum > 1
    ensures Schedule(cfg, s, s.pool) == Some(s.pool)
  {
    hide RunNeed, OfKind;
    FullCount(s);
    assert s.pool[..2] == s.pool && Min(cfg.decodeNum, 2) == 2;
  }

  lemma FullCount(s: State)
    requires BothFull(s)
    ensures RunNeed(s, s.pool) == 0 && Short(s, s.pool) == 2 && OfKind(s.tasks, s.pool, Decode) == s.pool
  {
    hide Need, CeilDiv, OneShort;
    var last := [B.id];
    assert s.pool[1..] == last && last[1..] == [];
    CountOne(s, A);
    CountOne(s, B);
    assert RunNeed(s, last) == 0 && Short(s, last) == 1 && OfKind(s.tasks, last, Decode) == last;
    assert OfKind(s.tasks, s.pool, Decode) == [A.id] + OfKind(s.tasks, last, Decode);
  }

  lemma CountOne(s: State, r: Request)
    requires Full(s, r) && s.cache.blockSize == 1 && |r.prompt| == 1
    ensures HasModelRun(s.tasks[r.id]) && Need(s.cache, r.id, PrefixLen(s.tasks[r.id])) == 0 && OneShort(s, r.id)
  {
  }

  lemma FullFits(s: State)
    requires BothFull(s)
    ensures WellTyped(s) && R.AllFit(s)
  {
  }

  lemma FullBatched(t: OState)
    requires BothFull(t.s)
    ensures Batched(t, t.s.pool)
  {
    assert A.id.text != B.id.text;
  }
}
