/**
 What the scheduler chooses: who makes up a batch, who is evicted, and how far the threshold falls, in
 terms of the scorer's order, the free blocks and what the cache manager will allocate.
 */
module ServingChoice {
  import opened Base
  import opened CacheSpec
  import opened TaskSpec
  import opened Serving
  import opened ServingInvariant
  import opened Ranking
  import R = ServingTheorems

  // ----- Filters -----

  ghost function KindOf(tasks: map<TaskId, Task>, k: Kind): set<TaskId> {
    set id | id in tasks && tasks[id].kind == k
  }

  /** Filtering by kind keeps exactly the tasks of that kind, in their order. */
  lemma {:induction false} OfKindAll(tasks: map<TaskId, Task>, ids: seq<TaskId>, k: Kind)
    requires Distinct(ids) && forall id :: id in ids ==> id in tasks
    ensures AllOf(ids, KindOf(tasks, k), OfKind(tasks, ids, k))
    decreases |ids|
  {
    hide AllOf;
    if ids == [] {
      NobodyOf(KindOf(tasks, k));
    } else {
      assert forall id :: id in ids[1..] ==> id != ids[0];
      OfKindAll(tasks, ids[1..], k);
      AllOfCons(ids, KindOf(tasks, k), OfKind(tasks, ids[1..], k));
    }
  }

  ghost function LiveOf(tasks: map<TaskId, Task>): set<TaskId> {
    set id | id in tasks && tasks[id].status != Stopped
  }

  /** The ready tasks are those not stopped, the others are the stopped ones, both in their order. */
  lemma {:induction false} ReadyAndStopped(tasks: map<TaskId, Task>, ids: seq<TaskId>)
    requires Distinct(ids) && forall id :: id in ids ==> id in tasks
    ensures AllOf(ids, LiveOf(tasks), Ready(tasks, ids))
    ensures AllOf(ids, tasks.Keys - LiveOf(tasks), StoppedOf(tasks, ids))
    decreases |ids|
  {
    hide AllOf;
    if ids == [] {
      NobodyOf(LiveOf(tasks));
      NobodyOf(tasks.Keys - LiveOf(tasks));
    } else {
      assert forall id :: id in ids[1..] ==> id != ids[0];
      ReadyAndStopped(tasks, ids[1..]);
      AllOfCons(ids, LiveOf(tasks), Ready(tasks, ids[1..]));
      AllOfCons(ids, tasks.Keys - LiveOf(tasks), StoppedOf(tasks, ids[1..]));
    }
  }

  /** The pool keeps its order when tasks leave. */
  lemma {:induction false} PoolKeepsOrder(pool: seq<TaskId>, all: set<TaskId>, gone: set<TaskId>)
    requires Distinct(pool) && forall id :: id in pool ==> id in all
    ensures AllOf(pool, all - gone, RemoveIds(pool, gone))
    decreases |pool|
  {
    hide AllOf;
    if pool == [] {
      NobodyOf(all - gone);
    } else {
      assert forall id :: id in pool[1..] ==> id != pool[0];
      PoolKeepsOrder(pool[1..], all, gone);
      AllOfCons(pool, all - gone, RemoveIds(pool[1..], gone));
    }
  }

  // ----- Who is evicted -----

  /** The blocks that a list of requests holds. */
  ghost function BlocksHeld(c: Cache, ids: seq<TaskId>): nat
    decreases |ids|
  {
    if ids == [] then 0 else BlocksHeld(c, ids[..|ids| - 1]) + |BlocksOf(c, ids[|ids| - 1])|
  }

  /** The first m tasks of the list fit into the free blocks once all those behind them are evicted. */
  ghost predicate Enough(s: State, ids: seq<TaskId>, m: nat)
    requires s.cache.blockSize > 0 && m <= |ids| && forall id :: id in ids ==> id in s.tasks
  {
    DecodeNeed(s, ids[..m]) <= |s.cache.free| + BlocksHeld(s.cache, ids[m..])
  }

  ghost function Pow2(n: nat): nat {
    if n == 0 then 1 else 2 * Pow2(n - 1)
  }

  lemma {:induction false} PowPositive(n: nat)
    ensures Pow2(n) > 0
    decreases n
  {
    if n > 0 {
      PowPositive(n - 1);
    }
  }

  /** The threshold after n evictions: halved n times, and at least one. */
  ghost function Lowered(t: nat, n: nat): nat {
    PowPositive(n);
    if n == 0 then t else Max(1, t / Pow2(n))
  }

  lemma HalveMore(t: nat, n: nat)
    requires n > 0
    ensures Lowered(Max(1, t / 2), n - 1) == Lowered(t, n)
  {
    PowPositive(n - 1);
    var p, h := Pow2(n - 1), t / 2;
    DivBounds(h, p);
    DivUnique(h / p, 2 * (h % p) + t % 2, 2 * p);
    assert h / p * (2 * p) + (2 * (h % p) + t % 2) == 2 * (h / p * p + h % p) + t % 2;
    if n > 1 && h == 0 {
      DivBounds(1, p);
      DivUnique(0, t, 2 * p);
    }
  }

  lemma {:induction false} DecodeNeedSame(s: State, e: State, ids: seq<TaskId>)
    requires s.cache.blockSize > 0 && e.cache.blockSize == s.cache.blockSize
    requires forall id :: id in ids ==> id in s.tasks && id in e.tasks && e.tasks[id] == s.tasks[id]
    requires forall id :: id in ids ==> (id in s.cache.table <==> id in e.cache.table)
    requires forall id :: id in ids && id in s.cache.table ==> e.cache.table[id] == s.cache.table[id]
    ensures DecodeNeed(e, ids) == DecodeNeed(s, ids)
    decreases |ids|
  {
    if ids != [] {
      DecodeNeedSame(s, e, ids[1..]);
    }
  }

  lemma {:induction false} HeldSame(c: Cache, d: Cache, ids: seq<TaskId>)
    requires forall id :: id in ids ==> BlocksOf(c, id) == BlocksOf(d, id)
    ensures BlocksHeld(c, ids) == BlocksHeld(d, ids)
    decreases |ids|
  {
    if ids != [] {
      HeldSame(c, d, ids[..|ids| - 1]);
    }
  }

  /** Evicting the last task does not change which beginnings would fit. */
  lemma EnoughNext(cfg: Config, s: State, ids: seq<TaskId>, m: nat)
    requires Core(cfg, s) && Decoders(s, ids) && m < |ids| && s.cache.blockSize > 0
    ensures Evict(s, ids[|ids| - 1]).tasks.Keys == s.tasks.Keys && Evict(s, ids[|ids| - 1]).cache.blockSize > 0
    ensures Enough(Evict(s, ids[|ids| - 1]), ids[..|ids| - 1], m) <==> Enough(s, ids, m)
  {
    hide LocalIn, Conserved, DecodeNeed, Tight;
    var last, front := ids[|ids| - 1], ids[..|ids| - 1];
    var e := Evict(s, last);
    CoreCache(cfg, s);
    FinalizeKeeps(s.cache, last);
    assert forall id :: id in front ==> id != last;
    assert front[..m] == ids[..m] && ids[m..][..|ids[m..]| - 1] == front[m..];
    DecodeNeedSame(s, e, ids[..m]);
    HeldSame(s.cache, e.cache, front[m..]);
  }

  lemma CoreCache(cfg: Config, s: State)
    requires Core(cfg, s)
    ensures CacheInv(s.cache) && s.cache.blockSize > 0 && forall id :: id in s.pool ==> id in s.tasks
  {
    hide LocalIn, Conserved;
  }

  /** m is the largest number of tasks that fit like this. */
  ghost predicate MostThatFit(s: State, ids: seq<TaskId>, m: nat) {
    && s.cache.blockSize > 0 && m <= |ids| && (forall id :: id in ids ==> id in s.tasks)
    && Enough(s, ids, m) && forall n :: m < n <= |ids| ==> !Enough(s, ids, n)
  }

  ghost predicate NoneFits(s: State, ids: seq<TaskId>) {
    && s.cache.blockSize > 0 && ids != [] && (forall id :: id in ids ==> id in s.tasks)
    && forall n :: 1 <= n <= |ids| ==> !Enough(s, ids, n)
  }

  lemma MostNext(cfg: Config, s: State, ids: seq<TaskId>, m: nat)
    requires Core(cfg, s) && Decoders(s, ids) && |ids| > 1 && m < |ids| && s.cache.blockSize > 0
    requires |s.cache.free| < DecodeNeed(s, ids)
    ensures MostThatFit(Evict(s, ids[|ids| - 1]), ids[..|ids| - 1], m) ==> MostThatFit(s, ids, m)
    ensures NoneFits(Evict(s, ids[|ids| - 1]), ids[..|ids| - 1]) ==> NoneFits(s, ids)
  {
    hide Core, Evict, DecodeNeed, Enough;
    CoreCache(cfg, s);
    var e, front := Evict(s, ids[|ids| - 1]), ids[..|ids| - 1];
    forall n: nat | n < |ids|
      ensures e.tasks.Keys == s.tasks.Keys && e.cache.blockSize > 0
      ensures Enough(e, front, n) <==> Enough(s, ids, n)
    {
      EnoughNext(cfg, s, ids, n);
    }
    AllFit(s, ids);
  }

  lemma AllFit(s: State, ids: seq<TaskId>)
    requires s.cache.blockSize > 0 && forall id :: id in ids ==> id in s.tasks
    ensures Enough(s, ids, |ids|) <==> DecodeNeed(s, ids) <= |s.cache.free|
  {
    assert ids[..|ids|] == ids && ids[|ids|..] == [];
  }

  /** The eviction loop keeps as many of the highest-priority decode tasks as fit into the free blocks and
      those that everybody behind them gives back. It raises exactly when not even one does, and every
      eviction halves the threshold. */
  lemma {:induction false} EvictionIsMinimal(cfg: Config, s: State, ids: seq<TaskId>)
    requires Core(cfg, s) && Decoders(s, ids)
    ensures s.cache.blockSize > 0 && forall id :: id in ids ==> id in s.tasks
    ensures EvictLoop(s, ids).Raised? <==> NoneFits(s, ids)
    ensures EvictLoop(s, ids).Ok? ==>
      var (e, kept) := EvictLoop(s, ids).value;
      && kept <= ids && (ids != [] ==> kept != []) && MostThatFit(s, ids, |kept|)
      && e.threshold == Lowered(s.threshold, |ids| - |kept|)
    decreases |ids|
  {
    hide Core, Evict, MostThatFit, NoneFits, DecodeNeed, Lowered, Enough;
    CoreCache(cfg, s);
    AllFit(s, ids);
    if |s.cache.free| >= DecodeNeed(s, ids) {
      KeepsAll(s, ids);
    } else if |ids| <= 1 {
      KeepsNone(s, ids);
    } else {
      var last, front := ids[|ids| - 1], ids[..|ids| - 1];
      EvictKeeps(cfg, s, last);
      var s' := Evict(s, last);
      EvictStaysDecoding(s, s', ids);
      EvictionIsMinimal(cfg, s', front);
      MostNext(cfg, s, ids, 0);
      if EvictLoop(s', front).Ok? {
        var (e, kept) := EvictLoop(s', front).value;
        MostNext(cfg, s, ids, |kept|);
        EvictedThreshold(s, last);
        HalveMore(s.threshold, |ids| - |kept|);
        MostExcludes(s, ids, |kept|);
      }
    }
  }

  lemma KeepsAll(s: State, ids: seq<TaskId>)
    requires s.cache.blockSize > 0 && (forall id :: id in ids ==> id in s.tasks) && Enough(s, ids, |ids|)
    ensures MostThatFit(s, ids, |ids|) && !NoneFits(s, ids) && Lowered(s.threshold, |ids| - |ids|) == s.threshold
  {
  }

  lemma KeepsNone(s: State, ids: seq<TaskId>)
    requires s.cache.blockSize > 0 && (forall id :: id in ids ==> id in s.tasks) && |ids| <= 1
    requires DecodeNeed(s, ids) > |s.cache.free| && !Enough(s, ids, |ids|)
    ensures NoneFits(s, ids)
  {
  }

  lemma MostExcludes(s: State, ids: seq<TaskId>, m: nat)
    requires MostThatFit(s, ids, m) && m > 0
    ensures !NoneFits(s, ids)
  {
  }

  lemma EvictedThreshold(s: State, id: TaskId)
    requires id in s.tasks
    ensures Evict(s, id).threshold == Max(1, s.threshold / 2)
  {
  }

  // ----- Who makes up a batch -----

  /** What the cache manager will allocate for these tasks fits under the threshold, together with the blocks
      in use. */
  ghost predicate FitsUnder(s: State, ids: seq<TaskId>)
    requires s.cache.blockSize > 0 && Runnable(s, ids)
  {
    s.cache.Used() + NeedAll(Grow(s.cache, Growth(s, ids)), ids) <= s.threshold
  }

  function Limit(cfg: Config, k: Kind): nat {
    match k
    case Prefill => cfg.prefillNum
    case Decode => cfg.decodeNum
  }

  /** The batch is of one kind, a beginning of the scorer's order of that kind, and not over its limit. */
  ghost predicate Selected(cfg: Config, s: State, order: seq<TaskId>, k: Kind, batch: seq<TaskId>) {
    FirstOf(order, KindOf(s.tasks, k), batch) && |batch| <= Limit(cfg, k)
  }

  /** A prefill batch: nothing is evicted, the batch fits, and it is below the limit only if nobody is left or
      the next one would not fit as well. */
  ghost predicate PrefillChosen(cfg: Config, s: State, order: seq<TaskId>, e: State, batch: seq<TaskId>)
    requires WellTyped(s) && order != [] && forall id :: id in order ==> id in s.pool
  {
    && Selected(cfg, s, order, Prefill, batch) && e == s && s.tasks[order[0]].kind == Prefill
    && Runnable(s, batch) && FitsUnder(s, batch)
    && (|batch| < Limit(cfg, Prefill) ==>
          forall id :: FirstOf(order, KindOf(s.tasks, Prefill), batch + [id]) ==>
            Runnable(s, batch + [id]) && !FitsUnder(s, batch + [id]))
  }

  /** A decode batch: it comes first only if the highest-ranked task decodes or is to be prefilled and does not
      fit. As many decode tasks as fit keep their cache, the others are evicted from the low end, and the batch
      is below the limit only if it has everybody who is left. */
  ghost predicate DecodeChosen(cfg: Config, s: State, order: seq<TaskId>, e: State, batch: seq<TaskId>)
    requires WellTyped(s) && order != [] && forall id :: id in order ==> id in s.pool
  {
    && Selected(cfg, s, order, Decode, batch)
    && (s.tasks[order[0]].kind == Prefill ==> Runnable(s, [order[0]]) && !FitsUnder(s, [order[0]]))
    && exists all, m: nat ::
         && AllOf(order, KindOf(s.tasks, Decode), all) && MostThatFit(s, all, m)
         && (forall id :: id in s.tasks && id in e.tasks ==>
               e.tasks[id] == if id in all[m..] then Evicted(s.tasks[id]) else s.tasks[id])
         && e.threshold == Lowered(s.threshold, |all| - m)
         && batch <= all[..m] && (|batch| < Limit(cfg, Decode) ==> batch == all[..m])
  }

  lemma Orders(cfg: Config, s: State, order: seq<TaskId>, k: Kind)
    requires Inv(cfg, s) && WellTyped(s) && IsOrder(s, order)
    ensures Core(cfg, s) && Distinct(order) && forall id :: id in order ==> id in s.pool && id in s.tasks
    ensures var all := OfKind(s.tasks, order, k);
      AllOf(order, KindOf(s.tasks, k),
          all) && Distinct(all) && (order != [] && s.tasks[order[0]].kind == k ==> all != [])
  {
    hide LocalIn, CacheInv, Ready, IsOrder, AllOf, KindOf;
    OrderIsPool(cfg, s, order);
    OfKindAll(s.tasks, order, k);
    OfKindDistinct(s.tasks, order, k);
    if order != [] && s.tasks[order[0]].kind == k {
      assert order[0] in OfKind(s.tasks, order, k);
    }
  }

  /** A beginning of the prefill tasks is counted exactly when it fits. */
  lemma CountedFits(cfg: Config, s: State, ids: seq<TaskId>, k: nat)
    requires Core(cfg, s) && WellTyped(s) && 0 < k <= |ids|
    requires forall id :: id in ids ==> id in s.pool && s.tasks[id].kind == Prefill
    ensures Runnable(s, ids[..k]) && (FitsUnder(s, ids[..k]) <==> k <= PrefillCount(s, ids, 0))
  {
    hide Core, PrefillCount, NeedAll, Grow, Growth;
    assert forall id :: id in ids[..k] ==> id in ids;
    PrefillNeedIsAllocation(cfg, s, ids[..k], ids, 0, k);
  }

  lemma PrefillIsChosen(cfg: Config, s: State, order: seq<TaskId>, some: seq<TaskId>)
    requires WellTyped(s) && order != [] && forall id :: id in order ==> id in s.pool && id in s.tasks
    requires SchedulePrefill(s, order) == Ok(some) && some != [] && s.tasks[order[0]].kind == Prefill
    requires Inv(cfg, s) && IsOrder(s, order)
    ensures PrefillChosen(cfg, s, order, s, some[..Min(cfg.prefillNum, |some|)])
  {
    hide Inv, Core, AllOf, FirstOf, KindOf, OfKind, PrefillCount, IsOrder, FitsUnder, Runnable;
    Orders(cfg, s, order, Prefill);
    var ids := OfKind(s.tasks, order, Prefill);
    var n := PrefillCount(s, ids, 0);
    var k := Min(cfg.prefillNum, n);
    assert ids[..n][..k] == ids[..k];
    LimitPositive(cfg, s);
    AllOfTake(order, KindOf(s.tasks, Prefill), ids, k);
    CountedFits(cfg, s, ids, k);
    forall id | k < cfg.prefillNum && FirstOf(order, KindOf(s.tasks, Prefill), ids[..k] + [id])
      ensures Runnable(s, ids[..k] + [id]) && !FitsUnder(s, ids[..k] + [id])
    {
      FirstOfUnique(order, KindOf(s.tasks, Prefill), ids, ids[..k] + [id]);
      assert ids[..k] + [id] == ids[..k + 1];
      CountedFits(cfg, s, ids, k + 1);
    }
  }

  lemma LimitPositive(cfg: Config, s: State)
    requires Inv(cfg, s)
    ensures cfg.prefillNum > 0 && cfg.decodeNum > 0
  {
    hide Core;
  }

  lemma DecodeIsChosen(cfg: Config, s: State, order: seq<TaskId>)
    requires Inv(cfg, s) && WellTyped(s) && IsOrder(s, order) && order != []
    requires forall id :: id in order ==> id in s.pool
    requires s.tasks[order[0]].kind == Prefill ==>
      SchedulePrefill(s, order).Ok? && SchedulePrefill(s, order).value == []
    requires ScheduleDecode(cfg, s, order).Ok?
    ensures var (e, batch) := ScheduleDecode(cfg, s, order).value; DecodeChosen(cfg, s, order, e, batch)
  {
    hide Inv, Core, AllOf, FirstOf, KindOf, OfKind, IsOrder, EvictLoop, MostThatFit, Lowered, FitsUnder, KeptPrefix,
      DecodeChosen, PrefillCount;
    Orders(cfg, s, order, Decode);
    var all := OfKind(s.tasks, order, Decode);
    if s.tasks[order[0]].kind == Prefill {
      FirstTooBig(cfg, s, order);
    }
    EvictLoopKeeps(cfg, s, all);
    EvictionIsMinimal(cfg, s, all);
    var (e, kept) := EvictLoop(s, all).value;
    LimitPositive(cfg, s);
    DecodePicked(cfg, s, order, all, e, kept);
  }

  lemma DecodePicked(cfg: Config, s: State, order: seq<TaskId>, all: seq<TaskId>, e: State, kept: seq<TaskId>)
    requires WellTyped(s) && order != [] && forall id :: id in order ==> id in s.pool
    requires AllOf(order, KindOf(s.tasks, Decode), all) && KeptPrefix(s, all, e, kept)
    requires MostThatFit(s, all, |kept|) && e.threshold == Lowered(s.threshold, |all| - |kept|)
    requires s.tasks[order[0]].kind == Prefill ==> Runnable(s, [order[0]]) && !FitsUnder(s, [order[0]])
    ensures DecodeChosen(cfg, s, order, e, kept[..Min(cfg.decodeNum, |kept|)])
  {
    hide AllOf, FirstOf, KindOf, MostThatFit, Lowered, FitsUnder, Runnable;
    var m, batch := |kept|, kept[..Min(cfg.decodeNum, |kept|)];
    assert kept == all[..m] && batch == all[..|batch|];
    AllOfTake(order, KindOf(s.tasks, Decode), all, |batch|);
  }

  /** When no prefill task is taken, the highest-ranked one does not fit. */
  lemma FirstTooBig(cfg: Config, s: State, order: seq<TaskId>)
    requires Inv(cfg, s) && WellTyped(s) && IsOrder(s, order) && order != []
    requires (forall id :: id in order ==> id in s.pool) && s.tasks[order[0]].kind == Prefill
    ensures Runnable(s, [order[0]])
    ensures PrefillCount(s, OfKind(s.tasks, order, Prefill), 0) == 0 <==> !FitsUnder(s, [order[0]])
  {
    hide Inv, Core, AllOf, KindOf, IsOrder, FitsUnder, PrefillCount;
    Orders(cfg, s, order, Prefill);
    var ids := OfKind(s.tasks, order, Prefill);
    assert ids[..1] == [order[0]];
    CountedFits(cfg, s, ids, 1);
  }

  /** What `schedule` returns, for any order of the ready tasks. */
  lemma BatchIsChosen(cfg: Config, s: State, order: seq<TaskId>)
    requires Inv(cfg, s) && WellTyped(s) && IsOrder(s, order) && order != []
    requires forall id :: id in order ==> id in s.pool
    requires Schedule(cfg, s, order).Ok?
    ensures var (e, batch) := Schedule(cfg, s, order).value;
      PrefillChosen(cfg, s, order, e, batch) || DecodeChosen(cfg, s, order, e, batch)
  {
    hide Inv, IsOrder, SchedulePrefill, ScheduleDecode, PrefillChosen, DecodeChosen;
    if s.tasks[order[0]].kind == Prefill && SchedulePrefill(s, order).value != [] {
      PrefillIsChosen(cfg, s, order, SchedulePrefill(s, order).value);
    } else {
      DecodeIsChosen(cfg, s, order);
    }
  }

  /** When it raises: the highest-ranked task is to be prefilled, and does not even fit into an empty cache
      below an untouched threshold; or the decode tasks are looked at, and not even the first of them fits. */
  lemma RaisesExactly(cfg: Config, s: State, order: seq<TaskId>)
    requires Inv(cfg, s) && WellTyped(s) && IsOrder(s, order) && order != []
    requires forall id :: id in order ==> id in s.pool
    ensures s.tasks[order[0]].kind == Prefill ==> Runnable(s, [order[0]])
    ensures var tooBig := s.tasks[order[0]].kind == Prefill && !FitsUnder(s, [order[0]]);
      var empty := s.threshold == s.cache.numBlocks && s.cache.Used() == 0;
      && (Schedule(cfg, s, order) == Raised(PrefillCapacity) <==> tooBig && empty)
      && (Schedule(cfg, s, order) == Raised(DecodeCapacity) <==>
            (s.tasks[order[0]].kind == Decode || (tooBig && !empty))
            && exists all :: AllOf(order, KindOf(s.tasks, Decode), all) && NoneFits(s, all))
  {
    hide Inv, Core, AllOf, KindOf, OfKind, IsOrder, EvictLoop, FitsUnder, PrefillCount, NoneFits;
    Orders(cfg, s, order, Decode);
    var all := OfKind(s.tasks, order, Decode);
    EvictionIsMinimal(cfg, s, all);
    R.EvictLoopErrors(s, all);
    forall other | AllOf(order, KindOf(s.tasks, Decode), other)
      ensures other == all
    {
      AllOfUnique(order, KindOf(s.tasks, Decode), all, other);
    }
    if s.tasks[order[0]].kind == Prefill {
      FirstTooBig(cfg, s, order);
    }
  }

  // ----- The order of the pool -----

  /** The requests that have been accepted, in the order of their arrival. */
  ghost function Arrivals(states: seq<State>, events: seq<R.Event>): seq<TaskId>
    requires |states| > |events|
    decreases |events|
  {
    if events == [] then []
    else
      var n := |events| - 1;
      Arrivals(states, events[..n])
        + match events[n] case Arrive(r) => (if r.id in states[n].pool then [] else [r.id]) case Pass(_) => []
  }

  /** A pass only ever removes requests from the pool. */
  lemma PassPool(cfg: Config, s: State, ch: Choice, t: State) returns (gone: set<TaskId>)
    requires Inv(cfg, s) && R.PassTo(cfg, s, ch, t)
    ensures t.pool == RemoveIds(s.pool, gone) && t.tasks.Keys == s.tasks.Keys
  {
    hide Inv, Core, RemoveIds, IsOrder, Admitted, Schedule, Compute, Deliver;
    ScheduleAdmits(cfg, s, ch.order);
    var (e, batch) := Schedule(cfg, s, ch.order).value;
    if batch == [] {
      gone := {};
      DeliverPool(e);
      NobodyGone(s.pool);
    } else {
      InvCore(cfg, e);
      ComputeParts(cfg, e, batch);
      gone := Ids(StoppedOf(Compute(cfg, e, batch).value.tasks, ch.shuffle(batch)));
    }
  }

  lemma InvCore(cfg: Config, s: State)
    requires Inv(cfg, s)
    ensures Core(cfg, s) && Distinct(s.pool)
  {
    hide LocalIn, CacheInv;
  }

  lemma DeliverPool(s: State)
    ensures Deliver(s).pool == s.pool && Deliver(s).tasks.Keys == s.tasks.Keys
  {
  }

  lemma {:induction false} NobodyGone(pool: seq<TaskId>)
    ensures RemoveIds(pool, {}) == pool
    decreases |pool|
  {
    if pool != [] {
      NobodyGone(pool[1..]);
    }
  }

  /** In every state of every run the pool lists exactly the live requests in the order of their arrival,
      evictions included. */
  lemma {:induction false} PoolInArrivalOrder(cfg: Config, states: seq<State>, events: seq<R.Event>, numBlocks: nat,
      blockSize: nat, i: nat)
    requires R.IsRun(cfg, states, events) && i < |states| && states[0] == R.Init(numBlocks, blockSize)
    requires cfg.prefillNum > 0 && cfg.decodeNum > 0 && numBlocks > 0 && blockSize > 0
    ensures AllOf(Arrivals(states, events[..i]), Ids(states[i].pool), states[i].pool)
    ensures forall id :: id in Arrivals(states, events[..i]) ==> id in states[i].tasks
    decreases i
  {
    hide Inv, R.PassTo, R.Init, AllOf;
    if i == 0 {
      StartEmpty(numBlocks, blockSize);
      NobodyOf(Ids([]));
    } else {
      PoolInArrivalOrder(cfg, states, events, numBlocks, blockSize, i - 1);
      R.InitInv(cfg, numBlocks, blockSize);
      R.RunInv(cfg, states, events);
      assert R.StepTo(cfg, states[i - 1], events[i - 1], states[i - 1 + 1]);
      assert events[..i][..i - 1] == events[..i - 1];
      OrderNext(cfg, states[i - 1], events[i - 1], states[i], Arrivals(states, events[..i - 1]));
    }
  }

  lemma StartEmpty(numBlocks: nat, blockSize: nat)
    ensures R.Init(numBlocks, blockSize).pool == []
  {
  }

  lemma OrderNext(cfg: Config, s: State, ev: R.Event, t: State, before: seq<TaskId>)
    requires Inv(cfg, s) && R.StepTo(cfg, s, ev, t) && AllOf(before, Ids(s.pool), s.pool)
    requires forall id :: id in before ==> id in s.tasks
    ensures var after := before
        + match ev case Arrive(r) => (if r.id in s.pool then [] else [r.id]) case Pass(_) => [];
      AllOf(after, Ids(t.pool), t.pool) && forall id :: id in after ==> id in t.tasks
  {
    hide Inv, R.PassTo, AllOf;
    match ev
    case Arrive(r) =>
      assert before + [] == before;
      if r.id !in s.pool {
        AllOfSame(before, Ids(s.pool), Ids(t.pool), s.pool);
        AllOfSnoc(before, r.id, Ids(t.pool), s.pool);
      }
    case Pass(ch) =>
      assert before + [] == before;
      var gone := PassPool(cfg, s, ch, t);
      InvCore(cfg, s);
      PoolKeepsOrder(s.pool, Ids(s.pool), gone);
      AllOfAll(before, Ids(s.pool), s.pool, Ids(s.pool) - gone, t.pool);
      AllOfSame(before, Ids(s.pool) * (Ids(s.pool) - gone), Ids(t.pool), t.pool);
  }
}
