/**
 The executor with overlapped scheduling: a decode step first synchronises the results that the
 previous steps left on the tasks, then runs the model only for the tasks that were still running when
 the batch was put together, and leaves the new results on them. Here is what every run keeps;
 `OverlapProgress` shows that with enough cache every request is served.
 */
module Overlap {
  import opened Base
  import opened LanguageModel
  import opened CacheSpec
  import opened TaskSpec
  import opened Serving
  import opened Ranking
  import I = ServingInvariant
  import R = ServingTheorems

  /** `pending` holds `generated_result` of the tasks that have one. */
  datatype OState = OState(s: State, pending: map<TaskId, nat>)

  /** `has_model_run` in overlap mode. */
  predicate HasModelRun(t: Task) {
    t.status == Normal
  }

  function Running(tasks: map<TaskId, Task>, ids: seq<TaskId>): (r: seq<TaskId>)
    requires forall id :: id in ids ==> id in tasks
    ensures forall id :: id in r <==> id in ids && HasModelRun(tasks[id])
    decreases |ids|
  {
    if ids == [] then []
    else (if HasModelRun(tasks[ids[0]]) then [ids[0]] else []) + Running(tasks, ids[1..])
  }

  /** The concatenation of the results that are there. */
  function Collect(pending: map<TaskId, nat>, ids: seq<TaskId>): (r: seq<Token>)
    ensures |r| <= |ids|
    decreases |ids|
  {
    if ids == [] then []
    else (if ids[0] in pending then [pending[ids[0]]] else []) + Collect(pending, ids[1..])
  }

  /** `update_response_no_sync` for the tasks of the batch, the tokens taken by position. */
  function ReceiveAll(tasks: map<TaskId, Task>, ids: seq<TaskId>, tokens: seq<Token>): (r: map<TaskId, Task>)
    requires |tokens| == |ids| && forall id :: id in ids ==> id in tasks
    ensures r.Keys == tasks.Keys
    decreases |ids|
  {
    if ids == [] then tasks
    else ReceiveAll(tasks[ids[0] := Receive(tasks[ids[0]], tokens[0])], ids[1..], tokens[1..])
  }

  function StatusAll(stops: set<Token>, tasks: map<TaskId, Task>, batch: seq<TaskId>): map<TaskId, Task> {
    map id | id in tasks :: if id in batch then UpdateStatus(stops, SyncPrefix(tasks[id])) else tasks[id]
  }

  /** `postprocess_sync_part` on the collected results. It needs one result for every task. */
  function SyncPart(cfg: Config, o: OState, batch: seq<TaskId>): (r: OState)
    requires Runnable(o.s, batch) && |Collect(o.pending, batch)| == |batch|
  {
    var tasks := StatusAll(cfg.stops, ReceiveAll(o.s.tasks, batch, Collect(o.pending, batch)), batch);
    OState(o.s.(tasks := tasks, results := o.s.results + [BatchResult(tasks, batch)]), o.pending - Ids(batch))
  }

  /** Model run, bookkeeping, delivery of the queued results, and the new results left on the tasks. */
  function RunPart(cfg: Config, o: OState, batch: seq<TaskId>): Outcome<OState>
    requires Runnable(o.s, batch)
  {
    var cache :- Prepare(o.s.cache, batch, Growth(o.s, batch));
    var contents := RunModel(cfg.lm, o.s, batch);
    Ok(OState(
      Deliver(o.s.(cache := cache, contents := contents, tasks := RunTasks(o.s.tasks, batch))),
      map id | id in o.pending.Keys + Ids(batch) ::
        if id in batch then cfg.lm.next(KvOf(contents, id)) else o.pending[id]))
  }

  /** `Executor.step`. Which tasks run is decided before their results are looked at. */
  ghost predicate StepTo(cfg: Config, o: OState, batch: seq<TaskId>, t: OState) {
    && Runnable(o.s, batch) && batch != []
    && if o.s.tasks[batch[0]].kind == Prefill then RunPart(cfg, o, batch) == Ok(t)
       else
         var runs := Running(o.s.tasks, batch);
         && |Collect(o.pending, batch)| == |batch|
         && var m := SyncPart(cfg, o, batch);
         Runnable(m.s, runs) && RunPart(cfg, m, runs) == Ok(t)
  }

  /** A batch the scheduler may return when nothing has to be evicted: distinct ready tasks of one kind. */
  ghost predicate Batched(o: OState, batch: seq<TaskId>) {
    && Runnable(o.s, batch) && Distinct(batch) && batch != []
    && forall id :: id in batch ==> o.s.tasks[id].status != Stopped && o.s.tasks[id].kind == o.s.tasks[batch[0]].kind
  }

  /** One pass: a step on some batch for which the cache suffices, then the update. */
  ghost predicate PassTo(cfg: Config, o: OState, batch: seq<TaskId>, ids: seq<TaskId>, t: OState) {
    && Batched(o, batch) && multiset(ids) == multiset(batch)
    && exists m :: StepTo(cfg, o, batch, m) && (forall id :: id in ids ==> id in m.s.tasks)
         && t == m.(s := Update(m.s, ids))
  }

  // ----- Invariant -----

  /** A task between two steps. A live decode task has exactly one result waiting, the greedy successor
      of its prefix, and its cache covers the whole prefix. */
  ghost predicate Local(cfg: Config, t: Task, live: bool, cached: bool, kv: seq<Kv>, pending: Option<Token>) {
    && Track(cfg, t)
    && (live <==> t.status != Stopped)
    && (cached <==> live && t.kind == Decode)
    && t.remain == 0 && t.delivered == Generated(t)
    && (t.closed <==> t.status == Stopped)
    && (t.kind == Prefill ==> live && t.status == Normal && Generated(t) == [] && t.consumed == 0 && pending == None)
    && (cached ==> kv == Entries(cfg.lm, t.prefix) && pending == Some(Greedy(cfg.lm, t.prefix)))
    && (!cached ==> kv == [])
  }

  /** Tokens, status and finish reason follow the naive loop. */
  ghost predicate Track(cfg: Config, t: Task) {
    && t.req.prompt <= t.prefix && t.chunk == None && t.consumed <= |t.prefix|
    && var out := Generated(t);
    && t.numNew == |out|
    && (t.status == Stopped <==> t.finish.Some?)
    && (t.status == Stopped ==> Naive(cfg.lm, cfg.stops, t.req) == Completion(out, t.finish.value))
    && (t.status != Stopped ==>
         |out| < Cap(t.req) && Naive(cfg.lm, cfg.stops, t.req) == Generate(cfg.lm, cfg.stops, t.req, out))
    && (t.status != Stopped ==> (t.status == WillStopLength <==> |out| >= 1 && |out| >= t.req.maxNewTokens - 1))
  }

  function PendingOf(pending: map<TaskId, nat>, id: TaskId): Option<Token> {
    if id in pending then Some(pending[id]) else None
  }

  ghost predicate LocalIn(cfg: Config, o: OState, id: TaskId)
    requires id in o.s.tasks
  {
    Local(cfg, o.s.tasks[id], id in o.s.pool, id in o.s.cache.len, KvOf(o.s.contents, id), PendingOf(o.pending, id))
  }

  ghost predicate Shape(s: State) {
    && CacheInv(s.cache) && s.cache.numBlocks > 0 && Distinct(s.pool)
    && (forall id :: id in s.pool ==> id in s.tasks)
    && s.contents.Keys == s.cache.len.Keys && s.cache.len.Keys <= s.tasks.Keys
    && LengthsAgree(s.cache.len, s.contents)
  }

  /** Every request has as many entries as its length says. */
  ghost predicate LengthsAgree(len: map<TaskId, nat>, contents: map<TaskId, seq<Kv>>) {
    forall id :: id in contents && id in len ==> len[id] == |contents[id]|
  }

  /** Between two steps no batch result is queued, and every task is in agreement. */
  ghost predicate Inv(cfg: Config, o: OState) {
    Shape(o.s) && o.s.results == [] && forall id :: id in o.s.tasks ==> LocalIn(cfg, o, id)
  }

  // ----- One task -----

  /** Synchronising the waiting token moves a live decode task one token along the naive loop. */
  lemma SyncTrack(cfg: Config, t: Task)
    requires Track(cfg, t) && t.status != Stopped && t.kind == Decode
    ensures var token := Greedy(cfg.lm, t.prefix);
      var u := Advance(cfg.stops, t, token);
      && Track(cfg, u) && u.kind == Decode && u.prefix == t.prefix + [token] && u.nextToken == token
      && u.delivered == t.delivered && u.remain == t.remain + 1 && u.closed == t.closed && u.req == t.req
      && Generated(u) == Generated(t) + [token]
      && (t.status == WillStopLength ==> u.status == Stopped)
  {
    var token := Greedy(cfg.lm, t.prefix);
    var u := Advance(cfg.stops, t, token);
    var out := Generated(t);
    assert t.prefix == t.req.prompt + out;
    assert u.prefix == t.prefix + [token];
    assert Generated(u) == out + [token];
  }

  /** A task of the batch between the step and the update. */
  ghost predicate Stepped(cfg: Config, t: Task, kv: seq<Kv>, pending: Option<Token>) {
    && Track(cfg, t) && t.kind == Decode
    && t.remain == 0 && t.delivered == Generated(t)
    && (t.closed <==> t.status == Stopped)
    && (t.status != Stopped ==> kv == Entries(cfg.lm, t.prefix) && pending == Some(Greedy(cfg.lm, t.prefix)))
  }

  lemma FeedOne(lm: Lm, prefix: seq<Token>, token: Token)
    ensures Extend(lm, Entries(lm, prefix), [token]) == Entries(lm, prefix + [token])
  {
    ExtendConcat(lm, [], prefix, [token]);
  }

  /** A decode task: its token is received and delivered; if it was not about to stop, it has also run. */
  lemma DecodeTask(cfg: Config, t: Task, kv: seq<Kv>, u: Task, kv': seq<Kv>, pending': Option<Token>)
    requires Local(cfg, t, true, true, kv, Some(Greedy(cfg.lm, t.prefix)))
    requires var a := Advance(cfg.stops, t, Greedy(cfg.lm, t.prefix));
      if HasModelRun(t) then
        && u == AddData(a.(synced := false), a.nextToken)
        && kv' == Extend(cfg.lm, kv, [a.nextToken]) && pending' == Some(cfg.lm.next(kv'))
      else u == AddData(a, a.nextToken)
    ensures Stepped(cfg, u, kv', pending')
  {
    hide Naive, Generate, Entries, Greedy, Advance, Track, AddData;
    var token := Greedy(cfg.lm, t.prefix);
    SyncTrack(cfg, t);
    var a := Advance(cfg.stops, t, token);
    FeedOne(cfg.lm, t.prefix, token);
    I.GreedyIs(cfg.lm, a.prefix);
    PrefixKept(cfg, a);
    DeliveredTrack(cfg, a, u);
  }

  lemma PrefixKept(cfg: Config, t: Task)
    requires Track(cfg, t)
    ensures |t.req.prompt| <= |t.prefix|
  {
    hide Naive, Generate;
  }

  /** Delivering the last token keeps a task on the naive loop. */
  lemma DeliveredTrack(cfg: Config, a: Task, u: Task)
    requires Track(cfg, a) && a.remain == 1 && a.kind == Decode && !a.closed
    requires |a.req.prompt| <= |a.prefix| && Generated(a) == a.delivered + [a.nextToken]
    requires u == AddData(a, a.nextToken) || u == AddData(a.(synced := false), a.nextToken)
    ensures Track(cfg, u) && u.kind == Decode && u.prefix == a.prefix && u.status == a.status
    ensures u.remain == 0 && u.delivered == Generated(u) && (u.closed <==> u.status == Stopped)
  {
    hide Naive, Generate;
    assert Generated(u) == Generated(a);
  }

  /** A prefill task: its whole prefix is fed, and its first token is left waiting. */
  lemma PrefillTask(cfg: Config, t: Task, kv: seq<Kv>, kv': seq<Kv>, pending': Option<Token>)
    requires Local(cfg, t, true, false, kv, None) && t.kind == Prefill
    requires kv' == Extend(cfg.lm, kv, NextTokens(t)) && pending' == Some(cfg.lm.next(kv'))
    ensures Stepped(cfg, Consume(t), kv', pending')
  {
    hide Naive, Generate, Extend;
    assert NextTokens(t) == t.prefix;
    I.GreedyIs(cfg.lm, t.prefix);
    EntriesIs(cfg.lm, t.prefix);
  }

  lemma EntriesIs(lm: Lm, tokens: seq<Token>)
    ensures Entries(lm, tokens) == Extend(lm, [], tokens)
  {
  }

  lemma UpdatedTask(cfg: Config, t: Task, kv: seq<Kv>, pending: Option<Token>)
    requires Stepped(cfg, t, kv, pending)
    ensures t.status == Stopped ==> Local(cfg, t, false, false, [], pending)
    ensures t.status != Stopped ==> Local(cfg, t, true, true, kv, pending)
  {
    hide Track, Entries, Greedy;
  }

  // ----- The synchronisation of a batch -----

  /** Every task of the batch has a result waiting. */
  ghost predicate AllPending(pending: map<TaskId, nat>, batch: seq<TaskId>) {
    forall id :: id in batch ==> id in pending
  }

  /** If every task has exactly one result, the collected tensor is aligned with the batch. */
  lemma {:induction false} CollectAligned(pending: map<TaskId, nat>, batch: seq<TaskId>)
    requires AllPending(pending, batch)
    ensures |Collect(pending, batch)| == |batch|
    ensures forall i :: 0 <= i < |batch| ==> Collect(pending, batch)[i] == pending[batch[i]]
    decreases |batch|
  {
    if batch != [] {
      CollectAligned(pending, batch[1..]);
    }
  }

  /** One missing result is enough to shift or shorten the tensor: its length tells. */
  lemma {:induction false} CollectShort(pending: map<TaskId, nat>, batch: seq<TaskId>)
    requires |Collect(pending, batch)| == |batch|
    ensures AllPending(pending, batch)
    decreases |batch|
  {
    if batch != [] {
      CollectShort(pending, batch[1..]);
    }
  }

  lemma {:induction false} ReceiveEach(tasks: map<TaskId, Task>, ids: seq<TaskId>, tokens: seq<Token>, id: TaskId)
    requires |tokens| == |ids| && (forall x :: x in ids ==> x in tasks) && Distinct(ids) && id in tasks
    ensures var r := ReceiveAll(tasks, ids, tokens);
      && (id !in ids ==> r[id] == tasks[id])
      && forall i :: 0 <= i < |ids| && ids[i] == id ==> r[id] == Receive(tasks[id], tokens[i])
    decreases |ids|
  {
    hide Receive;
    if ids != [] {
      assert forall x :: x in ids[1..] ==> x != ids[0];
      ReceiveEach(tasks[ids[0] := Receive(tasks[ids[0]], tokens[0])], ids[1..], tokens[1..], id);
    }
  }

  /** After synchronisation every task of the batch has taken its own result, and that is what is queued. */
  lemma SyncEach(cfg: Config, o: OState, batch: seq<TaskId>, id: TaskId)
    requires Runnable(o.s, batch) && Distinct(batch) && AllPending(o.pending, batch) && id in o.s.tasks
    ensures |Collect(o.pending, batch)| == |batch|
    ensures var m := SyncPart(cfg, o, batch);
      m.s.tasks[id] == if id in batch then Advance(cfg.stops, o.s.tasks[id], o.pending[id]) else o.s.tasks[id]
  {
    hide Receive, SyncPrefix, UpdateStatus;
    CollectAligned(o.pending, batch);
    ReceiveEach(o.s.tasks, batch, Collect(o.pending, batch), id);
    if id in batch {
      var i :| 0 <= i < |batch| && batch[i] == id;
      AdvanceIs(cfg.stops, o.s.tasks[id], o.pending[id]);
    }
  }

  // ----- The model run of a batch -----

  ghost function Delivered(results: seq<map<TaskId, Token>>, id: TaskId, t: Task): Task {
    if results != [] && id in results[0] then AddData(t, results[0][id]) else t
  }

  lemma RunEach(cfg: Config, o: OState, batch: seq<TaskId>, t: OState, id: TaskId)
    requires Runnable(o.s, batch) && RunPart(cfg, o, batch) == Ok(t) && id in o.s.tasks && |o.s.results| <= 1
    ensures t.s.tasks.Keys == o.s.tasks.Keys && t.s.results == [] && t.s.pool == o.s.pool
    ensures t.s.tasks[id] == Delivered(o.s.results, id, if id in batch then AfterRun(o.s.tasks[id]) else o.s.tasks[id])
    ensures var kv := KvOf(o.s.contents, id);
      KvOf(t.s.contents, id) == if id in batch then Extend(cfg.lm, kv, Input(o.s.tasks[id])) else kv
    ensures PendingOf(t.pending, id) ==
      if id in batch then Some(cfg.lm.next(KvOf(t.s.contents, id))) else PendingOf(o.pending, id)
  {
    hide Prepare, AfterRun, AddData, Extend, Input, RunModel, InputOf;
    RunModelAt(cfg.lm, o.s, batch, id);
  }

  lemma RunShape(cfg: Config, o: OState, batch: seq<TaskId>, t: OState)
    requires Runnable(o.s, batch) && RunPart(cfg, o, batch) == Ok(t)
    requires Shape(o.s) && Distinct(batch)
    ensures Shape(t.s) && t.s.cache.len.Keys == o.s.cache.len.Keys + Ids(batch)
  {
    hide CacheInv, NeedAll, Extend, Input, AfterRun, AddData, LengthsAgree;
    PrepareKeeps(o.s.cache, batch, Growth(o.s, batch));
    RunLengths(cfg, o, batch, t);
    hide Prepare;
  }

  lemma RunLengths(cfg: Config, o: OState, batch: seq<TaskId>, t: OState)
    requires Runnable(o.s, batch) && RunPart(cfg, o, batch) == Ok(t)
    requires Shape(o.s) && Distinct(batch)
    ensures LengthsAgree(t.s.cache.len, t.s.contents)
  {
    hide CacheInv, NeedAll, Extend, Input, AfterRun, AddData, RunTasks;
    PrepareKeeps(o.s.cache, batch, Growth(o.s, batch));
    hide Prepare;
  }

  // ----- The step keeps the agreement -----

  ghost predicate Between(cfg: Config, o: OState, batch: seq<TaskId>) {
    && Shape(o.s) && o.s.results == [] && Distinct(batch)
    && (forall id :: id in batch ==> id in o.s.pool && id in o.s.cache.len)
    && (forall id :: id in o.s.tasks && id !in batch ==> LocalIn(cfg, o, id))
    && (forall id :: id in batch ==>
         id in o.s.tasks && Stepped(cfg, o.s.tasks[id], KvOf(o.s.contents, id), PendingOf(o.pending, id)))
  }

  /** A task no step has touched. */
  lemma Untouched(cfg: Config, o: OState, t: OState, id: TaskId)
    requires id in o.s.tasks && LocalIn(cfg, o, id) && id in t.s.tasks && t.s.tasks[id] == o.s.tasks[id]
    requires t.s.pool == o.s.pool && (id in t.s.cache.len <==> id in o.s.cache.len)
    requires KvOf(t.s.contents, id) == KvOf(o.s.contents, id) && PendingOf(t.pending, id) == PendingOf(o.pending, id)
    ensures LocalIn(cfg, t, id)
  {
    hide Local;
  }

  lemma PrefillStep(cfg: Config, o: OState, batch: seq<TaskId>, t: OState)
    requires Inv(cfg, o) && Batched(o, batch) && o.s.tasks[batch[0]].kind == Prefill && RunPart(cfg, o, batch) == Ok(t)
    ensures Between(cfg, t, batch)
  {
    hide RunPart, Shape, Local, Stepped, Extend, AddData;
    ShapeFacts(o.s);
    RunShape(cfg, o, batch, t);
    forall id | id in o.s.tasks
      ensures t.s.tasks.Keys == o.s.tasks.Keys && t.s.results == [] && t.s.pool == o.s.pool
      ensures id !in batch ==> LocalIn(cfg, t, id)
      ensures id in batch ==> Stepped(cfg, t.s.tasks[id], KvOf(t.s.contents, id), PendingOf(t.pending, id))
    {
      RunEach(cfg, o, batch, t, id);
      assert LocalIn(cfg, o, id);
      if id in batch {
        PrefillEach(cfg, o, batch, id);
        PrefillTask(cfg, o.s.tasks[id], KvOf(o.s.contents, id), KvOf(t.s.contents, id), PendingOf(t.pending, id));
      } else {
        Untouched(cfg, o, t, id);
      }
    }
    BatchIn(cfg, o, batch);
    assert batch[0] in o.s.tasks;
  }

  lemma ShapeFacts(s: State)
    requires Shape(s)
    ensures forall id :: id in s.pool ==> id in s.tasks
  {
    hide CacheInv;
  }

  lemma BatchIn(cfg: Config, o: OState, batch: seq<TaskId>)
    requires Inv(cfg, o) && Batched(o, batch)
    ensures forall id :: id in batch ==> id in o.s.pool && id in o.s.tasks && id in Ids(batch)
  {
    hide CacheInv, LocalIn;
  }

  lemma PrefillEach(cfg: Config, o: OState, batch: seq<TaskId>, id: TaskId)
    requires Inv(cfg, o) && Batched(o, batch) && id in batch && o.s.tasks[batch[0]].kind == Prefill
    ensures var t := o.s.tasks[id];
      && t.kind == Prefill && t.consumed <= |t.prefix| && Input(t) == NextTokens(t) && AfterRun(t) == Consume(t)
      && Local(cfg, t, true, false, KvOf(o.s.contents, id), None)
  {
    hide CacheInv, Track, Entries, Greedy, NextTokens, Consume;
    assert LocalIn(cfg, o, id);
  }

  lemma DecodeBatch(cfg: Config, o: OState, batch: seq<TaskId>)
    requires Inv(cfg, o) && Batched(o, batch) && o.s.tasks[batch[0]].kind == Decode
    ensures AllPending(o.pending, batch)
    ensures forall id :: id in batch ==> id in o.s.cache.len && o.pending[id] == Greedy(cfg.lm, o.s.tasks[id].prefix)
    ensures forall id :: id in batch ==>
      Local(cfg, o.s.tasks[id], true, true, KvOf(o.s.contents, id), Some(Greedy(cfg.lm, o.s.tasks[id].prefix)))
  {
    hide CacheInv, Track, Entries, Greedy;
    forall id | id in batch
      ensures id in o.pending && id in o.s.cache.len && o.pending[id] == Greedy(cfg.lm, o.s.tasks[id].prefix)
      ensures Local(cfg, o.s.tasks[id], true, true, KvOf(o.s.contents, id), Some(Greedy(cfg.lm, o.s.tasks[id].prefix)))
    {
      assert LocalIn(cfg, o, id);
    }
  }

  lemma SyncShape(cfg: Config, o: OState, batch: seq<TaskId>)
    requires Runnable(o.s, batch) && |Collect(o.pending, batch)| == |batch| && Shape(o.s) && o.s.results == []
    ensures var m := SyncPart(cfg, o, batch);
      && Shape(m.s) && m.s.pool == o.s.pool && m.s.tasks.Keys == o.s.tasks.Keys
      && m.s.cache == o.s.cache && m.s.contents == o.s.contents
      && m.s.results == [BatchResult(m.s.tasks, batch)] && m.pending == o.pending - Ids(batch)
  {
    hide CacheInv, Collect, UpdateStatus, SyncPrefix, BatchResult;
  }

  lemma {:induction false} RunningDistinct(tasks: map<TaskId, Task>, ids: seq<TaskId>)
    requires Distinct(ids) && forall id :: id in ids ==> id in tasks
    ensures Distinct(Running(tasks, ids))
    decreases |ids|
  {
    if ids != [] {
      assert forall id :: id in ids[1..] ==> id != ids[0];
      RunningDistinct(tasks, ids[1..]);
    }
  }

  ghost function NormalOf(tasks: map<TaskId, Task>): set<TaskId> {
    set id | id in tasks && tasks[id].status == Normal
  }

  /** The tasks that will run are those whose stop has not been announced, in the order of the batch. */
  lemma {:induction false} RunningAll(tasks: map<TaskId, Task>, ids: seq<TaskId>)
    requires Distinct(ids) && forall id :: id in ids ==> id in tasks
    ensures AllOf(ids, NormalOf(tasks), Running(tasks, ids))
    decreases |ids|
  {
    hide AllOf;
    var of := NormalOf(tasks);
    if ids == [] {
      NobodyOf(of);
    } else {
      assert forall id :: id in ids[1..] ==> id != ids[0];
      RunningAll(tasks, ids[1..]);
      AllOfCons(ids, of, Running(tasks, ids[1..]));
    }
  }

  /** One task of a decode batch, from before the synchronisation to after the run. */
  lemma DecodeEach(cfg: Config, o: OState, batch: seq<TaskId>, m: OState, t: OState, id: TaskId)
    requires Inv(cfg, o) && Batched(o, batch) && o.s.tasks[batch[0]].kind == Decode && id in batch
    requires |Collect(o.pending, batch)| == |batch| && m == SyncPart(cfg, o, batch)
    requires Runnable(m.s, Running(o.s.tasks, batch)) && RunPart(cfg, m, Running(o.s.tasks, batch)) == Ok(t)
    ensures t.s.tasks.Keys == o.s.tasks.Keys && t.s.results == [] && t.s.pool == o.s.pool
    ensures id in t.s.tasks && Stepped(cfg, t.s.tasks[id], KvOf(t.s.contents, id), PendingOf(t.pending, id))
  {
    hide Shape, LocalIn, Local, Stepped, Advance, Greedy, Extend, RunPart, SyncPart, Running, AddData, Collect;
    var task := o.s.tasks[id];
    var token := Greedy(cfg.lm, task.prefix);
    DecodeBatch(cfg, o, batch);
    SyncShape(cfg, o, batch);
    SyncEach(cfg, o, batch, id);
    AdvanceIs(cfg.stops, task, token);
    RunEach(cfg, m, Running(o.s.tasks, batch), t, id);
    DecodeTask(cfg, task, KvOf(o.s.contents, id), t.s.tasks[id], KvOf(t.s.contents, id), PendingOf(t.pending, id));
  }

  lemma DecodeOther(cfg: Config, o: OState, batch: seq<TaskId>, m: OState, t: OState, id: TaskId)
    requires Inv(cfg, o) && Batched(o, batch) && o.s.tasks[batch[0]].kind == Decode && id in o.s.tasks && id !in batch
    requires |Collect(o.pending, batch)| == |batch| && m == SyncPart(cfg, o, batch)
    requires Runnable(m.s, Running(o.s.tasks, batch)) && RunPart(cfg, m, Running(o.s.tasks, batch)) == Ok(t)
    requires t.s.cache.len.Keys == o.s.cache.len.Keys
    ensures t.s.tasks.Keys == o.s.tasks.Keys && LocalIn(cfg, t, id)
  {
    hide Shape, LocalIn, Local, Advance, Extend, RunPart, SyncPart, Running, AddData, Collect;
    DecodeBatch(cfg, o, batch);
    SyncShape(cfg, o, batch);
    SyncEach(cfg, o, batch, id);
    RunEach(cfg, m, Running(o.s.tasks, batch), t, id);
    Untouched(cfg, o, t, id);
  }

  lemma DecodeStep(cfg: Config, o: OState, batch: seq<TaskId>, m: OState, t: OState)
    requires Inv(cfg, o) && Batched(o, batch) && o.s.tasks[batch[0]].kind == Decode
    requires |Collect(o.pending, batch)| == |batch| && m == SyncPart(cfg, o, batch)
    requires Runnable(m.s, Running(o.s.tasks, batch)) && RunPart(cfg, m, Running(o.s.tasks, batch)) == Ok(t)
    ensures Between(cfg, t, batch)
  {
    hide Shape, LocalIn, Local, Stepped, RunPart, SyncPart, Running, Collect;
    var runs := Running(o.s.tasks, batch);
    DecodeBatch(cfg, o, batch);
    SyncShape(cfg, o, batch);
    RunningDistinct(o.s.tasks, batch);
    RunShape(cfg, m, runs, t);
    assert Ids(runs) <= o.s.cache.len.Keys;
    assert t.s.cache.len.Keys == o.s.cache.len.Keys;
    forall id | id in o.s.tasks && id !in batch
      ensures t.s.tasks.Keys == o.s.tasks.Keys && LocalIn(cfg, t, id)
    {
      DecodeOther(cfg, o, batch, m, t, id);
    }
    forall id | id in batch
      ensures t.s.tasks.Keys == o.s.tasks.Keys && t.s.results == [] && t.s.pool == o.s.pool
      ensures id in t.s.tasks && Stepped(cfg, t.s.tasks[id], KvOf(t.s.contents, id), PendingOf(t.pending, id))
    {
      DecodeEach(cfg, o, batch, m, t, id);
    }
    assert batch[0] in batch;
  }

  lemma StepKeeps(cfg: Config, o: OState, batch: seq<TaskId>, t: OState)
    requires Inv(cfg, o) && Batched(o, batch) && StepTo(cfg, o, batch, t)
    ensures Between(cfg, t, batch)
  {
    hide Inv, Between, RunPart, SyncPart, Running, Collect;
    if o.s.tasks[batch[0]].kind == Prefill {
      PrefillStep(cfg, o, batch, t);
    } else {
      DecodeStep(cfg, o, batch, SyncPart(cfg, o, batch), t);
    }
  }

  /** The tasks of a batch that will run, and how far each grows. */
  function Runs(o: OState, batch: seq<TaskId>): seq<TaskId>
    requires Runnable(o.s, batch) && batch != []
  {
    if o.s.tasks[batch[0]].kind == Prefill then batch else Running(o.s.tasks, batch)
  }

  function Grown(o: OState, ids: seq<TaskId>): map<TaskId, nat>
    requires forall id :: id in ids ==> id in o.s.tasks
  {
    map id | id in ids :: if o.s.tasks[id].kind == Prefill then |o.s.tasks[id].prefix| else 1
  }

  /** A step is possible exactly when the free blocks suffice for the tasks that will run: the waiting
      results are never misaligned with the batch. */
  lemma StepWhenEnough(cfg: Config, o: OState, batch: seq<TaskId>)
    requires Inv(cfg, o) && Batched(o, batch)
    ensures o.s.cache.blockSize > 0 && forall id :: id in Runs(o, batch) ==> id in o.s.tasks
    ensures (exists t :: StepTo(cfg, o, batch, t)) <==>
      var runs := Runs(o, batch);
      NeedAll(Grow(o.s.cache, Grown(o, runs)), runs) <= |o.s.cache.free|
  {
    hide Shape, LocalIn, Collect, RunPart, SyncPart, Running, NeedAll, Grow, CacheInv;
    EnoughFacts(cfg, o, batch);
    if o.s.tasks[batch[0]].kind == Prefill {
      RunPartOk(cfg, o, batch);
      if RunPart(cfg, o, batch).Ok? {
        assert StepTo(cfg, o, batch, RunPart(cfg, o, batch).value);
      }
    } else {
      DecodeBatch(cfg, o, batch);
      CollectAligned(o.pending, batch);
      SyncShape(cfg, o, batch);
      var m := SyncPart(cfg, o, batch);
      DecodeRunnable(cfg, o, batch);
      RunPartOk(cfg, m, Running(o.s.tasks, batch));
      if RunPart(cfg, m, Running(o.s.tasks, batch)).Ok? {
        assert StepTo(cfg, o, batch, RunPart(cfg, m, Running(o.s.tasks, batch)).value);
      }
    }
  }

  lemma EnoughFacts(cfg: Config, o: OState, batch: seq<TaskId>)
    requires Inv(cfg, o) && Batched(o, batch)
    ensures o.s.cache.blockSize > 0 && CacheInv(o.s.cache) && Distinct(Runs(o, batch))
    ensures forall id :: id in Runs(o, batch) ==> id in o.s.tasks
    ensures o.s.tasks[batch[0]].kind == Prefill ==> Grown(o, batch) == Growth(o.s, batch)
  {
    hide LocalIn, Collect, NeedAll, Grow, Conserved;
    RunningDistinct(o.s.tasks, batch);
    if o.s.tasks[batch[0]].kind == Prefill {
      forall id | id in batch
        ensures id in o.s.tasks && |Input(o.s.tasks[id])| == Grown(o, batch)[id]
      {
        PrefillLength(cfg, o, batch, id);
      }
    }
  }

  lemma PrefillLength(cfg: Config, o: OState, batch: seq<TaskId>, id: TaskId)
    requires Inv(cfg, o) && Batched(o, batch) && id in batch && o.s.tasks[batch[0]].kind == Prefill
    ensures o.s.tasks[id].kind == Prefill && o.s.tasks[id].consumed <= |o.s.tasks[id].prefix|
    ensures |Input(o.s.tasks[id])| == |o.s.tasks[id].prefix|
  {
    hide Shape, Naive, Generate, Entries, Greedy;
    assert LocalIn(cfg, o, id);
  }

  lemma DecodeRunnable(cfg: Config, o: OState, batch: seq<TaskId>)
    requires Inv(cfg, o) && Batched(o, batch) && o.s.tasks[batch[0]].kind == Decode
    requires |Collect(o.pending, batch)| == |batch|
    ensures var m := SyncPart(cfg, o, batch);
      && Runnable(m.s, Running(o.s.tasks, batch))
      && Growth(m.s, Running(o.s.tasks, batch)) == Grown(o, Running(o.s.tasks, batch))
  {
    hide LocalIn, Local, Advance, SyncPart, Collect, CacheInv, Greedy, Entries, BatchResult, Running;
    var m := SyncPart(cfg, o, batch);
    SyncShape(cfg, o, batch);
    DecodeBatch(cfg, o, batch);
    forall id | id in o.s.tasks
      ensures m.s.tasks[id].kind == o.s.tasks[id].kind
      ensures id in o.s.pool ==> m.s.tasks[id].consumed <= |m.s.tasks[id].prefix|
    {
      SyncEach(cfg, o, batch, id);
      if id in batch {
        AdvancePrefix(cfg.stops, o.s.tasks[id], o.pending[id]);
      }
    }
  }

  lemma AdvancePrefix(stops: set<Token>, t: Task, token: Token)
    ensures var u := Advance(stops, t, token); u.kind == t.kind && u.consumed == t.consumed && |u.prefix| >= |t.prefix|
  {
  }

  lemma RunPartOk(cfg: Config, o: OState, runs: seq<TaskId>)
    requires Runnable(o.s, runs) && CacheInv(o.s.cache) && Distinct(runs)
    ensures RunPart(cfg, o, runs).Ok? <==> NeedAll(Grow(o.s.cache, Growth(o.s, runs)), runs) <= |o.s.cache.free|
  {
    hide CacheInv, NeedAll, Grow, Input;
    PrepareKeeps(o.s.cache, runs, Growth(o.s, runs));
    hide Prepare;
  }

  lemma StepThreshold(cfg: Config, o: OState, batch: seq<TaskId>, t: OState)
    requires StepTo(cfg, o, batch, t)
    ensures t.s.threshold == o.s.threshold
  {
    hide Prepare, RunModel, RunTasks, Collect, Running, BatchResult;
  }

  /** Exactly one waiting result per live decode task, and none for a task that has not been prefilled. */
  lemma OnePending(cfg: Config, o: OState, id: TaskId)
    requires Inv(cfg, o) && id in o.s.tasks && o.s.tasks[id].status != Stopped
    ensures id in o.pending <==> o.s.tasks[id].kind == Decode
    ensures id in o.pending ==> o.pending[id] == Greedy(cfg.lm, o.s.tasks[id].prefix)
  {
    hide Shape, Track, Entries, Greedy;
    assert LocalIn(cfg, o, id);
  }

  // ----- The update -----

  lemma UpdateKeeps(cfg: Config, m: OState, batch: seq<TaskId>, ids: seq<TaskId>)
    requires Between(cfg, m, batch) && multiset(ids) == multiset(batch)
    requires forall id :: id in ids ==> id in m.s.tasks
    ensures Inv(cfg, m.(s := Update(m.s, ids)))
  {
    hide CacheInv, Local, LocalIn, Stepped, Update, I.Updated;
    var t := m.(s := Update(m.s, ids));
    SteppedDecoding(cfg, m, batch);
    I.UpdateEffect(m.s, batch, ids);
    UpdatedShape(m.s, batch, t.s);
    forall id | id in t.s.tasks
      ensures LocalIn(cfg, t, id)
    {
      UpdateTask(cfg, m, batch, t, id);
    }
  }

  lemma SteppedDecoding(cfg: Config, m: OState, batch: seq<TaskId>)
    requires Between(cfg, m, batch)
    ensures I.AllDecoding(m.s, batch)
  {
    hide CacheInv, LocalIn, Track, Entries, Greedy;
  }

  lemma UpdatedShape(s: State, batch: seq<TaskId>, e: State)
    requires (forall id :: id in batch ==> id in s.tasks) && I.Updated(s, batch, e) && Shape(s)
    requires CacheInv(e.cache) && Distinct(e.pool) && e.contents.Keys == e.cache.len.Keys
    ensures Shape(e) && e.results == s.results && e.tasks == s.tasks
  {
    hide CacheInv;
  }

  lemma UpdateTask(cfg: Config, m: OState, batch: seq<TaskId>, t: OState, id: TaskId)
    requires Between(cfg, m, batch) && I.Updated(m.s, batch, t.s) && t.pending == m.pending && id in m.s.tasks
    requires t.s.contents.Keys == t.s.cache.len.Keys
    ensures id in t.s.tasks && LocalIn(cfg, t, id)
  {
    hide CacheInv, Track, Entries, Greedy, I.SomeStopped;
    if id in batch {
      UpdatedTask(cfg, m.s.tasks[id], KvOf(m.s.contents, id), PendingOf(m.pending, id));
    } else {
      assert LocalIn(cfg, m, id);
    }
  }

  // ----- Runs -----

  datatype Event = Arrive(r: Request) | Pass(batch: seq<TaskId>, ids: seq<TaskId>)

  ghost predicate EventTo(cfg: Config, o: OState, ev: Event, t: OState) {
    match ev
    case Arrive(r) => r.id !in o.s.tasks && r.id !in o.pending && t == o.(s := R.Add(o.s, r))
    case Pass(batch, ids) => PassTo(cfg, o, batch, ids, t)
  }

  ghost predicate IsRun(cfg: Config, states: seq<OState>, events: seq<Event>) {
    && |states| == |events| + 1
    && forall i :: 0 <= i < |events| ==> EventTo(cfg, states[i], events[i], states[i + 1])
  }

  lemma InitInv(cfg: Config, numBlocks: nat, blockSize: nat)
    requires numBlocks > 0 && blockSize > 0
    ensures Inv(cfg, OState(R.Init(numBlocks, blockSize), map[]))
  {
    assert Owned(map[]) == multiset{};
  }

  lemma PassKeeps(cfg: Config, o: OState, batch: seq<TaskId>, ids: seq<TaskId>, t: OState)
    requires Inv(cfg, o) && PassTo(cfg, o, batch, ids, t)
    ensures Inv(cfg, t)
  {
    hide Inv, StepTo, Between, Update;
    var m :| StepTo(cfg, o, batch, m) && (forall id :: id in ids ==> id in m.s.tasks) && t == m.(s := Update(m.s, ids));
    StepKeeps(cfg, o, batch, m);
    UpdateKeeps(cfg, m, batch, ids);
  }

  lemma ArriveKeeps(cfg: Config, o: OState, r: Request)
    requires Inv(cfg, o) && r.id !in o.s.tasks && r.id !in o.pending
    ensures Inv(cfg, o.(s := R.Add(o.s, r)))
  {
    hide CacheInv, Naive, Generate, Entries, Greedy;
    var t := o.(s := R.Add(o.s, r));
    assert Generated(NewTask(r)) == [];
    NewTrack(cfg, r);
    hide Track;
    forall id | id in t.s.tasks
      ensures LocalIn(cfg, t, id)
    {
      if id != r.id {
        assert LocalIn(cfg, o, id);
      }
    }
  }

  lemma NewTrack(cfg: Config, r: Request)
    ensures Track(cfg, NewTask(r))
  {
    assert Generated(NewTask(r)) == [];
  }

  /** In every state of a run every task is in agreement: no batch result is left queued, and every live
      decode task has exactly one result waiting. */
  lemma {:induction false} RunInv(cfg: Config, states: seq<OState>, events: seq<Event>, i: nat)
    requires IsRun(cfg, states, events) && Inv(cfg, states[0]) && i < |states|
    ensures Inv(cfg, states[i])
    decreases i
  {
    hide Inv, PassTo;
    if i > 0 {
      RunInv(cfg, states, events, i - 1);
      assert EventTo(cfg, states[i - 1], events[i - 1], states[i - 1 + 1]);
      match events[i - 1]
      case Arrive(r) => ArriveKeeps(cfg, states[i - 1], r);
      case Pass(batch, ids) => PassKeeps(cfg, states[i - 1], batch, ids, states[i]);
    }
  }

  /** A request in overlap mode has received a beginning of its naive completion; its stream is closed
      exactly when it is stopped, and then holds the whole completion with its finish reason. */
  lemma TaskIsNaive(cfg: Config, o: OState, id: TaskId)
    requires Inv(cfg, o) && id in o.s.tasks
    ensures R.ServedNaively(cfg, o.s.tasks[id])
    ensures o.s.tasks[id].closed <==> id !in o.s.pool
  {
    hide CacheInv, Entries, Greedy, Generate;
    assert LocalIn(cfg, o, id);
    var t := o.s.tasks[id];
    if t.status != Stopped {
      GenerateShape(cfg.lm, cfg.stops, t.req, Generated(t));
    }
    assert t.prefix == t.req.prompt + Generated(t);
  }

  /** Overlap refines the synchronous loop as far as any two runs have got: the same request gets the
      same stream, whatever both schedules do, and the same whole stream and finish reason when both are
      finished. That both do finish is shown in `OverlapProgress`. */
  lemma OverlapRefinesSync(cfg: Config, o: OState, id: TaskId, cfg': Config, s: State, id': TaskId)
    requires cfg.lm == cfg'.lm && cfg.stops == cfg'.stops
    requires Inv(cfg, o) && id in o.s.tasks && I.Inv(cfg', s) && id' in s.tasks
    requires o.s.tasks[id].req == s.tasks[id'].req
    ensures var (t, u) := (o.s.tasks[id], s.tasks[id']);
      && (t.delivered <= u.delivered || u.delivered <= t.delivered)
      && (t.closed && u.closed ==> t.delivered == u.delivered && t.finish == u.finish)
  {
    hide Inv, I.Inv, Generate;
    TaskIsNaive(cfg, o, id);
    R.TaskIsNaive(cfg', s, id');
    var full := Naive(cfg.lm, cfg.stops, o.s.tasks[id].req).tokens;
    assert o.s.tasks[id].delivered == full[..|o.s.tasks[id].delivered|];
    assert s.tasks[id'].delivered == full[..|s.tasks[id'].delivered|];
  }
}
