/**
 The per-request state machine as a value. `Tasks` holds the class whose methods perform these
 updates in place. The multi-token prediction size is 1 throughout.
 */
module TaskSpec {
  import opened Base
  import opened LanguageModel

  datatype Kind = Prefill | Decode
  datatype Status = Normal | WillStopLength | Stopped

  datatype Task = Task(
    req: Request,
    kind: Kind,
    prefix: seq<Token>,
    chunk: Option<nat>,
    consumed: nat,
    nextToken: int,
    numNew: nat,
    status: Status,
    synced: bool,
    finish: Option<FinishReason>,
    remain: int,
    delivered: seq<Token>,
    closed: bool)

  function NewTask(r: Request): Task {
    Task(r, Prefill, r.prompt, None, 0, -1, 0, Normal, true, None, 0, [], false)
  }

  // ----- Prefill progress -----

  /** `prefix_tokens_len`: a decode task whose last token is not synchronised yet counts it already. */
  function PrefixLen(t: Task): nat {
    if t.synced || t.kind == Prefill then |t.prefix| else |t.prefix| + 1
  }

  predicate CompletesPrefill(t: Task) {
    t.chunk.None? || t.consumed + t.chunk.value >= PrefixLen(t)
  }

  function NextLen(t: Task): int {
    if CompletesPrefill(t) then PrefixLen(t) - t.consumed else t.chunk.value
  }

  /** `next_req_tokens`: the slice of the prefix the next prefill step feeds. */
  function NextTokens(t: Task): seq<Token>
    requires t.kind == Prefill && t.consumed <= |t.prefix|
  {
    t.prefix[t.consumed..t.consumed + NextLen(t)]
  }

  /** `consume_req_tokens`. */
  function Consume(t: Task): Task {
    if CompletesPrefill(t) then t.(consumed := PrefixLen(t), kind := Decode, chunk := None)
    else t.(consumed := t.consumed + t.chunk.value, chunk := None)
  }

  /** A run of prefill steps with the given chunk sizes (None: to the end), and all the tokens it fed. */
  function Feed(t: Task, chunks: seq<Option<nat>>): (r: (Task, seq<Token>))
    requires t.consumed <= |t.prefix|
    decreases |chunks|
  {
    if chunks == [] || t.kind == Decode then (t, [])
    else
      var t' := t.(chunk := chunks[0]);
      var rest := Feed(Consume(t'), chunks[1..]);
      (rest.0, NextTokens(t') + rest.1)
  }

  /** However a prefix is chunked, the slices fed so far concatenate to exactly the consumed part of
      the prefix, and the task turns to decoding exactly when all of it has been fed. */
  lemma {:induction false} ChunksConcatenate(t: Task, chunks: seq<Option<nat>>)
    requires t.kind == Prefill && t.consumed <= |t.prefix|
    ensures var (u, fed) := Feed(t, chunks);
      && u.prefix == t.prefix && t.consumed <= u.consumed <= |t.prefix|
      && fed == t.prefix[t.consumed..u.consumed]
      && (u.kind == Decode ==> u.consumed == |t.prefix|)
      && (u.consumed == |t.prefix| > t.consumed ==> u.kind == Decode)
    decreases |chunks|
  {
    if chunks != [] {
      var t' := t.(chunk := chunks[0]);
      var v := Consume(t');
      ConsumeFacts(t');
      hide Consume, NextTokens;
      if v.kind == Prefill {
        ChunksConcatenate(v, chunks[1..]);
        SliceJoin(t.prefix, t.consumed, v.consumed, Feed(v, chunks[1..]).0.consumed);
      } else {
        assert Feed(v, chunks[1..]) == (v, []);
      }
    }
  }

  /** One prefill step feeds exactly the tokens it counts as consumed. */
  lemma ConsumeFacts(t: Task)
    requires t.kind == Prefill && t.consumed <= |t.prefix|
    ensures var v := Consume(t);
      && v.prefix == t.prefix && t.consumed <= v.consumed <= |t.prefix|
      && NextTokens(t) == t.prefix[t.consumed..v.consumed]
      && (v.kind == Decode <==> CompletesPrefill(t)) && (v.kind == Decode ==> v.consumed == |t.prefix|)
      && (v.kind == Prefill ==> v.consumed < |t.prefix|)
  {
  }

  lemma SliceJoin<T>(s: seq<T>, a: nat, b: nat, c: nat)
    requires a <= b <= c <= |s|
    ensures s[a..b] + s[b..c] == s[a..c]
  {
  }

  // ----- Decode status -----

  predicate HasStopToken(stops: set<Token>, t: Task) {
    t.req.stopWithEos && t.numNew > 0 && t.nextToken in stops
  }

  /** `update_decode_status` of a task that is not waiting. */
  function UpdateStatus(stops: set<Token>, t: Task): Task {
    if t.status == Stopped then t
    else if HasStopToken(stops, t) then t.(finish := Some(Stop), status := Stopped)
    else if t.status == WillStopLength then t.(finish := Some(Length), status := Stopped)
    else if t.numNew >= t.req.maxNewTokens - 1 then t.(status := WillStopLength)
    else t
  }

  /** `update_response_no_sync`. */
  function Receive(t: Task, token: Token): Task {
    t.(nextToken := token, numNew := t.numNew + 1, remain := t.remain + 1, synced := false)
  }

  /** `update_prefix` with a token that is already a number. */
  function SyncPrefix(t: Task): Task {
    if t.synced || t.nextToken == -1 then t
    else if t.kind == Decode then t.(prefix := t.prefix + [t.nextToken], synced := true)
    else t.(synced := true)
  }

  /** What one synchronised step does to a task whose model output is `token`. */
  function Advance(stops: set<Token>, t: Task, token: Token): Task {
    UpdateStatus(stops, SyncPrefix(Receive(t, token)))
  }

  lemma AdvanceIs(stops: set<Token>, t: Task, token: Token)
    ensures Advance(stops, t, token) == UpdateStatus(stops, SyncPrefix(Receive(t, token)))
    ensures Advance(stops, t, token).nextToken == token && Advance(stops, t, token).kind == t.kind
  {
  }

  /** `UserRequest.add_data` for one token. */
  function AddData(t: Task, token: Token): Task {
    var left := t.remain - 1;
    t.(delivered := t.delivered + [token], remain := left,
       closed := t.closed || (t.finish.Some? && left == 0))
  }

  /** The task part of `evict_decode_task`. */
  function Evicted(t: Task): Task {
    t.(nextToken := -1, kind := Prefill, chunk := None, consumed := 0)
  }

  // ----- Invariant -----


  /** The tokens generated so far: the prefix behind the prompt. */
  function Generated(t: Task): seq<Token>
    requires |t.req.prompt| <= |t.prefix|
  {
    t.prefix[|t.req.prompt|..]
  }

  /** A task between two steps: its prefix is the prompt plus a beginning of the naive completion,
      and its status, finish reason and counters say exactly how far that completion has got. */
  ghost predicate TaskInv(lm: Lm, stops: set<Token>, t: Task) {
    && t.req.prompt <= t.prefix
    && var out := Generated(t);
    && t.numNew == |out| && t.synced && t.chunk == None && t.consumed <= |t.prefix|
    && t.delivered <= out && t.remain == |out| - |t.delivered|
    && (t.status == Stopped <==> t.finish.Some?)
    && (t.status == Stopped ==> Naive(lm, stops, t.req) == Completion(out, t.finish.value))
    && (t.status != Stopped ==> |out| < Cap(t.req) && Naive(lm, stops, t.req) == Generate(lm, stops, t.req, out))
    && (t.status != Stopped ==> (t.status == WillStopLength <==> |out| >= 1 && |out| >= t.req.maxNewTokens - 1))
    && (t.closed <==> t.finish.Some? && t.remain == 0)
    && (t.kind == Prefill ==> t.consumed == 0 && t.status != Stopped)
    && (t.kind == Decode ==> out != [] && t.nextToken == t.prefix[|t.prefix| - 1])
  }

  lemma NewTaskInv(lm: Lm, stops: set<Token>, r: Request)
    ensures TaskInv(lm, stops, NewTask(r))
  {
    assert Generated(NewTask(r)) == [];
  }

  /** A model step whose output is the greedy successor of the prefix keeps the invariant. */
  lemma AdvanceKeeps(lm: Lm, stops: set<Token>, t: Task, u: Task)
    requires TaskInv(lm, stops, t) && t.status != Stopped
    requires u == Consume(t) || (t.kind == Decode && u == t.(synced := false))
    requires u.kind == Decode
    ensures var v := Advance(stops, u, Greedy(lm, t.prefix));
      && TaskInv(lm, stops, v)
      && v.kind == Decode && v.prefix == t.prefix + [Greedy(lm, t.prefix)]
      && v.nextToken == Greedy(lm, t.prefix) && v.delivered == u.delivered
      && v.numNew == t.numNew + 1 && v.req == t.req
      && Generated(v) == Generated(t) + [Greedy(lm, t.prefix)]
  {
    hide Greedy, Naive, UpdateStatus, Generate, SyncPrefix, Receive, Consume;
    var token := Greedy(lm, t.prefix);
    var w := SyncPrefix(Receive(u, token));
    var out := Generated(t);
    assert t.prefix == t.req.prompt + out;
    TokenTaken(t, u, token, out);
    NaiveNext(lm, stops, t.req, out);
    StatusKeeps(lm, stops, t.status, w, out);
    assert w.prefix == t.prefix + [token] && w.prefix[|t.req.prompt|..] == out + [token];
  }

  /** Taking a token and extending the prefix by it. */
  lemma TokenTaken(t: Task, u: Task, token: nat, out: seq<Token>)
    requires t.prefix == t.req.prompt + out && t.numNew == |out| && t.chunk == None && t.consumed <= |t.prefix|
    requires t.delivered <= out && t.remain == |out| - |t.delivered| && !t.closed
    requires u.kind == Decode && (u == Consume(t) || (t.kind == Decode && u == t.(synced := false)))
    ensures var w := SyncPrefix(Receive(u, token));
      && Taken(w, out) && w.nextToken == token && w.req == t.req && w.status == t.status && w.finish == t.finish
      && w.delivered == t.delivered == u.delivered
  {
    assert t.prefix + [token] == t.req.prompt + (out + [token]);
  }

  /** One round of the naive loop. */
  lemma NaiveNext(lm: Lm, stops: set<Token>, r: Request, out: seq<Token>)
    requires |out| < Cap(r)
    ensures var more := out + [Greedy(lm, r.prompt + out)];
      Generate(lm, stops, r, out) ==
        if IsStop(stops, r, more[|out|]) then Completion(more, Stop)
        else if |more| >= Cap(r) then Completion(more, Length)
        else Generate(lm, stops, r, more)
  {
  }

  /** The status update of a task that has just taken a token, by its three outcomes. */
  lemma StatusKeeps(lm: Lm, stops: set<Token>, status: Status, w: Task, out: seq<Token>)
    requires status != Stopped && w.status == status && |out| < Cap(w.req) && w.finish == None
    requires status == WillStopLength <==> |out| >= 1 && |out| >= w.req.maxNewTokens - 1
    requires Taken(w, out) && Naive(lm, stops, w.req) == Generate(lm, stops, w.req, out)
    requires Generate(lm, stops, w.req, out) ==
      if IsStop(stops, w.req, w.nextToken) then Completion(out + [w.nextToken], Stop)
      else if |out| + 1 >= Cap(w.req) then Completion(out + [w.nextToken], Length)
      else Generate(lm, stops, w.req, out + [w.nextToken])
    ensures TaskInv(lm, stops, UpdateStatus(stops, w))
    ensures var v := UpdateStatus(stops, w); v == w.(status := v.status, finish := v.finish)
  {
    hide Generate, Naive;
    assert Generated(w) == out + [w.nextToken];
    if IsStop(stops, w.req, w.nextToken) {
    } else if status == WillStopLength {
      assert |out| + 1 >= Cap(w.req);
    } else {
      assert |out| + 1 < Cap(w.req);
    }
  }

  /** A decode task whose prefix has just been extended behind the generated tokens `out`. */
  ghost predicate Taken(w: Task, out: seq<Token>) {
    && w.kind == Decode && w.prefix == w.req.prompt + (out + [w.nextToken]) && w.numNew == |out| + 1
    && w.synced && w.chunk == None && w.consumed <= |w.prefix|
    && w.delivered <= out && w.remain == |out| + 1 - |w.delivered| && !w.closed
  }

  lemma AddDataKeeps(lm: Lm, stops: set<Token>, t: Task, token: Token)
    requires TaskInv(lm, stops, t)
    requires Generated(t) == t.delivered + [token]
    ensures TaskInv(lm, stops, AddData(t, token))
    ensures AddData(t, token).delivered == Generated(t)
  {
  }

  lemma EvictedKeeps(lm: Lm, stops: set<Token>, t: Task)
    requires TaskInv(lm, stops, t) && t.status != Stopped
    ensures TaskInv(lm, stops, Evicted(t))
    ensures var e := Evicted(t);
      && Waits(e) && e.consumed == 0 && NextTokens(e) == t.prefix && e.nextToken == -1
      && e.status == t.status && e.numNew == t.numNew && e.req == t.req && e.prefix == t.prefix
      && e.delivered == t.delivered && e.remain == t.remain && e.finish == t.finish && e.closed == t.closed
  {
  }

  // ----- Partial prefills -----

  /** `has_output`, looked at when a batch is put together. */
  predicate HasOutput(t: Task) {
    t.status != Stopped && (t.kind == Decode || CompletesPrefill(t))
  }

  /** Whether a batch has any output task. */
  predicate SomeOutput(batch: seq<Task>) {
    exists i :: 0 <= i < |batch| && HasOutput(batch[i])
  }

  /** One synchronised step of a prefill batch, without the delivery of earlier results. A batch
      without output tasks has no result, and then no status is updated; otherwise that of every task is. */
  function PrefillBatch(stops: set<Token>, batch: seq<Task>, tokens: seq<Token>): (r: seq<Task>)
    requires |tokens| == |batch|
    ensures |r| == |batch|
  {
    seq(|batch|, i requires 0 <= i < |batch| == |tokens| =>
      if !SomeOutput(batch) then Consume(batch[i])
      else if HasOutput(batch[i]) then Advance(stops, Consume(batch[i]), tokens[i])
      else UpdateStatus(stops, SyncPrefix(Consume(batch[i]))))
  }

  /** A partial chunk of one task, and whether some other task of its batch had an output. */
  datatype Part = Part(chunk: nat, mixed: bool)

  /** One step that feeds `chunk` tokens of a prefix that is longer. */
  function PartialStep(stops: set<Token>, t: Task, part: Part): Task {
    var u := Consume(t.(chunk := Some(part.chunk)));
    if part.mixed then UpdateStatus(stops, SyncPrefix(u)) else u
  }

  function PartialSteps(stops: set<Token>, t: Task, parts: seq<Part>): Task
    decreases |parts|
  {
    if parts == [] then t else PartialSteps(stops, PartialStep(stops, t, parts[0]), parts[1..])
  }

  function Total(parts: seq<Part>): nat
    decreases |parts|
  {
    if parts == [] then 0 else parts[0].chunk + Total(parts[1..])
  }

  /** The number of parts that ran in a batch with an output. */
  function Mixed(parts: seq<Part>): nat
    decreases |parts|
  {
    if parts == [] then 0 else (if parts[0].mixed then 1 else 0) + Mixed(parts[1..])
  }

  /** What a batch does to a task whose prefill it does not complete. */
  lemma PartOfBatch(stops: set<Token>, batch: seq<Task>, tokens: seq<Token>, i: nat, t: Task, chunk: nat)
    requires |tokens| == |batch| && i < |batch| && batch[i] == t.(chunk := Some(chunk))
    requires t.kind == Prefill && !CompletesPrefill(batch[i])
    ensures PrefillBatch(stops, batch, tokens)[i] == PartialStep(stops, t, Part(chunk, SomeOutput(batch)))
  {
  }

  /** The status update would stop the task at once: its last token is a stop token, or the stop has
      been announced. */
  predicate StopsAtOnce(stops: set<Token>, t: Task) {
    HasStopToken(stops, t) || t.status == WillStopLength
  }

  /** The status update would at least announce the stop: one more token is the last one. */
  predicate AtLimit(t: Task) {
    t.numNew >= t.req.maxNewTokens - 1
  }

  /** The status after partial steps of which n ran in a batch with an output. */
  function StatusAfter(stops: set<Token>, t: Task, n: nat): Status {
    if n == 0 || t.status == Stopped then t.status
    else if StopsAtOnce(stops, t) then Stopped
    else if !AtLimit(t) then t.status
    else if n == 1 then WillStopLength
    else Stopped
  }

  /** The finish reason that goes with it. */
  function FinishAfter(stops: set<Token>, t: Task, n: nat): Option<FinishReason> {
    if t.status == Stopped || StatusAfter(stops, t, n) != Stopped then t.finish
    else if HasStopToken(stops, t) then Some(Stop)
    else Some(Length)
  }

  /** A task that waits for its prefill after `fed` more tokens in parts, n of which ran in a batch with
      an output: what it has generated and delivered, and its stream, are as they were. */
  function PartlyFed(stops: set<Token>, t: Task, fed: nat, n: nat): Task {
    t.(consumed := t.consumed + fed, chunk := None,
       status := StatusAfter(stops, t, n), finish := FinishAfter(stops, t, n))
  }

  /** Only the parts that run together with an output count; the others leave the status alone. This
      holds of every task that waits for its prefill, be it new or restored after an eviction. */
  lemma {:induction false} PartialPrefillStatus(stops: set<Token>, t: Task, fed: nat, n: nat, parts: seq<Part>)
    requires t.kind == Prefill && t.synced && t.consumed + fed + Total(parts) < |t.prefix| && parts != []
    ensures PartialSteps(stops, PartlyFed(stops, t, fed, n), parts) ==
      PartlyFed(stops, t, fed + Total(parts), n + Mixed(parts))
    decreases |parts|
  {
    var more := if parts[0].mixed then 1 else 0;
    assert PartialStep(stops, PartlyFed(stops, t, fed, n), parts[0]) ==
      PartlyFed(stops, t, fed + parts[0].chunk, n + more);
    if |parts| > 1 {
      PartialPrefillStatus(stops, t, fed + parts[0].chunk, n + more, parts[1..]);
    } else {
      assert parts[1..] == [];
    }
  }

  /** A task that is not stopped, and is about to be prefilled. */
  ghost predicate Waits(t: Task) {
    t.kind == Prefill && t.synced && t.chunk == None && t.status != Stopped
  }

  lemma PartialStepsAre(stops: set<Token>, t: Task, parts: seq<Part>)
    requires Waits(t) && t.consumed + Total(parts) < |t.prefix|
    ensures PartialSteps(stops, t, parts) == PartlyFed(stops, t, Total(parts), Mixed(parts))
  {
    assert PartlyFed(stops, t, 0, 0) == t;
    if parts != [] {
      PartialPrefillStatus(stops, t, 0, 0, parts);
    }
  }

  /** In the middle of a prefill in parts a task, new or restored after an eviction, has kept its status
      exactly when it has been in no batch with an output or the update finds nothing to announce. It has been
      stopped exactly when the stop was due and there was one such batch, or the next token is to be the last
      and there were two. Nothing has been generated or delivered, and its stream is as it was. */
  lemma PartialPrefillOutcome(stops: set<Token>, t: Task, parts: seq<Part>)
    requires Waits(t) && t.consumed + Total(parts) < |t.prefix|
    ensures var u := PartialSteps(stops, t, parts);
      && (u.status == t.status <==> Mixed(parts) == 0 || !(StopsAtOnce(stops, t) || AtLimit(t)))
      && (u.status == Stopped <==> (Mixed(parts) > 0 && StopsAtOnce(stops, t)) || (Mixed(parts) > 1 && AtLimit(t)))
      && u.kind == Prefill && u.prefix == t.prefix && u.numNew == t.numNew
      && u.delivered == t.delivered && u.remain == t.remain && u.closed == t.closed
  {
    PartialStepsAre(stops, t, parts);
  }

  /** The same in terms of the request, for a task on the naive loop. A new one is stopped exactly when it
      asks for at most one token and has been in two batches with an output; one that has generated tokens
      before its eviction exactly when it lacks at most one token and has been in one. */
  lemma PartialPrefillOfRequest(lm: Lm, stops: set<Token>, t: Task, parts: seq<Part>)
    requires TaskInv(lm, stops, t) && Waits(t) && Total(parts) < |t.prefix|
    requires !HasStopToken(stops, t)
    ensures var (u, n) := (PartialSteps(stops, t, parts), if Generated(t) == [] then 1 else 0);
      && u.prefix == t.prefix
      && (u.status == t.status <==> Mixed(parts) == 0 || |Generated(t)| < t.req.maxNewTokens - 1)
      && (u.status == Stopped <==> Mixed(parts) > n && |Generated(t)| >= t.req.maxNewTokens - 1)
      && (u.status == Stopped ==>
            u.finish == Some(Length) && !u.closed && Naive(lm, stops, t.req).tokens != Generated(t))
  {
    hide Naive, Generate;
    PartialStepsAre(stops, t, parts);
    GenerateShape(lm, stops, t.req, Generated(t));
  }

  /** The step that completes such a prefill. Its token is the last one exactly when it is a stop token, the
      stop had been announced before, or it has been announced in between. */
  lemma PartialPrefillCompletes(stops: set<Token>, t: Task, parts: seq<Part>, token: nat)
    requires Waits(t) && t.consumed + Total(parts) < |t.prefix| && PartialSteps(stops, t, parts).status != Stopped
    ensures var u := Advance(stops, Consume(PartialSteps(stops, t, parts).(chunk := None)), token);
      && u.kind == Decode && u.prefix == t.prefix + [token] && u.numNew == t.numNew + 1
      && (u.status == Stopped <==>
            IsStop(stops, t.req, token) || t.status == WillStopLength || (Mixed(parts) > 0 && AtLimit(t)))
  {
    PartialStepsAre(stops, t, parts);
  }

  /** So a prefill in parts leaves a task on the naive loop exactly when it has been in no batch with an
      output, or the next token is not to be the last one, or that token happens to be a stop token. */
  lemma PartialPrefillNaive(lm: Lm, stops: set<Token>, t: Task, parts: seq<Part>)
    requires TaskInv(lm, stops, t) && Waits(t) && Total(parts) < |t.prefix|
    requires PartialSteps(stops, t, parts).status != Stopped
    ensures var token := Greedy(lm, t.prefix);
      TaskInv(lm, stops, Advance(stops, Consume(PartialSteps(stops, t, parts).(chunk := None)), token)) <==>
        Mixed(parts) == 0 || !AtLimit(t) || IsStop(stops, t.req, token)
  {
    hide Greedy, Naive, Generate, Advance;
    PartialStepsAre(stops, t, parts);
    var u := Consume(PartialSteps(stops, t, parts).(chunk := None));
    if Mixed(parts) > 0 && AtLimit(t) {
      Announced(lm, stops, t, u);
    } else {
      assert u == Consume(t);
      AdvanceKeeps(lm, stops, t, u);
    }
  }

  /** The stop has been announced before the first token. */
  lemma Announced(lm: Lm, stops: set<Token>, t: Task, u: Task)
    requires TaskInv(lm, stops, t) && Waits(t) && Generated(t) == [] && u == Consume(t).(status := WillStopLength)
    ensures TaskInv(lm, stops, Advance(stops, u, Greedy(lm, t.prefix))) <==> IsStop(stops, t.req, Greedy(lm, t.prefix))
  {
    hide Greedy, Naive, Generate;
    var token := Greedy(lm, t.prefix);
    if IsStop(stops, t.req, token) {
      AdvanceKeeps(lm, stops, t, Consume(t));
      assert Advance(stops, u, token) == Advance(stops, Consume(t), token);
    } else {
      NaiveEnough(lm, stops, t.req, Advance(stops, u, token));
    }
  }

  /** Nobody on the naive loop is stopped by length with a single token. */
  lemma NaiveEnough(lm: Lm, stops: set<Token>, r: Request, v: Task)
    requires v.req == r && v.status == Stopped && v.finish == Some(Length) && |v.prefix| == |r.prompt| + 1
    ensures !TaskInv(lm, stops, v)
  {
    hide Generate;
    GenerateShape(lm, stops, r, []);
  }

  /** Two batches that stop a request before it has produced anything: each time another request, which
      the scorer ranks first, completes its prefill while this one is fed a part. */
  lemma StoppedBeforeFirstToken(stops: set<Token>, a: Request, b: Request, r: Request)
    requires |a.prompt| == |b.prompt| == 1 && |r.prompt| == 300 && r.maxNewTokens == 1
    ensures var t := NewTask(r).(chunk := Some(127));
      var u := PrefillBatch(stops, [NewTask(a), t], [0, 0])[1].(chunk := Some(127));
      var v := PrefillBatch(stops, [NewTask(b), u], [0, 0])[1];
      v.status == Stopped && v.kind == Prefill && v.consumed == 254 && v.delivered == [] && !v.closed
  {
    var t := NewTask(r).(chunk := Some(127));
    var batch := [NewTask(a), t];
    assert HasOutput(batch[0]);
    PartOfBatch(stops, batch, [0, 0], 1, NewTask(r), 127);
    var t' := PrefillBatch(stops, batch, [0, 0])[1];
    var next := [NewTask(b), t'.(chunk := Some(127))];
    assert HasOutput(next[0]);
    PartOfBatch(stops, next, [0, 0], 1, t', 127);
  }

  /** A request for two tokens that has generated the first one and is then evicted: a single part of its
      second prefill, next to another request that completes, stops it one token short. */
  lemma StoppedAfterEviction(stops: set<Token>, a: Request, r: Request)
    requires |a.prompt| == 1 && |r.prompt| == 300 && r.maxNewTokens == 2 && 0 !in stops
    ensures var first := AddData(Advance(stops, Consume(NewTask(r)), 0), 0);
      var t := Evicted(first).(chunk := Some(127));
      var v := PrefillBatch(stops, [NewTask(a), t], [0, 0])[1];
      && first.status == WillStopLength && first.delivered == [0]
      && v.status == Stopped && v.kind == Prefill && v.delivered == [0] && v.remain == 0 && !v.closed
  {
    var first := AddData(Advance(stops, Consume(NewTask(r)), 0), 0);
    var batch := [NewTask(a), Evicted(first).(chunk := Some(127))];
    assert HasOutput(batch[0]);
    PartOfBatch(stops, batch, [0, 0], 1, Evicted(first), 127);
  }

  /** Alone, the same request is not touched by its partial chunks. */
  lemma AloneIsLeftAlone(stops: set<Token>, r: Request)
    requires |r.prompt| == 300 && r.maxNewTokens == 1
    ensures var t := PrefillBatch(stops, [NewTask(r).(chunk := Some(128))], [0])[0];
      var u := PrefillBatch(stops, [t.(chunk := Some(128))], [0])[0];
      u.status == Normal && u.consumed == 256
  {
    var t := PrefillBatch(stops, [NewTask(r).(chunk := Some(128))], [0])[0];
    assert !SomeOutput([NewTask(r).(chunk := Some(128))]);
    assert !SomeOutput([t.(chunk := Some(128))]);
  }
}
