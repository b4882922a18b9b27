/** The task object, together with the response side of its user request. Each method is proved
    against the corresponding update of `TaskSpec`. */
module Tasks {
  import opened Base
  import opened LanguageModel
  import S = TaskSpec

  class Task {
    const req: Request
    var kind: S.Kind
    var prefix: seq<Token>
    var chunk: Option<nat>
    var consumed: nat
    var nextToken: int
    var numNew: nat
    var status: S.Status
    var synced: bool
    // response side of the request
    var finishReason: Option<FinishReason>
    var numRemain: int
    var stream: seq<Token>
    var closed: bool

    ghost function Abs(): S.Task
      reads this
    {
      S.Task(req, kind, prefix, chunk, consumed, nextToken, numNew, status, synced, finishReason, numRemain, stream,
          closed)
    }

    constructor (r: Request)
      ensures Abs() == S.NewTask(r)
    {
      req, kind, prefix, chunk, consumed := r, S.Prefill, r.prompt, None, 0;
      nextToken, numNew, status, synced := -1, 0, S.Normal, true;
      finishReason, numRemain, stream, closed := None, 0, [], false;
    }

    function PrefixTokensLen(): nat
      reads this
    {
      if synced || kind == S.Prefill then |prefix| else |prefix| + 1
    }

    function NextReqTokensLen(): int
      reads this
    {
      if chunk.None? || consumed + chunk.value >= PrefixTokensLen() then PrefixTokensLen() - consumed else chunk.value
    }

    function NextReqTokens(): (r: seq<Token>)
      requires kind == S.Prefill && consumed <= |prefix|
      reads this
      ensures r == S.NextTokens(Abs())
    {
      prefix[consumed..consumed + NextReqTokensLen()]
    }

    method ConsumeReqTokens()
      modifies this
      ensures Abs() == S.Consume(old(Abs()))
    {
      if chunk.None? || consumed + chunk.value >= PrefixTokensLen() {
        consumed := PrefixTokensLen();
        kind := S.Decode;
      } else {
        consumed := consumed + chunk.value;
      }
      chunk := None;
    }

    method UpdateDecodeStatus(stops: set<Token>)
      modifies this
      ensures Abs() == S.UpdateStatus(stops, old(Abs()))
    {
      if status == S.Stopped {
        return;
      }
      if req.stopWithEos && numNew > 0 && nextToken in stops {
        finishReason := Some(Stop);
        status := S.Stopped;
      } else if status == S.WillStopLength {
        finishReason := Some(Length);
        status := S.Stopped;
      } else if numNew >= req.maxNewTokens - 1 {
        status := S.WillStopLength;
      }
    }

    method UpdateResponseNoSync(token: Token)
      modifies this
      ensures Abs() == S.Receive(old(Abs()), token)
    {
      nextToken := token;
      numNew := numNew + 1;
      numRemain := numRemain + 1;
      synced := false;
    }

    method UpdatePrefix()
      modifies this
      ensures Abs() == S.SyncPrefix(old(Abs()))
    {
      if synced {
        return;
      }
      if nextToken == -1 {
        return;
      }
      if kind == S.Decode {
        prefix := prefix + [nextToken];
      }
      synced := true;
    }

    /** `UserRequest.add_data`. */
    method AddData(token: Token)
      modifies this
      ensures Abs() == S.AddData(old(Abs()), token)
    {
      stream := stream + [token];
      numRemain := numRemain - 1;
      if finishReason.Some? && numRemain == 0 {
        closed := true;
      }
    }

    /** The task part of an eviction, before and after the cache is released. */
    method RestoreForPrefill()
      modifies this
      ensures Abs() == S.Evicted(old(Abs()))
    {
      nextToken := -1;
      kind := S.Prefill;
      chunk := None;
      consumed := 0;
    }
  }

  ghost predicate DistinctTasks(tasks: seq<Task>) {
    forall i, j :: 0 <= i < j < |tasks| ==> tasks[i] != tasks[j]
  }

  /** The bookkeeping of a batch after the model has run. */
  method AfterModelRun(tasks: seq<Task>)
    requires DistinctTasks(tasks)
    modifies tasks
    ensures forall i :: 0 <= i < |tasks| ==>
      tasks[i].Abs() == (var t := old(tasks[i].Abs()); if t.kind == S.Prefill then S.Consume(t)
        else t.(synced := false))
  {
    for i := 0 to |tasks|
      invariant forall k :: 0 <= k < i ==>
        tasks[k].Abs() == (var t := old(tasks[k].Abs()); if t.kind == S.Prefill then S.Consume(t)
          else t.(synced := false))
      invariant forall k :: i <= k < |tasks| ==> tasks[k].Abs() == old(tasks[k].Abs())
    {
      if tasks[i].kind == S.Prefill {
        tasks[i].ConsumeReqTokens();
      } else {
        tasks[i].synced := false;
      }
    }
  }

  /** `LocalTokenSink.emit_batch`: one token to each task. */
  method EmitBatch(tasks: seq<Task>, tokens: seq<Token>)
    requires DistinctTasks(tasks) && |tokens| == |tasks|
    modifies tasks
    ensures forall i :: 0 <= i < |tasks| ==> tasks[i].Abs() == S.AddData(old(tasks[i].Abs()), tokens[i])
  {
    for i := 0 to |tasks|
      invariant forall k :: 0 <= k < i ==> tasks[k].Abs() == S.AddData(old(tasks[k].Abs()), tokens[k])
      invariant forall k :: i <= k < |tasks| ==> tasks[k].Abs() == old(tasks[k].Abs())
    {
      tasks[i].AddData(tokens[i]);
    }
  }

  /** `update_task_by_result` and `batch_update_status`: all tasks take their token first, then each
      synchronises its prefix and its status. */
  method UpdateTasksByResult(stops: set<Token>, tasks: seq<Task>, tokens: seq<Token>)
    requires DistinctTasks(tasks) && |tokens| == |tasks|
    modifies tasks
    ensures forall i :: 0 <= i < |tasks| ==> tasks[i].Abs() == S.Advance(stops, old(tasks[i].Abs()), tokens[i])
  {
    hide S.Advance, S.Receive, S.SyncPrefix, S.UpdateStatus;
    for i := 0 to |tasks|
      invariant forall k :: 0 <= k < i ==> tasks[k].Abs() == S.Receive(old(tasks[k].Abs()), tokens[k])
      invariant forall k :: i <= k < |tasks| ==> tasks[k].Abs() == old(tasks[k].Abs())
    {
      tasks[i].UpdateResponseNoSync(tokens[i]);
    }
    BatchUpdateStatus(stops, tasks);
    forall i | 0 <= i < |tasks|
      ensures tasks[i].Abs() == S.Advance(stops, old(tasks[i].Abs()), tokens[i])
    {
      S.AdvanceIs(stops, old(tasks[i].Abs()), tokens[i]);
    }
  }

  method BatchUpdateStatus(stops: set<Token>, tasks: seq<Task>)
    requires DistinctTasks(tasks)
    modifies tasks
    ensures forall i :: 0 <= i < |tasks| ==> tasks[i].Abs() == S.UpdateStatus(stops, S.SyncPrefix(old(tasks[i].Abs())))
  {
    hide S.SyncPrefix, S.UpdateStatus;
    for i := 0 to |tasks|
      invariant forall k :: 0 <= k < i ==> tasks[k].Abs() == S.UpdateStatus(stops, S.SyncPrefix(old(tasks[k].Abs())))
      invariant forall k :: i <= k < |tasks| ==> tasks[k].Abs() == old(tasks[k].Abs())
    {
      tasks[i].UpdatePrefix();
      tasks[i].UpdateDecodeStatus(stops);
    }
  }
}
