/** The skew scheduler: group lists updated in place, groups handed out in the order they come free. */
module SkewScheduling {
  import opened Base
  import opened LanguageModel
  import opened Ragged
  import opened Ranking
  import opened SkewSpec
  import opened SkewRuns
  import opened SkewCache
  import TaskSpec

  /** `find_prefill_task_start_pos_sgroup`: binary search for the first task that is being prefilled. */
  method FindPrefillTaskStartPos(kind: map<TaskId, Kind>, sgroup: seq<TaskId>) returns (right: nat)
    requires DecodeFirst(kind, sgroup)
    ensures right == FirstPrefill(kind, sgroup)
  {
    var left := 0;
    right := |sgroup|;
    while left < right
      invariant left <= right <= |sgroup|
      invariant forall i :: 0 <= i < left ==> kind[sgroup[i]] == TaskSpec.Decode
      invariant forall i :: right <= i < |sgroup| ==> kind[sgroup[i]] == TaskSpec.Prefill
    {
      var mid := (left + right) / 2;
      if kind[sgroup[mid]] == TaskSpec.Prefill {
        right := mid;
      } else {
        left := mid + 1;
      }
    }
    FirstPrefillAt(kind, sgroup, right);
  }

  /** `_chunk_prefill_tasks_count`: the chunk of every counted task. All but the last get all their
      remaining tokens, and together they stay within the chunk size. */
  method ChunkPrefillTasksCount(remaining: seq<nat>, chunkSize: nat) returns (chunks: seq<nat>)
    requires remaining != []
    ensures 0 < |chunks| <= |remaining| && Sum(chunks) <= chunkSize
    ensures forall i :: 0 <= i < |chunks| ==> chunks[i] <= remaining[i]
    ensures forall i :: 0 <= i < |chunks| - 1 ==> chunks[i] == remaining[i]
    ensures Sum(chunks) < chunkSize ==> chunks == remaining
    ensures |chunks| < |remaining| ==> Sum(chunks) == chunkSize
  {
    chunks := [];
    var tokens := 0;
    for i := 0 to |remaining|
      invariant |chunks| == i && tokens == Sum(chunks) && (i > 0 ==> tokens < chunkSize)
      invariant forall j :: 0 <= j < i ==> chunks[j] == remaining[j]
    {
      assert i == 0 ==> Sum(chunks) == 0;
      var size := Min(remaining[i], chunkSize - tokens);
      SumAppend(chunks, size);
      chunks := chunks + [size];
      tokens := tokens + size;
      if tokens >= chunkSize {
        return;
      }
    }
  }

  lemma {:induction false} SumAppend(lens: seq<nat>, x: nat)
    ensures Sum(lens + [x]) == Sum(lens) + x
    decreases |lens|
  {
    if lens == [] {
      assert Sum([x]) == x + Sum([x][1..]);
    } else {
      assert (lens + [x])[1..] == lens[1..] + [x];
      SumAppend(lens[1..], x);
    }
  }

  class SkewScheduler {
    const slotHandle: SlotHandle
    const chunkSize: Option<nat>
    var sgroupList: seq<seq<TaskId>>
    var freeSgroups: seq<nat>
    var usedSgroups: set<nat>
    var waitingTasks: map<nat, set<TaskId>>
    /** `sched_group_id` of the tasks that have one. */
    var schedGroup: map<TaskId, nat>

    /** Every group is free or in use, and only once. */
    ghost predicate Valid()
      reads this, slotHandle
    {
      && slotHandle.Valid() && |sgroupList| == slotHandle.numSlots
      && Distinct(freeSgroups) && (forall g :: g in freeSgroups ==> g < slotHandle.numSlots && g !in usedSgroups)
      && (forall g :: g in usedSgroups ==> g < slotHandle.numSlots && g in waitingTasks)
      && (forall g :: 0 <= g < slotHandle.numSlots ==> g in freeSgroups || g in usedSgroups)
    }

    ghost function Setting(width: nat): Setup
      reads this
    {
      Setup(slotHandle.slotsSize, width, chunkSize.Some?)
    }

    ghost function Abs(kind: map<TaskId, Kind>, d: Dense): Skew
      reads this
    {
      Skew(sgroupList, schedGroup, kind, d)
    }

    constructor (slotHandle: SlotHandle, chunkSize: Option<nat>)
      requires slotHandle.Valid()
      ensures Valid() && this.slotHandle == slotHandle && this.chunkSize == chunkSize
      ensures sgroupList == seq(slotHandle.numSlots, _ => []) && schedGroup == map[]
    {
      this.slotHandle, this.chunkSize := slotHandle, chunkSize;
      sgroupList := seq(slotHandle.numSlots, _ => []);
      freeSgroups := seq(slotHandle.numSlots, i requires 0 <= i => i);
      usedSgroups, waitingTasks, schedGroup := {}, map[], map[];
      new;
      forall g | 0 <= g < slotHandle.numSlots
        ensures g in freeSgroups
      {
        assert freeSgroups[g] == g;
      }
    }

    /** `reorder_tasks_for_batching` on the finished decode tasks of an update. */
    method ReorderTasksForBatching(ids: seq<TaskId>)
      requires Valid() && forall id :: id in ids ==> id in schedGroup && schedGroup[id] < |sgroupList|
      requires forall id :: id in ids ==> id in sgroupList[schedGroup[id]]
      requires Distinct(ids) && forall g :: 0 <= g < |sgroupList| ==> Distinct(sgroupList[g])
      modifies this`sgroupList
      ensures Valid() && sgroupList == RemoveAll(old(sgroupList), schedGroup, ids)
    {
      hide Remove, SwapRemove;
      assert ids[0..] == ids;
      for i := 0 to |ids|
        invariant Valid() && RemoveAll(sgroupList, schedGroup, ids[i..]) == RemoveAll(old(sgroupList), schedGroup, ids)
        invariant Listed(sgroupList, ids[i..])
      {
        assert ids[i..][0] == ids[i] && ids[i..][1..] == ids[i + 1..];
        SwapOut(ids[i..]);
      }
      assert ids[|ids|..] == [];
    }

    /** Every one of these tasks is in the list of its group, and no list has repetitions. */
    ghost predicate Listed(groups: seq<seq<TaskId>>, ids: seq<TaskId>)
      reads this`schedGroup
    {
      && Distinct(ids) && (forall g :: 0 <= g < |groups| ==> Distinct(groups[g]))
      && forall id :: id in ids ==> id in schedGroup && schedGroup[id] < |groups| && id in groups[schedGroup[id]]
    }

    /** Overwrites the first of these tasks with the last member of its group and drops that. */
    method SwapOut(ids: seq<TaskId>)
      requires Valid() && ids != [] && Listed(sgroupList, ids)
      modifies this`sgroupList
      ensures Valid() && sgroupList == Remove(old(sgroupList), schedGroup, ids[0]) && Listed(sgroupList, ids[1..])
    {
      var g := schedGroup[ids[0]];
      var index := Index(sgroupList[g], ids[0]);
      SwapRemoveFacts(sgroupList[g], index);
      var sgroup := sgroupList[g][index := sgroupList[g][|sgroupList[g]| - 1]];
      sgroupList := sgroupList[g := sgroup[..|sgroup| - 1]];
    }

    method Index(list: seq<TaskId>, id: TaskId) returns (j: nat)
      requires id in list
      ensures j < |list| && list[j] == id && j == IndexOf(list, id)
    {
      j := 0;
      assert list[0..] == list;
      while list[j] != id
        invariant j < |list| && id in list[j..] && IndexOf(list, id) == j + IndexOf(list[j..], id)
        decreases |list| - j
      {
        assert list[j..][0] == list[j] && list[j..][1..] == list[j + 1..];
        j := j + 1;
      }
    }

    method PushGroup(g: nat)
      requires Valid() && g in usedSgroups
      modifies this`freeSgroups, this`usedSgroups
      ensures Valid() && usedSgroups == old(usedSgroups) - {g} && freeSgroups == old(freeSgroups) + [g]
    {
      usedSgroups := usedSgroups - {g};
      freeSgroups := freeSgroups + [g];
    }

    /** The end of `update`: groups without waiting tasks become free. */
    method ReleaseGroups(done: set<TaskId>)
      requires Valid()
      modifies this`freeSgroups, this`usedSgroups, this`waitingTasks
      ensures Valid()
      ensures forall g :: g in usedSgroups <==> g in old(usedSgroups) && old(waitingTasks)[g] - done != {}
    {
      waitingTasks := map g | g in waitingTasks :: waitingTasks[g] - done;
      var todo := usedSgroups;
      while todo != {}
        invariant todo <= usedSgroups <= old(usedSgroups)
        invariant waitingTasks == map g | g in old(waitingTasks) :: old(waitingTasks)[g] - done
        invariant Valid()
        invariant forall g :: g in old(usedSgroups) && g !in todo ==> (g in usedSgroups <==> waitingTasks[g] != {})
        decreases |todo|
      {
        var g :| g in todo;
        todo := todo - {g};
        if waitingTasks[g] == {} {
          PushGroup(g);
        }
      }
    }

    /** The batch a schedule call returns: the stretch of its group that takes part in the step, and with
        chunked prefill the chunk of each of its tasks. */
    ghost predicate IsBatch(kind: map<TaskId, Kind>, list: seq<TaskId>, remaining: map<TaskId, nat>, b: Batch)
      requires DecodeFirst(kind, list)
    {
      if list == [] then b == Batch([], [])
      else if chunkSize.Some? && kind[list[|list| - 1]] == TaskSpec.Prefill then
        var a := FirstPrefill(kind, list);
        && b.tasks != [] && a + |b.tasks| <= |list| && b.tasks == list[a..a + |b.tasks|]
        && Cut(b, remaining, chunkSize.value) && (a + |b.tasks| < |list| ==> Sum(b.chunks) == chunkSize.value)
      else b == Batch(list, [])
    }

    /** The group that has been free for longest. */
    method PopGroup() returns (g: nat)
      requires Valid() && freeSgroups != []
      modifies this`freeSgroups, this`usedSgroups, this`waitingTasks
      ensures Valid() && g == old(freeSgroups)[0] && g < |sgroupList| == |slotHandle.slotsSize|
      ensures usedSgroups == old(usedSgroups) + {g} && g in waitingTasks && waitingTasks[g] == {}
    {
      g := freeSgroups[0];
      assert freeSgroups == [g] + freeSgroups[1..];
      forall h | h in freeSgroups[1..]
        ensures h != g && h in freeSgroups
      {
        var k :| 0 <= k < |freeSgroups[1..]| && freeSgroups[1..][k] == h;
        assert freeSgroups[k + 1] == h;
      }
      freeSgroups := freeSgroups[1..];
      usedSgroups := usedSgroups + {g};
      waitingTasks := waitingTasks[g := {}];
    }

    lemma NoBatch(kind: map<TaskId, Kind>, remaining: map<TaskId, nat>)
      ensures DecodeFirst(kind, []) && IsBatch(kind, [], remaining, Batch([], []))
    {
    }

    /** `schedule`. `order` is the scorer's order of the ready tasks outside every group, `ready` says
        whether there is any ready task, and `remaining` gives the tokens still to be prefilled. The slots
        are not looked at. */
    method Schedule(kind: map<TaskId, Kind>, order: seq<TaskId>, ready: bool, remaining: map<TaskId, nat>,
                    ghost d: Dense, ghost width: nat) returns (b: Batch)
      requires Valid() && (forall id :: id in kind ==> id in remaining)
      requires Inv(Setting(width), Abs(kind, d)) && Waiting(Abs(kind, d), order)
      modifies this, slotHandle
      ensures Valid() && Inv(Setting(width), Abs(kind, d))
      ensures old(freeSgroups) == [] || !ready ==>
        b == Batch([], []) && sgroupList == old(sgroupList) && schedGroup == old(schedGroup)
      ensures old(freeSgroups) != [] && ready ==>
        var g := old(freeSgroups)[0];
        && |old(sgroupList)| == |slotHandle.slotsSize| && g < |old(sgroupList)| && DecodeFirst(kind, old(sgroupList)[g])
        && slotHandle.slotIdx == g && g in usedSgroups && waitingTasks[g] == (set id | id in b.tasks)
        && Abs(kind, d) == Filled(Setting(width), old(Abs(kind, d)), g, order)
        && JoinedList(kind, old(sgroupList)[g], order, slotHandle.slotsSize[g], sgroupList[g])
        && DecodeFirst(kind, sgroupList[g]) && IsBatch(kind, sgroupList[g], remaining, b)
    {
      hide OfKind, FirstPrefill, IsBatch, StartOf, Inv, Extended, JoinedList;
      b := Batch([], []);
      if |freeSgroups| == 0 || !ready {
        return;
      }
      ghost var before, u := old(Abs(kind, d)), Setting(width);
      var g := PopGroup();
      FillKeeps(u, before, g, order);
      InvDecodeFirst(u, before, g);
      OrderKnown(before, order);
      FilledJoins(kind, sgroupList[g], order, slotHandle.slotsSize[g]);
      var sgroup := sgroupList[g];
      slotHandle.SetSlotIdx(g);
      if sgroup == [] && order == [] && slotHandle.slotsSize[g] > 0 {
        NothingJoins(u, before, g);
        NoBatch(kind, remaining);
        return;
      }
      sgroup := ExtendList(kind, sgroup, order, slotHandle.slotsSize[g]);
      sgroupList := sgroupList[g := sgroup];
      schedGroup := Join(schedGroup, sgroup, g);
      assert sgroup == Fill(u, before, g, order);
      FilledDecodeFirst(kind, before, u, g, order);
      b := TakeBatch(kind, sgroup, remaining);
      waitingTasks := waitingTasks[g := set id | id in b.tasks];
    }

    /** Fills a list up to the capacity of its group. */
    method ExtendList(kind: map<TaskId, Kind>, list: seq<TaskId>, order: seq<TaskId>, capacity: nat)
        returns (sgroup: seq<TaskId>)
      requires (forall id :: id in list ==> id in kind) && forall id :: id in order ==> id in kind
      ensures sgroup == Extended(kind, list, order, capacity)
    {
      hide OfKind;
      sgroup := list;
      if |sgroup| < capacity && !(sgroup == [] && order == []) {
        var filter := if sgroup != [] then kind[sgroup[|sgroup| - 1]] else kind[order[0]];
        var more := OfKind(kind, order, filter);
        sgroup := sgroup + more[..Min(|more|, capacity - |sgroup|)];
      }
    }

    /** The end of `schedule`: where the batch starts, and how many of its tasks are taken. */
    method TakeBatch(kind: map<TaskId, Kind>, sgroup: seq<TaskId>, remaining: map<TaskId, nat>) returns (b: Batch)
      requires DecodeFirst(kind, sgroup) && forall id :: id in kind ==> id in remaining
      ensures IsBatch(kind, sgroup, remaining, b)
    {
      hide FirstPrefill, Sum, IsBatch;
      b := Batch(sgroup, []);
      if sgroup != [] && chunkSize.Some? && kind[sgroup[|sgroup| - 1]] == TaskSpec.Prefill {
        var start := FindPrefillTaskStartPos(kind, sgroup);
        FirstPrefillInside(kind, sgroup, |sgroup| - 1);
        var ret := sgroup[start..];
        var chunks := ChunkPrefillTasksCount(seq(|ret|, i requires 0 <= i < |ret| => remaining[ret[i]]),
          chunkSize.value);
        b := Batch(ret[..|chunks|], chunks);
        TakenIsBatch(kind, sgroup, remaining, b);
      } else {
        WholeIsBatch(kind, sgroup, remaining);
      }
    }

    lemma WholeIsBatch(kind: map<TaskId, Kind>, list: seq<TaskId>, remaining: map<TaskId, nat>)
      requires DecodeFirst(kind, list)
      requires list == [] || chunkSize.None? || kind[list[|list| - 1]] != TaskSpec.Prefill
      ensures IsBatch(kind, list, remaining, Batch(list, []))
    {
    }

    /** A chunked stretch from the first member that is not decoding is such a batch. */
    lemma TakenIsBatch(kind: map<TaskId, Kind>, list: seq<TaskId>, remaining: map<TaskId, nat>, b: Batch)
      requires DecodeFirst(kind, list) && (forall id :: id in kind ==> id in remaining) && list != []
      requires chunkSize.Some? && kind[list[|list| - 1]] == TaskSpec.Prefill
      requires var rest := list[FirstPrefill(kind, list)..];
        && 0 < |b.chunks| == |b.tasks| <= |rest| && b.tasks == rest[..|b.tasks|] && Sum(b.chunks) <= chunkSize.value
        && (forall i :: 0 <= i < |b.tasks| ==> rest[i] in remaining && b.chunks[i] <= remaining[rest[i]])
        && (forall i :: 0 <= i < |b.tasks| - 1 ==> b.chunks[i] == remaining[rest[i]])
        && (Sum(b.chunks) < chunkSize.value ==>
              |b.chunks| == |rest| && b.chunks[|rest| - 1] == remaining[rest[|rest| - 1]])
        && (|b.chunks| < |rest| ==> Sum(b.chunks) == chunkSize.value)
      ensures IsBatch(kind, list, remaining, b)
    {
      hide FirstPrefill, Sum;
    }
  }

  /** The list of a group before and after it has been filled. */
  ghost predicate JoinedList(kind: map<TaskId, Kind>, list: seq<TaskId>, order: seq<TaskId>, size: nat,
      filled: seq<TaskId>) {
    && (forall id :: id in order ==> id in kind) && (forall id :: id in list ==> id in kind)
    && list <= filled && Joins(kind, list, order, size, filled[|list|..])
  }

  lemma FilledJoins(kind: map<TaskId, Kind>, list: seq<TaskId>, order: seq<TaskId>, size: nat)
    requires Distinct(order) && (forall id :: id in order ==> id in kind) && DecodeFirst(kind, list)
    ensures (forall id :: id in list ==> id in kind)
      && JoinedList(kind, list, order, size, Extended(kind, list, order, size))
  {
    hide Extended, Joins;
    var more := ExtendedJoins(kind, list, order, size);
    assert (list + more)[|list|..] == more;
  }

  /** The tasks of a step, and the chunk of each if prefills are chunked. */
  datatype Batch = Batch(tasks: seq<TaskId>, chunks: seq<nat>)

  /** The chunks of a batch: all tasks but the last get all that remains of their prefix, and together
      they stay within the chunk size; the last one gets less only if the chunk size is used up. */
  ghost predicate Cut(b: Batch, remaining: map<TaskId, nat>, chunkSize: nat) {
    && |b.chunks| == |b.tasks| && Sum(b.chunks) <= chunkSize
    && (forall i :: 0 <= i < |b.tasks| ==> b.tasks[i] in remaining && b.chunks[i] <= remaining[b.tasks[i]])
    && (forall i :: 0 <= i < |b.tasks| - 1 ==> b.chunks[i] == remaining[b.tasks[i]])
    && (b.tasks != [] && Sum(b.chunks) < chunkSize ==>
          b.chunks[|b.tasks| - 1] == remaining[b.tasks[|b.tasks| - 1]])
  }

  /** How many tasks of a prefill batch complete their prefill. */
  function Completing(b: Batch, remaining: map<TaskId, nat>): (done: nat)
    requires b.chunks != [] ==> |b.chunks| == |b.tasks| && b.tasks[|b.tasks| - 1] in remaining
    ensures done <= |b.tasks|
  {
    if b.chunks == [] then |b.tasks|
    else if b.chunks[|b.chunks| - 1] == remaining[b.tasks[|b.tasks| - 1]] then |b.tasks|
    else |b.tasks| - 1
  }

  /** They are the first ones, and exactly those whose chunk is all that remains. */
  lemma CompletingFirst(b: Batch, remaining: map<TaskId, nat>, chunkSize: nat, i: nat)
    requires Cut(b, remaining, chunkSize) && i < |b.tasks|
    ensures i < Completing(b, remaining) <==> b.chunks[i] == remaining[b.tasks[i]]
  {
  }

  lemma OrderKnown(s: Skew, order: seq<TaskId>)
    requires Waiting(s, order)
    ensures Distinct(order) && forall id :: id in order ==> id in s.kind
  {
  }

  lemma NothingJoins(u: Setup, s: Skew, g: nat)
    requires g < |s.groups| == |u.sizes| && s.groups[g] == []
    ensures Filled(u, s, g, []) == s
  {
    hide OfKind;
    assert s.groups[g := []] == s.groups && Join(s.sched, [], g) == s.sched;
  }

  /** The step a scheduled batch is for. */
  function StepOf(kind: map<TaskId, Kind>, list: seq<TaskId>, g: nat, b: Batch, remaining: map<TaskId, nat>,
      news: seq<BufferRow>): Event
    requires list != [] && forall id :: id in list ==> id in kind
    requires b.chunks != [] ==> |b.chunks| == |b.tasks| && b.tasks[|b.tasks| - 1] in remaining
  {
    if kind[list[|list| - 1]] == TaskSpec.Decode then Decode(g, news)
    else
      Prefill(Feed(g, if b.chunks == [] then 0 else FirstPrefill(kind, list), |b.tasks|, Completing(b, remaining),
          news))
  }

  /** Whatever batch is scheduled, the state machine can make its step, with any rows the model may
      write, and the step keeps the agreement. */
  lemma BatchSteps(scheduler: SkewScheduler, g: nat, kind: map<TaskId, Kind>, d: Dense, width: nat, b: Batch,
                   remaining: map<TaskId, nat>, news: seq<BufferRow>) returns (t: Skew)
    requires g < |scheduler.sgroupList| && DecodeFirst(kind, scheduler.sgroupList[g])
    requires Inv(scheduler.Setting(width), scheduler.Abs(kind, d))
    requires scheduler.IsBatch(kind, scheduler.sgroupList[g], remaining, b) && b.tasks != [] && |news| == |b.tasks|
    ensures scheduler.sgroupList[g] != []
    ensures b.chunks != [] ==> |b.chunks| == |b.tasks| && b.tasks[|b.tasks| - 1] in remaining
    ensures var u, s := scheduler.Setting(width), scheduler.Abs(kind, d);
      StepTo(u, s, StepOf(kind, s.groups[g], g, b, remaining, news), t) && Inv(u, t)
  {
    hide Inv, FirstPrefill, Sum, StepTo, Feeds;
    var u, s := scheduler.Setting(width), scheduler.Abs(kind, d);
    var list := s.groups[g];
    if kind[list[|list| - 1]] == TaskSpec.Decode {
      t := DecodeSteps(u, s, g, news);
    } else {
      BatchFeeds(scheduler, g, kind, d, width, b, remaining, news);
      t := FeedSteps(u, s, StepOf(kind, list, g, b, remaining, news).f);
    }
  }

  lemma BatchFeeds(scheduler: SkewScheduler, g: nat, kind: map<TaskId, Kind>, d: Dense, width: nat, b: Batch,
                   remaining: map<TaskId, nat>, news: seq<BufferRow>)
    requires g < |scheduler.sgroupList| && DecodeFirst(kind, scheduler.sgroupList[g])
    requires scheduler.IsBatch(kind, scheduler.sgroupList[g], remaining, b) && b.tasks != [] && |news| == |b.tasks|
    requires var list := scheduler.sgroupList[g]; list != [] && kind[list[|list| - 1]] == TaskSpec.Prefill
    ensures b.chunks != [] ==> |b.chunks| == |b.tasks| && b.tasks[|b.tasks| - 1] in remaining
    ensures var (u, s) := (scheduler.Setting(width), scheduler.Abs(kind, d));
      var ev := StepOf(kind, s.groups[g], g, b, remaining, news);
      ev.Prefill? && Feeds(u, s, ev.f)
  {
    hide Sum, FirstPrefill;
  }

  /** Filling keeps decoding members in front. */
  lemma FilledDecodeFirst(kind: map<TaskId, Kind>, s: Skew, u: Setup, g: nat, order: seq<TaskId>)
    requires g < |s.groups| == |u.sizes| && s.kind == kind && DecodeFirst(kind, s.groups[g])
    requires Distinct(order) && forall id :: id in order ==> id in kind
    ensures DecodeFirst(kind, Fill(u, s, g, order))
  {
    hide Extended, InOrder;
    var list := s.groups[g];
    var more := ExtendedJoins(kind, list, order, u.sizes[g]);
    if more != [] {
      var k := kind[if list != [] then list[|list| - 1] else order[0]];
      assert forall id :: id in more ==> id in KindIn(kind, k);
      MoreDecodeFirst(kind, list, more, k);
    } else {
      assert list + more == list;
    }
  }

  lemma MoreDecodeFirst(kind: map<TaskId, Kind>, list: seq<TaskId>, more: seq<TaskId>, k: Kind)
    requires DecodeFirst(kind, list) && forall id :: id in more ==> id in kind && kind[id] == k
    requires list != [] ==> list[|list| - 1] in kind && kind[list[|list| - 1]] == k
    ensures DecodeFirst(kind, list + more)
  {
    forall i | 0 <= i < |list + more|
      ensures (list + more)[i] in kind && (i >= |list| ==> kind[(list + more)[i]] == k)
    {
      assert if i < |list| then list[i] in list else more[i - |list|] in more;
    }
  }

  /** The removal of finished tasks, first from the lists of the scheduler, then from the slots of the
      cache: row i of every group's range stays the row of member i, and no other request loses its row. */
  method FinishTasks(scheduler: SkewScheduler, cache: DenseKVCacheManager, ids: seq<TaskId>,
      ghost kind: map<TaskId, Kind>)
    requires scheduler.Valid() && cache.Valid() && cache.slotHandle == scheduler.slotHandle
    requires Inv(scheduler.Setting(cache.maxSeqLen), scheduler.Abs(kind, cache.Abs()))
    requires Leaves(scheduler.Setting(cache.maxSeqLen), scheduler.Abs(kind, cache.Abs()), ids)
    modifies scheduler, cache, cache.slotAvailability, cache.hotReqs, cache.kvBuffer
    ensures scheduler.Valid() && cache.Valid()
    ensures Inv(scheduler.Setting(cache.maxSeqLen), scheduler.Abs(kind - (set id | id in ids), cache.Abs()))
    ensures Holding(cache.Abs()) == Holding(old(cache.Abs())) - (set id | id in ids)
  {
    hide Inv, AllDecoding, GroupAt, RemoveAll, FreeIn, Holding, DenseInv, InDecodeGroup;
    ghost var u := scheduler.Setting(cache.maxSeqLen);
    ghost var s := scheduler.Abs(kind, cache.Abs());
    LeaversDecode(u, s, ids);
    LeaveAllKeeps(u, s, ids);
    LeaversListed(u, s, ids);
    scheduler.ReorderTasksForBatching(ids);
    ReleaseSlots(cache, ids);
    scheduler.schedGroup := scheduler.schedGroup - (set id | id in ids);
    assert scheduler.Abs(kind - (set id | id in ids), cache.Abs()) == Left(u, s, ids);
  }

  lemma LeaversListed(u: Setup, s: Skew, ids: seq<TaskId>)
    requires Inv(u, s) && AllDecoding(u, s, ids)
    ensures forall id :: id in ids ==> id in s.sched && s.sched[id] < |s.groups| && id in s.groups[s.sched[id]]
    ensures forall g :: 0 <= g < |s.groups| ==> Distinct(s.groups[g])
  {
    hide DenseInv, GroupOk, GroupAt;
  }

  method ReleaseSlots(cache: DenseKVCacheManager, ids: seq<TaskId>)
    requires cache.Valid() && cache.slotHandle != null
    modifies cache`req2slot, cache.slotAvailability, cache.hotReqs, cache.kvBuffer
    ensures cache.Valid() && cache.Abs() == FreeAll(old(cache.Abs()), cache.slotHandle.slotsSize, ids, cache.maxSeqLen)
  {
    hide FreeIn;
    ghost var start := cache.Abs();
    assert ids[0..] == ids;
    for i := 0 to |ids|
      invariant cache.Valid()
      invariant FreeAll(cache.Abs(), cache.slotHandle.slotsSize, ids[i..], cache.maxSeqLen) ==
        FreeAll(start, cache.slotHandle.slotsSize, ids, cache.maxSeqLen)
    {
      assert ids[i..][0] == ids[i] && ids[i..][1..] == ids[i + 1..];
      cache.FinalizeCacheAllDecode(ids[i]);
    }
    assert ids[|ids|..] == [];
  }
}
