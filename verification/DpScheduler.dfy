/**
 The scheduler of expert data parallelism: its methods update the pool and the cursor in place, and make
 exactly the rounds of `DpRounds`.
 */
module DpScheduling {
  import opened Base
  import opened DpRounds
  import TaskSpec

  class DPFifoScheduler {
    const maxNumTasksPerDp: nat
    const dpSize: nat
    const prefillChunkSize: Option<nat>
    var rrOwnerCursor: nat
    var haveTask: bool
    /** The task pool. Scheduling writes owners and chunk sizes. */
    var tasks: Pool

    ghost predicate Valid()
      reads this
    {
      dpSize > 0 && rrOwnerCursor < dpSize
    }

    /** What the rounds depend on. */
    function Setting(): Setup {
      Setup(dpSize, maxNumTasksPerDp, if prefillChunkSize.Some? then prefillChunkSize.value else 0)
    }

    constructor (maxNumTasksPerDp: nat, dpSize: nat, prefillChunkSize: Option<nat>)
      requires dpSize > 0
      ensures Valid() && tasks == map[] && rrOwnerCursor == 0
      ensures this.maxNumTasksPerDp == maxNumTasksPerDp && this.dpSize == dpSize
      ensures this.prefillChunkSize == prefillChunkSize
    {
      this.maxNumTasksPerDp, this.dpSize, this.prefillChunkSize := maxNumTasksPerDp, dpSize, prefillChunkSize;
      rrOwnerCursor, haveTask, tasks := 0, false, map[];
    }

    /** The requests every rank owns, counted over the pool in its own order. */
    method CountOccupied(ids: seq<TaskId>) returns (occupied: seq<nat>)
      requires Distinct(ids) && Ids(ids) == tasks.Keys
      ensures |occupied| == dpSize && forall r :: 0 <= r < dpSize ==> occupied[r] == |Owned(tasks, tasks.Keys, r)|
    {
      occupied := seq(dpSize, _ => 0);
      forall r: nat | r < dpSize
        ensures |Owned(tasks, Ids(ids[..0]), r)| == 0
      {
        assert Owned(tasks, Ids(ids[..0]), r) == {};
      }
      for i := 0 to |ids|
        invariant |occupied| == dpSize
        invariant forall r :: 0 <= r < dpSize ==> occupied[r] == |Owned(tasks, Ids(ids[..i]), r)|
      {
        assert ids[i] in Ids(ids);
        var t := tasks[ids[i]];
        forall r: nat | r < dpSize
          ensures |Owned(tasks, Ids(ids[..i + 1]), r)| ==
            |Owned(tasks, Ids(ids[..i]), r)| + if t.owner == Some(r) && !t.stopped then 1 else 0
        {
          OwnedNext(tasks, ids, i, r);
        }
        if t.owner.Some? && t.owner.value < dpSize && !t.stopped {
          occupied := occupied[t.owner.value := occupied[t.owner.value] + 1];
        }
      }
      assert ids[..|ids|] == ids;
    }

    /** `next_rank_with_free_slot`. */
    method NextRankWithFreeSlot(freeSlots: seq<nat>) returns (r: Option<nat>)
      requires Valid() && |freeSlots| == dpSize
      modifies this`rrOwnerCursor
      ensures Valid() && (r, rrOwnerCursor) == NextRank(freeSlots, old(rrOwnerCursor), dpSize)
      ensures r.None? <==> forall k :: 0 <= k < dpSize ==> freeSlots[k] == 0
    {
      NextRankFails(freeSlots, rrOwnerCursor, dpSize);
      forall k: nat | k < dpSize
        ensures Ahead(rrOwnerCursor, dpSize, dpSize, k)
      {
        AllAhead(rrOwnerCursor, dpSize, k);
      }
      for i := 0 to dpSize
        invariant Valid()
        invariant NextRank(freeSlots, rrOwnerCursor, dpSize - i) == NextRank(freeSlots, old(rrOwnerCursor), dpSize)
      {
        var k := rrOwnerCursor;
        assert NextOf(k, dpSize) == (k + 1) % dpSize;
        rrOwnerCursor := (rrOwnerCursor + 1) % dpSize;
        if freeSlots[k] > 0 {
          return Some(k);
        }
      }
      r := None;
    }

    /** One prefill candidate. */
    method AssignOne(id: TaskId, freeSlots: seq<nat>, lists: seq<seq<TaskId>>)
        returns (freeAfter: seq<nat>, listsAfter: seq<seq<TaskId>>)
      requires Valid() && Sized(Assignment(tasks, rrOwnerCursor, freeSlots, lists), dpSize) && id in tasks
      modifies this`rrOwnerCursor, this`tasks
      ensures Assignment(tasks, rrOwnerCursor, freeAfter, listsAfter) ==
        AssignTask(old(Assignment(tasks, rrOwnerCursor, freeSlots, lists)), id)
    {
      freeAfter, listsAfter := freeSlots, lists;
      var owner := tasks[id].owner;
      if owner == None {
        var r := NextRankWithFreeSlot(freeSlots);
        if r == None {
          return;
        }
        tasks := tasks[id := tasks[id].(owner := r)];
        freeAfter := freeAfter[r.value := freeAfter[r.value] - 1];
        listsAfter := lists[r.value := lists[r.value] + [id]];
      } else if owner.value < dpSize {
        listsAfter := lists[owner.value := lists[owner.value] + [id]];
      }
    }

    /** The owner assignment of all candidates, in order. */
    method AssignOwners(order: seq<TaskId>, occupied: seq<nat>) returns (lists: seq<seq<TaskId>>, ghost free: seq<nat>)
      requires Valid() && forall id :: id in order ==> id in tasks
      requires |occupied| == dpSize && forall r :: 0 <= r < dpSize ==> occupied[r] == |Owned(tasks, tasks.Keys, r)|
      modifies this`rrOwnerCursor, this`tasks
      ensures Sized(StartAssignment(Setting(), old(tasks), old(rrOwnerCursor)), dpSize)
      ensures Assignment(tasks, rrOwnerCursor, free, lists) ==
        AssignAll(StartAssignment(Setting(), old(tasks), old(rrOwnerCursor)), order)
    {
      hide Owned, AssignTask;
      var freeSlots: seq<nat> := seq(dpSize,
        r requires 0 <= r < dpSize && |occupied| == dpSize => Max(0, maxNumTasksPerDp - occupied[r]));
      lists := seq(dpSize, _ => []);
      ghost var start := StartAssignment(Setting(), tasks, rrOwnerCursor);
      assert start == Assignment(tasks, rrOwnerCursor, freeSlots, lists);
      assert order[0..] == order;
      for i := 0 to |order|
        invariant Valid() && Sized(Assignment(tasks, rrOwnerCursor, freeSlots, lists), dpSize)
        invariant tasks.Keys == old(tasks).Keys
        invariant AssignAll(Assignment(tasks, rrOwnerCursor, freeSlots, lists), order[i..]) == AssignAll(start, order)
      {
        assert order[i..][0] == order[i] && order[i..][1..] == order[i + 1..];
        freeSlots, lists := AssignOne(order[i], freeSlots, lists);
      }
      assert order[|order|..] == [];
      free := freeSlots;
    }

    /** The budget of one rank, given out in list order. */
    method ChunkRank(list: seq<TaskId>, budget: nat) returns (kept: seq<TaskId>)
      requires forall id :: id in list ==> id in tasks
      modifies this`tasks
      ensures (tasks, kept) == CutList(old(tasks), list, [], budget)
    {
      kept := [];
      if budget == 0 {
        return;
      }
      var given: nat := 0;
      assert list[0..] == list;
      for i := 0 to |list|
        invariant tasks.Keys == old(tasks).Keys && given < budget
        invariant CutList(tasks, list[i..], kept, budget - given) == CutList(old(tasks), list, [], budget)
      {
        assert list[i..][0] == list[i] && list[i..][1..] == list[i + 1..];
        var id := list[i];
        var remaining := tasks[id].remaining;
        if remaining > 0 {
          var take: nat := Min(remaining, Max(0, budget - given));
          tasks := tasks[id := tasks[id].(chunk := Some(take))];
          kept := kept + [id];
          given := given + take;
          if given >= budget {
            return;
          }
        }
      }
    }

    /** The per-rank slicing of the chunk size. */
    method CutToBudgets(lists: seq<seq<TaskId>>, size: nat) returns (cut: seq<seq<TaskId>>)
      requires Valid() && |lists| == dpSize && Known(tasks, lists) && size == Setting().size
      modifies this`tasks
      ensures (tasks, cut) == CutFrom(Setting(), old(tasks), lists, [])
    {
      hide CutList;
      cut := [];
      for r := 0 to dpSize
        invariant |cut| == r && tasks.Keys == old(tasks).Keys
        invariant CutFrom(Setting(), tasks, lists, cut) == CutFrom(Setting(), old(tasks), lists, [])
      {
        var budget := size / dpSize + if r == 0 then size % dpSize else 0;
        assert budget == Budget(size, dpSize, r);
        var kept := ChunkRank(lists[r], budget);
        cut := cut + [kept];
      }
    }

    /** The final truncation of every list to the capacity of a rank. */
    method TruncateAll(lists: seq<seq<TaskId>>) returns (cut: seq<seq<TaskId>>)
      requires |lists| == dpSize
      ensures cut == Truncated(lists, maxNumTasksPerDp)
    {
      cut := lists;
      for r := 0 to dpSize
        invariant |cut| == dpSize
        invariant forall k :: 0 <= k < r ==> cut[k] == lists[k][..Min(|lists[k]|, maxNumTasksPerDp)]
        invariant forall k :: r <= k < dpSize ==> cut[k] == lists[k]
      {
        if |cut[r]| > maxNumTasksPerDp {
          cut := cut[r := cut[r][..maxNumTasksPerDp]];
        }
      }
    }

    /** Every ready decode task goes to its owner. */
    method DecodeLists(ids: seq<TaskId>) returns (lists: seq<seq<TaskId>>)
      requires Valid() && Inv(tasks, dpSize, maxNumTasksPerDp) && forall id :: id in ids ==> id in tasks
      ensures lists == DecodeFrom(tasks, ids, NoLists(dpSize))
    {
      hide Inv;
      lists := NoLists(dpSize);
      assert ids[0..] == ids;
      for i := 0 to |ids|
        invariant |lists| == dpSize
        invariant DecodeFrom(tasks, ids[i..], lists) == DecodeFrom(tasks, ids, NoLists(dpSize))
      {
        assert ids[i..][0] == ids[i] && ids[i..][1..] == ids[i + 1..];
        var id := ids[i];
        OwnerInRange(tasks, dpSize, maxNumTasksPerDp, id);
        if tasks[id].kind == TaskSpec.Decode && !tasks[id].waiting && !tasks[id].stopped {
          var owner := tasks[id].owner.value % dpSize;
          lists := lists[owner := lists[owner] + [id]];
        }
      }
    }

    /** `schedule` outside warm-up. `ids` is the pool in its own order, `order` its ready prefill tasks by
        start time. It returns the list of every rank. */
    method Schedule(ids: seq<TaskId>, order: seq<TaskId>) returns (lists: seq<seq<TaskId>>, ghost kind: Kind)
      requires Valid() && Inv(tasks, dpSize, maxNumTasksPerDp)
      requires Scheduling(Setting(), tasks, rrOwnerCursor, ids, order)
      modifies this`rrOwnerCursor, this`tasks, this`haveTask
      ensures Valid() && old(Pooled(tasks, ids, order))
      ensures Round(tasks, rrOwnerCursor, lists, kind) == RoundOf(Setting(), old(tasks), old(rrOwnerCursor), ids, order)
      ensures RoundOk(Setting(), old(tasks), old(rrOwnerCursor), ids, order,
        Round(tasks, rrOwnerCursor, lists, kind))
      ensures haveTask <==> SomeTask(lists)
    {
      hide Inv, RoundOk, PrefillRound, DecodeFrom, Truncated, Candidates;
      RoundKeeps(Setting(), tasks, rrOwnerCursor, ids, order);
      CandidatesKnown(tasks, order);
      kind := TaskSpec.Decode;
      haveTask := false;
      var candidates := order[..Min(|order|, maxNumTasksPerDp * dpSize)];
      assert candidates == Considered(Setting(), order);
      if |candidates| > 0 {
        lists := PrefillLists(ids, candidates);
        PrefillInv(old(tasks), old(rrOwnerCursor), order, candidates);
        lists := TruncateAll(lists);
        haveTask := AnyList(lists);
        if haveTask {
          kind := TaskSpec.Prefill;
          return;
        }
      }
      lists := DecodeLists(ids);
      lists := TruncateAll(lists);
      haveTask := AnyList(lists);
    }

    /** The pool after the prefill branch. */
    lemma PrefillInv(pool: Pool, cursor: nat, order: seq<TaskId>, candidates: seq<TaskId>)
      requires cursor < dpSize && Inv(pool, dpSize, maxNumTasksPerDp) && Candidates(pool, order)
      requires candidates == Considered(Setting(), order) && forall id :: id in candidates ==> id in pool
      ensures Inv(PrefillRound(Setting(), pool, cursor, candidates).0, dpSize, maxNumTasksPerDp)
    {
      hide Inv, OnOwners, Grows, PassedOver, WithinChunks, PrefillRound, Candidates;
      ConsideredAre(Setting(), pool, order);
      PrefillRoundIs(Setting(), pool, cursor, candidates);
    }

    /** The prefill branch up to the truncation. */
    method PrefillLists(ids: seq<TaskId>, candidates: seq<TaskId>) returns (lists: seq<seq<TaskId>>)
      requires Valid() && Distinct(ids) && Ids(ids) == tasks.Keys && forall id :: id in candidates ==> id in tasks
      modifies this`rrOwnerCursor, this`tasks
      ensures (tasks, rrOwnerCursor, lists) == PrefillRound(Setting(), old(tasks), old(rrOwnerCursor), candidates)
    {
      hide Owned, AssignAll, CutFrom, StartAssignment;
      var occupied := CountOccupied(ids);
      ghost var free;
      lists, free := AssignOwners(candidates, occupied);
      if prefillChunkSize.Some? && prefillChunkSize.value > 0 {
        lists := CutToBudgets(lists, prefillChunkSize.value);
      }
    }

    method AnyList(lists: seq<seq<TaskId>>) returns (b: bool)
      ensures b <==> SomeTask(lists)
    {
      b := false;
      for r := 0 to |lists|
        invariant b <==> exists k :: 0 <= k < r && lists[k] != []
      {
        if lists[r] != [] {
          b := true;
        }
      }
    }
  }
}
