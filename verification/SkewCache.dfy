/**
 The slot handle, the dense KV cache manager and the group lists of the skew scheduler as objects. Each
 method is proved against the values of `SkewSpec` and `SkewRuns`.
 */
module SkewCache {
  import opened Base
  import opened LanguageModel
  import opened Ragged
  import opened SkewSpec
  import opened SkewRuns

  // ----- Slot handle -----

  /** The size of group j when i requests are dealt round to `parts` groups. */
  function Share(i: nat, parts: nat, j: nat): nat
    requires parts > 0
  {
    i / parts + if j < i % parts then 1 else 0
  }

  lemma ShareNext(i: nat, parts: nat, j: nat)
    requires parts > 0 && j < parts
    ensures Share(i + 1, parts, j) == Share(i, parts, j) + if j == i % parts then 1 else 0
  {
    DivBounds(i, parts);
    if i % parts + 1 < parts {
      DivUnique(i / parts, i % parts + 1, parts);
    } else {
      DivUnique(i / parts + 1, 0, parts);
    }
  }

  lemma {:induction false} SumAdd(lens: seq<nat>, j: nat)
    requires j < |lens|
    ensures Sum(lens[j := lens[j] + 1]) == Sum(lens) + 1
    decreases |lens|
  {
    var more := lens[j := lens[j] + 1];
    if j > 0 {
      assert more[1..] == lens[1..][j - 1 := lens[1..][j - 1] + 1];
      SumAdd(lens[1..], j - 1);
    } else {
      assert more[1..] == lens[1..];
    }
  }

  lemma {:induction false} SumZeros(lens: seq<nat>)
    requires forall j :: 0 <= j < |lens| ==> lens[j] == 0
    ensures Sum(lens) == 0
    decreases |lens|
  {
    if lens != [] {
      SumZeros(lens[1..]);
    }
  }

  /** `split_slots`: as even a split as there is, with nothing lost. */
  method SplitSlots(total: nat, parts: nat) returns (sizes: seq<nat>)
    requires parts > 0
    ensures |sizes| == Min(total, parts) && Sum(sizes) == total
    ensures forall j :: 0 <= j < |sizes| ==> sizes[j] == Share(total, parts, j) > 0
    ensures forall j, k :: 0 <= j < k < |sizes| ==> sizes[k] <= sizes[j] <= sizes[k] + 1
  {
    var result := new nat[Min(total, parts)](_ => 0);
    SumZeros(result[..]);
    for i := 0 to total
      invariant Sum(result[..]) == i
      invariant forall j :: 0 <= j < result.Length ==> result[j] == Share(i, parts, j)
    {
      SlotInRange(i, total, parts);
      ghost var before := result[..];
      SumAdd(before, i % parts);
      result[i % parts] := result[i % parts] + 1;
      assert result[..] == before[i % parts := before[i % parts] + 1];
      forall j | 0 <= j < result.Length
        ensures result[j] == Share(i + 1, parts, j)
      {
        ShareNext(i, parts, j);
      }
    }
    sizes := result[..];
    SharesPositive(total, parts);
  }

  lemma SlotInRange(i: nat, total: nat, parts: nat)
    requires parts > 0 && i < total
    ensures 0 <= i % parts < Min(total, parts)
  {
    DivBounds(i, parts);
    if i < parts {
      DivUnique(0, i, parts);
    }
  }

  lemma SharesPositive(total: nat, parts: nat)
    requires parts > 0
    ensures forall j :: 0 <= j < Min(total, parts) ==> Share(total, parts, j) > 0
  {
    DivBounds(total, parts);
    if total < parts {
      DivUnique(0, total, parts);
    } else if total / parts == 0 {
      assert false;
    }
  }

  class SlotHandle {
    const slotsSize: seq<nat>
    const numSlots: nat
    const slotStartIdx: seq<nat>
    const slotEndIdx: seq<nat>
    var slotIdx: nat

    /** Start and end of every group are the partial sums of the sizes. */
    ghost predicate Valid() {
      && |slotsSize| == |slotStartIdx| == |slotEndIdx| == numSlots
      && forall g :: 0 <= g < numSlots ==> slotStartIdx[g] == Lo(slotsSize, g) && slotEndIdx[g] == Lo(slotsSize, g + 1)
    }

    constructor (maxReqs: nat, ppSize: nat)
      requires ppSize > 0
      ensures Valid() && Sum(slotsSize) == maxReqs && slotIdx == 0
    {
      var sizes := SplitSlots(maxReqs, ppSize);
      var res: seq<nat> := [0];
      for i := 0 to |sizes|
        invariant |res| == i + 1
        invariant forall g :: 0 <= g <= i ==> res[g] == Lo(sizes, g)
      {
        LoNext(sizes, i);
        res := res + [res[|res| - 1] + sizes[i]];
      }
      slotsSize, numSlots, slotIdx := sizes, |sizes|, 0;
      slotStartIdx, slotEndIdx := res[..|res| - 1], res[1..];
    }

    method SetSlotIdx(idx: nat)
      modifies this
      ensures slotIdx == idx
    {
      slotIdx := idx;
    }

    /** The end of the group that a slot lies in: the first group end behind it. */
    method EndBehind(k: nat) returns (end: nat)
      requires Valid() && k < Sum(slotsSize)
      ensures end == EndOf(slotsSize, k)
    {
      end := 0;
      RowCovers(slotsSize, k);
      LoNext(slotsSize, Row(slotsSize, k));
      for g := 0 to numSlots
        invariant g <= Row(slotsSize, k)
      {
        if k < slotEndIdx[g] {
          LoMono(slotsSize, g + 1, Max(g + 1, Row(slotsSize, k)));
          return slotEndIdx[g];
        }
        LoMono(slotsSize, Row(slotsSize, k) + 1, Max(g + 1, Row(slotsSize, k) + 1));
      }
      assert false;
    }
  }

  // ----- Dense cache -----

  class DenseKVCacheManager {
    const numHotReq: nat
    const maxSeqLen: nat
    const slotHandle: SlotHandle?
    const slotAvailability: array<bool>
    const hotReqs: array<Option<TaskId>>
    const kvBuffer: array<BufferRow>
    var req2slot: map<TaskId, nat>

    /** Availability, occupants and the request-to-slot map agree: the latter two are inverse. */
    ghost predicate Valid()
      reads this, slotAvailability, hotReqs, kvBuffer
    {
      && slotAvailability.Length == hotReqs.Length == kvBuffer.Length == numHotReq
      && (slotHandle != null ==> slotHandle.Valid() && Sum(slotHandle.slotsSize) == numHotReq)
      && (forall i :: 0 <= i < numHotReq ==> (slotAvailability[i] <==> hotReqs[i] == None))
      && (forall id :: id in req2slot ==> req2slot[id] < numHotReq && hotReqs[req2slot[id]] == Some(id))
      && (forall i :: 0 <= i < numHotReq && hotReqs[i].Some? ==>
           hotReqs[i].value in req2slot && req2slot[hotReqs[i].value] == i)
    }

    ghost function Abs(): (d: Dense)
      reads hotReqs, kvBuffer
      ensures |d.hot| == hotReqs.Length && |d.rows| == kvBuffer.Length
    {
      Dense(hotReqs[..], kvBuffer[..])
    }

    constructor (numHotReq: nat, maxSeqLen: nat, slotHandle: SlotHandle?)
      requires slotHandle != null ==> slotHandle.Valid() && Sum(slotHandle.slotsSize) == numHotReq
      ensures Valid() && this.numHotReq == numHotReq && this.maxSeqLen == maxSeqLen && this.slotHandle == slotHandle
      ensures Abs() == Dense(seq(numHotReq, _ => None), seq(numHotReq, _ => Zeros(maxSeqLen)))
      ensures fresh(hotReqs) && fresh(slotAvailability) && fresh(kvBuffer)
    {
      this.numHotReq, this.maxSeqLen, this.slotHandle := numHotReq, maxSeqLen, slotHandle;
      slotAvailability := new bool[numHotReq](_ => true);
      hotReqs := new Option<TaskId>[numHotReq](_ => None);
      kvBuffer := new BufferRow[numHotReq](_ => Zeros(maxSeqLen));
      req2slot := map[];
    }

    /** Whether a request is hot can be read off the map. */
    lemma HotIffMapped(id: TaskId)
      requires Valid()
      ensures id in req2slot <==> Some(id) in hotReqs[..]
    {
      if id in req2slot {
        assert hotReqs[..][req2slot[id]] == Some(id);
      }
    }

    /** The inner loop of `prepare_cache_prefill`. */
    method TakeSlot(id: TaskId, from: nat, end: nat) returns (slot: nat, taken: bool)
      requires Valid() && end <= numHotReq && id !in req2slot
      modifies this`req2slot, slotAvailability, hotReqs
      ensures Valid() && kvBuffer[..] == old(kvBuffer[..])
      ensures taken <==> FirstFree(old(hotReqs[..]), from, end).Some?
      ensures !taken ==> hotReqs[..] == old(hotReqs[..])
      ensures taken ==> slot > 0 && FirstFree(old(hotReqs[..]), from, end) == Some(slot - 1)
      ensures taken ==> hotReqs[..] == old(hotReqs[..])[slot - 1 := Some(id)]
    {
      slot, taken := from, false;
      while slot < end && !taken
        invariant Valid() && kvBuffer[..] == old(kvBuffer[..])
        invariant !taken ==> hotReqs[..] == old(hotReqs[..]) && id !in req2slot
        invariant !taken ==> FirstFree(old(hotReqs[..]), from, end) == FirstFree(old(hotReqs[..]), slot, end)
        invariant taken ==> 0 < slot <= end && FirstFree(old(hotReqs[..]), from, end) == Some(slot - 1)
        invariant taken ==> hotReqs[..] == old(hotReqs[..])[slot - 1 := Some(id)]
      {
        if slotAvailability[slot] {
          Occupy(id, slot);
          taken := true;
        }
        slot := slot + 1;
      }
    }

    function StartAndEnd(): (r: (nat, nat))
      reads this, slotHandle
      requires slotHandle != null ==> slotHandle.Valid() && slotHandle.slotIdx < slotHandle.numSlots
      ensures slotHandle != null ==>
        r == (Lo(slotHandle.slotsSize, slotHandle.slotIdx), Lo(slotHandle.slotsSize, slotHandle.slotIdx + 1))
      ensures slotHandle == null ==> r == (0, numHotReq)
    {
      if slotHandle != null then
        (slotHandle.slotStartIdx[slotHandle.slotIdx], slotHandle.slotEndIdx[slotHandle.slotIdx])
      else (0, numHotReq)
    }

    method Occupy(id: TaskId, slot: nat)
      requires Valid() && slot < numHotReq && slotAvailability[slot] && id !in req2slot
      modifies this`req2slot, slotAvailability, hotReqs
      ensures Valid() && kvBuffer[..] == old(kvBuffer[..]) && hotReqs[..] == old(hotReqs[..])[slot := Some(id)]
    {
      req2slot := req2slot[id := slot];
      slotAvailability[slot] := false;
      hotReqs[slot] := Some(id);
    }

    /** `prepare_cache_prefill`: slots for the new requests of the batch, and the start of the slice the
        model is given. It fails exactly when a slot is missing or the slice leaves the buffer. */
    method PrepareCachePrefill(ids: seq<TaskId>) returns (ok: bool, startPos: nat)
      requires Valid() && ids != []
      requires slotHandle != null ==> slotHandle.slotIdx < slotHandle.numSlots
      modifies this`req2slot, slotAvailability, hotReqs
      ensures Valid() && kvBuffer[..] == old(kvBuffer[..]) && StartAndEnd().1 <= numHotReq
      ensures ok ==> Allocate(old(hotReqs[..]), ids, StartAndEnd().0, StartAndEnd().1) == Some(hotReqs[..])
      ensures ok ==> Some(ids[0]) in hotReqs[..] && startPos == SlotOf(hotReqs[..], ids[0])
      ensures ok ==> startPos + |ids| <= numHotReq
      ensures !ok ==>
        var r := Allocate(old(hotReqs[..]), ids, StartAndEnd().0, StartAndEnd().1);
        r.None? || (r == Some(hotReqs[..]) && Some(ids[0]) in hotReqs[..]
          && SlotOf(hotReqs[..], ids[0]) + |ids| > numHotReq)
    {
      var (start, end) := StartAndEnd();
      if slotHandle != null {
        LoMono(slotHandle.slotsSize, slotHandle.slotIdx + 1, slotHandle.numSlots);
      }
      ok, startPos := false, 0;
      ghost var goal := Allocate(hotReqs[..], ids, start, end);
      var cursor := start;
      assert ids[0..] == ids;
      for it := 0 to |ids|
        invariant Valid() && kvBuffer[..] == old(kvBuffer[..])
        invariant Allocate(hotReqs[..], ids[it..], cursor, end) == goal
      {
        var id := ids[it];
        assert ids[it..][0] == id && ids[it..][1..] == ids[it + 1..];
        HotIffMapped(id);
        if id !in req2slot {
          var taken;
          cursor, taken := TakeSlot(id, cursor, end);
          if !taken {
            return;
          }
        }
      }
      assert ids[|ids|..] == [];
      AllocatedHot(old(hotReqs[..]), ids, start, end, 0);
      HotIffMapped(ids[0]);
      startPos := req2slot[ids[0]];
      OnlySlot(ids[0]);
      ok := startPos + |ids| <= numHotReq;
    }

    lemma OnlySlot(id: TaskId)
      requires Valid() && id in req2slot
      ensures Some(id) in hotReqs[..] && SlotOf(hotReqs[..], id) == req2slot[id]
    {
      HotIffMapped(id);
      assert hotReqs[SlotOf(hotReqs[..], id)] == Some(id);
    }

    /** `prepare_cache_decode`: the slice starts at the front of the range. */
    method PrepareCacheDecode(ids: seq<TaskId>) returns (ok: bool, startPos: nat)
      requires Valid() && (slotHandle != null ==> slotHandle.slotIdx < slotHandle.numSlots)
      ensures startPos == StartAndEnd().0 && (ok <==> startPos + |ids| <= numHotReq)
    {
      var (start, _) := StartAndEnd();
      startPos := start;
      ok := startPos + |ids| <= numHotReq;
    }

    /** Moves the row of the last occupied slot into the hole, or just clears the hole. */
    method Vacate(id: TaskId, k: nat, last: Option<nat>)
      requires Valid() && k < numHotReq && hotReqs[k] == Some(id)
      requires last.Some? ==> k < last.value < numHotReq && hotReqs[last.value].Some?
      modifies this`req2slot, slotAvailability, hotReqs, kvBuffer
      ensures Valid()
      ensures |old(Abs()).hot| == |old(Abs()).rows| && Abs() == Moved(old(Abs()), k, last, maxSeqLen)
    {
      match last
      case None => ClearSlot(id, k);
      case Some(j) => MoveSlot(id, k, j);
    }

    method ClearSlot(id: TaskId, k: nat)
      requires Valid() && k < numHotReq && hotReqs[k] == Some(id)
      modifies this`req2slot, slotAvailability, hotReqs, kvBuffer
      ensures Valid()
      ensures |old(Abs()).hot| == |old(Abs()).rows| && Abs() == Moved(old(Abs()), k, None, maxSeqLen)
    {
      hotReqs[k] := None;
      slotAvailability[k] := true;
      req2slot := req2slot - {id};
      kvBuffer[k] := Zeros(maxSeqLen);
    }

    method MoveSlot(id: TaskId, k: nat, j: nat)
      requires Valid() && k < j < numHotReq && hotReqs[k] == Some(id) && hotReqs[j].Some?
      modifies this`req2slot, slotAvailability, hotReqs, kvBuffer
      ensures Valid()
      ensures |old(Abs()).hot| == |old(Abs()).rows| && Abs() == Moved(old(Abs()), k, Some(j), maxSeqLen)
    {
      kvBuffer[k] := kvBuffer[j];
      assert hotReqs[j].value in req2slot && req2slot[hotReqs[j].value] == j;
      if key :| key in req2slot && req2slot[key] == j {
        req2slot := req2slot[key := k];
        hotReqs[k] := Some(key);
      }
      hotReqs[j] := None;
      slotAvailability[j] := true;
      if id in req2slot {
        req2slot := req2slot - {id};
      }
      kvBuffer[j] := Zeros(maxSeqLen);
    }

    /** `finalize_cache_all_decode`. With a slot handle it compacts the range of the request's own group,
        without one the whole buffer. */
    method FinalizeCacheAllDecode(id: TaskId)
      requires Valid()
      modifies this`req2slot, slotAvailability, hotReqs, kvBuffer
      ensures Valid()
      ensures slotHandle != null ==> Abs() == FreeIn(old(Abs()), slotHandle.slotsSize, id, maxSeqLen)
      ensures slotHandle == null ==> Abs() == FreeUnhandled(old(Abs()), id, maxSeqLen)
    {
      hide Moved, EndOf, LastOccupied, RunEnd;
      var k := FindSlot(id);
      if k == numHotReq {
        return;
      }
      var last := FindLast(k);
      Vacate(id, k, last);
    }

    /** The slot whose row moves into the hole k. */
    method FindLast(k: nat) returns (last: Option<nat>)
      requires Valid() && k < numHotReq
      ensures last.Some? ==> k < last.value < numHotReq && hotReqs[last.value].Some?
      ensures slotHandle != null ==> EndOf(slotHandle.slotsSize, k) <= numHotReq
      ensures slotHandle != null ==> last == LastOccupied(hotReqs[..], k + 1, EndOf(slotHandle.slotsSize, k))
      ensures slotHandle == null ==> last == RunEnd(hotReqs[..], k + 1)
    {
      hide EndOf, LastOccupied, RunEnd;
      if slotHandle != null {
        EndInside(slotHandle.slotsSize, k);
        var end := slotHandle.EndBehind(k);
        last := LastBusy(k + 1, end);
      } else {
        last := RunEndBusy(k + 1);
      }
    }

    /** `hot_reqs.index`, or the number of slots. */
    method FindSlot(id: TaskId) returns (k: nat)
      requires Valid()
      ensures k <= numHotReq && (k == numHotReq <==> Some(id) !in hotReqs[..])
      ensures k < numHotReq ==> hotReqs[k] == Some(id) && SlotOf(hotReqs[..], id) == k
    {
      k := 0;
      while k < numHotReq && hotReqs[k] != Some(id)
        invariant k <= numHotReq && forall i :: 0 <= i < k ==> hotReqs[i] != Some(id)
      {
        k := k + 1;
      }
      if k < numHotReq {
        assert hotReqs[..][k] == Some(id);
      }
    }

    /** The backwards search for an occupied slot. */
    method LastBusy(lo: nat, hi: nat) returns (last: Option<nat>)
      requires Valid() && hi <= numHotReq
      ensures last == LastOccupied(hotReqs[..], lo, hi)
    {
      var i := hi;
      while i > lo
        invariant 0 <= i <= hi && LastOccupied(hotReqs[..], lo, hi) == LastOccupied(hotReqs[..], lo, i)
      {
        if !slotAvailability[i - 1] {
          return Some(i - 1);
        }
        i := i - 1;
      }
      last := None;
    }

    /** The forward search for the end of a run of occupied slots. */
    method RunEndBusy(from: nat) returns (last: Option<nat>)
      requires Valid() && from <= numHotReq
      ensures last == RunEnd(hotReqs[..], from)
    {
      var i := from;
      while i < numHotReq
        invariant i <= numHotReq && RunEnd(hotReqs[..], from) == RunEnd(hotReqs[..], i)
      {
        if !slotAvailability[i] && (i + 1 >= numHotReq || slotAvailability[i + 1]) {
          return Some(i);
        }
        i := i + 1;
      }
      last := None;
    }
  }

  /** A request that was handed to the slot loop has a slot afterwards. */
  lemma {:induction false} AllocatedHot(hot: seq<Option<TaskId>>, ids: seq<TaskId>, from: nat, end: nat, i: nat)
    requires end <= |hot| && i < |ids| && Allocate(hot, ids, from, end).Some?
    ensures Some(ids[i]) in Allocate(hot, ids, from, end).value
    decreases |ids|
  {
    var first := Some(ids[0]) in hot;
    var k := if first then 0 else FirstFree(hot, from, end).value;
    var next, cursor := if first then hot else hot[k := Some(ids[0])], if first then from else k + 1;
    if i > 0 {
      AllocatedHot(next, ids[1..], cursor, end, i - 1);
    } else {
      assert !first ==> next[k] == Some(ids[0]);
      AllocateOnly(next, ids[1..], cursor, end);
    }
  }

  /** Releasing without slot ranges. */
  function FreeUnhandled(d: Dense, id: TaskId, width: nat): Dense
    requires |d.hot| == |d.rows|
  {
    if Some(id) !in d.hot then d
    else
      var k := SlotOf(d.hot, id);
      Moved(d, k, RunEnd(d.hot, k + 1), width)
  }

  /** On a packed buffer the branch without a slot handle also moves the last occupied row. */
  lemma UnhandledIsFree(d: Dense, list: seq<TaskId>, id: TaskId, width: nat)
    requires |d.hot| == |d.rows| && Packed(d.hot, 0, |d.hot|, list)
    ensures FreeUnhandled(d, id, width) == Free(d, id, |d.hot|, width)
  {
    if Some(id) in d.hot {
      RunEndIsLast(d.hot, list, SlotOf(d.hot, id) + 1);
    }
  }

  /** Without a slot handle the occupied slots stay a prefix of the buffer. */
  lemma UnhandledPacked(d: Dense, list: seq<TaskId>, j: nat, width: nat)
    requires |d.hot| == |d.rows| && DenseInv(d, width) && Packed(d.hot, 0, |d.hot|, list) && j < |list|
    ensures Packed(FreeUnhandled(d, list[j], width).hot, 0, |d.hot|, SwapRemove(list, j))
    ensures Holding(FreeUnhandled(d, list[j], width)) == Holding(d) - {list[j]}
  {
    hide DenseInv, Packed, FreeUnhandled, Holding;
    UnhandledIsFree(d, list, list[j], width);
    FreePacked(d, 0, |d.hot|, list, j, width);
    FreeKeeps(d, list[j], |d.hot|, width);
  }
}
