/**
 The length classes of a batch. Every derived tensor is cached behind an up-to-date flag (or, for the
 Python-side values, an optional cached value); `Valid` says that nothing marked as up to date is
 stale, and every getter is proved to return the freshly computed value.
 */
module BatchedLens {
  import opened Base
  import opened Ragged

  class BatchedSeqLen {
    var lensList: seq<nat>
    var lensTensor: seq<nat>
    const cachePrefix: bool
    const cachePosition: bool
    const cacheSeq: bool
    var prefixOk: bool
    var prefixTensor: seq<nat>
    var positionOk: bool
    var positionTensor: seq<int>
    var seqOk: bool
    var seqTensor: seq<nat>
    // Python-side cached properties
    var prefixList: Option<seq<nat>>
    var batchSize: Option<nat>
    var totalLen: Option<nat>
    var maxLen: Option<nat>

    ghost predicate Valid()
      reads this
    {
      && lensTensor == lensList
      && (prefixOk ==> cachePrefix && prefixTensor == PrefixLens(lensList))
      && (positionOk ==> cachePosition && positionTensor == PositionIds(lensList))
      && (seqOk ==> cacheSeq && seqTensor == SeqIds(lensList))
      && (prefixList.Some? ==> prefixList.value == PrefixLens(lensList))
      && (batchSize.Some? ==> batchSize.value == |lensList|)
      && (totalLen.Some? ==> totalLen.value == Sum(lensList))
      && (maxLen.Some? ==> maxLen == Longest(lensList))
    }

    constructor (lens: seq<nat>, cachePrefix: bool, cachePosition: bool, cacheSeq: bool)
      ensures Valid() && lensList == lens
      ensures this.cachePrefix == cachePrefix && this.cachePosition == cachePosition && this.cacheSeq == cacheSeq
    {
      lensList, lensTensor := lens, lens;
      this.cachePrefix, this.cachePosition, this.cacheSeq := cachePrefix, cachePosition, cacheSeq;
      prefixOk, positionOk, seqOk := false, false, false;
      prefixTensor, positionTensor, seqTensor := [], [], [];
      prefixList, batchSize, totalLen, maxLen := None, None, None, None;
    }

    method CopyFromList(lens: seq<nat>)
      requires Valid()
      modifies this
      ensures Valid() && lensList == lens
    {
      hide PrefixLens, PositionIds, SeqIds, Sum, Longest;
      lensList, lensTensor := lens, lens;
      if cachePrefix {
        prefixOk := false;
      }
      if cachePosition {
        positionOk := false;
      }
      if cacheSeq {
        seqOk := false;
      }
      prefixList, batchSize, totalLen, maxLen := None, None, None, None;
    }

    method CopyPrefix(other: BatchedSeqLen)
      requires other.Valid() && lensList == other.lensList && (prefixOk ==> cachePrefix)
      modifies this`prefixOk, this`prefixTensor
      ensures prefixOk ==> cachePrefix && prefixTensor == PrefixLens(lensList)
    {
      if cachePrefix {
        prefixOk := other.prefixOk;
        if prefixOk {
          prefixTensor := other.prefixTensor;
        }
      }
    }

    method CopyPosition(other: BatchedSeqLen)
      requires other.Valid() && lensList == other.lensList && (positionOk ==> cachePosition)
      modifies this`positionOk, this`positionTensor
      ensures positionOk ==> cachePosition && positionTensor == PositionIds(lensList)
    {
      if cachePosition {
        positionOk := other.positionOk;
        if positionOk {
          positionTensor := other.positionTensor;
        }
      }
    }

    method CopySeq(other: BatchedSeqLen)
      requires other.Valid() && lensList == other.lensList && (seqOk ==> cacheSeq)
      modifies this`seqOk, this`seqTensor
      ensures seqOk ==> cacheSeq && seqTensor == SeqIds(lensList)
    {
      if cacheSeq {
        seqOk := other.seqOk;
        if seqOk {
          seqTensor := other.seqTensor;
        }
      }
    }

    /** The lengths; whatever is computed on the Python side is forgotten. */
    method CopyLens(other: BatchedSeqLen)
      requires other.lensTensor == other.lensList
      modifies this`lensList, this`lensTensor, this`prefixList, this`batchSize, this`totalLen, this`maxLen
      ensures lensList == lensTensor == old(other.lensList)
      ensures prefixList.None? && batchSize.None? && totalLen.None? && maxLen.None?
    {
      lensList, lensTensor := other.lensList, other.lensTensor;
      prefixList, batchSize, totalLen, maxLen := None, None, None, None;
    }

    /** Copies the lengths together with whatever the other object, which may be this one, has already
        computed. */
    method CopyFrom(other: BatchedSeqLen)
      requires Valid() && other.Valid()
      modifies this
      ensures Valid() && lensList == old(other.lensList)
    {
      hide PrefixLens, PositionIds, SeqIds, Sum, Longest;
      CopyLens(other);
      CopyPrefix(other);
      CopyPosition(other);
      CopySeq(other);
    }

    method GetPrefixList() returns (r: seq<nat>)
      requires Valid()
      modifies this`prefixList
      ensures Valid() && r == PrefixLens(lensList)
    {
      if prefixList.None? {
        prefixList := Some(PrefixLens(lensList));
      }
      r := prefixList.value;
    }

    method GetBatchSize() returns (r: nat)
      requires Valid()
      modifies this`batchSize
      ensures Valid() && r == |lensList|
    {
      if batchSize.None? {
        batchSize := Some(|lensList|);
      }
      r := batchSize.value;
    }

    method GetTotalLen() returns (r: nat)
      requires Valid()
      modifies this`totalLen
      ensures Valid() && r == Sum(lensList)
    {
      if totalLen.None? {
        totalLen := Some(Sum(lensList));
      }
      r := totalLen.value;
    }

    /** The longest sequence; None stands for the error on an empty batch. */
    method GetMaxLen() returns (r: Option<nat>)
      requires Valid()
      modifies this`maxLen
      ensures Valid() && r == Longest(lensList)
    {
      if maxLen.None? {
        maxLen := Longest(lensList);
      }
      r := maxLen;
    }

    method GetPrefixTensor() returns (r: seq<nat>)
      requires Valid()
      modifies this`prefixOk, this`prefixTensor
      ensures Valid() && r == PrefixLens(lensList)
    {
      if cachePrefix {
        if !prefixOk {
          prefixTensor := [0] + CumSum(lensTensor, 0);
          prefixOk := true;
        }
        r := prefixTensor;
      } else {
        r := [0] + CumSum(lensTensor, 0);
      }
    }

    method ComputeSeqIds() returns (r: seq<nat>)
      requires Valid()
      modifies this`prefixOk, this`prefixTensor, this`totalLen
      ensures Valid() && r == SeqIds(lensList)
    {
      var total := GetTotalLen();
      var prefix := GetPrefixTensor();
      r := seq(total, j requires 0 <= j => SearchRight(prefix[1..], j));
    }

    method GetSeqTensor() returns (r: seq<nat>)
      requires Valid()
      modifies this`prefixOk, this`prefixTensor, this`totalLen, this`seqOk, this`seqTensor
      ensures Valid() && r == SeqIds(lensList)
    {
      if cacheSeq {
        if !seqOk {
          seqTensor := ComputeSeqIds();
          seqOk := true;
        }
        r := seqTensor;
      } else {
        r := ComputeSeqIds();
      }
    }

    method ComputePositionIds() returns (r: seq<int>)
      requires Valid()
      modifies this`prefixOk, this`prefixTensor, this`totalLen, this`seqOk, this`seqTensor
      ensures Valid() && r == PositionIds(lensList)
    {
      var total := GetTotalLen();
      var ids := GetSeqTensor();
      var prefix := GetPrefixTensor();
      r := seq(total, j requires 0 <= j < total && |ids| == total && ids[j] < |prefix| => j - prefix[ids[j]]);
    }

    method GetPositionTensor() returns (r: seq<int>)
      requires Valid()
      modifies this
      ensures Valid() && lensList == old(lensList) && r == PositionIds(lensList)
    {
      if cachePosition {
        if !positionOk {
          positionTensor := ComputePositionIds();
          positionOk := true;
        }
        r := positionTensor;
      } else {
        r := ComputePositionIds();
      }
    }
  }

  /** The lengths of a batch before and after a step. */
  class BatchedSeqLenDelta {
    const prev: BatchedSeqLen
    const next: BatchedSeqLen
    const delta: BatchedSeqLen
    var isClassic: bool
    const cacheDeltaPosition: bool
    var deltaPositionOk: bool
    var deltaPositionTensor: seq<int>

    ghost function Repr(): set<object> {
      {this, prev, next, delta}
    }

    ghost predicate Valid()
      reads this, prev, next, delta
    {
      && prev.Valid() && next.Valid() && delta.Valid()
      && prev != next && prev != delta && next != delta
      && Grows(prev.lensList, next.lensList)
      && delta.lensList == Delta(prev.lensList, next.lensList)
      && isClassic == Classic(prev.lensList, next.lensList)
      && (deltaPositionOk && cacheDeltaPosition ==>
            deltaPositionTensor == DeltaPositionIds(prev.lensList, next.lensList))
    }

    constructor (caching: bool)
      ensures Valid() && fresh(prev) && fresh(next) && fresh(delta)
      ensures prev.lensList == next.lensList == []
    {
      prev := new BatchedSeqLen([], caching, caching, caching);
      next := new BatchedSeqLen([], caching, caching, caching);
      delta := new BatchedSeqLen([], caching, false, caching);
      isClassic := true;
      cacheDeltaPosition, deltaPositionOk, deltaPositionTensor := caching, false, [];
    }

    method CopyFromList(prevLens: seq<nat>, nextLens: seq<nat>)
      requires Valid() && Grows(prevLens, nextLens)
      modifies Repr()
      ensures Valid() && prev.lensList == prevLens && next.lensList == nextLens
    {
      prev.CopyFromList(prevLens);
      next.CopyFromList(nextLens);
      delta.CopyFromList(Delta(prev.lensList, next.lensList));
      isClassic := Classic(prev.lensList, next.lensList);
      deltaPositionOk := false;
    }

    method CopyFrom(otherPrev: BatchedSeqLen, otherNext: BatchedSeqLen)
      requires Valid() && otherPrev.Valid() && otherNext.Valid()
      requires otherPrev !in Repr() && otherNext !in Repr()
      requires Grows(otherPrev.lensList, otherNext.lensList)
      modifies Repr()
      ensures Valid() && prev.lensList == otherPrev.lensList && next.lensList == otherNext.lensList
    {
      hide PrefixLens, PositionIds, SeqIds, Sum, Longest;
      prev.CopyFrom(otherPrev);
      next.CopyFrom(otherNext);
      var d := new BatchedSeqLen(Delta(prev.lensList, next.lensList), false, false, false);
      delta.CopyFrom(d);
      isClassic := Classic(prev.lensList, next.lensList);
      deltaPositionOk := false;
    }

    method GetBatchSize() returns (r: nat)
      requires Valid()
      modifies prev`batchSize, next`batchSize
      ensures Valid() && r == |prev.lensList|
    {
      r := prev.GetBatchSize();
      var other := next.GetBatchSize();
      assert other == r;
    }

    method GetDeltaTotalLen() returns (r: nat)
      requires Valid()
      modifies Repr()
      ensures Valid() && SameLens() && r == Sum(Delta(prev.lensList, next.lensList))
    {
      if isClassic {
        ClassicShortcuts(prev.lensList, next.lensList);
        r := GetBatchSize();
      } else {
        r := delta.GetTotalLen();
      }
    }

    /** The shortcut answers one for an empty batch, where the general computation is an error. */
    method GetDeltaMaxLen() returns (r: Option<nat>)
      requires Valid()
      modifies delta`maxLen
      ensures Valid()
      ensures r == if prev.lensList == [] then Some(1) else Longest(Delta(prev.lensList, next.lensList))
    {
      if isClassic {
        ClassicLongest(prev.lensList, next.lensList);
        r := Some(1);
      } else {
        r := delta.GetMaxLen();
      }
    }

    method GetDeltaPrefixList() returns (r: seq<nat>)
      requires Valid()
      modifies Repr()
      ensures Valid() && SameLens() && r == PrefixLens(Delta(prev.lensList, next.lensList))
    {
      if isClassic {
        ClassicShortcuts(prev.lensList, next.lensList);
        var n := GetBatchSize();
        r := Iota(0, n + 1);
      } else {
        r := delta.GetPrefixList();
      }
    }

    method GetDeltaSeqIds() returns (r: seq<nat>)
      requires Valid()
      modifies Repr()
      ensures Valid() && SameLens() && r == SeqIds(Delta(prev.lensList, next.lensList))
    {
      if isClassic {
        ClassicShortcuts(prev.lensList, next.lensList);
        var n := GetBatchSize();
        r := Iota(0, n);
      } else {
        r := delta.GetSeqTensor();
      }
    }

    /** The uncached computation, from the device tensors of both lengths. */
    method ComputeDeltaPositions() returns (r: seq<int>)
      requires Valid()
      modifies prev`totalLen, next`totalLen
      ensures Valid() && r == DeltaPositionIds(prev.lensList, next.lensList)
    {
      hide SeqIds, PositionIds, Longest, Classic;
      var lens := Delta(prev.lensTensor, next.lensTensor);
      var sums := CumSum(lens, 0);
      var after := next.GetTotalLen();
      var before := prev.GetTotalLen();
      SumDelta(prev.lensList, next.lensList);
      var total: nat := after - before;
      r := [];
      for j := 0 to total
        invariant Valid() && |r| == j
        invariant forall i :: 0 <= i < j ==> r[i] == DeltaPositionIds(prev.lensList, next.lensList)[i]
      {
        var k := SearchRight(sums, j);
        SearchIsRow(lens, 0, j);
        r := r + [prev.lensTensor[k] + (j - ([0] + sums)[k])];
      }
    }

    method GetDeltaPositions() returns (r: seq<int>)
      requires Valid()
      modifies Repr()
      ensures Valid() && SameLens() && r == DeltaPositionIds(prev.lensList, next.lensList)
    {
      if isClassic {
        ClassicShortcuts(prev.lensList, next.lensList);
        r := prev.lensTensor;
      } else if cacheDeltaPosition {
        if !deltaPositionOk {
          deltaPositionTensor := ComputeDeltaPositions();
          deltaPositionOk := true;
        }
        r := deltaPositionTensor;
      } else {
        r := ComputeDeltaPositions();
      }
    }

    twostate predicate SameLens()
      reads prev, next
    {
      prev.lensList == old(prev.lensList) && next.lensList == old(next.lensList)
    }
  }

  lemma {:induction false} SumDelta(prev: seq<nat>, next: seq<nat>)
    requires Grows(prev, next)
    ensures Sum(Delta(prev, next)) == Sum(next) - Sum(prev)
    decreases |prev|
  {
    if prev != [] {
      DeltaTail(prev, next);
      SumDelta(prev[1..], next[1..]);
    }
  }
}
