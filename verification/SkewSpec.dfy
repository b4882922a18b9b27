/**
 The dense (skew) cache and the group lists of its scheduler, as values. The slots of the cache are cut
 into one range per group. The scheduler keeps a list of requests per group and removes with the last;
 the cache moves the last occupied slot of a range into the hole. Nothing but the common order of the
 removals ties the two together.
 */
module SkewSpec {
  import opened Base
  import opened LanguageModel
  import opened Ragged

  type BufferRow = seq<Kv>

  /** The occupant of every slot and the buffer row of every slot. */
  datatype Dense = Dense(hot: seq<Option<TaskId>>, rows: seq<BufferRow>)

  function Zeros(n: nat): (r: BufferRow)
    ensures |r| == n
  {
    seq(n, _ => 0)
  }

  /** No request has two slots, and the row of a free slot is zero. */
  ghost predicate DenseInv(d: Dense, width: nat) {
    && |d.hot| == |d.rows|
    && (forall i, j :: 0 <= i < j < |d.hot| && d.hot[i].Some? ==> d.hot[i] != d.hot[j])
    && (forall i :: 0 <= i < |d.hot| && d.hot[i] == None ==> d.rows[i] == Zeros(width))
  }

  /** `hot_reqs.index`. */
  function SlotOf(hot: seq<Option<TaskId>>, id: TaskId): (k: nat)
    requires Some(id) in hot
    ensures k < |hot| && hot[k] == Some(id) && forall i :: 0 <= i < k ==> hot[i] != Some(id)
    decreases |hot|
  {
    if hot[0] == Some(id) then 0 else 1 + SlotOf(hot[1..], id)
  }

  /** The last occupied slot in lo..hi. */
  function LastOccupied(hot: seq<Option<TaskId>>, lo: nat, hi: nat): (r: Option<nat>)
    requires hi <= |hot|
    ensures r.Some? ==> lo <= r.value < hi && hot[r.value].Some? && forall i :: r.value < i < hi ==> hot[i] == None
    ensures r.None? ==> forall i :: lo <= i < hi ==> hot[i] == None
    decreases hi
  {
    if hi <= lo then None
    else if hot[hi - 1].Some? then Some(hi - 1)
    else LastOccupied(hot, lo, hi - 1)
  }

  /** The hole k takes over the occupant and the row of the slot `last`, if there is one; the slot that
      becomes free is cleared. */
  function Moved(d: Dense, k: nat, last: Option<nat>, width: nat): (r: Dense)
    requires k < |d.hot| == |d.rows| && (last.Some? ==> last.value < |d.hot|)
    ensures |r.hot| == |r.rows| == |d.hot|
  {
    match last
    case None => Dense(d.hot[k := None], d.rows[k := Zeros(width)])
    case Some(j) => Dense(d.hot[k := d.hot[j]][j := None], d.rows[k := d.rows[j]][j := Zeros(width)])
  }

  /** `finalize_cache_all_decode`, with the end of the range the request lies in. */
  function Free(d: Dense, id: TaskId, end: nat, width: nat): (r: Dense)
    requires |d.hot| == |d.rows| && end <= |d.hot|
    ensures |r.hot| == |r.rows| == |d.hot|
  {
    if Some(id) !in d.hot then d
    else
      var k := SlotOf(d.hot, id);
      Moved(d, k, LastOccupied(d.hot, k + 1, end), width)
  }

  /** What the cache holds for every request. */
  ghost function Holding(d: Dense): map<TaskId, BufferRow>
    requires |d.hot| == |d.rows|
  {
    map id | id in HotIds(d.hot) :: d.rows[SlotOf(d.hot, id)]
  }

  ghost function HotIds(hot: seq<Option<TaskId>>): (r: set<TaskId>)
    ensures forall id :: id in r <==> Some(id) in hot
  {
    set k | 0 <= k < |hot| && hot[k].Some? :: hot[k].value
  }

  lemma HeldAt(d: Dense, width: nat, k: nat)
    requires DenseInv(d, width) && k < |d.hot| && d.hot[k].Some?
    ensures d.hot[k].value in Holding(d) && Holding(d)[d.hot[k].value] == d.rows[k]
  {
    assert d.hot[k] in d.hot;
    assert SlotOf(d.hot, d.hot[k].value) == k;
  }

  /** Freeing a request takes exactly its entries out of the cache: everybody else's row survives,
      moved or not, and the freed slot is zero again. */
  lemma FreeKeeps(d: Dense, id: TaskId, end: nat, width: nat)
    requires |d.hot| == |d.rows| && DenseInv(d, width) && end <= |d.hot|
    ensures DenseInv(Free(d, id, end, width), width)
    ensures Holding(Free(d, id, end, width)) == Holding(d) - {id}
  {
    hide Free, DenseInv;
    var e := Free(d, id, end, width);
    FreeInv(d, id, end, width);
    if Some(id) in d.hot {
      forall other
        ensures other in Holding(e) <==> other in Holding(d) && other != id
        ensures other in Holding(e) ==> Holding(e)[other] == Holding(d)[other]
      {
        FreeOne(d, id, end, width, other);
      }
    } else {
      FreeNothing(d, id, end, width);
    }
  }

  lemma FreeNothing(d: Dense, id: TaskId, end: nat, width: nat)
    requires |d.hot| == |d.rows| && end <= |d.hot| && Some(id) !in d.hot
    ensures Free(d, id, end, width) == d && Holding(d) - {id} == Holding(d)
  {
  }

  lemma FreeInv(d: Dense, id: TaskId, end: nat, width: nat)
    requires DenseInv(d, width) && end <= |d.hot|
    ensures DenseInv(Free(d, id, end, width), width)
  {
  }

  lemma FreeOne(d: Dense, id: TaskId, end: nat, width: nat, other: TaskId)
    requires DenseInv(d, width) && end <= |d.hot| && Some(id) in d.hot && DenseInv(Free(d, id, end, width), width)
    ensures var e := Free(d, id, end, width);
      && (other in Holding(e) <==> other in Holding(d) && other != id)
      && (other in Holding(e) ==> Holding(e)[other] == Holding(d)[other])
  {
    hide Free, Moved;
    var e := Free(d, id, end, width);
    if Some(other) in d.hot && other != id {
      var j := FreeMoves(d, id, end, width, SlotOf(d.hot, other));
      HeldAt(e, width, j);
    }
    if Some(other) in e.hot {
      FreeComesFrom(d, id, end, width, SlotOf(e.hot, other));
    }
  }

  /** Where the occupant of slot i is afterwards. */
  lemma FreeMoves(d: Dense, id: TaskId, end: nat, width: nat, i: nat) returns (j: nat)
    requires DenseInv(d, width) && end <= |d.hot| && Some(id) in d.hot && i < |d.hot| && d.hot[i].Some?
    requires d.hot[i] != Some(id)
    ensures var e := Free(d, id, end, width); j < |e.hot| && e.hot[j] == d.hot[i] && e.rows[j] == d.rows[i]
  {
    j := if LastOccupied(d.hot, SlotOf(d.hot, id) + 1, end) == Some(i) then SlotOf(d.hot, id) else i;
  }

  /** Every occupant afterwards was one before, and is not the freed one. */
  lemma FreeComesFrom(d: Dense, id: TaskId, end: nat, width: nat, i: nat)
    requires DenseInv(d, width) && end <= |d.hot| && Some(id) in d.hot
    requires i < |Free(d, id, end, width).hot| && Free(d, id, end, width).hot[i].Some?
    ensures Free(d, id, end, width).hot[i] in d.hot && Free(d, id, end, width).hot[i] != Some(id)
  {
    var k := SlotOf(d.hot, id);
    var last := LastOccupied(d.hot, k + 1, end);
    assert Free(d, id, end, width).hot[i] == if last.Some? && i == k then d.hot[last.value] else d.hot[i];
  }

  // ----- Groups -----

  /** Slots lo..hi are occupied by exactly the listed requests, in order and from the front. */
  ghost predicate Packed(hot: seq<Option<TaskId>>, lo: nat, hi: nat, list: seq<TaskId>) {
    && hi <= |hot| && lo + |list| <= hi
    && (forall i :: 0 <= i < |list| ==> hot[lo + i] == Some(list[i]))
    && (forall k :: lo + |list| <= k < hi ==> hot[k] == None)
  }

  /** `sgroup[index] = sgroup[-1]; sgroup.pop()`. */
  function SwapRemove<T>(list: seq<T>, j: nat): (r: seq<T>)
    requires j < |list|
    ensures |r| == |list| - 1
  {
    list[j := list[|list| - 1]][..|list| - 1]
  }

  /** Compaction of the slots is removal with the last of the list of occupants. */
  lemma FreePacked(d: Dense, lo: nat, hi: nat, list: seq<TaskId>, j: nat, width: nat)
    requires DenseInv(d, width) && Packed(d.hot, lo, hi, list) && j < |list|
    ensures Packed(Free(d, list[j], hi, width).hot, lo, hi, SwapRemove(list, j))
    ensures forall k :: 0 <= k < |d.hot| && !(lo <= k < hi) ==>
      Free(d, list[j], hi, width).hot[k] == d.hot[k] && Free(d, list[j], hi, width).rows[k] == d.rows[k]
  {
    hide Free, Moved, Packed, SwapRemove;
    PackedRemoved(d.hot, lo, hi, list, j);
    FreeIsMove(d, lo, hi, list, j, width);
    var last := if j == |list| - 1 then None else Some(lo + |list| - 1);
    MovedOutside(d, lo, hi, lo + j, last, width);
  }

  lemma FreeIsMove(d: Dense, lo: nat, hi: nat, list: seq<TaskId>, j: nat, width: nat)
    requires DenseInv(d, width) && Packed(d.hot, lo, hi, list) && j < |list|
    ensures lo + |list| <= hi <= |d.hot|
    ensures Free(d, list[j], hi, width) ==
      Moved(d, lo + j, if j == |list| - 1 then None else Some(lo + |list| - 1), width)
  {
    PackedSlot(d, lo, hi, list, j, width);
    PackedLast(d.hot, lo, hi, list, j);
  }

  lemma MovedOutside(d: Dense, lo: nat, hi: nat, k: nat, last: Option<nat>, width: nat)
    requires |d.hot| == |d.rows| && lo <= k < hi <= |d.hot| && (last.Some? ==> lo <= last.value < hi)
    ensures var e := Moved(d, k, last, width);
      && (forall i :: 0 <= i < |d.hot| && !(lo <= i < hi) ==> e.hot[i] == d.hot[i] && e.rows[i] == d.rows[i])
      && e.hot == (if last.None? then d.hot[k := None] else d.hot[k := d.hot[last.value]][last.value := None])
  {
  }

  lemma PackedRemoved(hot: seq<Option<TaskId>>, lo: nat, hi: nat, list: seq<TaskId>, j: nat)
    requires Packed(hot, lo, hi, list) && j < |list|
    ensures lo + |list| <= hi <= |hot|
    ensures j == |list| - 1 ==> Packed(hot[lo + j := None], lo, hi, SwapRemove(list, j))
    ensures j < |list| - 1 ==>
      Packed(hot[lo + j := hot[lo + |list| - 1]][lo + |list| - 1 := None], lo, hi, SwapRemove(list, j))
  {
    var last := list[|list| - 1];
    assert hot[lo + |list| - 1] == Some(last);
  }

  lemma PackedSlot(d: Dense, lo: nat, hi: nat, list: seq<TaskId>, j: nat, width: nat)
    requires DenseInv(d, width) && Packed(d.hot, lo, hi, list) && j < |list|
    ensures Some(list[j]) in d.hot && SlotOf(d.hot, list[j]) == lo + j
  {
    assert d.hot[lo + j] == Some(list[j]);
  }

  lemma PackedLast(hot: seq<Option<TaskId>>, lo: nat, hi: nat, list: seq<TaskId>, j: nat)
    requires Packed(hot, lo, hi, list) && j < |list|
    ensures LastOccupied(hot, lo + j + 1, hi) == if j == |list| - 1 then None else Some(lo + |list| - 1)
  {
    if j < |list| - 1 {
      var last := list[|list| - 1];
      assert hot[lo + |list| - 1] == Some(last);
    }
  }

  // ----- Slot ranges -----

  function Lo(sizes: seq<nat>, g: nat): nat
    requires g <= |sizes|
  {
    StartOf(sizes, g)
  }

  /** `slot_end_idx` of the group that slot k lies in: the first range end behind k. */
  function EndOf(sizes: seq<nat>, k: nat): nat
    requires k < Sum(sizes)
  {
    Lo(sizes, Row(sizes, k) + 1)
  }

  lemma {:induction false} LoNext(sizes: seq<nat>, g: nat)
    requires g < |sizes|
    ensures Lo(sizes, g + 1) == Lo(sizes, g) + sizes[g] && Lo(sizes, g + 1) <= Sum(sizes)
    decreases g
  {
    assert StartOf(sizes, g + 1) == sizes[0] + StartOf(sizes[1..], g);
    if g > 0 {
      LoNext(sizes[1..], g - 1);
      assert Lo(sizes[1..], g) == StartOf(sizes[1..], g);
      assert Lo(sizes[1..], g - 1) == StartOf(sizes[1..], g - 1);
      assert StartOf(sizes, g) == sizes[0] + StartOf(sizes[1..], g - 1);
    }
  }

  lemma {:induction false} LoMono(sizes: seq<nat>, a: nat, b: nat)
    requires a <= b <= |sizes|
    ensures Lo(sizes, a) <= Lo(sizes, b) <= Sum(sizes)
    decreases b - a, b
  {
    if a < b {
      LoMono(sizes, a, b - 1);
      LoNext(sizes, b - 1);
    } else if b > 0 {
      LoNext(sizes, b - 1);
    }
  }

  /** The ranges of two groups do not meet, and the end found for a slot is that of its own group. */
  lemma RangesApart(sizes: seq<nat>, g: nat, k: nat)
    requires g < |sizes| && Lo(sizes, g) <= k < Lo(sizes, g + 1)
    ensures k < Sum(sizes) && Row(sizes, k) == g && EndOf(sizes, k) == Lo(sizes, g + 1)
    ensures forall h :: 0 <= h < |sizes| && h != g ==> !(Lo(sizes, h) <= k < Lo(sizes, h + 1))
  {
    LoNext(sizes, g);
    var r := Row(sizes, k);
    RowCovers(sizes, k);
    LoNext(sizes, r);
    forall h | 0 <= h < |sizes| && h != g
      ensures !(Lo(sizes, h) <= k < Lo(sizes, h + 1))
    {
      LoMono(sizes, Max(g, h), Max(g, h));
      LoMono(sizes, Min(g, h) + 1, Max(g, h));
    }
  }

  /** Freeing with the range end looked up from the slot. */
  function FreeIn(d: Dense, sizes: seq<nat>, id: TaskId, width: nat): (r: Dense)
    requires |d.hot| == |d.rows| == Sum(sizes)
    ensures |r.hot| == |r.rows| == |d.hot|
  {
    if Some(id) !in d.hot then d
    else
      EndInside(sizes, SlotOf(d.hot, id));
      Free(d, id, EndOf(sizes, SlotOf(d.hot, id)), width)
  }

  lemma EndInside(sizes: seq<nat>, k: nat)
    requires k < Sum(sizes)
    ensures k < EndOf(sizes, k) <= Sum(sizes)
  {
    RowCovers(sizes, k);
    LoNext(sizes, Row(sizes, k));
  }

  lemma FreeInKeeps(d: Dense, sizes: seq<nat>, id: TaskId, width: nat)
    requires |d.hot| == |d.rows| == Sum(sizes) && DenseInv(d, width)
    ensures DenseInv(FreeIn(d, sizes, id, width), width)
    ensures Holding(FreeIn(d, sizes, id, width)) == Holding(d) - {id}
  {
    hide DenseInv, Free;
    if Some(id) in d.hot {
      EndInside(sizes, SlotOf(d.hot, id));
      FreeKeeps(d, id, EndOf(sizes, SlotOf(d.hot, id)), width);
    } else {
      FreeNothing(d, id, 0, width);
    }
  }

  /** Freeing without slot ranges looks for the end of the first run of occupied slots behind the hole.
      On a packed cache that is the last occupied slot. */
  function RunEnd(hot: seq<Option<TaskId>>, from: nat): (r: Option<nat>)
    requires from <= |hot|
    ensures r.Some? ==> from <= r.value < |hot| && hot[r.value].Some?
    decreases |hot| - from
  {
    if from == |hot| then None
    else if hot[from].Some? && (from + 1 >= |hot| || hot[from + 1] == None) then Some(from)
    else RunEnd(hot, from + 1)
  }

  lemma {:induction false} RunEndIsLast(hot: seq<Option<TaskId>>, list: seq<TaskId>, from: nat)
    requires Packed(hot, 0, |hot|, list) && from <= |hot|
    ensures RunEnd(hot, from) == LastOccupied(hot, from, |hot|)
    decreases |hot| - from
  {
    if from < |hot| {
      RunEndIsLast(hot, list, from + 1);
      LastFrom(hot, list, from);
      LastFrom(hot, list, from + 1);
      if from < |list| {
        assert hot[0 + from] == Some(list[from]);
      }
      if from + 1 < |list| {
        assert hot[0 + (from + 1)] == Some(list[from + 1]);
      }
    }
  }

  lemma LastFrom(hot: seq<Option<TaskId>>, list: seq<TaskId>, from: nat)
    requires Packed(hot, 0, |hot|, list) && from <= |hot|
    ensures LastOccupied(hot, from, |hot|) == if from < |list| then Some(|list| - 1) else None
  {
    if from < |list| {
      var last := list[|list| - 1];
      assert hot[0 + (|list| - 1)] == Some(last);
    }
  }

  // ----- Allocation -----

  function FirstFree(hot: seq<Option<TaskId>>, from: nat, end: nat): (r: Option<nat>)
    requires end <= |hot|
    ensures r.Some? ==> from <= r.value < end && hot[r.value] == None
    ensures r.Some? ==> forall k :: from <= k < r.value ==> hot[k].Some?
    ensures r.None? ==> forall k :: from <= k < end ==> hot[k].Some?
    decreases end - from
  {
    if from >= end then None else if hot[from] == None then Some(from) else FirstFree(hot, from + 1, end)
  }

  /** The slot loop of `prepare_cache_prefill`: None where the source's assertion fails. */
  function Allocate(hot: seq<Option<TaskId>>, ids: seq<TaskId>, from: nat, end: nat): (r: Option<seq<Option<TaskId>>>)
    requires end <= |hot|
    ensures r.Some? ==> |r.value| == |hot|
    decreases |ids|
  {
    if ids == [] then Some(hot)
    else if Some(ids[0]) in hot then Allocate(hot, ids[1..], from, end)
    else
      match FirstFree(hot, from, end)
      case None => None
      case Some(k) => Allocate(hot[k := Some(ids[0])], ids[1..], k + 1, end)
  }

  /** Requests that already have a slot are passed over. */
  lemma {:induction false} AllocateSkips(hot: seq<Option<TaskId>>, had: seq<TaskId>, new_: seq<TaskId>, from: nat,
      end: nat)
    requires end <= |hot| && forall id :: id in had ==> Some(id) in hot
    ensures Allocate(hot, had + new_, from, end) == Allocate(hot, new_, from, end)
    decreases |had|
  {
    if had == [] {
      assert had + new_ == new_;
    } else {
      assert (had + new_)[0] == had[0] && (had + new_)[1..] == had[1..] + new_;
      AllocateSkips(hot, had[1..], new_, from, end);
    }
  }

  /** In a packed range new requests are packed behind the old ones, in order; no other slot changes. */
  lemma {:induction false} AllocatePacks(hot: seq<Option<TaskId>>, lo: nat, end: nat, list: seq<TaskId>,
      ids: seq<TaskId>, from: nat)
    requires Packed(hot, lo, end, list) && lo <= from <= lo + |list| && lo + |list| + |ids| <= end
    requires Distinct(ids) && forall id :: id in ids ==> Some(id) !in hot
    ensures var r := Allocate(hot, ids, from, end);
      && r.Some? && Packed(r.value, lo, end, list + ids)
      && (forall k :: 0 <= k < |hot| && !(lo <= k < end) ==> r.value[k] == hot[k])
    decreases |ids|
  {
    if ids == [] {
      assert list + ids == list;
    } else {
      PackedFree(hot, lo, end, list, from);
      var k := lo + |list|;
      var next := hot[k := Some(ids[0])];
      assert Packed(next, lo, end, list + [ids[0]]);
      forall id | id in ids[1..]
        ensures Some(id) !in next
      {
        assert id != ids[0];
        NotSet(hot, k, ids[0], id);
      }
      assert Distinct(ids[1..]);
      AllocatePacks(next, lo, end, list + [ids[0]], ids[1..], k + 1);
      assert list + [ids[0]] + ids[1..] == list + ids;
    }
  }

  lemma NotSet(hot: seq<Option<TaskId>>, k: nat, new_: TaskId, id: TaskId)
    requires k < |hot| && id != new_ && Some(id) !in hot
    ensures Some(id) !in hot[k := Some(new_)]
  {
  }

  lemma {:induction false} PackedFree(hot: seq<Option<TaskId>>, lo: nat, end: nat, list: seq<TaskId>, from: nat)
    requires Packed(hot, lo, end, list) && lo <= from <= lo + |list| < end
    ensures FirstFree(hot, from, end) == Some(lo + |list|)
    decreases lo + |list| - from
  {
    if from < lo + |list| {
      assert hot[lo + (from - lo)] == Some(list[from - lo]);
      PackedFree(hot, lo, end, list, from + 1);
    }
  }

  /** Allocation gives no request a second slot. */
  lemma {:induction false} AllocateDistinct(d: Dense, ids: seq<TaskId>, from: nat, end: nat, width: nat)
    requires DenseInv(d, width) && end <= |d.hot| && Allocate(d.hot, ids, from, end).Some?
    ensures DenseInv(Dense(Allocate(d.hot, ids, from, end).value, d.rows), width)
    ensures forall k :: 0 <= k < |d.hot| && d.hot[k].Some? ==> Allocate(d.hot, ids, from, end).value[k] == d.hot[k]
    decreases |ids|
  {
    if ids != [] {
      if Some(ids[0]) in d.hot {
        AllocateDistinct(d, ids[1..], from, end, width);
      } else {
        var k := FirstFree(d.hot, from, end).value;
        AllocateDistinct(Dense(d.hot[k := Some(ids[0])], d.rows), ids[1..], k + 1, end, width);
      }
    }
  }
}
