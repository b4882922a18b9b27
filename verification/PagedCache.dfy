/**
 The paged KV cache manager. Its methods update the free queue, the block table, the lengths and the
 block memory in place; each is proved against the value-level operations of `CacheSpec` and
 `PagedMemory`.
 */
module PagedCache {
  import opened Base
  import opened LanguageModel
  import opened CacheSpec
  import opened Ragged
  import opened BatchedLens
  import opened PagedMemory
  import opened PagedRefinement

  /** `page_ids`: the table entry of every new cell. */
  function Pages(bs: nat, rows: seq<seq<nat>>, cells: seq<Cell>): (r: seq<nat>)
    requires bs > 0 && forall c :: c in cells ==> c.row < |rows| && c.pos / bs < |rows[c.row]|
    ensures |r| == |cells| && forall j :: 0 <= j < |r| ==> r[j] == SlotAt(bs, rows[cells[j].row], cells[j].pos).page
  {
    seq(|cells|, j requires 0 <= j < |cells| && cells[j].row < |rows| && cells[j].pos / bs < |rows[cells[j].row]| =>
      rows[cells[j].row][cells[j].pos / bs])
  }

  /** `offs_in_page`. */
  function Offs(bs: nat, cells: seq<Cell>): (r: seq<nat>)
    requires bs > 0
    ensures |r| == |cells| && forall j :: 0 <= j < |r| ==> r[j] == cells[j].pos % bs
  {
    seq(|cells|, j requires 0 <= j < |cells| => cells[j].pos % bs)
  }

  class PagedKVCacheManager {
    const blockSize: nat
    const maxBlocksPerReq: nat
    const useCudaGraph: bool
    const numBlocks: nat
    const kv: array2<Kv>
    const seqLenDelta: BatchedSeqLenDelta
    var freeBlocks: seq<nat>
    var blockTable: map<TaskId, seq<nat>>
    var seqLens: map<TaskId, nat>
    var gpuTable: seq<seq<nat>>
    var pageIdsOk: bool
    var pageIds: seq<nat>
    var offsOk: bool
    var offs: seq<nat>

    ghost function Repr(): set<object> {
      {this, kv} + seqLenDelta.Repr()
    }

    ghost function Abs(): Cache
      reads this
    {
      Cache(blockSize, numBlocks, freeBlocks, blockTable, seqLens)
    }

    ghost function Memory(): Mem
      reads kv
    {
      map page, off | 0 <= page < kv.Length0 && 0 <= off < kv.Length1 :: Slot(page, off) := kv[page, off]
    }

    /** The cells of the current batch and the slots the device block table gives them. */
    ghost function NewCells(): seq<Cell>
      reads seqLenDelta.prev, seqLenDelta.next
      requires Grows(seqLenDelta.prev.lensList, seqLenDelta.next.lensList)
    {
      Cells(seqLenDelta.prev.lensList, seqLenDelta.next.lensList, 0)
    }

    ghost predicate InTable(cells: seq<Cell>)
      reads this
    {
      blockSize > 0 && forall c :: c in cells ==> c.row < |gpuTable| && c.pos / blockSize < |gpuTable[c.row]|
    }

    /** A cached page or offset list is never stale. */
    ghost predicate Valid()
      reads Repr()
    {
      && blockSize > 0 && kv.Length0 == numBlocks && kv.Length1 == blockSize
      && seqLenDelta.Valid()
      && (pageIdsOk ==> InTable(NewCells()) && pageIds == Pages(blockSize, gpuTable, NewCells()))
      && (offsOk ==> offs == Offs(blockSize, NewCells()))
    }

    constructor (blockSize: nat, numBlocks: nat, maxBlocksPerReq: nat, useCudaGraph: bool)
      requires blockSize > 0
      ensures Valid() && fresh(Repr())
      ensures Abs() == Cache(blockSize, numBlocks, Range(numBlocks), map[], map[])
    {
      this.blockSize, this.numBlocks := blockSize, numBlocks;
      this.maxBlocksPerReq, this.useCudaGraph := maxBlocksPerReq, useCudaGraph;
      kv := new Kv[numBlocks, blockSize]((i, j) => 0);
      seqLenDelta := new BatchedSeqLenDelta(true);
      freeBlocks := seq(numBlocks, i requires 0 <= i => i);
      blockTable, seqLens, gpuTable := map[], map[], [];
      pageIdsOk, pageIds, offsOk, offs := false, [], false, [];
      new;
      assert freeBlocks == Range(numBlocks);
    }

    /** `num_additional_blocks_req_need`. */
    function NumAdditionalBlocksReqNeed(id: TaskId, target: nat): (n: nat)
      requires blockSize > 0
      reads this
      ensures n == Need(Abs(), id, target)
    {
      if id in blockTable then Max(0, CeilDiv(target, blockSize) - |blockTable[id]|)
      else Max(0, CeilDiv(target, blockSize))
    }

    method GetFreeBlock() returns (o: Outcome<nat>)
      modifies this`freeBlocks
      ensures o.Raised? <==> old(freeBlocks) == []
      ensures o.Raised? ==> o.error == NoFreeBlocks && freeBlocks == old(freeBlocks)
      ensures o.Ok? ==> [o.value] + freeBlocks == old(freeBlocks)
    {
      if |freeBlocks| == 0 {
        return Raised(NoFreeBlocks);
      }
      o := Ok(freeBlocks[0]);
      freeBlocks := freeBlocks[1..];
    }

    /** The list comprehension that fetches n blocks. */
    method GetFreeBlocks(n: nat) returns (o: Outcome<seq<nat>>)
      modifies this`freeBlocks
      ensures o.Ok? <==> n <= |old(freeBlocks)|
      ensures o.Ok? ==> o.value == old(freeBlocks)[..n] && freeBlocks == old(freeBlocks)[n..]
    {
      var got: seq<nat> := [];
      for i := 0 to n
        invariant i <= |old(freeBlocks)|
        invariant got == old(freeBlocks)[..i] && freeBlocks == old(freeBlocks)[i..]
      {
        var b := GetFreeBlock();
        if b.Raised? {
          return Raised(NoFreeBlocks);
        }
        got := got + [b.value];
      }
      o := Ok(got);
    }

    /** Allocation for the requests of a batch, each up to its recorded length. */
    method Allocate(ids: seq<TaskId>) returns (o: Outcome<()>)
      requires blockSize > 0 && forall id :: id in ids ==> id in seqLens
      modifies this`freeBlocks, this`blockTable
      ensures o.Ok? <==> AllocAll(old(Abs()), ids).Ok?
      ensures o.Ok? ==> Abs() == AllocAll(old(Abs()), ids).value
    {
      ghost var start := Abs();
      for i := 0 to |ids|
        invariant seqLens == start.len
        invariant AllocAll(Abs(), ids[i..]) == AllocAll(start, ids)
      {
        var id := ids[i];
        var need := NumAdditionalBlocksReqNeed(id, seqLens[id]);
        assert ids[i..][0] == id && ids[i..][1..] == ids[i + 1..];
        ghost var before := Abs();
        var got := GetFreeBlocks(need);
        if got.Raised? {
          return Raised(NoFreeBlocks);
        }
        blockTable := blockTable[id := (if id in blockTable then blockTable[id] else []) + got.value];
        assert Take(before, id, need) == Ok(Abs());
      }
      o := Ok(());
    }

    method UpdGpuBlockTable(ids: seq<TaskId>)
      requires forall id :: id in ids ==> id in blockTable
      modifies this`gpuTable, this`pageIdsOk, this`offsOk
      ensures !pageIdsOk && !offsOk
      ensures exists w :: gpuTable == GpuTable(Abs(), ids, w) && WidthFor(ids, w)
    {
      var width: nat := maxBlocksPerReq;
      if !useCudaGraph {
        width := 0;
        for i := 0 to |ids|
          invariant forall k :: 0 <= k < i ==> |blockTable[ids[k]]| <= width
          invariant width > 0 ==> exists k :: 0 <= k < i && |blockTable[ids[k]]| == width
        {
          width := Max(width, |blockTable[ids[i]]|);
        }
      }
      gpuTable := [];
      for i := 0 to |ids|
        invariant gpuTable == GpuTable(Abs(), ids[..i], width)
      {
        gpuTable := gpuTable + [PadRow(blockTable[ids[i]], width)];
      }
      assert ids[..|ids|] == ids;
      pageIdsOk, offsOk := false, false;
      assert gpuTable == GpuTable(Abs(), ids, width) && WidthFor(ids, width);
    }

    /** The width of the device table: fixed for graphs, otherwise that of the longest row of the batch, so that
        all rows get the same length. */
    ghost predicate WidthFor(ids: seq<TaskId>, w: nat)
      requires forall id :: id in ids ==> id in blockTable
      reads this
    {
      if useCudaGraph then w == maxBlocksPerReq
      else
        && (forall i :: 0 <= i < |ids| ==> |blockTable[ids[i]]| <= w)
        && (w > 0 ==> exists i :: 0 <= i < |ids| && |blockTable[ids[i]]| == w)
    }

    /** `prepare_cache_prefill`. */
    method PrepareCachePrefill(ids: seq<TaskId>, deltas: seq<nat>, ghost grow: map<TaskId, nat>)
        returns (o: Outcome<()>)
      requires Valid() && Distinct(ids) && |deltas| == |ids|
      requires grow.Keys == Base.Ids(ids) && forall i :: 0 <= i < |ids| ==> ids[i] in grow && grow[ids[i]] == deltas[i]
      modifies this, seqLenDelta.Repr()
      ensures o.Ok? <==> Prepare(old(Abs()), ids, grow).Ok?
      ensures o.Ok? ==> Ready(old(Abs()), ids, grow)
    {
      hide Ready, Prepare, Pages, Offs, GpuTable;
      var prev, next := NextLens(ids, deltas);
      var prevLens := new BatchedSeqLen(prev, false, false, false);
      var nextLens := new BatchedSeqLen(next, false, false, false);
      seqLenDelta.CopyFrom(prevLens, nextLens);
      o := Record(ids, next, grow);
    }

    method NextLens(ids: seq<TaskId>, deltas: seq<nat>) returns (prev: seq<nat>, next: seq<nat>)
      requires |deltas| == |ids|
      ensures prev == Lens(Abs(), ids) && |next| == |ids|
      ensures forall k :: 0 <= k < |ids| ==> next[k] == prev[k] + deltas[k]
    {
      prev, next := [], [];
      for i := 0 to |ids|
        invariant |prev| == |next| == i
        invariant forall k :: 0 <= k < i ==> prev[k] == LenOf(Abs(), ids[k]) && next[k] == prev[k] + deltas[k]
      {
        var len := if ids[i] in seqLens then seqLens[ids[i]] else 0;
        prev, next := prev + [len], next + [len + deltas[i]];
      }
    }

    /** `prepare_cache_decode`. */
    method PrepareCacheDecode(ids: seq<TaskId>, ghost grow: map<TaskId, nat>) returns (o: Outcome<()>)
      requires Valid() && Distinct(ids)
      requires forall id :: id in ids ==> id in seqLens && id in blockTable
      requires grow.Keys == Base.Ids(ids) && forall i :: 0 <= i < |ids| ==> ids[i] in grow && grow[ids[i]] == 1
      modifies this, seqLenDelta.Repr()
      ensures o.Ok? <==> Prepare(old(Abs()), ids, grow).Ok?
      ensures o.Ok? ==> Ready(old(Abs()), ids, grow)
    {
      hide Ready, Prepare, Pages, Offs, GpuTable;
      var prev: seq<nat> := [];
      var next: seq<nat> := [];
      for i := 0 to |ids|
        invariant |prev| == |next| == i
        invariant forall k :: 0 <= k < i ==> prev[k] == LenOf(Abs(), ids[k]) && next[k] == prev[k] + 1
      {
        prev, next := prev + [seqLens[ids[i]]], next + [seqLens[ids[i]] + 1];
      }
      seqLenDelta.CopyFromList(prev, next);
      o := Record(ids, next, grow);
    }

    /** The state in which the model can run on a batch: lengths recorded, blocks allocated, the device
        block table and the batch lengths set up. */
    ghost predicate Ready(c: Cache, ids: seq<TaskId>, grow: map<TaskId, nat>)
      reads Repr()
    {
      && c.blockSize > 0 && Prepare(c, ids, grow) == Ok(Abs()) && Valid()
      && (exists w :: gpuTable == GpuTable(Abs(), ids, w))
      && seqLenDelta.prev.lensList == Lens(c, ids) && seqLenDelta.next.lensList == Lens(Abs(), ids)
    }

    /** Common end of both preparations: store the lengths, allocate, refresh the device table. */
    method Record(ids: seq<TaskId>, next: seq<nat>, ghost grow: map<TaskId, nat>) returns (o: Outcome<()>)
      requires blockSize > 0 && kv.Length0 == numBlocks && kv.Length1 == blockSize && seqLenDelta.Valid()
      requires Distinct(ids) && |next| == |ids| && grow.Keys == Base.Ids(ids)
      requires forall i :: 0 <= i < |ids| ==> ids[i] in grow && next[i] == LenOf(Abs(), ids[i]) + grow[ids[i]]
      requires seqLenDelta.next.lensList == next && seqLenDelta.prev.lensList == Lens(Abs(), ids)
      modifies this
      ensures o.Ok? <==> Prepare(old(Abs()), ids, grow).Ok?
      ensures o.Ok? ==> Ready(old(Abs()), ids, grow)
    {
      ghost var start := Abs();
      StoreLens(ids, next, grow);
      hide Prepare, AllocAll, Grow, GpuTable;
      assert Prepare(start, ids, grow) == AllocAll(Abs(), ids) by {
        PrepareIs(start, ids, grow);
      }
      AllocAllTable(Abs(), ids);
      o := Allocate(ids);
      if o.Ok? {
        UpdGpuBlockTable(ids);
        assert seqLenDelta.next.lensList == Lens(Abs(), ids);
      }
    }

    method StoreLens(ids: seq<TaskId>, next: seq<nat>, ghost grow: map<TaskId, nat>)
      requires Distinct(ids) && |next| == |ids| && grow.Keys == Base.Ids(ids)
      requires forall i :: 0 <= i < |ids| ==> ids[i] in grow && next[i] == LenOf(Abs(), ids[i]) + grow[ids[i]]
      modifies this`seqLens
      ensures Abs() == Grow(old(Abs()), grow)
      ensures forall i :: 0 <= i < |ids| ==> ids[i] in seqLens && seqLens[ids[i]] == next[i]
    {
      hide Grow;
      ghost var start := Abs();
      assert ids[..0] == [];
      for i := 0 to |ids|
        invariant Abs() == start.(len := seqLens)
        invariant Stored(start.len, ids, next, i, seqLens)
      {
        StoreNext(start.len, ids, next, i, seqLens);
        seqLens := seqLens[ids[i] := next[i]];
      }
      assert ids[..|ids|] == ids;
      GrowIs(start, ids, next, grow, seqLens);
    }

    /** `free_req_cache_blocks`. */
    method FreeReqCacheBlocks(id: TaskId)
      requires id in blockTable
      modifies this`freeBlocks, this`blockTable
      ensures freeBlocks == old(freeBlocks) + old(blockTable[id]) && blockTable == old(blockTable) - {id}
    {
      var blocks := blockTable[id];
      for i := 0 to |blocks|
        invariant freeBlocks == old(freeBlocks) + blocks[..i]
        invariant blockTable == old(blockTable)
      {
        freeBlocks := freeBlocks + [blocks[i]];
      }
      assert blocks[..|blocks|] == blocks;
      blockTable := blockTable - {id};
    }

    /** `finalize_cache_all_decode`. */
    method FinalizeCacheAllDecode(id: TaskId)
      requires Valid() && (id in seqLens ==> id in blockTable)
      modifies this`freeBlocks, this`blockTable, this`seqLens
      ensures Valid() && Abs() == Finalize(old(Abs()), id)
    {
      if id !in seqLens {
        return;
      }
      FreeReqCacheBlocks(id);
      seqLens := seqLens - {id};
    }

    /** The cached property `page_ids`. */
    method GetPageIds() returns (r: seq<nat>)
      requires Valid() && InTable(NewCells())
      modifies this`pageIdsOk, this`pageIds, seqLenDelta.Repr()
      ensures Valid() && SameBatch() && r == Pages(blockSize, gpuTable, NewCells())
    {
      hide SeqIds, DeltaPositionIds, Delta, Cells, Pages, Offs;
      if !pageIdsOk {
        ghost var cells := NewCells();
        var rows := seqLenDelta.GetDeltaSeqIds();
        var positions := seqLenDelta.GetDeltaPositions();
        RaggedEnumeration(seqLenDelta.prev.lensList, seqLenDelta.next.lensList);
        pageIds := LookUp(rows, positions, cells);
        pageIdsOk := true;
      }
      r := pageIds;
    }

    /** Indexing the device table with the flat ids. */
    method LookUp(rows: seq<nat>, positions: seq<int>, ghost cells: seq<Cell>) returns (pages: seq<nat>)
      requires InTable(cells) && |rows| == |positions| == |cells|
      requires forall j :: 0 <= j < |cells| ==> rows[j] == cells[j].row && positions[j] == cells[j].pos
      ensures pages == Pages(blockSize, gpuTable, cells)
    {
      pages := [];
      for j := 0 to |rows|
        invariant |pages| == j && forall i :: 0 <= i < j ==> pages[i] == Pages(blockSize, gpuTable, cells)[i]
      {
        assert cells[j] in cells;
        pages := pages + [gpuTable[rows[j]][positions[j] / blockSize]];
      }
    }

    /** The cached property `offs_in_page`. */
    method GetOffsInPage() returns (r: seq<nat>)
      requires Valid()
      modifies this`offsOk, this`offs, seqLenDelta.Repr()
      ensures Valid() && SameBatch() && r == Offs(blockSize, NewCells())
    {
      hide SeqIds, DeltaPositionIds, Delta, Cells, Pages, Offs;
      if !offsOk {
        var positions := seqLenDelta.GetDeltaPositions();
        RaggedEnumeration(seqLenDelta.prev.lensList, seqLenDelta.next.lensList);
        var os := [];
        ghost var cells := NewCells();
        for j := 0 to |positions|
          invariant |os| == j && forall i :: 0 <= i < j ==> os[i] == Offs(blockSize, cells)[i]
        {
          os := os + [positions[j] % blockSize];
        }
        offs := os;
        offsOk := true;
      }
      r := offs;
    }

    twostate predicate SameBatch()
      reads Repr()
    {
      seqLenDelta.prev.lensList == old(seqLenDelta.prev.lensList)
        && seqLenDelta.next.lensList == old(seqLenDelta.next.lensList)
    }
  }

  /** The lengths once those of the first i requests have been stored. */
  ghost predicate Stored(start: map<TaskId, nat>, ids: seq<TaskId>, next: seq<nat>, i: nat, len: map<TaskId, nat>)
    requires i <= |ids| == |next|
  {
    && len.Keys == start.Keys + Ids(ids[..i])
    && (forall k :: 0 <= k < i ==> ids[k] in len && len[ids[k]] == next[k])
    && forall id :: id in start && id !in ids[..i] ==> id in len && len[id] == start[id]
  }

  lemma StoreNext(start: map<TaskId, nat>, ids: seq<TaskId>, next: seq<nat>, i: nat, len: map<TaskId, nat>)
    requires i < |ids| == |next| && Distinct(ids) && Stored(start, ids, next, i, len)
    ensures Stored(start, ids, next, i + 1, len[ids[i] := next[i]])
  {
    assert ids[..i + 1] == ids[..i] + [ids[i]];
  }

  lemma GrowIs(c: Cache, ids: seq<TaskId>, next: seq<nat>, grow: map<TaskId, nat>, len: map<TaskId, nat>)
    requires Distinct(ids) && |next| == |ids| && grow.Keys == Ids(ids)
    requires forall i :: 0 <= i < |ids| ==> ids[i] in grow && next[i] == LenOf(c, ids[i]) + grow[ids[i]]
    requires len.Keys == c.len.Keys + Ids(ids)
    requires forall i :: 0 <= i < |ids| ==> ids[i] in len && len[ids[i]] == next[i]
    requires forall id :: id in c.len && id !in ids ==> id in len && len[id] == c.len[id]
    ensures c.(len := len) == Grow(c, grow)
  {
    forall id | id in len
      ensures len[id] == LenOf(c, id) + if id in grow then grow[id] else 0
    {
      if id in ids {
        var i :| 0 <= i < |ids| && ids[i] == id;
      } else {
        assert id !in grow;
      }
    }
  }

  lemma PrepareIs(c: Cache, ids: seq<TaskId>, grow: map<TaskId, nat>)
    requires c.blockSize > 0
    ensures Prepare(c, ids, grow) == AllocAll(Grow(c, grow), ids)
  {
  }

  lemma {:induction false} AllocAllTable(c: Cache, ids: seq<TaskId>)
    requires c.blockSize > 0
    ensures AllocAll(c, ids).Ok? ==>
      var d := AllocAll(c, ids).value;
      && (forall id :: id in ids ==> id in d.table) && (forall id :: id in c.table ==> id in d.table)
      && d.len == c.len
    decreases |ids|
  {
    if ids != [] && Need(c, ids[0], LenOf(c, ids[0])) <= |c.free| {
      AllocAllTable(Take(c, ids[0], Need(c, ids[0], LenOf(c, ids[0]))).value, ids[1..]);
    }
  }
}
