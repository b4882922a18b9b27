/**
 The block table and the block memory together denote a map from requests to sequences of KV entries,
 and preparing the cache for a batch followed by a model run acts on that map as if every request had
 a memory of its own.
 */
module PagedRefinement {
  import opened Base
  import opened LanguageModel
  import opened CacheSpec
  import opened Ragged
  import opened PagedMemory

  /** One padded row of the device block table. */
  function PadRow(row: seq<nat>, width: nat): (r: seq<nat>)
    ensures |r| >= |row|
  {
    row + seq(Max(0, width - |row|), _ => 0)
  }

  /** A row of the device table is the block table of its request, with zeros behind it. */
  lemma TableRowAt(c: Cache, ids: seq<TaskId>, width: nat, i: nat, k: nat)
    requires i < |ids| && k < |GpuTable(c, ids, width)[i]|
    ensures |GpuTable(c, ids, width)[i]| == Max(width, |BlocksOf(c, ids[i])|)
    ensures GpuTable(c, ids, width)[i][k] == if k < |BlocksOf(c, ids[i])| then BlocksOf(c, ids[i])[k] else 0
  {
  }

  /** `_upd_gpu_block_table`. */
  function GpuTable(c: Cache, ids: seq<TaskId>, width: nat): (r: seq<seq<nat>>)
    ensures |r| == |ids|
  {
    seq(|ids|, i requires 0 <= i < |ids| => PadRow(BlocksOf(c, ids[i]), width))
  }

  /** What the memory holds for a request. */
  function View(c: Cache, mem: Mem, id: TaskId): seq<Kv>
    requires c.blockSize > 0
  {
    ReadRow(c.blockSize, BlocksOf(c, id), mem, LenOf(c, id))
  }

  function Contents(c: Cache, mem: Mem): map<TaskId, seq<Kv>>
    requires c.blockSize > 0
  {
    map id | id in c.len :: View(c, mem, id)
  }

  /** A live position lies inside its request's own table row: the zero padding is never used for it,
      and its page exists. */
  lemma LivePosition(c: Cache, id: TaskId, p: nat)
    requires CacheInv(c) && id in c.table && p < c.len[id]
    ensures p / c.blockSize < |c.table[id]|
    ensures SlotAt(c.blockSize, c.table[id], p) == Slot(c.table[id][p / c.blockSize], p % c.blockSize)
    ensures SlotAt(c.blockSize, c.table[id], p).page < c.numBlocks
    ensures SlotAt(c.blockSize, c.table[id], p).off < c.blockSize
  {
    CeilDivCovers(p, c.len[id], c.blockSize);
    CellsInjective(c, id, p / c.blockSize, id, p / c.blockSize);
  }

  lemma TightKeys(c: Cache)
    requires Tight(c)
    ensures c.blockSize > 0 && c.table.Keys == c.len.Keys
  {
  }

  /** (request, position) -> (page, offset) is injective over all live requests. */
  lemma SlotsInjective(c: Cache, id: TaskId, p: nat, id': TaskId, q: nat)
    requires CacheInv(c) && id in c.table && p < c.len[id] && id' in c.table && q < c.len[id']
    requires SlotAt(c.blockSize, c.table[id], p) == SlotAt(c.blockSize, c.table[id'], q)
    ensures id == id' && p == q
  {
    hide SlotAt, Conserved, Tight, CeilDiv;
    TightKeys(c);
    LivePosition(c, id, p);
    LivePosition(c, id', q);
    CellsInjective(c, id, p / c.blockSize, id', q / c.blockSize);
    DivModEqual(p, q, c.blockSize);
  }

  lemma DivModEqual(p: nat, q: nat, b: nat)
    requires b > 0
    ensures p / b == q / b && p % b == q % b ==> p == q
  {
    DivBounds(p, b);
    DivBounds(q, b);
  }

  lemma PadSlot(bs: nat, row: seq<nat>, width: nat, p: nat)
    requires bs > 0
    ensures SlotAt(bs, PadRow(row, width), p) == SlotAt(bs, row, p)
  {
  }

  lemma PadRead(bs: nat, row: seq<nat>, width: nat, mem: Mem, n: nat)
    requires bs > 0
    ensures ReadRow(bs, PadRow(row, width), mem, n) == ReadRow(bs, row, mem, n)
  {
    forall p: nat | p < n
      ensures SlotAt(bs, PadRow(row, width), p) == SlotAt(bs, row, p)
    {
      PadSlot(bs, row, width, p);
    }
    ReadSame(bs, PadRow(row, width), row, mem, mem, n);
  }

  /** Rows of distinct live requests are injective and apart. */
  lemma LiveRows(c: Cache, a: TaskId, b: TaskId, w: nat)
    requires CacheInv(c) && a in c.table && b in c.table
    ensures RowInjective(c.blockSize, PadRow(c.table[a], w), c.len[a])
    ensures a != b ==> Apart(c.blockSize, PadRow(c.table[a], w), c.len[a], PadRow(c.table[b], w), c.len[b])
  {
    hide SlotAt, Conserved, CeilDiv, PadRow;
    var bs := c.blockSize;
    forall p: nat, q: nat | p < c.len[a] && q < c.len[a]
      && SlotAt(bs, PadRow(c.table[a], w), p) == SlotAt(bs, PadRow(c.table[a], w), q)
      ensures p == q
    {
      PadSlot(bs, c.table[a], w, p);
      PadSlot(bs, c.table[a], w, q);
      SlotsInjective(c, a, p, a, q);
    }
    forall p: nat, q: nat | a != b && p < c.len[a] && q < c.len[b]
      ensures SlotAt(bs, PadRow(c.table[a], w), p) != SlotAt(bs, PadRow(c.table[b], w), q)
    {
      PadSlot(bs, c.table[a], w, p);
      PadSlot(bs, c.table[b], w, q);
      if SlotAt(bs, c.table[a], p) == SlotAt(bs, c.table[b], q) {
        SlotsInjective(c, a, p, b, q);
      }
    }
  }

  /** The lengths of a batch before its new tokens. */
  ghost predicate IsBatch(c: Cache, ids: seq<TaskId>, prev: seq<nat>, next: seq<nat>, inputs: seq<seq<Token>>) {
    && CacheInv(c) && Distinct(ids) && |ids| == |prev| == |next| == |inputs|
    && forall i :: 0 <= i < |ids| ==> ids[i] in c.table && next[i] == c.len[ids[i]] && next[i] == prev[i] + |inputs[i]|
  }

  lemma BatchRows(c: Cache, ids: seq<TaskId>, prev: seq<nat>, next: seq<nat>, inputs: seq<seq<Token>>, w: nat)
    requires IsBatch(c, ids, prev, next, inputs)
    ensures Batch(c.blockSize, GpuTable(c, ids, w), prev, next, inputs)
  {
    hide RowInjective, Apart, Conserved, PadRow;
    var rows := GpuTable(c, ids, w);
    forall i | 0 <= i < |ids|
      ensures RowInjective(c.blockSize, rows[i], next[i])
    {
      LiveRows(c, ids[i], ids[i], w);
    }
    forall i, j | 0 <= i < j < |ids|
      ensures Apart(c.blockSize, rows[i], next[i], rows[j], next[j])
    {
      LiveRows(c, ids[i], ids[j], w);
    }
  }

  /** The model run over the flat batch. */
  ghost function ModelRun(lm: Lm, c: Cache, mem: Mem, ids: seq<TaskId>, prev: seq<nat>, next: seq<nat>,
      inputs: seq<seq<Token>>, w: nat): Mem
    requires IsBatch(c, ids, prev, next, inputs)
  {
    BatchRows(c, ids, prev, next, inputs, w);
    RunFrom(lm, c.blockSize, GpuTable(c, ids, w), mem, prev, next, inputs, 0)
  }

  /** The model run extends each request of the batch by its own input. */
  lemma RunScheduled(lm: Lm, c: Cache, mem: Mem, ids: seq<TaskId>, prev: seq<nat>, next: seq<nat>,
      inputs: seq<seq<Token>>, w: nat, i: nat)
    requires IsBatch(c, ids, prev, next, inputs) && i < |ids|
    ensures View(c, ModelRun(lm, c, mem, ids, prev, next, inputs, w), ids[i])
      == Extend(lm, ReadRow(c.blockSize, c.table[ids[i]], mem, prev[i]), inputs[i])
  {
    hide ReadRow, Extend, RunFrom, Conserved, SlotAt, PadRow, Batch;
    var mem' := ModelRun(lm, c, mem, ids, prev, next, inputs, w);
    BatchRows(c, ids, prev, next, inputs, w);
    RunFromSpec(lm, c.blockSize, GpuTable(c, ids, w), mem, prev, next, inputs, 0);
    PadRead(c.blockSize, c.table[ids[i]], w, mem', next[i]);
    PadRead(c.blockSize, c.table[ids[i]], w, mem, prev[i]);
  }

  /** The model run leaves every other request's entries alone. */
  lemma RunOther(lm: Lm, c: Cache, mem: Mem, ids: seq<TaskId>, prev: seq<nat>, next: seq<nat>, inputs: seq<seq<Token>>,
      w: nat, id: TaskId)
    requires IsBatch(c, ids, prev, next, inputs) && id in c.table && id !in ids
    ensures View(c, ModelRun(lm, c, mem, ids, prev, next, inputs, w), id) == View(c, mem, id)
  {
    hide ReadRow, Extend, RunFrom, Conserved, SlotAt, PadRow, Batch;
    var mem' := ModelRun(lm, c, mem, ids, prev, next, inputs, w);
    var bs, rows := c.blockSize, GpuTable(c, ids, w);
    BatchRows(c, ids, prev, next, inputs, w);
    RunFromSpec(lm, bs, rows, mem, prev, next, inputs, 0);
    forall p: nat | p < c.len[id]
      ensures Get(mem', SlotAt(bs, c.table[id], p)) == Get(mem, SlotAt(bs, c.table[id], p))
    {
      var s := SlotAt(bs, c.table[id], p);
      forall i | 0 <= i < |rows|
        ensures Outside(bs, rows[i], prev[i], next[i], s)
      {
        OtherOutside(c, ids[i], id, w, prev[i], p);
      }
      assert Untouched(bs, rows, prev, next, 0, s);
    }
    ReadSame(bs, c.table[id], c.table[id], mem', mem, c.len[id]);
  }

  lemma OtherOutside(c: Cache, a: TaskId, id: TaskId, w: nat, from: nat, p: nat)
    requires CacheInv(c) && a in c.table && id in c.table && a != id && p < c.len[id]
    ensures Outside(c.blockSize, PadRow(c.table[a], w), from, c.len[a], SlotAt(c.blockSize, c.table[id], p))
  {
    hide SlotAt, Conserved, CeilDiv, PadRow;
    forall q: nat | from <= q < c.len[a]
      ensures SlotAt(c.blockSize, PadRow(c.table[a], w), q) != SlotAt(c.blockSize, c.table[id], p)
    {
      PadSlot(c.blockSize, c.table[a], w, q);
      if SlotAt(c.blockSize, c.table[a], q) == SlotAt(c.blockSize, c.table[id], p) {
        SlotsInjective(c, a, q, id, p);
      }
    }
  }

  // ----- Cache operations and what they denote -----

  /** Growing a table row does not change what the old positions denote. */
  lemma GrownRow(c: Cache, row: seq<nat>, row': seq<nat>, mem: Mem, n: nat)
    requires c.blockSize > 0 && row <= row' && CeilDiv(n, c.blockSize) <= |row|
    ensures ReadRow(c.blockSize, row', mem, n) == ReadRow(c.blockSize, row, mem, n)
  {
    hide CeilDiv, ReadRow;
    forall p: nat | p < n
      ensures SlotAt(c.blockSize, row', p) == SlotAt(c.blockSize, row, p)
    {
      CeilDivCovers(p, n, c.blockSize);
    }
    ReadSame(c.blockSize, row', row, mem, mem, n);
  }

  ghost function Inputs(ids: seq<TaskId>, input: map<TaskId, seq<Token>>): (r: seq<seq<Token>>)
    requires forall id :: id in ids ==> id in input
    ensures |r| == |ids| && forall i :: 0 <= i < |ids| ==> r[i] == input[ids[i]]
  {
    seq(|ids|, i requires 0 <= i < |ids| && forall id :: id in ids ==> id in input => input[ids[i]])
  }

  ghost function Lens(c: Cache, ids: seq<TaskId>): (r: seq<nat>)
    ensures |r| == |ids| && forall i :: 0 <= i < |ids| ==> r[i] == LenOf(c, ids[i])
  {
    seq(|ids|, i requires 0 <= i < |ids| => LenOf(c, ids[i]))
  }

  /** A batch with the inputs and the growth it is prepared for. */
  ghost predicate Prepared(c: Cache, ids: seq<TaskId>, input: map<TaskId, seq<Token>>, grow: map<TaskId, nat>,
      d: Cache) {
    && CacheInv(c) && Distinct(ids) && input.Keys == grow.Keys == Ids(ids)
    && (forall id :: id in ids ==> id in Ids(ids) && grow[id] == |input[id]|)
    && Prepare(c, ids, grow) == Ok(d)
  }

  lemma PreparedBatch(c: Cache, ids: seq<TaskId>, input: map<TaskId, seq<Token>>, grow: map<TaskId, nat>, d: Cache)
    requires Prepared(c, ids, input, grow, d)
    ensures IsBatch(d, ids, Lens(c, ids), Lens(d, ids), Inputs(ids, input))
    ensures d.len.Keys == c.len.Keys + Ids(ids) && d.blockSize == c.blockSize
  {
    hide Conserved, NeedAll, CeilDiv;
    PrepareKeeps(c, ids, grow);
    hide Prepare;
    assert forall i :: 0 <= i < |ids| ==> ids[i] in ids && ids[i] in d.table;
  }

  lemma PreparedRow(c: Cache, ids: seq<TaskId>, input: map<TaskId, seq<Token>>, grow: map<TaskId, nat>, d: Cache,
      mem: Mem, id: TaskId)
    requires Prepared(c, ids, input, grow, d) && id in d.len
    ensures c.blockSize == d.blockSize > 0 && id in d.table
    ensures ReadRow(d.blockSize, d.table[id], mem, LenOf(c, id)) == if id in c.len then View(c, mem, id) else []
    ensures id !in ids ==> d.len[id] == LenOf(c, id)
  {
    PrepareKeeps(c, ids, grow);
    hide Prepare, Conserved, ReadRow, NeedAll, CeilDiv;
    if id in c.table {
      GrownRow(c, c.table[id], d.table[id], mem, c.len[id]);
    }
  }

  /** The refinement of one step: allocation and model run on the paged memory act on the denoted
      map exactly like extending each request of the batch separately. */
  lemma PagedStepRefines(lm: Lm, c: Cache, mem: Mem, ids: seq<TaskId>, input: map<TaskId, seq<Token>>,
      grow: map<TaskId, nat>, d: Cache, w: nat, id: TaskId)
    requires Prepared(c, ids, input, grow, d) && id in d.len
    ensures IsBatch(d, ids, Lens(c, ids), Lens(d, ids), Inputs(ids, input)) && c.blockSize == d.blockSize > 0
    ensures View(d, ModelRun(lm, d, mem, ids, Lens(c, ids), Lens(d, ids), Inputs(ids, input), w), id) ==
      var before := if id in c.len then View(c, mem, id) else [];
      if id in ids then Extend(lm, before, input[id]) else before
  {
    PreparedBatch(c, ids, input, grow, d);
    PreparedRow(c, ids, input, grow, d, mem, id);
    hide Prepare, CacheInv, ReadRow, Extend, RunFrom;
    if id in ids {
      var i :| 0 <= i < |ids| && ids[i] == id;
      RunScheduled(lm, d, mem, ids, Lens(c, ids), Lens(d, ids), Inputs(ids, input), w, i);
    } else {
      RunOther(lm, d, mem, ids, Lens(c, ids), Lens(d, ids), Inputs(ids, input), w, id);
    }
  }

  /** Releasing requests keeps what the others denote. */
  lemma FinalizeDenotes(c: Cache, mem: Mem, ids: seq<TaskId>)
    requires CacheInv(c)
    ensures FinalizeAll(c, ids).blockSize > 0
    ensures Contents(FinalizeAll(c, ids), mem) == Contents(c, mem) - Ids(ids)
  {
    hide Conserved, ReadRow;
    FinalizeAllKeeps(c, ids);
  }
}
