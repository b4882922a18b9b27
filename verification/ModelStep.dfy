/** One forward pass of the model on a prepared batch: it reads and writes the block memory only
    through the page ids, the page offsets and the device block table. */
module ModelStep {
  import opened Base
  import opened LanguageModel
  import opened CacheSpec
  import opened Ragged
  import opened PagedMemory
  import opened PagedRefinement
  import opened PagedCache

  /** Every page number in the device table exists. */
  ghost predicate PagesExist(m: PagedKVCacheManager)
    reads m
  {
    forall i, q :: 0 <= i < |m.gpuTable| && 0 <= q < |m.gpuTable[i]| ==> m.gpuTable[i][q] < m.numBlocks
  }

  /** Reads the first n entries of a row. */
  method ReadEntries(m: PagedKVCacheManager, row: nat, n: nat) returns (r: seq<Kv>)
    requires m.Valid() && PagesExist(m) && row < |m.gpuTable|
    requires n > 0 ==> (n - 1) / m.blockSize < |m.gpuTable[row]|
    ensures r == ReadRow(m.blockSize, m.gpuTable[row], m.Memory(), n)
  {
    r := [];
    for p := 0 to n
      invariant |r| == p
      invariant forall i :: 0 <= i < p ==> r[i] == ReadRow(m.blockSize, m.gpuTable[row], m.Memory(), n)[i]
    {
      DivMono(p, n - 1, m.blockSize);
      r := r + [m.kv[m.gpuTable[row][p / m.blockSize], p % m.blockSize]];
    }
  }

  lemma DivMono(a: nat, c: nat, b: nat)
    requires b > 0 && a <= c
    ensures a / b <= c / b
  {
    DivBounds(a, b);
    DivBounds(c, b);
    if c / b < a / b {
      MulLe(c / b + 1, a / b, b);
      assert false;
    }
  }

  /** Writes one entry. */
  method WriteEntry(m: PagedKVCacheManager, page: nat, off: nat, entry: Kv)
    requires m.Valid() && page < m.numBlocks && off < m.blockSize
    modifies m.kv
    ensures m.Valid() && m.Memory() == old(m.Memory())[Slot(page, off) := entry]
  {
    m.kv[page, off] := entry;
  }

  /** The forward pass over the new cells of the batch, in flat order. */
  method Forward(lm: Lm, m: PagedKVCacheManager, tokens: seq<Token>)
    requires m.Valid() && PagesExist(m) && m.InTable(m.NewCells()) && |tokens| == |m.NewCells()|
    modifies m`pageIdsOk, m`pageIds, m`offsOk, m`offs, m.seqLenDelta.Repr(), m.kv
    ensures m.Valid() && m.SameBatch()
    ensures m.Memory() == WriteCells(lm, m.blockSize, m.gpuTable, old(m.Memory()), m.NewCells(), tokens)
  {
    hide SeqIds, DeltaPositionIds, Pages, Offs, WriteCells, Cells, Delta, Sum, PrefixLens, PositionIds, Longest,
      Classic, Grows;
    ghost var start := m.Memory();
    var pages := m.GetPageIds();
    var offs := m.GetOffsInPage();
    var rows := m.seqLenDelta.GetDeltaSeqIds();
    var positions := m.seqLenDelta.GetDeltaPositions();
    RaggedEnumeration(m.seqLenDelta.prev.lensList, m.seqLenDelta.next.lensList);
    assert m.Memory() == start;
    WriteBatch(lm, m, rows, positions, pages, offs, tokens, m.NewCells());
  }

  /** The cells of a batch, flat: row, position, page and offset of each. */
  ghost predicate FlatBatch(m: PagedKVCacheManager, rows: seq<nat>, positions: seq<int>, pages: seq<nat>,
      offs: seq<nat>, cells: seq<Cell>)
    reads m
  {
    && m.InTable(cells) && |rows| == |positions| == |cells|
    && (forall j :: 0 <= j < |cells| ==> rows[j] == cells[j].row && positions[j] == cells[j].pos)
    && pages == Pages(m.blockSize, m.gpuTable, cells) && offs == Offs(m.blockSize, cells)
  }

  method WriteBatch(lm: Lm, m: PagedKVCacheManager, rows: seq<nat>, positions: seq<int>, pages: seq<nat>,
      offs: seq<nat>, tokens: seq<Token>, ghost cells: seq<Cell>)
    requires m.Valid() && PagesExist(m) && FlatBatch(m, rows, positions, pages, offs, cells) && |tokens| == |cells|
    modifies m.kv
    ensures m.Valid()
    ensures m.Memory() == WriteCells(lm, m.blockSize, m.gpuTable, old(m.Memory()), cells, tokens)
  {
    ghost var goal := WriteCells(lm, m.blockSize, m.gpuTable, m.Memory(), cells, tokens);
    assert cells[0..] == cells && tokens[0..] == tokens;
    for j := 0 to |tokens|
      invariant m.Valid()
      invariant WriteCells(lm, m.blockSize, m.gpuTable, m.Memory(), cells[j..], tokens[j..]) == goal
    {
      var c := Cell(rows[j], positions[j]);
      assert c == cells[j] && c in cells;
      WriteOne(lm, m, c, pages[j], offs[j], tokens[j]);
      assert cells[j..][0] == c && cells[j..][1..] == cells[j + 1..];
      assert tokens[j..][0] == tokens[j] && tokens[j..][1..] == tokens[j + 1..];
    }
  }

  method WriteOne(lm: Lm, m: PagedKVCacheManager, c: Cell, page: nat, off: nat, token: Token)
    requires m.Valid() && PagesExist(m) && c.row < |m.gpuTable| && c.pos / m.blockSize < |m.gpuTable[c.row]|
    requires Slot(page, off) == SlotAt(m.blockSize, m.gpuTable[c.row], c.pos)
    modifies m.kv
    ensures m.Valid() && m.Memory() == WriteCell(lm, m.blockSize, m.gpuTable[c.row], old(m.Memory()), c.pos, token)
  {
    if c.pos > 0 {
      DivMono(c.pos - 1, c.pos, m.blockSize);
    }
    var entries := ReadEntries(m, c.row, c.pos);
    WriteEntry(m, page, off, lm.encode(entries, token));
  }

  /** Sampling: the next token of every request of the batch, greedily from its own entries. */
  method Sample(lm: Lm, m: PagedKVCacheManager, lens: seq<nat>) returns (out: seq<nat>)
    requires m.Valid() && PagesExist(m) && |lens| == |m.gpuTable|
    requires forall i :: 0 <= i < |lens| && lens[i] > 0 ==> (lens[i] - 1) / m.blockSize < |m.gpuTable[i]|
    ensures |out| == |lens|
    ensures forall i :: 0 <= i < |lens| ==> out[i] == lm.next(ReadRow(m.blockSize, m.gpuTable[i], m.Memory(), lens[i]))
  {
    out := [];
    for i := 0 to |lens|
      invariant |out| == i
      invariant forall k :: 0 <= k < i ==> out[k] == lm.next(ReadRow(m.blockSize, m.gpuTable[k], m.Memory(), lens[k]))
    {
      var entries := ReadEntries(m, i, lens[i]);
      out := out + [lm.next(entries)];
    }
  }

  // ----- A prepared batch -----

  lemma BatchPages(c: Cache, ids: seq<TaskId>, prev: seq<nat>, next: seq<nat>, inputs: seq<seq<Token>>, w: nat, i: nat,
      p: nat)
    requires IsBatch(c, ids, prev, next, inputs) && i < |ids| && p < next[i]
    ensures p / c.blockSize < |GpuTable(c, ids, w)[i]|
  {
    LivePosition(c, ids[i], p);
  }

  /** Every new cell of a prepared batch has a page. */
  lemma BatchCells(c: Cache, ids: seq<TaskId>, prev: seq<nat>, next: seq<nat>, inputs: seq<seq<Token>>, w: nat)
    requires IsBatch(c, ids, prev, next, inputs)
    ensures Grows(prev, next) && |Cells(prev, next, 0)| == |Flatten(inputs)|
    ensures forall cell :: cell in Cells(prev, next, 0) ==>
      cell.row < |ids| && cell.pos / c.blockSize < |GpuTable(c, ids, w)[cell.row]|
  {
    hide GpuTable, Conserved, CeilDiv;
    FlatLength(prev, next, inputs, 0);
    CellsContents(prev, next, 0);
    forall cell | cell in Cells(prev, next, 0)
      ensures cell.row < |ids| && cell.pos / c.blockSize < |GpuTable(c, ids, w)[cell.row]|
    {
      BatchPages(c, ids, prev, next, inputs, w, cell.row, cell.pos);
    }
  }

  /** Every page in the device table of a batch exists; the padding is page 0. */
  lemma BatchTable(c: Cache, ids: seq<TaskId>, prev: seq<nat>, next: seq<nat>, inputs: seq<seq<Token>>, w: nat, i: nat,
      q: nat)
    requires IsBatch(c, ids, prev, next, inputs) && c.numBlocks > 0 && i < |ids| && q < |GpuTable(c, ids, w)[i]|
    ensures GpuTable(c, ids, w)[i][q] < c.numBlocks
  {
    if q < |c.table[ids[i]]| {
      CellsInjective(c, ids[i], q, ids[i], q);
    }
  }

  /** The flat forward pass of a prepared batch, on the denoted contents, extends each request of the
      batch by its own input. */
  lemma FlatRun(lm: Lm, c: Cache, mem: Mem, ids: seq<TaskId>, input: map<TaskId, seq<Token>>, grow: map<TaskId, nat>,
      d: Cache, w: nat)
    requires Prepared(c, ids, input, grow, d) && forall id :: id in ids ==> id in input
    ensures IsBatch(d, ids, Lens(c, ids), Lens(d, ids), Inputs(ids, input)) && c.blockSize == d.blockSize > 0
    ensures Contents(d, ModelRun(lm, d, mem, ids, Lens(c, ids), Lens(d, ids), Inputs(ids, input), w))
      == ExtendAll(lm, Contents(c, mem), ids, input)
  {
    hide Prepared, View, Extend, ModelRun, IsBatch, Inputs;
    PreparedInput(c, ids, input, grow, d);
    forall id | id in d.len
      ensures View(d, ModelRun(lm, d, mem, ids, Lens(c, ids), Lens(d, ids), Inputs(ids, input), w), id) ==
        ExtendAll(lm, Contents(c, mem), ids, input)[id]
    {
      PagedStepRefines(lm, c, mem, ids, input, grow, d, w, id);
    }
  }

  lemma PreparedInput(c: Cache, ids: seq<TaskId>, input: map<TaskId, seq<Token>>, grow: map<TaskId, nat>, d: Cache)
    requires Prepared(c, ids, input, grow, d)
    ensures forall id :: id in ids ==> id in input
    ensures IsBatch(d, ids, Lens(c, ids), Lens(d, ids), Inputs(ids, input)) && c.blockSize == d.blockSize > 0
    ensures d.len.Keys == c.len.Keys + Ids(ids)
  {
    hide Prepare, Conserved;
    PreparedBatch(c, ids, input, grow, d);
  }

  lemma ModelRunIs(lm: Lm, c: Cache, mem: Mem, ids: seq<TaskId>, prev: seq<nat>, next: seq<nat>,
      inputs: seq<seq<Token>>, w: nat)
    requires IsBatch(c, ids, prev, next, inputs)
    ensures Grows(prev, next) && |Cells(prev, next, 0)| == |Flatten(inputs)|
    ensures forall cell :: cell in Cells(prev, next, 0) ==> cell.row < |GpuTable(c, ids, w)|
    ensures ModelRun(lm, c, mem, ids, prev, next, inputs, w) ==
      WriteCells(lm, c.blockSize, GpuTable(c, ids, w), mem, Cells(prev, next, 0), Flatten(inputs))
  {
    hide WriteCells, Conserved, Flatten, Cells, GpuTable, Batch;
    BatchRows(c, ids, prev, next, inputs, w);
    BatchCells(c, ids, prev, next, inputs, w);
    assert prev[0..] == prev && next[0..] == next && inputs[0..] == inputs;
    RunFromZero(lm, c.blockSize, GpuTable(c, ids, w), mem, prev, next, inputs);
  }

  lemma RunFromZero(lm: Lm, bs: nat, rows: seq<seq<nat>>, mem: Mem, prev: seq<nat>, next: seq<nat>,
      inputs: seq<seq<Token>>)
    requires Batch(bs, rows, prev, next, inputs)
    ensures |Cells(prev, next, 0)| == |Flatten(inputs)|
    ensures forall cell :: cell in Cells(prev, next, 0) ==> cell.row < |rows|
    ensures RunFrom(lm, bs, rows, mem, prev, next, inputs, 0) ==
      WriteCells(lm, bs, rows, mem, Cells(prev, next, 0), Flatten(inputs))
  {
    hide WriteCells, Flatten, Cells, RowInjective, Apart;
    FlatLength(prev, next, inputs, 0);
    assert prev[0..] == prev && next[0..] == next && inputs[0..] == inputs;
  }

  /** The manager is set up for this batch, with device table width w. */
  ghost predicate SetUp(m: PagedKVCacheManager, c: Cache, ids: seq<TaskId>, w: nat, prev: seq<nat>)
    reads m.Repr()
  {
    && m.Valid() && m.Abs() == c && m.gpuTable == GpuTable(c, ids, w)
    && m.seqLenDelta.prev.lensList == prev && m.seqLenDelta.next.lensList == Lens(c, ids)
  }

  method ForwardBatch(lm: Lm, m: PagedKVCacheManager, tokens: seq<Token>,
      ghost c: Cache, ghost ids: seq<TaskId>, ghost w: nat, ghost prev: seq<nat>, ghost inputs: seq<seq<Token>>)
    requires SetUp(m, c, ids, w, prev) && IsBatch(c, ids, prev, Lens(c, ids), inputs) && c.numBlocks > 0
    requires tokens == Flatten(inputs)
    modifies m`pageIdsOk, m`pageIds, m`offsOk, m`offs, m.seqLenDelta.Repr(), m.kv
    ensures SetUp(m, c, ids, w, prev)
    ensures m.Memory() == ModelRun(lm, c, old(m.Memory()), ids, prev, Lens(c, ids), inputs, w)
  {
    hide Conserved, Cells, Flatten, WriteCells, ModelRun, IsBatch, Batch, GpuTable;
    TableFits(m, c, ids, w, prev, inputs);
    ModelRunIs(lm, c, m.Memory(), ids, prev, Lens(c, ids), inputs, w);
    Forward(lm, m, tokens);
  }

  lemma TableFits(m: PagedKVCacheManager, c: Cache, ids: seq<TaskId>, w: nat, prev: seq<nat>, inputs: seq<seq<Token>>)
    requires SetUp(m, c, ids, w, prev) && IsBatch(c, ids, prev, Lens(c, ids), inputs) && c.numBlocks > 0
    ensures PagesExist(m) && m.InTable(m.NewCells()) && |m.NewCells()| == |Flatten(inputs)|
    ensures forall i :: 0 <= i < |ids| && Lens(c, ids)[i] > 0 ==> (Lens(c, ids)[i] - 1) / c.blockSize < |m.gpuTable[i]|
  {
    hide GpuTable, Conserved, CeilDiv, Flatten, Cells;
    var next := Lens(c, ids);
    BatchCells(c, ids, prev, next, inputs, w);
    forall i, q | 0 <= i < |ids| && 0 <= q < |m.gpuTable[i]|
      ensures m.gpuTable[i][q] < c.numBlocks
    {
      BatchTable(c, ids, prev, next, inputs, w, i, q);
    }
    forall i | 0 <= i < |ids| && next[i] > 0
      ensures (next[i] - 1) / c.blockSize < |m.gpuTable[i]|
    {
      BatchPages(c, ids, prev, next, inputs, w, i, next[i] - 1);
    }
  }

  method SampleBatch(lm: Lm, m: PagedKVCacheManager,
      ghost c: Cache, ghost ids: seq<TaskId>, ghost w: nat, ghost prev: seq<nat>,
        ghost inputs: seq<seq<Token>>) returns (out: seq<nat>)
    requires SetUp(m, c, ids, w, prev) && IsBatch(c, ids, prev, Lens(c, ids), inputs) && c.numBlocks > 0
    ensures |out| == |ids| && c.blockSize > 0
    ensures forall i :: 0 <= i < |ids| ==> out[i] == lm.next(View(c, m.Memory(), ids[i]))
  {
    hide Conserved, Cells, Flatten, IsBatch, GpuTable, ReadRow;
    TableFits(m, c, ids, w, prev, inputs);
    out := Sample(lm, m, m.seqLenDelta.next.lensList);
    forall i | 0 <= i < |ids|
      ensures out[i] == lm.next(View(c, m.Memory(), ids[i]))
    {
      TableReads(c, ids, w, m.Memory(), i);
    }
  }

  lemma TableReads(c: Cache, ids: seq<TaskId>, w: nat, mem: Mem, i: nat)
    requires c.blockSize > 0 && i < |ids|
    ensures ReadRow(c.blockSize, GpuTable(c, ids, w)[i], mem, Lens(c, ids)[i]) == View(c, mem, ids[i])
  {
    PadRead(c.blockSize, BlocksOf(c, ids[i]), w, mem, LenOf(c, ids[i]));
  }

  /** Forward pass and sampling of a prepared batch. On the denoted contents it extends each request of
      the batch separately; the sampled tokens are the successors of the extended entries. */
  method RunPrepared(lm: Lm, m: PagedKVCacheManager, ghost ids: seq<TaskId>, tokens: seq<Token>,
      ghost c: Cache, ghost input: map<TaskId, seq<Token>>, ghost grow: map<TaskId, nat>) returns (out: seq<nat>)
    requires m.Ready(c, ids, grow) && Prepared(c, ids, input, grow, m.Abs()) && m.numBlocks > 0
    requires (forall id :: id in ids ==> id in input) && tokens == Flatten(Inputs(ids, input))
    modifies m`pageIdsOk, m`pageIds, m`offsOk, m`offs, m.seqLenDelta.Repr(), m.kv
    ensures m.Valid() && m.Abs() == old(m.Abs())
    ensures c.blockSize > 0 && m.Abs().blockSize > 0
    ensures Contents(m.Abs(), m.Memory()) == ExtendAll(lm, Contents(c, old(m.Memory())), ids, input)
    ensures |out| == |ids|
    ensures forall i :: 0 <= i < |ids| ==> out[i] == lm.next(View(m.Abs(), m.Memory(), ids[i]))
  {
    hide Conserved, Cells, Flatten, IsBatch, GpuTable, View, Contents, ModelRun, ExtendAll, Prepare, Prepared;
    ghost var d := m.Abs();
    PreparedInput(c, ids, input, grow, d);
    ghost var w: nat :| m.gpuTable == GpuTable(d, ids, w);
    FlatRun(lm, c, m.Memory(), ids, input, grow, d, w);
    ForwardBatch(lm, m, tokens, d, ids, w, Lens(c, ids), Inputs(ids, input));
    out := SampleBatch(lm, m, d, ids, w, Lens(c, ids), Inputs(ids, input));
  }
}
