/**
 The block memory of the paged KV cache and what it denotes. The model writes the new entries of a
 batch cell by cell at (page id, offset in page), where the page ids come out of the zero-padded
 block table of the batch, and reads a request through its own row of that table.
 */
module PagedMemory {
  import opened Base
  import opened LanguageModel
  import opened CacheSpec
  import opened Ragged

  datatype Slot = Slot(page: nat, off: nat)

  type Mem = map<Slot, Kv>

  /** The slot of position p in a table row; behind its end a row is padded with zeros. */
  function SlotAt(bs: nat, row: seq<nat>, p: nat): Slot
    requires bs > 0
  {
    Slot(if p / bs < |row| then row[p / bs] else 0, p % bs)
  }

  function Get(mem: Mem, s: Slot): Kv {
    if s in mem then mem[s] else 0
  }

  /** The first n entries of a request, read through its row. */
  function ReadRow(bs: nat, row: seq<nat>, mem: Mem, n: nat): (r: seq<Kv>)
    requires bs > 0
    ensures |r| == n
  {
    seq(n, p requires 0 <= p => Get(mem, SlotAt(bs, row, p)))
  }

  /** Writing one new cell: its entry is computed from the entries in front of it. */
  function WriteCell(lm: Lm, bs: nat, row: seq<nat>, mem: Mem, p: nat, token: Token): Mem
    requires bs > 0
  {
    mem[SlotAt(bs, row, p) := lm.encode(ReadRow(bs, row, mem, p), token)]
  }

  /** One model run over a flat batch. */
  function WriteCells(lm: Lm, bs: nat, rows: seq<seq<nat>>, mem: Mem, cells: seq<Cell>, tokens: seq<Token>): Mem
    requires bs > 0 && |tokens| == |cells| && forall c :: c in cells ==> c.row < |rows|
    decreases |cells|
  {
    if cells == [] then mem
    else WriteCells(lm, bs, rows, WriteCell(lm, bs, rows[cells[0].row], mem, cells[0].pos, tokens[0]), cells[1..],
      tokens[1..])
  }

  lemma {:induction false} WriteConcat(lm: Lm, bs: nat, rows: seq<seq<nat>>, mem: Mem, a: seq<Cell>, s: seq<Token>,
      b: seq<Cell>, t: seq<Token>)
    requires bs > 0 && |a| == |s| && |b| == |t|
    requires (forall c :: c in a ==> c.row < |rows|) && forall c :: c in b ==> c.row < |rows|
    ensures WriteCells(lm, bs, rows, mem, a + b, s + t) ==
      WriteCells(lm, bs, rows, WriteCells(lm, bs, rows, mem, a, s), b, t)
    decreases |a|
  {
    if a == [] {
      assert a + b == b && s + t == t;
    } else {
      assert (a + b)[1..] == a[1..] + b && (s + t)[1..] == s[1..] + t;
      WriteConcat(lm, bs, rows, WriteCell(lm, bs, rows[a[0].row], mem, a[0].pos, s[0]), a[1..], s[1..], b, t);
    }
  }

  /** The positions below n of a row are stored in different slots. */
  ghost predicate RowInjective(bs: nat, row: seq<nat>, n: nat)
    requires bs > 0
  {
    forall p: nat, q: nat :: p < n && q < n && SlotAt(bs, row, p) == SlotAt(bs, row, q) ==> p == q
  }

  /** A slot that none of the positions from..to of a row uses. */
  ghost predicate Outside(bs: nat, row: seq<nat>, from: nat, to: nat, s: Slot)
    requires bs > 0
  {
    forall p: nat :: from <= p < to ==> SlotAt(bs, row, p) != s
  }

  /** Writing the new cells of one request extends what its row denotes, token by token, and touches
      no slot but those of the new positions. */
  lemma {:induction false} WriteOneRow(lm: Lm, bs: nat, rows: seq<seq<nat>>, mem: Mem, i: nat, from: nat,
      tokens: seq<Token>)
    requires bs > 0 && i < |rows| && RowInjective(bs, rows[i], from + |tokens|)
    ensures var mem' := WriteCells(lm, bs, rows, mem, RowCells(i, from, from + |tokens|), tokens);
      && ReadRow(bs, rows[i], mem', from + |tokens|) == Extend(lm, ReadRow(bs, rows[i], mem, from), tokens)
      && forall s :: Outside(bs, rows[i], from, from + |tokens|, s) ==> Get(mem', s) == Get(mem, s)
    decreases |tokens|
  {
    if tokens != [] {
      var row, cells := rows[i], RowCells(i, from, from + |tokens|);
      var one := WriteCell(lm, bs, row, mem, from, tokens[0]);
      assert cells[0] == Cell(i, from) && cells[1..] == RowCells(i, from + 1, from + |tokens|);
      ReadAfterWrite(lm, bs, row, mem, from, tokens[0]);
      hide WriteCell, ReadRow;
      WriteOneRow(lm, bs, rows, one, i, from + 1, tokens[1..]);
      var mem' := WriteCells(lm, bs, rows, mem, cells, tokens);
      assert mem' == WriteCells(lm, bs, rows, one, cells[1..], tokens[1..]);
      forall s | Outside(bs, row, from, from + |tokens|, s)
        ensures Get(mem', s) == Get(mem, s)
      {
        WriteKeeps(lm, bs, row, mem, from, tokens[0], s);
        assert Outside(bs, row, from + 1, from + |tokens|, s);
      }
    }
  }

  lemma ReadAfterWrite(lm: Lm, bs: nat, row: seq<nat>, mem: Mem, p: nat, token: Token)
    requires bs > 0 && RowInjective(bs, row, p + 1)
    ensures var kv := ReadRow(bs, row, mem, p);
      ReadRow(bs, row, WriteCell(lm, bs, row, mem, p, token), p + 1) == kv + [lm.encode(kv, token)]
  {
    hide SlotAt;
  }

  lemma WriteKeeps(lm: Lm, bs: nat, row: seq<nat>, mem: Mem, p: nat, token: Token, s: Slot)
    requires bs > 0 && s != SlotAt(bs, row, p)
    ensures Get(WriteCell(lm, bs, row, mem, p, token), s) == Get(mem, s)
  {
  }

  /** Reading depends only on the slots that are read. */
  lemma ReadSame(bs: nat, row: seq<nat>, row': seq<nat>, a: Mem, b: Mem, n: nat)
    requires bs > 0
    requires forall p: nat :: p < n ==>
      SlotAt(bs, row, p) == SlotAt(bs, row', p) && Get(a, SlotAt(bs, row, p)) == Get(b, SlotAt(bs, row, p))
    ensures ReadRow(bs, row, a, n) == ReadRow(bs, row', b, n)
  {
    hide SlotAt;
  }

  // ----- A whole batch -----

  function Flatten(inputs: seq<seq<Token>>): seq<Token> {
    if inputs == [] then [] else inputs[0] + Flatten(inputs[1..])
  }

  /** Two positions of live requests, below their own lengths, are stored in different slots. */
  ghost predicate Apart(bs: nat, a: seq<nat>, n: nat, b: seq<nat>, m: nat)
    requires bs > 0
  {
    forall p: nat, q: nat :: p < n && q < m ==> SlotAt(bs, a, p) != SlotAt(bs, b, q)
  }

  ghost predicate Batch(bs: nat, rows: seq<seq<nat>>, prev: seq<nat>, next: seq<nat>, inputs: seq<seq<Token>>)
  {
    && bs > 0 && Grows(prev, next) && |rows| == |prev| == |inputs|
    && (forall i :: 0 <= i < |rows| ==> RowInjective(bs, rows[i], next[i]) && next[i] == prev[i] + |inputs[i]|)
    && (forall i, j :: 0 <= i < j < |rows| ==> Apart(bs, rows[i], next[i], rows[j], next[j]))
  }

  lemma {:induction false} FlatLength(prev: seq<nat>, next: seq<nat>, inputs: seq<seq<Token>>, row: nat)
    requires Grows(prev, next) && |inputs| == |prev| && forall i :: 0 <= i < |prev| ==> next[i] == prev[i] + |inputs[i]|
    ensures |Cells(prev, next, row)| == |Flatten(inputs)|
    ensures forall c :: c in Cells(prev, next, row) ==> row <= c.row < row + |prev|
    decreases |prev|
  {
    if prev != [] {
      FlatLength(prev[1..], next[1..], inputs[1..], row + 1);
    }
  }

  /** The model run over the rows from `row` on. */
  ghost function RunFrom(lm: Lm, bs: nat, rows: seq<seq<nat>>, mem: Mem, prev: seq<nat>, next: seq<nat>,
      inputs: seq<seq<Token>>, row: nat): Mem
    requires Batch(bs, rows, prev, next, inputs) && row <= |rows|
  {
    FlatLength(prev[row..], next[row..], inputs[row..], row);
    WriteCells(lm, bs, rows, mem, Cells(prev[row..], next[row..], row), Flatten(inputs[row..]))
  }

  lemma RunFromStep(lm: Lm, bs: nat, rows: seq<seq<nat>>, mem: Mem, prev: seq<nat>, next: seq<nat>,
      inputs: seq<seq<Token>>, row: nat)
    requires Batch(bs, rows, prev, next, inputs) && row < |rows|
    ensures RunFrom(lm, bs, rows, mem, prev, next, inputs, row) ==
      RunFrom(lm, bs, rows, WriteCells(lm, bs, rows, mem, RowCells(row, prev[row], next[row]), inputs[row]), prev,
          next, inputs, row + 1)
  {
    FlatLength(prev[row..], next[row..], inputs[row..], row);
    FlatLength(prev[row + 1..], next[row + 1..], inputs[row + 1..], row + 1);
    assert prev[row..][1..] == prev[row + 1..] && next[row..][1..] == next[row + 1..]
      && inputs[row..][1..] == inputs[row + 1..];
    WriteConcat(lm, bs, rows, mem, RowCells(row, prev[row], next[row]), inputs[row],
      Cells(prev[row + 1..], next[row + 1..], row + 1), Flatten(inputs[row + 1..]));
  }

  /** A slot that no new cell of the rows from `row` on uses. */
  ghost predicate Untouched(bs: nat, rows: seq<seq<nat>>, prev: seq<nat>, next: seq<nat>, row: nat, s: Slot)
    requires bs > 0 && |rows| == |prev| == |next|
  {
    forall i :: row <= i < |rows| ==> Outside(bs, rows[i], prev[i], next[i], s)
  }

  /** The flat model run extends each request of the batch by its own tokens and changes nothing else. */
  lemma {:induction false} RunFromSpec(lm: Lm, bs: nat, rows: seq<seq<nat>>, mem: Mem, prev: seq<nat>, next: seq<nat>,
      inputs: seq<seq<Token>>, row: nat)
    requires Batch(bs, rows, prev, next, inputs) && row <= |rows|
    ensures var mem' := RunFrom(lm, bs, rows, mem, prev, next, inputs, row);
      && (forall s :: Untouched(bs, rows, prev, next, row, s) ==> Get(mem', s) == Get(mem, s))
      && (forall i :: row <= i < |rows| ==>
            ReadRow(bs, rows[i], mem', next[i]) == Extend(lm, ReadRow(bs, rows[i], mem, prev[i]), inputs[i]))
    decreases |rows| - row
  {
    hide SlotAt, RunFrom, Extend, ReadRow, RowCells, WriteCells;
    if row == |rows| {
      RunNothing(lm, bs, rows, mem, prev, next, inputs);
    } else {
      var mem1 := WriteCells(lm, bs, rows, mem, RowCells(row, prev[row], next[row]), inputs[row]);
      var mem' := RunFrom(lm, bs, rows, mem, prev, next, inputs, row);
      RunFromStep(lm, bs, rows, mem, prev, next, inputs, row);
      WriteOneRow(lm, bs, rows, mem, row, prev[row], inputs[row]);
      RunFromSpec(lm, bs, rows, mem1, prev, next, inputs, row + 1);
      forall s | Untouched(bs, rows, prev, next, row, s)
        ensures Get(mem', s) == Get(mem, s)
      {
        assert Untouched(bs, rows, prev, next, row + 1, s);
        assert Outside(bs, rows[row], prev[row], next[row], s);
      }
      RowSurvives(bs, rows, prev, next, inputs, row, mem1, mem');
      forall i | row < i < |rows|
        ensures ReadRow(bs, rows[i], mem1, prev[i]) == ReadRow(bs, rows[i], mem, prev[i])
      {
        OtherRowSurvives(bs, rows, prev, next, inputs, row, i, mem, mem1);
      }
    }
  }

  lemma RunNothing(lm: Lm, bs: nat, rows: seq<seq<nat>>, mem: Mem, prev: seq<nat>, next: seq<nat>,
      inputs: seq<seq<Token>>)
    requires Batch(bs, rows, prev, next, inputs)
    ensures RunFrom(lm, bs, rows, mem, prev, next, inputs, |rows|) == mem
  {
  }

  lemma RowSurvives(bs: nat, rows: seq<seq<nat>>, prev: seq<nat>, next: seq<nat>, inputs: seq<seq<Token>>, row: nat,
      a: Mem, b: Mem)
    requires Batch(bs, rows, prev, next, inputs) && row < |rows|
    requires forall s :: Untouched(bs, rows, prev, next, row + 1, s) ==> Get(b, s) == Get(a, s)
    ensures ReadRow(bs, rows[row], b, next[row]) == ReadRow(bs, rows[row], a, next[row])
  {
    hide SlotAt, ReadRow;
    forall p: nat | p < next[row]
      ensures Get(b, SlotAt(bs, rows[row], p)) == Get(a, SlotAt(bs, rows[row], p))
    {
      var s := SlotAt(bs, rows[row], p);
      forall i | row + 1 <= i < |rows|
        ensures Outside(bs, rows[i], prev[i], next[i], s)
      {
        assert Apart(bs, rows[row], next[row], rows[i], next[i]);
      }
      assert Untouched(bs, rows, prev, next, row + 1, s);
    }
    ReadSame(bs, rows[row], rows[row], b, a, next[row]);
  }

  lemma OtherRowSurvives(bs: nat, rows: seq<seq<nat>>, prev: seq<nat>, next: seq<nat>, inputs: seq<seq<Token>>,
      row: nat, i: nat, a: Mem, b: Mem)
    requires Batch(bs, rows, prev, next, inputs) && row < i < |rows|
    requires forall s :: Outside(bs, rows[row], prev[row], next[row], s) ==> Get(b, s) == Get(a, s)
    ensures ReadRow(bs, rows[i], b, prev[i]) == ReadRow(bs, rows[i], a, prev[i])
  {
    hide SlotAt, ReadRow;
    forall p: nat | p < prev[i]
      ensures Get(b, SlotAt(bs, rows[i], p)) == Get(a, SlotAt(bs, rows[i], p))
    {
      assert Apart(bs, rows[row], next[row], rows[i], next[i]);
      assert Outside(bs, rows[row], prev[row], next[row], SlotAt(bs, rows[i], p));
    }
    ReadSame(bs, rows[i], rows[i], b, a, prev[i]);
  }
}
