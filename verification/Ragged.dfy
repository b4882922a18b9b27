/**
 Index arithmetic of a ragged batch. A batch of sequences with lengths `lens` is stored flat; the
 sequence id of a flat position is found by searching the prefix sums, its position inside the
 sequence by subtracting them. `BatchedLens` holds the classes that cache these values.
 */
module Ragged {
  import opened Base

  function Sum(lens: seq<nat>): nat {
    if lens == [] then 0 else lens[0] + Sum(lens[1..])
  }

  /** `torch.cumsum` continued from `start`. */
  function CumSum(lens: seq<nat>, start: nat): (r: seq<nat>)
    ensures |r| == |lens|
    decreases |lens|
  {
    if lens == [] then [] else [start + lens[0]] + CumSum(lens[1..], start + lens[0])
  }

  /** `prefix_lens`: the prefix sums with a leading zero. */
  function PrefixLens(lens: seq<nat>): (r: seq<nat>)
    ensures |r| == |lens| + 1
  {
    [0] + CumSum(lens, 0)
  }

  /** `torch.searchsorted(a, x, right=True)` on a sorted `a`: the first index whose value exceeds x. */
  function SearchRight(a: seq<nat>, x: nat): (k: nat)
    ensures k <= |a|
    decreases |a|
  {
    if a == [] || x < a[0] then 0 else 1 + SearchRight(a[1..], x)
  }

  /** `seq_ids_tensor_device`. */
  function SeqIds(lens: seq<nat>): (r: seq<nat>)
    ensures |r| == Sum(lens)
  {
    seq(Sum(lens), j requires 0 <= j => SearchRight(PrefixLens(lens)[1..], j))
  }

  /** `position_ids_tensor_device`. */
  function PositionIds(lens: seq<nat>): (r: seq<int>)
    ensures |r| == Sum(lens)
  {
    seq(Sum(lens), j requires 0 <= j < Sum(lens) => j - PrefixLens(lens)[SearchRight(PrefixLens(lens)[1..], j)])
  }

  ghost predicate Grows(prev: seq<nat>, next: seq<nat>) {
    |prev| == |next| && forall i :: 0 <= i < |prev| ==> prev[i] <= next[i]
  }

  /** The per-sequence number of new tokens. */
  function Delta(prev: seq<nat>, next: seq<nat>): (r: seq<nat>)
    requires Grows(prev, next)
    ensures |r| == |prev| && forall i :: 0 <= i < |prev| ==> r[i] == next[i] - prev[i]
  {
    seq(|prev|, i requires 0 <= i < |prev| && Grows(prev, next) => next[i] - prev[i])
  }

  /** `_delta_position_ids_tensor_device_impl`: the absolute position of every new token. */
  function DeltaPositionIds(prev: seq<nat>, next: seq<nat>): (r: seq<int>)
    requires Grows(prev, next)
    ensures |r| == Sum(Delta(prev, next))
  {
    var d := Delta(prev, next);
    seq(Sum(d), j requires 0 <= j < Sum(d) =>
      var k := SearchRight(CumSum(d, 0), j);
      SearchIsRow(d, 0, j);
      prev[k] + (j - PrefixLens(d)[k]))
  }

  // ----- Rows counted directly -----

  /** The row of flat position j, found by walking over the rows. */
  function Row(lens: seq<nat>, j: nat): (k: nat)
    requires j < Sum(lens)
    ensures k < |lens|
    decreases |lens|
  {
    if j < lens[0] then 0 else 1 + Row(lens[1..], j - lens[0])
  }

  /** The flat position at which row k starts. */
  function StartOf(lens: seq<nat>, k: nat): nat
    requires k <= |lens|
    decreases |lens|
  {
    if k == 0 then 0 else lens[0] + StartOf(lens[1..], k - 1)
  }

  lemma {:induction false} RowCovers(lens: seq<nat>, j: nat)
    requires j < Sum(lens)
    ensures StartOf(lens, Row(lens, j)) <= j < StartOf(lens, Row(lens, j)) + lens[Row(lens, j)]
    decreases |lens|
  {
    if j >= lens[0] {
      RowCovers(lens[1..], j - lens[0]);
    }
  }

  /** Searching the prefix sums finds the row. */
  lemma {:induction false} SearchIsRow(lens: seq<nat>, start: nat, j: nat)
    requires j < Sum(lens)
    ensures SearchRight(CumSum(lens, start), start + j) == Row(lens, j)
    decreases |lens|
  {
    var sums := CumSum(lens, start);
    assert sums[0] == start + lens[0] && sums[1..] == CumSum(lens[1..], start + lens[0]);
    if j >= lens[0] {
      SearchIsRow(lens[1..], start + lens[0], j - lens[0]);
    }
  }

  lemma {:induction false} CumSumIsStart(lens: seq<nat>, start: nat, k: nat)
    requires k < |lens|
    ensures CumSum(lens, start)[k] == start + StartOf(lens, k + 1)
    decreases |lens|
  {
    if k > 0 {
      CumSumIsStart(lens[1..], start + lens[0], k - 1);
    }
  }

  lemma PrefixIsStart(lens: seq<nat>, k: nat)
    requires k <= |lens|
    ensures PrefixLens(lens)[k] == StartOf(lens, k)
    ensures PrefixLens(lens)[1..] == CumSum(lens, 0)
  {
    if k > 0 {
      CumSumIsStart(lens, 0, k - 1);
    }
  }

  /** Flat ids and positions invert each other: position j is cell (id, position) of the batch. */
  lemma FlatIds(lens: seq<nat>, j: nat)
    requires j < Sum(lens)
    ensures SeqIds(lens)[j] == Row(lens, j)
    ensures 0 <= PositionIds(lens)[j] < lens[Row(lens, j)]
    ensures StartOf(lens, SeqIds(lens)[j]) + PositionIds(lens)[j] == j
  {
    PrefixIsStart(lens, Row(lens, j));
    SearchIsRow(lens, 0, j);
    RowCovers(lens, j);
  }

  // ----- The enumeration the ids stand for -----

  /** A sequence of the batch and a position in it. */
  datatype Cell = Cell(row: nat, pos: nat)

  function RowCells(row: nat, from: nat, to: nat): (r: seq<Cell>)
    requires from <= to
    ensures |r| == to - from
    ensures forall k :: 0 <= k < |r| ==> r[k] == Cell(row, from + k)
  {
    seq(to - from, k requires 0 <= k => Cell(row, from + k))
  }

  /** All pairs (i, p) with prev[i] <= p < next[i], row by row and ascending in each row. */
  function Cells(prev: seq<nat>, next: seq<nat>, row: nat): (r: seq<Cell>)
    requires Grows(prev, next)
    decreases |prev|
  {
    if prev == [] then []
    else RowCells(row, prev[0], next[0]) + Cells(prev[1..], next[1..], row + 1)
  }

  lemma DeltaTail(prev: seq<nat>, next: seq<nat>)
    requires Grows(prev, next) && prev != []
    ensures Grows(prev[1..], next[1..]) && Delta(prev, next)[1..] == Delta(prev[1..], next[1..])
    ensures Sum(Delta(prev, next)) == next[0] - prev[0] + Sum(Delta(prev[1..], next[1..]))
  {
  }

  lemma {:induction false} CellsAt(prev: seq<nat>, next: seq<nat>, row: nat, j: nat)
    requires Grows(prev, next) && j < Sum(Delta(prev, next))
    ensures j < |Cells(prev, next, row)|
    ensures var d := Delta(prev, next);
      var k := Row(d, j);
      Cells(prev, next, row)[j].row == row + k && Cells(prev, next, row)[j].pos == prev[k] + j - StartOf(d, k)
    decreases |prev|
  {
    DeltaTail(prev, next);
    hide Sum, Delta;
    var first := next[0] - prev[0];
    if j >= first {
      CellsAt(prev[1..], next[1..], row + 1, j - first);
    }
  }

  lemma {:induction false} CellsLength(prev: seq<nat>, next: seq<nat>, row: nat)
    requires Grows(prev, next)
    ensures |Cells(prev, next, row)| == Sum(Delta(prev, next))
    decreases |prev|
  {
    if prev != [] {
      DeltaTail(prev, next);
      CellsLength(prev[1..], next[1..], row + 1);
    }
  }

  /** The searched ids enumerate exactly the new cells, in lexicographic order, empty rows included. */
  lemma RaggedEnumeration(prev: seq<nat>, next: seq<nat>)
    requires Grows(prev, next)
    ensures var cells := Cells(prev, next, 0);
      && |SeqIds(Delta(prev, next))| == |DeltaPositionIds(prev, next)| == |cells|
      && forall j :: 0 <= j < |cells| ==>
           SeqIds(Delta(prev, next))[j] == cells[j].row && DeltaPositionIds(prev, next)[j] == cells[j].pos
  {
    CellsLength(prev, next, 0);
    var d := Delta(prev, next);
    forall j | 0 <= j < |Cells(prev, next, 0)|
      ensures SeqIds(d)[j] == Cells(prev, next, 0)[j].row
      ensures DeltaPositionIds(prev, next)[j] == Cells(prev, next, 0)[j].pos
    {
      CellsAt(prev, next, 0, j);
      SearchIsRow(d, 0, j);
      PrefixIsStart(d, Row(d, j));
      RowCovers(d, j);
    }
  }

  /** What the enumeration contains: each pair of a row and a new position exactly once, in order. */
  lemma {:induction false} CellsContents(prev: seq<nat>, next: seq<nat>, row: nat)
    requires Grows(prev, next)
    ensures forall c :: c in Cells(prev, next, row) <==>
      row <= c.row < row + |prev| && prev[c.row - row] <= c.pos < next[c.row - row]
    ensures forall j, k :: 0 <= j < k < |Cells(prev, next, row)| ==>
      Before(Cells(prev, next, row)[j], Cells(prev, next, row)[k])
    decreases |prev|
  {
    if prev != [] {
      CellsContents(prev[1..], next[1..], row + 1);
      var first, rest := RowCells(row, prev[0], next[0]), Cells(prev[1..], next[1..], row + 1);
      forall c
        ensures c in Cells(prev, next, row) <==>
          row <= c.row < row + |prev| && prev[c.row - row] <= c.pos < next[c.row - row]
      {
        InRow(c, row, prev[0], next[0]);
      }
      forall j, k | 0 <= j < k < |first| + |rest|
        ensures Before((first + rest)[j], (first + rest)[k])
      {
        if j < |first| <= k {
          assert rest[k - |first|] in rest;
        }
      }
    }
  }

  lemma InRow(c: Cell, row: nat, from: nat, to: nat)
    requires from <= to
    ensures c in RowCells(row, from, to) <==> c.row == row && from <= c.pos < to
  {
    if c.row == row && from <= c.pos < to {
      assert RowCells(row, from, to)[c.pos - from] == c;
    }
  }

  ghost predicate Before(a: Cell, b: Cell) {
    a.row < b.row || (a.row == b.row && a.pos < b.pos)
  }

  // ----- Classic decoding -----

  /** `is_classic_decoding`: every sequence was non-empty and gains exactly one token. */
  predicate Classic(prev: seq<nat>, next: seq<nat>) {
    |prev| == |next| && forall i :: 0 <= i < |prev| ==> prev[i] > 0 && next[i] == prev[i] + 1
  }

  /** Classic means: nobody starts empty, and there is exactly one new cell in each row, behind its old ones. */
  lemma ClassicCells(prev: seq<nat>, next: seq<nat>)
    requires Grows(prev, next)
    ensures Classic(prev, next) <==>
      0 !in prev && Delta(prev, next) == Ones(|prev|)
  {
  }

  function Iota(from: nat, n: nat): (r: seq<nat>)
    ensures |r| == n && forall i :: 0 <= i < n ==> r[i] == from + i
  {
    seq(n, i requires 0 <= i => from + i)
  }

  function Ones(n: nat): (r: seq<nat>)
    ensures |r| == n && forall i :: 0 <= i < n ==> r[i] == 1
  {
    seq(n, _ => 1)
  }

  lemma {:induction false} OnesRows(n: nat, k: nat)
    requires k <= n
    ensures Sum(Ones(n)) == n && StartOf(Ones(n), k) == k && (k < n ==> Row(Ones(n), k) == k)
    decreases n
  {
    if n > 0 {
      assert Ones(n)[1..] == Ones(n - 1);
      OnesRows(n - 1, if k == 0 then 0 else k - 1);
    }
  }

  /** In classic decoding the shortcuts equal the general computation. */
  lemma ClassicShortcuts(prev: seq<nat>, next: seq<nat>)
    requires Classic(prev, next)
    ensures Grows(prev, next)
    ensures Delta(prev, next) == Ones(|prev|) && Sum(Delta(prev, next)) == |prev|
    ensures PrefixLens(Delta(prev, next)) == Iota(0, |prev| + 1)
    ensures SeqIds(Delta(prev, next)) == Iota(0, |prev|)
    ensures DeltaPositionIds(prev, next) == prev
  {
    var n := |prev|;
    var d := Ones(n);
    assert Delta(prev, next) == d;
    OnesRows(n, 0);
    forall k: nat | k <= n
      ensures PrefixLens(d)[k] == k
      ensures k < n ==> SeqIds(d)[k] == k && DeltaPositionIds(prev, next)[k] == prev[k]
    {
      OnesRows(n, k);
      PrefixIsStart(d, k);
      if k < n {
        SearchIsRow(d, 0, k);
      }
    }
  }

  /** `max` of the lengths, which an empty batch does not have. */
  function Longest(lens: seq<nat>): (r: Option<nat>)
    ensures r.None? <==> lens == []
    ensures r.Some? ==> r.value in lens && forall i :: 0 <= i < |lens| ==> lens[i] <= r.value
    decreases |lens|
  {
    if lens == [] then None
    else match Longest(lens[1..])
      case None => Some(lens[0])
      case Some(m) => Some(Max(lens[0], m))
  }

  /** In classic decoding the shortcut for the longest gain is right exactly when the batch is not empty. */
  lemma ClassicLongest(prev: seq<nat>, next: seq<nat>)
    requires Classic(prev, next)
    ensures Grows(prev, next) && (Longest(Delta(prev, next)) == Some(1) <==> prev != [])
  {
    var d := Delta(prev, next);
    if prev != [] {
      assert d[0] == 1;
    }
  }
}
