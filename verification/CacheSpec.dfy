/**
 The bookkeeping of the paged KV cache as a value: the queue of free blocks, the block table and
 the cached length of every request. `PagedCache` holds the class that updates it in place.
 */
module CacheSpec {
  import opened Base

  datatype Cache = Cache(
    blockSize: nat,
    numBlocks: nat,
    free: seq<nat>,
    table: map<TaskId, seq<nat>>,
    len: map<TaskId, nat>)
  {
    function Used(): int {
      numBlocks - |free|
    }
  }

  function BlocksOf(c: Cache, id: TaskId): seq<nat> {
    if id in c.table then c.table[id] else []
  }

  function LenOf(c: Cache, id: TaskId): nat {
    if id in c.len then c.len[id] else 0
  }

  /** Blocks still missing before request `id` can hold `target` tokens. */
  function Need(c: Cache, id: TaskId, target: nat): nat
    requires c.blockSize > 0
  {
    if id in c.table then Max(0, CeilDiv(target, c.blockSize) - |c.table[id]|)
    else CeilDiv(target, c.blockSize)
  }

  /** Hands the first `n` free blocks to `id`. */
  function Take(c: Cache, id: TaskId, n: nat): Outcome<Cache> {
    if n > |c.free| then Raised(NoFreeBlocks)
    else Ok(c.(free := c.free[n..], table := c.table[id := BlocksOf(c, id) + c.free[..n]]))
  }

  /** Allocates for the requests in order, each up to its already recorded length. */
  function AllocAll(c: Cache, ids: seq<TaskId>): (r: Outcome<Cache>)
    requires c.blockSize > 0
    decreases |ids|
  {
    if ids == [] then Ok(c)
    else
      var c' :- Take(c, ids[0], Need(c, ids[0], LenOf(c, ids[0])));
      AllocAll(c'.(len := c.len), ids[1..])
  }

  /** Records the grown lengths: every request of the batch gains its own number of tokens. */
  function Grow(c: Cache, grow: map<TaskId, nat>): Cache {
    c.(len := map id | id in c.len.Keys + grow.Keys ::
      LenOf(c, id) + (if id in grow then grow[id] else 0))
  }

  lemma GrowSize(c: Cache, grow: map<TaskId, nat>)
    ensures Grow(c, grow).numBlocks == c.numBlocks && Grow(c, grow).blockSize == c.blockSize
  {
  }

  /** `prepare_cache_prefill` and `prepare_cache_decode`: lengths first, then the blocks. */
  function Prepare(c: Cache, ids: seq<TaskId>, grow: map<TaskId, nat>): (r: Outcome<Cache>)
    requires c.blockSize > 0
  {
    AllocAll(Grow(c, grow), ids)
  }

  /** `finalize_cache_all_decode`: gives the blocks back in table order. */
  function Finalize(c: Cache, id: TaskId): Cache {
    if id !in c.len then c
    else c.(free := c.free + BlocksOf(c, id), table := c.table - {id}, len := c.len - {id})
  }

  function FinalizeAll(c: Cache, ids: seq<TaskId>): Cache
    decreases |ids|
  {
    if ids == [] then c else FinalizeAll(Finalize(c, ids[0]), ids[1..])
  }

  // ----- Conservation -----

  /** The multiset of blocks held by the requests of a table. */
  ghost function Owned(table: map<TaskId, seq<nat>>): multiset<nat>
    decreases |table|
  {
    if table == map[] then multiset{}
    else
      var id :| id in table;
      assert |table - {id}| < |table| by { Smaller(table, id); }
      multiset(table[id]) + Owned(table - {id})
  }

  lemma Smaller(table: map<TaskId, seq<nat>>, id: TaskId)
    requires id in table
    ensures |table - {id}| == |table| - 1
  {
    assert (table - {id}).Keys == table.Keys - {id};
  }

  /** Owned does not depend on the order in which requests are visited. */
  lemma {:induction false} OwnedSplit(table: map<TaskId, seq<nat>>, id: TaskId)
    requires id in table
    ensures Owned(table) == multiset(table[id]) + Owned(table - {id})
    decreases |table|
  {
    var first: TaskId :| first in table && Owned(table) == multiset(table[first]) + Owned(table - {first});
    if first != id {
      Smaller(table, first);
      Smaller(table, id);
      OwnedSplit(table - {first}, id);
      OwnedSplit(table - {id}, first);
      assert table - {first} - {id} == table - {id} - {first};
    }
  }

  lemma OwnedSet(table: map<TaskId, seq<nat>>, id: TaskId, blocks: seq<nat>)
    ensures Owned(table[id := blocks]) == multiset(blocks) + Owned(table - {id})
  {
    OwnedSplit(table[id := blocks], id);
    assert table[id := blocks] - {id} == table - {id};
  }

  ghost function Range(n: nat): (r: seq<nat>)
    ensures |r| == n && forall i :: 0 <= i < n ==> r[i] == i
  {
    if n == 0 then [] else Range(n - 1) + [n - 1]
  }

  /** The free list and all block tables together are a permutation of 0..numBlocks-1. */
  ghost predicate Conserved(c: Cache) {
    multiset(c.free) + Owned(c.table) == multiset(Range(c.numBlocks))
  }

  /** Every request owns exactly the blocks its cached length needs. */
  ghost predicate Tight(c: Cache) {
    && c.blockSize > 0
    && c.table.Keys == c.len.Keys
    && forall id :: id in c.table ==> |c.table[id]| == CeilDiv(c.len[id], c.blockSize)
  }

  ghost predicate CacheInv(c: Cache) {
    Conserved(c) && Tight(c)
  }

  lemma RangeStep(n: nat)
    requires n > 0
    ensures Range(n) == Range(n - 1) + [n - 1]
  {
  }

  lemma {:induction false} RangeOnce(n: nat, b: nat)
    ensures multiset(Range(n))[b] == if b < n then 1 else 0
  {
    if n > 0 {
      RangeOnce(n - 1, b);
      var front := Range(n - 1);
      hide Range;
      RangeStep(n);
      assert multiset(front + [n - 1])[b] == multiset(front)[b] + multiset([n - 1])[b];
    } else {
      assert Range(n) == [];
    }
  }

  /** In a conserved cache no block is held twice: two table cells with the same block are the
      same cell, no held block is free, and every block number is in range. */
  lemma CellsInjective(c: Cache, id: TaskId, i: nat, id': TaskId, i': nat)
    requires Conserved(c)
    requires id in c.table && i < |c.table[id]| && id' in c.table && i' < |c.table[id']|
    ensures c.table[id][i] < c.numBlocks && c.table[id][i] !in c.free
    ensures c.table[id][i] == c.table[id'][i'] ==> id == id' && i == i'
  {
    var b := c.table[id][i];
    OwnedSplit(c.table, id);
    RangeOnce(c.numBlocks, b);
    assert b in multiset(c.table[id]);
    if b == c.table[id'][i'] {
      if id != id' {
        OwnedTwice(c.table, id, id', b);
      } else if i != i' {
        TwiceIn(c.table[id], i, i');
      }
    }
  }

  lemma OwnedTwice(table: map<TaskId, seq<nat>>, id: TaskId, id': TaskId, b: nat)
    requires id in table && id' in table && id != id'
    requires b in table[id] && b in table[id']
    ensures Owned(table)[b] >= 2
  {
    OwnedSplit(table, id);
    OwnedSplit(table - {id}, id');
    assert b in multiset(table[id]) && b in multiset(table[id']);
  }

  /** Blocks are counted exactly: free plus the ones a single request holds never exceed the total. */
  lemma CountBlocks(c: Cache, id: TaskId)
    requires Conserved(c)
    ensures |c.free| + |BlocksOf(c, id)| <= c.numBlocks
    ensures (forall other :: other in c.table && other != id ==> c.table[other] == [])
      ==> |c.free| + |BlocksOf(c, id)| == c.numBlocks
  {
    assert |multiset(c.free)| + |Owned(c.table)| == |multiset(Range(c.numBlocks))|;
    assert |multiset(c.free)| == |c.free|;
    if id in c.table {
      OwnedSplit(c.table, id);
    }
    if forall other :: other in c.table && other != id ==> c.table[other] == [] {
      OwnedEmpty(c.table - {id});
      assert id !in c.table ==> c.table - {id} == c.table;
    }
  }

  lemma {:induction false} OwnedEmpty(table: map<TaskId, seq<nat>>)
    requires forall id :: id in table ==> table[id] == []
    ensures Owned(table) == multiset{}
    decreases |table|
  {
    if table != map[] {
      var id :| id in table;
      Smaller(table, id);
      OwnedSplit(table, id);
      OwnedEmpty(table - {id});
    }
  }

  /** `realloc`: all blocks of the new size are free, and the tables are left as they are. */
  ghost function Reallocated(c: Cache, numBlocks: nat, maxNumBlocks: nat): Cache {
    var n := Min(numBlocks, maxNumBlocks);
    c.(numBlocks := n, free := Range(n))
  }

  /** Reallocation keeps every block accounted for exactly when no request holds one. */
  lemma ReallocConserves(c: Cache, numBlocks: nat, maxNumBlocks: nat)
    ensures Conserved(Reallocated(c, numBlocks, maxNumBlocks)) <==> forall id :: id in c.table ==> c.table[id] == []
  {
    var d := Reallocated(c, numBlocks, maxNumBlocks);
    if Conserved(d) {
      assert |multiset(d.free)| + |Owned(c.table)| == |multiset(Range(d.numBlocks))|;
      forall id | id in c.table
        ensures c.table[id] == []
      {
        OwnedSplit(c.table, id);
        assert |multiset(c.table[id])| == |c.table[id]|;
      }
    }
    if forall id :: id in c.table ==> c.table[id] == [] {
      OwnedEmpty(c.table);
    }
  }

  // ----- Allocation -----

  lemma TakeConserves(c: Cache, id: TaskId, n: nat)
    requires Conserved(c) && n <= |c.free|
    ensures Conserved(Take(c, id, n).value)
  {
    var mine, taken, rest := BlocksOf(c, id), c.free[..n], c.free[n..];
    OwnedRow(c.table, id);
    OwnedSet(c.table, id, mine + taken);
    MoveBlocks(multiset(c.free), multiset(mine), multiset(taken), multiset(rest), Owned(c.table - {id})) by {
      assert c.free == taken + rest;
    }
  }

  lemma OwnedRow(table: map<TaskId, seq<nat>>, id: TaskId)
    ensures Owned(table) == multiset(if id in table then table[id] else []) + Owned(table - {id})
  {
    if id in table {
      OwnedSplit(table, id);
    } else {
      assert table - {id} == table;
    }
  }

  lemma MoveBlocks(free: multiset<nat>, mine: multiset<nat>, taken: multiset<nat>, rest: multiset<nat>,
      others: multiset<nat>)
    requires free == taken + rest
    ensures free + (mine + others) == rest + ((mine + taken) + others)
  {
  }

  /** The total that a batch still needs, each request up to its recorded length. */
  function NeedAll(c: Cache, ids: seq<TaskId>): (n: nat)
    requires c.blockSize > 0
    decreases |ids|
  {
    if ids == [] then 0 else Need(c, ids[0], LenOf(c, ids[0])) + NeedAll(c, ids[1..])
  }

  /** Allocation for a batch of distinct requests raises exactly when the free list is shorter than
      the total need, and otherwise takes exactly that many blocks and loses none. */
  lemma {:induction false} AllocAllCount(c: Cache, ids: seq<TaskId>)
    requires c.blockSize > 0 && Conserved(c) && Distinct(ids)
    ensures AllocAll(c, ids).Ok? <==> NeedAll(c, ids) <= |c.free|
    ensures AllocAll(c, ids).Raised? ==> AllocAll(c, ids).error == NoFreeBlocks
    ensures AllocAll(c, ids).Ok? ==>
      var d := AllocAll(c, ids).value;
      && Conserved(d) && SameShape(c, d) && |d.free| == |c.free| - NeedAll(c, ids)
    decreases |ids|
  {
    hide Need;
    if ids != [] {
      var n := Need(c, ids[0], LenOf(c, ids[0]));
      if n <= |c.free| {
        TakeConserves(c, ids[0], n);
        var c' := Take(c, ids[0], n).value;
        assert forall id :: id in ids[1..] ==> id != ids[0];
        NeedSame(c, c', ids[1..]);
        AllocAllCount(c', ids[1..]);
      }
    }
  }

  ghost predicate SameShape(c: Cache, d: Cache) {
    d.len == c.len && d.blockSize == c.blockSize && d.numBlocks == c.numBlocks
  }

  lemma IdsCons(ids: seq<TaskId>)
    requires ids != []
    ensures Ids(ids) == {ids[0]} + Ids(ids[1..])
  {
  }

  lemma AllocAllStep(c: Cache, ids: seq<TaskId>)
    requires c.blockSize > 0 && AllocAll(c, ids).Ok?
    ensures ids == [] ==> AllocAll(c, ids).value == c
    ensures ids != [] ==>
      var t := Take(c, ids[0], Need(c, ids[0], LenOf(c, ids[0])));
      t.Ok? && t.value.blockSize > 0 && AllocAll(t.value, ids[1..]) == AllocAll(c, ids)
  {
    if ids != [] {
      var t := Take(c, ids[0], Need(c, ids[0], LenOf(c, ids[0])));
      if t.Ok? {
        assert t.value.(len := c.len) == t.value;
      }
    }
  }

  /** d is c after allocation for `ids`: no request outside of them is touched, every block a request
      already had stays at its place, and each of them has exactly the blocks for its length. */
  ghost predicate Allocated(c: Cache, d: Cache, ids: seq<TaskId>) {
    && c.blockSize > 0 && SameShape(c, d)
    && d.table.Keys == c.table.Keys + Ids(ids)
    && (forall id :: id in c.table && id !in ids ==> d.table[id] == c.table[id])
    && (forall id :: id in c.table ==> c.table[id] <= d.table[id])
    && (forall id :: id in ids ==> id in Ids(ids) && |d.table[id]| == CeilDiv(LenOf(c, id), c.blockSize))
  }

  /** Nobody holds more than its length needs. */
  ghost predicate NotTooMany(c: Cache, ids: seq<TaskId>) {
    c.blockSize > 0 && forall id :: id in c.table && id in ids ==> |c.table[id]| <= CeilDiv(LenOf(c, id), c.blockSize)
  }

  lemma AllocFirst(c: Cache, ids: seq<TaskId>)
    requires ids != [] && NotTooMany(c, ids) && Distinct(ids) && Take(c, ids[0], Need(c, ids[0], LenOf(c, ids[0]))).Ok?
    ensures var d := Take(c, ids[0], Need(c, ids[0], LenOf(c, ids[0]))).value;
      Allocated(c, d, [ids[0]]) && NotTooMany(d, ids[1..])
  {
    hide CeilDiv;
    assert forall id :: id in ids[1..] ==> id != ids[0];
  }

  lemma AllocatedMore(c: Cache, d: Cache, e: Cache, ids: seq<TaskId>)
    requires ids != [] && Distinct(ids) && Allocated(c, d, [ids[0]]) && Allocated(d, e, ids[1..])
    ensures Allocated(c, e, ids)
  {
    hide CeilDiv, Ids;
    assert forall id :: id in ids[1..] ==> id != ids[0];
    IdsCons(ids);
    OneId(ids[0]);
    assert forall id :: id in ids ==> id == ids[0] || id in ids[1..];
  }

  lemma OneId(id: TaskId)
    ensures Ids([id]) == {id}
  {
  }

  lemma {:induction false} AllocAllRows(c: Cache, ids: seq<TaskId>)
    requires Distinct(ids) && NotTooMany(c, ids) && AllocAll(c, ids).Ok?
    ensures Allocated(c, AllocAll(c, ids).value, ids)
    decreases |ids|
  {
    AllocAllStep(c, ids);
    if ids != [] {
      hide Allocated, Take, Need;
      var d := Take(c, ids[0], Need(c, ids[0], LenOf(c, ids[0]))).value;
      AllocFirst(c, ids);
      AllocAllRows(d, ids[1..]);
      AllocatedMore(c, d, AllocAll(c, ids).value, ids);
    }
  }

  /** Needs depend only on a request's own table row and length. */
  lemma {:induction false} NeedSame(c: Cache, d: Cache, ids: seq<TaskId>)
    requires c.blockSize > 0 && d.blockSize == c.blockSize && d.len == c.len
    requires forall id :: id in ids ==> (id in c.table <==> id in d.table)
    requires forall id :: id in ids && id in c.table ==> c.table[id] == d.table[id]
    ensures NeedAll(c, ids) == NeedAll(d, ids)
    decreases |ids|
  {
    if ids != [] {
      NeedSame(c, d, ids[1..]);
    }
  }

  /** Preparing a batch keeps the invariant and grows exactly the requests of the batch. */
  lemma PrepareKeeps(c: Cache, ids: seq<TaskId>, grow: map<TaskId, nat>)
    requires CacheInv(c) && Distinct(ids) && grow.Keys == Ids(ids)
    ensures Prepare(c, ids, grow).Ok? <==> NeedAll(Grow(c, grow), ids) <= |c.free|
    ensures Prepare(c, ids, grow).Ok? ==>
      var d := Prepare(c, ids, grow).value;
      && CacheInv(d)
      && SameShape(Grow(c, grow), d)
      && (forall id :: id in c.table ==> id in d.table && c.table[id] <= d.table[id])
      && (forall id :: id in c.table && id !in ids ==> d.table[id] == c.table[id])
  {
    var g := Grow(c, grow);
    forall id | id in g.table && id in ids
      ensures |g.table[id]| <= CeilDiv(LenOf(g, id), g.blockSize)
    {
      CeilDivMono(c.len[id], g.len[id], c.blockSize);
    }
    AllocAllCount(g, ids);
    if AllocAll(g, ids).Ok? {
      AllocAllRows(g, ids);
    }
  }

  /** Releasing a request keeps the invariant and returns all of its blocks. */
  lemma FinalizeKeeps(c: Cache, id: TaskId)
    requires CacheInv(c)
    ensures CacheInv(Finalize(c, id))
    ensures Finalize(c, id).table == c.table - {id} && Finalize(c, id).len == c.len - {id}
    ensures |Finalize(c, id).free| == |c.free| + |BlocksOf(c, id)|
  {
    if id in c.len {
      OwnedSplit(c.table, id);
    } else {
      assert c.table - {id} == c.table && c.len - {id} == c.len;
    }
  }

  lemma {:induction false} FinalizeAllKeeps(c: Cache, ids: seq<TaskId>)
    requires CacheInv(c)
    ensures var d := FinalizeAll(c, ids);
      && CacheInv(d)
      && d.blockSize == c.blockSize && d.numBlocks == c.numBlocks
      && |d.free| >= |c.free|
      && d.table == c.table - Ids(ids)
      && d.len == c.len - Ids(ids)
    decreases |ids|
  {
    hide CacheInv, Finalize, Ids;
    if ids == [] {
      NoIds();
      assert c.table - {} == c.table && c.len - {} == c.len;
    } else {
      var d := Finalize(c, ids[0]);
      FinalizeKeeps(c, ids[0]);
      FinalizeSize(c, ids[0]);
      FinalizeAllKeeps(d, ids[1..]);
      IdsCons(ids);
      RemoveTwice(c.table, ids[0], Ids(ids[1..]));
      RemoveTwice(c.len, ids[0], Ids(ids[1..]));
    }
  }

  lemma NoIds()
    ensures Ids([]) == {}
  {
  }

  lemma FinalizeSize(c: Cache, id: TaskId)
    ensures Finalize(c, id).blockSize == c.blockSize && Finalize(c, id).numBlocks == c.numBlocks
  {
  }

  lemma RemoveTwice<V>(m: map<TaskId, V>, id: TaskId, rest: set<TaskId>)
    ensures m - {id} - rest == m - ({id} + rest)
  {
  }
}
