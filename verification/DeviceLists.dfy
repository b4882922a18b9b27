/**
 Device lists and the static buffer whose rows back them. A managed list aliases a row of the buffer:
 its storage is the row object itself. Rows are handed out first in first out and, when none is free,
 taken from the least recently pushed list, which gets a copy of its storage back.
 */
module DeviceLists {
  import opened Base

  // ----- The order in which lists lose their rows -----

  function Without<T(==)>(queue: seq<T>, x: T): (r: seq<T>)
    ensures |r| <= |queue|
    ensures (forall y :: y in r ==> y in queue && y != x) && forall y :: y in queue && y != x ==> y in r
    decreases |queue|
  {
    if queue == [] then [] else (if queue[0] == x then [] else [queue[0]]) + Without(queue[1..], x)
  }

  /** What a push does to the queue of managed lists. */
  function Pushed<T(==)>(queue: seq<T>, x: T, capacity: nat): seq<T> {
    if x in queue then Without(queue, x) + [x]
    else if |queue| >= capacity > 0 && queue != [] then queue[1..] + [x]
    else queue + [x]
  }

  function PushedAll<T(==)>(queue: seq<T>, xs: seq<T>, capacity: nat): seq<T>
    decreases |xs|
  {
    if xs == [] then queue else PushedAll(Pushed(queue, xs[0], capacity), xs[1..], capacity)
  }

  lemma {:induction false} WithoutAbsent<T>(queue: seq<T>, x: T)
    requires x !in queue
    ensures Without(queue, x) == queue
    decreases |queue|
  {
    if queue != [] {
      WithoutAbsent(queue[1..], x);
    }
  }

  lemma {:induction false} WithoutConcat<T>(a: seq<T>, b: seq<T>, x: T)
    ensures Without(a + b, x) == Without(a, x) + Without(b, x)
    decreases |a|
  {
    if a == [] {
      assert a + b == b;
    } else {
      assert (a + b)[1..] == a[1..] + b;
      WithoutConcat(a[1..], b, x);
    }
  }

  lemma {:induction false} WithoutDistinct<T>(queue: seq<T>, x: T)
    requires Distinct(queue)
    ensures Distinct(Without(queue, x)) && |Without(queue, x)| == |queue| - if x in queue then 1 else 0
    decreases |queue|
  {
    if queue != [] {
      assert forall y :: y in queue[1..] ==> y != queue[0];
      var rest := Without(queue[1..], x);
      WithoutDistinct(queue[1..], x);
      assert queue[0] !in rest;
      assert Without(queue, x) == if queue[0] == x then rest else [queue[0]] + rest;
    }
  }

  lemma {:induction false} WithoutShorter<T>(queue: seq<T>, x: T)
    ensures x in queue ==> |Without(queue, x)| < |queue|
    decreases |queue|
  {
    if queue != [] {
      WithoutShorter(queue[1..], x);
    }
  }

  /** One push: the list goes to the end, the recently pushed ones stay in front of it. */
  lemma PushKeepsRecent<T>(front: seq<T>, recent: seq<T>, x: T, capacity: nat) returns (kept: seq<T>)
    requires x !in recent && |recent| < capacity && |front| + |recent| <= capacity
    ensures Pushed(front + recent, x, capacity) == kept + (recent + [x]) && |kept| + |recent| + 1 <= capacity
  {
    hide Without;
    var all := front + recent;
    WithoutConcat(front, recent, x);
    WithoutAbsent(recent, x);
    WithoutShorter(front, x);
    kept := if x in front then Without(front, x) else if |all| >= capacity then front[1..] else front;
    var base := if x in all then Without(all, x) else if |all| >= capacity then all[1..] else all;
    assert x in all <==> x in front;
    assert base == kept + recent;
    assert kept + recent + [x] == kept + (recent + [x]);
  }

  /** Pushing up to as many distinct lists as there are rows leaves all of them in the buffer, whatever
      was there before: nobody who has just been pushed is the next to go. */
  lemma {:induction false} PushedStay<T>(front: seq<T>, recent: seq<T>, xs: seq<T>, capacity: nat)
      returns (rest: seq<T>)
    requires Distinct(recent + xs) && |recent| + |xs| <= capacity && |front| + |recent| <= capacity
    ensures PushedAll(front + recent, xs, capacity) == rest + (recent + xs)
    decreases |xs|
  {
    if xs == [] {
      rest := front;
      assert recent + xs == recent;
    } else {
      NotRecent(recent, xs);
      var kept := PushKeepsRecent(front, recent, xs[0], capacity);
      assert recent + [xs[0]] + xs[1..] == recent + xs;
      rest := PushedStay(kept, recent + [xs[0]], xs[1..], capacity);
    }
  }

  lemma NotRecent<T>(recent: seq<T>, xs: seq<T>)
    requires Distinct(recent + xs) && xs != []
    ensures xs[0] !in recent
  {
    assert (recent + xs)[|recent|] == xs[0];
    forall i | 0 <= i < |recent|
      ensures recent[i] != xs[0]
    {
      assert (recent + xs)[i] == recent[i];
    }
  }

  // ----- Device lists -----

  class DeviceList {
    var data: array<int>
    var len: nat
    /** Whether `append` may reallocate the storage. */
    var fixed: bool

    ghost predicate Fits()
      reads this
    {
      len <= data.Length
    }

    /** The sequence the list denotes: `to_tensor`. */
    ghost function View(): seq<int>
      requires Fits()
      reads this, data
    {
      data[..len]
    }

    constructor (items: seq<int>)
      ensures Fits() && View() == items && !fixed && fresh(data)
    {
      data := new int[|items|](i requires 0 <= i < |items| => items[i]);
      len, fixed := |items|, false;
      new;
      assert data[..len] == items;
    }

    /** New storage with the same contents, which may be reallocated. */
    method CopyOut()
      requires Fits()
      modifies this`data, this`fixed
      ensures fresh(data) && !fixed && data.Length == old(data.Length) && Fits() && View() == old(View())
    {
      var more := new int[data.Length];
      for i := 0 to data.Length
        modifies more
        invariant more[..i] == data[..i]
      {
        more[i] := data[i];
      }
      data, fixed := more, false;
    }

    /** `append`: it fails exactly when the storage is full and may not be replaced. */
    method Append(item: int) returns (ok: bool)
      requires Fits()
      modifies this`data, this`len, data
      ensures Fits() && (ok <==> !(fixed && old(len) == old(data).Length))
      ensures View() == if ok then old(View()) + [item] else old(View())
      ensures data == old(data) || (!fixed && fresh(data))
    {
      ok := true;
      if len == data.Length {
        if fixed {
          return false;
        }
        var more := new int[Max(2 * len, 32)];
        for i := 0 to len
          modifies more
          invariant more[..i] == data[..i]
        {
          more[i] := data[i];
        }
        data := more;
      }
      data[len] := item;
      len := len + 1;
    }
  }

  /** Every managed list owns one row of 1..n, every other of these rows is free, but for one row that
      is being handed over (0 if there is none). */
  ghost predicate RowsOk(free: seq<nat>, queue: seq<DeviceList>, rowOf: map<DeviceList, nat>, n: nat, between: nat) {
    && Distinct(queue) && Distinct(free)
    && (forall l :: l in queue ==> l in rowOf) && (forall l :: l in rowOf ==> l in queue)
    && (forall l :: l in rowOf ==> 1 <= rowOf[l] <= n && rowOf[l] !in free && rowOf[l] != between)
    && (forall r :: r in free ==> 1 <= r <= n)
    && (forall l, m :: l in rowOf && m in rowOf && l != m ==> rowOf[l] != rowOf[m])
    && between <= n && between !in free
    && |free| + |queue| + (if between == 0 then 0 else 1) == n
  }

  lemma Detached(free: seq<nat>, queue: seq<DeviceList>, rowOf: map<DeviceList, nat>, n: nat, key: DeviceList)
    requires RowsOk(free, queue, rowOf, n, 0) && key in rowOf
    ensures RowsOk(free, Without(queue, key), rowOf - {key}, n, rowOf[key])
  {
    WithoutDistinct(queue, key);
  }

  lemma RowPopped(free: seq<nat>, queue: seq<DeviceList>, rowOf: map<DeviceList, nat>, n: nat)
    requires RowsOk(free, queue, rowOf, n, 0) && free != []
    ensures 0 < free[0] <= n && RowsOk(free[1..], queue, rowOf, n, free[0])
  {
    assert free[0] in free;
    assert forall r :: r in free[1..] ==> r in free && r != free[0];
  }

  lemma HeadLeaves(queue: seq<DeviceList>)
    requires Distinct(queue) && queue != []
    ensures Without(queue, queue[0]) == queue[1..]
  {
    assert queue[0] !in queue[1..];
    WithoutAbsent(queue[1..], queue[0]);
  }

  lemma Refreshed(free: seq<nat>, queue: seq<DeviceList>, rowOf: map<DeviceList, nat>, n: nat, l: DeviceList)
    requires RowsOk(free, queue, rowOf, n, 0) && l in rowOf
    ensures RowsOk(free, Without(queue, l) + [l], rowOf, n, 0)
  {
    WithoutDistinct(queue, l);
  }

  lemma Removed(free: seq<nat>, queue: seq<DeviceList>, rowOf: map<DeviceList, nat>, n: nat, l: DeviceList)
    requires RowsOk(free, queue, rowOf, n, 0) && l in rowOf
    ensures RowsOk(free + [rowOf[l]], Without(queue, l), rowOf - {l}, n, 0)
  {
    WithoutDistinct(queue, l);
  }

  lemma Attached(free: seq<nat>, queue: seq<DeviceList>, rowOf: map<DeviceList, nat>, n: nat, row: nat, l: DeviceList)
    requires RowsOk(free, queue, rowOf, n, row) && l !in rowOf && 0 < row
    ensures RowsOk(free, queue + [l], rowOf[l := row], n, 0) && row !in rowOf.Values
  {
  }

  class StaticDeviceListManager {
    const maxNumRows: nat
    const maxNumCols: nat
    /** Row 0 is never handed out. */
    const buffer: seq<array<int>>
    var freeRows: seq<nat>
    var lruQueue: seq<DeviceList>
    var rowOf: map<DeviceList, nat>
    /** The lists in use: managed ones and others, none of them removed. */
    ghost var live: set<DeviceList>

    ghost function Rows(): set<object> {
      set a | a in buffer
    }

    ghost predicate BufferOk() {
      && |buffer| == maxNumRows + 1
      && (forall i :: 0 <= i < |buffer| ==> buffer[i].Length == maxNumCols)
      && (forall i, j :: 0 <= i < j < |buffer| ==> buffer[i] != buffer[j])
    }

    /** A managed list's storage is its row; every other list in use has storage of its own. */
    ghost predicate StorageOk()
      reads this, live
    {
      && (forall l :: l in rowOf ==> l in live && l.fixed && rowOf[l] < |buffer| && l.data == buffer[rowOf[l]])
      && (forall l :: l in live ==> l.Fits() && (l !in rowOf ==> !l.fixed && l.data !in Rows()))
      && (forall l, m :: l in live && m in live && l != m ==> l.data != m.data)
    }

    ghost predicate Valid()
      reads this, live
    {
      BufferOk() && RowsOk(freeRows, lruQueue, rowOf, maxNumRows, 0) && StorageOk()
    }

    /** Every row of 1..maxNumRows is either free or owned by exactly one managed list. */
    lemma RowsPartition(r: nat)
      requires Valid() && 1 <= r <= maxNumRows
      ensures r in freeRows <==> !exists l :: l in rowOf && rowOf[l] == r
    {
      hide BufferOk, StorageOk;
      if r !in freeRows && !exists l :: l in rowOf && rowOf[l] == r {
        TooMany(freeRows, lruQueue, rowOf, r, maxNumRows);
        assert false;
      }
    }

    constructor (maxNumRows: nat, maxNumCols: nat)
      ensures Valid() && live == {} && lruQueue == [] && this.maxNumRows == maxNumRows && this.maxNumCols == maxNumCols
      ensures fresh(Rows())
    {
      var rows: seq<array<int>> := [];
      for i := 0 to maxNumRows + 1
        invariant |rows| == i && fresh(set a | a in rows)
        invariant forall j :: 0 <= j < i ==> rows[j].Length == maxNumCols
        invariant forall j, k :: 0 <= j < k < i ==> rows[j] != rows[k]
      {
        var row := new int[maxNumCols];
        rows := rows + [row];
      }
      this.maxNumRows, this.maxNumCols, buffer := maxNumRows, maxNumCols, rows;
      freeRows := seq(maxNumRows, i requires 0 <= i => i + 1);
      lruQueue, rowOf, live := [], map[], {};
    }

    /** A list with storage of its own comes into use. */
    ghost method Admit(l: DeviceList)
      requires Valid() && l !in live && l.Fits() && !l.fixed && l.data !in Rows()
      requires forall m :: m in live ==> m.data != l.data
      modifies this`live
      ensures Valid() && live == old(live) + {l}
    {
      live := live + {l};
    }

    /** `evict_list`: the list gets a copy of its row as storage of its own. */
    method EvictList(key: DeviceList) returns (row: nat)
      requires Valid() && key in rowOf
      modifies this`lruQueue, this`rowOf, key
      ensures row == old(rowOf[key]) && rowOf == old(rowOf) - {key} && lruQueue == Without(old(lruQueue), key)
      ensures row > 0 && BufferOk() && RowsOk(freeRows, lruQueue, rowOf, maxNumRows, row) && StorageOk()
      ensures key.View() == old(key.View())
    {
      hide RowsOk;
      Detached(freeRows, lruQueue, rowOf, maxNumRows, key);
      OwnRow(key);
      row := rowOf[key];
      rowOf := rowOf - {key};
      lruQueue := Without(lruQueue, key);
      key.CopyOut();
    }

    /** `_assign_buffer_row`, up to the point where the new list is entered: a free row, or the row of the
        list that was pushed longest ago. */
    method TakeRow() returns (row: nat)
      requires Valid() && maxNumRows > 0
      modifies this`freeRows, this`lruQueue, this`rowOf, live
      ensures BufferOk() && RowsOk(freeRows, lruQueue, rowOf, maxNumRows, row) && StorageOk() && 0 < row <= maxNumRows
      ensures forall m :: m in live ==> m.View() == old(m.View()) && m.len == old(m.len)
      ensures rowOf.Keys <= old(rowOf).Keys
      ensures lruQueue == if |old(lruQueue)| >= maxNumRows then old(lruQueue)[1..] else old(lruQueue)
    {
      if |freeRows| > 0 {
        row := freeRows[0];
        RowPopped(freeRows, lruQueue, rowOf, maxNumRows);
        freeRows := freeRows[1..];
      } else {
        var key := lruQueue[0];
        OwnRow(key);
        HeadLeaves(lruQueue);
        row := EvictList(key);
      }
    }

    /** `push_list`. */
    method PushList(l: DeviceList) returns (ok: bool)
      requires Valid() && l in live && maxNumRows > 0
      modifies this`freeRows, this`lruQueue, this`rowOf, live, Rows()
      ensures Valid() && (ok <==> old(l.len) <= maxNumCols)
      ensures forall m :: m in live ==> m.View() == old(m.View()) && m.len == old(m.len)
      ensures lruQueue == if ok then Pushed(old(lruQueue), l, maxNumRows) else old(lruQueue)
    {
      if l.len > maxNumCols {
        return false;
      }
      ok := true;
      if l in rowOf {
        OwnRow(l);
        Refreshed(freeRows, lruQueue, rowOf, maxNumRows, l);
        lruQueue := Without(lruQueue, l) + [l];
        return;
      }
      NotManaged(l);
      var row := TakeRow();
      MoveIn(l, row);
    }

    /** The pushes that precede a batch: if there are at most as many lists as rows, all of them are in the
        buffer afterwards, and no list in use has lost anything. */
    method PushAll(lists: seq<DeviceList>)
      requires Valid() && maxNumRows > 0 && Distinct(lists) && |lists| <= maxNumRows
      requires forall i :: 0 <= i < |lists| ==> lists[i] in live && lists[i].len <= maxNumCols
      modifies this`freeRows, this`lruQueue, this`rowOf, live, Rows()
      ensures Valid() && forall i :: 0 <= i < |lists| ==> lists[i] in rowOf
      ensures forall m :: m in live ==> m.View() == old(m.View())
    {
      hide RowsOk, BufferOk, StorageOk, Pushed;
      SameLengths();
      ghost var start := lruQueue;
      assert lists[0..] == lists;
      for i := 0 to |lists|
        invariant Valid() && PushedAll(lruQueue, lists[i..], maxNumRows) == PushedAll(start, lists, maxNumRows)
        invariant forall m :: m in live ==> m.Fits() && m.len == old(m.len) && m.View() == old(m.View())
      {
        assert lists[i..][0] == lists[i] && lists[i..][1..] == lists[i + 1..];
        var ok := PushList(lists[i]);
        SameLengths();
      }
      assert lists[|lists|..] == [];
      AllResident(start, lists);
    }

    lemma SameLengths()
      requires Valid()
      ensures forall m :: m in live ==> m.Fits() && |m.View()| == m.len
      ensures |lruQueue| <= maxNumRows
    {
    }

    lemma AllResident(start: seq<DeviceList>, lists: seq<DeviceList>)
      requires Valid() && Distinct(lists) && |lists| <= maxNumRows && |start| <= maxNumRows
      requires lruQueue == PushedAll(start, lists, maxNumRows)
      ensures forall i :: 0 <= i < |lists| ==> lists[i] in rowOf
    {
      hide BufferOk, StorageOk;
      assert start + [] == start && [] + lists == lists;
      var rest := PushedStay(start, [], lists, maxNumRows);
      forall i | 0 <= i < |lists|
        ensures lists[i] in lruQueue
      {
        assert (rest + lists)[|rest| + i] == lists[i];
      }
    }

    /** Copies the list into its new row and makes the row its storage. */
    method MoveIn(l: DeviceList, row: nat)
      requires BufferOk() && RowsOk(freeRows, lruQueue, rowOf, maxNumRows, row) && StorageOk() && 0 < row <= maxNumRows
      requires l in live && l !in rowOf && l.len <= maxNumCols
      modifies this`lruQueue, this`rowOf, l`data, l`fixed, buffer[row]
      ensures Valid() && lruQueue == old(lruQueue) + [l]
      ensures forall m :: m in live ==> m.View() == old(m.View())
    {
      hide RowsOk;
      Attached(freeRows, lruQueue, rowOf, maxNumRows, row, l);
      var target := buffer[row];
      for i := 0 to l.len
        modifies target
        invariant target[..i] == l.data[..i]
      {
        target[i] := l.data[i];
      }
      rowOf := rowOf[l := row];
      lruQueue := lruQueue + [l];
      l.data := target;
      l.fixed := true;
    }

    lemma NotManaged(l: DeviceList)
      requires Valid() && l !in rowOf
      ensures l !in lruQueue
    {
    }

    /** `remove_list`: the row is free again; the list, which still aliases it, is out of use. */
    method RemoveList(l: DeviceList)
      requires Valid() && l in live
      modifies this`freeRows, this`lruQueue, this`rowOf, this`live
      ensures Valid() && live == old(live) - (if l in old(rowOf) then {l} else {})
      ensures l in old(rowOf) ==> freeRows == old(freeRows) + [old(rowOf[l])] && lruQueue == Without(old(lruQueue), l)
      ensures l !in old(rowOf) ==> freeRows == old(freeRows) && lruQueue == old(lruQueue)
    {
      if l !in rowOf {
        return;
      }
      Removed(freeRows, lruQueue, rowOf, maxNumRows, l);
      freeRows := freeRows + [rowOf[l]];
      rowOf := rowOf - {l};
      lruQueue := Without(lruQueue, l);
      live := live - {l};
    }

    /** `append` on a list in use touches no other list. */
    method AppendTo(l: DeviceList, item: int) returns (ok: bool)
      requires Valid() && l in live
      modifies l, l.data
      ensures Valid() && (ok <==> !(l in rowOf && old(l.len) == maxNumCols))
      ensures l.View() == if ok then old(l.View()) + [item] else old(l.View())
      ensures forall m :: m in live && m != l ==> m.View() == old(m.View())
    {
      hide RowsOk;
      ok := l.Append(item);
    }

    /** `batch_append`: one item to each of the lists. An index error means that nothing is written. What
        happens to a list without a row: its length grows, but the item goes to row 0, which backs no list. */
    method BatchAppend(lists: seq<DeviceList>, items: seq<int>) returns (ok: bool)
      requires Valid() && Distinct(lists) && |items| == |lists| && forall l :: l in lists ==> l in live
      modifies lists, Rows()
      ensures ok <==> forall i :: 0 <= i < |lists| ==> old(lists[i].len) < maxNumCols
      ensures ok ==> forall i :: 0 <= i < |lists| && lists[i] in rowOf ==>
        lists[i].Fits() && lists[i].View() == old(lists[i].View()) + [items[i]]
      ensures ok ==> forall i :: 0 <= i < |lists| && lists[i] !in rowOf ==>
        lists[i].len == old(lists[i].len) + 1 && lists[i].data == old(lists[i].data)
          && lists[i].data[..] == old(lists[i].data[..])
      ensures forall m :: m in live && (m !in lists || !ok) ==> m.Fits() && m.View() == old(m.View())
      ensures (forall i :: 0 <= i < |lists| ==> lists[i] in rowOf) ==> Valid()
    {
      hide RowsOk, BufferOk, Distinct;
      ok := ColumnsExist(lists);
      if ok {
        WriteItems(lists, items);
        CountItems(lists);
      }
    }

    method ColumnsExist(lists: seq<DeviceList>) returns (ok: bool)
      ensures ok <==> forall i :: 0 <= i < |lists| ==> lists[i].len < maxNumCols
    {
      ok := true;
      for i := 0 to |lists|
        invariant ok <==> forall k :: 0 <= k < i ==> lists[k].len < maxNumCols
      {
        if lists[i].len >= maxNumCols {
          ok := false;
        }
      }
    }

    /** One item of the scatter. */
    method WriteItem(l: DeviceList, item: int)
      requires Valid() && l in live && l.len < maxNumCols
      modifies Rows()
      ensures Valid()
      ensures forall m :: m in live && (m !in rowOf || m != l) ==> m.data[..] == old(m.data[..])
      ensures l.data[..l.len] == old(l.data[..l.len])
      ensures l in rowOf ==> l.len < l.data.Length && l.data[l.len] == item
    {
      hide RowsOk;
      RowExists(l);
      var target := buffer[if l in rowOf then rowOf[l] else 0];
      target[l.len] := item;
    }

    lemma RowExists(l: DeviceList)
      requires Valid()
      ensures l in rowOf ==> 0 < rowOf[l] < |buffer|
      ensures forall m :: m in rowOf && m != l ==> 0 < rowOf[m] < |buffer| && (l in rowOf ==> rowOf[m] != rowOf[l])
    {
    }

    /** The scatter of the items: past the end of every managed list, or into row 0. */
    method WriteItems(lists: seq<DeviceList>, items: seq<int>)
      requires Valid() && Distinct(lists) && |items| == |lists|
      requires forall l :: l in lists ==> l in live && l.len < maxNumCols
      modifies Rows()
      ensures Valid()
      ensures forall m :: m in live ==> m.data[..m.len] == old(m.data[..m.len])
      ensures forall m :: m in live && m !in rowOf ==> m.data[..] == old(m.data[..])
      ensures forall i :: 0 <= i < |lists| && lists[i] in rowOf ==>
        lists[i].len < lists[i].data.Length && lists[i].data[lists[i].len] == items[i]
    {
      hide RowsOk, BufferOk;
      for i := 0 to |lists|
        invariant Valid()
        invariant forall m :: m in live ==> m.data[..m.len] == old(m.data[..m.len])
        invariant forall m :: m in live && m !in rowOf ==> m.data[..] == old(m.data[..])
        invariant forall k :: 0 <= k < i && lists[k] in rowOf ==>
          lists[k].len < lists[k].data.Length && lists[k].data[lists[k].len] == items[k]
      {
        assert lists[i] in lists;
        WriteItem(lists[i], items[i]);
      }
    }

    /** The lengths grow by one; if all lists are managed, everything is in order again. */
    method CountItems(lists: seq<DeviceList>)
      requires Valid() && Distinct(lists) && forall i :: 0 <= i < |lists| ==> lists[i] in live
      requires forall i :: 0 <= i < |lists| && lists[i] in rowOf ==> lists[i].len < lists[i].data.Length
      modifies lists
      ensures forall i :: 0 <= i < |lists| ==>
        lists[i].len == old(lists[i].len) + 1 && lists[i].data == old(lists[i].data)
      ensures (forall i :: 0 <= i < |lists| ==> lists[i] in rowOf) ==> Valid()
    {
      hide RowsOk, BufferOk;
      BumpLengths(lists);
    }

    method BumpLengths(lists: seq<DeviceList>)
      requires Distinct(lists)
      modifies lists
      ensures forall i :: 0 <= i < |lists| ==>
        lists[i].len == old(lists[i].len) + 1 && lists[i].data == old(lists[i].data)
          && lists[i].fixed == old(lists[i].fixed)
    {
      for i := 0 to |lists|
        invariant forall k :: 0 <= k < |lists| ==>
          lists[k].data == old(lists[k].data) && lists[k].fixed == old(lists[k].fixed)
        invariant forall k :: 0 <= k < i ==> lists[k].len == old(lists[k].len) + 1
        invariant forall k :: i <= k < |lists| ==> lists[k].len == old(lists[k].len)
      {
        lists[i].len := lists[i].len + 1;
      }
    }

    lemma OwnRow(key: DeviceList)
      requires Valid() && key in rowOf
      ensures 0 < rowOf[key] < |buffer| && key in live
    {
    }
  }

  lemma NoElements(s: seq<nat>, n: nat)
    requires forall x :: x in s ==> 1 <= x <= n
    ensures s != [] ==> n > 0
  {
    if s != [] {
      assert s[0] in s;
    }
  }

  lemma OwnedApart(free: seq<nat>, queue: seq<DeviceList>, rowOf: map<DeviceList, nat>, x: nat)
    requires Distinct(free) && Distinct(queue) && x !in free && forall l :: l in queue ==> l in rowOf
    requires forall l :: l in rowOf ==> rowOf[l] !in free && rowOf[l] != x
    requires forall l, m :: l in rowOf && m in rowOf && l != m ==> rowOf[l] != rowOf[m]
    ensures Distinct(free + OwnedRows(queue, rowOf) + [x])
  {
    var owned := OwnedRows(queue, rowOf);
    forall i, j | 0 <= i < j < |owned|
      ensures owned[i] != owned[j]
    {
      assert queue[i] in rowOf && queue[j] in rowOf;
    }
    forall y | y in owned
      ensures y !in free && y != x
    {
      var i :| 0 <= i < |owned| && owned[i] == y;
      assert queue[i] in rowOf;
    }
    OneMore(free, owned, x);
  }

  /** Free rows, owned rows and one more row of 1..n cannot all be different if the former are n. */
  lemma TooMany(free: seq<nat>, queue: seq<DeviceList>, rowOf: map<DeviceList, nat>, x: nat, n: nat)
    requires Distinct(free) && Distinct(queue) && x !in free && forall l :: l in queue ==> l in rowOf
    requires forall l :: l in rowOf ==> rowOf[l] !in free && rowOf[l] != x && 1 <= rowOf[l] <= n
    requires forall l, m :: l in rowOf && m in rowOf && l != m ==> rowOf[l] != rowOf[m]
    requires 1 <= x <= n && forall r :: r in free ==> 1 <= r <= n
    ensures |free| + |queue| < n
  {
    OwnedApart(free, queue, rowOf, x);
    var owned := OwnedRows(queue, rowOf);
    forall y | y in owned
      ensures 1 <= y <= n
    {
      var i :| 0 <= i < |owned| && owned[i] == y;
      assert queue[i] in rowOf;
    }
    Pigeonhole(free + owned + [x], n);
  }

  ghost function OwnedRows(queue: seq<DeviceList>, rowOf: map<DeviceList, nat>): (r: seq<nat>)
    requires forall l :: l in queue ==> l in rowOf
    ensures |r| == |queue| && forall i :: 0 <= i < |r| ==> queue[i] in queue && r[i] == rowOf[queue[i]]
  {
    if queue == [] then [] else [rowOf[queue[0]]] + OwnedRows(queue[1..], rowOf)
  }

  lemma OneMore(a: seq<nat>, b: seq<nat>, x: nat)
    requires Distinct(a) && Distinct(b) && x !in a && x !in b && forall y :: y in b ==> y !in a
    ensures Distinct(a + b + [x])
  {
    var s := a + b + [x];
    forall i, j | 0 <= i < j < |s|
      ensures s[i] != s[j]
    {
      if i < |a| <= j < |a| + |b| {
        assert s[j] in b;
      }
    }
  }

  /** Distinct numbers of 1..n are at most n many. */
  lemma {:induction false} Pigeonhole(s: seq<nat>, n: nat)
    requires Distinct(s) && forall x :: x in s ==> 1 <= x <= n
    ensures |s| <= n
    decreases n
  {
    if n == 0 {
      NoElements(s, n);
    } else {
      WithoutDistinct(s, n);
      Pigeonhole(Without(s, n), n - 1);
    }
  }
}
