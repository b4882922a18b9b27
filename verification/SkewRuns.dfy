/**
 The skew scheduler together with the dense cache as a state machine: filling a group, prefill and
 decode steps on the slice of the buffer, and the removal of finished requests.
 */
module SkewRuns {
  import opened Base
  import opened LanguageModel
  import opened Ragged
  import opened Ranking
  import opened SkewSpec
  import TaskSpec

  type Kind = TaskSpec.Kind

  /** `sched` is the group of every task that has one; `kind` is the kind of every task of the pool. */
  datatype Skew = Skew(groups: seq<seq<TaskId>>, sched: map<TaskId, nat>, kind: map<TaskId, Kind>, dense: Dense)

  /** Group sizes, row width, and whether prefills are chunked. */
  datatype Setup = Setup(sizes: seq<nat>, width: nat, chunked: bool)

  /** Group g: its first c members are slotted, in order and from the front of the range; its first p
      members decode and the others are still being prefilled. */
  ghost predicate GroupAt(u: Setup, s: Skew, g: nat, c: nat, p: nat) {
    && g < |s.groups| == |u.sizes|
    && var list := s.groups[g];
    && p <= c <= |list| <= u.sizes[g]
    && Packed(s.dense.hot, Lo(u.sizes, g), Lo(u.sizes, g + 1), list[..c])
    && (forall i :: 0 <= i < |list| ==> list[i] in s.kind && (s.kind[list[i]] == TaskSpec.Decode <==> i < p))
    && (!u.chunked ==> p == c && (p == 0 || p == |list|))
  }

  ghost predicate GroupOk(u: Setup, s: Skew, g: nat) {
    exists c: nat, p: nat :: GroupAt(u, s, g, c, p)
  }

  ghost predicate Members(u: Setup, s: Skew) {
    && |s.groups| == |u.sizes|
    && (forall g :: 0 <= g < |s.groups| ==> Distinct(s.groups[g]))
    && (forall g, id :: 0 <= g < |s.groups| && id in s.groups[g] ==> id in s.sched && s.sched[id] == g)
    && (forall id :: Some(id) in s.dense.hot ==> id in s.sched)
    && (forall id :: id in s.kind && s.kind[id] == TaskSpec.Decode ==> id in s.sched)
    && (forall id :: id in s.sched ==> s.sched[id] < |s.groups| && id in s.groups[s.sched[id]])
  }

  ghost predicate Inv(u: Setup, s: Skew) {
    && Members(u, s)
    && |s.dense.hot| == |s.dense.rows| == Sum(u.sizes) && DenseInv(s.dense, u.width)
    && forall g :: 0 <= g < |s.groups| ==> GroupOk(u, s, g)
  }

  /** Row alignment: the slice of the buffer that starts at the slot of member a holds, row by row, the
      rows of the members from a on, as far as they have slots. */
  lemma RowsAligned(u: Setup, s: Skew, g: nat, c: nat, p: nat, a: nat, i: nat)
    requires Inv(u, s) && GroupAt(u, s, g, c, p) && a <= i < c
    ensures var k := Lo(u.sizes, g) + i;
      && k < |s.dense.hot| && s.dense.hot[k] == Some(s.groups[g][i])
      && SlotOf(s.dense.hot, s.groups[g][a]) + (i - a) == k
      && s.groups[g][i] in Holding(s.dense) && Holding(s.dense)[s.groups[g][i]] == s.dense.rows[k]
  {
    hide Members;
    var lo, hot := Lo(u.sizes, g), s.dense.hot;
    assert hot[lo + a] == Some(s.groups[g][..c][a]) && hot[lo + i] == Some(s.groups[g][..c][i]);
    HeldAt(s.dense, u.width, lo + i);
    HeldAt(s.dense, u.width, lo + a);
    assert hot[lo + a] in hot;
  }

  // ----- Who takes part in a step -----

  /** The members of a group from the first one that is not decoding on. */
  function FirstPrefill(kind: map<TaskId, Kind>, list: seq<TaskId>): (k: nat)
    requires forall id :: id in list ==> id in kind
    ensures k <= |list|
    decreases |list|
  {
    if list == [] || kind[list[0]] == TaskSpec.Prefill then 0 else 1 + FirstPrefill(kind, list[1..])
  }

  ghost predicate DecodeFirst(kind: map<TaskId, Kind>, list: seq<TaskId>) {
    && (forall id :: id in list ==> id in kind)
    && forall i, j :: 0 <= i < j < |list| && kind[list[j]] == TaskSpec.Decode ==> kind[list[i]] == TaskSpec.Decode
  }

  lemma {:induction false} FirstPrefillAt(kind: map<TaskId, Kind>, list: seq<TaskId>, k: nat)
    requires DecodeFirst(kind, list) && k <= |list|
    requires (forall i :: 0 <= i < k ==> kind[list[i]] == TaskSpec.Decode)
      && (k < |list| ==> kind[list[k]] == TaskSpec.Prefill)
    ensures FirstPrefill(kind, list) == k
    decreases k
  {
    if k > 0 {
      assert list[0] in list;
      FirstPrefillAt(kind, list[1..], k - 1);
    }
  }

  lemma {:induction false} FirstPrefillInside(kind: map<TaskId, Kind>, list: seq<TaskId>, i: nat)
    requires (forall id :: id in list ==> id in kind) && i < |list| && kind[list[i]] == TaskSpec.Prefill
    ensures FirstPrefill(kind, list) <= i
    decreases |list|
  {
    if i > 0 {
      FirstPrefillInside(kind, list[1..], i - 1);
    }
  }

  /** In agreement, the members that decode are in front. */
  lemma InvDecodeFirst(u: Setup, s: Skew, g: nat)
    requires Inv(u, s) && g < |s.groups|
    ensures DecodeFirst(s.kind, s.groups[g])
  {
    hide Members, DenseInv, Packed, StartOf;
    assert GroupOk(u, s, g);
  }

  /** What the scheduler and the batch look at before a prefill step: kinds and lists only. The step takes
      the whole group, or with chunking a stretch from its first member that is not decoding, all but the
      last of which complete. */
  ghost predicate Feeds(u: Setup, s: Skew, f: Feed) {
    && f.g < |s.groups| && s.groups[f.g] != [] && Known(s, f.g)
    && var list := s.groups[f.g];
    && s.kind[list[|list| - 1]] == TaskSpec.Prefill
    && f.a == (if u.chunked then FirstPrefill(s.kind, list) else 0)
    && 0 < f.n && f.a + f.n <= |list| && f.done <= f.n <= f.done + 1 && |f.news| == f.n
    && (!u.chunked ==> f.n == |list| && f.done == f.n)
  }

  /** Every member of the group is in the pool. */
  ghost predicate Known(s: Skew, g: nat)
    requires g < |s.groups|
  {
    forall id :: id in s.groups[g] ==> id in s.kind
  }

  /** What they look at before a decode step, which takes the whole group. */
  ghost predicate Decodes(s: Skew, g: nat) {
    && g < |s.groups| && s.groups[g] != [] && Known(s, g)
    && s.kind[s.groups[g][|s.groups[g]| - 1]] == TaskSpec.Decode
  }

  /** Who leaves: tasks that decode; with chunking only out of a group all of whose members decode. */
  ghost predicate Leaves(u: Setup, s: Skew, ids: seq<TaskId>) {
    && Distinct(ids)
    && forall id :: id in ids ==> id in s.kind && s.kind[id] == TaskSpec.Decode && (u.chunked ==> InDecodeGroup(s, id))
  }

  ghost predicate InDecodeGroup(s: Skew, id: TaskId) {
    && id in s.sched && s.sched[id] < |s.groups|
    && forall x :: x in s.groups[s.sched[id]] ==> x in s.kind && s.kind[x] == TaskSpec.Decode
  }

  /** In agreement, such a prefill step starts where the decoding members end. */
  lemma FeedIsBatch(u: Setup, s: Skew, f: Feed) returns (c: nat)
    requires Inv(u, s) && Feeds(u, s, f)
    ensures PrefillBatch(u, s, c, f)
  {
    hide Members, DenseInv, Packed, StartOf, FirstPrefill;
    assert GroupOk(u, s, f.g);
    var p: nat;
    c, p :| GroupAt(u, s, f.g, c, p);
    InvDecodeFirst(u, s, f.g);
    var list := s.groups[f.g];
    assert s.kind[list[|list| - 1]] != TaskSpec.Decode;
    FirstPrefillAt(s.kind, list, p);
  }

  /** In agreement, a group whose last member decodes has all its members slotted and decoding. */
  lemma DecodesAligned(u: Setup, s: Skew, g: nat)
    requires Inv(u, s) && Decodes(s, g)
    ensures GroupAt(u, s, g, |s.groups[g]|, |s.groups[g]|)
  {
    hide Members, DenseInv, Packed, StartOf;
    assert GroupOk(u, s, g);
  }

  /** In agreement, whoever may leave is in a group all of whose members have slots and decode. Without
      chunking that is true of every decoding task of every reachable state. */
  lemma LeaversDecode(u: Setup, s: Skew, ids: seq<TaskId>)
    requires Inv(u, s) && Leaves(u, s, ids)
    ensures AllDecoding(u, s, ids)
  {
    hide DenseInv, GroupOk, GroupAt;
    forall id | id in ids
      ensures id in s.sched && s.sched[id] < |s.groups|
      ensures GroupAt(u, s, s.sched[id], |s.groups[s.sched[id]]|, |s.groups[s.sched[id]]|)
    {
      InOwnGroup(u, s, id);
      if u.chunked {
        GroupKnown(u, s, s.sched[id]);
        DecodesAligned(u, s, s.sched[id]);
      } else {
        UnchunkedDecodes(u, s, id);
      }
    }
  }

  lemma GroupKnown(u: Setup, s: Skew, g: nat)
    requires Inv(u, s) && g < |s.groups|
    ensures Known(s, g)
  {
    hide DenseInv, Packed, Members, StartOf;
    assert GroupOk(u, s, g);
  }

  /** A decoding task is a member of a group. */
  lemma InOwnGroup(u: Setup, s: Skew, id: TaskId)
    requires Inv(u, s) && id in s.kind && s.kind[id] == TaskSpec.Decode
    ensures id in s.sched && s.sched[id] < |s.groups| == |u.sizes| && id in s.groups[s.sched[id]]
  {
    hide GroupOk, DenseInv;
  }

  /** Without chunking, in every reachable state: where one member decodes, the whole group does. */
  lemma UnchunkedDecodes(u: Setup, s: Skew, id: TaskId)
    requires Inv(u, s) && !u.chunked && id in s.kind && s.kind[id] == TaskSpec.Decode
    ensures AllDecoding(u, s, [id])
  {
    InOwnGroup(u, s, id);
    hide Members, DenseInv, Packed, StartOf;
    assert GroupOk(u, s, s.sched[id]);
  }

  // ----- Filling a group -----

  function OfKind(kind: map<TaskId, Kind>, ids: seq<TaskId>, k: Kind): (r: seq<TaskId>)
    requires forall id :: id in ids ==> id in kind
    ensures |r| <= |ids| && forall id :: id in r <==> id in ids && kind[id] == k
    decreases |ids|
  {
    if ids == [] then []
    else (if kind[ids[0]] == k then [ids[0]] else []) + OfKind(kind, ids[1..], k)
  }

  /** The part of `SkewScheduler.schedule` that extends a list with waiting tasks outside every group,
      given in the order of the scorer. */
  function Extended(kind: map<TaskId, Kind>, list: seq<TaskId>, order: seq<TaskId>, capacity: nat): seq<TaskId>
    requires (forall id :: id in order ==> id in kind) && forall id :: id in list ==> id in kind
  {
    if |list| >= capacity || (list == [] && order == []) then list
    else
      var k := if list != [] then kind[list[|list| - 1]] else kind[order[0]];
      var more := OfKind(kind, order, k);
      list + more[..Min(|more|, capacity - |list|)]
  }

  function Fill(u: Setup, s: Skew, g: nat, order: seq<TaskId>): seq<TaskId>
    requires g < |s.groups| == |u.sizes|
    requires (forall id :: id in order ==> id in s.kind) && forall id :: id in s.groups[g] ==> id in s.kind
  {
    Extended(s.kind, s.groups[g], order, u.sizes[g])
  }

  function Join(sched: map<TaskId, nat>, list: seq<TaskId>, g: nat): map<TaskId, nat> {
    map id | id in sched.Keys + (set x | x in list) :: if id in list then g else sched[id]
  }

  function Filled(u: Setup, s: Skew, g: nat, order: seq<TaskId>): Skew
    requires g < |s.groups| == |u.sizes|
    requires (forall id :: id in order ==> id in s.kind) && forall id :: id in s.groups[g] ==> id in s.kind
  {
    var list := Fill(u, s, g, order);
    s.(groups := s.groups[g := list], sched := Join(s.sched, list, g))
  }

  /** The candidates: tasks of the pool outside every group, each once. */
  ghost predicate Waiting(s: Skew, order: seq<TaskId>) {
    Distinct(order) && forall id :: id in order ==> id in s.kind && id !in s.sched
  }

  lemma WaitingPrefill(u: Setup, s: Skew, order: seq<TaskId>)
    requires Members(u, s) && Waiting(s, order)
    ensures forall id :: id in order ==> s.kind[id] == TaskSpec.Prefill
  {
  }

  ghost function KindIn(kind: map<TaskId, Kind>, k: Kind): set<TaskId> {
    set id | id in kind && kind[id] == k
  }

  lemma {:induction false} OfKindAll(kind: map<TaskId, Kind>, ids: seq<TaskId>, k: Kind)
    requires Distinct(ids) && forall id :: id in ids ==> id in kind
    ensures AllOf(ids, KindIn(kind, k), OfKind(kind, ids, k))
    decreases |ids|
  {
    hide AllOf;
    if ids == [] {
      NobodyOf(KindIn(kind, k));
    } else {
      assert forall id :: id in ids[1..] ==> id != ids[0];
      OfKindAll(kind, ids[1..], k);
      AllOfCons(ids, KindIn(kind, k), OfKind(kind, ids[1..], k));
    }
  }

  /** Who joins a list: the highest-ranked waiting tasks of its kind, in the scorer's order; an empty list takes
      the kind of the highest-ranked one. Somebody of that kind stays out only if the list is full. */
  ghost predicate Joins(kind: map<TaskId, Kind>, list: seq<TaskId>, order: seq<TaskId>, size: nat, more: seq<TaskId>)
    requires (forall id :: id in order ==> id in kind) && forall id :: id in list ==> id in kind
  {
    if |list| >= size || (list == [] && order == []) then more == []
    else
      var of := KindIn(kind, kind[if list != [] then list[|list| - 1] else order[0]]);
      FirstOf(order, of, more) && |list + more| <= size && (|list + more| < size ==> AllOf(order, of, more))
  }

  lemma ExtendedJoins(kind: map<TaskId, Kind>, list: seq<TaskId>, order: seq<TaskId>, size: nat)
    returns (more: seq<TaskId>)
    requires Distinct(order) && (forall id :: id in order ==> id in kind) && forall id :: id in list ==> id in kind
    ensures Extended(kind, list, order, size) == list + more && Joins(kind, list, order, size, more)
  {
    hide OfKind, AllOf, FirstOf, KindIn;
    if |list| >= size || (list == [] && order == []) {
      more := [];
      assert list + more == list;
    } else {
      var k := if list != [] then kind[list[|list| - 1]] else kind[order[0]];
      var all := OfKind(kind, order, k);
      OfKindAll(kind, order, k);
      more := all[..Min(|all|, size - |list|)];
      AllOfTake(order, KindIn(kind, k), all, |more|);
      assert all[..|all|] == all;
    }
  }

  /** What joins a group: distinct tasks that are to be prefilled, none behind a group that decodes, and always
      the highest-ranked ones. */
  lemma FillJoins(u: Setup, s: Skew, g: nat, order: seq<TaskId>, c: nat, p: nat) returns (more: seq<TaskId>)
    requires GroupAt(u, s, g, c, p) && Waiting(s, order) && forall id :: id in order ==> s.kind[id] == TaskSpec.Prefill
    ensures forall id :: id in s.groups[g] ==> id in s.kind
    ensures Fill(u, s, g, order) == s.groups[g] + more && |s.groups[g] + more| <= u.sizes[g]
    ensures Distinct(more) && forall id :: id in more ==> id in order
    ensures p == |s.groups[g]| > 0 ==> more == []
    ensures Joins(s.kind, s.groups[g], order, u.sizes[g], more)
  {
    hide Packed, StartOf, Extended, AllOf, InOrder;
    var list := s.groups[g];
    more := ExtendedJoins(s.kind, list, order, u.sizes[g]);
    if more != [] {
      FirstOfDistinct(order, KindIn(s.kind, s.kind[if list != [] then list[|list| - 1] else order[0]]), more);
      assert more[0] in more;
    }
  }

  lemma FillKeeps(u: Setup, s: Skew, g: nat, order: seq<TaskId>)
    requires Inv(u, s) && g < |s.groups| == |u.sizes| && Waiting(s, order)
    ensures forall id :: id in s.groups[g] ==> id in s.kind
    ensures Inv(u, Filled(u, s, g, order))
  {
    hide Packed, DenseInv, Fill, Members, GroupAt;
    assert GroupOk(u, s, g);
    var c: nat, p: nat :| GroupAt(u, s, g, c, p);
    WaitingPrefill(u, s, order);
    var more := FillJoins(u, s, g, order, c, p);
    var t := Filled(u, s, g, order);
    FillWaits(s, order, more);
    FillMembers(u, s, g, more, t);
    forall h: nat | h < |t.groups|
      ensures GroupOk(u, t, h)
    {
      assert GroupOk(u, s, h);
      if h == g {
        FillGroup(u, s, g, more, t, c, p);
      } else {
        var c': nat, p': nat :| GroupAt(u, s, h, c', p');
        FillOther(u, s, h, t, c', p');
      }
    }
  }

  lemma FillWaits(s: Skew, order: seq<TaskId>, more: seq<TaskId>)
    requires Waiting(s, order) && forall id :: id in more ==> id in order
    requires forall id :: id in order ==> s.kind[id] == TaskSpec.Prefill
    ensures forall id :: id in more ==> id in s.kind && id !in s.sched && s.kind[id] == TaskSpec.Prefill
  {
  }

  lemma FillGroup(u: Setup, s: Skew, g: nat, more: seq<TaskId>, t: Skew, c: nat, p: nat)
    requires GroupAt(u, s, g, c, p) && |s.groups[g] + more| <= u.sizes[g] && (p == |s.groups[g]| > 0 ==> more == [])
    requires forall id :: id in more ==> id in s.kind && s.kind[id] == TaskSpec.Prefill
    requires t.groups == s.groups[g := s.groups[g] + more] && t.kind == s.kind && t.dense == s.dense
    ensures GroupAt(u, t, g, c, p)
  {
    hide Packed, StartOf;
    assert t.groups[g][..c] == s.groups[g][..c];
  }

  lemma FillOther(u: Setup, s: Skew, h: nat, t: Skew, c: nat, p: nat)
    requires GroupAt(u, s, h, c, p) && |t.groups| == |s.groups| && t.groups[h] == s.groups[h] && t.kind == s.kind
    requires t.dense == s.dense
    ensures GroupAt(u, t, h, c, p)
  {
    hide Packed, StartOf;
  }

  lemma FillMembers(u: Setup, s: Skew, g: nat, more: seq<TaskId>, t: Skew)
    requires Members(u, s) && g < |s.groups|
    requires Distinct(more) && forall id :: id in more ==> id in s.kind && id !in s.sched
    requires t == s.(groups := s.groups[g := s.groups[g] + more], sched := Join(s.sched, s.groups[g] + more, g))
    ensures Members(u, t)
  {
    hide DenseInv, Distinct, Join;
    NotInGroup(u, s, g, more);
    FilledDistinct(s.groups[g], more);
    JoinAt(s.sched, s.groups[g] + more, g);
    FilledGroups(u, s, g, more, t);
    FilledSched(u, s, g, more, t);
  }

  lemma FilledGroups(u: Setup, s: Skew, g: nat, more: seq<TaskId>, t: Skew)
    requires Members(u, s) && g < |s.groups| && forall id :: id in more ==> id !in s.sched
    requires t.groups == s.groups[g := s.groups[g] + more] && t.sched == Join(s.sched, s.groups[g] + more, g)
    ensures forall h, id :: 0 <= h < |t.groups| && id in t.groups[h] ==> id in t.sched && t.sched[id] == h
  {
    hide DenseInv, Join;
    JoinAt(s.sched, s.groups[g] + more, g);
    forall h: nat, id | h < |t.groups| && id in t.groups[h]
      ensures id in t.sched && t.sched[id] == h
    {
      if h != g {
        assert id in s.groups[h] && s.sched[id] == h;
        OutsideGroup(u, s, g, more, id, h);
      }
    }
  }

  lemma FilledSched(u: Setup, s: Skew, g: nat, more: seq<TaskId>, t: Skew)
    requires Members(u, s) && g < |s.groups|
    requires t.groups == s.groups[g := s.groups[g] + more] && t.sched == Join(s.sched, s.groups[g] + more, g)
    ensures forall id :: id in t.sched ==> t.sched[id] < |t.groups| && id in t.groups[t.sched[id]]
  {
    hide DenseInv, Join;
    JoinAt(s.sched, s.groups[g] + more, g);
    forall id | id in t.sched
      ensures t.sched[id] < |t.groups| && id in t.groups[t.sched[id]]
    {
      if id !in s.groups[g] + more {
        assert id in s.sched && id in s.groups[s.sched[id]];
      }
    }
  }

  lemma JoinAt(sched: map<TaskId, nat>, list: seq<TaskId>, g: nat)
    ensures forall id :: id in Join(sched, list, g) <==> id in sched || id in list
    ensures forall id :: id in Join(sched, list, g) ==> Join(sched, list, g)[id] == if id in list then g else sched[id]
  {
  }

  lemma NotInGroup(u: Setup, s: Skew, g: nat, more: seq<TaskId>)
    requires Members(u, s) && g < |s.groups| && forall id :: id in more ==> id !in s.sched
    ensures Distinct(s.groups[g]) && forall id :: id in more ==> id !in s.groups[g]
  {
  }

  lemma OutsideGroup(u: Setup, s: Skew, g: nat, more: seq<TaskId>, id: TaskId, h: nat)
    requires Members(u, s) && g < |s.groups| && h < |s.groups| && h != g && id in s.groups[h]
    requires forall x :: x in more ==> x !in s.sched
    ensures id !in s.groups[g] + more
  {
    OneGroup(u, s, g, h, id);
  }

  lemma FilledDistinct(list: seq<TaskId>, more: seq<TaskId>)
    requires Distinct(list) && Distinct(more) && forall id :: id in more ==> id !in list
    ensures Distinct(list + more)
  {
    forall i, j | 0 <= i < j < |list + more|
      ensures (list + more)[i] != (list + more)[j]
    {
      if i < |list| <= j {
        assert list[i] in list && more[j - |list|] in more;
      }
    }
  }

  // ----- Prefill -----

  /** Overwrites the rows from `start` on: what the model does to the slice it is given. */
  function Write(rows: seq<BufferRow>, start: nat, news: seq<BufferRow>): (r: seq<BufferRow>)
    requires start + |news| <= |rows|
    ensures |r| == |rows|
    ensures forall k :: 0 <= k < |r| ==> r[k] == if start <= k < start + |news| then news[k - start] else rows[k]
  {
    rows[..start] + news + rows[start + |news|..]
  }

  function TurnDecode(kind: map<TaskId, Kind>, ids: seq<TaskId>): map<TaskId, Kind> {
    map id | id in kind :: if id in ids then TaskSpec.Decode else kind[id]
  }

  /** A prefill step: members a..a+n of group g, of which the first `done` complete their prefill, and the
      rows the model writes. */
  datatype Feed = Feed(g: nat, a: nat, n: nat, done: nat, news: seq<BufferRow>)

  /** A prefill step on members a..a+n of group g: slots, model run on the slice that starts at the slot
      of the first of them, and the first `done` of them turn to decoding. None where the slot loop fails. */
  function Prefilled(u: Setup, s: Skew, f: Feed): Option<Skew>
    requires f.g < |s.groups| == |u.sizes| && 0 < f.n && f.a + f.n <= |s.groups[f.g]|
    requires f.done <= f.n == |f.news|
    requires Lo(u.sizes, f.g) <= Lo(u.sizes, f.g + 1) <= |s.dense.hot| == |s.dense.rows|
  {
    var batch := s.groups[f.g][f.a..f.a + f.n];
    match Allocate(s.dense.hot, batch, Lo(u.sizes, f.g), Lo(u.sizes, f.g + 1))
    case None => None
    case Some(hot) =>
      if Some(batch[0]) in hot && SlotOf(hot, batch[0]) + f.n <= |hot| then
        Some(s.(kind := TurnDecode(s.kind, batch[..f.done]),
            dense := Dense(hot, Write(s.dense.rows, SlotOf(hot, batch[0]), f.news))))
      else None
  }

  /** The prefill steps in terms of the agreement: they start at the first member that is not decoding,
      behind or among the members with slots. */
  ghost predicate PrefillBatch(u: Setup, s: Skew, c: nat, f: Feed) {
    && GroupAt(u, s, f.g, c, f.a)
    && f.a < |s.groups[f.g]| && 0 < f.n && f.a + f.n <= |s.groups[f.g]|
    && f.done <= f.n <= f.done + 1 && |f.news| == f.n
    && (!u.chunked ==> f.a + f.n == |s.groups[f.g]| && f.done == f.n)
  }

  /** Allocation for a prefill batch: the slots stay packed and now reach to the end of the batch. */
  lemma AllocateGroup(u: Setup, s: Skew, g: nat, c: nat, p: nat, a: nat, n: nat)
    requires Inv(u, s) && GroupAt(u, s, g, c, p) && a <= c && 0 < n && a + n <= |s.groups[g]|
    ensures Lo(u.sizes, g) <= Lo(u.sizes, g + 1) <= |s.dense.hot|
    ensures var list := s.groups[g];
      var r := Allocate(s.dense.hot, list[a..a + n], Lo(u.sizes, g), Lo(u.sizes, g + 1));
      && r.Some? && Packed(r.value, Lo(u.sizes, g), Lo(u.sizes, g + 1), list[..Max(c, a + n)])
      && (forall k :: 0 <= k < |r.value| && !(Lo(u.sizes, g) <= k < Lo(u.sizes, g + 1)) ==>
           r.value[k] == s.dense.hot[k])
  {
    hide Inv, Packed, StartOf, GroupAt;
    GroupFacts(u, s, g, c, p);
    LoNext(u.sizes, g);
    var m := BatchSplit(u, s, g, c, p, a, n);
    var list, lo, hi := s.groups[g], Lo(u.sizes, g), Lo(u.sizes, g + 1);
    assert list[a..a + n] == list[a..m] + list[m..a + n];
    AllocateSkips(s.dense.hot, list[a..m], list[m..a + n], lo, hi);
    AllocatePacks(s.dense.hot, lo, hi, list[..c], list[m..a + n], lo);
    assert list[..c] + list[m..a + n] == list[..Max(c, a + n)];
  }

  lemma GroupFacts(u: Setup, s: Skew, g: nat, c: nat, p: nat)
    requires Inv(u, s) && GroupAt(u, s, g, c, p)
    ensures g < |s.groups| == |u.sizes|
    ensures |s.dense.hot| == |s.dense.rows| == Sum(u.sizes) && c <= |s.groups[g]| <= u.sizes[g]
    ensures Packed(s.dense.hot, Lo(u.sizes, g), Lo(u.sizes, g + 1), s.groups[g][..c])
  {
    hide Members, DenseInv, Packed, StartOf;
  }

  /** A batch is a part that has slots followed by a part that has none. */
  lemma BatchSplit(u: Setup, s: Skew, g: nat, c: nat, p: nat, a: nat, n: nat) returns (m: nat)
    requires Inv(u, s) && GroupAt(u, s, g, c, p) && a <= c && a + n <= |s.groups[g]|
    ensures a <= m <= a + n && m == Min(c, a + n)
    ensures forall id :: id in s.groups[g][a..m] ==> Some(id) in s.dense.hot
    ensures forall id :: id in s.groups[g][m..a + n] ==> Some(id) !in s.dense.hot
    ensures Distinct(s.groups[g][m..a + n])
  {
    var list, hot := s.groups[g], s.dense.hot;
    m := Min(c, a + n);
    SlottedMembers(u, s, g, c, p);
    GroupDistinct(u, s, g);
    hide Inv, Packed, StartOf;
    forall id | id in list[a..m]
      ensures Some(id) in hot
    {
      var i :| a <= i < m && list[i] == id;
    }
    forall id | id in list[m..a + n]
      ensures Some(id) !in hot
    {
      var i :| m <= i < a + n && list[i] == id;
    }
  }

  lemma GroupDistinct(u: Setup, s: Skew, g: nat)
    requires Inv(u, s) && g < |s.groups|
    ensures Distinct(s.groups[g])
  {
    hide DenseInv, GroupOk;
  }

  /** Exactly the first c members of a group have slots. */
  lemma SlottedMembers(u: Setup, s: Skew, g: nat, c: nat, p: nat)
    requires Inv(u, s) && GroupAt(u, s, g, c, p)
    ensures forall i :: 0 <= i < |s.groups[g]| ==> (Some(s.groups[g][i]) in s.dense.hot <==> i < c)
  {
    var list, hot := s.groups[g], s.dense.hot;
    forall i | 0 <= i < |list|
      ensures Some(list[i]) in hot <==> i < c
    {
      if i < c {
        assert hot[Lo(u.sizes, g) + i] == Some(list[..c][i]);
      } else if Some(list[i]) in hot {
        HotInOwnGroup(u, s, list[i]);
      }
    }
  }

  /** A slotted request is a slotted member of its own group. */
  lemma HotInOwnGroup(u: Setup, s: Skew, id: TaskId)
    requires Inv(u, s) && Some(id) in s.dense.hot
    ensures id in s.sched && s.sched[id] < |s.groups|
    ensures forall c: nat, p: nat :: GroupAt(u, s, s.sched[id], c, p) ==> id in s.groups[s.sched[id]][..c]
  {
    var k := SlotOf(s.dense.hot, id);
    var h := Row(u.sizes, k);
    RowCovers(u.sizes, k);
    LoNext(u.sizes, h);
    assert GroupOk(u, s, h);
    var c: nat, p: nat :| GroupAt(u, s, h, c, p);
    assert k < Lo(u.sizes, h) + c;
    assert s.groups[h][..c][k - Lo(u.sizes, h)] == id;
    assert id in s.groups[h];
  }

  // ----- The model's writes -----

  /** The state of the cache after the model has written the slice. */
  function Written(d: Dense, start: nat, news: seq<BufferRow>): Dense
    requires start + |news| <= |d.rows|
  {
    Dense(d.hot, Write(d.rows, start, news))
  }

  lemma WriteInv(d: Dense, width: nat, lo: nat, hi: nat, list: seq<TaskId>, a: nat, news: seq<BufferRow>)
    requires DenseInv(d, width) && Packed(d.hot, lo, hi, list) && a + |news| <= |list|
    ensures DenseInv(Written(d, lo + a, news), width)
  {
    hide Write;
    forall k | lo + a <= k < lo + a + |news|
      ensures d.hot[k].Some?
    {
      assert d.hot[lo + (k - lo)] == Some(list[k - lo]);
    }
  }

  /** A slotted member of the slice has its own new row. */
  lemma WriteNew(d: Dense, width: nat, lo: nat, hi: nat, list: seq<TaskId>, a: nat, news: seq<BufferRow>, i: nat)
    requires DenseInv(d, width) && Packed(d.hot, lo, hi, list) && a + |news| <= |list| && i < |news|
    ensures var e := Written(d, lo + a, news);
      list[a + i] in Holding(e) && Holding(e)[list[a + i]] == news[i]
  {
    WriteInv(d, width, lo, hi, list, a, news);
    assert d.hot[lo + (a + i)] == Some(list[a + i]);
    HeldAt(Written(d, lo + a, news), width, lo + (a + i));
  }

  lemma MemberOfSlice(hot: seq<Option<TaskId>>, lo: nat, hi: nat, list: seq<TaskId>, a: nat, b: nat, i: nat)
    requires Packed(hot, lo, hi, list) && a <= i < b <= |list|
    ensures hot[lo + i] == Some(list[i]) && list[i] in list[a..b]
  {
    assert list[a..b][i - a] == list[i];
  }

  lemma OutsideSlice(hot: seq<Option<TaskId>>, lo: nat, hi: nat, list: seq<TaskId>, a: nat, b: nat, id: TaskId)
    requires Packed(hot, lo, hi, list) && a <= b <= |list| && Some(id) in hot && id !in list[a..b]
    ensures !(lo + a <= SlotOf(hot, id) < lo + b)
  {
    hide Packed;
    var k := SlotOf(hot, id);
    if lo + a <= k < lo + b {
      MemberOfSlice(hot, lo, hi, list, a, b, k - lo);
      assert false;
    }
  }

  /** Everybody else keeps theirs. */
  lemma WriteOther(d: Dense, width: nat, lo: nat, hi: nat, list: seq<TaskId>, a: nat, news: seq<BufferRow>, id: TaskId)
    requires |d.hot| == |d.rows| && DenseInv(d, width) && Packed(d.hot, lo, hi, list) && a + |news| <= |list|
    requires id in Holding(d) && id !in list[a..a + |news|]
    ensures var e := Written(d, lo + a, news);
      id in Holding(e) && Holding(e)[id] == Holding(d)[id]
  {
    hide DenseInv, Packed, Write;
    PackedBounds(d.hot, lo, hi, list);
    WriteInv(d, width, lo, hi, list, a, news);
    var k := SlotOf(d.hot, id);
    OutsideSlice(d.hot, lo, hi, list, a, a + |news|, id);
    HeldAt(Written(d, lo + a, news), width, k);
  }

  lemma {:induction false} AllocateOnly(hot: seq<Option<TaskId>>, ids: seq<TaskId>, from: nat, end: nat)
    requires end <= |hot| && Allocate(hot, ids, from, end).Some?
    ensures forall id :: Some(id) in Allocate(hot, ids, from, end).value ==> Some(id) in hot || id in ids
    ensures forall id :: Some(id) in hot ==> Some(id) in Allocate(hot, ids, from, end).value
    decreases |ids|
  {
    if ids != [] {
      if Some(ids[0]) in hot {
        AllocateOnly(hot, ids[1..], from, end);
      } else {
        var k := FirstFree(hot, from, end).value;
        var next := hot[k := Some(ids[0])];
        assert next[k] == Some(ids[0]);
        forall x | x in hot && x.Some?
          ensures x in next
        {
          var i :| 0 <= i < |hot| && hot[i] == x;
          assert next[i] == x;
        }
        AllocateOnly(next, ids[1..], k + 1, end);
      }
    }
  }

  lemma AllocatedInv(u: Setup, s: Skew, g: nat, a: nat, n: nat)
    requires Inv(u, s) && g < |s.groups| == |u.sizes| && a + n <= |s.groups[g]| && Lo(u.sizes, g + 1) <= |s.dense.hot|
    requires Allocate(s.dense.hot, s.groups[g][a..a + n], Lo(u.sizes, g), Lo(u.sizes, g + 1)).Some?
    ensures DenseInv(Dense(Allocate(s.dense.hot, s.groups[g][a..a + n], Lo(u.sizes, g), Lo(u.sizes, g + 1)).value,
      s.dense.rows), u.width)
  {
    hide Members, GroupOk, Allocate, StartOf, DenseInv;
    AllocateDistinct(s.dense, s.groups[g][a..a + n], Lo(u.sizes, g), Lo(u.sizes, g + 1), u.width);
  }

  /** A prefill step never runs out of slots, and the slice it writes starts at the first new member. */
  lemma PrefilledIs(u: Setup, s: Skew, c: nat, f: Feed)
    requires Inv(u, s) && PrefillBatch(u, s, c, f)
    ensures Lo(u.sizes, f.g) <= Lo(u.sizes, f.g + 1) <= |s.dense.hot| == |s.dense.rows|
    ensures var list, r := s.groups[f.g],
        Allocate(s.dense.hot, s.groups[f.g][f.a..f.a + f.n], Lo(u.sizes, f.g), Lo(u.sizes, f.g + 1));
      && r.Some? && Lo(u.sizes, f.g) + f.a + f.n <= |r.value| == |s.dense.rows|
      && Prefilled(u, s, f) ==
           Some(s.(kind := TurnDecode(s.kind, list[f.a..f.a + f.n][..f.done]),
               dense := Written(Dense(r.value, s.dense.rows), Lo(u.sizes, f.g) + f.a, f.news)))
  {
    hide Inv, Members, Packed, DenseInv, GroupOk, Allocate, StartOf, Write, TurnDecode, PrefillBatch, GroupAt;
    BatchBounds(u, s, c, f);
    var list, lo, hi := s.groups[f.g], Lo(u.sizes, f.g), Lo(u.sizes, f.g + 1);
    GroupFacts(u, s, f.g, c, f.a);
    LoNext(u.sizes, f.g);
    AllocateGroup(u, s, f.g, c, f.a, f.a, f.n);
    AllocatedInv(u, s, f.g, f.a, f.n);
    var hot := Allocate(s.dense.hot, list[f.a..f.a + f.n], lo, hi).value;
    var m := Max(c, f.a + f.n);
    PackedSlot(Dense(hot, s.dense.rows), lo, hi, list[..m], f.a, u.width);
    PackedBounds(hot, lo, hi, list[..m]);
    assert list[f.a..f.a + f.n][0] == list[..m][f.a];
  }

  lemma PackedBounds(hot: seq<Option<TaskId>>, lo: nat, hi: nat, list: seq<TaskId>)
    requires Packed(hot, lo, hi, list)
    ensures lo + |list| <= hi <= |hot|
  {
  }

  /** Every member of the batch has its own new row. */
  lemma PrefillNew(u: Setup, s: Skew, c: nat, f: Feed, i: nat)
    requires Inv(u, s) && PrefillBatch(u, s, c, f) && i < f.n
    requires Prefilled(u, s, f).Some?
    ensures var (list, t) := (s.groups[f.g], Prefilled(u, s, f).value);
      && |t.dense.hot| == |t.dense.rows| && DenseInv(t.dense, u.width)
      && list[f.a + i] in Holding(t.dense) && Holding(t.dense)[list[f.a + i]] == f.news[i]
  {
    hide Inv, Members, Packed, DenseInv, GroupOk, Allocate, StartOf, Write, Prefilled, TurnDecode, Holding;
    var list, lo, hi := s.groups[f.g], Lo(u.sizes, f.g), Lo(u.sizes, f.g + 1);
    PrefilledIs(u, s, c, f);
    AllocateGroup(u, s, f.g, c, f.a, f.a, f.n);
    AllocatedInv(u, s, f.g, f.a, f.n);
    var d := Dense(Allocate(s.dense.hot, list[f.a..f.a + f.n], lo, hi).value, s.dense.rows);
    var m := Max(c, f.a + f.n);
    WriteInv(d, u.width, lo, hi, list[..m], f.a, f.news);
    WriteNew(d, u.width, lo, hi, list[..m], f.a, f.news, i);
  }

  /** Requests outside the batch keep their rows. */
  lemma PrefillOther(u: Setup, s: Skew, c: nat, f: Feed, id: TaskId)
    requires Inv(u, s) && PrefillBatch(u, s, c, f)
    requires Prefilled(u, s, f).Some?
    requires id in Holding(s.dense) && id !in s.groups[f.g][f.a..f.a + f.n]
    ensures var t := Prefilled(u, s, f).value;
      && |t.dense.hot| == |t.dense.rows|
      && id in Holding(t.dense) && Holding(t.dense)[id] == Holding(s.dense)[id]
  {
    hide Inv, Members, Packed, DenseInv, GroupOk, Allocate, StartOf, Write, Prefilled, TurnDecode, Holding;
    var list, lo, hi := s.groups[f.g], Lo(u.sizes, f.g), Lo(u.sizes, f.g + 1);
    PrefilledIs(u, s, c, f);
    AllocateGroup(u, s, f.g, c, f.a, f.a, f.n);
    AllocatedInv(u, s, f.g, f.a, f.n);
    var d := Dense(Allocate(s.dense.hot, list[f.a..f.a + f.n], lo, hi).value, s.dense.rows);
    var m := Max(c, f.a + f.n);
    assert list[..m][f.a..f.a + f.n] == list[f.a..f.a + f.n];
    AllocatedHolding(u, s, f.g, f.a, f.n, id);
    WriteOther(d, u.width, lo, hi, list[..m], f.a, f.news, id);
  }

  lemma AllocatedHolding(u: Setup, s: Skew, g: nat, a: nat, n: nat, id: TaskId)
    requires Inv(u, s) && g < |s.groups| == |u.sizes| && a + n <= |s.groups[g]| && Lo(u.sizes, g + 1) <= |s.dense.hot|
    requires Allocate(s.dense.hot, s.groups[g][a..a + n], Lo(u.sizes, g), Lo(u.sizes, g + 1)).Some?
    requires id in Holding(s.dense)
    ensures var d := Dense(Allocate(s.dense.hot, s.groups[g][a..a + n], Lo(u.sizes, g), Lo(u.sizes, g + 1)).value,
      s.dense.rows);
      id in Holding(d) && Holding(d)[id] == Holding(s.dense)[id]
  {
    hide Members, GroupOk, Allocate, StartOf;
    var batch, lo, hi := s.groups[g][a..a + n], Lo(u.sizes, g), Lo(u.sizes, g + 1);
    AllocatedInv(u, s, g, a, n);
    AllocateDistinct(s.dense, batch, lo, hi, u.width);
    HeldAt(Dense(Allocate(s.dense.hot, batch, lo, hi).value, s.dense.rows), u.width, SlotOf(s.dense.hot, id));
  }

  lemma OneGroup(u: Setup, s: Skew, g: nat, h: nat, id: TaskId)
    requires Members(u, s) && g < |s.groups| && h < |s.groups| && g != h && id in s.groups[h]
    ensures id !in s.groups[g]
  {
    assert s.sched[id] == h;
  }

  /** Turning a stretch of a group to decoding turns exactly its members. */
  lemma TurnedKinds(u: Setup, s: Skew, g: nat, a: nat, n: nat, done: nat)
    requires Inv(u, s) && g < |s.groups| && done <= n && a + n <= |s.groups[g]|
    ensures var batch := s.groups[g][a..a + n][..done];
      && (forall i :: 0 <= i < |s.groups[g]| ==> (s.groups[g][i] in batch <==> a <= i < a + done))
      && (forall h, i :: 0 <= h < |s.groups| && h != g && 0 <= i < |s.groups[h]| ==> s.groups[h][i] !in batch)
  {
    hide DenseInv, GroupOk;
    var list := s.groups[g];
    var batch := list[a..a + n][..done];
    assert batch == list[a..a + done];
    forall i | 0 <= i < |list|
      ensures list[i] in batch <==> a <= i < a + done
    {
      if a <= i < a + done {
        assert batch[i - a] == list[i];
      }
    }
    forall h, i | 0 <= h < |s.groups| && h != g && 0 <= i < |s.groups[h]|
      ensures s.groups[h][i] !in batch
    {
      OneGroup(u, s, g, h, s.groups[h][i]);
      assert forall id :: id in batch ==> id in s.groups[g];
    }
  }

  /** A range of slots that nobody writes stays packed. */
  lemma PackedSame(hot: seq<Option<TaskId>>, hot': seq<Option<TaskId>>, lo: nat, hi: nat, list: seq<TaskId>)
    requires Packed(hot, lo, hi, list) && |hot'| == |hot| && forall k :: lo <= k < hi ==> hot'[k] == hot[k]
    ensures Packed(hot', lo, hi, list)
  {
  }

  /** Group h is not touched by what happens in the range of group g. */
  lemma OtherRange(u: Setup, hot: seq<Option<TaskId>>, hot': seq<Option<TaskId>>, g: nat, h: nat, list: seq<TaskId>)
    requires g < |u.sizes| && h < |u.sizes| && g != h && |hot| == |hot'| == Sum(u.sizes)
    requires forall k :: 0 <= k < |hot| && !(Lo(u.sizes, g) <= k < Lo(u.sizes, g + 1)) ==> hot'[k] == hot[k]
    requires Packed(hot, Lo(u.sizes, h), Lo(u.sizes, h + 1), list)
    ensures Packed(hot', Lo(u.sizes, h), Lo(u.sizes, h + 1), list)
  {
    hide Packed, StartOf, Sum;
    LoNext(u.sizes, h);
    forall k | Lo(u.sizes, h) <= k < Lo(u.sizes, h + 1)
      ensures hot'[k] == hot[k]
    {
      RangesApart(u.sizes, h, k);
    }
    PackedSame(hot, hot', Lo(u.sizes, h), Lo(u.sizes, h + 1), list);
  }

  /** The group of the prefill step afterwards: all members of the batch have slots. */
  lemma PrefillGroup(u: Setup, s: Skew, c: nat, f: Feed)
    requires Inv(u, s) && PrefillBatch(u, s, c, f)
    requires Prefilled(u, s, f).Some?
    ensures GroupAt(u, Prefilled(u, s, f).value, f.g, Max(c, f.a + f.n), f.a + f.done)
  {
    hide Inv, Members, DenseInv, GroupOk, Allocate, StartOf, Write, Prefilled, Packed;
    PrefilledIs(u, s, c, f);
    AllocateGroup(u, s, f.g, c, f.a, f.a, f.n);
    TurnedKinds(u, s, f.g, f.a, f.n, f.done);
  }

  /** Every other group afterwards. */
  lemma PrefillOtherGroup(u: Setup, s: Skew, c: nat, f: Feed, h: nat, c': nat, p': nat)
    requires Inv(u, s) && PrefillBatch(u, s, c, f)
    requires Prefilled(u, s, f).Some?
    requires GroupAt(u, s, h, c', p') && h != f.g
    ensures GroupAt(u, Prefilled(u, s, f).value, h, c', p')
  {
    hide Inv, Members, DenseInv, GroupOk, Allocate, StartOf, Write, Prefilled, Packed;
    PrefilledIs(u, s, c, f);
    AllocateGroup(u, s, f.g, c, f.a, f.a, f.n);
    TurnedKinds(u, s, f.g, f.a, f.n, f.done);
    GroupFacts(u, s, f.g, c, f.a);
    var r := Allocate(s.dense.hot, s.groups[f.g][f.a..f.a + f.n], Lo(u.sizes, f.g), Lo(u.sizes, f.g + 1)).value;
    OtherRange(u, s.dense.hot, r, f.g, h, s.groups[h][..c']);
  }

  lemma PrefillMembers(u: Setup, s: Skew, c: nat, f: Feed)
    requires Inv(u, s) && PrefillBatch(u, s, c, f)
    requires Prefilled(u, s, f).Some?
    ensures Members(u, Prefilled(u, s, f).value)
  {
    hide DenseInv, GroupOk, Allocate, StartOf, Write, Prefilled, Packed;
    PrefilledIs(u, s, c, f);
    AllocateOnly(s.dense.hot, s.groups[f.g][f.a..f.a + f.n], Lo(u.sizes, f.g), Lo(u.sizes, f.g + 1));
    assert forall id :: id in s.groups[f.g][f.a..f.a + f.n] ==> id in s.groups[f.g];
  }

  lemma BatchBounds(u: Setup, s: Skew, c: nat, f: Feed)
    requires PrefillBatch(u, s, c, f)
    ensures GroupAt(u, s, f.g, c, f.a) && f.a <= c
    ensures f.g < |s.groups| == |u.sizes| && c <= |s.groups[f.g]|
    ensures 0 < f.n && f.a + f.n <= |s.groups[f.g]| && f.done <= f.n == |f.news|
  {
    hide Packed;
  }

  /** A prefill step keeps the agreement of all groups. */
  lemma PrefillKeeps(u: Setup, s: Skew, c: nat, f: Feed)
    requires Inv(u, s) && PrefillBatch(u, s, c, f)
    ensures Lo(u.sizes, f.g) <= Lo(u.sizes, f.g + 1) <= |s.dense.hot| == |s.dense.rows|
    ensures Prefilled(u, s, f).Some? && Inv(u, Prefilled(u, s, f).value)
  {
    hide Members, DenseInv, GroupAt, Prefilled, StartOf, Allocate, TurnDecode, PrefillBatch;
    BatchBounds(u, s, c, f);
    PrefilledIs(u, s, c, f);
    var t := Prefilled(u, s, f).value;
    PrefillMembers(u, s, c, f);
    PrefillNew(u, s, c, f, 0);
    forall h: nat | h < |t.groups|
      ensures GroupOk(u, t, h)
    {
      assert GroupOk(u, s, h);
      if h == f.g {
        PrefillGroup(u, s, c, f);
      } else {
        var c': nat, p': nat :| GroupAt(u, s, h, c', p');
        PrefillOtherGroup(u, s, c, f, h, c', p');
      }
    }
  }

  // ----- Decode -----

  /** A decode step on a whole group: the slice starts at the front of the range. */
  lemma DecodeKeeps(u: Setup, s: Skew, g: nat, news: seq<BufferRow>)
    requires Inv(u, s) && g < |s.groups| == |u.sizes| && GroupAt(u, s, g, |s.groups[g]|, |s.groups[g]|)
    requires |news| == |s.groups[g]|
    ensures Lo(u.sizes, g) + |news| <= |s.dense.rows|
    ensures var t := s.(dense := Written(s.dense, Lo(u.sizes, g), news));
      && Inv(u, t)
      && (forall i :: 0 <= i < |news| ==>
           s.groups[g][i] in Holding(t.dense) && Holding(t.dense)[s.groups[g][i]] == news[i])
      && (forall id :: id in Holding(s.dense) && id !in s.groups[g] ==>
           id in Holding(t.dense) && Holding(t.dense)[id] == Holding(s.dense)[id])
  {
    hide GroupAt, StartOf, Write, Packed, Members, Holding, DenseInv;
    var list, lo, hi := s.groups[g], Lo(u.sizes, g), Lo(u.sizes, g + 1);
    LoNext(u.sizes, g);
    GroupFacts(u, s, g, |list|, |list|);
    assert list[..|list|] == list && list[0..0 + |news|] == list;
    PackedBounds(s.dense.hot, lo, hi, list);
    WriteInv(s.dense, u.width, lo, hi, list, 0, news);
    var t := s.(dense := Written(s.dense, lo, news));
    forall i | 0 <= i < |news|
      ensures list[i] in Holding(t.dense) && Holding(t.dense)[list[i]] == news[i]
    {
      WriteNew(s.dense, u.width, lo, hi, list, 0, news, i);
    }
    forall id | id in Holding(s.dense) && id !in list
      ensures id in Holding(t.dense) && Holding(t.dense)[id] == Holding(s.dense)[id]
    {
      WriteOther(s.dense, u.width, lo, hi, list, 0, news, id);
    }
    SameHot(u, s, t);
  }

  lemma SameHot(u: Setup, s: Skew, t: Skew)
    requires Inv(u, s) && t == s.(dense := t.dense) && t.dense.hot == s.dense.hot
    requires |t.dense.rows| == |s.dense.rows| && DenseInv(t.dense, u.width)
    ensures Inv(u, t)
  {
    forall g: nat | g < |t.groups|
      ensures GroupOk(u, t, g)
    {
      assert GroupOk(u, s, g);
      var c: nat, p: nat :| GroupAt(u, s, g, c, p);
      assert GroupAt(u, t, g, c, p);
    }
  }

  // ----- Leaving -----

  function IndexOf(list: seq<TaskId>, id: TaskId): (j: nat)
    requires id in list
    ensures j < |list| && list[j] == id
    decreases |list|
  {
    if list[0] == id then 0 else 1 + IndexOf(list[1..], id)
  }

  /** `reorder_tasks_for_batching` for one finished task. */
  function Remove(groups: seq<seq<TaskId>>, sched: map<TaskId, nat>, id: TaskId): (r: seq<seq<TaskId>>)
    ensures |r| == |groups|
  {
    if id in sched && sched[id] < |groups| && id in groups[sched[id]] then
      groups[sched[id] := SwapRemove(groups[sched[id]], IndexOf(groups[sched[id]], id))]
    else groups
  }

  function RemoveAll(groups: seq<seq<TaskId>>, sched: map<TaskId, nat>, ids: seq<TaskId>): (r: seq<seq<TaskId>>)
    ensures |r| == |groups|
    decreases |ids|
  {
    if ids == [] then groups else RemoveAll(Remove(groups, sched, ids[0]), sched, ids[1..])
  }

  function FreeAll(d: Dense, sizes: seq<nat>, ids: seq<TaskId>, width: nat): (r: Dense)
    requires |d.hot| == |d.rows| == Sum(sizes)
    ensures |r.hot| == |r.rows| == |d.hot|
    decreases |ids|
  {
    if ids == [] then d else FreeAll(FreeIn(d, sizes, ids[0], width), sizes, ids[1..], width)
  }

  /** The finished tasks leave their lists, then their slots, in the same order both times. */
  function Left(u: Setup, s: Skew, ids: seq<TaskId>): Skew
    requires |s.dense.hot| == |s.dense.rows| == Sum(u.sizes)
  {
    Skew(RemoveAll(s.groups, s.sched, ids), s.sched - (set x | x in ids), s.kind - (set x | x in ids),
         FreeAll(s.dense, u.sizes, ids, u.width))
  }

  /** Every one of these tasks is in a group whose members are all decoding. */
  ghost predicate AllDecoding(u: Setup, s: Skew, ids: seq<TaskId>) {
    forall id :: id in ids ==>
      && id in s.sched && s.sched[id] < |s.groups|
      && GroupAt(u, s, s.sched[id], |s.groups[s.sched[id]]|, |s.groups[s.sched[id]]|)
  }

  /** One task. */
  function LeftOne(u: Setup, s: Skew, id: TaskId): Skew
    requires |s.dense.hot| == |s.dense.rows| == Sum(u.sizes)
  {
    Skew(Remove(s.groups, s.sched, id), s.sched - {id}, s.kind - {id}, FreeIn(s.dense, u.sizes, id, u.width))
  }

  lemma {:induction false} RemoveAllSame(groups: seq<seq<TaskId>>, sched: map<TaskId, nat>, sched': map<TaskId, nat>,
      ids: seq<TaskId>)
    requires forall id :: id in ids ==> (id in sched <==> id in sched') && (id in sched ==> sched[id] == sched'[id])
    ensures RemoveAll(groups, sched, ids) == RemoveAll(groups, sched', ids)
    decreases |ids|
  {
    if ids != [] {
      RemoveAllSame(Remove(groups, sched, ids[0]), sched, sched', ids[1..]);
    }
  }

  lemma LeftStep(u: Setup, s: Skew, ids: seq<TaskId>)
    requires |s.dense.hot| == |s.dense.rows| == Sum(u.sizes) && ids != [] && ids[0] !in ids[1..]
    ensures Left(u, s, ids) == Left(u, LeftOne(u, s, ids[0]), ids[1..])
  {
    hide FreeIn, Remove;
    RemoveAllSame(Remove(s.groups, s.sched, ids[0]), s.sched, s.sched - {ids[0]}, ids[1..]);
    var a, b := (set x | x in ids), (set x | x in ids[1..]);
    assert a == {ids[0]} + b;
    assert s.sched - a == s.sched - {ids[0]} - b && s.kind - a == s.kind - {ids[0]} - b;
  }

  /** The list of a group and its range of slots after a member has left. */
  lemma LeaveRange(u: Setup, s: Skew, id: TaskId)
    requires Inv(u, s) && AllDecoding(u, s, [id])
    ensures var g, t := s.sched[id], LeftOne(u, s, id);
      && id in s.groups[g] && t.groups == s.groups[g := SwapRemove(s.groups[g], IndexOf(s.groups[g], id))]
      && Packed(t.dense.hot, Lo(u.sizes, g), Lo(u.sizes, g + 1), t.groups[g])
      && (forall k :: 0 <= k < |s.dense.hot| && !(Lo(u.sizes, g) <= k < Lo(u.sizes, g + 1)) ==>
           t.dense.hot[k] == s.dense.hot[k])
  {
    hide Inv, GroupAt, StartOf, Packed, AllDecoding, DenseInv, FreeIn;
    LeaverGroup(u, s, id);
    var g := s.sched[id];
    GroupFacts(u, s, g, |s.groups[g]|, |s.groups[g]|);
    assert s.groups[g][..|s.groups[g]|] == s.groups[g];
    LeaveSlots(u, s.dense, g, s.groups[g], IndexOf(s.groups[g], id));
  }

  lemma LeaverGroup(u: Setup, s: Skew, id: TaskId)
    requires Inv(u, s) && AllDecoding(u, s, [id])
    ensures id in s.sched && s.sched[id] < |s.groups| == |u.sizes| && id in s.groups[s.sched[id]]
    ensures GroupAt(u, s, s.sched[id], |s.groups[s.sched[id]]|, |s.groups[s.sched[id]]|)
    ensures |s.dense.hot| == |s.dense.rows| == Sum(u.sizes) && DenseInv(s.dense, u.width)
  {
    hide GroupOk, DenseInv, GroupAt;
    assert id in [id];
  }

  lemma LeaveSlots(u: Setup, d: Dense, g: nat, list: seq<TaskId>, j: nat)
    requires g < |u.sizes| && |d.hot| == |d.rows| == Sum(u.sizes) && DenseInv(d, u.width) && j < |list|
    requires Packed(d.hot, Lo(u.sizes, g), Lo(u.sizes, g + 1), list)
    ensures var e := FreeIn(d, u.sizes, list[j], u.width);
      && Packed(e.hot, Lo(u.sizes, g), Lo(u.sizes, g + 1), SwapRemove(list, j))
      && (forall k :: 0 <= k < |d.hot| && !(Lo(u.sizes, g) <= k < Lo(u.sizes, g + 1)) ==> e.hot[k] == d.hot[k])
  {
    hide StartOf, Free, Packed, DenseInv, Sum, SwapRemove;
    var lo, hi := Lo(u.sizes, g), Lo(u.sizes, g + 1);
    LoNext(u.sizes, g);
    PackedSlot(d, lo, hi, list, j, u.width);
    PackedBounds(d.hot, lo, hi, list);
    RangesApart(u.sizes, g, lo + j);
    FreePacked(d, lo, hi, list, j, u.width);
  }

  lemma InvDense(u: Setup, s: Skew)
    requires Inv(u, s)
    ensures |s.dense.hot| == |s.dense.rows| == Sum(u.sizes) && DenseInv(s.dense, u.width) && |s.groups| == |u.sizes|
  {
    hide GroupOk, DenseInv;
  }

  lemma SwapRemoveFacts(list: seq<TaskId>, j: nat)
    requires Distinct(list) && j < |list|
    ensures Distinct(SwapRemove(list, j))
    ensures forall x :: x in SwapRemove(list, j) <==> x in list && x != list[j]
  {
    var r := SwapRemove(list, j);
    forall x
      ensures x in r <==> x in list && x != list[j]
    {
      if x in list && x != list[j] {
        var i :| 0 <= i < |list| && list[i] == x;
        assert r[if i == |list| - 1 then j else i] == x;
      }
    }
  }

  lemma LeaveMembers(u: Setup, s: Skew, id: TaskId)
    requires Inv(u, s) && AllDecoding(u, s, [id])
    ensures Members(u, LeftOne(u, s, id))
  {
    hide GroupAt, StartOf, Packed, AllDecoding, FreeIn, DenseInv, SwapRemove, GroupOk, IndexOf, Remove, Sum;
    LeaverGroup(u, s, id);
    LeaveRange(u, s, id);
    FreeInKeeps(s.dense, u.sizes, id, u.width);
    var t, g := LeftOne(u, s, id), s.sched[id];
    SwapRemoveFacts(s.groups[g], IndexOf(s.groups[g], id));
    forall x | Some(x) in t.dense.hot
      ensures x in t.sched
    {
      assert x in Holding(t.dense);
    }
  }

  /** The group that was left, and every other group. */
  lemma LeaveGroup(u: Setup, s: Skew, id: TaskId)
    requires Inv(u, s) && AllDecoding(u, s, [id])
    ensures var g, t := s.sched[id], LeftOne(u, s, id);
      g < |t.groups| && GroupAt(u, t, g, |t.groups[g]|, |t.groups[g]|)
  {
    hide StartOf, Packed, AllDecoding, FreeIn, DenseInv, SwapRemove, Inv, IndexOf, Remove;
    LeaverGroup(u, s, id);
    LeaveRange(u, s, id);
    GroupDistinct(u, s, s.sched[id]);
    var t, g := LeftOne(u, s, id), s.sched[id];
    SwapRemoveFacts(s.groups[g], IndexOf(s.groups[g], id));
    assert t.groups[g][..|t.groups[g]|] == t.groups[g];
    forall i | 0 <= i < |t.groups[g]|
      ensures t.groups[g][i] in t.kind && t.kind[t.groups[g][i]] == TaskSpec.Decode
    {
      assert t.groups[g][i] in t.groups[g];
    }
  }

  lemma LeaveOther(u: Setup, s: Skew, id: TaskId, h: nat, c: nat, p: nat)
    requires Inv(u, s) && AllDecoding(u, s, [id]) && GroupAt(u, s, h, c, p) && h != s.sched[id]
    ensures GroupAt(u, LeftOne(u, s, id), h, c, p)
  {
    LeaverGroup(u, s, id);
    LeaveRange(u, s, id);
    NotInOther(u, s, id, h);
    OtherRange(u, s.dense.hot, LeftOne(u, s, id).dense.hot, s.sched[id], h, s.groups[h][..c]);
    hide StartOf, Packed, AllDecoding, FreeIn, DenseInv, SwapRemove, Inv;
  }

  lemma NotInOther(u: Setup, s: Skew, id: TaskId, h: nat)
    requires Inv(u, s) && id in s.sched && h != s.sched[id] && h < |s.groups|
    ensures id !in s.groups[h]
  {
    hide DenseInv, GroupOk;
  }

  /** One finished task leaves: everything stays in agreement, and its row is the only one that goes. */
  lemma LeaveKeeps(u: Setup, s: Skew, id: TaskId)
    requires Inv(u, s) && AllDecoding(u, s, [id])
    ensures |s.dense.hot| == |s.dense.rows| == Sum(u.sizes)
    ensures Inv(u, LeftOne(u, s, id))
    ensures Holding(LeftOne(u, s, id).dense) == Holding(s.dense) - {id}
  {
    LeaverGroup(u, s, id);
    LeaveMembers(u, s, id);
    FreeInKeeps(s.dense, u.sizes, id, u.width);
    var t := LeftOne(u, s, id);
    forall h: nat | h < |t.groups|
      ensures GroupOk(u, t, h)
    {
      if h == s.sched[id] {
        LeaveGroup(u, s, id);
      } else {
        assert GroupOk(u, s, h);
        var c: nat, p: nat :| GroupAt(u, s, h, c, p);
        LeaveOther(u, s, id, h, c, p);
      }
    }
  }

  /** The last member of its group takes the place of the one that leaves; everybody else keeps theirs. */
  lemma LeavePlaces(u: Setup, s: Skew, id: TaskId, g: nat, i: nat)
    requires Inv(u, s) && AllDecoding(u, s, [id]) && g < |s.groups|
    requires |s.dense.hot| == |s.dense.rows| == Sum(u.sizes)
    ensures id in s.sched
    ensures var (list, left) := (s.groups[g], LeftOne(u, s, id).groups[g]);
      if s.sched[id] != g then left == list
      else
        && |left| == |list| - 1
        && (i < |left| ==> left[i] == if list[i] == id then list[|list| - 1] else list[i])
  {
    hide Inv, GroupAt, FreeIn, Sum;
    LeaverGroup(u, s, id);
    GroupDistinct(u, s, g);
  }

  lemma StillDecoding(u: Setup, s: Skew, ids: seq<TaskId>)
    requires Inv(u, s) && ids != [] && AllDecoding(u, s, ids) && ids[0] !in ids[1..]
    ensures AllDecoding(u, s, [ids[0]]) && AllDecoding(u, LeftOne(u, s, ids[0]), ids[1..])
  {
    hide GroupAt, Inv, FreeIn;
    assert AllDecoding(u, s, [ids[0]]);
    LeaverGroup(u, s, ids[0]);
    LeaveRange(u, s, ids[0]);
    LeaveGroup(u, s, ids[0]);
    var t := LeftOne(u, s, ids[0]);
    forall id | id in ids[1..]
      ensures id in t.sched && t.sched[id] < |t.groups|
      ensures GroupAt(u, t, t.sched[id], |t.groups[t.sched[id]]|, |t.groups[t.sched[id]]|)
    {
      var h := s.sched[id];
      if h != s.sched[ids[0]] {
        LeaveOther(u, s, ids[0], h, |s.groups[h]|, |s.groups[h]|);
      }
    }
  }

  /** A batch of removals. The scheduler swaps all finished tasks out of its lists first, the cache
      frees their slots afterwards; because both go through them in the same order, row i of every
      group's range is still the row of member i. */
  lemma {:induction false} LeaveAllKeeps(u: Setup, s: Skew, ids: seq<TaskId>)
    requires Inv(u, s) && AllDecoding(u, s, ids) && Distinct(ids)
    ensures |s.dense.hot| == |s.dense.rows| == Sum(u.sizes)
    ensures Inv(u, Left(u, s, ids))
    ensures Holding(Left(u, s, ids).dense) == Holding(s.dense) - (set id | id in ids)
    decreases |ids|
  {
    hide Inv, AllDecoding, Holding, LeftOne, Left, DenseInv;
    InvDense(u, s);
    if ids == [] {
      LeftNone(u, s);
    } else {
      assert forall x :: x in ids[1..] ==> x != ids[0];
      StillDecoding(u, s, ids);
      LeaveKeeps(u, s, ids[0]);
      LeftStep(u, s, ids);
      LeaveAllKeeps(u, LeftOne(u, s, ids[0]), ids[1..]);
      WithoutAll(Holding(s.dense), ids);
    }
  }

  lemma WithoutAll<V>(m: map<TaskId, V>, ids: seq<TaskId>)
    requires ids != []
    ensures m - {ids[0]} - (set id | id in ids[1..]) == m - (set id | id in ids)
  {
    assert (set id | id in ids) == {ids[0]} + (set id | id in ids[1..]);
  }

  lemma LeftNone(u: Setup, s: Skew)
    requires |s.dense.hot| == |s.dense.rows| == Sum(u.sizes)
    ensures Left(u, s, []) == s && Holding(s.dense) - (set id: TaskId | id in []) == Holding(s.dense)
  {
    assert (set id: TaskId | id in []) == {};
    assert s.sched - {} == s.sched && s.kind - {} == s.kind;
  }

  // ----- When a removal keeps the alignment -----

  /** Outside the modelled discipline, in a list only the first c of whose members have slots, removing
      a slotted member keeps list and slots aligned exactly when all members have slots or the removed
      one was the last that had one. */
  lemma LeaveExact(d: Dense, width: nat, lo: nat, hi: nat, list: seq<TaskId>, c: nat, j: nat)
    requires |d.hot| == |d.rows| && hi <= |d.hot| && DenseInv(d, width) && Distinct(list) && j < c <= |list|
    requires lo + |list| <= hi && Packed(d.hot, lo, hi, list[..c])
    ensures (exists m: nat :: m < |list| && Packed(Free(d, list[j], hi, width).hot, lo, hi, SwapRemove(list, j)[..m]))
      <==> c == |list| || j == c - 1
  {
    hide Free, DenseInv;
    FreePacked(d, lo, hi, list[..c], j, width);
    var hot, rest := Free(d, list[j], hi, width).hot, SwapRemove(list, j);
    assert list[..c][j] == list[j];
    var slotted := SwapRemove(list[..c], j);
    assert Packed(hot, lo, hi, slotted);
    if c == |list| || j == c - 1 {
      assert rest[..c - 1] == slotted;
    } else {
      assert rest[j] == list[|list| - 1] && slotted[j] == list[c - 1] && rest[j] != slotted[j];
      if m: nat :| m < |list| && Packed(hot, lo, hi, rest[..m]) {
        PackedUnique(hot, lo, hi, rest[..m], slotted);
        assert false;
      }
    }
  }

  lemma PackedUnique(hot: seq<Option<TaskId>>, lo: nat, hi: nat, a: seq<TaskId>, b: seq<TaskId>)
    requires Packed(hot, lo, hi, a) && Packed(hot, lo, hi, b)
    ensures a == b
  {
    hide Packed;
    PackedLength(hot, lo, hi, a, b);
    PackedLength(hot, lo, hi, b, a);
    forall i: nat | i < |a|
      ensures a[i] == b[i]
    {
      PackedAt(hot, lo, hi, a, i);
      PackedAt(hot, lo, hi, b, i);
    }
  }

  lemma PackedLength(hot: seq<Option<TaskId>>, lo: nat, hi: nat, a: seq<TaskId>, b: seq<TaskId>)
    requires Packed(hot, lo, hi, a) && Packed(hot, lo, hi, b)
    ensures |a| <= |b|
  {
    hide Packed;
    if |b| < |a| {
      PackedAt(hot, lo, hi, a, |b|);
      PackedAt(hot, lo, hi, b, |b|);
      assert false;
    }
  }

  lemma PackedAt(hot: seq<Option<TaskId>>, lo: nat, hi: nat, list: seq<TaskId>, i: nat)
    requires Packed(hot, lo, hi, list)
    ensures lo + i < hi ==> lo + i < |hot| && (hot[lo + i] == if i < |list| then Some(list[i]) else None)
    ensures i < |list| ==> lo + i < hi
  {
  }

  // ----- Runs -----

  datatype Event =
    | Arrive(id: TaskId)
    | Schedule(g: nat, order: seq<TaskId>)
    | Prefill(f: Feed)
    | Decode(g: nat, news: seq<BufferRow>)
    | Leave(ids: seq<TaskId>)

  /** What the source does in each step. When a step happens depends on kinds and lists only, never on
      where the slots are. */
  ghost predicate StepTo(u: Setup, s: Skew, ev: Event, t: Skew) {
    |s.groups| == |u.sizes| && |s.dense.hot| == |s.dense.rows| == Sum(u.sizes) &&
    match ev
    case Arrive(id) => id !in s.kind && id !in s.sched && t == s.(kind := s.kind[id := TaskSpec.Prefill])
    case Schedule(g, order) =>
      && g < |s.groups| && Waiting(s, order) && Known(s, g)
      && t == Filled(u, s, g, order)
    case Prefill(f) =>
      && Feeds(u, s, f) && Lo(u.sizes, f.g) <= Lo(u.sizes, f.g + 1) <= |s.dense.hot|
      && Prefilled(u, s, f) == Some(t)
    case Decode(g, news) =>
      && Decodes(s, g) && |news| == |s.groups[g]| && Lo(u.sizes, g) + |news| <= |s.dense.rows|
      && t == s.(dense := Written(s.dense, Lo(u.sizes, g), news))
    case Leave(ids) => Leaves(u, s, ids) && t == Left(u, s, ids)
  }

  /** The guards are enough: in agreement, every prefill step that is made finds its slots. */
  lemma FeedSteps(u: Setup, s: Skew, f: Feed) returns (t: Skew)
    requires Inv(u, s) && Feeds(u, s, f)
    ensures StepTo(u, s, Prefill(f), t) && Inv(u, t)
  {
    hide Inv, FirstPrefill, StartOf, Sum, Prefilled, Feeds, PrefillBatch;
    InvDense(u, s);
    var c := FeedIsBatch(u, s, f);
    BatchBounds(u, s, c, f);
    PrefillKeeps(u, s, c, f);
    t := Prefilled(u, s, f).value;
  }

  /** And every decode step fits into the buffer. */
  lemma DecodeSteps(u: Setup, s: Skew, g: nat, news: seq<BufferRow>) returns (t: Skew)
    requires Inv(u, s) && Decodes(s, g) && |news| == |s.groups[g]|
    ensures StepTo(u, s, Decode(g, news), t) && Inv(u, t)
  {
    hide Inv, StartOf, Sum, Decodes, Write, GroupAt;
    InvDense(u, s);
    DecodesAligned(u, s, g);
    GroupIndex(s, g);
    DecodeKeeps(u, s, g, news);
    t := s.(dense := Written(s.dense, Lo(u.sizes, g), news));
  }

  lemma GroupIndex(s: Skew, g: nat)
    requires Decodes(s, g)
    ensures g < |s.groups|
  {
  }

  ghost predicate IsRun(u: Setup, states: seq<Skew>, events: seq<Event>) {
    |states| == |events| + 1 && forall i :: 0 <= i < |events| ==> StepTo(u, states[i], events[i], states[i + 1])
  }

  lemma StepKeeps(u: Setup, s: Skew, ev: Event, t: Skew)
    requires Inv(u, s) && StepTo(u, s, ev, t)
    ensures Inv(u, t)
  {
    hide Inv, GroupAt, AllDecoding, Prefilled, Filled, Left, PrefillBatch, StartOf;
    match ev
    case Arrive(id) => ArriveKeeps(u, s, id);
    case Schedule(g, order) => FillKeeps(u, s, g, order);
    case Prefill(f) =>
      var c := FeedIsBatch(u, s, f);
      PrefillKeeps(u, s, c, f);
    case Decode(g, news) =>
      DecodesAligned(u, s, g);
      DecodeKeeps(u, s, g, news);
    case Leave(ids) =>
      LeaversDecode(u, s, ids);
      LeaveAllKeeps(u, s, ids);
  }

  lemma ArriveKeeps(u: Setup, s: Skew, id: TaskId)
    requires Inv(u, s) && id !in s.kind && id !in s.sched
    ensures Inv(u, s.(kind := s.kind[id := TaskSpec.Prefill]))
  {
    hide DenseInv;
    var t := s.(kind := s.kind[id := TaskSpec.Prefill]);
    forall g: nat | g < |t.groups|
      ensures GroupOk(u, t, g)
    {
      assert GroupOk(u, s, g);
      var c: nat, p: nat :| GroupAt(u, s, g, c, p);
      ArriveGroup(u, s, id, g, c, p);
    }
  }

  lemma ArriveGroup(u: Setup, s: Skew, id: TaskId, g: nat, c: nat, p: nat)
    requires GroupAt(u, s, g, c, p) && id !in s.kind
    ensures GroupAt(u, s.(kind := s.kind[id := TaskSpec.Prefill]), g, c, p)
  {
    hide Packed, StartOf;
  }

  /** The state after start-up. */
  ghost function Init(u: Setup): Skew {
    Skew(seq(|u.sizes|, _ => []), map[], map[],
        Dense(seq(Sum(u.sizes), _ => None), seq(Sum(u.sizes), _ => Zeros(u.width))))
  }

  lemma InitInv(u: Setup)
    ensures Inv(u, Init(u))
  {
    var s := Init(u);
    forall g: nat | g < |s.groups|
      ensures GroupOk(u, s, g)
    {
      LoNext(u.sizes, g);
      assert GroupAt(u, s, g, 0, 0);
    }
  }

  /** In every reachable state every group's members with slots sit at the front of its range in list
      order. */
  lemma {:induction false} RunInv(u: Setup, states: seq<Skew>, events: seq<Event>, i: nat)
    requires IsRun(u, states, events) && states[0] == Init(u) && i < |states|
    ensures Inv(u, states[i])
    decreases i
  {
    hide Inv, Init, StepTo;
    if i == 0 {
      InitInv(u);
    } else {
      RunInv(u, states, events, i - 1);
      assert StepTo(u, states[i - 1], events[i - 1], states[i - 1 + 1]);
      StepKeeps(u, states[i - 1], events[i - 1], states[i]);
    }
  }

  // ----- A reachable misalignment -----

  /** One group of three slots, prefilled in chunks. */
  const CHUNKED: Setup := Setup([3], 0, true)

  /** The three requests have arrived and joined the group. */
  ghost function Joined(a: TaskId, b: TaskId, c: TaskId): Skew {
    var init := Init(CHUNKED);
    Skew([[a, b, c]], map[a := 0, b := 0, c := 0],
        map[a := TaskSpec.Prefill, b := TaskSpec.Prefill, c := TaskSpec.Prefill], init.dense)
  }

  lemma JoinedRun(a: TaskId, b: TaskId, c: TaskId) returns (states: seq<Skew>, events: seq<Event>)
    requires a != b && b != c && a != c
    ensures IsRun(CHUNKED, states, events) && states[0] == Init(CHUNKED) && states[|events|] == Joined(a, b, c)
  {
    hide Prefilled, Left, Feeds, Leaves, Decodes, Filled;
    var s0 := Init(CHUNKED);
    var s1 := s0.(kind := s0.kind[a := TaskSpec.Prefill]);
    var s2 := s1.(kind := s1.kind[b := TaskSpec.Prefill]);
    var s3 := s2.(kind := s2.kind[c := TaskSpec.Prefill]);
    JoinThree(s3, a, b, c);
    states, events := [s0, s1, s2, s3, Joined(a, b, c)], [Arrive(a), Arrive(b), Arrive(c), Schedule(0, [a, b, c])];
  }

  lemma JoinThree(s: Skew, a: TaskId, b: TaskId, c: TaskId)
    requires a != b && b != c && a != c
    requires s == Init(CHUNKED).(kind := map[a := TaskSpec.Prefill, b := TaskSpec.Prefill, c := TaskSpec.Prefill])
    ensures Filled(CHUNKED, s, 0, [a, b, c]) == Joined(a, b, c)
  {
    hide OfKind, Join, Sum;
    var order := [a, b, c];
    assert [] + order == order && order[..3] == order;
    ThreeOfKind(s.kind, a, b, c);
    ThreeJoined(a, b, c);
    assert s.groups[0 := order] == [order];
  }

  lemma ThreeOfKind(kind: map<TaskId, Kind>, a: TaskId, b: TaskId, c: TaskId)
    requires a in kind && b in kind && c in kind
    requires kind[a] == kind[b] == kind[c] == TaskSpec.Prefill
    ensures OfKind(kind, [a, b, c], TaskSpec.Prefill) == [a, b, c]
  {
    var order := [a, b, c];
    assert order[1..] == [b, c] && order[1..][1..] == [c] && order[1..][1..][1..] == [];
    assert OfKind(kind, [c], TaskSpec.Prefill) == [c];
    assert OfKind(kind, [b, c], TaskSpec.Prefill) == [b, c];
  }

  lemma ThreeJoined(a: TaskId, b: TaskId, c: TaskId)
    ensures Join(map[], [a, b, c], 0) == map[a := 0, b := 0, c := 0]
  {
  }

  /** The first chunk completes the prefills of a and b, and a is stopped on its first token. This state
      is reachable, and when a leaves, the row of b moves to the front, but the list puts c there: no
      beginning of the list describes the slots. */
  lemma LeaveMisaligns(a: TaskId, b: TaskId, c: TaskId) returns (states: seq<Skew>, events: seq<Event>)
    requires a != b && b != c && a != c
    ensures IsRun(CHUNKED, states, events) && states[0] == Init(CHUNKED)
    ensures var s := states[|events|];
      && s.groups == [[a, b, c]] && a in s.kind && s.kind[a] == TaskSpec.Decode
      && |s.dense.hot| == |s.dense.rows| == Sum(CHUNKED.sizes)
      && var t := LeftOne(CHUNKED, s, a);
      && t.groups == [[c, b]] && |t.dense.hot| == 3
      && forall m: nat :: m <= 2 ==> !Packed(t.dense.hot, 0, 3, t.groups[0][..m])
  {
    hide Inv, StepTo, GroupAt, LeftOne, Prefilled, Packed, Init, PrefillBatch;
    states, events := JoinedRun(a, b, c);
    RunInv(CHUNKED, states, events, |events|);
    var t := FirstChunk(a, b, c);
    LeaveUnslotted(t, a, b, c);
    states, events := states + [t], events + [Prefill(FIRST)];
  }

  /** The step on a and b. */
  const FIRST: Feed := Feed(0, 0, 2, 2, [Zeros(0), Zeros(0)])

  lemma FirstChunk(a: TaskId, b: TaskId, c: TaskId) returns (t: Skew)
    requires a != b && b != c && a != c && Inv(CHUNKED, Joined(a, b, c))
    ensures StepTo(CHUNKED, Joined(a, b, c), Prefill(FIRST), t) && Inv(CHUNKED, t)
    ensures t.groups == [[a, b, c]] && GroupAt(CHUNKED, t, 0, 2, 2)
    ensures a in t.sched && t.sched[a] == 0 && a in t.kind && t.kind[a] == TaskSpec.Decode
  {
    hide Inv, StartOf, Sum, GroupAt, Prefilled, Packed, Init, Feeds;
    var s := Joined(a, b, c);
    FirstFeeds(a, b, c);
    PrefillKeeps(CHUNKED, s, 0, FIRST);
    PrefillGroup(CHUNKED, s, 0, FIRST);
    PrefilledIs(CHUNKED, s, 0, FIRST);
    t := Prefilled(CHUNKED, s, FIRST).value;
    assert s.groups[0][0..2][..2] == [a, b];
  }

  lemma FirstFeeds(a: TaskId, b: TaskId, c: TaskId)
    requires a != b && b != c && a != c
    ensures Feeds(CHUNKED, Joined(a, b, c), FIRST) && PrefillBatch(CHUNKED, Joined(a, b, c), 0, FIRST)
    ensures Lo([3], 0) == 0 && Lo([3], 1) == 3 && Sum([3]) == 3
    ensures |Joined(a, b, c).dense.hot| == |Joined(a, b, c).dense.rows| == 3
  {
    assert Lo([3], 0) == 0 && Lo([3], 1) == 3 && Sum([3]) == 3;
    assert GroupAt(CHUNKED, Joined(a, b, c), 0, 0, 0);
  }

  lemma LeaveUnslotted(s: Skew, a: TaskId, b: TaskId, c: TaskId)
    requires Inv(CHUNKED, s) && s.groups == [[a, b, c]] && GroupAt(CHUNKED, s, 0, 2, 2)
    requires a != b && b != c && a != c && a in s.sched && s.sched[a] == 0
    ensures |s.dense.hot| == |s.dense.rows| == Sum(CHUNKED.sizes)
    ensures var t := LeftOne(CHUNKED, s, a);
      && t.groups == [[c, b]] && |t.dense.hot| == 3
      && forall m: nat :: m <= 2 ==> !Packed(t.dense.hot, 0, 3, t.groups[0][..m])
  {
    assert Lo([3], 0) == 0 && Lo([3], 1) == 3 && Sum([3]) == 3;
    var list := [a, b, c];
    hide Members, GroupOk, LeftOne, SwapRemove;
    assert Packed(s.dense.hot, 0, 3, list[..2]);
    PackedSlot(s.dense, 0, 3, list[..2], 0, 0);
    RangesApart([3], 0, 0);
    LeaveExact(s.dense, 0, 0, 3, list, 2, 0);
    FirstOfThree(s, a, b, c);
  }

  lemma FirstOfThree(s: Skew, a: TaskId, b: TaskId, c: TaskId)
    requires |s.dense.hot| == |s.dense.rows| == Sum(CHUNKED.sizes) && s.groups == [[a, b, c]]
    requires a in s.sched && s.sched[a] == 0
    ensures SwapRemove([a, b, c], 0) == [c, b]
    ensures LeftOne(CHUNKED, s, a).groups == [[c, b]] && LeftOne(CHUNKED, s, a).dense == FreeIn(s.dense, [3], a, 0)
  {
    hide FreeIn, Sum;
    assert s.groups[0][0] == a;
    assert SwapRemove([a, b, c], 0) == [c, b];
  }
}
