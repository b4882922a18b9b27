/**
 The rounds of the first-in-first-out scheduler of expert data parallelism, as functions of the pool. It
 gives every request an owner rank when it is first prefilled, schedules it only there, and cuts the
 prefill chunk size into per-rank budgets. What holds of every round and of every run of rounds is
 proved here; the class in `DpScheduling` makes these rounds in place.
 */
module DpRounds {
  import opened Base
  import opened Ranking
  import TaskSpec

  type Kind = TaskSpec.Kind

  /** `remaining` are the prefix tokens that are not consumed yet. */
  datatype DpTask = DpTask(kind: Kind, waiting: bool, stopped: bool, owner: Option<nat>, remaining: nat,
      chunk: Option<nat>)

  type Pool = map<TaskId, DpTask>

  /** The unfinished requests among `ids` that rank r owns. */
  function Owned(tasks: Pool, ids: set<TaskId>, r: nat): (s: set<TaskId>)
    ensures s <= ids
  {
    set id | id in ids && id in tasks && tasks[id].owner == Some(r) && !tasks[id].stopped
  }

  /** The requests of one rank, finished or not. */
  ghost function OwnedBy(tasks: Pool, r: nat): set<TaskId> {
    set id | id in tasks && tasks[id].owner == Some(r)
  }

  /** The requests whose prefix is not all consumed. */
  ghost function Unfed(tasks: Pool): set<TaskId> {
    set id | id in tasks && tasks[id].remaining > 0
  }

  /** Every rank owns at most `most` unfinished requests; owners are ranks; whoever decodes has one; and
      finished requests are gone by the time the scheduler runs. */
  ghost predicate Inv(tasks: Pool, dpSize: nat, most: nat) {
    && (forall r :: 0 <= r < dpSize ==> |Owned(tasks, tasks.Keys, r)| <= most)
    && (forall id :: id in tasks && tasks[id].owner.Some? ==> tasks[id].owner.value < dpSize)
    && (forall id :: id in tasks && tasks[id].kind == TaskSpec.Decode ==> tasks[id].owner.Some?)
    && (forall id :: id in tasks ==> !tasks[id].stopped)
  }

  /** Scheduling only ever adds owners and sets chunk sizes. */
  ghost predicate Grows(before: Pool, after: Pool) {
    && before.Keys == after.Keys
    && forall id :: id in before ==>
         && after[id].(owner := before[id].owner, chunk := before[id].chunk) == before[id]
         && (before[id].owner.Some? ==> after[id].owner == before[id].owner)
  }

  lemma GrowsTrans(a: Pool, b: Pool, c: Pool)
    requires Grows(a, b) && Grows(b, c)
    ensures Grows(a, c)
  {
  }

  /** The lists handed to the ranks hold only requests they own, each once, all of one kind. */
  ghost predicate OnOwners(tasks: Pool, lists: seq<seq<TaskId>>, kind: Kind) {
    && (forall r :: 0 <= r < |lists| ==> Distinct(lists[r]))
    && forall r, id :: 0 <= r < |lists| && id in lists[r] ==>
         id in tasks && tasks[id].owner == Some(r) && tasks[id].kind == kind && !tasks[id].waiting && !tasks[id].stopped
  }

  lemma {:induction false} DistinctSize(list: seq<TaskId>)
    requires Distinct(list)
    ensures |Ids(list)| == |list|
    decreases |list|
  {
    if list != [] {
      assert forall x :: x in list[1..] ==> x != list[0];
      DistinctSize(list[1..]);
      assert Ids(list) == {list[0]} + Ids(list[1..]);
    }
  }

  lemma {:induction false} SubsetSize<T>(a: set<T>, b: set<T>)
    requires a <= b
    ensures |a| <= |b|
    decreases |a|
  {
    if a != {} {
      var x :| x in a;
      SubsetSize(a - {x}, b - {x});
    }
  }

  /** The final truncation to the capacity of a rank never drops anything. */
  lemma NothingDropped(tasks: Pool, dpSize: nat, most: nat, lists: seq<seq<TaskId>>, kind: Kind, r: nat)
    requires Inv(tasks, dpSize, most) && OnOwners(tasks, lists, kind) && r < |lists| == dpSize
    ensures |lists[r]| <= most
  {
    DistinctSize(lists[r]);
    assert Ids(lists[r]) <= Owned(tasks, tasks.Keys, r);
    SubsetSize(Ids(lists[r]), Owned(tasks, tasks.Keys, r));
  }

  // ----- Chunk budgets -----

  /** What each rank may prefill in one step. */
  function Budget(chunkSize: nat, dpSize: nat, r: nat): nat
    requires dpSize > 0
  {
    chunkSize / dpSize + if r == 0 then chunkSize % dpSize else 0
  }

  function BudgetSum(chunkSize: nat, dpSize: nat, n: nat): nat
    requires dpSize > 0
  {
    if n == 0 then 0 else BudgetSum(chunkSize, dpSize, n - 1) + Budget(chunkSize, dpSize, n - 1)
  }

  lemma {:induction false} BudgetSumIs(chunkSize: nat, dpSize: nat, n: nat)
    requires dpSize > 0 && n > 0
    ensures BudgetSum(chunkSize, dpSize, n) == n * (chunkSize / dpSize) + chunkSize % dpSize
    decreases n
  {
    if n > 1 {
      BudgetSumIs(chunkSize, dpSize, n - 1);
      assert n * (chunkSize / dpSize) == (n - 1) * (chunkSize / dpSize) + chunkSize / dpSize;
    } else {
      assert BudgetSum(chunkSize, dpSize, 0) == 0;
    }
  }

  /** The budgets of all ranks are exactly the chunk size. */
  lemma BudgetsAddUp(chunkSize: nat, dpSize: nat)
    requires dpSize > 0
    ensures BudgetSum(chunkSize, dpSize, dpSize) == chunkSize
  {
    BudgetSumIs(chunkSize, dpSize, dpSize);
    DivBounds(chunkSize, dpSize);
  }

  /** A rank gets a budget at all exactly when it is the first one or the chunk size reaches the number
      of ranks: with a smaller chunk size requests owned by any other rank are never prefilled. */
  lemma BudgetPositive(chunkSize: nat, dpSize: nat, r: nat)
    requires dpSize > 0 && chunkSize > 0
    ensures Budget(chunkSize, dpSize, r) > 0 <==> r == 0 || chunkSize >= dpSize
  {
    DivBounds(chunkSize, dpSize);
    if chunkSize < dpSize {
      DivUnique(0, chunkSize, dpSize);
    } else if chunkSize / dpSize == 0 {
      assert false;
    }
  }

  /** All ranks but the first get the same, and the first gets the few tokens that are left over. */
  lemma BudgetShares(chunkSize: nat, dpSize: nat, r: nat)
    requires 0 < r < dpSize
    ensures Budget(chunkSize, dpSize, r) == Budget(chunkSize, dpSize, dpSize - 1)
    ensures Budget(chunkSize, dpSize, r) <= Budget(chunkSize, dpSize, 0) < Budget(chunkSize, dpSize, r) + dpSize
  {
    DivBounds(chunkSize, dpSize);
  }

  /** The tokens that a list of tasks prefills in this step. */
  function ChunkTokens(tasks: Pool, list: seq<TaskId>): nat
    decreases |list|
  {
    if list == [] then 0
    else
      (if list[0] in tasks && tasks[list[0]].chunk.Some? then tasks[list[0]].chunk.value else 0)
        + ChunkTokens(tasks, list[1..])
  }

  function ChunkTotal(tasks: Pool, lists: seq<seq<TaskId>>): nat
    decreases |lists|
  {
    if lists == [] then 0 else ChunkTokens(tasks, lists[0]) + ChunkTotal(tasks, lists[1..])
  }

  lemma {:induction false} ChunkTokensSame(a: Pool, b: Pool, list: seq<TaskId>)
    requires forall id :: id in list ==> (id in a <==> id in b) && (id in a ==> a[id].chunk == b[id].chunk)
    ensures ChunkTokens(a, list) == ChunkTokens(b, list)
    decreases |list|
  {
    if list != [] {
      ChunkTokensSame(a, b, list[1..]);
    }
  }

  lemma {:induction false} ChunkTokensAppend(tasks: Pool, list: seq<TaskId>, id: TaskId)
    requires id in tasks && tasks[id].chunk.Some?
    ensures ChunkTokens(tasks, list + [id]) == ChunkTokens(tasks, list) + tasks[id].chunk.value
    decreases |list|
  {
    if list == [] {
      assert ChunkTokens(tasks, [id]) == tasks[id].chunk.value + ChunkTokens(tasks, [id][1..]);
    } else {
      assert (list + [id])[1..] == list[1..] + [id];
      ChunkTokensAppend(tasks, list[1..], id);
    }
  }

  lemma {:induction false} ChunkTotalSame(a: Pool, b: Pool, lists: seq<seq<TaskId>>)
    requires forall r, id :: 0 <= r < |lists| && id in lists[r] ==>
      (id in a <==> id in b) && (id in a ==> a[id].chunk == b[id].chunk)
    ensures ChunkTotal(a, lists) == ChunkTotal(b, lists)
    decreases |lists|
  {
    if lists != [] {
      ChunkTokensSame(a, b, lists[0]);
      ChunkTotalSame(a, b, lists[1..]);
    }
  }

  lemma {:induction false} ChunkTotalAppend(tasks: Pool, lists: seq<seq<TaskId>>, list: seq<TaskId>)
    ensures ChunkTotal(tasks, lists + [list]) == ChunkTotal(tasks, lists) + ChunkTokens(tasks, list)
    decreases |lists|
  {
    if lists == [] {
      assert ChunkTotal(tasks, [list]) == ChunkTokens(tasks, list) + ChunkTotal(tasks, [list][1..]);
    } else {
      assert (lists + [list])[1..] == lists[1..] + [list];
      ChunkTotalAppend(tasks, lists[1..], list);
    }
  }

  // ----- One more owner -----

  lemma OwnedGrows(tasks: Pool, id: TaskId, r: nat, k: nat)
    requires id in tasks && tasks[id].owner == None && !tasks[id].stopped
    ensures var after := tasks[id := tasks[id].(owner := Some(r))];
      && after.Keys == tasks.Keys
      && |Owned(after, after.Keys, k)| == |Owned(tasks, tasks.Keys, k)| + if k == r then 1 else 0
  {
    var after := tasks[id := tasks[id].(owner := Some(r))];
    assert after.Keys == tasks.Keys;
    if k == r {
      assert Owned(after, after.Keys, k) == Owned(tasks, tasks.Keys, k) + {id};
    } else {
      assert Owned(after, after.Keys, k) == Owned(tasks, tasks.Keys, k);
    }
  }

  lemma OwnedNext(tasks: Pool, ids: seq<TaskId>, i: nat, r: nat)
    requires Distinct(ids) && i < |ids| && ids[i] in tasks
    ensures |Owned(tasks, Ids(ids[..i + 1]), r)| ==
      |Owned(tasks, Ids(ids[..i]), r)| + if tasks[ids[i]].owner == Some(r) && !tasks[ids[i]].stopped then 1 else 0
  {
    var a, b := Owned(tasks, Ids(ids[..i]), r), Owned(tasks, Ids(ids[..i + 1]), r);
    assert ids[..i + 1] == ids[..i] + [ids[i]];
    assert ids[i] !in ids[..i];
    if tasks[ids[i]].owner == Some(r) && !tasks[ids[i]].stopped {
      assert b == a + {ids[i]};
    } else {
      assert b == a;
    }
  }

  lemma TakenInv(tasks: Pool, dpSize: nat, most: nat, id: TaskId, r: nat)
    requires Inv(tasks, dpSize, most) && id in tasks && tasks[id].owner == None
    requires r < dpSize && |Owned(tasks, tasks.Keys, r)| < most
    ensures var after := tasks[id := tasks[id].(owner := Some(r))];
      && Inv(after, dpSize, most)
      && forall k :: 0 <= k < dpSize ==>
          |Owned(after, after.Keys, k)| == |Owned(tasks, tasks.Keys, k)| + if k == r then 1 else 0
  {
    hide Owned;
    var after := tasks[id := tasks[id].(owner := Some(r))];
    forall k: nat | k < dpSize
      ensures |Owned(after, after.Keys, k)| == |Owned(tasks, tasks.Keys, k)| + if k == r then 1 else 0
    {
      OwnedGrows(tasks, id, r, k);
    }
  }

  lemma OwnerInRange(tasks: Pool, dpSize: nat, most: nat, id: TaskId)
    requires Inv(tasks, dpSize, most) && id in tasks
    ensures (tasks[id].owner.Some? ==> tasks[id].owner.value < dpSize) && !tasks[id].stopped
    ensures tasks[id].kind == TaskSpec.Decode ==> tasks[id].owner.Some?
  {
  }

  lemma GrowsRefl(tasks: Pool)
    ensures Grows(tasks, tasks)
  {
  }

  lemma OnOwnersGrow(a: Pool, b: Pool, lists: seq<seq<TaskId>>, kind: Kind)
    requires OnOwners(a, lists, kind) && Grows(a, b)
    ensures OnOwners(b, lists, kind)
  {
  }

  lemma OnOwnersAppend(tasks: Pool, lists: seq<seq<TaskId>>, kind: Kind, r: nat, id: TaskId)
    requires OnOwners(tasks, lists, kind) && r < |lists| && id !in lists[r]
    requires id in tasks && tasks[id].owner == Some(r) && tasks[id].kind == kind && !tasks[id].waiting
    requires !tasks[id].stopped
    ensures OnOwners(tasks, lists[r := lists[r] + [id]], kind)
  {
  }

  ghost predicate Full(tasks: Pool, dpSize: nat, most: nat) {
    forall r :: 0 <= r < dpSize ==> |Owned(tasks, tasks.Keys, r)| == most
  }

  /** Where the candidates have gone: the list of a rank holds exactly those it owns, in their order, and
      somebody was passed over only because all ranks are full. */
  ghost predicate Placed(tasks: Pool, dpSize: nat, most: nat, order: seq<TaskId>, lists: seq<seq<TaskId>>) {
    && |lists| == dpSize
    && (forall id :: id in order ==> id in tasks && (tasks[id].owner.Some? ==> tasks[id].owner.value < dpSize))
    && (forall id :: id in order && tasks[id].owner.None? ==> Full(tasks, dpSize, most))
    && (forall r :: 0 <= r < dpSize ==> AllOf(order, OwnedBy(tasks, r), lists[r]))
  }

  lemma PlacedOnly(tasks: Pool, dpSize: nat, most: nat, order: seq<TaskId>, lists: seq<seq<TaskId>>, id: TaskId)
    requires Placed(tasks, dpSize, most, order, lists) && id !in order
    ensures |lists| == dpSize && forall r :: 0 <= r < dpSize ==> id !in lists[r]
  {
    hide InOrder;
    forall r | 0 <= r < dpSize
      ensures id !in lists[r]
    {
      assert AllOf(order, OwnedBy(tasks, r), lists[r]);
    }
  }

  lemma PlacedListed(tasks: Pool, dpSize: nat, most: nat, order: seq<TaskId>, lists: seq<seq<TaskId>>, id: TaskId)
    requires Placed(tasks, dpSize, most, order, lists) && id in order && id in tasks && tasks[id].owner.Some?
    ensures tasks[id].owner.value < |lists| == dpSize && id in lists[tasks[id].owner.value]
  {
    hide InOrder;
    assert AllOf(order, OwnedBy(tasks, tasks[id].owner.value), lists[tasks[id].owner.value]);
  }

  lemma FullStays(a: Pool, b: Pool, dpSize: nat, most: nat)
    requires Grows(a, b) && Inv(b, dpSize, most) && Full(a, dpSize, most)
    ensures Full(b, dpSize, most)
  {
    forall r | 0 <= r < dpSize
      ensures |Owned(b, b.Keys, r)| == most
    {
      SubsetSize(Owned(a, a.Keys, r), Owned(b, b.Keys, r));
    }
  }

  lemma PlacedNext(a: Pool, b: Pool, dpSize: nat, most: nat, order: seq<TaskId>, id: TaskId, lists: seq<seq<TaskId>>,
      after: seq<seq<TaskId>>)
    requires Placed(a, dpSize, most, order, lists) && Grows(a, b) && Inv(b, dpSize, most) && id in b && id !in order
    requires forall other :: other in b && other != id ==> b[other] == a[other]
    requires b[id].owner.Some? ==>
      b[id].owner.value < dpSize && after == lists[b[id].owner.value := lists[b[id].owner.value] + [id]]
    requires b[id].owner.None? ==> after == lists && Full(b, dpSize, most)
    ensures Placed(b, dpSize, most, order + [id], after)
  {
    hide Full, Inv, AllOf, OwnedBy;
    if x :| x in order && a[x].owner.None? {
      FullStays(a, b, dpSize, most);
    }
    forall r: nat | r < dpSize
      ensures AllOf(order + [id], OwnedBy(b, r), after[r])
    {
      OwnedSame(a, b, order, r, lists[r]);
      AllOfSnoc(order, id, OwnedBy(b, r), lists[r]);
      OwnedIs(b, id, r);
    }
  }

  lemma OwnedIs(tasks: Pool, id: TaskId, r: nat)
    requires id in tasks
    ensures id in OwnedBy(tasks, r) <==> tasks[id].owner == Some(r)
  {
  }

  lemma OwnedSame(a: Pool, b: Pool, order: seq<TaskId>, r: nat, list: seq<TaskId>)
    requires AllOf(order, OwnedBy(a, r), list)
    requires forall id :: id in order ==> id in a && id in b && b[id].owner == a[id].owner
    ensures AllOf(order, OwnedBy(b, r), list)
  {
    hide AllOf;
    AllOfSame(order, OwnedBy(a, r), OwnedBy(b, r), list);
  }

  /** Every listed task has a chunk of at least one and at most all of its remaining tokens. */
  ghost predicate Chunked(tasks: Pool, list: seq<TaskId>) {
    forall id :: id in list ==> id in tasks && tasks[id].chunk.Some? && 0 < tasks[id].chunk.value <= tasks[id].remaining
  }

  /** Nothing but chunk sizes differs. */
  ghost predicate OnlyChunks(before: Pool, after: Pool) {
    before.Keys == after.Keys && forall id :: id in before ==> after[id].(chunk := before[id].chunk) == before[id]
  }

  lemma OnlyChunksTrans(a: Pool, b: Pool, c: Pool)
    requires OnlyChunks(a, b) && OnlyChunks(b, c)
    ensures OnlyChunks(a, c)
  {
  }

  lemma OnlyChunksGrows(a: Pool, b: Pool)
    requires OnlyChunks(a, b)
    ensures Grows(a, b)
  {
  }

  /** Whoever is left out of the list has nothing remaining or finds the budget used up. */
  ghost predicate UsedUp(tasks: Pool, list: seq<TaskId>, kept: seq<TaskId>, budget: nat) {
    forall id :: id in list && id !in kept ==>
      id in tasks && (tasks[id].remaining == 0 || ChunkTokens(tasks, kept) == budget)
  }

  /** The first n of these tasks get all that remains of them. */
  ghost predicate WholeChunks(tasks: Pool, kept: seq<TaskId>, n: int) {
    forall i :: 0 <= i < n && i < |kept| ==> kept[i] in tasks && tasks[kept[i]].chunk == Some(tasks[kept[i]].remaining)
  }

  /** What a rank is given: the first of its unfed tasks, each all that remains of it except possibly the last,
      within the budget. If the budget is not used up, nobody is left out and nobody gets less. */
  ghost predicate Rationed(tasks: Pool, order: seq<TaskId>, of: set<TaskId>, kept: seq<TaskId>, budget: nat) {
    && FirstOf(order, of, kept) && Chunked(tasks, kept) && WholeChunks(tasks, kept, |kept| - 1)
    && ChunkTokens(tasks, kept) <= budget
    && (ChunkTokens(tasks, kept) < budget ==> AllOf(order, of, kept) && WholeChunks(tasks, kept, |kept|))
  }

  /** The list of a rank cut to its budget. */
  ghost predicate CutOk(tasks: Pool, list: seq<TaskId>, kept: seq<TaskId>, budget: nat) {
    Rationed(tasks, list, Unfed(tasks), kept, budget)
  }

  /** Whoever is left out has nothing remaining or finds the budget used up. */
  lemma CutUsedUp(tasks: Pool, list: seq<TaskId>, kept: seq<TaskId>, budget: nat)
    requires CutOk(tasks, list, kept, budget) && forall id :: id in list ==> id in tasks
    ensures Chunked(tasks, kept) && (forall id :: id in kept ==> id in list) && UsedUp(tasks, list, kept, budget)
  {
    hide InOrder;
  }

  lemma CutOkSame(a: Pool, b: Pool, list: seq<TaskId>, kept: seq<TaskId>, budget: nat)
    requires CutOk(a, list, kept, budget) && OnlyChunks(a, b)
    requires forall id :: id in kept && id in a ==> b[id] == a[id]
    ensures CutOk(b, list, kept, budget)
  {
    hide FirstOf, AllOf;
    ChunkTokensSame(a, b, kept);
    assert Unfed(a) == Unfed(b);
  }

  /** Who is passed over among the candidates: with no owner, only if all ranks are full; with an owner,
      only if prefills are chunked and nothing remains of the prefix or the owner's budget is used up. */
  ghost predicate PassedOver(tasks: Pool, dpSize: nat, most: nat, size: nat, order: seq<TaskId>,
      lists: seq<seq<TaskId>>) {
    && |lists| == dpSize > 0
    && forall id :: id in order ==> id in tasks && PassedOverOne(tasks, dpSize, most, size, id, lists)
  }

  ghost predicate PassedOverOne(tasks: Pool, dpSize: nat, most: nat, size: nat, id: TaskId, lists: seq<seq<TaskId>>)
    requires id in tasks && |lists| == dpSize > 0
  {
    match tasks[id].owner
    case None => Full(tasks, dpSize, most)
    case Some(r) =>
      && r < dpSize
      && (id in lists[r]
          || (size > 0 && (tasks[id].remaining == 0 || ChunkTokens(tasks, lists[r]) == Budget(size, dpSize, r))))
  }

  lemma PlacedPasses(tasks: Pool, dpSize: nat, most: nat, order: seq<TaskId>, lists: seq<seq<TaskId>>)
    requires dpSize > 0 && Placed(tasks, dpSize, most, order, lists)
    ensures PassedOver(tasks, dpSize, most, 0, order, lists)
  {
    hide Full, AllOf;
    forall id | id in order
      ensures id in tasks && PassedOverOne(tasks, dpSize, most, 0, id, lists)
    {
      if tasks[id].owner.Some? {
        PlacedListed(tasks, dpSize, most, order, lists, id);
      }
    }
  }

  lemma CutPasses(a: Pool, b: Pool, dpSize: nat, most: nat, size: nat, order: seq<TaskId>, lists: seq<seq<TaskId>>,
      cut: seq<seq<TaskId>>)
    requires dpSize > 0 && size > 0 && Placed(a, dpSize, most, order, lists) && OnlyChunks(a, b) && |cut| == dpSize
    requires forall r :: 0 <= r < dpSize ==> UsedUp(b, lists[r], cut[r], Budget(size, dpSize, r))
    ensures PassedOver(b, dpSize, most, size, order, cut)
  {
    hide Budget, ChunkTokens, Full, AllOf;
    FullSame(a, b, dpSize, most);
    forall id | id in order
      ensures id in b && PassedOverOne(b, dpSize, most, size, id, cut)
    {
      if b[id].owner.Some? && id !in cut[b[id].owner.value] {
        PlacedListed(a, dpSize, most, order, lists, id);
        assert UsedUp(b, lists[b[id].owner.value], cut[b[id].owner.value], Budget(size, dpSize, b[id].owner.value));
      }
    }
  }

  lemma FullSame(a: Pool, b: Pool, dpSize: nat, most: nat)
    requires OnlyChunks(a, b)
    ensures Full(a, dpSize, most) <==> Full(b, dpSize, most)
  {
    forall r | 0 <= r < dpSize
      ensures Owned(b, b.Keys, r) == Owned(a, a.Keys, r)
    {
    }
  }

  predicate ReadyDecode(t: DpTask) {
    t.kind == TaskSpec.Decode && !t.waiting && !t.stopped
  }

  /** All ready decode tasks are listed with their owners. */
  ghost predicate AllDecoding(tasks: Pool, dpSize: nat, ids: seq<TaskId>, lists: seq<seq<TaskId>>) {
    && |lists| == dpSize
    && forall id :: id in ids && id in tasks && ReadyDecode(tasks[id]) ==>
         tasks[id].owner.Some? && tasks[id].owner.value < dpSize && id in lists[tasks[id].owner.value]
  }

  ghost function ReadyDecodes(tasks: Pool): set<TaskId> {
    set id | id in tasks && ReadyDecode(tasks[id])
  }

  /** What the ranks are handed in a prefill round: of the candidates each owns, all, or with chunks what its
      budget allows. */
  ghost predicate PrefillServed(u: Setup, tasks: Pool, order: seq<TaskId>, lists: seq<seq<TaskId>>)
    requires u.dpSize > 0
  {
    && |lists| == u.dpSize
    && forall k :: 0 <= k < u.dpSize ==>
         if u.size > 0 then Rationed(tasks, order, OwnedBy(tasks, k) * Unfed(tasks), lists[k],
           Budget(u.size, u.dpSize, k))
         else AllOf(order, OwnedBy(tasks, k), lists[k])
  }

  /** In a decode round: each its ready decode tasks, in the order of the pool. */
  ghost predicate DecodeServed(tasks: Pool, dpSize: nat, ids: seq<TaskId>, lists: seq<seq<TaskId>>) {
    |lists| == dpSize && forall k :: 0 <= k < dpSize ==> AllOf(ids, OwnedBy(tasks, k) * ReadyDecodes(tasks), lists[k])
  }

  lemma ListFacts(tasks: Pool, lists: seq<seq<TaskId>>, r: nat)
    requires OnOwners(tasks, lists, TaskSpec.Prefill) && r < |lists|
    ensures Distinct(lists[r]) && forall id :: id in lists[r] ==> id in tasks
  {
  }

  /** Cutting the list of one more rank. */
  lemma CutNext(a: Pool, b: Pool, lists: seq<seq<TaskId>>, cut: seq<seq<TaskId>>, kept: seq<TaskId>)
    requires OnlyChunks(a, b) && OnOwners(b, lists, TaskSpec.Prefill) && OnOwners(b, cut, TaskSpec.Prefill)
    requires |cut| < |lists|
    requires forall id :: id in a && id !in lists[|cut|] ==> b[id] == a[id]
    requires Distinct(kept) && forall id :: id in kept ==> id in lists[|cut|]
    ensures OnOwners(b, cut + [kept], TaskSpec.Prefill)
    ensures ChunkTotal(b, cut + [kept]) == ChunkTotal(a, cut) + ChunkTokens(b, kept)
  {
    hide OnOwners, ChunkTotal, ChunkTokens;
    OtherRanks(b, lists, cut);
    ChunkTotalSame(a, b, cut);
    ChunkTotalAppend(b, cut, kept);
    CutOwners(b, lists, cut, kept);
  }

  lemma OtherRanks(tasks: Pool, lists: seq<seq<TaskId>>, cut: seq<seq<TaskId>>)
    requires OnOwners(tasks, lists, TaskSpec.Prefill) && OnOwners(tasks, cut, TaskSpec.Prefill) && |cut| < |lists|
    ensures forall r, id :: 0 <= r < |cut| && id in cut[r] ==> id in tasks && id !in lists[|cut|]
  {
    forall r, id | 0 <= r < |cut| && id in cut[r]
      ensures id in tasks && id !in lists[|cut|]
    {
      assert tasks[id].owner == Some(r);
    }
  }

  lemma CutOwners(tasks: Pool, lists: seq<seq<TaskId>>, cut: seq<seq<TaskId>>, kept: seq<TaskId>)
    requires OnOwners(tasks, lists, TaskSpec.Prefill) && OnOwners(tasks, cut, TaskSpec.Prefill) && |cut| < |lists|
    requires Distinct(kept) && forall id :: id in kept ==> id in lists[|cut|]
    ensures OnOwners(tasks, cut + [kept], TaskSpec.Prefill)
  {
  }

  /** Setting chunk sizes does not change who owns what. */
  lemma GrownInv(a: Pool, b: Pool, dpSize: nat, most: nat)
    requires Inv(a, dpSize, most) && OnlyChunks(a, b)
    ensures Inv(b, dpSize, most)
  {
    forall r | 0 <= r < dpSize
      ensures |Owned(b, b.Keys, r)| <= most
    {
      assert Owned(b, b.Keys, r) == Owned(a, a.Keys, r);
    }
  }

  // ----- Owner assignment -----

  /** The ranks, how many unfinished requests each may own, and the chunk size (zero if prefills are not
      chunked). */
  datatype Setup = Setup(dpSize: nat, most: nat, size: nat)

  function NextOf(cursor: nat, n: nat): (c: nat)
    requires cursor < n
    ensures c < n && c == (cursor + 1) % n
  {
    DivUnique(if cursor + 1 == n then 1 else 0, if cursor + 1 == n then 0 else cursor + 1, n);
    if cursor + 1 == n then 0 else cursor + 1
  }

  /** The round-robin search for a rank with a free slot, and where the cursor is afterwards. */
  function NextRank(free: seq<nat>, cursor: nat, tries: nat): (r: (Option<nat>, nat))
    requires cursor < |free|
    ensures r.1 < |free| && (r.0.Some? ==> r.0.value < |free| && free[r.0.value] > 0)
    decreases tries
  {
    if tries == 0 then (None, cursor)
    else if free[cursor] > 0 then (Some(cursor), NextOf(cursor, |free|))
    else NextRank(free, NextOf(cursor, |free|), tries - 1)
  }

  /** Rank k is among the next `tries` ranks from the cursor on. */
  predicate Ahead(cursor: nat, tries: nat, n: nat, k: nat) {
    cursor <= k < cursor + tries || k + n < cursor + tries
  }

  /** The search over all ranks fails exactly when none has a free slot. */
  lemma {:induction false} NextRankFails(free: seq<nat>, cursor: nat, tries: nat)
    requires cursor < |free| && tries <= |free|
    ensures NextRank(free, cursor, tries).0.None? <==>
      forall k :: 0 <= k < |free| && Ahead(cursor, tries, |free|, k) ==> free[k] == 0
    decreases tries
  {
    if tries > 0 {
      assert Ahead(cursor, tries, |free|, cursor);
      var next := NextOf(cursor, |free|);
      NextRankFails(free, next, tries - 1);
      forall k: nat | k < |free|
        ensures Ahead(cursor, tries, |free|, k) <==> k == cursor || Ahead(next, tries - 1, |free|, k)
      {
      }
    }
  }

  lemma AllAhead(cursor: nat, n: nat, k: nat)
    requires cursor < n && k < n
    ensures Ahead(cursor, n, n, k)
  {
  }

  /** The state of the owner assignment: the pool, the cursor, the free slots and the lists of all ranks. */
  datatype Assignment = Assignment(tasks: Pool, cursor: nat, free: seq<nat>, lists: seq<seq<TaskId>>)

  ghost predicate Sized(a: Assignment, n: nat) {
    a.cursor < n == |a.free| == |a.lists| && Known(a.tasks, a.lists)
  }

  /** Whoever is listed is in the pool. */
  ghost predicate Known(tasks: Pool, lists: seq<seq<TaskId>>) {
    forall r, id :: 0 <= r < |lists| && id in lists[r] ==> id in tasks
  }

  /** One candidate: it goes to its owner, or to the next rank with a free slot, or nowhere. */
  function AssignTask(a: Assignment, id: TaskId): (b: Assignment)
    requires Sized(a, |a.lists|) && id in a.tasks
    ensures Sized(b, |a.lists|) && b.tasks.Keys == a.tasks.Keys
  {
    match a.tasks[id].owner
    case Some(r) => if r < |a.lists| then a.(lists := a.lists[r := a.lists[r] + [id]]) else a
    case None =>
      var (r, cursor) := NextRank(a.free, a.cursor, |a.free|);
      match r
      case None => a.(cursor := cursor)
      case Some(k) =>
        Assignment(a.tasks[id := a.tasks[id].(owner := Some(k))], cursor, a.free[k := a.free[k] - 1],
                   a.lists[k := a.lists[k] + [id]])
  }

  function AssignAll(a: Assignment, order: seq<TaskId>): (b: Assignment)
    requires Sized(a, |a.lists|) && forall id :: id in order ==> id in a.tasks
    ensures Sized(b, |a.lists|) && b.tasks.Keys == a.tasks.Keys
    decreases |order|
  {
    if order == [] then a else AssignAll(AssignTask(a, order[0]), order[1..])
  }

  /** Nothing is assigned yet, and the free slots are what the capacity leaves. */
  function StartAssignment(u: Setup, tasks: Pool, cursor: nat): Assignment {
    Assignment(tasks, cursor, seq(u.dpSize, r requires 0 <= r => Max(0, u.most - |Owned(tasks, tasks.Keys, r)|)),
               seq(u.dpSize, _ => []))
  }

  /** The candidates of a round, ready tasks that are to be prefilled, each once. */
  ghost predicate Candidates(tasks: Pool, order: seq<TaskId>) {
    Distinct(order) && forall id :: id in order ==>
      id in tasks && tasks[id].kind == TaskSpec.Prefill && !tasks[id].waiting
  }

  /** What holds once the candidates `done` have been assigned. */
  ghost predicate Assigning(u: Setup, start: Pool, done: seq<TaskId>, a: Assignment) {
    && Sized(a, u.dpSize) && Inv(a.tasks, u.dpSize, u.most) && Grows(start, a.tasks)
    && (forall r :: 0 <= r < u.dpSize ==> a.free[r] == u.most - |Owned(a.tasks, a.tasks.Keys, r)|)
    && OnOwners(a.tasks, a.lists, TaskSpec.Prefill) && Placed(a.tasks, u.dpSize, u.most, done, a.lists)
  }

  lemma AssigningStarts(u: Setup, tasks: Pool, cursor: nat)
    requires Inv(tasks, u.dpSize, u.most) && cursor < u.dpSize
    ensures Assigning(u, tasks, [], StartAssignment(u, tasks, cursor))
  {
  }

  /** Somebody who has an owner already. */
  lemma AssignOwned(u: Setup, start: Pool, done: seq<TaskId>, a: Assignment, id: TaskId)
    requires Assigning(u, start, done, a) && Candidates(a.tasks, [id]) && id !in done && id in a.tasks
    requires a.tasks[id].owner.Some?
    ensures Assigning(u, start, done + [id], AssignTask(a, id))
  {
    hide Inv, Owned, OnOwners, Grows, Placed;
    assert id in [id];
    OwnerInRange(a.tasks, u.dpSize, u.most, id);
    PlacedOnly(a.tasks, u.dpSize, u.most, done, a.lists, id);
    var r := a.tasks[id].owner.value;
    OnOwnersAppend(a.tasks, a.lists, TaskSpec.Prefill, r, id);
    GrowsRefl(a.tasks);
    PlacedNext(a.tasks, a.tasks, u.dpSize, u.most, done, id, a.lists, AssignTask(a, id).lists);
  }

  /** Somebody who finds a rank. */
  lemma AssignFound(u: Setup, start: Pool, done: seq<TaskId>, a: Assignment, id: TaskId, k: nat)
    requires Assigning(u, start, done, a) && Candidates(a.tasks, [id]) && id !in done && id in a.tasks
    requires a.tasks[id].owner.None? && NextRank(a.free, a.cursor, |a.free|).0 == Some(k)
    ensures Assigning(u, start, done + [id], AssignTask(a, id))
  {
    hide Inv, Owned, OnOwners, Grows, Placed;
    assert id in [id];
    var b := AssignTask(a, id);
    OwnerInRange(a.tasks, u.dpSize, u.most, id);
    PlacedOnly(a.tasks, u.dpSize, u.most, done, a.lists, id);
    TakenInv(a.tasks, u.dpSize, u.most, id, k);
    TakenGrows(a.tasks, id, k);
    GrowsTrans(start, a.tasks, b.tasks);
    OnOwnersGrow(a.tasks, b.tasks, a.lists, TaskSpec.Prefill);
    OnOwnersAppend(b.tasks, a.lists, TaskSpec.Prefill, k, id);
    PlacedNext(a.tasks, b.tasks, u.dpSize, u.most, done, id, a.lists, b.lists);
  }

  lemma TakenGrows(tasks: Pool, id: TaskId, k: nat)
    requires id in tasks && tasks[id].owner.None?
    ensures Grows(tasks, tasks[id := tasks[id].(owner := Some(k))])
  {
  }

  /** Somebody who finds none: all ranks are full. */
  lemma AssignFull(u: Setup, start: Pool, done: seq<TaskId>, a: Assignment, id: TaskId)
    requires Assigning(u, start, done, a) && Candidates(a.tasks, [id]) && id !in done && id in a.tasks
    requires a.tasks[id].owner.None? && NextRank(a.free, a.cursor, |a.free|).0 == None
    ensures Assigning(u, start, done + [id], AssignTask(a, id))
  {
    hide Inv, Owned, OnOwners, Grows, Placed, NextRank;
    NextRankFails(a.free, a.cursor, |a.free|);
    forall r: nat | r < u.dpSize
      ensures a.free[r] == 0
    {
      AllAhead(a.cursor, u.dpSize, r);
    }
    PlacedOnly(a.tasks, u.dpSize, u.most, done, a.lists, id);
    GrowsRefl(a.tasks);
    PlacedNext(a.tasks, a.tasks, u.dpSize, u.most, done, id, a.lists, a.lists);
  }

  lemma AssignNext(u: Setup, start: Pool, done: seq<TaskId>, a: Assignment, id: TaskId)
    requires Assigning(u, start, done, a) && Candidates(a.tasks, [id]) && id !in done && id in a.tasks
    ensures Sized(a, |a.lists|) && Assigning(u, start, done + [id], AssignTask(a, id))
  {
    hide Assigning, AssignTask, Grows;
    AssigningSized(u, start, done, a);
    if a.tasks[id].owner.Some? {
      AssignOwned(u, start, done, a, id);
    } else if NextRank(a.free, a.cursor, |a.free|).0 == None {
      AssignFull(u, start, done, a, id);
    } else {
      AssignFound(u, start, done, a, id, NextRank(a.free, a.cursor, |a.free|).0.value);
    }
  }

  lemma {:induction false} AssignKeeps(u: Setup, start: Pool, done: seq<TaskId>, a: Assignment, order: seq<TaskId>)
    requires Assigning(u, start, done, a) && Candidates(a.tasks, done + order)
    ensures forall id :: id in order ==> id in a.tasks
    ensures Assigning(u, start, done + order, AssignAll(a, order))
    decreases |order|
  {
    hide Assigning, AssignTask, Grows;
    assert forall id :: id in order ==> id in done + order;
    AssigningSized(u, start, done, a);
    if order == [] {
      assert done + order == done;
    } else {
      var id := order[0];
      assert done + order == (done + [id]) + order[1..] && (done + order)[|done|] == id;
      FirstIsNew(done, order);
      assert id in done + order;
      AssignNext(u, start, done, a, id);
      AssignedKinds(a, id);
      AssignKeeps(u, start, done + [id], AssignTask(a, id), order[1..]);
    }
  }

  // ----- Whose turn it is -----

  /** Rank q is passed over by a search that starts at the cursor and ends at rank k. */
  predicate Passed(cursor: nat, k: nat, q: nat) {
    if cursor <= k then cursor <= q < k else q >= cursor || q < k
  }

  /** The search ends at the first rank with a free slot and leaves the cursor behind it; a search that finds
      none goes round once. */
  lemma {:induction false} NextRankFirst(free: seq<nat>, cursor: nat, tries: nat)
    requires cursor < |free| && tries <= |free|
    ensures var (r, next) := NextRank(free, cursor, tries);
      match r
      case Some(k) =>
        && Ahead(cursor, tries, |free|, k) && next == NextOf(k, |free|) && free[k] > 0
        && forall q :: 0 <= q < |free| && Passed(cursor, k, q) ==> free[q] == 0
      case None => next == if cursor + tries < |free| then cursor + tries else cursor + tries - |free|
    decreases tries
  {
    if tries > 0 && free[cursor] == 0 {
      NextRankFirst(free, NextOf(cursor, |free|), tries - 1);
    }
  }

  ghost predicate IsNew(start: Pool, tasks: Pool, id: TaskId) {
    id in start && id in tasks && start[id].owner.None? && tasks[id].owner.Some?
  }

  /** The pool once the first candidates have been assigned. */
  ghost function Midway(start: Pool, tasks: Pool, done: seq<TaskId>): Pool {
    map id | id in start :: if id in done && id in tasks then tasks[id] else start[id]
  }

  /** The cursor then: one behind the rank that was given out last. */
  ghost function CursorAfter(start: Pool, tasks: Pool, from: nat, n: nat, done: seq<TaskId>): nat
    requires n > 0
    decreases |done|
  {
    if done == [] then from
    else
      var id := done[|done| - 1];
      if IsNew(start, tasks, id) then (tasks[id].owner.value + 1) % n
      else CursorAfter(start, tasks, from, n, done[..|done| - 1])
  }

  /** Rank k has a free slot and no rank between the cursor and it has one. */
  ghost predicate InTurn(u: Setup, pool: Pool, cursor: nat, k: nat) {
    && k < u.dpSize && |Owned(pool, pool.Keys, k)| < u.most
    && forall q :: 0 <= q < u.dpSize && Passed(cursor, k, q) ==> |Owned(pool, pool.Keys, q)| == u.most
  }

  /** Every candidate that gets an owner gets the rank whose turn it is. */
  ghost predicate InTurns(u: Setup, start: Pool, tasks: Pool, from: nat, order: seq<TaskId>)
    requires u.dpSize > 0
  {
    forall i :: 0 <= i < |order| && IsNew(start, tasks, order[i]) ==>
      InTurn(u, Midway(start, tasks, order[..i]), CursorAfter(start, tasks, from, u.dpSize, order[..i]),
        tasks[order[i]].owner.value)
  }

  /** Once the candidates `done` have been assigned. */
  ghost predicate Turning(u: Setup, start: Pool, from: nat, done: seq<TaskId>, a: Assignment)
    requires u.dpSize > 0
  {
    && InTurns(u, start, a.tasks, from, done) && a.tasks == Midway(start, a.tasks, done)
    && a.cursor == CursorAfter(start, a.tasks, from, u.dpSize, done)
  }

  lemma {:induction false} CursorSame(start: Pool, a: Pool, b: Pool, from: nat, n: nat, done: seq<TaskId>)
    requires n > 0 && forall id :: id in done ==> (id in a <==> id in b) && (id in a ==> a[id].owner == b[id].owner)
    ensures CursorAfter(start, a, from, n, done) == CursorAfter(start, b, from, n, done)
    decreases |done|
  {
    if done != [] {
      assert done[|done| - 1] in done;
      CursorSame(start, a, b, from, n, done[..|done| - 1]);
    }
  }

  /** Whoever comes later does not matter for the turns so far. */
  lemma TurnsSame(u: Setup, start: Pool, a: Pool, b: Pool, from: nat, done: seq<TaskId>)
    requires u.dpSize > 0 && InTurns(u, start, a, from, done)
    requires forall id :: id in done ==> id in a && id in b && a[id] == b[id]
    ensures InTurns(u, start, b, from, done)
  {
    hide InTurn;
    forall i | 0 <= i < |done| && IsNew(start, b, done[i])
      ensures InTurn(u, Midway(start, b, done[..i]), CursorAfter(start, b, from, u.dpSize, done[..i]),
        b[done[i]].owner.value)
    {
      assert done[i] in done && IsNew(start, a, done[i]);
      assert forall id :: id in done[..i] ==> id in done;
      CursorSame(start, a, b, from, u.dpSize, done[..i]);
      assert Midway(start, a, done[..i]) == Midway(start, b, done[..i]);
    }
  }

  lemma TurnsSnoc(u: Setup, start: Pool, tasks: Pool, from: nat, done: seq<TaskId>, id: TaskId)
    requires u.dpSize > 0 && InTurns(u, start, tasks, from, done)
    requires IsNew(start, tasks, id) ==> InTurn(u, Midway(start, tasks, done),
      CursorAfter(start, tasks, from, u.dpSize, done), tasks[id].owner.value)
    ensures InTurns(u, start, tasks, from, done + [id])
  {
    hide InTurn, IsNew, CursorAfter, Midway;
    forall i | 0 <= i < |done + [id]|
      ensures (done + [id])[..i] == done[..i] && (i < |done| ==> (done + [id])[i] == done[i])
    {
    }
    assert done[..|done|] == done;
  }

  /** One more candidate. */
  lemma TurnNext(u: Setup, start: Pool, from: nat, done: seq<TaskId>, a: Assignment, id: TaskId)
    requires Assigning(u, start, done, a) && u.dpSize > 0 && Turning(u, start, from, done, a)
    requires id in a.tasks && id !in done && forall x :: x in done ==> x in a.tasks
    ensures Turning(u, start, from, done + [id], AssignTask(a, id))
  {
    hide Inv, Owned, OnOwners, Grows, Placed, InTurn, InTurns, CursorAfter, NextRank, Midway;
    var b := AssignTask(a, id);
    MidwayAt(start, a.tasks, done, id);
    var (r, next) := NextRank(a.free, a.cursor, |a.free|);
    NextRankFirst(a.free, a.cursor, |a.free|);
    if a.tasks[id].owner.None? && r.Some? {
      OthersSame(a, id);
      TurnsSame(u, start, a.tasks, b.tasks, from, done);
      CursorSame(start, a.tasks, b.tasks, from, u.dpSize, done);
      MidwaySame(start, a.tasks, b.tasks, done, id);
      FoundInTurn(u, a, r.value);
      CursorMoves(start, b.tasks, from, u.dpSize, done, id);
    } else {
      CursorStays(start, a.tasks, from, u.dpSize, done, id);
      MidwaySame(start, a.tasks, a.tasks, done, id);
    }
    TurnsSnoc(u, start, b.tasks, from, done, id);
  }

  lemma MidwayAt(start: Pool, tasks: Pool, done: seq<TaskId>, id: TaskId)
    requires tasks == Midway(start, tasks, done) && id in tasks && id !in done
    ensures id in start && tasks[id] == start[id]
  {
  }

  lemma OthersSame(a: Assignment, id: TaskId)
    requires Sized(a, |a.lists|) && id in a.tasks
    ensures forall x :: x in a.tasks && x != id ==> AssignTask(a, id).tasks[x] == a.tasks[x]
  {
  }

  lemma MidwaySame(start: Pool, a: Pool, b: Pool, done: seq<TaskId>, id: TaskId)
    requires a == Midway(start, a, done) && b.Keys == a.Keys && id in a && id !in done
    requires forall x :: x in a && x != id ==> b[x] == a[x]
    ensures Midway(start, b, done) == a && Midway(start, b, done + [id]) == b
  {
    assert id in done + [id];
  }

  lemma FoundInTurn(u: Setup, a: Assignment, k: nat)
    requires |a.free| == u.dpSize && (forall r :: 0 <= r < u.dpSize ==>
      a.free[r] == u.most - |Owned(a.tasks, a.tasks.Keys, r)|)
    requires k < u.dpSize && a.free[k] > 0
    requires forall q :: 0 <= q < u.dpSize && Passed(a.cursor, k, q) ==> a.free[q] == 0
    ensures InTurn(u, a.tasks, a.cursor, k)
  {
  }

  lemma CursorMoves(start: Pool, tasks: Pool, from: nat, n: nat, done: seq<TaskId>, id: TaskId)
    requires n > 0 && IsNew(start, tasks, id)
    ensures CursorAfter(start, tasks, from, n, done + [id]) == (tasks[id].owner.value + 1) % n
  {
  }

  lemma CursorStays(start: Pool, tasks: Pool, from: nat, n: nat, done: seq<TaskId>, id: TaskId)
    requires n > 0 && !IsNew(start, tasks, id)
    ensures CursorAfter(start, tasks, from, n, done + [id]) == CursorAfter(start, tasks, from, n, done)
  {
    assert (done + [id])[..|done|] == done;
  }

  lemma {:induction false} TurnsKeep(u: Setup, start: Pool, from: nat, done: seq<TaskId>, a: Assignment,
      order: seq<TaskId>)
    requires Assigning(u, start, done, a) && u.dpSize > 0 && Turning(u, start, from, done, a)
    requires Candidates(a.tasks, done + order)
    ensures forall id :: id in order ==> id in a.tasks
    ensures Sized(a, |a.lists|) && Turning(u, start, from, done + order, AssignAll(a, order))
    decreases |order|
  {
    hide Assigning, AssignTask, Turning;
    assert forall id :: id in order ==> id in done + order;
    AssigningSized(u, start, done, a);
    if order == [] {
      assert done + order == done;
    } else {
      var id := order[0];
      assert done + order == (done + [id]) + order[1..] && (done + order)[|done|] == id;
      FirstIsNew(done, order);
      assert id in done + order;
      assert forall x :: x in done ==> x in done + order;
      AssignNext(u, start, done, a, id);
      TurnNext(u, start, from, done, a, id);
      AssignedKinds(a, id);
      TurnsKeep(u, start, from, done + [id], AssignTask(a, id), order[1..]);
    }
  }

  /** Chunk sizes do not matter for the turns. */
  lemma TurnsChunked(u: Setup, start: Pool, a: Pool, b: Pool, from: nat, order: seq<TaskId>)
    requires u.dpSize > 0 && InTurns(u, start, a, from, order) && OnlyChunks(a, b)
    ensures InTurns(u, start, b, from, order)
    ensures CursorAfter(start, b, from, u.dpSize, order) == CursorAfter(start, a, from, u.dpSize, order)
  {
    hide Midway, InTurn;
    CursorSame(start, a, b, from, u.dpSize, order);
    forall i | 0 <= i < |order| && IsNew(start, b, order[i])
      ensures InTurn(u, Midway(start, b, order[..i]), CursorAfter(start, b, from, u.dpSize, order[..i]),
        b[order[i]].owner.value)
    {
      assert IsNew(start, a, order[i]);
      CursorSame(start, a, b, from, u.dpSize, order[..i]);
      TurnChunked(u, start, a, b, CursorAfter(start, a, from, u.dpSize, order[..i]), order[..i],
          a[order[i]].owner.value);
    }
  }

  lemma TurnChunked(u: Setup, start: Pool, a: Pool, b: Pool, cursor: nat, done: seq<TaskId>, k: nat)
    requires OnlyChunks(a, b) && InTurn(u, Midway(start, a, done), cursor, k)
    ensures InTurn(u, Midway(start, b, done), cursor, k)
  {
    var x, y := Midway(start, a, done), Midway(start, b, done);
    forall q: nat
      ensures Owned(x, x.Keys, q) == Owned(y, y.Keys, q)
    {
    }
  }

  lemma TurningStarts(u: Setup, tasks: Pool, cursor: nat)
    requires u.dpSize > 0
    ensures Turning(u, tasks, cursor, [], StartAssignment(u, tasks, cursor))
  {
  }

  lemma TurningFacts(u: Setup, start: Pool, from: nat, done: seq<TaskId>, a: Assignment)
    requires u.dpSize > 0 && Turning(u, start, from, done, a)
    ensures InTurns(u, start, a.tasks, from, done) && a.cursor == CursorAfter(start, a.tasks, from, u.dpSize, done)
  {
  }

  /** Two requests that get an owner one after the other go to different ranks, unless all other ranks are
      full by then. */
  lemma DifferentRanks(u: Setup, start: Pool, tasks: Pool, from: nat, order: seq<TaskId>, i: nat, j: nat, q: nat)
    requires u.dpSize > 0 && InTurns(u, start, tasks, from, order) && i < j < |order|
    requires IsNew(start, tasks, order[i]) && IsNew(start, tasks, order[j])
    requires forall x :: i < x < j ==> !IsNew(start, tasks, order[x])
    requires tasks[order[i]].owner == tasks[order[j]].owner && q < u.dpSize && q != tasks[order[j]].owner.value
    ensures var pool := Midway(start, tasks, order[..j]); |Owned(pool, pool.Keys, q)| == u.most
  {
    hide Owned, Midway, CursorAfter;
    LastTurn(start, tasks, from, u.dpSize, order, i, j);
    var k := tasks[order[j]].owner.value;
    assert order[j] in order;
    DivUnique(if k + 1 == u.dpSize then 1 else 0, if k + 1 == u.dpSize then 0 else k + 1, u.dpSize);
  }

  lemma {:induction false} LastTurn(start: Pool, tasks: Pool, from: nat, n: nat, order: seq<TaskId>, i: nat, j: nat)
    requires n > 0 && i < j <= |order| && IsNew(start, tasks, order[i])
    requires forall x :: i < x < j ==> !IsNew(start, tasks, order[x])
    ensures CursorAfter(start, tasks, from, n, order[..j]) == (tasks[order[i]].owner.value + 1) % n
    decreases j
  {
    hide IsNew;
    assert order[..j][..j - 1] == order[..j - 1];
    if i < j - 1 {
      LastTurn(start, tasks, from, n, order, i, j - 1);
    }
  }

  lemma AssigningSized(u: Setup, start: Pool, done: seq<TaskId>, a: Assignment)
    requires Assigning(u, start, done, a)
    ensures Sized(a, u.dpSize) && |a.lists| == u.dpSize
  {
    hide Inv, Grows, Placed, OnOwners;
  }

  lemma AssignedKinds(a: Assignment, id: TaskId)
    requires Sized(a, |a.lists|) && id in a.tasks
    ensures forall x :: x in a.tasks ==>
      AssignTask(a, id).tasks[x].kind == a.tasks[x].kind && AssignTask(a, id).tasks[x].waiting == a.tasks[x].waiting
  {
  }

  // ----- Cutting the lists to the budgets -----

  /** One list: `left` is what remains of the rank's budget, and `kept` who has got a chunk. */
  function CutList(tasks: Pool, list: seq<TaskId>, kept: seq<TaskId>, left: nat): (r: (Pool, seq<TaskId>))
    requires forall id :: id in list ==> id in tasks
    ensures r.0.Keys == tasks.Keys
    decreases |list|
  {
    if list == [] || left == 0 then (tasks, kept)
    else
      var (id, remaining) := (list[0], tasks[list[0]].remaining);
      if remaining == 0 then CutList(tasks, list[1..], kept, left)
      else
        var take := Min(remaining, left);
        CutList(tasks[id := tasks[id].(chunk := Some(take))], list[1..], kept + [id], left - take)
  }

  /** The lists of the ranks from |cut| on. */
  function CutFrom(u: Setup, tasks: Pool, lists: seq<seq<TaskId>>, cut: seq<seq<TaskId>>): (r: (Pool, seq<seq<TaskId>>))
    requires u.dpSize > 0 && |cut| <= |lists|
    requires Known(tasks, lists)
    ensures r.0.Keys == tasks.Keys && |r.1| == |lists|
    decreases |lists| - |cut|
  {
    if |cut| == |lists| then (tasks, cut)
    else
      var (after, kept) := CutList(tasks, lists[|cut|], [], Budget(u.size, u.dpSize, |cut|));
      CutFrom(u, after, lists, cut + [kept])
  }

  /** What holds once the tasks `done` of a list have been looked at. */
  ghost predicate Chunking(start: Pool, tasks: Pool, done: seq<TaskId>, kept: seq<TaskId>, budget: nat, left: nat) {
    && OnlyChunks(start, tasks) && (forall id :: id in start && id !in done ==> tasks[id] == start[id])
    && FirstOf(done, Unfed(start), kept) && Chunked(tasks, kept) && WholeChunks(tasks, kept, |kept| - 1)
    && ChunkTokens(tasks, kept) + left == budget
    && (left > 0 ==> AllOf(done, Unfed(start), kept) && WholeChunks(tasks, kept, |kept|))
  }

  lemma ChunkNext(start: Pool, tasks: Pool, done: seq<TaskId>, kept: seq<TaskId>, budget: nat, left: nat, id: TaskId)
    requires Chunking(start, tasks, done, kept, budget, left) && id in tasks && id !in done && left > 0
    requires tasks[id].remaining > 0
    ensures var take := Min(tasks[id].remaining, left);
      Chunking(start, tasks[id := tasks[id].(chunk := Some(take))], done + [id], kept + [id], budget, left - take)
  {
    hide ChunkTokens, FirstOf, Chunked, WholeChunks;
    var take := Min(tasks[id].remaining, left);
    var after := tasks[id := tasks[id].(chunk := Some(take))];
    KeptDone(start, tasks, done, kept, budget, left);
    GivenMore(tasks, kept, id, take);
    AllOfSnoc(done, id, Unfed(start), kept);
  }

  lemma KeptDone(start: Pool, tasks: Pool, done: seq<TaskId>, kept: seq<TaskId>, budget: nat, left: nat)
    requires Chunking(start, tasks, done, kept, budget, left)
    ensures forall x :: x in kept ==> x in done && x in tasks
  {
    hide InOrder;
  }

  /** One more task is given a chunk. */
  lemma GivenMore(tasks: Pool, kept: seq<TaskId>, id: TaskId, take: nat)
    requires id in tasks && id !in kept && (forall x :: x in kept ==> x in tasks)
    requires Chunked(tasks, kept) && WholeChunks(tasks, kept, |kept|) && 0 < take <= tasks[id].remaining
    ensures var after := tasks[id := tasks[id].(chunk := Some(take))];
      && Chunked(after, kept + [id]) && WholeChunks(after, kept + [id], |kept|)
      && (take == tasks[id].remaining ==> WholeChunks(after, kept + [id], |kept + [id]|))
      && ChunkTokens(after, kept + [id]) == ChunkTokens(tasks, kept) + take
  {
    hide ChunkTokens;
    var after := tasks[id := tasks[id].(chunk := Some(take))];
    ChunkTokensSame(tasks, after, kept);
    ChunkTokensAppend(after, kept, id);
  }

  lemma {:induction false} CutListKeeps(start: Pool, tasks: Pool, list: seq<TaskId>, done: seq<TaskId>,
      kept: seq<TaskId>, budget: nat, left: nat)
    requires Chunking(start, tasks, done, kept, budget, left) && Distinct(done + list)
    requires forall id :: id in list ==> id in tasks
    ensures var (after, all) := CutList(tasks, list, kept, left);
      exists rest: nat :: Chunking(start, after, done + list, all, budget, rest)
    decreases |list|
  {
    hide Chunking;
    if list == [] {
      assert done + list == done && CutList(tasks, list, kept, left) == (tasks, kept);
      assert Chunking(start, tasks, done, kept, budget, left);
    } else if left == 0 {
      ChunkStops(start, tasks, list, done, kept, budget);
      assert CutList(tasks, list, kept, left) == (tasks, kept);
    } else {
      var id := list[0];
      assert done + list == (done + [id]) + list[1..];
      FirstIsNew(done, list);
      if tasks[id].remaining == 0 {
        ChunkSkips(start, tasks, done, kept, budget, left, id);
        assert CutList(tasks, list, kept, left) == CutList(tasks, list[1..], kept, left);
        CutListKeeps(start, tasks, list[1..], done + [id], kept, budget, left);
      } else {
        var take := Min(tasks[id].remaining, left);
        var after := tasks[id := tasks[id].(chunk := Some(take))];
        ChunkNext(start, tasks, done, kept, budget, left, id);
        CutListKeeps(start, after, list[1..], done + [id], kept + [id], budget, left - take);
        assert CutList(tasks, list, kept, left) == CutList(after, list[1..], kept + [id], left - take);
      }
    }
  }

  lemma FirstIsNew<T>(done: seq<T>, list: seq<T>)
    requires Distinct(done + list) && list != []
    ensures list[0] !in done
  {
    forall i | 0 <= i < |done|
      ensures done[i] != list[0]
    {
      assert (done + list)[i] == done[i] && (done + list)[|done|] == list[0];
    }
  }

  lemma ChunkStops(start: Pool, tasks: Pool, list: seq<TaskId>, done: seq<TaskId>, kept: seq<TaskId>, budget: nat)
    requires Chunking(start, tasks, done, kept, budget, 0) && Distinct(done + list)
    ensures Chunking(start, tasks, done + list, kept, budget, 0)
  {
    hide FirstOf, AllOf;
    FirstOfMore(done, list, Unfed(start), kept);
  }

  lemma ChunkSkips(start: Pool, tasks: Pool, done: seq<TaskId>, kept: seq<TaskId>, budget: nat, left: nat, id: TaskId)
    requires Chunking(start, tasks, done, kept, budget, left) && id in tasks && tasks[id].remaining == 0
    requires left > 0 && id !in done
    ensures Chunking(start, tasks, done + [id], kept, budget, left)
  {
    hide InOrder;
    AllOfSnoc(done, id, Unfed(start), kept);
  }

  lemma ChunkingStarts(tasks: Pool, budget: nat)
    ensures Chunking(tasks, tasks, [], [], budget, budget)
  {
  }

  /** The budget of one rank, given out in list order: the first of the unfed tasks get all that remains of them,
      the last one possibly less; nobody is left out and nobody gets less while there is budget left. */
  lemma CutListIs(tasks: Pool, list: seq<TaskId>, budget: nat)
    requires Distinct(list) && forall id :: id in list ==> id in tasks
    ensures var (after, kept) := CutList(tasks, list, [], budget);
      && OnlyChunks(tasks, after) && (forall id :: id in tasks && id !in list ==> after[id] == tasks[id])
      && CutOk(after, list, kept, budget)
  {
    hide CutList, InOrder;
    assert [] + list == list;
    ChunkingStarts(tasks, budget);
    CutListKeeps(tasks, tasks, list, [], [], budget, budget);
    assert Unfed(CutList(tasks, list, [], budget).0) == Unfed(tasks);
  }

  /** What holds once the lists of the first |cut| ranks have been cut. */
  ghost predicate Cutting(u: Setup, start: Pool, tasks: Pool, lists: seq<seq<TaskId>>, cut: seq<seq<TaskId>>)
    requires u.dpSize > 0
  {
    && |cut| <= |lists| == u.dpSize && OnlyChunks(start, tasks)
    && OnOwners(tasks, lists, TaskSpec.Prefill) && OnOwners(tasks, cut, TaskSpec.Prefill)
    && ChunkTotal(tasks, cut) <= BudgetSum(u.size, u.dpSize, |cut|)
    && forall k :: 0 <= k < |cut| ==> CutOk(tasks, lists[k], cut[k], Budget(u.size, u.dpSize, k))
  }

  lemma CutRank(u: Setup, start: Pool, tasks: Pool, lists: seq<seq<TaskId>>, cut: seq<seq<TaskId>>)
    requires u.dpSize > 0 && Cutting(u, start, tasks, lists, cut) && |cut| < |lists|
    ensures Known(tasks, lists)
    ensures var (after, kept) := CutList(tasks, lists[|cut|], [], Budget(u.size, u.dpSize, |cut|));
      Cutting(u, start, after, lists, cut + [kept])
  {
    hide OnlyChunks, Grows, OnOwners, ChunkTotal, Budget, BudgetSum, CutOk, CutList;
    ListsKnown(tasks, lists);
    ListFacts(tasks, lists, |cut|);
    BudgetIs(u.size, u.dpSize, |cut|);
    CutListIs(tasks, lists[|cut|], Budget(u.size, u.dpSize, |cut|));
    var (after, kept) := CutList(tasks, lists[|cut|], [], Budget(u.size, u.dpSize, |cut|));
    OnlyChunksGrows(tasks, after);
    OnlyChunksTrans(start, tasks, after);
    OnOwnersGrow(tasks, after, lists, TaskSpec.Prefill);
    OnOwnersGrow(tasks, after, cut, TaskSpec.Prefill);
    CutOkIn(after, lists[|cut|], kept, Budget(u.size, u.dpSize, |cut|));
    CutNext(tasks, after, lists, cut, kept);
    StillCut(u, tasks, after, lists, cut);
  }

  lemma CutOkIn(tasks: Pool, list: seq<TaskId>, kept: seq<TaskId>, budget: nat)
    requires CutOk(tasks, list, kept, budget)
    ensures Distinct(kept) && ChunkTokens(tasks, kept) <= budget && forall id :: id in kept ==> id in list
  {
    hide InOrder;
    FirstOfDistinct(list, Unfed(tasks), kept);
  }

  lemma ListsKnown(tasks: Pool, lists: seq<seq<TaskId>>)
    requires OnOwners(tasks, lists, TaskSpec.Prefill)
    ensures Known(tasks, lists)
  {
  }

  lemma StillCut(u: Setup, a: Pool, b: Pool, lists: seq<seq<TaskId>>, cut: seq<seq<TaskId>>)
    requires u.dpSize > 0 && |cut| < |lists| == u.dpSize && OnlyChunks(a, b)
    requires OnOwners(b, lists, TaskSpec.Prefill) && OnOwners(b, cut, TaskSpec.Prefill)
    requires forall id :: id in a && id !in lists[|cut|] ==> b[id] == a[id]
    requires forall k :: 0 <= k < |cut| ==> CutOk(a, lists[k], cut[k], Budget(u.size, u.dpSize, k))
    ensures forall k :: 0 <= k < |cut| ==> CutOk(b, lists[k], cut[k], Budget(u.size, u.dpSize, k))
  {
    hide OnOwners, CutOk, Budget, OnlyChunks;
    OtherRanks(b, lists, cut);
    forall k | 0 <= k < |cut|
      ensures CutOk(b, lists[k], cut[k], Budget(u.size, u.dpSize, k))
    {
      CutOkSame(a, b, lists[k], cut[k], Budget(u.size, u.dpSize, k));
    }
  }

  lemma BudgetIs(size: nat, dpSize: nat, r: nat)
    requires dpSize > 0
    ensures BudgetSum(size, dpSize, r + 1) == BudgetSum(size, dpSize, r) + Budget(size, dpSize, r)
  {
  }

  lemma {:induction false} CutFromKeeps(u: Setup, start: Pool, tasks: Pool, lists: seq<seq<TaskId>>,
      cut: seq<seq<TaskId>>)
    requires u.dpSize > 0 && Cutting(u, start, tasks, lists, cut)
    ensures Known(tasks, lists)
    ensures |cut| <= |lists| == u.dpSize
    ensures var (after, all) := CutFrom(u, tasks, lists, cut); Cutting(u, start, after, lists, all)
    decreases |lists| - |cut|
  {
    hide OnlyChunks, OnOwners, ChunkTotal, Budget, BudgetSum, CutOk, CutList;
    ListsKnown(tasks, lists);
    if |cut| < |lists| {
      CutRank(u, start, tasks, lists, cut);
      var (after, kept) := CutList(tasks, lists[|cut|], [], Budget(u.size, u.dpSize, |cut|));
      hide Cutting;
      CutFromKeeps(u, start, after, lists, cut + [kept]);
    }
  }

  // ----- A round -----

  /** Every ready decode task goes to its owner. */
  function DecodeFrom(tasks: Pool, ids: seq<TaskId>, lists: seq<seq<TaskId>>): (r: seq<seq<TaskId>>)
    requires lists != [] && forall id :: id in ids ==> id in tasks
    ensures |r| == |lists|
    decreases |ids|
  {
    if ids == [] then lists
    else
      var t := tasks[ids[0]];
      if ReadyDecode(t) && t.owner.Some? then
        var owner := t.owner.value % |lists|;
        DecodeFrom(tasks, ids[1..], lists[owner := lists[owner] + [ids[0]]])
      else DecodeFrom(tasks, ids[1..], lists)
  }

  function NoLists(n: nat): (r: seq<seq<TaskId>>)
    ensures |r| == n && forall k :: 0 <= k < n ==> r[k] == []
  {
    seq(n, _ => [])
  }

  /** The final truncation of every list to the capacity of a rank. */
  function Truncated(lists: seq<seq<TaskId>>, most: nat): (r: seq<seq<TaskId>>)
    ensures |r| == |lists|
  {
    seq(|lists|, r requires 0 <= r < |lists| => lists[r][..Min(|lists[r]|, most)])
  }

  predicate SomeTask(lists: seq<seq<TaskId>>) {
    exists r :: 0 <= r < |lists| && lists[r] != []
  }

  /** The pool and the cursor after a round, and what it hands to the ranks. */
  datatype Round = Round(tasks: Pool, cursor: nat, lists: seq<seq<TaskId>>, kind: Kind)

  /** `ids` is the pool in its own order, `order` its ready prefill tasks by start time. */
  ghost predicate Scheduling(u: Setup, tasks: Pool, cursor: nat, ids: seq<TaskId>, order: seq<TaskId>) {
    && cursor < u.dpSize && Candidates(tasks, order) && Distinct(ids) && Ids(ids) == tasks.Keys
  }

  function Considered(u: Setup, order: seq<TaskId>): seq<TaskId> {
    order[..Min(|order|, u.most * u.dpSize)]
  }

  /** The prefill branch up to the truncation: owners first, then the budgets. */
  function PrefillRound(u: Setup, tasks: Pool, cursor: nat, candidates: seq<TaskId>): (r: (Pool, nat, seq<seq<TaskId>>))
    requires cursor < u.dpSize && forall id :: id in candidates ==> id in tasks
    ensures r.0.Keys == tasks.Keys && r.1 < u.dpSize == |r.2|
  {
    var a := AssignAll(StartAssignment(u, tasks, cursor), candidates);
    if u.size > 0 then
      var (after, cut) := CutFrom(u, a.tasks, a.lists, []);
      (after, a.cursor, cut)
    else (a.tasks, a.cursor, a.lists)
  }

  function RoundOf(u: Setup, tasks: Pool, cursor: nat, ids: seq<TaskId>, order: seq<TaskId>): (r: Round)
    requires cursor < u.dpSize && (forall id :: id in ids ==> id in tasks) && forall id :: id in order ==> id in tasks
    ensures r.tasks.Keys == tasks.Keys && r.cursor < u.dpSize == |r.lists|
  {
    if Considered(u, order) == [] then
      Round(tasks, cursor, Truncated(DecodeFrom(tasks, ids, NoLists(u.dpSize)), u.most), TaskSpec.Decode)
    else
      var (after, next, lists) := PrefillRound(u, tasks, cursor, Considered(u, order));
      if SomeTask(Truncated(lists, u.most)) then Round(after, next, Truncated(lists, u.most), TaskSpec.Prefill)
      else Round(after, next, Truncated(DecodeFrom(after, ids, NoLists(u.dpSize)), u.most), TaskSpec.Decode)
  }

  /** What a round promises: capacity, fixed owners, everybody listed with the owner, the chunk size, no
      ready decode task left out of a decode round, nobody passed over without a reason, lists in the order
      of the candidates or of the pool, and new owners taken in turns. */
  ghost predicate RoundOk(u: Setup, tasks: Pool, cursor: nat, ids: seq<TaskId>, order: seq<TaskId>, r: Round) {
    && u.dpSize > 0
    && Inv(r.tasks, u.dpSize, u.most) && Grows(tasks, r.tasks)
    && |r.lists| == u.dpSize && OnOwners(r.tasks, r.lists, r.kind)
    && (forall k :: 0 <= k < u.dpSize ==> |r.lists[k]| <= u.most)
    && (order == [] ==> r.kind == TaskSpec.Decode)
    && (r.kind == TaskSpec.Prefill ==> SomeTask(r.lists))
    && (r.kind == TaskSpec.Decode ==>
          AllDecoding(r.tasks, u.dpSize, ids, r.lists) && DecodeServed(r.tasks, u.dpSize, ids, r.lists))
    && (r.kind == TaskSpec.Prefill ==> PrefillServed(u, r.tasks, Considered(u, order), r.lists))
    && (r.kind == TaskSpec.Prefill && u.size > 0 ==> WithinChunks(u, r.tasks, r.lists))
    && PassedOver(r.tasks, u.dpSize, u.most, u.size, Considered(u, order),
         if r.kind == TaskSpec.Prefill then r.lists else NoLists(u.dpSize))
    && InTurns(u, tasks, r.tasks, cursor, Considered(u, order))
    && r.cursor == CursorAfter(tasks, r.tasks, cursor, u.dpSize, Considered(u, order))
    && Considered(u, order) <= order
        && (|Considered(u, order)| < |order| ==> |Considered(u, order)| == u.most * u.dpSize)
  }

  ghost predicate WithinChunks(u: Setup, tasks: Pool, lists: seq<seq<TaskId>>) {
    ChunkTotal(tasks, lists) <= u.size && forall k :: 0 <= k < |lists| ==> Chunked(tasks, lists[k])
  }

  /** After the final truncation every list is what it was. */
  lemma TruncatedSame(u: Setup, tasks: Pool, lists: seq<seq<TaskId>>, kind: Kind)
    requires Inv(tasks, u.dpSize, u.most) && OnOwners(tasks, lists, kind) && |lists| == u.dpSize
    ensures Truncated(lists, u.most) == lists && forall k :: 0 <= k < u.dpSize ==> |lists[k]| <= u.most
  {
    hide Inv, OnOwners;
    forall k: nat | k < u.dpSize
      ensures |lists[k]| <= u.most && Truncated(lists, u.most)[k] == lists[k]
    {
      NothingDropped(tasks, u.dpSize, u.most, lists, kind, k);
    }
  }

  lemma {:induction false} DecodeFromKeeps(u: Setup, tasks: Pool, done: seq<TaskId>, ids: seq<TaskId>,
      lists: seq<seq<TaskId>>)
    requires Inv(tasks, u.dpSize, u.most) && Distinct(done + ids) && u.dpSize > 0
    requires (forall id :: id in done + ids ==> id in tasks) && DecodeServed(tasks, u.dpSize, done, lists)
    ensures |lists| == u.dpSize && forall id :: id in ids ==> id in tasks
    ensures DecodeServed(tasks, u.dpSize, done + ids, DecodeFrom(tasks, ids, lists))
    decreases |ids|
  {
    hide Inv, DecodeServed;
    DecodeLength(tasks, u.dpSize, done, lists);
    assert forall id :: id in ids ==> id in done + ids;
    if ids == [] {
      assert done + ids == done;
    } else {
      var id := ids[0];
      assert done + ids == (done + [id]) + ids[1..] && (done + ids)[|done|] == id;
      FirstIsNew(done, ids);
      OwnerInRange(tasks, u.dpSize, u.most, id);
      DecodeNext(tasks, u.dpSize, done, lists, id);
      if ReadyDecode(tasks[id]) {
        var owner := tasks[id].owner.value;
        DivUnique(0, owner, u.dpSize);
        DecodeFromKeeps(u, tasks, done + [id], ids[1..], lists[owner := lists[owner] + [id]]);
      } else {
        DecodeFromKeeps(u, tasks, done + [id], ids[1..], lists);
      }
    }
  }

  lemma DecodeLength(tasks: Pool, dpSize: nat, ids: seq<TaskId>, lists: seq<seq<TaskId>>)
    requires DecodeServed(tasks, dpSize, ids, lists)
    ensures |lists| == dpSize
  {
  }

  lemma DecodeNext(tasks: Pool, dpSize: nat, done: seq<TaskId>, lists: seq<seq<TaskId>>, id: TaskId)
    requires DecodeServed(tasks, dpSize, done, lists) && id in tasks && id !in done && |lists| == dpSize
    requires ReadyDecode(tasks[id]) ==> tasks[id].owner.Some? && tasks[id].owner.value < dpSize
    ensures DecodeServed(tasks, dpSize, done + [id],
      if ReadyDecode(tasks[id]) then lists[tasks[id].owner.value := lists[tasks[id].owner.value] + [id]] else lists)
  {
    hide AllOf;
    forall k: nat | k < dpSize
      ensures AllOf(done + [id], OwnedBy(tasks, k) * ReadyDecodes(tasks),
        if ReadyDecode(tasks[id]) && tasks[id].owner == Some(k) then lists[k] + [id] else lists[k])
    {
      AllOfSnoc(done, id, OwnedBy(tasks, k) * ReadyDecodes(tasks), lists[k]);
    }
  }

  lemma ServedDecodes(u: Setup, tasks: Pool, ids: seq<TaskId>, lists: seq<seq<TaskId>>)
    requires Inv(tasks, u.dpSize, u.most) && DecodeServed(tasks, u.dpSize, ids, lists)
    ensures OnOwners(tasks, lists, TaskSpec.Decode) && AllDecoding(tasks, u.dpSize, ids, lists)
  {
    hide InOrder, Owned;
    forall k | 0 <= k < u.dpSize
      ensures Distinct(lists[k]) && forall id :: id in lists[k] ==> id in OwnedBy(tasks, k) * ReadyDecodes(tasks)
    {
      FirstOfDistinct(ids, OwnedBy(tasks, k) * ReadyDecodes(tasks), lists[k]);
    }
    forall id | id in ids && id in tasks && ReadyDecode(tasks[id])
      ensures tasks[id].owner.Some? && tasks[id].owner.value < u.dpSize && id in lists[tasks[id].owner.value]
    {
      var k := tasks[id].owner.value;
      assert id in OwnedBy(tasks, k) * ReadyDecodes(tasks);
      assert AllOf(ids, OwnedBy(tasks, k) * ReadyDecodes(tasks), lists[k]);
    }
  }

  lemma NothingServed(tasks: Pool, n: nat)
    ensures DecodeServed(tasks, n, [], NoLists(n))
  {
  }

  /** A round that falls back on decode tasks, or only has them. */
  lemma DecodeRound(u: Setup, tasks: Pool, ids: seq<TaskId>)
    requires u.dpSize > 0 && Inv(tasks, u.dpSize, u.most) && Distinct(ids) && Ids(ids) == tasks.Keys
    ensures forall id :: id in ids ==> id in tasks
    ensures var lists := DecodeFrom(tasks, ids, NoLists(u.dpSize));
      && Truncated(lists, u.most) == lists && OnOwners(tasks, lists, TaskSpec.Decode)
      && AllDecoding(tasks, u.dpSize, ids, lists) && DecodeServed(tasks, u.dpSize, ids, lists)
      && forall k :: 0 <= k < u.dpSize ==> |lists[k]| <= u.most
  {
    hide Inv, OnOwners, DecodeServed, AllDecoding;
    assert forall id :: id in ids ==> id in Ids(ids);
    assert [] + ids == ids;
    NothingServed(tasks, u.dpSize);
    DecodeFromKeeps(u, tasks, [], ids, NoLists(u.dpSize));
    ServedDecodes(u, tasks, ids, DecodeFrom(tasks, ids, NoLists(u.dpSize)));
    TruncatedSame(u, tasks, DecodeFrom(tasks, ids, NoLists(u.dpSize)), TaskSpec.Decode);
  }

  /** The prefill branch. */
  lemma PrefillRoundIs(u: Setup, tasks: Pool, cursor: nat, candidates: seq<TaskId>)
    requires cursor < u.dpSize && Inv(tasks, u.dpSize, u.most) && Candidates(tasks, candidates)
    ensures forall id :: id in candidates ==> id in tasks
    ensures var (after, next, lists) := PrefillRound(u, tasks, cursor, candidates);
      && Inv(after, u.dpSize, u.most) && Grows(tasks, after) && OnOwners(after, lists, TaskSpec.Prefill)
      && (u.size > 0 ==> WithinChunks(u, after, lists))
      && PassedOver(after, u.dpSize, u.most, u.size, candidates, lists) && PrefillServed(u, after, candidates, lists)
      && InTurns(u, tasks, after, cursor, candidates) && next == CursorAfter(tasks, after, cursor, u.dpSize, candidates)
  {
    hide Inv, OnOwners, Grows, Placed, PassedOver, WithinChunks, CutFrom, AssignAll, PrefillServed, InTurns, Turning,
      CursorAfter, OnlyChunks;
    CandidatesKnown(tasks, candidates);
    AssigningStarts(u, tasks, cursor);
    assert [] + candidates == candidates;
    AssignKeeps(u, tasks, [], StartAssignment(u, tasks, cursor), candidates);
    var a := AssignAll(StartAssignment(u, tasks, cursor), candidates);
    TurningStarts(u, tasks, cursor);
    TurnsKeep(u, tasks, cursor, [], StartAssignment(u, tasks, cursor), candidates);
    TurningFacts(u, tasks, cursor, candidates, a);
    if u.size > 0 {
      CutAll(u, a.tasks, a.lists, candidates);
      TurnsChunked(u, tasks, a.tasks, CutFrom(u, a.tasks, a.lists, []).0, cursor, candidates);
      GrowsTrans(tasks, a.tasks, CutFrom(u, a.tasks, a.lists, []).0);
    } else {
      PlacedPasses(a.tasks, u.dpSize, u.most, candidates, a.lists);
      PlacedServed(u, a.tasks, candidates, a.lists);
    }
  }

  lemma PlacedServed(u: Setup, tasks: Pool, order: seq<TaskId>, lists: seq<seq<TaskId>>)
    requires u.dpSize > 0 && u.size == 0 && Placed(tasks, u.dpSize, u.most, order, lists)
    ensures PrefillServed(u, tasks, order, lists)
  {
    hide AllOf;
  }

  lemma CandidatesKnown(tasks: Pool, order: seq<TaskId>)
    requires Candidates(tasks, order)
    ensures forall id :: id in order ==> id in tasks
  {
  }

  /** All lists cut. */
  lemma CutAll(u: Setup, tasks: Pool, lists: seq<seq<TaskId>>, candidates: seq<TaskId>)
    requires u.dpSize > 0 && u.size > 0 && Inv(tasks, u.dpSize, u.most) && OnOwners(tasks, lists, TaskSpec.Prefill)
    requires Placed(tasks, u.dpSize, u.most, candidates, lists)
    ensures Known(tasks, lists)
    ensures var (after, cut) := CutFrom(u, tasks, lists, []);
      && Inv(after, u.dpSize, u.most) && Grows(tasks, after) && OnOwners(after, cut, TaskSpec.Prefill)
      && WithinChunks(u, after, cut) && PassedOver(after, u.dpSize, u.most, u.size, candidates, cut)
      && PrefillServed(u, after, candidates, cut) && OnlyChunks(tasks, after)
  {
    hide Inv, OnOwners, Grows, PassedOver, CutFrom, OnlyChunks, ChunkTotal, BudgetSum, Budget, UsedUp, Chunked, CutOk,
      PrefillServed, AllOf, Full;
    NothingCut(u, tasks, lists);
    CutFromKeeps(u, tasks, tasks, lists, []);
    var (after, cut) := CutFrom(u, tasks, lists, []);
    BudgetsAddUp(u.size, u.dpSize);
    OnlyChunksGrows(tasks, after);
    GrownInv(tasks, after, u.dpSize, u.most);
    forall r | 0 <= r < u.dpSize
      ensures UsedUp(after, lists[r], cut[r], Budget(u.size, u.dpSize, r)) && Chunked(after, cut[r])
    {
      ListsKnown(after, lists);
      CutUsedUp(after, lists[r], cut[r], Budget(u.size, u.dpSize, r));
    }
    CutServed(u, tasks, after, candidates, lists, cut);
    CutPasses(tasks, after, u.dpSize, u.most, u.size, candidates, lists, cut);
  }

  lemma CutServed(u: Setup, a: Pool, b: Pool, order: seq<TaskId>, lists: seq<seq<TaskId>>, cut: seq<seq<TaskId>>)
    requires u.dpSize > 0 && u.size > 0 && Placed(a, u.dpSize, u.most, order, lists) && OnlyChunks(a, b)
    requires |cut| == u.dpSize
    requires forall r :: 0 <= r < u.dpSize ==> CutOk(b, lists[r], cut[r], Budget(u.size, u.dpSize, r))
    ensures PrefillServed(u, b, order, cut)
  {
    hide AllOf, FirstOf, Budget, ChunkTokens, Chunked, WholeChunks, OwnedBy, Unfed;
    forall k: nat | k < u.dpSize
      ensures Rationed(b, order, OwnedBy(b, k) * Unfed(b), cut[k], Budget(u.size, u.dpSize, k))
    {
      OwnedChunked(a, b, k);
      FirstOfFirst(order, OwnedBy(b, k), lists[k], Unfed(b), cut[k]);
      if ChunkTokens(b, cut[k]) < Budget(u.size, u.dpSize, k) {
        AllOfAll(order, OwnedBy(b, k), lists[k], Unfed(b), cut[k]);
      }
    }
  }

  lemma OwnedChunked(a: Pool, b: Pool, k: nat)
    requires OnlyChunks(a, b)
    ensures OwnedBy(a, k) == OwnedBy(b, k)
  {
  }

  lemma NothingCut(u: Setup, tasks: Pool, lists: seq<seq<TaskId>>)
    requires u.dpSize > 0 && OnOwners(tasks, lists, TaskSpec.Prefill) && |lists| == u.dpSize
    ensures Cutting(u, tasks, tasks, lists, [])
  {
  }

  /** Every round keeps its promises. */
  lemma RoundKeeps(u: Setup, tasks: Pool, cursor: nat, ids: seq<TaskId>, order: seq<TaskId>)
    requires Inv(tasks, u.dpSize, u.most) && Scheduling(u, tasks, cursor, ids, order)
    ensures (forall id :: id in ids ==> id in tasks) && forall id :: id in order ==> id in tasks
    ensures RoundOk(u, tasks, cursor, ids, order, RoundOf(u, tasks, cursor, ids, order))
  {
    hide Inv, OnOwners, Grows, PassedOver, WithinChunks, AllDecoding, PrefillRound, DecodeFrom, Truncated;
    var candidates := Considered(u, order);
    GrowsRefl(tasks);
    CandidatesKnown(tasks, order);
    DecodeRound(u, tasks, ids);
    if candidates == [] {
      NobodyPassed(u, tasks, candidates);
    } else {
      ConsideredAre(u, tasks, order);
      PrefillRoundIs(u, tasks, cursor, candidates);
      var (after, next, lists) := PrefillRound(u, tasks, cursor, candidates);
      TruncatedSame(u, after, lists, TaskSpec.Prefill);
      if !SomeTask(lists) {
        assert lists == NoLists(u.dpSize);
        DecodeRound(u, after, ids);
      }
    }
  }

  lemma ConsideredAre(u: Setup, tasks: Pool, order: seq<TaskId>)
    requires Candidates(tasks, order)
    ensures Candidates(tasks, Considered(u, order))
  {
    assert forall id :: id in Considered(u, order) ==> id in order;
  }

  lemma NobodyPassed(u: Setup, tasks: Pool, order: seq<TaskId>)
    requires order == [] && u.dpSize > 0
    ensures PassedOver(tasks, u.dpSize, u.most, u.size, order, NoLists(u.dpSize))
  {
  }

  // ----- Runs -----

  /** One step of a task on the model: a prefill advances by its chunk, or by all that remains. */
  function Fed(t: DpTask): DpTask {
    if t.chunk.None? || t.chunk.value >= t.remaining then t.(kind := TaskSpec.Decode, remaining := 0, chunk := None)
    else t.(remaining := t.remaining - t.chunk.value, chunk := None)
  }

  predicate ListedIn(lists: seq<seq<TaskId>>, id: TaskId) {
    exists r :: 0 <= r < |lists| && id in lists[r]
  }

  /** The pool after the step on the lists of a round and the update, in which some of the listed requests
      are found finished and leave. */
  function Stepped(r: Round, finished: set<TaskId>): Pool {
    map id | id in r.tasks && !(ListedIn(r.lists, id) && id in finished) ::
      if ListedIn(r.lists, id) && r.kind == TaskSpec.Prefill then Fed(r.tasks[id]) else r.tasks[id]
  }

  datatype Sys = Sys(tasks: Pool, cursor: nat)

  /** A run interleaves arrivals, changes of who has to wait, and rounds with the step and update that
      follow. */
  datatype Event =
    | Arrive(id: TaskId, remaining: nat)
    | Wait(id: TaskId, waiting: bool)
    | Serve(ids: seq<TaskId>, order: seq<TaskId>, finished: set<TaskId>)

  function Arrived(tasks: Pool, id: TaskId, remaining: nat): Pool {
    tasks[id := DpTask(TaskSpec.Prefill, false, false, None, remaining, None)]
  }

  ghost predicate EventTo(u: Setup, a: Sys, ev: Event, b: Sys) {
    match ev
    case Arrive(id, remaining) => id !in a.tasks && b == Sys(Arrived(a.tasks, id, remaining), a.cursor)
    case Wait(id, waiting) => id in a.tasks && b == Sys(a.tasks[id := a.tasks[id].(waiting := waiting)], a.cursor)
    case Serve(ids, order, finished) =>
      && Scheduling(u, a.tasks, a.cursor, ids, order) && Pooled(a.tasks, ids, order)
      && var r := RoundOf(u, a.tasks, a.cursor, ids, order);
      b == Sys(Stepped(r, finished), r.cursor)
  }

  ghost predicate Pooled(tasks: Pool, ids: seq<TaskId>, order: seq<TaskId>) {
    (forall id :: id in ids ==> id in tasks) && forall id :: id in order ==> id in tasks
  }

  ghost predicate IsRun(u: Setup, states: seq<Sys>, events: seq<Event>) {
    && |states| == |events| + 1
    && forall i :: 0 <= i < |events| ==> EventTo(u, states[i], events[i], states[i + 1])
  }

  lemma ArriveKeeps(u: Setup, tasks: Pool, id: TaskId, remaining: nat)
    requires Inv(tasks, u.dpSize, u.most) && id !in tasks
    ensures Inv(Arrived(tasks, id, remaining), u.dpSize, u.most)
  {
    var after := Arrived(tasks, id, remaining);
    forall r | 0 <= r < u.dpSize
      ensures |Owned(after, after.Keys, r)| <= u.most
    {
      assert Owned(after, after.Keys, r) == Owned(tasks, tasks.Keys, r);
    }
  }

  lemma WaitKeeps(u: Setup, tasks: Pool, id: TaskId, waiting: bool)
    requires Inv(tasks, u.dpSize, u.most) && id in tasks
    ensures Inv(tasks[id := tasks[id].(waiting := waiting)], u.dpSize, u.most)
  {
    var after := tasks[id := tasks[id].(waiting := waiting)];
    forall r | 0 <= r < u.dpSize
      ensures |Owned(after, after.Keys, r)| <= u.most
    {
      assert Owned(after, after.Keys, r) == Owned(tasks, tasks.Keys, r);
    }
  }

  /** Only listed tasks are fed, so whoever turns to decoding has an owner; nobody gets another one. */
  lemma SteppedKeeps(u: Setup, r: Round, finished: set<TaskId>)
    requires Inv(r.tasks, u.dpSize, u.most) && OnOwners(r.tasks, r.lists, r.kind)
    ensures Inv(Stepped(r, finished), u.dpSize, u.most)
    ensures forall id :: id in Stepped(r, finished) ==>
      id in r.tasks && Stepped(r, finished)[id].owner == r.tasks[id].owner
  {
    hide Owned, Stepped;
    var after := Stepped(r, finished);
    forall id | id in after
      ensures id in r.tasks && after[id].owner == r.tasks[id].owner && after[id].stopped == r.tasks[id].stopped
      ensures after[id].kind == TaskSpec.Decode ==> r.tasks[id].owner.Some?
    {
      SteppedTask(r, finished, id);
    }
    forall k: nat | k < u.dpSize
      ensures |Owned(after, after.Keys, k)| <= u.most
    {
      OwnedShrinks(r.tasks, after, k);
    }
  }

  lemma SteppedTask(r: Round, finished: set<TaskId>, id: TaskId)
    requires OnOwners(r.tasks, r.lists, r.kind) && id in Stepped(r, finished)
    ensures id in r.tasks
    ensures var (t, after) := (r.tasks[id], Stepped(r, finished)[id]);
      && after.owner == t.owner && after.stopped == t.stopped
      && (after.kind == TaskSpec.Decode ==> t.kind == TaskSpec.Decode || t.owner.Some?)
  {
  }

  lemma OwnedShrinks(a: Pool, b: Pool, k: nat)
    requires forall id :: id in b ==> id in a && b[id].owner == a[id].owner && b[id].stopped == a[id].stopped
    ensures |Owned(b, b.Keys, k)| <= |Owned(a, a.Keys, k)|
  {
    SubsetSize(Owned(b, b.Keys, k), Owned(a, a.Keys, k));
  }

  lemma EventKeeps(u: Setup, a: Sys, ev: Event, b: Sys)
    requires Inv(a.tasks, u.dpSize, u.most) && EventTo(u, a, ev, b)
    ensures Inv(b.tasks, u.dpSize, u.most)
  {
    hide Inv, OnOwners, Grows, PassedOver, AllDecoding, RoundOf, Stepped, WithinChunks;
    match ev
    case Arrive(id, remaining) => ArriveKeeps(u, a.tasks, id, remaining);
    case Wait(id, waiting) => WaitKeeps(u, a.tasks, id, waiting);
    case Serve(ids, order, finished) =>
      RoundKeeps(u, a.tasks, a.cursor, ids, order);
      SteppedKeeps(u, RoundOf(u, a.tasks, a.cursor, ids, order), finished);
  }

  /** In every state of every run each rank owns at most `most` unfinished requests. */
  lemma {:induction false} RunInv(u: Setup, states: seq<Sys>, events: seq<Event>, i: nat)
    requires IsRun(u, states, events) && states[0].tasks == map[] && i < |states|
    ensures Inv(states[i].tasks, u.dpSize, u.most)
    decreases i
  {
    hide Inv, EventTo;
    if i == 0 {
      EmptyInv(u);
    } else {
      RunInv(u, states, events, i - 1);
      assert EventTo(u, states[i - 1], events[i - 1], states[i - 1 + 1]);
      EventKeeps(u, states[i - 1], events[i - 1], states[i]);
    }
  }

  lemma EmptyInv(u: Setup)
    ensures Inv(map[], u.dpSize, u.most)
  {
    assert forall r :: Owned(map[], {}, r) == {};
  }

  /** And every round of every run keeps its promises. */
  lemma RunRounds(u: Setup, states: seq<Sys>, events: seq<Event>, i: nat)
    requires IsRun(u, states, events) && states[0].tasks == map[] && i < |events| && events[i].Serve?
    ensures var (s, ev) := (states[i], events[i]);
      && Scheduling(u, s.tasks, s.cursor, ev.ids, ev.order) && Pooled(s.tasks, ev.ids, ev.order)
      && RoundOk(u, s.tasks, s.cursor, ev.ids, ev.order, RoundOf(u, s.tasks, s.cursor, ev.ids, ev.order))
  {
    hide Inv, RoundOk, RoundOf, Stepped;
    RunInv(u, states, events, i);
    assert EventTo(u, states[i], events[i], states[i + 1]);
    RoundKeeps(u, states[i].tasks, states[i].cursor, events[i].ids, events[i].order);
  }

  lemma OwnerStep(u: Setup, a: Sys, ev: Event, b: Sys, id: TaskId)
    requires Inv(a.tasks, u.dpSize, u.most) && EventTo(u, a, ev, b) && id in a.tasks && id in b.tasks
    requires a.tasks[id].owner.Some?
    ensures b.tasks[id].owner == a.tasks[id].owner
  {
    hide Inv, OnOwners, PassedOver, AllDecoding, RoundOf, Stepped, WithinChunks;
    if ev.Serve? {
      RoundKeeps(u, a.tasks, a.cursor, ev.ids, ev.order);
      SteppedKeeps(u, RoundOf(u, a.tasks, a.cursor, ev.ids, ev.order), ev.finished);
    }
  }

  /** As long as a request is in the pool its owner never changes. */
  lemma {:induction false} OwnerStays(u: Setup, states: seq<Sys>, events: seq<Event>, i: nat, j: nat, id: TaskId)
    requires IsRun(u, states, events) && states[0].tasks == map[] && i <= j < |states|
    requires (forall k :: i <= k <= j ==> id in states[k].tasks) && states[i].tasks[id].owner.Some?
    ensures states[j].tasks[id].owner == states[i].tasks[id].owner
    decreases j - i
  {
    hide Inv, EventTo;
    if i < j {
      OwnerStays(u, states, events, i, j - 1, id);
      RunInv(u, states, events, j - 1);
      assert EventTo(u, states[j - 1], events[j - 1], states[j - 1 + 1]);
      OwnerStep(u, states[j - 1], events[j - 1], states[j], id);
    }
  }

  /** A request that has an owner is handed to nobody else in any later round. */
  lemma ScheduledOnOwner(u: Setup, states: seq<Sys>, events: seq<Event>, i: nat, j: nat, id: TaskId, r: nat)
    requires IsRun(u, states, events) && states[0].tasks == map[] && i <= j < |events| && events[j].Serve?
    requires (forall k :: i <= k <= j ==> id in states[k].tasks) && states[i].tasks[id].owner.Some?
    requires Pooled(states[j].tasks, events[j].ids, events[j].order) && states[j].cursor < u.dpSize
    requires var lists := RoundOf(u, states[j].tasks, states[j].cursor, events[j].ids, events[j].order).lists;
      r < |lists| && id in lists[r]
    ensures states[i].tasks[id].owner == Some(r)
  {
    hide Inv, RoundOf, PassedOver, AllDecoding, WithinChunks;
    OwnerStays(u, states, events, i, j, id);
    RunRounds(u, states, events, j);
  }

  // ----- What a request is fed -----

  /** The tokens of a request that one event feeds to the model. */
  ghost function FedBy(u: Setup, a: Sys, ev: Event, id: TaskId): nat {
    if ev.Serve? && Scheduling(u, a.tasks, a.cursor, ev.ids, ev.order) && Pooled(a.tasks, ev.ids, ev.order) then
      var r := RoundOf(u, a.tasks, a.cursor, ev.ids, ev.order);
      if r.kind == TaskSpec.Prefill && ListedIn(r.lists, id) && id in r.tasks then
        if r.tasks[id].chunk.Some? then Min(r.tasks[id].chunk.value, r.tasks[id].remaining) else r.tasks[id].remaining
      else 0
    else 0
  }

  ghost function FedUntil(u: Setup, states: seq<Sys>, events: seq<Event>, i: nat, j: nat, id: TaskId): nat
    requires i <= j <= |events| <= |states|
    decreases j - i
  {
    if i == j then 0 else FedUntil(u, states, events, i, j - 1, id) + FedBy(u, states[j - 1], events[j - 1], id)
  }

  /** What one event does to the tokens that remain: they fall by exactly what is fed, and a request that is fed
      turns to decoding exactly when nothing remains. */
  lemma FedOnce(u: Setup, a: Sys, ev: Event, b: Sys, id: TaskId)
    requires Inv(a.tasks, u.dpSize, u.most) && EventTo(u, a, ev, b) && id in a.tasks && id in b.tasks
    ensures a.tasks[id].remaining == b.tasks[id].remaining + FedBy(u, a, ev, id)
    ensures FedBy(u, a, ev, id) > 0 ==> (b.tasks[id].kind == TaskSpec.Decode <==> b.tasks[id].remaining == 0)
  {
    hide Inv, PassedOver, AllDecoding, RoundOf, WithinChunks, PrefillServed, DecodeServed, InTurns;
    if ev.Serve? {
      RoundKeeps(u, a.tasks, a.cursor, ev.ids, ev.order);
      SteppedRemaining(a.tasks, RoundOf(u, a.tasks, a.cursor, ev.ids, ev.order), ev.finished, id);
    }
  }

  lemma SteppedRemaining(before: Pool, r: Round, finished: set<TaskId>, id: TaskId)
    requires Grows(before, r.tasks) && OnOwners(r.tasks, r.lists, r.kind) && id in before && id in Stepped(r, finished)
    ensures id in r.tasks && r.tasks[id].remaining == before[id].remaining && r.tasks[id].kind == before[id].kind
    ensures var (t, after) := (r.tasks[id], Stepped(r, finished)[id]);
      if r.kind == TaskSpec.Prefill && ListedIn(r.lists, id) then
        && t.kind == TaskSpec.Prefill && (after.kind == TaskSpec.Decode <==> after.remaining == 0)
        && t.remaining - after.remaining == if t.chunk.Some? then Min(t.chunk.value, t.remaining) else t.remaining
      else after.remaining == t.remaining
  {
  }

  /** Over any stretch of a run: what a request is fed is exactly what is no longer remaining. */
  lemma {:induction false} FedIsConsumed(u: Setup, states: seq<Sys>, events: seq<Event>, i: nat, j: nat, id: TaskId)
    requires IsRun(u, states, events) && states[0].tasks == map[] && i <= j < |states|
    requires forall k :: i <= k <= j ==> id in states[k].tasks
    ensures states[i].tasks[id].remaining == states[j].tasks[id].remaining + FedUntil(u, states, events, i, j, id)
    decreases j - i
  {
    hide Inv, EventTo, FedBy;
    if i < j {
      FedIsConsumed(u, states, events, i, j - 1, id);
      RunInv(u, states, events, j - 1);
      assert EventTo(u, states[j - 1], events[j - 1], states[j - 1 + 1]);
      FedOnce(u, states[j - 1], events[j - 1], states[j], id);
    }
  }
}
