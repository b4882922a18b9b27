/** Sums over lists of requests: the work that is left and the blocks that are needed are such sums. */
module Weights {
  import opened Base
  import opened Serving

  /** The total weight of the listed requests. */
  function Weight(w: map<TaskId, nat>, ids: seq<TaskId>): nat
    requires forall id :: id in ids ==> id in w
    decreases |ids|
  {
    if ids == [] then 0 else w[ids[0]] + Weight(w, ids[1..])
  }

  lemma {:induction false} WeightMono(a: map<TaskId, nat>, b: map<TaskId, nat>, ids: seq<TaskId>)
    requires forall id :: id in ids ==> id in a && id in b && b[id] <= a[id]
    ensures Weight(b, ids) <= Weight(a, ids)
    ensures (exists id :: id in ids && b[id] < a[id]) ==> Weight(b, ids) < Weight(a, ids)
    decreases |ids|
  {
    if ids != [] {
      WeightMono(a, b, ids[1..]);
    }
  }

  lemma {:induction false} WeightRemove(w: map<TaskId, nat>, ids: seq<TaskId>, gone: set<TaskId>)
    requires forall id :: id in ids ==> id in w
    ensures Weight(w, RemoveIds(ids, gone)) <= Weight(w, ids)
    decreases |ids|
  {
    if ids != [] {
      WeightRemove(w, ids[1..], gone);
      if ids[0] in gone {
        assert [] + RemoveIds(ids[1..], gone) == RemoveIds(ids[1..], gone);
      } else {
        var all, rest := RemoveIds(ids, gone), RemoveIds(ids[1..], gone);
        assert all == [ids[0]] + rest && all[1..] == rest;
      }
    }
  }

  lemma {:induction false} WeightConcat(w: map<TaskId, nat>, a: seq<TaskId>, b: seq<TaskId>)
    requires forall id :: id in a + b ==> id in w
    ensures (forall id :: id in a ==> id in w) && forall id :: id in b ==> id in w
    ensures Weight(w, a + b) == Weight(w, a) + Weight(w, b)
    decreases |a|
  {
    assert forall id :: id in a ==> id in a + b;
    assert forall id :: id in b ==> id in a + b;
    if a == [] {
      assert a + b == b;
    } else {
      assert (a + b)[1..] == a[1..] + b;
      WeightConcat(w, a[1..], b);
    }
  }

  /** A part of a list without repetitions weighs no more than the list. */
  lemma {:induction false} WeightSubset(w: map<TaskId, nat>, part: seq<TaskId>, all: seq<TaskId>)
    requires Distinct(part) && (forall id :: id in part ==> id in all) && forall id :: id in all ==> id in w
    ensures Weight(w, part) <= Weight(w, all)
    decreases |part|
  {
    if part != [] {
      assert part[0] in part;
      var i :| 0 <= i < |all| && all[i] == part[0];
      var rest := all[..i] + all[i + 1..];
      forall id | id in part[1..]
        ensures id in rest
      {
        assert id in part && id != part[0];
        assert all == all[..i] + [all[i]] + all[i + 1..];
      }
      WeightSubset(w, part[1..], rest);
      assert all == all[..i] + ([all[i]] + all[i + 1..]) && ([all[i]] + all[i + 1..])[1..] == all[i + 1..];
      WeightConcat(w, all[..i], [all[i]] + all[i + 1..]);
      WeightConcat(w, all[..i], all[i + 1..]);
    }
  }

  lemma {:induction false} WeightSum(a: map<TaskId, nat>, b: map<TaskId, nat>, c: map<TaskId, nat>, ids: seq<TaskId>)
    requires forall id :: id in ids ==> id in a && id in b && id in c && a[id] + b[id] == c[id]
    ensures Weight(a, ids) + Weight(b, ids) == Weight(c, ids)
    decreases |ids|
  {
    if ids != [] {
      WeightSum(a, b, c, ids[1..]);
    }
  }
}
