/** Lists that are picked from a ranking: who is in them, and in which order. */
module Ranking {
  import opened Base

  /** `chosen` is a beginning of the members of `of` in the order of the ranking: whoever is ranked higher
      than somebody chosen is chosen too, and the chosen keep their order, each once. */
  ghost predicate FirstOf(order: seq<TaskId>, of: set<TaskId>, chosen: seq<TaskId>) {
    && (forall id :: id in chosen ==> id in order && id in of)
    && (forall i, j :: 0 <= i < j < |order| && order[i] in of && order[j] in chosen ==> order[i] in chosen)
    && InOrder(order, chosen)
  }

  /** Whoever comes first in the list is ranked higher. */
  ghost predicate InOrder(order: seq<TaskId>, chosen: seq<TaskId>) {
    forall a, b, i, j :: 0 <= a < b < |chosen| && 0 <= i < |order| && 0 <= j < |order| ==>
      (chosen[a] == order[i] && chosen[b] == order[j] ==> i < j)
  }

  /** `chosen` is all of them. */
  ghost predicate AllOf(order: seq<TaskId>, of: set<TaskId>, chosen: seq<TaskId>) {
    FirstOf(order, of, chosen) && forall id :: id in order && id in of ==> id in chosen
  }

  lemma NobodyOf(of: set<TaskId>)
    ensures AllOf([], of, [])
  {
  }

  lemma TailIndex(x: TaskId, rest: seq<TaskId>, j: nat)
    requires x !in rest && j < |[x] + rest|
    ensures j > 0 <==> ([x] + rest)[j] in rest
    ensures j > 0 ==> rest[j - 1] == ([x] + rest)[j]
  {
  }

  lemma InOrderCons(x: TaskId, rest: seq<TaskId>, chosen: seq<TaskId>)
    requires x !in rest && InOrder(rest, chosen) && forall id :: id in chosen ==> id in rest
    ensures InOrder([x] + rest, chosen) && InOrder([x] + rest, [x] + chosen)
  {
    hide InOrder;
    var (order, all) := ([x] + rest, [x] + chosen);
    forall a: nat, b: nat, i: nat, j: nat | a < b < |all| && i < |order| && j < |order|
      && all[a] == order[i] && all[b] == order[j]
      ensures i < j
    {
      assert all[b] == chosen[b - 1] && chosen[b - 1] in rest;
      TailIndex(x, rest, i);
      TailIndex(x, rest, j);
      if a > 0 {
        assert all[a] == chosen[a - 1] && chosen[a - 1] in rest;
        InOrderAt(rest, chosen, a - 1, b - 1, i - 1, j - 1);
      }
    }
    InOrderBy(order, all);
    InOrderTail(order, x, chosen);
  }

  lemma InOrderTail(order: seq<TaskId>, x: TaskId, chosen: seq<TaskId>)
    requires InOrder(order, [x] + chosen)
    ensures InOrder(order, chosen)
  {
    var all := [x] + chosen;
    forall a: nat, b: nat, i: nat, j: nat | a < b < |chosen| && i < |order| && j < |order|
      && chosen[a] == order[i] && chosen[b] == order[j]
      ensures i < j
    {
      assert all[a + 1] == chosen[a] && all[b + 1] == chosen[b];
    }
  }

  /** One more at the top of the ranking. */
  lemma AllOfCons(order: seq<TaskId>, of: set<TaskId>, chosen: seq<TaskId>)
    requires order != [] && order[0] !in order[1..] && AllOf(order[1..], of, chosen)
    ensures AllOf(order, of, (if order[0] in of then [order[0]] else []) + chosen)
  {
    hide InOrder;
    var (x, rest) := (order[0], order[1..]);
    InOrderCons(x, rest, chosen);
    assert order == [x] + rest && [] + chosen == chosen;
    var all := (if x in of then [x] else []) + chosen;
    forall i, j | 0 <= i < j < |order| && order[i] in of && order[j] in all
      ensures order[i] in all
    {
      if i > 0 {
        assert order[i] == rest[i - 1] && order[i] in rest;
      }
    }
  }

  /** One more at the end. */
  lemma AllOfSnoc(order: seq<TaskId>, x: TaskId, of: set<TaskId>, chosen: seq<TaskId>)
    requires x !in order && AllOf(order, of, chosen)
    ensures AllOf(order + [x], of, if x in of then chosen + [x] else chosen)
  {
    var all := if x in of then chosen + [x] else chosen;
    var more := order + [x];
    forall i, j | 0 <= i < j < |more| && more[i] in of && more[j] in all
      ensures more[i] in all
    {
      assert more[i] == order[i] && order[i] in order;
    }
    forall a, b, i, j | 0 <= a < b < |all| && 0 <= i < |more| && 0 <= j < |more|
      && all[a] == more[i] && all[b] == more[j]
      ensures i < j
    {
      assert all[a] == chosen[a] && chosen[a] in order;
      assert i < |order| && order[i] == more[i];
      if j < |order| {
        assert order[j] == more[j] && order[j] in order;
        assert b < |chosen| && chosen[b] == all[b];
      }
    }
  }

  lemma InOrderAt(order: seq<TaskId>, chosen: seq<TaskId>, a: nat, b: nat, i: nat, j: nat)
    requires InOrder(order, chosen) && a < b < |chosen| && i < |order| && j < |order|
    requires chosen[a] == order[i] && chosen[b] == order[j]
    ensures i < j
  {
  }

  /** A beginning of the chosen is chosen in the same way. */
  lemma FirstOfTake(order: seq<TaskId>, of: set<TaskId>, chosen: seq<TaskId>, n: nat)
    requires FirstOf(order, of, chosen) && n <= |chosen|
    ensures FirstOf(order, of, chosen[..n])
  {
    hide InOrder;
    forall i, j | 0 <= i < j < |order| && order[i] in of && order[j] in chosen[..n]
      ensures order[i] in chosen[..n]
    {
      var a: nat :| a < n && chosen[..n][a] == order[j];
      assert order[j] in chosen;
      var b: nat :| b < |chosen| && chosen[b] == order[i];
      if a < b {
        InOrderAt(order, chosen, a, b, j, i);
        assert false;
      }
      assert chosen[..n][b] == order[i];
    }
    forall id | id in chosen[..n]
      ensures id in order && id in of
    {
      assert id in chosen;
    }
    InOrderTake(order, chosen, n);
  }

  lemma AllOfTake(order: seq<TaskId>, of: set<TaskId>, all: seq<TaskId>, n: nat)
    requires AllOf(order, of, all) && n <= |all|
    ensures FirstOf(order, of, all[..n]) && forall id :: id in all ==> id in order && id in of
  {
    hide InOrder;
    FirstOfTake(order, of, all, n);
  }

  lemma InOrderTake(order: seq<TaskId>, chosen: seq<TaskId>, n: nat)
    requires InOrder(order, chosen) && n <= |chosen|
    ensures InOrder(order, chosen[..n])
  {
  }

  /** Choosing among the chosen. */
  lemma FirstOfFirst(order: seq<TaskId>, of: set<TaskId>, list: seq<TaskId>, sub: set<TaskId>, chosen: seq<TaskId>)
    requires AllOf(order, of, list) && FirstOf(list, sub, chosen)
    ensures FirstOf(order, of * sub, chosen)
  {
    hide InOrder;
    InOrderTrans(order, list, chosen);
    forall i, j | 0 <= i < j < |order| && order[i] in of * sub && order[j] in chosen
      ensures order[i] in chosen
    {
      assert order[j] in list;
      var a: nat :| a < |list| && list[a] == order[i];
      var b: nat :| b < |list| && list[b] == order[j];
      if b < a {
        InOrderAt(order, list, b, a, j, i);
        assert false;
      }
    }
  }

  lemma InOrderTrans(order: seq<TaskId>, list: seq<TaskId>, chosen: seq<TaskId>)
    requires InOrder(order, list) && InOrder(list, chosen) && forall id :: id in chosen ==> id in list
    ensures InOrder(order, chosen)
  {
    hide InOrder;
    forall a: nat, b: nat, i: nat, j: nat | a < b < |chosen| && i < |order| && j < |order|
      && chosen[a] == order[i] && chosen[b] == order[j]
      ensures i < j
    {
      assert chosen[a] in chosen && chosen[b] in chosen;
      var p: nat :| p < |list| && list[p] == chosen[a];
      var q: nat :| q < |list| && list[q] == chosen[b];
      InOrderAt(list, chosen, a, b, p, q);
      InOrderAt(order, list, p, q, i, j);
    }
    InOrderBy(order, chosen);
  }

  lemma InOrderBy(order: seq<TaskId>, chosen: seq<TaskId>)
    requires forall a: nat, b: nat, i: nat, j: nat :: a < b < |chosen| && i < |order| && j < |order| ==>
      (chosen[a] == order[i] && chosen[b] == order[j] ==> i < j)
    ensures InOrder(order, chosen)
  {
  }

  lemma AllOfAll(order: seq<TaskId>, of: set<TaskId>, list: seq<TaskId>, sub: set<TaskId>, chosen: seq<TaskId>)
    requires AllOf(order, of, list) && AllOf(list, sub, chosen)
    ensures AllOf(order, of * sub, chosen)
  {
    hide InOrder;
    FirstOfFirst(order, of, list, sub, chosen);
  }

  /** Whoever is ranked lower does not matter. */
  lemma FirstOfMore(order: seq<TaskId>, rest: seq<TaskId>, of: set<TaskId>, chosen: seq<TaskId>)
    requires FirstOf(order, of, chosen) && Distinct(order + rest)
    ensures FirstOf(order + rest, of, chosen)
  {
    var all := order + rest;
    forall i, j | 0 <= i < j < |all| && all[i] in of && all[j] in chosen
      ensures all[i] in chosen
    {
      IndexInFront(order, rest, j);
      assert order[i] == all[i] && order[j] == all[j];
    }
    forall a, b, i, j | 0 <= a < b < |chosen| && 0 <= i < |all| && 0 <= j < |all|
      && chosen[a] == all[i] && chosen[b] == all[j]
      ensures i < j
    {
      assert chosen[a] in order && chosen[b] in order;
      IndexInFront(order, rest, i);
      IndexInFront(order, rest, j);
      assert order[i] == all[i] && order[j] == all[j];
    }
  }

  lemma IndexInFront(order: seq<TaskId>, rest: seq<TaskId>, j: nat)
    requires Distinct(order + rest) && j < |order + rest| && (order + rest)[j] in order
    ensures j < |order|
  {
    var i :| 0 <= i < |order| && order[i] == (order + rest)[j];
    assert (order + rest)[i] == order[i];
  }

  /** Only the members of the ranking matter. */
  lemma AllOfSame(order: seq<TaskId>, of: set<TaskId>, of': set<TaskId>, chosen: seq<TaskId>)
    requires forall id :: id in order ==> (id in of <==> id in of')
    ensures FirstOf(order, of, chosen) <==> FirstOf(order, of', chosen)
    ensures AllOf(order, of, chosen) <==> AllOf(order, of', chosen)
  {
  }

  lemma FirstOfDistinct(order: seq<TaskId>, of: set<TaskId>, chosen: seq<TaskId>)
    requires FirstOf(order, of, chosen)
    ensures Distinct(chosen)
  {
    forall a, b | 0 <= a < b < |chosen|
      ensures chosen[a] != chosen[b]
    {
      assert chosen[a] in order;
    }
  }

  /** So a list that is chosen like this is determined by its length. */
  lemma {:induction false} FirstOfUnique(order: seq<TaskId>, of: set<TaskId>, all: seq<TaskId>, chosen: seq<TaskId>)
    requires AllOf(order, of, all) && FirstOf(order, of, chosen)
    ensures chosen <= all
    decreases |chosen|
  {
    hide InOrder;
    if chosen != [] {
      var n := |chosen| - 1;
      assert chosen[..n] + [chosen[n]] == chosen;
      FirstOfTake(order, of, chosen, n);
      FirstOfUnique(order, of, all, chosen[..n]);
      FirstOfDistinct(order, of, chosen);
      NextIs(order, of, all, chosen);
    }
  }

  lemma NextIs(order: seq<TaskId>, of: set<TaskId>, all: seq<TaskId>, chosen: seq<TaskId>)
    requires AllOf(order, of, all) && FirstOf(order, of, chosen) && Distinct(chosen) && chosen != []
    requires chosen[..|chosen| - 1] <= all
    ensures |chosen| <= |all| && chosen[|chosen| - 1] == all[|chosen| - 1]
  {
    hide InOrder;
    var n, x := |chosen| - 1, chosen[|chosen| - 1];
    assert x in chosen && x in all;
    var p: nat :| p < |all| && all[p] == x;
    assert forall k :: 0 <= k < n ==> chosen[k] == all[k] by {
      assert forall k :: 0 <= k < n ==> chosen[k] == chosen[..n][k];
    }
    FirstOfDistinct(order, of, all);
    HigherChosen(order, of, all, chosen, n, p);
    var b: nat :| b < |chosen| && chosen[b] == all[n];
  }

  /** Whoever is ranked higher than somebody chosen is chosen too. */
  lemma HigherChosen(order: seq<TaskId>, of: set<TaskId>, all: seq<TaskId>, chosen: seq<TaskId>, n: nat, p: nat)
    requires FirstOf(order, of, all) && FirstOf(order, of, chosen) && n <= p < |all| && all[p] in chosen
    ensures all[n] in chosen
  {
    hide InOrder;
    if n < p {
      Ranked(order, of, all, n);
      Ranked(order, of, all, p);
      var i: nat :| i < |order| && order[i] == all[n];
      var j: nat :| j < |order| && order[j] == all[p];
      InOrderAt(order, all, n, p, i, j);
    }
  }

  lemma Ranked(order: seq<TaskId>, of: set<TaskId>, all: seq<TaskId>, n: nat)
    requires FirstOf(order, of, all) && n < |all|
    ensures all[n] in order && all[n] in of
  {
  }

  lemma AllOfUnique(order: seq<TaskId>, of: set<TaskId>, all: seq<TaskId>, other: seq<TaskId>)
    requires AllOf(order, of, all) && AllOf(order, of, other)
    ensures other == all
  {
    hide InOrder;
    FirstOfUnique(order, of, all, other);
    FirstOfUnique(order, of, other, all);
  }
}
