/** Types shared by the whole model: request ids, the source's exceptions, and rounded-up division. */
module Base {

  /** A request or task id. The source uses strings and only ever compares or hashes them here. */
  datatype TaskId = TaskId(text: string)

  /** The exceptions the modelled code raises. */
  datatype Error = NoFreeBlocks | PrefillCapacity | DecodeCapacity

  /** The result of a step that can raise. */
  datatype Outcome<+T> = Ok(value: T) | Raised(error: Error) {
    predicate IsFailure() {
      Raised?
    }

    function PropagateFailure<U>(): Outcome<U>
      requires Raised?
    {
      Raised(error)
    }

    function Extract(): T
      requires Ok?
    {
      value
    }
  }

  /** The requests of a list. */
  function Ids(ids: seq<TaskId>): set<TaskId> {
    set id | id in ids
  }

  datatype Option<+T> = None | Some(value: T)

  /** `chitu.utils.ceil_div` for a positive divisor. */
  function CeilDiv(a: nat, b: nat): nat
    requires b > 0
  {
    (a + b - 1) / b
  }

  function Max(a: int, b: int): int {
    if a < b then b else a
  }

  function Min(a: int, b: int): int {
    if a < b then a else b
  }

  ghost predicate Distinct<T>(s: seq<T>) {
    forall i, j :: 0 <= i < j < |s| ==> s[i] != s[j]
  }

  /** A position p lies in one of the first CeilDiv(n, b) blocks exactly when that block starts below n. */
  lemma CeilDivCovers(p: nat, n: nat, b: nat)
    requires b > 0
    ensures p < n ==> p / b < CeilDiv(n, b)
    ensures p / b < CeilDiv(n, b) ==> p / b * b < n
  {
    DivBounds(p, b);
    DivBounds(n + b - 1, b);
    var q, c := p / b, CeilDiv(n, b);
    if p < n && c <= q {
      MulLe(c + 1, q + 1, b);
      assert false;
    }
    if q < c {
      MulLe(q + 1, c, b);
    }
  }

  /** Rounded-up division is monotone. */
  lemma CeilDivMono(a: nat, c: nat, b: nat)
    requires b > 0 && a <= c
    ensures CeilDiv(a, b) <= CeilDiv(c, b)
  {
    DivBounds(a + b - 1, b);
    DivBounds(c + b - 1, b);
    var x, y := CeilDiv(a, b), CeilDiv(c, b);
    if y < x {
      MulLe(y + 1, x, b);
      assert false;
    }
  }

  lemma DivBounds(a: nat, b: nat)
    requires b > 0
    ensures 0 <= a / b && a / b * b <= a < (a / b + 1) * b
    ensures a == a / b * b + a % b && 0 <= a % b < b
  {
  }

  lemma MulLe(x: int, y: int, b: nat)
    requires x <= y
    ensures x * b <= y * b
  {
  }

  lemma DivUnique(q: nat, r: nat, b: nat)
    requires r < b
    ensures (q * b + r) / b == q && (q * b + r) % b == r
  {
    var a := q * b + r;
    DivBounds(a, b);
    if a / b < q {
      MulLe(a / b + 1, q, b);
      assert false;
    }
    if q < a / b {
      MulLe(q + 1, a / b, b);
      assert false;
    }
  }

  lemma SameElements<T>(a: seq<T>, b: seq<T>)
    requires multiset(a) == multiset(b)
    ensures forall x :: x in a <==> x in b
    ensures |a| == |b|
  {
    forall x
      ensures x in a <==> x in b
    {
      assert x in a <==> x in multiset(a);
      assert x in b <==> x in multiset(b);
    }
    assert |multiset(a)| == |a| && |multiset(b)| == |b|;
  }

  lemma {:induction false} DistinctCount<T>(s: seq<T>, x: T)
    requires Distinct(s)
    ensures multiset(s)[x] <= 1
    decreases |s|
  {
    if s != [] {
      assert s == [s[0]] + s[1..];
      DistinctCount(s[1..], x);
      if x == s[0] {
        assert x !in s[1..];
      }
    }
  }

  lemma DistinctPermutation<T>(a: seq<T>, b: seq<T>)
    requires Distinct(a) && multiset(a) == multiset(b)
    ensures Distinct(b) && forall x :: x in a <==> x in b
  {
    SameElements(a, b);
    forall i, j | 0 <= i < j < |b|
      ensures b[i] != b[j]
    {
      if b[i] == b[j] {
        DistinctCount(a, b[i]);
        TwiceIn(b, i, j);
      }
    }
  }

  lemma TwiceIn<T>(s: seq<T>, i: nat, j: nat)
    requires i < |s| && j < |s| && i != j && s[i] == s[j]
    ensures multiset(s)[s[i]] >= 2
  {
    var a, b := Min(i, j), Max(i, j);
    assert s == s[..a] + [s[a]] + s[a + 1..b] + [s[b]] + s[b + 1..];
  }
}
