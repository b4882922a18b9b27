/**
 The neural model, seen from the serving loop, and the naive one-request generation loop that
 every schedule is compared with.

 The network is uninterpreted: `encode` produces the KV entry of a token from the entries that
 precede it, and `next` picks the next token from all the entries of a request.
 */
module LanguageModel {
  import opened Base

  type Token = int
  type Kv = int

  datatype Lm = Lm(encode: (seq<Kv>, Token) -> Kv, next: seq<Kv> -> nat)

  /** Feeding `tokens` to a request whose cache already holds `kv`. */
  function Extend(lm: Lm, kv: seq<Kv>, tokens: seq<Token>): (r: seq<Kv>)
    ensures |r| == |kv| + |tokens|
    decreases |tokens|
  {
    if tokens == [] then kv else Extend(lm, kv + [lm.encode(kv, tokens[0])], tokens[1..])
  }

  /** The entries of a whole token sequence. */
  function Entries(lm: Lm, tokens: seq<Token>): (r: seq<Kv>)
    ensures |r| == |tokens|
  {
    Extend(lm, [], tokens)
  }

  /** Chunking does not matter: feeding a then b equals feeding a + b. */
  lemma {:induction false} ExtendConcat(lm: Lm, kv: seq<Kv>, a: seq<Token>, b: seq<Token>)
    ensures Extend(lm, Extend(lm, kv, a), b) == Extend(lm, kv, a + b)
    decreases |a|
  {
    if a == [] {
      assert a + b == b;
    } else {
      assert (a + b)[0] == a[0] && (a + b)[1..] == a[1..] + b;
      ExtendConcat(lm, kv + [lm.encode(kv, a[0])], a[1..], b);
    }
  }

  lemma {:induction false} ExtendKeeps(lm: Lm, kv: seq<Kv>, tokens: seq<Token>)
    ensures kv <= Extend(lm, kv, tokens)
    decreases |tokens|
  {
    if tokens != [] {
      ExtendKeeps(lm, kv + [lm.encode(kv, tokens[0])], tokens[1..]);
    }
  }

  /** Every entry is that of its token after all the entries in front of it. */
  lemma EntryAt(lm: Lm, tokens: seq<Token>, i: nat)
    requires i < |tokens|
    ensures Entries(lm, tokens)[..i] == Entries(lm, tokens[..i])
    ensures Entries(lm, tokens)[i] == lm.encode(Entries(lm, tokens)[..i], tokens[i])
  {
    hide Extend;
    var front, one, rest := tokens[..i], [tokens[i]], tokens[i + 1..];
    var kv := Entries(lm, front);
    assert tokens == front + one + rest;
    ExtendConcat(lm, [], front + one, rest);
    ExtendConcat(lm, [], front, one);
    ExtendOne(lm, kv, tokens[i]);
    ExtendKeeps(lm, kv + [lm.encode(kv, tokens[i])], rest);
  }

  lemma ExtendOne(lm: Lm, kv: seq<Kv>, token: Token)
    ensures Extend(lm, kv, [token]) == kv + [lm.encode(kv, token)]
  {
    assert Extend(lm, kv, [token]) == Extend(lm, kv + [lm.encode(kv, token)], [token][1..]);
  }

  /** Feeding every request of a batch its own tokens; all others keep their entries. */
  function ExtendAll(lm: Lm, contents: map<TaskId, seq<Kv>>, ids: seq<TaskId>,
      input: map<TaskId, seq<Token>>): map<TaskId, seq<Kv>>
    requires forall id :: id in ids ==> id in input
  {
    map id | id in contents.Keys + Ids(ids) ::
      if id in ids then Extend(lm, if id in contents then contents[id] else [], input[id]) else contents[id]
  }

  /** The token that follows a prefix. */
  function Greedy(lm: Lm, tokens: seq<Token>): nat {
    lm.next(Entries(lm, tokens))
  }

  datatype FinishReason = Stop | Length

  datatype Request = Request(id: TaskId, prompt: seq<Token>, maxNewTokens: int, stopWithEos: bool)

  /** The number of tokens after which a request is stopped: never fewer than two. */
  function Cap(r: Request): nat {
    if r.maxNewTokens < 2 then 2 else r.maxNewTokens
  }

  datatype Completion = Completion(tokens: seq<Token>, reason: FinishReason)

  predicate IsStop(stops: set<Token>, r: Request, t: Token) {
    r.stopWithEos && t in stops
  }

  /** The naive generation loop of a single request, resumed after the tokens `out`. */
  function Generate(lm: Lm, stops: set<Token>, r: Request, out: seq<Token>): (c: Completion)
    requires |out| < Cap(r)
    decreases Cap(r) - |out|
  {
    var t := Greedy(lm, r.prompt + out);
    var more := out + [t];
    if IsStop(stops, r, t) then Completion(more, Stop)
    else if |more| >= Cap(r) then Completion(more, Length)
    else Generate(lm, stops, r, more)
  }

  /** What a request must produce. */
  function Naive(lm: Lm, stops: set<Token>, r: Request): Completion {
    Generate(lm, stops, r, [])
  }

  /** What the naive loop adds to `out` is a greedy continuation of at most Cap tokens in all,
      cut exactly at the first stop token or, failing one, at Cap. */
  lemma {:induction false} GenerateShape(lm: Lm, stops: set<Token>, r: Request, out: seq<Token>)
    requires |out| < Cap(r)
    ensures var c := Generate(lm, stops, r, out);
      && out < c.tokens
      && |c.tokens| <= Cap(r)
      && (forall k :: |out| <= k < |c.tokens| ==> c.tokens[k] == Greedy(lm, r.prompt + c.tokens[..k]))
      && (forall k :: |out| <= k < |c.tokens| - 1 ==> !IsStop(stops, r, c.tokens[k]))
      && (c.reason == Stop <==> IsStop(stops, r, c.tokens[|c.tokens| - 1]))
      && (c.reason == Length ==> |c.tokens| == Cap(r))
    decreases Cap(r) - |out|
  {
    var t := Greedy(lm, r.prompt + out);
    var more := out + [t];
    var c := Generate(lm, stops, r, out);
    if !IsStop(stops, r, t) && |more| < Cap(r) {
      GenerateShape(lm, stops, r, more);
    }
    assert c.tokens[..|out|] == out;
    assert c.tokens[|out|] == t;
  }

  /** What a request must produce: each token is the next one after all entries of the prompt and the tokens in
      front of it; the first stop token ends it if the request asks for that, and otherwise max_new_tokens, but
      never fewer than two. */
  lemma NaiveIs(lm: Lm, stops: set<Token>, r: Request)
    ensures var c := Naive(lm, stops, r);
      && 1 <= |c.tokens| <= Max(2, r.maxNewTokens)
      && (forall k :: 0 <= k < |c.tokens| ==> c.tokens[k] == lm.next(Entries(lm, r.prompt + c.tokens[..k])))
      && (forall k :: 0 <= k < |c.tokens| - 1 ==> !(r.stopWithEos && c.tokens[k] in stops))
      && (c.reason == Stop <==> r.stopWithEos && c.tokens[|c.tokens| - 1] in stops)
      && (c.reason == Length ==> |c.tokens| == Max(2, r.maxNewTokens))
  {
    hide Generate, Entries;
    GenerateShape(lm, stops, r, []);
  }
}
