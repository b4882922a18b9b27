/**
 The stream of one response between the engine's thread and the server's event loop. The producer appends
 under a lock and then asks the loop to set an event; the single consumer looks under the lock, and if
 there is nothing to read clears the event and waits for it, without giving the loop a chance to run
 callbacks in between.
 */
module Stream {
  import opened Base
  import opened LanguageModel

  // ----- Content -----

  /** The tokenizer, and whether it has to decode the whole sequence each time. */
  datatype Decoder = Decoder(decode: seq<Token> -> string, full: bool)

  datatype Content = Content(seqs: seq<string>, cacheTokens: seq<Token>, charsLen: nat, stop: bool)

  const REPLACEMENT: char := '\U{FFFD}'

  /** `add_data` under the lock: a chunk appears once the cached tokens decode to whole characters. */
  function AddToken(d: Decoder, c: Content, value: Token): Content {
    var cached := c.cacheTokens + [value];
    var s := d.decode(cached);
    if REPLACEMENT in s then c.(cacheTokens := cached)
    else if !d.full then c.(cacheTokens := [], seqs := c.seqs + [s], charsLen := c.charsLen + |s|)
    else c.(cacheTokens := cached, seqs := c.seqs + [s[Min(c.charsLen, |s|)..]], charsLen := |s|)
  }

  function AddTokens(d: Decoder, c: Content, values: seq<Token>): Content
    decreases |values|
  {
    if values == [] then c else AddTokens(d, AddToken(d, c, values[0]), values[1..])
  }

  function Concat(chunks: seq<string>): string
    decreases |chunks|
  {
    if chunks == [] then [] else chunks[0] + Concat(chunks[1..])
  }

  lemma {:induction false} ConcatAppend(chunks: seq<string>, s: string)
    ensures Concat(chunks + [s]) == Concat(chunks) + s
    decreases |chunks|
  {
    if chunks == [] {
      assert Concat([s]) == s + Concat([s][1..]);
    } else {
      assert (chunks + [s])[1..] == chunks[1..] + [s];
      ConcatAppend(chunks[1..], s);
    }
  }

  /** The tokens decode to whole characters. */
  predicate Complete(d: Decoder, tokens: seq<Token>) {
    REPLACEMENT !in d.decode(tokens)
  }

  /** No beginning of these tokens but the empty one is complete before the n-th. */
  predicate IncompleteBefore(d: Decoder, tokens: seq<Token>, n: nat)
    requires n <= |tokens| + 1
  {
    forall k :: 0 < k < n ==> !Complete(d, tokens[..k])
  }

  /** The tokens cut into groups: nothing is lost, repeated or reordered, a group ends as soon as it is complete,
      and what is held back is not complete yet. */
  ghost predicate Cut(d: Decoder, groups: seq<seq<Token>>, held: seq<Token>, tokens: seq<Token>) {
    && Joined(groups) + held == tokens
    && (forall i :: 0 <= i < |groups| ==> Shortest(d, groups[i]))
    && IncompleteBefore(d, held, |held| + 1)
  }

  ghost predicate Shortest(d: Decoder, group: seq<Token>) {
    group != [] && Complete(d, group) && IncompleteBefore(d, group, |group|)
  }

  /** The chunks are the texts of the groups. */
  ghost predicate Grouped(d: Decoder, groups: seq<seq<Token>>, c: Content, tokens: seq<Token>) {
    && Cut(d, groups, c.cacheTokens, tokens) && |groups| == |c.seqs|
    && (forall i :: 0 <= i < |groups| ==> c.seqs[i] == d.decode(groups[i]))
    && c.charsLen == |Concat(c.seqs)|
  }

  function Joined(groups: seq<seq<Token>>): seq<Token>
    decreases |groups|
  {
    if groups == [] then [] else groups[0] + Joined(groups[1..])
  }

  lemma {:induction false} JoinedAppend(groups: seq<seq<Token>>, g: seq<Token>)
    ensures Joined(groups + [g]) == Joined(groups) + g
    decreases |groups|
  {
    if groups == [] {
      assert Joined([g]) == g + Joined([g][1..]);
    } else {
      assert (groups + [g])[1..] == groups[1..] + [g];
      JoinedAppend(groups[1..], g);
    }
  }

  /** Chunk by chunk decoding: the chunks are the texts of consecutive groups of the tokens, each the shortest
      that is complete, and only tokens of a character that is not complete yet are held back. */
  lemma {:induction false} ChunksFollowTokens(d: Decoder, c: Content, tokens: seq<Token>, groups: seq<seq<Token>>,
      more: seq<Token>) returns (after: seq<seq<Token>>)
    requires !d.full && Grouped(d, groups, c, tokens)
    ensures Grouped(d, after, AddTokens(d, c, more), tokens + more)
    decreases |more|
  {
    hide Grouped, AddToken;
    if more == [] {
      assert tokens + more == tokens;
      after := groups;
    } else {
      var groups' := OneMoreToken(d, c, tokens, groups, more[0]);
      after := ChunksFollowTokens(d, AddToken(d, c, more[0]), tokens + [more[0]], groups', more[1..]);
      assert tokens + [more[0]] + more[1..] == tokens + more;
    }
  }

  lemma OneMoreToken(d: Decoder, c: Content, tokens: seq<Token>, groups: seq<seq<Token>>, value: Token)
    returns (after: seq<seq<Token>>)
    requires !d.full && Grouped(d, groups, c, tokens)
    ensures Grouped(d, after, AddToken(d, c, value), tokens + [value])
  {
    var cached := c.cacheTokens + [value];
    forall k | 0 < k < |cached|
      ensures !Complete(d, cached[..k])
    {
      assert cached[..k] == c.cacheTokens[..k];
    }
    assert cached[..|cached|] == cached;
    assert Joined(groups) + cached == tokens + [value];
    if Complete(d, cached) {
      after := groups + [cached];
      JoinedAppend(groups, cached);
      ConcatAppend(c.seqs, d.decode(cached));
      assert Joined(groups) + cached + [] == tokens + [value];
    } else {
      after := groups;
    }
  }

  /** From the start: nothing has been produced yet. */
  lemma GroupedStart(d: Decoder)
    ensures Grouped(d, [], START.content, [])
  {
  }

  /** Tokens can be cut in one way only, so they determine the chunks. */
  lemma {:induction false} CutUnique(d: Decoder, a: seq<seq<Token>>, heldA: seq<Token>, b: seq<seq<Token>>,
      heldB: seq<Token>, tokens: seq<Token>)
    requires Cut(d, a, heldA, tokens) && Cut(d, b, heldB, tokens)
    ensures a == b && heldA == heldB
    decreases |a|
  {
    hide Cut;
    if a != [] {
      FirstGroup(d, a, heldA, b, heldB, tokens);
      CutRest(d, a, heldA, tokens);
      CutRest(d, b, heldB, tokens);
      CutUnique(d, a[1..], heldA, b[1..], heldB, tokens[|a[0]|..]);
      assert a == [a[0]] + a[1..] && b == [b[0]] + b[1..];
    } else if b != [] {
      FirstGroup(d, b, heldB, a, heldA, tokens);
    } else {
      CutNone(d, heldA, tokens);
      CutNone(d, heldB, tokens);
    }
  }

  lemma CutNone(d: Decoder, held: seq<Token>, tokens: seq<Token>)
    requires Cut(d, [], held, tokens)
    ensures held == tokens && forall k :: 0 < k <= |tokens| ==> !Complete(d, tokens[..k])
  {
    assert [] + held == held;
  }

  /** The first group is the shortest complete beginning of the tokens. */
  lemma CutFirst(d: Decoder, groups: seq<seq<Token>>, held: seq<Token>, tokens: seq<Token>)
    requires Cut(d, groups, held, tokens) && groups != []
    ensures var n := |groups[0]|;
      && 0 < n <= |tokens| && tokens[..n] == groups[0] && Complete(d, tokens[..n])
      && forall k :: 0 < k < n ==> !Complete(d, tokens[..k])
  {
    hide Complete;
    assert Shortest(d, groups[0]);
    assert tokens == groups[0] + (Joined(groups[1..]) + held);
    forall k | 0 < k < |groups[0]|
      ensures !Complete(d, tokens[..k])
    {
      assert tokens[..k] == groups[0][..k];
    }
  }

  lemma FirstGroup(d: Decoder, a: seq<seq<Token>>, heldA: seq<Token>, b: seq<seq<Token>>, heldB: seq<Token>,
      tokens: seq<Token>)
    requires Cut(d, a, heldA, tokens) && Cut(d, b, heldB, tokens) && a != []
    ensures b != [] && b[0] == a[0]
  {
    hide Complete, Cut;
    CutFirst(d, a, heldA, tokens);
    if b == [] {
      CutNone(d, heldB, tokens);
    } else {
      CutFirst(d, b, heldB, tokens);
    }
  }

  lemma CutRest(d: Decoder, groups: seq<seq<Token>>, held: seq<Token>, tokens: seq<Token>)
    requires Cut(d, groups, held, tokens) && groups != []
    ensures |groups[0]| <= |tokens| && Cut(d, groups[1..], held, tokens[|groups[0]|..])
  {
    hide Shortest, IncompleteBefore, Joined;
    JoinedFirst(groups, held);
  }

  lemma JoinedFirst(groups: seq<seq<Token>>, held: seq<Token>)
    requires groups != []
    ensures var all := Joined(groups) + held;
      |groups[0]| <= |all| && all[|groups[0]|..] == Joined(groups[1..]) + held
  {
    hide Joined;
    JoinedCons(groups);
    DropFront(groups[0], Joined(groups[1..]), held);
  }

  lemma JoinedCons(groups: seq<seq<Token>>)
    requires groups != []
    ensures Joined(groups) == groups[0] + Joined(groups[1..])
  {
  }

  lemma DropFront(a: seq<Token>, b: seq<Token>, c: seq<Token>)
    ensures (a + b + c)[|a|..] == b + c
  {
  }

  // ----- Whole-sequence decoding -----

  /** The places at which the text of the tokens so far is complete. */
  ghost predicate Places(d: Decoder, tokens: seq<Token>, at: seq<nat>) {
    && (forall i, j :: 0 <= i < j < |at| ==> at[i] < at[j])
    && (forall k :: 0 < k <= |tokens| ==> (k in at <==> Complete(d, tokens[..k])))
    && forall i :: 0 <= i < |at| ==> 0 < at[i] <= |tokens|
  }

  /** The text at the n-th of these places; no text before the first. */
  function TextAt(d: Decoder, tokens: seq<Token>, at: seq<nat>, n: nat): string
    requires n <= |at| && forall i :: 0 <= i < |at| ==> at[i] <= |tokens|
  {
    if n == 0 then [] else d.decode(tokens[..at[n - 1]])
  }

  /** What whole-sequence decoding has emitted: at each place where the text is complete, the part of it behind
      the text of the place before. */
  ghost predicate Emitted(d: Decoder, c: Content, tokens: seq<Token>, at: seq<nat>) {
    && Places(d, tokens, at) && c.cacheTokens == tokens && |c.seqs| == |at|
    && (forall i :: 0 <= i < |at| ==> c.seqs[i] == Behind(TextAt(d, tokens, at, i), TextAt(d, tokens, at, i + 1)))
    && c.charsLen == |TextAt(d, tokens, at, |at|)|
  }

  /** The part of a text behind the length of an earlier one. */
  function Behind(before: string, text: string): string {
    text[Min(|before|, |text|)..]
  }

  /** Whole-sequence decoding, for any tokenizer. */
  lemma {:induction false} ChunksFollowText(d: Decoder, c: Content, tokens: seq<Token>, at: seq<nat>, more: seq<Token>)
      returns (after: seq<nat>)
    requires d.full && Emitted(d, c, tokens, at)
    ensures Emitted(d, AddTokens(d, c, more), tokens + more, after)
    decreases |more|
  {
    hide Emitted, AddToken;
    if more == [] {
      assert tokens + more == tokens;
      after := at;
    } else {
      var at' := OneMorePlace(d, c, tokens, at, more[0]);
      after := ChunksFollowText(d, AddToken(d, c, more[0]), tokens + [more[0]], at', more[1..]);
      assert tokens + [more[0]] + more[1..] == tokens + more;
    }
  }

  lemma OneMorePlace(d: Decoder, c: Content, tokens: seq<Token>, at: seq<nat>, value: Token) returns (after: seq<nat>)
    requires d.full && Emitted(d, c, tokens, at)
    ensures Emitted(d, AddToken(d, c, value), tokens + [value], after)
  {
    hide Complete, Places, TextAt;
    var all := tokens + [value];
    after := if Complete(d, all) then at + [|all|] else at;
    PlacesNext(d, tokens, at, value);
    forall n: nat | n <= |at|
      ensures TextAt(d, all, after, n) == TextAt(d, tokens, at, n)
    {
      SameText(d, tokens, at, value, n);
    }
    LastText(d, tokens, at, value);
    EmittedNext(d, c, value);
  }

  lemma PlacesNext(d: Decoder, tokens: seq<Token>, at: seq<nat>, value: Token)
    requires Places(d, tokens, at)
    ensures var all := tokens + [value]; Places(d, all, if Complete(d, all) then at + [|all|] else at)
    ensures forall i :: 0 <= i < |at| ==> at[i] <= |tokens|
  {
    hide Complete;
    var all := tokens + [value];
    var after := if Complete(d, all) then at + [|all|] else at;
    forall k | 0 < k <= |all|
      ensures k in after <==> Complete(d, all[..k])
    {
      if k < |all| {
        assert all[..k] == tokens[..k];
      } else {
        assert all[..k] == all;
      }
    }
  }

  lemma SameText(d: Decoder, tokens: seq<Token>, at: seq<nat>, value: Token, n: nat)
    requires n <= |at| && forall i :: 0 <= i < |at| ==> at[i] <= |tokens|
    ensures var all := tokens + [value];
      && TextAt(d, all, at, n) == TextAt(d, tokens, at, n)
      && TextAt(d, all, at + [|all|], n) == TextAt(d, tokens, at, n)
  {
    if n > 0 {
      assert (tokens + [value])[..at[n - 1]] == tokens[..at[n - 1]];
    }
  }

  lemma LastText(d: Decoder, tokens: seq<Token>, at: seq<nat>, value: Token)
    requires forall i :: 0 <= i < |at| ==> at[i] <= |tokens|
    ensures var all := tokens + [value]; TextAt(d, all, at + [|all|], |at| + 1) == d.decode(all)
  {
    var all := tokens + [value];
    assert all[..|all|] == all;
  }

  lemma EmittedNext(d: Decoder, c: Content, value: Token)
    requires d.full
    ensures var (cached, after) := (c.cacheTokens + [value], AddToken(d, c, value));
      after.cacheTokens == cached && after.stop == c.stop
      && if Complete(d, cached) then
           after.seqs == c.seqs + [d.decode(cached)[Min(c.charsLen, |d.decode(cached)|)..]]
             && after.charsLen == |d.decode(cached)|
         else after.seqs == c.seqs && after.charsLen == c.charsLen
  {
  }

  lemma EmittedStart(d: Decoder)
    ensures Emitted(d, START.content, [], [])
  {
  }

  /** The chunks up to every place are the text there exactly when each of these texts continues the one
      before. */
  lemma ChunksAreText(d: Decoder, c: Content, tokens: seq<Token>, at: seq<nat>)
    requires Emitted(d, c, tokens, at)
    ensures |c.seqs| == |at| && forall i :: 0 <= i < |at| ==> at[i] <= |tokens|
    ensures (forall n :: 0 <= n <= |at| ==> Concat(c.seqs[..n]) == TextAt(d, tokens, at, n)) <==>
      (forall n :: 0 <= n < |at| ==> TextAt(d, tokens, at, n) <= TextAt(d, tokens, at, n + 1))
  {
    hide TextAt, Concat;
    if forall n :: 0 <= n <= |at| ==> Concat(c.seqs[..n]) == TextAt(d, tokens, at, n) {
      forall n: nat | n < |at|
        ensures TextAt(d, tokens, at, n) <= TextAt(d, tokens, at, n + 1)
      {
        TextContinued(d, c, tokens, at, n);
      }
    }
    if forall n :: 0 <= n < |at| ==> TextAt(d, tokens, at, n) <= TextAt(d, tokens, at, n + 1) {
      forall n: nat | n <= |at|
        ensures Concat(c.seqs[..n]) == TextAt(d, tokens, at, n)
      {
        TextsContinue(d, c, tokens, at, n);
      }
    }
  }

  lemma TextContinued(d: Decoder, c: Content, tokens: seq<Token>, at: seq<nat>, n: nat)
    requires Emitted(d, c, tokens, at) && n < |at|
    requires Concat(c.seqs[..n]) == TextAt(d, tokens, at, n) && Concat(c.seqs[..n + 1]) == TextAt(d, tokens, at, n + 1)
    ensures TextAt(d, tokens, at, n) <= TextAt(d, tokens, at, n + 1)
  {
    hide Places, TextAt;
    assert c.seqs[..n + 1] == c.seqs[..n] + [c.seqs[n]];
    ConcatAppend(c.seqs[..n], c.seqs[n]);
  }

  lemma {:induction false} TextsContinue(d: Decoder, c: Content, tokens: seq<Token>, at: seq<nat>, n: nat)
    requires Emitted(d, c, tokens, at) && n <= |at|
    requires forall k :: 0 <= k < |at| ==> TextAt(d, tokens, at, k) <= TextAt(d, tokens, at, k + 1)
    ensures Concat(c.seqs[..n]) == TextAt(d, tokens, at, n)
    decreases n
  {
    hide Complete;
    if n > 0 {
      TextsContinue(d, c, tokens, at, n - 1);
      assert c.seqs[..n] == c.seqs[..n - 1] + [c.seqs[n - 1]];
      ConcatAppend(c.seqs[..n - 1], c.seqs[n - 1]);
      assert TextAt(d, tokens, at, n - 1) <= TextAt(d, tokens, at, n - 1 + 1);
    }
  }

  /** So with such a tokenizer the chunks together are the text of the longest complete beginning of the tokens,
      and all of the text once that is complete. */
  lemma WholeText(d: Decoder, c: Content, tokens: seq<Token>, at: seq<nat>)
    requires Emitted(d, c, tokens, at)
    requires forall n :: 0 <= n < |at| ==> TextAt(d, tokens, at, n) <= TextAt(d, tokens, at, n + 1)
    ensures Concat(c.seqs) == TextAt(d, tokens, at, |at|)
    ensures tokens != [] && Complete(d, tokens) ==> Concat(c.seqs) == d.decode(tokens)
  {
    TextsContinue(d, c, tokens, at, |at|);
    assert c.seqs[..|at|] == c.seqs;
    if tokens != [] && Complete(d, tokens) {
      assert tokens[..|tokens|] == tokens;
      var i :| 0 <= i < |at| && at[i] == |tokens|;
      assert i == |at| - 1;
    }
  }

  // ----- The two threads -----

  datatype Pc = Ready | Checked | Waiting | Finished

  /** `owed` says that the producer has changed the content and not asked the loop for a wake-up yet;
      `callbacks` counts the wake-ups the loop still has to run. */
  datatype Sys = Sys(content: Content, index: nat, received: seq<string>, event: bool, callbacks: nat, owed: bool,
      pc: Pc)

  datatype Step = Produce(value: Token, batched: bool) | Stop | Notify | Poll | Sleep | Callback | Wake

  /** What the consumer finds under the lock. */
  function Polled(s: Sys): Sys {
    if s.content.stop && s.index >= |s.content.seqs| then s.(pc := Finished)
    else if s.index < |s.content.seqs| then s.(index := s.index + 1, received := s.received + [s.content.seqs[s.index]])
    else s.(pc := Checked)
  }

  /** One atomic step of either thread; None if it is not possible. A token that completes no chunk is
      followed by a notification only if its producer notifies for a whole batch. Callbacks run on the consumer's own
      thread, so not between its look under the lock and its wait. */
  function Next(d: Decoder, s: Sys, step: Step): Option<Sys> {
    match step
    case Produce(v, batched) =>
      var after := AddToken(d, s.content, v);
      if s.content.stop then None
      else Some(s.(content := after, owed := s.owed || batched || |after.seqs| > |s.content.seqs|))
    case Stop => if s.content.stop then None else Some(s.(content := s.content.(stop := true), owed := true))
    case Notify => if s.owed then Some(s.(owed := false, callbacks := s.callbacks + 1)) else None
    case Poll => if s.pc == Ready then Some(Polled(s)) else None
    case Sleep => if s.pc == Checked then Some(s.(event := false, pc := Waiting)) else None
    case Callback => if s.pc != Checked && s.callbacks > 0 then Some(s.(callbacks := s.callbacks - 1, event := true))
      else None
    case Wake => if s.pc == Waiting && s.event then Some(s.(pc := Ready)) else None
  }

  predicate Unread(s: Sys) {
    s.index < |s.content.seqs| || s.content.stop
  }

  ghost predicate Inv(s: Sys) {
    && s.index <= |s.content.seqs| && s.received == s.content.seqs[..s.index]
    && (s.pc == Waiting && Unread(s) ==> s.event || s.callbacks > 0 || s.owed)
    && (s.pc == Checked && Unread(s) ==> s.callbacks > 0 || s.owed)
    && (s.pc == Finished ==> s.content.stop && s.index == |s.content.seqs|)
  }

  const START: Sys := Sys(Content([], [], 0, false), 0, [], false, 0, false, Ready)

  ghost predicate IsRun(d: Decoder, states: seq<Sys>, steps: seq<Step>) {
    |states| == |steps| + 1 && forall i :: 0 <= i < |steps| ==> Next(d, states[i], steps[i]) == Some(states[i + 1])
  }

  lemma StepKeeps(d: Decoder, s: Sys, step: Step)
    requires Inv(s) && Next(d, s, step).Some?
    ensures Inv(Next(d, s, step).value)
  {
    var t := Next(d, s, step).value;
    if step.Produce? {
      assert t.content.seqs[..|s.content.seqs|] == s.content.seqs;
    }
  }

  /** Over all interleavings: the consumer has received the chunks once each, in order, and never sleeps
      with something unread unless a wake-up is still to come. */
  lemma {:induction false} RunInv(d: Decoder, states: seq<Sys>, steps: seq<Step>, i: nat)
    requires IsRun(d, states, steps) && states[0] == START && i < |states|
    ensures Inv(states[i])
    decreases i
  {
    hide Inv, Next;
    if i == 0 {
      StartInv();
    } else {
      RunInv(d, states, steps, i - 1);
      assert Next(d, states[i - 1], steps[i - 1]) == Some(states[i - 1 + 1]);
      StepKeeps(d, states[i - 1], steps[i - 1]);
    }
  }

  lemma StartInv()
    ensures Inv(START)
  {
  }

  /** The tokens produced so far. */
  function Produced(steps: seq<Step>): seq<Token>
    decreases |steps|
  {
    if steps == [] then []
    else
      Produced(steps[..|steps| - 1])
        + match steps[|steps| - 1] case Produce(v, _) => [v] case _ => []
  }

  lemma {:induction false} AddTokensSnoc(d: Decoder, c: Content, values: seq<Token>, v: Token)
    ensures AddTokens(d, c, values + [v]) == AddToken(d, AddTokens(d, c, values), v)
    decreases |values|
  {
    hide AddToken;
    if values == [] {
      assert AddTokens(d, c, [v]) == AddTokens(d, AddToken(d, c, v), [v][1..]);
    } else {
      assert (values + [v])[1..] == values[1..] + [v];
      AddTokensSnoc(d, AddToken(d, c, values[0]), values[1..], v);
    }
  }

  /** In every state of every run the chunks are those of the tokens produced so far; with `RunInv` the consumer
      has received a beginning of them. */
  lemma {:induction false} RunContent(d: Decoder, states: seq<Sys>, steps: seq<Step>, i: nat)
    requires IsRun(d, states, steps) && states[0] == START && i < |states|
    ensures states[i].content.(stop := false) == AddTokens(d, START.content, Produced(steps[..i]))
    decreases i
  {
    hide Next;
    if i > 0 {
      RunContent(d, states, steps, i - 1);
      assert Next(d, states[i - 1], steps[i - 1]) == Some(states[i - 1 + 1]);
      assert steps[..i][..i - 1] == steps[..i - 1];
      StepContent(d, states[i - 1], steps[i - 1]);
      if steps[i - 1].Produce? {
        AddTokensSnoc(d, START.content, Produced(steps[..i - 1]), steps[i - 1].value);
      } else {
        assert Produced(steps[..i - 1]) + [] == Produced(steps[..i - 1]);
      }
    }
  }

  lemma StepContent(d: Decoder, s: Sys, step: Step)
    requires Next(d, s, step).Some?
    ensures var t := Next(d, s, step).value;
      if step.Produce? then !s.content.stop && t.content == AddToken(d, s.content, step.value)
      else t.content.(stop := false) == s.content.(stop := false)
  {
  }

  predicate OnLoop(step: Step) {
    step == Poll || step == Sleep || step == Callback || step == Wake
  }

  /** The steps the event loop still has to make. */
  function Work(s: Sys): int {
    s.callbacks + |s.content.seqs| - s.index
      + (match s.pc case Checked => 3 case Waiting => 2 case Ready => 1 case Finished => 0)
  }

  /** Once the producer has stopped and asked for its last wake-up, the loop is never stuck before the
      consumer has everything ... */
  lemma NeverStuck(d: Decoder, s: Sys)
    requires Inv(s) && s.content.stop && !s.owed && s.pc != Finished
    ensures exists step :: OnLoop(step) && Next(d, s, step).Some?
  {
    var step := match s.pc case Ready => Poll case Checked => Sleep case _ => if s.event then Wake else Callback;
    assert OnLoop(step) && Next(d, s, step).Some?;
  }

  /** ... and every step it makes brings it closer. */
  lemma LoopAdvances(d: Decoder, s: Sys, step: Step)
    requires Inv(s) && s.content.stop && OnLoop(step) && Next(d, s, step).Some?
    ensures var t := Next(d, s, step).value;
      0 <= Work(t) < Work(s) && t.content == s.content && t.owed == s.owed
  {
  }

  /** So the loop is done after at most Work(s) steps, and then the consumer has received every chunk. */
  lemma {:induction false} ConsumerCompletes(d: Decoder, states: seq<Sys>, steps: seq<Step>)
    requires IsRun(d, states, steps) && Inv(states[0]) && states[0].content.stop && !states[0].owed
    requires forall i :: 0 <= i < |steps| ==> OnLoop(steps[i])
    ensures |steps| <= Work(states[0])
    ensures var last := states[|steps|];
      (forall step :: OnLoop(step) ==> Next(d, last, step) == None) ==>
        last.pc == Finished && last.received == states[0].content.seqs
    decreases |steps|
  {
    hide Inv, Next, Work;
    if steps == [] {
      WorkLeft(states[0]);
      if forall step :: OnLoop(step) ==> Next(d, states[0], step) == None {
        if states[0].pc != Finished {
          NeverStuck(d, states[0]);
          assert false;
        }
        FinishedAll(states[0]);
      }
    } else {
      assert Next(d, states[0], steps[0]) == Some(states[0 + 1]);
      StepKeeps(d, states[0], steps[0]);
      LoopAdvances(d, states[0], steps[0]);
      assert IsRun(d, states[1..], steps[1..]) by {
        forall i | 0 <= i < |steps[1..]|
          ensures Next(d, states[1..][i], steps[1..][i]) == Some(states[1..][i + 1])
        {
          assert Next(d, states[i + 1], steps[i + 1]) == Some(states[i + 1 + 1]);
        }
      }
      ConsumerCompletes(d, states[1..], steps[1..]);
    }
  }

  lemma WorkLeft(s: Sys)
    requires Inv(s)
    ensures Work(s) >= 0
  {
  }

  lemma FinishedAll(s: Sys)
    requires Inv(s) && s.pc == Finished
    ensures s.received == s.content.seqs
  {
  }

  /** Why callbacks must not run between the look under the lock and the clearing of the event: a wake-up
      set there is lost exactly when it is the last one and something is unread. */
  lemma SetInBetweenLosesWakeUp(d: Decoder, s: Sys)
    requires Inv(s) && s.pc == Checked && s.callbacks > 0
    ensures var asleep := Next(d, s.(callbacks := s.callbacks - 1, event := true), Sleep).value;
      Inv(asleep) <==> !Unread(s) || s.callbacks > 1 || s.owed
  {
  }

  // ----- The object -----

  /** The stream object: what each thread does while it holds the lock. */
  class AsyncDataStream {
    const decoder: Decoder
    var seqs: seq<string>
    var cacheTokens: seq<Token>
    var charsLen: nat
    var tokensLen: nat
    var stopSignal: bool
    var index: nat

    ghost function Abs(): Content
      reads this
    {
      Content(seqs, cacheTokens, charsLen, stopSignal)
    }

    constructor (decoder: Decoder)
      ensures Abs() == START.content && index == 0 && tokensLen == 0 && this.decoder == decoder
    {
      this.decoder := decoder;
      seqs, cacheTokens, charsLen, tokensLen, stopSignal, index := [], [], 0, 0, false, 0;
    }

    /** `add_data`; the result says whether the server is to be notified here. */
    method AddData(value: Token, notifyServer: bool) returns (notify: bool)
      modifies this
      ensures Abs() == AddToken(decoder, old(Abs()), value) && index == old(index) && tokensLen == old(tokensLen) + 1
      ensures notify <==> notifyServer && |seqs| > |old(seqs)|
    {
      tokensLen := tokensLen + 1;
      cacheTokens := cacheTokens + [value];
      var s := decoder.decode(cacheTokens);
      if REPLACEMENT in s {
        return false;
      }
      if !decoder.full {
        cacheTokens := [];
        seqs := seqs + [s];
        charsLen := charsLen + |s|;
      } else {
        seqs := seqs + [s[Min(charsLen, |s|)..]];
        charsLen := |s|;
      }
      notify := notifyServer;
    }

    method SendStopSignal()
      modifies this`stopSignal
      ensures Abs() == old(Abs()).(stop := true)
    {
      stopSignal := true;
    }

    /** The part of `__anext__` under the lock: the end of the stream, the next chunk, or nothing yet. */
    method TryNext() returns (end: bool, chunk: Option<string>)
      modifies this`index
      ensures Abs() == old(Abs())
      ensures forall s: Sys :: s.content == Abs() && s.index == old(index) ==>
        Polled(s) == (if end then s.(pc := Finished)
          else match chunk
            case Some(text) => s.(index := index, received := s.received + [text])
            case None => s.(pc := Checked))
      ensures end ==> index == old(index)
    {
      if stopSignal && index >= |seqs| {
        return true, None;
      }
      end := false;
      if index < |seqs| {
        chunk := Some(seqs[index]);
        index := index + 1;
      } else {
        chunk := None;
      }
    }
  }
}
