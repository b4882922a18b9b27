/**
 The tensor by which the main rank tells the other ranks about a batch: payload type, slot, and for up to
 maxTasks tasks a signed id, a length or flag, and an output flag. A zero ends the list of ids.
 */
module Wire {
  import opened Base
  import Ragged

  datatype Payload = Prefill | Decode | EmptyPrefill | EmptyDecode | TerminateBackend | EndTask | Heartbeat | NoneType

  datatype Kind = PrefillTask | DecodeTask | SpecialTask

  function Code(p: Payload): int {
    match p
    case Prefill => 1
    case Decode => 2
    case EmptyPrefill => 3
    case EmptyDecode => 4
    case TerminateBackend => 5
    case EndTask => 6
    case Heartbeat => 7
    case NoneType => 8
  }

  function PayloadOf(code: int): Option<Payload> {
    if code == 1 then Some(Prefill) else if code == 2 then Some(Decode) else if code == 3 then Some(EmptyPrefill)
    else if code == 4 then Some(EmptyDecode) else if code == 5 then Some(TerminateBackend)
      else if code == 6 then Some(EndTask)
    else if code == 7 then Some(Heartbeat) else if code == 8 then Some(NoneType) else None
  }

  predicate IsEmptyPayload(p: Payload) {
    p == TerminateBackend || p == Heartbeat || p == EmptyPrefill || p == EmptyDecode
  }

  const PAYLOADS: seq<Payload> :=
    [Prefill, Decode, EmptyPrefill, EmptyDecode, TerminateBackend, EndTask, Heartbeat, NoneType]

  /** The codes are 1 to 8 in the order of the declaration; no other number is one. */
  lemma CodesInOrder(code: int)
    ensures forall i :: 0 <= i < 8 ==> Code(PAYLOADS[i]) == i + 1
    ensures PayloadOf(code) == if 1 <= code <= 8 then Some(PAYLOADS[code - 1]) else None
  {
  }

  // ----- Hexadecimal -----

  function DigitValue(c: char): Option<nat> {
    if '0' <= c <= '9' then Some((c - '0') as int)
    else if 'a' <= c <= 'f' then Some(10 + (c - 'a') as int)
    else if 'A' <= c <= 'F' then Some(10 + (c - 'A') as int)
    else None
  }

  function Digit(d: nat): char
    requires d < 16
  {
    if d < 10 then '0' + d as char else 'a' + (d - 10) as char
  }

  /** The number a string of hexadecimal digits stands for. */
  function ParseHex(s: string): (r: Option<nat>)
    decreases |s|
  {
    if s == [] then None
    else
      match DigitValue(s[|s| - 1])
      case None => None
      case Some(d) =>
        if |s| == 1 then Some(d)
        else
          match ParseHex(s[..|s| - 1])
          case None => None
          case Some(v) => Some(16 * v + d)
  }

  /** `hex(n)[2:]`. */
  function PrintHex(n: nat): (s: string)
    ensures s != []
    decreases n
  {
    if n < 16 then [Digit(n)] else PrintHex(n / 16) + [Digit(n % 16)]
  }

  predicate LowerDigit(c: char) {
    '0' <= c <= '9' || 'a' <= c <= 'f'
  }

  /** Lower-case digits without leading zeros. */
  predicate Canonical(s: string) {
    s != [] && (forall i :: 0 <= i < |s| ==> LowerDigit(s[i])) && (|s| == 1 || s[0] != '0')
  }

  lemma DigitRoundTrip(d: nat)
    requires d < 16
    ensures DigitValue(Digit(d)) == Some(d) && LowerDigit(Digit(d)) && (d > 0 ==> Digit(d) != '0')
  {
  }

  lemma DigitCanonical(c: char)
    ensures DigitValue(c).Some? ==> DigitValue(c).value < 16
    ensures DigitValue(c).Some? ==> (Digit(DigitValue(c).value) == c <==> LowerDigit(c))
    ensures LowerDigit(c) ==> DigitValue(c).Some?
  {
  }

  /** Printing is canonical and parses back. */
  lemma {:induction false} PrintParse(n: nat)
    ensures ParseHex(PrintHex(n)) == Some(n) && Canonical(PrintHex(n))
    ensures n > 0 ==> PrintHex(n)[0] != '0'
    decreases n
  {
    if n < 16 {
      DigitRoundTrip(n);
    } else {
      var front, last := PrintHex(n / 16), Digit(n % 16);
      PrintParse(n / 16);
      DigitRoundTrip(n % 16);
      assert (front + [last])[..|front|] == front;
    }
  }

  /** Parsing and printing again gives the same string exactly when it is canonical. */
  lemma {:induction false} ParsePrint(s: string)
    requires ParseHex(s).Some?
    ensures PrintHex(ParseHex(s).value) == s <==> Canonical(s)
    decreases |s|
  {
    var n := ParseHex(s).value;
    if Canonical(s) {
      CanonicalPrints(s);
    } else {
      PrintParse(n);
    }
  }

  lemma {:induction false} CanonicalPrints(s: string)
    requires Canonical(s)
    ensures ParseHex(s).Some? && PrintHex(ParseHex(s).value) == s && (s[0] != '0' ==> ParseHex(s).value > 0)
    decreases |s|
  {
    var front, c := s[..|s| - 1], s[|s| - 1];
    DigitCanonical(c);
    assert s == front + [c];
    if |s| > 1 {
      CanonicalPrints(front);
      var v, d := ParseHex(front).value, DigitValue(c).value;
      DivUnique(v, d, 16);
    }
  }

  const LOWER := "0123456789abcdef"
  const UPPER := "0123456789ABCDEF"

  /** Digits count as usual, in either case. */
  lemma DigitValues(v: nat, c: char)
    requires v < 16
    ensures DigitValue(LOWER[v]) == Some(v) && DigitValue(UPPER[v]) == Some(v)
    ensures DigitValue(c).Some? ==> DigitValue(c).value < 16
    ensures DigitValue(c).Some? ==> c == LOWER[DigitValue(c).value] || c == UPPER[DigitValue(c).value]
  {
  }

  function Pow16(n: nat): nat {
    if n == 0 then 1 else 16 * Pow16(n - 1)
  }

  lemma ParseSnoc(front: string, c: char)
    requires front != []
    ensures ParseHex(front + [c]) ==
      if ParseHex(front).Some? && DigitValue(c).Some? then Some(16 * ParseHex(front).value + DigitValue(c).value)
        else None
  {
    assert (front + [c])[..|front|] == front;
  }

  /** Digits further left weigh more: appending n digits multiplies by 16 to the n. */
  lemma {:induction false} ParseConcat(a: string, b: string)
    requires a != [] && b != []
    ensures ParseHex(a + b).Some? <==> ParseHex(a).Some? && ParseHex(b).Some?
    ensures ParseHex(a + b).Some? ==>
      ParseHex(a + b).value == ParseHex(a).value * Pow16(|b|) + ParseHex(b).value
    decreases |b|
  {
    hide ParseHex, DigitValue;
    var front, c := b[..|b| - 1], b[|b| - 1];
    if |b| == 1 {
      assert b == [c];
      ParseOne(c);
      ParseSnoc(a, c);
      assert Pow16(1) == 16 * Pow16(0);
    } else {
      assert b == front + [c] && a + b == (a + front) + [c];
      ParseSnoc(a + front, c);
      ParseSnoc(front, c);
      ParseConcat(a, front);
      if ParseHex(a).Some? && ParseHex(front).Some? {
        MoveLeft(ParseHex(a).value, ParseHex(front).value, |front|);
      }
    }
  }

  lemma ParseOne(c: char)
    ensures ParseHex([c]) == DigitValue(c)
  {
  }

  lemma MoveLeft(x: nat, y: nat, n: nat)
    ensures 16 * (x * Pow16(n) + y) == x * Pow16(n + 1) + 16 * y
  {
    assert Pow16(n + 1) == 16 * Pow16(n);
    assert 16 * (x * Pow16(n)) == x * (16 * Pow16(n));
  }

  lemma {:induction false} DigitsParse(s: string)
    requires s != [] && forall i :: 0 <= i < |s| ==> LowerDigit(s[i])
    ensures ParseHex(s).Some?
    decreases |s|
  {
    DigitCanonical(s[|s| - 1]);
    if |s| > 1 {
      DigitsParse(s[..|s| - 1]);
    }
  }

  // ----- Integers as the source reads them -----

  predicate IsSpace(c: char) {
    c == ' ' || c == '\t' || c == '\n' || c == '\r' || c as int == 11 || c as int == 12
  }

  function StripLeft(s: string): string
    decreases |s|
  {
    if s != [] && IsSpace(s[0]) then StripLeft(s[1..]) else s
  }

  function StripRight(s: string): string
    decreases |s|
  {
    if s != [] && IsSpace(s[|s| - 1]) then StripRight(s[..|s| - 1]) else s
  }

  /** Underscores may stand between two digits, one at a time. */
  predicate UnderscoresOk(s: string) {
    && (s != [] ==> s[0] != '_' && s[|s| - 1] != '_')
    && forall i :: 0 <= i < |s| - 1 ==> s[i] != '_' || s[i + 1] != '_'
  }

  function WithoutUnderscores(s: string): string
    decreases |s|
  {
    if s == [] then [] else (if s[0] == '_' then [] else [s[0]]) + WithoutUnderscores(s[1..])
  }

  /** The digits behind an optional `0x`, which may be followed by an underscore. */
  function Digits(s: string): string {
    if |s| >= 2 && s[0] == '0' && (s[1] == 'x' || s[1] == 'X') then
      if |s| > 2 && s[2] == '_' then s[3..] else s[2..]
    else s
  }

  /** `int(s, 16)`: blanks around it, a sign, a `0x`, and single underscores between digits are allowed. */
  function ParseInt(s: string): Option<int> {
    var t := StripRight(StripLeft(s));
    var signed := t != [] && (t[0] == '+' || t[0] == '-');
    var digits := Digits(if signed then t[1..] else t);
    if !UnderscoresOk(digits) then None
    else
      match ParseHex(WithoutUnderscores(digits))
      case None => None
      case Some(v) =>
        var n: int := v;
        Some(if signed && t[0] == '-' then -n else n)
  }

  lemma {:induction false} NoneToRemove(s: string)
    requires forall i :: 0 <= i < |s| ==> LowerDigit(s[i])
    ensures WithoutUnderscores(s) == s
    decreases |s|
  {
    if s != [] {
      NoneToRemove(s[1..]);
    }
  }

  /** A canonical string is read digit by digit. */
  lemma CanonicalReads(s: string)
    requires Canonical(s)
    ensures ParseHex(s).Some? && ParseInt(s) == Some(ParseHex(s).value)
  {
    hide ParseHex, StripLeft, StripRight, WithoutUnderscores, Canonical;
    CanonicalPrints(s);
    NothingToStrip(s);
    NoneToRemove(s);
  }

  lemma NothingToStrip(s: string)
    requires Canonical(s)
    ensures s != [] && (forall i :: 0 <= i < |s| ==> LowerDigit(s[i]))
    ensures StripRight(StripLeft(s)) == s && Digits(s) == s
  {
    assert LowerDigit(s[0]) && LowerDigit(s[|s| - 1]) && (|s| > 1 ==> LowerDigit(s[1]));
  }


  predicate AllSpaces(s: string) {
    forall i :: 0 <= i < |s| ==> IsSpace(s[i])
  }

  lemma {:induction false} StripLeading(pad: string, s: string)
    requires AllSpaces(pad) && s != [] && !IsSpace(s[0])
    ensures StripLeft(pad + s) == s
    decreases |pad|
  {
    if pad == [] {
      assert pad + s == s;
    } else {
      assert (pad + s)[1..] == pad[1..] + s;
      StripLeading(pad[1..], s);
    }
  }

  lemma {:induction false} StripTrailing(s: string, pad: string)
    requires AllSpaces(pad) && s != [] && !IsSpace(s[|s| - 1])
    ensures StripRight(s + pad) == s
    decreases |pad|
  {
    if pad == [] {
      assert s + pad == s;
    } else {
      assert (s + pad)[..|s + pad| - 1] == s + pad[..|pad| - 1];
      StripTrailing(s, pad[..|pad| - 1]);
    }
  }

  /** The spellings that are read as a number: blanks on both sides, a sign, a mark, and the digits. */
  lemma SpellingReads(left: string, sign: string, mark: string, s: string, right: string)
    requires AllSpaces(left) && AllSpaces(right) && (sign == "" || sign == "+" || sign == "-")
    requires mark == "" || mark == "0x" || mark == "0X" || mark == "0x_" || mark == "0X_"
    requires s != [] && forall i :: 0 <= i < |s| ==> LowerDigit(s[i])
    ensures ParseHex(s).Some?
    ensures ParseInt(left + (sign + mark + s) + right) ==
      Some(if sign == "-" then 0 - ParseHex(s).value else ParseHex(s).value)
  {
    hide ParseHex, WithoutUnderscores, Digits, UnderscoresOk, AllSpaces, ParseInt;
    var t := sign + mark + s;
    DigitsParse(s);
    SignedRest(sign, mark, s);
    Stripped(left, t, right);
    MarkedDigits(mark, s);
    NoneToRemove(s);
    StrippedReads(left + t + right, t, sign != "", if sign != "" then t[1..] else t, s);
  }

  /** Reading once the blanks, the sign and the mark are known. */
  lemma StrippedReads(raw: string, t: string, signed: bool, rest: string, digits: string)
    requires StripRight(StripLeft(raw)) == t && t != [] && (signed <==> t[0] == '+' || t[0] == '-')
    requires rest == (if signed then t[1..] else t) && Digits(rest) == digits && UnderscoresOk(digits)
    requires WithoutUnderscores(digits) == digits && ParseHex(digits).Some?
    ensures ParseInt(raw) == Some(if t[0] == '-' then 0 - ParseHex(digits).value else ParseHex(digits).value)
  {
    hide ParseHex, StripLeft, StripRight, WithoutUnderscores, Digits, UnderscoresOk;
  }

  lemma {:induction false} UnderscoresDropped(a: string, b: string)
    ensures WithoutUnderscores(a + b) == WithoutUnderscores(a) + WithoutUnderscores(b)
    decreases |a|
  {
    if a == [] {
      assert a + b == b;
    } else {
      assert (a + b)[1..] == a[1..] + b;
      UnderscoresDropped(a[1..], b);
    }
  }

  /** One underscore between two digits is not read, two in a row are an error. */
  lemma UnderscoreReads(a: string, b: string)
    requires a != [] && b != []
    requires (forall i :: 0 <= i < |a| ==> LowerDigit(a[i])) && forall i :: 0 <= i < |b| ==> LowerDigit(b[i])
    ensures ParseInt(a + "_" + b) == ParseInt(a + b) && ParseInt(a + "__" + b) == None
  {
    hide ParseHex, StripLeft, StripRight, WithoutUnderscores, UnderscoresOk, LowerDigit;
    Spaced(a, b);
    PlainReads(a + b, a[0], b[|b| - 1]);
    PlainReads(a + "_" + b, a[0], b[|b| - 1]);
    PlainReads(a + "__" + b, a[0], b[|b| - 1]);
    OneDropped();
    NoneToRemove(a);
    NoneToRemove(b);
    UnderscoresDropped(a, b);
    UnderscoresDropped(a, "_" + b);
    UnderscoresDropped("_", b);
    assert a + "_" + b == a + ("_" + b) && [] + b == b;
  }

  lemma OneDropped()
    ensures WithoutUnderscores("_") == []
  {
    assert "_"[1..] == [];
  }

  lemma Spaced(a: string, b: string)
    requires a != [] && b != []
    requires (forall i :: 0 <= i < |a| ==> LowerDigit(a[i])) && forall i :: 0 <= i < |b| ==> LowerDigit(b[i])
    ensures UnderscoresOk(a + b) && UnderscoresOk(a + "_" + b) && !UnderscoresOk(a + "__" + b)
    ensures LowerDigit(a[0]) && LowerDigit(b[|b| - 1])
    ensures forall s :: s == a + b || s == a + "_" + b || s == a + "__" + b ==>
      |s| > 1 && s[0] == a[0] && s[|s| - 1] == b[|b| - 1] && (LowerDigit(s[1]) || s[1] == '_')
  {
    var s := a + "__" + b;
    assert s[|a|] == '_' && s[|a| + 1] == '_';
  }

  /** Digits and underscores without blanks, sign or mark. */
  lemma PlainReads(s: string, first: char, last: char)
    requires |s| > 1 && s[0] == first && s[|s| - 1] == last && LowerDigit(first) && LowerDigit(last)
    requires LowerDigit(s[1]) || s[1] == '_'
    ensures ParseInt(s) ==
      if !UnderscoresOk(s) || ParseHex(WithoutUnderscores(s)).None? then None
      else Some(ParseHex(WithoutUnderscores(s)).value)
  {
    hide ParseHex, WithoutUnderscores, UnderscoresOk;
    assert StripLeft(s) == s && StripRight(s) == s;
  }

  lemma Stripped(left: string, t: string, right: string)
    requires AllSpaces(left) && AllSpaces(right) && t != [] && !IsSpace(t[0]) && !IsSpace(t[|t| - 1])
    ensures StripRight(StripLeft(left + t + right)) == t
  {
    hide StripLeft, StripRight, IsSpace;
    assert left + t + right == left + (t + right);
    StripLeading(left, t + right);
    StripTrailing(t, right);
  }

  lemma SignedRest(sign: string, mark: string, s: string)
    requires (sign == "" || sign == "+" || sign == "-") && s != [] && LowerDigit(s[0])
    requires mark == "" || mark == "0x" || mark == "0X" || mark == "0x_" || mark == "0X_"
    ensures var t := sign + mark + s;
      && t != [] && !IsSpace(t[0]) && t[|t| - 1] == s[|s| - 1] && ((t[0] == '+' || t[0] == '-') <==> sign != "")
      && (t[0] == '-' <==> sign == "-") && (if sign != "" then t[1..] else t) == mark + s
  {
    var t := sign + mark + s;
    if sign == "" {
      assert t == mark + s;
      assert mark == "" ==> t == s;
    } else {
      assert t[1..] == mark + s;
    }
  }

  lemma MarkedDigits(mark: string, s: string)
    requires mark == "" || mark == "0x" || mark == "0X" || mark == "0x_" || mark == "0X_"
    requires s != [] && forall i :: 0 <= i < |s| ==> LowerDigit(s[i])
    ensures Digits(mark + s) == s && UnderscoresOk(s)
  {
    var t := mark + s;
    if mark == "" {
      assert t == s;
      assert |s| > 1 ==> LowerDigit(s[1]);
    } else if |mark| == 2 {
      assert t[2] == s[0] && t[2..] == s;
    } else {
      assert t[3..] == s;
    }
  }

  // ----- Ids -----

  function IndexOfUnderscore(s: string): (i: nat)
    ensures i <= |s| && (i < |s| ==> s[i] == '_')
    decreases |s|
  {
    if s == [] || s[0] == '_' then 0 else 1 + IndexOfUnderscore(s[1..])
  }

  /** The part of an id behind its first underscore, or all of it. */
  function HexPart(id: string): string {
    var i := IndexOfUnderscore(id);
    if i < |id| then id[i + 1..] else id
  }

  /** The prefix of an id, up to its first underscore, is not part of its number. */
  lemma {:induction false} PrefixDropped(prefix: string, rest: string)
    requires forall i :: 0 <= i < |prefix| ==> prefix[i] != '_'
    ensures IndexOfUnderscore(prefix + "_" + rest) == |prefix| && HexPart(prefix + "_" + rest) == rest
    decreases |prefix|
  {
    var id := prefix + "_" + rest;
    if prefix == [] {
      assert id[0] == '_' && id[1..] == rest;
    } else {
      assert id[1..] == prefix[1..] + "_" + rest;
      PrefixDropped(prefix[1..], rest);
      assert id[|prefix| + 1..] == rest;
    }
  }

  /** `req_encode`: the number for prefill, its negative for everything else. */
  function ReqEncode(k: Kind, id: string): Option<int> {
    match ParseInt(HexPart(id))
    case None => None
    case Some(n) => Some(if k == PrefillTask then n else -n)
  }

  /** `req_decode`. */
  function ReqDecode(n: int): (string, Kind) {
    if n > 0 then (PrintHex(n), PrefillTask) else (PrintHex(-n), DecodeTask)
  }

  const INT64_MAX: int := 0x7FFF_FFFF_FFFF_FFFF

  predicate InInt64(n: int) {
    -INT64_MAX - 1 <= n <= INT64_MAX
  }

  /** An id whose number fits and is positive. */
  ghost predicate GoodId(id: string) {
    var v := ParseInt(HexPart(id));
    v.Some? && 0 < v.value <= INT64_MAX
  }

  /** On the wire such an id is positive in a prefill batch and negative in every other. */
  lemma SignTellsKind(k: Kind, id: string)
    requires GoodId(id)
    ensures ReqEncode(k, id).Some? && Abs(ReqEncode(k, id).value) == ParseInt(HexPart(id)).value
    ensures if k == PrefillTask then ReqEncode(k, id).value > 0 else ReqEncode(k, id).value < 0
  {
    hide ParseInt, HexPart;
  }

  function Abs(n: int): nat {
    if n < 0 then -n else n
  }

  /** Encoding and decoding any id whose number is not zero: the number comes back without its sign, the
      kind survives exactly when the number is positive, and the text exactly when the part behind the
      prefix is canonical. */
  lemma IdRoundTrip(k: Kind, id: string)
    requires ParseInt(HexPart(id)).Some? && ParseInt(HexPart(id)).value != 0
    ensures ReqEncode(k, id).Some? && ReqEncode(k, id).value != 0
    ensures var (v, (text, kind)) := (ParseInt(HexPart(id)).value, ReqDecode(ReqEncode(k, id).value));
      && ParseInt(text) == Some(Abs(v))
      && ((kind == PrefillTask <==> k == PrefillTask) <==> v > 0)
      && (text == HexPart(id) <==> Canonical(HexPart(id)))
  {
    hide ParseInt;
    var v := ParseInt(HexPart(id)).value;
    PrintParse(Abs(v));
    CanonicalReads(PrintHex(Abs(v)));
    if Canonical(HexPart(id)) {
      CanonicalReads(HexPart(id));
      CanonicalPrints(HexPart(id));
    }
  }

  lemma {:induction false} NoUnderscore(s: string)
    requires forall i :: 0 <= i < |s| ==> s[i] != '_'
    ensures IndexOfUnderscore(s) == |s| && HexPart(s) == s
    decreases |s|
  {
    if s != [] {
      NoUnderscore(s[1..]);
    }
  }

  // ----- Serialization -----

  /** A batch of tasks. The token lists are represented by their lengths. */
  datatype Packed = Packed(payload: Payload, kind: Kind, ids: seq<string>, lens: seq<nat>, hasOutputs: seq<bool>,
      hasModelRun: seq<bool>)

  function Flags(bs: seq<bool>): (r: seq<int>)
    ensures |r| == |bs| && forall i :: 0 <= i < |bs| ==> r[i] == if bs[i] then 1 else 0
  {
    seq(|bs|, i requires 0 <= i < |bs| => if bs[i] then 1 else 0)
  }

  /** All ids encoded; None if one is not a number or does not fit. */
  function EncodeAll(k: Kind, ids: seq<string>): (r: Option<seq<int>>)
    ensures r.Some? ==> |r.value| == |ids|
    decreases |ids|
  {
    if ids == [] then Some([])
    else
      match ReqEncode(k, ids[0])
      case None => None
      case Some(n) =>
        if !InInt64(n) then None
        else
          match EncodeAll(k, ids[1..])
          case None => None
          case Some(rest) => Some([n] + rest)
  }

  /** Assignment to a stretch of the tensor; None where it does not fit. */
  function WriteAt(t: seq<int>, off: nat, vals: seq<int>): (r: Option<seq<int>>)
    ensures r.Some? ==> |r.value| == |t|
  {
    if off + |vals| <= |t| then Some(t[..off] + vals + t[off + |vals|..]) else None
  }

  lemma WrittenAt(t: seq<int>, off: nat, vals: seq<int>)
    ensures WriteAt(t, off, vals).Some? <==> off + |vals| <= |t|
    ensures WriteAt(t, off, vals).Some? ==>
      forall k :: 0 <= k < |t| ==>
        WriteAt(t, off, vals).value[k] == if off <= k < off + |vals| then vals[k - off] else t[k]
  {
  }

  function Blank(maxTasks: nat, p: Payload): (t: seq<int>)
    ensures |t| == 2 + 3 * maxTasks && t[0] == Code(p) && forall k :: 0 < k < |t| ==> t[k] == 0
  {
    seq(2 + 3 * maxTasks, k => if k == 0 then Code(p) else 0)
  }

  /** The lengths and flags behind the ids. */
  function WriteDetails(t: seq<int>, p: Packed, maxTasks: nat): (r: Option<seq<int>>)
    ensures r.Some? ==> |r.value| == |t|
  {
    match p.kind
    case PrefillTask =>
      if |p.lens| != |p.ids| || |p.hasOutputs| != |p.ids| then None
      else
        (match WriteAt(t, 2 + maxTasks, p.lens)
         case None => None
         case Some(u) => WriteAt(u, 2 + 2 * maxTasks, Flags(p.hasOutputs)))
    case DecodeTask =>
      if |p.hasModelRun| != |p.ids| then None else WriteAt(t, 2 + maxTasks, Flags(p.hasModelRun))
    case SpecialTask => Some(t)
  }

  /** `serialize`. */
  function Serialized(p: Packed, maxTasks: nat, slot: Option<nat>): (r: Option<seq<int>>)
    ensures r.Some? ==> |r.value| == 2 + 3 * maxTasks
  {
    var blank := Blank(maxTasks, p.payload);
    if IsEmptyPayload(p.payload) then Some(blank)
    else
      match EncodeAll(p.kind, p.ids)
      case None => None
      case Some(codes) =>
        (match WriteAt(blank, 2, codes)
         case None => None
         case Some(t) =>
           (match WriteDetails(t, p, maxTasks)
            case None => None
            case Some(u) => Some(if slot.Some? then u[1 := slot.value] else u)))
  }

  /** The assignment in place. */
  method Assign(t: array<int>, off: nat, vals: seq<int>) returns (ok: bool)
    modifies t
    ensures ok <==> WriteAt(old(t[..]), off, vals).Some?
    ensures t[..] == if ok then WriteAt(old(t[..]), off, vals).value else old(t[..])
  {
    hide WriteAt;
    WrittenAt(t[..], off, vals);
    if off + |vals| > t.Length {
      return false;
    }
    for i := 0 to |vals|
      invariant forall k :: 0 <= k < t.Length ==> t[k] == if off <= k < off + i then vals[k - off] else old(t[k])
    {
      t[off + i] := vals[i];
    }
    ok := true;
  }

  function Prepend(done: seq<int>, r: Option<seq<int>>): Option<seq<int>> {
    match r
    case None => None
    case Some(rest) => Some(done + rest)
  }

  lemma PrependNone(r: Option<seq<int>>)
    ensures Prepend([], r) == r
  {
    assert r.Some? ==> [] + r.value == r.value;
  }

  lemma PrependOne(done: seq<int>, n: int, r: Option<seq<int>>)
    ensures Prepend(done + [n], r) == Prepend(done, Prepend([n], r))
  {
    assert r.Some? ==> done + [n] + r.value == done + ([n] + r.value);
  }

  method EncodeIds(k: Kind, ids: seq<string>) returns (codes: Option<seq<int>>)
    ensures codes == EncodeAll(k, ids)
  {
    hide ReqEncode;
    var done: seq<int> := [];
    assert ids[0..] == ids;
    PrependNone(EncodeAll(k, ids));
    for i := 0 to |ids|
      invariant EncodeAll(k, ids) == Prepend(done, EncodeAll(k, ids[i..]))
    {
      assert ids[i..][0] == ids[i] && ids[i..][1..] == ids[i + 1..];
      var n := ReqEncode(k, ids[i]);
      if n == None || !InInt64(n.value) {
        return None;
      }
      PrependOne(done, n.value, EncodeAll(k, ids[i + 1..]));
      done := done + [n.value];
    }
    assert ids[|ids|..] == [] && done + [] == done;
    codes := Some(done);
  }

  /** `serialize`: fills a zeroed tensor stretch by stretch. */
  method Serialize(p: Packed, maxTasks: nat, slot: Option<nat>) returns (ok: bool, ret: array<int>)
    ensures ok <==> Serialized(p, maxTasks, slot).Some?
    ensures ok ==> ret[..] == Serialized(p, maxTasks, slot).value
  {
    ret := new int[2 + 3 * maxTasks](_ => 0);
    ret[0] := Code(p.payload);
    assert ret[..] == Blank(maxTasks, p.payload);
    ok := true;
    if IsEmptyPayload(p.payload) {
      return;
    }
    var codes := EncodeIds(p.kind, p.ids);
    if codes == None {
      ok := false;
      return;
    }
    ok := Assign(ret, 2, codes.value);
    if !ok {
      return;
    }
    ok := AssignDetails(ret, p, maxTasks);
    if ok && slot.Some? {
      ret[1] := slot.value;
    }
  }

  method AssignDetails(t: array<int>, p: Packed, maxTasks: nat) returns (ok: bool)
    requires t.Length == 2 + 3 * maxTasks
    modifies t
    ensures ok <==> WriteDetails(old(t[..]), p, maxTasks).Some?
    ensures ok ==> t[..] == WriteDetails(old(t[..]), p, maxTasks).value
  {
    hide WriteAt, Flags;
    if p.kind == PrefillTask {
      if |p.lens| != |p.ids| || |p.hasOutputs| != |p.ids| {
        return false;
      }
      ok := Assign(t, 2 + maxTasks, p.lens);
      if ok {
        ok := Assign(t, 2 + 2 * maxTasks, Flags(p.hasOutputs));
      }
    } else if p.kind == DecodeTask {
      if |p.hasModelRun| != |p.ids| {
        return false;
      }
      ok := Assign(t, 2 + maxTasks, Flags(p.hasModelRun));
    } else {
      ok := true;
    }
  }

  // ----- Deserialization -----

  datatype Entries = Entries(ids: seq<string>, lens: seq<int>, hasOutputs: seq<bool>, hasModelRun: seq<bool>)

  /** The loop over the ids, from entry `it` on: it stops at the first zero. */
  function Unpack(t: seq<int>, maxTasks: nat, it: nat): (e: Entries)
    requires |t| == 2 + 3 * maxTasks && it <= maxTasks
    decreases maxTasks - it
  {
    if it == maxTasks || t[2 + it] == 0 then Entries([], [], [], [])
    else
      var (text, kind) := ReqDecode(t[2 + it]);
      var rest := Unpack(t, maxTasks, it + 1);
      if kind == PrefillTask then
        Entries([text] + rest.ids, [t[2 + maxTasks + it]] + rest.lens,
            [t[2 + 2 * maxTasks + it] != 0] + rest.hasOutputs, rest.hasModelRun)
      else
        Entries([text] + rest.ids, rest.lens, rest.hasOutputs, [t[2 + maxTasks + it] != 0] + rest.hasModelRun)
  }

  /** What a rank knows about a batch it has received. */
  datatype Received = Received(payload: Payload, numTasks: nat, entries: Entries, numTokens: int, slot: Option<int>)

  function SumInts(xs: seq<int>): int {
    if xs == [] then 0 else xs[0] + SumInts(xs[1..])
  }

  /** The token lists a receiver makes up from the lengths. */
  function TokenLens(payload: Payload, e: Entries): seq<int> {
    if payload == Prefill && |e.ids| > 0 then seq(|e.lens|, i requires 0 <= i < |e.lens| => Max(0, e.lens[i])) else []
  }

  /** `deserialize`; None for a payload code that does not exist. */
  function Deserialized(t: seq<int>, maxTasks: nat, handle: bool): Option<Received>
    requires |t| == 2 + 3 * maxTasks
  {
    match PayloadOf(t[0])
    case None => None
    case Some(payload) =>
      if IsEmptyPayload(payload) then Some(Received(payload, 0, Entries([], [], [], []), 0, None))
      else
        var e := Unpack(t, maxTasks, 0);
        Some(Received(payload, |e.ids|, e, if payload == Prefill then SumInts(TokenLens(payload, e)) else |e.ids|,
          if handle then Some(t[1]) else None))
  }

  function Join(a: Entries, b: Entries): Entries {
    Entries(a.ids + b.ids, a.lens + b.lens, a.hasOutputs + b.hasOutputs, a.hasModelRun + b.hasModelRun)
  }

  lemma JoinNext(t: seq<int>, maxTasks: nat, it: nat, done: Entries)
    requires |t| == 2 + 3 * maxTasks && it < maxTasks && t[2 + it] != 0
    ensures var (text, kind) := ReqDecode(t[2 + it]);
      var one := if kind == PrefillTask then
          Entries([text], [t[2 + maxTasks + it]], [t[2 + 2 * maxTasks + it] != 0], [])
        else Entries([text], [], [], [t[2 + maxTasks + it] != 0]);
      Join(done, Unpack(t, maxTasks, it)) == Join(Join(done, one), Unpack(t, maxTasks, it + 1))
  {
  }

  lemma JoinNothing(e: Entries)
    ensures Join(e, Entries([], [], [], [])) == e && Join(Entries([], [], [], []), e) == e
  {
  }

  /** `deserialize`: reads the tensor entry by entry. */
  method Deserialize(t: array<int>, maxTasks: nat, handle: bool) returns (r: Option<Received>)
    requires t.Length == 2 + 3 * maxTasks
    ensures r == Deserialized(t[..], maxTasks, handle)
  {
    hide Unpack, ReqDecode, Join;
    var payload := PayloadOf(t[0]);
    if payload == None {
      return None;
    }
    if IsEmptyPayload(payload.value) {
      return Some(Received(payload.value, 0, Entries([], [], [], []), 0, None));
    }
    var ids: seq<string>, lens: seq<int>, hasOutputs: seq<bool>, hasModelRun: seq<bool> := [], [], [], [];
    var it := 0;
    JoinNothing(Unpack(t[..], maxTasks, 0));
    while it < maxTasks && t[2 + it] != 0
      invariant it <= maxTasks
      invariant Join(Entries(ids, lens, hasOutputs, hasModelRun), Unpack(t[..], maxTasks, it)) ==
        Unpack(t[..], maxTasks, 0)
    {
      var (text, kind) := ReqDecode(t[2 + it]);
      JoinNext(t[..], maxTasks, it, Entries(ids, lens, hasOutputs, hasModelRun));
      JoinOne(Entries(ids, lens, hasOutputs, hasModelRun), text, t[2 + maxTasks + it], t[2 + 2 * maxTasks + it] != 0,
          t[2 + maxTasks + it] != 0);
      ids := ids + [text];
      if kind == PrefillTask {
        lens, hasOutputs := lens + [t[2 + maxTasks + it]], hasOutputs + [t[2 + 2 * maxTasks + it] != 0];
      } else {
        hasModelRun := hasModelRun + [t[2 + maxTasks + it] != 0];
      }
      it := it + 1;
    }
    UnpackEnd(t[..], maxTasks, it);
    var e := Entries(ids, lens, hasOutputs, hasModelRun);
    JoinNothing(e);
    var numTokens := if payload.value == Prefill then SumInts(TokenLens(payload.value, e)) else |ids|;
    r := Some(Received(payload.value, |ids|, e, numTokens, if handle then Some(t[1]) else None));
  }

  lemma JoinOne(e: Entries, text: string, len: int, output: bool, run: bool)
    ensures Join(e, Entries([text], [len], [output], [])) ==
      Entries(e.ids + [text], e.lens + [len], e.hasOutputs + [output], e.hasModelRun)
    ensures Join(e, Entries([text], [], [], [run])) ==
      Entries(e.ids + [text], e.lens, e.hasOutputs, e.hasModelRun + [run])
  {
  }

  lemma UnpackEnd(t: seq<int>, maxTasks: nat, it: nat)
    requires |t| == 2 + 3 * maxTasks && it <= maxTasks && (it == maxTasks || t[2 + it] == 0)
    ensures Unpack(t, maxTasks, it) == Entries([], [], [], [])
  {
  }

  // ----- Round trip -----

  /** The number of ids before the first one whose value is zero. */
  function BeforeZero(codes: seq<int>): (z: nat)
    ensures z <= |codes| && (forall i :: 0 <= i < z ==> codes[i] != 0) && (z < |codes| ==> codes[z] == 0)
    decreases |codes|
  {
    if codes == [] || codes[0] == 0 then 0 else 1 + BeforeZero(codes[1..])
  }

  /** How a receiver spells the ids. */
  function Spelled(codes: seq<int>): (r: seq<string>)
    ensures |r| == |codes| && forall i :: 0 <= i < |r| ==> r[i] == ReqDecode(codes[i]).0
  {
    seq(|codes|, i requires 0 <= i < |codes| => ReqDecode(codes[i]).0)
  }

  /** The layout of a serialized batch of at most maxTasks tasks: the first two cells and the ids. */
  ghost predicate Laid(p: Packed, maxTasks: nat, codes: seq<int>, t: seq<int>) {
    && |t| == 2 + 3 * maxTasks && |codes| == |p.ids| <= maxTasks && t[0] == Code(p.payload)
    && (forall i :: 0 <= i < maxTasks ==> t[2 + i] == if i < |codes| then codes[i] else 0)
    && DetailsMatch(p) && DetailsLaid(p, maxTasks, t)
  }

  /** The cells behind the ids, by the kind of the batch. */
  ghost predicate DetailsLaid(p: Packed, maxTasks: nat, t: seq<int>)
    requires |t| == 2 + 3 * maxTasks && |p.ids| <= maxTasks && DetailsMatch(p)
  {
    match p.kind
    case PrefillTask => forall i :: 0 <= i < |p.ids| ==>
      t[2 + maxTasks + i] == p.lens[i] && t[2 + 2 * maxTasks + i] == if p.hasOutputs[i] then 1 else 0
    case DecodeTask => forall i :: 0 <= i < |p.ids| ==> t[2 + maxTasks + i] == if p.hasModelRun[i] then 1 else 0
    case SpecialTask => forall i :: 2 + maxTasks <= i < 2 + maxTasks + |p.ids| ==> t[i] == 0
  }

  /** The signs say the kind of the batch: no id has a minus sign of its own. */
  ghost predicate Signed(k: Kind, codes: seq<int>) {
    forall i :: 0 <= i < |codes| ==> if k == PrefillTask then codes[i] >= 0 else codes[i] <= 0
  }

  /** Every task has its length and its flag. */
  predicate DetailsMatch(p: Packed) {
    && (p.kind == PrefillTask ==> |p.lens| == |p.hasOutputs| == |p.ids|)
    && (p.kind == DecodeTask ==> |p.hasModelRun| == |p.ids|)
  }

  lemma {:induction false} EncodedAt(k: Kind, ids: seq<string>, i: nat)
    requires EncodeAll(k, ids).Some? && i < |ids|
    ensures ReqEncode(k, ids[i]) == Some(EncodeAll(k, ids).value[i]) && InInt64(EncodeAll(k, ids).value[i])
    decreases |ids|
  {
    hide ReqEncode;
    if i > 0 {
      EncodedAt(k, ids[1..], i - 1);
    }
  }

  /** Ids are encoded exactly when each of them is a number that fits. */
  lemma {:induction false} EncodesExactly(k: Kind, ids: seq<string>)
    ensures EncodeAll(k, ids).Some? <==>
      forall i :: 0 <= i < |ids| ==> ReqEncode(k, ids[i]).Some? && InInt64(ReqEncode(k, ids[i]).value)
    decreases |ids|
  {
    hide ReqEncode;
    if ids != [] {
      EncodesExactly(k, ids[1..]);
      assert forall i :: 0 <= i < |ids| - 1 ==> ids[1..][i] == ids[i + 1];
      assert forall i :: 0 < i < |ids| ==> ids[i] == ids[1..][i - 1];
    }
  }

  /** A batch of at most maxTasks tasks can be serialized exactly when its ids can and its details match. */
  lemma SerializesExactly(p: Packed, maxTasks: nat, slot: Option<nat>)
    requires |p.ids| <= maxTasks && !IsEmptyPayload(p.payload)
    ensures Serialized(p, maxTasks, slot).Some? <==>
      (DetailsMatch(p) && forall i :: 0 <= i < |p.ids| ==>
        ReqEncode(p.kind, p.ids[i]).Some? && InInt64(ReqEncode(p.kind, p.ids[i]).value))
  {
    hide ReqEncode, EncodeAll;
    EncodesExactly(p.kind, p.ids);
  }

  /** What every cell of the serialized tensor holds. */
  lemma SerializedLaid(p: Packed, maxTasks: nat, slot: Option<nat>)
    requires |p.ids| <= maxTasks && !IsEmptyPayload(p.payload) && Serialized(p, maxTasks, slot).Some?
    ensures EncodeAll(p.kind, p.ids).Some?
    ensures Laid(p, maxTasks, EncodeAll(p.kind, p.ids).value, Serialized(p, maxTasks, slot).value)
    ensures slot.Some? ==> Serialized(p, maxTasks, slot).value[1] == slot.value
  {
    hide WriteAt, EncodeAll, DetailsLaid, WriteDetails;
    var codes := EncodeAll(p.kind, p.ids).value;
    var blank := Blank(maxTasks, p.payload);
    WrittenAt(blank, 2, codes);
    DetailsWritten(WriteAt(blank, 2, codes).value, p, maxTasks, slot);
  }

  /** Writing the details touches neither the ids nor the first two cells. */
  lemma DetailsWritten(t: seq<int>, p: Packed, maxTasks: nat, slot: Option<nat>)
    requires |t| == 2 + 3 * maxTasks && |p.ids| <= maxTasks && WriteDetails(t, p, maxTasks).Some?
    requires forall i :: 2 + maxTasks <= i < |t| ==> t[i] == 0
    ensures DetailsMatch(p)
    ensures var u := WriteDetails(t, p, maxTasks).value;
      && (forall i :: 0 <= i < 2 + maxTasks ==> u[i] == t[i])
      && DetailsLaid(p, maxTasks, if slot.Some? then u[1 := slot.value] else u)
  {
    match p.kind
    case PrefillTask => PrefillWritten(t, p, maxTasks, slot);
    case DecodeTask => DecodeWritten(t, p, maxTasks, slot);
    case SpecialTask =>
  }

  lemma PrefillWritten(t: seq<int>, p: Packed, maxTasks: nat, slot: Option<nat>)
    requires |t| == 2 + 3 * maxTasks && |p.ids| <= maxTasks && WriteDetails(t, p, maxTasks).Some?
    requires p.kind == PrefillTask
    ensures DetailsMatch(p)
    ensures var u := WriteDetails(t, p, maxTasks).value;
      && (forall i :: 0 <= i < 2 + maxTasks ==> u[i] == t[i])
      && DetailsLaid(p, maxTasks, if slot.Some? then u[1 := slot.value] else u)
  {
    hide WriteAt;
    WrittenAt(t, 2 + maxTasks, p.lens);
    WrittenAt(WriteAt(t, 2 + maxTasks, p.lens).value, 2 + 2 * maxTasks, Flags(p.hasOutputs));
  }

  lemma DecodeWritten(t: seq<int>, p: Packed, maxTasks: nat, slot: Option<nat>)
    requires |t| == 2 + 3 * maxTasks && |p.ids| <= maxTasks && WriteDetails(t, p, maxTasks).Some?
    requires p.kind == DecodeTask
    ensures DetailsMatch(p)
    ensures var u := WriteDetails(t, p, maxTasks).value;
      && (forall i :: 0 <= i < 2 + maxTasks ==> u[i] == t[i])
      && DetailsLaid(p, maxTasks, if slot.Some? then u[1 := slot.value] else u)
  {
    hide WriteAt;
    WrittenAt(t, 2 + maxTasks, Flags(p.hasModelRun));
  }

  /** What the receiver reads from entry `it` on. */
  ghost predicate Unpacked(p: Packed, codes: seq<int>, it: nat, z: nat, e: Entries)
    requires it <= z <= |codes| == |p.ids| && DetailsMatch(p)
  {
    && e.ids == Spelled(codes)[it..z]
    && (Signed(p.kind, codes) && p.kind == PrefillTask ==>
          e.lens == p.lens[it..z] && e.hasOutputs == p.hasOutputs[it..z] && e.hasModelRun == [])
    && (Signed(p.kind, codes) && p.kind == DecodeTask ==>
          e.lens == [] && e.hasOutputs == [] && e.hasModelRun == p.hasModelRun[it..z])
  }

  lemma {:induction false} UnpackLaid(p: Packed, maxTasks: nat, codes: seq<int>, t: seq<int>, it: nat)
    requires Laid(p, maxTasks, codes, t) && it <= BeforeZero(codes)
    ensures |codes| == |p.ids| && DetailsMatch(p) && |t| == 2 + 3 * maxTasks
    ensures Unpacked(p, codes, it, BeforeZero(codes), Unpack(t, maxTasks, it))
    decreases |codes| - it
  {
    hide ReqDecode, Unpack;
    var z := BeforeZero(codes);
    if it < z {
      UnpackLaid(p, maxTasks, codes, t, it + 1);
      UnpackStep(t, maxTasks, it);
      SliceHead(Spelled(codes), it, z);
      if p.kind == PrefillTask {
        SliceHead(p.lens, it, z);
        SliceHead(p.hasOutputs, it, z);
      } else if p.kind == DecodeTask {
        SliceHead(p.hasModelRun, it, z);
      }
    } else {
      if it < maxTasks {
        assert t[2 + it] == if it < |codes| then codes[it] else 0;
      }
      UnpackEnd(t, maxTasks, it);
    }
  }

  lemma SliceHead<T>(s: seq<T>, a: nat, b: nat)
    requires a < b <= |s|
    ensures s[a..b] == [s[a]] + s[a + 1..b]
  {
  }

  lemma UnpackStep(t: seq<int>, maxTasks: nat, it: nat)
    requires |t| == 2 + 3 * maxTasks && it < maxTasks && t[2 + it] != 0
    ensures var (text, rest) := (ReqDecode(t[2 + it]).0, Unpack(t, maxTasks, it + 1));
      Unpack(t, maxTasks, it) == if t[2 + it] > 0 then
        Entries([text] + rest.ids, [t[2 + maxTasks + it]] + rest.lens,
            [t[2 + 2 * maxTasks + it] != 0] + rest.hasOutputs, rest.hasModelRun)
      else
        Entries([text] + rest.ids, rest.lens, rest.hasOutputs, [t[2 + maxTasks + it] != 0] + rest.hasModelRun)
  {
  }

  /** What arrives: payload type and slot, and of the tasks exactly those in front of the first id with
      value zero, in order, and unless an id has a minus sign, with their lengths and output flags or their
      model-run flags. */
  lemma WireRoundTrip(p: Packed, maxTasks: nat, slot: Option<nat>)
    requires |p.ids| <= maxTasks && !IsEmptyPayload(p.payload) && Serialized(p, maxTasks, slot).Some?
    ensures EncodeAll(p.kind, p.ids).Some? && DetailsMatch(p)
    ensures var codes := EncodeAll(p.kind, p.ids).value;
      var (z, r) := (BeforeZero(codes), Deserialized(Serialized(p, maxTasks, slot).value, maxTasks, slot.Some?));
      && r.Some? && r.value.payload == p.payload && r.value.slot == slot && r.value.numTasks == z
      && Unpacked(p, codes, 0, z, r.value.entries)
  {
    hide Serialized, Unpack, Laid, EncodeAll, BeforeZero, Spelled, Signed;
    SerializedLaid(p, maxTasks, slot);
    var codes, t := EncodeAll(p.kind, p.ids).value, Serialized(p, maxTasks, slot).value;
    UnpackLaid(p, maxTasks, codes, t, 0);
    PayloadLaid(p, maxTasks, codes, t);
  }

  /** The receiver counts the tokens that were sent: the lengths of the tasks that arrive in a prefill batch, and
      one for each of them otherwise. */
  lemma NumTokens(p: Packed, maxTasks: nat, slot: Option<nat>)
    requires |p.ids| <= maxTasks && !IsEmptyPayload(p.payload) && Serialized(p, maxTasks, slot).Some?
    requires p.payload == Prefill ==> p.kind == PrefillTask
    ensures EncodeAll(p.kind, p.ids).Some? && DetailsMatch(p)
    ensures var codes := EncodeAll(p.kind, p.ids).value;
      var r := Deserialized(Serialized(p, maxTasks, slot).value, maxTasks, slot.Some?);
      && r.Some?
      && (p.payload == Prefill && Signed(p.kind, codes) ==>
           r.value.numTokens == Ragged.Sum(p.lens[..BeforeZero(codes)]))
      && (p.payload != Prefill ==> r.value.numTokens == BeforeZero(codes))
  {
    hide Serialized, Unpack, Laid, EncodeAll, BeforeZero, Spelled, Signed, SumInts;
    WireRoundTrip(p, maxTasks, slot);
    var codes := EncodeAll(p.kind, p.ids).value;
    var e := Unpack(Serialized(p, maxTasks, slot).value, maxTasks, 0);
    if p.payload == Prefill && Signed(p.kind, codes) {
      TokensSum(e, p.lens[..BeforeZero(codes)]);
    }
  }

  lemma TokensSum(e: Entries, lens: seq<nat>)
    requires e.lens == lens && |e.ids| == |lens|
    ensures SumInts(TokenLens(Prefill, e)) == Ragged.Sum(lens)
  {
    hide SumInts, Ragged.Sum;
    SumsAgree(lens);
    if lens == [] {
      SumNone();
    } else {
      assert TokenLens(Prefill, e) == e.lens;
    }
  }

  lemma SumNone()
    ensures SumInts([]) == 0 == Ragged.Sum([])
  {
  }

  lemma {:induction false} SumsAgree(lens: seq<nat>)
    ensures SumInts(lens) == Ragged.Sum(lens)
    decreases |lens|
  {
    if lens != [] {
      SumsAgree(lens[1..]);
    }
  }

  /** The payloads without tasks always serialize, to their code and zeros, and arrive without tasks. */
  lemma EmptyArrives(p: Packed, maxTasks: nat, slot: Option<nat>, handle: bool)
    requires p.payload == TerminateBackend || p.payload == Heartbeat || p.payload == EmptyPrefill
      || p.payload == EmptyDecode
    ensures Serialized(p, maxTasks, slot).Some?
    ensures var t := Serialized(p, maxTasks, slot).value;
      && (forall i :: 1 <= i < |t| ==> t[i] == 0)
      && Deserialized(t, maxTasks, handle) == Some(Received(p.payload, 0, Entries([], [], [], []), 0, None))
  {
  }

  lemma PayloadLaid(p: Packed, maxTasks: nat, codes: seq<int>, t: seq<int>)
    requires Laid(p, maxTasks, codes, t)
    ensures |t| == 2 + 3 * maxTasks && PayloadOf(t[0]) == Some(p.payload)
  {
    hide DetailsLaid;
  }

  /** With good ids nothing is lost: every id arrives with its own number, and with its own text exactly
      when what follows its prefix is canonical and there is no prefix. */
  lemma GoodIdsArrive(p: Packed, maxTasks: nat, slot: Option<nat>, i: nat)
    requires |p.ids| <= maxTasks && !IsEmptyPayload(p.payload) && DetailsMatch(p)
    requires (forall k :: 0 <= k < |p.ids| ==> GoodId(p.ids[k])) && i < |p.ids|
    ensures Serialized(p, maxTasks, slot).Some?
    ensures var r := Deserialized(Serialized(p, maxTasks, slot).value, maxTasks, slot.Some?);
      && r.Some? && r.value.payload == p.payload && r.value.slot == slot
      && r.value.numTasks == |p.ids| == |r.value.entries.ids|
      && (p.kind == PrefillTask ==> r.value.entries.lens == p.lens && r.value.entries.hasOutputs == p.hasOutputs)
      && (p.kind == DecodeTask ==> r.value.entries.hasModelRun == p.hasModelRun)
      && ParseInt(r.value.entries.ids[i]) == ParseInt(HexPart(p.ids[i]))
      && ((forall k :: 0 <= k < |p.ids[i]| ==> p.ids[i][k] != '_') ==>
            (r.value.entries.ids[i] == p.ids[i] <==> Canonical(p.ids[i])))
  {
    hide Serialized, Deserialized, EncodeAll, ReqDecode, Canonical, ParseInt;
    forall k | 0 <= k < |p.ids|
      ensures ReqEncode(p.kind, p.ids[k]).Some? && ReqEncode(p.kind, p.ids[k]).value != 0
      ensures InInt64(ReqEncode(p.kind, p.ids[k]).value)
    {
      IdRoundTrip(p.kind, p.ids[k]);
    }
    SerializesExactly(p, maxTasks, slot);
    WireRoundTrip(p, maxTasks, slot);
    var codes := EncodeAll(p.kind, p.ids).value;
    forall k | 0 <= k < |codes|
      ensures codes[k] != 0 && (if p.kind == PrefillTask then codes[k] >= 0 else codes[k] <= 0)
    {
      EncodedAt(p.kind, p.ids, k);
    }
    EncodedAt(p.kind, p.ids, i);
    assert BeforeZero(codes) == |codes|;
    IdRoundTrip(p.kind, p.ids[i]);
    if forall k :: 0 <= k < |p.ids[i]| ==> p.ids[i][k] != '_' {
      NoUnderscore(p.ids[i]);
    }
  }

  // ----- The worker side of the overlapped step -----

  /** The ids whose tasks still run. */
  function StillRunning(ids: seq<string>, flags: seq<bool>): seq<string>
    requires |ids| == |flags|
    decreases |ids|
  {
    if ids == [] then [] else (if flags[0] then [ids[0]] else []) + StillRunning(ids[1..], flags[1..])
  }

  /** `kept` are the items at the places whose flag is set, in their order. */
  ghost predicate KeptAt(ids: seq<string>, flags: seq<bool>, at: seq<nat>, kept: seq<string>)
    requires |ids| == |flags|
  {
    && |kept| == |at| && (forall i, j :: 0 <= i < j < |at| ==> at[i] < at[j])
    && (forall i :: 0 <= i < |at| ==> at[i] < |ids| && kept[i] == ids[at[i]])
    && forall i :: 0 <= i < |ids| ==> (flags[i] <==> i in at)
  }

  lemma {:induction false} StillRunningAt(ids: seq<string>, flags: seq<bool>) returns (at: seq<nat>)
    requires |ids| == |flags|
    ensures KeptAt(ids, flags, at, StillRunning(ids, flags))
    decreases |ids|
  {
    if ids == [] {
      at := [];
    } else {
      var rest := StillRunningAt(ids[1..], flags[1..]);
      at := KeptNext(ids, flags, rest, StillRunning(ids[1..], flags[1..]));
    }
  }

  lemma KeptNext(ids: seq<string>, flags: seq<bool>, rest: seq<nat>, kept: seq<string>) returns (at: seq<nat>)
    requires |ids| == |flags| > 0 && KeptAt(ids[1..], flags[1..], rest, kept)
    ensures KeptAt(ids, flags, at, (if flags[0] then [ids[0]] else []) + kept)
  {
    var moved := seq(|rest|, i requires 0 <= i < |rest| => rest[i] + 1);
    at := (if flags[0] then [0] else []) + moved;
    forall i: nat | i < |ids|
      ensures flags[i] <==> i in at
    {
      if i > 0 {
        MovedIn(flags[1..], rest, moved, i - 1);
        assert i in at <==> i in moved;
      }
    }
  }

  lemma MovedIn(flags: seq<bool>, rest: seq<nat>, moved: seq<nat>, i: nat)
    requires i < |flags| && (flags[i] <==> i in rest)
    requires |moved| == |rest| && forall k :: 0 <= k < |rest| ==> moved[k] == rest[k] + 1
    ensures flags[i] <==> i + 1 in moved
  {
    if flags[i] {
      var k :| 0 <= k < |rest| && rest[k] == i;
      assert moved[k] == i + 1;
    }
  }

  /** `update_by_decode_status` on a received batch. */
  method UpdateByDecodeStatus(ids: seq<string>, hasModelRun: seq<bool>) returns (kept: seq<string>, flags: seq<bool>)
    requires |ids| == |hasModelRun|
    ensures kept == StillRunning(ids, hasModelRun)
    ensures |flags| == |kept| && forall i :: 0 <= i < |flags| ==> flags[i]
  {
    hide StillRunning;
    kept := [];
    assert ids[0..] == ids && hasModelRun[0..] == hasModelRun;
    for it := 0 to |ids|
      invariant kept + StillRunning(ids[it..], hasModelRun[it..]) == StillRunning(ids, hasModelRun)
    {
      RunningStep(ids, hasModelRun, it);
      if hasModelRun[it] {
        kept := kept + [ids[it]];
      }
    }
    RunningEnd(ids, hasModelRun);
    flags := seq(|kept|, _ => true);
  }

  lemma RunningStep(ids: seq<string>, flags: seq<bool>, it: nat)
    requires it < |ids| == |flags|
    ensures StillRunning(ids[it..], flags[it..]) ==
      (if flags[it] then [ids[it]] else []) + StillRunning(ids[it + 1..], flags[it + 1..])
  {
    assert ids[it..][1..] == ids[it + 1..] && flags[it..][1..] == flags[it + 1..];
  }

  lemma RunningEnd(ids: seq<string>, flags: seq<bool>)
    requires |ids| == |flags|
    ensures StillRunning(ids[|ids|..], flags[|ids|..]) == []
  {
  }
}
