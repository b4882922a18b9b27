/**
 Relayouts of weights and scales. A tensor is its flat contents; a view is a decomposition of the flat
 index in a mixed radix, a permutation exchanges the digits.
 */
module Relayout {
  import opened Base

  // ----- Nibbles packed along K -----

  ghost predicate Bytes(b: seq<nat>) {
    forall i :: 0 <= i < |b| ==> b[i] < 256
  }

  ghost predicate Nibbles(e: seq<nat>) {
    forall i :: 0 <= i < |e| ==> e[i] < 16
  }

  /** `cat([w & 0x0F, w >> 4], dim=-2)` on the view with rows of `stride` bytes: block q of the result is
      the low halves of row q followed by its high halves. */
  function Unpack(b: seq<nat>, stride: nat): (e: seq<nat>)
    requires stride > 0 && |b| % stride == 0
    ensures |e| == 2 * |b|
  {
    seq(2 * |b|, k requires 0 <= k < 2 * |b| => NibbleAt(b, stride, k))
  }

  /** The byte and the half that hold element k: block k / 2s, and in it offset k % s of the first or the
      second half. */
  function ByteOf(stride: nat, k: nat): int
    requires stride > 0
  {
    k / (2 * stride) * stride + if InLowHalf(stride, k) then k % (2 * stride) else k % (2 * stride) - stride
  }

  predicate InLowHalf(stride: nat, k: nat)
    requires stride > 0
  {
    k % (2 * stride) < stride
  }

  /** Element k of a row packed with this stride. */
  function NibbleAt(b: seq<nat>, stride: nat, k: nat): (e: nat)
    requires stride > 0 && |b| % stride == 0 && k < 2 * |b|
  {
    ByteInside(|b|, stride, k);
    if InLowHalf(stride, k) then b[ByteOf(stride, k)] % 16 else b[ByteOf(stride, k)] / 16
  }

  /** `w[..., 0, :] + (w[..., 1, :] << 4)` on the view with blocks of two rows of `stride` elements. */
  function Pack(e: seq<nat>, stride: nat): (b: seq<nat>)
    requires stride > 0 && |e| % (2 * stride) == 0
    ensures |b| == |e| / 2
  {
    seq(|e| / 2, j requires 0 <= j < |e| / 2 => PackAt(e, stride, j))
  }

  function PackAt(e: seq<nat>, stride: nat, j: nat): nat
    requires stride > 0 && |e| % (2 * stride) == 0 && j < |e| / 2
  {
    PackIndex(|e|, stride, j);
    var q, r := j / stride, j % stride;
    e[q * (2 * stride) + r] + 16 * e[q * (2 * stride) + stride + r]
  }

  lemma BlockInside(q: nat, r: nat, block: nat, total: nat)
    requires block > 0 && total % block == 0 && q * block + r < total && r < block
    ensures (q + 1) * block <= total
  {
    DivBounds(total, block);
    var n := total / block;
    if n <= q {
      MulLe(n, q, block);
      assert false;
    }
    MulLe(q + 1, n, block);
  }

  lemma DoubleMod(n: nat, stride: nat)
    requires stride > 0
    ensures (2 * n) % (2 * stride) == 0 <==> n % stride == 0
  {
    DivBounds(n, stride);
    var q, r := n / stride, n % stride;
    assert 2 * n == q * (2 * stride) + 2 * r;
    DivUnique(q, 2 * r, 2 * stride);
  }

  lemma ByteInside(n: nat, stride: nat, k: nat)
    requires stride > 0 && n % stride == 0 && k < 2 * n
    ensures 0 <= ByteOf(stride, k) < n
  {
    var q, r := k / (2 * stride), k % (2 * stride);
    DivBounds(k, 2 * stride);
    DoubleMod(n, stride);
    BlockInside(q, r, 2 * stride, 2 * n);
    assert (q + 1) * (2 * stride) == 2 * (q * stride + stride);
    MulLe(0, q, stride);
  }

  lemma PackIndex(n: nat, stride: nat, j: nat)
    requires stride > 0 && n % (2 * stride) == 0 && j < n / 2
    ensures var q, r := j / stride, j % stride;
      && 0 <= q && 0 <= r < stride
      && 0 <= q * (2 * stride) + stride + r < n && 0 <= q * (2 * stride) + r < n
  {
    DivBounds(j, stride);
    var q, r := j / stride, j % stride;
    DivBounds(n, 2 * stride);
    var m := n / (2 * stride);
    assert n == 2 * (m * stride);
    if m <= q {
      MulLe(m, q, stride);
      assert false;
    }
    MulLe(q + 1, m, stride);
    assert (q + 1) * stride == q * stride + stride;
    assert q * (2 * stride) == 2 * (q * stride);
  }

  /** `Packed4BitWeightAlongK.convert_from` itself. */
  function Convert(b: seq<nat>, s: nat, t: nat): (r: seq<nat>)
    requires s > 0 && t > 0 && |b| % s == 0 && |b| % t == 0
    ensures |r| == |b|
  {
    DoubleMod(|b|, t);
    if s == t then b else Pack(Unpack(b, s), t)
  }

  lemma NibbleSplit(lo: nat, hi: nat)
    requires lo < 16 && hi < 16
    ensures (lo + 16 * hi) % 16 == lo && (lo + 16 * hi) / 16 == hi && lo + 16 * hi < 256
  {
  }

  /** What is packed can be unpacked again. */
  lemma UnpackPacked(e: seq<nat>, stride: nat)
    requires stride > 0 && |e| % (2 * stride) == 0 && Nibbles(e)
    ensures |Pack(e, stride)| % stride == 0 && Unpack(Pack(e, stride), stride) == e && Bytes(Pack(e, stride))
  {
    var b := Pack(e, stride);
    HalfMod(|e|, stride);
    forall j | 0 <= j < |b|
      ensures b[j] < 256
    {
      PackIndex(|e|, stride, j);
    }
    hide Pack, NibbleAt;
    forall k | 0 <= k < |e|
      ensures NibbleAt(b, stride, k) == e[k]
    {
      PackedAt(e, stride, k);
    }
  }

  lemma HalfMod(n: nat, stride: nat)
    requires stride > 0 && n % (2 * stride) == 0
    ensures n % 2 == 0 && (n / 2) % stride == 0 && n == 2 * (n / 2)
  {
    DivBounds(n, 2 * stride);
    var m := n / (2 * stride);
    assert n == 2 * (m * stride);
    DivUnique(m, 0, stride);
  }

  /** The byte and half in which element k is packed are those where it is looked for. */
  lemma PackedAt(e: seq<nat>, stride: nat, k: nat)
    requires stride > 0 && |e| % (2 * stride) == 0 && Nibbles(e) && k < |e|
    ensures |Pack(e, stride)| % stride == 0 && k < 2 * |Pack(e, stride)| && NibbleAt(Pack(e, stride), stride, k) == e[k]
  {
    var q, r := k / (2 * stride), k % (2 * stride);
    DivBounds(k, 2 * stride);
    HalfMod(|e|, stride);
    ByteInside(|e| / 2, stride, k);
    var o := if r < stride then r else r - stride;
    DivUnique(q, o, stride);
    PackIndex(|e|, stride, q * stride + o);
    NibbleSplit(e[q * (2 * stride) + o], e[q * (2 * stride) + stride + o]);
  }

  /** What is unpacked can be packed again. */
  lemma PackUnpacked(b: seq<nat>, stride: nat)
    requires stride > 0 && |b| % stride == 0 && Bytes(b)
    ensures |Unpack(b, stride)| % (2 * stride) == 0 && Nibbles(Unpack(b, stride))
    ensures Pack(Unpack(b, stride), stride) == b
  {
    hide NibbleAt, PackAt;
    var e := Unpack(b, stride);
    DoubleMod(|b|, stride);
    forall k | 0 <= k < |e|
      ensures NibbleAt(b, stride, k) < 16
    {
      NibbleSmall(b, stride, k);
    }
    forall j | 0 <= j < |b|
      ensures PackAt(e, stride, j) == b[j]
    {
      UnpackedAt(b, stride, j);
    }
  }

  lemma NibbleSmall(b: seq<nat>, stride: nat, k: nat)
    requires stride > 0 && |b| % stride == 0 && k < 2 * |b| && Bytes(b)
    ensures NibbleAt(b, stride, k) < 16
  {
    ByteInside(|b|, stride, k);
  }

  lemma UnpackedAt(b: seq<nat>, stride: nat, j: nat)
    requires stride > 0 && |b| % stride == 0 && |Unpack(b, stride)| % (2 * stride) == 0 && j < |b|
    ensures PackAt(Unpack(b, stride), stride, j) == b[j]
  {
    var q, r := j / stride, j % stride;
    PackIndex(2 * |b|, stride, j);
    DivBounds(j, stride);
    DivUnique(q, r, 2 * stride);
    DivUnique(q, stride + r, 2 * stride);
    assert NibbleAt(b, stride, q * (2 * stride) + r) == b[j] % 16;
    assert q * (2 * stride) + stride + r == q * (2 * stride) + (stride + r);
    assert NibbleAt(b, stride, q * (2 * stride) + (stride + r)) == b[j] / 16;
  }

  // ----- Byte by byte -----

  /** Row q of the packed bytes becomes two rows: the low halves of its bytes, then the high halves. */
  lemma UnpackedRows(b: seq<nat>, s: nat, q: nat, o: nat)
    requires s > 0 && |b| % s == 0 && o < s && q * s + o < |b|
    ensures q * (2 * s) + s + o < |Unpack(b, s)|
    ensures Unpack(b, s)[q * (2 * s) + o] == b[q * s + o] % 16
    ensures Unpack(b, s)[q * (2 * s) + s + o] == b[q * s + o] / 16
  {
    hide NibbleAt, Pack;
    RowInside(|b|, s, q, o);
    UnpackedHalves(b, s, q, o);
  }

  lemma RowInside(n: nat, s: nat, q: nat, o: nat)
    requires s > 0 && n % s == 0 && o < s && q * s + o < n
    ensures q * (2 * s) + s + o < 2 * n && q * (2 * s) + o < 2 * n
  {
    DoubleMod(n, s);
    DivUnique(q, o, s);
    PackIndex(2 * n, s, q * s + o);
  }

  lemma UnpackedHalves(b: seq<nat>, s: nat, q: nat, o: nat)
    requires s > 0 && |b| % s == 0 && o < s && q * s + o < |b| && q * (2 * s) + s + o < 2 * |b|
    ensures NibbleAt(b, s, q * (2 * s) + o) == b[q * s + o] % 16
    ensures NibbleAt(b, s, q * (2 * s) + s + o) == b[q * s + o] / 16
  {
    DivUnique(q, o, 2 * s);
    DivUnique(q, s + o, 2 * s);
    assert q * (2 * s) + s + o == q * (2 * s) + (s + o);
  }

  /** Two rows of elements become one row of bytes: the first row in the low halves, the second in the high
      halves. */
  lemma PackedRows(e: seq<nat>, s: nat, q: nat, o: nat)
    requires s > 0 && |e| % (2 * s) == 0 && Nibbles(e) && o < s && q * s + o < |e| / 2
    ensures q * (2 * s) + s + o < |e|
    ensures Pack(e, s)[q * s + o] % 16 == e[q * (2 * s) + o] && Pack(e, s)[q * s + o] / 16 == e[q * (2 * s) + s + o]
  {
    DivUnique(q, o, s);
    PackIndex(|e|, s, q * s + o);
    NibbleSplit(e[q * (2 * s) + o], e[q * (2 * s) + s + o]);
  }

  /** The element at offset x of block p of a row packed with stride s. */
  function Element(b: seq<nat>, s: nat, p: nat, x: nat): nat
    requires x < 2 * s && p * s + (if x < s then x else x - s) < |b|
  {
    if x < s then b[p * s + x] % 16 else b[p * s + (x - s)] / 16
  }

  lemma ElementUnpacked(b: seq<nat>, s: nat, p: nat, x: nat)
    requires s > 0 && |b| % s == 0 && x < 2 * s && p * (2 * s) + x < 2 * |b|
    ensures p * s + (if x < s then x else x - s) < |b| && Unpack(b, s)[p * (2 * s) + x] == Element(b, s, p, x)
  {
    hide NibbleAt, Unpack;
    DivUnique(p, x, 2 * s);
    ByteInside(|b|, s, p * (2 * s) + x);
    UnpackedRows(b, s, p, if x < s then x else x - s);
    assert x >= s ==> p * (2 * s) + s + (x - s) == p * (2 * s) + x;
  }

  /** Repacking byte by byte: the halves of byte o of row q hold the elements q * 2t + o and q * 2t + t + o, and
      where these are found in the old row is said by their block and offset there. */
  lemma ConvertedByte(b: seq<nat>, s: nat, t: nat, q: nat, o: nat, p: nat, x: nat, p': nat, x': nat)
    requires s > 0 && t > 0 && |b| % s == 0 && |b| % t == 0 && Bytes(b) && o < t && q * t + o < |b|
    requires q * (2 * t) + o == p * (2 * s) + x && x < 2 * s
    requires q * (2 * t) + t + o == p' * (2 * s) + x' && x' < 2 * s
    ensures p * s + (if x < s then x else x - s) < |b| && p' * s + (if x' < s then x' else x' - s) < |b|
    ensures Convert(b, s, t)[q * t + o] == Element(b, s, p, x) + 16 * Element(b, s, p', x')
  {
    hide Pack, Unpack, Element;
    DoubleMod(|b|, t);
    PackUnpacked(b, s);
    var e := Unpack(b, s);
    if s != t {
      PackedRows(e, t, q, o);
    } else {
      UnpackedRows(b, s, q, o);
    }
    ElementUnpacked(b, s, p, x);
    ElementUnpacked(b, s, p', x');
  }

  /** Repacking denotes the same sequence of elements, and going back restores every byte. */
  lemma ConvertKeepsMeaning(b: seq<nat>, s: nat, t: nat)
    requires s > 0 && t > 0 && |b| % s == 0 && |b| % t == 0 && Bytes(b)
    ensures Unpack(Convert(b, s, t), t) == Unpack(b, s) && Bytes(Convert(b, s, t))
    ensures Convert(Convert(b, s, t), t, s) == b
  {
    hide Pack, Unpack;
    DoubleMod(|b|, t);
    PackUnpacked(b, s);
    UnpackPacked(Unpack(b, s), t);
  }

  // ----- Swizzled scales -----

  /** A flat index in the view [.., a, b, c, d]. */
  function Enc(t: nat, a: nat, b: nat, c: nat, d: nat, A: nat, B: nat, C: nat, D: nat): nat {
    (((t * A + a) * B + b) * C + c) * D + d
  }

  /** The digits of a flat index in the view [.., A, B, C, D]. */
  datatype Digits = Digits(t: nat, a: nat, b: nat, c: nat, d: nat)

  function Dec(j: nat, A: nat, B: nat, C: nat, D: nat): (x: Digits)
    requires A > 0 && B > 0 && C > 0 && D > 0
    ensures x.a < A && x.b < B && x.c < C && x.d < D
    ensures Enc(x.t, x.a, x.b, x.c, x.d, A, B, C, D) == j
  {
    DivBounds(j, D);
    DivBounds(j / D, C);
    DivBounds(j / D / C, B);
    DivBounds(j / D / C / B, A);
    Digits(j / D / C / B / A, j / D / C / B % A, j / D / C % B, j / D % C, j % D)
  }

  /** The digits of an index are the ones it was made of. */
  lemma DecEnc(t: nat, a: nat, b: nat, c: nat, d: nat, A: nat, B: nat, C: nat, D: nat)
    requires a < A && b < B && c < C && d < D
    ensures Dec(Enc(t, a, b, c, d, A, B, C, D), A, B, C, D) == Digits(t, a, b, c, d)
  {
    hide Dec;
    var p := t * A + a;
    var q := p * B + b;
    var r := q * C + c;
    DivUnique(t, a, A);
    DivUnique(p, b, B);
    DivUnique(q, c, C);
    DivUnique(r, d, D);
    DecBy(r * D + d, r, q, p, Digits(t, a, b, c, d), A, B, C, D);
  }

  lemma DecBy(j: nat, r: nat, q: nat, p: nat, x: Digits, A: nat, B: nat, C: nat, D: nat)
    requires A > 0 && B > 0 && C > 0 && D > 0
    requires j / D == r && j % D == x.d && r / C == q && r % C == x.c
    requires q / B == p && q % B == x.b && p / A == x.t && p % A == x.a
    ensures Dec(j, A, B, C, D) == x
  {
  }

  /** An index below the size of the view has a leading digit below T, and the other way round. */
  lemma EncBelow(t: nat, a: nat, b: nat, c: nat, d: nat, A: nat, B: nat, C: nat, D: nat, T: nat)
    requires a < A && b < B && c < C && d < D
    ensures t < T <==> Enc(t, a, b, c, d, A, B, C, D) < Size(T, A, B, C, D)
  {
    Below(t, a, A, T);
    Below(t * A + a, b, B, T * A);
    Below((t * A + a) * B + b, c, C, T * A * B);
    Below(((t * A + a) * B + b) * C + c, d, D, T * A * B * C);
  }

  function Size(T: nat, A: nat, B: nat, C: nat, D: nat): nat {
    T * A * B * C * D
  }

  lemma Below(q: nat, r: nat, b: nat, n: nat)
    requires r < b
    ensures q * b + r < n * b <==> q < n
  {
    if q < n {
      MulLe(q + 1, n, b);
    } else {
      MulLe(n, q, b);
    }
  }

  lemma SizeSwap(T: nat, A: nat, B: nat, C: nat, D: nat)
    ensures Size(T, A, B, C, D) == Size(T, C, B, A, D)
  {
    assert T * A * B * C == T * C * B * A by {
      assert T * A * B * C == T * B * (A * C);
      assert T * C * B * A == T * B * (C * A);
    }
  }

  /** `reshape(-1, A, B, C, D).permute` that exchanges the digits A and C. */
  function Swap<X>(x: seq<X>, T: nat, A: nat, B: nat, C: nat, D: nat): (y: seq<X>)
    requires A > 0 && B > 0 && C > 0 && D > 0 && |x| == Size(T, A, B, C, D)
    ensures |y| == |x|
  {
    seq(|x|, j requires 0 <= j < |x| => SwapAt(x, T, A, B, C, D, j))
  }

  function SwapAt<X>(x: seq<X>, T: nat, A: nat, B: nat, C: nat, D: nat, j: nat): X
    requires A > 0 && B > 0 && C > 0 && D > 0 && |x| == Size(T, A, B, C, D) && j < |x|
  {
    SizeSwap(T, A, B, C, D);
    var g := Dec(j, C, B, A, D);
    EncBelow(g.t, g.a, g.b, g.c, g.d, C, B, A, D, T);
    EncBelow(g.t, g.c, g.b, g.a, g.d, A, B, C, D, T);
    x[Enc(g.t, g.c, g.b, g.a, g.d, A, B, C, D)]
  }

  /** Exchanging two digits and exchanging them back is the identity. */
  lemma SwapTwice<X>(x: seq<X>, T: nat, A: nat, B: nat, C: nat, D: nat)
    requires A > 0 && B > 0 && C > 0 && D > 0 && |x| == Size(T, A, B, C, D)
    ensures |x| == Size(T, C, B, A, D) && Swap(Swap(x, T, A, B, C, D), T, C, B, A, D) == x
  {
    SizeSwap(T, A, B, C, D);
    var y := Swap(x, T, A, B, C, D);
    forall j | 0 <= j < |x|
      ensures SwapAt(y, T, C, B, A, D, j) == x[j]
    {
      var g := Dec(j, A, B, C, D);
      EncBelow(g.t, g.a, g.b, g.c, g.d, A, B, C, D, T);
      EncBelow(g.t, g.c, g.b, g.a, g.d, C, B, A, D, T);
      var i := Enc(g.t, g.c, g.b, g.a, g.d, C, B, A, D);
      DecEnc(g.t, g.c, g.b, g.a, g.d, C, B, A, D);
      assert y[i] == SwapAt(x, T, A, B, C, D, i);
    }
  }

  /** Rows rounded up to a multiple of 128. */
  function PaddedRows(m: nat): (r: nat)
    ensures m <= r
  {
    DivBounds(m + 127, 128);
    (m + 127) / 128 * 128
  }

  function Padded(x: seq<nat>, m: nat, k: nat): (y: seq<nat>)
    requires |x| == m * k
    ensures |y| == PaddedRows(m) * k && x <= y
  {
    MulLe(m, PaddedRows(m), k);
    x + seq(PaddedRows(m) * k - m * k, _ => 0)
  }

  /** The rows are padded to the next multiple of 128, with zeros. */
  lemma PaddedIs(x: seq<nat>, m: nat, k: nat, row: nat, col: nat)
    requires |x| == m * k && row < PaddedRows(m) && col < k
    ensures PaddedRows(m) % 128 == 0 && m <= PaddedRows(m) < m + 128
    ensures row * k + col < |Padded(x, m, k)|
    ensures row < m ==> row * k + col < |x| && Padded(x, m, k)[row * k + col] == x[row * k + col]
    ensures row >= m ==> Padded(x, m, k)[row * k + col] == 0
  {
    DivUnique((m + 127) / 128, 0, 128);
    DivBounds(m + 127, 128);
    Below(row, col, k, PaddedRows(m));
    Below(row, col, k, m);
    MulLe(m, PaddedRows(m), k);
  }

  lemma PaddedSize(m: nat, k: nat)
    requires k % 4 == 0
    ensures PaddedRows(m) * k == Size(PaddedRows(m) / 128, 4, 32, k / 4, 4) ==
      Size(PaddedRows(m) / 128, k / 4, 32, 4, 4)
  {
    var t, c := (m + 127) / 128, k / 4;
    DivUnique(t, 0, 128);
    DivBounds(k, 4);
    assert PaddedRows(m) * k == t * 128 * (c * 4);
    assert t * 4 * 32 * c * 4 == t * 128 * (c * 4);
    SizeSwap(t, 4, 32, c, 4);
  }

  /** `LinearScaleToSwizzled.convert_from` of one m x k matrix. The reshape needs k to be a multiple of 4. */
  function ToSwizzled(x: seq<nat>, m: nat, k: nat): (y: seq<nat>)
    requires |x| == m * k && k > 0 && k % 4 == 0
    ensures |y| == PaddedRows(m) * k
  {
    PaddedSize(m, k);
    Swap(Padded(x, m, k), PaddedRows(m) / 128, 4, 32, k / 4, 4)
  }

  /** `SwizzledScaleToLinear.convert_from` of one matrix with rows * k entries, cut back to m rows. */
  function ToLinear(y: seq<nat>, rows: nat, k: nat, m: nat): (x: seq<nat>)
    requires |y| == rows * k && k > 0 && k % 4 == 0 && rows % 128 == 0 && m <= rows
    ensures |x| == m * k
  {
    RowsSize(rows, k);
    MulLe(m, rows, k);
    Swap(y, rows / 128, k / 4, 32, 4, 4)[..m * k]
  }

  lemma RowsSize(rows: nat, k: nat)
    requires k % 4 == 0 && rows % 128 == 0
    ensures rows * k == Size(rows / 128, k / 4, 32, 4, 4)
  {
    DivBounds(rows, 128);
    DivBounds(k, 4);
    var t, c := rows / 128, k / 4;
    assert rows * k == t * 128 * (c * 4);
    assert t * c * 32 * 4 * 4 == t * 128 * (c * 4);
  }

  /** Swizzling, padding included, and back is the identity on the original scale. */
  lemma SwizzleRoundTrip(x: seq<nat>, m: nat, k: nat)
    requires |x| == m * k && k > 0 && k % 4 == 0
    ensures PaddedRows(m) % 128 == 0 && ToLinear(ToSwizzled(x, m, k), PaddedRows(m), k, m) == x
  {
    DivUnique((m + 127) / 128, 0, 128);
    PaddedSize(m, k);
    SwapTwice(Padded(x, m, k), PaddedRows(m) / 128, 4, 32, k / 4, 4);
  }

  /** Where an entry of the padded scale is stored: row (t, a, b) and column (c, d) go to position
      (t, c, b, a, d). */
  lemma SwizzledPosition(x: seq<nat>, m: nat, k: nat, t: nat, a: nat, b: nat, c: nat, d: nat)
    requires |x| == m * k && k > 0 && k % 4 == 0 && a < 4 && b < 32 && c < k / 4 && d < 4
    requires (t * 4 + a) * 32 + b < PaddedRows(m)
    ensures var row, col := (t * 4 + a) * 32 + b, c * 4 + d;
      && col < k && (row < m ==> row * k + col < |x|)
      && Enc(t, c, b, a, d, k / 4, 32, 4, 4) < |ToSwizzled(x, m, k)|
      && ToSwizzled(x, m, k)[Enc(t, c, b, a, d, k / 4, 32, 4, 4)] == if row < m then x[row * k + col] else 0
  {
    hide Padded, PaddedRows, Enc, Swap;
    var row, col, rows := (t * 4 + a) * 32 + b, c * 4 + d, PaddedRows(m);
    DivBounds(k, 4);
    PaddedIs(x, m, k, row, col);
    PaddedSize(m, k);
    ViewIndex(k, t, a, b, c, d);
    SwappedAt(Padded(x, m, k), rows / 128, 4, 32, k / 4, 4, t, a, b, c, d);
  }

  /** The flat index of an entry in the view of the linear layout. */
  lemma ViewIndex(k: nat, t: nat, a: nat, b: nat, c: nat, d: nat)
    requires k % 4 == 0
    ensures Enc(t, a, b, c, d, 4, 32, k / 4, 4) == ((t * 4 + a) * 32 + b) * k + (c * 4 + d)
  {
    DivBounds(k, 4);
    var (row, C) := ((t * 4 + a) * 32 + b, k / 4);
    assert (row * C + c) * 4 + d == row * (C * 4) + (c * 4 + d);
  }

  /** What exchanging two digits does to one element. */
  lemma SwappedAt<X>(x: seq<X>, T: nat, A: nat, B: nat, C: nat, D: nat, t: nat, a: nat, b: nat, c: nat, d: nat)
    requires A > 0 && B > 0 && C > 0 && D > 0 && |x| == Size(T, A, B, C, D)
    requires a < A && b < B && c < C && d < D && Enc(t, a, b, c, d, A, B, C, D) < |x|
    ensures Enc(t, c, b, a, d, C, B, A, D) < |x|
    ensures Swap(x, T, A, B, C, D)[Enc(t, c, b, a, d, C, B, A, D)] == x[Enc(t, a, b, c, d, A, B, C, D)]
  {
    hide Enc, Dec;
    SizeSwap(T, A, B, C, D);
    EncBelow(t, a, b, c, d, A, B, C, D, T);
    EncBelow(t, c, b, a, d, C, B, A, D, T);
    DecEnc(t, c, b, a, d, C, B, A, D);
  }

  /** The way back, for any swizzled scale: position (t, c, b, a, d) is read into row (t, a, b), column (c, d). */
  lemma LinearPosition(y: seq<nat>, rows: nat, k: nat, m: nat, t: nat, a: nat, b: nat, c: nat, d: nat)
    requires |y| == rows * k && k > 0 && k % 4 == 0 && rows % 128 == 0 && m <= rows
    requires a < 4 && b < 32 && c < k / 4 && d < 4 && (t * 4 + a) * 32 + b < m
    ensures var row, col := (t * 4 + a) * 32 + b, c * 4 + d;
      && row * k + col < m * k && Enc(t, c, b, a, d, k / 4, 32, 4, 4) < |y|
      && ToLinear(y, rows, k, m)[row * k + col] == y[Enc(t, c, b, a, d, k / 4, 32, 4, 4)]
  {
    hide Enc, Swap;
    var row, col := (t * 4 + a) * 32 + b, c * 4 + d;
    DivBounds(k, 4);
    RowsSize(rows, k);
    Below(row, col, k, m);
    MulLe(m, rows, k);
    ViewIndex(k, t, a, b, c, d);
    SizeSwap(rows / 128, k / 4, 32, 4, 4);
    SwizzledInside(rows, k, t, a, b, c, d);
    SwappedAt(y, rows / 128, k / 4, 32, 4, 4, t, c, b, a, d);
  }

  lemma SwizzledInside(rows: nat, k: nat, t: nat, a: nat, b: nat, c: nat, d: nat)
    requires k > 0 && k % 4 == 0 && rows % 128 == 0 && a < 4 && b < 32 && c < k / 4 && d < 4
    requires Enc(t, a, b, c, d, 4, 32, k / 4, 4) < rows * k
    ensures Enc(t, c, b, a, d, k / 4, 32, 4, 4) < rows * k
  {
    hide Enc;
    RowsSize(rows, k);
    SizeSwap(rows / 128, k / 4, 32, 4, 4);
    EncBelow(t, a, b, c, d, 4, 32, k / 4, 4, rows / 128);
    EncBelow(t, c, b, a, d, k / 4, 32, 4, 4, rows / 128);
  }

  // ----- Separated odd and even columns -----

  /** `PartialColumnOddEvenSeparatedTensor.convert_from` of one row: the even columns of begin..end first,
      then the odd ones. */
  method Separate(x: array<nat>, begin: nat, end: nat) returns (y: array<nat>)
    requires begin <= end <= x.Length && (end - begin) % 2 == 0
    ensures fresh(y) && y[..] == Separated(x[..], begin, end)
  {
    y := new nat[x.Length](i requires 0 <= i < x.Length reads x => x[i]);
    var half := (end - begin) / 2;
    ghost var goal := Separated(x[..], begin, end);
    for i := 0 to half
      invariant forall j :: 0 <= j < x.Length && !(begin + i <= j < begin + half) && !(begin + half + i <= j < end) ==>
        y[j] == goal[j]
    {
      SeparatedAt(x[..], begin, end, i);
      y[begin + i], y[begin + half + i] := x[begin + 2 * i], x[begin + 2 * i + 1];
    }
  }

  lemma SeparatedAt(x: seq<nat>, begin: nat, end: nat, i: nat)
    requires begin <= end <= |x| && (end - begin) % 2 == 0 && i < (end - begin) / 2
    ensures var half := (end - begin) / 2;
      && begin + half + i < end && begin + 2 * i + 1 < end
      && Separated(x, begin, end)[begin + i] == x[begin + 2 * i]
      && Separated(x, begin, end)[begin + half + i] == x[begin + 2 * i + 1]
  {
  }

  /** Columns outside the range stay where they are. */
  lemma SeparatedOutside(x: seq<nat>, begin: nat, end: nat, j: nat)
    requires begin <= end <= |x| && (end - begin) % 2 == 0 && j < |x| && !(begin <= j < end)
    ensures Separated(x, begin, end)[j] == x[j]
  {
  }

  function Separated(x: seq<nat>, begin: nat, end: nat): (y: seq<nat>)
    requires begin <= end <= |x| && (end - begin) % 2 == 0
    ensures |y| == |x|
  {
    var half := (end - begin) / 2;
    seq(|x|, j requires 0 <= j < |x| =>
      if begin <= j < begin + half then x[begin + 2 * (j - begin)]
      else if begin + half <= j < end then x[begin + 2 * (j - begin - half) + 1]
      else x[j])
  }

  /** `convert_to_plain`. */
  function Interleaved(y: seq<nat>, begin: nat, end: nat): (x: seq<nat>)
    requires begin <= end <= |y| && (end - begin) % 2 == 0
    ensures |x| == |y|
  {
    var half := (end - begin) / 2;
    seq(|y|, j requires 0 <= j < |y| =>
      if begin <= j < end then y[begin + (j - begin) % 2 * half + (j - begin) / 2] else y[j])
  }

  lemma SeparateRoundTrip(x: seq<nat>, begin: nat, end: nat)
    requires begin <= end <= |x| && (end - begin) % 2 == 0
    ensures Interleaved(Separated(x, begin, end), begin, end) == x
    ensures Separated(Interleaved(x, begin, end), begin, end) == x
  {
    forall j | begin <= j < end
      ensures Interleaved(Separated(x, begin, end), begin, end)[j] == x[j]
    {
      SeparateThere(x, begin, end, j);
    }
    forall j | begin <= j < end
      ensures Separated(Interleaved(x, begin, end), begin, end)[j] == x[j]
    {
      SeparateBack(x, begin, end, j);
    }
  }

  lemma SeparateThere(x: seq<nat>, begin: nat, end: nat, j: nat)
    requires begin <= j < end <= |x| && (end - begin) % 2 == 0
    ensures Interleaved(Separated(x, begin, end), begin, end)[j] == x[j]
  {
    var half, i := (end - begin) / 2, j - begin;
    DivBounds(i, 2);
    DivBounds(end - begin, 2);
    if i % 2 == 0 {
      assert i % 2 * half == 0;
    } else {
      assert i % 2 * half == half;
    }
  }

  lemma SeparateBack(x: seq<nat>, begin: nat, end: nat, j: nat)
    requires begin <= j < end <= |x| && (end - begin) % 2 == 0
    ensures Separated(Interleaved(x, begin, end), begin, end)[j] == x[j]
  {
    var half := (end - begin) / 2;
    DivBounds(end - begin, 2);
    var low := j < begin + half;
    var i := if low then j - begin else j - begin - half;
    DivUnique(i, if low then 0 else 1, 2);
    var k := i * 2 + if low then 0 else 1;
    assert k / 2 == i && k % 2 == if low then 0 else 1;
    assert k % 2 * half == if low then 0 else half;
  }
}
