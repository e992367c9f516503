/** common/bitutil/bitutil.go: the bulk forms work on eight bytes at a time and finish byte by byte. Both
    forms compute the same bytes, also when the destination is one of the operands. */
module Bitutil {
  import opened Bits

  function Min(m: nat, n: nat): nat {
    if n < m then n else m
  }

  function AndBytes(a: Bytes, b: Bytes): (r: Bytes)
    ensures |r| == Min(|a|, |b|)
  {
    seq(Min(|a|, |b|), i requires 0 <= i < Min(|a|, |b|) => a[i] & b[i])
  }

  function OrBytes(a: Bytes, b: Bytes): (r: Bytes)
    ensures |r| == Min(|a|, |b|)
  {
    seq(Min(|a|, |b|), i requires 0 <= i < Min(|a|, |b|) => a[i] | b[i])
  }

  /** Bit by bit. */
  lemma AndBytesBit(a: Bytes, b: Bytes, i: nat)
    requires |a| == |b| && i < 8 * |a|
    ensures BitAt(AndBytes(a, b), i) <==> BitAt(a, i) && BitAt(b, i)
  {
    AndBit(a[i / 8], b[i / 8], i % 8);
  }

  lemma OrBytesBit(a: Bytes, b: Bytes, i: nat)
    requires |a| == |b| && i < 8 * |a|
    ensures BitAt(OrBytes(a, b), i) <==> BitAt(a, i) || BitAt(b, i)
  {
    OrBit(a[i / 8], b[i / 8], i % 8);
  }

  // ---------------------------------------------------------------- words

  const WORD_SIZE := 8

  /** Eight bytes read as one little-endian word. */
  function Word(b0: bv8, b1: bv8, b2: bv8, b3: bv8, b4: bv8, b5: bv8, b6: bv8, b7: bv8): bv64 {
    (b0 as bv64) | ((b1 as bv64) << 8) | ((b2 as bv64) << 16) | ((b3 as bv64) << 24) |
    ((b4 as bv64) << 32) | ((b5 as bv64) << 40) | ((b6 as bv64) << 48) | ((b7 as bv64) << 56)
  }

  /** Byte `k` of a word. */
  function ByteOf(w: bv64, k: nat): bv8
    requires k < WORD_SIZE
  {
    match k
    case 0 => (w & 0xff) as bv8
    case 1 => ((w >> 8) & 0xff) as bv8
    case 2 => ((w >> 16) & 0xff) as bv8
    case 3 => ((w >> 24) & 0xff) as bv8
    case 4 => ((w >> 32) & 0xff) as bv8
    case 5 => ((w >> 40) & 0xff) as bv8
    case 6 => ((w >> 48) & 0xff) as bv8
    case _ => ((w >> 56) & 0xff) as bv8
  }

  lemma WordBytes(b0: bv8, b1: bv8, b2: bv8, b3: bv8, b4: bv8, b5: bv8, b6: bv8, b7: bv8)
    ensures var w := Word(b0, b1, b2, b3, b4, b5, b6, b7);
            && ByteOf(w, 0) == b0 && ByteOf(w, 1) == b1 && ByteOf(w, 2) == b2 && ByteOf(w, 3) == b3
            && ByteOf(w, 4) == b4 && ByteOf(w, 5) == b5 && ByteOf(w, 6) == b6 && ByteOf(w, 7) == b7
  {
  }

  lemma AndWord(x0: bv8, x1: bv8, x2: bv8, x3: bv8, x4: bv8, x5: bv8, x6: bv8, x7: bv8,
                y0: bv8, y1: bv8, y2: bv8, y3: bv8, y4: bv8, y5: bv8, y6: bv8, y7: bv8)
    ensures Word(x0, x1, x2, x3, x4, x5, x6, x7) & Word(y0, y1, y2, y3, y4, y5, y6, y7) ==
              Word(x0 & y0, x1 & y1, x2 & y2, x3 & y3, x4 & y4, x5 & y5, x6 & y6, x7 & y7)
  {
  }

  lemma OrWord(x0: bv8, x1: bv8, x2: bv8, x3: bv8, x4: bv8, x5: bv8, x6: bv8, x7: bv8,
                y0: bv8, y1: bv8, y2: bv8, y3: bv8, y4: bv8, y5: bv8, y6: bv8, y7: bv8)
    ensures Word(x0, x1, x2, x3, x4, x5, x6, x7) | Word(y0, y1, y2, y3, y4, y5, y6, y7) ==
              Word(x0 | y0, x1 | y1, x2 | y2, x3 | y3, x4 | y4, x5 | y5, x6 | y6, x7 | y7)
  {
  }

  lemma ZeroWord(b0: bv8, b1: bv8, b2: bv8, b3: bv8, b4: bv8, b5: bv8, b6: bv8, b7: bv8)
    ensures Word(b0, b1, b2, b3, b4, b5, b6, b7) == 0 <==>
              b0 == 0 && b1 == 0 && b2 == 0 && b3 == 0 && b4 == 0 && b5 == 0 && b6 == 0 && b7 == 0
  {
    WordBytes(b0, b1, b2, b3, b4, b5, b6, b7);
  }

  /** From byte `from` to byte `to` the array holds what `x` does. */
  predicate Still(a: array<bv8>, x: Bytes, from: nat, to: nat)
    reads a
  {
    to <= a.Length && to <= |x| && forall j :: from <= j < to ==> a[j] == x[j]
  }

  /** The bytes of one word are stored from byte `p` on. */
  method StoreWord(dst: array<bv8>, p: nat, r: Bytes)
    requires p + 8 <= dst.Length && |r| == WORD_SIZE
    modifies dst
    ensures forall j :: p <= j < p + 8 ==> dst[j] == r[j - p]
    ensures forall j :: 0 <= j < dst.Length && !(p <= j < p + 8) ==> dst[j] == old(dst[j])
  {
    for k := 0 to WORD_SIZE
      invariant forall j :: p <= j < p + k ==> dst[j] == r[j - p]
      invariant forall j :: 0 <= j < dst.Length && !(p <= j < p + k) ==> dst[j] == old(dst[j])
    {
      dst[p + k] := r[k];
    }
  }

  /** An operation at each of eight places is the operation at any place. */
  lemma AtEach(op: (bv8, bv8) -> bv8, x: Bytes, y: Bytes, r: Bytes, k: nat)
    requires |x| == |y| == |r| == WORD_SIZE && k < WORD_SIZE
    requires r[0] == op(x[0], y[0]) && r[1] == op(x[1], y[1]) && r[2] == op(x[2], y[2]) && r[3] == op(x[3], y[3])
    requires r[4] == op(x[4], y[4]) && r[5] == op(x[5], y[5]) && r[6] == op(x[6], y[6]) && r[7] == op(x[7], y[7])
    ensures r[k] == op(x[k], y[k])
  {
  }

  // ---------------------------------------------------------------- AND

  /** Bytes `from` to `to`, one by one. The operands held `x` and `y` at first and still do there. */
  method AndEachByte(dst: array<bv8>, a: array<bv8>, b: array<bv8>, from: nat, to: nat, ghost x: Bytes, ghost y: Bytes)
    requires from <= to <= dst.Length && Still(a, x, from, to) && Still(b, y, from, to)
    modifies dst
    ensures forall j :: from <= j < to ==> dst[j] == AndBytes(x, y)[j]
    ensures forall j :: 0 <= j < dst.Length && !(from <= j < to) ==> dst[j] == old(dst[j])
  {
    for i := from to to
      invariant forall j :: from <= j < i ==> dst[j] == AndBytes(x, y)[j]
      invariant forall j :: 0 <= j < dst.Length && !(from <= j < i) ==> dst[j] == old(dst[j])
      invariant Still(a, x, i, to) && Still(b, y, i, to)
    {
      dst[i] := a[i] & b[i];
    }
  }

  method SafeANDBytes(dst: array<bv8>, a: array<bv8>, b: array<bv8>) returns (n: nat)
    requires Min(a.Length, b.Length) <= dst.Length
    modifies dst
    ensures n == Min(a.Length, b.Length)
    ensures dst[..n] == AndBytes(old(a[..]), old(b[..])) && dst[n..] == old(dst[n..])
  {
    n := Min(a.Length, b.Length);
    AndEachByte(dst, a, b, 0, n, a[..], b[..]);
  }

  /** Eight bytes of each operand, combined as words and taken apart again. */
  method AndEight(x0: bv8, x1: bv8, x2: bv8, x3: bv8, x4: bv8, x5: bv8, x6: bv8, x7: bv8,
                  y0: bv8, y1: bv8, y2: bv8, y3: bv8, y4: bv8, y5: bv8, y6: bv8, y7: bv8)
      returns (r0: bv8, r1: bv8, r2: bv8, r3: bv8, r4: bv8, r5: bv8, r6: bv8, r7: bv8)
    ensures r0 == x0 & y0 && r1 == x1 & y1 && r2 == x2 & y2 && r3 == x3 & y3
    ensures r4 == x4 & y4 && r5 == x5 & y5 && r6 == x6 & y6 && r7 == x7 & y7
  {
    var w := Word(x0, x1, x2, x3, x4, x5, x6, x7) & Word(y0, y1, y2, y3, y4, y5, y6, y7);
    AndWord(x0, x1, x2, x3, x4, x5, x6, x7, y0, y1, y2, y3, y4, y5, y6, y7);
    WordBytes(x0 & y0, x1 & y1, x2 & y2, x3 & y3, x4 & y4, x5 & y5, x6 & y6, x7 & y7);
    r0, r1, r2, r3 := ByteOf(w, 0), ByteOf(w, 1), ByteOf(w, 2), ByteOf(w, 3);
    r4, r5, r6, r7 := ByteOf(w, 4), ByteOf(w, 5), ByteOf(w, 6), ByteOf(w, 7);
  }

  method AndWords(x: Bytes, y: Bytes) returns (r: Bytes)
    requires |x| == WORD_SIZE && |y| == WORD_SIZE
    ensures r == AndBytes(x, y)
  {
    var r0, r1, r2, r3, r4, r5, r6, r7 :=
      AndEight(x[0], x[1], x[2], x[3], x[4], x[5], x[6], x[7], y[0], y[1], y[2], y[3], y[4], y[5], y[6], y[7]);
    r := [r0, r1, r2, r3, r4, r5, r6, r7];
    forall k: nat | k < WORD_SIZE ensures r[k] == AndBytes(x, y)[k] { AtEach((a: bv8, b: bv8) => a & b, x, y, r, k); }
  }

  lemma AndSlice(x: Bytes, y: Bytes, p: nat, r: Bytes)
    requires p + 8 <= |x| && p + 8 <= |y| && r == AndBytes(x[p..p + 8], y[p..p + 8])
    ensures forall j :: p <= j < p + 8 ==> r[j - p] == AndBytes(x, y)[j]
  {
    forall j | p <= j < p + 8 ensures r[j - p] == AndBytes(x, y)[j] {
      assert x[p..p + 8][j - p] == x[j] && y[p..p + 8][j - p] == y[j];
    }
  }

  method AndOneWord(dst: array<bv8>, a: array<bv8>, b: array<bv8>, p: nat, ghost x: Bytes, ghost y: Bytes)
    requires p + 8 <= dst.Length && Still(a, x, p, p + 8) && Still(b, y, p, p + 8)
    modifies dst
    ensures forall j :: p <= j < p + 8 ==> dst[j] == AndBytes(x, y)[j]
    ensures forall j :: 0 <= j < dst.Length && !(p <= j < p + 8) ==> dst[j] == old(dst[j])
  {
    assert a[p..p + 8] == x[p..p + 8] && b[p..p + 8] == y[p..p + 8];
    var r := AndWords(a[p..p + 8], b[p..p + 8]);
    StoreWord(dst, p, r);
    AndSlice(x, y, p, r);
  }

  method FastANDWords(dst: array<bv8>, a: array<bv8>, b: array<bv8>, n: nat, ghost x: Bytes, ghost y: Bytes) returns (p: nat)
    requires n <= dst.Length && Still(a, x, 0, n) && Still(b, y, 0, n)
    modifies dst
    ensures p == n - n % WORD_SIZE && Still(a, x, p, n) && Still(b, y, p, n)
    ensures forall j :: 0 <= j < p ==> dst[j] == AndBytes(x, y)[j]
    ensures forall j :: p <= j < dst.Length ==> dst[j] == old(dst[j])
  {
    p := 0;
    for i := 0 to n / WORD_SIZE
      invariant p == 8 * i && Still(a, x, p, n) && Still(b, y, p, n)
      invariant forall j :: 0 <= j < p ==> dst[j] == AndBytes(x, y)[j]
      invariant forall j :: p <= j < dst.Length ==> dst[j] == old(dst[j])
    {
      AndOneWord(dst, a, b, p, x, y);
      p := p + 8;
    }
  }

  /** Whole words first, then the bytes behind them. */
  method FastANDBytes(dst: array<bv8>, a: array<bv8>, b: array<bv8>) returns (n: nat)
    requires Min(a.Length, b.Length) <= dst.Length
    modifies dst
    ensures n == Min(a.Length, b.Length)
    ensures dst[..n] == AndBytes(old(a[..]), old(b[..])) && dst[n..] == old(dst[n..])
  {
    n := Min(a.Length, b.Length);
    ghost var x, y := a[..], b[..];
    var p := FastANDWords(dst, a, b, n, x, y);
    AndEachByte(dst, a, b, p, n, x, y);
  }

  // ---------------------------------------------------------------- OR

  /** Bytes `from` to `to`, one by one. The operands held `x` and `y` at first and still do there. */
  method OrEachByte(dst: array<bv8>, a: array<bv8>, b: array<bv8>, from: nat, to: nat, ghost x: Bytes, ghost y: Bytes)
    requires from <= to <= dst.Length && Still(a, x, from, to) && Still(b, y, from, to)
    modifies dst
    ensures forall j :: from <= j < to ==> dst[j] == OrBytes(x, y)[j]
    ensures forall j :: 0 <= j < dst.Length && !(from <= j < to) ==> dst[j] == old(dst[j])
  {
    for i := from to to
      invariant forall j :: from <= j < i ==> dst[j] == OrBytes(x, y)[j]
      invariant forall j :: 0 <= j < dst.Length && !(from <= j < i) ==> dst[j] == old(dst[j])
      invariant Still(a, x, i, to) && Still(b, y, i, to)
    {
      dst[i] := a[i] | b[i];
    }
  }

  method SafeORBytes(dst: array<bv8>, a: array<bv8>, b: array<bv8>) returns (n: nat)
    requires Min(a.Length, b.Length) <= dst.Length
    modifies dst
    ensures n == Min(a.Length, b.Length)
    ensures dst[..n] == OrBytes(old(a[..]), old(b[..])) && dst[n..] == old(dst[n..])
  {
    n := Min(a.Length, b.Length);
    OrEachByte(dst, a, b, 0, n, a[..], b[..]);
  }

  /** Eight bytes of each operand, combined as words and taken apart again. */
  method OrEight(x0: bv8, x1: bv8, x2: bv8, x3: bv8, x4: bv8, x5: bv8, x6: bv8, x7: bv8,
                  y0: bv8, y1: bv8, y2: bv8, y3: bv8, y4: bv8, y5: bv8, y6: bv8, y7: bv8)
      returns (r0: bv8, r1: bv8, r2: bv8, r3: bv8, r4: bv8, r5: bv8, r6: bv8, r7: bv8)
    ensures r0 == x0 | y0 && r1 == x1 | y1 && r2 == x2 | y2 && r3 == x3 | y3
    ensures r4 == x4 | y4 && r5 == x5 | y5 && r6 == x6 | y6 && r7 == x7 | y7
  {
    var w := Word(x0, x1, x2, x3, x4, x5, x6, x7) | Word(y0, y1, y2, y3, y4, y5, y6, y7);
    OrWord(x0, x1, x2, x3, x4, x5, x6, x7, y0, y1, y2, y3, y4, y5, y6, y7);
    WordBytes(x0 | y0, x1 | y1, x2 | y2, x3 | y3, x4 | y4, x5 | y5, x6 | y6, x7 | y7);
    r0, r1, r2, r3 := ByteOf(w, 0), ByteOf(w, 1), ByteOf(w, 2), ByteOf(w, 3);
    r4, r5, r6, r7 := ByteOf(w, 4), ByteOf(w, 5), ByteOf(w, 6), ByteOf(w, 7);
  }

  method OrWords(x: Bytes, y: Bytes) returns (r: Bytes)
    requires |x| == WORD_SIZE && |y| == WORD_SIZE
    ensures r == OrBytes(x, y)
  {
    var r0, r1, r2, r3, r4, r5, r6, r7 :=
      OrEight(x[0], x[1], x[2], x[3], x[4], x[5], x[6], x[7], y[0], y[1], y[2], y[3], y[4], y[5], y[6], y[7]);
    r := [r0, r1, r2, r3, r4, r5, r6, r7];
    forall k: nat | k < WORD_SIZE ensures r[k] == OrBytes(x, y)[k] { AtEach((a: bv8, b: bv8) => a | b, x, y, r, k); }
  }

  lemma OrSlice(x: Bytes, y: Bytes, p: nat, r: Bytes)
    requires p + 8 <= |x| && p + 8 <= |y| && r == OrBytes(x[p..p + 8], y[p..p + 8])
    ensures forall j :: p <= j < p + 8 ==> r[j - p] == OrBytes(x, y)[j]
  {
    forall j | p <= j < p + 8 ensures r[j - p] == OrBytes(x, y)[j] {
      assert x[p..p + 8][j - p] == x[j] && y[p..p + 8][j - p] == y[j];
    }
  }

  method OrOneWord(dst: array<bv8>, a: array<bv8>, b: array<bv8>, p: nat, ghost x: Bytes, ghost y: Bytes)
    requires p + 8 <= dst.Length && Still(a, x, p, p + 8) && Still(b, y, p, p + 8)
    modifies dst
    ensures forall j :: p <= j < p + 8 ==> dst[j] == OrBytes(x, y)[j]
    ensures forall j :: 0 <= j < dst.Length && !(p <= j < p + 8) ==> dst[j] == old(dst[j])
  {
    assert a[p..p + 8] == x[p..p + 8] && b[p..p + 8] == y[p..p + 8];
    var r := OrWords(a[p..p + 8], b[p..p + 8]);
    StoreWord(dst, p, r);
    OrSlice(x, y, p, r);
  }

  method FastORWords(dst: array<bv8>, a: array<bv8>, b: array<bv8>, n: nat, ghost x: Bytes, ghost y: Bytes) returns (p: nat)
    requires n <= dst.Length && Still(a, x, 0, n) && Still(b, y, 0, n)
    modifies dst
    ensures p == n - n % WORD_SIZE && Still(a, x, p, n) && Still(b, y, p, n)
    ensures forall j :: 0 <= j < p ==> dst[j] == OrBytes(x, y)[j]
    ensures forall j :: p <= j < dst.Length ==> dst[j] == old(dst[j])
  {
    p := 0;
    for i := 0 to n / WORD_SIZE
      invariant p == 8 * i && Still(a, x, p, n) && Still(b, y, p, n)
      invariant forall j :: 0 <= j < p ==> dst[j] == OrBytes(x, y)[j]
      invariant forall j :: p <= j < dst.Length ==> dst[j] == old(dst[j])
    {
      OrOneWord(dst, a, b, p, x, y);
      p := p + 8;
    }
  }

  /** Whole words first, then the bytes behind them. */
  method FastORBytes(dst: array<bv8>, a: array<bv8>, b: array<bv8>) returns (n: nat)
    requires Min(a.Length, b.Length) <= dst.Length
    modifies dst
    ensures n == Min(a.Length, b.Length)
    ensures dst[..n] == OrBytes(old(a[..]), old(b[..])) && dst[n..] == old(dst[n..])
  {
    n := Min(a.Length, b.Length);
    ghost var x, y := a[..], b[..];
    var p := FastORWords(dst, a, b, n, x, y);
    OrEachByte(dst, a, b, p, n, x, y);
  }

  // ---------------------------------------------------------------- test

  method SafeTestBytes(p: array<bv8>) returns (some: bool)
    ensures some <==> !AllZero(p[..])
  {
    for i := 0 to p.Length
      invariant forall j :: 0 <= j < i ==> p[j] == 0
    {
      if p[i] != 0 { return true; }
    }
    return false;
  }

  method WordIsZero(b0: bv8, b1: bv8, b2: bv8, b3: bv8, b4: bv8, b5: bv8, b6: bv8, b7: bv8) returns (zero: bool)
    ensures zero <==> b0 == 0 && b1 == 0 && b2 == 0 && b3 == 0 && b4 == 0 && b5 == 0 && b6 == 0 && b7 == 0
  {
    ZeroWord(b0, b1, b2, b3, b4, b5, b6, b7);
    return Word(b0, b1, b2, b3, b4, b5, b6, b7) == 0;
  }

  method FastTestBytes(p: array<bv8>) returns (some: bool)
    ensures some <==> !AllZero(p[..])
  {
    var n, w := p.Length, p.Length / WORD_SIZE;
    for i := 0 to w
      invariant forall j :: 0 <= j < 8 * i ==> p[j] == 0
    {
      var zero := WordIsZero(p[8 * i], p[8 * i + 1], p[8 * i + 2], p[8 * i + 3], p[8 * i + 4], p[8 * i + 5], p[8 * i + 6], p[8 * i + 7]);
      if !zero { return true; }
    }
    for i := n - n % WORD_SIZE to n
      invariant forall j :: 0 <= j < i ==> p[j] == 0
    {
      if p[i] != 0 { return true; }
    }
    return false;
  }
}
