/** Bytes and the bit numbering the repository uses on byte vectors: bit `i` of a vector is
    bit `i % 8` of byte `i / 8`, counted from the most significant end. */
module Bits {

  type Bytes = seq<bv8>

  /** The Go expression `1 << byte(7 - k)`, as a table (MaskTable says that it is this shift). */
  function Mask(k: nat): bv8
    requires k < 8
  {
    match k
    case 0 => 0x80
    case 1 => 0x40
    case 2 => 0x20
    case 3 => 0x10
    case 4 => 0x08
    case 5 => 0x04
    case 6 => 0x02
    case _ => 0x01
  }

  predicate Bit(b: bv8, k: nat)
    requires k < 8
  {
    b & Mask(k) != 0
  }

  predicate BitAt(v: Bytes, i: nat)
    requires i < 8 * |v|
  {
    Bit(v[i / 8], i % 8)
  }

  function Zeros(n: nat): (z: Bytes)
    ensures |z| == n && forall i :: 0 <= i < n ==> z[i] == 0
  {
    seq(n, _ => 0)
  }

  predicate AllZero(v: Bytes) {
    forall i :: 0 <= i < |v| ==> v[i] == 0
  }

  lemma MaskTable(k: nat)
    requires k < 8
    ensures Mask(k) == 1 << (7 - k)
    ensures Mask(k) in [0x80, 0x40, 0x20, 0x10, 0x08, 0x04, 0x02, 0x01]
  {
  }

  /** Setting one bit changes that bit and no other. */
  lemma SetBit(b: bv8, k: nat, j: nat)
    requires k < 8 && j < 8
    ensures Bit(b | Mask(k), j) <==> j == k || Bit(b, j)
  {
    MaskTable(k);
    MaskTable(j);
  }

  lemma AndBit(a: bv8, b: bv8, k: nat)
    requires k < 8
    ensures Bit(a & b, k) <==> Bit(a, k) && Bit(b, k)
  {
    MaskTable(k);
  }

  lemma OrBit(a: bv8, b: bv8, k: nat)
    requires k < 8
    ensures Bit(a | b, k) <==> Bit(a, k) || Bit(b, k)
  {
    MaskTable(k);
  }

  lemma ByteBits(a: bv8, b: bv8)
    requires forall k: nat :: k < 8 ==> (Bit(a, k) <==> Bit(b, k))
    ensures a == b
  {
    MaskTable(0); MaskTable(1); MaskTable(2); MaskTable(3);
    MaskTable(4); MaskTable(5); MaskTable(6); MaskTable(7);
    assert Bit(a, 0) <==> Bit(b, 0);
    assert Bit(a, 1) <==> Bit(b, 1);
    assert Bit(a, 2) <==> Bit(b, 2);
    assert Bit(a, 3) <==> Bit(b, 3);
    assert Bit(a, 4) <==> Bit(b, 4);
    assert Bit(a, 5) <==> Bit(b, 5);
    assert Bit(a, 6) <==> Bit(b, 6);
    assert Bit(a, 7) <==> Bit(b, 7);
  }

  lemma ZeroHasNoBit(k: nat)
    requires k < 8
    ensures !Bit(0, k)
  {
  }

  lemma NonZeroHasBit(b: bv8)
    ensures b != 0 ==> exists k: nat :: k < 8 && Bit(b, k)
  {
    if forall k: nat :: k < 8 ==> !Bit(b, k) {
      forall k: nat | k < 8
        ensures Bit(b, k) <==> Bit(0, k)
      {
        ZeroHasNoBit(k);
      }
      ByteBits(b, 0);
    }
  }

  /** A vector is determined by its bits. */
  lemma VectorBits(u: Bytes, v: Bytes)
    requires |u| == |v|
    requires forall i: nat :: i < 8 * |u| ==> (BitAt(u, i) <==> BitAt(v, i))
    ensures u == v
  {
    forall j | 0 <= j < |u|
      ensures u[j] == v[j]
    {
      forall k: nat | k < 8
        ensures Bit(u[j], k) <==> Bit(v[j], k)
      {
        assert BitAt(u, 8 * j + k) <==> BitAt(v, 8 * j + k);
      }
      ByteBits(u[j], v[j]);
    }
  }

  function SetBitAt(v: Bytes, i: nat): (u: Bytes)
    requires i < 8 * |v|
    ensures |u| == |v|
  {
    v[i / 8 := v[i / 8] | Mask(i % 8)]
  }

  lemma SetBitAtBit(v: Bytes, i: nat, j: nat)
    requires i < 8 * |v| && j < 8 * |v|
    ensures BitAt(SetBitAt(v, i), j) <==> j == i || BitAt(v, j)
  {
    SetBit(v[i / 8], i % 8, j % 8);
  }

  lemma ZeroVectorHasNoBit(v: Bytes, i: nat)
    requires AllZero(v) && i < 8 * |v|
    ensures !BitAt(v, i)
  {
    ZeroHasNoBit(i % 8);
  }
}
