/** blockchain/bloombits/generator.go: the blooms of a section, turned round so that each of the 2048 bits
    has one vector with a bit per block. */
module Generator {
  import opened Common
  import opened Bits
  import opened Bloom

  /** The errors of Bitset. */
  datatype Error = NotGenerated | SectionOutOfBounds

  /** Vector `i` of the turned blooms: bit `k` is bit `i` of bloom `k`. */
  ghost predicate IsRotation(v: Bytes, blooms: seq<Bloom>, i: nat)
    requires i < BLOOM_BITS
  {
    8 * |v| == |blooms| && forall k: nat :: k < |blooms| ==> (BitAt(v, k) <==> BigBit(blooms[k], i))
  }

  /** The vectors determine the blooms: two sections of blooms with the same vectors are the same. */
  lemma RotationIsInjective(vectors: seq<Bytes>, a: seq<Bloom>, b: seq<Bloom>)
    requires |vectors| == BLOOM_BITS
    requires forall i: nat :: i < BLOOM_BITS ==> IsRotation(vectors[i], a, i) && IsRotation(vectors[i], b, i)
    ensures a == b
  {
    assert IsRotation(vectors[0], a, 0) && IsRotation(vectors[0], b, 0);
    forall k: nat | k < |a| ensures a[k] == b[k] {
      forall i: nat | i < BLOOM_BITS ensures BigBit(a[k], i) <==> BigBit(b[k], i) {
        assert IsRotation(vectors[i], a, i) && IsRotation(vectors[i], b, i);
      }
      SameBits(a[k], b[k]);
    }
  }

  lemma SameBits(a: Bloom, b: Bloom)
    requires forall i: nat :: i < BLOOM_BITS ==> (BigBit(a, i) <==> BigBit(b, i))
    ensures a == b
  {
    forall j: nat | j < BLOOM_BYTES ensures a[j] == b[j] {
      forall k: nat | k < 8 ensures Bit(a[j], k) <==> Bit(b[j], k) {
        BitOfByte(a, j, k);
        BitOfByte(b, j, k);
      }
      ByteBits(a[j], b[j]);
    }
  }

  lemma BitOfByte(a: Bloom, j: nat, k: nat)
    requires j < BLOOM_BYTES && k < 8
    ensures var i := 8 * (255 - j) + (7 - k); i < BLOOM_BITS && (Bit(a[j], k) <==> BigBit(a, i))
  {
    var i := 8 * (255 - j) + (7 - k);
    assert i / 8 == 255 - j && i % 8 == 7 - k;
  }

  class Generator {
    const blooms: array2<bv8>
    const sections: nat
    var nextBit: nat
    ghost var added: seq<Bloom>

    /** Bit `k` of vector `i`. */
    predicate Column(i: nat, k: nat)
      requires blooms.Length0 == BLOOM_BITS && sections == 8 * blooms.Length1 && i < BLOOM_BITS && k < sections
      reads blooms
    {
      Bit(blooms[i, k / 8], k % 8)
    }

    ghost predicate Valid()
      reads this, blooms
    {
      && blooms.Length0 == BLOOM_BITS && sections == 8 * blooms.Length1
      && nextBit == |added| <= sections
      && forall i: nat, k: nat :: i < BLOOM_BITS && k < sections ==> (Column(i, k) <==> k < |added| && BigBit(added[k], i))
    }

    constructor Create(size: nat)
      requires size % 8 == 0
      ensures Valid() && fresh(blooms) && sections == size && added == []
    {
      sections := size;
      blooms := new bv8[BLOOM_BITS, size / 8]((i, j) => 0);
      nextBit, added := 0, [];
      new;
      forall i: nat, k: nat | i < BLOOM_BITS && k < sections ensures !Column(i, k) { ZeroHasNoBit(k % 8); }
    }

    /** The loop over the bits of a bloom: the byte of each vector whose bit is set gets the mask. */
    method SetBytes(bloom: Bloom, byteIndex: nat, bit: nat)
      requires blooms.Length0 == BLOOM_BITS && byteIndex < blooms.Length1 && bit < 8
      modifies blooms
      ensures forall m: nat, j: nat :: m < BLOOM_BITS && j < blooms.Length1 ==>
                blooms[m, j] == if j == byteIndex && BigBit(bloom, m) then old(blooms[m, j]) | Mask(bit) else old(blooms[m, j])
    {
      for i: nat := 0 to BLOOM_BITS
        invariant forall m: nat, j: nat :: m < BLOOM_BITS && j < blooms.Length1 ==>
                    blooms[m, j] == if m < i && j == byteIndex && BigBit(bloom, m) then old(blooms[m, j]) | Mask(bit) else old(blooms[m, j])
      {
        if bloom[255 - i / 8] & Mask(7 - i % 8) != 0 {
          blooms[i, byteIndex] := blooms[i, byteIndex] | Mask(bit);
        }
      }
    }

    /** The column of one bloom: exactly bit nextBit of the vectors changes. */
    method SetColumn(bloom: Bloom)
      requires blooms.Length0 == BLOOM_BITS && sections == 8 * blooms.Length1 && nextBit < sections
      modifies blooms
      ensures forall i: nat, k: nat :: i < BLOOM_BITS && k < sections ==>
                (Column(i, k) <==> old(Column(i, k)) || (k == nextBit && BigBit(bloom, i)))
    {
      var byteIndex, bit := nextBit / 8, nextBit % 8;
      SetBytes(bloom, byteIndex, bit);
      forall i: nat, k: nat | i < BLOOM_BITS && k < sections
        ensures Column(i, k) <==> old(Column(i, k)) || (k == nextBit && BigBit(bloom, i))
      {
        SetBit(old(blooms[i, k / 8]), bit, k % 8);
      }
    }

    method AddBloom(index: nat, bloom: Bloom) returns (ok: bool)
      requires Valid()
      modifies this`nextBit, this`added, blooms
      ensures Valid() && ok == (old(nextBit) < sections && index == old(nextBit))
      ensures added == if ok then old(added) + [bloom] else old(added)
      ensures !ok ==> forall i: nat, j: nat :: i < BLOOM_BITS && j < blooms.Length1 ==> blooms[i, j] == old(blooms[i, j])
    {
      if nextBit >= sections || nextBit != index { return false; }
      SetColumn(bloom);
      nextBit, added := nextBit + 1, added + [bloom];
      return true;
    }

    /** Only after all blooms were added, and only for an index below the number of blocks in the section. */
    method Bitset(idx: nat) returns (r: Result<Bytes, Error>)
      requires Valid() && idx < BLOOM_BITS
      ensures r.Ok? <==> |added| == sections && idx < sections
      ensures r.Err? ==> r.error == if |added| < sections then NotGenerated else SectionOutOfBounds
      ensures r.Ok? ==> IsRotation(r.value, added, idx)
    {
      if nextBit != sections { return Err(NotGenerated); }
      if idx >= sections { return Err(SectionOutOfBounds); }
      var row := seq(blooms.Length1, j requires 0 <= j < blooms.Length1 reads this, blooms => blooms[idx, j]);
      forall k: nat | k < |added| ensures BitAt(row, k) <==> BigBit(added[k], idx) {
        assert Column(idx, k) <==> BigBit(added[k], idx);
      }
      return Ok(row);
    }
  }

  /** A generator is made exactly for section sizes divisible by eight. */
  method NewGenerator(size: nat) returns (g: Generator?)
    ensures g == null <==> size % 8 != 0
    ensures g != null ==> fresh(g) && g.Valid() && g.sections == size && g.added == []
  {
    if size % 8 != 0 { return null; }
    g := new Generator.Create(size);
  }
}
