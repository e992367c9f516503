/** blockchain/types/bloom9.go: the 2048-bit bloom of a block, three bits per key. A key is given by its
    Keccak digest. A natural number of math/big is modelled by the set of its one bits, so Or is union,
    And is intersection, 1 << b is {b} and equal numbers are equal sets. */
module Bloom {
  import opened Bits

  const BLOOM_BYTES := 256
  const BLOOM_BITS := 2048

  type Bloom = b: Bytes | |b| == BLOOM_BYTES witness Zeros(BLOOM_BYTES)

  predicate IsDigest(h: seq<nat>) {
    |h| == 32 && forall i :: 0 <= i < |h| ==> h[i] < 256
  }

  type Digest = h: seq<nat> | IsDigest(h) witness seq(32, _ => 0)

  type Big = set<nat>

  /** Bit `i` of a bloom or of any number given by its bytes, counted from the last byte upwards. */
  predicate BigBit(d: Bytes, i: nat)
    requires i < 8 * |d|
  {
    Bit(d[|d| - 1 - i / 8], 7 - i % 8)
  }

  /** SetBytes of math/big. */
  function FromBytes(d: Bytes): (s: Big)
    ensures forall i: nat :: i in s <==> i < 8 * |d| && BigBit(d, i)
  {
    set i: nat | i < 8 * |d| && BigBit(d, i)
  }

  // ---------------------------------------------------------------- keys

  /** The index bloom9 computes from the bytes at i and i + 1. */
  function Index(h: Digest, i: nat): (r: nat)
    requires i + 1 < 32
    ensures r < BLOOM_BITS
  {
    (h[i + 1] + h[i] * 256) % 2048
  }

  /** The index calcBloomIndexes of blockchain/bloombits/matcher.go computes. */
  function CalcIndex(h: Digest, i: nat): (r: nat)
    requires i < 3
    ensures r == Index(h, 2 * i)
  {
    SameIndex(h[2 * i], h[2 * i + 1]);
    h[2 * i] * 256 % 2048 + h[2 * i + 1]
  }

  lemma Modulo2048(x: int, q: int, r: int)
    requires x == q * 2048 + r && 0 <= r < 2048
    ensures x % 2048 == r
  {
  }

  lemma SameIndex(hi: nat, lo: nat)
    requires lo < 256
    ensures hi * 256 % 2048 + lo == (lo + hi * 256) % 2048
  {
    var q, r := hi / 8, hi % 8;
    assert hi == 8 * q + r;
    Modulo2048(hi * 256, q, r * 256);
    Modulo2048(lo + hi * 256, q, r * 256 + lo);
  }

  function Bloom9(h: Digest): Big {
    {Index(h, 0), Index(h, 2), Index(h, 4)}
  }

  /** Bit `b` is the low eleven bits of byte pair `k` of the digest, the first byte being the high one. */
  predicate FromPair(h: Digest, k: nat, b: nat)
    requires k < 16
  {
    b % 256 == h[2 * k + 1] && b / 256 == h[2 * k] % 8
  }

  lemma IndexIsPair(h: Digest, k: nat, b: nat)
    requires k < 16
    ensures b == Index(h, 2 * k) <==> FromPair(h, k, b)
  {
    var hi, lo := h[2 * k], h[2 * k + 1];
    var q, r := hi / 8, hi % 8;
    assert hi == 8 * q + r;
    Modulo2048(lo + hi * 256, q, r * 256 + lo);
    if FromPair(h, k, b) { assert b == b / 256 * 256 + b % 256; }
  }

  /** The bits of a key are those of the first three byte pairs of its digest. */
  lemma Bloom9Bits(h: Digest, b: nat)
    ensures b in Bloom9(h) <==> FromPair(h, 0, b) || FromPair(h, 1, b) || FromPair(h, 2, b)
  {
    IndexIsPair(h, 0, b);
    IndexIsPair(h, 1, b);
    IndexIsPair(h, 2, b);
  }

  method ComputeBloom9(h: Digest) returns (r: Big)
    ensures r == Bloom9(h)
  {
    r := {};
    var i := 0;
    while i < 6
      invariant i == 0 || i == 2 || i == 4 || i == 6
      invariant r == set k | k in [0, 2, 4] && k < i :: Index(h, k)
    {
      r := r + {Index(h, i)};
      i := i + 2;
    }
    assert 0 in [0, 2, 4] && 2 in [0, 2, 4] && 4 in [0, 2, 4];
  }

  /** BloomLookup: the And with the three bits gives the three bits back. */
  predicate Lookup(bin: Bloom, h: Digest) {
    FromBytes(bin) * Bloom9(h) == Bloom9(h)
  }

  /** A lookup succeeds exactly when the three bits the matcher asks for are set. */
  lemma LookupIffBits(bin: Bloom, h: Digest)
    ensures Lookup(bin, h) <==> BigBit(bin, CalcIndex(h, 0)) && BigBit(bin, CalcIndex(h, 1)) && BigBit(bin, CalcIndex(h, 2))
  {
    assert Lookup(bin, h) <==> Bloom9(h) <= FromBytes(bin);
    assert Bloom9(h) <= FromBytes(bin) <==> Index(h, 0) in FromBytes(bin) && Index(h, 2) in FromBytes(bin) && Index(h, 4) in FromBytes(bin);
  }

  // ---------------------------------------------------------------- adding a key

  /** The byte that holds bits 8 * j to 8 * j + 7. */
  function PackByte(s: Big, j: nat): bv8 {
    (if 8 * j + 7 in s then 0x80 else 0) | (if 8 * j + 6 in s then 0x40 else 0) |
    (if 8 * j + 5 in s then 0x20 else 0) | (if 8 * j + 4 in s then 0x10 else 0) |
    (if 8 * j + 3 in s then 0x08 else 0) | (if 8 * j + 2 in s then 0x04 else 0) |
    (if 8 * j + 1 in s then 0x02 else 0) | (if 8 * j in s then 0x01 else 0)
  }

  lemma PackedBit(s: Big, j: nat, r: nat)
    requires r < 8
    ensures Bit(PackByte(s, j), 7 - r) <==> 8 * j + r in s
  {
  }

  function Padded(s: Big, n: nat): (d: Bytes)
    ensures |d| == n
  {
    seq(n, i requires 0 <= i < n => PackByte(s, n - 1 - i))
  }

  /** Bytes of math/big: big-endian without leading zero bytes, for a number below 2^(8 * n). */
  function ToBytes(s: Big, n: nat): (d: Bytes)
    ensures |d| <= n
  {
    if n == 0 then [] else if PackByte(s, n - 1) != 0 then Padded(s, n) else ToBytes(s, n - 1)
  }

  predicate Below(s: Big, n: nat) {
    forall i :: i in s ==> i < n
  }

  lemma {:induction false} ToBytesShape(s: Big, n: nat)
    requires Below(s, 8 * n)
    ensures ToBytes(s, n) == Padded(s, |ToBytes(s, n)|) && Below(s, 8 * |ToBytes(s, n)|)
  {
    if n > 0 && PackByte(s, n - 1) == 0 {
      forall i | i in s ensures i < 8 * (n - 1) {
        PackedBit(s, n - 1, i % 8);
        ZeroHasNoBit(7 - i % 8);
      }
      ToBytesShape(s, n - 1);
    }
  }

  lemma PaddedBit(s: Big, n: nat, i: nat)
    requires i < 8 * n
    ensures BigBit(Padded(s, n), i) <==> i in s
  {
    PackedBit(s, i / 8, i % 8);
  }

  /** Writing the bytes of a number and reading them back. */
  lemma BytesRoundTrip(s: Big, n: nat)
    requires Below(s, 8 * n)
    ensures FromBytes(ToBytes(s, n)) == s
  {
    ToBytesShape(s, n);
    forall i: nat | i < 8 * |ToBytes(s, n)| ensures BigBit(ToBytes(s, n), i) <==> i in s {
      PaddedBit(s, |ToBytes(s, n)|, i);
    }
  }

  /** SetBytes of Bloom: the bytes are copied to the end, the bytes in front of them stay. */
  function SetBytes(b: Bloom, d: Bytes): Bloom
    requires |d| <= BLOOM_BYTES
  {
    b[..BLOOM_BYTES - |d|] + d
  }

  function Add(b: Bloom, h: Digest): Bloom {
    SetBytes(b, ToBytes(FromBytes(b) + Bloom9(h), BLOOM_BYTES))
  }

  /** Reading a bloom back after its bytes were set to a number that has all its old bits. */
  lemma SetBytesBit(b: Bloom, s: Big, i: nat)
    requires FromBytes(b) <= s && Below(s, BLOOM_BITS) && i < BLOOM_BITS
    ensures BigBit(SetBytes(b, ToBytes(s, BLOOM_BYTES)), i) <==> i in s
  {
    var d := ToBytes(s, BLOOM_BYTES);
    var c := SetBytes(b, d);
    ToBytesShape(s, BLOOM_BYTES);
    if i < 8 * |d| {
      assert c[255 - i / 8] == d[|d| - 1 - i / 8];
      PaddedBit(s, |d|, i);
    } else {
      assert c[255 - i / 8] == b[255 - i / 8];
      assert BigBit(c, i) <==> i in FromBytes(b);
    }
  }

  /** Although SetBytes leaves the leading bytes as they were, Add sets exactly the three bits. */
  lemma AddSetsThreeBits(b: Bloom, h: Digest)
    ensures FromBytes(Add(b, h)) == FromBytes(b) + Bloom9(h)
  {
    var s := FromBytes(b) + Bloom9(h);
    forall i: nat | i < BLOOM_BITS ensures BigBit(Add(b, h), i) <==> i in s {
      SetBytesBit(b, s, i);
    }
  }

  /** No false negatives: an added key is found, and no key is lost by adding another. */
  lemma NoFalseNegatives(b: Bloom, h: Digest, g: Digest)
    ensures Lookup(Add(b, h), h)
    ensures Lookup(b, g) ==> Lookup(Add(b, h), g)
  {
    AddSetsThreeBits(b, h);
  }

  // ---------------------------------------------------------------- the bloom of a list of logs

  /** A log by the digests of its address and its topics. */
  datatype Log = Log(address: Digest, topics: seq<Digest>)

  /** All addresses and topics of the logs, in order. */
  function KeysOf(logs: seq<Log>): seq<Digest>
    decreases |logs|
  {
    if logs == [] then []
    else var log := logs[|logs| - 1]; KeysOf(logs[..|logs| - 1]) + [log.address] + log.topics
  }

  function AllBits(keys: seq<Digest>): Big
    decreases |keys|
  {
    if keys == [] then {} else AllBits(keys[..|keys| - 1]) + Bloom9(keys[|keys| - 1])
  }

  lemma OneMoreKey(keys: seq<Digest>, h: Digest)
    ensures AllBits(keys + [h]) == AllBits(keys) + Bloom9(h)
  {
    assert (keys + [h])[..|keys|] == keys;
  }

  /** The inner loop over the topics of one log. */
  method AddTopics(before: Big, topics: seq<Digest>, ghost keys: seq<Digest>) returns (bin: Big)
    requires before == AllBits(keys)
    ensures bin == AllBits(keys + topics)
  {
    bin := before;
    assert keys + topics[..0] == keys;
    for j := 0 to |topics|
      invariant bin == AllBits(keys + topics[..j])
    {
      bin := bin + Bloom9(topics[j]);
      OneMoreKey(keys + topics[..j], topics[j]);
      assert keys + topics[..j + 1] == keys + topics[..j] + [topics[j]];
    }
    assert topics[..|topics|] == topics;
  }

  predicate HasBit(log: Log, b: nat) {
    b in Bloom9(log.address) || exists j :: 0 <= j < |log.topics| && b in Bloom9(log.topics[j])
  }

  lemma {:induction false} MoreBits(keys: seq<Digest>, topics: seq<Digest>, b: nat)
    ensures b in AllBits(keys + topics) <==> b in AllBits(keys) || exists j :: 0 <= j < |topics| && b in Bloom9(topics[j])
    decreases |topics|
  {
    if topics == [] {
      assert keys + topics == keys;
    } else {
      var n := |topics| - 1;
      MoreBits(keys, topics[..n], b);
      assert keys + topics == keys + topics[..n] + [topics[n]];
      OneMoreKey(keys + topics[..n], topics[n]);
      assert (exists j :: 0 <= j < |topics| && b in Bloom9(topics[j])) <==>
             (exists j :: 0 <= j < n && b in Bloom9(topics[..n][j])) || b in Bloom9(topics[n]);
    }
  }

  lemma LastHasBit(logs: seq<Log>, b: nat)
    requires logs != []
    ensures var front := logs[..|logs| - 1];
            (exists i :: 0 <= i < |logs| && HasBit(logs[i], b)) <==>
              (exists i :: 0 <= i < |front| && HasBit(front[i], b)) || HasBit(logs[|front|], b)
  {
    var front := logs[..|logs| - 1];
    if i :| 0 <= i < |front| && HasBit(front[i], b) { assert HasBit(logs[i], b); }
    if i :| 0 <= i < |logs| && HasBit(logs[i], b) && i < |front| { assert HasBit(front[i], b); }
  }

  /** The bits of the logs are those of an address or a topic of one of them. */
  lemma {:induction false} LoggedBits(logs: seq<Log>, b: nat)
    ensures b in AllBits(KeysOf(logs)) <==> exists i :: 0 <= i < |logs| && HasBit(logs[i], b)
    decreases |logs|
  {
    if logs != [] {
      var n := |logs| - 1;
      var keys := KeysOf(logs[..n]);
      LoggedBits(logs[..n], b);
      OneMoreKey(keys, logs[n].address);
      MoreBits(keys + [logs[n].address], logs[n].topics, b);
      LastHasBit(logs, b);
    }
  }

  method LogsBloom(logs: seq<Log>) returns (bin: Big)
    ensures forall b: nat :: b in bin <==> exists i :: 0 <= i < |logs| && HasBit(logs[i], b)
  {
    bin := {};
    for i := 0 to |logs|
      invariant bin == AllBits(KeysOf(logs[..i]))
    {
      ghost var keys := KeysOf(logs[..i]);
      bin := bin + Bloom9(logs[i].address);
      OneMoreKey(keys, logs[i].address);
      bin := AddTopics(bin, logs[i].topics, keys + [logs[i].address]);
      assert logs[..i + 1][..i] == logs[..i];
    }
    assert logs[..|logs|] == logs;
    forall b: nat ensures b in bin <==> exists i :: 0 <= i < |logs| && HasBit(logs[i], b) {
      LoggedBits(logs, b);
    }
  }

  /** The address and every topic of every log are found in a bloom that has the bits of the logs. */
  lemma LoggedKeysAreFound(logs: seq<Log>, b: Bloom, i: nat)
    requires i < |logs| && AllBits(KeysOf(logs)) <= FromBytes(b)
    ensures Lookup(b, logs[i].address)
    ensures forall j :: 0 <= j < |logs[i].topics| ==> Lookup(b, logs[i].topics[j])
  {
    forall x | x in Bloom9(logs[i].address) ensures x in FromBytes(b) {
      LoggedBits(logs, x);
      assert HasBit(logs[i], x);
    }
    forall j | 0 <= j < |logs[i].topics| ensures Lookup(b, logs[i].topics[j]) {
      forall x | x in Bloom9(logs[i].topics[j]) ensures x in FromBytes(b) {
        LoggedBits(logs, x);
        assert HasBit(logs[i], x);
      }
    }
  }
}
