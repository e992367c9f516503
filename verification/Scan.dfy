/** The loop of Matcher.Start in blockchain/bloombits/matcher.go that turns the bit vector of a section into
    block numbers, skipping a byte at a time. */
module Scan {
  import opened Bits

  /** The bits of a vector, one for each block of the section. */
  function BitsOf(v: Bytes): (bits: seq<bool>)
    ensures |bits| == 8 * |v|
  {
    seq(8 * |v|, k requires 0 <= k < 8 * |v| => BitAt(v, k))
  }

  /** Bit `j` of byte `q` is set. */
  predicate InByte(bits: seq<bool>, q: nat, j: nat) {
    8 * q + j < |bits| && bits[8 * q + j]
  }

  /** The byte of block `k` is zero. */
  predicate Blank(bits: seq<bool>, k: nat) {
    forall j: nat :: j < 8 ==> !InByte(bits, k / 8, j)
  }

  /** A set block is outside a zero byte. */
  lemma NotInBlank(bits: seq<bool>, k: nat, n: nat)
    requires n < |bits| && bits[n] && Blank(bits, k)
    ensures n < 8 * (k / 8) || n >= 8 * (k / 8) + 8
  {
    if n / 8 == k / 8 { assert InByte(bits, k / 8, n % 8); }
  }

  lemma NotBlankHere(bits: seq<bool>, k: nat, n: nat)
    requires n < |bits| && bits[n] && n / 8 == k / 8
    ensures !Blank(bits, k)
  {
    assert InByte(bits, k / 8, n % 8);
  }

  /** The blocks of the section the loop emits from block `k` on; `last` may be negative. */
  function ScanFrom(bits: seq<bool>, k: nat, last: int): seq<nat>
    requires last < |bits|
    decreases last - k + 1
  {
    if k > last then []
    else if Blank(bits, k) then ScanFrom(bits, k + 8, last)
    else if bits[k] then [k] + ScanFrom(bits, k + 1, last)
    else ScanFrom(bits, k + 1, last)
  }

  predicate Ascending(s: seq<nat>) {
    forall i, j :: 0 <= i < j < |s| ==> s[i] < s[j]
  }

  /** The blocks come in strictly ascending order. */
  lemma {:induction false} ScanAscends(bits: seq<bool>, k: nat, last: int)
    requires last < |bits|
    ensures Ascending(ScanFrom(bits, k, last))
    decreases last - k + 1
  {
    if k <= last {
      if Blank(bits, k) {
        ScanAscends(bits, k + 8, last);
      } else {
        ScanAscends(bits, k + 1, last);
        var rest := ScanFrom(bits, k + 1, last);
        forall i | 0 <= i < |rest| ensures k < rest[i] { ScanIsSound(bits, k + 1, last, rest[i]); }
      }
    }
  }

  /** Whatever the first block is, only blocks that are set are emitted. */
  lemma {:induction false} ScanIsSound(bits: seq<bool>, k: nat, last: int, n: nat)
    requires last < |bits| && n in ScanFrom(bits, k, last)
    ensures k <= n <= last && bits[n]
    decreases last - k + 1
  {
    if Blank(bits, k) {
      ScanIsSound(bits, k + 8, last, n);
    } else if n != k || !bits[k] {
      ScanIsSound(bits, k + 1, last, n);
    }
  }

  /** From a block that begins a byte, or lies in a byte that is not zero, no set block is passed over. */
  lemma {:induction false} ScanIsComplete(bits: seq<bool>, k: nat, last: int, n: nat)
    requires last < |bits| && (k % 8 == 0 || !Blank(bits, k))
    requires k <= n <= last && bits[n]
    ensures n in ScanFrom(bits, k, last)
    decreases last - k + 1
  {
    if Blank(bits, k) {
      NotInBlank(bits, k, n);
      ScanIsComplete(bits, k + 8, last, n);
    } else if n != k {
      assert (k + 1) % 8 == 0 || (k + 1) / 8 == k / 8;
      ScanIsComplete(bits, k + 1, last, n);
    }
  }

  /** No set block between first and last is passed over. */
  ghost predicate Complete(bits: seq<bool>, first: nat, last: int)
    requires last < |bits|
  {
    forall n: nat :: first <= n <= last && bits[n] ==> n in ScanFrom(bits, first, last)
  }

  /** The skip is exact for every vector if and only if the first block begins a byte or the range ends
      within the byte it starts in. */
  lemma CompleteIff(size: nat, first: nat, last: int)
    requires size % 8 == 0 && last < size
    ensures (forall bits: seq<bool> :: |bits| == size ==> Complete(bits, first, last)) <==>
              first % 8 == 0 || last < 8 * (first / 8 + 1)
  {
    if first % 8 == 0 || last < 8 * (first / 8 + 1) {
      forall bits: seq<bool> | |bits| == size ensures Complete(bits, first, last) {
        forall n: nat | first <= n <= last && bits[n] ensures n in ScanFrom(bits, first, last) {
          if first % 8 != 0 { NotBlankHere(bits, first, n); }
          ScanIsComplete(bits, first, last, n);
        }
      }
    } else {
      UnalignedMisses(size, first, last);
    }
  }

  function OnlySet(size: nat, n: nat): seq<bool> {
    seq(size, k => k == n)
  }

  /** The block that is lost: the first one of the byte after a zero byte entered in its middle. */
  lemma UnalignedMisses(size: nat, first: nat, last: int)
    requires last < size && first % 8 != 0 && last >= 8 * (first / 8 + 1)
    ensures var n := 8 * (first / 8 + 1);
            OnlySet(size, n)[n] && !Complete(OnlySet(size, n), first, last)
  {
    var n := 8 * (first / 8 + 1);
    var bits := OnlySet(size, n);
    forall j: nat | j < 8 ensures !InByte(bits, first / 8, j) { }
    if n in ScanFrom(bits, first + 8, last) { ScanIsSound(bits, first + 8, last, n); }
  }

  // ---------------------------------------------------------------- the loop

  lemma BlankIsZero(v: Bytes, k: nat)
    requires k < 8 * |v|
    ensures Blank(BitsOf(v), k) <==> v[k / 8] == 0
  {
    var bits, q := BitsOf(v), k / 8;
    if v[q] == 0 {
      forall j: nat | j < 8 ensures !InByte(bits, q, j) {
        ZeroHasNoBit(j);
        assert (8 * q + j) / 8 == q && (8 * q + j) % 8 == j;
      }
    } else {
      NonZeroHasBit(v[q]);
      var b: nat :| b < 8 && Bit(v[q], b);
      assert (8 * q + b) / 8 == q && (8 * q + b) % 8 == b;
      assert InByte(bits, q, b);
    }
  }

  lemma BitHere(v: Bytes, start: nat, i: nat)
    requires start % 8 == 0 && start <= i < start + 8 * |v|
    ensures BitsOf(v)[i - start] <==> v[(i - start) / 8] & Mask(i % 8) != 0
  {
    assert (i - start) % 8 == i % 8;
  }

  function Shift(s: seq<nat>, start: nat): (r: seq<nat>)
    ensures |r| == |s| && forall i :: 0 <= i < |s| ==> r[i] == start + s[i]
  {
    seq(|s|, i requires 0 <= i < |s| => start + s[i])
  }

  /** What the loop sends from block `k` of the section on. */
  function Sends(bits: seq<bool>, k: nat, end: int, start: nat): seq<nat>
    requires end < |bits|
  {
    Shift(ScanFrom(bits, k, end), start)
  }

  lemma ShiftJoins(a: seq<nat>, b: seq<nat>, start: nat)
    ensures Shift(a + b, start) == Shift(a, start) + Shift(b, start)
  {
  }

  lemma ScanHit(bits: seq<bool>, k: nat, end: int)
    requires k <= end < |bits| && !Blank(bits, k)
    ensures ScanFrom(bits, k, end) == (if bits[k] then [k] else []) + ScanFrom(bits, k + 1, end)
  {
  }

  lemma SendsHit(bits: seq<bool>, k: nat, end: int, start: nat)
    requires k <= end < |bits| && !Blank(bits, k)
    ensures Sends(bits, k, end, start) == (if bits[k] then [start + k] else []) + Sends(bits, k + 1, end, start)
  {
    var here := if bits[k] then [k] else [];
    ScanHit(bits, k, end);
    ShiftJoins(here, ScanFrom(bits, k + 1, end), start);
    assert Shift(here, start) == if bits[k] then [start + k] else [];
  }

  lemma SendsOn(sent: seq<nat>, bits: seq<bool>, k: nat, end: int, start: nat)
    requires k <= end < |bits| && !Blank(bits, k)
    ensures (if bits[k] then sent + [start + k] else sent) + Sends(bits, k + 1, end, start) == sent + Sends(bits, k, end, start)
  {
    SendsHit(bits, k, end, start);
    Regroup(sent, if bits[k] then [start + k] else [], Sends(bits, k + 1, end, start));
  }

  lemma Regroup(a: seq<nat>, b: seq<nat>, c: seq<nat>)
    ensures a + b + c == a + (b + c) && a + [] == a
  {
  }

  lemma SendsSkip(bits: seq<bool>, k: nat, end: int, start: nat)
    requires k <= end < |bits| && Blank(bits, k)
    ensures Sends(bits, k, end, start) == Sends(bits, k + 8, end, start)
  {
  }

  lemma SendsEnd(bits: seq<bool>, k: nat, end: int, start: nat)
    requires end < k && end < |bits|
    ensures Sends(bits, k, end, start) == []
  {
  }

  /** `bits` are the bits of the vector. */
  predicate Shows(v: Bytes, bits: seq<bool>) {
    |bits| == 8 * |v| && forall k {:trigger BitAt(v, k)} :: 0 <= k < |bits| ==> bits[k] == BitAt(v, k)
  }

  /** What the loop tests at block `i`, which is block `k` of the section. */
  method TestBlock(v: Bytes, start: nat, i: nat, ghost bits: seq<bool>, ghost k: nat) returns (zero: bool, hit: bool)
    requires start % 8 == 0 && i == start + k && k < |bits| && Shows(v, bits)
    ensures zero == Blank(bits, k) && hit == bits[k]
  {
    assert bits == BitsOf(v);
    BlankIsZero(v, k);
    BitHere(v, start, i);
    var next := v[(i - start) / 8];
    zero, hit := next == 0, next & Mask(i % 8) != 0;
  }

  /** One round of the loop, at block `i` of the chain and block `k` of the section. */
  method ScanRound(v: Bytes, start: nat, i: nat, sent: seq<nat>, ghost bits: seq<bool>, ghost k: nat, ghost end: int)
      returns (next: nat, out: seq<nat>)
    requires start % 8 == 0 && i == start + k && k <= end < |bits| && Shows(v, bits)
    ensures next > i && out + Sends(bits, next - start, end, start) == sent + Sends(bits, k, end, start)
  {
    var zero, hit := TestBlock(v, start, i, bits, k);
    next, out := i + 1, sent;
    if zero {
      SendsSkip(bits, k, end, start);
      next := i + 8;
    } else {
      SendsOn(sent, bits, k, end, start);
      if hit { out := sent + [i]; }
    }
  }

  /** The loop over the blocks first to last of the section that begins at block `start`. */
  method ScanLoop(v: Bytes, start: nat, first: nat, last: int, ghost bits: seq<bool>) returns (out: seq<nat>)
    requires start % 8 == 0 && start <= first && last < start + |bits| && Shows(v, bits)
    ensures out == Sends(bits, first - start, last - start, start)
  {
    out := [];
    var i := first;
    while i <= last
      invariant i >= first && out + Sends(bits, i - start, last - start, start) == Sends(bits, first - start, last - start, start)
      decreases last - i + 1
    {
      i, out := ScanRound(v, start, i, out, bits, i - start, last - start);
    }
    SendsEnd(bits, i - start, last - start, start);
    assert out + [] == out;
  }

  method ScanSection(v: Bytes, start: nat, first: nat, last: int) returns (out: seq<nat>)
    requires start % 8 == 0 && start <= first && last < start + 8 * |v|
    ensures out == Sends(BitsOf(v), first - start, last - start, start)
  {
    out := ScanLoop(v, start, first, last, BitsOf(v));
  }
}
