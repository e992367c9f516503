/** A session of blockchain/bloombits/matcher.go: the sections of a range pass the chain of sub-matchers in order,
    and the scan of what comes out gives the block numbers. */
module Matcher {
  import opened Bits
  import opened Bloom
  import opened Scan
  import opened Common
  import G = Generator
  import opened Filters

  predicate BlockHit(vec: Vectors, rules: seq<Rule>, size: nat, n: nat) {
    size > 0 && AllHit(vec, rules, n / size, n % size)
  }

  /** The blocks every rule hits. */
  function Hits(vec: Vectors, rules: seq<Rule>, size: nat): nat -> bool {
    (n: nat) => BlockHit(vec, rules, size, n)
  }

  /** `out` lists blocks from `lo` to `hi` in ascending order, only such that are hit, and all of them if
      `all` says so. */
  ghost predicate Lists(out: seq<nat>, hit: nat -> bool, lo: nat, hi: int, all: bool) {
    && Ascending(out)
    && (forall n :: n in out ==> lo <= n <= hi && hit(n))
    && (all ==> forall n: nat :: lo <= n <= hi && hit(n) ==> n in out)
  }

  /** The bits of a section tell the blocks that are hit. */
  ghost predicate Tells(bits: seq<bool>, hit: nat -> bool, start: nat) {
    forall n: nat :: start <= n < start + |bits| ==> (bits[n - start] <==> hit(n))
  }

  // ---------------------------------------------------------------- sections

  function FirstBlock(section: nat, size: nat): nat {
    section * size
  }

  function SectionIndex(n: nat, size: nat): (q: nat)
    requires size > 0
    ensures FirstBlock(q, size) <= n < FirstBlock(q + 1, size)
  {
    n / size
  }

  lemma SectionsRise(a: nat, b: nat, size: nat)
    requires a <= b
    ensures a * size <= b * size
  {
  }

  lemma SideOf(section: nat, end: nat, size: nat)
    requires size > 0
    ensures section <= SectionIndex(end, size) <==> FirstBlock(section, size) <= end
  {
    if section <= end / size { SectionsRise(section, end / size, size); } else { SectionsRise(end / size + 1, section, size); }
  }

  lemma NextBlock(section: nat, size: nat)
    ensures FirstBlock(section + 1, size) == FirstBlock(section, size) + size
  {
  }

  lemma StartAligned(section: nat, size: nat)
    requires size % 8 == 0
    ensures FirstBlock(section, size) % 8 == 0
  {
    assert section * size == 8 * (section * (size / 8));
  }

  lemma AtLeast(a: nat, d: nat)
    requires a > 0
    ensures a * d >= d
  {
  }

  lemma InSection(section: nat, size: nat, start: nat, n: nat)
    requires start == section * size && start <= n < start + size
    ensures n / size == section && n % size == n - start
  {
    var q := n / size;
    if q < section { AtLeast(section - q, size); } else if q > section { AtLeast(q - section, size); }
  }

  lemma HitInSection(vec: Vectors, rules: seq<Rule>, size: nat, section: nat, n: nat)
    requires size > 0 && FirstBlock(section, size) <= n < FirstBlock(section, size) + size
    ensures Hits(vec, rules, size)(n) <==> AllHit(vec, rules, section, n - FirstBlock(section, size))
  {
    InSection(section, size, FirstBlock(section, size), n);
  }

  // ---------------------------------------------------------------- the code on values

  function Max(a: nat, b: nat): nat {
    if a < b then b else a
  }

  function Least(a: int, b: int): int {
    if a < b then a else b
  }

  /** The blocks the results loop sends for what came out of the chain. */
  function Emits(v: Bytes, start: nat, begin: nat, end: nat): seq<nat> {
    EmitsBits(BitsOf(v), start, begin, end)
  }

  function EmitsBits(bits: seq<bool>, start: nat, begin: nat, end: nat): seq<nat> {
    var first, last := Max(begin, start), Least(end, start + |bits| - 1);
    Sends(bits, first - start, last - start, start)
  }

  function EmitsAny(out: Option<Bytes>, start: nat, begin: nat, end: nat): seq<nat> {
    match out
    case None => []
    case Some(v) => Emits(v, start, begin, end)
  }

  /** What becomes of a section that is to pass the given rules. */
  function Yield(vec: Vectors, rules: seq<Rule>, size: nat, begin: nat, end: nat, section: nat, bitset: Bytes): seq<nat> {
    EmitsAny(Through(vec, rules, section, size, bitset), FirstBlock(section, size), begin, end)
  }

  /** What a section comes to that is fed in with every block set. */
  function Yields(vec: Vectors, rules: seq<Rule>, size: nat, begin: nat, end: nat): nat -> seq<nat> {
    (section: nat) => Yield(vec, rules, size, begin, end, section, Ones(size))
  }

  /** The results of the sections from `section` up to `limit`, one after the other. */
  function Concat(part: nat -> seq<nat>, section: nat, limit: nat): seq<nat>
    decreases limit - section
  {
    if section >= limit then [] else part(section) + Concat(part, section + 1, limit)
  }

  /** The results of a session. */
  function Whole(vec: Vectors, rules: seq<Rule>, size: nat, begin: nat, end: nat): seq<nat>
    requires size > 0
  {
    Concat(Yields(vec, rules, size, begin, end), SectionIndex(begin, size), SectionIndex(end, size) + 1)
  }

  // ---------------------------------------------------------------- what the results are

  /** The scan of the blocks first to last passes over nothing that is set. */
  predicate Unbroken(first: nat, last: int) {
    first % 8 == 0 || last < 8 * (first / 8 + 1)
  }

  ghost predicate Finds(found: seq<nat>, bits: seq<bool>, first: nat, last: int, all: bool)
    requires last < |bits|
  {
    && Ascending(found)
    && (forall i :: 0 <= i < |found| ==> first <= found[i] <= last && bits[found[i]])
    && (all ==> forall k: nat :: first <= k <= last && bits[k] ==> k in found)
  }

  lemma ScanFinds(bits: seq<bool>, first: nat, last: int)
    requires last < |bits|
    ensures Finds(ScanFrom(bits, first, last), bits, first, last, Unbroken(first, last))
  {
    var found := ScanFrom(bits, first, last);
    ScanAscends(bits, first, last);
    forall i | 0 <= i < |found| ensures first <= found[i] <= last && bits[found[i]] {
      ScanIsSound(bits, first, last, found[i]);
    }
    if Unbroken(first, last) {
      forall k: nat | first <= k <= last && bits[k] ensures k in found {
        if first % 8 != 0 { NotBlankHere(bits, first, k); }
        ScanIsComplete(bits, first, last, k);
      }
    }
  }

  lemma ShiftLists(hit: nat -> bool, start: nat, bits: seq<bool>, first: nat, last: int, all: bool, found: seq<nat>)
    requires Tells(bits, hit, start) && start <= first && last < start + |bits|
    requires Finds(found, bits, first - start, last - start, all)
    ensures Lists(Shift(found, start), hit, first, last, all)
  {
    var out := Shift(found, start);
    forall n | n in out ensures first <= n <= last && hit(n) {
      var i :| 0 <= i < |out| && out[i] == n;
      assert bits[found[i]];
    }
    if all {
      forall n: nat | first <= n <= last && hit(n) ensures n in out {
        var i :| 0 <= i < |found| && found[i] == n - start;
        assert out[i] == n;
      }
    }
  }

  lemma UnbrokenShift(start: nat, first: nat, last: int)
    requires start % 8 == 0 && start <= first
    ensures Unbroken(first - start, last - start) <==> Unbroken(first, last)
  {
    assert first == start + (first - start);
    assert (first - start) / 8 == first / 8 - start / 8;
  }

  lemma EmitsLists(hit: nat -> bool, bits: seq<bool>, start: nat, begin: nat, end: nat)
    requires Tells(bits, hit, start) && start % 8 == 0
    ensures var first, last := Max(begin, start), Least(end, start + |bits| - 1);
            Lists(EmitsBits(bits, start, begin, end), hit, first, last, Unbroken(first, last))
  {
    var first, last := Max(begin, start), Least(end, start + |bits| - 1);
    ScanFinds(bits, first - start, last - start);
    UnbrokenShift(start, first, last);
    ShiftLists(hit, start, bits, first, last, Unbroken(first, last), ScanFrom(bits, first - start, last - start));
  }

  lemma EmitsAnyLists(hit: nat -> bool, out: Option<Bytes>, size: nat, start: nat, begin: nat, end: nat)
    requires start % 8 == 0
    requires out.None? ==> forall n: nat :: start <= n < start + size ==> !hit(n)
    requires out.Some? ==> 8 * |out.value| == size && Tells(BitsOf(out.value), hit, start)
    ensures var first, last := Max(begin, start), Least(end, start + size - 1);
            Lists(EmitsAny(out, start, begin, end), hit, first, last, Unbroken(first, last))
  {
    if out.Some? { EmitsLists(hit, BitsOf(out.value), start, begin, end); }
  }

  lemma BlockTold(vec: Vectors, rules: seq<Rule>, size: nat, section: nat, start: nat, bits: seq<bool>, k: nat)
    requires k < size && |bits| == size && start == FirstBlock(section, size)
    requires bits[k] <==> AllHit(vec, rules, section, k)
    ensures bits[k] <==> Hits(vec, rules, size)(start + k)
  {
    HitInSection(vec, rules, size, section, start + k);
  }

  lemma TellsFrom(bits: seq<bool>, hit: nat -> bool, start: nat)
    requires forall k: nat :: k < |bits| ==> (bits[k] <==> hit(start + k))
    ensures Tells(bits, hit, start)
  {
    forall n: nat | start <= n < start + |bits| ensures bits[n - start] <==> hit(n) {
      assert n == start + (n - start);
    }
  }

  lemma SectionTells(vec: Vectors, rules: seq<Rule>, size: nat, section: nat, start: nat, bits: seq<bool>)
    requires |bits| == size && start == FirstBlock(section, size)
    requires forall k: nat :: k < size ==> (bits[k] <==> AllHit(vec, rules, section, k))
    ensures Tells(bits, Hits(vec, rules, size), start)
  {
    forall k: nat | k < size ensures bits[k] <==> Hits(vec, rules, size)(start + k) {
      BlockTold(vec, rules, size, section, start, bits, k);
    }
    TellsFrom(bits, Hits(vec, rules, size), start);
  }

  lemma NoHits(vec: Vectors, rules: seq<Rule>, size: nat, section: nat, start: nat)
    requires size > 0 && start == FirstBlock(section, size)
    requires forall k: nat :: k < size ==> !AllHit(vec, rules, section, k)
    ensures forall n: nat :: start <= n < start + size ==> !Hits(vec, rules, size)(n)
  {
    forall n: nat | start <= n < start + size ensures !Hits(vec, rules, size)(n) {
      HitInSection(vec, rules, size, section, n);
    }
  }

  /** The results of one section. */
  lemma SectionLists(vec: Vectors, rules: seq<Rule>, size: nat, begin: nat, end: nat, section: nat, start: nat)
    requires Sized(vec, size) && size > 0 && size % 8 == 0 && start == FirstBlock(section, size) && start % 8 == 0
    ensures var first, last := Max(begin, start), Least(end, start + size - 1);
            Lists(Yields(vec, rules, size, begin, end)(section), Hits(vec, rules, size), first, last, Unbroken(first, last))
  {
    var out := Through(vec, rules, section, size, Ones(size));
    FedIn(vec, rules, section, size);
    if out.Some? {
      SectionTells(vec, rules, size, section, start, BitsOf(out.value));
    } else {
      NoHits(vec, rules, size, section, start);
    }
    EmitsAnyLists(Hits(vec, rules, size), out, size, start, begin, end);
  }

  lemma ListsAppend(a: seq<nat>, b: seq<nat>, hit: nat -> bool, lo: nat, mid: nat, hi: int, all: bool)
    requires Lists(a, hit, lo, Least(hi, mid - 1), all) && Lists(b, hit, Max(lo, mid), hi, all)
    ensures Lists(a + b, hit, lo, hi, all)
  {
    forall i, j | 0 <= i < j < |a + b| ensures (a + b)[i] < (a + b)[j] {
      if i < |a| <= j { assert a[i] in a && b[j - |a|] in b; }
    }
    if all {
      forall n: nat | lo <= n <= hi && hit(n) ensures n in a + b {
        if n < mid { assert n in a; } else { assert n in b; }
      }
    }
  }

  /** Sections that list their parts of the range list it together; `starts` gives their first blocks. */
  lemma {:induction false} ConcatLists(part: nat -> seq<nat>, starts: nat -> nat, hit: nat -> bool, begin: nat, end: nat, section: nat, limit: nat, all: bool)
    requires section <= limit && begin < starts(section + 1) && end < starts(limit)
    requires forall s: nat :: section <= s < limit ==> starts(s) < starts(s + 1)
    requires forall s: nat :: section <= s < limit ==> Lists(part(s), hit, Max(begin, starts(s)), Least(end, starts(s + 1) - 1), all)
    ensures Lists(Concat(part, section, limit), hit, Max(begin, starts(section)), end, all)
    decreases limit - section
  {
    if section < limit {
      if section + 1 < limit { ConcatLists(part, starts, hit, begin, end, section + 1, limit, all); }
      assert Lists(Concat(part, section + 1, limit), hit, starts(section + 1), end, all);
      ListsAppend(part(section), Concat(part, section + 1, limit), hit, Max(begin, starts(section)), starts(section + 1), end, all);
    }
  }

  function Starts(size: nat): nat -> nat {
    (section: nat) => FirstBlock(section, size)
  }

  lemma LaterSection(size: nat, begin: nat, end: nat, section: nat, s: nat, all: bool)
    requires size > 0 && size % 8 == 0 && section <= s && begin < FirstBlock(section + 1, size)
    requires all ==> Unbroken(Max(begin, FirstBlock(section, size)), Least(end, FirstBlock(section + 1, size) - 1))
    ensures all ==> Unbroken(Max(begin, FirstBlock(s, size)), Least(end, FirstBlock(s + 1, size) - 1))
  {
    if section < s {
      BeginsBefore(section, s, size);
      StartAligned(s, size);
    }
  }

  lemma ResultsList(vec: Vectors, rules: seq<Rule>, size: nat, begin: nat, end: nat, section: nat, limit: nat, all: bool)
    requires Sized(vec, size) && size > 0 && size % 8 == 0 && limit == SectionIndex(end, size) + 1
    requires section <= limit && begin < FirstBlock(section + 1, size)
    requires all ==> Unbroken(Max(begin, FirstBlock(section, size)), Least(end, FirstBlock(section + 1, size) - 1))
    ensures Lists(Concat(Yields(vec, rules, size, begin, end), section, limit), Hits(vec, rules, size),
                  Max(begin, FirstBlock(section, size)), end, all)
  {
    var starts, part, hit := Starts(size), Yields(vec, rules, size, begin, end), Hits(vec, rules, size);
    forall s: nat | section <= s < limit
      ensures starts(s) < starts(s + 1) && Lists(part(s), hit, Max(begin, starts(s)), Least(end, starts(s + 1) - 1), all)
    {
      LaterSection(size, begin, end, section, s, all);
      PartLists(vec, rules, size, begin, end, s, FirstBlock(s, size), FirstBlock(s + 1, size), all);
    }
    ConcatLists(part, starts, hit, begin, end, section, limit, all);
  }

  lemma PartLists(vec: Vectors, rules: seq<Rule>, size: nat, begin: nat, end: nat, s: nat, start: nat, next: nat, all: bool)
    requires Sized(vec, size) && size > 0 && size % 8 == 0 && start == FirstBlock(s, size) && next == FirstBlock(s + 1, size)
    requires all ==> Unbroken(Max(begin, start), Least(end, next - 1))
    ensures start < next && Lists(Yields(vec, rules, size, begin, end)(s), Hits(vec, rules, size), Max(begin, start), Least(end, next - 1), all)
  {
    NextBlock(s, size);
    StartAligned(s, size);
    SectionLists(vec, rules, size, begin, end, s, start);
  }

  lemma BeginsBefore(a: nat, b: nat, size: nat)
    requires a < b
    ensures FirstBlock(a + 1, size) <= FirstBlock(b, size)
  {
    SectionsRise(a + 1, b, size);
  }

  /** The first block of the byte after that of `n`. */
  function NextByte(n: nat): nat {
    8 * (n / 8 + 1)
  }

  /** The range begins with a byte, or ends within the byte it begins in, or this byte is the last of a section. */
  predicate Exact(size: nat, begin: nat, end: nat)
    requires size > 0
  {
    begin % 8 == 0 || end < NextByte(begin) || NextByte(begin) % size == 0
  }

  lemma ByteEnds(begin: nat, start: nat, size: nat)
    requires size % 8 == 0 && start % 8 == 0 && start <= begin < start + size
    ensures start < NextByte(begin) <= start + size && (NextByte(begin) - start) % 8 == 0
  {
  }

  /** Where a number after the first of a section lies. */
  lemma PlaceIn(section: nat, size: nat, start: nat, n: nat)
    requires size > 0 && start == FirstBlock(section, size) && start < n <= start + size
    ensures n % size == if n < start + size then n - start else 0
  {
    if n < start + size {
      InSection(section, size, start, n);
    } else {
      NextBlock(section, size);
      InSection(section + 1, size, start + size, n);
    }
  }

  lemma ExactIsUnbroken(size: nat, begin: nat, end: nat)
    requires size > 0 && size % 8 == 0
    ensures var start := FirstBlock(SectionIndex(begin, size), size);
            Exact(size, begin, end) <==> Unbroken(begin, Least(end, start + size - 1))
  {
    var section := SectionIndex(begin, size);
    var start := FirstBlock(section, size);
    StartAligned(section, size);
    NextBlock(section, size);
    ByteEnds(begin, start, size);
    PlaceIn(section, size, start, NextByte(begin));
    EndsInByte(size, begin, end, start);
  }

  lemma EndsInByte(size: nat, begin: nat, end: nat, start: nat)
    requires size > 0 && start < NextByte(begin) <= start + size
    requires NextByte(begin) % size == if NextByte(begin) < start + size then NextByte(begin) - start else 0
    ensures Exact(size, begin, end) <==> Unbroken(begin, Least(end, start + size - 1))
  {
  }

  /** A session lists hit blocks of the range in ascending order, and all of them if the range is exact. */
  lemma WholeLists(vec: Vectors, rules: seq<Rule>, size: nat, begin: nat, end: nat)
    requires Sized(vec, size) && size > 0 && size % 8 == 0
    ensures Lists(Whole(vec, rules, size, begin, end), Hits(vec, rules, size), begin, end, Exact(size, begin, end))
  {
    var section, limit := SectionIndex(begin, size), SectionIndex(end, size) + 1;
    NextBlock(section, size);
    ExactIsUnbroken(size, begin, end);
    if section <= limit {
      ResultsList(vec, rules, size, begin, end, section, limit, Exact(size, begin, end));
    } else {
      SideOf(section, end, size);
    }
  }

  ghost predicate MissesNothing(vec: Vectors, rules: seq<Rule>, size: nat, begin: nat, end: nat)
    requires size > 0
  {
    forall n: nat :: begin <= n <= end && Hits(vec, rules, size)(n) ==> n in Whole(vec, rules, size, begin, end)
  }

  /** Sessions on a range miss nothing, whatever the index and the rules, if and only if the range is exact. */
  lemma SessionExactIff(size: nat, begin: nat, end: nat)
    requires size > 0 && size % 8 == 0
    ensures (forall vec: Vectors, rules: seq<Rule> :: Sized(vec, size) ==> MissesNothing(vec, rules, size, begin, end)) <==>
              Exact(size, begin, end)
  {
    if Exact(size, begin, end) {
      forall vec: Vectors, rules: seq<Rule> | Sized(vec, size) ensures MissesNothing(vec, rules, size, begin, end) {
        WholeLists(vec, rules, size, begin, end);
      }
    } else {
      var vec := OneBlock(size, NextByte(begin) % size);
      InexactMisses(size, begin, end, vec);
      assert Sized(vec, size);
    }
  }

  /** Every vector has just block `k` of the section set, which begins a byte. */
  function OneBlock(size: nat, k: nat): Vectors {
    (_: nat, _: nat) => seq(size / 8, i => if i == k / 8 then 0x80 else 0)
  }

  const ANY_RULE: seq<Rule> := [[Indexes(0, 0, 0)]]

  lemma OneBlockBit(size: nat, k: nat, j: nat)
    requires size % 8 == 0 && k % 8 == 0 && k < size && j < size
    ensures 8 * |OneBlock(size, k)(0, 0)| == size && (BitAt(OneBlock(size, k)(0, 0), j) <==> j == k)
  {
    MaskTable(j % 8);
    if j / 8 != k / 8 { ZeroHasNoBit(j % 8); }
  }

  lemma OneBlockHit(size: nat, k: nat, section: nat, j: nat)
    requires size % 8 == 0 && k % 8 == 0 && k < size && j < size
    ensures AllHit(OneBlock(size, k), ANY_RULE, section, j) <==> j == k
  {
    var vec := OneBlock(size, k);
    OneBlockBit(size, k, j);
    assert vec(0, section) == vec(0, 0);
    assert At(vec, 0, section, j) <==> j == k;
    assert ClauseHits(vec, Indexes(0, 0, 0), section, j) <==> j == k;
    assert RuleHits(vec, ANY_RULE[0], section, j) <==> ClauseHits(vec, ANY_RULE[0][0], section, j);
  }

  /** The block that is lost. */
  lemma InexactMisses(size: nat, begin: nat, end: nat, vec: Vectors)
    requires size > 0 && size % 8 == 0 && !Exact(size, begin, end) && vec == OneBlock(size, NextByte(begin) % size)
    ensures Sized(vec, size) && !MissesNothing(vec, ANY_RULE, size, begin, end)
  {
    var section := SectionIndex(begin, size);
    var start := FirstBlock(section, size);
    StartAligned(section, size);
    NextBlock(section, size);
    NextInside(size, begin, section, start);
    NextIsLost(size, begin, end, section, start, NextByte(begin) - start);
  }

  lemma NextIsLost(size: nat, begin: nat, end: nat, section: nat, start: nat, k: nat)
    requires size > 0 && size % 8 == 0 && start == FirstBlock(section, size) && start % 8 == 0 && start <= begin < start + size
    requires begin % 8 != 0 && NextByte(begin) <= end && k == NextByte(begin) - start && k < size && k % 8 == 0
    requires section == SectionIndex(begin, size)
    ensures Sized(OneBlock(size, k), size) && !MissesNothing(OneBlock(size, k), ANY_RULE, size, begin, end)
  {
    var vec, n := OneBlock(size, k), NextByte(begin);
    OneBlockSized(size, k);
    BlockIsHit(size, k, section, start);
    NotInFirst(size, begin, end, section, start, k);
    NotInRest(vec, size, begin, end, section, start, n);
    Lost(vec, ANY_RULE, size, begin, end, n);
  }

  lemma Lost(vec: Vectors, rules: seq<Rule>, size: nat, begin: nat, end: nat, n: nat)
    requires size > 0 && begin <= n <= end && Hits(vec, rules, size)(n) && n !in Whole(vec, rules, size, begin, end)
    ensures !MissesNothing(vec, rules, size, begin, end)
  {
  }

  lemma BlockIsHit(size: nat, k: nat, section: nat, start: nat)
    requires size % 8 == 0 && k % 8 == 0 && k < size && start == FirstBlock(section, size)
    ensures Hits(OneBlock(size, k), ANY_RULE, size)(start + k)
  {
    OneBlockHit(size, k, section, k);
    HitInSection(OneBlock(size, k), ANY_RULE, size, section, start + k);
  }

  lemma NextInside(size: nat, begin: nat, section: nat, start: nat)
    requires size > 0 && size % 8 == 0 && NextByte(begin) % size != 0
    requires start == FirstBlock(section, size) && start % 8 == 0 && start <= begin < start + size
    ensures NextByte(begin) < start + size && NextByte(begin) % size == NextByte(begin) - start && (NextByte(begin) - start) % 8 == 0
  {
    ByteEnds(begin, start, size);
    PlaceIn(section, size, start, NextByte(begin));
  }

  lemma OneBlockSized(size: nat, k: nat)
    requires size % 8 == 0
    ensures Sized(OneBlock(size, k), size)
  {
  }

  /** It is not among the results of its section. */
  lemma NotInFirst(size: nat, begin: nat, end: nat, section: nat, start: nat, k: nat)
    requires size > 0 && size % 8 == 0 && start == FirstBlock(section, size) && start % 8 == 0 && start <= begin
    requires begin % 8 != 0 && NextByte(begin) <= end && k == NextByte(begin) - start && k < size
    ensures NextByte(begin) !in Yields(OneBlock(size, k), ANY_RULE, size, begin, end)(section)
  {
    var out := Through(OneBlock(size, k), ANY_RULE, section, size, Ones(size));
    OneBlockOut(size, k, section);
    if out.Some? { NotEmitted(out.value, start, begin, end, k); }
  }

  lemma OneBlockOut(size: nat, k: nat, section: nat)
    requires size % 8 == 0 && k % 8 == 0 && k < size
    ensures var out := Through(OneBlock(size, k), ANY_RULE, section, size, Ones(size));
            out.Some? ==> 8 * |out.value| == size && forall j: nat :: j < size ==> (BitsOf(out.value)[j] <==> j == k)
  {
    var vec := OneBlock(size, k);
    OneBlockSized(size, k);
    FedIn(vec, ANY_RULE, section, size);
    var out := Through(vec, ANY_RULE, section, size, Ones(size));
    if out.Some? {
      forall j: nat | j < size ensures BitsOf(out.value)[j] <==> j == k { OneBlockHit(size, k, section, j); }
    }
  }

  lemma NotEmitted(v: Bytes, start: nat, begin: nat, end: nat, k: nat)
    requires start % 8 == 0 && start <= begin && begin % 8 != 0 && NextByte(begin) <= end && k == NextByte(begin) - start
    requires k < 8 * |v| && forall j: nat :: j < 8 * |v| ==> (BitsOf(v)[j] <==> j == k)
    ensures NextByte(begin) !in Emits(v, start, begin, end)
  {
    var first, last := begin - start, Least(end, start + 8 * |v| - 1) - start;
    assert BitsOf(v) == OnlySet(8 * |v|, k);
    assert first == begin - start && first / 8 == begin / 8 - start / 8;
    UnalignedMisses(8 * |v|, first, last);
    var found := ScanFrom(BitsOf(v), first, last);
    forall i | 0 <= i < |found| ensures found[i] != k {
      OnlyOne(8 * |v|, k, first, last);
    }
  }

  lemma OnlyOne(size: nat, k: nat, first: nat, last: int)
    requires last < size && !Complete(OnlySet(size, k), first, last)
    ensures k !in ScanFrom(OnlySet(size, k), first, last)
  {
  }

  lemma NotInRest(vec: Vectors, size: nat, begin: nat, end: nat, section: nat, start: nat, n: nat)
    requires Sized(vec, size) && size > 0 && size % 8 == 0 && section == SectionIndex(begin, size)
    requires start == FirstBlock(section, size) && begin < start + size && n < start + size
    requires n !in Yields(vec, ANY_RULE, size, begin, end)(section)
    ensures n !in Whole(vec, ANY_RULE, size, begin, end)
  {
    NextBlock(section, size);
    NextBlock(section + 1, size);
    var limit := SectionIndex(end, size) + 1;
    if section < limit {
      ResultsList(vec, ANY_RULE, size, begin, end, section + 1, limit, false);
    }
  }

  // ---------------------------------------------------------------- the loops

  /** The sections of the range in order, each through the chain of sub-matchers and then scanned. */
  method FindMatches(vec: Vectors, rules: seq<Rule>, size: nat, begin: nat, end: nat) returns (results: seq<nat>)
    requires Sized(vec, size) && size > 0 && size % 8 == 0
    ensures results == Whole(vec, rules, size, begin, end)
    ensures Lists(results, Hits(vec, rules, size), begin, end, Exact(size, begin, end))
  {
    results := FindFrom(vec, rules, size, begin, end, SectionIndex(begin, size), SectionIndex(end, size) + 1, Yields(vec, rules, size, begin, end));
    UptoIsWhole(vec, rules, size, begin, end);
  }

  lemma UptoIsWhole(vec: Vectors, rules: seq<Rule>, size: nat, begin: nat, end: nat)
    requires Sized(vec, size) && size > 0 && size % 8 == 0
    ensures var whole := Whole(vec, rules, size, begin, end);
            && Upto(Yields(vec, rules, size, begin, end), SectionIndex(begin, size), SectionIndex(end, size) + 1) == whole
            && Lists(whole, Hits(vec, rules, size), begin, end, Exact(size, begin, end))
  {
    UptoIsAll(Yields(vec, rules, size, begin, end), SectionIndex(begin, size), SectionIndex(end, size) + 1);
    WholeLists(vec, rules, size, begin, end);
  }

  method FindFrom(vec: Vectors, rules: seq<Rule>, size: nat, begin: nat, end: nat, from: nat, limit: nat, ghost part: nat -> seq<nat>)
      returns (results: seq<nat>)
    requires Sized(vec, size) && size > 0 && size % 8 == 0 && part == Yields(vec, rules, size, begin, end)
    ensures results == Upto(part, from, limit)
  {
    results := [];
    if limit <= from { return; }
    for section := from to limit
      invariant results == Upto(part, from, section)
    {
      var out := MatchSection(vec, rules, size, begin, end, section, part);
      results := results + out;
    }
  }

  /** The results of the sections before `limit`. */
  function Upto(part: nat -> seq<nat>, section: nat, limit: nat): seq<nat>
    decreases limit
  {
    if limit <= section then [] else Upto(part, section, limit - 1) + part(limit - 1)
  }

  lemma {:induction false} UptoIs(part: nat -> seq<nat>, section: nat, mid: nat, limit: nat)
    requires section <= mid <= limit
    ensures Upto(part, section, mid) + Concat(part, mid, limit) == Concat(part, section, limit)
    decreases mid
  {
    if section < mid {
      UptoIs(part, section, mid - 1, limit);
      var a, b, c := Upto(part, section, mid - 1), part(mid - 1), Concat(part, mid, limit);
      assert a + b + c == a + (b + c);
    }
  }

  lemma UptoIsAll(part: nat -> seq<nat>, section: nat, limit: nat)
    ensures Upto(part, section, limit) == Concat(part, section, limit)
  {
    if section <= limit {
      UptoIs(part, section, limit, limit);
      assert Upto(part, section, limit) + [] == Upto(part, section, limit);
    }
  }

  method MatchSection(vec: Vectors, rules: seq<Rule>, size: nat, begin: nat, end: nat, section: nat, ghost part: nat -> seq<nat>)
      returns (out: seq<nat>)
    requires Sized(vec, size) && size > 0 && size % 8 == 0 && part == Yields(vec, rules, size, begin, end)
    ensures out == part(section)
  {
    StartAligned(section, size);
    var res := RunSection(vec, rules, section, size);
    if res.None? { return []; }
    out := EmitSection(res.value, FirstBlock(section, size), size, begin, end);
  }

  method EmitSection(v: Bytes, start: nat, size: nat, begin: nat, end: nat) returns (out: seq<nat>)
    requires start % 8 == 0 && 8 * |v| == size
    ensures out == Emits(v, start, begin, end)
  {
    var first := if begin > start then begin else start;
    var last := if end < start + size - 1 then end else start + size - 1;
    out := ScanSection(v, start, first, last);
  }

  // ---------------------------------------------------------------- against the blooms

  /** The bloom of block `k` of a section. */
  function BloomAt(blooms: nat -> Bloom, size: nat, section: nat, k: nat): Bloom {
    blooms(FirstBlock(section, size) + k)
  }

  /** Bit `k` of the vector of a bit and a section is that bit of the bloom of block `k` of the section. */
  predicate IndexedAt(vec: Vectors, blooms: nat -> Bloom, size: nat, bit: nat, section: nat, k: nat)
    requires bit < BLOOM_BITS
  {
    At(vec, bit, section, k) <==> BigBit(BloomAt(blooms, size, section, k), bit)
  }

  /** The vectors are those the generator makes of the blooms of the blocks. */
  ghost predicate Indexed(vec: Vectors, blooms: nat -> Bloom, size: nat) {
    && Sized(vec, size)
    && forall bit: nat, section: nat, k: nat :: bit < BLOOM_BITS && k < size ==> IndexedAt(vec, blooms, size, bit, section, k)
  }

  /** The blooms of the blocks of a section. */
  function SectionBlooms(blooms: nat -> Bloom, size: nat, section: nat): (s: seq<Bloom>)
    ensures |s| == size && forall k: nat :: k < size ==> s[k] == BloomAt(blooms, size, section, k)
  {
    seq(size, k requires 0 <= k < size => BloomAt(blooms, size, section, k))
  }

  /** A vector the generator returns for a section is what the matcher needs for that bit and section. */
  lemma GeneratedVector(vec: Vectors, blooms: nat -> Bloom, size: nat, bit: nat, section: nat, k: nat)
    requires bit < BLOOM_BITS && k < size && G.IsRotation(vec(bit, section), SectionBlooms(blooms, size, section), bit)
    ensures IndexedAt(vec, blooms, size, bit, section, k)
  {
    assert BitAt(vec(bit, section), k) <==> BigBit(SectionBlooms(blooms, size, section)[k], bit);
  }

  lemma GeneratorIndexes(vec: Vectors, blooms: nat -> Bloom, size: nat)
    requires Sized(vec, size)
    requires forall bit: nat, section: nat :: bit < BLOOM_BITS ==> G.IsRotation(vec(bit, section), SectionBlooms(blooms, size, section), bit)
    ensures Indexed(vec, blooms, size)
  {
    forall bit: nat, section: nat, k: nat | bit < BLOOM_BITS && k < size
      ensures IndexedAt(vec, blooms, size, bit, section, k)
    {
      GeneratedVector(vec, blooms, size, bit, section, k);
    }
  }

  predicate InRange(ix: Indexes) {
    ix.i0 < BLOOM_BITS && ix.i1 < BLOOM_BITS && ix.i2 < BLOOM_BITS
  }

  predicate RuleInRange(rule: Rule) {
    forall c :: 0 <= c < |rule| ==> InRange(rule[c])
  }

  lemma {:induction false} KeepInRange(filters: seq<seq<Clause>>)
    ensures forall r :: r in Keep(filters) ==> RuleInRange(r)
    decreases |filters|
  {
    if filters != [] { KeepInRange(filters[..|filters| - 1]); }
  }

  lemma ClauseHitIsBloomTest(vec: Vectors, blooms: nat -> Bloom, size: nat, ix: Indexes, section: nat, k: nat)
    requires Indexed(vec, blooms, size) && InRange(ix) && k < size
    ensures ClauseHits(vec, ix, section, k) <==> HasBits(BloomAt(blooms, size, section, k), ix)
  {
    assert IndexedAt(vec, blooms, size, ix.i0, section, k);
    assert IndexedAt(vec, blooms, size, ix.i1, section, k);
    assert IndexedAt(vec, blooms, size, ix.i2, section, k);
  }

  lemma RuleHitIsBloomTest(vec: Vectors, blooms: nat -> Bloom, size: nat, rule: Rule, section: nat, k: nat)
    requires Indexed(vec, blooms, size) && RuleInRange(rule) && k < size
    ensures RuleHits(vec, rule, section, k) <==> PassesRule(BloomAt(blooms, size, section, k), rule)
  {
    var b := BloomAt(blooms, size, section, k);
    forall c | 0 <= c < |rule| ensures ClauseHits(vec, rule[c], section, k) <==> HasBits(b, rule[c]) {
      ClauseHitIsBloomTest(vec, blooms, size, rule[c], section, k);
    }
  }

  predicate PassesRules(b: Bloom, rules: seq<Rule>) {
    forall r :: 0 <= r < |rules| ==> PassesRule(b, rules[r])
  }

  lemma AllHitIsBloomTest(vec: Vectors, blooms: nat -> Bloom, size: nat, rules: seq<Rule>, section: nat, k: nat)
    requires Indexed(vec, blooms, size) && k < size && forall r :: 0 <= r < |rules| ==> RuleInRange(rules[r])
    ensures AllHit(vec, rules, section, k) <==> PassesRules(BloomAt(blooms, size, section, k), rules)
  {
    var b := BloomAt(blooms, size, section, k);
    forall r | 0 <= r < |rules| ensures RuleHits(vec, rules[r], section, k) <==> PassesRule(b, rules[r]) {
      RuleHitIsBloomTest(vec, blooms, size, rules[r], section, k);
    }
  }

  lemma PassesKept(b: Bloom, filters: seq<seq<Clause>>)
    ensures PassesRules(b, Keep(filters)) <==> PassesAll(b, filters)
  {
    KeepMeansFilters(b, filters);
    var rules := Keep(filters);
    assert (forall r :: r in rules ==> PassesRule(b, r)) ==> PassesRules(b, rules);
  }

  lemma HitAtIsBloomTest(vec: Vectors, blooms: nat -> Bloom, size: nat, filters: seq<seq<Clause>>, section: nat, k: nat)
    requires Indexed(vec, blooms, size) && k < size
    ensures AllHit(vec, Keep(filters), section, k) <==> PassesAll(BloomAt(blooms, size, section, k), filters)
  {
    KeepInRange(filters);
    AllHitIsBloomTest(vec, blooms, size, Keep(filters), section, k);
    PassesKept(BloomAt(blooms, size, section, k), filters);
  }

  /** A block is hit exactly when its bloom passes every filter by direct lookup. */
  lemma HitIsBloomTest(vec: Vectors, blooms: nat -> Bloom, size: nat, filters: seq<seq<Clause>>, n: nat)
    requires size > 0 && Indexed(vec, blooms, size)
    ensures Hits(vec, Keep(filters), size)(n) <==> PassesAll(blooms(n), filters)
  {
    var section := SectionIndex(n, size);
    NextBlock(section, size);
    HitOfSection(vec, blooms, size, filters, section, FirstBlock(section, size), n - FirstBlock(section, size));
  }

  lemma HitOfSection(vec: Vectors, blooms: nat -> Bloom, size: nat, filters: seq<seq<Clause>>, section: nat, start: nat, k: nat)
    requires Indexed(vec, blooms, size) && start == FirstBlock(section, size) && k < size
    ensures Hits(vec, Keep(filters), size)(start + k) <==> PassesAll(blooms(start + k), filters)
  {
    HitHere(vec, Keep(filters), size, section, start, k);
    HitAtIsBloomTest(vec, blooms, size, filters, section, k);
  }

  lemma HitHere(vec: Vectors, rules: seq<Rule>, size: nat, section: nat, start: nat, k: nat)
    requires start == FirstBlock(section, size) && k < size
    ensures Hits(vec, rules, size)(start + k) <==> AllHit(vec, rules, section, k)
  {
    HitInSection(vec, rules, size, section, start + k);
  }

  /** The session on the index of the blooms: strictly ascending, every emitted number is a block of the
      range whose bloom passes all filters, and on an exact range these are all such blocks. */
  method Match(vec: Vectors, ghost blooms: nat -> Bloom, size: nat, filters: seq<seq<Clause>>, begin: nat, end: nat)
    returns (results: seq<nat>)
    requires Indexed(vec, blooms, size) && size > 0 && size % 8 == 0
    ensures Ascending(results)
    ensures forall n :: n in results ==> begin <= n <= end && PassesAll(blooms(n), filters)
    ensures Exact(size, begin, end) ==> forall n: nat :: begin <= n <= end && PassesAll(blooms(n), filters) ==> n in results
  {
    var rules := NewMatcher(filters);
    results := FindMatches(vec, rules, size, begin, end);
    forall n: nat ensures Hits(vec, rules, size)(n) <==> PassesAll(blooms(n), filters) {
      HitIsBloomTest(vec, blooms, size, filters, n);
    }
  }
}
