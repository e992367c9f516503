/** The filters of blockchain/bloombits/matcher.go: NewMatcher and the chain of sub-matchers that And and Or the
    vectors of a section. The vectors a sub-matcher receives are given by a function of bit and section. */
module Filters {
  import opened Bits
  import opened Bitutil
  import opened Bloom
  import opened Scan
  import opened Common

  /** bloomIndexes. */
  datatype Indexes = Indexes(i0: nat, i1: nat, i2: nat)

  type Clause = Option<Digest>
  type Rule = seq<Indexes>

  // ---------------------------------------------------------------- which filters are kept

  function IndexesOf(h: Digest): (ix: Indexes)
    ensures ix.i0 < BLOOM_BITS && ix.i1 < BLOOM_BITS && ix.i2 < BLOOM_BITS
  {
    Indexes(CalcIndex(h, 0), CalcIndex(h, 1), CalcIndex(h, 2))
  }

  /** A filter that restricts anything: not empty and without a nil clause. */
  predicate Restricts(filter: seq<Clause>) {
    filter != [] && forall i :: 0 <= i < |filter| ==> filter[i].Some?
  }

  function RuleOf(filter: seq<Clause>): (rule: Rule)
    requires forall i :: 0 <= i < |filter| ==> filter[i].Some?
    ensures |rule| == |filter|
  {
    seq(|filter|, i requires 0 <= i < |filter| => IndexesOf(filter[i].value))
  }

  function Keep(filters: seq<seq<Clause>>): seq<Rule>
    decreases |filters|
  {
    if filters == [] then []
    else
      var last := filters[|filters| - 1];
      Keep(filters[..|filters| - 1]) + (if Restricts(last) then [RuleOf(last)] else [])
  }

  /** The indexes of one filter, or None when a nil clause was met. */
  method BloomBits(filter: seq<Clause>) returns (rule: Option<Rule>)
    ensures rule == if forall i :: 0 <= i < |filter| ==> filter[i].Some? then Some(RuleOf(filter)) else None
  {
    var bits: Rule := [];
    for i := 0 to |filter|
      invariant |bits| == i
      invariant forall j :: 0 <= j < i ==> filter[j].Some? && bits[j] == IndexesOf(filter[j].value)
    {
      if filter[i].None? { return None; }
      bits := bits + [IndexesOf(filter[i].value)];
    }
    assert bits == RuleOf(filter);
    return Some(bits);
  }

  method NewMatcher(filters: seq<seq<Clause>>) returns (kept: seq<Rule>)
    ensures kept == Keep(filters)
  {
    kept := [];
    for i := 0 to |filters|
      invariant kept == Keep(filters[..i])
    {
      assert filters[..i + 1][..i] == filters[..i];
      if |filters[i]| != 0 {
        var rule := BloomBits(filters[i]);
        if rule.Some? { kept := kept + [rule.value]; }
      }
    }
    assert filters[..|filters|] == filters;
  }

  /** All three bits of a clause are set in the bloom. */
  predicate HasBits(b: Bloom, ix: Indexes) {
    && ix.i0 < BLOOM_BITS && ix.i1 < BLOOM_BITS && ix.i2 < BLOOM_BITS
    && BigBit(b, ix.i0) && BigBit(b, ix.i1) && BigBit(b, ix.i2)
  }

  predicate PassesRule(b: Bloom, rule: Rule) {
    exists c :: 0 <= c < |rule| && HasBits(b, rule[c])
  }

  /** The plain test of a filter: it is empty, or some clause is nil or found by a bloom lookup. */
  predicate PassesFilter(b: Bloom, filter: seq<Clause>) {
    filter == [] || exists c :: 0 <= c < |filter| && (filter[c].None? || Lookup(b, filter[c].value))
  }

  predicate PassesAll(b: Bloom, filters: seq<seq<Clause>>) {
    forall f :: f in filters ==> PassesFilter(b, f)
  }

  lemma RuleMeansFilter(b: Bloom, filter: seq<Clause>)
    requires Restricts(filter)
    ensures PassesRule(b, RuleOf(filter)) <==> PassesFilter(b, filter)
  {
    var rule := RuleOf(filter);
    forall c | 0 <= c < |filter| ensures HasBits(b, rule[c]) <==> Lookup(b, filter[c].value) {
      LookupIffBits(b, filter[c].value);
    }
  }

  /** The kept rules say what the filters say. */
  lemma {:induction false} KeepMeansFilters(b: Bloom, filters: seq<seq<Clause>>)
    ensures (forall r :: r in Keep(filters) ==> PassesRule(b, r)) <==> PassesAll(b, filters)
    decreases |filters|
  {
    if filters != [] {
      var front, last := filters[..|filters| - 1], filters[|filters| - 1];
      KeepMeansFilters(b, front);
      if Restricts(last) { RuleMeansFilter(b, last); }
      assert forall f :: f in filters <==> f in front || f == last;
      assert forall r :: r in Keep(filters) <==> r in Keep(front) || (Restricts(last) && r == RuleOf(last));
    }
  }

  // ---------------------------------------------------------------- one section

  /** The vector of a bit in a section. */
  type Vectors = (nat, nat) -> Bytes

  ghost predicate Sized(vec: Vectors, size: nat) {
    forall bit, section :: 8 * |vec(bit, section)| == size
  }

  /** Bit `k` of the vector of a bit. */
  predicate At(vec: Vectors, bit: nat, section: nat, k: nat) {
    k < 8 * |vec(bit, section)| && BitAt(vec(bit, section), k)
  }

  predicate ClauseHits(vec: Vectors, ix: Indexes, section: nat, k: nat) {
    At(vec, ix.i0, section, k) && At(vec, ix.i1, section, k) && At(vec, ix.i2, section, k)
  }

  predicate RuleHits(vec: Vectors, rule: Rule, section: nat, k: nat) {
    exists c :: 0 <= c < |rule| && ClauseHits(vec, rule[c], section, k)
  }

  method ToArray(data: Bytes) returns (a: array<bv8>)
    ensures fresh(a) && a[..] == data
  {
    a := new bv8[|data|](i requires 0 <= i < |data| => data[i]);
  }

  function AndThree(vec: Vectors, ix: Indexes, section: nat): Bytes {
    AndBytes(AndBytes(vec(ix.i0, section), vec(ix.i1, section)), vec(ix.i2, section))
  }

  /** The three vectors of a clause, And-ed in place. */
  method AndClause(vec: Vectors, ix: Indexes, section: nat, ghost size: nat) returns (andVector: array<bv8>)
    requires Sized(vec, size)
    ensures fresh(andVector) && andVector[..] == AndThree(vec, ix, section)
  {
    andVector := ToArray(vec(ix.i0, section));
    var data := ToArray(vec(ix.i1, section));
    var n := FastANDBytes(andVector, andVector, data);
    assert andVector[..] == andVector[..n];
    data := ToArray(vec(ix.i2, section));
    n := FastANDBytes(andVector, andVector, data);
    assert andVector[..] == andVector[..n];
  }

  lemma AndThreeSize(vec: Vectors, ix: Indexes, section: nat, size: nat)
    requires Sized(vec, size)
    ensures 8 * |AndThree(vec, ix, section)| == size
  {
    var a := AndBytes(vec(ix.i0, section), vec(ix.i1, section));
    assert 8 * |vec(ix.i2, section)| == size;
  }

  lemma AndThreeBit(vec: Vectors, ix: Indexes, section: nat, size: nat, k: nat)
    requires Sized(vec, size) && k < size
    ensures 8 * |AndThree(vec, ix, section)| == size
    ensures BitAt(AndThree(vec, ix, section), k) <==> ClauseHits(vec, ix, section, k)
  {
    var a := AndBytes(vec(ix.i0, section), vec(ix.i1, section));
    AndBytesBit(vec(ix.i0, section), vec(ix.i1, section), k);
    AndBytesBit(a, vec(ix.i2, section), k);
  }

  /** The clauses of a rule, Or-ed. */
  function OrAll(vec: Vectors, rule: Rule, section: nat, size: nat): Bytes
    decreases |rule|
  {
    if rule == [] then Zeros(size / 8)
    else
      var n := |rule| - 1;
      var last := AndThree(vec, rule[n], section);
      if n == 0 then last else OrBytes(OrAll(vec, rule[..n], section, size), last)
  }

  lemma {:induction false} OrAllBits(vec: Vectors, rule: Rule, section: nat, size: nat)
    requires Sized(vec, size)
    ensures 8 * |OrAll(vec, rule, section, size)| == size
    ensures forall k: nat :: k < size ==> (BitAt(OrAll(vec, rule, section, size), k) <==> RuleHits(vec, rule, section, k))
    decreases |rule|
  {
    assert 8 * |vec(0, 0)| == size;
    var or := OrAll(vec, rule, section, size);
    if rule == [] {
      forall k: nat | k < size ensures !BitAt(or, k) { ZeroVectorHasNoBit(or, k); }
    } else {
      var front, n := rule[..|rule| - 1], |rule| - 1;
      if n > 0 { OrAllBits(vec, front, section, size); }
      forall k: nat | k < size ensures 8 * |or| == size && (BitAt(or, k) <==> RuleHits(vec, rule, section, k)) {
        AndThreeBit(vec, rule[n], section, size, k);
        if n > 0 { OrBytesBit(OrAll(vec, front, section, size), AndThree(vec, rule[n], section), k); }
        assert rule[..n + 1] == rule;
        OneMoreHit(vec, rule, n, section, k);
      }
      AndThreeSize(vec, rule[n], section, size);
    }
  }

  lemma OneMoreHit(vec: Vectors, rule: Rule, c: nat, section: nat, k: nat)
    requires c < |rule|
    ensures RuleHits(vec, rule[..c + 1], section, k) <==> RuleHits(vec, rule[..c], section, k) || ClauseHits(vec, rule[c], section, k)
  {
    var front, longer := rule[..c], rule[..c + 1];
    assert longer[c] == rule[c];
    assert forall i :: 0 <= i < c ==> longer[i] == front[i];
  }

  /** What a sub-matcher makes of a section. */
  function Filtered(vec: Vectors, rule: Rule, section: nat, size: nat, bitset: Bytes): Bytes {
    AndBytes(OrAll(vec, rule, section, size), bitset)
  }

  /** A block stays set exactly when some clause of the rule hits it. */
  lemma FilteredBits(vec: Vectors, rule: Rule, section: nat, size: nat, bitset: Bytes)
    requires Sized(vec, size) && 8 * |bitset| == size
    ensures var out := Filtered(vec, rule, section, size, bitset);
            && 8 * |out| == size
            && forall k: nat :: k < size ==> (BitAt(out, k) <==> BitAt(bitset, k) && RuleHits(vec, rule, section, k))
  {
    OrAllBits(vec, rule, section, size);
    var or := OrAll(vec, rule, section, size);
    forall k: nat | k < size ensures BitAt(AndBytes(or, bitset), k) <==> BitAt(bitset, k) && RuleHits(vec, rule, section, k) {
      AndBytesBit(or, bitset, k);
    }
  }

  /** The clauses of a rule, Or-ed in place. */
  method OrClauses(vec: Vectors, rule: Rule, section: nat, size: nat) returns (orVector: array<bv8>)
    requires Sized(vec, size)
    ensures fresh(orVector) && orVector[..] == OrAll(vec, rule, section, size)
  {
    if |rule| == 0 {
      orVector := ToArray(Zeros(size / 8));
      return;
    }
    orVector := AndClause(vec, rule[0], section, size);
    assert rule[..1][0] == rule[0];
    for c := 1 to |rule|
      invariant fresh(orVector) && orVector[..] == OrAll(vec, rule[..c], section, size)
    {
      var andVector := AndClause(vec, rule[c], section, size);
      OrAllBits(vec, rule[..c], section, size);
      AndThreeSize(vec, rule[c], section, size);
      var n := FastORBytes(orVector, orVector, andVector);
      assert orVector[..] == orVector[..n];
      assert rule[..c + 1][..c] == rule[..c];
    }
    assert rule[..|rule|] == rule;
  }

  /** A sub-matcher on one section. */
  method SubMatch(vec: Vectors, rule: Rule, section: nat, size: nat, bitset: Bytes) returns (out: Bytes)
    requires Sized(vec, size) && 8 * |bitset| == size
    ensures out == Filtered(vec, rule, section, size, bitset)
  {
    var orVector := OrClauses(vec, rule, section, size);
    OrAllBits(vec, rule, section, size);
    var subres := ToArray(bitset);
    var n := FastANDBytes(orVector, orVector, subres);
    out := orVector[..];
  }

  // ---------------------------------------------------------------- the chain of sub-matchers

  predicate AllHit(vec: Vectors, rules: seq<Rule>, section: nat, k: nat) {
    forall r :: 0 <= r < |rules| ==> RuleHits(vec, rules[r], section, k)
  }

  lemma HeadRule(vec: Vectors, rules: seq<Rule>, section: nat, k: nat)
    requires rules != []
    ensures AllHit(vec, rules, section, k) <==> RuleHits(vec, rules[0], section, k) && AllHit(vec, rules[1..], section, k)
  {
    assert forall r :: 0 < r < |rules| ==> rules[r] == rules[1..][r - 1];
  }

  function Ones(size: nat): Bytes {
    seq(size / 8, _ => 0xff)
  }

  lemma AllOnes(size: nat, k: nat)
    requires k < 8 * (size / 8)
    ensures BitAt(Ones(size), k)
  {
    MaskTable(k % 8);
  }

  /** A section passes each rule in turn and is dropped as soon as no block is left. */
  function Through(vec: Vectors, rules: seq<Rule>, section: nat, size: nat, bitset: Bytes): Option<Bytes>
    decreases |rules|
  {
    if rules == [] then Some(bitset)
    else
      var out := Filtered(vec, rules[0], section, size, bitset);
      if AllZero(out) then None else Through(vec, rules[1..], section, size, out)
  }

  predicate SomeBit(v: Bytes) {
    exists k: nat :: k < 8 * |v| && BitAt(v, k)
  }

  lemma NonZeroVectorHasBit(v: Bytes)
    ensures AllZero(v) <==> !SomeBit(v)
  {
    if i: nat :| i < |v| && v[i] != 0 {
      NonZeroHasBit(v[i]);
      var b: nat :| b < 8 && Bit(v[i], b);
      assert BitAt(v, 8 * i + b);
    } else {
      forall k: nat | k < 8 * |v| ensures !BitAt(v, k) { ZeroVectorHasNoBit(v, k); }
    }
  }

  /** What comes out has exactly the blocks set that were set and that every rule hits, and it is dropped
      exactly when there is a rule and no such block. */
  lemma {:induction false} ThroughBits(vec: Vectors, rules: seq<Rule>, section: nat, size: nat, bitset: Bytes)
    requires Sized(vec, size) && 8 * |bitset| == size
    ensures var out := Through(vec, rules, section, size, bitset);
            && (out.None? <==> rules != [] && forall k: nat :: k < size ==> !(BitAt(bitset, k) && AllHit(vec, rules, section, k)))
            && (out.Some? ==> 8 * |out.value| == size)
            && (out.Some? ==> forall k: nat :: k < size ==> (BitAt(out.value, k) <==> BitAt(bitset, k) && AllHit(vec, rules, section, k)))
    decreases |rules|
  {
    if rules != [] {
      var out := Filtered(vec, rules[0], section, size, bitset);
      FilteredBits(vec, rules[0], section, size, bitset);
      NonZeroVectorHasBit(out);
      forall k: nat | k < size
        ensures BitAt(bitset, k) && AllHit(vec, rules, section, k) <==> BitAt(out, k) && AllHit(vec, rules[1..], section, k)
      {
        HeadRule(vec, rules, section, k);
      }
      if !AllZero(out) { ThroughBits(vec, rules[1..], section, size, out); }
    }
  }

  /** A section is fed in with every block set. What comes out has exactly the blocks set that every rule
      hits; nothing comes out exactly when there is a rule and no block is hit. */
  method RunSection(vec: Vectors, rules: seq<Rule>, section: nat, size: nat) returns (out: Option<Bytes>)
    requires Sized(vec, size)
    ensures out == Through(vec, rules, section, size, Ones(size))
    ensures out.None? <==> rules != [] && forall k: nat :: k < size ==> !AllHit(vec, rules, section, k)
    ensures out.Some? ==> 8 * |out.value| == size
    ensures out.Some? ==> forall k: nat :: k < size ==> (BitsOf(out.value)[k] <==> AllHit(vec, rules, section, k))
  {
    FedIn(vec, rules, section, size);
    var bitset := Ones(size);
    for r := 0 to |rules|
      invariant 8 * |bitset| == size
      invariant Through(vec, rules[r..], section, size, bitset) == Through(vec, rules, section, size, Ones(size))
    {
      assert rules[r..][1..] == rules[r + 1..];
      FilteredBits(vec, rules[r], section, size, bitset);
      bitset := SubMatch(vec, rules[r], section, size, bitset);
      var test := ToArray(bitset);
      var some := FastTestBytes(test);
      if !some { return None; }
    }
    return Some(bitset);
  }

  lemma FedIn(vec: Vectors, rules: seq<Rule>, section: nat, size: nat)
    requires Sized(vec, size)
    ensures 8 * |Ones(size)| == size
    ensures var out := Through(vec, rules, section, size, Ones(size));
            && (out.None? <==> rules != [] && forall k: nat :: k < size ==> !AllHit(vec, rules, section, k))
            && (out.Some? ==> 8 * |out.value| == size)
            && (out.Some? ==> forall k: nat :: k < size ==> (BitAt(out.value, k) <==> AllHit(vec, rules, section, k)))
  {
    assert 8 * |vec(0, 0)| == size;
    forall k: nat | k < size ensures BitAt(Ones(size), k) { AllOnes(size, k); }
    ThroughBits(vec, rules, section, size, Ones(size));
  }
}
