/** Headers, their hashes and the header table of the chain database (blockchain/database_util.go).
    A hash is a free constructor over the header it was computed from, so hashing is injective;
    everything the code learns about a hash it still has to look up in the table. */
module Chain {
  import opened Common

  datatype Hash = Zero | Of(header: Header)

  datatype Header = Header(parent: Hash, number: nat, difficulty: nat, coinbase: nat, extra: nat)

  /** WriteStatus of blockchain/blockchain.go. */
  datatype Status = NonStatTy | CanonStatTy | SideStatTy

  /** GetHeader(db, hash, number): the table is keyed by number and hash. A number of -1 stands for
      the wrapped-around key the code asks for below number 0. */
  function GetHeader(headers: set<Header>, hash: Hash, number: int): (r: Option<Header>)
  {
    if hash.Of? && hash.header in headers && hash.header.number == number then Some(hash.header) else None
  }

  function ParentIn(headers: set<Header>, h: Header): Option<Header> {
    GetHeader(headers, h.parent, h.number - 1)
  }

  /** The header numbered `n` on the way from `h` down through stored parents; `h` itself need not be stored. */
  function AncestorAt(headers: set<Header>, h: Header, n: nat): (r: Option<Header>)
    ensures r.Some? ==> r.value.number == n
    decreases h
  {
    if h.number == n then Some(h)
    else if h.number < n then None
    else
      match ParentIn(headers, h)
      case None => None
      case Some(p) => AncestorAt(headers, p, n)
  }

  /** All ancestors of `h` are stored, down to `genesis`. */
  predicate Rooted(headers: set<Header>, genesis: Header, h: Header)
    decreases h
  {
    if h.number == 0 then h == genesis
    else ParentIn(headers, h).Some? && Rooted(headers, genesis, h.parent.header)
  }

  lemma {:induction false} RootedReaches(headers: set<Header>, genesis: Header, h: Header, n: nat)
    requires Rooted(headers, genesis, h) && n <= h.number
    ensures AncestorAt(headers, h, n).Some?
    ensures n == 0 ==> AncestorAt(headers, h, n) == Some(genesis)
    decreases h
  {
    if n < h.number {
      RootedReaches(headers, genesis, h.parent.header, n);
    }
  }

  lemma {:induction false} AncestorStep(headers: set<Header>, h: Header, n: nat)
    requires AncestorAt(headers, h, n + 1).Some?
    ensures AncestorAt(headers, h, n) == ParentIn(headers, AncestorAt(headers, h, n + 1).value)
    decreases h
  {
    if h.number > n + 1 {
      AncestorStep(headers, h.parent.header, n);
    }
  }

  lemma {:induction false} AncestorBelow(headers: set<Header>, h: Header, m: nat, n: nat)
    requires n <= m && AncestorAt(headers, h, m).Some?
    ensures AncestorAt(headers, h, n) == AncestorAt(headers, AncestorAt(headers, h, m).value, n)
    decreases h
  {
    if h.number > m {
      AncestorBelow(headers, h.parent.header, m, n);
    }
  }

  // ---------------------------------------------------------------- common ancestor

  ghost predicate CommonAt(headers: set<Header>, a: Header, b: Header, n: nat) {
    AncestorAt(headers, a, n).Some? && AncestorAt(headers, a, n) == AncestorAt(headers, b, n)
  }

  /** `c` is an ancestor of both, and no header with a greater number is. */
  ghost predicate LastCommon(headers: set<Header>, a: Header, b: Header, c: Header) {
    && AncestorAt(headers, a, c.number) == Some(c) && AncestorAt(headers, b, c.number) == Some(c)
    && forall n: nat :: n > c.number ==> !CommonAt(headers, a, b, n)
  }

  /** FindCommonAncestor. On every store the result is the common ancestor with the greatest
      number, and nil is returned exactly when stored parents lead to none. */
  method FindCommonAncestor(headers: set<Header>, a0: Header, b0: Header) returns (r: Option<Header>)
    ensures r.Some? ==> LastCommon(headers, a0, b0, r.value)
    ensures r.None? <==> forall n: nat :: !CommonAt(headers, a0, b0, n)
  {
    var a, b := a0, b0;
    while a.number > b.number
      invariant a.number >= b0.number || a == a0
      invariant Descended(headers, a0, a)
      decreases a.number
    {
      var p := GetHeader(headers, a.parent, a.number - 1);
      if p.None? {
        NoneBelow(headers, a0, a);
        NothingAboveNumber(headers, a0, b0);
        return None;
      }
      DescendStep(headers, a0, a);
      a := p.value;
    }
    while a.number < b.number
      invariant a.number <= b.number
      invariant Descended(headers, a0, a) && Descended(headers, b0, b)
      invariant a == a0 || b == b0
      decreases b.number
    {
      var p := GetHeader(headers, b.parent, b.number - 1);
      if p.None? {
        NoneBelow(headers, b0, b);
        NothingAboveNumber(headers, a0, b0);
        return None;
      }
      DescendStep(headers, b0, b);
      b := p.value;
    }
    NothingAboveNumber(headers, a0, b0);
    while a != b
      invariant a.number == b.number
      invariant Descended(headers, a0, a) && Descended(headers, b0, b)
      invariant forall n: nat :: n > a.number ==> !CommonAt(headers, a0, b0, n)
      decreases a.number
    {
      assert !CommonAt(headers, a0, b0, a.number);
      var p := GetHeader(headers, a.parent, a.number - 1);
      if p.None? {
        NoneBelow(headers, a0, a);
        return None;
      }
      DescendStep(headers, a0, a);
      a := p.value;
      var q := GetHeader(headers, b.parent, b.number - 1);
      if q.None? {
        NoneBelow(headers, b0, b);
        return None;
      }
      DescendStep(headers, b0, b);
      b := q.value;
    }
    assert CommonAt(headers, a0, b0, a.number);
    return Some(a);
  }

  ghost predicate Descended(headers: set<Header>, from: Header, to: Header) {
    AncestorAt(headers, from, to.number) == Some(to)
  }

  lemma DescendStep(headers: set<Header>, from: Header, to: Header)
    requires Descended(headers, from, to) && ParentIn(headers, to).Some?
    ensures Descended(headers, from, ParentIn(headers, to).value)
  {
    AncestorStep(headers, from, to.number - 1);
  }

  lemma NoneBelow(headers: set<Header>, from: Header, to: Header)
    requires Descended(headers, from, to) && ParentIn(headers, to).None?
    ensures forall n: nat :: n < to.number ==> AncestorAt(headers, from, n).None?
  {
    forall n: nat | n < to.number ensures AncestorAt(headers, from, n).None? {
      AncestorBelow(headers, from, to.number, n);
    }
  }

  lemma NothingAboveNumber(headers: set<Header>, a: Header, b: Header)
    ensures forall n: nat :: n > a.number || n > b.number ==> !CommonAt(headers, a, b, n)
  {
  }

  /** On a store in which both headers are rooted in one genesis there always is a common ancestor. */
  lemma RootedHaveCommon(headers: set<Header>, genesis: Header, a: Header, b: Header)
    requires Rooted(headers, genesis, a) && Rooted(headers, genesis, b)
    ensures CommonAt(headers, a, b, 0)
  {
    RootedReaches(headers, genesis, a, 0);
    RootedReaches(headers, genesis, b, 0);
  }

  /** The common ancestors are exactly the last one and its ancestors. */
  lemma CommonBelowLast(headers: set<Header>, a: Header, b: Header, c: Header, n: nat)
    requires LastCommon(headers, a, b, c)
    ensures CommonAt(headers, a, b, n) <==> n <= c.number && AncestorAt(headers, c, n).Some?
  {
    if n <= c.number {
      AncestorBelow(headers, a, c.number, n);
      AncestorBelow(headers, b, c.number, n);
    }
  }

  // ---------------------------------------------------------------- the canonical index

  function CanonicalHash(canon: map<int, Hash>, n: int): Hash {
    if n in canon then canon[n] else Zero
  }

  function TotalDifficulty(h: Header): nat
    decreases h
  {
    h.difficulty + (if h.parent.Of? then TotalDifficulty(h.parent.header) else 0)
  }

  /** The canonical index of a chain whose head is `h`. */
  ghost predicate IsPath(headers: set<Header>, canon: map<int, Hash>, h: Header) {
    && (forall n: int :: n in canon <==> 0 <= n <= h.number)
    && (forall n: nat :: n <= h.number ==> AncestorAt(headers, h, n).Some? && CanonicalHash(canon, n) == Of(AncestorAt(headers, h, n).value))
  }

  lemma {:induction false} AncestorGrows(headers: set<Header>, h: Header, g: Header, n: nat)
    requires AncestorAt(headers, h, n).Some?
    ensures AncestorAt(headers + {g}, h, n) == AncestorAt(headers, h, n)
    decreases h
  {
    if h.number > n { AncestorGrows(headers, h.parent.header, g, n); }
  }

  lemma PathGrows(headers: set<Header>, canon: map<int, Hash>, h: Header, g: Header)
    requires IsPath(headers, canon, h)
    ensures IsPath(headers + {g}, canon, h)
  {
    forall n: nat | n <= h.number
      ensures AncestorAt(headers + {g}, h, n) == AncestorAt(headers, h, n)
    {
      AncestorGrows(headers, h, g, n);
    }
  }
}
