/** HeaderChain of blockchain/headerchain.go: the header table, the total-difficulty table, the
    canonical index and the current header, as WriteHeader and SetHead change them. */
module HeaderChain {
  import opened Common
  import opened Chain

  datatype Store = Store(
    headers: set<Header>,
    td: map<Header, nat>,
    canon: map<int, Hash>,
    current: Header,
    genesis: Header)

  /** UnknownAncestor is the error return; Panic stands for the nil dereference of the second loop. */
  datatype Outcome = UnknownAncestor | Panic | Written(store: Store, status: Status)

  // ---------------------------------------------------------------- the code on values

  function GetTd(s: Store, hash: Hash, number: int): Option<nat> {
    if hash.Of? && hash.header in s.td && hash.header.number == number then Some(s.td[hash.header]) else None
  }

  /** The first loop: canonical numbers above the new head. */
  function DeleteAbove(canon: map<int, Hash>, i: int): (r: map<int, Hash>)
    decreases |canon|
  {
    if CanonicalHash(canon, i) == Zero then canon else DeleteAbove(canon - {i}, i + 1)
  }

  datatype Index = Broken | Index(canon: map<int, Hash>)

  /** The second loop: stale canonical numbers below the new head. */
  function Overwrite(headers: set<Header>, canon: map<int, Hash>, hash: Hash, n: int): (r: Index)
    decreases n
  {
    if CanonicalHash(canon, n) == hash then Index(canon)
    else
      match GetHeader(headers, hash, n)
      case None => Broken
      case Some(h) => Overwrite(headers, canon[n := hash], h.parent, h.number - 1)
  }

  predicate Reorganises(s: Store, h: Header, coin: bool)
    requires GetTd(s, h.parent, h.number - 1).Some? && s.current in s.td
  {
    var extern, local := h.difficulty + GetTd(s, h.parent, h.number - 1).value, s.td[s.current];
    extern > local || (extern == local && coin)
  }

  function WriteHeader(s: Store, h: Header, coin: bool): (r: Outcome)
    requires s.current in s.td
  {
    var ptd := GetTd(s, h.parent, h.number - 1);
    if ptd.None? then UnknownAncestor
    else
      var t := s.(td := s.td[h := h.difficulty + ptd.value], headers := s.headers + {h});
      if Reorganises(s, h, coin) then
        match Overwrite(t.headers, DeleteAbove(s.canon, h.number + 1), h.parent, h.number - 1)
        case Broken => Panic
        case Index(canon) => Written(t.(canon := canon[h.number := Of(h)], current := h), CanonStatTy)
      else Written(t, SideStatTy)
  }

  /** The rewinding loop of SetHead. */
  function Rewind(s: Store, head: nat): (r: Store)
    decreases s.current
  {
    if s.current.number <= head then s
    else
      var h := s.current;
      var t := s.(headers := s.headers - {h}, td := s.td - {h});
      match ParentIn(t.headers, h)
      case None => t.(current := s.genesis)
      case Some(p) => Rewind(t.(current := p), head)
  }

  /** The renumbering loop of SetHead. */
  function DropCanonical(canon: map<int, Hash>, height: nat, head: nat): map<int, Hash>
    decreases height
  {
    if height <= head then canon else DropCanonical(canon - {height as int}, height - 1, head)
  }

  function SetHead(s: Store, head: nat): Store {
    var t := Rewind(s, head);
    t.(canon := DropCanonical(s.canon, s.current.number, head))
  }

  // ---------------------------------------------------------------- invariants

  /** A header is stored together with its total difficulty, and only the genesis has no parent. */
  ghost predicate Linked(s: Store) {
    && s.td.Keys == s.headers
    && s.genesis in s.headers && s.genesis.number == 0 && s.genesis.parent.Zero?
    && (forall h :: h in s.headers ==> s.td[h] == TotalDifficulty(h))
    && (forall h :: h in s.headers && h != s.genesis ==> h.parent.Of? && h.number == h.parent.header.number + 1)
  }

  /** What WriteHeader and SetHead both keep: the canonical index is the ancestor path of the current
      header and nothing above it, and every stored total difficulty is the sum along its path. */
  ghost predicate Canonical(s: Store) {
    && Linked(s)
    && s.current in s.headers
    && Rooted(s.headers, s.genesis, s.current)
    && IsPath(s.headers, s.canon, s.current)
  }

  /** What WriteHeader keeps besides, as long as nothing is rewound: no header has a missing ancestor
      and none is heavier than the current one. */
  ghost predicate Best(s: Store) {
    && Canonical(s)
    && (forall h :: h in s.headers ==> Rooted(s.headers, s.genesis, h))
    && (forall h :: h in s.headers ==> s.td[h] <= s.td[s.current])
  }

  lemma GenesisIsBest(genesis: Header)
    requires genesis.number == 0 && genesis.parent.Zero?
    ensures Best(Store({genesis}, map[genesis := genesis.difficulty], map[0 := Of(genesis)], genesis, genesis))
  {
  }

  // ---------------------------------------------------------------- growing the table

  lemma {:induction false} RootedGrows(headers: set<Header>, genesis: Header, h: Header, g: Header)
    requires Rooted(headers, genesis, h)
    ensures Rooted(headers + {g}, genesis, h)
    decreases h
  {
    if h.number > 0 { RootedGrows(headers, genesis, h.parent.header, g); }
  }

  // ---------------------------------------------------------------- the two loops

  lemma {:induction false} DeleteAboveKeepsBelow(canon: map<int, Hash>, i: int, top: int)
    requires forall n: int :: i <= n ==> (n in canon <==> n <= top)
    requires forall n :: n in canon ==> canon[n].Of?
    ensures var r := DeleteAbove(canon, i);
            && (forall n: int :: n in r <==> n in canon && n < i)
            && (forall n :: n in r ==> r[n] == canon[n])
    decreases |canon|
  {
    if i in canon {
      DeleteAboveKeepsBelow(canon - {i}, i + 1, top);
    }
  }

  /** The canonical index below number `n` belongs to the path of `was`. */
  ghost predicate PathBelow(headers: set<Header>, canon: map<int, Hash>, was: Header, n: int) {
    && (forall k: int :: k in canon && k <= n ==> 0 <= k <= was.number)
    && (forall k: int :: 0 <= k <= n && k <= was.number ==> k in canon)
    && (forall k: nat :: k <= n && k <= was.number ==> AncestorAt(headers, was, k).Some? && CanonicalHash(canon, k) == Of(AncestorAt(headers, was, k).value))
  }

  /** `r` holds the path of `p` up to its number and agrees with `canon` above. */
  ghost predicate PathAfter(headers: set<Header>, r: map<int, Hash>, canon: map<int, Hash>, p: Header) {
    && (forall n: int :: n in r && n <= p.number <==> 0 <= n <= p.number)
    && (forall n: nat :: n <= p.number ==> AncestorAt(headers, p, n).Some? && CanonicalHash(r, n) == Of(AncestorAt(headers, p, n).value))
    && (forall n: int :: n > p.number ==> SameAt(r, canon, n))
  }

  predicate SameAt(r: map<int, Hash>, canon: map<int, Hash>, n: int) {
    (n in r <==> n in canon) && CanonicalHash(r, n) == CanonicalHash(canon, n)
  }

  /** The second loop ends without touching a missing header exactly when all ancestors of `p` are
      stored, and then it leaves the path of `p` below it and the rest as it was. */
  lemma {:induction false} OverwriteIsPath(headers: set<Header>, genesis: Header, canon: map<int, Hash>, was: Header, p: Header)
    requires Rooted(headers, genesis, was) && PathBelow(headers, canon, was, p.number)
    requires p in headers && was in headers && genesis.number == 0
    requires forall h :: h in headers && h != genesis ==> h.parent.Of? && h.number == h.parent.header.number + 1
    ensures Overwrite(headers, canon, Of(p), p.number).Index? <==> Rooted(headers, genesis, p)
    ensures Rooted(headers, genesis, p) ==> PathAfter(headers, Overwrite(headers, canon, Of(p), p.number).canon, canon, p)
    decreases p
  {
    if CanonicalHash(canon, p.number) == Of(p) {
      assert p.number <= was.number && AncestorAt(headers, was, p.number) == Some(p);
      RootedAncestor(headers, genesis, was, p);
      forall n: nat | n <= p.number
        ensures AncestorAt(headers, p, n).Some? && CanonicalHash(canon, n) == Of(AncestorAt(headers, p, n).value)
      {
        AncestorBelow(headers, was, p.number, n);
        RootedReaches(headers, genesis, was, n);
      }
    } else {
      var c := canon[p.number := Of(p)];
      if p == genesis {
        RootedReaches(headers, genesis, was, 0);
        assert false;
      } else {
        var q := p.parent.header;
        if q in headers {
          OverwriteIsPath(headers, genesis, c, was, q);
          if Rooted(headers, genesis, q) { PathAfterStep(headers, Overwrite(headers, c, Of(q), q.number).canon, canon, p); }
        } else {
          if q.number <= was.number { AncestorStored(headers, was, q.number); }
        }
      }
    }
  }

  lemma PathAfterStep(headers: set<Header>, r: map<int, Hash>, canon: map<int, Hash>, p: Header)
    requires p.number > 0 && ParentIn(headers, p).Some?
    requires PathAfter(headers, r, canon[p.number := Of(p)], p.parent.header)
    ensures PathAfter(headers, r, canon, p)
  {
    var c := canon[p.number := Of(p)];
    assert SameAt(r, c, p.number);
    forall n: int | n > p.number ensures SameAt(r, canon, n) {
      assert SameAt(r, c, n);
    }
  }

  lemma {:induction false} RootedAncestor(headers: set<Header>, genesis: Header, h: Header, p: Header)
    requires Rooted(headers, genesis, h) && AncestorAt(headers, h, p.number) == Some(p)
    ensures Rooted(headers, genesis, p)
    decreases h
  {
    if h.number > p.number { RootedAncestor(headers, genesis, h.parent.header, p); }
  }

  lemma {:induction false} AncestorStored(headers: set<Header>, h: Header, n: nat)
    requires h in headers && AncestorAt(headers, h, n).Some?
    ensures AncestorAt(headers, h, n).value in headers
    decreases h
  {
    if h.number > n { AncestorStored(headers, h.parent.header, n); }
  }

  // ---------------------------------------------------------------- WriteHeader

  ghost predicate ParentStored(s: Store, h: Header) {
    h.parent.Of? && h.parent.header in s.headers && h.number == h.parent.header.number + 1
  }

  /** The path of `h` is heavier than that of the current header, or equally heavy and the coin is for it. */
  predicate Overtakes(s: Store, h: Header, coin: bool) {
    TotalDifficulty(h) > TotalDifficulty(s.current) || (TotalDifficulty(h) == TotalDifficulty(s.current) && coin)
  }

  lemma ReorganisesIff(s: Store, h: Header, coin: bool)
    requires Linked(s) && s.current in s.headers && ParentStored(s, h)
    ensures GetTd(s, h.parent, h.number - 1) == Some(TotalDifficulty(h) - h.difficulty)
    ensures Reorganises(s, h, coin) <==> Overtakes(s, h, coin)
  {
  }

  /** A header cannot be its own ancestor, so storing it roots nothing of at most its number. */
  lemma {:induction false} RootedLocal(headers: set<Header>, genesis: Header, h: Header, g: Header)
    requires h.number <= g.number
    ensures Rooted(headers + {g}, genesis, h) <==> Rooted(headers, genesis, h)
    ensures Rooted(headers - {g}, genesis, h) <==> Rooted(headers, genesis, h)
    decreases h
  {
    if h.number > 0 && ParentIn(headers, h).Some? { RootedLocal(headers, genesis, h.parent.header, g); }
  }

  lemma {:induction false} AncestorLocal(headers: set<Header>, h: Header, g: Header, n: nat)
    requires h.number <= g.number
    ensures AncestorAt(headers - {g}, h, n) == AncestorAt(headers, h, n)
    decreases h
  {
    if h.number > n && ParentIn(headers, h).Some? { AncestorLocal(headers, h.parent.header, g, n); }
  }

  lemma StoreKeepsLinked(s: Store, h: Header)
    requires Linked(s) && ParentStored(s, h)
    ensures Linked(s.(td := s.td[h := h.difficulty + s.td[h.parent.header]], headers := s.headers + {h}))
  {
  }

  /** The new canonical index: the path of `h`. */
  lemma HeadPath(headers: set<Header>, r: map<int, Hash>, canon: map<int, Hash>, h: Header)
    requires ParentIn(headers, h).Some?
    requires PathAfter(headers, r, canon, h.parent.header)
    requires forall n: int :: n in canon ==> n <= h.number
    ensures IsPath(headers, r[h.number := Of(h)], h)
  {
    var c := r[h.number := Of(h)];
    forall n: int ensures n in c <==> 0 <= n <= h.number {
      if n > h.number { assert SameAt(r, canon, n); }
    }
    forall n: nat | n <= h.number
      ensures AncestorAt(headers, h, n).Some? && CanonicalHash(c, n) == Of(AncestorAt(headers, h, n).value)
    {
      assert n < h.number ==> CanonicalHash(c, n) == CanonicalHash(r, n);
    }
  }

  lemma BothLoops(s: Store, h: Header)
    requires Canonical(s) && ParentStored(s, h)
    ensures var t := s.headers + {h};
            var r := Overwrite(t, DeleteAbove(s.canon, h.number + 1), h.parent, h.number - 1);
            && (r.Index? <==> Rooted(s.headers, s.genesis, h.parent.header))
            && (r.Index? ==> IsPath(t, r.canon[h.number := Of(h)], h))
  {
    var t, p := s.headers + {h}, h.parent.header;
    forall n | n in s.canon ensures s.canon[n].Of? {
      assert 0 <= n <= s.current.number && CanonicalHash(s.canon, n).Of?;
    }
    DeleteAboveKeepsBelow(s.canon, h.number + 1, s.current.number);
    var c := DeleteAbove(s.canon, h.number + 1);
    PathGrows(s.headers, s.canon, s.current, h);
    RootedGrows(s.headers, s.genesis, s.current, h);
    assert PathBelow(t, c, s.current, p.number);
    OverwriteIsPath(t, s.genesis, c, s.current, p);
    RootedLocal(s.headers, s.genesis, p, h);
    if Rooted(t, s.genesis, p) {
      HeadPath(t, Overwrite(t, c, Of(p), p.number).canon, c, h);
    }
  }

  /** The store with `h` added, as WriteHeader leaves it for a side header. */
  ghost function Added(s: Store, h: Header): Store
    requires Linked(s) && ParentStored(s, h)
  {
    s.(td := s.td[h := h.difficulty + s.td[h.parent.header]], headers := s.headers + {h})
  }

  lemma AddedIsCanonical(s: Store, h: Header)
    requires Canonical(s) && ParentStored(s, h)
    ensures Canonical(Added(s, h))
  {
    StoreKeepsLinked(s, h);
    RootedGrows(s.headers, s.genesis, s.current, h);
    PathGrows(s.headers, s.canon, s.current, h);
  }

  lemma HeadIsCanonical(s: Store, h: Header, canon: map<int, Hash>)
    requires Canonical(s) && ParentStored(s, h) && Rooted(s.headers, s.genesis, h.parent.header)
    requires IsPath(s.headers + {h}, canon, h)
    ensures Canonical(Added(s, h).(canon := canon, current := h))
  {
    StoreKeepsLinked(s, h);
    RootedLocal(s.headers, s.genesis, h.parent.header, h);
  }

  lemma WriteHeaderIs(s: Store, h: Header, coin: bool)
    requires Linked(s) && s.current in s.headers
    ensures WriteHeader(s, h, coin).UnknownAncestor? <==> !ParentStored(s, h)
    ensures ParentStored(s, h) && !Reorganises(s, h, coin) ==> WriteHeader(s, h, coin) == Written(Added(s, h), SideStatTy)
    ensures ParentStored(s, h) && Reorganises(s, h, coin) ==>
              WriteHeader(s, h, coin) ==
                match Overwrite(s.headers + {h}, DeleteAbove(s.canon, h.number + 1), h.parent, h.number - 1)
                case Broken => Panic
                case Index(canon) => Written(Added(s, h).(canon := canon[h.number := Of(h)], current := h), CanonStatTy)
  {
  }

  /** WriteHeader on any store whose canonical index is in order, for every header and either outcome of
      the coin: it refuses a header exactly when the parent is not stored, it reaches the nil header of
      the second loop exactly when it reorganises onto a parent with a missing ancestor, and otherwise
      the canonical index is again the ancestor path of the current header and nothing above it. */
  lemma WriteHeaderOutcome(s: Store, h: Header, coin: bool)
    requires Canonical(s)
    ensures WriteHeader(s, h, coin).UnknownAncestor? <==> !ParentStored(s, h)
    ensures WriteHeader(s, h, coin).Panic? <==>
              ParentStored(s, h) && Overtakes(s, h, coin) && !Rooted(s.headers, s.genesis, h.parent.header)
    ensures WriteHeader(s, h, coin).Written? ==>
              var r := WriteHeader(s, h, coin);
              && Canonical(r.store)
              && r.store.headers == s.headers + {h} && r.store.genesis == s.genesis
              && (r.status == CanonStatTy <==> Overtakes(s, h, coin))
              && r.store.current == if Overtakes(s, h, coin) then h else s.current
  {
    WriteHeaderIs(s, h, coin);
    if ParentStored(s, h) {
      ReorganisesIff(s, h, coin);
      BothLoops(s, h);
      if !Overtakes(s, h, coin) {
        AddedIsCanonical(s, h);
      } else if Rooted(s.headers, s.genesis, h.parent.header) {
        HeadIsCanonical(s, h, WriteHeader(s, h, coin).store.canon);
      }
    }
  }

  /** As long as nothing was rewound WriteHeader cannot fail that way, and the current header is always
      a heaviest one. */
  lemma WriteHeaderKeepsBest(s: Store, h: Header, coin: bool)
    requires Best(s)
    ensures !WriteHeader(s, h, coin).Panic?
    ensures WriteHeader(s, h, coin).Written? ==> Best(WriteHeader(s, h, coin).store)
  {
    WriteHeaderOutcome(s, h, coin);
    if ParentStored(s, h) {
      var t := WriteHeader(s, h, coin).store;
      forall g | g in t.headers ensures Rooted(t.headers, t.genesis, g) {
        if g in s.headers { RootedGrows(s.headers, s.genesis, g, h); }
        if g == h { RootedGrows(s.headers, s.genesis, h.parent.header, h); }
      }
      assert t.td[h] == h.difficulty + s.td[h.parent.header];
    }
  }

  // ---------------------------------------------------------------- SetHead

  /** The headers SetHead deletes: those of the canonical chain above the new head. */
  ghost predicate Rewound(headers: set<Header>, current: Header, head: nat, h: Header) {
    h.number > head && AncestorAt(headers, current, h.number) == Some(h)
  }

  /** Where SetHead ends up: the ancestor at the given number, or the genesis where an ancestor is missing on
      the way. */
  function NewHead(s: Store, head: nat): Header {
    if s.current.number <= head then s.current
    else
      match AncestorAt(s.headers, s.current, head)
      case None => s.genesis
      case Some(a) => a
  }

  /** On every store the rewinding loop ends there and deletes exactly the ancestors above it that are stored. */
  lemma {:induction false} RewindEnds(s: Store, head: nat)
    ensures var t := Rewind(s, head);
            && t.current == NewHead(s, head)
            && (forall h :: h in t.headers <==> h in s.headers && !Rewound(s.headers, s.current, head, h))
            && (forall h :: h in t.td <==> h in s.td && !Rewound(s.headers, s.current, head, h))
            && (forall h :: h in t.td ==> t.td[h] == s.td[h])
    decreases s.current
  {
    if s.current.number > head {
      var c := s.current;
      var t := s.(headers := s.headers - {c}, td := s.td - {c});
      assert ParentIn(t.headers, c) == ParentIn(s.headers, c);
      assert Rewound(s.headers, c, head, c);
      if ParentIn(s.headers, c).Some? {
        var p := ParentIn(s.headers, c).value;
        RewindEnds(t.(current := p), head);
        AncestorLocal(s.headers, p, c, head);
        forall h | h != c ensures Rewound(t.headers, p, head, h) <==> Rewound(s.headers, c, head, h) {
          AncestorLocal(s.headers, p, c, h.number);
        }
      }
    }
  }

  lemma {:induction false} RewindIs(s: Store, head: nat)
    requires Linked(s) && s.current in s.headers && Rooted(s.headers, s.genesis, s.current)
    ensures var t := Rewind(s, head);
            && Linked(t) && t.current in t.headers && Rooted(t.headers, t.genesis, t.current)
            && t.genesis == s.genesis && t.canon == s.canon
            && t.current.number == (if s.current.number <= head then s.current.number else head)
            && AncestorAt(s.headers, s.current, t.current.number) == Some(t.current)
            && (forall n: nat :: AncestorAt(t.headers, t.current, n) == AncestorAt(s.headers, t.current, n))
    decreases s.current
  {
    if s.current.number > head {
      var c, p := s.current, s.current.parent.header;
      var t := s.(headers := s.headers - {c}, td := s.td - {c});
      assert ParentIn(t.headers, c) == Some(p);
      RootedLocal(s.headers, s.genesis, p, c);
      RewindIs(t.(current := p), head);
      var u := Rewind(s, head);
      AncestorLocal(s.headers, p, c, u.current.number);
      forall n: nat ensures AncestorAt(u.headers, u.current, n) == AncestorAt(s.headers, u.current, n) {
        AncestorLocal(s.headers, u.current, c, n);
      }
    }
  }

  lemma {:induction false} DropCanonicalIs(canon: map<int, Hash>, height: nat, head: nat)
    ensures var r := DropCanonical(canon, height, head);
            && (forall n: int :: n in r <==> n in canon && !(head < n <= height))
            && (forall n :: n in r ==> r[n] == canon[n])
    decreases height
  {
    if height > head {
      var less: map<int, Hash> := canon - {height as int};
      DropCanonicalIs(less, height - 1, head);
      assert forall n: int :: n in less <==> n in canon && n != height;
    }
  }

  /** SetHead rewinds to the ancestor at the given number, deletes exactly the canonical headers above it
      and leaves the canonical index in order. */
  lemma SetHeadRewinds(s: Store, head: nat)
    requires Canonical(s)
    ensures var t := SetHead(s, head);
            && Canonical(t)
            && AncestorAt(s.headers, s.current, if s.current.number <= head then s.current.number else head) == Some(t.current)
            && (forall h :: h in t.headers <==> h in s.headers && !Rewound(s.headers, s.current, head, h))
  {
    RewindIs(s, head);
    RewindEnds(s, head);
    DropCanonicalIs(s.canon, s.current.number, head);
    var t := SetHead(s, head);
    forall n: nat | n <= t.current.number
      ensures AncestorAt(t.headers, t.current, n).Some? && CanonicalHash(t.canon, n) == Of(AncestorAt(t.headers, t.current, n).value)
    {
      AncestorBelow(s.headers, s.current, t.current.number, n);
    }
  }

  /** What SetHead loses: a branch that hung off a deleted header stays stored, and a header written onto it
      meets the missing ancestor. Here 1 - 2 is canonical, 2' is a side branch on 1, the chain is rewound to
      the genesis, and a child of 2' arrives. */
  lemma RewoundBranchPanics()
    ensures var g := Header(Zero, 0, 1, 0, 0);
            var h1 := Header(Of(g), 1, 1, 0, 0);
            var h2 := Header(Of(h1), 2, 2, 0, 0);
            var side := Header(Of(h1), 2, 1, 0, 1);
            var s := Store({g, h1, h2, side}, map[g := 1, h1 := 2, h2 := 4, side := 3],
                           map[0 := Of(g), 1 := Of(h1), 2 := Of(h2)], h2, g);
            && Best(s)
            && !Best(SetHead(s, 0)) && SetHead(s, 0).current in SetHead(s, 0).td
            && WriteHeader(SetHead(s, 0), Header(Of(side), 3, 1, 0, 0), false).Panic?
  {
    var g := Header(Zero, 0, 1, 0, 0);
    var h1 := Header(Of(g), 1, 1, 0, 0);
    var h2 := Header(Of(h1), 2, 2, 0, 0);
    var side := Header(Of(h1), 2, 1, 0, 1);
    var headers := {g, h1, h2, side};
    var s := Store(headers, map[g := 1, h1 := 2, h2 := 4, side := 3],
                   map[0 := Of(g), 1 := Of(h1), 2 := Of(h2)], h2, g);
    assert Rooted(headers, g, g);
    assert Rooted(headers, g, h1);
    assert AncestorAt(headers, h2, 0) == AncestorAt(headers, h1, 0) == Some(g);
    assert AncestorAt(headers, h2, 1) == Some(h1);
    assert TotalDifficulty(h1) == 2;
    assert s.td.Keys == headers;
    assert Best(s);
    SetHeadRewinds(s, 0);
    var t := SetHead(s, 0);
    var x := Header(Of(side), 3, 1, 0, 0);
    assert AncestorAt(headers, h2, 2) == Some(h2);
    assert Rewound(headers, h2, 0, h1) && !Rewound(headers, h2, 0, side);
    assert !Rooted(t.headers, g, side);
    WriteHeaderOutcome(t, x, false);
    assert TotalDifficulty(side) == 3 && TotalDifficulty(g) == 1;
  }

  // ---------------------------------------------------------------- runs

  datatype Call = Write(header: Header, coin: bool) | Rewinding(head: nat)

  /** The store after a run of calls; None once a call panicked. A refused header changes nothing. */
  function Run(s: Store, calls: seq<Call>): (r: Option<Store>)
    requires Canonical(s)
    ensures r.Some? ==> Canonical(r.value)
    decreases |calls|
  {
    if calls == [] then Some(s)
    else
      var before := Run(s, calls[..|calls| - 1]);
      if before.None? then None
      else
        match calls[|calls| - 1]
        case Rewinding(head) => SetHeadRewinds(before.value, head); Some(SetHead(before.value, head))
        case Write(h, coin) =>
          WriteHeaderOutcome(before.value, h, coin);
          match WriteHeader(before.value, h, coin)
          case Panic => None
          case UnknownAncestor => before
          case Written(t, _) => Some(t)
  }

  /** In every run of WriteHeader calls from the genesis no call panics, and the current header is a
      heaviest stored header whose ancestor path is the canonical index. */
  lemma {:induction false} HeaviestInEveryRun(s: Store, calls: seq<Call>)
    requires Best(s) && forall i :: 0 <= i < |calls| ==> calls[i].Write?
    ensures Run(s, calls).Some? && Best(Run(s, calls).value)
    decreases |calls|
  {
    if calls != [] {
      var front, last := calls[..|calls| - 1], calls[|calls| - 1];
      HeaviestInEveryRun(s, front);
      WriteHeaderKeepsBest(Run(s, front).value, last.header, last.coin);
    }
  }
}
