/** WriteBlockAndState and insert of blockchain/blockchain.go: a block becomes the head only on top
    of the head, and a heavier block elsewhere is dropped without an error after its total
    difficulty was stored. A block is identified with its header. */
module BlockStore {
  import opened Common
  import opened Chain

  datatype Blocks = Blocks(
    td: map<Header, nat>,
    stored: set<Header>,
    canon: map<int, Hash>,
    currentBlock: Header,
    currentHeader: Header,
    currentFast: Header)

  /** Which of the fallible writes fails: storing the total difficulty, filling the batch, the lookup
      entries or preimages of a canonical block, flushing the batch. */
  datatype Fault = NoFault | TdFault | BatchFault | LookupFault | FlushFault

  datatype Returned = Returned(db: Blocks, status: Status, err: bool)

  function ParentTd(c: Blocks, b: Header): Option<nat> {
    if b.parent.Of? && b.parent.header in c.td && b.parent.header.number == b.number - 1
    then Some(c.td[b.parent.header]) else None
  }

  predicate Heavier(c: Blocks, b: Header)
    requires ParentTd(c, b).Some? && c.currentBlock in c.td
  {
    var extern, local := b.difficulty + ParentTd(c, b).value, c.td[c.currentBlock];
    extern > local || (extern == local && b.coinbase > c.currentBlock.coinbase)
  }

  function Inserted(c: Blocks, b: Header): Blocks {
    var d := c.(canon := c.canon[b.number := Of(b)], currentBlock := b);
    if CanonicalHash(c.canon, b.number) != Of(b) then d.(currentHeader := b, currentFast := b) else d
  }

  function WriteBlock(c: Blocks, b: Header, fault: Fault): (r: Returned)
    requires c.currentBlock in c.td
  {
    var ptd := ParentTd(c, b);
    if ptd.None? || fault == TdFault then Returned(c, NonStatTy, true)
    else
      var d := c.(td := c.td[b := b.difficulty + ptd.value]);
      if fault == BatchFault then Returned(d, NonStatTy, true)
      else if Heavier(c, b) then
        if b.parent != Of(c.currentBlock) then Returned(d, NonStatTy, false)
        else if fault == LookupFault || fault == FlushFault then Returned(d, NonStatTy, true)
        else Returned(Inserted(d.(stored := d.stored + {b}), b), CanonStatTy, false)
      else if fault == FlushFault then Returned(d, NonStatTy, true)
      else Returned(d.(stored := d.stored + {b}), SideStatTy, false)
  }

  // ---------------------------------------------------------------- invariant

  /** The three heads agree, the canonical index is the path of the head through stored blocks, and a
      stored total difficulty is the sum along the path. A total difficulty without its block is allowed. */
  ghost predicate Ordered(c: Blocks) {
    && c.currentBlock in c.stored && c.stored <= c.td.Keys
    && c.currentHeader == c.currentBlock && c.currentFast == c.currentBlock
    && (forall h :: h in c.td ==> c.td[h] == TotalDifficulty(h))
    && IsPath(c.stored, c.canon, c.currentBlock)
  }

  lemma GenesisOrdered(genesis: Header)
    requires genesis.number == 0 && genesis.parent.Zero?
    ensures Ordered(Blocks(map[genesis := genesis.difficulty], {genesis}, map[0 := Of(genesis)], genesis, genesis, genesis))
  {
  }

  /** The parent's total difficulty is stored. */
  predicate KnownParent(c: Blocks, b: Header) {
    b.parent.Of? && b.parent.header in c.td && b.number == b.parent.header.number + 1
  }

  /** The path of `b` is heavier than that of the head, or equally heavy with the greater coinbase. */
  predicate Overtakes(c: Blocks, b: Header) {
    || TotalDifficulty(b) > TotalDifficulty(c.currentBlock)
    || (TotalDifficulty(b) == TotalDifficulty(c.currentBlock) && b.coinbase > c.currentBlock.coinbase)
  }

  lemma HeavierIff(c: Blocks, b: Header)
    requires Ordered(c)
    ensures ParentTd(c, b).Some? <==> KnownParent(c, b)
    ensures KnownParent(c, b) ==> b.difficulty + ParentTd(c, b).value == TotalDifficulty(b)
    ensures KnownParent(c, b) ==> (Heavier(c, b) <==> Overtakes(c, b))
  {
  }

  /** What a call returns and stores, for every block and every fault. A block that overtakes the head is
      canonical on top of the head and dropped without an error elsewhere, any other one is a side block. The
      sum of the difficulties along the block's path is stored before everything else. */
  lemma WriteBlockStatus(c: Blocks, b: Header, fault: Fault)
    requires Ordered(c)
    ensures var r, onHead := WriteBlock(c, b, fault), b.parent == Of(c.currentBlock);
            var goesOn := KnownParent(c, b) && fault != TdFault && fault != BatchFault;
            && (r.status == CanonStatTy <==> goesOn && Overtakes(c, b) && onHead && fault == NoFault)
            && (r.status == SideStatTy <==> goesOn && !Overtakes(c, b) && fault != FlushFault)
            && (r.status == NonStatTy && !r.err <==> goesOn && Overtakes(c, b) && !onHead)
            && r.db.td == if KnownParent(c, b) && fault != TdFault then c.td[b := TotalDifficulty(b)] else c.td
  {
    HeavierIff(c, b);
  }

  /** `d` is `c` extended by one block on top of its head. */
  ghost predicate ExtendsHead(c: Blocks, d: Blocks, b: Header) {
    && d.currentBlock == b && b.parent == Of(c.currentBlock) && b.number == c.currentBlock.number + 1
    && d.canon == c.canon[b.number := Of(b)]
  }

  /** One call, for every block and every fault: the invariant holds, the head moves exactly when the
      status is canonical and then to a child of the old head, and nothing stored is lost. */
  lemma WriteBlockOutcome(c: Blocks, b: Header, fault: Fault)
    requires Ordered(c)
    ensures var r := WriteBlock(c, b, fault);
            && Ordered(r.db)
            && (if r.status == CanonStatTy then ExtendsHead(c, r.db, b) && !r.err
                else r.db.currentBlock == c.currentBlock && r.db.canon == c.canon)
            && r.db.stored == (if r.status == NonStatTy then c.stored else c.stored + {b})
            && (r.status == SideStatTy ==> KnownParent(c, b) && !Overtakes(c, b) && !r.err)
            && c.td.Keys <= r.db.td.Keys
            && c.td[c.currentBlock] <= r.db.td[r.db.currentBlock]
  {
    var r := WriteBlock(c, b, fault);
    HeavierIff(c, b);
    if KnownParent(c, b) {
      PathGrows(c.stored, c.canon, c.currentBlock, b);
      if r.status == CanonStatTy {
        assert b.number !in c.canon;
        ChildPath(c.stored + {b}, c.canon, c.currentBlock, b);
      }
    }
  }

  lemma ChildPath(stored: set<Header>, canon: map<int, Hash>, h: Header, b: Header)
    requires IsPath(stored, canon, h) && h in stored && b.parent == Of(h) && b.number == h.number + 1
    ensures IsPath(stored, canon[b.number := Of(b)], b)
  {
    var c := canon[b.number := Of(b)];
    forall n: nat | n <= b.number
      ensures AncestorAt(stored, b, n).Some? && CanonicalHash(c, n) == Of(AncestorAt(stored, b, n).value)
    {
      assert n < b.number ==> CanonicalHash(c, n) == CanonicalHash(canon, n);
    }
  }

  /** The return without an error and without a write, exactly: no fault, a known parent that is not the
      head, and a heavier block. The total difficulty is stored although the block is not. */
  lemma SilentDropIff(c: Blocks, b: Header, fault: Fault)
    requires Ordered(c)
    ensures var r := WriteBlock(c, b, fault);
            r.status == NonStatTy && !r.err <==>
              KnownParent(c, b) && fault != TdFault && fault != BatchFault && Overtakes(c, b) && b.parent != Of(c.currentBlock)
    ensures var r := WriteBlock(c, b, fault);
            r.status == NonStatTy && !r.err ==> b in r.db.td && r.db.stored == c.stored
  {
    WriteBlockStatus(c, b, fault);
  }

  /** A stored total difficulty does not mean a stored block. */
  lemma TdWithoutBlock()
    ensures var g := Header(Zero, 0, 1, 0, 0);
            var h1 := Header(Of(g), 1, 1, 0, 0);
            var c := Blocks(map[g := 1, h1 := 2], {g, h1}, map[0 := Of(g), 1 := Of(h1)], h1, h1, h1);
            var b := Header(Of(g), 1, 5, 0, 0);
            var r := WriteBlock(c, b, NoFault);
            Ordered(c) && r.status == NonStatTy && !r.err && b in r.db.td && b !in r.db.stored
  {
    var g := Header(Zero, 0, 1, 0, 0);
    var h1 := Header(Of(g), 1, 1, 0, 0);
    assert AncestorAt({g, h1}, h1, 0) == Some(g);
    assert AncestorAt({g, h1}, h1, 1) == Some(h1);
    assert TotalDifficulty(h1) == 2;
  }

  // ---------------------------------------------------------------- runs

  datatype Call = Call(block: Header, fault: Fault)

  function Run(c: Blocks, calls: seq<Call>): (r: Blocks)
    requires Ordered(c)
    ensures Ordered(r)
    decreases |calls|
  {
    if calls == [] then c
    else
      var before, last := Run(c, calls[..|calls| - 1]), calls[|calls| - 1];
      WriteBlockOutcome(before, last.block, last.fault);
      WriteBlock(before, last.block, last.fault).db
  }

  ghost predicate CanonPrefix(c: Blocks, d: Blocks) {
    && c.currentBlock.number <= d.currentBlock.number
    && forall n :: n in c.canon ==> n in d.canon && d.canon[n] == c.canon[n]
  }

  /** Over every run of calls, whatever the blocks and faults: an earlier canonical chain is a prefix of
      every later one, the old head stays canonical, and the total difficulty of the head never falls. */
  lemma {:induction false} ChainOnlyGrows(c: Blocks, calls: seq<Call>, i: nat)
    requires Ordered(c) && i <= |calls|
    ensures CanonPrefix(Run(c, calls[..i]), Run(c, calls))
    ensures Run(c, calls[..i]).currentBlock in Run(c, calls).td
    ensures TotalDifficulty(Run(c, calls[..i]).currentBlock) <= TotalDifficulty(Run(c, calls).currentBlock)
    ensures CanonicalHash(Run(c, calls).canon, Run(c, calls[..i]).currentBlock.number) == Of(Run(c, calls[..i]).currentBlock)
    decreases |calls|
  {
    var d := Run(c, calls[..i]);
    if i == |calls| {
      assert calls[..i] == calls;
    } else {
      var front, last := calls[..|calls| - 1], calls[|calls| - 1];
      assert front[..i] == calls[..i];
      ChainOnlyGrows(c, front, i);
      var before := Run(c, front);
      WriteBlockOutcome(before, last.block, last.fault);
      assert last.block.number in before.canon ==> last.block.number <= before.currentBlock.number;
    }
    assert AncestorAt(d.stored, d.currentBlock, d.currentBlock.number) == Some(d.currentBlock);
    assert d.currentBlock.number in d.canon;
  }

  // ---------------------------------------------------------------- the object

  class BlockChain {
    var td: map<Header, nat>
    var stored: set<Header>
    var canon: map<int, Hash>
    var currentBlock: Header
    var currentHeader: Header
    var currentFastBlock: Header

    function View(): Blocks
      reads this
    {
      Blocks(td, stored, canon, currentBlock, currentHeader, currentFastBlock)
    }

    constructor (genesis: Header)
      requires genesis.number == 0 && genesis.parent.Zero?
      ensures Ordered(View()) && currentBlock == genesis
    {
      td, stored, canon := map[genesis := genesis.difficulty], {genesis}, map[0 := Of(genesis)];
      currentBlock, currentHeader, currentFastBlock := genesis, genesis, genesis;
      new;
      GenesisOrdered(genesis);
    }

    method Insert(block: Header)
      modifies this
      ensures View() == Inserted(old(View()), block)
      ensures currentBlock == block && canon == old(canon)[block.number := Of(block)]
      ensures old(block.number in canon && canon[block.number] == Of(block)) ==>
        currentHeader == old(currentHeader) && currentFastBlock == old(currentFastBlock)
      ensures !old(block.number in canon && canon[block.number] == Of(block)) ==> currentHeader == block && currentFastBlock == block
      ensures td == old(td) && stored == old(stored)
    {
      var updateHeads := CanonicalHash(canon, block.number) != Of(block);
      canon := canon[block.number := Of(block)];
      currentBlock := block;
      if updateHeads {
        currentHeader := block;
        currentFastBlock := block;
      }
    }

    method WriteBlockAndState(block: Header, fault: Fault) returns (status: Status, err: bool)
      requires Ordered(View())
      modifies this
      ensures Returned(View(), status, err) == WriteBlock(old(View()), block, fault)
      ensures Ordered(View())
      ensures fault == NoFault && KnownParent(old(View()), block) ==>
        && (status == SideStatTy <==> !Overtakes(old(View()), block))
        && (status == CanonStatTy <==> Overtakes(old(View()), block) && block.parent == Of(old(currentBlock)))
    {
      WriteBlockOutcome(View(), block, fault);
      WriteBlockStatus(View(), block, fault);
      var ptd := ParentTd(View(), block);
      if ptd.None? { return NonStatTy, true; }
      var localTd, externTd := td[currentBlock], block.difficulty + ptd.value;
      if fault == TdFault { return NonStatTy, true; }
      td := td[block := externTd];
      if fault == BatchFault { return NonStatTy, true; }
      if externTd > localTd || (externTd == localTd && block.coinbase > currentBlock.coinbase) {
        if block.parent != Of(currentBlock) { return NonStatTy, false; }
        if fault == LookupFault { return NonStatTy, true; }
        status := CanonStatTy;
      } else {
        status := SideStatTy;
      }
      if fault == FlushFault { return NonStatTy, true; }
      stored := stored + {block};
      if status == CanonStatTy { Insert(block); }
      return status, false;
    }
  }
}
