/** The steps of WorkPending.Run keep the invariant of the mining pipeline. */
module MiningWriter {
  import opened Chain
  import opened BlockStore
  import opened Mining
  import opened MiningRounds

  /** Numbers rise along the queue, so no block is queued twice. */
  lemma {:induction false} QueueNumbers(pending: seq<Work>, i: nat)
    requires QueueLinked(pending) && i < |pending|
    ensures pending[i].block.number == pending[0].block.number + i
  {
    if i > 0 { QueueNumbers(pending, i - 1); }
  }

  lemma QueueDistinct(pending: seq<Work>)
    requires QueueLinked(pending)
    ensures forall i :: 0 < i < |pending| ==> pending[i].block != pending[0].block
  {
    forall i | 0 < i < |pending| ensures pending[i].block != pending[0].block { QueueNumbers(pending, i); }
  }

  lemma WakeKeeps(s: State)
    requires Inv(s) && Enabled(s, RunWakes)
    ensures Inv(Next(s, RunWakes))
  {
  }

  lemma FlushFates(s: State)
    requires Inv(s) && Enabled(s, RunFlushes)
    ensures Fates(Next(s, RunFlushes))
  {
    if s.pending != [] {
      QueueDistinct(s.pending);
      assert HasFate(s.fate, s.pending[0].block, InQueue);
    }
  }

  lemma FlushLinks(s: State)
    requires Inv(s) && Enabled(s, RunFlushes)
    ensures Links(Next(s, RunFlushes))
  {
    if s.pending != [] {
      assert HasFate(s.fate, s.pending[0].block, InQueue);
      TailLinked(s.pending);
    }
  }

  lemma FlushKeeps(s: State)
    requires Inv(s) && Enabled(s, RunFlushes)
    ensures Inv(Next(s, RunFlushes))
  {
    FlushFates(s);
    FlushLinks(s);
  }

  lemma EndFlushedKeeps(s: State)
    requires Inv(s) && Enabled(s, RunEndsFlushed)
    ensures Inv(Next(s, RunEndsFlushed))
  {
    OthersKeepFate(s, s.runner.work.block, Ended(false));
    FateMoves(s.fate, s.chain, s.runner.work.block, Ended(false));
  }

  lemma HoldKeeps(s: State, step: Step)
    requires Inv(s) && Enabled(s, step)
    requires step.RunTakesHead? || step.RunLeaves? || step.RunMarks?
    ensures Inv(Next(s, step))
  {
  }

  lemma EndsKeeps(s: State)
    requires Inv(s) && Enabled(s, RunEnds)
    ensures Inv(Next(s, RunEnds))
  {
    OthersKeepFate(s, s.runner.work.block, Ended(s.runner.Wrote?));
    FateMoves(s.fate, s.chain, s.runner.work.block, Ended(s.runner.Wrote?));
  }

  lemma PopLinks(s: State)
    requires Inv(s) && Enabled(s, RunPops)
    ensures Links(Next(s, RunPops))
  {
    TailLinked(s.pending);
  }

  lemma PopKeeps(s: State)
    requires Inv(s) && Enabled(s, RunPops)
    ensures Inv(Next(s, RunPops))
  {
    PopLinks(s);
  }

  /** The exact outcome of a write by Run: the block becomes the head, or the write fails; a fault or an
      unknown parent is the only reason for a failure. */
  lemma WriteIsCanonicalOrError(s: State, fault: Fault)
    requires Inv(s) && s.runner.Holds?
    ensures var b := s.runner.work.block;
            var r := WriteBlock(s.chain, b, fault);
            && (r.err <==> fault != NoFault || b.parent != Of(s.chain.currentBlock))
            && (!r.err ==> r.status == CanonStatTy && r.db.currentBlock == b && r.db.stored == s.chain.stored + {b})
            && (r.err ==> r.db.currentBlock == s.chain.currentBlock && r.db.stored == s.chain.stored)
            && r.db.td.Keys <= s.chain.td.Keys + {b}
  {
  }

  lemma WriteFatesRight(fate: map<Header, Fate>, c: Blocks, d: Blocks, b: Header, f: Fate)
    requires FatesRight(fate, c) && d.td.Keys <= c.td.Keys + {b} && HasFate(fate, b, InQueue)
    requires (f == Stored && d.stored == c.stored + {b}) || (f == Lost && d.stored == c.stored && b !in c.stored)
    ensures FatesRight(fate[b := f], d)
  {
  }

  lemma WriteFates(s: State, fault: Fault)
    requires Inv(s) && Enabled(s, RunWrites(fault))
    ensures Fates(Next(s, RunWrites(fault)))
  {
    QueueDistinct(s.pending);
    WriteIsCanonicalOrError(s, fault);
    var b, t := s.pending[0].block, Next(s, RunWrites(fault));
    assert HasFate(s.fate, b, InQueue);
    OthersKeepFate(s, b, t.fate[b]);
    WriteFatesRight(s.fate, s.chain, t.chain, b, t.fate[b]);
  }

  lemma WriteLinks(s: State, fault: Fault)
    requires Inv(s) && Enabled(s, RunWrites(fault))
    ensures Shape(Next(s, RunWrites(fault))) && Links(Next(s, RunWrites(fault)))
  {
    WriteIsCanonicalOrError(s, fault);
  }

  lemma WriteKeeps(s: State, fault: Fault)
    requires Inv(s) && Enabled(s, RunWrites(fault))
    ensures Inv(Next(s, RunWrites(fault)))
  {
    WriteFates(s, fault);
    WriteLinks(s, fault);
    WriteIsCanonicalOrError(s, fault);
    WriteBlockOutcome(s.chain, s.runner.work.block, fault);
  }
}
