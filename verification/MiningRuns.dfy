/** What the mining pipeline keeps over whole runs: any interleaving of the steps of Mining, with any
    votes, timeouts, failing writes and failing rounds. The pipeline is the chain's only writer. */
module MiningRuns {
  import opened Common
  import opened Chain
  import opened BlockStore
  import opened Mining
  import opened MiningRounds
  import opened MiningWriter

  /** The state after these steps, if each was possible when it was taken. */
  function RunTo(s: State, steps: seq<Step>): Option<State>
    decreases |steps|
  {
    if steps == [] then Some(s)
    else
      match RunTo(s, steps[..|steps| - 1])
      case None => None
      case Some(t) => var last := steps[|steps| - 1]; if Enabled(t, last) then Some(Next(t, last)) else None
  }

  ghost predicate Reaches(s: State, t: State) {
    exists steps :: RunTo(s, steps) == Some(t)
  }

  predicate OfWriter(step: Step) {
    || step.RunWakes? || step.RunFlushes? || step.RunEndsFlushed? || step.RunTakesHead? || step.RunLeaves?
    || step.RunMarks? || step.RunWrites? || step.RunEnds? || step.RunPops?
  }

  lemma WriterKeeps(s: State, step: Step)
    requires Inv(s) && Enabled(s, step) && OfWriter(step)
    ensures Inv(Next(s, step))
  {
    match step
    case RunWakes => WakeKeeps(s);
    case RunFlushes => FlushKeeps(s);
    case RunEndsFlushed => EndFlushedKeeps(s);
    case RunTakesHead => HoldKeeps(s, step);
    case RunLeaves => HoldKeeps(s, step);
    case RunMarks => HoldKeeps(s, step);
    case RunWrites(fault) => WriteKeeps(s, fault);
    case RunEnds => EndsKeeps(s);
    case RunPops => PopKeeps(s);
  }

  lemma RoundKeeps(s: State, step: Step)
    requires Inv(s) && Enabled(s, step) && !OfWriter(step)
    ensures Inv(Next(s, step))
  {
    match step
    case TickStart => CheckKeeps(s, step);
    case TickEmpty => CheckKeeps(s, step);
    case TickReset => CheckKeeps(s, step);
    case TickTop => TopKeeps(s);
    case TickHead => HeadKeeps(s);
    case TickGo(start) => GoKeeps(s, start);
    case Receive(i) => ReceiveKeeps(s, i);
    case RoundFails(_) => LeaveKeeps(s, step);
    case RoundOnBootNode(_) => LeaveKeeps(s, step);
    case RoundInserts(i, b) => InsertKeeps(s, i, b);
    case RoundReturns => LeaveKeeps(s, step);
    case CastVote(i, v) => VoteKeeps(s, i, v);
    case TimesOut(i) => TimeoutKeeps(s, i);
    case FinalMine(i, generated) => FinalKeeps(s, i, generated);
    case FinalIdle(_) => LeaveKeeps(s, step);
    case EndRefused(k) => EndKeeps(s, k);
  }

  lemma NextKeepsInv(s: State, step: Step)
    requires Inv(s) && Enabled(s, step)
    ensures Inv(Next(s, step))
  {
    if OfWriter(step) { WriterKeeps(s, step); } else { RoundKeeps(s, step); }
  }

  lemma {:induction false} RunKeepsInv(s: State, steps: seq<Step>, t: State)
    requires Inv(s) && RunTo(s, steps) == Some(t)
    ensures Inv(t)
    decreases |steps|
  {
    if steps != [] {
      var front := steps[..|steps| - 1];
      RunKeepsInv(s, front, RunTo(s, front).value);
      NextKeepsInv(RunTo(s, front).value, steps[|steps| - 1]);
    }
  }

  // ---------------------------------------------------------------- one round at a time

  /** The blocks between Insert and the end of FinalMine. */
  function InFlight(s: State): set<Header> {
    set t | t in s.tokens && (t.Voting? || t.Handed?) :: t.block
  }

  /** In every run at most one mined work is between Insert and the end of FinalMine, it is in no other
      place, and no new round can be opened meanwhile. */
  lemma OneWorkInFlight(s: State, steps: seq<Step>, t: State, b: Header, c: Header)
    requires Inv(s) && RunTo(s, steps) == Some(t) && b in InFlight(t) && c in InFlight(t)
    ensures b == c && !t.round.IDLE? && t.ticker.Waits?
    ensures (forall w :: w in t.pending ==> w.block != b) && b !in t.endings && b !in t.chain.td
  {
    RunKeepsInv(s, steps, t);
    OneFlight(t, b, c);
  }

  lemma OneFlight(t: State, b: Header, c: Header)
    requires Inv(t) && b in InFlight(t) && c in InFlight(t)
    ensures b == c && !t.round.IDLE? && t.ticker.Waits?
    ensures (forall w :: w in t.pending ==> w.block != b) && b !in t.endings && b !in t.chain.td
  {
    assert HasFate(t.fate, b, InVote);
  }

  // ---------------------------------------------------------------- what Run writes

  /** In every run each write by Run makes the block the new head or fails: the return without an error
      that does not move the head is unreachable. It fails exactly on a fault of the database or when the
      parent is not the head, and the block was approved by its voters. */
  lemma EveryWriteIsCanonicalOrError(s: State, steps: seq<Step>, t: State, fault: Fault)
    requires Inv(s) && RunTo(s, steps) == Some(t) && Enabled(t, RunWrites(fault))
    ensures var b := t.runner.work.block;
            var r := WriteBlock(t.chain, b, fault);
            && (r.err <==> fault != NoFault || b.parent != Of(t.chain.currentBlock))
            && (!r.err ==> r.status == CanonStatTy && ExtendsHead(t.chain, r.db, b))
            && Approved(b, t.threshold, t.runner.work.votes)
  {
    RunKeepsInv(s, steps, t);
    WriteIsCanonicalOrError(t, fault);
    WriteBlockOutcome(t.chain, t.runner.work.block, fault);
    assert t.runner.work in t.pending;
  }

  // ---------------------------------------------------------------- the life of a block

  /** The life of a block: voted on, then queued or refused; from the queue it is stored or lost; the end
      is reported after that. */
  predicate Follows(f: Fate, g: Fate) {
    match f
    case InVote => g.InQueue? || g.Refused?
    case InQueue => g.Stored? || g.Lost?
    case Refused => g == Ended(false)
    case Lost => g == Ended(false)
    case Stored => g == Ended(true)
    case Ended(_) => false
  }

  /** The block whose fate this step decides. */
  function Decides(s: State, step: Step): Option<Header>
    requires Enabled(s, step)
  {
    match step
    case RoundInserts(_, b) => Some(b)
    case FinalMine(i, _) => Some(s.tokens[i].block)
    case EndRefused(k) => Some(s.endings[k])
    case RunFlushes => if s.pending == [] then None else Some(s.pending[0].block)
    case RunEndsFlushed => Some(s.runner.work.block)
    case RunWrites(_) => Some(s.runner.work.block)
    case RunEnds => Some(s.runner.work.block)
    case _ => None
  }

  lemma OnlyDecidedChanges(s: State, step: Step)
    requires Enabled(s, step)
    ensures match Decides(s, step)
            case None => Next(s, step).fate == s.fate
            case Some(d) => d in Next(s, step).fate && Next(s, step).fate == s.fate[d := Next(s, step).fate[d]]
  {
    if OfWriter(step) { WriterDecides(s, step); } else { RoundDecides(s, step); }
  }

  lemma RoundDecides(s: State, step: Step)
    requires Enabled(s, step) && !OfWriter(step)
    ensures match Decides(s, step)
            case None => Next(s, step).fate == s.fate
            case Some(d) => d in Next(s, step).fate && Next(s, step).fate == s.fate[d := Next(s, step).fate[d]]
  {
    if step.FinalMine? { FinalMineDecides(s, step.i, step.generated); }
  }

  lemma FinalMineDecides(s: State, i: nat, generated: bool)
    requires Enabled(s, FinalMine(i, generated))
    ensures var fate, d := Next(s, FinalMine(i, generated)).fate, s.tokens[i].block;
            d in fate && fate == s.fate[d := fate[d]]
  {
  }

  lemma WriterDecides(s: State, step: Step)
    requires Enabled(s, step) && OfWriter(step)
    ensures match Decides(s, step)
            case None => Next(s, step).fate == s.fate
            case Some(d) => d in Next(s, step).fate && Next(s, step).fate == s.fate[d := Next(s, step).fate[d]]
  {
  }

  lemma DecidedFollows(s: State, step: Step)
    requires Inv(s) && Enabled(s, step) && Decides(s, step).Some?
    ensures var d := Decides(s, step).value;
            d in Next(s, step).fate && if d in s.fate then Follows(s.fate[d], Next(s, step).fate[d]) else Next(s, step).fate[d] == InVote
  {
    match step
    case RoundInserts(_, _) =>
    case FinalMine(i, _) => OnlyToken(s, i); assert HasFate(s.fate, s.tokens[i].block, InVote);
    case EndRefused(k) => assert HasFate(s.fate, s.endings[k], Refused);
    case RunFlushes => assert HasFate(s.fate, s.pending[0].block, InQueue);
    case RunEndsFlushed =>
    case RunWrites(_) => assert HasFate(s.fate, s.pending[0].block, InQueue);
    case RunEnds =>
  }

  /** In every step a block keeps its fate or takes the next one. */
  lemma FateProgresses(s: State, step: Step, b: Header)
    requires Inv(s) && Enabled(s, step) && b in s.fate
    ensures var t := Next(s, step);
            b in t.fate && (if Decides(s, step) == Some(b) then Follows(s.fate[b], t.fate[b]) else t.fate[b] == s.fate[b])
  {
    OnlyDecidedChanges(s, step);
    if Decides(s, step).Some? { DecidedFollows(s, step); }
  }

  // ---------------------------------------------------------------- how a block gets into the queue

  /** This step of FinalMine has the votes on `b` for it, its block generated, and a queue that takes it. */
  predicate Queues(s: State, step: Step, b: Header) {
    && step.FinalMine? && step.generated && !s.errored && step.i < |s.tokens|
    && var token := s.tokens[step.i];
       token.Handed? && token.block == b && Approved(b, s.threshold, token.votes)
  }

  predicate PastVote(fate: map<Header, Fate>, b: Header) {
    b in fate && (fate[b] == InQueue || fate[b] == Stored || fate[b] == Lost || fate[b] == Ended(true))
  }

  ghost predicate WasQueued(s: State, steps: seq<Step>, b: Header) {
    exists k :: 0 <= k < |steps| && RunTo(s, steps[..k]).Some? && Queues(RunTo(s, steps[..k]).value, steps[k], b)
  }

  lemma FinalMineQueuesIff(s: State, i: nat, generated: bool, b: Header)
    requires Inv(s) && Enabled(s, FinalMine(i, generated)) && !PastVote(s.fate, b)
    ensures PastVote(Next(s, FinalMine(i, generated)).fate, b) <==> Queues(s, FinalMine(i, generated), b)
  {
    FinalMineOutcome(s, i, generated);
    RoundDecides(s, FinalMine(i, generated));
    assert s.tokens[i] in s.tokens && TokenVotes(s.threshold, s.tokens[i]);
  }

  lemma OthersDoNotQueue(s: State, step: Step, b: Header)
    requires Inv(s) && Enabled(s, step) && !step.FinalMine? && !PastVote(s.fate, b)
    ensures !PastVote(Next(s, step).fate, b)
  {
    OnlyDecidedChanges(s, step);
    if Decides(s, step).Some? { DecidedFollows(s, step); }
  }

  lemma OnlyFinalMineQueues(s: State, step: Step, b: Header)
    requires Inv(s) && Enabled(s, step) && !PastVote(s.fate, b)
    ensures PastVote(Next(s, step).fate, b) <==> Queues(s, step, b)
  {
    if step.FinalMine? {
      FinalMineQueuesIff(s, step.i, step.generated, b);
    } else {
      OthersDoNotQueue(s, step, b);
    }
  }

  /** In every run a block that is queued, lost from the queue or written got there by a FinalMine of this run
      that had its voters' approval and its generated block. */
  lemma {:induction false} QueuedWasGenerated(s: State, steps: seq<Step>, t: State, b: Header)
    requires Inv(s) && RunTo(s, steps) == Some(t) && !PastVote(s.fate, b) && PastVote(t.fate, b)
    ensures WasQueued(s, steps, b)
    decreases |steps|
  {
    if steps != [] {
      var front, last := steps[..|steps| - 1], steps[|steps| - 1];
      var u := RunTo(s, front).value;
      RunKeepsInv(s, front, u);
      if PastVote(u.fate, b) {
        QueuedWasGenerated(s, front, u, b);
        WasQueuedBefore(s, steps, b);
      } else {
        OnlyFinalMineQueues(u, last, b);
        assert steps[..|front|] == front;
      }
    }
  }

  lemma WasQueuedBefore(s: State, steps: seq<Step>, b: Header)
    requires steps != [] && WasQueued(s, steps[..|steps| - 1], b)
    ensures WasQueued(s, steps, b)
  {
    var front := steps[..|steps| - 1];
    var k :| 0 <= k < |front| && RunTo(s, front[..k]).Some? && Queues(RunTo(s, front[..k]).value, front[k], b);
    assert front[..k] == steps[..k] && front[k] == steps[k];
  }

  lemma OnlyRunWrites(s: State, step: Step, b: Header)
    requires Inv(s) && Enabled(s, step) && b !in s.chain.stored && b in Next(s, step).chain.stored
    ensures HasFate(Next(s, step).fate, b, Stored)
  {
    if step.RunWrites? {
      WriteIsCanonicalOrError(s, step.fault);
      WriteBlockOutcome(s.chain, s.runner.work.block, step.fault);
    }
  }

  /** In every run from the start a block that came into the chain was approved by its voters, and FinalMine
      queued it when it was generated. */
  lemma {:induction false} WrittenWasGenerated(threshold: nat, chain: Blocks, steps: seq<Step>, t: State, b: Header)
    requires ChainRight(chain) && RunTo(Initial(threshold, chain), steps) == Some(t)
    requires b in t.chain.stored && b !in chain.stored
    ensures WasQueued(Initial(threshold, chain), steps, b)
    decreases |steps|
  {
    var o := Initial(threshold, chain);
    InitialInv(threshold, chain);
    if steps != [] {
      var front := steps[..|steps| - 1];
      var u := RunTo(o, front).value;
      if b in u.chain.stored {
        WrittenWasGenerated(threshold, chain, front, u, b);
        WasQueuedBefore(o, steps, b);
      } else {
        RunKeepsInv(o, front, u);
        OnlyRunWrites(u, steps[|steps| - 1], b);
        QueuedWasGenerated(o, steps, t, b);
      }
    }
  }

  // ---------------------------------------------------------------- lost blocks

  /** The block was refused, flushed, or its write failed. */
  predicate Dead(s: State, b: Header) {
    b in s.fate && (s.fate[b] == Refused || s.fate[b] == Lost || s.fate[b] == Ended(false))
  }

  predicate Descends(h: Header, b: Header)
    decreases h
  {
    h == b || (h.parent.Of? && Descends(h.parent.header, b))
  }

  lemma {:induction false} DeadForever(s: State, steps: seq<Step>, t: State, b: Header)
    requires Inv(s) && RunTo(s, steps) == Some(t) && Dead(s, b)
    ensures Dead(t, b)
    decreases |steps|
  {
    if steps != [] {
      var front := steps[..|steps| - 1];
      var u := RunTo(s, front).value;
      RunKeepsInv(s, front, u);
      DeadForever(s, front, u, b);
      FateProgresses(u, steps[|steps| - 1], b);
    }
  }

  lemma {:induction false} NoDescendantStored(s: State, b: Header, h: Header)
    requires Inv(s) && Dead(s, b) && Descends(h, b)
    ensures h !in s.chain.stored
    decreases h
  {
    if h != b { NoDescendantStored(s, b, h.parent.header); }
  }

  /** Once a block was refused, flushed or failed to be written, neither it nor any block built on it is
      stored at any later point of any run. */
  lemma NothingOnALostBlock(s: State, steps: seq<Step>, t: State, b: Header, h: Header)
    requires Inv(s) && RunTo(s, steps) == Some(t) && Dead(s, b) && Descends(h, b)
    ensures h !in t.chain.stored
  {
    RunKeepsInv(s, steps, t);
    DeadForever(s, steps, t, b);
    NoDescendantStored(t, b, h);
  }

  // ---------------------------------------------------------------- WorkEnded

  /** The block for which this step calls WorkEnded, if it does. */
  function Ends(s: State, step: Step): Option<Header>
    requires Enabled(s, step)
  {
    if step.EndRefused? || step.RunEndsFlushed? || step.RunEnds? then Decides(s, step) else None
  }

  lemma {:induction false} EndedForever(s: State, steps: seq<Step>, t: State, b: Header)
    requires Inv(s) && RunTo(s, steps) == Some(t) && b in s.fate && s.fate[b].Ended?
    ensures b in t.fate && t.fate[b] == s.fate[b]
    decreases |steps|
  {
    if steps != [] {
      var front := steps[..|steps| - 1];
      var u := RunTo(s, front).value;
      RunKeepsInv(s, front, u);
      EndedForever(s, front, u, b);
      FateProgresses(u, steps[|steps| - 1], b);
    }
  }

  /** WorkEnded is called at most once for a work, with true exactly when its block is in the chain, and
      that answer stays right: if a step ends `b` after `s`, no later step of any run ends it again. */
  lemma WorkEndsOnce(s: State, step: Step, steps: seq<Step>, t: State, again: Step, b: Header)
    requires Inv(s) && Enabled(s, step) && Ends(s, step) == Some(b)
    requires RunTo(Next(s, step), steps) == Some(t) && Enabled(t, again)
    ensures Ends(t, again) != Some(b)
    ensures b in t.fate && t.fate[b].Ended? && (t.fate[b].succeed <==> b in t.chain.stored)
  {
    NextKeepsInv(s, step);
    assert Next(s, step).fate[b].Ended?;
    RunKeepsInv(Next(s, step), steps, t);
    EndedForever(Next(s, step), steps, t, b);
    FateProgresses(t, again, b);
  }

  // ---------------------------------------------------------------- the queue continues the chain

  /** Each queued block is a child of the one before it, and while the queue takes blocks its first one is
      a child of the head of the chain, or the head itself between the write and the pop. */
  predicate Linked(s: State) {
    && QueueLinked(s.pending)
    && (!s.errored && s.pending != [] ==>
          if HeadWritten(s.runner, s.errored) then s.pending[0].block == s.chain.currentBlock
          else s.pending[0].block.parent == Of(s.chain.currentBlock))
  }

  /** The error flag is cleared while the writer is still in its flush loop. */
  predicate ResetsInFlush(s: State, step: Step) {
    step.TickReset? && (s.runner.Flushes? || s.runner.Flushed?)
  }

  predicate ResetsAt(s: State, steps: seq<Step>, i: nat) {
    i < |steps| && RunTo(s, steps[..i]).Some? && ResetsInFlush(RunTo(s, steps[..i]).value, steps[i])
  }

  ghost predicate SomeResetInFlush(s: State, steps: seq<Step>) {
    exists i: nat :: ResetsAt(s, steps, i)
  }

  lemma ResetsBefore(s: State, steps: seq<Step>, i: nat)
    requires i + 1 < |steps|
    ensures ResetsAt(s, steps[..|steps| - 1], i) <==> ResetsAt(s, steps, i)
  {
    assert steps[..|steps| - 1][..i] == steps[..i];
  }

  lemma ResetsLast(s: State, steps: seq<Step>, u: State)
    requires steps != [] && RunTo(s, steps[..|steps| - 1]) == Some(u)
    ensures ResetsAt(s, steps, |steps| - 1) <==> ResetsInFlush(u, steps[|steps| - 1])
  {
  }

  lemma ResetSplit(s: State, steps: seq<Step>)
    requires steps != []
    ensures SomeResetInFlush(s, steps) <==> SomeResetInFlush(s, steps[..|steps| - 1]) || ResetsAt(s, steps, |steps| - 1)
  {
    var front := steps[..|steps| - 1];
    if i: nat :| ResetsAt(s, front, i) { ResetsBefore(s, steps, i); }
    if i: nat :| ResetsAt(s, steps, i) && i + 1 < |steps| { ResetsBefore(s, steps, i); }
  }

  lemma {:induction false} RacedIff(s: State, steps: seq<Step>, t: State)
    requires RunTo(s, steps) == Some(t)
    ensures t.raced <==> s.raced || SomeResetInFlush(s, steps)
    decreases |steps|
  {
    if steps != [] {
      var front, last := steps[..|steps| - 1], steps[|steps| - 1];
      RacedIff(s, front, RunTo(s, front).value);
      RacesIff(RunTo(s, front).value, last);
      ResetSplit(s, steps);
      ResetsLast(s, steps, RunTo(s, front).value);
    }
  }

  lemma RacesIff(s: State, step: Step)
    requires Enabled(s, step)
    ensures Next(s, step).raced <==> s.raced || ResetsInFlush(s, step)
  {
  }

  /** In every run from the start in which the error flag is not cleared while the writer flushes, the
      queue continues the chain. */
  lemma QueueContinuesChain(threshold: nat, chain: Blocks, steps: seq<Step>, t: State)
    requires ChainRight(chain) && RunTo(Initial(threshold, chain), steps) == Some(t)
    requires !SomeResetInFlush(Initial(threshold, chain), steps)
    ensures Linked(t)
  {
    InitialInv(threshold, chain);
    RunKeepsInv(Initial(threshold, chain), steps, t);
    RacedIff(Initial(threshold, chain), steps, t);
  }

  /** In any run at all: the queue continues the chain if and only if the chain knows the parent of the
      first block that waits to be written. */
  lemma LinkedIff(s: State, steps: seq<Step>, t: State)
    requires Inv(s) && RunTo(s, steps) == Some(t)
    ensures Linked(t) <==>
              t.errored || t.pending == [] || HeadWritten(t.runner, t.errored) ||
              (t.pending[0].block.parent.Of? && t.pending[0].block.parent.header in t.chain.td)
  {
    RunKeepsInv(s, steps, t);
  }
}
