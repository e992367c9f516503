/** Runs of the mining pipeline that its code allows: one in which the queue stops continuing the chain, and three
    after which no round is opened any more. */
module MiningWitness {
  import opened Common
  import opened Chain
  import opened BlockStore
  import opened Votes
  import opened Mining
  import opened MiningRuns

  lemma Start(o: State)
    ensures Reaches(o, o)
  {
    assert RunTo(o, []) == Some(o);
  }

  lemma Take(o: State, s: State, step: Step)
    requires Reaches(o, s) && Enabled(s, step)
    ensures Reaches(o, Next(s, step))
  {
    var steps :| RunTo(o, steps) == Some(s);
    var longer := steps + [step];
    assert longer[..|longer| - 1] == steps;
    assert RunTo(o, longer) == Some(Next(s, step));
  }

  // ---------------------------------------------------------------- a round that succeeds

  function Ballots(k: nat): seq<Vote> {
    if k == 0 then [] else Ballots(k - 1) + [Vote(k - 1, true)]
  }

  function Addresses(k: nat): set<Address> {
    if k == 0 then {} else Addresses(k - 1) + {k - 1}
  }

  lemma {:induction false} AddressCount(k: nat)
    ensures |Addresses(k)| == k && forall a :: a in Addresses(k) ==> a < k
  {
    if k > 0 { AddressCount(k - 1); }
  }

  /** The round of `b` after `k` approvals. */
  function AfterVotes(threshold: nat, b: Header, k: nat): Token {
    Voting(b, Info(threshold, b, Addresses(k), {}), Ballots(k))
  }

  lemma OneMoreVote(threshold: nat, b: Header, k: nat)
    requires k < threshold
    ensures Voted(AfterVotes(threshold, b, k), Vote(k, true)) ==
              if k + 1 < threshold then AfterVotes(threshold, b, k + 1) else Handed(b, Ballots(threshold), true)
  {
    AddressCount(k + 1);
  }

  lemma {:induction false} VotesArrive(o: State, s: State, b: Header, k: nat)
    requires k < s.threshold && Reaches(o, s) && s.tokens == [AfterVotes(s.threshold, b, k)]
    ensures Reaches(o, s.(tokens := [Handed(b, Ballots(s.threshold), true)]))
    decreases s.threshold - k
  {
    OneMoreVote(s.threshold, b, k);
    var step := CastVote(0, Vote(k, true));
    Take(o, s, step);
    var t := Next(s, step);
    assert t == s.(tokens := [Voted(AfterVotes(s.threshold, b, k), Vote(k, true))]);
    if k + 1 < s.threshold { VotesArrive(o, t, b, k + 1); }
  }

  /** The ticker chose a parent; the round on it starts, its proof waits for votes and NewMineRound returned. */
  lemma RoundOpens(o: State, s: State, b: Header)
    requires Reaches(o, s) && s.ticker.Chose? && s.tokens == [] && s.tails == 0
    requires ChildOf(b, s.ticker.parent) && b !in s.fate && b !in s.chain.td
    ensures Reaches(o, s.(ticker := Waits, round := MiningRound, tokens := [AfterVotes(s.threshold, b, 0)], fate := s.fate[b := InVote], tails := 1))
    ensures Reaches(o, s.(ticker := Waits, round := MiningRound, tokens := [AfterVotes(s.threshold, b, 0)], fate := s.fate[b := InVote]))
  {
    var p := s.ticker.parent;
    Take(o, s, TickGo(true));
    var s1 := s.(ticker := Waits, round := PostMining, tokens := [Posted(p)]);
    assert Next(s, TickGo(true)) == s1;
    Take(o, s1, Receive(0));
    var s2 := s1.(round := MiningRound, tokens := [Started(p)]);
    assert Next(s1, Receive(0)) == s2;
    Take(o, s2, RoundInserts(0, b));
    var s3 := s2.(tokens := [AfterVotes(s.threshold, b, 0)], fate := s.fate[b := InVote], tails := 1);
    assert Next(s2, RoundInserts(0, b)) == s3;
    Take(o, s3, RoundReturns);
    assert Next(s3, RoundReturns) == s3.(tails := 0);
  }

  lemma RoundQueues(o: State, s: State, b: Header)
    requires Reaches(o, s) && s.ticker.Chose? && s.tokens == [] && s.tails == 0 && !s.errored && s.threshold > 0
    requires ChildOf(b, s.ticker.parent) && b !in s.fate && b !in s.chain.td
    ensures Reaches(o, s.(ticker := Waits, round := IDLE, pending := s.pending + [Work(b, Ballots(s.threshold))], fate := s.fate[b := InQueue]))
  {
    RoundOpens(o, s, b);
    var s4 := s.(ticker := Waits, round := MiningRound, tokens := [AfterVotes(s.threshold, b, 0)], fate := s.fate[b := InVote]);
    VotesArrive(o, s4, b, 0);
    var s5 := s4.(tokens := [Handed(b, Ballots(s.threshold), true)]);
    Take(o, s5, FinalMine(0, true));
    var s6 := s5.(tokens := [Finished], pending := s.pending + [Work(b, Ballots(s.threshold))], fate := s.fate[b := InQueue]);
    assert s5.fate[b := InQueue] == s.fate[b := InQueue];
    assert Next(s5, FinalMine(0, true)) == s6;
    Take(o, s6, FinalIdle(0));
    assert Next(s6, FinalIdle(0)) == s6.(round := IDLE, tokens := []);
  }

  // ---------------------------------------------------------------- the queue leaves the chain

  const GENESIS := Header(Zero, 0, 1, 0, 0)

  function GenesisChain(): Blocks {
    Blocks(map[GENESIS := 1], {GENESIS}, map[0 := Of(GENESIS)], GENESIS, GENESIS, GENESIS)
  }

  function Child(h: Header, extra: nat): Header {
    Header(Of(h), h.number + 1, 1, 0, extra)
  }

  /** The ticker opens a round on the head of the chain when nothing is queued. */
  lemma ChoosesHead(o: State, s: State)
    requires Reaches(o, s) && s.ticker.Waits? && s.round.IDLE? && s.pending == [] && !s.errored
    ensures Reaches(o, s.(ticker := Chose(s.chain.currentHeader)))
  {
    Take(o, s, TickStart);
    var s1 := s.(ticker := AsksTop);
    assert Next(s, TickStart) == s1;
    Take(o, s1, TickTop);
    var s2 := s.(ticker := AsksHead);
    assert Next(s1, TickTop) == s2;
    Take(o, s2, TickHead);
    assert Next(s2, TickHead) == s.(ticker := Chose(s.chain.currentHeader));
  }

  /** The only queued block is taken by the writer and its write fails when the batch is flushed. */
  lemma TriesHead(o: State, s: State)
    requires Reaches(o, s) && s.runner.Sleeps? && !s.errored && |s.pending| == 1 && s.chain.currentBlock in s.chain.td
    requires ChildOf(s.pending[0].block, s.chain.currentBlock)
    ensures var b := s.pending[0].block;
            Reaches(o, s.(runner := Failed(s.pending[0]), chain := WriteBlock(s.chain, b, FlushFault).db, fate := s.fate[b := Lost]))
  {
    var w := s.pending[0];
    Take(o, s, RunWakes);
    var s1 := s.(runner := Writes);
    assert Next(s, RunWakes) == s1;
    Take(o, s1, RunTakesHead);
    var s2 := s.(runner := Holds(w));
    assert Next(s1, RunTakesHead) == s2;
    Take(o, s2, RunWrites(FlushFault));
    assert WriteBlock(s.chain, w.block, FlushFault).err;
  }

  /** The writer then wakes up in error mode with an empty queue and stands in its flush loop. */
  lemma EntersFlush(o: State, s: State)
    requires Reaches(o, s) && s.runner.Failed? && s.pending == [s.runner.work]
    ensures Reaches(o, s.(runner := Flushes, errored := true, pending := [], fate := s.fate[s.runner.work.block := Ended(false)]))
  {
    var w := s.runner.work;
    Take(o, s, RunMarks);
    var s1 := s.(errored := true, runner := Marked(w));
    assert Next(s, RunMarks) == s1;
    Take(o, s1, RunEnds);
    var s2 := s1.(runner := Pops, fate := s.fate[w.block := Ended(false)]);
    assert Next(s1, RunEnds) == s2;
    Take(o, s2, RunPops);
    var s3 := s2.(runner := Writes, pending := []);
    assert Next(s2, RunPops) == s3;
    Take(o, s3, RunLeaves);
    var s4 := s3.(runner := Sleeps);
    assert Next(s3, RunLeaves) == s4;
    Take(o, s4, RunWakes);
    assert Next(s4, RunWakes) == s3.(runner := Flushes);
  }

  /** The ticker clears the error flag while the writer still flushes; a round on the head is queued. */
  lemma ResetRaces(o: State, s: State)
    requires Reaches(o, s) && s.ticker.Waits? && s.round.IDLE? && s.pending == [] && s.errored && s.runner.Flushes?
    ensures Reaches(o, s.(errored := false, raced := true, ticker := Chose(s.chain.currentHeader)))
  {
    Take(o, s, TickStart);
    var s1 := s.(ticker := SawError);
    Take(o, s1, TickEmpty);
    var s2 := s.(ticker := SawEmpty);
    Take(o, s2, TickReset);
    var s3 := s.(ticker := AsksTop, errored := false, raced := true);
    assert Next(s2, TickReset) == s3;
    Take(o, s3, TickTop);
    var s4 := s3.(ticker := AsksHead);
    assert Next(s3, TickTop) == s4;
    Take(o, s4, TickHead);
    assert Next(s4, TickHead) == s3.(ticker := Chose(s.chain.currentHeader));
  }

  /** The next round is built on the queued block, which the flush loop then drops. */
  lemma ParentFlushed(o: State, s: State)
    requires Reaches(o, s) && s.ticker.Waits? && s.round.IDLE? && |s.pending| == 1 && !s.errored && s.runner.Flushes?
    ensures Reaches(o, s.(ticker := Chose(s.pending[0].block), runner := Flushed(s.pending[0]), pending := [], fate := s.fate[s.pending[0].block := Lost]))
  {
    Take(o, s, TickStart);
    var s1 := s.(ticker := AsksTop);
    Take(o, s1, TickTop);
    var s2 := s.(ticker := Chose(s.pending[0].block));
    assert Next(s1, TickTop) == s2;
    Take(o, s2, RunFlushes);
    assert s2.pending[1..] == [];
  }

  function AfterFailure(threshold: nat): State {
    var b := Child(GENESIS, 0);
    Initial(threshold, GenesisChain()).(runner := Flushes, errored := true, fate := map[b := Ended(false)],
      chain := GenesisChain().(td := map[GENESIS := 1, b := 2]))
  }

  /** A failed write of the first block leaves its total difficulty. */
  lemma FirstWrite(b: Header)
    requires b == Child(GENESIS, 0)
    ensures WriteBlock(GenesisChain(), b, FlushFault).db == GenesisChain().(td := map[GENESIS := 1, b := 2])
    ensures forall f: Fate, g: Fate :: map[b := f][b := g] == map[b := g]
  {
    assert map[GENESIS := 1][b := 2] == map[GENESIS := 1, b := 2];
    assert forall f: Fate, g: Fate :: map[b := f][b := g] == map[b := g];
  }

  lemma ReachesFailure(threshold: nat)
    requires threshold > 0
    ensures Reaches(Initial(threshold, GenesisChain()), AfterFailure(threshold))
  {
    var o, b := Initial(threshold, GenesisChain()), Child(GENESIS, 0);
    Start(o);
    ChoosesHead(o, o);
    RoundQueues(o, o.(ticker := Chose(GENESIS)), b);
    var s := o.(pending := [Work(b, Ballots(threshold))], fate := map[b := InQueue]);
    assert o.pending + [Work(b, Ballots(threshold))] == [Work(b, Ballots(threshold))];
    TriesHead(o, s);
    FirstWrite(b);
    var f := s.(runner := Failed(s.pending[0]), chain := GenesisChain().(td := map[GENESIS := 1, b := 2]), fate := map[b := Lost]);
    EntersFlush(o, f);
  }

  /** Clearing the error flag during the flush breaks the link: for every positive threshold there is a run
      from the start at whose end the only queued block stands on a block that was dropped. */
  lemma QueueCanLeaveChain(threshold: nat)
    requires threshold > 0
    ensures exists t :: Reaches(Initial(threshold, GenesisChain()), t) && !Linked(t)
  {
    var o, s := Initial(threshold, GenesisChain()), AfterFailure(threshold);
    var b1, b2 := Child(GENESIS, 1), Child(Child(GENESIS, 1), 2);
    ReachesFailure(threshold);
    ResetRaces(o, s);
    var s1 := s.(errored := false, raced := true, ticker := Chose(GENESIS));
    RoundQueues(o, s1, b1);
    var w1, w2 := Work(b1, Ballots(threshold)), Work(b2, Ballots(threshold));
    var s2 := s1.(ticker := Waits, pending := [w1], fate := s.fate[b1 := InQueue]);
    assert s1.pending + [w1] == [w1];
    ParentFlushed(o, s2);
    var s3 := s2.(ticker := Chose(b1), runner := Flushed(w1), pending := [], fate := s2.fate[b1 := Lost]);
    RoundQueues(o, s3, b2);
    var t := s3.(ticker := Waits, pending := [w2], fate := s3.fate[b2 := InQueue]);
    assert s3.pending + [w2] == [w2];
    assert Reaches(o, t);
    assert !Linked(t);
  }

  // ---------------------------------------------------------------- the pipeline stalls

  /** The round state says a round is under way, but none is. */
  predicate Stalled(s: State) {
    s.round.MiningRound? && s.tokens == [] && s.ticker.Waits?
  }

  lemma StalledStays(s: State, step: Step)
    requires Stalled(s) && Enabled(s, step)
    ensures Stalled(Next(s, step))
  {
  }

  /** Then no round is opened in any continuation. */
  lemma {:induction false} StalledForever(s: State, steps: seq<Step>, t: State)
    requires Stalled(s) && RunTo(s, steps) == Some(t)
    ensures Stalled(t)
    decreases |steps|
  {
    if steps != [] {
      var front := steps[..|steps| - 1];
      StalledForever(s, front, RunTo(s, front).value);
      StalledStays(RunTo(s, front).value, steps[|steps| - 1]);
    }
  }

  /** The steps that stall a pipeline: a late return of NewMineRound when no round is under way and the ticker
      waits, a round on a boot node, and a ticker that opens no round after a late return came in between. */
  predicate Stalls(s: State, step: Step) {
    match step
    case RoundReturns => s.tokens == [] && s.ticker.Waits?
    case RoundOnBootNode(_) => s.round.MiningRound?
    case TickGo(start) => !start && s.round.MiningRound?
    case TickEmpty => s.pending != [] && s.round.MiningRound?
    case _ => false
  }

  /** In every state of the invariant these are exactly the steps after which the pipeline is stalled. */
  lemma StallsNextIff(s: State, step: Step)
    requires Inv(s) && Enabled(s, step) && !Stalled(s)
    ensures Stalled(Next(s, step)) <==> Stalls(s, step)
  {
    assert OneRound(s.round, s.ticker, s.tokens);
  }

  /** One of the steps of the run was such a step. */
  ghost predicate SomeStall(s: State, steps: seq<Step>) {
    exists i :: 0 <= i < |steps| && RunTo(s, steps[..i]).Some? && Stalls(RunTo(s, steps[..i]).value, steps[i])
  }

  /** Over runs: a pipeline is stalled after a run if and only if one of its steps was such a step. */
  lemma {:induction false} StalledIff(s: State, steps: seq<Step>, t: State)
    requires Inv(s) && !Stalled(s) && RunTo(s, steps) == Some(t)
    ensures Stalled(t) <==> SomeStall(s, steps)
    decreases |steps|
  {
    if steps != [] {
      var front, last := steps[..|steps| - 1], steps[|steps| - 1];
      var u := RunTo(s, front).value;
      assert forall i :: 0 <= i <= |front| ==> front[..i] == steps[..i];
      assert forall i :: 0 <= i < |front| ==> front[i] == steps[i];
      RunKeepsInv(s, front, u);
      StalledIff(s, front, u);
      if Stalled(u) {
        StalledStays(u, last);
      } else {
        StallsNextIff(u, last);
        if Stalls(u, last) { assert RunTo(s, steps[..|front|]).Some?; }
      }
    }
  }

  /** Such runs exist. The proof is handed over and finished before NewMineRound returns. */
  lemma LateReturnStalls(threshold: nat)
    ensures exists t :: Reaches(Initial(threshold, GenesisChain()), t) && Stalled(t)
  {
    var o, s := Initial(threshold, GenesisChain()), FinishedEarly(threshold);
    FinishesEarly(threshold);
    Take(o, s, RoundReturns);
    assert Stalled(Next(s, RoundReturns));
  }

  /** Or NewMineRound returns while the ticker looks for a parent and finds that it is too early for a round. */
  lemma LateReturnStallsTicker(threshold: nat)
    ensures exists t :: Reaches(Initial(threshold, GenesisChain()), t) && Stalled(t) && t.tails == 0
  {
    var o, s := Initial(threshold, GenesisChain()), FinishedEarly(threshold);
    FinishesEarly(threshold);
    ChoosesHead(o, s);
    var s1 := s.(ticker := Chose(GENESIS));
    Take(o, s1, RoundReturns);
    var s2 := s1.(tails := 0, round := MiningRound);
    assert Next(s1, RoundReturns) == s2;
    Take(o, s2, TickGo(false));
    assert Next(s2, TickGo(false)) == s2.(ticker := Waits);
    assert Stalled(s2.(ticker := Waits));
  }

  /** Or the node is a boot node, whose first round is its last. */
  lemma BootNodeStalls(threshold: nat)
    ensures exists t :: Reaches(Initial(threshold, GenesisChain()), t) && Stalled(t) && t.fate == map[]
  {
    var o := Initial(threshold, GenesisChain());
    Start(o);
    ChoosesHead(o, o);
    var s := o.(ticker := Chose(GENESIS));
    Take(o, s, TickGo(true));
    var s1 := o.(round := PostMining, tokens := [Posted(GENESIS)]);
    assert Next(s, TickGo(true)) == s1;
    Take(o, s1, Receive(0));
    var s2 := o.(round := MiningRound, tokens := [Started(GENESIS)]);
    assert Next(s1, Receive(0)) == s2;
    Take(o, s2, RoundOnBootNode(0));
    var s3 := o.(round := MiningRound, tails := 1);
    assert Next(s2, RoundOnBootNode(0)) == s3;
    assert Stalled(s3);
  }

  /** The first round timed out and was finished, and its NewMineRound has not returned. */
  function FinishedEarly(threshold: nat): State {
    var b := Child(GENESIS, 0);
    Initial(threshold, GenesisChain()).(tails := 1, endings := [b], fate := map[b := Refused])
  }

  lemma FinishesEarly(threshold: nat)
    ensures Reaches(Initial(threshold, GenesisChain()), FinishedEarly(threshold))
  {
    var o, b := Initial(threshold, GenesisChain()), Child(GENESIS, 0);
    Start(o);
    ChoosesHead(o, o);
    RoundOpens(o, o.(ticker := Chose(GENESIS)), b);
    var s := o.(round := MiningRound, tokens := [AfterVotes(threshold, b, 0)], fate := map[b := InVote], tails := 1);
    TimesOutAndEnds(o, s, b);
    assert s.fate[b := Refused] == map[b := Refused];
  }

  lemma TimesOutAndEnds(o: State, s: State, b: Header)
    requires Reaches(o, s) && s.tokens == [AfterVotes(s.threshold, b, 0)] && s.endings == []
    ensures Reaches(o, s.(round := IDLE, tokens := [], endings := [b], fate := s.fate[b := Refused]))
  {
    Take(o, s, TimesOut(0));
    var s1 := s.(tokens := [Handed(b, [], false)]);
    assert Next(s, TimesOut(0)) == s1;
    Take(o, s1, FinalMine(0, false));
    var s2 := s1.(tokens := [Finished], endings := [b], fate := s.fate[b := Refused]);
    assert Next(s1, FinalMine(0, false)) == s2;
    Take(o, s2, FinalIdle(0));
    assert Next(s2, FinalIdle(0)) == s2.(round := IDLE, tokens := []);
  }
}
