/** The steps of Mining taken in a row, without interference, do what the methods of worker/worker_mine.go and
    worker/work_pending.go do as a whole: CheckNeedStartMine opens a round on the right parent or none, and a
    wake-up of Run leaves the chain, the queue, the error flag and the reports that WorkQueue computes. */
module MiningSequence {
  import opened Common
  import opened Chain
  import opened BlockStore
  import opened Mining
  import opened MiningRuns
  import opened WorkQueue

  lemma {:induction false} RunAppend(s: State, first: seq<Step>, u: State, second: seq<Step>)
    requires RunTo(s, first) == Some(u)
    ensures RunTo(s, first + second) == RunTo(u, second)
    decreases |second|
  {
    if second == [] {
      assert first + second == first;
    } else {
      var front := second[..|second| - 1];
      RunAppend(s, first, u, front);
      assert (first + second)[..|first + second| - 1] == first + front;
    }
  }

  lemma OneStep(s: State, step: Step)
    requires Enabled(s, step)
    ensures RunTo(s, [step]) == Some(Next(s, step))
  {
    assert [step][..0] == [];
  }

  lemma OneMoreStep(s: State, steps: seq<Step>, u: State, step: Step)
    requires RunTo(s, steps) == Some(u) && Enabled(u, step)
    ensures RunTo(s, steps + [step]) == Some(Next(u, step))
  {
    OneStep(u, step);
    RunAppend(s, steps, u, [step]);
  }

  // ---------------------------------------------------------------- the ticker

  /** The header a round is opened on: the last queued block, or else the head of the chain. */
  function RoundParent(s: State): Header {
    if s.pending != [] then s.pending[|s.pending| - 1].block else s.chain.currentHeader
  }

  function CheckSteps(s: State): seq<Step> {
    if s.errored then [TickStart, TickEmpty, TickReset, TickTop, TickHead]
    else if s.pending != [] then [TickStart, TickTop]
    else [TickStart, TickTop, TickHead]
  }

  lemma ClearCheck(s: State)
    requires s.ticker.Waits? && s.round.IDLE? && !s.errored
    ensures RunTo(s, CheckSteps(s)) == Some(s.(ticker := Chose(RoundParent(s))))
  {
    OneStep(s, TickStart);
    var s1 := s.(ticker := AsksTop);
    OneMoreStep(s, [TickStart], s1, TickTop);
    assert [TickStart] + [TickTop] == [TickStart, TickTop];
    if s.pending == [] {
      OneMoreStep(s, [TickStart, TickTop], s1.(ticker := AsksHead), TickHead);
      assert [TickStart, TickTop] + [TickHead] == [TickStart, TickTop, TickHead];
    }
  }

  function RacedByReset(s: State): bool {
    s.raced || (s.errored && (s.runner.Flushes? || s.runner.Flushed?))
  }

  lemma ErrorCheck(s: State)
    requires s.ticker.Waits? && s.round.IDLE? && s.errored && s.pending == []
    ensures RunTo(s, CheckSteps(s)) == Some(s.(ticker := Chose(RoundParent(s)), errored := false, raced := RacedByReset(s)))
  {
    OneStep(s, TickStart);
    OneMoreStep(s, [TickStart], s.(ticker := SawError), TickEmpty);
    assert [TickStart] + [TickEmpty] == [TickStart, TickEmpty];
    OneMoreStep(s, [TickStart, TickEmpty], s.(ticker := SawEmpty), TickReset);
    var steps := [TickStart, TickEmpty, TickReset];
    assert [TickStart, TickEmpty] + [TickReset] == steps;
    var s3 := s.(ticker := AsksTop, errored := false, raced := RacedByReset(s));
    OneMoreStep(s, steps, s3, TickTop);
    OneMoreStep(s, steps + [TickTop], s3.(ticker := AsksHead), TickHead);
    assert steps + [TickTop] + [TickHead] == CheckSteps(s);
  }

  /** A tick in a row, as CheckNeedStartMine and the ticker do it: a queue in error mode that is not empty opens no
      round and changes nothing; an empty one leaves error mode. Then a round is posted on the last queued block,
      or on the head of the chain if there is none, exactly if it is due. */
  lemma CheckInARow(s: State, due: bool)
    requires s.ticker.Waits? && s.round.IDLE?
    ensures s.errored && s.pending != [] ==> RunTo(s, [TickStart, TickEmpty]) == Some(s)
    ensures !s.errored || s.pending == [] ==>
              RunTo(s, CheckSteps(s) + [TickGo(due)]) == Some(s.(errored := false, raced := RacedByReset(s),
                round := if due then PostMining else IDLE, tokens := s.tokens + if due then [Posted(RoundParent(s))] else []))
  {
    if s.errored && s.pending != [] {
      OneStep(s, TickStart);
      OneMoreStep(s, [TickStart], s.(ticker := SawError), TickEmpty);
      assert [TickStart] + [TickEmpty] == [TickStart, TickEmpty];
    } else {
      if s.errored { ErrorCheck(s); } else { ClearCheck(s); }
      OneMoreStep(s, CheckSteps(s), s.(ticker := Chose(RoundParent(s)), errored := false, raced := RacedByReset(s)), TickGo(due));
      assert s.tokens + [] == s.tokens;
    }
  }

  // ---------------------------------------------------------------- the writer

  /** The fates after these calls of WorkEnded. */
  function Told(fate: map<Header, Fate>, reports: seq<Report>): map<Header, Fate>
    decreases |reports|
  {
    if reports == [] then fate
    else
      var last := reports[|reports| - 1];
      Told(fate, reports[..|reports| - 1])[last.work.block := Ended(last.succeed)]
  }

  lemma ToldOneMore(fate: map<Header, Fate>, reports: seq<Report>, r: Report)
    ensures Told(fate, reports + [r]) == Told(fate, reports)[r.work.block := Ended(r.succeed)]
  {
    assert (reports + [r])[..|reports|] == reports;
  }

  function OneWrite(err: bool, fault: Fault): seq<Step> {
    [RunTakesHead, RunWrites(fault)] + (if err then [RunMarks] else []) + [RunEnds, RunPops]
  }

  lemma WriteOne(s: State, fault: Fault)
    requires s.runner.Writes? && !s.errored && s.pending != [] && s.chain.currentBlock in s.chain.td
    ensures var w := s.pending[0];
            var r := WriteBlock(s.chain, w.block, fault);
            RunTo(s, OneWrite(r.err, fault)) ==
              Some(s.(chain := r.db, pending := s.pending[1..], errored := r.err, fate := s.fate[w.block := Ended(!r.err)]))
  {
    var w := s.pending[0];
    var r := WriteBlock(s.chain, w.block, fault);
    OneStep(s, RunTakesHead);
    OneMoreStep(s, [RunTakesHead], s.(runner := Holds(w)), RunWrites(fault));
    var steps := [RunTakesHead, RunWrites(fault)];
    assert [RunTakesHead] + [RunWrites(fault)] == steps;
    AfterWrite(s, r, steps);
  }

  lemma EndAndPop(s: State, steps: seq<Step>, u: State)
    requires RunTo(s, steps) == Some(u) && (u.runner.Marked? || u.runner.Wrote?) && u.pending != []
    ensures RunTo(s, steps + [RunEnds, RunPops]) ==
              Some(u.(runner := Writes, pending := u.pending[1..], fate := u.fate[u.runner.work.block := Ended(u.runner.Wrote?)]))
  {
    var v := u.(runner := Pops, fate := u.fate[u.runner.work.block := Ended(u.runner.Wrote?)]);
    OneMoreStep(s, steps, u, RunEnds);
    assert Next(u, RunEnds) == v;
    PopsHead(s, steps + [RunEnds], v);
    assert steps + [RunEnds] + [RunPops] == steps + [RunEnds, RunPops];
  }

  lemma PopsHead(s: State, steps: seq<Step>, v: State)
    requires RunTo(s, steps) == Some(v) && v.runner.Pops? && v.pending != []
    ensures RunTo(s, steps + [RunPops]) == Some(v.(runner := Writes, pending := v.pending[1..]))
  {
    OneMoreStep(s, steps, v, RunPops);
  }

  lemma AfterWrite(s: State, r: Returned, steps: seq<Step>)
    requires s.pending != [] && !s.errored && s.runner.Writes?
    requires var w := s.pending[0];
             RunTo(s, steps) == Some(s.(chain := r.db, runner := if r.err then Failed(w) else Wrote(w),
                                        fate := s.fate[w.block := if r.err then Lost else Stored]))
    ensures RunTo(s, steps + (if r.err then [RunMarks] else []) + [RunEnds, RunPops]) ==
              Some(s.(chain := r.db, pending := s.pending[1..], errored := r.err, fate := s.fate[s.pending[0].block := Ended(!r.err)]))
  {
    var w, u := s.pending[0], RunTo(s, steps).value;
    assert u.fate[w.block := Ended(!r.err)] == s.fate[w.block := Ended(!r.err)];
    if r.err {
      OneMoreStep(s, steps, u, RunMarks);
      EndAndPop(s, steps + [RunMarks], u.(errored := true, runner := Marked(w)));
    } else {
      assert steps + [] == steps;
      EndAndPop(s, steps, u);
    }
  }

  function WriteSteps(c: Blocks, pending: seq<Work>, faults: seq<Fault>): seq<Step>
    requires Ordered(c)
    decreases |pending|
  {
    if pending == [] || faults == [] then []
    else
      var r := WriteBlock(c, pending[0].block, faults[0]);
      WriteBlockOutcome(c, pending[0].block, faults[0]);
      OneWrite(r.err, faults[0]) + if r.err then [] else WriteSteps(r.db, pending[1..], faults[1..])
  }

  /** Where the writer leaves the pipeline. */
  function Left(s: State, r: Pass, fate: map<Header, Fate>): State {
    s.(chain := r.chain, pending := r.pending, errored := r.errored, fate := Told(fate, r.reports))
  }

  lemma {:induction false} WriteInARow(s: State, faults: seq<Fault>, fate: map<Header, Fate>, reports: seq<Report>)
    requires s.runner.Writes? && !s.errored && Ordered(s.chain) && s.fate == Told(fate, reports)
    ensures RunTo(s, WriteSteps(s.chain, s.pending, faults)) == Some(Left(s, WriteLoop(s.chain, s.pending, faults, reports), fate))
    decreases |s.pending|
  {
    if s.pending != [] && faults != [] {
      var w := s.pending[0];
      var r := WriteBlock(s.chain, w.block, faults[0]);
      WriteOne(s, faults[0]);
      ToldOneMore(fate, reports, Report(w, !r.err));
      WriteBlockOutcome(s.chain, w.block, faults[0]);
      var u := s.(chain := r.db, pending := s.pending[1..], errored := r.err, fate := Told(fate, reports + [Report(w, !r.err)]));
      if r.err {
        assert OneWrite(true, faults[0]) + [] == OneWrite(true, faults[0]);
      } else {
        WriteInARow(u, faults[1..], fate, reports + [Report(w, true)]);
        RunAppend(s, OneWrite(false, faults[0]), u, WriteSteps(r.db, s.pending[1..], faults[1..]));
      }
    }
  }

  function FlushSteps(n: nat): seq<Step> {
    if n == 0 then [RunFlushes] else [RunFlushes, RunEndsFlushed] + FlushSteps(n - 1)
  }

  lemma FirstFailure(reports: seq<Report>, works: seq<Work>)
    requires works != []
    ensures reports + Failures(works) == reports + [Report(works[0], false)] + Failures(works[1..])
  {
    assert Failures(works) == [Report(works[0], false)] + Failures(works[1..]);
  }

  lemma FlushOne(s: State)
    requires s.runner.Flushes? && s.pending != []
    ensures RunTo(s, [RunFlushes, RunEndsFlushed]) == Some(s.(pending := s.pending[1..], fate := s.fate[s.pending[0].block := Ended(false)]))
  {
    var w := s.pending[0];
    OneStep(s, RunFlushes);
    OneMoreStep(s, [RunFlushes], s.(runner := Flushed(w), pending := s.pending[1..], fate := s.fate[w.block := Lost]), RunEndsFlushed);
    assert [RunFlushes] + [RunEndsFlushed] == [RunFlushes, RunEndsFlushed];
    assert s.fate[w.block := Lost][w.block := Ended(false)] == s.fate[w.block := Ended(false)];
  }

  lemma FlushMore(s: State, u: State, n: nat)
    requires n > 0 && RunTo(s, [RunFlushes, RunEndsFlushed]) == Some(u)
    ensures RunTo(s, FlushSteps(n)) == RunTo(u, FlushSteps(n - 1))
  {
    RunAppend(s, [RunFlushes, RunEndsFlushed], u, FlushSteps(n - 1));
  }

  lemma {:induction false} FlushInARow(s: State, fate: map<Header, Fate>, reports: seq<Report>)
    requires s.runner.Flushes? && s.fate == Told(fate, reports)
    ensures RunTo(s, FlushSteps(|s.pending|)) == Some(s.(runner := Writes, pending := [], fate := Told(fate, reports + Failures(s.pending))))
    decreases |s.pending|
  {
    if s.pending == [] {
      OneStep(s, RunFlushes);
      assert reports + Failures(s.pending) == reports;
    } else {
      var failed := Report(s.pending[0], false);
      FlushOne(s);
      ToldOneMore(fate, reports, failed);
      var u := s.(pending := s.pending[1..], fate := Told(fate, reports + [failed]));
      FirstFailure(reports, s.pending);
      FlushInARow(u, fate, reports + [failed]);
      FlushMore(s, u, |s.pending|);
    }
  }

  /** What one wake-up leaves behind, as the method WorkPending.Wake states it. */
  function Woken(s: State, faults: seq<Fault>): Pass
    requires Ordered(s.chain)
  {
    if s.errored then Pass(s.chain, [], true, Failures(s.pending)) else WriteLoop(s.chain, s.pending, faults, [])
  }

  function WakeSteps(s: State, faults: seq<Fault>): seq<Step>
    requires Ordered(s.chain)
  {
    [RunWakes] + (if s.errored then FlushSteps(|s.pending|) else WriteSteps(s.chain, s.pending, faults)) + [RunLeaves]
  }

  /** A wake-up in a row: whatever was queued and whatever the faults, the chain, the queue and the error flag are
      those of the sequential wake-up, and the fates are those its reports tell. */
  lemma WakeInARow(s: State, faults: seq<Fault>)
    requires s.runner.Sleeps? && Ordered(s.chain)
    ensures RunTo(s, WakeSteps(s, faults)) == Some(Left(s, Woken(s, faults), s.fate))
  {
    OneStep(s, RunWakes);
    var u := Next(s, RunWakes);
    var steps := if s.errored then FlushSteps(|s.pending|) else WriteSteps(s.chain, s.pending, faults);
    if s.errored {
      FlushInARow(u, s.fate, []);
      assert [] + Failures(s.pending) == Failures(s.pending);
    } else {
      WriteInARow(u, faults, s.fate, []);
    }
    RunAppend(s, [RunWakes], u, steps);
    var t := RunTo(u, steps).value;
    OneMoreStep(s, [RunWakes] + steps, t, RunLeaves);
  }
}
