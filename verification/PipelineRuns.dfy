/** What holds in every run of the goroutines of a session, under any interleaving. */
module PipelineRuns {
  import opened Common
  import opened Bits
  import opened Bloom
  import opened Scan
  import opened Filters
  import M = Matcher
  import opened Pipeline
  import opened PipelineOrder
  import opened PipelineMeasure

  /** What sub-matcher `r` makes of a section. */
  function Passes(c: Session, r: nat, item: Item): seq<Item> {
    if r < |c.rules| then
      var v := Filtered(c.vec, c.rules[r], item.section, c.size, item.bitset);
      if AllZero(v) then [] else [Item(item.section, v)]
    else []
  }

  /** The sections that are not fed in yet, one after the other. */
  function Unfed(c: Session, part: nat -> seq<nat>, next: nat): seq<nat> {
    M.Concat(part, next, c.limit)
  }

  predicate StagesRight(c: Session, stages: seq<Stage>) {
    |stages| == |c.rules| && forall r :: 0 <= r < |stages| ==> StageRight(c, c.rules[r], stages[r])
  }

  /** Every sub-matcher has the vectors of the section it is at, and nothing is lost, added or out of order. */
  predicate Inv(c: Session, l: Line, part: nat -> seq<nat>, s: State) {
    && l.stages == |c.rules| && WellFormed(c, s) && StagesRight(c, s.stages)
    && Content(l, s, Unfed(c, part, s.next), Unfed(c, part, c.first))
  }

  lemma StartInv(c: Session, l: Line, part: nat -> seq<nat>)
    requires l.stages == |c.rules|
    ensures Inv(c, l, part, Start(c))
  {
    var s := Start(c);
    EmptyContent(l, s, Unfed(c, part, c.first));
    assert s.out + Unfed(c, part, c.first) == Unfed(c, part, c.first);
  }

  // ---------------------------------------------------------------- steps

  lemma InnerKeeps(c: Session, l: Line, part: nat -> seq<nat>, s: State, t: State, r: nat)
    requires Inv(c, l, part, s) && WellFormed(c, t) && r < |c.rules|
    requires t.next == s.next && t.emitting == s.emitting && t.out == s.out
    requires t.stages == s.stages[r := t.stages[r]] && t.channels == s.channels[r := t.channels[r]]
    requires StageRight(c, c.rules[r], t.stages[r]) && Held(t, r) == Held(s, r)
    ensures Inv(c, l, part, t)
  {
    InnerContent(l, s, t, Unfed(c, part, s.next), Unfed(c, part, c.first), r);
  }

  lemma TakeStep(c: Session, l: Line, part: nat -> seq<nat>, s: State, r: nat)
    requires Inv(c, l, part, s) && Enabled(c, s, Take(r))
    ensures Inv(c, l, part, Next(c, s, Take(r)))
  {
    var t := Next(c, s, Take(r));
    TakeKeeps(c, c.rules[r], s.stages[r], s.channels[r][0]);
    TakeHeld(s.stages[r], s.channels[r]);
    InnerKeeps(c, l, part, s, t, r);
  }

  lemma AskStep(c: Session, l: Line, part: nat -> seq<nat>, s: State, r: nat)
    requires Inv(c, l, part, s) && Enabled(c, s, Ask(r))
    ensures Inv(c, l, part, Next(c, s, Ask(r)))
  {
    AskKeeps(c, c.rules[r], s.stages[r]);
    InnerKeeps(c, l, part, s, Next(c, s, Ask(r)), r);
  }

  lemma PassStep(c: Session, l: Line, part: nat -> seq<nat>, s: State, r: nat)
    requires Inv(c, l, part, s) && Enabled(c, s, Pass(r))
    ensures Inv(c, l, part, Next(c, s, Pass(r)))
  {
    PassKeeps(c, c.rules[r], s.stages[r]);
    PassHeld(s.stages[r], s.channels[r]);
    InnerKeeps(c, l, part, s, Next(c, s, Pass(r)), r);
  }

  lemma BeginStep(c: Session, l: Line, part: nat -> seq<nat>, s: State, r: nat)
    requires Inv(c, l, part, s) && Enabled(c, s, Begin(r))
    ensures Inv(c, l, part, Next(c, s, Begin(r)))
  {
    var g, t := s.stages[r], Next(c, s, Begin(r));
    BeginKeeps(c, c.rules[r], g);
    BeginHeld(g, s.channels[r], t.stages[r].gather);
    InnerKeeps(c, l, part, s, t, r);
  }

  lemma CollectStep(c: Session, l: Line, part: nat -> seq<nat>, s: State, r: nat)
    requires Inv(c, l, part, s) && Enabled(c, s, Collect(r))
    ensures Inv(c, l, part, Next(c, s, Collect(r)))
  {
    CollectKeeps(c, c.rules[r], s.stages[r]);
    InnerKeeps(c, l, part, s, Next(c, s, Collect(r)), r);
  }

  lemma FeedStep(c: Session, l: Line, part: nat -> seq<nat>, s: State)
    requires Inv(c, l, part, s) && Enabled(c, s, Feed) && part(s.next) == Comes(l, 0, Item(s.next, Ones(c.size)))
    ensures Inv(c, l, part, Next(c, s, Feed))
  {
    FeedContent(l, s, Next(c, s, Feed), Item(s.next, Ones(c.size)), Unfed(c, part, s.next + 1), Unfed(c, part, c.first));
  }

  lemma FinishStep(c: Session, l: Line, part: nat -> seq<nat>, s: State, r: nat)
    requires Inv(c, l, part, s) && Enabled(c, s, Finish(r)) && l.pass(r, s.stages[r].gather.item) == Made(c, s.stages[r].gather)
    ensures Inv(c, l, part, Next(c, s, Finish(r)))
  {
    FinishKeeps(c, c.rules[r], s.stages[r]);
    FinishContent(l, s, Next(c, s, Finish(r)), Unfed(c, part, s.next), Unfed(c, part, c.first), r);
  }

  lemma MadePasses(c: Session, s: State, r: nat)
    requires WellFormed(c, s) && StagesRight(c, s.stages) && Enabled(c, s, Finish(r))
    ensures Made(c, s.stages[r].gather) == Passes(c, r, s.stages[r].gather.item)
  {
    assert StageRight(c, c.rules[r], s.stages[r]);
    MadeIs(c, c.rules[r], s.stages[r].gather);
  }

  lemma SinkStep(c: Session, l: Line, part: nat -> seq<nat>, s: State)
    requires Inv(c, l, part, s) && Enabled(c, s, Sink) && l.emits == c.emits
    ensures Inv(c, l, part, Next(c, s, Sink))
  {
    SinkContent(l, s, Next(c, s, Sink), Unfed(c, part, s.next), Unfed(c, part, c.first));
  }

  lemma EmitStep(c: Session, l: Line, part: nat -> seq<nat>, s: State)
    requires Inv(c, l, part, s) && Enabled(c, s, Emit)
    ensures Inv(c, l, part, Next(c, s, Emit))
  {
    EmitContent(l, s, Next(c, s, Emit), Unfed(c, part, s.next), Unfed(c, part, c.first));
  }

  /** The line is that of the session, and `part` says what its sections come to. */
  ghost predicate Describes(c: Session, l: Line, part: nat -> seq<nat>) {
    && l.stages == |c.rules| && l.emits == c.emits
    && (forall r: nat, item :: l.pass(r, item) == Passes(c, r, item))
    && (forall section: nat :: part(section) == Comes(l, 0, Item(section, Ones(c.size))))
  }

  lemma NextKeepsInv(c: Session, l: Line, part: nat -> seq<nat>, s: State, step: Step)
    requires Describes(c, l, part) && Inv(c, l, part, s) && Enabled(c, s, step)
    ensures Inv(c, l, part, Next(c, s, step))
  {
    match step
    case Feed => FeedStep(c, l, part, s);
    case Take(r) => TakeStep(c, l, part, s, r);
    case Ask(r) => AskStep(c, l, part, s, r);
    case Pass(r) => PassStep(c, l, part, s, r);
    case Begin(r) => BeginStep(c, l, part, s, r);
    case Collect(r) => CollectStep(c, l, part, s, r);
    case Finish(r) => MadePasses(c, s, r); FinishStep(c, l, part, s, r);
    case Sink => SinkStep(c, l, part, s);
    case Emit => EmitStep(c, l, part, s);
  }

  // ---------------------------------------------------------------- no goroutine is stuck

  /** With channels of this capacity the step need not wait: it sends nothing, or the channel it sends to has room.
      Closing a session and the receiver of the results aside, sends are the only places where a goroutine waits
      for another. A stream holds at least as much as its first channel. */
  predicate HasRoom(c: Session, s: State, step: Step, capacity: nat)
    requires WellFormed(c, s) && Enabled(c, s, step)
  {
    match step
    case Feed => |s.channels[0]| < capacity
    case Ask(r) => |s.stages[r].streams[s.stages[r].mux.sent]| < capacity
    case Pass(r) => |s.stages[r].process| < capacity
    case Finish(r) => Made(c, s.stages[r].gather) == [] || |s.channels[r + 1]| < capacity
    case _ => true
  }

  /** Every goroutine waits: whatever it could do next needs room that is not there. */
  ghost predicate Stuck(c: Session, s: State, capacity: nat)
    requires WellFormed(c, s)
  {
    forall step :: Enabled(c, s, step) ==> !HasRoom(c, s, step, capacity)
  }

  lemma StuckStep(c: Session, s: State, capacity: nat, step: Step)
    requires WellFormed(c, s) && Stuck(c, s, capacity)
    ensures Enabled(c, s, step) ==> !HasRoom(c, s, step, capacity)
  {
  }

  /** If nothing is held behind a sub-matcher that is stuck, it has no section to filter. */
  lemma NothingGathered(c: Session, s: State, r: nat, capacity: nat)
    requires WellFormed(c, s) && StagesRight(c, s.stages) && Stuck(c, s, capacity) && capacity > 0
    requires r < |c.rules| && s.channels[r + 1] == []
    ensures s.stages[r].gather.Resting? && s.stages[r].process == []
  {
    var g := s.stages[r];
    assert StageRight(c, c.rules[r], g);
    if g.gather.Gathering? && g.gather.got < Streams(c.rules[r]) { HeadIsAsked(c, c.rules[r], g); }
    StuckStep(c, s, capacity, Collect(r));
    StuckStep(c, s, capacity, Finish(r));
    StuckStep(c, s, capacity, Begin(r));
  }

  /** Then none is being multiplexed and none waits in front of it. */
  lemma NothingSent(c: Session, s: State, r: nat, capacity: nat)
    requires WellFormed(c, s) && StagesRight(c, s.stages) && Stuck(c, s, capacity) && capacity > 0
    requires r < |c.rules| && s.stages[r].gather.Resting? && s.stages[r].process == []
    ensures Held(s, r) == []
  {
    var g := s.stages[r];
    assert StageRight(c, c.rules[r], g);
    if g.mux.Sending? && g.mux.sent < Streams(c.rules[r]) { assert g.streams[g.mux.sent] == Asked(g, g.mux.sent); }
    StuckStep(c, s, capacity, Ask(r));
    StuckStep(c, s, capacity, Pass(r));
    StuckStep(c, s, capacity, Take(r));
  }

  /** From the end of the chain backwards. */
  lemma {:induction false} StuckIsEmpty(c: Session, s: State, r: nat, capacity: nat)
    requires WellFormed(c, s) && StagesRight(c, s.stages) && Stuck(c, s, capacity) && capacity > 0 && r <= |c.rules|
    ensures Held(s, r) == [] && s.channels[r] == []
    decreases |c.rules| - r
  {
    if r < |c.rules| {
      StuckIsEmpty(c, s, r + 1, capacity);
      NothingGathered(c, s, r, capacity);
      NothingSent(c, s, r, capacity);
    } else {
      StuckStep(c, s, capacity, Emit);
      StuckStep(c, s, capacity, Sink);
    }
  }

  /** The goroutines never wait for one another in a circle, whatever the capacity of the channels: when none can
      go on, everything that was to come has come. */
  lemma StuckIsWhole(c: Session, l: Line, part: nat -> seq<nat>, s: State, capacity: nat)
    requires Inv(c, l, part, s) && Stuck(c, s, capacity) && capacity > 0
    ensures s.out == Unfed(c, part, c.first)
  {
    forall r: nat | r <= |c.rules| ensures Held(s, r) == [] { StuckIsEmpty(c, s, r, capacity); }
    StuckIsEmpty(c, s, 0, capacity);
    StuckStep(c, s, capacity, Feed);
    StuckStep(c, s, capacity, Emit);
    EmptyContent(l, s, []);
    assert s.out + [] == s.out;
  }

  // ---------------------------------------------------------------- runs

  function RunTo(c: Session, steps: seq<Step>): (r: Option<State>)
    ensures r.Some? ==> WellFormed(c, r.value)
    decreases |steps|
  {
    if steps == [] then Some(Start(c))
    else
      match RunTo(c, steps[..|steps| - 1])
      case None => None
      case Some(t) => var last := steps[|steps| - 1]; if Enabled(c, t, last) then Some(Next(c, t, last)) else None
  }

  lemma {:induction false} RunKeepsInv(c: Session, l: Line, part: nat -> seq<nat>, steps: seq<Step>, t: State)
    requires Describes(c, l, part) && RunTo(c, steps) == Some(t)
    ensures Inv(c, l, part, t)
    decreases |steps|
  {
    if steps == [] {
      StartInv(c, l, part);
    } else {
      var front, last := steps[..|steps| - 1], steps[|steps| - 1];
      var u := RunTo(c, front).value;
      RunKeepsInv(c, l, part, front, u);
      NextKeepsInv(c, l, part, u, last);
    }
  }

  // a session ends

  /** The steps a session can still take: the blocks that are to be sent, and the work. */
  function Measure(c: Session, s: State, blocks: nat): nat
    requires WellFormed(c, s)
  {
    (if |s.out| < blocks then blocks - |s.out| else 0) + Work(c, s)
  }

  /** Every step lowers it. */
  lemma StepLowersMeasure(c: Session, l: Line, part: nat -> seq<nat>, s: State, step: Step)
    requires Inv(c, l, part, s) && Enabled(c, s, step)
    ensures Measure(c, Next(c, s, step), |Unfed(c, part, c.first)|) < Measure(c, s, |Unfed(c, part, c.first)|)
  {
    StepLowersWork(c, s, step);
  }

  lemma {:induction false} RunIsShort(c: Session, l: Line, part: nat -> seq<nat>, steps: seq<Step>, t: State)
    requires Describes(c, l, part) && RunTo(c, steps) == Some(t)
    ensures |steps| + Measure(c, t, |Unfed(c, part, c.first)|) <= Measure(c, Start(c), |Unfed(c, part, c.first)|)
    decreases |steps|
  {
    if steps != [] {
      var front, last := steps[..|steps| - 1], steps[|steps| - 1];
      var u := RunTo(c, front).value;
      RunIsShort(c, l, part, front, u);
      RunKeepsInv(c, l, part, front, u);
      StepLowersMeasure(c, l, part, u, last);
    }
  }

  function MostSteps(c: Session, blocks: nat): nat {
    blocks + Load(if c.first < c.limit then c.limit - c.first else 0, 1 + Cost(c, 0))
  }

  lemma StartMeasure(c: Session, blocks: nat)
    ensures Measure(c, Start(c), blocks) == MostSteps(c, blocks)
  {
    forall r | 0 <= r <= |c.rules| ensures Works(c, Start(c))[r] == 0 { assert Load(0, Cost(c, r)) == 0; }
    SumZero(Works(c, Start(c)));
  }

  lemma RunIsBounded(c: Session, l: Line, part: nat -> seq<nat>, steps: seq<Step>, t: State, whole: seq<nat>)
    requires Describes(c, l, part) && RunTo(c, steps) == Some(t) && whole == Unfed(c, part, c.first)
    ensures |steps| <= MostSteps(c, |whole|)
  {
    RunIsShort(c, l, part, steps, t);
    StartMeasure(c, |whole|);
  }

  lemma RunIsPrefix(c: Session, l: Line, part: nat -> seq<nat>, steps: seq<Step>, t: State, capacity: nat, whole: seq<nat>)
    requires Describes(c, l, part) && RunTo(c, steps) == Some(t) && capacity > 0 && whole == Unfed(c, part, c.first)
    ensures t.out <= whole
    ensures Stuck(c, t, capacity) ==> t.out == whole
  {
    RunKeepsInv(c, l, part, steps, t);
    if Stuck(c, t, capacity) { StuckIsWhole(c, l, part, t, capacity); }
  }

  // ---------------------------------------------------------------- against the sequential session

  function SessionOf(vec: Vectors, rules: seq<Rule>, size: nat, begin: nat, end: nat): Session
    requires size > 0
  {
    Session(vec, rules, size, M.SectionIndex(begin, size), M.SectionIndex(end, size) + 1,
            (item: Item) => M.Emits(item.bitset, M.FirstBlock(item.section, size), begin, end))
  }

  function LineOf(c: Session): Line {
    Line(|c.rules|, (r: nat, item: Item) => Passes(c, r, item), c.emits)
  }

  /** What a section comes to on the line is what the sequential session makes of it. */
  lemma {:induction false} ComesIsYield(vec: Vectors, rules: seq<Rule>, size: nat, begin: nat, end: nat, r: nat, item: Item)
    requires size > 0 && r <= |rules|
    ensures Comes(LineOf(SessionOf(vec, rules, size, begin, end)), r, item) == M.Yield(vec, rules[r..], size, begin, end, item.section, item.bitset)
    decreases |rules| - r
  {
    var c := SessionOf(vec, rules, size, begin, end);
    var l := LineOf(c);
    if r < |rules| {
      var v := Filtered(vec, rules[r], item.section, size, item.bitset);
      assert rules[r..][0] == rules[r] && rules[r..][1..] == rules[r + 1..];
      if !AllZero(v) {
        ComesIsYield(vec, rules, size, begin, end, r + 1, Item(item.section, v));
        FlatOne(l, r + 1, Item(item.section, v));
        assert l.pass(r, item) == [Item(item.section, v)];
      } else {
        assert l.pass(r, item) == [];
      }
    }
  }

  lemma LineDescribes(vec: Vectors, rules: seq<Rule>, size: nat, begin: nat, end: nat)
    requires size > 0
    ensures var c := SessionOf(vec, rules, size, begin, end); Describes(c, LineOf(c), M.Yields(vec, rules, size, begin, end))
  {
    var c := SessionOf(vec, rules, size, begin, end);
    forall section: nat
      ensures M.Yields(vec, rules, size, begin, end)(section) == Comes(LineOf(c), 0, Item(section, Ones(size)))
    {
      ComesIsYield(vec, rules, size, begin, end, 0, Item(section, Ones(size)));
      assert rules[0..] == rules;
    }
  }

  /** In every interleaving of the goroutines what has come out is a prefix of the result of the sequential
      session, and all of it once no goroutine can go on, with channels of any positive capacity. */
  lemma PrefixInEveryRun(vec: Vectors, rules: seq<Rule>, size: nat, begin: nat, end: nat, steps: seq<Step>, t: State, capacity: nat)
    requires size > 0 && capacity > 0 && RunTo(SessionOf(vec, rules, size, begin, end), steps) == Some(t)
    ensures t.out <= M.Whole(vec, rules, size, begin, end)
    ensures Stuck(SessionOf(vec, rules, size, begin, end), t, capacity) ==> t.out == M.Whole(vec, rules, size, begin, end)
  {
    var c := SessionOf(vec, rules, size, begin, end);
    LineDescribes(vec, rules, size, begin, end);
    RunIsPrefix(c, LineOf(c), M.Yields(vec, rules, size, begin, end), steps, t, capacity, M.Whole(vec, rules, size, begin, end));
  }

  /** No interleaving goes on for ever: a run has at most as many steps as blocks are to be sent and as the sections
      of the range can take on their way. */
  lemma EndsInEveryRun(vec: Vectors, rules: seq<Rule>, size: nat, begin: nat, end: nat, steps: seq<Step>, t: State)
    requires size > 0 && RunTo(SessionOf(vec, rules, size, begin, end), steps) == Some(t)
    ensures |steps| <= MostSteps(SessionOf(vec, rules, size, begin, end), |M.Whole(vec, rules, size, begin, end)|)
  {
    var c := SessionOf(vec, rules, size, begin, end);
    LineDescribes(vec, rules, size, begin, end);
    RunIsBounded(c, LineOf(c), M.Yields(vec, rules, size, begin, end), steps, t, M.Whole(vec, rules, size, begin, end));
  }

  lemma {:induction false} PrefixAscends(a: seq<nat>, b: seq<nat>)
    requires a <= b && Ascending(b)
    ensures Ascending(a) && forall n :: n in a ==> n in b
  {
    assert forall i :: 0 <= i < |a| ==> a[i] == b[i];
  }

  /** Hence on the index of the blooms, in every interleaving: the blocks come out in strictly ascending order,
      each is a block of the range whose bloom passes all filters, and on an exact range these are all of
      them once no goroutine can go on, with channels of any positive capacity. */
  lemma MatchesInEveryRun(vec: Vectors, blooms: nat -> Bloom, size: nat, filters: seq<seq<Clause>>, begin: nat, end: nat,
                          steps: seq<Step>, t: State, capacity: nat)
    requires M.Indexed(vec, blooms, size) && size > 0 && size % 8 == 0 && capacity > 0
    requires RunTo(SessionOf(vec, Keep(filters), size, begin, end), steps) == Some(t)
    ensures Ascending(t.out)
    ensures forall n :: n in t.out ==> begin <= n <= end && PassesAll(blooms(n), filters)
    ensures Stuck(SessionOf(vec, Keep(filters), size, begin, end), t, capacity) && M.Exact(size, begin, end) ==>
              forall n: nat :: begin <= n <= end && PassesAll(blooms(n), filters) ==> n in t.out
  {
    var rules := Keep(filters);
    PrefixInEveryRun(vec, rules, size, begin, end, steps, t, capacity);
    M.WholeLists(vec, rules, size, begin, end);
    PrefixAscends(t.out, M.Whole(vec, rules, size, begin, end));
    forall n: nat ensures M.Hits(vec, rules, size)(n) <==> PassesAll(blooms(n), filters) {
      M.HitIsBloomTest(vec, blooms, size, filters, n);
    }
  }
}
