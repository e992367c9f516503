/** A number that every step of every goroutine of a session lowers: the steps the sections underway and those not fed
    in yet can still take on their way to the results loop. */
module PipelineMeasure {
  import opened Bits
  import opened Pipeline

  /** `n` sections with so many steps each. */
  function Load(n: nat, steps: nat): nat {
    n * steps
  }

  lemma LoadMore(n: nat, steps: nat)
    ensures Load(n + 1, steps) == Load(n, steps) + steps
  {
  }

  /** The steps a section in the channel of sub-matcher `r` takes at most: at each one it is taken, asked for at every
      stream, passed on, begun, collected from every stream and finished, and at the end it is sunk. */
  function Cost(c: Session, r: nat): nat
    requires r <= |c.rules|
    decreases |c.rules| - r
  {
    if r == |c.rules| then 1 else 4 + 2 * Streams(c.rules[r]) + Cost(c, r + 1)
  }

  function MuxWork(streams: nat, m: Mux, after: nat): nat {
    match m
    case Waiting => 0
    case Sending(_, sent) => (if sent < streams then streams - sent else 0) + 3 + streams + after
  }

  function GatherWork(streams: nat, g: Gather, after: nat): nat {
    match g
    case Resting => 0
    case Gathering(_, got, _, _) => (if got < streams then streams - got else 0) + 1 + after
  }

  /** The steps of the sections within a sub-matcher; `after` are those that a section takes behind it. */
  function StageWork(streams: nat, g: Stage, after: nat): nat {
    MuxWork(streams, g.mux, after) + Load(|g.process|, 2 + streams + after) + GatherWork(streams, g.gather, after)
  }

  // ---------------------------------------------------------------- within a sub-matcher

  lemma TakeWorks(streams: nat, g: Stage, item: Item, after: nat)
    requires g.mux.Waiting?
    ensures StageWork(streams, g.(mux := Sending(item, 0)), after) == StageWork(streams, g, after) + 3 + 2 * streams + after
  {
  }

  lemma AskWorks(streams: nat, g: Stage, after: nat)
    requires g.mux.Sending? && g.mux.sent < streams == |g.streams|
    ensures StageWork(streams, Asks(g), after) + 1 == StageWork(streams, g, after)
  {
  }

  lemma PassWorks(streams: nat, g: Stage, after: nat)
    requires g.mux.Sending? && g.mux.sent >= streams
    ensures StageWork(streams, g.(process := g.process + [g.mux.item], mux := Waiting), after) + 1 == StageWork(streams, g, after)
  {
    LoadMore(|g.process|, 2 + streams + after);
  }

  lemma BeginWorks(streams: nat, g: Stage, h: Gather, after: nat)
    requires g.gather.Resting? && g.process != [] && h.Gathering? && h.got == 0
    ensures StageWork(streams, g.(process := g.process[1..], gather := h), after) + 1 == StageWork(streams, g, after)
  {
    LoadMore(|g.process| - 1, 2 + streams + after);
  }

  lemma CollectWorks(streams: nat, g: Stage, data: Bytes, after: nat)
    requires g.gather.Gathering? && g.gather.got < streams == |g.streams| && g.streams[g.gather.got] != []
    ensures StageWork(streams, Collects(g, data), after) + 1 == StageWork(streams, g, after)
  {
  }

  lemma FinishWorks(streams: nat, g: Stage, after: nat)
    requires g.gather.Gathering? && g.gather.got >= streams
    ensures StageWork(streams, g.(gather := Resting), after) + 1 + after == StageWork(streams, g, after)
  {
  }

  // ---------------------------------------------------------------- all of them

  function WorkAt(c: Session, s: State, r: nat): nat
    requires WellFormed(c, s) && r <= |c.rules|
  {
    Load(|s.channels[r]|, Cost(c, r)) + if r < |c.rules| then StageWork(Streams(c.rules[r]), s.stages[r], Cost(c, r + 1)) else 0
  }

  function Works(c: Session, s: State): (w: seq<nat>)
    requires WellFormed(c, s)
    ensures |w| == |c.rules| + 1 && forall r :: 0 <= r < |w| ==> w[r] == WorkAt(c, s, r)
  {
    seq(|c.rules| + 1, r requires 0 <= r < |c.rules| + 1 => WorkAt(c, s, r))
  }

  function Sum(w: seq<nat>): nat {
    if w == [] then 0 else Sum(w[..|w| - 1]) + w[|w| - 1]
  }

  lemma {:induction false} SumSet(w: seq<nat>, r: nat, v: nat)
    requires r < |w|
    ensures Sum(w[r := v]) + w[r] == Sum(w) + v
  {
    var n := |w| - 1;
    if r < n {
      SumSet(w[..n], r, v);
      assert w[r := v][..n] == w[..n][r := v];
    } else {
      assert w[r := v][..n] == w[..n];
    }
  }

  lemma {:induction false} SumZero(w: seq<nat>)
    requires forall r :: 0 <= r < |w| ==> w[r] == 0
    ensures Sum(w) == 0
  {
    if w != [] { SumZero(w[..|w| - 1]); }
  }

  /** The steps still to come, sending apart. */
  function Work(c: Session, s: State): nat
    requires WellFormed(c, s)
  {
    Load(if s.next < c.limit then c.limit - s.next else 0, 1 + Cost(c, 0)) + Sum(Works(c, s))
  }

  /** A step that changes the work at one place only. */
  lemma OnePlace(c: Session, s: State, t: State, r: nat)
    requires WellFormed(c, s) && WellFormed(c, t) && r <= |c.rules| && t.next == s.next
    requires t.channels == s.channels[r := t.channels[r]]
    requires if r < |c.rules| then t.stages == s.stages[r := t.stages[r]] else t.stages == s.stages
    requires WorkAt(c, t, r) + 1 == WorkAt(c, s, r)
    ensures Work(c, t) + 1 == Work(c, s)
  {
    assert Works(c, t) == Works(c, s)[r := WorkAt(c, t, r)];
    SumSet(Works(c, s), r, WorkAt(c, t, r));
  }

  lemma AskLowers(c: Session, s: State, r: nat)
    requires WellFormed(c, s) && Enabled(c, s, Ask(r))
    ensures Work(c, Next(c, s, Ask(r))) + 1 == Work(c, s)
  {
    AskWorks(Streams(c.rules[r]), s.stages[r], Cost(c, r + 1));
    OnePlace(c, s, Next(c, s, Ask(r)), r);
  }

  lemma PassLowers(c: Session, s: State, r: nat)
    requires WellFormed(c, s) && Enabled(c, s, Pass(r))
    ensures Work(c, Next(c, s, Pass(r))) + 1 == Work(c, s)
  {
    PassWorks(Streams(c.rules[r]), s.stages[r], Cost(c, r + 1));
    OnePlace(c, s, Next(c, s, Pass(r)), r);
  }

  lemma BeginLowers(c: Session, s: State, r: nat)
    requires WellFormed(c, s) && Enabled(c, s, Begin(r))
    ensures Work(c, Next(c, s, Begin(r))) + 1 == Work(c, s)
  {
    BeginWorks(Streams(c.rules[r]), s.stages[r], Next(c, s, Begin(r)).stages[r].gather, Cost(c, r + 1));
    OnePlace(c, s, Next(c, s, Begin(r)), r);
  }

  lemma CollectLowers(c: Session, s: State, r: nat)
    requires WellFormed(c, s) && Enabled(c, s, Collect(r))
    ensures Work(c, Next(c, s, Collect(r))) + 1 == Work(c, s)
  {
    var g := s.stages[r];
    CollectWorks(Streams(c.rules[r]), g, c.vec(BitOf(c.rules[r], g.gather.got), g.streams[g.gather.got][0]), Cost(c, r + 1));
    OnePlace(c, s, Next(c, s, Collect(r)), r);
  }

  lemma TakeLowers(c: Session, s: State, r: nat)
    requires WellFormed(c, s) && Enabled(c, s, Take(r))
    ensures Work(c, Next(c, s, Take(r))) + 1 == Work(c, s)
  {
    TakeWorks(Streams(c.rules[r]), s.stages[r], s.channels[r][0], Cost(c, r + 1));
    LoadMore(|s.channels[r]| - 1, Cost(c, r));
    OnePlace(c, s, Next(c, s, Take(r)), r);
  }

  lemma SinkLowers(c: Session, s: State)
    requires WellFormed(c, s) && Enabled(c, s, Sink)
    ensures Work(c, Next(c, s, Sink)) + 1 == Work(c, s)
  {
    var n := |c.rules|;
    LoadMore(|s.channels[n]| - 1, Cost(c, n));
    OnePlace(c, s, Next(c, s, Sink), n);
  }

  lemma FeedLowers(c: Session, s: State)
    requires WellFormed(c, s) && Enabled(c, s, Feed)
    ensures Work(c, Next(c, s, Feed)) + 1 == Work(c, s)
  {
    var t := Next(c, s, Feed);
    LoadMore(|s.channels[0]|, Cost(c, 0));
    LoadMore(c.limit - t.next, 1 + Cost(c, 0));
    assert Works(c, t) == Works(c, s)[0 := WorkAt(c, t, 0)];
    SumSet(Works(c, s), 0, WorkAt(c, t, 0));
  }

  lemma MadeLoad(n: nat, made: nat, steps: nat)
    requires made <= 1
    ensures Load(n + made, steps) <= Load(n, steps) + steps
  {
    LoadMore(n, steps);
  }

  /** A step that changes the work at two neighbouring places. */
  lemma TwoPlaces(c: Session, s: State, t: State, r: nat)
    requires WellFormed(c, s) && WellFormed(c, t) && r < |c.rules| && t.next == s.next
    requires t.channels == s.channels[r + 1 := t.channels[r + 1]] && t.stages == s.stages[r := t.stages[r]]
    requires WorkAt(c, t, r) + WorkAt(c, t, r + 1) < WorkAt(c, s, r) + WorkAt(c, s, r + 1)
    ensures Work(c, t) < Work(c, s)
  {
    var w := Works(c, s);
    var v: seq<nat> := w[r := WorkAt(c, t, r)];
    assert Works(c, t) == v[r + 1 := WorkAt(c, t, r + 1)];
    SumSet(w, r, WorkAt(c, t, r));
    SumSet(v, r + 1, WorkAt(c, t, r + 1));
  }

  lemma FinishLowers(c: Session, s: State, r: nat)
    requires WellFormed(c, s) && Enabled(c, s, Finish(r))
    ensures Work(c, Next(c, s, Finish(r))) < Work(c, s)
  {
    FinishWorks(Streams(c.rules[r]), s.stages[r], Cost(c, r + 1));
    MadeLoad(|s.channels[r + 1]|, |Made(c, s.stages[r].gather)|, Cost(c, r + 1));
    TwoPlaces(c, s, Next(c, s, Finish(r)), r);
  }

  /** Every step but sending a block lowers the work; sending leaves it. */
  lemma StepLowersWork(c: Session, s: State, step: Step)
    requires WellFormed(c, s) && Enabled(c, s, step)
    ensures if step.Emit? then Work(c, Next(c, s, step)) == Work(c, s) else Work(c, Next(c, s, step)) < Work(c, s)
  {
    match step
    case Feed => FeedLowers(c, s);
    case Take(r) => TakeLowers(c, s, r);
    case Ask(r) => AskLowers(c, s, r);
    case Pass(r) => PassLowers(c, s, r);
    case Begin(r) => BeginLowers(c, s, r);
    case Collect(r) => CollectLowers(c, s, r);
    case Finish(r) => FinishLowers(c, s, r);
    case Sink => SinkLowers(c, s);
    case Emit => assert Works(c, Next(c, s, step)) == Works(c, s);
  }
}
