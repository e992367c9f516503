/** The goroutines of a session of blockchain/bloombits/matcher.go as one interleaved step system: the one that feeds
    in the sections, two for each sub-matcher, and the one that sends the results. Each hand-over through a channel
    is one atomic step. The streams between a sub-matcher and its schedulers hold the sections whose vectors were
    asked for and not yet taken, first in, first out (module RetrievalRuns). */
module Pipeline {
  import opened Common
  import opened Bits
  import opened Bitutil
  import opened Filters

  /** partialMatches. */
  datatype Item = Item(section: nat, bitset: Bytes)

  /** The first goroutine of a sub-matcher: it waits, or it holds a section that `sent` streams were asked for. */
  datatype Mux = Waiting | Sending(item: Item, sent: nat)

  /** The second goroutine: it waits, or it has taken `got` vectors of a section. */
  datatype Gather = Resting | Gathering(item: Item, got: nat, andVector: Option<Bytes>, orVector: Option<Bytes>)

  datatype Stage = Stage(mux: Mux, streams: seq<seq<nat>>, process: seq<Item>, gather: Gather)

  /** Channel `r` leads into sub-matcher `r`, the last one to the results loop; `emitting` are the blocks of a
      section that are still to be sent, `out` those sent. */
  datatype State = State(next: nat, channels: seq<seq<Item>>, stages: seq<Stage>, emitting: seq<nat>, out: seq<nat>)

  /** The sections from `first` up to `limit` are fed in; `emits` gives the blocks the results loop finds in what
      came out of the chain. */
  datatype Session = Session(vec: Vectors, rules: seq<Rule>, size: nat, first: nat, limit: nat, emits: Item -> seq<nat>)

  // ---------------------------------------------------------------- steps

  datatype Step = Feed | Take(r: nat) | Ask(r: nat) | Pass(r: nat) | Begin(r: nat) | Collect(r: nat) | Finish(r: nat) | Sink | Emit

  function Streams(rule: Rule): nat {
    3 * |rule|
  }

  function BitOf(rule: Rule, i: nat): nat
    requires i < Streams(rule)
  {
    var ix := rule[i / 3];
    if i % 3 == 0 then ix.i0 else if i % 3 == 1 then ix.i1 else ix.i2
  }

  predicate WellFormed(c: Session, s: State) {
    && |s.stages| == |c.rules| && |s.channels| == |c.rules| + 1
    && forall r :: 0 <= r < |c.rules| ==> |s.stages[r].streams| == Streams(c.rules[r])
  }

  predicate Enabled(c: Session, s: State, step: Step)
    requires WellFormed(c, s)
  {
    match step
    case Feed => s.next < c.limit
    case Take(r) => r < |c.rules| && s.stages[r].mux.Waiting? && s.channels[r] != []
    case Ask(r) => r < |c.rules| && s.stages[r].mux.Sending? && s.stages[r].mux.sent < Streams(c.rules[r])
    case Pass(r) => r < |c.rules| && s.stages[r].mux.Sending? && s.stages[r].mux.sent >= Streams(c.rules[r])
    case Begin(r) => r < |c.rules| && s.stages[r].gather.Resting? && s.stages[r].process != []
    case Collect(r) => r < |c.rules| && s.stages[r].gather.Gathering? &&
                       var i := s.stages[r].gather.got; i < Streams(c.rules[r]) && s.stages[r].streams[i] != []
    case Finish(r) => r < |c.rules| && s.stages[r].gather.Gathering? && s.stages[r].gather.got >= Streams(c.rules[r])
    case Sink => s.emitting == [] && s.channels[|c.rules|] != []
    case Emit => s.emitting != []
  }

  /** The vector of the next stream is And-ed to those of its clause; the third one completes the clause. */
  function Merge(g: Gather, data: Bytes): Gather
    requires g.Gathering?
  {
    var a := match g.andVector case None => data case Some(v) => AndBytes(v, data);
    if g.got % 3 < 2 then g.(got := g.got + 1, andVector := Some(a))
    else
      var o := match g.orVector case None => a case Some(v) => OrBytes(v, a);
      g.(got := g.got + 1, andVector := None, orVector := Some(o))
  }

  function Asks(g: Stage): Stage
    requires g.mux.Sending? && g.mux.sent < |g.streams|
  {
    var i := g.mux.sent;
    g.(streams := g.streams[i := g.streams[i] + [g.mux.item.section]], mux := g.mux.(sent := i + 1))
  }

  function Collects(g: Stage, data: Bytes): Stage
    requires g.gather.Gathering? && g.gather.got < |g.streams| && g.streams[g.gather.got] != []
  {
    var i := g.gather.got;
    g.(streams := g.streams[i := g.streams[i][1..]], gather := Merge(g.gather, data))
  }

  /** What a sub-matcher sends on, if anything. */
  function Made(c: Session, g: Gather): seq<Item>
    requires g.Gathering?
  {
    var or := match g.orVector case None => Zeros(c.size / 8) case Some(v) => v;
    var v := AndBytes(or, g.item.bitset);
    if AllZero(v) then [] else [Item(g.item.section, v)]
  }

  function Next(c: Session, s: State, step: Step): (t: State)
    requires WellFormed(c, s) && Enabled(c, s, step)
    ensures WellFormed(c, t)
  {
    match step
    case Feed => s.(channels := s.channels[0 := s.channels[0] + [Item(s.next, Ones(c.size))]], next := s.next + 1)
    case Take(r) =>
      s.(channels := s.channels[r := s.channels[r][1..]], stages := s.stages[r := s.stages[r].(mux := Sending(s.channels[r][0], 0))])
    case Ask(r) => s.(stages := s.stages[r := Asks(s.stages[r])])
    case Pass(r) =>
      var g := s.stages[r];
      s.(stages := s.stages[r := g.(process := g.process + [g.mux.item], mux := Waiting)])
    case Begin(r) =>
      var g := s.stages[r];
      s.(stages := s.stages[r := g.(process := g.process[1..], gather := Gathering(g.process[0], 0, None, None))])
    case Collect(r) =>
      var g := s.stages[r];
      var i := g.gather.got;
      s.(stages := s.stages[r := Collects(g, c.vec(BitOf(c.rules[r], i), g.streams[i][0]))])
    case Finish(r) =>
      var g := s.stages[r];
      s.(stages := s.stages[r := g.(gather := Resting)], channels := s.channels[r + 1 := s.channels[r + 1] + Made(c, g.gather)])
    case Sink =>
      var item := s.channels[|c.rules|][0];
      s.(channels := s.channels[|c.rules| := s.channels[|c.rules|][1..]],
         emitting := c.emits(item))
    case Emit => s.(out := s.out + [s.emitting[0]], emitting := s.emitting[1..])
  }

  function Start(c: Session): State {
    State(c.first, seq(|c.rules| + 1, _ => []),
          seq(|c.rules|, r requires 0 <= r < |c.rules| => Stage(Waiting, seq(Streams(c.rules[r]), _ => []), [], Resting)), [], [])
  }

  // ---------------------------------------------------------------- the streams of a sub-matcher

  function Sections(items: seq<Item>): (r: seq<nat>)
    ensures |r| == |items|
  {
    seq(|items|, i requires 0 <= i < |items| => items[i].section)
  }

  /** What stream `i` holds: the section whose vectors are being taken, unless that of the stream was, those
      announced, and the one being multiplexed, if the stream was asked for it. */
  function Asked(g: Stage, i: nat): seq<nat> {
    (if g.gather.Gathering? && g.gather.got <= i then [g.gather.item.section] else []) + Sections(g.process)
      + (if g.mux.Sending? && i < g.mux.sent then [g.mux.item.section] else [])
  }

  predicate StreamsRight(g: Stage) {
    forall i :: 0 <= i < |g.streams| ==> g.streams[i] == Asked(g, i)
  }

  function AndSome(vec: Vectors, ix: Indexes, section: nat, j: nat): Option<Bytes> {
    if j == 0 then None else if j == 1 then Some(vec(ix.i0, section)) else Some(AndBytes(vec(ix.i0, section), vec(ix.i1, section)))
  }

  /** The vectors taken so far, merged. */
  predicate GatherRight(c: Session, rule: Rule, g: Gather) {
    g.Gathering? ==>
      var q := g.got / 3;
      && g.got <= Streams(rule)
      && g.orVector == (if q == 0 then None else Some(OrAll(c.vec, rule[..q], g.item.section, c.size)))
      && g.andVector == (if g.got % 3 == 0 then None else AndSome(c.vec, rule[q], g.item.section, g.got % 3))
  }

  predicate MuxRight(rule: Rule, g: Mux) {
    g.Sending? ==> g.sent <= Streams(rule)
  }

  predicate StageRight(c: Session, rule: Rule, g: Stage) {
    |g.streams| == Streams(rule) && StreamsRight(g) && GatherRight(c, rule, g.gather) && MuxRight(rule, g.mux)
  }

  lemma TakeKeeps(c: Session, rule: Rule, g: Stage, item: Item)
    requires StageRight(c, rule, g) && g.mux.Waiting?
    ensures StageRight(c, rule, g.(mux := Sending(item, 0)))
  {
    var h := g.(mux := Sending(item, 0));
    forall i | 0 <= i < |h.streams| ensures h.streams[i] == Asked(h, i) {
      assert g.streams[i] == Asked(g, i);
    }
  }

  lemma AskKeeps(c: Session, rule: Rule, g: Stage)
    requires StageRight(c, rule, g) && g.mux.Sending? && g.mux.sent < Streams(rule)
    ensures StageRight(c, rule, Asks(g))
  {
    var h := Asks(g);
    forall i | 0 <= i < |h.streams| ensures h.streams[i] == Asked(h, i) {
      assert g.streams[i] == Asked(g, i);
    }
  }

  lemma PassKeeps(c: Session, rule: Rule, g: Stage)
    requires StageRight(c, rule, g) && g.mux.Sending? && g.mux.sent >= Streams(rule)
    ensures StageRight(c, rule, g.(process := g.process + [g.mux.item], mux := Waiting))
  {
    var h := g.(process := g.process + [g.mux.item], mux := Waiting);
    assert Sections(h.process) == Sections(g.process) + [g.mux.item.section];
    forall i | 0 <= i < |h.streams| ensures h.streams[i] == Asked(h, i) {
      assert g.streams[i] == Asked(g, i);
    }
  }

  lemma BeginKeeps(c: Session, rule: Rule, g: Stage)
    requires StageRight(c, rule, g) && g.gather.Resting? && g.process != []
    ensures StageRight(c, rule, g.(process := g.process[1..], gather := Gathering(g.process[0], 0, None, None)))
  {
    var h := g.(process := g.process[1..], gather := Gathering(g.process[0], 0, None, None));
    assert Sections(g.process) == [g.process[0].section] + Sections(h.process);
    forall i | 0 <= i < |h.streams| ensures h.streams[i] == Asked(h, i) {
      assert g.streams[i] == Asked(g, i);
    }
  }

  lemma FinishKeeps(c: Session, rule: Rule, g: Stage)
    requires StageRight(c, rule, g) && g.gather.Gathering? && g.gather.got >= Streams(rule)
    ensures StageRight(c, rule, g.(gather := Resting))
  {
    var h := g.(gather := Resting);
    forall i | 0 <= i < |h.streams| ensures h.streams[i] == Asked(h, i) {
      assert g.streams[i] == Asked(g, i);
    }
  }

  /** The vector that comes is the one of the section being gathered. */
  lemma HeadIsAsked(c: Session, rule: Rule, g: Stage)
    requires StageRight(c, rule, g) && g.gather.Gathering? && g.gather.got < Streams(rule)
    ensures var i := g.gather.got; g.streams[i] != [] && g.streams[i][0] == g.gather.item.section
  {
    assert g.streams[g.gather.got] == Asked(g, g.gather.got);
  }

  lemma CollectKeeps(c: Session, rule: Rule, g: Stage)
    requires StageRight(c, rule, g) && g.gather.Gathering? && g.gather.got < Streams(rule)
    ensures var i := g.gather.got;
            g.streams[i] != [] && StageRight(c, rule, Collects(g, c.vec(BitOf(rule, i), g.streams[i][0])))
  {
    HeadIsAsked(c, rule, g);
    var k := g.gather.got;
    var data := c.vec(BitOf(rule, k), g.gather.item.section);
    var h := Collects(g, data);
    forall i | 0 <= i < |h.streams| ensures h.streams[i] == Asked(h, i) {
      assert g.streams[i] == Asked(g, i);
    }
    MergeKeeps(c, rule, g.gather);
  }

  lemma MergeKeeps(c: Session, rule: Rule, g: Gather)
    requires GatherRight(c, rule, g) && g.Gathering? && g.got < Streams(rule)
    ensures GatherRight(c, rule, Merge(g, c.vec(BitOf(rule, g.got), g.item.section)))
  {
    var q := g.got / 3;
    if g.got % 3 == 2 {
      assert (g.got + 1) / 3 == q + 1 && (g.got + 1) % 3 == 0;
      assert rule[..q + 1][..q] == rule[..q] && rule[..q + 1][q] == rule[q];
    } else {
      assert (g.got + 1) / 3 == q && (g.got + 1) % 3 == g.got % 3 + 1;
    }
  }

  /** A section that has all its vectors is filtered as the rule says. */
  lemma MadeIs(c: Session, rule: Rule, g: Gather)
    requires GatherRight(c, rule, g) && g.Gathering? && g.got >= Streams(rule)
    ensures var v := Filtered(c.vec, rule, g.item.section, c.size, g.item.bitset);
            Made(c, g) == if AllZero(v) then [] else [Item(g.item.section, v)]
  {
    assert g.got / 3 == |rule| && rule[..|rule|] == rule;
  }
}
