/** What holds in every run of a session, under any interleaving of streams, distributor and fetchers. */
module RetrievalRuns {
  import opened Common
  import opened Bits
  import opened Retrieval
  import opened RetrievalSteps
  import opened RetrievalDelivery

  lemma NextKeepsInv(s: State, step: Step)
    requires Inv(s) && Enabled(s, step)
    ensures Inv(Next(s, step))
  {
    match step
    case Ask(r, section) => AskKeeps(s, r, section);
    case Send(r) => SendKeeps(s, r);
    case Pend(r) => PendKeeps(s, r);
    case Out(r) => OutKeeps(s, r);
    case TakeRequest(waiting, g) => RequestKeeps(s, waiting, g);
    case TakeRetriever(bit, g) => RetrieverKeeps(s, bit, g);
    case TakeTask(f, want, waiting, g) => TaskKeeps(s, f, want, waiting, g);
    case TakeDelivery(f, bitsets, waiting, g) => DeliveryKeeps(s, f, bitsets, waiting, g);
    case Quit => ShutdownKeeps(s, step);
    case SeeQuit => ShutdownKeeps(s, step);
    case Kill => ShutdownKeeps(s, step);
    case GiveUp(f) => GiveUpKeeps(s, f);
  }

  function RunTo(s: State, steps: seq<Step>): Option<State>
    decreases |steps|
  {
    if steps == [] then Some(s)
    else
      match RunTo(s, steps[..|steps| - 1])
      case None => None
      case Some(t) => var last := steps[|steps| - 1]; if Enabled(t, last) then Some(Next(t, last)) else None
  }

  lemma {:induction false} RunKeepsInv(s: State, steps: seq<Step>, t: State)
    requires Inv(s) && RunTo(s, steps) == Some(t)
    ensures Inv(t)
    decreases |steps|
  {
    if steps != [] {
      var front := steps[..|steps| - 1];
      RunKeepsInv(s, front, RunTo(s, front).value);
      NextKeepsInv(RunTo(s, front).value, steps[|steps| - 1]);
    }
  }

  /** In every run each requested vector that is not cached is at exactly one place: still to be sent by one
      stream, in the request channel, in the queue of its bit, or in flight with one fetcher. A vector that is
      cached or was never requested is at none. */
  lemma ExactlyOnePlace(s: State, steps: seq<Step>, t: State, q: Req)
    requires Inv(s) && RunTo(s, steps) == Some(t)
    ensures Wanted(t.responses, q) <==> exists x :: Is(t, q, x)
    ensures forall x, y :: Is(t, q, x) && Is(t, q, y) ==> x == y
  {
    RunKeepsInv(s, steps, t);
  }

  /** In every run until quit, a queue is empty or its bit is either noted as unallocated or held by exactly
      one fetcher, never both. */
  lemma QueuesAreHeld(s: State, steps: seq<Step>, t: State, bit: nat)
    requires Inv(s) && RunTo(s, steps) == Some(t) && !t.quit
    ensures Queue(t.dist.requests, bit) != [] <==> bit in t.dist.unallocs || exists f: nat :: Holds(t.fetchers, f, bit)
    ensures forall f: nat :: Holds(t.fetchers, f, bit) ==> bit !in t.dist.unallocs
    ensures forall f: nat, g: nat :: Holds(t.fetchers, f, bit) && Holds(t.fetchers, g, bit) ==> f == g
    ensures Sorted(Queue(t.dist.requests, bit))
  {
    RunKeepsInv(s, steps, t);
    QueueIsSorted(t.dist.requests, bit);
  }

  /** A fetcher that gives its bit up, which it can after quit, leaves a queue that nobody holds. */
  lemma GivingUpUnholds(s: State, f: nat)
    requires Inv(s) && Enabled(s, GiveUp(f))
    ensures Abandoned(Next(s, GiveUp(f)), s.fetchers[f].bit)
  {
    assert Holds(s.fetchers, f, s.fetchers[f].bit);
    ReleasedAllocs(s.dist, s.fetchers, f, s.fetchers[f].bit, []);
  }

  /** A queue with requests that is neither noted nor held. */
  ghost predicate Abandoned(s: State, bit: nat) {
    Queue(s.dist.requests, bit) != [] && !HeldBy(s.dist.unallocs, s.fetchers, bit)
  }

  /** Every queue with requests is noted or held, before quit or after it. */
  ghost predicate AllHeld(s: State) {
    QueuesHeld(s.dist, s.fetchers, false)
  }

  lemma RequestHeld(s: State, waiting: bool, g: nat)
    requires Inv(s) && Enabled(s, TakeRequest(waiting, g)) && AllHeld(s)
    ensures AllHeld(Next(s, TakeRequest(waiting, g)))
  {
    var q := s.channel[0];
    QueueFilled(s.dist, s.fetchers, q.bit, Insert(Queue(s.dist.requests, q.bit), q.section), waiting, g, false);
  }

  lemma TaskHeld(s: State, f: nat, want: nat, waiting: bool, g: nat)
    requires Inv(s) && Enabled(s, TakeTask(f, want, waiting, g)) && AllHeld(s)
    ensures AllHeld(Next(s, TakeTask(f, want, waiting, g)))
  {
    TaskAllocs(s.dist, s.fetchers, f, s.fetchers[f].bit, want, waiting, g, false);
  }

  lemma DeliveryHeld(s: State, f: nat, bitsets: seq<Bytes>, waiting: bool, g: nat)
    requires Inv(s) && Enabled(s, TakeDelivery(f, bitsets, waiting, g)) && AllHeld(s)
    ensures AllHeld(Next(s, TakeDelivery(f, bitsets, waiting, g)))
  {
    DeliveryAllocs(s.dist, s.fetchers, f, s.fetchers[f].bit, Missing(s.fetchers[f].sections, bitsets), waiting, g, false);
  }

  /** Giving up is the only step that can do this, before quit and after it. */
  lemma HeldNextIff(s: State, step: Step)
    requires Inv(s) && Enabled(s, step) && AllHeld(s)
    ensures AllHeld(Next(s, step)) <==> !step.GiveUp?
  {
    match step
    case TakeRequest(waiting, g) => RequestHeld(s, waiting, g);
    case TakeRetriever(bit, g) => RetrieverAllocs(s.dist, s.fetchers, bit, g, false);
    case TakeTask(f, want, waiting, g) => TaskHeld(s, f, want, waiting, g);
    case TakeDelivery(f, bitsets, waiting, g) => DeliveryHeld(s, f, bitsets, waiting, g);
    case GiveUp(f) => GivingUpUnholds(s, f);
    case _ =>
  }

  ghost predicate Free(unallocs: set<nat>, fetchers: map<nat, Fetcher>, bit: nat) {
    bit !in unallocs && forall f: nat :: !Holds(fetchers, f, bit)
  }

  lemma AssignLeavesFree(d: Dist, fetchers: map<nat, Fetcher>, b: nat, waiting: bool, g: nat, bit: nat)
    requires Free(d.unallocs, fetchers, bit) && b != bit
    ensures Free(Assign(d, b, waiting).unallocs, if waiting then fetchers[g := Assigned(b)] else fetchers, bit)
  {
    var after := if waiting then fetchers[g := Assigned(b)] else fetchers;
    forall f: nat ensures !Holds(after, f, bit) { assert !Holds(fetchers, f, bit); }
  }

  lemma FilingLeavesFree(d: Dist, fetchers: map<nat, Fetcher>, q: Req, waiting: bool, g: nat, bit: nat)
    requires Queue(d.requests, bit) != [] && Free(d.unallocs, fetchers, bit)
    ensures var e := OnRequest(d, q, waiting);
            var atOnce := waiting && Queue(d.requests, q.bit) == [];
            Queue(e.requests, bit) != [] && Free(e.unallocs, if atOnce then fetchers[g := Assigned(q.bit)] else fetchers, bit)
  {
    InsertMembers(Queue(d.requests, q.bit), q.section);
    if q.bit != bit { AssignLeavesFree(d, fetchers, q.bit, waiting, g, bit); }
  }

  lemma RequestLeavesAbandoned(s: State, waiting: bool, g: nat, bit: nat)
    requires Enabled(s, TakeRequest(waiting, g)) && Abandoned(s, bit)
    ensures Abandoned(Next(s, TakeRequest(waiting, g)), bit)
  {
    FilingLeavesFree(s.dist, s.fetchers, s.channel[0], waiting, g, bit);
  }

  lemma RetrieverLeavesAbandoned(s: State, b: nat, g: nat, bit: nat)
    requires Enabled(s, TakeRetriever(b, g)) && Abandoned(s, bit)
    ensures Abandoned(Next(s, TakeRetriever(b, g)), bit)
  {
    AssignLeavesFree(s.dist, s.fetchers, b, true, g, bit);
  }

  lemma TaskLeavesAbandoned(s: State, f: nat, want: nat, waiting: bool, g: nat, bit: nat)
    requires Enabled(s, TakeTask(f, want, waiting, g)) && Abandoned(s, bit)
    ensures Abandoned(Next(s, TakeTask(f, want, waiting, g)), bit)
  {
    var b := s.fetchers[f].bit;
    assert Holds(s.fetchers, f, b);
    var mid := s.fetchers[f := Holding(b, Taken(s.dist, b, want))];
    Released(s.fetchers, f, b, Taken(s.dist, b, want));
    assert Free(s.dist.unallocs, mid, bit);
    AssignLeavesFree(s.dist, mid, b, waiting, g, bit);
  }

  lemma PutBackLeavesFree(d: Dist, fetchers: map<nat, Fetcher>, b: nat, missing: seq<nat>, waiting: bool, g: nat, bit: nat)
    requires Queue(d.requests, bit) != [] && Free(d.unallocs, fetchers, bit)
    ensures var e := OnDelivery(d, b, missing, waiting);
            var atOnce := waiting && missing != [] && Queue(d.requests, b) == [];
            Queue(e.requests, bit) != [] && Free(e.unallocs, if atOnce then fetchers[g := Assigned(b)] else fetchers, bit)
  {
    InsertAllLength(Queue(d.requests, b), missing);
    if b != bit { AssignLeavesFree(d, fetchers, b, waiting, g, bit); }
  }

  lemma DeliveryLeavesAbandoned(s: State, f: nat, bitsets: seq<Bytes>, waiting: bool, g: nat, bit: nat)
    requires Enabled(s, TakeDelivery(f, bitsets, waiting, g)) && Abandoned(s, bit)
    ensures Abandoned(Next(s, TakeDelivery(f, bitsets, waiting, g)), bit)
  {
    Gone(s.fetchers, f);
    assert Free(s.dist.unallocs, s.fetchers - {f}, bit);
    PutBackLeavesFree(s.dist, s.fetchers - {f}, s.fetchers[f].bit, Missing(s.fetchers[f].sections, bitsets), waiting, g, bit);
  }

  /** An abandoned queue is never taken up again. */
  lemma AbandonedStays(s: State, step: Step, bit: nat)
    requires Enabled(s, step) && Abandoned(s, bit)
    ensures Abandoned(Next(s, step), bit)
  {
    match step
    case TakeRequest(waiting, g) => RequestLeavesAbandoned(s, waiting, g, bit);
    case TakeRetriever(b, g) => RetrieverLeavesAbandoned(s, b, g, bit);
    case TakeTask(f, want, waiting, g) => TaskLeavesAbandoned(s, f, want, waiting, g, bit);
    case TakeDelivery(f, bitsets, waiting, g) => DeliveryLeavesAbandoned(s, f, bitsets, waiting, g, bit);
    case GiveUp(f) => Released(s.fetchers, f, s.fetchers[f].bit, []);
    case _ =>
  }

  lemma HeldStepIff(s: State, step: Step, held: bool)
    requires Inv(s) && Enabled(s, step) && (AllHeld(s) <==> held)
    ensures AllHeld(Next(s, step)) <==> held && !step.GiveUp?
  {
    if held {
      HeldNextIff(s, step);
    } else {
      var bit: nat :| Queue(s.dist.requests, bit) != [] && !HeldBy(s.dist.unallocs, s.fetchers, bit);
      AbandonedStays(s, step, bit);
    }
  }

  predicate NoneGaveUp(steps: seq<Step>) {
    forall i :: 0 <= i < |steps| ==> !steps[i].GiveUp?
  }

  predicate Leads(u: State, step: Step, v: State) {
    Enabled(u, step) && Next(u, step) == v
  }

  lemma {:induction false} PrefixRuns(s: State, steps: seq<Step>, n: nat)
    requires RunTo(s, steps).Some? && n <= |steps|
    ensures RunTo(s, steps[..n]).Some?
    decreases |steps|
  {
    if n == |steps| {
      assert steps[..n] == steps;
    } else {
      var front := steps[..|steps| - 1];
      PrefixRuns(s, front, n);
      assert front[..n] == steps[..n];
    }
  }

  lemma PrefixLeads(s: State, steps: seq<Step>, n: nat)
    requires n < |steps| && RunTo(s, steps[..n + 1]).Some?
    ensures RunTo(s, steps[..n]).Some? && Leads(RunTo(s, steps[..n]).value, steps[n], RunTo(s, steps[..n + 1]).value)
  {
    assert steps[..n + 1][..n] == steps[..n];
  }

  /** Over runs: all queues are held at the end exactly when no fetcher gave up, quit or not. */
  lemma HeldIff(s: State, steps: seq<Step>, t: State)
    requires Inv(s) && AllHeld(s) && RunTo(s, steps) == Some(t)
    ensures AllHeld(t) <==> NoneGaveUp(steps)
  {
    var run, leads := (front: seq<Step>) => RunTo(s, front), (u: State, step: Step, v: State) => Leads(u, step, v);
    forall i: nat | i < |steps| ensures LeadsAt(run, leads, steps, i) {
      PrefixRuns(s, steps, i + 1);
      PrefixLeads(s, steps, i);
    }
    forall u, v, front, step | HeldSoFar(u, front) && Leads(u, step, v) ensures HeldSoFar(v, front + [step]) {
      HeldGoesOn(u, front, step);
    }
    RunInduction(run, leads, (u, front) => HeldSoFar(u, front), steps, |steps|);
    assert steps[..|steps|] == steps;
  }

  ghost predicate HeldSoFar(u: State, front: seq<Step>) {
    Inv(u) && (AllHeld(u) <==> NoneGaveUp(front))
  }

  lemma HeldGoesOn(u: State, front: seq<Step>, step: Step)
    requires HeldSoFar(u, front) && Enabled(u, step)
    ensures HeldSoFar(Next(u, step), front + [step])
  {
    NextKeepsInv(u, step);
    HeldStepIff(u, step, NoneGaveUp(front));
    GaveUpLast(front, step);
  }

  lemma GaveUpLast(front: seq<Step>, step: Step)
    ensures NoneGaveUp(front + [step]) <==> NoneGaveUp(front) && !step.GiveUp?
  {
    assert forall i :: 0 <= i < |front| ==> (front + [step])[i] == front[i];
    assert (front + [step])[|front|] == step;
  }

  lemma OneMoreStep(s: State, steps: seq<Step>, t: State, step: Step, u: State)
    requires RunTo(s, steps) == Some(t) && Leads(t, step, u)
    ensures RunTo(s, steps + [step]) == Some(u)
  {
    assert (steps + [step])[..|steps|] == steps;
  }

  /** The loss is real: for every bit and section there is a run from the start that ends in it. */
  lemma QueueCanBeAbandoned(bit: nat, section: nat)
    ensures var s := Initial([Stream(bit, Idle, [], [])], map[], []);
            exists steps :: RunTo(s, steps).Some? && Abandoned(RunTo(s, steps).value, bit)
  {
    var s := Initial([Stream(bit, Idle, [], [])], map[], []);
    InitialInv(s.streams, map[], []);
    var steps, t := FirstSteps(s, bit, section);
    RunKeepsInv(s, steps, t);
    GivingUpUnholds(t, 0);
    OneMoreStep(s, steps, t, GiveUp(0), Next(t, GiveUp(0)));
  }

  lemma FirstSteps(s: State, bit: nat, section: nat) returns (steps: seq<Step>, t: State)
    requires s == Initial([Stream(bit, Idle, [], [])], map[], [])
    ensures RunTo(s, steps) == Some(t) && t.quit && 0 in t.fetchers && t.fetchers[0] == Assigned(bit)
  {
    steps := [];
    var t1 := Sent(s, bit, section);
    OneMoreStep(s, steps, s, Ask(0, section), Next(s, Ask(0, section)));
    steps := steps + [Ask(0, section)];
    OneMoreStep(s, steps, Next(s, Ask(0, section)), Send(0), t1);
    steps := steps + [Send(0)];
    var t2 := Next(t1, TakeRequest(true, 0));
    OneMoreStep(s, steps, t1, TakeRequest(true, 0), t2);
    steps := steps + [TakeRequest(true, 0)];
    t := Next(t2, Quit);
    OneMoreStep(s, steps, t2, Quit, t);
    steps := steps + [Quit];
  }

  lemma Sent(s: State, bit: nat, section: nat) returns (t: State)
    requires s == Initial([Stream(bit, Idle, [], [])], map[], [])
    ensures Leads(s, Ask(0, section), Next(s, Ask(0, section))) && Leads(Next(s, Ask(0, section)), Send(0), t)
    ensures t.channel == [Req(bit, section)] && t.fetchers == map[] && t.dist == s.dist && !t.returned
  {
    t := Next(Next(s, Ask(0, section)), Send(0));
  }

  /** In every run a distributor that was not killed returns only when every fetcher has delivered. */
  lemma GracefulShutdown(s: State, steps: seq<Step>, t: State)
    requires Inv(s) && RunTo(s, steps) == Some(t)
    ensures t.dist.allocs == |t.fetchers|
    ensures t.returned && !t.killed ==> t.fetchers == map[] && t.dist.allocs == 0
  {
    RunKeepsInv(s, steps, t);
  }

  /** A distributor that has seen the quit and has not returned waits for a fetcher. */
  predicate WaitsForSomebody(s: State) {
    s.draining && !s.returned ==> s.dist.allocs > 0
  }

  lemma WaitsNext(s: State, step: Step)
    requires Inv(s) && Enabled(s, step) && WaitsForSomebody(s)
    ensures WaitsForSomebody(Next(s, step))
    ensures step.SeeQuit? && s.dist.allocs == 0 ==> Next(s, step).returned
  {
  }

  /** In every run it returns in time: when it sees the quit with no fetcher out, or else with the last delivery. It
      is never left waiting without a fetcher that has to deliver. */
  lemma {:induction false} ReturnsInTime(s: State, steps: seq<Step>, t: State)
    requires Inv(s) && WaitsForSomebody(s) && RunTo(s, steps) == Some(t)
    ensures t.draining && t.fetchers == map[] ==> t.returned
    ensures WaitsForSomebody(t)
    decreases |steps|
  {
    RunKeepsInv(s, steps, t);
    if steps != [] {
      var front := steps[..|steps| - 1];
      var u := RunTo(s, front).value;
      ReturnsInTime(s, front, u);
      RunKeepsInv(s, front, u);
      WaitsNext(u, steps[|steps| - 1]);
    }
  }

  /** A task gets the lowest requests of its bit, as many as it wants and there are; the rest stays queued. */
  lemma TaskTakesLowest(s: State, f: nat, want: nat, waiting: bool, g: nat)
    requires Inv(s) && Enabled(s, TakeTask(f, want, waiting, g))
    ensures var bit, t := s.fetchers[f].bit, Next(s, TakeTask(f, want, waiting, g));
            var queue, rest := Queue(s.dist.requests, bit), Queue(t.dist.requests, bit);
            && f in t.fetchers && t.fetchers[f].Holding? && t.fetchers[f].bit == bit && t.fetchers[f].sections + rest == queue
            && |t.fetchers[f].sections| == (if want < |queue| then want else |queue|)
            && (forall x, y :: x in t.fetchers[f].sections && y in rest ==> x < y)
            && (forall b: nat :: b != bit ==> Queue(t.dist.requests, b) == Queue(s.dist.requests, b))
  {
    TakenAndLeft(s.dist, s.fetchers[f].bit, want, waiting);
  }

  // ---------------------------------------------------------------- no deadlock

  /** A step of the distributor or of a stream that moves a vector on. */
  predicate Moves(step: Step) {
    step.Send? || step.TakeRequest? || step.TakeRetriever? || step.TakeTask? || step.TakeDelivery?
  }

  lemma {:induction false} SomeLowest(d: Dist, bits: set<nat>) returns (bit: nat)
    requires bits != {} && forall b: nat :: b in bits ==> Queue(d.requests, b) != []
    ensures bit in bits && forall b: nat :: b in bits ==> Queue(d.requests, bit)[0] <= Queue(d.requests, b)[0]
    decreases bits
  {
    var b: nat :| b in bits;
    bit := b;
    if bits != {b} {
      var c := SomeLowest(d, bits - {b});
      if Queue(d.requests, c)[0] < Queue(d.requests, b)[0] { bit := c; }
    }
  }

  lemma NewFetcher(fetchers: map<nat, Fetcher>) returns (g: nat)
    ensures g !in fetchers
  {
    g := AboveAll(fetchers.Keys);
  }

  lemma {:induction false} AboveAll(keys: set<nat>) returns (g: nat)
    ensures forall k :: k in keys ==> k < g
    decreases keys
  {
    g := 0;
    if keys != {} {
      var k: nat :| k in keys;
      var h := AboveAll(keys - {k});
      g := if h > k then h else k + 1;
      assert forall x :: x in keys ==> x == k || x in keys - {k};
    }
  }

  /** In every run before the quit, as long as a requested vector is not cached the session can go on, provided that
      fetchers come: its stream can send, or the distributor can take a request, a fetcher, a task or a delivery. */
  lemma NoDeadlock(s: State, steps: seq<Step>, t: State, q: Req) returns (step: Step)
    requires Inv(s) && RunTo(s, steps) == Some(t) && !t.quit && !t.returned && Wanted(t.responses, q)
    ensures Enabled(t, step) && Moves(step)
  {
    RunKeepsInv(s, steps, t);
    var x :| Is(t, q, x);
    var g := NewFetcher(t.fetchers);
    match x
    case InStream(r) => step := Send(r);
    case InChannel => step := TakeRequest(false, g);
    case InFlight(f) => step := TakeDelivery(f, seq(|t.fetchers[f].sections|, _ => []), false, g);
    case InQueue =>
      QueuesAreHeld(s, steps, t, q.bit);
      if f: nat :| Holds(t.fetchers, f, q.bit) {
        step := TakeTask(f, 0, false, g);
      } else {
        var bit := SomeLowest(t.dist, t.dist.unallocs);
        step := TakeRetriever(bit, g);
      }
  }

  /** While requests are outstanding the session goes on: if nothing is possible but to ask for more or to quit, every
      section that was asked for has been delivered. */
  lemma StillIsDelivered(s: State, steps: seq<Step>, t: State, r: nat)
    requires Inv(s) && RunTo(s, steps) == Some(t) && !t.quit && !t.returned && r < |t.streams|
    requires forall step :: Enabled(t, step) ==> step.Ask? || step.Quit?
    ensures t.streams[r].phase.Idle? && |t.streams[r].out| == |t.streams[r].asked|
  {
    RunKeepsInv(s, steps, t);
    assert !Enabled(t, Send(r)) && !Enabled(t, Pend(r)) && !Enabled(t, Out(r));
    var stream := t.streams[r];
    assert StreamRight(t.responses, stream);
    if |stream.out| < |stream.asked| {
      var q := Req(stream.bit, stream.asked[|stream.out|]);
      if Wanted(t.responses, q) { var step := NoDeadlock(s, steps, t, q); }
    }
  }

  // ---------------------------------------------------------------- what the streams are asked for

  /** The sections fed to stream `r` in these steps. */
  function Fed(steps: seq<Step>, r: nat): seq<nat>
    decreases |steps|
  {
    if steps == [] then []
    else
      var last := steps[|steps| - 1];
      Fed(steps[..|steps| - 1], r) + if last.Ask? && last.r == r then [last.section] else []
  }

  function InHand(phase: Phase): seq<nat> {
    if phase.Idle? then [] else [phase.section]
  }

  lemma FedNext(s: State, step: Step, r: nat)
    requires Enabled(s, step) && r < |s.streams|
    ensures var a, b := s.streams[r], Next(s, step).streams;
            && |b| == |s.streams| && b[r].bit == a.bit
            && b[r].asked + InHand(b[r].phase) == a.asked + InHand(a.phase) + if step.Ask? && step.r == r then [step.section] else []
  {
    match step
    case Ask(k, section) => FedStream(s, step, k, r);
    case Send(k) => FedStream(s, step, k, r);
    case Pend(k) => FedStream(s, step, k, r);
    case Out(k) => FedStream(s, step, k, r);
    case _ => assert Next(s, step).streams == s.streams;
  }

  /** The steps of stream `k`. */
  lemma FedStream(s: State, step: Step, k: nat, r: nat)
    requires Enabled(s, step) && r < |s.streams| && (step.Ask? || step.Send? || step.Pend? || step.Out?) && step.r == k
    ensures var a, b := s.streams[r], Next(s, step).streams;
            && |b| == |s.streams| && b[r].bit == a.bit
            && b[r].asked + InHand(b[r].phase) == a.asked + InHand(a.phase) + if step.Ask? && k == r then [step.section] else []
  {
    var a, b := s.streams[r], Next(s, step).streams[r];
    if k != r {
      assert b == a;
    } else if step.Pend? {
      assert b.asked == a.asked + [a.phase.section] && b.phase == Idle;
    } else {
      assert b.asked == a.asked;
    }
  }

  /** In every run a stream announces exactly the sections it was fed, in their order, the last one perhaps still in
      hand. */
  lemma {:induction false} AnnouncesWhatWasFed(s: State, steps: seq<Step>, t: State, r: nat)
    requires RunTo(s, steps) == Some(t) && r < |s.streams|
    ensures |t.streams| == |s.streams| && t.streams[r].bit == s.streams[r].bit
    ensures t.streams[r].asked + InHand(t.streams[r].phase) == s.streams[r].asked + InHand(s.streams[r].phase) + Fed(steps, r)
    decreases |steps|
  {
    if steps != [] {
      var front := steps[..|steps| - 1];
      AnnouncesWhatWasFed(s, front, RunTo(s, front).value, r);
      FedNext(RunTo(s, front).value, steps[|steps| - 1], r);
    }
  }

  /** In every run each request is sent at most once, and a done channel is closed at most once and exactly
      when the vector is cached. */
  lemma SentAndClosedOnce(s: State, steps: seq<Step>, t: State)
    requires Inv(s) && RunTo(s, steps) == Some(t)
    ensures NoDup(t.sent) && NoDup(t.closed)
    ensures forall q :: q in t.closed <==> q in t.responses && t.responses[q].Some?
  {
    RunKeepsInv(s, steps, t);
  }

  /** In every run each stream has delivered, for the sections it was asked for and in that order, the vector
      that is cached for each. */
  lemma DeliversInOrder(s: State, steps: seq<Step>, t: State, r: nat, i: nat)
    requires Inv(s) && RunTo(s, steps) == Some(t) && r < |t.streams| && i < |t.streams[r].out|
    ensures i < |t.streams[r].asked|
    ensures var q := Req(t.streams[r].bit, t.streams[r].asked[i]);
            q in t.responses && t.responses[q] == Some(t.streams[r].out[i])
  {
    RunKeepsInv(s, steps, t);
    assert StreamRight(t.responses, t.streams[r]);
  }

  lemma CachedStaysNext(s: State, step: Step, q: Req)
    requires Inv(s) && Enabled(s, step) && q in s.responses && s.responses[q].Some?
    ensures q in Next(s, step).responses && Next(s, step).responses[q] == s.responses[q]
  {
    if step.TakeDelivery? { CachedStays(s, step.f, step.bitsets, q); }
  }

  /** A vector that is cached stays what it is for the rest of the session. */
  lemma {:induction false} CachedForever(s: State, steps: seq<Step>, t: State, q: Req)
    requires Inv(s) && RunTo(s, steps) == Some(t) && q in s.responses && s.responses[q].Some?
    ensures q in t.responses && t.responses[q] == s.responses[q]
    decreases |steps|
  {
    if steps != [] {
      var front := steps[..|steps| - 1];
      var u := RunTo(s, front).value;
      RunKeepsInv(s, front, u);
      CachedForever(s, front, u, q);
      CachedStaysNext(u, steps[|steps| - 1], q);
    }
  }

  // ---------------------------------------------------------------- the vectors of an index

  /** The cached vectors are those of the index. */
  ghost predicate CacheHonest(responses: map<Req, Option<Bytes>>, vec: (nat, nat) -> Bytes) {
    forall q :: q in responses && responses[q].Some? ==> responses[q].value == vec(q.bit, q.section)
  }

  predicate VectorsHonest(bit: nat, sections: seq<nat>, bitsets: seq<Bytes>, vec: (nat, nat) -> Bytes)
    requires |sections| == |bitsets|
  {
    forall i :: 0 <= i < |bitsets| ==> bitsets[i] == [] || bitsets[i] == vec(bit, sections[i])
  }

  /** A fetcher delivers for each section the vector of the index, or none. */
  predicate StepHonest(s: State, step: Step, vec: (nat, nat) -> Bytes)
    requires Enabled(s, step)
  {
    step.TakeDelivery? ==> VectorsHonest(s.fetchers[step.f].bit, s.fetchers[step.f].sections, step.bitsets, vec)
  }

  predicate RunHonest(s: State, steps: seq<Step>, vec: (nat, nat) -> Bytes)
    decreases |steps|
  {
    steps != [] ==>
      var front, last := steps[..|steps| - 1], steps[|steps| - 1];
      RunHonest(s, front, vec) && match RunTo(s, front) case None => true case Some(t) => Enabled(t, last) ==> StepHonest(t, last, vec)
  }

  lemma {:induction false} DeliverHonest(responses: map<Req, Option<Bytes>>, bit: nat, sections: seq<nat>, bitsets: seq<Bytes>, vec: (nat, nat) -> Bytes)
    requires |sections| == |bitsets| && CacheHonest(responses, vec) && VectorsHonest(bit, sections, bitsets, vec)
    ensures CacheHonest(Deliver(responses, bit, sections, bitsets), vec)
    decreases |sections|
  {
    if sections != [] {
      var n := |sections| - 1;
      DeliverHonest(responses, bit, sections[..n], bitsets[..n], vec);
    }
  }

  lemma HonestNext(s: State, step: Step, vec: (nat, nat) -> Bytes)
    requires Enabled(s, step) && CacheHonest(s.responses, vec) && StepHonest(s, step, vec)
    ensures CacheHonest(Next(s, step).responses, vec)
  {
    if step.TakeDelivery? {
      DeliverHonest(s.responses, s.fetchers[step.f].bit, s.fetchers[step.f].sections, step.bitsets, vec);
    }
  }

  lemma {:induction false} CacheStaysHonest(s: State, steps: seq<Step>, t: State, vec: (nat, nat) -> Bytes)
    requires RunTo(s, steps) == Some(t) && CacheHonest(s.responses, vec) && RunHonest(s, steps, vec)
    ensures CacheHonest(t.responses, vec)
    decreases |steps|
  {
    if steps != [] {
      var front, step := steps[..|steps| - 1], steps[|steps| - 1];
      var u := RunTo(s, front).value;
      CacheStaysHonest(s, front, u, vec);
      HonestNext(u, step, vec);
    }
  }

  /** If the fetchers deliver vectors of the index or none, then in every run each stream has delivered, for
      the sections it was asked for and in that order, the vectors of the index. */
  lemma StreamsTheIndex(s: State, steps: seq<Step>, t: State, vec: (nat, nat) -> Bytes, r: nat, i: nat)
    requires Inv(s) && RunTo(s, steps) == Some(t) && CacheHonest(s.responses, vec) && RunHonest(s, steps, vec)
    requires r < |t.streams| && i < |t.streams[r].out|
    ensures i < |t.streams[r].asked| && t.streams[r].out[i] == vec(t.streams[r].bit, t.streams[r].asked[i])
  {
    DeliversInOrder(s, steps, t, r, i);
    CacheStaysHonest(s, steps, t, vec);
  }
}
