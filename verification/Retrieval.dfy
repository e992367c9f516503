/** The retrieval protocol of blockchain/bloombits: the deduplicating schedulers (scheduler.go), the
    request distributor and its clients (matcher.go), as one interleaved step system for one session.
    Each hand-over through a channel and each locked section is one atomic step. */
module Retrieval {
  import opened Common
  import opened Bits

  /** One bit vector: a bit and a section. */
  datatype Req = Req(bit: nat, section: nat)

  /** Where scheduleRequests of a run stands: it holds a section for which it must still send a request, or
      one it must still announce to scheduleDeliveries. */
  datatype Phase = Idle | MustSend(section: nat) | MustPend(section: nat)

  /** A run of a scheduler: `asked` are the sections announced so far, `out` the vectors delivered so far. */
  datatype Stream = Stream(bit: nat, phase: Phase, asked: seq<nat>, out: seq<Bytes>)

  /** A client that was given a bit, and then the sections it fetches. */
  datatype Fetcher = Assigned(bit: nat) | Holding(bit: nat, sections: seq<nat>)

  /** The variables of the distributor; `listening` says that `retrievers` is not nil. */
  datatype Dist = Dist(requests: map<nat, seq<nat>>, unallocs: set<nat>, listening: bool, allocs: int)

  /** `responses` holds the cached vector of each requested section. `sent` and `closed` record which
      requests were sent and which done channels were closed, in order. */
  datatype State = State(
    streams: seq<Stream>,
    responses: map<Req, Option<Bytes>>,
    channel: seq<Req>,
    dist: Dist,
    fetchers: map<nat, Fetcher>,
    quit: bool,
    draining: bool,
    returned: bool,
    killed: bool,
    sent: seq<Req>,
    closed: seq<Req>)

  // ---------------------------------------------------------------- queues

  function Queue(requests: map<nat, seq<nat>>, bit: nat): seq<nat> {
    if bit in requests then requests[bit] else []
  }

  predicate Sorted(q: seq<nat>) {
    forall i, j :: 0 <= i < j < |q| ==> q[i] < q[j]
  }

  /** sort.Search for the first entry that is not below the section. */
  function Search(q: seq<nat>, section: nat, i: nat): (r: nat)
    requires i <= |q|
    ensures i <= r <= |q|
    ensures forall j :: i <= j < r ==> q[j] < section
    ensures r < |q| ==> q[r] >= section
    decreases |q| - i
  {
    if i == |q| || q[i] >= section then i else Search(q, section, i + 1)
  }

  /** The entry is determined by what is before and after it. */
  lemma {:induction false} SearchIs(q: seq<nat>, section: nat, from: nat, i: nat)
    requires from <= i <= |q| && (forall k :: from <= k < i ==> q[k] < section) && (i < |q| ==> q[i] >= section)
    ensures Search(q, section, from) == i
    decreases i - from
  {
    if from < i { SearchIs(q, section, from + 1, i); }
  }

  function Insert(q: seq<nat>, section: nat): seq<nat> {
    var index := Search(q, section, 0);
    q[..index] + [section] + q[index..]
  }

  lemma InsertAt(q: seq<nat>, section: nat, j: nat)
    requires j <= |q|
    ensures var index := Search(q, section, 0);
            Insert(q, section)[j] == if j < index then q[j] else if j == index then section else q[j - 1]
  {
  }

  lemma InsertMembers(q: seq<nat>, section: nat)
    ensures |Insert(q, section)| == |q| + 1
    ensures forall s: nat :: s in Insert(q, section) <==> s in q || s == section
  {
    var index := Search(q, section, 0);
    assert q == q[..index] + q[index..];
    assert forall s: nat :: s in q <==> s in q[..index] || s in q[index..];
  }

  lemma InsertSorted(q: seq<nat>, section: nat)
    requires Sorted(q) && section !in q
    ensures Sorted(Insert(q, section))
  {
    var r, index := Insert(q, section), Search(q, section, 0);
    assert index < |q| ==> q[index] > section;
    forall i, j | 0 <= i < j < |r| ensures r[i] < r[j] {
      InsertAt(q, section, i);
      InsertAt(q, section, j);
    }
  }

  function InsertAll(q: seq<nat>, missing: seq<nat>): seq<nat>
    decreases |missing|
  {
    if missing == [] then q else Insert(InsertAll(q, missing[..|missing| - 1]), missing[|missing| - 1])
  }

  lemma {:induction false} InsertAllSorted(q: seq<nat>, missing: seq<nat>)
    requires Sorted(q) && Sorted(missing) && forall s: nat :: s in missing ==> s !in q
    ensures Sorted(InsertAll(q, missing)) && |InsertAll(q, missing)| == |q| + |missing|
    ensures forall s: nat :: s in InsertAll(q, missing) <==> s in q || s in missing
    decreases |missing|
  {
    if missing != [] {
      var front, last := missing[..|missing| - 1], missing[|missing| - 1];
      InsertAllSorted(q, front);
      assert missing == front + [last];
      InsertSorted(InsertAll(q, front), last);
      InsertMembers(InsertAll(q, front), last);
    }
  }

  // ---------------------------------------------------------------- the code on values

  /** assign: a fetcher that waits gets the bit at once, otherwise the bit is noted. */
  function Assign(d: Dist, bit: nat, waiting: bool): Dist {
    if waiting then d.(allocs := d.allocs + 1) else d.(unallocs := d.unallocs + {bit}, listening := true)
  }

  function OnRequest(d: Dist, q: Req, waiting: bool): Dist {
    var queue := Queue(d.requests, q.bit);
    var e := d.(requests := d.requests[q.bit := Insert(queue, q.section)]);
    if queue == [] then Assign(e, q.bit, waiting) else e
  }

  function OnRetriever(d: Dist, bit: nat): Dist {
    var rest := d.unallocs - {bit};
    d.(unallocs := rest, listening := d.listening && rest != {}, allocs := d.allocs + 1)
  }

  function Taken(d: Dist, bit: nat, want: nat): seq<nat> {
    var queue := Queue(d.requests, bit);
    if want >= |queue| then queue else queue[..want]
  }

  function OnTask(d: Dist, bit: nat, want: nat, waiting: bool): Dist {
    var queue := Queue(d.requests, bit);
    if want >= |queue| then d.(requests := d.requests - {bit})
    else Assign(d.(requests := d.requests[bit := queue[want..]]), bit, waiting)
  }

  /** What a task takes and what it leaves are the two ends of the queue. */
  lemma TakenAndLeft(d: Dist, bit: nat, want: nat, waiting: bool)
    ensures var e, queue := OnTask(d, bit, want, waiting), Queue(d.requests, bit);
            && Taken(d, bit, want) + Queue(e.requests, bit) == queue
            && |Taken(d, bit, want)| == (if want < |queue| then want else |queue|)
            && (Sorted(queue) ==> forall x, y :: x in Taken(d, bit, want) && y in Queue(e.requests, bit) ==> x < y)
            && (forall b: nat :: b != bit ==> Queue(e.requests, b) == Queue(d.requests, b))
            && e.allocs == d.allocs + (if waiting && Queue(e.requests, bit) != [] then 1 else 0)
            && e.unallocs == d.unallocs + (if !waiting && Queue(e.requests, bit) != [] then {bit} else {})
  {
    var queue := Queue(d.requests, bit);
    if want < |queue| { assert queue == queue[..want] + queue[want..]; }
  }

  /** The sections of a delivery that came back empty. */
  function Missing(sections: seq<nat>, bitsets: seq<Bytes>): (r: seq<nat>)
    requires |sections| == |bitsets|
    decreases |sections|
  {
    if sections == [] then []
    else
      var n := |sections| - 1;
      Missing(sections[..n], bitsets[..n]) + (if bitsets[n] == [] then [sections[n]] else [])
  }

  function OnDelivery(d: Dist, bit: nat, missing: seq<nat>, waiting: bool): Dist {
    var e := d.(allocs := d.allocs - 1);
    if missing == [] then e
    else
      var queue := InsertAll(Queue(e.requests, bit), missing);
      var f := e.(requests := e.requests[bit := queue]);
      if |queue| == |missing| then Assign(f, bit, waiting) else f
  }

  /** deliver of the scheduler: only a requested vector that is not cached yet is taken. */
  function Deliver(responses: map<Req, Option<Bytes>>, bit: nat, sections: seq<nat>, bitsets: seq<Bytes>): map<Req, Option<Bytes>>
    requires |sections| == |bitsets|
    decreases |sections|
  {
    if sections == [] then responses
    else
      var n := |sections| - 1;
      var before, q := Deliver(responses, bit, sections[..n], bitsets[..n]), Req(bit, sections[n]);
      if bitsets[n] != [] && q in before && before[q].None? then before[q := Some(bitsets[n])] else before
  }

  /** The done channels a delivery closes. */
  function Closes(responses: map<Req, Option<Bytes>>, bit: nat, sections: seq<nat>, bitsets: seq<Bytes>): seq<Req>
    requires |sections| == |bitsets|
    decreases |sections|
  {
    if sections == [] then []
    else
      var n := |sections| - 1;
      var before, q := Deliver(responses, bit, sections[..n], bitsets[..n]), Req(bit, sections[n]);
      Closes(responses, bit, sections[..n], bitsets[..n]) + (if bitsets[n] != [] && q in before && before[q].None? then [q] else [])
  }

  // ---------------------------------------------------------------- steps

  datatype Step =
    | Ask(r: nat, section: nat)
    | Send(r: nat)
    | Pend(r: nat)
    | Out(r: nat)
    | TakeRequest(waiting: bool, g: nat)
    | TakeRetriever(bit: nat, g: nat)
    | TakeTask(f: nat, want: nat, waiting: bool, g: nat)
    | TakeDelivery(f: nat, bitsets: seq<Bytes>, waiting: bool, g: nat)
    | Quit
    | SeeQuit
    | Kill
    | GiveUp(f: nat)

  /** The bit whose first request is the lowest. */
  predicate Lowest(d: Dist, bit: nat) {
    && bit in d.unallocs && Queue(d.requests, bit) != []
    && forall b: nat :: b in d.unallocs && Queue(d.requests, b) != [] ==> Queue(d.requests, bit)[0] <= Queue(d.requests, b)[0]
  }

  predicate Enabled(s: State, step: Step) {
    match step
    case Ask(r, _) => r < |s.streams| && s.streams[r].phase.Idle?
    case Send(r) => r < |s.streams| && s.streams[r].phase.MustSend?
    case Pend(r) => r < |s.streams| && s.streams[r].phase.MustPend?
    case Out(r) => r < |s.streams| && |s.streams[r].out| < |s.streams[r].asked| &&
                   var q := Req(s.streams[r].bit, s.streams[r].asked[|s.streams[r].out|]); q in s.responses && s.responses[q].Some?
    case TakeRequest(_, g) => !s.returned && s.channel != [] && g !in s.fetchers
    case TakeRetriever(bit, g) => !s.returned && s.dist.listening && Lowest(s.dist, bit) && g !in s.fetchers
    case TakeTask(f, _, _, g) => !s.returned && f in s.fetchers && s.fetchers[f].Assigned? && g !in s.fetchers
    case TakeDelivery(f, bitsets, _, g) => !s.returned && f in s.fetchers && s.fetchers[f].Holding? && |bitsets| == |s.fetchers[f].sections| && g !in s.fetchers
    case Quit => true
    case SeeQuit => !s.returned && s.quit && !s.draining
    case Kill => s.quit
    case GiveUp(f) => s.quit && f in s.fetchers && s.fetchers[f].Assigned?
  }

  function Next(s: State, step: Step): State
    requires Enabled(s, step)
  {
    match step
    case Ask(r, section) =>
      var t := s.streams[r];
      var q := Req(t.bit, section);
      if q in s.responses then s.(streams := s.streams[r := t.(phase := MustPend(section))])
      else s.(streams := s.streams[r := t.(phase := MustSend(section))], responses := s.responses[q := None])
    case Send(r) =>
      var t := s.streams[r];
      var q := Req(t.bit, t.phase.section);
      s.(streams := s.streams[r := t.(phase := MustPend(t.phase.section))], channel := s.channel + [q], sent := s.sent + [q])
    case Pend(r) =>
      var t := s.streams[r];
      s.(streams := s.streams[r := t.(phase := Idle, asked := t.asked + [t.phase.section])])
    case Out(r) =>
      var t := s.streams[r];
      s.(streams := s.streams[r := t.(out := t.out + [s.responses[Req(t.bit, t.asked[|t.out|])].value])])
    case TakeRequest(waiting, g) =>
      var q := s.channel[0];
      var atOnce := waiting && Queue(s.dist.requests, q.bit) == [];
      s.(channel := s.channel[1..], dist := OnRequest(s.dist, q, waiting),
         fetchers := if atOnce then s.fetchers[g := Assigned(q.bit)] else s.fetchers)
    case TakeRetriever(bit, g) => s.(dist := OnRetriever(s.dist, bit), fetchers := s.fetchers[g := Assigned(bit)])
    case TakeTask(f, want, waiting, g) =>
      var bit := s.fetchers[f].bit;
      var after := s.fetchers[f := Holding(bit, Taken(s.dist, bit, want))];
      s.(dist := OnTask(s.dist, bit, want, waiting),
         fetchers := if waiting && want < |Queue(s.dist.requests, bit)| then after[g := Assigned(bit)] else after)
    case TakeDelivery(f, bitsets, waiting, g) =>
      var bit, sections := s.fetchers[f].bit, s.fetchers[f].sections;
      var missing := Missing(sections, bitsets);
      var after := s.fetchers - {f};
      var d := OnDelivery(s.dist, bit, missing, waiting);
      s.(responses := Deliver(s.responses, bit, sections, bitsets),
         closed := s.closed + Closes(s.responses, bit, sections, bitsets),
         dist := d,
         fetchers := if waiting && missing != [] && Queue(s.dist.requests, bit) == [] then after[g := Assigned(bit)] else after,
         returned := d.allocs == 0 && s.draining)
    case Quit => s.(quit := true)
    case SeeQuit => if s.dist.allocs == 0 then s.(returned := true) else s.(draining := true)
    case Kill => s.(returned := true, killed := true)
    case GiveUp(f) => s.(fetchers := s.fetchers[f := Holding(s.fetchers[f].bit, [])])
  }

  // ---------------------------------------------------------------- invariant

  datatype Place = InStream(r: nat) | InChannel | InQueue | InFlight(f: nat)

  predicate Sending(streams: seq<Stream>, q: Req, r: nat) {
    r < |streams| && streams[r].bit == q.bit && streams[r].phase == MustSend(q.section)
  }

  predicate Flying(fetchers: map<nat, Fetcher>, q: Req, f: nat) {
    f in fetchers && fetchers[f].Holding? && fetchers[f].bit == q.bit && q.section in fetchers[f].sections
  }

  predicate At(streams: seq<Stream>, channel: seq<Req>, requests: map<nat, seq<nat>>, fetchers: map<nat, Fetcher>, q: Req, x: Place) {
    match x
    case InStream(r) => Sending(streams, q, r)
    case InChannel => q in channel
    case InQueue => q.section in Queue(requests, q.bit)
    case InFlight(f) => Flying(fetchers, q, f)
  }

  predicate Is(s: State, q: Req, x: Place) {
    At(s.streams, s.channel, s.dist.requests, s.fetchers, q, x)
  }

  predicate Wanted(responses: map<Req, Option<Bytes>>, q: Req) {
    q in responses && responses[q].None?
  }

  /** Each requested vector that is not cached is at exactly one place, and nothing else is anywhere. */
  ghost predicate OnePlace(s: State) {
    && (forall q, x, y :: Is(s, q, x) && Is(s, q, y) ==> x == y)
    && (forall q, x :: Is(s, q, x) ==> Wanted(s.responses, q))
    && (forall q :: Wanted(s.responses, q) ==> exists x :: Is(s, q, x))
  }

  predicate FetchersSorted(fetchers: map<nat, Fetcher>) {
    forall f: nat :: f in fetchers && fetchers[f].Holding? ==> Sorted(fetchers[f].sections)
  }

  predicate QueuesSorted(requests: map<nat, seq<nat>>) {
    forall bit: nat :: bit in requests ==> Sorted(requests[bit])
  }

  predicate Holds(fetchers: map<nat, Fetcher>, f: nat, bit: nat) {
    f in fetchers && fetchers[f] == Assigned(bit)
  }

  /** A noted bit has requests, and so has a bit that was given to a fetcher, which is then not noted. */
  ghost predicate BitsRight(requests: map<nat, seq<nat>>, unallocs: set<nat>, fetchers: map<nat, Fetcher>) {
    && (forall bit: nat :: bit in unallocs ==> Queue(requests, bit) != [])
    && (forall f: nat, bit: nat :: Holds(fetchers, f, bit) ==> Queue(requests, bit) != [] && bit !in unallocs)
  }

  /** No two fetchers hold the same bit. */
  ghost predicate OneHolder(fetchers: map<nat, Fetcher>) {
    forall f: nat, g: nat, bit: nat :: Holds(fetchers, f, bit) && Holds(fetchers, g, bit) ==> f == g
  }

  /** The distributor listens for fetchers exactly while bits are noted, and counts the fetchers right. */
  ghost predicate AllocsRight(d: Dist, fetchers: map<nat, Fetcher>) {
    && BitsRight(d.requests, d.unallocs, fetchers) && OneHolder(fetchers)
    && (d.listening <==> d.unallocs != {}) && d.allocs == |fetchers|
  }

  ghost predicate HeldBy(unallocs: set<nat>, fetchers: map<nat, Fetcher>, bit: nat) {
    bit in unallocs || exists f: nat :: Holds(fetchers, f, bit)
  }

  /** Until quit every queue that is not empty is noted or held by a fetcher. */
  ghost predicate QueuesHeld(d: Dist, fetchers: map<nat, Fetcher>, quit: bool) {
    !quit ==> forall bit: nat :: Queue(d.requests, bit) != [] ==> HeldBy(d.unallocs, fetchers, bit)
  }

  /** A graceful shutdown returns only when no fetcher is left. */
  predicate GracefulReturn(s: State) {
    s.returned && !s.killed ==> s.fetchers == map[]
  }

  /** Every request was sent once, or is still to be sent; the done channel of a vector was closed once if it
      is cached and not otherwise. */
  ghost predicate HistoryRight(s: State) {
    && NoDup(s.sent) && (forall q :: q in s.sent ==> q in s.responses)
    && (forall r :: 0 <= r < |s.streams| && s.streams[r].phase.MustSend? ==> Req(s.streams[r].bit, s.streams[r].phase.section) !in s.sent)
    && NoDup(s.closed) && (forall q :: q in s.closed <==> q in s.responses && s.responses[q].Some?)
  }

  predicate StreamRight(responses: map<Req, Option<Bytes>>, t: Stream) {
    && |t.out| <= |t.asked|
    && (forall i :: 0 <= i < |t.asked| ==> Req(t.bit, t.asked[i]) in responses)
    && (t.phase.MustPend? ==> Req(t.bit, t.phase.section) in responses)
    && (forall i :: 0 <= i < |t.out| ==> responses[Req(t.bit, t.asked[i])] == Some(t.out[i]))
  }

  /** Every stream delivered the vectors of the sections it was asked for, in order. */
  predicate StreamsRight(s: State) {
    forall r :: 0 <= r < |s.streams| ==> StreamRight(s.responses, s.streams[r])
  }

  ghost predicate Places(s: State) {
    OnePlace(s) && NoDup(s.channel) && QueuesSorted(s.dist.requests) && FetchersSorted(s.fetchers)
  }

  ghost predicate Allocs(s: State) {
    AllocsRight(s.dist, s.fetchers) && QueuesHeld(s.dist, s.fetchers, s.quit) && GracefulReturn(s)
  }

  ghost predicate Inv(s: State) {
    Places(s) && Allocs(s) && HistoryRight(s) && StreamsRight(s)
  }

  /** A session begins with what reset leaves: only cached vectors. */
  function Initial(streams: seq<Stream>, responses: map<Req, Option<Bytes>>, closed: seq<Req>): State {
    State(streams, responses, [], Dist(map[], {}, false, 0), map[], false, false, false, false, [], closed)
  }

  lemma InitialInv(streams: seq<Stream>, responses: map<Req, Option<Bytes>>, closed: seq<Req>)
    requires forall r :: 0 <= r < |streams| ==> streams[r].phase.Idle? && streams[r].asked == [] && streams[r].out == []
    requires NoDup(closed) && forall q :: q in closed <==> q in responses
    requires forall q :: q in responses ==> responses[q].Some?
    ensures Inv(Initial(streams, responses, closed))
  {
    var s := Initial(streams, responses, closed);
    assert forall q, x :: !Is(s, q, x);
  }

  // ---------------------------------------------------------------- moving between places

  /** A step that takes the vectors of `moved` from one place to another and changes nothing else. */
  ghost predicate Moves(s: State, t: State, moved: set<Req>, from: Place, to: Place) {
    && from != to
    && (forall q, x :: Is(t, q, x) <==> if q in moved then x == to else Is(s, q, x))
    && (forall q :: q in moved ==> Is(s, q, from))
  }

  lemma MovesKeepPlaces(s: State, t: State, moved: set<Req>, from: Place, to: Place)
    requires OnePlace(s) && Moves(s, t, moved, from, to) && t.responses == s.responses
    ensures OnePlace(t)
  {
    forall q | Wanted(t.responses, q) ensures exists x :: Is(t, q, x) {
      if q in moved {
        assert Is(t, q, to);
      } else {
        var x :| Is(s, q, x);
        assert Is(t, q, x);
      }
    }
  }

  lemma SamePlaces(s: State, t: State)
    requires OnePlace(s) && t.responses == s.responses && forall q, x :: Is(t, q, x) <==> Is(s, q, x)
    ensures OnePlace(t)
  {
    forall q | Wanted(t.responses, q) ensures exists x :: Is(t, q, x) {
      var x :| Is(s, q, x);
      assert Is(t, q, x);
    }
  }
}
