/** The steps of the schedulers' streams, and of the distributor when it takes requests, fetchers and tasks or
    shuts down, keep the invariant of a session. */
module RetrievalSteps {
  import opened Common
  import opened Bits
  import opened Retrieval

  // ---------------------------------------------------------------- the steps of a stream

  lemma AskKnown(s: State, r: nat, section: nat)
    requires Inv(s) && Enabled(s, Ask(r, section)) && Req(s.streams[r].bit, section) in s.responses
    ensures Inv(Next(s, Ask(r, section)))
  {
    var t := Next(s, Ask(r, section));
    assert forall p, x :: Is(t, p, x) <==> Is(s, p, x);
    SamePlaces(s, t);
  }

  /** A vector that nobody asked for yet gets its only place. */
  lemma NewPlace(s: State, t: State, q: Req, to: Place)
    requires OnePlace(s) && q !in s.responses && t.responses == s.responses[q := None]
    requires forall p, x :: Is(t, p, x) <==> Is(s, p, x) || (p == q && x == to)
    ensures OnePlace(t)
  {
    forall p | Wanted(t.responses, p) ensures exists x :: Is(t, p, x) {
      if p == q {
        assert Is(t, p, to);
      } else {
        assert Wanted(s.responses, p);
        var x :| Is(s, p, x);
        assert Is(t, p, x);
      }
    }
  }

  lemma AskPlaces(s: State, r: nat, section: nat)
    requires Inv(s) && Enabled(s, Ask(r, section)) && Req(s.streams[r].bit, section) !in s.responses
    ensures OnePlace(Next(s, Ask(r, section)))
  {
    var t := Next(s, Ask(r, section));
    var q := Req(s.streams[r].bit, section);
    assert t.streams == s.streams[r := s.streams[r].(phase := MustSend(section))];
    forall p, x ensures Is(t, p, x) <==> Is(s, p, x) || (p == q && x == InStream(r)) {
      if x == InStream(r) { assert !Is(s, p, x); }
    }
    NewPlace(s, t, q, InStream(r));
  }

  lemma {:induction false} StreamGrows(responses: map<Req, Option<Bytes>>, q: Req, t: Stream)
    requires StreamRight(responses, t) && q !in responses
    ensures StreamRight(responses[q := None], t)
  {
  }

  lemma AskKeeps(s: State, r: nat, section: nat)
    requires Inv(s) && Enabled(s, Ask(r, section))
    ensures Inv(Next(s, Ask(r, section)))
  {
    var t, q := Next(s, Ask(r, section)), Req(s.streams[r].bit, section);
    if q in s.responses {
      AskKnown(s, r, section);
    } else {
      AskPlaces(s, r, section);
      AskHistory(s, r, section);
    }
  }

  lemma AskHistory(s: State, r: nat, section: nat)
    requires Inv(s) && Enabled(s, Ask(r, section)) && Req(s.streams[r].bit, section) !in s.responses
    ensures HistoryRight(Next(s, Ask(r, section))) && StreamsRight(Next(s, Ask(r, section)))
  {
    var t, q := Next(s, Ask(r, section)), Req(s.streams[r].bit, section);
    assert t.streams == s.streams[r := s.streams[r].(phase := MustSend(section))];
    forall k | 0 <= k < |t.streams| ensures StreamRight(t.responses, t.streams[k]) {
      StreamGrows(s.responses, q, s.streams[k]);
    }
    assert q !in s.sent;
  }

  lemma SendPlaces(s: State, r: nat)
    requires Inv(s) && Enabled(s, Send(r))
    ensures OnePlace(Next(s, Send(r))) && NoDup(Next(s, Send(r)).channel)
  {
    var t := Next(s, Send(r));
    var q := Req(s.streams[r].bit, s.streams[r].phase.section);
    assert Is(s, q, InStream(r)) && !Is(s, q, InChannel);
    forall p, x ensures Is(t, p, x) <==> if p in {q} then x == InChannel else Is(s, p, x) {
      if p == q && x != InChannel && x != InStream(r) { assert !Is(s, q, x); }
    }
    MovesKeepPlaces(s, t, {q}, InStream(r), InChannel);
  }

  lemma SendKeeps(s: State, r: nat)
    requires Inv(s) && Enabled(s, Send(r))
    ensures Inv(Next(s, Send(r)))
  {
    SendPlaces(s, r);
    var q := Req(s.streams[r].bit, s.streams[r].phase.section);
    assert Is(s, q, InStream(r));
    forall k | 0 <= k < |s.streams| && k != r && s.streams[k].phase.MustSend?
      ensures Req(s.streams[k].bit, s.streams[k].phase.section) != q
    {
      assert Is(s, Req(s.streams[k].bit, s.streams[k].phase.section), InStream(k));
    }
  }

  lemma PendKeeps(s: State, r: nat)
    requires Inv(s) && Enabled(s, Pend(r))
    ensures Inv(Next(s, Pend(r)))
  {
    assert forall p, x :: Is(Next(s, Pend(r)), p, x) <==> Is(s, p, x);
    SamePlaces(s, Next(s, Pend(r)));
  }

  lemma OutKeeps(s: State, r: nat)
    requires Inv(s) && Enabled(s, Out(r))
    ensures Inv(Next(s, Out(r)))
  {
    assert forall p, x :: Is(Next(s, Out(r)), p, x) <==> Is(s, p, x);
    SamePlaces(s, Next(s, Out(r)));
  }

  // ---------------------------------------------------------------- the steps of the distributor

  lemma QueueIsSorted(requests: map<nat, seq<nat>>, bit: nat)
    requires QueuesSorted(requests)
    ensures Sorted(Queue(requests, bit))
  {
  }

  lemma NewHolderFliesNothing(fetchers: map<nat, Fetcher>, g: nat, b: nat)
    requires g !in fetchers
    ensures forall q, f: nat :: Flying(fetchers[g := Assigned(b)], q, f) <==> Flying(fetchers, q, f)
  {
  }

  lemma NewHolderCounts(fetchers: map<nat, Fetcher>, g: nat, b: nat)
    requires g !in fetchers
    ensures |fetchers[g := Assigned(b)]| == |fetchers| + 1
  {
    assert fetchers[g := Assigned(b)].Keys == fetchers.Keys + {g};
  }

  lemma AssignRight(d: Dist, fetchers: map<nat, Fetcher>, bit: nat, g: nat)
    requires AllocsRight(d, fetchers) && g !in fetchers && Queue(d.requests, bit) != []
    requires bit !in d.unallocs && forall f: nat :: !Holds(fetchers, f, bit)
    ensures AllocsRight(d.(allocs := d.allocs + 1), fetchers[g := Assigned(bit)])
  {
    var after := fetchers[g := Assigned(bit)];
    NewHolderCounts(fetchers, g, bit);
    forall f: nat, b: nat | Holds(after, f, b) ensures Queue(d.requests, b) != [] && b !in d.unallocs {
      if f != g { assert Holds(fetchers, f, b); }
    }
    forall f: nat, h: nat, b: nat | Holds(after, f, b) && Holds(after, h, b) ensures f == h {
      if f != g { assert Holds(fetchers, f, b); }
      if h != g { assert Holds(fetchers, h, b); }
    }
  }

  lemma NoteRight(d: Dist, fetchers: map<nat, Fetcher>, bit: nat)
    requires AllocsRight(d, fetchers) && Queue(d.requests, bit) != []
    requires bit !in d.unallocs && forall f: nat :: !Holds(fetchers, f, bit)
    ensures AllocsRight(d.(unallocs := d.unallocs + {bit}, listening := true), fetchers)
  {
  }

  /** Giving a bit with requests that nobody has to a fetcher, or noting it. */
  lemma AssignKeeps(d: Dist, fetchers: map<nat, Fetcher>, bit: nat, waiting: bool, g: nat, quit: bool)
    requires AllocsRight(d, fetchers) && g !in fetchers && Queue(d.requests, bit) != []
    requires bit !in d.unallocs && forall f: nat :: !Holds(fetchers, f, bit)
    requires !quit ==> forall b: nat :: b != bit && Queue(d.requests, b) != [] ==> HeldBy(d.unallocs, fetchers, b)
    ensures var after := if waiting then fetchers[g := Assigned(bit)] else fetchers;
            AllocsRight(Assign(d, bit, waiting), after) && QueuesHeld(Assign(d, bit, waiting), after, quit)
  {
    var after := if waiting then fetchers[g := Assigned(bit)] else fetchers;
    if waiting { AssignRight(d, fetchers, bit, g); } else { NoteRight(d, fetchers, bit); }
    forall b: nat | !quit && Queue(d.requests, b) != [] ensures HeldBy(Assign(d, bit, waiting).unallocs, after, b) {
      if b == bit {
        assert waiting ==> Holds(after, g, b);
      } else if b !in d.unallocs {
        var f: nat :| Holds(fetchers, f, b);
        assert Holds(after, f, b);
      }
    }
  }

  lemma InQueueAfterInsert(requests: map<nat, seq<nat>>, q: Req, p: Req)
    requires QueuesSorted(requests) && q.section !in Queue(requests, q.bit)
    ensures var after := requests[q.bit := Insert(Queue(requests, q.bit), q.section)];
            p.section in Queue(after, p.bit) <==> p == q || p.section in Queue(requests, p.bit)
  {
    QueueIsSorted(requests, q.bit);
    InsertMembers(Queue(requests, q.bit), q.section);
  }

  lemma RequestPlaces(s: State, waiting: bool, g: nat)
    requires Places(s) && Enabled(s, TakeRequest(waiting, g))
    ensures OnePlace(Next(s, TakeRequest(waiting, g))) && NoDup(Next(s, TakeRequest(waiting, g)).channel)
  {
    var t, q := Next(s, TakeRequest(waiting, g)), s.channel[0];
    NewHolderFliesNothing(s.fetchers, g, q.bit);
    assert t.dist.requests == s.dist.requests[q.bit := Insert(Queue(s.dist.requests, q.bit), q.section)];
    RequestMoves(s, t, q);
    MovesKeepPlaces(s, t, {q}, InChannel, InQueue);
  }

  lemma RequestMoves(s: State, t: State, q: Req)
    requires OnePlace(s) && NoDup(s.channel) && QueuesSorted(s.dist.requests)
    requires s.channel != [] && q == s.channel[0] && t.channel == s.channel[1..] && t.streams == s.streams
    requires t.dist.requests == s.dist.requests[q.bit := Insert(Queue(s.dist.requests, q.bit), q.section)]
    requires forall p, f: nat :: Flying(t.fetchers, p, f) <==> Flying(s.fetchers, p, f)
    ensures Moves(s, t, {q}, InChannel, InQueue)
  {
    assert Is(s, q, InChannel) && !Is(s, q, InQueue);
    assert s.channel == [q] + t.channel;
    forall p, x ensures Is(t, p, x) <==> if p in {q} then x == InQueue else Is(s, p, x) {
      if x == InQueue { InQueueAfterInsert(s.dist.requests, q, p); }
      if p == q && x != InChannel && x != InQueue { assert !Is(s, q, x); }
    }
  }

  /** A queue that is not empty afterwards takes no bit from anybody. */
  lemma GrowQueue(d: Dist, fetchers: map<nat, Fetcher>, bit: nat, queue: seq<nat>)
    requires AllocsRight(d, fetchers) && queue != []
    ensures AllocsRight(d.(requests := d.requests[bit := queue]), fetchers)
  {
    var requests := d.requests[bit := queue];
    assert forall b: nat :: Queue(requests, b) == if b == bit then queue else Queue(d.requests, b);
  }

  /** Requests that come in for a bit: it is given out or noted if its queue was empty. */
  lemma QueueFilled(d: Dist, fetchers: map<nat, Fetcher>, bit: nat, queue: seq<nat>, waiting: bool, g: nat, quit: bool)
    requires AllocsRight(d, fetchers) && QueuesHeld(d, fetchers, quit) && queue != [] && g !in fetchers
    ensures var e := d.(requests := d.requests[bit := queue]);
            if Queue(d.requests, bit) == []
            then var after := if waiting then fetchers[g := Assigned(bit)] else fetchers;
                 AllocsRight(Assign(e, bit, waiting), after) && QueuesHeld(Assign(e, bit, waiting), after, quit)
            else AllocsRight(e, fetchers) && QueuesHeld(e, fetchers, quit)
  {
    var e := d.(requests := d.requests[bit := queue]);
    GrowQueue(d, fetchers, bit, queue);
    assert forall b: nat :: Queue(e.requests, b) == if b == bit then queue else Queue(d.requests, b);
    if Queue(d.requests, bit) == [] { AssignKeeps(e, fetchers, bit, waiting, g, quit); }
  }

  lemma RequestAllocs(s: State, waiting: bool, g: nat)
    requires Allocs(s) && Enabled(s, TakeRequest(waiting, g))
    ensures Allocs(Next(s, TakeRequest(waiting, g)))
  {
    var q := s.channel[0];
    QueueFilled(s.dist, s.fetchers, q.bit, Insert(Queue(s.dist.requests, q.bit), q.section), waiting, g, s.quit);
  }

  lemma InsertQueuesSorted(requests: map<nat, seq<nat>>, q: Req)
    requires QueuesSorted(requests) && q.section !in Queue(requests, q.bit)
    ensures QueuesSorted(requests[q.bit := Insert(Queue(requests, q.bit), q.section)])
  {
    QueueIsSorted(requests, q.bit);
    InsertSorted(Queue(requests, q.bit), q.section);
  }

  lemma RequestSorted(s: State, waiting: bool, g: nat)
    requires Places(s) && Enabled(s, TakeRequest(waiting, g))
    ensures QueuesSorted(Next(s, TakeRequest(waiting, g)).dist.requests) && FetchersSorted(Next(s, TakeRequest(waiting, g)).fetchers)
  {
    var t, q := Next(s, TakeRequest(waiting, g)), s.channel[0];
    assert Is(s, q, InChannel) && !Is(s, q, InQueue);
    assert t.dist.requests == s.dist.requests[q.bit := Insert(Queue(s.dist.requests, q.bit), q.section)];
    InsertQueuesSorted(s.dist.requests, q);
  }

  lemma RequestKeeps(s: State, waiting: bool, g: nat)
    requires Inv(s) && Enabled(s, TakeRequest(waiting, g))
    ensures Inv(Next(s, TakeRequest(waiting, g)))
  {
    RequestPlaces(s, waiting, g);
    RequestSorted(s, waiting, g);
    RequestAllocs(s, waiting, g);
  }

  lemma RetrieverKeeps(s: State, bit: nat, g: nat)
    requires Inv(s) && Enabled(s, TakeRetriever(bit, g))
    ensures Inv(Next(s, TakeRetriever(bit, g)))
  {
    var t := Next(s, TakeRetriever(bit, g));
    NewHolderFliesNothing(s.fetchers, g, bit);
    assert forall p, x :: Is(t, p, x) <==> Is(s, p, x);
    SamePlaces(s, t);
    RetrieverAllocs(s.dist, s.fetchers, bit, g, s.quit);
  }

  lemma RetrieverAllocs(d: Dist, fetchers: map<nat, Fetcher>, bit: nat, g: nat, quit: bool)
    requires AllocsRight(d, fetchers) && QueuesHeld(d, fetchers, quit) && d.listening && Lowest(d, bit) && g !in fetchers
    ensures AllocsRight(OnRetriever(d, bit), fetchers[g := Assigned(bit)])
    ensures QueuesHeld(OnRetriever(d, bit), fetchers[g := Assigned(bit)], quit)
  {
    var e, after := d.(unallocs := d.unallocs - {bit}, listening := d.unallocs - {bit} != {}), fetchers[g := Assigned(bit)];
    assert AllocsRight(e, fetchers);
    AssignRight(e, fetchers, bit, g);
    forall b: nat | !quit && Queue(d.requests, b) != [] ensures HeldBy(d.unallocs - {bit}, after, b) {
      if b == bit {
        assert Holds(after, g, b);
      } else if b !in d.unallocs {
        var f: nat :| Holds(fetchers, f, b);
        assert Holds(after, f, b);
      }
    }
  }

  // ---------------------------------------------------------------- handing out sections

  lemma Released(fetchers: map<nat, Fetcher>, f: nat, bit: nat, sections: seq<nat>)
    requires Holds(fetchers, f, bit)
    ensures var after := fetchers[f := Holding(bit, sections)];
            && |after| == |fetchers|
            && forall h: nat, b: nat :: Holds(after, h, b) <==> h != f && Holds(fetchers, h, b)
  {
    var after := fetchers[f := Holding(bit, sections)];
    assert after.Keys == fetchers.Keys;
    forall h: nat, b: nat ensures Holds(after, h, b) <==> h != f && Holds(fetchers, h, b) {}
  }

  /** The fetcher's bit is free after it took its sections: nobody else had it. */
  lemma ReleasedAllocs(d: Dist, fetchers: map<nat, Fetcher>, f: nat, bit: nat, sections: seq<nat>)
    requires AllocsRight(d, fetchers) && Holds(fetchers, f, bit)
    ensures var after := fetchers[f := Holding(bit, sections)];
            AllocsRight(d, after) && bit !in d.unallocs && forall h: nat :: !Holds(after, h, bit)
  {
    var after := fetchers[f := Holding(bit, sections)];
    Released(fetchers, f, bit, sections);
    forall h: nat ensures !Holds(after, h, bit) {
      if h != f { assert Holds(fetchers, h, bit) ==> h == f; }
    }
  }

  lemma EmptiedAllocs(d: Dist, fetchers: map<nat, Fetcher>, bit: nat)
    requires AllocsRight(d, fetchers) && bit !in d.unallocs && forall h: nat :: !Holds(fetchers, h, bit)
    ensures AllocsRight(d.(requests := d.requests - {bit}), fetchers)
  {
    assert forall b: nat :: Queue(d.requests - {bit}, b) == if b == bit then [] else Queue(d.requests, b);
  }

  lemma HeldByOthers(unallocs: set<nat>, fetchers: map<nat, Fetcher>, f: nat, bit: nat, sections: seq<nat>, b: nat)
    requires Holds(fetchers, f, bit) && b != bit && HeldBy(unallocs, fetchers, b)
    ensures HeldBy(unallocs, fetchers[f := Holding(bit, sections)], b)
  {
    if b !in unallocs {
      var h: nat :| Holds(fetchers, h, b);
      assert Holds(fetchers[f := Holding(bit, sections)], h, b);
    }
  }

  lemma TaskAllocs(d: Dist, fetchers: map<nat, Fetcher>, f: nat, bit: nat, want: nat, waiting: bool, g: nat, quit: bool)
    requires AllocsRight(d, fetchers) && QueuesHeld(d, fetchers, quit) && Holds(fetchers, f, bit) && g !in fetchers
    ensures var mid := fetchers[f := Holding(bit, Taken(d, bit, want))];
            var after := if waiting && want < |Queue(d.requests, bit)| then mid[g := Assigned(bit)] else mid;
            AllocsRight(OnTask(d, bit, want, waiting), after) && QueuesHeld(OnTask(d, bit, want, waiting), after, quit)
  {
    var queue, taken := Queue(d.requests, bit), Taken(d, bit, want);
    var mid := fetchers[f := Holding(bit, taken)];
    ReleasedAllocs(d, fetchers, f, bit, taken);
    forall b: nat | !quit && b != bit && Queue(d.requests, b) != [] ensures HeldBy(d.unallocs, mid, b) {
      HeldByOthers(d.unallocs, fetchers, f, bit, taken, b);
    }
    if want >= |queue| {
      EmptiedAllocs(d, mid, bit);
      assert forall b: nat :: Queue(d.requests - {bit}, b) == if b == bit then [] else Queue(d.requests, b);
    } else {
      var e := d.(requests := d.requests[bit := queue[want..]]);
      GrowQueue(d, mid, bit, queue[want..]);
      assert forall b: nat :: Queue(e.requests, b) == if b == bit then queue[want..] else Queue(d.requests, b);
      AssignKeeps(e, mid, bit, waiting, g, quit);
    }
  }

  function Reqs(bit: nat, sections: seq<nat>): (r: set<Req>)
    ensures forall q :: q in r <==> q.bit == bit && q.section in sections
  {
    set s | s in sections :: Req(bit, s)
  }

  lemma TakenSplits(d: Dist, bit: nat, want: nat)
    requires Sorted(Queue(d.requests, bit))
    ensures var rest := Queue(OnTask(d, bit, want, false).requests, bit);
            && OnTask(d, bit, want, true).requests == OnTask(d, bit, want, false).requests
            && Sorted(Taken(d, bit, want)) && Sorted(rest) && Queue(d.requests, bit) == Taken(d, bit, want) + rest
  {
    var queue := Queue(d.requests, bit);
    if want < |queue| { assert queue == queue[..want] + queue[want..]; }
  }

  lemma SortedHalves(a: seq<nat>, b: seq<nat>)
    requires Sorted(a + b)
    ensures forall s: nat :: s in a ==> s !in b
  {
    forall i, j | 0 <= i < |a| && 0 <= j < |b| ensures a[i] != b[j] {
      assert (a + b)[i] < (a + b)[|a| + j];
    }
  }

  lemma TaskMoves(s: State, t: State, f: nat, bit: nat, taken: seq<nat>)
    requires OnePlace(s) && Holds(s.fetchers, f, bit) && Sorted(Queue(s.dist.requests, bit))
    requires Queue(s.dist.requests, bit) == taken + Queue(t.dist.requests, bit)
    requires forall b: nat :: b != bit ==> Queue(t.dist.requests, b) == Queue(s.dist.requests, b)
    requires t.streams == s.streams && t.channel == s.channel
    requires forall q, h: nat :: Flying(t.fetchers, q, h) <==> if h == f then q.bit == bit && q.section in taken else Flying(s.fetchers, q, h)
    ensures Moves(s, t, Reqs(bit, taken), InQueue, InFlight(f))
  {
    var moved, queue, rest := Reqs(bit, taken), Queue(s.dist.requests, bit), Queue(t.dist.requests, bit);
    forall q | q in moved ensures Is(s, q, InQueue) && q.section !in rest {
      var i :| 0 <= i < |taken| && taken[i] == q.section;
      assert queue[i] == q.section;
      SortedHalves(taken, rest);
    }
    forall q, x ensures Is(t, q, x) <==> if q in moved then x == InFlight(f) else Is(s, q, x) {
      if q in moved && x != InQueue { assert !Is(s, q, x); }
    }
  }

  lemma TaskFlying(fetchers: map<nat, Fetcher>, f: nat, bit: nat, taken: seq<nat>, some: bool, g: nat)
    requires Holds(fetchers, f, bit) && g !in fetchers
    ensures var mid := fetchers[f := Holding(bit, taken)];
            var after := if some then mid[g := Assigned(bit)] else mid;
            forall q, h: nat :: Flying(after, q, h) <==> if h == f then q.bit == bit && q.section in taken else Flying(fetchers, q, h)
  {
    var mid := fetchers[f := Holding(bit, taken)];
    var after := if some then mid[g := Assigned(bit)] else mid;
    forall q, h: nat ensures Flying(after, q, h) <==> if h == f then q.bit == bit && q.section in taken else Flying(fetchers, q, h) {}
  }

  lemma TaskPlaces(s: State, f: nat, want: nat, waiting: bool, g: nat)
    requires Places(s) && Enabled(s, TakeTask(f, want, waiting, g))
    ensures OnePlace(Next(s, TakeTask(f, want, waiting, g)))
  {
    var t, bit := Next(s, TakeTask(f, want, waiting, g)), s.fetchers[f].bit;
    var taken, queue := Taken(s.dist, bit, want), Queue(s.dist.requests, bit);
    QueueIsSorted(s.dist.requests, bit);
    TakenSplits(s.dist, bit, want);
    TaskFlying(s.fetchers, f, bit, taken, waiting && want < |queue|, g);
    TaskMoves(s, t, f, bit, taken);
    MovesKeepPlaces(s, t, Reqs(bit, taken), InQueue, InFlight(f));
  }

  lemma TaskSorted(s: State, f: nat, want: nat, waiting: bool, g: nat)
    requires Places(s) && Enabled(s, TakeTask(f, want, waiting, g))
    ensures var t := Next(s, TakeTask(f, want, waiting, g)); QueuesSorted(t.dist.requests) && FetchersSorted(t.fetchers)
  {
    QueueIsSorted(s.dist.requests, s.fetchers[f].bit);
    TakenSplits(s.dist, s.fetchers[f].bit, want);
  }

  lemma TaskKeeps(s: State, f: nat, want: nat, waiting: bool, g: nat)
    requires Inv(s) && Enabled(s, TakeTask(f, want, waiting, g))
    ensures Inv(Next(s, TakeTask(f, want, waiting, g)))
  {
    TaskPlaces(s, f, want, waiting, g);
    TaskSorted(s, f, want, waiting, g);
    TaskAllocs(s.dist, s.fetchers, f, s.fetchers[f].bit, want, waiting, g, s.quit);
  }

  // ---------------------------------------------------------------- shutdown and clients

  lemma GiveUpKeeps(s: State, f: nat)
    requires Inv(s) && Enabled(s, GiveUp(f))
    ensures Inv(Next(s, GiveUp(f)))
  {
    var t, bit := Next(s, GiveUp(f)), s.fetchers[f].bit;
    assert forall p, x :: Is(t, p, x) <==> Is(s, p, x);
    SamePlaces(s, t);
    ReleasedAllocs(s.dist, s.fetchers, f, bit, []);
  }

  lemma ShutdownKeeps(s: State, step: Step)
    requires Inv(s) && Enabled(s, step) && (step.Quit? || step.SeeQuit? || step.Kill?)
    ensures Inv(Next(s, step))
  {
    assert forall p, x :: Is(Next(s, step), p, x) <==> Is(s, p, x);
    SamePlaces(s, Next(s, step));
  }
}
