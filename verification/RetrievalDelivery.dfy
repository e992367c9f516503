/** A delivery keeps the invariant of a session: what came back is cached once, what is missing is queued again. */
module RetrievalDelivery {
  import opened Common
  import opened Bits
  import opened Retrieval
  import opened RetrievalSteps

  lemma SortedFront(sections: seq<nat>)
    requires Sorted(sections) && sections != []
    ensures var n := |sections| - 1;
            && Sorted(sections[..n]) && sections[n] !in sections[..n]
            && (forall s: nat :: s in sections <==> s in sections[..n] || s == sections[n])
            && (forall s: nat :: s in sections[..n] ==> s < sections[n])
  {
    var n := |sections| - 1;
    assert sections == sections[..n] + [sections[n]];
  }

  lemma SortedAppend(q: seq<nat>, x: nat)
    requires Sorted(q) && forall s: nat :: s in q ==> s < x
    ensures Sorted(q + [x])
  {
    forall i, j | 0 <= i < j < |q + [x]| ensures (q + [x])[i] < (q + [x])[j] {
      assert q[i] in q;
    }
  }

  /** What came back empty: sorted like the sections, and exactly those. */
  lemma {:induction false} MissingSorted(sections: seq<nat>, bitsets: seq<Bytes>)
    requires |sections| == |bitsets| && Sorted(sections)
    ensures Sorted(Missing(sections, bitsets))
    ensures forall i :: 0 <= i < |sections| ==> (sections[i] in Missing(sections, bitsets) <==> bitsets[i] == [])
    ensures forall s: nat :: s in Missing(sections, bitsets) ==> s in sections
    decreases |sections|
  {
    if sections != [] {
      var n := |sections| - 1;
      var before := Missing(sections[..n], bitsets[..n]);
      SortedFront(sections);
      MissingSorted(sections[..n], bitsets[..n]);
      SortedAppend(before, sections[n]);
      forall i | 0 <= i < n ensures sections[i] in before <==> bitsets[i] == [] {
        assert sections[..n][i] == sections[i] && bitsets[..n][i] == bitsets[i];
      }
    }
  }

  predicate AllWanted(responses: map<Req, Option<Bytes>>, bit: nat, sections: seq<nat>) {
    forall i :: 0 <= i < |sections| ==> Wanted(responses, Req(bit, sections[i]))
  }

  /** The vector of `q` in a delivery for its bit; empty when it is not in it. */
  function Brought(bit: nat, sections: seq<nat>, bitsets: seq<Bytes>, q: Req): Bytes
    requires |sections| == |bitsets|
    decreases |sections|
  {
    if sections == [] then []
    else
      var n := |sections| - 1;
      if q == Req(bit, sections[n]) then bitsets[n] else Brought(bit, sections[..n], bitsets[..n], q)
  }

  lemma {:induction false} BroughtIs(bit: nat, sections: seq<nat>, bitsets: seq<Bytes>, q: Req)
    requires |sections| == |bitsets| && Sorted(sections)
    ensures q.bit != bit || q.section !in sections ==> Brought(bit, sections, bitsets, q) == []
    ensures q.bit == bit ==> (q.section in Missing(sections, bitsets) <==> q.section in sections && Brought(bit, sections, bitsets, q) == [])
    decreases |sections|
  {
    if sections != [] {
      var n := |sections| - 1;
      SortedFront(sections);
      MissingSorted(sections[..n], bitsets[..n]);
      BroughtIs(bit, sections[..n], bitsets[..n], q);
    }
  }

  /** deliver caches exactly the vectors that came back, and touches no other response. */
  lemma {:induction false} DeliverOutcome(responses: map<Req, Option<Bytes>>, bit: nat, sections: seq<nat>, bitsets: seq<Bytes>, q: Req)
    requires |sections| == |bitsets| && Sorted(sections) && AllWanted(responses, bit, sections)
    ensures var after, v := Deliver(responses, bit, sections, bitsets), Brought(bit, sections, bitsets, q);
            && (q in after <==> q in responses)
            && (q in responses ==> after[q] == if v == [] then responses[q] else Some(v))
            && (q in Closes(responses, bit, sections, bitsets) <==> v != [])
    decreases |sections|
  {
    if sections != [] {
      var n := |sections| - 1;
      var last := Req(bit, sections[n]);
      SortedFront(sections);
      assert AllWanted(responses, bit, sections[..n]);
      assert Wanted(responses, last);
      DeliverOutcome(responses, bit, sections[..n], bitsets[..n], q);
      DeliverOutcome(responses, bit, sections[..n], bitsets[..n], last);
      BroughtIs(bit, sections[..n], bitsets[..n], last);
    }
  }

  lemma NoDupAppend(c: seq<Req>, q: Req)
    requires NoDup(c) && q !in c
    ensures NoDup(c + [q])
  {
  }

  /** It closes the done channel of each of them once. */
  lemma {:induction false} ClosesOnce(responses: map<Req, Option<Bytes>>, bit: nat, sections: seq<nat>, bitsets: seq<Bytes>)
    requires |sections| == |bitsets| && Sorted(sections) && AllWanted(responses, bit, sections)
    ensures NoDup(Closes(responses, bit, sections, bitsets))
    decreases |sections|
  {
    if sections != [] {
      var n := |sections| - 1;
      var before, last := Closes(responses, bit, sections[..n], bitsets[..n]), Req(bit, sections[n]);
      SortedFront(sections);
      assert AllWanted(responses, bit, sections[..n]);
      ClosesOnce(responses, bit, sections[..n], bitsets[..n]);
      DeliverOutcome(responses, bit, sections[..n], bitsets[..n], last);
      BroughtIs(bit, sections[..n], bitsets[..n], last);
      NoDupAppend(before, last);
    }
  }

  lemma FlyingWanted(s: State, f: nat)
    requires OnePlace(s) && f in s.fetchers && s.fetchers[f].Holding?
    ensures AllWanted(s.responses, s.fetchers[f].bit, s.fetchers[f].sections)
    ensures forall q :: q in Reqs(s.fetchers[f].bit, s.fetchers[f].sections) ==> forall x :: Is(s, q, x) <==> x == InFlight(f)
  {
    var bit, sections := s.fetchers[f].bit, s.fetchers[f].sections;
    forall i | 0 <= i < |sections| ensures Wanted(s.responses, Req(bit, sections[i])) {
      assert Is(s, Req(bit, sections[i]), InFlight(f));
    }
    forall q | q in Reqs(bit, sections) ensures forall x :: Is(s, q, x) <==> x == InFlight(f) {
      assert Is(s, q, InFlight(f));
    }
  }

  lemma Gone(fetchers: map<nat, Fetcher>, f: nat)
    requires f in fetchers && fetchers[f].Holding?
    ensures |fetchers - {f}| == |fetchers| - 1
    ensures forall h: nat, b: nat :: Holds(fetchers - {f}, h, b) <==> Holds(fetchers, h, b)
    ensures forall q, h: nat :: Flying(fetchers - {f}, q, h) <==> h != f && Flying(fetchers, q, h)
  {
    assert (fetchers - {f}).Keys == fetchers.Keys - {f};
    forall h: nat, b: nat ensures Holds(fetchers - {f}, h, b) <==> Holds(fetchers, h, b) {}
    forall q, h: nat ensures Flying(fetchers - {f}, q, h) <==> h != f && Flying(fetchers, q, h) {}
  }

  lemma GoneAllocs(d: Dist, fetchers: map<nat, Fetcher>, f: nat, quit: bool)
    requires AllocsRight(d, fetchers) && QueuesHeld(d, fetchers, quit) && f in fetchers && fetchers[f].Holding?
    ensures AllocsRight(d.(allocs := d.allocs - 1), fetchers - {f}) && QueuesHeld(d.(allocs := d.allocs - 1), fetchers - {f}, quit)
  {
    Gone(fetchers, f);
    forall b: nat | HeldBy(d.unallocs, fetchers, b) ensures HeldBy(d.unallocs, fetchers - {f}, b) {
      if b !in d.unallocs {
        var h: nat :| Holds(fetchers, h, b);
        assert Holds(fetchers - {f}, h, b);
      }
    }
  }

  lemma {:induction false} InsertAllLength(q: seq<nat>, missing: seq<nat>)
    ensures |InsertAll(q, missing)| == |q| + |missing|
    decreases |missing|
  {
    if missing != [] {
      InsertAllLength(q, missing[..|missing| - 1]);
      InsertMembers(InsertAll(q, missing[..|missing| - 1]), missing[|missing| - 1]);
    }
  }

  lemma DeliveryAllocs(d: Dist, fetchers: map<nat, Fetcher>, f: nat, bit: nat, missing: seq<nat>, waiting: bool, g: nat, quit: bool)
    requires AllocsRight(d, fetchers) && QueuesHeld(d, fetchers, quit) && f in fetchers && fetchers[f].Holding? && g !in fetchers
    ensures var some := waiting && missing != [] && Queue(d.requests, bit) == [];
            var after := if some then (fetchers - {f})[g := Assigned(bit)] else fetchers - {f};
            AllocsRight(OnDelivery(d, bit, missing, waiting), after) && QueuesHeld(OnDelivery(d, bit, missing, waiting), after, quit)
  {
    var e, mid := d.(allocs := d.allocs - 1), fetchers - {f};
    GoneAllocs(d, fetchers, f, quit);
    if missing != [] {
      InsertAllLength(Queue(d.requests, bit), missing);
      QueueFilled(e, mid, bit, InsertAll(Queue(d.requests, bit), missing), waiting, g, quit);
    }
  }

  lemma DeliveryQueue(d: Dist, bit: nat, missing: seq<nat>, waiting: bool)
    requires QueuesSorted(d.requests) && Sorted(missing) && forall s: nat :: s in missing ==> s !in Queue(d.requests, bit)
    ensures QueuesSorted(OnDelivery(d, bit, missing, waiting).requests)
    ensures forall q: Req :: q.section in Queue(OnDelivery(d, bit, missing, waiting).requests, q.bit) <==>
                               q.section in Queue(d.requests, q.bit) || (q.bit == bit && q.section in missing)
  {
    QueueIsSorted(d.requests, bit);
    InsertAllSorted(Queue(d.requests, bit), missing);
  }

  /** After a delivery: what came back is nowhere, what is missing is queued again, the rest did not move. */
  lemma DeliveryMoves(s: State, t: State, f: nat, missing: seq<nat>)
    requires OnePlace(s) && f in s.fetchers && s.fetchers[f].Holding? && t.streams == s.streams && t.channel == s.channel
    requires forall m: nat :: m in missing ==> m in s.fetchers[f].sections
    requires forall q, h: nat :: Flying(t.fetchers, q, h) <==> h != f && Flying(s.fetchers, q, h)
    requires forall q: Req :: q.section in Queue(t.dist.requests, q.bit) <==>
                                q.section in Queue(s.dist.requests, q.bit) || (q.bit == s.fetchers[f].bit && q.section in missing)
    ensures var bit, sections := s.fetchers[f].bit, s.fetchers[f].sections;
            forall q, x :: Is(t, q, x) <==> if q in Reqs(bit, sections) then q.section in missing && x == InQueue else Is(s, q, x)
  {
    var bit, sections := s.fetchers[f].bit, s.fetchers[f].sections;
    FlyingWanted(s, f);
    forall q, x ensures Is(t, q, x) <==> if q in Reqs(bit, sections) then q.section in missing && x == InQueue else Is(s, q, x) {
      assert q in Reqs(bit, sections) ==> (Is(s, q, x) <==> x == InFlight(f));
    }
  }

  lemma DeliveryOnePlace(s: State, t: State, moved: set<Req>, missing: seq<nat>)
    requires OnePlace(s)
    requires forall q, x :: Is(t, q, x) <==> if q in moved then q.section in missing && x == InQueue else Is(s, q, x)
    requires forall q :: Wanted(t.responses, q) <==> if q in moved then q.section in missing else Wanted(s.responses, q)
    ensures OnePlace(t)
  {
    forall q | Wanted(t.responses, q) ensures exists x :: Is(t, q, x) {
      if q in moved {
        assert Is(t, q, InQueue);
      } else {
        var x :| Is(s, q, x);
        assert Is(t, q, x);
      }
    }
  }

  lemma DeliveryWanted(s: State, f: nat, bitsets: seq<Bytes>)
    requires Places(s) && f in s.fetchers && s.fetchers[f].Holding? && |bitsets| == |s.fetchers[f].sections|
    ensures var bit, sections := s.fetchers[f].bit, s.fetchers[f].sections;
            var after := Deliver(s.responses, bit, sections, bitsets);
            forall q :: Wanted(after, q) <==>
              if q in Reqs(bit, sections) then q.section in Missing(sections, bitsets) else Wanted(s.responses, q)
  {
    var bit, sections := s.fetchers[f].bit, s.fetchers[f].sections;
    FlyingWanted(s, f);
    forall q ensures Wanted(Deliver(s.responses, bit, sections, bitsets), q) <==>
      if q in Reqs(bit, sections) then q.section in Missing(sections, bitsets) else Wanted(s.responses, q)
    {
      DeliverOutcome(s.responses, bit, sections, bitsets, q);
      BroughtIs(bit, sections, bitsets, q);
      if q in Reqs(bit, sections) { assert Is(s, q, InFlight(f)); }
    }
  }

  lemma MissingNotQueued(s: State, f: nat, bitsets: seq<Bytes>)
    requires Places(s) && f in s.fetchers && s.fetchers[f].Holding? && |bitsets| == |s.fetchers[f].sections|
    ensures var missing := Missing(s.fetchers[f].sections, bitsets);
            && Sorted(missing) && (forall m: nat :: m in missing ==> m in s.fetchers[f].sections)
            && forall m: nat :: m in missing ==> m !in Queue(s.dist.requests, s.fetchers[f].bit)
  {
    var bit, missing := s.fetchers[f].bit, Missing(s.fetchers[f].sections, bitsets);
    MissingSorted(s.fetchers[f].sections, bitsets);
    forall m: nat | m in missing ensures m !in Queue(s.dist.requests, bit) {
      assert Is(s, Req(bit, m), InFlight(f));
      assert !Is(s, Req(bit, m), InQueue);
    }
  }

  lemma DeliveryPlaces(s: State, f: nat, bitsets: seq<Bytes>, waiting: bool, g: nat)
    requires Places(s) && Enabled(s, TakeDelivery(f, bitsets, waiting, g))
    ensures OnePlace(Next(s, TakeDelivery(f, bitsets, waiting, g)))
  {
    var t := Next(s, TakeDelivery(f, bitsets, waiting, g));
    var bit, sections := s.fetchers[f].bit, s.fetchers[f].sections;
    MissingNotQueued(s, f, bitsets);
    DeliveryQueue(s.dist, bit, Missing(sections, bitsets), waiting);
    Gone(s.fetchers, f);
    NewHolderFliesNothing(s.fetchers - {f}, g, bit);
    DeliveryMoves(s, t, f, Missing(sections, bitsets));
    DeliveryWanted(s, f, bitsets);
    DeliveryOnePlace(s, t, Reqs(bit, sections), Missing(sections, bitsets));
  }

  lemma DeliverySorted(s: State, f: nat, bitsets: seq<Bytes>, waiting: bool, g: nat)
    requires Places(s) && Enabled(s, TakeDelivery(f, bitsets, waiting, g))
    ensures var t := Next(s, TakeDelivery(f, bitsets, waiting, g));
            QueuesSorted(t.dist.requests) && FetchersSorted(t.fetchers) && t.channel == s.channel
  {
    MissingNotQueued(s, f, bitsets);
    DeliveryQueue(s.dist, s.fetchers[f].bit, Missing(s.fetchers[f].sections, bitsets), waiting);
  }

  lemma DeliveryHistory(s: State, f: nat, bitsets: seq<Bytes>, waiting: bool, g: nat)
    requires Inv(s) && Enabled(s, TakeDelivery(f, bitsets, waiting, g))
    ensures HistoryRight(Next(s, TakeDelivery(f, bitsets, waiting, g)))
  {
    var t := Next(s, TakeDelivery(f, bitsets, waiting, g));
    var bit, sections := s.fetchers[f].bit, s.fetchers[f].sections;
    var c := Closes(s.responses, bit, sections, bitsets);
    FlyingWanted(s, f);
    ClosesOnce(s.responses, bit, sections, bitsets);
    forall q ensures (q in t.responses <==> q in s.responses) && (q in c ==> q !in s.closed)
                     && (q in s.closed + c <==> q in t.responses && t.responses[q].Some?)
    {
      DeliverOutcome(s.responses, bit, sections, bitsets, q);
      BroughtIs(bit, sections, bitsets, q);
    }
    NoDupConcat(s.closed, c);
  }

  lemma NoDupConcat(a: seq<Req>, b: seq<Req>)
    requires NoDup(a) && NoDup(b) && forall q :: q in b ==> q !in a
    ensures NoDup(a + b)
  {
    forall i, j | 0 <= i < j < |a + b| ensures (a + b)[i] != (a + b)[j] {
      if i < |a| <= j { assert a[i] in a && b[j - |a|] in b; }
    }
  }

  /** A cached vector is never changed. */
  lemma CachedStays(s: State, f: nat, bitsets: seq<Bytes>, q: Req)
    requires Places(s) && f in s.fetchers && s.fetchers[f].Holding? && |bitsets| == |s.fetchers[f].sections|
    requires q in s.responses && s.responses[q].Some?
    ensures var after := Deliver(s.responses, s.fetchers[f].bit, s.fetchers[f].sections, bitsets);
            q in after && after[q] == s.responses[q]
  {
    var bit, sections := s.fetchers[f].bit, s.fetchers[f].sections;
    FlyingWanted(s, f);
    DeliverOutcome(s.responses, bit, sections, bitsets, q);
    BroughtIs(bit, sections, bitsets, q);
  }

  lemma DeliveryStreams(s: State, f: nat, bitsets: seq<Bytes>, waiting: bool, g: nat)
    requires Inv(s) && Enabled(s, TakeDelivery(f, bitsets, waiting, g))
    ensures StreamsRight(Next(s, TakeDelivery(f, bitsets, waiting, g)))
  {
    var t := Next(s, TakeDelivery(f, bitsets, waiting, g));
    FlyingWanted(s, f);
    forall q ensures (q in t.responses <==> q in s.responses) && (q in s.responses && s.responses[q].Some? ==> t.responses[q] == s.responses[q]) {
      DeliverOutcome(s.responses, s.fetchers[f].bit, s.fetchers[f].sections, bitsets, q);
      if q in s.responses && s.responses[q].Some? { CachedStays(s, f, bitsets, q); }
    }
    forall r | 0 <= r < |t.streams| ensures StreamRight(t.responses, t.streams[r]) {
      StreamStays(s.responses, t.responses, s.streams[r]);
    }
  }

  lemma StreamStays(responses: map<Req, Option<Bytes>>, after: map<Req, Option<Bytes>>, t: Stream)
    requires StreamRight(responses, t)
    requires forall q :: (q in after <==> q in responses) && (q in responses && responses[q].Some? ==> after[q] == responses[q])
    ensures StreamRight(after, t)
  {
  }

  lemma DeliveryKeeps(s: State, f: nat, bitsets: seq<Bytes>, waiting: bool, g: nat)
    requires Inv(s) && Enabled(s, TakeDelivery(f, bitsets, waiting, g))
    ensures Inv(Next(s, TakeDelivery(f, bitsets, waiting, g)))
  {
    DeliveryPlaces(s, f, bitsets, waiting, g);
    DeliverySorted(s, f, bitsets, waiting, g);
    DeliveryHistory(s, f, bitsets, waiting, g);
    DeliveryStreams(s, f, bitsets, waiting, g);
    DeliveryGraceful(s, f, bitsets, waiting, g);
  }

  lemma DeliveryGraceful(s: State, f: nat, bitsets: seq<Bytes>, waiting: bool, g: nat)
    requires Allocs(s) && Enabled(s, TakeDelivery(f, bitsets, waiting, g))
    ensures Allocs(Next(s, TakeDelivery(f, bitsets, waiting, g)))
  {
    DeliveryAllocs(s.dist, s.fetchers, f, s.fetchers[f].bit, Missing(s.fetchers[f].sections, bitsets), waiting, g, s.quit);
  }
}
