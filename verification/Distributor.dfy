/** The distributor goroutine of blockchain/bloombits/matcher.go and the scheduler of scheduler.go as objects;
    each case of the select loop and each locked section is a method. */
module Distributor {
  import opened Common
  import opened Bits
  import opened Retrieval

  // ---------------------------------------------------------------- ordered queues

  /** What sort.Search needs of a queue; an entry may occur more than once. */
  predicate Ordered(q: seq<nat>) {
    forall i, j :: 0 <= i < j < |q| ==> q[i] <= q[j]
  }

  lemma InsertOrdered(q: seq<nat>, section: nat)
    requires Ordered(q)
    ensures Ordered(Insert(q, section))
  {
    var r := Insert(q, section);
    forall i, j | 0 <= i < j < |r| ensures r[i] <= r[j] {
      InsertAt(q, section, i);
      InsertAt(q, section, j);
    }
  }

  lemma {:induction false} InsertAllOrdered(q: seq<nat>, missing: seq<nat>)
    requires Ordered(q)
    ensures Ordered(InsertAll(q, missing))
    decreases |missing|
  {
    if missing != [] {
      InsertAllOrdered(q, missing[..|missing| - 1]);
      InsertOrdered(InsertAll(q, missing[..|missing| - 1]), missing[|missing| - 1]);
    }
  }

  /** The part of a delivery that is not empty, and its vectors. */
  function Found(sections: seq<nat>, bitsets: seq<Bytes>): (r: (seq<nat>, seq<Bytes>))
    requires |sections| == |bitsets|
    ensures |r.0| == |r.1|
    decreases |sections|
  {
    if sections == [] then ([], [])
    else
      var n := |sections| - 1;
      var before := Found(sections[..n], bitsets[..n]);
      if bitsets[n] == [] then before else (before.0 + [sections[n]], before.1 + [bitsets[n]])
  }

  /** The scheduler takes from it what it takes from the whole delivery. */
  lemma {:induction false} FoundDelivers(responses: map<Req, Option<Bytes>>, bit: nat, sections: seq<nat>, bitsets: seq<Bytes>)
    requires |sections| == |bitsets|
    ensures var found := Found(sections, bitsets);
            Deliver(responses, bit, found.0, found.1) == Deliver(responses, bit, sections, bitsets)
    decreases |sections|
  {
    if sections != [] {
      var n := |sections| - 1;
      FoundDelivers(responses, bit, sections[..n], bitsets[..n]);
      var before, found := Found(sections[..n], bitsets[..n]), Found(sections, bitsets);
      if bitsets[n] != [] {
        assert found.0[..|found.0| - 1] == before.0 && found.1[..|found.1| - 1] == before.1;
        assert found.1[|found.1| - 1] == bitsets[n];
      }
    }
  }

  /** The delivery has this vector for this section. */
  predicate CameBack(sections: seq<nat>, bitsets: seq<Bytes>, section: nat, vector: Bytes)
    requires |sections| == |bitsets|
  {
    exists i :: 0 <= i < |sections| && sections[i] == section && bitsets[i] == vector
  }

  lemma CameBackLast(sections: seq<nat>, bitsets: seq<Bytes>, section: nat, vector: Bytes)
    requires |sections| == |bitsets| > 0
    ensures var n := |sections| - 1;
            CameBack(sections, bitsets, section, vector) <==>
              CameBack(sections[..n], bitsets[..n], section, vector) || (sections[n] == section && bitsets[n] == vector)
  {
    var n := |sections| - 1;
    if i :| 0 <= i < n && sections[..n][i] == section && bitsets[..n][i] == vector {
      assert sections[i] == section && bitsets[i] == vector;
    }
    if i :| 0 <= i < |sections| && sections[i] == section && bitsets[i] == vector && i < n {
      assert sections[..n][i] == section && bitsets[..n][i] == vector;
    }
  }

  /** A section is missing exactly if it came back with an empty vector. */
  lemma {:induction false} MissingIff(sections: seq<nat>, bitsets: seq<Bytes>, section: nat)
    requires |sections| == |bitsets|
    ensures section in Missing(sections, bitsets) <==> CameBack(sections, bitsets, section, [])
    decreases |sections|
  {
    if sections != [] {
      MissingIff(sections[..|sections| - 1], bitsets[..|sections| - 1], section);
      CameBackLast(sections, bitsets, section, []);
    }
  }

  /** What is handed on came back so, and is not empty. */
  lemma {:induction false} FoundCameBack(sections: seq<nat>, bitsets: seq<Bytes>, k: nat)
    requires |sections| == |bitsets| && k < |Found(sections, bitsets).0|
    ensures var found := Found(sections, bitsets); found.1[k] != [] && CameBack(sections, bitsets, found.0[k], found.1[k])
    decreases |sections|
  {
    var n := |sections| - 1;
    var before, found := Found(sections[..n], bitsets[..n]), Found(sections, bitsets);
    CameBackLast(sections, bitsets, found.0[k], found.1[k]);
    if k < |before.0| { FoundCameBack(sections[..n], bitsets[..n], k); }
  }

  /** Nothing of a delivery gets lost: it is handed on or missing. */
  lemma {:induction false} FoundOrMissing(sections: seq<nat>, bitsets: seq<Bytes>)
    requires |sections| == |bitsets|
    ensures multiset(Found(sections, bitsets).0) + multiset(Missing(sections, bitsets)) == multiset(sections)
    decreases |sections|
  {
    if sections != [] {
      var n := |sections| - 1;
      FoundOrMissing(sections[..n], bitsets[..n]);
      assert sections == sections[..n] + [sections[n]];
      OneMoreOf(Found(sections[..n], bitsets[..n]).0, Missing(sections[..n], bitsets[..n]), sections[..n], sections[n]);
    }
  }

  lemma OneMoreOf(found: seq<nat>, missing: seq<nat>, all: seq<nat>, section: nat)
    requires multiset(found) + multiset(missing) == multiset(all)
    ensures multiset(found + [section]) + multiset(missing) == multiset(all + [section])
    ensures multiset(found) + multiset(missing + [section]) == multiset(all + [section])
  {
  }

  lemma InsertMultiset(q: seq<nat>, section: nat)
    ensures multiset(Insert(q, section)) == multiset(q) + multiset{section}
  {
    var index := Search(q, section, 0);
    assert q == q[..index] + q[index..];
  }

  lemma {:induction false} InsertAllMultiset(q: seq<nat>, missing: seq<nat>)
    ensures multiset(InsertAll(q, missing)) == multiset(q) + multiset(missing)
    decreases |missing|
  {
    if missing != [] {
      var front, last := missing[..|missing| - 1], missing[|missing| - 1];
      InsertAllMultiset(q, front);
      InsertMultiset(InsertAll(q, front), last);
      assert missing == front + [last];
    }
  }

  /** The bit goes to a waiting fetcher, which is counted, or is noted. */
  predicate GivenOut(d: Dist, e: Dist, bit: nat, waiting: bool) {
    if waiting then e.allocs == d.allocs + 1 && e.unallocs == d.unallocs && e.listening == d.listening
    else e.allocs == d.allocs && e.unallocs == d.unallocs + {bit} && e.listening
  }

  predicate NotGivenOut(d: Dist, e: Dist) {
    e.allocs == d.allocs && e.unallocs == d.unallocs && e.listening == d.listening
  }

  ghost predicate OtherQueuesSame(d: Dist, e: Dist, bit: nat) {
    forall b :: b != bit ==> Queue(e.requests, b) == Queue(d.requests, b)
  }

  /** These sections are filed under their bit, and the bit is given out exactly if it was without requests. */
  ghost predicate Filed(d: Dist, e: Dist, bit: nat, sections: seq<nat>, waiting: bool) {
    && multiset(Queue(e.requests, bit)) == multiset(Queue(d.requests, bit)) + multiset(sections)
    && OtherQueuesSame(d, e, bit)
    && (if sections != [] && Queue(d.requests, bit) == [] then GivenOut(d, e, bit, waiting) else NotGivenOut(d, e))
  }

  lemma RequestFiled(d: Dist, q: Req, waiting: bool)
    ensures Filed(d, OnRequest(d, q, waiting), q.bit, [q.section], waiting)
  {
    InsertMultiset(Queue(d.requests, q.bit), q.section);
  }

  lemma InsertAllLength(q: seq<nat>, missing: seq<nat>)
    ensures |InsertAll(q, missing)| == |q| + |missing|
  {
    InsertAllMultiset(q, missing);
    assert |multiset(InsertAll(q, missing))| == |multiset(q)| + |multiset(missing)|;
  }

  /** A delivery ends one fetch, and what is missing is filed again. */
  lemma DeliveryFiled(d: Dist, bit: nat, missing: seq<nat>, waiting: bool)
    ensures Filed(d.(allocs := d.allocs - 1), OnDelivery(d, bit, missing, waiting), bit, missing, waiting)
  {
    var queue := Queue(d.requests, bit);
    if missing != [] {
      InsertAllLength(queue, missing);
      InsertAllMultiset(queue, missing);
      assert Queue(OnDelivery(d, bit, missing, waiting).requests, bit) == InsertAll(queue, missing);
    }
  }

  // ---------------------------------------------------------------- the objects

  class Distributor {
    var requests: map<nat, seq<nat>>
    var unallocs: set<nat>
    var retrievers: bool
    var allocs: int

    function View(): Dist
      reads this
    {
      Dist(requests, unallocs, retrievers, allocs)
    }

    predicate Valid()
      reads this
    {
      forall bit :: bit in requests ==> Ordered(requests[bit])
    }

    constructor ()
      ensures Valid() && View() == Dist(map[], {}, false, 0)
    {
      requests, unallocs, retrievers, allocs := map[], {}, false, 0;
    }

    method Assign(bit: nat, waiting: bool)
      modifies this`allocs, this`retrievers, this`unallocs
      ensures View() == Retrieval.Assign(old(View()), bit, waiting)
    {
      if waiting {
        allocs := allocs + 1;
      } else {
        retrievers := true;
        unallocs := unallocs + {bit};
      }
    }

    /** sort.Search by halving, as in Go's library. */
    method SearchSections(queue: seq<nat>, section: nat) returns (index: nat)
      requires Ordered(queue)
      ensures index == Search(queue, section, 0)
    {
      var i, j := 0, |queue|;
      while i < j
        invariant 0 <= i <= j <= |queue|
        invariant forall k :: 0 <= k < i ==> queue[k] < section
        invariant forall k :: j <= k < |queue| ==> queue[k] >= section
      {
        var h := (i + j) / 2;
        if queue[h] >= section { j := h; } else { i := h + 1; }
      }
      index := i;
      SearchIs(queue, section, 0, i);
    }

    method OnRequest(bit: nat, section: nat, waiting: bool)
      requires Valid()
      modifies this
      ensures Valid() && View() == Retrieval.OnRequest(old(View()), Req(bit, section), waiting)
      ensures Filed(old(View()), View(), bit, [section], waiting)
    {
      RequestFiled(View(), Req(bit, section), waiting);
      var queue := if bit in requests then requests[bit] else [];
      var index := SearchSections(queue, section);
      InsertOrdered(queue, section);
      requests := requests[bit := queue[..index] + [section] + queue[index..]];
      if |queue| == 0 { Assign(bit, waiting); }
    }

    /** The bit with the lowest first request, whatever the order of the iteration. */
    method PickBit() returns (bit: nat)
      requires unallocs != {} && forall b :: b in unallocs ==> b in requests && requests[b] != []
      ensures Lowest(View(), bit)
      ensures bit in unallocs && forall b :: b in unallocs ==> requests[bit][0] <= requests[b][0]
    {
      bit :| bit in unallocs;
      var rest := unallocs - {bit};
      while rest != {}
        invariant rest <= unallocs && bit in unallocs
        invariant forall b :: b in unallocs && b !in rest ==> requests[bit][0] <= requests[b][0]
        decreases rest
      {
        var idx :| idx in rest;
        if requests[idx][0] < requests[bit][0] { bit := idx; }
        rest := rest - {idx};
      }
    }

    method OnRetriever() returns (bit: nat)
      requires Valid() && unallocs != {} && forall b :: b in unallocs ==> b in requests && requests[b] != []
      modifies this
      ensures Lowest(old(View()), bit)
      ensures Valid() && View() == Retrieval.OnRetriever(old(View()), bit)
    {
      bit := PickBit();
      unallocs := unallocs - {bit};
      if |unallocs| == 0 { retrievers := false; }
      allocs := allocs + 1;
    }

    method OnTask(bit: nat, want: nat, waiting: bool) returns (sections: seq<nat>)
      requires Valid()
      modifies this
      ensures sections + Queue(requests, bit) == old(Queue(requests, bit)) && OtherQueuesSame(old(View()), View(), bit)
      ensures |sections| == if want < |old(Queue(requests, bit))| then want else |old(Queue(requests, bit))|
      ensures if Queue(requests, bit) != [] then GivenOut(old(View()), View(), bit, waiting) else NotGivenOut(old(View()), View())
      ensures sections == Taken(old(View()), bit, want)
      ensures Valid() && View() == Retrieval.OnTask(old(View()), bit, want, waiting)
    {
      var queue := if bit in requests then requests[bit] else [];
      if want >= |queue| {
        sections := queue;
        requests := requests - {bit};
      } else {
        sections := queue[..want];
        requests := requests[bit := queue[want..]];
        Assign(bit, waiting);
      }
    }

    /** The loop over the vectors of a delivery: what came back empty, and the rest. */
    method Split(sections: seq<nat>, bitsets: seq<Bytes>) returns (found: seq<nat>, data: seq<Bytes>, missing: seq<nat>)
      requires |bitsets| <= |sections|
      ensures (found, data) == Found(sections[..|bitsets|], bitsets)
      ensures missing == Missing(sections[..|bitsets|], bitsets)
    {
      found, data, missing := [], [], [];
      for i := 0 to |bitsets|
        invariant (found, data) == Found(sections[..i], bitsets[..i])
        invariant missing == Missing(sections[..i], bitsets[..i])
      {
        assert sections[..i + 1][..i] == sections[..i] && bitsets[..i + 1][..i] == bitsets[..i];
        if |bitsets[i]| == 0 {
          missing := missing + [sections[i]];
        } else {
          found, data := found + [sections[i]], data + [bitsets[i]];
        }
      }
      assert bitsets[..|bitsets|] == bitsets;
    }

    /** The missing sections go back into the queue one by one. */
    method Requeue(queue0: seq<nat>, missing: seq<nat>) returns (queue: seq<nat>)
      requires Ordered(queue0)
      ensures queue == InsertAll(queue0, missing)
    {
      queue := queue0;
      for i := 0 to |missing|
        invariant queue == InsertAll(queue0, missing[..i])
      {
        InsertAllOrdered(queue0, missing[..i]);
        var index := SearchSections(queue, missing[i]);
        queue := queue[..index] + [missing[i]] + queue[index..];
        assert missing[..i + 1][..i] == missing[..i];
      }
      assert missing[..|missing|] == missing;
    }

    /** A delivery: what was found is handed to the scheduler of the bit, what is missing goes back, and the bit
        is given out or noted if it was without requests. Any sections may come back, in any order. */
    method OnDelivery(bit: nat, sections: seq<nat>, bitsets: seq<Bytes>, waiting: bool)
        returns (found: seq<nat>, data: seq<Bytes>)
      requires Valid() && |bitsets| <= |sections|
      modifies this
      ensures (found, data) == Found(sections[..|bitsets|], bitsets)
      ensures Valid() && View() == Retrieval.OnDelivery(old(View()), bit, Missing(sections[..|bitsets|], bitsets), waiting)
    {
      var missing;
      found, data, missing := Split(sections, bitsets);
      allocs := allocs - 1;
      if |missing| > 0 {
        var queue := Requeue(Queue(requests, bit), missing);
        InsertAllOrdered(Queue(requests, bit), missing);
        InsertAllLength(Queue(requests, bit), missing);
        requests := requests[bit := queue];
        if |queue| == |missing| { Assign(bit, waiting); }
      }
    }
  }

  /** The responses of one bit. */
  class Scheduler {
    const bit: nat
    var responses: map<nat, Option<Bytes>>

    constructor (idx: nat)
      ensures bit == idx && responses == map[]
    {
      bit, responses := idx, map[];
    }

    /** The locked part of scheduleRequests. */
    method Schedule(section: nat) returns (unique: bool)
      modifies this
      ensures unique <==> section !in old(responses)
      ensures responses == if unique then old(responses)[section := None] else old(responses)
    {
      unique := section !in responses;
      if unique { responses := responses[section := None]; }
    }

    method Deliver(sections: seq<nat>, data: seq<Bytes>)
      requires |sections| == |data|
      modifies this
      ensures forall s :: s in responses <==> s in old(responses)
      ensures forall s :: s in responses && old(responses)[s].Some? ==> responses[s] == old(responses)[s]
      ensures forall s :: s in responses && s !in sections ==> responses[s] == old(responses)[s]
      ensures forall s :: s in responses && old(responses)[s].None? && s in sections ==>
                exists i :: 0 <= i < |sections| && sections[i] == s && s !in sections[..i] && responses[s] == Some(data[i])
    {
      for i := 0 to |sections|
        invariant forall s :: s in responses <==> s in old(responses)
        invariant forall s :: s in responses && old(responses)[s].Some? ==> responses[s] == old(responses)[s]
        invariant forall s :: s in responses && s !in sections[..i] ==> responses[s] == old(responses)[s]
        invariant forall s :: s in responses && old(responses)[s].None? && s in sections[..i] ==>
                    exists j :: 0 <= j < i && sections[j] == s && s !in sections[..j] && responses[s] == Some(data[j])
      {
        var section := sections[i];
        assert sections[..i + 1] == sections[..i] + [section];
        if section in responses && responses[section].None? {
          responses := responses[section := Some(data[i])];
        }
      }
      assert sections[..|sections|] == sections;
    }

    /** Reset keeps exactly the cached vectors. */
    method Reset()
      modifies this
      ensures responses == map s | s in old(responses) && old(responses)[s].Some? :: old(responses)[s]
    {
      var keys := responses.Keys;
      while keys != {}
        invariant keys <= old(responses).Keys
        invariant responses == map s | s in old(responses) && (s in keys || old(responses)[s].Some?) :: old(responses)[s]
        decreases keys
      {
        var section :| section in keys;
        if responses[section].None? { responses := responses - {section}; }
        keys := keys - {section};
      }
    }
  }
}
