/** ChainIndexer of blockchain/chain_indexer.go: sections of the canonical chain are indexed by a
    background loop that releases the lock while it works, and reorg notices may land meanwhile. */
module Indexer {
  import opened Common
  import opened Chain

  /** The fields behind the lock. `heads` is the table of section heads, `count` the stored count. */
  datatype Index = Index(
    sectionSize: nat,
    confirmsReq: nat,
    storedSections: nat,
    knownSections: nat,
    cascadedHead: int,
    count: nat,
    heads: map<int, Hash>,
    update: bool,
    cascades: seq<(int, bool)>)

  /** The update loop: waiting, or working on a section without the lock. */
  datatype Worker = Idle | Working(section: nat, oldHead: Hash)

  datatype State = State(index: Index, worker: Worker)

  // ---------------------------------------------------------------- the code on values

  /** sectionHead: the zero hash when there is none; section -1 stands for the wrapped-around key. */
  function SectionHead(x: Index, section: int): Hash {
    if section in x.heads then x.heads[section] else Zero
  }

  /** The removal loop of SetValidSections. */
  function RemoveHeads(heads: map<int, Hash>, stored: nat, sections: nat): map<int, Hash>
    decreases stored
  {
    if stored <= sections then heads else RemoveHeads(heads - {stored - 1}, stored - 1, sections)
  }

  function WithSections(x: Index, sections: nat): Index {
    x.(count := sections, heads := RemoveHeads(x.heads, x.storedSections, sections), storedSections := sections)
  }

  function AfterNotice(x: Index, head: nat, reorg: bool): Index
    requires x.sectionSize > 0
  {
    if reorg then
      var changed := head / x.sectionSize;
      var y := if changed < x.knownSections then x.(knownSections := changed) else x;
      var z := if changed < y.storedSections then WithSections(y, changed) else y;
      var h := changed * x.sectionSize;
      if h < z.cascadedHead then z.(cascadedHead := h, cascades := z.cascades + [(h, true)]) else z
    else if head >= x.confirmsReq && (head + 1 - x.confirmsReq) / x.sectionSize > x.knownSections then
      x.(knownSections := (head + 1 - x.confirmsReq) / x.sectionSize, update := true)
    else x
  }

  /** ProcessSection: each read is what the database answered for the next number, and `commit` is the
      backend's verdict. The result is the hash of the last header, or nothing on an error. */
  function Process(number: nat, end: nat, lastHead: Hash, answers: seq<Option<Header>>, commit: bool): (r: Option<Hash>)
    decreases end - number
  {
    if number >= end then (if commit then Some(lastHead) else None)
    else if answers == [] || answers[0].None? then None
    else if answers[0].value.number != number || answers[0].value.parent != lastHead then None
    else Process(number + 1, end, Of(answers[0].value), answers[1..], commit)
  }

  function SectionResult(x: Index, section: nat, lastHead: Hash, answers: seq<Option<Header>>, commit: bool): Option<Hash> {
    Process(section * x.sectionSize, (section + 1) * x.sectionSize, lastHead, answers, commit)
  }

  /** The head of the update loop, up to the unlock. */
  function Begin(s: State): State {
    if s.worker.Idle? && s.index.update then
      var x := s.index.(update := false);
      if x.knownSections > x.storedSections then
        State(x, Working(x.storedSections, SectionHead(x, x.storedSections - 1)))
      else State(x, Idle)
    else s
  }

  predicate Commits(x: Index, w: Worker, newHead: Option<Hash>)
    requires w.Working?
  {
    newHead.Some? && w.oldHead == SectionHead(x, w.section - 1)
  }

  /** The tail of the update loop, from the second lock on. */
  function End(s: State, newHead: Option<Hash>): State
    requires s.worker.Working?
  {
    var x, w := s.index, s.worker;
    var y := if Commits(x, w, newHead) then
               var z := WithSections(x.(heads := x.heads[w.section := newHead.value]), w.section + 1);
               z.(cascadedHead := z.storedSections * z.sectionSize - 1,
                  cascades := z.cascades + [(z.storedSections * z.sectionSize - 1, false)])
             else x.(knownSections := x.storedSections);
    State(if y.knownSections > y.storedSections then y.(update := true) else y, Idle)
  }

  // ---------------------------------------------------------------- steps

  datatype Step =
    | HeadNotice(head: nat, reorg: bool)
    | BeginUpdate
    | EndUpdate(answers: seq<Option<Header>>, commit: bool)

  /** Notices take the lock between any two others; the section is processed without it. */
  function Next(s: State, step: Step): State
    requires s.index.sectionSize > 0
  {
    match step
    case HeadNotice(head, reorg) => s.(index := AfterNotice(s.index, head, reorg))
    case BeginUpdate => Begin(s)
    case EndUpdate(answers, commit) =>
      if s.worker.Working? then End(s, SectionResult(s.index, s.worker.section, s.worker.oldHead, answers, commit)) else s
  }

  // ---------------------------------------------------------------- linked sections

  /** `h` reached after `n` headers from `from`, each the parent of the next. */
  ghost predicate Descends(from: Hash, h: Hash, n: nat)
  {
    if n == 0 then h == from else h.Of? && Descends(from, h.header.parent, n - 1)
  }

  /** The section's head is the last header of a section-long chain on the previous section's head. */
  ghost predicate SectionLinked(x: Index, s: nat) {
    && SectionHead(x, s).Of?
    && SectionHead(x, s).header.number == (s + 1) * x.sectionSize - 1
    && Descends(SectionHead(x, s - 1), SectionHead(x, s), x.sectionSize)
  }

  /** Section heads exist exactly for the stored sections, and each is linked to the one before. */
  ghost predicate Valid(x: Index) {
    && x.sectionSize > 0
    && (forall k: int :: k in x.heads <==> 0 <= k < x.storedSections)
    && (forall k: nat :: k < x.storedSections ==> SectionLinked(x, k))
  }

  /** While a section is processed the stored count can only fall, and the captured head is the
      current one exactly as long as it has not. */
  ghost predicate Inv(s: State) {
    && Valid(s.index)
    && (s.worker.Working? ==>
          && s.index.storedSections <= s.worker.section
          && (s.worker.section > 0 ==> s.worker.oldHead.Of?)
          && (s.worker.section == 0 ==> s.worker.oldHead == Zero)
          && (s.worker.section == s.index.storedSections ==> s.worker.oldHead == SectionHead(s.index, s.worker.section - 1)))
  }

  lemma {:induction false} RemoveHeadsIs(heads: map<int, Hash>, stored: nat, sections: nat)
    ensures var r := RemoveHeads(heads, stored, sections);
            && (forall k: int :: k in r <==> k in heads && !(sections <= k < stored))
            && (forall k :: k in r ==> r[k] == heads[k])
    decreases stored
  {
    if stored > sections {
      var less: map<int, Hash> := heads - {stored - 1};
      RemoveHeadsIs(less, stored - 1, sections);
      assert forall k: int :: k in less <==> k in heads && k != stored - 1;
    }
  }

  lemma ShrinkKeepsValid(x: Index, sections: nat)
    requires Valid(x) && sections <= x.storedSections
    ensures Valid(WithSections(x, sections))
    ensures forall k: int :: k < sections ==> SectionHead(WithSections(x, sections), k) == SectionHead(x, k)
    ensures forall k: int :: k >= sections ==> SectionHead(WithSections(x, sections), k) == Zero
  {
    RemoveHeadsIs(x.heads, x.storedSections, sections);
    var y := WithSections(x, sections);
    forall k: nat | k < sections ensures SectionLinked(y, k) {
      assert SectionLinked(x, k);
    }
  }

  lemma SameHeadsKeepValid(x: Index, y: Index)
    requires Valid(x) && y.heads == x.heads && y.storedSections == x.storedSections && y.sectionSize == x.sectionSize
    ensures Valid(y)
  {
    forall k: nat | k < y.storedSections ensures SectionLinked(y, k) {
      assert SectionLinked(x, k);
    }
  }

  lemma NoticeKeepsInv(s: State, head: nat, reorg: bool)
    requires Inv(s)
    ensures Inv(s.(index := AfterNotice(s.index, head, reorg)))
  {
    var x := s.index;
    var y := AfterNotice(x, head, reorg);
    if reorg && head / x.sectionSize < x.storedSections {
      var changed := head / x.sectionSize;
      var k := if changed < x.knownSections then x.(knownSections := changed) else x;
      SameHeadsKeepValid(x, k);
      ShrinkKeepsValid(k, changed);
      SameHeadsKeepValid(WithSections(k, changed), y);
    } else {
      SameHeadsKeepValid(x, y);
    }
  }

  lemma {:induction false} ProcessDescends(number: nat, end: nat, lastHead: Hash, answers: seq<Option<Header>>, commit: bool)
    requires number <= end && Process(number, end, lastHead, answers, commit).Some?
    ensures var h := Process(number, end, lastHead, answers, commit).value;
            Descends(lastHead, h, end - number) && (number < end ==> h.Of? && h.header.number == end - 1)
    decreases end - number
  {
    if number < end {
      var first := answers[0].value;
      ProcessDescends(number + 1, end, Of(first), answers[1..], commit);
      var h := Process(number, end, lastHead, answers, commit).value;
      DescendsFrom(lastHead, first, h, end - number - 1);
    }
  }

  lemma {:induction false} DescendsFrom(from: Hash, first: Header, h: Hash, n: nat)
    requires first.parent == from && Descends(Of(first), h, n)
    ensures Descends(from, h, n + 1)
  {
    if n > 0 { DescendsFrom(from, first, h.header.parent, n - 1); }
  }

  /** Even when reorg notices landed while the lock was released, a section is committed exactly if it
      was processed and the stored count still equals the captured section. */
  lemma CommitIff(s: State, newHead: Option<Hash>)
    requires Inv(s) && s.worker.Working?
    ensures Commits(s.index, s.worker, newHead) <==> newHead.Some? && s.index.storedSections == s.worker.section
    ensures End(s, newHead).index.storedSections == s.index.storedSections + (if Commits(s.index, s.worker, newHead) then 1 else 0)
  {
  }

  lemma EndKeepsInv(s: State, answers: seq<Option<Header>>, commit: bool)
    requires Inv(s) && s.worker.Working?
    ensures Inv(End(s, SectionResult(s.index, s.worker.section, s.worker.oldHead, answers, commit)))
  {
    var x, w := s.index, s.worker;
    var n, size := w.section, x.sectionSize;
    var newHead := SectionResult(x, n, w.oldHead, answers, commit);
    var t := End(s, newHead);
    CommitIff(s, newHead);
    if Commits(x, w, newHead) {
      assert (n + 1) * size - n * size == size;
      ProcessDescends(n * size, (n + 1) * size, w.oldHead, answers, commit);
      var y := x.(heads := x.heads[n := newHead.value]);
      RemoveHeadsIs(y.heads, y.storedSections, n + 1);
      forall k: nat | k < t.index.storedSections ensures SectionLinked(t.index, k) {
        if k < n { assert SectionLinked(x, k); }
      }
    } else {
      SameHeadsKeepValid(x, t.index);
    }
  }

  lemma NextKeepsInv(s: State, step: Step)
    requires Inv(s)
    ensures Inv(Next(s, step)) && Next(s, step).index.sectionSize == s.index.sectionSize
  {
    match step
    case HeadNotice(head, reorg) => NoticeKeepsInv(s, head, reorg);
    case BeginUpdate =>
      var t := Begin(s);
      SameHeadsKeepValid(s.index, t.index);
      if t.worker.Working? && s.worker.Idle? && t.worker.section > 0 {
        assert SectionLinked(s.index, t.worker.section - 1);
      }
    case EndUpdate(answers, commit) =>
      if s.worker.Working? { EndKeepsInv(s, answers, commit); }
  }

  function Run(s: State, steps: seq<Step>): (r: State)
    requires Inv(s)
    ensures Inv(r)
    decreases |steps|
  {
    if steps == [] then s
    else
      var before := Run(s, steps[..|steps| - 1]);
      NextKeepsInv(before, steps[|steps| - 1]);
      Next(before, steps[|steps| - 1])
  }

  /** In every run the section heads are exactly those of the stored sections, and walking back whole
      sections from one head reaches the others. */
  lemma {:induction false} HeadsFormOneChain(x: Index, s: nat, j: nat)
    requires Valid(x) && j <= s < x.storedSections
    ensures SectionHead(x, j - 1) == Zero <==> j == 0
    ensures Descends(SectionHead(x, j - 1), SectionHead(x, s), Span(s + 1 - j, x.sectionSize))
    decreases s - j
  {
    assert SectionLinked(x, j);
    if j > 0 { assert SectionLinked(x, j - 1); }
    if j == s {
      assert (s + 1 - j) * x.sectionSize == x.sectionSize;
    } else {
      HeadsFormOneChain(x, s, j + 1);
      DescendsChain(SectionHead(x, j - 1), SectionHead(x, j), SectionHead(x, s), x.sectionSize, (s - j) * x.sectionSize);
      assert (s + 1 - j) * x.sectionSize == x.sectionSize + (s - j) * x.sectionSize;
    }
  }

  function Fresh(size: nat, confirms: nat): (s: State)
    requires size > 0
    ensures Inv(s)
  {
    State(Index(size, confirms, 0, 0, 0, 0, map[], false, []), Idle)
  }

  /** The length of so many sections. */
  function Span(sections: nat, size: nat): nat {
    sections * size
  }

  /** From the start, under any notices and any answers of the database: section heads exist exactly for the
      stored sections, and the head of section `s` is a descendant of that of section `j`, as many sections
      later as lie between them. */
  lemma HeadsInEveryRun(size: nat, confirms: nat, steps: seq<Step>, j: nat, s: nat)
    requires size > 0
    ensures var x := Run(Fresh(size, confirms), steps).index;
            && (s in x.heads <==> s < x.storedSections)
            && (j < s < x.storedSections ==> Descends(x.heads[j], x.heads[s], Span(s - j, x.sectionSize)))
  {
    HeadsChain(Run(Fresh(size, confirms), steps).index, j, s);
  }

  lemma HeadsChain(x: Index, j: nat, s: nat)
    requires Valid(x)
    ensures s in x.heads <==> s < x.storedSections
    ensures j < s < x.storedSections ==> j in x.heads && Descends(x.heads[j], x.heads[s], Span(s - j, x.sectionSize))
  {
    if j < s < x.storedSections { HeadsFormOneChain(x, s, j + 1); }
  }

  lemma {:induction false} DescendsChain(a: Hash, b: Hash, c: Hash, m: nat, n: nat)
    requires Descends(a, b, m) && Descends(b, c, n)
    ensures Descends(a, c, m + n)
    decreases n
  {
    if n > 0 { DescendsChain(a, b, c.header.parent, m, n - 1); }
  }

  // ---------------------------------------------------------------- what each operation does

  /** The number of the block after the section. */
  function SectionEnd(section: nat, size: nat): nat {
    Span(section + 1, size)
  }

  lemma AtMostQuotient(m: nat, n: nat, size: nat)
    requires size > 0
    ensures m <= n / size <==> Span(m, size) <= n
  {
    var q := n / size;
    assert n == q * size + n % size;
    if m <= q { Times(m, q, size); } else { Times(q + 1, m, size); }
  }

  lemma Times(m: nat, n: nat, size: nat)
    requires m <= n
    ensures m * size <= n * size
  {
  }

  /** A notice of a new head makes exactly those sections known that end at least `confirmsReq` blocks below it, and
      wakes the update loop exactly if that adds one. */
  lemma KnownIff(x: Index, head: nat, k: nat)
    requires x.sectionSize > 0
    ensures var y := AfterNotice(x, head, false);
            && (k < y.knownSections <==> k < x.knownSections || SectionEnd(k, x.sectionSize) + x.confirmsReq <= head + 1)
            && (y.update <==> x.update || y.knownSections > x.knownSections)
            && y == x.(knownSections := y.knownSections, update := y.update)
  {
    if head >= x.confirmsReq {
      AtMostQuotient(k + 1, head + 1 - x.confirmsReq, x.sectionSize);
    } else {
      assert SectionEnd(k, x.sectionSize) >= 1;
    }
  }

  /** A reorganisation down to number `head` leaves known and stored exactly those sections that end below it, with
      the heads they had. The children are told the end of the last whole section below, exactly if it is new. */
  lemma RevertOutcome(x: Index, head: nat, k: nat)
    requires Valid(x)
    ensures var y := AfterNotice(x, head, true);
            && (k < y.knownSections <==> k < x.knownSections && SectionEnd(k, x.sectionSize) <= head)
            && (k < y.storedSections <==> k < x.storedSections && SectionEnd(k, x.sectionSize) <= head)
            && SectionHead(y, k) == (if k < y.storedSections then SectionHead(x, k) else Zero)
    ensures var y := AfterNotice(x, head, true);
            && y.count == (if y.storedSections < x.storedSections then y.storedSections else x.count)
            && y.update == x.update
  {
    AtMostQuotient(k + 1, head, x.sectionSize);
    var changed := head / x.sectionSize;
    RevertedTo(x, head);
    if changed < x.storedSections { ShrinkKeepsValid(x, changed); }
  }

  lemma RevertedTo(x: Index, head: nat)
    requires x.sectionSize > 0
    ensures var y, changed := AfterNotice(x, head, true), head / x.sectionSize;
            && y.knownSections == (if changed < x.knownSections then changed else x.knownSections)
            && y.heads == (if changed < x.storedSections then WithSections(x, changed).heads else x.heads)
            && y.storedSections == (if changed < x.storedSections then changed else x.storedSections)
            && y.count == (if changed < x.storedSections then changed else x.count)
            && y.update == x.update && y.sectionSize == x.sectionSize
  {
  }

  /** `whole` sections lie below `head`. */
  lemma RevertCascades(x: Index, head: nat, whole: nat)
    requires x.sectionSize > 0 && Span(whole, x.sectionSize) <= head < SectionEnd(whole, x.sectionSize)
    ensures var y, end := AfterNotice(x, head, true), Span(whole, x.sectionSize);
            && y.cascadedHead == (if end < x.cascadedHead then end else x.cascadedHead)
            && y.cascades == x.cascades + (if end < x.cascadedHead then [(end, true)] else [])
  {
    AtMostQuotient(whole, head, x.sectionSize);
    AtMostQuotient(whole + 1, head, x.sectionSize);
    assert head / x.sectionSize == whole;
  }

  /** The update loop takes the first section that is not stored, exactly if it was woken and one is known. */
  lemma BeginOutcome(s: State)
    requires s.worker.Idle?
    ensures var t := Begin(s);
            && (t.worker.Working? <==> s.index.update && s.index.storedSections < s.index.knownSections)
            && (t.worker.Working? ==> t.worker.section == s.index.storedSections)
            && t.index == s.index.(update := false)
  {
  }

  /** A section that was processed on the head it was taken on becomes the last stored one, and the children are
      told its end. Any other one is not tried again before the next notice. */
  lemma EndOutcome(s: State, newHead: Option<Hash>)
    requires Inv(s) && s.worker.Working?
    ensures var x, y, n := s.index, End(s, newHead).index, s.worker.section;
            && End(s, newHead).worker == Idle
            && (if newHead.Some? && x.storedSections == n then
                  && y.storedSections == n + 1 && y.count == n + 1 && y.heads == x.heads[n as int := newHead.value]
                  && y.knownSections == x.knownSections && y.cascadedHead == SectionEnd(n, x.sectionSize) - 1
                  && y.cascades == x.cascades + [(y.cascadedHead, false)]
                else y == x.(knownSections := x.storedSections))
            && (y.update <==> x.update || y.knownSections > y.storedSections)
  {
    CommitIff(s, newHead);
    if newHead.Some? && s.index.storedSections == s.worker.section {
      RemoveHeadsIs(s.index.heads[s.worker.section as int := newHead.value], s.index.storedSections, s.worker.section + 1);
    }
  }

  function HashOf(answer: Option<Header>): Hash {
    if answer.Some? then Of(answer.value) else Zero
  }

  /** Answer `i` is the header of its number and linked to the one before. */
  predicate LinkedAt(number: nat, lastHead: Hash, answers: seq<Option<Header>>, i: nat)
    requires i < |answers|
  {
    && answers[i].Some? && answers[i].value.number == number + i
    && answers[i].value.parent == if i == 0 then lastHead else HashOf(answers[i - 1])
  }

  /** The database answered with linked headers of these numbers. */
  predicate Continuous(number: nat, end: nat, lastHead: Hash, answers: seq<Option<Header>>) {
    |answers| >= end - number && forall i: nat :: i < end - number ==> LinkedAt(number, lastHead, answers, i)
  }

  lemma ContinuousRest(number: nat, end: nat, lastHead: Hash, answers: seq<Option<Header>>)
    requires number < end && answers != []
    ensures Continuous(number, end, lastHead, answers) <==>
              LinkedAt(number, lastHead, answers, 0) && Continuous(number + 1, end, HashOf(answers[0]), answers[1..])
  {
    var next, rest, first := number + 1, answers[1..], HashOf(answers[0]);
    forall i: nat | i < |rest|
      ensures LinkedAt(next, first, rest, i) <==> LinkedAt(number, lastHead, answers, i + 1)
    {
      assert rest[i] == answers[i + 1];
      if i > 0 { assert rest[i - 1] == answers[i]; }
    }
    if LinkedAt(number, lastHead, answers, 0) && Continuous(next, end, first, rest) {
      forall i: nat | i < end - number ensures LinkedAt(number, lastHead, answers, i) {
        if i > 0 { assert LinkedAt(next, first, rest, i - 1); }
      }
    }
  }

  /** A section is processed exactly if all its headers are there, numbered and linked to the one before, and the
      backend commits; the result is the last of them. */
  lemma {:induction false} ProcessIff(number: nat, end: nat, lastHead: Hash, answers: seq<Option<Header>>, commit: bool)
    requires number <= end
    ensures Process(number, end, lastHead, answers, commit) ==
              if !commit || !Continuous(number, end, lastHead, answers) then None
              else Some(if number == end then lastHead else HashOf(answers[end - number - 1]))
    decreases end - number
  {
    if number < end && answers != [] {
      ContinuousRest(number, end, lastHead, answers);
      ProcessIff(number + 1, end, HashOf(answers[0]), answers[1..], commit);
    }
  }

  // ---------------------------------------------------------------- confirmations

  /** A notice of this run has `confirms` blocks on top of the section. */
  ghost predicate Confirmed(size: nat, confirms: nat, steps: seq<Step>, section: nat) {
    exists i :: 0 <= i < |steps| && steps[i].HeadNotice? && !steps[i].reorg && SectionEnd(section, size) + confirms <= steps[i].head + 1
  }

  lemma ConfirmedStays(size: nat, confirms: nat, steps: seq<Step>, section: nat)
    requires steps != [] && Confirmed(size, confirms, steps[..|steps| - 1], section)
    ensures Confirmed(size, confirms, steps, section)
  {
    var front := steps[..|steps| - 1];
    var i :| 0 <= i < |front| && front[i].HeadNotice? && !front[i].reorg && SectionEnd(section, size) + confirms <= front[i].head + 1;
    assert steps[i] == front[i];
  }

  /** The indexer knows of the section, has stored it, or works on it. */
  predicate Uses(s: State, section: nat) {
    section < s.index.knownSections || section < s.index.storedSections || (s.worker.Working? && section == s.worker.section)
  }

  lemma NewlyUsed(s: State, step: Step, section: nat)
    requires Inv(s) && Uses(Next(s, step), section) && !Uses(s, section)
    ensures step.HeadNotice? && !step.reorg && SectionEnd(section, s.index.sectionSize) + s.index.confirmsReq <= step.head + 1
  {
    match step
    case HeadNotice(head, reorg) =>
      if reorg { RevertOutcome(s.index, head, section); } else { KnownIff(s.index, head, section); }
    case BeginUpdate => if s.worker.Idle? { BeginOutcome(s); }
    case EndUpdate(answers, commit) =>
      if s.worker.Working? { EndOutcome(s, SectionResult(s.index, s.worker.section, s.worker.oldHead, answers, commit)); }
  }

  lemma {:induction false} RunKeepsSizes(s: State, steps: seq<Step>)
    requires Inv(s)
    ensures Run(s, steps).index.sectionSize == s.index.sectionSize && Run(s, steps).index.confirmsReq == s.index.confirmsReq
    decreases |steps|
  {
    if steps != [] {
      RunKeepsSizes(s, steps[..|steps| - 1]);
      NextKeepsInv(Run(s, steps[..|steps| - 1]), steps[|steps| - 1]);
    }
  }

  /** In every run from the start a section is known, taken by the update loop or stored only after a notice of a
      head with so many blocks on top of the section. */
  lemma {:induction false} ConfirmedInEveryRun(size: nat, confirms: nat, steps: seq<Step>, section: nat)
    requires size > 0 && Uses(Run(Fresh(size, confirms), steps), section)
    ensures Confirmed(size, confirms, steps, section)
    decreases |steps|
  {
    var o := Fresh(size, confirms);
    if steps != [] {
      var front, last := steps[..|steps| - 1], steps[|steps| - 1];
      if Uses(Run(o, front), section) {
        ConfirmedInEveryRun(size, confirms, front, section);
        ConfirmedStays(size, confirms, steps, section);
      } else {
        NewlyUsed(Run(o, front), last, section);
        RunKeepsSizes(o, front);
        assert steps[|steps| - 1] == last;
      }
    }
  }

  // ---------------------------------------------------------------- cascades

  /** The children were told last what `cascadedHead` says, and not more than is stored. */
  predicate CascadesRight(x: Index) {
    && x.cascadedHead <= Span(x.storedSections, x.sectionSize)
    && x.cascadedHead == if x.cascades == [] then 0 else x.cascades[|x.cascades| - 1].0
  }

  lemma RevertKeepsCascades(x: Index, head: nat)
    requires Valid(x) && CascadesRight(x)
    ensures CascadesRight(AfterNotice(x, head, true))
  {
    var whole, y := head / x.sectionSize, AfterNotice(x, head, true);
    AtMostQuotient(whole, head, x.sectionSize);
    AtMostQuotient(whole + 1, head, x.sectionSize);
    RevertCascades(x, head, whole);
  }

  lemma NextKeepsCascades(s: State, step: Step)
    requires Inv(s) && CascadesRight(s.index)
    ensures CascadesRight(Next(s, step).index)
  {
    match step
    case HeadNotice(head, reorg) =>
      if reorg { RevertKeepsCascades(s.index, head); } else { KnownIff(s.index, head, 0); }
    case BeginUpdate => if s.worker.Idle? { BeginOutcome(s); }
    case EndUpdate(answers, commit) =>
      if s.worker.Working? { EndOutcome(s, SectionResult(s.index, s.worker.section, s.worker.oldHead, answers, commit)); }
  }

  /** In every run what the children were told last is the end of a stored section or below. */
  lemma {:induction false} CascadesInEveryRun(size: nat, confirms: nat, steps: seq<Step>)
    requires size > 0
    ensures CascadesRight(Run(Fresh(size, confirms), steps).index)
    decreases |steps|
  {
    if steps != [] {
      CascadesInEveryRun(size, confirms, steps[..|steps| - 1]);
      NextKeepsCascades(Run(Fresh(size, confirms), steps[..|steps| - 1]), steps[|steps| - 1]);
    }
  }

  // ---------------------------------------------------------------- reorganisations

  datatype Notice = Notice(head: nat, reorg: bool)

  /** The notices that land while a section is processed. */
  function Noticed(s: State, notices: seq<Notice>): (r: State)
    requires Inv(s)
    ensures Inv(r) && r.worker == s.worker && r.index.sectionSize == s.index.sectionSize
    decreases |notices|
  {
    if notices == [] then s
    else
      var before, last := Noticed(s, notices[..|notices| - 1]), notices[|notices| - 1];
      NoticeKeepsInv(before, last.head, last.reorg);
      before.(index := AfterNotice(before.index, last.head, last.reorg))
  }

  /** A reorganisation below the section, that is, of a section that is stored already. */
  predicate Undoes(notice: Notice, size: nat, section: nat)
    requires size > 0
  {
    notice.reorg && notice.head / size < section
  }

  lemma {:induction false} StoredFalls(s: State, notices: seq<Notice>)
    requires Inv(s) && s.worker.Working? && s.index.storedSections == s.worker.section
    ensures Noticed(s, notices).index.storedSections == s.worker.section <==>
              forall i :: 0 <= i < |notices| ==> !Undoes(notices[i], s.index.sectionSize, s.worker.section)
    decreases |notices|
  {
    if notices != [] {
      var front, last := notices[..|notices| - 1], notices[|notices| - 1];
      StoredFalls(s, front);
      assert forall i :: 0 <= i < |front| ==> notices[i] == front[i];
    }
  }

  /** A section that was processed is committed exactly when no notice meanwhile undid a section below it. A
      reorganisation inside the section itself does not stop it. */
  lemma CommitsIffNotUndone(s: State, notices: seq<Notice>, newHead: Option<Hash>)
    requires Inv(s) && s.worker.Working? && s.index.storedSections == s.worker.section
    ensures Commits(Noticed(s, notices).index, s.worker, newHead) <==>
              newHead.Some? && forall i :: 0 <= i < |notices| ==> !Undoes(notices[i], s.index.sectionSize, s.worker.section)
  {
    StoredFalls(s, notices);
    CommitIff(Noticed(s, notices), newHead);
  }

  /** The number of the last header of a section. */
  function LastNumber(section: nat, size: nat): nat
    requires size > 0
  {
    section * size + (size - 1)
  }

  lemma LastNumberStep(section: nat, size: nat)
    requires size > 0
    ensures LastNumber(section + 1, size) == LastNumber(section, size) + size && LastNumber(section, size) == (section + 1) * size - 1
  {
  }

  /** Walking back from a canonical header stays on the canonical chain. */
  lemma {:induction false} CanonicalBelow(headers: set<Header>, canon: map<int, Hash>, head: Header, h: Hash, from: Hash, n: nat)
    requires IsPath(headers, canon, head) && Descends(from, h, n)
    requires h.Of? && n <= h.header.number && CanonicalHash(canon, h.header.number) == h
    ensures CanonicalHash(canon, h.header.number - n) == from
    decreases n
  {
    if n > 0 {
      var m := h.header.number;
      assert AncestorAt(headers, head, m) == Some(h.header);
      AncestorStep(headers, head, m - 1);
      assert CanonicalHash(canon, m - 1) == h.header.parent;
      CanonicalBelow(headers, canon, head, h.header.parent, from, n - 1);
    }
  }

  ghost predicate HeadCanonical(x: Index, canon: map<int, Hash>, section: nat)
    requires x.sectionSize > 0
  {
    CanonicalHash(canon, LastNumber(section, x.sectionSize)) == SectionHead(x, section)
  }

  lemma {:induction false} LowerHeadsCanonical(x: Index, headers: set<Header>, canon: map<int, Hash>, head: Header, s: nat, k: nat)
    requires Valid(x) && IsPath(headers, canon, head) && k <= s < x.storedSections && HeadCanonical(x, canon, s)
    ensures HeadCanonical(x, canon, k)
    decreases s - k
  {
    if k < s {
      LowerHeadsCanonical(x, headers, canon, head, s, k + 1);
      assert SectionLinked(x, k + 1);
      LastNumberStep(k, x.sectionSize);
      LastNumberStep(k + 1, x.sectionSize);
      CanonicalBelow(headers, canon, head, SectionHead(x, k + 1), SectionHead(x, k), x.sectionSize);
    }
  }

  /** The head that Sections reports tells whether the whole index is canonical: all section heads are canonical
      exactly when the last one is. */
  lemma IndexCanonicalIff(x: Index, headers: set<Header>, canon: map<int, Hash>, head: Header)
    requires Valid(x) && IsPath(headers, canon, head) && x.storedSections > 0
    ensures (forall k: nat :: k < x.storedSections ==> HeadCanonical(x, canon, k)) <==> HeadCanonical(x, canon, x.storedSections - 1)
  {
    if HeadCanonical(x, canon, x.storedSections - 1) {
      forall k: nat | k < x.storedSections ensures HeadCanonical(x, canon, k) {
        LowerHeadsCanonical(x, headers, canon, head, x.storedSections - 1, k);
      }
    }
  }

  /** The same for the headers of one section: all that were processed are canonical, and the section stands on a
      canonical one, exactly when the last one is canonical. */
  lemma {:induction false} SectionCanonicalIff(number: nat, end: nat, lastHead: Hash, answers: seq<Option<Header>>, commit: bool,
                                               headers: set<Header>, canon: map<int, Hash>, head: Header)
    requires IsPath(headers, canon, head) && number < end && Process(number, end, lastHead, answers, commit).Some?
    ensures |answers| >= end - number && (forall i :: 0 <= i < end - number ==> answers[i].Some?)
    ensures (forall i :: 0 <= i < end - number ==> CanonicalHash(canon, number + i) == Of(answers[i].value)) <==>
              CanonicalHash(canon, end - 1) == Process(number, end, lastHead, answers, commit).value
    ensures number > 0 && CanonicalHash(canon, end - 1) == Process(number, end, lastHead, answers, commit).value ==>
              CanonicalHash(canon, number - 1) == lastHead
    decreases end - number
  {
    ProcessDescends(number, end, lastHead, answers, commit);
    var first, h := answers[0].value, Process(number, end, lastHead, answers, commit).value;
    if number + 1 < end {
      SectionCanonicalIff(number + 1, end, Of(first), answers[1..], commit, headers, canon, head);
      assert forall i :: 0 < i < end - number ==> answers[i] == answers[1..][i - 1];
    }
    if number > 0 && CanonicalHash(canon, end - 1) == h {
      CanonicalBelow(headers, canon, head, h, lastHead, end - number);
    }
  }

  lemma RunStep(s: State, steps: seq<Step>, step: Step)
    requires Inv(s)
    ensures Run(s, steps + [step]) == Next(Run(s, steps), step)
  {
    assert (steps + [step])[..|steps|] == steps;
  }

  /** Whatever a reorganisation within section 0 changed, and was announced to have changed, the section read
      before it is committed after it. */
  lemma CommittedAfterReorg(size: nat, confirms: nat, ancestor: nat, answers: seq<Option<Header>>)
    requires ancestor < size && Process(0, size, Zero, answers, true).Some?
    ensures var steps := [HeadNotice(size - 1 + confirms, false), BeginUpdate, HeadNotice(ancestor, true), EndUpdate(answers, true)];
            var x := Run(Fresh(size, confirms), steps).index;
            x.storedSections == 1 && Some(SectionHead(x, 0)) == Process(0, size, Zero, answers, true)
  {
    var s, none: seq<Step> := Fresh(size, confirms), [];
    var a, b, c, d := HeadNotice(size - 1 + confirms, false), BeginUpdate, HeadNotice(ancestor, true), EndUpdate(answers, true);
    RunStep(s, none, a);
    RunStep(s, none + [a], b);
    RunStep(s, none + [a] + [b], c);
    RunStep(s, none + [a] + [b] + [c], d);
    assert none + [a] + [b] + [c] + [d] == [a, b, c, d];
    ToTheReorg(s, size, confirms, ancestor);
    EndOfFirst(Run(s, none + [a] + [b] + [c]), size, answers);
  }

  lemma ToTheReorg(s: State, size: nat, confirms: nat, ancestor: nat)
    requires ancestor < size && s == Fresh(size, confirms)
    ensures var u := Next(Next(Next(s, HeadNotice(size - 1 + confirms, false)), BeginUpdate), HeadNotice(ancestor, true));
            u.worker == Working(0, Zero) && u.index.storedSections == 0 && u.index.heads == map[] && u.index.sectionSize == size
  {
    assert (size - 1 + confirms + 1 - confirms) / size == 1;
    assert ancestor / size == 0;
  }

  lemma EndOfFirst(u: State, size: nat, answers: seq<Option<Header>>)
    requires u.worker == Working(0, Zero) && u.index.storedSections == 0 && u.index.heads == map[] && u.index.sectionSize == size > 0
    requires Process(0, size, Zero, answers, true).Some?
    ensures var x := Next(u, EndUpdate(answers, true)).index;
            x.storedSections == 1 && Some(SectionHead(x, 0)) == Process(0, size, Zero, answers, true)
  {
    assert SectionResult(u.index, 0, Zero, answers, true) == Process(0, size, Zero, answers, true);
  }

  /** Header `n` of a chain that has `extra` in the headers above number `ancestor`. */
  function Branch(n: nat, ancestor: nat, extra: nat): (h: Header)
    ensures h.number == n
  {
    Header(if n == 0 then Zero else Of(Branch(n - 1, ancestor, extra)), n, 1, 0, if n > ancestor then extra else 0)
  }

  lemma {:induction false} BranchesAgree(n: nat, ancestor: nat, a: nat, b: nat)
    ensures Branch(n, ancestor, a) == Branch(n, ancestor, b) <==> n <= ancestor || a == b
  {
    if 0 < n <= ancestor { BranchesAgree(n - 1, ancestor, a, b); }
  }

  function Headers(top: nat, ancestor: nat, extra: nat): set<Header> {
    set n: nat | n <= top :: Branch(n, ancestor, extra)
  }

  function CanonicalIndex(top: nat, ancestor: nat, extra: nat): map<int, Hash> {
    map n: int | 0 <= n <= top :: Of(Branch(n, ancestor, extra))
  }

  lemma {:induction false} BranchAncestor(headers: set<Header>, top: nat, ancestor: nat, extra: nat, n: nat)
    requires n <= top && Headers(top, ancestor, extra) <= headers
    ensures AncestorAt(headers, Branch(top, ancestor, extra), n) == Some(Branch(n, ancestor, extra))
  {
    if n < top {
      assert Branch(top - 1, ancestor, extra) in Headers(top, ancestor, extra);
      assert Headers(top - 1, ancestor, extra) <= Headers(top, ancestor, extra);
      BranchAncestor(headers, top - 1, ancestor, extra, n);
    }
  }

  lemma BranchIsPath(headers: set<Header>, top: nat, ancestor: nat, extra: nat)
    requires Headers(top, ancestor, extra) <= headers
    ensures IsPath(headers, CanonicalIndex(top, ancestor, extra), Branch(top, ancestor, extra))
  {
    forall n: nat | n <= top ensures AncestorAt(headers, Branch(top, ancestor, extra), n) == Some(Branch(n, ancestor, extra)) {
      BranchAncestor(headers, top, ancestor, extra, n);
    }
  }

  /** Two branches have parted at the ancestor. */
  lemma BranchesPart(headers: set<Header>, m: nat, n: nat, ancestor: nat)
    requires ancestor <= m && ancestor <= n && Headers(m, ancestor, 0) <= headers && Headers(n, ancestor, 1) <= headers
    ensures LastCommon(headers, Branch(m, ancestor, 0), Branch(n, ancestor, 1), Branch(ancestor, ancestor, 0))
  {
    var a, b := Branch(m, ancestor, 0), Branch(n, ancestor, 1);
    BranchAncestor(headers, m, ancestor, 0, ancestor);
    BranchAncestor(headers, n, ancestor, 1, ancestor);
    BranchesAgree(ancestor, ancestor, 0, 1);
    forall k: nat | k > ancestor ensures !CommonAt(headers, a, b, k) {
      if k <= m && k <= n {
        BranchAncestor(headers, m, ancestor, 0, k);
        BranchAncestor(headers, n, ancestor, 1, k);
        BranchesAgree(k, ancestor, 0, 1);
      }
    }
  }

  /** The headers of a branch as the database answers for them. */
  function Answers(number: nat, end: nat, ancestor: nat, extra: nat): (r: seq<Option<Header>>)
    requires number <= end
    ensures |r| == end - number && forall i :: 0 <= i < |r| ==> r[i] == Some(Branch(number + i, ancestor, extra))
  {
    seq(end - number, i requires 0 <= i < end - number => Some(Branch(number + i, ancestor, extra)))
  }

  lemma {:induction false} BranchIsProcessed(number: nat, end: nat, ancestor: nat, extra: nat)
    requires number < end
    ensures Process(number, end, Branch(number, ancestor, extra).parent, Answers(number, end, ancestor, extra), true) ==
              Some(Of(Branch(end - 1, ancestor, extra)))
    decreases end - number
  {
    var answers := Answers(number, end, ancestor, extra);
    assert answers[0] == Some(Branch(number, ancestor, extra));
    assert answers[1..] == Answers(number + 1, end, ancestor, extra);
    if number + 1 < end { BranchIsProcessed(number + 1, end, ancestor, extra); }
  }

  /** So a section can be committed that is not canonical any more, for every section size above one, every number
      of confirmations and every common ancestor below the last header of the section: the section is read on the
      old branch, the chain goes over to the new one, the notice of that carries the number of the last common
      header, and the section is committed. The notice of the new head leaves it. */
  lemma StaleSectionCommitted(size: nat, confirms: nat, ancestor: nat)
    requires ancestor + 1 < size
    ensures var tip: nat := size - 1 + confirms;
            var headers, canon := Headers(tip, ancestor, 0) + Headers(tip + 1, ancestor, 1), CanonicalIndex(tip + 1, ancestor, 1);
            var steps := [HeadNotice(tip, false), BeginUpdate, HeadNotice(ancestor, true),
                          EndUpdate(Answers(0, size, ancestor, 0), true), HeadNotice(tip + 1, false)];
            var x := Run(Fresh(size, confirms), steps).index;
            && IsPath(headers, canon, Branch(tip + 1, ancestor, 1))
            && LastCommon(headers, Branch(tip, ancestor, 0), Branch(tip + 1, ancestor, 1), Branch(ancestor, ancestor, 0))
            && x.sectionSize == size && x.storedSections == 1 && !HeadCanonical(x, canon, 0)
  {
    var tip: nat, answers := size - 1 + confirms, Answers(0, size, ancestor, 0);
    var headers := Headers(tip, ancestor, 0) + Headers(tip + 1, ancestor, 1);
    BranchIsPath(headers, tip + 1, ancestor, 1);
    BranchesPart(headers, tip, tip + 1, ancestor);
    BranchIsProcessed(0, size, ancestor, 0);
    StaysCommitted(size, confirms, ancestor, answers, tip + 1);
    BranchesAgree(size - 1, ancestor, 0, 1);
  }

  lemma StaysCommitted(size: nat, confirms: nat, ancestor: nat, answers: seq<Option<Header>>, head: nat)
    requires ancestor < size && Process(0, size, Zero, answers, true).Some?
    ensures var steps := [HeadNotice(size - 1 + confirms, false), BeginUpdate, HeadNotice(ancestor, true), EndUpdate(answers, true),
                          HeadNotice(head, false)];
            var x := Run(Fresh(size, confirms), steps).index;
            && x.sectionSize == size && x.storedSections == 1 && LastNumber(0, size) == size - 1
            && Some(SectionHead(x, 0)) == Process(0, size, Zero, answers, true)
  {
    var s, steps := Fresh(size, confirms), [HeadNotice(size - 1 + confirms, false), BeginUpdate, HeadNotice(ancestor, true), EndUpdate(answers, true)];
    CommittedAfterReorg(size, confirms, ancestor, answers);
    RunStep(s, steps, HeadNotice(head, false));
    assert steps + [HeadNotice(head, false)] ==
           [HeadNotice(size - 1 + confirms, false), BeginUpdate, HeadNotice(ancestor, true), EndUpdate(answers, true), HeadNotice(head, false)];
    RunKeepsSizes(s, steps);
  }

  // ---------------------------------------------------------------- the loops of the source

  /** `cascades` lists the heads announced to the children. */
  class ChainIndexer {
    const sectionSize: nat
    const confirmsReq: nat
    var storedSections: nat
    var knownSections: nat
    var cascadedHead: int
    var count: nat
    var heads: map<int, Hash>
    var update: bool
    var cascades: seq<(int, bool)>

    function View(): Index
      reads this
    {
      Index(sectionSize, confirmsReq, storedSections, knownSections, cascadedHead, count, heads, update, cascades)
    }

    constructor (size: nat, confirms: nat)
      requires size > 0
      ensures Valid(View()) && storedSections == 0 && sectionSize == size
    {
      sectionSize, confirmsReq := size, confirms;
      storedSections, knownSections, cascadedHead, count, heads, update, cascades := 0, 0, 0, 0, map[], false, [];
    }

    method SetValidSections(sections: nat)
      modifies this`storedSections, this`count, this`heads
      ensures View() == WithSections(old(View()), sections)
    {
      count := sections;
      while storedSections > sections
        invariant count == sections
        invariant RemoveHeads(heads, storedSections, sections) == RemoveHeads(old(heads), old(storedSections), sections)
        decreases storedSections
      {
        storedSections := storedSections - 1;
        heads := heads - {storedSections as int};
      }
      storedSections := sections;
    }

    /** The reorg half of NewHead. */
    method Revert(head: nat)
      requires sectionSize > 0
      modifies this
      ensures View() == AfterNotice(old(View()), head, true)
    {
      var changed := head / sectionSize;
      if changed < knownSections { knownSections := changed; }
      if changed < storedSections { SetValidSections(changed); }
      var h := changed * sectionSize;
      if h < cascadedHead {
        cascadedHead := h;
        cascades := cascades + [(h, true)];
      }
    }

    method NewHead(head: nat, reorg: bool)
      requires Valid(View())
      modifies this
      ensures View() == AfterNotice(old(View()), head, reorg) && Valid(View())
      ensures !reorg ==> forall k: nat :: k < knownSections <==>
                k < old(knownSections) || SectionEnd(k, sectionSize) + confirmsReq <= head + 1
      ensures reorg ==> forall k: nat :: k < storedSections <==> k < old(storedSections) && SectionEnd(k, sectionSize) <= head
    {
      forall k: nat
        ensures !reorg ==> (k < AfterNotice(View(), head, reorg).knownSections <==>
                              k < knownSections || SectionEnd(k, sectionSize) + confirmsReq <= head + 1)
        ensures reorg ==> (k < AfterNotice(View(), head, reorg).storedSections <==> k < storedSections && SectionEnd(k, sectionSize) <= head)
      {
        if reorg { RevertOutcome(View(), head, k); } else { KnownIff(View(), head, k); }
      }
      NoticeKeepsInv(State(View(), Idle), head, reorg);
      if reorg {
        Revert(head);
      } else if head >= confirmsReq {
        var sections := (head + 1 - confirmsReq) / sectionSize;
        if sections > knownSections {
          knownSections := sections;
          update := true;
        }
      }
    }

    /** The update loop up to the unlock. */
    method StartUpdate() returns (worker: Worker)
      requires update
      modifies this`update
      ensures State(View(), worker) == Begin(State(old(View()), Idle))
    {
      update := false;
      worker := Idle;
      if knownSections > storedSections {
        var section := storedSections;
        var oldHead := if section > 0 then SectionHead(View(), section - 1) else SectionHead(View(), -1);
        worker := Working(section, oldHead);
      }
    }

    /** The update loop from the second lock on. */
    method FinishUpdate(section: nat, oldHead: Hash, newHead: Option<Hash>)
      modifies this
      ensures State(View(), Idle) == End(State(old(View()), Working(section, oldHead)), newHead)
    {
      if newHead.Some? && oldHead == SectionHead(View(), section - 1) {
        heads := heads[section as int := newHead.value];
        SetValidSections(section + 1);
        cascadedHead := storedSections * sectionSize - 1;
        cascades := cascades + [(cascadedHead, false)];
      } else {
        knownSections := storedSections;
      }
      if knownSections > storedSections { update := true; }
    }

    method ProcessSection(section: nat, lastHead: Hash, answers: seq<Option<Header>>, commit: bool) returns (r: Option<Hash>)
      ensures r == SectionResult(View(), section, lastHead, answers, commit)
      ensures r.Some? <==> commit && Continuous(section * sectionSize, (section + 1) * sectionSize, lastHead, answers)
      ensures r.Some? ==> Descends(lastHead, r.value, sectionSize)
    {
      var number, end, last, k := section * sectionSize, (section + 1) * sectionSize, lastHead, 0;
      assert end - number == sectionSize && answers[0..] == answers;
      ProcessIff(number, end, lastHead, answers, commit);
      while number < end
        invariant number <= end && 0 <= k <= |answers|
        invariant Process(number, end, last, answers[k..], commit) == SectionResult(View(), section, lastHead, answers, commit)
        decreases end - number
      {
        if k == |answers| || answers[k].None? { return None; }
        var header := answers[k].value;
        if header.number != number || header.parent != last { return None; }
        assert answers[k..][1..] == answers[k + 1..];
        last, number, k := Of(header), number + 1, k + 1;
      }
      r := if commit then Some(last) else None;
      if r.Some? { ProcessDescends(section * sectionSize, end, lastHead, answers, commit); }
    }
  }
}
