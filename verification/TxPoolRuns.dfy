/** The transaction pool over whole runs of add, verify, take and WorkEnded. */
module TxPoolRuns {
  import opened TxPool

  datatype Step =
    | StepAdd(tx: Tx, start: nat)
    | StepDealFull(i: nat)
    | StepDealVerify(i: nat)
    | StepTake(id: WorkId, txs: seq<Tx>, maxTxs: nat)
    | StepWorkEnded(id: WorkId, number: nat, succeed: bool)

  /** Work ids come from the clock and are not reused while their batch is in work. */
  predicate Enabled(p: Pool, step: Step) {
    match step
    case StepTake(id, txs, maxTxs) => CanTake(p, txs, maxTxs) && id !in p.working
    case _ => true
  }

  function Next(p: Pool, step: Step): Pool {
    match step
    case StepAdd(tx, start) => AddTxStep(p, tx, start)
    case StepDealFull(i) => DealFull(p, i)
    case StepDealVerify(i) => DealVerify(p, i)
    case StepTake(id, txs, _) => Take(p, id, txs)
    case StepWorkEnded(id, number, succeed) => WorkEndedStep(p, id, number, succeed)
  }

  function Run(p: Pool, steps: seq<Step>): Pool
    decreases |steps|
  {
    if steps == [] then p else Next(Run(p, steps[..|steps| - 1]), steps[|steps| - 1])
  }

  predicate RunEnabled(p: Pool, steps: seq<Step>) {
    forall i :: 0 <= i < |steps| ==> Enabled(Run(p, steps[..i]), steps[i])
  }

  /** The call is accepted although its transaction is in a full channel or in a batch. */
  predicate AddsAgain(p: Pool, step: Step) {
    step.StepAdd? && Accepts(p, step.tx, step.start) && (InSomeChannel(p, step.tx) || InSomeBatch(p, step.tx))
  }

  lemma BatchesStay(p: Pool, step: Step)
    requires NonEmptyBatches(p)
    ensures NonEmptyBatches(Next(p, step))
  {
  }

  /** A step loses or doubles a transaction exactly when it is such a call. */
  lemma NextConservesIff(p: Pool, step: Step)
    requires Conserved(p) && NonEmptyBatches(p) && Enabled(p, step)
    ensures Conserved(Next(p, step)) <==> !AddsAgain(p, step)
  {
    match step
    case StepAdd(tx, start) => AddConservesIff(p, tx, start);
    case StepDealFull(i) => DealFullConserves(p, i);
    case StepDealVerify(i) => DealVerifyConserves(p, i);
    case StepTake(id, txs, maxTxs) => TakeConservesIff(p, id, txs, maxTxs);
    case StepWorkEnded(id, number, succeed) => WorkEndedConserves(p, id, number, succeed);
  }

  predicate NoneAddedAgain(p: Pool, steps: seq<Step>) {
    forall i :: 0 <= i < |steps| ==> !AddsAgain(Run(p, steps[..i]), steps[i])
  }

  lemma RunFront(p: Pool, steps: seq<Step>)
    requires steps != []
    ensures var front, last := steps[..|steps| - 1], steps[|steps| - 1];
            && (RunEnabled(p, steps) ==> RunEnabled(p, front) && Enabled(Run(p, front), last))
            && (NoneAddedAgain(p, steps) ==> NoneAddedAgain(p, front) && !AddsAgain(Run(p, front), last))
  {
    var front := steps[..|steps| - 1];
    assert forall i :: 0 <= i <= |front| ==> front[..i] == steps[..i];
    assert forall i :: 0 <= i < |front| ==> front[i] == steps[i];
  }

  /** Across all interleavings, whether or not the known set was emptied: as long as no such call came, every
      accepted transaction is in exactly one of full channel, queue, pending, one working batch or onChain, and
      no other transaction is anywhere. */
  lemma {:induction false} ConservedUnlessAddedAgain(p: Pool, steps: seq<Step>)
    requires Conserved(p) && NonEmptyBatches(p) && RunEnabled(p, steps) && NoneAddedAgain(p, steps)
    ensures Conserved(Run(p, steps)) && NonEmptyBatches(Run(p, steps))
    decreases |steps|
  {
    if steps != [] {
      var front := steps[..|steps| - 1];
      RunFront(p, steps);
      ConservedUnlessAddedAgain(p, front);
      NextConservesIff(Run(p, front), steps[|steps| - 1]);
      BatchesStay(Run(p, front), steps[|steps| - 1]);
    }
  }

  predicate KnowsAll(p: Pool) {
    !p.cleared ==> p.accepted <= p.known
  }

  lemma KnowsAllStays(p: Pool, step: Step)
    requires KnowsAll(p)
    ensures KnowsAll(Next(p, step)) && (p.cleared ==> Next(p, step).cleared)
  {
  }

  lemma KnownIsNotAddedAgain(p: Pool, step: Step)
    requires Conserved(p) && KnowsAll(p) && !p.cleared
    ensures !AddsAgain(p, step)
  {
    if step.StepAdd? { SomewhereIsAccepted(p, step.tx); }
  }

  /** While the known set was not emptied no such call can come, so conservation holds in every run. */
  lemma {:induction false} ConservedInEveryRun(p: Pool, steps: seq<Step>)
    requires Inv(p) && NonEmptyBatches(p) && RunEnabled(p, steps) && !Run(p, steps).cleared
    ensures Inv(Run(p, steps)) && NonEmptyBatches(Run(p, steps))
    decreases |steps|
  {
    if steps != [] {
      var front, last := steps[..|steps| - 1], steps[|steps| - 1];
      var q := Run(p, front);
      RunFront(p, steps);
      assert !q.cleared by { if q.cleared { Uncleared(q, last); } }
      ConservedInEveryRun(p, front);
      KnownIsNotAddedAgain(q, last);
      NextConservesIff(q, last);
      BatchesStay(q, last);
      KnowsAllStays(q, last);
    }
  }

  lemma Uncleared(p: Pool, step: Step)
    ensures p.cleared ==> Next(p, step).cleared
  {
  }

  // ---------------------------------------------------------------- transactions that get no further

  predicate InVerifier(p: Pool, tx: Tx) {
    exists i :: 0 <= i < |p.verify| && tx in p.verify[i]
  }

  /** The transaction is queued, but in no channel any more and nowhere else. */
  predicate Stranded(p: Pool, tx: Tx) {
    && tx in p.queue && !InVerifier(p, tx)
    && !InSomeChannel(p, tx) && !InSomeBatch(p, tx) && tx !in p.pending && tx !in p.onChain
  }

  lemma OnlyQueued(p: Pool, tx: Tx)
    requires Conserved(p) && At(p, tx, InQueue)
    ensures !InSomeChannel(p, tx) && !InSomeBatch(p, tx) && tx !in p.pending && tx !in p.onChain
  {
    assert forall x :: At(p, tx, x) ==> x == InQueue;
    assert !At(p, tx, InPending) && !At(p, tx, OnChain);
    if InSomeChannel(p, tx) {
      var i: nat :| i < |p.full| && tx in p.full[i];
      assert At(p, tx, InFull(i));
    }
    if InSomeBatch(p, tx) {
      var id :| id in p.working && tx in p.working[id];
      assert At(p, tx, InBatch(id));
    }
  }

  /** DealTxRoutine drops the error of sendToVerify: the received transaction is stranded exactly if the verify
      channel was full. */
  lemma StrandedIff(p: Pool, i: nat)
    requires Conserved(p) && i < |p.full| && i < |p.verify| && p.full[i] != []
    ensures Stranded(DealFull(p, i), p.full[i][0]) <==> |p.verify[i]| >= p.capacity
  {
    var tx, q := p.full[i][0], DealFull(p, i);
    DealFullConserves(p, i);
    OnlyQueued(q, tx);
    assert At(p, tx, InFull(i)) && !At(p, tx, InQueue);
    assert !InVerifier(p, tx);
    if |p.verify[i]| < p.capacity { assert q.verify[i] == p.verify[i] + [tx]; }
  }

  lemma StrandedStays(p: Pool, step: Step, tx: Tx)
    requires Stranded(p, tx) && Enabled(p, step)
    ensures Stranded(Next(p, step), tx)
  {
    match step
    case StepAdd(other, start) => StrandedAdd(p, other, start, tx);
    case StepDealFull(i) => StrandedDeal(p, i, tx);
    case StepDealVerify(i) => StrandedDeal(p, i, tx);
    case StepTake(id, txs, maxTxs) => StrandedTake(p, id, txs, maxTxs, tx);
    case StepWorkEnded(id, number, succeed) => WorkEndedOutcome(p, id, number, succeed, tx);
  }

  lemma StrandedAdd(p: Pool, other: Tx, start: nat, tx: Tx)
    requires Stranded(p, tx)
    ensures Stranded(AddTxStep(p, other, start), tx)
  {
    var q := AddTxStep(p, other, start);
    AddTxOutcome(p, other, start);
    if q.full != p.full {
      var k: nat :| FirstRoom(p, start, k) && q.full == Appended(p.full, Turn(p, start, k), other);
      ElsewhereAppended(p.full, Turn(p, start, k), other, tx);
    }
  }

  lemma ElsewhereAppended(channels: seq<seq<Tx>>, i: nat, other: Tx, tx: Tx)
    requires i < |channels| && other != tx && forall k :: 0 <= k < |channels| ==> tx !in channels[k]
    ensures forall k :: 0 <= k < |channels| ==> tx !in Appended(channels, i, other)[k]
  {
  }

  lemma StrandedDeal(p: Pool, i: nat, tx: Tx)
    requires Stranded(p, tx)
    ensures Stranded(DealFull(p, i), tx) && Stranded(DealVerify(p, i), tx)
  {
  }

  lemma StrandedTake(p: Pool, id: WorkId, txs: seq<Tx>, maxTxs: nat, tx: Tx)
    requires Stranded(p, tx) && CanTake(p, txs, maxTxs)
    ensures Stranded(Take(p, id, txs), tx)
  {
    assert tx !in Elems(txs);
  }

  /** In every run a stranded transaction stays stranded: it never becomes pending and cannot be added again. */
  lemma {:induction false} StrandedForever(p: Pool, steps: seq<Step>, tx: Tx, start: nat)
    requires Stranded(p, tx) && RunEnabled(p, steps)
    ensures Stranded(Run(p, steps), tx) && !Accepts(Run(p, steps), tx, start)
    decreases |steps|
  {
    if steps != [] {
      RunFront(p, steps);
      StrandedForever(p, steps[..|steps| - 1], tx, start);
      StrandedStays(Run(p, steps[..|steps| - 1]), steps[|steps| - 1], tx);
    }
  }

  lemma KnownStays(p: Pool, step: Step, tx: Tx)
    requires tx in p.known && !Next(p, step).cleared
    ensures tx in Next(p, step).known
  {
  }

  /** A call whose transaction found no channel with room left it in the known set, so that in every run every
      later call for it is refused until that set is emptied. */
  lemma {:induction false} RefusedUntilCleared(p: Pool, tx: Tx, first: nat, steps: seq<Step>, start: nat)
    requires !DupTx(p, tx) && !SomeRoom(p) && !Run(AddTxStep(p, tx, first), steps).cleared
    ensures tx in Run(AddTxStep(p, tx, first), steps).known && !Accepts(Run(AddTxStep(p, tx, first), steps), tx, start)
    decreases |steps|
  {
    var q := AddTxStep(p, tx, first);
    if steps == [] {
      AddTxOutcome(p, tx, first);
    } else {
      var front, last := steps[..|steps| - 1], steps[|steps| - 1];
      if Run(q, front).cleared { Uncleared(Run(q, front), last); }
      RefusedUntilCleared(p, tx, first, front, start);
      KnownStays(Run(q, front), last, tx);
    }
  }

  // ---------------------------------------------------------------- the known set is emptied

  ghost predicate Reaches(o: Pool, p: Pool) {
    exists steps :: RunEnabled(o, steps) && Run(o, steps) == p
  }

  lemma Start(o: Pool)
    ensures Reaches(o, o)
  {
    assert RunEnabled(o, []) && Run(o, []) == o;
  }

  lemma Go(o: Pool, p: Pool, step: Step)
    requires Reaches(o, p) && Enabled(p, step)
    ensures Reaches(o, Next(p, step))
  {
    var steps :| RunEnabled(o, steps) && Run(o, steps) == p;
    var longer := steps + [step];
    assert forall i :: 0 <= i <= |steps| ==> longer[..i] == steps[..i];
    assert forall i :: 0 <= i < |steps| ==> longer[i] == steps[i];
    assert steps[..|steps|] == steps;
    assert RunEnabled(o, longer) && Run(o, longer) == Next(p, step);
  }

  function Empty(threads: nat): (c: seq<seq<Tx>>)
    ensures |c| == threads && forall i :: 0 <= i < threads ==> c[i] == []
  {
    seq(threads, _ => [])
  }

  /** A pool whose channels and queue are empty. */
  predicate Quiet(p: Pool) {
    p.full == Empty(|p.full|) && p.verify == p.full && p.queue == {} && |p.full| > 0 && p.capacity > 0
  }

  lemma FirstChannel(c: seq<seq<Tx>>, tx: Tx)
    requires c == Empty(|c|) && |c| > 0
    ensures c[0 := c[0] + [tx]] == c[0 := [tx]] && c[0 := [tx]][0 := [tx][1..]] == c
  {
    assert c[0] + [tx] == [tx] && [tx][1..] == c[0];
  }

  /** A transaction that is added to a quiet pool and verified. */
  function Verified(p: Pool, tx: Tx): Pool {
    RememberTx(p, tx).(pending := p.pending + {tx}, accepted := p.accepted + {tx})
  }

  lemma VerifiedSteps(p: Pool, tx: Tx)
    requires Quiet(p) && !DupTx(p, tx)
    ensures DealVerify(DealFull(AddTxStep(p, tx, 0), 0), 0) == Verified(p, tx)
  {
    FirstChannel(p.full, tx);
    var p1 := RememberTx(p, tx).(full := p.full[0 := [tx]], accepted := p.accepted + {tx});
    assert AddTxStep(p, tx, 0) == p1;
    var p2 := p1.(full := p.full, queue := {tx}, verify := p.full[0 := [tx]]);
    assert DealFull(p1, 0) == p2;
    assert DealVerify(p2, 0) == Verified(p, tx);
  }

  lemma AddAndVerify(o: Pool, p: Pool, tx: Tx)
    requires Reaches(o, p) && Quiet(p) && !DupTx(p, tx)
    ensures Reaches(o, Verified(p, tx))
  {
    Go(o, p, StepAdd(tx, 0));
    Go(o, AddTxStep(p, tx, 0), StepDealFull(0));
    Go(o, DealFull(AddTxStep(p, tx, 0), 0), StepDealVerify(0));
    VerifiedSteps(p, tx);
  }

  lemma NewTxConserved(p: Pool, tx: Tx)
    requires Conserved(p) && tx !in p.accepted
    ensures Conserved(AddTxStep(p, tx, 0))
  {
    SomewhereIsAccepted(p, tx);
    AddConservesIff(p, tx, 0);
  }

  lemma VerifiedConserved(p: Pool, tx: Tx)
    requires Conserved(p) && Quiet(p) && !DupTx(p, tx) && tx !in p.accepted
    ensures Conserved(Verified(p, tx))
  {
    NewTxConserved(p, tx);
    DealFullConserves(AddTxStep(p, tx, 0), 0);
    DealVerifyConserves(DealFull(AddTxStep(p, tx, 0), 0), 0);
    VerifiedSteps(p, tx);
  }

  /** The transactions 1 to n. */
  function Upto(n: nat): (s: set<Tx>)
    ensures |s| == n && forall t :: t in s <==> 1 <= t <= n
  {
    if n == 0 then {} else Upto(n - 1) + {n}
  }

  function FreshOf(threads: nat, capacity: nat, maxKnown: nat): Pool {
    Pool(capacity, maxKnown, {}, Empty(threads), Empty(threads), {}, {}, map[], map[], {}, false)
  }

  /** Transaction 1 is in batch 7, and the transactions up to n were added and verified after it. */
  function Filled(threads: nat, capacity: nat, maxKnown: nat, n: nat): Pool {
    FreshOf(threads, capacity, maxKnown).(known := Upto(n), pending := Upto(n) - {1}, working := map[7 := [1]], accepted := Upto(n))
  }

  lemma FillOne(threads: nat, capacity: nat, maxKnown: nat)
    requires threads > 0 && capacity > 0 && maxKnown > 0
    ensures Reaches(FreshOf(threads, capacity, maxKnown), Filled(threads, capacity, maxKnown, 1))
    ensures Conserved(Filled(threads, capacity, maxKnown, 1))
  {
    var o := FreshOf(threads, capacity, maxKnown);
    Start(o);
    FreshPool(threads, capacity, maxKnown);
    AddAndVerify(o, o, 1);
    VerifiedConserved(o, 1);
    var p := Verified(o, 1);
    assert Elems([1]) == {1} && Upto(1) == {1} && Upto(1) - {1} == {};
    Go(o, p, StepTake(7, [1], 1));
    TakeConservesIff(p, 7, [1], 1);
    assert Take(p, 7, [1]) == Filled(threads, capacity, maxKnown, 1);
  }

  lemma {:induction false} Fill(threads: nat, capacity: nat, maxKnown: nat, n: nat)
    requires threads > 0 && capacity > 0 && 0 < n <= maxKnown
    ensures Reaches(FreshOf(threads, capacity, maxKnown), Filled(threads, capacity, maxKnown, n))
    ensures Conserved(Filled(threads, capacity, maxKnown, n))
  {
    if n == 1 {
      FillOne(threads, capacity, maxKnown);
    } else {
      Fill(threads, capacity, maxKnown, n - 1);
      var p := Filled(threads, capacity, maxKnown, n - 1);
      AddAndVerify(FreshOf(threads, capacity, maxKnown), p, n);
      VerifiedConserved(p, n);
      assert Upto(n) - {1} == (Upto(n - 1) - {1}) + {n};
      assert Verified(p, n) == Filled(threads, capacity, maxKnown, n);
    }
  }

  /** Once the known set is emptied a transaction that is being worked on can be accepted again, in a pool of any
      size: transaction 1 is taken into a batch, others fill the known set until one more empties it, and 1 comes
      back. */
  lemma ClearedKnownLosesIt(threads: nat, capacity: nat, maxKnown: nat)
    requires threads > 0 && capacity > 0 && maxKnown > 0
    ensures exists p :: Reaches(FreshOf(threads, capacity, maxKnown), p) && Conserved(p) && !Conserved(AddTxStep(p, 1, 0))
  {
    var o, p := FreshOf(threads, capacity, maxKnown), Filled(threads, capacity, maxKnown, maxKnown);
    Fill(threads, capacity, maxKnown, maxKnown);
    AddAndVerify(o, p, maxKnown + 1);
    VerifiedConserved(p, maxKnown + 1);
    var q := Verified(p, maxKnown + 1);
    AcceptedTwice(q);
    AddConservesIff(q, 1, 0);
  }

  lemma AcceptedTwice(q: Pool)
    requires Quiet(q) && 7 in q.working && q.working[7] == [1] && 1 !in q.known + q.pending && q.onChain == map[]
    ensures Accepts(q, 1, 0) && InSomeBatch(q, 1)
  {
    assert 1 in q.working[7];
  }
}
