/** AddTx of txpool/tx_pool.go taken apart: the duplicate test, the entry into the known set and the send to a
    channel are separate steps of concurrent calls, between which everything else may happen. */
module TxPoolCalls {
  import opened Common
  import opened TxPool
  import opened TxPoolRuns

  /** A call of AddTx that passed the duplicate test; `remembered` says that its hash is in the known set. */
  datatype Call = Call(tx: Tx, remembered: bool)

  datatype State = State(pool: Pool, calls: seq<Call>)

  datatype Move =
    | Test(tx: Tx)
    | Remember(k: nat)
    | Send(k: nat, start: nat)
    | Other(step: Step)

  predicate Can(s: State, m: Move) {
    match m
    case Test(_) => true
    case Remember(k) => k < |s.calls| && !s.calls[k].remembered
    case Send(k, _) => k < |s.calls| && s.calls[k].remembered
    case Other(step) => !step.StepAdd? && Enabled(s.pool, step)
  }

  /** The send of a call whose hash was remembered before. */
  function Sent(p: Pool, tx: Tx, start: nat): Pool {
    var i := Room(p, start, 0);
    if i == |p.full| then p else p.(full := p.full[i := p.full[i] + [tx]], accepted := p.accepted + {tx})
  }

  function Do(s: State, m: Move): State
    requires Can(s, m)
  {
    match m
    case Test(tx) => if DupTx(s.pool, tx) then s else s.(calls := s.calls + [Call(tx, false)])
    case Remember(k) => State(RememberTx(s.pool, s.calls[k].tx), s.calls[k := Call(s.calls[k].tx, true)])
    case Send(k, start) => State(Sent(s.pool, s.calls[k].tx, start), s.calls[..k] + s.calls[k + 1..])
    case Other(step) => s.(pool := Next(s.pool, step))
  }

  /** The atomic call is the three steps of a call in a row. */
  lemma CallInARow(p: Pool, tx: Tx, start: nat)
    requires !DupTx(p, tx)
    ensures var s1 := Do(State(p, []), Test(tx));
            var s2 := Do(s1, Remember(0));
            Do(s2, Send(0, start)) == State(AddTxStep(p, tx, start), [])
  {
    var none: seq<Call> := [];
    assert none + [Call(tx, false)] == [Call(tx, false)];
    assert [Call(tx, false)][0 := Call(tx, true)] == [Call(tx, true)];
  }

  /** Sending keeps conservation exactly when there is no room or the transaction is nowhere at that moment. */
  lemma SentConservesIff(p: Pool, tx: Tx, start: nat)
    requires Conserved(p)
    ensures Conserved(Sent(p, tx, start)) <==> !HasRoom(p, start) || !Somewhere(p, tx)
  {
    var q, r := SendStep(p, tx, start), Sent(p, tx, start);
    RoomIgnoresKnown(p, tx, start, 0);
    SendConservesIff(p, tx, start);
    assert q == r.(known := q.known, cleared := q.cleared) && r == q.(known := r.known, cleared := r.cleared);
    if Conserved(q) { SamePlaces(q, r); }
    if Conserved(r) { SamePlaces(r, q); }
  }

  // ---------------------------------------------------------------- calls that do not overlap

  /** No other call for this hash is under way. */
  predicate Alone(s: State, m: Move) {
    m.Test? ==> forall k :: 0 <= k < |s.calls| ==> s.calls[k].tx != m.tx
  }

  ghost predicate CallsRight(s: State) {
    && (forall j, k :: 0 <= j < k < |s.calls| ==> s.calls[j].tx != s.calls[k].tx)
    && (forall k :: 0 <= k < |s.calls| ==> s.calls[k].tx !in s.pool.accepted)
    && (forall k :: 0 <= k < |s.calls| && s.calls[k].remembered && !s.pool.cleared ==> s.calls[k].tx in s.pool.known)
  }

  ghost predicate CallsInv(s: State) {
    Inv(s.pool) && NonEmptyBatches(s.pool) && CallsRight(s)
  }

  lemma TestKeeps(s: State, tx: Tx)
    requires CallsInv(s) && Alone(s, Test(tx)) && !s.pool.cleared
    ensures CallsInv(Do(s, Test(tx)))
  {
  }

  lemma RememberKeeps(s: State, k: nat)
    requires CallsInv(s) && Can(s, Remember(k))
    ensures CallsInv(Do(s, Remember(k)))
  {
    SamePlaces(s.pool, RememberTx(s.pool, s.calls[k].tx));
  }

  lemma SendKeeps(s: State, k: nat, start: nat)
    requires CallsInv(s) && Can(s, Send(k, start))
    ensures CallsInv(Do(s, Send(k, start)))
  {
    var tx := s.calls[k].tx;
    SomewhereIsAccepted(s.pool, tx);
    SentConservesIff(s.pool, tx, start);
  }

  lemma OtherKeeps(s: State, step: Step)
    requires CallsInv(s) && Can(s, Other(step))
    ensures CallsInv(Do(s, Other(step)))
  {
    NextConservesIff(s.pool, step);
    BatchesStay(s.pool, step);
    KnowsAllStays(s.pool, step);
  }

  lemma ClearedLasts(s: State, m: Move)
    requires Can(s, m)
    ensures s.pool.cleared ==> Do(s, m).pool.cleared
  {
  }

  /** The state after these steps; None where one of them cannot be taken. */
  function Play(s: State, moves: seq<Move>): Option<State>
    decreases |moves|
  {
    if moves == [] then Some(s)
    else
      match Play(s, moves[..|moves| - 1])
      case None => None
      case Some(t) => var last := moves[|moves| - 1]; if Can(t, last) then Some(Do(t, last)) else None
  }

  /** No two calls for one hash overlap. */
  predicate NoneOverlap(s: State, moves: seq<Move>)
    decreases |moves|
  {
    moves != [] ==>
      var front, last := moves[..|moves| - 1], moves[|moves| - 1];
      NoneOverlap(s, front) && match Play(s, front) case None => true case Some(t) => Alone(t, last)
  }

  lemma MoveKeeps(s: State, m: Move)
    requires CallsInv(s) && Can(s, m) && Alone(s, m) && !s.pool.cleared
    ensures CallsInv(Do(s, m))
  {
    match m
    case Test(tx) => TestKeeps(s, tx);
    case Remember(k) => RememberKeeps(s, k);
    case Send(k, start) => SendKeeps(s, k, start);
    case Other(step) => OtherKeeps(s, step);
  }

  /** In every interleaving of the steps of concurrent calls with everything else, in which no two calls for one
      hash overlap and the known set is not emptied, conservation holds. */
  lemma {:induction false} ConservedInEveryInterleaving(s: State, moves: seq<Move>, t: State)
    requires CallsInv(s) && Play(s, moves) == Some(t) && NoneOverlap(s, moves) && !t.pool.cleared
    ensures CallsInv(t)
    decreases |moves|
  {
    if moves != [] {
      var front, last := moves[..|moves| - 1], moves[|moves| - 1];
      var u := Play(s, front).value;
      ClearedLasts(u, last);
      ConservedInEveryInterleaving(s, front, u);
      MoveKeeps(u, last);
    }
  }

  // ---------------------------------------------------------------- calls that overlap

  /** Two calls for one hash that both passed the duplicate test: if both find room, the second send breaks
      conservation. */
  lemma OverlappingCallsBreak(s: State, j: nat, k: nat, start: nat, again: nat)
    requires Conserved(s.pool) && Can(s, Send(j, start)) && k < j && Can(s, Send(k, again)) && s.calls[j].tx == s.calls[k].tx
    requires HasRoom(s.pool, start) && HasRoom(Sent(s.pool, s.calls[j].tx, start), again)
    ensures var t := Do(s, Send(j, start));
            Can(t, Send(k, again)) && !(Conserved(t.pool) && Conserved(Do(t, Send(k, again)).pool))
  {
    var t, tx := Do(s, Send(j, start)), s.calls[j].tx;
    if Conserved(t.pool) {
      assert InSomeChannel(t.pool, tx) by { assert tx in t.pool.full[Room(s.pool, start, 0)]; }
      SentConservesIff(t.pool, tx, again);
    }
  }

  lemma Plays(s: State, moves: seq<Move>, t: State, m: Move)
    requires Play(s, moves) == Some(t) && Can(t, m)
    ensures Play(s, moves + [m]) == Some(Do(t, m))
  {
    assert (moves + [m])[..|moves|] == moves;
  }

  /** Both calls pass the duplicate test before either hash is remembered. */
  lemma BothPass(p: Pool, tx: Tx) returns (moves: seq<Move>, t: State)
    requires !DupTx(p, tx)
    ensures Play(State(p, []), moves) == Some(t)
    ensures t == State(RememberTx(RememberTx(p, tx), tx), [Call(tx, true), Call(tx, true)])
  {
    var s := State(p, []);
    moves, t := [], s;
    Plays(s, moves, t, Test(tx));
    moves, t := moves + [Test(tx)], Do(t, Test(tx));
    Plays(s, moves, t, Test(tx));
    moves, t := moves + [Test(tx)], Do(t, Test(tx));
    Plays(s, moves, t, Remember(0));
    moves, t := moves + [Remember(0)], Do(t, Remember(0));
    Plays(s, moves, t, Remember(1));
    moves, t := moves + [Remember(1)], Do(t, Remember(1));
  }

  /** Whatever goes to an empty channel is received and leaves room. */
  lemma FirstReceived(p: Pool, tx: Tx)
    requires |p.full| > 0 && |p.verify| > 0 && p.full[0] == [] && p.capacity > 0
    ensures var q := DealFull(Sent(p, tx, 0), 0); tx in q.queue && HasRoom(q, 0)
  {
    assert Room(p, 0, 0) == 0;
    var q := Sent(p, tx, 0);
    assert q.full[0] == [tx] && [tx][1..] == [];
  }

  /** A transaction that is sent while it is in the queue is at two places. */
  lemma SentFromQueue(p: Pool, tx: Tx)
    requires tx in p.queue && HasRoom(p, 0)
    ensures !Conserved(Sent(p, tx, 0))
  {
    var q, i := Sent(p, tx, 0), Room(p, 0, 0);
    assert tx in q.full[i];
    assert At(q, tx, InQueue) && At(q, tx, InFull(i));
  }

  /** The two sends, the first of which is received before the second. */
  lemma SendTwice(s: State, moves: seq<Move>, t: State, tx: Tx) returns (longer: seq<Move>, u: State)
    requires Play(s, moves) == Some(t) && t.calls == [Call(tx, true), Call(tx, true)]
    requires |t.pool.full| > 0 && |t.pool.verify| > 0 && t.pool.full[0] == [] && t.pool.capacity > 0
    ensures Play(s, longer) == Some(u) && !Conserved(u.pool)
  {
    var p, q, one := Sent(t.pool, tx, 0), DealFull(Sent(t.pool, tx, 0), 0), [Call(tx, true)];
    assert t.calls[..1] + t.calls[2..] == one;
    Plays(s, moves, t, Send(1, 0));
    Plays(s, moves + [Send(1, 0)], State(p, one), Other(StepDealFull(0)));
    longer := moves + [Send(1, 0)] + [Other(StepDealFull(0))];
    Plays(s, longer, State(q, one), Send(0, 0));
    longer, u := longer + [Send(0, 0)], Do(State(q, one), Send(0, 0));
    FirstReceived(t.pool, tx);
    SentFromQueue(q, tx);
  }

  /** Such calls exist: in a pool of any size, from the empty pool on, two calls for one hash pass the duplicate
      test together and break conservation, even if there is one channel with room for one transaction. */
  lemma OverlapLosesIt(threads: nat, capacity: nat, maxKnown: nat, tx: Tx)
    requires threads > 0 && capacity > 0 && maxKnown > 0
    ensures exists moves, t :: Play(State(FreshOf(threads, capacity, maxKnown), []), moves) == Some(t) && !Conserved(t.pool)
  {
    var p := FreshOf(threads, capacity, maxKnown);
    var moves, t := BothPass(p, tx);
    var longer, u := SendTwice(State(p, []), moves, t, tx);
  }
}
