/** txpool/tx_pool.go: where a transaction is between AddTx and the chain. Each action is one atomic
    step; a transaction is named by its hash. */
module TxPool {
  import opened Common

  type Tx = nat
  type WorkId = int

  /** `full` and `verify` are the buffered channels of each thread, `capacity` their size; `known` is
      handleKnownTx, emptied when it holds `maxKnown` hashes. `accepted` and `cleared` record history:
      the transactions for which AddTx returned nil, and whether `known` was ever emptied. */
  datatype Pool = Pool(
    capacity: nat,
    maxKnown: nat,
    known: set<Tx>,
    full: seq<seq<Tx>>,
    verify: seq<seq<Tx>>,
    queue: set<Tx>,
    pending: set<Tx>,
    working: map<WorkId, seq<Tx>>,
    onChain: map<Tx, nat>,
    accepted: set<Tx>,
    cleared: bool)

  // ---------------------------------------------------------------- the code on values

  predicate DupTx(p: Pool, tx: Tx) {
    tx in p.known || tx in p.queue || tx in p.pending || tx in p.onChain
  }

  function RememberTx(p: Pool, tx: Tx): Pool {
    if |p.known| >= p.maxKnown then p.(known := {tx}, cleared := true) else p.(known := p.known + {tx})
  }

  /** The first channel with room among those tried from `start` on, or the number of threads. */
  function Room(p: Pool, start: nat, try: nat): (i: nat)
    ensures i <= |p.full|
    ensures i < |p.full| ==> |p.full[i]| < p.capacity
    decreases |p.full| - try
  {
    if try >= |p.full| then |p.full|
    else
      var i := (start + try) % |p.full|;
      if |p.full[i]| < p.capacity then i else Room(p, start, try + 1)
  }

  /** What AddTx does after its duplicate test. */
  function SendStep(p: Pool, tx: Tx, start: nat): Pool {
    var q := RememberTx(p, tx);
    var i := Room(q, start, 0);
    if i == |q.full| then q else q.(full := q.full[i := q.full[i] + [tx]], accepted := q.accepted + {tx})
  }

  function AddTxStep(p: Pool, tx: Tx, start: nat): Pool {
    if DupTx(p, tx) then p else SendStep(p, tx, start)
  }

  /** The receiving half of DealTxRoutine for thread `i`. */
  function DealFull(p: Pool, i: nat): Pool {
    if i < |p.full| && i < |p.verify| && p.full[i] != [] then
      var tx := p.full[i][0];
      var q := p.(full := p.full[i := p.full[i][1..]], queue := p.queue + {tx});
      if |q.verify[i]| < q.capacity then q.(verify := q.verify[i := q.verify[i] + [tx]]) else q
    else p
  }

  /** The verifying half; verifyTx accepts everything. */
  function DealVerify(p: Pool, i: nat): Pool {
    if i < |p.verify| && p.verify[i] != [] then
      var tx := p.verify[i][0];
      p.(verify := p.verify[i := p.verify[i][1..]], pending := p.pending + {tx}, queue := p.queue - {tx})
    else p
  }

  /** Pending takes the transactions its iteration met. */
  function Take(p: Pool, id: WorkId, txs: seq<Tx>): Pool {
    var q := p.(pending := p.pending - Elems(txs));
    if txs != [] then q.(working := q.working[id := txs]) else q
  }

  function Elems(txs: seq<Tx>): set<Tx> {
    set t | t in txs
  }

  function WorkEndedStep(p: Pool, id: WorkId, number: nat, succeed: bool): Pool {
    if id !in p.working then p
    else
      var txs, q := p.working[id], p.(working := p.working - {id});
      if succeed then q.(onChain := q.onChain + map t | t in txs :: number)
      else q.(pending := q.pending + Elems(txs))
  }

  // ---------------------------------------------------------------- places

  datatype Place = InFull(thread: nat) | InQueue | InPending | InBatch(id: WorkId) | OnChain

  predicate At(p: Pool, tx: Tx, x: Place) {
    match x
    case InFull(i) => i < |p.full| && tx in p.full[i]
    case InQueue => tx in p.queue
    case InPending => tx in p.pending
    case InBatch(id) => id in p.working && tx in p.working[id]
    case OnChain => tx in p.onChain
  }

  ghost predicate NowhereTwice(p: Pool) {
    && (forall tx, x, y :: At(p, tx, x) && At(p, tx, y) ==> x == y)
    && (forall i :: 0 <= i < |p.full| ==> NoDup(p.full[i]))
    && (forall id :: id in p.working ==> NoDup(p.working[id]))
  }

  /** A transaction waits for the verifier once, and only while it is queued. */
  predicate VerifyQueued(p: Pool) {
    && (forall i, t :: 0 <= i < |p.verify| && t in p.verify[i] ==> t in p.queue)
    && (forall i :: 0 <= i < |p.verify| ==> NoDup(p.verify[i]))
    && (forall i, j, t :: 0 <= i < j < |p.verify| && t in p.verify[i] ==> t !in p.verify[j])
  }

  /** Conservation: an accepted transaction is in exactly one place, every other one in none. */
  ghost predicate Conserved(p: Pool) {
    && NowhereTwice(p)
    && (forall tx, x :: At(p, tx, x) ==> tx in p.accepted)
    && (forall tx :: tx in p.accepted ==> exists x :: At(p, tx, x))
    && VerifyQueued(p)
  }

  ghost predicate Inv(p: Pool) {
    Conserved(p) && (!p.cleared ==> p.accepted <= p.known)
  }

  lemma FreshPool(threads: nat, capacity: nat, maxKnown: nat)
    ensures Inv(Pool(capacity, maxKnown, {}, seq(threads, _ => []), seq(threads, _ => []), {}, {}, map[], map[], {}, false))
  {
  }

  // ---------------------------------------------------------------- one step

  /** A step that moves a set of transactions keeps conservation when it gives each of them one new
      place in return for the old one and touches no other. */
  ghost predicate Shifts(p: Pool, q: Pool, moved: set<Tx>, from: Place, to: Place) {
    && from != to && q.accepted == p.accepted
    && (forall tx, x :: At(q, tx, x) <==> if tx in moved then x == to else At(p, tx, x))
    && (forall tx :: tx in moved ==> At(p, tx, from))
  }

  lemma ShiftsKeepPlaces(p: Pool, q: Pool, moved: set<Tx>, from: Place, to: Place)
    requires Conserved(p) && Shifts(p, q, moved, from, to)
    ensures forall tx, x, y :: At(q, tx, x) && At(q, tx, y) ==> x == y
    ensures forall tx, x :: At(q, tx, x) ==> tx in q.accepted
    ensures forall tx :: tx in q.accepted ==> exists x :: At(q, tx, x)
  {
    forall tx | tx in q.accepted ensures exists x :: At(q, tx, x) {
      if tx in moved {
        assert At(q, tx, to);
      } else {
        var x :| At(p, tx, x);
        assert At(q, tx, x);
      }
    }
  }

  lemma TailNoDup(s: seq<Tx>)
    requires NoDup(s) && s != []
    ensures NoDup(s[1..]) && s[0] !in s[1..]
    ensures forall t :: t in s[1..] <==> t in s && t != s[0]
  {
  }

  lemma DealFullShifts(p: Pool, i: nat)
    requires Conserved(p) && i < |p.full| && i < |p.verify| && p.full[i] != []
    ensures Shifts(p, DealFull(p, i), {p.full[i][0]}, InFull(i), InQueue)
    ensures NowhereTwice(DealFull(p, i))
  {
    var tx, q := p.full[i][0], DealFull(p, i);
    TailNoDup(p.full[i]);
    assert At(p, tx, InFull(i));
    forall t, x ensures At(q, t, x) <==> if t in {tx} then x == InQueue else At(p, t, x) {
      if t == tx && x != InQueue {
        assert x != InFull(i) ==> !At(p, tx, x);
      }
    }
    ShiftsKeepPlaces(p, q, {tx}, InFull(i), InQueue);
  }

  lemma DealFullConserves(p: Pool, i: nat)
    requires Conserved(p)
    ensures Conserved(DealFull(p, i))
  {
    if i < |p.full| && i < |p.verify| && p.full[i] != [] {
      var tx, q := p.full[i][0], DealFull(p, i);
      DealFullShifts(p, i);
      ShiftsKeepPlaces(p, q, {tx}, InFull(i), InQueue);
      assert At(p, tx, InFull(i)) && !At(p, tx, InQueue);
      assert forall j :: 0 <= j < |p.verify| ==> tx !in p.verify[j];
    }
  }

  lemma DealVerifyConserves(p: Pool, i: nat)
    requires Conserved(p)
    ensures Conserved(DealVerify(p, i))
  {
    if i < |p.verify| && p.verify[i] != [] {
      var tx, q := p.verify[i][0], DealVerify(p, i);
      TailNoDup(p.verify[i]);
      assert At(p, tx, InQueue) && !At(p, tx, InPending);
      forall t, x ensures At(q, t, x) <==> if t in {tx} then x == InPending else At(p, t, x) {
        assert x != InQueue ==> !At(p, tx, x);
      }
      ShiftsKeepPlaces(p, q, {tx}, InQueue, InPending);
    }
  }

  /** What the iteration of Pending can return: distinct pending transactions, as many as fit. */
  predicate CanTake(p: Pool, txs: seq<Tx>, maxTxs: nat) {
    NoDup(txs) && Elems(txs) <= p.pending && |txs| == if |p.pending| <= maxTxs then |p.pending| else maxTxs
  }

  /** Taking keeps conservation exactly when it does not store over a batch still in work. */
  lemma TakeConservesIff(p: Pool, id: WorkId, txs: seq<Tx>, maxTxs: nat)
    requires Conserved(p) && CanTake(p, txs, maxTxs)
    requires forall k :: k in p.working ==> p.working[k] != []
    ensures Conserved(Take(p, id, txs)) <==> txs == [] || id !in p.working
  {
    var q := Take(p, id, txs);
    if txs == [] {
      assert Elems(txs) == {} && p.pending - {} == p.pending;
      assert q == p;
    } else if id !in p.working {
      assert forall t :: t in Elems(txs) ==> At(p, t, InPending);
      forall t, x ensures At(q, t, x) <==> if t in Elems(txs) then x == InBatch(id) else At(p, t, x) {
        if t in Elems(txs) {
          assert At(p, t, InPending);
          assert x != InPending ==> !At(p, t, x);
        }
      }
      ShiftsKeepPlaces(p, q, Elems(txs), InPending, InBatch(id));
    } else {
      var lost := p.working[id][0];
      assert At(p, lost, InBatch(id));
      assert !At(p, lost, InPending);
      assert lost !in Elems(txs);
      forall x ensures !At(q, lost, x) {
        assert x != InBatch(id) ==> !At(p, lost, x);
      }
      assert lost in q.accepted;
    }
  }

  lemma WorkEndedConserves(p: Pool, id: WorkId, number: nat, succeed: bool)
    requires Conserved(p)
    ensures Conserved(WorkEndedStep(p, id, number, succeed))
  {
    if id in p.working {
      var txs, q := p.working[id], WorkEndedStep(p, id, number, succeed);
      var to := if succeed then OnChain else InPending;
      assert forall t :: t in Elems(txs) ==> At(p, t, InBatch(id));
      forall t, x ensures At(q, t, x) <==> if t in Elems(txs) then x == to else At(p, t, x) {
        if t in Elems(txs) { assert x != InBatch(id) ==> !At(p, t, x); }
      }
      ShiftsKeepPlaces(p, q, Elems(txs), InBatch(id), to);
    }
  }

  predicate Accepts(p: Pool, tx: Tx, start: nat) {
    !DupTx(p, tx) && HasRoom(p, start)
  }

  lemma RoomIgnoresKnown(p: Pool, tx: Tx, start: nat, try: nat)
    ensures Room(RememberTx(p, tx), start, try) == Room(p, start, try)
    decreases |p.full| - try
  {
    if try < |p.full| { RoomIgnoresKnown(p, tx, start, try + 1); }
  }

  predicate HasRoom(p: Pool, start: nat) {
    Room(p, start, 0) < |p.full|
  }

  predicate InSomeChannel(p: Pool, tx: Tx) {
    exists i :: 0 <= i < |p.full| && tx in p.full[i]
  }

  predicate InSomeBatch(p: Pool, tx: Tx) {
    exists id :: id in p.working && tx in p.working[id]
  }

  predicate Somewhere(p: Pool, tx: Tx) {
    InSomeChannel(p, tx) || InSomeBatch(p, tx) || tx in p.queue || tx in p.pending || tx in p.onChain
  }

  lemma SomewhereIsAccepted(p: Pool, tx: Tx)
    requires Conserved(p)
    ensures tx in p.accepted <==> Somewhere(p, tx)
  {
    if InSomeChannel(p, tx) {
      var i: nat :| i < |p.full| && tx in p.full[i];
      assert At(p, tx, InFull(i));
    } else if InSomeBatch(p, tx) {
      var id :| id in p.working && tx in p.working[id];
      assert At(p, tx, InBatch(id));
    } else {
      assert At(p, tx, InQueue) <==> tx in p.queue;
      assert At(p, tx, InPending) <==> tx in p.pending;
      assert At(p, tx, OnChain) <==> tx in p.onChain;
      assert forall x :: At(p, tx, x) ==> x.InQueue? || x.InPending? || x.OnChain?;
    }
  }

  /** Sending keeps conservation exactly when no channel had room or the transaction was nowhere in the pool at
      that moment, whatever the duplicate test said before. */
  lemma SendConservesIff(p: Pool, tx: Tx, start: nat)
    requires Conserved(p)
    ensures Conserved(SendStep(p, tx, start)) <==> !HasRoom(p, start) || !Somewhere(p, tx)
  {
    RoomIgnoresKnown(p, tx, start, 0);
    SomewhereIsAccepted(p, tx);
    if !HasRoom(p, start) {
      SamePlaces(p, SendStep(p, tx, start));
    } else if tx in p.accepted {
      SendAgain(p, tx, start);
    } else {
      SendNew(p, tx, start);
    }
  }

  /** A call that is accepted keeps conservation exactly when its transaction was in no full channel and in no
      batch, the two places the duplicate test does not look at. */
  lemma AddConservesIff(p: Pool, tx: Tx, start: nat)
    requires Conserved(p)
    ensures !Accepts(p, tx, start) ==> Conserved(AddTxStep(p, tx, start))
    ensures Accepts(p, tx, start) ==> (Conserved(AddTxStep(p, tx, start)) <==> !InSomeChannel(p, tx) && !InSomeBatch(p, tx))
  {
    SendConservesIff(p, tx, start);
  }

  lemma SendAgain(p: Pool, tx: Tx, start: nat)
    requires Conserved(p) && HasRoom(p, start) && tx in p.accepted
    ensures !NowhereTwice(SendStep(p, tx, start))
  {
    RoomIgnoresKnown(p, tx, start, 0);
    var q, i := SendStep(p, tx, start), Room(p, start, 0);
    var x :| At(p, tx, x);
    assert At(q, tx, InFull(i));
    if x != InFull(i) {
      assert At(q, tx, x);
    } else {
      var s := p.full[i];
      var k :| 0 <= k < |s| && s[k] == tx;
      assert q.full[i] == s + [tx];
      assert q.full[i][k] == q.full[i][|s|];
      assert !NoDup(q.full[i]);
    }
  }

  lemma SendNew(p: Pool, tx: Tx, start: nat)
    requires Conserved(p) && HasRoom(p, start) && tx !in p.accepted
    ensures Conserved(SendStep(p, tx, start))
  {
    RoomIgnoresKnown(p, tx, start, 0);
    var q, i := SendStep(p, tx, start), Room(p, start, 0);
    AddPlaces(p, q, tx, i);
    assert forall x :: !At(p, tx, x);
    assert At(q, tx, InFull(i));
    forall t | t in q.accepted ensures exists x :: At(q, t, x) {
      if t != tx { var x :| At(p, t, x); assert At(q, t, x); }
    }
  }

  lemma AddPlaces(p: Pool, q: Pool, tx: Tx, i: nat)
    requires Conserved(p) && i < |p.full| && tx !in p.accepted
    requires q == p.(known := q.known, cleared := q.cleared, full := p.full[i := p.full[i] + [tx]], accepted := p.accepted + {tx})
    ensures forall t, x :: At(q, t, x) <==> At(p, t, x) || (t == tx && x == InFull(i))
    ensures forall k :: 0 <= k < |q.full| ==> NoDup(q.full[k])
  {
    forall t, x ensures At(q, t, x) <==> At(p, t, x) || (t == tx && x == InFull(i)) {}
    assert tx !in p.full[i] by { assert !At(p, tx, InFull(i)); }
    assert NoDup(q.full[i]);
  }

  lemma SamePlaces(p: Pool, q: Pool)
    requires Conserved(p) && q == p.(known := q.known, cleared := q.cleared)
    ensures Conserved(q)
  {
    assert forall t, x :: At(q, t, x) <==> At(p, t, x);
    forall t | t in q.accepted ensures exists x :: At(q, t, x) { var x :| At(p, t, x); assert At(q, t, x); }
  }

  // ---------------------------------------------------------------- what each step does

  predicate SomeRoom(p: Pool) {
    exists i :: 0 <= i < |p.full| && |p.full[i]| < p.capacity
  }

  /** The channel that the turn from `start` on reaches at try `k`. */
  function Turn(p: Pool, start: nat, k: nat): (i: nat)
    requires k < |p.full|
    ensures i < |p.full|
  {
    (start + k) % |p.full|
  }

  /** The first try from `start` on that meets a channel with room. */
  ghost predicate FirstRoom(p: Pool, start: nat, k: nat) {
    && k < |p.full| && |p.full[Turn(p, start, k)]| < p.capacity
    && forall j: nat :: j < k ==> |p.full[Turn(p, start, j)]| >= p.capacity
  }

  function Appended(channels: seq<seq<Tx>>, i: nat, tx: Tx): seq<seq<Tx>>
    requires i < |channels|
  {
    channels[i := channels[i] + [tx]]
  }

  lemma {:induction false} RoomIsFirst(p: Pool, start: nat, try: nat)
    requires try <= |p.full| && forall j: nat :: j < try ==> |p.full[Turn(p, start, j)]| >= p.capacity
    ensures Room(p, start, try) < |p.full| ==> exists k: nat :: FirstRoom(p, start, k) && Room(p, start, try) == Turn(p, start, k)
    ensures Room(p, start, try) == |p.full| ==> forall j: nat :: j < |p.full| ==> |p.full[Turn(p, start, j)]| >= p.capacity
    decreases |p.full| - try
  {
    if try < |p.full| {
      if |p.full[Turn(p, start, try)]| < p.capacity {
        assert FirstRoom(p, start, try);
      } else {
        RoomIsFirst(p, start, try + 1);
      }
    }
  }

  /** The turn reaches every channel. */
  lemma TurnReaches(p: Pool, start: nat, i: nat) returns (k: nat)
    requires i < |p.full|
    ensures k < |p.full| && Turn(p, start, k) == i
  {
    var n := |p.full|;
    var at, q := start % n, start / n;
    if i >= at {
      k := i - at;
      Residue(n, q, i, start + k);
    } else {
      k := i + n - at;
      assert n * (q + 1) == n * q + n;
      Residue(n, q + 1, i, start + k);
    }
  }

  lemma Residue(n: nat, q: nat, r: nat, x: nat)
    requires r < n && x == n * q + r
    ensures x % n == r
  {
    if q != x / n { MultipleIsFar(n, q - x / n); }
  }

  lemma MultipleIsFar(n: int, d: int)
    requires n > 0 && d != 0
    ensures n * d >= n || n * d <= -n
  {
  }

  lemma HasRoomIff(p: Pool, start: nat)
    ensures HasRoom(p, start) <==> SomeRoom(p)
  {
    RoomIsFirst(p, start, 0);
    if SomeRoom(p) {
      var i :| 0 <= i < |p.full| && |p.full[i]| < p.capacity;
      var k := TurnReaches(p, start, i);
    }
  }

  /** AddTx takes a transaction exactly if it is not in `known`, queued, pending or on the chain and some
      channel has room; it goes to the end of the first such channel from `start` on. Nothing else changes
      but `known`. */
  lemma AddTxOutcome(p: Pool, tx: Tx, start: nat)
    ensures var q := AddTxStep(p, tx, start);
            var dup := tx in p.known || tx in p.queue || tx in p.pending || tx in p.onChain;
            && (Accepts(p, tx, start) <==> !dup && SomeRoom(p))
            && (!dup && SomeRoom(p) ==> exists k: nat :: FirstRoom(p, start, k) && q.full == Appended(p.full, Turn(p, start, k), tx))
            && (dup || !SomeRoom(p) ==> q.full == p.full && q.accepted == p.accepted)
            && (dup ==> q.known == p.known)
            && (!dup ==> tx in q.known && (p.known <= q.known <==> |p.known| < p.maxKnown || p.known <= {tx}))
            && q.verify == p.verify && q.queue == p.queue && q.pending == p.pending
            && q.working == p.working && q.onChain == p.onChain
  {
    HasRoomIff(p, start);
    RoomIgnoresKnown(p, tx, start, 0);
    RoomIsFirst(p, start, 0);
  }

  /** Thread `i` stores the first transaction of its channel in the queue and passes it on to the end of its
      verify channel exactly if that has room. */
  lemma DealFullOutcome(p: Pool, i: nat, tx: Tx, rest: seq<Tx>)
    requires i < |p.full| && i < |p.verify| && p.full[i] == [tx] + rest
    ensures var q := DealFull(p, i);
            && q.full == p.full[i := rest] && q.queue == p.queue + {tx} && |q.verify| == |p.verify|
            && (|p.verify[i]| < p.capacity ==> q.verify[i] == p.verify[i] + [tx])
            && (|p.verify[i]| >= p.capacity ==> q.verify[i] == p.verify[i])
            && (forall j :: 0 <= j < |p.verify| && j != i ==> q.verify[j] == p.verify[j])
            && q.pending == p.pending && q.working == p.working && q.onChain == p.onChain && q.known == p.known
  {
    assert p.full[i][1..] == rest;
  }

  /** The verifier of thread `i` moves the first transaction of its channel from the queue to pending. */
  lemma DealVerifyOutcome(p: Pool, i: nat, tx: Tx, rest: seq<Tx>)
    requires i < |p.verify| && p.verify[i] == [tx] + rest
    ensures var q := DealVerify(p, i);
            && q.verify == p.verify[i := rest] && q.pending == p.pending + {tx}
            && tx !in q.queue && (forall t :: t != tx ==> (t in q.queue <==> t in p.queue))
            && q.full == p.full && q.working == p.working && q.onChain == p.onChain && q.known == p.known
  {
    assert p.verify[i][1..] == rest;
  }

  /** Pending moves what it returns from pending to the batch of the work. */
  lemma TakeOutcome(p: Pool, id: WorkId, txs: seq<Tx>, t: Tx)
    ensures var q := Take(p, id, txs);
            && (t in q.pending <==> t in p.pending && t !in txs)
            && (txs != [] ==> id in q.working && q.working[id] == txs)
            && (forall k :: k != id || txs == [] ==> (k in q.working <==> k in p.working))
            && (forall k :: k in p.working && (k != id || txs == []) ==> q.working[k] == p.working[k])
            && q.full == p.full && q.verify == p.verify && q.queue == p.queue && q.onChain == p.onChain
  {
  }

  /** A written work puts each transaction of its batch on the chain with the block's number, a work given up
      puts each back to pending. The batch is gone, the others stay, and an unknown work changes nothing. */
  lemma WorkEndedOutcome(p: Pool, id: WorkId, number: nat, succeed: bool, t: Tx)
    ensures var q := WorkEndedStep(p, id, number, succeed);
            && (id !in p.working ==> q == p)
            && (id in p.working && succeed ==>
                && q.pending == p.pending
                && (t in q.onChain <==> t in p.onChain || t in p.working[id])
                && (t in p.working[id] ==> q.onChain[t] == number)
                && (t in p.onChain && t !in p.working[id] ==> q.onChain[t] == p.onChain[t]))
            && (id in p.working && !succeed ==>
                && q.onChain == p.onChain
                && (t in q.pending <==> t in p.pending || t in p.working[id]))
            && id !in q.working
            && (forall k :: k != id ==> (k in q.working <==> k in p.working))
            && (forall k :: k in q.working ==> q.working[k] == p.working[k])
            && q.full == p.full && q.verify == p.verify && q.queue == p.queue && q.known == p.known
  {
  }

  predicate NonEmptyBatches(p: Pool) {
    forall k :: k in p.working ==> p.working[k] != []
  }

  // ---------------------------------------------------------------- the object

  class TxPool {
    const capacity: nat
    const maxKnown: nat
    var known: set<Tx>
    var fullCh: seq<seq<Tx>>
    var verifyCh: seq<seq<Tx>>
    var queue: set<Tx>
    var pending: set<Tx>
    var working: map<WorkId, seq<Tx>>
    var onChain: map<Tx, nat>
    ghost var accepted: set<Tx>
    ghost var cleared: bool

    ghost function View(): Pool
      reads this
    {
      Pool(capacity, maxKnown, known, fullCh, verifyCh, queue, pending, working, onChain, accepted, cleared)
    }

    constructor (threads: nat, capacity: nat, maxKnown: nat)
      ensures Inv(View()) && NonEmptyBatches(View()) && |fullCh| == threads
    {
      this.capacity, this.maxKnown := capacity, maxKnown;
      known, queue, pending, working, onChain := {}, {}, {}, map[], map[];
      fullCh, verifyCh := seq(threads, _ => []), seq(threads, _ => []);
      accepted, cleared := {}, false;
      new;
      FreshPool(threads, capacity, maxKnown);
    }

    /** The channels are tried in turn from `start` on. */
    method FindRoom(start: nat) returns (index: nat)
      ensures index == Room(View(), start, 0)
    {
      var try := 0;
      while try < |fullCh|
        invariant 0 <= try <= |fullCh|
        invariant Room(View(), start, try) == Room(View(), start, 0)
      {
        index := (start + try) % |fullCh|;
        if |fullCh[index]| < capacity { return; }
        try := try + 1;
      }
      return |fullCh|;
    }

    method KnownTxAdd(tx: Tx)
      modifies this`known, this`cleared
      ensures known == if |old(known)| >= maxKnown then {tx} else old(known) + {tx}
      ensures cleared == (old(cleared) || |old(known)| >= maxKnown)
    {
      if |known| >= maxKnown {
        known := {};
        cleared := true;
      }
      known := known + {tx};
    }

    method AddTx(tx: Tx, start: nat) returns (ok: bool)
      modifies this
      ensures View() == AddTxStep(old(View()), tx, start)
      ensures ok <==> tx !in old(known) && tx !in old(queue) && tx !in old(pending) && tx !in old(onChain) && SomeRoom(old(View()))
    {
      if tx in known || tx in queue || tx in pending || tx in onChain { return false; }
      RoomIgnoresKnown(View(), tx, start, 0);
      HasRoomIff(View(), start);
      KnownTxAdd(tx);
      var index := FindRoom(start);
      if index == |fullCh| { return false; }
      fullCh := fullCh[index := fullCh[index] + [tx]];
      accepted := accepted + {tx};
      return true;
    }

    /** The iteration of Pending meets the pending transactions in any order. */
    method Drain(maxtxs: nat) returns (txs: seq<Tx>)
      modifies this`pending
      ensures NoDup(txs) && Elems(txs) <= old(pending)
      ensures |txs| == if |old(pending)| <= maxtxs then |old(pending)| else maxtxs
      ensures pending == old(pending) - Elems(txs)
    {
      txs := [];
      while |txs| < maxtxs && pending != {}
        invariant NoDup(txs) && Elems(txs) <= old(pending)
        invariant pending == old(pending) - Elems(txs)
        invariant |pending| == |old(pending)| - |txs| && |txs| <= maxtxs
        decreases |pending|
      {
        var tx :| tx in pending;
        assert Elems(txs + [tx]) == Elems(txs) + {tx};
        txs := txs + [tx];
        pending := pending - {tx};
      }
    }

    method Pending(workid: WorkId, maxtxs: nat) returns (txs: seq<Tx>)
      modifies this
      ensures CanTake(old(View()), txs, maxtxs)
      ensures View() == Take(old(View()), workid, txs)
    {
      txs := Drain(maxtxs);
      if |txs| > 0 {
        working := working[workid := txs];
      }
    }

    /** The loop of WorkEnded for a block that was written. */
    method PutOnChain(txs: seq<Tx>, blocknumber: nat)
      modifies this`onChain
      ensures onChain == old(onChain) + map t | t in txs :: blocknumber
    {
      for i := 0 to |txs|
        invariant onChain == old(onChain) + map t | t in txs[..i] :: blocknumber
      {
        assert txs[..i + 1] == txs[..i] + [txs[i]];
        onChain := onChain[txs[i] := blocknumber];
      }
      assert txs[..|txs|] == txs;
    }

    /** The loop of WorkEnded for a work that was given up. */
    method PutPending(txs: seq<Tx>)
      modifies this`pending
      ensures pending == old(pending) + Elems(txs)
    {
      for i := 0 to |txs|
        invariant pending == old(pending) + Elems(txs[..i])
      {
        assert txs[..i + 1] == txs[..i] + [txs[i]];
        pending := pending + {txs[i]};
      }
      assert txs[..|txs|] == txs;
    }

    method WorkEnded(workid: WorkId, blocknumber: nat, succeed: bool)
      modifies this
      ensures View() == WorkEndedStep(old(View()), workid, blocknumber, succeed)
      ensures succeed ==> pending == old(pending)
      ensures workid in old(working) && succeed ==> forall t :: t in old(working)[workid] ==> t in onChain && onChain[t] == blocknumber
      ensures !succeed ==> onChain == old(onChain)
      ensures workid in old(working) && !succeed ==> forall t :: t in old(working)[workid] ==> t in pending
    {
      if workid in working {
        var txs := working[workid];
        if succeed { PutOnChain(txs, blocknumber); } else { PutPending(txs); }
        working := working - {workid};
      }
    }
  }
}
