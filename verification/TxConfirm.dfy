/** updateTxConfirm of worker/worker_verify.go: the confirmations counted in a pool are moved into the stored
    receipts. Blocks are numbered by their place in the store, transactions by their hash. */
module TxConfirm {
  import opened Common

  type Tx = nat

  datatype Receipt = Receipt(tx: Tx, count: nat)

  /** A lookup entry of a transaction: its block and its index in the block. */
  datatype Entry = Entry(block: nat, index: nat)

  // ---------------------------------------------------------------- sums

  ghost function SumPool(pool: map<Tx, nat>): nat
    decreases |pool|
  {
    if pool == map[] then 0
    else
      var t :| t in pool;
      RemoveSize(pool, t);
      pool[t] + SumPool(pool - {t})
  }

  lemma RemoveSize(pool: map<Tx, nat>, t: Tx)
    requires t in pool
    ensures |pool - {t}| == |pool| - 1
  {
    assert (pool - {t}).Keys == pool.Keys - {t};
  }

  lemma {:induction false} SumRemove(pool: map<Tx, nat>, t: Tx)
    requires t in pool
    ensures SumPool(pool) == pool[t] + SumPool(pool - {t})
    decreases |pool|
  {
    var u :| u in pool && SumPool(pool) == pool[u] + SumPool(pool - {u});
    if u != t {
      RemoveSize(pool, u);
      RemoveSize(pool, t);
      SumRemove(pool - {u}, t);
      SumRemove(pool - {t}, u);
      assert pool - {u} - {t} == pool - {t} - {u};
    }
  }

  function SumCounts(receipts: seq<Receipt>): nat
    decreases |receipts|
  {
    if receipts == [] then 0 else SumCounts(receipts[..|receipts| - 1]) + receipts[|receipts| - 1].count
  }

  function SumBlocks(store: seq<seq<Receipt>>): nat
    decreases |store|
  {
    if store == [] then 0 else SumBlocks(store[..|store| - 1]) + SumCounts(store[|store| - 1])
  }

  lemma {:induction false} SumBlocksSet(store: seq<seq<Receipt>>, b: nat, receipts: seq<Receipt>)
    requires b < |store|
    ensures SumBlocks(store[b := receipts]) + SumCounts(store[b]) == SumBlocks(store) + SumCounts(receipts)
    decreases |store|
  {
    var n := |store| - 1;
    if b == n {
      assert store[b := receipts][..n] == store[..n];
    } else {
      SumBlocksSet(store[..n], b, receipts);
      assert store[b := receipts][..n] == store[..n][b := receipts];
    }
  }

  /** The confirmations in the receipts of one transaction. */
  function CountOf(receipts: seq<Receipt>, t: Tx): nat
    decreases |receipts|
  {
    if receipts == [] then 0
    else
      var last := receipts[|receipts| - 1];
      CountOf(receipts[..|receipts| - 1], t) + if last.tx == t then last.count else 0
  }

  function CountIn(store: seq<seq<Receipt>>, t: Tx): nat
    decreases |store|
  {
    if store == [] then 0 else CountIn(store[..|store| - 1], t) + CountOf(store[|store| - 1], t)
  }

  lemma {:induction false} CountInSet(store: seq<seq<Receipt>>, b: nat, receipts: seq<Receipt>, t: Tx)
    requires b < |store|
    ensures CountIn(store[b := receipts], t) + CountOf(store[b], t) == CountIn(store, t) + CountOf(receipts, t)
    decreases |store|
  {
    var n := |store| - 1;
    if b == n {
      assert store[b := receipts][..n] == store[..n];
    } else {
      CountInSet(store[..n], b, receipts, t);
      assert store[b := receipts][..n] == store[..n][b := receipts];
    }
  }

  function Pooled(pool: map<Tx, nat>, t: Tx): nat {
    if t in pool then pool[t] else 0
  }

  // ---------------------------------------------------------------- one block

  datatype Applied = Applied(pool: map<Tx, nat>, receipts: seq<Receipt>, cnt: nat)

  /** One receipt: a pooled count is added to it and leaves the pool. */
  function ApplyOne(a: Applied, r: Receipt): Applied {
    if r.tx in a.pool then Applied(a.pool - {r.tx}, a.receipts + [r.(count := r.count + a.pool[r.tx])], a.cnt + 1)
    else a.(receipts := a.receipts + [r])
  }

  /** The inner loop over the receipts of a block. */
  function Apply(pool: map<Tx, nat>, receipts: seq<Receipt>): Applied
    decreases |receipts|
  {
    if receipts == [] then Applied(pool, [], 0)
    else ApplyOne(Apply(pool, receipts[..|receipts| - 1]), receipts[|receipts| - 1])
  }

  predicate Holds(receipts: seq<Receipt>, t: Tx) {
    exists i :: 0 <= i < |receipts| && receipts[i].tx == t
  }

  /** A receipt gained nothing, or exactly what was pooled for its own transaction. */
  predicate Gained(before: Receipt, after: Receipt, pool: map<Tx, nat>) {
    && after.tx == before.tx
    && (after.count == before.count || (before.tx in pool && after.count == before.count + pool[before.tx]))
  }

  predicate Grown(before: seq<Receipt>, after: seq<Receipt>, pool: map<Tx, nat>) {
    |after| == |before| && forall i :: 0 <= i < |before| ==> Gained(before[i], after[i], pool)
  }

  predicate Within(part: map<Tx, nat>, pool: map<Tx, nat>) {
    forall t :: t in part ==> t in pool && part[t] == pool[t]
  }

  lemma SumAppend(receipts: seq<Receipt>, r: Receipt)
    ensures SumCounts(receipts + [r]) == SumCounts(receipts) + r.count
  {
    assert (receipts + [r])[..|receipts|] == receipts;
  }

  lemma ApplyOneAdds(a: Applied, r: Receipt)
    ensures SumCounts(ApplyOne(a, r).receipts) == SumCounts(a.receipts) + r.count + Pooled(a.pool, r.tx)
  {
    ApplyOneGives(a, r);
    SumAppend(a.receipts, Receipt(r.tx, r.count + Pooled(a.pool, r.tx)));
  }

  lemma ApplyOneConserves(a: Applied, r: Receipt)
    ensures SumPool(ApplyOne(a, r).pool) + SumCounts(ApplyOne(a, r).receipts) == SumPool(a.pool) + SumCounts(a.receipts) + r.count
  {
    ApplyOneAdds(a, r);
    if r.tx in a.pool { SumRemove(a.pool, r.tx); }
  }

  /** One pass conserves: what the pool loses the receipts gain. */
  lemma {:induction false} ApplyConserves(pool: map<Tx, nat>, receipts: seq<Receipt>)
    ensures SumPool(Apply(pool, receipts).pool) + SumCounts(Apply(pool, receipts).receipts) == SumPool(pool) + SumCounts(receipts)
    decreases |receipts|
  {
    if receipts != [] {
      var n := |receipts| - 1;
      ApplyConserves(pool, receipts[..n]);
      ApplyOneConserves(Apply(pool, receipts[..n]), receipts[n]);
    }
  }

  lemma CountAppend(receipts: seq<Receipt>, r: Receipt, t: Tx)
    ensures CountOf(receipts + [r], t) == CountOf(receipts, t) + if r.tx == t then r.count else 0
  {
    assert (receipts + [r])[..|receipts|] == receipts;
  }

  lemma {:induction false} ApplyLength(pool: map<Tx, nat>, receipts: seq<Receipt>)
    ensures |Apply(pool, receipts).receipts| == |receipts|
    decreases |receipts|
  {
    if receipts != [] { ApplyLength(pool, receipts[..|receipts| - 1]); }
  }

  lemma ApplyOneGives(a: Applied, r: Receipt)
    ensures ApplyOne(a, r).receipts == a.receipts + [Receipt(r.tx, r.count + Pooled(a.pool, r.tx))]
  {
  }

  lemma ApplyOneLeaves(a: Applied, r: Receipt, t: Tx)
    ensures Pooled(ApplyOne(a, r).pool, t) == if r.tx == t then 0 else Pooled(a.pool, t)
  {
  }

  lemma ApplyOneConservesEach(a: Applied, r: Receipt, t: Tx)
    ensures var b := ApplyOne(a, r);
            Pooled(b.pool, t) + CountOf(b.receipts, t) == Pooled(a.pool, t) + CountOf(a.receipts, t) + if r.tx == t then r.count else 0
  {
    ApplyOneGives(a, r);
    ApplyOneLeaves(a, r, t);
    CountAppend(a.receipts, Receipt(r.tx, r.count + Pooled(a.pool, r.tx)), t);
  }

  /** The same for each transaction by itself. */
  lemma {:induction false} ApplyConservesEach(pool: map<Tx, nat>, receipts: seq<Receipt>, t: Tx)
    ensures var a := Apply(pool, receipts); Pooled(a.pool, t) + CountOf(a.receipts, t) == Pooled(pool, t) + CountOf(receipts, t)
    decreases |receipts|
  {
    if receipts != [] {
      var n := |receipts| - 1;
      ApplyConservesEach(pool, receipts[..n], t);
      ApplyOneConservesEach(Apply(pool, receipts[..n]), receipts[n], t);
    }
  }

  /** The first receipt of a pooled transaction gains what was pooled for it, every other receipt nothing. */
  lemma {:induction false} ApplyGives(pool: map<Tx, nat>, receipts: seq<Receipt>, i: nat)
    requires i < |receipts|
    ensures var r, a := receipts[i], Apply(pool, receipts).receipts;
            |a| == |receipts| && a[i] == Receipt(r.tx, r.count + if Holds(receipts[..i], r.tx) then 0 else Pooled(pool, r.tx))
    decreases |receipts|
  {
    var n := |receipts| - 1;
    var front, r := receipts[..n], receipts[n];
    ApplyLength(pool, front);
    ApplyOneGives(Apply(pool, front), r);
    if i < n {
      ApplyGives(pool, front, i);
      assert front[..i] == receipts[..i];
    } else {
      ApplyTakes(pool, front, r.tx);
    }
  }

  /** The receipts only grow, and nothing happens when no transaction of theirs was pooled. */
  lemma {:induction false} ApplyGrows(pool: map<Tx, nat>, receipts: seq<Receipt>)
    ensures var a := Apply(pool, receipts);
            && Grown(receipts, a.receipts, pool) && Within(a.pool, pool)
            && (a.cnt == 0 ==> a.pool == pool && a.receipts == receipts)
    decreases |receipts|
  {
    if receipts != [] {
      var n := |receipts| - 1;
      ApplyGrows(pool, receipts[..n]);
      assert receipts == receipts[..n] + [receipts[n]];
    }
  }

  lemma {:induction false} ApplyTakes(pool: map<Tx, nat>, receipts: seq<Receipt>, t: Tx)
    ensures t in Apply(pool, receipts).pool <==> t in pool && !Holds(receipts, t)
    ensures t in Apply(pool, receipts).pool ==> Apply(pool, receipts).pool[t] == pool[t]
    decreases |receipts|
  {
    if receipts != [] {
      var n := |receipts| - 1;
      ApplyTakes(pool, receipts[..n], t);
      HoldsSplit(receipts, n, t);
    }
  }

  // ---------------------------------------------------------------- the pass over the pool

  /** The database, the pool, and the batch that is written at the end. */
  datatype State = State(store: seq<seq<Receipt>>, lookup: map<Tx, Entry>, pool: map<Tx, nat>, batch: map<nat, seq<Receipt>>, cnt: nat)

  /** GetBlockReceiptsByTx finds the receipts of the block of `t`. */
  predicate Resolves(s: State, t: Tx) {
    t in s.lookup && s.lookup[t].block < |s.store| && s.lookup[t].index < |s.store[s.lookup[t].block]|
  }

  /** One round of the loop. The receipts are read from the database, not from the batch. */
  function Visit(s: State, t: Tx): State {
    if Resolves(s, t) then
      var b := s.lookup[t].block;
      var a := Apply(s.pool, s.store[b]);
      s.(pool := a.pool, batch := s.batch[b := a.receipts], cnt := s.cnt + a.cnt)
    else s
  }

  /** What the store will be after the batch is written. */
  function Merged(s: State): (m: seq<seq<Receipt>>)
    ensures |m| == |s.store|
    ensures forall b :: 0 <= b < |s.store| ==> m[b] == if b in s.batch then s.batch[b] else s.store[b]
  {
    seq(|s.store|, b requires 0 <= b < |s.store| => if b in s.batch then s.batch[b] else s.store[b])
  }

  ghost function Total(s: State): nat {
    SumPool(s.pool) + SumBlocks(Merged(s))
  }

  lemma MergedAfter(s: State, t: Tx)
    requires Resolves(s, t)
    ensures var b := s.lookup[t].block; Merged(Visit(s, t)) == Merged(s)[b := Apply(s.pool, s.store[b]).receipts]
  {
  }

  /** What a round does to the total: it is changed by what the batch held for the block beyond the database. */
  lemma VisitTotal(s: State, t: Tx)
    requires Resolves(s, t)
    ensures var b := s.lookup[t].block; Total(Visit(s, t)) + SumCounts(Merged(s)[b]) == Total(s) + SumCounts(s.store[b])
  {
    var b := s.lookup[t].block;
    ApplyConserves(s.pool, s.store[b]);
    MergedAfter(s, t);
    SumBlocksSet(Merged(s), b, Apply(s.pool, s.store[b]).receipts);
  }

  /** The confirmations of one transaction, in the pool and in the store after the batch is written. */
  function Share(s: State, t: Tx): nat {
    Pooled(s.pool, t) + CountIn(Merged(s), t)
  }

  lemma VisitShare(s: State, t: Tx, x: Tx)
    requires Resolves(s, t)
    ensures var b := s.lookup[t].block; Share(Visit(s, t), x) + CountOf(Merged(s)[b], x) == Share(s, x) + CountOf(s.store[b], x)
  {
    var b := s.lookup[t].block;
    ApplyConservesEach(s.pool, s.store[b], x);
    MergedAfter(s, t);
    CountInSet(Merged(s), b, Apply(s.pool, s.store[b]).receipts, x);
  }

  /** A round conserves the confirmations if and only if its block is not yet in the batch, or is there with
      the same sum as in the database: a second visit puts the old counts back. */
  lemma VisitConservesIff(s: State, t: Tx)
    requires Resolves(s, t)
    ensures var b := s.lookup[t].block;
            Total(Visit(s, t)) == Total(s) <==> b !in s.batch || SumCounts(s.batch[b]) == SumCounts(s.store[b])
  {
    VisitTotal(s, t);
  }

  // ---------------------------------------------------------------- a whole pass

  /** A round, receipt by receipt: if the lookup entry of `t` names a receipt in the store, the whole block is put in
      the batch as it is in the store, but with the pooled count added to the first receipt of each pooled
      transaction, and exactly those transactions leave the pool. Without such a receipt nothing happens. */
  lemma VisitOutcome(s: State, t: Tx, i: nat, x: Tx)
    ensures var u := Visit(s, t);
            if t in s.lookup && s.lookup[t].block < |s.store| && s.lookup[t].index < |s.store[s.lookup[t].block]| then
              var b := s.lookup[t].block;
              var before := s.store[b];
              && b in u.batch && u.batch == s.batch[b := u.batch[b]] && |u.batch[b]| == |before|
              && (i < |before| ==> u.batch[b][i] == before[i].(count := before[i].count +
                    if exists j :: 0 <= j < i && before[j].tx == before[i].tx then 0 else Pooled(s.pool, before[i].tx)))
              && (x in u.pool <==> x in s.pool && forall j :: 0 <= j < |before| ==> before[j].tx != x)
              && u.cnt + |u.pool| == s.cnt + |s.pool| && u.store == s.store && u.lookup == s.lookup
            else u == s
  {
    if Resolves(s, t) {
      var receipts := s.store[s.lookup[t].block];
      ApplyCounts(s.pool, receipts);
      ApplyTakes(s.pool, receipts, x);
      ApplyGrows(s.pool, receipts);
      if i < |receipts| {
        ApplyGives(s.pool, receipts, i);
        EarlierReceipt(receipts, i);
      }
    }
  }

  lemma EarlierReceipt(receipts: seq<Receipt>, i: nat)
    requires i < |receipts|
    ensures Holds(receipts[..i], receipts[i].tx) <==> exists j :: 0 <= j < i && receipts[j].tx == receipts[i].tx
  {
    if j :| 0 <= j < i && receipts[j].tx == receipts[i].tx { assert receipts[..i][j].tx == receipts[i].tx; }
  }

  /** If two pooled transactions resolve to a block that is not in the batch, the visit of the second after the
      first loses exactly the confirmations that the first visit took from the pool. */
  lemma SecondVisitLoses(s: State, t: Tx, u: Tx)
    requires Resolves(s, t) && Resolves(s, u) && s.lookup[t].block == s.lookup[u].block && s.lookup[t].block !in s.batch
    ensures Total(Visit(Visit(s, t), u)) + SumPool(s.pool) == Total(s) + SumPool(Visit(s, t).pool)
  {
    var b := s.lookup[t].block;
    VisitTotal(s, t);
    VisitTotal(Visit(s, t), u);
    ApplyConserves(s.pool, s.store[b]);
  }

  /** After so many confirmations a pass stops. */
  const PASS_LIMIT := 10000

  /** One turn of the loop: nothing once the pass has stopped, or for a transaction that left the pool meanwhile. */
  function Turn(s: State, t: Tx): State {
    if s.cnt <= PASS_LIMIT && t in s.pool then Visit(s, t) else s
  }

  /** A pass over the transactions in this order. */
  function Pass(s: State, order: seq<Tx>): State
    decreases |order|
  {
    if order == [] then s else Turn(Pass(s, order[..|order| - 1]), order[|order| - 1])
  }

  /** An order in which the iteration over the pool may go. */
  ghost predicate IsOrder(s: State, order: seq<Tx>) {
    NoDup(order) && forall t :: t in order <==> t in s.pool
  }

  /** A block of which something pooled would be added. */
  predicate Adds(s: State, b: nat)
    requires b < |s.store|
  {
    exists t :: t in s.pool && s.pool[t] > 0 && Holds(s.store[b], t)
  }

  /** `t` resolves to block `b`, which has no receipt of it. */
  predicate Strays(s: State, t: Tx, b: nat) {
    t in s.pool && Resolves(s, t) && s.lookup[t].block == b && !Holds(s.store[b], t)
  }

  /** A visit of the block is the last one of a pass. */
  predicate StopsAt(s: State, b: nat)
    requires b < |s.store|
  {
    Apply(s.pool, s.store[b]).cnt > PASS_LIMIT
  }

  /** What a caller can check before the pass: a block to which two pooled transactions resolve, one of them
      without a receipt there, has no receipt of a transaction with pooled confirmations, or so many receipts of
      pooled transactions that a pass stops there. */
  predicate Safe(s: State) {
    forall t, u :: t in s.pool && u in s.pool && Resolves(s, t) && t != u && Strays(s, u, s.lookup[t].block) ==>
      !Adds(s, s.lookup[t].block) || StopsAt(s, s.lookup[t].block)
  }

  lemma HoldsMore(receipts: seq<Receipt>, n: nat, t: Tx)
    requires n <= |receipts| && Holds(receipts[..n], t)
    ensures Holds(receipts, t)
  {
    var i :| 0 <= i < n && receipts[..n][i].tx == t;
    assert receipts[i].tx == t;
  }

  lemma HoldsSplit(receipts: seq<Receipt>, n: nat, t: Tx)
    requires n + 1 == |receipts|
    ensures Holds(receipts, t) <==> Holds(receipts[..n], t) || receipts[n].tx == t
  {
    if Holds(receipts, t) && receipts[n].tx != t {
      var i :| 0 <= i < |receipts| && receipts[i].tx == t;
      assert receipts[..n][i].tx == t;
    } else if Holds(receipts[..n], t) {
      HoldsMore(receipts, n, t);
    }
  }

  lemma {:induction false} NothingAdded(pool: map<Tx, nat>, receipts: seq<Receipt>)
    requires forall t :: t in pool && Holds(receipts, t) ==> pool[t] == 0
    ensures Apply(pool, receipts).receipts == receipts
    decreases |receipts|
  {
    if receipts != [] {
      var n := |receipts| - 1;
      var a, r := Apply(pool, receipts[..n]), receipts[n];
      forall t | t in pool && Holds(receipts[..n], t) ensures pool[t] == 0 {
        HoldsMore(receipts, n, t);
      }
      NothingAdded(pool, receipts[..n]);
      ApplyTakes(pool, receipts[..n], r.tx);
      assert Holds(receipts, r.tx);
      assert receipts == receipts[..n] + [r];
    }
  }

  // how many transactions a pass has counted

  lemma {:induction false} SubsetSize(a: set<Tx>, b: set<Tx>)
    requires a <= b
    ensures |a| <= |b|
  {
    if a != {} {
      var t :| t in a;
      SubsetSize(a - {t}, b - {t});
    }
  }

  /** A transaction is counted when it leaves the pool. */
  lemma {:induction false} ApplyCounts(pool: map<Tx, nat>, receipts: seq<Receipt>)
    ensures Apply(pool, receipts).cnt + |Apply(pool, receipts).pool| == |pool|
    decreases |receipts|
  {
    if receipts != [] {
      var n := |receipts| - 1;
      var a := Apply(pool, receipts[..n]);
      ApplyCounts(pool, receipts[..n]);
      if receipts[n].tx in a.pool { RemoveSize(a.pool, receipts[n].tx); }
    }
  }

  /** The transactions of a block are gone after a visit of it, whatever was visited before. */
  lemma FewerLeft(part: map<Tx, nat>, pool: map<Tx, nat>, receipts: seq<Receipt>)
    requires Within(part, pool)
    ensures |Apply(part, receipts).pool| <= |Apply(pool, receipts).pool|
  {
    var a, b := Apply(part, receipts).pool.Keys, Apply(pool, receipts).pool.Keys;
    forall t | t in a ensures t in b {
      ApplyTakes(part, receipts, t);
      ApplyTakes(pool, receipts, t);
    }
    SubsetSize(a, b);
  }

  lemma {:induction false} SomethingAdded(pool: map<Tx, nat>, receipts: seq<Receipt>, t: Tx)
    ensures SumCounts(Apply(pool, receipts).receipts) >= SumCounts(receipts) + (if Holds(receipts, t) then Pooled(pool, t) else 0)
    decreases |receipts|
  {
    if receipts != [] {
      var n := |receipts| - 1;
      SomethingAdded(pool, receipts[..n], t);
      ApplyTakes(pool, receipts[..n], t);
      HoldsSplit(receipts, n, t);
      ApplyOneAdds(Apply(pool, receipts[..n]), receipts[n]);
    }
  }

  lemma SumGrows(pool: map<Tx, nat>, receipts: seq<Receipt>)
    ensures SumCounts(Apply(pool, receipts).receipts) >= SumCounts(receipts)
  {
    SomethingAdded(pool, receipts, 0);
  }

  /** The transactions still to come resolve only to blocks whose entry in the batch is as in the store. */
  predicate ToCome(s: State, rest: set<Tx>) {
    forall t :: t in rest && t in s.pool && Resolves(s, t) && s.lookup[t].block in s.batch ==>
      s.batch[s.lookup[t].block] == s.store[s.lookup[t].block]
  }

  /** The state of a pass that began in `s0`. */
  predicate Underway(s0: State, s: State) {
    s.store == s0.store && s.lookup == s0.lookup && Within(s.pool, s0.pool)
  }

  predicate CountsRight(s0: State, s: State) {
    s.cnt + |s.pool| == s0.cnt + |s0.pool|
  }

  lemma VisitCounts(s0: State, s: State, t: Tx)
    requires CountsRight(s0, s)
    ensures CountsRight(s0, Visit(s, t))
  {
    if Resolves(s, t) { ApplyCounts(s.pool, s.store[s.lookup[t].block]); }
  }

  /** After a visit of a block at which a pass stops, this one has stopped. */
  lemma StoppedThere(s0: State, s: State, t: Tx)
    requires Underway(s0, s) && CountsRight(s0, s) && s0.cnt == 0 && Resolves(s, t) && StopsAt(s0, s.lookup[t].block)
    ensures Visit(s, t).cnt > PASS_LIMIT
  {
    var b := s.lookup[t].block;
    VisitCounts(s0, s, t);
    ApplyCounts(s0.pool, s0.store[b]);
    FewerLeft(s.pool, s0.pool, s0.store[b]);
  }

  /** One that resolves to the block just visited and is still pooled strays there. */
  lemma StrayLeft(s0: State, s: State, t: Tx, x: Tx)
    requires Safe(s0) && Underway(s0, s) && CountsRight(s0, s) && s0.cnt == 0
    requires t in s.pool && Resolves(s, t) && x != t && x in Visit(s, t).pool && Resolves(s, x) && s.lookup[x].block == s.lookup[t].block
    requires Visit(s, t).cnt <= PASS_LIMIT
    ensures var b := s.lookup[t].block; Apply(s.pool, s.store[b]).receipts == s.store[b]
  {
    var b := s.lookup[t].block;
    ApplyTakes(s.pool, s.store[b], x);
    assert Strays(s0, x, b);
    if StopsAt(s0, b) { StoppedThere(s0, s, t); }
    assert !Adds(s0, b);
    forall y | y in s.pool && Holds(s.store[b], y) ensures s.pool[y] == 0 { assert y in s0.pool; }
    NothingAdded(s.pool, s.store[b]);
  }

  lemma SafeToCome(s0: State, s: State, t: Tx, rest: set<Tx>)
    requires Safe(s0) && Underway(s0, s) && CountsRight(s0, s) && s0.cnt == 0 && t in s.pool && t !in rest && ToCome(s, rest)
    requires Resolves(s, t) && Visit(s, t).cnt <= PASS_LIMIT
    ensures ToCome(Visit(s, t), rest)
  {
    var u := Visit(s, t);
    forall x | x in rest && x in u.pool && Resolves(u, x) && u.lookup[x].block in u.batch
      ensures u.batch[u.lookup[x].block] == u.store[u.lookup[x].block]
    {
      if s.lookup[x].block == s.lookup[t].block {
        StrayLeft(s0, s, t, x);
      } else {
        ApplyTakes(s.pool, s.store[s.lookup[t].block], x);
      }
    }
  }

  lemma SafeVisit(s0: State, s: State, t: Tx, rest: set<Tx>)
    requires Safe(s0) && Underway(s0, s) && CountsRight(s0, s) && s0.cnt == 0 && t in s.pool && t !in rest && ToCome(s, rest + {t})
    ensures Underway(s0, Visit(s, t)) && Total(Visit(s, t)) == Total(s) && forall x :: Share(Visit(s, t), x) == Share(s, x)
    ensures Visit(s, t).cnt <= PASS_LIMIT ==> ToCome(Visit(s, t), rest)
  {
    assert ToCome(s, rest);
    if Resolves(s, t) {
      VisitConservesIff(s, t);
      forall x ensures Share(Visit(s, t), x) == Share(s, x) { VisitShare(s, t, x); }
      ApplyGrows(s.pool, s.store[s.lookup[t].block]);
      if Visit(s, t).cnt <= PASS_LIMIT { SafeToCome(s0, s, t, rest); }
    }
  }

  function Later(order: seq<Tx>, n: nat): set<Tx> {
    set i | n <= i < |order| :: order[i]
  }

  /** Nothing is lost so far, and nothing will be by the transactions still to come. */
  ghost predicate PassedSafely(s0: State, s: State, rest: set<Tx>) {
    && Underway(s0, s) && CountsRight(s0, s) && (s.cnt <= PASS_LIMIT ==> ToCome(s, rest))
    && Total(s) == Total(s0) && forall x :: Share(s, x) == Share(s0, x)
  }

  lemma SafeRound(s0: State, s: State, t: Tx, rest: set<Tx>)
    requires Safe(s0) && s0.cnt == 0 && t !in rest && PassedSafely(s0, s, rest + {t})
    ensures PassedSafely(s0, Turn(s, t), rest)
  {
    if s.cnt <= PASS_LIMIT && t in s.pool {
      SafeVisit(s0, s, t, rest);
      VisitCounts(s0, s, t);
    }
  }

  lemma {:induction false} SafePass(s0: State, order: seq<Tx>, n: nat)
    requires Safe(s0) && s0.batch == map[] && s0.cnt == 0 && NoDup(order) && n <= |order|
    ensures PassedSafely(s0, Pass(s0, order[..n]), Later(order, n))
  {
    if n > 0 {
      SafePass(s0, order, n - 1);
      assert order[..n][..n - 1] == order[..n - 1];
      assert Later(order, n - 1) == Later(order, n) + {order[n - 1]};
      SafeRound(s0, Pass(s0, order[..n - 1]), order[n - 1], Later(order, n));
    }
  }

  /** The passes over a pool conserve in every order of the iteration if and only if the pool was safe. */
  lemma PassConservesIff(s: State)
    requires s.batch == map[] && s.cnt == 0
    ensures (forall order :: IsOrder(s, order) ==> Total(Pass(s, order)) == Total(s)) <==> Safe(s)
  {
    if Safe(s) {
      forall order | IsOrder(s, order) ensures Total(Pass(s, order)) == Total(s) {
        SafePass(s, order, |order|);
        assert order[..|order|] == order;
      }
    } else {
      var t, u :| t in s.pool && Resolves(s, t) && t != u && Strays(s, u, s.lookup[t].block) && Adds(s, s.lookup[t].block)
                  && !StopsAt(s, s.lookup[t].block);
      var order := UnsafeOrder(s, t, u);
    }
  }

  // an order that loses some

  lemma TwoVisits(s: State, t: Tx, u: Tx)
    requires t in s.pool && s.cnt <= PASS_LIMIT && u in Visit(s, t).pool && Visit(s, t).cnt <= PASS_LIMIT
    ensures Pass(s, [t, u]) == Visit(Visit(s, t), u)
  {
    var one: seq<Tx>, none: seq<Tx> := [t], [];
    assert one[..0] == none;
    assert Pass(s, one) == Visit(s, t);
    assert [t, u][..1] == one;
  }

  lemma SecondVisitLosesSome(s: State, t: Tx, u: Tx)
    requires Resolves(s, t) && Resolves(s, u) && s.lookup[t].block == s.lookup[u].block && s.lookup[t].block !in s.batch
    requires Adds(s, s.lookup[t].block)
    ensures Total(Visit(Visit(s, t), u)) < Total(s)
  {
    var b := s.lookup[t].block;
    var x :| x in s.pool && s.pool[x] > 0 && Holds(s.store[b], x);
    SomethingAdded(s.pool, s.store[b], x);
    ApplyConserves(s.pool, s.store[b]);
    SecondVisitLoses(s, t, u);
  }

  /** What the batch holds for a block is at least what the database holds. */
  predicate BatchGrew(store: seq<seq<Receipt>>, batch: map<nat, seq<Receipt>>) {
    forall b: nat :: b in batch && b < |store| ==> SumCounts(batch[b]) >= SumCounts(store[b])
  }

  lemma VisitLoses(s: State, t: Tx)
    requires BatchGrew(s.store, s.batch) && Resolves(s, t)
    ensures BatchGrew(s.store, Visit(s, t).batch) && Total(Visit(s, t)) <= Total(s)
  {
    SumGrows(s.pool, s.store[s.lookup[t].block]);
    VisitTotal(s, t);
  }

  /** A round never makes good for what was lost. */
  lemma TurnLoses(s: State, t: Tx)
    requires BatchGrew(s.store, s.batch)
    ensures BatchGrew(Turn(s, t).store, Turn(s, t).batch) && Total(Turn(s, t)) <= Total(s)
  {
    if s.cnt <= PASS_LIMIT && t in s.pool && Resolves(s, t) { VisitLoses(s, t); }
  }

  lemma {:induction false} RestLoses(s: State, order: seq<Tx>, n: nat)
    requires BatchGrew(s.store, s.batch) && n <= |order|
    ensures BatchGrew(Pass(s, order).store, Pass(s, order).batch) && Total(Pass(s, order)) <= Total(Pass(s, order[..n]))
    decreases |order|
  {
    if n < |order| {
      var front := order[..|order| - 1];
      RestLoses(s, front, n);
      assert front[..n] == order[..n];
      TurnLoses(Pass(s, front), order[|order| - 1]);
    } else {
      assert order[..n] == order;
      if n > 0 {
        RestLoses(s, order[..n - 1], n - 1);
        TurnLoses(Pass(s, order[..n - 1]), order[n - 1]);
      }
    }
  }

  lemma {:induction false} Listed(ts: set<Tx>) returns (order: seq<Tx>)
    ensures NoDup(order) && forall t :: t in order <==> t in ts
  {
    order := [];
    if ts != {} {
      var t :| t in ts;
      var rest := Listed(ts - {t});
      order := rest + [t];
    }
  }

  lemma BeginsWith(s: State, t: Tx, u: Tx, rest: seq<Tx>)
    requires t in s.pool && u in s.pool && t != u && NoDup(rest) && forall x :: x in rest <==> x in s.pool.Keys - {t, u}
    ensures IsOrder(s, [t, u] + rest)
  {
    var order := [t, u] + rest;
    assert forall x :: x in order <==> x in [t, u] || x in rest;
  }

  lemma UnsafeOrder(s: State, t: Tx, u: Tx) returns (order: seq<Tx>)
    requires s.batch == map[] && s.cnt == 0 && t in s.pool && Resolves(s, t) && t != u
    requires Strays(s, u, s.lookup[t].block) && Adds(s, s.lookup[t].block) && !StopsAt(s, s.lookup[t].block)
    ensures IsOrder(s, order) && Total(Pass(s, order)) != Total(s)
  {
    var rest := Listed(s.pool.Keys - {t, u});
    order := [t, u] + rest;
    BeginsWith(s, t, u, rest);
    ApplyTakes(s.pool, s.store[s.lookup[t].block], u);
    TwoVisits(s, t, u);
    SecondVisitLosesSome(s, t, u);
    RestLoses(s, order, 2);
    assert order[..2] == [t, u];
  }

  /** Lookups and receipts agree: the block of a pooled transaction has a receipt of it. */
  predicate Agree(s: State) {
    forall t :: t in s.pool && Resolves(s, t) ==> Holds(s.store[s.lookup[t].block], t)
  }

  /** Then the pool is safe. */
  lemma AgreementIsSafe(s: State)
    requires Agree(s)
    ensures Safe(s)
  {
  }

  /** What every pass keeps, safe or not. */
  ghost predicate Inv(s0: State, s: State) {
    && Underway(s0, s)
    && (s.cnt == 0 ==> Merged(s) == s.store)
    && (forall b :: 0 <= b < |s.store| ==> Grown(s.store[b], Merged(s)[b], s0.pool))
  }

  lemma VisitKeepsInv(s0: State, s: State, t: Tx)
    requires Inv(s0, s)
    ensures Inv(s0, Visit(s, t))
  {
    if Resolves(s, t) {
      var b := s.lookup[t].block;
      ApplyGrows(s.pool, s.store[b]);
      MergedAfter(s, t);
      GrownWithin(s.store[b], Apply(s.pool, s.store[b]).receipts, s.pool, s0.pool);
    }
  }

  lemma GrownWithin(before: seq<Receipt>, after: seq<Receipt>, part: map<Tx, nat>, pool: map<Tx, nat>)
    requires Grown(before, after, part) && Within(part, pool)
    ensures Grown(before, after, pool)
  {
    forall i | 0 <= i < |before| ensures Gained(before[i], after[i], pool) {
      assert Gained(before[i], after[i], part);
    }
  }

  lemma {:induction false} PassKeepsInv(s0: State, order: seq<Tx>)
    requires s0.batch == map[] && s0.cnt == 0
    ensures Inv(s0, Pass(s0, order)) && CountsRight(s0, Pass(s0, order))
    decreases |order|
  {
    if order == [] {
      assert Merged(s0) == s0.store;
    } else {
      var front, t := order[..|order| - 1], order[|order| - 1];
      PassKeepsInv(s0, front);
      VisitKeepsInv(s0, Pass(s0, front), t);
      VisitCounts(s0, Pass(s0, front), t);
    }
  }

  /** The pass was not stopped before turn `i`, and the transaction was still pooled and resolved. */
  predicate VisitedAt(s0: State, order: seq<Tx>, i: nat)
    requires i < |order|
  {
    var s := Pass(s0, order[..i]);
    s.cnt <= PASS_LIMIT && order[i] in s.pool && Resolves(s0, order[i])
  }

  /** No block that was visited has a receipt of `t`. */
  predicate NeverMet(s0: State, order: seq<Tx>, t: Tx) {
    forall i: nat :: i < |order| && VisitedAt(s0, order, i) ==> !Holds(s0.store[s0.lookup[order[i]].block], t)
  }

  lemma VisitedFront(s0: State, order: seq<Tx>, i: nat)
    requires i + 1 < |order|
    ensures VisitedAt(s0, order[..|order| - 1], i) <==> VisitedAt(s0, order, i)
  {
    assert order[..|order| - 1][..i] == order[..i];
  }

  lemma NeverMetBefore(s0: State, order: seq<Tx>, t: Tx)
    requires order != [] && NeverMet(s0, order, t)
    ensures NeverMet(s0, order[..|order| - 1], t)
  {
    var front := order[..|order| - 1];
    forall i: nat | i < |front| && VisitedAt(s0, front, i) ensures !Holds(s0.store[s0.lookup[front[i]].block], t) {
      VisitedFront(s0, order, i);
      assert VisitedAt(s0, order, i);
    }
  }

  lemma NeverMetLonger(s0: State, order: seq<Tx>, t: Tx)
    requires order != [] && NeverMet(s0, order[..|order| - 1], t)
    requires VisitedAt(s0, order, |order| - 1) ==> !Holds(s0.store[s0.lookup[order[|order| - 1]].block], t)
    ensures NeverMet(s0, order, t)
  {
    var front := order[..|order| - 1];
    forall i: nat | i < |order| && VisitedAt(s0, order, i) ensures !Holds(s0.store[s0.lookup[order[i]].block], t) {
      if i < |front| {
        VisitedFront(s0, order, i);
        assert VisitedAt(s0, front, i) && front[i] == order[i];
      }
    }
  }

  /** A turn takes exactly what the block it visits has receipts of. */
  lemma TurnTakes(s: State, u: Tx, t: Tx)
    ensures t in Turn(s, u).pool <==>
              t in s.pool && (s.cnt <= PASS_LIMIT && u in s.pool && Resolves(s, u) ==> !Holds(s.store[s.lookup[u].block], t))
  {
    if Resolves(s, u) { ApplyTakes(s.pool, s.store[s.lookup[u].block], t); }
  }

  /** A transaction stays in the pool exactly if no visited block has a receipt of it. */
  lemma {:induction false} StaysIff(s0: State, order: seq<Tx>, t: Tx)
    requires s0.batch == map[] && s0.cnt == 0
    ensures t in Pass(s0, order).pool <==> t in s0.pool && NeverMet(s0, order, t)
    decreases |order|
  {
    if order != [] {
      var n := |order| - 1;
      StaysIff(s0, order[..n], t);
      PassKeepsInv(s0, order[..n]);
      TurnTakes(Pass(s0, order[..n]), order[n], t);
      if t in Pass(s0, order).pool {
        NeverMetLonger(s0, order, t);
      } else if NeverMet(s0, order, t) {
        NeverMetBefore(s0, order, t);
      }
    }
  }

  /** A transaction whose own block has a receipt of it leaves the pool, unless the pass was stopped. */
  lemma {:induction false} HeldLeaves(s0: State, order: seq<Tx>, t: Tx)
    requires s0.batch == map[] && s0.cnt == 0 && t in order
    requires Resolves(s0, t) && Holds(s0.store[s0.lookup[t].block], t) && Pass(s0, order).cnt <= PASS_LIMIT
    ensures t !in Pass(s0, order).pool
    decreases |order|
  {
    var n := |order| - 1;
    var s, u := Pass(s0, order[..n]), order[n];
    PassKeepsInv(s0, order[..n]);
    TurnTakes(s, u, t);
    if t != u {
      assert t in order[..n];
      HeldLeaves(s0, order[..n], t);
    }
  }

  lemma JoinedOrder(s: State, done: seq<Tx>, rest: seq<Tx>)
    requires NoDup(done) && NoDup(rest) && forall t :: t in done ==> t !in rest
    requires forall t :: t in s.pool <==> t in done || t in rest
    ensures IsOrder(s, done + rest)
  {
    var order := done + rest;
    assert forall t :: t in order <==> t in done || t in rest;
    forall i, j | 0 <= i < j < |order| ensures order[i] != order[j] {
      if i < |done| <= j { assert order[i] in done && order[j] in rest; }
    }
  }

  lemma {:induction false} StoppedPass(s0: State, done: seq<Tx>, rest: seq<Tx>)
    requires Pass(s0, done).cnt > PASS_LIMIT || rest == []
    ensures Pass(s0, done + rest) == Pass(s0, done)
    decreases |rest|
  {
    if rest == [] {
      assert done + rest == done;
    } else {
      var front := rest[..|rest| - 1];
      StoppedPass(s0, done, front);
      assert (done + rest)[..|done + rest| - 1] == done + front;
    }
  }

  // ---------------------------------------------------------------- the method

  method AddConfirms(pool: map<Tx, nat>, receipts: seq<Receipt>) returns (a: Applied)
    ensures a == Apply(pool, receipts)
  {
    a := Applied(pool, [], 0);
    for i := 0 to |receipts|
      invariant a == Apply(pool, receipts[..i])
    {
      assert receipts[..i + 1][..i] == receipts[..i];
      var r := receipts[i];
      if r.tx in a.pool {
        a := Applied(a.pool - {r.tx}, a.receipts + [r.(count := r.count + a.pool[r.tx])], a.cnt + 1);
      } else {
        a := a.(receipts := a.receipts + [r]);
      }
    }
    assert receipts[..|receipts|] == receipts;
  }

  method VisitTx(s: State, t: Tx) returns (u: State)
    ensures u == Visit(s, t)
  {
    u := s;
    if Resolves(s, t) {
      var b := s.lookup[t].block;
      var a := AddConfirms(s.pool, s.store[b]);
      u := s.(pool := a.pool, batch := s.batch[b := a.receipts], cnt := s.cnt + a.cnt);
    }
  }

  class Confirmer {
    var store: seq<seq<Receipt>>
    var lookup: map<Tx, Entry>
    var txConfirmPool: map<Tx, nat>

    ghost function View(): State
      reads this
    {
      State(store, lookup, txConfirmPool, map[], 0)
    }

    /** The rounds of the loop: the pool is walked in any order, and keys removed meanwhile are not met. */
    method Walk() returns (batch: map<nat, seq<Receipt>>, cnt: nat, ghost order: seq<Tx>)
      modifies this`txConfirmPool
      ensures IsOrder(old(View()), order)
      ensures State(store, lookup, txConfirmPool, batch, cnt) == Pass(old(View()), order)
    {
      batch, cnt := map[], 0;
      var todo := txConfirmPool.Keys;
      ghost var s0, done: seq<Tx> := View(), [];
      while todo != {}
        invariant NoDup(done) && forall t :: t in s0.pool <==> t in done || t in todo
        invariant forall t :: t in done ==> t !in todo
        invariant State(store, lookup, txConfirmPool, batch, cnt) == Pass(s0, done)
        invariant cnt <= PASS_LIMIT
        decreases todo
      {
        var hash :| hash in todo;
        todo := todo - {hash};
        assert (done + [hash])[..|done|] == done;
        done := done + [hash];
        if hash in txConfirmPool {
          var next := VisitTx(State(store, lookup, txConfirmPool, batch, cnt), hash);
          txConfirmPool, batch, cnt := next.pool, next.batch, next.cnt;
        }
        if cnt > PASS_LIMIT { break; }
      }
      ghost var rest := Listed(todo);
      assert rest != [] ==> rest[0] in todo;
      StoppedPass(s0, done, rest);
      JoinedOrder(s0, done, rest);
      order := done + rest;
    }

    /** For every order of the walk: a transaction that resolves to a block with a receipt of it leaves the pool,
        unless more than 10000 left it; one leaves exactly if a visited block has a receipt of it. If the pool was
        safe, the confirmations of each transaction are conserved: its receipts gained exactly what left the pool.
        In any case each receipt gained nothing or exactly what was pooled for its transaction, and what is left in
        the pool is as it was. */
    method UpdateTxConfirm() returns (ghost order: seq<Tx>)
      modifies this
      ensures IsOrder(old(View()), order)
      ensures forall t :: t in old(txConfirmPool) && Resolves(old(View()), t) && Holds(old(store)[old(lookup)[t].block], t) ==>
                t !in txConfirmPool || |old(txConfirmPool)| - |txConfirmPool| > PASS_LIMIT
      ensures |old(txConfirmPool)| <= 10000 ==>
                forall t :: t in old(txConfirmPool) && Resolves(old(View()), t) && Holds(old(store)[old(lookup)[t].block], t) ==> t !in txConfirmPool
      ensures forall t :: t in txConfirmPool <==> t in old(txConfirmPool) && NeverMet(old(View()), order, t)
      ensures Safe(old(View())) ==>
                SumPool(txConfirmPool) + SumBlocks(store) == SumPool(old(txConfirmPool)) + SumBlocks(old(store))
      ensures Safe(old(View())) ==> forall t ::
                CountIn(store, t) == CountIn(old(store), t) + if t in txConfirmPool then 0 else Pooled(old(txConfirmPool), t)
      ensures |store| == |old(store)| && forall b :: 0 <= b < |store| ==> Grown(old(store)[b], store[b], old(txConfirmPool))
      ensures Within(txConfirmPool, old(txConfirmPool)) && lookup == old(lookup)
    {
      ghost var s0 := View();
      var batch, cnt;
      batch, cnt, order := Walk();
      PassKeepsInv(s0, order);
      assert Pass(s0, order) == State(store, lookup, txConfirmPool, batch, cnt);
      if cnt > 0 { store := Merged(State(store, lookup, txConfirmPool, batch, cnt)); }
      Outcome(s0, order, txConfirmPool, store);
    }
  }

  /** What a pass over the whole pool leaves behind. */
  lemma Outcome(s0: State, order: seq<Tx>, pool: map<Tx, nat>, store: seq<seq<Receipt>>)
    requires s0.batch == map[] && s0.cnt == 0 && IsOrder(s0, order)
    requires pool == Pass(s0, order).pool && store == Merged(Pass(s0, order))
    ensures forall t :: t in s0.pool && Resolves(s0, t) && Holds(s0.store[s0.lookup[t].block], t) ==>
              t !in pool || |s0.pool| - |pool| > PASS_LIMIT
    ensures forall t :: t in pool <==> t in s0.pool && NeverMet(s0, order, t)
    ensures Safe(s0) ==> SumPool(pool) + SumBlocks(store) == SumPool(s0.pool) + SumBlocks(s0.store)
    ensures Safe(s0) ==> forall t :: CountIn(store, t) == CountIn(s0.store, t) + if t in pool then 0 else Pooled(s0.pool, t)
  {
    PassKeepsInv(s0, order);
    forall t | t in s0.pool && Resolves(s0, t) && Holds(s0.store[s0.lookup[t].block], t)
      ensures t !in pool || |s0.pool| - |pool| > PASS_LIMIT
    {
      if Pass(s0, order).cnt <= PASS_LIMIT { HeldLeaves(s0, order, t); }
    }
    forall t ensures t in pool <==> t in s0.pool && NeverMet(s0, order, t) { StaysIff(s0, order, t); }
    if Safe(s0) { SafeOutcome(s0, order); }
  }

  lemma SafeOutcome(s0: State, order: seq<Tx>)
    requires Safe(s0) && s0.batch == map[] && s0.cnt == 0 && IsOrder(s0, order)
    ensures var s := Pass(s0, order);
            && SumPool(s.pool) + SumBlocks(Merged(s)) == SumPool(s0.pool) + SumBlocks(s0.store)
            && forall t :: CountIn(Merged(s), t) == CountIn(s0.store, t) + if t in s.pool then 0 else Pooled(s0.pool, t)
  {
    SafePass(s0, order, |order|);
    assert order[..|order|] == order;
    assert Merged(s0) == s0.store;
    var s := Pass(s0, order);
    forall t ensures CountIn(Merged(s), t) == CountIn(s0.store, t) + if t in s.pool then 0 else Pooled(s0.pool, t) {
      assert Share(s, t) == Share(s0, t);
    }
  }

  // ---------------------------------------------------------------- an unsafe pool

  /** For instance: transactions 1 and 2 resolve to block 0, which has a receipt of 1 only; the 5 confirmations
      of transaction 1 are lost. */
  lemma FiveLost(s: State)
    requires s == State([[Receipt(1, 0)]], map[1 := Entry(0, 0), 2 := Entry(0, 0)], map[1 := 5, 2 := 7], map[], 0)
    ensures !Safe(s) && Total(Visit(Visit(s, 1), 2)) == Total(s) - 5
  {
    assert s.store[0][0].tx == 1;
    assert Strays(s, 2, 0) && Holds(s.store[0], 1);
    SecondVisitLoses(s, 1, 2);
    assert s.store[0][..0] == [];
    assert Visit(s, 1).pool == s.pool - {1};
    SumRemove(s.pool, 1);
  }
}
