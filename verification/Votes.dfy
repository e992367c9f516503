/** unconfirmedProofs of worker/unconfirmed.go: votes on a proof are collected as two sets of
    addresses, and the work is handed over when one of them reaches the threshold. */
module Votes {

  type Address = nat

  /** proofInfo. */
  datatype Info<Work> = Info(threshold: nat, work: Work, confirmed: set<Address>, unpass: set<Address>)

  datatype Vote = Vote(addr: Address, confirm: bool)

  /** What a vote does to a proof: it stays open, or its work is handed over with this verdict. */
  datatype Tally<Work> = Open(info: Info<Work>) | Closed(verdict: bool)

  function NewInfo<Work>(work: Work, threshold: nat): Info<Work> {
    Info(threshold, work, {}, {})
  }

  function Cast<Work>(info: Info<Work>, v: Vote): Tally<Work> {
    var next := if v.confirm then info.(confirmed := info.confirmed + {v.addr}) else info.(unpass := info.unpass + {v.addr});
    if |next.confirmed| >= info.threshold || |next.unpass| >= info.threshold
    then Closed(!(|next.unpass| >= info.threshold))
    else Open(next)
  }

  /** All votes on one proof in order; votes after the handover find no proof and change nothing. */
  function Collect<Work>(info: Info<Work>, votes: seq<Vote>): Tally<Work>
    decreases |votes|
  {
    if votes == [] then Open(info)
    else
      match Collect(info, votes[..|votes| - 1])
      case Closed(b) => Closed(b)
      case Open(i) => Cast(i, votes[|votes| - 1])
  }

  // ---------------------------------------------------------------- reference

  /** The distinct addresses among the votes that voted this way. */
  function Voters(votes: seq<Vote>, confirm: bool): set<Address>
  {
    set i | 0 <= i < |votes| && votes[i].confirm == confirm :: votes[i].addr
  }

  /** After these votes one side has enough distinct addresses. */
  predicate Reached(votes: seq<Vote>, confirm: bool, threshold: nat) {
    |Voters(votes, confirm)| >= threshold
  }

  predicate SomeReached(votes: seq<Vote>, threshold: nat) {
    Reached(votes, true, threshold) || Reached(votes, false, threshold)
  }

  /** The `k`-th vote is the first after which one side has enough. */
  predicate DecidedAt(votes: seq<Vote>, threshold: nat, k: nat) {
    && 0 < k <= |votes| && SomeReached(votes[..k], threshold)
    && forall j :: 0 < j < k ==> !SomeReached(votes[..j], threshold)
  }

  lemma VotersOfLast(votes: seq<Vote>, confirm: bool)
    requires votes != []
    ensures var last := votes[|votes| - 1];
            Voters(votes, confirm) == Voters(votes[..|votes| - 1], confirm) + (if last.confirm == confirm then {last.addr} else {})
  {
    var front := votes[..|votes| - 1];
    forall a ensures a in Voters(votes, confirm) <==>
      a in Voters(front, confirm) || (votes[|votes| - 1].confirm == confirm && votes[|votes| - 1].addr == a)
    {
      if i :| 0 <= i < |front| && front[i].confirm == confirm && front[i].addr == a {
        assert votes[i].confirm == confirm && votes[i].addr == a;
      }
      if i :| 0 <= i < |votes| && votes[i].confirm == confirm && votes[i].addr == a {
        if i < |front| { assert front[i] == votes[i]; }
      }
    }
  }

  lemma OneVote<Work>(work: Work, threshold: nat, votes: seq<Vote>)
    requires votes != [] && !SomeReached(votes, threshold)
    ensures var front, last := votes[..|votes| - 1], votes[|votes| - 1];
            Cast(Info(threshold, work, Voters(front, true), Voters(front, false)), last) ==
              Open(Info(threshold, work, Voters(votes, true), Voters(votes, false)))
  {
    VotersOfLast(votes, true);
    VotersOfLast(votes, false);
  }

  /** While neither side has enough the proof stays open and holds the distinct voters of each side. */
  lemma {:induction false} OpenUntilDecided<Work>(work: Work, threshold: nat, votes: seq<Vote>)
    requires forall j :: 0 < j <= |votes| ==> !SomeReached(votes[..j], threshold)
    ensures Collect(NewInfo(work, threshold), votes) == Open(Info(threshold, work, Voters(votes, true), Voters(votes, false)))
    decreases |votes|
  {
    if votes == [] {
      assert Voters(votes, true) == {} && Voters(votes, false) == {};
    } else {
      var front := votes[..|votes| - 1];
      assert forall j :: 0 <= j <= |front| ==> front[..j] == votes[..j];
      OpenUntilDecided(work, threshold, front);
      assert votes[..|votes|] == votes && !SomeReached(votes[..|votes|], threshold);
      OneVote(work, threshold, votes);
    }
  }

  /** The work is handed over at the first vote after which one side has enough distinct addresses, with
      the verdict of that moment, and no later vote hands it over again or changes the verdict. */
  lemma {:induction false} HandedOverOnce<Work>(work: Work, threshold: nat, votes: seq<Vote>, k: nat)
    requires DecidedAt(votes, threshold, k)
    ensures Collect(NewInfo(work, threshold), votes) == Closed(!Reached(votes[..k], false, threshold))
    decreases |votes|
  {
    var front := votes[..|votes| - 1];
    assert forall j :: 0 <= j <= |front| ==> front[..j] == votes[..j];
    if k == |votes| {
      OpenUntilDecided(work, threshold, front);
      VotersOfLast(votes, true);
      VotersOfLast(votes, false);
      assert votes[..k] == votes;
    } else {
      HandedOverOnce(work, threshold, front, k);
    }
  }

  lemma OpenOrDecided<Work>(work: Work, threshold: nat, votes: seq<Vote>)
    ensures Collect(NewInfo(work, threshold), votes).Closed? <==> exists k :: DecidedAt(votes, threshold, k)
  {
    if forall j :: 0 < j <= |votes| ==> !SomeReached(votes[..j], threshold) {
      OpenUntilDecided(work, threshold, votes);
    } else {
      var k := FirstReached(votes, threshold, 1);
      HandedOverOnce(work, threshold, votes, k);
    }
  }

  lemma FirstReached(votes: seq<Vote>, threshold: nat, from: nat) returns (k: nat)
    requires 0 < from <= |votes|
    requires forall j :: 0 < j < from ==> !SomeReached(votes[..j], threshold)
    requires exists j :: from <= j <= |votes| && SomeReached(votes[..j], threshold)
    ensures DecidedAt(votes, threshold, k)
    decreases |votes| - from
  {
    if SomeReached(votes[..from], threshold) { k := from; } else { k := FirstReached(votes, threshold, from + 1); }
  }

  /** At the handover exactly one side has reached the threshold, so the verdict is that of the side that
      got there first, provided the threshold is positive and only then: with threshold 0 the first vote
      closes the proof as rejected even if it approves. */
  lemma VerdictIsFirstSide(votes: seq<Vote>, threshold: nat, k: nat)
    requires DecidedAt(votes, threshold, k)
    ensures (Reached(votes[..k], true, threshold) <==> !Reached(votes[..k], false, threshold)) <==> threshold > 0
  {
    var front := votes[..k - 1];
    assert votes[..k][..k - 1] == front;
    VotersOfLast(votes[..k], true);
    VotersOfLast(votes[..k], false);
    if threshold > 0 {
      if k == 1 {
        assert Voters(front, true) == {} && Voters(front, false) == {};
      } else {
        assert !SomeReached(votes[..k - 1], threshold);
      }
    }
  }

  // ---------------------------------------------------------------- the object

  type SigHash = nat

  /** Seconds a proof may wait (waitConfirmTimeout of worker/worker.go). */
  const WAIT_CONFIRM_TIMEOUT: int := 30

  datatype Waiting<Work> = Entry(info: Info<Work>, time: int)

  datatype Handover<Work> = Handover(sig: SigHash, work: Work, confirmed: bool)

  /** The table of open proofs and the works sent to the confirmation channel so far. Each method is one
      atomic step: the lookup and the deletion of a proof are not separated by another vote. */
  class UnconfirmedProofs<Work> {
    var proofs: map<SigHash, Waiting<Work>>
    var sent: seq<Handover<Work>>

    constructor ()
      ensures proofs == map[] && sent == []
    {
      proofs, sent := map[], [];
    }

    method Insert(sig: SigHash, work: Work, threshold: nat, now: int)
      modifies this`proofs
      ensures proofs == if sig in old(proofs) then old(proofs) else old(proofs)[sig := Entry(NewInfo(work, threshold), now)]
    {
      if sig !in proofs {
        proofs := proofs[sig := Entry(NewInfo(work, threshold), now)];
      }
    }

    method Confirm(sig: SigHash, v: Vote)
      modifies this
      ensures sig !in old(proofs) ==> proofs == old(proofs) && sent == old(sent)
      ensures sig in old(proofs) ==>
                match Cast(old(proofs)[sig].info, v)
                case Open(info) => proofs == old(proofs)[sig := Entry(info, old(proofs)[sig].time)] && sent == old(sent)
                case Closed(b) => proofs == old(proofs) - {sig} && sent == old(sent) + [Handover(sig, old(proofs)[sig].info.work, b)]
    {
      if sig in proofs {
        var e := proofs[sig];
        var info := e.info;
        if v.confirm {
          info := info.(confirmed := info.confirmed + {v.addr});
        } else {
          info := info.(unpass := info.unpass + {v.addr});
        }
        proofs := proofs[sig := Entry(info, e.time)];
        if |info.confirmed| >= info.threshold || |info.unpass| >= info.threshold {
          var confirmed := !(|info.unpass| >= info.threshold);
          sent := sent + [Handover(sig, info.work, confirmed)];
          proofs := proofs - {sig};
        }
      }
    }

    ghost predicate TimedOut(e: Waiting<Work>, now: int) {
      now - e.time > WAIT_CONFIRM_TIMEOUT
    }

    /** CheckTimeout: every proof that waited too long is handed over unconfirmed, once, and no other. */
    method CheckTimeout(now: int)
      modifies this
      ensures forall sig :: sig in proofs <==> sig in old(proofs) && !TimedOut(old(proofs)[sig], now)
      ensures forall sig :: sig in proofs ==> proofs[sig] == old(proofs)[sig]
      ensures |sent| >= |old(sent)| && sent[..|old(sent)|] == old(sent)
      ensures forall i :: |old(sent)| <= i < |sent| ==>
                sent[i].sig in old(proofs) && TimedOut(old(proofs)[sent[i].sig], now)
                && sent[i] == Handover(sent[i].sig, old(proofs)[sent[i].sig].info.work, false)
      ensures forall i, j :: |old(sent)| <= i < j < |sent| ==> sent[i].sig != sent[j].sig
      ensures |sent| - |old(sent)| == |old(proofs)| - |proofs|
    {
      var keys := proofs.Keys;
      while keys != {}
        invariant keys <= old(proofs).Keys && keys <= proofs.Keys
        invariant forall sig :: sig in proofs <==> sig in old(proofs) && (sig in keys || !TimedOut(old(proofs)[sig], now))
        invariant forall sig :: sig in proofs ==> proofs[sig] == old(proofs)[sig]
        invariant |sent| >= |old(sent)| && sent[..|old(sent)|] == old(sent)
        invariant forall i :: |old(sent)| <= i < |sent| ==>
                    sent[i].sig in old(proofs) && TimedOut(old(proofs)[sent[i].sig], now) && sent[i].sig !in proofs
                    && sent[i] == Handover(sent[i].sig, old(proofs)[sent[i].sig].info.work, false)
        invariant forall i, j :: |old(sent)| <= i < j < |sent| ==> sent[i].sig != sent[j].sig
        invariant |sent| - |old(sent)| == |old(proofs)| - |proofs|
        decreases keys
      {
        var sig :| sig in keys;
        keys := keys - {sig};
        var e := proofs[sig];
        if now - e.time > WAIT_CONFIRM_TIMEOUT {
          sent := sent + [Handover(sig, e.info.work, false)];
          assert (proofs - {sig}).Keys == proofs.Keys - {sig};
          proofs := proofs - {sig};
        }
      }
    }
  }
}
