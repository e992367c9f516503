/** The steps of the ticker, the round, the votes and FinalMine keep the invariant of the mining pipeline. */
module MiningRounds {
  import opened Chain
  import opened BlockStore
  import opened Votes
  import opened Mining

  /** Giving one block a new fate that the chain agrees with. */
  lemma FateMoves(fate: map<Header, Fate>, chain: Blocks, b: Header, f: Fate)
    requires FatesRight(fate, chain) && (b in chain.stored <==> f == Stored || f == Ended(true))
    requires f.InVote? || f.InQueue? ==> b !in chain.td
    ensures FatesRight(fate[b := f], chain)
  {
  }

  /** A block that is new or being voted on is at no other place. */
  lemma VotedKeepsFate(pending: seq<Work>, runner: Runner, endings: seq<Header>, fate: map<Header, Fate>, b: Header, f: Fate)
    requires QueueFate(pending, runner, fate) && RunnerFate(runner, fate) && EndingsFate(endings, fate)
    requires b in fate ==> fate[b] == InVote
    ensures QueueFate(pending, runner, fate[b := f]) && RunnerFate(runner, fate[b := f]) && EndingsFate(endings, fate[b := f])
    ensures b !in endings
  {
  }

  /** The blocks at other places keep theirs. */
  lemma OthersKeepFate(s: State, b: Header, f: Fate)
    requires Inv(s) && (b in s.fate ==> s.fate[b] != InVote) && (f.Lost? || f.Stored? || f.Ended?)
    ensures b in s.fate && s.fate[b] != InQueue ==> QueueFate(s.pending, s.runner, s.fate[b := f])
    ensures TokensFate(s.tokens, s.fate[b := f])
    ensures b in s.fate && s.fate[b] != Refused ==> EndingsFate(s.endings, s.fate[b := f])
  {
  }

  lemma CheckKeeps(s: State, step: Step)
    requires Inv(s) && Enabled(s, step)
    requires step.TickStart? || step.TickEmpty? || step.TickReset?
    ensures Inv(Next(s, step))
  {
  }

  lemma TopKeeps(s: State)
    requires Inv(s) && Enabled(s, TickTop)
    ensures Inv(Next(s, TickTop))
  {
  }

  lemma HeadKeeps(s: State)
    requires Inv(s) && Enabled(s, TickHead)
    ensures Inv(Next(s, TickHead))
  {
  }

  lemma GoKeeps(s: State, start: bool)
    requires Inv(s) && Enabled(s, TickGo(start))
    ensures Inv(Next(s, TickGo(start)))
  {
    assert s.tokens + [Posted(s.ticker.parent)] == [Posted(s.ticker.parent)];
  }

  /** The round under way is the only one, so it is the whole list. */
  lemma OnlyToken(s: State, i: nat)
    requires Inv(s) && i < |s.tokens|
    ensures i == 0 && s.tokens == [s.tokens[i]] && s.tokens[i] in s.tokens && Without(s.tokens, i) == []
    ensures forall t :: s.tokens[i := t] == [t]
  {
  }

  lemma LeaveKeeps(s: State, step: Step)
    requires Inv(s) && Enabled(s, step)
    requires step.RoundFails? || step.RoundOnBootNode? || step.RoundReturns? || step.FinalIdle?
    ensures Inv(Next(s, step))
  {
    if !step.RoundReturns? { OnlyToken(s, step.i); }
  }

  lemma ReceiveKeeps(s: State, i: nat)
    requires Inv(s) && Enabled(s, Receive(i))
    ensures Inv(Next(s, Receive(i)))
  {
    OnlyToken(s, i);
  }

  lemma InsertFates(s: State, i: nat, b: Header)
    requires Inv(s) && Enabled(s, RoundInserts(i, b))
    ensures Fates(Next(s, RoundInserts(i, b)))
  {
    OnlyToken(s, i);
    FateMoves(s.fate, s.chain, b, InVote);
    VotedKeepsFate(s.pending, s.runner, s.endings, s.fate, b, InVote);
  }

  lemma InsertKeeps(s: State, i: nat, b: Header)
    requires Inv(s) && Enabled(s, RoundInserts(i, b))
    ensures Inv(Next(s, RoundInserts(i, b)))
  {
    InsertFates(s, i, b);
    OnlyToken(s, i);
  }

  lemma VoteKeeps(s: State, i: nat, v: Vote)
    requires Inv(s) && Enabled(s, CastVote(i, v))
    ensures Inv(Next(s, CastVote(i, v)))
  {
    OnlyToken(s, i);
    VoteTallied(s.threshold, s.tokens[i], v);
  }

  lemma VoteTallied(threshold: nat, t: Token, v: Vote)
    requires t.Voting? && TokenVotes(threshold, t)
    ensures TokenVotes(threshold, Voted(t, v))
  {
    var votes := t.votes + [v];
    assert votes[..|votes| - 1] == t.votes;
  }

  lemma TimeoutKeeps(s: State, i: nat)
    requires Inv(s) && Enabled(s, TimesOut(i))
    ensures Inv(Next(s, TimesOut(i)))
    ensures Next(s, TimesOut(i)) == s.(tokens := [Handed(s.tokens[i].block, s.tokens[i].votes, false)])
  {
    OnlyToken(s, i);
  }

  /** FinalMine queues the block exactly if it was confirmed and generated and the queue takes blocks, else it
      refuses it; the round is over in both cases. */
  lemma FinalMineOutcome(s: State, i: nat, generated: bool)
    requires Enabled(s, FinalMine(i, generated))
    ensures var token, t := s.tokens[i], Next(s, FinalMine(i, generated));
            && HasFate(t.fate, token.block, if token.confirmed && generated && !s.errored then InQueue else Refused)
            && t.pending == s.pending + (if t.fate[token.block] == InQueue then [Work(token.block, token.votes)] else [])
            && t.endings == s.endings + (if t.fate[token.block] == Refused then [token.block] else [])
            && |t.tokens| == |s.tokens| && t.tokens[i] == Finished
            && t.chain == s.chain && t.errored == s.errored && t.round == s.round
  {
  }

  lemma FinalShape(s: State, i: nat, generated: bool)
    requires Inv(s) && Enabled(s, FinalMine(i, generated))
    ensures Shape(Next(s, FinalMine(i, generated)))
  {
    OnlyToken(s, i);
    assert Next(s, FinalMine(i, generated)).tokens == [Finished];
  }

  lemma QueueGrows(pending: seq<Work>, w: Work)
    requires QueueLinked(pending) && Made(w.block) && (pending != [] ==> ChildOf(w.block, pending[|pending| - 1].block))
    ensures QueueLinked(pending + [w]) && (pending + [w])[0] == if pending == [] then w else pending[0]
  {
  }

  lemma FinalLinks(s: State, i: nat, generated: bool)
    requires Inv(s) && Enabled(s, FinalMine(i, generated))
    ensures Links(Next(s, FinalMine(i, generated)))
  {
    OnlyToken(s, i);
    var t, token := Next(s, FinalMine(i, generated)), s.tokens[i];
    assert TokenGood(s.errored, s.pending, s.chain, s.raced, token);
    assert t.tokens == [Finished];
    if token.confirmed && generated && !s.errored { QueueGrows(s.pending, Work(token.block, token.votes)); }
  }

  lemma FinalFates(s: State, i: nat, generated: bool)
    requires Inv(s) && Enabled(s, FinalMine(i, generated))
    ensures Fates(Next(s, FinalMine(i, generated)))
  {
    OnlyToken(s, i);
    var b, t := s.tokens[i].block, Next(s, FinalMine(i, generated));
    assert t.tokens == [Finished];
    assert HasFate(s.fate, b, InVote);
    FateMoves(s.fate, s.chain, b, t.fate[b]);
    VotedKeepsFate(s.pending, s.runner, s.endings, s.fate, b, t.fate[b]);
    Appended(s.pending, s.runner, s.endings, t.fate, b, s.tokens[i].votes);
  }

  lemma Appended(pending: seq<Work>, runner: Runner, endings: seq<Header>, fate: map<Header, Fate>, b: Header, votes: seq<Vote>)
    requires QueueFate(pending, runner, fate) && EndingsFate(endings, fate) && b !in endings
    requires HeadTried(runner) ==> pending != []
    ensures HasFate(fate, b, InQueue) ==> QueueFate(pending + [Work(b, votes)], runner, fate)
    ensures HasFate(fate, b, Refused) ==> EndingsFate(endings + [b], fate)
  {
  }

  lemma FinalKeeps(s: State, i: nat, generated: bool)
    requires Inv(s) && Enabled(s, FinalMine(i, generated))
    ensures Inv(Next(s, FinalMine(i, generated)))
    ensures Next(s, FinalMine(i, generated)).fate[s.tokens[i].block] == InQueue <==> s.tokens[i].confirmed && generated && !s.errored
  {
    FinalShape(s, i, generated);
    FinalLinks(s, i, generated);
    FinalFates(s, i, generated);
    OnlyToken(s, i);
  }

  lemma EndingLeaves(endings: seq<Header>, fate: map<Header, Fate>, k: nat)
    requires EndingsFate(endings, fate) && k < |endings|
    ensures EndingsFate(Without(endings, k), fate[endings[k] := Ended(false)])
  {
    var rest := Without(endings, k);
    assert forall i :: 0 <= i < |rest| ==> rest[i] == endings[if i < k then i else i + 1];
  }

  lemma EndFates(s: State, k: nat)
    requires Inv(s) && Enabled(s, EndRefused(k))
    ensures Fates(Next(s, EndRefused(k)))
  {
    assert HasFate(s.fate, s.endings[k], Refused);
    OthersKeepFate(s, s.endings[k], Ended(false));
    FateMoves(s.fate, s.chain, s.endings[k], Ended(false));
    EndingLeaves(s.endings, s.fate, k);
  }

  lemma EndKeeps(s: State, k: nat)
    requires Inv(s) && Enabled(s, EndRefused(k))
    ensures Inv(Next(s, EndRefused(k)))
  {
    EndFates(s, k);
  }
}
