/** The mining pipeline (worker/worker_mine.go, worker/work_pending.go and worker/unconfirmed.go) as an
    interleaved step system. Every access of a goroutine to shared state is one atomic step: the ticker
    that opens rounds, the round itself, votes and timeouts, FinalMine, the late setRoundState of a
    finished NewMineRound, the asynchronous WorkEnded, and the writer loop of WorkPending.Run. */
module Mining {
  import opened Chain
  import opened BlockStore
  import opened Votes

  /** A sealed block with the votes that were cast on its proof. */
  datatype Work = Work(block: Header, votes: seq<Vote>)

  datatype RoundState = IDLE | PostMining | MiningRound

  /** CheckNeedStartMine, one state per read or write of the work queue and the chain. */
  datatype Ticker = Waits | SawError | SawEmpty | AsksTop | AsksHead | Chose(parent: Header)

  /** A round on its way from the ticker to the end of FinalMine. */
  datatype Token =
    | Posted(parent: Header)
    | Started(parent: Header)
    | Voting(block: Header, info: Info<Header>, votes: seq<Vote>)
    | Handed(block: Header, votes: seq<Vote>, confirmed: bool)
    | Finished

  /** WorkPending.Run between two accesses to shared state. */
  datatype Runner =
    | Sleeps
    | Flushes
    | Flushed(work: Work)
    | Writes
    | Holds(work: Work)
    | Failed(work: Work)
    | Marked(work: Work)
    | Wrote(work: Work)
    | Pops

  /** What became of a block that was made in a round. */
  datatype Fate = InVote | InQueue | Refused | Lost | Stored | Ended(succeed: bool)

  /** `endings` are the pending goroutines that call WorkEnded(false), `tails` the finished rounds that
      have not yet set the round state. `fate` and `raced` record history. */
  datatype State = State(
    threshold: nat,
    chain: Blocks,
    pending: seq<Work>,
    errored: bool,
    round: RoundState,
    ticker: Ticker,
    tokens: seq<Token>,
    tails: nat,
    runner: Runner,
    endings: seq<Header>,
    fate: map<Header, Fate>,
    raced: bool)

  datatype Step =
    | TickStart | TickEmpty | TickReset | TickTop | TickHead | TickGo(start: bool)
    | Receive(i: nat) | RoundFails(i: nat) | RoundOnBootNode(i: nat) | RoundInserts(i: nat, block: Header) | RoundReturns
    | CastVote(i: nat, vote: Vote) | TimesOut(i: nat)
    | FinalMine(i: nat, generated: bool) | FinalIdle(i: nat) | EndRefused(k: nat)
    | RunWakes | RunFlushes | RunEndsFlushed | RunTakesHead | RunLeaves | RunWrites(fault: Fault)
    | RunMarks | RunEnds | RunPops

  function Without<T>(s: seq<T>, i: nat): (r: seq<T>)
    requires i < |s|
    ensures |r| == |s| - 1
  {
    s[..i] + s[i + 1..]
  }

  /** The header a round makes on `parent`: the number follows, and the engine sets a positive difficulty. */
  predicate ChildOf(b: Header, parent: Header) {
    b.parent == Of(parent) && b.number == parent.number + 1 && b.difficulty > 0
  }

  predicate Enabled(s: State, step: Step) {
    match step
    case TickStart => s.ticker.Waits? && s.round.IDLE?
    case TickEmpty => s.ticker.SawError?
    case TickReset => s.ticker.SawEmpty?
    case TickTop => s.ticker.AsksTop?
    case TickHead => s.ticker.AsksHead?
    case TickGo(_) => s.ticker.Chose?
    case Receive(i) => s.ticker.Waits? && i < |s.tokens| && s.tokens[i].Posted?
    case RoundFails(i) => i < |s.tokens| && s.tokens[i].Started?
    case RoundOnBootNode(i) => i < |s.tokens| && s.tokens[i].Started?
    case RoundInserts(i, b) => i < |s.tokens| && s.tokens[i].Started? && ChildOf(b, s.tokens[i].parent) && b !in s.fate && b !in s.chain.td
    case RoundReturns => s.tails > 0
    case CastVote(i, _) => i < |s.tokens| && s.tokens[i].Voting?
    case TimesOut(i) => i < |s.tokens| && s.tokens[i].Voting?
    case FinalMine(i, _) => i < |s.tokens| && s.tokens[i].Handed?
    case FinalIdle(i) => i < |s.tokens| && s.tokens[i].Finished?
    case EndRefused(k) => k < |s.endings|
    case RunWakes => s.runner.Sleeps?
    case RunFlushes => s.runner.Flushes?
    case RunEndsFlushed => s.runner.Flushed?
    case RunTakesHead => s.runner.Writes? && !s.errored && s.pending != []
    case RunLeaves => s.runner.Writes?
    case RunWrites(_) => s.runner.Holds? && s.chain.currentBlock in s.chain.td
    case RunMarks => s.runner.Failed?
    case RunEnds => s.runner.Marked? || s.runner.Wrote?
    case RunPops => s.runner.Pops?
  }

  function Next(s: State, step: Step): State
    requires Enabled(s, step)
  {
    match step
    case TickStart => s.(ticker := if s.errored then SawError else AsksTop)
    case TickEmpty => s.(ticker := if s.pending == [] then SawEmpty else Waits)
    case TickReset => s.(ticker := AsksTop, errored := false, raced := s.raced || s.runner.Flushes? || s.runner.Flushed?)
    case TickTop => s.(ticker := if !s.errored && s.pending != [] then Chose(s.pending[|s.pending| - 1].block) else AsksHead)
    case TickHead => s.(ticker := Chose(s.chain.currentHeader))
    case TickGo(start) =>
      if start then s.(ticker := Waits, round := PostMining, tokens := s.tokens + [Posted(s.ticker.parent)])
      else s.(ticker := Waits)
    case Receive(i) => s.(round := MiningRound, tokens := s.tokens[i := Started(s.tokens[i].parent)])
    case RoundFails(i) => s.(round := IDLE, tokens := Without(s.tokens, i))
    case RoundOnBootNode(i) => s.(tails := s.tails + 1, tokens := Without(s.tokens, i))
    case RoundInserts(i, b) =>
      s.(tails := s.tails + 1, tokens := s.tokens[i := Voting(b, NewInfo(b, s.threshold), [])], fate := s.fate[b := InVote])
    case RoundReturns => s.(tails := s.tails - 1, round := MiningRound)
    case CastVote(i, v) => s.(tokens := s.tokens[i := Voted(s.tokens[i], v)])
    case TimesOut(i) => s.(tokens := s.tokens[i := Handed(s.tokens[i].block, s.tokens[i].votes, false)])
    case FinalMine(i, generated) =>
      var t := s.tokens[i];
      if t.confirmed && generated && !s.errored then
        s.(tokens := s.tokens[i := Finished], pending := s.pending + [Work(t.block, t.votes)], fate := s.fate[t.block := InQueue])
      else
        s.(tokens := s.tokens[i := Finished], endings := s.endings + [t.block], fate := s.fate[t.block := Refused])
    case FinalIdle(i) => s.(round := IDLE, tokens := Without(s.tokens, i))
    case EndRefused(k) => s.(endings := Without(s.endings, k), fate := s.fate[s.endings[k] := Ended(false)])
    case _ => RunNext(s, step)
  }

  function Voted(t: Token, v: Vote): Token
    requires t.Voting?
  {
    match Cast(t.info, v)
    case Open(info) => Voting(t.block, info, t.votes + [v])
    case Closed(verdict) => Handed(t.block, t.votes + [v], verdict)
  }

  function RunNext(s: State, step: Step): State
    requires Enabled(s, step)
  {
    match step
    case RunWakes => s.(runner := if s.errored then Flushes else Writes)
    case RunFlushes =>
      if s.pending == [] then s.(runner := Writes)
      else s.(runner := Flushed(s.pending[0]), pending := s.pending[1..], fate := s.fate[s.pending[0].block := Lost])
    case RunEndsFlushed => s.(runner := Flushes, fate := s.fate[s.runner.work.block := Ended(false)])
    case RunTakesHead => s.(runner := Holds(s.pending[0]))
    case RunLeaves => s.(runner := Sleeps)
    case RunWrites(fault) =>
      var r := WriteBlock(s.chain, s.runner.work.block, fault);
      if r.err then s.(chain := r.db, runner := Failed(s.runner.work), fate := s.fate[s.runner.work.block := Lost])
      else s.(chain := r.db, runner := Wrote(s.runner.work), fate := s.fate[s.runner.work.block := Stored])
    case RunMarks => s.(errored := true, runner := Marked(s.runner.work))
    case RunEnds => s.(runner := Pops, fate := s.fate[s.runner.work.block := Ended(s.runner.Wrote?)])
    case RunPops => s.(runner := Writes, pending := if s.pending == [] then [] else s.pending[1..])
    case _ => s
  }

  // ---------------------------------------------------------------- invariant

  /** At most one round is under way, and none while the ticker may open one. */
  predicate OneRound(round: RoundState, ticker: Ticker, tokens: seq<Token>) {
    && |tokens| <= 1
    && (round.IDLE? || !ticker.Waits? ==> tokens == [])
  }

  /** What the ticker remembers is still true. */
  predicate TickerKnows(ticker: Ticker, errored: bool, pending: seq<Work>) {
    match ticker
    case SawError => errored
    case SawEmpty => errored && pending == []
    case AsksHead => errored || pending == []
    case _ => true
  }

  /** The writer works on the head of the queue; it alone sets the error flag. */
  predicate RunnerKnows(runner: Runner, errored: bool, pending: seq<Work>, current: Header) {
    match runner
    case Holds(w) => !errored && pending != [] && pending[0] == w
    case Failed(w) => !errored && pending != [] && pending[0] == w
    case Wrote(w) => !errored && pending != [] && pending[0] == w && current == w.block
    case Marked(w) => errored && pending != [] && pending[0] == w
    case Pops => pending != [] && (errored || current == pending[0].block)
    case _ => true
  }

  /** While there was no race the writer does not flush a queue that takes new blocks. */
  predicate FlushesErrored(runner: Runner, errored: bool, raced: bool) {
    !raced && (runner.Flushes? || runner.Flushed?) ==> errored
  }

  /** The write of the block at the head of the queue was tried. */
  predicate HeadTried(runner: Runner) {
    runner.Failed? || runner.Marked? || runner.Wrote? || runner.Pops?
  }

  predicate HeadWritten(runner: Runner, errored: bool) {
    runner.Wrote? || (runner.Pops? && !errored)
  }

  /** A block made on its parent. */
  predicate Made(b: Header) {
    b.parent.Of? && ChildOf(b, b.parent.header)
  }

  /** Each queued block is a child of the one before it. */
  predicate QueueLinked(pending: seq<Work>) {
    && (pending != [] ==> Made(pending[0].block))
    && (forall i :: 0 < i < |pending| ==> ChildOf(pending[i].block, pending[i - 1].block))
  }

  /** A header the queue may begin on: the head of the chain, or else, after a race, one that was never
      given to the chain. */
  predicate GoodBase(chain: Blocks, raced: bool, parent: Header) {
    parent == chain.currentBlock || (raced && parent !in chain.td)
  }

  /** The header the block at the head of the queue is built on, unless that block was just written. */
  predicate BaseGood(s: State) {
    !s.errored && s.pending != [] && !HeadWritten(s.runner, s.errored) && Made(s.pending[0].block) ==>
      GoodBase(s.chain, s.raced, s.pending[0].block.parent.header)
  }

  /** The header the next block to be queued is built on. */
  predicate ParentGood(errored: bool, pending: seq<Work>, chain: Blocks, raced: bool, parent: Header) {
    errored || (if pending != [] then parent == pending[|pending| - 1].block else GoodBase(chain, raced, parent))
  }

  predicate TickerGood(s: State) {
    s.ticker.Chose? ==> ParentGood(s.errored, s.pending, s.chain, s.raced, s.ticker.parent)
  }

  predicate TokenGood(errored: bool, pending: seq<Work>, chain: Blocks, raced: bool, t: Token) {
    match t
    case Posted(p) => ParentGood(errored, pending, chain, raced, p)
    case Started(p) => ParentGood(errored, pending, chain, raced, p)
    case Voting(b, _, _) => Made(b) && ParentGood(errored, pending, chain, raced, b.parent.header)
    case Handed(b, _, _) => Made(b) && ParentGood(errored, pending, chain, raced, b.parent.header)
    case Finished => true
  }

  predicate TokensGood(s: State) {
    forall t :: t in s.tokens ==> TokenGood(s.errored, s.pending, s.chain, s.raced, t)
  }

  /** The chain stores exactly the blocks whose fate says so, and it does not know the total difficulty of
      one that was not tried. */
  ghost predicate FatesRight(fate: map<Header, Fate>, chain: Blocks) {
    && (forall b :: b in fate ==> (b in chain.stored <==> fate[b] == Stored || fate[b] == Ended(true)))
    && (forall b :: b in fate && (fate[b].InVote? || fate[b].InQueue?) ==> b !in chain.td)
  }

  predicate HasFate(fate: map<Header, Fate>, b: Header, f: Fate) {
    b in fate && fate[b] == f
  }

  predicate RunnerFate(runner: Runner, fate: map<Header, Fate>) {
    match runner
    case Flushed(w) => HasFate(fate, w.block, Lost)
    case Failed(w) => HasFate(fate, w.block, Lost)
    case Marked(w) => HasFate(fate, w.block, Lost)
    case Wrote(w) => HasFate(fate, w.block, Stored)
    case _ => true
  }

  predicate QueueFate(pending: seq<Work>, runner: Runner, fate: map<Header, Fate>) {
    forall i :: 0 <= i < |pending| ==>
      if i == 0 && HeadTried(runner) then Tried(fate, pending[i].block) else HasFate(fate, pending[i].block, InQueue)
  }

  predicate Tried(fate: map<Header, Fate>, b: Header) {
    b in fate && (fate[b].Lost? || fate[b].Stored? || fate[b].Ended?)
  }

  predicate TokensFate(tokens: seq<Token>, fate: map<Header, Fate>) {
    forall t :: t in tokens && (t.Voting? || t.Handed?) ==> HasFate(fate, t.block, InVote)
  }

  predicate EndingsFate(endings: seq<Header>, fate: map<Header, Fate>) {
    && (forall k :: 0 <= k < |endings| ==> HasFate(fate, endings[k], Refused))
    && (forall j, k :: 0 <= j < k < |endings| ==> endings[j] != endings[k])
  }

  /** A queued block was approved: the distinct approving addresses reached the threshold first. */
  predicate Approved(b: Header, threshold: nat, votes: seq<Vote>) {
    Collect(NewInfo(b, threshold), votes) == Closed(true)
  }

  predicate TokenVotes(threshold: nat, t: Token) {
    && (t.Voting? ==> Collect(NewInfo(t.block, threshold), t.votes) == Open(t.info))
    && (t.Handed? ==> (t.confirmed <==> Approved(t.block, threshold, t.votes)))
  }

  predicate VotesRight(threshold: nat, tokens: seq<Token>, pending: seq<Work>) {
    && (forall t :: t in tokens ==> TokenVotes(threshold, t))
    && (forall w :: w in pending ==> Approved(w.block, threshold, w.votes))
  }

  ghost predicate ChainRight(chain: Blocks) {
    Ordered(chain) && ParentClosed(chain.stored)
  }

  /** Every stored block but the first stands on a stored block. */
  ghost predicate ParentClosed(stored: set<Header>) {
    forall h :: h in stored && h.parent.Of? ==> h.parent.header in stored
  }

  /** Who is where. */
  predicate Shape(s: State) {
    && OneRound(s.round, s.ticker, s.tokens)
    && TickerKnows(s.ticker, s.errored, s.pending)
    && RunnerKnows(s.runner, s.errored, s.pending, s.chain.currentBlock)
    && FlushesErrored(s.runner, s.errored, s.raced)
  }

  /** What became of each block. */
  ghost predicate Fates(s: State) {
    && FatesRight(s.fate, s.chain)
    && RunnerFate(s.runner, s.fate)
    && QueueFate(s.pending, s.runner, s.fate)
    && TokensFate(s.tokens, s.fate)
    && EndingsFate(s.endings, s.fate)
  }

  /** What is built on what. */
  predicate Links(s: State) {
    QueueLinked(s.pending) && BaseGood(s) && TickerGood(s) && TokensGood(s)
  }

  ghost predicate Inv(s: State) {
    Shape(s) && Fates(s) && Links(s) && VotesRight(s.threshold, s.tokens, s.pending) && ChainRight(s.chain)
  }

  function Initial(threshold: nat, chain: Blocks): State {
    State(threshold, chain, [], false, IDLE, Waits, [], 0, Sleeps, [], map[], false)
  }

  lemma InitialInv(threshold: nat, chain: Blocks)
    requires ChainRight(chain)
    ensures Inv(Initial(threshold, chain))
  {
  }

  lemma TailLinked(pending: seq<Work>)
    requires QueueLinked(pending) && pending != []
    ensures QueueLinked(pending[1..])
    ensures |pending| > 1 ==> pending[1..][0].block.parent == Of(pending[0].block) && pending[1..][|pending| - 2] == pending[|pending| - 1]
  {
  }
}
