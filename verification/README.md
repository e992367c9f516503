# A verified model of sphinx

This project models the parts of sphinx whose claims span several functions, a loop or a whole run, and
proves what they promise. `dafny verify dfyconfig.toml` checks everything.

The mining pipeline, the retrieval protocol and the filter chain of the bloom index, the section indexer
and the transaction pool are interleaved step systems: each locked section, channel hand-over or access to shared state is
one atomic step, and the theorems are about every run. Code that updates fields or arrays in place is
also written as classes and methods with loops, each proved equal to the value-level function the
theorems are about.

| file | what it is about |
|---|---|
| `Mining.dfy`, `MiningRounds.dfy`, `MiningWriter.dfy`, `MiningRuns.dfy`, `MiningSequence.dfy`, `MiningWitness.dfy` | rounds, votes, the queue of sealed blocks and its writer: steps and invariant, its preservation, the theorems over runs, the steps in a row against the sequential methods, runs that show where the pipeline misbehaves |
| `WorkQueue.dfy`, `Votes.dfy`, `TxConfirm.dfy` | the objects of the pipeline: work queue, proof votes, confirmation counts |
| `TxPool.dfy`, `TxPoolRuns.dfy`, `TxPoolCalls.dfy` | the transaction pool, its runs, and concurrent calls of AddTx step by step |
| `Chain.dfy`, `HeaderChain.dfy`, `HeaderDb.dfy`, `BlockStore.dfy`, `Indexer.dfy` | the chain store: ancestors, header reorganisation and rewinding, the block writer, the section indexer |
| `StateModel.dfy`, `StateDb.dfy`, `StateDirty.dfy` | the journal of the state database: snapshot and revert, and the set of objects to be committed |
| `Bits.dfy`, `Compress.dfy`, `Bitutil.dfy`, `Bloom.dfy`, `Generator.dfy`, `Filters.dfy`, `Scan.dfy`, `Matcher.dfy` | the bloom index: codec, word-wise bit operations, blooms, rotation, filters, scan, sequential session |
| `Pipeline.dfy`, `PipelineOrder.dfy`, `PipelineMeasure.dfy`, `PipelineRuns.dfy` | the goroutines of a session, the order of sections on their way, the steps still to come, and every interleaving against the sequential session |
| `Retrieval.dfy`, `RetrievalSteps.dfy`, `RetrievalDelivery.dfy`, `RetrievalRuns.dfy`, `Distributor.dfy` | schedulers, distributor and fetchers of a matcher session |
| `Gossip.dfy`, `BigMath.dfy`, `Common.dfy` | relay credits; modular exponentiation; shared types |

## Conventions

- A header hash is a free constructor over the header it was computed from, so hashing is injective.
  A number of -1 stands for the key that `number - 1` wraps around to at 0.
- The databases are maps and sets; the LRU caches in front of them are not visible.
- Keccak digests, signatures, clocks, the votes of other nodes, failing writes and the order of map
  iterations are inputs of the steps. Work ids are unique while in use and distinct rounds make distinct
  headers; the consensus engine gives a block the number after its parent's and a positive difficulty.
- Receiving a transaction and filing it, and moving it between two maps of the pool, is one step. `TxPool.dfy`
  and `TxPoolRuns.dfy` take a call of AddTx as one step; `TxPoolCalls.dfy` takes the duplicate test, the
  entry in the known set and the send as separate steps of calls that overlap.
- In `Pipeline.dfy` a step never waits for room in a channel, so that the runs include those of channels of any
  capacity. Where it matters that a send can block, at the end of a session, `PipelineRuns.Stuck` says that every
  goroutine waits, for channels of a given positive capacity; the receiver of the results always takes them. A
  stream between a sub-matcher and a scheduler gives the vectors of the sections it was asked for in order, which is
  what `RetrievalRuns.StreamsTheIndex` states of the streams. A session that is closed is one whose goroutines do
  not go on; what a sub-matcher may still read from a stream that closing has shut is not modelled.
- `Load` and `Delete` of a proof in `worker/unconfirmed.go` happen in one step, and stopping and
  restarting the miner is not modelled.
- Natural numbers of `math/big` are sets of one bits in `Bloom.dfy` and unbounded integers in
  `BigMath.dfy`. Reverting pops the journal entry by entry where the code truncates it once at the end.

## Where the code does not do what it promises

Each of these has a lemma with an input or run that shows it and one that says exactly when it does not happen.

- The error flag of the work queue can be cleared while the writer still flushes; a round is then built on
  a block that the flush drops (`MiningWitness.QueueCanLeaveChain`, `MiningRuns.LinkedIff`,
  `MiningRuns.QueueContinuesChain`). It does no harm to the chain: such a block is never written.
- The round state can stay at Mining for good with no round under way: a round that finishes before
  `NewMineRound` has returned is marked Mining again by the late return, whether the ticker waits or is just
  looking for a parent, and on a boot node `NewMineRound` returns without a round
  (`MiningWitness.LateReturnStalls`, `LateReturnStallsTicker`, `BootNodeStalls`; `StallsNextIff` and
  `StalledIff` say exactly which steps do it, `StalledForever` that it lasts).
- With threshold 0 a proof is closed as rejected by any vote (`Votes.VerdictIsFirstSide`).
- Emptying the known-transaction set lets a transaction in twice, for every number of threads, capacity and
  size of that set (`TxPoolRuns.ClearedKnownLosesIt`); an accepted call conserves exactly if the transaction is
  in no full channel and no batch (`TxPool.AddConservesIff`, `TxPoolRuns.NextConservesIff`). A reused work id
  loses a batch (`TxPool.TakeConservesIff`).
- A transaction that is received while the verify channel is full stays queued for good: it never becomes pending
  and cannot be added again (`TxPoolRuns.StrandedIff`, `TxPoolRuns.StrandedForever`). A call that finds no channel with
  room leaves the hash in the known set, so that every later call for it is refused until that set is emptied
  (`TxPoolRuns.RefusedUntilCleared`).
- Two calls of AddTx with one hash that overlap let it in twice, in a run from the empty pool of any size
  (`TxPoolCalls.OverlapLosesIt`, `TxPoolCalls.OverlappingCallsBreak`); without such calls nothing is lost
  (`TxPoolCalls.SentConservesIff`, `TxPoolCalls.ConservedInEveryInterleaving`).
- After `SetHead`, writing a header on a branch whose lower part was deleted dereferences nil
  (`HeaderChain.RewoundBranchPanics`, `HeaderChain.WriteHeaderOutcome`).
- `WriteBlockAndState` can return without an error and without a block (`BlockStore.SilentDropIff`,
  `BlockStore.TdWithoutBlock`).
- The scan passes over matches when it starts inside a zero byte (`Scan.UnalignedMisses`, `Scan.CompleteIff`); a
  session misses nothing exactly if its range begins with a byte, ends within the byte it begins in, or that
  byte is the last of a section (`Matcher.SessionExactIff`).
- After quit a fetcher that gives up leaves its queue unattended for good, and nothing else does
  (`RetrievalRuns.QueueCanBeAbandoned`, `RetrievalRuns.HeldNextIff`, `RetrievalRuns.HeldIff`).
- A reorganisation inside the section being processed does not stop its commit, so a section that was read on
  the old branch is committed and stays (`Indexer.StaleSectionCommitted`); `Indexer.CommitsIffNotUndone` says which notices
  stop a commit, and `Indexer.SectionCanonicalIff` when what is committed is canonical.
- `createObject` says that it marks the new object as dirty; `setNonce` is empty, so it does not, and an account that is
  only created is in no commit (`StateModel.CreateReads`; `StateDirty.ChangedIsMarked` says what is always marked).
- `Exp` changes its base although its comment says it does not (`BigMath.BasePreservedIff`, `BigMath.EvenBaseIsLost`).
- The comment in `common/bitutil/compress.go` describes a recursion through `CompressBytes`; the code
  recurses through `bitsetEncodeBytes`, and so does the model. Compressing what was decompressed gives the
  input back except for raw input of the target length that would have been shortened
  (`Compress.CompressDecompress`, `Compress.RawZerosAreNotCanonical`).
- If the lookup entry of a pooled transaction points to a block without its receipt, a second visit of the
  block undoes the first (`TxConfirm.SecondVisitLoses`, `TxConfirm.FiveLost`). The passes over a pool conserve in
  every order exactly if no pooled transaction strays into a block to which another one adds, unless a pass stops
  at that block (`TxConfirm.PassConservesIff`); so they do when lookups and receipts agree
  (`TxConfirm.AgreementIsSafe`).

## Model

| member | source | states |
|---|---|---|
| `MiningRounds.CheckKeeps` | worker/worker_mine.go:52-61 | the error check, the emptiness check and the reset of the error flag keep the whole pipeline invariant; the flag is only cleared when the queue is empty and no round is under way |
| `MiningRounds.TopKeeps` | worker/worker_mine.go:62-65 | taking the last queued block as parent keeps the invariant: it stays the right parent until the round queues its own block |
| `MiningRounds.HeadKeeps` | worker/worker_mine.go:66-70 | taking the chain head as parent keeps the invariant even though the queue was looked at one step earlier |
| `MiningRounds.GoKeeps` | worker/worker_mine.go:107-119 | opening a round keeps the invariant; it is opened only when no other is under way |
| `MiningRounds.ReceiveKeeps` | worker/worker_mine.go:123-136 | starting the posted round keeps the invariant |
| `MiningRounds.LeaveKeeps` | worker/worker_mine.go:130-135 | a failing round, a boot node, the late state change of a returned round and the end of FinalMine keep the invariant in any order |
| `MiningRounds.InsertKeeps` | worker/worker_mine.go:176-241 | putting the proof of a new block up for votes keeps the invariant: the block is at that one place |
| `MiningRounds.VoteKeeps` | worker/unconfirmed.go:62-95 | a vote keeps the invariant; a proof that is handed over is confirmed exactly if the threshold of approving addresses was reached first |
| `MiningRounds.TimeoutKeeps` | worker/unconfirmed.go:101-117 | a timeout hands the work over unconfirmed and keeps the invariant |
| `MiningRounds.FinalKeeps` | worker/worker_mine.go:264-291 | a finished work is queued exactly if it was confirmed and generated and the queue takes blocks, and the invariant holds after it: a queued block is a child of the last queued one |
| `MiningRounds.FinalMineOutcome` | worker/worker_mine.go:264-291 | on every state: the confirmed and generated block goes to the end of a queue that is not in error mode, any other work is reported as failed, and the round is over |
| `MiningRounds.EndKeeps` | worker/worker_mine.go:260-272 | the asynchronous WorkEnded(false) keeps the invariant |
| `MiningWriter.FlushKeeps` | worker/work_pending.go:87-92 | dropping the head of the queue keeps the invariant, also when the error flag was cleared meanwhile |
| `MiningWriter.HoldKeeps` | worker/work_pending.go:93-106 | taking the head of the queue, leaving the loop and setting the error flag keep the invariant |
| `MiningWriter.WriteKeeps` | worker/work_pending.go:100-104 | writing the head of the queue keeps the invariant, whatever fails |
| `MiningWriter.PopKeeps` | worker/work_pending.go:67-76 | after the pop the next block stands on the head of the chain or the queue is in error mode |
| `MiningWriter.WriteIsCanonicalOrError` | worker/work_pending.go:100-104 | in any state of the invariant a write makes the block the head or fails, and fails exactly on a fault or when its parent is not the head |
| `MiningWriter.QueueDistinct` | worker/work_pending.go:25-34 | no block is queued twice, because numbers rise along the queue |
| `MiningRuns.RunKeepsInv` | worker/worker_mine.go:90-174 | the invariant holds after every run of any interleaving |
| `MiningRuns.OneWorkInFlight` | worker/worker_mine.go:107-164 | in every run at most one mined work is between Insert and the end of FinalMine, it is at no other place, and no round can be opened meanwhile |
| `MiningRuns.EveryWriteIsCanonicalOrError` | worker/work_pending.go:93-111 | in every run each write by Run is canonical or an error, the silent not-the-head return is unreachable, and the written block was approved by its voters |
| `MiningRuns.FateProgresses` | worker/worker_mine.go:264-291 | in every step a block keeps its fate or takes the next one: vote, queue or refusal, stored or lost, reported |
| `MiningRuns.OnlyFinalMineQueues` | worker/worker_mine.go:264-283 | in every step a block gets into the queue exactly by a FinalMine that has the approval of its voters and its generated block while the queue takes blocks |
| `MiningRuns.QueuedWasGenerated` | worker/worker_mine.go:264-283 | in every run a block that is queued, lost from the queue or written was queued by such a FinalMine of this run |
| `MiningRuns.WrittenWasGenerated` | worker/work_pending.go:93-109 | in every run from the start a block that came into the chain was approved by its voters, and queued when it was generated |
| `MiningRuns.NothingOnALostBlock` | worker/work_pending.go:87-106 | once a block was refused, flushed or failed, neither it nor any descendant of it is stored at any later point of any run |
| `MiningRuns.WorkEndsOnce` | worker/work_pending.go:90-107 | WorkEnded is called at most once for a work, with true exactly when its block is in the chain, and the answer stays right |
| `MiningRuns.QueueContinuesChain` | worker/work_pending.go:78-113 | in every run without a reset during a flush each queued block is a child of the one before and the first is a child of the head |
| `MiningRuns.LinkedIff` | worker/work_pending.go:78-113 | in any run the queue continues the chain exactly if the chain knows the parent of the first waiting block |
| `MiningRuns.RacedIff` | worker/worker_mine.go:54-61 | the recorded race is exactly a reset of the error flag while the writer flushes |
| `MiningSequence.CheckInARow` | worker/worker_mine.go:52-118 | the steps of a tick in a row: a queue in error mode that is not empty opens no round, an empty one leaves error mode; a round is posted on the last queued block or else the chain head exactly if it is due |
| `MiningSequence.WakeInARow` | worker/work_pending.go:78-113 | the steps of a wake-up in a row, for every queue and all faults: chain, queue and error flag are those of the sequential wake-up and the fates are those its reports tell |
| `MiningSequence.WriteInARow` | worker/work_pending.go:93-109 | so it is for the write loop from any point on |
| `MiningSequence.FlushInARow` | worker/work_pending.go:87-92 | and for the flush: every queued work is reported as failed, in order |
| `MiningWitness.QueueCanLeaveChain` | worker/work_pending.go:87-92 | for every positive threshold there is a run from the start after which the only queued block stands on a dropped block |
| `MiningWitness.StalledForever` | worker/worker_mine.go:107-136 | a round state of Mining without a round lasts for ever |
| `MiningWitness.StallsNextIff` | worker/worker_mine.go:107-136 | in every state of the invariant exactly these steps leave a round state of Mining without a round: a late return while the ticker waits and nothing is under way, a boot node's return, and a ticker check that opens no round after a late return |
| `MiningWitness.StalledIff` | worker/worker_mine.go:90-174 | a run ends stalled exactly if one of its steps was such a step |
| `MiningWitness.LateReturnStalls` | worker/worker_mine.go:130-163 | for every threshold a run from the start ends stalled by a return after the round was finished |
| `MiningWitness.LateReturnStallsTicker` | worker/worker_mine.go:107-136 | the same when the return lands while the ticker looks for a parent |
| `MiningWitness.BootNodeStalls` | worker/worker_mine.go:177-179 | the same for a boot node's first round |
| `WorkQueue.LinkedQueueIsWritten` | worker/work_pending.go:93-109 | on a queue that continues the chain a wake-up writes the longest prefix the faults allow, stores exactly its blocks, keeps the rest in order, and reports success for the prefix and failure for the block that stopped it |
| `WorkQueue.WriteLoopReports` | worker/work_pending.go:93-109 | on any queue the works that leave it are reported in order, all as written but the last one, which failed exactly if the queue is now in error mode; it ends early only then |
| `WorkQueue.WriteLoop` | worker/work_pending.go:93-109 | the chain stays ordered through the whole loop, for any queue and any faults |
| `WorkQueue.WorkPending.Add` | worker/work_pending.go:25-34 | a work is appended exactly when the queue is not in error mode |
| `WorkQueue.WorkPending.Top` | worker/work_pending.go:36-44 | the last work, or nothing in error mode or when empty |
| `WorkQueue.WorkPending.Head` | worker/work_pending.go:46-54 | the first work, or nothing in error mode or when empty |
| `WorkQueue.WorkPending.SetNoError` | worker/work_pending.go:63-65 | clears the flag and leaves the queue alone |
| `WorkQueue.WorkPending.CheckNeedStartMine` | worker/worker_mine.go:52-79 | error mode is left exactly if the queue is empty, no header is returned in error mode, and otherwise the last queued block or the chain head exactly if it is due |
| `WorkQueue.WorkPending.Pop` | worker/work_pending.go:67-76 | returns the first work and leaves exactly the rest |
| `WorkQueue.WorkPending.Flush` | worker/work_pending.go:87-92 | empties the queue and reports every work as failed, in order |
| `WorkQueue.WorkPending.WriteQueue` | worker/work_pending.go:93-109 | leaves chain, queue, flag and reports as the write loop on values does |
| `WorkQueue.WorkPending.Wake` | worker/work_pending.go:85-110 | one wake-up flushes in error mode without touching the chain and writes otherwise |
| `Votes.OpenUntilDecided` | worker/unconfirmed.go:62-95 | while neither side has enough distinct voters the proof stays open and holds exactly the distinct voters of each side |
| `Votes.HandedOverOnce` | worker/unconfirmed.go:72-93 | the work is handed over at the first vote after which a side has enough distinct addresses, with the verdict of that moment, and never again |
| `Votes.OpenOrDecided` | worker/unconfirmed.go:72-93 | it is handed over exactly if there is such a vote |
| `Votes.VerdictIsFirstSide` | worker/unconfirmed.go:72-79 | exactly one side has reached the threshold at the handover if and only if the threshold is positive |
| `Votes.UnconfirmedProofs.Insert` | worker/unconfirmed.go:52-60 | a known proof is left as it is |
| `Votes.UnconfirmedProofs.Confirm` | worker/unconfirmed.go:62-95 | an unknown proof changes nothing; a known one stays open or is handed over and forgotten |
| `Votes.UnconfirmedProofs.CheckTimeout` | worker/unconfirmed.go:101-117 | every proof that waited too long is handed over unconfirmed once, and no other |
| `TxPoolRuns.ConservedInEveryRun` | txpool/tx_pool.go:238-438 | while the known set was not emptied, across all interleavings every accepted transaction is in exactly one of full channel, queue, pending, one batch or onChain, and no other is anywhere |
| `TxPoolRuns.NextConservesIff` | txpool/tx_pool.go:263-438 | a step loses conservation exactly if it accepts a transaction that is in a full channel or in a batch |
| `TxPoolRuns.ConservedUnlessAddedAgain` | txpool/tx_pool.go:238-438 | hence it holds in every run without such a step, whether or not the known set was emptied |
| `TxPool.DealFullConserves` | txpool/tx_pool.go:263-288 | receiving a transaction keeps conservation, also when the verify channel is full |
| `TxPool.DealFullOutcome` | txpool/tx_pool.go:263-288 | the first transaction of the channel is queued and goes to the end of the verify channel exactly if that has room; nothing else changes |
| `TxPool.DealVerifyConserves` | txpool/tx_pool.go:290-309 | verifying moves one transaction from queue to pending |
| `TxPool.DealVerifyOutcome` | txpool/tx_pool.go:290-309 | the first transaction of the verify channel leaves the queue and is pending; nothing else changes |
| `TxPool.TakeConservesIff` | txpool/tx_pool.go:403-420 | taking a batch keeps conservation exactly when it does not store over a batch in work |
| `TxPool.TakeOutcome` | txpool/tx_pool.go:403-420 | what is returned leaves pending and is the batch of the work; other batches stay, and no batch is stored for nothing |
| `TxPool.WorkEndedConserves` | txpool/tx_pool.go:422-438 | ending a work keeps conservation in both cases |
| `TxPool.WorkEndedOutcome` | txpool/tx_pool.go:422-438 | success puts each transaction of the batch on the chain with the block number and leaves pending alone, failure puts each back to pending and leaves the chain alone; the batch is gone, other batches stay, an unknown id changes nothing |
| `TxPool.AddConservesIff` | txpool/tx_pool.go:322-342 | an accepted call keeps conservation exactly when its transaction is in no full channel and in no batch, the places the duplicate test does not look at; a refused one always does |
| `TxPool.SendConservesIff` | txpool/tx_pool.go:332-339 | the send alone keeps conservation exactly when no channel has room or the transaction is nowhere in the pool |
| `TxPool.AddTxOutcome` | txpool/tx_pool.go:322-342 | a call is accepted exactly if the hash is not known, queued, pending or on the chain and some channel has room; the transaction goes to the end of the first such channel from the start on, and nothing but the known set changes besides |
| `TxPoolRuns.ClearedKnownLosesIt` | txpool/tx_pool.go:120-125 | for every number of threads, channel capacity and size of the known set there is a run from the empty pool in which emptying the set breaks conservation |
| `TxPoolRuns.StrandedIff` | txpool/tx_pool.go:272-288 | a received transaction is left in the queue without being in any channel exactly if the verify channel was full |
| `TxPoolRuns.StrandedForever` | txpool/tx_pool.go:238-438 | in every run such a transaction stays there: it never becomes pending and cannot be added again |
| `TxPoolRuns.RefusedUntilCleared` | txpool/tx_pool.go:322-342 | in every run after a call that found no channel with room, every call for that transaction is refused until the known set is emptied |
| `TxPoolCalls.CallInARow` | txpool/tx_pool.go:322-342 | the three steps of a call that nothing interrupts are the call as one step |
| `TxPoolCalls.SentConservesIff` | txpool/tx_pool.go:332-339 | whatever happened since the duplicate test, sending conserves exactly when no channel has room or the transaction is nowhere |
| `TxPoolCalls.ConservedInEveryInterleaving` | txpool/tx_pool.go:322-342 | in every interleaving of overlapping calls for different hashes with all other steps nothing is lost while the known set is not emptied |
| `TxPoolCalls.OverlappingCallsBreak` | txpool/tx_pool.go:322-342 | any two overlapping calls for one hash that both find room break conservation |
| `TxPoolCalls.OverlapLosesIt` | txpool/tx_pool.go:322-342 | for every number of threads, channel capacity, size of the known set and hash there is a run from the empty pool in which two such calls break it |
| `TxPool.TxPool.constructor` | txpool/tx_pool.go:94-118 | an empty pool satisfies the invariant |
| `TxPool.TxPool.KnownTxAdd` | txpool/tx_pool.go:120-125 | the known set is emptied when it is full and the hash is then in it |
| `TxPool.TxPool.AddTx` | txpool/tx_pool.go:322-342 | returns success exactly for a hash that is not known, queued, pending or on the chain while some channel has room, and leaves the pool as the step on values does |
| `TxPool.TxPool.FindRoom` | txpool/tx_pool.go:312-342 | the first channel with room, tried in turn |
| `TxPool.TxPool.Pending` | txpool/tx_pool.go:403-420 | takes distinct pending transactions, as many as fit, and files them under the work id |
| `TxPool.TxPool.WorkEnded` | txpool/tx_pool.go:422-438 | on success every transaction of the batch is on the chain with the block number and pending is as before, on failure every one is pending and the chain is as before; nothing happens for an unknown id |
| `TxConfirm.Confirmer.UpdateTxConfirm` | worker/worker_verify.go:22-49 | for every iteration order: a transaction that resolves to a block with its receipt leaves the pool unless more than 10000 left it, and one leaves exactly if a visited block has its receipt; in a safe pool the receipts of each transaction gain exactly what left the pool, and in any case each receipt gains nothing or exactly what was pooled for its transaction |
| `TxConfirm.PassConservesIff` | worker/worker_verify.go:22-49 | the passes over the whole pool, with the stop beyond 10000, conserve in every order if and only if the pool is safe: no pooled transaction resolves to a block that lacks its receipt and to which another pooled one adds, unless the pass stops there |
| `TxConfirm.StaysIff` | worker/worker_verify.go:28-42 | in a pass in any order a transaction stays in the pool exactly if no visited block has a receipt of it |
| `TxConfirm.HeldLeaves` | worker/worker_verify.go:28-42 | one whose own block has a receipt of it leaves, unless the pass was stopped |
| `TxConfirm.SafeOutcome` | worker/worker_verify.go:22-49 | after a pass over a safe pool in any order the receipts of each transaction hold exactly what left the pool more than before |
| `TxConfirm.VisitOutcome` | worker/worker_verify.go:28-38 | one round receipt by receipt: the first receipt of each pooled transaction in the block gains its count, the others nothing; exactly these leave the pool; without a receipt at the looked up place nothing happens |
| `TxConfirm.VisitConservesIff` | worker/worker_verify.go:28-38 | a round conserves exactly if its block is not in the batch yet or is there with the sum of the database |
| `TxConfirm.SafeRound` | worker/worker_verify.go:28-38 | in a safe pool every round conserves and leaves what is to come as it was |
| `TxConfirm.VisitKeepsInv` | worker/worker_verify.go:28-38 | in any pool a round changes receipts only by what was pooled for them, and nothing if nothing was counted |
| `TxConfirm.ApplyConserves` | worker/worker_verify.go:30-36 | what the pool loses the receipts of the block gain |
| `TxConfirm.ApplyConservesEach` | worker/worker_verify.go:30-36 | so it is for each transaction by itself |
| `TxConfirm.ApplyGives` | worker/worker_verify.go:30-36 | the first receipt of a pooled transaction gains what was pooled for it, every other receipt nothing |
| `TxConfirm.ApplyTakes` | worker/worker_verify.go:30-36 | the pool loses exactly the transactions that have a receipt in the block |
| `TxConfirm.ApplyGrows` | worker/worker_verify.go:30-37 | a receipt gains nothing or exactly what was pooled for its own transaction; nothing changes when nothing was counted |
| `TxConfirm.AddConfirms` | worker/worker_verify.go:30-36 | the loop over the receipts computes that pass |
| `TxConfirm.VisitTx` | worker/worker_verify.go:28-38 | a round reads the receipts from the database and not from the batch; an unresolved hash changes nothing |
| `TxConfirm.SecondVisitLoses` | worker/worker_verify.go:28-38 | a second visit of a block loses exactly what the first took from the pool |
| `TxConfirm.FiveLost` | worker/worker_verify.go:28-38 | such a pool, with five confirmations lost |
| `Chain.FindCommonAncestor` | blockchain/database_util.go:732-756 | terminates on every store, returns the common ancestor with the greatest number, and nil exactly when there is none |
| `Chain.RootedHaveCommon` | blockchain/database_util.go:732-756 | two headers rooted in one genesis always have a common ancestor |
| `Chain.CommonBelowLast` | blockchain/database_util.go:732-756 | the common ancestors are exactly the found one and its ancestors |
| `HeaderChain.WriteHeaderOutcome` | blockchain/headerchain.go:132-196 | on every store and for every tie-break: an unknown parent is refused, a header becomes the current one exactly if its path is heavier or equally heavy with the coin for it, that panics exactly when its branch is not rooted, and otherwise the canonical index is the ancestor path of the head |
| `HeaderChain.WriteHeaderKeepsBest` | blockchain/headerchain.go:132-196 | the index equals the path of the current header with nothing above it, td is td(parent) plus difficulty, and the current header is heaviest |
| `HeaderChain.HeaviestInEveryRun` | blockchain/headerchain.go:132-196 | so it is after every run of writes |
| `HeaderChain.SetHeadRewinds` | blockchain/headerchain.go:409-442 | rewinding makes the ancestor at that number the current header, deletes exactly the canonical headers above it and leaves its path as the canonical index |
| `HeaderChain.RewindEnds` | blockchain/headerchain.go:415-437 | on every store the rewinding ends at the ancestor with that number, or at the genesis when one is missing on the way, and deletes exactly the stored ancestors above |
| `HeaderChain.RewoundBranchPanics` | blockchain/headerchain.go:165-177 | after a rewind a heavier header on a cut-off branch hits a missing parent |
| `HeaderDb.HeaderDb.DropAbove` | blockchain/headerchain.go:157-164 | deletes the canonical hashes above the new head up to the first gap |
| `HeaderDb.HeaderDb.OverwriteStale` | blockchain/headerchain.go:165-177 | rewrites stale canonical entries down the branch, or reports the missing header |
| `HeaderDb.HeaderDb.WriteHeader` | blockchain/headerchain.go:132-196 | leaves the database and returns the status as the write on values does |
| `HeaderDb.HeaderDb.RewindTo` | blockchain/headerchain.go:415-424 | on every store deletes headers and total difficulties from the head downwards until the number is reached or an ancestor is missing |
| `HeaderDb.HeaderDb.SetHead` | blockchain/headerchain.go:409-442 | on every store rewinds, removes the canonical entries above and resets the current header, to the genesis if an ancestor is missing |
| `BlockStore.WriteBlockOutcome` | blockchain/blockchain.go:790-855 | for every block and fault the store stays ordered, the head moves exactly when the status is canonical and then to a child of the old head, and nothing stored is lost |
| `BlockStore.WriteBlockStatus` | blockchain/blockchain.go:794-848 | which status and error, exactly, in terms of the difficulties along the paths, the coinbase, the parent and the fault; the sum along the path is stored as total difficulty before everything else |
| `BlockStore.SilentDropIff` | blockchain/blockchain.go:794-830 | the return without error and without block, exactly: a known parent that is not the head, a path heavier than the head's or equally heavy with the greater coinbase, no earlier fault |
| `BlockStore.TdWithoutBlock` | blockchain/blockchain.go:807-829 | a stored total difficulty without its block |
| `BlockStore.ChainOnlyGrows` | blockchain/blockchain.go:790-855 | over every run of calls an earlier canonical chain is a prefix of every later one and the head's total difficulty never falls |
| `BlockStore.BlockChain.Insert` | blockchain/blockchain.go:491-513 | sets the canonical hash and the heads, the header heads only if the block was not canonical before |
| `BlockStore.BlockChain.WriteBlockAndState` | blockchain/blockchain.go:790-855 | leaves the store and returns status and error as the write on values does and keeps the store ordered; without a fault the status is side exactly if the path is not heavier, nor equally heavy with the greater coinbase |
| `Indexer.CommitIff` | blockchain/chain_indexer.go:259-290 | even when reorg notices landed while the lock was released, a section is committed exactly if it was processed and the stored count still equals the captured section |
| `Indexer.NoticeKeepsInv` | blockchain/chain_indexer.go:191-230 | a notice at any moment keeps the section heads right for the worker that is under way |
| `Indexer.KnownIff` | blockchain/chain_indexer.go:217-229 | a notice makes exactly those sections known that have the required confirmations on top, and wakes the loop exactly if one is new |
| `Indexer.RevertOutcome` | blockchain/chain_indexer.go:196-205 | a reorganisation leaves known and stored exactly the sections that end below it, with the heads they had |
| `Indexer.RevertCascades` | blockchain/chain_indexer.go:206-216 | the children are told the end of the whole sections below the reorganisation, exactly if it is below what they were told |
| `Indexer.BeginOutcome` | blockchain/chain_indexer.go:246-265 | the loop takes the first section that is not stored, exactly if it was woken and that section is known |
| `Indexer.EndOutcome` | blockchain/chain_indexer.go:270-301 | a committed section is the last stored one, its head and its end are recorded and announced; a failed one is not tried before the next notice; the loop goes on exactly if a known section is left |
| `Indexer.ConfirmedInEveryRun` | blockchain/chain_indexer.go:217-265 | in every run a section is known, worked on or stored only after a notice of a head with the required confirmations on top of it |
| `Indexer.CascadesInEveryRun` | blockchain/chain_indexer.go:206-285 | in every run what the children were told last is not above the stored sections |
| `Indexer.ProcessDescends` | blockchain/chain_indexer.go:310-335 | a section that was processed ends in a hash-linked descendant of the given head, one section long, with the section's last number |
| `Indexer.ProcessIff` | blockchain/chain_indexer.go:310-335 | a section is processed exactly if each of its headers is there, has its number and links to the one before, and the backend commits; the result is the last of them |
| `Indexer.NextKeepsInv` | blockchain/chain_indexer.go:234-306 | every step keeps heads exactly for the stored sections, each linked to the one before |
| `Indexer.HeadsInEveryRun` | blockchain/chain_indexer.go:191-382 | in every run section heads exist exactly for 0..stored-1, and a later one descends from an earlier one by whole sections |
| `Indexer.CommitsIffNotUndone` | blockchain/chain_indexer.go:199-207 | whatever notices land while a section is processed, it is committed exactly if it was processed and no reorg notice was about a section below it |
| `Indexer.SectionCanonicalIff` | blockchain/chain_indexer.go:310-335 | all headers of a processed section are canonical, and it stands on a canonical one, exactly if its last header is canonical |
| `Indexer.IndexCanonicalIff` | blockchain/chain_indexer.go:337-345 | all section heads are canonical exactly if the last one is, so the head that Sections reports settles it |
| `Indexer.StaleSectionCommitted` | blockchain/chain_indexer.go:199-207 | for every section size above one, number of confirmations and fork below the last header of the section, a run in which the section is read on the old branch, the notice carries the number of the last common header of both branches, and the section committed after it is not the canonical one |
| `Indexer.ShrinkKeepsValid` | blockchain/chain_indexer.go:370-382 | shrinking the stored count removes exactly the heads above it |
| `Indexer.ChainIndexer.SetValidSections` | blockchain/chain_indexer.go:370-382 | stores the count and removes the heads above it one by one |
| `Indexer.ChainIndexer.NewHead` | blockchain/chain_indexer.go:191-230 | without a reorg exactly the sections with the required confirmations on top become known, after one exactly those that end below it stay stored; the heads stay valid |
| `Indexer.ChainIndexer.StartUpdate` | blockchain/chain_indexer.go:246-265 | captures the stored count and the head before it |
| `Indexer.ChainIndexer.FinishUpdate` | blockchain/chain_indexer.go:270-301 | commits, or drops the section and waits for the next notice; wakes the loop again if sections are left |
| `Indexer.ChainIndexer.ProcessSection` | blockchain/chain_indexer.go:310-335 | returns the last hash exactly if the headers are there, numbered and linked and the backend commits, and it descends from the given one by a section |
| `StateModel.RevertRestoresReads` | blockchain/state/statedb.go:504-537 | after any interleaving of writes, creations, suicides, refunds, logs, preimages and nested snapshots and reverts, reverting succeeds exactly when nothing reverted to this snapshot or an earlier one, and then every read, the journal and the revisions are as they were |
| `StateModel.OnlyInvalidRevertsPanic` | blockchain/state/statedb.go:512-526 | in every history a panic comes from an invalid revision id only; no undo meets a missing account or an empty log |
| `StateModel.HistoryInvariant` | blockchain/state/statedb.go:504-537 | at every point of a history the snapshot can be restored until it is reverted away, and ids are never reused |
| `StateModel.SameReadsMeaning` | blockchain/state/statedb.go:171-262 | states that read the same agree on Exist, GetState, HasSuicided, refund, logs, log count and preimages |
| `StateModel.SetLiveInverts` | blockchain/state/state_object.go:189-206 | undoing a storage write restores the reads |
| `StateModel.CreateInverts` | blockchain/state/statedb.go:419-440 | undoing a creation restores the reads, whether or not it replaced an account |
| `StateModel.SuicideInverts` | blockchain/state/statedb.go:324-341 | undoing a suicide restores the reads |
| `StateModel.AddLogInverts` | blockchain/state/journal.go:104-112 | undoing a log restores the list, the count, and removes an emptied list |
| `StateModel.AddPreimageInverts` | blockchain/state/journal.go:114-116 | undoing a preimage forgets exactly the one that was new |
| `StateModel.AddRefundInverts` | blockchain/state/journal.go:100-102 | undoing a refund restores the counter |
| `StateModel.ReadStateContinues` | blockchain/state/state_object.go:164-186 | a read that fills the caches changes nothing that can be read or undone |
| `StateModel.RevertOutcome` | blockchain/state/statedb.go:512-537 | reverting panics exactly for an id that is not on the stack, and otherwise keeps the state well formed |
| `StateModel.SetStateReads` | blockchain/state/statedb.go:312-317 | after SetState the account exists and has the value; its other values, every other account and every record read as before, and the account is marked dirty |
| `StateModel.GetOrNewReads` | blockchain/state/statedb.go:401-409 | after GetOrNewStateObject the account exists and everything reads as before |
| `StateModel.CreateReads` | blockchain/state/statedb.go:419-430 | a created account is empty and not suicided, whatever was there before; all else reads as before |
| `StateModel.SuicideReads` | blockchain/state/statedb.go:324-339 | an account is marked exactly if it existed; its values and all else read as before |
| `StateModel.AddRefundReads` | blockchain/state/statedb.go:164-167 | the refund grows by the gas and nothing else is read differently |
| `StateModel.AddLogReads` | blockchain/state/statedb.go:126-135 | the log becomes the last one of the current transaction with its position in the block, and nothing else is read differently |
| `StateModel.PreparedLogReads` | blockchain/state/statedb.go:574-578 | Prepare changes no read, and a log added after it carries its hashes and index |
| `StateModel.OnlyPrepareMoves` | blockchain/state/statedb.go:574-578 | only Prepare moves the position that logs are filed under; reverting does not take it back |
| `StateModel.AddPreimageReads` | blockchain/state/statedb.go:150-158 | the first preimage of a hash is kept and no other changes |
| `StateDirty.ChangedIsMarked` | blockchain/state/statedb.go:413-440 | in every history from a new state database, through any nesting of snapshots and reverts, an object with uncommitted storage or the suicided flag is in the set of objects to be committed, and this set names live objects only |
| `StateDirty.ExecMarks` | blockchain/state/statedb.go:126-537 | every operation keeps this, reverts included |
| `StateDirty.UndoMarks` | blockchain/state/journal.go:68-116 | undoing any entry keeps it: an account whose creation is undone is forgotten in both places, and an object that a reset gives back is marked if it was changed |
| `StateDb.StateDB.SetStateObject` | blockchain/state/statedb.go:396-399 | puts the object in place of the one at its address |
| `StateDb.StateDB.GetStateObject` | blockchain/state/statedb.go:370-394 | a live cached object, none for a deleted one, or the one loaded from the trie |
| `StateDb.StateDB.GetOrNewStateObject` | blockchain/state/statedb.go:401-407 | the object or a new one, with the journal entry of the creation |
| `StateDb.StateDB.CreateObject` | blockchain/state/statedb.go:419-440 | journals a creation or the replaced object itself |
| `StateDb.StateDB.ReplaceObject` | blockchain/state/statedb.go:419-440 | the replaced object is kept by reference in the journal and not copied |
| `StateDb.StateDB.SetState` | blockchain/state/statedb.go:312-317 | takes the step of the model on the heap of objects |
| `StateDb.StateDB.SetObjectState` | blockchain/state/state_object.go:189-196 | journals the previous value and writes one object |
| `StateDb.StateDB.GetState` | blockchain/state/statedb.go:228-237 | returns what the model reads and fills the cache as the model does |
| `StateDb.StateDB.ReadObject` | blockchain/state/state_object.go:164-186 | cached value, or the trie value which is then cached if it is not zero |
| `StateDb.StateDB.WriteObject` | blockchain/state/state_object.go:198-206 | writes cached and dirty storage of one object and of no other |
| `StateDb.StateDB.Suicide` | blockchain/state/statedb.go:324-341 | false without an account, otherwise journalled and marked |
| `StateDb.StateDB.MarkSuicided` | blockchain/state/state_object.go:130-136 | marks one object and no other |
| `StateDb.StateDB.AddRefund` | blockchain/state/statedb.go:164-167 | journals the old refund |
| `StateDb.StateDB.AddLog` | blockchain/state/statedb.go:126-135 | journals the hash, numbers the log and appends it |
| `StateDb.StateDB.AddPreimage` | blockchain/state/statedb.go:150-157 | journals and stores a preimage that is new |
| `StateDb.StateDB.Snapshot` | blockchain/state/statedb.go:504-509 | returns a new id and pushes the journal length |
| `StateDb.StateDB.UndoChange` | blockchain/state/journal.go:68-116 | takes the undo step of the model for each kind of entry |
| `StateDb.StateDB.UndoJournal` | blockchain/state/statedb.go:529-533 | undoes the journal from the end down to the snapshot |
| `StateDb.StateDB.RevertToSnapshot` | blockchain/state/statedb.go:512-537 | false exactly where the code panics, otherwise the state of the model's revert |
| `Compress.HeaderNotZero` | common/bitutil/compress.go:71-97 | the header bitset of data that is not all zero is never all zero |
| `Compress.DecodeEncode` | common/bitutil/compress.go:115-170 | decoding an encoding with the original length returns the original bytes |
| `Compress.DecompressCompress` | common/bitutil/compress.go:60-112 | decompressing after compressing gives the input back, the stored-raw case included; compressing gives the shorter of input and encoding |
| `Compress.EncodeDecode` | common/bitutil/compress.go:115-170 | whenever decoding succeeds, re-encoding gives exactly the input |
| `Compress.DecodeAcceptsExactlyEncodings` | common/bitutil/compress.go:115-124 | decoding succeeds exactly on the encodings of byte strings of the target length |
| `Compress.CompressDecompress` | common/bitutil/compress.go:60-112 | compressing what was decompressed gives the input back exactly if it was shorter than the target or cannot be shortened |
| `Compress.RawZerosAreNotCanonical` | common/bitutil/compress.go:102-112 | raw zeros decompress but are not what compressing yields |
| `Compress.DecompressOutcome` | common/bitutil/compress.go:102-112 | a result is the input itself if that has the target length, or else what the input is the encoding of; a longer input is refused as exceeding the target |
| `Compress.EncodeFormat` | common/bitutil/compress.go:71-97 | the format: nothing for zeros, a single byte as itself, else the encoding of the bitset of the non-zero bytes followed by these bytes in order |
| `Compress.DistributeFails` | common/bitutil/compress.go:152-169 | which error, exactly: at the first set header bit whose byte is missing, lies behind the target or is zero, in this order |
| `Compress.UnreferencedIff` | common/bitutil/compress.go:115-124 | data is reported as unreferenced exactly if there is some and the target is empty, the first byte is zero or the data begins with the encoding of an input of that length and goes on |
| `Compress.PartialRoundTrip` | common/bitutil/compress.go:130-170 | partial decoding consumes exactly the encoding and leaves what follows |
| `Compress.PartialCanonical` | common/bitutil/compress.go:130-170 | what partial decoding consumed is the encoding of what it returned |
| `Compress.EncodeBytes` | common/bitutil/compress.go:71-97 | the loop with its header array computes the encoding |
| `Compress.Gather` | common/bitutil/compress.go:83-92 | header bits and bytes of exactly the non-zero bytes, in order |
| `Compress.DecodePartialBytes` | common/bitutil/compress.go:130-170 | the loop that distributes bytes computes the partial decoding, errors included |
| `Compress.DistributeBytes` | common/bitutil/compress.go:152-169 | the loop over the header bits fills the array in place as the distribution on values does, each error included |
| `Bitutil.FastANDBytes` | common/bitutil/bitutil.go:73-91 | word by word equals byte by byte, also when the destination is an operand; the bytes behind are untouched |
| `Bitutil.SafeANDBytes` | common/bitutil/bitutil.go:95-104 | the same result one byte at a time |
| `Bitutil.FastORBytes` | common/bitutil/bitutil.go:117-135 | word by word equals byte by byte, also when the destination is an operand |
| `Bitutil.SafeORBytes` | common/bitutil/bitutil.go:139-148 | the same result one byte at a time |
| `Bitutil.FastTestBytes` | common/bitutil/bitutil.go:160-177 | true exactly if some byte is not zero |
| `Bitutil.SafeTestBytes` | common/bitutil/bitutil.go:181-188 | true exactly if some byte is not zero |
| `Bloom.CalcIndex` | blockchain/bloombits/matcher.go:37-45 | the matcher's index of a key is the index bloom9 sets |
| `Bloom.Bloom9Bits` | blockchain/types/bloom9.go:115-127 | the bits of a key are the low eleven bits of the first three byte pairs of its digest |
| `Bloom.ComputeBloom9` | blockchain/types/bloom9.go:115-127 | the three bits of a key and no other |
| `Bloom.LookupIffBits` | blockchain/types/bloom9.go:131-136 | a lookup succeeds exactly when the three bits the matcher asks for are set |
| `Bloom.BytesRoundTrip` | blockchain/types/bloom9.go:52-69 | writing a number as bytes without leading zeros and reading it back gives the number |
| `Bloom.AddSetsThreeBits` | blockchain/types/bloom9.go:52-64 | although SetBytes leaves leading bytes as they were, Add sets exactly the three bits |
| `Bloom.NoFalseNegatives` | blockchain/types/bloom9.go:59-77 | an added key is found and no key is lost by adding another |
| `Bloom.LogsBloom` | blockchain/types/bloom9.go:103-113 | a bit is set exactly if the address or a topic of some log has it |
| `Bloom.LoggedKeysAreFound` | blockchain/types/bloom9.go:103-113 | the address and every topic of every log are found in a bloom with the bits of the logs |
| `Bloom.LoggedBits` | blockchain/types/bloom9.go:103-113 | the bits of the logs are exactly those of an address or a topic of one of them |
| `Generator.NewGenerator` | blockchain/bloombits/generator.go:39-48 | a generator is made exactly for sizes divisible by eight |
| `Generator.Generator.AddBloom` | blockchain/bloombits/generator.go:52-75 | accepts exactly the next bloom, and then bit k of vector i is bit i of bloom k for all blooms so far |
| `Generator.Generator.SetColumn` | blockchain/bloombits/generator.go:61-72 | exactly bit nextBit of the vectors whose bloom bit is set changes |
| `Generator.Generator.SetBytes` | blockchain/bloombits/generator.go:65-72 | the loop over the bits of a bloom masks one byte of exactly the vectors whose bit is set |
| `Generator.Generator.Bitset` | blockchain/bloombits/generator.go:79-87 | a vector is returned exactly when all blooms were added and the index is below the section count, and it is the rotation of the blooms; the error says which of the two failed |
| `Generator.RotationIsInjective` | blockchain/bloombits/generator.go:52-75 | the vectors determine the blooms |
| `Scan.ScanIsSound` | blockchain/bloombits/matcher.go:186-201 | whatever the first block is, only set blocks are emitted |
| `Scan.ScanIsComplete` | blockchain/bloombits/matcher.go:186-201 | from an aligned block no set block is passed over |
| `Scan.ScanAscends` | blockchain/bloombits/matcher.go:186-201 | block numbers come in strictly ascending order |
| `Scan.CompleteIff` | blockchain/bloombits/matcher.go:186-201 | the byte skip is exact for every vector if and only if the first block begins a byte or the range ends within its byte |
| `Scan.UnalignedMisses` | blockchain/bloombits/matcher.go:189-191 | the block that is lost otherwise |
| `Scan.ScanLoop` | blockchain/bloombits/matcher.go:186-201 | the loop on the bytes emits what the scan of the bits does |
| `Scan.ScanRound` | blockchain/bloombits/matcher.go:186-201 | one round skips a zero byte or tests one block, and what is sent and still to be sent stays the same |
| `Filters.NewMatcher` | blockchain/bloombits/matcher.go:98-115 | empty filters and filters with a nil clause are dropped, the others become their indexes |
| `Filters.KeepMeansFilters` | blockchain/bloombits/matcher.go:98-115 | the kept rules hold of a bloom exactly if every filter is empty, has a nil clause or a clause found by direct lookup |
| `Filters.SubMatch` | blockchain/bloombits/matcher.go:317-363 | the loop over the clauses computes the filtered bitset |
| `Filters.FilteredBits` | blockchain/bloombits/matcher.go:317-363 | a block stays set exactly when some clause of the rule has its three bits set |
| `Filters.OrClauses` | blockchain/bloombits/matcher.go:326-353 | And of three vectors and Or of the clauses in place, for any number of clauses |
| `Filters.RunSection` | blockchain/bloombits/matcher.go:224-245 | what comes out has exactly the blocks set that every rule hits, and nothing comes out exactly when there is a rule and no block is hit |
| `Filters.ThroughBits` | blockchain/bloombits/matcher.go:250-367 | the same from any rule on and for any bitset |
| `Matcher.FindMatches` | blockchain/bloombits/matcher.go:170-238 | over all sections of the range: ascending, only hits, and all hits if the range is exact |
| `Matcher.SessionExactIff` | blockchain/bloombits/matcher.go:170-201 | sessions on a range miss nothing, whatever the index and the rules, if and only if the range begins with a byte, ends within the byte it begins in, or that byte ends a section |
| `Matcher.HitIsBloomTest` | blockchain/bloombits/matcher.go:326-363 | a block is hit exactly when its bloom passes every filter by direct lookup |
| `Matcher.GeneratorIndexes` | blockchain/bloombits/generator.go:52-87 | the generator's vectors are what the matcher needs |
| `Matcher.Match` | blockchain/bloombits/matcher.go:140-245 | for any blooms, filters and section sizes divisible by eight the sequential session emits, strictly ascending, blocks of the range whose bloom passes all filters, and all of them if the range is exact |
| `Pipeline.CollectKeeps` | blockchain/bloombits/matcher.go:317-353 | the vector a sub-matcher takes from a stream is that of the section it gathers, and merging it keeps the partial And and Or right |
| `Pipeline.MadeIs` | blockchain/bloombits/matcher.go:355-363 | a section with all its vectors is sent on as the rule filters it, or dropped if nothing is left |
| `PipelineOrder.FinishKeepsRest` | blockchain/bloombits/matcher.go:355-363 | sending a section on or dropping it does not change what is still to come nor its order |
| `PipelineRuns.NextKeepsInv` | blockchain/bloombits/matcher.go:159-367 | every step of every goroutine keeps: what was sent, what is being sent and what is still to come are together the result of the sequential session |
| `PipelineRuns.StuckIsWhole` | blockchain/bloombits/matcher.go:159-367 | with channels of any positive capacity the goroutines never wait for one another in a circle: when each of them waits everything has come out |
| `PipelineRuns.StepLowersMeasure` | blockchain/bloombits/matcher.go:159-367 | every step lowers the number of blocks and of steps still to come |
| `PipelineRuns.EndsInEveryRun` | blockchain/bloombits/matcher.go:159-367 | no interleaving goes on for ever: a run has at most as many steps as blocks are to be sent and as the sections of the range can take on their way |
| `PipelineRuns.PrefixInEveryRun` | blockchain/bloombits/matcher.go:140-367 | in every interleaving what has come out is a prefix of the result of the sequential session, and all of it once every goroutine waits, with channels of any positive capacity |
| `PipelineRuns.MatchesInEveryRun` | blockchain/bloombits/matcher.go:140-367 | in every interleaving the numbers that come out are strictly ascending blocks of the range whose bloom passes all filters, and once every goroutine waits all of them if the range is exact, with channels of any positive capacity |
| `RetrievalRuns.ExactlyOnePlace` | blockchain/bloombits/matcher.go:372-498 | in every run a requested vector that is not cached is at exactly one place: to be sent, in the channel, queued or in flight; any other is at none |
| `RetrievalRuns.QueuesAreHeld` | blockchain/bloombits/matcher.go:385-491 | in every run until quit a queue is sorted, and empty or its bit is noted or held by exactly one fetcher, never both |
| `RetrievalRuns.GivingUpUnholds` | blockchain/bloombits/matcher.go:557-572 | a fetcher that gives up leaves a queue with requests that nobody holds |
| `RetrievalRuns.HeldNextIff` | blockchain/bloombits/matcher.go:399-491 | before quit and after it, a step leaves every queue held exactly if it is not a fetcher giving up |
| `RetrievalRuns.HeldIff` | blockchain/bloombits/matcher.go:399-572 | after a run all queues are held exactly if no fetcher gave up in it; an abandoned queue is never taken up again |
| `RetrievalRuns.QueueCanBeAbandoned` | blockchain/bloombits/matcher.go:557-572 | for every bit and section a run from the start ends with the queue abandoned |
| `RetrievalRuns.GracefulShutdown` | blockchain/bloombits/matcher.go:401-406 | in every run allocs is the number of fetchers out, and a graceful return leaves none |
| `RetrievalRuns.ReturnsInTime` | blockchain/bloombits/matcher.go:401-406 | in every run the distributor returns when it sees the quit without a fetcher out, or else with the last delivery; it never waits without a fetcher that has to deliver |
| `RetrievalRuns.NoDeadlock` | blockchain/bloombits/matcher.go:399-497 | in every run before the quit, while a requested vector is not cached some stream can send or the distributor can take a request, a fetcher, a task or a delivery |
| `RetrievalRuns.StillIsDelivered` | blockchain/bloombits/scheduler.go:87-168 | in every run before the quit in which nothing is possible any more but to ask for sections, every stream has delivered all it was asked for |
| `RetrievalRuns.AnnouncesWhatWasFed` | blockchain/bloombits/scheduler.go:87-131 | in every run a stream announces exactly the sections it was fed, in their order |
| `RetrievalRuns.TaskTakesLowest` | blockchain/bloombits/matcher.go:443-458 | a task gets the lowest requests of its bit, as many as it wants and there are, and the rest stays queued |
| `RetrievalRuns.SentAndClosedOnce` | blockchain/bloombits/scheduler.go:87-181 | in every run a request is sent at most once, and a done channel is closed at most once and exactly when the vector is cached |
| `RetrievalRuns.DeliversInOrder` | blockchain/bloombits/scheduler.go:134-168 | in every run each stream delivers the cached vectors of its sections in the order it was asked |
| `RetrievalRuns.StreamsTheIndex` | blockchain/bloombits/scheduler.go:134-181 | if the fetchers deliver vectors of the index or none, in every run each stream delivers the vectors of the index for its sections in the order it was asked |
| `RetrievalRuns.CachedForever` | blockchain/bloombits/scheduler.go:171-181 | a cached vector is never changed |
| `RetrievalRuns.NextKeepsInv` | blockchain/bloombits/matcher.go:399-497 | every step of streams, distributor and fetchers keeps all of this |
| `RetrievalDelivery.DeliverOutcome` | blockchain/bloombits/scheduler.go:171-181 | a delivery caches exactly the vectors that came back and touches no other response |
| `RetrievalDelivery.MissingSorted` | blockchain/bloombits/matcher.go:463-475 | the sections put back are exactly those that came back empty, sorted |
| `Retrieval.InsertSorted` | blockchain/bloombits/matcher.go:414-416 | inserting at the searched index keeps a queue sorted |
| `Distributor.RequestFiled` | blockchain/bloombits/matcher.go:412-421 | a request is added to the queue of its bit, and the bit goes to a waiting fetcher or is noted exactly if it was without requests |
| `Distributor.DeliveryFiled` | blockchain/bloombits/matcher.go:460-491 | a delivery ends one fetch and files what is missing again in the same way |
| `Distributor.FoundOrMissing` | blockchain/bloombits/matcher.go:463-475 | nothing of a delivery gets lost: each section is handed on or missing |
| `Distributor.MissingIff` | blockchain/bloombits/matcher.go:463-475 | for any sections in any order, one is missing exactly if it came back with an empty vector |
| `Distributor.FoundCameBack` | blockchain/bloombits/matcher.go:463-475 | what is handed on came back with that vector, which is not empty |
| `Distributor.Distributor.Assign` | blockchain/bloombits/matcher.go:385-397 | gives the bit to a waiting fetcher or notes it and listens |
| `Distributor.Distributor.SearchSections` | blockchain/bloombits/matcher.go:415 | the binary search returns the first entry that is not below |
| `Distributor.Distributor.OnRequest` | blockchain/bloombits/matcher.go:412-421 | adds the section to the ordered queue of its bit, and gives the bit out or notes it exactly if it was without requests |
| `Distributor.Distributor.PickBit` | blockchain/bloombits/matcher.go:424-430 | for any iteration order the noted bit with the lowest first section |
| `Distributor.Distributor.OnRetriever` | blockchain/bloombits/matcher.go:423-437 | hands that bit out and stops listening when none is left |
| `Distributor.Distributor.OnTask` | blockchain/bloombits/matcher.go:443-458 | what is handed out followed by what is left is the queue as it was; as many as wanted and there are, and the bit is given out again exactly if some are left |
| `Distributor.Distributor.OnDelivery` | blockchain/bloombits/matcher.go:460-491 | for any sections in any order: splits off what was found, puts missing sections back in order, reassigns a bit that was without requests, and counts the fetcher out |
| `Distributor.FoundDelivers` | blockchain/bloombits/matcher.go:468-476 | handing the found part to the scheduler caches what the whole delivery would |
| `Distributor.Scheduler.Schedule` | blockchain/bloombits/scheduler.go:103-113 | a section is new exactly once |
| `Distributor.Scheduler.Deliver` | blockchain/bloombits/scheduler.go:171-181 | the first vector for a waiting section is kept, later ones and unasked ones are ignored |
| `Distributor.Scheduler.Reset` | blockchain/bloombits/scheduler.go:73-82 | keeps exactly the cached vectors |
| `Gossip.BroadcastEnds` | synctrl/handlemessage.go:122-230 | in every order of delivery the number of handled messages is what the measure of unspent credits times degree plus messages in flight has fallen by |
| `Gossip.BroadcastBound` | synctrl/handlemessage.go:122-230 | at most the first copies plus three per link |
| `Gossip.HandleLowersMeasure` | synctrl/handlemessage.go:122-148 | every handled message lowers the measure by exactly one |
| `Gossip.PostedOnceRelayedThrice` | synctrl/handlemessage.go:122-148 | at every moment of every run a node posted the message at most once and relayed it one to three times exactly if it posted it |
| `Gossip.PostedAtTheEnd` | synctrl/routdata.go:68-102 | in every order of delivery, when no copy is under way, the nodes that posted the message are exactly those reachable from the first receivers |
| `Gossip.Handler.HandleMsg` | synctrl/handlemessage.go:122-148 | posts a new message once, relays while credit is left and spends one credit per relay |
| `BigMath.Exp` | common/math/big.go:199-212 | base to the exponent modulo 2^256 for all naturals, every intermediate value below 2^256, and the exact value the base is left with |
| `BigMath.ExpWord` | common/math/big.go:203-209 | one word of 64 bits multiplies in exactly its bits, low ones first |
| `BigMath.ExpBit` | common/math/big.go:204-208 | one bit multiplies its weight in exactly if it is set, and squares the base |
| `BigMath.BasePreservedIff` | common/math/big.go:194-212 | the base is unchanged exactly if the exponent is zero or the base is 0 or 1 |
| `BigMath.EvenBaseIsLost` | common/math/big.go:194-212 | an even base is 0 afterwards for any exponent that is not zero |

## Left out

- Consensus engine (`VerifyProof`, `GenerateProof`, `Finalize`, `VerifyState`), cryptography, RLP, tries and LevelDB are foreign or uninterpreted here.
- Wrap-around of block numbers, sections and confirmation counts at 2^64; all are unbounded.
- LRU eviction in the handler and known-transaction caches, and the caches of the header and block chain.
- `InsertHeaderChain`, `ValidateHeaderChain`, `InsertChain`, `Rollback` and fast sync; the writers they call are modelled.
- `StateDB.Copy`, `CommitTo`, `Finalise`, `DeleteSuicides`, and `touch`, which nothing calls; which objects they look at is modelled, what they write is not.
- Child indexers: the heads cascaded to them are recorded, not consumed.
- Several matcher sessions on one matcher, the task counter of `PendingSections`, and deliveries of a killed session that arrive in the next one.
- `dealProofEvent`, `queryRemoteState` and the peer proof states, apart from the confirmation pool.
- `FitOnChain`, `JustPending`, transaction forwarding, and the eviction of old on-chain entries.
- `XORBytes`, `ReadBits`, `PaddedBigBytes`, `S256` and the other small helpers of bitutil and math, which would only add easy members.
- Stopping and restarting the miner, the tx pool and the network layer; keystore, RPC, console and configuration.
- Distributor.Scheduler.Deliver: states the effect on the responses of one bit; the closing of done channels is stated by RetrievalRuns.SentAndClosedOnce.
