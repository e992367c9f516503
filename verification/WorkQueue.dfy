/** WorkPending of worker/work_pending.go as an object: the queue of sealed blocks and one wake-up of its
    writer loop, run without interference. Mining takes the same operations apart into steps, and MiningSequence
    proves that these steps in a row do the same. */
module WorkQueue {
  import opened Common
  import opened Chain
  import opened BlockStore
  import opened Mining

  /** A call of WorkEnded. */
  datatype Report = Report(work: Work, succeed: bool)

  /** What a wake-up leaves behind. */
  datatype Pass = Pass(chain: Blocks, pending: seq<Work>, errored: bool, reports: seq<Report>)

  /** The write loop. `faults` holds what happens in each write that fits into the time of the wake-up. */
  function WriteLoop(c: Blocks, pending: seq<Work>, faults: seq<Fault>, reports: seq<Report>): (r: Pass)
    requires Ordered(c)
    ensures Ordered(r.chain)
    decreases |pending|
  {
    if pending == [] || faults == [] then Pass(c, pending, false, reports)
    else
      var w := pending[0];
      var d := WriteBlock(c, w.block, faults[0]);
      WriteBlockOutcome(c, w.block, faults[0]);
      if d.err then Pass(d.db, pending[1..], true, reports + [Report(w, false)])
      else WriteLoop(d.db, pending[1..], faults[1..], reports + [Report(w, true)])
  }

  /** How many of the queued blocks can be written before the time is up or a fault strikes. */
  function Good(pending: seq<Work>, faults: seq<Fault>): (n: nat)
    ensures n <= |pending| && n <= |faults|
    decreases |pending|
  {
    if pending == [] || faults == [] || faults[0] != NoFault then 0 else 1 + Good(pending[1..], faults[1..])
  }

  /** The first `k` works were reported in order, all as written but the last one if it failed. */
  predicate Reported(before: seq<Report>, works: seq<Work>, k: nat, failed: bool, reports: seq<Report>) {
    && k <= |works| && |reports| == |before| + k && (failed ==> k > 0)
    && (forall i :: 0 <= i < |before| ==> reports[i] == before[i])
    && (forall i :: 0 <= i < k ==> reports[|before| + i] == Report(works[i], !failed || i < k - 1))
  }

  lemma OneMoreReported(before: seq<Report>, works: seq<Work>, k: nat, failed: bool, reports: seq<Report>)
    requires works != [] && Reported(before + [Report(works[0], true)], works[1..], k, failed, reports)
    ensures Reported(before, works, k + 1, failed, reports)
  {
    forall i | 0 <= i < k + 1 ensures reports[|before| + i] == Report(works[i], !failed || i < k) {
      if i > 0 { assert reports[|before| + 1 + (i - 1)] == Report(works[1..][i - 1], !failed || i - 1 < k - 1); }
    }
  }

  function BlocksOf(works: seq<Work>): set<Header> {
    set w | w in works :: w.block
  }

  /** The longest prefix the faults allow was written: the head is the last of it, exactly its blocks were
      stored, the rest stays queued in order, and the first block that failed left the queue in error mode
      with the rest behind it. Success was reported for the prefix, failure for that block. */
  predicate PrefixWritten(c: Blocks, pending: seq<Work>, faults: seq<Fault>, reports: seq<Report>, r: Pass) {
    var n := Good(pending, faults);
    && r.chain.currentBlock == (if n == 0 then c.currentBlock else pending[n - 1].block)
    && r.chain.stored == c.stored + BlocksOf(pending[..n])
    && (r.errored <==> n < |pending| && n < |faults|)
    && r.pending == pending[if r.errored then n + 1 else n..]
    && Reported(reports, pending, if r.errored then n + 1 else n, r.errored, r.reports)
  }

  /** A wake-up does this for every queue that continues the chain. */
  lemma {:induction false} LinkedQueueIsWritten(c: Blocks, pending: seq<Work>, faults: seq<Fault>, reports: seq<Report>)
    requires Ordered(c) && QueueLinked(pending) && (pending != [] ==> pending[0].block.parent == Of(c.currentBlock))
    ensures PrefixWritten(c, pending, faults, reports, WriteLoop(c, pending, faults, reports))
    decreases |pending|
  {
    if pending == [] || faults == [] {
      assert BlocksOf(pending[..0]) == {};
    } else {
      LinkedWrite(c, pending[0].block, faults[0]);
      if faults[0] != NoFault {
        assert BlocksOf(pending[..0]) == {};
      } else {
        var d := WriteBlock(c, pending[0].block, NoFault).db;
        var r := WriteLoop(c, pending, faults, reports);
        TailLinked(pending);
        LinkedQueueIsWritten(d, pending[1..], faults[1..], reports + [Report(pending[0], true)]);
        OneMoreWritten(c, d, pending, faults, reports, r);
      }
    }
  }

  lemma OneMoreWritten(c: Blocks, d: Blocks, pending: seq<Work>, faults: seq<Fault>, reports: seq<Report>, r: Pass)
    requires pending != [] && faults != [] && faults[0] == NoFault
    requires d.currentBlock == pending[0].block && d.stored == c.stored + {pending[0].block}
    requires PrefixWritten(d, pending[1..], faults[1..], reports + [Report(pending[0], true)], r)
    ensures PrefixWritten(c, pending, faults, reports, r)
  {
    FirstOfPrefix(pending, Good(pending, faults));
    var n := Good(pending[1..], faults[1..]);
    OneMoreReported(reports, pending, if r.errored then n + 1 else n, r.errored, r.reports);
  }

  lemma LinkedWrite(c: Blocks, b: Header, fault: Fault)
    requires Ordered(c) && Made(b) && b.parent == Of(c.currentBlock)
    ensures var r := WriteBlock(c, b, fault);
            && Ordered(r.db)
            && (r.err <==> fault != NoFault)
            && (if r.err then r.db.currentBlock == c.currentBlock && r.db.stored == c.stored
                else r.db.currentBlock == b && r.db.stored == c.stored + {b})
  {
    WriteBlockOutcome(c, b, fault);
  }

  lemma FirstOfPrefix(pending: seq<Work>, n: nat)
    requires 0 < n <= |pending|
    ensures BlocksOf(pending[..n]) == {pending[0].block} + BlocksOf(pending[1..][..n - 1])
  {
    assert pending[..n] == [pending[0]] + pending[1..][..n - 1];
    assert forall w :: w in pending[..n] <==> w == pending[0] || w in pending[1..][..n - 1];
  }

  /** The works that left the queue were reported in order, each as written but the last one, which failed exactly
      if the queue is now in error mode. It ends early only then. */
  predicate LeftInOrder(pending: seq<Work>, faults: seq<Fault>, reports: seq<Report>, r: Pass) {
    var k := |pending| - |r.pending|;
    && 0 <= k && r.pending == pending[k..] && Reported(reports, pending, k, r.errored, r.reports)
    && (!r.errored ==> k == |pending| || k == |faults|)
  }

  lemma FailsFirst(c: Blocks, pending: seq<Work>, faults: seq<Fault>, reports: seq<Report>)
    requires pending != []
    ensures LeftInOrder(pending, faults, reports, Pass(c, pending[1..], true, reports + [Report(pending[0], false)]))
  {
  }

  lemma OneMoreLeft(pending: seq<Work>, faults: seq<Fault>, reports: seq<Report>, r: Pass)
    requires pending != [] && faults != [] && LeftInOrder(pending[1..], faults[1..], reports + [Report(pending[0], true)], r)
    ensures LeftInOrder(pending, faults, reports, r)
  {
    var k := |pending[1..]| - |r.pending|;
    OneMoreReported(reports, pending, k, r.errored, r.reports);
    assert pending[1..][k..] == pending[k + 1..];
  }

  /** So it is for every queue, linked or not. */
  lemma {:induction false} WriteLoopReports(c: Blocks, pending: seq<Work>, faults: seq<Fault>, reports: seq<Report>)
    requires Ordered(c)
    ensures LeftInOrder(pending, faults, reports, WriteLoop(c, pending, faults, reports))
    decreases |pending|
  {
    if pending != [] && faults != [] {
      var d := WriteBlock(c, pending[0].block, faults[0]);
      WriteBlockOutcome(c, pending[0].block, faults[0]);
      if d.err {
        FailsFirst(d.db, pending, faults, reports);
      } else {
        WriteLoopReports(d.db, pending[1..], faults[1..], reports + [Report(pending[0], true)]);
        OneMoreLeft(pending, faults, reports, WriteLoop(c, pending, faults, reports));
      }
    }
  }

  function Failures(works: seq<Work>): (r: seq<Report>)
    ensures |r| == |works| && forall i :: 0 <= i < |works| ==> r[i] == Report(works[i], false)
  {
    seq(|works|, i requires 0 <= i < |works| => Report(works[i], false))
  }

  class WorkPending {
    var errored: bool
    var pending: seq<Work>
    var reports: seq<Report>

    constructor ()
      ensures !errored && pending == [] && reports == []
    {
      errored, pending, reports := false, [], [];
    }

    method Add(w: Work) returns (ok: bool)
      modifies this`pending
      ensures ok <==> !errored
      ensures pending == if ok then old(pending) + [w] else old(pending)
    {
      if errored { return false; }
      pending := pending + [w];
      return true;
    }

    method Top() returns (w: Option<Work>)
      ensures w == if !errored && pending != [] then Some(pending[|pending| - 1]) else None
    {
      if !errored && |pending| > 0 { return Some(pending[|pending| - 1]); }
      return None;
    }

    method Head() returns (w: Option<Work>)
      ensures w == if !errored && pending != [] then Some(pending[0]) else None
    {
      if !errored && |pending| > 0 { return Some(pending[0]); }
      return None;
    }

    method SetNoError()
      modifies this`errored
      ensures !errored
    {
      errored := false;
    }

    /** CheckNeedStartMine of worker/worker_mine.go; `due` says when a round on that header is to start. */
    method CheckNeedStartMine(chain: BlockChain, due: Header -> bool) returns (head: Option<Header>)
      modifies this`errored
      ensures errored <==> old(errored) && pending != []
      ensures errored ==> head == None
      ensures !errored ==> var h := if pending != [] then pending[|pending| - 1].block else chain.currentHeader;
                           head == if due(h) then Some(h) else None
    {
      if errored {
        if |pending| != 0 { return None; }
        SetNoError();
      }
      var top := Top();
      var h := if top.Some? then top.value.block else chain.currentHeader;
      return if due(h) then Some(h) else None;
    }

    method Pop() returns (w: Option<Work>)
      modifies this`pending
      ensures old(pending) == [] ==> pending == [] && w == None
      ensures old(pending) != [] ==> w.Some? && old(pending) == [w.value] + pending
    {
      if |pending| == 0 { return None; }
      w := Some(pending[0]);
      pending := pending[1..];
    }

    method Ended(w: Work, succeed: bool)
      modifies this`reports
      ensures reports == old(reports) + [Report(w, succeed)]
    {
      reports := reports + [Report(w, succeed)];
    }

    /** The flush of a queue in error mode: every work is reported as failed, in order. */
    method Flush()
      modifies this`pending, this`reports
      ensures pending == [] && reports == old(reports) + Failures(old(pending))
    {
      ghost var n := 0;
      while |pending| > 0
        invariant n <= |old(pending)| && pending == old(pending)[n..]
        invariant reports == old(reports) + Failures(old(pending)[..n])
        decreases |pending|
      {
        var w := Pop();
        Ended(w.value, false);
        assert Failures(old(pending)[..n + 1]) == Failures(old(pending)[..n]) + [Report(w.value, false)];
        n := n + 1;
      }
      assert old(pending)[..n] == old(pending);
    }

    /** The write loop of a wake-up. */
    method WriteQueue(chain: BlockChain, faults: seq<Fault>)
      requires !errored && Ordered(chain.View())
      modifies this, chain
      ensures Ordered(chain.View())
      ensures Pass(chain.View(), pending, errored, reports) == WriteLoop(old(chain.View()), old(pending), faults, old(reports))
    {
      var i := 0;
      while !errored && |pending| > 0
        invariant i <= |faults| && Ordered(chain.View())
        invariant var whole := WriteLoop(old(chain.View()), old(pending), faults, old(reports));
                  whole == if errored then Pass(chain.View(), pending, true, reports) else WriteLoop(chain.View(), pending, faults[i..], reports)
        decreases if errored then 0 else 1, |pending|
      {
        if i >= |faults| { break; }
        var w := Head();
        var status, err := chain.WriteBlockAndState(w.value.block, faults[i]);
        if err { errored := true; }
        Ended(w.value, !err);
        var done := Pop();
        i := i + 1;
      }
    }

    /** One wake-up of Run. */
    method Wake(chain: BlockChain, faults: seq<Fault>)
      requires Ordered(chain.View())
      modifies this, chain
      ensures Ordered(chain.View())
      ensures old(errored) ==> errored && pending == [] && reports == old(reports) + Failures(old(pending)) && chain.View() == old(chain.View())
      ensures !old(errored) ==> Pass(chain.View(), pending, errored, reports) == WriteLoop(old(chain.View()), old(pending), faults, old(reports))
    {
      if errored {
        Flush();
      } else {
        WriteQueue(chain, faults);
      }
    }
  }
}
