/** The journal of blockchain/state as a step function on values: what each operation of a
    StateDB does, what each journal entry undoes, and the proof that RevertToSnapshot restores
    every read. The class StateDB (module StateDb) is proved to take exactly these steps. */
module StateModel {
  import opened Common

  type Address = nat
  type Hash = nat

  const ZERO: Hash := 0

  /** A state object. `committed` is the content of its storage trie; `armed` says that the
      onDirty callback has not fired yet. */
  datatype Obj = Obj(committed: map<Hash, Hash>, cached: map<Hash, Hash>, dirty: map<Hash, Hash>,
                     suicided: bool, deleted: bool, armed: bool)

  datatype Log = Log(data: seq<bv8>, txHash: Hash, blockHash: Hash, txIndex: int, index: int)

  datatype Entry =
    | CreateObject(account: Address)
    | ResetObject(account: Address, prev: Obj)
    | SuicideChange(account: Address, was: bool)
    | StorageChange(account: Address, key: Hash, prevalue: Hash)
    | RefundChange(refund: int)
    | AddLogChange(txhash: Hash)
    | AddPreimageChange(hash: Hash)

  datatype Revision = Revision(id: nat, journalIndex: nat)

  datatype State = State(
    trie: map<Address, map<Hash, Hash>>,
    objects: map<Address, Obj>,
    dirty: set<Address>,
    refund: int,
    thash: Hash,
    bhash: Hash,
    txIndex: int,
    logs: map<Hash, seq<Log>>,
    logSize: int,
    preimages: map<Hash, seq<bv8>>,
    journal: seq<Entry>,
    revisions: seq<Revision>,
    nextRevisionId: nat)

  /** The source panics on a revision that is not valid, and would on a nil object. */
  datatype Outcome = Panic | Done(state: State)

  // ---------------------------------------------------------------- reads

  function NewObj(committed: map<Hash, Hash>): Obj {
    Obj(committed, map[], map[], false, false, true)
  }

  function ObjGet(o: Obj, key: Hash): Hash {
    if key in o.cached then o.cached[key] else if key in o.committed then o.committed[key] else ZERO
  }

  /** What getStateObject returns. */
  function Live(s: State, a: Address): Option<Obj> {
    if a in s.objects then (if s.objects[a].deleted then None else Some(s.objects[a]))
    else if a in s.trie then Some(NewObj(s.trie[a]))
    else None
  }

  predicate Exist(s: State, a: Address) {
    Live(s, a).Some?
  }

  function GetState(s: State, a: Address, key: Hash): Hash {
    if Live(s, a).Some? then ObjGet(Live(s, a).value, key) else ZERO
  }

  predicate HasSuicided(s: State, a: Address) {
    Live(s, a).Some? && Live(s, a).value.suicided
  }

  function LogsAt(logs: map<Hash, seq<Log>>, h: Hash): seq<Log> {
    if h in logs then logs[h] else []
  }

  function GetLogs(s: State, h: Hash): seq<Log> {
    LogsAt(s.logs, h)
  }

  ghost predicate SameObj(x: Option<Obj>, y: Option<Obj>) {
    && (x.Some? <==> y.Some?)
    && (x.Some? ==> (x.value.suicided <==> y.value.suicided)
                    && forall k :: ObjGet(x.value, k) == ObjGet(y.value, k))
  }

  ghost predicate SameAccounts(s: State, t: State) {
    forall a :: SameObj(Live(s, a), Live(t, a))
  }

  ghost predicate SameRecords(s: State, t: State) {
    && s.refund == t.refund
    && SameLogs(s.logs, t.logs)
    && s.logSize == t.logSize
    && s.preimages == t.preimages
  }

  ghost predicate SameLogs(l: map<Hash, seq<Log>>, m: map<Hash, seq<Log>>) {
    forall h :: LogsAt(l, h) == LogsAt(m, h)
  }

  /** Every read of the interface gives the same answer in both states (SameReadsMeaning). */
  ghost predicate SameReads(s: State, t: State) {
    s.trie == t.trie && SameAccounts(s, t) && SameRecords(s, t)
  }

  lemma SameReadsMeaning(s: State, t: State)
    ensures SameReads(s, t) <==>
            && s.trie == t.trie
            && (forall a :: Exist(s, a) <==> Exist(t, a))
            && (forall a, k :: GetState(s, a, k) == GetState(t, a, k))
            && (forall a :: HasSuicided(s, a) <==> HasSuicided(t, a))
            && s.refund == t.refund
            && (forall h :: GetLogs(s, h) == GetLogs(t, h))
            && s.logSize == t.logSize
            && s.preimages == t.preimages
  {
    if SameLogs(s.logs, t.logs) {
      forall h ensures GetLogs(s, h) == GetLogs(t, h) { assert LogsAt(s.logs, h) == LogsAt(t.logs, h); }
    }
    if forall h :: GetLogs(s, h) == GetLogs(t, h) {
      forall h ensures LogsAt(s.logs, h) == LogsAt(t.logs, h) { assert GetLogs(s, h) == GetLogs(t, h); }
    }
    if SameReads(s, t) {
      forall a ensures Exist(s, a) <==> Exist(t, a) { assert SameObj(Live(s, a), Live(t, a)); }
      forall a ensures HasSuicided(s, a) <==> HasSuicided(t, a) { assert SameObj(Live(s, a), Live(t, a)); }
      forall a, k ensures GetState(s, a, k) == GetState(t, a, k) { assert SameObj(Live(s, a), Live(t, a)); }
    }
    if && (forall a :: Exist(s, a) <==> Exist(t, a))
       && (forall a, k :: GetState(s, a, k) == GetState(t, a, k))
       && (forall a :: HasSuicided(s, a) <==> HasSuicided(t, a)) {
      forall a ensures SameObj(Live(s, a), Live(t, a)) {
        assert Exist(s, a) <==> Exist(t, a);
        assert HasSuicided(s, a) <==> HasSuicided(t, a);
        if Exist(s, a) {
          forall k ensures ObjGet(Live(s, a).value, k) == ObjGet(Live(t, a).value, k) {
            assert GetState(s, a, k) == GetState(t, a, k);
          }
        }
      }
    }
  }

  // ---------------------------------------------------------------- operations

  function Put(s: State, a: Address, o: Obj): State {
    s.(objects := s.objects[a := o])
  }

  function Append(s: State, e: Entry): State {
    s.(journal := s.journal + [e])
  }

  /** getStateObject: an object of the trie enters the live set. */
  function Load(s: State, a: Address): State {
    if a !in s.objects && a in s.trie then Put(s, a, NewObj(s.trie[a])) else s
  }

  /** createObject: setNonce is empty in the source, so nothing is marked dirty. */
  function Create(s: State, a: Address): State {
    var l := Load(s, a);
    var e := if Live(l, a).None? then CreateObject(a) else ResetObject(a, Live(l, a).value);
    Put(Append(l, e), a, NewObj(map[]))
  }

  function GetOrNew(s: State, a: Address): State {
    if Live(s, a).None? then Create(s, a) else Load(s, a)
  }

  /** stateObject.GetState: a value read from the storage trie is cached unless it is zero. */
  function CacheRead(o: Obj, key: Hash): Obj {
    if key !in o.cached && ObjGet(o, key) != ZERO then o.(cached := o.cached[key := ObjGet(o, key)]) else o
  }

  function ReadState(s: State, a: Address, key: Hash): State {
    if Live(s, a).None? then s else Put(Load(s, a), a, CacheRead(Live(s, a).value, key))
  }

  /** stateObject.setState. */
  function Write(s: State, a: Address, o: Obj, key: Hash, value: Hash): State {
    Put(s, a, o.(cached := o.cached[key := value], dirty := o.dirty[key := value], armed := false))
    .(dirty := if o.armed then s.dirty + {a} else s.dirty)
  }

  function SetState(s: State, a: Address, key: Hash, value: Hash): State {
    SetLive(GetOrNew(s, a), a, key, value)
  }

  /** stateObject.SetState on an object that is live. */
  function SetLive(s: State, a: Address, key: Hash, value: Hash): State {
    if a in s.objects then
      var o := CacheRead(s.objects[a], key);
      Write(Append(s, StorageChange(a, key, ObjGet(o, key))), a, o, key, value)
    else s
  }

  /** markSuicided. */
  function MarkSuicided(s: State, a: Address, o: Obj): State {
    Put(s, a, o.(suicided := true, armed := false)).(dirty := if o.armed then s.dirty + {a} else s.dirty)
  }

  function Suicide(s: State, a: Address): State {
    if Live(s, a).None? then s
    else
      var l, o := Load(s, a), Live(s, a).value;
      MarkSuicided(Append(l, SuicideChange(a, o.suicided)), a, o)
  }

  function AddRefund(s: State, gas: int): State {
    Append(s, RefundChange(s.refund)).(refund := s.refund + gas)
  }

  function AddLog(s: State, data: seq<bv8>): State {
    var log := Log(data, s.thash, s.bhash, s.txIndex, s.logSize);
    Append(s, AddLogChange(s.thash)).(logs := s.logs[s.thash := GetLogs(s, s.thash) + [log]], logSize := s.logSize + 1)
  }

  function AddPreimage(s: State, hash: Hash, preimage: seq<bv8>): State {
    if hash in s.preimages then s
    else Append(s, AddPreimageChange(hash)).(preimages := s.preimages[hash := preimage])
  }

  function Prepare(s: State, thash: Hash, bhash: Hash, ti: int): State {
    s.(thash := thash, bhash := bhash, txIndex := ti)
  }

  function Snapshot(s: State): State {
    s.(revisions := s.revisions + [Revision(s.nextRevisionId, |s.journal|)], nextRevisionId := s.nextRevisionId + 1)
  }

  // ---------------------------------------------------------------- what the operations write

  /** Only account `a` may read differently. */
  ghost predicate OthersSame(s: State, t: State, a: Address) {
    s.trie == t.trie && forall b :: b != a ==> SameObj(Live(s, b), Live(t, b))
  }

  /** A created account is empty, whatever was there before. */
  lemma CreateReads(s: State, a: Address, k: Hash)
    ensures var t := Create(s, a);
            && Exist(t, a) && GetState(t, a, k) == ZERO && !HasSuicided(t, a)
            && OthersSame(s, t, a) && SameRecords(s, t) && t.dirty == s.dirty
  {
  }

  /** The account exists afterwards and reads as before. */
  lemma GetOrNewReads(s: State, a: Address, k: Hash)
    ensures var t := GetOrNew(s, a);
            && a in t.objects && Live(t, a) == Some(t.objects[a]) && GetState(t, a, k) == GetState(s, a, k)
            && (HasSuicided(t, a) <==> HasSuicided(s, a))
            && OthersSame(s, t, a) && SameRecords(s, t) && t.dirty == s.dirty
            && t.objects[a].armed == (Live(s, a).None? || Live(s, a).value.armed)
  {
    if Live(s, a).None? { CreateReads(s, a, k); }
  }

  /** The account exists afterwards and has the value; its other values, every other account and every record read
      as before. */
  lemma SetStateReads(s: State, a: Address, key: Hash, value: Hash, k: Hash)
    ensures var t := SetState(s, a, key, value);
            && Exist(t, a) && GetState(t, a, k) == (if k == key then value else GetState(s, a, k))
            && (HasSuicided(t, a) <==> HasSuicided(s, a))
            && OthersSame(s, t, a) && SameRecords(s, t)
            && t.dirty == (if Live(s, a).None? || Live(s, a).value.armed then s.dirty + {a} else s.dirty)
  {
    GetOrNewReads(s, a, k);
    CacheReadReads(GetOrNew(s, a).objects[a], key);
  }

  /** An account that exists is marked, an unknown one stays unknown; its values are still read. */
  lemma SuicideReads(s: State, a: Address, k: Hash)
    ensures var t := Suicide(s, a);
            && (HasSuicided(t, a) <==> Exist(s, a)) && (Exist(t, a) <==> Exist(s, a)) && GetState(t, a, k) == GetState(s, a, k)
            && OthersSame(s, t, a) && SameRecords(s, t)
            && t.dirty == (if Exist(s, a) && Live(s, a).value.armed then s.dirty + {a} else s.dirty)
  {
  }

  lemma AddRefundReads(s: State, gas: int)
    ensures var t := AddRefund(s, gas); t.refund == s.refund + gas && SameReads(s, t.(refund := s.refund))
  {
  }

  /** A log added after Prepare becomes the last one of that transaction, with its block, its transaction's index and
      the position it has in the block. */
  lemma PreparedLogReads(s: State, thash: Hash, bhash: Hash, ti: int, data: seq<bv8>, h: Hash)
    ensures SameReads(s, Prepare(s, thash, bhash, ti))
    ensures GetLogs(AddLog(Prepare(s, thash, bhash, ti), data), h) ==
              GetLogs(s, h) + if h == thash then [Log(data, thash, bhash, ti, s.logSize)] else []
  {
  }

  lemma AddLogReads(s: State, data: seq<bv8>, h: Hash)
    ensures var t := AddLog(s, data);
            && GetLogs(t, h) == GetLogs(s, h) + (if h == s.thash then [Log(data, s.thash, s.bhash, s.txIndex, s.logSize)] else [])
            && t.logSize == s.logSize + 1 && SameReads(s, t.(logs := s.logs, logSize := s.logSize))
  {
  }

  /** The first preimage of a hash is kept. */
  lemma AddPreimageReads(s: State, hash: Hash, preimage: seq<bv8>, h: Hash)
    ensures var t := AddPreimage(s, hash, preimage);
            && hash in t.preimages && t.preimages[hash] == (if hash in s.preimages then s.preimages[hash] else preimage)
            && (h != hash ==> (h in t.preimages <==> h in s.preimages) && (h in s.preimages ==> t.preimages[h] == s.preimages[h]))
            && SameReads(s, t.(preimages := s.preimages))
  {
  }

  // ---------------------------------------------------------------- undo

  function Undo(s: State, e: Entry): Outcome {
    match e
    case CreateObject(a) => Done(s.(objects := s.objects - {a}, dirty := s.dirty - {a}))
    case ResetObject(a, prev) => Done(Put(s, a, prev))
    case SuicideChange(a, was) =>
      Done(if Live(s, a).Some? then Put(Load(s, a), a, Live(s, a).value.(suicided := was)) else s)
    case StorageChange(a, k, v) =>
      if Live(s, a).Some? then Done(Write(Load(s, a), a, Live(s, a).value, k, v)) else Panic
    case RefundChange(r) => Done(s.(refund := r))
    case AddLogChange(h) =>
      var logs := GetLogs(s, h);
      if |logs| == 0 then Panic
      else Done(s.(logs := if |logs| == 1 then s.logs - {h} else s.logs[h := logs[..|logs| - 1]],
                   logSize := s.logSize - 1))
    case AddPreimageChange(h) => Done(s.(preimages := s.preimages - {h}))
  }

  /** Undo the journal down to length `n`. */
  function UndoTo(s: State, n: nat): Outcome
    decreases |s.journal|
  {
    if |s.journal| <= n then Done(s)
    else
      var last := |s.journal| - 1;
      var u := Undo(s.(journal := s.journal[..last]), s.journal[last]);
      if u.Panic? then Panic else UndoTo(u.state.(journal := s.journal[..last]), n)
  }

  /** The position sort.Search finds: the first revision whose id is at least `id`. */
  function Find(revisions: seq<Revision>, id: nat): (i: nat)
    ensures i <= |revisions|
    ensures forall j :: 0 <= j < i ==> revisions[j].id < id
    ensures i < |revisions| ==> revisions[i].id >= id
  {
    if revisions == [] || revisions[0].id >= id then 0 else 1 + Find(revisions[1..], id)
  }

  predicate IsValid(revisions: seq<Revision>, id: nat) {
    exists i :: 0 <= i < |revisions| && revisions[i].id == id
  }

  function RevertToSnapshot(s: State, id: nat): Outcome {
    var i := Find(s.revisions, id);
    if i == |s.revisions| || s.revisions[i].id != id then Panic
    else
      var u := UndoTo(s, s.revisions[i].journalIndex);
      if u.Panic? then Panic else Done(u.state.(revisions := s.revisions[..i]))
  }

  // ---------------------------------------------------------------- histories

  datatype Op =
    | OpGetOrNew(a: Address)            // AddBalance, SubBalance, SetBalance, SetNonce, SetCode: their bodies are empty
    | OpSetState(a: Address, key: Hash, value: Hash)
    | OpCreateAccount(a: Address)
    | OpSuicide(a: Address)
    | OpAddRefund(gas: int)
    | OpAddLog(data: seq<bv8>)
    | OpAddPreimage(hash: Hash, preimage: seq<bv8>)
    | OpPrepare(thash: Hash, bhash: Hash, ti: int)
    | OpLoad(a: Address)                // Exist, Empty, HasSuicided and the other reads of an account
    | OpGetState(a: Address, key: Hash)
    | OpSnapshot
    | OpRevert(id: nat)

  function Exec(s: State, op: Op): Outcome {
    match op
    case OpGetOrNew(a) => Done(GetOrNew(s, a))
    case OpSetState(a, k, v) => Done(SetState(s, a, k, v))
    case OpCreateAccount(a) => Done(Create(s, a))
    case OpSuicide(a) => Done(Suicide(s, a))
    case OpAddRefund(g) => Done(AddRefund(s, g))
    case OpAddLog(d) => Done(AddLog(s, d))
    case OpAddPreimage(h, p) => Done(AddPreimage(s, h, p))
    case OpPrepare(th, bh, ti) => Done(Prepare(s, th, bh, ti))
    case OpLoad(a) => Done(Load(s, a))
    case OpGetState(a, k) => Done(ReadState(s, a, k))
    case OpSnapshot => Done(Snapshot(s))
    case OpRevert(id) => RevertToSnapshot(s, id)
  }

  function Run(s: State, ops: seq<Op>): Outcome
    decreases |ops|
  {
    if ops == [] then Done(s)
    else
      var o := Run(s, ops[..|ops| - 1]);
      if o.Panic? then Panic else Exec(o.state, ops[|ops| - 1])
  }

  // ---------------------------------------------------------------- invariant

  /** A deleted object is gone from the trie (Finalise and CommitTo delete both together), and no
      journal entry holds a deleted object. */
  predicate NoDeletedPrev(journal: seq<Entry>) {
    forall i :: 0 <= i < |journal| && journal[i].ResetObject? ==> !journal[i].prev.deleted
  }

  predicate DeletedGone(s: State) {
    && (forall a :: a in s.objects && s.objects[a].deleted ==> a !in s.trie)
    && NoDeletedPrev(s.journal)
  }

  predicate Before(r: Revision, q: Revision) {
    r.id < q.id && r.journalIndex <= q.journalIndex
  }

  predicate RevisionsOrdered(s: State) {
    && (forall i :: 0 <= i < |s.revisions| ==> s.revisions[i].id < s.nextRevisionId && s.revisions[i].journalIndex <= |s.journal|)
    && (forall i, j :: 0 <= i < j < |s.revisions| ==> Before(s.revisions[i], s.revisions[j]))
  }

  ghost predicate WellFormed(s: State) {
    && DeletedGone(s)
    && RevisionsOrdered(s)
    && UndoTo(s, 0).Done?
  }

  // ---------------------------------------------------------------- undo respects reads

  lemma LoadIsRead(s: State, a: Address)
    ensures forall b :: Live(Load(s, a), b) == Live(s, b)
    ensures SameReads(Load(s, a), s)
  {
  }

  /** Replacing an account by objects that read alike keeps the states alike. */
  lemma PutSameReads(s: State, t: State, a: Address, o: Obj, q: Obj)
    requires SameReads(s, t)
    requires !o.deleted && !q.deleted && SameObj(Some(o), Some(q))
    ensures SameReads(Put(s, a, o), Put(t, a, q))
  {
    forall b ensures SameObj(Live(Put(s, a, o), b), Live(Put(t, a, q), b)) {
      if b != a {
        assert Live(Put(s, a, o), b) == Live(s, b) && Live(Put(t, a, q), b) == Live(t, b);
      }
    }
  }

  lemma UndoStorageSameReads(s: State, t: State, e: Entry)
    requires SameReads(s, t) && e.StorageChange? && Live(s, e.account).Some?
    ensures Undo(t, e).Done? && SameReads(Undo(s, e).state, Undo(t, e).state)
  {
    var StorageChange(a, k, v) := e;
    assert SameObj(Live(s, a), Live(t, a));
    var o, q := Live(s, a).value, Live(t, a).value;
    var o' := o.(cached := o.cached[k := v], dirty := o.dirty[k := v], armed := false);
    var q' := q.(cached := q.cached[k := v], dirty := q.dirty[k := v], armed := false);
    forall j ensures ObjGet(o', j) == ObjGet(q', j) {
      assert ObjGet(o, j) == ObjGet(q, j);
    }
    LoadSameReads(s, t, a);
    PutSameReads(Load(s, a), Load(t, a), a, o', q');
    DirtyIsNotRead(Put(Load(s, a), a, o'), Undo(s, e).state);
    DirtyIsNotRead(Put(Load(t, a), a, q'), Undo(t, e).state);
    SameReadsChain(Undo(s, e).state, Put(Load(s, a), a, o'), Put(Load(t, a), a, q'), Undo(t, e).state);
  }

  lemma LoadSameReads(s: State, t: State, a: Address)
    requires SameReads(s, t)
    ensures SameReads(Load(s, a), Load(t, a))
  {
    LoadIsRead(s, a);
    LoadIsRead(t, a);
    SameReadsChain(Load(s, a), s, t, Load(t, a));
  }

  lemma DirtyIsNotRead(s: State, t: State)
    requires t == s.(dirty := t.dirty)
    ensures SameReads(s, t) && SameReads(t, s)
  {
    assert forall a :: Live(s, a) == Live(t, a);
  }

  lemma JournalIsNotRead(s: State, t: State)
    requires t == s.(journal := t.journal, revisions := t.revisions, nextRevisionId := t.nextRevisionId)
    ensures SameReads(s, t)
  {
    assert forall a :: Live(s, a) == Live(t, a);
  }

  lemma SameReadsChain(s: State, t: State, u: State, v: State)
    requires SameReads(s, t) && SameReads(t, u) && SameReads(u, v)
    ensures SameReads(s, v)
  {
    forall a ensures SameObj(Live(s, a), Live(v, a)) {
      SameObjChain(Live(s, a), Live(t, a), Live(u, a));
      SameObjChain(Live(s, a), Live(u, a), Live(v, a));
    }
    forall h ensures LogsAt(s.logs, h) == LogsAt(v.logs, h) {
      assert LogsAt(s.logs, h) == LogsAt(t.logs, h) == LogsAt(u.logs, h);
    }
  }

  lemma SameObjChain(x: Option<Obj>, y: Option<Obj>, z: Option<Obj>)
    ensures SameObj(x, y) && SameObj(y, z) ==> SameObj(x, z)
  {
    if SameObj(x, y) && SameObj(y, z) && x.Some? {
      forall k ensures ObjGet(x.value, k) == ObjGet(z.value, k) {
        assert ObjGet(x.value, k) == ObjGet(y.value, k);
      }
    }
  }

  lemma UndoSameReads(s: State, t: State, e: Entry)
    requires SameReads(s, t)
    requires e.ResetObject? ==> !e.prev.deleted
    ensures Undo(s, e).Panic? <==> Undo(t, e).Panic?
    ensures Undo(s, e).Done? ==> SameReads(Undo(s, e).state, Undo(t, e).state)
  {
    match e
    case StorageChange(a, k, v) =>
      assert SameObj(Live(s, a), Live(t, a));
      if Live(s, a).Some? { UndoStorageSameReads(s, t, e); }
    case SuicideChange(a, was) =>
      assert SameObj(Live(s, a), Live(t, a));
      if Live(s, a).Some? {
        var o, q := Live(s, a).value, Live(t, a).value;
        LoadSameReads(s, t, a);
        forall k ensures ObjGet(o.(suicided := was), k) == ObjGet(q.(suicided := was), k) {
          assert ObjGet(o, k) == ObjGet(q, k);
        }
        PutSameReads(Load(s, a), Load(t, a), a, o.(suicided := was), q.(suicided := was));
      }
    case CreateObject(a) =>
      UndoCreateSameReads(s, t, a);
    case ResetObject(a, prev) =>
      PutSameReads(s, t, a, prev, prev);
    case AddLogChange(h) =>
      assert GetLogs(s, h) == GetLogs(t, h);
      if |GetLogs(s, h)| > 0 { UndoLogSameReads(s, t, h); }
    case RefundChange(r) =>
      RecordsOnly(s, t, Undo(s, e).state, Undo(t, e).state);
    case AddPreimageChange(h) =>
      RecordsOnly(s, t, Undo(s, e).state, Undo(t, e).state);
  }

  lemma UndoCreateSameReads(s: State, t: State, a: Address)
    requires SameReads(s, t)
    ensures SameReads(Undo(s, CreateObject(a)).state, Undo(t, CreateObject(a)).state)
  {
    var s', t' := Undo(s, CreateObject(a)).state, Undo(t, CreateObject(a)).state;
    forall b ensures SameObj(Live(s', b), Live(t', b)) {
      if b == a {
        assert Live(s', b) == Live(t', b);
      } else {
        assert Live(s', b) == Live(s, b) && Live(t', b) == Live(t, b);
      }
    }
  }

  lemma RecordsOnly(s: State, t: State, s': State, t': State)
    requires SameReads(s, t) && SameRecords(s', t')
    requires s'.trie == s.trie && s'.objects == s.objects && t'.trie == t.trie && t'.objects == t.objects
    ensures SameReads(s', t')
  {
    forall a ensures SameObj(Live(s', a), Live(t', a)) {
      assert Live(s', a) == Live(s, a) && Live(t', a) == Live(t, a);
    }
  }

  lemma UndoLogSameReads(s: State, t: State, h: Hash)
    requires SameReads(s, t) && |GetLogs(s, h)| > 0
    ensures Undo(t, AddLogChange(h)).Done?
    ensures SameReads(Undo(s, AddLogChange(h)).state, Undo(t, AddLogChange(h)).state)
  {
    assert GetLogs(s, h) == GetLogs(t, h);
    var s', t' := Undo(s, AddLogChange(h)).state, Undo(t, AddLogChange(h)).state;
    forall g ensures LogsAt(s'.logs, g) == LogsAt(t'.logs, g) {
      assert LogsAt(s.logs, g) == LogsAt(t.logs, g);
    }
    RecordsOnly(s, t, s', t');
  }

  /** Undoing a whole journal suffix takes states that read alike to states that read alike. */
  lemma {:induction false} UndoToSameReads(s: State, t: State, n: nat)
    requires SameReads(s, t) && s.journal == t.journal
    requires NoDeletedPrev(s.journal)
    ensures UndoTo(s, n).Panic? <==> UndoTo(t, n).Panic?
    ensures UndoTo(s, n).Done? ==> SameReads(UndoTo(s, n).state, UndoTo(t, n).state)
    decreases |s.journal|
  {
    if |s.journal| > n {
      var last := |s.journal| - 1;
      var cut := s.journal[..last];
      var s0, t0 := s.(journal := cut), t.(journal := cut);
      JournalIsNotRead(s0, s);
      JournalIsNotRead(t, t0);
      SameReadsChain(s0, s, t, t0);
      UndoSameReads(s0, t0, s.journal[last]);
      var u, v := Undo(s0, s.journal[last]), Undo(t0, s.journal[last]);
      if u.Done? {
        JournalIsNotRead(u.state.(journal := cut), u.state);
        JournalIsNotRead(v.state, v.state.(journal := cut));
        SameReadsChain(u.state.(journal := cut), u.state, v.state, v.state.(journal := cut));
        UndoToSameReads(u.state.(journal := cut), v.state.(journal := cut), n);
      }
    }
  }

  lemma UndoFrame(s: State, e: Entry)
    requires Undo(s, e).Done?
    ensures Undo(s, e).state.revisions == s.revisions && Undo(s, e).state.nextRevisionId == s.nextRevisionId
    ensures Undo(s, e).state.trie == s.trie && Undo(s, e).state.journal == s.journal
  {
  }

  lemma {:induction false} UndoToCuts(s: State, n: nat)
    requires n <= |s.journal| && UndoTo(s, n).Done?
    ensures UndoTo(s, n).state.journal == s.journal[..n]
    ensures UndoTo(s, n).state.revisions == s.revisions && UndoTo(s, n).state.nextRevisionId == s.nextRevisionId
    ensures UndoTo(s, n).state.trie == s.trie
    decreases |s.journal|
  {
    if |s.journal| > n {
      var last := |s.journal| - 1;
      var s0 := s.(journal := s.journal[..last]);
      UndoFrame(s0, s.journal[last]);
      var u := Undo(s0, s.journal[last]).state.(journal := s.journal[..last]);
      UndoToCuts(u, n);
      assert u.journal[..n] == s.journal[..n];
    } else {
      assert s.journal[..n] == s.journal;
    }
  }

  /** Undoing in two stages is undoing at once. */
  lemma {:induction false} UndoToCompose(s: State, m: nat, n: nat)
    requires n <= m <= |s.journal|
    ensures UndoTo(s, n) == if UndoTo(s, m).Panic? then Panic else UndoTo(UndoTo(s, m).state, n)
    decreases |s.journal|
  {
    if |s.journal| > m {
      var last := |s.journal| - 1;
      var u := Undo(s.(journal := s.journal[..last]), s.journal[last]);
      if u.Done? {
        UndoToCompose(u.state.(journal := s.journal[..last]), m, n);
      }
    }
  }

  lemma {:induction false} UndoToKeepsDeletedGone(s: State, n: nat)
    requires DeletedGone(s) && UndoTo(s, n).Done?
    ensures DeletedGone(UndoTo(s, n).state)
    decreases |s.journal|
  {
    if |s.journal| > n {
      var last := |s.journal| - 1;
      var s0, e := s.(journal := s.journal[..last]), s.journal[last];
      UndoKeepsDeletedGone(s0, e);
      UndoToKeepsDeletedGone(Undo(s0, e).state.(journal := s0.journal), n);
    }
  }

  lemma UndoKeepsDeletedGone(s: State, e: Entry)
    requires DeletedGone(s) && Undo(s, e).Done? && (e.ResetObject? ==> !e.prev.deleted)
    ensures DeletedGone(Undo(s, e).state.(journal := s.journal))
  {
  }

  // ---------------------------------------------------------------- every step can be undone

  /** `t` journals the entry `e` over `s`, and undoing that entry restores every read. */
  ghost predicate Inverts(s: State, t: State, e: Entry) {
    && t.journal == s.journal + [e]
    && t.revisions == s.revisions && t.nextRevisionId == s.nextRevisionId
    && DeletedGone(t)
    && Restores(s, Undo(t.(journal := s.journal), e))
  }

  ghost predicate Restores(s: State, u: Outcome) {
    u.Done? && SameReads(u.state, s)
  }

  function CreateEntry(s: State, a: Address): Entry {
    if Live(s, a).None? then CreateObject(a) else ResetObject(a, Live(s, a).value)
  }

  lemma NewInverts(s: State, a: Address)
    requires DeletedGone(s) && Live(s, a).None?
    ensures Inverts(s, Create(s, a), CreateObject(a))
  {
    var t := Create(s, a);
    assert a !in s.trie;
    var u := t.(journal := s.journal, objects := t.objects - {a}, dirty := t.dirty - {a});
    assert Undo(t.(journal := s.journal), CreateObject(a)) == Done(u);
    forall b ensures Live(u, b) == Live(s, b) {}
  }

  lemma ReplacedInverts(s: State, a: Address)
    requires DeletedGone(s) && Live(s, a).Some?
    ensures Inverts(s, Create(s, a), ResetObject(a, Live(s, a).value))
  {
    var t := Create(s, a);
    LoadIsRead(s, a);
    var u := Put(t.(journal := s.journal), a, Live(s, a).value);
    assert Undo(t.(journal := s.journal), ResetObject(a, Live(s, a).value)) == Done(u);
    forall b ensures Live(u, b) == Live(s, b) {}
  }

  lemma CreateInverts(s: State, a: Address)
    requires DeletedGone(s)
    ensures Inverts(s, Create(s, a), CreateEntry(s, a))
  {
    if Live(s, a).None? { NewInverts(s, a); } else { ReplacedInverts(s, a); }
  }

  /** Replacing one live account by one that reads alike. */
  lemma OneObjectReads(s: State, u: State, a: Address, w: Obj)
    requires a in s.objects && !s.objects[a].deleted && !w.deleted && SameObj(Some(w), Some(s.objects[a]))
    requires u.trie == s.trie && u.objects == s.objects[a := w] && SameRecords(u, s)
    ensures SameReads(u, s)
  {
    forall b ensures SameObj(Live(u, b), Live(s, b)) {
      assert b != a ==> Live(u, b) == Live(s, b);
    }
  }

  /** What undoing a write leaves of the account. */
  function Rewritten(o: Obj, key: Hash, value: Hash): Obj {
    var c := CacheRead(o, key);
    c.(cached := c.cached[key := value][key := ObjGet(o, key)], dirty := c.dirty[key := value][key := ObjGet(o, key)], armed := false)
  }

  lemma UndoneWrite(s: State, a: Address, key: Hash, value: Hash)
    requires a in s.objects && !s.objects[a].deleted
    ensures var o := s.objects[a];
            var e := StorageChange(a, key, ObjGet(o, key));
            var u := Undo(SetLive(s, a, key, value).(journal := s.journal), e);
            && u.Done? && u.state.trie == s.trie && u.state.objects == s.objects[a := Rewritten(o, key, value)] && SameRecords(u.state, s)
  {
  }

  lemma SetLiveInverts(s: State, a: Address, key: Hash, value: Hash)
    requires DeletedGone(s) && a in s.objects && !s.objects[a].deleted
    ensures Inverts(s, SetLive(s, a, key, value), StorageChange(a, key, ObjGet(s.objects[a], key)))
  {
    var o := s.objects[a];
    var w := Rewritten(o, key, value);
    assert ObjGet(CacheRead(o, key), key) == ObjGet(o, key);
    RewriteReads(o, key, value, w);
    UndoneWrite(s, a, key, value);
    OneObjectReads(s, Undo(SetLive(s, a, key, value).(journal := s.journal), StorageChange(a, key, ObjGet(o, key))).state, a, w);
  }

  lemma RewriteReads(o: Obj, key: Hash, value: Hash, w: Obj)
    requires w.committed == o.committed && w.suicided == o.suicided && w.deleted == o.deleted
    requires w.cached == CacheRead(o, key).cached[key := value][key := ObjGet(o, key)]
    ensures SameObj(Some(w), Some(o))
  {
    forall k ensures ObjGet(w, k) == ObjGet(o, k) {}
  }

  lemma SuicideInverts(s: State, a: Address)
    requires DeletedGone(s) && Live(s, a).Some?
    ensures Inverts(s, Suicide(s, a), SuicideChange(a, Live(s, a).value.suicided))
  {
    var o := Live(s, a).value;
    var t, e := Suicide(s, a), SuicideChange(a, o.suicided);
    assert t.journal == s.journal + [e];
    var u := Undo(t.(journal := s.journal), e).state;
    assert Live(u, a) == Some(o.(armed := false));
    forall b ensures SameObj(Live(u, b), Live(s, b)) {
      assert b != a ==> Live(u, b) == Live(s, b);
    }
  }

  lemma RecordsInvert(s: State, t: State, e: Entry)
    requires DeletedGone(s) && !e.ResetObject?
    requires t.trie == s.trie && t.objects == s.objects && t.revisions == s.revisions && t.nextRevisionId == s.nextRevisionId
    requires t.journal == s.journal + [e]
    requires var u := Undo(t.(journal := s.journal), e);
             u.Done? && u.state.trie == s.trie && u.state.objects == s.objects && SameRecords(u.state, s)
    ensures Inverts(s, t, e)
  {
    var u := Undo(t.(journal := s.journal), e).state;
    forall a ensures SameObj(Live(u, a), Live(s, a)) {
      assert Live(u, a) == Live(s, a);
    }
  }

  lemma AddLogInverts(s: State, data: seq<bv8>)
    requires DeletedGone(s)
    ensures Inverts(s, AddLog(s, data), AddLogChange(s.thash))
  {
    var t, h, e := AddLog(s, data), s.thash, AddLogChange(s.thash);
    var u := Undo(t.(journal := s.journal), e).state;
    assert GetLogs(t, h)[..|GetLogs(s, h)|] == GetLogs(s, h);
    forall g ensures LogsAt(u.logs, g) == LogsAt(s.logs, g) {}
    RecordsInvert(s, t, e);
  }

  lemma AddPreimageInverts(s: State, hash: Hash, preimage: seq<bv8>)
    requires DeletedGone(s) && hash !in s.preimages
    ensures Inverts(s, AddPreimage(s, hash, preimage), AddPreimageChange(hash))
  {
    var t := AddPreimage(s, hash, preimage);
    assert t.preimages - {hash} == s.preimages;
    RecordsInvert(s, t, AddPreimageChange(hash));
  }

  lemma AddRefundInverts(s: State, gas: int)
    requires DeletedGone(s)
    ensures Inverts(s, AddRefund(s, gas), RefundChange(s.refund))
  {
    RecordsInvert(s, AddRefund(s, gas), RefundChange(s.refund));
  }

  // ---------------------------------------------------------------- from one step to a history

  /** From `t` the journal can be undone to length `n` and then reads like `s` undone to `n`. */
  ghost predicate UndoesLike(s: State, t: State, n: nat) {
    && UndoTo(s, n).Done? && UndoTo(t, n).Done?
    && SameReads(UndoTo(t, n).state, UndoTo(s, n).state)
  }

  /** `t` is reached from `s` by steps that leave the revisions alone. */
  ghost predicate Continues(s: State, t: State) {
    && |s.journal| <= |t.journal| && t.journal[..|s.journal|] == s.journal
    && t.revisions == s.revisions && t.nextRevisionId == s.nextRevisionId
    && DeletedGone(t)
    && forall n: nat :: n <= |s.journal| && UndoTo(s, n).Done? ==> UndoesLike(s, t, n)
  }

  lemma InvertsContinues(s: State, t: State, e: Entry)
    requires DeletedGone(s) && Inverts(s, t, e)
    ensures Continues(s, t)
  {
    assert t.journal[..|s.journal|] == s.journal && t.journal[|s.journal|] == e;
    var u := Undo(t.(journal := s.journal), e).state;
    JournalIsNotRead(u.(journal := s.journal), u);
    SameReadsChain(u.(journal := s.journal), u, s, s);
    forall n: nat | n <= |s.journal| && UndoTo(s, n).Done?
      ensures UndoesLike(s, t, n)
    {
      UndoToSameReads(u.(journal := s.journal), s, n);
      assert UndoTo(t, n) == UndoTo(u.(journal := s.journal), n);
    }
  }

  lemma SilentContinues(s: State, t: State)
    requires DeletedGone(s) && DeletedGone(t) && SameReads(t, s)
    requires t.journal == s.journal && t.revisions == s.revisions && t.nextRevisionId == s.nextRevisionId
    ensures Continues(s, t)
  {
    assert t.journal[..|s.journal|] == s.journal;
    forall n: nat | n <= |s.journal| && UndoTo(s, n).Done?
      ensures UndoesLike(s, t, n)
    {
      UndoToSameReads(t, s, n);
    }
  }

  lemma ContinuesTransitive(s: State, t: State, u: State)
    requires Continues(s, t) && Continues(t, u)
    ensures Continues(s, u)
  {
    assert u.journal[..|s.journal|] == u.journal[..|t.journal|][..|s.journal|];
    forall n: nat | n <= |s.journal| && UndoTo(s, n).Done?
      ensures UndoesLike(s, u, n)
    {
      assert UndoesLike(s, t, n) && UndoesLike(t, u, n);
      SameReadsChain(UndoTo(u, n).state, UndoTo(t, n).state, UndoTo(s, n).state, UndoTo(s, n).state);
    }
  }

  predicate Plain(op: Op) {
    !op.OpSnapshot? && !op.OpRevert?
  }

  lemma LoadContinues(s: State, a: Address)
    requires DeletedGone(s)
    ensures Continues(s, Load(s, a))
  {
    LoadIsRead(s, a);
    SilentContinues(s, Load(s, a));
  }

  lemma GetOrNewContinues(s: State, a: Address)
    requires DeletedGone(s)
    ensures Continues(s, GetOrNew(s, a))
    ensures a in GetOrNew(s, a).objects && !GetOrNew(s, a).objects[a].deleted
  {
    if Live(s, a).None? {
      CreateInverts(s, a);
      InvertsContinues(s, Create(s, a), CreateEntry(s, a));
    } else {
      LoadContinues(s, a);
    }
  }

  lemma CacheReadReads(o: Obj, key: Hash)
    ensures SameObj(Some(CacheRead(o, key)), Some(o))
  {
    forall k ensures ObjGet(CacheRead(o, key), k) == ObjGet(o, k) {}
  }

  lemma ReadStateContinues(s: State, a: Address, key: Hash)
    requires DeletedGone(s)
    ensures Continues(s, ReadState(s, a, key))
  {
    var t := ReadState(s, a, key);
    if Live(s, a).Some? {
      var l, o := Load(s, a), Live(s, a).value;
      LoadIsRead(s, a);
      CacheReadReads(o, key);
      assert Put(l, a, o) == l;
      PutSameReads(l, l, a, CacheRead(o, key), o);
      assert SameAccounts(t, s);
    }
    SilentContinues(s, t);
  }

  /** Every operation but Snapshot and RevertToSnapshot can be undone entry by entry. */
  lemma PlainContinues(s: State, op: Op)
    requires DeletedGone(s) && Plain(op)
    ensures Exec(s, op).Done? && Continues(s, Exec(s, op).state)
  {
    match op
    case OpGetOrNew(a) => GetOrNewContinues(s, a);
    case OpSetState(a, k, v) =>
      GetOrNewContinues(s, a);
      SetLiveInverts(GetOrNew(s, a), a, k, v);
      InvertsContinues(GetOrNew(s, a), SetState(s, a, k, v), StorageChange(a, k, ObjGet(GetOrNew(s, a).objects[a], k)));
      ContinuesTransitive(s, GetOrNew(s, a), SetState(s, a, k, v));
    case OpCreateAccount(a) =>
      CreateInverts(s, a);
      InvertsContinues(s, Create(s, a), CreateEntry(s, a));
    case OpSuicide(a) =>
      if Live(s, a).Some? {
        SuicideInverts(s, a);
        InvertsContinues(s, Suicide(s, a), SuicideChange(a, Live(s, a).value.suicided));
      } else {
        SilentContinues(s, s);
      }
    case OpAddRefund(g) =>
      AddRefundInverts(s, g);
      InvertsContinues(s, AddRefund(s, g), RefundChange(s.refund));
    case OpAddLog(d) =>
      AddLogInverts(s, d);
      InvertsContinues(s, AddLog(s, d), AddLogChange(s.thash));
    case OpAddPreimage(h, p) =>
      if h in s.preimages {
        SilentContinues(s, s);
      } else {
        AddPreimageInverts(s, h, p);
        InvertsContinues(s, AddPreimage(s, h, p), AddPreimageChange(h));
      }
    case OpPrepare(th, bh, ti) =>
      var t := Prepare(s, th, bh, ti);
      assert forall a :: Live(t, a) == Live(s, a);
      SilentContinues(s, t);
    case OpLoad(a) => LoadContinues(s, a);
    case OpGetState(a, k) => ReadStateContinues(s, a, k);
  }

  function WithRevisions(s: State, revisions: seq<Revision>, next: nat): State {
    s.(revisions := revisions, nextRevisionId := next)
  }

  lemma UndoIgnoresRevisions(s: State, e: Entry, revisions: seq<Revision>, next: nat)
    ensures Undo(WithRevisions(s, revisions, next), e)
         == if Undo(s, e).Panic? then Panic else Done(WithRevisions(Undo(s, e).state, revisions, next))
  {
  }

  lemma {:induction false} UndoToIgnoresRevisions(s: State, revisions: seq<Revision>, next: nat, n: nat)
    ensures UndoTo(WithRevisions(s, revisions, next), n)
         == if UndoTo(s, n).Panic? then Panic else Done(WithRevisions(UndoTo(s, n).state, revisions, next))
    decreases |s.journal|
  {
    if |s.journal| > n {
      var last := |s.journal| - 1;
      var s0, e := s.(journal := s.journal[..last]), s.journal[last];
      UndoIgnoresRevisions(s0, e, revisions, next);
      if Undo(s0, e).Done? {
        UndoToIgnoresRevisions(Undo(s0, e).state.(journal := s0.journal), revisions, next, n);
      }
    }
  }

  lemma WellFormedUndoes(s: State, n: nat)
    requires WellFormed(s) && n <= |s.journal|
    ensures UndoTo(s, n).Done?
  {
    UndoToCompose(s, n, 0);
  }

  lemma FindValid(revisions: seq<Revision>, id: nat)
    requires forall i, j :: 0 <= i < j < |revisions| ==> revisions[i].id < revisions[j].id
    ensures IsValid(revisions, id) <==> Find(revisions, id) < |revisions| && revisions[Find(revisions, id)].id == id
  {
    var f := Find(revisions, id);
    if IsValid(revisions, id) {
      var i :| 0 <= i < |revisions| && revisions[i].id == id;
    }
  }

  /** A revert panics exactly when the revision is not valid; otherwise the state stays well formed. */
  lemma RevertOutcome(s: State, id: nat)
    requires WellFormed(s)
    ensures RevertToSnapshot(s, id).Done? <==> IsValid(s.revisions, id)
    ensures RevertToSnapshot(s, id).Done? ==> WellFormed(RevertToSnapshot(s, id).state)
  {
    FindValid(s.revisions, id);
    var i := Find(s.revisions, id);
    if i < |s.revisions| && s.revisions[i].id == id {
      var m := s.revisions[i].journalIndex;
      WellFormedUndoes(s, m);
      UndoToCuts(s, m);
      UndoToKeepsDeletedGone(s, m);
      UndoToCompose(s, m, 0);
      var u := UndoTo(s, m).state;
      UndoToIgnoresRevisions(u, s.revisions[..i], u.nextRevisionId, 0);
      var t := RevertToSnapshot(s, id).state;
      assert t == WithRevisions(u, s.revisions[..i], u.nextRevisionId);
      assert RevisionsOrdered(t) by {
        forall j | 0 <= j < |t.revisions|
          ensures t.revisions[j].id < t.nextRevisionId && t.revisions[j].journalIndex <= |t.journal|
        {
          assert Before(s.revisions[j], s.revisions[i]);
        }
      }
    }
  }

  lemma ExecKeepsWellFormed(s: State, op: Op)
    requires WellFormed(s)
    ensures Exec(s, op).Done? ==> WellFormed(Exec(s, op).state)
    ensures Exec(s, op).Panic? <==> op.OpRevert? && !IsValid(s.revisions, op.id)
  {
    if op.OpRevert? {
      RevertOutcome(s, op.id);
    } else if op.OpSnapshot? {
      UndoToIgnoresRevisions(s, Snapshot(s).revisions, Snapshot(s).nextRevisionId, 0);
    } else {
      PlainContinues(s, op);
      assert UndoesLike(s, Exec(s, op).state, 0);
    }
  }

  // ---------------------------------------------------------------- the theorem

  /** The revision taken in `s0` is still on the stack of `s`, and undoing to it restores the reads of `s0`. */
  ghost predicate Restorable(s0: State, s: State) {
    && |s0.revisions| < |s.revisions|
    && s.revisions[..|s0.revisions|] == s0.revisions
    && s.revisions[|s0.revisions|] == Revision(s0.nextRevisionId, |s0.journal|)
    && |s0.journal| <= |s.journal| && s.journal[..|s0.journal|] == s0.journal
    && UndoTo(s, |s0.journal|).Done?
    && SameReads(UndoTo(s, |s0.journal|).state, s0)
  }

  predicate RevertsAtMost(op: Op, id: nat) {
    op.OpRevert? && op.id <= id
  }

  lemma SnapshotRestorable(s0: State)
    requires WellFormed(s0)
    ensures Restorable(s0, Snapshot(s0))
  {
    assert Snapshot(s0).journal[..|s0.journal|] == s0.journal;
    assert UndoTo(Snapshot(s0), |s0.journal|) == Done(Snapshot(s0));
    JournalIsNotRead(Snapshot(s0), s0);
  }

  lemma PlainRestorable(s0: State, s: State, op: Op)
    requires WellFormed(s) && Restorable(s0, s) && !op.OpRevert?
    ensures Restorable(s0, Exec(s, op).state)
  {
    var t, n := Exec(s, op).state, |s0.journal|;
    if op.OpSnapshot? {
      UndoToIgnoresRevisions(s, t.revisions, t.nextRevisionId, n);
      JournalIsNotRead(UndoTo(t, n).state, UndoTo(s, n).state);
      SameReadsChain(UndoTo(t, n).state, UndoTo(s, n).state, s0, s0);
    } else {
      PlainContinues(s, op);
      assert UndoesLike(s, t, n);
      SameReadsChain(UndoTo(t, n).state, UndoTo(s, n).state, s0, s0);
      assert t.journal[..n] == t.journal[..|s.journal|][..n];
    }
  }

  lemma RevertRestorable(s0: State, s: State, id: nat)
    requires WellFormed(s) && Restorable(s0, s)
    requires RevertToSnapshot(s, id).Done?
    ensures var t := RevertToSnapshot(s, id).state;
            if s0.nextRevisionId < id then Restorable(s0, t)
            else !IsValid(t.revisions, s0.nextRevisionId)
  {
    var t, n, p := RevertToSnapshot(s, id).state, |s0.journal|, |s0.revisions|;
    var i := Find(s.revisions, id);
    if s0.nextRevisionId < id {
      assert i > p;
      var m := s.revisions[i].journalIndex;
      assert Before(s.revisions[p], s.revisions[i]);
      WellFormedUndoes(s, m);
      UndoToCuts(s, m);
      UndoToCompose(s, m, n);
      var u := UndoTo(s, m).state;
      UndoToIgnoresRevisions(u, t.revisions, u.nextRevisionId, n);
      assert t == WithRevisions(u, t.revisions, u.nextRevisionId);
      JournalIsNotRead(UndoTo(t, n).state, UndoTo(s, n).state);
      SameReadsChain(UndoTo(t, n).state, UndoTo(s, n).state, s0, s0);
      assert t.journal[..n] == s.journal[..m][..n] == s0.journal;
      assert t.revisions[..p] == s0.revisions;
    } else {
      forall j | 0 <= j < |t.revisions| ensures t.revisions[j].id != s0.nextRevisionId {
        assert t.revisions[j] == s.revisions[j];
      }
    }
  }

  predicate Reverted(ops: seq<Op>, id: nat) {
    exists i :: 0 <= i < |ops| && RevertsAtMost(ops[i], id)
  }

  lemma RevertedSplit(ops: seq<Op>, op: Op, id: nat)
    ensures Reverted(ops + [op], id) <==> Reverted(ops, id) || RevertsAtMost(op, id)
  {
    var all := ops + [op];
    if i :| 0 <= i < |ops| && RevertsAtMost(ops[i], id) {
      assert RevertsAtMost(all[i], id);
    }
    assert all[|ops|] == op;
  }

  /** What holds of the state after a history that began with a snapshot of `s0`. */
  ghost predicate HistoryInv(s0: State, s: State, reverted: bool) {
    && s0.nextRevisionId < s.nextRevisionId
    && (if reverted then !IsValid(s.revisions, s0.nextRevisionId) else Restorable(s0, s))
  }

  lemma HistoryStep(s0: State, s: State, reverted: bool, op: Op)
    requires WellFormed(s) && HistoryInv(s0, s, reverted) && Exec(s, op).Done?
    ensures HistoryInv(s0, Exec(s, op).state, reverted || RevertsAtMost(op, s0.nextRevisionId))
  {
    NextIdGrows(s, op);
    if reverted {
      StaysInvalid(s, op, s0.nextRevisionId);
    } else if op.OpRevert? {
      RevertRestorable(s0, s, op.id);
    } else {
      PlainRestorable(s0, s, op);
    }
  }

  lemma RunLast(s: State, ops: seq<Op>)
    requires ops != [] && Run(s, ops).Done?
    ensures Run(s, ops[..|ops| - 1]).Done?
    ensures Exec(Run(s, ops[..|ops| - 1]).state, ops[|ops| - 1]) == Run(s, ops)
  {
  }

  lemma HistoryLonger(s0: State, s: State, front: seq<Op>, op: Op)
    requires WellFormed(s) && HistoryInv(s0, s, Reverted(front, s0.nextRevisionId)) && Exec(s, op).Done?
    ensures HistoryInv(s0, Exec(s, op).state, Reverted(front + [op], s0.nextRevisionId))
  {
    HistoryStep(s0, s, Reverted(front, s0.nextRevisionId), op);
    RevertedSplit(front, op, s0.nextRevisionId);
  }

  /** The invariant of a history and what it needs. */
  ghost predicate HistoryHolds(s0: State, r: Outcome, reverted: bool) {
    r.Done? && WellFormed(r.state) && HistoryInv(s0, r.state, reverted)
  }

  lemma HistoryTakes(s0: State, r: Outcome, front: seq<Op>, op: Op, t: Outcome)
    requires HistoryHolds(s0, r, Reverted(front, s0.nextRevisionId)) && t == Exec(r.state, op) && t.Done?
    ensures HistoryHolds(s0, t, Reverted(front + [op], s0.nextRevisionId))
  {
    HistoryLonger(s0, r.state, front, op);
    ExecKeepsWellFormed(r.state, op);
  }

  predicate Leads(r: Outcome, op: Op, t: Outcome) {
    r.Done? && t.Done? && t == Exec(r.state, op)
  }

  lemma LastOp(start: State, ops: seq<Op>) returns (r: Outcome)
    requires ops != [] && Run(start, ops).Done?
    ensures r == Run(start, ops[..|ops| - 1]) && r.Done? && Leads(r, ops[|ops| - 1], Run(start, ops))
  {
    RunLast(start, ops);
    r := Run(start, ops[..|ops| - 1]);
  }

  /** Induction over a history. */
  lemma {:induction false} Histories(start: State, ops: seq<Op>, holds: (Outcome, seq<Op>) -> bool)
    requires holds(Done(start), []) && Run(start, ops).Done?
    requires forall r, t, front, op :: holds(r, front) && Leads(r, op, t) ==> holds(t, front + [op])
    ensures holds(Run(start, ops), ops)
    decreases |ops|
  {
    if ops != [] {
      var front, op := ops[..|ops| - 1], ops[|ops| - 1];
      var r := LastOp(start, ops);
      Histories(start, front, holds);
      assert ops == front + [op];
    }
  }

  lemma HistoryStarts(s0: State)
    requires WellFormed(s0)
    ensures HistoryHolds(s0, Done(Snapshot(s0)), false)
  {
    SnapshotRestorable(s0);
    ExecKeepsWellFormed(s0, OpSnapshot);
  }

  lemma HistoryInvariant(s0: State, ops: seq<Op>)
    requires WellFormed(s0) && Run(Snapshot(s0), ops).Done?
    ensures HistoryHolds(s0, Run(Snapshot(s0), ops), Reverted(ops, s0.nextRevisionId))
  {
    HistoryStarts(s0);
    var none: seq<Op> := [];
    assert !Reverted(none, s0.nextRevisionId);
    forall r, t, front, op | HistoryHolds(s0, r, Reverted(front, s0.nextRevisionId)) && Leads(r, op, t)
      ensures HistoryHolds(s0, t, Reverted(front + [op], s0.nextRevisionId))
    {
      HistoryTakes(s0, r, front, op, t);
    }
    assert HistoryHolds(s0, Done(Snapshot(s0)), Reverted(none, s0.nextRevisionId));
    Histories(Snapshot(s0), ops, (r, front) => HistoryHolds(s0, r, Reverted(front, s0.nextRevisionId)));
  }

  lemma NextIdGrows(s: State, op: Op)
    requires WellFormed(s) && Exec(s, op).Done?
    ensures s.nextRevisionId <= Exec(s, op).state.nextRevisionId
  {
    if op.OpRevert? {
      RevertOutcome(s, op.id);
      UndoToCuts(s, s.revisions[Find(s.revisions, op.id)].journalIndex);
    } else if !op.OpSnapshot? {
      PlainContinues(s, op);
    }
  }

  /** Ids are never reused: a revision that was dropped stays invalid. */
  lemma StaysInvalid(s: State, op: Op, id: nat)
    requires WellFormed(s) && Exec(s, op).Done? && id < s.nextRevisionId
    requires !IsValid(s.revisions, id)
    ensures !IsValid(Exec(s, op).state.revisions, id)
  {
    var t := Exec(s, op).state;
    if Plain(op) {
      PlainContinues(s, op);
    } else {
      forall i | 0 <= i < |t.revisions| ensures t.revisions[i].id != id {
        if i < |s.revisions| { assert t.revisions[i] == s.revisions[i]; }
      }
    }
  }

  /** RevertToSnapshot undoes any interleaving of the operations, nested snapshots and reverts
      included: it succeeds exactly when nothing in between reverted to this snapshot or to an
      earlier one, and then every read, the journal and the revision stack are as they were. */
  lemma RevertRestoresReads(s0: State, ops: seq<Op>)
    requires WellFormed(s0) && Run(Snapshot(s0), ops).Done?
    ensures var s, id := Run(Snapshot(s0), ops).state, s0.nextRevisionId;
            && (RevertToSnapshot(s, id).Done? <==> !Reverted(ops, id))
            && (RevertToSnapshot(s, id).Done? ==>
                  var t := RevertToSnapshot(s, id).state;
                  SameReads(t, s0) && t.journal == s0.journal && t.revisions == s0.revisions)
  {
    HistoryInvariant(s0, ops);
    var r := Run(Snapshot(s0), ops);
    HistoryReverts(s0, r, r.state, Reverted(ops, s0.nextRevisionId));
  }

  lemma HistoryReverts(s0: State, r: Outcome, s: State, reverted: bool)
    requires WellFormed(s0) && HistoryHolds(s0, r, reverted) && s == r.state
    ensures var id := s0.nextRevisionId;
            && (RevertToSnapshot(s, id).Done? <==> !reverted)
            && (RevertToSnapshot(s, id).Done? ==>
                  var t := RevertToSnapshot(s, id).state;
                  SameReads(t, s0) && t.journal == s0.journal && t.revisions == s0.revisions)
  {
    RevertOutcome(s, s0.nextRevisionId);
    if !reverted { RestorableReverts(s0, s); }
  }

  lemma RestorableReverts(s0: State, s: State)
    requires WellFormed(s) && Restorable(s0, s)
    ensures var r := RevertToSnapshot(s, s0.nextRevisionId);
            r.Done? && SameReads(r.state, s0) && r.state.journal == s0.journal && r.state.revisions == s0.revisions
  {
    var id, p := s0.nextRevisionId, |s0.revisions|;
    assert s.revisions[p].id == id;
    FindAt(s.revisions, p);
    UndoToCuts(s, |s0.journal|);
    var u, t := UndoTo(s, |s0.journal|).state, RevertToSnapshot(s, id).state;
    JournalIsNotRead(t, u);
    SameReadsChain(t, u, s0, s0);
  }

  lemma FindAt(revisions: seq<Revision>, p: nat)
    requires p < |revisions|
    requires forall i, j :: 0 <= i < j < |revisions| ==> Before(revisions[i], revisions[j])
    ensures Find(revisions, revisions[p].id) == p
  {
    var f := Find(revisions, revisions[p].id);
    assert f < p ==> Before(revisions[f], revisions[p]);
  }

  /** In every history a panic comes from a RevertToSnapshot whose revision is not valid; undoing an
      entry never meets a missing account or an empty log. */
  lemma OnlyInvalidRevertsPanic(s0: State, ops: seq<Op>, op: Op)
    requires WellFormed(s0) && Run(s0, ops).Done?
    ensures Exec(Run(s0, ops).state, op).Panic? <==> op.OpRevert? && !IsValid(Run(s0, ops).state.revisions, op.id)
  {
    RunKeepsWellFormed(s0, ops);
    ExecKeepsWellFormed(Run(s0, ops).state, op);
  }

  /** The position that Prepare sets is the same in both states. */
  predicate SamePosition(s: State, t: State) {
    s.thash == t.thash && s.bhash == t.bhash && s.txIndex == t.txIndex
  }

  lemma {:induction false} UndoToKeepsPosition(s: State, n: nat)
    requires UndoTo(s, n).Done?
    ensures SamePosition(s, UndoTo(s, n).state)
    decreases |s.journal|
  {
    if |s.journal| > n {
      var last := |s.journal| - 1;
      UndoKeepsPosition(s.(journal := s.journal[..last]), s.journal[last]);
      UndoToKeepsPosition(Undo(s.(journal := s.journal[..last]), s.journal[last]).state.(journal := s.journal[..last]), n);
    }
  }

  lemma UndoKeepsPosition(s: State, e: Entry)
    requires Undo(s, e).Done?
    ensures SamePosition(s, Undo(s, e).state)
  {
  }

  /** Only Prepare moves the position in the block; reverting does not take it back. */
  lemma OnlyPrepareMoves(s: State, op: Op)
    requires Exec(s, op).Done?
    ensures var t := Exec(s, op).state;
            if op.OpPrepare? then t.thash == op.thash && t.bhash == op.bhash && t.txIndex == op.ti else SamePosition(s, t)
  {
    if op.OpRevert? { UndoToKeepsPosition(s, s.revisions[Find(s.revisions, op.id)].journalIndex); }
  }

  lemma {:induction false} RunKeepsWellFormed(s0: State, ops: seq<Op>)
    requires WellFormed(s0) && Run(s0, ops).Done?
    ensures WellFormed(Run(s0, ops).state)
    decreases |ops|
  {
    if ops != [] {
      RunKeepsWellFormed(s0, ops[..|ops| - 1]);
      ExecKeepsWellFormed(Run(s0, ops[..|ops| - 1]).state, ops[|ops| - 1]);
    }
  }
}
