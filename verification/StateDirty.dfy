/** The set of dirty objects of blockchain/state/statedb.go through every history of operations, snapshots and
    reverts: CommitTo and Finalise look at the objects of this set only, so an object that was changed must be in
    it, also after its change was undone in part or its replacement was taken back. */
module StateDirty {
  import opened Common
  import opened StateModel

  /** The account an entry is about. */
  function AccountOf(e: Entry): Option<Address> {
    match e
    case CreateObject(a) => Some(a)
    case ResetObject(a, _) => Some(a)
    case SuicideChange(a, _) => Some(a)
    case StorageChange(a, _, _) => Some(a)
    case _ => None
  }

  /** An object that was changed has told so: its onDirty callback has fired. */
  predicate Told(o: Obj) {
    o.dirty != map[] || o.suicided ==> !o.armed
  }

  /** An object whose callback has fired is marked, and only objects are marked. */
  ghost predicate ObjectsMarked(objects: map<Address, Obj>, dirty: set<Address>) {
    && (forall a :: a in objects ==> Told(objects[a]) && (!objects[a].armed ==> a in dirty))
    && dirty <= objects.Keys
  }

  /** The account of an entry is live, and the object a reset keeps is marked if it has to be. */
  predicate EntryMarked(objects: map<Address, Obj>, dirty: set<Address>, e: Entry) {
    && (AccountOf(e).Some? ==> AccountOf(e).value in objects && !objects[AccountOf(e).value].deleted)
    && (e.ResetObject? ==> !e.prev.deleted && Told(e.prev) && (!e.prev.armed ==> e.account in dirty))
  }

  predicate EntriesMarked(objects: map<Address, Obj>, dirty: set<Address>, journal: seq<Entry>) {
    forall i :: 0 <= i < |journal| ==> EntryMarked(objects, dirty, journal[i])
  }

  /** Nothing was journaled about an account before it was created. */
  predicate CreatedFirst(journal: seq<Entry>) {
    forall i, j :: 0 <= i < j < |journal| && journal[j].CreateObject? ==> AccountOf(journal[i]) != Some(journal[j].account)
  }

  predicate ArmedNow(objects: map<Address, Obj>, a: Address) {
    a in objects && objects[a].armed
  }

  predicate Resets(e: Entry, a: Address) {
    e.ResetObject? && e.account == a
  }

  /** Whether the object that `a` had when the journal was `i` long is armed: it is kept by the next reset of `a`, or
      still live. */
  predicate ArmedAt(objects: map<Address, Obj>, journal: seq<Entry>, a: Address, i: nat)
    decreases |journal| - i
  {
    if i >= |journal| then ArmedNow(objects, a)
    else if Resets(journal[i], a) then journal[i].prev.armed
    else ArmedAt(objects, journal, a, i + 1)
  }

  predicate SuicidesTold(objects: map<Address, Obj>, journal: seq<Entry>) {
    forall i :: 0 <= i < |journal| && journal[i].SuicideChange? ==> !ArmedAt(objects, journal, journal[i].account, i + 1)
  }

  ghost predicate Marks(objects: map<Address, Obj>, dirty: set<Address>, journal: seq<Entry>) {
    ObjectsMarked(objects, dirty) && EntriesMarked(objects, dirty, journal) && CreatedFirst(journal) && SuicidesTold(objects, journal)
  }

  ghost predicate Marked(s: State) {
    Marks(s.objects, s.dirty, s.journal)
  }

  lemma NewIsMarked(trie: map<Address, map<Hash, Hash>>)
    ensures Marked(State(trie, map[], {}, 0, 0, 0, 0, map[], 0, map[], [], [], 0))
  {
  }

  // ---------------------------------------------------------------- one entry more or less

  /** The flag with one entry more, if the object at the end is kept by it or not armed newly. */
  lemma {:induction false} ArmedAppend(before: map<Address, Obj>, after: map<Address, Obj>, journal: seq<Entry>, e: Entry, a: Address, i: nat)
    requires i <= |journal|
    requires (if Resets(e, a) then e.prev.armed else ArmedNow(after, a)) ==> ArmedNow(before, a)
    ensures ArmedAt(after, journal + [e], a, i) ==> ArmedAt(before, journal, a, i)
    decreases |journal| - i
  {
    var longer := journal + [e];
    if i < |journal| {
      assert longer[i] == journal[i];
      ArmedAppend(before, after, journal, e, a, i + 1);
    } else {
      assert longer[i] == e;
      assert !Resets(e, a) ==> ArmedAt(after, longer, a, i) == ArmedAt(after, longer, a, i + 1);
    }
  }

  /** The same with one entry less. */
  lemma {:induction false} ArmedDrop(before: map<Address, Obj>, after: map<Address, Obj>, journal: seq<Entry>, e: Entry, a: Address, i: nat)
    requires i <= |journal|
    requires ArmedNow(after, a) ==> if Resets(e, a) then e.prev.armed else ArmedNow(before, a)
    ensures ArmedAt(after, journal, a, i) ==> ArmedAt(before, journal + [e], a, i)
    decreases |journal| - i
  {
    var longer := journal + [e];
    if i < |journal| {
      assert longer[i] == journal[i];
      ArmedDrop(before, after, journal, e, a, i + 1);
    } else {
      assert longer[i] == e;
      assert !Resets(e, a) ==> ArmedAt(before, longer, a, i) == ArmedAt(before, longer, a, i + 1);
    }
  }

  /** Changing objects alone. */
  lemma {:induction false} ArmedSame(before: map<Address, Obj>, after: map<Address, Obj>, journal: seq<Entry>, a: Address, i: nat)
    requires ArmedNow(after, a) ==> ArmedNow(before, a)
    ensures ArmedAt(after, journal, a, i) ==> ArmedAt(before, journal, a, i)
    decreases |journal| - i
  {
    if i < |journal| { ArmedSame(before, after, journal, a, i + 1); }
  }

  // ---------------------------------------------------------------- operations

  /** Every live object stays live, marks are kept, and no object of an entry is armed newly. */
  ghost predicate Grows(before: map<Address, Obj>, after: map<Address, Obj>, dirty: set<Address>, more: set<Address>) {
    && dirty <= more
    && (forall a :: a in before && !before[a].deleted ==> a in after && !after[a].deleted && (after[a].armed ==> before[a].armed))
  }

  lemma ChangeMarks(before: map<Address, Obj>, after: map<Address, Obj>, dirty: set<Address>, more: set<Address>, journal: seq<Entry>)
    requires Marks(before, dirty, journal) && ObjectsMarked(after, more) && Grows(before, after, dirty, more)
    ensures Marks(after, more, journal)
  {
    forall i | 0 <= i < |journal| ensures EntryMarked(after, more, journal[i]) {
      assert EntryMarked(before, dirty, journal[i]);
    }
    forall i | 0 <= i < |journal| && journal[i].SuicideChange? ensures !ArmedAt(after, journal, journal[i].account, i + 1) {
      assert EntryMarked(before, dirty, journal[i]);
      ArmedSame(before, after, journal, journal[i].account, i + 1);
    }
  }

  /** An entry about no account, or about one that is live. */
  lemma PlainEntryMarks(objects: map<Address, Obj>, dirty: set<Address>, journal: seq<Entry>, e: Entry)
    requires Marks(objects, dirty, journal) && !e.CreateObject? && !e.ResetObject?
    requires AccountOf(e).Some? ==> AccountOf(e).value in objects && !objects[AccountOf(e).value].deleted
    requires e.SuicideChange? ==> !objects[e.account].armed
    ensures Marks(objects, dirty, journal + [e])
  {
    var longer := journal + [e];
    forall i | 0 <= i < |longer| && longer[i].SuicideChange? ensures !ArmedAt(objects, longer, longer[i].account, i + 1) {
      if i < |journal| {
        assert longer[i] == journal[i];
        ArmedAppend(objects, objects, journal, e, longer[i].account, i + 1);
      }
    }
  }

  lemma LoadMarks(s: State, a: Address)
    requires Marked(s)
    ensures Marked(Load(s, a))
  {
    ChangeMarks(s.objects, Load(s, a).objects, s.dirty, s.dirty, s.journal);
  }

  lemma ReadMarks(s: State, a: Address, key: Hash)
    requires Marked(s)
    ensures Marked(ReadState(s, a, key))
  {
    if Live(s, a).Some? {
      LoadMarks(s, a);
      var objects := Load(s, a).objects;
      ChangeMarks(objects, objects[a := CacheRead(objects[a], key)], s.dirty, s.dirty, s.journal);
    }
  }

  /** A new account: nothing was journaled about it. */
  lemma NewAccountMarks(s: State, a: Address)
    requires Marked(s) && Live(s, a).None?
    ensures Marked(Create(s, a))
  {
    var t, e := Create(s, a), Entry.CreateObject(a);
    assert t.journal == s.journal + [e];
    forall i | 0 <= i < |s.journal| ensures AccountOf(s.journal[i]) != Some(a) && EntryMarked(t.objects, t.dirty, s.journal[i]) {
      assert EntryMarked(s.objects, s.dirty, s.journal[i]);
    }
    forall i | 0 <= i < |t.journal| && t.journal[i].SuicideChange? ensures !ArmedAt(t.objects, t.journal, t.journal[i].account, i + 1) {
      assert t.journal[i] == s.journal[i] && AccountOf(s.journal[i]) != Some(a);
      ArmedAppend(s.objects, t.objects, s.journal, e, t.journal[i].account, i + 1);
    }
  }

  /** A replaced account: the reset keeps the object with what it has told. */
  lemma ReplacedMarks(s: State, a: Address)
    requires Marked(s) && a in s.objects && !s.objects[a].deleted
    ensures Marked(Create(s, a))
  {
    var t, e := Create(s, a), ResetObject(a, s.objects[a]);
    assert t.journal == s.journal + [e];
    forall i | 0 <= i < |s.journal| ensures EntryMarked(t.objects, t.dirty, s.journal[i]) {
      assert EntryMarked(s.objects, s.dirty, s.journal[i]);
    }
    forall i | 0 <= i < |t.journal| && t.journal[i].SuicideChange? ensures !ArmedAt(t.objects, t.journal, t.journal[i].account, i + 1) {
      assert t.journal[i] == s.journal[i];
      ArmedAppend(s.objects, t.objects, s.journal, e, t.journal[i].account, i + 1);
    }
  }

  lemma CreateMarks(s: State, a: Address)
    requires Marked(s)
    ensures Marked(Create(s, a))
  {
    LoadMarks(s, a);
    if Live(s, a).None? {
      NewAccountMarks(s, a);
    } else {
      ReplacedMarks(Load(s, a), a);
      assert Create(Load(s, a), a) == Create(s, a);
    }
  }

  lemma GetOrNewMarks(s: State, a: Address)
    requires Marked(s)
    ensures Marked(GetOrNew(s, a))
    ensures a in GetOrNew(s, a).objects && !GetOrNew(s, a).objects[a].deleted
  {
    if Live(s, a).None? { CreateMarks(s, a); } else { LoadMarks(s, a); }
  }

  lemma SetStateMarks(s: State, a: Address, key: Hash, value: Hash)
    requires Marked(s)
    ensures Marked(SetState(s, a, key, value))
  {
    GetOrNewMarks(s, a);
    var g, t := GetOrNew(s, a), SetState(s, a, key, value);
    ChangeMarks(g.objects, t.objects, g.dirty, t.dirty, g.journal);
    PlainEntryMarks(t.objects, t.dirty, g.journal, t.journal[|g.journal|]);
  }

  lemma SuicideMarks(s: State, a: Address)
    requires Marked(s)
    ensures Marked(Suicide(s, a))
  {
    if Live(s, a).Some? {
      LoadMarks(s, a);
      var l, t := Load(s, a), Suicide(s, a);
      var marked := l.objects[a].(suicided := true, armed := false);
      assert t.objects == l.objects[a := marked];
      ChangeMarks(l.objects, t.objects, l.dirty, t.dirty, l.journal);
      PlainEntryMarks(t.objects, t.dirty, l.journal, SuicideChange(a, l.objects[a].suicided));
    }
  }

  /** Refund, log and preimage. */
  lemma RecordMarks(s: State, t: State)
    requires Marked(s) && t.objects == s.objects && t.dirty == s.dirty
    requires t.journal == s.journal || (|t.journal| == |s.journal| + 1 && t.journal[..|s.journal|] == s.journal && AccountOf(t.journal[|s.journal|]).None?)
    ensures Marked(t)
  {
    if t.journal != s.journal {
      PlainEntryMarks(s.objects, s.dirty, s.journal, t.journal[|s.journal|]);
      assert t.journal == s.journal + [t.journal[|s.journal|]];
    }
  }

  // ---------------------------------------------------------------- undo

  lemma UndoneCreate(s: State, front: seq<Entry>, a: Address)
    requires Marked(s) && s.journal == front + [Entry.CreateObject(a)]
    ensures Marks(s.objects - {a}, s.dirty - {a}, front)
  {
    var objects, e := s.objects - {a}, Entry.CreateObject(a);
    forall i | 0 <= i < |front| ensures AccountOf(front[i]) != Some(a) && EntryMarked(objects, s.dirty - {a}, front[i]) {
      assert s.journal[i] == front[i] && s.journal[|front|] == e && EntryMarked(s.objects, s.dirty, s.journal[i]);
    }
    forall i | 0 <= i < |front| && front[i].SuicideChange? ensures !ArmedAt(objects, front, front[i].account, i + 1) {
      assert s.journal[i] == front[i];
      ArmedDrop(s.objects, objects, front, e, front[i].account, i + 1);
    }
    FrontCreatedFirst(front, e);
  }

  lemma FrontCreatedFirst(front: seq<Entry>, e: Entry)
    requires CreatedFirst(front + [e])
    ensures CreatedFirst(front)
  {
    var journal := front + [e];
    assert forall i :: 0 <= i < |front| ==> front[i] == journal[i];
  }

  lemma UndonePut(s: State, front: seq<Entry>, e: Entry, o: Obj, dirty: set<Address>)
    requires Marked(s) && s.journal == front + [e] && AccountOf(e).Some? && !e.CreateObject? && !o.deleted && Told(o)
    requires s.dirty <= dirty <= s.dirty + {AccountOf(e).value} && (!o.armed ==> AccountOf(e).value in dirty)
    requires o.armed ==> if e.ResetObject? then e.prev.armed else ArmedNow(s.objects, AccountOf(e).value)
    ensures Marks(s.objects[AccountOf(e).value := o], dirty, front)
  {
    var a := AccountOf(e).value;
    var objects := s.objects[a := o];
    assert s.journal[|front|] == e && EntryMarked(s.objects, s.dirty, e);
    forall i | 0 <= i < |front| ensures EntryMarked(objects, dirty, front[i]) {
      assert s.journal[i] == front[i] && EntryMarked(s.objects, s.dirty, s.journal[i]);
    }
    forall i | 0 <= i < |front| && front[i].SuicideChange? ensures !ArmedAt(objects, front, front[i].account, i + 1) {
      assert s.journal[i] == front[i];
      ArmedDrop(s.objects, objects, front, e, front[i].account, i + 1);
    }
    FrontCreatedFirst(front, e);
  }

  lemma UndonePlain(s: State, front: seq<Entry>, e: Entry)
    requires Marked(s) && s.journal == front + [e] && AccountOf(e).None?
    ensures Marks(s.objects, s.dirty, front)
  {
    forall i | 0 <= i < |front| ensures EntryMarked(s.objects, s.dirty, front[i]) {
      assert s.journal[i] == front[i];
    }
    forall i | 0 <= i < |front| && front[i].SuicideChange? ensures !ArmedAt(s.objects, front, front[i].account, i + 1) {
      assert s.journal[i] == front[i];
      ArmedDrop(s.objects, s.objects, front, e, front[i].account, i + 1);
    }
    FrontCreatedFirst(front, e);
  }

  lemma UndoMarks(s: State, front: seq<Entry>, e: Entry)
    requires Marked(s) && s.journal == front + [e] && Undo(s.(journal := front), e).Done?
    ensures Marked(Undo(s.(journal := front), e).state.(journal := front))
  {
    assert s.journal[|front|] == e && EntryMarked(s.objects, s.dirty, e);
    var t := Undo(s.(journal := front), e).state;
    match e {
      case CreateObject(a) => UndoneCreate(s, front, a);
      case ResetObject(a, prev) => UndonePut(s, front, e, prev, s.dirty);
      case SuicideChange(a, was) =>
        assert !ArmedAt(s.objects, s.journal, a, |front| + 1);
        UndonePut(s, front, e, s.objects[a].(suicided := was), s.dirty);
      case StorageChange(a, k, v) => UndonePut(s, front, e, t.objects[a], t.dirty);
      case _ => UndonePlain(s, front, e);
    }
  }

  lemma {:induction false} UndoToMarks(s: State, n: nat)
    requires Marked(s) && UndoTo(s, n).Done?
    ensures Marked(UndoTo(s, n).state)
    decreases |s.journal|
  {
    if |s.journal| > n {
      var last := |s.journal| - 1;
      var front, e := s.journal[..last], s.journal[last];
      assert s.journal == front + [e];
      UndoMarks(s, front, e);
      UndoToMarks(Undo(s.(journal := front), e).state.(journal := front), n);
    }
  }

  // ---------------------------------------------------------------- histories

  lemma ExecMarks(s: State, op: Op)
    requires Marked(s) && Exec(s, op).Done?
    ensures Marked(Exec(s, op).state)
  {
    match op
    case OpGetOrNew(a) => GetOrNewMarks(s, a);
    case OpSetState(a, k, v) => SetStateMarks(s, a, k, v);
    case OpCreateAccount(a) => CreateMarks(s, a);
    case OpSuicide(a) => SuicideMarks(s, a);
    case OpAddRefund(g) => RecordMarks(s, AddRefund(s, g));
    case OpAddLog(d) => RecordMarks(s, AddLog(s, d));
    case OpAddPreimage(h, p) => RecordMarks(s, AddPreimage(s, h, p));
    case OpPrepare(_, _, _) =>
    case OpLoad(a) => LoadMarks(s, a);
    case OpGetState(a, k) => ReadMarks(s, a, k);
    case OpSnapshot =>
    case OpRevert(id) => UndoToMarks(s, s.revisions[Find(s.revisions, id)].journalIndex);
  }

  lemma {:induction false} RunMarks(s: State, ops: seq<Op>)
    requires Marked(s) && Run(s, ops).Done?
    ensures Marked(Run(s, ops).state)
    decreases |ops|
  {
    if ops != [] {
      RunMarks(s, ops[..|ops| - 1]);
      ExecMarks(Run(s, ops[..|ops| - 1]).state, ops[|ops| - 1]);
    }
  }

  /** In every history from a new state database, through any nesting of snapshots and reverts: an object with
      uncommitted storage or the suicided flag is in the set that is committed, and this set names live objects only. */
  lemma ChangedIsMarked(trie: map<Address, map<Hash, Hash>>, ops: seq<Op>, a: Address)
    requires var s0 := State(trie, map[], {}, 0, 0, 0, 0, map[], 0, map[], [], [], 0); Run(s0, ops).Done?
    ensures var s := Run(State(trie, map[], {}, 0, 0, 0, 0, map[], 0, map[], [], [], 0), ops).state;
            && (a in s.objects && (s.objects[a].dirty != map[] || s.objects[a].suicided) ==> a in s.dirty)
            && (a in s.dirty ==> a in s.objects)
  {
    NewIsMarked(trie);
    RunMarks(State(trie, map[], {}, 0, 0, 0, 0, map[], 0, map[], [], [], 0), ops);
  }
}
