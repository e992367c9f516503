/** blockchain/state as it is: a StateDB whose live objects are heap objects updated in place,
    and a journal whose reset entries hold the replaced object itself. View() reads the heap
    back as a value of StateModel, and every method takes the step StateModel defines. */
module StateDb {
  import opened Common
  import opened StateModel

  class StateObject {
    const address: Address
    const committed: map<Hash, Hash>
    var cachedStorage: map<Hash, Hash>
    var dirtyStorage: map<Hash, Hash>
    var suicided: bool
    var deleted: bool
    var armed: bool

    constructor (address: Address, committed: map<Hash, Hash>)
      ensures this.address == address && Val() == NewObj(committed)
    {
      this.address, this.committed := address, committed;
      cachedStorage, dirtyStorage, suicided, deleted, armed := map[], map[], false, false, true;
    }

    function Val(): Obj
      reads this
    {
      Obj(committed, cachedStorage, dirtyStorage, suicided, deleted, armed)
    }
  }

  /** A journal entry; a reset keeps a reference to the object it replaced. */
  datatype Change = Reset(prev: StateObject) | Plain(entry: Entry)

  class StateDB {
    const trie: map<Address, map<Hash, Hash>>
    var stateObjects: map<Address, StateObject>
    var stateObjectsDirty: set<Address>
    var refund: int
    var thash: Hash
    var bhash: Hash
    var txIndex: int
    var logs: map<Hash, seq<Log>>
    var logSize: int
    var preimages: map<Hash, seq<bv8>>
    var journal: seq<Change>
    var validRevisions: seq<Revision>
    var nextRevisionId: nat
    ghost var Repr: set<StateObject>

    predicate IsLive(o: StateObject)
      reads this
    {
      o.address in stateObjects && stateObjects[o.address] == o
    }

    /** A live object sits under its own address, and an object kept by a reset entry is neither live
        nor kept twice: writing to a live object changes one account and no journal entry. */
    ghost predicate Valid()
      reads this
    {
      && (forall a :: a in stateObjects ==> stateObjects[a] in Repr && stateObjects[a].address == a)
      && (forall i :: 0 <= i < |journal| ==> ValidChange(journal[i]))
      && (forall i, j :: 0 <= i < j < |journal| && journal[i].Reset? && journal[j].Reset? ==> journal[i].prev != journal[j].prev)
    }

    ghost predicate ValidChange(c: Change)
      reads this
    {
      match c
      case Reset(prev) => prev in Repr && !IsLive(prev)
      case Plain(e) => !e.ResetObject?
    }

    ghost function Objects(): map<Address, Obj>
      requires Valid()
      reads this, Repr
    {
      map a | a in stateObjects :: stateObjects[a].Val()
    }

    ghost function Entries(): (es: seq<Entry>)
      requires Valid()
      reads this, Repr
      ensures |es| == |journal|
    {
      seq(|journal|, i requires 0 <= i < |journal| && Valid() reads this, Repr => EntryAt(i))
    }

    ghost function EntryAt(i: nat): Entry
      requires Valid() && i < |journal|
      reads this, Repr
    {
      match journal[i]
      case Reset(prev) => assert ValidChange(journal[i]); ResetObject(prev.address, prev.Val())
      case Plain(e) => e
    }

    ghost function View(): State
      requires Valid()
      reads this, Repr
    {
      State(trie, Objects(), stateObjectsDirty, refund, thash, bhash, txIndex, logs, logSize, preimages,
            Entries(), validRevisions, nextRevisionId)
    }

    constructor (trie: map<Address, map<Hash, Hash>>)
      ensures Valid() && fresh(Repr)
      ensures View() == State(trie, map[], {}, 0, 0, 0, 0, map[], 0, map[], [], [], 0)
      ensures WellFormed(View())
    {
      this.trie := trie;
      stateObjects, stateObjectsDirty, refund, thash, bhash, txIndex := map[], {}, 0, 0, 0, 0;
      logs, logSize, preimages, journal, validRevisions, nextRevisionId := map[], 0, map[], [], [], 0;
      Repr := {};
    }

    /** Putting an object that is in no journal entry under its address. */
    twostate lemma PutValid(o: StateObject)
      requires old(Valid()) && forall i :: 0 <= i < |old(journal)| && old(journal)[i].Reset? ==> old(journal)[i].prev != o
      requires stateObjects == old(stateObjects)[o.address := o] && journal == old(journal) && Repr == old(Repr) + {o}
      ensures Valid()
    {
      forall i | 0 <= i < |journal| ensures ValidChange(journal[i]) {
        assert old(ValidChange(journal[i]));
      }
    }

    twostate lemma ObjectsPut(o: StateObject)
      requires old(Valid()) && Valid() && stateObjects == old(stateObjects)[o.address := o] && unchanged(o)
      requires forall p :: p in old(Repr) ==> unchanged(p)
      ensures Objects() == old(Objects())[o.address := o.Val()]
    {
      forall a | a in old(stateObjects) ensures old(stateObjects)[a].Val() == old(stateObjects[a].Val()) {
        assert old(stateObjects)[a] in old(Repr);
      }
    }

    /** Entries that stay in the journal keep their values when no object they hold changes. */
    twostate lemma EntriesKept()
      requires old(Valid()) && Valid() && |old(journal)| <= |journal| && journal[..|old(journal)|] == old(journal)
      requires forall p :: p in old(Repr) ==> unchanged(p)
      ensures Entries()[..|old(journal)|] == old(Entries())
    {
      forall i: nat | i < |old(journal)| ensures EntryAt(i) == old(EntryAt(i)) {
        assert journal[i] == journal[..|old(journal)|][i];
        assert old(ValidChange(journal[i]));
      }
    }

    /** Nothing that objects and journal are read from changed. */
    twostate lemma HeapKept()
      requires old(Valid()) && stateObjects == old(stateObjects) && journal == old(journal) && Repr == old(Repr)
      requires forall p :: p in Repr ==> unchanged(p)
      ensures Valid() && Objects() == old(Objects()) && Entries() == old(Entries())
    {
      forall i | 0 <= i < |journal| ensures ValidChange(journal[i]) {
        assert old(ValidChange(journal[i]));
      }
      EntriesKept();
    }

    /** setStateObject with an object that is in no journal entry. */
    method SetStateObject(o: StateObject)
      requires Valid()
      requires forall i :: 0 <= i < |journal| && journal[i].Reset? ==> journal[i].prev != o
      modifies this`stateObjects, this`Repr
      ensures Valid() && Repr == old(Repr) + {o}
      ensures View() == Put(old(View()), o.address, o.Val())
      ensures IsLive(o) && stateObjects == old(stateObjects)[o.address := o]
    {
      stateObjects := stateObjects[o.address := o];
      Repr := Repr + {o};
      PutValid(o);
      ObjectsPut(o);
      EntriesKept();
    }

    method GetStateObject(a: Address) returns (o: StateObject?)
      requires Valid()
      modifies this`stateObjects, this`Repr
      ensures Valid() && fresh(Repr - old(Repr))
      ensures View() == Load(old(View()), a)
      ensures o == null <==> Live(old(View()), a).None?
      ensures o != null ==> o.address == a && IsLive(o) && Live(old(View()), a) == Some(o.Val())
    {
      if a in stateObjects {
        if stateObjects[a].deleted { return null; }
        return stateObjects[a];
      }
      if a !in trie { return null; }
      var obj := new StateObject(a, trie[a]);
      SetStateObject(obj);
      return obj;
    }

    method AppendPlain(e: Entry)
      requires Valid() && !e.ResetObject?
      modifies this`journal
      ensures Valid() && View() == Append(old(View()), e)
      ensures journal == old(journal) + [Plain(e)]
    {
      journal := journal + [Plain(e)];
      EntriesKept();
      assert Entries() == old(Entries()) + [e];
    }

    twostate lemma ReplaceValid(o: StateObject)
      requires old(Valid()) && o.address in old(stateObjects) && o !in old(Repr)
      requires stateObjects == old(stateObjects)[o.address := o] && Repr == old(Repr) + {o}
      requires journal == old(journal) + [Reset(old(stateObjects)[o.address])]
      ensures Valid()
    {
      var prev := old(stateObjects)[o.address];
      forall i | 0 <= i < |old(journal)| ensures ValidChange(journal[i]) && journal[i] != Reset(prev) {
        assert old(ValidChange(journal[i]));
      }
    }

    twostate lemma EntriesWithReset(prev: StateObject)
      requires old(Valid()) && Valid() && journal == old(journal) + [Reset(prev)] && unchanged(prev)
      requires forall p :: p in old(Repr) ==> unchanged(p)
      ensures Entries() == old(Entries()) + [ResetObject(prev.address, prev.Val())]
    {
      EntriesKept();
      assert ValidChange(journal[|old(journal)|]);
    }

    /** The reset entry keeps the old object, the new one takes over its address. */
    method ReplaceObject(prev: StateObject, o: StateObject)
      requires Valid() && IsLive(prev) && o !in Repr && o.address == prev.address
      modifies this`stateObjects, this`journal, this`Repr
      ensures Valid() && Repr == old(Repr) + {o}
      ensures View() == Put(Append(old(View()), ResetObject(o.address, prev.Val())), o.address, o.Val())
      ensures IsLive(o)
    {
      stateObjects := stateObjects[o.address := o];
      journal := journal + [Reset(prev)];
      Repr := Repr + {o};
      ReplaceValid(o);
      ObjectsPut(o);
      EntriesWithReset(prev);
    }

    method AddObject(o: StateObject)
      requires Valid() && o !in Repr
      modifies this`stateObjects, this`journal, this`Repr
      ensures Valid() && Repr == old(Repr) + {o}
      ensures View() == Put(Append(old(View()), Entry.CreateObject(o.address)), o.address, o.Val())
      ensures IsLive(o)
    {
      forall i | 0 <= i < |journal| && journal[i].Reset? ensures journal[i].prev != o {
        assert ValidChange(journal[i]);
      }
      AppendPlain(Entry.CreateObject(o.address));
      SetStateObject(o);
    }

    /** createObject. */
    method CreateObject(a: Address) returns (o: StateObject)
      requires Valid()
      modifies this`stateObjects, this`journal, this`Repr
      ensures Valid() && fresh(Repr - old(Repr))
      ensures View() == Create(old(View()), a)
      ensures o.address == a && IsLive(o)
    {
      var prev := GetStateObject(a);
      label loaded:
      o := new StateObject(a, map[]);
      HeapKept@loaded();
      if prev == null {
        AddObject(o);
      } else {
        ReplaceObject(prev, o);
      }
    }

    method GetOrNewStateObject(a: Address) returns (o: StateObject)
      requires Valid()
      modifies this`stateObjects, this`journal, this`Repr
      ensures Valid() && fresh(Repr - old(Repr))
      ensures View() == GetOrNew(old(View()), a)
      ensures o.address == a && IsLive(o)
    {
      var found := GetStateObject(a);
      if found == null {
        o := CreateObject(a);
      } else {
        o := found;
      }
    }

    /** A write to a live object changes its account and nothing else. */
    twostate lemma WriteToLive(o: StateObject)
      requires old(Valid()) && old(IsLive(o))
      requires stateObjects == old(stateObjects) && journal == old(journal) && Repr == old(Repr)
      requires forall p :: p in Repr && p != o ==> unchanged(p)
      ensures Valid()
      ensures Objects() == old(Objects())[o.address := o.Val()]
      ensures Entries() == old(Entries())
    {
      assert forall i :: 0 <= i < |journal| ==> old(ValidChange(journal[i]));
      assert forall i :: 0 <= i < |journal| ==> EntryAt(i) == old(EntryAt(i));
    }

    /** stateObject.GetState. */
    method ReadObject(o: StateObject, key: Hash) returns (value: Hash)
      requires Valid() && IsLive(o)
      modifies o`cachedStorage
      ensures Valid() && o.Val() == CacheRead(old(o.Val()), key)
      ensures View() == Put(old(View()), o.address, o.Val())
      ensures value == ObjGet(old(o.Val()), key)
    {
      if key in o.cachedStorage {
        value := o.cachedStorage[key];
      } else {
        value := if key in o.committed then o.committed[key] else ZERO;
        if value != ZERO {
          o.cachedStorage := o.cachedStorage[key := value];
        }
      }
      WriteToLive(o);
    }

    /** stateObject.setState. */
    method WriteObject(o: StateObject, key: Hash, value: Hash)
      requires Valid() && IsLive(o)
      modifies o, this`stateObjectsDirty
      ensures Valid() && View() == Write(old(View()), o.address, old(o.Val()), key, value)
    {
      o.cachedStorage := o.cachedStorage[key := value];
      o.dirtyStorage := o.dirtyStorage[key := value];
      if o.armed {
        stateObjectsDirty := stateObjectsDirty + {o.address};
        o.armed := false;
      }
      WriteToLive(o);
    }

    /** stateObject.SetState. */
    method SetObjectState(o: StateObject, key: Hash, value: Hash)
      requires Valid() && IsLive(o)
      modifies this`journal, this`stateObjectsDirty, o
      ensures Valid() && View() == SetLive(old(View()), o.address, key, value)
    {
      ghost var v, c := View(), CacheRead(o.Val(), key);
      var prevalue := ReadObject(o, key);
      AppendPlain(StorageChange(o.address, key, prevalue));
      WriteObject(o, key, value);
      SetLiveSteps(v, o.address, key, value, c);
    }

    method SetState(a: Address, key: Hash, value: Hash)
      requires Valid()
      modifies this, Repr
      ensures Valid() && fresh(Repr - old(Repr))
      ensures View() == StateModel.SetState(old(View()), a, key, value)
    {
      var o := GetOrNewStateObject(a);
      SetObjectState(o, key, value);
    }

    lemma SetLiveSteps(v: State, a: Address, key: Hash, value: Hash, c: Obj)
      requires a in v.objects && c == CacheRead(v.objects[a], key)
      ensures Write(Append(Put(v, a, c), StorageChange(a, key, ObjGet(v.objects[a], key))), a, c, key, value)
           == SetLive(v, a, key, value)
    {
      var s := Append(v, StorageChange(a, key, ObjGet(c, key)));
      var w := c.(cached := c.cached[key := value], dirty := c.dirty[key := value], armed := false);
      assert v.objects[a := c][a := w] == v.objects[a := w];
    }

    method GetState(a: Address, key: Hash) returns (value: Hash)
      requires Valid()
      modifies this`stateObjects, this`Repr, Repr
      ensures Valid() && fresh(Repr - old(Repr))
      ensures View() == ReadState(old(View()), a, key)
      ensures value == StateModel.GetState(old(View()), a, key)
    {
      var o := GetStateObject(a);
      if o == null { return ZERO; }
      value := ReadObject(o, key);
    }

    method Suicide(a: Address) returns (ok: bool)
      requires Valid()
      modifies this, Repr
      ensures Valid() && fresh(Repr - old(Repr))
      ensures View() == StateModel.Suicide(old(View()), a)
      ensures ok == Exist(old(View()), a)
    {
      var o := GetStateObject(a);
      if o == null { return false; }
      AppendPlain(SuicideChange(a, o.suicided));
      ghost var v := View();
      MarkSuicided(o);
      return true;
    }

    method MarkSuicided(o: StateObject)
      requires Valid() && IsLive(o)
      modifies o, this`stateObjectsDirty
      ensures Valid() && View() == StateModel.MarkSuicided(old(View()), o.address, old(o.Val()))
    {
      o.suicided := true;
      if o.armed {
        stateObjectsDirty := stateObjectsDirty + {o.address};
        o.armed := false;
      }
      WriteToLive(o);
    }

    method AddRefund(gas: int)
      requires Valid()
      modifies this
      ensures Valid() && View() == StateModel.AddRefund(old(View()), gas)
    {
      AppendPlain(RefundChange(refund));
      label appended:
      refund := refund + gas;
      HeapKept@appended();
    }

    method Snapshot() returns (id: nat)
      requires Valid()
      modifies this`validRevisions, this`nextRevisionId
      ensures Valid() && View() == StateModel.Snapshot(old(View())) && id == old(nextRevisionId)
    {
      id := nextRevisionId;
      nextRevisionId := nextRevisionId + 1;
      validRevisions := validRevisions + [Revision(id, |journal|)];
      HeapKept();
    }

    method AddLog(data: seq<bv8>)
      requires Valid()
      modifies this
      ensures Valid() && View() == StateModel.AddLog(old(View()), data)
    {
      var log := Log(data, thash, bhash, txIndex, logSize);
      AppendPlain(AddLogChange(thash));
      label appended:
      logs := logs[thash := LogsAt(logs, thash) + [log]];
      logSize := logSize + 1;
      HeapKept@appended();
    }

    method AddPreimage(hash: Hash, preimage: seq<bv8>)
      requires Valid()
      modifies this
      ensures Valid() && View() == StateModel.AddPreimage(old(View()), hash, preimage)
    {
      if hash !in preimages {
        AppendPlain(AddPreimageChange(hash));
        label appended:
        preimages := preimages[hash := preimage];
        HeapKept@appended();
      }
    }

    // -------------------------------------------------------------- undo

    ghost function ChangeVal(c: Change): Entry
      reads if c.Reset? then {c.prev} else {}
    {
      match c
      case Reset(prev) => ResetObject(prev.address, prev.Val())
      case Plain(e) => e
    }

    /** The journal entry's undo method, for an entry taken off the journal. */
    method UndoChange(c: Change)
      requires Valid() && ValidChange(c)
      requires forall i :: 0 <= i < |journal| && journal[i].Reset? ==> journal[i] != c
      requires Undo(View(), ChangeVal(c)).Done?
      modifies this, Repr
      ensures Valid() && fresh(Repr - old(Repr)) && journal == old(journal)
      ensures View() == Undo(old(View()), old(ChangeVal(c))).state
    {
      match c
      case Reset(prev) =>
        SetStateObject(prev);
      case Plain(e) =>
        match e {
          case CreateObject(a) => UndoCreate(a);
          case SuicideChange(a, was) => UndoSuicide(a, was);
          case StorageChange(a, key, prevalue) =>
            var o := GetStateObject(a);
            WriteObject(o, key, prevalue);
          case RefundChange(r) =>
            UndoRecords(r, logs, logSize, preimages);
          case AddLogChange(h) =>
            var ls := LogsAt(logs, h);
            UndoRecords(refund, if |ls| == 1 then logs - {h} else logs[h := ls[..|ls| - 1]], logSize - 1, preimages);
          case AddPreimageChange(h) =>
            UndoRecords(refund, logs, logSize, preimages - {h});
        }
    }

    method UndoCreate(a: Address)
      requires Valid()
      modifies this`stateObjects, this`stateObjectsDirty
      ensures Valid() && View() == Undo(old(View()), Entry.CreateObject(a)).state
    {
      stateObjects := stateObjects - {a};
      stateObjectsDirty := stateObjectsDirty - {a};
      assert forall i :: 0 <= i < |journal| ==> old(ValidChange(journal[i]));
      assert Objects() == old(Objects()) - {a};
      assert forall i :: 0 <= i < |journal| ==> EntryAt(i) == old(EntryAt(i));
      assert Entries() == old(Entries());
    }

    method UndoSuicide(a: Address, was: bool)
      requires Valid()
      modifies this`stateObjects, this`Repr, Repr
      ensures Valid() && fresh(Repr - old(Repr))
      ensures View() == Undo(old(View()), SuicideChange(a, was)).state
    {
      var o := GetStateObject(a);
      if o != null {
        label loaded:
        o.suicided := was;
        WriteToLive@loaded(o);
      }
    }

    method UndoRecords(r: int, ls: map<Hash, seq<Log>>, size: int, ps: map<Hash, seq<bv8>>)
      requires Valid()
      modifies this`refund, this`logs, this`logSize, this`preimages
      ensures Valid() && View() == old(View()).(refund := r, logs := ls, logSize := size, preimages := ps)
    {
      refund, logs, logSize, preimages := r, ls, size, ps;
      HeapKept();
    }

    /** Takes the last entry off the journal. */
    method Pop() returns (c: Change)
      requires Valid() && journal != []
      modifies this`journal
      ensures Valid() && ValidChange(c) && journal == old(journal)[..|old(journal)| - 1]
      ensures c == old(journal)[|old(journal)| - 1]
      ensures forall i :: 0 <= i < |journal| && journal[i].Reset? ==> journal[i] != c
      ensures View() == old(View()).(journal := old(View()).journal[..|old(journal)| - 1])
      ensures ChangeVal(c) == old(View()).journal[|old(journal)| - 1]
    {
      var last := |journal| - 1;
      c := journal[last];
      assert ChangeVal(c) == EntryAt(last);
      journal := journal[..last];
      assert forall i :: 0 <= i < |journal| ==> EntryAt(i) == old(EntryAt(i));
      assert Entries() == old(Entries())[..last];
    }

    /** Undoes the last entry and drops it. */
    method UndoLast()
      requires Valid() && journal != []
      requires UndoTo(View(), |journal| - 1).Done?
      modifies this, Repr
      ensures Valid() && fresh(Repr - old(Repr))
      ensures Done(View()) == UndoTo(old(View()), |old(journal)| - 1)
    {
      UndoOne(View());
      var c := Pop();
      UndoFrame(View(), ChangeVal(c));
      UndoChange(c);
    }

    lemma UndoOne(v: State)
      requires v.journal != []
      ensures var last := |v.journal| - 1;
              var u := Undo(v.(journal := v.journal[..last]), v.journal[last]);
              UndoTo(v, last) == if u.Panic? then Panic else Done(u.state.(journal := v.journal[..last]))
    {
    }

    /** The undo loop of RevertToSnapshot. The entries leave the journal one by one as they are undone,
        which undo cannot observe. */
    method UndoJournal(snapshot: nat)
      requires Valid() && snapshot <= |journal|
      requires UndoTo(View(), snapshot).Done?
      modifies this, Repr
      ensures Valid() && fresh(Repr - old(Repr))
      ensures Done(View()) == UndoTo(old(View()), snapshot)
    {
      while |journal| > snapshot
        invariant Valid() && fresh(Repr - old(Repr))
        invariant |journal| >= snapshot
        invariant UndoTo(View(), snapshot) == UndoTo(old(View()), snapshot)
        decreases |journal|
      {
        UndoToCompose(View(), |journal| - 1, snapshot);
        UndoToCuts(View(), |journal| - 1);
        UndoLast();
      }
    }

    /** RevertToSnapshot: the result is false where the source panics. */
    method RevertToSnapshot(id: nat) returns (ok: bool)
      requires Valid() && WellFormed(View())
      modifies this, Repr
      ensures Valid() && fresh(Repr - old(Repr))
      ensures ok <==> IsValid(old(validRevisions), id)
      ensures ok ==> StateModel.RevertToSnapshot(old(View()), id) == Done(View())
      ensures !ok ==> View() == old(View())
    {
      FindValid(validRevisions, id);
      var idx := Find(validRevisions, id);
      if idx == |validRevisions| || validRevisions[idx].id != id { return false; }
      var snapshot := validRevisions[idx].journalIndex;
      WellFormedUndoes(View(), snapshot);
      UndoToCuts(View(), snapshot);
      UndoJournal(snapshot);
      SetRevisions(validRevisions[..idx]);
      return true;
    }

    method SetRevisions(rs: seq<Revision>)
      requires Valid()
      modifies this`validRevisions
      ensures Valid() && View() == old(View()).(revisions := rs)
    {
      validRevisions := rs;
      HeapKept();
    }
  }
}
