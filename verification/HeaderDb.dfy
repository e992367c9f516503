/** The HeaderChain object of blockchain/headerchain.go: WriteHeader and SetHead with their loops,
    each proved to take the step that module HeaderChain defines. */
module HeaderDb {
  import opened Chain
  import opened HeaderChain

  datatype WriteResult = Refused | Crashed | Wrote(status: Status)

  class HeaderDb {
    var headers: set<Header>
    var td: map<Header, nat>
    var canon: map<int, Hash>
    var currentHeader: Header
    var genesisHeader: Header

    function View(): Store
      reads this
    {
      Store(headers, td, canon, currentHeader, genesisHeader)
    }

    constructor (genesis: Header)
      requires genesis.number == 0 && genesis.parent.Zero?
      ensures Best(View()) && View().genesis == genesis
    {
      headers, td, canon := {genesis}, map[genesis := genesis.difficulty], map[0 := Of(genesis)];
      currentHeader, genesisHeader := genesis, genesis;
      new;
      GenesisIsBest(genesis);
    }

    /** The first loop of WriteHeader. */
    method DropAbove(start: int)
      modifies this`canon
      ensures canon == DeleteAbove(old(canon), start)
    {
      var i := start;
      while CanonicalHash(canon, i) != Zero
        invariant DeleteAbove(canon, i) == DeleteAbove(old(canon), start)
        decreases |canon|
      {
        canon := canon - {i};
        i := i + 1;
      }
    }

    /** The second loop of WriteHeader; the result is false where it dereferences a nil header. */
    method OverwriteStale(hash: Hash, number: int) returns (ok: bool)
      modifies this`canon
      ensures ok <==> Overwrite(headers, old(canon), hash, number).Index?
      ensures ok ==> canon == Overwrite(headers, old(canon), hash, number).canon
    {
      var headHash, headNumber := hash, number;
      var headHeader := GetHeader(headers, headHash, headNumber);
      while CanonicalHash(canon, headNumber) != headHash
        invariant headHeader == GetHeader(headers, headHash, headNumber)
        invariant Overwrite(headers, canon, headHash, headNumber) == Overwrite(headers, old(canon), hash, number)
        decreases headNumber
      {
        canon := canon[headNumber := headHash];
        if headHeader.None? { return false; }
        headHash, headNumber := headHeader.value.parent, headHeader.value.number - 1;
        headHeader := GetHeader(headers, headHash, headNumber);
      }
      return true;
    }

    /** WriteHeader; Crashed is the nil dereference of its second loop. */
    method WriteHeader(header: Header, coin: bool) returns (r: WriteResult)
      requires currentHeader in td
      modifies this
      ensures match HeaderChain.WriteHeader(old(View()), header, coin)
              case UnknownAncestor => r == Refused && View() == old(View())
              case Panic => r == Crashed
              case Written(store, status) => r == Wrote(status) && View() == store
    {
      var ptd := GetTd(View(), header.parent, header.number - 1);
      if ptd.None? { return Refused; }
      var localTd, externTd := td[currentHeader], header.difficulty + ptd.value;
      td := td[header := externTd];
      headers := headers + {header};
      if externTd > localTd || (externTd == localTd && coin) {
        DropAbove(header.number + 1);
        var ok := OverwriteStale(header.parent, header.number - 1);
        if !ok { return Crashed; }
        canon := canon[header.number := Of(header)];
        currentHeader := header;
        return Wrote(CanonStatTy);
      }
      return Wrote(SideStatTy);
    }

    /** The rewinding loop of SetHead; a missing ancestor leaves the genesis as the current header. */
    method RewindTo(head: nat)
      modifies this`headers, this`td, this`currentHeader
      ensures View() == Rewind(old(View()), head)
    {
      while currentHeader.number > head
        invariant Rewind(View(), head) == Rewind(old(View()), head)
        decreases currentHeader.number
      {
        var h := currentHeader;
        headers := headers - {h};
        td := td - {h};
        var p := GetHeader(headers, h.parent, h.number - 1);
        if p.None? {
          currentHeader := genesisHeader;
          return;
        }
        currentHeader := p.value;
      }
    }

    method SetHead(head: nat)
      modifies this
      ensures View() == HeaderChain.SetHead(old(View()), head)
    {
      var height := currentHeader.number;
      RewindTo(head);
      var i: nat := height;
      while i > head
        invariant DropCanonical(canon, i, head) == DropCanonical(old(canon), height, head)
        invariant View() == Rewind(old(View()), head).(canon := canon)
        decreases i
      {
        canon := canon - {i as int};
        i := i - 1;
      }
    }
  }
}
