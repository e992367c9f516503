/** The relay counters of the four Handle*Msg functions in synctrl/handlemessage.go and the rout* functions of
    synctrl/routdata.go: how one message spreads through a network of nodes. The caches do not evict. */
module Gossip {
  import opened Common

  /** defaultRoutCount. */
  const ROUT_COUNT: nat := 3

  /** peers[n] are the nodes that node n sends to, boot nodes left out. */
  type Net = seq<seq<nat>>

  predicate Closed(net: Net) {
    forall n, m :: 0 <= n < |net| && m in net[n] ==> m < |net|
  }

  /** One message: `credit` holds the counter of every node that has it in its cache, `inflight` the receivers
      of the copies under way. `posted` lists the nodes that gave it to their worker, and `relays` counts how
      often each node has sent it on. */
  datatype State = State(credit: map<nat, nat>, inflight: seq<nat>, posted: seq<nat>, relays: map<nat, nat>)

  function CreditOf(s: State, n: nat): nat {
    if n in s.credit then s.credit[n] else ROUT_COUNT
  }

  function RelaysOf(s: State, n: nat): nat {
    if n in s.relays then s.relays[n] else 0
  }

  /** A handler runs at the receiver of copy `i`. */
  function Handle(net: Net, s: State, i: nat): State
    requires Closed(net) && i < |s.inflight| && s.inflight[i] < |net|
  {
    var n := s.inflight[i];
    var rest := s.inflight[..i] + s.inflight[i + 1..];
    var count := CreditOf(s, n);
    var posted := if n in s.credit then s.posted else s.posted + [n];
    if count > 0 then State(s.credit[n := count - 1], rest + net[n], posted, s.relays[n := RelaysOf(s, n) + 1])
    else s.(inflight := rest, posted := posted)
  }

  // ---------------------------------------------------------------- invariant

  ghost predicate Inv(net: Net, s: State) {
    && Closed(net)
    && (forall k :: 0 <= k < |s.inflight| ==> s.inflight[k] < |net|)
    && NoDup(s.posted) && (forall n: nat :: n in s.posted <==> n in s.credit)
    && (forall n: nat :: n in s.relays <==> n in s.credit)
    && (forall n: nat :: n in s.credit ==> s.relays[n] >= 1 && s.credit[n] + s.relays[n] == ROUT_COUNT)
    && Flooded(net, s)
  }

  /** Every peer of a node that has the message has it too, or it is on the way there. */
  ghost predicate Flooded(net: Net, s: State) {
    forall n: nat, m: nat :: n in s.credit && n < |net| && m in net[n] ==> m in s.credit || m in s.inflight
  }

  lemma StartInv(net: Net, receivers: seq<nat>)
    requires Closed(net) && forall k :: 0 <= k < |receivers| ==> receivers[k] < |net|
    ensures Inv(net, State(map[], receivers, [], map[]))
  {
  }

  lemma Removed(s: seq<nat>, i: nat)
    requires i < |s|
    ensures var rest := s[..i] + s[i + 1..];
            |rest| == |s| - 1 && (forall m: nat :: m in s <==> m in rest || m == s[i])
  {
    assert s == s[..i] + [s[i]] + s[i + 1..];
  }

  lemma HandleKeepsInv(net: Net, s: State, i: nat)
    requires Inv(net, s) && i < |s.inflight|
    ensures Inv(net, Handle(net, s, i))
  {
    var n, t := s.inflight[i], Handle(net, s, i);
    Removed(s.inflight, i);
    forall k | 0 <= k < |t.inflight| ensures t.inflight[k] < |net| {
      assert t.inflight[k] in t.inflight;
      assert t.inflight[k] in s.inflight || t.inflight[k] in net[n];
    }
    forall a: nat, b: nat | a in t.credit && a < |net| && b in net[a] ensures b in t.credit || b in t.inflight {
      if a in s.credit { assert b in s.credit || b in s.inflight; }
    }
  }

  // ---------------------------------------------------------------- the broadcast ends

  /** Unspent credits weighted by the number of peers, of the nodes below n. */
  function Weight(net: Net, s: State, n: nat): nat
    requires n <= |net|
  {
    if n == 0 then 0 else Weight(net, s, n - 1) + CreditOf(s, n - 1) * |net[n - 1]|
  }

  function Measure(net: Net, s: State): nat {
    |s.inflight| + Weight(net, s, |net|)
  }

  lemma {:induction false} WeightAfter(net: Net, s: State, t: State, k: nat, n: nat)
    requires n <= |net| && k < |net|
    requires forall m: nat :: m != k ==> CreditOf(t, m) == CreditOf(s, m)
    requires CreditOf(s, k) == CreditOf(t, k) + 1
    ensures Weight(net, s, n) == Weight(net, t, n) + (if k < n then |net[k]| else 0)
  {
    if n > 0 {
      WeightAfter(net, s, t, k, n - 1);
      if k == n - 1 { OneLess(CreditOf(t, k), |net[k]|); }
    }
  }

  lemma OneLess(c: nat, d: nat)
    ensures (c + 1) * d == c * d + d
  {
  }

  lemma {:induction false} WeightSame(net: Net, s: State, t: State, n: nat)
    requires n <= |net| && forall m: nat :: CreditOf(t, m) == CreditOf(s, m)
    ensures Weight(net, s, n) == Weight(net, t, n)
  {
    if n > 0 { WeightSame(net, s, t, n - 1); }
  }

  /** Every message that is handled lowers the measure by exactly one. */
  lemma HandleLowersMeasure(net: Net, s: State, i: nat)
    requires Inv(net, s) && i < |s.inflight|
    ensures Measure(net, Handle(net, s, i)) == Measure(net, s) - 1
  {
    var n, t := s.inflight[i], Handle(net, s, i);
    Removed(s.inflight, i);
    if CreditOf(s, n) > 0 {
      WeightAfter(net, s, t, n, |net|);
    } else {
      WeightSame(net, s, t, |net|);
    }
  }

  /** The state after the copies at these indexes were handled in turn, if all of them were there. */
  predicate IsRun(net: Net, states: seq<State>, picks: seq<nat>)
    requires Closed(net)
  {
    |states| == |picks| + 1 && forall k: nat :: k < |picks| ==> Takes(net, states[k], picks[k], states[k + 1])
  }

  /** Message `i` is handled. */
  predicate Takes(net: Net, s: State, i: nat, t: State)
    requires Closed(net)
  {
    i < |s.inflight| && s.inflight[i] < |net| && t == Handle(net, s, i)
  }

  /** One broadcast stops: in every order of delivery the number of messages handled is what the measure has
      fallen by, so it is at most the first copies plus three times the number of links. */
  lemma {:induction false} BroadcastEnds(net: Net, states: seq<State>, picks: seq<nat>, k: nat)
    requires Closed(net) && IsRun(net, states, picks) && Inv(net, states[0]) && k <= |picks|
    ensures Inv(net, states[k])
    ensures k == Measure(net, states[0]) - Measure(net, states[k])
    ensures k <= Measure(net, states[0])
  {
    if k > 0 {
      BroadcastEnds(net, states, picks, k - 1);
      assert Takes(net, states[k - 1], picks[k - 1], states[(k - 1) + 1]);
      HandleKeepsInv(net, states[k - 1], picks[k - 1]);
      HandleLowersMeasure(net, states[k - 1], picks[k - 1]);
    }
  }

  function Links(net: Net, n: nat): nat
    requires n <= |net|
  {
    if n == 0 then 0 else Links(net, n - 1) + |net[n - 1]|
  }

  lemma {:induction false} FreshWeight(net: Net, s: State, n: nat)
    requires n <= |net| && s.credit == map[]
    ensures Weight(net, s, n) == 3 * Links(net, n)
  {
    if n > 0 { FreshWeight(net, s, n - 1); }
  }

  /** In numbers: the first copies plus three per link. */
  lemma BroadcastBound(net: Net, receivers: seq<nat>, states: seq<State>, picks: seq<nat>)
    requires Closed(net) && (forall k :: 0 <= k < |receivers| ==> receivers[k] < |net|) && IsRun(net, states, picks)
    requires states[0] == State(map[], receivers, [], map[])
    ensures |picks| <= |receivers| + 3 * Links(net, |net|)
  {
    StartInv(net, receivers);
    BroadcastEnds(net, states, picks, |picks|);
    FreshWeight(net, states[0], |net|);
  }

  // ---------------------------------------------------------------- what a broadcast achieves

  /** At every moment of every run: a node posted the message to its worker at most once, exactly when it has
      handled it, and sent it on between one and three times; other nodes did neither. */
  lemma PostedOnceRelayedThrice(net: Net, states: seq<State>, picks: seq<nat>, k: nat, n: nat)
    requires Closed(net) && IsRun(net, states, picks) && Inv(net, states[0]) && k <= |picks|
    ensures NoDup(states[k].posted)
    ensures n in states[k].posted ==> 1 <= RelaysOf(states[k], n) <= 3
    ensures n !in states[k].posted ==> RelaysOf(states[k], n) == 0
  {
    BroadcastEnds(net, states, picks, k);
  }

  /** A way along the links of the network. */
  predicate Way(net: Net, way: seq<nat>) {
    && way != [] && (forall i :: 0 <= i < |way| ==> way[i] < |net|)
    && forall i :: 0 <= i < |way| - 1 ==> way[i + 1] in net[way[i]]
  }

  /** Some way leads to `n` from one of these nodes. */
  ghost predicate Reachable(net: Net, from: seq<nat>, n: nat) {
    exists way :: Way(net, way) && way[0] in from && way[|way| - 1] == n
  }

  lemma ReachableStep(net: Net, from: seq<nat>, n: nat, m: nat)
    requires Closed(net) && Reachable(net, from, n) && n < |net| && m in net[n]
    ensures Reachable(net, from, m)
  {
    var way :| Way(net, way) && way[0] in from && way[|way| - 1] == n;
    var longer := way + [m];
    assert forall i :: 0 <= i < |way| ==> longer[i] == way[i];
    assert Way(net, longer) && longer[0] in from && longer[|longer| - 1] == m;
  }

  /** The message came only where a way leads from the first receivers, and to each of those or is on its way. */
  ghost predicate Traced(net: Net, receivers: seq<nat>, s: State) {
    && (forall n: nat :: n in s.credit || n in s.inflight ==> Reachable(net, receivers, n))
    && (forall n: nat :: n in receivers ==> n in s.credit || n in s.inflight)
  }

  lemma StartTraced(net: Net, receivers: seq<nat>)
    requires Closed(net) && forall k :: 0 <= k < |receivers| ==> receivers[k] < |net|
    ensures Traced(net, receivers, State(map[], receivers, [], map[]))
  {
    forall n: nat | n in receivers ensures Reachable(net, receivers, n) {
      var way := [n];
      assert Way(net, way) && way[0] in receivers && way[|way| - 1] == n;
    }
  }

  lemma HandleKeepsTraced(net: Net, receivers: seq<nat>, s: State, i: nat)
    requires Inv(net, s) && Traced(net, receivers, s) && i < |s.inflight|
    ensures Traced(net, receivers, Handle(net, s, i))
  {
    var n, t := s.inflight[i], Handle(net, s, i);
    Removed(s.inflight, i);
    assert n in s.inflight;
    forall m: nat | m in t.credit || m in t.inflight ensures Reachable(net, receivers, m) {
      if m !in s.credit && m !in s.inflight { ReachableStep(net, receivers, n, m); }
    }
  }

  lemma {:induction false} RunTraced(net: Net, receivers: seq<nat>, states: seq<State>, picks: seq<nat>, k: nat)
    requires Closed(net) && IsRun(net, states, picks) && Inv(net, states[0]) && Traced(net, receivers, states[0]) && k <= |picks|
    ensures Traced(net, receivers, states[k])
  {
    if k > 0 {
      RunTraced(net, receivers, states, picks, k - 1);
      BroadcastEnds(net, states, picks, k - 1);
      assert Takes(net, states[k - 1], picks[k - 1], states[(k - 1) + 1]);
      HandleKeepsTraced(net, receivers, states[k - 1], picks[k - 1]);
    }
  }

  lemma {:induction false} WayPosts(net: Net, s: State, way: seq<nat>, i: nat)
    requires Inv(net, s) && s.inflight == [] && Way(net, way) && way[0] in s.credit && i < |way|
    ensures way[i] in s.credit
  {
    if i > 0 {
      WayPosts(net, s, way, i - 1);
      assert way[i] in net[way[i - 1]];
    }
  }

  /** What a broadcast achieves, exactly: in every order of delivery, when no copy is under way any more, the
      nodes that posted the message are those a way leads to from the first receivers. */
  lemma PostedAtTheEnd(net: Net, receivers: seq<nat>, states: seq<State>, picks: seq<nat>, n: nat)
    requires Closed(net) && (forall k :: 0 <= k < |receivers| ==> receivers[k] < |net|) && IsRun(net, states, picks)
    requires states[0] == State(map[], receivers, [], map[]) && states[|picks|].inflight == []
    ensures n in states[|picks|].posted <==> Reachable(net, receivers, n)
  {
    var t := states[|picks|];
    StartInv(net, receivers);
    StartTraced(net, receivers);
    BroadcastEnds(net, states, picks, |picks|);
    RunTraced(net, receivers, states, picks, |picks|);
    if Reachable(net, receivers, n) {
      var way :| Way(net, way) && way[0] in receivers && way[|way| - 1] == n;
      WayPosts(net, t, way, |way| - 1);
    }
  }

  // ---------------------------------------------------------------- the handler

  type MsgHash = nat

  /** One of the four handlers with its cache; `posts` are the messages given to the worker. */
  class Handler {
    var cache: map<MsgHash, nat>
    var posts: seq<MsgHash>

    constructor ()
      ensures cache == map[] && posts == []
    {
      cache, posts := map[], [];
    }

    /** HandleWorkProofMsg and its likes; the result says whether the message is sent to the peers. */
    method HandleMsg(hash: MsgHash) returns (relay: bool)
      modifies this
      ensures posts == if hash in old(cache) then old(posts) else old(posts) + [hash]
      ensures relay <==> hash !in old(cache) || old(cache)[hash] > 0
      ensures cache == if !relay then old(cache)
                       else old(cache)[hash := (if hash in old(cache) then old(cache)[hash] else ROUT_COUNT) - 1]
    {
      var count;
      if hash in cache {
        count := cache[hash];
      } else {
        count := ROUT_COUNT;
        posts := posts + [hash];
      }
      relay := count > 0;
      if relay {
        count := count - 1;
        cache := cache[hash := count];
      }
    }
  }
}
