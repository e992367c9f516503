/** The order of sections on their way through the sub-matchers: what is still to come out of the chain, and that
    moving a section along does not change it. A sub-matcher is any function that makes of a section one to send
    on or none. */
module PipelineOrder {
  import opened Pipeline

  /** `pass(r, item)` is what sub-matcher `r` makes of a section. */
  datatype Line = Line(stages: nat, pass: (nat, Item) -> seq<Item>, emits: Item -> seq<nat>)

  // ---------------------------------------------------------------- what is still to come

  /** What a section comes to that is to pass the sub-matchers from `r` on. */
  function Comes(l: Line, r: nat, item: Item): seq<nat>
    requires r <= l.stages
    decreases l.stages - r, 1, 0
  {
    if r == l.stages then l.emits(item) else Flat(l, r + 1, l.pass(r, item))
  }

  function Flat(l: Line, r: nat, items: seq<Item>): seq<nat>
    requires r <= l.stages
    decreases l.stages - r, 2, |items|
  {
    if items == [] then [] else Comes(l, r, items[0]) + Flat(l, r, items[1..])
  }

  lemma {:induction false} FlatAppend(l: Line, r: nat, a: seq<Item>, b: seq<Item>)
    requires r <= l.stages
    ensures Flat(l, r, a + b) == Flat(l, r, a) + Flat(l, r, b)
    decreases |a|
  {
    if a == [] {
      assert a + b == b;
    } else {
      FlatAppend(l, r, a[1..], b);
      assert (a + b)[1..] == a[1..] + b;
    }
  }

  lemma FlatOne(l: Line, r: nat, item: Item)
    requires r <= l.stages
    ensures Flat(l, r, [item]) == Comes(l, r, item)
  {
    assert [item][1..] == [];
  }

  /** The sections within a sub-matcher and those in its channel, in order. */
  function HeldIn(g: Stage, channel: seq<Item>): seq<Item> {
    (if g.gather.Gathering? then [g.gather.item] else []) + g.process + (if g.mux.Sending? then [g.mux.item] else []) + channel
  }

  lemma TakeHeld(g: Stage, channel: seq<Item>)
    requires g.mux.Waiting? && channel != []
    ensures HeldIn(g.(mux := Sending(channel[0], 0)), channel[1..]) == HeldIn(g, channel)
  {
    assert channel == [channel[0]] + channel[1..];
  }

  lemma PassHeld(g: Stage, channel: seq<Item>)
    requires g.mux.Sending?
    ensures HeldIn(g.(process := g.process + [g.mux.item], mux := Waiting), channel) == HeldIn(g, channel)
  {
  }

  lemma BeginHeld(g: Stage, channel: seq<Item>, h: Gather)
    requires g.gather.Resting? && g.process != [] && h.Gathering? && h.item == g.process[0]
    ensures HeldIn(g.(process := g.process[1..], gather := h), channel) == HeldIn(g, channel)
  {
    assert g.process == [g.process[0]] + g.process[1..];
  }

  /** The sections sub-matcher `r` has not sent on, in order; at the end of the chain those in the channel. */
  function Held(s: State, r: nat): seq<Item>
    requires r < |s.channels| == |s.stages| + 1
  {
    if r == |s.stages| then s.channels[r] else HeldIn(s.stages[r], s.channels[r])
  }

  function AllHeld(s: State): (held: seq<seq<Item>>)
    requires |s.channels| == |s.stages| + 1
    ensures |held| == |s.channels|
  {
    seq(|s.channels|, r requires 0 <= r < |s.channels| => Held(s, r))
  }

  /** `flat(r)`, then `flat(r - 1)` and so on, and `rest` at the end. */
  function Stack(flat: nat -> seq<nat>, rest: seq<nat>, r: nat): seq<nat> {
    flat(r) + (if r == 0 then rest else Stack(flat, rest, r - 1))
  }

  lemma {:induction false} StackFrom(f: nat -> seq<nat>, g: nat -> seq<nat>, x: seq<nat>, y: seq<nat>, k: nat, r: nat)
    requires k <= r && Stack(f, x, k) == Stack(g, y, k) && forall i: nat :: k < i <= r ==> f(i) == g(i)
    ensures Stack(f, x, r) == Stack(g, y, r)
    decreases r
  {
    if k < r { StackFrom(f, g, x, y, k, r - 1); }
  }

  lemma {:induction false} StackBelow(f: nat -> seq<nat>, g: nat -> seq<nat>, x: seq<nat>, r: nat)
    requires forall i: nat :: i <= r ==> f(i) == g(i)
    ensures Stack(f, x, r) == Stack(g, x, r)
  {
    if r > 0 { StackBelow(f, g, x, r - 1); }
  }

  function FlatOf(l: Line, held: seq<seq<Item>>): nat -> seq<nat> {
    (r: nat) => if r <= l.stages && r < |held| then Flat(l, r, held[r]) else []
  }

  /** What comes out of sub-matcher `r` and all before it; `unfed` is what the sections come to that are not
      fed in yet. */
  function Rest(l: Line, held: seq<seq<Item>>, unfed: seq<nat>, r: nat): seq<nat>
    requires r <= l.stages && r < |held|
  {
    Stack(FlatOf(l, held), unfed, r)
  }

  function Below(l: Line, held: seq<seq<Item>>, unfed: seq<nat>, r: nat): seq<nat>
    requires r <= l.stages && r < |held|
  {
    if r == 0 then unfed else Rest(l, held, unfed, r - 1)
  }

  lemma RestIs(l: Line, held: seq<seq<Item>>, unfed: seq<nat>, r: nat)
    requires r <= l.stages && r < |held|
    ensures Rest(l, held, unfed, r) == Flat(l, r, held[r]) + Below(l, held, unfed, r)
  {
    assert FlatOf(l, held)(r) == Flat(l, r, held[r]);
  }

  lemma RestFrom(l: Line, a: seq<seq<Item>>, b: seq<seq<Item>>, m: seq<nat>, n: seq<nat>, k: nat, r: nat)
    requires k <= r <= l.stages && r < |a| && r < |b|
    requires Rest(l, a, m, k) == Rest(l, b, n, k) && forall i :: k < i <= r ==> a[i] == b[i]
    ensures Rest(l, a, m, r) == Rest(l, b, n, r)
  {
    var f, g := FlatOf(l, a), FlatOf(l, b);
    forall i: nat | k < i <= r ensures f(i) == g(i) { assert a[i] == b[i]; }
    StackFrom(f, g, m, n, k, r);
  }

  lemma RestBelow(l: Line, a: seq<seq<Item>>, b: seq<seq<Item>>, unfed: seq<nat>, r: nat)
    requires r <= l.stages && r < |a| && r < |b| && forall i :: 0 <= i <= r ==> a[i] == b[i]
    ensures Rest(l, a, unfed, r) == Rest(l, b, unfed, r)
  {
    var f, g := FlatOf(l, a), FlatOf(l, b);
    forall i: nat | i <= r ensures f(i) == g(i) { assert a[i] == b[i]; }
    StackBelow(f, g, unfed, r);
  }

  /** A section that is fed in is the next one that was to come. */
  lemma FeedKeepsRest(l: Line, held: seq<seq<Item>>, item: Item, unfed: seq<nat>)
    requires |held| == l.stages + 1
    ensures Rest(l, held[0 := held[0] + [item]], unfed, l.stages) == Rest(l, held, Comes(l, 0, item) + unfed, l.stages)
  {
    var after := held[0 := held[0] + [item]];
    FlatAppend(l, 0, held[0], [item]);
    FlatOne(l, 0, item);
    Assoc(Flat(l, 0, held[0]), Comes(l, 0, item), unfed);
    RestIs(l, after, unfed, 0);
    RestIs(l, held, Comes(l, 0, item) + unfed, 0);
    RestFrom(l, after, held, unfed, Comes(l, 0, item) + unfed, 0, l.stages);
  }

  lemma Assoc(a: seq<nat>, b: seq<nat>, d: seq<nat>)
    ensures a + b + d == a + (b + d)
  {
  }

  lemma HeadOff(l: Line, held: seq<seq<Item>>, unfed: seq<nat>, r: nat, item: Item, rest: seq<Item>)
    requires r <= l.stages && r < |held| && held[r] == [item] + rest
    ensures Rest(l, held, unfed, r) == Comes(l, r, item) + Rest(l, held[r := rest], unfed, r)
  {
    var after := held[r := rest];
    assert Below(l, after, unfed, r) == Below(l, held, unfed, r) by {
      if r > 0 { RestBelow(l, after, held, unfed, r - 1); }
    }
    FlatHead(l, r, item, rest);
    RestIs(l, held, unfed, r);
    RestIs(l, after, unfed, r);
    Assoc(Comes(l, r, item), Flat(l, r, rest), Below(l, held, unfed, r));
  }

  lemma FlatHead(l: Line, r: nat, item: Item, rest: seq<Item>)
    requires r <= l.stages
    ensures Flat(l, r, [item] + rest) == Comes(l, r, item) + Flat(l, r, rest)
  {
    assert ([item] + rest)[1..] == rest;
  }

  lemma TailOn(l: Line, held: seq<seq<Item>>, unfed: seq<nat>, r: nat, made: seq<Item>)
    requires r < l.stages && r + 1 < |held|
    ensures Rest(l, held[r + 1 := held[r + 1] + made], unfed, r + 1) == Flat(l, r + 1, held[r + 1]) + (Flat(l, r + 1, made) + Rest(l, held, unfed, r))
  {
    var after := held[r + 1 := held[r + 1] + made];
    RestBelow(l, after, held, unfed, r);
    FlatAppend(l, r + 1, held[r + 1], made);
    RestIs(l, after, unfed, r + 1);
    Assoc(Flat(l, r + 1, held[r + 1]), Flat(l, r + 1, made), Rest(l, held, unfed, r));
  }

  /** A section that a sub-matcher sends on, or drops, comes to the same as before. */
  lemma FinishKeepsRest(l: Line, held: seq<seq<Item>>, unfed: seq<nat>, r: nat, item: Item, rest: seq<Item>)
    requires |held| == l.stages + 1 && r < l.stages && held[r] == [item] + rest
    ensures Rest(l, held[r := rest][r + 1 := held[r + 1] + l.pass(r, item)], unfed, l.stages) == Rest(l, held, unfed, l.stages)
  {
    var mid, made := held[r := rest], l.pass(r, item);
    var after := mid[r + 1 := mid[r + 1] + made];
    HeadOff(l, held, unfed, r, item, rest);
    TailOn(l, mid, unfed, r, made);
    RestFrom(l, after, held, unfed, unfed, r + 1, l.stages);
  }

  lemma {:induction false} NothingHeld(l: Line, held: seq<seq<Item>>, unfed: seq<nat>, r: nat)
    requires r <= l.stages && r < |held| && forall i :: 0 <= i <= r ==> held[i] == []
    ensures Rest(l, held, unfed, r) == unfed
  {
    if r > 0 { NothingHeld(l, held, unfed, r - 1); }
  }

  // ---------------------------------------------------------------- the steps

  predicate Shaped(l: Line, s: State) {
    |s.stages| == l.stages && |s.channels| == l.stages + 1
  }

  /** What was sent, what is being sent and what is still to come make up the whole. */
  predicate Content(l: Line, s: State, unfed: seq<nat>, whole: seq<nat>) {
    Shaped(l, s) && s.out + s.emitting + Rest(l, AllHeld(s), unfed, l.stages) == whole
  }

  /** A step within a sub-matcher. */
  lemma InnerContent(l: Line, s: State, t: State, unfed: seq<nat>, whole: seq<nat>, r: nat)
    requires Content(l, s, unfed, whole) && Shaped(l, t) && r < l.stages
    requires t.emitting == s.emitting && t.out == s.out
    requires t.stages == s.stages[r := t.stages[r]] && t.channels == s.channels[r := t.channels[r]] && Held(t, r) == Held(s, r)
    ensures Content(l, t, unfed, whole)
  {
    forall i | 0 <= i <= l.stages ensures AllHeld(t)[i] == AllHeld(s)[i] {
      if i != r { assert Held(t, i) == Held(s, i); }
    }
    assert AllHeld(t) == AllHeld(s);
  }

  lemma FeedContent(l: Line, s: State, t: State, item: Item, unfed: seq<nat>, whole: seq<nat>)
    requires Content(l, s, Comes(l, 0, item) + unfed, whole)
    requires t == s.(channels := s.channels[0 := s.channels[0] + [item]], next := t.next)
    ensures Content(l, t, unfed, whole)
  {
    var held := AllHeld(s);
    FeedKeepsRest(l, held, item, unfed);
    var after := held[0 := held[0] + [item]];
    forall i | 0 <= i <= l.stages ensures AllHeld(t)[i] == after[i] {
      if i > 0 { assert Held(t, i) == Held(s, i); }
    }
    assert AllHeld(t) == after;
  }

  /** Two neighbouring places changed. */
  lemma HeldSet(s: State, t: State, r: nat, a: seq<Item>, b: seq<Item>)
    requires |s.channels| == |s.stages| + 1 && |t.channels| == |s.channels| && |t.stages| == |s.stages| && r < |s.stages|
    requires forall i: nat :: i < |s.channels| ==> Held(t, i) == if i == r then a else if i == r + 1 then b else Held(s, i)
    ensures AllHeld(t) == AllHeld(s)[r := a][r + 1 := b]
  {
    forall i: nat | i < |s.channels| ensures AllHeld(t)[i] == AllHeld(s)[r := a][r + 1 := b][i] {
      assert Held(t, i) == if i == r then a else if i == r + 1 then b else Held(s, i);
    }
  }

  lemma FinishHeld(s: State, t: State, made: seq<Item>, r: nat)
    requires |s.channels| == |s.stages| + 1 && r < |s.stages| && s.stages[r].gather.Gathering?
    requires t == s.(stages := s.stages[r := s.stages[r].(gather := Resting)], channels := s.channels[r + 1 := s.channels[r + 1] + made])
    ensures AllHeld(s)[r] == [s.stages[r].gather.item] + Held(t, r)
    ensures AllHeld(t) == AllHeld(s)[r := Held(t, r)][r + 1 := AllHeld(s)[r + 1] + made]
  {
    Finished(s.stages[r], s.channels[r]);
    assert Held(t, r + 1) == Held(s, r + 1) + made by {
      if r + 1 < |s.stages| { Received(s.stages[r + 1], s.channels[r + 1], made); }
    }
    HeldSet(s, t, r, Held(t, r), Held(s, r + 1) + made);
  }

  lemma Finished(g: Stage, channel: seq<Item>)
    requires g.gather.Gathering?
    ensures HeldIn(g, channel) == [g.gather.item] + HeldIn(g.(gather := Resting), channel)
  {
  }

  lemma Received(g: Stage, channel: seq<Item>, made: seq<Item>)
    ensures HeldIn(g, channel + made) == HeldIn(g, channel) + made
  {
  }

  lemma FinishContent(l: Line, s: State, t: State, unfed: seq<nat>, whole: seq<nat>, r: nat)
    requires Content(l, s, unfed, whole) && r < l.stages && s.stages[r].gather.Gathering?
    requires var made := l.pass(r, s.stages[r].gather.item);
             t == s.(stages := s.stages[r := s.stages[r].(gather := Resting)], channels := s.channels[r + 1 := s.channels[r + 1] + made])
    ensures Content(l, t, unfed, whole)
  {
    var item := s.stages[r].gather.item;
    FinishHeld(s, t, l.pass(r, item), r);
    FinishKeepsRest(l, AllHeld(s), unfed, r, item, Held(t, r));
  }

  lemma SinkContent(l: Line, s: State, t: State, unfed: seq<nat>, whole: seq<nat>)
    requires Content(l, s, unfed, whole) && s.emitting == [] && s.channels[l.stages] != []
    requires t == s.(channels := s.channels[l.stages := s.channels[l.stages][1..]], emitting := l.emits(s.channels[l.stages][0]))
    ensures Content(l, t, unfed, whole)
  {
    var held, n, item, rest := AllHeld(s), l.stages, s.channels[l.stages][0], s.channels[l.stages][1..];
    assert held[n] == [item] + rest;
    HeadOff(l, held, unfed, n, item, rest);
    forall i | 0 <= i <= n ensures AllHeld(t)[i] == held[n := rest][i] {
      if i < n { assert Held(t, i) == Held(s, i); }
    }
    assert AllHeld(t) == held[n := rest];
    assert s.out + [] + (t.emitting + Rest(l, AllHeld(t), unfed, n)) == t.out + t.emitting + Rest(l, AllHeld(t), unfed, n);
  }

  lemma EmitContent(l: Line, s: State, t: State, unfed: seq<nat>, whole: seq<nat>)
    requires Content(l, s, unfed, whole) && s.emitting != []
    requires t == s.(out := s.out + [s.emitting[0]], emitting := s.emitting[1..])
    ensures Content(l, t, unfed, whole)
  {
    assert AllHeld(t) == AllHeld(s);
    assert t.out + t.emitting == s.out + s.emitting;
  }

  /** With nothing underway the whole is what was sent and what is not fed in yet. */
  lemma EmptyContent(l: Line, s: State, unfed: seq<nat>)
    requires Shaped(l, s) && s.emitting == [] && forall r: nat :: r <= l.stages ==> Held(s, r) == []
    ensures Content(l, s, unfed, s.out + unfed)
  {
    forall r: nat | r <= l.stages ensures AllHeld(s)[r] == [] { assert Held(s, r) == []; }
    NothingHeld(l, AllHeld(s), unfed, l.stages);
    assert s.out + s.emitting == s.out;
  }
}
