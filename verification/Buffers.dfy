/**
  Pooled frame buffers (the pools and frame stacks of otlp/attr.go and fluent/msgpack_encoder.go):
  any number of encoders, cloned, grown, sealed, rolled back and freed in any interleaving, over one
  shared pool and a heap of backing arrays.  A frame is a label (its kind, key and count) and a slice
  of a backing array; `append` writes in place while the array has room and moves to a new array
  otherwise; a buffer taken from the pool still holds whatever was last written to it.

  The encoder models work on byte sequences; this one shows that they may: sealing, rolling back,
  cloning and freeing pooled frames, with any other encoders active in between, give exactly the
  stacks those models compute.
*/
module Buffers {
  import opened Wire
  import Otlp = FrameStack
  import Msg = FluentEncoder

  type Eid = nat
  type Bid = nat

  /** What a frame of either encoder carries besides its buffer. */
  datatype Label = OtlpLabel(kind: Otlp.Kind, key: bytes) | MsgLabel(mkind: Msg.Kind, count: nat)

  datatype Frame = Frame(tag: Label, b: Bid, len: nat)

  /** Where a backing array is: behind one frame of one encoder, in the pool, or garbage. */
  datatype Place = InFrame(e: Eid, i: nat) | InPool | Garbage

  /** `place` is history: nothing in the program reads it. */
  datatype State = State(
    heap: map<Bid, bytes>,
    made: nat,
    pool: multiset<Bid>,
    encs: map<Eid, seq<Frame>>,
    place: map<Bid, Place>)

  predicate Init(s: State) {
    s == State(map[], 0, multiset{}, map[], map[])
  }

  /** What an encoder's frames hold. */
  datatype Content = Content(tag: Label, buf: bytes)

  function Stack(s: State, e: Eid): seq<Frame> {
    if e in s.encs then s.encs[e] else []
  }

  predicate FrameOk(s: State, f: Frame) {
    f.b in s.heap && f.len <= |s.heap[f.b]|
  }

  function Held(s: State, f: Frame): Content {
    Content(f.tag, if FrameOk(s, f) then s.heap[f.b][..f.len] else [])
  }

  function View(s: State, e: Eid): (r: seq<Content>)
    ensures |r| == |Stack(s, e)|
  {
    var st := Stack(s, e);
    seq(|st|, i requires 0 <= i < |st| => Held(s, st[i]))
  }

  // ---------------------------------------------------------------------------------------
  // Actions
  // ---------------------------------------------------------------------------------------

  /**
    One access to the pool or to a buffer, by the goroutine that owns encoder `e`: a pool get, from
    the pool or new, with the push of the frame; an append, `spare` padding a new array if it has to
    move; a new label; a pop with the pool put; a truncation; and the collector emptying the pool.
  */
  datatype Action =
    | Open(e: Eid, tag: Label, from: Option<Bid>, spare: bytes)
    | Append(e: Eid, i: nat, data: bytes, spare: bytes)
    | Relabel(e: Eid, i: nat, tag: Label)
    | Pop(e: Eid)
    | Truncate(e: Eid, i: nat, len: nat)
    | Collect(b: Bid)

  predicate Can(s: State, a: Action) {
    match a
    case Open(_, _, from, _) => from.Some? ==> from.value in s.pool
    case Append(e, i, _, _) => i < |Stack(s, e)|
    case Relabel(e, i, _) => i < |Stack(s, e)|
    case Pop(e) => |Stack(s, e)| > 0
    case Truncate(e, i, len) => i < |Stack(s, e)| && len <= Stack(s, e)[i].len
    case Collect(b) => b in s.pool
  }

  function Pushed(s: State, e: Eid, f: Frame): map<Eid, seq<Frame>> {
    s.encs[e := Stack(s, e) + [f]]
  }

  function Updated(s: State, e: Eid, i: nat, f: Frame): map<Eid, seq<Frame>>
    requires i < |Stack(s, e)|
  {
    s.encs[e := Stack(s, e)[i := f]]
  }

  function Do(s: State, a: Action): State
    requires Can(s, a)
  {
    match a
    case Open(e, tag, Some(b), _) =>
      s.(pool := s.pool - multiset{b}, encs := Pushed(s, e, Frame(tag, b, 0)),
        place := s.place[b := InFrame(e, |Stack(s, e)|)])
    case Open(e, tag, None, spare) =>
      var b := s.made;
      s.(heap := s.heap[b := spare], made := b + 1, encs := Pushed(s, e, Frame(tag, b, 0)),
         place := s.place[b := InFrame(e, |Stack(s, e)|)])
    case Append(e, i, data, spare) => DoAppend(s, e, i, data, spare)
    case Relabel(e, i, tag) => s.(encs := Updated(s, e, i, Stack(s, e)[i].(tag := tag)))
    case Pop(e) =>
      var st := Stack(s, e);
      var b := st[|st| - 1].b;
      s.(pool := s.pool + multiset{b}, encs := s.encs[e := st[..|st| - 1]], place := s.place[b := InPool])
    case Truncate(e, i, len) => s.(encs := Updated(s, e, i, Stack(s, e)[i].(len := len)))
    case Collect(b) => s.(pool := s.pool - multiset{b}, place := s.place[b := Garbage])
  }

  /** Go's `append`. */
  function DoAppend(s: State, e: Eid, i: nat, data: bytes, spare: bytes): State
    requires i < |Stack(s, e)|
  {
    var f := Stack(s, e)[i];
    var cell := if f.b in s.heap then s.heap[f.b] else [];
    if f.len + |data| <= |cell| then
      s.(heap := s.heap[f.b := cell[..f.len] + data + cell[f.len + |data|..]],
         encs := Updated(s, e, i, f.(len := f.len + |data|)))
    else
      var b := s.made;
      s.(heap := s.heap[b := (if f.len <= |cell| then cell[..f.len] else []) + data + spare], made := b + 1,
         encs := Updated(s, e, i, f.(b := b, len := f.len + |data|)),
         place := s.place[f.b := Garbage][b := InFrame(e, i)])
  }

  /** Every action in turn is enabled: any interleaving of any number of encoders. */
  predicate Runs(s: State, acts: seq<Action>)
    decreases |acts|
  {
    |acts| == 0 || (Can(s, acts[0]) && Runs(Do(s, acts[0]), acts[1..]))
  }

  function After(s: State, acts: seq<Action>): State
    requires Runs(s, acts)
    decreases |acts|
  {
    if |acts| == 0 then s else After(Do(s, acts[0]), acts[1..])
  }

  // ---------------------------------------------------------------------------------------
  // Ownership
  // ---------------------------------------------------------------------------------------

  predicate At(s: State, b: Bid, p: Place) {
    b in s.place && s.place[b] == p
  }

  predicate Behind(s: State, b: Bid, e: Eid, i: nat) {
    i < |Stack(s, e)| && Stack(s, e)[i].b == b
  }

  /** Every backing array is in the one place the history says. */
  ghost predicate Inv(s: State) {
    && (forall b: Bid :: (b in s.heap <==> b < s.made) && (b in s.place <==> b < s.made))
    && (forall b: Bid, e, i: nat :: Behind(s, b, e, i) <==> At(s, b, InFrame(e, i)))
    && (forall b: Bid :: s.pool[b] == if At(s, b, InPool) then 1 else 0)
    && (forall e, i: nat :: i < |Stack(s, e)| ==> FrameOk(s, Stack(s, e)[i]))
  }

  lemma InvInit(s: State)
    requires Init(s)
    ensures Inv(s)
  {
  }

  /** Two frames never share a backing array. */
  lemma Distinct(s: State, e: Eid, i: nat, d: Eid, k: nat)
    requires Inv(s) && i < |Stack(s, e)| && k < |Stack(s, d)|
    ensures Stack(s, e)[i].b == Stack(s, d)[k].b ==> e == d && i == k
  {
    hide FrameOk;
    var b, c := Stack(s, e)[i].b, Stack(s, d)[k].b;
    assert Behind(s, b, e, i) && Behind(s, c, d, k);
    assert At(s, b, InFrame(e, i)) && At(s, c, InFrame(d, k));
  }

  lemma FrameKnown(s: State, e: Eid, i: nat)
    requires Inv(s) && i < |Stack(s, e)|
    ensures var f := Stack(s, e)[i]; FrameOk(s, f) && At(s, f.b, InFrame(e, i)) && f.b < s.made && f.b !in s.pool
  {
    assert Behind(s, Stack(s, e)[i].b, e, i);
  }

  // Each action keeps the invariant.

  lemma InvOpenPooled(s: State, a: Action)
    requires Inv(s) && Can(s, a) && a.Open? && a.from.Some?
    ensures Inv(Do(s, a))
  {
    hide FrameOk;
    var s' := Do(s, a);
    var b, n := a.from.value, |Stack(s, a.e)|;
    assert At(s, b, InPool);
    forall c: Bid, p: Place ensures At(s', c, p) <==> if c == b then p == InFrame(a.e, n) else At(s, c, p) {}
    forall c: Bid, e, i: nat ensures Behind(s', c, e, i) <==> (Behind(s, c, e, i) || (c == b && e == a.e && i == n)) {}
    forall e, i: nat | i < |Stack(s', e)| ensures FrameOk(s', Stack(s', e)[i]) { FramesOk(s, s', e, i, a); }
  }

  /** A slice of the old state, or the new empty one. */
  lemma FramesOk(s: State, s': State, e: Eid, i: nat, a: Action)
    requires Inv(s) && Can(s, a) && a.Open? && s' == Do(s, a) && i < |Stack(s', e)|
    ensures FrameOk(s', Stack(s', e)[i])
  {
    if e == a.e && i == |Stack(s, e)| {
      if a.from.Some? { assert At(s, a.from.value, InPool); }
    } else {
      assert Stack(s', e)[i] == Stack(s, e)[i];
      FrameKnown(s, e, i);
    }
  }

  lemma InvOpenNew(s: State, a: Action)
    requires Inv(s) && Can(s, a) && a.Open? && a.from.None?
    ensures Inv(Do(s, a))
  {
    hide FrameOk;
    var s' := Do(s, a);
    var b, n := s.made, |Stack(s, a.e)|;
    forall c: Bid, p: Place ensures At(s', c, p) <==> if c == b then p == InFrame(a.e, n) else At(s, c, p) {}
    forall c: Bid, e, i: nat ensures Behind(s', c, e, i) <==> (Behind(s, c, e, i) || (c == b && e == a.e && i == n)) {}
    forall e, i: nat | i < |Stack(s', e)| ensures FrameOk(s', Stack(s', e)[i]) { FramesOk(s, s', e, i, a); }
  }

  lemma InvPop(s: State, a: Action)
    requires Inv(s) && Can(s, a) && a.Pop?
    ensures Inv(Do(s, a))
  {
    hide FrameOk;
    var s' := Do(s, a);
    var n := |Stack(s, a.e)| - 1;
    var b := Stack(s, a.e)[n].b;
    FrameKnown(s, a.e, n);
    forall c: Bid, p: Place ensures At(s', c, p) <==> if c == b then p == InPool else At(s, c, p) {}
    forall c: Bid, e, i: nat ensures Behind(s', c, e, i) <==> (Behind(s, c, e, i) && !(e == a.e && i == n)) {}
    forall e, i: nat | i < |Stack(s', e)| ensures FrameOk(s', Stack(s', e)[i]) {
      FrameKnown(s, e, i);
      SameHeap(s, s', Stack(s, e)[i]);
    }
  }

  lemma SameHeap(s: State, s': State, f: Frame)
    requires FrameOk(s, f) && s'.heap == s.heap
    ensures FrameOk(s', f) && Held(s', f) == Held(s, f)
  {
  }

  lemma InvCollect(s: State, a: Action)
    requires Inv(s) && Can(s, a) && a.Collect?
    ensures Inv(Do(s, a))
  {
    hide FrameOk;
    var s' := Do(s, a);
    assert At(s, a.b, InPool);
    forall c: Bid, p: Place ensures At(s', c, p) <==> if c == a.b then p == Garbage else At(s, c, p) {}
    forall c: Bid, e, i: nat ensures Behind(s', c, e, i) <==> Behind(s, c, e, i) {}
    forall e, i: nat | i < |Stack(s', e)| ensures FrameOk(s', Stack(s', e)[i]) {
      FrameKnown(s, e, i);
      SameHeap(s, s', Stack(s, e)[i]);
    }
  }

  /** Changing the tag or shortening a slice. */
  lemma InvUpdate(s: State, a: Action)
    requires Inv(s) && Can(s, a) && (a.Relabel? || a.Truncate?)
    ensures Inv(Do(s, a))
  {
    var s' := Do(s, a);
    forall c: Bid, p: Place ensures At(s', c, p) <==> At(s, c, p) {}
    forall c: Bid, e, i: nat ensures Behind(s', c, e, i) <==> Behind(s, c, e, i) {}
    forall e, i: nat | i < |Stack(s', e)| ensures FrameOk(s', Stack(s', e)[i]) { FrameKnown(s, e, i); }
  }

  predicate InPlace(s: State, a: Action)
    requires a.Append? && Can(s, a)
  {
    var f := Stack(s, a.e)[a.i];
    FrameOk(s, f) && f.len + |a.data| <= |s.heap[f.b]|
  }

  /** Writing in place changes one cell, and not its size. */
  lemma InvInPlace(s: State, a: Action)
    requires Inv(s) && Can(s, a) && a.Append? && InPlace(s, a)
    ensures Inv(Do(s, a))
  {
    var s' := Do(s, a);
    var f := Stack(s, a.e)[a.i];
    FrameKnown(s, a.e, a.i);
    forall c: Bid ensures c in s'.heap <==> c in s.heap {}
    forall c: Bid | c in s.heap ensures |s'.heap[c]| == |s.heap[c]| {}
    forall c: Bid, p: Place ensures At(s', c, p) <==> At(s, c, p) {}
    forall c: Bid, e, i: nat ensures Behind(s', c, e, i) <==> Behind(s, c, e, i) {}
    forall e, i: nat | i < |Stack(s', e)| ensures FrameOk(s', Stack(s', e)[i]) { FrameKnown(s, e, i); }
  }

  lemma InvMoved(s: State, a: Action)
    requires Inv(s) && Can(s, a) && a.Append? && !InPlace(s, a)
    ensures Inv(Do(s, a))
  {
    var s' := Do(s, a);
    var f := Stack(s, a.e)[a.i];
    FrameKnown(s, a.e, a.i);
    MovedPlaces(s, a);
    forall e, i: nat | i < |Stack(s', e)| ensures FrameOk(s', Stack(s', e)[i]) {
      if !(e == a.e && i == a.i) { FrameKnown(s, e, i); }
    }
  }

  lemma MovedPlaces(s: State, a: Action)
    requires Inv(s) && Can(s, a) && a.Append? && !InPlace(s, a)
    ensures var s' := Do(s, a);
      && (forall b: Bid :: (b in s'.heap <==> b < s'.made) && (b in s'.place <==> b < s'.made))
      && (forall b: Bid, e, i: nat :: Behind(s', b, e, i) <==> At(s', b, InFrame(e, i)))
      && (forall b: Bid :: s'.pool[b] == if At(s', b, InPool) then 1 else 0)
  {
    var s' := Do(s, a);
    var f, n := Stack(s, a.e)[a.i], s.made;
    FrameKnown(s, a.e, a.i);
    assert n !in s.place;
    forall c: Bid, p: Place
      ensures At(s', c, p)
          <==> if c == n then p == InFrame(a.e, a.i) else if c == f.b then p == Garbage else At(s, c, p) {}
    forall c: Bid, e, i: nat
      ensures Behind(s', c, e, i) <==> if e == a.e && i == a.i then c == n else Behind(s, c, e, i) {}
  }

  lemma InvStep(s: State, a: Action)
    requires Inv(s) && Can(s, a)
    ensures Inv(Do(s, a))
  {
    hide Inv, Do;
    match a
    case Open(_, _, from, _) => if from.Some? { InvOpenPooled(s, a); } else { InvOpenNew(s, a); }
    case Append(_, _, _, _) => if InPlace(s, a) { InvInPlace(s, a); } else { InvMoved(s, a); }
    case Relabel(_, _, _) => InvUpdate(s, a);
    case Pop(_) => InvPop(s, a);
    case Truncate(_, _, _) => InvUpdate(s, a);
    case Collect(_) => InvCollect(s, a);
  }

  // ---------------------------------------------------------------------------------------
  // What an encoder sees
  // ---------------------------------------------------------------------------------------

  predicate By(a: Action, e: Eid) {
    !a.Collect? && a.e == e
  }

  /** The effect of an encoder's own action on its contents, as plain values. */
  function Effect(v: seq<Content>, a: Action): seq<Content> {
    match a
    case Open(_, tag, _, _) => v + [Content(tag, [])]
    case Append(_, i, data, _) => if i < |v| then v[i := v[i].(buf := v[i].buf + data)] else v
    case Relabel(_, i, tag) => if i < |v| then v[i := v[i].(tag := tag)] else v
    case Pop(_) => if |v| > 0 then v[..|v| - 1] else v
    case Truncate(_, i, len) => if i < |v| && len <= |v[i].buf| then v[i := v[i].(buf := v[i].buf[..len])] else v
    case Collect(_) => v
  }

  /** A frame the action does not touch keeps its slice and its bytes. */
  lemma Untouched(s: State, a: Action, e: Eid, i: nat)
    requires Inv(s) && Can(s, a) && i < |Stack(s, e)| && i < |Stack(Do(s, a), e)|
    requires By(a, e) ==> a.Open? || a.Pop? || a.i != i
    ensures Stack(Do(s, a), e)[i] == Stack(s, e)[i] && Held(Do(s, a), Stack(s, e)[i]) == Held(s, Stack(s, e)[i])
  {
    hide Inv;
    FrameKnown(s, e, i);
    if a.Append? {
      FrameKnown(s, a.e, a.i);
      Distinct(s, a.e, a.i, e, i);
    }
  }

  lemma AppendHeld(s: State, a: Action)
    requires Inv(s) && Can(s, a) && a.Append?
    ensures var f, s' := Stack(s, a.e)[a.i], Do(s, a);
      Held(s', Stack(s', a.e)[a.i]) == Held(s, f).(buf := Held(s, f).buf + a.data)
  {
    hide Inv;
    FrameKnown(s, a.e, a.i);
  }

  lemma OpenHeld(s: State, a: Action)
    requires Inv(s) && Can(s, a) && a.Open?
    ensures var st := Stack(Do(s, a), a.e);
      |st| == |Stack(s, a.e)| + 1 && Held(Do(s, a), st[|st| - 1]) == Content(a.tag, [])
  {
  }

  lemma UpdateHeld(s: State, a: Action)
    requires Inv(s) && Can(s, a) && (a.Relabel? || a.Truncate?)
    ensures var f, s' := Stack(s, a.e)[a.i], Do(s, a);
      Held(s', Stack(s', a.e)[a.i])
        == if a.Relabel? then Held(s, f).(tag := a.tag) else Held(s, f).(buf := Held(s, f).buf[..a.len])
    ensures |Held(s, Stack(s, a.e)[a.i]).buf| == Stack(s, a.e)[a.i].len
  {
    hide Inv;
    FrameKnown(s, a.e, a.i);
  }

  lemma StackSize(s: State, a: Action, e: Eid)
    requires Can(s, a)
    ensures |Stack(Do(s, a), e)|
        == |Stack(s, e)| + (if !By(a, e) then 0 else if a.Open? then 1 else if a.Pop? then -1 else 0)
  {
  }

  /** An encoder's contents change by its own actions only, and exactly as if buffers were values. */
  lemma ViewStep(s: State, a: Action, e: Eid)
    requires Inv(s) && Can(s, a)
    ensures View(Do(s, a), e) == if By(a, e) then Effect(View(s, e), a) else View(s, e)
  {
    hide Inv, Do, Held, Can;
    var s' := Do(s, a);
    StackSize(s, a, e);
    forall i: nat | i < |Stack(s, e)| && i < |Stack(s', e)| && (By(a, e) ==> a.Open? || a.Pop? || a.i != i)
      ensures View(s', e)[i] == View(s, e)[i]
    {
      Untouched(s, a, e, i);
    }
    if By(a, e) {
      match a
      case Open(_, _, _, _) => OpenHeld(s, a);
      case Append(_, _, _, _) => AppendHeld(s, a); Enabled(s, a);
      case Relabel(_, _, _) => UpdateHeld(s, a); Enabled(s, a);
      case Pop(_) => Enabled(s, a);
      case Truncate(_, _, _) => UpdateHeld(s, a); Enabled(s, a);
    }
  }

  lemma Enabled(s: State, a: Action)
    requires Can(s, a)
    ensures a.Append? || a.Relabel? || a.Truncate? ==> a.i < |Stack(s, a.e)|
    ensures a.Truncate? ==> a.len <= Stack(s, a.e)[a.i].len
    ensures a.Pop? ==> |Stack(s, a.e)| > 0
  {
  }

  function Own(acts: seq<Action>, e: Eid): seq<Action> {
    if |acts| == 0 then [] else (if By(acts[0], e) then [acts[0]] else []) + Own(acts[1..], e)
  }

  function Replay(v: seq<Content>, acts: seq<Action>): seq<Content>
    decreases |acts|
  {
    if |acts| == 0 then v else Replay(Effect(v, acts[0]), acts[1..])
  }

  /**
    Isolation, over every run: whatever other encoders do, and whichever pooled buffers are reused,
    an encoder ends up with exactly what its own actions would have built from values alone.
  */
  lemma {:induction false} Isolation(s: State, acts: seq<Action>, e: Eid)
    requires Inv(s) && Runs(s, acts)
    ensures Inv(After(s, acts)) && View(After(s, acts), e) == Replay(View(s, e), Own(acts, e))
    decreases |acts|
  {
    hide Inv, Do, Can, View, By, Effect;
    if |acts| > 0 {
      var s' := Do(s, acts[0]);
      InvStep(s, acts[0]);
      ViewStep(s, acts[0], e);
      Isolation(s', acts[1..], e);
      if By(acts[0], e) {
        assert Own(acts, e)[1..] == Own(acts[1..], e);
      } else {
        assert Own(acts, e) == Own(acts[1..], e);
      }
    }
  }

  /**
    In every reachable state no two live frames share a buffer, no live frame's buffer is in the
    pool, and none is there twice.
  */
  lemma LiveBuffersDisjoint(s: State, acts: seq<Action>, e: Eid, i: nat)
    requires Init(s) && Runs(s, acts) && i < |Stack(After(s, acts), e)|
    ensures var r := After(s, acts); var b := Stack(r, e)[i].b;
      && b !in r.pool
      && (forall d, k: nat :: Behind(r, b, d, k) ==> d == e && k == i)
      && (forall c: Bid :: r.pool[c] <= 1)
  {
    hide Do, Can, View, FrameOk;
    InvInit(s);
    Isolation(s, acts, e);
    var r := After(s, acts);
    FrameKnown(r, e, i);
    forall d, k: nat | Behind(r, Stack(r, e)[i].b, d, k) ensures d == e && k == i { Distinct(r, d, k, e, i); }
  }

  // ---------------------------------------------------------------------------------------
  // Cloning
  // ---------------------------------------------------------------------------------------

  /** `clone` and `cloneStack`: for each frame a buffer from anywhere, then a copy of the bytes. */
  predicate Copies(acts: seq<Action>, v: seq<Content>) {
    && |acts| == 2 * |v|
    && forall i :: 0 <= i < |v| ==>
         acts[2 * i].Open? && acts[2 * i].tag == v[i].tag && acts[2 * i + 1].Append? && acts[2 * i + 1].i == i
           && acts[2 * i + 1].data == v[i].buf
  }

  lemma {:induction false} CopyFrom(acts: seq<Action>, v: seq<Content>, k: nat)
    requires Copies(acts, v) && k <= |v|
    ensures Replay(v[..k], acts[2 * k..]) == v
    decreases |v| - k
  {
    hide Effect;
    if k == |v| {
      assert v[..k] == v;
    } else {
      var rest := acts[2 * k..];
      assert rest[0] == acts[2 * k] && rest[1..][0] == acts[2 * k + 1] && rest[1..][1..] == acts[2 * (k + 1)..];
      CopyOne(v, k, acts[2 * k], acts[2 * k + 1]);
      CopyFrom(acts, v, k + 1);
    }
  }

  lemma CopyOne(v: seq<Content>, k: nat, a: Action, b: Action)
    requires k < |v| && a.Open? && a.tag == v[k].tag && b.Append? && b.i == k && b.data == v[k].buf
    ensures Effect(Effect(v[..k], a), b) == v[..k + 1]
  {
    assert [] + v[k].buf == v[k].buf;
  }

  /**
    A clone made in the middle of any run, with other encoders acting in between, ends up equal to
    what it was made from, and the original is not changed by it.
  */
  lemma CloneExact(s: State, acts: seq<Action>, original: Eid, copy: Eid)
    requires Inv(s) && Runs(s, acts) && original != copy && Stack(s, copy) == []
    requires Copies(Own(acts, copy), View(s, original)) && Own(acts, original) == []
    ensures View(After(s, acts), copy) == View(s, original) == View(After(s, acts), original)
  {
    hide Inv, Runs, Copies, Do, Effect;
    Isolation(s, acts, copy);
    Isolation(s, acts, original);
    var v := View(s, original);
    CopyFrom(Own(acts, copy), v, 0);
    assert v[..0] == View(s, copy) && Own(acts, copy)[2 * 0..] == Own(acts, copy);
  }

  // ---------------------------------------------------------------------------------------
  // The operations of the encoders
  // ---------------------------------------------------------------------------------------

  lemma {:induction false} ReplayConcat(v: seq<Content>, a: seq<Action>, b: seq<Action>)
    ensures Replay(v, a + b) == Replay(Replay(v, a), b)
    decreases |a|
  {
    hide Effect;
    if |a| == 0 {
      assert a + b == b;
    } else {
      assert (a + b)[1..] == a[1..] + b;
      ReplayConcat(Effect(v, a[0]), a[1..], b);
    }
  }

  lemma ReplayOne(v: seq<Content>, a: Action)
    ensures Replay(v, [a]) == Effect(v, a)
  {
    hide Effect;
    assert [a][1..] == [];
    assert Replay(v, [a]) == Replay(Effect(v, a), []);
  }

  /** Appends to one frame, in as many pieces as the code writes. */
  predicate AppendsTo(acts: seq<Action>, i: nat) {
    forall k :: 0 <= k < |acts| ==> acts[k].Append? && acts[k].i == i
  }

  function Data(acts: seq<Action>): bytes
    requires forall k :: 0 <= k < |acts| ==> acts[k].Append?
  {
    if |acts| == 0 then [] else acts[0].data + Data(acts[1..])
  }

  lemma {:induction false} ReplayAppends(v: seq<Content>, acts: seq<Action>, i: nat)
    requires i < |v| && AppendsTo(acts, i)
    ensures Replay(v, acts) == v[i := v[i].(buf := v[i].buf + Data(acts))]
    decreases |acts|
  {
    if |acts| == 0 {
      assert v[i].buf + [] == v[i].buf;
    } else {
      var next := Effect(v, acts[0]);
      ReplayAppends(next, acts[1..], i);
      Assoc(v[i].buf, acts[0].data, Data(acts[1..]));
    }
  }

  predicate Pops(acts: seq<Action>) {
    forall k :: 0 <= k < |acts| ==> acts[k].Pop?
  }

  lemma {:induction false} ReplayPops(v: seq<Content>, acts: seq<Action>)
    requires Pops(acts) && |acts| <= |v|
    ensures Replay(v, acts) == v[..|v| - |acts|]
    decreases |acts|
  {
    if |acts| == 0 {
      assert v[..|v|] == v;
    } else {
      ReplayPops(v[..|v| - 1], acts[1..]);
      assert v[..|v| - 1][..|v| - |acts|] == v[..|v| - |acts|];
    }
  }

  predicate IsOtlp(v: seq<Content>) {
    forall i :: 0 <= i < |v| ==> v[i].tag.OtlpLabel?
  }

  function AsOtlp(v: seq<Content>): (r: seq<Otlp.Frame>)
    requires IsOtlp(v)
    ensures |r| == |v|
    ensures forall i :: 0 <= i < |v| ==> r[i] == Otlp.Frame(v[i].tag.kind, v[i].tag.key, v[i].buf)
  {
    seq(|v|, i requires 0 <= i < |v| => Otlp.Frame(v[i].tag.kind, v[i].tag.key, v[i].buf))
  }

  predicate IsMsg(v: seq<Content>) {
    forall i :: 0 <= i < |v| ==> v[i].tag.MsgLabel?
  }

  function AsMsg(v: seq<Content>): (r: seq<Msg.Frame>)
    requires IsMsg(v)
    ensures |r| == |v|
    ensures forall i :: 0 <= i < |v| ==> r[i] == Msg.Frame(v[i].tag.mkind, v[i].buf, v[i].tag.count)
  {
    seq(|v|, i requires 0 <= i < |v| => Msg.Frame(v[i].tag.mkind, v[i].buf, v[i].tag.count))
  }

  /** A seal: pieces appended to the frame below the top, then the pop. */
  predicate Seals(own: seq<Action>, n: nat, data: bytes)
    requires n >= 2
  {
    && |own| >= 1 && own[|own| - 1].Pop?
    && AppendsTo(own[..|own| - 1], n - 2) && Data(own[..|own| - 1]) == data
  }

  lemma ReplaySeal(v: seq<Content>, own: seq<Action>, data: bytes)
    requires |v| >= 2 && Seals(own, |v|, data)
    ensures var n := |v|; Replay(v, own) == v[..n - 1][n - 2 := v[n - 2].(buf := v[n - 2].buf + data)]
  {
    hide Replay, Data;
    var n, appends, pop := |v|, own[..|own| - 1], own[|own| - 1];
    assert own == appends + [pop];
    ReplayConcat(v, appends, [pop]);
    ReplayAppends(v, appends, n - 2);
    ReplayOne(Replay(v, appends), pop);
  }

  /**
    `sealTop` on pooled buffers: if the pieces written are the sealed entry, the encoder's frames are
    the sealed stack of the OTLP model, whatever other encoders do meanwhile.
  */
  lemma OtlpSealExact(s: State, acts: seq<Action>, e: Eid)
    requires Inv(s) && Runs(s, acts) && |View(s, e)| >= 2 && IsOtlp(View(s, e))
    requires
      var st := AsOtlp(View(s, e)); var n := |st|;
      Seals(Own(acts, e), n, Otlp.WrapEntry(st[n - 2].kind, st[n - 1].nsKey, Otlp.Sealed(st[n - 1])))
    ensures IsOtlp(View(After(s, acts), e)) && AsOtlp(View(After(s, acts), e)) == Otlp.Seal(AsOtlp(View(s, e)))
  {
    hide Inv, Runs, After, View, Own, Replay, Seals, Otlp.WrapEntry, Otlp.Sealed;
    var v := View(s, e);
    var st := AsOtlp(v);
    var n := |v|;
    var data := Otlp.WrapEntry(st[n - 2].kind, st[n - 1].nsKey, Otlp.Sealed(st[n - 1]));
    Isolation(s, acts, e);
    ReplaySeal(v, Own(acts, e), data);
    assert AsOtlp(View(After(s, acts), e)) == Otlp.Seal(st);
  }

  /** `sealDownTo` of the MessagePack encoder, one frame: header and contents, then the pop. */
  lemma MsgSealExact(s: State, acts: seq<Action>, e: Eid)
    requires Inv(s) && Runs(s, acts) && |View(s, e)| >= 2 && IsMsg(View(s, e))
    requires
      var st := AsMsg(View(s, e)); var n := |st|;
      Seals(Own(acts, e), n, Msg.HeaderFor(st[n - 1].kind, st[n - 1].count) + st[n - 1].buf)
    ensures IsMsg(View(After(s, acts), e)) && AsMsg(View(After(s, acts), e)) == Msg.SealFrame(AsMsg(View(s, e)))
  {
    hide Inv, Runs, After, View, Own, Replay, Seals, Msg.HeaderFor;
    var v := View(s, e);
    var st := AsMsg(v);
    var n := |v|;
    Isolation(s, acts, e);
    ReplaySeal(v, Own(acts, e), Msg.HeaderFor(st[n - 1].kind, st[n - 1].count) + st[n - 1].buf);
    assert AsMsg(View(After(s, acts), e)) == Msg.SealFrame(st);
  }

  /** A rollback: pops down to the snapshot's depth, then the truncation. */
  predicate RollsBack(own: seq<Action>, n: nat, depth: nat, bufLen: nat)
    requires 1 <= depth <= n
  {
    && |own| == n - depth + 1 && Pops(own[..n - depth])
    && own[n - depth].Truncate? && own[n - depth].i == depth - 1 && own[n - depth].len == bufLen
  }

  lemma ReplayRollback(v: seq<Content>, own: seq<Action>, depth: nat, bufLen: nat)
    requires 1 <= depth <= |v| && bufLen <= |v[depth - 1].buf| && RollsBack(own, |v|, depth, bufLen)
    ensures Replay(v, own) == v[..depth - 1] + [v[depth - 1].(buf := v[depth - 1].buf[..bufLen])]
  {
    hide Replay;
    var pops, cut := own[..|v| - depth], own[|v| - depth];
    assert own == pops + [cut];
    ReplayConcat(v, pops, [cut]);
    ReplayPops(v, pops);
    ReplayOne(v[..depth], cut);
  }

  /** `rollback` on pooled buffers is the rollback of the OTLP model. */
  lemma OtlpRollbackExact(s: State, acts: seq<Action>, e: Eid, depth: nat, bufLen: nat)
    requires Inv(s) && Runs(s, acts) && IsOtlp(View(s, e)) && 1 <= depth <= |View(s, e)|
    requires bufLen <= |View(s, e)[depth - 1].buf| && RollsBack(Own(acts, e), |View(s, e)|, depth, bufLen)
    ensures IsOtlp(View(After(s, acts), e))
    ensures AsOtlp(View(After(s, acts), e)) == Otlp.CutBack(AsOtlp(View(s, e)), depth, bufLen)
  {
    hide Inv, Runs, After, View, Own, Replay, RollsBack;
    var v := View(s, e);
    Isolation(s, acts, e);
    ReplayRollback(v, Own(acts, e), depth, bufLen);
    assert AsOtlp(View(After(s, acts), e)) == Otlp.CutBack(AsOtlp(v), depth, bufLen);
  }

  /** `free` and `putEncoder` give every buffer back: the encoder has no frames left. */
  lemma FreeExact(s: State, acts: seq<Action>, e: Eid)
    requires Inv(s) && Runs(s, acts) && Pops(Own(acts, e)) && |Own(acts, e)| == |View(s, e)|
    ensures View(After(s, acts), e) == []
  {
    hide Inv, Runs, After, View, Own, Replay;
    Isolation(s, acts, e);
    ReplayPops(View(s, e), Own(acts, e));
  }
}
