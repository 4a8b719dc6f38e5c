/**
  The MessagePack frame stack of fluent/msgpack_encoder.go and fluent/msgpack_array.go.  A frame
  holds the contents of one open container and a count; the header is written from the count when
  the frame is sealed.  Marshalers may fail half way (what they wrote stays), leave namespaces open,
  or nest past the depth cap.
*/
module FluentEncoder {
  import opened Wire
  import opened MsgPack
  import opened Levels

  datatype Kind = KMap | KArr
  datatype Frame = Frame(kind: Kind, buf: bytes, count: nat)

  // ---------------------------------------------------------------------------------------
  // What a frame stands for
  // ---------------------------------------------------------------------------------------

  /** An open container: what is complete in it, and what it is waiting for. */
  datatype Layer =
    | InMap(pairs: seq<Pair>, key: Option<bytes>)
    | InArr(vals: seq<Val>, waiting: bool)

  predicate Pending(l: Layer) {
    if l.InMap? then l.key.Some? else l.waiting
  }

  /**
    The count invariant.  A frame with nothing pending holds exactly `count` complete pairs or
    elements; one with something pending holds `count - 1`, and the key if it is a map.
  */
  function Shape(l: Layer): Frame {
    match l
    case InMap(ps, None) => Frame(KMap, EncPairs(ps), |ps|)
    case InMap(ps, Some(k)) => Frame(KMap, EncPairs(ps) + EncKey(k), |ps| + 1)
    case InArr(vs, waiting) => Frame(KArr, EncMany(vs), if waiting then |vs| + 1 else |vs|)
  }

  predicate Matches(stack: seq<Frame>, layers: seq<Layer>) {
    |stack| == |layers| && forall i :: 0 <= i < |stack| ==> stack[i] == Shape(layers[i])
  }

  /** Every frame but the top one waits for the container above it. */
  predicate Nested(layers: seq<Layer>) {
    && |layers| > 0 && layers[0].InMap?
    && forall i :: 0 <= i < |layers| - 1 ==> Pending(layers[i])
  }

  function Last(layers: seq<Layer>): Layer
    requires |layers| > 0
  {
    layers[|layers| - 1]
  }

  /** The top can take a value: a map that has its key, or an array. */
  predicate Ready(layers: seq<Layer>) {
    |layers| > 0 && (Last(layers).InMap? <==> Pending(Last(layers)))
  }

  /** The top is a map between two pairs. */
  predicate Settled(layers: seq<Layer>) {
    |layers| > 0 && Last(layers).InMap? && !Pending(Last(layers))
  }

  /** The value that was waited for has arrived. */
  function Accept(l: Layer, v: Val): Layer {
    match l
    case InMap(ps, Some(k)) => InMap(ps + [Pair(k, v)], None)
    case InMap(ps, None) => l
    case InArr(vs, _) => InArr(vs + [v], false)
  }

  /** Several values one after the other; a map takes one. */
  function AcceptAll(l: Layer, vs: seq<Val>): Layer {
    match l
    case InMap(_, _) => if |vs| == 0 then l else Accept(l, vs[0])
    case InArr(vals, _) => InArr(vals + vs, false)
  }

  lemma AcceptFew(l: Layer, v: Val)
    requires l.InArr? ==> !l.waiting
    ensures AcceptAll(l, []) == l && AcceptAll(l, [v]) == Accept(l, v)
  {
  }

  function ValueOf(l: Layer): Val {
    if l.InMap? then Map(l.pairs) else Arr(l.vals)
  }

  function SetLast(layers: seq<Layer>, l: Layer): (r: seq<Layer>)
    requires |layers| > 0
    ensures |r| == |layers|
  {
    layers[|layers| - 1 := l]
  }

  /** The container on top becomes a value of the one below. */
  function Seal(layers: seq<Layer>): (r: seq<Layer>)
    requires |layers| > 1
    ensures |r| == |layers| - 1
  {
    var below := layers[..|layers| - 1];
    SetLast(below, Accept(Last(below), ValueOf(Last(layers))))
  }

  function SealTo(layers: seq<Layer>, depth: nat): (r: seq<Layer>)
    requires 1 <= depth <= |layers|
    ensures |r| == depth
    decreases |layers|
  {
    if |layers| == depth then layers else SealTo(Seal(layers), depth)
  }

  lemma {:induction false} SealToVia(layers: seq<Layer>, mid: nat, depth: nat)
    requires 1 <= depth <= mid <= |layers|
    ensures SealTo(layers, depth) == SealTo(SealTo(layers, mid), depth)
    decreases |layers|
  {
    hide Seal;
    if mid < |layers| { SealToVia(Seal(layers), mid, depth); }
  }

  lemma ShapeAccept(l: Layer, v: Val)
    requires if l.InMap? then l.key.Some? else true
    ensures Shape(Accept(l, v)).kind == Shape(l).kind
    ensures Shape(Accept(l, v)).buf == Shape(l).buf + Enc(v)
    ensures Shape(Accept(l, v)).count == Shape(l).count + (if l.InArr? && !l.waiting then 1 else 0)
  {
    hide Enc, EncKey, EncMany, EncPairs;
    match l
    case InMap(ps, Some(k)) => EncPairsSnoc(ps, Pair(k, v));
    case InArr(vs, _) => EncManySnoc(vs, v);
  }

  lemma ShapeKey(ps: seq<Pair>, k: bytes)
    ensures Shape(InMap(ps, Some(k))) == Frame(KMap, Shape(InMap(ps, None)).buf + EncKey(k), |ps| + 1)
  {
  }

  lemma ShapeSealed(l: Layer)
    requires !Pending(l)
    ensures (Shape(l).kind == KMap ==> HeadBytes(HMap(Cast32(Shape(l).count))) + Shape(l).buf == Enc(ValueOf(l)))
    ensures (Shape(l).kind == KArr ==> HeadBytes(HArr(Cast32(Shape(l).count))) + Shape(l).buf == Enc(ValueOf(l)))
    ensures Shape(l).kind == KMap <==> l.InMap?
  {
    hide HeadBytes, EncMany, EncPairs, Cast32;
  }

  // ---------------------------------------------------------------------------------------
  // Marshaler programs and their meaning
  // ---------------------------------------------------------------------------------------

  /** The values a configured encoding hook wrote; `fallback` is used if it wrote none. */
  datatype Hooked = Hooked(hook: seq<Val>, fallback: Val)

  function Written(h: Hooked): (r: seq<Val>)
    ensures |r| >= 1
  {
    if |h.hook| == 0 then [h.fallback] else h.hook
  }

  /** A hook called for the value of a pair; see `HookExact` for what two values would do. */
  type PairHook = h: Hooked | |h.hook| <= 1 witness Hooked([], Nil)

  function Chosen(h: PairHook): Val {
    Written(h)[0]
  }

  function AsSeq(v: Option<Val>): (r: seq<Val>)
    ensures |r| <= 1
  {
    if v.Some? then [v.value] else []
  }

  /** One call a `MarshalLogObject` makes; `strict` says whether it returns an error of the call. */
  datatype ObjectOp =
    | Add(key: bytes, v: Val)
    | AddHooked(key: bytes, h: PairHook)
    | OpenNamespace(key: bytes)
    | AddObject(key: bytes, id: Id, strict: bool)
    | AddArray(key: bytes, id: Id, strict: bool)
    | AddReflected(key: bytes, r: Try<Val>, strict: bool)
    | Fail(err: bytes)

  datatype ArrayOp =
    | Append(v: Val)
    | AppendHooked(h: Hooked)
    | AppendObject(id: Id, strict: bool)
    | AppendArray(id: Id, strict: bool)
    | AppendReflected(r: Try<Val>, strict: bool)
    | FailArray(err: bytes)

  type Marshalers = Programs<ObjectOp, ArrayOp>

  const DEPTH_ERROR: bytes := Ascii("fluent: max container nesting depth exceeded")

  /** What a call leaves behind, and the error it returned. */
  datatype Outcome<+T> = Outcome(result: T, err: Option<bytes>)

  function IfStrict(strict: bool, err: Option<bytes>): Option<bytes> {
    if strict then err else None
  }

  /** A nested object; None at the depth cap, where nothing is written. */
  function NestedObject(m: Marshalers, id: Id, depth: nat): Outcome<Option<Val>>
    decreases Left(depth), 0
  {
    if depth >= MAX_DEPTH then Outcome(None, Some(DEPTH_ERROR))
    else var r := EvalObject(m, m.objects(id), depth + 1); Outcome(Some(Map(r.result)), r.err)
  }

  function NestedArray(m: Marshalers, id: Id, depth: nat): Outcome<Option<Val>>
    decreases Left(depth), 0
  {
    if depth >= MAX_DEPTH then Outcome(None, Some(DEPTH_ERROR))
    else var r := EvalArray(m, m.arrays(id), depth + 1); Outcome(Some(Arr(r.result)), r.err)
  }

  datatype Effect = Put(p: Pair) | Skip | Open(key: bytes)

  function PutIf(key: bytes, v: Option<Val>): Effect {
    if v.Some? then Put(Pair(key, v.value)) else Skip
  }

  function Contribute(m: Marshalers, op: ObjectOp, depth: nat): Outcome<Effect>
    decreases Left(depth), 1
  {
    match op
    case Add(k, v) => Outcome(Put(Pair(k, v)), None)
    case AddHooked(k, h) => Outcome(Put(Pair(k, Chosen(h))), None)
    case OpenNamespace(k) => Outcome(Open(k), None)
    case AddObject(k, id, strict) =>
      var r := NestedObject(m, id, depth);
      Outcome(PutIf(k, r.result), IfStrict(strict, r.err))
    case AddArray(k, id, strict) =>
      var r := NestedArray(m, id, depth);
      Outcome(PutIf(k, r.result), IfStrict(strict, r.err))
    case AddReflected(k, r, strict) =>
      if r.Done? then Outcome(Put(Pair(k, r.value)), None) else Outcome(Skip, IfStrict(strict, Some(r.text)))
    case Fail(e) => Outcome(Skip, Some(e))
  }

  /** The recursive meaning of a marshaler: the pairs it wrote before it ended or failed. */
  function EvalObject(m: Marshalers, ops: seq<ObjectOp>, depth: nat): Outcome<seq<Pair>>
    decreases Left(depth), 2, |ops|
  {
    if |ops| == 0 then Outcome([], None)
    else
      var c := Contribute(m, ops[0], depth);
      var depth' := if c.result.Open? then depth + 1 else depth;
      var rest := if c.err.Some? then Outcome([], c.err) else EvalObject(m, ops[1..], depth');
      match c.result
      case Put(p) => Outcome([p] + rest.result, rest.err)
      case Skip => rest
      case Open(k) => Outcome([Pair(k, Map(rest.result))], rest.err)
  }

  function Element(m: Marshalers, op: ArrayOp, depth: nat): Outcome<seq<Val>>
    decreases Left(depth), 1
  {
    match op
    case Append(v) => Outcome([v], None)
    case AppendHooked(h) => Outcome(Written(h), None)
    case AppendObject(id, strict) =>
      var r := NestedObject(m, id, depth); Outcome(AsSeq(r.result), IfStrict(strict, r.err))
    case AppendArray(id, strict) =>
      var r := NestedArray(m, id, depth); Outcome(AsSeq(r.result), IfStrict(strict, r.err))
    case AppendReflected(r, strict) =>
      if r.Done? then Outcome([r.value], None) else Outcome([], IfStrict(strict, Some(r.text)))
    case FailArray(e) => Outcome([], Some(e))
  }

  function EvalArray(m: Marshalers, ops: seq<ArrayOp>, depth: nat): Outcome<seq<Val>>
    decreases Left(depth), 2, |ops|
  {
    if |ops| == 0 then Outcome([], None)
    else
      var first := Element(m, ops[0], depth);
      var rest := if first.err.Some? then Outcome([], first.err) else EvalArray(m, ops[1..], depth);
      Outcome(first.result + rest.result, rest.err)
  }

  // ---------------------------------------------------------------------------------------
  // Levels: the pairs added since some point, one level for each namespace opened and not closed
  // ---------------------------------------------------------------------------------------

  type Level = LevelOf<Pair>

  /** The layers after adding `levels[0]` to the top map and opening the others above it. */
  function Push(layers: seq<Layer>, levels: seq<Level>): (r: seq<Layer>)
    requires Settled(layers) && |levels| > 0
    ensures |r| == |layers| + |levels| - 1
    ensures Settled(r) && (Nested(layers) ==> Nested(r))
    decreases |levels|
  {
    var pairs := Last(layers).pairs + levels[0].entries;
    if |levels| == 1 then SetLast(layers, InMap(pairs, None))
    else Push(SetLast(layers, InMap(pairs, Some(levels[1].key))) + [InMap([], None)], levels[1..])
  }

  function Wrapped(key: bytes, pairs: seq<Pair>): Pair {
    Pair(key, Map(pairs))
  }

  function Nest(levels: seq<Level>): seq<Pair>
    requires |levels| > 0
  {
    Closed(levels, Wrapped)
  }

  /** One effect in front of the levels of what follows. */
  function Prefixed(e: Effect, levels: seq<Level>): (r: seq<Level>)
    requires |levels| > 0
    ensures |r| > 0
  {
    match e
    case Put(p) => Prepend(p, levels)
    case Skip => levels
    case Open(k) => Below(k, levels)
  }

  /** A marshaler's effect as levels: like `EvalObject`, before its namespaces are closed. */
  function Delta(m: Marshalers, ops: seq<ObjectOp>, depth: nat): (r: Outcome<seq<Level>>)
    ensures |r.result| > 0
    decreases |ops|
  {
    if |ops| == 0 then Outcome([Level([], [])], None)
    else
      var c := Contribute(m, ops[0], depth);
      var depth' := if c.result.Open? then depth + 1 else depth;
      var rest := if c.err.Some? then Outcome([Level([], [])], c.err) else Delta(m, ops[1..], depth');
      Outcome(Prefixed(c.result, rest.result), rest.err)
  }

  /** Closing the namespaces of a marshaler's levels gives its recursive meaning. */
  lemma {:induction false} NestDelta(m: Marshalers, ops: seq<ObjectOp>, depth: nat)
    ensures
      var d, e := Delta(m, ops, depth), EvalObject(m, ops, depth);
      Nest(d.result) == e.result && d.err == e.err
    decreases |ops|
  {
    hide Contribute;
    if |ops| > 0 {
      var c := Contribute(m, ops[0], depth);
      var depth' := if c.result.Open? then depth + 1 else depth;
      if c.err.None? { NestDelta(m, ops[1..], depth'); }
      var rest := if c.err.Some? then Outcome([Level([], [])], c.err) else Delta(m, ops[1..], depth');
      match c.result
      case Put(p) => ClosedPrepend(p, rest.result, Wrapped);
      case Skip =>
      case Open(k) => ClosedBelow(k, rest.result, Wrapped);
    }
  }

  lemma PushNothing(layers: seq<Layer>)
    requires Settled(layers)
    ensures Push(layers, [Level([], [])]) == layers
  {
    assert Last(layers).pairs + [] == Last(layers).pairs;
  }

  lemma PushPut(layers: seq<Layer>, p: Pair, levels: seq<Level>)
    requires Settled(layers) && |levels| > 0
    ensures Push(SetLast(layers, InMap(Last(layers).pairs + [p], None)), levels) == Push(layers, Prepend(p, levels))
  {
    var pairs := Last(layers).pairs;
    Assoc(pairs, [p], levels[0].entries);
    assert Prepend(p, levels)[1..] == levels[1..];
    var one := SetLast(layers, InMap(pairs + [p], None));
    if |levels| > 1 {
      var l := InMap(pairs + [p] + levels[0].entries, Some(levels[1].key));
      assert SetLast(one, l) == SetLast(layers, l);
    }
  }

  lemma PushOpen(layers: seq<Layer>, key: bytes, levels: seq<Level>)
    requires Settled(layers) && |levels| > 0
    ensures Push(Opened(layers, key), levels) == Push(layers, Below(key, levels))
  {
    var b := Below(key, levels);
    assert b[1..] == [levels[0].(key := key)] + levels[1..];
    assert Last(layers).pairs + [] == Last(layers).pairs;
    KeyIrrelevant(Opened(layers, key), levels, key);
  }

  /** The layers with an empty namespace opened. */
  function Opened(layers: seq<Layer>, key: bytes): (r: seq<Layer>)
    requires Settled(layers)
    ensures Settled(r) && |r| == |layers| + 1
  {
    SetLast(layers, InMap(Last(layers).pairs, Some(key))) + [InMap([], None)]
  }

  lemma KeyIrrelevant(layers: seq<Layer>, levels: seq<Level>, key: bytes)
    requires Settled(layers) && |levels| > 0
    ensures Push(layers, [levels[0].(key := key)] + levels[1..]) == Push(layers, levels)
  {
  }

  /** Closing everything above a map adds the nested pairs to it, and nothing else changes. */
  lemma {:induction false} SealPushed(layers: seq<Layer>, levels: seq<Level>)
    requires Settled(layers) && |levels| > 0
    ensures SealTo(Push(layers, levels), |layers|) == SetLast(layers, InMap(Last(layers).pairs + Nest(levels), None))
    decreases |levels|
  {
    hide Seal;
    if |levels| > 1 {
      var pairs := Last(layers).pairs + levels[0].entries;
      var mid := SetLast(layers, InMap(pairs, Some(levels[1].key))) + [InMap([], None)];
      SealPushed(mid, levels[1..]);
      SealToVia(Push(layers, levels), |layers| + 1, |layers|);
      var inner := Nest(levels[1..]);
      assert [] + inner == inner;
      SealNamespace(layers, pairs, levels[1].key, inner);
      Assoc(Last(layers).pairs, levels[0].entries, [Pair(levels[1].key, Map(inner))]);
    }
  }

  lemma SealNamespace(layers: seq<Layer>, pairs: seq<Pair>, key: bytes, inner: seq<Pair>)
    requires |layers| > 0
    ensures
      var mid := SetLast(layers, InMap(pairs, Some(key))) + [InMap([], None)];
      Seal(SetLast(mid, InMap(inner, None))) == SetLast(layers, InMap(pairs + [Pair(key, Map(inner))], None))
  {
  }

  // ---------------------------------------------------------------------------------------
  // The encoder
  // ---------------------------------------------------------------------------------------

  /** `append*Header`: the count is cast to 32 bits first. */
  function HeaderFor(kind: Kind, count: nat): bytes {
    HeadBytes(if kind.KMap? then HMap(Cast32(count)) else HArr(Cast32(count)))
  }

  /** The popped frame's header and contents written into the frame below. */
  function SealFrame(stack: seq<Frame>): (r: seq<Frame>)
    requires |stack| > 1
    ensures |r| == |stack| - 1
  {
    var top, parent := stack[|stack| - 1], stack[|stack| - 2];
    stack[..|stack| - 1][|stack| - 2 := parent.(buf := parent.buf + (HeaderFor(top.kind, top.count) + top.buf))]
  }

  /** The stack with values appended to its top frame, as the frame's kind counts them. */
  function Extended(stack: seq<Frame>, vs: seq<Val>): (r: seq<Frame>)
    requires |stack| > 0
    ensures |r| == |stack|
  {
    stack[|stack| - 1 := Filled(stack[|stack| - 1], vs)]
  }

  function Filled(t: Frame, vs: seq<Val>): Frame {
    Frame(t.kind, t.buf + EncMany(vs), if t.kind == KArr then t.count + |vs| else t.count)
  }

  lemma OneEncoded(v: Val)
    ensures EncMany([v]) == Enc(v)
  {
    hide Enc;
    assert EncMany([v]) == Enc(v) + EncMany([]);
  }

  lemma NothingEncoded(vs: seq<Val>)
    ensures |EncMany(vs)| == 0 <==> |vs| == 0
  {
  }

  lemma ExtendedNone(stack: seq<Frame>)
    requires |stack| > 0
    ensures Extended(stack, []) == stack
  {
    var t := stack[|stack| - 1];
    assert t.buf + [] == t.buf;
  }

  lemma ExtendedFew(stack: seq<Frame>, vs: seq<Val>, i: nat)
    requires |stack| > 0 && i <= |vs|
    ensures i == 0 ==> Extended(stack, vs[..i]) == stack
    ensures i < |vs| ==> Extended(Extended(stack, vs[..i]), [vs[i]]) == Extended(stack, vs[..i + 1])
  {
    hide EncMany, Enc;
    if i == 0 {
      assert vs[..i] == [];
      ExtendedNone(stack);
    }
    if i < |vs| {
      assert vs[..i + 1] == vs[..i] + [vs[i]];
      EncManyConcat(vs[..i], [vs[i]]);
      Assoc(stack[|stack| - 1].buf, EncMany(vs[..i]), EncMany([vs[i]]));
    }
  }

  /** Accepted values are in the frame, and counted. */
  lemma ShapeAcceptAll(l: Layer, vs: seq<Val>)
    requires if l.InMap? then l.key.Some? && |vs| == 1 else !l.waiting
    ensures Shape(AcceptAll(l, vs)) == Filled(Shape(l), vs)
    ensures AcceptAll(l, vs).InMap? <==> l.InMap?
  {
    hide Enc, EncMany, EncPairs, EncKey;
    if l.InMap? {
      assert vs == [vs[0]];
      OneEncoded(vs[0]);
      ShapeAccept(l, vs[0]);
    } else {
      EncManyConcat(l.vals, vs);
    }
  }

  lemma ExtendedMatches(stack: seq<Frame>, layers: seq<Layer>, vs: seq<Val>)
    requires Matches(stack, layers) && Nested(layers) && Ready(layers) && (Last(layers).InMap? ==> |vs| == 1)
    ensures var layers' := SetLast(layers, AcceptAll(Last(layers), vs));
      Matches(Extended(stack, vs), layers') && Nested(layers')
  {
    hide Shape, AcceptAll, Filled;
    ShapeAcceptAll(Last(layers), vs);
  }

  class MsgEncoder {
    var stack: seq<Frame>
    ghost var layers: seq<Layer>

    ghost predicate Valid()
      reads this
    {
      Matches(stack, layers) && Nested(layers)
    }

    constructor ()
      ensures Valid() && layers == [InMap([], None)]
    {
      stack, layers := [Frame(KMap, [], 0)], [InMap([], None)];
    }

    method AddKey(key: bytes)
      requires Valid() && Settled(layers)
      modifies this
      ensures Valid() && layers == SetLast(old(layers), InMap(Last(old(layers)).pairs, Some(key)))
      ensures Ready(layers)
    {
      hide EncPairs, EncKey, EncMany;
      var t := stack[|stack| - 1];
      ghost var l := Last(layers);
      assert t == Shape(l);
      stack := stack[|stack| - 1 := Frame(t.kind, t.buf + EncKey(key), t.count + 1)];
      layers := SetLast(layers, InMap(l.pairs, Some(key)));
      ShapeKey(l.pairs, key);
    }

    /** Every `Append*` of a scalar, and of an already encoded value: only arrays count it. */
    method AppendRaw(v: Val)
      requires |stack| > 0
      modifies this`stack
      ensures stack == Extended(old(stack), [v])
    {
      hide Enc;
      OneEncoded(v);
      var t := stack[|stack| - 1];
      stack := stack[|stack| - 1 := Frame(t.kind, t.buf + Enc(v), if t.kind == KArr then t.count + 1 else t.count)];
    }

    method AppendValue(v: Val)
      requires Valid() && Ready(layers)
      modifies this
      ensures Valid() && layers == SetLast(old(layers), Accept(Last(old(layers)), v))
    {
      hide Nested, Extended, Shape;
      AcceptFew(Last(layers), v);
      ExtendedMatches(stack, layers, [v]);
      AppendRaw(v);
      layers := SetLast(layers, Accept(Last(layers), v));
    }

    /** What a hook does: a call of an `Append*` for each value. */
    method RunHook(vs: seq<Val>)
      requires |stack| > 0
      modifies this`stack
      ensures stack == Extended(old(stack), vs)
    {
      hide Extended;
      ExtendedFew(stack, vs, 0);
      for i := 0 to |vs|
        invariant |stack| == |old(stack)| && stack == Extended(old(stack), vs[..i])
      {
        ExtendedFew(old(stack), vs, i);
        AppendRaw(vs[i]);
      }
      assert vs[..|vs|] == vs;
    }

    /**
      `AppendDuration`/`AppendTime`: the fallback is written when the hook left the buffer alone.
      Whatever the hook wrote is in the frame; the count invariant holds in an array for any number
      of values, and in a map for one.  `HookExact` shows that it then fails for more.
    */
    method AppendHooked(h: Hooked)
      requires Valid() && Ready(layers)
      modifies this
      ensures stack == Extended(old(stack), Written(h))
      ensures layers == SetLast(old(layers), AcceptAll(Last(old(layers)), Written(h)))
      ensures Last(old(layers)).InArr? || |h.hook| <= 1 ==> Valid()
    {
      hide Shape, AcceptAll, EncMany;
      if Last(layers).InArr? || |h.hook| <= 1 { ExtendedMatches(stack, layers, Written(h)); }
      var before := |stack[|stack| - 1].buf|;
      RunHook(h.hook);
      NothingEncoded(h.hook);
      if |stack[|stack| - 1].buf| == before {
        ExtendedNone(old(stack));
        AppendRaw(h.fallback);
      }
      layers := SetLast(layers, AcceptAll(Last(layers), Written(h)));
    }

    /** `sealDownTo`. */
    method SealDownTo(depth: nat)
      requires Valid() && 1 <= depth <= |stack| && !Pending(Last(layers))
      modifies this
      ensures Valid() && layers == SealTo(old(layers), depth)
    {
      hide Shape, Accept, Seal, HeadBytes;
      while |stack| > depth
        invariant Valid() && depth <= |stack| && !Pending(Last(layers))
        invariant SealTo(layers, depth) == SealTo(old(layers), depth)
        decreases |stack|
      {
        var n := |stack|;
        var top := stack[n - 1];
        ghost var l, below := layers[n - 1], layers[n - 2];
        assert top == Shape(l) && stack[n - 2] == Shape(below) && Pending(below);
        ShapeSealed(l);
        ShapeAccept(below, ValueOf(l));
        AcceptSettles(below, ValueOf(l));
        SealParts(layers);
        stack := stack[..n - 1];
        var parent := stack[n - 2];
        var buf := parent.buf + HeaderFor(top.kind, top.count);
        buf := buf + top.buf;
        Assoc(parent.buf, HeaderFor(top.kind, top.count), top.buf);
        ghost var was := stack + [top];
        stack := stack[n - 2 := Frame(parent.kind, buf, parent.count)];
        assert stack == SealFrame(was);
        layers := Seal(layers);
      }
    }

    method OpenNamespace(key: bytes)
      requires Valid() && Settled(layers)
      modifies this
      ensures Valid() && layers == Opened(old(layers), key)
    {
      hide Shape;
      AddKey(key);
      PushFrame(KMap);
    }

    method PushFrame(kind: Kind)
      requires Valid() && Pending(Last(layers))
      modifies this
      ensures Valid() && layers == old(layers) + [Empty(kind)]
    {
      EmptyShape(kind);
      stack, layers := stack + [Frame(kind, [], 0)], layers + [Empty(kind)];
    }

    /** The top array frame counts the container about to be opened. */
    method CountContainer()
      requires Valid() && Ready(layers)
      modifies this
      ensures Valid() && layers == SetLast(old(layers), Waiting(Last(old(layers)))) && Pending(Last(layers))
    {
      hide EncMany, EncPairs, EncKey;
      var t := stack[|stack| - 1];
      assert t == Shape(Last(layers));
      if t.kind == KArr {
        stack := stack[|stack| - 1 := t.(count := t.count + 1)];
      }
      layers := SetLast(layers, Waiting(Last(layers)));
    }

    /**
      `AppendObject`: one value, the recursive meaning of the marshaler, failing or not; at the
      depth cap nothing.
    */
    method AppendObject(m: Marshalers, id: Id) returns (err: Option<bytes>)
      requires Valid() && Ready(layers)
      modifies this
      ensures Valid()
      ensures
        var r := NestedObject(m, id, |old(layers)|);
        && err == r.err
        && layers == if r.result.None? then old(layers)
            else SetLast(old(layers), Accept(Last(old(layers)), r.result.value))
      decreases Left(|layers|), 0
    {
      hide Shape, Accept, Delta, EvalObject, Push, SealTo, Waiting;
      var d := |stack|;
      if d >= MAX_DEPTH { return Some(DEPTH_ERROR); }
      ghost var before := layers;
      CountContainer();
      PushFrame(KMap);
      ghost var delta := Delta(m, m.objects(id), |layers|);
      NestDelta(m, m.objects(id), |layers|);
      err := RunObject(m, m.objects(id));
      CloseObject(before, delta.result);
      SealDownTo(d + 1);
      SealDownTo(d);
    }

    method AppendArray(m: Marshalers, id: Id) returns (err: Option<bytes>)
      requires Valid() && Ready(layers)
      modifies this
      ensures Valid()
      ensures
        var r := NestedArray(m, id, |old(layers)|);
        && err == r.err
        && layers == if r.result.None? then old(layers)
            else SetLast(old(layers), Accept(Last(old(layers)), r.result.value))
      decreases Left(|layers|), 0
    {
      hide Shape, Accept, EvalArray, SealTo, Waiting;
      var d := |stack|;
      if d >= MAX_DEPTH { return Some(DEPTH_ERROR); }
      ghost var before := layers;
      CountContainer();
      PushFrame(KArr);
      ghost var r := EvalArray(m, m.arrays(id), |layers|);
      err := RunArray(m, m.arrays(id));
      CloseArray(before, r.result);
      SealDownTo(d + 1);
      SealDownTo(d);
    }

    /** `AddObject`: the depth cap is checked before the key is written. */
    method AddObject(m: Marshalers, key: bytes, id: Id) returns (err: Option<bytes>)
      requires Valid() && Settled(layers)
      modifies this
      ensures Valid()
      ensures
        var r := NestedObject(m, id, |old(layers)|);
        err == r.err && layers == Applied(old(layers), PutIf(key, r.result))
      decreases Left(|layers|), 1
    {
      hide Shape, EvalObject;
      if |stack| >= MAX_DEPTH { return Some(DEPTH_ERROR); }
      AddKey(key);
      err := AppendObject(m, id);
    }

    method AddArray(m: Marshalers, key: bytes, id: Id) returns (err: Option<bytes>)
      requires Valid() && Settled(layers)
      modifies this
      ensures Valid()
      ensures
        var r := NestedArray(m, id, |old(layers)|);
        err == r.err && layers == Applied(old(layers), PutIf(key, r.result))
      decreases Left(|layers|), 1
    {
      hide Shape, EvalArray;
      if |stack| >= MAX_DEPTH { return Some(DEPTH_ERROR); }
      AddKey(key);
      err := AppendArray(m, id);
    }

    /** One pair. */
    method AddPair(key: bytes, v: Val)
      requires Valid() && Settled(layers)
      modifies this
      ensures Valid() && layers == Applied(old(layers), Put(Pair(key, v)))
    {
      hide Shape;
      AddKey(key);
      AppendValue(v);
    }

    /** One call of an object marshaler. */
    method Exec(m: Marshalers, op: ObjectOp) returns (err: Option<bytes>)
      requires Valid() && Settled(layers)
      modifies this
      ensures Valid()
      ensures var c := Contribute(m, op, |old(layers)|); err == c.err && layers == Applied(old(layers), c.result)
      decreases Left(|layers|), 2
    {
      hide Shape, NestedObject, NestedArray;
      err := None;
      match op
      case Add(k, v) => AddPair(k, v);
      case AddHooked(k, h) =>
        AddKey(k);
        AppendHooked(h);
        AcceptOne(k, h, Last(old(layers)));
      case OpenNamespace(k) => OpenNamespace(k);
      case AddObject(k, id, strict) =>
        var e := AddObject(m, k, id);
        if strict { err := e; }
      case AddArray(k, id, strict) =>
        var e := AddArray(m, k, id);
        if strict { err := e; }
      case AddReflected(k, r, strict) =>
        if r.Done? { AddPair(k, r.value); }
        else if strict { err := Some(r.text); }
      case Fail(e) => err := Some(e);
    }

    /** `MarshalLogObject` on this encoder. */
    method RunObject(m: Marshalers, ops: seq<ObjectOp>) returns (err: Option<bytes>)
      requires Valid() && Settled(layers)
      modifies this
      ensures Valid()
      ensures var r := Delta(m, ops, |old(layers)|); err == r.err && layers == Push(old(layers), r.result)
      decreases Left(|layers|), 3, |ops|
    {
      hide Shape, Contribute, Push, Prefixed, Applied;
      if |ops| == 0 {
        PushNothing(layers);
        return None;
      }
      ghost var before := layers;
      ghost var c := Contribute(m, ops[0], |layers|);
      err := Exec(m, ops[0]);
      AppliedParts(before, c.result);
      if err.Some? {
        PushNothing(layers);
        PushApplied(before, c.result, [Level([], [])]);
        return;
      }
      ghost var rest := Delta(m, ops[1..], |layers|);
      err := RunObject(m, ops[1..]);
      PushApplied(before, c.result, rest.result);
    }

    method ExecArray(m: Marshalers, op: ArrayOp) returns (err: Option<bytes>)
      requires Valid() && Last(layers).InArr? && !Last(layers).waiting
      modifies this
      ensures Valid()
      ensures var r := Element(m, op, |old(layers)|);
        err == r.err && layers == SetLast(old(layers), InArr(Last(old(layers)).vals + r.result, false))
      decreases Left(|layers|), 1
    {
      hide Shape, NestedObject, NestedArray;
      ghost var vals := Last(layers).vals;
      assert vals + [] == vals;
      err := None;
      match op
      case Append(v) => AppendValue(v);
      case AppendHooked(h) => AppendHooked(h);
      case AppendObject(id, strict) =>
        var e := AppendObject(m, id);
        if strict { err := e; }
      case AppendArray(id, strict) =>
        var e := AppendArray(m, id);
        if strict { err := e; }
      case AppendReflected(r, strict) =>
        if r.Done? { AppendValue(r.value); }
        else if strict { err := Some(r.text); }
      case FailArray(e) => err := Some(e);
    }

    /** `MarshalLogArray` on this encoder. */
    method RunArray(m: Marshalers, ops: seq<ArrayOp>) returns (err: Option<bytes>)
      requires Valid() && Last(layers).InArr? && !Last(layers).waiting
      modifies this
      ensures Valid()
      ensures var r := EvalArray(m, ops, |old(layers)|);
        err == r.err && layers == SetLast(old(layers), InArr(Last(old(layers)).vals + r.result, false))
      decreases Left(|layers|), 3, |ops|
    {
      hide Shape, Element;
      ghost var before := layers;
      ghost var vals := Last(before).vals;
      assert vals + [] == vals;
      if |ops| == 0 { return None; }
      ghost var first := Element(m, ops[0], |layers|);
      err := ExecArray(m, ops[0]);
      if err.Some? {
        assert first.result + [] == first.result;
        return;
      }
      ghost var rest := EvalArray(m, ops[1..], |layers|);
      err := RunArray(m, ops[1..]);
      Assoc(vals, first.result, rest.result);
    }
  }

  lemma AcceptOne(k: bytes, h: PairHook, l: Layer)
    requires l.InMap?
    ensures AcceptAll(InMap(l.pairs, Some(k)), Written(h)) == InMap(l.pairs + [Pair(k, Chosen(h))], None)
  {
  }

  // ---------------------------------------------------------------------------------------
  // Hooks that write more than one value
  // ---------------------------------------------------------------------------------------

  /** A key and two values: what is left over after the pair is not nothing. */
  lemma PairThenMore(ps: seq<Pair>, k: bytes, vs: seq<Val>)
    requires |vs| >= 1
    ensures EncPairs(ps) + EncKey(k) + EncMany(vs) == EncPairs(ps + [Pair(k, vs[0])]) + EncMany(vs[1..])
  {
    hide Enc, EncKey, EncPairs;
    EncPairsSnoc(ps, Pair(k, vs[0]));
    Assoc(EncPairs(ps) + EncKey(k), Enc(vs[0]), EncMany(vs[1..]));
  }

  lemma SettledHook(ps: seq<Pair>, k: bytes, vs: seq<Val>, qs: seq<Pair>)
    requires |vs| >= 1 && |qs| == |ps| + 1 && |EncPairs(qs)| < U32_LIMIT
    requires EncPairs(qs) == EncPairs(ps) + EncKey(k) + EncMany(vs)
    ensures |vs| == 1
  {
    hide Enc, EncKey, EncPairs, EncMany, DecodePairs, PairsSmall;
    var more := ps + [Pair(k, vs[0])];
    PairThenMore(ps, k, vs);
    ShortPairs(qs);
    ShortPairs(more);
    PairsRoundTrip(qs, []);
    PairsRoundTrip(more, EncMany(vs[1..]));
    assert EncPairs(qs) + [] == EncPairs(qs);
    assert |EncMany(vs[1..])| >= |vs[1..]|;
  }

  lemma PendingHook(ps: seq<Pair>, k: bytes, vs: seq<Val>, qs: seq<Pair>, k': bytes)
    requires |qs| == |ps| && |EncPairs(qs) + EncKey(k')| < U32_LIMIT
    requires EncPairs(qs) + EncKey(k') == EncPairs(ps) + EncKey(k) + EncMany(vs)
    ensures |vs| == 0
  {
    hide EncPairs, EncMany, DecodePairs, PairsSmall, HeadBytes, ReadHead;
    Assoc(EncPairs(ps), EncKey(k), EncMany(vs));
    ShortPairs(qs);
    ShortPairs(ps);
    PairsRoundTrip(qs, EncKey(k'));
    PairsRoundTrip(ps, EncKey(k) + EncMany(vs));
    assert EncKey(k') == EncKey(k) + EncMany(vs);
    HeadRoundTrip(HStr(|k'|), k');
    HeadRoundTrip(HStr(|k|), k + EncMany(vs));
    Assoc(HeadBytes(HStr(|k|)), k, EncMany(vs));
    assert |EncMany(vs)| >= |vs|;
  }

  /**
    The exact condition on hooks.  When a hook is called for the value of a pair, the map frame is
    still the frame of some map afterwards if and only if exactly one value was written.
  */
  lemma HookExact(ps: seq<Pair>, k: bytes, vs: seq<Val>)
    requires |vs| >= 1 && |EncPairs(ps) + EncKey(k) + EncMany(vs)| < U32_LIMIT
    ensures (exists l: Layer :: Shape(l) == Frame(KMap, EncPairs(ps) + EncKey(k) + EncMany(vs), |ps| + 1))
        <==> |vs| == 1
  {
    hide EncPairs, EncMany, EncKey, Enc;
    if |vs| == 1 {
      PairThenMore(ps, k, vs);
      assert EncMany(vs[1..]) == [] by { NoValues(); assert vs[1..] == []; }
      var l := InMap(ps + [Pair(k, vs[0])], None);
      assert Shape(l).buf + [] == Shape(l).buf;
      assert Shape(l) == Frame(KMap, EncPairs(ps) + EncKey(k) + EncMany(vs), |ps| + 1);
    } else if l: Layer :| Shape(l) == Frame(KMap, EncPairs(ps) + EncKey(k) + EncMany(vs), |ps| + 1) {
      match l
      case InMap(qs, None) => SettledHook(ps, k, vs, qs);
      case InMap(qs, Some(k')) => PendingHook(ps, k, vs, qs, k');
    }
  }

  lemma NoValues()
    ensures EncMany([]) == []
  {
  }

  function Empty(kind: Kind): Layer {
    if kind.KMap? then InMap([], None) else InArr([], false)
  }

  lemma EmptyShape(kind: Kind)
    ensures Shape(Empty(kind)) == Frame(kind, [], 0)
  {
  }

  function Waiting(l: Layer): Layer {
    if l.InArr? then InArr(l.vals, true) else l
  }

  /** The layers after one call on an object encoder. */
  function Applied(layers: seq<Layer>, e: Effect): (r: seq<Layer>)
    requires Settled(layers)
  {
    match e
    case Put(p) => SetLast(layers, InMap(Last(layers).pairs + [p], None))
    case Skip => layers
    case Open(k) => Opened(layers, k)
  }

  lemma AppliedParts(layers: seq<Layer>, e: Effect)
    requires Settled(layers)
    ensures Settled(Applied(layers, e))
    ensures |Applied(layers, e)| == if e.Open? then |layers| + 1 else |layers|
  {
  }

  lemma PushApplied(layers: seq<Layer>, e: Effect, levels: seq<Level>)
    requires Settled(layers) && |levels| > 0 && Settled(Applied(layers, e))
    ensures Push(Applied(layers, e), levels) == Push(layers, Prefixed(e, levels))
  {
    hide Push, Prepend, Below, Opened;
    match e
    case Put(p) => PushPut(layers, p, levels);
    case Skip =>
    case Open(k) => PushOpen(layers, k, levels);
  }

  lemma SealTop(layers: seq<Layer>, top: Layer)
    requires |layers| > 0
    ensures SealTo(layers + [top], |layers|) == SetLast(layers, Accept(Last(layers), ValueOf(top)))
  {
  }

  lemma CloseObject(before: seq<Layer>, levels: seq<Level>)
    requires Ready(before) && |levels| > 0
    ensures
      var inside := SetLast(before, Waiting(Last(before))) + [Empty(KMap)];
      var closed := SealTo(Push(inside, levels), |before| + 1);
      && !Pending(Last(closed))
      && SealTo(closed, |before|) == SetLast(before, Accept(Last(before), Map(Nest(levels))))
  {
    hide Push, SealTo, Seal, Nest;
    var waiting := SetLast(before, Waiting(Last(before)));
    SealPushed(waiting + [Empty(KMap)], levels);
    var top := InMap([] + Nest(levels), None);
    assert SetLast(waiting + [Empty(KMap)], top) == waiting + [top];
    SealTop(waiting, top);
    assert [] + Nest(levels) == Nest(levels);
  }

  lemma CloseArray(before: seq<Layer>, vals: seq<Val>)
    requires Ready(before)
    ensures
      var inside := SetLast(before, Waiting(Last(before))) + [Empty(KArr)];
      var closed := SealTo(SetLast(inside, InArr([] + vals, false)), |before| + 1);
      && !Pending(Last(closed))
      && SealTo(closed, |before|) == SetLast(before, Accept(Last(before), Arr(vals)))
  {
    hide Seal;
    var waiting := SetLast(before, Waiting(Last(before)));
    var top := InArr([] + vals, false);
    assert SetLast(waiting + [Empty(KArr)], top) == waiting + [top];
    SealTop(waiting, top);
    assert [] + vals == vals;
  }

  lemma AcceptSettles(l: Layer, v: Val)
    requires Pending(l)
    ensures !Pending(Accept(l, v)) && (Accept(l, v).InMap? <==> l.InMap?)
  {
  }

  lemma SealParts(layers: seq<Layer>)
    requires |layers| > 1
    ensures var s := Seal(layers);
      && (forall i :: 0 <= i < |layers| - 2 ==> s[i] == layers[i])
      && Last(s) == Accept(layers[|layers| - 2], ValueOf(Last(layers)))
  {
  }
}
