/**
  The proto-writing frame stack of otlp/attr.go.  A frame holds the already-tagged entries of one
  open container; sealing writes the container, length first, into the frame below.  Marshalers may
  fail half way, leave namespaces open, or nest past the depth cap.
*/
module FrameStack {
  import opened Wire
  import opened Envelope
  import opened Attributes
  import opened Levels

  datatype Kind = Root | KVList | Array
  datatype Frame = Frame(kind: Kind, nsKey: bytes, buf: bytes)

  function EntryTag(k: Kind): byte {
    if k.Root? then 0x32 else 0x0a
  }

  // ---------------------------------------------------------------------------------------
  // Stacks as values
  // ---------------------------------------------------------------------------------------

  function Top(stack: seq<Frame>): Frame
    requires |stack| > 0
  {
    stack[|stack| - 1]
  }

  /** The stack with `extra` appended to its top buffer. */
  function Grow(stack: seq<Frame>, extra: bytes): (r: seq<Frame>)
    requires |stack| > 0
    ensures |r| == |stack| && r[..|stack| - 1] == stack[..|stack| - 1]
  {
    stack[|stack| - 1 := Top(stack).(buf := Top(stack).buf + extra)]
  }

  /** What a value adds to a container: a bare AnyValue in an array, a KeyValue elsewhere. */
  function EntryBytes(k: Kind, key: bytes, v: Value): bytes {
    if k.Array? then TaggedBytes(0x0a, ValueBytes(v)) else TaggedBytes(EntryTag(k), KvBytes(KeyValue(key, v)))
  }

  /** The same from the bytes of the AnyValue. */
  function WrapEntry(k: Kind, key: bytes, av: bytes): bytes {
    if k.Array? then TaggedBytes(0x0a, av)
    else TaggedBytes(EntryTag(k), TaggedBytes(0x0a, key) + TaggedBytes(0x12, av))
  }

  /** The AnyValue a frame becomes when it is sealed. */
  function Sealed(f: Frame): bytes {
    TaggedBytes(if f.kind.Array? then 0x2a else 0x32, f.buf)
  }

  function Seal(stack: seq<Frame>): (r: seq<Frame>)
    requires |stack| > 1
    ensures |r| == |stack| - 1
  {
    var below := stack[..|stack| - 1];
    Grow(below, WrapEntry(Top(below).kind, Top(stack).nsKey, Sealed(Top(stack))))
  }

  function SealTo(stack: seq<Frame>, depth: nat): (r: seq<Frame>)
    requires 1 <= depth <= |stack|
    ensures |r| == depth
    decreases |stack|
  {
    if |stack| == depth then stack else SealTo(Seal(stack), depth)
  }

  // ---------------------------------------------------------------------------------------
  // Levels: the entries added since some point, one level for each namespace inside and not closed
  // ---------------------------------------------------------------------------------------

  type Level = LevelOf<KeyValue>

  function Frames(levels: seq<Level>): (r: seq<Frame>)
    ensures |r| == |levels|
  {
    seq(|levels|, i requires 0 <= i < |levels| => Frame(KVList, levels[i].key, KvsBytes(0x0a, levels[i].entries)))
  }

  /** The stack after adding `levels[0]` to its top frame and opening the others above it. */
  function Push(stack: seq<Frame>, levels: seq<Level>): (r: seq<Frame>)
    requires |stack| > 0 && |levels| > 0
    ensures |r| == |stack| + |levels| - 1
  {
    Grow(stack, KvsBytes(EntryTag(Top(stack).kind), levels[0].entries)) + Frames(levels[1..])
  }

  function Wrapped(key: bytes, kvs: seq<KeyValue>): KeyValue {
    KeyValue(key, Kvs(kvs))
  }

  /** The tree the levels stand for once every namespace is closed. */
  function Nest(levels: seq<Level>): seq<KeyValue>
    requires |levels| > 0
  {
    Closed(levels, Wrapped)
  }

  /** A marshaler's effect as levels: like `EvalObject`, before its namespaces are closed. */
  function Delta(m: Marshalers, ops: seq<ObjectOp>, depth: nat, sink: Option<Trace>): (r: Evaluated<seq<Level>>)
    ensures r.result.Done? ==> |r.result.value| > 0
    decreases |ops|
  {
    if |ops| == 0 then Evaluated(Done([Level([], [])]), sink)
    else
      match Contribute(m, ops[0], depth, sink)
      case (Error(e), sink') => Evaluated(Err(e), sink')
      case (Skip, sink') => Delta(m, ops[1..], depth, sink')
      case (Put(kv), sink') =>
        var r := Delta(m, ops[1..], depth, sink');
        Evaluated(if r.result.Done? then Done(Prepend(kv, r.result.value)) else r.result, r.sink)
      case (Open(k), sink') =>
        var r := Delta(m, ops[1..], depth + 1, sink');
        Evaluated(if r.result.Done? then Done(Below(k, r.result.value)) else r.result, r.sink)
  }

  /** Closing the namespaces of a marshaler's levels gives its recursive meaning. */
  lemma {:induction false} NestDelta(m: Marshalers, ops: seq<ObjectOp>, depth: nat, sink: Option<Trace>)
    ensures
      var d, e := Delta(m, ops, depth, sink), EvalObject(m, ops, depth, sink);
      && d.sink == e.sink
      && (d.result.Done? <==> e.result.Done?)
      && (d.result.Done? ==> Nest(d.result.value) == e.result.value)
      && (d.result.Err? ==> d.result.text == e.result.text)
    decreases |ops|
  {
    hide Contribute;
    if |ops| > 0 {
      match Contribute(m, ops[0], depth, sink)
      case (Error(e), sink') =>
      case (Skip, sink') => NestDelta(m, ops[1..], depth, sink');
      case (Put(kv), sink') =>
        NestDelta(m, ops[1..], depth, sink');
        var r := Delta(m, ops[1..], depth, sink');
        if r.result.Done? { ClosedPrepend(kv, r.result.value, Wrapped); }
      case (Open(k), sink') =>
        NestDelta(m, ops[1..], depth + 1, sink');
        var r := Delta(m, ops[1..], depth + 1, sink');
        if r.result.Done? { ClosedBelow(k, r.result.value, Wrapped); }
    }
  }

  // ---------------------------------------------------------------------------------------
  // How levels compose on a stack
  // ---------------------------------------------------------------------------------------

  lemma EntryWraps(k: Kind, key: bytes, v: Value)
    ensures EntryBytes(k, key, v) == WrapEntry(k, key, ValueBytes(v))
  {
    hide TaggedBytes, ValueBytes;
  }

  lemma GrowNothing(stack: seq<Frame>)
    requires |stack| > 0
    ensures Grow(stack, []) == stack
  {
    assert Top(stack).buf + [] == Top(stack).buf;
  }

  lemma PushPut(stack: seq<Frame>, kv: KeyValue, levels: seq<Level>)
    requires |stack| > 0 && |levels| > 0 && !Top(stack).kind.Array?
    ensures Push(Grow(stack, EntryBytes(Top(stack).kind, kv.key, kv.value)), levels) == Push(stack, Prepend(kv, levels))
  {
    hide KvsBytes, KvBytes, TaggedBytes, Frames, Grow;
    var tag := EntryTag(Top(stack).kind);
    var first := EntryBytes(Top(stack).kind, kv.key, kv.value);
    var rest := KvsBytes(tag, levels[0].entries);
    KvsOne(tag, kv);
    KvsConcat(tag, [kv], levels[0].entries);
    assert Prepend(kv, levels)[1..] == levels[1..];
    GrowGrow(stack, first, rest);
  }

  lemma GrowGrow(stack: seq<Frame>, a: bytes, b: bytes)
    requires |stack| > 0
    ensures Grow(Grow(stack, a), b) == Grow(stack, a + b) && Top(Grow(stack, a)).kind == Top(stack).kind
  {
    assert Top(stack).buf + a + b == Top(stack).buf + (a + b);
  }

  lemma PushOpen(stack: seq<Frame>, key: bytes, levels: seq<Level>)
    requires |stack| > 0 && |levels| > 0
    ensures Push(stack + [Frame(KVList, key, [])], levels) == Push(stack, Below(key, levels))
  {
    var tag := EntryTag(Top(stack).kind);
    var b := Below(key, levels);
    GrowNothing(stack);
    assert b[1..] == [levels[0].(key := key)] + levels[1..];
    assert Frames(b[1..]) == [Frame(KVList, key, KvsBytes(0x0a, levels[0].entries))] + Frames(levels[1..]);
    assert [] + KvsBytes(0x0a, levels[0].entries) == KvsBytes(0x0a, levels[0].entries);
  }

  lemma PushNothing(stack: seq<Frame>)
    requires |stack| > 0
    ensures Push(stack, [Level([], [])]) == stack
  {
    GrowNothing(stack);
    assert Frames([]) == [];
  }

  lemma {:induction false} SealToVia(stack: seq<Frame>, mid: nat, depth: nat)
    requires 1 <= depth <= mid <= |stack|
    ensures SealTo(stack, depth) == SealTo(SealTo(stack, mid), depth)
    decreases |stack|
  {
    hide Seal;
    if mid < |stack| { SealToVia(Seal(stack), mid, depth); }
  }

  /** Sealing one key-value frame writes exactly the entry of its key-value list. */
  lemma SealKvs(stack: seq<Frame>, key: bytes, kvs: seq<KeyValue>)
    requires |stack| > 0
    ensures Seal(stack + [Frame(KVList, key, KvsBytes(0x0a, kvs))])
         == Grow(stack, EntryBytes(Top(stack).kind, key, Kvs(kvs)))
  {
    hide TaggedBytes, KvsBytes;
    var s := stack + [Frame(KVList, key, KvsBytes(0x0a, kvs))];
    assert s[..|s| - 1] == stack;
    EntryWraps(Top(stack).kind, key, Kvs(kvs));
  }

  lemma SealArr(stack: seq<Frame>, key: bytes, vs: seq<Value>)
    requires |stack| > 0
    ensures Seal(stack + [Frame(Array, key, ValuesBytes(vs))])
         == Grow(stack, EntryBytes(Top(stack).kind, key, Arr(vs)))
  {
    hide TaggedBytes, ValuesBytes;
    var s := stack + [Frame(Array, key, ValuesBytes(vs))];
    assert s[..|s| - 1] == stack;
    EntryWraps(Top(stack).kind, key, Arr(vs));
  }

  /** Closing everything above a frame adds the nested entries to it, and nothing else changes. */
  lemma {:induction false} SealPushed(stack: seq<Frame>, levels: seq<Level>)
    requires |stack| > 0 && |levels| > 0 && !Top(stack).kind.Array?
    ensures SealTo(Push(stack, levels), |stack|) == Grow(stack, KvsBytes(EntryTag(Top(stack).kind), Nest(levels)))
    decreases |levels|
  {
    hide Seal, KvsBytes, Grow;
    var kind := Top(stack).kind;
    var tag := EntryTag(kind);
    if |levels| == 1 {
      assert Frames(levels[1..]) == [];
    } else {
      var mid := Grow(stack, KvsBytes(tag, levels[0].entries));
      var inner := Nest(levels[1..]);
      PushSplit(stack, levels);
      var inside := mid + [Frame(KVList, levels[1].key, [])];
      SealPushed(inside, levels[1..]);
      SealToVia(Push(stack, levels), |stack| + 1, |stack|);
      assert Grow(inside, KvsBytes(0x0a, inner)) == mid + [Frame(KVList, levels[1].key, KvsBytes(0x0a, inner))] by {
        GrowLast(mid, levels[1].key, KvsBytes(0x0a, inner));
      }
      SealKvs(mid, levels[1].key, inner);
      GrowTwice(stack, levels[0].entries, KeyValue(levels[1].key, Kvs(inner)));
    }
  }

  lemma GrowLast(stack: seq<Frame>, key: bytes, extra: bytes)
    ensures Grow(stack + [Frame(KVList, key, [])], extra) == stack + [Frame(KVList, key, extra)]
  {
    assert [] + extra == extra;
  }

  lemma PushSplit(stack: seq<Frame>, levels: seq<Level>)
    requires |stack| > 0 && |levels| > 1
    ensures Push(stack, levels)
         == Push(Grow(stack, KvsBytes(EntryTag(Top(stack).kind), levels[0].entries))
             + [Frame(KVList, levels[1].key, [])], levels[1..])
  {
    hide KvsBytes;
    var mid := Grow(stack, KvsBytes(EntryTag(Top(stack).kind), levels[0].entries));
    GrowLast(mid, levels[1].key, KvsBytes(0x0a, levels[1].entries));
    assert Frames(levels[1..]) == [Frames(levels[1..])[0]] + Frames(levels[1..][1..]);
  }

  lemma GrowTwice(stack: seq<Frame>, entries: seq<KeyValue>, kv: KeyValue)
    requires |stack| > 0 && !Top(stack).kind.Array?
    ensures var tag := EntryTag(Top(stack).kind);
      var mid := Grow(stack, KvsBytes(tag, entries));
      Grow(mid, EntryBytes(Top(mid).kind, kv.key, kv.value)) == Grow(stack, KvsBytes(tag, entries + [kv]))
  {
    hide KvBytes, TaggedBytes;
    var tag := EntryTag(Top(stack).kind);
    KvsOne(tag, kv);
    KvsConcat(tag, entries, [kv]);
    assert Top(stack).buf + KvsBytes(tag, entries) + KvsBytes(tag, [kv])
        == Top(stack).buf + (KvsBytes(tag, entries) + KvsBytes(tag, [kv]));
  }

  // ---------------------------------------------------------------------------------------
  // What a failed marshaler may leave behind
  // ---------------------------------------------------------------------------------------

  /** Frames below the top are as before and the top only grew: truncating restores the stack. */
  predicate Grown(before: seq<Frame>, after: seq<Frame>)
    requires |before| > 0
  {
    && |after| >= |before|
    && after[..|before| - 1] == before[..|before| - 1]
    && after[|before| - 1].kind == Top(before).kind && after[|before| - 1].nsKey == Top(before).nsKey
    && Top(before).buf <= after[|before| - 1].buf
  }

  lemma GrownTrans(a: seq<Frame>, b: seq<Frame>, c: seq<Frame>)
    requires |a| > 0 && |b| > 0 && Grown(a, b) && Grown(b, c)
    ensures Grown(a, c)
  {
  }

  function CutBack(stack: seq<Frame>, depth: nat, bufLen: nat): seq<Frame>
    requires 1 <= depth <= |stack| && bufLen <= |stack[depth - 1].buf|
  {
    stack[..depth - 1] + [stack[depth - 1].(buf := stack[depth - 1].buf[..bufLen])]
  }

  lemma RollbackExact(before: seq<Frame>, after: seq<Frame>)
    requires |before| > 0 && Grown(before, after)
    ensures CutBack(after, |before|, |Top(before).buf|) == before
  {
    assert after[|before| - 1].buf[..|Top(before).buf|] == Top(before).buf;
  }

  // ---------------------------------------------------------------------------------------
  // The encoder state
  // ---------------------------------------------------------------------------------------

  /** An entry: its lengths first, then its parts. */
  method AppendEntry(dst: bytes, kind: Kind, key: bytes, av: bytes) returns (r: bytes)
    ensures r == dst + WrapEntry(kind, key, av)
  {
    hide Uvarint, TaggedLen, UvarintLen;
    if kind.Array? {
      r := AppendTaggedBytes(dst, EntryTag(kind), av);
    } else {
      var kvLen := TaggedLen(|key|) + TaggedLen(|av|);
      TaggedLenExact(0x0a, key);
      TaggedLenExact(0x12, av);
      ghost var kv := TaggedBytes(0x0a, key) + TaggedBytes(0x12, av);
      r := AppendUvarint(dst + [EntryTag(kind)], kvLen);
      r := AppendTaggedBytes(r, 0x0a, key);
      r := AppendTaggedBytes(r, 0x12, av);
      assert r == dst + ([EntryTag(kind)] + Uvarint(|kv|) + kv);
    }
  }

  /** A sealed frame: every enclosing length is computed before the contents are copied. */
  method AppendSealed(dst: bytes, parent: Kind, top: Frame) returns (r: bytes)
    ensures r == dst + WrapEntry(parent, top.nsKey, Sealed(top))
  {
    hide Uvarint, TaggedLen, UvarintLen;
    var avTag: byte := if top.kind.Array? then 0x2a else 0x32;
    var avLen := TaggedLen(|top.buf|);
    TaggedLenExact(avTag, top.buf);
    ghost var av := TaggedBytes(avTag, top.buf);
    if parent.Array? {
      r := AppendUvarint(dst + [EntryTag(parent)], avLen);
      r := AppendTaggedBytes(r, avTag, top.buf);
      assert r == dst + ([EntryTag(parent)] + Uvarint(|av|) + av);
    } else {
      var kvLen := TaggedLen(|top.nsKey|) + TaggedLen(avLen);
      TaggedLenExact(0x0a, top.nsKey);
      TaggedLenExact(0x12, av);
      ghost var kv := TaggedBytes(0x0a, top.nsKey) + TaggedBytes(0x12, av);
      r := AppendUvarint(dst + [EntryTag(parent)], kvLen);
      r := AppendTaggedBytes(r, 0x0a, top.nsKey);
      r := AppendUvarint(r + [0x12], avLen);
      r := AppendTaggedBytes(r, avTag, top.buf);
      assert r == dst + ([EntryTag(parent)] + Uvarint(|kv|) + kv);
    }
  }

  class EncState {
    var stack: seq<Frame>
    var sink: Option<Trace>

    constructor ()
      ensures stack == [Frame(Root, [], [])] && sink == None
    {
      stack, sink := [Frame(Root, [], [])], None;
    }

    /** `addKV`/`addAV` on the frame at `index`. */
    method AddEntry(index: nat, key: bytes, av: bytes)
      requires index < |stack|
      modifies this`stack
      ensures stack == old(stack)[index := old(stack)[index].(buf := old(stack)[index].buf
          + WrapEntry(old(stack)[index].kind, key, av))]
    {
      hide WrapEntry;
      var f := stack[index];
      var buf := AppendEntry(f.buf, f.kind, key, av);
      stack := stack[index := f.(buf := buf)];
    }

    /** The `any*` builders and `addValue`. */
    method AddScalar(key: bytes, v: Scalar)
      requires |stack| > 0
      modifies this`stack
      ensures stack == Grow(old(stack), EntryBytes(Top(old(stack)).kind, key, v))
    {
      EntryWraps(Top(stack).kind, key, v);
      AddEntry(|stack| - 1, key, ValueBytes(v));
    }

    /** `addKVRoot`: entry metadata goes to the root frame whatever is open. */
    method AddRoot(key: bytes, v: Scalar)
      requires |stack| > 0
      modifies this`stack
      ensures stack == old(stack)[0 := old(stack)[0].(buf := old(stack)[0].buf
          + EntryBytes(old(stack)[0].kind, key, v))]
    {
      EntryWraps(stack[0].kind, key, v);
      AddEntry(0, key, ValueBytes(v));
    }

    method OpenFrame(kind: Kind, key: bytes)
      modifies this`stack
      ensures stack == old(stack) + [Frame(kind, key, [])]
    {
      stack := stack + [Frame(kind, key, [])];
    }

    /** `sealTop`. */
    method SealTop()
      requires |stack| > 1
      modifies this`stack
      ensures stack == Seal(old(stack))
    {
      hide WrapEntry, Sealed;
      var top := Top(stack);
      stack := stack[..|stack| - 1];
      var parent := Top(stack);
      var buf := AppendSealed(parent.buf, parent.kind, top);
      stack := stack[|stack| - 1 := parent.(buf := buf)];
    }

    method SealDownTo(depth: nat)
      requires 1 <= depth <= |stack|
      modifies this`stack
      ensures stack == SealTo(old(stack), depth)
    {
      hide Seal;
      while |stack| > depth
        invariant depth <= |stack|
        invariant SealTo(stack, depth) == SealTo(old(stack), depth)
        decreases |stack|
      {
        SealTop();
      }
    }

    /** `rollback`: drop the frames above the snapshot, cut the frame it was taken on. */
    method Rollback(depth: nat, bufLen: nat)
      requires 1 <= depth <= |stack| && bufLen <= |stack[depth - 1].buf|
      modifies this`stack
      ensures stack == CutBack(old(stack), depth, bufLen)
    {
      while |stack| > depth
        invariant depth <= |stack| <= |old(stack)| && stack == old(stack)[..|stack|]
        decreases |stack|
      {
        stack := stack[..|stack| - 1];
      }
      var f := Top(stack);
      stack := stack[|stack| - 1 := f.(buf := f.buf[..bufLen])];
    }

    /**
      `AddObject`/`AppendObject`.  The entry equals the recursive serialization of the object; a
      failure, or the depth cap, leaves the stack exactly as it was.
    */
    method AddObject(m: Marshalers, key: bytes, id: Id) returns (err: Option<bytes>)
      requires |stack| > 0
      modifies this
      ensures
        var r := NestedObject(m, id, |old(stack)|, old(sink));
        && sink == r.sink
        && err == (if r.result.Err? then Some(r.result.text) else None)
        && stack == if r.result.Err? then old(stack)
            else Grow(old(stack), EntryBytes(Top(old(stack)).kind, key, r.result.value))
      decreases Left(|stack|), 0
    {
      hide EntryBytes, Seal, Grow, Contribute, Delta, EvalObject, Push;
      if |stack| >= MAX_DEPTH { return Some(DEPTH_ERROR); }
      ghost var before := stack;
      ghost var inside := stack + [Frame(KVList, key, [])];
      var depth, bufLen := |stack|, |Top(stack).buf|;
      OpenFrame(KVList, key);
      NestDelta(m, m.objects(id), |inside|, sink);
      ghost var d := Delta(m, m.objects(id), |inside|, sink);
      err := RunObject(m, m.objects(id));
      if err.Some? {
        FailedInside(before, key, stack);
        Rollback(depth, bufLen);
        return;
      }
      CloseObject(before, key, d.result.value);
      SealDownTo(depth);
    }

    method AddArray(m: Marshalers, key: bytes, id: Id) returns (err: Option<bytes>)
      requires |stack| > 0
      modifies this
      ensures
        var r := NestedArray(m, id, |old(stack)|, old(sink));
        && sink == r.sink
        && err == (if r.result.Err? then Some(r.result.text) else None)
        && stack == if r.result.Err? then old(stack)
            else Grow(old(stack), EntryBytes(Top(old(stack)).kind, key, r.result.value))
      decreases Left(|stack|), 0
    {
      hide EntryBytes, Seal, Grow, Element, EvalArray;
      if |stack| >= MAX_DEPTH { return Some(DEPTH_ERROR); }
      ghost var before := stack;
      ghost var inside := stack + [Frame(Array, key, [])];
      var depth, bufLen := |stack|, |Top(stack).buf|;
      OpenFrame(Array, key);
      ghost var r := EvalArray(m, m.arrays(id), |inside|, sink);
      err := RunArray(m, m.arrays(id));
      if err.Some? {
        FailedInside(before, key, stack);
        Rollback(depth, bufLen);
        return;
      }
      CloseArray(before, key, r.result.value);
      SealDownTo(depth);
    }

    /** One call of an object marshaler. */
    method Exec(m: Marshalers, op: ObjectOp) returns (err: Option<bytes>)
      requires |stack| > 0 && !Top(stack).kind.Array?
      modifies this
      ensures
        var (c, sink') := Contribute(m, op, |old(stack)|, old(sink));
        && sink == sink'
        && err == (if c.Error? then Some(c.text) else None)
        && stack == match c
                    case Put(kv) => Grow(old(stack), EntryBytes(Top(old(stack)).kind, kv.key, kv.value))
                    case Open(k) => old(stack) + [Frame(KVList, k, [])]
                    case Skip => old(stack)
                    case Error(_) => old(stack)
      decreases Left(|stack|), 1
    {
      hide EntryBytes, NestedObject, NestedArray, Grow;
      err := None;
      match op
      case Add(k, v) => AddScalar(k, v);
      case OpenNamespace(k) => OpenFrame(KVList, k);
      case AddObject(k, id, strict) =>
        var e := AddObject(m, k, id);
        if strict { err := e; }
      case AddArray(k, id, strict) =>
        var e := AddArray(m, k, id);
        if strict { err := e; }
      case AddReflected(k, text, strict) =>
        if text.Done? { AddScalar(k, Str(text.value)); }
        else if strict { err := Some(text.text); }
      case AddTrace(sc) => sink := Some(sc);
      case Fail(e) => err := Some(e);
    }

    /** `MarshalLogObject` on this encoder. */
    method RunObject(m: Marshalers, ops: seq<ObjectOp>) returns (err: Option<bytes>)
      requires |stack| > 0 && !Top(stack).kind.Array?
      modifies this
      ensures
        var r := Delta(m, ops, |old(stack)|, old(sink));
        && sink == r.sink
        && err == (if r.result.Err? then Some(r.result.text) else None)
        && (r.result.Done? ==> stack == Push(old(stack), r.result.value))
        && (r.result.Err? ==> Grown(old(stack), stack))
      decreases Left(|stack|), 2, |ops|
    {
      hide EntryBytes, Contribute, Push, Prepend, Below;
      if |ops| == 0 {
        PushNothing(stack);
        return None;
      }
      ghost var before := stack;
      ghost var (c, sink') := Contribute(m, ops[0], |stack|, sink);
      err := Exec(m, ops[0]);
      if err.Some? { return; }
      ghost var mid := stack;
      assert Grown(before, mid);
      ghost var r := Delta(m, ops[1..], |stack|, sink);
      err := RunObject(m, ops[1..]);
      if err.Some? {
        GrownTrans(before, mid, stack);
      } else if c.Put? {
        PushPut(before, c.kv, r.result.value);
      } else if c.Open? {
        PushOpen(before, c.key, r.result.value);
      }
    }

    method ExecArray(m: Marshalers, op: ArrayOp) returns (err: Option<bytes>)
      requires |stack| > 0 && Top(stack).kind.Array?
      modifies this
      ensures
        var r := Element(m, op, |old(stack)|, old(sink));
        && sink == r.sink
        && err == (if r.result.Err? then Some(r.result.text) else None)
        && stack == if r.result.Done? && r.result.value.Some?
                    then Grow(old(stack), TaggedBytes(0x0a, ValueBytes(r.result.value.value))) else old(stack)
      decreases Left(|stack|), 1
    {
      hide NestedObject, NestedArray, Grow, TaggedBytes, ValueBytes;
      err := None;
      match op
      case Append(v) => AddScalar([], v);
      case AppendObject(id, strict) =>
        var e := AddObject(m, [], id);
        if strict { err := e; }
      case AppendArray(id, strict) =>
        var e := AddArray(m, [], id);
        if strict { err := e; }
      case AppendReflected(text, strict) =>
        if text.Done? { AddScalar([], Str(text.value)); }
        else if strict { err := Some(text.text); }
      case FailArray(e) => err := Some(e);
    }

    /** `MarshalLogArray` on this encoder. */
    method RunArray(m: Marshalers, ops: seq<ArrayOp>) returns (err: Option<bytes>)
      requires |stack| > 0 && Top(stack).kind.Array?
      modifies this
      ensures
        var r := EvalArray(m, ops, |old(stack)|, old(sink));
        && sink == r.sink
        && err == (if r.result.Err? then Some(r.result.text) else None)
        && (r.result.Done? ==> stack == Grow(old(stack), ValuesBytes(r.result.value)))
        && (r.result.Err? ==> Grown(old(stack), stack))
      decreases Left(|stack|), 2, |ops|
    {
      hide Element, ValueBytes, TaggedBytes;
      if |ops| == 0 {
        GrowNothing(stack);
        return None;
      }
      ghost var before := stack;
      ghost var first := Element(m, ops[0], |stack|, sink);
      err := ExecArray(m, ops[0]);
      if err.Some? { return; }
      ghost var mid := stack;
      assert Grown(before, mid);
      ghost var rest := EvalArray(m, ops[1..], |stack|, sink);
      err := RunArray(m, ops[1..]);
      if err.Some? {
        GrownTrans(before, mid, stack);
      } else if first.result.value.Some? {
        GrowValue(before, first.result.value.value, rest.result.value);
      } else {
        assert [] + rest.result.value == rest.result.value;
      }
    }
  }

  lemma GrowValue(stack: seq<Frame>, v: Value, vs: seq<Value>)
    requires |stack| > 0
    ensures Grow(Grow(stack, TaggedBytes(0x0a, ValueBytes(v))), ValuesBytes(vs)) == Grow(stack, ValuesBytes([v] + vs))
  {
    hide ValueBytes, TaggedBytes;
    ValuesOne(v);
    ValuesConcat([v], vs);
    assert Top(stack).buf + ValuesBytes([v]) + ValuesBytes(vs) == Top(stack).buf + (ValuesBytes([v]) + ValuesBytes(vs));
  }

  /** Whatever happened above a freshly inside frame, the frames below it are untouched. */
  lemma FailedInside(before: seq<Frame>, key: bytes, after: seq<Frame>)
    requires |before| > 0
    requires exists kind :: Grown(before + [Frame(kind, key, [])], after)
    ensures Grown(before, after) && CutBack(after, |before|, |Top(before).buf|) == before
  {
    var kind :| Grown(before + [Frame(kind, key, [])], after);
    var inside := before + [Frame(kind, key, [])];
    assert inside[..|inside| - 1] == before;
    assert after[|before| - 1] == after[..|before|][|before| - 1];
    assert after[..|before| - 1] == after[..|before|][..|before| - 1];
    RollbackExact(before, after);
  }

  lemma CloseObject(before: seq<Frame>, key: bytes, levels: seq<Level>)
    requires |before| > 0 && |levels| > 0
    ensures SealTo(Push(before + [Frame(KVList, key, [])], levels), |before|)
         == Grow(before, EntryBytes(Top(before).kind, key, Kvs(Nest(levels))))
  {
    hide Seal, EntryBytes, Push, KvsBytes, Grow;
    var inside := before + [Frame(KVList, key, [])];
    SealPushed(inside, levels);
    SealToVia(Push(inside, levels), |inside|, |before|);
    GrowLast(before, key, KvsBytes(0x0a, Nest(levels)));
    SealKvs(before, key, Nest(levels));
  }

  lemma CloseArray(before: seq<Frame>, key: bytes, vs: seq<Value>)
    requires |before| > 0
    ensures SealTo(Grow(before + [Frame(Array, key, [])], ValuesBytes(vs)), |before|)
         == Grow(before, EntryBytes(Top(before).kind, key, Arr(vs)))
  {
    hide Seal, EntryBytes, ValuesBytes;
    assert [] + ValuesBytes(vs) == ValuesBytes(vs);
    assert Grow(before + [Frame(Array, key, [])], ValuesBytes(vs)) == before + [Frame(Array, key, ValuesBytes(vs))];
    SealArr(before, key, vs);
  }
}
