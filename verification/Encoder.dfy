/**
  `EncodeEntry` of the OTLP encoder (otlp/encoder.go): where attributes land, and the LogRecord
  bytes that result.
*/
module Encoder {
  import opened Wire
  import opened Envelope
  import opened Attributes
  import opened Levels
  import opened FrameStack
  import opened Text

  /** One zap field as `applyField` dispatches it; `Inline` runs its marshaler without a frame of its own. */
  datatype ZapField =
    | Scalar(key: bytes, v: Attributes.Scalar)
    | Namespace(key: bytes)
    | Object(key: bytes, id: Id)
    | ArrayField(key: bytes, id: Id)
    | Reflected(key: bytes, text: Try<bytes>)
    | Inline(key: bytes, id: Id)
    | SpanContext(sc: Trace)

  datatype Caller = Caller(function_: bytes, file: bytes, line: int64)

  datatype Entry = Entry(
    time: int64,
    severity: int,              // what the severity mapper returned
    level: bytes,
    message: bytes,
    loggerName: bytes,
    caller: Option<Caller>,
    stackTrace: bytes)

  datatype EncConfig = EncConfig(loggerNameKey: bytes, callerAttrs: bool, traceAttrs: bool)

  // ---------------------------------------------------------------------------------------
  // The attributes of a record, as a tree
  // ---------------------------------------------------------------------------------------

  function ErrorEntry(key: bytes, text: bytes): KeyValue {
    KeyValue(key + Ascii("Error"), Str(text))
  }

  function OneEntry(kv: KeyValue): seq<Level> {
    [Level([], [kv])]
  }

  function ValueOrError(key: bytes, r: Try<Value>): seq<Level> {
    OneEntry(if r.Done? then KeyValue(key, r.value) else ErrorEntry(key, r.text))
  }

  /** What one field adds at stack depth `depth`. */
  function FieldDelta(m: Marshalers, f: ZapField, depth: nat, sink: Option<Trace>): (r: (seq<Level>, Option<Trace>))
    ensures |r.0| > 0
  {
    match f
    case Scalar(k, v) => (OneEntry(KeyValue(k, v)), sink)
    case Namespace(k) => ([Level([], []), Level(k, [])], sink)
    case Object(k, id) => var r := NestedObject(m, id, depth, sink); (ValueOrError(k, r.result), r.sink)
    case ArrayField(k, id) => var r := NestedArray(m, id, depth, sink); (ValueOrError(k, r.result), r.sink)
    case Reflected(k, text) => (ValueOrError(k, ReflectedValue(text)), sink)
    case Inline(k, id) =>
      var r := Delta(m, m.objects(id), depth, sink);
      (if r.result.Done? then r.result.value else OneEntry(ErrorEntry(k, r.result.text)), r.sink)
    case SpanContext(sc) => ([Level([], [])], Some(sc))
  }

  function FieldsDelta(m: Marshalers, fs: seq<ZapField>, depth: nat,
      sink: Option<Trace>): (r: (seq<Level>, Option<Trace>))
    ensures |r.0| > 0
    decreases |fs|
  {
    if |fs| == 0 then ([Level([], [])], sink)
    else
      var (first, sink') := FieldDelta(m, fs[0], depth, sink);
      var (rest, sink'') := FieldsDelta(m, fs[1..], depth + |first| - 1, sink');
      (Join(first, rest), sink'')
  }

  /** `addMeta`. */
  function Meta(cfg: EncConfig, ent: Entry): seq<KeyValue> {
    (if cfg.loggerNameKey != [] && ent.loggerName != [] then [KeyValue(cfg.loggerNameKey, Str(ent.loggerName))] else [])
    + CallerMeta(cfg, ent)
    + (if ent.stackTrace != [] then [KeyValue(Ascii("code.stacktrace"), Str(ent.stackTrace))] else [])
  }

  function CallerMeta(cfg: EncConfig, ent: Entry): seq<KeyValue> {
    if cfg.callerAttrs && ent.caller.Some? then
      var c := ent.caller.value;
      (if c.function_ != [] then [KeyValue(Ascii("code.function.name"), Str(c.function_))] else [])
      + [KeyValue(Ascii("code.file.path"), Str(c.file)), KeyValue(Ascii("code.line.number"), Int(c.line))]
    else []
  }

  function TraceMeta(cfg: EncConfig, sink: Option<Trace>): seq<KeyValue> {
    if cfg.traceAttrs && sink.Some? && sink.value.valid then
      [KeyValue(Ascii("trace_id"), Str(Hex(sink.value.traceId))),
        KeyValue(Ascii("span_id"), Str(Hex(sink.value.spanId)))]
    else []
  }

  /** Entries added to the root level, whatever namespaces are open. */
  function AtRoot(levels: seq<Level>, kvs: seq<KeyValue>): (r: seq<Level>)
    requires |levels| > 0
    ensures |r| == |levels|
  {
    [levels[0].(entries := levels[0].entries + kvs)] + levels[1..]
  }

  /**
    The levels of a record: the With state, metadata at the root, call-site fields innermost, trace
    attributes at the root.
  */
  function RecordLevels(cfg: EncConfig, m: Marshalers, with: seq<Level>, stash: Option<Trace>, ent: Entry,
      fs: seq<ZapField>)
    : (r: (seq<Level>, Option<Trace>))
    requires |with| > 0
    ensures |r.0| > 0
  {
    var (call, sink) := FieldsDelta(m, fs, |with|, stash);
    (AtRoot(Join(AtRoot(with, Meta(cfg, ent)), call), TraceMeta(cfg, sink)), sink)
  }

  /**
    The pinned order.  At the root stand the With entries, the metadata, the call-site entries if
    no namespace is open, and the trace attributes, then the sealed namespaces; with a namespace
    open the call-site entries follow the With entries of the innermost one.
  */
  lemma Placement(cfg: EncConfig, m: Marshalers, with: seq<Level>, stash: Option<Trace>, ent: Entry, fs: seq<ZapField>)
    requires |with| > 0
    ensures
      var (call, sink) := FieldsDelta(m, fs, |with|, stash);
      var meta, trace := Meta(cfg, ent), TraceMeta(cfg, sink);
      var levels := RecordLevels(cfg, m, with, stash, ent, fs).0;
      && levels[0].entries == with[0].entries + meta + (if |with| == 1 then call[0].entries else []) + trace
      && (|with| > 1 ==>
            var n := |with| - 1;
            && levels[1..n] == with[1..n]
            && levels[n] == with[n].(entries := with[n].entries + call[0].entries))
      && levels[|with|..] == call[1..]
      && Nest(levels) == levels[0].entries +
           (if |levels| == 1 then [] else [KeyValue(levels[1].key, Kvs(Nest(levels[1..])))])
  {
    hide Meta, TraceMeta, FieldsDelta, Nest, AtRoot, Join;
    var (call, sink) := FieldsDelta(m, fs, |with|, stash);
    var a := AtRoot(with, Meta(cfg, ent));
    var j := Join(a, call);
    var levels := AtRoot(j, TraceMeta(cfg, sink));
    AtRootParts(with, Meta(cfg, ent));
    JoinParts(a, call);
    AtRootParts(j, TraceMeta(cfg, sink));
    NestHead(levels);
    if |with| > 1 {
      var n := |with| - 1;
      assert levels[n] == j[n] && a[n] == with[n];
      assert levels[1..n] == j[1..n] == a[1..n] == with[1..n];
      assert with[0].entries + Meta(cfg, ent) + [] == with[0].entries + Meta(cfg, ent);
    }
    assert levels[|with|..] == j[|with|..];
  }

  lemma AtRootParts(levels: seq<Level>, kvs: seq<KeyValue>)
    requires |levels| > 0
    ensures AtRoot(levels, kvs)[0].entries == levels[0].entries + kvs
    ensures forall i :: 1 <= i < |levels| ==> AtRoot(levels, kvs)[i] == levels[i]
  {
  }

  lemma NestHead(levels: seq<Level>)
    requires |levels| > 0
    ensures Nest(levels) == levels[0].entries +
      (if |levels| == 1 then [] else [KeyValue(levels[1].key, Kvs(Nest(levels[1..])))])
  {
  }

  /**
    The last span context seen wins: a span context field makes everything before it, the stash of
    `With` included, irrelevant for the record's trace; only a later one can replace it.
  */
  lemma {:induction false} LastTraceWins(m: Marshalers, before: seq<ZapField>, sc: Trace, after: seq<ZapField>,
      depth: nat, sink: Option<Trace>)
    ensures
      var namespaces := |FieldsDelta(m, before, depth, sink).0| - 1;
      FieldsDelta(m, before + [SpanContext(sc)] + after, depth, sink).1
        == FieldsDelta(m, after, depth + namespaces, Some(sc)).1
    decreases |before|
  {
    hide FieldsDelta, FieldDelta;
    var fs := before + [SpanContext(sc)] + after;
    FieldsFirst(m, fs, depth, sink);
    if |before| > 0 {
      assert fs[1..] == before[1..] + [SpanContext(sc)] + after;
      FieldsFirst(m, before, depth, sink);
      var (first, sink') := FieldDelta(m, before[0], depth, sink);
      LastTraceWins(m, before[1..], sc, after, depth + |first| - 1, sink');
    } else {
      assert fs[1..] == after;
      NoFieldsAt(m, depth, sink);
      assert FieldDelta(m, SpanContext(sc), depth, sink) == ([Level([], [])], Some(sc)) by
          { TraceField(m, sc, depth, sink); }
    }
  }

  lemma FieldsFirst(m: Marshalers, fs: seq<ZapField>, depth: nat, sink: Option<Trace>)
    requires |fs| > 0
    ensures
      var (first, sink') := FieldDelta(m, fs[0], depth, sink);
      var rest := FieldsDelta(m, fs[1..], depth + |first| - 1, sink');
      && FieldsDelta(m, fs, depth, sink).1 == rest.1
      && |FieldsDelta(m, fs, depth, sink).0| == |first| + |rest.0| - 1
  {
    hide FieldDelta, Join;
  }

  lemma NoFieldsAt(m: Marshalers, depth: nat, sink: Option<Trace>)
    ensures FieldsDelta(m, [], depth, sink) == ([Level([], [])], sink)
  {
  }

  lemma TraceField(m: Marshalers, sc: Trace, depth: nat, sink: Option<Trace>)
    ensures FieldDelta(m, SpanContext(sc), depth, sink) == ([Level([], [])], Some(sc))
  {
  }

  // ---------------------------------------------------------------------------------------
  // The LogRecord message
  // ---------------------------------------------------------------------------------------

  function ClampSeverity(s: int): nat {
    if s < 0 then 0 else if s > 24 then 24 else s
  }

  function AttributeFields(kvs: seq<KeyValue>): (r: seq<Field>)
    ensures |r| == |kvs|
  {
    seq(|kvs|, i requires 0 <= i < |kvs| => LenF(6, KvBytes(kvs[i])))
  }

  function HeadFields(ent: Entry): seq<Field> {
    (if ent.time != 0 then [Fixed64F(1, AsUint64(ent.time))] else [])
    + (if ClampSeverity(ent.severity) != 0 then [VarintF(2, ClampSeverity(ent.severity))] else [])
    + (if ent.level != [] then [LenF(3, ent.level)] else [])
    + [LenF(5, ValueBytes(Str(ent.message)))]
  }

  function TailFields(ent: Entry, sink: Option<Trace>): seq<Field> {
    (if sink.Some? && sink.value.valid then
       (if sink.value.flags != 0 then [Fixed32F(8, sink.value.flags)] else [])
       + [LenF(9, sink.value.traceId), LenF(10, sink.value.spanId)]
     else [])
    + (if ent.time != 0 then [Fixed64F(11, AsUint64(ent.time))] else [])
  }

  /** The LogRecord of an entry with the given attributes, by the schema. */
  function RecordFieldsOf(ent: Entry, attrs: seq<KeyValue>, sink: Option<Trace>): seq<Field> {
    HeadFields(ent) + AttributeFields(attrs) + TailFields(ent, sink)
  }

  lemma {:induction false} AttributeBytes(kvs: seq<KeyValue>)
    ensures EncodeFields(AttributeFields(kvs)) == KvsBytes(0x32, kvs)
  {
    hide KvBytes, TaggedBytes, EncodeField;
    if |kvs| == 0 {
      assert AttributeFields(kvs) == [];
    } else {
      var init, last := kvs[..|kvs| - 1], kvs[|kvs| - 1];
      assert AttributeFields(kvs) == AttributeFields(init) + [LenF(6, KvBytes(last))];
      EncodeFieldsConcat(AttributeFields(init), [LenF(6, KvBytes(last))]);
      EncodeOne(LenF(6, KvBytes(last)));
      LenFieldBytes(6, KvBytes(last));
      AttributeBytes(init);
    }
  }

  // ---------------------------------------------------------------------------------------
  // Encoding
  // ---------------------------------------------------------------------------------------

  /** A fixed-width or varint field with a single-byte tag. */
  lemma ShortTag(f: Field)
    requires 8 * f.num + WireType(f) < 0x80
    ensures EncodeField(f) == [8 * f.num + WireType(f)] + FieldBody(f)
  {
  }

  method AppendField(dst: bytes, f: Field) returns (r: bytes)
    requires 8 * f.num + WireType(f) < 0x80
    ensures r == dst + EncodeField(f)
  {
    hide Uvarint, LittleEndian;
    ShortTag(f);
    var tagged := dst + [8 * f.num + WireType(f)];
    match f
    case VarintF(_, n) => r := AppendUvarint(tagged, n);
    case Fixed64F(_, n) => r := tagged + LittleEndian(n, 8);
    case LenF(_, p) =>
      r := AppendUvarint(tagged, |p|);
      r := r + p;
    case Fixed32F(_, n) => r := tagged + LittleEndian(n, 4);
  }

  method AppendFields(dst: bytes, fs: seq<Field>) returns (r: bytes)
    requires forall i :: 0 <= i < |fs| ==> 8 * fs[i].num + WireType(fs[i]) < 0x80
    ensures r == dst + EncodeFields(fs)
  {
    hide EncodeFields, EncodeField;
    r := dst;
    assert EncodeFields(fs[..0]) == [] by { NoFields(); assert fs[..0] == []; }
    for i := 0 to |fs|
      invariant r == dst + EncodeFields(fs[..i])
    {
      r := AppendField(r, fs[i]);
      assert fs[..i + 1] == fs[..i] + [fs[i]];
      EncodeFieldsConcat(fs[..i], [fs[i]]);
      EncodeOne(fs[i]);
    }
    assert fs[..|fs|] == fs;
  }

  lemma NoFields()
    ensures EncodeFields([]) == []
  {
  }

  /** The frames of a With state. */
  predicate Holds(stack: seq<Frame>, levels: seq<Level>) {
    |levels| > 0 && stack == Push([Frame(Root, [], [])], levels)
  }

  lemma TopOfPush(stack: seq<Frame>, levels: seq<Level>)
    requires |stack| > 0 && |levels| > 0 && !Top(stack).kind.Array?
    ensures !Top(Push(stack, levels)).kind.Array?
  {
  }

  /** Adding levels on top of levels. */
  lemma {:induction false} PushJoin(stack: seq<Frame>, a: seq<Level>, b: seq<Level>)
    requires |stack| > 0 && |a| > 0 && |b| > 0 && !Top(stack).kind.Array?
    ensures Push(Push(stack, a), b) == Push(stack, Join(a, b))
    decreases |a|
  {
    hide KvsBytes, Frames, Grow;
    if |a| == 1 {
      PushJoinOne(stack, a, b);
    } else {
      var inside := Grow(stack, KvsBytes(EntryTag(Top(stack).kind), a[0].entries)) + [Frame(KVList, a[1].key, [])];
      PushSplit(stack, a);
      PushJoin(inside, a[1..], b);
      PushSplit(stack, Join(a, b));
      assert Join(a, b)[1..] == Join(a[1..], b);
    }
  }

  lemma PushJoinOne(stack: seq<Frame>, a: seq<Level>, b: seq<Level>)
    requires |stack| > 0 && |a| == 1 && |b| > 0
    ensures Push(Push(stack, a), b) == Push(stack, Join(a, b))
  {
    hide KvsBytes;
    var tag := EntryTag(Top(stack).kind);
    assert Frames(a[1..]) == [];
    KvsConcat(tag, a[0].entries, b[0].entries);
    assert Top(stack).buf + KvsBytes(tag, a[0].entries) + KvsBytes(tag, b[0].entries)
        == Top(stack).buf + (KvsBytes(tag, a[0].entries) + KvsBytes(tag, b[0].entries));
    assert Join(a, b)[1..] == b[1..];
  }

  /** Adding to the root frame below any open namespaces. */
  lemma PushAtRoot(levels: seq<Level>, kv: KeyValue)
    requires |levels| > 0
    ensures
      var s := Push([Frame(Root, [], [])], levels);
      s[0 := s[0].(buf := s[0].buf + EntryBytes(Root, kv.key, kv.value))]
        == Push([Frame(Root, [], [])], AtRoot(levels, [kv]))
  {
    hide KvBytes, TaggedBytes, Frames;
    KvsOne(0x32, kv);
    KvsConcat(0x32, levels[0].entries, [kv]);
    assert AtRoot(levels, [kv])[1..] == levels[1..];
    assert [] + KvsBytes(0x32, levels[0].entries) + KvsBytes(0x32, [kv])
        == [] + (KvsBytes(0x32, levels[0].entries) + KvsBytes(0x32, [kv]));
  }

  lemma AtRootTwice(levels: seq<Level>, a: seq<KeyValue>, b: seq<KeyValue>)
    requires |levels| > 0
    ensures AtRoot(AtRoot(levels, a), b) == AtRoot(levels, a + b)
  {
    assert levels[0].entries + a + b == levels[0].entries + (a + b);
  }

  /** Adds metadata attributes to the root of `work`. */
  method AddAllAtRoot(work: EncState, kvs: seq<KeyValue>, ghost levels: seq<Level>)
    requires Holds(work.stack, levels)
    requires forall i :: 0 <= i < |kvs| ==> IsScalar(kvs[i].value)
    modifies work`stack
    ensures Holds(work.stack, AtRoot(levels, kvs))
  {
    hide Push, EntryBytes;
    assert AtRoot(levels, []) == levels by { assert levels[0].entries + [] == levels[0].entries; }
    assert kvs[..0] == [];
    for i := 0 to |kvs|
      invariant Holds(work.stack, AtRoot(levels, kvs[..i]))
    {
      RootKind(AtRoot(levels, kvs[..i]));
      PushAtRoot(AtRoot(levels, kvs[..i]), kvs[i]);
      work.AddRoot(kvs[i].key, kvs[i].value);
      AtRootTwice(levels, kvs[..i], [kvs[i]]);
      assert kvs[..i + 1] == kvs[..i] + [kvs[i]];
    }
    assert kvs[..|kvs|] == kvs;
  }

  lemma RootKind(levels: seq<Level>)
    requires |levels| > 0
    ensures Push([Frame(Root, [], [])], levels)[0].kind == Root
  {
  }

  /** `applyField`: every field is transactional, an inline one included. */
  method ApplyField(work: EncState, m: Marshalers, f: ZapField)
    requires |work.stack| > 0 && !Top(work.stack).kind.Array?
    modifies work
    ensures
      var (levels, sink) := FieldDelta(m, f, |old(work.stack)|, old(work.sink));
      work.stack == Push(old(work.stack), levels) && work.sink == sink
  {
    hide EntryBytes, NestedObject, NestedArray, Delta, Push, Grow;
    ghost var before := work.stack;
    PushNothing(before);
    match f
    case Scalar(k, v) =>
      work.AddScalar(k, v);
      PushOne(before, KeyValue(k, v));
    case Namespace(k) =>
      work.OpenFrame(KVList, k);
      PushNamespace(before, k);
    case Object(k, id) =>
      var e := work.AddObject(m, k, id);
      ghost var r := NestedObject(m, id, |before|, old(work.sink));
      if e.Some? {
        work.AddScalar(k + Ascii("Error"), Str(e.value));
        PushOne(before, ErrorEntry(k, e.value));
      } else {
        PushOne(before, KeyValue(k, r.result.value));
      }
    case ArrayField(k, id) =>
      var e := work.AddArray(m, k, id);
      ghost var r := NestedArray(m, id, |before|, old(work.sink));
      if e.Some? {
        work.AddScalar(k + Ascii("Error"), Str(e.value));
        PushOne(before, ErrorEntry(k, e.value));
      } else {
        PushOne(before, KeyValue(k, r.result.value));
      }
    case Reflected(k, text) =>
      if text.Done? {
        work.AddScalar(k, Str(text.value));
        PushOne(before, KeyValue(k, Str(text.value)));
      } else {
        work.AddScalar(k + Ascii("Error"), Str(text.text));
        PushOne(before, ErrorEntry(k, text.text));
      }
    case Inline(k, id) =>
      var depth, bufLen := |work.stack|, |Top(work.stack).buf|;
      var e := work.RunObject(m, m.objects(id));
      if e.Some? {
        RollbackExact(before, work.stack);
        work.Rollback(depth, bufLen);
        work.AddScalar(k + Ascii("Error"), Str(e.value));
        PushOne(before, ErrorEntry(k, e.value));
      }
    case SpanContext(sc) => work.sink := Some(sc);
  }

  lemma PushOne(stack: seq<Frame>, kv: KeyValue)
    requires |stack| > 0 && !Top(stack).kind.Array?
    ensures Push(stack, OneEntry(kv)) == Grow(stack, EntryBytes(Top(stack).kind, kv.key, kv.value))
  {
    hide KvBytes, TaggedBytes;
    KvsOne(EntryTag(Top(stack).kind), kv);
    assert Frames(OneEntry(kv)[1..]) == [];
  }

  lemma PushNamespace(stack: seq<Frame>, key: bytes)
    requires |stack| > 0
    ensures Push(stack, [Level([], []), Level(key, [])]) == stack + [Frame(KVList, key, [])]
  {
    PushOpen(stack, key, [Level([], [])]);
    PushNothing(stack + [Frame(KVList, key, [])]);
    assert Below<KeyValue>(key, [Level([], [])]) == [Level([], []), Level(key, [])];
  }

  /** All call-site fields, in order. */
  method ApplyFields(work: EncState, m: Marshalers, fs: seq<ZapField>)
    requires |work.stack| > 0 && !Top(work.stack).kind.Array?
    modifies work
    ensures
      var (levels, sink) := FieldsDelta(m, fs, |old(work.stack)|, old(work.sink));
      work.stack == Push(old(work.stack), levels) && work.sink == sink
    decreases |fs|
  {
    hide FieldDelta, Push, Join;
    ghost var before := work.stack;
    if |fs| == 0 {
      PushNothing(before);
    } else {
      ghost var (first, sink') := FieldDelta(m, fs[0], |before|, work.sink);
      ApplyField(work, m, fs[0]);
      TopOfPush(before, first);
      ghost var (rest, sink'') := FieldsDelta(m, fs[1..], |work.stack|, sink');
      ApplyFields(work, m, fs[1..]);
      PushJoin(before, first, rest);
    }
  }

  /**
    An encoder: the persistent With state and the stashed span context.  `EncodeEntry` and `With`
    work on a copy, so the receiver is never changed.
  */
  class OtlpEncoder {
    const cfg: EncConfig
    const state: EncState

    ghost predicate Valid(levels: seq<Level>)
      reads state
    {
      Holds(state.stack, levels)
    }

    constructor (cfg: EncConfig)
      ensures this.cfg == cfg && fresh(state) && Valid([Level([], [])]) && state.sink == None
    {
      this.cfg := cfg;
      this.state := new EncState();
      new;
      PushNothing([Frame(Root, [], [])]);
    }

    /** A deep copy. */
    method Clone() returns (work: EncState)
      ensures fresh(work) && work.stack == state.stack && work.sink == state.sink
    {
      work := new EncState();
      work.stack, work.sink := state.stack, state.sink;
    }

    /** `core.With` on a fresh clone: the fields go where the open namespaces put them. */
    method With(m: Marshalers, fs: seq<ZapField>, ghost levels: seq<Level>) returns (next: EncState)
      requires Valid(levels)
      ensures fresh(next)
      ensures
        var (added, sink) := FieldsDelta(m, fs, |levels|, state.sink);
        Holds(next.stack, Join(levels, added)) && next.sink == sink
    {
      hide FieldsDelta, Push, Join;
      next := Clone();
      TopOfPush([Frame(Root, [], [])], levels);
      ghost var added := FieldsDelta(m, fs, |levels|, state.sink).0;
      ApplyFields(next, m, fs);
      PushJoin([Frame(Root, [], [])], levels, added);
    }

    /** The attribute half of `EncodeEntry`: what the root frame holds once everything is sealed. */
    method EncodeAttributes(m: Marshalers, ent: Entry, fs: seq<ZapField>, ghost levels: seq<Level>)
      returns (attrs: bytes, sink: Option<Trace>)
      requires Valid(levels)
      ensures
        var (all, last) := RecordLevels(cfg, m, levels, state.sink, ent, fs);
        attrs == KvsBytes(0x32, Nest(all)) && sink == last
    {
      hide FieldsDelta, Push, Join, AtRoot, Meta, TraceMeta, Nest, KvsBytes;
      ghost var root := [Frame(Root, [], [])];
      ghost var call := FieldsDelta(m, fs, |levels|, state.sink).0;
      var work := Clone();
      MetaScalars(cfg, ent);
      AddAllAtRoot(work, Meta(cfg, ent), levels);
      ghost var withMeta := AtRoot(levels, Meta(cfg, ent));
      TopOfPush(root, withMeta);
      ApplyFields(work, m, fs);
      PushJoin(root, withMeta, call);
      TraceScalars(cfg, work.sink);
      AddAllAtRoot(work, TraceMeta(cfg, work.sink), Join(withMeta, call));
      ghost var all := AtRoot(Join(withMeta, call), TraceMeta(cfg, work.sink));
      SealPushed(root, all);
      work.SealDownTo(1);
      RootBuffer(all);
      return work.stack[0].buf, work.sink;
    }

    /** `EncodeEntry`: the bytes of the LogRecord whose attributes are the closed record levels. */
    method EncodeEntry(m: Marshalers, ent: Entry, fs: seq<ZapField>, ghost levels: seq<Level>) returns (rec: bytes)
      requires Valid(levels)
      ensures
        var (all, sink) := RecordLevels(cfg, m, levels, state.sink, ent, fs);
        rec == EncodeFields(RecordFieldsOf(ent, Nest(all), sink))
    {
      hide RecordLevels, KvsBytes, EncodeFields, HeadFields, TailFields, AttributeFields, Nest;
      ghost var kvs := Nest(RecordLevels(cfg, m, levels, state.sink, ent, fs).0);
      var attrs, sink := EncodeAttributes(m, ent, fs, levels);
      FieldTags(ent, sink);
      rec := AppendFields([], HeadFields(ent));
      rec := rec + attrs;
      rec := AppendFields(rec, TailFields(ent, sink));
      AttributeBytes(kvs);
      EncodeFieldsConcat(HeadFields(ent), AttributeFields(kvs));
      EncodeFieldsConcat(HeadFields(ent) + AttributeFields(kvs), TailFields(ent, sink));
    }
  }

  // ---------------------------------------------------------------------------------------
  // The envelope of a writer
  // ---------------------------------------------------------------------------------------

  /** What a writer says about itself: the resource attributes and the optional scope. */
  datatype Origin = Origin(resource: seq<KeyValue>, scopeName: bytes, scopeVersion: bytes)

  function EnvOf(o: Origin): Env {
    Env(KvsBytes(0x0a, o.resource),
        (if o.scopeName != [] then TaggedBytes(0x0a, o.scopeName) else [])
        + (if o.scopeVersion != [] then TaggedBytes(0x12, o.scopeVersion) else []))
  }

  /** The resource attributes: the service name, then the fields, their open namespaces closed. */
  function ResourceAttributes(m: Marshalers, serviceName: bytes, fs: seq<ZapField>): seq<KeyValue> {
    Nest(Join(OneEntry(KeyValue(Ascii("service.name"), Str(serviceName))), FieldsDelta(m, fs, 2, None).0))
  }

  /** `newEnvelope`: a key-value list frame above an unused root, sealed down and copied out. */
  method NewEnvelope(m: Marshalers, serviceName: bytes, fs: seq<ZapField>, scopeName: bytes, scopeVersion: bytes)
      returns (e: Env)
    ensures e == EnvOf(Origin(ResourceAttributes(m, serviceName, fs), scopeName, scopeVersion))
  {
    hide FieldsDelta, Push, Join, Nest, KvsBytes, TaggedBytes, EntryBytes;
    var s := new EncState();
    s.OpenFrame(KVList, []);
    ghost var base := s.stack;
    var depth := |s.stack|;
    s.AddScalar(Ascii("service.name"), Str(serviceName));
    ghost var first := OneEntry(KeyValue(Ascii("service.name"), Str(serviceName)));
    PushOne(base, first[0].entries[0]);
    TopOfPush(base, first);
    ApplyFields(s, m, fs);
    ghost var rest := FieldsDelta(m, fs, 2, None).0;
    PushJoin(base, first, rest);
    SealPushed(base, Join(first, rest));
    s.SealDownTo(depth);
    var res := Top(s.stack).buf;
    assert res == [] + KvsBytes(0x0a, Nest(Join(first, rest)));
    var scope := [];
    if scopeName != [] {
      scope := AppendTaggedBytes(scope, 0x0a, scopeName);
    }
    if scopeVersion != [] {
      scope := AppendTaggedBytes(scope, 0x12, scopeVersion);
    }
    e := Env(res, scope);
  }

  lemma RootBuffer(all: seq<Level>)
    requires |all| > 0
    ensures Grow([Frame(Root, [], [])], KvsBytes(EntryTag(Root), Nest(all)))[0].buf == KvsBytes(0x32, Nest(all))
  {
  }

  lemma MetaScalars(cfg: EncConfig, ent: Entry)
    ensures forall i :: 0 <= i < |Meta(cfg, ent)| ==> IsScalar(Meta(cfg, ent)[i].value)
  {
  }

  lemma TraceScalars(cfg: EncConfig, sink: Option<Trace>)
    ensures forall i :: 0 <= i < |TraceMeta(cfg, sink)| ==> IsScalar(TraceMeta(cfg, sink)[i].value)
  {
  }

  lemma FieldTags(ent: Entry, sink: Option<Trace>)
    ensures forall i :: 0 <= i < |HeadFields(ent)| ==> 8 * HeadFields(ent)[i].num + WireType(HeadFields(ent)[i]) < 0x80
    ensures forall i :: 0 <= i < |TailFields(ent, sink)| ==>
        8 * TailFields(ent, sink)[i].num + WireType(TailFields(ent, sink)[i]) < 0x80
  {
    hide ValueBytes;
  }
}
