/**
  What the attributes of a record are, said from outside: the laws each marshaler call and each field
  obeys, what a reader of the record finds, and where metadata stands.
*/
module EncoderLaws {
  import opened Wire
  import opened Envelope
  import opened Attributes
  import opened Levels
  import opened FrameStack
  import opened Text
  import opened Encoder
  import opened Traces
  import Json

  // ---------------------------------------------------------------------------------------
  // Marshaler calls
  // ---------------------------------------------------------------------------------------

  /** An entry in front of what the rest of a marshaler adds. */
  function Then(first: seq<KeyValue>, rest: Evaluated<seq<KeyValue>>): Evaluated<seq<KeyValue>> {
    Evaluated(if rest.result.Done? then Done(first + rest.result.value) else rest.result, rest.sink)
  }

  /** The outcome of a nested container followed by the rest, which an error stops if the marshaler returns it. */
  function ThenNested(
    key: bytes, inner: Try<Value>, strict: bool, sink: Option<Trace>, rest: Evaluated<seq<KeyValue>>)
    : Evaluated<seq<KeyValue>>
  {
    match inner
    case Done(v) => Then([KeyValue(key, v)], rest)
    case Err(text) => if strict then Evaluated(Err(text), sink) else rest
  }

  /** A nested object: refused from 1000 open containers on, and otherwise what its marshaler builds. */
  lemma NestedObjectIs(m: Marshalers, id: Id, depth: nat, sink: Option<Trace>)
    ensures depth >= 1000 ==> NestedObject(m, id, depth, sink) == Evaluated(Err(DEPTH_ERROR), sink)
    ensures depth < 1000 ==>
      var r := EvalObject(m, m.objects(id), depth + 1, sink);
      && NestedObject(m, id, depth, sink).sink == r.sink
      && NestedObject(m, id, depth, sink).result
         == (if r.result.Done? then Done(Kvs(r.result.value)) else Err(r.result.text))
  {
    hide EvalObject;
  }

  lemma NestedArrayIs(m: Marshalers, id: Id, depth: nat, sink: Option<Trace>)
    ensures depth >= 1000 ==> NestedArray(m, id, depth, sink) == Evaluated(Err(DEPTH_ERROR), sink)
    ensures depth < 1000 ==>
      var r := EvalArray(m, m.arrays(id), depth + 1, sink);
      && NestedArray(m, id, depth, sink).sink == r.sink
      && NestedArray(m, id, depth, sink).result
         == (if r.result.Done? then Done(Arr(r.result.value)) else Err(r.result.text))
  {
    hide EvalArray;
  }

  /** An object marshaler that does nothing adds nothing; a scalar adds its entry, then the rest follows. */
  lemma ScalarCall(m: Marshalers, k: bytes, v: Scalar, ops: seq<ObjectOp>, depth: nat, sink: Option<Trace>)
    ensures EvalObject(m, [], depth, sink) == Evaluated(Done([]), sink)
    ensures EvalObject(m, [Add(k, v)] + ops, depth, sink) == Then([KeyValue(k, v)], EvalObject(m, ops, depth, sink))
  {
    assert ([Add(k, v)] + ops)[1..] == ops;
  }

  /** A namespace takes in everything that follows. */
  lemma NamespaceCall(m: Marshalers, k: bytes, ops: seq<ObjectOp>, depth: nat, sink: Option<Trace>)
    ensures var rest := EvalObject(m, ops, depth + 1, sink);
      EvalObject(m, [OpenNamespace(k)] + ops, depth, sink)
      == Evaluated(if rest.result.Done? then Done([KeyValue(k, Kvs(rest.result.value))]) else rest.result, rest.sink)
  {
    assert ([OpenNamespace(k)] + ops)[1..] == ops;
  }

  /** A container adds what its own marshaler builds; its error ends a marshaler that returns it. */
  lemma ContainerCalls(
    m: Marshalers, k: bytes, id: Id, strict: bool, ops: seq<ObjectOp>, depth: nat, sink: Option<Trace>)
    ensures var r := NestedObject(m, id, depth, sink);
      EvalObject(m, [AddObject(k, id, strict)] + ops, depth, sink)
      == ThenNested(k, r.result, strict, r.sink, EvalObject(m, ops, depth, r.sink))
    ensures var r := NestedArray(m, id, depth, sink);
      EvalObject(m, [AddArray(k, id, strict)] + ops, depth, sink)
      == ThenNested(k, r.result, strict, r.sink, EvalObject(m, ops, depth, r.sink))
  {
    hide NestedObject, NestedArray;
    assert ([AddObject(k, id, strict)] + ops)[1..] == ops;
    assert ([AddArray(k, id, strict)] + ops)[1..] == ops;
  }

  /** A reflected value adds its text; a span context adds nothing and is remembered; an error ends the marshaler. */
  lemma OtherCalls(
    m: Marshalers, k: bytes, text: Try<bytes>, strict: bool, sc: Trace, err: bytes, ops: seq<ObjectOp>, depth: nat,
    sink: Option<Trace>)
    ensures EvalObject(m, [AddReflected(k, text, strict)] + ops, depth, sink)
         == ThenNested(k, if text.Done? then Done(Str(text.value)) else Err(text.text), strict, sink,
                       EvalObject(m, ops, depth, sink))
    ensures EvalObject(m, [AddTrace(sc)] + ops, depth, sink) == EvalObject(m, ops, depth, Some(sc))
    ensures EvalObject(m, [Fail(err)] + ops, depth, sink) == Evaluated(Err(err), sink)
  {
    assert ([AddReflected(k, text, strict)] + ops)[1..] == ops;
    assert ([AddTrace(sc)] + ops)[1..] == ops;
  }

  /** A value in front of what the rest of an array marshaler adds. */
  function ThenValues(first: seq<Value>, rest: Evaluated<seq<Value>>): Evaluated<seq<Value>> {
    Evaluated(if rest.result.Done? then Done(first + rest.result.value) else rest.result, rest.sink)
  }

  function ThenElement(inner: Try<Value>, strict: bool, sink: Option<Trace>, rest: Evaluated<seq<Value>>)
    : Evaluated<seq<Value>>
  {
    match inner
    case Done(v) => ThenValues([v], rest)
    case Err(text) => if strict then Evaluated(Err(text), sink) else rest
  }

  /** The same for array marshalers: a scalar adds one element. */
  lemma ElementCalls(
    m: Marshalers, v: Scalar, text: Try<bytes>, strict: bool, err: bytes, ops: seq<ArrayOp>, depth: nat,
    sink: Option<Trace>)
    ensures EvalArray(m, [], depth, sink) == Evaluated(Done([]), sink)
    ensures EvalArray(m, [Append(v)] + ops, depth, sink) == ThenValues([v], EvalArray(m, ops, depth, sink))
    ensures EvalArray(m, [AppendReflected(text, strict)] + ops, depth, sink)
         == ThenElement(if text.Done? then Done(Str(text.value)) else Err(text.text), strict, sink,
                        EvalArray(m, ops, depth, sink))
    ensures EvalArray(m, [FailArray(err)] + ops, depth, sink) == Evaluated(Err(err), sink)
  {
    assert ([Append(v)] + ops)[1..] == ops;
    assert ([AppendReflected(text, strict)] + ops)[1..] == ops;
    NothingFirst(EvalArray(m, ops, depth, sink));
  }

  /** Nested containers as elements. */
  lemma NestedElements(m: Marshalers, id: Id, strict: bool, ops: seq<ArrayOp>, depth: nat, sink: Option<Trace>)
    ensures var r := NestedObject(m, id, depth, sink);
      EvalArray(m, [AppendObject(id, strict)] + ops, depth, sink)
      == ThenElement(r.result, strict, r.sink, EvalArray(m, ops, depth, r.sink))
    ensures var r := NestedArray(m, id, depth, sink);
      EvalArray(m, [AppendArray(id, strict)] + ops, depth, sink)
      == ThenElement(r.result, strict, r.sink, EvalArray(m, ops, depth, r.sink))
  {
    hide NestedObject, NestedArray;
    assert ([AppendObject(id, strict)] + ops)[1..] == ops;
    assert ([AppendArray(id, strict)] + ops)[1..] == ops;
    NothingFirst(EvalArray(m, ops, depth, NestedObject(m, id, depth, sink).sink));
    NothingFirst(EvalArray(m, ops, depth, NestedArray(m, id, depth, sink).sink));
  }

  lemma NothingFirst(rest: Evaluated<seq<Value>>)
    ensures rest.result.Done? ==> [] + rest.result.value == rest.result.value
  {
  }

  // ---------------------------------------------------------------------------------------
  // Fields
  // ---------------------------------------------------------------------------------------

  lemma {:induction false} DeltaKey(m: Marshalers, ops: seq<ObjectOp>, depth: nat, sink: Option<Trace>)
    ensures var r := Delta(m, ops, depth, sink).result; r.Done? ==> r.value[0].key == []
    decreases |ops|
  {
    hide Contribute;
    if |ops| > 0 {
      var (c, sink') := Contribute(m, ops[0], depth, sink);
      DeltaKey(m, ops[1..], depth, sink');
      DeltaKey(m, ops[1..], depth + 1, sink');
    }
  }

  lemma FieldKey(m: Marshalers, f: ZapField, depth: nat, sink: Option<Trace>)
    ensures FieldDelta(m, f, depth, sink).0[0].key == []
  {
    hide NestedObject, NestedArray, Delta;
    if f.Inline? { DeltaKey(m, m.objects(f.id), depth, sink); }
  }

  /** One more field: its levels are joined on at the end. */
  lemma {:induction false} FieldsSnoc(m: Marshalers, fs: seq<ZapField>, f: ZapField, depth: nat, sink: Option<Trace>)
    ensures
      var (before, seen) := FieldsDelta(m, fs, depth, sink);
      var (levels, now) := FieldDelta(m, f, depth + |before| - 1, seen);
      FieldsDelta(m, fs + [f], depth, sink) == (Join(before, levels), now)
    decreases |fs|
  {
    hide FieldDelta, Join;
    if |fs| == 0 {
      assert fs + [f] == [f] && [f][1..] == [];
      var (levels, now) := FieldDelta(m, f, depth, sink);
      assert FieldsDelta(m, [], depth + |levels| - 1, now) == ([Level([], [])], now);
      JoinNothing(levels);
      FieldKey(m, f, depth, sink);
      NothingJoin(levels);
    } else {
      var (first, sink') := FieldDelta(m, fs[0], depth, sink);
      assert (fs + [f])[1..] == fs[1..] + [f];
      FieldsSnoc(m, fs[1..], f, depth + |first| - 1, sink');
      var (rest, seen) := FieldsDelta(m, fs[1..], depth + |first| - 1, sink');
      var levels := FieldDelta(m, f, depth + |first| - 1 + |rest| - 1, seen).0;
      JoinAssoc(first, rest, levels);
    }
  }

  /** The entry a failed field leaves: its key with "Error" and the text. */
  function Failure(key: bytes, text: bytes): KeyValue {
    KeyValue(key + [0x45, 0x72, 0x72, 0x6f, 0x72], Str(text))
  }

  lemma FailureIs(key: bytes, text: bytes)
    ensures Failure(key, text) == ErrorEntry(key, text)
  {
  }

  /** No fields, no entries. */
  lemma NoFieldsLaw(m: Marshalers, depth: nat, sink: Option<Trace>)
    ensures FieldsDelta(m, [], depth, sink) == ([Level([], [])], sink)
  {
  }

  /** A plain field adds its entry to the innermost level and nothing else. */
  lemma ScalarLaw(m: Marshalers, fs: seq<ZapField>, k: bytes, v: Attributes.Scalar, depth: nat, sink: Option<Trace>)
    ensures var (before, seen) := FieldsDelta(m, fs, depth, sink);
      FieldsDelta(m, fs + [Scalar(k, v)], depth, sink) == (WithEntry(before, KeyValue(k, v)), seen)
  {
    hide FieldsDelta;
    FieldsSnoc(m, fs, Scalar(k, v), depth, sink);
    JoinOne(FieldsDelta(m, fs, depth, sink).0, KeyValue(k, v));
  }

  /** A namespace opens a level; a span context only replaces the trace. */
  lemma NamespaceLaw(m: Marshalers, fs: seq<ZapField>, k: bytes, sc: Trace, depth: nat, sink: Option<Trace>)
    ensures var (before, seen) := FieldsDelta(m, fs, depth, sink);
      && FieldsDelta(m, fs + [Namespace(k)], depth, sink) == (before + [Level(k, [])], seen)
      && FieldsDelta(m, fs + [SpanContext(sc)], depth, sink) == (before, Some(sc))
  {
    hide FieldsDelta;
    FieldsSnoc(m, fs, Namespace(k), depth, sink);
    FieldsSnoc(m, fs, SpanContext(sc), depth, sink);
    JoinOpen(FieldsDelta(m, fs, depth, sink).0, k);
    JoinNothing(FieldsDelta(m, fs, depth, sink).0);
  }

  /** What a container field adds: the value its marshaler builds, or its error. */
  function ContainerEntry(k: bytes, r: Try<Value>): KeyValue {
    if r.Done? then KeyValue(k, r.value) else Failure(k, r.text)
  }

  /** An object, array or reflected field adds exactly one entry: its value, or its error. */
  lemma ContainerLaw(
    m: Marshalers, fs: seq<ZapField>, k: bytes, id: Id, text: Try<bytes>, depth: nat, sink: Option<Trace>)
    ensures
      var before := FieldsDelta(m, fs, depth, sink).0;
      var d := depth + |before| - 1;
      var built := EvalObject(m, m.objects(id), d + 1, None).result;
      var list := EvalArray(m, m.arrays(id), d + 1, None).result;
      && FieldsDelta(m, fs + [Object(k, id)], depth, sink).0
         == WithEntry(before, ContainerEntry(k,
              if d >= 1000 then Err(DEPTH_ERROR) else if built.Done? then Done(Kvs(built.value)) else Err(built.text)))
      && FieldsDelta(m, fs + [ArrayField(k, id)], depth, sink).0
         == WithEntry(before, ContainerEntry(k,
              if d >= 1000 then Err(DEPTH_ERROR) else if list.Done? then Done(Arr(list.value)) else Err(list.text)))
      && FieldsDelta(m, fs + [Reflected(k, text)], depth, sink).0
         == WithEntry(before, ContainerEntry(k, if text.Done? then Done(Str(text.value)) else Err(text.text)))
  {
    hide FieldsDelta, EvalObject, EvalArray, NestedObject, NestedArray, SeenInObject, SeenInArray, WithEntry;
    var (before, seen) := FieldsDelta(m, fs, depth, sink);
    var d := depth + |before| - 1;
    FieldsSnoc(m, fs, Object(k, id), depth, sink);
    FieldsSnoc(m, fs, ArrayField(k, id), depth, sink);
    FieldsSnoc(m, fs, Reflected(k, text), depth, sink);
    ObjectSink(m, id, d, seen);
    ArraySink(m, id, d, seen);
    NestedObjectIs(m, id, d, None);
    NestedArrayIs(m, id, d, None);
    OneJoined(before, k, NestedObject(m, id, d, seen).result);
    OneJoined(before, k, NestedArray(m, id, d, seen).result);
    OneJoined(before, k, ReflectedValue(text));
  }

  lemma OneJoined(before: seq<Level>, k: bytes, r: Try<Value>)
    requires |before| > 0
    ensures Join(before, ValueOrError(k, r)) == WithEntry(before, ContainerEntry(k, r))
  {
    if r.Err? { FailureIs(k, r.text); }
    JoinOne(before, ContainerEntry(k, r));
  }

  /**
    An inline field adds, from the innermost level on, levels whose closing is what its marshaler
    builds there; a failed one adds exactly its error, whatever it had written.
  */
  lemma InlineLaw(m: Marshalers, fs: seq<ZapField>, k: bytes, id: Id, depth: nat, sink: Option<Trace>)
    ensures
      var before := FieldsDelta(m, fs, depth, sink).0;
      var after := FieldsDelta(m, fs + [Inline(k, id)], depth, sink).0;
      var r := EvalObject(m, m.objects(id), depth + |before| - 1, None).result;
      && Prolongs(before, after)
      && (r.Done? ==> Nest(NewPart(before, after)) == r.value)
      && (r.Err? ==> after == WithEntry(before, Failure(k, r.text)))
  {
    hide FieldsDelta, EvalObject, Delta, SeenByObject, Nest, WithEntry;
    var (before, seen) := FieldsDelta(m, fs, depth, sink);
    var d := depth + |before| - 1;
    FieldsSnoc(m, fs, Inline(k, id), depth, sink);
    NestDelta(m, m.objects(id), d, seen);
    RunSink(m, m.objects(id), d, seen);
    DeltaKey(m, m.objects(id), d, seen);
    var r := Delta(m, m.objects(id), d, seen).result;
    hide Prolongs, NewPart;
    if r.Done? {
      JoinExtends(before, r.value);
      assert [Level([], r.value[0].entries)] + r.value[1..] == r.value;
    } else {
      FailureIs(k, r.text);
      JoinOne(before, Failure(k, r.text));
      JoinExtends(before, [Level([], [Failure(k, r.text)])]);
    }
  }

  lemma FieldProlongs(m: Marshalers, fs: seq<ZapField>, f: ZapField, depth: nat, sink: Option<Trace>)
    ensures Prolongs(FieldsDelta(m, fs, depth, sink).0, FieldsDelta(m, fs + [f], depth, sink).0)
  {
    hide FieldsDelta, FieldDelta, Prolongs;
    var (before, seen) := FieldsDelta(m, fs, depth, sink);
    FieldsSnoc(m, fs, f, depth, sink);
    JoinExtends(before, FieldDelta(m, f, depth + |before| - 1, seen).0);
  }

  /** Later fields only add behind what earlier fields have put down. */
  lemma {:induction false} FieldsProlong(m: Marshalers, fs: seq<ZapField>, i: nat, depth: nat, sink: Option<Trace>)
    requires i <= |fs|
    ensures Prolongs(FieldsDelta(m, fs[..i], depth, sink).0, FieldsDelta(m, fs, depth, sink).0)
    decreases |fs| - i
  {
    hide FieldsDelta, Prolongs;
    if i == |fs| {
      assert fs[..i] == fs;
      Itself(FieldsDelta(m, fs, depth, sink).0);
    } else {
      FieldsProlong(m, fs, i + 1, depth, sink);
      assert fs[..i + 1] == fs[..i] + [fs[i]];
      FieldProlongs(m, fs[..i], fs[i], depth, sink);
      ProlongsTrans(FieldsDelta(m, fs[..i], depth, sink).0, FieldsDelta(m, fs[..i + 1], depth, sink).0,
                    FieldsDelta(m, fs, depth, sink).0);
    }
  }

  lemma Itself(levels: seq<Level>)
    requires |levels| > 0
    ensures Prolongs(levels, levels)
  {
  }

  /**
    Every plain field, wherever it stands in the list, has its entry in the level that was innermost
    when its turn came, right behind the entries that level had by then.
  */
  lemma ScalarLands(m: Marshalers, fs: seq<ZapField>, i: nat, depth: nat, sink: Option<Trace>)
    requires i < |fs| && fs[i].Scalar?
    ensures
      var before := FieldsDelta(m, fs[..i], depth, sink).0;
      var all := FieldsDelta(m, fs, depth, sink).0;
      var n := |before| - 1;
      && n < |all| && |before[n].entries| < |all[n].entries|
      && all[n].entries[|before[n].entries|] == KeyValue(fs[i].key, fs[i].v)
  {
    hide FieldsDelta;
    assert fs[..i + 1] == fs[..i] + [fs[i]];
    ScalarLaw(m, fs[..i], fs[i].key, fs[i].v, depth, sink);
    FieldsProlong(m, fs, i + 1, depth, sink);
  }

  // ---------------------------------------------------------------------------------------
  // Metadata
  // ---------------------------------------------------------------------------------------

  lemma SelectedFive<E>(a: (bool, E), b: (bool, E), c: (bool, E), d: (bool, E), e: (bool, E))
    ensures Selected([a, b, c, d, e])
         == (if a.0 then [a.1] else [])
            + ((if b.0 then [b.1] else [])
               + ((if c.0 then [c.1] else []) + ((if d.0 then [d.1] else []) + (if e.0 then [e.1] else []))))
  {
    SelectedTwo(d, e);
    assert [c, d, e][1..] == [d, e] && [b, c, d, e][1..] == [c, d, e] && [a, b, c, d, e][1..] == [b, c, d, e];
    assert Selected([c, d, e]) == (if c.0 then [c.1] else []) + Selected([d, e]);
    assert Selected([b, c, d, e]) == (if b.0 then [b.1] else []) + Selected([c, d, e]);
  }

  lemma CallerExact(cfg: EncConfig, ent: Entry)
    ensures
      var known := cfg.callerAttrs && ent.caller.Some?;
      var c := if ent.caller.Some? then ent.caller.value else Caller([], [], 0);
      CallerMeta(cfg, ent)
      == (if known && c.function_ != [] then [KeyValue(Ascii("code.function.name"), Str(c.function_))] else [])
         + ((if known then [KeyValue(Ascii("code.file.path"), Str(c.file))] else [])
            + (if known then [KeyValue(Ascii("code.line.number"), Int(c.line))] else []))
  {
    hide Ascii;
  }

  /** The metadata attributes of an entry, in order, each under its condition. */
  lemma MetaExact(cfg: EncConfig, ent: Entry)
    ensures
      var known := cfg.callerAttrs && ent.caller.Some?;
      var c := if ent.caller.Some? then ent.caller.value else Caller([], [], 0);
      Meta(cfg, ent) == Selected([
        (cfg.loggerNameKey != [] && ent.loggerName != [], KeyValue(cfg.loggerNameKey, Str(ent.loggerName))),
        (known && c.function_ != [], KeyValue(Ascii("code.function.name"), Str(c.function_))),
        (known, KeyValue(Ascii("code.file.path"), Str(c.file))),
        (known, KeyValue(Ascii("code.line.number"), Int(c.line))),
        (ent.stackTrace != [], KeyValue(Ascii("code.stacktrace"), Str(ent.stackTrace)))])
  {
    var known := cfg.callerAttrs && ent.caller.Some?;
    var c := if ent.caller.Some? then ent.caller.value else Caller([], [], 0);
    var named := cfg.loggerNameKey != [] && ent.loggerName != [];
    hide Selected, Ascii, CallerMeta;
    CallerExact(cfg, ent);
    SelectedFive(
      (named, KeyValue(cfg.loggerNameKey, Str(ent.loggerName))),
      (known && c.function_ != [], KeyValue(Ascii("code.function.name"), Str(c.function_))),
      (known, KeyValue(Ascii("code.file.path"), Str(c.file))),
      (known, KeyValue(Ascii("code.line.number"), Int(c.line))),
      (ent.stackTrace != [], KeyValue(Ascii("code.stacktrace"), Str(ent.stackTrace))));
    MetaGrouped(cfg, ent);
  }

  lemma MetaGrouped(cfg: EncConfig, ent: Entry)
    ensures Meta(cfg, ent)
         == (if cfg.loggerNameKey != [] && ent.loggerName != []
             then [KeyValue(cfg.loggerNameKey, Str(ent.loggerName))] else [])
            + (CallerMeta(cfg, ent)
               + (if ent.stackTrace != [] then [KeyValue(Ascii("code.stacktrace"), Str(ent.stackTrace))] else []))
  {
    hide Ascii, CallerMeta;
  }

  /** The trace attributes: hex ids of the record's trace, if asked for and valid. */
  lemma TraceExact(cfg: EncConfig, sink: Option<Trace>)
    ensures
      var shown := cfg.traceAttrs && sink.Some? && sink.value.valid;
      var sc := if sink.Some? then sink.value else Trace(false, [], [], 0);
      TraceMeta(cfg, sink) == Selected([
        (shown, KeyValue(Ascii("trace_id"), Str(Hex(sc.traceId)))),
        (shown, KeyValue(Ascii("span_id"), Str(Hex(sc.spanId))))])
  {
    hide Hex, Ascii, Selected;
    var shown := cfg.traceAttrs && sink.Some? && sink.value.valid;
    var sc := if sink.Some? then sink.value else Trace(false, [], [], 0);
    SelectedTwo((shown, KeyValue(Ascii("trace_id"), Str(Hex(sc.traceId)))),
                (shown, KeyValue(Ascii("span_id"), Str(Hex(sc.spanId)))));
  }

  /** Severities stay within 0 to 24, and are left alone there. */
  lemma SeverityRange(s: int)
    ensures 0 <= ClampSeverity(s) <= 24
    ensures 0 <= s <= 24 ==> ClampSeverity(s) == s
    ensures s < 0 ==> ClampSeverity(s) == 0
    ensures s > 24 ==> ClampSeverity(s) == 24
  {
  }

  /** The resource always begins with the service name; without fields it is all there is. */
  lemma ResourceExact(m: Marshalers, serviceName: bytes, fs: seq<ZapField>)
    ensures
      var r := ResourceAttributes(m, serviceName, fs);
      var more := FieldsDelta(m, fs, 2, None).0;
      && r == [KeyValue(Ascii("service.name"), Str(serviceName))] + Nest(more)
      && (fs == [] ==> r == [KeyValue(Ascii("service.name"), Str(serviceName))])
  {
    hide FieldsDelta, Ascii;
    var name := KeyValue(Ascii("service.name"), Str(serviceName));
    var more := FieldsDelta(m, fs, 2, None).0;
    var all := Join(OneEntry(name), more);
    assert all[1..] == more[1..];
    if |more| > 1 {
      assert all[1] == more[1];
      Assoc([name], more[0].entries, [Wrapped(more[1].key, Closed(more[1..], Wrapped))]);
    }
    if fs == [] { NoFieldsLaw(m, 2, None); }
  }

  // ---------------------------------------------------------------------------------------
  // Reading a record
  // ---------------------------------------------------------------------------------------

  lemma {:induction false} SelectConcat(a: seq<Field>, b: seq<Field>, num: nat)
    ensures Json.Select(a + b, num) == Json.Select(a, num) + Json.Select(b, num)
    decreases |b|
  {
    if |b| == 0 {
      assert a + b == a;
    } else {
      assert (a + b)[..|a + b| - 1] == a + b[..|b| - 1];
      SelectConcat(a, b[..|b| - 1], num);
    }
  }

  lemma SelectOne(f: Field, num: nat)
    ensures Json.Select([f], num) == if f.num == num then [f] else []
    ensures Json.Select([], num) == []
  {
    assert [f][..0] == [];
  }

  lemma SelectIf(c: bool, f: Field, num: nat)
    ensures Json.Select(if c then [f] else [], num) == if c && f.num == num then [f] else []
  {
    SelectOne(f, num);
  }

  lemma AttributesSnoc(kvs: seq<KeyValue>)
    requires |kvs| > 0
    ensures AttributeFields(kvs) == AttributeFields(kvs[..|kvs| - 1]) + [LenF(6, KvBytes(kvs[|kvs| - 1]))]
  {
    hide KvBytes;
  }

  lemma {:induction false} SelectAttributes(kvs: seq<KeyValue>, num: nat)
    ensures Json.Select(AttributeFields(kvs), num) == if num == 6 then AttributeFields(kvs) else []
  {
    hide KvBytes, Json.Select, AttributeFields;
    if |kvs| == 0 {
      NoAttributes(num);
    } else {
      var init, last := kvs[..|kvs| - 1], LenF(6, KvBytes(kvs[|kvs| - 1]));
      SelectAttributes(init, num);
      AttributesSnoc(kvs);
      SelectConcat(AttributeFields(init), [last], num);
      SelectOne(last, num);
    }
  }

  lemma NoAttributes(num: nat)
    ensures AttributeFields([]) == [] && Json.Select([], num) == []
  {
  }

  function Clamped(s: int): nat {
    if s < 0 then 0 else if s > 24 then 24 else s
  }

  /** The fields of the record before its attributes, by number. */
  lemma SelectHead(ent: Entry, num: nat)
    ensures var fs := Json.Select(HeadFields(ent), num); var sev := Clamped(ent.severity);
      && (num == 1 ==> fs == if ent.time != 0 then [Fixed64F(1, AsUint64(ent.time))] else [])
      && (num == 2 ==> fs == if sev != 0 then [VarintF(2, sev)] else [])
      && (num == 3 ==> fs == if ent.level != [] then [LenF(3, ent.level)] else [])
      && (num == 5 ==> fs == [LenF(5, ValueBytes(Str(ent.message)))])
      && (num == 4 || num > 5 || num == 0 ==> fs == [])
  {
    hide ValueBytes, Json.Select;
    var time := if ent.time != 0 then [Fixed64F(1, AsUint64(ent.time))] else [];
    var sev := if Clamped(ent.severity) != 0 then [VarintF(2, Clamped(ent.severity))] else [];
    var level := if ent.level != [] then [LenF(3, ent.level)] else [];
    var body := [LenF(5, ValueBytes(Str(ent.message)))];
    SeverityRange(ent.severity);
    SelectConcat(time + sev + level, body, num);
    SelectConcat(time + sev, level, num);
    SelectConcat(time, sev, num);
    SelectIf(ent.time != 0, Fixed64F(1, AsUint64(ent.time)), num);
    SelectIf(Clamped(ent.severity) != 0, VarintF(2, Clamped(ent.severity)), num);
    SelectIf(ent.level != [], LenF(3, ent.level), num);
    SelectOne(LenF(5, ValueBytes(Str(ent.message))), num);
  }

  /** And after them. */
  lemma SelectTail(ent: Entry, sink: Option<Trace>, num: nat)
    ensures
      var fs := Json.Select(TailFields(ent, sink), num);
      var traced := sink.Some? && sink.value.valid;
      var sc := if sink.Some? then sink.value else Trace(false, [], [], 0);
      && (num == 8 ==> fs == if traced && sc.flags != 0 then [Fixed32F(8, sc.flags)] else [])
      && (num == 9 ==> fs == if traced then [LenF(9, sc.traceId)] else [])
      && (num == 10 ==> fs == if traced then [LenF(10, sc.spanId)] else [])
      && (num == 11 ==> fs == if ent.time != 0 then [Fixed64F(11, AsUint64(ent.time))] else [])
      && (num < 8 || num > 11 ==> fs == [])
  {
    hide Json.Select;
    var traced := sink.Some? && sink.value.valid;
    var sc := if sink.Some? then sink.value else Trace(false, [], [], 0);
    var flags := if traced && sc.flags != 0 then [Fixed32F(8, sc.flags)] else [];
    var tid := if traced then [LenF(9, sc.traceId)] else [];
    var sid := if traced then [LenF(10, sc.spanId)] else [];
    var time := if ent.time != 0 then [Fixed64F(11, AsUint64(ent.time))] else [];
    assert TailFields(ent, sink) == flags + tid + sid + time;
    SelectConcat(flags + tid + sid, time, num);
    SelectConcat(flags + tid, sid, num);
    SelectConcat(flags, tid, num);
    SelectIf(traced && sc.flags != 0, Fixed32F(8, sc.flags), num);
    SelectIf(traced, LenF(9, sc.traceId), num);
    SelectIf(traced, LenF(10, sc.spanId), num);
    SelectIf(ent.time != 0, Fixed64F(11, AsUint64(ent.time)), num);
  }

  lemma RecordEncodable(ent: Entry, attrs: seq<KeyValue>, sink: Option<Trace>)
    requires |EncodeFields(RecordFieldsOf(ent, attrs, sink))| < U64_LIMIT
    ensures forall i :: 0 <= i < |RecordFieldsOf(ent, attrs, sink)| ==> Encodable(RecordFieldsOf(ent, attrs, sink)[i])
  {
    hide EncodeFields, ValueBytes, KvBytes;
    var fs := RecordFieldsOf(ent, attrs, sink);
    SeverityRange(ent.severity);
    forall i | 0 <= i < |fs| ensures Encodable(fs[i]) {
      if fs[i].LenF? { Json.PayloadWithin(fs, i); }
    }
  }

  /**
    What a reader finds in the bytes of a record: time, severity, level text, body, the attributes in
    order, flags, ids and the observed time, each once and under its condition, and nothing else.
  */
  lemma RecordRead(ent: Entry, attrs: seq<KeyValue>, sink: Option<Trace>, num: nat)
    requires |EncodeFields(RecordFieldsOf(ent, attrs, sink))| < U64_LIMIT
    ensures
      var p := Scan(EncodeFields(RecordFieldsOf(ent, attrs, sink)));
      var found := Json.Select(p.fields, num);
      var traced := sink.Some? && sink.value.valid;
      var sc := if sink.Some? then sink.value else Trace(false, [], [], 0);
      var sev := Clamped(ent.severity);
      && p.complete
      && (num == 1 || num == 11 ==> found == if ent.time != 0 then [Fixed64F(num, AsUint64(ent.time))] else [])
      && (num == 2 ==> found == if sev != 0 then [VarintF(2, sev)] else [])
      && (num == 3 ==> found == if ent.level != [] then [LenF(3, ent.level)] else [])
      && (num == 5 ==> found == [LenF(5, ValueBytes(Str(ent.message)))])
      && (num == 6 ==> |found| == |attrs| && forall i :: 0 <= i < |attrs| ==> found[i] == LenF(6, KvBytes(attrs[i])))
      && (num == 8 ==> found == if traced && sc.flags != 0 then [Fixed32F(8, sc.flags)] else [])
      && (num == 9 ==> found == if traced then [LenF(9, sc.traceId)] else [])
      && (num == 10 ==> found == if traced then [LenF(10, sc.spanId)] else [])
      && (num == 0 || num == 4 || num == 7 || num > 11 ==> found == [])
  {
    hide EncodeFields, ValueBytes, KvBytes, Json.Select, Scan, Encodable, HeadFields, TailFields;
    RecordEncodable(ent, attrs, sink);
    ScanEncoded(RecordFieldsOf(ent, attrs, sink));
    SelectConcat(HeadFields(ent) + AttributeFields(attrs), TailFields(ent, sink), num);
    SelectConcat(HeadFields(ent), AttributeFields(attrs), num);
    SelectHead(ent, num);
    SelectAttributes(attrs, num);
    SelectTail(ent, sink, num);
  }
}
