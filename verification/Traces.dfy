/**
  Which span context a record carries.  `AddReflected` consumes a span context instead of encoding
  it (otlp/attr.go), so one may surface anywhere: in a call-site field, deep inside nested
  marshalers, and in a marshaler that fails later, because a rollback does not take it back.
*/
module Traces {
  import opened Wire
  import opened Attributes
  import opened Levels
  import opened FrameStack
  import opened Encoder

  // ---------------------------------------------------------------------------------------
  // The span contexts a program comes across, in order of execution
  // ---------------------------------------------------------------------------------------

  function SeenInObject(m: Marshalers, id: Id, depth: nat): seq<Trace>
    decreases Left(depth), 0
  {
    if depth >= MAX_DEPTH then [] else SeenByObject(m, m.objects(id), depth + 1)
  }

  function SeenInArray(m: Marshalers, id: Id, depth: nat): seq<Trace>
    decreases Left(depth), 0
  {
    if depth >= MAX_DEPTH then [] else SeenByArray(m, m.arrays(id), depth + 1)
  }

  function SeenByOp(m: Marshalers, op: ObjectOp, depth: nat): seq<Trace>
    decreases Left(depth), 1
  {
    match op
    case AddObject(_, id, _) => SeenInObject(m, id, depth)
    case AddArray(_, id, _) => SeenInArray(m, id, depth)
    case AddTrace(sc) => [sc]
    case _ => []
  }

  /** A marshaler sees what its calls see, up to and including the first one it fails with. */
  function SeenByObject(m: Marshalers, ops: seq<ObjectOp>, depth: nat): seq<Trace>
    decreases Left(depth), 2, |ops|
  {
    if |ops| == 0 then []
    else
      var c := Contribute(m, ops[0], depth, None).0;
      SeenByOp(m, ops[0], depth)
      + if c.Error? then [] else SeenByObject(m, ops[1..], if c.Open? then depth + 1 else depth)
  }

  function SeenByElement(m: Marshalers, op: ArrayOp, depth: nat): seq<Trace>
    decreases Left(depth), 1
  {
    match op
    case AppendObject(id, _) => SeenInObject(m, id, depth)
    case AppendArray(id, _) => SeenInArray(m, id, depth)
    case _ => []
  }

  function SeenByArray(m: Marshalers, ops: seq<ArrayOp>, depth: nat): seq<Trace>
    decreases Left(depth), 2, |ops|
  {
    if |ops| == 0 then []
    else
      SeenByElement(m, ops[0], depth)
      + if Element(m, ops[0], depth, None).result.Err? then [] else SeenByArray(m, ops[1..], depth)
  }

  /** What one call-site field comes across. */
  function SeenByField(m: Marshalers, f: ZapField, depth: nat): seq<Trace> {
    match f
    case Object(_, id) => SeenInObject(m, id, depth)
    case ArrayField(_, id) => SeenInArray(m, id, depth)
    case Inline(_, id) => SeenByObject(m, m.objects(id), depth)
    case SpanContext(sc) => [sc]
    case _ => []
  }

  function SeenByFields(m: Marshalers, fs: seq<ZapField>, depth: nat): seq<Trace>
    decreases |fs|
  {
    if |fs| == 0 then []
    else
      SeenByField(m, fs[0], depth)
      + SeenByFields(m, fs[1..], depth + |FieldDelta(m, fs[0], depth, None).0| - 1)
  }

  /** The last one seen, or what was there before. */
  function Latest(seen: seq<Trace>, before: Option<Trace>): Option<Trace> {
    if |seen| == 0 then before else Some(seen[|seen| - 1])
  }

  lemma LatestConcat(a: seq<Trace>, b: seq<Trace>, before: Option<Trace>)
    ensures Latest(a + b, before) == Latest(b, Latest(a, before))
  {
  }

  // ---------------------------------------------------------------------------------------
  // The sink always holds the last one
  // ---------------------------------------------------------------------------------------

  lemma {:induction false} ObjectSink(m: Marshalers, id: Id, depth: nat, sink: Option<Trace>)
    ensures NestedObject(m, id, depth, sink)
         == Evaluated(NestedObject(m, id, depth, None).result, Latest(SeenInObject(m, id, depth), sink))
    decreases Left(depth), 0
  {
    if depth < MAX_DEPTH { RunSink(m, m.objects(id), depth + 1, sink); }
  }

  lemma {:induction false} ArraySink(m: Marshalers, id: Id, depth: nat, sink: Option<Trace>)
    ensures NestedArray(m, id, depth, sink)
         == Evaluated(NestedArray(m, id, depth, None).result, Latest(SeenInArray(m, id, depth), sink))
    decreases Left(depth), 0
  {
    if depth < MAX_DEPTH { ElementsSink(m, m.arrays(id), depth + 1, sink); }
  }

  lemma {:induction false} OpSink(m: Marshalers, op: ObjectOp, depth: nat, sink: Option<Trace>)
    ensures Contribute(m, op, depth, sink) == (Contribute(m, op, depth, None).0, Latest(SeenByOp(m, op, depth), sink))
    decreases Left(depth), 1
  {
    hide NestedObject, NestedArray, SeenInObject, SeenInArray, Latest;
    match op
    case AddObject(_, id, _) => ObjectSink(m, id, depth, sink); ObjectSink(m, id, depth, None);
    case AddArray(_, id, _) => ArraySink(m, id, depth, sink); ArraySink(m, id, depth, None);
    case AddTrace(sc) => LatestFew(sc, sink);
    case _ => LatestFew(Trace(false, [], [], 0), sink);
  }

  lemma LatestFew(sc: Trace, sink: Option<Trace>)
    ensures Latest([], sink) == sink && Latest([sc], sink) == Some(sc)
  {
  }

  /** What a marshaler builds does not depend on the sink, and the sink ends up with the last context seen. */
  lemma {:induction false} RunSink(m: Marshalers, ops: seq<ObjectOp>, depth: nat, sink: Option<Trace>)
    ensures EvalObject(m, ops, depth, sink)
         == Evaluated(EvalObject(m, ops, depth, None).result, Latest(SeenByObject(m, ops, depth), sink))
    decreases Left(depth), 2, |ops|
  {
    hide Contribute, SeenByOp, Latest;
    LatestFew(Trace(false, [], [], 0), sink);
    if |ops| > 0 {
      OpSink(m, ops[0], depth, sink);
      var c := Contribute(m, ops[0], depth, None).0;
      var seen := SeenByOp(m, ops[0], depth);
      assert seen + [] == seen;
      if !c.Error? {
        var inner := if c.Open? then depth + 1 else depth;
        RunSink(m, ops[1..], inner, Latest(seen, sink));
        RunSink(m, ops[1..], inner, Contribute(m, ops[0], depth, None).1);
        LatestConcat(seen, SeenByObject(m, ops[1..], inner), sink);
      }
    }
  }

  lemma {:induction false} ElementSink(m: Marshalers, op: ArrayOp, depth: nat, sink: Option<Trace>)
    ensures Element(m, op, depth, sink)
         == Evaluated(Element(m, op, depth, None).result, Latest(SeenByElement(m, op, depth), sink))
    decreases Left(depth), 1
  {
    hide NestedObject, NestedArray, SeenInObject, SeenInArray, Latest;
    LatestFew(Trace(false, [], [], 0), sink);
    match op
    case AppendObject(id, _) => ObjectSink(m, id, depth, sink);
    case AppendArray(id, _) => ArraySink(m, id, depth, sink);
    case _ =>
  }

  lemma {:induction false} ElementsSink(m: Marshalers, ops: seq<ArrayOp>, depth: nat, sink: Option<Trace>)
    ensures EvalArray(m, ops, depth, sink)
         == Evaluated(EvalArray(m, ops, depth, None).result, Latest(SeenByArray(m, ops, depth), sink))
    decreases Left(depth), 2, |ops|
  {
    hide Element, SeenByElement, Latest;
    LatestFew(Trace(false, [], [], 0), sink);
    if |ops| > 0 {
      ElementSink(m, ops[0], depth, sink);
      var seen := SeenByElement(m, ops[0], depth);
      assert seen + [] == seen;
      if Element(m, ops[0], depth, None).result.Done? {
        ElementsSink(m, ops[1..], depth, Latest(seen, sink));
        ElementsSink(m, ops[1..], depth, Element(m, ops[0], depth, None).sink);
        LatestConcat(seen, SeenByArray(m, ops[1..], depth), sink);
      }
    }
  }

  /** The levels an inline marshaler leaves do not depend on the sink either. */
  lemma {:induction false} DeltaSink(m: Marshalers, ops: seq<ObjectOp>, depth: nat, sink: Option<Trace>)
    ensures Delta(m, ops, depth, sink)
         == Evaluated(Delta(m, ops, depth, None).result, Latest(SeenByObject(m, ops, depth), sink))
    decreases |ops|
  {
    hide Contribute, SeenByOp, Latest, Prepend, Below;
    LatestFew(Trace(false, [], [], 0), sink);
    if |ops| > 0 {
      OpSink(m, ops[0], depth, sink);
      var c := Contribute(m, ops[0], depth, None).0;
      var seen := SeenByOp(m, ops[0], depth);
      assert seen + [] == seen;
      if !c.Error? {
        var inner := if c.Open? then depth + 1 else depth;
        DeltaSink(m, ops[1..], inner, Latest(seen, sink));
        DeltaSink(m, ops[1..], inner, Contribute(m, ops[0], depth, None).1);
        LatestConcat(seen, SeenByObject(m, ops[1..], inner), sink);
      }
    }
  }

  lemma FieldSink(m: Marshalers, f: ZapField, depth: nat, sink: Option<Trace>)
    ensures FieldDelta(m, f, depth, sink) == (FieldDelta(m, f, depth, None).0, Latest(SeenByField(m, f, depth), sink))
  {
    hide NestedObject, NestedArray, Delta, SeenInObject, SeenInArray, SeenByObject, Latest;
    LatestFew(Trace(false, [], [], 0), sink);
    match f
    case Object(_, id) => ObjectSink(m, id, depth, sink);
    case ArrayField(_, id) => ArraySink(m, id, depth, sink);
    case Inline(_, id) => DeltaSink(m, m.objects(id), depth, sink);
    case SpanContext(sc) => LatestFew(sc, sink);
    case _ =>
  }

  /**
    The last span context seen wins.  For every list of fields, with marshalers that nest, fail or
    stop at the depth cap: what is built does not depend on the trace, and the trace is the last of
    all the span contexts met on the way, or the stashed one if there was none.
  */
  lemma {:induction false} LastSeenWins(m: Marshalers, fs: seq<ZapField>, depth: nat, sink: Option<Trace>)
    ensures FieldsDelta(m, fs, depth, sink)
         == (FieldsDelta(m, fs, depth, None).0, Latest(SeenByFields(m, fs, depth), sink))
    decreases |fs|
  {
    hide FieldDelta, SeenByField, Latest, Join;
    LatestFew(Trace(false, [], [], 0), sink);
    if |fs| > 0 {
      FieldSink(m, fs[0], depth, sink);
      var inner := depth + |FieldDelta(m, fs[0], depth, None).0| - 1;
      var seen := SeenByField(m, fs[0], depth);
      LastSeenWins(m, fs[1..], inner, Latest(seen, sink));
      LastSeenWins(m, fs[1..], inner, FieldDelta(m, fs[0], depth, None).1);
      LatestConcat(seen, SeenByFields(m, fs[1..], inner), sink);
    }
  }

  /** The trace of a whole record: the last context its call-site fields met, else the stash of With. */
  lemma RecordTrace(
    cfg: EncConfig, m: Marshalers, with: seq<Level>, stash: Option<Trace>, ent: Entry, fs: seq<ZapField>)
    requires |with| > 0
    ensures RecordLevels(cfg, m, with, stash, ent, fs).1 == Latest(SeenByFields(m, fs, |with|), stash)
  {
    hide FieldsDelta, SeenByFields, Latest, Join, Meta, TraceMeta;
    LastSeenWins(m, fs, |with|, stash);
  }

  // ---------------------------------------------------------------------------------------
  // Fields that meet none
  // ---------------------------------------------------------------------------------------

  /** No marshaler ever hands over a span context. */
  ghost predicate Quiet(m: Marshalers) {
    forall id, i: nat :: i < |m.objects(id)| ==> !m.objects(id)[i].AddTrace?
  }

  predicate QuietOps(ops: seq<ObjectOp>) {
    forall i :: 0 <= i < |ops| ==> !ops[i].AddTrace?
  }

  lemma {:induction false} QuietObject(m: Marshalers, id: Id, depth: nat)
    requires Quiet(m)
    ensures SeenInObject(m, id, depth) == []
    decreases Left(depth), 0
  {
    if depth < MAX_DEPTH { QuietRun(m, m.objects(id), depth + 1); }
  }

  lemma {:induction false} QuietArray(m: Marshalers, id: Id, depth: nat)
    requires Quiet(m)
    ensures SeenInArray(m, id, depth) == []
    decreases Left(depth), 0
  {
    if depth < MAX_DEPTH { QuietElements(m, m.arrays(id), depth + 1); }
  }

  lemma {:induction false} QuietRun(m: Marshalers, ops: seq<ObjectOp>, depth: nat)
    requires Quiet(m) && QuietOps(ops)
    ensures SeenByObject(m, ops, depth) == []
    decreases Left(depth), 2, |ops|
  {
    hide Contribute, SeenInObject, SeenInArray;
    if |ops| > 0 {
      QuietRun(m, ops[1..], depth);
      QuietRun(m, ops[1..], depth + 1);
      match ops[0]
      case AddObject(_, id, _) => QuietObject(m, id, depth);
      case AddArray(_, id, _) => QuietArray(m, id, depth);
      case _ =>
    }
  }

  lemma {:induction false} QuietElements(m: Marshalers, ops: seq<ArrayOp>, depth: nat)
    requires Quiet(m)
    ensures SeenByArray(m, ops, depth) == []
    decreases Left(depth), 2, |ops|
  {
    hide Element, SeenInObject, SeenInArray;
    if |ops| > 0 {
      QuietElements(m, ops[1..], depth);
      match ops[0]
      case AppendObject(id, _) => QuietObject(m, id, depth);
      case AppendArray(id, _) => QuietArray(m, id, depth);
      case _ =>
    }
  }

  /** Fields of any kind whose marshalers hand over no span context keep the trace that was there. */
  lemma QuietFields(m: Marshalers, fs: seq<ZapField>, depth: nat, sink: Option<Trace>)
    requires Quiet(m) && forall i :: 0 <= i < |fs| ==> !fs[i].SpanContext?
    ensures FieldsDelta(m, fs, depth, sink).1 == sink
  {
    hide FieldsDelta;
    NothingSeen(m, fs, depth);
    LastSeenWins(m, fs, depth, sink);
  }

  lemma {:induction false} NothingSeen(m: Marshalers, fs: seq<ZapField>, depth: nat)
    requires Quiet(m) && forall i :: 0 <= i < |fs| ==> !fs[i].SpanContext?
    ensures SeenByFields(m, fs, depth) == []
    decreases |fs|
  {
    hide FieldDelta, SeenInObject, SeenInArray, SeenByObject;
    if |fs| > 0 {
      NothingSeen(m, fs[1..], depth + |FieldDelta(m, fs[0], depth, None).0| - 1);
      match fs[0]
      case Object(_, id) => QuietObject(m, id, depth);
      case ArrayField(_, id) => QuietArray(m, id, depth);
      case Inline(_, id) => QuietRun(m, m.objects(id), depth);
      case _ =>
    }
  }
}
