/**
  The OTLP attribute tree and its protobuf bytes, by plain recursion over the tree.  This is the
  reference the frame stack of otlp/attr.go is compared with.
*/
module Attributes {
  import opened Wire
  import opened Levels

  /** opentelemetry-proto AnyValue; a double is its bit pattern. */
  datatype Value =
    | Str(s: bytes)
    | Bool(b: bool)
    | Int(i: int64)
    | Double(bits: u64)
    | Blob(data: bytes)
    | Arr(values: seq<Value>)
    | Kvs(kvs: seq<KeyValue>)

  datatype KeyValue = KeyValue(key: bytes, value: Value)

  predicate IsScalar(v: Value) {
    !v.Arr? && !v.Kvs?
  }
  type Scalar = v: Value | IsScalar(v) witness Bool(true)

  /** `uint64(v)` of an int64: two's complement, not zigzag. */
  function AsUint64(i: int64): u64 {
    if i >= 0 then i else i + U64_LIMIT
  }

  /** The bytes of an AnyValue. */
  function ValueBytes(v: Value): bytes
    decreases v, 1
  {
    match v
    case Str(s) => TaggedBytes(0x0a, s)
    case Bool(b) => [0x10, if b then 1 else 0]
    case Int(i) => [0x18] + Uvarint(AsUint64(i))
    case Double(bits) => [0x21] + LittleEndian(bits, 8)
    case Blob(data) => TaggedBytes(0x3a, data)
    case Arr(vs) => TaggedBytes(0x2a, ValuesBytes(vs))
    case Kvs(kvs) => TaggedBytes(0x32, KvsBytes(0x0a, kvs))
  }

  /** The entries of an ArrayValue. */
  function ValuesBytes(vs: seq<Value>): bytes
    decreases vs, 0
  {
    if |vs| == 0 then [] else ValuesBytes(vs[..|vs| - 1]) + TaggedBytes(0x0a, ValueBytes(vs[|vs| - 1]))
  }

  /** A KeyValue message. */
  function KvBytes(kv: KeyValue): bytes
    decreases kv, 2
  {
    TaggedBytes(0x0a, kv.key) + TaggedBytes(0x12, ValueBytes(kv.value))
  }

  /** The entries of a KeyValueList (tag 0x0a) or of LogRecord.attributes (tag 0x32). */
  function KvsBytes(tag: byte, kvs: seq<KeyValue>): bytes
    decreases kvs, 0
  {
    if |kvs| == 0 then [] else KvsBytes(tag, kvs[..|kvs| - 1]) + TaggedBytes(tag, KvBytes(kvs[|kvs| - 1]))
  }

  lemma {:induction false} KvsConcat(tag: byte, a: seq<KeyValue>, b: seq<KeyValue>)
    ensures KvsBytes(tag, a + b) == KvsBytes(tag, a) + KvsBytes(tag, b)
    decreases |b|
  {
    hide KvBytes, TaggedBytes;
    if |b| == 0 {
      assert a + b == a;
    } else {
      assert (a + b)[..|a + b| - 1] == a + b[..|b| - 1];
      KvsConcat(tag, a, b[..|b| - 1]);
    }
  }

  lemma {:induction false} ValuesConcat(a: seq<Value>, b: seq<Value>)
    ensures ValuesBytes(a + b) == ValuesBytes(a) + ValuesBytes(b)
    decreases |b|
  {
    hide ValueBytes, TaggedBytes;
    if |b| == 0 {
      assert a + b == a;
    } else {
      assert (a + b)[..|a + b| - 1] == a + b[..|b| - 1];
      ValuesConcat(a, b[..|b| - 1]);
    }
  }

  lemma KvsOne(tag: byte, kv: KeyValue)
    ensures KvsBytes(tag, [kv]) == TaggedBytes(tag, KvBytes(kv))
  {
  }

  lemma ValuesOne(v: Value)
    ensures ValuesBytes([v]) == TaggedBytes(0x0a, ValueBytes(v))
  {
  }

  // ---------------------------------------------------------------------------------------
  // Marshaler programs
  // ---------------------------------------------------------------------------------------

  /** A span context; `valid` is `IsValid()`. */
  datatype Trace = Trace(valid: bool, traceId: bytes, spanId: bytes, flags: byte)

  /**
    One call a `MarshalLogObject` makes on its encoder.  Nested marshalers are named, so a
    marshaler may nest itself for ever.  `strict` says whether it returns an error of the call or
    carries on.
  */
  datatype ObjectOp =
    | Add(key: bytes, v: Scalar)
    | OpenNamespace(key: bytes)
    | AddObject(key: bytes, id: Id, strict: bool)
    | AddArray(key: bytes, id: Id, strict: bool)
    | AddReflected(key: bytes, text: Try<bytes>, strict: bool)
    | AddTrace(sc: Trace)
    | Fail(err: bytes)

  /** One call a `MarshalLogArray` makes. */
  datatype ArrayOp =
    | Append(v: Scalar)
    | AppendObject(id: Id, strict: bool)
    | AppendArray(id: Id, strict: bool)
    | AppendReflected(text: Try<bytes>, strict: bool)
    | FailArray(err: bytes)

  type Marshalers = Programs<ObjectOp, ArrayOp>

  const DEPTH_ERROR: bytes := Ascii("otlp: max container nesting depth exceeded")

  /** What one call contributes to the object being built, and the span context seen last. */
  datatype Contribution = Put(kv: KeyValue) | Skip | Open(key: bytes) | Error(text: bytes)
  datatype Evaluated<+T> = Evaluated(result: Try<T>, sink: Option<Trace>)

  function Checked<T>(strict: bool, r: Try<T>): Try<Option<T>> {
    match r
    case Done(v) => Done(Some(v))
    case Err(e) => if strict then Err(e) else Done(None)
  }

  function PutOr(strict: bool, key: bytes, r: Try<Value>): Contribution {
    match Checked(strict, r)
    case Done(Some(v)) => Put(KeyValue(key, v))
    case Done(None) => Skip
    case Err(e) => Error(e)
  }

  /** The value of a nested object at stack depth `depth`; refused at the depth cap. */
  function NestedObject(m: Marshalers, id: Id, depth: nat, sink: Option<Trace>): Evaluated<Value>
    decreases Left(depth), 0
  {
    if depth >= MAX_DEPTH then Evaluated(Err(DEPTH_ERROR), sink)
    else
      var r := EvalObject(m, m.objects(id), depth + 1, sink);
      Evaluated(if r.result.Done? then Done(Kvs(r.result.value)) else Err(r.result.text), r.sink)
  }

  function NestedArray(m: Marshalers, id: Id, depth: nat, sink: Option<Trace>): Evaluated<Value>
    decreases Left(depth), 0
  {
    if depth >= MAX_DEPTH then Evaluated(Err(DEPTH_ERROR), sink)
    else
      var r := EvalArray(m, m.arrays(id), depth + 1, sink);
      Evaluated(if r.result.Done? then Done(Arr(r.result.value)) else Err(r.result.text), r.sink)
  }

  function ReflectedValue(text: Try<bytes>): Try<Value> {
    match text
    case Done(js) => Done(Str(js))
    case Err(e) => Err(e)
  }

  function Contribute(m: Marshalers, op: ObjectOp, depth: nat, sink: Option<Trace>): (Contribution, Option<Trace>)
    decreases Left(depth), 1
  {
    match op
    case Add(k, v) => (Put(KeyValue(k, v)), sink)
    case OpenNamespace(k) => (Open(k), sink)
    case AddObject(k, id, strict) =>
      var r := NestedObject(m, id, depth, sink);
      (PutOr(strict, k, r.result), r.sink)
    case AddArray(k, id, strict) =>
      var r := NestedArray(m, id, depth, sink);
      (PutOr(strict, k, r.result), r.sink)
    case AddReflected(k, text, strict) => (PutOr(strict, k, ReflectedValue(text)), sink)
    case AddTrace(sc) => (Skip, Some(sc))
    case Fail(e) => (Error(e), sink)
  }

  /**
    The simple recursive meaning of a marshaler run at stack depth `depth`: the entries it adds,
    everything after an opened namespace going inside it; or the error it stops with.
  */
  function EvalObject(m: Marshalers, ops: seq<ObjectOp>, depth: nat, sink: Option<Trace>): Evaluated<seq<KeyValue>>
    decreases Left(depth), 2, |ops|
  {
    if |ops| == 0 then Evaluated(Done([]), sink)
    else
      match Contribute(m, ops[0], depth, sink)
      case (Error(e), sink') => Evaluated(Err(e), sink')
      case (Skip, sink') => EvalObject(m, ops[1..], depth, sink')
      case (Put(kv), sink') =>
        var r := EvalObject(m, ops[1..], depth, sink');
        Evaluated(if r.result.Done? then Done([kv] + r.result.value) else r.result, r.sink)
      case (Open(k), sink') =>
        var r := EvalObject(m, ops[1..], depth + 1, sink');
        Evaluated(if r.result.Done? then Done([KeyValue(k, Kvs(r.result.value))]) else r.result, r.sink)
  }

  function Element(m: Marshalers, op: ArrayOp, depth: nat, sink: Option<Trace>): Evaluated<Option<Value>>
    decreases Left(depth), 1
  {
    match op
    case Append(v) => Evaluated(Done(Some(v)), sink)
    case AppendObject(id, strict) =>
      var r := NestedObject(m, id, depth, sink);
      Evaluated(Checked(strict, r.result), r.sink)
    case AppendArray(id, strict) =>
      var r := NestedArray(m, id, depth, sink);
      Evaluated(Checked(strict, r.result), r.sink)
    case AppendReflected(text, strict) => Evaluated(Checked(strict, ReflectedValue(text)), sink)
    case FailArray(e) => Evaluated(Err(e), sink)
  }

  function EvalArray(m: Marshalers, ops: seq<ArrayOp>, depth: nat, sink: Option<Trace>): Evaluated<seq<Value>>
    decreases Left(depth), 2, |ops|
  {
    if |ops| == 0 then Evaluated(Done([]), sink)
    else
      var first := Element(m, ops[0], depth, sink);
      if first.result.Err? then Evaluated(Err(first.result.text), first.sink)
      else
        var rest := EvalArray(m, ops[1..], depth, first.sink);
        if rest.result.Err? then rest
        else
          Evaluated(Done((if first.result.value.Some? then [first.result.value.value] else []) + rest.result.value),
            rest.sink)
  }
}
