/**
  The protobuf to OTLP/JSON transcoder (otlp/json.go): a table-driven walker over the wire bytes,
  and the printer it must agree with, which prints the field tree without looking at any bytes.

  Finite doubles are printed by a function handed in (`strconv.AppendFloat`); everything else is
  printed here.
*/
module Json {
  import opened Wire
  import opened Text
  import opened JsonString

  // ---------------------------------------------------------------------------------------
  // Schemas
  // ---------------------------------------------------------------------------------------

  datatype Schema =
    | ExportRequest | ResourceLogs | Resource | ScopeLogs | Scope
    | LogRecord | KeyValueMsg | AnyValue | ArrayValue | KVListMsg

  datatype Kind =
    | JString | JHex | JBase64 | JU64 | JI64 | JUint | JFixed32 | JDouble | JBool
    | JMsg(sub: Schema)

  datatype Spec = Spec(name: string, kind: Kind, repeated: bool)

  /** `jsonSchemas`: the fields of each message. */
  function Lookup(s: Schema, num: nat): Option<Spec> {
    match (s, num)
    case (ExportRequest, 1) => Some(Spec("resourceLogs", JMsg(ResourceLogs), true))
    case (ResourceLogs, 1) => Some(Spec("resource", JMsg(Resource), false))
    case (ResourceLogs, 2) => Some(Spec("scopeLogs", JMsg(ScopeLogs), true))
    case (ResourceLogs, 3) => Some(Spec("schemaUrl", JString, false))
    case (Resource, 1) => Some(Spec("attributes", JMsg(KeyValueMsg), true))
    case (Resource, 2) => Some(Spec("droppedAttributesCount", JUint, false))
    case (ScopeLogs, 1) => Some(Spec("scope", JMsg(Scope), false))
    case (ScopeLogs, 2) => Some(Spec("logRecords", JMsg(LogRecord), true))
    case (ScopeLogs, 3) => Some(Spec("schemaUrl", JString, false))
    case (Scope, 1) => Some(Spec("name", JString, false))
    case (Scope, 2) => Some(Spec("version", JString, false))
    case (Scope, 3) => Some(Spec("attributes", JMsg(KeyValueMsg), true))
    case (Scope, 4) => Some(Spec("droppedAttributesCount", JUint, false))
    case (LogRecord, 1) => Some(Spec("timeUnixNano", JU64, false))
    case (LogRecord, 2) => Some(Spec("severityNumber", JUint, false))
    case (LogRecord, 3) => Some(Spec("severityText", JString, false))
    case (LogRecord, 5) => Some(Spec("body", JMsg(AnyValue), false))
    case (LogRecord, 6) => Some(Spec("attributes", JMsg(KeyValueMsg), true))
    case (LogRecord, 7) => Some(Spec("droppedAttributesCount", JUint, false))
    case (LogRecord, 8) => Some(Spec("flags", JFixed32, false))
    case (LogRecord, 9) => Some(Spec("traceId", JHex, false))
    case (LogRecord, 10) => Some(Spec("spanId", JHex, false))
    case (LogRecord, 11) => Some(Spec("observedTimeUnixNano", JU64, false))
    case (LogRecord, 12) => Some(Spec("eventName", JString, false))
    case (KeyValueMsg, 1) => Some(Spec("key", JString, false))
    case (KeyValueMsg, 2) => Some(Spec("value", JMsg(AnyValue), false))
    case (AnyValue, 1) => Some(Spec("stringValue", JString, false))
    case (AnyValue, 2) => Some(Spec("boolValue", JBool, false))
    case (AnyValue, 3) => Some(Spec("intValue", JI64, false))
    case (AnyValue, 4) => Some(Spec("doubleValue", JDouble, false))
    case (AnyValue, 5) => Some(Spec("arrayValue", JMsg(ArrayValue), false))
    case (AnyValue, 6) => Some(Spec("kvlistValue", JMsg(KVListMsg), false))
    case (AnyValue, 7) => Some(Spec("bytesValue", JBase64, false))
    case (ArrayValue, 1) => Some(Spec("values", JMsg(AnyValue), true))
    case (KVListMsg, 1) => Some(Spec("values", JMsg(KeyValueMsg), true))
    case _ => None
  }

  function WireTypeFor(k: Kind): nat {
    match k
    case JString => 2
    case JHex => 2
    case JBase64 => 2
    case JMsg(_) => 2
    case JU64 => 1
    case JDouble => 1
    case JFixed32 => 5
    case JI64 => 0
    case JUint => 0
    case JBool => 0
  }

  /** The field has a place in the schema and arrived with its wire type. */
  predicate FieldTyped(f: Field, sid: Schema) {
    Lookup(sid, f.num).Some? && WireType(f) == WireTypeFor(Lookup(sid, f.num).value.kind)
  }

  predicate AllTyped(fs: seq<Field>, sid: Schema) {
    forall i :: 0 <= i < |fs| ==> FieldTyped(fs[i], sid)
  }

  predicate AllShort(fs: seq<Field>, bound: nat) {
    forall i :: 0 <= i < |fs| && fs[i].LenF? ==> |fs[i].payload| < bound
  }

  datatype Failure = Cut | UnknownField(num: nat, sid: Schema) | WrongType(num: nat, wt: nat)
  datatype Outcome<+T> = Fine(value: T) | Broken(err: Failure)

  // ---------------------------------------------------------------------------------------
  // Scanning one message
  // ---------------------------------------------------------------------------------------

  /** One turn of the scanning loop, with the checks in the order of the code. */
  function TakeTyped(b: bytes, sid: Schema): (r: Outcome<(Field, bytes)>)
    ensures r.Fine? ==> FieldTyped(r.value.0, sid) && |r.value.1| < |b|
    ensures r.Fine? && r.value.0.LenF? ==> |r.value.0.payload| + 1 < |b|
  {
    match ReadUvarint(b)
    case Bad => Broken(Cut)
    case Good(tag, n) =>
      var num, wt := tag / 8, tag % 8;
      match Lookup(sid, num)
      case None => Broken(UnknownField(num, sid))
      case Some(spec) =>
        if wt != WireTypeFor(spec.kind) then Broken(WrongType(num, wt))
        else
          match TakeBody(num, wt, b[n..])
          case None => Broken(Cut)
          case Some((f, k)) => Fine((f, b[n + k..]))
  }

  function ScanTyped(b: bytes, sid: Schema): (r: Outcome<seq<Field>>)
    ensures r.Fine? ==> AllTyped(r.value, sid) && AllShort(r.value, |b|)
    decreases |b|
  {
    if |b| == 0 then Fine([])
    else
      match TakeTyped(b, sid)
      case Broken(e) => Broken(e)
      case Fine((f, rest)) =>
        match ScanTyped(rest, sid)
        case Broken(e) => Broken(e)
        case Fine(fs) => Fine([f] + fs)
  }

  // ---------------------------------------------------------------------------------------
  // Grouping
  // ---------------------------------------------------------------------------------------

  /** Field numbers in order of first appearance. */
  function Order(fs: seq<Field>): seq<nat> {
    if |fs| == 0 then []
    else
      var init := Order(fs[..|fs| - 1]);
      var n := fs[|fs| - 1].num;
      if n in init then init else init + [n]
  }

  /** The fields with one number, in order. */
  function Select(fs: seq<Field>, num: nat): seq<Field> {
    if |fs| == 0 then []
    else Select(fs[..|fs| - 1], num) + if fs[|fs| - 1].num == num then [fs[|fs| - 1]] else []
  }

  lemma {:induction false} SelectTyped(fs: seq<Field>, num: nat, sid: Schema, bound: nat)
    requires AllTyped(fs, sid) && AllShort(fs, bound)
    ensures AllTyped(Select(fs, num), sid) && AllShort(Select(fs, num), bound)
    ensures forall i :: 0 <= i < |Select(fs, num)| ==> Select(fs, num)[i].num == num
  {
    hide FieldTyped;
    if |fs| > 0 { SelectTyped(fs[..|fs| - 1], num, sid, bound); }
  }

  /** A number is listed exactly when some field carries it. */
  lemma {:induction false} OrderSelect(fs: seq<Field>, num: nat)
    ensures num in Order(fs) <==> |Select(fs, num)| > 0
  {
    if |fs| > 0 { OrderSelect(fs[..|fs| - 1], num); }
  }

  lemma OrderSelected(fs: seq<Field>)
    ensures forall n :: n in Order(fs) ==> |Select(fs, n)| > 0
  {
  }

  // ---------------------------------------------------------------------------------------
  // Emitting
  // ---------------------------------------------------------------------------------------

  type FloatText = u64 -> bytes

  function InQuotes(s: bytes): bytes {
    [QUOTE] + s + [QUOTE]
  }

  /** NaN and the infinities are strings; `finite` prints the rest. */
  function DoubleJson(bits: u64, finite: FloatText): bytes {
    var exponent, mantissa := bits / 0x10_0000_0000_0000 % 0x800, bits % 0x10_0000_0000_0000;
    if exponent == 0x7ff && mantissa != 0 then InQuotes(Ascii("NaN"))
    else if exponent == 0x7ff && bits < 0x8000_0000_0000_0000 then InQuotes(Ascii("Infinity"))
    else if exponent == 0x7ff then InQuotes(Ascii("-Infinity"))
    else finite(bits)
  }

  /**
    Doubles by their IEEE 754 parts: with all exponent bits set they are the strings NaN, for any
    mantissa but zero, and Infinity with their sign; every other double is printed as a number.
  */
  lemma DoubleText(negative: bool, exponent: nat, mantissa: nat, finite: FloatText)
    requires exponent < 2048 && mantissa < 0x10_0000_0000_0000
    ensures
      var bits := (if negative then 0x8000_0000_0000_0000 else 0) + exponent * 0x10_0000_0000_0000 + mantissa;
      && 0 <= bits < U64_LIMIT
      && DoubleJson(bits, finite)
         == if exponent < 2047 then finite(bits)
            else if mantissa != 0 then Ascii("\"NaN\"")
            else if negative then Ascii("\"-Infinity\"") else Ascii("\"Infinity\"")
  {
    SpecialTexts();
  }

  lemma SpecialTexts()
    ensures InQuotes(Ascii("NaN")) == Ascii("\"NaN\"")
    ensures InQuotes(Ascii("Infinity")) == Ascii("\"Infinity\"")
    ensures InQuotes(Ascii("-Infinity")) == Ascii("\"-Infinity\"")
  {
  }

  /** The scalar kinds of `appendValJSON`. */
  function LeafJson(f: Field, k: Kind, fl: FloatText): bytes
    requires !k.JMsg? && WireType(f) == WireTypeFor(k)
  {
    match k
    case JString => Quoted(f.payload)
    case JHex => InQuotes(Hex(f.payload))
    case JBase64 => InQuotes(Base64(f.payload))
    case JU64 => InQuotes(Decimal(f.n))
    case JI64 => InQuotes(DecimalInt(AsInt64(f.n)))
    case JUint => Decimal(f.n)
    case JFixed32 => Decimal(f.n)
    case JDouble => DoubleJson(f.n, fl)
    case JBool => Ascii(if f.n != 0 then "true" else "false")
  }

  function Joined(parts: seq<bytes>): bytes {
    if |parts| == 0 then []
    else if |parts| == 1 then parts[0]
    else Joined(parts[..|parts| - 1]) + [0x2c] + parts[|parts| - 1]
  }

  function Braced(parts: seq<bytes>): bytes {
    [0x7b] + Joined(parts) + [0x7d]
  }

  function Bracketed(parts: seq<bytes>): bytes {
    [0x5b] + Joined(parts) + [0x5d]
  }

  function Named(name: string, value: bytes): bytes {
    Quoted(Ascii(name)) + [0x3a] + value
  }

  /** The punctuation of objects and lists. */
  lemma Punctuation(parts: seq<bytes>, last: bytes, name: string, value: bytes)
    ensures Braced(parts) == Ascii("{") + Joined(parts) + Ascii("}")
    ensures Bracketed(parts) == Ascii("[") + Joined(parts) + Ascii("]")
    ensures Joined([]) == [] && Joined([last]) == last
    ensures parts != [] ==> Joined(parts + [last]) == Joined(parts) + Ascii(",") + last
    ensures Named(name, value) == Quoted(Ascii(name)) + Ascii(":") + value
  {
    hide Quoted;
    assert (parts + [last])[..|parts|] == parts;
  }

  /** `appendMsgJSON` on the bytes of one message; the first error in scan order, then in emit order, wins. */
  function MsgJson(b: bytes, sid: Schema, fl: FloatText): Outcome<bytes>
    decreases |b|, 3
  {
    match ScanTyped(b, sid)
    case Broken(e) => Broken(e)
    case Fine(fs) =>
      OrderSelected(fs);
      match EntriesJson(fs, Order(fs), sid, |b|, fl)
      case Broken(e) => Broken(e)
      case Fine(parts) => Fine(Braced(parts))
  }

  function EntriesJson(fs: seq<Field>, order: seq<nat>, sid: Schema, bound: nat,
      fl: FloatText): (r: Outcome<seq<bytes>>)
    requires AllTyped(fs, sid) && AllShort(fs, bound)
    requires forall n :: n in order ==> |Select(fs, n)| > 0
    ensures r.Fine? ==> |r.value| == |order|
    decreases bound, 2, |order|
  {
    if |order| == 0 then Fine([])
    else
      match EntryJson(fs, order[0], sid, bound, fl)
      case Broken(e) => Broken(e)
      case Fine(first) =>
        match EntriesJson(fs, order[1..], sid, bound, fl)
        case Broken(e) => Broken(e)
        case Fine(rest) => Fine([first] + rest)
  }

  function EntryJson(fs: seq<Field>, num: nat, sid: Schema, bound: nat, fl: FloatText): Outcome<bytes>
    requires AllTyped(fs, sid) && AllShort(fs, bound) && |Select(fs, num)| > 0
    decreases bound, 1, 0
  {
    var vals := Select(fs, num);
    SelectTyped(fs, num, sid, bound);
    assert FieldTyped(vals[0], sid);
    var spec := Lookup(sid, num).value;
    if spec.repeated then
      match ValuesJson(vals, sid, bound, fl)
      case Broken(e) => Broken(e)
      case Fine(parts) => Fine(Named(spec.name, Bracketed(parts)))
    else
      match ValueJson(vals[|vals| - 1], sid, bound, fl)
      case Broken(e) => Broken(e)
      case Fine(text) => Fine(Named(spec.name, text))
  }

  function ValuesJson(vals: seq<Field>, sid: Schema, bound: nat, fl: FloatText): (r: Outcome<seq<bytes>>)
    requires AllTyped(vals, sid) && AllShort(vals, bound)
    ensures r.Fine? ==> |r.value| == |vals|
    decreases bound, 0, |vals|
  {
    if |vals| == 0 then Fine([])
    else
      match ValueJson(vals[0], sid, bound, fl)
      case Broken(e) => Broken(e)
      case Fine(first) =>
        match ValuesJson(vals[1..], sid, bound, fl)
        case Broken(e) => Broken(e)
        case Fine(rest) => Fine([first] + rest)
  }

  /** `appendValJSON`. */
  function ValueJson(f: Field, sid: Schema, bound: nat, fl: FloatText): Outcome<bytes>
    requires FieldTyped(f, sid) && (f.LenF? ==> |f.payload| < bound)
    decreases bound, 0, 0
  {
    var k := Lookup(sid, f.num).value.kind;
    if k.JMsg? then MsgJson(f.payload, k.sub, fl) else Fine(LeafJson(f, k, fl))
  }

  // ---------------------------------------------------------------------------------------
  // The imperative walker
  // ---------------------------------------------------------------------------------------

  lemma OrderSnoc(fs: seq<Field>, f: Field)
    ensures Order(fs + [f]) == if f.num in Order(fs) then Order(fs) else Order(fs) + [f.num]
  {
  }

  lemma SelectSnoc(fs: seq<Field>, f: Field, num: nat)
    ensures Select(fs + [f], num) == Select(fs, num) + (if f.num == num then [f] else [])
  {
  }

  /** What has been scanned, put in front of the scan of the rest. */
  function After(seen: seq<Field>, rest: Outcome<seq<Field>>): Outcome<seq<Field>> {
    match rest
    case Broken(e) => Broken(e)
    case Fine(fs) => Fine(seen + fs)
  }

  lemma ScanStep(message: bytes, sid: Schema, seen: seq<Field>, b: bytes)
    requires ScanTyped(message, sid) == After(seen, ScanTyped(b, sid)) && |b| > 0
    ensures match TakeTyped(b, sid)
      case Broken(e) => ScanTyped(message, sid) == Broken(e)
      case Fine((f, rest)) => ScanTyped(message, sid) == After(seen + [f], ScanTyped(rest, sid))
  {
    hide TakeTyped, FieldTyped, AllTyped, AllShort;
    if TakeTyped(b, sid).Fine? {
      var (f, rest) := TakeTyped(b, sid).value;
      if ScanTyped(rest, sid).Fine? {
        Assoc(seen, [f], ScanTyped(rest, sid).value);
      }
    }
  }

  /** The map of the first phase holds, for each number seen, its fields in order. */
  ghost predicate Grouped(vals: map<nat, seq<Field>>, order: seq<nat>, seen: seq<Field>) {
    && order == Order(seen)
    && (forall n :: n in vals <==> n in order)
    && (forall n :: n in vals ==> vals[n] == Select(seen, n))
  }

  lemma GroupedSnoc(vals: map<nat, seq<Field>>, order: seq<nat>, seen: seq<Field>, f: Field)
    requires Grouped(vals, order, seen)
    ensures f.num in vals ==> Grouped(vals[f.num := vals[f.num] + [f]], order, seen + [f])
    ensures f.num !in vals ==> Grouped(vals[f.num := [f]], order + [f.num], seen + [f])
  {
    hide Order, Select;
    OrderSnoc(seen, f);
    forall n ensures Select(seen + [f], n) == Select(seen, n) + (if f.num == n then [f] else [])
      { SelectSnoc(seen, f, n); }
    OrderSelect(seen, f.num);
  }

  /** The switch over wire types: the value at the front of `b` and the number of bytes it takes. */
  method TakeValue(num: nat, wt: nat, b: bytes) returns (r: Option<(Field, nat)>)
    requires wt == 0 || wt == 1 || wt == 2 || wt == 5
    ensures r == TakeBody(num, wt, b)
  {
    hide ReadUvarint, LittleEndianValue, Pow256;
    if wt == 0 {
      var x := ReadUvarint(b);
      r := if x.Bad? then None else Some((VarintF(num, x.value), x.size));
    } else if wt == 1 {
      if |b| < 8 { return None; }
      Pow256Widths(); LittleEndianBound(b[..8]);
      r := Some((Fixed64F(num, LittleEndianValue(b[..8])), 8));
    } else if wt == 2 {
      var l := ReadUvarint(b);
      if l.Bad? || |b| - l.size < l.value { return None; }
      r := Some((LenF(num, b[l.size..l.size + l.value]), l.size + l.value));
    } else {
      if |b| < 4 { return None; }
      Pow256Widths(); LittleEndianBound(b[..4]);
      r := Some((Fixed32F(num, LittleEndianValue(b[..4])), 4));
    }
  }

  /** The body of the scanning loop, check by check in the order of the code. */
  method TakeOne(message: bytes, sid: Schema) returns (r: Outcome<(Field, bytes)>)
    ensures r == TakeTyped(message, sid)
  {
    hide ReadUvarint, Lookup, TakeBody;
    var head := ReadUvarint(message);
    if head.Bad? { return Broken(Cut); }
    var b := message[head.size..];
    var num, wt := head.value / 8, head.value % 8;
    var spec := Lookup(sid, num);
    if spec.None? { return Broken(UnknownField(num, sid)); }
    if wt != WireTypeFor(spec.value.kind) { return Broken(WrongType(num, wt)); }
    var value := TakeValue(num, wt, b);
    if value.None? { return Broken(Cut); }
    assert message[head.size + value.value.1..] == b[value.value.1..];
    return Fine((value.value.0, b[value.value.1..]));
  }

  /** Phase one of `appendMsgJSON`: scan the fields in order, grouping them by number. */
  method ScanFields(message: bytes, sid: Schema)
      returns (err: Option<Failure>, order: seq<nat>, vals: map<nat, seq<Field>>)
    ensures match ScanTyped(message, sid)
      case Broken(e) => err == Some(e)
      case Fine(fs) => err == None && Grouped(vals, order, fs)
  {
    hide TakeTyped, ScanTyped, Grouped;
    order, vals := [], map[];
    var b := message;
    ghost var seen: seq<Field> := [];
    assert Grouped(vals, order, seen) by { GroupedNone(); }
    assert ScanTyped(message, sid) == After(seen, ScanTyped(b, sid)) by {
      if ScanTyped(b, sid).Fine? { assert [] + ScanTyped(b, sid).value == ScanTyped(b, sid).value; }
    }
    while |b| > 0
      invariant ScanTyped(message, sid) == After(seen, ScanTyped(b, sid))
      invariant Grouped(vals, order, seen)
      decreases |b|
    {
      ScanStep(message, sid, seen, b);
      var step := TakeOne(b, sid);
      if step.Broken? { return Some(step.err), order, vals; }
      var (f, rest) := step.value;
      GroupedSnoc(vals, order, seen, f);
      if f.num in vals {
        vals := vals[f.num := vals[f.num] + [f]];
      } else {
        order := order + [f.num];
        vals := vals[f.num := [f]];
      }
      seen, b := seen + [f], rest;
    }
    ScanEnd(sid);
    assert seen + [] == seen;
    return None, order, vals;
  }

  lemma GroupedNone()
    ensures Grouped(map[], [], [])
  {
  }

  lemma ScanEnd(sid: Schema)
    ensures ScanTyped([], sid) == Fine([])
  {
  }

  lemma JoinedSnoc(parts: seq<bytes>, last: bytes)
    ensures Joined(parts + [last]) == if |parts| == 0 then last else Joined(parts) + [0x2c] + last
  {
  }

  /** `dst` extended by a text, or the error. */
  function Onto(dst: bytes, r: Outcome<bytes>): Outcome<bytes> {
    match r
    case Broken(e) => Broken(e)
    case Fine(text) => Fine(dst + text)
  }

  /** The values printed so far decide how the whole list ends. */
  lemma ValuesSplit(vals: seq<Field>, i: nat, sid: Schema, bound: nat, fl: FloatText)
    requires AllTyped(vals, sid) && AllShort(vals, bound) && i < |vals|
    requires ValuesJson(vals[..i], sid, bound, fl).Fine?
    ensures match ValueJson(vals[i], sid, bound, fl)
      case Broken(e) => ValuesJson(vals, sid, bound, fl) == Broken(e)
      case Fine(text) =>
        ValuesJson(vals[..i + 1], sid, bound, fl) == Fine(ValuesJson(vals[..i], sid, bound, fl).value + [text])
    decreases i
  {
    hide FieldTyped, ValueJson;
    if i > 0 {
      assert vals[..i][1..] == vals[1..][..i - 1] && vals[..i + 1][1..] == vals[1..][..i];
      ValuesSplit(vals[1..], i - 1, sid, bound, fl);
      assert vals[..i][0] == vals[0] && vals[..i + 1][0] == vals[0];
      if ValueJson(vals[i], sid, bound, fl).Fine? {
        assert [ValueJson(vals[0], sid, bound, fl).value] + ValuesJson(vals[1..][..i], sid, bound, fl).value
            == ValuesJson(vals[..i], sid, bound, fl).value + [ValueJson(vals[i], sid, bound, fl).value];
      }
    } else {
      assert vals[..1][1..] == [] && vals[..0] == [];
      if ValueJson(vals[0], sid, bound, fl).Fine? {
        var text := ValueJson(vals[0], sid, bound, fl).value;
        assert [text] + [] == [] + [text];
      }
    }
  }

  lemma EntriesSplit(fs: seq<Field>, order: seq<nat>, i: nat, sid: Schema, bound: nat, fl: FloatText)
    requires AllTyped(fs, sid) && AllShort(fs, bound) && i < |order|
    requires forall n :: n in order ==> |Select(fs, n)| > 0
    requires EntriesJson(fs, order[..i], sid, bound, fl).Fine?
    ensures match EntryJson(fs, order[i], sid, bound, fl)
      case Broken(e) => EntriesJson(fs, order, sid, bound, fl) == Broken(e)
      case Fine(text) =>
        EntriesJson(fs, order[..i + 1], sid, bound, fl)
          == Fine(EntriesJson(fs, order[..i], sid, bound, fl).value + [text])
    decreases i
  {
    hide AllTyped, AllShort, EntryJson, Select;
    if i > 0 {
      assert order[..i][1..] == order[1..][..i - 1] && order[..i + 1][1..] == order[1..][..i];
      EntriesSplit(fs, order[1..], i - 1, sid, bound, fl);
      assert order[..i][0] == order[0] && order[..i + 1][0] == order[0];
      if EntryJson(fs, order[i], sid, bound, fl).Fine? {
        assert [EntryJson(fs, order[0], sid, bound, fl).value] + EntriesJson(fs, order[1..][..i], sid, bound, fl).value
            == EntriesJson(fs, order[..i], sid, bound, fl).value + [EntryJson(fs, order[i], sid, bound, fl).value];
      }
    } else {
      assert order[..1][1..] == [] && order[..0] == [];
      if EntryJson(fs, order[0], sid, bound, fl).Fine? {
        var text := EntryJson(fs, order[0], sid, bound, fl).value;
        assert [text] + [] == [] + [text];
      }
    }
  }

  /** The repeated branch of phase two: a comma before every value but the first. */
  method AppendValues(dst: bytes, vals: seq<Field>, sid: Schema, bound: nat, fl: FloatText) returns (r: Outcome<bytes>)
    requires AllTyped(vals, sid) && AllShort(vals, bound)
    ensures r == match ValuesJson(vals, sid, bound, fl)
                 case Broken(e) => Broken(e)
                 case Fine(parts) => Fine(dst + Bracketed(parts))
    decreases bound, 1
  {
    hide ValueJson, ValuesJson, FieldTyped, Joined;
    var out := dst + [0x5b];
    NoValues(sid, bound, fl);
    assert vals[..0] == [];
    for i := 0 to |vals|
      invariant ValuesJson(vals[..i], sid, bound, fl).Fine?
      invariant out == dst + [0x5b] + Joined(ValuesJson(vals[..i], sid, bound, fl).value)
    {
      ghost var parts := ValuesJson(vals[..i], sid, bound, fl).value;
      ValuesSplit(vals, i, sid, bound, fl);
      if i > 0 { out := out + [0x2c]; }
      var one := AppendValue(out, vals[i], sid, bound, fl);
      if one.Broken? { return one; }
      JoinedSnoc(parts, ValueJson(vals[i], sid, bound, fl).value);
      JoinedNone();
      out := one.value;
    }
    assert vals[..|vals|] == vals;
    assert out + [0x5d] == dst + Bracketed(ValuesJson(vals, sid, bound, fl).value);
    return Fine(out + [0x5d]);
  }

  lemma NoValues(sid: Schema, bound: nat, fl: FloatText)
    ensures ValuesJson([], sid, bound, fl) == Fine([]) && Joined([]) == []
  {
  }

  lemma JoinedNone()
    ensures Joined([]) == []
  {
  }

  /** `appendValJSON`. */
  method AppendValue(dst: bytes, f: Field, sid: Schema, bound: nat, fl: FloatText) returns (r: Outcome<bytes>)
    requires FieldTyped(f, sid) && (f.LenF? ==> |f.payload| < bound)
    ensures r == Onto(dst, ValueJson(f, sid, bound, fl))
    decreases bound, 0
  {
    hide MsgJson, LeafJson, Lookup;
    var k := Lookup(sid, f.num).value.kind;
    if k.JMsg? {
      r := AppendMsgJson(dst, f.payload, k.sub, fl);
    } else {
      r := Fine(dst + LeafJson(f, k, fl));
    }
  }

  method AppendEntry(dst: bytes, vals: seq<Field>, num: nat, sid: Schema, bound: nat, fl: FloatText,
      ghost fs: seq<Field>)
    returns (r: Outcome<bytes>)
    requires AllTyped(fs, sid) && AllShort(fs, bound) && vals == Select(fs, num) && |vals| > 0
    ensures r == Onto(dst, EntryJson(fs, num, sid, bound, fl))
    decreases bound, 2
  {
    hide ValueJson, ValuesJson, Quoted, Select, Bracketed;
    SelectTyped(fs, num, sid, bound);
    assert FieldTyped(vals[0], sid);
    var spec := Lookup(sid, num).value;
    var out := AppendJsonString(dst, Ascii(spec.name));
    out := out + [0x3a];
    if spec.repeated {
      r := AppendValues(out, vals, sid, bound, fl);
    } else {
      r := AppendValue(out, vals[|vals| - 1], sid, bound, fl);
    }
    if r.Fine? {
      ghost var text := r.value[|out|..];
      assert r.value == out + text;
      assert out + text == dst + Named(spec.name, text);
    }
  }

  /** One entry more: what the loop adds, or the error it stops with. */
  lemma NextEntry(fs: seq<Field>, order: seq<nat>, i: nat, sid: Schema, bound: nat, fl: FloatText)
    requires AllTyped(fs, sid) && AllShort(fs, bound) && i < |order|
    requires forall n :: n in order ==> |Select(fs, n)| > 0
    requires EntriesJson(fs, order[..i], sid, bound, fl).Fine?
    ensures
      var before := EntriesJson(fs, order[..i], sid, bound, fl).value;
      var after := EntriesJson(fs, order[..i + 1], sid, bound, fl);
      match EntryJson(fs, order[i], sid, bound, fl)
      case Broken(e) => EntriesJson(fs, order, sid, bound, fl) == Broken(e)
      case Fine(text) =>
        after.Fine? && Joined(after.value) == Joined(before) + (if i > 0 then [0x2c] else []) + text
  {
    hide AllTyped, AllShort, EntriesJson, EntryJson, Select, Joined;
    EntriesSplit(fs, order, i, sid, bound, fl);
    if EntryJson(fs, order[i], sid, bound, fl).Fine? {
      JoinedSnoc(EntriesJson(fs, order[..i], sid, bound, fl).value, EntryJson(fs, order[i], sid, bound, fl).value);
      JoinedNone();
    }
  }

  /** `appendMsgJSON`: both phases; the payload of a nested message is always shorter than its parent. */
  method AppendMsgJson(dst: bytes, b: bytes, sid: Schema, fl: FloatText) returns (r: Outcome<bytes>)
    ensures r == Onto(dst, MsgJson(b, sid, fl))
    decreases |b|, 3
  {
    hide ScanTyped, EntriesJson, EntryJson, Select, Order, AllTyped, AllShort, Joined;
    var err, order, vals := ScanFields(b, sid);
    if err.Some? { return Broken(err.value); }
    ghost var fs := ScanTyped(b, sid).value;
    OrderSelected(fs);
    var out := dst + [0x7b];
    NoEntries(fs, sid, |b|, fl);
    assert order[..0] == [];
    for i := 0 to |order|
      invariant EntriesJson(fs, order[..i], sid, |b|, fl).Fine?
      invariant out == dst + [0x7b] + Joined(EntriesJson(fs, order[..i], sid, |b|, fl).value)
    {
      NextEntry(fs, order, i, sid, |b|, fl);
      if i > 0 { out := out + [0x2c]; }
      var one := AppendEntry(out, vals[order[i]], order[i], sid, |b|, fl, fs);
      if one.Broken? { return one; }
      out := one.value;
    }
    assert order[..|order|] == order;
    assert out + [0x7d] == dst + Braced(EntriesJson(fs, order, sid, |b|, fl).value);
    return Fine(out + [0x7d]);
  }

  lemma NoEntries(fs: seq<Field>, sid: Schema, bound: nat, fl: FloatText)
    requires AllTyped(fs, sid) && AllShort(fs, bound)
    ensures EntriesJson(fs, [], sid, bound, fl) == Fine([]) && Joined([]) == []
  {
  }

  // ---------------------------------------------------------------------------------------
  // Field trees, printed directly
  // ---------------------------------------------------------------------------------------

  /** A message as a tree: a scalar field, or a nested message. */
  datatype Node = Leaf(f: Field) | Sub(num: nat, nodes: seq<Node>)

  function NodeNum(n: Node): nat {
    if n.Leaf? then n.f.num else n.num
  }

  /** The protobuf bytes of a tree. */
  function TreeBytes(nodes: seq<Node>): bytes
    decreases nodes, 1
  {
    EncodeFields(Fields(nodes))
  }

  function Fields(nodes: seq<Node>): (r: seq<Field>)
    ensures |r| == |nodes|
    decreases nodes, 0
  {
    if |nodes| == 0 then [] else Fields(nodes[..|nodes| - 1]) + [NodeField(nodes[|nodes| - 1])]
  }

  function NodeField(n: Node): (r: Field)
    ensures r.num == NodeNum(n)
    decreases n, 2
  {
    match n
    case Leaf(f) => f
    case Sub(num, nodes) => LenF(num, TreeBytes(nodes))
  }

  /** The tree follows the schema: scalars of the right wire type, messages where messages belong. */
  predicate NodeTyped(n: Node, sid: Schema)
    decreases n, 1
  {
    && Lookup(sid, NodeNum(n)).Some?
    && var k := Lookup(sid, NodeNum(n)).value.kind;
       match n
       case Leaf(f) => !k.JMsg? && WireType(f) == WireTypeFor(k) && (f.Fixed32F? ==> f.n < 0x1_0000_0000)
       case Sub(_, nodes) => k.JMsg? && TreeTyped(nodes, k.sub)
  }

  predicate TreeTyped(nodes: seq<Node>, sid: Schema)
    decreases nodes, 0
  {
    |nodes| == 0 || (TreeTyped(nodes[..|nodes| - 1], sid) && NodeTyped(nodes[|nodes| - 1], sid))
  }

  function NodeOrder(nodes: seq<Node>): seq<nat> {
    if |nodes| == 0 then []
    else
      var init := NodeOrder(nodes[..|nodes| - 1]);
      var n := NodeNum(nodes[|nodes| - 1]);
      if n in init then init else init + [n]
  }

  /** A message as OTLP/JSON: one member for each field number, in order of first appearance. */
  function Print(nodes: seq<Node>, sid: Schema, fl: FloatText): bytes
    requires TreeTyped(nodes, sid)
    decreases nodes, 3
  {
    Braced(PrintMembers(nodes, NodeOrder(nodes), sid, fl))
  }

  function PrintMembers(nodes: seq<Node>, order: seq<nat>, sid: Schema, fl: FloatText): (r: seq<bytes>)
    requires TreeTyped(nodes, sid)
    ensures |r| == |order|
    decreases nodes, 2, |order|
  {
    if |order| == 0 then []
    else [PrintMember(nodes, order[0], sid, fl)] + PrintMembers(nodes, order[1..], sid, fl)
  }

  /** A repeated field lists all its values; of any other the last occurrence counts. */
  function PrintMember(nodes: seq<Node>, num: nat, sid: Schema, fl: FloatText): bytes
    requires TreeTyped(nodes, sid)
    decreases nodes, 1
  {
    var vals := PrintValues(nodes, num, sid, fl);
    match Lookup(sid, num)
    case None => []
    case Some(spec) => Named(spec.name, if spec.repeated then Bracketed(vals) else LastOr(vals, []))
  }

  function PrintValues(nodes: seq<Node>, num: nat, sid: Schema, fl: FloatText): seq<bytes>
    requires TreeTyped(nodes, sid)
    decreases nodes, 0
  {
    if |nodes| == 0 then []
    else
      PrintValues(nodes[..|nodes| - 1], num, sid, fl)
      + if NodeNum(nodes[|nodes| - 1]) == num then [PrintNode(nodes[|nodes| - 1], sid, fl)] else []
  }

  function PrintNode(n: Node, sid: Schema, fl: FloatText): bytes
    requires NodeTyped(n, sid)
    decreases n, 4
  {
    var k := Lookup(sid, NodeNum(n)).value.kind;
    match n
    case Leaf(f) => LeafJson(f, k, fl)
    case Sub(_, nodes) => Print(nodes, k.sub, fl)
  }

  // ---------------------------------------------------------------------------------------
  // The square commutes
  // ---------------------------------------------------------------------------------------

  lemma {:induction false} TypedFields(nodes: seq<Node>, sid: Schema)
    requires TreeTyped(nodes, sid)
    ensures AllTyped(Fields(nodes), sid)
    decreases |nodes|
  {
    hide Lookup, TreeBytes;
    if |nodes| > 0 {
      TypedFields(nodes[..|nodes| - 1], sid);
      NodeFieldTyped(nodes[|nodes| - 1], sid);
    }
  }

  lemma NodeFieldTyped(n: Node, sid: Schema)
    requires NodeTyped(n, sid)
    ensures FieldTyped(NodeField(n), sid)
  {
    hide Lookup, TreeBytes, TreeTyped;
  }

  lemma {:induction false} SameOrder(nodes: seq<Node>)
    ensures Order(Fields(nodes)) == NodeOrder(nodes)
  {
    hide NodeField;
    if |nodes| > 0 {
      SameOrder(nodes[..|nodes| - 1]);
      OrderSnoc(Fields(nodes[..|nodes| - 1]), NodeField(nodes[|nodes| - 1]));
    }
  }

  /** Field numbers of the schemas fit one tag byte. */
  lemma SmallNumbers(sid: Schema, num: nat)
    ensures Lookup(sid, num).Some? ==> num <= 12
  {
  }

  lemma TakeTypedEncoded(f: Field, rest: bytes, sid: Schema)
    requires Encodable(f) && FieldTyped(f, sid)
    ensures TakeTyped(EncodeField(f) + rest, sid) == Fine((f, rest))
  {
    hide ReadUvarint, TakeBody, FieldBody, Uvarint, Lookup;
    var tag := 8 * f.num + WireType(f);
    TagParts(f);
    SplitField(Uvarint(tag), FieldBody(f), rest);
    VarintRoundTrip(tag, FieldBody(f) + rest);
    TakeBodyEncoded(f, rest);
  }

  lemma TagParts(f: Field)
    ensures (8 * f.num + WireType(f)) / 8 == f.num && (8 * f.num + WireType(f)) % 8 == WireType(f)
  {
  }

  lemma SplitField(tag: bytes, body: bytes, rest: bytes)
    ensures var b := tag + body + rest;
      b == tag + (body + rest) && b[|tag|..] == body + rest && b[|tag| + |body|..] == rest
  {
  }

  lemma {:induction false} ScanTypedEncoded(fs: seq<Field>, sid: Schema)
    requires AllTyped(fs, sid) && forall i :: 0 <= i < |fs| ==> Encodable(fs[i])
    ensures ScanTyped(EncodeFields(fs), sid) == Fine(fs)
  {
    hide TakeTyped, EncodeField, FieldTyped, Encodable;
    if |fs| > 0 {
      TakeTypedEncoded(fs[0], EncodeFields(fs[1..]), sid);
      ScanTypedEncoded(fs[1..], sid);
      assert [fs[0]] + fs[1..] == fs;
    }
  }

  /** The encoding of one field is no longer than that of the message. */
  lemma {:induction false} FieldWithin(fs: seq<Field>, i: nat)
    requires i < |fs|
    ensures |EncodeField(fs[i])| <= |EncodeFields(fs)|
  {
    hide EncodeField;
    if i > 0 { FieldWithin(fs[1..], i - 1); }
  }

  lemma PayloadWithin(fs: seq<Field>, i: nat)
    requires i < |fs| && fs[i].LenF?
    ensures |fs[i].payload| < |EncodeFields(fs)|
  {
    hide EncodeFields;
    FieldWithin(fs, i);
  }

  lemma {:induction false} NodeSmall(nodes: seq<Node>, i: nat, sid: Schema)
    requires TreeTyped(nodes, sid) && i < |nodes|
    ensures Fields(nodes)[i] == NodeField(nodes[i]) && NodeTyped(nodes[i], sid)
    decreases |nodes|
  {
    hide NodeField, NodeTyped;
    if i < |nodes| - 1 { NodeSmall(nodes[..|nodes| - 1], i, sid); }
  }

  lemma TreeEncodable(nodes: seq<Node>, sid: Schema)
    requires TreeTyped(nodes, sid) && |TreeBytes(nodes)| < U64_LIMIT
    ensures forall i :: 0 <= i < |nodes| ==> Encodable(Fields(nodes)[i])
  {
    hide Lookup, TreeTyped, Fields, EncodeFields;
    forall i | 0 <= i < |nodes| ensures Encodable(Fields(nodes)[i]) {
      NodeSmall(nodes, i, sid);
      SmallNumbers(sid, NodeNum(nodes[i]));
      if Fields(nodes)[i].LenF? { PayloadWithin(Fields(nodes), i); }
    }
  }

  /** One value: the walker on its bytes prints what the printer prints from the tree. */
  lemma {:induction false} NodeCommutes(n: Node, sid: Schema, bound: nat, fl: FloatText)
    requires NodeTyped(n, sid) && bound <= U64_LIMIT
    requires NodeField(n).LenF? ==> |NodeField(n).payload| < bound
    ensures FieldTyped(NodeField(n), sid) && ValueJson(NodeField(n), sid, bound, fl) == Fine(PrintNode(n, sid, fl))
    decreases n, 4
  {
    hide Lookup, MsgJson, LeafJson, TreeBytes;
    NodeFieldTyped(n, sid);
    if n.Sub? {
      Commutes(n.nodes, Lookup(sid, n.num).value.kind.sub, fl);
    }
  }

  lemma {:induction false} ValuesCommute(nodes: seq<Node>, num: nat, sid: Schema, bound: nat, fl: FloatText)
    requires TreeTyped(nodes, sid) && AllShort(Fields(nodes), bound) && bound <= U64_LIMIT
    ensures AllTyped(Select(Fields(nodes), num), sid) && AllShort(Select(Fields(nodes), num), bound)
    ensures ValuesJson(Select(Fields(nodes), num), sid, bound, fl) == Fine(PrintValues(nodes, num, sid, fl))
    ensures var sel := Select(Fields(nodes), num);
      |sel| > 0 ==> ValueJson(sel[|sel| - 1], sid, bound, fl) == Fine(LastOr(PrintValues(nodes, num, sid, fl), []))
    decreases nodes, 0
  {
    hide ValueJson, ValuesJson, PrintNode, NodeTyped, NodeField, FieldTyped, Select, AllShort;
    if |nodes| == 0 {
      NothingSelected(num, sid, bound, fl);
    } else {
      var init, last := nodes[..|nodes| - 1], nodes[|nodes| - 1];
      var f := NodeField(last);
      ShortInit(Fields(init), f, bound);
      ValuesCommute(init, num, sid, bound, fl);
      SelectSnoc(Fields(init), f, num);
      if f.num == num {
        NodeCommutes(last, sid, bound, fl);
        ValuesSnoc(Select(Fields(init), num), f, sid, bound, fl);
      } else {
        assert Select(Fields(init), num) + [] == Select(Fields(init), num);
        assert PrintValues(init, num, sid, fl) + [] == PrintValues(init, num, sid, fl);
      }
    }
  }

  lemma NothingSelected(num: nat, sid: Schema, bound: nat, fl: FloatText)
    ensures Select([], num) == [] && AllTyped([], sid) && AllShort([], bound)
    ensures ValuesJson([], sid, bound, fl) == Fine([])
  {
  }

  lemma ShortInit(init: seq<Field>, f: Field, bound: nat)
    requires AllShort(init + [f], bound)
    ensures AllShort(init, bound) && (f.LenF? ==> |f.payload| < bound)
  {
    forall i | 0 <= i < |init| ensures (init + [f])[i] == init[i] {}
    assert (init + [f])[|init|] == f;
  }

  lemma ValuesSnoc(vals: seq<Field>, f: Field, sid: Schema, bound: nat, fl: FloatText)
    requires AllTyped(vals, sid) && AllShort(vals, bound) && FieldTyped(f, sid) && (f.LenF? ==> |f.payload| < bound)
    requires ValuesJson(vals, sid, bound, fl).Fine? && ValueJson(f, sid, bound, fl).Fine?
    ensures AllTyped(vals + [f], sid) && AllShort(vals + [f], bound)
    ensures ValuesJson(vals + [f], sid, bound, fl)
        == Fine(ValuesJson(vals, sid, bound, fl).value + [ValueJson(f, sid, bound, fl).value])
  {
    hide ValueJson, ValuesJson, FieldTyped;
    var all := vals + [f];
    assert all[..|vals|] == vals && all[..|vals| + 1] == all;
    ValuesSplit(all, |vals|, sid, bound, fl);
  }

  lemma {:induction false} MembersCommute(nodes: seq<Node>, order: seq<nat>, sid: Schema, bound: nat, fl: FloatText)
    requires TreeTyped(nodes, sid) && AllTyped(Fields(nodes), sid) && AllShort(Fields(nodes), bound)
        && bound <= U64_LIMIT
    requires forall n :: n in order ==> |Select(Fields(nodes), n)| > 0
    ensures EntriesJson(Fields(nodes), order, sid, bound, fl) == Fine(PrintMembers(nodes, order, sid, fl))
    decreases nodes, 1, |order|
  {
    hide AllTyped, AllShort, Select, ValueJson, ValuesJson, PrintValues, Lookup, Bracketed, Fields, TreeTyped;
    if |order| > 0 {
      ValuesCommute(nodes, order[0], sid, bound, fl);
      MemberKnown(nodes, order[0], sid, bound);
      MembersCommute(nodes, order[1..], sid, bound, fl);
    }
  }

  lemma MemberKnown(nodes: seq<Node>, num: nat, sid: Schema, bound: nat)
    requires AllTyped(Fields(nodes), sid) && AllShort(Fields(nodes), bound) && |Select(Fields(nodes), num)| > 0
    ensures Lookup(sid, num).Some?
  {
  }

  /**
    Transcoding commutes: for every tree that follows its schema, with fields in any order, repeated
    fields interleaved and scalars repeated, the walker on the tree's bytes takes no error branch and
    prints exactly what the printer prints from the tree.
  */
  lemma {:induction false} Commutes(nodes: seq<Node>, sid: Schema, fl: FloatText)
    requires TreeTyped(nodes, sid) && |TreeBytes(nodes)| < U64_LIMIT
    ensures MsgJson(TreeBytes(nodes), sid, fl) == Fine(Print(nodes, sid, fl))
    decreases nodes, 3
  {
    hide AllTyped, AllShort, Order, NodeOrder, Select, EntriesJson, PrintMembers, Fields, EncodeFields, ScanTyped,
        TreeTyped, Encodable;
    var fs := Fields(nodes);
    TypedFields(nodes, sid);
    TreeEncodable(nodes, sid);
    ScanTypedEncoded(fs, sid);
    SameOrder(nodes);
    OrderSelected(fs);
    MembersCommute(nodes, NodeOrder(nodes), sid, |TreeBytes(nodes)|, fl);
  }
}
