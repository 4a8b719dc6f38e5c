/**
  `EncodeEntry` of the fluent encoder: one `[EventTime, map]` value, whatever the fields do.
*/
module FluentEntry {
  import opened Wire
  import opened MsgPack
  import opened Levels
  import opened FluentEncoder

  /** One zap field as `Field.AddTo` dispatches it; `Inline` runs its marshaler in place. */
  datatype ZapField =
    | Plain(key: bytes, v: Val)
    | HookedField(key: bytes, h: PairHook)
    | Namespace(key: bytes)
    | Object(key: bytes, id: Id)
    | ArrayField(key: bytes, id: Id)
    | Reflected(key: bytes, r: Try<Val>)
    | Inline(key: bytes, id: Id)

  type nanos = x: int | 0 <= x < 1_000_000_000

  datatype Caller = Caller(text: bytes, function_: bytes)
  datatype Entry = Entry(
    seconds: int,               // Unix seconds
    nsec: nanos,
    level: int,
    levelText: bytes,
    loggerName: bytes,
    caller: Option<Caller>,
    message: bytes,
    stackTrace: bytes)

  /** The encoder configuration; a hook writes at most one value, an empty key leaves the member out. */
  datatype Config = Config(
    levelKey: bytes, encodeLevel: Option<int -> Option<Val>>,
    nameKey: bytes, encodeName: Option<bytes -> Option<Val>>,
    callerKey: bytes, encodeCaller: Option<Caller -> Option<Val>>,
    functionKey: bytes, messageKey: bytes, stacktraceKey: bytes)

  // ---------------------------------------------------------------------------------------
  // What an entry should contain
  // ---------------------------------------------------------------------------------------

  function LevelPairs(cfg: Config, ent: Entry): seq<Pair> {
    if cfg.levelKey == [] || cfg.encodeLevel.None? then []
    else [Pair(cfg.levelKey, Chosen(Hooked(AsSeq(cfg.encodeLevel.value(ent.level)), Str(ent.levelText))))]
  }

  function NamePairs(cfg: Config, ent: Entry): seq<Pair> {
    if cfg.nameKey == [] || ent.loggerName == [] then []
    else
      var hook := if cfg.encodeName.Some? then cfg.encodeName.value(ent.loggerName) else Some(Str(ent.loggerName));
      [Pair(cfg.nameKey, Chosen(Hooked(AsSeq(hook), Str(ent.loggerName))))]
  }

  function CallerPairs(cfg: Config, ent: Entry): seq<Pair> {
    if ent.caller.None? then []
    else
      var c := ent.caller.value;
      var hook := if cfg.encodeCaller.Some? then cfg.encodeCaller.value(c) else None;
      (if cfg.callerKey == [] then [] else [Pair(cfg.callerKey, Chosen(Hooked(AsSeq(hook), Str(c.text))))])
      + (if cfg.functionKey == [] then [] else [Pair(cfg.functionKey, Str(c.function_))])
  }

  function TextPairs(cfg: Config, ent: Entry): seq<Pair> {
    (if cfg.messageKey == [] then [] else [Pair(cfg.messageKey, Str(ent.message))])
    + (if cfg.stacktraceKey == [] || ent.stackTrace == [] then [] else [Pair(cfg.stacktraceKey, Str(ent.stackTrace))])
  }

  function EnvelopePairs(cfg: Config, ent: Entry): seq<Pair> {
    LevelPairs(cfg, ent) + NamePairs(cfg, ent) + CallerPairs(cfg, ent) + TextPairs(cfg, ent)
  }

  function ErrorPairs(key: bytes, err: Option<bytes>): seq<Pair> {
    if err.Some? then [Pair(key + Ascii("Error"), Str(err.value))] else []
  }

  function Nestled(key: bytes, r: Outcome<Option<Val>>): seq<Level> {
    [Level([], (if r.result.Some? then [Pair(key, r.result.value)] else []) + ErrorPairs(key, r.err))]
  }

  /** What one field adds; a failing container or inline marshaler keeps what it wrote and adds its error. */
  function FieldDelta(m: Marshalers, f: ZapField, depth: nat): (r: seq<Level>)
    ensures |r| > 0
  {
    match f
    case Plain(k, v) => [Level([], [Pair(k, v)])]
    case HookedField(k, h) => [Level([], [Pair(k, Chosen(h))])]
    case Namespace(k) => [Level([], []), Level(k, [])]
    case Object(k, id) => Nestled(k, NestedObject(m, id, depth))
    case ArrayField(k, id) => Nestled(k, NestedArray(m, id, depth))
    case Reflected(k, r) => [Level([], if r.Done? then [Pair(k, r.value)] else ErrorPairs(k, Some(r.text)))]
    case Inline(k, id) =>
      var r := Delta(m, m.objects(id), depth);
      Join(r.result, [Level([], ErrorPairs(k, r.err))])
  }

  function FieldsDelta(m: Marshalers, fs: seq<ZapField>, depth: nat): (r: seq<Level>)
    ensures |r| > 0
    decreases |fs|
  {
    if |fs| == 0 then [Level([], [])]
    else
      var first := FieldDelta(m, fs[0], depth);
      Join(first, FieldsDelta(m, fs[1..], depth + |first| - 1))
  }

  /** The EventTime payload: 32-bit seconds, then nanoseconds. */
  function EventTime(ent: Entry): eight {
    BigEndian(ent.seconds % U32_LIMIT, 4) + BigEndian(ent.nsec, 4)
  }

  /** The record: envelope members, then the With and call-site fields with all namespaces closed. */
  function RecordPairs(cfg: Config, m: Marshalers, with: seq<Level>, ent: Entry, fs: seq<ZapField>): seq<Pair>
    requires |with| > 0
  {
    EnvelopePairs(cfg, ent) + Nest(Join(with, FieldsDelta(m, fs, |with|)))
  }

  function EntryValue(cfg: Config, m: Marshalers, with: seq<Level>, ent: Entry, fs: seq<ZapField>): Val
    requires |with| > 0
  {
    Arr([Ext8(0, EventTime(ent)), Map(RecordPairs(cfg, m, with, ent, fs))])
  }

  // ---------------------------------------------------------------------------------------
  // Joining levels on a stack
  // ---------------------------------------------------------------------------------------

  lemma {:induction false} PushJoin(layers: seq<Layer>, a: seq<Level>, b: seq<Level>)
    requires Settled(layers) && |a| > 0 && |b| > 0
    ensures Push(Push(layers, a), b) == Push(layers, Join(a, b))
    decreases |a|
  {
    hide Nested;
    if |a| == 1 {
      PushJoinOne(layers, a, b);
    } else {
      var mid := SetLast(layers, InMap(Last(layers).pairs + a[0].entries, Some(a[1].key))) + [InMap([], None)];
      PushJoin(mid, a[1..], b);
      assert Join(a, b)[1..] == Join(a[1..], b);
      assert Join(a, b)[1].key == a[1].key;
    }
  }

  lemma PushJoinOne(layers: seq<Layer>, a: seq<Level>, b: seq<Level>)
    requires Settled(layers) && |a| == 1 && |b| > 0
    ensures Push(Push(layers, a), b) == Push(layers, Join(a, b))
  {
    hide Nested;
    Assoc(Last(layers).pairs, a[0].entries, b[0].entries);
    assert Join(a, b)[1..] == b[1..];
    var one := SetLast(layers, InMap(Last(layers).pairs + a[0].entries, None));
    assert Push(layers, a) == one;
    if |b| > 1 {
      var l := InMap(Last(layers).pairs + a[0].entries + b[0].entries, Some(b[1].key));
      assert SetLast(one, l) == SetLast(layers, l);
    }
  }

  lemma PushPairs(layers: seq<Layer>, pairs: seq<Pair>)
    requires Settled(layers)
    ensures Push(layers, [Level([], pairs)]) == SetLast(layers, InMap(Last(layers).pairs + pairs, None))
  {
  }

  lemma PushNamespace(layers: seq<Layer>, key: bytes)
    requires Settled(layers)
    ensures Push(layers, [Level([], []), Level(key, [])]) == Opened(layers, key)
  {
    PushOpen(layers, key, [Level([], [])]);
    PushNothing(Opened(layers, key));
    assert Below<Pair>(key, [Level([], [])]) == [Level([], []), Level(key, [])];
  }

  // ---------------------------------------------------------------------------------------
  // Running fields
  // ---------------------------------------------------------------------------------------

  /** zap adds the error of a failed field as a string member. */
  method AddError(e: MsgEncoder, key: bytes, err: Option<bytes>)
    requires e.Valid() && Settled(e.layers)
    modifies e
    ensures e.Valid() && e.layers == Push(old(e.layers), [Level([], ErrorPairs(key, err))])
  {
    hide Shape;
    PushPairs(e.layers, ErrorPairs(key, err));
    if err.Some? {
      e.AddPair(key + Ascii("Error"), Str(err.value));
    } else {
      assert Last(e.layers).pairs + [] == Last(e.layers).pairs;
    }
  }

  method AddNested(e: MsgEncoder, m: Marshalers, key: bytes, id: Id, list: bool)
    requires e.Valid() && Settled(e.layers)
    modifies e
    ensures e.Valid()
    ensures e.layers == Push(old(e.layers),
        Nestled(key, if list then NestedArray(m, id, |old(e.layers)|) else NestedObject(m, id, |old(e.layers)|)))
  {
    hide Shape, NestedObject, NestedArray, Push;
    ghost var before := e.layers;
    ghost var r := if list then NestedArray(m, id, |e.layers|) else NestedObject(m, id, |e.layers|);
    var err;
    if list {
      err := e.AddArray(m, key, id);
    } else {
      err := e.AddObject(m, key, id);
    }
    ghost var put := if r.result.Some? then [Pair(key, r.result.value)] else [];
    PushPairs(before, put);
    assert Last(before).pairs + [] == Last(before).pairs;
    assert e.layers == Push(before, [Level([], put)]);
    AddError(e, key, err);
    PushJoin(before, [Level([], put)], [Level([], ErrorPairs(key, r.err))]);
    assert Join([Level([], put)], [Level([], ErrorPairs(key, r.err))]) == Nestled(key, r);
  }

  /** `Field.AddTo`. */
  method AddTo(e: MsgEncoder, m: Marshalers, f: ZapField)
    requires e.Valid() && Settled(e.layers)
    modifies e
    ensures e.Valid() && e.layers == Push(old(e.layers), FieldDelta(m, f, |old(e.layers)|))
  {
    hide Shape, NestedObject, NestedArray, Push, Nestled, Delta;
    ghost var before := e.layers;
    match f
    case Plain(k, v) =>
      e.AddPair(k, v);
      PushPairs(before, [Pair(k, v)]);
    case HookedField(k, h) =>
      e.AddKey(k);
      e.AppendHooked(h);
      AcceptOne(k, h, Last(before));
      PushPairs(before, [Pair(k, Chosen(h))]);
    case Namespace(k) =>
      e.OpenNamespace(k);
      PushNamespace(before, k);
    case Object(k, id) => AddNested(e, m, k, id, false);
    case ArrayField(k, id) => AddNested(e, m, k, id, true);
    case Reflected(k, r) =>
      if r.Done? {
        e.AddPair(k, r.value);
        PushPairs(before, [Pair(k, r.value)]);
      } else {
        AddError(e, k, Some(r.text));
      }
    case Inline(k, id) =>
      ghost var r := Delta(m, m.objects(id), |before|);
      var err := e.RunObject(m, m.objects(id));
      AddError(e, k, err);
      PushJoin(before, r.result, [Level([], ErrorPairs(k, r.err))]);
  }

  method AddAll(e: MsgEncoder, m: Marshalers, fs: seq<ZapField>)
    requires e.Valid() && Settled(e.layers)
    modifies e
    ensures e.Valid() && e.layers == Push(old(e.layers), FieldsDelta(m, fs, |old(e.layers)|))
    decreases |fs|
  {
    hide Shape, FieldDelta, Push, Join;
    ghost var before := e.layers;
    if |fs| == 0 {
      PushNothing(before);
    } else {
      ghost var first := FieldDelta(m, fs[0], |before|);
      AddTo(e, m, fs[0]);
      ghost var rest := FieldsDelta(m, fs[1..], |e.layers|);
      AddAll(e, m, fs[1..]);
      PushJoin(before, first, rest);
    }
  }

  // ---------------------------------------------------------------------------------------
  // The envelope
  // ---------------------------------------------------------------------------------------

  ghost predicate Holds(e: MsgEncoder, pairs: seq<Pair>)
    reads e
  {
    e.Valid() && e.layers == [InMap(pairs, None)]
  }

  /** A key, then a hook's value or the fallback. */
  method AddMember(e: MsgEncoder, key: bytes, h: PairHook, ghost pairs: seq<Pair>)
    requires Holds(e, pairs)
    modifies e
    ensures Holds(e, pairs + [Pair(key, Chosen(h))])
  {
    hide Shape, Chosen;
    e.AddKey(key);
    e.AppendHooked(h);
    AcceptOne(key, h, InMap(pairs, None));
  }

  /** `writeEnvelope`: a key is never left without a value. */
  method WriteEnvelope(e: MsgEncoder, cfg: Config, ent: Entry)
    requires Holds(e, [])
    modifies e
    ensures Holds(e, EnvelopePairs(cfg, ent))
  {
    hide Holds, Chosen;
    if cfg.levelKey != [] && cfg.encodeLevel.Some? {
      AddMember(e, cfg.levelKey, Hooked(AsSeq(cfg.encodeLevel.value(ent.level)), Str(ent.levelText)), []);
    }
    ghost var done := LevelPairs(cfg, ent);
    assert [] + done == done;
    if cfg.nameKey != [] && ent.loggerName != [] {
      var hook := if cfg.encodeName.Some? then cfg.encodeName.value(ent.loggerName) else Some(Str(ent.loggerName));
      AddMember(e, cfg.nameKey, Hooked(AsSeq(hook), Str(ent.loggerName)), done);
    }
    assert done + [] == done;
    done := done + NamePairs(cfg, ent);
    WriteCaller(e, cfg, ent, done);
    done := done + CallerPairs(cfg, ent);
    WriteTexts(e, cfg, ent, done);
  }

  method WriteCaller(e: MsgEncoder, cfg: Config, ent: Entry, ghost done: seq<Pair>)
    requires Holds(e, done)
    modifies e
    ensures Holds(e, done + CallerPairs(cfg, ent))
  {
    hide Holds, Chosen;
    assert done + [] == done;
    if ent.caller.Some? {
      var c := ent.caller.value;
      ghost var now := done;
      if cfg.callerKey != [] {
        var hook := if cfg.encodeCaller.None? then None else cfg.encodeCaller.value(c);
        AddMember(e, cfg.callerKey, Hooked(AsSeq(hook), Str(c.text)), done);
        now := done + [Pair(cfg.callerKey, Chosen(Hooked(AsSeq(hook), Str(c.text))))];
      }
      if cfg.functionKey != [] {
        AddText(e, cfg.functionKey, c.function_, now);
        now := now + [Pair(cfg.functionKey, Str(c.function_))];
      }
      assert now == done + CallerPairs(cfg, ent);
    }
  }

  method AddText(e: MsgEncoder, key: bytes, text: bytes, ghost pairs: seq<Pair>)
    requires Holds(e, pairs)
    modifies e
    ensures Holds(e, pairs + [Pair(key, Str(text))])
  {
    hide Shape;
    e.AddPair(key, Str(text));
  }

  method WriteTexts(e: MsgEncoder, cfg: Config, ent: Entry, ghost done: seq<Pair>)
    requires Holds(e, done)
    modifies e
    ensures Holds(e, done + TextPairs(cfg, ent))
  {
    hide Holds;
    ghost var now := done;
    if cfg.messageKey != [] {
      AddText(e, cfg.messageKey, ent.message, now);
      now := now + [Pair(cfg.messageKey, Str(ent.message))];
    }
    if cfg.stacktraceKey != [] && ent.stackTrace != [] {
      AddText(e, cfg.stacktraceKey, ent.stackTrace, now);
      now := now + [Pair(cfg.stacktraceKey, Str(ent.stackTrace))];
    }
    assert now == done + TextPairs(cfg, ent);
  }

  // ---------------------------------------------------------------------------------------
  // EncodeEntry
  // ---------------------------------------------------------------------------------------

  /** `appendMapHeaderTo`, branch by branch. */
  method AppendMapHeaderTo(buf: bytes, count: nat) returns (r: bytes)
    ensures r == buf + HeadBytes(HMap(Cast32(count)))
  {
    var c := count % 0x1_0000_0000;
    if c < 16 {
      r := buf + [0x80 + c];
    } else if c <= 0xffff {
      r := buf + [0xde] + BigEndian(c, 2);
    } else {
      r := buf + [0xdf] + BigEndian(c, 4);
    }
  }

  function Spread(with: seq<Level>): (r: seq<Layer>)
    requires |with| > 0
    ensures Settled(r) && Nested(r) && |r| == |with|
  {
    Push([InMap([], None)], with)
  }

  /** `cloneStack`: a deep copy. */
  method Clone(e: MsgEncoder) returns (c: MsgEncoder)
    requires e.Valid()
    ensures fresh(c) && c.Valid() && c.layers == e.layers
  {
    c := new MsgEncoder();
    c.stack, c.layers := e.stack, e.layers;
  }

  /** `core.With` on a fresh clone; the receiver is not changed. */
  method With(e: MsgEncoder, m: Marshalers, fs: seq<ZapField>, ghost with: seq<Level>) returns (c: MsgEncoder)
    requires e.Valid() && |with| > 0 && e.layers == Spread(with)
    ensures fresh(c) && c.Valid() && c.layers == Spread(Join(with, FieldsDelta(m, fs, |with|)))
  {
    hide Push, Join, FieldsDelta, Shape;
    c := Clone(e);
    AddAll(c, m, fs);
    PushJoin([InMap([], None)], with, FieldsDelta(m, fs, |with|));
  }

  /** Two map bodies under one header are one map; and the fixed bytes are the entry around it. */
  lemma Assembled(ts: eight, a: seq<Pair>, b: seq<Pair>)
    ensures [0x92, 0xd7, 0x00] + ts + HeadBytes(HMap(Cast32(|a| + |b|))) + EncPairs(a) + EncPairs(b)
         == Enc(Arr([Ext8(0, ts), Map(a + b)]))
  {
    hide EncPairs;
    EncPairsConcat(a, b);
    var record := Map(a + b);
    assert Enc(record) == HeadBytes(HMap(Cast32(|a| + |b|))) + (EncPairs(a) + EncPairs(b));
    EntryBytes(ts, record);
    assert [0x92, 0xd7, 0x00] + ts + HeadBytes(HMap(Cast32(|a| + |b|))) + EncPairs(a) + EncPairs(b)
        == [0x92, 0xd7, 0x00] + ts + Enc(record);
  }

  lemma EntryBytes(ts: eight, record: Val)
    ensures Enc(Arr([Ext8(0, ts), record])) == [0x92, 0xd7, 0x00] + ts + Enc(record)
  {
    hide Enc;
    var time := Ext8(0, ts);
    assert BigEndian(0, 1) == BigEndian(0, 0) + [0];
    assert HeadBytes(HExt8(0)) == [0xd7, 0x00];
    assert Enc(time) == [0xd7, 0x00] + ts by { TimeBytes(ts); }
    assert [time, record][1..] == [record] && [record][1..] == [];
    assert EncMany([record]) == Enc(record) + EncMany([]);
    assert EncMany([time, record]) == Enc(time) + EncMany([record]);
    assert Enc(Arr([time, record])) == [0x92] + EncMany([time, record]) by { PairBytes(time, record); }
  }

  lemma TimeBytes(ts: eight)
    ensures Enc(Ext8(0, ts)) == [0xd7, 0x00] + ts
  {
  }

  lemma PairBytes(a: Val, b: Val)
    ensures Enc(Arr([a, b])) == [0x92] + EncMany([a, b])
  {
    hide EncMany;
  }

  /**
    `EncodeEntry`: exactly the encoding of `[EventTime, record]`.  The receiver is only read.
  */
  method EncodeEntry(e: MsgEncoder, cfg: Config, m: Marshalers, ent: Entry, fs: seq<ZapField>, ghost with: seq<Level>)
      returns (buf: bytes)
    requires e.Valid() && |with| > 0 && e.layers == Spread(with)
    ensures buf == Enc(EntryValue(cfg, m, with, ent, fs))
  {
    hide Push, Join, FieldsDelta, EnvelopePairs, Enc, HeadBytes, BigEndian, EncPairs;
    var env := new MsgEncoder();
    WriteEnvelope(env, cfg, ent);
    var final := With(e, m, fs, with);
    ghost var levels := Join(with, FieldsDelta(m, fs, |with|));
    SealPushed([InMap([], None)], levels);
    final.SealDownTo(1);
    ghost var fields := Nest(levels);
    assert [] + fields == fields;
    assert final.layers == [InMap(fields, None)];
    ghost var envelope := EnvelopePairs(cfg, ent);
    RootFrame(env, envelope);
    RootFrame(final, fields);
    var ts := BigEndian(ent.seconds % U32_LIMIT, 4) + BigEndian(ent.nsec, 4);
    buf := [0x92, 0xd7, 0x00] + ts;
    buf := AppendMapHeaderTo(buf, env.stack[0].count + final.stack[0].count);
    buf := buf + env.stack[0].buf;
    buf := buf + final.stack[0].buf;
    Assembled(ts, envelope, fields);
  }

  lemma RootFrame(e: MsgEncoder, pairs: seq<Pair>)
    requires Holds(e, pairs)
    ensures |e.stack| == 1 && e.stack[0] == Frame(KMap, EncPairs(pairs), |pairs|)
  {
  }

  /**
    What a receiver gets of an entry, whatever its marshalers did: one array of an EventTime and the
    record map with nothing left over, if and only if every length and count fits 32 bits; which they
    do in every entry shorter than 4 GiB.
  */
  lemma EntryWellFormed(cfg: Config, m: Marshalers, with: seq<Level>, ent: Entry, fs: seq<ZapField>, rest: bytes)
    requires |with| > 0
    ensures var v := EntryValue(cfg, m, with, ent, fs);
      && (Decode(Enc(v) + rest) == Some((v, rest)) <==> Small(v))
      && (|Enc(v)| < U32_LIMIT ==> Small(v) && OneValue(Enc(v)))
  {
    hide Enc, Decode, Small, EntryValue;
    var v := EntryValue(cfg, m, with, ent, fs);
    RoundTripExact(v, rest);
    if |Enc(v)| < U32_LIMIT { ShortIsSmall(v); }
  }

  /**
    Where members land.  The record is the envelope followed by the root level and the namespaces
    nested in each other; the call-site fields follow the With fields of the innermost level that
    With left open, which is the root if it opened none, and every level above it is as With left it.
  */
  lemma Placement(cfg: Config, m: Marshalers, with: seq<Level>, ent: Entry, fs: seq<ZapField>)
    requires |with| > 0
    ensures
      var call := FieldsDelta(m, fs, |with|);
      var levels := Join(with, call);
      var n := |with| - 1;
      && RecordPairs(cfg, m, with, ent, fs) == EnvelopePairs(cfg, ent) + Nest(levels)
      && levels[..n] == with[..n]
      && levels[n] == with[n].(entries := with[n].entries + call[0].entries)
      && levels[|with|..] == call[1..]
      && forall i :: 0 <= i < |levels| ==> NestedAt(levels, i)
  {
    hide EnvelopePairs, FieldsDelta, Nest, Join, NestedAt;
    var call := FieldsDelta(m, fs, |with|);
    JoinParts(with, call);
    forall i | 0 <= i < |Join(with, call)| ensures NestedAt(Join(with, call), i) { NestAt(Join(with, call), i); }
  }

  /** Level `i` closed: its pairs, then the next level as a map under its key. */
  predicate NestedAt(levels: seq<Level>, i: nat)
    requires i < |levels|
  {
    Nest(levels[i..]) == levels[i].entries
      + if i == |levels| - 1 then [] else [Pair(levels[i + 1].key, Map(Nest(levels[i + 1..])))]
  }

  lemma NestAt(levels: seq<Level>, i: nat)
    requires i < |levels|
    ensures NestedAt(levels, i)
  {
    assert levels[i..][1..] == levels[i + 1..];
    assert levels[i].entries + [] == levels[i].entries;
  }

  /** The seconds a receiver reads are the entry's exactly for times from 1970 to 2106. */
  lemma EventTimeRoundTrip(ent: Entry)
    ensures BigValue(EventTime(ent)[4..]) == ent.nsec
    ensures BigValue(EventTime(ent)[..4]) == ent.seconds <==> 0 <= ent.seconds < U32_LIMIT
  {
    hide BigEndian, BigValue, Pow256;
    Pow256Widths();
    assert EventTime(ent)[..4] == BigEndian(ent.seconds % U32_LIMIT, 4);
    assert EventTime(ent)[4..] == BigEndian(ent.nsec, 4);
    BigRoundTrip(ent.seconds % U32_LIMIT, 4);
    BigRoundTrip(ent.nsec, 4);
  }
}
