/**
  A whole export request as OTLP/JSON: the trees behind the bytes of the encoder and of the
  envelope, their text written out member by member, and the end-to-end theorem.
*/
module RequestJson {
  import opened Wire
  import opened Envelope
  import opened Attributes
  import opened Encoder
  import opened Text
  import opened JsonString
  import opened Json
  import opened Transcoding

  // ---------------------------------------------------------------------------------------
  // Joining trees
  // ---------------------------------------------------------------------------------------

  lemma {:induction false} FieldsConcat(a: seq<Node>, b: seq<Node>)
    ensures Fields(a + b) == Fields(a) + Fields(b)
    decreases |b|
  {
    hide NodeField;
    if |b| == 0 {
      assert a + b == a;
    } else {
      assert (a + b)[..|a + b| - 1] == a + b[..|b| - 1];
      FieldsConcat(a, b[..|b| - 1]);
    }
  }

  function GroupFields(gs: seq<Group>): seq<Field> {
    if |gs| == 0 then [] else Fields(gs[0].nodes) + GroupFields(gs[1..])
  }

  lemma {:induction false} UngroupCons(g: Group, gs: seq<Group>)
    ensures Ungroup([g] + gs) == g.nodes + Ungroup(gs)
    decreases |gs|
  {
    if |gs| == 0 {
      assert [g] + gs == [g];
      UngroupTwo(g, g);
    } else {
      assert ([g] + gs)[..|gs|] == [g] + gs[..|gs| - 1];
      UngroupCons(g, gs[..|gs| - 1]);
    }
  }

  lemma {:induction false} UngroupFields(gs: seq<Group>)
    ensures Fields(Ungroup(gs)) == GroupFields(gs)
  {
    hide Fields, Ungroup;
    if |gs| == 0 {
      UngroupNone();
    } else {
      assert [gs[0]] + gs[1..] == gs;
      UngroupCons(gs[0], gs[1..]);
      FieldsConcat(gs[0].nodes, Ungroup(gs[1..]));
      UngroupFields(gs[1..]);
    }
  }

  lemma UngroupNone()
    ensures Ungroup([]) == [] && Fields([]) == []
  {
  }

  /** An optional scalar field. */
  function Optional(c: bool, f: Field): Group {
    Group(f.num, if c then [Leaf(f)] else [])
  }

  lemma OptionalFields(c: bool, f: Field)
    ensures Fields(Optional(c, f).nodes) == if c then [f] else []
  {
  }

  lemma OptionalSlot(c: bool, f: Field, sid: Schema, fl: FloatText)
    requires NodeTyped(Leaf(f), sid) && !Lookup(sid, f.num).value.repeated
    ensures SlotOk(Optional(c, f), sid)
    ensures var spec := Lookup(sid, f.num).value;
      DescribesOne(Member(c, Named(spec.name, LeafJson(f, spec.kind, fl))), Optional(c, f), sid, fl)
  {
  }

  lemma MessageSlot(num: nat, nodes: seq<Node>, sid: Schema, sub: Schema, fl: FloatText)
    requires Lookup(sid, num).Some? && Lookup(sid, num).value.kind == JMsg(sub) && TreeTyped(nodes, sub)
    requires !Lookup(sid, num).value.repeated
    ensures SlotOk(Group(num, [Sub(num, nodes)]), sid)
    ensures DescribesOne(Member(true, Named(Lookup(sid, num).value.name, Print(nodes, sub, fl))),
                         Group(num, [Sub(num, nodes)]), sid, fl)
  {
  }

  /** Occurrences of a repeated field, possibly none. */
  lemma RepeatedSlot(num: nat, nodes: seq<Node>, sid: Schema, fl: FloatText)
    requires Lookup(sid, num).Some? && Lookup(sid, num).value.repeated && TreeTyped(nodes, sid)
    requires forall i :: 0 <= i < |nodes| ==> NodeNum(nodes[i]) == num
    ensures SlotOk(Group(num, nodes), sid)
    ensures DescribesOne(Member(|nodes| > 0, Named(Lookup(sid, num).value.name, Bracketed(Texts(nodes, sid, fl)))),
                         Group(num, nodes), sid, fl)
  {
    hide Lookup, TreeTyped, Named, Texts, NodeNum, Bracketed;
  }

  lemma AttributesSlot(num: nat, kvs: seq<KeyValue>, sid: Schema, fl: FloatText)
    requires Lookup(sid, num).Some? && Lookup(sid, num).value.kind == JMsg(KeyValueMsg)
        && Lookup(sid, num).value.repeated
    ensures SlotOk(Group(num, KvsNodes(num, kvs)), sid)
    ensures DescribesOne(Member(|kvs| > 0, Named(Lookup(sid, num).value.name, Bracketed(KvTexts(kvs, fl)))),
                         Group(num, KvsNodes(num, kvs)), sid, fl)
  {
    hide SlotOk, DescribesOne, Lookup, TreeTyped, Named, Texts, KvTexts, KvsNodes, NodeNum, Bracketed;
    KvsPrint(num, kvs, sid, fl);
    KvNums(num, kvs);
    RepeatedSlot(num, KvsNodes(num, kvs), sid, fl);
  }

  // ---------------------------------------------------------------------------------------
  // Log records
  // ---------------------------------------------------------------------------------------

  datatype Record = Record(ent: Entry, attrs: seq<KeyValue>, sink: Option<Trace>)

  function Traced(r: Record): bool {
    r.sink.Some? && r.sink.value.valid
  }

  function TraceOf(r: Record): Trace {
    if Traced(r) then r.sink.value else Trace(false, [], [], 0)
  }

  function HeadGroups(r: Record): seq<Group> {
    [Optional(r.ent.time != 0, Fixed64F(1, AsUint64(r.ent.time))),
     Optional(ClampSeverity(r.ent.severity) != 0, VarintF(2, ClampSeverity(r.ent.severity))),
     Optional(r.ent.level != [], LenF(3, r.ent.level)),
     Group(5, [Sub(5, ValueNodes(Str(r.ent.message)))]),
     Group(6, KvsNodes(6, r.attrs))]
  }

  function TailGroups(r: Record): seq<Group> {
    [Optional(Traced(r) && TraceOf(r).flags != 0, Fixed32F(8, TraceOf(r).flags)),
     Optional(Traced(r), LenF(9, TraceOf(r).traceId)),
     Optional(Traced(r), LenF(10, TraceOf(r).spanId)),
     Optional(r.ent.time != 0, Fixed64F(11, AsUint64(r.ent.time)))]
  }

  function RecordNodes(r: Record): seq<Node> {
    Ungroup(HeadGroups(r) + TailGroups(r))
  }

  /** The record, member by member: zero values and an invalid span context are left out. */
  function HeadMembers(r: Record, fl: FloatText): seq<Member> {
    [Member(r.ent.time != 0, Named("timeUnixNano", InQuotes(Decimal(AsUint64(r.ent.time))))),
     Member(ClampSeverity(r.ent.severity) != 0, Named("severityNumber", Decimal(ClampSeverity(r.ent.severity)))),
     Member(r.ent.level != [], Named("severityText", Quoted(r.ent.level))),
     Member(true, Named("body", Single("stringValue", Quoted(r.ent.message)))),
     Member(|r.attrs| > 0, Named("attributes", Bracketed(KvTexts(r.attrs, fl))))]
  }

  function TailMembers(r: Record, fl: FloatText): seq<Member> {
    [Member(Traced(r) && TraceOf(r).flags != 0, Named("flags", Decimal(TraceOf(r).flags))),
     Member(Traced(r), Named("traceId", InQuotes(Hex(TraceOf(r).traceId)))),
     Member(Traced(r), Named("spanId", InQuotes(Hex(TraceOf(r).spanId)))),
     Member(r.ent.time != 0, Named("observedTimeUnixNano", InQuotes(Decimal(AsUint64(r.ent.time)))))]
  }

  function RecordText(r: Record, fl: FloatText): bytes {
    Braced(Kept(HeadMembers(r, fl) + TailMembers(r, fl)))
  }

  lemma GroupFieldsFive(a: Group, b: Group, c: Group, d: Group, e: Group)
    ensures GroupFields([a, b, c, d, e])
         == Fields(a.nodes) + Fields(b.nodes) + Fields(c.nodes) + Fields(d.nodes) + Fields(e.nodes)
  {
    hide Fields;
    GroupFieldsFour(b, c, d, e);
    assert [a, b, c, d, e][1..] == [b, c, d, e];
    AssocFive(Fields(a.nodes), Fields(b.nodes), Fields(c.nodes), Fields(d.nodes), Fields(e.nodes));
  }

  lemma AssocFive(a: seq<Field>, b: seq<Field>, c: seq<Field>, d: seq<Field>, e: seq<Field>)
    ensures a + (b + c + d + e) == a + b + c + d + e
  {
  }

  lemma GroupFieldsFour(a: Group, b: Group, c: Group, d: Group)
    ensures GroupFields([a, b, c, d]) == Fields(a.nodes) + Fields(b.nodes) + Fields(c.nodes) + Fields(d.nodes)
  {
    hide Fields, GroupFields;
    assert [a, b, c, d] == [a, b] + [c, d];
    GroupFieldsConcat([a, b], [c, d]);
    GroupFieldsTwo(a, b);
    GroupFieldsTwo(c, d);
  }

  lemma GroupFieldsTwo(a: Group, b: Group)
    ensures GroupFields([a, b]) == Fields(a.nodes) + Fields(b.nodes)
  {
    hide Fields;
    assert [a, b][1..] == [b] && [b][1..] == [];
    assert GroupFields([b]) == Fields(b.nodes) + GroupFields([]);
  }

  lemma {:induction false} KvsFields(kvs: seq<KeyValue>)
    ensures Fields(KvsNodes(6, kvs)) == AttributeFields(kvs)
    decreases |kvs|
  {
    hide KvNodes, KvBytes, TreeBytes;
    if |kvs| == 0 {
      assert AttributeFields(kvs) == [];
    } else {
      var init, last := kvs[..|kvs| - 1], kvs[|kvs| - 1];
      KvsFields(init);
      KvTreeBytes(last);
      assert AttributeFields(kvs) == AttributeFields(init) + [LenF(6, KvBytes(last))];
    }
  }

  lemma BodyFields(message: bytes)
    ensures Fields([Sub(5, ValueNodes(Str(message)))]) == [LenF(5, ValueBytes(Str(message)))]
  {
    hide Fields, TreeBytes, ValueBytes;
    ValueTreeBytes(Str(message));
    FieldsOne(Sub(5, ValueNodes(Str(message))));
  }

  lemma HeadGroupFields(r: Record)
    ensures GroupFields(HeadGroups(r)) == HeadFields(r.ent) + AttributeFields(r.attrs)
  {
    hide Fields, GroupFields, ValueBytes, ValueNodes, AttributeFields, KvsNodes;
    var gs := HeadGroups(r);
    GroupFieldsFive(gs[0], gs[1], gs[2], gs[3], gs[4]);
    OptionalFields(r.ent.time != 0, Fixed64F(1, AsUint64(r.ent.time)));
    OptionalFields(ClampSeverity(r.ent.severity) != 0, VarintF(2, ClampSeverity(r.ent.severity)));
    OptionalFields(r.ent.level != [], LenF(3, r.ent.level));
    BodyFields(r.ent.message);
    KvsFields(r.attrs);
    assert gs == [gs[0], gs[1], gs[2], gs[3], gs[4]];
  }

  lemma TailGroupFields(r: Record)
    ensures GroupFields(TailGroups(r)) == TailFields(r.ent, r.sink)
  {
    hide Fields, GroupFields;
    var gs := TailGroups(r);
    GroupFieldsFour(gs[0], gs[1], gs[2], gs[3]);
    OptionalFields(Traced(r) && TraceOf(r).flags != 0, Fixed32F(8, TraceOf(r).flags));
    OptionalFields(Traced(r), LenF(9, TraceOf(r).traceId));
    OptionalFields(Traced(r), LenF(10, TraceOf(r).spanId));
    OptionalFields(r.ent.time != 0, Fixed64F(11, AsUint64(r.ent.time)));
    assert gs == [gs[0], gs[1], gs[2], gs[3]];
  }

  lemma {:induction false} GroupFieldsConcat(a: seq<Group>, b: seq<Group>)
    ensures GroupFields(a + b) == GroupFields(a) + GroupFields(b)
  {
    hide Fields;
    if |a| == 0 {
      assert a + b == b;
    } else {
      assert (a + b)[1..] == a[1..] + b;
      GroupFieldsConcat(a[1..], b);
    }
  }

  /** The tree of a record has the bytes `EncodeEntry` writes. */
  lemma RecordTreeBytes(r: Record)
    ensures TreeBytes(RecordNodes(r)) == EncodeFields(RecordFieldsOf(r.ent, r.attrs, r.sink))
  {
    hide Fields, EncodeFields, HeadFields, TailFields, AttributeFields, GroupFields, HeadGroups, TailGroups, Ungroup;
    UngroupFields(HeadGroups(r) + TailGroups(r));
    GroupFieldsConcat(HeadGroups(r), TailGroups(r));
    HeadGroupFields(r);
    TailGroupFields(r);
  }

  /** A group and the member it should print as. */
  ghost predicate Slotted(m: Member, g: Group, sid: Schema, fl: FloatText) {
    SlotOk(g, sid) && DescribesOne(m, g, sid, fl)
  }

  lemma StampSlot(num: nat, t: int64, fl: FloatText)
    requires num == 1 || num == 11
    ensures Slotted(Member(t != 0,
        Named(if num == 1 then "timeUnixNano" else "observedTimeUnixNano", InQuotes(Decimal(AsUint64(t))))),
                    Optional(t != 0, Fixed64F(num, AsUint64(t))), LogRecord, fl)
  {
    hide SlotOk, DescribesOne, Named, Decimal;
    OptionalSlot(t != 0, Fixed64F(num, AsUint64(t)), LogRecord, fl);
  }

  lemma SeveritySlots(r: Record, fl: FloatText)
    ensures Slotted(HeadMembers(r, fl)[1], HeadGroups(r)[1], LogRecord, fl)
    ensures Slotted(HeadMembers(r, fl)[2], HeadGroups(r)[2], LogRecord, fl)
  {
    hide SlotOk, DescribesOne, Named, Decimal, Quoted, ValueNodes, KvsNodes, Bracketed, KvTexts, Single;
    OptionalSlot(ClampSeverity(r.ent.severity) != 0, VarintF(2, ClampSeverity(r.ent.severity)), LogRecord, fl);
    OptionalSlot(r.ent.level != [], LenF(3, r.ent.level), LogRecord, fl);
  }

  lemma ContentSlots(r: Record, fl: FloatText)
    ensures Slotted(HeadMembers(r, fl)[3], HeadGroups(r)[3], LogRecord, fl)
    ensures Slotted(HeadMembers(r, fl)[4], HeadGroups(r)[4], LogRecord, fl)
  {
    hide SlotOk, DescribesOne, ValueNodes, KvsNodes, TreeTyped, Print, Named, Decimal, Quoted, Bracketed;
    hide KvTexts, Single;
    ValuePrint(Str(r.ent.message), fl);
    MessageSlot(5, ValueNodes(Str(r.ent.message)), LogRecord, AnyValue, fl);
    AttributesSlot(6, r.attrs, LogRecord, fl);
  }

  lemma HeadSlots(r: Record, fl: FloatText)
    ensures Slots(HeadGroups(r), LogRecord) && Describes(HeadMembers(r, fl), HeadGroups(r), LogRecord, fl)
  {
    hide SlotOk, DescribesOne, ValueNodes, KvsNodes, Named, Decimal, Quoted, Bracketed, KvTexts, Single;
    StampSlot(1, r.ent.time, fl);
    SeveritySlots(r, fl);
    ContentSlots(r, fl);
  }

  lemma TraceSlots(r: Record, fl: FloatText)
    ensures Slotted(TailMembers(r, fl)[0], TailGroups(r)[0], LogRecord, fl)
    ensures Slotted(TailMembers(r, fl)[1], TailGroups(r)[1], LogRecord, fl)
    ensures Slotted(TailMembers(r, fl)[2], TailGroups(r)[2], LogRecord, fl)
  {
    hide SlotOk, DescribesOne, Named, Decimal, Hex;
    OptionalSlot(Traced(r) && TraceOf(r).flags != 0, Fixed32F(8, TraceOf(r).flags), LogRecord, fl);
    OptionalSlot(Traced(r), LenF(9, TraceOf(r).traceId), LogRecord, fl);
    OptionalSlot(Traced(r), LenF(10, TraceOf(r).spanId), LogRecord, fl);
  }

  lemma TailSlots(r: Record, fl: FloatText)
    ensures Slots(TailGroups(r), LogRecord) && Describes(TailMembers(r, fl), TailGroups(r), LogRecord, fl)
  {
    hide SlotOk, DescribesOne, Named, Decimal, Hex;
    TraceSlots(r, fl);
    StampSlot(11, r.ent.time, fl);
  }

  lemma SlotsConcat(a: seq<Group>, b: seq<Group>, ma: seq<Member>, mb: seq<Member>, sid: Schema, fl: FloatText)
    requires Slots(a, sid) && Slots(b, sid) && Describes(ma, a, sid, fl) && Describes(mb, b, sid, fl)
    requires forall i, j :: 0 <= i < |a| && 0 <= j < |b| ==> a[i].num < b[j].num
    ensures Slots(a + b, sid) && Describes(ma + mb, a + b, sid, fl)
  {
  }

  lemma RecordPrint(r: Record, fl: FloatText)
    ensures TreeTyped(RecordNodes(r), LogRecord) && Print(RecordNodes(r), LogRecord, fl) == RecordText(r, fl)
  {
    hide Slots, Describes, TreeTyped, Print, Braced, Kept, Ungroup, HeadMembers, TailMembers;
    HeadSlots(r, fl);
    TailSlots(r, fl);
    RecordNumbers(r);
    SlotsConcat(HeadGroups(r), TailGroups(r), HeadMembers(r, fl), TailMembers(r, fl), LogRecord, fl);
    SlotsPrint(HeadGroups(r) + TailGroups(r), HeadMembers(r, fl) + TailMembers(r, fl), LogRecord, fl);
  }

  lemma RecordNumbers(r: Record)
    ensures forall i, j :: 0 <= i < |HeadGroups(r)| && 0 <= j < |TailGroups(r)| ==>
        HeadGroups(r)[i].num < TailGroups(r)[j].num
  {
    hide ValueNodes, KvsNodes;
  }

  /** One log record: the bytes `EncodeEntry` writes transcode to its text. */
  lemma RecordTranscodes(r: Record, fl: FloatText)
    requires |EncodeFields(RecordFieldsOf(r.ent, r.attrs, r.sink))| < U64_LIMIT
    ensures MsgJson(EncodeFields(RecordFieldsOf(r.ent, r.attrs, r.sink)), LogRecord, fl) == Fine(RecordText(r, fl))
  {
    hide EncodeFields, RecordFieldsOf, RecordNodes, TreeBytes, TreeTyped, Print, MsgJson, RecordText;
    RecordTreeBytes(r);
    RecordPrint(r, fl);
    Commutes(RecordNodes(r), LogRecord, fl);
  }

  // ---------------------------------------------------------------------------------------
  // The request
  // ---------------------------------------------------------------------------------------

  function ScopeGroups(o: Origin): seq<Group> {
    [Optional(o.scopeName != [], LenF(1, o.scopeName)), Optional(o.scopeVersion != [], LenF(2, o.scopeVersion))]
  }

  function EncodedRecord(r: Record): bytes {
    EncodeFields(RecordFieldsOf(r.ent, r.attrs, r.sink))
  }

  function EncodedRecords(rs: seq<Record>): (r: seq<bytes>)
    ensures |r| == |rs| && forall i :: 0 <= i < |rs| ==> r[i] == EncodedRecord(rs[i])
  {
    seq(|rs|, i requires 0 <= i < |rs| => EncodedRecord(rs[i]))
  }

  function RecordList(rs: seq<Record>): (r: seq<Node>)
    ensures |r| == |rs|
  {
    if |rs| == 0 then [] else RecordList(rs[..|rs| - 1]) + [Sub(2, RecordNodes(rs[|rs| - 1]))]
  }

  function RecordTexts(rs: seq<Record>, fl: FloatText): (r: seq<bytes>)
    ensures |r| == |rs|
  {
    if |rs| == 0 then [] else RecordTexts(rs[..|rs| - 1], fl) + [RecordText(rs[|rs| - 1], fl)]
  }

  function HasScope(o: Origin): bool {
    o.scopeName != [] || o.scopeVersion != []
  }

  function ScopeLogsGroups(o: Origin, rs: seq<Record>): seq<Group> {
    [Group(1, if HasScope(o) then [Sub(1, Ungroup(ScopeGroups(o)))] else []), Group(2, RecordList(rs))]
  }

  function ResourceLogsGroups(o: Origin, rs: seq<Record>): seq<Group> {
    [Group(1, [Sub(1, KvsNodes(1, o.resource))]), Group(2, [Sub(2, Ungroup(ScopeLogsGroups(o, rs)))])]
  }

  function RequestNodes(o: Origin, rs: seq<Record>): seq<Node> {
    [Sub(1, Ungroup(ResourceLogsGroups(o, rs)))]
  }

  // The text.

  function ScopeText(o: Origin): bytes {
    Braced(Kept([Member(o.scopeName != [], Named("name", Quoted(o.scopeName))),
                 Member(o.scopeVersion != [], Named("version", Quoted(o.scopeVersion)))]))
  }

  function ScopeLogsText(o: Origin, rs: seq<Record>, fl: FloatText): bytes {
    Braced(Kept([Member(HasScope(o), Named("scope", ScopeText(o))),
                 Member(|rs| > 0, Named("logRecords", Bracketed(RecordTexts(rs, fl))))]))
  }

  function ResourceText(o: Origin, fl: FloatText): bytes {
    if |o.resource| == 0 then Braced([]) else Single("attributes", Bracketed(KvTexts(o.resource, fl)))
  }

  function ResourceLogsText(o: Origin, rs: seq<Record>, fl: FloatText): bytes {
    Braced([Named("resource", ResourceText(o, fl)), Named("scopeLogs", Bracketed([ScopeLogsText(o, rs, fl)]))])
  }

  function RequestText(o: Origin, rs: seq<Record>, fl: FloatText): bytes {
    Single("resourceLogs", Bracketed([ResourceLogsText(o, rs, fl)]))
  }

  // The bytes.

  lemma TwoGroups(a: Group, b: Group)
    ensures Ungroup([a, b]) == a.nodes + b.nodes
    ensures Fields(Ungroup([a, b])) == Fields(a.nodes) + Fields(b.nodes)
  {
    hide Fields;
    UngroupTwo(a, b);
    FieldsConcat(a.nodes, b.nodes);
  }

  lemma OptionalBytes(c: bool, num: nat, p: bytes)
    requires 8 * num + 2 < 0x80
    ensures EncodeFields(if c then [LenF(num, p)] else []) == if c then TaggedBytes(8 * num + 2, p) else []
  {
  }

  lemma ScopeTreeBytes(o: Origin)
    ensures TreeBytes(Ungroup(ScopeGroups(o))) == EnvOf(o).scope
  {
    hide EncodeFields, EncodeField, Fields, TaggedBytes;
    var gs := ScopeGroups(o);
    TwoGroups(gs[0], gs[1]);
    OptionalFields(o.scopeName != [], LenF(1, o.scopeName));
    OptionalFields(o.scopeVersion != [], LenF(2, o.scopeVersion));
    EncodeFieldsConcat(Fields(gs[0].nodes), Fields(gs[1].nodes));
    OptionalBytes(o.scopeName != [], 1, o.scopeName);
    OptionalBytes(o.scopeVersion != [], 2, o.scopeVersion);
  }

  lemma ScopeBlobEmpty(o: Origin)
    ensures |EnvOf(o).scope| == 0 <==> !HasScope(o)
  {
    hide Uvarint, KvsBytes;
  }

  lemma {:induction false} RecordListFields(rs: seq<Record>)
    ensures Fields(RecordList(rs)) == RecordFields(EncodedRecords(rs))
  {
    hide RecordNodes, TreeBytes, EncodeFields, RecordFieldsOf, RecordFields, EncodedRecords;
    if |rs| > 0 {
      var init, last := rs[..|rs| - 1], rs[|rs| - 1];
      RecordListFields(init);
      RecordTreeBytes(last);
      EncodedSnoc(rs);
    }
  }

  lemma EncodedSnoc(rs: seq<Record>)
    requires |rs| > 0
    ensures RecordFields(EncodedRecords(rs))
        == RecordFields(EncodedRecords(rs[..|rs| - 1])) + [LenF(2, EncodedRecord(rs[|rs| - 1]))]
  {
    hide EncodedRecord;
  }

  lemma ScopeLogsTreeBytes(o: Origin, rs: seq<Record>)
    ensures Fields(Ungroup(ScopeLogsGroups(o, rs))) == ScopeLogsFields(EnvOf(o), EncodedRecords(rs))
  {
    hide Fields, EncodeFields, RecordFields, EnvOf, TreeBytes, RecordList, Ungroup, EncodedRecords;
    var gs := ScopeLogsGroups(o, rs);
    TwoGroups(gs[0], gs[1]);
    RecordListFields(rs);
    ScopeBlobEmpty(o);
    ScopeTreeBytes(o);
    if HasScope(o) {
      FieldsOne(Sub(1, Ungroup(ScopeGroups(o))));
    } else {
      UngroupNone();
    }
  }

  lemma ResourceLogsTreeBytes(o: Origin, rs: seq<Record>)
    ensures Fields(Ungroup(ResourceLogsGroups(o, rs))) == ResourceLogsFields(EnvOf(o), EncodedRecords(rs))
  {
    hide Fields, EncodeFields, ScopeLogsFields, ScopeLogsGroups, Ungroup, EncodedRecords, KvsNodes, KvsBytes,
        TaggedBytes;
    var gs := ResourceLogsGroups(o, rs);
    TwoGroups(gs[0], gs[1]);
    KvsTreeBytes(1, o.resource);
    ScopeLogsTreeBytes(o, rs);
    FieldsOne(Sub(1, KvsNodes(1, o.resource)));
    FieldsOne(Sub(2, Ungroup(ScopeLogsGroups(o, rs))));
  }

  /** The tree of a request has the bytes `assemble` writes. */
  lemma RequestTreeBytes(o: Origin, rs: seq<Record>)
    ensures TreeBytes(RequestNodes(o, rs)) == RequestBytes(EnvOf(o), EncodedRecords(rs))
  {
    hide Fields, EncodeFields, EncodedRecords, EnvOf, Ungroup, ResourceLogsGroups, ResourceLogsFields;
    ResourceLogsTreeBytes(o, rs);
    FieldsOne(Sub(1, Ungroup(ResourceLogsGroups(o, rs))));
  }

  // The printed text.

  lemma ScopePrint(o: Origin, fl: FloatText)
    ensures TreeTyped(Ungroup(ScopeGroups(o)), Scope) && Print(Ungroup(ScopeGroups(o)), Scope, fl) == ScopeText(o)
  {
    hide SlotOk, DescribesOne, TreeTyped, Print, Kept, Named, Quoted, Ungroup, Braced;
    OptionalSlot(o.scopeName != [], LenF(1, o.scopeName), Scope, fl);
    OptionalSlot(o.scopeVersion != [], LenF(2, o.scopeVersion), Scope, fl);
    SlotsPrint(ScopeGroups(o), [Member(o.scopeName != [], Named("name", Quoted(o.scopeName))),
                                Member(o.scopeVersion != [], Named("version", Quoted(o.scopeVersion)))], Scope, fl);
  }

  lemma {:induction false} RecordListPrint(rs: seq<Record>, fl: FloatText)
    ensures TreeTyped(RecordList(rs), ScopeLogs) && Texts(RecordList(rs), ScopeLogs, fl) == RecordTexts(rs, fl)
    ensures forall i :: 0 <= i < |rs| ==> NodeNum(RecordList(rs)[i]) == 2
  {
    hide TreeTyped, Print, RecordNodes, RecordText, Texts;
    if |rs| == 0 {
      TypedNone(ScopeLogs);
      assert Texts([], ScopeLogs, fl) == [];
    } else {
      var init, last := rs[..|rs| - 1], rs[|rs| - 1];
      RecordListPrint(init, fl);
      RecordPrint(last, fl);
      SubPrint(2, RecordNodes(last), ScopeLogs, LogRecord, fl);
      TextsSnoc(RecordList(init), Sub(2, RecordNodes(last)), ScopeLogs, fl);
    }
  }

  lemma RecordsSlot(rs: seq<Record>, fl: FloatText)
    ensures SlotOk(Group(2, RecordList(rs)), ScopeLogs)
    ensures DescribesOne(Member(|rs| > 0, Named("logRecords", Bracketed(RecordTexts(rs, fl)))),
        Group(2, RecordList(rs)), ScopeLogs, fl)
  {
    hide SlotOk, DescribesOne, TreeTyped, Named, Texts, RecordTexts, RecordList, NodeNum, Bracketed;
    RecordListPrint(rs, fl);
    RepeatedSlot(2, RecordList(rs), ScopeLogs, fl);
  }

  lemma ScopeSlot(o: Origin, fl: FloatText)
    ensures var g := Group(1, if HasScope(o) then [Sub(1, Ungroup(ScopeGroups(o)))] else []);
      SlotOk(g, ScopeLogs) && DescribesOne(Member(HasScope(o), Named("scope", ScopeText(o))), g, ScopeLogs, fl)
  {
    hide TreeTyped, Named, Texts, ScopeText, Ungroup, Print;
    TypedNone(ScopeLogs);
    ScopePrint(o, fl);
    MessageSlot(1, Ungroup(ScopeGroups(o)), ScopeLogs, Scope, fl);
  }

  lemma ScopeLogsPrint(o: Origin, rs: seq<Record>, fl: FloatText)
    ensures TreeTyped(Ungroup(ScopeLogsGroups(o, rs)), ScopeLogs)
    ensures Print(Ungroup(ScopeLogsGroups(o, rs)), ScopeLogs, fl) == ScopeLogsText(o, rs, fl)
  {
    hide SlotOk, DescribesOne, TreeTyped, Print, Kept, Named, Ungroup, Braced, Bracketed, RecordList, RecordTexts,
        ScopeGroups, ScopeText;
    ScopeSlot(o, fl);
    RecordsSlot(rs, fl);
    SlotsPrint(ScopeLogsGroups(o, rs), [Member(HasScope(o), Named("scope", ScopeText(o))),
                                        Member(|rs| > 0, Named("logRecords", Bracketed(RecordTexts(rs, fl))))],
                                          ScopeLogs, fl);
  }

  lemma ResourcePrint(o: Origin, fl: FloatText)
    ensures TreeTyped(KvsNodes(1, o.resource), Resource)
    ensures Print(KvsNodes(1, o.resource), Resource, fl) == ResourceText(o, fl)
  {
    hide TreeTyped, Print, KvsNodes, KvTexts, Braced, Bracketed, Single, Texts;
    KvsPrint(1, o.resource, Resource, fl);
    KvNums(1, o.resource);
    PrintList(KvsNodes(1, o.resource), 1, Resource, fl);
  }

  /** One occurrence of a repeated message prints as a list of one. */
  lemma OneOfListSlot(num: nat, nodes: seq<Node>, sid: Schema, sub: Schema, fl: FloatText)
    requires Lookup(sid, num).Some? && Lookup(sid, num).value.kind == JMsg(sub) && TreeTyped(nodes, sub)
    requires Lookup(sid, num).value.repeated
    ensures SlotOk(Group(num, [Sub(num, nodes)]), sid)
    ensures DescribesOne(Member(true, Named(Lookup(sid, num).value.name, Bracketed([Print(nodes, sub, fl)]))),
                         Group(num, [Sub(num, nodes)]), sid, fl)
  {
  }

  lemma KeptTwo(a: bytes, b: bytes)
    ensures Kept([Member(true, a)]) == [a] && Kept([Member(true, a), Member(true, b)]) == [a, b]
  {
  }

  lemma ResourceLogsPrint(o: Origin, rs: seq<Record>, fl: FloatText)
    ensures TreeTyped(Ungroup(ResourceLogsGroups(o, rs)), ResourceLogs)
    ensures Print(Ungroup(ResourceLogsGroups(o, rs)), ResourceLogs, fl) == ResourceLogsText(o, rs, fl)
  {
    hide SlotOk, DescribesOne, TreeTyped, Print, Kept, Named, Ungroup, Braced, Bracketed, ScopeLogsGroups,
        ScopeLogsText, ResourceText, KvsNodes;
    ResourcePrint(o, fl);
    ScopeLogsPrint(o, rs, fl);
    MessageSlot(1, KvsNodes(1, o.resource), ResourceLogs, Resource, fl);
    OneOfListSlot(2, Ungroup(ScopeLogsGroups(o, rs)), ResourceLogs, ScopeLogs, fl);
    var a, b := Named("resource", ResourceText(o, fl)), Named("scopeLogs", Bracketed([ScopeLogsText(o, rs, fl)]));
    SlotsPrint(ResourceLogsGroups(o, rs), [Member(true, a), Member(true, b)], ResourceLogs, fl);
    KeptTwo(a, b);
  }

  lemma RequestPrint(o: Origin, rs: seq<Record>, fl: FloatText)
    ensures TreeTyped(RequestNodes(o, rs), ExportRequest)
    ensures Print(RequestNodes(o, rs), ExportRequest, fl) == RequestText(o, rs, fl)
  {
    hide SlotOk, DescribesOne, TreeTyped, Print, Kept, Named, Ungroup, Braced, Bracketed, ResourceLogsGroups,
        ResourceLogsText;
    ResourceLogsPrint(o, rs, fl);
    var inner := Ungroup(ResourceLogsGroups(o, rs));
    OneOfListSlot(1, inner, ExportRequest, ResourceLogs, fl);
    var g := Group(1, [Sub(1, inner)]);
    var a := Named("resourceLogs", Bracketed([ResourceLogsText(o, rs, fl)]));
    SlotsPrint([g], [Member(true, a)], ExportRequest, fl);
    UngroupTwo(g, g);
    KeptTwo(a, a);
  }

  /**
    Transcoding a request end to end: for every resource, scope and list of records, whatever their
    attributes, the walker on the assembled protobuf takes no error branch and gives the OTLP/JSON
    text of that request, with the records in order.
  */
  lemma RequestTranscodes(o: Origin, rs: seq<Record>, fl: FloatText)
    requires SizeFor(EnvOf(o), Tagged(EncodedRecords(rs))) < U64_LIMIT
    ensures MsgJson(RequestBytes(EnvOf(o), EncodedRecords(rs)), ExportRequest, fl) == Fine(RequestText(o, rs, fl))
  {
    hide EnvOf, EncodedRecords, RequestBytes, RequestNodes, TreeBytes, TreeTyped, Print, MsgJson, RequestText, SizeFor;
    SizeForExact(EnvOf(o), EncodedRecords(rs));
    RequestTreeBytes(o, rs);
    RequestPrint(o, rs, fl);
    Commutes(RequestNodes(o, rs), ExportRequest, fl);
  }
}
