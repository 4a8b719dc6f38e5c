/**
  The ExportLogsServiceRequest around a batch of records, after otlp/envelope.go: its exact
  size arithmetic and its assembly.
*/
module Envelope {
  import opened Wire

  /** The immutable per-writer parts; an empty scope blob means the scope field is left out. */
  datatype Env = Env(resource: bytes, scope: bytes)

  /** Tagged size of one length-delimited field with a single-byte tag. */
  function TaggedLen(n: nat): nat {
    1 + UvarintLen(n) + n
  }

  function RecordCost(recLen: nat): nat {
    TaggedLen(recLen)
  }

  function ScopePartLen(e: Env): nat {
    if |e.scope| == 0 then 0 else TaggedLen(|e.scope|)
  }

  function SizeFor(e: Env, tagged: nat): nat {
    var scopeLogs := ScopePartLen(e) + tagged;
    var resourceLogs := TaggedLen(|e.resource|) + TaggedLen(scopeLogs);
    TaggedLen(resourceLogs)
  }

  /** Sum of the record costs of a batch. */
  function Tagged(records: seq<bytes>): nat {
    if |records| == 0 then 0 else Tagged(records[..|records| - 1]) + RecordCost(|records[|records| - 1]|)
  }

  // ---------------------------------------------------------------------------------------
  // The message the bytes stand for
  // ---------------------------------------------------------------------------------------

  function RecordFields(records: seq<bytes>): (r: seq<Field>)
    ensures |r| == |records|
    ensures forall i :: 0 <= i < |r| ==> r[i] == LenF(2, records[i])
  {
    seq(|records|, i requires 0 <= i < |records| => LenF(2, records[i]))
  }

  function ScopeLogsFields(e: Env, records: seq<bytes>): seq<Field> {
    (if |e.scope| == 0 then [] else [LenF(1, e.scope)]) + RecordFields(records)
  }

  function ResourceLogsFields(e: Env, records: seq<bytes>): seq<Field> {
    [LenF(1, e.resource), LenF(2, EncodeFields(ScopeLogsFields(e, records)))]
  }

  function RequestFields(e: Env, records: seq<bytes>): seq<Field> {
    [LenF(1, EncodeFields(ResourceLogsFields(e, records)))]
  }

  /** The protobuf encoding of the request, defined from the schema alone. */
  function RequestBytes(e: Env, records: seq<bytes>): bytes {
    EncodeFields(RequestFields(e, records))
  }

  // ---------------------------------------------------------------------------------------
  // Lengths
  // ---------------------------------------------------------------------------------------

  lemma TaggedLenExact(tag: byte, p: bytes)
    ensures |TaggedBytes(tag, p)| == TaggedLen(|p|)
  {
    hide Uvarint, UvarintLen;
    UvarintLenExact(|p|);
  }

  /** A length-delimited field whose number fits one tag byte is `appendTaggedBytes` of that byte. */
  lemma LenFieldBytes(num: nat, p: bytes)
    requires 8 * num + 2 < 0x80
    ensures EncodeField(LenF(num, p)) == TaggedBytes(8 * num + 2, p)
    ensures |EncodeField(LenF(num, p))| == TaggedLen(|p|)
  {
    hide Uvarint, TaggedLen;
    TaggedLenExact(8 * num + 2, p);
    ShortUvarint(8 * num + 2);
    Assoc(Uvarint(8 * num + 2), Uvarint(|p|), p);
  }

  lemma EncodeOne(f: Field)
    ensures EncodeFields([f]) == EncodeField(f)
  {
  }

  lemma EncodeTwo(f: Field, g: Field)
    ensures EncodeFields([f, g]) == EncodeField(f) + EncodeField(g)
  {
    assert [f, g] == [f] + [g];
    EncodeFieldsConcat([f], [g]);
    EncodeOne(f);
    EncodeOne(g);
  }

  /** Appending one record to the batch appends its tagged bytes to the encoded list. */
  lemma RecordsSnoc(records: seq<bytes>)
    requires |records| > 0
    ensures var init, last := records[..|records| - 1], records[|records| - 1];
      EncodeFields(RecordFields(records)) == EncodeFields(RecordFields(init)) + TaggedBytes(0x12, last)
  {
    var init, last := records[..|records| - 1], records[|records| - 1];
    assert RecordFields(records) == RecordFields(init) + [LenF(2, last)];
    EncodeFieldsConcat(RecordFields(init), [LenF(2, last)]);
    EncodeOne(LenF(2, last));
    LenFieldBytes(2, last);
  }

  lemma {:induction false} RecordsLen(records: seq<bytes>)
    ensures |EncodeFields(RecordFields(records))| == Tagged(records)
  {
    if |records| == 0 {
      assert RecordFields(records) == [];
    } else {
      RecordsSnoc(records);
      RecordsLen(records[..|records| - 1]);
      TaggedLenExact(0x12, records[|records| - 1]);
    }
  }

  /** The scope-logs bytes are the optional scope part followed by the records. */
  lemma ScopeLogsBytes(e: Env, records: seq<bytes>)
    ensures EncodeFields(ScopeLogsFields(e, records))
         == (if |e.scope| == 0 then [] else TaggedBytes(0x0a, e.scope)) + EncodeFields(RecordFields(records))
    ensures |EncodeFields(ScopeLogsFields(e, records))| == ScopePartLen(e) + Tagged(records)
  {
    hide EncodeFields, EncodeField, TaggedBytes, TaggedLen, Tagged, RecordFields;
    RecordsLen(records);
    if |e.scope| == 0 {
      assert ScopeLogsFields(e, records) == RecordFields(records);
    } else {
      EncodeFieldsConcat([LenF(1, e.scope)], RecordFields(records));
      EncodeOne(LenF(1, e.scope));
      LenFieldBytes(1, e.scope);
      TaggedLenExact(0x0a, e.scope);
    }
  }

  lemma ResourceLogsBytes(e: Env, records: seq<bytes>)
    ensures EncodeFields(ResourceLogsFields(e, records))
         == TaggedBytes(0x0a, e.resource) + TaggedBytes(0x12, EncodeFields(ScopeLogsFields(e, records)))
    ensures |EncodeFields(ResourceLogsFields(e, records))|
         == TaggedLen(|e.resource|) + TaggedLen(ScopePartLen(e) + Tagged(records))
  {
    hide TaggedLen, TaggedBytes, ScopeLogsFields, EncodeField, EncodeFields;
    var inner := EncodeFields(ScopeLogsFields(e, records));
    ScopeLogsBytes(e, records);
    EncodeTwo(LenF(1, e.resource), LenF(2, inner));
    LenFieldBytes(1, e.resource);
    LenFieldBytes(2, inner);
  }

  /** `sizeFor` of the cost sum is the exact length of the request, for every batch. */
  lemma SizeForExact(e: Env, records: seq<bytes>)
    ensures |RequestBytes(e, records)| == SizeFor(e, Tagged(records))
  {
    hide EncodeFields, EncodeField, TaggedLen, ResourceLogsFields, Tagged;
    ResourceLogsBytes(e, records);
    var inner := EncodeFields(ResourceLogsFields(e, records));
    EncodeOne(LenF(1, inner));
    LenFieldBytes(1, inner);
  }

  lemma TaggedLenStrict(a: nat, b: nat)
    requires a < b
    ensures TaggedLen(a) < TaggedLen(b)
  {
    UvarintLenExact(a);
    UvarintLenExact(b);
    UvarintLenMonotone(a, b);
  }

  /** A larger record total always gives a larger request. */
  lemma SizeForStrict(e: Env, a: nat, b: nat)
    requires a < b
    ensures SizeFor(e, a) < SizeFor(e, b)
  {
    hide TaggedLen;
    var sa, sb := ScopePartLen(e) + a, ScopePartLen(e) + b;
    TaggedLenStrict(sa, sb);
    TaggedLenStrict(TaggedLen(|e.resource|) + TaggedLen(sa), TaggedLen(|e.resource|) + TaggedLen(sb));
  }

  // ---------------------------------------------------------------------------------------
  // Assembly
  // ---------------------------------------------------------------------------------------

  function ScopePart(e: Env): bytes {
    if |e.scope| == 0 then [] else TaggedBytes(0x0a, e.scope)
  }

  /** The pieces `Assemble` writes, in order, are the request. */
  lemma AssembledPieces(e: Env, records: seq<bytes>)
    ensures var scopeLogs := ScopePartLen(e) + Tagged(records);
      [0x0a] + Uvarint(TaggedLen(|e.resource|) + TaggedLen(scopeLogs))
        + TaggedBytes(0x0a, e.resource) + [0x12] + Uvarint(scopeLogs)
        + ScopePart(e) + EncodeFields(RecordFields(records))
      == RequestBytes(e, records)
  {
    hide EncodeFields, EncodeField, Uvarint, TaggedLen, RecordFields, Tagged, ScopePartLen, ResourceLogsFields,
        ScopeLogsFields;
    var scopeLogs := EncodeFields(ScopeLogsFields(e, records));
    var resourceLogs := EncodeFields(ResourceLogsFields(e, records));
    ScopeLogsBytes(e, records);
    ResourceLogsBytes(e, records);
    EncodeOne(LenF(1, resourceLogs));
    LenFieldBytes(1, resourceLogs);
    var a, b, c, d := [0x0a] + Uvarint(|resourceLogs|), TaggedBytes(0x0a, e.resource), [0x12], Uvarint(|scopeLogs|);
    Regroup(a, b, c, d, ScopePart(e), EncodeFields(RecordFields(records)));
  }

  lemma Regroup(a: bytes, b: bytes, c: bytes, d: bytes, e: bytes, f: bytes)
    ensures a + b + c + d + e + f == a + (b + (c + d + (e + f)))
  {
  }

  /** The record loop of `assemble`. */
  method AppendRecords(dst: bytes, records: seq<bytes>) returns (r: bytes)
    ensures r == dst + EncodeFields(RecordFields(records))
  {
    hide EncodeFields, TaggedBytes, RecordFields;
    r := dst;
    assert EncodeFields(RecordFields(records[..0])) == [] by { NoRecords(); assert records[..0] == []; }
    for i := 0 to |records|
      invariant r == dst + EncodeFields(RecordFields(records[..i]))
    {
      r := AppendTaggedBytes(r, 0x12, records[i]);
      RecordsSnoc(records[..i + 1]);
      assert records[..i + 1][..i] == records[..i];
    }
    assert records[..|records|] == records;
  }

  /** `assemble`: the two loops of the code, with every length computed before it is written. */
  method Assemble(e: Env, dst: bytes, records: seq<bytes>) returns (r: bytes)
    ensures r == dst + RequestBytes(e, records)
    ensures |r| == |dst| + SizeFor(e, Tagged(records))
  {
    hide EncodeFields, UvarintLen, Uvarint, TaggedLen, RecordFields, TaggedBytes, ScopePartLen, SizeFor, RequestBytes;
    var tagged := 0;
    for i := 0 to |records|
      invariant tagged == Tagged(records[..i])
    {
      tagged := tagged + RecordCost(|records[i]|);
      assert records[..i + 1][..i] == records[..i];
    }
    assert records[..|records|] == records;
    var scopeLogsLen := ScopePartLen(e) + tagged;
    var resourceLogsLen := TaggedLen(|e.resource|) + TaggedLen(scopeLogsLen);
    r := AppendUvarint(dst + [0x0a], resourceLogsLen);
    r := AppendTaggedBytes(r, 0x0a, e.resource);
    r := AppendUvarint(r + [0x12], scopeLogsLen);
    if |e.scope| != 0 {
      r := AppendTaggedBytes(r, 0x0a, e.scope);
    }
    r := AppendRecords(r, records);
    AssembledPieces(e, records);
    SizeForExact(e, records);
    assert r == dst + RequestBytes(e, records);
  }

  lemma NoRecords()
    ensures EncodeFields(RecordFields([])) == []
  {
  }

  /** Every length inside a request is below the request size. */
  lemma LengthsFit(e: Env, records: seq<bytes>)
    requires SizeFor(e, Tagged(records)) < U64_LIMIT
    ensures |e.resource| < U64_LIMIT && |e.scope| < U64_LIMIT
    ensures ScopePartLen(e) + Tagged(records) < U64_LIMIT
    ensures TaggedLen(|e.resource|) + TaggedLen(ScopePartLen(e) + Tagged(records)) < U64_LIMIT
  {
  }

  lemma {:induction false} CostBelowTagged(records: seq<bytes>, i: nat)
    requires i < |records|
    ensures |records[i]| < Tagged(records)
  {
    if i < |records| - 1 { CostBelowTagged(records[..|records| - 1], i); }
  }

  lemma LengthFits(e: Env, records: seq<bytes>, i: nat)
    requires i < |records| && SizeFor(e, Tagged(records)) < U64_LIMIT
    ensures |records[i]| < U64_LIMIT
  {
    CostBelowTagged(records, i);
    LengthsFit(e, records);
  }

  // ---------------------------------------------------------------------------------------
  // Reading a request back
  // ---------------------------------------------------------------------------------------

  /**
    Scanning an assembled request recovers one resource-logs message, in it the resource blob and
    one scope-logs message, and in that the scope (if any) and exactly the records, in order.
  */
  lemma RequestScan(e: Env, records: seq<bytes>)
    requires SizeFor(e, Tagged(records)) < U64_LIMIT
    ensures Scan(RequestBytes(e, records)) == Parsed(RequestFields(e, records), true)
    ensures Scan(EncodeFields(ResourceLogsFields(e, records))) == Parsed(ResourceLogsFields(e, records), true)
    ensures Scan(EncodeFields(ScopeLogsFields(e, records))) == Parsed(ScopeLogsFields(e, records), true)
  {
    hide Scan, EncodeFields, TaggedLen, ScopePartLen;
    LengthsFit(e, records);
    ScopeLogsBytes(e, records);
    ResourceLogsBytes(e, records);
    forall i | 0 <= i < |records| ensures |records[i]| < U64_LIMIT { LengthFits(e, records, i); }
    ScanEncoded(ScopeLogsFields(e, records));
    ScanEncoded(ResourceLogsFields(e, records));
    ScanEncoded(RequestFields(e, records));
  }

  lemma {:induction false} PayloadsOfRecords(fs: seq<Field>, records: seq<bytes>, num: nat)
    requires |fs| == |records| && forall i :: 0 <= i < |fs| ==> fs[i] == LenF(num, records[i])
    ensures Payloads(fs, num) == records
    ensures forall other :: other != num ==> Payloads(fs, other) == []
  {
    if |fs| > 0 {
      PayloadsOfRecords(fs[1..], records[1..], num);
    }
  }

  /** What the field scanners find in a request: resource, scope and the record list. */
  lemma RequestRecovered(e: Env, records: seq<bytes>)
    requires SizeFor(e, Tagged(records)) < U64_LIMIT
    ensures
      var resourceLogs := LastOr(Payloads(Scan(RequestBytes(e, records)).fields, 1), []);
      var scopeLogs := LastOr(Payloads(Scan(resourceLogs).fields, 2), []);
      && LastOr(Payloads(Scan(resourceLogs).fields, 1), []) == e.resource
      && LastOr(Payloads(Scan(scopeLogs).fields, 1), []) == e.scope
      && Payloads(Scan(scopeLogs).fields, 2) == records
  {
    hide Scan, EncodeFields, RequestBytes, RecordFields;
    RequestScan(e, records);
    var scope: seq<Field> := if |e.scope| == 0 then [] else [LenF(1, e.scope)];
    PayloadsConcat(scope, RecordFields(records), 1);
    PayloadsConcat(scope, RecordFields(records), 2);
    PayloadsOfRecords(RecordFields(records), records, 2);
    assert Payloads(scope, 1) == if |e.scope| == 0 then [] else [e.scope] + Payloads([], 1);
    assert Payloads(scope, 2) == if |e.scope| == 0 then [] else [] + Payloads([], 2);
    var rl := ResourceLogsFields(e, records);
    assert Payloads(rl, 1) == [e.resource] + Payloads(rl[1..], 1);
    assert rl[1..] == [rl[1]];
    assert Payloads([rl[1]], 1) == [] + Payloads([], 1);
    assert Payloads(rl, 2) == [] + Payloads([rl[1]], 2);
    assert Payloads([rl[1]], 2) == [rl[1].payload] + Payloads([], 2);
    var rq := RequestFields(e, records);
    assert Payloads(rq, 1) == [rq[0].payload] + Payloads([], 1);
  }
}
