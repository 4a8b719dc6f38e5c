/**
  Protocol Buffers wire primitives, after otlp/proto.go.

  A byte is a bounded int, a Go slice is a sequence.  The appenders are specified by the
  functions `Uvarint`, `LittleEndian` and `EncodeField`; the scanners are specified by one
  reference parser, `Scan`, which returns the fields it could read and whether it reached the
  end of the message.
*/
module Wire {
  type byte = x: int | 0 <= x < 0x100
  type bytes = seq<byte>

  const U64_LIMIT := 0x1_0000_0000_0000_0000
  type u64 = x: int | 0 <= x < 0x1_0000_0000_0000_0000
  type int64 = x: int | -0x8000_0000_0000_0000 <= x < 0x8000_0000_0000_0000

  datatype Option<+T> = None | Some(value: T)

  /** The bytes of an ASCII literal. */
  function Ascii(s: string): (r: bytes)
    ensures |r| == |s|
  {
    seq(|s|, i requires 0 <= i < |s| => s[i] as int % 0x100)
  }

  lemma Assoc<T>(a: seq<T>, b: seq<T>, c: seq<T>)
    ensures a + (b + c) == a + b + c
  {
  }

  // ---------------------------------------------------------------------------------------
  // Base 128 varints
  // ---------------------------------------------------------------------------------------

  /** The base 128 varint of `v`: seven bits a byte, low group first, high bit on all but the last. */
  function Uvarint(v: nat): (r: bytes)
    ensures |r| >= 1
  {
    if v < 0x80 then [v] else [v % 0x80 + 0x80] + Uvarint(v / 0x80)
  }

  lemma ShortUvarint(v: nat)
    requires v < 0x80
    ensures Uvarint(v) == [v]
  {
  }

  /** `byte(v) | 0x80` on one byte. */
  function SetHighBit(b: byte): byte {
    if b < 0x80 then b + 0x80 else b
  }

  method AppendUvarint(dst: bytes, value: nat) returns (r: bytes)
    ensures r == dst + Uvarint(value)
  {
    r := dst;
    var v: int := value;
    while v >= 0x80
      invariant v >= 0
      invariant r + Uvarint(v) == dst + Uvarint(value)
    {
      ghost var before := r;
      r := r + [SetHighBit(v % 0x100)];
      assert SetHighBit(v % 0x100) == v % 0x80 + 0x80;
      assert before + Uvarint(v) == r + Uvarint(v / 0x80);
      v := v / 0x80;
    }
    r := r + [v];
  }

  /** `bits.Len64`: the number of bits needed to write `n`. */
  function BitLen(n: nat): nat {
    if n == 0 then 0 else 1 + BitLen(n / 2)
  }

  /** `v | 1`. */
  function OrOne(v: nat): nat {
    if v % 2 == 0 then v + 1 else v
  }

  /** The closed formula of `uvarintLen`. */
  function UvarintLen(v: nat): nat {
    (BitLen(OrOne(v)) + 6) / 7
  }

  lemma BitLenShift(n: nat)
    requires n >= 0x80
    ensures BitLen(n) == 7 + BitLen(n / 0x80)
  {
    var a := n / 2; var b := a / 2; var c := b / 2; var d := c / 2; var e := d / 2; var f := e / 2; var g := f / 2;
    assert BitLen(n) == 1 + BitLen(a);
    assert BitLen(a) == 1 + BitLen(b);
    assert BitLen(b) == 1 + BitLen(c);
    assert BitLen(c) == 1 + BitLen(d);
    assert BitLen(d) == 1 + BitLen(e);
    assert BitLen(e) == 1 + BitLen(f);
    assert BitLen(f) == 1 + BitLen(g);
    assert g == n / 0x80;
  }

  lemma {:induction false} BitLenBounded(n: nat, k: nat, bound: nat)
    requires n < bound && bound == Pow2(k)
    ensures BitLen(n) <= k
  {
    if n != 0 { BitLenBounded(n / 2, k - 1, Pow2(k - 1)); }
  }

  function Pow2(k: nat): (r: nat)
    ensures r >= 1
  {
    if k == 0 then 1 else 2 * Pow2(k - 1)
  }

  /** The size formula is the exact encoded length, for every value. */
  lemma {:induction false} UvarintLenExact(v: nat)
    ensures |Uvarint(v)| == UvarintLen(v)
  {
    if v < 0x80 {
      assert Pow2(7) == 0x80 by { assert Pow2(4) == 0x10; }
      BitLenBounded(OrOne(v), 7, 0x80);
      assert BitLen(OrOne(v)) >= 1;
    } else {
      BitLenShift(OrOne(v));
      assert OrOne(v) / 0x80 == v / 0x80;
      var w := v / 0x80;
      assert BitLen(OrOne(w)) == BitLen(w) by {
        assert OrOne(w) / 2 == w / 2;
      }
      UvarintLenExact(w);
    }
  }

  /** More bytes are never needed for a smaller value. */
  lemma {:induction false} UvarintLenMonotone(a: nat, b: nat)
    requires a <= b
    ensures |Uvarint(a)| <= |Uvarint(b)|
  {
    if a >= 0x80 { UvarintLenMonotone(a / 0x80, b / 0x80); }
  }

  /** What `binary.Uvarint` reports: a value and the bytes read, or n <= 0. */
  datatype Read = Good(value: u64, size: nat) | Bad

  /** How far a varint may still grow after `i` bytes: 2^64 / 128^i. */
  function Room(i: nat): (r: nat)
    requires i <= 9
    ensures r >= 2
    ensures i == 0 ==> r == U64_LIMIT
    decreases 9 - i
  {
    if i == 9 then 2
    else if i == 8 then 0x100
    else if i == 7 then 0x8000
    else if i == 6 then 0x40_0000
    else if i == 5 then 0x2000_0000
    else if i == 4 then 0x10_0000_0000
    else if i == 3 then 0x800_0000_0000
    else if i == 2 then 0x4_0000_0000_0000
    else if i == 1 then 0x200_0000_0000_0000
    else U64_LIMIT
  }

  /** `binary.Uvarint` from its `i`-th byte on; ten bytes at most, and the tenth is 0 or 1. */
  function ReadFrom(b: bytes, i: nat): (r: Option<(nat, nat)>)
    requires i <= 10
    ensures r.Some? ==> i < 10 && r.value.0 < Room(i) && 1 <= r.value.1 <= |b|
    decreases |b|
  {
    if |b| == 0 || i == 10 then None
    else if b[0] < 0x80 then
      if i == 9 && b[0] > 1 then None else Some((b[0], 1))
    else
      match ReadFrom(b[1..], i + 1)
      case None => None
      case Some((v, n)) =>
        assert Room(i) == 0x80 * Room(i + 1);
        Some((b[0] - 0x80 + 0x80 * v, n + 1))
  }

  function ReadUvarint(b: bytes): (r: Read)
    ensures r.Good? ==> 1 <= r.size <= |b|
  {
    match ReadFrom(b, 0)
    case None => Bad
    case Some((v, n)) => Good(v, n)
  }

  lemma {:induction false} ReadFromEncoded(v: nat, i: nat, rest: bytes)
    requires i <= 9 && v < Room(i)
    ensures ReadFrom(Uvarint(v) + rest, i) == Some((v, |Uvarint(v)|))
  {
    var b := Uvarint(v) + rest;
    if v >= 0x80 {
      assert b[1..] == Uvarint(v / 0x80) + rest;
      assert Room(i) == 0x80 * Room(i + 1);
      ReadFromEncoded(v / 0x80, i + 1, rest);
    }
  }

  /** Decoding undoes encoding for every uint64, whatever follows. */
  lemma VarintRoundTrip(v: u64, rest: bytes)
    ensures ReadUvarint(Uvarint(v) + rest) == Good(v, |Uvarint(v)|)
  {
    ReadFromEncoded(v, 0, rest);
  }

  // ---------------------------------------------------------------------------------------
  // Fixed-width little endian
  // ---------------------------------------------------------------------------------------

  function LittleEndian(v: nat, k: nat): (r: bytes)
    ensures |r| == k
  {
    if k == 0 then [] else [v % 0x100] + LittleEndian(v / 0x100, k - 1)
  }

  function LittleEndianValue(b: bytes): nat {
    if |b| == 0 then 0 else b[0] + 0x100 * LittleEndianValue(b[1..])
  }

  function Pow256(k: nat): nat {
    if k == 0 then 1 else 0x100 * Pow256(k - 1)
  }

  lemma {:induction false} LittleEndianRoundTrip(v: nat, k: nat)
    requires v < Pow256(k)
    ensures LittleEndianValue(LittleEndian(v, k)) == v
  {
    if k > 0 {
      assert LittleEndian(v, k)[1..] == LittleEndian(v / 0x100, k - 1);
      LittleEndianRoundTrip(v / 0x100, k - 1);
    }
  }

  lemma {:induction false} LittleEndianBound(b: bytes)
    ensures LittleEndianValue(b) < Pow256(|b|)
  {
    if |b| > 0 { LittleEndianBound(b[1..]); }
  }

  lemma Pow256Widths()
    ensures Pow256(4) == 0x1_0000_0000 && Pow256(8) == U64_LIMIT
  {
  }

  // ---------------------------------------------------------------------------------------
  // Fields
  // ---------------------------------------------------------------------------------------

  /** One wire field: its number and its value in one of the four wire types the code reads. */
  datatype Field =
    | VarintF(num: nat, n: u64)
    | Fixed64F(num: nat, n: u64)
    | LenF(num: nat, payload: bytes)
    | Fixed32F(num: nat, n: u64)

  function WireType(f: Field): nat {
    match f
    case VarintF(_, _) => 0
    case Fixed64F(_, _) => 1
    case LenF(_, _) => 2
    case Fixed32F(_, _) => 5
  }

  /** Tag, length and payload of a length-delimited field; `appendTaggedBytes`/`appendTaggedString`. */
  function TaggedBytes(tag: byte, p: bytes): bytes {
    [tag] + Uvarint(|p|) + p
  }

  method AppendTaggedBytes(dst: bytes, tag: byte, p: bytes) returns (r: bytes)
    ensures r == dst + TaggedBytes(tag, p)
  {
    r := AppendUvarint(dst + [tag], |p|);
    r := r + p;
  }

  function FieldBody(f: Field): bytes {
    match f
    case VarintF(_, n) => Uvarint(n)
    case Fixed64F(_, n) => LittleEndian(n, 8)
    case LenF(_, p) => Uvarint(|p|) + p
    case Fixed32F(_, n) => LittleEndian(n, 4)
  }

  function EncodeField(f: Field): (r: bytes)
    ensures |r| >= 1
  {
    Uvarint(8 * f.num + WireType(f)) + FieldBody(f)
  }

  function EncodeFields(fs: seq<Field>): bytes {
    if |fs| == 0 then [] else EncodeField(fs[0]) + EncodeFields(fs[1..])
  }

  lemma {:induction false} EncodeFieldsConcat(a: seq<Field>, b: seq<Field>)
    ensures EncodeFields(a + b) == EncodeFields(a) + EncodeFields(b)
  {
    if |a| == 0 {
      assert a + b == b;
    } else {
      assert (a + b)[1..] == a[1..] + b;
      EncodeFieldsConcat(a[1..], b);
    }
  }

  /** A field whose tag and length fit the machine integers of the program. */
  predicate Encodable(f: Field) {
    && 8 * f.num + 7 < U64_LIMIT
    && (f.LenF? ==> |f.payload| < U64_LIMIT)
    && (f.Fixed32F? ==> f.n < 0x1_0000_0000)
  }

  /** Reads the body of a field after its tag: the field and the number of bytes it took. */
  function TakeBody(num: nat, wt: nat, b: bytes): (r: Option<(Field, nat)>)
    ensures r.Some? ==> r.value.1 <= |b| && r.value.0.num == num && WireType(r.value.0) == wt
    ensures r.Some? && r.value.0.LenF? ==> |r.value.0.payload| < r.value.1
  {
    if wt == 0 then
      match ReadUvarint(b)
      case Bad => None
      case Good(v, n) => Some((VarintF(num, v), n))
    else if wt == 1 then
      if |b| < 8 then None
      else
        Pow256Widths(); LittleEndianBound(b[..8]);
        Some((Fixed64F(num, LittleEndianValue(b[..8])), 8))
    else if wt == 2 then
      match ReadUvarint(b)
      case Bad => None
      case Good(l, n) => if |b| - n < l then None else Some((LenF(num, b[n..n + l]), n + l))
    else if wt == 5 then
      if |b| < 4 then None
      else
        Pow256Widths(); LittleEndianBound(b[..4]);
        Some((Fixed32F(num, LittleEndianValue(b[..4])), 4))
    else None
  }

  /** Reads one whole field: the field and what follows it. */
  function TakeField(b: bytes): (r: Option<(Field, bytes)>)
    ensures r.Some? ==> |r.value.1| < |b|
    ensures r.Some? && r.value.0.LenF? ==> |r.value.0.payload| + 1 < |b|
  {
    match ReadUvarint(b)
    case Bad => None
    case Good(tag, n) =>
      match TakeBody(tag / 8, tag % 8, b[n..])
      case None => None
      case Some((f, k)) => Some((f, b[n + k..]))
  }

  /** The reference parse of a message. */
  datatype Parsed = Parsed(fields: seq<Field>, complete: bool)

  function Scan(b: bytes): Parsed
    decreases |b|
  {
    if |b| == 0 then Parsed([], true)
    else
      match TakeField(b)
      case None => Parsed([], false)
      case Some((f, rest)) =>
        var p := Scan(rest);
        Parsed([f] + p.fields, p.complete)
  }

  lemma TakeFixedEncoded(n: nat, k: nat, rest: bytes)
    requires n < Pow256(k)
    ensures var b := LittleEndian(n, k) + rest; b[..k] == LittleEndian(n, k) && LittleEndianValue(b[..k]) == n
  {
    hide Pow256, LittleEndian, LittleEndianValue;
    LittleEndianRoundTrip(n, k);
    assert (LittleEndian(n, k) + rest)[..k] == LittleEndian(n, k);
  }

  lemma TakeBodyEncoded(f: Field, rest: bytes)
    requires Encodable(f)
    ensures TakeBody(f.num, WireType(f), FieldBody(f) + rest) == Some((f, |FieldBody(f)|))
  {
    hide ReadUvarint, Uvarint, LittleEndian, LittleEndianValue, Pow256;
    Pow256Widths();
    match f
    case VarintF(_, n) => VarintRoundTrip(n, rest);
    case Fixed64F(_, n) => TakeFixedEncoded(n, 8, rest);
    case LenF(_, p) =>
      VarintRoundTrip(|p|, p + rest);
      var b := FieldBody(f) + rest;
      assert b == Uvarint(|p|) + (p + rest);
      assert b[|Uvarint(|p|)|..|Uvarint(|p|)| + |p|] == p;
    case Fixed32F(_, n) => TakeFixedEncoded(n, 4, rest);
  }

  lemma TakeFieldEncoded(f: Field, rest: bytes)
    requires Encodable(f)
    ensures TakeField(EncodeField(f) + rest) == Some((f, rest))
  {
    hide ReadUvarint, TakeBody, FieldBody, Uvarint;
    var tag := 8 * f.num + WireType(f);
    var b := EncodeField(f) + rest;
    assert b == Uvarint(tag) + (FieldBody(f) + rest);
    VarintRoundTrip(tag, FieldBody(f) + rest);
    assert b[|Uvarint(tag)|..] == FieldBody(f) + rest;
    TakeBodyEncoded(f, rest);
    assert b[|Uvarint(tag)| + |FieldBody(f)|..] == rest;
  }

  /** Parsing undoes field-by-field encoding, in order, whatever the numbers and wire types. */
  lemma {:induction false} ScanEncoded(fs: seq<Field>)
    requires forall i :: 0 <= i < |fs| ==> Encodable(fs[i])
    ensures Scan(EncodeFields(fs)) == Parsed(fs, true)
  {
    if |fs| > 0 {
      TakeFieldEncoded(fs[0], EncodeFields(fs[1..]));
      ScanEncoded(fs[1..]);
      assert [fs[0]] + fs[1..] == fs;
    }
  }

  // ---------------------------------------------------------------------------------------
  // The scanners, proved against the reference parse
  // ---------------------------------------------------------------------------------------

  /** Payloads of the length-delimited fields numbered `num`, in order. */
  function Payloads(fs: seq<Field>, num: nat): seq<bytes> {
    if |fs| == 0 then []
    else (if fs[0].LenF? && fs[0].num == num then [fs[0].payload] else []) + Payloads(fs[1..], num)
  }

  function Varints(fs: seq<Field>, num: nat): seq<u64> {
    if |fs| == 0 then []
    else (if fs[0].VarintF? && fs[0].num == num then [fs[0].n] else []) + Varints(fs[1..], num)
  }

  function LastOr<T>(s: seq<T>, default: T): T {
    if |s| == 0 then default else s[|s| - 1]
  }

  /** The prefix of `s` up to and including the first element the callback refuses. */
  function Visited(s: seq<bytes>, keep: bytes -> bool): seq<bytes> {
    if |s| == 0 then [] else if keep(s[0]) then [s[0]] + Visited(s[1..], keep) else [s[0]]
  }

  predicate Stops(s: seq<bytes>, keep: bytes -> bool) {
    exists i :: 0 <= i < |s| && !keep(s[i])
  }

  lemma {:induction false} PayloadsConcat(a: seq<Field>, b: seq<Field>, num: nat)
    ensures Payloads(a + b, num) == Payloads(a, num) + Payloads(b, num)
  {
    if |a| == 0 { assert a + b == b; }
    else { assert (a + b)[1..] == a[1..] + b; PayloadsConcat(a[1..], b, num); }
  }

  lemma {:induction false} VarintsConcat(a: seq<Field>, b: seq<Field>, num: nat)
    ensures Varints(a + b, num) == Varints(a, num) + Varints(b, num)
  {
    if |a| == 0 { assert a + b == b; }
    else { assert (a + b)[1..] == a[1..] + b; VarintsConcat(a[1..], b, num); }
  }

  lemma {:induction false} VisitedConcat(a: seq<bytes>, b: seq<bytes>, keep: bytes -> bool)
    ensures Stops(a, keep) ==> Visited(a + b, keep) == Visited(a, keep)
    ensures !Stops(a, keep) ==> Visited(a + b, keep) == a + Visited(b, keep)
  {
    if |a| == 0 { assert a + b == b; }
    else {
      assert (a + b)[1..] == a[1..] + b;
      VisitedConcat(a[1..], b, keep);
      if keep(a[0]) {
        assert Stops(a[1..], keep) ==> Stops(a, keep) by {
          if i :| 0 <= i < |a[1..]| && !keep(a[1..][i]) { assert !keep(a[i + 1]); }
        }
        assert Stops(a, keep) ==> Stops(a[1..], keep) by {
          if i :| 0 <= i < |a| && !keep(a[i]) { assert !keep(a[1..][i - 1]); }
        }
      }
    }
  }

  /** A refused payload ends the visit. */
  lemma VisitedStop(a: seq<bytes>, p: bytes, b: seq<bytes>, keep: bytes -> bool)
    requires !Stops(a, keep) && !keep(p)
    ensures Visited(a + [p] + b, keep) == a + [p]
    ensures Stops(a + [p] + b, keep)
  {
    assert a + [p] + b == a + ([p] + b);
    VisitedConcat(a, [p] + b, keep);
    assert Visited([p] + b, keep) == [p];
    assert !keep((a + [p] + b)[|a|]);
  }

  lemma NoStops(keep: bytes -> bool)
    ensures !Stops([], keep)
  {
  }

  lemma StopsKept(a: seq<bytes>, p: bytes, keep: bytes -> bool)
    requires !Stops(a, keep) && keep(p)
    ensures !Stops(a + [p], keep)
  {
  }

  lemma VisitedAll(a: seq<bytes>, keep: bytes -> bool)
    requires !Stops(a, keep)
    ensures Visited(a, keep) == a
  {
  }

  /** `seen` is what the loop has read of `message` and `b` is what is left. */
  ghost predicate Covered(message: bytes, seen: seq<Field>, b: bytes) {
    Scan(message) == Parsed(seen + Scan(b).fields, Scan(b).complete)
  }

  lemma CoveredStep(message: bytes, seen: seq<Field>, b: bytes)
    requires Covered(message, seen, b) && |b| > 0
    ensures TakeField(b).None? ==> Scan(message) == Parsed(seen, false)
    ensures TakeField(b).Some? ==> Covered(message, seen + [TakeField(b).value.0], TakeField(b).value.1)
  {
  }

  lemma CoveredEnd(message: bytes, seen: seq<Field>)
    requires Covered(message, seen, [])
    ensures Scan(message) == Parsed(seen, true)
  {
  }

  /** What is still unread can only add payloads. */
  lemma CoveredPayloads(message: bytes, seen: seq<Field>, b: bytes, num: nat)
    requires Covered(message, seen, b)
    ensures Payloads(Scan(message).fields, num) == Payloads(seen, num) + Payloads(Scan(b).fields, num)
  {
    hide TakeField;
    PayloadsConcat(seen, Scan(b).fields, num);
  }

  /** One turn of each scanner's loop, in the order of the code's switch. */
  method Advance(b: bytes) returns (r: Option<(Field, bytes)>)
    requires |b| > 0
    ensures r == TakeField(b)
  {
    var head := ReadUvarint(b);
    if head.Bad? { return None; }
    var rest := b[head.size..];
    var num, wt := head.value / 8, head.value % 8;
    var f: Field;
    var adv: nat;
    if wt == 0 {
      var x := ReadUvarint(rest);
      if x.Bad? { return None; }
      f, adv := VarintF(num, x.value), x.size;
    } else if wt == 1 {
      if |rest| < 8 { return None; }
      Pow256Widths(); LittleEndianBound(rest[..8]);
      f, adv := Fixed64F(num, LittleEndianValue(rest[..8])), 8;
    } else if wt == 2 {
      var l := ReadUvarint(rest);
      if l.Bad? || |rest| - l.size < l.value { return None; }
      f, adv := LenF(num, rest[l.size..l.size + l.value]), l.size + l.value;
    } else if wt == 5 {
      if |rest| < 4 { return None; }
      Pow256Widths(); LittleEndianBound(rest[..4]);
      f, adv := Fixed32F(num, LittleEndianValue(rest[..4])), 4;
    } else {
      return None;
    }
    return Some((f, rest[adv..]));
  }

  datatype Result<+T> = Ok(value: T) | Truncated

  /** `findField`: the last length-delimited occurrence, or an error when any field is cut short. */
  method FindField(message: bytes, num: nat) returns (r: Result<Option<bytes>>)
    ensures r.Truncated? <==> !Scan(message).complete
    ensures r.Ok? ==>
      var found := Payloads(Scan(message).fields, num);
      r.value == if |found| == 0 then None else Some(found[|found| - 1])
  {
    hide TakeField, Scan;
    var b := message;
    var payload: Option<bytes> := None;
    ghost var seen: seq<Field> := [];
    while |b| > 0
      invariant Covered(message, seen, b)
      invariant payload == var found := Payloads(seen, num); if |found| == 0 then None else Some(found[|found| - 1])
      decreases |b|
    {
      var step := Advance(b);
      CoveredStep(message, seen, b);
      if step.None? { return Truncated; }
      var (f, rest) := step.value;
      if f.LenF? && f.num == num { payload := Some(f.payload); }
      PayloadsConcat(seen, [f], num);
      seen, b := seen + [f], rest;
    }
    CoveredEnd(message, seen);
    return Ok(payload);
  }

  /** `findVarint`: the last varint occurrence, 0 when absent. */
  method FindVarint(message: bytes, num: nat) returns (r: Result<u64>)
    ensures r.Truncated? <==> !Scan(message).complete
    ensures r.Ok? ==> r.value == LastOr(Varints(Scan(message).fields, num), 0)
  {
    hide TakeField, Scan;
    var b := message;
    var out: u64 := 0;
    ghost var seen: seq<Field> := [];
    while |b| > 0
      invariant Covered(message, seen, b)
      invariant out == LastOr(Varints(seen, num), 0)
      decreases |b|
    {
      var step := Advance(b);
      CoveredStep(message, seen, b);
      if step.None? { return Truncated; }
      var (f, rest) := step.value;
      if f.VarintF? && f.num == num { out := f.n; }
      VarintsConcat(seen, [f], num);
      seen, b := seen + [f], rest;
    }
    CoveredEnd(message, seen);
    return Ok(out);
  }

  /**
    `forEachLenField`: visits the payloads in order until the callback refuses one; a refusal
    hides every later truncation.
  */
  method ForEachLenField(message: bytes, num: nat, keep: bytes -> bool) returns (visited: seq<bytes>, ok: bool)
    ensures visited == Visited(Payloads(Scan(message).fields, num), keep)
    ensures ok <==> Stops(Payloads(Scan(message).fields, num), keep) || Scan(message).complete
  {
    hide TakeField, Scan, Visited, Stops;
    var b := message;
    ghost var seen: seq<Field> := [];
    visited := [];
    NoStops(keep);
    while |b| > 0
      invariant Covered(message, seen, b)
      invariant visited == Payloads(seen, num) && !Stops(visited, keep)
      decreases |b|
    {
      var step := Advance(b);
      CoveredStep(message, seen, b);
      VisitedAll(visited, keep);
      if step.None? { return visited, false; }
      var (f, rest) := step.value;
      PayloadsConcat(seen, [f], num);
      seen, b := seen + [f], rest;
      if f.LenF? && f.num == num {
        if !keep(f.payload) {
          CoveredPayloads(message, seen, b, num);
          assert Payloads(seen, num) == visited + [f.payload];
          VisitedStop(visited, f.payload, Payloads(Scan(b).fields, num), keep);
          return visited + [f.payload], true;
        }
        StopsKept(visited, f.payload, keep);
        visited := visited + [f.payload];
      }
    }
    CoveredEnd(message, seen);
    VisitedAll(visited, keep);
    return visited, true;
  }

  // ---------------------------------------------------------------------------------------
  // Export responses
  // ---------------------------------------------------------------------------------------

  datatype PartialSuccess = PartialSuccess(rejected: int, message: bytes)

  /** `int64(x)` of a uint64. */
  function AsInt64(x: u64): int {
    if x < 0x8000_0000_0000_0000 then x else x - U64_LIMIT
  }

  /** `decodePartialSuccess`. */
  method DecodePartialSuccess(body: bytes) returns (r: Result<PartialSuccess>)
    ensures r.Truncated? <==> !Scan(body).complete || !Scan(LastOr(Payloads(Scan(body).fields, 1), [])).complete
    ensures r.Ok? ==>
      var ps := Scan(LastOr(Payloads(Scan(body).fields, 1), [])).fields;
      r.value == PartialSuccess(AsInt64(LastOr(Varints(ps, 1), 0)), LastOr(Payloads(ps, 2), []))
  {
    hide TakeField;
    var ps := FindField(body, 1);
    if ps.Truncated? { return Truncated; }
    if ps.value.None? {
      assert Payloads(Scan(body).fields, 1) == [];
      return Ok(PartialSuccess(0, []));
    }
    var rejected := FindVarint(ps.value.value, 1);
    if rejected.Truncated? { return Truncated; }
    var message := FindField(ps.value.value, 2);
    if message.Truncated? { return Truncated; }
    return Ok(PartialSuccess(AsInt64(rejected.value), if message.value.None? then [] else message.value.value));
  }

  /**
    A response carrying any fields inside its partial_success message is read back exactly,
    the last rejection count and the last message winning.
  */
  lemma PartialSuccessRoundTrip(inner: seq<Field>)
    requires forall i :: 0 <= i < |inner| ==> Encodable(inner[i])
    requires |EncodeFields(inner)| < U64_LIMIT
    ensures
      var ps := EncodeFields(inner);
      var body := EncodeFields([LenF(1, ps)]);
      && Scan(body).complete && LastOr(Payloads(Scan(body).fields, 1), []) == ps
      && Scan(ps) == Parsed(inner, true)
  {
    hide TakeField, EncodeFields, Uvarint;
    var ps := EncodeFields(inner);
    ScanEncoded(inner);
    ScanEncoded([LenF(1, ps)]);
    assert Payloads([LenF(1, ps)], 1) == [ps] + Payloads([], 1);
  }
}
