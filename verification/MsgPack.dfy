/**
  The MessagePack format, as far as the fluent encoder writes it: the smallest-form encoders of
  `msgp.Append*`, with the 32-bit truncation of oversized lengths they have, and a decoder written
  from the MessagePack specification.
*/
module MsgPack {
  import opened Wire

  const U32_LIMIT := 0x1_0000_0000
  type u32 = x: int | 0 <= x < 0x1_0000_0000

  /** Values of the unsigned family; below 128 both families share the positive fixint form. */
  type wide = x: int | 0x80 <= x < 0x1_0000_0000_0000_0000 witness 0x80
  type eight = s: bytes | |s| == 8 witness [0, 0, 0, 0, 0, 0, 0, 0]

  datatype Val =
    | Nil
    | Bool(b: bool)
    | Int(i: int64)
    | Uint(u: wide)
    | F32(bits32: u32)
    | F64(bits: u64)
    | Str(s: bytes)
    | Bin(data: bytes)
    | Ext8(typ: byte, payload: eight)
    | Arr(vals: seq<Val>)
    | Map(pairs: seq<Pair>)

  datatype Pair = Pair(key: bytes, value: Val)

  // ---------------------------------------------------------------------------------------
  // Big-endian numbers
  // ---------------------------------------------------------------------------------------

  /** The low `w` bytes of `n`: higher bits are cut off, as a narrowing conversion does. */
  function BigEndian(n: nat, w: nat): (r: bytes)
    ensures |r| == w
  {
    if w == 0 then [] else BigEndian(n / 0x100, w - 1) + [n % 0x100]
  }

  function BigValue(b: bytes): nat {
    if |b| == 0 then 0 else 0x100 * BigValue(b[..|b| - 1]) + b[|b| - 1]
  }

  lemma {:induction false} BigRoundTrip(n: nat, w: nat)
    ensures n < Pow256(w) ==> BigValue(BigEndian(n, w)) == n
  {
    if w > 0 {
      BigRoundTrip(n / 0x100, w - 1);
      assert BigEndian(n, w)[..w - 1] == BigEndian(n / 0x100, w - 1);
    }
  }

  lemma {:induction false} BigValueBound(b: bytes)
    ensures BigValue(b) < Pow256(|b|)
  {
    if |b| > 0 { BigValueBound(b[..|b| - 1]); }
  }

  function Limit(w: nat): nat {
    match w
    case 1 => 0x100
    case 2 => 0x1_0000
    case 4 => 0x1_0000_0000
    case 8 => 0x1_0000_0000_0000_0000
    case _ => 0
  }

  lemma LimitExact(w: nat)
    ensures Limit(w) > 0 ==> Limit(w) == Pow256(w)
  {
  }

  // ---------------------------------------------------------------------------------------
  // Headers
  // ---------------------------------------------------------------------------------------

  datatype Head =
    | HNil | HBool(b: bool) | HInt(i: int64) | HUint(u: wide) | HF32(bits32: u32) | HF64(bits: u64)
    | HStr(n: nat) | HBin(n: nat) | HArr(n: nat) | HMap(n: nat) | HExt8(typ: byte)

  /** One byte, or a format byte with a big-endian number of `w` bytes. */
  datatype Form = Fix(b: byte) | Sized(tag: byte, w: nat, n: nat)

  /** A length form: fixed below `fixLimit`, then 8 (if the family has it), 16 or 32 bits. */
  function LengthForm(n: nat, fixBase: int, fixLimit: nat, tag8: int, tag16: byte): Form
    requires 0 <= fixBase && fixBase + fixLimit <= 0x100 && -1 <= tag8 <= 0xff && tag16 < 0xff
  {
    if n < fixLimit then Fix(fixBase + n)
    else if tag8 >= 0 && n < 0x100 then Sized(tag8, 1, n)
    else if n < 0x1_0000 then Sized(tag16, 2, n)
    else Sized(tag16 + 1, 4, n)
  }

  function IntForm(i: int64): Form {
    if -32 <= i < 0 then Fix(0x100 + i)
    else if 0 <= i < 0x80 then Fix(i)
    else if -0x80 <= i < 0x80 then Sized(0xd0, 1, Unsigned(i, 0x100))
    else if -0x8000 <= i < 0x8000 then Sized(0xd1, 2, Unsigned(i, 0x1_0000))
    else if -0x8000_0000 <= i < 0x8000_0000 then Sized(0xd2, 4, Unsigned(i, 0x1_0000_0000))
    else Sized(0xd3, 8, Unsigned(i, 0x1_0000_0000_0000_0000))
  }

  function UintForm(u: wide): Form {
    if u < 0x100 then Sized(0xcc, 1, u)
    else if u < 0x1_0000 then Sized(0xcd, 2, u)
    else if u < 0x1_0000_0000 then Sized(0xce, 4, u)
    else Sized(0xcf, 8, u)
  }

  /** Two's complement. */
  function Unsigned(i: int, limit: nat): nat
    requires 0 <= limit + i
  {
    if i >= 0 then i else i + limit
  }

  function Signed(n: nat, limit: nat): int {
    if n < limit / 2 then n else n - limit
  }

  function FormOf(h: Head): Form {
    match h
    case HNil => Fix(0xc0)
    case HBool(b) => Fix(if b then 0xc3 else 0xc2)
    case HInt(i) => IntForm(i)
    case HUint(u) => UintForm(u)
    case HF32(bits) => Sized(0xca, 4, bits)
    case HF64(bits) => Sized(0xcb, 8, bits)
    case HStr(n) => LengthForm(n, 0xa0, 32, 0xd9, 0xda)
    case HBin(n) => LengthForm(n, 0, 0, 0xc4, 0xc5)
    case HArr(n) => LengthForm(n, 0x90, 16, -1, 0xdc)
    case HMap(n) => LengthForm(n, 0x80, 16, -1, 0xde)
    case HExt8(typ) => Sized(0xd7, 1, typ)
  }

  function FormBytes(f: Form): (r: bytes)
    ensures |r| > 0
  {
    match f
    case Fix(b) => [b]
    case Sized(tag, w, n) => [tag] + BigEndian(n, w)
  }

  function HeadBytes(h: Head): (r: bytes)
    ensures |r| > 0
  {
    FormBytes(FormOf(h))
  }

  predicate HeadFits(h: Head) {
    match h
    case HStr(n) => n < U32_LIMIT
    case HBin(n) => n < U32_LIMIT
    case HArr(n) => n < U32_LIMIT
    case HMap(n) => n < U32_LIMIT
    case _ => true
  }

  // Reading.

  /** The number width each format byte announces, from the format table of the specification; 0 for none. */
  function WidthOf(tag: byte): nat {
    match tag
    case 0xc4 => 1 case 0xc5 => 2 case 0xc6 => 4
    case 0xca => 4 case 0xcb => 8
    case 0xcc => 1 case 0xcd => 2 case 0xce => 4 case 0xcf => 8
    case 0xd0 => 1 case 0xd1 => 2 case 0xd2 => 4 case 0xd3 => 8
    case 0xd7 => 1
    case 0xd9 => 1 case 0xda => 2 case 0xdb => 4
    case 0xdc => 2 case 0xdd => 4
    case 0xde => 2 case 0xdf => 4
    case _ => 0
  }

  function FixHead(b: byte): Option<Head> {
    if b < 0x80 then Some(HInt(b))
    else if b < 0x90 then Some(HMap(b - 0x80))
    else if b < 0xa0 then Some(HArr(b - 0x90))
    else if b < 0xc0 then Some(HStr(b - 0xa0))
    else if b == 0xc0 then Some(HNil)
    else if b == 0xc2 || b == 0xc3 then Some(HBool(b == 0xc3))
    else if b >= 0xe0 then Some(HInt(b - 0x100))
    else None
  }

  function SizedHead(tag: byte, n: nat): Option<Head>
    requires n < Limit(WidthOf(tag))
  {
    if 0xc4 <= tag <= 0xc6 then Some(HBin(n))
    else if tag == 0xca then Some(HF32(n))
    else if tag == 0xcb then Some(HF64(n))
    else if 0xcc <= tag <= 0xcf then Some(if n < 0x80 then HInt(n) else HUint(n))
    else if 0xd0 <= tag <= 0xd3 then Some(HInt(Signed(n, Limit(WidthOf(tag)))))
    else if tag == 0xd7 then Some(HExt8(n))
    else if 0xd9 <= tag <= 0xdb then Some(HStr(n))
    else if 0xdc <= tag <= 0xdd then Some(HArr(n))
    else if 0xde <= tag <= 0xdf then Some(HMap(n))
    else None
  }

  function ReadHead(b: bytes): (r: Option<(Head, nat)>)
    ensures r.Some? ==> 0 < r.value.1 <= |b|
  {
    if |b| == 0 then None
    else
      var w := WidthOf(b[0]);
      if w == 0 then
        match FixHead(b[0])
        case None => None
        case Some(h) => Some((h, 1))
      else if |b| < 1 + w then None
      else
        BigValueBound(b[1..1 + w]); LimitExact(w);
        match SizedHead(b[0], BigValue(b[1..1 + w]))
        case None => None
        case Some(h) => Some((h, 1 + w))
  }

  /** Every form the encoder picks is one the table reads back. */
  lemma FormReadable(h: Head)
    requires HeadFits(h)
    ensures match FormOf(h)
      case Fix(b) => WidthOf(b) == 0 && FixHead(b) == Some(h)
      case Sized(tag, w, n) => w > 0 && WidthOf(tag) == w && n < Limit(w) && SizedHead(tag, n) == Some(h)
  {
  }

  lemma HeadRoundTrip(h: Head, rest: bytes)
    requires HeadFits(h)
    ensures ReadHead(HeadBytes(h) + rest) == Some((h, |HeadBytes(h)|))
  {
    hide FormOf, WidthOf, SizedHead, FixHead, BigEndian, BigValue, Limit, Pow256;
    FormReadable(h);
    var b := HeadBytes(h) + rest;
    match FormOf(h)
    case Fix(_) =>
    case Sized(tag, w, n) =>
      assert b[1..1 + w] == BigEndian(n, w);
      LimitExact(w);
      BigRoundTrip(n, w);
  }

  /** The chosen form is the shortest: no header that reads as the same value has fewer bytes. */
  lemma HeadShortest(b: bytes)
    requires ReadHead(b).Some?
    ensures |HeadBytes(ReadHead(b).value.0)| <= ReadHead(b).value.1
  {
    hide BigEndian, BigValue, Pow256;
    var w := WidthOf(b[0]);
    if w == 0 {
      FixShortest(b[0]);
    } else {
      BigValueBound(b[1..1 + w]);
      LimitExact(w);
      SizedShortest(b[0], BigValue(b[1..1 + w]));
    }
  }

  lemma FixShortest(b: byte)
    requires WidthOf(b) == 0 && FixHead(b).Some?
    ensures FormOf(FixHead(b).value).Fix?
  {
  }

  lemma SizedShortest(tag: byte, n: nat)
    requires WidthOf(tag) > 0 && n < Limit(WidthOf(tag)) && SizedHead(tag, n).Some?
    ensures match FormOf(SizedHead(tag, n).value) case Fix(_) => true case Sized(_, w, _) => w <= WidthOf(tag)
  {
  }

  // ---------------------------------------------------------------------------------------
  // Values
  // ---------------------------------------------------------------------------------------

  /** A count or length as the headers carry it. */
  function Cast32(n: nat): nat {
    n % U32_LIMIT
  }

  function HeadOf(v: Val): Head {
    match v
    case Nil => HNil
    case Bool(b) => HBool(b)
    case Int(i) => HInt(i)
    case Uint(u) => HUint(u)
    case F32(bits) => HF32(bits)
    case F64(bits) => HF64(bits)
    case Str(s) => HStr(|s|)
    case Bin(data) => HBin(|data|)
    case Ext8(typ, _) => HExt8(typ)
    case Arr(vs) => HArr(Cast32(|vs|))
    case Map(ps) => HMap(Cast32(|ps|))
  }

  function Enc(v: Val): (r: bytes)
    ensures |r| > 0
    decreases v, 1
  {
    HeadBytes(HeadOf(v)) + Body(v)
  }

  function Body(v: Val): bytes
    decreases v, 0
  {
    match v
    case Str(s) => s
    case Bin(data) => data
    case Ext8(_, payload) => payload
    case Arr(vs) => EncMany(vs)
    case Map(ps) => EncPairs(ps)
    case _ => []
  }

  function EncMany(vs: seq<Val>): (r: bytes)
    ensures |r| >= |vs|
    decreases vs, 0
  {
    if |vs| == 0 then [] else Enc(vs[0]) + EncMany(vs[1..])
  }

  function EncPairs(ps: seq<Pair>): (r: bytes)
    ensures |r| >= |ps|
    decreases ps, 0
  {
    if |ps| == 0 then [] else EncPair(ps[0]) + EncPairs(ps[1..])
  }

  function EncKey(key: bytes): (r: bytes)
    ensures |r| > |key|
  {
    HeadBytes(HStr(|key|)) + key
  }

  function EncPair(p: Pair): (r: bytes)
    ensures |r| > |p.key|
    decreases p, 2
  {
    EncKey(p.key) + Enc(p.value)
  }

  lemma {:induction false} EncManyConcat(a: seq<Val>, b: seq<Val>)
    ensures EncMany(a + b) == EncMany(a) + EncMany(b)
  {
    hide Enc;
    if |a| == 0 {
      assert a + b == b;
    } else {
      assert (a + b)[1..] == a[1..] + b;
      EncManyConcat(a[1..], b);
    }
  }

  lemma {:induction false} EncPairsConcat(a: seq<Pair>, b: seq<Pair>)
    ensures EncPairs(a + b) == EncPairs(a) + EncPairs(b)
  {
    hide EncPair;
    if |a| == 0 {
      assert a + b == b;
    } else {
      assert (a + b)[1..] == a[1..] + b;
      EncPairsConcat(a[1..], b);
    }
  }

  lemma EncManySnoc(vs: seq<Val>, v: Val)
    ensures EncMany(vs + [v]) == EncMany(vs) + Enc(v)
  {
    hide Enc;
    EncManyConcat(vs, [v]);
    assert EncMany([v]) == Enc(v) + EncMany([]);
  }

  lemma EncPairsSnoc(ps: seq<Pair>, p: Pair)
    ensures EncPairs(ps + [p]) == EncPairs(ps) + EncKey(p.key) + Enc(p.value)
  {
    hide Enc, EncKey;
    EncPairsConcat(ps, [p]);
    assert EncPairs([p]) == EncPair(p) + EncPairs([]);
  }

  // ---------------------------------------------------------------------------------------
  // Decoding
  // ---------------------------------------------------------------------------------------

  function Decode(b: bytes): (r: Option<(Val, bytes)>)
    ensures r.Some? ==> |r.value.1| < |b|
    decreases |b|, 0
  {
    match ReadHead(b)
    case None => None
    case Some((h, k)) =>
      var tail := b[k..];
      match h
      case HNil => Some((Nil, tail))
      case HBool(x) => Some((Bool(x), tail))
      case HInt(i) => Some((Int(i), tail))
      case HUint(u) => Some((Uint(u), tail))
      case HF32(bits) => Some((F32(bits), tail))
      case HF64(bits) => Some((F64(bits), tail))
      case HStr(n) => if |tail| < n then None else Some((Str(tail[..n]), tail[n..]))
      case HBin(n) => if |tail| < n then None else Some((Bin(tail[..n]), tail[n..]))
      case HExt8(t) => if |tail| < 8 then None else Some((Ext8(t, tail[..8]), tail[8..]))
      case HArr(n) =>
        (match DecodeMany(tail, n)
         case None => None
         case Some((vs, rest)) => Some((Arr(vs), rest)))
      case HMap(n) =>
        (match DecodePairs(tail, n)
         case None => None
         case Some((ps, rest)) => Some((Map(ps), rest)))
  }

  function DecodeMany(b: bytes, n: nat): (r: Option<(seq<Val>, bytes)>)
    ensures r.Some? ==> |r.value.1| <= |b|
    decreases |b|, 1
  {
    if n == 0 then Some(([], b))
    else
      match Decode(b)
      case None => None
      case Some((v, rest)) =>
        match DecodeMany(rest, n - 1)
        case None => None
        case Some((vs, rest')) => Some(([v] + vs, rest'))
  }

  function DecodePairs(b: bytes, n: nat): (r: Option<(seq<Pair>, bytes)>)
    ensures r.Some? ==> |r.value.1| <= |b|
    decreases |b|, 1
  {
    if n == 0 then Some(([], b))
    else
      match DecodePair(b)
      case None => None
      case Some((p, rest)) =>
        match DecodePairs(rest, n - 1)
        case None => None
        case Some((ps, rest')) => Some(([p] + ps, rest'))
  }

  /** A key, which is a string, and its value. */
  function DecodePair(b: bytes): (r: Option<(Pair, bytes)>)
    ensures r.Some? ==> |r.value.1| < |b|
    decreases |b|, 0, 0
  {
    match ReadHead(b)
    case Some((HStr(n), k)) =>
      if |b| < k + n then None
      else
        (match Decode(b[k + n..])
         case None => None
         case Some((v, rest)) => Some((Pair(b[k..k + n], v), rest)))
    case _ => None
  }

  /** Every length and count fits 32 bits. */
  predicate Small(v: Val)
    decreases v, 1
  {
    match v
    case Str(s) => |s| < U32_LIMIT
    case Bin(data) => |data| < U32_LIMIT
    case Arr(vs) => |vs| < U32_LIMIT && AllSmall(vs)
    case Map(ps) => |ps| < U32_LIMIT && PairsSmall(ps)
    case _ => true
  }

  predicate AllSmall(vs: seq<Val>)
    decreases vs, 0
  {
    |vs| == 0 || (Small(vs[0]) && AllSmall(vs[1..]))
  }

  predicate PairsSmall(ps: seq<Pair>)
    decreases ps, 0
  {
    |ps| == 0 || (|ps[0].key| < U32_LIMIT && SmallPair(ps[0]) && PairsSmall(ps[1..]))
  }

  predicate SmallPair(p: Pair)
    decreases p, 2
  {
    Small(p.value)
  }

  lemma TakeFront(a: bytes, b: bytes, rest: bytes)
    ensures (a + b + rest)[|a|..] == b + rest
    ensures (b + rest)[..|b|] == b && (b + rest)[|b|..] == rest
    ensures (a + b + rest)[|a|..|a| + |b|] == b && (a + b + rest)[|a| + |b|..] == rest
    ensures a + b + rest == a + (b + rest)
  {
  }

  /**
    Decoding undoes encoding, and an encoded value says itself where it ends: whatever follows it
    is left over untouched.
  */
  lemma {:induction false} RoundTrip(v: Val, rest: bytes)
    requires Small(v)
    ensures Decode(Enc(v) + rest) == Some((v, rest))
    decreases v, 1
  {
    hide HeadBytes, ReadHead, Body, EncMany, EncPairs;
    var h := HeadBytes(HeadOf(v));
    HeadRoundTrip(HeadOf(v), Body(v) + rest);
    TakeFront(h, Body(v), rest);
    match v
    case Arr(vs) => BodyArr(vs); ManyRoundTrip(vs, rest);
    case Map(ps) => BodyMap(ps); PairsRoundTrip(ps, rest);
    case Str(s) => BodyStr(v);
    case Bin(_) => BodyStr(v);
    case Ext8(_, _) => BodyStr(v);
    case _ => BodyStr(v);
  }

  lemma CastSmall(n: nat)
    ensures n < U32_LIMIT ==> Cast32(n) == n
  {
  }

  lemma BodyArr(vs: seq<Val>)
    ensures Body(Arr(vs)) == EncMany(vs) && (|vs| < U32_LIMIT ==> Cast32(|vs|) == |vs|)
  {
    hide Enc, EncMany, EncPairs;
    CastSmall(|vs|);
  }

  lemma BodyMap(ps: seq<Pair>)
    ensures Body(Map(ps)) == EncPairs(ps) && (|ps| < U32_LIMIT ==> Cast32(|ps|) == |ps|)
  {
    hide Enc, EncMany, EncPairs;
    CastSmall(|ps|);
  }

  lemma BodyStr(v: Val)
    requires !v.Arr? && !v.Map?
    ensures Body(v) == match v
      case Str(s) => s
      case Bin(data) => data
      case Ext8(_, payload) => payload
      case _ => []
  {
  }

  lemma {:induction false} ManyRoundTrip(vs: seq<Val>, rest: bytes)
    requires AllSmall(vs)
    ensures DecodeMany(EncMany(vs) + rest, |vs|) == Some((vs, rest))
    decreases vs, 0
  {
    hide Enc, Decode, Small;
    if |vs| == 0 {
      assert EncMany(vs) + rest == rest;
    } else {
      Assoc(Enc(vs[0]), EncMany(vs[1..]), rest);
      RoundTrip(vs[0], EncMany(vs[1..]) + rest);
      ManyRoundTrip(vs[1..], rest);
      assert [vs[0]] + vs[1..] == vs;
    }
  }

  lemma {:induction false} PairsRoundTrip(ps: seq<Pair>, rest: bytes)
    requires PairsSmall(ps)
    ensures DecodePairs(EncPairs(ps) + rest, |ps|) == Some((ps, rest))
    decreases ps, 0
  {
    hide EncPair, DecodePair, SmallPair;
    if |ps| == 0 {
      assert EncPairs(ps) + rest == rest;
    } else {
      Assoc(EncPair(ps[0]), EncPairs(ps[1..]), rest);
      PairRoundTrip(ps[0], EncPairs(ps[1..]) + rest);
      PairsRoundTrip(ps[1..], rest);
      assert [ps[0]] + ps[1..] == ps;
    }
  }

  lemma {:induction false} PairRoundTrip(p: Pair, rest: bytes)
    requires |p.key| < U32_LIMIT && SmallPair(p)
    ensures DecodePair(EncPair(p) + rest) == Some((p, rest))
    decreases p, 2
  {
    hide HeadBytes, ReadHead, Enc, Decode, Small;
    var h := HeadBytes(HStr(|p.key|));
    var tail := Enc(p.value) + rest;
    assert EncPair(p) + rest == h + p.key + tail;
    TakeFront(h, p.key, tail);
    HeadRoundTrip(HStr(|p.key|), p.key + tail);
    RoundTrip(p.value, rest);
  }

  // What a decoder can return at all: no header announces more than 32 bits.

  lemma ReadHeadFits(b: bytes)
    ensures ReadHead(b).Some? ==> HeadFits(ReadHead(b).value.0)
  {
    hide BigValue, Pow256;
    if |b| > 0 && WidthOf(b[0]) > 0 && |b| >= 1 + WidthOf(b[0]) {
      BigValueBound(b[1..1 + WidthOf(b[0])]);
      LimitExact(WidthOf(b[0]));
      SizedFits(b[0], BigValue(b[1..1 + WidthOf(b[0])]));
    }
  }

  lemma SizedFits(tag: byte, n: nat)
    requires n < Limit(WidthOf(tag))
    ensures SizedHead(tag, n).Some? ==> HeadFits(SizedHead(tag, n).value)
  {
  }

  lemma {:induction false} DecodedSmall(b: bytes)
    ensures Decode(b).Some? ==> Small(Decode(b).value.0)
    decreases |b|, 0
  {
    hide ReadHead, AllSmall, PairsSmall;
    ReadHeadFits(b);
    match ReadHead(b)
    case None =>
    case Some((h, k)) =>
      match h
      case HArr(n) => DecodedManySmall(b[k..], n);
      case HMap(n) => DecodedPairsSmall(b[k..], n);
      case _ =>
  }

  lemma {:induction false} DecodedManySmall(b: bytes, n: nat)
    ensures DecodeMany(b, n).Some? ==> AllSmall(DecodeMany(b, n).value.0) && |DecodeMany(b, n).value.0| == n
    decreases |b|, 1
  {
    hide Decode, Small;
    if n > 0 {
      DecodedSmall(b);
      match Decode(b)
      case None =>
      case Some((v, rest)) => DecodedManySmall(rest, n - 1);
    }
  }

  lemma {:induction false} DecodedPairsSmall(b: bytes, n: nat)
    ensures DecodePairs(b, n).Some? ==> PairsSmall(DecodePairs(b, n).value.0) && |DecodePairs(b, n).value.0| == n
    decreases |b|, 1
  {
    hide DecodePair, SmallPair;
    if n > 0 {
      DecodedPairSmall(b);
      match DecodePair(b)
      case None =>
      case Some((p, rest)) => DecodedPairsSmall(rest, n - 1);
    }
  }

  lemma {:induction false} DecodedPairSmall(b: bytes)
    ensures DecodePair(b).Some? ==> |DecodePair(b).value.0.key| < U32_LIMIT && SmallPair(DecodePair(b).value.0)
    decreases |b|, 0, 0
  {
    hide ReadHead, Decode, Small;
    ReadHeadFits(b);
    match ReadHead(b)
    case Some((HStr(n), k)) => if |b| >= k + n { DecodedSmall(b[k + n..]); }
    case _ =>
  }

  /** The exact condition: an encoded value comes back if and only if every length and count in it fits 32 bits. */
  lemma RoundTripExact(v: Val, rest: bytes)
    ensures Decode(Enc(v) + rest) == Some((v, rest)) <==> Small(v)
  {
    hide Enc, Decode, Small;
    if Small(v) { RoundTrip(v, rest); }
    DecodedSmall(Enc(v) + rest);
  }

  /** A value whose encoding is below 4 GiB has no length that could be truncated. */
  lemma {:induction false} ShortIsSmall(v: Val)
    requires |Enc(v)| < U32_LIMIT
    ensures Small(v)
    decreases v, 1
  {
    hide HeadBytes;
    match v
    case Arr(vs) => ShortMany(vs);
    case Map(ps) => ShortPairs(ps);
    case _ =>
  }

  lemma {:induction false} ShortMany(vs: seq<Val>)
    requires |EncMany(vs)| < U32_LIMIT
    ensures |vs| < U32_LIMIT && AllSmall(vs)
    decreases vs, 0
  {
    hide Enc, Small;
    if |vs| > 0 {
      ShortIsSmall(vs[0]);
      ShortMany(vs[1..]);
    }
  }

  lemma {:induction false} ShortPairs(ps: seq<Pair>)
    requires |EncPairs(ps)| < U32_LIMIT
    ensures |ps| < U32_LIMIT && PairsSmall(ps)
    decreases ps, 0
  {
    hide EncPair, SmallPair;
    if |ps| > 0 {
      ShortPair(ps[0]);
      ShortPairs(ps[1..]);
    }
  }

  lemma {:induction false} ShortPair(p: Pair)
    requires |EncPair(p)| < U32_LIMIT
    ensures |p.key| < U32_LIMIT && SmallPair(p)
    decreases p, 2
  {
    hide Enc, Small;
    ShortIsSmall(p.value);
  }

  // ---------------------------------------------------------------------------------------
  // Streams of values
  // ---------------------------------------------------------------------------------------

  /** A byte stream cut at the value boundaries. */
  function Split(b: bytes): Option<seq<bytes>>
    decreases |b|
  {
    if |b| == 0 then Some([])
    else
      match Decode(b)
      case None => None
      case Some((_, rest)) =>
        match Split(rest)
        case None => None
        case Some(parts) => Some([b[..|b| - |rest|]] + parts)
  }

  function Concat(parts: seq<bytes>): bytes {
    if |parts| == 0 then [] else parts[0] + Concat(parts[1..])
  }

  /** One complete value and nothing else. */
  ghost predicate OneValue(p: bytes) {
    exists v :: Small(v) && Enc(v) == p
  }

  /** Cutting a stream of encoded values gives back exactly the values' bytes, in order. */
  lemma {:induction false} SplitConcat(parts: seq<bytes>)
    requires forall i :: 0 <= i < |parts| ==> OneValue(parts[i])
    ensures Split(Concat(parts)) == Some(parts)
  {
    hide Decode, Enc, Small;
    if |parts| > 0 {
      assert OneValue(parts[0]);
      var v :| Small(v) && Enc(v) == parts[0];
      var tail := Concat(parts[1..]);
      RoundTrip(v, tail);
      SplitConcat(parts[1..]);
      assert (parts[0] + tail)[..|parts[0]|] == parts[0];
      assert [parts[0]] + parts[1..] == parts;
    }
  }
}
