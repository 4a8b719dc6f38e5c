/**
  The PackedForward framer of fluent/framer.go: `[tag, <entries bin>, {"size": N}]`.
*/
module FluentFramer {
  import opened Wire
  import opened MsgPack

  datatype Framed = Framed(dst: bytes) | TooBig(total: nat)

  function Total(payloads: seq<bytes>): nat {
    if |payloads| == 0 then 0 else Total(payloads[..|payloads| - 1]) + |payloads[|payloads| - 1]|
  }

  /** The message a frame stands for. */
  function Message(tag: bytes, payloads: seq<bytes>): Val
    requires |payloads| < 0x8000_0000_0000_0000
  {
    Arr([Str(tag), Bin(Concat(payloads)), Map([Pair(Ascii("size"), Int(|payloads|))])])
  }

  lemma {:induction false} ConcatSnoc(parts: seq<bytes>, p: bytes)
    ensures Concat(parts + [p]) == Concat(parts) + p
  {
    if |parts| == 0 {
      assert parts + [p] == [p] && [p][1..] == [];
      assert Concat([p]) == p + Concat([]);
    } else {
      assert (parts + [p])[1..] == parts[1..] + [p];
      ConcatSnoc(parts[1..], p);
    }
  }

  lemma {:induction false} TotalExact(payloads: seq<bytes>)
    ensures |Concat(payloads)| == Total(payloads)
  {
    if |payloads| > 0 {
      var init, last := payloads[..|payloads| - 1], payloads[|payloads| - 1];
      TotalExact(init);
      ConcatSnoc(init, last);
      assert init + [last] == payloads;
    }
  }

  method AppendBinHeader(b: bytes, n: nat) returns (r: bytes)
    ensures r == b + HeadBytes(HBin(n))
  {
    hide BigEndian;
    if n < 0x100 {
      OneByte(n);
      r := b + [0xc4, n];
    } else if n < 0x1_0000 {
      r := b + [0xc5] + BigEndian(n, 2);
    } else {
      r := b + [0xc6] + BigEndian(n, 4);
    }
  }

  lemma OneByte(n: byte)
    ensures BigEndian(n, 1) == [n]
  {
    assert BigEndian(n, 1) == BigEndian(n / 0x100, 0) + [n % 0x100];
  }

  lemma MessageBytes(tag: bytes, payloads: seq<bytes>)
    requires |payloads| < 0x8000_0000_0000_0000
    ensures Enc(Message(tag, payloads))
         == HeadBytes(HArr(3)) + Enc(Str(tag)) + HeadBytes(HBin(|Concat(payloads)|)) + Concat(payloads)
            + HeadBytes(HMap(1)) + EncKey(Ascii("size")) + Enc(Int(|payloads|))
  {
    hide HeadBytes, Enc, EncKey;
    var a, b, size := Str(tag), Bin(Concat(payloads)), Pair(Ascii("size"), Int(|payloads|));
    var c := Map([size]);
    Three(a, b, c);
    BinBytes(Concat(payloads));
    OnePair(size);
    assert Enc(a) + Enc(b) + Enc(c)
        == Enc(a) + (HeadBytes(HBin(|Concat(payloads)|)) + Concat(payloads))
            + (HeadBytes(HMap(1)) + (EncKey(size.key) + Enc(size.value)));
  }

  lemma Three(a: Val, b: Val, c: Val)
    ensures Enc(Arr([a, b, c])) == HeadBytes(HArr(3)) + (Enc(a) + Enc(b) + Enc(c))
  {
    hide HeadBytes;
    var all := EncMany([a, b, c]);
    assert Enc(Arr([a, b, c])) == HeadBytes(HArr(3)) + all;
    EncManySnoc([a, b], c);
    EncManySnoc([a], b);
    EncManySnoc([], a);
    assert [] + [a] == [a] && [a] + [b] == [a, b] && [a, b] + [c] == [a, b, c];
    assert EncMany([]) == [];
  }

  lemma BinBytes(data: bytes)
    ensures Enc(Bin(data)) == HeadBytes(HBin(|data|)) + data
  {
    hide HeadBytes;
  }

  lemma OnePair(p: Pair)
    ensures Enc(Map([p])) == HeadBytes(HMap(1)) + (EncKey(p.key) + Enc(p.value))
  {
    hide HeadBytes, EncKey;
    EncPairsSnoc([], p);
    assert [] + [p] == [p];
    assert EncPairs([]) == [];
    assert EncPairs([p]) == EncKey(p.key) + Enc(p.value);
  }

  /**
    `Frame`: refuses a batch exactly when its entries exceed a bin32, and then leaves `dst` to the
    caller unchanged; otherwise appends the encoded message.
  */
  method Frame(tag: bytes, dst: bytes, payloads: seq<bytes>) returns (r: Framed)
    requires |payloads| < 0x8000_0000_0000_0000
    ensures r.TooBig? <==> Total(payloads) > 0xffff_ffff
    ensures r.Framed? ==> r.dst == dst + Enc(Message(tag, payloads))
  {
    hide Enc, EncKey, HeadBytes;
    var total := 0;
    for i := 0 to |payloads|
      invariant total == Total(payloads[..i])
    {
      assert payloads[..i + 1][..i] == payloads[..i];
      total := total + |payloads[i]|;
    }
    assert payloads[..|payloads|] == payloads;
    if total > 0xffff_ffff { return TooBig(total); }
    TotalExact(payloads);
    var head := dst + HeadBytes(HArr(3));
    head := head + Enc(Str(tag));
    head := AppendBinHeader(head, total);
    var out := head;
    for i := 0 to |payloads|
      invariant out == head + Concat(payloads[..i])
    {
      assert payloads[..i + 1] == payloads[..i] + [payloads[i]];
      ConcatSnoc(payloads[..i], payloads[i]);
      out := out + payloads[i];
    }
    assert payloads[..|payloads|] == payloads;
    out := out + HeadBytes(HMap(1));
    out := out + EncKey(Ascii("size"));
    out := out + Enc(Int(|payloads|));
    MessageBytes(tag, payloads);
    r := Framed(out);
    assert out == dst + Enc(Message(tag, payloads)) by { Regroup(tag, dst, payloads); }
  }

  lemma Regroup(tag: bytes, dst: bytes, payloads: seq<bytes>)
    requires |payloads| < 0x8000_0000_0000_0000
    ensures dst + HeadBytes(HArr(3)) + Enc(Str(tag)) + HeadBytes(HBin(|Concat(payloads)|)) + Concat(payloads)
            + HeadBytes(HMap(1)) + EncKey(Ascii("size")) + Enc(Int(|payloads|))
         == dst + Enc(Message(tag, payloads))
  {
    hide Enc, EncKey, HeadBytes;
    MessageBytes(tag, payloads);
    Assoc8(dst, HeadBytes(HArr(3)), Enc(Str(tag)), HeadBytes(HBin(|Concat(payloads)|)), Concat(payloads),
           HeadBytes(HMap(1)), EncKey(Ascii("size")), Enc(Int(|payloads|)));
  }

  lemma Assoc8(a: bytes, b: bytes, c: bytes, d: bytes, e: bytes, f: bytes, g: bytes, h: bytes)
    ensures a + b + c + d + e + f + g + h == a + (b + c + d + e + f + g + h)
  {
  }

  /** What the native encoder hands over: the encoding of some value. */
  ghost predicate Native(p: bytes) {
    exists v :: Enc(v) == p
  }

  lemma ShortNative(p: bytes)
    requires Native(p) && |p| < U32_LIMIT
    ensures OneValue(p)
  {
    hide Enc, Small;
    var v :| Enc(v) == p;
    ShortIsSmall(v);
  }

  lemma {:induction false} WithinTotal(payloads: seq<bytes>, i: nat)
    requires i < |payloads|
    ensures |payloads[i]| <= Total(payloads)
  {
    if i < |payloads| - 1 { WithinTotal(payloads[..|payloads| - 1], i); }
  }

  /**
    What a receiver gets from an accepted batch: the entry count and, cutting the bin at value
    boundaries, exactly the payloads in order; the next frame on the connection starts where this
    one ends.  The message comes back, tag included, if and only if the tag is shorter than 4 GiB:
    the code checks the entries but not the tag, whose length is cut to 32 bits.
  */
  lemma FrameDecodes(tag: bytes, payloads: seq<bytes>, rest: bytes)
    requires Total(payloads) <= 0xffff_ffff && |payloads| < 0x8000_0000_0000_0000
    requires forall i :: 0 <= i < |payloads| ==> Native(payloads[i])
    ensures
      var size := Pair([0x73, 0x69, 0x7a, 0x65], Int(|payloads|));
      var message := Arr([Str(tag), Bin(Concat(payloads)), Map([size])]);
      Decode(Enc(Message(tag, payloads)) + rest) == Some((message, rest)) <==> |tag| < U32_LIMIT
    ensures Split(Concat(payloads)) == Some(payloads)
  {
    hide Enc, Decode, Concat, OneValue, Native, Split, Small;
    TotalExact(payloads);
    forall i | 0 <= i < |payloads| ensures OneValue(payloads[i]) {
      WithinTotal(payloads, i);
      ShortNative(payloads[i]);
    }
    SplitConcat(payloads);
    SmallMessage(tag, payloads);
    assert Ascii("size") == [0x73, 0x69, 0x7a, 0x65];
    RoundTripExact(Message(tag, payloads), rest);
  }

  lemma SmallMessage(tag: bytes, payloads: seq<bytes>)
    requires |Concat(payloads)| < U32_LIMIT && |payloads| < 0x8000_0000_0000_0000
    ensures Small(Message(tag, payloads)) <==> |tag| < U32_LIMIT
  {
    hide Concat;
    var size := Pair(Ascii("size"), Int(|payloads|));
    assert Small(size.value) && SmallPair(size) && [size][1..] == [];
    assert PairsSmall([]);
    assert PairsSmall([size]);
    var a, b, c := Str(tag), Bin(Concat(payloads)), Map([size]);
    assert [a, b, c][1..] == [b, c] && [b, c][1..] == [c] && [c][1..] == [];
    assert AllSmall([]);
    assert Small(c) && AllSmall([c]);
    assert Small(b) && AllSmall([b, c]);
    assert Small(a) <==> AllSmall([a, b, c]);
  }
}
