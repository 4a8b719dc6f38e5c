/**
  Messages that are cut short or hold a wire type nobody defined: the scanners of otlp/proto.go notice
  it at every byte, and have read exactly the fields before it.
*/
module Truncation {
  import opened Wire

  lemma {:induction false} ReadFromCut(v: nat, i: nat, k: nat)
    requires i <= 10 && k < |Uvarint(v)|
    ensures ReadFrom(Uvarint(v)[..k], i) == None
  {
    if k > 0 && i < 10 {
      assert Uvarint(v)[..k][1..] == Uvarint(v / 0x80)[..k - 1];
      ReadFromCut(v / 0x80, i + 1, k - 1);
    }
  }

  /** No proper beginning of a number is one. */
  lemma VarintCut(v: nat, k: nat)
    requires k < |Uvarint(v)|
    ensures ReadUvarint(Uvarint(v)[..k]) == Bad
  {
    ReadFromCut(v, 0, k);
  }

  lemma BodyCut(f: Field, k: nat)
    requires Encodable(f) && k < |FieldBody(f)|
    ensures TakeBody(f.num, WireType(f), FieldBody(f)[..k]) == None
  {
    hide ReadUvarint, Uvarint, LittleEndian, LittleEndianValue;
    match f
    case VarintF(_, n) => VarintCut(n, k);
    case Fixed64F(_, _) =>
    case Fixed32F(_, _) =>
    case LenF(_, p) =>
      var head := Uvarint(|p|);
      if k < |head| {
        assert FieldBody(f)[..k] == head[..k];
        VarintCut(|p|, k);
      } else {
        assert FieldBody(f)[..k] == head + p[..k - |head|];
        VarintRoundTrip(|p|, p[..k - |head|]);
      }
  }

  /** No proper beginning of a field is one. */
  lemma FieldCut(f: Field, k: nat)
    requires Encodable(f) && k < |EncodeField(f)|
    ensures TakeField(EncodeField(f)[..k]) == None
  {
    hide ReadUvarint, Uvarint, FieldBody, TakeBody;
    var head := Uvarint(8 * f.num + WireType(f));
    if k < |head| {
      assert EncodeField(f)[..k] == head[..k];
      VarintCut(8 * f.num + WireType(f), k);
    } else {
      var body := FieldBody(f)[..k - |head|];
      assert EncodeField(f)[..k] == head + body;
      VarintRoundTrip(8 * f.num + WireType(f), body);
      assert (head + body)[|head|..] == body;
      BodyCut(f, k - |head|);
    }
  }

  /**
    A message cut anywhere: the whole fields before the cut have been read, and it passes for complete
    exactly when the cut lies between two fields.
  */
  lemma {:induction false} CutDetected(fs: seq<Field>, k: nat) returns (j: nat)
    requires forall i :: 0 <= i < |fs| ==> Encodable(fs[i])
    requires k <= |EncodeFields(fs)|
    ensures j <= |fs| && Scan(EncodeFields(fs)[..k]).fields == fs[..j]
    ensures |EncodeFields(fs[..j])| <= k && (j < |fs| ==> k < |EncodeFields(fs[..j + 1])|)
    ensures Scan(EncodeFields(fs)[..k]).complete <==> k == |EncodeFields(fs[..j])|
  {
    hide EncodeField, TakeField, Encodable;
    if k == 0 {
      j := 0;
      if |fs| > 0 { OneField(fs); }
    } else {
      var first := EncodeField(fs[0]);
      if k < |first| {
        j := 0;
        assert EncodeFields(fs)[..k] == first[..k];
        FieldCut(fs[0], k);
        OneField(fs);
      } else {
        var tail := EncodeFields(fs[1..])[..k - |first|];
        assert EncodeFields(fs)[..k] == first + tail;
        TakeFieldEncoded(fs[0], tail);
        var i := CutDetected(fs[1..], k - |first|);
        j := i + 1;
        FirstOf(fs, i);
        if i + 1 < |fs| { FirstOf(fs, i + 1); }
      }
    }
  }

  lemma OneField(fs: seq<Field>)
    requires |fs| > 0
    ensures EncodeFields(fs[..1]) == EncodeField(fs[0])
  {
    assert fs[..1][1..] == [];
    assert EncodeFields(fs[..1]) == EncodeField(fs[0]) + EncodeFields([]);
  }

  lemma FirstOf(fs: seq<Field>, i: nat)
    requires i < |fs|
    ensures fs[..i + 1] == [fs[0]] + fs[1..][..i]
    ensures EncodeFields(fs[..i + 1]) == EncodeField(fs[0]) + EncodeFields(fs[1..][..i])
  {
    assert fs[..i + 1][1..] == fs[1..][..i];
  }

  /** A wire type without a meaning ends the scan as an error, behind whatever fields came before. */
  lemma {:induction false} UnknownWireType(fs: seq<Field>, num: nat, wt: nat, rest: bytes)
    requires forall i :: 0 <= i < |fs| ==> Encodable(fs[i])
    requires 8 * num + 7 < U64_LIMIT && (wt == 3 || wt == 4 || wt == 6 || wt == 7)
    ensures Scan(EncodeFields(fs) + (Uvarint(8 * num + wt) + rest)) == Parsed(fs, false)
  {
    hide EncodeField, TakeField, Encodable, Uvarint;
    var bad := Uvarint(8 * num + wt) + rest;
    if |fs| == 0 {
      assert EncodeFields(fs) + bad == bad;
      assert TakeField(bad) == None by { NoField(num, wt, rest); }
      assert |bad| > 0 by { VarintRoundTrip(8 * num + wt, rest); }
    } else {
      var tail := EncodeFields(fs[1..]) + bad;
      assert EncodeFields(fs) + bad == EncodeField(fs[0]) + tail;
      TakeFieldEncoded(fs[0], tail);
      UnknownWireType(fs[1..], num, wt, rest);
      assert [fs[0]] + fs[1..] == fs;
    }
  }

  lemma NoField(num: nat, wt: nat, rest: bytes)
    requires 8 * num + 7 < U64_LIMIT && (wt == 3 || wt == 4 || wt == 6 || wt == 7)
    ensures TakeField(Uvarint(8 * num + wt) + rest) == None
  {
    hide Uvarint, ReadUvarint;
    VarintRoundTrip(8 * num + wt, rest);
  }
}
