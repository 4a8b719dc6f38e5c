/**
  When the transcoder of otlp/json.go succeeds: exactly on the messages that parse to their end, hold
  only fields of the schema with their wire types, and so on down into every nested message it prints.
*/
module JsonErrors {
  import opened Wire
  import opened Json

  /** Among the fields of a message, one the transcoder prints: of a field that is not repeated only the last. */
  predicate Printed(fs: seq<Field>, i: nat, sid: Schema)
    requires i < |fs| && AllTyped(fs, sid)
  {
    Lookup(sid, fs[i].num).value.repeated || forall j :: i < j < |fs| ==> fs[j].num != fs[i].num
  }

  predicate IsMessage(f: Field, sid: Schema)
    requires FieldTyped(f, sid)
  {
    Lookup(sid, f.num).value.kind.JMsg?
  }

  lemma MessagePayload(f: Field, sid: Schema)
    requires FieldTyped(f, sid) && IsMessage(f, sid)
    ensures f.LenF?
  {
  }

  lemma {:induction false} ScanShort(b: bytes)
    ensures AllShort(Scan(b).fields, |b|)
    decreases |b|
  {
    hide TakeField;
    if |b| > 0 && TakeField(b).Some? { ScanShort(TakeField(b).value.1); }
  }

  /** The messages there is JSON for. */
  predicate Sound(b: bytes, sid: Schema)
    decreases |b|
  {
    var fs := Scan(b).fields;
    && Scan(b).complete && AllTyped(fs, sid)
    && forall i :: 0 <= i < |fs| && Printed(fs, i, sid) && IsMessage(fs[i], sid) ==>
         && (MessagePayload(fs[i], sid); ScanShort(b); |fs[i].payload| < |b|)
         && Sound(fs[i].payload, Lookup(sid, fs[i].num).value.kind.sub)
  }

  // ---------------------------------------------------------------------------------------
  // Scanning
  // ---------------------------------------------------------------------------------------

  /** One field is taken exactly when the reference parser takes it and it is of the schema. */
  lemma TakeTypedExact(b: bytes, sid: Schema)
    ensures TakeTyped(b, sid).Fine? <==> TakeField(b).Some? && FieldTyped(TakeField(b).value.0, sid)
    ensures TakeTyped(b, sid).Fine? ==> TakeTyped(b, sid).value == TakeField(b).value
  {
    hide ReadUvarint, Lookup, WireTypeFor;
  }

  /** A message is scanned exactly when it parses to its end and all its fields are of the schema. */
  lemma {:induction false} ScanTypedExact(b: bytes, sid: Schema)
    ensures ScanTyped(b, sid).Fine? <==> Scan(b).complete && AllTyped(Scan(b).fields, sid)
    ensures ScanTyped(b, sid).Fine? ==> ScanTyped(b, sid).value == Scan(b).fields
    decreases |b|
  {
    hide TakeTyped, TakeField, FieldTyped;
    if |b| > 0 {
      TakeTypedExact(b, sid);
      if TakeField(b).Some? {
        var (f, rest) := TakeField(b).value;
        ScanTypedExact(rest, sid);
        assert Scan(b).fields == [f] + Scan(rest).fields;
        if AllTyped(Scan(b).fields, sid) {
          assert FieldTyped(Scan(b).fields[0], sid);
          forall i | 0 <= i < |Scan(rest).fields| ensures FieldTyped(Scan(rest).fields[i], sid) {
            assert Scan(b).fields[i + 1] == Scan(rest).fields[i];
          }
        }
      }
    }
  }

  // ---------------------------------------------------------------------------------------
  // Emitting
  // ---------------------------------------------------------------------------------------

  lemma {:induction false} SelectMember(fs: seq<Field>, num: nat, f: Field)
    ensures f in Select(fs, num) <==> f in fs && f.num == num
  {
    if |fs| > 0 {
      SelectMember(fs[..|fs| - 1], num, f);
      assert fs == fs[..|fs| - 1] + [fs[|fs| - 1]];
    }
  }

  /** The last field with a number. */
  lemma {:induction false} SelectLast(fs: seq<Field>, num: nat) returns (i: nat)
    requires |Select(fs, num)| > 0
    ensures i < |fs| && fs[i].num == num && fs[i] == Select(fs, num)[|Select(fs, num)| - 1]
    ensures forall j :: i < j < |fs| ==> fs[j].num != num
  {
    if fs[|fs| - 1].num == num {
      i := |fs| - 1;
    } else {
      i := SelectLast(fs[..|fs| - 1], num);
    }
  }

  lemma InFront<T>(s: seq<T>, x: T)
    requires |s| > 0
    ensures x in s <==> x == s[0] || x in s[1..]
  {
    assert s == [s[0]] + s[1..];
  }

  lemma {:induction false} ValuesFine(vals: seq<Field>, sid: Schema, bound: nat, fl: FloatText)
    requires AllTyped(vals, sid) && AllShort(vals, bound)
    ensures ValuesJson(vals, sid, bound, fl).Fine?
        <==> forall f :: f in vals ==> ValueJson(f, sid, bound, fl).Fine?
    decreases |vals|
  {
    hide ValueJson, FieldTyped;
    if |vals| > 0 {
      ValuesFine(vals[1..], sid, bound, fl);
      forall f ensures f in vals <==> f == vals[0] || f in vals[1..] { InFront(vals, f); }
      assert vals[0] in vals;
    }
  }

  lemma {:induction false} EntriesFine(
    fs: seq<Field>, order: seq<nat>, sid: Schema, bound: nat, fl: FloatText)
    requires AllTyped(fs, sid) && AllShort(fs, bound)
    requires forall n :: n in order ==> |Select(fs, n)| > 0
    ensures EntriesJson(fs, order, sid, bound, fl).Fine?
        <==> forall n :: n in order ==> EntryJson(fs, n, sid, bound, fl).Fine?
    decreases |order|
  {
    hide EntryJson, AllTyped, AllShort, Select;
    if |order| > 0 {
      EntriesFine(fs, order[1..], sid, bound, fl);
      forall n ensures n in order <==> n == order[0] || n in order[1..] { InFront(order, n); }
      assert order[0] in order;
    }
  }

  /** All the fields with one number that are printed. */
  predicate PrintedFine(fs: seq<Field>, num: nat, sid: Schema, bound: nat, fl: FloatText)
    requires AllTyped(fs, sid) && AllShort(fs, bound)
  {
    forall i :: 0 <= i < |fs| && fs[i].num == num && Printed(fs, i, sid) ==> ValueJson(fs[i], sid, bound, fl).Fine?
  }

  lemma EntryFine(fs: seq<Field>, num: nat, sid: Schema, bound: nat, fl: FloatText)
    requires AllTyped(fs, sid) && AllShort(fs, bound) && |Select(fs, num)| > 0
    ensures EntryJson(fs, num, sid, bound, fl).Fine? <==> PrintedFine(fs, num, sid, bound, fl)
  {
    hide ValueJson, ValuesJson, Select;
    SelectTyped(fs, num, sid, bound);
    var vals := Select(fs, num);
    assert FieldTyped(vals[0], sid);
    if Lookup(sid, num).value.repeated {
      ValuesFine(vals, sid, bound, fl);
      forall f ensures f in vals <==> f in fs && f.num == num { SelectMember(fs, num, f); }
    } else {
      var i := SelectLast(fs, num);
    }
  }

  lemma ValueFine(f: Field, sid: Schema, bound: nat, fl: FloatText)
    requires FieldTyped(f, sid) && (f.LenF? ==> |f.payload| < bound)
    ensures ValueJson(f, sid, bound, fl).Fine?
        <==> (IsMessage(f, sid) ==> f.LenF? && MsgJson(f.payload, Lookup(sid, f.num).value.kind.sub, fl).Fine?)
  {
    hide MsgJson, LeafJson;
    if IsMessage(f, sid) { MessagePayload(f, sid); }
  }

  /** All numbers at once: everything printed is fine. */
  lemma NumbersFine(fs: seq<Field>, sid: Schema, bound: nat, fl: FloatText)
    requires AllTyped(fs, sid) && AllShort(fs, bound)
    ensures (OrderSelected(fs); EntriesJson(fs, Order(fs), sid, bound, fl).Fine?)
        <==> forall i :: 0 <= i < |fs| && Printed(fs, i, sid) ==> ValueJson(fs[i], sid, bound, fl).Fine?
  {
    hide EntriesJson, EntryJson, ValueJson, Select, Order, Printed, AllTyped, AllShort;
    OrderSelected(fs);
    EntriesFine(fs, Order(fs), sid, bound, fl);
    forall n | n in Order(fs)
      ensures EntryJson(fs, n, sid, bound, fl).Fine? <==> PrintedFine(fs, n, sid, bound, fl)
    {
      EntryFine(fs, n, sid, bound, fl);
    }
    forall i | 0 <= i < |fs| ensures fs[i].num in Order(fs) {
      SelectMember(fs, fs[i].num, fs[i]);
      OrderSelect(fs, fs[i].num);
    }
    assert forall i :: 0 <= i < |fs| ==> FieldTyped(fs[i], sid) by { Typed(fs, sid); }
  }

  lemma Typed(fs: seq<Field>, sid: Schema)
    requires AllTyped(fs, sid)
    ensures forall i :: 0 <= i < |fs| ==> FieldTyped(fs[i], sid)
  {
  }

  /** The two phases: the message is scanned, and then everything printed is fine. */
  lemma PhasesFine(b: bytes, sid: Schema, fl: FloatText)
    ensures var fs := Scan(b).fields;
      MsgJson(b, sid, fl).Fine?
      <==> && Scan(b).complete && AllTyped(fs, sid)
           && (ScanShort(b); forall i :: 0 <= i < |fs| && Printed(fs, i, sid) ==> ValueJson(fs[i], sid, |b|, fl).Fine?)
  {
    hide ScanTyped, Scan, EntriesJson, ValueJson, Select, Order, Printed, Braced;
    ScanTypedExact(b, sid);
    ScanShort(b);
    if ScanTyped(b, sid).Fine? { NumbersFine(Scan(b).fields, sid, |b|, fl); }
  }

  /**
    The transcoder succeeds exactly on sound messages.  A nested message that a later one of the same
    number replaces is not looked into: the code only emits the last one.
  */
  lemma {:induction false} TranscodesExactly(b: bytes, sid: Schema, fl: FloatText)
    ensures MsgJson(b, sid, fl).Fine? <==> Sound(b, sid)
    decreases |b|
  {
    hide MsgJson, Scan, ValueJson, Printed;
    PhasesFine(b, sid, fl);
    ScanShort(b);
    var fs := Scan(b).fields;
    if AllTyped(fs, sid) {
      forall i | 0 <= i < |fs| && Printed(fs, i, sid)
        ensures ValueJson(fs[i], sid, |b|, fl).Fine?
            <==> (IsMessage(fs[i], sid) ==> Sound(fs[i].payload, Lookup(sid, fs[i].num).value.kind.sub))
      {
        ValueFine(fs[i], sid, |b|, fl);
        if IsMessage(fs[i], sid) {
          MessagePayload(fs[i], sid);
          TranscodesExactly(fs[i].payload, Lookup(sid, fs[i].num).value.kind.sub, fl);
        }
      }
    }
  }
}
