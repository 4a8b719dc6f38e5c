/**
  From log entries to OTLP/JSON: the trees behind the bytes of the encoder and the envelope, their
  JSON text written out member by member, and the end-to-end theorem.
*/
module Transcoding {
  import opened Wire
  import opened Envelope
  import opened Attributes
  import opened Encoder
  import opened Text
  import opened JsonString
  import opened Json

  // ---------------------------------------------------------------------------------------
  // Attribute trees
  // ---------------------------------------------------------------------------------------

  function ValueNodes(v: Value): seq<Node>
    decreases v, 1
  {
    match v
    case Str(s) => [Leaf(LenF(1, s))]
    case Bool(b) => [Leaf(VarintF(2, if b then 1 else 0))]
    case Int(i) => [Leaf(VarintF(3, AsUint64(i)))]
    case Double(bits) => [Leaf(Fixed64F(4, bits))]
    case Arr(vs) => [Sub(5, ElementNodes(vs))]
    case Kvs(kvs) => [Sub(6, KvsNodes(1, kvs))]
    case Blob(data) => [Leaf(LenF(7, data))]
  }

  function ElementNodes(vs: seq<Value>): (r: seq<Node>)
    ensures |r| == |vs|
    decreases vs, 0
  {
    if |vs| == 0 then [] else ElementNodes(vs[..|vs| - 1]) + [Sub(1, ValueNodes(vs[|vs| - 1]))]
  }

  function KvNodes(kv: KeyValue): seq<Node>
    decreases kv, 2
  {
    [Leaf(LenF(1, kv.key)), Sub(2, ValueNodes(kv.value))]
  }

  /** Entries of a key-value list under field number `num`. */
  function KvsNodes(num: nat, kvs: seq<KeyValue>): (r: seq<Node>)
    ensures |r| == |kvs|
    decreases kvs, 0
  {
    if |kvs| == 0 then [] else KvsNodes(num, kvs[..|kvs| - 1]) + [Sub(num, KvNodes(kvs[|kvs| - 1]))]
  }

  lemma FieldsOne(n: Node)
    ensures Fields([n]) == [NodeField(n)]
  {
  }

  lemma FieldsTwo(a: Node, b: Node)
    ensures Fields([a, b]) == [NodeField(a), NodeField(b)]
  {
  }

  lemma TreeOne(f: Field)
    requires 8 * f.num + WireType(f) < 0x80
    ensures TreeBytes([Leaf(f)]) == [8 * f.num + WireType(f)] + FieldBody(f)
  {
    hide EncodeFields, FieldBody, Fields;
    FieldsOne(Leaf(f));
    EncodeOne(f);
    ShortTag(f);
  }

  lemma TreeSub(num: nat, nodes: seq<Node>)
    requires 8 * num + 2 < 0x80
    ensures TreeBytes([Sub(num, nodes)]) == TaggedBytes(8 * num + 2, TreeBytes(nodes))
  {
    hide EncodeFields, EncodeField, TaggedBytes, Fields;
    FieldsOne(Sub(num, nodes));
    EncodeOne(LenF(num, TreeBytes(nodes)));
    LenFieldBytes(num, TreeBytes(nodes));
  }

  lemma TreeSnoc(nodes: seq<Node>, num: nat, sub: seq<Node>)
    requires 8 * num + 2 < 0x80
    ensures TreeBytes(nodes + [Sub(num, sub)]) == TreeBytes(nodes) + TaggedBytes(8 * num + 2, TreeBytes(sub))
  {
    hide EncodeFields, EncodeField, TaggedBytes;
    var all := nodes + [Sub(num, sub)];
    assert all[..|nodes|] == nodes;
    EncodeFieldsConcat(Fields(nodes), [NodeField(Sub(num, sub))]);
    EncodeOne(LenF(num, TreeBytes(sub)));
    LenFieldBytes(num, TreeBytes(sub));
  }

  /** The tree of a value has the value's bytes. */
  lemma {:induction false} ValueTreeBytes(v: Value)
    ensures TreeBytes(ValueNodes(v)) == ValueBytes(v)
    decreases v, 1
  {
    hide TreeBytes, TaggedBytes, LittleEndian;
    match v
    case Str(s) => TreeOne(LenF(1, s)); LenTag(1, s);
    case Bool(b) => TreeOne(VarintF(2, if b then 1 else 0));
    case Int(i) => TreeOne(VarintF(3, AsUint64(i)));
    case Double(bits) => TreeOne(Fixed64F(4, bits));
    case Arr(vs) => ElementTreeBytes(vs); TreeSub(5, ElementNodes(vs));
    case Kvs(kvs) => KvsTreeBytes(1, kvs); TreeSub(6, KvsNodes(1, kvs));
    case Blob(data) => TreeOne(LenF(7, data)); LenTag(7, data);
  }

  lemma LenTag(num: nat, p: bytes)
    requires 8 * num + 2 < 0x80
    ensures [8 * num + 2] + FieldBody(LenF(num, p)) == TaggedBytes(8 * num + 2, p)
  {
  }

  lemma {:induction false} ElementTreeBytes(vs: seq<Value>)
    ensures TreeBytes(ElementNodes(vs)) == ValuesBytes(vs)
    decreases vs, 0
  {
    hide TreeBytes, TaggedBytes, ValueBytes;
    if |vs| == 0 {
      EmptyTree();
    } else {
      ElementTreeBytes(vs[..|vs| - 1]);
      ValueTreeBytes(vs[|vs| - 1]);
      TreeSnoc(ElementNodes(vs[..|vs| - 1]), 1, ValueNodes(vs[|vs| - 1]));
    }
  }

  lemma EmptyTree()
    ensures TreeBytes([]) == []
  {
  }

  lemma {:induction false} KvTreeBytes(kv: KeyValue)
    ensures TreeBytes(KvNodes(kv)) == KvBytes(kv)
    decreases kv, 2
  {
    hide TaggedBytes, ValueBytes, ValueNodes, EncodeField, EncodeFields, Fields;
    ValueTreeBytes(kv.value);
    FieldsTwo(Leaf(LenF(1, kv.key)), Sub(2, ValueNodes(kv.value)));
    EncodeTwo(LenF(1, kv.key), LenF(2, ValueBytes(kv.value)));
    LenFieldBytes(1, kv.key);
    LenFieldBytes(2, ValueBytes(kv.value));
  }

  lemma {:induction false} KvsTreeBytes(num: nat, kvs: seq<KeyValue>)
    requires 8 * num + 2 < 0x80
    ensures TreeBytes(KvsNodes(num, kvs)) == KvsBytes(8 * num + 2, kvs)
    decreases kvs, 0
  {
    hide TreeBytes, TaggedBytes, KvBytes, KvNodes;
    if |kvs| == 0 {
      EmptyTree();
    } else {
      KvsTreeBytes(num, kvs[..|kvs| - 1]);
      KvTreeBytes(kvs[|kvs| - 1]);
      TreeSnoc(KvsNodes(num, kvs[..|kvs| - 1]), num, KvNodes(kvs[|kvs| - 1]));
    }
  }

  lemma TypedOne(n: Node, sid: Schema)
    requires NodeTyped(n, sid)
    ensures TreeTyped([n], sid)
  {
  }

  /** Every value follows the AnyValue schema. */
  lemma {:induction false} ValueTyped(v: Value)
    ensures TreeTyped(ValueNodes(v), AnyValue)
    decreases v, 1
  {
    hide TreeTyped;
    match v
    case Arr(vs) => ElementsTyped(vs); TypedOne(Sub(5, ElementNodes(vs)), AnyValue);
    case Kvs(kvs) => KvsTyped(1, kvs, KVListMsg); TypedOne(Sub(6, KvsNodes(1, kvs)), AnyValue);
    case _ => TypedOne(ValueNodes(v)[0], AnyValue);
  }

  lemma TypedSnoc(nodes: seq<Node>, n: Node, sid: Schema)
    requires TreeTyped(nodes, sid) && NodeTyped(n, sid)
    ensures TreeTyped(nodes + [n], sid)
  {
  }

  lemma SubTyped(num: nat, nodes: seq<Node>, sid: Schema, sub: Schema)
    requires Lookup(sid, num).Some? && Lookup(sid, num).value.kind == JMsg(sub) && TreeTyped(nodes, sub)
    ensures NodeTyped(Sub(num, nodes), sid)
  {
    hide TreeTyped, Lookup;
  }

  lemma {:induction false} ElementsTyped(vs: seq<Value>)
    ensures TreeTyped(ElementNodes(vs), ArrayValue)
    decreases vs, 0
  {
    hide ValueNodes, TreeTyped, NodeTyped;
    if |vs| == 0 {
      TypedNone(ArrayValue);
    } else {
      ElementsTyped(vs[..|vs| - 1]);
      ValueTyped(vs[|vs| - 1]);
      SubTyped(1, ValueNodes(vs[|vs| - 1]), ArrayValue, AnyValue);
      TypedSnoc(ElementNodes(vs[..|vs| - 1]), Sub(1, ValueNodes(vs[|vs| - 1])), ArrayValue);
    }
  }

  lemma TypedNone(sid: Schema)
    ensures TreeTyped([], sid)
  {
  }

  lemma {:induction false} KvTyped(kv: KeyValue)
    ensures TreeTyped(KvNodes(kv), KeyValueMsg)
    decreases kv, 2
  {
    hide ValueNodes, TreeTyped;
    ValueTyped(kv.value);
    var key := Leaf(LenF(1, kv.key));
    TypedOne(key, KeyValueMsg);
    TypedSnoc([key], Sub(2, ValueNodes(kv.value)), KeyValueMsg);
    assert KvNodes(kv) == [key] + [Sub(2, ValueNodes(kv.value))];
  }

  lemma {:induction false} KvsTyped(num: nat, kvs: seq<KeyValue>, sid: Schema)
    requires Lookup(sid, num).Some? && Lookup(sid, num).value.kind == JMsg(KeyValueMsg)
    ensures TreeTyped(KvsNodes(num, kvs), sid)
    decreases kvs, 0
  {
    hide KvNodes, Lookup, TreeTyped, NodeTyped;
    if |kvs| == 0 {
      TypedNone(sid);
    } else {
      KvsTyped(num, kvs[..|kvs| - 1], sid);
      KvTyped(kvs[|kvs| - 1]);
      SubTyped(num, KvNodes(kvs[|kvs| - 1]), sid, KeyValueMsg);
      TypedSnoc(KvsNodes(num, kvs[..|kvs| - 1]), Sub(num, KvNodes(kvs[|kvs| - 1])), sid);
    }
  }

  // ---------------------------------------------------------------------------------------
  // Messages whose fields come grouped by number
  // ---------------------------------------------------------------------------------------

  /** All the occurrences of one field number, side by side. */
  datatype Group = Group(num: nat, nodes: seq<Node>)

  predicate GroupOk(g: Group) {
    |g.nodes| > 0 && forall i :: 0 <= i < |g.nodes| ==> NodeNum(g.nodes[i]) == g.num
  }

  /** Groups with ascending numbers. */
  predicate Ascending(gs: seq<Group>) {
    && (forall i :: 0 <= i < |gs| ==> GroupOk(gs[i]))
    && (forall i, j :: 0 <= i < j < |gs| ==> gs[i].num < gs[j].num)
  }

  function Ungroup(gs: seq<Group>): seq<Node> {
    if |gs| == 0 then [] else Ungroup(gs[..|gs| - 1]) + gs[|gs| - 1].nodes
  }

  function Texts(nodes: seq<Node>, sid: Schema, fl: FloatText): (r: seq<bytes>)
    requires TreeTyped(nodes, sid)
    ensures |r| == |nodes|
  {
    if |nodes| == 0 then []
    else Texts(nodes[..|nodes| - 1], sid, fl) + [PrintNode(nodes[|nodes| - 1], sid, fl)]
  }

  lemma {:induction false} TypedConcat(a: seq<Node>, b: seq<Node>, sid: Schema)
    ensures TreeTyped(a + b, sid) <==> TreeTyped(a, sid) && TreeTyped(b, sid)
    decreases |b|
  {
    hide NodeTyped;
    if |b| == 0 {
      assert a + b == a;
    } else {
      assert (a + b)[..|a + b| - 1] == a + b[..|b| - 1];
      TypedConcat(a, b[..|b| - 1], sid);
    }
  }

  lemma {:induction false} ValuesOfConcat(a: seq<Node>, b: seq<Node>, num: nat, sid: Schema, fl: FloatText)
    requires TreeTyped(a, sid) && TreeTyped(b, sid)
    ensures TreeTyped(a + b, sid)
    ensures PrintValues(a + b, num, sid, fl) == PrintValues(a, num, sid, fl) + PrintValues(b, num, sid, fl)
    decreases |b|
  {
    hide TreeTyped, PrintValues, PrintNode;
    TypedConcat(a, b, sid);
    if |b| == 0 {
      assert a + b == a;
      NoPrinted(num, sid, fl);
    } else {
      var init := b[..|b| - 1];
      assert (a + b)[..|a + b| - 1] == a + init;
      TypedInit(b, sid);
      ValuesOfConcat(a, init, num, sid, fl);
      PrintedInit(a + b, num, sid, fl);
      PrintedInit(b, num, sid, fl);
      Assoc(PrintValues(a, num, sid, fl), PrintValues(init, num, sid, fl), LastPrinted(b, num, sid, fl));
    }
  }

  lemma NoPrinted(num: nat, sid: Schema, fl: FloatText)
    ensures TreeTyped([], sid) && PrintValues([], num, sid, fl) == []
  {
  }

  lemma TypedInit(nodes: seq<Node>, sid: Schema)
    requires TreeTyped(nodes, sid) && |nodes| > 0
    ensures TreeTyped(nodes[..|nodes| - 1], sid) && NodeTyped(nodes[|nodes| - 1], sid)
  {
    hide NodeTyped;
  }

  /** What the last node adds to the values of a field number. */
  function LastPrinted(nodes: seq<Node>, num: nat, sid: Schema, fl: FloatText): seq<bytes>
    requires |nodes| > 0 && NodeTyped(nodes[|nodes| - 1], sid)
  {
    if NodeNum(nodes[|nodes| - 1]) == num then [PrintNode(nodes[|nodes| - 1], sid, fl)] else []
  }

  lemma PrintedInit(nodes: seq<Node>, num: nat, sid: Schema, fl: FloatText)
    requires TreeTyped(nodes, sid) && |nodes| > 0
    ensures TreeTyped(nodes[..|nodes| - 1], sid) && NodeTyped(nodes[|nodes| - 1], sid)
    ensures PrintValues(nodes, num, sid, fl)
         == PrintValues(nodes[..|nodes| - 1], num, sid, fl) + LastPrinted(nodes, num, sid, fl)
  {
    hide NodeTyped, PrintNode;
  }

  lemma {:induction false} ValuesOfGroup(nodes: seq<Node>, num: nat, other: nat, sid: Schema, fl: FloatText)
    requires TreeTyped(nodes, sid) && forall i :: 0 <= i < |nodes| ==> NodeNum(nodes[i]) == num
    ensures PrintValues(nodes, other, sid, fl) == if other == num then Texts(nodes, sid, fl) else []
  {
    hide NodeTyped, PrintNode;
    if |nodes| > 0 { ValuesOfGroup(nodes[..|nodes| - 1], num, other, sid, fl); }
  }

  lemma {:induction false} OrderOfConcat(a: seq<Node>, g: Group)
    requires GroupOk(g) && g.num !in NodeOrder(a)
    ensures NodeOrder(a + g.nodes) == NodeOrder(a) + [g.num]
    decreases |g.nodes|
  {
    var b := g.nodes;
    assert (a + b)[..|a + b| - 1] == a + b[..|b| - 1];
    if |b| == 1 {
      assert a + b[..0] == a;
    } else {
      OrderOfConcat(a, Group(g.num, b[..|b| - 1]));
    }
  }

  lemma {:induction false} UngroupOrder(gs: seq<Group>)
    requires Ascending(gs)
    ensures NodeOrder(Ungroup(gs)) == Numbers(gs)
  {
    hide GroupOk;
    if |gs| > 0 {
      UngroupOrder(gs[..|gs| - 1]);
      OrderOfConcat(Ungroup(gs[..|gs| - 1]), gs[|gs| - 1]);
    }
  }

  function Numbers(gs: seq<Group>): (r: seq<nat>)
    ensures |r| == |gs| && forall i :: 0 <= i < |gs| ==> r[i] == gs[i].num
  {
    if |gs| == 0 then [] else Numbers(gs[..|gs| - 1]) + [gs[|gs| - 1].num]
  }

  lemma {:induction false} UngroupTyped(gs: seq<Group>, sid: Schema)
    ensures TreeTyped(Ungroup(gs), sid) <==> forall i :: 0 <= i < |gs| ==> TreeTyped(gs[i].nodes, sid)
  {
    hide TreeTyped;
    if |gs| == 0 {
      TypedNone(sid);
    } else {
      UngroupTyped(gs[..|gs| - 1], sid);
      TypedConcat(Ungroup(gs[..|gs| - 1]), gs[|gs| - 1].nodes, sid);
      forall i | 0 <= i < |gs| - 1 ensures gs[..|gs| - 1][i] == gs[i] {}
    }
  }

  lemma {:induction false} ValuesOfUngroup(gs: seq<Group>, k: nat, sid: Schema, fl: FloatText)
    requires Ascending(gs) && TreeTyped(Ungroup(gs), sid) && k < |gs| && TreeTyped(gs[k].nodes, sid)
    ensures PrintValues(Ungroup(gs), gs[k].num, sid, fl) == Texts(gs[k].nodes, sid, fl)
  {
    hide TreeTyped, PrintValues, Texts;
    var init, last := gs[..|gs| - 1], gs[|gs| - 1];
    TypedConcat(Ungroup(init), last.nodes, sid);
    ValuesOfConcat(Ungroup(init), last.nodes, gs[k].num, sid, fl);
    ValuesOfGroup(last.nodes, last.num, gs[k].num, sid, fl);
    if k < |gs| - 1 {
      ValuesOfUngroup(init, k, sid, fl);
    } else {
      AbsentValues(init, gs[k].num, sid, fl);
    }
  }

  lemma {:induction false} AbsentValues(gs: seq<Group>, num: nat, sid: Schema, fl: FloatText)
    requires Ascending(gs) && TreeTyped(Ungroup(gs), sid) && forall i :: 0 <= i < |gs| ==> gs[i].num < num
    ensures PrintValues(Ungroup(gs), num, sid, fl) == []
  {
    hide TreeTyped;
    if |gs| > 0 {
      var init, last := gs[..|gs| - 1], gs[|gs| - 1];
      TypedConcat(Ungroup(init), last.nodes, sid);
      ValuesOfConcat(Ungroup(init), last.nodes, num, sid, fl);
      ValuesOfGroup(last.nodes, last.num, num, sid, fl);
      AbsentValues(init, num, sid, fl);
    }
  }

  /** The member one group prints. */
  function GroupText(g: Group, sid: Schema, fl: FloatText): bytes
    requires TreeTyped(g.nodes, sid)
  {
    match Lookup(sid, g.num)
    case None => []
    case Some(spec) =>
      Named(spec.name, if spec.repeated then Bracketed(Texts(g.nodes, sid, fl))
        else LastOr(Texts(g.nodes, sid, fl), []))
  }

  function GroupTexts(gs: seq<Group>, sid: Schema, fl: FloatText): (r: seq<bytes>)
    requires forall i :: 0 <= i < |gs| ==> TreeTyped(gs[i].nodes, sid)
    ensures |r| == |gs|
    ensures forall i :: 0 <= i < |gs| ==> r[i] == GroupText(gs[i], sid, fl)
  {
    seq(|gs|, i requires 0 <= i < |gs| => GroupText(gs[i], sid, fl))
  }

  lemma {:induction false} MembersAt(nodes: seq<Node>, order: seq<nat>, k: nat, sid: Schema, fl: FloatText)
    requires TreeTyped(nodes, sid) && k < |order|
    ensures PrintMembers(nodes, order, sid, fl)[k] == PrintMember(nodes, order[k], sid, fl)
  {
    hide PrintMember, TreeTyped;
    if k > 0 { MembersAt(nodes, order[1..], k - 1, sid, fl); }
  }

  /** A message given by ascending groups prints one member for each group, in that order. */
  lemma GroupedPrint(gs: seq<Group>, sid: Schema, fl: FloatText)
    requires Ascending(gs) && forall i :: 0 <= i < |gs| ==> TreeTyped(gs[i].nodes, sid)
    ensures TreeTyped(Ungroup(gs), sid)
    ensures Print(Ungroup(gs), sid, fl) == Braced(GroupTexts(gs, sid, fl))
  {
    hide TreeTyped, PrintMembers, PrintValues, Ascending, Braced, Bracketed, Texts, Lookup;
    var nodes := Ungroup(gs);
    UngroupTyped(gs, sid);
    UngroupOrder(gs);
    var order := NodeOrder(nodes);
    forall k | 0 <= k < |gs| ensures PrintMembers(nodes, order, sid, fl)[k] == GroupTexts(gs, sid, fl)[k] {
      MembersAt(nodes, order, k, sid, fl);
      ValuesOfUngroup(gs, k, sid, fl);
    }
    assert PrintMembers(nodes, order, sid, fl) == GroupTexts(gs, sid, fl);
  }

  // ---------------------------------------------------------------------------------------
  // Optional members
  // ---------------------------------------------------------------------------------------

  /** A JSON member that may be absent. */
  datatype Member = Member(present: bool, text: bytes)

  function Kept(ms: seq<Member>): seq<bytes> {
    if |ms| == 0 then []
    else Kept(ms[..|ms| - 1]) + if ms[|ms| - 1].present then [ms[|ms| - 1].text] else []
  }

  /** The groups that have at least one occurrence. */
  function Present(gs: seq<Group>): seq<Group> {
    if |gs| == 0 then []
    else Present(gs[..|gs| - 1]) + if |gs[|gs| - 1].nodes| == 0 then [] else [gs[|gs| - 1]]
  }

  predicate SlotOk(g: Group, sid: Schema) {
    TreeTyped(g.nodes, sid) && forall j :: 0 <= j < |g.nodes| ==> NodeNum(g.nodes[j]) == g.num
  }

  /** Groups with ascending numbers, some of them empty. */
  predicate Slots(gs: seq<Group>, sid: Schema) {
    && (forall i :: 0 <= i < |gs| ==> SlotOk(gs[i], sid))
    && (forall i, j :: 0 <= i < j < |gs| ==> gs[i].num < gs[j].num)
  }

  /** What the member of a group should read. */
  predicate DescribesOne(m: Member, g: Group, sid: Schema, fl: FloatText)
    requires SlotOk(g, sid)
  {
    (m.present <==> |g.nodes| > 0) && (m.present ==> m.text == GroupText(g, sid, fl))
  }

  predicate Describes(ms: seq<Member>, gs: seq<Group>, sid: Schema, fl: FloatText)
    requires forall i :: 0 <= i < |gs| ==> SlotOk(gs[i], sid)
  {
    |ms| == |gs| && forall i :: 0 <= i < |gs| ==> DescribesOne(ms[i], gs[i], sid, fl)
  }

  lemma {:induction false} PresentUngroup(gs: seq<Group>)
    ensures Ungroup(Present(gs)) == Ungroup(gs)
  {
    if |gs| > 0 {
      var init, last := gs[..|gs| - 1], gs[|gs| - 1];
      PresentUngroup(init);
      if |last.nodes| > 0 {
        UngroupSnoc(Present(init), last);
      } else {
        assert Present(gs) == Present(init);
        assert Ungroup(init) + [] == Ungroup(init);
      }
    }
  }

  /** The present groups are nonempty, ascending and stay below any bound of the slots. */
  lemma {:induction false} PresentSlots(gs: seq<Group>, sid: Schema, bound: nat)
    requires Slots(gs, sid) && forall i :: 0 <= i < |gs| ==> gs[i].num < bound
    ensures Slots(Present(gs), sid)
    ensures forall i :: 0 <= i < |Present(gs)| ==> Present(gs)[i].num < bound && |Present(gs)[i].nodes| > 0
  {
    hide SlotOk, Slots;
    if |gs| == 0 {
      assert Slots([], sid) by { NoSlots(sid); }
    } else {
      var init, last := gs[..|gs| - 1], gs[|gs| - 1];
      SlotsInit(gs, sid);
      PresentSlots(init, sid, last.num);
      if |last.nodes| > 0 {
        SlotsSnoc(Present(init), last, sid);
      } else {
        assert Present(gs) == Present(init);
      }
    }
  }

  lemma NoSlots(sid: Schema)
    ensures Slots([], sid)
  {
  }

  lemma SlotsInit(gs: seq<Group>, sid: Schema)
    requires Slots(gs, sid) && |gs| > 0
    ensures Slots(gs[..|gs| - 1], sid) && SlotOk(gs[|gs| - 1], sid)
    ensures var init := gs[..|gs| - 1]; forall i :: 0 <= i < |init| ==> init[i].num < gs[|gs| - 1].num
  {
    hide SlotOk;
  }

  lemma SlotsSnoc(gs: seq<Group>, g: Group, sid: Schema)
    requires Slots(gs, sid) && SlotOk(g, sid) && forall i :: 0 <= i < |gs| ==> gs[i].num < g.num
    ensures Slots(gs + [g], sid)
  {
    hide SlotOk;
  }

  lemma SlotsAscending(gs: seq<Group>, sid: Schema)
    requires Slots(gs, sid) && forall i :: 0 <= i < |gs| ==> |gs[i].nodes| > 0
    ensures Ascending(gs) && forall i :: 0 <= i < |gs| ==> TreeTyped(gs[i].nodes, sid)
  {
  }

  lemma GroupTextsSnoc(gs: seq<Group>, g: Group, sid: Schema, fl: FloatText)
    requires (forall i :: 0 <= i < |gs| ==> TreeTyped(gs[i].nodes, sid)) && TreeTyped(g.nodes, sid) && |g.nodes| > 0
    ensures forall i :: 0 <= i < |gs + [g]| ==> TreeTyped((gs + [g])[i].nodes, sid)
    ensures GroupTexts(gs + [g], sid, fl) == GroupTexts(gs, sid, fl) + [GroupText(g, sid, fl)]
  {
    hide TreeTyped, GroupText;
  }

  /** The present groups of a longer list, and what is kept of its members. */
  lemma PresentSnoc(gs: seq<Group>)
    requires |gs| > 0
    ensures var init, last := gs[..|gs| - 1], gs[|gs| - 1];
      Present(gs) == Present(init) + if |last.nodes| == 0 then [] else [last]
  {
  }

  lemma DescribesInit(ms: seq<Member>, gs: seq<Group>, sid: Schema, fl: FloatText)
    requires Slots(gs, sid) && Describes(ms, gs, sid, fl) && |gs| > 0
    ensures |ms| == |gs|
    ensures var gi, mi := gs[..|gs| - 1], ms[..|ms| - 1];
      && Slots(gi, sid) && Describes(mi, gi, sid, fl)
      && SlotOk(gs[|gs| - 1], sid) && DescribesOne(ms[|ms| - 1], gs[|gs| - 1], sid, fl)
      && Kept(ms) == Kept(mi) + if |gs[|gs| - 1].nodes| > 0 then [ms[|ms| - 1].text] else []
  {
    hide SlotOk, GroupText;
    var gi, mi := gs[..|gs| - 1], ms[..|ms| - 1];
    assert DescribesOne(ms[|ms| - 1], gs[|gs| - 1], sid, fl);
    forall i | 0 <= i < |gi| ensures gi[i] == gs[i] && mi[i] == ms[i] {}
  }

  /** One more present group adds its text. */
  lemma KeptOneMore(p: seq<Group>, g: Group, m: Member, sid: Schema, fl: FloatText)
    requires SlotOk(g, sid) && DescribesOne(m, g, sid, fl) && |g.nodes| > 0
    requires forall i :: 0 <= i < |p| ==> TreeTyped(p[i].nodes, sid)
    ensures forall i :: 0 <= i < |p + [g]| ==> TreeTyped((p + [g])[i].nodes, sid)
    ensures GroupTexts(p + [g], sid, fl) == GroupTexts(p, sid, fl) + [m.text]
  {
    hide TreeTyped, GroupText, GroupTexts, NodeNum;
    SlotTyped(g, sid);
    GroupTextsSnoc(p, g, sid, fl);
  }

  lemma {:induction false} KeptTexts(ms: seq<Member>, gs: seq<Group>, sid: Schema, fl: FloatText)
    requires Slots(gs, sid) && Describes(ms, gs, sid, fl)
    ensures forall i :: 0 <= i < |Present(gs)| ==> TreeTyped(Present(gs)[i].nodes, sid)
    ensures GroupTexts(Present(gs), sid, fl) == Kept(ms)
  {
    hide TreeTyped, GroupTexts, Slots, Describes, DescribesOne, SlotOk, Present, Kept;
    if |gs| == 0 {
      NothingKept(ms, gs, sid, fl);
    } else {
      var gi, gl := gs[..|gs| - 1], gs[|gs| - 1];
      DescribesInit(ms, gs, sid, fl);
      KeptTexts(ms[..|ms| - 1], gi, sid, fl);
      PresentSnoc(gs);
      if |gl.nodes| > 0 {
        KeptOneMore(Present(gi), gl, ms[|ms| - 1], sid, fl);
      } else {
        assert Present(gs) == Present(gi);
      }
    }
  }

  lemma NothingKept(ms: seq<Member>, gs: seq<Group>, sid: Schema, fl: FloatText)
    requires |gs| == 0 && Slots(gs, sid) && Describes(ms, gs, sid, fl)
    ensures Present(gs) == [] && Kept(ms) == [] && GroupTexts([], sid, fl) == []
  {
  }

  lemma SlotTyped(g: Group, sid: Schema)
    requires SlotOk(g, sid)
    ensures TreeTyped(g.nodes, sid)
  {
    hide TreeTyped;
  }

  ghost function SlotBound(gs: seq<Group>, sid: Schema): (r: nat)
    requires Slots(gs, sid)
    ensures forall i :: 0 <= i < |gs| ==> gs[i].num < r
  {
    if |gs| == 0 then 0 else gs[|gs| - 1].num + 1
  }

  /** A message of optional groups prints its present members, in ascending order. */
  lemma SlotsPrint(gs: seq<Group>, ms: seq<Member>, sid: Schema, fl: FloatText)
    requires Slots(gs, sid) && Describes(ms, gs, sid, fl)
    ensures TreeTyped(Ungroup(gs), sid) && Print(Ungroup(gs), sid, fl) == Braced(Kept(ms))
  {
    hide Slots, Describes, Ascending, TreeTyped, Print, Braced, Kept, Present, Ungroup;
    var bound := SlotBound(gs, sid);
    PresentUngroup(gs);
    PresentSlots(gs, sid, bound);
    SlotsAscending(Present(gs), sid);
    KeptTexts(ms, gs, sid, fl);
    GroupedPrint(Present(gs), sid, fl);
  }

  lemma UngroupSnoc(gs: seq<Group>, g: Group)
    ensures Ungroup(gs + [g]) == Ungroup(gs) + g.nodes
  {
  }

  lemma UngroupTwo(a: Group, b: Group)
    ensures Ungroup([a]) == a.nodes && Ungroup([a, b]) == a.nodes + b.nodes
  {
  }

  lemma TextsOne(n: Node, sid: Schema, fl: FloatText)
    requires NodeTyped(n, sid)
    ensures TreeTyped([n], sid) && Texts([n], sid, fl) == [PrintNode(n, sid, fl)]
  {
  }

  // ---------------------------------------------------------------------------------------
  // The JSON of attributes, written out
  // ---------------------------------------------------------------------------------------

  /** A member that is always there and holds one scalar or message. */
  function Single(name: string, value: bytes): bytes {
    Braced([Named(name, value)])
  }

  /** The list under "values", left out when empty. */
  function ListText(parts: seq<bytes>): bytes {
    if |parts| == 0 then Braced([]) else Single("values", Bracketed(parts))
  }

  function ValueText(v: Value, fl: FloatText): bytes
    decreases v, 1
  {
    match v
    case Str(s) => Single("stringValue", Quoted(s))
    case Bool(b) => Single("boolValue", Ascii(if b then "true" else "false"))
    case Int(i) => Single("intValue", InQuotes(DecimalInt(i)))
    case Double(bits) => Single("doubleValue", DoubleJson(bits, fl))
    case Arr(vs) => Single("arrayValue", ListText(ElementTexts(vs, fl)))
    case Kvs(kvs) => Single("kvlistValue", ListText(KvTexts(kvs, fl)))
    case Blob(data) => Single("bytesValue", InQuotes(Base64(data)))
  }

  function ElementTexts(vs: seq<Value>, fl: FloatText): (r: seq<bytes>)
    ensures |r| == |vs|
    decreases vs, 0
  {
    if |vs| == 0 then [] else ElementTexts(vs[..|vs| - 1], fl) + [ValueText(vs[|vs| - 1], fl)]
  }

  function KvText(kv: KeyValue, fl: FloatText): bytes
    decreases kv, 2
  {
    Braced([Named("key", Quoted(kv.key)), Named("value", ValueText(kv.value, fl))])
  }

  function KvTexts(kvs: seq<KeyValue>, fl: FloatText): (r: seq<bytes>)
    ensures |r| == |kvs|
    decreases kvs, 0
  {
    if |kvs| == 0 then [] else KvTexts(kvs[..|kvs| - 1], fl) + [KvText(kvs[|kvs| - 1], fl)]
  }

  /** A message with a single field prints as one member. */
  lemma PrintOne(n: Node, sid: Schema, fl: FloatText)
    requires NodeTyped(n, sid) && !Lookup(sid, NodeNum(n)).value.repeated
    ensures TreeTyped([n], sid)
    ensures Print([n], sid, fl) == Single(Lookup(sid, NodeNum(n)).value.name, PrintNode(n, sid, fl))
  {
    hide NodeTyped, PrintNode, Lookup, Braced, Named, Print;
    var g := Group(NodeNum(n), [n]);
    TextsOne(n, sid, fl);
    assert GroupOk(g);
    GroupedPrint([g], sid, fl);
    UngroupTwo(g, g);
    KnownField(n, sid);
    assert GroupTexts([g], sid, fl) == [GroupText(g, sid, fl)];
  }

  lemma KnownField(n: Node, sid: Schema)
    requires NodeTyped(n, sid)
    ensures Lookup(sid, NodeNum(n)).Some?
  {
  }

  /** A message that only repeats one field prints as a list, or as an empty object. */
  lemma PrintList(nodes: seq<Node>, num: nat, sid: Schema, fl: FloatText)
    requires TreeTyped(nodes, sid) && forall i :: 0 <= i < |nodes| ==> NodeNum(nodes[i]) == num
    requires Lookup(sid, num).Some? && Lookup(sid, num).value.repeated
    ensures Print(nodes, sid, fl)
         == if |nodes| == 0 then Braced([]) else Single(Lookup(sid, num).value.name, Bracketed(Texts(nodes, sid, fl)))
  {
    hide TreeTyped, Lookup, Braced, Bracketed, Named, Texts;
    if |nodes| == 0 {
      assert NodeOrder(nodes) == [];
    } else {
      var g := Group(num, nodes);
      assert GroupOk(g);
      GroupedPrint([g], sid, fl);
      UngroupTwo(g, g);
      assert GroupTexts([g], sid, fl) == [GroupText(g, sid, fl)];
    }
  }

  lemma SignedBack(i: int64)
    ensures AsInt64(AsUint64(i)) == i
  {
  }

  lemma ScalarPrint(v: Value, fl: FloatText)
    requires IsScalar(v)
    ensures TreeTyped(ValueNodes(v), AnyValue) && Print(ValueNodes(v), AnyValue, fl) == ValueText(v, fl)
  {
    hide TreeTyped, Print, Single, Quoted, DoubleJson, Decimal, DecimalInt, Base64;
    match v
    case Str(s) => PrintOne(Leaf(LenF(1, s)), AnyValue, fl);
    case Bool(b) => PrintOne(Leaf(VarintF(2, if b then 1 else 0)), AnyValue, fl);
    case Int(i) => SignedBack(i); PrintOne(Leaf(VarintF(3, AsUint64(i))), AnyValue, fl);
    case Double(bits) => PrintOne(Leaf(Fixed64F(4, bits)), AnyValue, fl);
    case Blob(data) => PrintOne(Leaf(LenF(7, data)), AnyValue, fl);
  }

  /** Printing the tree of a value gives its text. */
  lemma {:induction false} ValuePrint(v: Value, fl: FloatText)
    ensures TreeTyped(ValueNodes(v), AnyValue) && Print(ValueNodes(v), AnyValue, fl) == ValueText(v, fl)
    decreases v, 1
  {
    hide TreeTyped, Print, ValueText, ListText, ValueNodes, ElementNodes, KvsNodes, Texts, KvTexts, ElementTexts;
    match v
    case Arr(vs) => ElementsPrint(vs, fl); ArrPrint(vs, fl);
    case Kvs(kvs) => KvsPrint(1, kvs, KVListMsg, fl); KvListPrint(kvs, fl); KvsValuePrint(kvs, fl);
    case Str(_) => ScalarPrint(v, fl);
    case Bool(_) => ScalarPrint(v, fl);
    case Int(_) => ScalarPrint(v, fl);
    case Double(_) => ScalarPrint(v, fl);
    case Blob(_) => ScalarPrint(v, fl);
  }

  lemma ArrPrint(vs: seq<Value>, fl: FloatText)
    requires TreeTyped(ElementNodes(vs), ArrayValue)
        && Print(ElementNodes(vs), ArrayValue, fl) == ListText(ElementTexts(vs, fl))
    ensures TreeTyped(ValueNodes(Arr(vs)), AnyValue)
        && Print(ValueNodes(Arr(vs)), AnyValue, fl) == ValueText(Arr(vs), fl)
  {
    hide TreeTyped, Print, Single, ListText, ElementNodes, ElementTexts;
    SubPrint(5, ElementNodes(vs), AnyValue, ArrayValue, fl);
    PrintOne(Sub(5, ElementNodes(vs)), AnyValue, fl);
  }

  lemma KvsValuePrint(kvs: seq<KeyValue>, fl: FloatText)
    requires TreeTyped(KvsNodes(1, kvs), KVListMsg)
        && Print(KvsNodes(1, kvs), KVListMsg, fl) == ListText(KvTexts(kvs, fl))
    ensures TreeTyped(ValueNodes(Kvs(kvs)), AnyValue)
        && Print(ValueNodes(Kvs(kvs)), AnyValue, fl) == ValueText(Kvs(kvs), fl)
  {
    hide TreeTyped, Print, Single, ListText, KvsNodes, KvTexts;
    SubPrint(6, KvsNodes(1, kvs), AnyValue, KVListMsg, fl);
    PrintOne(Sub(6, KvsNodes(1, kvs)), AnyValue, fl);
  }

  lemma {:induction false} ElementsPrint(vs: seq<Value>, fl: FloatText)
    ensures TreeTyped(ElementNodes(vs), ArrayValue)
    ensures Texts(ElementNodes(vs), ArrayValue, fl) == ElementTexts(vs, fl)
    ensures Print(ElementNodes(vs), ArrayValue, fl) == ListText(ElementTexts(vs, fl))
    decreases vs, 0
  {
    hide TreeTyped, Print, ValueNodes, ValueText;
    ElementsTyped(vs);
    ElementNums(vs);
    PrintList(ElementNodes(vs), 1, ArrayValue, fl);
    if |vs| > 0 {
      ElementsPrint(vs[..|vs| - 1], fl);
      ValuePrint(vs[|vs| - 1], fl);
      SubPrint(1, ValueNodes(vs[|vs| - 1]), ArrayValue, AnyValue, fl);
      TextsSnoc(ElementNodes(vs[..|vs| - 1]), Sub(1, ValueNodes(vs[|vs| - 1])), ArrayValue, fl);
    } else {
      assert Texts([], ArrayValue, fl) == [];
    }
  }

  lemma TextsSnoc(nodes: seq<Node>, n: Node, sid: Schema, fl: FloatText)
    requires TreeTyped(nodes, sid) && NodeTyped(n, sid)
    ensures TreeTyped(nodes + [n], sid)
        && Texts(nodes + [n], sid, fl) == Texts(nodes, sid, fl) + [PrintNode(n, sid, fl)]
  {
  }

  lemma SubPrint(num: nat, nodes: seq<Node>, sid: Schema, sub: Schema, fl: FloatText)
    requires Lookup(sid, num).Some? && Lookup(sid, num).value.kind == JMsg(sub) && TreeTyped(nodes, sub)
    ensures NodeTyped(Sub(num, nodes), sid) && PrintNode(Sub(num, nodes), sid, fl) == Print(nodes, sub, fl)
  {
    hide TreeTyped, Lookup, Print;
  }

  lemma {:induction false} ElementNums(vs: seq<Value>)
    ensures forall i :: 0 <= i < |vs| ==> NodeNum(ElementNodes(vs)[i]) == 1
    decreases |vs|
  {
    hide ValueNodes;
    if |vs| > 0 { ElementNums(vs[..|vs| - 1]); }
  }

  lemma {:induction false} KvNums(num: nat, kvs: seq<KeyValue>)
    ensures forall i :: 0 <= i < |kvs| ==> NodeNum(KvsNodes(num, kvs)[i]) == num
    decreases |kvs|
  {
    hide KvNodes;
    if |kvs| > 0 { KvNums(num, kvs[..|kvs| - 1]); }
  }

  lemma {:induction false} KvPrint(kv: KeyValue, fl: FloatText)
    ensures TreeTyped(KvNodes(kv), KeyValueMsg) && Print(KvNodes(kv), KeyValueMsg, fl) == KvText(kv, fl)
    decreases kv, 2
  {
    hide TreeTyped, Print, ValueNodes, ValueText, Braced, Named, Quoted;
    KvTyped(kv);
    ValuePrint(kv.value, fl);
    var key, value := Leaf(LenF(1, kv.key)), Sub(2, ValueNodes(kv.value));
    SubPrint(2, ValueNodes(kv.value), KeyValueMsg, AnyValue, fl);
    TextsOne(key, KeyValueMsg, fl);
    TextsOne(value, KeyValueMsg, fl);
    var g, h := Group(1, [key]), Group(2, [value]);
    assert GroupOk(g) && GroupOk(h);
    GroupedPrint([g, h], KeyValueMsg, fl);
    UngroupTwo(g, h);
    assert [key] + [value] == KvNodes(kv);
    assert GroupTexts([g, h], KeyValueMsg, fl) == [GroupText(g, KeyValueMsg, fl), GroupText(h, KeyValueMsg, fl)];
  }

  lemma {:induction false} KvsPrint(num: nat, kvs: seq<KeyValue>, sid: Schema, fl: FloatText)
    requires Lookup(sid, num).Some? && Lookup(sid, num).value.kind == JMsg(KeyValueMsg)
    ensures TreeTyped(KvsNodes(num, kvs), sid) && Texts(KvsNodes(num, kvs), sid, fl) == KvTexts(kvs, fl)
    decreases kvs, 0
  {
    hide TreeTyped, Print, KvNodes, KvText, Lookup;
    KvsTyped(num, kvs, sid);
    if |kvs| > 0 {
      KvsPrint(num, kvs[..|kvs| - 1], sid, fl);
      KvPrint(kvs[|kvs| - 1], fl);
      SubPrint(num, KvNodes(kvs[|kvs| - 1]), sid, KeyValueMsg, fl);
      TextsSnoc(KvsNodes(num, kvs[..|kvs| - 1]), Sub(num, KvNodes(kvs[|kvs| - 1])), sid, fl);
    }
  }

  lemma KvListPrint(kvs: seq<KeyValue>, fl: FloatText)
    requires TreeTyped(KvsNodes(1, kvs), KVListMsg) && Texts(KvsNodes(1, kvs), KVListMsg, fl) == KvTexts(kvs, fl)
    ensures Print(KvsNodes(1, kvs), KVListMsg, fl) == ListText(KvTexts(kvs, fl))
  {
    hide TreeTyped, Print, KvsNodes, KvTexts, Braced, Bracketed, Single, Texts;
    KvNums(1, kvs);
    PrintList(KvsNodes(1, kvs), 1, KVListMsg, fl);
  }

  /**
    Every attribute value, however nested: transcoding its bytes takes no error branch and gives its
    OTLP/JSON text.
  */
  lemma ValueTranscodes(v: Value, fl: FloatText)
    requires |ValueBytes(v)| < U64_LIMIT
    ensures MsgJson(ValueBytes(v), AnyValue, fl) == Fine(ValueText(v, fl))
  {
    hide TreeTyped, Print, MsgJson, ValueNodes, ValueBytes, ValueText, TreeBytes;
    ValueTreeBytes(v);
    ValuePrint(v, fl);
    Commutes(ValueNodes(v), AnyValue, fl);
  }
}
