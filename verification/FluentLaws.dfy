/**
  What the record of a fluent entry is, said from outside: the laws each marshaler call and each
  field obeys, and the members of the envelope.
*/
module FluentLaws {
  import opened Wire
  import opened MsgPack
  import opened Levels
  import opened FluentEncoder
  import opened FluentEntry

  // ---------------------------------------------------------------------------------------
  // Marshaler calls
  // ---------------------------------------------------------------------------------------

  /** A nested object: refused from 1000 open containers on; else whatever its marshaler wrote, and its error. */
  lemma NestedObjectIs(m: Marshalers, id: Id, depth: nat)
    ensures depth >= 1000 ==> NestedObject(m, id, depth) == Outcome(None, Some(DEPTH_ERROR))
    ensures depth < 1000 ==>
      var r := EvalObject(m, m.objects(id), depth + 1);
      NestedObject(m, id, depth) == Outcome(Some(Map(r.result)), r.err)
  {
    hide EvalObject;
  }

  lemma NestedArrayIs(m: Marshalers, id: Id, depth: nat)
    ensures depth >= 1000 ==> NestedArray(m, id, depth) == Outcome(None, Some(DEPTH_ERROR))
    ensures depth < 1000 ==>
      var r := EvalArray(m, m.arrays(id), depth + 1);
      NestedArray(m, id, depth) == Outcome(Some(Arr(r.result)), r.err)
  {
    hide EvalArray;
  }

  /** Pairs already written, then the rest. */
  function Then(first: seq<Pair>, rest: Outcome<seq<Pair>>): Outcome<seq<Pair>> {
    Outcome(first + rest.result, rest.err)
  }

  /** What a nested container left stays; its error stops a marshaler that returns it. */
  function ThenNested(k: bytes, inner: Outcome<Option<Val>>, strict: bool, rest: Outcome<seq<Pair>>)
    : Outcome<seq<Pair>>
  {
    var first := if inner.result.Some? then [Pair(k, inner.result.value)] else [];
    if strict && inner.err.Some? then Outcome(first, inner.err) else Then(first, rest)
  }

  /** A scalar writes its pair, a hooked one the hook's value or the fallback; then the rest follows. */
  lemma ScalarCall(m: Marshalers, k: bytes, v: Val, h: PairHook, ops: seq<ObjectOp>, depth: nat)
    ensures EvalObject(m, [], depth) == Outcome([], None)
    ensures EvalObject(m, [Add(k, v)] + ops, depth) == Then([Pair(k, v)], EvalObject(m, ops, depth))
    ensures EvalObject(m, [AddHooked(k, h)] + ops, depth)
         == Then([Pair(k, if |h.hook| > 0 then h.hook[0] else h.fallback)], EvalObject(m, ops, depth))
  {
    assert ([Add(k, v)] + ops)[1..] == ops;
    assert ([AddHooked(k, h)] + ops)[1..] == ops;
  }

  /** A namespace takes in everything that follows, an error included. */
  lemma NamespaceCall(m: Marshalers, k: bytes, ops: seq<ObjectOp>, depth: nat)
    ensures var rest := EvalObject(m, ops, depth + 1);
      EvalObject(m, [OpenNamespace(k)] + ops, depth) == Outcome([Pair(k, Map(rest.result))], rest.err)
  {
    assert ([OpenNamespace(k)] + ops)[1..] == ops;
  }

  lemma ContainerCalls(m: Marshalers, k: bytes, id: Id, strict: bool, ops: seq<ObjectOp>, depth: nat)
    ensures EvalObject(m, [AddObject(k, id, strict)] + ops, depth)
         == ThenNested(k, NestedObject(m, id, depth), strict, EvalObject(m, ops, depth))
    ensures EvalObject(m, [AddArray(k, id, strict)] + ops, depth)
         == ThenNested(k, NestedArray(m, id, depth), strict, EvalObject(m, ops, depth))
  {
    hide NestedObject, NestedArray;
    assert ([AddObject(k, id, strict)] + ops)[1..] == ops;
    assert ([AddArray(k, id, strict)] + ops)[1..] == ops;
    NoPairs(EvalObject(m, ops, depth));
  }

  lemma NoPairs(rest: Outcome<seq<Pair>>)
    ensures Then([], rest) == rest
    ensures forall p: Pair :: [p] + [] == [p]
  {
    assert [] + rest.result == rest.result;
  }

  /** A reflected value writes its pair or nothing; an error of the marshaler's own ends it. */
  lemma OtherCalls(m: Marshalers, k: bytes, r: Try<Val>, strict: bool, err: bytes, ops: seq<ObjectOp>, depth: nat)
    ensures EvalObject(m, [AddReflected(k, r, strict)] + ops, depth)
         == (if r.Done? then Then([Pair(k, r.value)], EvalObject(m, ops, depth))
             else if strict then Outcome([], Some(r.text)) else EvalObject(m, ops, depth))
    ensures EvalObject(m, [Fail(err)] + ops, depth) == Outcome([], Some(err))
  {
    assert ([AddReflected(k, r, strict)] + ops)[1..] == ops;
  }

  function ThenValues(first: seq<Val>, rest: Outcome<seq<Val>>): Outcome<seq<Val>> {
    Outcome(first + rest.result, rest.err)
  }

  function ThenElement(inner: Outcome<Option<Val>>, strict: bool, rest: Outcome<seq<Val>>): Outcome<seq<Val>> {
    var first := if inner.result.Some? then [inner.result.value] else [];
    if strict && inner.err.Some? then Outcome(first, inner.err) else ThenValues(first, rest)
  }

  lemma NoValuesFirst(rest: Outcome<seq<Val>>)
    ensures ThenValues([], rest) == rest
  {
    assert [] + rest.result == rest.result;
  }

  lemma EndsThere(first: Outcome<seq<Val>>)
    ensures first.result + [] == first.result
  {
  }

  /** The same for array marshalers; a hook may write any number of elements. */
  lemma ElementCalls(
    m: Marshalers, v: Val, h: Hooked, r: Try<Val>, strict: bool, err: bytes, ops: seq<ArrayOp>, depth: nat)
    ensures EvalArray(m, [], depth) == Outcome([], None)
    ensures EvalArray(m, [Append(v)] + ops, depth) == ThenValues([v], EvalArray(m, ops, depth))
    ensures EvalArray(m, [AppendHooked(h)] + ops, depth)
         == ThenValues(if |h.hook| > 0 then h.hook else [h.fallback], EvalArray(m, ops, depth))
    ensures EvalArray(m, [AppendReflected(r, strict)] + ops, depth)
         == (if r.Done? then ThenValues([r.value], EvalArray(m, ops, depth))
             else if strict then Outcome([], Some(r.text)) else EvalArray(m, ops, depth))
    ensures EvalArray(m, [FailArray(err)] + ops, depth) == Outcome([], Some(err))
  {
    assert ([Append(v)] + ops)[1..] == ops;
    assert ([AppendHooked(h)] + ops)[1..] == ops;
    assert ([AppendReflected(r, strict)] + ops)[1..] == ops;
    NoValuesFirst(EvalArray(m, ops, depth));
    EndsThere(Outcome([], Some(err)));
  }

  lemma NestedElements(m: Marshalers, id: Id, strict: bool, ops: seq<ArrayOp>, depth: nat)
    ensures EvalArray(m, [AppendObject(id, strict)] + ops, depth)
         == ThenElement(NestedObject(m, id, depth), strict, EvalArray(m, ops, depth))
    ensures EvalArray(m, [AppendArray(id, strict)] + ops, depth)
         == ThenElement(NestedArray(m, id, depth), strict, EvalArray(m, ops, depth))
  {
    hide NestedObject, NestedArray;
    assert ([AppendObject(id, strict)] + ops)[1..] == ops;
    assert ([AppendArray(id, strict)] + ops)[1..] == ops;
    forall r: Outcome<Option<Val>> ensures AsSeq(r.result) + [] == AsSeq(r.result) {}
  }

  // ---------------------------------------------------------------------------------------
  // Fields
  // ---------------------------------------------------------------------------------------

  lemma {:induction false} DeltaKey(m: Marshalers, ops: seq<ObjectOp>, depth: nat)
    ensures Delta(m, ops, depth).result[0].key == []
    decreases |ops|
  {
    hide Contribute;
    if |ops| > 0 {
      DeltaKey(m, ops[1..], depth);
      DeltaKey(m, ops[1..], depth + 1);
    }
  }

  lemma FieldKey(m: Marshalers, f: ZapField, depth: nat)
    ensures FieldDelta(m, f, depth)[0].key == []
  {
    hide NestedObject, NestedArray, Delta;
    if f.Inline? { DeltaKey(m, m.objects(f.id), depth); }
  }

  /** One more field: its levels are joined on at the end. */
  lemma {:induction false} FieldsSnoc(m: Marshalers, fs: seq<ZapField>, f: ZapField, depth: nat)
    ensures
      var before := FieldsDelta(m, fs, depth);
      FieldsDelta(m, fs + [f], depth) == Join(before, FieldDelta(m, f, depth + |before| - 1))
    decreases |fs|
  {
    hide FieldDelta, Join;
    if |fs| == 0 {
      assert fs + [f] == [f] && [f][1..] == [];
      var levels := FieldDelta(m, f, depth);
      assert FieldsDelta(m, [], depth + |levels| - 1) == [Level([], [])];
      JoinNothing(levels);
      FieldKey(m, f, depth);
      NothingJoin(levels);
    } else {
      var first := FieldDelta(m, fs[0], depth);
      assert (fs + [f])[1..] == fs[1..] + [f];
      FieldsSnoc(m, fs[1..], f, depth + |first| - 1);
      var rest := FieldsDelta(m, fs[1..], depth + |first| - 1);
      JoinAssoc(first, rest, FieldDelta(m, f, depth + |first| - 1 + |rest| - 1));
    }
  }

  /** No fields, no pairs. */
  lemma NoFieldsLaw(m: Marshalers, depth: nat)
    ensures FieldsDelta(m, [], depth) == [Level([], [])]
  {
  }

  /** A plain field adds its pair to the innermost level, a hooked one the hook's value or the fallback. */
  lemma ScalarLaw(m: Marshalers, fs: seq<ZapField>, k: bytes, v: Val, h: PairHook, depth: nat)
    ensures var before := FieldsDelta(m, fs, depth);
      && FieldsDelta(m, fs + [Plain(k, v)], depth) == WithEntry(before, Pair(k, v))
      && FieldsDelta(m, fs + [HookedField(k, h)], depth)
         == WithEntry(before, Pair(k, if |h.hook| > 0 then h.hook[0] else h.fallback))
  {
    hide FieldsDelta;
    FieldsSnoc(m, fs, Plain(k, v), depth);
    FieldsSnoc(m, fs, HookedField(k, h), depth);
    JoinOne(FieldsDelta(m, fs, depth), Pair(k, v));
    JoinOne(FieldsDelta(m, fs, depth), Pair(k, Chosen(h)));
  }

  /** A namespace opens a level. */
  lemma NamespaceLaw(m: Marshalers, fs: seq<ZapField>, k: bytes, depth: nat)
    ensures FieldsDelta(m, fs + [Namespace(k)], depth) == FieldsDelta(m, fs, depth) + [Level(k, [])]
  {
    hide FieldsDelta;
    FieldsSnoc(m, fs, Namespace(k), depth);
    JoinOpen(FieldsDelta(m, fs, depth), k);
  }

  /** The innermost level with several pairs more. */
  function WithPairs(levels: seq<Level>, ps: seq<Pair>): seq<Level>
    requires |levels| > 0
  {
    var n := |levels| - 1;
    levels[n := levels[n].(entries := levels[n].entries + ps)]
  }

  /** The member zap adds for an error: the field's key with "Error", and the text. */
  function Failure(k: bytes, err: Option<bytes>): seq<Pair> {
    if err.Some? then [Pair(k + [0x45, 0x72, 0x72, 0x6f, 0x72], Str(err.value))] else []
  }

  lemma FailureIs(k: bytes, err: Option<bytes>)
    ensures Failure(k, err) == ErrorPairs(k, err)
  {
    assert Ascii("Error") == [0x45, 0x72, 0x72, 0x6f, 0x72];
  }

  lemma JoinPairs(levels: seq<Level>, ps: seq<Pair>)
    requires |levels| > 0
    ensures Join(levels, [Level([], ps)]) == WithPairs(levels, ps)
  {
  }

  /** An object or array field adds what its marshaler wrote, and its error behind that; at the cap only the error. */
  lemma ContainerLaw(m: Marshalers, fs: seq<ZapField>, k: bytes, id: Id, r: Try<Val>, depth: nat)
    ensures
      var before := FieldsDelta(m, fs, depth);
      var d := depth + |before| - 1;
      var built := EvalObject(m, m.objects(id), d + 1);
      var list := EvalArray(m, m.arrays(id), d + 1);
      && FieldsDelta(m, fs + [Object(k, id)], depth)
         == WithPairs(before, if d >= 1000 then Failure(k, Some(DEPTH_ERROR))
                              else [Pair(k, Map(built.result))] + Failure(k, built.err))
      && FieldsDelta(m, fs + [ArrayField(k, id)], depth)
         == WithPairs(before, if d >= 1000 then Failure(k, Some(DEPTH_ERROR))
                              else [Pair(k, Arr(list.result))] + Failure(k, list.err))
      && FieldsDelta(m, fs + [Reflected(k, r)], depth)
         == WithPairs(before, if r.Done? then [Pair(k, r.value)] else Failure(k, Some(r.text)))
  {
    hide FieldsDelta, EvalObject, EvalArray, NestedObject, NestedArray, WithPairs, Join, Failure, ErrorPairs;
    var before := FieldsDelta(m, fs, depth);
    var d := depth + |before| - 1;
    FieldsSnoc(m, fs, Object(k, id), depth);
    FieldsSnoc(m, fs, ArrayField(k, id), depth);
    FieldsSnoc(m, fs, Reflected(k, r), depth);
    NestedObjectIs(m, id, d);
    NestedArrayIs(m, id, d);
    NestledJoins(before, k, NestedObject(m, id, d));
    NestledJoins(before, k, NestedArray(m, id, d));
    var ps := if r.Done? then [Pair(k, r.value)] else Failure(k, Some(r.text));
    if r.Err? { FailureIs(k, Some(r.text)); }
    JoinPairs(before, ps);
  }

  lemma NestledJoins(before: seq<Level>, k: bytes, r: Outcome<Option<Val>>)
    requires |before| > 0
    ensures Join(before, Nestled(k, r))
         == WithPairs(before,
              if r.result.Some? then [Pair(k, r.result.value)] + Failure(k, r.err) else Failure(k, r.err))
  {
    hide WithPairs, Join, Failure, ErrorPairs;
    FailureIs(k, r.err);
    JoinPairs(before, Nestled(k, r)[0].entries);
    assert [] + Failure(k, r.err) == Failure(k, r.err);
  }

  /**
    An inline field adds, from the innermost level on, levels whose closing is what its marshaler
    wrote there, and behind that, in whatever namespace is then innermost, its error if it failed.
  */
  lemma InlineLaw(m: Marshalers, fs: seq<ZapField>, k: bytes, id: Id, depth: nat) returns (written: seq<Level>)
    ensures
      var before := FieldsDelta(m, fs, depth);
      var r := EvalObject(m, m.objects(id), depth + |before| - 1);
      && |written| > 0 && Prolongs(before, written) && Nest(NewPart(before, written)) == r.result
      && FieldsDelta(m, fs + [Inline(k, id)], depth) == WithPairs(written, Failure(k, r.err))
  {
    hide FieldsDelta, EvalObject, Delta, Nest, WithPairs, Failure, ErrorPairs, Prolongs, NewPart, Join;
    var before := FieldsDelta(m, fs, depth);
    var d := depth + |before| - 1;
    var r := Delta(m, m.objects(id), d);
    FieldsSnoc(m, fs, Inline(k, id), depth);
    NestDelta(m, m.objects(id), d);
    DeltaKey(m, m.objects(id), d);
    FailureIs(k, r.err);
    written := Join(before, r.result);
    JoinExtends(before, r.result);
    assert [Level([], r.result[0].entries)] + r.result[1..] == r.result;
    JoinAssoc(before, r.result, [Level([], ErrorPairs(k, r.err))]);
    JoinPairs(written, Failure(k, r.err));
  }

  lemma FieldProlongs(m: Marshalers, fs: seq<ZapField>, f: ZapField, depth: nat)
    ensures Prolongs(FieldsDelta(m, fs, depth), FieldsDelta(m, fs + [f], depth))
  {
    hide FieldsDelta, FieldDelta, Prolongs;
    var before := FieldsDelta(m, fs, depth);
    FieldsSnoc(m, fs, f, depth);
    JoinExtends(before, FieldDelta(m, f, depth + |before| - 1));
  }

  /** Later fields only add behind what earlier fields have put down. */
  lemma {:induction false} FieldsProlong(m: Marshalers, fs: seq<ZapField>, i: nat, depth: nat)
    requires i <= |fs|
    ensures Prolongs(FieldsDelta(m, fs[..i], depth), FieldsDelta(m, fs, depth))
    decreases |fs| - i
  {
    hide FieldsDelta, Prolongs;
    if i == |fs| {
      assert fs[..i] == fs;
      Itself(FieldsDelta(m, fs, depth));
    } else {
      FieldsProlong(m, fs, i + 1, depth);
      assert fs[..i + 1] == fs[..i] + [fs[i]];
      FieldProlongs(m, fs[..i], fs[i], depth);
      ProlongsTrans(FieldsDelta(m, fs[..i], depth), FieldsDelta(m, fs[..i + 1], depth), FieldsDelta(m, fs, depth));
    }
  }

  lemma Itself(levels: seq<Level>)
    requires |levels| > 0
    ensures Prolongs(levels, levels)
  {
  }

  /** Every plain field has its pair in the level that was innermost when its turn came, behind what was there. */
  lemma ScalarLands(m: Marshalers, fs: seq<ZapField>, i: nat, depth: nat)
    requires i < |fs| && fs[i].Plain?
    ensures
      var before := FieldsDelta(m, fs[..i], depth);
      var all := FieldsDelta(m, fs, depth);
      var n := |before| - 1;
      && n < |all| && |before[n].entries| < |all[n].entries|
      && all[n].entries[|before[n].entries|] == Pair(fs[i].key, fs[i].v)
  {
    hide FieldsDelta;
    assert fs[..i + 1] == fs[..i] + [fs[i]];
    ScalarLaw(m, fs[..i], fs[i].key, fs[i].v, Hooked([], Nil), depth);
    FieldsProlong(m, fs, i + 1, depth);
  }

  // ---------------------------------------------------------------------------------------
  // The envelope
  // ---------------------------------------------------------------------------------------

  function OrElse(v: Option<Val>, fallback: Val): Val {
    if v.Some? then v.value else fallback
  }

  /**
    The members an entry should have, in order, each under its condition: the level if it has a key
    and a hook, a logger name that is not empty, caller and function of a defined caller, the message,
    and a stack that is not empty; hooked members carry the hook's value or the fallback.
  */
  function Members(cfg: Config, ent: Entry): (r: seq<(bool, Pair)>)
    ensures |r| == 6
  {
    var c := if ent.caller.Some? then ent.caller.value else Caller([], []);
    [(cfg.levelKey != [] && cfg.encodeLevel.Some?,
      Pair(cfg.levelKey,
           OrElse(if cfg.encodeLevel.Some? then cfg.encodeLevel.value(ent.level) else None, Str(ent.levelText)))),
     (cfg.nameKey != [] && ent.loggerName != [],
      Pair(cfg.nameKey,
           OrElse(if cfg.encodeName.Some? then cfg.encodeName.value(ent.loggerName) else None, Str(ent.loggerName)))),
     (cfg.callerKey != [] && ent.caller.Some?,
      Pair(cfg.callerKey, OrElse(if cfg.encodeCaller.Some? then cfg.encodeCaller.value(c) else None, Str(c.text)))),
     (cfg.functionKey != [] && ent.caller.Some?, Pair(cfg.functionKey, Str(c.function_))),
     (cfg.messageKey != [], Pair(cfg.messageKey, Str(ent.message))),
     (cfg.stacktraceKey != [] && ent.stackTrace != [], Pair(cfg.stacktraceKey, Str(ent.stackTrace)))]
  }

  lemma HookedPair(k: bytes, hook: Option<Val>, fallback: Val)
    ensures Chosen(Hooked(AsSeq(hook), fallback)) == OrElse(hook, fallback)
  {
  }

  lemma LevelNameExact(cfg: Config, ent: Entry)
    ensures LevelPairs(cfg, ent) + NamePairs(cfg, ent) == Selected(Members(cfg, ent)[..2])
  {
    hide Chosen, OrElse;
    var ms := Members(cfg, ent);
    SelectedTwo(ms[0], ms[1]);
    assert ms[..2] == [ms[0], ms[1]];
    if cfg.encodeLevel.Some? { HookedPair(cfg.levelKey, cfg.encodeLevel.value(ent.level), Str(ent.levelText)); }
    if cfg.encodeName.Some? {
      HookedPair(cfg.nameKey, cfg.encodeName.value(ent.loggerName), Str(ent.loggerName));
    } else {
      HookedPair(cfg.nameKey, Some(Str(ent.loggerName)), Str(ent.loggerName));
      SameName(Str(ent.loggerName));
    }
  }

  lemma SameName(v: Val)
    ensures OrElse(Some(v), v) == OrElse(None, v)
  {
  }

  lemma CallerExact(cfg: Config, ent: Entry)
    ensures CallerPairs(cfg, ent) == Selected(Members(cfg, ent)[2..4])
  {
    hide Chosen, OrElse;
    var ms := Members(cfg, ent);
    SelectedTwo(ms[2], ms[3]);
    assert ms[2..4] == [ms[2], ms[3]];
    if ent.caller.Some? {
      var c := ent.caller.value;
      HookedPair(cfg.callerKey, if cfg.encodeCaller.Some? then cfg.encodeCaller.value(c) else None, Str(c.text));
    }
  }

  lemma TextExact(cfg: Config, ent: Entry)
    ensures TextPairs(cfg, ent) == Selected(Members(cfg, ent)[4..])
  {
    hide Chosen, OrElse;
    var ms := Members(cfg, ent);
    SelectedTwo(ms[4], ms[5]);
    assert ms[4..] == [ms[4], ms[5]];
  }

  /**
    What an entry is: the EventTime and one map, which holds exactly the members chosen, in order, and
    then the fields.
  */
  lemma EntryExact(cfg: Config, m: Marshalers, with: seq<Level>, ent: Entry, fs: seq<ZapField>)
    requires |with| > 0
    ensures EntryValue(cfg, m, with, ent, fs)
         == Arr([Ext8(0, EventTime(ent)),
                 Map(Selected(Members(cfg, ent)) + Nest(Join(with, FieldsDelta(m, fs, |with|))))])
  {
    hide LevelPairs, NamePairs, CallerPairs, TextPairs, Members, Selected, FieldsDelta, Nest, Join;
    var ms := Members(cfg, ent);
    LevelNameExact(cfg, ent);
    CallerExact(cfg, ent);
    TextExact(cfg, ent);
    assert ms == ms[..2] + ms[2..4] + ms[4..];
    SelectedConcat(ms[..2] + ms[2..4], ms[4..]);
    SelectedConcat(ms[..2], ms[2..4]);
  }

  /** The value of the first member with this key. */
  function Find(ps: seq<Pair>, key: bytes): Option<Val> {
    if |ps| == 0 then None else if ps[0].key == key then Some(ps[0].value) else Find(ps[1..], key)
  }

  /** Choices whose keys are set when chosen, and are told apart when set. */
  predicate Apart(choices: seq<(bool, Pair)>) {
    && (forall i :: 0 <= i < |choices| && choices[i].0 ==> choices[i].1.key != [])
    && (forall i, j :: 0 <= i < j < |choices| && choices[i].1.key != [] ==> choices[i].1.key != choices[j].1.key)
  }

  lemma {:induction false} FindSelected(choices: seq<(bool, Pair)>, i: nat)
    requires Apart(choices) && i < |choices| && choices[i].1.key != []
    ensures Find(Selected(choices), choices[i].1.key) == if choices[i].0 then Some(choices[i].1.value) else None
  {
    var rest := choices[1..];
    assert Apart(rest);
    assert [] + Selected(rest) == Selected(rest);
    if i > 0 {
      FindSelected(rest, i - 1);
      if choices[0].0 { FindBehind(choices[0].1, Selected(rest), choices[i].1.key); }
    } else if choices[0].0 {
      FindFirst(choices[0].1, Selected(rest));
    } else {
      FindNone(rest, choices[0].1.key);
    }
  }

  lemma FindBehind(p: Pair, ps: seq<Pair>, key: bytes)
    requires p.key != key
    ensures Find([p] + ps, key) == Find(ps, key)
  {
    assert ([p] + ps)[1..] == ps;
  }

  lemma FindFirst(p: Pair, ps: seq<Pair>)
    ensures Find([p] + ps, p.key) == Some(p.value)
  {
  }

  lemma {:induction false} FindNone(choices: seq<(bool, Pair)>, key: bytes)
    requires forall j :: 0 <= j < |choices| ==> choices[j].1.key != key
    ensures Find(Selected(choices), key) == None
  {
    if |choices| > 0 {
      FindNone(choices[1..], key);
      assert [] + Selected(choices[1..]) == Selected(choices[1..]);
      if choices[0].0 { FindBehind(choices[0].1, Selected(choices[1..]), key); }
    }
  }

  /** Configured keys that are set are different. */
  predicate KeysApart(cfg: Config) {
    var keys := [cfg.levelKey, cfg.nameKey, cfg.callerKey, cfg.functionKey, cfg.messageKey, cfg.stacktraceKey];
    forall i, j :: 0 <= i < j < |keys| && keys[i] != [] ==> keys[i] != keys[j]
  }

  /**
    The envelope by key, with configured keys told apart: the message is under its key, always; stack
    and logger name are there if not empty; caller and function if the caller is defined; the level if
    it has a hook.
  */
  lemma EnvelopeByKey(cfg: Config, ent: Entry)
    requires KeysApart(cfg)
    ensures
      var ps := Selected(Members(cfg, ent));
      && (cfg.messageKey != [] ==> Find(ps, cfg.messageKey) == Some(Str(ent.message)))
      && (cfg.stacktraceKey != [] ==>
            Find(ps, cfg.stacktraceKey) == if ent.stackTrace != [] then Some(Str(ent.stackTrace)) else None)
      && (cfg.functionKey != [] ==>
            Find(ps, cfg.functionKey) == if ent.caller.Some? then Some(Str(ent.caller.value.function_)) else None)
      && (cfg.nameKey != [] ==>
            Find(ps, cfg.nameKey)
            == if ent.loggerName == [] then None
               else if cfg.encodeName.Some? then Some(OrElse(cfg.encodeName.value(ent.loggerName), Str(ent.loggerName)))
               else Some(Str(ent.loggerName)))
      && (cfg.levelKey != [] ==>
            Find(ps, cfg.levelKey)
            == if cfg.encodeLevel.None? then None
               else Some(OrElse(cfg.encodeLevel.value(ent.level), Str(ent.levelText))))
      && (cfg.callerKey != [] ==>
            Find(ps, cfg.callerKey)
            == if ent.caller.None? then None
               else if cfg.encodeCaller.Some? then
                 Some(OrElse(cfg.encodeCaller.value(ent.caller.value), Str(ent.caller.value.text)))
               else Some(Str(ent.caller.value.text)))
  {
    hide Find, Selected, Apart;
    var ms := Members(cfg, ent);
    MembersApart(cfg, ent);
    if cfg.levelKey != [] { FindSelected(ms, 0); }
    if cfg.nameKey != [] { FindSelected(ms, 1); }
    if cfg.callerKey != [] { FindSelected(ms, 2); }
    if cfg.functionKey != [] { FindSelected(ms, 3); }
    if cfg.messageKey != [] { FindSelected(ms, 4); }
    if cfg.stacktraceKey != [] { FindSelected(ms, 5); }
  }

  lemma MembersApart(cfg: Config, ent: Entry)
    requires KeysApart(cfg)
    ensures Apart(Members(cfg, ent))
  {
    hide OrElse;
    var keys := [cfg.levelKey, cfg.nameKey, cfg.callerKey, cfg.functionKey, cfg.messageKey, cfg.stacktraceKey];
    forall i | 0 <= i < 6 ensures Members(cfg, ent)[i].1.key == keys[i] {}
  }
}
