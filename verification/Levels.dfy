/**
  What both encoders have in common: marshaler programs by name, and the levels of namespaces that
  were opened and not closed.
*/
module Levels {
  import opened Wire

  type Id = nat

  datatype Try<+T> = Done(value: T) | Err(text: bytes)

  /** What each marshaler does when it is run; named, so that one may nest itself for ever. */
  datatype Programs<!O, !A> = Programs(objects: Id -> seq<O>, arrays: Id -> seq<A>)

  const MAX_DEPTH: nat := 1000

  function Left(depth: nat): nat {
    if depth < MAX_DEPTH then MAX_DEPTH - depth else 0
  }

  /** The entries added at one level since some point; `key` is the namespace it was opened with. */
  datatype LevelOf<+E> = Level(key: bytes, entries: seq<E>)

  /** The entries once every namespace is closed; `wrap` makes an entry of a closed namespace. */
  function Closed<E>(levels: seq<LevelOf<E>>, wrap: (bytes, seq<E>) -> E): seq<E>
    requires |levels| > 0
  {
    if |levels| == 1 then levels[0].entries
    else levels[0].entries + [wrap(levels[1].key, Closed(levels[1..], wrap))]
  }

  function Prepend<E>(e: E, levels: seq<LevelOf<E>>): (r: seq<LevelOf<E>>)
    requires |levels| > 0
    ensures |r| == |levels|
  {
    [levels[0].(entries := [e] + levels[0].entries)] + levels[1..]
  }

  function Below<E>(key: bytes, levels: seq<LevelOf<E>>): (r: seq<LevelOf<E>>)
    requires |levels| > 0
    ensures |r| == |levels| + 1
  {
    [Level([], []), levels[0].(key := key)] + levels[1..]
  }

  /** Levels after levels: the second starts where the first left off, inside its innermost namespace. */
  function Join<E>(a: seq<LevelOf<E>>, b: seq<LevelOf<E>>): (r: seq<LevelOf<E>>)
    requires |a| > 0 && |b| > 0
    ensures |r| == |a| + |b| - 1
  {
    a[..|a| - 1] + [a[|a| - 1].(entries := a[|a| - 1].entries + b[0].entries)] + b[1..]
  }

  /** One more entry at the innermost level. */
  function WithEntry<E>(levels: seq<LevelOf<E>>, e: E): (r: seq<LevelOf<E>>)
    requires |levels| > 0
    ensures |r| == |levels|
  {
    levels[|levels| - 1 := levels[|levels| - 1].(entries := levels[|levels| - 1].entries + [e])]
  }

  /** `after` has what `before` has, in the same places, and possibly more behind it. */
  predicate Prolongs<E(==)>(before: seq<LevelOf<E>>, after: seq<LevelOf<E>>) {
    var n := |before| - 1;
    && 0 <= n < |after| && after[..n] == before[..n]
    && after[n].key == before[n].key && before[n].entries <= after[n].entries
  }

  /** What `after` has more, from the innermost level of `before` on. */
  function NewPart<E(==)>(before: seq<LevelOf<E>>, after: seq<LevelOf<E>>): (r: seq<LevelOf<E>>)
    requires Prolongs(before, after)
    ensures |r| > 0
  {
    var n := |before| - 1;
    [Level([], after[n].entries[|before[n].entries|..])] + after[n + 1..]
  }

  lemma ProlongsTrans<E>(a: seq<LevelOf<E>>, b: seq<LevelOf<E>>, c: seq<LevelOf<E>>)
    requires Prolongs(a, b) && Prolongs(b, c)
    ensures Prolongs(a, c)
  {
    var n, m := |a| - 1, |b| - 1;
    assert c[..n] == c[..m][..n];
    if n < m { assert c[..m][n] == b[..m][n]; }
  }

  lemma JoinExtends<E>(a: seq<LevelOf<E>>, b: seq<LevelOf<E>>)
    requires |a| > 0 && |b| > 0
    ensures Prolongs(a, Join(a, b))
    ensures NewPart(a, Join(a, b)) == [Level([], b[0].entries)] + b[1..]
  {
    JoinParts(a, b);
    assert Join(a, b)[|a| - 1].entries[|a[|a| - 1].entries|..] == b[0].entries;
  }

  lemma JoinOne<E>(a: seq<LevelOf<E>>, e: E)
    requires |a| > 0
    ensures Join(a, [Level([], [e])]) == WithEntry(a, e)
  {
  }

  lemma JoinNothing<E>(a: seq<LevelOf<E>>)
    requires |a| > 0
    ensures Join(a, [Level([], [])]) == a
  {
    assert a[|a| - 1].entries + [] == a[|a| - 1].entries;
  }

  lemma JoinOpen<E>(a: seq<LevelOf<E>>, key: bytes)
    requires |a| > 0
    ensures Join(a, [Level([], []), Level(key, [])]) == a + [Level(key, [])]
  {
    assert a[|a| - 1].entries + [] == a[|a| - 1].entries;
  }

  lemma NothingJoin<E>(b: seq<LevelOf<E>>)
    requires |b| > 0 && b[0].key == []
    ensures Join([Level([], [])], b) == b
  {
    assert [] + b[0].entries == b[0].entries;
  }

  lemma JoinAssoc<E>(a: seq<LevelOf<E>>, b: seq<LevelOf<E>>, c: seq<LevelOf<E>>)
    requires |a| > 0 && |b| > 0 && |c| > 0
    ensures Join(Join(a, b), c) == Join(a, Join(b, c))
  {
    if |b| == 1 {
      Assoc(a[|a| - 1].entries, b[0].entries, c[0].entries);
    } else {
      var l, r := Join(Join(a, b), c), Join(a, Join(b, c));
      assert Join(a, b)[..|Join(a, b)| - 1] == a[..|a| - 1]
        + [a[|a| - 1].(entries := a[|a| - 1].entries + b[0].entries)] + b[1..|b| - 1];
    }
  }

  /** The elements chosen by their conditions, in order. */
  function Selected<E>(choices: seq<(bool, E)>): seq<E> {
    if |choices| == 0 then [] else (if choices[0].0 then [choices[0].1] else []) + Selected(choices[1..])
  }

  lemma SelectedTwo<E>(a: (bool, E), b: (bool, E))
    ensures Selected([a, b]) == (if a.0 then [a.1] else []) + (if b.0 then [b.1] else [])
  {
    assert [a, b][1..] == [b] && [b][1..] == [];
    assert Selected([b]) == (if b.0 then [b.1] else []) + Selected([]);
  }

  lemma {:induction false} SelectedConcat<E>(a: seq<(bool, E)>, b: seq<(bool, E)>)
    ensures Selected(a + b) == Selected(a) + Selected(b)
  {
    if |a| == 0 {
      assert a + b == b;
    } else {
      var first := if a[0].0 then [a[0].1] else [];
      assert (a + b)[1..] == a[1..] + b && (a + b)[0] == a[0];
      SelectedConcat(a[1..], b);
      Assoc(first, Selected(a[1..]), Selected(b));
    }
  }

  lemma JoinParts<E>(a: seq<LevelOf<E>>, b: seq<LevelOf<E>>)
    requires |a| > 0 && |b| > 0
    ensures Join(a, b)[..|a| - 1] == a[..|a| - 1]
    ensures Join(a, b)[|a| - 1] == a[|a| - 1].(entries := a[|a| - 1].entries + b[0].entries)
    ensures Join(a, b)[|a|..] == b[1..]
  {
  }

  lemma ClosedPrepend<E>(e: E, levels: seq<LevelOf<E>>, wrap: (bytes, seq<E>) -> E)
    requires |levels| > 0
    ensures Closed(Prepend(e, levels), wrap) == [e] + Closed(levels, wrap)
  {
    var p := Prepend(e, levels);
    assert p[1..] == levels[1..];
    if |levels| > 1 { Assoc([e], levels[0].entries, [wrap(levels[1].key, Closed(levels[1..], wrap))]); }
  }

  lemma ClosedBelow<E>(key: bytes, levels: seq<LevelOf<E>>, wrap: (bytes, seq<E>) -> E)
    requires |levels| > 0
    ensures Closed(Below(key, levels), wrap) == [wrap(key, Closed(levels, wrap))]
  {
    var b := Below(key, levels);
    assert b[1..] == [levels[0].(key := key)] + levels[1..];
    assert b[1..][1..] == levels[1..];
    assert Closed(b[1..], wrap) == Closed(levels, wrap);
  }
}
