/**
  The history both writers are judged by: what left the queue, and which batches ended how.
*/
module Ledger {
  import opened Wire

  /** An export ends accepted, with some records rejected by the server, or failed as a whole. */
  datatype Outcome = Accepted(rejected: nat) | Failed
  datatype Resolved = Resolved(records: seq<bytes>, outcome: Outcome)
  datatype Removal = Removal(rec: bytes, taken: bool)

  /** What a resolved batch adds to the drop counter. */
  function Lost(r: Resolved): nat {
    match r.outcome
    case Accepted(n) => n
    case Failed => |r.records|
  }

  function Records(removed: seq<Removal>): (r: seq<bytes>)
    ensures |r| == |removed|
  {
    if |removed| == 0 then [] else Records(removed[..|removed| - 1]) + [removed[|removed| - 1].rec]
  }

  function Taken(removed: seq<Removal>): seq<bytes> {
    if |removed| == 0 then []
    else
      var last := removed[|removed| - 1];
      Taken(removed[..|removed| - 1]) + if last.taken then [last.rec] else []
  }

  function Evictions(removed: seq<Removal>): nat {
    if |removed| == 0 then 0
    else Evictions(removed[..|removed| - 1]) + if removed[|removed| - 1].taken then 0 else 1
  }

  function Shipped(resolved: seq<Resolved>): seq<bytes> {
    if |resolved| == 0 then [] else Shipped(resolved[..|resolved| - 1]) + resolved[|resolved| - 1].records
  }

  function AllLost(resolved: seq<Resolved>): nat {
    if |resolved| == 0 then 0 else AllLost(resolved[..|resolved| - 1]) + Lost(resolved[|resolved| - 1])
  }

  function Batches(resolved: seq<Resolved>): (r: seq<seq<bytes>>)
    ensures |r| == |resolved|
  {
    if |resolved| == 0 then []
    else Batches(resolved[..|resolved| - 1]) + [resolved[|resolved| - 1].records]
  }

  lemma BatchesSnoc(resolved: seq<Resolved>, r: Resolved)
    ensures Batches(resolved + [r]) == Batches(resolved) + [r.records]
  {
    assert (resolved + [r])[..|resolved|] == resolved;
  }

  lemma EvictionsSnoc(removed: seq<Removal>, rec: bytes, taken: bool)
    ensures Evictions(removed + [Removal(rec, taken)]) == Evictions(removed) + if taken then 0 else 1
  {
    assert (removed + [Removal(rec, taken)])[..|removed|] == removed;
  }

  lemma ResolvedSnoc(resolved: seq<Resolved>, r: Resolved)
    ensures Shipped(resolved + [r]) == Shipped(resolved) + r.records
    ensures AllLost(resolved + [r]) == AllLost(resolved) + Lost(r)
  {
  }

  lemma {:induction false} TakenPrefix(removed: seq<Removal>, n: nat)
    requires n <= |removed|
    ensures |Taken(removed[..n])| <= |Taken(removed)|
  {
    if n < |removed| {
      TakenPrefix(removed[..|removed| - 1], n);
      assert removed[..|removed| - 1][..n] == removed[..n];
    } else {
      assert removed[..n] == removed;
    }
  }

  lemma {:induction false} RecordsAt(removed: seq<Removal>, k: nat)
    requires k < |removed|
    ensures Records(removed)[k] == removed[k].rec
  {
    if k < |removed| - 1 { RecordsAt(removed[..|removed| - 1], k); }
  }

  /** A taken record stands in the taken list at the number of records taken before it. */
  lemma {:induction false} TakenAt(removed: seq<Removal>, k: nat, n: nat)
    requires k < n <= |removed| && removed[k].taken
    ensures |Taken(removed[..k])| < |Taken(removed[..n])| <= |Taken(removed)|
    ensures Taken(removed)[|Taken(removed[..k])|] == removed[k].rec
  {
    TakenPrefix(removed, n);
    if k == |removed| - 1 {
      assert removed[..n] == removed;
    } else if n == |removed| {
      TakenAt(removed[..n - 1], k, n - 1);
      assert removed[..n - 1][..k] == removed[..k] && removed[..n - 1][..n - 1] == removed[..n - 1];
      assert removed[..n] == removed;
    } else {
      TakenAt(removed[..|removed| - 1], k, n);
      assert removed[..|removed| - 1][..k] == removed[..k] && removed[..|removed| - 1][..n] == removed[..n];
    }
  }

  /** The first `n` records that entered the queue have been evicted or sent in an ended export. */
  predicate SettledIn(removed: seq<Removal>, resolved: seq<Resolved>, n: nat) {
    n <= |removed| && |Taken(removed[..n])| <= |Shipped(resolved)|
  }

  /** Nothing settled becomes unsettled: the histories only grow. */
  lemma SettledGrows(removed: seq<Removal>, resolved: seq<Resolved>, removed': seq<Removal>, resolved': seq<Resolved>,
      n: nat)
    requires SettledIn(removed, resolved, n) && removed <= removed' && |Shipped(resolved)| <= |Shipped(resolved')|
    ensures SettledIn(removed', resolved', n)
  {
    assert removed'[..n] == removed[..n];
  }

  /** A settled record that was not evicted is found in the ended exports, at its place in line. */
  lemma SettledRecord(enqueued: seq<bytes>, queue: seq<bytes>, removed: seq<Removal>, resolved: seq<Resolved>,
      batch: seq<bytes>, n: nat, k: nat)
    requires enqueued == Records(removed) + queue && Taken(removed) == Shipped(resolved) + batch
    requires SettledIn(removed, resolved, n) && k < n
    ensures k < |enqueued| && removed[k].rec == enqueued[k]
    ensures removed[k].taken ==>
      var at := |Taken(removed[..k])|; at < |Shipped(resolved)| && Shipped(resolved)[at] == enqueued[k]
  {
    hide Records, Taken, Shipped;
    RecordsAt(removed, k);
    if removed[k].taken { TakenAt(removed, k, n); }
  }

  /** What the server said it rejected, over all accepted batches. */
  function Rejections(resolved: seq<Resolved>): nat {
    if |resolved| == 0 then 0
    else
      Rejections(resolved[..|resolved| - 1])
      + match resolved[|resolved| - 1].outcome case Accepted(n) => n case Failed => 0
  }

  /** The records of all batches that failed as a whole. */
  function FailedRecords(resolved: seq<Resolved>): nat {
    if |resolved| == 0 then 0
    else
      FailedRecords(resolved[..|resolved| - 1])
      + match resolved[|resolved| - 1].outcome case Accepted(_) => 0 case Failed => |resolved[|resolved| - 1].records|
  }

  lemma {:induction false} LostSplit(resolved: seq<Resolved>)
    ensures AllLost(resolved) == Rejections(resolved) + FailedRecords(resolved)
  {
    if |resolved| > 0 { LostSplit(resolved[..|resolved| - 1]); }
  }

  lemma SizeWithout(a: set<nat>, t: nat)
    ensures |a| == |a - {t}| + (if t in a then 1 else 0)
  {
    if t !in a { assert a - {t} == a; }
  }
}
