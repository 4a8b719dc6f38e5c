/**
  Byte-aware batch cutting: the closures `flush`, `add` and `drainQueued` of the flush goroutine
  (otlp/writer.go), and the optimality of the split they produce.
*/
module Batching {
  import opened Wire
  import opened Envelope

  /** The two limits a request must respect, over the writer's fixed envelope. */
  datatype Limits = Limits(env: Env, batchSize: nat, maxBytes: nat)

  /** The request built from `records` respects both limits. */
  predicate Fits(l: Limits, records: seq<bytes>) {
    |records| <= l.batchSize && SizeFor(l.env, Tagged(records)) <= l.maxBytes
  }

  /** What may be handed to the transport. */
  predicate Request(l: Limits, records: seq<bytes>) {
    |records| >= 1 && Fits(l, records)
  }

  /** The guard `Write` applies to a single record. */
  predicate Admissible(l: Limits, rec: bytes) {
    SizeFor(l.env, RecordCost(|rec|)) <= l.maxBytes
  }

  predicate AllAdmissible(l: Limits, records: seq<bytes>) {
    forall i :: 0 <= i < |records| ==> Admissible(l, records[i])
  }

  function Flatten(batches: seq<seq<bytes>>): seq<bytes> {
    if |batches| == 0 then [] else batches[0] + Flatten(batches[1..])
  }

  // ---------------------------------------------------------------------------------------
  // Cost sums and feasibility of subsegments
  // ---------------------------------------------------------------------------------------

  lemma {:induction false} TaggedConcat(a: seq<bytes>, b: seq<bytes>)
    ensures Tagged(a + b) == Tagged(a) + Tagged(b)
  {
    if |b| == 0 {
      assert a + b == a;
    } else {
      assert (a + b)[..|a + b| - 1] == a + b[..|b| - 1];
      TaggedConcat(a, b[..|b| - 1]);
    }
  }

  lemma TaggedSingle(rec: bytes)
    ensures Tagged([rec]) == RecordCost(|rec|)
  {
  }

  lemma TaggedSnoc(a: seq<bytes>, rec: bytes)
    ensures Tagged(a + [rec]) == Tagged(a) + RecordCost(|rec|)
  {
  }

  lemma SizeForMonotone(e: Env, a: nat, b: nat)
    requires a <= b
    ensures SizeFor(e, a) <= SizeFor(e, b)
  {
    if a < b { SizeForStrict(e, a, b); }
  }

  /** Every subsegment of a feasible segment is feasible. */
  lemma FitsSubsegment(l: Limits, records: seq<bytes>, i: nat, j: nat)
    requires i <= j <= |records| && Fits(l, records)
    ensures Fits(l, records[i..j])
  {
    hide SizeFor;
    var before, mid, after := records[..i], records[i..j], records[j..];
    assert records == before + mid + after;
    TaggedConcat(before + mid, after);
    TaggedConcat(before, mid);
    SizeForMonotone(l.env, Tagged(mid), Tagged(records));
  }

  lemma FitsPrefix(l: Limits, records: seq<bytes>, k: nat, j: nat)
    requires k <= j <= |records| && Fits(l, records[..j])
    ensures Fits(l, records[..k])
  {
    FitsSubsegment(l, records[..j], 0, k);
    assert records[..j][0..k] == records[..k];
  }

  lemma SingleFits(l: Limits, rec: bytes)
    requires l.batchSize >= 1 && Admissible(l, rec)
    ensures Request(l, [rec])
  {
    TaggedSingle(rec);
  }

  /** A batch at its byte limit cannot take one more record. */
  lemma FullCannotGrow(l: Limits, records: seq<bytes>, rec: bytes)
    requires |records| >= l.batchSize || SizeFor(l.env, Tagged(records)) >= l.maxBytes
    ensures !Fits(l, records + [rec])
  {
    hide SizeFor;
    TaggedSnoc(records, rec);
    SizeForStrict(l.env, Tagged(records), Tagged(records + [rec]));
  }

  // ---------------------------------------------------------------------------------------
  // The greedy split, defined by longest feasible prefixes
  // ---------------------------------------------------------------------------------------

  function CutFrom(l: Limits, q: seq<bytes>, k: nat): (r: nat)
    requires k <= |q|
    ensures k <= r <= |q|
    decreases |q| - k
  {
    if k < |q| && Fits(l, q[..k + 1]) then CutFrom(l, q, k + 1) else k
  }

  /** Length of the longest feasible prefix, at least one record. */
  function Cut(l: Limits, q: seq<bytes>): (r: nat)
    requires |q| > 0
    ensures 1 <= r <= |q|
  {
    CutFrom(l, q, 1)
  }

  function Greedy(l: Limits, q: seq<bytes>): seq<seq<bytes>>
    decreases |q|
  {
    if |q| == 0 then [] else [q[..Cut(l, q)]] + Greedy(l, q[Cut(l, q)..])
  }

  lemma {:induction false} CutFromIs(l: Limits, q: seq<bytes>, from: nat, k: nat)
    requires from <= k <= |q|
    requires k > from ==> Fits(l, q[..k])
    requires k == |q| || !Fits(l, q[..k + 1])
    ensures CutFrom(l, q, from) == k
    decreases k - from
  {
    if from < k {
      FitsPrefix(l, q, from + 1, k);
      CutFromIs(l, q, from + 1, k);
    }
  }

  lemma {:induction false} CutFromReaches(l: Limits, q: seq<bytes>, from: nat, k: nat)
    requires from <= |q| && k <= |q| && Fits(l, q[..k])
    ensures CutFrom(l, q, from) >= k
    decreases |q| - from
  {
    if from < k {
      FitsPrefix(l, q, from + 1, k);
      CutFromReaches(l, q, from + 1, k);
    }
  }

  lemma {:induction false} CutFromFits(l: Limits, q: seq<bytes>, from: nat)
    requires from <= |q| && Fits(l, q[..from])
    ensures Fits(l, q[..CutFrom(l, q, from)])
    decreases |q| - from
  {
    if from < |q| && Fits(l, q[..from + 1]) { CutFromFits(l, q, from + 1); }
  }

  /** The first greedy request is the batch itself once nothing more fits behind it. */
  lemma GreedyCut(l: Limits, batch: seq<bytes>, rest: seq<bytes>)
    requires |batch| >= 1 && Fits(l, batch)
    requires |rest| == 0 || !Fits(l, batch + [rest[0]])
    ensures Greedy(l, batch + rest) == [batch] + Greedy(l, rest)
  {
    hide Fits;
    var q := batch + rest;
    assert q[..|batch|] == batch && q[|batch|..] == rest;
    if |rest| > 0 { assert q[..|batch| + 1] == batch + [rest[0]]; }
    CutFromIs(l, q, 1, |batch|);
  }

  /** The greedy split is itself a feasible split of the whole queue, in order. */
  lemma {:induction false} GreedyFeasible(l: Limits, q: seq<bytes>)
    requires l.batchSize >= 1 && AllAdmissible(l, q)
    ensures Flatten(Greedy(l, q)) == q
    ensures forall i :: 0 <= i < |Greedy(l, q)| ==> Request(l, Greedy(l, q)[i])
    decreases |q|
  {
    hide Fits, Admissible;
    if |q| > 0 {
      var k := Cut(l, q);
      assert q[..1] == [q[0]];
      SingleFits(l, q[0]);
      CutFromFits(l, q, 1);
      GreedyFeasible(l, q[k..]);
      assert Greedy(l, q)[1..] == Greedy(l, q[k..]);
      assert q == q[..k] + q[k..];
    }
  }

  /** Starting later never needs more requests. */
  lemma {:induction false} GreedySuffix(l: Limits, q: seq<bytes>, i: nat, j: nat)
    requires l.batchSize >= 1 && AllAdmissible(l, q)
    requires i <= j <= |q|
    ensures |Greedy(l, q[j..])| <= |Greedy(l, q[i..])|
    decreases |q| - i
  {
    hide Fits, Admissible;
    if j < |q| && i < j {
      var a, b := q[i..], q[j..];
      var k, m := Cut(l, a), Cut(l, b);
      assert a[k..] == q[i + k..];
      if j < i + k {
        assert a[..1] == [a[0]];
        SingleFits(l, a[0]);
        CutFromFits(l, a, 1);
        FitsSubsegment(l, a[..k], j - i, k);
        assert a[..k][j - i..k] == b[..i + k - j];
        CutFromReaches(l, b, 1, i + k - j);
        assert b[m..] == q[j + m..];
        GreedySuffix(l, q, i + k, j + m);
      } else {
        GreedySuffix(l, q, i + k, j);
      }
    }
  }

  /**
    No order-preserving split of the queue into requests that respect both limits is shorter
    than the greedy one.
  */
  lemma {:induction false} GreedyOptimal(l: Limits, q: seq<bytes>, split: seq<seq<bytes>>)
    requires l.batchSize >= 1 && AllAdmissible(l, q)
    requires Flatten(split) == q
    requires forall i :: 0 <= i < |split| ==> Request(l, split[i])
    ensures |Greedy(l, q)| <= |split|
    decreases |split|
  {
    hide Fits, Admissible;
    if |split| > 0 {
      var first := split[0];
      var n := |first|;
      assert q[..n] == first && q[n..] == Flatten(split[1..]);
      CutFromReaches(l, q, 1, n);
      GreedySuffix(l, q, n, Cut(l, q));
      assert q[n..] == q[n..];
      GreedyOptimal(l, q[n..], split[1..]);
    }
  }

  // ---------------------------------------------------------------------------------------
  // The flush goroutine's local state
  // ---------------------------------------------------------------------------------------

  class Flusher {
    const limits: Limits
    var queue: seq<bytes>
    var batch: seq<bytes>
    var tagged: nat
    var requests: seq<seq<bytes>>  // every batch handed to export, oldest first

    /** Between two operations the batch is feasible and still open: neither limit is reached. */
    ghost predicate Valid()
      reads this
    {
      && limits.batchSize >= 1
      && tagged == Tagged(batch)
      && (batch != [] ==> |batch| < limits.batchSize && SizeFor(limits.env, tagged) < limits.maxBytes)
      && AllAdmissible(limits, queue)
      && forall i :: 0 <= i < |requests| ==> Request(limits, requests[i])
    }

    constructor (l: Limits)
      requires l.batchSize >= 1
      ensures Valid() && limits == l && queue == [] && batch == [] && requests == []
    {
      limits := l;
      queue, batch, tagged, requests := [], [], 0, [];
    }

    method Flush()
      requires limits.batchSize >= 1 && tagged == Tagged(batch)
      requires batch != [] ==> Request(limits, batch)
      requires forall i :: 0 <= i < |requests| ==> Request(limits, requests[i])
      modifies this`batch, this`tagged, this`requests
      ensures batch == [] && tagged == 0
      ensures requests == old(requests) + if old(batch) == [] then [] else [old(batch)]
      ensures forall i :: 0 <= i < |requests| ==> Request(limits, requests[i])
    {
      if |batch| > 0 {
        requests := requests + [batch];
        batch, tagged := [], 0;
      }
    }

    /** Adds one record; the greedy split of everything still to be sent is what it was before. */
    method Add(rec: bytes, ghost rest: seq<bytes>)
      requires Valid() && Admissible(limits, rec)
      modifies this`batch, this`tagged, this`requests
      ensures Valid()
      ensures requests + Greedy(limits, batch + rest) == old(requests) + Greedy(limits, old(batch) + [rec] + rest)
    {
      hide SizeFor, Greedy, RecordCost, AllAdmissible, Admissible;
      var cost := RecordCost(|rec|);
      TaggedSnoc(batch, rec);
      if |batch| > 0 && SizeFor(limits.env, tagged + cost) > limits.maxBytes {
        CutBefore(limits, requests, batch, rec, rest);
        Flush();
      }
      TaggedSnoc(batch, rec);
      SingleFits(limits, rec);
      assert batch == [] ==> batch + [rec] == [rec];
      batch := batch + [rec];
      tagged := tagged + cost;
      assert Fits(limits, batch);
      if |batch| >= limits.batchSize || SizeFor(limits.env, tagged) >= limits.maxBytes {
        CutAfter(limits, requests, batch, rest);
        Flush();
      }
    }

    /**
      `drainQueued` on a queue nobody refills: the requests it issues are exactly the greedy split
      of the open batch followed by the queue.
    */
    method DrainQueued()
      requires Valid()
      modifies this
      ensures Valid() && queue == [] && batch == []
      ensures requests == old(requests) + Greedy(limits, old(batch) + old(queue))
    {
      hide Greedy;
      while |queue| > 0
        invariant Valid()
        invariant requests + Greedy(limits, batch + queue) == old(requests) + Greedy(limits, old(batch) + old(queue))
        decreases |queue|
      {
        var rec := queue[0];
        ghost var rest := queue[1..];
        assert batch + queue == batch + [rec] + rest;
        queue := queue[1..];
        Add(rec, rest);
      }
      assert batch + queue == batch;
      GreedyTail(limits, batch);
      Flush();
    }
  }

  /** Cutting in front of a record that no longer fits is the greedy choice. */
  lemma CutBefore(l: Limits, requests: seq<seq<bytes>>, batch: seq<bytes>, rec: bytes, rest: seq<bytes>)
    requires |batch| >= 1 && Fits(l, batch) && !Fits(l, batch + [rec])
    ensures requests + [batch] + Greedy(l, [] + [rec] + rest) == requests + Greedy(l, batch + [rec] + rest)
  {
    hide Fits, Greedy;
    GreedyCut(l, batch, [rec] + rest);
    assert batch + [rec] + rest == batch + ([rec] + rest);
    assert [] + [rec] + rest == [rec] + rest;
  }

  /** Cutting behind a record that reached a limit is the greedy choice. */
  lemma CutAfter(l: Limits, requests: seq<seq<bytes>>, batch: seq<bytes>, rest: seq<bytes>)
    requires |batch| >= 1 && Fits(l, batch)
    requires |batch| >= l.batchSize || SizeFor(l.env, Tagged(batch)) >= l.maxBytes
    ensures requests + [batch] + Greedy(l, [] + rest) == requests + Greedy(l, batch + rest)
  {
    hide SizeFor, Greedy;
    if |rest| > 0 { FullCannotGrow(l, batch, rest[0]); }
    GreedyCut(l, batch, rest);
    assert [] + rest == rest;
  }

  /** An open batch with nothing behind it is one last request. */
  lemma GreedyTail(l: Limits, batch: seq<bytes>)
    requires batch != [] ==> Fits(l, batch)
    ensures Greedy(l, batch) == if batch == [] then [] else [batch]
  {
    if batch != [] {
      GreedyCut(l, batch, []);
      assert batch + [] == batch;
    }
  }
}
