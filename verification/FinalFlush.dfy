/**
  The shutdown flush of the asynchronous root writer (`flushAll` in writer.go): it ends in every
  interleaving, and its frames are what was left, cut into pieces of `batchSize`.
*/
module FinalFlush {
  import opened Wire
  import opened Ledger
  import opened RootAsync

  predicate Flushing(s: State) {
    DrainOf(s.run) == Some(Final) || s.run.RStopped?
  }

  // ---------------------------------------------------------------------------------------
  // It ends
  // ---------------------------------------------------------------------------------------

  function Weight(pc: RunPc): nat {
    match pc
    case RCount(_, _) => 5
    case RFill(_) => 3
    case RWrite(_) => 2
    case RFinish(_) => 1
    case RSelect => 1
    case RStopped => 0
  }

  /** Moves the flush goroutine can still make in its final flush. */
  function Rank(s: State): nat {
    5 * |s.queue| + 4 * |s.batch| + Weight(s.run)
  }

  lemma RankTable(c: Config, s: State, ok: bool)
    requires DrainOf(s.run) == Some(Final) && BatchAt(c, s.batch, s.run)
    ensures var (pc, f) := RunPlan(c, s, ok);
      && (DrainOf(pc) == Some(Final) || pc.RStopped?)
      && (f.Take? ==> pc == s.run)
      && (f.Resolve? ==> |s.batch| >= 1 && Weight(pc) < Weight(s.run) + 4)
      && (!f.Take? && !f.Resolve? ==> Weight(pc) < Weight(s.run) && pc != s.run)
  {
  }

  lemma RankRun(c: Config, s: State, ok: bool)
    requires BatchAt(c, s.batch, s.run) && DrainOf(s.run) == Some(Final) && Can(c, s, RunStep(ok))
    ensures var s' := DoRun(c, s, ok); Rank(s') < Rank(s) && Flushing(s')
  {
    hide RunPlan, Perform, Weight, DrainOf, BatchAt;
    RankTable(c, s, ok);
    RunTable(c, s, ok);
    PerformParts(s, 0, RunPlan(c, s, ok).1);
  }

  /** Nobody else touches what the final flush works on: intake is closed. */
  lemma Undisturbed(c: Config, s: State, e: Step)
    requires LockInv(s) && FinalInv(s) && Flushing(s) && Can(c, s, e) && !e.RunStep?
    ensures var s' := Do(c, s, e);
      s'.run == s.run && s'.batch == s.batch && s'.queue == s.queue && s'.h.resolved == s.h.resolved
  {
    hide WritePlan, Perform, Holding, Admitted, Owing, Carrying;
    if e.WriteStep? {
      WriteTable(c, s, s.writes[e.t]);
      PerformParts(s, e.t, WritePlan(c, s, s.writes[e.t]).1);
      PerformHistory(s, e.t, WritePlan(c, s, s.writes[e.t]).1);
    } else {
      QuietSteps(c, s, e);
    }
  }

  /**
    In the final flush the flush goroutine always has a move, every move of it brings the end
    nearer, and nothing anyone else does sets it back.
  */
  lemma FinalProgress(c: Config, s: State, e: Step)
    requires Inv(c, s) && DrainOf(s.run) == Some(Final) && Can(c, s, e)
    ensures Can(c, s, RunStep(true))
    ensures var s' := Do(c, s, e);
      Flushing(s') && if e.RunStep? then Rank(s') < Rank(s) else Rank(s') == Rank(s) && s'.run == s.run
  {
    hide OrderInv, LedgerInv, ArrivalInv, SyncInv, LockInv, DoRun, Rank, BatchAt, FinalInv;
    if e.RunStep? {
      RankRun(c, s, e.ok);
    } else {
      Undisturbed(c, s, e);
      SameRank(s, Do(c, s, e));
    }
  }

  lemma SameRank(s: State, s': State)
    requires s'.run == s.run && s'.batch == s.batch && s'.queue == s.queue
    ensures Rank(s') == Rank(s)
  {
  }

  /** Steps of the run from `i` to `j` in which the rank changed. */
  function MovesBetween(tr: seq<State>, i: nat, j: nat): nat
    requires i <= j < |tr|
    decreases j - i
  {
    if i == j then 0 else MovesBetween(tr, i, j - 1) + if Rank(tr[j - 1]) != Rank(tr[j]) then 1 else 0
  }

  lemma RankBound(c: Config, s: State)
    requires BoundsInv(c, s)
    ensures Rank(s) <= 5 * c.bufferSize + 4 * c.batchSize + 5
  {
  }

  lemma StoppedNow(c: Config, s: State)
    requires BoundsInv(c, s) && FinalInv(s) && s.run.RStopped?
    ensures s.queue == [] && s.batch == []
  {
  }

  /** From any point of the final flush the flush goroutine makes at most `Rank` more moves, in every interleaving. */
  lemma {:induction false} FinalFlushEnds(c: Config, tr: seq<State>, i: nat, j: nat)
    requires Normalized(c) && IsRun(c, tr) && i <= j < |tr| && Flushing(tr[i])
    ensures Flushing(tr[j])
    ensures MovesBetween(tr, i, j) + Rank(tr[j]) <= Rank(tr[i]) <= 5 * c.bufferSize + 4 * c.batchSize + 5
    decreases j - i
  {
    hide Can, Do, LockInv, OrderInv, LedgerInv, ArrivalInv, SyncInv, FinalInv, Rank, BoundsInv;
    InvReachable(c, tr, i);
    RankBound(c, tr[i]);
    if i < j {
      FinalFlushEnds(c, tr, i, j - 1);
      InvReachable(c, tr, j - 1);
      assert Next(c, tr[j - 1], tr[j]);
      var e :| Can(c, tr[j - 1], e) && tr[j] == Do(c, tr[j - 1], e);
      if tr[j - 1].run.RStopped? {
        StillStopped(c, tr[j - 1], e);
        SameRank(tr[j - 1], tr[j]);
      } else {
        FinalProgress(c, tr[j - 1], e);
      }
    }
  }

  lemma StillStopped(c: Config, s: State, e: Step)
    requires LockInv(s) && FinalInv(s) && s.run.RStopped? && Can(c, s, e)
    ensures var s' := Do(c, s, e);
      s'.run == s.run && s'.batch == s.batch && s'.queue == s.queue && s'.h.resolved == s.h.resolved
  {
    hide LockInv, FinalInv, Do;
    Undisturbed(c, s, e);
  }

  // ---------------------------------------------------------------------------------------
  // What it writes
  // ---------------------------------------------------------------------------------------

  /** The payloads in pieces of `n`, the last one possibly shorter. */
  function Pieces(n: nat, q: seq<bytes>): seq<seq<bytes>>
    requires n >= 1
    decreases |q|
  {
    if |q| == 0 then [] else if |q| <= n then [q] else [q[..n]] + Pieces(n, q[n..])
  }

  lemma PiecesCut(n: nat, batch: seq<bytes>, queue: seq<bytes>)
    requires 1 <= |batch| <= n && (|batch| == n || queue == [])
    ensures Pieces(n, batch + queue) == [batch] + Pieces(n, queue)
  {
    if queue == [] {
      assert batch + queue == batch;
      assert [batch] + [] == [batch];
    } else {
      assert (batch + queue)[..n] == batch && (batch + queue)[n..] == queue;
    }
  }

  /** The frames still to come if nothing more is enqueued. */
  function ToCome(n: nat, batch: seq<bytes>, queue: seq<bytes>, pc: RunPc): seq<seq<bytes>>
    requires n >= 1
  {
    match pc
    case RWrite(_) => [batch] + Pieces(n, queue)
    case RCount(_, _) => Pieces(n, queue)
    case _ => Pieces(n, batch + queue)
  }

  function Outlook(c: Config, s: State): seq<seq<bytes>>
    requires c.batchSize >= 1
  {
    Batches(s.h.resolved) + ToCome(c.batchSize, s.batch, s.queue, s.run)
  }

  lemma OutlookFill(c: Config, s: State, ok: bool)
    requires c.batchSize >= 1 && BatchAt(c, s.batch, s.run) && s.run == RFill(All(Final))
    ensures Outlook(c, DoRun(c, s, ok)) == Outlook(c, s)
  {
    hide Pieces, Batches;
    if |s.batch| < c.batchSize && s.queue != [] {
      assert s.batch + [s.queue[0]] + s.queue[1..] == s.batch + s.queue;
    } else if s.batch != [] {
      PiecesCut(c.batchSize, s.batch, s.queue);
    }
  }

  lemma OutlookWrite(c: Config, s: State, ok: bool)
    requires c.batchSize >= 1 && s.run == RWrite(All(Final))
    ensures Outlook(c, DoRun(c, s, ok)) == Outlook(c, s)
  {
    hide Pieces, Batches;
    BatchesSnoc(s.h.resolved, Ended(s, ok));
    assert [] + s.queue == s.queue;
    Assoc(Batches(s.h.resolved), [s.batch], Pieces(c.batchSize, s.queue));
  }

  lemma OutlookRest(c: Config, s: State, ok: bool)
    requires c.batchSize >= 1 && BatchAt(c, s.batch, s.run) && DrainOf(s.run) == Some(Final)
    requires s.run.RCount? || s.run.RFinish?
    ensures Outlook(c, DoRun(c, s, ok)) == Outlook(c, s)
  {
    hide Pieces, Batches;
    assert [] + s.queue == s.queue;
  }

  lemma OutlookStep(c: Config, s: State, e: Step)
    requires Inv(c, s) && Flushing(s) && Can(c, s, e)
    ensures Outlook(c, Do(c, s, e)) == Outlook(c, s)
  {
    hide OrderInv, LedgerInv, ArrivalInv, SyncInv, LockInv, FinalInv, DoRun, Outlook, BatchAt;
    if e.RunStep? {
      match s.run
      case RFill(_) => OutlookFill(c, s, e.ok);
      case RWrite(_) => OutlookWrite(c, s, e.ok);
      case RCount(_, _) => OutlookRest(c, s, e.ok);
      case RFinish(_) => OutlookRest(c, s, e.ok);
    } else {
      Undisturbed(c, s, e);
      SameOutlook(c, s, Do(c, s, e));
    }
  }

  lemma SameOutlook(c: Config, s: State, s': State)
    requires c.batchSize >= 1
    requires s'.run == s.run && s'.batch == s.batch && s'.queue == s.queue && s'.h.resolved == s.h.resolved
    ensures Outlook(c, s') == Outlook(c, s)
  {
  }

  lemma {:induction false} OutlookKept(c: Config, tr: seq<State>, i: nat, j: nat)
    requires Normalized(c) && IsRun(c, tr) && i <= j < |tr| && Flushing(tr[i])
    ensures Outlook(c, tr[j]) == Outlook(c, tr[i])
    decreases j - i
  {
    hide Can, Do, Outlook, Inv;
    if i < j {
      OutlookKept(c, tr, i, j - 1);
      FinalFlushEnds(c, tr, i, j - 1);
      InvReachable(c, tr, j - 1);
      assert Next(c, tr[j - 1], tr[j]);
      var e :| Can(c, tr[j - 1], e) && tr[j] == Do(c, tr[j - 1], e);
      OutlookStep(c, tr[j - 1], e);
    }
  }

  /**
    In every interleaving the frames of the final flush are exactly what the batch and the queue held
    when it began, in order, in pieces of `batchSize`.
  */
  lemma FinalFlushFrames(c: Config, tr: seq<State>, i: nat, j: nat)
    requires Normalized(c) && IsRun(c, tr) && i <= j < |tr| && tr[i].run == RFill(All(Final)) && tr[j].run.RStopped?
    ensures Batches(tr[j].h.resolved) == Batches(tr[i].h.resolved) + Pieces(c.batchSize, tr[i].batch + tr[i].queue)
  {
    hide Pieces, Batches, OrderInv, LedgerInv, ArrivalInv, SyncInv, LockInv, Can, Do;
    OutlookKept(c, tr, i, j);
    InvReachable(c, tr, j);
    StoppedNow(c, tr[j]);
    assert tr[j].batch + tr[j].queue == [];
    NoPieces(c.batchSize);
    assert Batches(tr[j].h.resolved) + [] == Batches(tr[j].h.resolved);
  }

  lemma NoPieces(n: nat)
    requires n >= 1
    ensures Pieces(n, []) == []
  {
  }
}
