/**
  The shutdown drain of the OTLP writer: it ends in every interleaving, and the batches it sends are
  the greedy split of what was left.
*/
module FinalDrain {
  import opened Wire
  import opened Envelope
  import opened Batching
  import opened Ledger
  import opened OtlpWriter

  // ---------------------------------------------------------------------------------------
  // The final drain ends
  // ---------------------------------------------------------------------------------------

  function Weight(pc: RunPc): nat {
    match pc
    case RAdd(_, _) => 14
    case RExport(k) => if k.AndAppend? then 13 else if k.next.ToFinish? then 4 else 9
    case RCount(_, k) => if k.AndAppend? then 12 else if k.next.ToFinish? then 3 else 8
    case RAppend(_, _) => 11
    case RCheck(_) => 10
    case RDrain(_) => 6
    case RFlush(next) => if next.ToFinish? then 5 else 10
    case RFinish(_) => 2
    case RSelect => 1
    case RStopped => 0
  }

  /** Moves the flush goroutine can still make in its final drain. */
  function Rank(s: State): nat {
    10 * |s.queue| + Weight(s.run)
  }

  predicate Draining(s: State) {
    DrainOf(s.run) == Some(Final) || s.run.RStopped?
  }

  lemma RankTable(c: Config, s: State)
    requires WellPlaced(s.run) && DrainOf(s.run) == Some(Final) && Can(c, s, RunStep)
    ensures var (pc, w) := Proceed(c, s);
      && Weight(pc) < Weight(s.run) + (if w.Take? then 10 else 0)
      && (DrainOf(pc) == Some(Final) || pc.RStopped?) && pc != s.run
  {
  }

  lemma CarryQueue(s: State, w: Work)
    requires Feasible(s, w)
    ensures |Carry(s, w).queue| == |s.queue| - (if w.Take? then 1 else 0)
  {
  }

  lemma RankRun(c: Config, s: State)
    requires WellPlaced(s.run) && DrainOf(s.run) == Some(Final) && Can(c, s, RunStep)
    ensures var s' := DoRun(c, s); Rank(s') < Rank(s) && Draining(s') && s'.run != s.run
  {
    hide Proceed, Carry, Weight, DrainOf;
    RankTable(c, s);
    CarryQueue(s, Proceed(c, s).1);
  }

  lemma RankResolve(s: State, outcome: Outcome)
    requires WellPlaced(s.run) && DrainOf(s.run) == Some(Final) && s.run.RExport?
    ensures var s' := DoResolve(s, outcome); Rank(s') < Rank(s) && Draining(s') && s'.run != s.run
  {
  }

  /**
    In the final drain the flush goroutine always has a move, every move of it brings the end
    nearer, and nothing anyone else does sets it back: intake is closed.
  */
  lemma FinalProgress(c: Config, s: State, e: Step)
    requires Inv(c, s) && DrainOf(s.run) == Some(Final) && Can(c, s, e)
    ensures Can(c, s, RunStep) || Can(c, s, RunResolve(Failed))
    ensures var s' := Do(c, s, e);
      && Draining(s')
      && (e.RunStep? || e.RunResolve? ==> Rank(s') < Rank(s) && s'.run != s.run)
      && (!e.RunStep? && !e.RunResolve? ==> Rank(s') == Rank(s) && s'.run == s.run)
  {
    hide BoundsInv, OrderInv, LedgerInv, SyncInv, Plan, Perform, DoRun, DoResolve, Weight, Admitted, Holding;
    match e
    case WriteStep(t) =>
      PlanLock(c, s, s.writes[t]);
      PerformLock(s, t, Plan(c, s, s.writes[t]).1);
    case RunStep => RankRun(c, s);
    case RunResolve(outcome) => RankResolve(s, outcome);
    case WriteBegin(_, _) =>
    case SyncBegin(_) =>
    case SyncLoad(_) =>
    case SyncGiveUp(_) =>
    case SyncReturn(_) =>
    case CloseStep =>
  }

  /** Steps of the run from `i` to `j` in which the flush goroutine moved. */
  function MovesBetween(tr: seq<State>, i: nat, j: nat): nat
    requires i <= j < |tr|
    decreases j - i
  {
    if i == j then 0 else MovesBetween(tr, i, j - 1) + if tr[j - 1].run != tr[j].run then 1 else 0
  }

  /** From any point of its final drain the flush goroutine makes at most `Rank` more moves, in every interleaving. */
  lemma {:induction false} FinalDrainEnds(c: Config, tr: seq<State>, i: nat, j: nat)
    requires Normalized(c) && IsRun(c, tr) && i <= j < |tr| && Draining(tr[i])
    ensures Draining(tr[j]) && MovesBetween(tr, i, j) + Rank(tr[j]) <= Rank(tr[i]) <= 10 * c.queueSize + 14
    decreases j - i
  {
    hide Can, Do, LockInv, OrderInv, LedgerInv, SyncInv, Weight;
    InvReachable(c, tr, i);
    WeightBound(tr[i].run);
    if i < j {
      FinalDrainEnds(c, tr, i, j - 1);
      InvReachable(c, tr, j - 1);
      assert Next(c, tr[j - 1], tr[j]);
      var e :| Can(c, tr[j - 1], e) && tr[j] == Do(c, tr[j - 1], e);
      if tr[j - 1].run.RStopped? {
        StoppedStep(c, tr[j - 1], e);
        StoppedRun(c, tr[j - 1], e);
      } else {
        FinalProgress(c, tr[j - 1], e);
      }
    }
  }

  lemma WeightBound(pc: RunPc)
    ensures Weight(pc) <= 14
  {
  }

  lemma StoppedRun(c: Config, s: State, e: Step)
    requires s.run.RStopped? && Can(c, s, e)
    ensures Do(c, s, e).run == s.run
  {
    hide Plan, Perform, DoRun, DoResolve;
  }

  // ---------------------------------------------------------------------------------------
  // The final drain cuts greedily
  // ---------------------------------------------------------------------------------------

  /** The batches still to come if nothing more is enqueued, at each point of the flush goroutine. */
  function ToCome(l: Limits, batch: seq<bytes>, queue: seq<bytes>, pc: RunPc): seq<seq<bytes>> {
    match pc
    case RAdd(rec, _) => Greedy(l, batch + [rec] + queue)
    case RAppend(rec, _) => Greedy(l, batch + [rec] + queue)
    case RExport(k) => [batch] + Greedy(l, (if k.AndAppend? then [k.rec] else []) + queue)
    case RCount(_, k) => Greedy(l, (if k.AndAppend? then [k.rec] else []) + queue)
    case RFlush(_) => (if batch == [] then [] else [batch]) + Greedy(l, queue)
    case _ => Greedy(l, batch + queue)
  }

  function Outlook(c: Config, s: State): seq<seq<bytes>> {
    Batches(s.h.resolved) + ToCome(c.limits, s.batch, s.queue, s.run)
  }

  /** The limits as the cut tests see them. */
  lemma CutTests(c: Config, s: State, rec: bytes)
    requires BoundsInv(c, s) && s.run.RAdd? && s.run.rec == rec
    ensures MustCut(c, s, rec) ==> s.batch != [] && Fits(c.limits, s.batch) && !Fits(c.limits, s.batch + [rec])
  {
    hide SizeFor, RecordCost, PcAdmissible, AllAdmissible, Admissible;
    TaggedSnoc(s.batch, rec);
  }

  lemma ToComeAdd(c: Config, s: State)
    requires BoundsInv(c, s) && s.run.RAdd?
    ensures ToCome(c.limits, s.batch, s.queue, s.run) == ToCome(c.limits, s.batch, s.queue, Proceed(c, s).0)
  {
    hide BoundsInv, Greedy, Fits, MustCut;
    var rec := s.run.rec;
    CutTests(c, s, rec);
    if MustCut(c, s, rec) {
      CutBefore(c.limits, [], s.batch, rec, s.queue);
      assert [] + [s.batch] == [s.batch] && [] + [rec] + s.queue == [rec] + s.queue;
      assert [] + Greedy(c.limits, s.batch + [rec] + s.queue) == Greedy(c.limits, s.batch + [rec] + s.queue);
    }
  }

  lemma ToComeCheck(c: Config, s: State)
    requires BoundsInv(c, s) && s.run.RCheck? && WellPlaced(s.run) && s.run.next.ToDrain?
    ensures ToCome(c.limits, s.batch, s.queue, s.run) == ToCome(c.limits, s.batch, s.queue, Proceed(c, s).0)
  {
    hide Greedy, SizeFor, Tagged, PcAdmissible, AllAdmissible, Admissible;
    if Full(c, s) {
      CutAfter(c.limits, [], s.batch, s.queue);
      assert [] + [s.batch] == [s.batch] && [] + s.queue == s.queue;
      assert [] + Greedy(c.limits, s.batch + s.queue) == Greedy(c.limits, s.batch + s.queue);
    }
  }

  /** With an empty queue an open batch is the one request left. */
  lemma ToComeEmpty(l: Limits, batch: seq<bytes>)
    requires batch != [] ==> Fits(l, batch)
    ensures Greedy(l, batch + []) == (if batch == [] then [] else [batch]) + Greedy(l, [])
  {
    hide Fits;
    GreedyTail(l, batch);
    GreedyTail(l, []);
    assert batch + [] == batch;
  }

  lemma ToComeDrain(c: Config, s: State)
    requires BoundsInv(c, s) && s.run.RDrain?
    ensures var (pc, w) := Proceed(c, s);
      ToCome(c.limits, Carry(s, w).batch, Carry(s, w).queue, pc) == ToCome(c.limits, s.batch, s.queue, s.run)
  {
    hide Greedy, SizeFor, Tagged, PcAdmissible, AllAdmissible, Admissible;
    if s.queue != [] {
      assert s.batch + [s.queue[0]] + s.queue[1..] == s.batch + s.queue;
    } else {
      if s.batch != [] { EmptyOpen(c.limits, s.batch, s.tagged); }
      ToComeEmpty(c.limits, s.batch);
    }
  }

  lemma ToComeAppend(c: Config, s: State)
    requires s.run.RAppend? && s.run.next.ToDrain?
    ensures var (pc, w) := Proceed(c, s);
      ToCome(c.limits, Carry(s, w).batch, Carry(s, w).queue, pc) == ToCome(c.limits, s.batch, s.queue, s.run)
  {
    hide Greedy;
  }

  lemma ToComeFlush(c: Config, s: State)
    requires s.run.RFlush? && (s.run.next.ToFinish? ==> s.queue == [])
    ensures ToCome(c.limits, s.batch, s.queue, s.run) == ToCome(c.limits, s.batch, s.queue, Proceed(c, s).0)
  {
    hide Greedy;
    assert [] + s.queue == s.queue;
    assert [] + Greedy(c.limits, s.queue) == Greedy(c.limits, s.queue);
  }

  lemma ToComeContinue(l: Limits, queue: seq<bytes>, k: Cont)
    requires !k.next.ToSelect?
    ensures ToCome(l, [], queue, Continue(k)) == Greedy(l, (if k.AndAppend? then [k.rec] else []) + queue)
  {
    hide Greedy;
    if k.AndAppend? { assert [] + [k.rec] + queue == [k.rec] + queue; }
  }

  lemma CarryQuiet(c: Config, s: State)
    requires s.run.RAdd? || s.run.RCheck? || s.run.RFlush? || s.run.RCount? || s.run.RFinish?
    ensures var w := Proceed(c, s).1;
      Carry(s, w).batch == s.batch && Carry(s, w).queue == s.queue
  {
    hide MustCut, Full, Dequeue;
    match s.run
    case RAdd(_, _) =>
    case RCheck(_) =>
    case RFlush(_) =>
    case RCount(_, _) =>
    case RFinish(_) =>
  }

  lemma ToComeFinish(c: Config, s: State)
    requires s.run.RFinish?
    ensures ToCome(c.limits, s.batch, s.queue, s.run) == ToCome(c.limits, s.batch, s.queue, Proceed(c, s).0)
  {
    hide Greedy;
  }

  /** A move of the final drain leaves the batches to come as they were. */
  lemma OutlookRun(c: Config, s: State)
    requires BoundsInv(c, s) && FinalInv(s) && DrainOf(s.run) == Some(Final) && Can(c, s, RunStep)
    ensures Outlook(c, DoRun(c, s)) == Outlook(c, s)
  {
    hide Proceed, Carry, BoundsInv, ToCome, Batches, Greedy, Continue;
    CarryFrame(s, Proceed(c, s).1);
    match s.run
    case RDrain(_) => ToComeDrain(c, s);
    case RAdd(_, _) => CarryQuiet(c, s); ToComeAdd(c, s);
    case RAppend(_, _) => ToComeAppend(c, s);
    case RCheck(_) => CarryQuiet(c, s); ToComeCheck(c, s);
    case RFlush(_) => CarryQuiet(c, s); ToComeFlush(c, s);
    case RCount(_, k) => CarryQuiet(c, s); OutlookCount(c, s);
    case RFinish(_) => CarryQuiet(c, s); ToComeFinish(c, s);
  }

  lemma CarryFrame(s: State, w: Work)
    requires Feasible(s, w)
    ensures Carry(s, w).h.resolved == s.h.resolved
  {
  }

  lemma OutlookCount(c: Config, s: State)
    requires BoundsInv(c, s) && s.run.RCount? && DrainOf(s.run) == Some(Final)
    ensures ToCome(c.limits, s.batch, s.queue, s.run) == ToCome(c.limits, s.batch, s.queue, Proceed(c, s).0)
  {
    hide Greedy, Admissible, PcAdmissible, AllAdmissible, Tagged, SizeFor, Continue;
    ToComeContinue(c.limits, s.queue, s.run.cont);
  }

  lemma OutlookResolve(c: Config, s: State, outcome: Outcome)
    requires s.run.RExport? && DrainOf(s.run) == Some(Final)
    ensures Outlook(c, DoResolve(s, outcome)) == Outlook(c, s)
  {
    hide Greedy, Continue, Batches, Lost;
    var k := s.run.cont;
    var rest := Greedy(c.limits, (if k.AndAppend? then [k.rec] else []) + s.queue);
    BatchesSnoc(s.h.resolved, Resolved(s.batch, outcome));
    ToComeContinue(c.limits, s.queue, k);
    Assoc(Batches(s.h.resolved), [s.batch], rest);
  }

  /** Nobody else touches what the final drain works on. */
  lemma OutlookOthers(c: Config, s: State, e: Step)
    requires LockInv(s) && FinalInv(s) && DrainOf(s.run) == Some(Final) && Can(c, s, e) && !e.RunStep? && !e.RunResolve?
    ensures var s' := Do(c, s, e);
      s'.run == s.run && s'.batch == s.batch && s'.queue == s.queue && s'.h.resolved == s.h.resolved
  {
    hide Plan, Perform, Admitted, Holding;
    match e
    case WriteStep(t) =>
      PlanLock(c, s, s.writes[t]);
      PerformLock(s, t, Plan(c, s, s.writes[t]).1);
      PerformResolved(s, t, Plan(c, s, s.writes[t]).1);
    case WriteBegin(_, _) =>
    case SyncBegin(_) =>
    case SyncLoad(_) =>
    case SyncGiveUp(_) =>
    case SyncReturn(_) =>
    case CloseStep =>
  }

  lemma PerformResolved(s: State, t: Tid, f: Effect)
    requires Possible(s, f)
    ensures Perform(s, t, f).h.resolved == s.h.resolved
  {
  }

  lemma OutlookStep(c: Config, s: State, e: Step)
    requires Inv(c, s) && DrainOf(s.run) == Some(Final) && Can(c, s, e)
    ensures Outlook(c, Do(c, s, e)) == Outlook(c, s)
  {
    hide LockInv, FinalInv, BoundsInv, OrderInv, LedgerInv, SyncInv, DoRun, DoResolve, Batches, ToCome;
    match e
    case RunStep => OutlookRun(c, s);
    case RunResolve(outcome) => OutlookResolve(c, s, outcome);
    case WriteBegin(_, _) => OutlookOthers(c, s, e);
    case WriteStep(_) => OutlookOthers(c, s, e);
    case SyncBegin(_) => OutlookOthers(c, s, e);
    case SyncLoad(_) => OutlookOthers(c, s, e);
    case SyncGiveUp(_) => OutlookOthers(c, s, e);
    case SyncReturn(_) => OutlookOthers(c, s, e);
    case CloseStep => OutlookOthers(c, s, e);
  }

  lemma {:induction false} OutlookKept(c: Config, tr: seq<State>, i: nat, j: nat)
    requires Normalized(c) && IsRun(c, tr) && i <= j < |tr| && Draining(tr[i])
    ensures Outlook(c, tr[j]) == Outlook(c, tr[i])
    decreases j - i
  {
    hide Can, Do, Outlook, LockInv, FinalInv, BoundsInv, OrderInv, LedgerInv, SyncInv, DrainOf;
    if i < j {
      OutlookKept(c, tr, i, j - 1);
      FinalDrainEnds(c, tr, i, j - 1);
      InvReachable(c, tr, j - 1);
      assert Next(c, tr[j - 1], tr[j]);
      var e :| Can(c, tr[j - 1], e) && tr[j] == Do(c, tr[j - 1], e);
      if tr[j - 1].run.RStopped? {
        StoppedOutlook(c, tr[j - 1], e);
      } else {
        OutlookStep(c, tr[j - 1], e);
      }
    }
  }

  lemma StoppedOutlook(c: Config, s: State, e: Step)
    requires Inv(c, s) && s.run.RStopped? && Can(c, s, e)
    ensures Outlook(c, Do(c, s, e)) == Outlook(c, s)
  {
    hide Batches, ToCome, OrderInv, LedgerInv, SyncInv, Do;
    StoppedStep(c, s, e);
    StoppedRun(c, s, e);
    StoppedHistory(c, s, e);
    StoppedNow(c, s);
  }

  lemma StoppedNow(c: Config, s: State)
    requires BoundsInv(c, s) && FinalInv(s) && s.run.RStopped?
    ensures s.queue == [] && s.batch == []
  {
  }

  lemma StoppedHistory(c: Config, s: State, e: Step)
    requires s.run.RStopped? && Can(c, s, e)
    ensures Do(c, s, e).h.resolved == s.h.resolved
  {
    hide Plan, Perform;
    match e
    case WriteStep(t) => PerformResolved(s, t, Plan(c, s, s.writes[t]).1);
    case WriteBegin(_, _) =>
    case SyncBegin(_) =>
    case SyncLoad(_) =>
    case SyncGiveUp(_) =>
    case SyncReturn(_) =>
    case CloseStep =>
  }

  /**
    The final drain is the greedy split.  In every interleaving, the batches it hands to the
    transport are exactly the greedy split of what the batch and the queue held when it began; so no
    order-preserving split within both limits would have needed fewer requests.
  */
  lemma FinalDrainGreedy(c: Config, tr: seq<State>, i: nat, j: nat)
    requires Normalized(c) && IsRun(c, tr) && i <= j < |tr| && tr[i].run == RDrain(Final) && tr[j].run.RStopped?
    ensures Batches(tr[j].h.resolved)
         == Batches(tr[i].h.resolved) + Greedy(c.limits, tr[i].batch + tr[i].queue)
  {
    hide Greedy, Batches, OrderInv, LedgerInv, SyncInv, LockInv, Can, Do;
    OutlookKept(c, tr, i, j);
    InvReachable(c, tr, j);
    StoppedNow(c, tr[j]);
    GreedyTail(c.limits, []);
    assert tr[j].batch + tr[j].queue == [];
    assert Batches(tr[j].h.resolved) + [] == Batches(tr[j].h.resolved);
  }
}
