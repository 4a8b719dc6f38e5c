/**
  What the operations of the OTLP writer do (otlp/writer.go): a `Write` call alone, from its first
  statement to its return; in any interleaving, when a record may be refused, evicted or found too
  large; and the moves of the flush goroutine between two selects.
*/
module OtlpCalls {
  import opened Wire
  import opened Envelope
  import opened Batching
  import opened Ledger
  import opened OtlpWriter

  // ---------------------------------------------------------------------------------------
  // A call that nobody interrupts
  // ---------------------------------------------------------------------------------------

  /** The state after up to `n` steps of call `t` with nobody else moving. */
  function Alone(c: Config, s: State, t: Tid, n: nat): State
    decreases n
  {
    if n == 0 || !Can(c, s, WriteStep(t)) then s else Alone(c, Do(c, s, WriteStep(t)), t, n - 1)
  }

  lemma AloneStep(c: Config, s: State, t: Tid, n: nat)
    requires n > 0 && Can(c, s, WriteStep(t))
    ensures Alone(c, s, t, n) == Alone(c, DoWrite(c, s, t), t, n - 1)
  {
    hide Plan, Perform;
  }

  lemma AloneDone(c: Config, s: State, t: Tid, n: nat)
    requires t in s.writes && s.writes[t].WReturned?
    ensures Alone(c, s, t, n) == s
  {
  }

  /** Leaving: the lock is given back. */
  lemma AloneLeaves(c: Config, s: State, t: Tid, n: nat)
    requires t in s.writes && n >= 1 && s.writes[t].WUnlock?
    ensures var r := Alone(c, s, t, n);
      r == s.(readers := s.readers - {t}, writes := s.writes[t := WReturned])
  {
    var m := DoWrite(c, s, t);
    AloneStep(c, s, t, n);
    AloneDone(c, m, t, n - 1);
  }

  lemma AloneCounts(c: Config, s: State, t: Tid, n: nat)
    requires t in s.writes && n >= 2 && s.writes[t].WCount?
    ensures var r := Alone(c, s, t, n);
      r == s.(readers := s.readers - {t}, dropped := s.dropped + 1, writes := s.writes[t := WReturned])
  {
    hide Alone;
    var m := DoWrite(c, s, t);
    AloneStep(c, s, t, n);
    AloneLeaves(c, m, t, n - 1);
    assert s.writes[t := WUnlock][t := WReturned] == s.writes[t := WReturned];
  }

  /** The state of the queue and of the counts when a call has returned. */
  datatype After = After(queue: seq<bytes>, removed: seq<Removal>, dropped: nat, oversize: nat, refused: nat)

  function Seen(s: State): After {
    After(s.queue, s.h.removed, s.dropped, s.h.oversize, s.h.refused)
  }

  /** The resend after an eviction finds room. */
  lemma AloneResends(c: Config, s: State, t: Tid, n: nat, rec: bytes)
    requires t in s.writes && n >= 2 && s.writes[t] == WResend(rec) && |s.queue| < c.queueSize
    ensures var r := Alone(c, s, t, n);
      && t in r.writes && r.writes[t].WReturned? && r.readers == s.readers - {t}
      && Seen(r) == Seen(s).(queue := s.queue + [rec]) && r.h.enqueued == s.h.enqueued + [rec]
  {
    hide Alone;
    AloneStep(c, s, t, n);
    AloneLeaves(c, DoWrite(c, s, t), t, n - 1);
  }

  lemma AloneEvicts(c: Config, s: State, t: Tid, n: nat, rec: bytes)
    requires t in s.writes && n >= 4 && s.writes[t] == WEvict(rec) && 1 <= |s.queue| <= c.queueSize
    ensures var r := Alone(c, s, t, n);
      && t in r.writes && r.writes[t].WReturned? && r.readers == s.readers - {t}
      && Seen(r) == Seen(s).(queue := s.queue[1..] + [rec], removed := s.h.removed + [Removal(s.queue[0], false)],
                             dropped := s.dropped + 1)
      && r.h.enqueued == s.h.enqueued + [rec]
  {
    hide Alone;
    var evicted := DoWrite(c, s, t);
    AloneStep(c, s, t, n);
    assert evicted.writes[t] == WEvicted(rec) && evicted.queue == s.queue[1..];
    var counted := DoWrite(c, evicted, t);
    AloneStep(c, evicted, t, n - 1);
    AloneResends(c, counted, t, n - 2, rec);
  }

  /** From the first try to send on. */
  lemma AloneSends(c: Config, s: State, t: Tid, n: nat, rec: bytes)
    requires t in s.writes && n >= 5 && s.writes[t] == WSend(rec) && |s.queue| <= c.queueSize && c.queueSize >= 1
    ensures var r := Alone(c, s, t, n);
      && t in r.writes && r.writes[t].WReturned? && r.readers == s.readers - {t}
      && if |s.queue| < c.queueSize then
           Seen(r) == Seen(s).(queue := s.queue + [rec])
         else if c.policy == DropNewest then
           Seen(r) == Seen(s).(dropped := s.dropped + 1, refused := s.h.refused + 1)
         else
           Seen(r) == Seen(s).(queue := s.queue[1..] + [rec], removed := s.h.removed + [Removal(s.queue[0], false)],
                               dropped := s.dropped + 1)
  {
    hide Alone;
    var m := DoWrite(c, s, t);
    AloneStep(c, s, t, n);
    if |s.queue| < c.queueSize {
      AloneLeaves(c, m, t, n - 1);
    } else if c.policy.DropNewest? {
      AloneCounts(c, m, t, n - 1);
    } else {
      AloneEvicts(c, m, t, n - 1, rec);
    }
  }

  /**
    A whole call, uninterrupted.  After the close the record is discarded without a count; one whose
    request would exceed maxBytes is counted and refused; else, if there is room, it is enqueued; else
    the policy decides: DropNewest refuses and counts it, DropOldest counts and evicts the head of the
    queue and enqueues it.
  */
  lemma WriteAlone(c: Config, s: State, t: Tid, rec: bytes)
    requires LockInv(s) && t in s.writes && s.writes[t] == WEnter(rec) && !s.writer
    requires |s.queue| <= c.queueSize && c.queueSize >= 1
    ensures var r := Alone(c, s, t, 8);
      && t in r.writes && r.writes[t].WReturned? && r.readers == s.readers
      && if s.closed then
           Seen(r) == Seen(s)
         else if SizeFor(c.limits.env, RecordCost(|rec|)) > c.limits.maxBytes then
           Seen(r) == Seen(s).(dropped := s.dropped + 1, oversize := s.h.oversize + 1)
         else if |s.queue| < c.queueSize then
           Seen(r) == Seen(s).(queue := s.queue + [rec])
         else if c.policy == DropNewest then
           Seen(r) == Seen(s).(dropped := s.dropped + 1, refused := s.h.refused + 1)
         else
           Seen(r) == Seen(s).(queue := s.queue[1..] + [rec], removed := s.h.removed + [Removal(s.queue[0], false)],
                               dropped := s.dropped + 1)
  {
    hide Alone, SizeFor, RecordCost;
    assert t !in s.readers;
    var locked := DoWrite(c, s, t);
    AloneStep(c, s, t, 8);
    assert locked.readers - {t} == s.readers;
    var checked := DoWrite(c, locked, t);
    AloneStep(c, locked, t, 7);
    if s.closed {
      AloneLeaves(c, checked, t, 6);
    } else if !Admissible(c.limits, rec) {
      AloneCounts(c, checked, t, 6);
    } else {
      AloneSends(c, checked, t, 6, rec);
    }
  }

  // ---------------------------------------------------------------------------------------
  // In any interleaving
  // ---------------------------------------------------------------------------------------

  /** Between having found the queue full and the second try to send. */
  predicate Replacing(pc: WritePc) {
    pc.WEvict? || pc.WEvicted? || pc.WResend?
  }

  ghost predicate PolicyInv(c: Config, s: State) {
    c.policy == DropNewest ==>
      Evictions(s.h.removed) == 0 && forall t :: t in s.writes ==> !Replacing(s.writes[t])
  }

  /** The only steps that refuse, evict or reject for size, and what the queue was then. */
  lemma WriteTable(c: Config, s: State, t: Tid)
    requires Can(c, s, WriteStep(t))
    ensures var s' := DoWrite(c, s, t); var pc := s.writes[t];
      && (Replacing(s'.writes[t]) ==>
            Replacing(pc) || (pc.WSend? && |s.queue| >= c.queueSize && c.policy == DropOldest))
      && (s'.writes[t].WEvict? ==> pc == WSend(s'.writes[t].rec))
      && (s'.h.refused != s.h.refused ==>
            s'.h.refused == s.h.refused + 1 && |s.queue| >= c.queueSize && s'.queue == s.queue
            && (pc.WSend? || pc.WResend?) && (pc.WSend? ==> c.policy == DropNewest))
      && (s'.h.removed != s.h.removed ==>
            pc.WEvict? && s.queue != [] && s'.h.removed == s.h.removed + [Removal(s.queue[0], false)])
      && (s'.h.oversize != s.h.oversize ==>
            s'.h.oversize == s.h.oversize + 1 && pc.WLocked? && !s.closed
            && SizeFor(c.limits.env, RecordCost(|pc.rec|)) > c.limits.maxBytes)
      && s'.h.resolved == s.h.resolved
  {
    hide SizeFor, RecordCost, Plan, Perform, Admissible, Replacing;
    PlanTable(c, s, s.writes[t]);
    PerformCounts(s, t, Plan(c, s, s.writes[t]).1);
  }

  lemma PlanTable(c: Config, s: State, pc: WritePc)
    ensures var (pc', f) := Plan(c, s, pc);
      && (Replacing(pc') ==>
            Replacing(pc) || (pc.WSend? && |s.queue| >= c.queueSize && c.policy == DropOldest))
      && (pc'.WEvict? ==> pc == WSend(pc'.rec))
      && (f.Refuse? ==>
            |s.queue| >= c.queueSize && (pc.WSend? || pc.WResend?) && (pc.WSend? ==> c.policy == DropNewest))
      && (f.Evict? ==> pc.WEvict? && s.queue != [])
      && (f.Oversize? ==>
            pc.WLocked? && !s.closed && SizeFor(c.limits.env, RecordCost(|pc.rec|)) > c.limits.maxBytes)
  {
    hide SizeFor, RecordCost;
  }

  lemma PerformCounts(s: State, t: Tid, f: Effect)
    requires Possible(s, f)
    ensures var r := Perform(s, t, f);
      && r.h.refused == s.h.refused + (if f.Refuse? then 1 else 0)
      && r.h.oversize == s.h.oversize + (if f.Oversize? then 1 else 0)
      && r.h.removed == (if f.Evict? then s.h.removed + [Removal(s.queue[0], false)] else s.h.removed)
      && (f.Refuse? ==> r.queue == s.queue)
      && r.h.resolved == s.h.resolved
  {
  }

  /** Every other step leaves these counts alone, and evicts nothing. */
  lemma OtherSteps(c: Config, s: State, e: Step)
    requires Can(c, s, e) && !e.WriteStep?
    ensures var s' := Do(c, s, e);
      && s'.h.refused == s.h.refused && s'.h.oversize == s.h.oversize
      && (s'.h.removed == s.h.removed
          || (s.queue != [] && s'.h.removed == s.h.removed + [Removal(s.queue[0], true)]))
      && (s'.writes == s.writes || (e.WriteBegin? && s'.writes == s.writes[e.t := WEnter(e.rec)]))
  {
    hide Plan, Perform, Proceed, Carry;
    if IsControl(e) {
      ControlFrame(c, s, e);
    } else if e.RunStep? {
      CarryRemoved(s, Proceed(c, s).1);
    }
  }

  lemma CarryRemoved(s: State, w: Work)
    requires Feasible(s, w)
    ensures var r := Carry(s, w);
      r.h.removed == s.h.removed || (s.queue != [] && r.h.removed == s.h.removed + [Removal(s.queue[0], true)])
  {
  }

  lemma PolicyStep(c: Config, s: State, e: Step)
    requires PolicyInv(c, s) && Can(c, s, e)
    ensures PolicyInv(c, Do(c, s, e))
  {
    hide DoWrite, Evictions, Replacing;
    if e.WriteStep? {
      WriteTable(c, s, e.t);
      SendFirst(s.writes[e.t]);
      WritesOthers(c, s, e.t);
    } else {
      OtherSteps(c, s, e);
      if s.queue != [] { EvictionsSnoc(s.h.removed, s.queue[0], true); }
      if e.WriteBegin? { SendFirst(WEnter(e.rec)); }
    }
  }

  lemma SendFirst(pc: WritePc)
    ensures pc.WEvict? ==> Replacing(pc)
    ensures pc.WEnter? ==> !Replacing(pc)
  {
  }

  lemma WritesOthers(c: Config, s: State, t: Tid)
    requires t in s.writes
    ensures var w := DoWrite(c, s, t).writes; t in w && w == s.writes[t := w[t]]
  {
    hide Plan, Perform;
  }

  lemma {:induction false} PolicyReachable(c: Config, tr: seq<State>, i: nat)
    requires Normalized(c) && IsRun(c, tr) && i < |tr|
    ensures PolicyInv(c, tr[i])
  {
    hide Can, Do, PolicyInv;
    if i == 0 {
      NothingYet(c, tr[0]);
    } else {
      PolicyReachable(c, tr, i - 1);
      assert Next(c, tr[i - 1], tr[i]);
      var e :| Can(c, tr[i - 1], e) && tr[i] == Do(c, tr[i - 1], e);
      PolicyStep(c, tr[i - 1], e);
    }
  }

  lemma NothingYet(c: Config, s: State)
    requires Init(s)
    ensures PolicyInv(c, s)
  {
  }

  /** Under DropNewest nothing is ever evicted. */
  lemma NeverEvicts(c: Config, tr: seq<State>, i: nat)
    requires Normalized(c) && IsRun(c, tr) && i < |tr| && c.policy == DropNewest
    ensures Evictions(tr[i].h.removed) == 0
  {
    hide IsRun, Evictions;
    PolicyReachable(c, tr, i);
  }

  /** At a try to send that may refuse: the first one under DropNewest, or the one after an eviction. */
  predicate Refuses(c: Config, pc: WritePc) {
    (pc.WSend? && c.policy == DropNewest) || pc.WResend?
  }

  /**
    In any interleaving a record is refused only with the queue full to capacity, and the queue is
    left as it was; a call refuses at its first try only under DropNewest.  A record is rejected for
    its size only if its request alone would exceed maxBytes.
  */
  lemma RefusedOnlyWhenFull(c: Config, tr: seq<State>, i: nat)
    requires Normalized(c) && IsRun(c, tr) && i + 1 < |tr|
    ensures tr[i + 1].h.refused != tr[i].h.refused ==>
      && tr[i + 1].h.refused == tr[i].h.refused + 1
      && |tr[i].queue| == c.queueSize && tr[i + 1].queue == tr[i].queue
      && exists t :: t in tr[i].writes && Refuses(c, tr[i].writes[t])
    ensures tr[i + 1].h.oversize != tr[i].h.oversize ==>
      && tr[i + 1].h.oversize == tr[i].h.oversize + 1
      && exists t :: t in tr[i].writes && tr[i].writes[t].WLocked?
           && SizeFor(c.limits.env, RecordCost(|tr[i].writes[t].rec|)) > c.limits.maxBytes
  {
    hide Can, Do, LockInv, FinalInv, OrderInv, LedgerInv, SyncInv, SizeFor, RecordCost;
    InvReachable(c, tr, i);
    assert Next(c, tr[i], tr[i + 1]);
    var e :| Can(c, tr[i], e) && tr[i + 1] == Do(c, tr[i], e);
    CountsMove(c, tr[i], e);
  }

  lemma CountsMove(c: Config, s: State, e: Step)
    requires Can(c, s, e)
    ensures var s' := Do(c, s, e);
      && (s'.h.refused != s.h.refused ==>
            && s'.h.refused == s.h.refused + 1 && |s.queue| >= c.queueSize && s'.queue == s.queue
            && exists t :: t in s.writes && Refuses(c, s.writes[t]))
      && (s'.h.oversize != s.h.oversize ==>
            && s'.h.oversize == s.h.oversize + 1
            && exists t :: t in s.writes && s.writes[t].WLocked?
                 && SizeFor(c.limits.env, RecordCost(|s.writes[t].rec|)) > c.limits.maxBytes)
  {
    hide DoWrite, SizeFor, RecordCost;
    if e.WriteStep? {
      WriteTable(c, s, e.t);
    } else {
      OtherSteps(c, s, e);
    }
  }

  /** Call `t` found the queue full at step `k` and has been about to evict since. */
  predicate FoundFull(c: Config, tr: seq<State>, k: nat, i: nat, t: Tid)
    requires k < i < |tr|
  {
    && t in tr[k].writes && tr[k].writes[t].WSend? && |tr[k].queue| >= c.queueSize
    && forall j :: k < j <= i ==> t in tr[j].writes && tr[j].writes[t] == WEvict(tr[k].writes[t].rec)
  }

  lemma {:induction false} EvictBegan(c: Config, tr: seq<State>, i: nat, t: Tid) returns (k: nat)
    requires Normalized(c) && IsRun(c, tr) && i < |tr| && t in tr[i].writes && tr[i].writes[t].WEvict?
    ensures k < i && FoundFull(c, tr, k, i, t) && c.policy == DropOldest
  {
    hide Can, Do;
    if i == 0 {
      assert false;
    } else {
      assert Next(c, tr[i - 1], tr[i]);
      var e :| Can(c, tr[i - 1], e) && tr[i] == Do(c, tr[i - 1], e);
      EvictStep(c, tr[i - 1], e, t);
      if t in tr[i - 1].writes && tr[i - 1].writes[t].WEvict? {
        k := EvictBegan(c, tr, i - 1, t);
      } else {
        k := i - 1;
      }
    }
  }

  lemma EvictStep(c: Config, s: State, e: Step, t: Tid)
    requires Can(c, s, e) && t in Do(c, s, e).writes && Do(c, s, e).writes[t].WEvict?
    ensures t in s.writes
    ensures var pc := Do(c, s, e).writes[t];
      s.writes[t] == pc || (s.writes[t] == WSend(pc.rec) && |s.queue| >= c.queueSize && c.policy == DropOldest)
  {
    hide DoWrite, Replacing;
    if e.WriteStep? {
      WriteTable(c, s, e.t);
      WritesOthers(c, s, e.t);
      SendFirst(Do(c, s, e).writes[t]);
      if e.t == t { SendNot(s.writes[t]); }
    } else {
      OtherSteps(c, s, e);
    }
  }

  lemma SendNot(pc: WritePc)
    ensures pc.WSend? ==> !Replacing(pc)
  {
  }

  /**
    In any interleaving a record is evicted only under DropOldest, by a call that found the queue full
    to capacity at its own first try and has been waiting to evict since.
  */
  lemma EvictedOnlyWhenFull(c: Config, tr: seq<State>, i: nat) returns (t: Tid, k: nat)
    requires Normalized(c) && IsRun(c, tr) && i + 1 < |tr|
    requires Evictions(tr[i + 1].h.removed) != Evictions(tr[i].h.removed)
    ensures c.policy == DropOldest && k < i && FoundFull(c, tr, k, i, t) && |tr[k].queue| == c.queueSize
    ensures tr[i].queue != [] && tr[i + 1].h.removed == tr[i].h.removed + [Removal(tr[i].queue[0], false)]
  {
    hide Can, Do, Evictions, LockInv, FinalInv, OrderInv, LedgerInv, SyncInv;
    assert Next(c, tr[i], tr[i + 1]);
    var e :| Can(c, tr[i], e) && tr[i + 1] == Do(c, tr[i], e);
    t := EvictionBy(c, tr[i], e);
    k := EvictBegan(c, tr, i, t);
    InvReachable(c, tr, k);
  }

  lemma EvictionBy(c: Config, s: State, e: Step) returns (t: Tid)
    requires Can(c, s, e) && Evictions(Do(c, s, e).h.removed) != Evictions(s.h.removed)
    ensures t in s.writes && s.writes[t].WEvict?
    ensures s.queue != [] && Do(c, s, e).h.removed == s.h.removed + [Removal(s.queue[0], false)]
  {
    hide DoWrite, Evictions;
    if e.WriteStep? {
      WriteTable(c, s, e.t);
      t := e.t;
    } else {
      OtherSteps(c, s, e);
      EvictionsSnoc(s.h.removed, s.queue[0], true);
    }
  }

  // ---------------------------------------------------------------------------------------
  // The flush goroutine between two selects
  // ---------------------------------------------------------------------------------------

  /** A tick hands an open batch to the transport as it is, and does nothing else. */
  lemma TickFlushes(c: Config, s: State)
    requires Can(c, s, RunTick)
    ensures var m := Do(c, s, RunTick);
      && Can(c, m, RunStep)
      && Do(c, m, RunStep) == s.(run := if s.batch == [] then RSelect else RExport(AndResume(ToSelect)))
  {
    hide MustCut, Full;
  }

  /**
    A record taken from the queue: if it no longer fits behind the batch, the batch is handed over
    first; otherwise it is appended.
  */
  lemma TakeCuts(c: Config, s: State)
    requires Can(c, s, RunTake)
    ensures var rec := s.queue[0]; var m := Do(c, s, RunTake);
      && Can(c, m, RunStep)
      && var r := Do(c, m, RunStep);
         && r.queue == s.queue[1..] && r.batch == s.batch && r.tagged == s.tagged && r.h.resolved == s.h.resolved
         && r.run == if s.batch != [] && SizeFor(c.limits.env, s.tagged + RecordCost(|rec|)) > c.limits.maxBytes
                     then RExport(AndAppend(rec, ToSelect)) else RAppend(rec, ToSelect)
  {
    hide SizeFor, RecordCost, Full;
  }

  /** Appending: the batch is handed over at once if a limit has been reached. */
  lemma AppendCuts(c: Config, s: State, rec: bytes)
    requires s.run == RAppend(rec, ToSelect)
    ensures var m := Do(c, s, RunStep);
      && Can(c, m, RunStep)
      && var r := Do(c, m, RunStep);
         && r.queue == s.queue && r.h.resolved == s.h.resolved
         && r.batch == s.batch + [rec] && r.tagged == s.tagged + RecordCost(|rec|)
         && r.run == if |r.batch| >= c.limits.batchSize || SizeFor(c.limits.env, r.tagged) >= c.limits.maxBytes
                     then RExport(AndResume(ToSelect)) else RSelect
  {
    hide SizeFor, RecordCost, MustCut;
  }

  /** The flush goroutine once the drop counter has been brought up to date. */
  function Counted(c: Config, s: State): State {
    if s.run.RCount? then DoRun(c, s) else s
  }

  /** Where the goroutine carries on after an export: a record that had to wait is appended first. */
  function Onward(k: Cont): RunPc {
    match k
    case AndAppend(rec, next) => RAppend(rec, next)
    case AndResume(ToSelect) => RSelect
    case AndResume(ToDrain(d)) => RDrain(d)
    case AndResume(ToFinish(d)) => RFinish(d)
  }

  lemma OnwardIs(k: Cont)
    ensures Onward(k) == Continue(k) && !Onward(k).RCount?
  {
  }

  lemma CountOwed(c: Config, s: State)
    requires s.run.RCount?
    ensures DoRun(c, s) == s.(dropped := s.dropped + s.run.n, run := Continue(s.run.cont))
  {
    hide Continue;
  }

  /**
    The end of an export: the batch is done with, in whatever way; a failure counts all its records as
    dropped, an acceptance exactly the number the server reported as rejected.
  */
  lemma ExportCounts(c: Config, s: State, outcome: Outcome)
    requires s.run.RExport?
    ensures var r := Counted(c, Do(c, s, RunResolve(outcome)));
      && r.dropped == s.dropped + (if outcome.Failed? then |s.batch| else outcome.rejected)
      && r.h.resolved == s.h.resolved + [Resolved(s.batch, outcome)]
      && r.batch == [] && r.tagged == 0 && r.queue == s.queue && r.run == Onward(s.run.cont)
  {
    hide DoRun, Onward, Continue;
    OnwardIs(s.run.cont);
    var m := DoResolve(s, outcome);
    if m.run.RCount? { CountOwed(c, m); }
  }

  // ---------------------------------------------------------------------------------------
  // Sync
  // ---------------------------------------------------------------------------------------

  /**
    A `Sync` call of an open writer asks for a flush, and the flush goroutine takes the request at its
    next select; only a writer that is closing lets the call go without one.
  */
  lemma SyncAsks(c: Config, s: State, t: Tid)
    requires t in s.syncs && s.syncs[t].SEnter?
    ensures var m := Do(c, s, SyncLoad(t));
      if s.closed then m == s.(syncs := s.syncs[t := SReturned(false)])
      else
        && m == s.(syncs := s.syncs[t := SOffer])
        && (s.run.RSelect? ==>
              Can(c, m, Handoff(t)) && Do(c, m, Handoff(t)) == s.(syncs := s.syncs[t := SWait], run := RDrain(For(t))))
  {
    assert s.syncs[t := SOffer][t := SWait] == s.syncs[t := SWait];
  }

  // ---------------------------------------------------------------------------------------
  // Close is never stuck
  // ---------------------------------------------------------------------------------------

  /**
    While `Close` is under way somebody it waits for can move: a call holding the lock, the flush
    goroutine, or `Close` itself.
  */
  lemma CloseNeverStuck(c: Config, s: State) returns (e: Step)
    requires Inv(c, s) && !s.close.CIdle? && !s.close.CReturned?
    ensures Can(c, s, e)
    ensures e.CloseStep? || (e.WriteStep? && e.t in s.readers) || e.RunCancelled? || e.RunStep? || e.RunResolve?
  {
    hide BoundsInv, OrderInv, LedgerInv, SyncInv;
    if s.close.CStored? && s.readers != {} {
      var t :| t in s.readers;
      e := WriteStep(t);
    } else if s.close.CCancelled? && !s.done {
      e := if s.run.RSelect? then RunCancelled else if s.run.RExport? then RunResolve(Failed) else RunStep;
    } else {
      e := CloseStep;
    }
  }
}
