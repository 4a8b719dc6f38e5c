/**
  What the operations of the asynchronous root writer do (writer.go): a `writeAsync` call alone,
  from its encoded payload to its return; in any interleaving, when a payload may be refused or
  evicted; and the moves of the flush goroutine between two selects.
*/
module RootCalls {
  import opened Wire
  import opened Ledger
  import opened RootAsync

  // ---------------------------------------------------------------------------------------
  // A call that nobody interrupts
  // ---------------------------------------------------------------------------------------

  /** The state after up to `n` steps of call `t` with nobody else moving. */
  function Alone(c: Config, s: State, t: Tid, n: nat): State
    decreases n
  {
    if n == 0 || !Can(c, s, WriteStep(t)) then s else Alone(c, Do(c, s, WriteStep(t)), t, n - 1)
  }

  lemma AloneStep(c: Config, s: State, t: Tid, n: nat)
    requires n > 0 && Can(c, s, WriteStep(t))
    ensures Alone(c, s, t, n) == Alone(c, DoWrite(c, s, t), t, n - 1)
  {
    hide WritePlan, Perform;
  }

  lemma AloneDone(c: Config, s: State, t: Tid, n: nat)
    requires t in s.writes && s.writes[t].WReturned?
    ensures Alone(c, s, t, n) == s
  {
  }

  lemma AloneLeaves(c: Config, s: State, t: Tid, n: nat)
    requires t in s.writes && n >= 1 && s.writes[t].WUnlock?
    ensures Alone(c, s, t, n) == s.(readers := s.readers - {t}, writes := s.writes[t := WReturned])
  {
    AloneStep(c, s, t, n);
    AloneDone(c, DoWrite(c, s, t), t, n - 1);
  }

  lemma AloneCounts(c: Config, s: State, t: Tid, n: nat)
    requires t in s.writes && n >= 2 && s.writes[t].WCount?
    ensures Alone(c, s, t, n)
         == s.(readers := s.readers - {t}, dropped := s.dropped + 1, writes := s.writes[t := WReturned])
  {
    AloneStep(c, s, t, n);
    AloneLeaves(c, DoWrite(c, s, t), t, n - 1);
    assert s.writes[t := WUnlock][t := WReturned] == s.writes[t := WReturned];
  }

  /** The state of the queue and of the counts when a call has returned. */
  datatype After = After(queue: seq<bytes>, removed: seq<Removal>, dropped: nat, late: nat, refused: nat)

  function Seen(s: State): After {
    After(s.queue, s.h.removed, s.dropped, s.h.late, s.h.refused)
  }

  lemma AloneResends(c: Config, s: State, t: Tid, n: nat, p: bytes)
    requires t in s.writes && n >= 2 && s.writes[t] == WResend(p) && |s.queue| < c.bufferSize
    ensures var r := Alone(c, s, t, n);
      && t in r.writes && r.writes[t].WReturned? && r.readers == s.readers - {t}
      && Seen(r) == Seen(s).(queue := s.queue + [p])
  {
    hide Alone;
    AloneStep(c, s, t, n);
    AloneLeaves(c, DoWrite(c, s, t), t, n - 1);
  }

  lemma AloneEvicts(c: Config, s: State, t: Tid, n: nat, p: bytes)
    requires t in s.writes && n >= 4 && s.writes[t] == WEvict(p) && 1 <= |s.queue| <= c.bufferSize
    ensures var r := Alone(c, s, t, n);
      && t in r.writes && r.writes[t].WReturned? && r.readers == s.readers - {t}
      && Seen(r) == Seen(s).(queue := s.queue[1..] + [p], removed := s.h.removed + [Removal(s.queue[0], false)],
                             dropped := s.dropped + 1)
  {
    hide Alone;
    var evicted := DoWrite(c, s, t);
    AloneStep(c, s, t, n);
    assert evicted.writes[t] == WEvicted(p) && evicted.queue == s.queue[1..];
    var counted := DoWrite(c, evicted, t);
    AloneStep(c, evicted, t, n - 1);
    AloneResends(c, counted, t, n - 2, p);
  }

  lemma AloneSends(c: Config, s: State, t: Tid, n: nat, p: bytes)
    requires t in s.writes && n >= 5 && s.writes[t] == WSend(p) && |s.queue| <= c.bufferSize && c.bufferSize >= 1
    ensures var r := Alone(c, s, t, n);
      && t in r.writes && r.writes[t].WReturned? && r.readers == s.readers - {t}
      && if |s.queue| < c.bufferSize then
           Seen(r) == Seen(s).(queue := s.queue + [p])
         else if c.policy == DropNewest then
           Seen(r) == Seen(s).(dropped := s.dropped + 1, refused := s.h.refused + 1)
         else
           Seen(r) == Seen(s).(queue := s.queue[1..] + [p], removed := s.h.removed + [Removal(s.queue[0], false)],
                               dropped := s.dropped + 1)
  {
    hide Alone;
    var m := DoWrite(c, s, t);
    AloneStep(c, s, t, n);
    if |s.queue| < c.bufferSize {
      AloneLeaves(c, m, t, n - 1);
    } else if c.policy.DropNewest? {
      AloneCounts(c, m, t, n - 1);
    } else {
      AloneEvicts(c, m, t, n - 1, p);
    }
  }

  /**
    A whole call, uninterrupted.  After the close the payload is counted as dropped; else, if there is
    room, it is enqueued; else the policy decides: DropNewest refuses and counts it, DropOldest counts
    and evicts the head of the queue and enqueues it.
  */
  lemma WriteAlone(c: Config, s: State, t: Tid, p: bytes)
    requires LockInv(s) && t in s.writes && s.writes[t] == WEnter(p) && !s.writer
    requires |s.queue| <= c.bufferSize && c.bufferSize >= 1
    ensures var r := Alone(c, s, t, 8);
      && t in r.writes && r.writes[t].WReturned? && r.readers == s.readers
      && if s.closed then
           Seen(r) == Seen(s).(dropped := s.dropped + 1, late := s.h.late + 1)
         else if |s.queue| < c.bufferSize then
           Seen(r) == Seen(s).(queue := s.queue + [p])
         else if c.policy == DropNewest then
           Seen(r) == Seen(s).(dropped := s.dropped + 1, refused := s.h.refused + 1)
         else
           Seen(r) == Seen(s).(queue := s.queue[1..] + [p], removed := s.h.removed + [Removal(s.queue[0], false)],
                               dropped := s.dropped + 1)
  {
    hide Alone;
    assert t !in s.readers;
    var locked := DoWrite(c, s, t);
    AloneStep(c, s, t, 8);
    assert locked.readers - {t} == s.readers;
    var checked := DoWrite(c, locked, t);
    AloneStep(c, locked, t, 7);
    if s.closed {
      AloneCounts(c, checked, t, 6);
    } else {
      AloneSends(c, checked, t, 6, p);
    }
  }

  // ---------------------------------------------------------------------------------------
  // In any interleaving
  // ---------------------------------------------------------------------------------------

  predicate Replacing(pc: WritePc) {
    pc.WEvict? || pc.WEvicted? || pc.WResend?
  }

  ghost predicate PolicyInv(c: Config, s: State) {
    c.policy == DropNewest ==>
      Evictions(s.h.removed) == 0 && forall t :: t in s.writes ==> !Replacing(s.writes[t])
  }

  /** At a try to send that may refuse: the first one under DropNewest, or the one after an eviction. */
  predicate Refuses(c: Config, pc: WritePc) {
    (pc.WSend? && c.policy == DropNewest) || pc.WResend?
  }

  lemma PlanTable(c: Config, s: State, pc: WritePc)
    ensures var (pc', f) := WritePlan(c, s, pc);
      && (Replacing(pc') ==> Replacing(pc) || (pc.WSend? && |s.queue| >= c.bufferSize && c.policy == DropOldest))
      && (pc'.WEvict? ==> pc == WSend(pc'.p))
      && (f.Refuse? ==> |s.queue| >= c.bufferSize && Refuses(c, pc))
      && (f.Evict? ==> pc.WEvict? && s.queue != [])
      && (f.Late? ==> s.closed)
      && !f.Take?
  {
  }

  lemma RunTakes(c: Config, s: State, ok: bool)
    requires Can(c, s, RunStep(ok))
    ensures var f := RunPlan(c, s, ok).1; !f.Evict? && !f.Refuse? && !f.Late?
  {
  }

  /** What one step does to the counts of refusals and evictions. */
  lemma CountsMove(c: Config, s: State, e: Step)
    requires Can(c, s, e)
    ensures var s' := Do(c, s, e);
      && (s'.h.refused != s.h.refused ==>
            && s'.h.refused == s.h.refused + 1 && |s.queue| >= c.bufferSize && s'.queue == s.queue
            && exists t :: t in s.writes && Refuses(c, s.writes[t]))
      && (s'.h.late != s.h.late ==> s'.h.late == s.h.late + 1 && s.closed)
      && (s'.h.removed == s.h.removed
          || (s.queue != [] && s'.h.removed == s.h.removed + [Removal(s.queue[0], true)])
          || (s.queue != [] && s'.h.removed == s.h.removed + [Removal(s.queue[0], false)]
              && e.WriteStep? && s.writes[e.t].WEvict?))
  {
    hide WritePlan, RunPlan, Perform, Replacing;
    if e.WriteStep? {
      var f := WritePlan(c, s, s.writes[e.t]).1;
      PlanTable(c, s, s.writes[e.t]);
      PerformHistory(s, e.t, f);
      PerformParts(s, e.t, f);
    } else if e.RunStep? {
      RunTakes(c, s, e.ok);
      PerformHistory(s, 0, RunPlan(c, s, e.ok).1);
    } else {
      QuietSteps(c, s, e);
    }
  }

  /** How the counters of the calls move. */
  lemma WritesMove(c: Config, s: State, e: Step, t: Tid)
    requires Can(c, s, e) && t in Do(c, s, e).writes
    ensures var pc' := Do(c, s, e).writes[t];
      && (Replacing(pc') ==>
            t in s.writes
            && (Replacing(s.writes[t]) || (s.writes[t].WSend? && |s.queue| >= c.bufferSize && c.policy == DropOldest)))
      && (pc'.WEvict? ==>
            s.writes[t] == pc' || (s.writes[t] == WSend(pc'.p) && |s.queue| >= c.bufferSize && c.policy == DropOldest))
  {
    hide WritePlan, RunPlan, Perform;
    if e.WriteStep? {
      PlanTable(c, s, s.writes[e.t]);
    } else if !e.RunStep? && !e.WriteBegin? {
      QuietSteps(c, s, e);
    }
  }

  lemma PolicyStep(c: Config, s: State, e: Step)
    requires PolicyInv(c, s) && Can(c, s, e)
    ensures PolicyInv(c, Do(c, s, e))
  {
    hide Do, Can, Evictions, Replacing;
    CountsMove(c, s, e);
    if s.queue != [] { EvictionsSnoc(s.h.removed, s.queue[0], true); }
    forall t | t in Do(c, s, e).writes && c.policy == DropNewest ensures !Replacing(Do(c, s, e).writes[t]) {
      WritesMove(c, s, e, t);
    }
    if e.WriteStep? && Can(c, s, e) { EvictReplaces(c, s, e); }
  }

  lemma EvictReplaces(c: Config, s: State, e: Step)
    requires Can(c, s, e) && e.WriteStep?
    ensures e.t in s.writes && (s.writes[e.t].WEvict? ==> Replacing(s.writes[e.t]))
  {
  }

  lemma {:induction false} PolicyReachable(c: Config, tr: seq<State>, i: nat)
    requires Normalized(c) && IsRun(c, tr) && i < |tr|
    ensures PolicyInv(c, tr[i])
  {
    hide Can, Do, PolicyInv;
    if i == 0 {
      NothingYet(c, tr[0]);
    } else {
      PolicyReachable(c, tr, i - 1);
      assert Next(c, tr[i - 1], tr[i]);
      var e :| Can(c, tr[i - 1], e) && tr[i] == Do(c, tr[i - 1], e);
      PolicyStep(c, tr[i - 1], e);
    }
  }

  lemma NothingYet(c: Config, s: State)
    requires Init(s)
    ensures PolicyInv(c, s)
  {
  }

  /** Under DropNewest nothing is ever evicted. */
  lemma NeverEvicts(c: Config, tr: seq<State>, i: nat)
    requires Normalized(c) && IsRun(c, tr) && i < |tr| && c.policy == DropNewest
    ensures Evictions(tr[i].h.removed) == 0
  {
    hide IsRun, Evictions;
    PolicyReachable(c, tr, i);
  }

  /**
    In any interleaving a payload is refused only with the queue full to capacity, and the queue is
    left as it was: at a first try under DropNewest, or at the try after an eviction; it is late only
    once the writer has closed.
  */
  lemma RefusedOnlyWhenFull(c: Config, tr: seq<State>, i: nat)
    requires Normalized(c) && IsRun(c, tr) && i + 1 < |tr|
    ensures tr[i + 1].h.refused != tr[i].h.refused ==>
      && tr[i + 1].h.refused == tr[i].h.refused + 1
      && |tr[i].queue| == c.bufferSize && tr[i + 1].queue == tr[i].queue
      && exists t :: t in tr[i].writes && Refuses(c, tr[i].writes[t])
    ensures tr[i + 1].h.late != tr[i].h.late ==> tr[i + 1].h.late == tr[i].h.late + 1 && tr[i].closed
  {
    hide Can, Do, LockInv, OrderInv, LedgerInv, ArrivalInv, SyncInv;
    InvReachable(c, tr, i);
    assert Next(c, tr[i], tr[i + 1]);
    var e :| Can(c, tr[i], e) && tr[i + 1] == Do(c, tr[i], e);
    CountsMove(c, tr[i], e);
  }

  /** Call `t` found the queue full at step `k` and has been about to evict since. */
  predicate FoundFull(c: Config, tr: seq<State>, k: nat, i: nat, t: Tid)
    requires k < i < |tr|
  {
    && t in tr[k].writes && tr[k].writes[t].WSend? && |tr[k].queue| >= c.bufferSize
    && forall j :: k < j <= i ==> t in tr[j].writes && tr[j].writes[t] == WEvict(tr[k].writes[t].p)
  }

  lemma {:induction false} EvictBegan(c: Config, tr: seq<State>, i: nat, t: Tid) returns (k: nat)
    requires Normalized(c) && IsRun(c, tr) && i < |tr| && t in tr[i].writes && tr[i].writes[t].WEvict?
    ensures k < i && FoundFull(c, tr, k, i, t) && c.policy == DropOldest
  {
    hide Can, Do;
    if i == 0 {
      assert false;
    } else {
      assert Next(c, tr[i - 1], tr[i]);
      var e :| Can(c, tr[i - 1], e) && tr[i] == Do(c, tr[i - 1], e);
      WritesMove(c, tr[i - 1], e, t);
      EvictIs(tr[i].writes[t]);
      if tr[i - 1].writes[t].WEvict? {
        k := EvictBegan(c, tr, i - 1, t);
      } else {
        k := i - 1;
      }
    }
  }

  lemma EvictIs(pc: WritePc)
    ensures pc.WEvict? ==> Replacing(pc)
  {
  }

  /**
    In any interleaving a payload is evicted only under DropOldest, by a call that found the queue
    full to capacity at its own first try and has been waiting to evict since.
  */
  lemma EvictedOnlyWhenFull(c: Config, tr: seq<State>, i: nat) returns (t: Tid, k: nat)
    requires Normalized(c) && IsRun(c, tr) && i + 1 < |tr|
    requires Evictions(tr[i + 1].h.removed) != Evictions(tr[i].h.removed)
    ensures c.policy == DropOldest && k < i && FoundFull(c, tr, k, i, t) && |tr[k].queue| == c.bufferSize
    ensures tr[i].queue != [] && tr[i + 1].h.removed == tr[i].h.removed + [Removal(tr[i].queue[0], false)]
  {
    hide Can, Do, Evictions, LockInv, FinalInv, OrderInv, LedgerInv, ArrivalInv, SyncInv;
    assert Next(c, tr[i], tr[i + 1]);
    var e :| Can(c, tr[i], e) && tr[i + 1] == Do(c, tr[i], e);
    CountsMove(c, tr[i], e);
    if tr[i].queue != [] { EvictionsSnoc(tr[i].h.removed, tr[i].queue[0], true); }
    t := e.t;
    EvictReplaces(c, tr[i], e);
    k := EvictBegan(c, tr, i, t);
    InvReachable(c, tr, k);
  }

  // ---------------------------------------------------------------------------------------
  // The flush goroutine between two selects
  // ---------------------------------------------------------------------------------------

  function Steps(c: Config, s: State, n: nat): State
    decreases n
  {
    if n == 0 || !Can(c, s, RunStep(true)) then s else Steps(c, DoRun(c, s, true), n - 1)
  }

  function Room(c: Config, s: State): nat {
    if |s.batch| >= c.batchSize then 0
    else if |s.queue| < c.batchSize - |s.batch| then |s.queue| else c.batchSize - |s.batch|
  }

  /** Where the goroutine goes after a drain that has left this batch. */
  function Onward(c: Config, batch: seq<bytes>, why: Why): RunPc {
    match why
    case Tick => if batch == [] then RSelect else RWrite(Tick)
    case Payload => if |batch| >= c.batchSize then RWrite(Payload) else RSelect
    case All(d) => if batch == [] then RFinish(d) else RWrite(All(d))
  }

  lemma DrainTakes(c: Config, s: State, why: Why)
    requires s.run == RFill(why) && Room(c, s) > 0
    ensures var r := DoRun(c, s, true);
      && Can(c, s, RunStep(true))
      && r.run == s.run && r.batch == s.batch + [s.queue[0]] && r.queue == s.queue[1..] && Room(c, r) == Room(c, s) - 1
      && r.h.resolved == s.h.resolved && r.dropped == s.dropped && r.h.enqueued == s.h.enqueued
  {
  }

  lemma DrainStops(c: Config, s: State, why: Why)
    requires s.run == RFill(why) && |s.batch| <= c.batchSize && Room(c, s) == 0
    ensures Can(c, s, RunStep(true)) && DoRun(c, s, true) == s.(run := Onward(c, s.batch, why))
  {
  }

  lemma StepsOne(c: Config, s: State, n: nat)
    requires n > 0 && Can(c, s, RunStep(true))
    ensures Steps(c, s, n) == Steps(c, DoRun(c, s, true), n - 1)
    ensures Steps(c, s, 0) == s
  {
    hide DoRun;
  }

  /**
    `drain`, and what follows it: the batch is topped up from the queue, in order, to at most
    `batchSize`; then a tick writes any batch, a payload only a full one, and a flush of everything
    goes on until the batch stays empty.
  */
  lemma {:induction false} DrainAlone(c: Config, s: State, why: Why)
    requires s.run == RFill(why) && |s.batch| <= c.batchSize
    ensures var k := Room(c, s); var r := Steps(c, s, k + 1);
      && r.batch == s.batch + s.queue[..k] && r.queue == s.queue[k..] && r.run == Onward(c, r.batch, why)
      && r.h.resolved == s.h.resolved && r.dropped == s.dropped && r.h.enqueued == s.h.enqueued
    decreases Room(c, s)
  {
    hide DoRun, Onward, Steps, Can;
    var k := Room(c, s);
    var next := DoRun(c, s, true);
    if k > 0 {
      DrainTakes(c, s, why);
      StepsOne(c, s, k + 1);
      DrainAlone(c, next, why);
      assert s.batch + [s.queue[0]] + s.queue[1..][..k - 1] == s.batch + s.queue[..k];
      assert s.queue[1..][k - 1..] == s.queue[k..];
    } else {
      DrainStops(c, s, why);
      StepsOne(c, s, 1);
      NoSteps(c, next);
      assert s.batch + s.queue[..0] == s.batch && s.queue[0..] == s.queue;
    }
  }

  lemma NoSteps(c: Config, s: State)
    ensures Steps(c, s, 0) == s
  {
  }

  /** A payload received by the select joins the batch before the rest of the queue is drained. */
  lemma PayloadJoins(c: Config, s: State, ok: bool)
    requires s.run.RSelect? && s.queue != []
    ensures var r := Do(c, s, RunStep(ok));
      r.run == RFill(Payload) && r.batch == s.batch + [s.queue[0]] && r.queue == s.queue[1..]
  {
  }

  /** The flush goroutine once the drop counter has been brought up to date. */
  function Counted(c: Config, s: State): State {
    if s.run.RCount? then DoRun(c, s, true) else s
  }

  /** A frame written drops nothing, a frame lost drops all its payloads; either way the batch is done with. */
  lemma WriteCounts(c: Config, s: State, ok: bool)
    requires s.run.RWrite?
    ensures var r := Counted(c, Do(c, s, RunStep(ok)));
      && r.dropped == s.dropped + (if ok then 0 else |s.batch|)
      && |r.h.resolved| == |s.h.resolved| + 1 && r.h.resolved[..|s.h.resolved|] == s.h.resolved
      && r.h.resolved[|s.h.resolved|].records == s.batch
      && r.batch == [] && r.queue == s.queue
      && r.run == if s.run.why.All? then RFill(s.run.why) else RSelect
  {
  }

  // ---------------------------------------------------------------------------------------
  // Sync
  // ---------------------------------------------------------------------------------------

  /**
    A `Sync` call of an open writer asks for a flush, and the flush goroutine takes the request at its
    next select; only a writer that is closing lets the call go without one.
  */
  lemma SyncAsks(c: Config, s: State, t: Tid)
    requires t in s.syncs && s.syncs[t].SEnter?
    ensures var m := Do(c, s, SyncLoad(t));
      if s.closed then m == s.(syncs := s.syncs[t := SReturned(false)])
      else
        && m == s.(syncs := s.syncs[t := SOffer])
        && (s.run.RSelect? ==>
              Can(c, m, Handoff(t))
              && Do(c, m, Handoff(t)) == s.(syncs := s.syncs[t := SWait], run := RFill(All(For(t)))))
  {
    assert s.syncs[t := SOffer][t := SWait] == s.syncs[t := SWait];
  }

  // ---------------------------------------------------------------------------------------
  // Close is never stuck
  // ---------------------------------------------------------------------------------------

  /** While `Close` is under way somebody it waits for can move. */
  lemma CloseNeverStuck(c: Config, s: State) returns (e: Step)
    requires Inv(c, s) && !s.close.CIdle? && !s.close.CReturned?
    ensures Can(c, s, e)
    ensures e.CloseStep? || (e.WriteStep? && e.t in s.readers) || e.RunDone? || e.RunStep?
  {
    hide BoundsInv, OrderInv, LedgerInv, ArrivalInv, SyncInv;
    if s.close.CStored? && s.readers != {} {
      var t :| t in s.readers;
      e := WriteStep(t);
    } else if s.close.CDone? && !s.flushDone {
      e := if s.run.RSelect? then RunDone else RunStep(true);
    } else {
      e := CloseStep;
    }
  }
}
