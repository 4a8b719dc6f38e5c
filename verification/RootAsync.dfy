/**
  The asynchronous root writer as a step relation over its goroutines (writer.go): any number of
  `writeAsync` and `Sync` calls, one `Close`, and the flush goroutine `flushLoop`.  One step is one
  access to shared state; writing a frame is one step that succeeds or fails.
*/
module RootAsync {
  import opened Wire
  import opened Ledger

  type Tid = nat
  datatype Policy = DropNewest | DropOldest
  datatype Config = Config(bufferSize: nat, batchSize: nat, policy: Policy)

  /** What `normalizeConfig` guarantees. */
  predicate Normalized(c: Config) {
    c.bufferSize >= 1 && c.batchSize >= 1
  }

  // ---------------------------------------------------------------------------------------
  // Program counters and state
  // ---------------------------------------------------------------------------------------

  /** `writeAsync` from its encoded payload on, and `enqueue`. */
  datatype WritePc =
    | WEnter(p: bytes)
    | WLocked(p: bytes)
    | WSend(p: bytes)
    | WEvict(p: bytes)
    | WEvicted(p: bytes)
    | WResend(p: bytes)
    | WCount
    | WUnlock
    | WReturned

  datatype SyncPc = SEnter | SOffer | SWait | SReturned(handed: bool)

  datatype ClosePc = CIdle | CStored | CLocked | CUnlocked | CDone | CReturned

  /** Why the flush goroutine drains: a tick, a payload, or `flushAll` for a `Sync` or the shutdown. */
  datatype Drain = Final | For(t: Tid)
  datatype Why = Tick | Payload | All(d: Drain)

  datatype RunPc =
    | RSelect
    | RFill(why: Why)          // the loop of drain
    | RWrite(why: Why)
    | RCount(n: nat, why: Why)
    | RFinish(d: Drain)
    | RStopped

  datatype History = History(
    arrived: nat,                // payloads encoded past the first closed-check
    enqueued: seq<bytes>,
    removed: seq<Removal>,
    resolved: seq<Resolved>,     // every frame written or lost
    late: nat,                   // payloads refused because the writer had closed
    refused: nat,                // payloads refused by a full queue
    marks: map<Tid, nat>)        // how many payloads were enqueued when a Sync was called

  datatype State = State(
    writes: map<Tid, WritePc>,
    syncs: map<Tid, SyncPc>,
    close: ClosePc,
    run: RunPc,
    closed: bool,
    readers: set<Tid>,
    writer: bool,
    done: bool,
    flushDone: bool,
    acked: set<Tid>,
    queue: seq<bytes>,
    batch: seq<bytes>,
    dropped: nat,
    h: History)

  predicate Init(s: State) {
    s == State(map[], map[], CIdle, RSelect, false, {}, false, false, false, {}, [], [], 0,
               History(0, [], [], [], 0, 0, map[]))
  }

  // ---------------------------------------------------------------------------------------
  // Steps
  // ---------------------------------------------------------------------------------------

  datatype Step =
    | WriteBegin(t: Tid, p: bytes)
    | WriteStep(t: Tid)
    | SyncBegin(t: Tid)
    | SyncLoad(t: Tid)
    | SyncGiveUp(t: Tid)
    | SyncReturn(t: Tid)
    | Handoff(t: Tid)
    | CloseStep
    | RunDone
    | RunTick
    | RunStep(ok: bool)

  predicate Can(c: Config, s: State, e: Step) {
    match e
    case WriteBegin(t, _) => t !in s.writes
    case WriteStep(t) => t in s.writes && !s.writes[t].WReturned? && (s.writes[t].WEnter? ==> !s.writer)
    case SyncBegin(t) => t !in s.syncs
    case SyncLoad(t) => t in s.syncs && s.syncs[t].SEnter?
    case SyncGiveUp(t) => t in s.syncs && s.syncs[t].SOffer? && s.done
    case SyncReturn(t) => t in s.syncs && s.syncs[t].SWait? && t in s.acked
    case Handoff(t) => t in s.syncs && s.syncs[t].SOffer? && s.run.RSelect?
    case CloseStep =>
      match s.close {
        case CStored => s.readers == {}
        case CDone => s.flushDone
        case CReturned => false
        case _ => true
      }
    case RunDone => s.run.RSelect? && s.done
    case RunTick => s.run.RSelect?
    case RunStep(_) => !s.run.RStopped? && (s.run.RSelect? ==> s.queue != [])
  }

  /** What a step does to the shared state. */
  datatype Effect =
    | Nothing
    | Lock | Unlock
    | Send(p: bytes)
    | Evict
    | Late | Refuse | Drop
    | Take                     // the head of the queue joins the batch
    | Resolve(ok: bool)        // the batch was framed and written, or lost
    | Count(n: nat)
    | Ack(t: Tid)
    | Stop

  predicate Possible(s: State, f: Effect) {
    f.Evict? || f.Take? ==> s.queue != []
  }

  function Dequeue(s: State, taken: bool): State
    requires s.queue != []
  {
    s.(queue := s.queue[1..], h := s.h.(removed := s.h.removed + [Removal(s.queue[0], taken)]))
  }

  function Ended(s: State, ok: bool): Resolved {
    Resolved(s.batch, if ok then Accepted(0) else Failed)
  }

  function Perform(s: State, t: Tid, f: Effect): (r: State)
    requires Possible(s, f)
    ensures r.writes == s.writes && r.syncs == s.syncs && r.run == s.run && r.close == s.close && r.closed == s.closed
    ensures r.writer == s.writer && r.done == s.done && r.h.arrived == s.h.arrived && r.h.marks == s.h.marks
  {
    match f
    case Nothing => s
    case Lock => s.(readers := s.readers + {t})
    case Unlock => s.(readers := s.readers - {t})
    case Send(p) => s.(queue := s.queue + [p], h := s.h.(enqueued := s.h.enqueued + [p]))
    case Evict => Dequeue(s, false)
    case Late => s.(h := s.h.(late := s.h.late + 1))
    case Refuse => s.(h := s.h.(refused := s.h.refused + 1))
    case Drop => s.(dropped := s.dropped + 1)
    case Take => Dequeue(s, true).(batch := s.batch + [s.queue[0]])
    case Resolve(ok) => s.(batch := [], h := s.h.(resolved := s.h.resolved + [Ended(s, ok)]))
    case Count(n) => s.(dropped := s.dropped + n)
    case Ack(u) => s.(acked := s.acked + {u})
    case Stop => s.(flushDone := true)
  }

  /** `writeAsync` and `enqueue`, statement by statement. */
  function WritePlan(c: Config, s: State, pc: WritePc): (r: (WritePc, Effect))
    ensures Possible(s, r.1)
  {
    match pc
    case WEnter(p) => (WLocked(p), Lock)
    case WLocked(p) => if s.closed then (WCount, Late) else (WSend(p), Nothing)
    case WSend(p) =>
      if |s.queue| < c.bufferSize then (WUnlock, Send(p))
      else if c.policy.DropOldest? then (WEvict(p), Nothing)
      else (WCount, Refuse)
    case WEvict(p) => if s.queue != [] then (WEvicted(p), Evict) else (WResend(p), Nothing)
    case WEvicted(p) => (WResend(p), Drop)
    case WResend(p) => if |s.queue| < c.bufferSize then (WUnlock, Send(p)) else (WCount, Refuse)
    case WCount => (WUnlock, Drop)
    case WUnlock => (WReturned, Unlock)
    case WReturned => (WReturned, Nothing)
  }

  /** Where the goroutine goes once drain has filled the batch as far as it can. */
  function Filled(c: Config, s: State, why: Why): RunPc {
    match why
    case Tick => if s.batch == [] then RSelect else RWrite(why)
    case Payload => if |s.batch| >= c.batchSize then RWrite(why) else RSelect
    case All(d) => if s.batch == [] then RFinish(d) else RWrite(why)
  }

  function Written(why: Why): RunPc {
    if why.All? then RFill(why) else RSelect
  }

  /** `flushLoop`, `drain`, `flushAll` and `flush`, statement by statement. */
  function RunPlan(c: Config, s: State, ok: bool): (r: (RunPc, Effect))
    requires s.run.RSelect? ==> s.queue != []
    ensures Possible(s, r.1)
  {
    match s.run
    case RSelect => (RFill(Payload), Take)
    case RFill(why) => if |s.batch| < c.batchSize && s.queue != [] then (s.run, Take) else (Filled(c, s, why), Nothing)
    case RWrite(why) => (if ok then Written(why) else RCount(|s.batch|, why), Resolve(ok))
    case RCount(n, why) => (Written(why), Count(n))
    case RFinish(d) => if d.For? then (RSelect, Ack(d.t)) else (RStopped, Stop)
    case RStopped => (RStopped, Nothing)
  }

  function DoClose(s: State): (r: State)
    ensures r == s.(close := r.close, closed := r.closed, writer := r.writer, done := r.done)
  {
    match s.close
    case CIdle => s.(close := CStored, closed := true)
    case CStored => s.(close := CLocked, writer := true)
    case CLocked => s.(close := CUnlocked, writer := false)
    case CUnlocked => s.(close := CDone, done := true)
    case CDone => s.(close := CReturned)
    case CReturned => s
  }

  function DoWrite(c: Config, s: State, t: Tid): State
    requires t in s.writes
  {
    var (pc, f) := WritePlan(c, s, s.writes[t]);
    Perform(s, t, f).(writes := s.writes[t := pc])
  }

  function DoRun(c: Config, s: State, ok: bool): State
    requires s.run.RSelect? ==> s.queue != []
  {
    var (pc, f) := RunPlan(c, s, ok);
    Perform(s, 0, f).(run := pc)
  }

  function Do(c: Config, s: State, e: Step): State
    requires Can(c, s, e)
  {
    match e
    case WriteBegin(t, p) => s.(writes := s.writes[t := WEnter(p)], h := s.h.(arrived := s.h.arrived + 1))
    case WriteStep(t) => DoWrite(c, s, t)
    case SyncBegin(t) => s.(syncs := s.syncs[t := SEnter], h := s.h.(marks := s.h.marks[t := |s.h.enqueued|]))
    case SyncLoad(t) => s.(syncs := s.syncs[t := if s.closed then SReturned(false) else SOffer])
    case SyncGiveUp(t) => s.(syncs := s.syncs[t := SReturned(false)])
    case SyncReturn(t) => s.(syncs := s.syncs[t := SReturned(true)])
    case Handoff(t) => s.(syncs := s.syncs[t := SWait], run := RFill(All(For(t))))
    case CloseStep => DoClose(s)
    case RunDone => s.(run := RFill(All(Final)))
    case RunTick => s.(run := RFill(Tick))
    case RunStep(ok) => DoRun(c, s, ok)
  }

  ghost predicate Next(c: Config, s: State, s': State) {
    exists e :: Can(c, s, e) && s' == Do(c, s, e)
  }

  /** Any interleaving, of any length. */
  ghost predicate IsRun(c: Config, tr: seq<State>) {
    && |tr| > 0 && Init(tr[0])
    && forall i :: 0 <= i < |tr| - 1 ==> Next(c, tr[i], tr[i + 1])
  }

  /** The fields of the state after an effect. */
  lemma PerformParts(s: State, t: Tid, f: Effect)
    requires Possible(s, f)
    ensures var r := Perform(s, t, f);
      && r.readers == (if f.Lock? then s.readers + {t} else if f.Unlock? then s.readers - {t} else s.readers)
      && r.queue == (if f.Send? then s.queue + [f.p] else if f.Evict? || f.Take? then s.queue[1..] else s.queue)
      && r.batch == (if f.Take? then s.batch + [s.queue[0]] else if f.Resolve? then [] else s.batch)
      && r.dropped == s.dropped + (if f.Drop? then 1 else if f.Count? then f.n else 0)
      && r.acked == (if f.Ack? then s.acked + {f.t} else s.acked)
      && r.flushDone == (s.flushDone || f.Stop?)
  {
    match f
    case Nothing =>
    case Lock =>
    case Unlock =>
    case Send(_) =>
    case Evict =>
    case Late =>
    case Refuse =>
    case Drop =>
    case Take =>
    case Resolve(_) =>
    case Count(_) =>
    case Ack(_) =>
    case Stop =>
  }

  lemma PerformHistory(s: State, t: Tid, f: Effect)
    requires Possible(s, f)
    ensures var r := Perform(s, t, f);
      && r.h.enqueued == (if f.Send? then s.h.enqueued + [f.p] else s.h.enqueued)
      && r.h.removed == (if f.Evict? || f.Take? then s.h.removed + [Removal(s.queue[0], f.Take?)] else s.h.removed)
      && r.h.resolved == (if f.Resolve? then s.h.resolved + [Ended(s, f.ok)] else s.h.resolved)
      && r.h.late == s.h.late + (if f.Late? then 1 else 0)
      && r.h.refused == s.h.refused + (if f.Refuse? then 1 else 0)
  {
  }

  // ---------------------------------------------------------------------------------------
  // Invariant 1: the lifecycle lock and the shutdown order
  // ---------------------------------------------------------------------------------------

  predicate Holding(pc: WritePc) {
    !pc.WEnter? && !pc.WReturned?
  }

  /** Past the closed-check and still able to touch the queue. */
  predicate Admitted(pc: WritePc) {
    pc.WSend? || pc.WEvict? || pc.WEvicted? || pc.WResend?
  }

  predicate Barred(close: ClosePc) {
    !close.CIdle? && !close.CStored?
  }

  function DrainOf(pc: RunPc): Option<Drain> {
    match pc
    case RFinish(d) => Some(d)
    case RFill(All(d)) => Some(d)
    case RWrite(All(d)) => Some(d)
    case RCount(_, All(d)) => Some(d)
    case _ => None
  }

  ghost predicate LockInv(s: State) {
    && (forall t :: t in s.readers <==> t in s.writes && Holding(s.writes[t]))
    && (s.writer <==> s.close.CLocked?)
    && (s.writer ==> s.readers == {})
    && (s.closed <==> !s.close.CIdle?)
    && (s.done <==> s.close.CDone? || s.close.CReturned?)
    && (Barred(s.close) ==> forall t :: t in s.writes ==> !Admitted(s.writes[t]))
  }

  /** The final flush runs only after the barrier, and ends with queue and batch empty. */
  predicate FinalInv(s: State) {
    && (s.flushDone <==> s.run.RStopped?)
    && (DrainOf(s.run) == Some(Final) || s.flushDone ==> s.done)
    && (s.run == RFinish(Final) || s.flushDone ==> s.queue == [])
    && (s.close.CReturned? ==> s.flushDone)
  }

  lemma WriteTable(c: Config, s: State, pc: WritePc)
    requires !pc.WReturned? && (pc.WEnter? ==> !s.writer)
    ensures var (pc', f) := WritePlan(c, s, pc);
      && (f.Lock? <==> Holding(pc') && !Holding(pc)) && (f.Unlock? <==> Holding(pc) && !Holding(pc'))
      && (f.Lock? ==> !s.writer)
      && (Admitted(pc') ==> Admitted(pc) || !s.closed)
      && (f.Send? || f.Evict? ==> Admitted(pc))
      && (f.Send? ==> |s.queue| < c.bufferSize)
      && !f.Take? && !f.Resolve? && !f.Count? && !f.Ack? && !f.Stop?
      && (f.Drop? <==> Owing(pc)) && (f.Late? || f.Refuse? || f.Evict? <==> Owing(pc'))
      && (Carrying(pc) && !Carrying(pc') <==> f.Send? || f.Late? || f.Refuse?)
      && (Carrying(pc') ==> Carrying(pc))
  {
  }

  lemma RunTable(c: Config, s: State, ok: bool)
    requires Can(c, s, RunStep(ok))
    ensures var (pc, f) := RunPlan(c, s, ok);
      && (f.Nothing? || f.Take? || f.Resolve? || f.Count? || f.Ack? || f.Stop?)
      && (f.Stop? <==> pc.RStopped?) && (f.Stop? ==> s.run == RFinish(Final))
      && (DrainOf(pc) == Some(Final) ==> DrainOf(s.run) == Some(Final))
      && (pc.RFinish? ==> s.queue == [] || |s.batch| >= c.batchSize)
      && (pc.RFinish? ==> s.batch == [] && f.Nothing? && s.run == RFill(All(pc.d)))
      && (f.Resolve? <==> s.run.RWrite?)
      && (f.Ack? <==> s.run.RFinish? && s.run.d.For?) && (f.Ack? ==> f.t == s.run.d.t)
      && (DrainOf(pc).Some? ==> DrainOf(pc) == DrainOf(s.run))
  {
  }

  lemma LockWrite(c: Config, s: State, t: Tid)
    requires LockInv(s) && Can(c, s, WriteStep(t))
    ensures LockInv(DoWrite(c, s, t))
  {
    hide WritePlan, Perform, Holding, Admitted, Owing, Carrying;
    WriteTable(c, s, s.writes[t]);
    PerformParts(s, t, WritePlan(c, s, s.writes[t]).1);
  }

  lemma LockRun(c: Config, s: State, ok: bool)
    requires LockInv(s) && Can(c, s, RunStep(ok))
    ensures LockInv(DoRun(c, s, ok))
  {
    hide RunPlan, Perform, Holding, Admitted, DrainOf;
    RunTable(c, s, ok);
    PerformParts(s, 0, RunPlan(c, s, ok).1);
  }

  lemma LockClose(c: Config, s: State)
    requires LockInv(s) && Can(c, s, CloseStep)
    ensures LockInv(DoClose(s))
  {
    hide Holding, Admitted;
    forall t | t in s.writes && !Holding(s.writes[t]) ensures !Admitted(s.writes[t]) { AdmittedHolds(s.writes[t]); }
  }

  lemma LockStep(c: Config, s: State, e: Step)
    requires LockInv(s) && Can(c, s, e)
    ensures LockInv(Do(c, s, e))
  {
    hide DoWrite, DoRun, DoClose, Holding, Admitted, Owing, Carrying;
    match e
    case WriteBegin(t, p) => NewWrite(p);
    case WriteStep(t) => LockWrite(c, s, t);
    case RunStep(ok) => LockRun(c, s, ok);
    case CloseStep => LockClose(c, s);
    case SyncBegin(_) =>
    case SyncLoad(_) =>
    case SyncGiveUp(_) =>
    case SyncReturn(_) =>
    case Handoff(_) =>
    case RunDone =>
    case RunTick =>
  }

  lemma NewWrite(p: bytes)
    ensures !Holding(WEnter(p)) && !Admitted(WEnter(p)) && Carrying(WEnter(p)) && !Owing(WEnter(p))
  {
  }

  lemma AdmittedHolds(pc: WritePc)
    ensures Admitted(pc) ==> Holding(pc)
  {
  }

  /** Increments of the drop counter a call has recorded and not yet made. */
  predicate Owing(pc: WritePc) {
    pc.WCount? || pc.WEvicted?
  }

  /** The call still has its payload to deliver or refuse. */
  predicate Carrying(pc: WritePc) {
    !pc.WCount? && !pc.WUnlock? && !pc.WReturned?
  }

  lemma FinalWrite(c: Config, s: State, t: Tid)
    requires LockInv(s) && FinalInv(s) && Can(c, s, WriteStep(t))
    ensures FinalInv(DoWrite(c, s, t))
  {
    hide WritePlan, Perform, Holding, Admitted, Owing, Carrying;
    WriteTable(c, s, s.writes[t]);
    PerformParts(s, t, WritePlan(c, s, s.writes[t]).1);
  }

  lemma FinalRun(c: Config, s: State, ok: bool)
    requires FinalInv(s) && c.batchSize >= 1 && Can(c, s, RunStep(ok))
    ensures FinalInv(DoRun(c, s, ok))
  {
    hide RunPlan, Perform;
    RunTable(c, s, ok);
    PerformParts(s, 0, RunPlan(c, s, ok).1);
  }

  lemma FinalStep(c: Config, s: State, e: Step)
    requires LockInv(s) && FinalInv(s) && c.batchSize >= 1 && Can(c, s, e)
    ensures FinalInv(Do(c, s, e))
  {
    hide DoWrite, DoRun, Holding, Admitted;
    match e
    case WriteStep(t) => FinalWrite(c, s, t);
    case RunStep(ok) => FinalRun(c, s, ok);
    case WriteBegin(_, _) =>
    case CloseStep =>
    case SyncBegin(_) =>
    case SyncLoad(_) =>
    case SyncGiveUp(_) =>
    case SyncReturn(_) =>
    case Handoff(_) =>
    case RunDone =>
    case RunTick =>
  }

  // ---------------------------------------------------------------------------------------
  // Invariant 2: bounds
  // ---------------------------------------------------------------------------------------

  predicate BatchAt(c: Config, batch: seq<bytes>, pc: RunPc) {
    match pc
    case RSelect => |batch| < c.batchSize
    case RFill(why) => |batch| <= c.batchSize
    case RWrite(_) => 1 <= |batch| <= c.batchSize
    case _ => batch == []
  }

  /** The queue stays within its capacity and every frame carries 1 to `batchSize` payloads. */
  predicate BoundsInv(c: Config, s: State) {
    && Normalized(c)
    && |s.queue| <= c.bufferSize
    && BatchAt(c, s.batch, s.run)
    && forall i :: 0 <= i < |s.h.resolved| ==> 1 <= |s.h.resolved[i].records| <= c.batchSize
  }

  lemma BatchRun(c: Config, s: State, ok: bool)
    requires Normalized(c) && BatchAt(c, s.batch, s.run) && Can(c, s, RunStep(ok))
    ensures var (pc, f) := RunPlan(c, s, ok); BatchAt(c, Perform(s, 0, f).batch, pc)
  {
    hide Perform;
    PerformParts(s, 0, RunPlan(c, s, ok).1);
  }

  lemma BoundsWrite(c: Config, s: State, t: Tid)
    requires BoundsInv(c, s) && Can(c, s, WriteStep(t))
    ensures BoundsInv(c, DoWrite(c, s, t))
  {
    hide WritePlan, Perform, Holding, Admitted, Owing, Carrying, BatchAt;
    WriteTable(c, s, s.writes[t]);
    PerformParts(s, t, WritePlan(c, s, s.writes[t]).1);
    PerformHistory(s, t, WritePlan(c, s, s.writes[t]).1);
  }

  lemma BoundsRun(c: Config, s: State, ok: bool)
    requires BoundsInv(c, s) && Can(c, s, RunStep(ok))
    ensures BoundsInv(c, DoRun(c, s, ok))
  {
    hide RunPlan, Perform, DrainOf;
    RunTable(c, s, ok);
    BatchRun(c, s, ok);
    PerformParts(s, 0, RunPlan(c, s, ok).1);
    PerformHistory(s, 0, RunPlan(c, s, ok).1);
  }

  lemma BoundsStep(c: Config, s: State, e: Step)
    requires BoundsInv(c, s) && Can(c, s, e)
    ensures BoundsInv(c, Do(c, s, e))
  {
    hide DoWrite, DoRun, DoClose;
    match e
    case WriteStep(t) => BoundsWrite(c, s, t);
    case RunStep(ok) => BoundsRun(c, s, ok);
    case Handoff(_) => QuietSteps(c, s, e);
    case RunDone => QuietSteps(c, s, e);
    case RunTick => QuietSteps(c, s, e);
    case CloseStep => QuietSteps(c, s, e);
    case WriteBegin(_, _) =>
    case SyncBegin(_) =>
    case SyncLoad(_) =>
    case SyncGiveUp(_) =>
    case SyncReturn(_) =>
  }

  // ---------------------------------------------------------------------------------------
  // Invariant 3: conservation and the drop ledger
  // ---------------------------------------------------------------------------------------

  /** Enqueue order is kept through the queue, and through the batches of the flush goroutine. */
  predicate OrderInv(s: State) {
    && s.h.enqueued == Records(s.h.removed) + s.queue
    && Taken(s.h.removed) == Shipped(s.h.resolved) + s.batch
  }

  ghost function Those(writes: map<Tid, WritePc>, p: WritePc -> bool): set<Tid> {
    set t | t in writes && p(writes[t])
  }

  function Owed(pc: RunPc): nat {
    if pc.RCount? then pc.n else 0
  }

  /** The drop counter, up to increments still owed, is the sum of its four causes. */
  ghost predicate LedgerInv(s: State) {
    s.dropped + |Those(s.writes, Owing)| + Owed(s.run)
      == s.h.late + s.h.refused + Evictions(s.h.removed) + AllLost(s.h.resolved)
  }

  /** Every payload that got past the first closed-check is still carried, or enqueued, or refused. */
  ghost predicate ArrivalInv(s: State) {
    s.h.arrived == |Those(s.writes, Carrying)| + |s.h.enqueued| + s.h.late + s.h.refused
  }

  lemma ThoseUpdate(writes: map<Tid, WritePc>, t: Tid, pc: WritePc, p: WritePc -> bool)
    ensures |Those(writes[t := pc], p)|
         == |Those(writes, p)| - (if t in writes && p(writes[t]) then 1 else 0) + (if p(pc) then 1 else 0)
  {
    hide Those;
    var a, b := Those(writes, p), Those(writes[t := pc], p);
    ThoseOthers(writes, t, pc, p);
    SizeWithout(a, t);
    SizeWithout(b, t);
  }

  lemma ThoseOthers(writes: map<Tid, WritePc>, t: Tid, pc: WritePc, p: WritePc -> bool)
    ensures Those(writes[t := pc], p) - {t} == Those(writes, p) - {t}
    ensures t in Those(writes, p) <==> t in writes && p(writes[t])
    ensures t in Those(writes[t := pc], p) <==> p(pc)
  {
    var changed := writes[t := pc];
    forall u | u != t ensures u in Those(changed, p) <==> u in Those(writes, p) {
      assert u in changed <==> u in writes;
    }
  }

  lemma DequeueOrder(queue: seq<bytes>, removed: seq<Removal>, taken: bool)
    requires queue != []
    ensures var removed' := removed + [Removal(queue[0], taken)];
      && Records(removed') + queue[1..] == Records(removed) + queue
      && Taken(removed') == Taken(removed) + (if taken then [queue[0]] else [])
      && Evictions(removed') == Evictions(removed) + (if taken then 0 else 1)
  {
  }

  /** How an effect moves payloads between queue, batch and frames. */
  lemma OrderPerform(s: State, t: Tid, f: Effect)
    requires OrderInv(s) && Possible(s, f)
    ensures var r := Perform(s, t, f);
      && OrderInv(r)
      && Evictions(r.h.removed) == Evictions(s.h.removed) + (if f.Evict? then 1 else 0)
      && AllLost(r.h.resolved) == AllLost(s.h.resolved) + (if f.Resolve? && !f.ok then |s.batch| else 0)
  {
    hide Perform, Records, Taken, Shipped, Evictions, AllLost;
    PerformParts(s, t, f);
    PerformHistory(s, t, f);
    if f.Evict? || f.Take? { DequeueOrder(s.queue, s.h.removed, f.Take?); }
    if f.Send? { Assoc(Records(s.h.removed), s.queue, [f.p]); }
    if f.Take? { Assoc(Shipped(s.h.resolved), s.batch, [s.queue[0]]); }
    if f.Evict? { assert Taken(s.h.removed) + [] == Taken(s.h.removed); }
    if f.Resolve? { ResolvedSnoc(s.h.resolved, Ended(s, f.ok)); }
  }

  predicate Ledgers(s: State, s': State) {
    && s'.h.enqueued == s.h.enqueued && s'.h.removed == s.h.removed && s'.h.resolved == s.h.resolved
    && s'.queue == s.queue && s'.batch == s.batch && s'.dropped == s.dropped
    && s'.h.late == s.h.late && s'.h.refused == s.h.refused && Owed(s'.run) == Owed(s.run)
  }

  /** Calls beginning, `Sync`, `Close` and the choices of the select move no payload. */
  lemma QuietSteps(c: Config, s: State, e: Step)
    requires Can(c, s, e) && !e.WriteStep? && !e.RunStep?
    ensures var s' := Do(c, s, e);
        Ledgers(s, s') && (e.WriteBegin? || (s'.writes == s.writes && s'.h.arrived == s.h.arrived))
  {
  }

  lemma OrderStep(c: Config, s: State, e: Step)
    requires OrderInv(s) && Can(c, s, e)
    ensures OrderInv(Do(c, s, e))
  {
    hide WritePlan, RunPlan, Perform, Records, Taken, Shipped;
    if e.WriteStep? {
      OrderPerform(s, e.t, WritePlan(c, s, s.writes[e.t]).1);
    } else if e.RunStep? {
      OrderPerform(s, 0, RunPlan(c, s, e.ok).1);
    } else {
      QuietSteps(c, s, e);
    }
  }

  lemma LedgerWrite(c: Config, s: State, t: Tid)
    requires OrderInv(s) && LedgerInv(s) && ArrivalInv(s) && Can(c, s, WriteStep(t))
    ensures LedgerInv(DoWrite(c, s, t)) && ArrivalInv(DoWrite(c, s, t))
  {
    hide WritePlan, Perform, OrderInv, Those, Evictions, AllLost, Holding, Admitted, Owing, Carrying;
    var (pc, f) := WritePlan(c, s, s.writes[t]);
    WriteTable(c, s, s.writes[t]);
    PerformParts(s, t, f);
    PerformHistory(s, t, f);
    OrderPerform(s, t, f);
    ThoseUpdate(s.writes, t, pc, Owing);
    ThoseUpdate(s.writes, t, pc, Carrying);
  }

  lemma OwedRun(c: Config, s: State, ok: bool)
    requires Can(c, s, RunStep(ok))
    ensures var (pc, f) := RunPlan(c, s, ok);
      Owed(pc) + (if f.Count? then f.n else 0) == Owed(s.run) + (if f.Resolve? && !f.ok then |s.batch| else 0)
  {
  }

  lemma LedgerRun(c: Config, s: State, ok: bool)
    requires OrderInv(s) && LedgerInv(s) && ArrivalInv(s) && Can(c, s, RunStep(ok))
    ensures LedgerInv(DoRun(c, s, ok)) && ArrivalInv(DoRun(c, s, ok))
  {
    hide RunPlan, Perform, OrderInv, Those, Evictions, AllLost, Owed;
    var f := RunPlan(c, s, ok).1;
    RunTable(c, s, ok);
    PerformParts(s, 0, f);
    PerformHistory(s, 0, f);
    OrderPerform(s, 0, f);
    OwedRun(c, s, ok);
  }

  lemma LedgerStep(c: Config, s: State, e: Step)
    requires OrderInv(s) && LedgerInv(s) && ArrivalInv(s) && Can(c, s, e)
    ensures LedgerInv(Do(c, s, e)) && ArrivalInv(Do(c, s, e))
  {
    hide WritePlan, RunPlan, Perform, OrderInv, Those, Evictions, AllLost, DoWrite, DoRun, Owing, Carrying, DoClose;
    if e.WriteStep? {
      LedgerWrite(c, s, e.t);
    } else if e.RunStep? {
      LedgerRun(c, s, e.ok);
    } else {
      QuietSteps(c, s, e);
      if e.WriteBegin? {
        NewWrite(e.p);
        ThoseUpdate(s.writes, e.t, WEnter(e.p), Owing);
        ThoseUpdate(s.writes, e.t, WEnter(e.p), Carrying);
      }
    }
  }

  // ---------------------------------------------------------------------------------------
  // Invariant 4: the Sync barrier
  // ---------------------------------------------------------------------------------------

  predicate Settled(s: State, n: nat) {
    SettledIn(s.h.removed, s.h.resolved, n)
  }

  /** What a `flushAll` for a `Sync` call owes it. */
  predicate Promise(h: History, pc: RunPc) {
    && (DrainOf(pc).Some? && DrainOf(pc).value.For? ==> DrainOf(pc).value.t in h.marks)
    && (pc.RFinish? && pc.d.For? ==> pc.d.t in h.marks && h.marks[pc.d.t] <= |h.removed|)
  }

  ghost predicate SyncInv(s: State) {
    && s.syncs.Keys == s.h.marks.Keys
    && (forall t :: t in s.h.marks ==> s.h.marks[t] <= |s.h.enqueued|)
    && Promise(s.h, s.run)
    && (forall t :: t in s.acked ==> t in s.h.marks && Settled(s, s.h.marks[t]))
    && (forall t :: t in s.syncs && s.syncs[t] == SReturned(true) ==> Settled(s, s.h.marks[t]))
  }

  predicate Extends(s: State, s': State) {
    && s.h.removed <= s'.h.removed && |s.h.enqueued| <= |s'.h.enqueued|
    && |Shipped(s.h.resolved)| <= |Shipped(s'.h.resolved)|
  }

  lemma PerformExtends(s: State, t: Tid, f: Effect)
    requires Possible(s, f)
    ensures Extends(s, Perform(s, t, f))
  {
    hide Perform, Shipped;
    PerformHistory(s, t, f);
    if f.Resolve? { ResolvedSnoc(s.h.resolved, Ended(s, f.ok)); }
  }

  /** Promises survive any growth of the history; a new acknowledgement or return needs a settled mark. */
  lemma SyncKept(s: State, s': State)
    requires SyncInv(s) && Extends(s, s') && Promise(s'.h, s'.run) && s'.h.marks == s.h.marks
        && s'.syncs.Keys == s.syncs.Keys
    requires forall t :: t in s'.acked && t !in s.acked ==> t in s.h.marks && Settled(s, s.h.marks[t])
    requires forall t :: t in s'.syncs && s'.syncs[t] == SReturned(true) && s.syncs[t] != SReturned(true) ==>
        t in s.acked
    ensures SyncInv(s')
  {
    hide Settled, Promise, Shipped;
    forall t | t in s.h.marks && Settled(s, s.h.marks[t]) ensures Settled(s', s.h.marks[t]) {
      StillSettled(s, s', s.h.marks[t]);
    }
  }

  lemma StillSettled(s: State, s': State, n: nat)
    requires Settled(s, n) && Extends(s, s')
    ensures Settled(s', n)
  {
    hide SettledIn, Shipped;
    SettledGrows(s.h.removed, s.h.resolved, s'.h.removed, s'.h.resolved, n);
  }

  lemma EmptySettles(s: State, n: nat)
    requires OrderInv(s) && s.batch == [] && n <= |s.h.removed|
    ensures Settled(s, n)
  {
    hide Records, Shipped;
    TakenPrefix(s.h.removed, n);
  }

  lemma PromiseRun(c: Config, s: State, ok: bool)
    requires SyncInv(s) && OrderInv(s) && Normalized(c) && Can(c, s, RunStep(ok))
    ensures Promise(s.h, RunPlan(c, s, ok).0)
  {
    hide RunPlan, Settled, Records, Taken, Shipped;
    RunTable(c, s, ok);
    var pc := RunPlan(c, s, ok).0;
    if pc.RFinish? { assert |s.h.enqueued| == |s.h.removed|; }
  }

  lemma PromiseGrows(h: History, h': History, pc: RunPc)
    requires Promise(h, pc) && h'.marks == h.marks && |h.removed| <= |h'.removed|
    ensures Promise(h', pc)
  {
  }

  lemma SyncRun(c: Config, s: State, ok: bool)
    requires SyncInv(s) && OrderInv(s) && BoundsInv(c, s) && Can(c, s, RunStep(ok))
    ensures SyncInv(DoRun(c, s, ok))
  {
    hide RunPlan, Perform, OrderInv, Settled, Promise, Shipped;
    var (pc, f) := RunPlan(c, s, ok);
    var s' := DoRun(c, s, ok);
    RunTable(c, s, ok);
    PerformParts(s, 0, f);
    PerformExtends(s, 0, f);
    PromiseRun(c, s, ok);
    PromiseGrows(s.h, s'.h, pc);
    if f.Ack? {
      MarkMet(s);
      EmptySettles(s, s.h.marks[f.t]);
    }
    SyncKept(s, s');
  }

  lemma MarkMet(s: State)
    requires SyncInv(s) && s.run.RFinish? && s.run.d.For?
    ensures s.run.d.t in s.h.marks && s.h.marks[s.run.d.t] <= |s.h.removed|
  {
    hide Settled;
  }

  lemma SyncWrite(c: Config, s: State, t: Tid)
    requires SyncInv(s) && Can(c, s, WriteStep(t))
    ensures SyncInv(DoWrite(c, s, t))
  {
    hide WritePlan, Perform, Settled, Promise, Shipped, Holding, Admitted, Owing, Carrying;
    var f := WritePlan(c, s, s.writes[t]).1;
    WriteTable(c, s, s.writes[t]);
    PerformParts(s, t, f);
    PerformExtends(s, t, f);
    PromiseGrows(s.h, DoWrite(c, s, t).h, s.run);
    SyncKept(s, DoWrite(c, s, t));
  }

  lemma SyncBegun(c: Config, s: State, t: Tid)
    requires SyncInv(s) && Can(c, s, SyncBegin(t))
    ensures SyncInv(Do(c, s, SyncBegin(t)))
  {
    hide Settled, DrainOf, Shipped;
    var s' := Do(c, s, SyncBegin(t));
    forall u | u in s.h.marks && Settled(s, s.h.marks[u]) ensures Settled(s', s.h.marks[u]) {
      StillSettled(s, s', s.h.marks[u]);
    }
  }

  lemma SyncStep(c: Config, s: State, e: Step)
    requires SyncInv(s) && OrderInv(s) && BoundsInv(c, s) && Can(c, s, e)
    ensures SyncInv(Do(c, s, e))
  {
    hide OrderInv, BoundsInv, Shipped, DoWrite, DoRun, DoClose, Settled;
    match e
    case WriteStep(t) => SyncWrite(c, s, t);
    case RunStep(ok) => SyncRun(c, s, ok);
    case SyncBegin(t) => SyncBegun(c, s, t);
    case WriteBegin(_, _) => SyncKept(s, Do(c, s, e));
    case SyncLoad(_) => SyncKept(s, Do(c, s, e));
    case SyncGiveUp(_) => SyncKept(s, Do(c, s, e));
    case SyncReturn(_) => SyncKept(s, Do(c, s, e));
    case Handoff(_) => SyncKept(s, Do(c, s, e));
    case CloseStep => SyncKept(s, DoClose(s));
    case RunDone => SyncKept(s, Do(c, s, e));
    case RunTick => SyncKept(s, Do(c, s, e));
  }

  // ---------------------------------------------------------------------------------------
  // Every reachable state, and the theorems about whole runs
  // ---------------------------------------------------------------------------------------

  ghost predicate Inv(c: Config, s: State) {
    LockInv(s) && FinalInv(s) && BoundsInv(c, s) && OrderInv(s) && LedgerInv(s) && ArrivalInv(s) && SyncInv(s)
  }

  lemma InvInit(c: Config, s: State)
    requires Normalized(c) && Init(s)
    ensures Inv(c, s)
  {
  }

  lemma InvStep(c: Config, s: State, e: Step)
    requires Inv(c, s) && Can(c, s, e)
    ensures Inv(c, Do(c, s, e))
  {
    hide LockInv, OrderInv, LedgerInv, ArrivalInv, SyncInv, Do, Can, BatchAt;
    LockStep(c, s, e);
    FinalStep(c, s, e);
    BoundsStep(c, s, e);
    OrderStep(c, s, e);
    LedgerStep(c, s, e);
    SyncStep(c, s, e);
  }

  lemma {:induction false} InvReachable(c: Config, tr: seq<State>, i: nat)
    requires Normalized(c) && IsRun(c, tr) && i < |tr|
    ensures Inv(c, tr[i])
  {
    hide Inv, Can, Do, Init;
    if i == 0 {
      InvInit(c, tr[0]);
    } else {
      InvReachable(c, tr, i - 1);
      assert Next(c, tr[i - 1], tr[i]);
      var e :| Can(c, tr[i - 1], e) && tr[i] == Do(c, tr[i - 1], e);
      InvStep(c, tr[i - 1], e);
    }
  }

  lemma StoppedStep(c: Config, s: State, e: Step)
    requires Inv(c, s) && s.flushDone && Can(c, s, e)
    ensures var s' := Do(c, s, e); s'.flushDone && s'.queue == [] && s'.batch == [] && s'.h.enqueued == s.h.enqueued
  {
    hide WritePlan, RunPlan, Perform, OrderInv, LedgerInv, ArrivalInv, SyncInv, Holding, Admitted, Owing, Carrying;
    InvStep(c, s, e);
    if e.WriteStep? {
      WriteTable(c, s, s.writes[e.t]);
      PerformParts(s, e.t, WritePlan(c, s, s.writes[e.t]).1);
      PerformHistory(s, e.t, WritePlan(c, s, s.writes[e.t]).1);
    }
  }

  /**
    Shutdown.  After the barrier of `Close` no write is between its closed-check and its send; when
    `Close` returns the flush goroutine has stopped, and from then on queue and batch are empty for
    ever and nothing is enqueued.
  */
  lemma {:induction false} ShutdownSafety(c: Config, tr: seq<State>, i: nat, j: nat)
    requires Normalized(c) && IsRun(c, tr) && i <= j < |tr|
    ensures tr[i].done ==> forall t :: t in tr[i].writes ==> !Admitted(tr[i].writes[t])
    ensures tr[i].close.CReturned? ==> tr[i].flushDone
    ensures tr[i].flushDone ==>
      tr[j].flushDone && tr[j].queue == [] && tr[j].batch == [] && tr[j].h.enqueued == tr[i].h.enqueued
    decreases j - i
  {
    hide Can, Do, Settled, OrderInv, LedgerInv, ArrivalInv, SyncInv;
    InvReachable(c, tr, i);
    InvReachable(c, tr, j);
    if i < j && tr[i].flushDone {
      ShutdownSafety(c, tr, i, j - 1);
      InvReachable(c, tr, j - 1);
      assert Next(c, tr[j - 1], tr[j]);
      var e :| Can(c, tr[j - 1], e) && tr[j] == Do(c, tr[j - 1], e);
      StoppedStep(c, tr[j - 1], e);
    }
  }

  /**
    Conservation.  Every payload encoded past the first closed-check is in exactly one place: still
    carried by its call, refused because of the close or a full queue, evicted, queued, in the batch,
    or in a frame that was written or lost; order is kept; and the drop counter, up to increments
    about to be made, counts exactly the late, the refused, the evicted and the payloads of lost
    frames.
  */
  lemma Conservation(c: Config, tr: seq<State>, i: nat)
    requires Normalized(c) && IsRun(c, tr) && i < |tr|
    ensures var s := tr[i];
      && s.h.arrived == |Those(s.writes, Carrying)| + s.h.late + s.h.refused + Evictions(s.h.removed)
                        + |Shipped(s.h.resolved)| + |s.batch| + |s.queue|
      && s.h.enqueued == Records(s.h.removed) + s.queue
      && Taken(s.h.removed) == Shipped(s.h.resolved) + s.batch
      && s.dropped + |Those(s.writes, Owing)| + Owed(s.run)
         == s.h.late + s.h.refused + Evictions(s.h.removed) + FailedRecords(s.h.resolved)
  {
    hide Can, Do, Settled, Records, Taken, Shipped, Evictions, AllLost, Those, Rejections, FailedRecords;
    InvReachable(c, tr, i);
    LostSplit(tr[i].h.resolved);
    NoRejections(c, tr, i);
    TakenOrEvicted(tr[i].h.removed);
  }

  /** A frame is written or lost as a whole. */
  lemma {:induction false} NoRejections(c: Config, tr: seq<State>, i: nat)
    requires Normalized(c) && IsRun(c, tr) && i < |tr|
    ensures Rejections(tr[i].h.resolved) == 0
  {
    hide Can, Do;
    if i > 0 {
      NoRejections(c, tr, i - 1);
      assert Next(c, tr[i - 1], tr[i]);
      var e :| Can(c, tr[i - 1], e) && tr[i] == Do(c, tr[i - 1], e);
      StepRejections(c, tr[i - 1], e);
    }
  }

  lemma StepRejections(c: Config, s: State, e: Step)
    requires Can(c, s, e)
    ensures Rejections(Do(c, s, e).h.resolved) == Rejections(s.h.resolved)
  {
    hide WritePlan, RunPlan, Perform, Rejections;
    if e.WriteStep? {
      WriteResolves(c, s, s.writes[e.t]);
      PerformHistory(s, e.t, WritePlan(c, s, s.writes[e.t]).1);
    } else if e.RunStep? {
      PerformHistory(s, 0, RunPlan(c, s, e.ok).1);
      EndedRejections(s.h.resolved, s, true);
      EndedRejections(s.h.resolved, s, false);
    } else {
      QuietSteps(c, s, e);
    }
  }

  lemma WriteResolves(c: Config, s: State, pc: WritePc)
    ensures !WritePlan(c, s, pc).1.Resolve?
  {
  }

  lemma EndedRejections(resolved: seq<Resolved>, s: State, ok: bool)
    ensures Rejections(resolved + [Ended(s, ok)]) == Rejections(resolved)
  {
    assert (resolved + [Ended(s, ok)])[..|resolved|] == resolved;
  }

  lemma {:induction false} TakenOrEvicted(removed: seq<Removal>)
    ensures |removed| == |Taken(removed)| + Evictions(removed)
  {
    if |removed| > 0 { TakenOrEvicted(removed[..|removed| - 1]); }
  }

  /** Every frame, in flight or ended, carries 1 to `batchSize` payloads; the queue never overflows. */
  lemma FrameBounds(c: Config, tr: seq<State>, i: nat)
    requires Normalized(c) && IsRun(c, tr) && i < |tr|
    ensures tr[i].run.RWrite? ==> 1 <= |tr[i].batch| <= c.batchSize
    ensures forall k :: 0 <= k < |tr[i].h.resolved| ==> 1 <= |tr[i].h.resolved[k].records| <= c.batchSize
    ensures |tr[i].queue| <= c.bufferSize
  {
    hide Can, Do, LockInv, OrderInv, LedgerInv, ArrivalInv, SyncInv;
    InvReachable(c, tr, i);
  }

  /**
    The Sync barrier.  If a `Sync` handed its request over, then when it returns every payload
    enqueued before the call was evicted or belongs to a frame that was written or lost.
  */
  lemma SyncBarrier(c: Config, tr: seq<State>, i: nat, t: Tid, k: nat)
    requires Normalized(c) && IsRun(c, tr) && i < |tr|
    requires t in tr[i].syncs && tr[i].syncs[t] == SReturned(true)
    requires t in tr[i].h.marks && k < tr[i].h.marks[t]
    ensures var h := tr[i].h;
      && k < |h.removed| && k < |h.enqueued| && h.removed[k].rec == h.enqueued[k]
      && (h.removed[k].taken ==>
            var at := |Taken(h.removed[..k])|;
            at < |Shipped(h.resolved)| && Shipped(h.resolved)[at] == h.enqueued[k])
  {
    hide Can, Do, LockInv, FinalInv, BoundsInv, LedgerInv, ArrivalInv, Shipped, Taken, Records;
    InvReachable(c, tr, i);
    var s := tr[i];
    SettledRecord(s.h.enqueued, s.queue, s.h.removed, s.h.resolved, s.batch, s.h.marks[t], k);
  }
}
