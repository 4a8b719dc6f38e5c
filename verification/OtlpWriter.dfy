/**
  The OTLP writer as a step relation over its goroutines (otlp/writer.go): any number of `Write`
  and `Sync` calls, one `Close`, and the flush goroutine `run`.  One step is one access to shared
  state; `Write`, `Sync`, `Close` and `run` interleave freely.

  The queue is a bounded sequence, `admit` a set of readers and a writer flag, `flushReq` a
  rendezvous, an export one step with any outcome the transport can report.
*/
module OtlpWriter {
  import opened Wire
  import opened Envelope
  import opened Batching
  import opened Ledger

  type Tid = nat
  datatype Policy = DropNewest | DropOldest
  datatype Config = Config(limits: Limits, queueSize: nat, policy: Policy)

  /** What `normalize` guarantees. */
  predicate Normalized(c: Config) {
    c.queueSize >= 1 && c.limits.batchSize >= 1
  }

  // ---------------------------------------------------------------------------------------
  // Program counters
  // ---------------------------------------------------------------------------------------

  /** Where a `Write` call is; `WSend` to `WResend` lie between its closed-check and its last send. */
  datatype WritePc =
    | WEnter(rec: bytes)
    | WLocked(rec: bytes)
    | WSend(rec: bytes)
    | WEvict(rec: bytes)
    | WEvicted(rec: bytes)
    | WResend(rec: bytes)
    | WCount
    | WUnlock
    | WReturned

  datatype SyncPc = SEnter | SOffer | SWait | SReturned(handed: bool)

  datatype ClosePc = CIdle | CStored | CLocked | CUnlocked | CCancelled | CReturned

  /** A drain serves the final shutdown or one `Sync` call. */
  datatype Drain = Final | For(t: Tid)
  datatype Resume = ToSelect | ToDrain(d: Drain) | ToFinish(d: Drain)
  datatype Cont = AndAppend(rec: bytes, next: Resume) | AndResume(next: Resume)

  datatype RunPc =
    | RSelect
    | RDrain(d: Drain)
    | RAdd(rec: bytes, next: Resume)
    | RAppend(rec: bytes, next: Resume)
    | RCheck(next: Resume)
    | RFlush(next: Resume)
    | RExport(cont: Cont)
    | RCount(n: nat, cont: Cont)
    | RFinish(d: Drain)
    | RStopped

  function Goto(r: Resume): RunPc {
    match r
    case ToSelect => RSelect
    case ToDrain(d) => RDrain(d)
    case ToFinish(d) => RFinish(d)
  }

  function Continue(k: Cont): RunPc {
    match k
    case AndAppend(rec, next) => RAppend(rec, next)
    case AndResume(next) => Goto(next)
  }

  // ---------------------------------------------------------------------------------------
  // State
  // ---------------------------------------------------------------------------------------

  /** What has happened so far; nothing in the program reads it. */
  datatype History = History(
    enqueued: seq<bytes>,        // every record that reached the queue, in order
    removed: seq<Removal>,       // every record that left it: taken by run, or evicted
    resolved: seq<Resolved>,     // every batch whose export ended
    oversize: nat,               // records refused by the size guard
    refused: nat,                // records refused by a full queue
    marks: map<Tid, nat>)        // how many records were enqueued when a Sync was called

  datatype State = State(
    writes: map<Tid, WritePc>,
    syncs: map<Tid, SyncPc>,
    close: ClosePc,
    run: RunPc,
    closed: bool,
    readers: set<Tid>,
    writer: bool,
    cancelled: bool,
    done: bool,
    acked: set<Tid>,
    queue: seq<bytes>,
    batch: seq<bytes>,
    tagged: nat,
    dropped: nat,
    h: History)

  predicate Init(s: State) {
    s == State(map[], map[], CIdle, RSelect, false, {}, false, false, false, {}, [], [], 0, 0,
               History([], [], [], 0, 0, map[]))
  }

  // ---------------------------------------------------------------------------------------
  // Steps
  // ---------------------------------------------------------------------------------------

  datatype Step =
    | WriteBegin(t: Tid, rec: bytes)
    | WriteStep(t: Tid)
    | SyncBegin(t: Tid)
    | SyncLoad(t: Tid)
    | SyncGiveUp(t: Tid)
    | SyncReturn(t: Tid)
    | Handoff(t: Tid)
    | CloseStep
    | RunCancelled
    | RunTick
    | RunTake
    | RunStep
    | RunResolve(outcome: Outcome)

  predicate Can(c: Config, s: State, e: Step) {
    match e
    case WriteBegin(t, _) => t !in s.writes
    case WriteStep(t) => t in s.writes && !s.writes[t].WReturned? && (s.writes[t].WEnter? ==> !s.writer)
    case SyncBegin(t) => t !in s.syncs
    case SyncLoad(t) => t in s.syncs && s.syncs[t].SEnter?
    case SyncGiveUp(t) => t in s.syncs && s.syncs[t].SOffer? && s.cancelled
    case SyncReturn(t) => t in s.syncs && s.syncs[t].SWait? && (t in s.acked || s.done)
    case Handoff(t) => t in s.syncs && s.syncs[t].SOffer? && s.run.RSelect?
    case CloseStep =>
      match s.close {
        case CStored => s.readers == {}
        case CCancelled => s.done
        case CReturned => false
        case _ => true
      }
    case RunCancelled => s.run.RSelect? && s.cancelled
    case RunTick => s.run.RSelect?
    case RunTake => s.run.RSelect? && s.queue != []
    case RunStep => !s.run.RSelect? && !s.run.RExport? && !s.run.RStopped?
    case RunResolve(_) => s.run.RExport?
  }

  function Dequeue(s: State, taken: bool): State
    requires s.queue != []
  {
    s.(queue := s.queue[1..], h := s.h.(removed := s.h.removed + [Removal(s.queue[0], taken)]))
  }

  /** What one step of a `Write` does to the shared state. */
  datatype Effect = Nothing | Lock | Unlock | Send(rec: bytes) | Evict | Oversize | Refuse | Drop

  predicate Possible(s: State, f: Effect) {
    f.Evict? ==> s.queue != []
  }

  function Perform(s: State, t: Tid, f: Effect): (r: State)
    requires Possible(s, f)
    ensures r.writes == s.writes && r.syncs == s.syncs && r.run == s.run && r.batch == s.batch && r.tagged == s.tagged
    ensures r.close == s.close && r.closed == s.closed && r.cancelled == s.cancelled && r.writer == s.writer
    ensures r.done == s.done && r.acked == s.acked
  {
    match f
    case Nothing => s
    case Lock => s.(readers := s.readers + {t})
    case Unlock => s.(readers := s.readers - {t})
    case Send(rec) => s.(queue := s.queue + [rec], h := s.h.(enqueued := s.h.enqueued + [rec]))
    case Evict => Dequeue(s, false)
    case Oversize => s.(h := s.h.(oversize := s.h.oversize + 1))
    case Refuse => s.(h := s.h.(refused := s.h.refused + 1))
    case Drop => s.(dropped := s.dropped + 1)
  }

  /** The next counter of a `Write` and the effect of reaching it, statement by statement. */
  function Plan(c: Config, s: State, pc: WritePc): (r: (WritePc, Effect))
    ensures Possible(s, r.1)
  {
    match pc
    case WEnter(rec) => (WLocked(rec), Lock)
    case WLocked(rec) =>
      if s.closed then (WUnlock, Nothing)
      else if !Admissible(c.limits, rec) then (WCount, Oversize)
      else (WSend(rec), Nothing)
    case WSend(rec) =>
      if |s.queue| < c.queueSize then (WUnlock, Send(rec))
      else if c.policy.DropOldest? then (WEvict(rec), Nothing)
      else (WCount, Refuse)
    case WEvict(rec) => if s.queue != [] then (WEvicted(rec), Evict) else (WResend(rec), Nothing)
    case WEvicted(rec) => (WResend(rec), Drop)
    case WResend(rec) => if |s.queue| < c.queueSize then (WUnlock, Send(rec)) else (WCount, Refuse)
    case WCount => (WUnlock, Drop)
    case WUnlock => (WReturned, Unlock)
    case WReturned => (WReturned, Nothing)
  }

  function DoWrite(c: Config, s: State, t: Tid): State
    requires t in s.writes
  {
    var (pc, f) := Plan(c, s, s.writes[t]);
    Perform(s, t, f).(writes := s.writes[t := pc])
  }

  function DoClose(s: State): (r: State)
    ensures r == s.(close := r.close, closed := r.closed, writer := r.writer, cancelled := r.cancelled)
  {
    match s.close
    case CIdle => s.(close := CStored, closed := true)
    case CStored => s.(close := CLocked, writer := true)
    case CLocked => s.(close := CUnlocked, writer := false)
    case CUnlocked => s.(close := CCancelled, cancelled := true)
    case CCancelled => s.(close := CReturned)
    case CReturned => s
  }

  predicate MustCut(c: Config, s: State, rec: bytes) {
    s.batch != [] && SizeFor(c.limits.env, s.tagged + RecordCost(|rec|)) > c.limits.maxBytes
  }

  predicate Full(c: Config, s: State) {
    |s.batch| >= c.limits.batchSize || SizeFor(c.limits.env, s.tagged) >= c.limits.maxBytes
  }

  /** What one step of the flush goroutine does besides moving on. */
  datatype Work = Idle | Take | Put(rec: bytes) | Count(n: nat) | Ack(t: Tid) | Stop

  predicate Feasible(s: State, w: Work) {
    w.Take? ==> s.queue != []
  }

  function Carry(s: State, w: Work): (r: State)
    requires Feasible(s, w)
    ensures r.writes == s.writes && r.readers == s.readers && r.writer == s.writer && r.syncs == s.syncs
    ensures r.close == s.close && r.closed == s.closed && r.cancelled == s.cancelled
    ensures r.h.resolved == s.h.resolved && r.h.enqueued == s.h.enqueued && r.h.marks == s.h.marks
    ensures r.h.oversize == s.h.oversize && r.h.refused == s.h.refused
  {
    match w
    case Idle => s
    case Take => Dequeue(s, true)
    case Put(rec) => s.(batch := s.batch + [rec], tagged := s.tagged + RecordCost(|rec|))
    case Count(n) => s.(dropped := s.dropped + n)
    case Ack(t) => s.(acked := s.acked + {t})
    case Stop => s.(done := true)
  }

  /** The next counter of the flush goroutine and its work on the way, statement by statement. */
  function Proceed(c: Config, s: State): (r: (RunPc, Work))
    ensures Feasible(s, r.1)
  {
    match s.run
    case RSelect => (RSelect, Idle)
    case RDrain(d) => if s.queue != [] then (RAdd(s.queue[0], ToDrain(d)), Take) else (RFlush(ToFinish(d)), Idle)
    case RAdd(rec, next) =>
      (if MustCut(c, s, rec) then RExport(AndAppend(rec, next)) else RAppend(rec, next), Idle)
    case RAppend(rec, next) => (RCheck(next), Put(rec))
    case RCheck(next) => (if Full(c, s) then RExport(AndResume(next)) else Goto(next), Idle)
    case RFlush(next) => (if s.batch != [] then RExport(AndResume(next)) else Goto(next), Idle)
    case RExport(k) => (s.run, Idle)
    case RCount(n, k) => (Continue(k), Count(n))
    case RFinish(d) => if d.For? then (RSelect, Ack(d.t)) else (RStopped, Stop)
    case RStopped => (RStopped, Idle)
  }

  function DoRun(c: Config, s: State): State {
    var (pc, w) := Proceed(c, s);
    Carry(s, w).(run := pc)
  }

  function DoResolve(s: State, outcome: Outcome): State
    requires s.run.RExport?
  {
    var r := Resolved(s.batch, outcome);
    s.(batch := [], tagged := 0, h := s.h.(resolved := s.h.resolved + [r]),
       run := if Lost(r) > 0 then RCount(Lost(r), s.run.cont) else Continue(s.run.cont))
  }

  function Do(c: Config, s: State, e: Step): State
    requires Can(c, s, e)
  {
    match e
    case WriteBegin(t, rec) => s.(writes := s.writes[t := WEnter(rec)])
    case WriteStep(t) => DoWrite(c, s, t)
    case SyncBegin(t) => s.(syncs := s.syncs[t := SEnter], h := s.h.(marks := s.h.marks[t := |s.h.enqueued|]))
    case SyncLoad(t) => s.(syncs := s.syncs[t := if s.closed then SReturned(false) else SOffer])
    case SyncGiveUp(t) => s.(syncs := s.syncs[t := SReturned(false)])
    case SyncReturn(t) => s.(syncs := s.syncs[t := SReturned(true)])
    case Handoff(t) => s.(syncs := s.syncs[t := SWait], run := RDrain(For(t)))
    case CloseStep => DoClose(s)
    case RunCancelled => s.(run := RDrain(Final))
    case RunTick => s.(run := RFlush(ToSelect))
    case RunTake => Dequeue(s, true).(run := RAdd(s.queue[0], ToSelect))
    case RunStep => DoRun(c, s)
    case RunResolve(outcome) => DoResolve(s, outcome)
  }

  predicate IsControl(e: Step) {
    e.SyncBegin? || e.SyncLoad? || e.SyncGiveUp? || e.SyncReturn? || e.CloseStep?
  }

  /** The steps of `Sync` and `Close` outside the rendezvous leave records and counters alone. */
  lemma ControlFrame(c: Config, s: State, e: Step)
    requires Can(c, s, e) && IsControl(e)
    ensures var s' := Do(c, s, e);
      && s'.writes == s.writes && s'.run == s.run && s'.queue == s.queue && s'.batch == s.batch
      && s'.tagged == s.tagged && s'.dropped == s.dropped && s'.readers == s.readers
      && s'.acked == s.acked && s'.done == s.done && s'.h.enqueued == s.h.enqueued
      && s'.h.removed == s.h.removed && s'.h.resolved == s.h.resolved
      && s'.h.oversize == s.h.oversize && s'.h.refused == s.h.refused
  {
  }

  ghost predicate Next(c: Config, s: State, s': State) {
    exists e :: Can(c, s, e) && s' == Do(c, s, e)
  }

  /** A run of the program: any interleaving, of any length. */
  ghost predicate IsRun(c: Config, tr: seq<State>) {
    && |tr| > 0
    && Init(tr[0])
    && forall i :: 0 <= i < |tr| - 1 ==> Next(c, tr[i], tr[i + 1])
  }

  // ---------------------------------------------------------------------------------------
  // Invariant 1: the admission lock and the shutdown order
  // ---------------------------------------------------------------------------------------

  predicate Holding(pc: WritePc) {
    !pc.WEnter? && !pc.WReturned?
  }

  /** Past the closed-check and still able to touch the queue. */
  predicate Admitted(pc: WritePc) {
    pc.WSend? || pc.WEvict? || pc.WEvicted? || pc.WResend?
  }

  predicate Barred(close: ClosePc) {
    close.CLocked? || close.CUnlocked? || close.CCancelled? || close.CReturned?
  }

  function DrainOf(pc: RunPc): Option<Drain> {
    match pc
    case RDrain(d) => Some(d)
    case RFinish(d) => Some(d)
    case RAdd(_, next) => ResumeDrain(next)
    case RAppend(_, next) => ResumeDrain(next)
    case RCheck(next) => ResumeDrain(next)
    case RFlush(next) => ResumeDrain(next)
    case RExport(k) => ResumeDrain(k.next)
    case RCount(_, k) => ResumeDrain(k.next)
    case _ => None
  }

  function ResumeDrain(r: Resume): Option<Drain> {
    match r
    case ToSelect => None
    case ToDrain(d) => Some(d)
    case ToFinish(d) => Some(d)
  }

  /** The drain has found the queue empty and only its last flush is left. */
  predicate Closing(pc: RunPc) {
    match pc
    case RFinish(_) => true
    case RFlush(next) => next.ToFinish?
    case RExport(k) => k.AndResume? && k.next.ToFinish?
    case RCount(_, k) => k.AndResume? && k.next.ToFinish?
    case _ => false
  }

  /** Only a flush that found the queue empty may resume at the end of a drain. */
  predicate WellPlaced(pc: RunPc) {
    match pc
    case RAdd(_, next) => !next.ToFinish?
    case RAppend(_, next) => !next.ToFinish?
    case RCheck(next) => !next.ToFinish?
    case RExport(k) => k.AndAppend? ==> !k.next.ToFinish?
    case RCount(_, k) => k.AndAppend? ==> !k.next.ToFinish?
    case _ => true
  }

  /** The admission lock: who holds it, and that nobody is admitted once `Close` has passed it. */
  ghost predicate LockInv(s: State) {
    && (forall t :: t in s.readers <==> t in s.writes && Holding(s.writes[t]))
    && (s.writer <==> s.close.CLocked?)
    && (s.writer ==> s.readers == {})
    && (s.closed <==> !s.close.CIdle?)
    && (s.cancelled <==> s.close.CCancelled? || s.close.CReturned?)
    && (Barred(s.close) ==> forall t :: t in s.writes ==> !Admitted(s.writes[t]))
  }

  /** The final drain runs only after the cancel, and ends with an empty queue. */
  ghost predicate FinalInv(s: State) {
    && (s.done <==> s.run.RStopped?)
    && (DrainOf(s.run) == Some(Final) || s.done ==> s.cancelled)
    && ((Closing(s.run) && DrainOf(s.run) == Some(Final)) || s.done ==> s.queue == [])
    && (s.close.CReturned? ==> s.done)
    && WellPlaced(s.run)
  }

  /** How a `Write` moves on: it takes the lock only when free, and is admitted only while open. */
  lemma PlanLock(c: Config, s: State, pc: WritePc)
    requires !pc.WReturned? && (pc.WEnter? ==> !s.writer)
    ensures var (pc', f) := Plan(c, s, pc);
      && (f.Lock? <==> Holding(pc') && !Holding(pc)) && (f.Unlock? <==> Holding(pc) && !Holding(pc'))
      && (f.Lock? ==> !s.writer)
      && (Admitted(pc') ==> Admitted(pc) || !s.closed)
      && (f.Send? || f.Evict? ==> Admitted(pc))
  {
    hide Admissible;
  }

  lemma PerformLock(s: State, t: Tid, f: Effect)
    requires Possible(s, f)
    ensures Perform(s, t, f).readers
         == if f.Lock? then s.readers + {t} else if f.Unlock? then s.readers - {t} else s.readers
    ensures !f.Send? && !f.Evict? ==> Perform(s, t, f).queue == s.queue
  {
  }

  lemma LockWrite(c: Config, s: State, t: Tid)
    requires LockInv(s) && Can(c, s, WriteStep(t))
    ensures LockInv(DoWrite(c, s, t))
  {
    hide Plan, Perform, Holding, Admitted;
    var (pc, f) := Plan(c, s, s.writes[t]);
    PlanLock(c, s, s.writes[t]);
    PerformLock(s, t, f);
  }

  lemma LockStep(c: Config, s: State, e: Step)
    requires LockInv(s) && Can(c, s, e)
    ensures LockInv(Do(c, s, e))
  {
    hide DoWrite, Proceed, Carry, Holding, Admitted;
    match e
    case WriteBegin(t, rec) => NewWrite(rec);
    case WriteStep(t) => LockWrite(c, s, t);
    case CloseStep =>
      forall t | t in s.writes && !Holding(s.writes[t]) ensures !Admitted(s.writes[t]) { AdmittedHolds(s.writes[t]); }
    case _ =>
  }

  lemma AdmittedHolds(pc: WritePc)
    ensures Admitted(pc) ==> Holding(pc)
  {
  }

  lemma NewWrite(rec: bytes)
    ensures !Holding(WEnter(rec)) && !Admitted(WEnter(rec))
  {
  }

  /** Where the moves of the flush goroutine lead, as far as the shutdown is concerned. */
  lemma FinalTable(c: Config, s: State)
    requires WellPlaced(s.run) && Can(c, s, RunStep)
    ensures var (pc, w) := Proceed(c, s);
      && WellPlaced(pc)
      && (DrainOf(pc) == Some(Final) ==> DrainOf(s.run) == Some(Final))
      && (Closing(pc) && DrainOf(pc) == Some(Final) ==> !w.Take? && (s.queue == [] || Closing(s.run)))
      && (w.Stop? <==> pc.RStopped?)
      && (w.Stop? ==> s.run == RFinish(Final))
  {
    hide MustCut, Full;
    match s.run
    case RDrain(_) =>
    case RAdd(_, _) =>
    case RAppend(_, _) =>
    case RCheck(_) =>
    case RFlush(_) =>
    case RCount(_, _) =>
    case RFinish(_) =>
  }

  lemma CarryDone(s: State, w: Work)
    requires Feasible(s, w)
    ensures Carry(s, w).done == (s.done || w.Stop?)
    ensures !w.Take? ==> Carry(s, w).queue == s.queue
    ensures s.queue == [] ==> Carry(s, w).queue == []
  {
  }

  lemma FinalRun(c: Config, s: State)
    requires FinalInv(s) && Can(c, s, RunStep)
    ensures FinalInv(DoRun(c, s))
  {
    hide Proceed, Carry, WellPlaced;
    FinalTable(c, s);
    CarryDone(s, Proceed(c, s).1);
  }

  lemma FinalStep(c: Config, s: State, e: Step)
    requires LockInv(s) && FinalInv(s) && Can(c, s, e)
    ensures FinalInv(Do(c, s, e))
  {
    hide Plan, Perform, DoRun, Admitted, Holding;
    match e
    case WriteStep(t) =>
      PlanLock(c, s, s.writes[t]);
      PerformLock(s, t, Plan(c, s, s.writes[t]).1);
    case RunStep => FinalRun(c, s);
    case _ =>
  }

  // ---------------------------------------------------------------------------------------
  // Invariant 2: request bounds
  // ---------------------------------------------------------------------------------------

  predicate Open(l: Limits, batch: seq<bytes>, tagged: nat) {
    batch != [] ==> |batch| < l.batchSize && SizeFor(l.env, tagged) < l.maxBytes
  }

  /** What the batch satisfies at each point of the flush goroutine. */
  predicate BatchAt(l: Limits, batch: seq<bytes>, tagged: nat, pc: RunPc) {
    match pc
    case RSelect => Open(l, batch, tagged)
    case RDrain(_) => Open(l, batch, tagged)
    case RAdd(rec, _) => Open(l, batch, tagged) && Admissible(l, rec)
    case RAppend(rec, _) => Fits(l, batch + [rec])
    case RCheck(_) => Request(l, batch)
    case RFlush(_) => Open(l, batch, tagged)
    case RExport(k) => Request(l, batch) && (k.AndAppend? ==> Admissible(l, k.rec))
    case RCount(_, k) => batch == [] && (k.AndAppend? ==> Admissible(l, k.rec))
    case RFinish(_) => batch == []
    case RStopped => batch == []
  }

  predicate PcAdmissible(c: Config, pc: WritePc) {
    Admitted(pc) ==> Admissible(c.limits, pc.rec)
  }

  ghost predicate BoundsInv(c: Config, s: State) {
    && Normalized(c)
    && |s.queue| <= c.queueSize
    && AllAdmissible(c.limits, s.queue)
    && (forall t :: t in s.writes ==> PcAdmissible(c, s.writes[t]))
    && s.tagged == Tagged(s.batch)
    && BatchAt(c.limits, s.batch, s.tagged, s.run)
    && forall i :: 0 <= i < |s.h.resolved| ==> Request(c.limits, s.h.resolved[i].records)
  }

  lemma PlanBounds(c: Config, s: State, pc: WritePc)
    requires PcAdmissible(c, pc)
    ensures var (pc', f) := Plan(c, s, pc);
      PcAdmissible(c, pc') && (f.Send? ==> |s.queue| < c.queueSize && Admissible(c.limits, f.rec))
  {
    hide Admissible;
  }

  lemma BoundsWrite(c: Config, s: State, t: Tid)
    requires BoundsInv(c, s) && Can(c, s, WriteStep(t))
    ensures BoundsInv(c, DoWrite(c, s, t))
  {
    hide Plan, Perform, Admissible, Request, PcAdmissible, BatchAt, AllAdmissible;
    PlanBounds(c, s, s.writes[t]);
    PerformBounds(c, s, t, Plan(c, s, s.writes[t]).1);
  }

  lemma PerformBounds(c: Config, s: State, t: Tid, f: Effect)
    requires Possible(s, f) && AllAdmissible(c.limits, s.queue) && |s.queue| <= c.queueSize
    requires f.Send? ==> |s.queue| < c.queueSize && Admissible(c.limits, f.rec)
    ensures var r := Perform(s, t, f);
      AllAdmissible(c.limits, r.queue) && |r.queue| <= c.queueSize && r.h.resolved == s.h.resolved
  {
    hide Admissible;
  }

  /** Appending after the cut test keeps both limits; this is where the guard of `Write` is used. */
  lemma AppendFits(l: Limits, batch: seq<bytes>, tagged: nat, rec: bytes)
    requires l.batchSize >= 1 && Open(l, batch, tagged) && Admissible(l, rec) && tagged == Tagged(batch)
    ensures batch == [] || SizeFor(l.env, tagged + RecordCost(|rec|)) <= l.maxBytes ==> Fits(l, batch + [rec])
    ensures batch != [] ==> Request(l, batch)
  {
    hide SizeFor, RecordCost;
    TaggedSnoc(batch, rec);
    if batch == [] {
      SingleFits(l, rec);
      assert batch + [rec] == [rec];
    }
  }

  /** The move leads to the batch condition of the next counter. */
  predicate BatchNext(c: Config, s: State) {
    var (pc, w) := Proceed(c, s);
    BatchAt(c.limits, Carry(s, w).batch, Carry(s, w).tagged, pc)
  }

  lemma BatchDrain(c: Config, s: State)
    requires s.run.RDrain? && BoundsInv(c, s)
    ensures BatchNext(c, s)
  {
    hide SizeFor, Admissible, Tagged, PcAdmissible;
  }

  lemma BatchAdd(c: Config, s: State)
    requires s.run.RAdd? && BoundsInv(c, s)
    ensures BatchNext(c, s)
  {
    hide SizeFor, RecordCost, Admissible, Tagged, PcAdmissible, AllAdmissible, Fits;
    AppendFits(c.limits, s.batch, s.tagged, s.run.rec);
  }

  lemma BatchAppend(c: Config, s: State)
    requires s.run.RAppend? && BoundsInv(c, s)
    ensures BatchNext(c, s)
  {
    hide RecordCost, Admissible, Tagged, PcAdmissible, AllAdmissible, Fits;
  }

  lemma BatchCheck(c: Config, s: State)
    requires s.run.RCheck? && BoundsInv(c, s) && WellPlaced(s.run)
    ensures BatchNext(c, s)
  {
    hide SizeFor, Admissible, Tagged, PcAdmissible, AllAdmissible, Fits;
  }

  lemma BatchFlush(c: Config, s: State)
    requires s.run.RFlush? && BoundsInv(c, s)
    ensures BatchNext(c, s)
  {
    hide SizeFor, Admissible, Tagged, PcAdmissible, AllAdmissible, Fits;
    if s.batch != [] { EmptyOpen(c.limits, s.batch, s.tagged); }
  }

  lemma BatchCount(c: Config, s: State)
    requires s.run.RCount? && BoundsInv(c, s)
    ensures BatchNext(c, s)
  {
    hide BatchAt, Admissible, PcAdmissible, AllAdmissible, Continue, SizeFor;
    CountedBatch(c.limits, s.batch, s.tagged, s.run);
    AfterExport(c.limits, s.run.cont);
  }

  lemma CountedBatch(l: Limits, batch: seq<bytes>, tagged: nat, pc: RunPc)
    requires pc.RCount? && BatchAt(l, batch, tagged, pc)
    ensures batch == [] && (pc.cont.AndAppend? ==> Admissible(l, pc.cont.rec))
  {
  }

  /** Each move of the flush goroutine leads to the batch condition of its next counter. */
  lemma BatchRun(c: Config, s: State)
    requires BoundsInv(c, s) && WellPlaced(s.run) && Can(c, s, RunStep)
    ensures BatchNext(c, s)
  {
    hide BatchNext, BoundsInv, WellPlaced;
    match s.run
    case RDrain(_) => BatchDrain(c, s);
    case RAdd(_, _) => BatchAdd(c, s);
    case RAppend(_, _) => BatchAppend(c, s);
    case RCheck(_) => BatchCheck(c, s);
    case RFlush(_) => BatchFlush(c, s);
    case RCount(_, _) => BatchCount(c, s);
    case RFinish(_) => BatchFinish(c, s);
  }

  lemma BatchFinish(c: Config, s: State)
    requires s.run.RFinish? && BoundsInv(c, s)
    ensures BatchNext(c, s)
  {
    hide SizeFor, Admissible, Tagged, PcAdmissible, AllAdmissible;
  }

  lemma CarryBounds(c: Config, s: State, w: Work)
    requires Feasible(s, w) && s.tagged == Tagged(s.batch) && AllAdmissible(c.limits, s.queue)
    ensures Carry(s, w).tagged == Tagged(Carry(s, w).batch)
    ensures |Carry(s, w).queue| <= |s.queue| && AllAdmissible(c.limits, Carry(s, w).queue)
  {
    hide RecordCost, Admissible, Tagged;
    if w.Put? { TaggedSnoc(s.batch, w.rec); }
  }

  lemma EmptyOpen(l: Limits, batch: seq<bytes>, tagged: nat)
    requires Open(l, batch, tagged) && batch != [] && tagged == Tagged(batch)
    ensures Request(l, batch)
  {
  }

  /** With an empty batch any continuation of an export is in order. */
  lemma AfterExport(l: Limits, k: Cont)
    requires l.batchSize >= 1 && (k.AndAppend? ==> Admissible(l, k.rec))
    ensures BatchAt(l, [], 0, Continue(k))
  {
    hide SizeFor;
    if k.AndAppend? {
      SingleFits(l, k.rec);
      assert [] + [k.rec] == [k.rec];
    }
  }

  lemma BoundsResolve(c: Config, s: State, outcome: Outcome)
    requires BoundsInv(c, s) && s.run.RExport?
    ensures BoundsInv(c, DoResolve(s, outcome))
  {
    hide SizeFor, Admissible, Continue, BatchAt, Request, PcAdmissible, AllAdmissible;
    ExportBatch(c.limits, s.batch, s.tagged, s.run);
    AfterExport(c.limits, s.run.cont);
    CountAfter(c.limits, Lost(Resolved(s.batch, outcome)), s.run.cont);
  }

  lemma ExportBatch(l: Limits, batch: seq<bytes>, tagged: nat, pc: RunPc)
    requires pc.RExport? && BatchAt(l, batch, tagged, pc)
    ensures Request(l, batch) && (pc.cont.AndAppend? ==> Admissible(l, pc.cont.rec))
  {
  }

  lemma CountAfter(l: Limits, n: nat, k: Cont)
    requires k.AndAppend? ==> Admissible(l, k.rec)
    ensures BatchAt(l, [], 0, RCount(n, k)) && Tagged([]) == 0
  {
  }

  lemma BoundsRun(c: Config, s: State)
    requires BoundsInv(c, s) && WellPlaced(s.run) && Can(c, s, RunStep)
    ensures BoundsInv(c, DoRun(c, s))
  {
    hide Admissible, Request, BatchAt, PcAdmissible, Proceed, Carry, Tagged, AllAdmissible;
    BatchRun(c, s);
    CarryBounds(c, s, Proceed(c, s).1);
  }

  lemma BoundsStep(c: Config, s: State, e: Step)
    requires BoundsInv(c, s) && WellPlaced(s.run) && Can(c, s, e)
    ensures BoundsInv(c, Do(c, s, e))
  {
    hide SizeFor, Admissible, Request, DoWrite, DoRun, DoResolve;
    if IsControl(e) {
      BoundsControl(c, s, e);
    } else {
      match e
      case WriteBegin(_, _) =>
      case WriteStep(t) => BoundsWrite(c, s, t);
      case Handoff(_) =>
      case RunCancelled =>
      case RunTick =>
      case RunTake =>
      case RunStep => BoundsRun(c, s);
      case RunResolve(outcome) => BoundsResolve(c, s, outcome);
    }
  }

  lemma BoundsControl(c: Config, s: State, e: Step)
    requires BoundsInv(c, s) && Can(c, s, e) && IsControl(e)
    ensures BoundsInv(c, Do(c, s, e))
  {
    hide Do, Request, Admissible, BatchAt, PcAdmissible, Tagged;
    ControlFrame(c, s, e);
  }

  // ---------------------------------------------------------------------------------------
  // Invariant 3: conservation and the drop ledger
  // ---------------------------------------------------------------------------------------

  /** The record between the queue and the batch, if any. */
  function InHand(pc: RunPc): seq<bytes> {
    match pc
    case RAdd(rec, _) => [rec]
    case RAppend(rec, _) => [rec]
    case RExport(k) => if k.AndAppend? then [k.rec] else []
    case RCount(_, k) => if k.AndAppend? then [k.rec] else []
    case _ => []
  }

  /** Increments of the drop counter that the history already shows and a goroutine still owes. */
  function Owed(pc: RunPc): nat {
    if pc.RCount? then pc.n else 0
  }

  ghost function OwedBy(writes: map<Tid, WritePc>): set<Tid> {
    set t | t in writes && (writes[t].WCount? || writes[t].WEvicted?)
  }

  /**
    Enqueue order is kept: what left the queue followed by the queue is what entered it; and what
    `run` took is the resolved batches, the current batch and the record in hand, in that order.
  */
  predicate OrderInv(s: State) {
    && s.h.enqueued == Records(s.h.removed) + s.queue
    && Taken(s.h.removed) == Shipped(s.h.resolved) + s.batch + InHand(s.run)
  }

  /** The drop counter, up to increments still owed, is the sum of its five causes. */
  ghost predicate LedgerInv(s: State) {
    s.dropped + |OwedBy(s.writes)| + Owed(s.run)
      == s.h.oversize + s.h.refused + Evictions(s.h.removed) + AllLost(s.h.resolved)
  }

  /** Taking the head of the queue moves it to the end of what left. */
  lemma DequeueOrder(s: State, taken: bool)
    requires s.queue != [] && s.h.enqueued == Records(s.h.removed) + s.queue
    ensures var s' := Dequeue(s, taken);
      && s'.h.enqueued == Records(s'.h.removed) + s'.queue
      && Taken(s'.h.removed) == Taken(s.h.removed) + (if taken then [s.queue[0]] else [])
      && Evictions(s'.h.removed) == Evictions(s.h.removed) + (if taken then 0 else 1)
  {
  }

  lemma OrderPerform(s: State, t: Tid, f: Effect)
    requires Possible(s, f) && s.h.enqueued == Records(s.h.removed) + s.queue
    ensures var s' := Perform(s, t, f);
      && s'.h.enqueued == Records(s'.h.removed) + s'.queue
      && Taken(s'.h.removed) == Taken(s.h.removed) && s'.h.resolved == s.h.resolved
      && Evictions(s'.h.removed) == Evictions(s.h.removed) + (if f.Evict? then 1 else 0)
  {
    hide Records, Taken, Evictions;
    if f.Evict? { DequeueOrder(s, false); }
  }

  lemma ProceedOrder(c: Config, s: State)
    requires Can(c, s, RunStep)
    ensures var (pc, w) := Proceed(c, s);
      match w
      case Take => InHand(s.run) == [] && InHand(pc) == [s.queue[0]]
      case Put(rec) => InHand(s.run) == [rec] && InHand(pc) == []
      case _ => InHand(pc) == InHand(s.run)
  {
    hide MustCut, Full;
  }

  lemma OrderPut(s: State, rec: bytes)
    requires OrderInv(s) && InHand(s.run) == [rec]
    ensures Taken(s.h.removed) == Shipped(s.h.resolved) + (s.batch + [rec]) + []
  {
    hide Records, Taken, Shipped, InHand;
    Assoc(Shipped(s.h.resolved), s.batch, [rec]);
    assert Shipped(s.h.resolved) + (s.batch + [rec]) + [] == Shipped(s.h.resolved) + (s.batch + [rec]);
  }

  /** What a unit of work does to the record's whereabouts. */
  lemma CarryOrder(s: State, w: Work)
    requires Feasible(s, w)
    ensures var r := Carry(s, w);
      && (w.Take? ==> r.queue == Dequeue(s, true).queue && r.h.removed == Dequeue(s, true).h.removed)
      && (!w.Take? ==> r.queue == s.queue && r.h.removed == s.h.removed)
      && r.batch == if w.Put? then s.batch + [w.rec] else s.batch
  {
  }

  lemma OrderRun(c: Config, s: State)
    requires OrderInv(s) && Can(c, s, RunStep)
    ensures OrderInv(DoRun(c, s))
  {
    hide Records, Taken, Shipped, Proceed, InHand, Carry, Dequeue;
    var w := Proceed(c, s).1;
    ProceedOrder(c, s);
    CarryOrder(s, w);
    if w.Take? {
      OrderTake(s);
      TakeKeeps(s);
    } else if w.Put? {
      OrderPut(s, w.rec);
    }
  }

  lemma TakeKeeps(s: State)
    requires s.queue != []
    ensures Dequeue(s, true).h.enqueued == s.h.enqueued
  {
  }

  lemma OrderStep(c: Config, s: State, e: Step)
    requires OrderInv(s) && Can(c, s, e)
    ensures OrderInv(Do(c, s, e))
  {
    hide Records, Taken, Shipped, Plan, Perform, DoRun;
    if IsControl(e) {
      ControlFrame(c, s, e);
    } else {
      match e
      case WriteBegin(_, _) =>
      case WriteStep(t) => OrderPerform(s, t, Plan(c, s, s.writes[t]).1);
      case Handoff(_) =>
      case RunCancelled =>
      case RunTick =>
      case RunTake => OrderTake(s);
      case RunStep => OrderRun(c, s);
      case RunResolve(outcome) => OrderResolve(s, outcome);
    }
  }

  lemma OrderTake(s: State)
    requires OrderInv(s) && s.queue != [] && InHand(s.run) == []
    ensures var s' := Dequeue(s, true);
      && s'.h.enqueued == Records(s'.h.removed) + s'.queue
      && Taken(s'.h.removed) == Shipped(s.h.resolved) + s.batch + [s.queue[0]]
  {
  }

  lemma OrderResolve(s: State, outcome: Outcome)
    requires OrderInv(s) && s.run.RExport?
    ensures OrderInv(DoResolve(s, outcome))
  {
  }

  /** One call leaving or entering the set of debtors changes its size by one. */
  lemma OwedUpdate(writes: map<Tid, WritePc>, t: Tid, pc: WritePc)
    ensures |OwedBy(writes[t := pc])|
         == |OwedBy(writes)| - (if t in OwedBy(writes) then 1 else 0) + (if pc.WCount? || pc.WEvicted? then 1 else 0)
  {
    hide OwedBy;
    OwedOthers(writes, t, pc);
    SizeWithout(OwedBy(writes), t);
    SizeWithout(OwedBy(writes[t := pc]), t);
  }

  lemma OwedOthers(writes: map<Tid, WritePc>, t: Tid, pc: WritePc)
    ensures OwedBy(writes[t := pc]) - {t} == OwedBy(writes) - {t}
    ensures t in OwedBy(writes[t := pc]) <==> pc.WCount? || pc.WEvicted?
  {
    var changed := writes[t := pc];
    forall u | u != t ensures u in OwedBy(changed) <==> u in OwedBy(writes) {
      assert u in changed <==> u in writes;
    }
  }

  /** A step is counted exactly when its effect says so, and paid exactly when it was owed. */
  lemma PlanLedger(c: Config, s: State, pc: WritePc)
    ensures var (pc', f) := Plan(c, s, pc);
      && (f.Drop? <==> pc.WCount? || pc.WEvicted?)
      && (f.Oversize? || f.Refuse? || f.Evict? <==> pc'.WCount? || pc'.WEvicted?)
  {
    hide Admissible;
  }

  lemma PerformLedger(s: State, t: Tid, f: Effect)
    requires Possible(s, f)
    ensures var r := Perform(s, t, f);
      && r.dropped == s.dropped + (if f.Drop? then 1 else 0)
      && r.h.oversize + r.h.refused == s.h.oversize + s.h.refused + (if f.Oversize? || f.Refuse? then 1 else 0)
  {
  }

  lemma LedgerWrite(c: Config, s: State, t: Tid)
    requires OrderInv(s) && LedgerInv(s) && Can(c, s, WriteStep(t))
    ensures LedgerInv(DoWrite(c, s, t))
  {
    hide Plan, Perform, Records, Taken, Evictions, AllLost, Shipped;
    var (pc, f) := Plan(c, s, s.writes[t]);
    PlanLedger(c, s, s.writes[t]);
    PerformLedger(s, t, f);
    OwedUpdate(s.writes, t, pc);
    OrderPerform(s, t, f);
  }

  lemma ProceedLedger(c: Config, s: State)
    requires Can(c, s, RunStep)
    ensures var (pc, w) := Proceed(c, s);
      Owed(pc) + (if w.Count? then w.n else 0) == Owed(s.run)
  {
    hide MustCut, Full;
  }

  lemma CarryLedger(s: State, w: Work)
    requires Feasible(s, w) && s.h.enqueued == Records(s.h.removed) + s.queue
    ensures Carry(s, w).dropped == s.dropped + (if w.Count? then w.n else 0)
    ensures Evictions(Carry(s, w).h.removed) == Evictions(s.h.removed)
  {
  }

  lemma LedgerRun(c: Config, s: State)
    requires OrderInv(s) && LedgerInv(s) && Can(c, s, RunStep)
    ensures LedgerInv(DoRun(c, s))
  {
    hide Records, Taken, Evictions, AllLost, Shipped, OwedBy, Proceed, Carry, Owed;
    ProceedLedger(c, s);
    CarryLedger(s, Proceed(c, s).1);
  }

  lemma LedgerStep(c: Config, s: State, e: Step)
    requires OrderInv(s) && LedgerInv(s) && Can(c, s, e)
    ensures LedgerInv(Do(c, s, e))
  {
    hide Records, Taken, Evictions, AllLost, Shipped, OwedBy, DoWrite, DoRun;
    if IsControl(e) {
      ControlFrame(c, s, e);
    } else {
      match e
      case WriteBegin(t, rec) =>
        OwedUpdate(s.writes, t, WEnter(rec));
        NotOwed(s.writes, t);
      case WriteStep(t) => LedgerWrite(c, s, t);
      case Handoff(_) =>
      case RunCancelled =>
      case RunTick =>
      case RunTake => DequeueOrder(s, true);
      case RunStep => LedgerRun(c, s);
      case RunResolve(outcome) => ResolvedSnoc(s.h.resolved, Resolved(s.batch, outcome));
    }
  }

  lemma NotOwed(writes: map<Tid, WritePc>, t: Tid)
    requires t !in writes
    ensures t !in OwedBy(writes)
  {
  }

  // ---------------------------------------------------------------------------------------
  // Invariant 4: the Sync barrier
  // ---------------------------------------------------------------------------------------

  /** The first `n` records that entered the queue have been evicted or sent in an ended export. */
  predicate Settled(s: State, n: nat) {
    SettledIn(s.h.removed, s.h.resolved, n)
  }

  /** What a drain for a `Sync` call owes it at each point. */
  predicate Promise(s: State, pc: RunPc) {
    match DrainOf(pc)
    case None => true
    case Some(Final) => true
    case Some(For(t)) => t in s.h.marks && (Closing(pc) ==> s.h.marks[t] <= |s.h.removed|)
  }

  ghost predicate SyncInv(s: State) {
    && s.syncs.Keys == s.h.marks.Keys
    && (forall t :: t in s.h.marks ==> s.h.marks[t] <= |s.h.enqueued|)
    && Promise(s, s.run)
    && (forall t :: t in s.acked ==> t in s.h.marks && Settled(s, s.h.marks[t]))
    && (forall t :: t in s.syncs && s.syncs[t] == SReturned(true) ==> Settled(s, s.h.marks[t]))
  }

  /** The histories of `s'` extend those of `s`. */
  predicate Extends(s: State, s': State) {
    && s.h.removed <= s'.h.removed
    && |s.h.enqueued| <= |s'.h.enqueued|
    && |Shipped(s.h.resolved)| <= |Shipped(s'.h.resolved)|
  }

  /** Nothing settled becomes unsettled: the histories only grow. */
  lemma SettledKept(s: State, s': State, n: nat)
    requires Settled(s, n) && Extends(s, s')
    ensures Settled(s', n)
  {
    hide Taken, Shipped, SettledIn;
    SettledGrows(s.h.removed, s.h.resolved, s'.h.removed, s'.h.resolved, n);
  }

  /** With an empty batch and nothing in hand, everything that left the queue is settled. */
  lemma EmptySettles(s: State, n: nat)
    requires OrderInv(s) && s.batch == [] && InHand(s.run) == [] && n <= |s.h.removed|
    ensures Settled(s, n)
  {
    TakenPrefix(s.h.removed, n);
  }

  /** A step that leaves the `Sync` calls alone keeps every promise made to them. */
  lemma SyncKept(s: State, s': State)
    requires SyncInv(s) && Extends(s, s') && Promise(s', s'.run)
    requires s'.syncs == s.syncs && s'.acked == s.acked && s'.h.marks == s.h.marks
    ensures SyncInv(s')
  {
    hide Settled, Extends, Promise;
    assert |s.h.enqueued| <= |s'.h.enqueued| by { ExtendsQueue(s, s'); }
    forall t | t in s.h.marks && Settled(s, s.h.marks[t]) ensures Settled(s', s.h.marks[t]) {
      SettledKept(s, s', s.h.marks[t]);
    }
  }

  lemma ExtendsQueue(s: State, s': State)
    requires Extends(s, s')
    ensures |s.h.enqueued| <= |s'.h.enqueued|
  {
  }

  lemma PerformExtends(s: State, t: Tid, f: Effect)
    requires Possible(s, f)
    ensures var r := Perform(s, t, f); Extends(s, r) && r.h.marks == s.h.marks
  {
    hide Shipped;
  }

  lemma SyncWrite(c: Config, s: State, t: Tid)
    requires SyncInv(s) && Can(c, s, WriteStep(t))
    ensures SyncInv(DoWrite(c, s, t))
  {
    hide Plan, Perform, SyncInv, Promise, Shipped;
    var s' := DoWrite(c, s, t);
    PerformExtends(s, t, Plan(c, s, s.writes[t]).1);
    assert Promise(s, s.run) by { PromiseNow(s); }
    PromiseKept(s, s', s.run);
    SyncKept(s, s');
  }

  lemma PromiseNow(s: State)
    requires SyncInv(s)
    ensures Promise(s, s.run)
  {
  }

  /** The flush goroutine honours the promise: it finds the queue empty before it finishes a drain. */
  lemma PromiseRun(c: Config, s: State)
    requires SyncInv(s) && OrderInv(s) && WellPlaced(s.run) && Can(c, s, RunStep)
    ensures Promise(s, Proceed(c, s).0)
  {
    hide MustCut, Full, Settled, Taken, Records;
    match s.run
    case RDrain(d) => if s.queue == [] { assert |s.h.enqueued| == |s.h.removed|; }
    case RAdd(_, _) =>
    case RAppend(_, _) =>
    case RCheck(_) =>
    case RFlush(_) =>
    case RCount(_, _) =>
    case RFinish(_) =>
  }

  lemma PromiseKept(s: State, s': State, pc: RunPc)
    requires Promise(s, pc) && s'.h.marks == s.h.marks && |s.h.removed| <= |s'.h.removed|
    ensures Promise(s', pc)
  {
  }

  lemma SyncRun(c: Config, s: State)
    requires SyncInv(s) && OrderInv(s) && BatchAt(c.limits, s.batch, s.tagged, s.run) && WellPlaced(s.run)
        && Can(c, s, RunStep)
    ensures SyncInv(DoRun(c, s))
  {
    hide Proceed, Carry, Promise, SyncInv, Shipped, Taken, BatchAt, OrderInv;
    var (pc, w) := Proceed(c, s);
    var s' := DoRun(c, s);
    CarryExtends(s, w);
    PromiseRun(c, s);
    PromiseKept(s, s', pc);
    if w.Ack? {
      AckSettles(c, s, w.t);
      SettledKept(s, s', s.h.marks[w.t]);
      SyncAcked(s, s', w.t);
    } else {
      SyncKept(s, s');
    }
  }

  lemma CarryExtends(s: State, w: Work)
    requires Feasible(s, w)
    ensures var r := Carry(s, w); Extends(s, r) && r.acked == if w.Ack? then s.acked + {w.t} else s.acked
  {
    hide Shipped;
  }

  lemma SyncAcked(s: State, s': State, t: Tid)
    requires SyncInv(s) && Extends(s, s') && Promise(s', s'.run)
    requires s'.syncs == s.syncs && s'.acked == s.acked + {t} && s'.h.marks == s.h.marks
    requires t in s.h.marks && Settled(s', s.h.marks[t])
    ensures SyncInv(s')
  {
    hide Settled, Extends, Promise;
    ExtendsQueue(s, s');
    forall u | u in s.h.marks && Settled(s, s.h.marks[u]) ensures Settled(s', s.h.marks[u]) {
      SettledKept(s, s', s.h.marks[u]);
    }
  }

  /** A `Sync` call moves on; it may report success only for a settled mark. */
  lemma SyncMoved(s: State, s': State, t: Tid, pc: SyncPc)
    requires SyncInv(s) && Extends(s, s') && Promise(s', s'.run)
    requires t in s.syncs && s'.syncs == s.syncs[t := pc] && s'.acked == s.acked && s'.h.marks == s.h.marks
    requires pc == SReturned(true) ==> Settled(s, s.h.marks[t])
    ensures SyncInv(s')
  {
    hide Settled, Extends, Promise;
    ExtendsQueue(s, s');
    forall u | u in s.h.marks && Settled(s, s.h.marks[u]) ensures Settled(s', s.h.marks[u]) {
      SettledKept(s, s', s.h.marks[u]);
    }
  }

  /** When the acknowledgement is sent, everything enqueued before the call is settled. */
  lemma AckSettles(c: Config, s: State, t: Tid)
    requires SyncInv(s) && OrderInv(s) && BatchAt(c.limits, s.batch, s.tagged, s.run) && Proceed(c, s).1 == Ack(t)
    ensures t in s.h.marks && Settled(s, s.h.marks[t])
  {
    hide Settled, Taken, Shipped, Records, Full, MustCut;
    assert s.run == RFinish(For(t));
    EmptySettles(s, s.h.marks[t]);
  }

  lemma SyncResolve(s: State, outcome: Outcome)
    requires SyncInv(s) && s.run.RExport?
    ensures SyncInv(DoResolve(s, outcome))
  {
    hide Settled, Shipped, Taken;
    ResolvedSnoc(s.h.resolved, Resolved(s.batch, outcome));
    SyncKept(s, DoResolve(s, outcome));
  }

  lemma DoneSettles(c: Config, s: State, n: nat)
    requires OrderInv(s) && FinalInv(s) && BatchAt(c.limits, s.batch, s.tagged, s.run) && s.done && n <= |s.h.enqueued|
    ensures Settled(s, n)
  {
    hide Settled, Taken, Shipped, Records;
    EmptySettles(s, n);
  }

  lemma SyncBegun(c: Config, s: State, t: Tid)
    requires SyncInv(s) && Can(c, s, SyncBegin(t))
    ensures SyncInv(Do(c, s, SyncBegin(t)))
  {
    hide Settled, Closing, DrainOf, Shipped, Taken;
    var s' := Do(c, s, SyncBegin(t));
    forall u | u in s.h.marks && Settled(s, s.h.marks[u]) ensures Settled(s', s.h.marks[u]) {
      SettledKept(s, s', s.h.marks[u]);
    }
  }

  lemma SyncReturned(c: Config, s: State, t: Tid)
    requires SyncInv(s) && OrderInv(s) && FinalInv(s) && BatchAt(c.limits, s.batch, s.tagged, s.run)
    requires t in s.syncs && (t in s.acked || s.done)
    ensures Settled(s, s.h.marks[t])
  {
    hide Settled, BatchAt, OrderInv, FinalInv, Promise;
    if t !in s.acked { DoneSettles(c, s, s.h.marks[t]); }
  }

  lemma SyncStep(c: Config, s: State, e: Step)
    requires SyncInv(s) && OrderInv(s) && FinalInv(s) && BatchAt(c.limits, s.batch, s.tagged, s.run) && Can(c, s, e)
    ensures SyncInv(Do(c, s, e))
  {
    hide SyncInv, OrderInv, BatchAt, Shipped, Taken, DoWrite, DoRun, DoResolve, DoClose;
    PromiseNow(s);
    match e
    case WriteBegin(_, _) => SyncKept(s, Do(c, s, e));
    case WriteStep(t) => SyncWrite(c, s, t);
    case SyncBegin(t) => SyncBegun(c, s, t);
    case SyncLoad(t) => SyncMoved(s, Do(c, s, e), t, if s.closed then SReturned(false) else SOffer);
    case SyncGiveUp(t) => SyncMoved(s, Do(c, s, e), t, SReturned(false));
    case SyncReturn(t) => SyncReturned(c, s, t); SyncMoved(s, Do(c, s, e), t, SReturned(true));
    case Handoff(t) => MarkOf(s, t); SyncMoved(s, Do(c, s, e), t, SWait);
    case CloseStep => SyncKept(s, DoClose(s));
    case RunCancelled => SyncKept(s, Do(c, s, e));
    case RunTick => SyncKept(s, Do(c, s, e));
    case RunTake => SyncKept(s, Do(c, s, e));
    case RunStep => SyncRun(c, s);
    case RunResolve(outcome) => SyncResolve(s, outcome);
  }

  lemma MarkOf(s: State, t: Tid)
    requires SyncInv(s) && t in s.syncs
    ensures t in s.h.marks
  {
  }

  // ---------------------------------------------------------------------------------------
  // Every reachable state, and the theorems about whole runs
  // ---------------------------------------------------------------------------------------

  ghost predicate Inv(c: Config, s: State) {
    LockInv(s) && FinalInv(s) && BoundsInv(c, s) && OrderInv(s) && LedgerInv(s) && SyncInv(s)
  }

  lemma InvInit(c: Config, s: State)
    requires Normalized(c) && Init(s)
    ensures Inv(c, s)
  {
    assert OwedBy(s.writes) == {};
  }

  lemma InvStep(c: Config, s: State, e: Step)
    requires Inv(c, s) && Can(c, s, e)
    ensures Inv(c, Do(c, s, e))
  {
    hide LockInv, OrderInv, LedgerInv, SyncInv, Do, Can, BatchAt;
    LockStep(c, s, e);
    FinalStep(c, s, e);
    BoundsStep(c, s, e);
    OrderStep(c, s, e);
    LedgerStep(c, s, e);
    SyncStep(c, s, e);
  }

  /** The invariant holds in every state of every run. */
  lemma {:induction false} InvReachable(c: Config, tr: seq<State>, i: nat)
    requires Normalized(c) && IsRun(c, tr) && i < |tr|
    ensures Inv(c, tr[i])
  {
    hide Inv, Can, Do, Init;
    if i == 0 {
      InvInit(c, tr[0]);
    } else {
      InvReachable(c, tr, i - 1);
      assert Next(c, tr[i - 1], tr[i]);
      var e :| Can(c, tr[i - 1], e) && tr[i] == Do(c, tr[i - 1], e);
      InvStep(c, tr[i - 1], e);
    }
  }

  /** Once the flush goroutine has stopped nothing enters the queue again. */
  lemma StoppedStep(c: Config, s: State, e: Step)
    requires Inv(c, s) && s.done && Can(c, s, e)
    ensures var s' := Do(c, s, e); s'.done && s'.queue == [] && s'.batch == [] && s'.h.enqueued == s.h.enqueued
  {
    hide Settled, Admissible, SizeFor, Proceed, OwedBy, Records, Taken;
    InvStep(c, s, e);
    if e.WriteStep? { PlanLock(c, s, s.writes[e.t]); }
  }

  /** What the invariant says of a closing writer. */
  lemma ClosedState(c: Config, s: State)
    requires Inv(c, s)
    ensures s.cancelled ==> forall t :: t in s.writes ==> !Admitted(s.writes[t])
    ensures s.done ==> s.queue == [] && s.batch == []
    ensures s.close.CReturned? ==> s.done
  {
    hide OrderInv, LedgerInv, SyncInv, Admitted, Holding;
  }

  /**
    Shutdown safety.  In every interleaving: after the cancel no `Write` is between its
    closed-check and its send; and when `done` is closed, queue and batch are empty, stay empty
    for ever, and no record is enqueued any more.
  */
  lemma {:induction false} ShutdownSafety(c: Config, tr: seq<State>, i: nat, j: nat)
    requires Normalized(c) && IsRun(c, tr) && i <= j < |tr|
    ensures tr[i].cancelled ==> forall t :: t in tr[i].writes ==> !Admitted(tr[i].writes[t])
    ensures tr[i].done ==>
      && tr[j].done && tr[j].queue == [] && tr[j].batch == []
      && tr[j].h.enqueued == tr[i].h.enqueued
    ensures tr[i].close.CReturned? ==> tr[i].done
    decreases j - i
  {
    hide Can, Do, Inv, Admitted;
    InvReachable(c, tr, i);
    ClosedState(c, tr[i]);
    if i < j && tr[i].done {
      ShutdownSafety(c, tr, i, j - 1);
      InvReachable(c, tr, j - 1);
      assert Next(c, tr[j - 1], tr[j]);
      var e :| Can(c, tr[j - 1], e) && tr[j] == Do(c, tr[j - 1], e);
      StoppedStep(c, tr[j - 1], e);
    }
  }

  /**
    Conservation.  In every reachable state each record that reached the queue is in exactly one
    place, in enqueue order: the resolved batches, the current batch and the record in hand are
    what was taken, the rest was evicted or is queued; and the drop counter accounts for every
    loss, up to increments a goroutine is about to make.
  */
  lemma Conservation(c: Config, tr: seq<State>, i: nat)
    requires Normalized(c) && IsRun(c, tr) && i < |tr|
    ensures tr[i].h.enqueued == Records(tr[i].h.removed) + tr[i].queue
    ensures Taken(tr[i].h.removed) == Shipped(tr[i].h.resolved) + tr[i].batch + InHand(tr[i].run)
    ensures tr[i].dropped + |OwedBy(tr[i].writes)| + Owed(tr[i].run)
         == tr[i].h.oversize + tr[i].h.refused + Evictions(tr[i].h.removed)
            + FailedRecords(tr[i].h.resolved) + Rejections(tr[i].h.resolved)
  {
    hide Can, Do, Settled, OwedBy, Records, Taken;
    InvReachable(c, tr, i);
    LostSplit(tr[i].h.resolved);
  }

  /**
    Every batch handed to the transport has 1 to `batchSize` records, and its assembled request is
    `sizeFor(tagged)` bytes long, within `maxBytes`.
  */
  lemma RequestBounds(c: Config, tr: seq<State>, i: nat)
    requires Normalized(c) && IsRun(c, tr) && i < |tr|
    ensures tr[i].run.RExport? ==>
      && 1 <= |tr[i].batch| <= c.limits.batchSize
      && |RequestBytes(c.limits.env, tr[i].batch)| == SizeFor(c.limits.env, tr[i].tagged) <= c.limits.maxBytes
    ensures |tr[i].queue| <= c.queueSize
  {
    hide Can, Do, Settled, OwedBy, Records, Taken, SizeFor, RequestBytes;
    InvReachable(c, tr, i);
    SizeForExact(c.limits.env, tr[i].batch);
  }

  /**
    The Sync barrier.  If a `Sync` handed its request over, then when it returns every record
    enqueued before it was called has left the queue and was evicted or belongs to a batch whose
    export has ended.
  */
  lemma SyncBarrier(c: Config, tr: seq<State>, i: nat, t: Tid, k: nat)
    requires Normalized(c) && IsRun(c, tr) && i < |tr|
    requires t in tr[i].syncs && tr[i].syncs[t] == SReturned(true)
    requires t in tr[i].h.marks && k < tr[i].h.marks[t]
    ensures var h := tr[i].h;
      && k < |h.removed| && k < |h.enqueued| && h.removed[k].rec == h.enqueued[k]
      && (h.removed[k].taken ==>
            var n := |Taken(h.removed[..k])|;
            n < |Shipped(h.resolved)| && Shipped(h.resolved)[n] == h.enqueued[k])
  {
    hide Can, Do, OwedBy, LockInv, FinalInv, BoundsInv, LedgerInv, Shipped, Taken, Records;
    InvReachable(c, tr, i);
    var s := tr[i];
    Assoc(Shipped(s.h.resolved), s.batch, InHand(s.run));
    SettledRecord(s.h.enqueued, s.queue, s.h.removed, s.h.resolved, s.batch + InHand(s.run), s.h.marks[t], k);
  }
}
