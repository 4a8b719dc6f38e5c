/**
  The reconnecting connection of the root writer (writer.go) as a step relation: any number of
  `writeFrame` calls, the reconnect loop, and one `Close`, interleaving freely.  One step is one
  access to shared state.  `mu` is modelled as its writer side; a read under `RLock` is one step
  that needs `mu` free of a writer.  Dialing, writing and the clock may do anything.
*/
module RootConn {
  import opened Wire

  type Tid = nat
  type Cid = nat

  /** `writeFrame` and `handleWriteError`. */
  datatype FramePc =
    | FGet
    | FUse(c: Cid)
    | FErrLock(c: Cid)
    | FErrCompare(c: Cid)
    | FErrSkip                 // another connection is in place: unlock and leave
    | FErrUnlock(c: Cid)       // taken out, to be closed
    | FClose(c: Cid)
    | FTrigger
    | FReturned

  /** `reconnectLoop`, `drainReconnectCh` and `tryConnect`; `a` is the attempt number. */
  datatype LoopPc =
    | LWait
    | LDrainCh
    | LHasConn
    | LTop(a: nat)
    | LDial(a: nat)
    | LLock(a: nat, c: Cid)
    | LCheck(a: nat, c: Cid)
    | LRefuse(a: nat, c: Cid)  // closed meanwhile: unlock, then close the new connection
    | LCloseNew(a: nat, c: Cid)
    | LSwap(a: nat, c: Cid)
    | LUnlock(prior: Option<Cid>)
    | LCloseOld(c: Cid)
    | LConnected
    | LFailed(a: nat)
    | LSleep(a: nat)
    | LExit

  /** `Close`, after winning the compare-and-swap; the wait for the async flush is one step. */
  datatype ClosePc =
    | CIdle | CSwapped | CCancelled | CLock | CTake | CUnlock(taken: Option<Cid>) | CClose(c: Cid) | CReturned

  datatype Who = ByFrame(t: Tid) | ByLoop | ByClose

  /** Where a dialed connection is: installed, in one goroutine's hands, or closed. */
  datatype Place = Installed | Held(w: Who) | Shut

  datatype State = State(
    frames: map<Tid, FramePc>,
    loop: LoopPc,
    close: ClosePc,
    booting: bool,             // New still has to trigger the first reconnect
    conn: Option<Cid>,
    mu: Option<Who>,
    closed: bool,
    done: bool,
    token: bool,               // the one-place channel reconnectCh
    dialed: nat,               // connections are numbered as they are dialed
    // history: nothing in the program reads these
    place: map<Cid, Place>,
    closes: multiset<Cid>,     // every Close call on a connection
    exhausted: bool)           // the last burst used up maxRetries

  /** After `New`: its dial succeeded, or it is about to trigger a reconnect. */
  predicate Init(s: State) {
    s == State(map[], LWait, CIdle, true, None, None, false, false, false, 0, map[], multiset{}, false)
    || s == State(map[], LWait, CIdle, false, Some(0), None, false, false, false, 1, map[0 := Installed], multiset{},
      false)
  }

  // ---------------------------------------------------------------------------------------
  // Steps
  // ---------------------------------------------------------------------------------------

  /** The nondeterministic choices: a write or dial may fail, a timer may lose to `done`. */
  datatype Step =
    | FrameBegin(t: Tid)
    | FrameStep(t: Tid, ok: bool)
    | LoopStep(ok: bool)
    | CloseStep
    | Boot

  /** What a step does to the shared state. */
  datatype Effect =
    | Nothing
    | Lock(w: Who)
    | Unlock
    | TakeOut(w: Who)          // conn = nil, the old value kept by `w`
    | Dialed
    | Install(c: Cid)          // conn = c, the old value kept by the loop
    | CloseConn(c: Cid)
    | SetToken(b: bool)
    | SetClosed
    | SetDone
    | SetExhausted(b: bool)

  function Moved(s: State, c: Option<Cid>, p: Place): map<Cid, Place> {
    if c.Some? then s.place[c.value := p] else s.place
  }

  function Perform(s: State, f: Effect): (r: State)
    ensures r.frames == s.frames && r.loop == s.loop && r.close == s.close && r.booting == s.booting
  {
    match f
    case Nothing => s
    case Lock(w) => s.(mu := Some(w))
    case Unlock => s.(mu := None)
    case TakeOut(w) => s.(conn := None, place := Moved(s, s.conn, Held(w)))
    case Dialed => s.(dialed := s.dialed + 1, place := s.place[s.dialed := Held(ByLoop)])
    case Install(c) => s.(conn := Some(c), place := Moved(s, s.conn, Held(ByLoop))[c := Installed])
    case CloseConn(c) => s.(closes := s.closes + multiset{c}, place := s.place[c := Shut])
    case SetToken(b) => s.(token := b)
    case SetClosed => s.(closed := true)
    case SetDone => s.(done := true)
    case SetExhausted(b) => s.(exhausted := b)
  }

  /** The simple fields after an effect. */
  lemma PerformFlags(s: State, f: Effect)
    ensures var r := Perform(s, f);
      && r.closed == (s.closed || f.SetClosed?)
      && r.done == (s.done || f.SetDone?)
      && r.token == (if f.SetToken? then f.b else s.token)
      && r.exhausted == (if f.SetExhausted? then f.b else s.exhausted)
  {
  }

  lemma PerformConn(s: State, f: Effect)
    ensures var r := Perform(s, f);
      && r.mu == (if f.Lock? then Some(f.w) else if f.Unlock? then None else s.mu)
      && r.conn == (if f.TakeOut? then None else if f.Install? then Some(f.c) else s.conn)
  {
  }

  function FramePlan(s: State, t: Tid, pc: FramePc, ok: bool): (FramePc, Effect) {
    match pc
    case FGet => (if s.conn.Some? then FUse(s.conn.value) else FTrigger, Nothing)
    case FUse(c) => (if ok then FReturned else FErrLock(c), Nothing)
    case FErrLock(c) => (FErrCompare(c), Lock(ByFrame(t)))
    case FErrCompare(c) => if s.conn == Some(c) then (FErrUnlock(c), TakeOut(ByFrame(t))) else (FErrSkip, Nothing)
    case FErrSkip => (FReturned, Unlock)
    case FErrUnlock(c) => (FClose(c), Unlock)
    case FClose(c) => (FTrigger, CloseConn(c))
    case FTrigger => (FReturned, SetToken(true))
    case FReturned => (FReturned, Nothing)
  }

  function LoopPlan(maxRetries: nat, s: State, ok: bool): (LoopPc, Effect) {
    match s.loop
    case LWait => if s.done && (ok || !s.token) then (LExit, Nothing) else (LDrainCh, SetToken(false))
    case LDrainCh => if s.token then (LDrainCh, SetToken(false)) else (LHasConn, Nothing)
    case LHasConn => if s.conn.Some? then (LWait, Nothing) else (LTop(1), SetExhausted(false))
    case LTop(a) => (if s.done then LExit else LDial(a), Nothing)
    case LDial(a) => if ok then (LLock(a, s.dialed), Dialed) else (LFailed(a), Nothing)
    case LLock(a, c) => (LCheck(a, c), Lock(ByLoop))
    case LCheck(a, c) => (if s.closed then LRefuse(a, c) else LSwap(a, c), Nothing)
    case LRefuse(a, c) => (LCloseNew(a, c), Unlock)
    case LCloseNew(a, c) => (LFailed(a), CloseConn(c))
    case LSwap(a, c) => (LUnlock(s.conn), Install(c))
    case LUnlock(prior) => (if prior.Some? then LCloseOld(prior.value) else LConnected, Unlock)
    case LCloseOld(c) => (LConnected, CloseConn(c))
    case LConnected => (LWait, Nothing)
    case LFailed(a) => if a < maxRetries then (LSleep(a), Nothing) else (LWait, SetExhausted(true))
    case LSleep(a) => (if s.done && ok then LExit else LTop(a + 1), Nothing)
    case LExit => (LExit, Nothing)
  }

  function ClosePlan(s: State): (ClosePc, Effect) {
    match s.close
    case CIdle => (CSwapped, SetClosed)
    case CSwapped => (CCancelled, SetDone)
    case CCancelled => (CLock, Nothing)
    case CLock => (CTake, Lock(ByClose))
    case CTake => (CUnlock(s.conn), TakeOut(ByClose))
    case CUnlock(c) => (if c.Some? then CClose(c.value) else CReturned, Unlock)
    case CClose(c) => (CReturned, CloseConn(c))
    case CReturned => (CReturned, Nothing)
  }

  /** A step that needs `mu` waits until it is free. */
  predicate Can(s: State, e: Step) {
    match e
    case FrameBegin(t) => t !in s.frames
    case FrameStep(t, _) =>
      t in s.frames && !s.frames[t].FReturned? && (s.frames[t].FGet? || s.frames[t].FErrLock? ==> s.mu.None?)
    case LoopStep(_) =>
      && !s.loop.LExit?
      && (s.loop.LWait? ==> s.done || s.token)
      && (s.loop.LHasConn? || s.loop.LLock? ==> s.mu.None?)
    case CloseStep => !s.close.CReturned? && (s.close.CLock? ==> s.mu.None?)
    case Boot => s.booting
  }

  function Do(maxRetries: nat, s: State, e: Step): State
    requires Can(s, e)
  {
    match e
    case FrameBegin(t) => s.(frames := s.frames[t := FGet])
    case FrameStep(t, ok) =>
      var (pc, f) := FramePlan(s, t, s.frames[t], ok);
      Perform(s, f).(frames := s.frames[t := pc])
    case LoopStep(ok) =>
      var (pc, f) := LoopPlan(maxRetries, s, ok);
      Perform(s, f).(loop := pc)
    case CloseStep =>
      var (pc, f) := ClosePlan(s);
      Perform(s, f).(close := pc)
    case Boot => s.(booting := false, token := true)
  }

  ghost predicate Next(maxRetries: nat, s: State, s': State) {
    exists e :: Can(s, e) && s' == Do(maxRetries, s, e)
  }

  /** Any interleaving, of any length. */
  ghost predicate IsRun(maxRetries: nat, tr: seq<State>) {
    && |tr| > 0 && Init(tr[0])
    && forall i :: 0 <= i < |tr| - 1 ==> Next(maxRetries, tr[i], tr[i + 1])
  }

  // ---------------------------------------------------------------------------------------
  // Invariants
  // ---------------------------------------------------------------------------------------

  predicate FrameLocks(pc: FramePc) {
    pc.FErrCompare? || pc.FErrSkip? || pc.FErrUnlock?
  }

  predicate LoopLocks(pc: LoopPc) {
    pc.LCheck? || pc.LRefuse? || pc.LSwap? || pc.LUnlock?
  }

  predicate CloseLocks(pc: ClosePc) {
    pc.CTake? || pc.CUnlock?
  }

  function FrameHas(pc: FramePc): Option<Cid> {
    match pc
    case FErrUnlock(c) => Some(c)
    case FClose(c) => Some(c)
    case _ => None
  }

  function LoopHas(pc: LoopPc): Option<Cid> {
    match pc
    case LLock(_, c) => Some(c)
    case LCheck(_, c) => Some(c)
    case LRefuse(_, c) => Some(c)
    case LCloseNew(_, c) => Some(c)
    case LSwap(_, c) => Some(c)
    case LUnlock(prior) => prior
    case LCloseOld(c) => Some(c)
    case _ => None
  }

  function CloseHas(pc: ClosePc): Option<Cid> {
    match pc
    case CUnlock(c) => c
    case CClose(c) => Some(c)
    case _ => None
  }

  function Has(s: State, w: Who): Option<Cid> {
    match w
    case ByFrame(t) => if t in s.frames then FrameHas(s.frames[t]) else None
    case ByLoop => LoopHas(s.loop)
    case ByClose => CloseHas(s.close)
  }

  predicate Locks(s: State, w: Who) {
    match w
    case ByFrame(t) => t in s.frames && FrameLocks(s.frames[t])
    case ByLoop => LoopLocks(s.loop)
    case ByClose => CloseLocks(s.close)
  }

  /** `mu` is held exactly by the goroutine inside its critical section. */
  ghost predicate LockInv(s: State) {
    forall w :: s.mu == Some(w) <==> Locks(s, w)
  }

  /** `Close` has left its critical section's assignment behind. */
  predicate PastTake(pc: ClosePc) {
    pc.CUnlock? || pc.CClose? || pc.CReturned?
  }

  /** Once `Close` has taken the connection out, none is installed and the loop cannot install one. */
  predicate CloseInv(s: State) {
    && (s.closed <==> !s.close.CIdle?)
    && (s.done ==> s.closed)
    && (s.loop.LRefuse? || s.loop.LCloseNew? || s.loop.LExit? ==> s.closed)
    && (PastTake(s.close) ==> s.conn.None? && !s.loop.LSwap?)
  }

  predicate At(s: State, c: Cid, p: Place) {
    c in s.place && s.place[c] == p
  }

  /** The place of every dialed connection is where the program really has it. */
  ghost predicate OwnInv(s: State) {
    && (forall c: Cid :: c in s.place <==> c < s.dialed)
    && (forall c: Cid :: s.conn == Some(c) <==> At(s, c, Installed))
    && (forall w, c: Cid :: Has(s, w) == Some(c) <==> At(s, c, Held(w)))
    && (forall c: Cid :: s.closes[c] == if At(s, c, Shut) then 1 else 0)
  }

  predicate AboutToTrigger(pc: FramePc) {
    pc.FErrUnlock? || pc.FClose? || pc.FTrigger?
  }

  /** The loop will still look whether there is a connection, or is trying to get one. */
  predicate Looking(pc: LoopPc) {
    || pc.LDrainCh? || pc.LHasConn? || pc.LTop? || pc.LDial? || pc.LLock? || pc.LCheck?
    || pc.LRefuse? || pc.LCloseNew? || pc.LSwap? || pc.LFailed? || pc.LSleep?
  }

  /** From the first dial of a burst until its connection is installed or the burst is given up. */
  predicate Bursting(pc: LoopPc) {
    || pc.LTop? || pc.LDial? || pc.LLock? || pc.LCheck?
    || pc.LRefuse? || pc.LCloseNew? || pc.LSwap? || pc.LFailed? || pc.LSleep?
  }

  predicate Triggering(s: State, t: Tid) {
    t in s.frames && AboutToTrigger(s.frames[t])
  }

  /** Something will make the loop look again. */
  ghost predicate Stirring(s: State) {
    s.token || s.booting || Looking(s.loop) || exists t :: Triggering(s, t)
  }

  /** No lost wake-up. */
  ghost predicate WakeInv(s: State) {
    && (!s.closed && s.conn.None? ==> Stirring(s) || s.exhausted)
    && (s.exhausted ==> s.conn.None? && (s.loop.LWait? || s.loop.LDrainCh? || s.loop.LHasConn? || s.loop.LExit?))
    && (Bursting(s.loop) ==> s.conn.None?)
  }

  ghost predicate Inv(s: State) {
    LockInv(s) && CloseInv(s) && OwnInv(s) && WakeInv(s)
  }

  lemma InvInit(s: State)
    requires Init(s)
    ensures Inv(s)
  {
  }

  // ---------------------------------------------------------------------------------------
  // What each goroutine does to the lock and to the connections in its hands
  // ---------------------------------------------------------------------------------------

  /** The effect on `mu` agrees with how the goroutine's own need for it changed. */
  predicate LockFits(f: Effect, w: Who, before: bool, after: bool) {
    match f
    case Lock(v) => v == w && !before && after
    case Unlock => before && !after
    case _ => after == before
  }

  /** The effect on the connections agrees with what the goroutine held and holds. */
  predicate HandsFit(s: State, f: Effect, w: Who, before: Option<Cid>, after: Option<Cid>) {
    match f
    case TakeOut(v) => v == w && before.None? && after == s.conn
    case Dialed => w == ByLoop && before.None? && after == Some(s.dialed)
    case Install(c) => w == ByLoop && before == Some(c) && after == s.conn
    case CloseConn(c) => before == Some(c) && after.None?
    case _ => after == before
  }

  lemma FrameTable(s: State, t: Tid, pc: FramePc, ok: bool)
    ensures var (pc', f) := FramePlan(s, t, pc, ok);
      && LockFits(f, ByFrame(t), FrameLocks(pc), FrameLocks(pc'))
      && HandsFit(s, f, ByFrame(t), FrameHas(pc), FrameHas(pc'))
      && (f.Lock? ==> pc.FErrLock?)
      && !f.SetClosed? && !f.SetDone? && !f.SetExhausted? && (f.SetToken? ==> f.b)
      && (AboutToTrigger(pc) ==> AboutToTrigger(pc') || f == SetToken(true))
      && (f.TakeOut? ==> AboutToTrigger(pc'))
  {
  }

  lemma LoopTable(n: nat, s: State, ok: bool)
    ensures var (pc', f) := LoopPlan(n, s, ok);
      && LockFits(f, ByLoop, LoopLocks(s.loop), LoopLocks(pc'))
      && HandsFit(s, f, ByLoop, LoopHas(s.loop), LoopHas(pc'))
      && (f.Lock? ==> s.loop.LLock?)
      && !f.SetClosed? && !f.SetDone? && !f.TakeOut?
  {
  }

  lemma CloseTable(s: State)
    ensures var (pc', f) := ClosePlan(s);
      && LockFits(f, ByClose, CloseLocks(s.close), CloseLocks(pc'))
      && HandsFit(s, f, ByClose, CloseHas(s.close), CloseHas(pc'))
      && (f.Lock? ==> s.close.CLock?)
      && (f.TakeOut? ==> s.close.CTake?)
      && !f.SetToken? && !f.SetExhausted? && !f.Install?
  {
  }

  /** One step as seen by the invariants: goroutine `w` moved, with effect `f`. */
  ghost predicate Moves(s: State, s': State, w: Who, f: Effect) {
    && (forall v :: v != w ==> (Locks(s', v) <==> Locks(s, v)) && Has(s', v) == Has(s, v))
    && LockFits(f, w, Locks(s, w), Locks(s', w))
    && HandsFit(s, f, w, Has(s, w), Has(s', w))
    && (f.Lock? ==> s.mu.None?)
    && var r := Perform(s, f);
       s'.mu == r.mu && s'.conn == r.conn && s'.place == r.place && s'.dialed == r.dialed && s'.closes == r.closes
  }

  lemma FrameMoves(n: nat, s: State, t: Tid, ok: bool)
    requires Can(s, FrameStep(t, ok))
    ensures Moves(s, Do(n, s, FrameStep(t, ok)), ByFrame(t), FramePlan(s, t, s.frames[t], ok).1)
  {
    hide FramePlan, Perform, FrameLocks, FrameHas, LoopLocks, LoopHas, CloseLocks, CloseHas, LockFits, HandsFit;
    FrameTable(s, t, s.frames[t], ok);
  }

  lemma LoopMoves(n: nat, s: State, ok: bool)
    requires Can(s, LoopStep(ok))
    ensures Moves(s, Do(n, s, LoopStep(ok)), ByLoop, LoopPlan(n, s, ok).1)
  {
    hide LoopPlan, Perform, FrameLocks, FrameHas, LoopLocks, LoopHas, CloseLocks, CloseHas, LockFits, HandsFit;
    LoopTable(n, s, ok);
  }

  lemma CloseMoves(n: nat, s: State)
    requires Can(s, CloseStep)
    ensures Moves(s, Do(n, s, CloseStep), ByClose, ClosePlan(s).1)
  {
    hide ClosePlan, Perform, FrameLocks, FrameHas, LoopLocks, LoopHas, CloseLocks, CloseHas, LockFits, HandsFit;
    CloseTable(s);
  }

  lemma BeginMoves(n: nat, s: State, t: Tid)
    requires Can(s, FrameBegin(t))
    ensures Moves(s, Do(n, s, FrameBegin(t)), ByFrame(t), Nothing)
  {
    hide LoopLocks, LoopHas, CloseLocks, CloseHas;
  }

  lemma LockStep(s: State, s': State, w: Who, f: Effect)
    requires LockInv(s) && Moves(s, s', w, f)
    ensures LockInv(s')
  {
  }

  /** Connections change hands, are installed and are closed without ever being in two places. */
  lemma OwnStep(s: State, s': State, w: Who, f: Effect)
    requires OwnInv(s) && Moves(s, s', w, f)
    ensures OwnInv(s')
  {
    hide Locks, Has;
    match f
    case TakeOut(_) => TakeOutOwn(s, s', w, f);
    case Dialed => DialedOwn(s, s', w, f);
    case Install(_) => InstallOwn(s, s', w, f);
    case CloseConn(_) => CloseOwn(s, s', w, f);
    case _ => QuietOwn(s, s', w, f);
  }

  lemma QuietOwn(s: State, s': State, w: Who, f: Effect)
    requires OwnInv(s) && Moves(s, s', w, f) && !f.TakeOut? && !f.Dialed? && !f.Install? && !f.CloseConn?
    ensures OwnInv(s')
  {
    hide Locks, Has;
    forall c: Cid, p: Place ensures At(s', c, p) == At(s, c, p) {}
  }

  lemma TakeOutOwn(s: State, s': State, w: Who, f: Effect)
    requires OwnInv(s) && Moves(s, s', w, f) && f.TakeOut?
    ensures OwnInv(s')
  {
    hide Locks, Has;
    if s.conn.Some? {
      assert At(s, s.conn.value, Installed);
      forall c: Cid, p: Place ensures At(s', c, p) == if c == s.conn.value then p == Held(w) else At(s, c, p) {}
    } else {
      forall c: Cid, p: Place ensures At(s', c, p) == At(s, c, p) {}
    }
  }

  lemma DialedOwn(s: State, s': State, w: Who, f: Effect)
    requires OwnInv(s) && Moves(s, s', w, f) && f.Dialed?
    ensures OwnInv(s')
  {
    hide Locks, Has;
    assert s.dialed !in s.place;
    forall c: Cid, p: Place ensures At(s', c, p) == if c == s.dialed then p == Held(w) else At(s, c, p) {}
  }

  lemma InstallOwn(s: State, s': State, w: Who, f: Effect)
    requires OwnInv(s) && Moves(s, s', w, f) && f.Install?
    ensures OwnInv(s')
  {
    hide Locks, Has;
    assert At(s, f.c, Held(w));
    if s.conn.Some? { assert At(s, s.conn.value, Installed); }
    forall c: Cid, p: Place ensures At(s', c, p)
      == if c == f.c then p == Installed else if s.conn == Some(c) then p == Held(w) else At(s, c, p) {}
  }

  lemma CloseOwn(s: State, s': State, w: Who, f: Effect)
    requires OwnInv(s) && Moves(s, s', w, f) && f.CloseConn?
    ensures OwnInv(s')
  {
    hide Locks, Has;
    assert At(s, f.c, Held(w));
    forall c: Cid, p: Place ensures At(s', c, p) == if c == f.c then p == Shut else At(s, c, p) {}
  }

  lemma BootKeeps(n: nat, s: State)
    requires Can(s, Boot)
    ensures var s' := Do(n, s, Boot);
      (LockInv(s) ==> LockInv(s')) && (OwnInv(s) ==> OwnInv(s')) && (CloseInv(s) ==> CloseInv(s'))
  {
    var s' := Do(n, s, Boot);
    forall w ensures Locks(s', w) == Locks(s, w) && Has(s', w) == Has(s, w) {}
    forall c: Cid, p: Place ensures At(s', c, p) == At(s, c, p) {}
  }

  lemma LockOwnNext(n: nat, s: State, e: Step)
    requires LockInv(s) && OwnInv(s) && Can(s, e)
    ensures LockInv(Do(n, s, e)) && OwnInv(Do(n, s, e))
  {
    hide LockInv, OwnInv, FramePlan, LoopPlan, ClosePlan, Moves;
    var s' := Do(n, s, e);
    match e
    case FrameBegin(t) =>
      BeginMoves(n, s, t);
      LockStep(s, s', ByFrame(t), Nothing);
      OwnStep(s, s', ByFrame(t), Nothing);
    case FrameStep(t, ok) =>
      var f := FramePlan(s, t, s.frames[t], ok).1;
      FrameMoves(n, s, t, ok); LockStep(s, s', ByFrame(t), f); OwnStep(s, s', ByFrame(t), f);
    case LoopStep(ok) =>
      var f := LoopPlan(n, s, ok).1;
      LoopMoves(n, s, ok); LockStep(s, s', ByLoop, f); OwnStep(s, s', ByLoop, f);
    case CloseStep =>
      var f := ClosePlan(s).1;
      CloseMoves(n, s); LockStep(s, s', ByClose, f); OwnStep(s, s', ByClose, f);
    case Boot => BootKeeps(n, s);
  }

  // ---------------------------------------------------------------------------------------
  // Closing and waking up
  // ---------------------------------------------------------------------------------------

  lemma LoopCloseTable(n: nat, s: State, ok: bool)
    requires CloseInv(s)
    ensures var (pc', f) := LoopPlan(n, s, ok);
      && (pc'.LRefuse? || pc'.LCloseNew? || pc'.LExit? ==> s.closed)
      && (pc'.LSwap? ==> !s.closed)
      && (f.Install? <==> s.loop.LSwap?)
  {
    hide Perform;
  }

  lemma CloseNext(n: nat, s: State, e: Step)
    requires LockInv(s) && CloseInv(s) && Can(s, e)
    ensures CloseInv(Do(n, s, e))
  {
    hide FramePlan, LoopPlan, ClosePlan, LockInv, Perform, HandsFit, LockFits, AboutToTrigger;
    match e
    case FrameBegin(_) =>
    case FrameStep(t, ok) =>
      FrameTable(s, t, s.frames[t], ok);
      PerformFlags(s, FramePlan(s, t, s.frames[t], ok).1);
      PerformConn(s, FramePlan(s, t, s.frames[t], ok).1);
    case LoopStep(ok) =>
      LoopTable(n, s, ok);
      LoopCloseTable(n, s, ok);
      PerformFlags(s, LoopPlan(n, s, ok).1);
      PerformConn(s, LoopPlan(n, s, ok).1);
    case CloseStep => ClosesClose(n, s);
    case Boot =>
  }

  /** `Close` enters its critical section only when the loop is not inside its own. */
  lemma ClosesClose(n: nat, s: State)
    requires LockInv(s) && CloseInv(s) && Can(s, CloseStep)
    ensures CloseInv(Do(n, s, CloseStep))
  {
    assert s.mu == Some(ByLoop) <==> Locks(s, ByLoop);
    assert s.mu == Some(ByClose) <==> Locks(s, ByClose);
  }

  lemma StillTriggering(n: nat, s: State, t: Tid, ok: bool, u: Tid)
    requires Can(s, FrameStep(t, ok)) && Triggering(s, u)
    ensures var s' := Do(n, s, FrameStep(t, ok)); Triggering(s', u) || s'.token
  {
  }

  lemma NoInstall(s: State, t: Tid, pc: FramePc, ok: bool)
    ensures !FramePlan(s, t, pc, ok).1.Install?
  {
  }

  lemma FramesWake(n: nat, s: State, t: Tid, ok: bool)
    requires OwnInv(s) && WakeInv(s) && Can(s, FrameStep(t, ok))
    ensures WakeInv(Do(n, s, FrameStep(t, ok)))
  {
    hide FramePlan, OwnInv, Looking, AboutToTrigger, Bursting, Perform, LockFits, HandsFit;
    var s' := Do(n, s, FrameStep(t, ok));
    FrameTable(s, t, s.frames[t], ok);
    var (pc', f) := FramePlan(s, t, s.frames[t], ok);
    PerformFlags(s, f);
    PerformConn(s, f);
    NoInstall(s, t, s.frames[t], ok);
    if !s.closed && s'.conn.None? {
      if f.TakeOut? {
        assert Triggering(s', t);
      } else if !s.token && exists u :: Triggering(s, u) {
        var u :| Triggering(s, u);
        StillTriggering(n, s, t, ok, u);
      }
    }
  }

  lemma LoopWakeTable(n: nat, s: State, ok: bool)
    requires s.loop.LWait? ==> s.done || s.token
    ensures var (pc', f) := LoopPlan(n, s, ok);
      && ((s.done ==> s.closed) && !s.closed && Looking(s.loop) && !Looking(pc')
          ==> f == SetExhausted(true) || f.Install? || (s.loop.LHasConn? && s.conn.Some?))
      && (f == SetToken(false) ==> Looking(pc') || pc'.LExit?)
      && (f == SetExhausted(false) ==> Looking(pc'))
      && (pc'.LExit? ==> s.loop.LExit? || s.done)
      && (f.SetToken? ==> !f.b)
      && (f.SetExhausted? && f.b ==> pc'.LWait? && s.loop.LFailed?)
      && (s.loop.LWait? ==> pc'.LExit? || pc'.LDrainCh?)
      && (s.loop.LDrainCh? ==> pc'.LDrainCh? || pc'.LHasConn?)
      && (s.loop.LHasConn? ==> pc'.LWait? || f == SetExhausted(false))
      && (s.loop.LHasConn? && pc'.LWait? ==> s.conn.Some?)
      && (f.Install? ==> s.loop.LSwap?)
      && (s.loop.LExit? ==> pc'.LExit? && f.Nothing?)
      && (Bursting(pc') ==> Bursting(s.loop) || (s.loop.LHasConn? && s.conn.None?))
      && (f.Install? ==> !Bursting(pc'))
  {
  }

  lemma LoopsWake(n: nat, s: State, ok: bool)
    requires CloseInv(s) && WakeInv(s) && Can(s, LoopStep(ok))
    ensures WakeInv(Do(n, s, LoopStep(ok)))
  {
    hide LoopPlan, AboutToTrigger, Looking, LockFits, Perform, Bursting, HandsFit;
    var s' := Do(n, s, LoopStep(ok));
    PerformFlags(s, LoopPlan(n, s, ok).1); PerformConn(s, LoopPlan(n, s, ok).1);
    BurstParts();
    LoopWakeTable(n, s, ok);
    LoopTable(n, s, ok);
    if exists u :: Triggering(s, u) {
      var u :| Triggering(s, u);
      assert Triggering(s', u);
    }
  }

  lemma BurstParts()
    ensures forall pc: LoopPc :: pc.LWait? || pc.LDrainCh? || pc.LHasConn? || pc.LExit? ==> !Bursting(pc)
    ensures forall pc: LoopPc :: pc.LFailed? || pc.LSwap? ==> Bursting(pc)
  {
  }

  lemma ClosesWake(n: nat, s: State)
    requires CloseInv(s) && WakeInv(s) && Can(s, CloseStep)
    ensures WakeInv(Do(n, s, CloseStep))
  {
    hide Looking, AboutToTrigger, Bursting, Perform, ClosePlan, HandsFit, LockFits;
    var s' := Do(n, s, CloseStep);
    CloseTable(s);
    PerformFlags(s, ClosePlan(s).1); PerformConn(s, ClosePlan(s).1);
    if exists u :: Triggering(s, u) {
      var u :| Triggering(s, u);
      assert Triggering(s', u);
    }
  }

  lemma WakeNext(n: nat, s: State, e: Step)
    requires Inv(s) && Can(s, e)
    ensures WakeInv(Do(n, s, e))
  {
    hide LockInv, OwnInv, CloseInv, FramePlan, LoopPlan, ClosePlan, Looking, AboutToTrigger, Bursting;
    match e
    case FrameBegin(t) =>
      if exists u :: Triggering(s, u) {
        var u :| Triggering(s, u);
        assert Triggering(Do(n, s, e), u);
      }
    case FrameStep(t, ok) => FramesWake(n, s, t, ok);
    case LoopStep(ok) => LoopsWake(n, s, ok);
    case CloseStep => ClosesWake(n, s);
    case Boot =>
  }

  lemma InvNext(n: nat, s: State, s': State)
    requires Inv(s) && Next(n, s, s')
    ensures Inv(s')
  {
    hide LockInv, OwnInv, CloseInv, WakeInv, Do, Can;
    var e :| Can(s, e) && s' == Do(n, s, e);
    LockOwnNext(n, s, e);
    CloseNext(n, s, e);
    WakeNext(n, s, e);
  }

  lemma {:induction false} InvReachable(n: nat, tr: seq<State>, i: nat)
    requires IsRun(n, tr) && i < |tr|
    ensures Inv(tr[i])
  {
    hide Inv, Init, Next;
    if i == 0 {
      InvInit(tr[0]);
    } else {
      InvReachable(n, tr, i - 1);
      InvNext(n, tr[i - 1], tr[i]);
    }
  }

  // ---------------------------------------------------------------------------------------
  // Theorems
  // ---------------------------------------------------------------------------------------

  /**
    Connection ownership: in every reachable state every dialed connection is either installed, or
    in the hands of exactly one goroutine, or closed; and it has been closed at most once.
  */
  lemma ConnectionOwnership(n: nat, tr: seq<State>, i: nat, c: Cid)
    requires IsRun(n, tr) && i < |tr| && c < tr[i].dialed
    ensures var s := tr[i];
      && s.closes[c] <= 1
      && (s.conn == Some(c) || (exists w :: Has(s, w) == Some(c)) || s.closes[c] == 1)
      && !(s.conn == Some(c) && s.closes[c] == 1)
      && (forall w :: Has(s, w) == Some(c) ==> s.conn != Some(c) && s.closes[c] == 0)
      && (forall w, v :: Has(s, w) == Some(c) && Has(s, v) == Some(c) ==> w == v)
  {
    hide IsRun, Has, LockInv, WakeInv, CloseInv;
    InvReachable(n, tr, i);
    var s := tr[i];
    assert c in s.place;
    match s.place[c]
    case Installed => assert At(s, c, Installed);
    case Held(w) => assert At(s, c, Held(w));
    case Shut => assert At(s, c, Shut);
  }

  /** Nobody closes a connection that was never dialed. */
  lemma OnlyDialedClosed(n: nat, tr: seq<State>, i: nat, c: Cid)
    requires IsRun(n, tr) && i < |tr| && c >= tr[i].dialed
    ensures tr[i].closes[c] == 0 && tr[i].conn != Some(c)
  {
    hide IsRun, Has, LockInv, WakeInv, CloseInv;
    InvReachable(n, tr, i);
    assert !At(tr[i], c, Shut) && !At(tr[i], c, Installed);
  }

  lemma TakenStays(n: nat, s: State, s': State)
    requires Next(n, s, s') && PastTake(s.close)
    ensures PastTake(s'.close)
  {
    hide FramePlan, LoopPlan, Perform;
  }

  lemma {:induction false} PastTakeForever(n: nat, tr: seq<State>, i: nat, j: nat)
    requires IsRun(n, tr) && i <= j < |tr| && PastTake(tr[i].close)
    ensures PastTake(tr[j].close)
    decreases j
  {
    hide Next, PastTake, Init;
    if i < j {
      PastTakeForever(n, tr, i, j - 1);
      TakenStays(n, tr[j - 1], tr[j]);
    }
  }

  /** After the critical section of `Close` no connection is ever installed again. */
  lemma NothingInstalledAfterClose(n: nat, tr: seq<State>, i: nat, j: nat)
    requires IsRun(n, tr) && i <= j < |tr| && PastTake(tr[i].close)
    ensures tr[j].conn == None
  {
    hide IsRun, LockInv, OwnInv, WakeInv;
    PastTakeForever(n, tr, i, j);
    InvReachable(n, tr, j);
  }

  /** Once `Close`, the loop and every write have returned, each dialed connection was closed exactly once. */
  lemma NoLeak(n: nat, tr: seq<State>, i: nat, c: Cid)
    requires IsRun(n, tr) && i < |tr| && c < tr[i].dialed
    requires tr[i].close.CReturned? && tr[i].loop.LExit? && forall t :: t in tr[i].frames ==> tr[i].frames[t].FReturned?
    ensures tr[i].closes[c] == 1
  {
    hide IsRun, LockInv, WakeInv;
    var s := tr[i];
    NothingInstalledAfterClose(n, tr, i, i);
    ConnectionOwnership(n, tr, i, c);
    forall w ensures Has(s, w) == None {}
  }

  /** The invariant behind the wake-up theorem of `ConnCalls`, which reads `exhausted` off the run. */
  lemma StirringOrExhausted(n: nat, tr: seq<State>, i: nat)
    requires IsRun(n, tr) && i < |tr| && !tr[i].closed && tr[i].conn == None
    ensures Stirring(tr[i]) || tr[i].exhausted
  {
    hide IsRun, LockInv, OwnInv, CloseInv, Stirring;
    InvReachable(n, tr, i);
  }

  /** `tryConnect` never displaces a live connection: a burst only runs while there is none. */
  lemma NeverDisplaces(n: nat, tr: seq<State>, i: nat)
    requires IsRun(n, tr) && i < |tr| && tr[i].loop.LSwap?
    ensures tr[i].conn == None
  {
    hide IsRun, LockInv, OwnInv, CloseInv, Stirring;
    InvReachable(n, tr, i);
  }
}
