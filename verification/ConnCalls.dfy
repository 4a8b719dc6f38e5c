/**
  The reconnect bursts of the root writer, counted from the program counters of a run, and what its
  connection operations do when nobody interrupts them (writer.go).
*/
module ConnCalls {
  import opened Wire
  import opened RootConn

  // ---------------------------------------------------------------------------------------
  // Counting attempts
  // ---------------------------------------------------------------------------------------

  /** A burst begins: the loop found no connection. */
  predicate Begins(s: State, s': State) {
    s.loop.LHasConn? && s'.loop.LTop?
  }

  /** An attempt fails: the dial did, or the writer closed meanwhile and the new connection was closed. */
  predicate Fails(s: State, s': State) {
    (s.loop.LDial? || s.loop.LCloseNew?) && s'.loop.LFailed?
  }

  /** The attempts that have failed since the last burst began. */
  function Tries(tr: seq<State>, i: nat): nat
    requires i < |tr|
  {
    if i == 0 || Begins(tr[i - 1], tr[i]) then 0
    else Tries(tr, i - 1) + if Fails(tr[i - 1], tr[i]) then 1 else 0
  }

  /** The number of the attempt the loop is at, and how many have failed before. */
  function AttemptOf(pc: LoopPc): Option<(nat, nat)> {
    match pc
    case LTop(a) => Some((a, 1))
    case LDial(a) => Some((a, 1))
    case LLock(a, _) => Some((a, 1))
    case LCheck(a, _) => Some((a, 1))
    case LRefuse(a, _) => Some((a, 1))
    case LCloseNew(a, _) => Some((a, 1))
    case LSwap(a, _) => Some((a, 1))
    case LFailed(a) => Some((a, 0))
    case LSleep(a) => Some((a, 0))
    case _ => None
  }

  /** The attempt number is the number of failures, or one more while an attempt is under way. */
  predicate Numbered(n: nat, pc: LoopPc, tries: nat) {
    match AttemptOf(pc)
    case Some((a, ahead)) => 1 <= a <= n && a == tries + ahead && (pc.LSleep? ==> a < n)
    case None => true
  }

  lemma LoopNumbers(n: nat, s: State, ok: bool, tries: nat)
    requires n >= 1 && Numbered(n, s.loop, tries)
    ensures var pc := LoopPlan(n, s, ok).0;
      && Numbered(n, pc, if s.loop.LHasConn? && pc.LTop? then 0
                         else tries + if (s.loop.LDial? || s.loop.LCloseNew?) && pc.LFailed? then 1 else 0)
      && (LoopPlan(n, s, ok).1 == SetExhausted(true) ==> s.loop.LFailed? && pc.LWait? && tries == n)
      && (Bursting(s.loop) && !Bursting(pc) ==>
            (pc.LExit? && s.done)
            || (s.loop.LSwap? && LoopPlan(n, s, ok).1 == Install(s.loop.c))
            || (pc.LWait? && tries == n))
  {
  }

  lemma LoopStays(n: nat, s: State, e: Step)
    requires Can(s, e) && !e.LoopStep?
    ensures Do(n, s, e).loop == s.loop && Do(n, s, e).exhausted == s.exhausted
  {
    hide FramePlan, ClosePlan, Perform;
    if e.FrameStep? {
      FrameTable(s, e.t, s.frames[e.t], e.ok);
      PerformFlags(s, FramePlan(s, e.t, s.frames[e.t], e.ok).1);
    } else if e.CloseStep? {
      CloseTable(s);
      PerformFlags(s, ClosePlan(s).1);
    }
  }

  lemma LoopExhausts(n: nat, s: State, ok: bool)
    requires Can(s, LoopStep(ok))
    ensures var (pc, f) := LoopPlan(n, s, ok); var s' := Do(n, s, LoopStep(ok));
      s'.loop == pc && s'.exhausted == if f.SetExhausted? then f.b else s.exhausted
  {
    hide LoopPlan, Perform;
    PerformFlags(s, LoopPlan(n, s, ok).1);
  }

  lemma {:induction false} NumberedReachable(n: nat, tr: seq<State>, i: nat)
    requires n >= 1 && IsRun(n, tr) && i < |tr|
    ensures Numbered(n, tr[i].loop, Tries(tr, i))
  {
    hide Can, Do, Numbered, LoopPlan;
    if i == 0 {
      NotTrying(n, tr[0]);
    } else {
      NumberedReachable(n, tr, i - 1);
      assert Next(n, tr[i - 1], tr[i]);
      var e :| Can(tr[i - 1], e) && tr[i] == Do(n, tr[i - 1], e);
      if e.LoopStep? {
        LoopNumbers(n, tr[i - 1], e.ok, Tries(tr, i - 1));
        LoopExhausts(n, tr[i - 1], e.ok);
      } else {
        LoopStays(n, tr[i - 1], e);
      }
    }
  }

  lemma NotTrying(n: nat, s: State)
    requires Init(s)
    ensures Numbered(n, s.loop, 0)
  {
  }

  /** The loop waits, or is about to look. */
  predicate Idle(pc: LoopPc) {
    pc.LWait? || pc.LDrainCh? || pc.LHasConn? || pc.LExit?
  }

  /**
    At step `k` the last burst was given up after exactly `n` failed attempts, and since then the loop
    has not started another and no connection has been installed.
  */
  predicate GaveUp(n: nat, tr: seq<State>, k: nat, i: nat)
    requires k < i < |tr|
  {
    && tr[k].loop.LFailed? && Tries(tr, k) == n
    && forall j :: k < j <= i ==> Idle(tr[j].loop) && tr[j].conn.None?
  }

  lemma {:induction false} ExhaustedMeans(n: nat, tr: seq<State>, i: nat) returns (k: nat)
    requires n >= 1 && IsRun(n, tr) && i < |tr| && tr[i].exhausted
    ensures k < i && GaveUp(n, tr, k, i)
  {
    hide Can, Do, Numbered, LoopPlan, LockInv, OwnInv, CloseInv;
    if i == 0 {
      assert false;
    } else {
      InvReachable(n, tr, i);
      NumberedReachable(n, tr, i - 1);
      assert Next(n, tr[i - 1], tr[i]);
      var e :| Can(tr[i - 1], e) && tr[i] == Do(n, tr[i - 1], e);
      if tr[i - 1].exhausted {
        k := ExhaustedMeans(n, tr, i - 1);
      } else {
        if e.LoopStep? {
          LoopNumbers(n, tr[i - 1], e.ok, Tries(tr, i - 1));
          LoopExhausts(n, tr[i - 1], e.ok);
        } else {
          LoopStays(n, tr[i - 1], e);
        }
        k := i - 1;
      }
    }
  }

  /**
    No lost wake-up: while the writer is open and has no connection, a token is pending, or a trigger
    is about to be sent, or the loop has yet to look or is inside a burst, or else the last burst made
    exactly `maxRetries` attempts, all of which failed.
  */
  lemma NoLostWakeUp(n: nat, tr: seq<State>, i: nat)
    requires n >= 1 && IsRun(n, tr) && i < |tr| && !tr[i].closed && tr[i].conn == None
    ensures Stirring(tr[i]) || exists k :: 0 <= k < i && GaveUp(n, tr, k, i)
  {
    hide IsRun, Stirring, GaveUp;
    StirringOrExhausted(n, tr, i);
    if tr[i].exhausted {
      var k := ExhaustedMeans(n, tr, i);
    }
  }

  /** A burst ends because the writer is done, or with its connection installed, or after `maxRetries` failures. */
  lemma BurstEnds(n: nat, tr: seq<State>, i: nat)
    requires n >= 1 && IsRun(n, tr) && i + 1 < |tr| && Bursting(tr[i].loop) && !Bursting(tr[i + 1].loop)
    ensures
      || (tr[i + 1].loop.LExit? && tr[i].done)
      || (tr[i].loop.LSwap? && tr[i + 1].conn == Some(tr[i].loop.c))
      || (tr[i + 1].loop.LWait? && Tries(tr, i) == n)
  {
    hide Can, Do, Numbered, LoopPlan, Bursting;
    NumberedReachable(n, tr, i);
    assert Next(n, tr[i], tr[i + 1]);
    var e :| Can(tr[i], e) && tr[i + 1] == Do(n, tr[i], e);
    if e.LoopStep? {
      LoopNumbers(n, tr[i], e.ok, Tries(tr, i));
      LoopExhausts(n, tr[i], e.ok);
      LoopConn(n, tr[i], e.ok);
    } else {
      LoopStays(n, tr[i], e);
    }
  }

  lemma LoopConn(n: nat, s: State, ok: bool)
    requires Can(s, LoopStep(ok))
    ensures var f := LoopPlan(n, s, ok).1; f.Install? ==> Do(n, s, LoopStep(ok)).conn == Some(f.c)
  {
    hide LoopPlan, Perform;
    PerformConn(s, LoopPlan(n, s, ok).1);
  }

  // ---------------------------------------------------------------------------------------
  // Operations that nobody interrupts
  // ---------------------------------------------------------------------------------------

  /** Up to `k` steps of one `writeFrame` call whose write succeeds or fails as `ok` says. */
  function FrameAlone(n: nat, s: State, t: Tid, ok: bool, k: nat): State
    decreases k
  {
    if k == 0 || !Can(s, FrameStep(t, ok)) then s else FrameAlone(n, Do(n, s, FrameStep(t, ok)), t, ok, k - 1)
  }

  lemma FrameAloneStep(n: nat, s: State, t: Tid, ok: bool, k: nat)
    requires k > 0 && Can(s, FrameStep(t, ok))
    ensures FrameAlone(n, s, t, ok, k) == FrameAlone(n, Do(n, s, FrameStep(t, ok)), t, ok, k - 1)
  {
    hide FramePlan, Perform;
  }

  lemma FrameAloneDone(n: nat, s: State, t: Tid, ok: bool, k: nat)
    requires t in s.frames && s.frames[t].FReturned?
    ensures FrameAlone(n, s, t, ok, k) == s
  {
  }

  /** With no connection a write asks for one, and that is all. */
  lemma NoConnTriggers(n: nat, s: State, t: Tid, ok: bool)
    requires t in s.frames && s.frames[t].FGet? && s.mu.None? && s.conn.None?
    ensures FrameAlone(n, s, t, ok, 8) == s.(token := true, frames := s.frames[t := FReturned])
  {
    hide FrameAlone;
    var m := Do(n, s, FrameStep(t, ok));
    FrameAloneStep(n, s, t, ok, 8);
    FrameAloneStep(n, m, t, ok, 7);
    FrameAloneDone(n, Do(n, m, FrameStep(t, ok)), t, ok, 6);
    assert s.frames[t := FTrigger][t := FReturned] == s.frames[t := FReturned];
  }

  /** A write that succeeds leaves the connection as it is. */
  lemma GoodWriteKeeps(n: nat, s: State, t: Tid)
    requires t in s.frames && s.frames[t].FGet? && s.mu.None? && s.conn.Some?
    ensures FrameAlone(n, s, t, true, 8) == s.(frames := s.frames[t := FReturned])
  {
    hide FrameAlone;
    var m := Do(n, s, FrameStep(t, true));
    FrameAloneStep(n, s, t, true, 8);
    FrameAloneStep(n, m, t, true, 7);
    FrameAloneDone(n, Do(n, m, FrameStep(t, true)), t, true, 6);
    assert s.frames[t := FUse(s.conn.value)][t := FReturned] == s.frames[t := FReturned];
  }

  /** The second half of a failing write: the connection is out; close it and trigger. */
  lemma DiscardAlone(n: nat, s: State, t: Tid, c: Cid)
    requires t in s.frames && s.frames[t] == FErrUnlock(c)
    ensures var r := FrameAlone(n, s, t, false, 4);
      && r.mu.None? && r.conn == s.conn && r.token && r.closes == s.closes + multiset{c}
      && t in r.frames && r.frames[t].FReturned? && r.loop == s.loop && r.close == s.close
  {
    hide FrameAlone;
    var a := Do(n, s, FrameStep(t, false));
    var b := Do(n, a, FrameStep(t, false));
    FrameAloneStep(n, s, t, false, 4);
    FrameAloneStep(n, a, t, false, 3);
    FrameAloneStep(n, b, t, false, 2);
    FrameAloneDone(n, Do(n, b, FrameStep(t, false)), t, false, 1);
  }

  /** A write that fails takes its connection down: none is installed, that one is closed once, a token is pending. */
  lemma BadWriteDiscards(n: nat, s: State, t: Tid)
    requires t in s.frames && s.frames[t].FGet? && s.mu.None? && s.conn.Some?
    ensures var r := FrameAlone(n, s, t, false, 8);
      && r.mu.None? && r.conn.None? && r.token && r.closes == s.closes + multiset{s.conn.value}
      && t in r.frames && r.frames[t].FReturned? && r.loop == s.loop && r.close == s.close
  {
    hide FrameAlone;
    var c := s.conn.value;
    var used := Do(n, s, FrameStep(t, false));
    var failed := Do(n, used, FrameStep(t, false));
    var locked := Do(n, failed, FrameStep(t, false));
    var taken := Do(n, locked, FrameStep(t, false));
    FrameAloneStep(n, s, t, false, 8);
    FrameAloneStep(n, used, t, false, 7);
    FrameAloneStep(n, failed, t, false, 6);
    assert locked.frames[t] == FErrCompare(c) && locked.conn == Some(c);
    FrameAloneStep(n, locked, t, false, 5);
    DiscardAlone(n, taken, t, c);
  }

  /** A failing write whose connection has been replaced meanwhile leaves the replacement alone. */
  lemma StaleFailureIgnored(n: nat, s: State, t: Tid, c: Cid)
    requires t in s.frames && s.frames[t] == FErrLock(c) && s.mu.None? && s.conn != Some(c)
    ensures FrameAlone(n, s, t, false, 8) == s.(frames := s.frames[t := FReturned])
  {
    hide FrameAlone;
    var locked := Do(n, s, FrameStep(t, false));
    var skipped := Do(n, locked, FrameStep(t, false));
    FrameAloneStep(n, s, t, false, 8);
    FrameAloneStep(n, locked, t, false, 7);
    FrameAloneStep(n, skipped, t, false, 6);
    FrameAloneDone(n, Do(n, skipped, FrameStep(t, false)), t, false, 5);
    assert s.frames[t := FErrCompare(c)][t := FErrSkip][t := FReturned] == s.frames[t := FReturned];
  }

  /** Up to `k` steps of the loop with every choice going the same way. */
  function LoopAlone(n: nat, s: State, ok: bool, k: nat): State
    decreases k
  {
    if k == 0 || !Can(s, LoopStep(ok)) then s else LoopAlone(n, Do(n, s, LoopStep(ok)), ok, k - 1)
  }

  lemma LoopAloneStep(n: nat, s: State, ok: bool, k: nat)
    requires k > 0 && Can(s, LoopStep(ok))
    ensures LoopAlone(n, s, ok, k) == LoopAlone(n, Do(n, s, LoopStep(ok)), ok, k - 1)
    ensures LoopAlone(n, s, ok, 0) == s
  {
    hide LoopPlan, Perform;
  }

  /** A token makes the loop look, and start a burst if there is no connection. */
  lemma TokenWakes(n: nat, s: State, ok: bool)
    requires s.loop.LWait? && s.token && !s.done && s.mu.None?
    ensures var r := LoopAlone(n, s, ok, 3);
      && r.loop == (if s.conn.Some? then LWait else LTop(1))
      && !r.token && r.conn == s.conn && r.closes == s.closes
  {
    hide LoopAlone;
    var taken := Do(n, s, LoopStep(ok));
    LoopAloneStep(n, s, ok, 3);
    TokenTaken(n, taken, ok);
  }

  lemma TokenTaken(n: nat, s: State, ok: bool)
    requires s.loop.LDrainCh? && s.mu.None? && !s.token
    ensures var r := LoopAlone(n, s, ok, 2);
      r.loop == (if s.conn.Some? then LWait else LTop(1)) && r.conn == s.conn && r.closes == s.closes && !r.token
  {
    hide LoopAlone;
    var looking := Do(n, s, LoopStep(ok));
    LoopAloneStep(n, s, ok, 2);
    LoopAloneStep(n, looking, ok, 1);
    LoopAloneNone(n, Do(n, looking, LoopStep(ok)), ok);
  }

  lemma LoopAloneNone(n: nat, s: State, ok: bool)
    ensures LoopAlone(n, s, ok, 0) == s
  {
  }

  lemma SwapInstalls(n: nat, s: State, a: nat, c: Cid)
    requires s.loop == LSwap(a, c) && s.conn.None?
    ensures var r := LoopAlone(n, s, true, 2);
      r.conn == Some(c) && r.mu.None? && r.loop == LConnected && r.closes == s.closes
  {
    hide LoopAlone;
    var swapped := Do(n, s, LoopStep(true));
    LoopAloneStep(n, s, true, 2);
    LoopAloneStep(n, swapped, true, 1);
    LoopAloneNone(n, Do(n, swapped, LoopStep(true)), true);
  }

  /** A dial that succeeds while the writer is open is installed. */
  lemma DialInstalls(n: nat, s: State)
    requires s.loop.LDial? && s.mu.None? && !s.closed && s.conn.None?
    ensures var r := LoopAlone(n, s, true, 5);
      r.conn == Some(s.dialed) && r.mu.None? && r.loop == LConnected && r.closes == s.closes
  {
    hide LoopAlone;
    var dialed := Do(n, s, LoopStep(true));
    LoopAloneStep(n, s, true, 5);
    LockInstalls(n, dialed, s.loop.a, s.dialed);
  }

  lemma LockInstalls(n: nat, s: State, a: nat, c: Cid)
    requires s.loop == LLock(a, c) && s.mu.None? && !s.closed && s.conn.None?
    ensures var r := LoopAlone(n, s, true, 4);
      r.conn == Some(c) && r.mu.None? && r.loop == LConnected && r.closes == s.closes
  {
    hide LoopAlone;
    var locked := Do(n, s, LoopStep(true));
    LoopAloneStep(n, s, true, 4);
    assert locked.loop == LCheck(a, c);
    LoopAloneStep(n, locked, true, 3);
    SwapInstalls(n, Do(n, locked, LoopStep(true)), a, c);
  }
}
