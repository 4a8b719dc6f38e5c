/**
  Retry, backoff and the shared drain deadline of the OTLP writer (`export` and the drains of `run`
  in otlp/writer.go), on an integer clock in nanoseconds that only attempts and backoff sleeps move.
  The receiver, the jitter and the cancellation of the writer's context are given by a world, which
  may do anything; an attempt takes at least `floor` and never longer than the timeout.
*/
module Retry {
  import opened Wire

  /** The configured bounds, and `floor`: the shortest an attempt can take on this machine, possibly 0. */
  datatype RetryConfig = RetryConfig(initial: nat, maxInterval: nat, maxElapsed: nat, timeout: nat, floor: nat)

  /** After `normalize`: every bound is positive. */
  predicate Normalized(c: RetryConfig) {
    c.initial > 0 && c.maxInterval > 0 && c.maxElapsed > 0 && c.timeout > 0 && c.floor <= c.timeout
  }

  /** Every retry moves the clock: delays of at least 2 ns, or attempts that take time, or no retry at all. */
  predicate Live(c: RetryConfig, allowRetry: bool) {
    c.maxInterval >= 2 || c.floor >= 1 || !allowRetry
  }

  datatype Answer = Accepted(rejected: nat) | Refused(retryable: bool, retryAfter: int)

  /**
    One attempt as the world plays it: how long it would take, the answer, the random draw, whether the
    context was found cancelled after it, and when it was cancelled during the sleep, if at all.
  */
  datatype Attempt = Attempt(took: nat, answer: Answer, draw: nat, cancelled: bool, woken: Option<nat>)

  type World = nat -> Attempt

  /** How long the attempt takes: the floor and the timeout bound whatever the world wants. */
  function Elapsed(c: RetryConfig, a: Attempt): (r: nat)
    ensures Normalized(c) ==> c.floor <= r <= c.timeout
    ensures c.floor <= a.took <= c.timeout ==> r == a.took
  {
    if a.took > c.timeout then c.timeout else if a.took < c.floor then c.floor else a.took
  }

  /** Each batch ends in exactly one of these; an empty one is not exported at all. */
  datatype Fate = Delivered(rejected: nat) | Lost | Empty

  datatype LoopState = LoopState(now: int, delay: nat)
  datatype Turn = Ended(fate: Fate, end: int) | Again(next: LoopState)

  function Backoff(delay: nat, a: Attempt): nat {
    if a.answer.Refused? && a.answer.retryAfter > 0 then a.answer.retryAfter
    else delay / 2 + a.draw % (delay / 2 + 1)
  }

  function Doubled(c: RetryConfig, delay: nat): nat {
    if delay * 2 > c.maxInterval then c.maxInterval else delay * 2
  }

  /** One turn of the retry loop. */
  function TakeTurn(c: RetryConfig, deadline: int, allowRetry: bool, a: Attempt, s: LoopState): Turn {
    var now := s.now + Elapsed(c, a);
    match a.answer
    case Accepted(n) => Ended(Delivered(n), now)
    case Refused(retryable, _) =>
      if !allowRetry || !retryable || a.cancelled then Ended(Lost, now)
      else
        var d := Backoff(s.delay, a);
        if now + d > deadline then Ended(Lost, now)
        else if a.woken.Some? then Ended(Lost, now + if a.woken.value < d then a.woken.value else d)
        else Again(LoopState(now + d, Doubled(c, s.delay)))
  }

  /** The loop after `n` turns, from the world's attempt `i` on. */
  function After(c: RetryConfig, deadline: int, allowRetry: bool, w: World, i: nat, s: LoopState, n: nat): Turn
    decreases n
  {
    if n == 0 then Again(s)
    else
      match TakeTurn(c, deadline, allowRetry, w(i), s)
      case Ended(f, t) => Ended(f, t)
      case Again(s') => After(c, deadline, allowRetry, w, i + 1, s', n - 1)
  }

  // ---------------------------------------------------------------------------------------
  // Termination
  // ---------------------------------------------------------------------------------------

  /** Turns that can still follow. */
  function TurnsLeft(deadline: int, s: LoopState): nat {
    (if s.now <= deadline then deadline - s.now + 1 else 0) + (if s.delay < 2 then 1 else 0)
  }

  /** The pause is what the server asked for, or lies between half the delay and the delay. */
  lemma BackoffRange(delay: nat, a: Attempt)
    ensures
      if a.answer.Refused? && a.answer.retryAfter > 0 then Backoff(delay, a) == a.answer.retryAfter
      else delay / 2 <= Backoff(delay, a) <= delay
  {
  }

  /** Every turn that is not the last uses up some of the budget. */
  lemma TurnProgress(c: RetryConfig, deadline: int, allowRetry: bool, a: Attempt, s: LoopState)
    requires Normalized(c) && Live(c, allowRetry) && s.delay > 0
    ensures var t := TakeTurn(c, deadline, allowRetry, a, s);
      t.Again? ==>
        t.next.delay > 0 && s.now <= t.next.now <= deadline && TurnsLeft(deadline, t.next) < TurnsLeft(deadline, s)
  {
    hide Backoff, Elapsed;
    BackoffRange(s.delay, a);
  }

  /** A live loop ends, whatever the world does. */
  lemma {:induction false} LoopEnds(
    c: RetryConfig, deadline: int, allowRetry: bool, w: World, i: nat, s: LoopState, n: nat)
    requires Normalized(c) && Live(c, allowRetry) && s.delay > 0 && n >= TurnsLeft(deadline, s) && n > 0
    ensures After(c, deadline, allowRetry, w, i, s, n).Ended?
    decreases n
  {
    hide TakeTurn;
    TurnProgress(c, deadline, allowRetry, w(i), s);
    match TakeTurn(c, deadline, allowRetry, w(i), s)
    case Ended(_, _) =>
    case Again(s') => LoopEnds(c, deadline, allowRetry, w, i + 1, s', n - 1);
  }

  /** Refuses in no time with a jitter draw of zero; the very first time it asks for a pause of 1 ns. */
  function Stubborn(i: nat): Attempt {
    Attempt(0, Refused(true, if i == 0 then 1 else 0), 0, false, None)
  }

  lemma {:induction false} StuckLoop(c: RetryConfig, deadline: int, i: nat, s: LoopState, n: nat)
    requires c.maxInterval == 1 && c.floor == 0 && s.delay == 1 && s.now <= deadline && i > 0
    ensures After(c, deadline, true, Stubborn, i, s, n) == Again(s)
    decreases n
  {
    if n > 0 { StuckLoop(c, deadline, i + 1, s, n - 1); }
  }

  lemma StuckFromStart(c: RetryConfig, deadline: int, s: LoopState, n: nat)
    requires c.maxInterval == 1 && c.floor == 0 && s.delay > 0 && s.now < deadline
    ensures After(c, deadline, true, Stubborn, 0, s, n).Again?
  {
    if n > 0 { StuckLoop(c, deadline, 1, LoopState(s.now + 1, 1), n - 1); }
  }

  ghost predicate Ends(c: RetryConfig, allowRetry: bool, start: int, deadline: int, w: World) {
    exists n: nat :: After(c, deadline, allowRetry, w, 0, LoopState(start, c.initial), n).Ended?
  }

  /**
    The exact condition: an export loop with time on its budget ends for every world if and only if
    MaxInterval is at least 2 ns, or attempts take at least 1 ns, or retry is off.  With a MaxInterval
    of 1 ns the halved delay is zero, and only the attempts themselves use up the budget.
  */
  lemma TerminationExact(c: RetryConfig, allowRetry: bool, start: int, deadline: int)
    requires Normalized(c) && start < deadline
    ensures (forall w: World :: Ends(c, allowRetry, start, deadline, w)) <==> Live(c, allowRetry)
  {
    var s := LoopState(start, c.initial);
    if Live(c, allowRetry) {
      forall w: World ensures Ends(c, allowRetry, start, deadline, w) {
        LoopEnds(c, deadline, allowRetry, w, 0, s, TurnsLeft(deadline, s));
      }
    } else {
      forall n: nat ensures After(c, deadline, true, Stubborn, 0, s, n).Again? { StuckFromStart(c, deadline, s, n); }
      assert !Ends(c, allowRetry, start, deadline, Stubborn);
    }
  }

  // ---------------------------------------------------------------------------------------
  // One export
  // ---------------------------------------------------------------------------------------

  /** How an export went: its fate, when it ended, and when each attempt started. */
  datatype Report = Report(fate: Fate, end: int, starts: seq<int>)

  function Loop(c: RetryConfig, deadline: int, allowRetry: bool, w: World, i: nat, s: LoopState): Report
    requires Normalized(c) && Live(c, allowRetry) && s.delay > 0
    decreases TurnsLeft(deadline, s)
  {
    TurnProgress(c, deadline, allowRetry, w(i), s);
    match TakeTurn(c, deadline, allowRetry, w(i), s)
    case Ended(f, t) => Report(f, t, [s.now])
    case Again(s') => var r := Loop(c, deadline, allowRetry, w, i + 1, s'); r.(starts := [s.now] + r.starts)
  }

  datatype Batch = Batch(size: nat, preparable: bool, world: World)

  function Deadline(c: RetryConfig, drain: Option<int>, start: int): int {
    if drain.Some? && drain.value < start + c.maxElapsed then drain.value else start + c.maxElapsed
  }

  /** `export`. */
  function Exported(c: RetryConfig, b: Batch, allowRetry: bool, drain: Option<int>, start: int): Report
    requires Normalized(c) && Live(c, allowRetry)
  {
    if b.size == 0 then Report(Empty, start, [])
    else if drain.Some? && start >= drain.value then Report(Lost, start, [])
    else if !b.preparable then Report(Lost, start, [])
    else Loop(c, Deadline(c, drain, start), allowRetry, b.world, 0, LoopState(start, c.initial))
  }

  method Export(c: RetryConfig, b: Batch, allowRetry: bool, drain: Option<int>, start: int)
      returns (r: Report, dropped: nat)
    requires Normalized(c) && Live(c, allowRetry)
    ensures r == Exported(c, b, allowRetry, drain, start)
    ensures dropped == match r.fate case Lost => b.size case Delivered(rejected) => rejected case Empty => 0
    ensures r.fate.Empty? <==> b.size == 0
  {
    hide TakeTurn, TurnsLeft;
    if b.size == 0 { return Report(Empty, start, []), 0; }
    if drain.Some? && start >= drain.value { return Report(Lost, start, []), b.size; }
    if !b.preparable { return Report(Lost, start, []), b.size; }
    var deadline := start + c.maxElapsed;
    if drain.Some? && drain.value < deadline { deadline := drain.value; }
    var now, delay, i, starts := start, c.initial, 0, [];
    ghost var all := Loop(c, deadline, allowRetry, b.world, 0, LoopState(start, c.initial));
    assert starts + all.starts == all.starts;
    while true
      invariant delay > 0
      invariant var rest := Loop(c, deadline, allowRetry, b.world, i, LoopState(now, delay));
        all == rest.(starts := starts + rest.starts)
      decreases TurnsLeft(deadline, LoopState(now, delay))
    {
      starts := starts + [now];
      TurnProgress(c, deadline, allowRetry, b.world(i), LoopState(now, delay));
      LoopTurn(c, deadline, allowRetry, b.world, i, LoopState(now, delay), starts[..|starts| - 1]);
      match TakeTurn(c, deadline, allowRetry, b.world(i), LoopState(now, delay))
      case Ended(fate, end) =>
        TurnFate(c, deadline, allowRetry, b.world(i), LoopState(now, delay));
        return Report(fate, end, starts), if fate.Lost? then b.size else fate.rejected;
      case Again(next) =>
        now, delay, i := next.now, next.delay, i + 1;
    }
  }

  lemma TurnFate(c: RetryConfig, deadline: int, allowRetry: bool, a: Attempt, s: LoopState)
    ensures var t := TakeTurn(c, deadline, allowRetry, a, s); t.Ended? ==> !t.fate.Empty?
  {
  }

  lemma LoopTurn(c: RetryConfig, deadline: int, allowRetry: bool, w: World, i: nat, s: LoopState, seen: seq<int>)
    requires Normalized(c) && Live(c, allowRetry) && s.delay > 0
    ensures match TakeTurn(c, deadline, allowRetry, w(i), s)
      case Ended(f, t) => Loop(c, deadline, allowRetry, w, i, s) == Report(f, t, [s.now])
      case Again(s') =>
        s'.delay > 0 &&
        var r, rest := Loop(c, deadline, allowRetry, w, i, s), Loop(c, deadline, allowRetry, w, i + 1, s');
        r == rest.(starts := [s.now] + rest.starts) && seen + r.starts == seen + [s.now] + rest.starts
  {
  }

  /** Every attempt starts by the deadline, in order, and the loop ends at most one attempt later. */
  lemma {:induction false} LoopBounds(c: RetryConfig, deadline: int, allowRetry: bool, w: World, i: nat, s: LoopState)
    requires Normalized(c) && Live(c, allowRetry) && s.delay > 0 && s.now <= deadline
    ensures var r := Loop(c, deadline, allowRetry, w, i, s);
      && s.now <= r.end <= deadline + c.timeout
      && 1 <= |r.starts| <= TurnsLeft(deadline, s)
      && (forall k :: 0 <= k < |r.starts| ==> s.now <= r.starts[k] <= deadline)
      && (forall k :: 0 <= k < |r.starts| - 1 ==> r.starts[k] <= r.starts[k + 1])
      && (!allowRetry ==> |r.starts| == 1)
    decreases TurnsLeft(deadline, s)
  {
    hide TakeTurn, TurnsLeft;
    TurnProgress(c, deadline, allowRetry, w(i), s);
    TurnEnds(c, deadline, allowRetry, w, i, s);
    match TakeTurn(c, deadline, allowRetry, w(i), s)
    case Ended(_, _) => SomeTurns(deadline, s);
    case Again(s') => LoopBounds(c, deadline, allowRetry, w, i + 1, s');
  }

  lemma TurnEnds(c: RetryConfig, deadline: int, allowRetry: bool, w: World, i: nat, s: LoopState)
    requires Normalized(c) && s.now <= deadline
    ensures var t := TakeTurn(c, deadline, allowRetry, w(i), s);
      && (t.Ended? ==> s.now <= t.end <= deadline + c.timeout)
      && (!allowRetry ==> t.Ended?)
  {
  }

  lemma SomeTurns(deadline: int, s: LoopState)
    requires s.now <= deadline
    ensures TurnsLeft(deadline, s) >= 1
  {
  }

  /**
    One export: it makes no attempt once the drain deadline has passed, no attempt starts after it,
    and it ends within the drain deadline plus one attempt timeout, or within its own budget plus
    one timeout if the drain is not bounded.
  */
  lemma ExportBounds(c: RetryConfig, b: Batch, allowRetry: bool, drain: Option<int>, start: int)
    requires Normalized(c) && Live(c, allowRetry)
    ensures var r := Exported(c, b, allowRetry, drain, start);
      && start <= r.end
      && (r.end > start ==> r.end <= Deadline(c, drain, start) + c.timeout)
      && (forall k :: 0 <= k < |r.starts| ==> start <= r.starts[k] <= Deadline(c, drain, start))
      && |r.starts| <= c.maxElapsed + 2
      && (!allowRetry ==> |r.starts| <= 1)
      && (drain.Some? && start >= drain.value ==> r.starts == [] && r.end == start)
  {
    if b.size > 0 && !(drain.Some? && start >= drain.value) && b.preparable {
      LoopBounds(c, Deadline(c, drain, start), allowRetry, b.world, 0, LoopState(start, c.initial));
    }
  }

  // ---------------------------------------------------------------------------------------
  // What an export does, attempt by attempt
  // ---------------------------------------------------------------------------------------

  /** The delay before pause `k`: the initial one, then its doublings up to MaxInterval. */
  function DelayAt(c: RetryConfig, k: nat): nat {
    if k == 0 then c.initial
    else if Pow2(k) * c.initial > c.maxInterval then c.maxInterval
    else Pow2(k) * c.initial
  }

  lemma DelayDoubles(c: RetryConfig, k: nat)
    requires Normalized(c)
    ensures Doubled(c, DelayAt(c, k)) == DelayAt(c, k + 1) && DelayAt(c, k) > 0
  {
    var x := Pow2(k) * c.initial;
    assert Pow2(k + 1) * c.initial == 2 * x by { TwiceScaled(Pow2(k), c.initial); }
    assert Pow2(0) * c.initial == c.initial;
    assert x > 0 by { ScaledPositive(Pow2(k), c.initial); }
  }

  lemma TwiceScaled(p: nat, x: nat)
    ensures (2 * p) * x == 2 * (p * x)
  {
  }

  lemma ScaledPositive(p: nat, x: nat)
    requires p > 0 && x > 0
    ensures p * x > 0
  {
  }

  /** The pause after attempt `k`: what the server asked for, or half the delay and a random part of the other half. */
  function PauseAt(c: RetryConfig, w: World, k: nat): nat {
    match w(k).answer
    case Refused(_, retryAfter) =>
      if retryAfter > 0 then retryAfter else DelayAt(c, k) / 2 + w(k).draw % (DelayAt(c, k) / 2 + 1)
    case Accepted(_) => 0
  }

  /** Attempt `k`, which started at `t`, is followed by a pause. */
  predicate Pauses(c: RetryConfig, deadline: int, allowRetry: bool, w: World, k: nat, t: int) {
    && allowRetry && w(k).answer.Refused? && w(k).answer.retryable && !w(k).cancelled
    && t + Elapsed(c, w(k)) + PauseAt(c, w, k) <= deadline
  }

  /** Attempt `k` of the report was followed by a pause and the next attempt. */
  predicate Continued(c: RetryConfig, deadline: int, allowRetry: bool, w: World, i: nat, r: Report, k: nat)
    requires k + 1 < |r.starts|
  {
    && Pauses(c, deadline, allowRetry, w, i + k, r.starts[k]) && w(i + k).woken.None?
    && r.starts[k + 1] == r.starts[k] + Elapsed(c, w(i + k)) + PauseAt(c, w, i + k)
  }

  /** The attempts of a report: when each started, why there was a next one, and why the last was the last. */
  predicate Meaning(c: RetryConfig, deadline: int, allowRetry: bool, w: World, i: nat, r: Report) {
    var n := |r.starts|;
    && n >= 1
    && (forall k :: 0 <= k < n - 1 ==> Continued(c, deadline, allowRetry, w, i, r, k))
    && var last, t := w(i + n - 1), r.starts[n - 1];
       && (Pauses(c, deadline, allowRetry, w, i + n - 1, t) ==> last.woken.Some?)
       && r.fate == (if last.answer.Accepted? then Delivered(last.answer.rejected) else Lost)
       && r.end == t + Elapsed(c, last)
            + if !Pauses(c, deadline, allowRetry, w, i + n - 1, t) then 0
              else if last.woken.value < PauseAt(c, w, i + n - 1) then last.woken.value
              else PauseAt(c, w, i + n - 1)
  }

  lemma TurnMeaning(c: RetryConfig, deadline: int, allowRetry: bool, w: World, i: nat, s: LoopState)
    requires s.delay == DelayAt(c, i)
    ensures var t := TakeTurn(c, deadline, allowRetry, w(i), s);
      && (t.Again? ==>
            && Pauses(c, deadline, allowRetry, w, i, s.now) && w(i).woken.None?
            && t.next == LoopState(s.now + Elapsed(c, w(i)) + PauseAt(c, w, i), Doubled(c, s.delay)))
      && (t.Ended? ==> Meaning(c, deadline, allowRetry, w, i, Report(t.fate, t.end, [s.now])))
  {
    hide Doubled, DelayAt, Elapsed;
  }

  lemma MeaningCons(
    c: RetryConfig, deadline: int, allowRetry: bool, w: World, i: nat, t: int, rest: Report)
    requires Meaning(c, deadline, allowRetry, w, i + 1, rest)
    requires Pauses(c, deadline, allowRetry, w, i, t) && w(i).woken.None?
    requires rest.starts[0] == t + Elapsed(c, w(i)) + PauseAt(c, w, i)
    ensures Meaning(c, deadline, allowRetry, w, i, rest.(starts := [t] + rest.starts))
  {
    hide Pauses, PauseAt, Elapsed;
    var r := rest.(starts := [t] + rest.starts);
    var n := |r.starts|;
    forall k | 0 <= k < n - 1 ensures Continued(c, deadline, allowRetry, w, i, r, k) {
      if k > 0 {
        assert Continued(c, deadline, allowRetry, w, i + 1, rest, k - 1);
        assert i + k == i + 1 + (k - 1);
      }
    }
    assert r.starts[n - 1] == rest.starts[n - 2] && i + n - 1 == i + 1 + (n - 1) - 1;
  }

  lemma {:induction false} LoopMeaning(
    c: RetryConfig, deadline: int, allowRetry: bool, w: World, i: nat, s: LoopState)
    requires Normalized(c) && Live(c, allowRetry) && s.delay == DelayAt(c, i) && s.delay > 0
    ensures var r := Loop(c, deadline, allowRetry, w, i, s);
      Meaning(c, deadline, allowRetry, w, i, r) && r.starts[0] == s.now
    decreases TurnsLeft(deadline, s)
  {
    hide TakeTurn, TurnsLeft, Meaning, Pauses, PauseAt, DelayAt, Doubled, Elapsed;
    TurnProgress(c, deadline, allowRetry, w(i), s);
    TurnMeaning(c, deadline, allowRetry, w, i, s);
    match TakeTurn(c, deadline, allowRetry, w(i), s)
    case Ended(_, _) =>
    case Again(s') =>
      DelayDoubles(c, i);
      LoopMeaning(c, deadline, allowRetry, w, i + 1, s');
      MeaningCons(c, deadline, allowRetry, w, i, s.now, Loop(c, deadline, allowRetry, w, i + 1, s'));
  }

  /**
    An export, attempt by attempt.  There is a first attempt exactly if the batch is not empty, the
    drain deadline has not passed and the request could be prepared; there is a next one exactly if
    the last was refused as retryable, retry is allowed, nothing was cancelled, and its end plus the
    pause is within the deadline.  The batch is delivered with `k` rejected records if and only if the
    last attempt was accepted with `k` rejected; every other batch that is not empty is lost.
  */
  lemma ExportMeaning(c: RetryConfig, b: Batch, allowRetry: bool, drain: Option<int>, start: int)
    requires Normalized(c) && Live(c, allowRetry)
    ensures
      var r, budget := Exported(c, b, allowRetry, drain, start), start + c.maxElapsed;
      var limit := if drain.Some? && drain.value < budget then drain.value else budget;
      var n := |r.starts|;
      && (n > 0 <==> b.size > 0 && b.preparable && (drain.Some? ==> start < drain.value))
      && (n > 0 ==> r.starts[0] == start && Meaning(c, limit, allowRetry, b.world, 0, r))
      && (n == 0 ==> r.end == start && r.fate == if b.size == 0 then Empty else Lost)
      && forall k :: r.fate == Delivered(k) <==> n > 0 && b.world(n - 1).answer == Accepted(k)
  {
    hide Loop, Live, Pauses, PauseAt, DelayAt, Elapsed;
    if b.size > 0 && b.preparable && (drain.Some? ==> start < drain.value) {
      assert DelayAt(c, 0) == c.initial by { FirstDelay(c); }
      LoopMeaning(c, Deadline(c, drain, start), allowRetry, b.world, 0, LoopState(start, c.initial));
    }
  }

  lemma FirstDelay(c: RetryConfig)
    ensures DelayAt(c, 0) == c.initial
  {
  }

  // ---------------------------------------------------------------------------------------
  // A whole drain
  // ---------------------------------------------------------------------------------------

  /** The batches of one drain, exported one after the other against the same deadline. */
  function Drained(c: RetryConfig, bs: seq<Batch>, allowRetry: bool, drain: Option<int>, start: int): (r: seq<Report>)
    requires Normalized(c) && Live(c, allowRetry)
    ensures |r| == |bs|
    decreases |bs|
  {
    if |bs| == 0 then []
    else
      var first := Exported(c, bs[0], allowRetry, drain, start);
      [first] + Drained(c, bs[1..], allowRetry, drain, first.end)
  }

  function EndOf(reports: seq<Report>, start: int): int {
    if |reports| == 0 then start else reports[|reports| - 1].end
  }

  lemma EndOfCons(first: Report, rest: seq<Report>, start: int)
    ensures EndOf([first] + rest, start) == EndOf(rest, first.end)
  {
  }

  /**
    A bounded drain over any number of batches: no attempt starts after the drain deadline, and the
    whole drain is over by the deadline plus one attempt timeout, however many batches fail.
  */
  lemma {:induction false} DrainBounded(c: RetryConfig, bs: seq<Batch>, allowRetry: bool, deadline: int, start: int)
    requires Normalized(c) && Live(c, allowRetry) && start <= deadline + c.timeout
    ensures var rs := Drained(c, bs, allowRetry, Some(deadline), start);
      && start <= EndOf(rs, start) <= deadline + c.timeout
      && forall i :: 0 <= i < |rs| ==> forall k :: 0 <= k < |rs[i].starts| ==> rs[i].starts[k] <= deadline
    decreases |bs|
  {
    hide Exported;
    if |bs| > 0 {
      var first := Exported(c, bs[0], allowRetry, Some(deadline), start);
      ExportBounds(c, bs[0], allowRetry, Some(deadline), start);
      DrainBounded(c, bs[1..], allowRetry, deadline, first.end);
      EndOfCons(first, Drained(c, bs[1..], allowRetry, Some(deadline), first.end), start);
    }
  }

  /** The Close drain: with a positive drain timeout, Close's final drain ends within it plus one attempt. */
  lemma CloseDrainBounded(c: RetryConfig, bs: seq<Batch>, drainTimeout: nat, start: int)
    requires Normalized(c)
    ensures var rs := Drained(c, bs, false, Some(start + drainTimeout), start);
      && EndOf(rs, start) - start <= drainTimeout + c.timeout
      && forall i :: 0 <= i < |rs| ==> |rs[i].starts| <= 1
  {
    hide Exported, Drained;
    DrainBounded(c, bs, false, start + drainTimeout, start);
    SingleAttempts(c, bs, Some(start + drainTimeout), start);
  }

  lemma {:induction false} SingleAttempts(c: RetryConfig, bs: seq<Batch>, drain: Option<int>, start: int)
    requires Normalized(c)
    ensures var rs := Drained(c, bs, false, drain, start); forall i :: 0 <= i < |rs| ==> |rs[i].starts| <= 1
    decreases |bs|
  {
    hide Exported;
    if |bs| > 0 {
      var first := Exported(c, bs[0], false, drain, start);
      ExportBounds(c, bs[0], false, drain, start);
      SingleAttempts(c, bs[1..], drain, first.end);
      assert Drained(c, bs, false, drain, start) == [first] + Drained(c, bs[1..], false, drain, first.end);
    }
  }
}
