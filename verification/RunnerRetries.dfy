/**
 How often a step is sent out, and what happens to a job that failed.

 A failure for good is not one step: the job leaves `scheduled`, then the owning map,
 and the dependents are failed in passes that wait for the database. All that time the
 task holds the info, and its queue entry can be followed.
 */
module RunnerRetries {
  import opened Reachability
  import opened StepGraph
  import opened StepGraphInvariant
  import opened StepGraphTheorems
  import opened Scheduling
  import opened SchedulingInvariant
  import opened SchedulingFrames
  import opened Runner
  import opened RunnerInvariant
  import opened RunnerTheorems
  import opened RunnerGraph

  // ---- counting ----

  /** How often the step object was sent out in the first `k` events. */
  function SentOut(ws: seq<World>, es: seq<Runner.Event>, k: nat, st: StepId): nat
    requires |ws| == |es| + 1 && k <= |es|
  {
    if k == 0 then 0 else SentOut(ws, es, k - 1, st) + if Sends(ws, es, k - 1, st) then 1 else 0
  }

  function Outcome(c: Config, s: Sched, op: Op): BuildResultState
    requires Can(c, s, op)
  {
    if op.Act? then s.calls[op.k].outcome else PreparingFailure
  }

  /** The event ends a run of the step with a failure for good. */
  predicate FailsForGood(c: Config, w: World, e: Runner.Event, st: StepId) {
    e.Moves? && Can(c, w.s, e.op) && Target(c, w.s, e.op) != [] &&
    var p := Target(c, w.s, e.op)[0];
    Followable(w.s, p) && StepOf(w.s, p) == st
    && !Outcome(c, w.s, e.op).Success? && Final(c, w.s, st, CanRetry(Outcome(c, w.s, e.op)))
  }

  predicate SendsNow(w: World, e: Runner.Event, st: StepId) {
    && e.Moves? && e.op.Send? && w.s.dispatcher.Chosen?
    && w.s.dispatcher.info in w.s.infos && w.s.infos[w.s.dispatcher.info].step == st
  }

  /** What an event does to the history of a step. */
  ghost predicate Recorded(c: Config, w: World, e: Runner.Event, h: Sched, st: StepId) {
    && |Starts(h, st)| == |Starts(w.s, st)| + (if SendsNow(w, e, st) then 1 else 0)
    && (st in h.doomed <==> st in w.s.doomed || FailsForGood(c, w, e, st))
    && (st in h.resent <==> st in w.s.resent || (SendsNow(w, e, st) && st in w.s.doomed))
  }

  lemma ApartRecords(c: Config, s: Sched, p: Path, r: BuildResultState, id: TaskId, now: int, h: Sched, st: StepId)
    requires IsApart(c, s, p, r, id, now, h)
    ensures h.starts == s.starts && h.resent == s.resent
    ensures st in h.doomed <==>
      st in s.doomed || (p in s.scheduled && StepOf(s, p) == st && !r.Success? && Final(c, s, st, CanRetry(r)))
  {
    if p in s.scheduled { ApartTables(c, s, p, r, id, now); }
  }

  lemma ActRecords(c: Config, w: World, op: Op, st: StepId)
    requires Can(c, w.s, op) && (op.Act? || op.Drain?)
    ensures Recorded(c, w, Moves(op), Do(c, w.s, op), st)
  {
    match op
    case Act(k, id, now) =>
      ActIs(c, w.s, k, id, now);
      ApartRecords(c, w.s, w.s.calls[k].path, w.s.calls[k].outcome, id, now, DoAct(c, w.s, k, id, now), st);
    case Drain(m, id, now) =>
      DrainIs(c, w.s, m, id, now);
      ApartRecords(c, w.s, w.s.draining[m][0], PreparingFailure, id, now, DoDrain(c, w.s, m, id, now), st);
  }

  lemma FramedRecords(c: Config, w: World, op: Op, h: Sched, st: StepId)
    requires Can(c, w.s, op) && !op.Act? && !op.Drain? && !op.Send?
    requires h.starts == w.s.starts && h.doomed == w.s.doomed && h.resent == w.s.resent
    ensures Recorded(c, w, Moves(op), h, st)
  {
  }

  lemma OthersRecorded(c: Config, w: World, op: Op, st: StepId)
    requires Agreement(c, w.s) && Can(c, w.s, op) && !op.Act? && !op.Drain? && !op.Send?
    ensures Recorded(c, w, Moves(op), Do(c, w.s, op), st)
  {
    OthersSame(c, w.s, op);
    FramedRecords(c, w, op, Do(c, w.s, op), st);
  }

  lemma OthersSame(c: Config, s: Sched, op: Op)
    requires Agreement(c, s) && Can(c, s, op) && !op.Act? && !op.Drain? && !op.Send?
    ensures var h := Do(c, s, op); h.starts == s.starts && h.doomed == s.doomed && h.resent == s.resent
  {
    match op
    case Insert(st, p, i, order) => assert DoInsert(c, s, st, p, i, order).starts == s.starts;
    case _ => OpFrame(c, s, op);
  }

  lemma MoveRecords(c: Config, w: World, op: Op, st: StepId)
    requires Agreement(c, w.s) && Can(c, w.s, op)
    ensures Recorded(c, w, Moves(op), Do(c, w.s, op), st)
  {
    match op
    case Act(_, _, _) => ActRecords(c, w, op, st);
    case Drain(_, _, _) => ActRecords(c, w, op, st);
    case Send(u, now) => SendRecords(c, w, u, now, st);
    case _ => OthersRecorded(c, w, op, st);
  }

  lemma EventRecords(c: Config, w: World, e: Runner.Event, st: StepId)
    requires Sound(c, w) && Allowed(c, w, e)
    ensures Recorded(c, w, e, Effect(c, w, e).s, st)
  {
    match e
    case GraphEvent(_) =>
    case Moves(op) => MoveRecords(c, w, op, st);
  }

  lemma SendRecords(c: Config, w: World, u: Uuid, now: int, st: StepId)
    requires CanSend(w.s, u, now)
    ensures Recorded(c, w, Moves(Send(u, now)), SendOut(w.s, u, now), st)
  {
  }

  lemma RunRecords(c: Config, ws: seq<World>, es: seq<Runner.Event>, k: nat, st: StepId)
    requires WorldRun(c, ws, es) && k < |es|
    ensures Recorded(c, ws[k], es[k], ws[k + 1].s, st)
  {
    WorldSound(c, ws, es, k);
    assert WorldNext(c, ws, es, k);
    EventRecords(c, ws[k], es[k], st);
  }

  // ---- the bound on retries, exactly ----

  ghost predicate FailedBefore(c: Config, ws: seq<World>, es: seq<Runner.Event>, k: nat, st: StepId)
    requires |ws| == |es| + 1 && k <= |es|
  {
    exists j :: 0 <= j < k && FailsForGood(c, ws[j], es[j], st)
  }

  /** The step object was sent out after it had failed for good. */
  ghost predicate SentAgain(c: Config, ws: seq<World>, es: seq<Runner.Event>, k: nat, st: StepId)
    requires |ws| == |es| + 1 && k <= |es|
  {
    exists l :: 0 <= l < k && Sends(ws, es, l, st) && FailedBefore(c, ws, es, l, st)
  }

  lemma FailedNext(c: Config, ws: seq<World>, es: seq<Runner.Event>, k: nat, st: StepId)
    requires |ws| == |es| + 1 && k < |es|
    ensures FailedBefore(c, ws, es, k + 1, st) <==>
      FailedBefore(c, ws, es, k, st) || FailsForGood(c, ws[k], es[k], st)
  {
  }

  lemma AgainNext(c: Config, ws: seq<World>, es: seq<Runner.Event>, k: nat, st: StepId)
    requires |ws| == |es| + 1 && k < |es|
    ensures SentAgain(c, ws, es, k + 1, st) <==>
      SentAgain(c, ws, es, k, st) || (Sends(ws, es, k, st) && FailedBefore(c, ws, es, k, st))
  {
  }

  /** What the state remembers of the step is what happened in the run. */
  ghost predicate Remembers(c: Config, ws: seq<World>, es: seq<Runner.Event>, k: nat, st: StepId)
    requires |ws| == |es| + 1 && k <= |es|
  {
    && SentOut(ws, es, k, st) == |Starts(ws[k].s, st)|
    && (st in ws[k].s.doomed <==> FailedBefore(c, ws, es, k, st))
    && (st in ws[k].s.resent <==> SentAgain(c, ws, es, k, st))
  }

  lemma RemembersNext(c: Config, ws: seq<World>, es: seq<Runner.Event>, k: nat, st: StepId)
    requires |ws| == |es| + 1 && k < |es| && Remembers(c, ws, es, k, st)
    requires Recorded(c, ws[k], es[k], ws[k + 1].s, st)
    ensures Remembers(c, ws, es, k + 1, st)
  {
    FailedNext(c, ws, es, k, st);
    AgainNext(c, ws, es, k, st);
  }

  lemma {:induction false} HistoryMeans(c: Config, ws: seq<World>, es: seq<Runner.Event>, k: nat, st: StepId)
    requires WorldRun(c, ws, es) && k < |ws|
    ensures Remembers(c, ws, es, k, st)
  {
    if k > 0 {
      HistoryMeans(c, ws, es, k - 1, st);
      RunRecords(c, ws, es, k - 1, st);
      RemembersNext(c, ws, es, k - 1, st);
    }
  }

  /** Every run of the step but the last ended with a counted failure, and there were
      at most max(1, max_retries) of them. */
  predicate Bounded(c: Config, ws: seq<World>, es: seq<Runner.Event>, k: nat, st: StepId)
    requires |ws| == |es| + 1 && k <= |es|
  {
    SentOut(ws, es, k, st) <= Most(c) && SentOut(ws, es, k, st) <= |Fails(ws[k].s, st)| + 1
  }

  lemma {:induction false} FirstAgain(c: Config, ws: seq<World>, es: seq<Runner.Event>, k: nat, st: StepId)
      returns (l: nat)
    requires WorldRun(c, ws, es) && k < |ws| && st in ws[k].s.resent
    ensures l < k && st !in ws[l].s.resent && st in ws[l + 1].s.resent
  {
    if st in ws[k - 1].s.resent { l := FirstAgain(c, ws, es, k - 1, st); } else { l := k - 1; }
  }

  /** Sending a failed step out again breaks the bound at once. */
  lemma AgainBreaks(c: Config, ws: seq<World>, es: seq<Runner.Event>, l: nat, st: StepId)
    requires WorldRun(c, ws, es) && l < |es| && st !in ws[l].s.resent && st in ws[l + 1].s.resent
    ensures !Bounded(c, ws, es, l + 1, st)
  {
    WorldSound(c, ws, es, l);
    WorldSound(c, ws, es, l + 1);
    RunRecords(c, ws, es, l, st);
    HistoryMeans(c, ws, es, l, st);
    assert CountOk(c, ws[l], st) && CountOk(c, ws[l + 1], st);
    SendCountsNoTry(c, ws, es, l, st);
  }

  lemma SendCountsNoTry(c: Config, ws: seq<World>, es: seq<Runner.Event>, l: nat, st: StepId)
    requires WorldRun(c, ws, es) && l < |es| && SendsNow(ws[l], es[l], st)
    ensures Tries(ws[l + 1].s, st) == Tries(ws[l].s, st)
  {
    assert WorldNext(c, ws, es, l);
    assert ws[l + 1].s == SendOut(ws[l].s, es[l].op.u, es[l].op.now);
  }

  lemma SentAgainLater(c: Config, ws: seq<World>, es: seq<Runner.Event>, j: nat, k: nat, st: StepId)
    requires |ws| == |es| + 1 && j <= k <= |es|
    ensures SentAgain(c, ws, es, j, st) ==> SentAgain(c, ws, es, k, st)
  {
  }

  /** The bound holds throughout a run if and only if the step object is never sent out
      after it failed for good. */
  lemma RetryBoundExactly(c: Config, ws: seq<World>, es: seq<Runner.Event>, k: nat, st: StepId)
    requires WorldRun(c, ws, es) && k < |ws|
    ensures (forall j: nat :: j <= k ==> Bounded(c, ws, es, j, st)) <==> !SentAgain(c, ws, es, k, st)
  {
    HistoryMeans(c, ws, es, k, st);
    if st in ws[k].s.resent {
      var l := FirstAgain(c, ws, es, k, st);
      AgainBreaks(c, ws, es, l, st);
    } else {
      forall j: nat | j <= k ensures Bounded(c, ws, es, j, st) {
        HistoryMeans(c, ws, es, j, st);
        WorldSound(c, ws, es, j);
        SentAgainLater(c, ws, es, j, k, st);
        assert CountOk(c, ws[j], st);
      }
    }
  }

  /** How often the step object was sent out after it had failed for good. */
  ghost function SentLate(c: Config, ws: seq<World>, es: seq<Runner.Event>, k: nat, st: StepId): nat
    requires |ws| == |es| + 1 && k <= |es|
  {
    if k == 0 then 0
    else SentLate(c, ws, es, k - 1, st)
         + if Sends(ws, es, k - 1, st) && FailedBefore(c, ws, es, k - 1, st) then 1 else 0
  }

  lemma {:induction false} LateAfterFailure(c: Config, ws: seq<World>, es: seq<Runner.Event>, k: nat, st: StepId)
    requires |ws| == |es| + 1 && k <= |es|
    ensures !FailedBefore(c, ws, es, k, st) ==> SentLate(c, ws, es, k, st) == 0
  {
    if k > 0 && !FailedBefore(c, ws, es, k, st) {
      LateAfterFailure(c, ws, es, k - 1, st);
    }
  }

  /** The sends before the step failed for good are at most max(1, max_retries). */
  lemma {:induction false} EarlyBounded(c: Config, ws: seq<World>, es: seq<Runner.Event>, k: nat, st: StepId)
    requires WorldRun(c, ws, es) && k < |ws|
    ensures SentLate(c, ws, es, k, st) <= SentOut(ws, es, k, st) <= Most(c) + SentLate(c, ws, es, k, st)
  {
    if k > 0 {
      EarlyBounded(c, ws, es, k - 1, st);
      if Sends(ws, es, k - 1, st) && !FailedBefore(c, ws, es, k - 1, st) { EarlySend(c, ws, es, k - 1, st); }
    }
  }

  lemma EarlySend(c: Config, ws: seq<World>, es: seq<Runner.Event>, k: nat, st: StepId)
    requires WorldRun(c, ws, es) && k < |es| && Sends(ws, es, k, st) && !FailedBefore(c, ws, es, k, st)
    ensures SentOut(ws, es, k + 1, st) <= Most(c)
  {
    HistoryMeans(c, ws, es, k, st);
    HistoryMeans(c, ws, es, k + 1, st);
    RunRecords(c, ws, es, k, st);
    WorldSound(c, ws, es, k);
    WorldSound(c, ws, es, k + 1);
    assert CountOk(c, ws[k], st) && CountOk(c, ws[k + 1], st);
  }

  /** The bound on the number of sends alone holds if and only if the sends after the
      failure for good are no more than the tries that were left when it came: none, if
      all of them had been used. */
  lemma PlainBoundExactly(c: Config, ws: seq<World>, es: seq<Runner.Event>, k: nat, st: StepId)
    requires WorldRun(c, ws, es) && k < |ws|
    ensures var late := SentLate(c, ws, es, k, st);
      var left := Most(c) - (SentOut(ws, es, k, st) - late);
      left >= 0 && (SentOut(ws, es, k, st) <= Most(c) <==> late <= left)
    ensures !SentAgain(c, ws, es, k, st) <==> SentLate(c, ws, es, k, st) == 0
  {
    EarlyBounded(c, ws, es, k, st);
    LateIsAgain(c, ws, es, k, st);
  }

  lemma {:induction false} LateIsAgain(c: Config, ws: seq<World>, es: seq<Runner.Event>, k: nat, st: StepId)
    requires |ws| == |es| + 1 && k <= |es|
    ensures SentAgain(c, ws, es, k, st) <==> SentLate(c, ws, es, k, st) > 0
  {
    if k > 0 {
      LateIsAgain(c, ws, es, k - 1, st);
      SentAgainLater(c, ws, es, k - 1, k, st);
      if Sends(ws, es, k - 1, st) && FailedBefore(c, ws, es, k - 1, st) { assert SentAgain(c, ws, es, k, st); }
    }
  }

  // ---- backoff ----

  /** The sum of the first `k` powers. */
  function Geometric(b: real, k: nat): real { if k == 0 then 0.0 else Geometric(b, k - 1) + Power(b, k - 1) }

  lemma {:induction false} GeometricSum(b: real, k: nat)
    ensures Geometric(b, k) * (b - 1.0) == Power(b, k) - 1.0
  {
    if k > 0 {
      GeometricSum(b, k - 1);
      assert Power(b, k) == b * Power(b, k - 1);
      assert Geometric(b, k) * (b - 1.0) == Geometric(b, k - 1) * (b - 1.0) + Power(b, k - 1) * (b - 1.0);
    }
  }

  lemma {:induction false} PowerPositive(b: real, k: nat)
    requires b >= 0.0
    ensures Power(b, k) >= 0.0
  {
    if k > 0 { PowerPositive(b, k - 1); }
  }

  /** The sum of the pauses after the first `k` failures. */
  function TotalDelay(c: Config, k: nat): int {
    if k == 0 then 0 else TotalDelay(c, k - 1) + Delay(c, k)
  }

  /** It is less than the geometric sum by less than one second for each pause. */
  lemma {:induction false} TotalIsGeometric(c: Config, k: nat)
    requires c.interval >= 0.0 && c.backoff >= 0.0
    ensures TotalDelay(c, k) as real <= c.interval * Geometric(c.backoff, k) <= TotalDelay(c, k) as real + k as real
  {
    if k > 0 {
      TotalIsGeometric(c, k - 1);
      PowerPositive(c.backoff, k - 1);
      var x, y := c.interval * Power(c.backoff, k - 1), c.interval * Geometric(c.backoff, k - 1);
      PauseExactly(c, k, x, Delay(c, k));
      assert c.interval * Geometric(c.backoff, k) == y + x && x >= 0.0;
    }
  }

  lemma {:induction false} PacedSum(c: Config, a: seq<int>, f: seq<int>, clock: int, k: nat)
    requires Paced(c, a, f, clock) && 0 < k < |a|
    ensures a[k] >= f[0] + TotalDelay(c, k) * NANOS
  {
    if k > 1 {
      PacedSum(c, a, f, clock, k - 1);
      assert TotalDelay(c, k) * NANOS == TotalDelay(c, k - 1) * NANOS + Delay(c, k) * NANOS;
    }
  }

  /** Unless it is sent out after it failed for good, attempt k+1 of a step object starts
      no earlier than its k-th failure plus the whole seconds of the interval times the
      backoff factor to the power k-1, and than its first failure plus its first k pauses. */
  lemma Backoff(c: Config, ws: seq<World>, es: seq<Runner.Event>, i: nat, st: StepId, k: nat, x: real, p: int)
    requires WorldRun(c, ws, es) && i < |ws| && 0 < k < |Starts(ws[i].s, st)| && !SentAgain(c, ws, es, i, st)
    requires x == c.interval * Power(c.backoff, k - 1) && WholePart(x, p)
    ensures |Fails(ws[i].s, st)| >= k
    ensures Starts(ws[i].s, st)[k] >= Fails(ws[i].s, st)[k - 1] + p * 1_000_000_000
    ensures Starts(ws[i].s, st)[k] >= Fails(ws[i].s, st)[0] + TotalDelay(c, k) * 1_000_000_000
  {
    RunPaced(c, ws, es, i, st);
    PacedPause(c, Starts(ws[i].s, st), Fails(ws[i].s, st), ws[i].s.clock, k, x, p);
    PacedSum(c, Starts(ws[i].s, st), Fails(ws[i].s, st), ws[i].s.clock, k);
  }

  /** Attempt k+1 starts no earlier than the first failure plus the geometric sum of the
      first k pauses, up to one second for each. */
  lemma BackoffSum(c: Config, ws: seq<World>, es: seq<Runner.Event>, i: nat, st: StepId, k: nat, sum: real)
    requires WorldRun(c, ws, es) && i < |ws| && 0 < k < |Starts(ws[i].s, st)| && !SentAgain(c, ws, es, i, st)
    requires c.interval >= 0.0 && c.backoff >= 0.0 && sum == c.interval * Geometric(c.backoff, k)
    ensures |Fails(ws[i].s, st)| > 0
    ensures Starts(ws[i].s, st)[k] as real
         >= Fails(ws[i].s, st)[0] as real + (sum - k as real) * 1_000_000_000.0
  {
    RunPaced(c, ws, es, i, st);
    PacedTotal(c, Starts(ws[i].s, st), Fails(ws[i].s, st), ws[i].s.clock, k, sum);
  }

  lemma RunPaced(c: Config, ws: seq<World>, es: seq<Runner.Event>, i: nat, st: StepId)
    requires WorldRun(c, ws, es) && i < |ws| && !SentAgain(c, ws, es, i, st)
    ensures Paced(c, Starts(ws[i].s, st), Fails(ws[i].s, st), ws[i].s.clock)
  {
    WorldSound(c, ws, es, i);
    HistoryMeans(c, ws, es, i, st);
    assert PaceOk(c, ws[i].s, st);
  }

  lemma PacedPause(c: Config, a: seq<int>, f: seq<int>, clock: int, k: nat, x: real, p: int)
    requires Paced(c, a, f, clock) && 0 < k < |a| && x == c.interval * Power(c.backoff, k - 1) && WholePart(x, p)
    ensures |f| >= k && a[k] >= f[k - 1] + p * 1_000_000_000
  {
    PauseExactly(c, k, x, p);
  }

  lemma PacedTotal(c: Config, a: seq<int>, f: seq<int>, clock: int, k: nat, sum: real)
    requires Paced(c, a, f, clock) && 0 < k < |a| && c.interval >= 0.0 && c.backoff >= 0.0
    requires sum == c.interval * Geometric(c.backoff, k)
    ensures a[k] as real >= f[0] as real + (sum - k as real) * 1_000_000_000.0
  {
    PacedSum(c, a, f, clock, k);
    TotalIsGeometric(c, k);
    InNanos(a[k], f[0], TotalDelay(c, k), sum - k as real);
  }

  lemma InNanos(a: int, f: int, t: int, y: real)
    requires a >= f + t * 1_000_000_000 && t as real >= y
    ensures a as real >= f as real + y * 1_000_000_000.0
  {
    assert (f + t * 1_000_000_000) as real == f as real + t as real * 1_000_000_000.0;
  }

  // ---- out for good ----

  /** Nothing in the queues or in the hands of the dispatch loop leads to the step, and
      the loop will not collect it again. */
  ghost predicate Out(w: World, st: StepId) {
    && st in w.g.steps && (Tries(w.s, st) > 0 || !Registered(w.g, st))
    && st !in Offered(w.s.dispatcher)
    && forall i :: Waits(w.s, i) ==> w.s.infos[i].step != st
  }

  lemma InsertNoWaits(c: Config, w: World, st: StepId, p: Path, i: InfoId, order: seq<InfoId>, x: StepId)
    requires Sound(c, w) && MayInsert(c, w, st, p, i, order) && Out(w, x)
    ensures Out(w.(s := DoInsert(c, w.s, st, p, i, order)), x)
  {
    var h := w.(s := DoInsert(c, w.s, st, p, i, order));
    forall y | Waits(h.s, y) ensures h.s.infos[y].step != x { InsertLive(c, w.s, st, p, i, order, y); }
  }

  lemma ApartTries(c: Config, s: Sched, p: Path, r: BuildResultState, id: TaskId, now: int, h: Sched, st: StepId)
    requires IsApart(c, s, p, r, id, now, h)
    ensures Tries(h, st) >= Tries(s, st) && h.dispatcher == s.dispatcher
  {
    if p in s.scheduled { ApartTables(c, s, p, r, id, now); }
  }

  /** The number of tries does not fall, and the loop collects the step only on purpose. */
  predicate TriedAndOffered(s: Sched, h: Sched, op: Op, st: StepId) {
    && Tries(h, st) >= Tries(s, st)
    && (st in Offered(h.dispatcher) ==> st in Offered(s.dispatcher) || (op.Offer? && op.st == st))
  }

  lemma CountingTries(c: Config, s: Sched, op: Op, st: StepId)
    requires Can(c, s, op) && (op.Act? || op.Drain? || op.Send?)
    ensures TriedAndOffered(s, Do(c, s, op), op, st)
  {
    match op
    case Act(k, id, now) =>
      ActIs(c, s, k, id, now);
      ApartTries(c, s, s.calls[k].path, s.calls[k].outcome, id, now, DoAct(c, s, k, id, now), st);
    case Drain(m, id, now) =>
      DrainIs(c, s, m, id, now);
      ApartTries(c, s, s.draining[m][0], PreparingFailure, id, now, DoDrain(c, s, m, id, now), st);
    case Send(u, now) => assert TriedAndOffered(s, SendOut(s, u, now), op, st);
  }

  lemma FramedTries(s: Sched, h: Sched, op: Op, st: StepId)
    requires AllFramed(s, h, op)
    ensures TriedAndOffered(s, h, op, st)
  {
  }

  /** Tries are never taken back, and the loop only collects steps without tries. */
  lemma TriesStay(c: Config, s: Sched, op: Op, st: StepId)
    requires Agreement(c, s) && Can(c, s, op) && !op.Insert?
    ensures TriedAndOffered(s, Do(c, s, op), op, st)
  {
    if Counting(op) {
      CountingTries(c, s, op, st);
    } else {
      OpFrame(c, s, op);
      FramedTries(s, Do(c, s, op), op, st);
    }
  }

  lemma EffectStaysOut(c: Config, w: World, e: Runner.Event, st: StepId)
    requires Sound(c, w) && Allowed(c, w, e) && Out(w, st)
    ensures Out(Effect(c, w, e), st)
  {
    EffectLater(c, w, e);
    assert LaterAt(w.g, Effect(c, w, e).g, st);
    if e.Moves? { MoveStaysOut(c, w, e.op, st); }
  }

  lemma MoveStaysOut(c: Config, w: World, op: Op, st: StepId)
    requires Sound(c, w) && Allowed(c, w, Moves(op)) && Out(w, st) && LaterAt(w.g, GraphAfter(w, op), st)
    ensures Out(World(GraphAfter(w, op), Do(c, w.s, op)), st)
  {
    if op.Insert? {
      InsertNoWaits(c, w, op.st, op.p, op.i, op.order, st);
    } else {
      TriesStay(c, w.s, op, st);
      DoFewer(c, w.s, op);
    }
  }

  lemma RunStaysOut(c: Config, ws: seq<World>, es: seq<Runner.Event>, k: nat, st: StepId)
    requires WorldRun(c, ws, es) && k < |es| && Out(ws[k], st)
    ensures Out(ws[k + 1], st)
  {
    WorldSound(c, ws, es, k);
    assert WorldNext(c, ws, es, k);
    EffectStaysOut(c, ws[k], es[k], st);
  }

  lemma OutNotSent(c: Config, ws: seq<World>, es: seq<Runner.Event>, k: nat, st: StepId)
    requires WorldRun(c, ws, es) && k < |es| && Out(ws[k], st)
    ensures !Sends(ws, es, k, st)
  {
    WorldSound(c, ws, es, k);
    if Sends(ws, es, k, st) { HandApart(c, ws[k].s); }
  }

  /** A step that is out is never sent to a machine again. */
  lemma {:induction false} OutNeverSent(c: Config, ws: seq<World>, es: seq<Runner.Event>, k: nat, l: nat, st: StepId)
    requires WorldRun(c, ws, es) && k <= l < |ws| && Out(ws[k], st)
    ensures Out(ws[l], st) && (l < |es| ==> !Sends(ws, es, l, st))
    decreases l - k
  {
    if k < l {
      OutNeverSent(c, ws, es, k, l - 1, st);
      RunStaysOut(c, ws, es, l - 1, st);
    }
    if l < |es| { OutNotSent(c, ws, es, l, st); }
  }

  /** A step that is out is not being built: a scheduled entry and one just sent can be
      followed in their queues. */
  lemma OutNotRunning(c: Config, w: World, st: StepId)
    requires Agreement(c, w.s) && Out(w, st)
    ensures !Running(w, st)
  {
    var p := StepPath(w.g, st);
    if p in w.s.scheduled { ItemRefs(c, w.s, p); }
    if w.s.dispatcher.Sent? { assert HeldOk(w.s, w.s.dispatcher.info); }
  }

  lemma ResolveFinished(g: Graph, s: StepId, d: StepId, u: StepId)
    requires s in g.steps && d in g.steps && g.steps[s].phase.Expanding? && u in g.steps
    ensures u in Resolve(g, s, d).steps && Resolve(g, s, d).steps[u].finished == g.steps[u].finished
  {
    var h := Resolve(g, s, d);
    if h != Settle(g, s, d) && h != Record(g, s, d) {
      assert h == Put(g, s, g.steps[s].(phase := Stopped(true)));
    }
  }

  /** Only its completion finishes a runnable step. */
  lemma OnlyFinishes(g: Graph, e: StepGraph.Event, x: StepId)
    requires Inv(g) && Enabled(g, e) && x in g.steps && g.steps[x].runnable && !g.steps[x].finished && e != Finish(x)
    ensures x in Apply(g, e).steps && !Apply(g, e).steps[x].finished
  {
    assert NodeOk(g, x);
    if e.ResolveKnown? || e.ResolveFresh? { ResolveFinished(g, e.s, e.d, x); }
  }

  lemma EventUnfinished(c: Config, w: World, e: Runner.Event, x: StepId)
    requires Sound(c, w) && Allowed(c, w, e) && x in w.g.steps && w.g.steps[x].runnable && !w.g.steps[x].finished
    requires !Running(w, x)
    ensures x in Effect(c, w, e).g.steps && !Effect(c, w, e).g.steps[x].finished
  {
    GraphPartIs(c, w, e);
    if GraphPart(w, e) != [] {
      NotFinishing(c, w, e, x);
      OnlyFinishes(w.g, GraphPart(w, e)[0], x);
    }
  }

  lemma NotFinishing(c: Config, w: World, e: Runner.Event, x: StepId)
    requires Sound(c, w) && Allowed(c, w, e) && !Running(w, x) && GraphPart(w, e) != []
    ensures GraphPart(w, e)[0] != Finish(x)
  {
    if e.Moves? && e.op.Act? && Succeeds(w.s, e.op.k) { ScheduledStep(c, w, w.s.calls[e.op.k].path); }
  }

  /** Nobody builds the step, and nobody will. */
  ghost predicate GivenUp(w: World, st: StepId) {
    Out(w, st) && w.g.steps[st].runnable && !w.g.steps[st].finished
  }

  lemma StaysGivenUp(c: Config, ws: seq<World>, es: seq<Runner.Event>, k: nat, st: StepId)
    requires WorldRun(c, ws, es) && k < |es| && GivenUp(ws[k], st)
    ensures GivenUp(ws[k + 1], st)
  {
    WorldSound(c, ws, es, k);
    assert WorldNext(c, ws, es, k);
    RunStaysOut(c, ws, es, k, st);
    OutNotRunning(c, ws[k], st);
    EffectLater(c, ws[k], es[k]);
    assert LaterAt(ws[k].g, ws[k + 1].g, st);
    EventUnfinished(c, ws[k], es[k], st);
  }

  /** A step that is out is never finished. */
  lemma {:induction false} OutNeverFinishes(c: Config, ws: seq<World>, es: seq<Runner.Event>, k: nat, l: nat,
      st: StepId)
    requires WorldRun(c, ws, es) && k <= l < |ws| && GivenUp(ws[k], st)
    ensures GivenUp(ws[l], st)
    decreases l - k
  {
    if k < l {
      OutNeverFinishes(c, ws, es, k, l - 1, st);
      StaysGivenUp(c, ws, es, l - 1, st);
    }
  }

  /** So whatever waits for it, directly or not, never becomes runnable. */
  lemma WaitsForEver(c: Config, ws: seq<World>, es: seq<Runner.Event>, k: nat, l: nat, s: StepId, st: StepId)
    requires WorldRun(c, ws, es) && k <= l < |ws| && GivenUp(ws[k], st)
    requires s != st && Reaches(DepEdges(ws[k].g), s, st)
    ensures s in ws[l].g.steps && !ws[l].g.steps[s].runnable && !ws[l].g.steps[s].finished
  {
    OutNeverFinishes(c, ws, es, k, l, st);
    WorldSound(c, ws, es, k);
    WorldSound(c, ws, es, l);
    WorldLater(c, ws, es, k, l);
    WaitsBelow(ws[k].g, ws[l].g, s, st);
  }

  // ---- a failure in flight ----

  /** When the task of a failure for good ends, its step has left the registry. It is
      out if and only if nothing else holds its info by then, and it is not among the
      steps that the dispatch loop collected before. */
  lemma FailureEnds(c: Config, w: World, id: TaskId)
    requires Sound(c, w) && Allowed(c, w, Moves(End(id))) && w.s.tasks[id].Failing?
    ensures var h := Effect(c, w, Moves(End(id)));
      var i := w.s.tasks[id].info;
      && i in w.s.infos
      && var st := w.s.infos[i].step;
         && st in w.s.doomed && st in h.g.steps && !Registered(h.g, st)
         && (Out(h, st) <==> !Live(h.s, i) && st !in Offered(w.s.dispatcher))
  {
    var h := Effect(c, w, Moves(End(id)));
    var i := w.s.tasks[id].info;
    assert i in InTasks(w.s);
    assert HeldOk(w.s, i) && TaskOk(w, id) && LinkOk(w, i);
    OpFrame(c, w.s, End(id));
    forall x | Waits(h.s, x) && h.s.infos[x].step == w.s.infos[i].step ensures x == i {
      assert LinkOk(w, x) && UniqueOk(w.s, x, i);
    }
  }

  /** Until then its entry is dispatched like any other: as soon as the loop comes to an
      entry that is not scheduled and due, of an unfinished step, and a machine is free,
      the step is sent out, also if it has failed for good. */
  lemma InFlightIsSent(c: Config, w: World, i: InfoId, m: MachineId, u: Uuid, t0: int, now: int)
    requires Sound(c, w) && w.s.dispatcher == IDLE && Waits(w.s, i) && !w.s.infos[i].already
    requires w.s.infos[i].step in w.g.steps && !w.g.steps[w.s.infos[i].step].finished
    requires After(w.s, w.s.infos[i].step) <= t0 <= now && w.s.clock <= now && HasRoom(c, w.s, m) && u !in w.s.used
    ensures MayPick(c, w, i, m, t0, now) && CanSend(DoPick(w.s, i, m, now), u, now)
    ensures var w1 := w.(s := DoPick(w.s, i, m, now));
      && SendsNow(w1, Moves(Send(u, now)), w.s.infos[i].step)
      && (w.s.infos[i].step in w.s.doomed ==> w.s.infos[i].step in SendOut(w1.s, u, now).resent)
  {
  }

  /** The job waits again in its queue, with the failure counted and tries to spare. */
  predicate WaitsAgain(c: Config, s: Sched, h: Sched, i: InfoId, id: TaskId) {
    && i in s.infos && id in h.tasks && h.tasks[id] == Retrying(i) && Waits(h, i) && !h.infos[i].already
    && (Owned(s, i) && s.infos[i].path in s.jobs && s.jobs[s.infos[i].path] == i ==> Owned(h, i))
    && Tries(h, s.infos[i].step) == Tries(s, s.infos[i].step) + 1 < c.maxRetries
  }

  /** A failure of a scheduled path lets it wait again exactly when the failure allows a
      retry and tries are left. Otherwise a task is left that fails it for good. */
  lemma FailedOrWaiting(c: Config, w: World, op: Op)
    requires Sound(c, w) && Allowed(c, w, Moves(op)) && (op.Act? || op.Drain?)
    requires Target(c, w.s, op)[0] in w.s.scheduled && !Outcome(c, w.s, op).Success?
    ensures var h := Effect(c, w, Moves(op));
      var p, r := Target(c, w.s, op)[0], Outcome(c, w.s, op);
      && Followable(w.s, p) && p !in h.s.scheduled && h.g == w.g
      && var i, st := w.s.scheduled[p].info, StepOf(w.s, p);
         && st in h.g.steps && !h.g.steps[st].finished
         && if CanRetry(r) && Tries(w.s, st) + 1 < c.maxRetries
            then WaitsAgain(c, w.s, h.s, i, op.id)
            else op.id in h.s.tasks && h.s.tasks[op.id] == Failing(i, false, false) && st in h.s.doomed
  {
    var p, r := Target(c, w.s, op)[0], Outcome(c, w.s, op);
    ScheduledStep(c, w, p);
    match op
    case Act(k, id, now) => FailedParts(c, w, p, r, id, now, Do(c, w.s, op));
    case Drain(m, id, now) => FailedParts(c, w, p, r, id, now, Do(c, w.s, op));
  }

  lemma FailedParts(c: Config, w: World, p: Path, r: BuildResultState, id: TaskId, now: int, h: Sched)
    requires Sound(c, w) && p in w.s.scheduled && Followable(w.s, p) && !r.Success? && id !in w.s.tasks
    requires h == Apart(c, w.s, p, r, id, now).(calls := h.calls, draining := h.draining)
    ensures var i, st := w.s.scheduled[p].info, StepOf(w.s, p);
      && p !in h.scheduled && id in h.tasks
      && if CanRetry(r) && Tries(w.s, st) + 1 < c.maxRetries
         then WaitsAgain(c, w.s, h, i, id)
         else h.tasks[id] == Failing(i, false, false) && st in h.doomed
  {
    ApartTables(c, w.s, p, r, id, now);
    ItemRefs(c, w.s, p);
    ScheduledStep(c, w, p);
    var i := w.s.scheduled[p].info;
    assert h.tasks[id].info == i;
    assert i in InTasks(h);
    assert Entries(h, w.s.infos[i].system) == Entries(w.s, w.s.infos[i].system);
  }
}
