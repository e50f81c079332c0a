/** Where infos and calls come from, and that only a report of success finishes a step. */
module RunnerReports {
  import opened StepGraph
  import opened StepGraphInvariant
  import opened StepGraphTheorems
  import StepGraphInputs
  import opened Scheduling
  import opened SchedulingInvariant
  import opened SchedulingFrames
  import opened Runner
  import opened RunnerInvariant
  import opened RunnerTheorems

  // ---- calls ----

  /** The operation is a report of a job that its machine has, or a cancellation. */
  predicate MakesCall(s: Sched, op: Op, k: CallId, call: Call) {
    || (op.Report? && op.k == k && ReportTarget(s, op.m, op.u) == [call.path] && op.r == call.outcome)
    || (op.Kill? && op.k == k && op.p == call.path && call.outcome == Cancelled)
  }

  lemma OtherCalls(c: Config, s: Sched, op: Op)
    requires Can(c, s, op) && !op.Report? && !op.Kill? && !op.Act?
    ensures Do(c, s, op).calls == s.calls
  {
    match op
    case Insert(st, p, i, order) => assert DoInsert(c, s, st, p, i, order).calls == s.calls;
    case Send(u, now) => assert SendOut(s, u, now).calls == s.calls;
    case Schedule => assert DoSchedule(s).calls == s.calls;
    case Discard => assert DoDiscard(s).calls == s.calls;
    case DropAborted(st, p) => assert DoDropAborted(s, st, p).calls == s.calls;
    case Remove(id) => assert DoRemove(s, id).calls == s.calls;
    case Drain(m, id, now) => DrainIs(c, s, m, id, now);
    case _ =>
  }

  lemma ReportMakes(s: Sched, m: MachineId, u: Uuid, r: BuildResultState, x: CallId, k: CallId)
    requires k in DoReport(s, m, u, r, x).calls
    ensures var call := DoReport(s, m, u, r, x).calls[k];
      (k in s.calls && s.calls[k] == call) || MakesCall(s, Report(m, u, r, x), k, call)
  {
  }

  lemma KillMakes(s: Sched, p: Path, x: CallId, k: CallId)
    requires k in DoKill(s, p, x).calls
    ensures var call := DoKill(s, p, x).calls[k];
      (k in s.calls && s.calls[k] == call) || MakesCall(s, Kill(p, x), k, call)
  {
  }

  /** A call that is there after an operation was there before or is made by it. */
  predicate CallFrom(s: Sched, op: Op, k: CallId, h: Sched) {
    k in h.calls ==> (k in s.calls && s.calls[k] == h.calls[k]) || MakesCall(s, op, k, h.calls[k])
  }

  lemma CallByOp(c: Config, s: Sched, op: Op, k: CallId)
    requires Can(c, s, op)
    ensures CallFrom(s, op, k, Do(c, s, op))
  {
    match op
    case Report(m, u, r, x) => if k in DoReport(s, m, u, r, x).calls { ReportMakes(s, m, u, r, x, k); }
    case Kill(p, x) => if k in DoKill(s, p, x).calls { KillMakes(s, p, x, k); }
    case Act(x, id, now) => ActIs(c, s, x, id, now);
    case _ => OtherCalls(c, s, op);
  }

  /** Every call that waits for its turn was made by a report of its outcome for a job of its
      path, or by a cancellation. */
  lemma {:induction false} CallOrigin(c: Config, ws: seq<World>, es: seq<Runner.Event>, i: nat, k: CallId)
    requires WorldRun(c, ws, es) && i < |ws| && k in ws[i].s.calls
    ensures exists a :: 0 <= a < i && es[a].Moves? && MakesCall(ws[a].s, es[a].op, k, ws[i].s.calls[k])
  {
    if i > 0 {
      assert WorldNext(c, ws, es, i - 1);
      if es[i - 1].Moves? { CallByOp(c, ws[i - 1].s, es[i - 1].op, k); }
      if !(es[i - 1].Moves? && MakesCall(ws[i - 1].s, es[i - 1].op, k, ws[i].s.calls[k])) {
        CallOrigin(c, ws, es, i - 1, k);
        var a :| 0 <= a < i - 1 && es[a].Moves? && MakesCall(ws[a].s, es[a].op, k, ws[i - 1].s.calls[k]);
      }
    }
  }

  // ---- what finishes a step ----

  /** The operation is the turn of a successful call whose path is scheduled for the step. */
  predicate Completes(s: Sched, op: Op, st: StepId) {
    op.Act? && Succeeds(s, op.k) && StepOf(s, s.calls[op.k].path) == st
  }

  predicate Built(g: Graph, st: StepId) { st in g.steps && g.steps[st].runnable && g.steps[st].finished }

  lemma BuiltBeforeWake(g: Graph, e: StepGraph.Event, st: StepId)
    requires NodeOk(g, st) && Enabled(g, e) && (e.Wake? || e.Sweep?) && Built(Apply(g, e), st)
    ensures Built(g, st)
  {
  }

  lemma BuiltBeforeOther(g: Graph, e: StepGraph.Event, st: StepId)
    requires NodeOk(g, st) && Enabled(g, e) && !e.Finish? && !e.Wake? && !e.Sweep?
    requires !e.ResolveKnown? && !e.ResolveFresh? && Built(Apply(g, e), st)
    ensures Built(g, st)
  {
  }

  lemma BuiltBefore(g: Graph, e: StepGraph.Event, st: StepId)
    requires NodeOk(g, st) && Enabled(g, e) && !e.Finish? && Built(Apply(g, e), st)
    ensures Built(g, st)
  {
    if e.Wake? || e.Sweep? {
      BuiltBeforeWake(g, e, st);
    } else if e.ResolveKnown? || e.ResolveFresh? {
      StepGraphInputs.ResolveLooks(g, e.s, e.d);
    } else {
      BuiltBeforeOther(g, e, st);
    }
  }

  lemma BuiltByMove(c: Config, w: World, op: Op, st: StepId)
    requires Inv(w.g) && Can(c, w.s, op) && GraphCan(w, op) && Built(GraphAfter(w, op), st)
    ensures Built(w.g, st) || Completes(w.s, op, st)
  {
    assert NodeOk(w.g, st);
    match op
    case CachePass(v) => BuiltBefore(w.g, Fail(w.s.infos[w.s.dispatcher.info].step, v), st);
    case AbortPass(x, v) => BuiltBefore(w.g, Fail(x, v), st);
    case TaskPass(id, v) => BuiltBefore(w.g, Fail(w.s.infos[w.s.tasks[id].info].step, v), st);
    case Act(k, _, _) =>
    case _ =>
  }

  lemma BuiltByEvent(c: Config, w: World, e: Runner.Event, st: StepId)
    requires Sound(c, w) && Allowed(c, w, e) && Built(Effect(c, w, e).g, st)
    ensures Built(w.g, st) || (e.Moves? && Completes(w.s, e.op, st))
  {
    assert NodeOk(w.g, st);
    match e
    case GraphEvent(x) => BuiltBefore(w.g, x, st);
    case Moves(op) => BuiltByMove(c, w, op, st);
  }

  lemma CompletingBuilds(c: Config, w: World, op: Op, st: StepId)
    requires Inv(w.g) && Allowed(c, w, Moves(op)) && Completes(w.s, op, st)
    ensures Built(Effect(c, w, Moves(op)).g, st)
  {
  }

  lemma BuiltKept(g: Graph, h: Graph, st: StepId)
    requires Later(g, h) && Built(g, st)
    ensures Built(h, st)
  {
    assert LaterAt(g, h, st);
  }

  lemma BuiltNext(c: Config, ws: seq<World>, es: seq<Runner.Event>, i: nat, st: StepId)
    requires WorldRun(c, ws, es) && i < |es|
    ensures Built(ws[i + 1].g, st) <==> Built(ws[i].g, st) || (es[i].Moves? && Completes(ws[i].s, es[i].op, st))
  {
    WorldSound(c, ws, es, i);
    assert WorldNext(c, ws, es, i);
    if Built(ws[i + 1].g, st) {
      BuiltByEvent(c, ws[i], es[i], st);
    } else {
      if Built(ws[i].g, st) {
        EffectLater(c, ws[i], es[i]);
        BuiltKept(ws[i].g, ws[i + 1].g, st);
      }
      if es[i].Moves? && Completes(ws[i].s, es[i].op, st) { CompletingBuilds(c, ws[i], es[i].op, st); }
    }
  }

  /** A runnable step is finished if and only if a call of success acted on it before. */
  lemma {:induction false} FinishedExactly(c: Config, ws: seq<World>, es: seq<Runner.Event>, i: nat, st: StepId)
    requires WorldRun(c, ws, es) && i < |ws|
    ensures Built(ws[i].g, st) <==> exists b :: 0 <= b < i && es[b].Moves? && Completes(ws[b].s, es[b].op, st)
  {
    if i > 0 {
      BuiltNext(c, ws, es, i - 1, st);
      FinishedExactly(c, ws, es, i - 1, st);
      if b :| 0 <= b < i && es[b].Moves? && Completes(ws[b].s, es[b].op, st) {
        assert b == i - 1 || b < i - 1;
      }
    }
  }

  /** Event `a` is a machine's report of success for a job of the path, made by call `k`. */
  predicate ReportsSuccess(s: Sched, op: Op, k: CallId, p: Path) {
    op.Report? && op.r.Success? && op.k == k && ReportTarget(s, op.m, op.u) == [p]
  }

  /** No step is finished without a machine that reported the success of a job of its path
      while it had that job; the step was scheduled when the turn of the report came. */
  lemma FinishedByReport(c: Config, ws: seq<World>, es: seq<Runner.Event>, i: nat, st: StepId)
    requires WorldRun(c, ws, es) && i < |ws| && Built(ws[i].g, st)
    ensures exists a, b ::
      && 0 <= a < b < i && es[a].Moves? && es[b].Moves? && Completes(ws[b].s, es[b].op, st)
      && ReportsSuccess(ws[a].s, es[a].op, es[b].op.k, ws[b].s.calls[es[b].op.k].path)
  {
    FinishedExactly(c, ws, es, i, st);
    var b :| 0 <= b < i && es[b].Moves? && Completes(ws[b].s, es[b].op, st);
    CallOrigin(c, ws, es, b, es[b].op.k);
    var a :| 0 <= a < b && es[a].Moves? && MakesCall(ws[a].s, es[a].op, es[b].op.k, ws[b].s.calls[es[b].op.k]);
    assert ReportsSuccess(ws[a].s, es[a].op, es[b].op.k, ws[b].s.calls[es[b].op.k].path);
  }

  /** When the completion of a step ends, no live step waits for it any longer. */
  lemma CompletionWakes(c: Config, ws: seq<World>, es: seq<Runner.Event>, k: nat, id: TaskId, u: StepId)
    requires WorldRun(c, ws, es) && k < |es| && es[k] == Moves(End(id)) && id in ws[k].s.tasks
    requires ws[k].s.tasks[id].Completing? && ws[k].s.tasks[id].info in ws[k].s.infos
    ensures var st, g := ws[k].s.infos[ws[k].s.tasks[id].info].step, ws[k].g;
      && st in g.steps && g.steps[st].finished
      && (u in g.live && u in g.steps ==> st !in g.steps[u].deps)
  {
    WorldSound(c, ws, es, k);
    assert WorldNext(c, ws, es, k);
    var i, g := ws[k].s.tasks[id].info, ws[k].g;
    var st := ws[k].s.infos[i].step;
    assert i in InTasks(ws[k].s) && LinkOk(ws[k], i) && TaskOk(ws[k], id);
    assert NodeOk(g, st) && EdgeOk(g, st, u);
  }

  // ---- infos ----

  lemma InfoByOp(c: Config, s: Sched, op: Op, i: InfoId)
    requires Agreement(c, s) && Can(c, s, op) && i in Do(c, s, op).infos
    ensures if i in s.infos then Do(c, s, op).infos[i].step == s.infos[i].step
      else op.Insert? && op.i == i && Do(c, s, op).infos[i].step == op.st
  {
    if op.Insert? {
      assert Do(c, s, op).infos == DoInsert(c, s, op.st, op.p, op.i, op.order).infos;
    } else {
      DoFewer(c, s, op);
    }
  }

  lemma OtherOffers(c: Config, s: Sched, op: Op, st: StepId)
    requires Can(c, s, op) && !LoopOp(op) && st in Offered(Do(c, s, op).dispatcher)
    ensures st in Offered(s.dispatcher)
  {
    match op
    case Act(k, id, now) => ActKeepsLoop(c, s, k, id, now);
    case Drain(m, id, now) => DrainKeepsLoop(c, s, m, id, now);
    case _ =>
  }

  lemma ActKeepsLoop(c: Config, s: Sched, k: CallId, id: TaskId, now: int)
    requires CanAct(s, k, id, now)
    ensures DoAct(c, s, k, id, now).dispatcher == s.dispatcher
  {
  }

  lemma DrainKeepsLoop(c: Config, s: Sched, m: MachineId, id: TaskId, now: int)
    requires CanDrain(s, m, id, now)
    ensures DoDrain(c, s, m, id, now).dispatcher == s.dispatcher
  {
  }

  lemma OfferByOp(c: Config, s: Sched, op: Op, st: StepId)
    requires Can(c, s, op) && st in Offered(Do(c, s, op).dispatcher)
    ensures st in Offered(s.dispatcher) || op == Offer(st)
  {
    if !LoopOp(op) { OtherOffers(c, s, op, st); }
  }

  /** The loop collects a registered runnable step that was never retried. */
  predicate Collects(w: World, e: Runner.Event, st: StepId) {
    e == Moves(Offer(st)) && Ready(w.g, st) && Registered(w.g, st) && Tries(w.s, st) == 0
  }

  /** The step, still unfinished, gets the info. */
  predicate Inserts(w: World, e: Runner.Event, st: StepId, i: InfoId) {
    && e.Moves? && e.op.Insert? && e.op.st == st && e.op.i == i && i !in w.s.infos
    && st in w.g.steps && !w.g.steps[st].finished && e.op.p == w.g.steps[st].path && e.op.p !in w.s.jobs
  }

  lemma {:induction false} OfferOrigin(c: Config, ws: seq<World>, es: seq<Runner.Event>, k: nat, st: StepId)
    requires WorldRun(c, ws, es) && k < |ws| && st in Offered(ws[k].s.dispatcher)
    ensures exists a :: 0 <= a < k && Collects(ws[a], es[a], st)
  {
    if k > 0 {
      assert WorldNext(c, ws, es, k - 1);
      if !Collects(ws[k - 1], es[k - 1], st) {
        if es[k - 1].Moves? { OfferByOp(c, ws[k - 1].s, es[k - 1].op, st); }
        OfferOrigin(c, ws, es, k - 1, st);
      }
    }
  }

  lemma InfoNext(c: Config, ws: seq<World>, es: seq<Runner.Event>, k: nat, i: InfoId)
    requires WorldRun(c, ws, es) && k < |es| && i in ws[k + 1].s.infos
    ensures var st := ws[k + 1].s.infos[i].step;
      || (i in ws[k].s.infos && ws[k].s.infos[i].step == st)
      || (Inserts(ws[k], es[k], st, i) && st in Offered(ws[k].s.dispatcher))
  {
    WorldSound(c, ws, es, k);
    assert WorldNext(c, ws, es, k);
    if es[k].Moves? { InfoByOp(c, ws[k].s, es[k].op, i); }
  }

  /** Every info in the queues was made for a step that the loop had collected while it was
      registered, runnable and never retried, and that was unfinished and had no owner. */
  lemma {:induction false} InfoOrigin(c: Config, ws: seq<World>, es: seq<Runner.Event>, k: nat, i: InfoId)
    requires WorldRun(c, ws, es) && k < |ws| && i in ws[k].s.infos
    ensures exists a, b ::
      && 0 <= a < b < k && Collects(ws[a], es[a], ws[k].s.infos[i].step)
      && Inserts(ws[b], es[b], ws[k].s.infos[i].step, i)
  {
    if k > 0 {
      var st := ws[k].s.infos[i].step;
      InfoNext(c, ws, es, k - 1, i);
      if Inserts(ws[k - 1], es[k - 1], st, i) && st in Offered(ws[k - 1].s.dispatcher) {
        OfferOrigin(c, ws, es, k - 1, st);
        var a :| 0 <= a < k - 1 && Collects(ws[a], es[a], st);
      } else {
        InfoOrigin(c, ws, es, k - 1, i);
      }
    }
  }

  lemma OfferKept(c: Config, s: Sched, op: Op, st: StepId)
    requires Can(c, s, op) && st in Offered(s.dispatcher) && !(op.Insert? && op.st == st) && op != Reject(st)
    ensures st in Offered(Do(c, s, op).dispatcher)
  {
    if !LoopOp(op) { OthersKeepOffers(c, s, op, st); }
  }

  lemma OthersKeepOffers(c: Config, s: Sched, op: Op, st: StepId)
    requires Can(c, s, op) && !LoopOp(op) && st in Offered(s.dispatcher)
    ensures st in Offered(Do(c, s, op).dispatcher)
  {
    match op
    case Act(k, id, now) => ActKeepsLoop(c, s, k, id, now);
    case Drain(m, id, now) => DrainKeepsLoop(c, s, m, id, now);
    case _ =>
  }

  /** The step gets an info, or its path has an owner, or it is finished. */
  predicate SettlesOffer(w: World, e: Runner.Event, st: StepId) {
    && e.Moves? && st in w.g.steps
    && ((e.op.Insert? && Inserts(w, e, st, e.op.i))
        || (e.op == Reject(st) && (w.g.steps[st].path in w.s.jobs || w.g.steps[st].finished)))
  }

  /** What was collected is not let go of otherwise. */
  lemma {:induction false} OfferOutcome(c: Config, ws: seq<World>, es: seq<Runner.Event>, k: nat, l: nat, st: StepId)
    requires WorldRun(c, ws, es) && k <= l < |ws|
    requires st in Offered(ws[k].s.dispatcher) && st !in Offered(ws[l].s.dispatcher)
    ensures exists b :: k <= b < l && SettlesOffer(ws[b], es[b], st)
    decreases l - k
  {
    assert WorldNext(c, ws, es, l - 1);
    if st !in Offered(ws[l - 1].s.dispatcher) {
      OfferOutcome(c, ws, es, k, l - 1, st);
    } else {
      if es[l - 1].Moves? && !(es[l - 1].op.Insert? && es[l - 1].op.st == st) && es[l - 1].op != Reject(st) {
        OfferKept(c, ws[l - 1].s, es[l - 1].op, st);
      }
      assert SettlesOffer(ws[l - 1], es[l - 1], st);
    }
  }
}
