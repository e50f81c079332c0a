/** Every event of the scheduler keeps its invariant. */
module RunnerInvariant {
  import opened Reachability
  import opened StepGraph
  import opened StepGraphInvariant
  import opened StepGraphTheorems
  import opened Scheduling
  import opened SchedulingInvariant
  import opened SchedulingFrames
  import opened Runner

  lemma SameGraph(g: Graph)
    ensures Later(g, g)
  {
    forall x ensures LaterAt(g, g, x) {}
  }

  // ---- events of the graph alone ----

  /** No event but a completion finishes a runnable step. */
  lemma RunnableStays(g: Graph, e: StepGraph.Event, st: StepId)
    requires Inv(g) && Enabled(g, e) && st in g.steps && g.steps[st].runnable && !e.Finish?
    ensures Later(g, Apply(g, e)) && LaterAt(g, Apply(g, e), st)
    ensures Apply(g, e).steps[st].finished == g.steps[st].finished
    ensures st in g.live && e != Free(st) ==> st in Apply(g, e).live
  {
    EventLater(g, e);
    assert LaterAt(g, Apply(g, e), st);
    assert NodeOk(g, st);
    if e.CreateTop? || e.CreateChild? || e.ResolveKnown? || e.ResolveFresh? || e.Wake? || e.Sweep? {
      SpreadStays(g, e, st);
    } else {
      LocalStays(g, e, st);
    }
  }

  lemma SpreadStays(g: Graph, e: StepGraph.Event, st: StepId)
    requires Enabled(g, e) && st in g.steps && NodeOk(g, st) && st in Apply(g, e).steps
    requires e.CreateTop? || e.CreateChild? || e.ResolveKnown? || e.ResolveFresh? || e.Wake? || e.Sweep?
    ensures Apply(g, e).steps[st].finished == g.steps[st].finished
    ensures st in g.live ==> st in Apply(g, e).live
  {
    if e.ResolveKnown? || e.ResolveFresh? { ResolveStays(g, e.s, e.d, st); }
  }

  lemma ResolveStays(g: Graph, s: StepId, d: StepId, st: StepId)
    requires s in g.steps && d in g.steps && g.steps[s].phase.Expanding? && st in g.steps
    ensures var h := Resolve(g, s, d); st in h.steps && h.steps[st].finished == g.steps[st].finished && h.live == g.live
  {
    var h := Resolve(g, s, d);
    if h != Settle(g, s, d) && h != Record(g, s, d) {
      assert h == Put(g, s, g.steps[s].(phase := Stopped(true)));
    }
  }

  lemma LocalStays(g: Graph, e: StepGraph.Event, st: StepId)
    requires Enabled(g, e) && st in g.steps && NodeOk(g, st) && g.steps[st].runnable && !e.Finish?
    requires st in Apply(g, e).steps
    requires !(e.CreateTop? || e.CreateChild? || e.ResolveKnown? || e.ResolveFresh? || e.Wake? || e.Sweep?)
    ensures Apply(g, e).steps[st].finished == g.steps[st].finished
    ensures st in g.live && e != Free(st) ==> st in Apply(g, e).live
  {
  }

  lemma GraphLinks(c: Config, w: World, x: StepGraph.Event)
    requires Sound(c, w) && Allowed(c, w, GraphEvent(x))
    ensures Linked(w.(g := Apply(w.g, x)))
  {
    var h := w.(g := Apply(w.g, x));
    EventLater(w.g, x);
    forall i ensures LinkOk(h, i) {
      assert LinkOk(w, i);
      if Live(w.s, i) { RunnableStays(w.g, x, w.s.infos[i].step); }
    }
    forall st ensures StepHeldOk(h, st) {
      assert StepHeldOk(w, st);
      if st in StepsInHand(w.s.dispatcher) { RunnableStays(w.g, x, st); }
    }
    forall i ensures BusyOk(h, i) { GraphBusy(c, w, x, i); }
    forall k ensures TaskOk(h, k) {
      assert TaskOk(w, k);
      if k in w.s.tasks && w.s.tasks[k].info in w.s.infos {
        assert LaterAt(w.g, h.g, w.s.infos[w.s.tasks[k].info].step);
      }
    }
    if w.s.dispatcher.CacheHit? && w.s.dispatcher.info in w.s.infos {
      assert LaterAt(w.g, h.g, w.s.infos[w.s.dispatcher.info].step);
    }
  }

  lemma GraphBusy(c: Config, w: World, x: StepGraph.Event, i: InfoId)
    requires Sound(c, w) && Allowed(c, w, GraphEvent(x))
    ensures BusyOk(w.(g := Apply(w.g, x)), i)
  {
    assert BusyOk(w, i) && LinkOk(w, i) && InfoOk(c, w.s, i);
    if i in w.s.infos && (w.s.infos[i].already || i in InHand(w.s.dispatcher)) {
      RunnableStays(w.g, x, w.s.infos[i].step);
    }
  }

  /** The scheduling state is the same and the graph has only moved on. */
  lemma GraphCounts(c: Config, w: World, x: StepGraph.Event)
    requires Sound(c, w) && Allowed(c, w, GraphEvent(x))
    ensures Counted(c, w.(g := Apply(w.g, x)))
  {
    var h := w.(g := Apply(w.g, x));
    EventLater(w.g, x);
    forall st ensures CountOk(c, h, st) {
      assert CountOk(c, w, st) && LaterAt(w.g, h.g, st);
      if st !in w.g.steps { NotRunningYet(c, w, h, st); }
    }
    forall st ensures KeepOk(h, st) { assert KeepOk(w, st) && LaterAt(w.g, h.g, st) && CountOk(c, w, st); }
  }

  lemma NotRunningYet(c: Config, w: World, h: World, st: StepId)
    requires Sound(c, w) && h.s == w.s && st !in w.g.steps
    ensures !Running(h, st)
  {
    if st in h.g.steps && StepPath(h.g, st) in w.s.scheduled {
      ItemRefs(c, w.s, StepPath(h.g, st));
      assert LinkOk(w, w.s.scheduled[StepPath(h.g, st)].info);
    }
    if w.s.dispatcher.Sent? { assert HeldOk(w.s, w.s.dispatcher.info) && LinkOk(w, w.s.dispatcher.info); }
  }

  lemma GraphEventKeeps(c: Config, w: World, x: StepGraph.Event)
    requires Sound(c, w) && Allowed(c, w, GraphEvent(x))
    ensures Sound(c, w.(g := Apply(w.g, x)))
  {
    EventKeeps(w.g, x);
    GraphLinks(c, w, x);
    GraphCounts(c, w, x);
  }

  // ---- what an operation does to the graph ----

  /** Only finished flags of `done` were set, and only registrations were lost. */
  ghost predicate GraphMoved(g: Graph, h: Graph, done: set<StepId>) {
    && h.live == g.live && h.steps.Keys == g.steps.Keys
    && (forall st :: st in g.steps ==>
          h.steps[st] == (if st in done then g.steps[st].(finished := true) else g.steps[st]))
    && (forall st :: st in g.steps && Registered(h, st) ==> Registered(g, st))
  }

  function Done(s: Sched, op: Op): set<StepId> {
    if op.Act? && Succeeds(s, op.k) then {StepOf(s, s.calls[op.k].path)} else {}
  }

  lemma FailMoves(g: Graph, f: StepId, v: set<StepId>)
    requires Inv(g) && Enabled(g, Fail(f, v))
    ensures Inv(Apply(g, Fail(f, v))) && GraphMoved(g, Apply(g, Fail(f, v)), {})
    ensures f in g.steps && !Registered(Apply(g, Fail(f, v)), f)
  {
    FailKeeps(g, f, v);
    assert g.steps[f].path in PathsOf(g, v);
  }

  lemma FinishMoves(g: Graph, st: StepId)
    requires Inv(g) && Enabled(g, Finish(st))
    ensures Inv(Apply(g, Finish(st))) && GraphMoved(g, Apply(g, Finish(st)), {st})
  {
    EventKeeps(g, Finish(st));
  }

  lemma MoveGraph(w: World, op: Op)
    requires Inv(w.g) && GraphCan(w, op)
    ensures var h := GraphAfter(w, op); Inv(h) && GraphMoved(w.g, h, Done(w.s, op))
  {
    match op
    case CachePass(v) => FailMoves(w.g, w.s.infos[w.s.dispatcher.info].step, v);
    case AbortPass(st, v) => FailMoves(w.g, st, v);
    case TaskPass(id, v) => FailMoves(w.g, w.s.infos[w.s.tasks[id].info].step, v);
    case Act(k, _, _) => if Succeeds(w.s, k) { FinishMoves(w.g, StepOf(w.s, w.s.calls[k].path)); }
    case _ =>
  }

  // ---- operations that count nothing ----

  predicate Busy(s: Sched, i: InfoId) {
    i in s.infos && (s.infos[i].already || i in InHand(s.dispatcher))
  }

  /** The task is one of before, or has made its pass. */
  predicate TaskGoesOn(s: Sched, g: Graph, tasks: map<TaskId, Task>, k: TaskId) {
    k in tasks ==>
      && k in s.tasks && tasks[k].info == s.tasks[k].info
      && tasks[k].Completing? == s.tasks[k].Completing? && tasks[k].Failing? == s.tasks[k].Failing?
      && (tasks[k].Failing? && tasks[k].passed && !s.tasks[k].passed && s.tasks[k].info in s.infos ==>
            s.infos[s.tasks[k].info].step in g.steps && !Registered(g, s.infos[s.tasks[k].info].step))
  }

  /** What a quiet operation leaves as it was. */
  ghost predicate Quiet(w: World, h: World) {
    && GraphMoved(w.g, h.g, {}) && Fewer(w.s, h.s) && SameCounts(w.s, h.s)
    && (forall st :: st in StepsInHand(h.s.dispatcher) ==> st in StepsInHand(w.s.dispatcher) || Ready(w.g, st))
    && (forall i :: Busy(h.s, i) ==>
          Busy(w.s, i) || (h.s.infos[i].step in w.g.steps && !w.g.steps[h.s.infos[i].step].finished))
    && (forall k :: TaskGoesOn(w.s, h.g, h.s.tasks, k))
  }

  lemma QuietLinks(c: Config, w: World, h: World)
    requires Sound(c, w) && Quiet(w, h) && HandStepOk(h)
    ensures Linked(h)
  {
    forall i ensures LinkOk(h, i) { assert LinkOk(w, i); }
    forall st ensures StepHeldOk(h, st) { assert StepHeldOk(w, st); }
    forall i ensures BusyOk(h, i) { assert BusyOk(w, i); }
    forall k ensures TaskOk(h, k) { assert TaskOk(w, k) && TaskGoesOn(w.s, h.g, h.s.tasks, k); }
  }

  lemma QuietCount(c: Config, w: World, h: World, st: StepId)
    requires CountOk(c, w, st) && GraphMoved(w.g, h.g, {}) && SameCounts(w.s, h.s)
      && (Running(h, st) <==> Running(w, st))
    ensures CountOk(c, h, st)
  {
  }

  lemma QuietPace(c: Config, s: Sched, h: Sched, st: StepId)
    requires PaceOk(c, s, st) && SameCounts(s, h)
    ensures PaceOk(c, h, st)
  {
  }

  lemma QuietCounts(c: Config, w: World, h: World)
    requires Sound(c, w) && Quiet(w, h) && forall st :: Running(h, st) <==> Running(w, st)
    ensures forall st :: CountOk(c, h, st)
    ensures forall st :: PaceOk(c, h.s, st)
  {
    forall st ensures CountOk(c, h, st) { QuietCount(c, w, h, st); }
    forall st ensures PaceOk(c, h.s, st) { QuietPace(c, w.s, h.s, st); }
  }

  lemma RunningSame(w: World, h: World, st: StepId)
    requires GraphMoved(w.g, h.g, {}) && SameInfos(w.s, h.s) && h.s.scheduled == w.s.scheduled
    requires h.s.dispatcher.Sent? || w.s.dispatcher.Sent? ==> h.s.dispatcher == w.s.dispatcher
    ensures Running(h, st) <==> Running(w, st)
  {
  }

  /** A queued step whose job stays is still queued. */
  lemma KeptIfOwned(w: World, h: World, done: set<StepId>, st: StepId)
    requires KeepOk(w, st) && GraphMoved(w.g, h.g, done) && Fewer(w.s, h.s) && Starts(h.s, st) == Starts(w.s, st)
    requires st in w.g.steps ==> JobOk(w.s, StepPath(w.g, st))
    requires w.s.doomed <= h.s.doomed && w.s.dropped <= h.s.dropped
    requires Queued(w, st) && Registers(h.g, st) && st !in h.s.doomed && st !in h.s.dropped ==>
      StepPath(w.g, st) in h.s.jobs && h.s.jobs[StepPath(w.g, st)] == w.s.jobs[StepPath(w.g, st)]
    ensures KeepOk(h, st)
  {
    if Registers(h.g, st) && Starts(h.s, st) != [] && st !in h.s.doomed && st !in h.s.dropped {
      assert Registers(w.g, st) && Queued(w, st);
      assert Owned(h.s, w.s.jobs[StepPath(w.g, st)]);
    }
  }

  lemma QuietSound(c: Config, w: World, h: World)
    requires Sound(c, w) && Inv(h.g) && Agreement(c, h.s) && Quiet(w, h) && HandStepOk(h)
    requires (forall st :: Running(h, st) <==> Running(w, st)) && forall st :: KeepOk(h, st)
    ensures Sound(c, h)
  {
    QuietLinks(c, w, h);
    QuietCounts(c, w, h);
  }

  // ---- operations that leave the queues alone ----

  predicate Idles(op: Op) {
    || op.Offer? || op.Reject? || op.Pick? || op.Skip? || op.Hit? || op.CachePass? || op.Unsupported? || op.AbortPass?
    || op.Report? || op.Kill? || op.TaskPass? || op.End? || op.Join? || op.Lose?
  }

  /** What an operation that leaves all tables alone makes of the dispatch loop. */
  function Next(d: Dispatcher, op: Op): Dispatcher {
    match op
    case Offer(st) => if d.Collecting? then Collecting(d.offered + {st}) else d
    case Reject(st) => if d.Collecting? then Collecting(d.offered - {st}) else d
    case Pick(i, m, _, _) => Chosen(i, m)
    case Skip => IDLE
    case Hit => if d.Chosen? then CacheHit(d.info, false) else d
    case CachePass(_) => if d.CacheHit? then CacheHit(d.info, true) else d
    case Unsupported(st) => Aborting((if d.Aborting? then d.steps else {}) + {st})
    case _ => d
  }

  function NextTasks(tasks: map<TaskId, Task>, op: Op): map<TaskId, Task> {
    match op
    case TaskPass(id, _) =>
      if id in tasks && tasks[id].Failing? then tasks[id := tasks[id].(passed := true)] else tasks
    case End(id) => tasks - {id}
    case _ => tasks
  }

  ghost predicate IdledTo(s: Sched, h: Sched, op: Op) {
    SameQueues(s, h) && h.dispatcher == Next(s.dispatcher, op) && h.tasks == NextTasks(s.tasks, op)
  }

  lemma LoopIdles(c: Config, s: Sched, op: Op)
    requires Can(c, s, op) && Idles(op) && LoopOp(op)
    ensures IdledTo(s, Do(c, s, op), op)
  {
    match op
    case Offer(st) => assert IdledTo(s, DoOffer(s, st), op);
    case Reject(st) => assert IdledTo(s, DoReject(s, st), op);
    case Pick(i, m, t0, now) => assert IdledTo(s, DoPick(s, i, m, now), op);
    case Skip => assert IdledTo(s, GoIdle(s), op);
    case Hit => assert IdledTo(s, DoHit(s), op);
    case CachePass(_) => assert IdledTo(s, DoCachePass(s), op);
    case Unsupported(st) => assert IdledTo(s, DoUnsupported(s, st), op);
    case AbortPass(_, _) => assert IdledTo(s, s, op);
  }

  lemma OthersIdle(c: Config, s: Sched, op: Op)
    requires Can(c, s, op) && Idles(op) && !LoopOp(op)
    ensures IdledTo(s, Do(c, s, op), op)
  {
    match op
    case TaskPass(id, _) => assert IdledTo(s, DoTaskPass(s, id), op);
    case End(id) => assert IdledTo(s, DoEnd(s, id), op);
    case Report(m, u, r, k) => assert IdledTo(s, DoReport(s, m, u, r, k), op);
    case Kill(p, k) => assert IdledTo(s, DoKill(s, p, k), op);
    case Join(m, n) => assert IdledTo(s, DoJoin(s, m, n), op);
    case Lose(m) => assert IdledTo(s, DoLose(s, m), op);
  }

  lemma IdlesTo(c: Config, s: Sched, op: Op)
    requires Can(c, s, op) && Idles(op)
    ensures IdledTo(s, Do(c, s, op), op)
  {
    if LoopOp(op) { LoopIdles(c, s, op); } else { OthersIdle(c, s, op); }
  }

  lemma IdlesTask(s: Sched, g: Graph, op: Op, k: TaskId)
    requires Idles(op)
    requires op.TaskPass? && op.id in s.tasks && s.tasks[op.id].info in s.infos ==>
      s.infos[s.tasks[op.id].info].step in g.steps && !Registered(g, s.infos[s.tasks[op.id].info].step)
    ensures TaskGoesOn(s, g, NextTasks(s.tasks, op), k)
  {
  }

  lemma IdlesBusy(c: Config, w: World, op: Op, h: Sched, i: InfoId)
    requires Can(c, w.s, op) && Fits(c, w, op) && Idles(op)
    requires h.infos == w.s.infos && h.dispatcher == Next(w.s.dispatcher, op) && Busy(h, i)
    ensures Busy(w.s, i) || (w.s.infos[i].step in w.g.steps && !w.g.steps[w.s.infos[i].step].finished)
  {
  }

  lemma IdlesHand(c: Config, w: World, op: Op, st: StepId)
    requires Can(c, w.s, op) && Fits(c, w, op) && Idles(op) && st in StepsInHand(Next(w.s.dispatcher, op))
    ensures st in StepsInHand(w.s.dispatcher) || Ready(w.g, st)
  {
  }

  /** The state after an operation that idles, without looking at what it does. */
  ghost predicate Idled(c: Config, w: World, op: Op, h: World) {
    && Can(c, w.s, op) && Fits(c, w, op) && GraphCan(w, op) && Idles(op)
    && GraphMoved(w.g, h.g, {}) && AllFramed(w.s, h.s, op) && IdledTo(w.s, h.s, op)
    && (op.TaskPass? ==> PassedBy(h.g, w.s.infos[w.s.tasks[op.id].info].step))
    && (op.CachePass? ==> PassedBy(h.g, w.s.infos[w.s.dispatcher.info].step))
  }

  /** The pass over the dependents of the step has taken it out of the registry. */
  predicate PassedBy(g: Graph, st: StepId) { st in g.steps && !Registered(g, st) }

  lemma PassesBy(w: World, op: Op)
    requires Inv(w.g) && GraphCan(w, op)
    ensures op.TaskPass? ==> PassedBy(GraphAfter(w, op), w.s.infos[w.s.tasks[op.id].info].step)
    ensures op.CachePass? ==> PassedBy(GraphAfter(w, op), w.s.infos[w.s.dispatcher.info].step)
  {
    match op
    case TaskPass(id, v) => FailMoves(w.g, w.s.infos[w.s.tasks[id].info].step, v);
    case CachePass(v) => FailMoves(w.g, w.s.infos[w.s.dispatcher.info].step, v);
    case _ =>
  }

  lemma IdlesAre(c: Config, w: World, op: Op)
    requires Inv(w.g) && Agreement(c, w.s) && Can(c, w.s, op) && Fits(c, w, op) && GraphCan(w, op) && Idles(op)
    ensures Idled(c, w, op, World(GraphAfter(w, op), Do(c, w.s, op))) && Inv(GraphAfter(w, op))
  {
    MoveGraph(w, op);
    OpFrame(c, w.s, op);
    IdlesTo(c, w.s, op);
    PassesBy(w, op);
  }

  lemma IdlesQuiet(c: Config, w: World, op: Op, h: World)
    requires Sound(c, w) && Idled(c, w, op, h)
    ensures Quiet(w, h)
  {
    forall k ensures TaskGoesOn(w.s, h.g, h.s.tasks, k) { IdlesTask(w.s, h.g, op, k); }
    forall i | Busy(h.s, i)
      ensures Busy(w.s, i) || (h.s.infos[i].step in w.g.steps && !w.g.steps[h.s.infos[i].step].finished)
    {
      IdlesBusy(c, w, op, h.s, i);
    }
    forall st | st in StepsInHand(h.s.dispatcher) ensures st in StepsInHand(w.s.dispatcher) || Ready(w.g, st) {
      IdlesHand(c, w, op, st);
    }
  }

  /** The chosen info is owned unless its step was sent out before. */
  lemma PickHandStep(c: Config, w: World, i: InfoId, m: MachineId, t0: int, now: int)
    requires Sound(c, w) && MayPick(c, w, i, m, t0, now)
    ensures HandStepOk(w.(s := DoPick(w.s, i, m, now)))
  {
    assert InfoOk(c, w.s, i);
    if i in InTasks(w.s) {
      var k :| k in w.s.tasks && w.s.tasks[k].info == i;
      assert TaskOk(w, k);
    }
  }

  lemma IdlesHandStep(c: Config, w: World, op: Op, h: World)
    requires Sound(c, w) && Idled(c, w, op, h) && !op.Pick?
    ensures HandStepOk(h)
  {
  }

  lemma IdlesKept(c: Config, w: World, op: Op, h: World)
    requires Sound(c, w) && Idled(c, w, op, h)
    ensures forall st :: KeepOk(h, st)
    ensures forall st :: Running(h, st) <==> Running(w, st)
  {
    forall st ensures KeepOk(h, st) {
      assert KeepOk(w, st) && (st in w.g.steps ==> JobOk(w.s, StepPath(w.g, st)));
      KeptIfOwned(w, h, {}, st);
    }
    forall st ensures Running(h, st) <==> Running(w, st) { RunningSame(w, h, st); }
  }

  lemma IdledSound(c: Config, w: World, op: Op, h: World)
    requires Sound(c, w) && Idled(c, w, op, h) && Inv(h.g) && Agreement(c, h.s) && (op.Pick? ==> HandStepOk(h))
    ensures Sound(c, h)
  {
    IdlesQuiet(c, w, op, h);
    if !op.Pick? { IdlesHandStep(c, w, op, h); }
    IdlesKept(c, w, op, h);
    QuietSound(c, w, h);
  }

  lemma IdlesKeeps(c: Config, w: World, op: Op)
    requires Sound(c, w) && Allowed(c, w, Moves(op)) && Idles(op)
    ensures Sound(c, World(GraphAfter(w, op), Do(c, w.s, op)))
  {
    DoKeeps(c, w.s, op);
    IdlesAre(c, w, op);
    if op.Pick? { PickHandStep(c, w, op.i, op.m, op.t0, op.now); }
    IdledSound(c, w, op, World(GraphAfter(w, op), Do(c, w.s, op)));
  }

  // ---- jobs leave the owning map ----

  /** A queued step whose path leaves the owning map was dropped, has finished, or has
      failed for good. */
  ghost predicate OwnDropped(w: World, h: World, p: Path) {
    forall st :: Queued(w, st) && StepPath(w.g, st) == p && Starts(w.s, st) != [] ==>
      !Registers(w.g, st) || st in w.s.doomed || st in h.s.dropped
  }

  /** Jobs of one path leave the owning map, and the queues are scrubbed. */
  ghost predicate Frees(w: World, h: World, op: Op, p: Path) {
    && h.g == w.g && AllFramed(w.s, h.s, op) && !op.Schedule?
    && h.s.infos == w.s.infos && (forall q :: q != p && q in w.s.jobs ==> q in h.s.jobs)
    && StepsInHand(h.s.dispatcher) <= StepsInHand(w.s.dispatcher) && InHand(h.s.dispatcher) <= InHand(w.s.dispatcher)
    && (forall k :: TaskGoesOn(w.s, h.g, h.s.tasks, k))
  }

  lemma FreesQuiet(w: World, h: World, op: Op, p: Path)
    requires Frees(w, h, op, p)
    ensures Quiet(w, h)
  {
  }

  lemma FreesKept(c: Config, w: World, h: World, op: Op, p: Path, st: StepId)
    requires Sound(c, w) && Frees(w, h, op, p) && OwnDropped(w, h, p)
    ensures KeepOk(h, st)
  {
    assert KeepOk(w, st) && (st in w.g.steps ==> JobOk(w.s, StepPath(w.g, st)));
    if Starts(w.s, st) != [] { KeptIfOwned(w, h, {}, st); }
  }

  lemma FreesKeeps(c: Config, w: World, h: World, op: Op, p: Path)
    requires Sound(c, w) && Frees(w, h, op, p) && OwnDropped(w, h, p) && Agreement(c, h.s) && HandStepOk(h)
    ensures Sound(c, h)
  {
    FreesQuiet(w, h, op, p);
    forall st ensures KeepOk(h, st) { FreesKept(c, w, h, op, p, st); }
    forall st ensures Running(h, st) <==> Running(w, st) { RunningSame(w, h, st); }
    QuietSound(c, w, h);
  }

  /** What a held info's path owns is that info. */
  lemma HeldOwns(c: Config, w: World, i: InfoId, st: StepId)
    requires Sound(c, w) && Waits(w.s, i) && Queued(w, st) && StepPath(w.g, st) == w.s.infos[i].path
    ensures w.s.jobs[StepPath(w.g, st)] == i && w.s.infos[i].step == st
  {
    assert JobOk(w.s, StepPath(w.g, st));
    assert UniqueOk(w.s, i, w.s.jobs[StepPath(w.g, st)]);
  }

  lemma DiscardOwn(c: Config, w: World)
    requires Sound(c, w) && CanDiscard(w.s)
    ensures OwnDropped(w, w.(s := DoDiscard(w.s)), w.s.infos[w.s.dispatcher.info].path)
  {
    var i := w.s.dispatcher.info;
    HandApart(c, w.s);
    forall st | Queued(w, st) && StepPath(w.g, st) == w.s.infos[i].path && Starts(w.s, st) != []
      ensures !Registers(w.g, st) || st in DoDiscard(w.s).dropped
    {
      HeldOwns(c, w, i, st);
    }
  }

  lemma DiscardKeepsSound(c: Config, w: World)
    requires Sound(c, w) && CanDiscard(w.s)
    ensures Sound(c, w.(s := DoDiscard(w.s)))
  {
    var h := w.(s := DoDiscard(w.s));
    DiscardKeeps(c, w.s);
    DiscardFrame(w.s);
    DiscardOwn(c, w);
    forall k ensures TaskGoesOn(w.s, h.g, h.s.tasks, k) {}
    FreesKeeps(c, w, h, Discard, w.s.infos[w.s.dispatcher.info].path);
  }

  lemma DropKeepsSound(c: Config, w: World, st: StepId, p: Path)
    requires Sound(c, w) && CanAbort(w.s, st)
    ensures Sound(c, w.(s := DoDropAborted(w.s, st, p)))
  {
    var h := w.(s := DoDropAborted(w.s, st, p));
    DropAbortedKeeps(c, w.s, st, p);
    DropFrame(w.s, st, p);
    forall k ensures TaskGoesOn(w.s, h.g, h.s.tasks, k) {}
    FreesKeeps(c, w, h, DropAborted(st, p), p);
  }

  lemma ScrubKeepsSound(c: Config, w: World)
    requires Sound(c, w) && w.s.dispatcher.Collecting?
    ensures Sound(c, w.(s := ScrubAll(w.s)))
  {
    var h := w.(s := ScrubAll(w.s));
    DoKeeps(c, w.s, Scrub);
    ScrubFrame(w.s);
    forall k ensures TaskGoesOn(w.s, h.g, h.s.tasks, k) {}
    forall st ensures KeepOk(h, st) {
      assert KeepOk(w, st) && (st in w.g.steps ==> JobOk(w.s, StepPath(w.g, st)));
      KeptIfOwned(w, h, {}, st);
    }
    forall st ensures Running(h, st) <==> Running(w, st) { RunningSame(w, h, st); }
    QuietSound(c, w, h);
  }

  lemma TaskWaits(c: Config, w: World, id: TaskId)
    requires Sound(c, w) && id in w.s.tasks
    ensures Waits(w.s, w.s.tasks[id].info)
  {
    assert w.s.tasks[id].info in InTasks(w.s);
    assert HeldOk(w.s, w.s.tasks[id].info);
  }

  lemma RemoveOwn(c: Config, w: World, id: TaskId)
    requires Sound(c, w) && CanRemove(w.s, id)
    ensures OwnDropped(w, w.(s := DoRemove(w.s, id)), w.s.infos[w.s.tasks[id].info].path)
  {
    var i := w.s.tasks[id].info;
    TaskWaits(c, w, id);
    forall st | Queued(w, st) && StepPath(w.g, st) == w.s.infos[i].path && Starts(w.s, st) != []
      ensures !Registers(w.g, st) || st in w.s.doomed
    {
      HeldOwns(c, w, i, st);
      assert TaskOk(w, id);
    }
  }

  lemma RemoveHandStep(c: Config, w: World, h: World, i: InfoId)
    requires Sound(c, w) && Waits(w.s, i) && Starts(w.s, w.s.infos[i].step) != [] && h.g == w.g
    requires h.s.dispatcher == w.s.dispatcher && h.s.infos == w.s.infos && h.s.jobs == w.s.jobs - {w.s.infos[i].path}
    requires SameCounts(w.s, h.s)
    ensures HandStepOk(h)
  {
    var d := w.s.dispatcher;
    if d.Chosen? && w.s.infos[i].path == w.s.infos[d.info].path {
      HandApart(c, w.s);
      assert UniqueOk(w.s, i, d.info);
    }
  }

  lemma RemoveKeepsSound(c: Config, w: World, id: TaskId)
    requires Sound(c, w) && CanRemove(w.s, id)
    ensures Sound(c, w.(s := DoRemove(w.s, id)))
  {
    var h := w.(s := DoRemove(w.s, id));
    RemoveKeeps(c, w.s, id);
    RemoveFrame(w.s, id);
    RemoveOwn(c, w, id);
    TaskWaits(c, w, id);
    assert TaskOk(w, id);
    RemoveHandStep(c, w, h, w.s.tasks[id].info);
    forall k ensures TaskGoesOn(w.s, h.g, h.s.tasks, k) {}
    FreesKeeps(c, w, h, Remove(id), w.s.infos[w.s.tasks[id].info].path);
  }

  // ---- the dispatch loop sends a job ----

  lemma ScheduleQuiet(c: Config, w: World)
    requires Sound(c, w) && CanSchedule(w.s)
    ensures Quiet(w, w.(s := DoSchedule(w.s)))
  {
    var h := w.(s := DoSchedule(w.s));
    ScheduleFewer(c, w.s);
    forall k ensures TaskGoesOn(w.s, h.g, h.s.tasks, k) {}
  }

  lemma ScheduleKeepsSound(c: Config, w: World)
    requires Sound(c, w) && CanSchedule(w.s)
    ensures Sound(c, w.(s := DoSchedule(w.s)))
  {
    var h := w.(s := DoSchedule(w.s));
    ScheduleKeeps(c, w.s);
    ScheduleQuiet(c, w);
    forall st ensures KeepOk(h, st) {
      assert KeepOk(w, st) && (st in w.g.steps ==> JobOk(w.s, StepPath(w.g, st)));
      KeptIfOwned(w, h, {}, st);
    }
    forall st ensures Running(h, st) <==> Running(w, st) { ScheduledRuns(c, w, st); }
    QuietSound(c, w, h);
  }

  lemma ScheduledRuns(c: Config, w: World, st: StepId)
    requires Sound(c, w) && CanSchedule(w.s)
    ensures Running(w.(s := DoSchedule(w.s)), st) <==> Running(w, st)
  {
    HandApart(c, w.s);
    assert LinkOk(w, w.s.dispatcher.info);
  }

  lemma InsertLinks(c: Config, w: World, st: StepId, p: Path, i: InfoId, order: seq<InfoId>)
    requires Sound(c, w) && MayInsert(c, w, st, p, i, order)
    ensures Linked(w.(s := DoInsert(c, w.s, st, p, i, order)))
  {
    var h := w.(s := DoInsert(c, w.s, st, p, i, order));
    assert StepHeldOk(w, st);
    forall x ensures LinkOk(h, x) { assert LinkOk(w, x); InsertLive(c, w.s, st, p, i, order, x); }
    forall x ensures StepHeldOk(h, x) { assert StepHeldOk(w, x); }
    forall x ensures BusyOk(h, x) { assert BusyOk(w, x); }
    forall k ensures TaskOk(h, k) {
      assert TaskOk(w, k);
      if k in w.s.tasks { assert HeldOk(w.s, w.s.tasks[k].info) by { assert w.s.tasks[k].info in InTasks(w.s); } }
    }
  }

  lemma InsertRuns(c: Config, w: World, st: StepId, p: Path, i: InfoId, order: seq<InfoId>, x: StepId)
    requires Sound(c, w) && MayInsert(c, w, st, p, i, order)
    ensures Running(w.(s := DoInsert(c, w.s, st, p, i, order)), x) <==> Running(w, x)
  {
    if x in w.g.steps { assert ItemOk(w.s, StepPath(w.g, x)); }
  }

  lemma InsertKept(c: Config, w: World, st: StepId, p: Path, i: InfoId, order: seq<InfoId>, x: StepId)
    requires Sound(c, w) && MayInsert(c, w, st, p, i, order)
    ensures KeepOk(w.(s := DoInsert(c, w.s, st, p, i, order)), x)
  {
    assert KeepOk(w, x);
    if Queued(w, x) {
      var y := w.s.jobs[StepPath(w.g, x)];
      assert JobOk(w.s, StepPath(w.g, x));
      InsertLive(c, w.s, st, p, i, order, y);
    }
  }

  lemma InsertKeepsSound(c: Config, w: World, st: StepId, p: Path, i: InfoId, order: seq<InfoId>)
    requires Sound(c, w) && MayInsert(c, w, st, p, i, order)
    ensures Sound(c, w.(s := DoInsert(c, w.s, st, p, i, order)))
  {
    var h := w.(s := DoInsert(c, w.s, st, p, i, order));
    InsertKeeps(c, w.s, st, p, i, order);
    InsertLinks(c, w, st, p, i, order);
    forall x ensures KeepOk(h, x) { InsertKept(c, w, st, p, i, order, x); }
    forall x ensures CountOk(c, h, x) { InsertRuns(c, w, st, p, i, order, x); QuietCount(c, w, h, x); }
    forall x ensures PaceOk(c, h.s, x) { QuietPace(c, w.s, h.s, x); }
  }

  lemma SendLinks(c: Config, w: World, u: Uuid, now: int)
    requires Sound(c, w) && CanSend(w.s, u, now)
    ensures Linked(w.(s := SendOut(w.s, u, now)))
  {
    var h := w.(s := SendOut(w.s, u, now));
    SendFewer(c, w.s, u, now);
    forall i ensures LinkOk(h, i) { assert LinkOk(w, i); }
    forall st ensures StepHeldOk(h, st) {}
    forall i ensures BusyOk(h, i) { assert BusyOk(w, i); }
    forall k ensures TaskOk(h, k) { assert TaskOk(w, k); }
  }

  /** The chosen step is neither running nor finished. */
  lemma ChosenRests(c: Config, w: World)
    requires Sound(c, w) && w.s.dispatcher.Chosen?
    ensures var i := w.s.dispatcher.info;
      && i in w.s.infos && !Running(w, w.s.infos[i].step) && Ready(w.g, w.s.infos[i].step)
      && !w.g.steps[w.s.infos[i].step].finished && StepPath(w.g, w.s.infos[i].step) == w.s.infos[i].path
  {
    HandApart(c, w.s);
    assert LinkOk(w, w.s.dispatcher.info) && BusyOk(w, w.s.dispatcher.info);
  }

  /** The counters of the step are the same. */
  predicate CountsSame(s: Sched, h: Sched, x: StepId) {
    && Starts(h, x) == Starts(s, x) && Fails(h, x) == Fails(s, x) && Tries(h, x) == Tries(s, x)
    && After(h, x) == After(s, x)
    && (x in h.doomed <==> x in s.doomed) && (x in h.resent <==> x in s.resent) && s.clock <= h.clock
  }

  lemma OtherCount(c: Config, w: World, h: World, x: StepId)
    requires CountOk(c, w, x) && CountsSame(w.s, h.s, x) && (Running(h, x) <==> Running(w, x))
    requires (x in h.g.steps <==> x in w.g.steps) && (x in w.g.steps ==> h.g.steps[x].finished == w.g.steps[x].finished)
    ensures CountOk(c, h, x)
  {
  }

  lemma OtherPace(c: Config, s: Sched, h: Sched, x: StepId)
    requires PaceOk(c, s, x) && CountsSame(s, h, x)
    ensures PaceOk(c, h, x)
  {
  }

  lemma PacedNext(c: Config, a: seq<int>, f: seq<int>, clock: int, after: int, now: int)
    requires Paced(c, a, f, clock) && |a| == |f| && after <= clock <= now
    requires f != [] ==> after == f[|f| - 1] + Delay(c, |f|) * NANOS
    ensures Paced(c, a + [now], f, now)
  {
    var b := a + [now];
    forall k | 0 < k < |b| ensures b[k] >= f[k - 1] + Delay(c, k) * NANOS {
      if k < |a| { assert b[k] == a[k]; }
    }
  }

  /** Sending a step out counts one start, after the pause of its last failure. */
  lemma SendCount(c: Config, w: World, u: Uuid, now: int)
    requires Sound(c, w) && CanSend(w.s, u, now)
    ensures CountOk(c, w.(s := SendOut(w.s, u, now)), w.s.infos[w.s.dispatcher.info].step)
  {
    ChosenRests(c, w);
    SentCount(c, w, w.(s := SendOut(w.s, u, now)), w.s.infos[w.s.dispatcher.info].step, now);
  }

  lemma SentCount(c: Config, w: World, h: World, st: StepId, now: int)
    requires CountOk(c, w, st) && st in w.g.steps && !w.g.steps[st].finished && !Running(w, st)
    requires h.g == w.g && Running(h, st)
    requires Starts(h.s, st) == Starts(w.s, st) + [now] && Fails(h.s, st) == Fails(w.s, st)
      && Tries(h.s, st) == Tries(w.s, st)
    requires h.s.doomed == w.s.doomed && h.s.resent == if st in w.s.doomed then w.s.resent + {st} else w.s.resent
    ensures CountOk(c, h, st)
  {
  }

  lemma SendPace(c: Config, w: World, u: Uuid, now: int)
    requires Sound(c, w) && CanSend(w.s, u, now)
    ensures PaceOk(c, SendOut(w.s, u, now), w.s.infos[w.s.dispatcher.info].step)
  {
    var st := w.s.infos[w.s.dispatcher.info].step;
    ChosenRests(c, w);
    assert CountOk(c, w, st) && PaceOk(c, w.s, st);
    SentPace(c, w.s, SendOut(w.s, u, now), st, now);
  }

  lemma SentPace(c: Config, s: Sched, h: Sched, st: StepId, now: int)
    requires PaceOk(c, s, st) && After(s, st) <= s.clock <= now && h.clock == now
    requires st !in s.resent && st !in s.doomed ==> |Starts(s, st)| == |Fails(s, st)|
    requires Starts(h, st) == Starts(s, st) + [now] && Fails(h, st) == Fails(s, st) && After(h, st) == After(s, st)
    requires h.doomed == s.doomed && (st in s.resent || st in s.doomed ==> st in h.resent)
    ensures PaceOk(c, h, st)
  {
    if st !in s.resent && st !in s.doomed {
      PacedNext(c, Starts(s, st), Fails(s, st), s.clock, After(s, st), now);
    }
  }

  lemma SendSame(c: Config, w: World, u: Uuid, now: int, x: StepId)
    requires Sound(c, w) && CanSend(w.s, u, now) && x != w.s.infos[w.s.dispatcher.info].step
    ensures var h := w.(s := SendOut(w.s, u, now)); CountsSame(w.s, h.s, x) && (Running(h, x) <==> Running(w, x))
  {
  }

  lemma SendOther(c: Config, w: World, u: Uuid, now: int, x: StepId)
    requires Sound(c, w) && CanSend(w.s, u, now) && x != w.s.infos[w.s.dispatcher.info].step
    ensures CountOk(c, w.(s := SendOut(w.s, u, now)), x) && PaceOk(c, SendOut(w.s, u, now), x)
  {
    SendSame(c, w, u, now, x);
    OtherCount(c, w, w.(s := SendOut(w.s, u, now)), x);
    OtherPace(c, w.s, SendOut(w.s, u, now), x);
  }

  lemma SendKept(c: Config, w: World, u: Uuid, now: int, x: StepId)
    requires Sound(c, w) && CanSend(w.s, u, now)
    ensures KeepOk(w.(s := SendOut(w.s, u, now)), x)
  {
    assert KeepOk(w, x);
    ChosenRests(c, w);
    HandApart(c, w.s);
  }

  lemma SendKeepsSound(c: Config, w: World, u: Uuid, now: int)
    requires Sound(c, w) && CanSend(w.s, u, now)
    ensures Sound(c, w.(s := SendOut(w.s, u, now)))
  {
    var h := w.(s := SendOut(w.s, u, now));
    SendKeeps(c, w.s, u, now);
    SendLinks(c, w, u, now);
    SendCount(c, w, u, now);
    SendPace(c, w, u, now);
    forall x ensures CountOk(c, h, x) && PaceOk(c, h.s, x) {
      if x != w.s.infos[w.s.dispatcher.info].step { SendOther(c, w, u, now, x); }
    }
    forall x ensures KeepOk(h, x) { SendKept(c, w, u, now, x); }
  }

  // ---- completing and failing ----

  /** The fields after the first section of a completion or failure of a scheduled path. */
  predicate TakenTo(c: Config, s: Sched, p: Path, r: BuildResultState, id: TaskId, now: int, h: Sched)
    requires Followable(s, p)
  {
    var i, st := s.scheduled[p].info, StepOf(s, p);
    var t := TaskFor(c, s, st, i, r);
    && h.infos == s.infos[i := s.infos[i].(already := false)] && h.jobs == s.jobs && h.scheduled == s.scheduled - {p}
    && h.dispatcher == s.dispatcher && h.starts == s.starts && h.resent == s.resent && h.dropped == s.dropped
    && h.tasks == s.tasks[id := t] && h.clock == now
    && h.tries == (if CanRetry(r) then s.tries[st := Tries(s, st) + 1] else s.tries)
    && h.fails == (if CanRetry(r) then s.fails[st := Fails(s, st) + [now]] else s.fails)
    && h.after == (if t.Retrying? then s.after[st := now + Delay(c, Tries(s, st) + 1) * NANOS] else s.after)
    && h.doomed == (if t.Failing? then s.doomed + {st} else s.doomed)
  }

  lemma ApartTakes(c: Config, s: Sched, p: Path, r: BuildResultState, id: TaskId, now: int, h: Sched)
    requires IsApart(c, s, p, r, id, now, h) && p in s.scheduled
    ensures TakenTo(c, s, p, r, id, now, h)
  {
  }

  /** The first section of a completion or failure at a scheduled path. */
  ghost predicate Takes(c: Config, w: World, h: World, p: Path, r: BuildResultState, id: TaskId, now: int) {
    && Followable(w.s, p) && id !in w.s.tasks && w.s.clock <= now
    && TakenTo(c, w.s, p, r, id, now, h.s) && Fewer(w.s, h.s)
    && GraphMoved(w.g, h.g, if r.Success? then {StepOf(w.s, p)} else {})
  }

  /** A scheduled step is running, unfinished and alive. */
  lemma ScheduledStep(c: Config, w: World, p: Path)
    requires Sound(c, w) && p in w.s.scheduled
    ensures Followable(w.s, p) && Ready(w.g, StepOf(w.s, p)) && StepPath(w.g, StepOf(w.s, p)) == p
    ensures Running(w, StepOf(w.s, p)) && !w.g.steps[StepOf(w.s, p)].finished && Starts(w.s, StepOf(w.s, p)) != []
    ensures w.s.dispatcher.Sent? && w.s.dispatcher.info in w.s.infos ==>
      w.s.infos[w.s.dispatcher.info].step != StepOf(w.s, p)
  {
    ItemRefs(c, w.s, p);
    var i := w.s.scheduled[p].info;
    assert LinkOk(w, i) && BusyOk(w, i) && CountOk(c, w, StepOf(w.s, p));
    if w.s.dispatcher.Sent? {
      HandApart(c, w.s);
      assert LinkOk(w, w.s.dispatcher.info);
    }
  }

  /** No other busy info has the step. */
  lemma OnlyBusy(c: Config, w: World, p: Path, x: InfoId)
    requires Sound(c, w) && p in w.s.scheduled && Busy(w.s, x) && x != w.s.scheduled[p].info
    ensures Followable(w.s, p) && w.s.infos[x].step != StepOf(w.s, p)
  {
    ScheduledStep(c, w, p);
    ItemRefs(c, w.s, p);
    assert InfoOk(c, w.s, x) && LinkOk(w, x);
    if x in InHand(w.s.dispatcher) { HandApart(c, w.s); }
  }

  lemma TakesBusy(c: Config, w: World, h: World, p: Path, r: BuildResultState, id: TaskId, now: int, x: InfoId)
    requires Sound(c, w) && Takes(c, w, h, p, r, id, now)
    ensures BusyOk(h, x)
  {
    assert BusyOk(w, x);
    if Busy(h.s, x) {
      if x == w.s.scheduled[p].info {
        HandApart(c, w.s);
        ItemRefs(c, w.s, p);
      } else {
        OnlyBusy(c, w, p, x);
      }
    }
  }

  lemma TakesTask(c: Config, w: World, h: World, p: Path, r: BuildResultState, id: TaskId, now: int, k: TaskId)
    requires Sound(c, w) && Takes(c, w, h, p, r, id, now)
    ensures TaskOk(h, k)
  {
    assert TaskOk(w, k);
    ScheduledStep(c, w, p);
  }

  lemma TakesLinks(c: Config, w: World, h: World, p: Path, r: BuildResultState, id: TaskId, now: int)
    requires Sound(c, w) && Takes(c, w, h, p, r, id, now)
    ensures Linked(h)
  {
    forall i ensures LinkOk(h, i) { assert LinkOk(w, i); }
    forall st ensures StepHeldOk(h, st) { assert StepHeldOk(w, st); }
    forall x ensures BusyOk(h, x) { TakesBusy(c, w, h, p, r, id, now, x); }
    forall k ensures TaskOk(h, k) { TakesTask(c, w, h, p, r, id, now, k); }
    TakesHand(c, w, h, p, r, id, now);
  }

  lemma TakesHand(c: Config, w: World, h: World, p: Path, r: BuildResultState, id: TaskId, now: int)
    requires Sound(c, w) && Takes(c, w, h, p, r, id, now)
    ensures HandStepOk(h)
  {
    ScheduledStep(c, w, p);
    if w.s.dispatcher.Chosen? { ChosenRests(c, w); }
  }

  lemma TakesSame(c: Config, w: World, h: World, p: Path, r: BuildResultState, id: TaskId, now: int, x: StepId)
    requires Takes(c, w, h, p, r, id, now) && x != StepOf(w.s, p)
    ensures CountsSame(w.s, h.s, x) && (Running(h, x) <==> Running(w, x))
    ensures (x in h.g.steps <==> x in w.g.steps) && (x in w.g.steps ==> h.g.steps[x] == w.g.steps[x])
  {
  }

  /** The step is no longer running, and its outcome is counted. */
  lemma TakesCount(c: Config, w: World, h: World, p: Path, r: BuildResultState, id: TaskId, now: int)
    requires Sound(c, w) && Takes(c, w, h, p, r, id, now)
    ensures !Running(h, StepOf(w.s, p)) && CountOk(c, h, StepOf(w.s, p))
  {
    var st := StepOf(w.s, p);
    ScheduledStep(c, w, p);
    assert CountOk(c, w, st);
  }

  lemma PacedFailed(c: Config, a: seq<int>, f: seq<int>, clock: int, now: int)
    requires Paced(c, a, f, clock) && |a| == |f| + 1 && clock <= now
    ensures Paced(c, a, f + [now], now)
  {
  }

  lemma PacedLater(c: Config, a: seq<int>, f: seq<int>, clock: int, now: int)
    requires Paced(c, a, f, clock) && clock <= now
    ensures Paced(c, a, f, now)
  {
  }

  lemma TakesPace(c: Config, w: World, h: World, p: Path, r: BuildResultState, id: TaskId, now: int)
    requires Takes(c, w, h, p, r, id, now) && Running(w, StepOf(w.s, p))
    requires CountOk(c, w, StepOf(w.s, p)) && PaceOk(c, w.s, StepOf(w.s, p))
    ensures PaceOk(c, h.s, StepOf(w.s, p))
  {
    TakenPace(c, w.s, h.s, StepOf(w.s, p), CanRetry(r), now);
  }

  lemma TakenPace(c: Config, s: Sched, h: Sched, st: StepId, retry: bool, now: int)
    requires PaceOk(c, s, st) && s.clock <= now && h.clock == now
    requires st !in s.resent ==> st !in s.doomed && |Starts(s, st)| == |Fails(s, st)| + 1
    requires Starts(h, st) == Starts(s, st) && h.resent == s.resent
    requires Fails(h, st) == if retry then Fails(s, st) + [now] else Fails(s, st)
    requires st !in s.resent && retry && st !in h.doomed ==> After(h, st) == now + Delay(c, |Fails(s, st)| + 1) * NANOS
    requires !retry ==> After(h, st) == After(s, st)
    ensures PaceOk(c, h, st)
  {
    if st !in s.resent {
      if retry {
        PacedFailed(c, Starts(s, st), Fails(s, st), s.clock, now);
      } else {
        PacedLater(c, Starts(s, st), Fails(s, st), s.clock, now);
      }
    }
  }

  lemma TakesKept(c: Config, w: World, h: World, p: Path, r: BuildResultState, id: TaskId, now: int, x: StepId)
    requires Sound(c, w) && Takes(c, w, h, p, r, id, now)
    ensures KeepOk(h, x)
  {
    assert KeepOk(w, x) && (x in w.g.steps ==> JobOk(w.s, StepPath(w.g, x)));
    KeptIfOwned(w, h, if r.Success? then {StepOf(w.s, p)} else {}, x);
  }

  lemma TakesSound(c: Config, w: World, h: World, p: Path, r: BuildResultState, id: TaskId, now: int)
    requires Sound(c, w) && Takes(c, w, h, p, r, id, now) && Inv(h.g) && Agreement(c, h.s)
    ensures Sound(c, h)
  {
    TakesLinks(c, w, h, p, r, id, now);
    TakesCount(c, w, h, p, r, id, now);
    ScheduledStep(c, w, p);
    assert CountOk(c, w, StepOf(w.s, p)) && PaceOk(c, w.s, StepOf(w.s, p));
    TakesPace(c, w, h, p, r, id, now);
    forall x ensures CountOk(c, h, x) && PaceOk(c, h.s, x) {
      if x != StepOf(w.s, p) {
        TakesSame(c, w, h, p, r, id, now, x);
        OtherCount(c, w, h, x);
        OtherPace(c, w.s, h.s, x);
      }
    }
    forall x ensures KeepOk(h, x) { TakesKept(c, w, h, p, r, id, now, x); }
  }

  /** The path is not scheduled: only the call is gone. */
  lemma NothingTaken(c: Config, w: World, h: World, p: Path, r: BuildResultState, id: TaskId, now: int)
    requires Sound(c, w) && h.g == w.g && Agreement(c, h.s) && IsApart(c, w.s, p, r, id, now, h.s)
      && p !in w.s.scheduled
    ensures Sound(c, h)
  {
    ApartFewer(c, w.s, p, r, id, now, h.s);
    forall k ensures TaskGoesOn(w.s, h.g, h.s.tasks, k) {}
    forall st ensures KeepOk(h, st) { assert KeepOk(w, st); }
    forall st ensures Running(h, st) <==> Running(w, st) { RunningSame(w, h, st); }
    QuietSound(c, w, h);
  }

  lemma ApartSound(c: Config, w: World, h: World, p: Path, r: BuildResultState, id: TaskId, now: int)
    requires Sound(c, w) && Inv(h.g) && Agreement(c, h.s) && IsApart(c, w.s, p, r, id, now, h.s)
    requires if p in w.s.scheduled then GraphMoved(w.g, h.g, if r.Success? then {StepOf(w.s, p)} else {})
      else h.g == w.g
    ensures Sound(c, h)
  {
    if p in w.s.scheduled {
      ApartTakes(c, w.s, p, r, id, now, h.s);
      ApartFewer(c, w.s, p, r, id, now, h.s);
      TakesSound(c, w, h, p, r, id, now);
    } else {
      NothingTaken(c, w, h, p, r, id, now);
    }
  }

  lemma ActGraphMoves(w: World, k: CallId)
    requires Inv(w.g) && k in w.s.calls && (w.s.calls[k].path in w.s.scheduled ==> Followable(w.s, w.s.calls[k].path))
    requires Succeeds(w.s, k) ==> Enabled(w.g, Finish(StepOf(w.s, w.s.calls[k].path)))
    ensures var p, r := w.s.calls[k].path, w.s.calls[k].outcome;
      && Inv(ActGraph(w, k))
      && if p in w.s.scheduled then GraphMoved(w.g, ActGraph(w, k), if r.Success? then {StepOf(w.s, p)} else {})
         else ActGraph(w, k) == w.g
  {
    if Succeeds(w.s, k) { FinishMoves(w.g, StepOf(w.s, w.s.calls[k].path)); }
  }

  lemma ActKeepsSound(c: Config, w: World, k: CallId, id: TaskId, now: int)
    requires Sound(c, w) && MayAct(w, k, id, now)
    ensures Sound(c, World(ActGraph(w, k), DoAct(c, w.s, k, id, now)))
  {
    ActKeeps(c, w.s, k, id, now);
    ActIs(c, w.s, k, id, now);
    ActGraphMoves(w, k);
    var h := World(ActGraph(w, k), DoAct(c, w.s, k, id, now));
    ApartSound(c, w, h, w.s.calls[k].path, w.s.calls[k].outcome, id, now);
  }

  lemma DrainKeepsSound(c: Config, w: World, m: MachineId, id: TaskId, now: int)
    requires Sound(c, w) && CanDrain(w.s, m, id, now)
    ensures Sound(c, w.(s := DoDrain(c, w.s, m, id, now)))
  {
    DrainKeeps(c, w.s, m, id, now);
    DrainIs(c, w.s, m, id, now);
    ApartSound(c, w, w.(s := DoDrain(c, w.s, m, id, now)), w.s.draining[m][0], PreparingFailure, id, now);
  }

  // ---- all events ----

  lemma CountingKeeps(c: Config, w: World, op: Op)
    requires Sound(c, w) && Allowed(c, w, Moves(op)) && (Counting(op) || op.Schedule?)
    ensures Sound(c, World(GraphAfter(w, op), Do(c, w.s, op)))
  {
    match op
    case Insert(st, p, i, order) => InsertKeepsSound(c, w, st, p, i, order);
    case Send(u, now) => SendKeepsSound(c, w, u, now);
    case Schedule => ScheduleKeepsSound(c, w);
    case Act(k, id, now) => ActKeepsSound(c, w, k, id, now);
    case Drain(m, id, now) => DrainKeepsSound(c, w, m, id, now);
  }

  lemma FreeingKeeps(c: Config, w: World, op: Op)
    requires Sound(c, w) && Allowed(c, w, Moves(op)) && (op.Discard? || op.DropAborted? || op.Scrub? || op.Remove?)
    ensures Sound(c, World(GraphAfter(w, op), Do(c, w.s, op)))
  {
    match op
    case Discard => DiscardKeepsSound(c, w);
    case DropAborted(st, p) => DropKeepsSound(c, w, st, p);
    case Scrub => ScrubKeepsSound(c, w);
    case Remove(id) => RemoveKeepsSound(c, w, id);
  }

  lemma MovesKeep(c: Config, w: World, op: Op)
    requires Sound(c, w) && Allowed(c, w, Moves(op))
    ensures Sound(c, World(GraphAfter(w, op), Do(c, w.s, op)))
  {
    if Counting(op) || op.Schedule? {
      CountingKeeps(c, w, op);
    } else if Idles(op) {
      IdlesKeeps(c, w, op);
    } else {
      FreeingKeeps(c, w, op);
    }
  }

  /** Every event of the whole scheduler keeps the whole invariant. */
  lemma EffectKeeps(c: Config, w: World, e: Runner.Event)
    requires Sound(c, w) && Allowed(c, w, e)
    ensures Sound(c, Effect(c, w, e))
  {
    match e
    case GraphEvent(x) => GraphEventKeeps(c, w, x);
    case Moves(op) => MovesKeep(c, w, op);
  }

  lemma InitialSound(c: Config, inputs: map<Path, set<Path>>)
    ensures Sound(c, Initial(inputs))
  {
    InitHolds(inputs);
    InitAgrees(c);
  }
}
