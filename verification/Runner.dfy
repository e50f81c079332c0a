/**
 The whole scheduler: the step graph and the scheduling state moving together.
 Events of the graph interleave with the operations of the dispatch loop, of the tasks
 that complete and fail jobs, and of machines joining, reporting and leaving.
 */
module Runner {
  import opened Reachability
  import opened StepGraph
  import opened Scheduling
  import opened SchedulingInvariant

  datatype World = World(g: Graph, s: Sched)

  datatype Event =
    | GraphEvent(e: StepGraph.Event)
    | Moves(op: Op)

  function StepPath(g: Graph, st: StepId): Path
    requires st in g.steps
  {
    g.steps[st].path
  }

  /** The steps the dispatch loop holds themselves. */
  function StepsInHand(d: Dispatcher): set<StepId> {
    if d.Collecting? then d.offered else if d.Aborting? then d.steps else {}
  }

  /** Nothing of the scheduler owns the step. */
  ghost predicate Unheld(s: Sched, st: StepId) {
    st !in StepsInHand(s.dispatcher) && forall i :: Live(s, i) ==> s.infos[i].step != st
  }

  predicate Ready(g: Graph, st: StepId) {
    st in g.steps && st in g.live && g.steps[st].runnable
  }

  predicate MayInsert(c: Config, w: World, st: StepId, p: Path, i: InfoId, order: seq<InfoId>) {
    CanInsert(c, w.s, st, p, i, order) && st in w.g.steps && StepPath(w.g, st) == p && !w.g.steps[st].finished
  }

  predicate MayReject(w: World, st: StepId) {
    st in w.g.steps && (StepPath(w.g, st) in w.s.jobs || w.g.steps[st].finished)
  }

  predicate MayPick(c: Config, w: World, i: InfoId, m: MachineId, t0: int, now: int) {
    CanPick(c, w.s, i, m, t0, now) && w.s.infos[i].step in w.g.steps && !w.g.steps[w.s.infos[i].step].finished
  }

  /** A completion ends after the dependents were woken. */
  predicate MayEnd(w: World, id: TaskId) {
    && CanEnd(w.s, id)
    && (w.s.tasks[id].Completing? && w.s.tasks[id].info in w.s.infos ==>
          w.s.infos[w.s.tasks[id].info].step !in w.g.finishing)
  }

  /** What an operation asks of the step graph. */
  predicate Fits(c: Config, w: World, op: Op) {
    match op
    case Offer(st) => Ready(w.g, st) && Registered(w.g, st)
    case Insert(st, p, i, order) => MayInsert(c, w, st, p, i, order)
    case Reject(st) => MayReject(w, st)
    case Pick(i, m, t0, now) => MayPick(c, w, i, m, t0, now)
    case Unsupported(st) => Ready(w.g, st)
    case DropAborted(st, p) => st in w.g.steps && StepPath(w.g, st) == p
    case End(id) => MayEnd(w, id)
    case _ => true
  }

  /** The call completes the step of a scheduled path. */
  predicate Succeeds(s: Sched, k: CallId) {
    k in s.calls && Followable(s, s.calls[k].path) && s.calls[k].outcome.Success?
  }

  ghost predicate MayAct(w: World, k: CallId, id: TaskId, now: int) {
    CanAct(w.s, k, id, now) && (Succeeds(w.s, k) ==> Enabled(w.g, Finish(StepOf(w.s, w.s.calls[k].path))))
  }

  ghost function ActGraph(w: World, k: CallId): Graph
    requires Succeeds(w.s, k) ==> Enabled(w.g, Finish(StepOf(w.s, w.s.calls[k].path)))
  {
    if Succeeds(w.s, k) then Apply(w.g, Finish(StepOf(w.s, w.s.calls[k].path))) else w.g
  }

  ghost predicate MayPass(w: World, id: TaskId, v: set<StepId>) {
    CanTaskPass(w.s, id) && Enabled(w.g, Fail(w.s.infos[w.s.tasks[id].info].step, v))
  }

  ghost predicate MayCachePass(w: World, v: set<StepId>) {
    CanCachePass(w.s) && Enabled(w.g, Fail(w.s.infos[w.s.dispatcher.info].step, v))
  }

  /** The graph is ready for its part of the operation: a success finishes its step, and a
      pass over the dependents of a failed step that met no unfinished build takes them
      out of the registry. */
  ghost predicate GraphCan(w: World, op: Op) {
    match op
    case CachePass(v) => MayCachePass(w, v)
    case AbortPass(st, v) => Enabled(w.g, Fail(st, v))
    case TaskPass(id, v) => MayPass(w, id, v)
    case Act(k, id, now) => MayAct(w, k, id, now)
    case _ => true
  }

  ghost function GraphAfter(w: World, op: Op): Graph
    requires GraphCan(w, op)
  {
    match op
    case CachePass(v) => Apply(w.g, Fail(w.s.infos[w.s.dispatcher.info].step, v))
    case AbortPass(st, v) => Apply(w.g, Fail(st, v))
    case TaskPass(id, v) => Apply(w.g, Fail(w.s.infos[w.s.tasks[id].info].step, v))
    case Act(k, _, _) => ActGraph(w, k)
    case _ => w.g
  }

  ghost predicate Allowed(c: Config, w: World, e: Event) {
    match e
    case GraphEvent(x) => Enabled(w.g, x) && !x.Finish? && !x.Fail? && (x.Free? ==> Unheld(w.s, x.s))
    case Moves(op) => Can(c, w.s, op) && Fits(c, w, op) && GraphCan(w, op)
  }

  ghost function Effect(c: Config, w: World, e: Event): World
    requires Allowed(c, w, e)
  {
    match e
    case GraphEvent(x) => w.(g := Apply(w.g, x))
    case Moves(op) => World(GraphAfter(w, op), Do(c, w.s, op))
  }

  function Initial(inputs: map<Path, set<Path>>): World {
    World(StepGraph.Init(inputs), Scheduling.Init())
  }

  // ---- the invariant ----

  /** What can be followed leads to a live runnable step. */
  predicate LinkOk(w: World, i: InfoId) {
    Live(w.s, i) ==> Ready(w.g, w.s.infos[i].step) && StepPath(w.g, w.s.infos[i].step) == w.s.infos[i].path
  }

  predicate StepHeldOk(w: World, st: StepId) {
    st in StepsInHand(w.s.dispatcher) ==> Ready(w.g, st)
  }

  /** What is scheduled or worked on by the dispatch loop is unfinished. */
  predicate BusyOk(w: World, i: InfoId) {
    i in w.s.infos && (w.s.infos[i].already || i in InHand(w.s.dispatcher)) ==>
      w.s.infos[i].step in w.g.steps && !w.g.steps[w.s.infos[i].step].finished
  }

  /** A task works on a step that was sent out. It is finished if the task completes
      it; it failed for good if the task fails it, and has left the registry after the
      pass that met no unfinished build. */
  predicate TaskOk(w: World, k: TaskId) {
    k in w.s.tasks && w.s.tasks[k].info in w.s.infos ==>
      var st := w.s.infos[w.s.tasks[k].info].step;
      && Starts(w.s, st) != [] && st in w.g.steps
      && (w.s.tasks[k].Completing? ==> w.g.steps[st].finished)
      && (w.s.tasks[k].Failing? ==> st in w.s.doomed && (w.s.tasks[k].passed ==> !Registered(w.g, st)))
  }

  function Most(c: Config): nat { if c.maxRetries > 1 then c.maxRetries else 1 }

  /** The step was sent out and its outcome is not known yet. */
  predicate Running(w: World, st: StepId) {
    st in w.g.steps &&
    var p := StepPath(w.g, st);
    || (p in w.s.scheduled && w.s.scheduled[p].info in w.s.infos && w.s.infos[w.s.scheduled[p].info].step == st)
    || (w.s.dispatcher.Sent? && w.s.dispatcher.info in w.s.infos && w.s.infos[w.s.dispatcher.info].step == st)
  }

  /** How often a step object was sent out, against its counted tries, as long as it
      was not sent out again after it had failed for good. */
  predicate CountOk(c: Config, w: World, st: StepId) {
    var n, t := |Starts(w.s, st)|, Tries(w.s, st);
    && |Fails(w.s, st)| == t
    && (st !in w.g.steps ==> n == 0 && t == 0 && st !in w.s.doomed)
    && (st in w.s.doomed ==> n > 0)
    && (st in w.s.resent ==> st in w.s.doomed)
    && (st !in w.s.resent ==>
          && n <= Most(c) && t <= n <= t + 1
          && (Running(w, st) ==> n == t + 1 && st !in w.s.doomed && (t == 0 || t < c.maxRetries))
          && (st in w.g.steps && !Running(w, st) && st !in w.s.doomed && !w.g.steps[st].finished ==>
                n == t && (t == 0 || t < c.maxRetries))
          && (st in w.s.doomed ==> n == t + 1 || (n == t && t >= 1 && t >= c.maxRetries)))
  }

  /** Starts and failures alternate in time, and each attempt starts no earlier
      than the pause after the failure before it. */
  predicate Paced(c: Config, a: seq<int>, f: seq<int>, clock: int) {
    && |f| <= |a| <= |f| + 1
    && (forall k :: 0 <= k < |a| ==> a[k] <= clock)
    && (forall k :: 0 <= k < |f| ==> a[k] <= f[k] <= clock)
    && (forall k :: 0 < k < |a| ==> a[k] >= f[k - 1] + Delay(c, k) * NANOS)
  }

  predicate PaceOk(c: Config, s: Sched, st: StepId) {
    st !in s.resent ==>
      var f := Fails(s, st);
      && Paced(c, Starts(s, st), f, s.clock)
      && (st !in s.doomed && f != [] ==> After(s, st) == f[|f| - 1] + Delay(c, |f|) * NANOS)
  }

  /** The step's own info is owned and in its queue. */
  predicate Queued(w: World, st: StepId) {
    && st in w.g.steps && StepPath(w.g, st) in w.s.jobs
    && var i := w.s.jobs[StepPath(w.g, st)]; i in w.s.infos && w.s.infos[i].step == st && Listed(w.s, i)
  }

  predicate Registers(g: Graph, st: StepId) {
    st in g.steps && Registered(g, st) && !g.steps[st].finished
  }

  /** A registered unfinished step that was sent out stays queued, unless it failed for
      good or its job was dropped. */
  predicate KeepOk(w: World, st: StepId) {
    Registers(w.g, st) && Starts(w.s, st) != [] && st !in w.s.doomed && st !in w.s.dropped ==> Queued(w, st)
  }

  /** The chosen entry is due, and owned if it was never sent out; a cache hit whose
      dependents were failed has left the registry. */
  predicate HandStepOk(w: World) {
    var d := w.s.dispatcher;
    && (d.Chosen? && d.info in w.s.infos ==>
          var f := w.s.infos[d.info];
          && After(w.s, f.step) <= w.s.clock
          && (Starts(w.s, f.step) == [] ==> f.path in w.s.jobs && w.s.jobs[f.path] == d.info))
    && (d.CacheHit? && d.passed && d.info in w.s.infos ==>
          w.s.infos[d.info].step in w.g.steps && !Registered(w.g, w.s.infos[d.info].step))
  }

  ghost predicate Linked(w: World) {
    && (forall i :: LinkOk(w, i)) && (forall st :: StepHeldOk(w, st)) && (forall i :: BusyOk(w, i))
    && (forall k :: TaskOk(w, k)) && HandStepOk(w)
  }

  ghost predicate Counted(c: Config, w: World) {
    && (forall st :: CountOk(c, w, st))
    && (forall st :: PaceOk(c, w.s, st))
    && (forall st :: KeepOk(w, st))
  }

  ghost predicate Sound(c: Config, w: World) {
    Inv(w.g) && Agreement(c, w.s) && Linked(w) && Counted(c, w)
  }
}
