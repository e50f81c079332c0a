/** What holds in every run of the whole scheduler. */
module RunnerTheorems {
  import opened Reachability
  import opened StepGraph
  import opened StepGraphInvariant
  import opened StepGraphTheorems
  import opened Scheduling
  import opened SchedulingInvariant
  import opened SchedulingFrames
  import opened Runner
  import opened RunnerInvariant

  ghost predicate WorldNext(c: Config, ws: seq<World>, es: seq<Runner.Event>, i: nat)
    requires |ws| == |es| + 1 && i < |es|
  {
    Allowed(c, ws[i], es[i]) && ws[i + 1] == Effect(c, ws[i], es[i])
  }

  /** Any interleaving of allowed events from the empty scheduler. */
  ghost predicate WorldRun(c: Config, ws: seq<World>, es: seq<Runner.Event>) {
    && |ws| == |es| + 1
    && ws[0] == Initial(ws[0].g.inputs)
    && forall i :: 0 <= i < |es| ==> WorldNext(c, ws, es, i)
  }

  lemma {:induction false} WorldSound(c: Config, ws: seq<World>, es: seq<Runner.Event>, i: nat)
    requires WorldRun(c, ws, es) && i < |ws|
    ensures Sound(c, ws[i])
  {
    if i == 0 {
      InitialSound(c, ws[0].g.inputs);
    } else {
      WorldSound(c, ws, es, i - 1);
      assert WorldNext(c, ws, es, i - 1);
      EffectKeeps(c, ws[i - 1], es[i - 1]);
    }
  }

  // ---- what never goes back ----

  lemma EffectLater(c: Config, w: World, e: Runner.Event)
    requires Sound(c, w) && Allowed(c, w, e)
    ensures Later(w.g, Effect(c, w, e).g)
  {
    match e
    case GraphEvent(x) => EventLater(w.g, x);
    case Moves(op) => MoveLater(c, w, op);
  }

  lemma MoveLater(c: Config, w: World, op: Op)
    requires Inv(w.g) && Can(c, w.s, op) && GraphCan(w, op)
    ensures Later(w.g, GraphAfter(w, op))
  {
    SameGraph(w.g);
    match op
    case CachePass(v) => EventLater(w.g, Fail(w.s.infos[w.s.dispatcher.info].step, v));
    case AbortPass(st, v) => EventLater(w.g, Fail(st, v));
    case TaskPass(id, v) => EventLater(w.g, Fail(w.s.infos[w.s.tasks[id].info].step, v));
    case Act(k, _, _) => if Succeeds(w.s, k) { EventLater(w.g, Finish(StepOf(w.s, w.s.calls[k].path))); }
    case _ =>
  }

  lemma {:induction false} WorldLater(c: Config, ws: seq<World>, es: seq<Runner.Event>, i: nat, j: nat)
    requires WorldRun(c, ws, es) && i <= j < |ws|
    ensures Later(ws[i].g, ws[j].g)
    decreases j - i
  {
    if i == j {
      SameGraph(ws[i].g);
    } else {
      WorldLater(c, ws, es, i, j - 1);
      WorldSound(c, ws, es, j - 1);
      assert WorldNext(c, ws, es, j - 1);
      EffectLater(c, ws[j - 1], es[j - 1]);
      LaterTrans(ws[i].g, ws[j - 1].g, ws[j].g);
    }
  }

  // ---- topological safety of dispatch ----

  /** Event `k` sends the step object to a machine. */
  predicate Sends(ws: seq<World>, es: seq<Runner.Event>, k: nat, st: StepId)
    requires |ws| == |es| + 1 && k < |es|
  {
    && es[k].Moves? && es[k].op.Send? && ws[k].s.dispatcher.Chosen?
    && ws[k].s.dispatcher.info in ws[k].s.infos && ws[k].s.infos[ws[k].s.dispatcher.info].step == st
  }

  /** A step is sent to a machine only after every dependency recorded for it at
      any time of the run has finished. */
  lemma SentOnlyAfterDependencies(c: Config, ws: seq<World>, es: seq<Runner.Event>, k: nat, j: nat, st: StepId,
      d: StepId)
    requires WorldRun(c, ws, es) && k < |es| && Sends(ws, es, k, st) && j < |ws|
    requires st in ws[j].g.steps && d in ws[j].g.steps[st].everDeps
    ensures d in ws[k].g.steps && ws[k].g.steps[d].finished
  {
    WorldSound(c, ws, es, k);
    WorldSound(c, ws, es, j);
    ChosenRests(c, ws[k]);
    if k <= j { WorldLater(c, ws, es, k, j); } else { WorldLater(c, ws, es, j, k); }
    RunnableDepsDone(ws[k].g, ws[j].g, st, d);
  }

  // ---- agreement and capacity ----

  /** The job for the path was sent to the machine and is not yet recorded as scheduled. */
  predicate FliesTo(s: Sched, p: Path, m: MachineId) {
    && s.dispatcher.Sent? && s.dispatcher.machine == m
    && s.dispatcher.info in s.infos && s.infos[s.dispatcher.info].path == p
  }

  /** In every reachable state: a derivation has at most one job over all machines,
      and it has one exactly when it is in `scheduled`, on the machine named there, or
      the dispatch loop has just sent it; the flag of every info says whether it is
      scheduled; at most one entry of each path can be followed in the queues; every
      machine counts its jobs and, under a job limit, stays within it; every queue
      counts the scheduled items that point at it. */
  lemma SchedulingAgreement(c: Config, ws: seq<World>, es: seq<Runner.Event>, k: nat)
    requires WorldRun(c, ws, es) && k < |ws|
    ensures var s := ws[k].s;
      && (forall m, n, a, b |
            m in s.machines && n in s.machines && 0 <= a < |s.machines[m].jobs| && 0 <= b < |s.machines[n].jobs| ::
            s.machines[m].jobs[a].path == s.machines[n].jobs[b].path ==> m == n && a == b)
      && (forall p, m :: m in s.machines ==>
            ((p in s.scheduled && s.scheduled[p].machine == m) || FliesTo(s, p, m) <==> HasJob(s.machines[m], p)))
      && (forall i :: i in s.infos ==>
            (s.infos[i].already <==> s.infos[i].path in s.scheduled && s.scheduled[s.infos[i].path].info == i))
      && (forall i, j :: Waits(s, i) && Waits(s, j) && s.infos[i].path == s.infos[j].path ==> i == j)
      && (forall m :: m in s.machines ==> s.machines[m].currentJobs == |s.machines[m].jobs|)
      && (forall m :: m in s.machines && c.limited ==> |s.machines[m].jobs| <= s.machines[m].maxJobs)
      && (forall y :: y in s.queues ==> s.queues[y].active == |ScheduledOn(s, y)|)
  {
    var s := ws[k].s;
    WorldSound(c, ws, es, k);
    forall m, n, a, b | m in s.machines && n in s.machines && 0 <= a < |s.machines[m].jobs|
      && 0 <= b < |s.machines[n].jobs|
      && s.machines[m].jobs[a].path == s.machines[n].jobs[b].path
      ensures m == n && a == b
    {
      assert DistinctOk(s, m, s.machines[m].jobs[a], n, s.machines[n].jobs[b]) && MachineOk(c, s, m);
      DistinctIndex(s.machines[m].jobs, a, b);
    }
    forall p, m | m in s.machines
      ensures (p in s.scheduled && s.scheduled[p].machine == m) || FliesTo(s, p, m) <==> HasJob(s.machines[m], p)
    {
      JobIffSent(c, s, p, m);
    }
    forall i | i in s.infos
      ensures s.infos[i].already <==> s.infos[i].path in s.scheduled && s.scheduled[s.infos[i].path].info == i
    {
      assert InfoOk(c, s, i);
    }
    forall i, j | Waits(s, i) && Waits(s, j) && s.infos[i].path == s.infos[j].path ensures i == j {
      assert UniqueOk(s, i, j);
    }
    forall m | m in s.machines
      ensures s.machines[m].currentJobs == |s.machines[m].jobs|
      ensures c.limited ==> |s.machines[m].jobs| <= s.machines[m].maxJobs
    {
      assert MachineOk(c, s, m);
    }
    forall y | y in s.queues ensures s.queues[y].active == |ScheduledOn(s, y)| { assert QueueOk(s, y); }
  }

  lemma JobIffSent(c: Config, s: Sched, p: Path, m: MachineId)
    requires Agreement(c, s) && m in s.machines
    ensures (p in s.scheduled && s.scheduled[p].machine == m) || FliesTo(s, p, m) <==> HasJob(s.machines[m], p)
  {
    assert ItemOk(s, p);
    forall j | j in s.machines[m].jobs && j.path == p
      ensures (p in s.scheduled && s.scheduled[p].machine == m) || FliesTo(s, p, m)
    {
      assert OnMachineOk(s, m, j);
    }
  }

  lemma {:induction false} DistinctIndex(jobs: seq<Job>, a: nat, b: nat)
    requires Distinct(jobs) && a < |jobs| && b < |jobs| && jobs[a] == jobs[b]
    ensures a == b
  {
    if a > 0 && b > 0 {
      DistinctIndex(jobs[1..], a - 1, b - 1);
    } else {
      assert jobs[1..] == jobs[1..|jobs|];
    }
  }

  // ---- at most one completion per job identifier ----

  /** The identifier was handed out and no machine that can report has a job with it
      any more. */
  ghost predicate Spent(s: Sched, u: Uuid) {
    u in s.used && forall m :: m in s.machines && m in s.online ==> forall j :: j in s.machines[m].jobs ==> j.uuid != u
  }

  predicate HasUuid(s: Sched, m: MachineId, u: Uuid) {
    m in s.machines && exists j :: j in s.machines[m].jobs && j.uuid == u
  }

  predicate Offline(s: Sched, m: MachineId) {
    m in s.machines && m !in s.online
  }

  /** Jobs and machines are only new or those of before. */
  ghost predicate OnlyNew(s: Sched, h: Sched) {
    && s.used <= h.used && s.machines.Keys <= h.machines.Keys
    && (forall m, j :: m in h.machines && j in h.machines[m].jobs ==>
          (m in s.machines && j in s.machines[m].jobs) || j.uuid !in s.used)
    && (forall m :: m in h.online ==> m in s.online || m !in s.machines)
  }

  lemma SpentStays(c: Config, s: Sched, h: Sched, u: Uuid)
    requires Agreement(c, s) && OnlyNew(s, h)
    ensures Spent(s, u) ==> Spent(h, u)
  {
  }

  lemma ApartOnlyNew(c: Config, s: Sched, p: Path, r: BuildResultState, id: TaskId, now: int, h: Sched)
    requires IsApart(c, s, p, r, id, now, h)
    ensures OnlyNew(s, h)
  {
    if p in s.scheduled { ApartTables(c, s, p, r, id, now); }
  }

  lemma SendOnlyNew(c: Config, s: Sched, u: Uuid, now: int)
    requires CanSend(s, u, now)
    ensures OnlyNew(s, SendOut(s, u, now))
  {
  }

  lemma CountingOnlyNew(c: Config, s: Sched, op: Op)
    requires Can(c, s, op) && Counting(op)
    ensures OnlyNew(s, Do(c, s, op))
  {
    match op
    case Act(k, id, now) =>
      ActIs(c, s, k, id, now);
      ApartOnlyNew(c, s, s.calls[k].path, s.calls[k].outcome, id, now, DoAct(c, s, k, id, now));
    case Drain(m, id, now) =>
      DrainIs(c, s, m, id, now);
      ApartOnlyNew(c, s, s.draining[m][0], PreparingFailure, id, now, DoDrain(c, s, m, id, now));
    case Send(u, now) => SendOnlyNew(c, s, u, now);
    case Insert(st, p, i, order) => assert OnlyNew(s, DoInsert(c, s, st, p, i, order));
  }

  lemma FramedOnlyNew(s: Sched, h: Sched, op: Op)
    requires AllFramed(s, h, op)
    ensures OnlyNew(s, h)
  {
  }

  lemma DoOnlyNew(c: Config, s: Sched, op: Op)
    requires Agreement(c, s) && Can(c, s, op)
    ensures OnlyNew(s, Do(c, s, op))
  {
    if Counting(op) {
      CountingOnlyNew(c, s, op);
    } else {
      OpFrame(c, s, op);
      FramedOnlyNew(s, Do(c, s, op), op);
    }
  }

  lemma EffectOnlyNew(c: Config, w: World, e: Runner.Event, u: Uuid, m: MachineId)
    requires Sound(c, w) && Allowed(c, w, e)
    ensures Spent(w.s, u) ==> Spent(Effect(c, w, e).s, u)
    ensures Offline(w.s, m) ==> Offline(Effect(c, w, e).s, m)
  {
    if e.Moves? {
      DoOnlyNew(c, w.s, e.op);
      SpentStays(c, w.s, Do(c, w.s, e.op), u);
    }
  }

  lemma {:induction false} WorldOnlyNew(c: Config, ws: seq<World>, es: seq<Runner.Event>, i: nat, j: nat, u: Uuid,
      m: MachineId)
    requires WorldRun(c, ws, es) && i <= j < |ws|
    ensures Spent(ws[i].s, u) ==> Spent(ws[j].s, u)
    ensures Offline(ws[i].s, m) ==> Offline(ws[j].s, m)
    decreases j - i
  {
    if i < j {
      WorldOnlyNew(c, ws, es, i, j - 1, u, m);
      NextOnlyNew(c, ws, es, j - 1, u, m);
    }
  }

  lemma NextOnlyNew(c: Config, ws: seq<World>, es: seq<Runner.Event>, k: nat, u: Uuid, m: MachineId)
    requires WorldRun(c, ws, es) && k < |es|
    ensures Spent(ws[k].s, u) ==> Spent(ws[k + 1].s, u)
    ensures Offline(ws[k].s, m) ==> Offline(ws[k + 1].s, m)
  {
    WorldSound(c, ws, es, k);
    assert WorldNext(c, ws, es, k);
    EffectOnlyNew(c, ws[k], es[k], u, m);
  }

  /** The path that the first section of a completion or failure works on. */
  function Target(c: Config, s: Sched, op: Op): seq<Path>
    requires Can(c, s, op)
  {
    match op
    case Act(k, _, _) => [s.calls[k].path]
    case Drain(m, _, _) => [s.draining[m][0]]
    case _ => []
  }

  /** The operation takes the job with the identifier off its machine. */
  predicate TakesUuid(c: Config, s: Sched, op: Op, u: Uuid)
    requires Can(c, s, op)
  {
    Target(c, s, op) != [] &&
    var p := Target(c, s, op)[0];
    p in s.scheduled && s.scheduled[p].machine in s.machines && Job(u, p) in s.machines[s.scheduled[p].machine].jobs
  }

  lemma TakingSpends(c: Config, s: Sched, op: Op, u: Uuid)
    requires Agreement(c, s) && Can(c, s, op) && TakesUuid(c, s, op, u)
    ensures Spent(Do(c, s, op), u)
  {
    var p := Target(c, s, op)[0];
    var m := s.scheduled[p].machine;
    var h := Do(c, s, op);
    match op {
      case Act(k, id, now) => ApartTables(c, s, p, s.calls[k].outcome, id, now);
      case Drain(n, id, now) => ApartTables(c, s, p, PreparingFailure, id, now);
    }
    assert h.machines == Release(s, p).machines && h.used == s.used;
    assert OnMachineOk(s, m, Job(u, p));
    forall n, j | n in h.machines && j in h.machines[n].jobs ensures j.uuid != u {
      assert DistinctOk(s, m, Job(u, p), n, j);
    }
  }

  lemma LossSpends(c: Config, s: Sched, m: MachineId, u: Uuid)
    requires Agreement(c, s) && CanLose(s, m) && HasUuid(s, m, u)
    ensures Spent(DoLose(s, m), u)
  {
    var j :| j in s.machines[m].jobs && j.uuid == u;
    assert OnMachineOk(s, m, j);
    forall n, k | n in s.machines && n != m && k in s.machines[n].jobs ensures k.uuid != u {
      assert DistinctOk(s, m, j, n, k);
    }
  }

  /** Event `k` settles the job with the identifier: a report or a cancellation takes
      it off its machine, or its machine is lost. */
  predicate Settles(c: Config, w: World, e: Runner.Event, u: Uuid) {
    e.Moves? && Can(c, w.s, e.op) && (TakesUuid(c, w.s, e.op, u) || (e.op.Lose? && HasUuid(w.s, e.op.m, u)))
  }

  lemma SettlingEnds(c: Config, w: World, e: Runner.Event, u: Uuid, m: MachineId)
    requires Sound(c, w) && Allowed(c, w, e)
    requires Settles(c, w, e, u) || (e.Moves? && e.op.Lose? && e.op.m == m)
    ensures Spent(Effect(c, w, e).s, u) || Offline(Effect(c, w, e).s, m)
  {
    if TakesUuid(c, w.s, e.op, u) {
      TakingSpends(c, w.s, e.op, u);
    } else if e.op.m != m {
      LossSpends(c, w.s, e.op.m, u);
    } else {
      assert Offline(DoLose(w.s, m), m);
    }
  }

  lemma SettledNow(c: Config, ws: seq<World>, es: seq<Runner.Event>, k: nat, u: Uuid, m: MachineId)
    requires WorldRun(c, ws, es) && k < |es|
    requires Settles(c, ws[k], es[k], u) || (es[k].Moves? && es[k].op.Lose? && es[k].op.m == m)
    ensures Spent(ws[k + 1].s, u) || Offline(ws[k + 1].s, m)
  {
    WorldSound(c, ws, es, k);
    assert WorldNext(c, ws, es, k);
    SettlingEnds(c, ws[k], es[k], u, m);
  }

  lemma LateReport(c: Config, ws: seq<World>, es: seq<Runner.Event>, l: nat)
    requires WorldRun(c, ws, es) && l < |es| && es[l].Moves? && es[l].op.Report?
    requires Spent(ws[l].s, es[l].op.u) || Offline(ws[l].s, es[l].op.m)
    ensures ws[l + 1] == ws[l]
  {
    assert WorldNext(c, ws, es, l);
    UnknownReport(c, ws[l], es[l].op.m, es[l].op.u, es[l].op.r, es[l].op.k);
  }

  /** Once a job was settled, every later report with its identifier changes nothing,
      whoever sends it, whatever it says and wherever the derivation has been sent
      since. Nor does any report of a lost machine. */
  lemma AtMostOnce(c: Config, ws: seq<World>, es: seq<Runner.Event>, k: nat, l: nat)
    requires WorldRun(c, ws, es) && k < l < |es| && es[l].Moves? && es[l].op.Report?
    requires Settles(c, ws[k], es[k], es[l].op.u) || (es[k].Moves? && es[k].op.Lose? && es[k].op.m == es[l].op.m)
    ensures ws[l + 1] == ws[l]
  {
    SettledNow(c, ws, es, k, es[l].op.u, es[l].op.m);
    WorldOnlyNew(c, ws, es, k + 1, l, es[l].op.u, es[l].op.m);
    LateReport(c, ws, es, l);
  }

  lemma UnknownReport(c: Config, w: World, m: MachineId, u: Uuid, r: BuildResultState, k: CallId)
    requires Allowed(c, w, Moves(Report(m, u, r, k))) && (Spent(w.s, u) || Offline(w.s, m))
    ensures Effect(c, w, Moves(Report(m, u, r, k))) == w
  {
  }

  // ---- what a call does ----

  /** A call that found its path acts if and only if the path is scheduled when its turn
      comes; then the path is no longer scheduled. Otherwise nothing changes but the
      call itself. */
  lemma ActsIffScheduled(c: Config, w: World, k: CallId, id: TaskId, now: int)
    requires Sound(c, w) && Allowed(c, w, Moves(Act(k, id, now)))
    ensures var h := Effect(c, w, Moves(Act(k, id, now)));
      && (w.s.calls[k].path in w.s.scheduled <==> h != w.(s := w.s.(calls := w.s.calls - {k})))
      && w.s.calls[k].path !in h.s.scheduled
  {
    var h := Effect(c, w, Moves(Act(k, id, now)));
    var p := w.s.calls[k].path;
    if p in w.s.scheduled {
      ApartTables(c, w.s, p, w.s.calls[k].outcome, id, now);
      assert p in w.s.scheduled && p !in h.s.scheduled;
    }
  }

  /** Whatever call waits for its turn, it can take it. */
  lemma CallsCanAct(c: Config, w: World, k: CallId, id: TaskId, now: int)
    requires Sound(c, w) && k in w.s.calls && id !in w.s.tasks && w.s.clock <= now
    ensures Allowed(c, w, Moves(Act(k, id, now)))
  {
    if w.s.calls[k].path in w.s.scheduled { ScheduledStep(c, w, w.s.calls[k].path); }
  }

  /** A report that arrives after the job was sent and before it is recorded as
      scheduled finds the job. If its turn comes before that too, it is lost, and the
      job is scheduled as if it had never been reported. */
  lemma EarlyReportIsLost(c: Config, w: World, r: BuildResultState, k: CallId, id: TaskId, now: int)
    requires Sound(c, w) && w.s.dispatcher.Sent? && w.s.dispatcher.machine in w.s.online
    requires k !in w.s.calls && id !in w.s.tasks && w.s.clock <= now
    ensures var d := w.s.dispatcher;
      && Allowed(c, w, Moves(Report(d.machine, d.uuid, r, k))) && d.info in w.s.infos
      && var w1 := Effect(c, w, Moves(Report(d.machine, d.uuid, r, k)));
         && w1.s.calls == w.s.calls[k := Call(w.s.infos[d.info].path, r)]
         && Allowed(c, w1, Moves(Act(k, id, now)))
         && Effect(c, w1, Moves(Act(k, id, now))) == w
  {
    var d := w.s.dispatcher;
    EarlyTarget(c, w.s);
    var w1 := Effect(c, w, Moves(Report(d.machine, d.uuid, r, k)));
    assert w1.s == w.s.(calls := w.s.calls[k := Call(w.s.infos[d.info].path, r)]);
    assert w1.s.calls - {k} == w.s.calls;
  }

  lemma EarlyTarget(c: Config, s: Sched)
    requires Agreement(c, s) && s.dispatcher.Sent? && s.dispatcher.machine in s.online
    ensures var d := s.dispatcher;
      && d.info in s.infos && ReportTarget(s, d.machine, d.uuid) == [s.infos[d.info].path]
      && s.infos[d.info].path !in s.scheduled
  {
    var d := s.dispatcher;
    HandApart(c, s);
    var p := s.infos[d.info].path;
    var jobs := s.machines[d.machine].jobs;
    assert Job(d.uuid, p) in jobs;
    var q := FindUuid(jobs, d.uuid)[0];
    assert DistinctOk(s, d.machine, Job(d.uuid, p), d.machine, Job(d.uuid, q));
  }
}
