/**
 Runs of the whole scheduler, with one derivation without inputs and one machine, that
 show what a job in flight does to the claims about retries, reports and lost machines.
 */
module RunnerScenarios {
  import opened StepGraph
  import opened StepGraphInvariant
  import opened Scheduling
  import opened SchedulingInvariant
  import opened SchedulingFrames
  import opened Runner
  import opened RunnerInvariant
  import opened RunnerTheorems
  import opened RunnerRetries
  import opened RunnerForgotten
  import opened RunnerMachines

  function Linux(p: Path): System { "linux" }

  /** At most `n` tries and no pause between them. */
  function C(n: nat): Config { Config(n, 0.0, 1.0, true, Linux) }

  ghost predicate RunTo(c: Config, ws: seq<World>, es: seq<Runner.Event>, w: World) {
    WorldRun(c, ws, es) && ws[|es|] == w
  }

  ghost predicate Reachable(c: Config, w: World) {
    exists ws, es :: RunTo(c, ws, es, w)
  }

  lemma Starting(c: Config, inputs: map<Path, set<Path>>)
    ensures Reachable(c, Initial(inputs))
  {
    assert RunTo(c, [Initial(inputs)], [], Initial(inputs));
  }

  ghost predicate Leads(c: Config, w: World, e: Runner.Event, h: World) {
    Allowed(c, w, e) && Effect(c, w, e) == h
  }

  lemma Then(c: Config, w: World, e: Runner.Event, h: World)
    requires Reachable(c, w) && Leads(c, w, e, h)
    ensures Reachable(c, h)
  {
    var ws, es :| RunTo(c, ws, es, w);
    var hs, fs := ws + [h], es + [e];
    forall k | 0 <= k < |fs| ensures WorldNext(c, hs, fs, k) {
      if k < |es| { assert WorldNext(c, ws, es, k); }
    }
    assert RunTo(c, hs, fs, h);
  }

  lemma ReachableSound(c: Config, w: World)
    requires Reachable(c, w)
    ensures Sound(c, w)
  {
    var ws, es :| RunTo(c, ws, es, w);
    WorldSound(c, ws, es, |es|);
  }

  // ---- one operation ----

  lemma ThenPick(c: Config, w: World, i: InfoId, m: MachineId, t0: int, now: int)
    requires Reachable(c, w) && MayPick(c, w, i, m, t0, now)
    ensures Reachable(c, w.(s := DoPick(w.s, i, m, now)))
  {
    Then(c, w, Moves(Pick(i, m, t0, now)), w.(s := DoPick(w.s, i, m, now)));
  }

  lemma ThenInsert(c: Config, w: World, st: StepId, p: Path, i: InfoId, order: seq<InfoId>)
    requires Reachable(c, w) && MayInsert(c, w, st, p, i, order)
    ensures Reachable(c, w.(s := DoInsert(c, w.s, st, p, i, order)))
  {
    Then(c, w, Moves(Insert(st, p, i, order)), w.(s := DoInsert(c, w.s, st, p, i, order)));
  }

  lemma ThenSend(c: Config, w: World, u: Uuid, now: int)
    requires Reachable(c, w) && CanSend(w.s, u, now)
    ensures Reachable(c, w.(s := SendOut(w.s, u, now)))
  {
    Then(c, w, Moves(Send(u, now)), w.(s := SendOut(w.s, u, now)));
  }

  lemma ThenSchedule(c: Config, w: World)
    requires Reachable(c, w) && CanSchedule(w.s)
    ensures Reachable(c, w.(s := DoSchedule(w.s)))
  {
    Then(c, w, Moves(Schedule), w.(s := DoSchedule(w.s)));
  }

  lemma ThenDiscard(c: Config, w: World)
    requires Reachable(c, w) && CanDiscard(w.s)
    ensures Reachable(c, w.(s := DoDiscard(w.s)))
  {
    Then(c, w, Moves(Discard), w.(s := DoDiscard(w.s)));
  }

  lemma ThenOffer(c: Config, w: World, st: StepId)
    requires Reachable(c, w) && CanOffer(w.s, st) && Ready(w.g, st) && Registered(w.g, st)
    ensures Reachable(c, w.(s := DoOffer(w.s, st)))
  {
    Then(c, w, Moves(Offer(st)), w.(s := DoOffer(w.s, st)));
  }

  lemma ThenReport(c: Config, w: World, m: MachineId, u: Uuid, r: BuildResultState, k: CallId)
    requires Reachable(c, w) && k !in w.s.calls
    ensures Reachable(c, w.(s := DoReport(w.s, m, u, r, k)))
  {
    Then(c, w, Moves(Report(m, u, r, k)), w.(s := DoReport(w.s, m, u, r, k)));
  }

  /** A failure says nothing to the graph. */
  lemma ThenAct(c: Config, w: World, k: CallId, id: TaskId, now: int)
    requires Reachable(c, w) && CanAct(w.s, k, id, now) && !w.s.calls[k].outcome.Success?
    ensures Reachable(c, w.(s := DoAct(c, w.s, k, id, now)))
  {
    Then(c, w, Moves(Act(k, id, now)), w.(s := DoAct(c, w.s, k, id, now)));
  }

  lemma ThenRemove(c: Config, w: World, id: TaskId)
    requires Reachable(c, w) && CanRemove(w.s, id)
    ensures Reachable(c, w.(s := DoRemove(w.s, id)))
  {
    Then(c, w, Moves(Remove(id)), w.(s := DoRemove(w.s, id)));
  }

  lemma ThenEnd(c: Config, w: World, id: TaskId)
    requires Reachable(c, w) && MayEnd(w, id)
    ensures Reachable(c, w.(s := DoEnd(w.s, id)))
  {
    Then(c, w, Moves(End(id)), w.(s := DoEnd(w.s, id)));
  }

  lemma ThenJoin(c: Config, w: World, m: MachineId, n: nat)
    requires Reachable(c, w) && m !in w.s.machines
    ensures Reachable(c, w.(s := DoJoin(w.s, m, n)))
  {
    Then(c, w, Moves(Join(m, n)), w.(s := DoJoin(w.s, m, n)));
  }

  lemma ThenLose(c: Config, w: World, m: MachineId)
    requires Reachable(c, w) && CanLose(w.s, m)
    ensures Reachable(c, w.(s := DoLose(w.s, m)))
  {
    Then(c, w, Moves(Lose(m)), w.(s := DoLose(w.s, m)));
  }

  lemma ThenDrain(c: Config, w: World, m: MachineId, id: TaskId, now: int)
    requires Reachable(c, w) && CanDrain(w.s, m, id, now)
    ensures Reachable(c, w.(s := DoDrain(c, w.s, m, id, now)))
  {
    Then(c, w, Moves(Drain(m, id, now)), w.(s := DoDrain(c, w.s, m, id, now)));
  }

  lemma ThenPass(c: Config, w: World, id: TaskId, v: set<StepId>, g: Graph)
    requires Reachable(c, w) && MayPass(w, id, v) && g == Apply(w.g, Fail(w.s.infos[w.s.tasks[id].info].step, v))
    ensures Reachable(c, World(g, DoTaskPass(w.s, id)))
  {
    Then(c, w, Moves(TaskPass(id, v)), World(g, DoTaskPass(w.s, id)));
  }

  // ---- a step is made and sent out ----

  const INPUTS: map<Path, set<Path>> := map["a" := {}]

  function A0(n: NestId): Step { NewStep("a", n) }
  function A1(n: NestId): Step { A0(n).(phase := Expanding({}, {}, {}), expanded := true) }
  function A2(n: NestId): Step { A1(n).(phase := Marked, created := true) }
  function A3(n: NestId): Step { A2(n).(phase := Returned) }
  function Built(n: NestId): Step { A3(n).(runnable := true) }

  function One(st: Step, ready: set<StepId>, closed: set<NestId>): Graph {
    Graph(INPUTS, map[0 := st], {0}, map["a" := 0], {}, ready, {}, closed, false)
  }

  const G := One(Built(0), {}, {0})

  /** An event of the graph alone. */
  lemma GraphThen(c: Config, w: World, x: StepGraph.Event, h: Graph)
    requires Reachable(c, w) && Enabled(w.g, x) && Apply(w.g, x) == h && !x.Finish? && !x.Fail? && !x.Free?
    ensures Reachable(c, World(h, w.s))
  {
    Then(c, w, GraphEvent(x), World(h, w.s));
  }

  lemma FirstCreated()
    ensures Enabled(StepGraph.Init(INPUTS), CreateTop("a", 0, 0))
      && Apply(StepGraph.Init(INPUTS), CreateTop("a", 0, 0)) == One(A0(0), {}, {})
    ensures Enabled(One(A0(0), {}, {}), Expand(0)) && Apply(One(A0(0), {}, {}), Expand(0)) == One(A1(0), {}, {})
    ensures Enabled(One(A1(0), {}, {}), MarkCreated(0))
      && Apply(One(A1(0), {}, {}), MarkCreated(0)) == One(A2(0), {}, {})
  {
  }

  lemma FirstChecked()
    ensures Enabled(One(A2(0), {}, {}), CheckDeps(0)) && Apply(One(A2(0), {}, {}), CheckDeps(0)) == One(A3(0), {0}, {})
  {
    assert {} + {0} == {0} && !SetHas(One(A2(0), {}, {}), 0);
  }

  lemma FirstRunnable()
    ensures Enabled(One(A3(0), {0}, {}), Close(0)) && Apply(One(A3(0), {0}, {}), Close(0)) == One(A3(0), {0}, {0})
    ensures Enabled(One(A3(0), {0}, {0}), MakeRunnable(0)) && Apply(One(A3(0), {0}, {0}), MakeRunnable(0)) == G
  {
    var none: set<StepId> := {};
    assert {0} - {0} == none && {} + {0} == {0};
  }

  lemma StepMade(c: Config)
    ensures Reachable(c, World(G, Scheduling.Init()))
  {
    var s := Scheduling.Init();
    Starting(c, INPUTS);
    FirstCreated();
    FirstChecked();
    FirstRunnable();
    GraphThen(c, Initial(INPUTS), CreateTop("a", 0, 0), One(A0(0), {}, {}));
    GraphThen(c, World(One(A0(0), {}, {}), s), Expand(0), One(A1(0), {}, {}));
    GraphThen(c, World(One(A1(0), {}, {}), s), MarkCreated(0), One(A2(0), {}, {}));
    GraphThen(c, World(One(A2(0), {}, {}), s), CheckDeps(0), One(A3(0), {0}, {}));
    GraphThen(c, World(One(A3(0), {0}, {}), s), Close(0), One(A3(0), {0}, {0}));
    GraphThen(c, World(One(A3(0), {0}, {0}), s), MakeRunnable(0), G);
  }

  const INFO := Info(0, "a", "linux", false)
  const BUSY := INFO.(already := true)
  const EMPTY := Machine(1, [], 0)
  const FULL := Machine(1, [Job(7, "a")], 1)

  const S1 := Scheduling.Init().(machines := map[0 := EMPTY], online := {0})
  const S2 := S1.(dispatcher := Collecting({0}))
  const S3 := S1.(infos := map[0 := INFO], jobs := map["a" := 0], queues := map["linux" := Queue([0], 0)])
  const S4 := S3.(dispatcher := Chosen(0, 0))
  const SENT := S3.(dispatcher := Sent(0, 0, 7), machines := map[0 := FULL], used := {7}, starts := map[0 := [0]])
  const RUNNING := SENT.(dispatcher := IDLE, scheduled := map["a" := Item(0, "linux", 0)], infos := map[0 := BUSY],
                         queues := map["linux" := Queue([0], 1)])

  lemma Joins(n: nat)
    requires Reachable(C(n), World(G, Scheduling.Init()))
    ensures Reachable(C(n), World(G, S1))
  {
    assert DoJoin(Scheduling.Init(), 0, 1) == S1 by { assert {} + {0} == {0}; }
    ThenJoin(C(n), World(G, Scheduling.Init()), 0, 1);
  }

  lemma Offers(n: nat)
    requires Reachable(C(n), World(G, S1))
    ensures Reachable(C(n), World(G, S2))
  {
    assert {} + {0} == {0};
    ThenOffer(C(n), World(G, S1), 0);
  }

  lemma Inserts(n: nat)
    requires Reachable(C(n), World(G, S2))
    ensures Reachable(C(n), World(G, S3))
  {
    var none: set<StepId> := {};
    assert {0} - {0} == none;
    assert Entries(S2, "linux") == [] && !Occupied(S2, [], "a");
    assert Pushed(S2, [], "a", 0) == [0];
    ThenInsert(C(n), World(G, S2), 0, "a", 0, [0]);
  }

  lemma Picks(n: nat)
    requires Reachable(C(n), World(G, S3))
    ensures Reachable(C(n), World(G, S4))
  {
    assert S3.queues["linux"].entries[0] == 0;
    ThenPick(C(n), World(G, S3), 0, 0, 0, 0);
  }

  lemma SendsOut(n: nat)
    requires Reachable(C(n), World(G, S4))
    ensures Reachable(C(n), World(G, SENT))
  {
    var a := Job(7, "a");
    assert {} + {7} == {7} && [] + [a] == [a] && Starts(S4, 0) + [0] == [0];
    assert map[0 := EMPTY][0 := FULL] == map[0 := FULL];
    assert SendOut(S4, 7, 0).machines == map[0 := FULL];
    ThenSend(C(n), World(G, S4), 7, 0);
  }

  lemma Records() ensures CanSchedule(SENT) && DoSchedule(SENT) == RUNNING {}

  lemma Schedules(n: nat)
    requires Reachable(C(n), World(G, SENT))
    ensures Reachable(C(n), World(G, RUNNING))
  {
    Records();
    ThenSchedule(C(n), World(G, SENT));
  }

  lemma InsertedReached(n: nat)
    ensures Reachable(C(n), World(G, S3))
  {
    var c := C(n);
    StepMade(c);
    Joins(n);
    Offers(n);
    Inserts(n);
  }

  lemma SentReached(n: nat)
    ensures Reachable(C(n), World(G, SENT))
  {
    InsertedReached(n);
    Picks(n);
    SendsOut(n);
  }

  lemma RunningReached(n: nat)
    ensures Reachable(C(n), World(G, RUNNING))
  {
    SentReached(n);
    Schedules(n);
  }

  // ---- a lost report ----

  /** A builder that reports before its job is recorded as scheduled is not heard: the
      report changes nothing, and the job is scheduled as if it were still being built. */
  lemma ReportLost(n: nat, r: BuildResultState)
    ensures var w := World(G, SENT);
      && Reachable(C(n), w) && Allowed(C(n), w, Moves(Report(0, 7, r, 0)))
      && CanSchedule(w.s) && w.(s := DoSchedule(w.s)) == World(G, RUNNING)
      && var w1 := Effect(C(n), w, Moves(Report(0, 7, r, 0)));
         && w1.s.calls == map[0 := Call("a", r)] && Allowed(C(n), w1, Moves(Act(0, 0, 0)))
         && Leads(C(n), w1, Moves(Act(0, 0, 0)), w)
  {
    SentReached(n);
    ReachableSound(C(n), World(G, SENT));
    EarlyReportIsLost(C(n), World(G, SENT), r, 0, 0, 0);
    Records();
  }

  // ---- a lost machine ----

  const GONE := SENT.(online := {}, draining := map[0 := ["a"]])
  const DRAINED := SENT.(online := {}, draining := map[0 := []])
  const STRAY := RUNNING.(online := {}, draining := map[0 := []])

  lemma Loses(n: nat)
    requires Reachable(C(n), World(G, SENT))
    ensures Reachable(C(n), World(G, GONE))
  {
    var none: set<MachineId> := {};
    assert {0} - {0} == none;
    assert Paths([Job(7, "a")]) == ["a"];
    ThenLose(C(n), World(G, SENT), 0);
  }

  lemma Drains(n: nat)
    requires Reachable(C(n), World(G, GONE))
    ensures Reachable(C(n), World(G, DRAINED))
  {
    assert GONE.draining[0 := []] == map[0 := []];
    ThenDrain(C(n), World(G, GONE), 0, 0, 0);
  }

  lemma RecordsLate() ensures CanSchedule(DRAINED) && DoSchedule(DRAINED) == STRAY {}

  lemma Strays(n: nat)
    requires Reachable(C(n), World(G, DRAINED))
    ensures Reachable(C(n), World(G, STRAY))
  {
    RecordsLate();
    ThenSchedule(C(n), World(G, DRAINED));
  }

  /** A machine lost while it is sent a job: its one path is failed before the job is
      recorded as scheduled. The job stays on the lost machine, neither waiting nor
      failed, although everything listed for the machine was dealt with. */
  lemma LostMachineKeepsJob(n: nat)
    ensures Reachable(C(n), World(G, STRAY))
    ensures Offline(STRAY, 0) && STRAY.draining[0] == [] && RunnerMachines.Stuck(STRAY, 0, Job(7, "a"))
    ensures STRAY.tasks == map[] && STRAY.calls == map[] && STRAY.infos[0].already
  {
    SentReached(n);
    Loses(n);
    Drains(n);
    Strays(n);
    assert FULL.jobs[0] == Job(7, "a");
  }

  // ---- a step that failed for good is sent out again ----

  const CALLED := RUNNING.(calls := map[0 := Call("a", BuildFailure)])
  const FREED := RUNNING.(scheduled := map[], infos := map[0 := INFO], machines := map[0 := EMPTY],
                          queues := map["linux" := Queue([0], 0)])
  const FAILING := FREED.(tasks := map[0 := Failing(0, false, false)], doomed := {0})
  const REMOVED := FAILING.(tasks := map[0 := Failing(0, true, false)], jobs := map[])

  lemma Reports(n: nat)
    requires Reachable(C(n), World(G, RUNNING))
    ensures Reachable(C(n), World(G, CALLED))
  {
    assert FindUuid(RUNNING.machines[0].jobs, 7) == ["a"];
    ThenReport(C(n), World(G, RUNNING), 0, 7, BuildFailure, 0);
  }

  lemma Releases()
    ensures Followable(RUNNING, "a") && Release(RUNNING, "a") == FREED
  {
    var jobs: seq<Job> := [];
    assert Without(FULL.jobs, "a") == jobs;
    assert RUNNING.scheduled - {"a"} == map[];
    assert RUNNING.machines[0 := EMPTY] == map[0 := EMPTY];
  }

  lemma Fails7(n: nat)
    requires Reachable(C(n), World(G, CALLED))
    ensures Reachable(C(n), World(G, FAILING))
  {
    Releases();
    assert Release(CALLED, "a") == FREED.(calls := CALLED.calls);
    assert CALLED.calls - {0} == map[];
    assert {} + {0} == {0};
    ThenAct(C(n), World(G, CALLED), 0, 0, 0);
  }

  lemma HeldIsKept(s: Sched)
    requires 0 in s.tasks && s.tasks[0].info == 0 && 0 in s.infos
    ensures Scrubbed(s, [0]) == [0]
  {
    assert 0 in InTasks(s);
  }

  lemma TakesOut() ensures CanRemove(FAILING, 0) && DoRemove(FAILING, 0) == REMOVED {
    assert FAILING.jobs - {"a"} == map[];
    HeldIsKept(FAILING.(jobs := map[]));
  }

  lemma Removes(n: nat)
    requires Reachable(C(n), World(G, FAILING))
    ensures Reachable(C(n), World(G, REMOVED))
  {
    TakesOut();
    ThenRemove(C(n), World(G, FAILING), 0);
  }

  lemma RemovedReached(n: nat)
    ensures Reachable(C(n), World(G, REMOVED))
  {
    RunningReached(n);
    Reports(n);
    Fails7(n);
    Removes(n);
  }

  lemma PicksAgain(n: nat)
    requires Reachable(C(n), World(G, REMOVED))
    ensures Reachable(C(n), World(G, DoPick(REMOVED, 0, 0, 0)))
  {
    assert 0 in InTasks(REMOVED) by { assert REMOVED.tasks[0].info == 0; }
    assert REMOVED.queues["linux"].entries[0] == 0;
    ThenPick(C(n), World(G, REMOVED), 0, 0, 0, 0);
  }

  lemma SentTwice()
    ensures var s1 := DoPick(REMOVED, 0, 0, 0);
      CanSend(s1, 8, 0) && Starts(SendOut(s1, 8, 0), 0) == [0] + [0] && 0 in SendOut(s1, 8, 0).resent
  {
  }

  /** A build failure is final whatever the number of tries. While its dependents are
      failed the step is sent out a second time, although its job has left the owning
      map: a second start without a counted failure, for every `n`. */
  lemma BoundBroken(n: nat)
    ensures exists w :: Reachable(C(n), w) && |Starts(w.s, 0)| == 2 && Fails(w.s, 0) == [] && 0 in w.s.resent
  {
    var s1 := DoPick(REMOVED, 0, 0, 0);
    RemovedReached(n);
    PicksAgain(n);
    SentTwice();
    ThenSend(C(n), World(G, s1), 8, 0);
    assert Starts(World(G, SendOut(s1, 8, 0)).s, 0) == [0] + [0];
  }

  // ---- a retried step whose job is dropped ----

  const CALLED2 := RUNNING.(calls := map[0 := Call("a", PreparingFailure)])
  const RETRIED := FREED.(tasks := map[0 := Retrying(0)], tries := map[0 := 1], fails := map[0 := [0]],
      after := map[0 := 0])
  const WAITING := RETRIED.(tasks := map[])
  const CHOSEN2 := WAITING.(dispatcher := Chosen(0, 0))

  lemma NoPause(n: nat) ensures Delay(C(n), 1) == 0 {
    assert Power(1.0, 0) == 1.0;
  }

  lemma Reports2(n: nat)
    requires Reachable(C(n), World(G, RUNNING))
    ensures Reachable(C(n), World(G, CALLED2))
  {
    assert FindUuid(RUNNING.machines[0].jobs, 7) == ["a"];
    ThenReport(C(n), World(G, RUNNING), 0, 7, PreparingFailure, 0);
  }

  lemma Retries(n: nat)
    requires n >= 2
    requires Reachable(C(n), World(G, CALLED2))
    ensures Reachable(C(n), World(G, RETRIED))
  {
    Releases();
    NoPause(n);
    assert Release(CALLED2, "a") == FREED.(calls := CALLED2.calls);
    assert CALLED2.calls - {0} == map[];
    assert Fails(CALLED2, 0) + [0] == [0];
    ThenAct(C(n), World(G, CALLED2), 0, 0, 0);
  }

  lemma Ends2(n: nat)
    requires Reachable(C(n), World(G, RETRIED))
    ensures Reachable(C(n), World(G, WAITING))
  {
    assert RETRIED.tasks - {0} == map[];
    ThenEnd(C(n), World(G, RETRIED), 0);
  }

  lemma Picks2(n: nat)
    requires Reachable(C(n), World(G, WAITING))
    ensures Reachable(C(n), World(G, CHOSEN2))
  {
    assert WAITING.queues["linux"].entries[0] == 0;
    ThenPick(C(n), World(G, WAITING), 0, 0, 0, 0);
  }

  lemma ChosenReached(n: nat)
    requires n >= 2
    ensures Reachable(C(n), World(G, CHOSEN2))
  {
    RunningReached(n);
    Reports2(n);
    Retries(n);
    Ends2(n);
    Picks2(n);
  }

  /** A step that failed once and waits for its second try is chosen again and dropped,
      because no build depends on it at that moment: it stays registered, runnable and
      unfinished, with tries to spare, and is never sent out again. */
  lemma RetriedIsStranded(n: nat)
    requires n >= 2
    ensures exists w :: Reachable(C(n), w) && Stranded(w, 0) && Ready(w.g, 0) && Tries(w.s, 0) == 1 && w.s.doomed == {}
  {
    var c, w := C(n), World(G, CHOSEN2);
    ChosenReached(n);
    ReachableSound(c, w);
    assert CanDiscard(CHOSEN2);
    DiscardStrandsRetried(c, w);
    DiscardFewer(CHOSEN2);
    ThenDiscard(c, w);
  }

  // ---- a report that found its job too early ----

  const BOTH := CALLED2.(calls := map[0 := Call("a", PreparingFailure), 1 := Call("a", Success)])
  const RETRIED3 := RETRIED.(calls := map[1 := Call("a", Success)])
  const CHOSEN3 := RETRIED3.(dispatcher := Chosen(0, 0))
  const SECOND := Machine(1, [Job(8, "a")], 1)
  const SENT3 := RETRIED3.(dispatcher := Sent(0, 0, 8), machines := map[0 := SECOND], used := {7, 8},
      starts := map[0 := [0, 0]])
  const RUNNING3 := SENT3.(dispatcher := IDLE, scheduled := map["a" := Item(0, "linux", 0)], infos := map[0 := BUSY],
                           queues := map["linux" := Queue([0], 1)])

  lemma ReportsBoth(n: nat)
    requires Reachable(C(n), World(G, CALLED2))
    ensures Reachable(C(n), World(G, BOTH))
  {
    assert FindUuid(CALLED2.machines[0].jobs, 7) == ["a"];
    ThenReport(C(n), World(G, CALLED2), 0, 7, Success, 1);
  }

  lemma Retries3(n: nat)
    requires n >= 2
    requires Reachable(C(n), World(G, BOTH))
    ensures Reachable(C(n), World(G, RETRIED3))
  {
    Releases();
    NoPause(n);
    assert Release(BOTH, "a") == FREED.(calls := BOTH.calls);
    assert BOTH.calls - {0} == map[1 := Call("a", Success)];
    assert Fails(BOTH, 0) + [0] == [0];
    ThenAct(C(n), World(G, BOTH), 0, 0, 0);
  }

  lemma Picks3(n: nat)
    requires Reachable(C(n), World(G, RETRIED3))
    ensures Reachable(C(n), World(G, CHOSEN3))
  {
    assert RETRIED3.queues["linux"].entries[0] == 0;
    ThenPick(C(n), World(G, RETRIED3), 0, 0, 0, 0);
  }

  lemma SendsSecond() ensures CanSend(CHOSEN3, 8, 0) && SendOut(CHOSEN3, 8, 0) == SENT3 {
    var a := Job(8, "a");
    assert {7} + {8} == {7, 8} && [] + [a] == [a] && Starts(CHOSEN3, 0) + [0] == [0, 0];
    assert map[0 := EMPTY][0 := SECOND] == map[0 := SECOND];
    assert SendOut(CHOSEN3, 8, 0).machines == map[0 := SECOND];
    assert CHOSEN3.starts[0 := [0, 0]] == map[0 := [0, 0]];
  }

  lemma Sends3(n: nat)
    requires Reachable(C(n), World(G, CHOSEN3))
    ensures Reachable(C(n), World(G, SENT3))
  {
    SendsSecond();
    ThenSend(C(n), World(G, CHOSEN3), 8, 0);
  }

  lemma Records3() ensures CanSchedule(SENT3) && DoSchedule(SENT3) == RUNNING3 {
    assert SENT3.infos[0 := BUSY] == map[0 := BUSY];
  }

  lemma Schedules3(n: nat)
    requires Reachable(C(n), World(G, SENT3))
    ensures Reachable(C(n), World(G, RUNNING3))
  {
    Records3();
    ThenSchedule(C(n), World(G, SENT3));
  }

  lemma BothReached(n: nat)
    requires n >= 2
    ensures Reachable(C(n), World(G, RETRIED3))
  {
    RunningReached(n);
    Reports2(n);
    ReportsBoth(n);
    Retries3(n);
  }

  lemma SecondReached(n: nat)
    requires n >= 2
    ensures Reachable(C(n), World(G, RUNNING3))
  {
    BothReached(n);
    Picks3(n);
    Sends3(n);
    Schedules3(n);
  }

  lemma BothFind(n: nat)
    ensures Leads(C(n), World(G, CALLED2), Moves(Report(0, 7, Success, 1)), World(G, BOTH))
  {
    assert FindUuid(CALLED2.machines[0].jobs, 7) == ["a"];
  }

  lemma SecondActs(n: nat)
    requires n >= 2
    ensures var w := World(G, RUNNING3);
      Reachable(C(n), w) && Allowed(C(n), w, Moves(Act(1, 1, 0))) && TakesUuid(C(n), w.s, Act(1, 1, 0), 8)
  {
    var w := World(G, RUNNING3);
    SecondReached(n);
    ReachableSound(C(n), w);
    CallsCanAct(C(n), w, 1, 1, 0);
    assert SECOND.jobs[0] == Job(8, "a");
  }

  /** Two reports for job 7 find its path before the turn of either. The first lets the
      step wait again, and it is sent out as job 8. The second then acts on job 8: what
      counts is whether the path is scheduled when its turn comes. */
  lemma EarlyFinderActs(n: nat)
    requires n >= 2
    ensures Leads(C(n), World(G, CALLED2), Moves(Report(0, 7, Success, 1)), World(G, BOTH))
    ensures var w := World(G, RUNNING3);
      && Reachable(C(n), w) && RUNNING3.calls == map[1 := Call("a", Success)]
      && Allowed(C(n), w, Moves(Act(1, 1, 0))) && TakesUuid(C(n), w.s, Act(1, 1, 0), 8)
  {
    BothFind(n);
    SecondActs(n);
  }

  // ---- a path that is blocked for a new build ----

  const PASSED := REMOVED.(tasks := map[0 := Failing(0, true, true)])
  const COLLECTED := PASSED.(dispatcher := Collecting({1}))
  const INFO1 := Info(1, "a", "linux", false)
  const INSERTED := PASSED.(infos := map[0 := INFO, 1 := INFO1], jobs := map["a" := 1])
  const OVER := INSERTED.(tasks := map[])

  function Two(st: Step, ready: set<StepId>, closed: set<NestId>): Graph {
    Graph(INPUTS, map[0 := Built(0), 1 := st], {0, 1}, map["a" := 1], {}, ready, {}, closed, true)
  }

  const MADE := Two(Built(1), {}, {0, 1})

  const UNREGISTERED := G.(registry := map[])

  lemma FailsAlone()
    ensures Enabled(G, Fail(0, {0})) && Apply(G, Fail(0, {0})) == UNREGISTERED
  {
    Reachability.ReachesSelf(RdepEdges(G), 0);
    assert LiveRdeps(G, 0) == {};
    assert PathsOf(G, {0}) == {"a"};
    assert Forget(G, {"a"}) == UNREGISTERED;
  }

  lemma PassMade() ensures CanTaskPass(REMOVED, 0) && DoTaskPass(REMOVED, 0) == PASSED {
    assert REMOVED.tasks[0 := Failing(0, true, true)] == PASSED.tasks;
  }

  lemma Passes(n: nat)
    requires Reachable(C(n), World(G, REMOVED))
    ensures Reachable(C(n), World(UNREGISTERED, PASSED))
  {
    FailsAlone();
    PassMade();
    assert REMOVED.infos[REMOVED.tasks[0].info].step == 0;
    ThenPass(C(n), World(G, REMOVED), 0, {0}, UNREGISTERED);
  }

  lemma SecondCreated()
    ensures Enabled(UNREGISTERED, CreateTop("a", 1, 1))
      && Apply(UNREGISTERED, CreateTop("a", 1, 1)) == Two(A0(1), {}, {0})
  {
    assert {0} + {1} == {0, 1} && 0 in UNREGISTERED.live && UNREGISTERED.steps[0].path == "a";
  }

  lemma SecondExpanded()
    ensures Enabled(Two(A0(1), {}, {0}), Expand(1)) && Apply(Two(A0(1), {}, {0}), Expand(1)) == Two(A1(1), {}, {0})
    ensures Enabled(Two(A1(1), {}, {0}), MarkCreated(1))
         && Apply(Two(A1(1), {}, {0}), MarkCreated(1)) == Two(A2(1), {}, {0})
  {
  }

  lemma SecondChecked()
    ensures Enabled(Two(A2(1), {}, {0}), CheckDeps(1))
      && Apply(Two(A2(1), {}, {0}), CheckDeps(1)) == Two(A3(1), {1}, {0})
  {
    assert {} + {1} == {1} && !SetHas(Two(A2(1), {}, {0}), 1);
  }

  lemma SecondRunnable()
    ensures Enabled(Two(A3(1), {1}, {0}), Close(1)) && Apply(Two(A3(1), {1}, {0}), Close(1)) == Two(A3(1), {1}, {0, 1})
    ensures Enabled(Two(A3(1), {1}, {0, 1}), MakeRunnable(1)) && Apply(Two(A3(1), {1}, {0, 1}), MakeRunnable(1)) == MADE
  {
    var none: set<StepId> := {};
    assert {1} - {1} == none && {0} + {1} == {0, 1};
  }

  lemma SecondMade(c: Config, s: Sched)
    requires Reachable(c, World(UNREGISTERED, s))
    ensures Reachable(c, World(MADE, s))
  {
    SecondCreated();
    SecondExpanded();
    SecondChecked();
    SecondRunnable();
    GraphThen(c, World(UNREGISTERED, s), CreateTop("a", 1, 1), Two(A0(1), {}, {0}));
    GraphThen(c, World(Two(A0(1), {}, {0}), s), Expand(1), Two(A1(1), {}, {0}));
    GraphThen(c, World(Two(A1(1), {}, {0}), s), MarkCreated(1), Two(A2(1), {}, {0}));
    GraphThen(c, World(Two(A2(1), {}, {0}), s), CheckDeps(1), Two(A3(1), {1}, {0}));
    GraphThen(c, World(Two(A3(1), {1}, {0}), s), Close(1), Two(A3(1), {1}, {0, 1}));
    GraphThen(c, World(Two(A3(1), {1}, {0, 1}), s), MakeRunnable(1), MADE);
  }

  lemma Offers1(n: nat)
    requires Reachable(C(n), World(MADE, PASSED))
    ensures Reachable(C(n), World(MADE, COLLECTED))
  {
    assert {} + {1} == {1};
    ThenOffer(C(n), World(MADE, PASSED), 1);
  }

  lemma PushesNone()
    ensures Pushed(COLLECTED, [0], "a", 1) == [0]
  {
    assert 0 in InTasks(COLLECTED) by { assert COLLECTED.tasks[0].info == 0; }
    assert Scrubbed(COLLECTED, [0]) == [0];
    assert [0][0] == 0;
    assert 0 in [0] && Live(COLLECTED, 0);
    assert Occupied(COLLECTED, [0], "a");
  }

  lemma Enqueues(n: nat)
    ensures CanInsert(C(n), COLLECTED, 1, "a", 1, [0]) && DoInsert(C(n), COLLECTED, 1, "a", 1, [0]) == INSERTED
  {
    var none: set<StepId> := {};
    assert {1} - {1} == none;
    PushesNone();
    assert COLLECTED.queues["linux" := Queue([0], 0)] == COLLECTED.queues;
    assert COLLECTED.infos[1 := INFO1] == INSERTED.infos;
  }

  lemma Inserts1(n: nat)
    requires Reachable(C(n), World(MADE, COLLECTED))
    ensures Reachable(C(n), World(MADE, INSERTED))
  {
    Enqueues(n);
    ThenInsert(C(n), World(MADE, COLLECTED), 1, "a", 1, [0]);
  }

  lemma EndsOver(n: nat)
    requires Reachable(C(n), World(MADE, INSERTED))
    ensures Reachable(C(n), World(MADE, OVER))
  {
    assert INSERTED.tasks - {0} == map[];
    ThenEnd(C(n), World(MADE, INSERTED), 0);
  }

  lemma OverReached(n: nat)
    ensures Reachable(C(n), World(MADE, OVER))
  {
    var c := C(n);
    RemovedReached(n);
    Passes(n);
    SecondMade(c, PASSED);
    Offers1(n);
    Inserts1(n);
    EndsOver(n);
  }

  lemma OverBlocks()
    ensures Blocked(OVER, "a") && !InQueue(OVER, "a")
  {
    assert InTasks(OVER) == {};
    assert Entries(OVER, "linux") == [0];
    assert forall i :: !Waits(OVER, i);
  }

  /** A new build makes a second step of the path after the first left the registry, and
      the step is inserted while the task of the first still holds its info. When the
      task is over the new step is registered, runnable and unfinished, its path is
      owned, and no queue leads to it. */
  lemma PathIsBlocked(n: nat)
    ensures exists w :: Reachable(C(n), w) && Registers(w.g, 1) && Ready(w.g, 1) && w.s.tasks == map[]
                     && Blocked(w.s, StepPath(w.g, 1)) && !InQueue(w.s, StepPath(w.g, 1))
  {
    OverReached(n);
    OverBlocks();
    assert StepPath(MADE, 1) == "a";
    assert Reachable(C(n), World(MADE, OVER)) && OVER.tasks == map[];
  }
}
