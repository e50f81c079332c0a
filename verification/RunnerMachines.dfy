/**
 What is left on a lost machine. Its jobs are listed when it is lost, and the listed
 paths are failed one after the other. The dispatch loop may be sending it a job at
 that time, which is recorded as scheduled only later.
 */
module RunnerMachines {
  import opened StepGraph
  import opened Scheduling
  import opened SchedulingInvariant
  import opened SchedulingFrames
  import opened Runner
  import opened RunnerInvariant
  import opened RunnerTheorems

  /** The path is still to be failed on behalf of the lost machine. */
  predicate StillListed(s: Sched, m: MachineId, p: Path) {
    m in s.draining && p in s.draining[m]
  }

  /** The event records a job as scheduled on a lost machine, after its path was failed
      on behalf of the machine, or without its ever being listed. */
  predicate Late(w: World, e: Runner.Event, m: MachineId, j: Job) {
    e == Moves(Schedule) && InFlight(w.s, m, j) && Offline(w.s, m) && !StillListed(w.s, m, j.path)
  }

  /** The event completes or fails a scheduled path. */
  predicate TakesPath(c: Config, s: Sched, e: Runner.Event, p: Path) {
    e.Moves? && Can(c, s, e.op) && Target(c, s, e.op) == [p] && p in s.scheduled
  }

  /** The job was recorded late, and nobody has completed or failed its path since. */
  ghost predicate Stray(c: Config, ws: seq<World>, es: seq<Runner.Event>, k: nat, m: MachineId, j: Job)
    requires |ws| == |es| + 1 && k <= |es|
  {
    exists l :: 0 <= l < k && StrayFrom(c, ws, es, l, k, m, j)
  }

  ghost predicate StrayFrom(c: Config, ws: seq<World>, es: seq<Runner.Event>, l: nat, k: nat, m: MachineId, j: Job)
    requires |ws| == |es| + 1 && l < k <= |es|
  {
    Late(ws[l], es[l], m, j) && forall x :: l < x < k ==> !TakesPath(c, ws[x].s, es[x], j.path)
  }

  // ---- one event ----

  /** The job is on the machine, which is lost. */
  predicate LeftOn(s: Sched, m: MachineId, j: Job) {
    Offline(s, m) && j in s.machines[m].jobs
  }

  /** Why a job is on a lost machine after an operation. */
  ghost predicate Explained(c: Config, w: World, e: Runner.Event, h: Sched, m: MachineId, j: Job) {
    || InFlight(h, m, j)
    || StillListed(h, m, j.path)
    || Late(w, e, m, j)
    || (LeftOn(w.s, m, j) && !InFlight(w.s, m, j) && !StillListed(w.s, m, j.path) && !TakesPath(c, w.s, e, j.path))
  }

  /** A job of a scheduled path is on the machine that the path is scheduled on. */
  lemma WhereScheduled(c: Config, s: Sched, m: MachineId, j: Job)
    requires Agreement(c, s) && j.path in s.scheduled && m in s.machines && j in s.machines[m].jobs
    ensures s.scheduled[j.path].machine == m
  {
    assert OnMachineOk(s, m, j);
    if InFlight(s, m, j) { HandApart(c, s); }
  }

  lemma ApartExplained(c: Config, s: Sched, p: Path, r: BuildResultState, id: TaskId, now: int, h: Sched, m: MachineId,
      j: Job)
    requires Agreement(c, s) && IsApart(c, s, p, r, id, now, h) && LeftOn(h, m, j)
    ensures LeftOn(s, m, j) && (InFlight(s, m, j) ==> InFlight(h, m, j)) && (j.path == p ==> p !in s.scheduled)
  {
    if p in s.scheduled {
      ApartTables(c, s, p, r, id, now);
      if j.path == p { WhereScheduled(c, s, m, j); }
    }
  }

  lemma ActExplained(c: Config, w: World, k: CallId, id: TaskId, now: int, m: MachineId, j: Job)
    requires Sound(c, w) && CanAct(w.s, k, id, now) && LeftOn(DoAct(c, w.s, k, id, now), m, j)
    ensures Explained(c, w, Moves(Act(k, id, now)), DoAct(c, w.s, k, id, now), m, j)
  {
    var h := DoAct(c, w.s, k, id, now);
    ActIs(c, w.s, k, id, now);
    ApartExplained(c, w.s, w.s.calls[k].path, w.s.calls[k].outcome, id, now, h, m, j);
  }

  lemma DrainExplained(c: Config, w: World, n: MachineId, id: TaskId, now: int, m: MachineId, j: Job)
    requires Sound(c, w) && CanDrain(w.s, n, id, now) && LeftOn(DoDrain(c, w.s, n, id, now), m, j)
    ensures Explained(c, w, Moves(Drain(n, id, now)), DoDrain(c, w.s, n, id, now), m, j)
  {
    var p, h := w.s.draining[n][0], DoDrain(c, w.s, n, id, now);
    DrainIs(c, w.s, n, id, now);
    ApartExplained(c, w.s, p, PreparingFailure, id, now, h, m, j);
    assert OnMachineOk(w.s, m, j);
    if m == n && StillListed(w.s, m, j.path) && j.path != p {
      assert w.s.draining[n] == [p] + w.s.draining[n][1..];
    }
  }

  lemma LoseExplained(c: Config, w: World, n: MachineId, m: MachineId, j: Job)
    requires Sound(c, w) && CanLose(w.s, n) && LeftOn(DoLose(w.s, n), m, j)
    ensures Explained(c, w, Moves(Lose(n)), DoLose(w.s, n), m, j)
  {
    if m == n {
      var jobs := w.s.machines[m].jobs;
      var k :| 0 <= k < |jobs| && jobs[k] == j;
      assert Paths(jobs)[k] == j.path;
    }
  }

  lemma SendExplained(c: Config, w: World, u: Uuid, now: int, m: MachineId, j: Job)
    requires Sound(c, w) && CanSend(w.s, u, now) && LeftOn(SendOut(w.s, u, now), m, j)
    ensures Explained(c, w, Moves(Send(u, now)), SendOut(w.s, u, now), m, j)
  {
  }

  lemma ScheduleExplained(c: Config, w: World, m: MachineId, j: Job)
    requires Sound(c, w) && CanSchedule(w.s) && LeftOn(DoSchedule(w.s), m, j)
    ensures Explained(c, w, Moves(Schedule), DoSchedule(w.s), m, j)
  {
  }

  /** Operations that change neither machines nor what is still to be failed for them. */
  predicate LeavesMachines(op: Op) {
    !op.Act? && !op.Drain? && !op.Lose? && !op.Send? && !op.Schedule?
  }

  ghost predicate SameMachineState(s: Sched, h: Sched, m: MachineId) {
    && h.draining == s.draining && (m in s.machines ==> m in h.machines && h.machines[m] == s.machines[m])
    && (Offline(h, m) ==> Offline(s, m)) && (s.dispatcher.Sent? ==> h.dispatcher == s.dispatcher)
    && h.scheduled == s.scheduled
  }

  lemma FramedMachines(s: Sched, h: Sched, op: Op, m: MachineId)
    requires AllFramed(s, h, op) && LeavesMachines(op)
    ensures SameMachineState(s, h, m) && SameInfos(s, h) && (m !in s.machines ==> !Offline(h, m))
  {
  }

  lemma InsertMachines(c: Config, s: Sched, st: StepId, p: Path, i: InfoId, order: seq<InfoId>, m: MachineId)
    requires Agreement(c, s) && CanInsert(c, s, st, p, i, order)
    ensures var h := DoInsert(c, s, st, p, i, order); SameMachineState(s, h, m) && (m !in s.machines ==> !Offline(h, m))
  {
    assert MachineOk(c, s, m);
  }

  lemma MachinesLeft(c: Config, s: Sched, op: Op, m: MachineId)
    requires Agreement(c, s) && Can(c, s, op) && LeavesMachines(op)
    ensures var h := Do(c, s, op);
      && SameMachineState(s, h, m) && (m !in s.machines ==> !Offline(h, m)) && (SameInfos(s, h) || op.Insert?)
  {
    if op.Insert? {
      InsertMachines(c, s, op.st, op.p, op.i, op.order, m);
    } else {
      OpFrame(c, s, op);
      FramedMachines(s, Do(c, s, op), op, m);
    }
  }

  lemma LeftFlight(c: Config, s: Sched, op: Op, m: MachineId, j: Job)
    requires Agreement(c, s) && Can(c, s, op) && LeavesMachines(op) && InFlight(s, m, j)
    ensures InFlight(Do(c, s, op), m, j)
  {
    MachinesLeft(c, s, op, m);
  }

  lemma CountingExplained(c: Config, w: World, op: Op, m: MachineId, j: Job)
    requires Sound(c, w) && Can(c, w.s, op) && !LeavesMachines(op) && LeftOn(Do(c, w.s, op), m, j)
    ensures Explained(c, w, Moves(op), Do(c, w.s, op), m, j)
  {
    match op
    case Act(k, id, now) => ActExplained(c, w, k, id, now, m, j);
    case Drain(n, id, now) => DrainExplained(c, w, n, id, now, m, j);
    case Lose(n) => LoseExplained(c, w, n, m, j);
    case Send(u, now) => SendExplained(c, w, u, now, m, j);
    case Schedule => ScheduleExplained(c, w, m, j);
  }

  lemma EventExplained(c: Config, w: World, e: Runner.Event, m: MachineId, j: Job)
    requires Sound(c, w) && Allowed(c, w, e) && LeftOn(Effect(c, w, e).s, m, j)
    ensures Explained(c, w, e, Effect(c, w, e).s, m, j)
  {
    if e.Moves? {
      if LeavesMachines(e.op) { OtherExplained(c, w, e.op, m, j); } else { CountingExplained(c, w, e.op, m, j); }
    }
  }

  lemma OtherExplained(c: Config, w: World, op: Op, m: MachineId, j: Job)
    requires Sound(c, w) && Can(c, w.s, op) && LeavesMachines(op) && LeftOn(Do(c, w.s, op), m, j)
    ensures Explained(c, w, Moves(op), Do(c, w.s, op), m, j)
  {
    MachinesLeft(c, w.s, op, m);
    if InFlight(w.s, m, j) { LeftFlight(c, w.s, op, m, j); }
  }

  // ---- over whole runs ----

  lemma StrayGoesOn(c: Config, ws: seq<World>, es: seq<Runner.Event>, k: nat, m: MachineId, j: Job)
    requires |ws| == |es| + 1 && k < |es| && !TakesPath(c, ws[k].s, es[k], j.path) && Stray(c, ws, es, k, m, j)
    ensures Stray(c, ws, es, k + 1, m, j)
  {
    var l :| 0 <= l < k && StrayFrom(c, ws, es, l, k, m, j);
    assert StrayFrom(c, ws, es, l, k + 1, m, j);
  }

  lemma RunExplained(c: Config, ws: seq<World>, es: seq<Runner.Event>, k: nat, m: MachineId, j: Job)
    requires WorldRun(c, ws, es) && k < |es| && LeftOn(ws[k + 1].s, m, j)
    ensures Explained(c, ws[k], es[k], ws[k + 1].s, m, j)
  {
    WorldSound(c, ws, es, k);
    assert WorldNext(c, ws, es, k);
    EventExplained(c, ws[k], es[k], m, j);
  }

  /** A job on a lost machine is in flight, is still to be failed, or was recorded late. */
  lemma {:induction false} LeftBecause(c: Config, ws: seq<World>, es: seq<Runner.Event>, k: nat, m: MachineId, j: Job)
    requires WorldRun(c, ws, es) && k < |ws| && LeftOn(ws[k].s, m, j)
    ensures InFlight(ws[k].s, m, j) || StillListed(ws[k].s, m, j.path) || Stray(c, ws, es, k, m, j)
  {
    if k > 0 {
      RunExplained(c, ws, es, k - 1, m, j);
      if Late(ws[k - 1], es[k - 1], m, j) {
        assert StrayFrom(c, ws, es, k - 1, k, m, j);
      } else if !InFlight(ws[k].s, m, j) && !StillListed(ws[k].s, m, j.path) {
        LeftBecause(c, ws, es, k - 1, m, j);
        StrayGoesOn(c, ws, es, k - 1, m, j);
      }
    }
  }

  /** The job is scheduled on the lost machine. */
  predicate Stuck(s: Sched, m: MachineId, j: Job) {
    LeftOn(s, m, j) && j.path in s.scheduled && s.scheduled[j.path].machine == m
  }

  lemma ApartSticks(c: Config, s: Sched, p: Path, r: BuildResultState, id: TaskId, now: int, m: MachineId, j: Job,
      h: Sched)
    requires IsApart(c, s, p, r, id, now, h) && Stuck(s, m, j) && p != j.path
    ensures Stuck(h, m, j)
  {
    if p in s.scheduled { ApartTables(c, s, p, r, id, now); }
  }

  lemma EventSticks(c: Config, w: World, e: Runner.Event, m: MachineId, j: Job)
    requires Sound(c, w) && Allowed(c, w, e) && Stuck(w.s, m, j) && !TakesPath(c, w.s, e, j.path)
    ensures Stuck(Effect(c, w, e).s, m, j)
  {
    if e.Moves? { MoveSticks(c, w.s, e.op, m, j); }
  }

  lemma CountingSticks(c: Config, s: Sched, op: Op, m: MachineId, j: Job)
    requires Can(c, s, op) && Counting(op) && Stuck(s, m, j) && !TakesPath(c, s, Moves(op), j.path)
    ensures Stuck(Do(c, s, op), m, j)
  {
    match op
    case Act(k, id, now) =>
      ActIs(c, s, k, id, now);
      ApartSticks(c, s, s.calls[k].path, s.calls[k].outcome, id, now, m, j, DoAct(c, s, k, id, now));
    case Drain(n, id, now) =>
      DrainIs(c, s, n, id, now);
      ApartSticks(c, s, s.draining[n][0], PreparingFailure, id, now, m, j, DoDrain(c, s, n, id, now));
    case Send(u, now) => SendSticks(c, s, u, now, m, j);
    case Insert(st, p, i, order) => assert Stuck(DoInsert(c, s, st, p, i, order), m, j);
  }

  lemma FramedSticks(s: Sched, h: Sched, op: Op, m: MachineId, j: Job)
    requires AllFramed(s, h, op) && !op.Schedule? && Stuck(s, m, j)
    ensures Stuck(h, m, j)
  {
  }

  lemma MoveSticks(c: Config, s: Sched, op: Op, m: MachineId, j: Job)
    requires Agreement(c, s) && Can(c, s, op) && Stuck(s, m, j) && !TakesPath(c, s, Moves(op), j.path)
    ensures Stuck(Do(c, s, op), m, j)
  {
    if Counting(op) {
      CountingSticks(c, s, op, m, j);
    } else if op.Schedule? {
      ScheduleSticks(c, s, m, j);
    } else {
      OpFrame(c, s, op);
      FramedSticks(s, Do(c, s, op), op, m, j);
    }
  }

  lemma ScheduleSticks(c: Config, s: Sched, m: MachineId, j: Job)
    requires Agreement(c, s) && CanSchedule(s) && Stuck(s, m, j)
    ensures Stuck(DoSchedule(s), m, j)
  {
    HandApart(c, s);
  }

  lemma SendSticks(c: Config, s: Sched, u: Uuid, now: int, m: MachineId, j: Job)
    requires CanSend(s, u, now) && Stuck(s, m, j)
    ensures Stuck(SendOut(s, u, now), m, j)
  {
  }

  lemma LateSticks(c: Config, ws: seq<World>, es: seq<Runner.Event>, l: nat, m: MachineId, j: Job)
    requires WorldRun(c, ws, es) && l < |es| && Late(ws[l], es[l], m, j)
    ensures Stuck(ws[l + 1].s, m, j)
  {
    WorldSound(c, ws, es, l);
    assert WorldNext(c, ws, es, l);
  }

  lemma RunSticks(c: Config, ws: seq<World>, es: seq<Runner.Event>, k: nat, m: MachineId, j: Job)
    requires WorldRun(c, ws, es) && k < |es| && Stuck(ws[k].s, m, j) && !TakesPath(c, ws[k].s, es[k], j.path)
    ensures Stuck(ws[k + 1].s, m, j)
  {
    WorldSound(c, ws, es, k);
    assert WorldNext(c, ws, es, k);
    EventSticks(c, ws[k], es[k], m, j);
  }

  /** A job recorded late stays on the lost machine, scheduled, until its path is
      completed or failed: no report can do that, as the machine is offline. */
  lemma {:induction false} StraySticks(c: Config, ws: seq<World>, es: seq<Runner.Event>, l: nat, k: nat, m: MachineId,
      j: Job)
    requires WorldRun(c, ws, es) && l < k < |ws| && StrayFrom(c, ws, es, l, k, m, j)
    ensures Stuck(ws[k].s, m, j)
    decreases k
  {
    if k == l + 1 {
      LateSticks(c, ws, es, l, m, j);
    } else {
      assert StrayFrom(c, ws, es, l, k - 1, m, j);
      StraySticks(c, ws, es, l, k - 1, m, j);
      RunSticks(c, ws, es, k - 1, m, j);
    }
  }

  /** Once every listed path of a lost machine was dealt with and no send to it is in
      flight, it has exactly the jobs that were recorded late and not completed or
      failed since. */
  lemma LostMachineKeepsExactly(c: Config, ws: seq<World>, es: seq<Runner.Event>, k: nat, m: MachineId, j: Job)
    requires WorldRun(c, ws, es) && k < |ws| && Offline(ws[k].s, m)
    requires m in ws[k].s.draining ==> ws[k].s.draining[m] == []
    requires ws[k].s.dispatcher.Sent? ==> ws[k].s.dispatcher.machine != m
    ensures j in ws[k].s.machines[m].jobs <==> Stray(c, ws, es, k, m, j)
    ensures j in ws[k].s.machines[m].jobs ==> Stuck(ws[k].s, m, j)
  {
    if j in ws[k].s.machines[m].jobs { LeftBecause(c, ws, es, k, m, j); }
    if Stray(c, ws, es, k, m, j) {
      var l :| 0 <= l < k && StrayFrom(c, ws, es, l, k, m, j);
      StraySticks(c, ws, es, l, k, m, j);
    }
  }

  // ---- when nothing is left ----

  /** The dispatch loop has chosen the machine or has sent it a job. */
  predicate AimsAt(d: Dispatcher, m: MachineId) {
    (d.Chosen? || d.Sent?) && d.machine == m
  }

  lemma CountingAim(c: Config, s: Sched, op: Op, m: MachineId)
    requires Agreement(c, s) && Can(c, s, op) && Counting(op) && !AimsAt(s.dispatcher, m)
    ensures !AimsAt(Do(c, s, op).dispatcher, m)
  {
    match op
    case Act(k, id, now) => ActFewer(c, s, k, id, now);
    case Drain(n, id, now) => DrainFewer(c, s, n, id, now);
    case Insert(st, p, i, order) => assert DoInsert(c, s, st, p, i, order).dispatcher.Collecting?;
    case Send(u, now) => assert SendOut(s, u, now).dispatcher.machine == s.dispatcher.machine;
  }

  lemma FramedAim(s: Sched, h: Sched, op: Op, m: MachineId)
    requires AllFramed(s, h, op) && !op.Pick? && !AimsAt(s.dispatcher, m)
    ensures !AimsAt(h.dispatcher, m)
  {
  }

  lemma NoNewAim(c: Config, s: Sched, op: Op, m: MachineId)
    requires Agreement(c, s) && Can(c, s, op) && Offline(s, m) && !AimsAt(s.dispatcher, m)
    ensures !AimsAt(Do(c, s, op).dispatcher, m)
  {
    if Counting(op) {
      CountingAim(c, s, op, m);
    } else if op.Pick? {
      assert DoPick(s, op.i, op.m, op.now).dispatcher == Chosen(op.i, op.m);
    } else {
      OpFrame(c, s, op);
      FramedAim(s, Do(c, s, op), op, m);
    }
  }

  lemma RunNoAim(c: Config, ws: seq<World>, es: seq<Runner.Event>, k: nat, m: MachineId)
    requires WorldRun(c, ws, es) && k < |es| && Offline(ws[k].s, m) && !AimsAt(ws[k].s.dispatcher, m)
    ensures !AimsAt(ws[k + 1].s.dispatcher, m)
  {
    WorldSound(c, ws, es, k);
    assert WorldNext(c, ws, es, k);
    if es[k].Moves? { NoNewAim(c, ws[k].s, es[k].op, m); }
  }

  lemma {:induction false} NeverAimsAgain(c: Config, ws: seq<World>, es: seq<Runner.Event>, k: nat, l: nat,
      m: MachineId)
    requires WorldRun(c, ws, es) && k <= l < |ws| && Offline(ws[k].s, m) && !AimsAt(ws[k].s.dispatcher, m)
    ensures Offline(ws[l].s, m) && !AimsAt(ws[l].s.dispatcher, m)
    decreases l - k
  {
    WorldOnlyNew(c, ws, es, k, l, 0, m);
    if k < l {
      NeverAimsAgain(c, ws, es, k, l - 1, m);
      RunNoAim(c, ws, es, l - 1, m);
    }
  }

  lemma LostNow(c: Config, ws: seq<World>, es: seq<Runner.Event>, k: nat, m: MachineId)
    requires WorldRun(c, ws, es) && k < |es| && es[k] == Moves(Lose(m))
    ensures Offline(ws[k + 1].s, m) && !Offline(ws[k].s, m) && ws[k + 1].s.dispatcher == ws[k].s.dispatcher
  {
    assert WorldNext(c, ws, es, k);
    assert DoLose(ws[k].s, m).dispatcher == ws[k].s.dispatcher;
  }

  /** If the dispatch loop had not chosen the machine when it was lost, then it has no job
      and nothing is scheduled on it once its listed paths were dealt with. */
  lemma LostMachineEmpties(c: Config, ws: seq<World>, es: seq<Runner.Event>, k: nat, l: nat, m: MachineId)
    requires WorldRun(c, ws, es) && k < l < |ws| && es[k] == Moves(Lose(m)) && !AimsAt(ws[k].s.dispatcher, m)
    requires m in ws[l].s.draining ==> ws[l].s.draining[m] == []
    ensures m in ws[l].s.machines && ws[l].s.machines[m].jobs == []
    ensures forall p :: p in ws[l].s.scheduled ==> ws[l].s.scheduled[p].machine != m
  {
    LostNow(c, ws, es, k, m);
    NeverAimsAgain(c, ws, es, k + 1, l, m);
    var jobs := ws[l].s.machines[m].jobs;
    if jobs != [] {
      var j := jobs[0];
      LostMachineKeepsExactly(c, ws, es, l, m, j);
      var x :| 0 <= x < l && StrayFrom(c, ws, es, x, l, m, j);
      if x <= k {
        WorldOnlyNew(c, ws, es, x, k, 0, m);
      } else {
        NeverAimsAgain(c, ws, es, k + 1, x, m);
      }
    }
    WorldSound(c, ws, es, l);
    forall p | p in ws[l].s.scheduled ensures ws[l].s.scheduled[p].machine != m { assert ItemOk(ws[l].s, p); }
  }
}
