/**
 The scheduler in place: the maps, flags and counters that succeeding, failing and
 dispatching change one after the other, tied to the operations on values.

 Wherever the code waits, for a lock or for the database, other tasks run. What they do
 there is a parameter: a list of operations, of which those that are possible by then
 are performed.
 */
module Scheduler {
  import opened Collections
  import opened StepGraph
  import opened Scheduling
  import opened SchedulingInvariant
  import opened SchedulingFrames

  /** What the processor answers for one queued job. All but the first answer come after
      a machine was found. */
  datatype Realised =
    | NoMachine
    | Valid(m: MachineId, u: Uuid)
    | MaybeCancelled(m: MachineId)
    | CachedFailure(m: MachineId, v: set<StepId>)
    | Error(m: MachineId)

  /** One turn of the dispatch loop: the answer, what others do before the job is sent or
      given up, what they do after that, and the time. */
  datatype Turn = Turn(answer: Realised, before: seq<Op>, behind: seq<Op>, now: int)

  /** Operations of other tasks than the dispatch loop. */
  predicate OthersOp(op: Op) {
    || op.Report? || op.Kill? || op.Act? || op.Remove? || op.TaskPass? || op.End? || op.Join? || op.Lose? || op.Drain?
  }

  /** The operations lead from one state to another. */
  ghost predicate Runs(c: Config, s: Sched, ops: seq<Op>, h: Sched)
    decreases |ops|, 1
  {
    if ops == [] then h == s
    else exists m :: RunsTo(c, s, ops, m, h)
  }

  ghost predicate RunsTo(c: Config, s: Sched, ops: seq<Op>, m: Sched, h: Sched)
    requires ops != []
    decreases |ops|, 0
  {
    var last := ops[|ops| - 1];
    Runs(c, s, ops[..|ops| - 1], m) && Can(c, m, last) && h == Do(c, m, last)
  }

  lemma RunsOn(c: Config, s: Sched, ops: seq<Op>, m: Sched, op: Op)
    requires Runs(c, s, ops, m) && Can(c, m, op)
    ensures Runs(c, s, ops + [op], Do(c, m, op))
  {
    assert (ops + [op])[..|ops|] == ops;
    assert RunsTo(c, s, ops + [op], m, Do(c, m, op));
  }

  lemma {:induction false} RunsJoin(c: Config, s: Sched, a: seq<Op>, m: Sched, b: seq<Op>, h: Sched)
    requires Runs(c, s, a, m) && Runs(c, m, b, h)
    ensures Runs(c, s, a + b, h)
    decreases |b|
  {
    if b == [] {
      assert a + b == a;
    } else {
      var x :| RunsTo(c, m, b, x, h);
      var init, last := b[..|b| - 1], b[|b| - 1];
      RunsJoin(c, s, a, m, init, x);
      RunsOn(c, s, a + init, x, last);
      assert a + init + [last] == a + b;
    }
  }

  lemma {:induction false} RunsKeep(c: Config, s: Sched, ops: seq<Op>, h: Sched)
    requires Agreement(c, s) && Runs(c, s, ops, h)
    ensures Agreement(c, h)
    decreases |ops|
  {
    if ops != [] {
      var m :| RunsTo(c, s, ops, m, h);
      RunsKeep(c, s, ops[..|ops| - 1], m);
      DoKeeps(c, m, ops[|ops| - 1]);
    }
  }

  /** The operations lead to a state in which everything agrees. */
  ghost predicate Went(c: Config, s: Sched, ops: seq<Op>, h: Sched) {
    Agreement(c, h) && Runs(c, s, ops, h)
  }

  lemma WentNext(c: Config, s: Sched, ops: seq<Op>, m: Sched, op: Op, h: Sched)
    requires Went(c, s, ops, m) && Can(c, m, op) && h == Do(c, m, op)
    ensures Went(c, s, ops + [op], h)
  {
    DoKeeps(c, m, op);
    RunsOn(c, s, ops, m, op);
  }

  lemma WentOne(c: Config, s: Sched, op: Op)
    requires Agreement(c, s) && Can(c, s, op)
    ensures Went(c, s, [] + [op], Do(c, s, op))
  {
    assert Runs(c, s, [], s);
    WentNext(c, s, [], s, op, Do(c, s, op));
  }

  lemma WentJoin(c: Config, s: Sched, a: seq<Op>, m: Sched, b: seq<Op>, h: Sched)
    requires Went(c, s, a, m) && Went(c, m, b, h)
    ensures Went(c, s, a + b, h)
  {
    RunsJoin(c, s, a, m, b, h);
  }

  // ---- what others leave alone ----

  /** The dispatch loop goes on where it was: infos, queues and machines are still there,
      and no job was added. */
  ghost predicate Leaves(s: Sched, h: Sched) {
    && h.dispatcher == s.dispatcher && h.used == s.used && SameInfos(s, h) && s.clock <= h.clock
    && h.queues.Keys == s.queues.Keys && s.machines.Keys <= h.machines.Keys
    && (forall m, j :: m in s.machines && j in h.machines[m].jobs ==> j in s.machines[m].jobs)
    && (forall m :: m in s.machines && m in h.online ==> m in s.online)
  }

  lemma ApartLeaves(c: Config, s: Sched, p: Path, r: BuildResultState, id: TaskId, now: int, h: Sched)
    requires (p in s.scheduled ==> Followable(s, p)) && s.clock <= now
    requires h == Apart(c, s, p, r, id, now).(calls := h.calls, draining := h.draining)
    ensures Leaves(s, h)
  {
    if p in s.scheduled { ApartTables(c, s, p, r, id, now); }
  }

  lemma CallsLeave(s: Sched, h: Sched)
    requires h == s.(calls := h.calls, tasks := h.tasks)
    ensures Leaves(s, h)
  {
  }

  lemma RemoveLeaves(s: Sched, id: TaskId)
    requires CanRemove(s, id)
    ensures Leaves(s, DoRemove(s, id))
  {
  }

  lemma MachineLeaves(s: Sched, h: Sched)
    requires h == s.(machines := h.machines, online := h.online, draining := h.draining)
    requires s.machines.Keys <= h.machines.Keys && forall m :: m in s.machines ==> h.machines[m] == s.machines[m]
    requires forall m :: m in s.machines && m in h.online ==> m in s.online
    requires forall m :: m in h.machines && m !in s.machines ==> h.machines[m].jobs == []
    ensures Leaves(s, h)
  {
  }

  lemma OthersLeave(c: Config, s: Sched, op: Op)
    requires Agreement(c, s) && Can(c, s, op) && OthersOp(op)
    ensures Leaves(s, Do(c, s, op))
  {
    match op
    case Act(k, id, now) => ApartLeaves(c, s, s.calls[k].path, s.calls[k].outcome, id, now, DoAct(c, s, k, id, now));
    case Drain(m, id, now) => ApartLeaves(c, s, s.draining[m][0], PreparingFailure, id, now, DoDrain(c, s, m, id, now));
    case Report(m, u, r, k) => CallsLeave(s, DoReport(s, m, u, r, k));
    case Kill(p, k) => CallsLeave(s, DoKill(s, p, k));
    case Remove(id) => RemoveLeaves(s, id);
    case TaskPass(id, v) => CallsLeave(s, DoTaskPass(s, id));
    case End(id) => CallsLeave(s, DoEnd(s, id));
    case Join(m, n) => MachineLeaves(s, DoJoin(s, m, n));
    case Lose(m) => MachineLeaves(s, DoLose(s, m));
  }

  // ---- in place ----

  class Queues {
    var infos: map<InfoId, Info>
    var jobs: map<Path, InfoId>
    var scheduled: map<Path, Item>
    var queues: map<System, Queue>
    var machines: map<MachineId, Machine>
    var online: set<MachineId>
    var draining: map<MachineId, seq<Path>>
    var calls: map<CallId, Call>
    var tasks: map<TaskId, Task>
    var dispatcher: Dispatcher
    var tries: map<StepId, nat>
    var after: map<StepId, int>
    var clock: int
    var finished: set<StepId>
    ghost var starts: map<StepId, seq<int>>
    ghost var fails: map<StepId, seq<int>>
    ghost var used: set<Uuid>
    ghost var doomed: set<StepId>
    ghost var resent: set<StepId>
    ghost var dropped: set<StepId>

    ghost function View(): Sched
      reads this
    {
      Sched(infos, jobs, scheduled, queues, machines, online, draining, calls, tasks, dispatcher, tries, after, clock,
            starts, fails, used, doomed, resent, dropped)
    }

    constructor ()
      ensures View() == Scheduling.Init() && finished == {}
    {
      infos, jobs, scheduled, queues, machines, online := map[], map[], map[], map[], map[], {};
      draining, calls, tasks, dispatcher, tries, after, clock := map[], map[], map[], IDLE, map[], map[], 0;
      finished, starts, fails, used, doomed, resent, dropped := {}, map[], map[], {}, {}, {}, {};
    }

    // ---- the queues and the machines ----

    method AddJobToScheduled(i: InfoId, m: MachineId)
      requires i in infos && infos[i].system in queues
      modifies this`scheduled, this`infos, this`queues
      ensures View() == AddScheduled(old(View()), i, m)
    {
      var f := infos[i];
      scheduled := scheduled[f.path := Item(i, f.system, m)];
      infos := infos[i := f.(already := true)];
      queues := queues[f.system := queues[f.system].(active := queues[f.system].active + 1)];
    }

    method RemoveJobFromScheduled(p: Path) returns (r: Option<Item>)
      requires p in scheduled ==> scheduled[p].info in infos && scheduled[p].system in queues
      modifies this`scheduled, this`infos, this`queues
      ensures r == if p in old(scheduled) then Some(old(scheduled)[p]) else None
      ensures r.None? ==> View() == old(View())
      ensures r.Some? ==>
        && scheduled == old(scheduled) - {p}
        && infos == old(infos)[r.value.info := old(infos)[r.value.info].(already := false)]
        && var q := old(queues)[r.value.system];
           queues == old(queues)[r.value.system := Queue(q.entries, q.active - 1)]
    {
      if p !in scheduled { return None; }
      var it := scheduled[p];
      scheduled := scheduled - {p};
      infos := infos[it.info := infos[it.info].(already := false)];
      queues := queues[it.system := queues[it.system].(active := queues[it.system].active - 1)];
      r := Some(it);
    }

    method RemoveMachineJob(m: MachineId, p: Path)
      requires m in machines
      modifies this`machines
      ensures var jobs := Without(old(machines)[m].jobs, p);
        machines == old(machines)[m := old(machines)[m].(jobs := jobs, currentJobs := |jobs|)]
    {
      var left := Without(machines[m].jobs, p);
      machines := machines[m := machines[m].(jobs := left)];
      machines := machines[m := machines[m].(currentJobs := |left|)];
    }

    method InsertJob(m: MachineId, j: Job)
      requires m in machines
      modifies this`machines
      ensures View() == Scheduling.InsertJob(old(View()), m, j)
    {
      machines := machines[m := machines[m].(jobs := machines[m].jobs + [j])];
      machines := machines[m := machines[m].(currentJobs := |machines[m].jobs|)];
    }

    /** Whether a weak pointer to the info can be followed. */
    predicate Upgrades(i: InfoId)
      reads this
      ensures Upgrades(i) == Live(View(), i)
    {
      && i in infos
      && ( || (infos[i].path in jobs && jobs[infos[i].path] == i)
           || (infos[i].path in scheduled && scheduled[infos[i].path].info == i)
           || i in (set k | k in tasks :: tasks[k].info) || i in InHand(dispatcher))
    }

    /** The info leaves the owning map; its queue keeps entries that can be followed. */
    method RemoveJob(p: Path, sys: System)
      requires sys in queues
      modifies this`jobs, this`queues
      ensures View() == Scheduling.RemoveJob(old(View()), p, sys)
      ensures p !in jobs && jobs == old(jobs) - {p} && sys in queues
      ensures forall i :: i in queues[sys].entries <==> i in old(queues)[sys].entries && Live(View(), i)
    {
      jobs := jobs - {p};
      ghost var s := View();
      var entries, kept := queues[sys].entries, [];
      for k := 0 to |entries|
        invariant View() == s && entries == queues[sys].entries
        invariant kept == Scrubbed(s, entries[..k])
      {
        assert entries[..k + 1] == entries[..k] + [entries[k]];
        ScrubbedEnd(s, entries[..k], entries[k]);
        if Upgrades(entries[k]) {
          kept := kept + [entries[k]];
        }
      }
      assert entries[..|entries|] == entries;
      queues := queues[sys := queues[sys].(entries := kept)];
    }

    // ---- completing and failing ----

    /** Taking a path off `scheduled` and off its machine. */
    method Take(p: Path) returns (r: Option<Item>)
      requires p in scheduled ==> Followable(View(), p)
      modifies this`scheduled, this`infos, this`queues, this`machines
      ensures r == if p in old(scheduled) then Some(old(scheduled)[p]) else None
      ensures View() == if p in old(scheduled) then Release(old(View()), p) else old(View())
    {
      r := RemoveJobFromScheduled(p);
      if r.Some? {
        RemoveMachineJob(r.value.machine, p);
      }
    }

    /** The first section of a completion: the step is finished, and a task is left. */
    method SucceedStep(c: Config, p: Path, id: TaskId, now: int) returns (ok: bool)
      requires p in scheduled ==> Followable(View(), p)
      modifies this
      ensures ok == (p in old(scheduled)) && View() == Apart(c, old(View()), p, Success, id, now)
      ensures finished == old(finished) + if ok then {StepOf(old(View()), p)} else {}
    {
      var r := Take(p);
      if r.None? { return false; }
      finished := finished + {infos[r.value.info].step};
      tasks, clock := tasks[id := Completing(r.value.info, false)], now;
      return true;
    }

    /** The first section of a failure: it is counted, and the job waits again or a task
        is left to fail it for good. */
    method FailStep(c: Config, p: Path, state: BuildResultState, id: TaskId, now: int) returns (ok: bool)
      requires (p in scheduled ==> Followable(View(), p)) && !state.Success?
      modifies this
      ensures ok == (p in old(scheduled)) && View() == Apart(c, old(View()), p, state, id, now)
      ensures finished == old(finished)
    {
      ghost var s := View();
      var r := Take(p);
      if r.None? { return false; }
      Count(c, r.value.info, state, id, now);
      ReleasedCounts(c, s, p, state, id, now);
      return true;
    }

    method Count(c: Config, i: InfoId, state: BuildResultState, id: TaskId, now: int)
      requires i in infos && !state.Success?
      modifies this`tries, this`fails, this`after, this`tasks, this`doomed, this`clock
      ensures View() == Counts(c, old(View()), i, state, id, now)
    {
      var st := infos[i].step;
      CountTry(st, CanRetry(state), now);
      Decide(c, st, i, CanRetry(state), id);
    }

    method CountTry(st: StepId, retry: bool, now: int)
      modifies this`tries, this`fails, this`clock
      ensures View() == Tried(old(View()), st, retry, now)
    {
      if retry {
        var n := if st in tries then tries[st] else 0;
        fails := fails[st := Fails(View(), st) + [now]];
        tries := tries[st := n + 1];
      }
      clock := now;
    }

    /** The job may wait again, after a pause, or a task is left to fail it for good. */
    method Decide(c: Config, st: StepId, i: InfoId, retry: bool, id: TaskId)
      modifies this`after, this`tasks, this`doomed
      ensures View() == Decided(c, old(View()), st, i, retry, id)
    {
      var n := if st in tries then tries[st] else 0;
      if retry && 0 < n < c.maxRetries {
        after, tasks := after[st := clock + Delay(c, n) * NANOS], tasks[id := Retrying(i)];
      } else {
        tasks, doomed := tasks[id := Failing(i, false, false)], doomed + {st};
      }
    }

    function DrvForUuid(m: MachineId, u: Uuid): (r: seq<Path>)
      reads this
      ensures r == ReportTarget(View(), m, u)
    {
      if m in online && m in machines then FindUuid(machines[m].jobs, u) else []
    }

    /** A call whose turn has come. */
    method Answer(c: Config, k: CallId, id: TaskId, now: int) returns (ok: bool)
      requires CanAct(View(), k, id, now)
      modifies this
      ensures View() == DoAct(c, old(View()), k, id, now) && ok == (old(calls)[k].path in old(scheduled))
      ensures finished >= old(finished)
    {
      var call := calls[k];
      if call.outcome.Success? {
        ok := SucceedStep(c, call.path, id, now);
      } else {
        ok := FailStep(c, call.path, call.outcome, id, now);
      }
      ghost var s := View();
      calls := calls - {k};
      AnswerIs(c, old(View()), k, id, now, s);
    }

    /** The next path listed for a lost machine is failed. */
    method FailNext(c: Config, m: MachineId, id: TaskId, now: int) returns (ok: bool)
      requires CanDrain(View(), m, id, now)
      modifies this
      ensures View() == DoDrain(c, old(View()), m, id, now) && ok == (old(draining)[m][0] in old(scheduled))
      ensures finished == old(finished)
    {
      var rest := draining[m][1..];
      ok := FailStep(c, draining[m][0], PreparingFailure, id, now);
      draining := draining[m := rest];
      NextIs(c, old(View()), m, id, now);
    }

    /** The rest of a completion or failure: the job leaves the owning map. */
    method RemoveInTask(c: Config, id: TaskId)
      requires CanRemove(View(), id)
      modifies this
      ensures View() == DoRemove(old(View()), id) && finished == old(finished)
    {
      var f := infos[tasks[id].info];
      RemoveJob(f.path, f.system);
      tasks := tasks[id := tasks[id].(removed := true)];
    }

    // ---- other tasks ----

    /** An operation of another task, if it is possible now. */
    method Perform(c: Config, op: Op) returns (done: bool)
      requires Agreement(c, View()) && OthersOp(op)
      modifies this
      ensures done ==> Can(c, old(View()), op) && View() == Do(c, old(View()), op)
      ensures !done ==> View() == old(View())
      ensures old(finished) <= finished
    {
      AllFollowed(c, View());
      if op.Report? || op.Kill? || op.Act? {
        done := PerformCall(c, op);
      } else if op.Remove? {
        done := PerformRemove(c, op.id);
      } else if op.TaskPass? || op.End? {
        done := PerformTask(c, op);
      } else if op.Drain? {
        done := PerformDrain(c, op.m, op.id, op.now);
      } else {
        done := PerformMachine(c, op);
      }
    }

    method PerformCall(c: Config, op: Op) returns (done: bool)
      requires Followed(View()) && (op.Report? || op.Kill? || op.Act?)
      modifies this
      ensures done ==> Can(c, old(View()), op) && View() == Do(c, old(View()), op)
      ensures !done ==> View() == old(View())
      ensures old(finished) <= finished
    {
      done := false;
      match op
      case Report(m, u, r, k) => if k !in calls { done := Arrives(c, m, u, r, k); }
      case Kill(p, k) => if k !in calls && p in scheduled { calls, done := calls[k := Call(p, Cancelled)], true; }
      case Act(k, id, now) =>
        if k in calls && id !in tasks && clock <= now {
          var _ := Answer(c, k, id, now);
          done := true;
        }
    }

    method PerformRemove(c: Config, id: TaskId) returns (done: bool)
      requires Followed(View())
      modifies this
      ensures done ==> CanRemove(old(View()), id) && View() == DoRemove(old(View()), id)
      ensures !done ==> View() == old(View())
      ensures old(finished) <= finished
    {
      done := id in tasks && !tasks[id].Retrying? && !tasks[id].removed;
      if done { RemoveInTask(c, id); }
    }

    method PerformTask(c: Config, op: Op) returns (done: bool)
      requires Followed(View()) && (op.TaskPass? || op.End?)
      modifies this`tasks
      ensures done ==> Can(c, old(View()), op) && View() == Do(c, old(View()), op)
      ensures !done ==> View() == old(View())
    {
      done := false;
      if op.id !in tasks { return; }
      match op
      case TaskPass(id, _) => if tasks[id].Failing? && tasks[id].removed { done := Passed(id); }
      case End(id) =>
        if (tasks[id].Retrying? || tasks[id].removed) && (tasks[id].Failing? ==> tasks[id].passed) {
          done := Ended(id);
        }
    }

    method Passed(id: TaskId) returns (done: bool)
      requires CanTaskPass(View(), id)
      modifies this`tasks
      ensures done && View() == DoTaskPass(old(View()), id)
    {
      tasks := tasks[id := tasks[id].(passed := true)];
      return true;
    }

    method Ended(id: TaskId) returns (done: bool)
      requires CanEnd(View(), id)
      modifies this`tasks
      ensures done && View() == DoEnd(old(View()), id)
    {
      tasks := tasks - {id};
      return true;
    }

    method PerformMachine(c: Config, op: Op) returns (done: bool)
      requires op.Join? || op.Lose?
      modifies this`machines, this`online, this`draining
      ensures done ==> Can(c, old(View()), op) && View() == Do(c, old(View()), op)
      ensures !done ==> View() == old(View())
    {
      done := false;
      match op
      case Join(m, maxJobs) => if m !in machines { done := Added(m, maxJobs); }
      case Lose(m) => if m in online && m in machines { done := StartLosing(c, m); }
    }

    method Added(m: MachineId, maxJobs: nat) returns (done: bool)
      modifies this`machines, this`online
      ensures done && View() == DoJoin(old(View()), m, maxJobs)
    {
      machines, online := machines[m := Machine(maxJobs, [], 0)], online + {m};
      return true;
    }

    method PerformDrain(c: Config, m: MachineId, id: TaskId, now: int) returns (done: bool)
      requires Followed(View())
      modifies this
      ensures done ==> CanDrain(old(View()), m, id, now) && View() == DoDrain(c, old(View()), m, id, now)
      ensures !done ==> View() == old(View())
      ensures finished == old(finished)
    {
      done := m in machines && m !in online && m in draining && draining[m] != [] && id !in tasks && clock <= now;
      if done { var _ := FailNext(c, m, id, now); }
    }

    /** A report looks up the path of its job. */
    method Arrives(c: Config, m: MachineId, u: Uuid, r: BuildResultState, k: CallId) returns (done: bool)
      requires k !in calls
      modifies this
      ensures done && View() == DoReport(old(View()), m, u, r, k) && finished == old(finished)
    {
      var t := DrvForUuid(m, u);
      if t != [] { calls := calls[k := Call(t[0], r)]; }
      return true;
    }

    method StartLosing(c: Config, m: MachineId) returns (done: bool)
      requires m in online && m in machines
      modifies this`online, this`draining
      ensures done && View() == DoLose(old(View()), m)
    {
      online, draining := online - {m}, draining[m := Paths(machines[m].jobs)];
      return true;
    }

    /** What other tasks do while the caller waits. */
    method Meanwhile(c: Config, ops: seq<Op>) returns (ghost trace: seq<Op>)
      requires Agreement(c, View()) && AllOthers(ops)
      modifies this
      ensures Went(c, old(View()), trace, View()) && Leaves(old(View()), View())
      ensures (forall op :: op in trace ==> op in ops) && AllOthers(trace) && |trace| <= |ops|
      ensures old(finished) <= finished
    {
      trace := [];
      for k := 0 to |ops|
        invariant Agreement(c, View()) && Runs(c, old(View()), trace, View()) && Leaves(old(View()), View())
        invariant (forall op :: op in trace ==> op in ops) && |trace| <= k && old(finished) <= finished
      {
        ghost var s := View();
        var done := Perform(c, ops[k]);
        if done {
          DoKeeps(c, s, ops[k]);
          OthersLeave(c, s, ops[k]);
          RunsOn(c, old(View()), trace, s, ops[k]);
          trace := trace + [ops[k]];
        }
      }
    }

    /** The dispatch loop waits; it goes on where it was. */
    method Wait(c: Config, ops: seq<Op>) returns (ghost trace: seq<Op>)
      requires Agreement(c, View()) && AllOthers(ops)
      modifies this
      ensures Went(c, old(View()), trace, View()) && AllOthers(trace)
      ensures dispatcher == old(dispatcher) && used == old(used) && old(finished) <= finished
      ensures ops == [] ==> trace == [] && View() == old(View())
    {
      trace := Meanwhile(c, ops);
    }

    // ---- losing a machine ----

    /** Other tasks run, and then the next path listed for the machine is failed. */
    method FailAfter(c: Config, m: MachineId, others: seq<Op>, now: int) returns (ghost trace: seq<Op>)
      requires Agreement(c, View()) && Elsewhere(others, m) && OnlyListed(View(), m)
      requires m in machines && m !in online && m in draining && draining[m] != []
      modifies this
      ensures Agreement(c, View()) && Runs(c, old(View()), trace, View()) && OnlyListed(View(), m)
      ensures m in machines && m !in online && m in draining && draining[m] == old(draining)[m][1..]
    {
      trace := Meanwhile(c, others);
      RunsElsewhere(c, old(View()), trace, View(), m);
      ghost var s := View();
      var id := NewId(tasks.Keys);
      var at := if now < clock then clock else now;
      CanFollow(c, s, draining[m][0]);
      var _ := FailNext(c, m, id, at);
      DrainGoesOn(c, old(View()), trace, s, m, id, at);
      trace := trace + [Drain(m, id, at)];
    }

    /** The machine is taken out; its jobs are listed. */
    method LoseMachine(c: Config, m: MachineId)
      requires Agreement(c, View()) && CanLose(View(), m)
      modifies this`online, this`draining
      ensures Went(c, old(View()), [] + [Lose(m)], View()) && OnlyListed(View(), m)
      ensures m !in online && m in draining && draining[m] == Paths(machines[m].jobs)
    {
      WentOne(c, View(), Lose(m));
      LosesListed(c, View(), m);
      var _ := StartLosing(c, m);
    }

    /** The paths listed for a lost machine are failed one after the other, with other
        tasks at work before each. */
    method FailAll(c: Config, m: MachineId, lost: seq<Path>, meanwhile: seq<seq<Op>>, times: seq<int>)
        returns (ghost trace: seq<Op>)
      requires Agreement(c, View()) && OnlyListed(View(), m)
      requires m in machines && m !in online && m in draining && draining[m] == lost
      requires forall k :: 0 <= k < |meanwhile| ==> Elsewhere(meanwhile[k], m)
      modifies this
      ensures Agreement(c, View()) && Runs(c, old(View()), trace, View()) && OnlyListed(View(), m)
      ensures m in machines && m !in online && m in draining && draining[m] == []
    {
      trace := [];
      for k := 0 to |lost|
        invariant Agreement(c, View()) && Runs(c, old(View()), trace, View()) && OnlyListed(View(), m)
        invariant m in machines && m !in online && m in draining && draining[m] == lost[k..]
      {
        ghost var before := View();
        var others, now := if k < |meanwhile| then meanwhile[k] else [], if k < |times| then times[k] else clock;
        ghost var more := FailAfter(c, m, others, now);
        RunsJoin(c, old(View()), trace, before, more, View());
        trace := trace + more;
      }
    }

    /** The jobs of a lost machine are failed one after the other. Afterwards the machine
        has no job but one that the dispatch loop was sending it. */
    method RemoveMachine(c: Config, m: MachineId, meanwhile: seq<seq<Op>>, times: seq<int>)
        returns (ok: bool, ghost trace: seq<Op>)
      requires Agreement(c, View())
      requires forall k :: 0 <= k < |meanwhile| ==> Elsewhere(meanwhile[k], m)
      modifies this
      ensures Agreement(c, View()) && Runs(c, old(View()), trace, View())
      ensures ok == (m in old(online)) && (!ok ==> View() == old(View()))
      ensures ok ==> m in machines && m !in online && m in draining && draining[m] == []
      ensures ok ==> forall j :: j in machines[m].jobs ==> InFlight(View(), m, j)
    {
      trace := [];
      if m !in online { return false, []; }
      ghost var s := View();
      assert MachineOk(c, s, m);
      LoseMachine(c, m);
      ghost var lost := View();
      ghost var more := FailAll(c, m, draining[m], meanwhile, times);
      RunsJoin(c, s, [] + [Lose(m)], lost, more, View());
      return true, [] + [Lose(m)] + more;
    }

    // ---- reports ----

    /** A report looks up the path of its job and waits for its turn, while other tasks
        run. It acts if and only if the path is scheduled when its turn comes. */
    method StepByUuid(c: Config, u: Uuid, m: MachineId, r: BuildResultState, k: CallId, meanwhile: seq<Op>, now: int)
        returns (ok: bool, ghost trace: seq<Op>, ghost turn: Sched)
      requires Agreement(c, View()) && k !in calls && NotAnswering(meanwhile, k)
      modifies this
      ensures Agreement(c, View()) && Runs(c, old(View()), trace, View())
      ensures ReportTarget(old(View()), m, u) == [] ==> !ok && View() == old(View())
      ensures ReportTarget(old(View()), m, u) != [] ==>
        && ok == (ReportTarget(old(View()), m, u)[0] in turn.scheduled)
        && AnswersLast(c, old(View()), trace, turn, k, Call(ReportTarget(old(View()), m, u)[0], r), View())
    {
      ghost var s := View();
      trace, turn := [], s;
      var t := DrvForUuid(m, u);
      if t == [] { return false, [], s; }
      Ask(c, m, u, r, k);
      ghost var asked := View();
      trace := Meanwhile(c, meanwhile);
      RunsCall(c, asked, trace, View(), k);
      WentJoin(c, s, [] + [Report(m, u, r, k)], asked, trace, View());
      trace, turn := [] + [Report(m, u, r, k)] + trace, View();
      ghost var id, at;
      ok, id, at := TakeTurn(c, k, now);
      AnswerLast(c, s, trace, turn, k, id, at, View());
      trace := trace + [Act(k, id, at)];
    }

    method Ask(c: Config, m: MachineId, u: Uuid, r: BuildResultState, k: CallId)
      requires Agreement(c, View()) && k !in calls && ReportTarget(View(), m, u) != []
      modifies this`calls
      ensures Went(c, old(View()), [] + [Report(m, u, r, k)], View())
      ensures k in calls && calls[k] == Call(ReportTarget(old(View()), m, u)[0], r)
    {
      WentOne(c, View(), Report(m, u, r, k));
      calls := calls[k := Call(DrvForUuid(m, u)[0], r)];
    }

    /** A call's turn comes. */
    method TakeTurn(c: Config, k: CallId, now: int) returns (ok: bool, ghost id: TaskId, ghost at: int)
      requires Agreement(c, View()) && k in calls
      modifies this
      ensures ok == (old(calls)[k].path in old(scheduled))
      ensures Answers(c, old(View()), k, id, at, old(calls)[k], View())
    {
      var x := NewId(tasks.Keys);
      var y := if now < clock then clock else now;
      CanFollow(c, View(), calls[k].path);
      id, at := x, y;
      ok := Answer(c, k, x, y);
    }

    // ---- dispatching ----

    /** The pass itself looks at an entry before it asks for a machine. */
    method Look(i: InfoId, t0: int) returns (due: bool)
      ensures due == (Live(View(), i) && !infos[i].already && infos[i].step !in finished
        && After(View(), infos[i].step) <= t0)
    {
      due := false;
      if !Upgrades(i) { return; }
      if infos[i].already { return; }
      if infos[i].step in finished { return; }
      var t := if infos[i].step in after then after[infos[i].step] else 0;
      due := t <= t0;
    }

    /** The dispatch loop takes up an entry for a machine with a free slot. */
    method Choose(c: Config, i: InfoId, m: MachineId, t0: int, now: int) returns (ghost trace: seq<Op>, ghost at: int)
      requires Agreement(c, View()) && dispatcher == IDLE && Waits(View(), i) && !infos[i].already
      requires After(View(), infos[i].step) <= t0 && HasRoom(c, View(), m)
      modifies this`dispatcher, this`clock
      ensures Did(c, old(View()), trace, [Pick(i, m, t0, at)], View())
      ensures View() == old(View()).(dispatcher := Chosen(i, m), clock := clock)
    {
      var x := if now < t0 then t0 else now;
      var y := if x < clock then clock else x;
      DidOne(c, View(), Pick(i, m, t0, y));
      dispatcher, clock := Chosen(i, m), y;
      trace, at := [Pick(i, m, t0, y)], y;
    }

    /** The job goes to the chosen machine. */
    method SendJob(c: Config, u: Uuid) returns (ghost trace: seq<Op>)
      requires Agreement(c, View()) && dispatcher.Chosen? && u !in used
      modifies this
      ensures Did(c, old(View()), trace, [Send(u, old(clock))], View())
      ensures dispatcher == Sent(old(dispatcher).info, old(dispatcher).machine, u)
      ensures used == old(used) + {u} && finished == old(finished)
    {
      HandApart(c, View());
      DidOne(c, View(), Send(u, clock));
      trace := [Send(u, clock)];
      PutOut(u);
    }

    method PutOut(u: Uuid)
      requires dispatcher.Chosen? && dispatcher.info in infos && dispatcher.machine in machines
      modifies this`machines, this`dispatcher, this`starts, this`used, this`resent
      ensures View() == SendOut(old(View()), u, clock)
    {
      var i, m := dispatcher.info, dispatcher.machine;
      ghost var sent := SendOut(View(), u, clock);
      InsertJob(m, Job(u, infos[i].path));
      dispatcher := Sent(i, m, u);
      starts, used, resent := sent.starts, sent.used, sent.resent;
    }

    /** The job that was sent is recorded as scheduled. */
    method ScheduleJob(c: Config) returns (ghost trace: seq<Op>)
      requires Agreement(c, View()) && dispatcher.Sent?
      modifies this
      ensures Did(c, old(View()), trace, [Schedule], View())
      ensures dispatcher == IDLE && finished == old(finished) && used == old(used)
      ensures Delivered(View(), old(dispatcher).info, old(dispatcher).machine, old(dispatcher).uuid)
    {
      HandApart(c, View());
      JobIsThere(c, View());
      DidOne(c, View(), Schedule);
      trace := [Schedule];
      Record();
    }

    method Record()
      requires CanSchedule(View())
      modifies this`scheduled, this`infos, this`queues, this`dispatcher
      ensures View() == DoSchedule(old(View()))
    {
      AddJobToScheduled(dispatcher.info, dispatcher.machine);
      dispatcher := IDLE;
    }

    /** The chosen entry is given up and leaves the owning map. */
    method GiveUp(c: Config) returns (ghost trace: seq<Op>)
      requires Agreement(c, View()) && (dispatcher.Chosen? || (dispatcher.CacheHit? && dispatcher.passed))
      modifies this
      ensures Did(c, old(View()), trace, [Discard], View()) && OutOfJobs(View(), old(dispatcher).info)
      ensures dispatcher == IDLE && finished == old(finished) && used == old(used)
    {
      HandApart(c, View());
      DidOne(c, View(), Discard);
      LeavesJobs(View());
      trace := [Discard];
      Drop();
    }

    method Drop()
      requires CanDiscard(View())
      modifies this`jobs, this`queues, this`dispatcher, this`dropped
      ensures View() == DoDiscard(old(View()))
    {
      var f := infos[dispatcher.info];
      dropped := NoteDropped(View(), f.path, dispatcher.Chosen?).dropped;
      RemoveJob(f.path, f.system);
      dispatcher := IDLE;
    }

    /** A cached failure is found. */
    method FindCached(c: Config) returns (ghost trace: seq<Op>)
      requires Agreement(c, View()) && dispatcher.Chosen?
      modifies this`dispatcher
      ensures Did(c, old(View()), trace, [Hit], View()) && dispatcher == CacheHit(old(dispatcher).info, false)
    {
      DidOne(c, View(), Hit);
      dispatcher := CacheHit(dispatcher.info, false);
      trace := [Hit];
    }

    method PassCached(c: Config, v: set<StepId>) returns (ghost trace: seq<Op>)
      requires Agreement(c, View()) && dispatcher.CacheHit?
      modifies this`dispatcher
      ensures Did(c, old(View()), trace, [CachePass(v)], View()) && dispatcher == CacheHit(old(dispatcher).info, true)
    {
      HandApart(c, View());
      DidOne(c, View(), CachePass(v));
      dispatcher := CacheHit(dispatcher.info, true);
      trace := [CachePass(v)];
    }

    method LetGo(c: Config) returns (ghost trace: seq<Op>)
      requires Agreement(c, View()) && dispatcher.Chosen?
      modifies this`dispatcher
      ensures Did(c, old(View()), trace, [Skip], View()) && View() == old(View()).(dispatcher := IDLE)
    {
      DidOne(c, View(), Skip);
      dispatcher := IDLE;
      trace := [Skip];
    }

    /** The job is sent and, after others had their turn, recorded as scheduled. */
    method Deliver(c: Config, u: Uuid, behind: seq<Op>) returns (ghost trace: seq<Op>)
      requires Agreement(c, View()) && dispatcher.Chosen? && u !in used && AllOthers(behind)
      modifies this
      ensures Did(c, old(View()), trace, [Send(u, old(clock))] + [Schedule], View())
      ensures Delivered(View(), old(dispatcher).info, old(dispatcher).machine, u)
      ensures dispatcher == IDLE && used == old(used) + {u} && old(finished) <= finished
    {
      ghost var s := View();
      ghost var first := SendJob(c, u);
      ghost var sent := View();
      ghost var more := Wait(c, behind);
      ghost var last := View();
      ghost var end := ScheduleJob(c);
      DidThrice(c, s, first, [Send(u, s.clock)], sent, more, last, end, [Schedule], View());
      trace := first + more + end;
    }

    /** A cached failure is found and carried through the dependents. */
    method FailCached(c: Config, v: set<StepId>) returns (ghost trace: seq<Op>)
      requires Agreement(c, View()) && dispatcher.Chosen?
      modifies this`dispatcher
      ensures Did(c, old(View()), trace, [Hit, CachePass(v)], View())
        && dispatcher == CacheHit(old(dispatcher).info, true)
    {
      ghost var s := View();
      ghost var hit := FindCached(c);
      ghost var s1 := View();
      ghost var passed := PassCached(c, v);
      DidTwice(c, s, hit, [Hit], s1, passed, [CachePass(v)], View());
      trace := hit + passed;
    }

    /** A cached failure is carried through the dependents before the job is given up. */
    method CarryFailure(c: Config, v: set<StepId>, behind: seq<Op>) returns (ghost trace: seq<Op>)
      requires Agreement(c, View()) && dispatcher.Chosen? && AllOthers(behind)
      modifies this
      ensures Did(c, old(View()), trace, [Hit, CachePass(v)] + [Discard], View())
      ensures OutOfJobs(View(), old(dispatcher).info)
      ensures dispatcher == IDLE && used == old(used) && old(finished) <= finished
    {
      ghost var s := View();
      ghost var first := FailCached(c, v);
      ghost var passed := View();
      ghost var more := Wait(c, behind);
      ghost var last := View();
      ghost var end := GiveUp(c);
      DidThrice(c, s, first, [Hit, CachePass(v)], passed, more, last, end, [Discard], View());
      trace := first + more + end;
    }

    /** The answer decides: a valid one has the job sent and recorded, a cancelled or failed
        entry leaves the owning map, and after an error everything stays. */
    method Settle(c: Config, turn: Turn) returns (ghost trace: seq<Op>, ghost own: seq<Op>)
      requires Agreement(c, View()) && dispatcher.Chosen? && OthersOnly(turn) && !turn.answer.NoMachine?
      requires turn.answer.Valid? ==> turn.answer.u !in used
      modifies this
      ensures Did(c, old(View()), trace, own, View()) && dispatcher == IDLE
      ensures used <= old(used) + Uuids(turn.answer) && old(finished) <= finished
      ensures Settled(turn.answer, old(dispatcher).info, old(dispatcher).machine, own, View())
      ensures turn.answer.Error? ==> View() == old(View()).(dispatcher := IDLE)
    {
      ghost var at := clock;
      match turn.answer
      case Valid(_, u) =>
        trace := Deliver(c, u, turn.behind);
        own := [Send(u, at)] + [Schedule];
      case MaybeCancelled(_) =>
        trace := GiveUp(c);
        own := [Discard];
      case CachedFailure(_, v) =>
        trace := CarryFailure(c, v, turn.behind);
        own := [Hit, CachePass(v)] + [Discard];
      case Error(_) =>
        trace := LetGo(c);
        own := [Skip];
    }

    /** An entry taken up, with other tasks at work before its job is sent or given up. */
    method TakeUp(c: Config, i: InfoId, turn: Turn, t0: int) returns (ghost trace: seq<Op>, ghost own: seq<Op>)
      requires Agreement(c, View()) && dispatcher == IDLE && OthersOnly(turn) && !turn.answer.NoMachine?
      requires turn.answer.Valid? ==> turn.answer.u !in used
      requires Waits(View(), i) && !infos[i].already && After(View(), infos[i].step) <= t0
        && HasRoom(c, View(), turn.answer.m)
      modifies this
      ensures Did(c, old(View()), trace, own, View()) && dispatcher == IDLE && TookUp(i, turn, t0, own, View())
      ensures used <= old(used) + Uuids(turn.answer) && old(finished) <= finished
      ensures turn.answer.Error? && turn.before == [] ==> View() == old(View()).(clock := clock)
    {
      ghost var s := View();
      ghost var first, at := Choose(c, i, turn.answer.m, t0, turn.now);
      ghost var picked := View();
      ghost var more := Wait(c, turn.before);
      ghost var last := View();
      ghost var end, rest := Settle(c, turn);
      DidThrice(c, s, first, [Pick(i, turn.answer.m, t0, at)], picked, more, last, end, rest, View());
      trace, own := first + more + end, [Pick(i, turn.answer.m, t0, at)] + rest;
      assert own[1..] == rest;
    }

    /** One queue entry of a dispatch pass that started at `t0`, with other tasks at work
        whenever the loop waits. It is kept waiting if and only if it is due and no machine
        was found, taken up if and only if it is due and one was found, and left alone
        otherwise. */
    method ProcessEntry(c: Config, i: InfoId, turn: Turn, t0: int) returns (waiting: bool, ghost trace: seq<Op>)
      requires Agreement(c, View()) && dispatcher == IDLE && OthersOnly(turn) && (Live(View(), i) ==> Listed(View(), i))
      requires turn.answer.Valid? ==> turn.answer.u !in used
      modifies this
      ensures Went(c, old(View()), trace, View()) && dispatcher == IDLE && NoInserts(trace)
      ensures Picks(trace) <= if Due(old(View()), old(finished), i, t0) then {i} else {}
      ensures used <= old(used) + Uuids(turn.answer) && old(finished) <= finished
      ensures waiting <==> Due(old(View()), old(finished), i, t0) && !Found(c, old(View()), turn.answer)
      ensures Visited(c, t0, Visit(i, turn, old(View()), old(finished), trace, View()))
    {
      waiting, trace := false, [];
      var due := Look(i, t0);
      if !due { return; }
      waiting := true;
      if turn.answer.NoMachine? { return; }
      var m := turn.answer.m;
      if m in machines && m in online && (c.limited ==> machines[m].currentJobs < machines[m].maxJobs) {
        ghost var own;
        trace, own := TakeUp(c, i, turn, t0);
        OwnPicks(trace, own, i, turn, t0, View());
        waiting := false;
      }
    }

    /** A dispatch pass over all queues, with other tasks at work at every entry: a round
        for each queue, in some order, and in each round a visit to every entry that the
        queue has when its turn comes. The answer is the number of entries kept waiting. */
    method Process(c: Config, turns: seq<Turn>, t0: int) returns (waiting: nat, ghost rounds: seq<Round>)
      requires Agreement(c, View()) && dispatcher == IDLE && TurnsOk(used, turns, 0)
      modifies this
      ensures PassOk(c, t0, turns, old(queues).Keys, old(View()), old(finished), rounds, View()) && dispatcher == IDLE
      ensures waiting == WaitingAll(c, t0, rounds)
      ensures Went(c, old(View()), AllOps(rounds), View()) && NoInserts(AllOps(rounds))
      ensures Picks(AllOps(rounds)) <= Unfinished(old(View()), old(finished))
    {
      ghost var s, flags := View(), finished;
      waiting, rounds := AllRounds(c, turns, t0);
      PassRuns(c, t0, turns, old(queues).Keys, s, flags, rounds, View());
    }

    method AllRounds(c: Config, turns: seq<Turn>, t0: int) returns (waiting: nat, ghost rounds: seq<Round>)
      requires Agreement(c, View()) && dispatcher == IDLE && TurnsOk(used, turns, 0)
      modifies this
      ensures PassOk(c, t0, turns, old(queues).Keys, old(View()), old(finished), rounds, View()) && dispatcher == IDLE
      ensures waiting == WaitingAll(c, t0, rounds)
    {
      ghost var s, flags := View(), finished;
      rounds, waiting := [], 0;
      var n: nat := 0;
      var todo := queues.Keys;
      ghost var done: set<System> := {};
      while todo != {}
        invariant todo + done == old(queues).Keys && todo !! done
        invariant InPass(c, t0, turns, done, s, flags, rounds, View(), finished, n, waiting) && dispatcher == IDLE
        invariant TurnsOk(used, turns, n)
        decreases todo
      {
        var sys :| sys in todo;
        waiting, n, rounds := NextRound(c, sys, turns, n, t0, waiting, done, s, flags, rounds);
        todo, done := todo - {sys}, done + {sys};
      }
      assert done == old(queues).Keys;
    }

    /** The next queue of a pass. */
    method NextRound(
        c: Config, sys: System, turns: seq<Turn>, n: nat, t0: int, waiting: nat, ghost done: set<System>,
        ghost s: Sched, ghost flags: set<StepId>, ghost rounds: seq<Round>)
        returns (count: nat, next: nat, ghost more: seq<Round>)
      requires InPass(c, t0, turns, done, s, flags, rounds, View(), finished, n, waiting) && dispatcher == IDLE
      requires TurnsOk(used, turns, n) && sys !in done
      modifies this
      ensures InPass(c, t0, turns, done + {sys}, s, flags, more, View(), finished, next, count) && dispatcher == IDLE
      ensures TurnsOk(used, turns, next)
    {
      ghost var m := View();
      ghost var r;
      count, next, r := ProcessQueue(c, sys, turns, n, t0);
      PassNext(c, t0, turns, done, s, flags, rounds, m, r, View(), n, waiting);
      count, more := waiting + count, rounds + [r];
    }

    method ProcessQueue(c: Config, sys: System, turns: seq<Turn>, n0: nat, t0: int)
        returns (waiting: nat, n: nat, ghost r: Round)
      requires Agreement(c, View()) && dispatcher == IDLE && TurnsOk(used, turns, n0)
      modifies this
      ensures RoundOk(c, t0, turns, r) && Agreement(c, View()) && dispatcher == IDLE
      ensures waiting == WaitingIn(c, t0, r.visits) && n == n0 + |r.visits| && TurnsOk(used, turns, n)
      ensures r == Round(sys, n0, old(View()), old(finished), r.visits, View()) && old(finished) <= finished
    {
      var entries := if sys in queues then queues[sys].entries else [];
      EntriesListed(c, View(), sys, entries);
      waiting, r := VisitAll(c, entries, sys, turns, n0, t0);
      n := n0 + |entries|;
    }

    method VisitAll(c: Config, entries: seq<InfoId>, ghost sys: System, turns: seq<Turn>, n0: nat, t0: int)
        returns (waiting: nat, ghost r: Round)
      requires InRound(c, View(), dispatcher, entries, used, turns, n0)
      modifies this
      ensures InRound(c, View(), dispatcher, entries, used, turns, n0 + |entries|)
      ensures SameRound(r, sys, n0, old(View()), old(finished), View()) && old(finished) <= finished
      ensures GoneThrough(c, t0, turns, entries, r, |entries|, waiting)
    {
      ghost var s, flags := View(), finished;
      waiting, r := 0, Round(sys, n0, s, flags, [], s);
      var k := 0;
      while k < |entries|
        invariant 0 <= k <= |entries|
        invariant SameRound(r, sys, n0, s, flags, View()) && flags <= finished
        invariant GoneThrough(c, t0, turns, entries, r, k, waiting)
        invariant InRound(c, View(), dispatcher, entries, used, turns, n0 + k)
      {
        waiting, r := VisitNext(c, entries, k, turns, n0, t0, waiting, sys, s, flags, r);
        k := k + 1;
      }
    }

    /** The next entry of a round. */
    method VisitNext(
        c: Config, entries: seq<InfoId>, k: nat, turns: seq<Turn>, n0: nat, t0: int, waiting: nat, ghost sys: System,
        ghost s: Sched, ghost flags: set<StepId>, ghost r: Round)
        returns (count: nat, ghost q: Round)
      requires k < |entries| && InRound(c, View(), dispatcher, entries, used, turns, n0 + k)
      requires SameRound(r, sys, n0, s, flags, View()) && flags <= finished
      requires GoneThrough(c, t0, turns, entries, r, k, waiting)
      modifies this
      ensures InRound(c, View(), dispatcher, entries, used, turns, n0 + (k + 1))
      ensures SameRound(q, sys, n0, s, flags, View()) && flags <= finished
      ensures GoneThrough(c, t0, turns, entries, q, k + 1, count)
    {
      TurnsNext(used, turns, n0 + k, t0);
      var waits;
      ghost var v;
      waits, v := VisitEntry(c, entries, k, TurnAt(turns, n0 + k, t0), t0);
      RoundNext(c, t0, turns, entries, r, v);
      WaitingNext(c, t0, r.visits, v);
      q := Round(r.sys, r.n, r.start, r.flags, r.visits + [v], View());
      count := if waits then waiting + 1 else waiting;
    }

    method VisitEntry(c: Config, entries: seq<InfoId>, k: nat, turn: Turn, t0: int)
        returns (waits: bool, ghost v: Visit)
      requires Agreement(c, View()) && dispatcher == IDLE && OthersOnly(turn) && k < |entries|
      requires turn.answer.Valid? ==> turn.answer.u !in used
      requires AllListed(View(), entries)
      modifies this
      ensures Agreement(c, View()) && dispatcher == IDLE && AllListed(View(), entries) && Visited(c, t0, v)
      ensures v == Visit(entries[k], turn, old(View()), old(finished), v.ops, View()) && waits == KeptWaiting(c, t0, v)
      ensures used <= old(used) + Uuids(turn.answer) && old(finished) <= finished
    {
      ghost var s, flags := View(), finished;
      ghost var more;
      waits, more := ProcessEntry(c, entries[k], turn, t0);
      StayListed(c, s, more, View(), entries);
      v := Visit(entries[k], turn, s, flags, more, View());
    }
  }

  function Tried(s: Sched, st: StepId, retry: bool, now: int): Sched {
    s.(tries := if retry then s.tries[st := Tries(s, st) + 1] else s.tries,
       fails := if retry then s.fails[st := Fails(s, st) + [now]] else s.fails,
       clock := now)
  }

  /** What a failure that was counted leads to. */
  function Decided(c: Config, s: Sched, st: StepId, i: InfoId, retry: bool, id: TaskId): Sched {
    var n := Tries(s, st);
    var again := retry && 0 < n < c.maxRetries;
    s.(after := if again then s.after[st := s.clock + Delay(c, n) * NANOS] else s.after,
       tasks := s.tasks[id := if again then Retrying(i) else Failing(i, false, false)],
       doomed := if again then s.doomed else s.doomed + {st})
  }

  /** A failure is counted once its job is off its machine. */
  function Counts(c: Config, s: Sched, i: InfoId, r: BuildResultState, id: TaskId, now: int): Sched
    requires i in s.infos
  {
    var st := s.infos[i].step;
    Decided(c, Tried(s, st, CanRetry(r), now), st, i, CanRetry(r), id)
  }

  lemma ReleasedCounts(c: Config, s: Sched, p: Path, r: BuildResultState, id: TaskId, now: int)
    requires Followable(s, p) && !r.Success?
    ensures Counts(c, Release(s, p), s.scheduled[p].info, r, id, now) == Apart(c, s, p, r, id, now)
  {
  }

  lemma AnswerIs(c: Config, s: Sched, k: CallId, id: TaskId, now: int, m: Sched)
    requires CanAct(s, k, id, now) && m == Apart(c, s, s.calls[k].path, s.calls[k].outcome, id, now)
    ensures m.calls == s.calls && DoAct(c, s, k, id, now) == m.(calls := m.calls - {k})
  {
    if s.calls[k].path in s.scheduled { ApartTables(c, s, s.calls[k].path, s.calls[k].outcome, id, now); }
  }

  lemma NextIs(c: Config, s: Sched, m: MachineId, id: TaskId, now: int)
    requires CanDrain(s, m, id, now)
    ensures var h := Apart(c, s, s.draining[m][0], PreparingFailure, id, now);
      h.draining == s.draining && DoDrain(c, s, m, id, now) == h.(draining := h.draining[m := s.draining[m][1..]])
  {
    if s.draining[m][0] in s.scheduled { ApartTables(c, s, s.draining[m][0], PreparingFailure, id, now); }
  }

  lemma {:induction false} ScrubbedEnd(s: Sched, entries: seq<InfoId>, x: InfoId)
    ensures Scrubbed(s, entries + [x]) == Scrubbed(s, entries) + if Live(s, x) then [x] else []
  {
    if entries == [] {
      assert [] + [x] == [x];
    } else {
      assert (entries + [x])[1..] == entries[1..] + [x];
      ScrubbedEnd(s, entries[1..], x);
    }
  }

  lemma CanFollow(c: Config, s: Sched, p: Path)
    requires Agreement(c, s)
    ensures p in s.scheduled ==> Followable(s, p)
  {
    assert ItemOk(s, p);
  }

  /** Scheduled items and tasks lead to their infos and queues. */
  predicate Followed(s: Sched) {
    (forall p :: p in s.scheduled ==> Followable(s, p)) && (forall id :: id in s.tasks ==> Placed(s, s.tasks[id].info))
  }

  lemma AllFollowed(c: Config, s: Sched)
    requires Agreement(c, s)
    ensures Followed(s)
  {
    forall p | p in s.scheduled ensures Followable(s, p) { assert ItemOk(s, p); }
    forall id | id in s.tasks ensures Placed(s, s.tasks[id].info) {
      assert s.tasks[id].info in InTasks(s) && HeldOk(s, s.tasks[id].info);
    }
  }

  /** Operations of other tasks that do not concern the loss of the machine. */
  predicate Elsewhere(ops: seq<Op>, m: MachineId) {
    forall op :: op in ops ==> OthersOp(op) && (op.Drain? || op.Lose? ==> op.m != m)
  }

  /** Every job of the machine is still to be failed or in flight. */
  predicate OnlyListed(s: Sched, m: MachineId) {
    m in s.machines && m in s.draining ==>
      forall j :: j in s.machines[m].jobs ==> j.path in s.draining[m] || InFlight(s, m, j)
  }

  method NewId(ids: set<nat>) returns (id: nat)
    ensures id !in ids
  {
    id := 0;
    var todo := ids;
    while todo != {}
      invariant todo <= ids && forall x :: x in ids && x !in todo ==> x < id
      decreases todo
    {
      var x :| x in todo;
      if id <= x { id := x + 1; }
      todo := todo - {x};
    }
  }

  lemma LosesListed(c: Config, s: Sched, m: MachineId)
    requires CanLose(s, m)
    ensures OnlyListed(DoLose(s, m), m)
  {
    var jobs := s.machines[m].jobs;
    forall j | j in jobs ensures j.path in Paths(jobs) {
      var k :| 0 <= k < |jobs| && jobs[k] == j;
      assert Paths(jobs)[k] == j.path;
    }
  }

  lemma DrainListed(c: Config, s: Sched, m: MachineId, id: TaskId, now: int)
    requires Agreement(c, s) && CanDrain(s, m, id, now) && OnlyListed(s, m)
    ensures OnlyListed(DoDrain(c, s, m, id, now), m)
  {
    var p, h := s.draining[m][0], DoDrain(c, s, m, id, now);
    NextIs(c, s, m, id, now);
    if p in s.scheduled { ApartTables(c, s, p, PreparingFailure, id, now); }
    forall j | j in h.machines[m].jobs ensures j.path in h.draining[m] || InFlight(h, m, j) {
      assert OnMachineOk(s, m, j);
      assert s.draining[m] == [p] + s.draining[m][1..];
    }
  }

  lemma DrainGoesOn(c: Config, s: Sched, ops: seq<Op>, x: Sched, m: MachineId, id: TaskId, now: int)
    requires Agreement(c, x) && Runs(c, s, ops, x) && CanDrain(x, m, id, now) && OnlyListed(x, m)
    ensures var h := DoDrain(c, x, m, id, now);
      && Agreement(c, h) && Runs(c, s, ops + [Drain(m, id, now)], h) && OnlyListed(h, m)
      && m in h.machines && m !in h.online && m in h.draining && h.draining[m] == x.draining[m][1..]
  {
    DoKeeps(c, x, Drain(m, id, now));
    OthersLeave(c, x, Drain(m, id, now));
    DrainListed(c, x, m, id, now);
    NextIs(c, x, m, id, now);
    RunsOn(c, s, ops, x, Drain(m, id, now));
  }

  lemma OpElsewhere(c: Config, s: Sched, op: Op, m: MachineId)
    requires Agreement(c, s) && Can(c, s, op) && OthersOp(op) && (op.Drain? || op.Lose? ==> op.m != m)
    requires m in s.machines && m in s.draining && m !in s.online && OnlyListed(s, m)
    ensures var h := Do(c, s, op);
      m in h.machines && m in h.draining && h.draining[m] == s.draining[m] && m !in h.online && OnlyListed(h, m)
  {
    OthersLeave(c, s, op);
    SameDraining(c, s, op, m);
  }

  lemma SameDraining(c: Config, s: Sched, op: Op, m: MachineId)
    requires Can(c, s, op) && OthersOp(op) && (op.Drain? || op.Lose? ==> op.m != m) && m in s.draining
    ensures m in Do(c, s, op).draining && Do(c, s, op).draining[m] == s.draining[m]
  {
    match op
    case Act(k, id, now) => AnswerDraining(c, s, s.calls[k].path, s.calls[k].outcome, id, now);
    case Drain(n, id, now) => NextIs(c, s, n, id, now);
    case Report(n, u, r, k) => assert DoReport(s, n, u, r, k).draining == s.draining;
    case Kill(p, k) => assert DoKill(s, p, k).draining == s.draining;
    case Remove(id) => assert DoRemove(s, id).draining == s.draining;
    case TaskPass(id, v) => assert DoTaskPass(s, id).draining == s.draining;
    case End(id) => assert DoEnd(s, id).draining == s.draining;
    case Join(n, x) => assert DoJoin(s, n, x).draining == s.draining;
    case Lose(n) =>
  }

  lemma AnswerDraining(c: Config, s: Sched, p: Path, r: BuildResultState, id: TaskId, now: int)
    requires p in s.scheduled ==> Followable(s, p)
    ensures Apart(c, s, p, r, id, now).draining == s.draining
  {
    if p in s.scheduled { ApartTables(c, s, p, r, id, now); }
  }

  lemma {:induction false} RunsElsewhere(c: Config, s: Sched, ops: seq<Op>, h: Sched, m: MachineId)
    requires Agreement(c, s) && Runs(c, s, ops, h) && Elsewhere(ops, m)
    requires m in s.machines && m in s.draining && m !in s.online && OnlyListed(s, m)
    ensures m in h.machines && m in h.draining && h.draining[m] == s.draining[m] && m !in h.online && OnlyListed(h, m)
    decreases |ops|
  {
    if ops != [] {
      var x :| RunsTo(c, s, ops, x, h);
      RunsKeep(c, s, ops[..|ops| - 1], x);
      RunsElsewhere(c, s, ops[..|ops| - 1], x, m);
      OpElsewhere(c, x, ops[|ops| - 1], m);
    }
  }

  /** Operations of other tasks that do not answer the call. */
  predicate NotAnswering(ops: seq<Op>, k: CallId) {
    forall op :: op in ops ==> OthersOp(op) && (op.Act? ==> op.k != k)
  }

  /** The call is answered, and that is all. */
  ghost predicate Answers(c: Config, s: Sched, k: CallId, id: TaskId, now: int, call: Call, h: Sched) {
    CanAct(s, k, id, now) && s.calls[k] == call && h == DoAct(c, s, k, id, now)
  }

  /** The last operation of the run answers the call in the state `turn`. */
  ghost predicate AnswersLast(c: Config, s: Sched, ops: seq<Op>, turn: Sched, k: CallId, call: Call, h: Sched) {
    && ops != [] && Runs(c, s, ops[..|ops| - 1], turn)
    && exists id, at :: ops[|ops| - 1] == Act(k, id, at) && Answers(c, turn, k, id, at, call, h)
  }

  lemma AnswerLast(c: Config, s: Sched, ops: seq<Op>, turn: Sched, k: CallId, id: TaskId, at: int, h: Sched)
    requires Went(c, s, ops, turn) && k in turn.calls && Answers(c, turn, k, id, at, turn.calls[k], h)
    ensures Went(c, s, ops + [Act(k, id, at)], h)
    ensures AnswersLast(c, s, ops + [Act(k, id, at)], turn, k, turn.calls[k], h)
  {
    WentNext(c, s, ops, turn, Act(k, id, at), h);
    assert (ops + [Act(k, id, at)])[..|ops|] == ops;
  }

  lemma OpCalls(c: Config, s: Sched, op: Op, k: CallId)
    requires Can(c, s, op) && OthersOp(op) && (op.Act? ==> op.k != k) && k in s.calls
    ensures k in Do(c, s, op).calls && Do(c, s, op).calls[k] == s.calls[k]
  {
    match op
    case Act(x, id, now) => AnswerIs(c, s, x, id, now, Apart(c, s, s.calls[x].path, s.calls[x].outcome, id, now));
    case Drain(n, id, now) => DrainCalls(c, s, n, id, now);
    case Report(n, u, r, x) => assert k in DoReport(s, n, u, r, x).calls;
    case Kill(p, x) => assert k in DoKill(s, p, x).calls;
    case Remove(id) => assert DoRemove(s, id).calls == s.calls;
    case TaskPass(id, v) => assert DoTaskPass(s, id).calls == s.calls;
    case End(id) => assert DoEnd(s, id).calls == s.calls;
    case Join(n, x) => assert DoJoin(s, n, x).calls == s.calls;
    case Lose(n) => assert DoLose(s, n).calls == s.calls;
  }

  lemma DrainCalls(c: Config, s: Sched, n: MachineId, id: TaskId, now: int)
    requires CanDrain(s, n, id, now)
    ensures DoDrain(c, s, n, id, now).calls == s.calls
  {
    NextIs(c, s, n, id, now);
    if s.draining[n][0] in s.scheduled { ApartTables(c, s, s.draining[n][0], PreparingFailure, id, now); }
  }

  lemma {:induction false} RunsCall(c: Config, s: Sched, ops: seq<Op>, h: Sched, k: CallId)
    requires Runs(c, s, ops, h) && NotAnswering(ops, k) && k in s.calls
    ensures k in h.calls && h.calls[k] == s.calls[k]
    decreases |ops|
  {
    if ops != [] {
      var x :| RunsTo(c, s, ops, x, h);
      RunsCall(c, s, ops[..|ops| - 1], x, k);
      OpCalls(c, x, ops[|ops| - 1], k);
    }
  }

  // ---- the turns of a dispatch pass ----

  predicate AllOthers(ops: seq<Op>) { forall op :: op in ops ==> OthersOp(op) }

  predicate OthersOnly(turn: Turn) {
    AllOthers(turn.before) && AllOthers(turn.behind)
  }

  function Uuids(a: Realised): set<Uuid> { if a.Valid? then {a.u} else {} }

  /** From the n-th on, job identifiers are new and pairwise different. */
  predicate TurnsOk(used: set<Uuid>, turns: seq<Turn>, n: nat) {
    && (forall k :: n <= k < |turns| ==> OthersOnly(turns[k]) && Uuids(turns[k].answer) !! used)
    && (forall k, l :: n <= k < l < |turns| ==> Uuids(turns[k].answer) !! Uuids(turns[l].answer))
  }

  /** The n-th answer; after the last one no machine is found. */
  function TurnAt(turns: seq<Turn>, n: nat, t0: int): Turn {
    if n < |turns| then turns[n] else Turn(NoMachine, [], [], t0)
  }

  lemma TurnsNext(used: set<Uuid>, turns: seq<Turn>, n: nat, t0: int)
    requires TurnsOk(used, turns, n)
    ensures var turn := TurnAt(turns, n, t0);
      && OthersOnly(turn) && Uuids(turn.answer) !! used
      && forall more: set<Uuid> :: more <= used + Uuids(turn.answer) ==> TurnsOk(more, turns, n + 1)
  {
  }

  // ---- what the loop itself does ----

  /** The operations of the dispatch loop, in order. */
  function Own(ops: seq<Op>): seq<Op> {
    if ops == [] then []
    else Own(ops[..|ops| - 1]) + if OthersOp(ops[|ops| - 1]) then [] else [ops[|ops| - 1]]
  }

  lemma {:induction false} OwnJoin(a: seq<Op>, b: seq<Op>)
    ensures Own(a + b) == Own(a) + Own(b)
    decreases |b|
  {
    if b == [] {
      assert a + b == a;
    } else {
      OwnJoin(a, b[..|b| - 1]);
      assert (a + b)[..|a + b| - 1] == a + b[..|b| - 1];
    }
  }

  lemma OwnOne(op: Op)
    ensures Own([op]) == (if OthersOp(op) then [] else [op]) && Own([] + [op]) == Own([op])
  {
    assert [op][..0] == [] && [] + [op] == [op];
  }

  lemma {:induction false} OwnOthers(ops: seq<Op>)
    requires AllOthers(ops)
    ensures Own(ops) == []
  {
    if ops != [] { OwnOthers(ops[..|ops| - 1]); }
  }

  /** The operations lead from one state to the other, and those of the loop are `own`. */
  ghost predicate Did(c: Config, s: Sched, ops: seq<Op>, own: seq<Op>, h: Sched) {
    Went(c, s, ops, h) && Own(ops) == own
  }

  lemma DidOne(c: Config, s: Sched, op: Op)
    requires Agreement(c, s) && Can(c, s, op) && !OthersOp(op)
    ensures Did(c, s, [op], [op], Do(c, s, op))
  {
    WentOne(c, s, op);
    OwnOne(op);
    assert [] + [op] == [op];
  }

  lemma DidTwice(c: Config, s: Sched, a: seq<Op>, x: seq<Op>, m: Sched, b: seq<Op>, y: seq<Op>, h: Sched)
    requires Did(c, s, a, x, m) && Did(c, m, b, y, h)
    ensures Did(c, s, a + b, x + y, h)
  {
    WentJoin(c, s, a, m, b, h);
    OwnJoin(a, b);
  }

  /** Between two stretches of the loop others run. */
  lemma DidThrice(
      c: Config, s: Sched, a: seq<Op>, x: seq<Op>, m: Sched, b: seq<Op>, n: Sched, d: seq<Op>, y: seq<Op>, h: Sched)
    requires Did(c, s, a, x, m) && Went(c, m, b, n) && AllOthers(b) && Did(c, n, d, y, h)
    ensures Did(c, s, a + b + d, x + y, h)
  {
    OwnOthers(b);
    assert x + [] == x;
    DidTwice(c, s, a, x, m, b, [], n);
    DidTwice(c, s, a + b, x, n, d, y, h);
  }

  lemma {:induction false} OwnMembers(ops: seq<Op>)
    ensures forall op :: op in Own(ops) <==> op in ops && !OthersOp(op)
  {
    if ops != [] {
      OwnMembers(ops[..|ops| - 1]);
      assert ops == ops[..|ops| - 1] + [ops[|ops| - 1]];
    }
  }

  /** The loop inserts nothing while it works on an entry, and picks that entry only. */
  lemma OwnPicks(ops: seq<Op>, own: seq<Op>, i: InfoId, turn: Turn, t0: int, h: Sched)
    requires Own(ops) == own && TookUp(i, turn, t0, own, h)
    ensures NoInserts(ops) && Picks(ops) == {i}
  {
    OwnMembers(ops);
    SettledOps(turn.answer, i, turn.answer.m, own[1..], h);
    assert own[0] in own;
    forall op | op in ops ensures !op.Insert? && (op.Pick? ==> op.i == i) {
      if !OthersOp(op) {
        assert op in own;
        var k :| 0 <= k < |own| && own[k] == op;
        assert k > 0 ==> own[1..][k - 1] == op;
      }
    }
  }

  lemma SettledOps(a: Realised, i: InfoId, m: MachineId, own: seq<Op>, h: Sched)
    requires Settled(a, i, m, own, h)
    ensures forall k :: 0 <= k < |own| ==> !own[k].Insert? && !own[k].Pick?
  {
  }

  /** The job is on the machine and its path is scheduled there. */
  predicate Delivered(h: Sched, i: InfoId, m: MachineId, u: Uuid) {
    && i in h.infos && h.infos[i].already && h.infos[i].path in h.scheduled
    && h.scheduled[h.infos[i].path] == Item(i, h.infos[i].system, m)
    && m in h.machines && Job(u, h.infos[i].path) in h.machines[m].jobs && u in h.used
  }

  predicate OutOfJobs(h: Sched, i: InfoId) { i in h.infos && h.infos[i].path !in h.jobs }

  lemma LeavesJobs(s: Sched)
    requires CanDiscard(s)
    ensures OutOfJobs(DoDiscard(s), s.dispatcher.info)
  {
  }

  lemma JobIsThere(c: Config, s: Sched)
    requires Agreement(c, s) && s.dispatcher.Sent? && Placed(s, s.dispatcher.info)
    ensures Delivered(DoSchedule(s), s.dispatcher.info, s.dispatcher.machine, s.dispatcher.uuid)
  {
    var d := s.dispatcher;
    assert OnMachineOk(s, d.machine, Job(d.uuid, s.infos[d.info].path));
  }

  /** What each answer leads to: a valid one sends the job exactly once and records it, a
      cancelled or failed entry leaves the owning map, an error only lets go. */
  predicate Settled(a: Realised, i: InfoId, m: MachineId, own: seq<Op>, h: Sched) {
    match a
    case NoMachine => false
    case Valid(_, u) =>
      |own| == 2 && own[0].Send? && own[0].u == u && own[1] == Schedule && Delivered(h, i, m, u)
    case MaybeCancelled(_) => own == [Discard] && OutOfJobs(h, i)
    case CachedFailure(_, v) => own == [Hit, CachePass(v)] + [Discard] && OutOfJobs(h, i)
    case Error(_) => own == [Skip]
  }

  predicate TookUp(i: InfoId, turn: Turn, t0: int, own: seq<Op>, h: Sched) {
    && own != [] && !turn.answer.NoMachine? && own[0].Pick? && own[0].i == i && own[0].m == turn.answer.m
    && own[0].t0 == t0 && Settled(turn.answer, i, turn.answer.m, own[1..], h)
  }

  /** The answer names a machine, which has room. */
  predicate Found(c: Config, s: Sched, a: Realised) { !a.NoMachine? && HasRoom(c, s, a.m) }

  /** One entry of a pass, with its answer, what was done there and the states around it. */
  datatype Visit = Visit(i: InfoId, turn: Turn, from: Sched, flags: set<StepId>, ops: seq<Op>, to: Sched)

  /** A due entry is taken up if a machine was found; any other is left as it is. */
  ghost predicate Visited(c: Config, t0: int, v: Visit) {
    && Went(c, v.from, v.ops, v.to)
    && if Due(v.from, v.flags, v.i, t0) && Found(c, v.from, v.turn.answer)
       then TookUp(v.i, v.turn, t0, Own(v.ops), v.to)
            && (v.turn.answer.Error? && v.turn.before == [] ==> v.to == v.from.(clock := v.to.clock))
       else v.ops == [] && v.to == v.from
  }

  predicate KeptWaiting(c: Config, t0: int, v: Visit) {
    Due(v.from, v.flags, v.i, t0) && !Found(c, v.from, v.turn.answer)
  }

  function WaitingIn(c: Config, t0: int, vs: seq<Visit>): nat {
    if vs == [] then 0 else WaitingIn(c, t0, vs[..|vs| - 1]) + if KeptWaiting(c, t0, vs[|vs| - 1]) then 1 else 0
  }

  function OpsOf(vs: seq<Visit>): seq<Op> { if vs == [] then [] else OpsOf(vs[..|vs| - 1]) + vs[|vs| - 1].ops }

  /** One queue of a pass; its first entry gets answer `n`. */
  datatype Round = Round(sys: System, n: nat, start: Sched, flags: set<StepId>, visits: seq<Visit>, end: Sched)

  ghost predicate VisitAt(c: Config, t0: int, turns: seq<Turn>, entries: seq<InfoId>, r: Round, k: nat)
    requires k < |r.visits| <= |entries|
  {
    var v := r.visits[k];
    && v.i == entries[k] && v.turn == TurnAt(turns, r.n + k, t0) && Visited(c, t0, v)
    && v.from == (if k == 0 then r.start else r.visits[k - 1].to) && r.flags <= v.flags
  }

  ghost predicate RoundSoFar(c: Config, t0: int, turns: seq<Turn>, entries: seq<InfoId>, r: Round) {
    && |r.visits| <= |entries| && r.end == (if r.visits == [] then r.start else r.visits[|r.visits| - 1].to)
    && forall k: nat :: k < |r.visits| ==> VisitAt(c, t0, turns, entries, r, k)
  }

  /** Every entry that the queue had at the start was visited, in order, each from where
      the one before had led. */
  ghost predicate RoundOk(c: Config, t0: int, turns: seq<Turn>, r: Round) {
    RoundSoFar(c, t0, turns, Entries(r.start, r.sys), r) && |r.visits| == |Entries(r.start, r.sys)|
  }

  lemma WaitingNext(c: Config, t0: int, vs: seq<Visit>, v: Visit)
    ensures WaitingIn(c, t0, vs + [v]) == WaitingIn(c, t0, vs) + if KeptWaiting(c, t0, v) then 1 else 0
  {
    assert (vs + [v])[..|vs|] == vs;
  }

  lemma VisitStays(c: Config, t0: int, turns: seq<Turn>, entries: seq<InfoId>, r: Round, q: Round, k: nat)
    requires k < |r.visits| <= |q.visits| && |r.visits| <= |entries| && |q.visits| <= |entries|
    requires VisitAt(c, t0, turns, entries, r, k)
    requires q.n == r.n && q.start == r.start && q.flags == r.flags && q.visits[k] == r.visits[k]
    requires k > 0 ==> q.visits[k - 1] == r.visits[k - 1]
    ensures VisitAt(c, t0, turns, entries, q, k)
  {
  }

  lemma RoundNext(c: Config, t0: int, turns: seq<Turn>, entries: seq<InfoId>, r: Round, v: Visit)
    requires RoundSoFar(c, t0, turns, entries, r) && |r.visits| < |entries| && Visited(c, t0, v)
    requires v.i == entries[|r.visits|] && v.turn == TurnAt(turns, r.n + |r.visits|, t0) && v.from == r.end
    requires r.flags <= v.flags
    ensures RoundSoFar(c, t0, turns, entries, Round(r.sys, r.n, r.start, r.flags, r.visits + [v], v.to))
  {
    var q := Round(r.sys, r.n, r.start, r.flags, r.visits + [v], v.to);
    forall k: nat | k < |q.visits| ensures VisitAt(c, t0, turns, entries, q, k) {
      if k < |r.visits| { VisitStays(c, t0, turns, entries, r, q, k); }
    }
  }

  lemma VisitRuns(c: Config, t0: int, v: Visit)
    requires Visited(c, t0, v)
    ensures NoInserts(v.ops) && Picks(v.ops) <= Unfinished(v.from, v.flags)
  {
    if v.ops != [] { OwnPicks(v.ops, Own(v.ops), v.i, v.turn, t0, v.to); }
  }

  function StateAt(r: Round, k: nat): Sched
    requires k <= |r.visits|
  {
    if k == 0 then r.start else r.visits[k - 1].to
  }

  /** `k` entries were visited. */
  ghost predicate GoneThrough(
      c: Config, t0: int, turns: seq<Turn>, entries: seq<InfoId>, r: Round, k: nat, waiting: nat) {
    RoundSoFar(c, t0, turns, entries, r) && |r.visits| == k && waiting == WaitingIn(c, t0, r.visits)
  }

  predicate SameRound(r: Round, sys: System, n: nat, s: Sched, flags: set<StepId>, h: Sched) {
    r.sys == sys && r.n == n && r.start == s && r.flags == flags && r.end == h
  }

  /** Between two entries of a round. */
  ghost predicate InRound(
      c: Config, s: Sched, d: Dispatcher, entries: seq<InfoId>, used: set<Uuid>, turns: seq<Turn>, n: nat) {
    Agreement(c, s) && d == IDLE && AllListed(s, entries) && TurnsOk(used, turns, n)
  }

  /** A round is a run that inserts nothing and picks entries of unfinished steps only. */
  lemma {:induction false} RoundRuns(c: Config, t0: int, turns: seq<Turn>, entries: seq<InfoId>, r: Round, k: nat)
    requires RoundSoFar(c, t0, turns, entries, r) && Agreement(c, r.start) && k <= |r.visits|
    ensures var ops := OpsOf(r.visits[..k]);
      Went(c, r.start, ops, StateAt(r, k)) && NoInserts(ops) && Picks(ops) <= Unfinished(r.start, r.flags)
  {
    if k == 0 {
      assert Runs(c, r.start, [], r.start);
    } else {
      RoundRuns(c, t0, turns, entries, r, k - 1);
      assert VisitAt(c, t0, turns, entries, r, k - 1);
      var v := r.visits[k - 1];
      VisitRuns(c, t0, v);
      assert r.visits[..k][..k - 1] == r.visits[..k - 1];
      RunsOnward(c, r.start, r.flags, OpsOf(r.visits[..k - 1]), v);
    }
  }

  lemma RunsOnward(c: Config, s: Sched, flags: set<StepId>, ops: seq<Op>, v: Visit)
    requires Agreement(c, s) && Went(c, s, ops, v.from) && Went(c, v.from, v.ops, v.to) && flags <= v.flags
    requires NoInserts(ops) && NoInserts(v.ops)
    requires Picks(ops) <= Unfinished(s, flags) && Picks(v.ops) <= Unfinished(v.from, v.flags)
    ensures Went(c, s, ops + v.ops, v.to) && NoInserts(ops + v.ops) && Picks(ops + v.ops) <= Unfinished(s, flags)
  {
    PassGoesOn(c, s, flags, ops, v.from, v.flags, v.ops, v.to);
  }

  function NextTurn(rounds: seq<Round>): nat {
    if rounds == [] then 0 else rounds[|rounds| - 1].n + |rounds[|rounds| - 1].visits|
  }

  function AllOps(rounds: seq<Round>): seq<Op> {
    if rounds == [] then [] else AllOps(rounds[..|rounds| - 1]) + OpsOf(rounds[|rounds| - 1].visits)
  }

  function WaitingAll(c: Config, t0: int, rounds: seq<Round>): nat {
    if rounds == [] then 0
    else WaitingAll(c, t0, rounds[..|rounds| - 1]) + WaitingIn(c, t0, rounds[|rounds| - 1].visits)
  }

  ghost predicate RoundAt(
      c: Config, t0: int, turns: seq<Turn>, s: Sched, flags: set<StepId>, rounds: seq<Round>, k: nat)
    requires k < |rounds|
  {
    && flags <= rounds[k].flags
    && RoundOk(c, t0, turns, rounds[k])
    && rounds[k].n == (if k == 0 then 0 else rounds[k - 1].n + |rounds[k - 1].visits|)
    && rounds[k].start == if k == 0 then s else rounds[k - 1].end
  }

  /** Exactly the given queues had their round, each once, one after the other. */
  ghost predicate PassOk(
      c: Config, t0: int, turns: seq<Turn>, done: set<System>, s: Sched, flags: set<StepId>, rounds: seq<Round>,
      h: Sched)
  {
    && (forall k: nat :: k < |rounds| ==> RoundAt(c, t0, turns, s, flags, rounds, k))
    && (forall sys :: sys in done <==> exists k :: 0 <= k < |rounds| && rounds[k].sys == sys)
    && (forall k, l :: 0 <= k < l < |rounds| ==> rounds[k].sys != rounds[l].sys)
    && h == if rounds == [] then s else rounds[|rounds| - 1].end
  }

  ghost predicate PassSoFar(
      c: Config, t0: int, turns: seq<Turn>, done: set<System>, s: Sched, flags: set<StepId>, rounds: seq<Round>,
      h: Sched, n: nat, waiting: nat)
  {
    PassOk(c, t0, turns, done, s, flags, rounds, h) && n == NextTurn(rounds) && waiting == WaitingAll(c, t0, rounds)
  }

  ghost predicate InPass(
      c: Config, t0: int, turns: seq<Turn>, done: set<System>, s: Sched, flags: set<StepId>, rounds: seq<Round>,
      h: Sched, finished: set<StepId>, n: nat, waiting: nat)
  {
    Agreement(c, h) && flags <= finished && PassSoFar(c, t0, turns, done, s, flags, rounds, h, n, waiting)
  }

  lemma PassNext(
      c: Config, t0: int, turns: seq<Turn>, done: set<System>, s: Sched, flags: set<StepId>, rounds: seq<Round>,
      m: Sched, r: Round, h: Sched, n: nat, waiting: nat)
    requires PassSoFar(c, t0, turns, done, s, flags, rounds, m, n, waiting) && RoundOk(c, t0, turns, r)
    requires r.sys !in done && r.start == m && r.end == h && r.n == n && flags <= r.flags
    ensures PassSoFar(c, t0, turns, done + {r.sys}, s, flags, rounds + [r], h, r.n + |r.visits|,
                      waiting + WaitingIn(c, t0, r.visits))
  {
    var all := rounds + [r];
    assert all[..|rounds|] == rounds;
    forall k: nat | k < |all| ensures RoundAt(c, t0, turns, s, flags, all, k) {
      if k < |rounds| { assert RoundAt(c, t0, turns, s, flags, rounds, k); }
    }
    forall sys ensures sys in done + {r.sys} <==> exists k :: 0 <= k < |all| && all[k].sys == sys {
      if sys == r.sys {
        assert all[|rounds|].sys == sys;
      } else if sys in done {
        var k :| 0 <= k < |rounds| && rounds[k].sys == sys;
        assert all[k].sys == sys;
      }
    }
  }

  /** A pass is a run that inserts nothing and picks entries of unfinished steps only. */
  lemma PassRuns(
      c: Config, t0: int, turns: seq<Turn>, done: set<System>, s: Sched, flags: set<StepId>, rounds: seq<Round>,
      h: Sched)
    requires PassOk(c, t0, turns, done, s, flags, rounds, h) && Agreement(c, s)
    ensures Went(c, s, AllOps(rounds), h) && NoInserts(AllOps(rounds))
    ensures Picks(AllOps(rounds)) <= Unfinished(s, flags)
  {
    RoundsRun(c, t0, turns, s, flags, rounds, |rounds|);
    assert rounds[..|rounds|] == rounds;
  }

  function EndAt(s: Sched, rounds: seq<Round>, k: nat): Sched
    requires k <= |rounds|
  {
    if k == 0 then s else rounds[k - 1].end
  }

  lemma {:induction false} RoundsRun(
      c: Config, t0: int, turns: seq<Turn>, s: Sched, flags: set<StepId>, rounds: seq<Round>, k: nat)
    requires Agreement(c, s) && k <= |rounds|
    requires forall l: nat :: l < |rounds| ==> RoundAt(c, t0, turns, s, flags, rounds, l)
    ensures var ops := AllOps(rounds[..k]);
      Went(c, s, ops, EndAt(s, rounds, k)) && NoInserts(ops) && Picks(ops) <= Unfinished(s, flags)
  {
    if k == 0 {
      assert Runs(c, s, [], s);
    } else {
      RoundsRun(c, t0, turns, s, flags, rounds, k - 1);
      assert RoundAt(c, t0, turns, s, flags, rounds, k - 1);
      var r := rounds[k - 1];
      OneRound(c, t0, turns, r);
      assert rounds[..k][..k - 1] == rounds[..k - 1];
      PassGoesOn(c, s, flags, AllOps(rounds[..k - 1]), r.start, r.flags, OpsOf(r.visits), r.end);
    }
  }

  lemma OneRound(c: Config, t0: int, turns: seq<Turn>, r: Round)
    requires RoundOk(c, t0, turns, r) && Agreement(c, r.start)
    ensures Went(c, r.start, OpsOf(r.visits), r.end) && NoInserts(OpsOf(r.visits))
    ensures Picks(OpsOf(r.visits)) <= Unfinished(r.start, r.flags)
  {
    RoundRuns(c, t0, turns, Entries(r.start, r.sys), r, |r.visits|);
    assert r.visits[..|r.visits|] == r.visits;
  }

  predicate NoInserts(ops: seq<Op>) { forall op :: op in ops ==> !op.Insert? }

  function Picks(ops: seq<Op>): set<InfoId> { set op | op in ops && op.Pick? :: op.i }

  function Unfinished(s: Sched, finished: set<StepId>): set<InfoId> {
    set i | i in s.infos && s.infos[i].step !in finished
  }

  /** The pass takes up the entry if a machine is free. */
  predicate Due(s: Sched, finished: set<StepId>, i: InfoId, t0: int) {
    Live(s, i) && !s.infos[i].already && s.infos[i].step !in finished && After(s, s.infos[i].step) <= t0
  }

  lemma {:induction false} RunsFewer(c: Config, s: Sched, ops: seq<Op>, h: Sched)
    requires Agreement(c, s) && Runs(c, s, ops, h) && NoInserts(ops)
    ensures Fewer(s, h)
    decreases |ops|
  {
    if ops != [] {
      var m :| RunsTo(c, s, ops, m, h);
      RunsFewer(c, s, ops[..|ops| - 1], m);
      RunsKeep(c, s, ops[..|ops| - 1], m);
      DoFewer(c, m, ops[|ops| - 1]);
      FewerTwice(s, m, h);
    }
  }

  lemma FewerTwice(s: Sched, m: Sched, h: Sched)
    requires Fewer(s, m) && Fewer(m, h)
    ensures Fewer(s, h)
  {
  }

  lemma EntriesListed(c: Config, s: Sched, sys: System, entries: seq<InfoId>)
    requires Agreement(c, s) && entries == Entries(s, sys)
    ensures AllListed(s, entries)
  {
    forall x | x in entries ensures Listed(s, x) { assert EntryOk(s, sys, x); }
  }

  /** What can be followed of a copy of a queue is still in its queue. */
  predicate AllListed(s: Sched, entries: seq<InfoId>) {
    forall x :: x in entries && Live(s, x) ==> Listed(s, x)
  }

  lemma StayListed(c: Config, s: Sched, ops: seq<Op>, h: Sched, entries: seq<InfoId>)
    requires Agreement(c, s) && Went(c, s, ops, h) && NoInserts(ops) && AllListed(s, entries)
    ensures AllListed(h, entries)
  {
    RunsFewer(c, s, ops, h);
  }

  lemma PassGoesOn(
      c: Config, s: Sched, f0: set<StepId>, a: seq<Op>, m: Sched, f: set<StepId>, b: seq<Op>, h: Sched)
    requires Agreement(c, s) && Went(c, s, a, m) && Went(c, m, b, h) && NoInserts(a) && NoInserts(b) && f0 <= f
    requires Picks(a) <= Unfinished(s, f0) && Picks(b) <= Unfinished(m, f)
    ensures Went(c, s, a + b, h) && NoInserts(a + b) && Picks(a + b) <= Unfinished(s, f0)
  {
    WentJoin(c, s, a, m, b, h);
    RunsFewer(c, s, a, m);
    assert Picks(a + b) == Picks(a) + Picks(b);
  }
}
