/** What every operation leaves alone. */
module SchedulingFrames {
  import opened StepGraph
  import opened Scheduling
  import opened SchedulingInvariant

  predicate SameInfos(s: Sched, h: Sched) {
    && h.infos.Keys == s.infos.Keys
    && forall i :: i in s.infos ==> h.infos[i] == s.infos[i].(already := h.infos[i].already)
  }

  /** Nothing else can be followed after the operation, and entries stay. */
  ghost predicate Fewer(s: Sched, h: Sched) {
    && SameInfos(s, h)
    && (forall i :: Live(h, i) ==> Live(s, i))
    && (forall i :: Listed(s, i) && Live(h, i) ==> Listed(h, i))
    && (forall i :: Waits(h, i) ==> Waits(s, i))
  }

  predicate SameCounts(s: Sched, h: Sched) {
    && h.starts == s.starts && h.fails == s.fails && h.tries == s.tries && h.after == s.after
    && h.doomed == s.doomed && h.resent == s.resent && s.clock <= h.clock && s.dropped <= h.dropped
  }

  /** No path gets another owner. */
  predicate JobsLeave(s: Sched, h: Sched) {
    forall p :: p in h.jobs ==> p in s.jobs && h.jobs[p] == s.jobs[p]
  }

  // ---- the queues ----

  lemma ShrinksFewer(s: Sched, m: Sched, h: Sched)
    requires Shrinks(s, m) && h == m.(dispatcher := h.dispatcher, tasks := h.tasks)
    requires InTasks(h) <= InTasks(s) && InHand(h.dispatcher) <= InHand(s.dispatcher)
    ensures Fewer(s, h) && JobsLeave(s, h)
  {
    assert InTasks(m) == InTasks(s);
    assert forall y :: Entries(h, y) == Entries(m, y);
    forall i | Live(h, i) ensures Live(m, i) && Live(s, i) {}
  }

  lemma DiscardFewer(s: Sched)
    requires CanDiscard(s)
    ensures Fewer(s, DoDiscard(s)) && SameCounts(s, DoDiscard(s)) && JobsLeave(s, DoDiscard(s))
  {
    var f := s.infos[s.dispatcher.info];
    DiscardShrinks(s, f);
    ShrinksAndIdles(s, RemoveJob(NoteDropped(s, f.path, s.dispatcher.Chosen?), f.path, f.system));
  }

  lemma ShrinksAndIdles(s: Sched, m: Sched)
    requires Shrinks(s, m) && s.dropped <= m.dropped
    ensures var h := m.(dispatcher := IDLE); Fewer(s, h) && SameCounts(s, h) && JobsLeave(s, h)
  {
    assert InTasks(m.(dispatcher := IDLE)) == InTasks(s);
    ShrinksFewer(s, m, m.(dispatcher := IDLE));
  }

  lemma DropFewer(s: Sched, st: StepId, p: Path)
    requires CanAbort(s, st)
    ensures var h := DoDropAborted(s, st, p); Fewer(s, h) && SameCounts(s, h) && JobsLeave(s, h)
  {
    var s1 := NoteDropped(s, p, true);
    DropShrinks(s, p);
    assert InTasks(DoDropAborted(s, st, p)) == InTasks(s);
    ShrinksFewer(s, ScrubAll(s1.(jobs := s1.jobs - {p})), DoDropAborted(s, st, p));
  }

  lemma ScrubFewer(s: Sched)
    ensures Fewer(s, ScrubAll(s)) && SameCounts(s, ScrubAll(s)) && JobsLeave(s, ScrubAll(s))
  {
    ScrubShrinks(s);
    assert InTasks(ScrubAll(s)) == InTasks(s);
    ShrinksFewer(s, ScrubAll(s), ScrubAll(s));
  }

  lemma RemoveFewer(s: Sched, id: TaskId)
    requires CanRemove(s, id)
    ensures Fewer(s, DoRemove(s, id)) && SameCounts(s, DoRemove(s, id)) && JobsLeave(s, DoRemove(s, id))
  {
    var f := s.infos[s.tasks[id].info];
    RemoveJobShrinks(s, f.path, f.system);
    SameTasks(s, DoRemove(s, id), id);
    ShrinksFewer(s, RemoveJob(s, f.path, f.system), DoRemove(s, id));
  }

  lemma ScheduleFewer(c: Config, s: Sched)
    requires Agreement(c, s) && CanSchedule(s)
    ensures Fewer(s, DoSchedule(s)) && SameCounts(s, DoSchedule(s)) && JobsLeave(s, DoSchedule(s))
  {
    var h := DoSchedule(s);
    HandApart(c, s);
    assert InTasks(h) == InTasks(s);
    assert forall y :: Entries(h, y) == Entries(s, y);
  }

  lemma SendFewer(c: Config, s: Sched, u: Uuid, now: int)
    requires Agreement(c, s) && CanSend(s, u, now)
    ensures Fewer(s, SendOut(s, u, now)) && JobsLeave(s, SendOut(s, u, now))
  {
    assert InTasks(SendOut(s, u, now)) == InTasks(s);
    assert HeldOk(s, s.dispatcher.info);
  }

  // ---- completions and failures ----

  lemma TakeOffFewer(c: Config, s: Sched, p: Path, id: TaskId, t: Task, h: Sched)
    requires Agreement(c, s) && Followable(s, p) && t.info == s.scheduled[p].info && id !in s.tasks
    requires var m := TakeOff(s, p, id, t);
      && h.infos == m.infos && h.jobs == m.jobs && h.scheduled == m.scheduled && h.queues == m.queues
      && h.tasks == m.tasks
      && h.dispatcher == m.dispatcher
    ensures Fewer(s, h)
  {
    TakeOffHolds(s, p, id, t);
    ItemRefs(c, s, p);
    assert InTasks(h) == InTasks(s) + {t.info};
    assert forall y :: Entries(h, y) == Entries(s, y);
  }

  /** The first section of a completion or failure, but for calls and what is listed for
      lost machines. */
  ghost predicate IsApart(c: Config, s: Sched, p: Path, r: BuildResultState, id: TaskId, now: int, h: Sched)
  {
    && (p in s.scheduled ==> Followable(s, p)) && id !in s.tasks && s.clock <= now
    && h == Apart(c, s, p, r, id, now).(calls := h.calls, draining := h.draining)
  }

  lemma ApartFewer(c: Config, s: Sched, p: Path, r: BuildResultState, id: TaskId, now: int, h: Sched)
    requires Agreement(c, s) && IsApart(c, s, p, r, id, now, h)
    ensures Fewer(s, h) && h.jobs == s.jobs && h.dropped == s.dropped && h.dispatcher == s.dispatcher
    ensures h.starts == s.starts && h.resent == s.resent && h.used == s.used && h.online == s.online
      && s.clock <= h.clock
  {
    if p in s.scheduled {
      ApartTables(c, s, p, r, id, now);
      TakeOffFewer(c, s, p, id, h.tasks[id], h);
    } else {
      assert InTasks(h) == InTasks(s);
    }
  }

  // ---- operations that leave the queues alone ----

  predicate SameQueues(s: Sched, h: Sched) {
    h.infos == s.infos && h.jobs == s.jobs && h.scheduled == s.scheduled && h.queues == s.queues
    && h.dropped == s.dropped
  }

  lemma HoldsFewer(s: Sched, h: Sched)
    requires SameQueues(s, h) && forall i :: Live(h, i) ==> Live(s, i)
    ensures Fewer(s, h) && JobsLeave(s, h)
  {
    assert forall y :: Entries(h, y) == Entries(s, y);
  }

  lemma LetsGoFewer(s: Sched, h: Sched)
    requires SameQueues(s, h) && InTasks(h) <= InTasks(s) && InHand(h.dispatcher) <= InHand(s.dispatcher)
    ensures Fewer(s, h) && JobsLeave(s, h)
  {
    HoldsFewer(s, h);
  }

  // ---- all operations but those that insert, send, complete or fail ----

  predicate Counting(op: Op) { op.Insert? || op.Send? || op.Act? || op.Drain? }

  ghost predicate Framed(s: Sched, h: Sched) {
    Fewer(s, h) && SameCounts(s, h) && JobsLeave(s, h) && h.used == s.used
  }

  ghost predicate MachinesFramed(s: Sched, h: Sched, op: Op) {
    && (forall m :: m in s.machines ==> m in h.machines && h.machines[m] == s.machines[m])
    && (forall m :: m in h.machines && m !in s.machines ==> op.Join? && h.machines[m].jobs == [] && m in h.online)
    && (forall m :: m in h.online ==> m in s.online || m !in s.machines)
    && (!op.Lose? ==> h.draining == s.draining && s.online <= h.online)
    && (!op.Schedule? ==> h.scheduled == s.scheduled)
  }

  ghost predicate LoopFramed(s: Sched, h: Sched, op: Op) {
    && Offered(h.dispatcher) <= Offered(s.dispatcher) + (if op.Offer? then {op.st} else {})
    && (h.dispatcher.Sent? ==> h.dispatcher == s.dispatcher)
    && (s.dispatcher.Sent? ==> h.dispatcher == if op.Schedule? then IDLE else s.dispatcher)
    && (h.dispatcher.Chosen? ==> h.dispatcher == s.dispatcher || op.Pick?)
    && (!op.Discard? && !op.DropAborted? ==> h.dropped == s.dropped)
  }

  ghost predicate AllFramed(s: Sched, h: Sched, op: Op) {
    Framed(s, h) && MachinesFramed(s, h, op) && LoopFramed(s, h, op)
  }

  lemma PickFrame(c: Config, s: Sched, i: InfoId, m: MachineId, t0: int, now: int)
    requires CanPick(c, s, i, m, t0, now)
    ensures AllFramed(s, DoPick(s, i, m, now), Pick(i, m, t0, now))
  {
    assert InTasks(DoPick(s, i, m, now)) == InTasks(s);
    HoldsFewer(s, DoPick(s, i, m, now));
  }

  /** Only the dispatch loop moved. */
  lemma LoopFrame(s: Sched, d: Dispatcher, op: Op)
    requires InHand(d) <= InHand(s.dispatcher) && !d.Chosen? && !d.Sent? && !s.dispatcher.Sent?
    requires Offered(d) <= Offered(s.dispatcher) + (if op.Offer? then {op.st} else {})
    ensures AllFramed(s, s.(dispatcher := d), op)
  {
    LetsGoFewer(s, s.(dispatcher := d));
  }

  lemma DiscardFrame(s: Sched)
    requires CanDiscard(s)
    ensures AllFramed(s, DoDiscard(s), Discard)
  {
    DiscardFewer(s);
  }

  lemma DropFrame(s: Sched, st: StepId, p: Path)
    requires CanAbort(s, st)
    ensures AllFramed(s, DoDropAborted(s, st, p), DropAborted(st, p))
  {
    DropFewer(s, st, p);
  }

  lemma ScrubFrame(s: Sched)
    ensures AllFramed(s, ScrubAll(s), Scrub)
  {
    ScrubFewer(s);
  }

  lemma ScheduleFrame(c: Config, s: Sched)
    requires Agreement(c, s) && CanSchedule(s)
    ensures AllFramed(s, DoSchedule(s), Schedule)
  {
    ScheduleFewer(c, s);
  }

  lemma RemoveFrame(s: Sched, id: TaskId)
    requires CanRemove(s, id)
    ensures AllFramed(s, DoRemove(s, id), Remove(id))
  {
    RemoveFewer(s, id);
  }

  lemma TasksFrame(s: Sched, tasks: map<TaskId, Task>, op: Op)
    requires InTasks(s.(tasks := tasks)) <= InTasks(s) && !op.Schedule?
    ensures AllFramed(s, s.(tasks := tasks), op)
  {
    LetsGoFewer(s, s.(tasks := tasks));
  }

  lemma CallsFrame(s: Sched, calls: map<CallId, Call>, op: Op)
    requires !op.Schedule?
    ensures AllFramed(s, s.(calls := calls), op)
  {
    assert InTasks(s.(calls := calls)) == InTasks(s);
    LetsGoFewer(s, s.(calls := calls));
  }

  lemma JoinFrame(s: Sched, m: MachineId, n: nat)
    requires m !in s.machines
    ensures AllFramed(s, DoJoin(s, m, n), Join(m, n))
  {
    assert InTasks(DoJoin(s, m, n)) == InTasks(s);
    LetsGoFewer(s, DoJoin(s, m, n));
  }

  lemma LoseFrame(s: Sched, m: MachineId)
    requires CanLose(s, m)
    ensures AllFramed(s, DoLose(s, m), Lose(m))
  {
    assert InTasks(DoLose(s, m)) == InTasks(s);
    LetsGoFewer(s, DoLose(s, m));
  }

  lemma SameFrame(s: Sched, op: Op)
    requires !op.Schedule?
    ensures AllFramed(s, s, op)
  {
    LetsGoFewer(s, s);
  }

  lemma LoopOpFrame(c: Config, s: Sched, op: Op)
    requires Agreement(c, s) && Can(c, s, op) && LoopOp(op) && !Counting(op)
    ensures AllFramed(s, Do(c, s, op), op)
  {
    match op
    case Pick(i, m, t0, now) => PickFrame(c, s, i, m, t0, now);
    case Discard => DiscardFrame(s);
    case DropAborted(st, p) => DropFrame(s, st, p);
    case Scrub => ScrubFrame(s);
    case Schedule => ScheduleFrame(c, s);
    case AbortPass(_, _) => SameFrame(s, op);
    case Offer(st) => LoopFrame(s, DoOffer(s, st).dispatcher, op);
    case Reject(st) => LoopFrame(s, DoReject(s, st).dispatcher, op);
    case Skip => LoopFrame(s, IDLE, op);
    case Hit => LoopFrame(s, DoHit(s).dispatcher, op);
    case CachePass(_) => LoopFrame(s, DoCachePass(s).dispatcher, op);
    case Unsupported(st) => LoopFrame(s, DoUnsupported(s, st).dispatcher, op);
  }

  lemma OtherOpFrame(c: Config, s: Sched, op: Op)
    requires Can(c, s, op) && !LoopOp(op) && !Counting(op)
    ensures AllFramed(s, Do(c, s, op), op)
  {
    match op
    case Remove(id) => RemoveFrame(s, id);
    case TaskPass(id, _) =>
      SameTasks(s, DoTaskPass(s, id), id);
      TasksFrame(s, DoTaskPass(s, id).tasks, op);
    case End(id) => TasksFrame(s, s.tasks - {id}, op);
    case Report(m, u, r, k) => CallsFrame(s, DoReport(s, m, u, r, k).calls, op);
    case Kill(p, k) => CallsFrame(s, DoKill(s, p, k).calls, op);
    case Join(m, n) => JoinFrame(s, m, n);
    case Lose(m) => LoseFrame(s, m);
  }

  lemma OpFrame(c: Config, s: Sched, op: Op)
    requires Agreement(c, s) && Can(c, s, op) && !Counting(op)
    ensures AllFramed(s, Do(c, s, op), op)
  {
    if LoopOp(op) { LoopOpFrame(c, s, op); } else { OtherOpFrame(c, s, op); }
  }

  /** The path and the result that a completion or failure works on. */
  lemma ActIs(c: Config, s: Sched, k: CallId, id: TaskId, now: int)
    requires CanAct(s, k, id, now)
    ensures IsApart(c, s, s.calls[k].path, s.calls[k].outcome, id, now, DoAct(c, s, k, id, now))
    ensures DoAct(c, s, k, id, now).draining == s.draining && DoAct(c, s, k, id, now).calls == s.calls - {k}
  {
    if s.calls[k].path in s.scheduled { ApartTables(c, s, s.calls[k].path, s.calls[k].outcome, id, now); }
  }

  lemma DrainIs(c: Config, s: Sched, m: MachineId, id: TaskId, now: int)
    requires CanDrain(s, m, id, now)
    ensures IsApart(c, s, s.draining[m][0], PreparingFailure, id, now, DoDrain(c, s, m, id, now))
    ensures DoDrain(c, s, m, id, now).draining == s.draining[m := s.draining[m][1..]]
    ensures DoDrain(c, s, m, id, now).calls == s.calls
  {
    if s.draining[m][0] in s.scheduled { ApartTables(c, s, s.draining[m][0], PreparingFailure, id, now); }
  }

  lemma ActFewer(c: Config, s: Sched, k: CallId, id: TaskId, now: int)
    requires Agreement(c, s) && CanAct(s, k, id, now)
    ensures var h := DoAct(c, s, k, id, now);
      Fewer(s, h) && h.jobs == s.jobs && h.dropped == s.dropped && s.clock <= h.clock
    ensures DoAct(c, s, k, id, now).dispatcher == s.dispatcher
  {
    ActIs(c, s, k, id, now);
    ApartFewer(c, s, s.calls[k].path, s.calls[k].outcome, id, now, DoAct(c, s, k, id, now));
  }

  lemma DrainFewer(c: Config, s: Sched, m: MachineId, id: TaskId, now: int)
    requires Agreement(c, s) && CanDrain(s, m, id, now)
    ensures var h := DoDrain(c, s, m, id, now);
      Fewer(s, h) && h.jobs == s.jobs && h.dropped == s.dropped && s.clock <= h.clock
    ensures DoDrain(c, s, m, id, now).dispatcher == s.dispatcher
  {
    DrainIs(c, s, m, id, now);
    ApartFewer(c, s, s.draining[m][0], PreparingFailure, id, now, DoDrain(c, s, m, id, now));
  }

  lemma CountingFewer(c: Config, s: Sched, op: Op)
    requires Agreement(c, s) && Can(c, s, op) && (op.Send? || op.Act? || op.Drain?)
    ensures Fewer(s, Do(c, s, op)) && JobsLeave(s, Do(c, s, op))
  {
    match op
    case Send(u, now) => SendFewer(c, s, u, now);
    case Act(k, id, now) => ActFewer(c, s, k, id, now);
    case Drain(m, id, now) => DrainFewer(c, s, m, id, now);
  }

  /** No operation but an insertion brings an entry that can be followed or an owner. */
  lemma DoFewer(c: Config, s: Sched, op: Op)
    requires Agreement(c, s) && Can(c, s, op) && !op.Insert?
    ensures Fewer(s, Do(c, s, op)) && JobsLeave(s, Do(c, s, op))
  {
    if Counting(op) { CountingFewer(c, s, op); } else { OpFrame(c, s, op); }
  }
}
