/** Every operation keeps queues, `scheduled`, flags, tasks and machines in agreement. */
module SchedulingInvariant {
  import opened StepGraph
  import opened Scheduling

  lemma {:induction false} WithoutDistinct(jobs: seq<Job>, p: Path)
    requires Distinct(jobs)
    ensures Distinct(Without(jobs, p))
  {
    if jobs != [] {
      WithoutDistinct(jobs[1..], p);
      if jobs[0].path != p {
        assert Without(jobs, p)[1..] == Without(jobs[1..], p);
      } else {
        assert Without(jobs, p) == Without(jobs[1..], p);
      }
    }
  }

  lemma {:induction false} AppendDistinct(jobs: seq<Job>, j: Job)
    requires Distinct(jobs) && forall k :: k in jobs ==> k.uuid != j.uuid
    ensures Distinct(jobs + [j])
  {
    if jobs != [] {
      AppendDistinct(jobs[1..], j);
      assert (jobs + [j])[1..] == jobs[1..] + [j];
    }
  }

  // ---- what holds an info ----

  /** Nothing new can be followed, and what is worked on is in its queue. */
  ghost predicate HoldsNoMore(s: Sched, h: Sched) {
    && (forall i :: Live(h, i) ==> Live(s, i))
    && (forall i :: HeldOk(h, i))
  }

  /** Only the dispatch loop, tasks, calls, counters or history changed. */
  predicate SameTables(s: Sched, h: Sched) {
    && h.infos == s.infos && h.jobs == s.jobs && h.scheduled == s.scheduled && h.queues == s.queues
    && h.machines == s.machines && s.used <= h.used && h.online <= s.online
    && (s.dispatcher.Sent? ==> h.dispatcher == s.dispatcher)
  }

  /** Machines, and what is scheduled on them or in flight to them, are the same. */
  lemma MachinesSame(c: Config, s: Sched, h: Sched)
    requires Agreement(c, s) && h.machines == s.machines && h.scheduled == s.scheduled && h.online <= s.online
      && s.used <= h.used
    requires forall m, j :: InFlight(s, m, j) ==> InFlight(h, m, j)
    ensures forall m :: MachineOk(c, h, m)
    ensures forall m, j :: OnMachineOk(h, m, j)
    ensures forall m, j, n, k :: DistinctOk(h, m, j, n, k)
  {
    forall m ensures MachineOk(c, h, m) { assert MachineOk(c, s, m); }
    forall m, j ensures OnMachineOk(h, m, j) { assert OnMachineOk(s, m, j); }
    forall m, j, n, k ensures DistinctOk(h, m, j, n, k) { assert DistinctOk(s, m, j, n, k); }
  }

  lemma QueuesSame(c: Config, s: Sched, h: Sched)
    requires Agreement(c, s) && h.scheduled == s.scheduled
    requires forall y :: (y in h.queues ==> h.queues[y].active == if y in s.queues then s.queues[y].active else 0)
    requires s.queues.Keys <= h.queues.Keys
    ensures forall y :: QueueOk(h, y)
  {
    forall y ensures QueueOk(h, y) { assert QueueOk(s, y); assert ScheduledOn(h, y) == ScheduledOn(s, y); }
  }

  lemma TablesKeep(c: Config, s: Sched, h: Sched)
    requires Agreement(c, s) && SameTables(s, h) && HoldsNoMore(s, h) && HandOk(c, h)
    ensures Agreement(c, h)
  {
    forall x ensures InfoOk(c, h, x) { assert InfoOk(c, s, x); }
    forall q ensures JobOk(h, q) { assert JobOk(s, q); }
    forall q ensures ItemOk(h, q) { assert ItemOk(s, q); }
    forall y, i ensures EntryOk(h, y, i) { assert EntryOk(s, y, i); }
    forall i, j ensures UniqueOk(h, i, j) { assert UniqueOk(s, i, j); }
    MachinesSame(c, s, h);
    QueuesSame(c, s, h);
  }

  /** The tasks and the dispatch loop hold what they held, or less. */
  lemma HoldsLess(c: Config, s: Sched, h: Sched)
    requires Agreement(c, s) && SameTables(s, h)
    requires InTasks(h) <= InTasks(s) && InHand(h.dispatcher) <= InHand(s.dispatcher)
    ensures HoldsNoMore(s, h)
  {
    forall i ensures HeldOk(h, i) { assert HeldOk(s, i); }
  }

  /** Counters, deadlines, calls, the clock and history play no part in the agreement. */
  lemma BookkeepingKeeps(c: Config, s: Sched, h: Sched)
    requires Agreement(c, s) && SameTables(s, h) && h.tasks == s.tasks && h.dispatcher == s.dispatcher
    ensures Agreement(c, h)
  {
    HoldsLess(c, s, h);
    TablesKeep(c, s, h);
  }

  // ---- the dispatch loop ----

  lemma PickKeeps(c: Config, s: Sched, i: InfoId, m: MachineId, t0: int, now: int)
    requires Agreement(c, s) && CanPick(c, s, i, m, t0, now)
    ensures Agreement(c, DoPick(s, i, m, now))
  {
    var h := DoPick(s, i, m, now);
    assert MachineOk(c, s, m);
    forall x ensures HeldOk(h, x) { assert HeldOk(s, x); }
    TablesKeep(c, s, h);
  }

  /** The loop lets go of an entry, or goes on with it, without changing the queues. */
  lemma LetsGoKeeps(c: Config, s: Sched, d: Dispatcher)
    requires Agreement(c, s) && !s.dispatcher.Sent? && !d.Sent? && !d.Chosen? && InHand(d) <= InHand(s.dispatcher)
    ensures Agreement(c, s.(dispatcher := d))
  {
    var h := s.(dispatcher := d);
    HoldsLess(c, s, h);
    assert InHand(d) != {} ==> d.info in InHand(s.dispatcher);
    TablesKeep(c, s, h);
  }

  /** The chosen entry is the only one of its path, and the path is not scheduled. */
  lemma HandApart(c: Config, s: Sched)
    requires Agreement(c, s) && InHand(s.dispatcher) != {}
    ensures Waits(s, s.dispatcher.info) && Placed(s, s.dispatcher.info)
    ensures s.infos[s.dispatcher.info].path !in s.scheduled
  {
    var i := s.dispatcher.info;
    var p := s.infos[i].path;
    assert HeldOk(s, i) && InfoOk(c, s, i);
    if p in s.scheduled {
      assert ItemOk(s, p) && UniqueOk(s, i, s.scheduled[p].info);
    }
  }

  lemma SendMachines(c: Config, s: Sched, u: Uuid, now: int)
    requires Agreement(c, s) && CanSend(s, u, now)
    ensures var h := SendOut(s, u, now);
      && (forall n :: MachineOk(c, h, n))
      && (forall n, j :: OnMachineOk(h, n, j))
      && (forall n, j, n', k :: DistinctOk(h, n, j, n', k))
  {
    var h := SendOut(s, u, now);
    var m, p := s.dispatcher.machine, s.infos[s.dispatcher.info].path;
    HandApart(c, s);
    assert MachineOk(c, s, m);
    forall k | k in s.machines[m].jobs ensures k.uuid != u { assert OnMachineOk(s, m, k); }
    AppendDistinct(s.machines[m].jobs, Job(u, p));
    assert forall j :: j in h.machines[m].jobs <==> j in s.machines[m].jobs || j == Job(u, p);
    forall n ensures MachineOk(c, h, n) { assert MachineOk(c, s, n); }
    forall n, j ensures OnMachineOk(h, n, j) { assert OnMachineOk(s, n, j); }
    forall n, j, n', k ensures DistinctOk(h, n, j, n', k) {
      assert DistinctOk(s, n, j, n', k) && OnMachineOk(s, n, j) && OnMachineOk(s, n', k);
    }
  }

  lemma SendItem(c: Config, s: Sched, u: Uuid, now: int, q: Path)
    requires Agreement(c, s) && CanSend(s, u, now)
    ensures ItemOk(SendOut(s, u, now), q)
  {
    var h := SendOut(s, u, now);
    assert ItemOk(s, q);
    if q in s.scheduled {
      var j :| j in s.machines[s.scheduled[q].machine].jobs && j.path == q;
      assert j in h.machines[s.scheduled[q].machine].jobs;
    }
  }

  lemma SendKeeps(c: Config, s: Sched, u: Uuid, now: int)
    requires Agreement(c, s) && CanSend(s, u, now)
    ensures Agreement(c, SendOut(s, u, now))
  {
    var h := SendOut(s, u, now);
    SendMachines(c, s, u, now);
    var jobs := s.machines[s.dispatcher.machine].jobs;
    assert (jobs + [Job(u, s.infos[s.dispatcher.info].path)])[|jobs|] == Job(u, s.infos[s.dispatcher.info].path);
    forall x ensures InfoOk(c, h, x) { assert InfoOk(c, s, x); }
    forall q ensures JobOk(h, q) { assert JobOk(s, q); }
    forall q ensures ItemOk(h, q) { SendItem(c, s, u, now, q); }
    forall x ensures HeldOk(h, x) { assert HeldOk(s, x); }
    forall y, i ensures EntryOk(h, y, i) { assert EntryOk(s, y, i); }
    forall i, j ensures UniqueOk(h, i, j) { assert UniqueOk(s, i, j); }
    QueuesSame(c, s, h);
  }

  lemma OneMoreScheduled(s: Sched, h: Sched, p: Path, y: System)
    requires p !in s.scheduled && p in h.scheduled && h.scheduled == s.scheduled[p := h.scheduled[p]]
    ensures |ScheduledOn(h, y)| == |ScheduledOn(s, y)| + if h.scheduled[p].system == y then 1 else 0
  {
    if h.scheduled[p].system == y {
      assert ScheduledOn(h, y) == ScheduledOn(s, y) + {p};
    } else {
      assert ScheduledOn(h, y) == ScheduledOn(s, y);
    }
  }

  lemma ScheduleEntries(c: Config, s: Sched)
    requires Agreement(c, s) && CanSchedule(s)
    ensures var h := DoSchedule(s);
      && (forall x :: InfoOk(c, h, x)) && (forall q :: JobOk(h, q)) && (forall q :: ItemOk(h, q))
      && (forall x :: HeldOk(h, x)) && (forall y, i :: EntryOk(h, y, i)) && (forall i, j :: UniqueOk(h, i, j))
  {
    var h := DoSchedule(s);
    HandApart(c, s);
    forall x ensures InfoOk(c, h, x) { assert InfoOk(c, s, x); }
    forall q ensures JobOk(h, q) { assert JobOk(s, q); }
    forall y ensures Entries(h, y) == Entries(s, y) {}
    forall q ensures ItemOk(h, q) { assert ItemOk(s, q); }
    forall x ensures HeldOk(h, x) { assert HeldOk(s, x); }
    forall y, i ensures EntryOk(h, y, i) { assert EntryOk(s, y, i); }
    forall i, j ensures UniqueOk(h, i, j) { assert UniqueOk(s, i, j); }
  }

  lemma ScheduleKeeps(c: Config, s: Sched)
    requires Agreement(c, s) && CanSchedule(s)
    ensures Agreement(c, DoSchedule(s))
  {
    var h := DoSchedule(s);
    HandApart(c, s);
    ScheduleEntries(c, s);
    forall m ensures MachineOk(c, h, m) { assert MachineOk(c, s, m); }
    forall m, j ensures OnMachineOk(h, m, j) { assert OnMachineOk(s, m, j); }
    forall m, j, n, k ensures DistinctOk(h, m, j, n, k) { assert DistinctOk(s, m, j, n, k); }
    forall y ensures QueueOk(h, y) {
      assert QueueOk(s, y);
      OneMoreScheduled(s, h, s.infos[s.dispatcher.info].path, y);
    }
  }

  // ---- the queues ----

  /** Jobs leave the owning map and queues are scrubbed of what cannot be followed. */
  ghost predicate Shrinks(s: Sched, h: Sched) {
    && h == s.(jobs := h.jobs, queues := h.queues, dropped := h.dropped)
    && (forall p :: p in h.jobs ==> p in s.jobs && h.jobs[p] == s.jobs[p])
    && h.queues.Keys == s.queues.Keys
    && (forall y :: y in s.queues ==> h.queues[y].active == s.queues[y].active)
    && (forall y, i :: i in Entries(h, y) ==> i in Entries(s, y))
    && (forall y, i :: i in Entries(s, y) && Live(h, i) ==> i in Entries(h, y))
  }

  lemma ShrinkKeeps(c: Config, s: Sched, h: Sched)
    requires Agreement(c, s) && Shrinks(s, h)
    ensures Agreement(c, h)
  {
    assert forall i :: Live(h, i) ==> Live(s, i);
    forall x ensures InfoOk(c, h, x) { assert InfoOk(c, s, x); }
    forall q ensures JobOk(h, q) { assert JobOk(s, q); }
    forall q ensures ItemOk(h, q) {
      assert ItemOk(s, q);
      if q in h.scheduled { assert Live(h, h.scheduled[q].info); }
    }
    forall x ensures HeldOk(h, x) { HeldStays(s, h, x); }
    forall y, i ensures EntryOk(h, y, i) { assert EntryOk(s, y, i); }
    forall i, j ensures UniqueOk(h, i, j) { assert UniqueOk(s, i, j); }
    MachinesSame(c, s, h);
    QueuesSame(c, s, h);
  }

  lemma HeldStays(s: Sched, h: Sched, x: InfoId)
    requires Shrinks(s, h) && HeldOk(s, x)
    ensures HeldOk(h, x)
  {
    if x in InTasks(h) || x in InHand(h.dispatcher) {
      assert InTasks(h) == InTasks(s);
      assert Listed(s, x) && Live(h, x);
    }
  }

  lemma RemoveJobShrinks(s: Sched, p: Path, sys: System)
    requires sys in s.queues
    ensures Shrinks(s, RemoveJob(s, p, sys))
  {
    var h, s1 := RemoveJob(s, p, sys), s.(jobs := s.jobs - {p});
    assert forall i :: Live(h, i) <==> Live(s1, i);
  }

  lemma ScrubShrinks(s: Sched)
    ensures Shrinks(s, ScrubAll(s))
  {
    assert forall i :: Live(ScrubAll(s), i) <==> Live(s, i);
  }

  lemma {:induction false} ShrinkTwice(s: Sched, m: Sched, h: Sched)
    requires Shrinks(s, m) && Shrinks(m, h)
    ensures Shrinks(s, h)
  {
    forall y, i | i in Entries(s, y) && Live(h, i) ensures i in Entries(h, y) {
      assert Live(m, i);
    }
    forall y | y in s.queues ensures h.queues[y].active == s.queues[y].active {
      assert m.queues[y].active == s.queues[y].active;
    }
  }

  lemma NotedShrinks(s: Sched, p: Path, note: bool)
    ensures Shrinks(s, NoteDropped(s, p, note))
  {
  }

  /** The loop takes its entry out of the owning map. */
  lemma DiscardShrinks(s: Sched, f: Info)
    requires CanDiscard(s) && f == s.infos[s.dispatcher.info]
    ensures f.system in s.queues
      && Shrinks(s, RemoveJob(NoteDropped(s, f.path, s.dispatcher.Chosen?), f.path, f.system))
  {
    var s0 := NoteDropped(s, f.path, s.dispatcher.Chosen?);
    NotedShrinks(s, f.path, s.dispatcher.Chosen?);
    RemoveJobShrinks(s0, f.path, f.system);
    ShrinkTwice(s, s0, RemoveJob(s0, f.path, f.system));
  }

  lemma ShrinksAndLetsGo(c: Config, s: Sched, h: Sched, d: Dispatcher)
    requires Agreement(c, s) && Shrinks(s, h)
    requires !s.dispatcher.Sent? && !d.Sent? && !d.Chosen? && InHand(d) <= InHand(s.dispatcher)
    ensures Agreement(c, h.(dispatcher := d))
  {
    ShrinkKeeps(c, s, h);
    LetsGoKeeps(c, h, d);
  }

  lemma DiscardKeeps(c: Config, s: Sched)
    requires Agreement(c, s) && CanDiscard(s)
    ensures Agreement(c, DoDiscard(s))
  {
    var f := s.infos[s.dispatcher.info];
    DiscardShrinks(s, f);
    ShrinksAndLetsGo(c, s, RemoveJob(NoteDropped(s, f.path, s.dispatcher.Chosen?), f.path, f.system), IDLE);
  }

  lemma DropShrinks(s: Sched, p: Path)
    ensures var s1 := NoteDropped(s, p, true); Shrinks(s, ScrubAll(s1.(jobs := s1.jobs - {p})))
  {
    var s1 := NoteDropped(s, p, true);
    var s2 := s1.(jobs := s1.jobs - {p});
    NotedShrinks(s, p, true);
    assert Shrinks(s1, s2);
    ScrubShrinks(s2);
    ShrinkTwice(s, s1, s2);
    ShrinkTwice(s, s2, ScrubAll(s2));
  }

  lemma DropAbortedKeeps(c: Config, s: Sched, st: StepId, p: Path)
    requires Agreement(c, s) && CanAbort(s, st)
    ensures Agreement(c, DoDropAborted(s, st, p))
  {
    var s1 := NoteDropped(s, p, true);
    var h := ScrubAll(s1.(jobs := s1.jobs - {p}));
    DropShrinks(s, p);
    ShrinksAndLetsGo(c, s, h, Left(s.dispatcher.steps, st));
  }

  lemma RemoveKeeps(c: Config, s: Sched, id: TaskId)
    requires Agreement(c, s) && CanRemove(s, id)
    ensures Agreement(c, DoRemove(s, id))
  {
    var f := s.infos[s.tasks[id].info];
    var m, h := RemoveJob(s, f.path, f.system), DoRemove(s, id);
    RemoveJobShrinks(s, f.path, f.system);
    ShrinkKeeps(c, s, m);
    SameTasks(m, h, id);
    HoldsLess(c, m, h);
    TablesKeep(c, m, h);
  }

  /** A task that goes on holds the same info. */
  lemma SameTasks(s: Sched, h: Sched, id: TaskId)
    requires id in s.tasks && id in h.tasks && h.tasks == s.tasks[id := h.tasks[id]]
      && h.tasks[id].info == s.tasks[id].info
    ensures InTasks(h) == InTasks(s)
  {
    forall i ensures i in InTasks(h) <==> i in InTasks(s) {
      if i in InTasks(s) {
        var k :| k in s.tasks && s.tasks[k].info == i;
        assert h.tasks[k].info == i;
      }
    }
  }

  lemma TasksKeep(c: Config, s: Sched, tasks: map<TaskId, Task>)
    requires Agreement(c, s) && InTasks(s.(tasks := tasks)) <= InTasks(s)
    ensures Agreement(c, s.(tasks := tasks))
  {
    HoldsLess(c, s, s.(tasks := tasks));
    TablesKeep(c, s, s.(tasks := tasks));
  }

  lemma TaskPassKeeps(c: Config, s: Sched, id: TaskId)
    requires Agreement(c, s) && CanTaskPass(s, id)
    ensures Agreement(c, DoTaskPass(s, id))
  {
    SameTasks(s, DoTaskPass(s, id), id);
    TasksKeep(c, s, DoTaskPass(s, id).tasks);
  }

  lemma EndKeeps(c: Config, s: Sched, id: TaskId)
    requires Agreement(c, s)
    ensures Agreement(c, DoEnd(s, id))
  {
    TasksKeep(c, s, s.tasks - {id});
  }

  /** What a queue holds after a new info came in. */
  ghost predicate OrderOk(c: Config, s: Sched, p: Path, i: InfoId, order: seq<InfoId>) {
    var es := Entries(s, c.systemOf(p));
    && i !in s.infos && p !in s.jobs && InHand(s.dispatcher) == {}
    && forall x :: x in order <==> (x in es && Live(s, x)) || (x == i && !Occupied(s, es, p))
  }

  lemma InsertOrder(c: Config, s: Sched, st: StepId, p: Path, i: InfoId, order: seq<InfoId>)
    requires Agreement(c, s) && CanInsert(c, s, st, p, i, order)
    ensures OrderOk(c, s, p, i, order)
  {
    var es := Entries(s, c.systemOf(p));
    assert forall x :: x in order <==> x in multiset(order);
    assert forall x :: x in Pushed(s, es, p, i) <==> x in multiset(Pushed(s, es, p, i));
  }

  lemma EnqueueHolds(c: Config, s: Sched, st: StepId, p: Path, i: InfoId, order: seq<InfoId>, x: InfoId)
    requires i !in s.infos && p !in s.jobs && x != i
    ensures Live(Enqueue(c, s, st, p, i, order), x) <==> Live(s, x)
  {
  }

  lemma EnqueueLists(c: Config, s: Sched, st: StepId, p: Path, i: InfoId, order: seq<InfoId>, x: InfoId)
    requires InfoOk(c, s, x) && OrderOk(c, s, p, i, order) && x != i && Live(s, x)
    ensures Listed(Enqueue(c, s, st, p, i, order), x) <==> Listed(s, x)
  {
  }

  /** Entries and what can be followed after a new info came in. */
  lemma EnqueueLive(c: Config, s: Sched, st: StepId, p: Path, i: InfoId, order: seq<InfoId>, x: InfoId)
    requires Agreement(c, s) && OrderOk(c, s, p, i, order)
    ensures var h := Enqueue(c, s, st, p, i, order);
      && (x != i ==> (Live(h, x) <==> Live(s, x)))
      && (x != i && Live(s, x) ==> (Listed(h, x) <==> Listed(s, x)))
      && (Listed(h, i) ==> !Occupied(s, Entries(s, c.systemOf(p)), p))
  {
    assert EntryOk(s, c.systemOf(p), i) && InfoOk(c, s, x);
    if x != i {
      EnqueueHolds(c, s, st, p, i, order, x);
      if Live(s, x) { EnqueueLists(c, s, st, p, i, order, x); }
    }
  }

  lemma InsertLive(c: Config, s: Sched, st: StepId, p: Path, i: InfoId, order: seq<InfoId>, x: InfoId)
    requires Agreement(c, s) && CanInsert(c, s, st, p, i, order)
    ensures var h := DoInsert(c, s, st, p, i, order);
      && (x != i ==> (Live(h, x) <==> Live(s, x)))
      && (x != i && Live(s, x) ==> (Listed(h, x) <==> Listed(s, x)))
      && (Listed(h, i) ==> !Occupied(s, Entries(s, c.systemOf(p)), p))
  {
    InsertOrder(c, s, st, p, i, order);
    EnqueueLive(c, s, st, p, i, order, x);
  }

  lemma EnqueueUnique(c: Config, s: Sched, st: StepId, p: Path, i: InfoId, order: seq<InfoId>, x: InfoId, y: InfoId)
    requires Agreement(c, s) && OrderOk(c, s, p, i, order)
    ensures UniqueOk(Enqueue(c, s, st, p, i, order), x, y)
  {
    var h := Enqueue(c, s, st, p, i, order);
    assert UniqueOk(s, x, y);
    EnqueueLive(c, s, st, p, i, order, x);
    EnqueueLive(c, s, st, p, i, order, y);
    assert InfoOk(c, s, x) && InfoOk(c, s, y);
  }

  lemma EnqueueItem(c: Config, s: Sched, st: StepId, p: Path, i: InfoId, order: seq<InfoId>, q: Path)
    requires Agreement(c, s) && OrderOk(c, s, p, i, order)
    ensures ItemOk(Enqueue(c, s, st, p, i, order), q)
  {
    if q in s.scheduled {
      ItemRefs(c, s, q);
      EnqueueLists(c, s, st, p, i, order, s.scheduled[q].info);
      assert ItemOk(s, q);
      EnqueueFollows(c, s, st, p, i, order, q);
    }
  }

  lemma EnqueueFollows(c: Config, s: Sched, st: StepId, p: Path, i: InfoId, order: seq<InfoId>, q: Path)
    requires ItemOk(s, q) && q in s.scheduled && i !in s.infos
    requires Listed(s, s.scheduled[q].info) ==> Listed(Enqueue(c, s, st, p, i, order), s.scheduled[q].info)
    ensures ItemOk(Enqueue(c, s, st, p, i, order), q)
  {
  }

  lemma EnqueueEntries(c: Config, s: Sched, st: StepId, p: Path, i: InfoId, order: seq<InfoId>)
    requires Agreement(c, s) && OrderOk(c, s, p, i, order)
    ensures var h := Enqueue(c, s, st, p, i, order);
      (forall x :: InfoOk(c, h, x)) && (forall q :: JobOk(h, q)) && (forall x :: HeldOk(h, x))
      && forall y, x :: EntryOk(h, y, x)
  {
    var h := Enqueue(c, s, st, p, i, order);
    assert ItemOk(s, p);
    forall x ensures InfoOk(c, h, x) { assert InfoOk(c, s, x); }
    forall q ensures JobOk(h, q) { assert JobOk(s, q); }
    forall x ensures HeldOk(h, x) { assert HeldOk(s, x); EnqueueLive(c, s, st, p, i, order, x); }
    forall y, x ensures EntryOk(h, y, x) { EnqueueEntry(c, s, st, p, i, order, y, x); }
  }

  lemma EnqueueEntry(c: Config, s: Sched, st: StepId, p: Path, i: InfoId, order: seq<InfoId>, y: System, x: InfoId)
    requires Agreement(c, s) && OrderOk(c, s, p, i, order)
    ensures EntryOk(Enqueue(c, s, st, p, i, order), y, x)
  {
    assert EntryOk(s, y, x);
  }

  lemma EnqueueKeeps(c: Config, s: Sched, st: StepId, p: Path, i: InfoId, order: seq<InfoId>)
    requires Agreement(c, s) && OrderOk(c, s, p, i, order)
    ensures Agreement(c, Enqueue(c, s, st, p, i, order))
  {
    var h := Enqueue(c, s, st, p, i, order);
    EnqueueEntries(c, s, st, p, i, order);
    forall q ensures ItemOk(h, q) { EnqueueItem(c, s, st, p, i, order, q); }
    forall x, y ensures UniqueOk(h, x, y) { EnqueueUnique(c, s, st, p, i, order, x, y); }
    MachinesSame(c, s, h);
    QueuesSame(c, s, h);
  }

  lemma InsertKeeps(c: Config, s: Sched, st: StepId, p: Path, i: InfoId, order: seq<InfoId>)
    requires Agreement(c, s) && CanInsert(c, s, st, p, i, order)
    ensures Agreement(c, DoInsert(c, s, st, p, i, order))
  {
    InsertOrder(c, s, st, p, i, order);
    EnqueueKeeps(c, s, st, p, i, order);
    LetsGoKeeps(c, Enqueue(c, s, st, p, i, order), Collecting(s.dispatcher.offered - {st}));
  }

  // ---- completing and failing ----

  /** A job is taken off `scheduled` and off its machine by a task that holds its info. */
  function TakeOff(s: Sched, p: Path, id: TaskId, t: Task): Sched
    requires Followable(s, p)
  {
    Release(s, p).(tasks := s.tasks[id := t])
  }

  lemma TakeOffHolds(s: Sched, p: Path, id: TaskId, t: Task)
    requires Followable(s, p) && t.info == s.scheduled[p].info && id !in s.tasks
    ensures InTasks(TakeOff(s, p, id, t)) == InTasks(s) + {t.info}
  {
    var h := TakeOff(s, p, id, t);
    forall i ensures i in InTasks(h) <==> i in InTasks(s) + {t.info} {
      if i in InTasks(s) {
        var k :| k in s.tasks && s.tasks[k].info == i;
        assert h.tasks[k].info == i;
      }
      if i == t.info { assert h.tasks[id].info == i; }
    }
  }

  lemma TakeOffEntries(c: Config, s: Sched, p: Path, id: TaskId, t: Task)
    requires Agreement(c, s) && Followable(s, p) && t.info == s.scheduled[p].info && id !in s.tasks
    ensures var h := TakeOff(s, p, id, t);
      && (forall x :: InfoOk(c, h, x)) && (forall q :: JobOk(h, q)) && (forall x :: HeldOk(h, x))
      && (forall y, i :: EntryOk(h, y, i)) && (forall i, j :: UniqueOk(h, i, j))
  {
    var h := TakeOff(s, p, id, t);
    TakeOffHolds(s, p, id, t);
    assert ItemOk(s, p);
    assert forall y :: Entries(h, y) == Entries(s, y);
    assert forall x :: Live(h, x) ==> Live(s, x);
    forall x ensures InfoOk(c, h, x) { assert InfoOk(c, s, x); }
    forall q ensures JobOk(h, q) { assert JobOk(s, q); }
    forall x ensures HeldOk(h, x) { assert HeldOk(s, x); }
    forall y, i ensures EntryOk(h, y, i) { assert EntryOk(s, y, i); }
    forall i, j ensures UniqueOk(h, i, j) { assert UniqueOk(s, i, j); }
  }

  lemma TakeOffItem(c: Config, s: Sched, p: Path, id: TaskId, t: Task, q: Path)
    requires Agreement(c, s) && Followable(s, p)
    ensures ItemOk(TakeOff(s, p, id, t), q)
  {
    var h := TakeOff(s, p, id, t);
    assert ItemOk(s, q);
    assert forall y :: Entries(h, y) == Entries(s, y);
    if q in h.scheduled {
      var j :| j in s.machines[s.scheduled[q].machine].jobs && j.path == q;
      assert j in h.machines[s.scheduled[q].machine].jobs;
    }
  }

  lemma TakeOffMachines(c: Config, s: Sched, p: Path, id: TaskId, t: Task)
    requires Agreement(c, s) && Followable(s, p)
    ensures var h := TakeOff(s, p, id, t);
      && (forall n :: MachineOk(c, h, n))
      && (forall n, j :: OnMachineOk(h, n, j))
      && (forall n, j, n', k :: DistinctOk(h, n, j, n', k))
  {
    var h := TakeOff(s, p, id, t);
    assert MachineOk(c, s, s.scheduled[p].machine);
    WithoutDistinct(s.machines[s.scheduled[p].machine].jobs, p);
    forall n ensures MachineOk(c, h, n) { assert MachineOk(c, s, n); }
    forall n, j ensures OnMachineOk(h, n, j) { assert OnMachineOk(s, n, j); }
    forall n, j, n', k ensures DistinctOk(h, n, j, n', k) { assert DistinctOk(s, n, j, n', k); }
  }

  lemma TakeOffHand(c: Config, s: Sched, p: Path, id: TaskId, t: Task)
    requires Agreement(c, s) && Followable(s, p)
    ensures HandOk(c, TakeOff(s, p, id, t))
  {
    if InHand(s.dispatcher) != {} { HandApart(c, s); }
  }

  lemma TakeOffKeeps(c: Config, s: Sched, p: Path, id: TaskId, t: Task)
    requires Agreement(c, s) && Followable(s, p) && t.info == s.scheduled[p].info && id !in s.tasks
    ensures Agreement(c, TakeOff(s, p, id, t))
  {
    var h := TakeOff(s, p, id, t);
    TakeOffEntries(c, s, p, id, t);
    TakeOffMachines(c, s, p, id, t);
    TakeOffHand(c, s, p, id, t);
    assert ItemOk(s, p);
    forall q ensures ItemOk(h, q) { TakeOffItem(c, s, p, id, t, q); }
    forall y ensures QueueOk(h, y) {
      assert QueueOk(s, y);
      assert ScheduledOn(h, y) == ScheduledOn(s, y) - {p};
    }
  }

  /** Which tables the first section of a completion or failure leaves how. */
  lemma ApartTables(c: Config, s: Sched, p: Path, r: BuildResultState, id: TaskId, now: int)
    requires Followable(s, p)
    ensures var h, m := Apart(c, s, p, r, id, now), Release(s, p);
      && h.infos == m.infos && h.jobs == m.jobs && h.scheduled == m.scheduled && h.queues == m.queues
      && h.machines == m.machines && h.dispatcher == m.dispatcher && h.online == m.online && h.draining == m.draining
      && h.used == m.used && h.starts == m.starts && h.resent == m.resent && h.dropped == m.dropped
      && h.calls == m.calls
      && id in h.tasks && h.tasks == s.tasks[id := h.tasks[id]] && h.tasks[id].info == s.scheduled[p].info
  {
  }

  lemma ApartKeeps(c: Config, s: Sched, p: Path, r: BuildResultState, id: TaskId, now: int)
    requires Agreement(c, s) && (p in s.scheduled ==> Followable(s, p)) && id !in s.tasks
    ensures Agreement(c, Apart(c, s, p, r, id, now))
  {
    if p in s.scheduled {
      var h := Apart(c, s, p, r, id, now);
      ApartTables(c, s, p, r, id, now);
      TakeOffKeeps(c, s, p, id, h.tasks[id]);
      BookkeepingKeeps(c, TakeOff(s, p, id, h.tasks[id]), h);
    }
  }

  // ---- machines ----

  lemma JoinKeeps(c: Config, s: Sched, m: MachineId, maxJobs: nat)
    requires Agreement(c, s) && m !in s.machines
    ensures Agreement(c, DoJoin(s, m, maxJobs))
  {
    var h := DoJoin(s, m, maxJobs);
    forall x ensures InfoOk(c, h, x) { assert InfoOk(c, s, x); }
    forall q ensures JobOk(h, q) { assert JobOk(s, q); }
    forall q ensures ItemOk(h, q) { assert ItemOk(s, q); }
    forall x ensures HeldOk(h, x) { assert HeldOk(s, x); }
    forall y, i ensures EntryOk(h, y, i) { assert EntryOk(s, y, i); }
    forall i, j ensures UniqueOk(h, i, j) { assert UniqueOk(s, i, j); }
    forall n ensures MachineOk(c, h, n) { assert MachineOk(c, s, n); }
    forall n, j ensures OnMachineOk(h, n, j) { assert OnMachineOk(s, n, j); }
    forall n, j, n', k ensures DistinctOk(h, n, j, n', k) { assert DistinctOk(s, n, j, n', k); }
    QueuesSame(c, s, h);
  }

  // ---- all operations ----

  lemma LoopKeeps(c: Config, s: Sched, op: Op)
    requires Agreement(c, s) && Can(c, s, op)
    requires op.Offer? || op.Reject? || op.Skip? || op.Hit? || op.CachePass? || op.Unsupported?
    ensures Agreement(c, Do(c, s, op))
  {
    LetsGoKeeps(c, s, Do(c, s, op).dispatcher);
  }

  lemma CallsKeep(c: Config, s: Sched, calls: map<CallId, Call>)
    requires Agreement(c, s)
    ensures Agreement(c, s.(calls := calls))
  {
    BookkeepingKeeps(c, s, s.(calls := calls));
  }

  lemma LoseKeeps(c: Config, s: Sched, m: MachineId)
    requires Agreement(c, s) && CanLose(s, m)
    ensures Agreement(c, DoLose(s, m))
  {
    BookkeepingKeeps(c, s, DoLose(s, m));
  }

  lemma ActKeeps(c: Config, s: Sched, k: CallId, id: TaskId, now: int)
    requires Agreement(c, s) && CanAct(s, k, id, now)
    ensures Agreement(c, DoAct(c, s, k, id, now))
  {
    var m := Apart(c, s, s.calls[k].path, s.calls[k].outcome, id, now);
    ApartKeeps(c, s, s.calls[k].path, s.calls[k].outcome, id, now);
    CallsKeep(c, m, s.calls - {k});
  }

  lemma DrainKeeps(c: Config, s: Sched, m: MachineId, id: TaskId, now: int)
    requires Agreement(c, s) && CanDrain(s, m, id, now)
    ensures Agreement(c, DoDrain(c, s, m, id, now))
  {
    var h := Apart(c, s, s.draining[m][0], PreparingFailure, id, now);
    ApartKeeps(c, s, s.draining[m][0], PreparingFailure, id, now);
    BookkeepingKeeps(c, h, h.(draining := s.draining[m := s.draining[m][1..]]));
  }

  /** Operations of the dispatch loop. */
  predicate LoopOp(op: Op) {
    || op.Offer? || op.Insert? || op.Reject? || op.Pick? || op.Skip? || op.Send? || op.Schedule? || op.Hit?
    || op.CachePass?
    || op.Discard? || op.Unsupported? || op.AbortPass? || op.DropAborted? || op.Scrub?
  }

  lemma LoopOpKeeps(c: Config, s: Sched, op: Op)
    requires Agreement(c, s) && Can(c, s, op) && LoopOp(op)
    ensures Agreement(c, Do(c, s, op))
  {
    match op
    case Insert(st, p, i, order) => InsertKeeps(c, s, st, p, i, order);
    case Pick(i, m, t0, now) => PickKeeps(c, s, i, m, t0, now);
    case Send(u, now) => SendKeeps(c, s, u, now);
    case Schedule => ScheduleKeeps(c, s);
    case Discard => DiscardKeeps(c, s);
    case DropAborted(st, p) => DropAbortedKeeps(c, s, st, p);
    case Scrub =>
      ScrubShrinks(s);
      ShrinkKeeps(c, s, ScrubAll(s));
    case AbortPass(_, _) =>
    case _ => LoopKeeps(c, s, op);
  }

  lemma OtherOpKeeps(c: Config, s: Sched, op: Op)
    requires Agreement(c, s) && Can(c, s, op) && !LoopOp(op)
    ensures Agreement(c, Do(c, s, op))
  {
    match op
    case Act(k, id, now) => ActKeeps(c, s, k, id, now);
    case Drain(m, id, now) => DrainKeeps(c, s, m, id, now);
    case Remove(id) => RemoveKeeps(c, s, id);
    case TaskPass(id, _) => TaskPassKeeps(c, s, id);
    case End(id) => EndKeeps(c, s, id);
    case Join(m, maxJobs) => JoinKeeps(c, s, m, maxJobs);
    case Report(m, u, r, k) => CallsKeep(c, s, DoReport(s, m, u, r, k).calls);
    case Kill(p, k) => CallsKeep(c, s, DoKill(s, p, k).calls);
    case Lose(m) => LoseKeeps(c, s, m);
  }

  /** Every operation keeps the agreement. */
  lemma DoKeeps(c: Config, s: Sched, op: Op)
    requires Agreement(c, s) && Can(c, s, op)
    ensures Agreement(c, Do(c, s, op))
  {
    if LoopOp(op) { LoopOpKeeps(c, s, op); } else { OtherOpKeeps(c, s, op); }
  }

  /** A scheduled item can be followed to its info, its queue and its machine. */
  lemma ItemRefs(c: Config, s: Sched, p: Path)
    requires Agreement(c, s) && p in s.scheduled
    ensures Followable(s, p) && s.infos[s.scheduled[p].info].path == p && s.infos[s.scheduled[p].info].already
    ensures s.infos[s.scheduled[p].info].system == s.scheduled[p].system && Waits(s, s.scheduled[p].info)
  {
    assert ItemOk(s, p) && InfoOk(c, s, s.scheduled[p].info);
  }

  lemma InitAgrees(c: Config)
    ensures Agreement(c, Scheduling.Init())
  {
    var s := Scheduling.Init();
    forall sys ensures QueueOk(s, sys) {}
    forall m, j, n, k ensures DistinctOk(s, m, j, n, k) {}
    forall m, j ensures OnMachineOk(s, m, j) {}
  }
}
