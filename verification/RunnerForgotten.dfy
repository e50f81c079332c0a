/** Which runnable steps the scheduler loses sight of, and when. */
module RunnerForgotten {
  import opened Reachability
  import opened StepGraph
  import opened StepGraphInvariant
  import opened StepGraphTheorems
  import opened StepGraphTwins
  import opened Scheduling
  import opened SchedulingInvariant
  import opened SchedulingFrames
  import opened Runner
  import opened RunnerInvariant
  import opened RunnerTheorems
  import opened RunnerRetries
  import opened RunnerGraph

  /** The dispatch loop comes to an entry of the path. */
  ghost predicate InQueue(s: Sched, p: Path) {
    exists i :: Waits(s, i) && s.infos[i].path == p
  }

  /** The path is owned by an info that is in no queue. */
  predicate Blocked(s: Sched, p: Path) {
    p in s.jobs && !Listed(s, s.jobs[p])
  }

  // ---- jobs that are dropped ----

  /** The event takes the step's job away although the step was sent out before. */
  predicate DropsStep(c: Config, w: World, e: Runner.Event, st: StepId) {
    e.Moves? && ((e.op.Discard? && CanDiscard(w.s) && w.s.dispatcher.Chosen?) || e.op.DropAborted?) &&
    var p := if e.op.Discard? then w.s.infos[w.s.dispatcher.info].path else e.op.p;
    p in w.s.jobs && w.s.jobs[p] in w.s.infos && w.s.infos[w.s.jobs[p]].step == st && Starts(w.s, st) != []
  }

  ghost predicate DroppedBefore(c: Config, ws: seq<World>, es: seq<Runner.Event>, k: nat, st: StepId)
    requires |ws| == |es| + 1 && k <= |es|
  {
    exists j :: 0 <= j < k && DropsStep(c, ws[j], es[j], st)
  }

  lemma CountingDropped(c: Config, s: Sched, op: Op)
    requires Agreement(c, s) && Can(c, s, op) && Counting(op)
    ensures Do(c, s, op).dropped == s.dropped
  {
    match op
    case Act(k, id, now) => ActFewer(c, s, k, id, now);
    case Drain(n, id, now) => DrainFewer(c, s, n, id, now);
    case Insert(st, p, i, order) => assert DoInsert(c, s, st, p, i, order).dropped == s.dropped;
    case Send(u, now) => assert SendOut(s, u, now).dropped == s.dropped;
  }

  lemma SameDropped(c: Config, s: Sched, op: Op)
    requires Agreement(c, s) && Can(c, s, op) && !op.Discard? && !op.DropAborted?
    ensures Do(c, s, op).dropped == s.dropped
  {
    if Counting(op) { CountingDropped(c, s, op); } else { OpFrame(c, s, op); }
  }

  lemma DiscardDrops(c: Config, w: World, st: StepId)
    requires CanDiscard(w.s)
    ensures st in DoDiscard(w.s).dropped <==> st in w.s.dropped || DropsStep(c, w, Moves(Discard), st)
  {
  }

  lemma AbortedDrops(c: Config, w: World, x: StepId, p: Path, st: StepId)
    requires CanAbort(w.s, x)
    ensures st in DoDropAborted(w.s, x, p).dropped
      <==> st in w.s.dropped || DropsStep(c, w, Moves(DropAborted(x, p)), st)
  {
  }

  lemma MoveDrops(c: Config, w: World, op: Op, st: StepId)
    requires Agreement(c, w.s) && Can(c, w.s, op)
    ensures st in Do(c, w.s, op).dropped <==> st in w.s.dropped || DropsStep(c, w, Moves(op), st)
  {
    if op.Discard? {
      DiscardDrops(c, w, st);
    } else if op.DropAborted? {
      AbortedDrops(c, w, op.st, op.p, st);
    } else {
      SameDropped(c, w.s, op);
    }
  }

  lemma EventDrops(c: Config, w: World, e: Runner.Event, st: StepId)
    requires Sound(c, w) && Allowed(c, w, e)
    ensures st in Effect(c, w, e).s.dropped <==> st in w.s.dropped || DropsStep(c, w, e, st)
  {
    if e.Moves? { MoveDrops(c, w, e.op, st); }
  }

  lemma {:induction false} DroppedMeans(c: Config, ws: seq<World>, es: seq<Runner.Event>, k: nat, st: StepId)
    requires WorldRun(c, ws, es) && k < |ws|
    ensures st in ws[k].s.dropped <==> DroppedBefore(c, ws, es, k, st)
  {
    if k > 0 {
      DroppedMeans(c, ws, es, k - 1, st);
      RunDrops(c, ws, es, k - 1, st);
    }
  }

  lemma RunDrops(c: Config, ws: seq<World>, es: seq<Runner.Event>, k: nat, st: StepId)
    requires WorldRun(c, ws, es) && k < |es|
    ensures st in ws[k + 1].s.dropped <==> st in ws[k].s.dropped || DropsStep(c, ws[k], es[k], st)
  {
    WorldSound(c, ws, es, k);
    assert WorldNext(c, ws, es, k);
    EventDrops(c, ws[k], es[k], st);
  }

  // ---- nothing else is forgotten ----

  /** The next collection of runnable steps takes the step: it is ready and registered, was
      never retried, and neither its path is owned nor an entry of it can be followed. */
  ghost predicate Collectable(w: World, st: StepId) {
    && Registers(w.g, st) && Ready(w.g, st) && Tries(w.s, st) == 0
    && StepPath(w.g, st) !in w.s.jobs && !InQueue(w.s, StepPath(w.g, st))
  }

  /** The dispatch loop collects the step and inserts a new info for it, which gets into
      the queue. */
  ghost predicate Insertable(c: Config, w: World, st: StepId, i: InfoId)
    requires st in w.g.steps && i !in w.s.infos
  {
    && CanOffer(w.s, st) && Ready(w.g, st) && Registered(w.g, st)
    && var w1 := w.(s := DoOffer(w.s, st));
       var p := StepPath(w.g, st);
       var order := Pushed(w1.s, Entries(w1.s, c.systemOf(p)), p, i);
       && MayInsert(c, w1, st, p, i, order)
       && Queued(w1.(s := DoInsert(c, w1.s, st, p, i, order)), st)
  }

  /** An info of the step itself is in its queue and can be followed. */
  ghost predicate OwnQueued(w: World, st: StepId) {
    exists i :: Waits(w.s, i) && w.s.infos[i].step == st
  }

  /** An info of another step of the same path is in the queue and can be followed. */
  ghost predicate TwinQueued(w: World, st: StepId)
    requires st in w.g.steps
  {
    exists i :: Waits(w.s, i) && w.s.infos[i].path == StepPath(w.g, st) && w.s.infos[i].step != st
  }

  /** The other step is a live object of the path. */
  lemma TwinQueuedNeedsTwin(c: Config, w: World, st: StepId)
    requires Sound(c, w) && st in w.g.steps && st in w.g.live && TwinQueued(w, st)
    ensures w.g.twins
  {
    var i :| Waits(w.s, i) && w.s.infos[i].path == StepPath(w.g, st) && w.s.infos[i].step != st;
    assert LinkOk(w, i) && TwinOk(w.g, w.s.infos[i].step, st);
  }

  lemma OccupiedInQueue(c: Config, s: Sched, p: Path)
    requires Agreement(c, s) && Occupied(s, Entries(s, c.systemOf(p)), p)
    ensures InQueue(s, p)
  {
    var i :| i in Entries(s, c.systemOf(p)) && Live(s, i) && s.infos[i].path == p;
    assert InfoOk(c, s, i);
    assert Waits(s, i);
  }

  lemma PushesNew(c: Config, s: Sched, p: Path, i: InfoId)
    requires Agreement(c, s) && !InQueue(s, p)
    ensures !Occupied(s, Entries(s, c.systemOf(p)), p) && i in Pushed(s, Entries(s, c.systemOf(p)), p, i)
  {
    if Occupied(s, Entries(s, c.systemOf(p)), p) { OccupiedInQueue(c, s, p); }
    var order := Pushed(s, Entries(s, c.systemOf(p)), p, i);
    assert order[|order| - 1] == i;
  }

  lemma OfferLeaves(c: Config, s: Sched, st: StepId, p: Path)
    requires Agreement(c, s) && CanOffer(s, st)
    ensures var h := DoOffer(s, st);
      && Agreement(c, h) && (InQueue(h, p) ==> InQueue(s, p)) && h.jobs == s.jobs && h.infos == s.infos
      && h.queues == s.queues
  {
    LetsGoKeeps(c, s, DoOffer(s, st).dispatcher);
    LoopFrame(s, DoOffer(s, st).dispatcher, Offer(st));
    if InQueue(DoOffer(s, st), p) {
      var i :| Waits(DoOffer(s, st), i) && DoOffer(s, st).infos[i].path == p;
      assert Waits(s, i);
    }
  }

  /** When the dispatch loop collects runnable steps it takes every collectable one, and
      the step gets into its queue. */
  lemma CollectableGetsQueued(c: Config, w: World, st: StepId, i: InfoId)
    requires Sound(c, w) && Collectable(w, st) && w.s.dispatcher.Collecting? && i !in w.s.infos
    ensures Insertable(c, w, st, i)
  {
    OfferLeaves(c, w.s, st, StepPath(w.g, st));
    PushesNew(c, DoOffer(w.s, st), StepPath(w.g, st), i);
  }

  /** Every registered runnable unfinished step that has not failed for good and whose
      job was not dropped after it had been sent out has an info in its queue, or is
      collectable, or its path is blocked, or another live step of its path has an info
      in the queue. */
  lemma NotForgotten(c: Config, ws: seq<World>, es: seq<Runner.Event>, k: nat, st: StepId)
    requires WorldRun(c, ws, es) && k < |ws|
    requires !FailedBefore(c, ws, es, k, st) && !DroppedBefore(c, ws, es, k, st)
    requires Registers(ws[k].g, st) && Ready(ws[k].g, st)
    ensures || OwnQueued(ws[k], st)
            || Collectable(ws[k], st)
            || Blocked(ws[k].s, StepPath(ws[k].g, st))
            || TwinQueued(ws[k], st)
    ensures TwinQueued(ws[k], st) ==> ws[k].g.twins
  {
    var w, p := ws[k], StepPath(ws[k].g, st);
    WorldSound(c, ws, es, k);
    HistoryMeans(c, ws, es, k, st);
    DroppedMeans(c, ws, es, k, st);
    assert KeepOk(w, st) && CountOk(c, w, st) && JobOk(w.s, p);
    if p in w.s.jobs && Listed(w.s, w.s.jobs[p]) { assert Waits(w.s, w.s.jobs[p]); }
    if InQueue(w.s, p) {
      var i :| Waits(w.s, i) && w.s.infos[i].path == p;
      assert OwnQueued(w, st) || TwinQueued(w, st);
    }
    if TwinQueued(w, st) { TwinQueuedNeedsTwin(c, w, st); }
  }

  // ---- stranded steps ----

  /** A registered unfinished step that is out of the queues for good. */
  ghost predicate Stranded(w: World, st: StepId) {
    Registers(w.g, st) && Out(w, st)
  }

  lemma QueuedWaits(c: Config, w: World, st: StepId)
    requires Agreement(c, w.s)
    ensures Queued(w, st) ==> exists i :: Waits(w.s, i) && w.s.infos[i].step == st
  {
    if Queued(w, st) { assert JobOk(w.s, StepPath(w.g, st)) && Waits(w.s, w.s.jobs[StepPath(w.g, st)]); }
  }

  /** A step is stranded only if it failed for good or its job was dropped after it had
      been sent out. `OutNeverSent` says that it is never sent again. */
  lemma StrandedOnlyByDrop(c: Config, ws: seq<World>, es: seq<Runner.Event>, k: nat, st: StepId)
    requires WorldRun(c, ws, es) && k < |ws| && Stranded(ws[k], st)
    ensures FailedBefore(c, ws, es, k, st) || DroppedBefore(c, ws, es, k, st)
  {
    var w := ws[k];
    WorldSound(c, ws, es, k);
    HistoryMeans(c, ws, es, k, st);
    DroppedMeans(c, ws, es, k, st);
    assert KeepOk(w, st) && CountOk(c, w, st) && JobOk(w.s, StepPath(w.g, st));
    QueuedWaits(c, w, st);
  }

  /** Dropping the chosen job of a registered step strands the step exactly when it has
      been retried before and the task of its last failure has ended: the check on the
      number of tries keeps the loop from collecting it again. */
  lemma DiscardStrandsRetried(c: Config, w: World)
    requires Sound(c, w) && CanDiscard(w.s) && w.s.dispatcher.Chosen?
    requires Registers(w.g, w.s.infos[w.s.dispatcher.info].step)
    ensures var i := w.s.dispatcher.info;
      var st := w.s.infos[i].step;
      Stranded(w.(s := DoDiscard(w.s)), st) <==> Tries(w.s, st) > 0 && i !in InTasks(w.s)
  {
    var h, i := w.(s := DoDiscard(w.s)), w.s.dispatcher.info;
    HandApart(c, w.s);
    DiscardFewer(w.s);
    assert LinkOk(w, i);
    assert InTasks(h.s) == InTasks(w.s);
    forall x | Waits(h.s, x) && h.s.infos[x].step == w.s.infos[i].step ensures x == i {
      assert LinkOk(w, x) && UniqueOk(w.s, x, i);
    }
    assert Waits(h.s, i) <==> i in InTasks(w.s);
  }

  /** The same for a queued job dropped by path: the step is stranded exactly when it has
      been retried before and is neither scheduled nor held by a task. */
  lemma DropStrandsRetried(c: Config, w: World, st: StepId, x: StepId)
    requires Sound(c, w) && Queued(w, st) && Registers(w.g, st) && CanAbort(w.s, x)
    ensures var p := StepPath(w.g, st);
      Stranded(w.(s := DoDropAborted(w.s, x, p)), st) <==>
        Tries(w.s, st) > 0 && p !in w.s.scheduled && w.s.jobs[p] !in InTasks(w.s)
  {
    var p := StepPath(w.g, st);
    var h, i := w.(s := DoDropAborted(w.s, x, p)), w.s.jobs[p];
    DropFewer(w.s, x, p);
    assert JobOk(w.s, p) && Waits(w.s, i);
    assert InTasks(h.s) == InTasks(w.s);
    ScheduledOwner(c, w.s, p, i);
    forall y | Waits(h.s, y) && h.s.infos[y].step == st ensures y == i {
      assert LinkOk(w, y) && UniqueOk(w.s, y, i);
    }
    assert Waits(h.s, i) <==> p in w.s.scheduled || i in InTasks(w.s);
  }

  lemma ScheduledOwner(c: Config, s: Sched, p: Path, i: InfoId)
    requires Agreement(c, s) && Waits(s, i) && s.infos[i].path == p
    ensures p in s.scheduled ==> s.scheduled[p].info == i
  {
    if p in s.scheduled {
      ItemRefs(c, s, p);
      assert UniqueOk(s, i, s.scheduled[p].info);
    }
  }

  // ---- blocked paths ----

  /** An inserted info is in no queue exactly when an entry of its path can still be
      followed: the path is not owned then, so a task holds that entry's info. */
  lemma InsertBlocksExactly(c: Config, w: World, st: StepId, p: Path, i: InfoId, order: seq<InfoId>)
    requires Sound(c, w) && MayInsert(c, w, st, p, i, order)
    ensures Blocked(DoInsert(c, w.s, st, p, i, order), p) <==> InQueue(w.s, p)
  {
    InsertOrder(c, w.s, st, p, i, order);
    OccupiedIffInQueue(c, w.s, p);
    assert EntryOk(w.s, c.systemOf(p), i);
  }

  lemma OccupiedIffInQueue(c: Config, s: Sched, p: Path)
    requires Agreement(c, s)
    ensures Occupied(s, Entries(s, c.systemOf(p)), p) <==> InQueue(s, p)
  {
    if Occupied(s, Entries(s, c.systemOf(p)), p) { OccupiedInQueue(c, s, p); }
    if InQueue(s, p) {
      var x :| Waits(s, x) && s.infos[x].path == p;
      assert InfoOk(c, s, x);
    }
  }

  /** The event inserts an info for a path of which an entry can still be followed. */
  ghost predicate BlocksPath(w: World, e: Runner.Event, p: Path) {
    e.Moves? && e.op.Insert? && e.op.p == p && InQueue(w.s, p)
  }

  lemma MoveBlocks(c: Config, w: World, op: Op, p: Path)
    requires Sound(c, w) && Can(c, w.s, op) && Fits(c, w, op) && Blocked(Do(c, w.s, op), p) && !Blocked(w.s, p)
    ensures BlocksPath(w, Moves(op), p)
  {
    if op.Insert? {
      InsertBlocks(c, w, op.st, op.p, op.i, op.order, p);
    } else {
      NoNewJobs(c, w.s, op, p);
    }
  }

  lemma EventBlocks(c: Config, w: World, e: Runner.Event, p: Path)
    requires Sound(c, w) && Allowed(c, w, e) && Blocked(Effect(c, w, e).s, p) && !Blocked(w.s, p)
    ensures BlocksPath(w, e, p)
  {
    if e.Moves? { MoveBlocks(c, w, e.op, p); }
  }

  lemma InsertBlocks(c: Config, w: World, st: StepId, q: Path, i: InfoId, order: seq<InfoId>, p: Path)
    requires Sound(c, w) && MayInsert(c, w, st, q, i, order)
    requires Blocked(DoInsert(c, w.s, st, q, i, order), p) && !Blocked(w.s, p)
    ensures p == q && InQueue(w.s, p)
  {
    if p == q {
      InsertBlocksExactly(c, w, st, p, i, order);
    } else {
      assert JobOk(w.s, p);
      InsertLive(c, w.s, st, q, i, order, w.s.jobs[p]);
    }
  }

  /** No other operation gives a path an owner, or takes an owned info out of its queue. */
  lemma NoNewJobs(c: Config, s: Sched, op: Op, p: Path)
    requires Agreement(c, s) && Can(c, s, op) && !op.Insert? && !Blocked(s, p)
    ensures !Blocked(Do(c, s, op), p)
  {
    assert JobOk(s, p);
    DoFewer(c, s, op);
  }

  lemma RunBlocks(c: Config, ws: seq<World>, es: seq<Runner.Event>, k: nat, p: Path)
    requires WorldRun(c, ws, es) && k < |es| && Blocked(ws[k + 1].s, p) && !Blocked(ws[k].s, p)
    ensures BlocksPath(ws[k], es[k], p)
  {
    WorldSound(c, ws, es, k);
    assert WorldNext(c, ws, es, k);
    EventBlocks(c, ws[k], es[k], p);
  }

  /** A path is blocked only by an insertion while an entry of it could be followed. */
  lemma {:induction false} BlockedOnlyByInsert(c: Config, ws: seq<World>, es: seq<Runner.Event>, k: nat, p: Path)
    requires WorldRun(c, ws, es) && k < |ws| && Blocked(ws[k].s, p)
    ensures exists l :: 0 <= l < k && BlocksPath(ws[l], es[l], p)
  {
    if k > 0 {
      if Blocked(ws[k - 1].s, p) { BlockedOnlyByInsert(c, ws, es, k - 1, p); } else { RunBlocks(c, ws, es, k - 1, p); }
    }
  }

  // ---- progress of the whole scheduler ----

  /** In every reachable state of a run without failed creations over acyclic
      derivations, every live registered unfinished step reaches something that somebody
      is going to act on, unless a twin took the registration of a step it waits for or
      its place among the new runnable steps. If what it reaches is a runnable step that
      neither failed for good nor was dropped after it had been sent out, that has an info
      in its queue or is collectable, unless its path is blocked or another live step of
      its path has an info in the queue. */
  lemma SchedulerProgress(c: Config, ws: seq<World>, es: seq<Runner.Event>, k: nat, rank: Path -> nat, s: StepId)
    returns (r: StepId)
    requires WorldRun(c, ws, es) && k < |ws| && (forall j :: 0 <= j < k && es[j].GraphEvent? ==> CleanEvent(es[j].e))
    requires Acyclic(ws[k].g.inputs, rank) && s in ws[k].g.live && Registers(ws[k].g, s)
    requires var t := GraphRun(ws, es, k); |t.gs| == |t.es| + 1 && NoneTaken(t.gs, t.es, |t.es|, s)
    ensures Reaches(DepEdges(ws[k].g), s, r) && Obligation(ws[k].g, r)
    ensures ws[k].g.steps[r].runnable && !ws[k].g.steps[r].finished
            && !FailedBefore(c, ws, es, k, r) && !DroppedBefore(c, ws, es, k, r) ==>
              || OwnQueued(ws[k], r)
              || Collectable(ws[k], r)
              || Blocked(ws[k].s, StepPath(ws[k].g, r))
              || TwinQueued(ws[k], r)
  {
    var t := GraphRun(ws, es, k);
    GraphRunIs(c, ws, es, k);
    r := DeadlockFreeUnlessTaken(t.gs, t.es, |t.es|, rank, s);
    if ws[k].g.steps[r].runnable && !ws[k].g.steps[r].finished
       && !FailedBefore(c, ws, es, k, r) && !DroppedBefore(c, ws, es, k, r) {
      RunInv(t.gs, t.es, |t.es|);
      NotForgotten(c, ws, es, k, r);
    }
  }
}
