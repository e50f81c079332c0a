/**
 What holds in every run of the step graph: topological safety, no lost wake-up
 and freedom from deadlock.
 */
module StepGraphTheorems {
  import opened Reachability
  import opened StepGraph
  import opened StepGraphInvariant

  ghost predicate NextAt(gs: seq<Graph>, es: seq<Event>, i: nat)
    requires |gs| == |es| + 1 && i < |es|
  {
    Enabled(gs[i], es[i]) && gs[i + 1] == Apply(gs[i], es[i])
  }

  /** A run from the empty graph: any interleaving of enabled events. */
  ghost predicate Run(gs: seq<Graph>, es: seq<Event>) {
    && |gs| == |es| + 1
    && gs[0] == Init(gs[0].inputs)
    && forall i :: 0 <= i < |es| ==> NextAt(gs, es, i)
  }

  lemma {:induction false} RunInv(gs: seq<Graph>, es: seq<Event>, i: nat)
    requires Run(gs, es) && i < |gs|
    ensures Inv(gs[i])
  {
    if i == 0 {
      InitHolds(gs[0].inputs);
    } else {
      RunInv(gs, es, i - 1);
      assert NextAt(gs, es, i - 1);
      EventKeeps(gs[i - 1], es[i - 1]);
    }
  }

  // ---- what never goes back ----

  predicate LaterStep(st: Step, st': Step) {
    && st'.path == st.path
    && (st.finished ==> st'.finished)
    && (st.created ==> st'.created)
    && (st.runnable ==> st'.runnable)
    && st.everDeps <= st'.everDeps
    && (st.created ==> st'.everDeps == st.everDeps && st'.deps <= st.deps)
  }

  /** A step object keeps its path and its flags, records no dependency once it
      is created, and is neither revived nor registered again. */
  predicate LaterAt(g: Graph, h: Graph, u: StepId) {
    u in g.steps ==>
      && u in h.steps && LaterStep(g.steps[u], h.steps[u])
      && (u in h.live ==> u in g.live)
      && (Registered(h, u) ==> Registered(g, u))
  }

  ghost predicate Later(g: Graph, h: Graph) {
    h.inputs == g.inputs && forall u :: LaterAt(g, h, u)
  }

  lemma ResolveLater(g: Graph, e: Event, u: StepId)
    requires Inv(g) && Enabled(g, e) && (e.ResolveKnown? || e.ResolveFresh?)
    ensures LaterAt(g, Apply(g, e), u)
  {
    assert NodeOk(g, u);
  }

  lemma RecordLater(g: Graph, e: Event, u: StepId)
    requires Inv(g) && Enabled(g, e)
    requires !e.CreateTop? && !e.CreateChild? && !e.Wake? && !e.Sweep? && !e.ResolveKnown? && !e.ResolveFresh?
    ensures LaterAt(g, Apply(g, e), u)
  {
    assert NodeOk(g, u);
  }

  lemma CreateLater(g: Graph, e: Event, u: StepId)
    requires Inv(g) && Enabled(g, e) && (e.CreateTop? || e.CreateChild?)
    ensures LaterAt(g, Apply(g, e), u)
  {
    assert NodeOk(g, u);
  }

  lemma WakeLater(g: Graph, e: Event, u: StepId)
    requires Inv(g) && Enabled(g, e) && (e.Wake? || e.Sweep?)
    ensures LaterAt(g, Apply(g, e), u)
  {
    assert NodeOk(g, u);
  }

  lemma EventLater(g: Graph, e: Event)
    requires Inv(g) && Enabled(g, e)
    ensures Later(g, Apply(g, e))
  {
    forall u ensures LaterAt(g, Apply(g, e), u) {
      if e.CreateTop? || e.CreateChild? {
        CreateLater(g, e, u);
      } else if e.Wake? || e.Sweep? {
        WakeLater(g, e, u);
      } else if e.ResolveKnown? || e.ResolveFresh? {
        ResolveLater(g, e, u);
      } else {
        RecordLater(g, e, u);
      }
    }
  }

  lemma LaterTrans(f: Graph, g: Graph, h: Graph)
    requires Later(f, g) && Later(g, h)
    ensures Later(f, h)
  {
    forall u ensures LaterAt(f, h, u) { assert LaterAt(f, g, u) && LaterAt(g, h, u); }
  }

  lemma StepLater(gs: seq<Graph>, es: seq<Event>, i: nat)
    requires Run(gs, es) && i < |es|
    ensures Later(gs[i], gs[i + 1])
  {
    RunInv(gs, es, i);
    assert NextAt(gs, es, i);
    EventLater(gs[i], es[i]);
  }

  lemma {:induction false} RunLater(gs: seq<Graph>, es: seq<Event>, i: nat, j: nat)
    requires Run(gs, es) && i <= j < |gs|
    ensures Later(gs[i], gs[j])
    decreases j - i
  {
    if i == j {
      forall u ensures LaterAt(gs[i], gs[j], u) {}
    } else {
      RunLater(gs, es, i, j - 1);
      StepLater(gs, es, j - 1);
      LaterTrans(gs[i], gs[j - 1], gs[j]);
    }
  }

  // ---- topological safety ----

  /** A runnable step has no open dependency, whatever was or will be recorded. */
  lemma RunnableDepsDone(g: Graph, h: Graph, s: StepId, d: StepId)
    requires Inv(g) && Inv(h) && (Later(g, h) || Later(h, g))
    requires s in g.steps && g.steps[s].runnable
    requires s in h.steps && d in h.steps[s].everDeps
    ensures d in g.steps && g.steps[d].finished
  {
    assert NodeOk(g, s) && EdgeOk(g, d, s) && EdgeOk(h, d, s);
    if Later(g, h) {
      assert LaterAt(g, h, s);
    } else {
      assert LaterAt(h, g, s);
    }
  }

  /** In every run, once a step is runnable every dependency recorded for it at
      any time of the run has already finished. */
  lemma TopologicalSafety(gs: seq<Graph>, es: seq<Event>, k: nat, j: nat, s: StepId, d: StepId)
    requires Run(gs, es) && k < |gs| && j < |gs|
    requires s in gs[k].steps && gs[k].steps[s].runnable
    requires s in gs[j].steps && d in gs[j].steps[s].everDeps
    ensures d in gs[k].steps && gs[k].steps[d].finished
  {
    RunInv(gs, es, k);
    RunInv(gs, es, j);
    if k <= j { RunLater(gs, es, k, j); } else { RunLater(gs, es, j, k); }
    RunnableDepsDone(gs[k], gs[j], s, d);
  }

  /** A step that reaches an unfinished one has not started. */
  lemma {:induction false} WalkWaits(g: Graph, h: Graph, w: seq<StepId>)
    requires Inv(g) && Inv(h) && Later(g, h) && Walk(DepEdges(g), w) && |w| > 1
    requires w[|w| - 1] in h.steps && !h.steps[w[|w| - 1]].finished
    ensures w[0] in h.steps && !h.steps[w[0]].runnable && !h.steps[w[0]].finished
    decreases |w|
  {
    var s, d := w[0], w[1];
    assert w[0 + 1] in Succ(DepEdges(g), w[0]);
    if |w| > 2 {
      forall i | 0 <= i < |w| - 2 ensures w[1..][i + 1] in Succ(DepEdges(g), w[1..][i]) {
        assert w[i + 1 + 1] in Succ(DepEdges(g), w[i + 1]);
      }
      WalkWaits(g, h, w[1..]);
    }
    assert LaterAt(g, h, s) && NodeOk(g, s) && NodeOk(h, s) && EdgeOk(h, d, s);
  }

  /** Whatever a step waits for, directly or not: as long as that is unfinished, the step
      is neither runnable nor finished. */
  lemma WaitsBelow(g: Graph, h: Graph, s: StepId, r: StepId)
    requires Inv(g) && Inv(h) && Later(g, h) && s != r && Reaches(DepEdges(g), s, r)
    requires r in h.steps && !h.steps[r].finished
    ensures s in h.steps && !h.steps[s].runnable && !h.steps[s].finished
  {
    var w :| WalkBetween(DepEdges(g), w, s, r);
    WalkWaits(g, h, w);
  }

  /** Nor does it stop waiting. */
  lemma WalkStays(g: Graph, h: Graph, w: seq<StepId>)
    requires Inv(g) && Inv(h) && Later(g, h) && Walk(DepEdges(g), w)
    requires w[|w| - 1] in h.steps && !h.steps[w[|w| - 1]].finished
    ensures Walk(DepEdges(h), w)
  {
    forall i | 0 <= i < |w| - 1 ensures w[i + 1] in Succ(DepEdges(h), w[i]) {
      var s, d := w[i], w[i + 1];
      assert d in Succ(DepEdges(g), s);
      assert NodeOk(g, s) && LaterAt(g, h, s) && EdgeOk(h, d, s);
      if i + 1 < |w| - 1 {
        var v := w[i + 1..];
        forall k | 0 <= k < |v| - 1 ensures v[k + 1] in Succ(DepEdges(g), v[k]) {
          assert w[i + 1 + k + 1] in Succ(DepEdges(g), w[i + 1 + k]);
        }
        WalkWaits(g, h, v);
      }
    }
  }

  // ---- no lost wake-up ----

  /** A created step without dependencies that is neither runnable nor about to be. */
  predicate Overlooked(g: Graph, u: StepId) {
    && u in g.live && u in g.steps && g.steps[u].created && g.steps[u].deps == {}
    && !g.steps[u].runnable && u !in g.newRunnable && !g.steps[u].phase.Marked?
  }

  /** Event `e` finds no dependencies of `u`, which is not runnable yet, but another live
      object of its path in the set of its nest. */
  predicate Misses(g: Graph, e: Event, x: StepId, u: StepId) {
    && e == CheckDeps(u) && u in g.steps && g.steps[u].deps == {} && !g.steps[u].runnable
    && x in g.newRunnable && x in g.live && x in g.steps && x != u
    && g.steps[x].path == g.steps[u].path && g.steps[x].nest == g.steps[u].nest
  }

  /** Event `e` goes over the dependents of a finished step that lists `u`. */
  predicate Wakes(g: Graph, e: Event, u: StepId) {
    (e.Wake? && Wakers(g, {e.s}, u) != {}) || (e.Sweep? && Wakers(g, SweepSet(g), u) != {})
  }

  /** The step once missed the set of its nest, and nothing woke it since. */
  ghost predicate Missed(gs: seq<Graph>, es: seq<Event>, i: nat, u: StepId)
    requires |gs| == |es| + 1 && i < |gs|
  {
    exists j, x :: MissedAt(gs, es, i, u, j, x)
  }

  ghost predicate MissedAt(gs: seq<Graph>, es: seq<Event>, i: nat, u: StepId, j: nat, x: StepId)
    requires |gs| == |es| + 1 && i < |gs|
  {
    j < i && Misses(gs[j], es[j], x, u) && forall k :: j < k < i ==> !Wakes(gs[k], es[k], u)
  }

  lemma MissedNext(gs: seq<Graph>, es: seq<Event>, i: nat, u: StepId)
    requires |gs| == |es| + 1 && i < |es|
    ensures Missed(gs, es, i + 1, u) <==>
      (Missed(gs, es, i, u) && !Wakes(gs[i], es[i], u)) || exists x :: Misses(gs[i], es[i], x, u)
  {
    if Missed(gs, es, i + 1, u) {
      var j: nat, x :| MissedAt(gs, es, i + 1, u, j, x);
      assert j < i ==> MissedAt(gs, es, i, u, j, x);
    }
    if Missed(gs, es, i, u) && !Wakes(gs[i], es[i], u) {
      var j: nat, x :| MissedAt(gs, es, i, u, j, x);
      assert MissedAt(gs, es, i + 1, u, j, x);
    }
    if x :| Misses(gs[i], es[i], x, u) {
      assert MissedAt(gs, es, i + 1, u, i, x);
    }
  }

  lemma CheckOverlooks(g: Graph, s: StepId, u: StepId)
    requires Inv(g) && Enabled(g, CheckDeps(s)) && u in g.live
    ensures Overlooked(Checked(g, s), u) <==> Overlooked(g, u) || exists x :: Misses(g, CheckDeps(s), x, u)
  {
    assert NodeOk(g, s);
    if s == u && g.steps[u].deps == {} && !g.steps[u].runnable {
      if SetHas(g, u) {
        var x :| x in g.newRunnable && x in g.steps && g.steps[x].path == g.steps[u].path
            && g.steps[x].nest == g.steps[u].nest;
        assert NodeOk(g, x) && Misses(g, CheckDeps(u), x, u);
      }
    }
  }

  lemma WakeOverlooks(g: Graph, w: set<StepId>, u: StepId)
    requires Inv(g) && u in g.live
    ensures Overlooked(WakeAll(g, w), u) <==> Overlooked(g, u) && Wakers(g, w, u) == {}
  {
    assert NodeOk(g, u);
    WokenDepsExact(g, w, u);
  }

  lemma OtherOverlooks(g: Graph, e: Event, u: StepId)
    requires Inv(g) && Enabled(g, e) && u in Apply(g, e).live
    requires !e.CheckDeps? && !e.Wake? && !e.Sweep? && !e.ResolveKnown? && !e.ResolveFresh? && !e.CreateChild?
    ensures Overlooked(Apply(g, e), u) <==> Overlooked(g, u)
  {
    assert NodeOk(g, u);
  }

  lemma ResolveOverlooks(g: Graph, s: StepId, d: StepId, u: StepId)
    requires Inv(g) && s in g.steps && d in g.steps && g.steps[s].phase.Expanding?
    ensures Overlooked(Resolve(g, s, d), u) <==> Overlooked(g, u)
  {
    assert NodeOk(g, s);
    var h := Resolve(g, s, d);
    if h != Settle(g, s, d) && h != Record(g, s, d) {
      assert h == Put(g, s, g.steps[s].(phase := Stopped(true)));
    }
  }

  lemma ChildOverlooks(g: Graph, u: StepId, path: Path, id: StepId, x: StepId)
    requires Inv(g) && Enabled(g, CreateChild(u, path, id))
    ensures Overlooked(CreateChildOf(g, u, path, id), x) <==> Overlooked(g, x)
  {
    assert NodeOk(g, u) && NodeOk(g, x) && NodeOk(g, id);
  }

  lemma EventOverlooks(g: Graph, e: Event, u: StepId)
    requires Inv(g) && Enabled(g, e) && u in Apply(g, e).live
    ensures Overlooked(Apply(g, e), u) <==>
      (Overlooked(g, u) && !Wakes(g, e, u)) || exists x :: Misses(g, e, x, u)
  {
    if e.CheckDeps? {
      CheckOverlooks(g, e.s, u);
    } else if e.Wake? {
      WakeOverlooks(g, {e.s}, u);
    } else if e.Sweep? {
      WakeOverlooks(g, SweepSet(g), u);
    } else if e.ResolveKnown? || e.ResolveFresh? {
      ResolveOverlooks(g, e.s, e.d, u);
    } else if e.CreateChild? {
      ChildOverlooks(g, e.parent, e.path, e.id, u);
    } else {
      OtherOverlooks(g, e, u);
    }
  }

  /** In every reachable state a live step is overlooked if and only if its check of
      dependencies found another live object of its path in the set of new runnable
      steps, and no wake-up has come since. */
  lemma {:induction false} OverlookedExactly(gs: seq<Graph>, es: seq<Event>, i: nat, u: StepId)
    requires Run(gs, es) && i < |gs| && u in gs[i].live
    ensures Overlooked(gs[i], u) <==> Missed(gs, es, i, u)
  {
    if i > 0 {
      RunInv(gs, es, i - 1);
      assert NextAt(gs, es, i - 1);
      MissedNext(gs, es, i - 1, u);
      EventOverlooks(gs[i - 1], es[i - 1], u);
      if u in gs[i - 1].live {
        OverlookedExactly(gs, es, i - 1, u);
      } else {
        StepLater(gs, es, i - 1);
        assert LaterAt(gs[i - 1], gs[i], u);
        if Missed(gs, es, i - 1, u) { MissedIsOld(gs, es, i - 1, u); }
      }
    }
  }

  lemma MissedIsOld(gs: seq<Graph>, es: seq<Event>, i: nat, u: StepId)
    requires Run(gs, es) && i < |gs| && Missed(gs, es, i, u)
    ensures u in gs[i].steps
  {
    var j: nat, x :| MissedAt(gs, es, i, u, j, x);
    RunLater(gs, es, j, i);
    assert LaterAt(gs[j], gs[i], u);
  }

  /** In every reachable state each dependency carries the reverse edge that will
      wake its dependent, and a created step without dependencies is runnable or
      is about to be made so, unless it missed the set of its nest. A finished
      dependency is either being completed or, unless two live objects share a path,
      still registered for the sweep. */
  lemma NoLostWakeUp(gs: seq<Graph>, es: seq<Event>, i: nat, u: StepId)
    requires Run(gs, es) && i < |gs| && u in gs[i].live
    ensures u in gs[i].steps && gs[i].steps[u].deps <= gs[i].live && gs[i].live <= gs[i].steps.Keys
    ensures forall d :: d in gs[i].steps[u].deps ==>
      && u in gs[i].steps[d].rdeps
      && (gs[i].steps[d].finished && !gs[i].twins ==> d in gs[i].finishing || d in SweepSet(gs[i]))
    ensures gs[i].steps[u].created && gs[i].steps[u].deps == {} ==>
      (gs[i].steps[u].runnable || u in gs[i].newRunnable || gs[i].steps[u].phase.Marked? <==> !Missed(gs, es, i, u))
  {
    var g := gs[i];
    RunInv(gs, es, i);
    OverlookedExactly(gs, es, i, u);
    assert NodeOk(g, u);
    forall x | x in g.live ensures x in g.steps { assert NodeOk(g, x); }
    forall d | d in g.steps[u].deps
      ensures d in g.live && d in g.steps && u in g.steps[d].rdeps
      ensures g.steps[d].finished && !g.twins ==> d in g.finishing || d in SweepSet(g)
    {
      assert EdgeOk(g, d, u) && NodeOk(g, d);
    }
  }

  /** After the sweep no live step depends on a registered finished step, whenever
      that step was marked finished; without twins, only completions in flight
      are left. */
  lemma SweepWakes(gs: seq<Graph>, es: seq<Event>, i: nat, u: StepId, d: StepId)
    requires Run(gs, es) && i < |es| && es[i].Sweep?
    requires u in gs[i + 1].live && u in gs[i + 1].steps && d in gs[i + 1].steps[u].deps
    ensures d !in SweepSet(gs[i + 1])
    ensures d in gs[i + 1].steps && (gs[i + 1].steps[d].finished && !gs[i + 1].twins ==> d in gs[i + 1].finishing)
  {
    RunInv(gs, es, i);
    NoLostWakeUp(gs, es, i + 1, u);
    assert NextAt(gs, es, i);
    WakeAllKeeps(gs[i], SweepSet(gs[i]));
  }

  // ---- freedom from deadlock ----

  /** No creation failed: no unreadable derivation, cached failure or dropped future. */
  predicate CleanEvent(e: Event) {
    !e.Unreadable? && !e.CachedFailure? && !e.Cancel?
  }

  predicate CleanAt(g: Graph, u: StepId) {
    u in g.steps ==>
      && g.steps[u].phase != Stopped(true) && !g.steps[u].phase.Dropped?
      && (g.steps[u].phase == Stopped(false) ==> g.steps[u].finished)
  }

  lemma ResolveClean(g: Graph, e: Event, u: StepId)
    requires Inv(g) && Enabled(g, e) && (e.ResolveFresh? || e.ResolveKnown?) && CleanAt(g, e.d) && CleanAt(g, u)
    ensures CleanAt(Apply(g, e), u)
  {
    assert Apply(g, e) == Settle(g, e.s, e.d) || Apply(g, e) == Record(g, e.s, e.d);
  }

  lemma SpreadClean(g: Graph, e: Event, u: StepId)
    requires Inv(g) && Enabled(g, e) && (e.CreateTop? || e.CreateChild? || e.Wake? || e.Sweep?) && CleanAt(g, u)
    ensures CleanAt(Apply(g, e), u)
  {
  }

  lemma LocalClean(g: Graph, e: Event, u: StepId)
    requires Inv(g) && Enabled(g, e) && CleanEvent(e) && CleanAt(g, u) && NodeOk(g, u)
    requires !e.CreateTop? && !e.CreateChild? && !e.Wake? && !e.Sweep? && !e.ResolveKnown? && !e.ResolveFresh?
    ensures CleanAt(Apply(g, e), u)
  {
  }

  lemma EventClean(g: Graph, e: Event, u: StepId)
    requires Inv(g) && Enabled(g, e) && CleanEvent(e) && forall x :: CleanAt(g, x)
    ensures CleanAt(Apply(g, e), u)
  {
    assert NodeOk(g, u) && CleanAt(g, u);
    if e.ResolveFresh? || e.ResolveKnown? {
      ResolveClean(g, e, u);
    } else if e.CreateTop? || e.CreateChild? || e.Wake? || e.Sweep? {
      SpreadClean(g, e, u);
    } else {
      LocalClean(g, e, u);
    }
  }

  lemma {:induction false} RunClean(gs: seq<Graph>, es: seq<Event>, i: nat, u: StepId)
    requires Run(gs, es) && i < |gs| && forall k :: 0 <= k < i ==> CleanEvent(es[k])
    ensures CleanAt(gs[i], u)
  {
    if i > 0 {
      var g := gs[i - 1];
      forall x ensures CleanAt(g, x) { RunClean(gs, es, i - 1, x); }
      RunInv(gs, es, i - 1);
      assert NextAt(gs, es, i - 1);
      EventClean(g, es[i - 1], u);
    }
  }

  ghost predicate Acyclic(inputs: map<Path, set<Path>>, rank: Path -> nat) {
    forall p :: p in inputs ==> forall q :: q in inputs[p] ==> rank(q) < rank(p)
  }

  /** Something is outstanding at `r`: it can be dispatched, its completion or its
      creation is under way, or it is a finished dependency the sweep will see. */
  ghost predicate Outstanding(g: Graph, r: StepId) {
    && r in g.live && r in g.steps
    && ( || (g.steps[r].runnable && !g.steps[r].finished)
         || r in g.finishing
         || r in g.newRunnable
         || Active(g.steps[r])
         || (r in SweepSet(g) && exists u :: u in g.live && u in g.steps && r in g.steps[u].deps))
  }

  /** Somebody is going to act on `r`: the dispatcher only looks at registered steps. */
  ghost predicate Obligation(g: Graph, r: StepId) {
    Outstanding(g, r) && (g.steps[r].finished || Registered(g, r))
  }

  /** Every finished dependency is being completed or will be seen by the sweep. */
  ghost predicate AllSeen(g: Graph) {
    forall u, d :: u in g.live && u in g.steps && d in g.steps[u].deps && d in g.steps && g.steps[d].finished ==>
      d in g.finishing || d in SweepSet(g)
  }

  lemma SeenWithoutTwins(g: Graph)
    requires Inv(g) && !g.twins
    ensures AllSeen(g)
  {
    forall u, d | u in g.live && u in g.steps && d in g.steps[u].deps && d in g.steps && g.steps[d].finished
      ensures d in g.finishing || d in SweepSet(g)
    {
      assert EdgeOk(g, d, u) && NodeOk(g, d);
    }
  }

  lemma {:induction false} SomeoneActs(g: Graph, rank: Path -> nat, s: StepId) returns (r: StepId)
    requires Inv(g) && !g.twins && AllSeen(g) && Acyclic(g.inputs, rank) && forall u :: CleanAt(g, u)
    requires s in g.live && s in g.steps && !g.steps[s].finished
    ensures Reaches(DepEdges(g), s, r) && Outstanding(g, r)
    ensures Registered(g, s) ==> Obligation(g, r)
    decreases rank(g.steps[s].path)
  {
    assert NodeOk(g, s) && CleanAt(g, s);
    ReachesSelf(DepEdges(g), s);
    r := s;
    if !Active(g.steps[s]) && g.steps[s].deps != {} {
      var d :| d in g.steps[s].deps;
      assert EdgeOk(g, d, s) && NodeOk(g, d) && CleanAt(g, d);
      if g.steps[d].finished {
        r := d;
        ReachesThen(DepEdges(g), s, s, d);
      } else {
        r := SomeoneActs(g, rank, d);
        assert d in Succ(DepEdges(g), s);
        ReachesFrom(DepEdges(g), s, d, r);
      }
    }
  }

  /** In every reachable state of a run without failed creations over an acyclic
      set of derivations, every live unfinished step reaches, over dependencies,
      something outstanding; and if it is registered, something that somebody is
      going to act on. */
  lemma DeadlockFree(gs: seq<Graph>, es: seq<Event>, i: nat, rank: Path -> nat, s: StepId)
    requires Run(gs, es) && i < |gs| && (forall k :: 0 <= k < i ==> CleanEvent(es[k]))
    requires !gs[i].twins && Acyclic(gs[i].inputs, rank)
    requires s in gs[i].live && s in gs[i].steps && !gs[i].steps[s].finished
    ensures exists r :: && Reaches(DepEdges(gs[i]), s, r) && Outstanding(gs[i], r)
                        && (Registered(gs[i], s) ==> Obligation(gs[i], r))
  {
    RunInv(gs, es, i);
    forall u ensures CleanAt(gs[i], u) { RunClean(gs, es, i, u); }
    SeenWithoutTwins(gs[i]);
    var r := SomeoneActs(gs[i], rank, s);
  }

  /** After a sweep with no creation under way the step waits for nothing but a
      runnable step, registered if the waiting one is, or a completion in flight. */
  lemma DeadlockFreeAfterSweep(gs: seq<Graph>, es: seq<Event>, i: nat, rank: Path -> nat, s: StepId)
    requires Run(gs, es) && i < |es| && es[i].Sweep? && (forall k :: 0 <= k < i ==> CleanEvent(es[k]))
    requires var g := gs[i + 1];
      && !g.twins && Acyclic(g.inputs, rank) && g.newRunnable == {}
      && (forall u :: u in g.steps ==> !Active(g.steps[u]))
      && s in g.live && s in g.steps && !g.steps[s].finished
    ensures var g := gs[i + 1];
      exists r :: && Reaches(DepEdges(g), s, r) && r in g.live && r in g.steps
                  && (r in g.finishing ||
                      (g.steps[r].runnable && !g.steps[r].finished && (Registered(g, s) ==> Registered(g, r))))
  {
    var g := gs[i + 1];
    DeadlockFree(gs, es, i + 1, rank, s);
    var r :| Reaches(DepEdges(g), s, r) && Outstanding(g, r) && (Registered(g, s) ==> Obligation(g, r));
    if r in SweepSet(g) && exists u :: u in g.live && u in g.steps && r in g.steps[u].deps {
      var u :| u in g.live && u in g.steps && r in g.steps[u].deps;
      SweepWakes(gs, es, i, u, r);
    }
  }
}
