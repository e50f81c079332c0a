/** Every event of the step graph keeps the invariant. */
module StepGraphInvariant {
  import opened Reachability
  import opened StepGraph

  // ---- events that change the record of one step ----

  /** `h` is `g` but for step `s`, whose path and dependents are the same. */
  predicate OnlyChanged(g: Graph, h: Graph, s: StepId) {
    && s in g.steps && s in h.steps
    && h == g.(steps := g.steps[s := h.steps[s]], newRunnable := h.newRunnable, finishing := h.finishing,
               finishedDrvs := h.finishedDrvs)
    && h.newRunnable - {s} == g.newRunnable - {s} && h.finishing - {s} == g.finishing - {s}
    && h.steps[s].path == g.steps[s].path && h.steps[s].rdeps == g.steps[s].rdeps
  }

  lemma LocalKeeps(g: Graph, h: Graph, s: StepId)
    requires Inv(g) && OnlyChanged(g, h, s)
    requires NodeOk(h, s) && forall t :: EdgeOk(h, t, s) && EdgeOk(h, s, t)
    ensures Inv(h)
  {
    assert forall u :: u != s ==>
        (u in h.newRunnable <==> u in g.newRunnable) && (u in h.finishing <==> u in g.finishing) by {
      forall u | u != s
        ensures (u in h.newRunnable <==> u in g.newRunnable) && (u in h.finishing <==> u in g.finishing) {
        assert u in h.newRunnable - {s} <==> u in g.newRunnable - {s};
        assert u in h.finishing - {s} <==> u in g.finishing - {s};
      }
    }
    forall u ensures NodeOk(h, u) { assert NodeOk(g, u); }
    forall t, u ensures EdgeOk(h, t, u) { assert EdgeOk(g, t, u); assert u == s ==> EdgeOk(h, t, s); }
    forall a, b, u ensures OnceOk(h, a, b, u) { assert OnceOk(g, a, b, u); }
    forall a, b ensures TwinOk(h, a, b) { assert TwinOk(g, a, b); }
    forall p ensures RegistryOk(h, p) { assert RegistryOk(g, p); }
  }

  lemma DecidesKeeps(g: Graph, e: Event)
    requires Inv(g) && Enabled(g, e)
    requires e.Unreadable? || e.CachedFailure? || e.Substituted? || e.Expand?
    ensures Inv(Apply(g, e))
  {
    var h := Apply(g, e);
    assert NodeOk(g, e.s);
    forall t ensures EdgeOk(h, t, e.s) && EdgeOk(h, e.s, t) {
      assert NodeOk(g, t) && EdgeOk(g, t, e.s) && EdgeOk(g, e.s, t);
    }
    LocalKeeps(g, h, e.s);
  }

  lemma SkipChildKeeps(g: Graph, u: StepId, path: Path)
    requires Inv(g) && Enabled(g, SkipChild(u, path))
    ensures Inv(Apply(g, SkipChild(u, path)))
  {
    var h := Apply(g, SkipChild(u, path));
    assert NodeOk(g, u);
    forall t ensures EdgeOk(h, t, u) && EdgeOk(h, u, t) {
      assert NodeOk(g, t) && EdgeOk(g, t, u) && EdgeOk(g, u, t);
    }
    LocalKeeps(g, h, u);
  }

  lemma AdvancesKeeps(g: Graph, e: Event)
    requires Inv(g) && Enabled(g, e)
    requires e.MarkCreated? || e.MakeRunnable?
    ensures Inv(Apply(g, e))
  {
    var h := Apply(g, e);
    assert NodeOk(g, e.s);
    forall t ensures EdgeOk(h, t, e.s) && EdgeOk(h, e.s, t) {
      assert NodeOk(g, t) && EdgeOk(g, t, e.s) && EdgeOk(g, e.s, t);
    }
    LocalKeeps(g, h, e.s);
  }

  /** Whatever keeps a step out of the set is another live object of its path. */
  lemma SetHasTwin(g: Graph, s: StepId)
    requires Inv(g) && s in g.steps && g.steps[s].phase.Marked?
    ensures SetHas(g, s) ==> g.twins
  {
    assert NodeOk(g, s);
    forall x | x in g.newRunnable && x in g.steps && g.steps[x].path == g.steps[s].path ensures g.twins {
      assert NodeOk(g, x) && TwinOk(g, x, s);
    }
  }

  lemma EndsKeeps(g: Graph, e: Event)
    requires Inv(g) && Enabled(g, e)
    requires e.CheckDeps? || e.Finish?
    ensures Inv(Apply(g, e))
  {
    var h := Apply(g, e);
    assert NodeOk(g, e.s);
    if e.CheckDeps? { SetHasTwin(g, e.s); }
    forall t ensures EdgeOk(h, t, e.s) && EdgeOk(h, e.s, t) {
      assert NodeOk(g, t) && EdgeOk(g, t, e.s) && EdgeOk(g, e.s, t);
    }
    LocalKeeps(g, h, e.s);
  }

  // ---- the three outcomes of looking at an input ----

  lemma StopKeeps(g: Graph, s: StepId, phase: Phase)
    requires Inv(g) && s in g.steps && (g.steps[s].phase.Deciding? || g.steps[s].phase.Expanding?)
    requires phase == Stopped(true) || phase == Dropped
    ensures Inv(Put(g, s, g.steps[s].(phase := phase)))
  {
    var h := Put(g, s, g.steps[s].(phase := phase));
    assert NodeOk(g, s);
    forall t ensures EdgeOk(h, t, s) && EdgeOk(h, s, t) {
      assert EdgeOk(g, t, s) && EdgeOk(g, s, t);
    }
    LocalKeeps(g, h, s);
  }

  lemma SettleKeeps(g: Graph, s: StepId, d: StepId)
    requires Inv(g) && s in g.steps && g.steps[s].phase.Expanding? && d in g.steps && !Viable(g.steps[d])
    ensures Inv(Settle(g, s, d))
  {
    var h := Settle(g, s, d);
    assert NodeOk(g, s);
    forall t ensures EdgeOk(h, t, s) && EdgeOk(h, s, t) {
      assert EdgeOk(g, t, s) && EdgeOk(g, s, t);
    }
    LocalKeeps(g, h, s);
  }

  lemma RecordKeeps(g: Graph, s: StepId, d: StepId)
    requires Inv(g) && s in g.steps && g.steps[s].phase.Expanding? && d in Pending(g.steps[s])
    requires d in g.steps && !g.steps[d].finished
    ensures Inv(Record(g, s, d))
  {
    var h := Record(g, s, d);
    assert NodeOk(g, s);
    forall t ensures EdgeOk(h, t, s) && EdgeOk(h, s, t) {
      assert EdgeOk(g, t, s) && EdgeOk(g, s, t);
    }
    LocalKeeps(g, h, s);
  }

  lemma ResolveKeeps(g: Graph, s: StepId, d: StepId)
    requires Inv(g) && s in g.steps && g.steps[s].phase.Expanding? && d in g.steps && d in Pending(g.steps[s])
    ensures Inv(Resolve(g, s, d))
  {
    if d in g.steps[s].phase.made && g.steps[d].phase == Stopped(true) {
      StopKeeps(g, s, Stopped(true));
    } else if !Viable(g.steps[d]) && Resolve(g, s, d) == Settle(g, s, d) {
      SettleKeeps(g, s, d);
    } else {
      RecordKeeps(g, s, d);
    }
  }

  // ---- the registry and ownership ----

  lemma CreateTopKeeps(g: Graph, path: Path, id: StepId, n: NestId)
    requires Inv(g) && id !in g.steps
    ensures Inv(Obtain(g, path, id, n))
  {
    var h := Obtain(g, path, id, n);
    forall u ensures NodeOk(h, u) { assert NodeOk(g, u); }
    forall t, u ensures EdgeOk(h, t, u) { assert NodeOk(g, t) && NodeOk(g, u) && EdgeOk(g, t, u); }
    forall a, b, u ensures OnceOk(h, a, b, u) { assert OnceOk(g, a, b, u) && EdgeOk(g, a, u) && EdgeOk(g, b, u); }
    forall a, b ensures TwinOk(h, a, b) { assert TwinOk(g, a, b); }
    forall p ensures RegistryOk(h, p) { assert RegistryOk(g, p); }
  }

  lemma FreeKeeps(g: Graph, s: StepId)
    requires Inv(g) && Enabled(g, Free(s))
    ensures Inv(Apply(g, Free(s)))
  {
    var h := Apply(g, Free(s));
    forall u ensures NodeOk(h, u) { assert NodeOk(g, u); }
    forall t, u ensures EdgeOk(h, t, u) { assert NodeOk(g, t) && NodeOk(g, u) && EdgeOk(g, t, u); }
    forall a, b, u ensures OnceOk(h, a, b, u) { assert OnceOk(g, a, b, u); }
    forall a, b ensures TwinOk(h, a, b) { assert TwinOk(g, a, b); }
    forall p ensures RegistryOk(h, p) { assert RegistryOk(g, p); }
  }

  // ---- one call for one input ----

  ghost predicate Linkable(g: Graph, u: StepId, path: Path, d: StepId) {
    && Inv(g) && u in g.steps && g.steps[u].phase.Expanding? && path in g.steps[u].phase.todo
    && d in g.steps && d in g.live && Registered(g, d) && g.steps[d].path == path
  }

  /** Edges into the parent. */
  lemma LinkEdgeIn(g: Graph, u: StepId, path: Path, d: StepId, isNew: bool, t: StepId)
    requires Linkable(g, u, path, d)
    ensures EdgeOk(Link(g, u, path, d, isNew), t, u)
  {
    assert NodeOk(g, u) && NodeOk(g, d) && EdgeOk(g, t, u);
  }

  /** Edges into any other step. */
  lemma LinkEdgeOther(g: Graph, u: StepId, path: Path, d: StepId, isNew: bool, t: StepId, x: StepId)
    requires Linkable(g, u, path, d) && x != u
    ensures EdgeOk(Link(g, u, path, d, isNew), t, x)
  {
    assert EdgeOk(g, t, x);
  }

  lemma LinkKeeps(g: Graph, u: StepId, path: Path, d: StepId, isNew: bool)
    requires Linkable(g, u, path, d)
    ensures Inv(Link(g, u, path, d, isNew))
  {
    var h := Link(g, u, path, d, isNew);
    assert NodeOk(g, u) && NodeOk(g, d);
    forall x ensures NodeOk(h, x) { assert NodeOk(g, x); }
    forall t, x ensures EdgeOk(h, t, x) {
      if x == u { LinkEdgeIn(g, u, path, d, isNew, t); } else { LinkEdgeOther(g, u, path, d, isNew, t, x); }
    }
    forall a, b, x ensures OnceOk(h, a, b, x) {
      assert OnceOk(g, a, b, x) && EdgeOk(g, a, x) && EdgeOk(g, b, x);
    }
    forall a, b ensures TwinOk(h, a, b) { assert TwinOk(g, a, b); }
    forall p ensures RegistryOk(h, p) { assert RegistryOk(g, p); }
  }

  lemma CreateChildKeeps(g: Graph, u: StepId, path: Path, id: StepId)
    requires Inv(g) && Enabled(g, CreateChild(u, path, id))
    ensures Inv(Apply(g, CreateChild(u, path, id)))
  {
    assert RegistryOk(g, path) && NodeOk(g, u);
    CreateTopKeeps(g, path, id, g.steps[u].nest);
    LinkKeeps(Obtain(g, path, id, g.steps[u].nest), u, path, Obtained(g, path, id), !Known(g, path));
  }

  // ---- waking dependents ----

  /** By-path removal drops exactly the wakers: a dependent lists one object per path. */
  lemma WokenDepsExact(g: Graph, w: set<StepId>, u: StepId)
    requires Inv(g) && u in g.live && u in g.steps
    ensures WokenDeps(g, w, u) == g.steps[u].deps - Wakers(g, w, u)
  {
    forall d | d in g.steps[u].deps
      ensures d in WokenDeps(g, w, u) <==> d !in Wakers(g, w, u)
    {
      assert EdgeOk(g, d, u);
      forall x | x in Wakers(g, w, u) && g.steps[x].path == g.steps[d].path ensures x == d {
        assert OnceOk(g, x, d, u);
      }
    }
  }

  lemma WakeAllEdge(g: Graph, w: set<StepId>, t: StepId, u: StepId)
    requires Inv(g) && forall x :: x in w ==> x in g.steps && g.steps[x].finished
    ensures EdgeOk(WakeAll(g, w), t, u)
  {
    assert NodeOk(g, t) && NodeOk(g, u) && EdgeOk(g, t, u);
    if u in g.live && u in g.steps { WokenDepsExact(g, w, u); }
  }

  lemma WakeAllKeeps(g: Graph, w: set<StepId>)
    requires Inv(g) && forall x :: x in w ==> x in g.steps && g.steps[x].finished
    ensures Inv(WakeAll(g, w))
    ensures forall u, x :: x in w && x in g.steps && u in g.live && u in g.steps ==>
      x !in WakeAll(g, w).steps[u].deps
  {
    var h := WakeAll(g, w);
    forall u ensures NodeOk(h, u) {
      assert NodeOk(g, u);
      if u in g.live && u in g.steps { WokenDepsExact(g, w, u); }
    }
    forall t, u ensures EdgeOk(h, t, u) { WakeAllEdge(g, w, t, u); }
    forall a, b, u ensures OnceOk(h, a, b, u) { assert OnceOk(g, a, b, u); }
    forall a, b ensures TwinOk(h, a, b) { assert TwinOk(g, a, b); }
    forall p ensures RegistryOk(h, p) { assert RegistryOk(g, p); }
    forall u, x | x in w && x in g.steps && u in g.live && u in g.steps
      ensures x !in h.steps[u].deps
    {
      WokenDepsExact(g, w, u);
      assert EdgeOk(g, x, u);
    }
  }

  lemma WakeKeeps(g: Graph, s: StepId)
    requires Inv(g) && Enabled(g, Wake(s))
    ensures Inv(Apply(g, Wake(s)))
  {
    assert NodeOk(g, s);
    WakeAllKeeps(g, {s});
    var m := WakeAll(g, {s});
    var h := Apply(g, Wake(s));
    forall u ensures NodeOk(h, u) { assert NodeOk(m, u); }
    forall t, u ensures EdgeOk(h, t, u) { assert EdgeOk(m, t, u); }
    forall a, b, u ensures OnceOk(h, a, b, u) { assert OnceOk(m, a, b, u); }
    forall a, b ensures TwinOk(h, a, b) { assert TwinOk(m, a, b); }
    forall p ensures RegistryOk(h, p) { assert RegistryOk(m, p); }
  }

  // ---- leaving the registry ----

  lemma UnregisterKeeps(g: Graph, s: StepId)
    requires Inv(g) && Enabled(g, Unregister(s))
    ensures Inv(Apply(g, Unregister(s)))
  {
    var h := Apply(g, Unregister(s));
    assert NodeOk(g, s);
    forall u ensures NodeOk(h, u) { assert NodeOk(g, u) && TwinOk(g, u, s); }
    forall t, u ensures EdgeOk(h, t, u) { assert EdgeOk(g, t, u) && TwinOk(g, t, s); }
    forall a, b, u ensures OnceOk(h, a, b, u) { assert OnceOk(g, a, b, u); }
    forall a, b ensures TwinOk(h, a, b) { assert TwinOk(g, a, b); }
    forall p ensures RegistryOk(h, p) { assert RegistryOk(g, p); }
  }

  lemma PruneKeeps(g: Graph)
    requires Inv(g)
    ensures Inv(Pruned(g))
  {
    var h := Pruned(g);
    forall u ensures NodeOk(h, u) { assert NodeOk(g, u); }
    forall t, u ensures EdgeOk(h, t, u) { assert EdgeOk(g, t, u); }
    forall a, b, u ensures OnceOk(h, a, b, u) { assert OnceOk(g, a, b, u); }
    forall a, b ensures TwinOk(h, a, b) { assert TwinOk(g, a, b); }
    forall p ensures RegistryOk(h, p) { assert RegistryOk(g, p); }
  }

  /** Whatever a runnable step reaches over reverse edges has enumerated its inputs. */
  lemma DependentsExpanded(g: Graph, f: StepId, t: StepId)
    requires Inv(g) && f in g.steps && g.steps[f].runnable && Reaches(RdepEdges(g), f, t)
    ensures t in g.steps && g.steps[t].expanded
  {
    var s := set x | x in g.steps && g.steps[x].expanded;
    assert NodeOk(g, f);
    forall x | x in s ensures Succ(RdepEdges(g), x) <= s {
      forall y | y in Succ(RdepEdges(g), x) ensures y in s { assert EdgeOk(g, x, y); }
    }
    ClosedUnderReach(RdepEdges(g), s, f, t);
  }

  lemma FailKeeps(g: Graph, f: StepId, v: set<StepId>)
    requires Inv(g) && Enabled(g, Fail(f, v))
    ensures Inv(Apply(g, Fail(f, v)))
  {
    var h := Apply(g, Fail(f, v));
    forall u ensures NodeOk(h, u) {
      assert NodeOk(g, u);
      if !g.twins && u in g.live && g.steps[u].path in PathsOf(g, v) {
        var x :| x in v && x in g.steps && g.steps[x].path == g.steps[u].path;
        assert TwinOk(g, x, u);
        DependentsExpanded(g, f, x);
      }
    }
    forall t, u ensures EdgeOk(h, t, u) {
      assert NodeOk(g, t) && EdgeOk(g, t, u);
      if !g.twins && t in g.live && u in g.live && u in g.steps[t].rdeps && g.steps[t].path in PathsOf(g, v) {
        var x :| x in v && x in g.steps && g.steps[x].path == g.steps[t].path;
        assert TwinOk(g, x, t);
        assert u in LiveRdeps(g, t);
      }
    }
    forall a, b, u ensures OnceOk(h, a, b, u) { assert OnceOk(g, a, b, u); }
    forall a, b ensures TwinOk(h, a, b) { assert TwinOk(g, a, b); }
    forall p ensures RegistryOk(h, p) { assert RegistryOk(g, p); }
  }

  // ---- all events ----

  /** Nests that are over and derivations known to be finished do not matter. */
  lemma ForgetFinishedKeeps(g: Graph, h: Graph)
    requires Inv(g) && h == g.(finishedDrvs := h.finishedDrvs, closed := h.closed)
    ensures Inv(h)
  {
    forall u ensures NodeOk(h, u) { assert NodeOk(g, u); }
    forall t, u ensures EdgeOk(h, t, u) { assert EdgeOk(g, t, u); }
    forall a, b, u ensures OnceOk(h, a, b, u) { assert OnceOk(g, a, b, u); }
    forall a, b ensures TwinOk(h, a, b) { assert TwinOk(g, a, b); }
    forall p ensures RegistryOk(h, p) { assert RegistryOk(g, p); }
  }

  lemma EventKeeps(g: Graph, e: Event)
    requires Inv(g) && Enabled(g, e)
    ensures Inv(Apply(g, e))
  {
    match e
    case CreateTop(path, id, n) => CreateTopKeeps(g, path, id, n);
    case CreateChild(u, path, id) => CreateChildKeeps(g, u, path, id);
    case SkipChild(u, path) => SkipChildKeeps(g, u, path);
    case ForgetFinished => ForgetFinishedKeeps(g, Apply(g, e));
    case Unreadable(_) => DecidesKeeps(g, e);
    case CachedFailure(_) => DecidesKeeps(g, e);
    case Substituted(_) => DecidesKeeps(g, e);
    case Expand(_) => DecidesKeeps(g, e);
    case ResolveKnown(s, d) => ResolveKeeps(g, s, d);
    case ResolveFresh(s, d) => ResolveKeeps(g, s, d);
    case MarkCreated(_) => AdvancesKeeps(g, e);
    case CheckDeps(_) => EndsKeeps(g, e);
    case Close(_) => ForgetFinishedKeeps(g, Apply(g, e));
    case MakeRunnable(_) => AdvancesKeeps(g, e);
    case Cancel(s) => StopKeeps(g, s, Dropped);
    case Free(s) => FreeKeeps(g, s);
    case Finish(_) => EndsKeeps(g, e);
    case Unregister(s) => UnregisterKeeps(g, s);
    case Wake(s) => WakeKeeps(g, s);
    case Sweep => WakeAllKeeps(g, SweepSet(g));
    case Prune => PruneKeeps(g);
    case Fail(f, v) => FailKeeps(g, f, v);
  }

  lemma InitHolds(inputs: map<Path, set<Path>>)
    ensures Inv(Init(inputs))
  {
    var g := Init(inputs);
    assert forall u :: NodeOk(g, u);
    assert forall t, u :: EdgeOk(g, t, u);
  }
}
