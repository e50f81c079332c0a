/**
 Priorities over whole runs: builds are tracked and propagated while the step graph they
 stand on is still being created, finished and freed by others.
 */
module PriorityRuns {
  import opened Reachability
  import opened StepGraph
  import opened StepGraphInvariant
  import opened StepGraphTheorems
  import P = Priorities

  type BuildId = P.BuildId

  const MAX_ID := 2147483647

  /** The priorities of a new step. */
  const FRESH := P.Prio(0, 0, MAX_ID, {})

  datatype State = State(g: Graph, prio: map<StepId, P.Prio>, builds: map<BuildId, P.Build>)

  /** A build is tracked, then its top-level step is set and it is propagated; a
      priority rises and is propagated again; a build ends; the graph moves on. A pass
      touches the steps of `done`. */
  datatype Change =
    | GraphChange(e: Event)
    | Track(b: P.Build)
    | Attach(id: BuildId, s: StepId, done: set<StepId>)
    | Rise(id: BuildId, global: int, done: set<StepId>)
    | Finish(id: BuildId)

  /** What a pass reads: the live steps and their dependencies. */
  function DepsOf(g: Graph): P.Deps {
    P.Deps(map s | s in g.live && s in g.steps :: g.steps[s].path,
           map s | s in g.live && s in g.steps :: g.steps[s].deps)
  }

  function Grown(prio: map<StepId, P.Prio>, g: Graph): map<StepId, P.Prio> {
    map s | s in g.steps :: if s in prio then prio[s] else FRESH
  }

  /** The build a change propagates. */
  function Spread(x: State, e: Change): P.Build
    requires (e.Attach? || e.Rise?) && e.id in x.builds
  {
    if e.Attach? then x.builds[e.id].(toplevel := [e.s]) else x.builds[e.id].(global := e.global)
  }

  ghost predicate Possible(x: State, e: Change) {
    match e
    case GraphChange(v) => Enabled(x.g, v) && (v.Free? ==> forall i :: i in x.builds ==> v.s !in x.builds[i].toplevel)
    case Track(b) => b.toplevel == []
    case Attach(i, s, done) => i in x.builds && s in x.g.live && P.PassOver(DepsOf(x.g), Spread(x, e), done)
    case Rise(i, global, done) =>
      i in x.builds && x.builds[i].global < global && P.PassOver(DepsOf(x.g), Spread(x, e), done)
    case Finish(_) => true
  }

  ghost function After(x: State, e: Change): State
    requires Possible(x, e)
  {
    match e
    case GraphChange(v) => var h := Apply(x.g, v); State(h, Grown(x.prio, h), x.builds)
    case Track(b) => x.(builds := x.builds[b.id := b])
    case Attach(i, _, done) => x.(prio := P.Raise(x.prio, done, Spread(x, e)), builds := x.builds[i := Spread(x, e)])
    case Rise(i, _, done) => x.(prio := P.Raise(x.prio, done, Spread(x, e)), builds := x.builds[i := Spread(x, e)])
    case Finish(i) => x.(builds := x.builds - {i})
  }

  ghost predicate Run(xs: seq<State>, es: seq<Change>) {
    && |xs| == |es| + 1
    && xs[0] == State(Init(xs[0].g.inputs), map[], map[])
    && forall k :: 0 <= k < |es| ==> NextAt(xs, es, k)
  }

  ghost predicate NextAt(xs: seq<State>, es: seq<Change>, k: nat)
    requires |xs| == |es| + 1 && k < |es|
  {
    Possible(xs[k], es[k]) && xs[k + 1] == After(xs[k], es[k])
  }

  // ---- the invariant ----

  /** Builds own their top-level steps, and every step has priorities. */
  ghost predicate Ok(x: State) {
    && Inv(x.g) && x.prio.Keys == x.g.steps.Keys
    && forall i :: i in x.builds ==>
         |x.builds[i].toplevel| <= 1 && forall s :: s in x.builds[i].toplevel ==> s in x.g.live
  }

  lemma DepsValid(g: Graph)
    requires Inv(g)
    ensures P.Valid(DepsOf(g))
  {
    var d := DepsOf(g);
    forall s | s in d.paths ensures Succ(d.edges, s) <= d.paths.Keys {
      forall t | t in Succ(d.edges, s) ensures t in d.paths { assert EdgeOk(g, t, s) && NodeOk(g, t); }
    }
    forall s, a, b | s in d.paths && a in Succ(d.edges, s) && b in Succ(d.edges, s) && a in d.paths && b in d.paths
      && d.paths[a] == d.paths[b]
      ensures a == b
    {
      assert EdgeOk(g, a, s) && EdgeOk(g, b, s) && OnceOk(g, a, b, s);
    }
  }

  lemma TopValid(x: State, b: P.Build)
    requires Ok(x) && |b.toplevel| <= 1 && forall s :: s in b.toplevel ==> s in x.g.live
    ensures P.ValidBuild(DepsOf(x.g), b)
  {
    if b.toplevel != [] { assert NodeOk(x.g, b.toplevel[0]); }
  }

  lemma GraphOk(x: State, v: Event)
    requires Ok(x) && Possible(x, GraphChange(v))
    ensures Ok(After(x, GraphChange(v)))
  {
    var h := Apply(x.g, v);
    EventKeeps(x.g, v);
    EventLater(x.g, v);
    forall i, s | i in x.builds && s in x.builds[i].toplevel ensures s in h.live {
      if v.ResolveKnown? || v.ResolveFresh? { ResolveLive(x.g, v.s, v.d); }
    }
    assert Grown(x.prio, h).Keys == h.steps.Keys;
  }

  lemma ResolveLive(g: Graph, s: StepId, d: StepId)
    requires s in g.steps && d in g.steps && g.steps[s].phase.Expanding?
    ensures Resolve(g, s, d).live == g.live && Resolve(g, s, d).steps.Keys == g.steps.Keys
  {
    var h := Resolve(g, s, d);
    if h != Settle(g, s, d) && h != Record(g, s, d) {
      assert h == Put(g, s, g.steps[s].(phase := Stopped(true)));
    }
  }

  lemma OkKept(x: State, e: Change)
    requires Ok(x) && Possible(x, e)
    ensures Ok(After(x, e))
  {
    if e.GraphChange? { GraphOk(x, e.e); }
  }

  lemma {:induction false} RunOk(xs: seq<State>, es: seq<Change>, k: nat)
    requires Run(xs, es) && k < |xs|
    ensures Ok(xs[k])
  {
    if k == 0 {
      InitHolds(xs[0].g.inputs);
    } else {
      RunOk(xs, es, k - 1);
      assert NextAt(xs, es, k - 1);
      OkKept(xs[k - 1], es[k - 1]);
    }
  }

  // ---- what builds promise their steps ----

  /** The step has at least the build's priorities, at most its id, and its jobset. */
  predicate Carries(p: P.Prio, b: P.Build) {
    p.highestGlobal >= b.global && p.highestLocal >= b.local && p.lowestBuild <= b.id && b.jobset in p.jobsets
  }

  ghost predicate CarriesFor(x: State, b: P.Build) {
    forall s :: P.Below(DepsOf(x.g), b, s) && s in x.prio ==> Carries(x.prio[s], b)
  }

  ghost predicate CarriesAll(x: State) {
    forall i :: i in x.builds ==> CarriesFor(x, x.builds[i])
  }

  /** The change records a dependency. */
  predicate Records(g: Graph, e: Change) {
    && e.GraphChange? && (e.e.ResolveKnown? || e.e.ResolveFresh?)
    && e.e.s in g.steps && e.e.d in g.steps && g.steps[e.e.s].phase.Expanding?
    && Resolve(g, e.e.s, e.e.d) == Record(g, e.e.s, e.e.d)
  }

  /** What keeps the promise at one change. A pass reaches every step below its build
      that does not carry it yet; and what a step depends on from now on carries every
      build the step is below. */
  ghost predicate Safe(x: State, e: Change) {
    && ((e.Attach? || e.Rise?) && e.id in x.builds ==>
          forall s :: P.Below(DepsOf(x.g), Spread(x, e), s) && s in x.prio ==>
            s in e.done || Carries(x.prio[s], Spread(x, e)))
    && (Records(x.g, e) ==>
          forall i, s :: i in x.builds && P.Below(DepsOf(x.g), x.builds[i], e.e.s)
                         && Reaches(DepsOf(Record(x.g, e.e.s, e.e.d)).edges, e.e.d, s) && s in x.prio ==>
            Carries(x.prio[s], x.builds[i]))
  }

  // ---- passes ----

  lemma BumpCarries(p: P.Prio, b: P.Build, o: P.Build)
    ensures Carries(P.Bump(p, b), b)
    ensures Carries(p, o) ==> Carries(P.Bump(p, b), o)
  {
  }

  /** A pass keeps what other builds promise, and keeps the promise of its own build if
      and only if it reaches every step that does not carry the build yet. */
  lemma PassCarriesExactly(x: State, e: Change)
    requires Ok(x) && Possible(x, e) && (e.Attach? || e.Rise?)
    requires forall i :: i in x.builds && i != e.id ==> CarriesFor(x, x.builds[i])
    ensures CarriesAll(After(x, e)) <==> Safe(x, e)
  {
    var y, b := After(x, e), Spread(x, e);
    assert b == y.builds[e.id];
    forall i, s | i in y.builds && i != e.id && P.Below(DepsOf(y.g), y.builds[i], s) && s in y.prio
      ensures Carries(y.prio[s], y.builds[i])
    {
      assert CarriesFor(x, x.builds[i]);
      BumpCarries(x.prio[s], b, x.builds[i]);
    }
    forall s | s in x.prio ensures Carries(y.prio[s], b) <==> s in e.done || Carries(x.prio[s], b) {
      BumpCarries(x.prio[s], b, b);
    }
    if CarriesAll(y) { assert CarriesFor(y, b); }
  }

  // ---- changes of the graph ----

  /** No dependency of an old step was added, and new steps have none. */
  ghost predicate NoMoreDeps(g: Graph, h: Graph) {
    && (forall s :: s in g.live && s in g.steps && s in h.steps ==> h.steps[s].deps <= g.steps[s].deps)
    && (forall s :: s in h.live && s in h.steps && (s !in g.live || s !in g.steps) ==> h.steps[s].deps == {})
  }

  lemma RecordOrNot(g: Graph, v: Event)
    requires Inv(g) && Enabled(g, v)
    ensures Records(g, GraphChange(v)) || NoMoreDeps(g, Apply(g, v))
  {
    if v.ResolveKnown? || v.ResolveFresh? {
      var h := Resolve(g, v.s, v.d);
      if h != Settle(g, v.s, v.d) && h != Record(g, v.s, v.d) {
        assert h == Put(g, v.s, g.steps[v.s].(phase := Stopped(true)));
      }
    } else if v.Wake? || v.Sweep? {
      assert NoMoreDeps(g, Apply(g, v));
    } else {
      OtherNoMore(g, v);
    }
  }

  lemma OtherNoMore(g: Graph, v: Event)
    requires Inv(g) && Enabled(g, v) && !v.ResolveKnown? && !v.ResolveFresh? && !v.Wake? && !v.Sweep?
    ensures NoMoreDeps(g, Apply(g, v))
  {
    EventLater(g, v);
    var h := Apply(g, v);
    if v.CreateTop? || v.CreateChild? {
      CreateNoMore(g, v);
    } else {
      assert NoMoreDeps(g, h);
    }
  }

  lemma CreateNoMore(g: Graph, v: Event)
    requires Inv(g) && Enabled(g, v) && (v.CreateTop? || v.CreateChild?)
    ensures NoMoreDeps(g, Apply(g, v))
  {
  }

  lemma {:induction false} FewerReached(g: Graph, h: Graph, w: seq<StepId>)
    requires NoMoreDeps(g, h) && Walk(DepsOf(h).edges, w)
    ensures Walk(DepsOf(g).edges, w)
  {
    forall i | 0 <= i < |w| - 1 ensures w[i + 1] in Succ(DepsOf(g).edges, w[i]) {
      assert w[i + 1] in Succ(DepsOf(h).edges, w[i]);
    }
  }

  lemma FewerBelow(g: Graph, h: Graph, b: P.Build, s: StepId)
    requires NoMoreDeps(g, h) && P.Below(DepsOf(h), b, s)
    ensures P.Below(DepsOf(g), b, s)
  {
    var w :| WalkBetween(DepsOf(h).edges, w, b.toplevel[0], s);
    FewerReached(g, h, w);
    assert WalkBetween(DepsOf(g).edges, w, b.toplevel[0], s);
  }

  lemma GraphCarries(x: State, v: Event)
    requires Ok(x) && Possible(x, GraphChange(v)) && CarriesAll(x) && !Records(x.g, GraphChange(v))
    ensures CarriesAll(After(x, GraphChange(v)))
  {
    var y := After(x, GraphChange(v));
    RecordOrNot(x.g, v);
    forall i, s | i in y.builds && P.Below(DepsOf(y.g), y.builds[i], s) && s in y.prio
      ensures Carries(y.prio[s], y.builds[i]) {
      FewerBelow(x.g, y.g, y.builds[i], s);
      BelowIsStep(x, y.builds[i], s);
      assert CarriesFor(x, x.builds[i]);
    }
  }

  lemma BelowIsStep(x: State, b: P.Build, s: StepId)
    requires Ok(x) && |b.toplevel| <= 1 && (forall t :: t in b.toplevel ==> t in x.g.live) && P.Below(DepsOf(x.g), b, s)
    ensures s in x.g.live && s in x.g.steps
  {
    var all := DepsOf(x.g).paths.Keys;
    DepsValid(x.g);
    assert NodeOk(x.g, b.toplevel[0]);
    forall t | t in all ensures Succ(DepsOf(x.g).edges, t) <= all {}
    ClosedUnderReach(DepsOf(x.g).edges, all, b.toplevel[0], s);
  }

  // ---- a dependency that is recorded late ----

  /** A walk either avoids the new edge from `u` to `d`, or comes to `u` without it and
      goes on from `d`. */
  lemma {:induction false} ThroughNewEdge(x: Edges<StepId>, y: Edges<StepId>, u: StepId, d: StepId, w: seq<StepId>)
    requires Walk(y, w)
    requires forall s :: Succ(y, s) <= Succ(x, s) + if s == u then {d} else {}
    ensures Reaches(x, w[0], w[|w| - 1]) || (Reaches(x, w[0], u) && Reaches(y, d, w[|w| - 1]))
    decreases |w|
  {
    if |w| == 1 {
      ReachesSelf(x, w[0]);
    } else {
      var v, s, t := w[..|w| - 1], w[|w| - 2], w[|w| - 1];
      assert t in Succ(y, s);
      ThroughNewEdge(x, y, u, d, v);
      if Reaches(x, w[0], s) {
        if t in Succ(x, s) { ReachesThen(x, w[0], s, t); } else { ReachesSelf(y, d); }
      } else {
        ReachesThen(y, d, s, t);
      }
    }
  }

  lemma MoreReached(x: Edges<StepId>, y: Edges<StepId>, a: StepId, b: StepId)
    requires (forall s :: Succ(x, s) <= Succ(y, s)) && Reaches(x, a, b)
    ensures Reaches(y, a, b)
  {
    var w :| WalkBetween(x, w, a, b);
    forall i | 0 <= i < |w| - 1 ensures w[i + 1] in Succ(y, w[i]) { assert w[i + 1] in Succ(x, w[i]); }
    assert WalkBetween(y, w, a, b);
  }

  lemma RecordEdges(g: Graph, u: StepId, d: StepId)
    requires Inv(g) && u in g.steps && d in g.steps && g.steps[u].phase.Expanding? && u in g.live
    ensures var a, b := DepsOf(g).edges, DepsOf(Record(g, u, d)).edges;
      && (forall s :: Succ(a, s) <= Succ(b, s)) && (forall s :: Succ(b, s) <= Succ(a, s) + if s == u then {d} else {})
      && d in Succ(b, u)
  {
  }

  /** Recording a dependency keeps every promise if and only if all that the dependency
      leads to carries every build that the dependent step is below. */
  lemma RecordCarriesExactly(x: State, e: Change)
    requires Ok(x) && Possible(x, e) && CarriesAll(x) && Records(x.g, e)
    ensures CarriesAll(After(x, e)) <==> Safe(x, e)
  {
    var y, u, d := After(x, e), e.e.s, e.e.d;
    var a, b := DepsOf(x.g).edges, DepsOf(y.g).edges;
    assert NodeOk(x.g, u);
    RecordEdges(x.g, u, d);
    assert y.prio == x.prio;
    if CarriesAll(y) {
      forall i, s | i in x.builds && P.Below(DepsOf(x.g), x.builds[i], u) && Reaches(b, d, s) && s in x.prio
        ensures Carries(x.prio[s], x.builds[i])
      {
        MoreReached(a, b, x.builds[i].toplevel[0], u);
        ReachesFrom(b, u, d, s);
        ReachesTrans(b, x.builds[i].toplevel[0], u, s);
        assert CarriesFor(y, y.builds[i]);
      }
    }
    if Safe(x, e) { SafeRecordCarries(x, e); }
  }

  lemma SafeRecordCarries(x: State, e: Change)
    requires Ok(x) && Possible(x, e) && CarriesAll(x) && Records(x.g, e) && Safe(x, e)
    ensures CarriesAll(After(x, e))
  {
    var y, u, d := After(x, e), e.e.s, e.e.d;
    var a, b := DepsOf(x.g).edges, DepsOf(y.g).edges;
    assert NodeOk(x.g, u);
    RecordEdges(x.g, u, d);
    assert y.prio == x.prio;
    forall i, s | i in y.builds && P.Below(DepsOf(y.g), y.builds[i], s) && s in y.prio
      ensures Carries(y.prio[s], y.builds[i]) {
      var w :| WalkBetween(b, w, y.builds[i].toplevel[0], s);
      ThroughNewEdge(a, b, u, d, w);
      assert CarriesFor(x, x.builds[i]);
    }
  }

  // ---- every run ----

  /** One change keeps all promises if and only if it is safe. */
  lemma NextCarriesExactly(x: State, e: Change)
    requires Ok(x) && Possible(x, e) && CarriesAll(x)
    ensures CarriesAll(After(x, e)) <==> Safe(x, e)
  {
    if e.Attach? || e.Rise? {
      PassCarriesExactly(x, e);
    } else if Records(x.g, e) {
      RecordCarriesExactly(x, e);
    } else if e.GraphChange? {
      GraphCarries(x, e.e);
    } else {
      forall i | i in After(x, e).builds ensures CarriesFor(After(x, e), After(x, e).builds[i]) {
        assert i in x.builds ==> CarriesFor(x, x.builds[i]);
      }
    }
  }

  /** In every run, each step below a tracked build carries it at all times if and only
      if every change is safe. */
  lemma {:induction false} PrioritiesCarriedExactly(xs: seq<State>, es: seq<Change>, k: nat)
    requires Run(xs, es) && k < |xs|
    ensures (forall j :: 0 <= j <= k ==> CarriesAll(xs[j])) <==> (forall j :: 0 <= j < k ==> Safe(xs[j], es[j]))
  {
    if k > 0 {
      PrioritiesCarriedExactly(xs, es, k - 1);
      RunOk(xs, es, k - 1);
      assert NextAt(xs, es, k - 1);
      if CarriesAll(xs[k - 1]) { NextCarriesExactly(xs[k - 1], es[k - 1]); }
    }
  }

  // ---- builds propagated when everything below them is settled ----

  /** Every step below the build is created, and those strictly below its top level have
      different paths. */
  ghost predicate Settled(g: Graph, b: P.Build) {
    && (forall s :: P.Below(DepsOf(g), b, s) ==> s in g.steps && g.steps[s].created)
    && P.DistinctBelow(DepsOf(g), b)
  }

  /** Below a created step no dependency is added. */
  lemma {:induction false} SettledWalk(g: Graph, h: Graph, b: P.Build, w: seq<StepId>)
    requires Later(g, h) && b.toplevel != [] && b.toplevel[0] in g.steps && w != [] && w[0] == b.toplevel[0]
    requires (forall s :: P.Below(DepsOf(g), b, s) ==> s in g.steps && g.steps[s].created) && Walk(DepsOf(h).edges, w)
    ensures Walk(DepsOf(g).edges, w) && P.Below(DepsOf(g), b, w[|w| - 1])
    decreases |w|
  {
    if |w| == 1 {
      ReachesSelf(DepsOf(g).edges, w[0]);
    } else {
      var v, s, t := w[..|w| - 1], w[|w| - 2], w[|w| - 1];
      SettledWalk(g, h, b, v);
      assert t in Succ(DepsOf(h).edges, s) && LaterAt(g, h, s);
      assert t in Succ(DepsOf(g).edges, s);
      forall i | 0 <= i < |w| - 1 ensures w[i + 1] in Succ(DepsOf(g).edges, w[i]) {
        if i < |v| - 1 { assert v[i + 1] in Succ(DepsOf(g).edges, v[i]); }
      }
      ReachesThen(DepsOf(g).edges, w[0], s, t);
    }
  }

  lemma SettledBelow(g: Graph, h: Graph, b: P.Build, s: StepId)
    requires Later(g, h) && b.toplevel != [] && b.toplevel[0] in g.steps && Settled(g, b)
    ensures P.Below(DepsOf(h), b, s) ==> P.Below(DepsOf(g), b, s)
    ensures P.StrictlyBelow(DepsOf(h), b, s) ==> P.StrictlyBelow(DepsOf(g), b, s)
  {
    if P.Below(DepsOf(h), b, s) {
      var w :| WalkBetween(DepsOf(h).edges, w, b.toplevel[0], s);
      SettledWalk(g, h, b, w);
    }
    if P.StrictlyBelow(DepsOf(h), b, s) {
      var d :| d in Succ(DepsOf(h).edges, b.toplevel[0]) && Reaches(DepsOf(h).edges, d, s);
      var w :| WalkBetween(DepsOf(h).edges, w, d, s);
      var v := [b.toplevel[0]] + w;
      assert Walk(DepsOf(h).edges, v);
      SettledWalk(g, h, b, v);
      assert v[1] in Succ(DepsOf(g).edges, v[0]);
      forall i | 0 <= i < |w| - 1 ensures w[i + 1] in Succ(DepsOf(g).edges, w[i]) {
        assert v[i + 2] in Succ(DepsOf(g).edges, v[i + 1]);
      }
      assert WalkBetween(DepsOf(g).edges, w, d, s);
      assert Reaches(DepsOf(g).edges, d, s);
    }
  }

  lemma SettledStays(g: Graph, h: Graph, b: P.Build)
    requires Later(g, h) && b.toplevel != [] && b.toplevel[0] in g.steps && Settled(g, b)
    requires forall s :: s in h.live ==> s in g.live || s !in g.steps
    ensures Settled(h, b)
  {
    forall s | P.Below(DepsOf(h), b, s) ensures s in h.steps && h.steps[s].created {
      SettledBelow(g, h, b, s);
      assert LaterAt(g, h, s);
    }
    var p, q := DepsOf(g), DepsOf(h);
    forall x, y | P.StrictlyBelow(q, b, x) && P.StrictlyBelow(q, b, y) && x in q.paths && y in q.paths
      && q.paths[x] == q.paths[y]
      ensures x == y
    {
      SettledBelow(g, h, b, x);
      SettledBelow(g, h, b, y);
      StrictInSteps(g, b, x);
      StrictInSteps(g, b, y);
      assert LaterAt(g, h, x) && LaterAt(g, h, y);
    }
  }

  lemma StrictInSteps(g: Graph, b: P.Build, s: StepId)
    requires Settled(g, b) && P.StrictlyBelow(DepsOf(g), b, s)
    ensures s in g.steps
  {
    P.StrictIsBelow(DepsOf(g), b, s);
  }

  /** All tracked builds with a top-level step are settled. */
  ghost predicate AllSettled(x: State) {
    forall i :: i in x.builds && x.builds[i].toplevel != [] ==> Settled(x.g, x.builds[i])
  }

  lemma SameTop(g: Graph, a: P.Build, b: P.Build)
    requires a.toplevel == b.toplevel && Settled(g, a)
    ensures Settled(g, b)
  {
    P.SameBelow(DepsOf(g), a, b);
  }

  lemma SettledNext(x: State, e: Change)
    requires Ok(x) && Possible(x, e) && AllSettled(x) && (e.Attach? ==> Settled(x.g, Spread(x, e)))
    ensures AllSettled(After(x, e))
  {
    match e
    case GraphChange(v) =>
      EventLater(x.g, v);
      forall s | s in Apply(x.g, v).live && s in x.g.steps ensures s in x.g.live {
        assert LaterAt(x.g, Apply(x.g, v), s);
      }
      forall i | i in x.builds && x.builds[i].toplevel != [] ensures Settled(Apply(x.g, v), x.builds[i]) {
        assert NodeOk(x.g, x.builds[i].toplevel[0]);
        SettledStays(x.g, Apply(x.g, v), x.builds[i]);
      }
    case Rise(i, _, _) => if x.builds[i].toplevel != [] { SameTop(x.g, x.builds[i], Spread(x, e)); }
    case _ =>
  }

  lemma SettledSafe(x: State, e: Change)
    requires Ok(x) && Possible(x, e) && AllSettled(x) && (e.Attach? ==> Settled(x.g, Spread(x, e)))
    ensures Safe(x, e)
  {
    if e.Attach? || e.Rise? {
      var b := Spread(x, e);
      if b.toplevel != [] {
        if e.Rise? { SameTop(x.g, x.builds[e.id], b); }
        DepsValid(x.g);
        TopValid(x, b);
        var queued :| P.PassOk(DepsOf(x.g), b, queued, [], e.done);
        P.PassExactly(DepsOf(x.g), b, queued, e.done);
      }
    }
    if Records(x.g, e) {
      assert NodeOk(x.g, e.e.s);
      forall i | i in x.builds ensures !P.Below(DepsOf(x.g), x.builds[i], e.e.s) {}
    }
  }

  /** If every build is propagated when all steps below it are created and have different
      paths, then in the whole run each step below a tracked build carries it. */
  lemma {:induction false} PrioritiesCarried(xs: seq<State>, es: seq<Change>, k: nat)
    requires Run(xs, es) && k < |xs|
    requires forall j :: 0 <= j < k && es[j].Attach? && es[j].id in xs[j].builds ==>
      Settled(xs[j].g, Spread(xs[j], es[j]))
    ensures CarriesAll(xs[k]) && AllSettled(xs[k])
  {
    if k > 0 {
      PrioritiesCarried(xs, es, k - 1);
      RunOk(xs, es, k - 1);
      assert NextAt(xs, es, k - 1);
      SettledNext(xs[k - 1], es[k - 1]);
      SettledSafe(xs[k - 1], es[k - 1]);
      NextCarriesExactly(xs[k - 1], es[k - 1]);
    }
  }

  // ---- a run in which a dependency misses a build ----

  /** Some run leads to the state. */
  ghost predicate Reachable(x: State) {
    exists xs, es :: RunTo(xs, es, x)
  }

  ghost predicate RunTo(xs: seq<State>, es: seq<Change>, x: State) {
    Run(xs, es) && xs[|es|] == x
  }

  lemma Then(x: State, e: Change, y: State)
    requires Reachable(x) && Possible(x, e) && After(x, e) == y
    ensures Reachable(y)
  {
    var xs, es :| RunTo(xs, es, x);
    var ys, fs := xs + [y], es + [e];
    forall k | 0 <= k < |fs| ensures NextAt(ys, fs, k) {
      if k < |es| { assert NextAt(xs, es, k); }
    }
    assert RunTo(ys, fs, y);
  }

  lemma GraphThen(x: State, v: Event, y: State)
    requires Reachable(x) && Enabled(x.g, v) && Apply(x.g, v) == y.g && !v.Free?
    requires y.builds == x.builds && y.prio == Grown(x.prio, y.g)
    ensures Reachable(y)
  {
    Then(x, GraphChange(v), y);
  }

  const INPUTS: map<Path, set<Path>> := map["u" := {"a"}, "a" := {}]
  const B0 := P.Build(2, 5, 1, 7, [])
  const B := B0.(toplevel := [0])
  const U0 := NewStep("u", 0)
  const U1 := U0.(phase := Expanding({"a"}, {}, {}), expanded := true)
  const U2 := U1.(phase := Expanding({}, {}, {1}))
  const U3 := U2.(phase := Expanding({}, {}, {}), deps := {1}, everDeps := {1})
  const A0 := NewStep("a", 0).(rdeps := [0])
  const A1 := A0.(phase := Expanding({}, {}, {}), expanded := true)
  const A2 := A1.(phase := Marked, created := true)
  const A3 := A2.(phase := Returned)
  const RAISED := P.Prio(5, 1, 2, {7})

  function One(u: Step): Graph {
    Graph(INPUTS, map[0 := u], {0}, map["u" := 0], {}, {}, {}, {}, false)
  }

  function Two(u: Step, a: Step, ready: set<StepId>): Graph {
    Graph(INPUTS, map[0 := u, 1 := a], {0, 1}, map["u" := 0, "a" := 1], {}, ready, {}, {}, false)
  }

  const X1 := State(Init(INPUTS), map[], map[2 := B0])
  const X2 := State(One(U0), map[0 := FRESH], map[2 := B0])
  const X3 := State(One(U1), map[0 := FRESH], map[2 := B0])
  const X4 := State(Two(U2, A0, {}), map[0 := FRESH, 1 := FRESH], map[2 := B0])
  const X5 := State(Two(U2, A0, {}), map[0 := RAISED, 1 := FRESH], map[2 := B])
  const X6 := State(Two(U2, A1, {}), map[0 := RAISED, 1 := FRESH], map[2 := B])
  const X7 := State(Two(U2, A2, {}), map[0 := RAISED, 1 := FRESH], map[2 := B])
  const X8 := State(Two(U2, A3, {1}), map[0 := RAISED, 1 := FRESH], map[2 := B])
  const X9 := State(Two(U3, A3, {1}), map[0 := RAISED, 1 := FRESH], map[2 := B])

  lemma ToX4()
    ensures Reachable(X4)
  {
    var x0 := State(Init(INPUTS), map[], map[]);
    assert RunTo([x0], [], x0);
    Then(x0, Track(B0), X1);
    GraphThen(X1, CreateTop("u", 0, 0), X2);
    GraphThen(X2, Expand(0), X3);
    MakesChild();
    GraphThen(X3, CreateChild(0, "a", 1), X4);
  }

  lemma MakesChild()
    ensures Enabled(X3.g, CreateChild(0, "a", 1)) && Apply(X3.g, CreateChild(0, "a", 1)) == X4.g
  {
    var g := X3.g;
    var h := Obtain(g, "a", 1, 0);
    var none: set<Path> := {};
    assert !Known(g, "a") && Obtained(g, "a", 1) == 1 && {0} + {1} == {0, 1};
    assert h == Two(U1, NewStep("a", 0), {});
    assert NewStep("a", 0).rdeps + [0] == [0] && {"a"} - {"a"} == none && {} + {1} == {1};
    assert Link(h, 0, "a", 1, true).steps == X4.g.steps;
  }

  /** The pass over a step that has recorded no dependency yet. */
  lemma PassesTop()
    ensures P.PassOver(DepsOf(X4.g), B, {0})
  {
    var d := DepsOf(X4.g);
    assert Succ(d.edges, 0) == {};
    forall s ensures P.MetOk(d, B, map[], [], {0}, s) {}
    forall q ensures P.QueuedOk(d, B, map[], [], {0}, q) {}
    assert P.PassOk(d, B, map[], [], {0});
  }

  lemma ToX5()
    ensures Reachable(X5)
  {
    var e := Attach(2, 0, {0});
    ToX4();
    PassesTop();
    assert Spread(X4, e) == B;
    assert P.Raise(X4.prio, {0}, B) == X5.prio by { assert {} + {7} == {7}; }
    assert X4.builds[2 := B] == X5.builds;
    Then(X4, e, X5);
  }

  lemma ToX8()
    ensures Reachable(X8)
  {
    ToX5();
    GraphThen(X5, Expand(1), X6);
    GraphThen(X6, MarkCreated(1), X7);
    GraphThen(X7, CheckDeps(1), X8);
  }

  lemma RecordsLate()
    ensures Enabled(X8.g, ResolveFresh(0, 1)) && Apply(X8.g, ResolveFresh(0, 1)) == X9.g
  {
    var none: set<StepId> := {};
    assert {1} - {1} == none && none - {1} == none && none + {1} == {1};
    assert Record(X8.g, 0, 1).steps[0] == U3;
    assert Resolve(X8.g, 0, 1) == Record(X8.g, 0, 1);
  }

  /** A build finds its top-level step known and still being created by another build,
      and is propagated. The dependency recorded after that never gets its priorities. */
  lemma LateDependencyMisses()
    ensures exists x :: Reachable(x) && !CarriesAll(x) && x.builds == map[2 := B] && 1 in x.prio && x.prio[1] == FRESH
                     && P.Below(DepsOf(x.g), B, 1)
  {
    ToX8();
    RecordsLate();
    GraphThen(X8, ResolveFresh(0, 1), X9);
    var d := DepsOf(X9.g);
    assert 1 in Succ(d.edges, 0);
    ReachesSelf(d.edges, 0);
    ReachesThen(d.edges, 0, 0, 1);
    assert P.Below(d, B, 1) && !Carries(X9.prio[1], B);
    assert !CarriesFor(X9, X9.builds[2]);
  }
}
