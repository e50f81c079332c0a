/** The registry of steps and the operations that change it in place. */
module StepTable {
  import opened StepGraph

  /** The dependencies that do not have the path. */
  function Retain(g: Graph, deps: set<StepId>, p: Path): set<StepId> {
    set d | d in deps && !(d in g.steps && g.steps[d].path == p)
  }

  function WokenRecord(g: Graph, st: Step, p: Path): Step {
    var deps := Retain(g, st.deps, p);
    st.(deps := deps, runnable := st.runnable || (deps == {} && st.created))
  }

  /** The table after the dependents `done` have dropped path `p`. */
  function WokenSome(g: Graph, p: Path, done: seq<StepId>): map<StepId, Step> {
    map u | u in g.steps :: if u in g.live && u in done then WokenRecord(g, g.steps[u], p) else g.steps[u]
  }

  lemma WakeNext(g: Graph, h: Graph, p: Path, done: seq<StepId>, u: StepId)
    requires u in g.live && u in g.steps && h == g.(steps := WokenSome(g, p, done))
    ensures h.steps[u := WokenRecord(h, h.steps[u], p)] == WokenSome(g, p, done + [u])
  {
    assert forall x :: x in done + [u] <==> x in done || x == u;
    var deps := g.steps[u].deps;
    assert Retain(h, deps, p) == Retain(g, deps, p);
    assert Retain(h, Retain(g, deps, p), p) == Retain(g, deps, p);
  }

  /** What one finished step does to one record. */
  lemma WokenByOne(g: Graph, s: StepId, u: StepId)
    requires s in g.steps && u in g.steps
    ensures var st := if u in g.live && u in g.steps[s].rdeps then WokenRecord(g, g.steps[u], g.steps[s].path)
      else g.steps[u];
      WokenStep(g, {s}, u) == if u == s then st.(rdeps := Keep(g.steps[s].rdeps, g.live)) else st
  {
    var p := g.steps[s].path;
    if u in g.steps[s].rdeps {
      assert Wakers(g, {s}, u) == {s};
      assert PathsOf(g, {s}) == {p};
      assert WokenDeps(g, {s}, u) == Retain(g, g.steps[u].deps, p);
    } else {
      assert Wakers(g, {s}, u) == {};
      assert PathsOf(g, {}) == {};
      assert WokenDeps(g, {s}, u) == g.steps[u].deps;
    }
  }

  lemma WakeEnds(g: Graph, s: StepId, m: map<StepId, Step>)
    requires s in g.steps && m == WokenSome(g, g.steps[s].path, g.steps[s].rdeps)
    ensures m[s := m[s].(rdeps := Keep(g.steps[s].rdeps, g.live))] == WakeAll(g, {s}).steps
  {
    var l, r := m[s := m[s].(rdeps := Keep(g.steps[s].rdeps, g.live))], WakeAll(g, {s}).steps;
    forall u | u in g.steps ensures l[u] == r[u] { WokenByOne(g, s, u); }
    assert l.Keys == r.Keys;
  }

  lemma WakersUnion(g: Graph, a: set<StepId>, b: set<StepId>, u: StepId)
    requires a !! b
    ensures var h := WakeAll(g, a);
      && Wakers(h, b, u) == Wakers(g, b, u)
      && PathsOf(h, Wakers(g, b, u)) == PathsOf(g, Wakers(g, b, u))
      && Wakers(g, a + b, u) == Wakers(g, a, u) + Wakers(g, b, u)
      && PathsOf(g, Wakers(g, a + b, u)) == PathsOf(g, Wakers(g, a, u)) + PathsOf(g, Wakers(g, b, u))
  {
    assert Wakers(g, a + b, u) == Wakers(g, a, u) + Wakers(g, b, u);
  }

  lemma WokenTwice(g: Graph, a: set<StepId>, b: set<StepId>, u: StepId)
    requires a !! b && u in g.steps
    ensures WokenStep(WakeAll(g, a), b, u) == WokenStep(g, a + b, u)
  {
    var h := WakeAll(g, a);
    WakersUnion(g, a, b, u);
    if u in g.live {
      assert WokenDeps(h, b, u) == WokenDeps(g, a + b, u);
      if Wakers(g, b, u) == {} { assert WokenDeps(h, b, u) == WokenDeps(g, a, u); }
    }
  }

  /** Waking for `a` and then for `b` is waking for both. */
  lemma WakeAllCompose(g: Graph, a: set<StepId>, b: set<StepId>)
    requires a !! b
    ensures WakeAll(WakeAll(g, a), b) == WakeAll(g, a + b)
  {
    forall u | u in g.steps ensures WokenStep(WakeAll(g, a), b, u) == WokenStep(g, a + b, u) { WokenTwice(g, a, b, u); }
  }

  // ---- the set of a nest ----

  function OfNest(g: Graph, n: NestId): set<StepId> {
    set s | s in g.newRunnable && s in g.steps && g.steps[s].nest == n
  }

  /** The steps become runnable and leave the set. */
  function Released(g: Graph, done: set<StepId>): Graph {
    g.(steps := map u | u in g.steps :: g.steps[u].(runnable := g.steps[u].runnable || u in done),
       newRunnable := g.newRunnable - done)
  }

  lemma ReleasedNext(g: Graph, done: set<StepId>, s: StepId)
    requires s in g.steps && s in g.newRunnable && s !in done
    ensures var h := Released(g, done);
      h.(steps := h.steps[s := h.steps[s].(runnable := true)], newRunnable := h.newRunnable - {s})
        == Released(g, done + {s})
  {
    assert g.newRunnable - done - {s} == g.newRunnable - (done + {s});
  }

  /** Emptying the set of a nest that is over is one event for each of its steps. */
  lemma ReleaseIsMakeRunnable(g: Graph, done: set<StepId>, s: StepId)
    requires s in g.steps && s in g.newRunnable && s !in done && g.steps[s].nest in g.closed
    ensures Enabled(Released(g, done), MakeRunnable(s))
    ensures Apply(Released(g, done), MakeRunnable(s)) == Released(g, done + {s})
  {
    ReleasedNext(g, done, s);
  }

  class Steps {
    const inputs: map<Path, set<Path>>
    var steps: map<StepId, Step>
    var live: set<StepId>
    var registry: map<Path, StepId>
    var finishedDrvs: set<Path>
    var newRunnable: set<StepId>
    var finishing: set<StepId>
    var closed: set<NestId>
    var twins: bool

    function View(): Graph
      reads this
    {
      Graph(inputs, steps, live, registry, finishedDrvs, newRunnable, finishing, closed, twins)
    }

    /** Every weak pointer that can be followed leads to a step of the table. */
    ghost predicate Valid()
      reads this
    {
      && live <= steps.Keys
      && forall p :: p in registry ==> registry[p] in steps && steps[registry[p]].path == p
    }

    constructor (inputs: map<Path, set<Path>>)
      ensures View() == Init(inputs) && Valid()
    {
      this.inputs := inputs;
      steps, live, registry, finishedDrvs := map[], {}, map[], {};
      newRunnable, finishing, closed, twins := {}, {}, {}, false;
    }

    /** Get-or-create for one input of `parent`: the registered live step, or a new
        one under `id`, with `parent` pushed to its reverse dependencies. */
    method Create(path: Path, parent: StepId, id: StepId) returns (d: StepId, isNew: bool)
      requires Valid() && id !in steps && parent in steps
      modifies this
      ensures Valid() && isNew == !Known(old(View()), path) && d == Obtained(old(View()), path, id)
      ensures d in live && d in steps && registry == old(registry)[path := d] && steps[d].path == path
      ensures View() == Put(Obtain(old(View()), path, id, old(steps)[parent].nest), d, steps[d])
      ensures steps[d]
           == (if isNew then NewStep(path, old(steps)[parent].nest) else old(steps)[d]).(rdeps := steps[d].rdeps)
      ensures steps[d].rdeps == (if isNew then [] else old(steps)[d].rdeps) + [parent]
    {
      isNew := !(path in registry && registry[path] in live);
      if isNew {
        d := id;
        twins := twins || exists x :: x in live && x in steps && steps[x].path == path;
        steps := steps[d := NewStep(path, steps[parent].nest)];
        live := live + {d};
        registry := registry[path := d];
      } else {
        d := registry[path];
        assert registry[path := d] == registry;
      }
      steps := steps[d := steps[d].(rdeps := steps[d].rdeps + [parent])];
    }

    /** A created step without dependencies enters the set of its nest, unless the set
        has an object of its path. */
    method CheckDeps(s: StepId)
      requires Valid() && s in steps
      modifies this`steps, this`newRunnable
      ensures Valid() && View() == Checked(old(View()), s)
    {
      if steps[s].deps == {} && !(exists x :: x in newRunnable && x in steps && steps[x].path == steps[s].path
                                           && steps[x].nest == steps[s].nest) {
        newRunnable := newRunnable + {s};
      }
      steps := steps[s := steps[s].(phase := Returned)];
    }

    /** When a nest is over the steps of its set become runnable, in any order. */
    method MakeNewRunnable(n: NestId)
      requires Valid() && newRunnable <= steps.Keys
      modifies this`steps, this`newRunnable
      ensures Valid() && View() == Released(old(View()), OfNest(old(View()), n))
      ensures forall s :: s in newRunnable <==> s in old(newRunnable) && old(steps)[s].nest != n
      ensures steps.Keys == old(steps).Keys && forall s :: s in steps ==>
        steps[s].runnable == (old(steps)[s].runnable || (s in old(newRunnable) && old(steps)[s].nest == n))
    {
      ghost var g := View();
      ghost var done: set<StepId> := {};
      var todo := set s | s in newRunnable && s in steps && steps[s].nest == n;
      assert Released(g, {}).steps == g.steps && g.newRunnable - {} == g.newRunnable;
      while todo != {}
        invariant todo + done == OfNest(g, n) && todo !! done && View() == Released(g, done) && Valid()
        decreases todo
      {
        var s :| s in todo;
        ReleasedNext(g, done, s);
        steps := steps[s := steps[s].(runnable := true)];
        newRunnable := newRunnable - {s};
        todo, done := todo - {s}, done + {s};
      }
      assert done == OfNest(g, n);
    }

    /** A finished step drops itself from its dependents and forgets the dead ones. */
    method MakeRdepsRunnable(s: StepId)
      requires Valid() && s in steps
      modifies this`steps
      ensures Valid()
      ensures View() == if old(steps)[s].finished then WakeAll(old(View()), {s}) else old(View())
    {
      if !steps[s].finished {
        return;
      }
      ghost var g := View();
      var p, rdeps := steps[s].path, steps[s].rdeps;
      var kept: seq<StepId> := [];
      assert steps == WokenSome(g, p, rdeps[..0]);
      for i := 0 to |rdeps|
        invariant steps == WokenSome(g, p, rdeps[..i])
        invariant kept == Keep(rdeps[..i], live)
      {
        VisitNext(g, p, rdeps, i, steps);
        if rdeps[i] in live {
          var st := steps[rdeps[i]];
          var deps := Retain(View(), st.deps, p);
          var ready := deps == {} && st.created;
          steps := steps[rdeps[i] := st.(deps := deps, runnable := st.runnable || ready)];
          kept := kept + [rdeps[i]];
        }
      }
      assert rdeps[..|rdeps|] == rdeps;
      WakeEnds(g, s, steps);
      steps := steps[s := steps[s].(rdeps := kept)];
      WakeKeepsPaths(g, {s});
    }

    /** The sweep: every registered live step that is finished and did not fail
        before wakes its dependents, in any order. */
    method Sweep()
      requires Valid()
      modifies this`steps
      ensures Valid() && View() == WakeAll(old(View()), SweepSet(old(View())))
    {
      ghost var g := View();
      ghost var done: set<StepId> := {};
      var todo := registry.Keys;
      WakeNone(g);
      while todo != {}
        invariant todo <= registry.Keys && Valid() && View() == WakeAll(g, done)
        invariant forall x :: x in done <==> x in SweepSet(g) && g.steps[x].path !in todo
        decreases |todo|
      {
        var p :| p in todo;
        var s := registry[p];
        assert View().steps[s].finished == g.steps[s].finished && View().steps[s].path == g.steps[s].path;
        if s in live && steps[s].finished && !steps[s].prevFailure {
          MakeRdepsRunnable(s);
          WakeAllCompose(g, done, {s});
          done := done + {s};
        }
        todo := todo - {p};
      }
      assert done == SweepSet(g);
    }

    /** The registered live runnable steps; entries for freed steps are dropped. */
    method CloneRunnable() returns (runnable: set<StepId>)
      requires Valid()
      modifies this`registry
      ensures Valid() && View() == Pruned(old(View()))
      ensures forall s :: s in runnable <==> s in live && s in steps && Registered(View(), s) && steps[s].runnable
    {
      runnable := {};
      var todo := registry.Keys;
      while todo != {}
        invariant todo <= old(registry).Keys
        invariant registry == map p | p in old(registry) && (p in todo || old(registry)[p] in live) :: old(registry)[p]
        invariant forall s :: s in runnable <==>
          s in live && s in steps && steps[s].runnable && steps[s].path in old(registry)
          && old(registry)[steps[s].path] == s
          && steps[s].path !in todo
        decreases |todo|
      {
        var p :| p in todo;
        var s := registry[p];
        if s !in live {
          registry := registry - {p};
        } else if steps[s].runnable {
          runnable := runnable + {s};
        }
        todo := todo - {p};
      }
    }
  }

  /** Looking at the next dependent, dead or alive. */
  lemma VisitNext(g: Graph, p: Path, rdeps: seq<StepId>, i: nat, m: map<StepId, Step>)
    requires i < |rdeps| && m == WokenSome(g, p, rdeps[..i]) && g.live <= g.steps.Keys
    ensures WokenSome(g, p, rdeps[..i + 1]) ==
      if rdeps[i] in g.live then m[rdeps[i] := WokenRecord(g.(steps := m), m[rdeps[i]], p)] else m
    ensures Keep(rdeps[..i + 1], g.live)
         == if rdeps[i] in g.live then Keep(rdeps[..i], g.live) + [rdeps[i]] else Keep(rdeps[..i], g.live)
  {
    assert rdeps[..i + 1] == rdeps[..i] + [rdeps[i]];
    KeepAppend(rdeps[..i], rdeps[i], g.live);
    if rdeps[i] in g.live {
      WakeNext(g, g.(steps := m), p, rdeps[..i], rdeps[i]);
    } else {
      SkipDead(g, p, rdeps[..i], rdeps[i]);
    }
  }

  lemma {:induction false} KeepAppend(a: seq<StepId>, x: StepId, live: set<StepId>)
    ensures Keep(a + [x], live) == if x in live then Keep(a, live) + [x] else Keep(a, live)
  {
    if a == [] {
      assert [x][1..] == [];
    } else {
      assert (a + [x])[1..] == a[1..] + [x];
      KeepAppend(a[1..], x, live);
    }
  }

  lemma WakeKeepsPaths(g: Graph, w: set<StepId>)
    ensures var h := WakeAll(g, w);
      h.steps.Keys == g.steps.Keys && forall u :: u in g.steps ==> h.steps[u].path == g.steps[u].path
  {
  }

  lemma SkipDead(g: Graph, p: Path, done: seq<StepId>, u: StepId)
    requires u !in g.live
    ensures WokenSome(g, p, done + [u]) == WokenSome(g, p, done)
  {
    assert forall x :: x in done + [u] <==> x in done || x == u;
  }

  lemma WakeNone(g: Graph)
    ensures WakeAll(g, {}) == g
  {
    forall u | u in g.steps ensures WokenStep(g, {}, u) == g.steps[u] {
      assert Wakers(g, {}, u) == {};
      assert PathsOf(g, {}) == {};
      if u in g.live { assert WokenDeps(g, {}, u) == g.steps[u].deps; }
    }
  }
}
