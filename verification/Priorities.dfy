/**
 Propagating the priority of a build to every step it depends on.
 */
module Priorities {
  import opened Collections
  import opened Reachability
  import StepGraph

  type Path = StepGraph.Path
  type StepId = StepGraph.StepId
  type BuildId = int
  type JobsetId = int

  /** Which step depends on which; the dependencies of one step have different paths. */
  datatype Deps = Deps(paths: map<StepId, Path>, edges: Edges<StepId>)

  datatype Prio = Prio(highestGlobal: int, highestLocal: int, lowestBuild: BuildId, jobsets: set<JobsetId>)

  datatype Build = Build(id: BuildId, global: int, local: int, jobset: JobsetId, toplevel: seq<StepId>)

  function Max(a: int, b: int): int { if a < b then b else a }
  function Min(a: int, b: int): int { if b < a then b else a }

  ghost predicate Valid(g: Deps) {
    && (forall s :: s in g.paths ==> Succ(g.edges, s) <= g.paths.Keys)
    && (forall s, a, b | s in g.paths && a in Succ(g.edges, s) && b in Succ(g.edges, s) && a in g.paths
         && b in g.paths ::
          g.paths[a] == g.paths[b] ==> a == b)
  }

  /** `toplevel` is empty until the top-level step is set. */
  predicate ValidBuild(g: Deps, b: Build) {
    |b.toplevel| <= 1 && (b.toplevel != [] ==> b.toplevel[0] in g.paths)
  }

  /** The steps build `b` depends on. */
  ghost predicate Below(g: Deps, b: Build, s: StepId) {
    b.toplevel != [] && Reaches(g.edges, b.toplevel[0], s)
  }

  /** The steps strictly below the top-level step. */
  ghost predicate StrictlyBelow(g: Deps, b: Build, s: StepId) {
    b.toplevel != [] && exists d :: d in Succ(g.edges, b.toplevel[0]) && Reaches(g.edges, d, s)
  }

  ghost predicate DistinctBelow(g: Deps, b: Build) {
    forall x, y :: StrictlyBelow(g, b, x) && StrictlyBelow(g, b, y) && x in g.paths && y in g.paths && x != y ==>
      g.paths[x] != g.paths[y]
  }

  function Bump(p: Prio, b: Build): Prio {
    Prio(Max(p.highestGlobal, b.global), Max(p.highestLocal, b.local), Min(p.lowestBuild, b.id), p.jobsets + {b.jobset})
  }

  function Raise(prio: map<StepId, Prio>, done: set<StepId>, b: Build): map<StepId, Prio> {
    map s | s in prio :: if s in done then Bump(prio[s], b) else prio[s]
  }

  lemma RaiseAgain(prio: map<StepId, Prio>, done: set<StepId>, s: StepId, b: Build)
    requires s in prio
    ensures var m := Raise(prio, done, b); m[s := Bump(m[s], b)] == Raise(prio, done + {s}, b)
  {
  }

  // ---- one pass ----

  /** One path met by the pass, with the object first met under it. */
  ghost predicate QueuedOk(g: Deps, b: Build, queued: map<Path, StepId>, todo: seq<StepId>, done: set<StepId>,
      q: Path) {
    q in queued ==>
      && queued[q] in g.paths && g.paths[queued[q]] == q && StrictlyBelow(g, b, queued[q])
      && (queued[q] in todo || queued[q] in done)
  }

  /** One step done or waiting: the top-level one or a queued one; the dependencies
      of a done step have their paths queued. */
  ghost predicate MetOk(g: Deps, b: Build, queued: map<Path, StepId>, todo: seq<StepId>, done: set<StepId>, s: StepId) {
    && (s in todo || s in done ==>
          s in g.paths && b.toplevel != [] && (s == b.toplevel[0] || (g.paths[s] in queued && queued[g.paths[s]] == s)))
    && (s in done ==> forall d :: d in Succ(g.edges, s) && d in g.paths ==> g.paths[d] in queued)
  }

  /** The state of the breadth-first pass. */
  ghost predicate PassOk(g: Deps, b: Build, queued: map<Path, StepId>, todo: seq<StepId>, done: set<StepId>) {
    && (b.toplevel != [] ==> b.toplevel[0] in todo || b.toplevel[0] in done)
    && (forall q :: QueuedOk(g, b, queued, todo, done, q))
    && (forall s :: MetOk(g, b, queued, todo, done, s))
  }

  lemma StrictIsBelow(g: Deps, b: Build, s: StepId)
    requires StrictlyBelow(g, b, s)
    ensures Below(g, b, s)
  {
    var d :| d in Succ(g.edges, b.toplevel[0]) && Reaches(g.edges, d, s);
    ReachesFrom(g.edges, b.toplevel[0], d, s);
  }

  lemma BelowThenStrict(g: Deps, b: Build, s: StepId, d: StepId)
    requires Below(g, b, s) && d in Succ(g.edges, s)
    ensures StrictlyBelow(g, b, d)
  {
    var top := b.toplevel[0];
    var w :| WalkBetween(g.edges, w, top, s);
    if |w| == 1 {
      ReachesSelf(g.edges, d);
    } else {
      assert w[1] in Succ(g.edges, w[0]);
      assert WalkBetween(g.edges, w[1..], w[1], s);
      assert Reaches(g.edges, w[1], s);
      ReachesThen(g.edges, w[1], s, d);
    }
  }

  /** The pass touches only steps below the build; all of them if the steps strictly
      below its top level have pairwise different paths; and, when the top level does
      not depend on itself, only if they do. */
  lemma PassExactly(g: Deps, b: Build, queued: map<Path, StepId>, done: set<StepId>)
    requires Valid(g) && ValidBuild(g, b) && PassOk(g, b, queued, [], done)
    ensures forall s :: s in done ==> Below(g, b, s)
    ensures DistinctBelow(g, b) ==> forall s :: Below(g, b, s) ==> s in done
    ensures b.toplevel != [] && !StrictlyBelow(g, b, b.toplevel[0]) && (forall s :: Below(g, b, s) ==> s in done) ==>
      DistinctBelow(g, b)
  {
    forall s | s in done ensures Below(g, b, s) {
      assert MetOk(g, b, queued, [], done, s) && QueuedOk(g, b, queued, [], done, g.paths[s]);
      if s == b.toplevel[0] { ReachesSelf(g.edges, s); } else { StrictIsBelow(g, b, s); }
    }
    if DistinctBelow(g, b) && b.toplevel != [] {
      PassClosed(g, b, queued, done);
      forall s | Below(g, b, s) ensures s in done { ClosedUnderReach(g.edges, done, b.toplevel[0], s); }
    }
    if b.toplevel != [] && !StrictlyBelow(g, b, b.toplevel[0]) && (forall s :: Below(g, b, s) ==> s in done) {
      forall x, y | StrictlyBelow(g, b, x) && StrictlyBelow(g, b, y) && x in g.paths && y in g.paths
        && g.paths[x] == g.paths[y]
        ensures x == y
      {
        StrictIsBelow(g, b, x);
        StrictIsBelow(g, b, y);
        assert MetOk(g, b, queued, [], done, x) && MetOk(g, b, queued, [], done, y);
      }
    }
  }

  lemma PassClosed(g: Deps, b: Build, queued: map<Path, StepId>, done: set<StepId>)
    requires Valid(g) && ValidBuild(g, b) && PassOk(g, b, queued, [], done) && DistinctBelow(g, b)
    requires forall s :: s in done ==> Below(g, b, s)
    ensures Closed(g.edges, done)
  {
    forall s, d | s in done && d in Succ(g.edges, s) ensures d in done {
      assert MetOk(g, b, queued, [], done, s);
      assert s in g.paths && d in g.paths;
      BelowThenStrict(g, b, s, d);
      assert QueuedOk(g, b, queued, [], done, g.paths[d]);
    }
  }

  function Unmet(g: Deps, s: StepId, seen: set<Path>): (r: set<StepId>)
    ensures r <= Succ(g.edges, s) && r <= g.paths.Keys && forall d :: d in r ==> g.paths[d] !in seen
  {
    set d | d in Succ(g.edges, s) && d in g.paths && g.paths[d] !in seen
  }

  /** Taking the first waiting step and queueing its unmet dependencies. */
  lemma PassNext(g: Deps, b: Build, queued: map<Path, StepId>, todo: seq<StepId>, done: set<StepId>,
                 queued': map<Path, StepId>, todo': seq<StepId>)
    requires Valid(g) && PassOk(g, b, queued, todo, done) && todo != []
    requires AddsPaths(g, queued, Unmet(g, todo[0], queued.Keys), queued')
    requires Pushed(todo[1..], Unmet(g, todo[0], queued.Keys), todo')
    ensures PassOk(g, b, queued', todo', done + {todo[0]})
  {
    var s := todo[0];
    assert forall x :: x in todo <==> x == s || x in todo[1..];
    assert MetOk(g, b, queued, todo, done, s);
    MetBelow(g, b, queued, todo, done, s);
    forall q ensures QueuedOk(g, b, queued', todo', done + {s}, q) {
      assert QueuedOk(g, b, queued, todo, done, q);
      if q in queued' && q !in queued {
        BelowThenStrict(g, b, s, queued'[q]);
      }
    }
    forall x ensures MetOk(g, b, queued', todo', done + {s}, x) { assert MetOk(g, b, queued, todo, done, x); }
  }

  lemma MetBelow(g: Deps, b: Build, queued: map<Path, StepId>, todo: seq<StepId>, done: set<StepId>, s: StepId)
    requires PassOk(g, b, queued, todo, done) && (s in todo || s in done)
    ensures Below(g, b, s)
  {
    assert MetOk(g, b, queued, todo, done, s) && QueuedOk(g, b, queued, todo, done, g.paths[s]);
    if s == b.toplevel[0] { ReachesSelf(g.edges, s); } else { StrictIsBelow(g, b, s); }
  }

  // ---- any number of builds, in any order ----

  /** The three numbers, each read so that larger is better. */
  datatype Field = Global | Local | Id

  function Of(f: Field, b: Build): int {
    match f case Global => b.global case Local => b.local case Id => -b.id
  }

  function Value(f: Field, p: Prio): int {
    match f case Global => p.highestGlobal case Local => p.highestLocal case Id => -p.lowestBuild
  }

  /** `now` is the largest of `was` and of the builds that depend on `s`. */
  ghost predicate HighestIs(g: Deps, raised: set<Build>, s: StepId, f: Field, was: int, now: int) {
    && now >= was
    && (forall b :: b in raised && Below(g, b, s) ==> now >= Of(f, b))
    && (now == was || exists b :: b in raised && Below(g, b, s) && now == Of(f, b))
  }

  ghost predicate JobsetsAre(g: Deps, raised: set<Build>, s: StepId, was: set<JobsetId>, now: set<JobsetId>) {
    && was <= now
    && (forall b :: b in raised && Below(g, b, s) ==> b.jobset in now)
    && (forall j :: j in now && j !in was ==> exists b :: b in raised && Below(g, b, s) && b.jobset == j)
  }

  /** `q` is `p` with every build of `raised` propagated: each step has the maximum,
      maximum, minimum and union over the builds that depend on it. */
  ghost predicate RaisedAt(g: Deps, p: Prio, q: Prio, raised: set<Build>, s: StepId) {
    && (forall f: Field :: HighestIs(g, raised, s, f, Value(f, p), Value(f, q)))
    && JobsetsAre(g, raised, s, p.jobsets, q.jobsets)
  }

  ghost predicate Raised(g: Deps, p: map<StepId, Prio>, q: map<StepId, Prio>, raised: set<Build>) {
    p.Keys == q.Keys && forall s :: s in p ==> RaisedAt(g, p[s], q[s], raised, s)
  }

  lemma HighestUnique(g: Deps, raised: set<Build>, s: StepId, f: Field, was: int, x: int, y: int)
    requires HighestIs(g, raised, s, f, was, x) && HighestIs(g, raised, s, f, was, y)
    ensures x == y
  {
  }

  lemma PrioUnique(g: Deps, p: Prio, q: Prio, r: Prio, raised: set<Build>, s: StepId)
    requires RaisedAt(g, p, q, raised, s) && RaisedAt(g, p, r, raised, s)
    ensures q == r
  {
    forall f: Field ensures Value(f, q) == Value(f, r) {
      HighestUnique(g, raised, s, f, Value(f, p), Value(f, q), Value(f, r));
    }
    assert Value(Global, q) == Value(Global, r) && Value(Local, q) == Value(Local, r) && Value(Id, q) == Value(Id, r);
    forall j ensures j in q.jobsets <==> j in r.jobsets {
      if j !in p.jobsets && (j in q.jobsets || j in r.jobsets) {
        var b :| b in raised && Below(g, b, s) && b.jobset == j;
      }
    }
  }

  /** The result depends only on which builds were propagated. */
  lemma RaisedUnique(g: Deps, p: map<StepId, Prio>, q: map<StepId, Prio>, r: map<StepId, Prio>, raised: set<Build>)
    requires Raised(g, p, q, raised) && Raised(g, p, r, raised)
    ensures q == r
  {
    forall s | s in p ensures q[s] == r[s] { PrioUnique(g, p[s], q[s], r[s], raised, s); }
  }

  lemma HighestNext(g: Deps, raised: set<Build>, s: StepId, f: Field, was: int, x: int, b: Build)
    requires HighestIs(g, raised, s, f, was, x)
    ensures HighestIs(g, raised + {b}, s, f, was, if Below(g, b, s) then Max(x, Of(f, b)) else x)
  {
  }

  lemma PrioNext(g: Deps, p: Prio, q: Prio, raised: set<Build>, b: Build, s: StepId)
    requires RaisedAt(g, p, q, raised, s)
    ensures RaisedAt(g, p, if Below(g, b, s) then Bump(q, b) else q, raised + {b}, s)
  {
    var r := if Below(g, b, s) then Bump(q, b) else q;
    forall f: Field ensures HighestIs(g, raised + {b}, s, f, Value(f, p), Value(f, r)) {
      HighestNext(g, raised, s, f, Value(f, p), Value(f, q), b);
    }
    forall j | j in r.jobsets && j !in p.jobsets
      ensures exists x :: x in raised + {b} && Below(g, x, s) && x.jobset == j {
      if j in q.jobsets {
        var x :| x in raised && Below(g, x, s) && x.jobset == j;
        assert x in raised + {b};
      } else {
        assert b in raised + {b};
      }
    }
  }

  /** Propagating one more build, to exactly the steps below it. */
  lemma RaisedNext(g: Deps, p: map<StepId, Prio>, q: map<StepId, Prio>, raised: set<Build>, b: Build, done: set<StepId>)
    requires Raised(g, p, q, raised) && forall s :: s in p ==> (s in done <==> Below(g, b, s))
    ensures Raised(g, p, Raise(q, done, b), raised + {b})
  {
    forall s | s in p ensures RaisedAt(g, p[s], Raise(q, done, b)[s], raised + {b}, s) {
      PrioNext(g, p[s], q[s], raised, b, s);
    }
  }

  // ---- passes of several builds, one after the other ----

  /** A pass of the build may touch exactly these steps. */
  ghost predicate PassOver(g: Deps, b: Build, done: set<StepId>) {
    exists queued :: PassOk(g, b, queued, [], done)
  }

  /** The builds were propagated in this order. */
  ghost predicate Passes(g: Deps, bs: seq<Build>, p: map<StepId, Prio>, q: map<StepId, Prio>)
    decreases |bs|, 1
  {
    if bs == [] then q == p else exists m, done :: LastPass(g, bs, p, m, done, q)
  }

  ghost predicate LastPass(g: Deps, bs: seq<Build>, p: map<StepId, Prio>, m: map<StepId, Prio>, done: set<StepId>,
                           q: map<StepId, Prio>)
    requires bs != []
    decreases |bs|, 0
  {
    var last := bs[|bs| - 1];
    Passes(g, bs[..|bs| - 1], p, m) && PassOver(g, last, done) && q == Raise(m, done, last)
  }

  lemma PassesNext(g: Deps, bs: seq<Build>, p: map<StepId, Prio>, m: map<StepId, Prio>, b: Build, done: set<StepId>)
    requires Passes(g, bs, p, m) && PassOver(g, b, done)
    ensures Passes(g, bs + [b], p, Raise(m, done, b))
  {
    assert (bs + [b])[..|bs|] == bs;
    assert LastPass(g, bs + [b], p, m, done, Raise(m, done, b));
  }

  /** With different paths below each build every step gets the maximum, maximum, minimum
      and union over the builds it is below. */
  lemma {:induction false} PassesRaised(g: Deps, bs: seq<Build>, p: map<StepId, Prio>, q: map<StepId, Prio>)
    requires Valid(g) && Passes(g, bs, p, q) && forall b :: b in bs ==> ValidBuild(g, b) && DistinctBelow(g, b)
    ensures Raised(g, p, q, set b | b in bs)
    decreases |bs|
  {
    if bs == [] {
      RaisedNone(g, p);
      assert (set b | b in bs) == {};
    } else {
      var m, done :| LastPass(g, bs, p, m, done, q);
      var init, last := bs[..|bs| - 1], bs[|bs| - 1];
      PassesRaised(g, init, p, m);
      var queued :| PassOk(g, last, queued, [], done);
      PassExactly(g, last, queued, done);
      RaisedNext(g, p, m, (set b | b in init), last, done);
      assert bs == init + [last];
      assert (set b | b in bs) == (set b | b in init) + {last};
    }
  }

  /** On a fixed graph, two sequences of passes over the same builds give the same
      priorities, whatever their order and repetitions and the order in which each pass
      meets the dependencies, if the steps below each build have different paths. */
  lemma OrderIrrelevant(
      g: Deps, bs: seq<Build>, cs: seq<Build>, p: map<StepId, Prio>, q: map<StepId, Prio>, r: map<StepId, Prio>)
    requires Valid(g) && forall b :: b in bs ==> ValidBuild(g, b) && DistinctBelow(g, b)
    requires forall b :: b in bs <==> b in cs
    requires Passes(g, bs, p, q) && Passes(g, cs, p, r)
    ensures q == r
  {
    PassesRaised(g, bs, p, q);
    PassesRaised(g, cs, p, r);
    assert (set b | b in bs) == (set b | b in cs);
    RaisedUnique(g, p, q, r, (set b | b in bs));
  }

  // ---- in place ----

  class Propagator {
    const deps: Deps
    var prio: map<StepId, Prio>
    var builds: map<BuildId, Build>

    constructor (deps: Deps, prio: map<StepId, Prio>, builds: map<BuildId, Build>)
      ensures this.deps == deps && this.prio == prio && this.builds == builds
    {
      this.deps, this.prio, this.builds := deps, prio, builds;
    }

    ghost predicate Ok()
      reads this
    {
      && Valid(deps) && prio.Keys == deps.paths.Keys
      && BuildsOk(deps, builds)
    }

    /** Breadth first from the top-level step over dependencies not yet queued. */
    method Pass(b: Build) returns (queued: map<Path, StepId>, ghost done: set<StepId>)
      requires Valid(deps) && prio.Keys == deps.paths.Keys && ValidBuild(deps, b)
      modifies this`prio
      ensures PassOk(deps, b, queued, [], done) && PassOver(deps, b, done)
      ensures prio == Raise(old(prio), done, b) && prio.Keys == old(prio).Keys
    {
      var todo := b.toplevel;
      queued, done := map[], {};
      StartPass(deps, b, prio);
      while todo != []
        invariant PassOk(deps, b, queued, todo, done) && prio == Raise(old(prio), done, b)
        decreases |Universe(deps) - queued.Keys|, |todo|
      {
        var s := todo[0];
        assert MetOk(deps, b, queued, todo, done, s);
        RaiseAgain(old(prio), done, s, b);
        prio := prio[s := Bump(prio[s], b)];
        var queued', rest := QueueUnmet(deps, queued, todo[1..], s);
        PassNext(deps, b, queued, todo, done, queued', rest);
        FewerUnseen(deps, b, queued, todo, done, queued', rest);
        queued, todo, done := queued', rest, done + {s};
      }
    }

    /** The steps below the build, and no others, get the maximum, maximum, minimum
        and union with it; all of them if they have different paths. */
    method PropagatePriorities(b: Build)
      requires Valid(deps) && prio.Keys == deps.paths.Keys && ValidBuild(deps, b)
      modifies this`prio
      ensures Passes(deps, [] + [b], old(prio), prio)
      ensures exists done :: prio == Raise(old(prio), done, b) && forall s :: s in done ==> Below(deps, b, s)
      ensures DistinctBelow(deps, b) ==> Raised(deps, old(prio), prio, {b})
    {
      var queued, done := Pass(b);
      PassExactly(deps, b, queued, done);
      PassesNext(deps, [], old(prio), old(prio), b, done);
      if DistinctBelow(deps, b) {
        PassesRaised(deps, [] + [b], old(prio), prio);
        assert (set x | x in [] + [b]) == {b};
      }
    }

    /** Builds that are no longer current are dropped; exactly the builds whose priority
        rose are propagated again, in some order. */
    method UpdatePriorities(current: map<BuildId, int>) returns (ghost order: seq<Build>)
      requires Ok()
      modifies this`prio, this`builds
      ensures Ok() && builds == Updated(old(builds), current)
      ensures (set b | b in order) == Risen(old(builds), current, {}) && Passes(deps, order, old(prio), prio)
      ensures AllDistinct(deps, old(builds)) ==> Raised(deps, old(prio), prio, Risen(old(builds), current, {}))
    {
      builds := map i | i in builds && i in current :: builds[i];
      var todo := builds.Keys;
      order := [];
      assert Risen(old(builds), current, todo) == {};
      while todo != {}
        invariant todo <= old(builds).Keys && todo <= current.Keys && prio.Keys == deps.paths.Keys
        invariant builds == DoneUpdating(old(builds), current, todo)
        invariant (set b | b in order) == Risen(old(builds), current, todo) && Passes(deps, order, old(prio), prio)
        decreases todo
      {
        ghost var next := HasElement(todo);
        var i :| i in todo;
        StillOld(old(builds), current, todo, i);
        order := UpdateOne(i, current, old(builds), old(prio), todo, order);
        todo := todo - {i};
      }
      UpdatedOk(deps, old(builds), current);
      UpdatedRaises(deps, old(builds), current, order, old(prio), prio);
    }

    /** One current build: raised and propagated again if its new priority is higher. */
    method UpdateOne(i: BuildId, current: map<BuildId, int>, ghost was: map<BuildId, Build>,
                     ghost prio0: map<StepId, Prio>, ghost todo: set<BuildId>, ghost before: seq<Build>)
        returns (ghost order: seq<Build>)
      requires Valid(deps) && prio.Keys == deps.paths.Keys && i in builds && i in current && i in todo && i in was
      requires builds[i] == was[i] && ValidBuild(deps, builds[i])
      requires builds == DoneUpdating(was, current, todo)
      requires (set b | b in before) == Risen(was, current, todo) && Passes(deps, before, prio0, prio)
      modifies this`prio, this`builds
      ensures builds == DoneUpdating(was, current, todo - {i}) && prio.Keys == deps.paths.Keys
      ensures (set b | b in order) == Risen(was, current, todo - {i}) && Passes(deps, order, prio0, prio)
    {
      var b := builds[i];
      order := before;
      if b.global < current[i] {
        b := b.(global := current[i]);
        builds := builds[i := b];
        var queued, done := Pass(b);
        PassesNext(deps, before, prio0, old(prio), b, done);
        order := before + [b];
        assert (set x | x in order) == (set x | x in before) + {b};
        RisenNext(was, current, todo, i);
      } else {
        StayNext(deps, was, current, todo, i);
      }
    }
  }

  function Updated(builds: map<BuildId, Build>, current: map<BuildId, int>): map<BuildId, Build> {
    map i | i in builds && i in current :: builds[i].(global := Max(builds[i].global, current[i]))
  }

  /** The builds whose priority rose, with their new priority, but for those in `todo`. */
  function Risen(builds: map<BuildId, Build>, current: map<BuildId, int>, todo: set<BuildId>): set<Build> {
    set i | i in builds && i in current && i !in todo && builds[i].global < current[i] ::
      builds[i].(global := current[i])
  }

  function DoneUpdating(builds: map<BuildId, Build>, current: map<BuildId, int>, todo: set<BuildId>)
      : map<BuildId, Build> {
    map i | i in builds && i in current ::
      if i in todo then builds[i] else builds[i].(global := Max(builds[i].global, current[i]))
  }

  ghost predicate AllDistinct(g: Deps, builds: map<BuildId, Build>) {
    forall i :: i in builds ==> DistinctBelow(g, builds[i])
  }

  ghost predicate BuildsOk(g: Deps, builds: map<BuildId, Build>) {
    forall i :: i in builds ==> builds[i].id == i && ValidBuild(g, builds[i])
  }

  lemma UpdatedOk(g: Deps, was: map<BuildId, Build>, current: map<BuildId, int>)
    requires BuildsOk(g, was)
    ensures BuildsOk(g, Updated(was, current)) && DoneUpdating(was, current, {}) == Updated(was, current)
  {
  }

  lemma StillOld(was: map<BuildId, Build>, current: map<BuildId, int>, todo: set<BuildId>, i: BuildId)
    requires i in todo && i in was && i in current
    ensures i in DoneUpdating(was, current, todo) && DoneUpdating(was, current, todo)[i] == was[i]
  {
  }

  lemma UpdatedRaises(g: Deps, was: map<BuildId, Build>, current: map<BuildId, int>, order: seq<Build>,
                      p: map<StepId, Prio>, q: map<StepId, Prio>)
    requires Valid(g) && BuildsOk(g, was) && (set b | b in order) == Risen(was, current, {}) && Passes(g, order, p, q)
    ensures AllDistinct(g, was) ==> Raised(g, p, q, Risen(was, current, {}))
  {
    if AllDistinct(g, was) {
      forall b | b in order ensures ValidBuild(g, b) && DistinctBelow(g, b) {
        assert b in (set x | x in order) && b in Risen(was, current, {});
        var i :| i in was && i in current && was[i].global < current[i] && was[i].(global := current[i]) == b;
        SameBelow(g, was[i], b);
      }
      PassesRaised(g, order, p, q);
    }
  }

  lemma RisenNext(was: map<BuildId, Build>, current: map<BuildId, int>, todo: set<BuildId>, i: BuildId)
    requires i in todo && i in was && i in current && was[i].global < current[i]
    ensures var b := was[i].(global := current[i]);
      && Risen(was, current, todo - {i}) == Risen(was, current, todo) + {b}
      && DoneUpdating(was, current, todo - {i}) == DoneUpdating(was, current, todo)[i := b]
  {
  }

  lemma StayNext(g: Deps, was: map<BuildId, Build>, current: map<BuildId, int>, todo: set<BuildId>, i: BuildId)
    requires i in todo && i in was && i in current && was[i].global >= current[i]
    ensures DoneUpdating(was, current, todo - {i}) == DoneUpdating(was, current, todo)
    ensures Risen(was, current, todo - {i}) == Risen(was, current, todo)
  {
  }

  /** What is below a build does not depend on its priority. */
  lemma SameBelow(g: Deps, a: Build, b: Build)
    requires a.toplevel == b.toplevel
    ensures forall s :: Below(g, a, s) <==> Below(g, b, s)
    ensures DistinctBelow(g, a) <==> DistinctBelow(g, b)
  {
    forall s ensures StrictlyBelow(g, a, s) <==> StrictlyBelow(g, b, s) {}
  }

  lemma RaisedNone(g: Deps, p: map<StepId, Prio>)
    ensures Raised(g, p, p, {})
  {
    forall s | s in p ensures RaisedAt(g, p[s], p[s], {}, s) {}
  }

  lemma StartPass(g: Deps, b: Build, prio: map<StepId, Prio>)
    requires ValidBuild(g, b)
    ensures PassOk(g, b, map[], b.toplevel, {}) && prio == Raise(prio, {}, b)
  {
    forall s ensures MetOk(g, b, map[], b.toplevel, {}, s) {
      if s in b.toplevel { assert s == b.toplevel[0]; }
    }
    forall q ensures QueuedOk(g, b, map[], b.toplevel, {}, q) {}
  }

  ghost predicate AddsPaths(g: Deps, queued: map<Path, StepId>, unmet: set<StepId>, r: map<Path, StepId>)
    requires unmet <= g.paths.Keys
  {
    && (forall q :: q in queued ==> q in r && r[q] == queued[q])
    && (forall d :: d in unmet ==> g.paths[d] in r && r[g.paths[d]] == d)
    && (forall q :: q in r && q !in queued ==> r[q] in unmet && g.paths[r[q]] == q)
  }

  function Universe(g: Deps): set<Path> {
    set s | s in g.paths :: g.paths[s]
  }

  /** Each round either meets a new path or shortens the list of waiting steps. */
  lemma FewerUnseen(g: Deps, b: Build, queued: map<Path, StepId>, todo: seq<StepId>, done: set<StepId>,
                    queued': map<Path, StepId>, todo': seq<StepId>)
    requires todo != [] && PassOk(g, b, queued', todo', done + {todo[0]})
    requires AddsPaths(g, queued, Unmet(g, todo[0], queued.Keys), queued')
    requires Unmet(g, todo[0], queued.Keys) == {} ==> todo' == todo[1..]
    ensures |Universe(g) - queued'.Keys| < |Universe(g) - queued.Keys|
      || (queued'.Keys == queued.Keys && |todo'| < |todo|)
  {
    var unmet := Unmet(g, todo[0], queued.Keys);
    if unmet != {} {
      var d :| d in unmet;
      var p := g.paths[d];
      MeetsPath(Universe(g), queued, queued', p);
    } else {
      forall q ensures q in queued' <==> q in queued {}
    }
  }

  lemma MeetsPath(u: set<Path>, queued: map<Path, StepId>, queued': map<Path, StepId>, p: Path)
    requires p in u && p in queued' && p !in queued && forall q :: q in queued ==> q in queued'
    ensures |u - queued'.Keys| < |u - queued.Keys|
  {
    var a, b := u - queued'.Keys, u - queued.Keys;
    assert a <= b - {p} && p in b;
    SubsetSize(a, b - {p});
  }

  ghost predicate Pushed(todo: seq<StepId>, add: set<StepId>, out: seq<StepId>) {
    forall x :: x in out <==> x in todo || x in add
  }

  /** The dependencies of `s` that are not queued yet are queued and pushed. */
  method QueueUnmet(g: Deps, queued: map<Path, StepId>, todo: seq<StepId>, s: StepId)
    returns (queued': map<Path, StepId>, todo': seq<StepId>)
    requires Valid(g) && s in g.paths
    ensures AddsPaths(g, queued, Unmet(g, s, queued.Keys), queued')
    ensures Pushed(todo, Unmet(g, s, queued.Keys), todo')
    ensures Unmet(g, s, queued.Keys) == {} ==> todo' == todo
  {
    queued', todo' := queued, todo;
    var unmet := Unmet(g, s, queued.Keys);
    var rest := unmet;
    while rest != {}
      invariant rest <= unmet
      invariant AddsPaths(g, queued, unmet - rest, queued')
      invariant Pushed(todo, unmet - rest, todo')
      invariant unmet == {} ==> todo' == todo
      decreases |rest|
    {
      var d :| d in rest;
      QueueNext(g, queued, todo, s, rest, d, queued', todo');
      queued' := queued'[g.paths[d] := d];
      todo' := todo' + [d];
      rest := rest - {d};
    }
    assert unmet - {} == unmet;
  }

  /** One more unmet dependency is queued and pushed. */
  lemma QueueNext(g: Deps, queued: map<Path, StepId>, todo: seq<StepId>, s: StepId, rest: set<StepId>, d: StepId,
                  queued': map<Path, StepId>, todo': seq<StepId>)
    requires Valid(g) && s in g.paths && rest <= Unmet(g, s, queued.Keys) && d in rest
    requires AddsPaths(g, queued, Unmet(g, s, queued.Keys) - rest, queued')
    requires Pushed(todo, Unmet(g, s, queued.Keys) - rest, todo')
    ensures AddsPaths(g, queued, Unmet(g, s, queued.Keys) - (rest - {d}), queued'[g.paths[d] := d])
    ensures Pushed(todo, Unmet(g, s, queued.Keys) - (rest - {d}), todo' + [d])
  {
    var unmet := Unmet(g, s, queued.Keys);
    assert unmet - (rest - {d}) == (unmet - rest) + {d};
    AddsNext(g, queued, unmet - rest, d, queued');
    PushesNext(todo, unmet - rest, d, todo');
  }

  lemma AddsNext(g: Deps, queued: map<Path, StepId>, v: set<StepId>, d: StepId, r: map<Path, StepId>)
    requires v <= g.paths.Keys && d in g.paths && g.paths[d] !in queued && AddsPaths(g, queued, v, r)
    requires forall x :: x in v ==> g.paths[x] != g.paths[d]
    ensures AddsPaths(g, queued, v + {d}, r[g.paths[d] := d])
  {
  }

  lemma PushesNext(todo: seq<StepId>, v: set<StepId>, d: StepId, out: seq<StepId>)
    requires Pushed(todo, v, out)
    ensures Pushed(todo, v + {d}, out + [d])
  {
  }
}
