/**
 The walk over reverse dependencies and the loop that fails every build above a
 failed step.

 Sets of steps and of builds compare their elements by derivation path, so both
 are kept as maps from the path to the element that got in first.
 */
module Dependents {
  import opened Collections
  import opened Reachability
  import StepGraph

  type Path = StepGraph.Path
  type StepId = StepGraph.StepId
  type BuildId = int

  datatype Node = Node(path: Path, rdeps: seq<StepId>, builds: seq<BuildId>)
  datatype Build = Build(path: Path, finished: bool)

  /** What the walk reads: the step objects, which of them are alive, and the
      builds a weak pointer still reaches. */
  datatype Table = Table(nodes: map<StepId, Node>, live: set<StepId>, builds: map<BuildId, Build>)

  predicate Valid(t: Table) {
    t.live <= t.nodes.Keys
  }

  predicate Open(t: Table, b: BuildId) {
    b in t.builds && !t.builds[b].finished
  }

  /** Build `b` is unfinished and step `s` is its top level. */
  predicate OpenAt(t: Table, s: StepId, b: BuildId) {
    s in t.nodes && b in t.nodes[s].builds && Open(t, b)
  }

  function LiveRdeps(t: Table, s: StepId): set<StepId>
    requires s in t.nodes
  {
    set u | u in t.live && u in t.nodes[s].rdeps
  }

  function Up(t: Table): Edges<StepId> {
    map s | s in t.nodes :: LiveRdeps(t, s)
  }

  function Universe(t: Table): set<Path> {
    set s | s in t.live && s in t.nodes :: t.nodes[s].path
  }

  /** Each entry is a live step stored under its own path. */
  predicate SeenOk(t: Table, seen: map<Path, StepId>) {
    forall p :: p in seen ==> seen[p] in t.live && seen[p] in t.nodes && t.nodes[seen[p]].path == p
  }

  /** A live dependent has its path in the set. */
  predicate Followed(t: Table, u: StepId, more: map<Path, StepId>) {
    u in t.live ==> u in t.nodes && t.nodes[u].path in more
  }

  /** What `more` adds to `seen` is reached from `s`, and its own dependents are in
      `more` up to equality of paths, but for those of the steps at `open`. */
  ghost predicate WalkOk(t: Table, s: StepId, seen: map<Path, StepId>, more: map<Path, StepId>, open: set<Path>) {
    && SeenOk(t, more)
    && (forall p :: p in seen ==> p in more && more[p] == seen[p])
    && (forall p :: p in more && p !in seen ==> Reaches(Up(t), s, more[p]))
    && (forall p :: p in more && p !in seen && p !in open && more[p] in t.nodes ==>
          forall u :: u in t.nodes[more[p]].rdeps ==> Followed(t, u, more))
  }

  /** `out` keeps the representatives of `reps` and adds one for exactly the paths
      of the open builds of the steps that `more` adds to `seen`. */
  ghost predicate RepsOk(t: Table, reps: map<Path, BuildId>, out: map<Path, BuildId>,
                         seen: map<Path, StepId>, more: map<Path, StepId>)
  {
    && (forall q :: q in reps ==> q in out && out[q] == reps[q])
    && (forall p, b :: p in more && p !in seen && OpenAt(t, more[p], b) ==> t.builds[b].path in out)
    && (forall q :: q in out && q !in reps ==>
          && out[q] in t.builds && t.builds[out[q]].path == q
          && exists p :: p in more && p !in seen && OpenAt(t, more[p], out[q]))
  }

  // ---- the walk as a function ----

  /** The steps met so far, after the walk from `s`: the first object of each path. */
  function Visit(t: Table, s: StepId, seen: map<Path, StepId>): (r: map<Path, StepId>)
    requires Valid(t) && s in t.live
    ensures forall p :: p in seen ==> p in r && r[p] == seen[p]
    decreases |Universe(t) - seen.Keys|, 0
  {
    var p := t.nodes[s].path;
    if p in seen then seen
    else
      SmallerRest(t, seen, seen[p := s], p);
      VisitAll(t, t.nodes[s].rdeps, seen[p := s])
  }

  /** The walks from several dependents, one after the other. */
  function VisitAll(t: Table, us: seq<StepId>, seen: map<Path, StepId>): (r: map<Path, StepId>)
    requires Valid(t)
    ensures forall p :: p in seen ==> p in r && r[p] == seen[p]
    decreases |Universe(t) - seen.Keys|, |us| + 1
  {
    if us == [] then seen
    else
      var v := VisitAll(t, us[..|us| - 1], seen);
      SubsetSize(Universe(t) - v.Keys, Universe(t) - seen.Keys);
      if us[|us| - 1] in t.live then Visit(t, us[|us| - 1], v) else v
  }

  /** Adding the open builds of one step. */
  method CollectBuilds(t: Table, s: StepId, reps: map<Path, BuildId>) returns (out: map<Path, BuildId>)
    requires s in t.nodes
    ensures forall q :: q in reps ==> q in out && out[q] == reps[q]
    ensures forall b :: OpenAt(t, s, b) ==> t.builds[b].path in out
    ensures forall q :: q in out && q !in reps ==> OpenAt(t, s, out[q]) && t.builds[out[q]].path == q
  {
    out := reps;
    for i := 0 to |t.nodes[s].builds|
      invariant forall q :: q in reps ==> q in out && out[q] == reps[q]
      invariant forall k :: 0 <= k < i && Open(t, t.nodes[s].builds[k]) ==> t.builds[t.nodes[s].builds[k]].path in out
      invariant forall q :: q in out && q !in reps ==> OpenAt(t, s, out[q]) && t.builds[out[q]].path == q
    {
      var b := t.nodes[s].builds[i];
      if Open(t, b) && t.builds[b].path !in out {
        out := out[t.builds[b].path := b];
      }
    }
  }

  /** The walk from `s` after the first `i` of its dependents. */
  ghost predicate Visiting(t: Table, s: StepId, i: nat, reps: map<Path, BuildId>, out: map<Path, BuildId>,
                           seen: map<Path, StepId>, more: map<Path, StepId>)
  {
    && s in t.live && s in t.nodes && i <= |t.nodes[s].rdeps|
    && t.nodes[s].path !in seen && t.nodes[s].path in more && more[t.nodes[s].path] == s
    && WalkOk(t, s, seen, more, {t.nodes[s].path})
    && RepsOk(t, reps, out, seen, more)
    && forall k :: 0 <= k < i ==> Followed(t, t.nodes[s].rdeps[k], more)
  }

  /** The contract of the walk. */
  ghost predicate Visited(t: Table, s: StepId, reps: map<Path, BuildId>, out: map<Path, BuildId>,
                          seen: map<Path, StepId>, more: map<Path, StepId>)
    requires s in t.nodes
  {
    && WalkOk(t, s, seen, more, {}) && RepsOk(t, reps, out, seen, more)
    && t.nodes[s].path in more && (t.nodes[s].path !in seen ==> more[t.nodes[s].path] == s)
  }

  /** The steps and builds that depend on `s`, collected depth first. */
  method GetDependents(t: Table, s: StepId, reps: map<Path, BuildId>, seen: map<Path, StepId>)
    returns (out: map<Path, BuildId>, more: map<Path, StepId>)
    requires Valid(t) && s in t.live && SeenOk(t, seen)
    ensures Visited(t, s, reps, out, seen, more) && more == Visit(t, s, seen)
    decreases |Universe(t) - seen.Keys|
  {
    out, more := reps, seen;
    if t.nodes[s].path in seen {
      return;
    }
    more := more[t.nodes[s].path := s];
    out := CollectBuilds(t, s, out);
    VisitStarts(t, s, reps, out, seen);
    for i := 0 to |t.nodes[s].rdeps|
      invariant Visiting(t, s, i, reps, out, seen, more)
      invariant more == VisitAll(t, t.nodes[s].rdeps[..i], seen[t.nodes[s].path := s])
    {
      var u := t.nodes[s].rdeps[i];
      ghost var out1, more1 := out, more;
      if u in t.live {
        SmallerRest(t, seen, more, t.nodes[s].path);
        out, more := GetDependents(t, u, out, more);
      }
      VisitNext(t, s, i, reps, out1, out, seen, more1, more);
      VisitAllNext(t, t.nodes[s].rdeps, i, seen[t.nodes[s].path := s], more1, more);
    }
    VisitEnds(t, s, reps, out, seen, more);
    VisitIs(t, s, seen, more);
  }

  lemma VisitAllNext(
      t: Table, us: seq<StepId>, i: nat, seen: map<Path, StepId>, more1: map<Path, StepId>, more: map<Path, StepId>)
    requires Valid(t) && i < |us| && more1 == VisitAll(t, us[..i], seen)
    requires more == if us[i] in t.live then Visit(t, us[i], more1) else more1
    ensures more == VisitAll(t, us[..i + 1], seen)
  {
    assert us[..i + 1][..i] == us[..i];
  }

  lemma VisitIs(t: Table, s: StepId, seen: map<Path, StepId>, more: map<Path, StepId>)
    requires Valid(t) && s in t.live && t.nodes[s].path !in seen
    requires var us := t.nodes[s].rdeps; more == VisitAll(t, us[..|us|], seen[t.nodes[s].path := s])
    ensures more == Visit(t, s, seen)
  {
    var us := t.nodes[s].rdeps;
    assert us[..|us|] == us;
  }

  lemma VisitNext(
      t: Table, s: StepId, i: nat, reps: map<Path, BuildId>, out1: map<Path, BuildId>, out: map<Path, BuildId>,
                  seen: map<Path, StepId>, more1: map<Path, StepId>, more: map<Path, StepId>)
    requires Valid(t) && Visiting(t, s, i, reps, out1, seen, more1) && i < |t.nodes[s].rdeps|
    requires if t.nodes[s].rdeps[i] in t.live
             then Visited(t, t.nodes[s].rdeps[i], out1, out, more1, more)
             else out == out1 && more == more1
    ensures Visiting(t, s, i + 1, reps, out, seen, more)
  {
    var u := t.nodes[s].rdeps[i];
    if u in t.live {
      RepsCompose(t, reps, out1, out, seen, more1, more);
      WalkCompose(t, s, u, seen, more1, more, t.nodes[s].path);
    }
  }

  lemma VisitEnds(t: Table, s: StepId, reps: map<Path, BuildId>, out: map<Path, BuildId>,
                  seen: map<Path, StepId>, more: map<Path, StepId>)
    requires s in t.nodes && Visiting(t, s, |t.nodes[s].rdeps|, reps, out, seen, more)
    ensures Visited(t, s, reps, out, seen, more)
  {
  }

  lemma VisitStarts(t: Table, s: StepId, reps: map<Path, BuildId>, out: map<Path, BuildId>, seen: map<Path, StepId>)
    requires Valid(t) && s in t.live && SeenOk(t, seen) && t.nodes[s].path !in seen
    requires forall q :: q in reps ==> q in out && out[q] == reps[q]
    requires forall b :: OpenAt(t, s, b) ==> t.builds[b].path in out
    requires forall q :: q in out && q !in reps ==> OpenAt(t, s, out[q]) && t.builds[out[q]].path == q
    ensures Visiting(t, s, 0, reps, out, seen, seen[t.nodes[s].path := s])
  {
    ReachesSelf(Up(t), s);
  }

  lemma WalkCompose(
      t: Table, s: StepId, u: StepId, s0: map<Path, StepId>, s1: map<Path, StepId>, s2: map<Path, StepId>, here: Path)
    requires s in t.nodes && u in LiveRdeps(t, s)
    requires WalkOk(t, s, s0, s1, {here}) && WalkOk(t, u, s1, s2, {}) && here in s1
    ensures WalkOk(t, s, s0, s2, {here})
  {
    forall p | p in s2 && p !in s1 ensures Reaches(Up(t), s, s2[p]) {
      assert u in Succ(Up(t), s);
      ReachesFrom(Up(t), s, u, s2[p]);
    }
  }

  lemma RepsCompose(t: Table, a: map<Path, BuildId>, b: map<Path, BuildId>, c: map<Path, BuildId>,
                    s0: map<Path, StepId>, s1: map<Path, StepId>, s2: map<Path, StepId>)
    requires RepsOk(t, a, b, s0, s1) && RepsOk(t, b, c, s1, s2)
    requires forall p :: p in s0 ==> p in s1
    requires forall p :: p in s1 ==> p in s2 && s2[p] == s1[p]
    ensures RepsOk(t, a, c, s0, s2)
  {
  }

  lemma SmallerRest(t: Table, seen: map<Path, StepId>, more: map<Path, StepId>, p: Path)
    requires seen.Keys <= more.Keys && p in more && p !in seen && p in Universe(t)
    ensures |Universe(t) - more.Keys| < |Universe(t) - seen.Keys|
  {
    var a, b := Universe(t) - more.Keys, Universe(t) - seen.Keys;
    assert a <= b - {p};
    SubsetSize(a, b - {p});
  }

  // ---- what one walk finds ----

  ghost predicate Above(t: Table, f: StepId, s: StepId) {
    Reaches(Up(t), f, s)
  }

  /** No two objects above `f` share a path. */
  ghost predicate DistinctPaths(t: Table, f: StepId) {
    forall a, b :: Above(t, f, a) && Above(t, f, b) && a in t.nodes && b in t.nodes && a != b ==>
      t.nodes[a].path != t.nodes[b].path
  }

  /** Build `b` is unfinished and its top-level step is above `f`. */
  ghost predicate OpenAbove(t: Table, f: StepId, b: BuildId) {
    exists s :: Above(t, f, s) && OpenAt(t, s, b)
  }

  /** The walk visits exactly the objects above `f` if and only if these have
      pairwise different paths. */
  lemma VisitsExactly(t: Table, f: StepId, out: map<Path, BuildId>, more: map<Path, StepId>)
    requires Valid(t) && f in t.live && Visited(t, f, map[], out, map[], more)
    ensures (forall s :: Above(t, f, s) ==> s in more.Values) <==> DistinctPaths(t, f)
    ensures forall s :: s in more.Values ==> Above(t, f, s)
  {
    if DistinctPaths(t, f) {
      forall s, u | s in more.Values && u in Succ(Up(t), s) ensures u in more.Values {
        var p :| p in more && more[p] == s;
        ReachesThen(Up(t), f, s, u);
        assert Followed(t, u, more);
        assert more[t.nodes[u].path] in more.Values;
      }
      forall s | Above(t, f, s) ensures s in more.Values {
        assert more[t.nodes[f].path] in more.Values;
        ClosedUnderReach(Up(t), more.Values, f, s);
      }
    }
    if forall s :: Above(t, f, s) ==> s in more.Values {
      forall a, b | Above(t, f, a) && Above(t, f, b) && a in t.nodes && b in t.nodes
        && t.nodes[a].path == t.nodes[b].path
        ensures a == b
      {
        assert a in more.Values && b in more.Values;
      }
    }
  }

  /** The representatives stand for exactly the paths of the open builds above `f`. */
  lemma RepresentsExactly(t: Table, f: StepId, out: map<Path, BuildId>, more: map<Path, StepId>, q: Path)
    requires Valid(t) && f in t.live && Visited(t, f, map[], out, map[], more) && DistinctPaths(t, f)
    ensures q in out <==> exists b :: OpenAbove(t, f, b) && b in t.builds && t.builds[b].path == q
    ensures q in out ==> out[q] in t.builds && OpenAbove(t, f, out[q]) && t.builds[out[q]].path == q
  {
    VisitsExactly(t, f, out, more);
    if q in out {
      var p :| p in more && OpenAt(t, more[p], out[q]);
      assert Above(t, f, more[p]);
    }
    forall b | OpenAbove(t, f, b) && b in t.builds && t.builds[b].path == q ensures q in out {
      var s :| Above(t, f, s) && OpenAt(t, s, b);
      var p :| p in more && more[p] == s;
    }
  }
}
