/**
 Failing every build above a permanently failed step.

 Every pass waits for the database between the walk and the marking of the builds it
 found. All that time the steps are registered, so others may attach builds and
 dependents, finish builds, and free and forget steps. What they do is a parameter: a
 list of moves for each wait.
 */
module FailureLoop {
  import opened Collections
  import opened Reachability
  import opened Dependents
  import StepGraph
  import StepGraphRuns
  import StepGraphSkipped

  /** A new build of a registered step, a new registered step, a dependent of a
      registered step, a build that ends, a step that is freed, a path that is forgotten. */
  datatype Move =
    | AddBuild(b: BuildId, s: StepId)
    | AddStep(u: StepId, p: Path)
    | AddDependent(d: StepId, u: StepId)
    | EndBuild(b: BuildId)
    | FreeStep(s: StepId)
    | Forget(p: Path)

  datatype Shared = Shared(t: Table, registry: map<Path, StepId>, tracked: set<BuildId>)

  predicate Registered(x: Shared, s: StepId) {
    s in x.t.live && s in x.t.nodes && x.t.nodes[s].path in x.registry && x.registry[x.t.nodes[s].path] == s
  }

  /** A move that is not possible does nothing. The failed step is held by its task. */
  function Moved(x: Shared, f: StepId, m: Move): Shared {
    match m
    case AddBuild(b, s) =>
      if b in x.t.builds || !Registered(x, s) then x
      else
        var n := x.t.nodes[s];
        x.(t := x.t.(nodes := x.t.nodes[s := n.(builds := n.builds + [b])],
            builds := x.t.builds[b := Build(n.path, false)]),
           tracked := x.tracked + {b})
    case AddStep(u, p) =>
      if u in x.t.nodes || (p in x.registry && x.registry[p] in x.t.live) then x
      else x.(t := x.t.(nodes := x.t.nodes[u := Node(p, [], [])], live := x.t.live + {u}),
        registry := x.registry[p := u])
    case AddDependent(d, u) =>
      if !Registered(x, d) || u !in x.t.live then x
      else
        var n := x.t.nodes[d];
        x.(t := x.t.(nodes := x.t.nodes[d := n.(rdeps := n.rdeps + [u])]))
    case EndBuild(b) =>
      if b !in x.t.builds then x
      else x.(t := x.t.(builds := x.t.builds[b := x.t.builds[b].(finished := true)]), tracked := x.tracked - {b})
    case FreeStep(s) => if s == f then x else x.(t := x.t.(live := x.t.live - {s}))
    case Forget(p) => x.(registry := x.registry - {p})
  }

  /** The move frees a step that a live dependent or an unfinished build still owns. */
  ghost predicate Cuts(x: Shared, f: StepId, m: Move) {
    && m.FreeStep? && m.s != f && m.s in x.t.live && m.s in x.t.nodes
    && (LiveRdeps(x.t, m.s) != {} || exists b :: OpenAt(x.t, m.s, b))
  }

  // ---- what moves keep ----

  predicate SameBuilds(t: Table, h: Table) {
    && (forall b :: b in t.builds ==> b in h.builds && h.builds[b].path == t.builds[b].path
                                      && (t.builds[b].finished ==> h.builds[b].finished))
  }

  lemma MoveValid(x: Shared, f: StepId, m: Move)
    requires Valid(x.t) && f in x.t.live
    ensures var h := Moved(x, f, m).t; Valid(h) && f in h.live && SameBuilds(x.t, h)
  {
  }

  lemma MoveGrows(x: Shared, f: StepId, m: Move)
    requires Valid(x.t) && !m.FreeStep?
    ensures forall s :: Succ(Up(x.t), s) <= Succ(Up(Moved(x, f, m).t), s)
    ensures forall s, b :: OpenAt(x.t, s, b) ==> OpenAt(Moved(x, f, m).t, s, b) || m == EndBuild(b)
  {
  }

  lemma MoreAbove(t: Table, h: Table, f: StepId, s: StepId)
    requires (forall k :: Succ(Up(t), k) <= Succ(Up(h), k)) && Above(t, f, s)
    ensures Above(h, f, s)
  {
    var w :| WalkBetween(Up(t), w, f, s);
    forall i | 0 <= i < |w| - 1 ensures w[i + 1] in Succ(Up(h), w[i]) { assert w[i + 1] in Succ(Up(t), w[i]); }
    assert WalkBetween(Up(h), w, f, s);
  }

  /** A step without live dependents is only at the end of a walk. */
  lemma OnlyAtEnd(t: Table, s: StepId, w: seq<StepId>, i: nat)
    requires s in t.nodes && LiveRdeps(t, s) == {} && Walk(Up(t), w) && i < |w| - 1
    ensures w[i] != s
  {
    assert w[i + 1] in Succ(Up(t), w[i]);
  }

  /** Freeing a step that nothing owns cuts no walk to an unfinished build. */
  lemma FreeKeepsAbove(x: Shared, f: StepId, s: StepId, b: BuildId)
    requires Valid(x.t) && f in x.t.live && !Cuts(x, f, FreeStep(s)) && OpenAbove(x.t, f, b)
    ensures OpenAbove(Moved(x, f, FreeStep(s)).t, f, b)
  {
    var t, h := x.t, Moved(x, f, FreeStep(s)).t;
    var o :| Above(t, f, o) && OpenAt(t, o, b);
    var w :| WalkBetween(Up(t), w, f, o);
    if s != f && s in t.live {
      forall i | 0 <= i < |w| - 1 ensures w[i + 1] in Succ(Up(h), w[i]) {
        assert w[i + 1] in Succ(Up(t), w[i]);
        if i + 1 < |w| - 1 { OnlyAtEnd(t, s, w, i + 1); }
      }
      assert WalkBetween(Up(h), w, f, o);
    } else {
      assert h == t || Up(h) == Up(t);
      assert Above(h, f, o);
    }
    assert Above(h, f, o) && OpenAt(h, o, b);
  }

  /** A build that was open above the failed step still is, unless it was ended or a step
      was freed that something owns. */
  lemma MoveKeepsAbove(x: Shared, f: StepId, m: Move, b: BuildId)
    requires Valid(x.t) && f in x.t.live && !Cuts(x, f, m) && OpenAbove(x.t, f, b)
    ensures var h := Moved(x, f, m).t; b in h.builds && (h.builds[b].finished || OpenAbove(h, f, b))
  {
    var h := Moved(x, f, m).t;
    MoveValid(x, f, m);
    var o :| Above(x.t, f, o) && OpenAt(x.t, o, b);
    if m.FreeStep? {
      FreeKeepsAbove(x, f, m.s, b);
    } else if m != EndBuild(b) {
      MoveGrows(x, f, m);
      MoreAbove(x.t, h, f, o);
      assert Above(h, f, o) && OpenAt(h, o, b);
    }
  }

  // ---- finishing builds ----

  function Close(builds: map<BuildId, Build>, bs: set<BuildId>): map<BuildId, Build> {
    map b | b in builds :: if b in bs then builds[b].(finished := true) else builds[b]
  }

  function Elements<T>(s: seq<T>): set<T> {
    set x | x in s
  }

  predicate NoRepeats<T(==)>(s: seq<T>) {
    forall i, j :: 0 <= i < j < |s| ==> s[i] != s[j]
  }

  lemma OpenAfterClose(t: Table, bs: set<BuildId>, s: StepId, b: BuildId)
    ensures OpenAt(t.(builds := Close(t.builds, bs)), s, b) <==> OpenAt(t, s, b) && b !in bs
  {
  }

  /** Finishing builds changes neither the steps nor what is above what. */
  lemma OpenAboveAfterClose(t: Table, bs: set<BuildId>, f: StepId, b: BuildId)
    ensures OpenAbove(t.(builds := Close(t.builds, bs)), f, b) <==> OpenAbove(t, f, b) && b !in bs
  {
    var h := t.(builds := Close(t.builds, bs));
    assert Up(h) == Up(t);
    forall s ensures Above(h, f, s) <==> Above(t, f, s) {}
    if OpenAbove(h, f, b) {
      var s :| Above(h, f, s) && OpenAt(h, s, b);
      OpenAfterClose(t, bs, s, b);
    }
    if OpenAbove(t, f, b) && b !in bs {
      var s :| Above(t, f, s) && OpenAt(t, s, b);
      OpenAfterClose(t, bs, s, b);
      assert Above(h, f, s);
    }
  }

  function OpenSet(t: Table): set<BuildId> {
    set b | b in t.builds && Open(t, b)
  }

  lemma FewerOpen(t: Table, bs: set<BuildId>, b: BuildId)
    requires b in bs && Open(t, b)
    ensures |OpenSet(t.(builds := Close(t.builds, bs)))| < |OpenSet(t)|
  {
    var h := t.(builds := Close(t.builds, bs));
    assert OpenSet(h) <= OpenSet(t) - {b};
    SubsetSize(OpenSet(h), OpenSet(t) - {b});
  }

  // ---- the loop ----

  /** What the walk found: for each path a build of that path. */
  predicate Found(t: Table, indirect: map<Path, BuildId>) {
    forall q :: q in indirect ==> indirect[q] in t.builds && t.builds[indirect[q]].path == q
  }

  /** Every build that was ever seen open above `f` is finished or still open above `f`,
      as long as no owned step was freed. */
  ghost predicate JoinedOk(t: Table, f: StepId, joined: set<BuildId>, cut: bool) {
    && (forall b :: OpenAbove(t, f, b) ==> b in joined)
    && (forall b :: b in joined ==> b in t.builds && (!cut && !t.builds[b].finished ==> OpenAbove(t, f, b)))
  }

  /** The recorded builds are finished, each recorded once. */
  ghost predicate IdsOk(t: Table, ids: seq<BuildId>, joined: set<BuildId>) {
    NoRepeats(ids) && forall b :: b in ids ==> b in joined && b in t.builds && t.builds[b].finished
  }

  /** Nothing but the recorded builds has changed. */
  ghost predicate Alone(t0: Table, t: Table, f: StepId, ids: seq<BuildId>)
    requires Valid(t0) && f in t0.live
  {
    && t == t0.(builds := Close(t0.builds, Elements(ids)))
    && forall b :: b in ids ==> exists p :: p in Visit(t0, f, map[]) && OpenAt(t0, Visit(t0, f, map[])[p], b)
  }

  /** The last walk: its steps have left the registry and have no unfinished build. */
  ghost predicate Over(t: Table, f: StepId, registry: map<Path, StepId>)
    requires Valid(t) && f in t.live
  {
    forall p :: p in Visit(t, f, map[]) ==> p !in registry && forall b :: !OpenAt(t, Visit(t, f, map[])[p], b)
  }

  class Failing {
    var nodes: map<StepId, Node>
    var live: set<StepId>
    var registry: map<Path, StepId>
    var builds: map<BuildId, Build>
    var tracked: set<BuildId>

    constructor (x: Shared)
      ensures View() == x.t && registry == x.registry && tracked == x.tracked
    {
      nodes, live, builds, registry, tracked := x.t.nodes, x.t.live, x.t.builds, x.registry, x.tracked;
    }

    function View(): Table
      reads this
    {
      Table(nodes, live, builds)
    }

    function Now(): Shared
      reads this
    {
      Shared(View(), registry, tracked)
    }

    /** What others do while a pass waits for the database. */
    method Meanwhile(f: StepId, moves: seq<Move>, ghost was: set<BuildId>, ghost cut0: bool)
        returns (ghost joined: set<BuildId>, ghost cut: bool)
      requires Valid(View()) && f in live && JoinedOk(View(), f, was, cut0)
      modifies this
      ensures Valid(View()) && f in live && JoinedOk(View(), f, joined, cut) && was <= joined && (cut0 ==> cut)
      ensures SameBuilds(old(View()), View())
      ensures moves == [] ==> Now() == old(Now()) && joined == was && cut == cut0
    {
      joined, cut := was, cut0;
      for k := 0 to |moves|
        invariant Valid(View()) && f in live && JoinedOk(View(), f, joined, cut) && was <= joined && (cut0 ==> cut)
        invariant SameBuilds(old(View()), View())
        invariant k == 0 ==> Now() == old(Now()) && joined == was && cut == cut0
      {
        ghost var x := Now();
        var y := Moved(Now(), f, moves[k]);
        nodes, live, builds, registry, tracked := y.t.nodes, y.t.live, y.t.builds, y.registry, y.tracked;
        MoveValid(x, f, moves[k]);
        MovedJoins(x, f, moves[k], joined, cut);
        joined, cut := joined + OpenAboveSet(View(), f), cut || Cuts(x, f, moves[k]);
      }
    }

    /** One walk; when no unfinished build is left above `f`, the visited steps leave the
        registry. */
    method GetAllIndirectBuilds(f: StepId) returns (indirect: map<Path, BuildId>, ghost more: map<Path, StepId>)
      requires Valid(View()) && f in live
      modifies this`registry
      ensures Visited(View(), f, map[], indirect, map[], more) && more == Visit(View(), f, map[])
      ensures registry == if indirect == map[] then old(registry) - more.Keys else old(registry)
    {
      var steps;
      indirect, steps := GetDependents(View(), f, map[], map[]);
      more := steps;
      if indirect == map[] { RemoveSteps(steps.Keys); }
    }

    method RemoveSteps(paths: set<Path>)
      modifies this`registry
      ensures registry == old(registry) - paths
    {
      var todo := paths;
      while todo != {}
        invariant todo <= paths && registry == old(registry) - (paths - todo)
        decreases |todo|
      {
        var p :| p in todo;
        registry := registry - {p};
        todo := todo - {p};
      }
      assert paths - {} == paths;
    }

    /** The found builds are finished, dropped from the tracked ones and recorded. */
    method Finish(indirect: map<Path, BuildId>) returns (found: seq<BuildId>)
      requires Found(View(), indirect)
      modifies this`builds, this`tracked
      ensures NoRepeats(found) && Elements(found) == indirect.Values
      ensures builds == Close(old(builds), Elements(found)) && tracked == old(tracked) - Elements(found)
    {
      found := [];
      var todo := indirect.Keys;
      assert builds == Close(old(builds), Elements(found));
      while todo != {}
        invariant todo <= indirect.Keys
        invariant NoRepeats(found)
        invariant forall b :: b in found <==> exists q :: q in indirect && q !in todo && indirect[q] == b
        invariant builds == Close(old(builds), Elements(found)) && tracked == old(tracked) - Elements(found)
        decreases |todo|
      {
        var q :| q in todo;
        var b := indirect[q];
        assert b !in found;
        ghost var before := found;
        builds := builds[b := builds[b].(finished := true)];
        tracked := tracked - {b};
        found := found + [b];
        todo := todo - {q};
        assert Elements(found) == Elements(before) + {b};
      }
      forall b ensures b in Elements(found) <==> b in indirect.Values {
        assert b in indirect.Values <==> exists q :: q in indirect && indirect[q] == b;
      }
    }

    /** What one pass does with the builds that the walk found at `t`: others run, and then
        the builds are finished. */
    method FailFound(f: StepId, indirect: map<Path, BuildId>, moves: seq<Move>, ids: seq<BuildId>,
                     ghost was: set<BuildId>, ghost cut0: bool)
                         returns (all: seq<BuildId>, ghost joined: set<BuildId>, ghost cut: bool)
      requires Valid(View()) && f in live && IdsOk(View(), ids, was) && JoinedOk(View(), f, was, cut0)
        && Found(View(), indirect)
      requires forall b :: b in indirect.Values ==> Open(View(), b) && b in was
      modifies this
      ensures Valid(View()) && f in live && IdsOk(View(), all, joined) && JoinedOk(View(), f, joined, cut)
        && was <= joined
      ensures moves == [] ==>
        && joined == was && cut == cut0
        && exists found :: ClosedBy(old(View()), View(), indirect, found) && all == ids + found
      ensures moves == [] ==>
        if indirect == map[] then OpenSet(View()) == OpenSet(old(View()))
        else |OpenSet(View())| < |OpenSet(old(View()))|
    {
      ghost var t := View();
      joined, cut := Meanwhile(f, moves, was, cut0);
      ghost var u := View();
      FoundStays(t, u, indirect);
      var found := Finish(indirect);
      PassKeeps(t, u, f, indirect, found, ids, joined, cut);
      if moves == [] {
        PassShrinks(t, indirect, found);
        assert ClosedBy(t, View(), indirect, found);
      }
      all := ids + found;
    }

    /** Repeats until a walk finds no unfinished build after at least one pass. When it
        ends, the steps of the last walk are unregistered and have no unfinished build; if
        all steps above `f` have different paths by then and no owned step was freed,
        every build that was ever open above `f` is finished. Left alone, it finishes
        exactly the unfinished builds of the steps that the walk visits. */
    method InnerFailJob(f: StepId, meanwhile: seq<seq<Move>>)
        returns (ids: seq<BuildId>, ghost joined: set<BuildId>, ghost cut: bool)
      requires Valid(View()) && f in live
      modifies this
      ensures Valid(View()) && f in live && Over(View(), f, registry) && IdsOk(View(), ids, joined)
      ensures JoinedOk(View(), f, joined, cut) && OpenAboveSet(old(View()), f) <= joined
      ensures !cut && DistinctPaths(View(), f) ==> forall b :: b in joined ==> b in builds && builds[b].finished
      ensures meanwhile == [] ==> !cut && Alone(old(View()), View(), f, ids) && ExactlyVisited(old(View()), f, ids)
    {
      ghost var t0 := View();
      ids, joined, cut := [], OpenAboveSet(t0, f), false;
      var stepFinished, rest := false, meanwhile;
      StartsAlone(t0, f);
      while true
        invariant Valid(View()) && f in live && IdsOk(View(), ids, joined) && JoinedOk(View(), f, joined, cut)
        invariant OpenAboveSet(t0, f) <= joined
        invariant meanwhile == [] ==> rest == [] && !cut && Alone(t0, View(), f, ids)
        decreases |rest|, |OpenSet(View())|, !stepFinished
      {
        ghost var t := View();
        var indirect;
        ghost var more;
        indirect, more := GetAllIndirectBuilds(f);
        WalkFinds(t, f, indirect, more, joined);
        if indirect == map[] && stepFinished {
          LoopEnds(t0, t, f, ids, indirect, more, registry, joined, cut, meanwhile == []);
          break;
        }
        stepFinished := true;
        var moves, before := if rest != [] then rest[0] else [], ids;
        ids, joined, cut := FailFound(f, indirect, moves, ids, joined, cut);
        if meanwhile == [] { PassAlone(t0, t, View(), f, before, indirect, more, ids); }
        rest := if rest != [] then rest[1..] else [];
      }
    }
  }

  /** The found builds were finished, and that is all. */
  predicate ClosedBy(t: Table, h: Table, indirect: map<Path, BuildId>, found: seq<BuildId>) {
    Elements(found) == indirect.Values && h == t.(builds := Close(t.builds, Elements(found)))
  }

  /** Exactly the unfinished builds of the visited steps. */
  ghost predicate ExactlyVisited(t: Table, f: StepId, ids: seq<BuildId>)
    requires Valid(t) && f in t.live
  {
    forall b :: b in ids <==> exists p :: p in Visit(t, f, map[]) && OpenAt(t, Visit(t, f, map[])[p], b)
  }

  lemma PassAlone(t0: Table, t: Table, h: Table, f: StepId, ids: seq<BuildId>, indirect: map<Path, BuildId>,
                  more: map<Path, StepId>, all: seq<BuildId>)
    requires Valid(t0) && f in t0.live && Alone(t0, t, f, ids) && more == Visit(t, f, map[])
    requires exists found :: ClosedBy(t, h, indirect, found) && all == ids + found
    requires forall b :: b in indirect.Values ==> exists p :: p in more && OpenAt(t, more[p], b)
    ensures Alone(t0, h, f, all)
  {
    var found :| ClosedBy(t, h, indirect, found) && all == ids + found;
    StaysAlone(t0, t, f, ids, indirect, more, found);
  }

  ghost function OpenAboveSet(t: Table, f: StepId): (r: set<BuildId>)
    ensures forall b :: b in r <==> OpenAbove(t, f, b)
  {
    assert forall b :: OpenAbove(t, f, b) ==> b in t.builds;
    set b | b in t.builds && OpenAbove(t, f, b)
  }

  lemma MovedJoins(x: Shared, f: StepId, m: Move, joined: set<BuildId>, cut: bool)
    requires Valid(x.t) && f in x.t.live && JoinedOk(x.t, f, joined, cut)
    ensures var h := Moved(x, f, m).t; JoinedOk(h, f, joined + OpenAboveSet(h, f), cut || Cuts(x, f, m))
  {
    var h := Moved(x, f, m).t;
    MoveValid(x, f, m);
    forall b | b in joined + OpenAboveSet(h, f) && !cut && !Cuts(x, f, m) && b in h.builds && !h.builds[b].finished
      ensures OpenAbove(h, f, b)
    {
      if b !in OpenAboveSet(h, f) { MoveKeepsAbove(x, f, m, b); }
    }
  }

  lemma StartsAlone(t: Table, f: StepId)
    requires Valid(t) && f in t.live
    ensures JoinedOk(t, f, OpenAboveSet(t, f), false) && Alone(t, t, f, [])
  {
    assert Close(t.builds, Elements<BuildId>([])) == t.builds;
  }

  /** What the walk finds is open above `f`, at a visited step. */
  lemma WalkFinds(t: Table, f: StepId, out: map<Path, BuildId>, more: map<Path, StepId>, joined: set<BuildId>)
    requires f in t.nodes && Visited(t, f, map[], out, map[], more) && forall b :: OpenAbove(t, f, b) ==> b in joined
    ensures Found(t, out)
    ensures forall b :: b in out.Values ==> Open(t, b) && b in joined && exists p :: p in more && OpenAt(t, more[p], b)
  {
    forall b | b in out.Values ensures Open(t, b) && b in joined && exists p :: p in more && OpenAt(t, more[p], b) {
      var q :| q in out && out[q] == b;
      var p :| p in more && OpenAt(t, more[p], out[q]);
      assert Above(t, f, more[p]);
    }
  }

  /** One pass: the builds found at `t` are finished and recorded at `u`. */
  lemma PassKeeps(t: Table, u: Table, f: StepId, indirect: map<Path, BuildId>, found: seq<BuildId>, ids: seq<BuildId>,
                  joined: set<BuildId>, cut: bool)
    requires IdsOk(t, ids, joined) && SameBuilds(t, u) && JoinedOk(u, f, joined, cut)
    requires NoRepeats(found) && Elements(found) == indirect.Values
    requires forall b :: b in indirect.Values ==> Open(t, b) && b in joined
    ensures var h := u.(builds := Close(u.builds, Elements(found)));
      IdsOk(h, ids + found, joined) && JoinedOk(h, f, joined, cut)
  {
    var h := u.(builds := Close(u.builds, Elements(found)));
    forall b | b in found ensures b !in ids && b in u.builds { assert b in Elements(found); }
    var all := ids + found;
    forall i, j | 0 <= i < j < |all| ensures all[i] != all[j] {
      if i < |ids| <= j { assert all[j] in found && all[i] in ids; }
    }
    forall b ensures OpenAbove(h, f, b) <==> OpenAbove(u, f, b) && b !in Elements(found) {
      OpenAboveAfterClose(u, Elements(found), f, b);
    }
  }

  lemma FoundStays(t: Table, u: Table, indirect: map<Path, BuildId>)
    requires Found(t, indirect) && SameBuilds(t, u)
    ensures Found(u, indirect)
  {
    forall q | q in indirect ensures indirect[q] in u.builds && u.builds[indirect[q]].path == q {
      var b := indirect[q];
      assert b in t.builds && t.builds[b].path == q;
      assert b in u.builds && u.builds[b].path == t.builds[b].path;
    }
  }

  lemma PassShrinks(t: Table, indirect: map<Path, BuildId>, found: seq<BuildId>)
    requires Elements(found) == indirect.Values && forall b :: b in indirect.Values ==> Open(t, b)
    ensures var h := t.(builds := Close(t.builds, Elements(found)));
      if indirect == map[] then OpenSet(h) == OpenSet(t) else |OpenSet(h)| < |OpenSet(t)|
  {
    if indirect == map[] {
      assert Close(t.builds, Elements(found)) == t.builds;
    } else {
      var q :| q in indirect;
      FewerOpen(t, Elements(found), indirect[q]);
    }
  }

  lemma CloseTwice(builds: map<BuildId, Build>, a: set<BuildId>, b: set<BuildId>)
    ensures Close(Close(builds, a), b) == Close(builds, a + b)
  {
  }

  /** The walk does not look at builds. */
  lemma {:induction false} VisitSame(t: Table, h: Table, s: StepId, seen: map<Path, StepId>)
    requires Valid(t) && s in t.live && h == t.(builds := h.builds)
    ensures Visit(h, s, seen) == Visit(t, s, seen)
    decreases |Universe(t) - seen.Keys|, 0
  {
    var p := t.nodes[s].path;
    if p !in seen {
      SmallerRest(t, seen, seen[p := s], p);
      VisitAllSame(t, h, t.nodes[s].rdeps, seen[p := s]);
    }
  }

  lemma {:induction false} VisitAllSame(t: Table, h: Table, us: seq<StepId>, seen: map<Path, StepId>)
    requires Valid(t) && h == t.(builds := h.builds)
    ensures VisitAll(h, us, seen) == VisitAll(t, us, seen)
    decreases |Universe(t) - seen.Keys|, |us| + 1
  {
    if us != [] {
      var init, u := us[..|us| - 1], us[|us| - 1];
      VisitAllSame(t, h, init, seen);
      var v := VisitAll(t, init, seen);
      SubsetSize(Universe(t) - v.Keys, Universe(t) - seen.Keys);
      if u in t.live { VisitSame(t, h, u, v); }
    }
  }

  lemma StaysAlone(
      t0: Table, t: Table, f: StepId, ids: seq<BuildId>, indirect: map<Path, BuildId>, more: map<Path, StepId>,
                   found: seq<BuildId>)
    requires Valid(t0) && f in t0.live && Alone(t0, t, f, ids) && more == Visit(t, f, map[])
    requires Elements(found) == indirect.Values
    requires forall b :: b in indirect.Values ==> exists p :: p in more && OpenAt(t, more[p], b)
    ensures Alone(t0, t.(builds := Close(t.builds, Elements(found))), f, ids + found)
  {
    CloseTwice(t0.builds, Elements(ids), Elements(found));
    assert Elements(ids + found) == Elements(ids) + Elements(found);
    VisitSame(t0, t, f, map[]);
    forall b | b in found ensures exists p :: p in Visit(t0, f, map[]) && OpenAt(t0, Visit(t0, f, map[])[p], b) {
      assert b in Elements(found);
      var p :| p in more && OpenAt(t, more[p], b);
      OpenAfterClose(t0, Elements(ids), more[p], b);
    }
  }

  /** An empty result means that no visited step has an open build; with different paths
      above `f` that no open build is left above it at all. */
  lemma LoopEnds(t0: Table, t: Table, f: StepId, ids: seq<BuildId>, out: map<Path, BuildId>, more: map<Path, StepId>,
                 registry: map<Path, StepId>, joined: set<BuildId>, cut: bool, alone: bool)
    requires Valid(t) && f in t.live && Visited(t, f, map[], out, map[], more) && more == Visit(t, f, map[])
      && out == map[]
    requires JoinedOk(t, f, joined, cut) && forall p :: p in more ==> p !in registry
    requires Valid(t0) && f in t0.live && (alone ==> Alone(t0, t, f, ids))
    ensures Over(t, f, registry)
    ensures !cut && DistinctPaths(t, f) ==> forall b :: b in joined ==> b in t.builds && t.builds[b].finished
    ensures alone ==> ExactlyVisited(t0, f, ids)
  {
    if !cut && DistinctPaths(t, f) {
      forall b | b in joined ensures b in t.builds && t.builds[b].finished {
        if !t.builds[b].finished { RepresentsExactly(t, f, out, more, t.builds[b].path); }
      }
    }
    if alone {
      VisitSame(t0, t, f, map[]);
      forall p, b | p in more && OpenAt(t0, more[p], b) ensures b in ids {
        OpenAfterClose(t0, Elements(ids), more[p], b);
      }
    }
  }

  // ---- what skipped twins hide ----

  /** The unfinished builds of the visited steps. */
  ghost predicate OpenAtVisited(t: Table, more: map<Path, StepId>, b: BuildId) {
    exists p :: p in more && OpenAt(t, more[p], b)
  }

  /** Once exactly the builds of the visited steps are finished, a build is left open above
      `f` if and only if it is open at a step above `f` and at no visited one. With
      different paths above `f` there is none. */
  lemma HiddenExactly(
      t: Table, f: StepId, out: map<Path, BuildId>, more: map<Path, StepId>, done: set<BuildId>, b: BuildId)
    requires Valid(t) && f in t.live && Visited(t, f, map[], out, map[], more)
    requires forall x :: x in done <==> OpenAtVisited(t, more, x)
    ensures OpenAbove(t.(builds := Close(t.builds, done)), f, b) <==> OpenAbove(t, f, b) && !OpenAtVisited(t, more, b)
    ensures DistinctPaths(t, f) ==> !OpenAbove(t.(builds := Close(t.builds, done)), f, b)
  {
    OpenAboveAfterClose(t, done, f, b);
    if DistinctPaths(t, f) && OpenAbove(t, f, b) {
      var s :| Above(t, f, s) && OpenAt(t, s, b);
      VisitsExactly(t, f, out, more);
      var p :| p in more && more[p] == s;
    }
  }

  // The run of `StepGraphSkipped` with two builds: `p` has build 10, and `c` has build 11.
  const X0 := Shared(Table(map[], {}, map[]), map[], {})
  const X1 := Moved(X0, 1, AddStep(0, "f"))
  const X2 := Moved(X1, 1, AddStep(1, "g"))
  const X3 := Moved(X2, 1, AddStep(2, "p"))
  const X4 := Moved(X3, 1, AddBuild(10, 2))
  const X5 := Moved(X4, 1, AddDependent(0, 2))
  const X6 := Shared(S, map["f" := 0, "g" := 1, "p" := 2], {10})
  // `g` fails: its walk finds build 10, and the next walk finds none
  const ENDED := S.(builds := map[10 := Build("p", true)])
  const Y1 := Shared(ENDED, map["f" := 0, "g" := 1, "p" := 2], {})
  const Y2 := Shared(ENDED, map["f" := 0, "p" := 2], {})
  const Y3 := Shared(ENDED, map["f" := 0], {})

  /** Before `g` fails. */
  const S := Table(
    map[0 := Node("f", [2], []), 1 := Node("g", [2], []), 2 := Node("p", [], [10])],
    {0, 1, 2}, map[10 := Build("p", false)])

  // the second objects of `g` and `p`
  const F2 := Node("f", [2, 4], [])
  const G2 := Node("g", [2], [])
  const P2 := Node("p", [], [10])
  const DONE := Build("p", true)
  const Z1 := Shared(Table(map[0 := Node("f", [2], []), 1 := G2, 2 := P2, 3 := Node("g", [], [])], {0, 1, 2, 3},
                           map[10 := DONE]), map["f" := 0, "g" := 3], {})
  const Z2 := Shared(Table(map[0 := Node("f", [2], []), 1 := G2, 2 := P2, 3 := Node("g", [], []),
                               4 := Node("p", [], [])],
                           {0, 1, 2, 3, 4}, map[10 := DONE]), map["f" := 0, "g" := 3, "p" := 4], {})
  const Z3 := Shared(Table(map[0 := F2, 1 := G2, 2 := P2, 3 := Node("g", [], []), 4 := Node("p", [], [])],
                           {0, 1, 2, 3, 4}, map[10 := DONE]), map["f" := 0, "g" := 3, "p" := 4], {})
  // `c` with its build; now `f` fails
  const R: map<Path, StepId> := map["f" := 0, "g" := 3, "p" := 4, "c" := 5]
  const Z4 := Shared(Table(map[0 := F2, 1 := G2, 2 := P2, 3 := Node("g", [], []), 4 := Node("p", [], []),
                               5 := Node("c", [], [])], {0, 1, 2, 3, 4, 5}, map[10 := DONE]), R, {})
  const Z5 := Shared(Table(map[0 := F2, 1 := G2, 2 := P2, 3 := Node("g", [], []), 4 := Node("p", [], []),
                               5 := Node("c", [], [11])], {0, 1, 2, 3, 4, 5},
                           map[10 := DONE, 11 := Build("c", false)]), R, {11})
  const Z6 := Shared(T, R, {11})
  const T := Table(
    map[0 := F2, 1 := G2, 2 := P2, 3 := Node("g", [], []), 4 := Node("p", [5], []), 5 := Node("c", [], [11])],
    {0, 1, 2, 3, 4, 5}, map[10 := DONE, 11 := Build("c", false)])

  lemma ReachS()
    ensures X6 == Moved(X5, 1, AddDependent(1, 2))
  {
    var a, b, c := Node("f", [], []), Node("g", [], []), Node("p", [], [10]);
    assert {} + {0} + {1} + {2} == {0, 1, 2} && {} + {10} == {10};
    assert X3.t.nodes == map[0 := a, 1 := b, 2 := Node("p", [], [])];
    assert X3.registry == map["f" := 0, "g" := 1, "p" := 2] && [] + [10] == [10] && [] + [2] == [2];
    assert X4.t.nodes == map[0 := a, 1 := b, 2 := c];
    assert Moved(X5, 1, AddDependent(1, 2)).t.nodes == S.nodes;
  }

  lemma GFails()
    ensures Y1 == Moved(X6, 1, EndBuild(10)) && Y2 == Moved(Y1, 1, Forget("g")) && Y3 == Moved(Y2, 1, Forget("p"))
  {
    var none: set<BuildId> := {};
    assert {10} - {10} == none;
    assert Y1.registry - {"g"} == Y2.registry && Y2.registry - {"p"} == Y3.registry;
    assert S.builds[10 := Build("p", true)] == ENDED.builds;
  }

  lemma SecondObjects()
    ensures Z1 == Moved(Y3, 0, AddStep(3, "g")) && Z2 == Moved(Z1, 0, AddStep(4, "p"))
  {
    assert {0, 1, 2} + {3} == {0, 1, 2, 3} && {0, 1, 2, 3} + {4} == {0, 1, 2, 3, 4};
    assert S.nodes[3 := Node("g", [], [])] == Z1.t.nodes && Z1.t.nodes[4 := Node("p", [], [])] == Z2.t.nodes;
  }

  lemma SecondDependent()
    ensures Z3 == Moved(Z2, 0, AddDependent(0, 4)) && Z4 == Moved(Z3, 0, AddStep(5, "c"))
  {
    assert [2] + [4] == [2, 4] && {0, 1, 2, 3, 4} + {5} == {0, 1, 2, 3, 4, 5};
    assert Z2.t.nodes[0 := F2] == Z3.t.nodes && Z3.t.nodes[5 := Node("c", [], [])] == Z4.t.nodes;
    assert Z3.registry["c" := 5] == R;
  }

  lemma CWithBuild()
    ensures Z5 == Moved(Z4, 0, AddBuild(11, 5)) && Z6 == Moved(Z5, 0, AddDependent(4, 5))
  {
    assert {} + {11} == {11} && [] + [11] == [11] && [] + [5] == [5];
    assert Z4.t.nodes[5 := Node("c", [], [11])] == Z5.t.nodes && Z5.t.nodes[4 := Node("p", [5], [])] == T.nodes;
    assert Z4.t.builds[11 := Build("c", false)] == Z5.t.builds;
  }

  lemma VisitsG()
    ensures Valid(S) && Visit(S, 1, map[]) == map["g" := 1, "p" := 2]
  {
    var seen: map<Path, StepId> := map["g" := 1];
    var us := S.nodes[1].rdeps;
    assert us[..1] == us && us[..0] == [];
    assert VisitAll(S, us, seen) == Visit(S, 2, VisitAll(S, us[..0], seen));
    assert Visit(S, 2, seen) == map["g" := 1, "p" := 2];
  }

  /** What the loop does for `g`: it finishes build 10, and the visited paths are forgotten. */
  lemma LoopForG(ids: seq<BuildId>)
    requires Valid(S) && ExactlyVisited(S, 1, ids)
    ensures Elements(ids) == {10} && Y1.t == X6.t.(builds := Close(X6.t.builds, Elements(ids)))
    ensures Y3.t == Y1.t && Y3.registry == X6.registry - Visit(S, 1, map[]).Keys
  {
    VisitsG();
    var v := Visit(S, 1, map[]);
    assert v["p"] == 2 && v["g"] == 1 && S.nodes[2].builds[0] == 10;
    assert OpenAt(S, v["p"], 10);
    forall b | b in ids ensures b == 10 {
      var p :| p in v && OpenAt(S, v[p], b);
    }
    assert X6.registry - {"g", "p"} == Y3.registry && v.Keys == {"g", "p"};
  }

  lemma VisitsFirst()
    ensures Valid(T) && Visit(T, 0, map[]) == map["f" := 0, "p" := 2]
  {
    var seen: map<Path, StepId> := map["f" := 0];
    var us := T.nodes[0].rdeps;
    assert us[..1] == [2] && us[..1][..0] == [];
    assert VisitAll(T, [2], seen) == Visit(T, 2, VisitAll(T, [2][..0], seen));
    assert Visit(T, 2, seen) == map["f" := 0, "p" := 2];
    assert VisitAll(T, us, seen) == Visit(T, 4, VisitAll(T, us[..1], seen));
  }

  lemma CAbove()
    ensures Above(T, 0, 5) && OpenAt(T, 5, 11)
  {
    assert T.nodes[0].rdeps[1] == 4 && T.nodes[4].rdeps[0] == 5 && T.nodes[5].builds[0] == 11;
    assert 4 in Succ(Up(T), 0) && 5 in Succ(Up(T), 4);
    ReachesSelf(Up(T), 0);
    ReachesThen(Up(T), 0, 0, 4);
    ReachesThen(Up(T), 0, 4, 5);
  }

  lemma FindsNone(ids: seq<BuildId>)
    requires Valid(T) && ExactlyVisited(T, 0, ids)
    ensures Elements(ids) == {}
  {
    VisitsFirst();
    var v := Visit(T, 0, map[]);
    assert v["p"] == 2 && v["f"] == 0;
    assert forall p, b :: p in v ==> !OpenAt(T, v[p], b);
    assert forall b :: b !in ids;
  }

  lemma MirrorsBefore()
    ensures Mirrors(S, StepGraphSkipped.A8)
  {
    var g := StepGraphSkipped.A8;
    assert S.nodes.Keys == {0, 1, 2} && g.steps.Keys == {0, 1, 2};
    forall s | s in S.nodes ensures S.nodes[s].path == g.steps[s].path && S.nodes[s].rdeps == g.steps[s].rdeps {}
  }

  lemma MirrorsRun()
    ensures Mirrors(T, StepGraphSkipped.D5)
  {
    var g := StepGraphSkipped.D5;
    assert T.nodes.Keys == {0, 1, 2, 3, 4, 5} && g.steps.Keys == {0, 1, 2, 3, 4, 5};
    forall s | s in T.nodes ensures T.nodes[s].path == g.steps[s].path && T.nodes[s].rdeps == g.steps[s].rdeps {}
  }

  /** Build 10 is ended by the failure of `g`, when the first objects of `g` and `p` leave
      the registry (`LoopForG`). When `f` fails, in a state of the graph that a run reaches, the loop
      finds and finishes no build, although build 11 is open above the failed step. */
  lemma TwinsHideBuild(ids: seq<BuildId>)
    requires Valid(T) && ExactlyVisited(T, 0, ids)
    ensures StepGraphRuns.CleanRunTo(StepGraphSkipped.A8) && Mirrors(X6.t, StepGraphSkipped.A8)
    ensures X6 == Moved(X5, 1, AddDependent(1, 2)) && X6.registry == StepGraphSkipped.A8.registry
    ensures Y1 == Moved(X6, 1, EndBuild(10)) && Y2 == Moved(Y1, 1, Forget("g")) && Y3 == Moved(Y2, 1, Forget("p"))
    ensures Y3.registry == StepGraphSkipped.B0.registry
    ensures StepGraphRuns.CleanRunTo(StepGraphSkipped.D5) && Mirrors(T, StepGraphSkipped.D5)
    ensures Z6 == Shared(T, StepGraphSkipped.D5.registry, {11})
    ensures Z1 == Moved(Y3, 0, AddStep(3, "g")) && Z2 == Moved(Z1, 0, AddStep(4, "p"))
    ensures Z3 == Moved(Z2, 0, AddDependent(0, 4)) && Z4 == Moved(Z3, 0, AddStep(5, "c"))
    ensures Z5 == Moved(Z4, 0, AddBuild(11, 5)) && Z6 == Moved(Z5, 0, AddDependent(4, 5))
    ensures Elements(ids) == {} && OpenAbove(T, 0, 11)
  {
    StepGraphSkipped.ReachFirst();
    StepGraphSkipped.ReachWaiting();
    ReachS();
    GFails();
    SecondObjects();
    SecondDependent();
    CWithBuild();
    MirrorsBefore();
    MirrorsRun();
    FindsNone(ids);
    CAbove();
  }

  // ---- why an unfinished build keeps its steps ----

  /** Walking a path of reverse edges backwards follows ownership. */
  lemma {:induction false} HeldBackwards(t: Table, holds: Edges<StepId>, w: seq<StepId>, i: nat)
    requires Walk(Up(t), w) && i < |w|
    requires forall k :: 0 <= k < |w| - 1 ==> w[k] in Succ(holds, w[k + 1])
    ensures Reaches(holds, w[|w| - 1], w[i])
    decreases |w| - i
  {
    if i == |w| - 1 {
      ReachesSelf(holds, w[i]);
    } else {
      HeldBackwards(t, holds, w, i + 1);
      ReachesThen(holds, w[|w| - 1], w[i + 1], w[i]);
    }
  }

  /** If every dependent above `f` owns what it depends on, and only steps are freed
      that no top-level step of an unfinished build owns directly or indirectly,
      then no unfinished build is cut off from `f`. */
  lemma OwnersKeepWalks(t: Table, live: set<StepId>, f: StepId, holds: Edges<StepId>, b: BuildId)
    requires Valid(t) && f in t.live && live <= t.live && OpenAbove(t, f, b)
    requires forall d, u :: Above(t, f, d) && u in Succ(Up(t), d) ==> d in Succ(holds, u)
    requires forall s, x :: (exists o :: OpenAt(t, s, o)) && x in t.live && Reaches(holds, s, x) ==> x in live
    ensures OpenAbove(t.(live := live), f, b)
  {
    var h := t.(live := live);
    var s :| Above(t, f, s) && OpenAt(t, s, b);
    var w :| WalkBetween(Up(t), w, f, s);
    forall k | 0 <= k < |w| ensures Above(t, f, w[k]) {
      assert WalkBetween(Up(t), w[..k + 1], f, w[k]);
    }
    forall k | 0 <= k < |w| - 1 ensures w[k + 1] in Succ(Up(h), w[k]) {
      assert w[k + 1] in Succ(Up(t), w[k]);
      HeldBackwards(t, holds, w, k + 1);
    }
    assert WalkBetween(Up(h), w, f, s);
    assert Above(h, f, s) && OpenAt(h, s, b);
  }

  // ---- the walk inside the step graph ----

  predicate Mirrors(t: Table, g: StepGraph.Graph) {
    && t.live == g.live && t.nodes.Keys == g.steps.Keys
    && forall s :: s in t.nodes ==> t.nodes[s].path == g.steps[s].path && t.nodes[s].rdeps == g.steps[s].rdeps
  }

  /** The visited steps are what a final failure takes out of the registry. */
  lemma WalkGivesDependents(t: Table, g: StepGraph.Graph, f: StepId, out: map<Path, BuildId>, more: map<Path, StepId>)
    requires Mirrors(t, g) && Valid(t) && f in t.live && Visited(t, f, map[], out, map[], more)
    ensures StepGraph.Dependents(g, f, more.Values)
    ensures StepGraph.PathsOf(g, more.Values) == more.Keys
  {
    var v := more.Values;
    assert Up(t) == StepGraph.RdepEdges(g) by {
      forall s | s in t.nodes ensures LiveRdeps(t, s) == StepGraph.LiveRdeps(g, s) {}
    }
    assert more[t.nodes[f].path] == f;
    forall p ensures p in StepGraph.PathsOf(g, v) <==> p in more {
      if p in more { assert more[p] in v; }
    }
    forall x, u | x in v && x in g.steps && u in StepGraph.LiveRdeps(g, x) && u in g.steps
      ensures g.steps[u].path in StepGraph.PathsOf(g, v)
    {
      var p :| p in more && more[p] == x;
      assert Followed(t, u, more);
    }
  }
}
