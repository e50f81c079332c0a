/**
 The build-step dependency graph of the queue runner as a state machine.

 One event is one lock-protected section: the registry's get-or-create, one
 decision of a step's creation, one resolved input, storing `created`, checking
 the number of dependencies, one pass over the dependents of a finished step.
 Creations of different steps interleave freely with each other and with
 completions, failures and the freeing of steps nobody owns.

 A step is an object with an identity of its own; the registry maps a derivation
 path to the one object it currently knows. A weak pointer is an identity that
 can be followed only while the object is in `live`.

 All creations for one new build form a nest. They share one set of new runnable
 steps, which holds at most one object of each path and is emptied when the nest is
 over. Several nests can be under way.
 */
module StepGraph {
  import opened Reachability

  type Path = string
  type StepId = nat
  type NestId = nat

  /** How far the creation of a step has come. */
  datatype Phase =
    | Deciding
    | Expanding(todo: set<Path>, known: set<StepId>, made: set<StepId>)
    | Marked
    | Returned
    | Stopped(failure: bool)
    | Dropped

  /** `everDeps` and `expanded` are history: every dependency ever recorded, and
      whether the inputs were ever enumerated. */
  datatype Step = Step(
    path: Path,
    nest: NestId,
    deps: set<StepId>,
    everDeps: set<StepId>,
    rdeps: seq<StepId>,
    created: bool,
    runnable: bool,
    finished: bool,
    prevFailure: bool,
    expanded: bool,
    phase: Phase)

  /** `inputs` holds the readable derivations, `newRunnable` the sets of all nests,
      `closed` the nests that are over. `twins` is history: whether two live objects
      ever shared a path. */
  datatype Graph = Graph(
    inputs: map<Path, set<Path>>,
    steps: map<StepId, Step>,
    live: set<StepId>,
    registry: map<Path, StepId>,
    finishedDrvs: set<Path>,
    newRunnable: set<StepId>,
    finishing: set<StepId>,
    closed: set<NestId>,
    twins: bool)

  datatype Event =
    | CreateTop(path: Path, id: StepId, n: NestId)
    | CreateChild(parent: StepId, path: Path, id: StepId)
    | SkipChild(parent: StepId, path: Path)
    | ForgetFinished
    | Unreadable(s: StepId)
    | CachedFailure(s: StepId)
    | Substituted(s: StepId)
    | Expand(s: StepId)
    | ResolveKnown(s: StepId, d: StepId)
    | ResolveFresh(s: StepId, d: StepId)
    | MarkCreated(s: StepId)
    | CheckDeps(s: StepId)
    | Close(n: NestId)
    | MakeRunnable(s: StepId)
    | Cancel(s: StepId)
    | Free(s: StepId)
    | Finish(s: StepId)
    | Unregister(s: StepId)
    | Wake(s: StepId)
    | Sweep
    | Prune
    | Fail(f: StepId, visited: set<StepId>)

  // ---- reading a state ----

  predicate Active(st: Step) {
    st.phase.Deciding? || st.phase.Expanding? || st.phase.Marked?
  }

  /** The inputs whose create_step call has been made but not yet looked at. */
  function Pending(st: Step): set<StepId> {
    if st.phase.Expanding? then st.phase.known + st.phase.made else {}
  }

  /** Everything a step and its creation own. */
  function Holds(st: Step): set<StepId> {
    st.deps + Pending(st)
  }

  predicate Registered(g: Graph, s: StepId)
    requires s in g.steps
  {
    g.steps[s].path in g.registry && g.registry[g.steps[s].path] == s
  }

  /** A step that can still become a recorded dependency of another. */
  predicate Viable(st: Step) {
    !st.finished && !st.prevFailure && st.phase != Stopped(false)
  }

  function LiveRdeps(g: Graph, s: StepId): set<StepId>
    requires s in g.steps
  {
    set u | u in g.live && u in g.steps[s].rdeps
  }

  /** The reverse dependencies that can still be followed. */
  function RdepEdges(g: Graph): Edges<StepId> {
    map s | s in g.steps :: LiveRdeps(g, s)
  }

  function DepEdges(g: Graph): Edges<StepId> {
    map s | s in g.steps :: g.steps[s].deps
  }

  function PathsOf(g: Graph, v: set<StepId>): set<Path> {
    set s | s in v && s in g.steps :: g.steps[s].path
  }

  /** What the walk over reverse dependencies returns: live steps reached from
      `f`, closed up to equality of paths. */
  ghost predicate Dependents(g: Graph, f: StepId, v: set<StepId>) {
    && f in v && v <= g.live && v <= g.steps.Keys
    && (forall t :: t in v ==> Reaches(RdepEdges(g), f, t))
    && (forall t, u :: t in v && t in g.steps && u in LiveRdeps(g, t) && u in g.steps ==>
          g.steps[u].path in PathsOf(g, v))
  }

  /** The registered finished steps the sweep looks at. */
  function SweepSet(g: Graph): set<StepId> {
    set s | s in g.live && s in g.steps && Registered(g, s) && g.steps[s].finished && !g.steps[s].prevFailure
  }

  // ---- the events ----

  function NewStep(path: Path, n: NestId): Step {
    Step(path, n, {}, {}, [], false, false, false, false, false, Deciding)
  }

  function Put(g: Graph, s: StepId, st: Step): Graph {
    g.(steps := g.steps[s := st])
  }

  predicate Known(g: Graph, path: Path) {
    path in g.registry && g.registry[path] in g.live && g.registry[path] in g.steps
  }

  /** The registry's get-or-create, without the referring data. */
  function Obtain(g: Graph, path: Path, id: StepId, n: NestId): Graph {
    if Known(g, path) then g
    else g.(steps := g.steps[id := NewStep(path, n)],
            live := g.live + {id},
            registry := g.registry[path := id],
            twins := g.twins || exists x :: x in g.live && x in g.steps && g.steps[x].path == path)
  }

  function Obtained(g: Graph, path: Path, id: StepId): StepId {
    if Known(g, path) then g.registry[path] else id
  }

  /** The referring data and the parent's in-flight inputs after one call. */
  function Link(g: Graph, u: StepId, path: Path, d: StepId, isNew: bool): Graph
    requires u in g.steps && d in g.steps && g.steps[u].phase.Expanding?
  {
    var g1 := Put(g, d, g.steps[d].(rdeps := g.steps[d].rdeps + [u]));
    var ph := g1.steps[u].phase;
    Put(g1, u, g1.steps[u].(phase :=
      if isNew then Expanding(ph.todo - {path}, ph.known, ph.made + {d})
      else Expanding(ph.todo - {path}, ph.known + {d}, ph.made)))
  }

  function CreateChildOf(g: Graph, u: StepId, path: Path, id: StepId): Graph
    requires u in g.steps && g.steps[u].phase.Expanding? && id !in g.steps
  {
    Link(Obtain(g, path, id, g.steps[u].nest), u, path, Obtained(g, path, id), !Known(g, path))
  }

  /** The input has been looked at and adds no dependency. */
  function Settle(g: Graph, s: StepId, d: StepId): Graph
    requires s in g.steps && g.steps[s].phase.Expanding?
  {
    var ph := g.steps[s].phase;
    Put(g, s, g.steps[s].(phase := Expanding(ph.todo, ph.known - {d}, ph.made - {d})))
  }

  function Record(g: Graph, s: StepId, d: StepId): Graph
    requires s in g.steps && g.steps[s].phase.Expanding?
  {
    var st := g.steps[s];
    Put(g, s, st.(deps := st.deps + {d}, everDeps := st.everDeps + {d},
                  phase := Expanding(st.phase.todo, st.phase.known - {d}, st.phase.made - {d})))
  }

  function Resolve(g: Graph, s: StepId, d: StepId): Graph
    requires s in g.steps && d in g.steps && g.steps[s].phase.Expanding?
  {
    var isNew := d in g.steps[s].phase.made;
    if isNew && g.steps[d].phase == Stopped(true) then
      Put(g, s, g.steps[s].(phase := Stopped(true)))
    else if (isNew && g.steps[d].phase == Stopped(false)) || g.steps[d].finished || g.steps[d].prevFailure then
      Settle(g, s, d)
    else
      Record(g, s, d)
  }

  /** The set of the step's nest holds an object of its path. */
  predicate SetHas(g: Graph, s: StepId)
    requires s in g.steps
  {
    exists x :: x in g.newRunnable && x in g.steps && g.steps[x].path == g.steps[s].path
      && g.steps[x].nest == g.steps[s].nest
  }

  function Checked(g: Graph, s: StepId): Graph
    requires s in g.steps
  {
    Put(g, s, g.steps[s].(phase := Returned)).(
      newRunnable := if g.steps[s].deps == {} && !SetHas(g, s) then g.newRunnable + {s} else g.newRunnable)
  }

  function Keep(rdeps: seq<StepId>, live: set<StepId>): (r: seq<StepId>)
    ensures forall u :: u in r <==> u in rdeps && u in live
  {
    if rdeps == [] then []
    else (if rdeps[0] in live then [rdeps[0]] else []) + Keep(rdeps[1..], live)
  }

  /** The steps of `w` that list `u` as a dependent. */
  function Wakers(g: Graph, w: set<StepId>, u: StepId): set<StepId> {
    set x | x in w && x in g.steps && u in g.steps[x].rdeps
  }

  function WokenDeps(g: Graph, w: set<StepId>, u: StepId): set<StepId>
    requires u in g.steps
  {
    set d | d in g.steps[u].deps && !(d in g.steps && g.steps[d].path in PathsOf(g, Wakers(g, w, u)))
  }

  function WokenStep(g: Graph, w: set<StepId>, u: StepId): Step
    requires u in g.steps
  {
    var st := g.steps[u];
    var st1 := if u in g.live then
                 st.(deps := WokenDeps(g, w, u),
                     runnable := st.runnable || (Wakers(g, w, u) != {} && WokenDeps(g, w, u) == {} && st.created))
               else st;
    if u in w then st1.(rdeps := Keep(st.rdeps, g.live)) else st1
  }

  /** Every step of `w` drops itself, by path, from its live dependents. */
  function WakeAll(g: Graph, w: set<StepId>): Graph {
    g.(steps := map u | u in g.steps :: WokenStep(g, w, u))
  }

  function Forget(g: Graph, paths: set<Path>): Graph {
    g.(registry := map p | p in g.registry && p !in paths :: g.registry[p])
  }

  /** The registry without its entries for freed steps. */
  function Pruned(g: Graph): Graph {
    g.(registry := map p | p in g.registry && g.registry[p] in g.live :: g.registry[p])
  }

  ghost predicate Enabled(g: Graph, e: Event) {
    match e
    case CreateTop(_, id, n) => id !in g.steps && n !in g.closed
    case CreateChild(u, path, id) =>
      u in g.steps && id !in g.steps && g.steps[u].phase.Expanding? && path in g.steps[u].phase.todo
    case SkipChild(u, path) =>
      u in g.steps && g.steps[u].phase.Expanding? && path in g.steps[u].phase.todo && path in g.finishedDrvs
    case ForgetFinished => true
    case Unreadable(s) => s in g.steps && g.steps[s].phase.Deciding? && g.steps[s].path !in g.inputs
    case CachedFailure(s) => s in g.steps && g.steps[s].phase.Deciding? && g.steps[s].path in g.inputs
    case Substituted(s) => s in g.steps && g.steps[s].phase.Deciding? && g.steps[s].path in g.inputs
    case Expand(s) => s in g.steps && g.steps[s].phase.Deciding? && g.steps[s].path in g.inputs
    case ResolveKnown(s, d) =>
      s in g.steps && d in g.steps && g.steps[s].phase.Expanding? && d in g.steps[s].phase.known
      && d !in g.steps[s].phase.made
    case ResolveFresh(s, d) =>
      && s in g.steps && d in g.steps && g.steps[s].phase.Expanding? && d in g.steps[s].phase.made
      && (g.steps[d].phase.Returned? || g.steps[d].phase.Stopped?)
    case MarkCreated(s) => s in g.steps && g.steps[s].phase == Expanding({}, {}, {})
    case CheckDeps(s) => s in g.steps && g.steps[s].phase.Marked?
    case Close(n) => n !in g.closed && forall s :: s in g.steps && Active(g.steps[s]) ==> g.steps[s].nest != n
    case MakeRunnable(s) => s in g.steps && s in g.newRunnable && g.steps[s].nest in g.closed
    case Cancel(s) => s in g.steps && Active(g.steps[s]) && !g.steps[s].phase.Marked?
    case Free(s) =>
      && s in g.live && s in g.steps && !Active(g.steps[s]) && s !in g.newRunnable && s !in g.finishing
      && (forall u :: u in g.live && u in g.steps ==> s !in Holds(g.steps[u]))
    case Finish(s) => s in g.live && s in g.steps && g.steps[s].runnable && !g.steps[s].finished
    case Unregister(s) => s in g.finishing && s in g.steps
    case Wake(s) => s in g.finishing && s in g.steps
    case Sweep => true
    case Prune => true
    case Fail(f, v) => f in g.steps && g.steps[f].runnable && Dependents(g, f, v)
  }

  ghost function Apply(g: Graph, e: Event): Graph
    requires Enabled(g, e)
  {
    match e
    case CreateTop(path, id, n) => Obtain(g, path, id, n)
    case CreateChild(u, path, id) => CreateChildOf(g, u, path, id)
    case SkipChild(u, path) =>
      Put(g, u, g.steps[u].(phase := g.steps[u].phase.(todo := g.steps[u].phase.todo - {path})))
    case ForgetFinished => g.(finishedDrvs := {})
    case Unreadable(s) => Put(g, s, g.steps[s].(phase := Stopped(false)))
    case CachedFailure(s) => Put(g, s, g.steps[s].(phase := Stopped(true), prevFailure := true))
    case Substituted(s) =>
      Put(g, s, g.steps[s].(phase := Stopped(false), finished := true)).(
        finishedDrvs := g.finishedDrvs + {g.steps[s].path})
    case Expand(s) => Put(g, s, g.steps[s].(phase := Expanding(g.inputs[g.steps[s].path], {}, {}), expanded := true))
    case ResolveKnown(s, d) => Resolve(g, s, d)
    case ResolveFresh(s, d) => Resolve(g, s, d)
    case MarkCreated(s) => Put(g, s, g.steps[s].(phase := Marked, created := true))
    case CheckDeps(s) => Checked(g, s)
    case Close(n) => g.(closed := g.closed + {n})
    case MakeRunnable(s) => Put(g, s, g.steps[s].(runnable := true)).(newRunnable := g.newRunnable - {s})
    case Cancel(s) => Put(g, s, g.steps[s].(phase := Dropped))
    case Free(s) => g.(live := g.live - {s})
    case Finish(s) => Put(g, s, g.steps[s].(finished := true)).(finishing := g.finishing + {s})
    case Unregister(s) => Forget(g, {g.steps[s].path})
    case Wake(s) => WakeAll(g, {s}).(finishing := g.finishing - {s})
    case Sweep => WakeAll(g, SweepSet(g))
    case Prune => Pruned(g)
    case Fail(_, v) => Forget(g, PathsOf(g, v))
  }

  function Init(inputs: map<Path, set<Path>>): Graph {
    Graph(inputs, map[], {}, map[], {}, {}, {}, {}, false)
  }

  // ---- the invariant ----

  predicate FlagsOf(st: Step) {
    && (st.created <==> st.phase.Marked? || st.phase.Returned?)
    && (st.runnable ==> st.created && st.deps == {})
    && (st.finished ==> st.runnable || (st.phase == Stopped(false) && !st.expanded))
    && (st.prevFailure ==> st.phase == Stopped(true) && !st.expanded)
    && (st.phase.Deciding? ==> !st.expanded)
    && (st.phase.Expanding? || st.phase.Marked? || st.phase.Returned? ==> st.expanded)
    && (st.phase == Stopped(false) ==> !st.expanded)
    && (!st.expanded ==> st.deps == {} && st.everDeps == {})
    && st.deps <= st.everDeps
  }

  /** One step. As long as no two live objects share a path, a created step without
      dependencies is runnable or about to be made so, and a step whose inputs were
      never enumerated is still registered. */
  predicate NodeOk(g: Graph, u: StepId) {
    && (u in g.live ==> u in g.steps)
    && (u in g.newRunnable || u in g.finishing ==> u in g.live)
    && (u in g.steps ==>
          var st := g.steps[u];
          && FlagsOf(st)
          && (Active(st) ==> u in g.live)
          && (st.expanded ==> st.path in g.inputs)
          && (st.phase.Expanding? ==> st.phase.todo <= g.inputs[st.path])
          && (u in g.newRunnable ==> st.phase.Returned? && st.deps == {})
          && (u in g.finishing ==> st.finished && st.runnable)
          && (!g.twins && u in g.live && st.created && st.deps == {} ==>
                st.runnable || u in g.newRunnable || st.phase.Marked?)
          && (!g.twins && u in g.live && !st.expanded ==> Registered(g, u)))
  }

  /** A dependency `t` and a dependent `u`. No dependency lacks the reverse edge
      that wakes it; a dependency is dropped only because it finished; a built
      step is a dependency only until its completion wakes its dependents; every
      live dependent of a viable step really waits for it; and, without twins,
      the dependents of an unregistered viable step are unregistered. */
  predicate EdgeOk(g: Graph, t: StepId, u: StepId) {
    && (u in g.steps && (t in Holds(g.steps[u]) || t in g.steps[u].everDeps) ==> t in g.steps)
    && (t in g.steps && u in g.steps[t].rdeps ==>
          && u in g.steps && g.steps[u].expanded
          && g.steps[u].path in g.inputs && g.steps[t].path in g.inputs[g.steps[u].path]
          && (g.steps[u].phase.Expanding? ==> g.steps[t].path !in g.steps[u].phase.todo))
    && (t in g.steps && u in g.steps ==>
          var dt, du := g.steps[t], g.steps[u];
          && (u in g.live && t in Holds(du) ==> t in g.live && u in dt.rdeps)
          && (t in du.everDeps ==> t in du.deps || dt.finished)
          && (u in g.live && t in du.deps && dt.finished && dt.expanded ==> t in g.finishing)
          && (u in g.live && u in dt.rdeps && Viable(dt) ==>
                && (du.created ==> t in du.deps)
                && (du.phase.Expanding? ==> t in Holds(du))
                && (!g.twins && t in g.live && !Registered(g, t) ==> !Registered(g, u))))
  }

  /** A step records each of its inputs with at most one object per path. */
  predicate OnceOk(g: Graph, a: StepId, b: StepId, u: StepId) {
    a in g.steps && b in g.steps && u in g.steps[a].rdeps && u in g.steps[b].rdeps && a != b ==>
      g.steps[a].path != g.steps[b].path
  }

  predicate TwinOk(g: Graph, a: StepId, b: StepId) {
    !g.twins && a in g.live && b in g.live && a in g.steps && b in g.steps && g.steps[a].path == g.steps[b].path ==>
    a == b
  }

  predicate RegistryOk(g: Graph, p: Path) {
    p in g.registry ==> g.registry[p] in g.steps && g.steps[g.registry[p]].path == p
  }

  ghost predicate Inv(g: Graph) {
    && (forall u :: NodeOk(g, u))
    && (forall t, u :: EdgeOk(g, t, u))
    && (forall a, b, u :: OnceOk(g, a, b, u))
    && (forall a, b :: TwinOk(g, a, b))
    && (forall p :: RegistryOk(g, p))
  }
}
