/**
 What becomes of every input of a step: which inputs are recorded as dependencies,
 which are passed over, and which stop the creation of the step.
 */
module StepGraphInputs {
  import opened StepGraph
  import opened StepGraphInvariant
  import opened StepGraphTheorems

  /** The creation of `u` asks for the step of one of its inputs and gets `d`. */
  predicate Asks(g: Graph, e: Event, u: StepId, path: Path, d: StepId) {
    e.CreateChild? && e.parent == u && e.path == path && d == if Known(g, path) then g.registry[path] else e.id
  }

  /** Nothing more is going to be decided about the step. */
  predicate Ended(st: Step) { st.phase.Returned? || st.phase.Stopped? }

  // ---- one input through the creation of its step ----

  /** An input that was looked at: one that was made by this creation was created and is
      recorded or finished, or it will never be built and needs not be; one that was known
      is recorded, finished or failed. */
  predicate LookedAt(st: Step, dt: Step, d: StepId, isNew: bool) {
    if isNew then
      dt.phase == Stopped(false) || (dt.phase.Returned? && (d in st.everDeps || dt.finished))
    else
      d in st.everDeps || dt.finished || dt.prevFailure
  }

  /** The creation still has to look at the input. */
  predicate ToLookAt(ph: Phase, d: StepId, isNew: bool) {
    ph.Expanding? && if isNew then d in ph.made else d in ph.known && d !in ph.made
  }

  predicate GivenUp(st: Step) { st.phase.Stopped? || st.phase.Dropped? }

  predicate MindsStep(st: Step, dt: Step, d: StepId, isNew: bool) {
    !st.phase.Deciding? && (GivenUp(st) || ToLookAt(st.phase, d, isNew) || LookedAt(st, dt, d, isNew))
  }

  /** The input is looked at before the step is created. */
  predicate Minds(g: Graph, u: StepId, d: StepId, isNew: bool) {
    u in g.steps && d in g.steps && MindsStep(g.steps[u], g.steps[d], d, isNew)
  }

  lemma CallMinds(g: Graph, e: Event, u: StepId, path: Path, d: StepId)
    requires Inv(g) && Enabled(g, e) && Asks(g, e, u, path, d)
    ensures Minds(Apply(g, e), u, d, !Known(g, path))
  {
    assert RegistryOk(g, path) && NodeOk(g, u) && EdgeOk(g, d, u);
  }

  /** What an event does to a step and to one of its inputs keeps this. */
  predicate Onward(st: Step, dt: Step, st': Step, dt': Step, d: StepId, isNew: bool) {
    && st.everDeps <= st'.everDeps && !st'.phase.Deciding? && (GivenUp(st) ==> GivenUp(st'))
    && (Ended(dt) ==> dt'.phase == dt.phase) && (dt.finished ==> dt'.finished) && (dt.prevFailure ==> dt'.prevFailure)
    && (ToLookAt(st.phase, d, isNew) ==>
          ToLookAt(st'.phase, d, isNew) || GivenUp(st') || LookedAt(st', dt', d, isNew))
  }

  predicate OnwardIn(g: Graph, h: Graph, u: StepId, d: StepId, isNew: bool) {
    && u in g.steps && d in g.steps && u in h.steps && d in h.steps
    && Onward(g.steps[u], g.steps[d], h.steps[u], h.steps[d], d, isNew)
  }

  lemma OnwardMinds(g: Graph, h: Graph, u: StepId, d: StepId, isNew: bool)
    requires Minds(g, u, d, isNew) && OnwardIn(g, h, u, d, isNew)
    ensures Minds(h, u, d, isNew)
  {
  }

  /** The parts of a step that matter here, after a creation looked at an input. */
  predicate Looked(st: Step, x: StepId, xt: Step, st': Step)
    requires st.phase.Expanding?
  {
    var isNew := x in st.phase.made;
    && st'.nest == st.nest && st'.finished == st.finished && st'.prevFailure == st.prevFailure
    && st'.created == st.created && st'.runnable == st.runnable
    && st.everDeps <= st'.everDeps <= st.everDeps + {x}
    && (if isNew && xt.phase == Stopped(true) then st'.phase == Stopped(true)
        else st'.phase == Expanding(st.phase.todo, st.phase.known - {x}, st.phase.made - {x})
             && (x in st'.everDeps || (isNew && xt.phase == Stopped(false)) || xt.finished || xt.prevFailure))
  }

  lemma SettleLooks(g: Graph, s: StepId, x: StepId)
    requires s in g.steps && x in g.steps && g.steps[s].phase.Expanding?
    requires (x in g.steps[s].phase.made && g.steps[x].phase == Stopped(false)) || g.steps[x].finished
      || g.steps[x].prevFailure
    requires x in g.steps[s].phase.made ==> g.steps[x].phase != Stopped(true)
    ensures Looked(g.steps[s], x, g.steps[x], Settle(g, s, x).steps[s])
  {
  }

  lemma RecordLooks(g: Graph, s: StepId, x: StepId)
    requires s in g.steps && x in g.steps && g.steps[s].phase.Expanding?
    requires x in g.steps[s].phase.made ==> g.steps[x].phase != Stopped(true)
    ensures Looked(g.steps[s], x, g.steps[x], Record(g, s, x).steps[s])
  {
  }

  lemma ResolveLooks(g: Graph, s: StepId, x: StepId)
    requires s in g.steps && x in g.steps && g.steps[s].phase.Expanding?
    ensures Resolve(g, s, x).steps == g.steps[s := Resolve(g, s, x).steps[s]]
    ensures Looked(g.steps[s], x, g.steps[x], Resolve(g, s, x).steps[s])
  {
    var st, xt := g.steps[s], g.steps[x];
    if x in st.phase.made && xt.phase == Stopped(true) {
    } else if (x in st.phase.made && xt.phase == Stopped(false)) || xt.finished || xt.prevFailure {
      SettleLooks(g, s, x);
    } else {
      RecordLooks(g, s, x);
    }
  }

  /** A creation that is over stays as it is. */
  predicate Over(st: Step) { Ended(st) || st.phase.Dropped? }

  predicate SameEnd(g: Graph, h: Graph, d: StepId) {
    && d in g.steps && d in h.steps && h.steps[d].phase == g.steps[d].phase
    && (g.steps[d].prevFailure ==> h.steps[d].prevFailure)
  }

  lemma WakeStays(g: Graph, e: Event, d: StepId)
    requires Enabled(g, e) && (e.Wake? || e.Sweep?) && d in g.steps
    ensures SameEnd(g, Apply(g, e), d)
  {
  }

  lemma CreationStays(g: Graph, e: Event, d: StepId)
    requires Enabled(g, e) && (e.CreateTop? || e.CreateChild?) && d in g.steps && Over(g.steps[d])
    ensures SameEnd(g, Apply(g, e), d)
  {
  }

  lemma OverStays(g: Graph, e: Event, d: StepId)
    requires Enabled(g, e) && d in g.steps && Over(g.steps[d])
    ensures SameEnd(g, Apply(g, e), d)
  {
    if e.Wake? || e.Sweep? {
      WakeStays(g, e, d);
    } else if e.CreateTop? || e.CreateChild? {
      CreationStays(g, e, d);
    } else if e.ResolveKnown? || e.ResolveFresh? {
      ResolveLooks(g, e.s, e.d);
    }
  }

  lemma {:induction false} EndedLater(gs: seq<Graph>, es: seq<Event>, k: nat, l: nat, d: StepId)
    requires Run(gs, es) && k <= l < |gs| && d in gs[k].steps && Ended(gs[k].steps[d])
    ensures d in gs[l].steps && gs[l].steps[d].phase == gs[k].steps[d].phase
    ensures gs[k].steps[d].prevFailure ==> gs[l].steps[d].prevFailure
    decreases l - k
  {
    if k < l {
      EndedLater(gs, es, k, l - 1, d);
      RunInv(gs, es, l - 1);
      assert NextAt(gs, es, l - 1);
      OverStays(gs[l - 1], es[l - 1], d);
    }
  }

  lemma ResolveMinds(g: Graph, h: Graph, s: StepId, x: StepId, u: StepId, d: StepId, isNew: bool)
    requires s in g.steps && x in g.steps && g.steps[s].phase.Expanding? && s in h.steps
    requires h.steps == g.steps[s := h.steps[s]] && Looked(g.steps[s], x, g.steps[x], h.steps[s])
    requires Minds(g, u, d, isNew) && (g.steps[d].prevFailure ==> g.steps[d].phase == Stopped(true))
    requires x in g.steps[s].phase.made ==> Ended(g.steps[x])
    ensures OnwardIn(g, h, u, d, isNew)
  {
  }

  lemma CreateMinds(g: Graph, e: Event, u: StepId, d: StepId, isNew: bool)
    requires Enabled(g, e) && (e.CreateTop? || e.CreateChild?) && Minds(g, u, d, isNew)
    requires RegistryOk(g, e.path)
    ensures OnwardIn(g, Apply(g, e), u, d, isNew)
  {
  }

  lemma WakeMinds(g: Graph, e: Event, u: StepId, d: StepId, isNew: bool)
    requires Enabled(g, e) && (e.Wake? || e.Sweep?) && Minds(g, u, d, isNew)
    ensures OnwardIn(g, Apply(g, e), u, d, isNew)
  {
  }

  lemma OtherMinds(g: Graph, e: Event, u: StepId, d: StepId, isNew: bool)
    requires Enabled(g, e) && Minds(g, u, d, isNew)
    requires !e.CreateTop? && !e.CreateChild? && !e.ResolveKnown? && !e.ResolveFresh? && !e.Wake? && !e.Sweep?
    ensures OnwardIn(g, Apply(g, e), u, d, isNew)
  {
  }

  lemma EventMinds(g: Graph, e: Event, u: StepId, d: StepId, isNew: bool)
    requires Inv(g) && Enabled(g, e) && Minds(g, u, d, isNew)
    ensures Minds(Apply(g, e), u, d, isNew)
  {
    assert NodeOk(g, u) && NodeOk(g, d);
    if e.CreateTop? || e.CreateChild? {
      assert RegistryOk(g, e.path);
      CreateMinds(g, e, u, d, isNew);
    } else if e.Wake? || e.Sweep? {
      WakeMinds(g, e, u, d, isNew);
    } else if e.ResolveKnown? || e.ResolveFresh? {
      ResolveLooks(g, e.s, e.d);
      ResolveMinds(g, Apply(g, e), e.s, e.d, u, d, isNew);
    } else {
      OtherMinds(g, e, u, d, isNew);
    }
    OnwardMinds(g, Apply(g, e), u, d, isNew);
  }

  lemma {:induction false} RunMinds(
      gs: seq<Graph>, es: seq<Event>, j: nat, k: nat, u: StepId, path: Path, d: StepId)
    requires Run(gs, es) && j < k < |gs| && Asks(gs[j], es[j], u, path, d)
    ensures Minds(gs[k], u, d, !Known(gs[j], path))
    decreases k
  {
    RunInv(gs, es, k - 1);
    assert NextAt(gs, es, k - 1);
    if k == j + 1 {
      CallMinds(gs[j], es[j], u, path, d);
    } else {
      RunMinds(gs, es, j, k - 1, u, path, d);
      EventMinds(gs[k - 1], es[k - 1], u, d, !Known(gs[j], path));
    }
  }

  /** Once the creation that an input was made by has stopped with a failure, the step that
      asked for it is in no state of the run created or runnable. */
  lemma FailedInputStops(
      gs: seq<Graph>, es: seq<Event>, j: nat, k: nat, l: nat, u: StepId, path: Path, d: StepId)
    requires Run(gs, es) && j < |es| && k < |gs| && l < |gs|
    requires es[j] == CreateChild(u, path, d) && !(path in gs[j].registry && gs[j].registry[path] in gs[j].live)
    requires d in gs[k].steps && gs[k].steps[d].phase == Stopped(true)
    ensures u in gs[l].steps ==> !gs[l].steps[u].created && !gs[l].steps[u].runnable
  {
    if u in gs[l].steps && (gs[l].steps[u].created || gs[l].steps[u].runnable) {
      var m := if k <= l then l else k;
      RunInv(gs, es, l);
      assert NodeOk(gs[l], u);
      CreatedStays(gs, es, l, m, u);
      EndedLater(gs, es, k, m, d);
      RunInv(gs, es, m);
      assert NodeOk(gs[m], u);
      AskedBefore(gs, es, j, m, u, path, d);
      RunMinds(gs, es, j, m, u, path, d);
    }
  }

  lemma CreatedStays(gs: seq<Graph>, es: seq<Event>, m: nat, j: nat, u: StepId)
    requires Run(gs, es) && m <= j < |gs| && u in gs[m].steps && gs[m].steps[u].created
    ensures u in gs[j].steps && gs[j].steps[u].created
  {
    RunLater(gs, es, m, j);
    assert LaterAt(gs[m], gs[j], u);
  }

  /** The call came before the step was created. */
  lemma AskedBefore(gs: seq<Graph>, es: seq<Event>, j: nat, m: nat, u: StepId, path: Path, d: StepId)
    requires Run(gs, es) && j < |es| && m < |gs| && Asks(gs[j], es[j], u, path, d)
    requires u in gs[m].steps && gs[m].steps[u].created
    ensures j < m
  {
    if m <= j {
      RunInv(gs, es, j);
      assert NextAt(gs, es, j) && NodeOk(gs[j], u);
      CreatedStays(gs, es, m, j, u);
    }
  }

  /** Every input that was asked for is, once the step is created, recorded, finished, or
      will never be built: a known one because it failed, a new one because its creation
      found nothing to build. */
  lemma InputsAccounted(gs: seq<Graph>, es: seq<Event>, j: nat, k: nat, u: StepId, path: Path, d: StepId)
    requires Run(gs, es) && j < |es| && k < |gs| && Asks(gs[j], es[j], u, path, d)
    requires u in gs[k].steps && gs[k].steps[u].created
    ensures d in gs[k].steps && gs[k].steps[d].path == path
    ensures d in gs[k].steps[u].everDeps || gs[k].steps[d].finished
      || (if Known(gs[j], path) then gs[k].steps[d].prevFailure else gs[k].steps[d].phase == Stopped(false))
  {
    AskedBefore(gs, es, j, k, u, path, d);
    RunMinds(gs, es, j, k, u, path, d);
    RunInv(gs, es, k);
    assert NodeOk(gs[k], u);
    RunInv(gs, es, j);
    assert NextAt(gs, es, j) && RegistryOk(gs[j], path);
    RunLater(gs, es, j + 1, k);
    assert LaterAt(gs[j + 1], gs[k], d);
  }

  // ---- every input is asked for ----

  /** The creation of `u` has dealt with the path: it was finished in the same pass, or a
      step was asked for. */
  predicate Called(e: Event, u: StepId, path: Path) {
    (e.SkipChild? || e.CreateChild?) && e.parent == u && e.path == path
  }

  /** The path is an input and no longer to be dealt with. */
  predicate Past(g: Graph, u: StepId, path: Path) {
    && u in g.steps && g.steps[u].path in g.inputs && path in g.inputs[g.steps[u].path]
    && (g.steps[u].created || (g.steps[u].phase.Expanding? && path !in g.steps[u].phase.todo))
  }

  lemma PastBeforeWake(g: Graph, e: Event, u: StepId, path: Path)
    requires Enabled(g, e) && (e.Wake? || e.Sweep?) && Past(Apply(g, e), u, path)
    ensures Past(g, u, path)
  {
  }

  lemma PastBeforeLook(g: Graph, h: Graph, s: StepId, x: StepId, u: StepId, path: Path)
    requires s in g.steps && x in g.steps && g.steps[s].phase.Expanding? && s in h.steps && g.inputs == h.inputs
    requires h.steps == g.steps[s := h.steps[s]] && Looked(g.steps[s], x, g.steps[x], h.steps[s])
    requires h.steps[s].path == g.steps[s].path && h.steps[s].created == g.steps[s].created
    requires Past(h, u, path)
    ensures Past(g, u, path)
  {
  }

  lemma PastBefore(g: Graph, e: Event, u: StepId, path: Path)
    requires Enabled(g, e) && !e.Wake? && !e.Sweep? && !e.ResolveKnown? && !e.ResolveFresh?
    requires Past(Apply(g, e), u, path) && !Called(e, u, path)
    ensures Past(g, u, path)
  {
  }

  lemma PastOnlyByCall(g: Graph, e: Event, u: StepId, path: Path)
    requires Enabled(g, e) && Past(Apply(g, e), u, path) && !Called(e, u, path)
    ensures Past(g, u, path)
  {
    if e.Wake? || e.Sweep? {
      PastBeforeWake(g, e, u, path);
    } else if e.ResolveKnown? || e.ResolveFresh? {
      ResolveLooks(g, e.s, e.d);
      PastBeforeLook(g, Apply(g, e), e.s, e.d, u, path);
    } else {
      PastBefore(g, e, u, path);
    }
  }

  /** A created step has dealt with each input of its derivation. */
  lemma {:induction false} EveryInputAskedFor(gs: seq<Graph>, es: seq<Event>, k: nat, u: StepId, path: Path)
    requires Run(gs, es) && k < |gs| && Past(gs[k], u, path)
    ensures exists j :: 0 <= j < k && Called(es[j], u, path)
  {
    if k > 0 {
      RunInv(gs, es, k - 1);
      assert NextAt(gs, es, k - 1);
      if !Called(es[k - 1], u, path) {
        PastOnlyByCall(gs[k - 1], es[k - 1], u, path);
        EveryInputAskedFor(gs, es, k - 1, u, path);
        var j :| 0 <= j < k - 1 && Called(es[j], u, path);
      }
    }
  }

  // ---- inputs that need not be asked for ----

  /** The creation of a step of the path finds nothing to build. */
  predicate Substitutes(g: Graph, e: Event, path: Path) {
    e.Substituted? && e.s in g.steps && g.steps[e.s].path == path
  }

  /** That was found, and not forgotten since. */
  ghost predicate FoundFinished(gs: seq<Graph>, es: seq<Event>, j: nat, k: nat, path: Path)
    requires j < k <= |es| <= |gs|
  {
    Substitutes(gs[j], es[j], path) && forall i :: j < i < k ==> es[i] != ForgetFinished
  }

  lemma FinishedByEvent(g: Graph, e: Event, path: Path)
    requires Enabled(g, e)
    ensures path in Apply(g, e).finishedDrvs <==>
      Substitutes(g, e, path) || (path in g.finishedDrvs && e != ForgetFinished)
  {
  }

  /** A path is taken as finished exactly from when a creation finds that nothing of it is
      to be built until the set is started anew. */
  lemma {:induction false} FinishedExactly(gs: seq<Graph>, es: seq<Event>, k: nat, path: Path)
    requires Run(gs, es) && k < |gs|
    ensures path in gs[k].finishedDrvs <==> exists j: nat :: j < k && FoundFinished(gs, es, j, k, path)
  {
    if k > 0 {
      assert NextAt(gs, es, k - 1);
      FinishedExactly(gs, es, k - 1, path);
      FinishedByEvent(gs[k - 1], es[k - 1], path);
      if path in gs[k].finishedDrvs {
        if Substitutes(gs[k - 1], es[k - 1], path) {
          assert FoundFinished(gs, es, k - 1, k, path);
        } else {
          var j: nat :| j < k - 1 && FoundFinished(gs, es, j, k - 1, path);
          assert FoundFinished(gs, es, j, k, path);
        }
      }
      if j: nat :| j < k && FoundFinished(gs, es, j, k, path) {
        if j < k - 1 {
          assert FoundFinished(gs, es, j, k - 1, path) && es[k - 1] != ForgetFinished;
        }
      }
    }
  }

  /** An input that is skipped has a finished step. */
  lemma SkippedIsFinished(gs: seq<Graph>, es: seq<Event>, k: nat, u: StepId, path: Path)
    requires Run(gs, es) && k < |es| && es[k] == SkipChild(u, path)
    ensures exists s :: s in gs[k].steps && gs[k].steps[s].path == path && gs[k].steps[s].finished
  {
    assert NextAt(gs, es, k);
    FinishedExactly(gs, es, k, path);
    var j: nat :| j < k && FoundFinished(gs, es, j, k, path);
    assert NextAt(gs, es, j);
    RunLater(gs, es, j + 1, k);
    assert LaterAt(gs[j + 1], gs[k], es[j].s);
    assert gs[k].steps[es[j].s].path == path;
  }

  // ---- which inputs are recorded ----

  /** The input is looked at and can still become a dependency: it is neither finished nor
      failed, and a new one was not given up by its creation. */
  predicate LooksOpen(g: Graph, e: Event, u: StepId, d: StepId) {
    && d in g.steps && !g.steps[d].finished && !g.steps[d].prevFailure
    && (e == ResolveKnown(u, d) || (e == ResolveFresh(u, d) && !g.steps[d].phase.Stopped?))
  }

  predicate Recorded(g: Graph, u: StepId, d: StepId) { u in g.steps && d in g.steps[u].everDeps }

  lemma RecordedByLook(g: Graph, e: Event, u: StepId, d: StepId)
    requires NodeOk(g, u) && Enabled(g, e) && (e.ResolveKnown? || e.ResolveFresh?)
    ensures Recorded(Apply(g, e), u, d) <==> Recorded(g, u, d) || LooksOpen(g, e, u, d)
  {
  }

  lemma RecordedOnce(g: Graph, e: Event, u: StepId, d: StepId)
    requires NodeOk(g, u) && Enabled(g, e)
    ensures Recorded(Apply(g, e), u, d) <==> Recorded(g, u, d) || LooksOpen(g, e, u, d)
  {
    if e.ResolveKnown? || e.ResolveFresh? { RecordedByLook(g, e, u, d); }
  }

  /** A dependency is recorded exactly when it was looked at while open. */
  lemma {:induction false} RecordedExactly(gs: seq<Graph>, es: seq<Event>, k: nat, u: StepId, d: StepId)
    requires Run(gs, es) && k < |gs|
    ensures Recorded(gs[k], u, d) <==> exists i :: 0 <= i < k && LooksOpen(gs[i], es[i], u, d)
  {
    if k > 0 {
      RunInv(gs, es, k - 1);
      assert NextAt(gs, es, k - 1);
      RecordedExactly(gs, es, k - 1, u, d);
      assert NodeOk(gs[k - 1], u);
      RecordedOnce(gs[k - 1], es[k - 1], u, d);
      if LooksOpen(gs[k - 1], es[k - 1], u, d) { assert Recorded(gs[k], u, d); }
      if exists i :: 0 <= i < k && LooksOpen(gs[i], es[i], u, d) {
        var i :| 0 <= i < k && LooksOpen(gs[i], es[i], u, d);
        assert i == k - 1 || i < k - 1;
      }
    }
  }

  // ---- inputs that failed ----

  /** What is recorded is not to be asked for or looked at again. */
  predicate DoneWith(g: Graph, u: StepId, d: StepId) {
    Recorded(g, u, d) && g.steps[u].phase.Expanding? ==>
      && d in g.steps && g.steps[d].path !in g.steps[u].phase.todo
      && d !in g.steps[u].phase.known && d !in g.steps[u].phase.made
  }

  lemma LookDone(g: Graph, h: Graph, s: StepId, x: StepId, u: StepId, d: StepId)
    requires DoneWith(g, u, d) && s in g.steps && x in g.steps && g.steps[s].phase.Expanding? && s in h.steps
    requires h.steps == g.steps[s := h.steps[s]] && Looked(g.steps[s], x, g.steps[x], h.steps[s])
    requires g.steps[x].path !in g.steps[s].phase.todo && (x in h.steps && h.steps[x].path == g.steps[x].path)
    requires d in g.steps ==> d in h.steps && h.steps[d].path == g.steps[d].path
    ensures DoneWith(h, u, d)
  {
  }

  lemma CallDone(g: Graph, e: Event, u: StepId, d: StepId)
    requires Enabled(g, e) && (e.CreateTop? || e.CreateChild?) && DoneWith(g, u, d) && RegistryOk(g, e.path)
    requires Recorded(g, u, d) ==> d in g.steps
    ensures DoneWith(Apply(g, e), u, d)
  {
  }

  lemma OtherDone(g: Graph, e: Event, u: StepId, d: StepId)
    requires Enabled(g, e) && DoneWith(g, u, d) && (u in g.steps ==> FlagsOf(g.steps[u]))
    requires !e.CreateTop? && !e.CreateChild? && !e.ResolveKnown? && !e.ResolveFresh?
    ensures DoneWith(Apply(g, e), u, d)
  {
  }

  lemma EventDone(g: Graph, e: Event, u: StepId, d: StepId)
    requires Inv(g) && Enabled(g, e) && DoneWith(g, u, d)
    ensures DoneWith(Apply(g, e), u, d)
  {
    assert NodeOk(g, u);
    if e.CreateTop? || e.CreateChild? {
      assert RegistryOk(g, e.path) && EdgeOk(g, d, u);
      CallDone(g, e, u, d);
    } else if e.ResolveKnown? || e.ResolveFresh? {
      assert NodeOk(g, e.s) && EdgeOk(g, e.d, e.s);
      ResolveLooks(g, e.s, e.d);
      LookDone(g, Apply(g, e), e.s, e.d, u, d);
    } else {
      OtherDone(g, e, u, d);
    }
  }

  lemma {:induction false} RunDone(gs: seq<Graph>, es: seq<Event>, k: nat, u: StepId, d: StepId)
    requires Run(gs, es) && k < |gs|
    ensures DoneWith(gs[k], u, d)
  {
    if k > 0 {
      RunInv(gs, es, k - 1);
      assert NextAt(gs, es, k - 1);
      RunDone(gs, es, k - 1, u, d);
      EventDone(gs[k - 1], es[k - 1], u, d);
    }
  }

  /** The creation looks at the input. */
  predicate Looks(e: Event, u: StepId, d: StepId, isNew: bool) {
    e == if isNew then ResolveFresh(u, d) else ResolveKnown(u, d)
  }

  lemma LookStays(g: Graph, h: Graph, s: StepId, x: StepId, u: StepId, d: StepId, isNew: bool)
    requires s in g.steps && x in g.steps && g.steps[s].phase.Expanding? && s in h.steps
    requires h.steps == g.steps[s := h.steps[s]] && Looked(g.steps[s], x, g.steps[x], h.steps[s])
    requires u in g.steps && ToLookAt(g.steps[u].phase, d, isNew) && (s != u || x != d)
    ensures GivenUp(h.steps[u]) || ToLookAt(h.steps[u].phase, d, isNew)
  {
  }

  lemma OtherStays(g: Graph, e: Event, u: StepId, d: StepId, isNew: bool)
    requires Enabled(g, e) && u in g.steps && d in g.steps && ToLookAt(g.steps[u].phase, d, isNew)
    requires !e.ResolveKnown? && !e.ResolveFresh? && !e.CreateTop? && !e.CreateChild?
    ensures u in Apply(g, e).steps
    ensures GivenUp(Apply(g, e).steps[u]) || ToLookAt(Apply(g, e).steps[u].phase, d, isNew)
  {
  }

  lemma CallStays(g: Graph, e: Event, u: StepId, d: StepId, isNew: bool)
    requires Enabled(g, e) && u in g.steps && d in g.steps && ToLookAt(g.steps[u].phase, d, isNew)
    requires e.CreateTop? || e.CreateChild?
    ensures u in Apply(g, e).steps && ToLookAt(Apply(g, e).steps[u].phase, d, isNew)
  {
  }

  lemma StillToLookAt(g: Graph, e: Event, u: StepId, d: StepId, isNew: bool)
    requires Enabled(g, e) && u in g.steps && d in g.steps
    requires ToLookAt(g.steps[u].phase, d, isNew) && !Looks(e, u, d, isNew)
    ensures u in Apply(g, e).steps
    ensures GivenUp(Apply(g, e).steps[u]) || ToLookAt(Apply(g, e).steps[u].phase, d, isNew)
  {
    if e.CreateTop? || e.CreateChild? {
      CallStays(g, e, u, d, isNew);
    } else if e.ResolveKnown? || e.ResolveFresh? {
      ResolveLooks(g, e.s, e.d);
      LookStays(g, Apply(g, e), e.s, e.d, u, d, isNew);
    } else {
      OtherStays(g, e, u, d, isNew);
    }
  }

  /** Before the step is created the creation looks at what it asked for. */
  lemma {:induction false} LookedAtBefore(
      gs: seq<Graph>, es: seq<Event>, j: nat, k: nat, u: StepId, path: Path, d: StepId)
    requires Run(gs, es) && j < k < |gs| && Asks(gs[j], es[j], u, path, d) && u in gs[k].steps
    requires !GivenUp(gs[k].steps[u]) && !ToLookAt(gs[k].steps[u].phase, d, !Known(gs[j], path))
    ensures exists i :: j < i < k && Looks(es[i], u, d, !Known(gs[j], path))
    decreases k
  {
    var isNew := !Known(gs[j], path);
    RunInv(gs, es, k - 1);
    assert NextAt(gs, es, k - 1);
    if k == j + 1 {
      CallHolds(gs[j], es[j], u, path, d);
    } else if !Looks(es[k - 1], u, d, isNew) {
      RunMinds(gs, es, j, k - 1, u, path, d);
      if GivenUp(gs[k - 1].steps[u]) { OverStays(gs[k - 1], es[k - 1], u); }
      if ToLookAt(gs[k - 1].steps[u].phase, d, isNew) {
        StillToLookAt(gs[k - 1], es[k - 1], u, d, isNew);
      } else {
        LookedAtBefore(gs, es, j, k - 1, u, path, d);
        var i :| j < i < k - 1 && Looks(es[i], u, d, isNew);
      }
    }
  }

  lemma CallHolds(g: Graph, e: Event, u: StepId, path: Path, d: StepId)
    requires Inv(g) && Enabled(g, e) && Asks(g, e, u, path, d)
    ensures u in Apply(g, e).steps && ToLookAt(Apply(g, e).steps[u].phase, d, !Known(g, path))
  {
    assert RegistryOk(g, path) && NodeOk(g, u) && EdgeOk(g, d, u);
  }

  /** The creation of `u` looks at the known input when that has already failed. */
  predicate LooksFailed(g: Graph, e: Event, u: StepId, d: StepId) {
    e == ResolveKnown(u, d) && d in g.steps && g.steps[d].prevFailure
  }

  /** An input of a created step that failed is not a dependency of it if and only if it was
      known and had failed by the time it was looked at. */
  lemma PassedOverExactly(gs: seq<Graph>, es: seq<Event>, j: nat, k: nat, u: StepId, path: Path, d: StepId)
    requires Run(gs, es) && j < |es| && k < |gs| && Asks(gs[j], es[j], u, path, d)
    requires u in gs[k].steps && gs[k].steps[u].created && d in gs[k].steps && gs[k].steps[d].prevFailure
    ensures d !in gs[k].steps[u].everDeps <==> exists i :: 0 <= i < k && LooksFailed(gs[i], es[i], u, d)
  {
    AskedBefore(gs, es, j, k, u, path, d);
    RecordedExactly(gs, es, k, u, d);
    if d !in gs[k].steps[u].everDeps {
      MustHaveFailed(gs, es, j, k, u, path, d);
    } else {
      var i :| 0 <= i < k && LooksOpen(gs[i], es[i], u, d);
      forall l | 0 <= l < k ensures !LooksFailed(gs[l], es[l], u, d) {
        LooksOnce(gs, es, i, l, u, d);
      }
    }
  }

  /** What was looked at and recorded is not found failed at another look. */
  lemma LooksOnce(gs: seq<Graph>, es: seq<Event>, i: nat, l: nat, u: StepId, d: StepId)
    requires Run(gs, es) && i < |es| && l < |es|
    requires LooksOpen(gs[i], es[i], u, d)
    ensures !LooksFailed(gs[l], es[l], u, d)
  {
    assert NextAt(gs, es, l) && NextAt(gs, es, i);
    if i < l {
      RecordedExactly(gs, es, l, u, d);
      RunDone(gs, es, l, u, d);
    } else if l < i && LooksFailed(gs[l], es[l], u, d) {
      RunInv(gs, es, l);
      assert NodeOk(gs[l], d);
      EndedLater(gs, es, l, i, d);
    }
  }

  lemma MustHaveFailed(gs: seq<Graph>, es: seq<Event>, j: nat, k: nat, u: StepId, path: Path, d: StepId)
    requires Run(gs, es) && j < k < |gs| && Asks(gs[j], es[j], u, path, d)
    requires u in gs[k].steps && gs[k].steps[u].created && d in gs[k].steps && gs[k].steps[d].prevFailure
    requires d !in gs[k].steps[u].everDeps
    ensures exists i :: 0 <= i < k && LooksFailed(gs[i], es[i], u, d)
  {
    RunInv(gs, es, k);
    assert NodeOk(gs[k], u) && NodeOk(gs[k], d);
    RunMinds(gs, es, j, k, u, path, d);
    LookedAtBefore(gs, es, j, k, u, path, d);
    var i :| j < i < k && Looks(es[i], u, d, !Known(gs[j], path));
    RecordedExactly(gs, es, k, u, d);
    assert NextAt(gs, es, i) && !LooksOpen(gs[i], es[i], u, d);
    RunLater(gs, es, i, k);
    assert LaterAt(gs[i], gs[k], d);
    assert LooksFailed(gs[i], es[i], u, d);
  }

  lemma FailedUnfinished(gs: seq<Graph>, es: seq<Event>, m: nat, d: StepId)
    requires Run(gs, es) && m < |gs| && d in gs[m].steps && gs[m].steps[d].prevFailure
    ensures !gs[m].steps[d].finished
  {
    RunInv(gs, es, m);
    assert NodeOk(gs[m], d);
  }

  /** Otherwise it is one, and the step never becomes runnable. */
  lemma FailedDependencyBlocks(gs: seq<Graph>, es: seq<Event>, k: nat, l: nat, u: StepId, d: StepId)
    requires Run(gs, es) && k < |gs| && l < |gs|
    requires u in gs[k].steps && d in gs[k].steps[u].everDeps && d in gs[k].steps && gs[k].steps[d].prevFailure
    ensures u in gs[l].steps ==> !gs[l].steps[u].runnable
  {
    if u in gs[l].steps && gs[l].steps[u].runnable {
      TopologicalSafety(gs, es, l, k, u, d);
      var m := if k <= l then l else k;
      RunInv(gs, es, k);
      assert NodeOk(gs[k], d);
      EndedLater(gs, es, k, m, d);
      RunLater(gs, es, l, m);
      assert LaterAt(gs[l], gs[m], d);
      FailedUnfinished(gs, es, m, d);
    }
  }

  // ---- a failed input that is passed over ----

  ghost predicate RunOf(gs: seq<Graph>, es: seq<Event>, g: Graph) { Run(gs, es) && gs[|es|] == g }

  ghost predicate Reached(g: Graph) { exists gs, es :: RunOf(gs, es, g) }

  ghost predicate Moves(g: Graph, e: Event, h: Graph) { Enabled(g, e) && Apply(g, e) == h }

  lemma Reach(g: Graph, e: Event, h: Graph)
    requires Reached(g) && Moves(g, e, h)
    ensures Reached(h)
  {
    var gs, es :| RunOf(gs, es, g);
    var hs, fs := gs + [h], es + [e];
    forall k | 0 <= k < |fs| ensures NextAt(hs, fs, k) {
      if k < |es| { assert NextAt(gs, es, k); }
    }
    assert RunOf(hs, fs, h);
  }

  const INPUTS: map<Path, set<Path>> := map["a" := {}, "p" := {"a"}]

  const FAILED: Step := NewStep("a", 0).(prevFailure := true, phase := Stopped(true))

  /** The step of "a" has failed and is still registered. */
  function AfterFailure(): Graph {
    Graph(INPUTS, map[0 := FAILED], {0}, map["a" := 0], {}, {}, {}, {}, false)
  }

  lemma FailureKept()
    ensures Reached(AfterFailure())
  {
    var g0 := Init(INPUTS);
    var g1 := Graph(INPUTS, map[0 := NewStep("a", 0)], {0}, map["a" := 0], {}, {}, {}, {}, false);
    assert RunOf([g0], [], g0);
    Reach(g0, CreateTop("a", 0, 0), g1);
    Reach(g1, CachedFailure(0), AfterFailure());
  }

  /** The step of "p", which has "a" as its input, at the given stage. */
  function WithParent(rdeps: seq<StepId>, p: Step, ready: set<StepId>, closed: set<NestId>): Graph {
    Graph(INPUTS, map[0 := FAILED.(rdeps := rdeps), 1 := p], {0, 1}, map["a" := 0, "p" := 1], {}, ready, {}, closed,
          false)
  }

  const PARENT: Step := NewStep("p", 1)

  const ASKING: Step := PARENT.(expanded := true, phase := Expanding({"a"}, {}, {}))

  const LOOKING: Step := PARENT.(expanded := true, phase := Expanding({}, {0}, {}))

  const LOOKED: Step := PARENT.(expanded := true, phase := Expanding({}, {}, {}))

  const CREATED: Step := PARENT.(expanded := true, created := true, phase := Marked)

  const RETURNED: Step := CREATED.(phase := Returned)

  lemma ParentAsks()
    ensures Reached(WithParent([1], LOOKING, {}, {}))
  {
    FailureKept();
    var g, h := AfterFailure(), WithParent([], PARENT, {}, {});
    assert Obtain(g, "p", 1, 1) == h;
    Reach(g, CreateTop("p", 1, 1), h);
    Reach(h, Expand(1), WithParent([], ASKING, {}, {}));
    ParentLinks();
    Reach(WithParent([], ASKING, {}, {}), CreateChild(1, "a", 2), WithParent([1], LOOKING, {}, {}));
  }

  lemma ParentLinks()
    ensures Moves(WithParent([], ASKING, {}, {}), CreateChild(1, "a", 2), WithParent([1], LOOKING, {}, {}))
  {
    var g := WithParent([], ASKING, {}, {});
    assert Known(g, "a") && Obtain(g, "a", 2, 1) == g && Obtained(g, "a", 2) == 0;
    assert [] + [1] == [1];
    assert {"a"} - {"a"} == {} && {} + {0} == {0};
  }

  lemma ParentCreated()
    ensures Reached(WithParent([1], RETURNED, {1}, {}))
  {
    ParentAsks();
    var g := WithParent([1], LOOKING, {}, {});
    assert {0} - {0} == {} && LOOKING.phase.made - {0} == {};
    Reach(g, ResolveKnown(1, 0), WithParent([1], LOOKED, {}, {}));
    Reach(WithParent([1], LOOKED, {}, {}), MarkCreated(1), WithParent([1], CREATED, {}, {}));
    Reach(WithParent([1], CREATED, {}, {}), CheckDeps(1), WithParent([1], RETURNED, {1}, {}));
  }

  /** A run in which a step becomes runnable although its only input, known from another
      build, has a cached failure. */
  lemma FailedInputPassedOver() returns (gs: seq<Graph>, es: seq<Event>)
    ensures Run(gs, es)
    ensures var g: Graph := gs[|es|];
      && g.inputs == map["a" := {}, "p" := {"a"}] && g.steps.Keys == {0, 1}
      && g.steps[0].path == "a" && g.steps[0].prevFailure && g.steps[1].path == "p" && g.steps[1].runnable
  {
    ParentCreated();
    var g := WithParent([1], RETURNED, {1}, {});
    Reach(g, Close(1), WithParent([1], RETURNED, {1}, {1}));
    assert {1} - {1} == {};
    Reach(WithParent([1], RETURNED, {1}, {1}), MakeRunnable(1),
          WithParent([1], RETURNED.(runnable := true), {}, {1}));
    gs, es :| RunOf(gs, es, WithParent([1], RETURNED.(runnable := true), {}, {1}));
  }
}
