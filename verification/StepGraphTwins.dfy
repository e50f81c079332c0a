/**
 Two live step objects with one derivation path. Registrations are removed by
 path, so removing one object can take the registration of the other away. These
 are the only wake-ups that get lost, and they are lost for good.
 */
module StepGraphTwins {
  import opened Reachability
  import opened StepGraph
  import opened StepGraphInvariant
  import opened StepGraphTheorems

  /** Event `e` removes `x` by path and with it the registration of its live twin `d`. */
  ghost predicate TakenByTwin(g: Graph, e: Event, x: StepId, d: StepId) {
    && x != d && x in g.live && d in g.live && x in g.steps && d in g.steps
    && g.steps[x].path == g.steps[d].path && Registered(g, d)
    && (e == Unregister(x) || (e.Fail? && x in e.visited))
  }

  /** Some earlier event did that to `d`. */
  ghost predicate Taken(gs: seq<Graph>, es: seq<Event>, i: nat, d: StepId)
    requires |gs| == |es| + 1 && i < |gs|
  {
    exists j, x :: 0 <= j < i && TakenByTwin(gs[j], es[j], x, d)
  }

  lemma TakenGone(g: Graph, e: Event, x: StepId, d: StepId)
    requires Enabled(g, e) && TakenByTwin(g, e, x, d)
    ensures d in Apply(g, e).steps && !Registered(Apply(g, e), d)
  {
    if e.Fail? { assert g.steps[x].path in PathsOf(g, e.visited); }
  }

  /** A live step whose inputs were never enumerated loses its registration only to a twin. */
  lemma TakerIs(g: Graph, e: Event, d: StepId) returns (x: StepId)
    requires Inv(g) && Enabled(g, e) && d in g.live && d in g.steps && Registered(g, d) && !g.steps[d].expanded
    requires d in Apply(g, e).live && d in Apply(g, e).steps && !Registered(Apply(g, e), d)
    ensures TakenByTwin(g, e, x, d)
  {
    if e.Fail? {
      x := TakerFailed(g, e.f, e.visited, d);
    } else if e.Unregister? {
      x := e.s;
      assert NodeOk(g, x);
    } else {
      x := d;
      KeepsPath(g, e, d);
      StaysRegistered(g, e, d);
    }
  }

  lemma TakerFailed(g: Graph, f: StepId, v: set<StepId>, d: StepId) returns (x: StepId)
    requires Inv(g) && Enabled(g, Fail(f, v)) && d in g.live && d in g.steps && !g.steps[d].expanded
    requires Registered(g, d) && !Registered(Forget(g, PathsOf(g, v)), d)
    ensures TakenByTwin(g, Fail(f, v), x, d)
  {
    x :| x in v && x in g.steps && g.steps[x].path == g.steps[d].path;
    DependentsExpanded(g, f, x);
  }

  lemma KeepsPath(g: Graph, e: Event, d: StepId)
    requires Inv(g) && Enabled(g, e) && d in g.steps
    ensures d in Apply(g, e).steps && Apply(g, e).steps[d].path == g.steps[d].path
  {
    EventLater(g, e);
    assert LaterAt(g, Apply(g, e), d);
  }

  lemma StaysRegistered(g: Graph, e: Event, d: StepId)
    requires Enabled(g, e) && !e.Fail? && !e.Unregister?
    requires d in g.live && d in g.steps && Registered(g, d)
    requires d in Apply(g, e).steps && Apply(g, e).steps[d].path == g.steps[d].path
    ensures Registered(Apply(g, e), d)
  {
  }

  lemma ResolveExpanded(g: Graph, s: StepId, d: StepId, u: StepId)
    requires s in g.steps && d in g.steps && g.steps[s].phase.Expanding? && u in g.steps && g.steps[u].expanded
    ensures u in Resolve(g, s, d).steps && Resolve(g, s, d).steps[u].expanded
  {
    var h := Resolve(g, s, d);
    if h != Settle(g, s, d) && h != Record(g, s, d) {
      assert h == Put(g, s, g.steps[s].(phase := Stopped(true)));
    }
  }

  lemma StaysExpanded(g: Graph, e: Event, d: StepId)
    requires Enabled(g, e) && d in g.steps && g.steps[d].expanded
    ensures d in Apply(g, e).steps && Apply(g, e).steps[d].expanded
  {
    if e.ResolveKnown? || e.ResolveFresh? { ResolveExpanded(g, e.s, e.d, d); }
  }

  lemma NewIsRegistered(g: Graph, e: Event, d: StepId)
    requires Inv(g) && Enabled(g, e) && d !in g.steps && d in Apply(g, e).steps
    ensures Registered(Apply(g, e), d)
  {
    if e.CreateChild? { assert NodeOk(g, e.parent); }
  }

  /** In every run a live step whose inputs were never enumerated is registered
      unless a twin took its registration. */
  lemma {:induction false} RegisteredOrTaken(gs: seq<Graph>, es: seq<Event>, i: nat, d: StepId)
    requires Run(gs, es) && i < |gs| && d in gs[i].live && d in gs[i].steps && !gs[i].steps[d].expanded
    ensures Registered(gs[i], d) || Taken(gs, es, i, d)
  {
    if i > 0 {
      var g, e := gs[i - 1], es[i - 1];
      RunInv(gs, es, i - 1);
      StepLater(gs, es, i - 1);
      assert NextAt(gs, es, i - 1);
      if d !in g.steps {
        NewIsRegistered(g, e, d);
      } else {
        assert LaterAt(g, gs[i], d);
        if g.steps[d].expanded { StaysExpanded(g, e, d); }
        RegisteredOrTaken(gs, es, i - 1, d);
        if Registered(g, d) && !Registered(gs[i], d) {
          var x := TakerIs(g, e, d);
        }
      }
    }
  }

  /** A registration that was taken never comes back. */
  lemma TakenStaysGone(gs: seq<Graph>, es: seq<Event>, i: nat, d: StepId)
    requires Run(gs, es) && i < |gs| && Taken(gs, es, i, d)
    ensures d in gs[i].steps && !Registered(gs[i], d)
  {
    var j, x :| 0 <= j < i && TakenByTwin(gs[j], es[j], x, d);
    assert NextAt(gs, es, j);
    TakenGone(gs[j], es[j], x, d);
    RunLater(gs, es, j + 1, i);
    assert LaterAt(gs[j + 1], gs[i], d);
  }

  /** In every reachable state a finished dependency will be dropped, by the
      completion in flight or by the sweep, if and only if it was built or no twin
      took its registration. */
  lemma WakeUpLostExactly(gs: seq<Graph>, es: seq<Event>, i: nat, u: StepId, d: StepId)
    requires Run(gs, es) && i < |gs| && u in gs[i].live && u in gs[i].steps && d in gs[i].steps[u].deps
    requires d in gs[i].steps && gs[i].steps[d].finished
    ensures d in gs[i].finishing || d in SweepSet(gs[i]) <==> gs[i].steps[d].expanded || !Taken(gs, es, i, d)
  {
    var g := gs[i];
    RunInv(gs, es, i);
    assert EdgeOk(g, d, u) && NodeOk(g, d);
    if !g.steps[d].expanded {
      if Taken(gs, es, i, d) {
        TakenStaysGone(gs, es, i, d);
      } else {
        RegisteredOrTaken(gs, es, i, d);
      }
    }
  }

  // ---- a lost wake-up is lost for good ----

  /** `u` waits for `d`, which is finished and was never built. */
  predicate WaitsForUnbuilt(g: Graph, u: StepId, d: StepId) {
    && u in g.live && u in g.steps && d in g.steps && d in g.steps[u].deps
    && g.steps[d].finished && !g.steps[d].expanded
  }

  predicate Stuck(g: Graph, u: StepId, d: StepId) {
    WaitsForUnbuilt(g, u, d) && !Registered(g, d)
  }

  /** Waking drops `d` only if `d` itself wakes. */
  lemma WakeKeepsStuck(g: Graph, w: set<StepId>, u: StepId, d: StepId)
    requires Inv(g) && Stuck(g, u, d) && d !in w
    ensures d in WokenDeps(g, w, u)
  {
    WokenDepsExact(g, w, u);
  }

  lemma DepStays(g: Graph, e: Event, u: StepId, d: StepId)
    requires Inv(g) && Enabled(g, e) && Stuck(g, u, d)
    ensures u in Apply(g, e).steps && d in Apply(g, e).steps[u].deps
  {
    if e.Wake? {
      assert NodeOk(g, e.s) && NodeOk(g, d);
      WakeKeepsStuck(g, {e.s}, u, d);
    } else if e.Sweep? {
      WakeKeepsStuck(g, SweepSet(g), u, d);
    } else if e.ResolveKnown? || e.ResolveFresh? {
      ResolveKeepsDeps(g, e.s, e.d, u);
    } else {
      OtherKeepsDeps(g, e, u);
    }
  }

  lemma ResolveKeepsDeps(g: Graph, s: StepId, d: StepId, u: StepId)
    requires s in g.steps && d in g.steps && g.steps[s].phase.Expanding? && u in g.steps
    ensures u in Resolve(g, s, d).steps && g.steps[u].deps <= Resolve(g, s, d).steps[u].deps
  {
    var h := Resolve(g, s, d);
    if h != Settle(g, s, d) && h != Record(g, s, d) {
      assert h == Put(g, s, g.steps[s].(phase := Stopped(true)));
    }
  }

  lemma OtherKeepsDeps(g: Graph, e: Event, u: StepId)
    requires Enabled(g, e) && u in g.steps && !e.Wake? && !e.Sweep? && !e.ResolveKnown? && !e.ResolveFresh?
    ensures u in Apply(g, e).steps && g.steps[u].deps <= Apply(g, e).steps[u].deps
  {
  }

  lemma {:induction false} StuckOnward(gs: seq<Graph>, es: seq<Event>, i: nat, j: nat, u: StepId, d: StepId)
    requires Run(gs, es) && i <= j < |gs| && Stuck(gs[i], u, d) && u in gs[j].live
    ensures Stuck(gs[j], u, d)
    decreases j - i
  {
    if i < j {
      StepLater(gs, es, j - 1);
      assert LaterAt(gs[j - 1], gs[j], u);
      RunLater(gs, es, i, j - 1);
      assert LaterAt(gs[i], gs[j - 1], u);
      StuckOnward(gs, es, i, j - 1, u, d);
      StuckStep(gs, es, j - 1, u, d);
    }
  }

  lemma StuckStep(gs: seq<Graph>, es: seq<Event>, i: nat, u: StepId, d: StepId)
    requires Run(gs, es) && i < |es| && Stuck(gs[i], u, d) && u in gs[i + 1].live
    ensures Stuck(gs[i + 1], u, d)
  {
    RunInv(gs, es, i);
    RunInv(gs, es, i + 1);
    StepLater(gs, es, i);
    assert NextAt(gs, es, i);
    DepStays(gs[i], es[i], u, d);
    assert LaterAt(gs[i], gs[i + 1], d) && NodeOk(gs[i], d) && NodeOk(gs[i + 1], d);
    FinishedStays(gs[i], es[i], d);
  }

  /** A step that finished without being built never enumerates its inputs. */
  lemma FinishedStays(g: Graph, e: Event, d: StepId)
    requires Inv(g) && Enabled(g, e) && d in g.steps && g.steps[d].finished && !g.steps[d].expanded
    ensures d in Apply(g, e).steps && !Apply(g, e).steps[d].expanded
  {
    assert NodeOk(g, d);
    if e.ResolveKnown? || e.ResolveFresh? { ResolveKeepsFinished(g, e.s, e.d, d); }
  }

  lemma ResolveKeepsFinished(g: Graph, s: StepId, d: StepId, u: StepId)
    requires s in g.steps && d in g.steps && g.steps[s].phase.Expanding? && u in g.steps && !g.steps[u].expanded
    ensures u in Resolve(g, s, d).steps && !Resolve(g, s, d).steps[u].expanded
  {
    var h := Resolve(g, s, d);
    if h != Settle(g, s, d) && h != Record(g, s, d) {
      assert h == Put(g, s, g.steps[s].(phase := Stopped(true)));
    }
  }

  /** From then on the dependent is never runnable, for as long as it lives. */
  lemma LostForGood(gs: seq<Graph>, es: seq<Event>, i: nat, j: nat, u: StepId, d: StepId)
    requires Run(gs, es) && i <= j < |gs| && u in gs[i].live && u in gs[i].steps && u in gs[j].live
    requires d in gs[i].steps[u].deps && d in gs[i].steps && gs[i].steps[d].finished
    requires !gs[i].steps[d].expanded && Taken(gs, es, i, d)
    ensures u in gs[j].steps && d in gs[j].steps[u].deps && !gs[j].steps[u].runnable
  {
    TakenStaysGone(gs, es, i, d);
    StuckOnward(gs, es, i, j, u, d);
    RunInv(gs, es, j);
    assert NodeOk(gs[j], u);
  }

  // ---- freedom from deadlock, with twins ----

  lemma ResolveViable(g: Graph, s: StepId, d: StepId, u: StepId)
    requires s in g.steps && d in g.steps && g.steps[s].phase.Expanding? && u in g.steps
    requires u in Resolve(g, s, d).steps && Viable(Resolve(g, s, d).steps[u])
    ensures Viable(g.steps[u])
  {
    var h := Resolve(g, s, d);
    if h != Settle(g, s, d) && h != Record(g, s, d) {
      assert h == Put(g, s, g.steps[s].(phase := Stopped(true)));
    }
  }

  lemma ViableBefore(g: Graph, e: Event, d: StepId)
    requires Inv(g) && Enabled(g, e) && d in g.steps && d in Apply(g, e).steps && Viable(Apply(g, e).steps[d])
    ensures Viable(g.steps[d])
  {
    assert NodeOk(g, d);
    if e.ResolveKnown? || e.ResolveFresh? { ResolveViable(g, e.s, e.d, d); }
  }

  /** A new reverse edge starts at a registered step. */
  lemma NewDependent(g: Graph, e: Event, d: StepId, u: StepId)
    requires Inv(g) && Enabled(g, e) && d in g.steps && d in Apply(g, e).steps
    requires u in Apply(g, e).steps[d].rdeps && u !in g.steps[d].rdeps
    ensures Registered(g, d)
  {
    if e.ResolveKnown? || e.ResolveFresh? { ResolveRdeps(g, e.s, e.d, d); }
    if e.CreateChild? { assert NodeOk(g, e.parent) && RegistryOk(g, e.path); }
  }

  lemma ResolveRdeps(g: Graph, s: StepId, d: StepId, u: StepId)
    requires s in g.steps && d in g.steps && g.steps[s].phase.Expanding? && u in g.steps
    ensures u in Resolve(g, s, d).steps && Resolve(g, s, d).steps[u].rdeps == g.steps[u].rdeps
  {
    var h := Resolve(g, s, d);
    if h != Settle(g, s, d) && h != Record(g, s, d) {
      assert h == Put(g, s, g.steps[s].(phase := Stopped(true)));
    }
  }

  /** When a viable step loses its registration, so do its dependents, unless it lost
      it to a twin. */
  lemma LosesTogether(g: Graph, e: Event, d: StepId, u: StepId)
    requires Inv(g) && Enabled(g, e) && d in g.live && d in g.steps && Registered(g, d) && Viable(g.steps[d])
    requires u in g.live && u in g.steps && u in g.steps[d].rdeps
    requires d in Apply(g, e).steps && !Registered(Apply(g, e), d)
    requires u in Apply(g, e).steps && Registered(Apply(g, e), u)
    ensures exists x :: TakenByTwin(g, e, x, d)
  {
    KeepsPath(g, e, d);
    if e.Fail? {
      var x :| x in e.visited && x in g.steps && g.steps[x].path == g.steps[d].path;
      assert u in LiveRdeps(g, d);
      assert x in g.live;
      assert TakenByTwin(g, e, x, d);
    } else if e.Unregister? {
      assert NodeOk(g, e.s);
      assert TakenByTwin(g, e, e.s, d);
    } else {
      StaysRegistered(g, e, d);
    }
  }

  /** In every run a viable step with a registered dependent is registered itself
      unless a twin took its registration. */
  lemma {:induction false} DependencyRegistered(gs: seq<Graph>, es: seq<Event>, i: nat, d: StepId, u: StepId)
    requires Run(gs, es) && i < |gs| && d in gs[i].live && d in gs[i].steps && Viable(gs[i].steps[d])
    requires u in gs[i].live && u in gs[i].steps && u in gs[i].steps[d].rdeps && Registered(gs[i], u)
    ensures Registered(gs[i], d) || Taken(gs, es, i, d)
  {
    if i > 0 {
      var g, e := gs[i - 1], es[i - 1];
      RunInv(gs, es, i - 1);
      assert NextAt(gs, es, i - 1);
      if d !in g.steps {
        NewIsRegistered(g, e, d);
      } else if !Registered(gs[i], d) {
        LostRegistration(g, e, d, u);
        if !Registered(g, d) { DependencyRegistered(gs, es, i - 1, d, u); }
      }
    }
  }

  lemma LostRegistration(g: Graph, e: Event, d: StepId, u: StepId)
    requires Inv(g) && Enabled(g, e) && d in g.steps && d in Apply(g, e).live && d in Apply(g, e).steps
    requires Viable(Apply(g, e).steps[d]) && !Registered(Apply(g, e), d)
    requires u in Apply(g, e).live && u in Apply(g, e).steps && u in Apply(g, e).steps[d].rdeps
    requires Registered(Apply(g, e), u)
    ensures d in g.live && Viable(g.steps[d]) && u in g.live && u in g.steps && u in g.steps[d].rdeps
    ensures Registered(g, u) && (Registered(g, d) ==> exists x :: TakenByTwin(g, e, x, d))
  {
    EventLater(g, e);
    assert LaterAt(g, Apply(g, e), d) && LaterAt(g, Apply(g, e), u);
    ViableBefore(g, e, d);
    OldDependent(g, e, d, u);
    if Registered(g, d) { LosesTogether(g, e, d, u); }
  }

  /** A step that is unregistered after the event had its dependents before it. */
  lemma OldDependent(g: Graph, e: Event, d: StepId, u: StepId)
    requires Inv(g) && Enabled(g, e) && d in g.live && d in g.steps && d in Apply(g, e).steps && u in Apply(g, e).steps
    requires Apply(g, e).steps[d].path == g.steps[d].path
    requires u in Apply(g, e).steps[d].rdeps && !Registered(Apply(g, e), d)
    ensures u in g.steps && u in g.steps[d].rdeps
  {
    if u !in g.steps[d].rdeps {
      NewDependent(g, e, d, u);
      assert !e.Fail? && !e.Unregister?;
      StaysRegistered(g, e, d);
    }
    assert EdgeOk(g, d, u);
  }

  /** A viable dependency of a live registered step is unregistered if and only if a
      twin took its registration. */
  lemma UnregisteredExactly(gs: seq<Graph>, es: seq<Event>, i: nat, d: StepId, u: StepId)
    requires Run(gs, es) && i < |gs| && u in gs[i].live && u in gs[i].steps && Registered(gs[i], u)
    requires d in gs[i].steps[u].deps && d in gs[i].steps && Viable(gs[i].steps[d])
    ensures !Registered(gs[i], d) <==> Taken(gs, es, i, d)
  {
    RunInv(gs, es, i);
    assert EdgeOk(gs[i], d, u);
    if Taken(gs, es, i, d) { TakenStaysGone(gs, es, i, d); }
    DependencyRegistered(gs, es, i, d, u);
  }

  /** A step at which waiting ends: it is finished, being created, or has no dependencies. */
  predicate AtEnd(g: Graph, r: StepId) {
    r in g.live && r in g.steps && (g.steps[r].finished || Active(g.steps[r]) || g.steps[r].deps == {})
  }

  /** Nobody is going to act on such a step: it was finished without a build and lost its
      registration to a twin; or it is unfinished, and unregistered or missed by a twin in
      the set of new runnable steps. */
  ghost predicate Abandoned(gs: seq<Graph>, es: seq<Event>, i: nat, r: StepId)
    requires |gs| == |es| + 1 && i < |gs| && r in gs[i].steps
  {
    if gs[i].steps[r].finished then !gs[i].steps[r].expanded && Taken(gs, es, i, r)
    else !Registered(gs[i], r) || Missed(gs, es, i, r)
  }

  lemma {:induction false} LiveBelow(g: Graph, s: StepId, r: StepId)
    requires Inv(g) && s in g.live && Reaches(DepEdges(g), s, r)
    ensures r in g.live && r in g.steps
  {
    forall x | x in g.live ensures Succ(DepEdges(g), x) <= g.live {
      forall d | d in Succ(DepEdges(g), x) ensures d in g.live { assert EdgeOk(g, d, x) && NodeOk(g, x); }
    }
    ClosedUnderReach(DepEdges(g), g.live, s, r);
    assert NodeOk(g, r);
  }

  /** At the end of waiting somebody acts if and only if the step is not abandoned. */
  lemma ActedOnExactly(gs: seq<Graph>, es: seq<Event>, i: nat, s: StepId, r: StepId)
    requires Run(gs, es) && i < |gs| && (forall k :: 0 <= k < i ==> CleanEvent(es[k]))
    requires s in gs[i].live && s in gs[i].steps && !gs[i].steps[s].finished && Reaches(DepEdges(gs[i]), s, r)
    ensures Obligation(gs[i], r) <==> r in gs[i].steps && AtEnd(gs[i], r) && !Abandoned(gs, es, i, r)
  {
    var g := gs[i];
    RunInv(gs, es, i);
    RunClean(gs, es, i, r);
    LiveBelow(g, s, r);
    assert NodeOk(g, r);
    OverlookedExactly(gs, es, i, r);
    if g.steps[r].finished {
      var u := ReachesLast(DepEdges(g), s, r);
      LiveBelow(g, s, u);
      WakeUpLostExactly(gs, es, i, u, r);
    }
  }

  /** In every reachable state of a run without failed creations, nobody is going to act
      on anything a live unfinished step waits for if and only if each end of its waiting
      is abandoned. */
  lemma DeadlockedExactly(gs: seq<Graph>, es: seq<Event>, i: nat, s: StepId)
    requires Run(gs, es) && i < |gs| && (forall k :: 0 <= k < i ==> CleanEvent(es[k]))
    requires s in gs[i].live && s in gs[i].steps && !gs[i].steps[s].finished
    ensures (forall r :: Reaches(DepEdges(gs[i]), s, r) ==> !Obligation(gs[i], r)) <==>
      forall r :: Reaches(DepEdges(gs[i]), s, r) && AtEnd(gs[i], r) ==> Abandoned(gs, es, i, r)
  {
    forall r | Reaches(DepEdges(gs[i]), s, r)
      ensures Obligation(gs[i], r) <==> r in gs[i].steps && AtEnd(gs[i], r) && !Abandoned(gs, es, i, r)
    {
      ActedOnExactly(gs, es, i, s, r);
    }
  }

  /** No step that `s` waits for, directly or not, lost its registration or its place
      among the new runnable steps to a twin. */
  ghost predicate NoneTaken(gs: seq<Graph>, es: seq<Event>, i: nat, s: StepId)
    requires |gs| == |es| + 1 && i < |gs|
  {
    forall d :: Reaches(DepEdges(gs[i]), s, d) ==> !Taken(gs, es, i, d) && !Missed(gs, es, i, d)
  }

  lemma {:induction false} TwinsStay(gs: seq<Graph>, es: seq<Event>, i: nat, j: nat)
    requires Run(gs, es) && i <= j < |gs| && gs[i].twins
    ensures gs[j].twins
    decreases j - i
  {
    if i < j {
      TwinsStay(gs, es, i, j - 1);
      assert NextAt(gs, es, j - 1);
      TwinsKept(gs[j - 1], es[j - 1]);
    }
  }

  lemma TwinsKept(g: Graph, e: Event)
    requires Enabled(g, e) && g.twins
    ensures Apply(g, e).twins
  {
    if e.ResolveKnown? || e.ResolveFresh? { ResolveTwins(g, e.s, e.d); }
  }

  lemma ResolveTwins(g: Graph, s: StepId, d: StepId)
    requires s in g.steps && d in g.steps && g.steps[s].phase.Expanding?
    ensures Resolve(g, s, d).twins == g.twins
  {
    var h := Resolve(g, s, d);
    if h != Settle(g, s, d) && h != Record(g, s, d) {
      assert h == Put(g, s, g.steps[s].(phase := Stopped(true)));
    }
  }

  /** Nothing is taken as long as no two live objects ever shared a path. */
  lemma NoneTakenWithoutTwins(gs: seq<Graph>, es: seq<Event>, i: nat, s: StepId)
    requires Run(gs, es) && i < |gs| && !gs[i].twins
    ensures NoneTaken(gs, es, i, s)
  {
    forall d | Taken(gs, es, i, d) ensures false {
      var j, x :| 0 <= j < i && TakenByTwin(gs[j], es[j], x, d);
      RunInv(gs, es, j);
      assert TwinOk(gs[j], x, d);
      TwinsStay(gs, es, j, i);
    }
    forall d | Missed(gs, es, i, d) ensures false {
      var j: nat, x :| MissedAt(gs, es, i, d, j, x);
      RunInv(gs, es, j);
      assert NextAt(gs, es, j);
      assert NodeOk(gs[j], d) && TwinOk(gs[j], x, d);
      TwinsStay(gs, es, j, i);
    }
  }

  lemma {:induction false} EndsSomewhere(g: Graph, rank: Path -> nat, s: StepId) returns (r: StepId)
    requires Inv(g) && Acyclic(g.inputs, rank) && s in g.live && s in g.steps
    ensures Reaches(DepEdges(g), s, r) && AtEnd(g, r)
    decreases rank(g.steps[s].path)
  {
    assert NodeOk(g, s);
    ReachesSelf(DepEdges(g), s);
    r := s;
    if !AtEnd(g, s) {
      var d :| d in g.steps[s].deps;
      assert EdgeOk(g, d, s) && NodeOk(g, d);
      r := EndsSomewhere(g, rank, d);
      assert d in Succ(DepEdges(g), s);
      ReachesFrom(DepEdges(g), s, d, r);
    }
  }

  /** What a registered step waits for is registered until it finishes, unless a twin took
      a registration on the way. */
  lemma {:induction false} RegisteredBelow(gs: seq<Graph>, es: seq<Event>, i: nat, w: seq<StepId>)
    requires Run(gs, es) && i < |gs| && (forall k :: 0 <= k < i ==> CleanEvent(es[k])) && Walk(DepEdges(gs[i]), w)
    requires w[0] in gs[i].live && w[0] in gs[i].steps && Registered(gs[i], w[0])
    requires forall x :: x in w ==> !Taken(gs, es, i, x)
    requires w[|w| - 1] in gs[i].steps && !gs[i].steps[w[|w| - 1]].finished
    ensures Registered(gs[i], w[|w| - 1])
    decreases |w|
  {
    if |w| > 1 {
      var g, s, d := gs[i], w[0], w[1];
      RunInv(gs, es, i);
      assert w[0 + 1] in Succ(DepEdges(g), w[0]);
      assert EdgeOk(g, d, s);
      var v := w[1..];
      forall k | 0 <= k < |v| - 1 ensures v[k + 1] in Succ(DepEdges(g), v[k]) {
        assert w[k + 1 + 1] in Succ(DepEdges(g), w[k + 1]);
      }
      NotFinishedAbove(gs, es, i, v);
      assert v[0] == d && NodeOk(g, d);
      RunClean(gs, es, i, d);
      UnregisteredExactly(gs, es, i, d, s);
      RegisteredBelow(gs, es, i, v);
    }
  }

  lemma NotFinishedAbove(gs: seq<Graph>, es: seq<Event>, i: nat, w: seq<StepId>)
    requires Run(gs, es) && i < |gs| && Walk(DepEdges(gs[i]), w)
    requires w[|w| - 1] in gs[i].steps && !gs[i].steps[w[|w| - 1]].finished
    ensures w[0] in gs[i].steps && !gs[i].steps[w[0]].finished
  {
    RunInv(gs, es, i);
    if |w| > 1 {
      forall u ensures LaterAt(gs[i], gs[i], u) {}
      WalkWaits(gs[i], gs[i], w);
    }
  }

  /** In every reachable state of a run without failed creations over acyclic
      derivations, twins or not, every live registered unfinished step reaches
      something that somebody is going to act on, unless a twin took the registration
      of a step it waits for, or its place among the new runnable steps. */
  lemma DeadlockFreeUnlessTaken(gs: seq<Graph>, es: seq<Event>, i: nat, rank: Path -> nat, s: StepId)
    returns (r: StepId)
    requires Run(gs, es) && i < |gs| && (forall k :: 0 <= k < i ==> CleanEvent(es[k])) && Acyclic(gs[i].inputs, rank)
    requires s in gs[i].live && s in gs[i].steps && !gs[i].steps[s].finished && Registered(gs[i], s)
    requires NoneTaken(gs, es, i, s)
    ensures Reaches(DepEdges(gs[i]), s, r) && Obligation(gs[i], r)
  {
    var g := gs[i];
    RunInv(gs, es, i);
    r := EndsSomewhere(g, rank, s);
    ActedOnExactly(gs, es, i, s, r);
    if !g.steps[r].finished {
      var w :| WalkBetween(DepEdges(g), w, s, r);
      forall k | 0 <= k < |w| ensures !Taken(gs, es, i, w[k]) {
        assert WalkBetween(DepEdges(g), w[..k + 1], s, w[k]);
      }
      RegisteredBelow(gs, es, i, w);
    }
  }
}
