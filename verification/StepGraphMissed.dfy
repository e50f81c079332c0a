/**
 A third way into a deadlock, without a lost registration. Derivations `p` and `q` have
 the one input `a`, and `t` has the inputs `p` and `q`.

 The first object of `a` (step 0) fails. While a build of `t` is created, `p` makes a
 second object of `a` (step 3), which enters the set of new runnable steps. The next
 pass of the failure removes `a` by path. Then `q` makes a third object of `a` (step 5).
 It is registered, but the set has an object of its path already, so step 5 does not
 enter it and never becomes runnable, and `q` (step 4) waits for it.
 */
module StepGraphMissed {
  import opened Reachability
  import opened StepGraph
  import opened StepGraphInvariant
  import opened StepGraphTheorems
  import opened StepGraphTwins
  import opened StepGraphRuns

  // ---- for good ----

  /** A derivation without inputs has no dependency whose end would wake it. */
  lemma LeafNotWoken(g: Graph, e: Event, u: StepId)
    requires Inv(g) && u in g.steps && g.steps[u].path in g.inputs && g.inputs[g.steps[u].path] == {}
    ensures !Wakes(g, e, u)
  {
    forall x ensures x in g.steps ==> u !in g.steps[x].rdeps { assert EdgeOk(g, x, u); }
  }

  /** A missed step of a derivation without inputs is overlooked for as long as it lives. */
  lemma {:induction false} OverlookedForGood(gs: seq<Graph>, es: seq<Event>, i: nat, j: nat, u: StepId)
    requires Run(gs, es) && i <= j < |gs| && Overlooked(gs[i], u) && u in gs[j].live
    requires gs[i].steps[u].path in gs[i].inputs && gs[i].inputs[gs[i].steps[u].path] == {}
    ensures Overlooked(gs[j], u)
    decreases j - i
  {
    if i < j {
      RunLater(gs, es, i, j - 1);
      StepLater(gs, es, j - 1);
      assert LaterAt(gs[i], gs[j - 1], u) && LaterAt(gs[j - 1], gs[j], u);
      OverlookedForGood(gs, es, i, j - 1, u);
      RunInv(gs, es, j - 1);
      assert NextAt(gs, es, j - 1);
      LeafNotWoken(gs[j - 1], es[j - 1], u);
      EventOverlooks(gs[j - 1], es[j - 1], u);
    }
  }

  lemma ResolveUnfinished(g: Graph, s: StepId, d: StepId, u: StepId)
    requires s in g.steps && d in g.steps && g.steps[s].phase.Expanding? && u in g.steps
    ensures u in Resolve(g, s, d).steps && Resolve(g, s, d).steps[u].finished == g.steps[u].finished
  {
    var h := Resolve(g, s, d);
    if h != Settle(g, s, d) && h != Record(g, s, d) {
      assert h == Put(g, s, g.steps[s].(phase := Stopped(true)));
    }
  }

  lemma OverlookedUnfinished(g: Graph, e: Event, u: StepId)
    requires Inv(g) && Enabled(g, e) && Overlooked(g, u)
    ensures u in Apply(g, e).steps && !Apply(g, e).steps[u].finished
  {
    assert NodeOk(g, u);
    if e.ResolveKnown? || e.ResolveFresh? { ResolveUnfinished(g, e.s, e.d, u); }
  }

  /** So whatever waits for it, directly or not, never becomes runnable. */
  lemma {:induction false} WaitsForGood(gs: seq<Graph>, es: seq<Event>, i: nat, j: nat, u: StepId, s: StepId)
    requires Run(gs, es) && i <= j < |gs| && Overlooked(gs[i], u) && s in gs[i].live && s in gs[i].steps
    requires gs[i].steps[u].path in gs[i].inputs && gs[i].inputs[gs[i].steps[u].path] == {}
    requires s != u && Reaches(DepEdges(gs[i]), s, u) && s in gs[j].live
    ensures Overlooked(gs[j], u) && s in gs[j].steps && !gs[j].steps[s].runnable && !gs[j].steps[s].finished
    decreases j - i
  {
    RunInv(gs, es, i);
    RunInv(gs, es, j);
    RunLater(gs, es, i, j);
    if i < j {
      RunLater(gs, es, i, j - 1);
      StepLater(gs, es, j - 1);
      assert LaterAt(gs[i], gs[j - 1], s) && LaterAt(gs[j - 1], gs[j], s);
      WaitsForGood(gs, es, i, j - 1, u, s);
      NextUnfinished(gs, es, j - 1, u);
      StaysLive(gs[i], gs[j], s, u);
      OverlookedForGood(gs, es, i, j, u);
    }
    assert NodeOk(gs[j], u);
    WaitsBelow(gs[i], gs[j], s, u);
  }

  lemma NextUnfinished(gs: seq<Graph>, es: seq<Event>, j: nat, u: StepId)
    requires Run(gs, es) && j < |es| && Overlooked(gs[j], u)
    ensures u in gs[j + 1].steps && !gs[j + 1].steps[u].finished
  {
    RunInv(gs, es, j);
    assert NextAt(gs, es, j);
    OverlookedUnfinished(gs[j], es[j], u);
  }

  /** A live step keeps what it waits for alive. */
  lemma StaysLive(g: Graph, h: Graph, s: StepId, u: StepId)
    requires Inv(g) && Inv(h) && Later(g, h) && Reaches(DepEdges(g), s, u) && s in h.live
    requires u in h.steps && !h.steps[u].finished
    ensures u in h.live
  {
    var w :| WalkBetween(DepEdges(g), w, s, u);
    WalkStays(g, h, w);
    assert WalkBetween(DepEdges(h), w, s, u);
    LiveBelow(h, s, u);
  }

  // ---- the run ----

  const DRVS: map<Path, set<Path>> := map["a" := {}, "p" := {"a"}, "q" := {"a"}, "t" := {"p", "q"}]

  function At(steps: map<StepId, Step>, live: set<StepId>, registry: map<Path, StepId>, ready: set<StepId>, twins: bool)
      : Graph {
    Graph(DRVS, steps, live, registry, {}, ready, {}, {0}, twins)
  }

  const A := Built("a", 0)
  const T := NewStep("t", 1).(expanded := true, phase := Expanding({"p", "q"}, {}, {}))
  const T1 := T.(phase := Expanding({"q"}, {}, {2}))
  const T2 := T.(phase := Expanding({}, {}, {2, 4}))
  const P := NewStep("p", 1).(rdeps := [1])
  const P1 := P.(expanded := true, phase := Expanding({"a"}, {}, {}))
  const P2 := P1.(phase := Expanding({}, {}, {3}))
  const Q := NewStep("q", 1).(rdeps := [1])
  const Q1 := Q.(expanded := true, phase := Expanding({"a"}, {}, {}))
  const Q2 := Q1.(phase := Expanding({}, {}, {5}))
  const Q3 := Q1.(phase := Expanding({}, {}, {}), deps := {5}, everDeps := {5})
  const Q4 := Q3.(created := true, phase := Marked)
  const Q5 := Q4.(phase := Returned)
  const L := NewStep("a", 1).(rdeps := [2])
  const L1 := L.(expanded := true, created := true, phase := Marked)
  const L2 := L1.(phase := Returned)
  const M := NewStep("a", 1).(rdeps := [4])
  const M1 := M.(expanded := true, created := true, phase := Marked)
  const M2 := M1.(phase := Returned)

  const RT: map<Path, StepId> := map["t" := 1, "p" := 2, "q" := 4]
  const RA: map<Path, StepId> := map["t" := 1, "p" := 2, "q" := 4, "a" := 3]
  const RB: map<Path, StepId> := map["t" := 1, "p" := 2, "q" := 4, "a" := 5]
  const ALL: set<StepId> := {0, 1, 2, 3, 4, 5}

  const H0 := At(map[0 := A], {0}, map["a" := 0], {}, false)
  const H1 := At(map[0 := A], {0}, map[], {}, false)
  const H2 := At(map[0 := A, 1 := NewStep("t", 1)], {0, 1}, map["t" := 1], {}, false)
  const H3 := At(map[0 := A, 1 := T], {0, 1}, map["t" := 1], {}, false)
  const H4 := At(map[0 := A, 1 := T1, 2 := P], {0, 1, 2}, map["t" := 1, "p" := 2], {}, false)
  const H5 := At(map[0 := A, 1 := T2, 2 := P, 4 := Q], {0, 1, 2, 4}, RT, {}, false)
  const H6 := At(map[0 := A, 1 := T2, 2 := P1, 4 := Q], {0, 1, 2, 4}, RT, {}, false)
  const H7 := At(map[0 := A, 1 := T2, 2 := P2, 3 := L, 4 := Q], {0, 1, 2, 3, 4}, RA, {}, true)
  const H8 := At(map[0 := A, 1 := T2, 2 := P2, 3 := L1, 4 := Q], {0, 1, 2, 3, 4}, RA, {}, true)
  const H9 := At(map[0 := A, 1 := T2, 2 := P2, 3 := L2, 4 := Q], {0, 1, 2, 3, 4}, RA, {3}, true)
  const I0 := At(map[0 := A, 1 := T2, 2 := P2, 3 := L2, 4 := Q], {0, 1, 2, 3, 4}, RT, {3}, true)
  const I1 := At(map[0 := A, 1 := T2, 2 := P2, 3 := L2, 4 := Q1], {0, 1, 2, 3, 4}, RT, {3}, true)
  const I2 := At(map[0 := A, 1 := T2, 2 := P2, 3 := L2, 4 := Q2, 5 := M], ALL, RB, {3}, true)
  const I3 := At(map[0 := A, 1 := T2, 2 := P2, 3 := L2, 4 := Q2, 5 := M1], ALL, RB, {3}, true)
  const I4 := At(map[0 := A, 1 := T2, 2 := P2, 3 := L2, 4 := Q2, 5 := M2], ALL, RB, {3}, true)
  const I5 := At(map[0 := A, 1 := T2, 2 := P2, 3 := L2, 4 := Q3, 5 := M2], ALL, RB, {3}, true)
  const I6 := At(map[0 := A, 1 := T2, 2 := P2, 3 := L2, 4 := Q4, 5 := M2], ALL, RB, {3}, true)
  const I7 := At(map[0 := A, 1 := T2, 2 := P2, 3 := L2, 4 := Q5, 5 := M2], ALL, RB, {3}, true)

  lemma FailsAlone(g: Graph)
    requires 0 in g.steps && g.steps[0] == A && 0 in g.live
    ensures Leads(g, Fail(0, {0}), Forget(g, {"a"}))
  {
    ReachesSelf(RdepEdges(g), 0);
    assert LiveRdeps(g, 0) == {};
    assert PathsOf(g, {0}) == {"a"};
  }

  lemma FirstMade()
    ensures CleanRunTo(H0)
  {
    var g := Init(DRVS);
    assert CleanRun([g], [], g);
    LeafIsMade(g, "a", 0);
    assert g.steps[0 := A] == H0.steps && {} + {0} == H0.live && g.registry["a" := 0] == H0.registry;
    assert WithLeaf(g, "a", 0) == H0;
  }

  lemma Leads1() ensures Leads(H0, Fail(0, {0}), H1) {
    FailsAlone(H0);
    assert Forget(H0, {"a"}).registry == map[];
  }

  lemma Leads2() ensures Leads(H1, CreateTop("t", 1, 1), H2) {
    assert {0} + {1} == {0, 1};
  }

  lemma Leads3() ensures Leads(H2, Expand(1), H3) {}

  lemma Leads4() ensures Leads(H3, CreateChild(1, "p", 2), H4) {
    LinksFresh(H3, 1, "p", 2);
    assert {0, 1} + {2} == {0, 1, 2} && {"p", "q"} - {"p"} == {"q"} && {} + {2} == {2};
  }

  lemma Leads5() ensures Leads(H4, CreateChild(1, "q", 4), H5) {
    var none: set<Path> := {};
    LinksFresh(H4, 1, "q", 4);
    assert {0, 1, 2} + {4} == {0, 1, 2, 4} && {"q"} - {"q"} == none && {2} + {4} == {2, 4};
    assert H4.steps[4 := Q][1 := T2] == H5.steps;
  }

  lemma Leads6() ensures Leads(H5, Expand(2), H6) {}

  lemma Leads7() ensures Leads(H6, CreateChild(2, "a", 3), H7) {
    var none: set<Path> := {};
    LinksFresh(H6, 2, "a", 3);
    assert 0 in H6.live && H6.steps[0].path == "a";
    assert {0, 1, 2, 4} + {3} == {0, 1, 2, 3, 4} && {"a"} - {"a"} == none && {} + {3} == {3};
    assert H6.steps[3 := L][2 := P2] == H7.steps;
  }

  lemma Leads9() ensures Leads(H8, CheckDeps(3), H9) {
    assert {} + {3} == {3} && !SetHas(H8, 3);
  }

  lemma BuildCreated()
    ensures CleanRunTo(H7)
  {
    FirstMade();
    Leads1();
    Then(H0, Fail(0, {0}), H1);
    Leads2();
    Then(H1, CreateTop("t", 1, 1), H2);
    Leads3();
    Then(H2, Expand(1), H3);
    Leads4();
    Then(H3, CreateChild(1, "p", 2), H4);
    Leads5();
    Then(H4, CreateChild(1, "q", 4), H5);
    Leads6();
    Then(H5, Expand(2), H6);
    Leads7();
    Then(H6, CreateChild(2, "a", 3), H7);
  }

  lemma SecondReady()
    ensures CleanRunTo(H9)
  {
    BuildCreated();
    LeafExpanded(H7, 3);
    assert H7.steps[3 := L1] == H8.steps;
    Leads9();
    Then(H8, CheckDeps(3), H9);
  }

  lemma Leads10() ensures Leads(H9, Fail(0, {0}), I0) {
    FailsAlone(H9);
    assert Forget(H9, {"a"}).registry == RT;
  }

  lemma Leads11() ensures Leads(I0, Expand(4), I1) {
    assert I0.steps[4 := Q1] == I1.steps;
  }

  lemma Leads12() ensures Leads(I1, CreateChild(4, "a", 5), I2) {
    var none: set<Path> := {};
    LinksFresh(I1, 4, "a", 5);
    assert {0, 1, 2, 3, 4} + {5} == ALL && {"a"} - {"a"} == none && {} + {5} == {5};
    assert I1.steps[5 := M][4 := Q2] == I2.steps;
  }

  /** The set has step 3 already. */
  lemma Leads14() ensures Leads(I3, CheckDeps(5), I4) && Misses(I3, CheckDeps(5), 3, 5) {
    assert 3 in I3.newRunnable && I3.steps[3].path == "a" && I3.steps[3].nest == 1;
    assert SetHas(I3, 5);
    assert I3.steps[5 := M2] == I4.steps;
  }

  lemma Leads15() ensures Leads(I4, ResolveFresh(4, 5), I5) {
    var none: set<StepId> := {};
    assert {5} - {5} == none && none - {5} == none && none + {5} == {5};
    assert Resolve(I4, 4, 5) == Record(I4, 4, 5);
    assert I4.steps[4 := Q3] == I5.steps;
  }

  lemma Leads16() ensures Leads(I5, MarkCreated(4), I6) && Leads(I6, CheckDeps(4), I7) {
    assert I5.steps[4 := Q4] == I6.steps && I6.steps[4 := Q5] == I7.steps;
  }

  lemma ThirdMissed()
    ensures CleanRunTo(I4)
  {
    SecondReady();
    Leads10();
    Then(H9, Fail(0, {0}), I0);
    Leads11();
    Then(I0, Expand(4), I1);
    Leads12();
    Then(I1, CreateChild(4, "a", 5), I2);
    LeafExpanded(I2, 5);
    assert I2.steps[5 := M1] == I3.steps;
    Leads14();
    Then(I3, CheckDeps(5), I4);
  }

  lemma ReachMissed()
    ensures CleanRunTo(I7)
  {
    ThirdMissed();
    Leads15();
    Then(I4, ResolveFresh(4, 5), I5);
    Leads16();
    Then(I5, MarkCreated(4), I6);
    Then(I6, CheckDeps(4), I7);
  }

  function Depth(p: Path): nat { if p == "t" then 2 else if p == "p" || p == "q" then 1 else 0 }

  lemma DrvsAcyclic() ensures Acyclic(DRVS, Depth) {}

  lemma QWaits() ensures Deadlocked(I7, 4) && Reaches(DepEdges(I7), 4, 5) {
    var s: set<StepId> := {4, 5};
    assert Succ(DepEdges(I7), 4) == {5} && Succ(DepEdges(I7), 5) == {};
    ReachesSelf(DepEdges(I7), 4);
    ReachesThen(DepEdges(I7), 4, 4, 5);
    forall r | Reaches(DepEdges(I7), 4, r) ensures !Obligation(I7, r) { ClosedUnderReach(DepEdges(I7), s, 4, r); }
  }

  /** A run without failed creations over acyclic derivations in which a registered step is
      overlooked and another registered step waits for it, although neither lost its
      registration. */
  lemma MissedDeadlock()
    ensures exists gs, es, g :: && CleanRun(gs, es, g) && Acyclic(g.inputs, Depth) && Deadlocked(g, 4)
                                && Registered(g, 4) && Overlooked(g, 5) && Registered(g, 5)
                                && !Taken(gs, es, |es|, 4) && !Taken(gs, es, |es|, 5)
  {
    ReachMissed();
    QWaits();
    DrvsAcyclic();
    var gs, es :| CleanRun(gs, es, I7);
    if Taken(gs, es, |es|, 4) { TakenStaysGone(gs, es, |es|, 4); }
    if Taken(gs, es, |es|, 5) { TakenStaysGone(gs, es, |es|, 5); }
    assert CleanRun(gs, es, I7) && I7.inputs == DRVS;
  }

  /** From that state on step 4 never becomes runnable. */
  lemma MissedForEver(gs: seq<Graph>, es: seq<Event>, i: nat, j: nat)
    requires Run(gs, es) && i <= j < |gs| && gs[i] == I7 && 4 in gs[j].live
    ensures Overlooked(gs[j], 5) && 4 in gs[j].steps && !gs[j].steps[4].runnable
  {
    QWaits();
    WaitsForGood(gs, es, i, j, 5, 4);
  }
}
