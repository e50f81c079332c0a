/**
 A second way into a deadlock, without a finished dependency. Derivation `p` has the
 inputs `f` and `g`, and `c` has the input `p`.

 The first object of `p` (step 2) waits for `f` (step 0) and `g` (step 1). When `g`
 fails it leaves the registry. A second object of `p` (step 4) is made, which finds `g`
 substituted and waits for the same `f`, and `c` (step 5) waits for it. When `f` fails,
 the walk over its dependents meets step 2, skips step 4 because it has the same path,
 and so never comes to `c`: `c` stays registered and waits for a step that nobody is
 going to build.
 */
module StepGraphSkipped {
  import opened Reachability
  import opened StepGraph
  import opened StepGraphInvariant
  import opened StepGraphTheorems
  import opened StepGraphTwins
  import opened StepGraphRuns

  const DRVS: map<Path, set<Path>> := map["f" := {}, "g" := {}, "p" := {"f", "g"}, "c" := {"p"}]

  function At(steps: map<StepId, Step>, live: set<StepId>, registry: map<Path, StepId>, done: set<Path>, twins: bool)
      : Graph {
    Graph(DRVS, steps, live, registry, done, {}, {}, {0, 1}, twins)
  }

  const F := Built("f", 0)
  const F2 := F.(rdeps := [2])
  const F24 := F.(rdeps := [2, 4])
  const GB := Built("g", 1)
  const G2 := GB.(rdeps := [2])
  const SUB := NewStep("g", 3).(phase := Stopped(false), finished := true)
  const P := NewStep("p", 2).(expanded := true, phase := Expanding({"f", "g"}, {}, {}))
  const P1 := P.(phase := Expanding({"g"}, {0}, {}))
  const P2 := P.(phase := Expanding({}, {0, 1}, {}))
  const P3 := P.(deps := {0}, everDeps := {0}, phase := Expanding({}, {1}, {}))
  const P4 := P.(deps := {0, 1}, everDeps := {0, 1}, phase := Expanding({}, {}, {}))
  const Q0 := NewStep("p", 4).(expanded := true, phase := Expanding({"f", "g"}, {}, {}))
  const Q1 := Q0.(phase := Expanding({"g"}, {0}, {}))
  const Q2 := Q0.(phase := Expanding({}, {0}, {}))
  const Q3 := Q0.(deps := {0}, everDeps := {0}, phase := Expanding({}, {}, {}))
  const Q4 := Q3.(created := true, phase := Marked)
  const Q5 := Q4.(phase := Returned)
  const Q6 := Q5.(rdeps := [5])
  const C := NewStep("c", 5).(expanded := true, phase := Expanding({"p"}, {}, {}))
  const C1 := C.(phase := Expanding({}, {4}, {}))
  const C2 := C.(deps := {4}, everDeps := {4}, phase := Expanding({}, {}, {}))
  const C3 := C2.(created := true, phase := Marked)
  const C4 := C3.(phase := Returned)

  // the two leaves and the first object of `p`
  const A0 := Init(DRVS)
  const A2 := At(map[0 := F, 1 := GB], {0, 1}, map["f" := 0, "g" := 1], {}, false)
  const A3 := At(map[0 := F, 1 := GB, 2 := NewStep("p", 2)], {0, 1, 2}, map["f" := 0, "g" := 1, "p" := 2], {}, false)
  const A4 := At(map[0 := F, 1 := GB, 2 := P], {0, 1, 2}, map["f" := 0, "g" := 1, "p" := 2], {}, false)
  const A5 := At(map[0 := F2, 1 := GB, 2 := P1], {0, 1, 2}, map["f" := 0, "g" := 1, "p" := 2], {}, false)
  const A6 := At(map[0 := F2, 1 := G2, 2 := P2], {0, 1, 2}, map["f" := 0, "g" := 1, "p" := 2], {}, false)
  const A7 := At(map[0 := F2, 1 := G2, 2 := P3], {0, 1, 2}, map["f" := 0, "g" := 1, "p" := 2], {}, false)
  const A8 := At(map[0 := F2, 1 := G2, 2 := P4], {0, 1, 2}, map["f" := 0, "g" := 1, "p" := 2], {}, false)
  // `g` failed, and the second objects of `g` and `p`
  const B0 := At(map[0 := F2, 1 := G2, 2 := P4], {0, 1, 2}, map["f" := 0], {}, false)
  const R3: map<Path, StepId> := map["f" := 0, "g" := 3]
  const R4: map<Path, StepId> := map["f" := 0, "g" := 3, "p" := 4]
  const R5: map<Path, StepId> := map["f" := 0, "g" := 3, "p" := 4, "c" := 5]
  const B1 := At(map[0 := F2, 1 := G2, 2 := P4, 3 := NewStep("g", 3)], {0, 1, 2, 3}, R3, {}, true)
  const B2 := At(map[0 := F2, 1 := G2, 2 := P4, 3 := SUB], {0, 1, 2, 3}, R3, {"g"}, true)
  const B3 := At(map[0 := F2, 1 := G2, 2 := P4, 3 := SUB, 4 := NewStep("p", 4)], {0, 1, 2, 3, 4}, R4, {"g"}, true)
  const B4 := At(map[0 := F2, 1 := G2, 2 := P4, 3 := SUB, 4 := Q0], {0, 1, 2, 3, 4}, R4, {"g"}, true)
  const B5 := At(map[0 := F24, 1 := G2, 2 := P4, 3 := SUB, 4 := Q1], {0, 1, 2, 3, 4}, R4, {"g"}, true)
  const B6 := At(map[0 := F24, 1 := G2, 2 := P4, 3 := SUB, 4 := Q2], {0, 1, 2, 3, 4}, R4, {"g"}, true)
  const B7 := At(map[0 := F24, 1 := G2, 2 := P4, 3 := SUB, 4 := Q3], {0, 1, 2, 3, 4}, R4, {"g"}, true)
  const B8 := At(map[0 := F24, 1 := G2, 2 := P4, 3 := SUB, 4 := Q4], {0, 1, 2, 3, 4}, R4, {"g"}, true)
  const B9 := At(map[0 := F24, 1 := G2, 2 := P4, 3 := SUB, 4 := Q5], {0, 1, 2, 3, 4}, R4, {"g"}, true)
  // `c` waits, and `f` fails
  const C0 := At(map[0 := F24, 1 := G2, 2 := P4, 3 := SUB, 4 := Q5, 5 := NewStep("c", 5)], {0, 1, 2, 3, 4, 5}, R5,
      {"g"}, true)
  const D1 := At(map[0 := F24, 1 := G2, 2 := P4, 3 := SUB, 4 := Q5, 5 := C], {0, 1, 2, 3, 4, 5}, R5, {"g"}, true)
  const D2 := At(map[0 := F24, 1 := G2, 2 := P4, 3 := SUB, 4 := Q6, 5 := C1], {0, 1, 2, 3, 4, 5}, R5, {"g"}, true)
  const D3 := At(map[0 := F24, 1 := G2, 2 := P4, 3 := SUB, 4 := Q6, 5 := C2], {0, 1, 2, 3, 4, 5}, R5, {"g"}, true)
  const D4 := At(map[0 := F24, 1 := G2, 2 := P4, 3 := SUB, 4 := Q6, 5 := C3], {0, 1, 2, 3, 4, 5}, R5, {"g"}, true)
  const ALL: map<StepId, Step> := map[0 := F24, 1 := G2, 2 := P4, 3 := SUB, 4 := Q6, 5 := C4]
  const D5 := At(ALL, {0, 1, 2, 3, 4, 5}, R5, {"g"}, true)
  const D6 := At(ALL, {0, 1, 2, 3, 4, 5}, map["g" := 3, "c" := 5], {"g"}, true)

  lemma LeavesMade()
    ensures CleanRunTo(A2)
  {
    assert CleanRun([A0], [], A0);
    LeafIsMade(A0, "f", 0);
    LeafIsMade(WithLeaf(A0, "f", 0), "g", 1);
    assert WithLeaf(WithLeaf(A0, "f", 0), "g", 1) == A2 by {
      assert A0.steps[0 := F][1 := GB] == map[0 := F, 1 := GB];
      assert A0.registry["f" := 0]["g" := 1] == map["f" := 0, "g" := 1];
      assert A0.live + {0} + {1} == {0, 1} && A0.closed + {0} + {1} == {0, 1};
    }
  }

  // ---- the first object of `p` ----

  lemma Leads2() ensures Leads(A2, CreateTop("p", 2, 2), A3) {
    assert {0, 1} + {2} == {0, 1, 2};
  }

  lemma Leads3() ensures Leads(A3, Expand(2), A4) {}

  lemma Leads4() ensures Leads(A4, CreateChild(2, "f", 9), A5) {
    LinksKnown(A4, 2, "f", 9, 0);
    assert {"f", "g"} - {"f"} == {"g"} && {} + {0} == {0} && F.rdeps + [2] == [2];
  }

  lemma Leads5() ensures Leads(A5, CreateChild(2, "g", 9), A6) {
    LinksKnown(A5, 2, "g", 9, 1);
    var none: set<Path> := {};
    assert {"g"} - {"g"} == none && {0} + {1} == {0, 1} && GB.rdeps + [2] == [2];
  }

  lemma Leads6() ensures Leads(A6, ResolveKnown(2, 0), A7) {
    assert Resolve(A6, 2, 0) == Record(A6, 2, 0);
    assert {0, 1} - {0} == {1} && {} + {0} == {0} && P2.phase.made - {0} == {};
  }

  lemma Leads7() ensures Leads(A7, ResolveKnown(2, 1), A8) {
    var none: set<StepId> := {};
    assert Resolve(A7, 2, 1) == Record(A7, 2, 1);
    assert {1} - {1} == none && {0} + {1} == {0, 1} && P3.phase.made - {1} == none;
  }

  lemma ReachFirst()
    ensures CleanRunTo(A8)
  {
    LeavesMade();
    Leads2();
    Then(A2, CreateTop("p", 2, 2), A3);
    Leads3();
    Then(A3, Expand(2), A4);
    Leads4();
    Then(A4, CreateChild(2, "f", 9), A5);
    Leads5();
    Then(A5, CreateChild(2, "g", 9), A6);
    Leads6();
    Then(A6, ResolveKnown(2, 0), A7);
    Leads7();
    Then(A7, ResolveKnown(2, 1), A8);
  }

  // ---- `g` fails, and the second objects ----

  lemma Leads8() ensures Leads(A8, Fail(1, {1, 2}), B0) {
    var up := RdepEdges(A8);
    assert LiveRdeps(A8, 1) == {2} by { assert G2.rdeps[0] == 2; }
    assert LiveRdeps(A8, 2) == {};
    ReachesSelf(up, 1);
    ReachesThen(up, 1, 1, 2);
    assert PathsOf(A8, {1, 2}) == {"g", "p"} by {
      assert A8.steps[1].path == "g" && A8.steps[2].path == "p";
    }
    assert Forget(A8, {"g", "p"}).registry == map["f" := 0];
  }

  lemma Leads9() ensures Leads(B0, CreateTop("g", 3, 3), B1) {
    assert 1 in B0.live && B0.steps[1].path == "g";
    assert {0, 1, 2} + {3} == {0, 1, 2, 3};
  }

  lemma Leads10() ensures Leads(B1, Substituted(3), B2) {
    assert {} + {"g"} == {"g"};
  }

  lemma Leads11() ensures Leads(B2, CreateTop("p", 4, 4), B3) {
    assert 2 in B2.live && B2.steps[2].path == "p";
    assert {0, 1, 2, 3} + {4} == {0, 1, 2, 3, 4};
  }

  lemma Leads12() ensures Leads(B3, Expand(4), B4) {}

  lemma Leads13() ensures Leads(B4, CreateChild(4, "f", 9), B5) {
    LinksKnown(B4, 4, "f", 9, 0);
    assert {"f", "g"} - {"f"} == {"g"} && {} + {0} == {0} && F2.rdeps + [4] == [2, 4];
  }

  lemma Leads14() ensures Leads(B5, SkipChild(4, "g"), B6) {
    var none: set<Path> := {};
    assert {"g"} - {"g"} == none;
  }

  lemma Leads15() ensures Leads(B6, ResolveKnown(4, 0), B7) {
    var none: set<StepId> := {};
    assert Resolve(B6, 4, 0) == Record(B6, 4, 0);
    assert {0} - {0} == none && {} + {0} == {0} && Q2.phase.made - {0} == none;
  }

  lemma Leads16() ensures Leads(B7, MarkCreated(4), B8) {}

  lemma Leads17() ensures Leads(B8, CheckDeps(4), B9) {}

  lemma ReachSecond()
    ensures CleanRunTo(B9)
  {
    ReachFirst();
    Leads8();
    Then(A8, Fail(1, {1, 2}), B0);
    Leads9();
    Then(B0, CreateTop("g", 3, 3), B1);
    Leads10();
    Then(B1, Substituted(3), B2);
    Leads11();
    Then(B2, CreateTop("p", 4, 4), B3);
    Leads12();
    Then(B3, Expand(4), B4);
    Leads13();
    Then(B4, CreateChild(4, "f", 9), B5);
    Leads14();
    Then(B5, SkipChild(4, "g"), B6);
    Leads15();
    Then(B6, ResolveKnown(4, 0), B7);
    Leads16();
    Then(B7, MarkCreated(4), B8);
    Leads17();
    Then(B8, CheckDeps(4), B9);
  }

  // ---- `c` waits, and `f` fails ----

  lemma Leads18() ensures Leads(B9, CreateTop("c", 5, 5), C0) {
    assert {0, 1, 2, 3, 4} + {5} == {0, 1, 2, 3, 4, 5};
  }

  lemma Leads19() ensures Leads(C0, Expand(5), D1) {}

  lemma Leads20() ensures Leads(D1, CreateChild(5, "p", 9), D2) {
    LinksKnown(D1, 5, "p", 9, 4);
    var none: set<Path> := {};
    assert {"p"} - {"p"} == none && {} + {4} == {4} && Q5.rdeps + [5] == [5];
  }

  lemma Leads21() ensures Leads(D2, ResolveKnown(5, 4), D3) {
    var none: set<StepId> := {};
    assert Resolve(D2, 5, 4) == Record(D2, 5, 4);
    assert {4} - {4} == none && {} + {4} == {4} && C1.phase.made - {4} == none;
  }

  lemma Leads22() ensures Leads(D3, MarkCreated(5), D4) {}

  lemma Leads23() ensures Leads(D4, CheckDeps(5), D5) {}

  lemma Visits02() ensures Dependents(D5, 0, {0, 2}) && PathsOf(D5, {0, 2}) == {"f", "p"} {
    var up := RdepEdges(D5);
    assert LiveRdeps(D5, 0) == {2, 4} by { assert F24.rdeps[0] == 2 && F24.rdeps[1] == 4; }
    assert LiveRdeps(D5, 2) == {};
    ReachesSelf(up, 0);
    assert 2 in Succ(up, 0);
    ReachesThen(up, 0, 0, 2);
    assert PathsOf(D5, {0, 2}) == {"f", "p"} by {
      assert D5.steps[0].path == "f" && D5.steps[2].path == "p";
    }
  }

  lemma Leads24() ensures Leads(D5, Fail(0, {0, 2}), D6) {
    Visits02();
    assert Forget(D5, {"f", "p"}).registry == map["g" := 3, "c" := 5];
  }

  lemma ReachWaiting()
    ensures CleanRunTo(D5)
  {
    ReachSecond();
    Leads18();
    Then(B9, CreateTop("c", 5, 5), C0);
    Leads19();
    Then(C0, Expand(5), D1);
    Leads20();
    Then(D1, CreateChild(5, "p", 9), D2);
    Leads21();
    Then(D2, ResolveKnown(5, 4), D3);
    Leads22();
    Then(D3, MarkCreated(5), D4);
    Leads23();
    Then(D4, CheckDeps(5), D5);
  }

  lemma ReachSkipped()
    ensures CleanRunTo(D6)
  {
    ReachWaiting();
    Leads24();
    Then(D5, Fail(0, {0, 2}), D6);
  }

  function Height(p: Path): nat { if p == "c" then 2 else if p == "p" then 1 else 0 }

  lemma CReaches(r: StepId)
    requires Reaches(DepEdges(D6), 5, r)
    ensures r in {0, 4, 5}
  {
    var s: set<StepId> := {0, 4, 5};
    assert Succ(DepEdges(D6), 5) == {4} && Succ(DepEdges(D6), 4) == {0} && Succ(DepEdges(D6), 0) == {};
    ClosedUnderReach(DepEdges(D6), s, 5, r);
  }

  lemma CWaits() ensures Deadlocked(D6, 5) && Registered(D6, 5) {
    forall r | Reaches(DepEdges(D6), 5, r) ensures !Obligation(D6, r) {
      CReaches(r);
      assert r !in SweepSet(D6);
    }
  }

  /** From that state on, step 5 never becomes runnable as long as the failed step 0 is not
      finished. `OutNeverFinishes` says that it never is once its failure is over. */
  lemma SkippedForEver(gs: seq<Graph>, es: seq<Event>, i: nat, j: nat)
    requires Run(gs, es) && i <= j < |gs| && gs[i] == D6 && 0 in gs[j].steps && !gs[j].steps[0].finished
    ensures 5 in gs[j].steps && !gs[j].steps[5].runnable && !gs[j].steps[5].finished
  {
    RunInv(gs, es, i);
    RunInv(gs, es, j);
    RunLater(gs, es, i, j);
    assert 4 in Succ(DepEdges(D6), 5) && 0 in Succ(DepEdges(D6), 4);
    ReachesSelf(DepEdges(D6), 5);
    ReachesThen(DepEdges(D6), 5, 5, 4);
    ReachesThen(DepEdges(D6), 5, 4, 0);
    WaitsBelow(D6, gs[j], 5, 0);
  }

  /** The walk of a failure that skips a twin leaves a registered step waiting, although
      no wake-up was lost. */
  lemma SkippedDeadlock()
    ensures exists g :: && CleanRunTo(g) && Acyclic(g.inputs, Height) && Deadlocked(g, 5) && Registered(g, 5)
                        && forall u, d :: !WaitsForUnbuilt(g, u, d)
  {
    ReachSkipped();
    CWaits();
    DrvsAcyclic();
    assert forall u, d :: !WaitsForUnbuilt(D6, u, d);
    assert D6.inputs == DRVS;
  }

  lemma DrvsAcyclic() ensures Acyclic(DRVS, Height) {}
}
