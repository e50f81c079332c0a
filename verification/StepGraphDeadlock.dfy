/**
 A run of the step graph, without a failed creation and over acyclic derivations,
 that ends in a deadlock. Derivation `u` has the one input `a`.

 The first object of `a` (step 0) becomes runnable, fails and leaves the registry. A
 second object of `a` (step 1) is made, and `u` (step 2) waits for it while it is
 undecided. The next pass of the failure removes `a` by path and takes the
 registration of step 1, which then turns out to be substituted: nobody wakes `u`.
 */
module StepGraphDeadlock {
  import opened Reachability
  import opened StepGraph
  import opened StepGraphTheorems
  import opened StepGraphRuns

  const INPUTS: map<Path, set<Path>> := map["a" := {}, "u" := {"a"}]

  const A0 := NewStep("a", 0)
  const A1 := A0.(phase := Expanding({}, {}, {}), expanded := true)
  const A2 := A1.(phase := Marked, created := true)
  const A3 := A2.(phase := Returned)
  const BUILT := A3.(runnable := true)
  const SECOND := NewStep("a", 1)
  const LATER := SECOND.(rdeps := [2])
  const FOUND := LATER.(phase := Stopped(false), finished := true)
  const U0 := NewStep("u", 2)
  const U1 := U0.(phase := Expanding({"a"}, {}, {}), expanded := true)
  const U2 := U1.(phase := Expanding({}, {1}, {}))
  const WAITING := U2.(deps := {1}, everDeps := {1}, phase := Expanding({}, {}, {}))
  const U4 := WAITING.(phase := Marked, created := true)
  const CREATED := U4.(phase := Returned)

  function Of(steps: map<StepId, Step>, live: set<StepId>, registry: map<Path, StepId>, done: set<Path>,
              ready: set<StepId>, closed: set<NestId>, twins: bool): Graph
  {
    Graph(INPUTS, steps, live, registry, done, ready, {}, closed, twins)
  }

  const G0 := Init(INPUTS)
  const G1 := Of(map[0 := A0], {0}, map["a" := 0], {}, {}, {}, false)
  const G2 := Of(map[0 := A1], {0}, map["a" := 0], {}, {}, {}, false)
  const G3 := Of(map[0 := A2], {0}, map["a" := 0], {}, {}, {}, false)
  const G4 := Of(map[0 := A3], {0}, map["a" := 0], {}, {0}, {}, false)
  const G4C := G4.(closed := {0})
  const G5 := Of(map[0 := BUILT], {0}, map["a" := 0], {}, {}, {0}, false)
  const G6 := Of(map[0 := BUILT], {0}, map[], {}, {}, {0}, false)
  const G7 := Of(map[0 := BUILT, 1 := SECOND], {0, 1}, map["a" := 1], {}, {}, {0}, true)
  const G8 := Of(map[0 := BUILT, 1 := SECOND, 2 := U0], {0, 1, 2}, map["a" := 1, "u" := 2], {}, {}, {0}, true)
  const G9 := Of(map[0 := BUILT, 1 := SECOND, 2 := U1], {0, 1, 2}, map["a" := 1, "u" := 2], {}, {}, {0}, true)
  const G10 := Of(map[0 := BUILT, 1 := LATER, 2 := U2], {0, 1, 2}, map["a" := 1, "u" := 2], {}, {}, {0}, true)
  const G11 := Of(map[0 := BUILT, 1 := LATER, 2 := WAITING], {0, 1, 2}, map["a" := 1, "u" := 2], {}, {}, {0}, true)
  const G12 := Of(map[0 := BUILT, 1 := LATER, 2 := WAITING], {0, 1, 2}, map["u" := 2], {}, {}, {0}, true)
  const G13 := Of(map[0 := BUILT, 1 := FOUND, 2 := WAITING], {0, 1, 2}, map["u" := 2], {"a"}, {}, {0}, true)
  const G14 := Of(map[0 := BUILT, 1 := FOUND, 2 := U4], {0, 1, 2}, map["u" := 2], {"a"}, {}, {0}, true)
  const G15 := Of(map[0 := BUILT, 1 := FOUND, 2 := CREATED], {0, 1, 2}, map["u" := 2], {"a"}, {}, {0}, true)

  /** No step lists step 0 as its dependency, so a failure visits it alone. */
  lemma FailsAlone(g: Graph)
    requires 0 in g.steps && g.steps[0] == BUILT && 0 in g.live
    ensures Leads(g, Fail(0, {0}), Forget(g, {"a"}))
  {
    ReachesSelf(RdepEdges(g), 0);
    assert LiveRdeps(g, 0) == {};
    assert PathsOf(g, {0}) == {"a"};
  }

  lemma Leads0() ensures Leads(G0, CreateTop("a", 0, 0), G1) {}

  lemma Leads1() ensures Leads(G1, Expand(0), G2) {}

  lemma Leads2() ensures Leads(G2, MarkCreated(0), G3) {}

  lemma Leads3() ensures Leads(G3, CheckDeps(0), G4) {}

  lemma Leads4() ensures Leads(G4, Close(0), G4C) && Leads(G4C, MakeRunnable(0), G5) {}

  lemma Leads5() ensures Leads(G5, Fail(0, {0}), G6) {
    FailsAlone(G5);
  }

  lemma Leads6() ensures Leads(G6, CreateTop("a", 1, 1), G7) {
    assert {0} + {1} == {0, 1};
  }

  lemma Leads7() ensures Leads(G7, CreateTop("u", 2, 2), G8) {
    assert {0, 1} + {2} == {0, 1, 2};
  }

  lemma Leads8() ensures Leads(G8, Expand(2), G9) {}

  lemma Leads9() ensures Leads(G9, CreateChild(2, "a", 3), G10) {
    assert Known(G9, "a") && Obtain(G9, "a", 3, 2) == G9 && Obtained(G9, "a", 3) == 1;
    var h := Link(G9, 2, "a", 1, false);
    var todo: set<Path> := {"a"};
    assert SECOND.rdeps + [2] == [2] && todo - {"a"} == {} && {} + {1} == {1};
    assert h.steps[1] == LATER && h.steps[2] == U2;
  }

  lemma Leads10() ensures Leads(G10, ResolveKnown(2, 1), G11) {
    var none: set<StepId> := {};
    assert {1} - {1} == none && none - {1} == none && none + {1} == {1};
    assert Resolve(G10, 2, 1) == Record(G10, 2, 1) && Record(G10, 2, 1).steps[2] == WAITING;
  }

  lemma Leads11() ensures Leads(G11, Fail(0, {0}), G12) {
    FailsAlone(G11);
  }

  lemma Leads12() ensures Leads(G12, Substituted(1), G13) {}

  lemma Leads13() ensures Leads(G13, MarkCreated(2), G14) {}

  lemma Leads14() ensures Leads(G14, CheckDeps(2), G15) {}

  lemma StartsClean()
    ensures CleanRunTo(G0)
  {
    assert CleanRun([G0], [], G0);
  }

  lemma ReachFirstObject()
    ensures CleanRunTo(G5)
  {
    StartsClean();
    Leads0();
    Then(G0, CreateTop("a", 0, 0), G1);
    Leads1();
    Then(G1, Expand(0), G2);
    Leads2();
    Then(G2, MarkCreated(0), G3);
    Leads3();
    Then(G3, CheckDeps(0), G4);
    Leads4();
    Then(G4, Close(0), G4C);
    Then(G4C, MakeRunnable(0), G5);
  }

  lemma ReachSecondObject()
    ensures CleanRunTo(G11)
  {
    ReachFirstObject();
    Leads5();
    Then(G5, Fail(0, {0}), G6);
    Leads6();
    Then(G6, CreateTop("a", 1, 1), G7);
    Leads7();
    Then(G7, CreateTop("u", 2, 2), G8);
    Leads8();
    Then(G8, Expand(2), G9);
    Leads9();
    Then(G9, CreateChild(2, "a", 3), G10);
    Leads10();
    Then(G10, ResolveKnown(2, 1), G11);
  }

  lemma ReachDeadlock()
    ensures CleanRunTo(G15)
  {
    ReachSecondObject();
    Leads11();
    Then(G11, Fail(0, {0}), G12);
    Leads12();
    Then(G12, Substituted(1), G13);
    Leads13();
    Then(G13, MarkCreated(2), G14);
    Leads14();
    Then(G14, CheckDeps(2), G15);
  }

  function Rank(p: Path): nat { if p == "u" then 1 else 0 }

  /** Freedom from deadlock fails with twins, although the derivations are acyclic and
      no creation failed. */
  lemma TwinsDeadlock()
    ensures exists g :: CleanRunTo(g) && Acyclic(g.inputs, Rank) && Deadlocked(g, 2)
  {
    ReachDeadlock();
    assert Acyclic(INPUTS, Rank);
    assert DepEdges(G15) == map[0 := {}, 1 := {}, 2 := {1}];
    forall r | Reaches(DepEdges(G15), 2, r) ensures !Obligation(G15, r) {
      ClosedUnderReach(DepEdges(G15), {1, 2}, 2, r);
      assert SweepSet(G15) == {};
    }
  }
}
