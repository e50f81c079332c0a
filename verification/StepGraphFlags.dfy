/** Which events set the flags of a step. */
module StepGraphFlags {
  import opened StepGraph
  import opened StepGraphInvariant
  import opened StepGraphTheorems
  import opened StepGraphInputs

  // ---- finished, failed, created ----

  predicate Finished(g: Graph, s: StepId) { s in g.steps && g.steps[s].finished }

  predicate Failed(g: Graph, s: StepId) { s in g.steps && g.steps[s].prevFailure }

  predicate Created(g: Graph, s: StepId) { s in g.steps && g.steps[s].created }

  lemma WakeFlags(g: Graph, e: Event, s: StepId)
    requires Enabled(g, e) && (e.Wake? || e.Sweep?)
    ensures Finished(Apply(g, e), s) <==> Finished(g, s)
    ensures Failed(Apply(g, e), s) <==> Failed(g, s)
    ensures Created(Apply(g, e), s) <==> Created(g, s)
  {
  }

  lemma CreationFlags(g: Graph, e: Event, s: StepId)
    requires Enabled(g, e) && (e.CreateTop? || e.CreateChild?)
    ensures Finished(Apply(g, e), s) <==> Finished(g, s)
    ensures Failed(Apply(g, e), s) <==> Failed(g, s)
    ensures Created(Apply(g, e), s) <==> Created(g, s)
  {
  }

  lemma LookFlags(g: Graph, e: Event, s: StepId)
    requires Enabled(g, e) && (e.ResolveKnown? || e.ResolveFresh?)
    ensures Finished(Apply(g, e), s) <==> Finished(g, s)
    ensures Failed(Apply(g, e), s) <==> Failed(g, s)
    ensures Created(Apply(g, e), s) <==> Created(g, s)
  {
    ResolveLooks(g, e.s, e.d);
  }

  lemma OtherFlags(g: Graph, e: Event, s: StepId)
    requires Enabled(g, e) && !e.Wake? && !e.Sweep? && !e.CreateTop? && !e.CreateChild?
    requires !e.ResolveKnown? && !e.ResolveFresh?
    ensures Finished(Apply(g, e), s) <==> Finished(g, s) || e == Finish(s) || e == Substituted(s)
    ensures Failed(Apply(g, e), s) <==> Failed(g, s) || e == CachedFailure(s)
    ensures Created(Apply(g, e), s) <==> Created(g, s) || e == MarkCreated(s)
  {
  }

  lemma EventFlags(g: Graph, e: Event, s: StepId)
    requires Enabled(g, e)
    ensures Finished(Apply(g, e), s) <==> Finished(g, s) || e == Finish(s) || e == Substituted(s)
    ensures Failed(Apply(g, e), s) <==> Failed(g, s) || e == CachedFailure(s)
    ensures Created(Apply(g, e), s) <==> Created(g, s) || e == MarkCreated(s)
  {
    if e.Wake? || e.Sweep? {
      WakeFlags(g, e, s);
    } else if e.CreateTop? || e.CreateChild? {
      CreationFlags(g, e, s);
    } else if e.ResolveKnown? || e.ResolveFresh? {
      LookFlags(g, e, s);
    } else {
      OtherFlags(g, e, s);
    }
  }

  /** Some of the first `k` events is `e`. */
  predicate Happened(es: seq<Event>, k: nat, e: Event)
    requires k <= |es|
  {
    exists i :: 0 <= i < k && es[i] == e
  }

  lemma HappenedNext(es: seq<Event>, k: nat, e: Event)
    requires k < |es|
    ensures Happened(es, k + 1, e) <==> Happened(es, k, e) || es[k] == e
  {
  }

  /** In every run a step is finished exactly if it was built or nothing of it was to be
      built, has failed exactly if a cached failure was found, and is created exactly if its
      creation came to its end. */
  lemma {:induction false} FlagsExactly(gs: seq<Graph>, es: seq<Event>, k: nat, s: StepId)
    requires Run(gs, es) && k < |gs|
    ensures Finished(gs[k], s) <==> Happened(es, k, Finish(s)) || Happened(es, k, Substituted(s))
    ensures Failed(gs[k], s) <==> Happened(es, k, CachedFailure(s))
    ensures Created(gs[k], s) <==> Happened(es, k, MarkCreated(s))
  {
    if k > 0 {
      FlagsExactly(gs, es, k - 1, s);
      assert NextAt(gs, es, k - 1);
      EventFlags(gs[k - 1], es[k - 1], s);
      HappenedNext(es, k - 1, Finish(s));
      HappenedNext(es, k - 1, Substituted(s));
      HappenedNext(es, k - 1, CachedFailure(s));
      HappenedNext(es, k - 1, MarkCreated(s));
    }
  }

  // ---- runnable ----

  predicate Runnable(g: Graph, s: StepId) { s in g.steps && g.steps[s].runnable }

  /** No creation of a nest that is over is under way. */
  predicate NestOver(g: Graph, s: StepId) {
    s in g.steps && Active(g.steps[s]) ==> g.steps[s].nest !in g.closed
  }

  ghost predicate NestsOver(g: Graph) { forall s :: NestOver(g, s) }

  lemma WakeNest(g: Graph, e: Event, s: StepId)
    requires Enabled(g, e) && (e.Wake? || e.Sweep?) && NestOver(g, s)
    ensures NestOver(Apply(g, e), s)
  {
  }

  lemma CreationNest(g: Graph, e: Event, s: StepId)
    requires Enabled(g, e) && (e.CreateTop? || e.CreateChild?) && NestOver(g, s)
    requires e.CreateChild? ==> NestOver(g, e.parent)
    ensures NestOver(Apply(g, e), s)
  {
  }

  lemma OtherNest(g: Graph, e: Event, s: StepId)
    requires Enabled(g, e) && !e.Wake? && !e.Sweep? && !e.CreateTop? && !e.CreateChild? && NestOver(g, s)
    requires !e.ResolveKnown? && !e.ResolveFresh?
    ensures NestOver(Apply(g, e), s)
  {
  }

  lemma EventNest(g: Graph, e: Event, s: StepId)
    requires Enabled(g, e) && NestsOver(g)
    ensures NestOver(Apply(g, e), s)
  {
    assert NestOver(g, s);
    if e.Wake? || e.Sweep? {
      WakeNest(g, e, s);
    } else if e.CreateTop? || e.CreateChild? {
      if e.CreateChild? { assert NestOver(g, e.parent); }
      CreationNest(g, e, s);
    } else if e.ResolveKnown? || e.ResolveFresh? {
      ResolveLooks(g, e.s, e.d);
    } else {
      OtherNest(g, e, s);
    }
  }

  lemma {:induction false} RunNests(gs: seq<Graph>, es: seq<Event>, k: nat)
    requires Run(gs, es) && k < |gs|
    ensures NestsOver(gs[k])
  {
    if k > 0 {
      RunNests(gs, es, k - 1);
      assert NextAt(gs, es, k - 1);
      forall s ensures NestOver(gs[k], s) { EventNest(gs[k - 1], es[k - 1], s); }
    }
  }

  /** The step is made runnable when its nest is over, or when a finished step that lists it
      wakes it. */
  ghost predicate MakesRunnable(g: Graph, e: Event, s: StepId) {
    && s in g.steps && s in g.live && g.steps[s].created
    && ((e == MakeRunnable(s) && g.steps[s].deps == {}
         && forall x :: x in g.steps && Active(g.steps[x]) ==> g.steps[x].nest != g.steps[s].nest)
        || ((e.Wake? || e.Sweep?) && exists x :: x in g.steps && g.steps[x].finished && s in g.steps[x].rdeps))
  }

  lemma RunnableByWake(g: Graph, e: Event, s: StepId)
    requires Enabled(g, e) && (e.Wake? || e.Sweep?) && (forall x :: x in g.finishing ==> Finished(g, x))
    requires Runnable(Apply(g, e), s) && !Runnable(g, s)
    ensures MakesRunnable(g, e, s)
  {
    var w := if e.Wake? then {e.s} else SweepSet(g);
    var x :| x in Wakers(g, w, s);
    assert Finished(g, x) && s in g.steps[x].rdeps;
  }

  lemma RunnableByEvent(g: Graph, e: Event, s: StepId)
    requires Inv(g) && NestsOver(g) && Enabled(g, e) && Runnable(Apply(g, e), s) && !Runnable(g, s)
    ensures MakesRunnable(g, e, s)
  {
    assert NodeOk(g, s);
    if e.Wake? || e.Sweep? {
      forall x | x in g.finishing ensures Finished(g, x) { assert NodeOk(g, x); }
      RunnableByWake(g, e, s);
    } else if e.ResolveKnown? || e.ResolveFresh? {
      ResolveLooks(g, e.s, e.d);
    } else {
      OnlyWhenOver(g, e, s);
      forall x | x in g.steps && Active(g.steps[x]) ensures g.steps[x].nest != g.steps[s].nest {
        assert NestOver(g, x);
      }
    }
  }

  lemma OnlyWhenOver(g: Graph, e: Event, s: StepId)
    requires NodeOk(g, s) && Enabled(g, e) && !e.Wake? && !e.Sweep? && !e.ResolveKnown? && !e.ResolveFresh?
    requires Runnable(Apply(g, e), s) && !Runnable(g, s)
    ensures e == MakeRunnable(s) && s in g.steps && s in g.live && g.steps[s].created && g.steps[s].deps == {}
  {
  }

  /** In every run a step is runnable only after it was created and the creations of its nest
      are all over, or a step that lists it as a dependent finished and woke it. */
  lemma {:induction false} RunnableOnlyAfter(gs: seq<Graph>, es: seq<Event>, k: nat, s: StepId)
    requires Run(gs, es) && k < |gs| && Runnable(gs[k], s)
    ensures exists i :: 0 <= i < k && MakesRunnable(gs[i], es[i], s)
  {
    RunInv(gs, es, k - 1);
    RunNests(gs, es, k - 1);
    assert NextAt(gs, es, k - 1);
    if Runnable(gs[k - 1], s) {
      RunnableOnlyAfter(gs, es, k - 1, s);
    } else {
      RunnableByEvent(gs[k - 1], es[k - 1], s);
    }
  }
}
