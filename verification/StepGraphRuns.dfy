/** Runs of the step graph without a failed creation, and pieces they are made of. */
module StepGraphRuns {
  import opened Reachability
  import opened StepGraph
  import opened StepGraphTheorems

  ghost predicate Leads(g: Graph, e: Event, h: Graph) {
    Enabled(g, e) && Apply(g, e) == h && CleanEvent(e)
  }

  /** Some run without failed creations ends in `g`. */
  ghost predicate CleanRunTo(g: Graph) {
    exists gs, es :: CleanRun(gs, es, g)
  }

  ghost predicate CleanRun(gs: seq<Graph>, es: seq<Event>, g: Graph) {
    Run(gs, es) && gs[|es|] == g && forall k :: 0 <= k < |es| ==> CleanEvent(es[k])
  }

  lemma Then(g: Graph, e: Event, h: Graph)
    requires CleanRunTo(g) && Leads(g, e, h)
    ensures CleanRunTo(h)
  {
    var gs, es :| CleanRun(gs, es, g);
    var hs, fs := gs + [h], es + [e];
    forall k | 0 <= k < |fs| ensures NextAt(hs, fs, k) {
      if k < |es| { assert NextAt(gs, es, k); }
    }
    assert CleanRun(hs, fs, h);
  }

  /** The step waits, and nothing it depends on is going to be acted on. */
  ghost predicate Deadlocked(g: Graph, s: StepId) {
    && s in g.live && s in g.steps && g.steps[s].created && !g.steps[s].finished
    && forall r :: Reaches(DepEdges(g), s, r) ==> !Obligation(g, r)
  }

  // ---- pieces of runs ----

  function Built(path: Path, n: NestId): Step {
    NewStep(path, n).(created := true, runnable := true, expanded := true, phase := Returned)
  }

  /** A derivation without inputs, made runnable in a nest of its own. */
  function WithLeaf(g: Graph, path: Path, id: StepId): Graph {
    g.(steps := g.steps[id := Built(path, id)], live := g.live + {id}, registry := g.registry[path := id],
       closed := g.closed + {id})
  }

  /** Nothing of the path or the nest is there yet. */
  predicate Fresh(g: Graph, path: Path, id: StepId) {
    && id !in g.steps && id !in g.newRunnable && id !in g.closed && path !in g.registry
    && forall x :: x in g.live && x in g.steps ==> g.steps[x].path != path
  }

  lemma LeafCreated(g: Graph, path: Path, id: StepId)
    requires CleanRunTo(g) && Fresh(g, path, id)
    ensures CleanRunTo(Put(WithLeaf(g, path, id), id, NewStep(path, id)).(closed := g.closed))
  {
    var h := Put(WithLeaf(g, path, id), id, NewStep(path, id)).(closed := g.closed);
    assert h.steps == g.steps[id := NewStep(path, id)];
    Then(g, CreateTop(path, id, id), h);
  }

  /** A step whose derivation has no inputs. */
  lemma LeafExpanded(g: Graph, id: StepId)
    requires CleanRunTo(g) && id in g.steps && g.steps[id].phase.Deciding?
    requires g.steps[id].path in g.inputs && g.inputs[g.steps[id].path] == {}
    ensures CleanRunTo(Put(g, id, g.steps[id].(expanded := true, created := true, phase := Marked)))
  {
    var s := g.steps[id].(expanded := true, phase := Expanding({}, {}, {}));
    Then(g, Expand(id), Put(g, id, s));
    Then(Put(g, id, s), MarkCreated(id), Put(Put(g, id, s), id, s.(created := true, phase := Marked)));
    assert Put(Put(g, id, s), id, s.(created := true, phase := Marked))
        == Put(g, id, g.steps[id].(expanded := true, created := true, phase := Marked));
  }

  /** The step is alone in its nest. */
  predicate Alone(g: Graph, id: StepId) {
    id in g.steps && id !in g.newRunnable && id !in g.closed
    && forall x :: x in g.steps && x != id ==> g.steps[x].nest != id
  }

  lemma LeafRunnable(g: Graph, path: Path, id: StepId)
    requires Alone(g, id) && CleanRunTo(g)
    requires g.steps[id] == NewStep(path, id).(expanded := true, created := true, phase := Marked)
    ensures CleanRunTo(Put(g, id, Built(path, id)).(closed := g.closed + {id}))
  {
    var h := Put(g, id, g.steps[id].(phase := Returned)).(newRunnable := g.newRunnable + {id});
    Then(g, CheckDeps(id), h);
    var k := h.(closed := g.closed + {id});
    Then(h, Close(id), k);
    assert k.newRunnable - {id} == g.newRunnable;
    assert k.steps[id := Built(path, id)] == g.steps[id := Built(path, id)];
    Then(k, MakeRunnable(id), Put(g, id, Built(path, id)).(closed := g.closed + {id}));
  }

  /** A derivation without inputs becomes runnable. */
  lemma LeafIsMade(g: Graph, path: Path, id: StepId)
    requires CleanRunTo(g) && Fresh(g, path, id) && path in g.inputs && g.inputs[path] == {}
    requires forall x :: x in g.steps ==> g.steps[x].nest != id
    ensures CleanRunTo(WithLeaf(g, path, id))
  {
    var h := WithLeaf(g, path, id).(closed := g.closed);
    LeafCreated(g, path, id);
    LeafExpanded(Put(h, id, NewStep(path, id)), id);
    LeafMarked(h, path, id);
    LeafRunnable(Put(h, id, Raw(path, id)), path, id);
    assert Put(Put(h, id, Raw(path, id)), id, Built(path, id)) == h;
  }

  function Raw(path: Path, n: NestId): Step { NewStep(path, n).(expanded := true, created := true, phase := Marked) }

  lemma LeafMarked(g: Graph, path: Path, id: StepId)
    ensures var s := NewStep(path, id);
      Put(Put(g, id, s), id, s.(expanded := true, created := true, phase := Marked)) == Put(g, id, Raw(path, id))
  {
  }

  /** The call for an input whose step is registered. */
  lemma LinksKnown(g: Graph, u: StepId, path: Path, id: StepId, d: StepId)
    requires u in g.steps && g.steps[u].phase.Expanding? && path in g.steps[u].phase.todo && id !in g.steps
    requires Known(g, path) && g.registry[path] == d && d != u
    ensures var ph := g.steps[u].phase;
      Leads(g, CreateChild(u, path, id),
            Put(Put(g, d, g.steps[d].(rdeps := g.steps[d].rdeps + [u])), u,
                g.steps[u].(phase := Expanding(ph.todo - {path}, ph.known + {d}, ph.made))))
  {
    assert Obtain(g, path, id, g.steps[u].nest) == g && Obtained(g, path, id) == d;
  }

  /** The call for an input whose step is not registered. */
  lemma LinksFresh(g: Graph, u: StepId, path: Path, id: StepId)
    requires u in g.steps && g.steps[u].phase.Expanding? && path in g.steps[u].phase.todo && id !in g.steps
    requires path !in g.registry
    ensures var ph := g.steps[u].phase;
      Leads(g, CreateChild(u, path, id),
            g.(steps := g.steps[id := NewStep(path, g.steps[u].nest).(rdeps := [u])]
                               [u := g.steps[u].(phase := Expanding(ph.todo - {path}, ph.known, ph.made + {id}))],
               live := g.live + {id}, registry := g.registry[path := id],
               twins := g.twins || exists x :: x in g.live && x in g.steps && g.steps[x].path == path))
  {
    var h := Obtain(g, path, id, g.steps[u].nest);
    var d := NewStep(path, g.steps[u].nest);
    assert Obtained(g, path, id) == id && h.steps == g.steps[id := d] && d.rdeps + [u] == [u];
    assert Put(h, id, d.(rdeps := [u])).steps == g.steps[id := d.(rdeps := [u])];
  }
}
