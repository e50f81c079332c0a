/** The run of the step graph inside a run of the whole scheduler. */
module RunnerGraph {
  import opened StepGraph
  import opened StepGraphInvariant
  import opened StepGraphTheorems
  import opened Scheduling
  import opened SchedulingInvariant
  import opened Runner
  import opened RunnerInvariant
  import opened RunnerTheorems

  datatype Trace = Trace(gs: seq<Graph>, es: seq<StepGraph.Event>)

  /** What an event is for the graph: nothing or one event. */
  function GraphPart(w: World, e: Runner.Event): seq<StepGraph.Event> {
    match e
    case GraphEvent(x) => [x]
    case Moves(op) => MovePart(w, op)
  }

  function MovePart(w: World, op: Op): seq<StepGraph.Event> {
    match op
    case CachePass(v) => if CanCachePass(w.s) then [Fail(w.s.infos[w.s.dispatcher.info].step, v)] else []
    case AbortPass(st, v) => [Fail(st, v)]
    case TaskPass(id, v) => if CanTaskPass(w.s, id) then [Fail(w.s.infos[w.s.tasks[id].info].step, v)] else []
    case Act(k, _, _) => if Succeeds(w.s, k) then [Finish(StepOf(w.s, w.s.calls[k].path))] else []
    case _ => []
  }

  lemma MovePartIs(c: Config, w: World, op: Op)
    requires Can(c, w.s, op) && GraphCan(w, op)
    ensures var x := MovePart(w, op);
      if x == [] then GraphAfter(w, op) == w.g
      else |x| == 1 && Enabled(w.g, x[0]) && GraphAfter(w, op) == Apply(w.g, x[0]) && CleanEvent(x[0])
  {
    match op
    case CachePass(v) =>
    case AbortPass(st, v) =>
    case TaskPass(id, v) =>
    case Act(k, id, now) =>
    case _ =>
  }

  lemma GraphPartIs(c: Config, w: World, e: Runner.Event)
    requires Allowed(c, w, e)
    ensures var x := GraphPart(w, e);
      if x == [] then Effect(c, w, e).g == w.g
      else |x| == 1 && Enabled(w.g, x[0]) && Effect(c, w, e).g == Apply(w.g, x[0]) && (e.Moves? ==> CleanEvent(x[0]))
  {
    if e.Moves? { MovePartIs(c, w, e.op); }
  }

  /** The graphs and the graph events of the first `k` events. */
  function GraphRun(ws: seq<World>, es: seq<Runner.Event>, k: nat): Trace
    requires |ws| == |es| + 1 && k <= |es|
  {
    if k == 0 then Trace([ws[0].g], [])
    else
      var t, x := GraphRun(ws, es, k - 1), GraphPart(ws[k - 1], es[k - 1]);
      if x == [] then t else Trace(t.gs + [ws[k].g], t.es + x)
  }

  lemma RunsOn(gs: seq<Graph>, es: seq<StepGraph.Event>, e: StepGraph.Event, h: Graph)
    requires Run(gs, es) && Enabled(gs[|es|], e) && h == Apply(gs[|es|], e)
    ensures Run(gs + [h], es + [e])
  {
    forall i | 0 <= i < |es + [e]| ensures NextAt(gs + [h], es + [e], i) {
      if i < |es| { assert NextAt(gs, es, i); }
    }
  }

  lemma NextPart(c: Config, ws: seq<World>, es: seq<Runner.Event>, k: nat)
    requires WorldRun(c, ws, es) && k < |es|
    ensures var x := GraphPart(ws[k], es[k]);
      if x == [] then ws[k + 1].g == ws[k].g
      else |x| == 1 && Enabled(ws[k].g, x[0]) && ws[k + 1].g == Apply(ws[k].g, x[0])
           && ((es[k].GraphEvent? ==> CleanEvent(es[k].e)) ==> CleanEvent(x[0]))
  {
    assert WorldNext(c, ws, es, k);
    GraphPartIs(c, ws[k], es[k]);
  }

  /** It is a run of the graph, ends in the graph of the state, and has no failed creation
      if the whole run has none. */
  lemma {:induction false} GraphRunIs(c: Config, ws: seq<World>, es: seq<Runner.Event>, k: nat)
    requires WorldRun(c, ws, es) && k < |ws|
    ensures var t := GraphRun(ws, es, k);
      && Run(t.gs, t.es) && t.gs[|t.es|] == ws[k].g
      && ((forall j :: 0 <= j < k && es[j].GraphEvent? ==> CleanEvent(es[j].e)) ==>
            forall j :: 0 <= j < |t.es| ==> CleanEvent(t.es[j]))
  {
    if k > 0 {
      GraphRunIs(c, ws, es, k - 1);
      var t, x := GraphRun(ws, es, k - 1), GraphPart(ws[k - 1], es[k - 1]);
      NextPart(c, ws, es, k - 1);
      if x != [] {
        assert x == [x[0]];
        RunsOn(t.gs, t.es, x[0], ws[k].g);
      }
    }
  }
}
