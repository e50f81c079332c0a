/**
 Collecting content-addressed derivations: the recursive walk with one shared
 `processed` set, and the same walk when the calls for the inputs and the roots
 interleave in any order.
 */
module FodChecker {
  import opened Collections
  import opened Reachability

  type Path = string

  datatype Drv = Drv(inputs: seq<Path>, ca: bool, text: string)

  /** The derivations that can be read. */
  type Store = map<Path, Drv>

  function Inputs(store: Store): Edges<Path> {
    map p | p in store :: set q | q in store[p].inputs
  }

  ghost predicate ReachedFrom(store: Store, roots: set<Path>, p: Path) {
    exists r :: r in roots && Reaches(Inputs(store), r, p)
  }

  /** `out` has exactly the content-addressed derivations below the roots. */
  ghost predicate Exact(store: Store, roots: set<Path>, out: map<Path, Drv>) {
    forall p :: ExactAt(store, roots, out, p)
  }

  ghost predicate ExactAt(store: Store, roots: set<Path>, out: map<Path, Drv>, p: Path) {
    && (p in out <==> p in store && store[p].ca && ReachedFrom(store, roots, p))
    && (p in out && p in store ==> out[p] == store[p])
  }

  // ---- the recursive walk ----

  /** What a walk from `roots` adds to `before` is below the roots, and the inputs of
      what it adds are in `after`, but for those of the paths at `open`. */
  ghost predicate WalkOk(store: Store, roots: set<Path>, before: set<Path>, after: set<Path>, open: set<Path>) {
    && before <= after
    && (forall p :: p in after && p !in before ==> ReachedFrom(store, roots, p))
    && (forall p :: p in after && p !in before && p !in open ==> Succ(Inputs(store), p) <= after)
  }

  lemma WalkCompose(store: Store, d: Path, q: Path, a: set<Path>, b: set<Path>, c: set<Path>)
    requires d in store && q in store[d].inputs && d in b
    requires WalkOk(store, {d}, a, b, {d}) && WalkOk(store, {q}, b, c, {})
    ensures WalkOk(store, {d}, a, c, {d})
  {
    forall p | p in c && p !in b ensures ReachedFrom(store, {d}, p) {
      assert q in Succ(Inputs(store), d);
      ReachesFrom(Inputs(store), d, q, p);
    }
  }

  predicate FoundOk(store: Store, before: set<Path>, after: set<Path>, out: map<Path, Drv>, p: Path) {
    && (p in out <==> p in after && p !in before && p in store && store[p].ca)
    && (p in out && p in store ==> out[p] == store[p])
  }

  /** `out` has the content-addressed ones of what was added to `before`. */
  ghost predicate Found(store: Store, before: set<Path>, after: set<Path>, out: map<Path, Drv>) {
    forall p :: FoundOk(store, before, after, out, p)
  }

  lemma FoundCompose(store: Store, a: set<Path>, b: set<Path>, c: set<Path>, x: map<Path, Drv>, y: map<Path, Drv>)
    requires a <= b <= c && Found(store, a, b, x) && Found(store, b, c, y)
    ensures Found(store, a, c, x + y)
  {
    forall p ensures FoundOk(store, a, c, x + y, p) {
      assert FoundOk(store, a, b, x, p) && FoundOk(store, b, c, y, p);
    }
  }

  /** The walk from `d` after the first `k` of its inputs. */
  ghost predicate Visiting(
      store: Store, d: Path, k: nat, processed: set<Path>, here: set<Path>, after: set<Path>, out: map<Path, Drv>) {
    && d in store && d !in processed && here == processed + {d} && here <= after && k <= |store[d].inputs|
    && WalkOk(store, {d}, processed, after, {d})
    && (forall l :: 0 <= l < k ==> store[d].inputs[l] in after)
    && Found(store, here, after, out)
  }

  ghost predicate Collected(store: Store, d: Path, processed: set<Path>, after: set<Path>, out: map<Path, Drv>) {
    WalkOk(store, {d}, processed, after, {}) && d in after && Found(store, processed, after, out)
  }

  lemma VisitStarts(store: Store, d: Path, processed: set<Path>)
    requires d !in processed
    ensures d in store ==> Visiting(store, d, 0, processed, processed + {d}, processed + {d}, map[])
    ensures d !in store ==> Collected(store, d, processed, processed + {d}, map[])
  {
    ReachesSelf(Inputs(store), d);
  }

  lemma VisitNext(
      store: Store, d: Path, k: nat, processed: set<Path>, here: set<Path>, b: set<Path>, x: map<Path, Drv>,
      after: set<Path>, y: map<Path, Drv>)
    requires Visiting(store, d, k, processed, here, b, x) && k < |store[d].inputs|
    requires Collected(store, store[d].inputs[k], b, after, y)
    ensures Visiting(store, d, k + 1, processed, here, after, x + y)
  {
    WalkCompose(store, d, store[d].inputs[k], processed, b, after);
    FoundCompose(store, here, b, after, x, y);
  }

  lemma VisitEnds(store: Store, d: Path, processed: set<Path>, here: set<Path>, after: set<Path>, out: map<Path, Drv>)
    requires d in store && Visiting(store, d, |store[d].inputs|, processed, here, after, out)
    ensures Collected(store, d, processed, after, if store[d].ca then out[d := store[d]] else out)
  {
    var own: map<Path, Drv> := if store[d].ca then map[d := store[d]] else map[];
    assert Found(store, processed, here, own);
    FoundCompose(store, processed, here, after, own, out);
    assert FoundOk(store, here, after, out, d);
    assert own + out == if store[d].ca then out[d := store[d]] else out;
  }

  method CollectCaDerivations(store: Store, d: Path, processed: set<Path>)
      returns (after: set<Path>, out: map<Path, Drv>)
    ensures Collected(store, d, processed, after, out)
    decreases |store.Keys - processed|
  {
    if d in processed {
      return processed, map[];
    }
    VisitStarts(store, d, processed);
    after, out := processed + {d}, map[];
    if d !in store {
      return;
    }
    ghost var here := after;
    var inputs := store[d].inputs;
    for k := 0 to |inputs|
      invariant Visiting(store, d, k, processed, here, after, out)
    {
      ghost var b, x := after, out;
      Smaller(store, processed, after, d);
      var more;
      after, more := CollectCaDerivations(store, inputs[k], after);
      VisitNext(store, d, k, processed, here, b, x, after, more);
      out := out + more;
    }
    VisitEnds(store, d, processed, here, after, out);
    if store[d].ca {
      out := out[d := store[d]];
    }
  }

  lemma Smaller(store: Store, a: set<Path>, b: set<Path>, d: Path)
    requires a <= b && d in b && d !in a && d in store
    ensures |store.Keys - b| < |store.Keys - a|
  {
    SubsetSize(store.Keys - b, store.Keys - a - {d});
  }

  /** A complete walk from nothing has exactly what is below the roots. */
  lemma WalkExact(store: Store, roots: set<Path>, after: set<Path>, out: map<Path, Drv>)
    requires WalkOk(store, roots, {}, after, {}) && roots <= after && Found(store, {}, after, out)
    ensures Exact(store, roots, out)
  {
    forall p ensures ExactAt(store, roots, out, p) {
      assert FoundOk(store, {}, after, out, p);
      if ReachedFrom(store, roots, p) {
        var r :| r in roots && Reaches(Inputs(store), r, p);
        ClosedUnderReach(Inputs(store), after, r, p);
      }
    }
  }

  ghost predicate Walked(store: Store, done: set<Path>, processed: set<Path>, out: map<Path, Drv>) {
    done <= processed && WalkOk(store, done, {}, processed, {}) && Found(store, {}, processed, out)
  }

  lemma RootsCompose(
      store: Store, done: set<Path>, d: Path, b: set<Path>, x: map<Path, Drv>, after: set<Path>, y: map<Path, Drv>)
    requires Walked(store, done, b, x) && Collected(store, d, b, after, y)
    ensures Walked(store, done + {d}, after, x + y)
  {
    FoundCompose(store, {}, b, after, x, y);
    forall p | p in after ensures ReachedFrom(store, done + {d}, p) {
      if p in b {
        var r :| r in done && Reaches(Inputs(store), r, p);
        assert r in done + {d};
      } else {
        assert d in done + {d};
      }
    }
  }

  class Checker {
    var caDerivations: map<Path, Drv>
    var toTraverse: set<Path>

    constructor ()
      ensures caDerivations == map[] && toTraverse == {}
    {
      caDerivations, toTraverse := map[], {};
    }

    method AddCaDrvParsed(d: Path, parsed: Drv)
      modifies this`caDerivations
      ensures caDerivations == if parsed.ca then old(caDerivations)[d := parsed] else old(caDerivations)
    {
      if parsed.ca {
        caDerivations := caDerivations[d := parsed];
      }
    }

    /** Drains the roots and adds exactly the content-addressed derivations below them. */
    method Traverse(store: Store)
      modifies this
      ensures toTraverse == {}
      ensures exists out :: Exact(store, old(toTraverse), out) && caDerivations == old(caDerivations) + out
    {
      var drvs := toTraverse;
      toTraverse := {};
      var processed: set<Path>, out: map<Path, Drv> := {}, map[];
      ghost var done: set<Path> := {};
      while drvs != {}
        invariant done + drvs == old(toTraverse) && Walked(store, done, processed, out)
        invariant caDerivations == old(caDerivations) && toTraverse == {}
        decreases drvs
      {
        var d :| d in drvs;
        ghost var b, x := processed, out;
        var more;
        processed, more := CollectCaDerivations(store, d, processed);
        RootsCompose(store, done, d, b, x, processed, more);
        out := out + more;
        drvs := drvs - {d};
        done := done + {d};
      }
      assert done == old(toTraverse);
      WalkExact(store, done, processed, out);
      caDerivations := caDerivations + out;
    }
  }

  // ---- calls in any order ----

  /** Calls that have not looked at `processed` yet, and what the others found. */
  datatype Pool = Pool(processed: set<Path>, calls: multiset<Path>, out: map<Path, Drv>)

  /** One pending call runs to its next suspension: its inputs become pending calls. */
  function Visit(store: Store, w: Pool, d: Path): Pool
    requires d in w.calls
  {
    var rest := w.calls - multiset{d};
    if d in w.processed then w.(calls := rest)
    else if d !in store then w.(processed := w.processed + {d}, calls := rest)
    else Pool(w.processed + {d}, rest + multiset(store[d].inputs),
              if store[d].ca then w.out[d := store[d]] else w.out)
  }

  ghost predicate PoolRun(store: Store, roots: set<Path>, ws: seq<Pool>, ds: seq<Path>) {
    && |ws| == |ds| + 1 && ws[0] == Pool({}, multiset(roots), map[])
    && forall i :: 0 <= i < |ds| ==> PoolNext(store, ws, ds, i)
  }

  ghost predicate PoolNext(store: Store, ws: seq<Pool>, ds: seq<Path>, i: nat)
    requires |ws| == |ds| + 1 && i < |ds|
  {
    ds[i] in ws[i].calls && ws[i + 1] == Visit(store, ws[i], ds[i])
  }

  predicate Noted(w: Pool, p: Path) { p in w.processed || p in w.calls }

  ghost predicate PoolOk(store: Store, roots: set<Path>, w: Pool) {
    && (forall r :: r in roots ==> Noted(w, r))
    && (forall p :: Noted(w, p) ==> ReachedFrom(store, roots, p))
    && (forall p, q :: p in w.processed && p in store && q in store[p].inputs ==> Noted(w, q))
    && Found(store, {}, w.processed, w.out)
  }

  lemma VisitKeeps(store: Store, roots: set<Path>, w: Pool, d: Path)
    requires PoolOk(store, roots, w) && d in w.calls
    ensures PoolOk(store, roots, Visit(store, w, d))
  {
    var h := Visit(store, w, d);
    assert forall p :: Noted(w, p) ==> Noted(h, p);
    forall p ensures FoundOk(store, {}, h.processed, h.out, p) {
      assert FoundOk(store, {}, w.processed, w.out, p);
    }
    forall p | Noted(h, p) ensures ReachedFrom(store, roots, p) {
      if !Noted(w, p) {
        assert p in store[d].inputs && Noted(w, d);
        InputReached(store, roots, d, p);
      }
    }
    VisitInputs(store, w, d);
  }

  lemma VisitInputs(store: Store, w: Pool, d: Path)
    requires d in w.calls
    ensures d in store && d !in w.processed ==> forall q :: q in store[d].inputs ==> Noted(Visit(store, w, d), q)
  {
    if d in store && d !in w.processed {
      forall q | q in store[d].inputs ensures Noted(Visit(store, w, d), q) {
        assert q in multiset(store[d].inputs);
      }
    }
  }

  lemma InputReached(store: Store, roots: set<Path>, d: Path, q: Path)
    requires d in store && q in store[d].inputs && ReachedFrom(store, roots, d)
    ensures ReachedFrom(store, roots, q)
  {
    var r :| r in roots && Reaches(Inputs(store), r, d);
    ReachesThen(Inputs(store), r, d, q);
  }

  lemma {:induction false} PoolRunOk(store: Store, roots: set<Path>, ws: seq<Pool>, ds: seq<Path>, i: nat)
    requires PoolRun(store, roots, ws, ds) && i < |ws|
    ensures PoolOk(store, roots, ws[i])
  {
    if i == 0 {
      forall r | r in roots ensures ReachedFrom(store, roots, r) {
        ReachesSelf(Inputs(store), r);
      }
    } else {
      PoolRunOk(store, roots, ws, ds, i - 1);
      assert PoolNext(store, ws, ds, i - 1);
      VisitKeeps(store, roots, ws[i - 1], ds[i - 1]);
    }
  }

  /** However the calls interleave, when none is left exactly the content-addressed
      derivations below the roots have been found. */
  lemma AnyOrderExact(store: Store, roots: set<Path>, ws: seq<Pool>, ds: seq<Path>)
    requires PoolRun(store, roots, ws, ds) && ws[|ds|].calls == multiset{}
    ensures Exact(store, roots, ws[|ds|].out)
  {
    var w := ws[|ds|];
    PoolRunOk(store, roots, ws, ds, |ds|);
    assert forall p :: Noted(w, p) <==> p in w.processed;
    WalkExact(store, roots, w.processed, w.out);
  }

  /** Each visit either marks a new path or uses up a call, so no run goes on for ever. */
  lemma VisitsEnd(store: Store, w: Pool, d: Path)
    requires d in w.calls
    ensures var h := Visit(store, w, d);
      || |store.Keys - h.processed| < |store.Keys - w.processed|
      || (h.processed * store.Keys == w.processed * store.Keys && |h.calls| < |w.calls|)
  {
    var h := Visit(store, w, d);
    if d !in w.processed && d in store {
      Smaller(store, w.processed, h.processed, d);
    } else {
      assert h.processed * store.Keys == w.processed * store.Keys;
    }
  }
}
