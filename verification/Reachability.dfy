/**
 Walks and reachability in a finite directed graph. The step graph is walked in
 both directions: upwards over `rdeps` when a step fails, downwards over `deps`
 when a priority is propagated.
 */
module Reachability {

  /** The successors of each node; a node outside the map has none. */
  type Edges<K> = map<K, set<K>>

  function Succ<K>(e: Edges<K>, k: K): set<K> {
    if k in e then e[k] else {}
  }

  ghost predicate Walk<K>(e: Edges<K>, w: seq<K>) {
    && |w| > 0
    && forall i :: 0 <= i < |w| - 1 ==> w[i + 1] in Succ(e, w[i])
  }

  ghost predicate WalkBetween<K>(e: Edges<K>, w: seq<K>, a: K, b: K) {
    Walk(e, w) && w[0] == a && w[|w| - 1] == b
  }

  ghost predicate Reaches<K(!new)>(e: Edges<K>, a: K, b: K) {
    exists w :: WalkBetween(e, w, a, b)
  }

  ghost predicate Closed<K>(e: Edges<K>, s: set<K>) {
    forall k :: k in s ==> Succ(e, k) <= s
  }

  lemma ReachesSelf<K(!new)>(e: Edges<K>, a: K)
    ensures Reaches(e, a, a)
  {
    assert WalkBetween(e, [a], a, a);
  }

  lemma ReachesThen<K(!new)>(e: Edges<K>, a: K, b: K, c: K)
    requires Reaches(e, a, b)
    requires c in Succ(e, b)
    ensures Reaches(e, a, c)
  {
    var w :| WalkBetween(e, w, a, b);
    assert WalkBetween(e, w + [c], a, c);
  }

  lemma ReachesFrom<K(!new)>(e: Edges<K>, a: K, b: K, c: K)
    requires b in Succ(e, a)
    requires Reaches(e, b, c)
    ensures Reaches(e, a, c)
  {
    var w :| WalkBetween(e, w, b, c);
    assert WalkBetween(e, [a] + w, a, c);
  }

  /** A closed set contains whatever its members reach. */
  lemma {:induction false} ClosedUnderWalk<K>(e: Edges<K>, s: set<K>, w: seq<K>)
    requires Closed(e, s) && Walk(e, w) && w[0] in s
    ensures w[|w| - 1] in s
    decreases |w|
  {
    if |w| > 1 {
      assert w[1] in Succ(e, w[0]);
      ClosedUnderWalk(e, s, w[1..]);
    }
  }

  lemma ClosedUnderReach<K(!new)>(e: Edges<K>, s: set<K>, a: K, b: K)
    requires Closed(e, s) && a in s && Reaches(e, a, b)
    ensures b in s
  {
    var w :| WalkBetween(e, w, a, b);
    ClosedUnderWalk(e, s, w);
  }

  /** The last step of a walk that goes anywhere. */
  lemma ReachesLast<K(!new)>(e: Edges<K>, a: K, b: K) returns (c: K)
    requires Reaches(e, a, b) && a != b
    ensures Reaches(e, a, c) && b in Succ(e, c)
  {
    var w :| WalkBetween(e, w, a, b);
    c := w[|w| - 2];
    assert WalkBetween(e, w[..|w| - 1], a, c);
    assert w[|w| - 2 + 1] in Succ(e, c);
  }

  /** Reachability is transitive. */
  lemma {:induction false} ReachesTrans<K(!new)>(e: Edges<K>, a: K, b: K, c: K)
    requires Reaches(e, a, b) && Reaches(e, b, c)
    ensures Reaches(e, a, c)
  {
    var v :| WalkBetween(e, v, a, b);
    var w :| WalkBetween(e, w, b, c);
    var z := v + w[1..];
    assert forall i :: 0 <= i < |z| - 1 ==>
      z[i + 1] in Succ(e, z[i]) by {
      forall i | 0 <= i < |z| - 1 ensures z[i + 1] in Succ(e, z[i]) {
        if i < |v| - 1 {
        } else {
          assert z[i] == w[i - (|v| - 1)] && z[i + 1] == w[i + 1 - (|v| - 1)];
        }
      }
    }
    assert WalkBetween(e, z, a, c);
  }
}
