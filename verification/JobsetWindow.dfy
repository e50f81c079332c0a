/**
 The scheduling window of a jobset: an ordered map from start times to durations
 and a counter of seconds that is kept beside it.
 */
module JobsetWindow {

  const SCHEDULING_WINDOW := 24 * 60 * 60

  datatype Entry = Entry(start: int, duration: int)

  /** An ordered map: entries with increasing start times. */
  type Window = seq<Entry>

  predicate Increasing(w: Window) {
    forall i, j :: 0 <= i < j < |w| ==> w[i].start < w[j].start
  }

  function Put(w: Window, e: Entry): Window {
    if w == [] || e.start < w[0].start then [e] + w
    else if e.start == w[0].start then [e] + w[1..]
    else [w[0]] + Put(w[1..], e)
  }

  /** The duration that an insertion replaces. */
  function Replaced(w: Window, start: int): int {
    if w == [] then 0 else if w[0].start == start then w[0].duration else Replaced(w[1..], start)
  }

  function Sum(w: Window): int {
    if w == [] then 0 else w[0].duration + Sum(w[1..])
  }

  function Older(w: Window, limit: int): Window {
    if w == [] then [] else if w[0].start <= limit then [w[0]] + Older(w[1..], limit) else Older(w[1..], limit)
  }

  function Newer(w: Window, limit: int): Window {
    if w == [] then [] else if w[0].start > limit then [w[0]] + Newer(w[1..], limit) else Newer(w[1..], limit)
  }

  // ---- the ordered map ----

  /** Insertion behaves like a map: the new entry is there, the old one with its
      start time is not, and every other entry is as before. */
  lemma {:induction false} PutIsMap(w: Window, e: Entry, x: Entry)
    requires Increasing(w)
    ensures Increasing(Put(w, e))
    ensures x in Put(w, e) <==> x == e || (x in w && x.start != e.start)
  {
    if w != [] && e.start > w[0].start {
      PutIsMap(w[1..], e, x);
      var t := Put(w[1..], e);
      forall j | 0 <= j < |t| ensures w[0].start < t[j].start {
        PutIsMap(w[1..], e, t[j]);
      }
      assert w == [w[0]] + w[1..];
    } else if w != [] {
      assert w == [w[0]] + w[1..];
    }
  }

  lemma {:induction false} PutSum(w: Window, e: Entry)
    requires Increasing(w)
    ensures Sum(Put(w, e)) == Sum(w) + e.duration - Replaced(w, e.start)
  {
    if w != [] && e.start > w[0].start {
      PutSum(w[1..], e);
      assert Put(w, e)[1..] == Put(w[1..], e);
    } else if w != [] && e.start < w[0].start {
      assert Put(w, e)[1..] == w;
      NothingReplaced(w, e.start);
    } else {
      assert Put(w, e)[1..] == if w == [] then [] else w[1..];
    }
  }

  lemma {:induction false} NothingReplaced(w: Window, start: int)
    requires forall i :: 0 <= i < |w| ==> w[i].start != start
    ensures Replaced(w, start) == 0
  {
    if w != [] {
      NothingReplaced(w[1..], start);
    }
  }

  lemma {:induction false} Split(w: Window, limit: int)
    requires Increasing(w)
    ensures w == Older(w, limit) + Newer(w, limit)
  {
    if w != [] && w[0].start > limit {
      NoneOlder(w, limit);
    } else if w != [] {
      Split(w[1..], limit);
    }
  }

  lemma {:induction false} NewerMembers(w: Window, limit: int, x: Entry)
    ensures x in Newer(w, limit) <==> x in w && x.start > limit
  {
    if w != [] {
      NewerMembers(w[1..], limit, x);
      assert w == [w[0]] + w[1..];
    }
  }

  lemma {:induction false} SumConcat(v: Window, w: Window)
    ensures Sum(v + w) == Sum(v) + Sum(w)
  {
    if v == [] {
      assert v + w == w;
    } else {
      assert (v + w)[1..] == v[1..] + w;
      SumConcat(v[1..], w);
    }
  }

  lemma {:induction false} NoneOlder(w: Window, limit: int)
    requires forall i :: 0 <= i < |w| ==> w[i].start > limit
    ensures Older(w, limit) == [] && Newer(w, limit) == w
  {
    if w != [] {
      NoneOlder(w[1..], limit);
    }
  }

  // ---- the jobset ----

  class Jobset {
    var seconds: int
    var steps: Window
    /** The durations that insertions replaced. */
    ghost var overwritten: int

    ghost predicate Valid()
      reads this
    {
      Increasing(steps) && seconds == Sum(steps) + overwritten
    }

    constructor ()
      ensures Valid() && seconds == 0 && steps == [] && overwritten == 0
    {
      seconds, steps, overwritten := 0, [], 0;
    }

    method AddStep(start: int, duration: int)
      requires Valid()
      modifies this
      ensures Valid() && steps == Put(old(steps), Entry(start, duration))
      ensures seconds == old(seconds) + duration
      ensures overwritten == old(overwritten) + Replaced(old(steps), start)
    {
      PutIsMap(steps, Entry(start, duration), Entry(start, duration));
      PutSum(steps, Entry(start, duration));
      overwritten := overwritten + Replaced(steps, start);
      steps := Put(steps, Entry(start, duration));
      seconds := seconds + duration;
    }

    /** Removes exactly the entries at or before the limit and takes exactly their
        durations off the counter. */
    method PruneSteps(now: int)
      requires Valid()
      modifies this`seconds, this`steps
      ensures Valid() && steps == Newer(old(steps), now - SCHEDULING_WINDOW)
      ensures forall x :: x in steps <==> x in old(steps) && x.start > now - 86400
      ensures seconds == old(seconds) - Sum(Older(old(steps), now - SCHEDULING_WINDOW))
    {
      var limit := now - SCHEDULING_WINDOW;
      ghost var w := steps;
      Split(w, limit);
      SumConcat(Older(w, limit), Newer(w, limit));
      while true
        invariant Valid() && Newer(steps, limit) == Newer(w, limit)
        decreases |steps|
      {
        if steps == [] { break; }
        var first := steps[0];
        if first.start > limit { break; }
        seconds := seconds - first.duration;
        steps := steps[1..];
      }
      NoneOlder(steps, limit);
      forall x ensures x in Newer(w, limit) <==> x in w && x.start > limit { NewerMembers(w, limit, x); }
    }
  }

  // ---- histories ----

  datatype Op = Add(start: int, duration: int) | Prune(now: int)

  datatype State = State(steps: Window, seconds: int, overwritten: int)

  function Step(s: State, op: Op): State {
    match op
    case Add(t, d) => State(Put(s.steps, Entry(t, d)), s.seconds + d, s.overwritten + Replaced(s.steps, t))
    case Prune(now) =>
      var limit := now - SCHEDULING_WINDOW;
      State(Newer(s.steps, limit), s.seconds - Sum(Older(s.steps, limit)), s.overwritten)
  }

  function After(ops: seq<Op>): State {
    if ops == [] then State([], 0, 0) else Step(After(ops[..|ops| - 1]), ops[|ops| - 1])
  }

  /** No start time is used twice. */
  predicate DistinctStarts(ops: seq<Op>) {
    forall i, j :: 0 <= i < j < |ops| && ops[i].Add? && ops[j].Add? ==> ops[i].start != ops[j].start
  }

  ghost predicate Added(ops: seq<Op>, x: Entry) {
    exists i :: 0 <= i < |ops| && ops[i] == Add(x.start, x.duration)
  }

  predicate Accounted(s: State) {
    Increasing(s.steps) && s.seconds == Sum(s.steps) + s.overwritten
  }

  lemma AddAccounted(s: State, t: int, d: int)
    requires Accounted(s)
    ensures Accounted(Step(s, Add(t, d)))
  {
    PutSum(s.steps, Entry(t, d));
    PutIsMap(s.steps, Entry(t, d), Entry(t, d));
  }

  lemma EndIncreasing(v: Window, w: Window)
    requires Increasing(v + w)
    ensures Increasing(w)
  {
    forall i, j | 0 <= i < j < |w| ensures w[i].start < w[j].start {
      assert (v + w)[|v| + i] == w[i] && (v + w)[|v| + j] == w[j];
    }
  }

  lemma PruneAccounted(s: State, now: int)
    requires Accounted(s)
    ensures Accounted(Step(s, Prune(now)))
  {
    var limit := now - SCHEDULING_WINDOW;
    Split(s.steps, limit);
    SumConcat(Older(s.steps, limit), Newer(s.steps, limit));
    EndIncreasing(Older(s.steps, limit), Newer(s.steps, limit));
  }

  /** After any history the counter is the sum of the window and the overwritten
      durations. */
  lemma {:induction false} SecondsAccounted(ops: seq<Op>)
    ensures Accounted(After(ops))
  {
    if ops != [] {
      var init, op := ops[..|ops| - 1], ops[|ops| - 1];
      SecondsAccounted(init);
      match op
      case Add(t, d) => AddAccounted(After(init), t, d);
      case Prune(now) => PruneAccounted(After(init), now);
    }
  }

  lemma {:induction false} OnlyAdded(ops: seq<Op>, x: Entry)
    requires x in After(ops).steps
    ensures Added(ops, x)
  {
    var init, op := ops[..|ops| - 1], ops[|ops| - 1];
    SecondsAccounted(init);
    if op.Add? {
      PutIsMap(After(init).steps, Entry(op.start, op.duration), x);
    }
    if op.Prune? {
      NewerMembers(After(init).steps, op.now - SCHEDULING_WINDOW, x);
    }
    if op == Add(x.start, x.duration) {
      assert ops[|ops| - 1] == op;
    } else {
      OnlyAdded(init, x);
      var i :| 0 <= i < |init| && init[i] == Add(x.start, x.duration);
      assert ops[i] == init[i];
    }
  }

  lemma NewStart(ops: seq<Op>, start: int)
    requires forall i :: 0 <= i < |ops| && ops[i].Add? ==> ops[i].start != start
    ensures Replaced(After(ops).steps, start) == 0
  {
    var w := After(ops).steps;
    forall i | 0 <= i < |w| ensures w[i].start != start {
      OnlyAdded(ops, w[i]);
    }
    NothingReplaced(w, start);
  }

  /** With distinct start times nothing is overwritten, so by `SecondsAccounted` the
      counter is the sum of the window. */
  lemma {:induction false} SecondsExact(ops: seq<Op>)
    requires DistinctStarts(ops)
    ensures After(ops).overwritten == 0
    ensures After(ops).seconds == Sum(After(ops).steps)
  {
    SecondsAccounted(ops);
    if ops != [] {
      var init, op := ops[..|ops| - 1], ops[|ops| - 1];
      SecondsExact(init);
      if op.Add? {
        NewStart(init, op.start);
      }
    }
  }
}
