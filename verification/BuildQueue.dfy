/**
 One queue of a system: the order of its entries, and what insertion, scrubbing
 and sorting leave in it.

 An entry is a weak pointer to a step info; it can be followed while `infos`
 has it. Everything here happens while the queue's lock is held.
 */
module BuildQueue {
  import opened StableSorting

  type Path = string
  type InfoId = nat

  datatype Ordering = Less | Equal | Greater {
    function Reverse(): Ordering {
      match this case Less => Greater case Equal => Equal case Greater => Less
    }
  }

  /** What a step info and its step show: `share` is the copy kept in the info,
      `jobsets` what the step's jobsets use at the moment. */
  datatype Info = Info(
    path: Path, global: int, share: real, jobsets: seq<real>, rdeps: nat, local: int, lowestBuild: int)

  datatype SortFn = Legacy | WithRdeps

  const NO_JOBSETS := 1_000_000_000.0

  // ---- comparing ----

  function CmpInt(a: int, b: int): Ordering {
    if a < b then Less else if a == b then Equal else Greater
  }

  function CmpShare(a: real, b: real): Ordering {
    if a < b then Less else if a == b then Equal else Greater
  }

  function LegacyCompare(a: Info, b: Info): Ordering {
    (if CmpInt(a.global, b.global) != Equal then CmpInt(a.global, b.global)
     else if CmpShare(b.share, a.share) != Equal then CmpShare(b.share, a.share)
     else if CmpInt(a.local, b.local) != Equal then CmpInt(a.local, b.local)
     else CmpInt(b.lowestBuild, a.lowestBuild)).Reverse()
  }

  function CompareWithRdeps(a: Info, b: Info): Ordering {
    (if CmpInt(a.global, b.global) != Equal then CmpInt(a.global, b.global)
     else if CmpShare(b.share, a.share) != Equal then CmpShare(b.share, a.share)
     else if CmpInt(a.rdeps, b.rdeps) != Equal then CmpInt(a.rdeps, b.rdeps)
     else if CmpInt(a.local, b.local) != Equal then CmpInt(a.local, b.local)
     else CmpInt(b.lowestBuild, a.lowestBuild)).Reverse()
  }

  function CompareInfo(fn: SortFn, a: Info, b: Info): Ordering {
    match fn case Legacy => LegacyCompare(a, b) case WithRdeps => CompareWithRdeps(a, b)
  }

  /** The comparison of two entries; one that cannot be followed comes first. */
  function Compare(fn: SortFn, infos: map<InfoId, Info>, a: InfoId, b: InfoId): Ordering {
    if a in infos && b in infos then CompareInfo(fn, infos[a], infos[b])
    else if a in infos then Greater
    else if b in infos then Less
    else Equal
  }

  function AtMost(fn: SortFn, infos: map<InfoId, Info>): (InfoId, InfoId) -> bool {
    (a: InfoId, b: InfoId) => Compare(fn, infos, a, b) != Greater
  }

  /** Exchanging the arguments turns the answer round, equality is a congruence,
      and `at most` is transitive, for both comparators and with dead entries. */
  lemma CompareLaws(fn: SortFn, infos: map<InfoId, Info>, a: InfoId, b: InfoId, c: InfoId)
    ensures Compare(fn, infos, a, a) == Equal
    ensures Compare(fn, infos, b, a) == Compare(fn, infos, a, b).Reverse()
    ensures AtMost(fn, infos)(a, b) && AtMost(fn, infos)(b, c) ==> AtMost(fn, infos)(a, c)
    ensures Compare(fn, infos, a, b) == Equal ==> Compare(fn, infos, a, c) == Compare(fn, infos, b, c)
  {
  }

  lemma ComparatorsArePreorders(fn: SortFn, infos: map<InfoId, Info>)
    ensures TotalPreorder(AtMost(fn, infos))
  {
    var le := AtMost(fn, infos);
    forall a, b ensures le(a, b) || le(b, a) {
      CompareLaws(fn, infos, a, b, a);
    }
    forall a, b, c ensures le(a, b) && le(b, c) ==> le(a, c) {
      CompareLaws(fn, infos, a, b, c);
    }
  }

  /** Which of two live entries goes first: higher global priority, then less used
      share, then (for one comparator) more dependents, then higher local priority,
      then the older build. */
  predicate GoesFirst(fn: SortFn, a: Info, b: Info) {
    || a.global > b.global
    || (a.global == b.global && a.share < b.share)
    || (a.global == b.global && a.share == b.share && fn.WithRdeps? && a.rdeps > b.rdeps)
    || (a.global == b.global && a.share == b.share && (fn.Legacy? || a.rdeps == b.rdeps)
        && (a.local > b.local || (a.local == b.local && a.lowestBuild < b.lowestBuild)))
  }

  lemma LessGoesFirst(fn: SortFn, a: Info, b: Info)
    ensures CompareInfo(fn, a, b) == Less <==> GoesFirst(fn, a, b)
    ensures CompareInfo(fn, a, b) == Greater <==> GoesFirst(fn, b, a)
  {
  }

  // ---- refreshing ----

  /** The least used share among the jobsets of a step. */
  function LowestShare(shares: seq<real>): (r: real)
    ensures shares == [] ==> r == NO_JOBSETS
    ensures shares != [] ==> r in shares && forall x :: x in shares ==> r <= x
  {
    if shares == [] then NO_JOBSETS
    else if |shares| == 1 then shares[0]
    else
      assert shares == [shares[0]] + shares[1..];
      var m := LowestShare(shares[1..]);
      if m < shares[0] then m else shares[0]
  }

  function Refresh(f: Info): Info { f.(share := LowestShare(f.jobsets)) }

  function RefreshAll(infos: map<InfoId, Info>, entries: seq<InfoId>): map<InfoId, Info> {
    map i | i in infos :: if i in entries then Refresh(infos[i]) else infos[i]
  }

  /** What a refresh leaves: only the share of an entry changes, to the least that its
      jobsets use. */
  ghost predicate Refreshed(was: map<InfoId, Info>, entries: seq<InfoId>, infos: map<InfoId, Info>) {
    && infos.Keys == was.Keys
    && (forall i :: i in was ==>
          && infos[i].path == was[i].path && infos[i].global == was[i].global && infos[i].jobsets == was[i].jobsets
          && infos[i].rdeps == was[i].rdeps && infos[i].local == was[i].local
          && infos[i].lowestBuild == was[i].lowestBuild)
    && (forall i :: i in was && i !in entries ==> infos[i].share == was[i].share)
    && (forall i :: i in was && i in entries ==>
          && (was[i].jobsets == [] ==> infos[i].share == 1_000_000_000.0)
          && (was[i].jobsets != [] ==> infos[i].share in was[i].jobsets)
          && forall x :: x in was[i].jobsets ==> infos[i].share <= x)
  }

  lemma RefreshedSorted(was: map<InfoId, Info>, s: seq<InfoId>, t: seq<InfoId>, infos: map<InfoId, Info>)
    requires Refreshed(was, s, infos) && multiset(s) == multiset(t)
    ensures Refreshed(was, t, infos)
  {
    forall i ensures i in s <==> i in t { assert i in multiset(s) <==> i in multiset(t); }
  }

  // ---- the contents ----

  function Live(infos: map<InfoId, Info>, s: seq<InfoId>): (r: seq<InfoId>)
    ensures forall i :: i in r <==> i in s && i in infos
  {
    if s == [] then []
    else (if s[0] in infos then [s[0]] else []) + Live(infos, s[1..])
  }

  predicate HasPath(infos: map<InfoId, Info>, s: seq<InfoId>, p: Path) {
    exists k :: 0 <= k < |s| && s[k] in infos && infos[s[k]].path == p
  }

  /** The new entries that are taken: alive, and of a path no live entry has yet. */
  function Accepted(infos: map<InfoId, Info>, present: seq<InfoId>, offered: seq<InfoId>): seq<InfoId>
    decreases |offered|
  {
    if offered == [] then []
    else if offered[0] in infos && !HasPath(infos, present, infos[offered[0]].path)
    then [offered[0]] + Accepted(infos, present + [offered[0]], offered[1..])
    else Accepted(infos, present, offered[1..])
  }

  /** At most one live entry per path. */
  predicate OnePerPath(infos: map<InfoId, Info>, s: seq<InfoId>) {
    forall i, j :: 0 <= i < j < |s| && s[i] in infos && s[j] in infos ==> infos[s[i]].path != infos[s[j]].path
  }

  lemma {:induction false} LiveConcat(infos: map<InfoId, Info>, s: seq<InfoId>, t: seq<InfoId>)
    ensures Live(infos, s + t) == Live(infos, s) + Live(infos, t)
  {
    if s == [] {
      assert s + t == t;
    } else {
      assert (s + t)[1..] == s[1..] + t;
      LiveConcat(infos, s[1..], t);
    }
  }

  lemma {:induction false} LiveSame(infos: map<InfoId, Info>, s: seq<InfoId>)
    requires forall i :: i in s ==> i in infos
    ensures Live(infos, s) == s
  {
    if s != [] {
      LiveSame(infos, s[1..]);
    }
  }

  /** Live entries keep their order, so there is still one per path. */
  lemma {:induction false} LiveOnePerPath(infos: map<InfoId, Info>, s: seq<InfoId>)
    requires OnePerPath(infos, s)
    ensures OnePerPath(infos, Live(infos, s))
  {
    if s != [] {
      LiveOnePerPath(infos, s[1..]);
      var t := Live(infos, s[1..]);
      forall j | 0 <= j < |t| && s[0] in infos ensures infos[t[j]].path != infos[s[0]].path {
        assert t[j] in s[1..];
      }
    }
  }

  lemma HasPathMore(infos: map<InfoId, Info>, s: seq<InfoId>, t: seq<InfoId>, p: Path)
    ensures HasPath(infos, s + t, p) <==> HasPath(infos, s, p) || HasPath(infos, t, p)
  {
    if k :| 0 <= k < |s| && s[k] in infos && infos[s[k]].path == p {
      assert (s + t)[k] == s[k];
    }
    if k :| 0 <= k < |t| && t[k] in infos && infos[t[k]].path == p {
      assert (s + t)[|s| + k] == t[k];
    }
  }

  lemma HasPathOf(infos: map<InfoId, Info>, s: seq<InfoId>, i: InfoId)
    requires i in s && i in infos
    ensures HasPath(infos, s, infos[i].path)
  {
  }

  /** What is taken is offered, alive and new; together with what was there, every
      offered live path is present, and no path twice. */
  ghost predicate Completes(infos: map<InfoId, Info>, present: seq<InfoId>, offered: seq<InfoId>, a: seq<InfoId>) {
    && (forall i :: i in a ==> i in offered && i in infos && !HasPath(infos, present, infos[i].path))
    && (forall i :: i in offered && i in infos ==> HasPath(infos, present + a, infos[i].path))
    && (OnePerPath(infos, present) ==> OnePerPath(infos, present + a))
  }

  lemma {:induction false} AcceptedCompletes(infos: map<InfoId, Info>, present: seq<InfoId>, offered: seq<InfoId>)
    ensures Completes(infos, present, offered, Accepted(infos, present, offered))
    decreases |offered|
  {
    if offered == [] {
      assert present + [] == present;
    } else if offered[0] in infos && !HasPath(infos, present, infos[offered[0]].path) {
      AcceptedCompletes(infos, present + [offered[0]], offered[1..]);
      TakenCompletes(infos, present, offered, Accepted(infos, present + [offered[0]], offered[1..]));
    } else {
      AcceptedCompletes(infos, present, offered[1..]);
      SkippedCompletes(infos, present, offered, Accepted(infos, present, offered[1..]));
    }
  }

  lemma TakenCompletes(infos: map<InfoId, Info>, present: seq<InfoId>, offered: seq<InfoId>, a: seq<InfoId>)
    requires offered != [] && offered[0] in infos && !HasPath(infos, present, infos[offered[0]].path)
    requires Completes(infos, present + [offered[0]], offered[1..], a)
    ensures Completes(infos, present, offered, [offered[0]] + a)
  {
    var x := offered[0];
    assert present + [x] + a == present + ([x] + a);
    forall i | i in [x] + a ensures i in offered && i in infos && !HasPath(infos, present, infos[i].path) {
      if i != x {
        assert i in a;
        HasPathMore(infos, present, [x], infos[i].path);
      }
    }
    forall i | i in offered && i in infos ensures HasPath(infos, present + ([x] + a), infos[i].path) {
      if i == x {
        HasPathOf(infos, present + ([x] + a), x);
      }
    }
  }

  lemma SkippedCompletes(infos: map<InfoId, Info>, present: seq<InfoId>, offered: seq<InfoId>, a: seq<InfoId>)
    requires offered != [] && (offered[0] in infos ==> HasPath(infos, present, infos[offered[0]].path))
    requires Completes(infos, present, offered[1..], a)
    ensures Completes(infos, present, offered, a)
  {
    forall i | i in offered && i in infos ensures HasPath(infos, present + a, infos[i].path) {
      HasPathMore(infos, present, a, infos[i].path);
    }
  }

  lemma {:induction false} AcceptedEnd(infos: map<InfoId, Info>, present: seq<InfoId>, offered: seq<InfoId>, x: InfoId)
    ensures Accepted(infos, present, offered + [x])
         == Accepted(infos, present, offered)
            + if x in infos && !HasPath(infos, present + Accepted(infos, present, offered), infos[x].path)
              then [x] else []
    decreases |offered|
  {
    if offered == [] {
      assert [] + [x] == [x] && present + [] == present;
      assert [x][1..] == [];
    } else {
      assert (offered + [x])[1..] == offered[1..] + [x];
      if offered[0] in infos && !HasPath(infos, present, infos[offered[0]].path) {
        AcceptedEnd(infos, present + [offered[0]], offered[1..], x);
        var a := Accepted(infos, present + [offered[0]], offered[1..]);
        assert present + [offered[0]] + a == present + ([offered[0]] + a);
      } else {
        AcceptedEnd(infos, present, offered[1..], x);
      }
    }
  }

  /** Sorting moves entries without changing which paths are there. */
  lemma PermutedOnePerPath(infos: map<InfoId, Info>, s: seq<InfoId>, t: seq<InfoId>)
    requires OnePerPath(infos, s) && multiset(t) == multiset(s)
    requires forall i :: i in s ==> i in infos
    ensures OnePerPath(infos, t)
  {
    forall i, j | 0 <= i < j < |t| && t[i] in infos && t[j] in infos ensures infos[t[i]].path != infos[t[j]].path {
      NotTwice(infos, s, t[i]);
      NotTwicePlaces(t, i, j);
      assert t[i] in multiset(s) && t[j] in multiset(s);
      var k :| 0 <= k < |s| && s[k] == t[i];
      var l :| 0 <= l < |s| && s[l] == t[j];
      assert k != l;
    }
  }

  lemma {:induction false} NotTwice(infos: map<InfoId, Info>, s: seq<InfoId>, x: InfoId)
    requires OnePerPath(infos, s) && x in infos
    ensures multiset(s)[x] <= 1
  {
    if s != [] {
      assert s == [s[0]] + s[1..];
      NotTwice(infos, s[1..], x);
      assert s[0] == x ==> x !in s[1..];
    }
  }

  lemma NotTwicePlaces(s: seq<InfoId>, i: nat, j: nat)
    requires i < j < |s| && multiset(s)[s[i]] <= 1
    ensures s[i] != s[j]
  {
    assert s == s[..j] + s[j..];
    assert s[j..] == [s[j]] + s[j + 1..];
    assert s[i] in s[..j];
    assert multiset(s) == multiset(s[..j]) + multiset(s[j..]);
  }

  // ---- the queue ----

  /** The step infos that someone owns. */
  class InfoTable {
    var infos: map<InfoId, Info>

    constructor ()
      ensures infos == map[]
    {
      infos := map[];
    }
  }

  class Queue {
    var jobs: seq<InfoId>
    var totalRunnable: nat

    constructor ()
      ensures jobs == [] && totalRunnable == 0
    {
      jobs, totalRunnable := [], 0;
    }

    /** Only entries that can be followed stay. */
    method ScrubeJobs(table: InfoTable)
      modifies this
      ensures jobs == Live(table.infos, old(jobs)) && totalRunnable == |jobs|
    {
      var kept := [];
      for k := 0 to |jobs|
        invariant jobs == old(jobs)
        invariant kept == Live(table.infos, jobs[..k])
      {
        assert jobs[..k + 1] == jobs[..k] + [jobs[k]];
        LiveConcat(table.infos, jobs[..k], [jobs[k]]);
        if jobs[k] in table.infos {
          kept := kept + [jobs[k]];
        }
      }
      assert jobs[..|jobs|] == jobs;
      jobs := kept;
      totalRunnable := |jobs|;
    }

    /** Refreshes the shares of all live entries, then sorts. */
    method SortJobs(table: InfoTable, fn: SortFn)
      modifies this`jobs, table
      ensures table.infos == RefreshAll(old(table.infos), old(jobs))
      ensures Refreshed(old(table.infos), old(jobs), table.infos)
      ensures StableSort(AtMost(fn, table.infos), old(jobs), jobs)
    {
      for k := 0 to |jobs|
        invariant jobs == old(jobs)
        invariant table.infos == RefreshAll(old(table.infos), jobs[..k])
      {
        assert jobs[..k + 1] == jobs[..k] + [jobs[k]];
        if jobs[k] in table.infos {
          table.infos := table.infos[jobs[k] := Refresh(table.infos[jobs[k]])];
        }
      }
      assert jobs[..|jobs|] == jobs;
      ComparatorsArePreorders(fn, table.infos);
      SortByStable(AtMost(fn, table.infos), jobs);
      jobs := SortBy(AtMost(fn, table.infos), jobs);
    }

    method PushNewJobs(table: InfoTable, offered: seq<InfoId>)
      modifies this`jobs
      ensures jobs == old(jobs) + Accepted(table.infos, old(jobs), offered)
    {
      ghost var infos, present := table.infos, jobs;
      for k := 0 to |offered|
        invariant jobs == present + Accepted(infos, present, offered[..k])
      {
        assert offered[..k + 1] == offered[..k] + [offered[k]];
        AcceptedEnd(infos, present, offered[..k], offered[k]);
        var x := offered[k];
        if x in table.infos && !HasPath(table.infos, jobs, table.infos[x].path) {
          jobs := jobs + [x];
        }
      }
      assert offered[..|offered|] == offered;
    }

    method InsertNewJobs(table: InfoTable, offered: seq<InfoId>, fn: SortFn)
      modifies this, table
      ensures Inserted(fn, old(table.infos), old(jobs), offered, table.infos, jobs)
      ensures Refreshed(old(table.infos), jobs, table.infos) && totalRunnable == |jobs|
    {
      ghost var was, present := table.infos, jobs;
      PushNewJobs(table, offered);
      ScrubeJobs(table);
      ghost var contents := jobs;
      SortJobs(table, fn);
      InsertedSorted(fn, was, present, offered, contents, table.infos, jobs);
      RefreshedSorted(was, contents, jobs, table.infos);
    }
  }

  /** The live entries that were there and the accepted new ones, and no others,
      sorted by the chosen comparator over refreshed shares; still at most one per
      path if that was so before. */
  ghost predicate Inserted(
      fn: SortFn, was: map<InfoId, Info>, present: seq<InfoId>, offered: seq<InfoId>,
      infos: map<InfoId, Info>, jobs: seq<InfoId>) {
    var contents := Live(was, present) + Accepted(was, present, offered);
    && infos == RefreshAll(was, contents)
    && StableSort(AtMost(fn, infos), contents, jobs)
    && (forall i :: i in jobs ==> i in infos && infos[i].share == LowestShare(infos[i].jobsets))
    && (OnePerPath(was, present) ==> OnePerPath(infos, jobs))
  }

  lemma InsertedContents(infos: map<InfoId, Info>, present: seq<InfoId>, offered: seq<InfoId>)
    ensures var a := Accepted(infos, present, offered);
      && Live(infos, present + a) == Live(infos, present) + a
      && (OnePerPath(infos, present) ==> OnePerPath(infos, Live(infos, present + a)))
  {
    var a := Accepted(infos, present, offered);
    AcceptedCompletes(infos, present, offered);
    LiveConcat(infos, present, a);
    LiveSame(infos, a);
    if OnePerPath(infos, present) {
      LiveOnePerPath(infos, present + a);
    }
  }

  lemma InsertedSorted(
      fn: SortFn, was: map<InfoId, Info>, present: seq<InfoId>, offered: seq<InfoId>, contents: seq<InfoId>,
      infos: map<InfoId, Info>, jobs: seq<InfoId>)
    requires contents == Live(was, present + Accepted(was, present, offered))
    requires infos == RefreshAll(was, contents) && StableSort(AtMost(fn, infos), contents, jobs)
    ensures Inserted(fn, was, present, offered, infos, jobs) && |jobs| == |contents|
  {
    assert |multiset(jobs)| == |multiset(contents)|;
    forall i | i in jobs ensures i in contents {
      assert i in multiset(contents);
    }
    InsertedContents(was, present, offered);
    if OnePerPath(was, present) {
      assert OnePerPath(infos, contents);
      PermutedOnePerPath(infos, contents, jobs);
    }
  }
}
