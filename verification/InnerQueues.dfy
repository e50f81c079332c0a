/**
 The queues of all systems and the map that owns their step infos: submitting
 newly runnable steps.
 */
module InnerQueues {
  import opened StableSorting
  import opened BuildQueue

  type System = string

  /** A new step info and whether its step is finished by now. */
  datatype Offer = Offer(id: InfoId, info: Info, finished: bool)

  predicate Takes(jobs: map<Path, InfoId>, o: Offer) { o.info.path !in jobs && !o.finished }

  /** The owning map, the live infos and the submitted entries after some offers. */
  datatype Intake = Intake(jobs: map<Path, InfoId>, infos: map<InfoId, Info>, submitted: seq<InfoId>)

  function Take(n: Intake, o: Offer): Intake {
    if Takes(n.jobs, o)
    then Intake(n.jobs[o.info.path := o.id], n.infos[o.id := o.info], n.submitted + [o.id])
    else n
  }

  function TakeAll(n: Intake, offers: seq<Offer>): Intake {
    if offers == [] then n else Take(TakeAll(n, offers[..|offers| - 1]), offers[|offers| - 1])
  }

  /** New infos are new objects, which no entry points at yet. */
  predicate NewInfos(infos: map<InfoId, Info>, entries: seq<InfoId>, offers: seq<Offer>) {
    && (forall k :: 0 <= k < |offers| ==> offers[k].id !in infos && offers[k].id !in entries)
    && (forall k, l :: 0 <= k < l < |offers| ==> offers[k].id != offers[l].id)
  }

  /** Owned infos can be followed, each under its own path. Others may be followed too:
      those that a task or the dispatch loop still holds. */
  predicate OwnersOk(jobs: map<Path, InfoId>, infos: map<InfoId, Info>) {
    forall p :: p in jobs ==> jobs[p] in infos && infos[jobs[p]].path == p
  }

  ghost predicate Offered(offers: seq<Offer>, p: Path) {
    exists k :: 0 <= k < |offers| && offers[k].info.path == p && !offers[k].finished
  }

  ghost predicate OfferedAs(offers: seq<Offer>, p: Path, i: InfoId) {
    exists k :: 0 <= k < |offers| && offers[k].info.path == p && !offers[k].finished && offers[k].id == i
  }

  /** Afterwards exactly the old paths and the offered unfinished ones are owned;
      old owners stay, and a new owner is one of the offers for its path. */
  lemma {:induction false} TakeAllOwners(n: Intake, offers: seq<Offer>)
    ensures var t := TakeAll(n, offers);
      && (forall p :: p in t.jobs <==> p in n.jobs || Offered(offers, p))
      && (forall p :: p in n.jobs ==> t.jobs[p] == n.jobs[p])
      && (forall p :: p in t.jobs && p !in n.jobs ==> OfferedAs(offers, p, t.jobs[p]))
    decreases |offers|
  {
    if offers != [] {
      var init, o := offers[..|offers| - 1], offers[|offers| - 1];
      TakeAllOwners(n, init);
      assert forall p :: Offered(offers, p) <==> Offered(init, p) || (p == o.info.path && !o.finished);
      assert forall p, i :: OfferedAs(init, p, i) ==> OfferedAs(offers, p, i);
      var t := TakeAll(n, offers);
      forall p | p in t.jobs && p !in n.jobs ensures OfferedAs(offers, p, t.jobs[p]) {
        if p == o.info.path && Takes(TakeAll(n, init).jobs, o) {
          assert offers[|offers| - 1].id == t.jobs[p];
        }
      }
    }
  }

  /** Submitted infos are alive and new, each the owner of its path, which was not owned
      before. */
  ghost predicate IntakeOk(n: Intake, t: Intake) {
    && OwnersOk(t.jobs, t.infos)
    && (forall i :: i in n.infos ==> i in t.infos && t.infos[i] == n.infos[i])
    && (forall p :: p in n.jobs ==> p in t.jobs && t.jobs[p] == n.jobs[p])
    && (forall x :: x in t.submitted ==>
          x in t.infos && x !in n.infos && t.infos[x].path in t.jobs && t.jobs[t.infos[x].path] == x)
    && (forall k, l :: 0 <= k < l < |t.submitted| ==> t.submitted[k] != t.submitted[l])
  }

  lemma {:induction false} TakeAllOk(n: Intake, offers: seq<Offer>, entries: seq<InfoId>)
    requires n.submitted == [] && OwnersOk(n.jobs, n.infos) && NewInfos(n.infos, entries, offers)
    ensures IntakeOk(n, TakeAll(n, offers))
    ensures forall i :: i in TakeAll(n, offers).infos && i !in n.infos ==>
      exists k :: 0 <= k < |offers| && offers[k].id == i
    decreases |offers|
  {
    if offers != [] {
      var init, o := offers[..|offers| - 1], offers[|offers| - 1];
      TakeAllOk(n, init, entries);
      var t, u := TakeAll(n, init), TakeAll(n, offers);
      assert forall k :: 0 <= k < |init| ==> init[k] == offers[k];
      assert o.id !in t.infos;
      if Takes(t.jobs, o) {
        TakeOk(n, t, o);
        assert offers[|offers| - 1].id == o.id;
      }
    }
  }

  lemma TakeOk(n: Intake, t: Intake, o: Offer)
    requires IntakeOk(n, t) && Takes(t.jobs, o) && o.id !in t.infos && o.id !in n.infos
    ensures IntakeOk(n, Take(t, o))
  {
  }

  /** The queue's second look skips a submitted info exactly if an entry of its path that
      was there before can still be followed. As the path was not owned, that entry's info
      is held by a task, and the path ends up owned by an info that is in no queue. */
  lemma {:induction false} SkippedExactly(n: Intake, t: Intake, present: seq<InfoId>, k: nat)
    requires IntakeOk(n, t) && k <= |t.submitted|
    ensures forall x :: x in Accepted(t.infos, present, t.submitted[..k]) <==>
              x in t.submitted[..k] && !HasPath(t.infos, present, t.infos[x].path)
  {
    if k == 0 {
      assert t.submitted[..0] == [];
    } else {
      SkippedExactly(n, t, present, k - 1);
      var init, x := t.submitted[..k - 1], t.submitted[k - 1];
      assert t.submitted[..k] == init + [x];
      AcceptedEnd(t.infos, present, init, x);
      SecondLook(n, t, present, k - 1, Accepted(t.infos, present, init), x);
    }
  }

  /** What was accepted before has other paths. */
  lemma SecondLook(n: Intake, t: Intake, present: seq<InfoId>, k: nat, a: seq<InfoId>, x: InfoId)
    requires IntakeOk(n, t) && k < |t.submitted| && x == t.submitted[k]
    requires forall y :: y in a ==> y in t.submitted[..k]
    ensures HasPath(t.infos, present + a, t.infos[x].path) <==> HasPath(t.infos, present, t.infos[x].path)
  {
    HasPathMore(t.infos, present, a, t.infos[x].path);
    forall l | 0 <= l < |a| && a[l] in t.infos ensures t.infos[a[l]].path != t.infos[x].path {
      assert a[l] in t.submitted[..k];
      var j :| 0 <= j < k && t.submitted[j] == a[l];
      assert a[l] in t.submitted && x in t.submitted;
    }
  }

  class Inner {
    var jobs: map<Path, InfoId>
    var inner: map<System, Queue>
    const table: InfoTable

    constructor ()
      ensures jobs == map[] && inner == map[] && fresh(table) && table.infos == map[]
    {
      jobs, inner := map[], map[];
      table := new InfoTable();
    }

    ghost function Entries(system: System): (r: seq<InfoId>)
      reads this, inner.Values
    {
      if system in inner then inner[system].jobs else []
    }

    method TakeOffers(offers: seq<Offer>) returns (submitted: seq<InfoId>)
      modifies this`jobs, table
      ensures Intake(jobs, table.infos, submitted) == TakeAll(Intake(old(jobs), old(table.infos), []), offers)
    {
      submitted := [];
      ghost var n := Intake(jobs, table.infos, []);
      for k := 0 to |offers|
        invariant Intake(jobs, table.infos, submitted) == TakeAll(n, offers[..k])
      {
        assert offers[..k + 1][..k] == offers[..k];
        var o := offers[k];
        if o.info.path !in jobs && !o.finished {
          jobs := jobs[o.info.path := o.id];
          table.infos := table.infos[o.id := o.info];
          submitted := submitted + [o.id];
        }
      }
      assert offers[..|offers|] == offers;
    }

    /** Every offered unfinished step whose path is not owned becomes owned. It ends up in
        the queue of the system, next to exactly the entries of before that can be followed,
        unless one of these has its path. */
    method InsertNewJobs(system: System, offers: seq<Offer>, fn: SortFn)
      requires OwnersOk(jobs, table.infos)
      requires NewInfos(table.infos, Entries(system), offers)
      modifies this, table, if system in inner then {inner[system]} else {}
      ensures system in inner && (forall y :: y in old(inner) ==> y in inner && inner[y] == old(inner)[y])
      ensures inner.Keys == old(inner).Keys + {system} && (system !in old(inner) ==> fresh(inner[system]))
      ensures var t := TakeAll(Intake(old(jobs), old(table.infos), []), offers);
        && jobs == t.jobs
        && Inserted(fn, t.infos, old(Entries(system)), t.submitted, table.infos, inner[system].jobs)
        && AcceptedExactly(t.infos, old(Entries(system)), t.submitted)
      ensures inner[system].totalRunnable == |inner[system].jobs|
      ensures OwnersOk(jobs, table.infos)
    {
      ghost var n, present := Intake(jobs, table.infos, []), Entries(system);
      var submitted := TakeOffers(offers);
      if system !in inner {
        var q := new Queue();
        inner := inner[system := q];
      }
      inner[system].InsertNewJobs(table, submitted, fn);
      SubmitsAll(fn, n, offers, present, table.infos, inner[system].jobs);
    }
  }

  /** Of the submitted infos exactly those are accepted whose path no present entry has. */
  ghost predicate AcceptedExactly(infos: map<InfoId, Info>, present: seq<InfoId>, submitted: seq<InfoId>) {
    forall x :: x in submitted ==>
      x in infos && (x in Accepted(infos, present, submitted) <==> !HasPath(infos, present, infos[x].path))
  }

  lemma SubmitsAll(
      fn: SortFn, n: Intake, offers: seq<Offer>, present: seq<InfoId>, infos: map<InfoId, Info>, entries: seq<InfoId>)
    requires n.submitted == [] && OwnersOk(n.jobs, n.infos) && NewInfos(n.infos, present, offers)
    requires Inserted(fn, TakeAll(n, offers).infos, present, TakeAll(n, offers).submitted, infos, entries)
    ensures var t := TakeAll(n, offers); AcceptedExactly(t.infos, present, t.submitted) && OwnersOk(t.jobs, infos)
  {
    var t := TakeAll(n, offers);
    TakeAllOk(n, offers, present);
    SkippedExactly(n, t, present, |t.submitted|);
    assert t.submitted[..|t.submitted|] == t.submitted;
  }
}
