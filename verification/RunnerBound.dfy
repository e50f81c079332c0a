/**
 For every number of tries, a run in which a step is sent out once more than the bound
 allows: all its tries fail, the last one for good, and while its dependents are still to
 be failed it is sent out again.
 */
module RunnerBound {
  import opened StepGraph
  import opened Scheduling
  import opened SchedulingInvariant
  import opened Runner
  import opened RunnerInvariant
  import opened RunnerTheorems
  import opened RunnerRetries
  import opened RunnerScenarios

  function Zeros(k: nat): seq<int> { if k == 0 then [] else Zeros(k - 1) + [0] }

  lemma {:induction false} ZerosSize(k: nat)
    ensures |Zeros(k)| == k
  {
    if k > 0 { ZerosSize(k - 1); }
  }

  function Ids(k: nat): set<Uuid> { if k == 0 then {} else Ids(k - 1) + {k - 1} }

  function History(k: nat): map<StepId, seq<int>> { if k == 0 then map[] else map[0 := Zeros(k)] }

  /** The step waits in its queue after `k` failures. */
  function Waiting(k: nat): Sched {
    S3.(used := Ids(k), starts := History(k), fails := History(k),
        tries := if k == 0 then map[] else map[0 := k], after := if k == 0 then map[] else map[0 := 0])
  }

  function Taken(k: nat): Sched { Waiting(k).(dispatcher := Chosen(0, 0)) }

  function Flying(k: nat): Sched {
    Waiting(k).(dispatcher := Sent(0, 0, k), machines := map[0 := Machine(1, [Job(k, "a")], 1)],
                used := Ids(k + 1), starts := map[0 := Zeros(k + 1)])
  }

  function Busy(k: nat): Sched {
    Flying(k).(dispatcher := IDLE, scheduled := map["a" := Item(0, "linux", 0)], infos := map[0 := BUSY],
            queues := map["linux" := Queue([0], 1)])
  }

  function Reported(k: nat): Sched { Busy(k).(calls := map[0 := Call("a", PreparingFailure)]) }

  function Retried(k: nat): Sched { Waiting(k + 1).(tasks := map[0 := Retrying(0)]) }

  /** The last try failed as well. */
  function Lost(k: nat): Sched {
    Waiting(k + 1).(after := Waiting(k).after, tasks := map[0 := Failing(0, false, false)], doomed := {0})
  }

  function Gone(k: nat): Sched { Lost(k).(tasks := map[0 := Failing(0, true, false)], jobs := map[]) }

  lemma {:induction false} IdsBelow(k: nat)
    ensures forall u :: u in Ids(k) ==> u < k
  {
    if k > 0 { IdsBelow(k - 1); }
  }

  // ---- one try ----

  lemma TakesUp(n: nat, k: nat)
    requires Reachable(C(n), World(G, Waiting(k)))
    ensures Reachable(C(n), World(G, Taken(k)))
  {
    assert Waiting(k).queues["linux"].entries[0] == 0;
    ThenPick(C(n), World(G, Waiting(k)), 0, 0, 0, 0);
  }

  lemma SendsTry(k: nat)
    ensures CanSend(Taken(k), k, 0) && SendOut(Taken(k), k, 0) == Flying(k)
  {
    var a := Job(k, "a");
    IdsBelow(k);
    assert [] + [a] == [a] && Starts(Taken(k), 0) + [0] == Zeros(k + 1);
    assert map[0 := EMPTY][0 := Machine(1, [a], 1)] == map[0 := Machine(1, [a], 1)];
    assert History(k)[0 := Zeros(k + 1)] == map[0 := Zeros(k + 1)];
    assert SendOut(Taken(k), k, 0).machines == map[0 := Machine(1, [a], 1)];
  }

  lemma RecordsTry(k: nat)
    ensures CanSchedule(Flying(k)) && DoSchedule(Flying(k)) == Busy(k)
  {
    assert map[0 := INFO][0 := BUSY] == map[0 := BUSY];
  }

  lemma ReportsTry(n: nat, k: nat)
    requires Reachable(C(n), World(G, Busy(k)))
    ensures Reachable(C(n), World(G, Reported(k)))
  {
    assert FindUuid(Busy(k).machines[0].jobs, k) == ["a"];
    assert Busy(k).calls[0 := Call("a", PreparingFailure)] == map[0 := Call("a", PreparingFailure)];
    ThenReport(C(n), World(G, Busy(k)), 0, k, PreparingFailure, 0);
  }

  lemma BusyReached(n: nat, k: nat)
    requires Reachable(C(n), World(G, Waiting(k)))
    ensures Reachable(C(n), World(G, Reported(k)))
  {
    var c := C(n);
    TakesUp(n, k);
    SendsTry(k);
    ThenSend(c, World(G, Taken(k)), k, 0);
    RecordsTry(k);
    ThenSchedule(c, World(G, Flying(k)));
    ReportsTry(n, k);
  }

  /** The job is off its machine, and everything but the histories is as it was before. */
  function Freed(k: nat): Sched { Waiting(k).(used := Ids(k + 1), starts := map[0 := Zeros(k + 1)]) }

  lemma FreesTry(k: nat)
    ensures Followable(Reported(k), "a") && Release(Reported(k), "a") == Freed(k).(calls := Reported(k).calls)
    ensures Reported(k).calls - {0} == map[]
  {
    var jobs: seq<Job> := [];
    assert Without([Job(k, "a")], "a") == jobs;
    assert Reported(k).scheduled - {"a"} == map[];
    assert Reported(k).machines[0 := EMPTY] == map[0 := EMPTY];
    assert Reported(k).infos[0 := INFO] == map[0 := INFO];
  }

  lemma NoPauseAt(n: nat, k: nat)
    requires k > 0
    ensures Delay(C(n), k) == 0
  {
    assert 0.0 * Power(1.0, k - 1) == 0.0;
  }

  lemma CountsTry(k: nat)
    ensures Tries(Reported(k), 0) == k && Fails(Reported(k), 0) + [0] == Zeros(k + 1)
    ensures Waiting(k).fails[0 := Zeros(k + 1)] == map[0 := Zeros(k + 1)]
    ensures Waiting(k).tries[0 := k + 1] == map[0 := k + 1] && Waiting(k).after[0 := 0] == map[0 := 0]
  {
  }

  lemma RetriesTry(n: nat, k: nat)
    requires k + 1 < n
    ensures CanAct(Reported(k), 0, 0, 0) && DoAct(C(n), Reported(k), 0, 0, 0) == Retried(k)
  {
    FreesTry(k);
    CountsTry(k);
    NoPauseAt(n, k + 1);
  }

  lemma FailsTry(n: nat, k: nat)
    requires k + 1 < n
    requires Reachable(C(n), World(G, Reported(k)))
    ensures Reachable(C(n), World(G, Retried(k)))
  {
    RetriesTry(n, k);
    ThenAct(C(n), World(G, Reported(k)), 0, 0, 0);
  }

  lemma LosesTry(n: nat, k: nat)
    requires k + 1 >= n
    ensures CanAct(Reported(k), 0, 0, 0) && DoAct(C(n), Reported(k), 0, 0, 0) == Lost(k)
  {
    FreesTry(k);
    CountsTry(k);
    assert {} + {0} == {0};
  }

  lemma FailsLast(n: nat, k: nat)
    requires k + 1 >= n
    requires Reachable(C(n), World(G, Reported(k)))
    ensures Reachable(C(n), World(G, Lost(k)))
  {
    LosesTry(n, k);
    ThenAct(C(n), World(G, Reported(k)), 0, 0, 0);
  }

  lemma EndsTry(n: nat, k: nat)
    requires Reachable(C(n), World(G, Retried(k)))
    ensures Reachable(C(n), World(G, Waiting(k + 1)))
  {
    assert Retried(k).tasks - {0} == map[];
    ThenEnd(C(n), World(G, Retried(k)), 0);
  }

  // ---- all tries, and one more ----

  lemma {:induction false} WaitingReached(n: nat, k: nat)
    requires k < n || k == 0
    ensures Reachable(C(n), World(G, Waiting(k)))
  {
    if k == 0 {
      InsertedReached(n);
      assert Waiting(0) == S3;
    } else {
      WaitingReached(n, k - 1);
      WaitsAgainAfter(n, k - 1);
    }
  }

  lemma WaitsAgainAfter(n: nat, k: nat)
    requires k + 1 < n && Reachable(C(n), World(G, Waiting(k)))
    ensures Reachable(C(n), World(G, Waiting(k + 1)))
  {
    BusyReached(n, k);
    FailsTry(n, k);
    EndsTry(n, k);
  }

  lemma RemovesLost(k: nat)
    ensures CanRemove(Lost(k), 0) && DoRemove(Lost(k), 0) == Gone(k)
  {
    assert Lost(k).jobs - {"a"} == map[];
    var s1 := Lost(k).(jobs := map[]);
    HeldIsKept(s1);
    assert s1.queues["linux" := Queue([0], 0)] == s1.queues;
  }

  lemma GoneReached(n: nat, k: nat)
    requires k + 1 >= n && (k < n || k == 0)
    ensures Reachable(C(n), World(G, Gone(k)))
  {
    var c := C(n);
    WaitingReached(n, k);
    BusyReached(n, k);
    FailsLast(n, k);
    RemovesLost(k);
    ThenRemove(c, World(G, Lost(k)), 0);
  }

  lemma TakesGone(n: nat, k: nat)
    requires Reachable(C(n), World(G, Gone(k)))
    ensures Reachable(C(n), World(G, DoPick(Gone(k), 0, 0, 0)))
  {
    assert 0 in InTasks(Gone(k)) by { assert Gone(k).tasks[0].info == 0; }
    assert Gone(k).queues["linux"].entries[0] == 0;
    ThenPick(C(n), World(G, Gone(k)), 0, 0, 0, 0);
  }

  lemma SendsGone(k: nat)
    ensures var s1 := DoPick(Gone(k), 0, 0, 0);
      CanSend(s1, k + 1, 0) && |Starts(SendOut(s1, k + 1, 0), 0)| == k + 2
  {
    IdsBelow(k + 1);
    ZerosSize(k + 1);
  }

  /** However many tries are allowed, some run sends a step out once more than that. */
  lemma BoundExceeded(n: nat)
    ensures exists ws, es, k: nat :: WorldRun(C(n), ws, es) && k < |ws| && SentOut(ws, es, k, 0) == Most(C(n)) + 1
  {
    var c, k: nat := C(n), Most(C(n)) - 1;
    GoneReached(n, k);
    TakesGone(n, k);
    SendsGone(k);
    var s1 := DoPick(Gone(k), 0, 0, 0);
    ThenSend(c, World(G, s1), k + 1, 0);
    var ws, es :| RunTo(c, ws, es, World(G, SendOut(s1, k + 1, 0)));
    HistoryMeans(c, ws, es, |es|, 0);
    assert SentOut(ws, es, |es|, 0) == k + 2;
  }
}
