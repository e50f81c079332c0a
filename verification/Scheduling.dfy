/**
 The queues, the `scheduled` map and the machines' job lists, as values, with the
 operations of the queue runner that change them.

 One operation is one section between two points where a task waits, for a lock or
 for the database. There is one dispatch loop, and any number of tasks that complete
 or fail a job. Both hold the step info they work on. A queue entry is a weak pointer
 to a step info: it can be followed while the owning `jobs` map, the `scheduled` map,
 the dispatch loop or a task holds that info.

 `starts`, `fails`, `used`, `doomed`, `resent` and `dropped` are history: when each
 step object was sent out and when it failed with a retry, which job identifiers were
 handed out, which steps failed for good, which of those were sent out again, and
 which steps lost their queued job after they had been sent out.
 */
module Scheduling {
  import opened StepGraph

  type InfoId = nat
  type MachineId = nat
  type Uuid = nat
  type System = string
  type TaskId = nat
  type CallId = nat

  datatype Info = Info(step: StepId, path: Path, system: System, already: bool)
  datatype Item = Item(info: InfoId, system: System, machine: MachineId)
  datatype Job = Job(uuid: Uuid, path: Path)
  datatype Machine = Machine(maxJobs: nat, jobs: seq<Job>, currentJobs: nat)
  datatype Queue = Queue(entries: seq<InfoId>, active: int)

  datatype BuildResultState =
    | Success
    | BuildFailure
    | PreparingFailure
    | ImportFailure
    | UploadFailure
    | PostProcessingFailure
    | Aborted
    | Cancelled

  /** What a fresh result says about retrying once it is updated with `r`. */
  predicate CanRetry(r: BuildResultState) {
    !r.Success? && !r.BuildFailure?
  }

  /** A report or a cancellation that knows its path and waits for the queues. */
  datatype Call = Call(path: Path, outcome: BuildResultState)

  /** What is left of a completion or a failure once the job is off its machine. */
  datatype Task =
    | Retrying(info: InfoId)
    | Completing(info: InfoId, removed: bool)
    | Failing(info: InfoId, removed: bool, passed: bool)

  /** The dispatch loop: collecting runnable steps, working on one queue entry, or
      failing steps that no machine supports. */
  datatype Dispatcher =
    | Collecting(offered: set<StepId>)
    | Chosen(info: InfoId, machine: MachineId)
    | Sent(info: InfoId, machine: MachineId, uuid: Uuid)
    | CacheHit(info: InfoId, passed: bool)
    | Aborting(steps: set<StepId>)

  datatype Sched = Sched(
    infos: map<InfoId, Info>,
    jobs: map<Path, InfoId>,
    scheduled: map<Path, Item>,
    queues: map<System, Queue>,
    machines: map<MachineId, Machine>,
    online: set<MachineId>,
    draining: map<MachineId, seq<Path>>,
    calls: map<CallId, Call>,
    tasks: map<TaskId, Task>,
    dispatcher: Dispatcher,
    tries: map<StepId, nat>,
    after: map<StepId, int>,
    clock: int,
    starts: map<StepId, seq<int>>,
    fails: map<StepId, seq<int>>,
    used: set<Uuid>,
    doomed: set<StepId>,
    resent: set<StepId>,
    dropped: set<StepId>)

  /** `limited` says whether the capacity check includes the job limit of the machine
      (`Static` and `DynamicWithMaxJobLimit`), `systemOf` for which system a derivation is. */
  datatype Config = Config(maxRetries: nat, interval: real, backoff: real, limited: bool, systemOf: Path -> System)

  function Power(b: real, n: nat): real { if n == 0 then 1.0 else b * Power(b, n - 1) }

  function Trunc(x: real): int { if x < 0.0 then -((-x).Floor) else x.Floor }

  /** The pause in seconds after the n-th failure. */
  function Delay(c: Config, n: nat): int
    requires n > 0
  {
    Trunc(c.interval * Power(c.backoff, n - 1))
  }

  /** `p` is `x` without its fraction. */
  predicate WholePart(x: real, p: int) {
    if x >= 0.0 then p as real <= x < p as real + 1.0 else p as real - 1.0 < x <= p as real
  }

  /** What `Power` is: one, the base, and a product over sums. */
  lemma {:induction false} PowerLaws(b: real, m: nat, n: nat)
    ensures Power(b, 0) == 1.0 && Power(b, 1) == b && Power(b, m + n) == Power(b, m) * Power(b, n)
    decreases m
  {
    if m > 0 {
      PowerLaws(b, m - 1, n);
      assert m + n - 1 == m - 1 + n;
      assert Power(b, m + n) == b * (Power(b, m - 1) * Power(b, n)) == (b * Power(b, m - 1)) * Power(b, n);
    }
  }

  /** The pause after the n-th failure is the whole part of the interval times the backoff
      factor to the power n - 1: the first pause is that of the interval itself. */
  lemma PauseExactly(c: Config, n: nat, x: real, p: int)
    requires n > 0 && x == c.interval * Power(c.backoff, n - 1)
    ensures WholePart(x, p) <==> p == Delay(c, n)
  {
    TruncExactly(c.interval * Power(c.backoff, n - 1), p);
  }

  lemma FirstPause(c: Config, p: int)
    ensures WholePart(c.interval, p) <==> p == Delay(c, 1)
  {
    TruncExactly(c.interval, p);
    assert c.interval * Power(c.backoff, 0) == c.interval;
  }

  lemma TruncExactly(x: real, p: int)
    ensures WholePart(x, p) <==> p == Trunc(x)
  {
    if x < 0.0 { FloorExactly(-x, -p); } else { FloorExactly(x, p); }
  }

  lemma FloorExactly(x: real, p: int)
    ensures p as real <= x < p as real + 1.0 <==> p == x.Floor
  {
    var q := x.Floor;
    assert q as real <= x < q as real + 1.0;
    if p as real <= x < p as real + 1.0 { assert p as real < q as real + 1.0 && q as real < p as real + 1.0; }
  }

  /** Outcomes after which a step may be tried again. */
  predicate MayRetry(r: BuildResultState) {
    r in {PreparingFailure, ImportFailure, UploadFailure, PostProcessingFailure, Aborted, Cancelled}
  }

  lemma RetriesExactly(r: BuildResultState)
    ensures CanRetry(r) <==> MayRetry(r)
  {
  }

  const NANOS := 1_000_000_000
  const IDLE := Collecting({})

  // ---- reading a state ----

  function Tries(s: Sched, st: StepId): nat { if st in s.tries then s.tries[st] else 0 }
  function After(s: Sched, st: StepId): int { if st in s.after then s.after[st] else 0 }
  function Starts(s: Sched, st: StepId): seq<int> { if st in s.starts then s.starts[st] else [] }
  function Fails(s: Sched, st: StepId): seq<int> { if st in s.fails then s.fails[st] else [] }

  predicate Owned(s: Sched, i: InfoId) {
    && i in s.infos
    && ( || (s.infos[i].path in s.jobs && s.jobs[s.infos[i].path] == i)
         || (s.infos[i].path in s.scheduled && s.scheduled[s.infos[i].path].info == i))
  }

  function InTasks(s: Sched): set<InfoId> { set k | k in s.tasks :: s.tasks[k].info }

  function InHand(d: Dispatcher): set<InfoId> {
    if d.Chosen? || d.Sent? || d.CacheHit? then {d.info} else {}
  }

  function Offered(d: Dispatcher): set<StepId> { if d.Collecting? then d.offered else {} }

  /** A weak pointer to the info can be followed. */
  predicate Live(s: Sched, i: InfoId) {
    i in s.infos && (Owned(s, i) || i in InTasks(s) || i in InHand(s.dispatcher))
  }

  function Entries(s: Sched, sys: System): seq<InfoId> {
    if sys in s.queues then s.queues[sys].entries else []
  }

  predicate Listed(s: Sched, i: InfoId) {
    i in s.infos && i in Entries(s, s.infos[i].system)
  }

  /** The dispatch loop can come to the info. */
  predicate Waits(s: Sched, i: InfoId) { Live(s, i) && Listed(s, i) }

  /** Some entry that can be followed has the path. */
  predicate Occupied(s: Sched, entries: seq<InfoId>, p: Path) {
    exists i :: i in entries && Live(s, i) && s.infos[i].path == p
  }

  function Without(jobs: seq<Job>, p: Path): (r: seq<Job>)
    ensures |r| <= |jobs|
    ensures forall j :: j in r <==> j in jobs && j.path != p
  {
    if jobs == [] then []
    else (if jobs[0].path != p then [jobs[0]] else []) + Without(jobs[1..], p)
  }

  predicate Distinct(jobs: seq<Job>) {
    jobs == [] || ((forall j :: j in jobs[1..] ==> j.uuid != jobs[0].uuid) && Distinct(jobs[1..]))
  }

  predicate HasJob(m: Machine, p: Path) { exists j :: j in m.jobs && j.path == p }

  /** The path of the first job with the identifier. */
  function FindUuid(jobs: seq<Job>, u: Uuid): (r: seq<Path>)
    ensures |r| <= 1
    ensures r == [] <==> forall j :: j in jobs ==> j.uuid != u
    ensures r != [] ==> Job(u, r[0]) in jobs
  {
    if jobs == [] then []
    else if jobs[0].uuid == u then [jobs[0].path]
    else FindUuid(jobs[1..], u)
  }

  /** The path a report refers to: the machine must be online and have the job. */
  function ReportTarget(s: Sched, m: MachineId, u: Uuid): seq<Path> {
    if m in s.online && m in s.machines then FindUuid(s.machines[m].jobs, u) else []
  }

  function ScheduledOn(s: Sched, sys: System): set<Path> {
    set p | p in s.scheduled && s.scheduled[p].system == sys
  }

  function Scrubbed(s: Sched, entries: seq<InfoId>): (r: seq<InfoId>)
    ensures forall i :: i in r <==> i in entries && Live(s, i)
  {
    if entries == [] then []
    else (if Live(s, entries[0]) then [entries[0]] else []) + Scrubbed(s, entries[1..])
  }

  predicate Followable(s: Sched, p: Path) {
    p in s.scheduled && s.scheduled[p].info in s.infos && s.scheduled[p].system in s.queues
    && s.scheduled[p].machine in s.machines
  }

  function StepOf(s: Sched, p: Path): StepId
    requires Followable(s, p)
  {
    s.infos[s.scheduled[p].info].step
  }

  /** A machine the lookup may return. */
  predicate HasRoom(c: Config, s: Sched, m: MachineId) {
    m in s.machines && m in s.online && (c.limited ==> s.machines[m].currentJobs < s.machines[m].maxJobs)
  }

  // ---- parts of operations ----

  /** What a queue holds after a new info was pushed, unless an entry that can be
      followed has its path, and the queue was scrubbed. */
  function Pushed(s: Sched, entries: seq<InfoId>, p: Path, i: InfoId): seq<InfoId> {
    Scrubbed(s, entries) + if Occupied(s, entries, p) then [] else [i]
  }

  /** A new step info enters the owning map and its queue, sorted into `order`. */
  function Enqueue(c: Config, s: Sched, st: StepId, p: Path, i: InfoId, order: seq<InfoId>): Sched {
    var sys := c.systemOf(p);
    var q := if sys in s.queues then s.queues[sys] else Queue([], 0);
    s.(infos := s.infos[i := Info(st, p, sys, false)],
       jobs := s.jobs[p := i],
       queues := s.queues[sys := q.(entries := order)])
  }

  function AddScheduled(s: Sched, i: InfoId, m: MachineId): Sched
    requires i in s.infos && s.infos[i].system in s.queues
  {
    var f := s.infos[i];
    var q := s.queues[f.system];
    s.(scheduled := s.scheduled[f.path := Item(i, f.system, m)],
       infos := s.infos[i := f.(already := true)],
       queues := s.queues[f.system := q.(active := q.active + 1)])
  }

  function InsertJob(s: Sched, m: MachineId, j: Job): Sched
    requires m in s.machines
  {
    var jobs := s.machines[m].jobs + [j];
    s.(machines := s.machines[m := s.machines[m].(jobs := jobs, currentJobs := |jobs|)])
  }

  /** Taking a job off `scheduled` and off its machine. */
  function Release(s: Sched, p: Path): Sched
    requires Followable(s, p)
  {
    var it := s.scheduled[p];
    var q := s.queues[it.system];
    var jobs := Without(s.machines[it.machine].jobs, p);
    s.(scheduled := s.scheduled - {p},
       infos := s.infos[it.info := s.infos[it.info].(already := false)],
       queues := s.queues[it.system := q.(active := q.active - 1)],
       machines := s.machines[it.machine := s.machines[it.machine].(jobs := jobs, currentJobs := |jobs|)])
  }

  /** Leaving the owning map; what can still be followed stays in the queue. */
  function RemoveJob(s: Sched, p: Path, sys: System): Sched
    requires sys in s.queues
  {
    var s1 := s.(jobs := s.jobs - {p});
    s1.(queues := s1.queues[sys := s1.queues[sys].(entries := Scrubbed(s1, s1.queues[sys].entries))])
  }

  function ScrubAll(s: Sched): Sched {
    s.(queues := map y | y in s.queues :: s.queues[y].(entries := Scrubbed(s, s.queues[y].entries)))
  }

  /** Whether a failure of the step is final. */
  predicate Final(c: Config, s: Sched, st: StepId, retry: bool) {
    !(retry && Tries(s, st) + 1 < c.maxRetries)
  }

  /** What is left to do for a job that is off its machine. */
  function TaskFor(c: Config, s: Sched, st: StepId, i: InfoId, r: BuildResultState): Task {
    if r.Success? then Completing(i, false)
    else if Final(c, s, st, CanRetry(r)) then Failing(i, false, false)
    else Retrying(i)
  }

  /** The first section of completing or failing a path: nothing if the path is not
      scheduled, and a task for the rest otherwise. */
  function Apart(c: Config, s: Sched, p: Path, r: BuildResultState, id: TaskId, now: int): Sched
    requires p in s.scheduled ==> Followable(s, p)
  {
    if p !in s.scheduled then s
    else
      var st, n := StepOf(s, p), Tries(s, StepOf(s, p)) + 1;
      var t := TaskFor(c, s, st, s.scheduled[p].info, r);
      Release(s, p).(
        tasks := s.tasks[id := t],
        tries := if CanRetry(r) then s.tries[st := n] else s.tries,
        fails := if CanRetry(r) then s.fails[st := Fails(s, st) + [now]] else s.fails,
        after := if t.Retrying? then s.after[st := now + Delay(c, n) * NANOS] else s.after,
        doomed := if t.Failing? then s.doomed + {st} else s.doomed,
        clock := now)
  }

  /** The job at a path is taken away, perhaps although its step had been sent out. */
  function NoteDropped(s: Sched, p: Path, note: bool): Sched {
    s.(dropped := if note && p in s.jobs && s.jobs[p] in s.infos && Starts(s, s.infos[s.jobs[p]].step) != []
                  then s.dropped + {s.infos[s.jobs[p]].step} else s.dropped)
  }

  function Paths(jobs: seq<Job>): (r: seq<Path>)
    ensures |r| == |jobs| && forall k :: 0 <= k < |jobs| ==> r[k] == jobs[k].path
  {
    if jobs == [] then [] else [jobs[0].path] + Paths(jobs[1..])
  }

  // ---- the operations ----

  /** `t0` is when the dispatch pass started. A pass carries the steps that a walk over
      the dependents found when it met no unfinished build. */
  datatype Op =
    | Offer(st: StepId)
    | Insert(st: StepId, p: Path, i: InfoId, order: seq<InfoId>)
    | Reject(st: StepId)
    | Pick(i: InfoId, m: MachineId, t0: int, now: int)
    | Skip
    | Send(u: Uuid, now: int)
    | Schedule
    | Hit
    | CachePass(v: set<StepId>)
    | Discard
    | Unsupported(st: StepId)
    | AbortPass(st: StepId, v: set<StepId>)
    | DropAborted(st: StepId, p: Path)
    | Scrub
    | Report(m: MachineId, u: Uuid, r: BuildResultState, k: CallId)
    | Kill(p: Path, k: CallId)
    | Act(k: CallId, id: TaskId, now: int)
    | Remove(id: TaskId)
    | TaskPass(id: TaskId, v: set<StepId>)
    | End(id: TaskId)
    | Join(m: MachineId, maxJobs: nat)
    | Lose(m: MachineId)
    | Drain(m: MachineId, id: TaskId, now: int)

  /** The info exists and so does its queue. */
  predicate Placed(s: Sched, i: InfoId) {
    i in s.infos && s.infos[i].system in s.queues
  }

  // What each operation asks for, and what it does.

  predicate CanOffer(s: Sched, st: StepId) { s.dispatcher.Collecting? && Tries(s, st) == 0 }

  function DoOffer(s: Sched, st: StepId): Sched
    requires CanOffer(s, st)
  {
    s.(dispatcher := Collecting(s.dispatcher.offered + {st}))
  }

  predicate CanInsert(c: Config, s: Sched, st: StepId, p: Path, i: InfoId, order: seq<InfoId>) {
    && s.dispatcher.Collecting? && st in s.dispatcher.offered && i !in s.infos && p !in s.jobs
    && multiset(order) == multiset(Pushed(s, Entries(s, c.systemOf(p)), p, i))
  }

  function DoInsert(c: Config, s: Sched, st: StepId, p: Path, i: InfoId, order: seq<InfoId>): Sched
    requires CanInsert(c, s, st, p, i, order)
  {
    Enqueue(c, s, st, p, i, order).(dispatcher := Collecting(s.dispatcher.offered - {st}))
  }

  predicate CanReject(s: Sched, st: StepId) { s.dispatcher.Collecting? && st in s.dispatcher.offered }

  function DoReject(s: Sched, st: StepId): Sched
    requires CanReject(s, st)
  {
    s.(dispatcher := Collecting(s.dispatcher.offered - {st}))
  }

  predicate CanPick(c: Config, s: Sched, i: InfoId, m: MachineId, t0: int, now: int) {
    && s.dispatcher == IDLE && Waits(s, i) && !s.infos[i].already && After(s, s.infos[i].step) <= t0 <= now
    && s.clock <= now && HasRoom(c, s, m)
  }

  function DoPick(s: Sched, i: InfoId, m: MachineId, now: int): Sched { s.(dispatcher := Chosen(i, m), clock := now) }

  function GoIdle(s: Sched): Sched { s.(dispatcher := IDLE) }

  predicate CanSend(s: Sched, u: Uuid, now: int) {
    && s.dispatcher.Chosen? && s.dispatcher.info in s.infos && s.dispatcher.machine in s.machines
    && u !in s.used && s.clock <= now
  }

  /** The job is put on the machine, which may have been lost meanwhile. */
  function SendOut(s: Sched, u: Uuid, now: int): Sched
    requires s.dispatcher.Chosen? && s.dispatcher.info in s.infos && s.dispatcher.machine in s.machines
  {
    var i, m := s.dispatcher.info, s.dispatcher.machine;
    var st := s.infos[i].step;
    InsertJob(s, m, Job(u, s.infos[i].path)).(
      dispatcher := Sent(i, m, u), used := s.used + {u}, clock := now, starts := s.starts[st := Starts(s, st) + [now]],
      resent := if st in s.doomed then s.resent + {st} else s.resent)
  }

  predicate CanSchedule(s: Sched) { s.dispatcher.Sent? && Placed(s, s.dispatcher.info) }

  function DoSchedule(s: Sched): Sched
    requires CanSchedule(s)
  {
    AddScheduled(s, s.dispatcher.info, s.dispatcher.machine).(dispatcher := IDLE)
  }

  function DoHit(s: Sched): Sched
    requires s.dispatcher.Chosen?
  {
    s.(dispatcher := CacheHit(s.dispatcher.info, false))
  }

  predicate CanCachePass(s: Sched) { s.dispatcher.CacheHit? && s.dispatcher.info in s.infos }

  function DoCachePass(s: Sched): Sched
    requires CanCachePass(s)
  {
    s.(dispatcher := CacheHit(s.dispatcher.info, true))
  }

  predicate CanDiscard(s: Sched) {
    (s.dispatcher.Chosen? || (s.dispatcher.CacheHit? && s.dispatcher.passed)) && Placed(s, s.dispatcher.info)
  }

  function DoDiscard(s: Sched): Sched
    requires CanDiscard(s)
  {
    var f := s.infos[s.dispatcher.info];
    RemoveJob(NoteDropped(s, f.path, s.dispatcher.Chosen?), f.path, f.system).(dispatcher := IDLE)
  }

  predicate CanUnsupported(s: Sched) { s.dispatcher == IDLE || s.dispatcher.Aborting? }

  function DoUnsupported(s: Sched, st: StepId): Sched {
    s.(dispatcher := Aborting((if s.dispatcher.Aborting? then s.dispatcher.steps else {}) + {st}))
  }

  predicate CanAbort(s: Sched, st: StepId) { s.dispatcher.Aborting? && st in s.dispatcher.steps }

  function Left(steps: set<StepId>, st: StepId): Dispatcher {
    if steps - {st} == {} then IDLE else Aborting(steps - {st})
  }

  function DoDropAborted(s: Sched, st: StepId, p: Path): Sched
    requires CanAbort(s, st)
  {
    var s1 := NoteDropped(s, p, true);
    ScrubAll(s1.(jobs := s1.jobs - {p})).(dispatcher := Left(s.dispatcher.steps, st))
  }

  function DoReport(s: Sched, m: MachineId, u: Uuid, r: BuildResultState, k: CallId): Sched {
    var t := ReportTarget(s, m, u);
    s.(calls := if t == [] then s.calls else s.calls[k := Call(t[0], r)])
  }

  predicate CanKill(s: Sched, p: Path, k: CallId) { k !in s.calls && p in s.scheduled }

  function DoKill(s: Sched, p: Path, k: CallId): Sched { s.(calls := s.calls[k := Call(p, Cancelled)]) }

  predicate CanAct(s: Sched, k: CallId, id: TaskId, now: int) {
    && k in s.calls && id !in s.tasks && s.clock <= now
    && (s.calls[k].path in s.scheduled ==> Followable(s, s.calls[k].path))
  }

  function DoAct(c: Config, s: Sched, k: CallId, id: TaskId, now: int): Sched
    requires CanAct(s, k, id, now)
  {
    Apart(c, s, s.calls[k].path, s.calls[k].outcome, id, now).(calls := s.calls - {k})
  }

  predicate CanRemove(s: Sched, id: TaskId) {
    id in s.tasks && !s.tasks[id].Retrying? && !s.tasks[id].removed && Placed(s, s.tasks[id].info)
  }

  function DoRemove(s: Sched, id: TaskId): Sched
    requires CanRemove(s, id)
  {
    var f := s.infos[s.tasks[id].info];
    RemoveJob(s, f.path, f.system).(tasks := s.tasks[id := s.tasks[id].(removed := true)])
  }

  predicate CanTaskPass(s: Sched, id: TaskId) {
    id in s.tasks && s.tasks[id].Failing? && s.tasks[id].removed && s.tasks[id].info in s.infos
  }

  function DoTaskPass(s: Sched, id: TaskId): Sched
    requires CanTaskPass(s, id)
  {
    s.(tasks := s.tasks[id := s.tasks[id].(passed := true)])
  }

  predicate CanEnd(s: Sched, id: TaskId) {
    id in s.tasks && (s.tasks[id].Retrying? || s.tasks[id].removed) && (s.tasks[id].Failing? ==> s.tasks[id].passed)
  }

  function DoEnd(s: Sched, id: TaskId): Sched { s.(tasks := s.tasks - {id}) }

  function DoJoin(s: Sched, m: MachineId, maxJobs: nat): Sched {
    s.(machines := s.machines[m := Machine(maxJobs, [], 0)], online := s.online + {m})
  }

  predicate CanLose(s: Sched, m: MachineId) { m in s.machines && m in s.online }

  function DoLose(s: Sched, m: MachineId): Sched
    requires CanLose(s, m)
  {
    s.(online := s.online - {m}, draining := s.draining[m := Paths(s.machines[m].jobs)])
  }

  predicate CanDrain(s: Sched, m: MachineId, id: TaskId, now: int) {
    && m in s.machines && m !in s.online && m in s.draining && s.draining[m] != [] && id !in s.tasks && s.clock <= now
    && (s.draining[m][0] in s.scheduled ==> Followable(s, s.draining[m][0]))
  }

  function DoDrain(c: Config, s: Sched, m: MachineId, id: TaskId, now: int): Sched
    requires CanDrain(s, m, id, now)
  {
    Apart(c, s, s.draining[m][0], PreparingFailure, id, now).(draining := s.draining[m := s.draining[m][1..]])
  }

  /** What a failure does to its step. After the n-th failure that counts, with n below the
      limit, the step is due again in the whole part of the interval times the backoff
      factor to the power n - 1, in seconds; otherwise a task is left to fail it. */
  lemma FailureExactly(
      c: Config, s: Sched, p: Path, r: BuildResultState, id: TaskId, now: int, x: real, pause: int)
    requires Followable(s, p) && !r.Success?
    requires x == c.interval * Power(c.backoff, Tries(s, StepOf(s, p))) && WholePart(x, pause)
    ensures var st, i, h := StepOf(s, p), s.scheduled[p].info, Apart(c, s, p, r, id, now);
      && Tries(h, st) == Tries(s, st) + (if MayRetry(r) then 1 else 0)
      && (MayRetry(r) && Tries(h, st) < c.maxRetries ==>
            h.tasks == s.tasks[id := Retrying(i)] && After(h, st) == now + pause * 1_000_000_000)
      && (!MayRetry(r) || Tries(h, st) >= c.maxRetries ==>
            h.tasks == s.tasks[id := Failing(i, false, false)] && After(h, st) == After(s, st))
      && forall o :: o != st ==> Tries(h, o) == Tries(s, o) && After(h, o) == After(s, o)
  {
    RetriesExactly(r);
    PauseExactly(c, Tries(s, StepOf(s, p)) + 1, x, pause);
  }

  /** A job that is completed or failed leaves the map of scheduled jobs and its machine,
      and nothing else does. */
  lemma TakenExactly(c: Config, s: Sched, p: Path, r: BuildResultState, id: TaskId, now: int)
    requires Followable(s, p)
    ensures var it, h := s.scheduled[p], Apart(c, s, p, r, id, now);
      && h.jobs == s.jobs && h.scheduled.Keys == s.scheduled.Keys - {p}
      && (forall o :: o in h.scheduled ==> h.scheduled[o] == s.scheduled[o])
      && (forall m :: m in s.machines && m != it.machine ==> m in h.machines && h.machines[m] == s.machines[m])
      && it.machine in h.machines
      && (forall j :: j in h.machines[it.machine].jobs <==> j in s.machines[it.machine].jobs && j.path != p)
      && it.info in h.infos && !h.infos[it.info].already && it.system in h.queues
      && h.queues[it.system].entries == s.queues[it.system].entries
      && (r.Success? ==> h.tasks == s.tasks[id := Completing(it.info, false)])
  {
  }

  /** A job on a machine that is lost may be tried again, like one whose preparation failed. */
  lemma LostJobExactly(c: Config, s: Sched, m: MachineId, id: TaskId, now: int, x: real, pause: int)
    requires CanDrain(s, m, id, now) && s.draining[m][0] in s.scheduled
    requires x == c.interval * Power(c.backoff, Tries(s, StepOf(s, s.draining[m][0]))) && WholePart(x, pause)
    ensures var p := s.draining[m][0];
      var st, i, h := StepOf(s, p), s.scheduled[p].info, DoDrain(c, s, m, id, now);
      && Tries(h, st) == Tries(s, st) + 1 && p !in h.scheduled
      && (Tries(h, st) < c.maxRetries ==>
            h.tasks == s.tasks[id := Retrying(i)] && After(h, st) == now + pause * 1_000_000_000)
      && (Tries(h, st) >= c.maxRetries ==> h.tasks == s.tasks[id := Failing(i, false, false)])
  {
    FailureExactly(c, s, s.draining[m][0], PreparingFailure, id, now, x, pause);
    TakenExactly(c, s, s.draining[m][0], PreparingFailure, id, now);
  }

  /** What is listed in `h` was listed before and can be followed, or is `held`. */
  ghost predicate Scrubs(s: Sched, h: Sched, y: System, held: set<InfoId>) {
    forall i :: i in Entries(h, y) <==> i in Entries(s, y) && (Live(h, i) || i in held)
  }

  /** A job the dispatch loop gives up leaves the owning map; its entry stays in the queue,
      because the loop still holds it, and entries that cannot be followed leave. */
  lemma DiscardExactly(s: Sched)
    requires CanDiscard(s)
    ensures var f, h := s.infos[s.dispatcher.info], DoDiscard(s);
      && h.jobs == s.jobs - {f.path} && h.dispatcher == Collecting({}) && h.scheduled == s.scheduled
      && Scrubs(s, h, f.system, {s.dispatcher.info})
      && forall y :: y != f.system ==> Entries(h, y) == Entries(s, y)
  {
  }

  /** The same for a job that its task removes; the task holds it further on. */
  lemma RemoveExactly(s: Sched, id: TaskId)
    requires CanRemove(s, id)
    ensures var f, h := s.infos[s.tasks[id].info], DoRemove(s, id);
      && h.jobs == s.jobs - {f.path} && h.dispatcher == s.dispatcher && h.scheduled == s.scheduled
      && id in h.tasks && h.tasks[id].info == s.tasks[id].info
      && Scrubs(s, h, f.system, {}) && forall y :: y != f.system ==> Entries(h, y) == Entries(s, y)
  {
    var f, h := s.infos[s.tasks[id].info], DoRemove(s, id);
    assert InTasks(h) == InTasks(s) by {
      forall k | k in s.tasks ensures k in h.tasks && h.tasks[k].info == s.tasks[k].info {}
    }
  }

  /** Of a step that no machine supports the job leaves by its path, and all queues are
      scrubbed. */
  lemma DropExactly(s: Sched, st: StepId, p: Path)
    requires CanAbort(s, st)
    ensures var h := DoDropAborted(s, st, p);
      && h.jobs == s.jobs - {p} && h.scheduled == s.scheduled && forall y :: Scrubs(s, h, y, {})
  {
  }

  predicate Can(c: Config, s: Sched, op: Op) {
    match op
    case Offer(st) => CanOffer(s, st)
    case Insert(st, p, i, order) => CanInsert(c, s, st, p, i, order)
    case Reject(st) => CanReject(s, st)
    case Pick(i, m, t0, now) => CanPick(c, s, i, m, t0, now)
    case Skip => s.dispatcher.Chosen?
    case Send(u, now) => CanSend(s, u, now)
    case Schedule => CanSchedule(s)
    case Hit => s.dispatcher.Chosen?
    case CachePass(_) => CanCachePass(s)
    case Discard => CanDiscard(s)
    case Unsupported(_) => CanUnsupported(s)
    case AbortPass(st, _) => CanAbort(s, st)
    case DropAborted(st, _) => CanAbort(s, st)
    case Scrub => s.dispatcher.Collecting?
    case Report(_, _, _, k) => k !in s.calls
    case Kill(p, k) => CanKill(s, p, k)
    case Act(k, id, now) => CanAct(s, k, id, now)
    case Remove(id) => CanRemove(s, id)
    case TaskPass(id, _) => CanTaskPass(s, id)
    case End(id) => CanEnd(s, id)
    case Join(m, _) => m !in s.machines
    case Lose(m) => CanLose(s, m)
    case Drain(m, id, now) => CanDrain(s, m, id, now)
  }

  function Do(c: Config, s: Sched, op: Op): Sched
    requires Can(c, s, op)
  {
    match op
    case Offer(st) => DoOffer(s, st)
    case Insert(st, p, i, order) => DoInsert(c, s, st, p, i, order)
    case Reject(st) => DoReject(s, st)
    case Pick(i, m, _, now) => DoPick(s, i, m, now)
    case Skip => GoIdle(s)
    case Send(u, now) => SendOut(s, u, now)
    case Schedule => DoSchedule(s)
    case Hit => DoHit(s)
    case CachePass(_) => DoCachePass(s)
    case Discard => DoDiscard(s)
    case Unsupported(st) => DoUnsupported(s, st)
    case AbortPass(_, _) => s
    case DropAborted(st, p) => DoDropAborted(s, st, p)
    case Scrub => ScrubAll(s)
    case Report(m, u, r, k) => DoReport(s, m, u, r, k)
    case Kill(p, k) => DoKill(s, p, k)
    case Act(k, id, now) => DoAct(c, s, k, id, now)
    case Remove(id) => DoRemove(s, id)
    case TaskPass(id, _) => DoTaskPass(s, id)
    case End(id) => DoEnd(s, id)
    case Join(m, maxJobs) => DoJoin(s, m, maxJobs)
    case Lose(m) => DoLose(s, m)
    case Drain(m, id, now) => DoDrain(c, s, m, id, now)
  }

  function Init(): Sched {
    Sched(map[], map[], map[], map[], map[], {}, map[], map[], map[], IDLE, map[], map[], 0, map[], map[], {}, {}, {},
        {})
  }

  // ---- agreement ----

  /** The flag of an info says whether the info is in `scheduled`. */
  predicate InfoOk(c: Config, s: Sched, i: InfoId) {
    i in s.infos ==>
      && s.infos[i].system == c.systemOf(s.infos[i].path)
      && (s.infos[i].already <==> s.infos[i].path in s.scheduled && s.scheduled[s.infos[i].path].info == i)
  }

  /** Every owned info has the path it is owned under, and its queue exists. */
  predicate JobOk(s: Sched, p: Path) {
    p in s.jobs ==> Placed(s, s.jobs[p]) && s.infos[s.jobs[p]].path == p
  }

  /** A scheduled item names an info, its queue, and a machine that has the job. */
  predicate ItemOk(s: Sched, p: Path) {
    p in s.scheduled ==>
      && Followable(s, p) && Listed(s, s.scheduled[p].info)
      && s.infos[s.scheduled[p].info].path == p && s.infos[s.scheduled[p].info].system == s.scheduled[p].system
      && HasJob(s.machines[s.scheduled[p].machine], p)
  }

  /** What is worked on is in its queue. */
  predicate HeldOk(s: Sched, i: InfoId) {
    i in InTasks(s) || i in InHand(s.dispatcher) ==> Listed(s, i)
  }

  /** A queue only holds infos of its system, and at most one that can be followed for
      each path. */
  predicate EntryOk(s: Sched, y: System, i: InfoId) {
    i in Entries(s, y) ==> i in s.infos && s.infos[i].system == y
  }

  predicate UniqueOk(s: Sched, i: InfoId, j: InfoId) {
    Waits(s, i) && Waits(s, j) && s.infos[i].path == s.infos[j].path ==> i == j
  }

  /** A machine counts its jobs and, under a job limit, never has too many. */
  predicate MachineOk(c: Config, s: Sched, m: MachineId) {
    && (m in s.online ==> m in s.machines)
    && (m in s.machines ==>
          && s.machines[m].currentJobs == |s.machines[m].jobs|
          && Distinct(s.machines[m].jobs)
          && (c.limited ==> |s.machines[m].jobs| <= s.machines[m].maxJobs))
  }

  /** The job that was sent and not yet recorded as scheduled. */
  predicate InFlight(s: Sched, m: MachineId, j: Job) {
    && s.dispatcher.Sent? && s.dispatcher.machine == m && s.dispatcher.uuid == j.uuid
    && s.dispatcher.info in s.infos && s.infos[s.dispatcher.info].path == j.path
  }

  /** A job on a machine is scheduled there or in flight. */
  predicate OnMachineOk(s: Sched, m: MachineId, j: Job) {
    m in s.machines && j in s.machines[m].jobs ==>
      && j.uuid in s.used
      && ((j.path in s.scheduled && s.scheduled[j.path].machine == m) || InFlight(s, m, j))
  }

  /** Two jobs with one path or one identifier are the same job of the same machine. */
  predicate DistinctOk(s: Sched, m: MachineId, j: Job, n: MachineId, k: Job) {
    m in s.machines && n in s.machines && j in s.machines[m].jobs && k in s.machines[n].jobs ==>
      (j.path == k.path || j.uuid == k.uuid ==> m == n && j == k)
  }

  predicate QueueOk(s: Sched, sys: System) {
    && (sys in s.queues ==> s.queues[sys].active == |ScheduledOn(s, sys)|)
    && (sys !in s.queues ==> ScheduledOn(s, sys) == {})
  }

  /** The entry the dispatch loop works on is not scheduled; a chosen machine has a
      free slot, and a machine that was sent the job has it. */
  predicate HandOk(c: Config, s: Sched) {
    && (InHand(s.dispatcher) != {} ==> s.dispatcher.info in s.infos && !s.infos[s.dispatcher.info].already)
    && (s.dispatcher.Chosen? ==>
          && s.dispatcher.machine in s.machines
          && (c.limited ==> |s.machines[s.dispatcher.machine].jobs| < s.machines[s.dispatcher.machine].maxJobs))
    && (s.dispatcher.Sent? ==>
          && s.dispatcher.machine in s.machines
          && Job(s.dispatcher.uuid, s.infos[s.dispatcher.info].path) in s.machines[s.dispatcher.machine].jobs)
  }

  ghost predicate Agreement(c: Config, s: Sched) {
    && (forall i :: InfoOk(c, s, i))
    && (forall p :: JobOk(s, p))
    && (forall p :: ItemOk(s, p))
    && (forall i :: HeldOk(s, i))
    && (forall y, i :: EntryOk(s, y, i))
    && (forall i, j :: UniqueOk(s, i, j))
    && (forall m :: MachineOk(c, s, m))
    && (forall m, j :: OnMachineOk(s, m, j))
    && (forall m, j, n, k :: DistinctOk(s, m, j, n, k))
    && (forall sys :: QueueOk(s, sys))
    && HandOk(c, s)
  }
}
