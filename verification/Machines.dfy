/**
 The registered machines and their per-system index: capacity, job lists,
 insertion, removal, sorting and the first-fit lookup.

 `heap` has every machine object that someone still refers to; `byUuid` has the
 registered ones. A machine registers once.
 */
module Machines {
  import opened Collections
  import opened StableSorting
  import S = Scheduling
  import StepGraph

  type MachineId = S.MachineId
  type Path = StepGraph.Path
  type System = S.System
  type Job = S.Job
  type Feature = string

  datatype Pressure = Pressure(cpuSome: Option<real>, memFull: Option<real>, ioFull: Option<real>)

  /** What a machine announced when it joined. */
  datatype Spec = Spec(
    systems: seq<System>, supported: seq<Feature>, mandatory: seq<Feature>,
    cpuCount: nat, bogomips: real, speedFactor: real, maxJobs: nat,
    buildDirThreshold: real, storeThreshold: real, load1Threshold: real,
    cpuThreshold: real, memThreshold: real, ioThreshold: Option<real>)

  datatype Stats = Stats(
    currentJobs: nat, stepsDone: nat, recentStart: int, recentCount: nat,
    buildDirFree: real, storeFree: real, load1: real, pressure: Option<Pressure>)

  datatype Machine = Machine(spec: Spec, stats: Stats, jobs: seq<Job>)

  datatype SortFn = SpeedFactorOnly | CpuCoreCountWithSpeedFactor | BogomipsWithSpeedFactor
  datatype FreeFn = Dynamic | DynamicWithMaxJobLimit | Static

  type Heap = map<MachineId, Machine>

  const WORD := 0x1_0000_0000_0000_0000
  const WINDOW := 30
  const BURST := 4

  // ---- capacity ----

  predicate OverOpt(v: Option<real>, threshold: real) { v.Some? && v.value > threshold }

  predicate DynamicCapacity(m: Machine) {
    if m.stats.pressure.Some? && m.stats.pressure.value.cpuSome.Some? then
      var p := m.stats.pressure.value;
      && !OverOpt(p.cpuSome, m.spec.cpuThreshold)
      && !OverOpt(p.memFull, m.spec.memThreshold)
      && !(m.spec.ioThreshold.Some? && OverOpt(p.ioFull, m.spec.ioThreshold.value))
    else
      m.stats.load1 <= m.spec.load1Threshold
  }

  predicate StaticCapacity(m: Machine) { m.stats.currentJobs < m.spec.maxJobs }

  predicate Bursting(t: Stats, now: int) {
    now <= t.recentStart + WINDOW && t.recentCount >= BURST && t.currentJobs >= BURST
  }

  predicate HasCapacity(m: Machine, fn: FreeFn, now: int) {
    && !Bursting(m.stats, now)
    && m.stats.buildDirFree >= m.spec.buildDirThreshold
    && m.stats.storeFree >= m.spec.storeThreshold
    && match fn
       case Dynamic => DynamicCapacity(m)
       case DynamicWithMaxJobLimit => DynamicCapacity(m) && StaticCapacity(m)
       case Static => StaticCapacity(m)
  }

  /** The machine is under its thresholds for the last ten seconds of pressure, or for the
      load if it does not report pressure. */
  predicate Calm(m: Machine) {
    var p := m.stats.pressure;
    if p.None? || p.value.cpuSome.None? then m.stats.load1 <= m.spec.load1Threshold
    else
      && p.value.cpuSome.value <= m.spec.cpuThreshold
      && (p.value.memFull.Some? ==> p.value.memFull.value <= m.spec.memThreshold)
      && (p.value.ioFull.Some? && m.spec.ioThreshold.Some? ==> p.value.ioFull.value <= m.spec.ioThreshold.value)
  }

  /** Why a machine has no capacity: four jobs within the last thirty seconds with four
      still there, a full disk, pressure, or the job limit, as far as the rule looks at them. */
  predicate Refuses(m: Machine, fn: FreeFn, now: int) {
    || (now - m.stats.recentStart <= 30 && m.stats.recentCount > 3 && m.stats.currentJobs > 3)
    || m.stats.buildDirFree < m.spec.buildDirThreshold
    || m.stats.storeFree < m.spec.storeThreshold
    || (fn != Static && !Calm(m))
    || (fn != Dynamic && m.stats.currentJobs >= m.spec.maxJobs)
  }

  lemma CapacityExactly(m: Machine, fn: FreeFn, now: int)
    ensures HasCapacity(m, fn, now) <==> !Refuses(m, fn, now)
  {
  }

  /** Asking for capacity forgets an old burst window. */
  function Checked(m: Machine, now: int): Machine {
    if now > m.stats.recentStart + WINDOW then m.(stats := m.stats.(recentStart := 0, recentCount := 0)) else m
  }

  /** Asking changes neither the answer to the next question nor the jobs. */
  lemma CheckedSame(m: Machine, fn: FreeFn, now: int)
    ensures HasCapacity(Checked(m, now), fn, now) == HasCapacity(m, fn, now)
    ensures Checked(Checked(m, now), now) == Checked(m, now)
    ensures Checked(m, now).spec == m.spec && Checked(m, now).jobs == m.jobs
  {
  }

  // ---- jobs ----

  function FirstWithPath(jobs: seq<Job>, p: Path): (r: Option<Job>)
    ensures r.None? <==> forall j :: j in jobs ==> j.path != p
    ensures r.Some? ==> r.value in jobs && r.value.path == p
  {
    if jobs == [] then None
    else if jobs[0].path == p then Some(jobs[0])
    else FirstWithPath(jobs[1..], p)
  }

  /** A machine counts its jobs. */
  predicate Counts(m: Machine) { m.stats.currentJobs == |m.jobs| }

  predicate WithinLimit(m: Machine) { |m.jobs| <= m.spec.maxJobs }

  function Sent(m: Machine, j: Job, now: int): Machine {
    var start := if m.stats.recentCount == 0 then now else m.stats.recentStart;
    var jobs := m.jobs + [j];
    m.(jobs := jobs,
       stats := m.stats.(currentJobs := |jobs|, recentStart := start, recentCount := (m.stats.recentCount + 1) % WORD))
  }

  function Dropped(m: Machine, p: Path, now: int): Machine {
    var jobs := S.Without(m.jobs, p);
    var count := if now <= m.stats.recentStart + WINDOW then (m.stats.recentCount + WORD - 1) % WORD
        else m.stats.recentCount;
    m.(jobs := jobs, stats := m.stats.(currentJobs := |jobs|, stepsDone := m.stats.stepsDone + 1, recentCount := count))
  }

  /** Sending a job to a machine that was just found free keeps its job limit, for
      the two capacity rules that look at it. */
  lemma CapacityKept(m: Machine, fn: FreeFn, j: Job, t0: int, now: int, p: Path)
    requires Counts(m) && HasCapacity(m, fn, t0)
    ensures Counts(Sent(Checked(m, t0), j, now))
    ensures !fn.Dynamic? ==> WithinLimit(Sent(Checked(m, t0), j, now))
    ensures Counts(Dropped(m, p, now)) && (WithinLimit(m) ==> WithinLimit(Dropped(m, p, now)))
  {
  }

  // ---- what the scheduler sees ----

  function Summary(m: Machine): S.Machine { S.Machine(m.spec.maxJobs, m.jobs, m.stats.currentJobs) }

  /** The scheduler's own machines are these, with all but the jobs and their limit left
      out: what it does to a machine is what the machine does, and a machine that the
      lookup finds free has room. */
  lemma MachineRefines(c: S.Config, s: S.Sched, a: MachineId, m: Machine, fn: FreeFn, t0: int, now: int)
    requires a in s.machines && s.machines[a] == Summary(m) && c.limited == !fn.Dynamic?
    ensures Summary(Checked(m, t0)) == Summary(m)
    ensures a in s.online && HasCapacity(m, fn, t0) ==> S.HasRoom(c, s, a)
    ensures forall j :: S.InsertJob(s, a, j) == s.(machines := s.machines[a := Summary(Sent(Checked(m, t0), j, now))])
    ensures forall p :: S.Followable(s, p) && s.scheduled[p].machine == a ==>
      S.Release(s, p).machines == s.machines[a := Summary(Dropped(m, p, now))]
  {
  }

  // ---- score and order ----

  /** A machine that is faster, has more cores or more bogomips never scores less; below
      one bogomips all score alike, and the rules leave out what they do not name. */
  lemma ScoreExactly(m: Spec)
    ensures ScoreOf(SpeedFactorOnly, m) == m.speedFactor
    ensures ScoreOf(CpuCoreCountWithSpeedFactor, m) == m.speedFactor * m.cpuCount as real
    ensures ScoreOf(BogomipsWithSpeedFactor, m)
         == if m.bogomips <= 1.0 then ScoreOf(CpuCoreCountWithSpeedFactor, m)
            else m.bogomips * ScoreOf(CpuCoreCountWithSpeedFactor, m)
  {
  }

  function ScoreOf(fn: SortFn, m: Spec): real {
    match fn
    case SpeedFactorOnly => m.speedFactor
    case CpuCoreCountWithSpeedFactor => m.speedFactor * m.cpuCount as real
    case BogomipsWithSpeedFactor => m.speedFactor * (if m.bogomips > 1.0 then m.bogomips else 1.0) * m.cpuCount as real
  }

  function Score(fn: SortFn, heap: Heap, a: MachineId): real { if a in heap then ScoreOf(fn, heap[a].spec) else 0.0 }

  function Load(heap: Heap, a: MachineId): nat { if a in heap then heap[a].stats.currentJobs else 0 }

  /** Higher score first; with equal score the machine with fewer jobs first. */
  function Before(fn: SortFn, heap: Heap): (MachineId, MachineId) -> bool {
    (a: MachineId, b: MachineId) =>
      || Score(fn, heap, a) > Score(fn, heap, b)
      || (Score(fn, heap, a) == Score(fn, heap, b) && Load(heap, a) <= Load(heap, b))
  }

  predicate Descending(fn: SortFn, heap: Heap, s: seq<MachineId>) {
    forall i, j :: 0 <= i < j < |s| ==> Score(fn, heap, s[i]) >= Score(fn, heap, s[j])
  }

  // ---- the index ----

  type Index = map<System, seq<MachineId>>

  function Count(index: Index, y: System, a: MachineId): nat {
    if y in index then multiset(index[y])[a] else 0
  }

  /** How often the index should list a machine under a system. */
  function Due(heap: Heap, registered: set<MachineId>, y: System, a: MachineId): nat {
    if a in registered && a in heap then multiset(heap[a].spec.systems)[y] else 0
  }

  predicate ListedOk(heap: Heap, registered: set<MachineId>, index: Index, y: System, a: MachineId) {
    Count(index, y, a) == Due(heap, registered, y, a)
  }

  /** Every list has exactly the registered machines of its system. */
  ghost predicate Indexed(heap: Heap, registered: set<MachineId>, index: Index) {
    && registered <= heap.Keys
    && forall y, a :: ListedOk(heap, registered, index, y, a)
  }

  predicate Ordered(fn: SortFn, heap: Heap, index: Index) {
    forall y :: y in index ==> Descending(fn, heap, index[y])
  }

  predicate Supports(m: Machine, y: System) { y in m.spec.systems }

  lemma ListedIffSupports(heap: Heap, registered: set<MachineId>, index: Index, y: System, a: MachineId)
    requires Indexed(heap, registered, index)
    ensures (y in index && a in index[y]) <==> (a in registered && Supports(heap[a], y))
  {
    assert ListedOk(heap, registered, index, y, a);
    assert y in index ==> (a in index[y] <==> a in multiset(index[y]));
    assert a in registered ==> (Supports(heap[a], y) <==> y in multiset(heap[a].spec.systems));
  }

  /** Job lists and statistics may change without touching the index. */
  predicate SameSpecs(heap: Heap, now: Heap) {
    heap.Keys == now.Keys && forall a :: a in heap ==> heap[a].spec == now[a].spec
  }

  lemma SameSpecsKeep(heap: Heap, now: Heap, registered: set<MachineId>, index: Index, fn: SortFn)
    requires SameSpecs(heap, now)
    ensures Indexed(heap, registered, index) ==> Indexed(now, registered, index)
    ensures Ordered(fn, heap, index) ==> Ordered(fn, now, index)
  {
    if Indexed(heap, registered, index) {
      forall y, a ensures ListedOk(now, registered, index, y, a) {
        assert ListedOk(heap, registered, index, y, a);
      }
    }
    assert forall a :: Score(fn, now, a) == Score(fn, heap, a);
    if Ordered(fn, heap, index) {
      forall y | y in index ensures Descending(fn, now, index[y]) {
        assert Descending(fn, heap, index[y]);
      }
    }
  }

  predicate Permuted(index: Index, now: Index) {
    index.Keys == now.Keys && forall y :: y in index ==> multiset(now[y]) == multiset(index[y])
  }

  // ---- eligibility ----

  predicate Features(m: Machine, required: seq<Feature>) {
    && (forall f :: f in m.spec.mandatory ==> f in required)
    && (forall f :: f in required ==> f in m.spec.supported)
  }

  predicate Eligible(m: Machine, required: seq<Feature>, free: Option<FreeFn>, now: int) {
    (free.Some? ==> HasCapacity(m, free.value, now)) && Features(m, required)
  }

  // ---- the operations ----

  lemma BeforeIsPreorder(fn: SortFn, heap: Heap)
    ensures TotalPreorder(Before(fn, heap))
  {
  }

  lemma SortedDescends(fn: SortFn, heap: Heap, s: seq<MachineId>)
    requires Sorted(Before(fn, heap), s)
    ensures Descending(fn, heap, s)
  {
    forall i, j | 0 <= i < j < |s| ensures Score(fn, heap, s[i]) >= Score(fn, heap, s[j]) {
      assert Before(fn, heap)(s[i], s[j]);
    }
  }

  function Drop(s: seq<MachineId>, a: MachineId): (r: seq<MachineId>)
    ensures multiset(r) == multiset(s)[a := 0]
  {
    if s == [] then []
    else assert s == [s[0]] + s[1..]; (if s[0] != a then [s[0]] else []) + Drop(s[1..], a)
  }

  lemma DropMember(s: seq<MachineId>, a: MachineId, x: MachineId)
    requires x in Drop(s, a)
    ensures exists k :: 0 <= k < |s| && s[k] == x
  {
    assert x in multiset(Drop(s, a)) && x in multiset(s);
  }

  lemma {:induction false} DropDescends(fn: SortFn, heap: Heap, s: seq<MachineId>, a: MachineId)
    requires Descending(fn, heap, s)
    ensures Descending(fn, heap, Drop(s, a))
  {
    if s != [] {
      DropDescends(fn, heap, s[1..], a);
      var t := Drop(s[1..], a);
      forall j | 0 <= j < |t| ensures Score(fn, heap, s[0]) >= Score(fn, heap, t[j]) {
        DropMember(s[1..], a, t[j]);
      }
    }
  }

  /** The index after a machine is pushed onto the list of each of its systems. */
  ghost predicate Pushed(index: Index, now: Index, a: MachineId, systems: seq<System>) {
    forall y, b :: PushedOk(index, now, a, systems, y, b)
  }

  predicate PushedOk(index: Index, now: Index, a: MachineId, systems: seq<System>, y: System, b: MachineId) {
    Count(now, y, b) == Count(index, y, b) + if a == b then multiset(systems)[y] else 0
  }

  ghost predicate Pulled(index: Index, now: Index, a: MachineId) {
    && now.Keys == index.Keys
    && forall y :: y in index ==> now[y] == index[y] || now[y] == Drop(index[y], a)
  }

  lemma InsertIndexed(heap: Heap, registered: set<MachineId>, index: Index, a: MachineId, m: Machine, now: Index)
    requires Indexed(heap, registered, index) && a !in heap && Pushed(index, now, a, m.spec.systems)
    ensures Indexed(heap[a := m], registered + {a}, now)
  {
    var heap1, registered1 := heap[a := m], registered + {a};
    forall y, b ensures ListedOk(heap1, registered1, now, y, b) {
      assert ListedOk(heap, registered, index, y, b) && PushedOk(index, now, a, m.spec.systems, y, b);
    }
  }

  lemma SortIndexed(heap: Heap, registered: set<MachineId>, index: Index, now: Index)
    requires Indexed(heap, registered, index) && Permuted(index, now)
    ensures Indexed(heap, registered, now)
  {
    forall y, b ensures ListedOk(heap, registered, now, y, b) {
      assert ListedOk(heap, registered, index, y, b);
    }
  }

  lemma RemoveIndexed(heap: Heap, registered: set<MachineId>, index: Index, a: MachineId, now: Index)
    requires Indexed(heap, registered, index) && a in registered && Pulled(index, now, a)
    requires forall y :: y in index && Supports(heap[a], y) ==> now[y] == Drop(index[y], a)
    ensures Indexed(heap, registered - {a}, now)
  {
    var rest := registered - {a};
    forall y, b ensures ListedOk(heap, rest, now, y, b) {
      assert ListedOk(heap, registered, index, y, b);
      ListedIffSupports(heap, registered, index, y, a);
    }
  }

  lemma RemoveOrdered(fn: SortFn, heap: Heap, index: Index, a: MachineId, now: Index)
    requires Pulled(index, now, a) && Ordered(fn, heap, index)
    ensures Ordered(fn, heap, now)
  {
    forall y | y in now ensures Descending(fn, heap, now[y]) {
      DropDescends(fn, heap, index[y], a);
    }
  }

  /** Any element: the order of a hash map is not known. */
  class Registry {
    var heap: Heap
    var byUuid: set<MachineId>
    var bySystem: Index

    constructor ()
      ensures heap == map[] && byUuid == {} && bySystem == map[]
      ensures Indexed(heap, byUuid, bySystem) && forall fn :: Ordered(fn, heap, bySystem)
    {
      heap, byUuid, bySystem := map[], {}, map[];
    }

    method Sort(fn: SortFn)
      modifies this`bySystem
      ensures Permuted(old(bySystem), bySystem)
      ensures forall y :: y in bySystem ==> StableSort(Before(fn, heap), old(bySystem)[y], bySystem[y])
      ensures Ordered(fn, heap, bySystem)
      ensures forall y, i, j ::
        y in bySystem && 0 <= i < j < |bySystem[y]| && bySystem[y][i] in heap && bySystem[y][j] in heap ==>
        var a, b := heap[bySystem[y][i]], heap[bySystem[y][j]];
        ScoreOf(fn, a.spec) > ScoreOf(fn, b.spec)
        || (ScoreOf(fn, a.spec) == ScoreOf(fn, b.spec) && a.stats.currentJobs <= b.stats.currentJobs)
      ensures Indexed(heap, byUuid, old(bySystem)) ==> Indexed(heap, byUuid, bySystem)
    {
      ghost var was := bySystem;
      BeforeIsPreorder(fn, heap);
      var todo := bySystem.Keys;
      while todo != {}
        invariant todo <= bySystem.Keys == was.Keys
        invariant forall y :: y in todo ==> bySystem[y] == was[y]
        invariant forall y :: y in bySystem && y !in todo ==> StableSort(Before(fn, heap), was[y], bySystem[y])
      {
        var y :| y in todo;
        SortByStable(Before(fn, heap), bySystem[y]);
        bySystem := bySystem[y := SortBy(Before(fn, heap), bySystem[y])];
        todo := todo - {y};
      }
      forall y | y in bySystem ensures Descending(fn, heap, bySystem[y]) {
        SortedDescends(fn, heap, bySystem[y]);
      }
      forall y, i, j | y in bySystem && 0 <= i < j < |bySystem[y]|
        ensures Before(fn, heap)(bySystem[y][i], bySystem[y][j])
      {
      }
      if Indexed(heap, byUuid, was) { SortIndexed(heap, byUuid, was, bySystem); }
    }

    method InsertMachine(a: MachineId, m: Machine, fn: SortFn)
      requires a !in heap && Indexed(heap, byUuid, bySystem)
      modifies this
      ensures heap == old(heap)[a := m] && byUuid == old(byUuid) + {a}
      ensures Indexed(heap, byUuid, bySystem) && Ordered(fn, heap, bySystem)
    {
      ghost var heap0, registered, index := heap, byUuid, bySystem;
      heap, byUuid := heap[a := m], byUuid + {a};
      PushMachine(a, m.spec.systems);
      InsertIndexed(heap0, registered, index, a, m, bySystem);
      Sort(fn);
    }

    method PushMachine(a: MachineId, systems: seq<System>)
      modifies this`bySystem
      ensures Pushed(old(bySystem), bySystem, a, systems)
    {
      for k := 0 to |systems|
        invariant Pushed(old(bySystem), bySystem, a, systems[..k])
      {
        assert systems[..k + 1] == systems[..k] + [systems[k]];
        var y := systems[k];
        ghost var was := bySystem;
        bySystem := bySystem[y := (if y in bySystem then bySystem[y] else []) + [a]];
        ghost var done := systems[..k + 1];
        forall z, b ensures PushedOk(old(bySystem), bySystem, a, done, z, b) {
          assert PushedOk(old(bySystem), was, a, systems[..k], z, b);
        }
      }
      assert systems[..|systems|] == systems;
    }

    method RemoveMachine(a: MachineId) returns (r: Option<Machine>)
      requires Indexed(heap, byUuid, bySystem)
      modifies this`byUuid, this`bySystem
      ensures r == if a in old(byUuid) then Some(heap[a]) else None
      ensures byUuid == old(byUuid) - {a}
      ensures Indexed(heap, byUuid, bySystem)
      ensures forall fn :: Ordered(fn, heap, old(bySystem)) ==> Ordered(fn, heap, bySystem)
    {
      if a !in byUuid {
        r := None;
      } else {
        r := Some(heap[a]);
        ghost var registered, index := byUuid, bySystem;
        byUuid := byUuid - {a};
        PullMachine(a, heap[a].spec.systems);
        RemoveIndexed(heap, registered, index, a, bySystem);
        forall fn | Ordered(fn, heap, index) ensures Ordered(fn, heap, bySystem) {
          RemoveOrdered(fn, heap, index, a, bySystem);
        }
      }
    }

    method PullMachine(a: MachineId, systems: seq<System>)
      modifies this`bySystem
      ensures Pulled(old(bySystem), bySystem, a)
      ensures forall y :: y in systems && y in bySystem ==> bySystem[y] == Drop(old(bySystem)[y], a)
    {
      ghost var index := bySystem;
      for k := 0 to |systems|
        invariant Pulled(index, bySystem, a)
        invariant forall y :: y in systems[..k] && y in bySystem ==> bySystem[y] == Drop(index[y], a)
      {
        var y := systems[k];
        assert systems[..k + 1] == systems[..k] + [y];
        if y in bySystem {
          PullNext(index, bySystem, a, y);
          bySystem := bySystem[y := Drop(bySystem[y], a)];
        }
      }
    }

    method AskCapacity(a: MachineId, fn: FreeFn, now: int) returns (r: bool)
      requires a in heap
      modifies this`heap
      ensures r == HasCapacity(old(heap)[a], fn, now)
      ensures heap == old(heap)[a := Checked(old(heap)[a], now)]
      ensures r <==> !Refuses(old(heap)[a], fn, now)
      ensures var s, t := old(heap)[a].stats, heap[a].stats;
        && heap[a] == old(heap)[a].(stats := t) && t == s.(recentStart := t.recentStart, recentCount := t.recentCount)
        && (t.recentStart, t.recentCount) == if now - s.recentStart > 30 then (0, 0) else (s.recentStart, s.recentCount)
    {
      CapacityExactly(heap[a], fn, now);
      var t := heap[a].stats;
      if now <= t.recentStart + WINDOW && t.recentCount >= BURST && t.currentJobs >= BURST {
        return false;
      } else if now > t.recentStart + WINDOW {
        heap := heap[a := heap[a].(stats := heap[a].stats.(recentStart := 0, recentCount := 0))];
      }
      var m := heap[a];
      if m.stats.buildDirFree < m.spec.buildDirThreshold { return false; }
      if m.stats.storeFree < m.spec.storeThreshold { return false; }
      match fn
      case Dynamic => r := DynamicCapacity(m);
      case DynamicWithMaxJobLimit => r := DynamicCapacity(m) && StaticCapacity(m);
      case Static => r := StaticCapacity(m);
    }

    /** First fit over the list of the system. The answer is a registered machine that
        supports the system and is eligible, and no such machine has a higher score;
        there is no answer only if there is no such machine. */
    method FirstFit(y: System, required: seq<Feature>, free: Option<FreeFn>, now: int, ghost fn: SortFn)
        returns (r: Option<MachineId>)
      requires Indexed(heap, byUuid, bySystem) && Ordered(fn, heap, bySystem)
      modifies this`heap
      ensures Asked(old(heap), heap, now)
      ensures BestFor(fn, old(heap), byUuid, y, required, free, now, r)
      ensures Indexed(heap, byUuid, bySystem) && Ordered(fn, heap, bySystem)
    {
      ghost var heap0 := heap;
      r := None;
      if y in bySystem {
        var list := bySystem[y];
        var k := 0;
        ListedKnown(heap, byUuid, bySystem, y);
        while k < |list| && r.None?
          invariant 0 <= k <= |list| && Asked(heap0, heap, now)
          invariant Scanned(heap0, list, k, required, free, now, r)
        {
          var a := list[k];
          ghost var was := heap;
          var room := true;
          if free.Some? {
            room := AskCapacity(a, free.value, now);
          }
          if room && Features(heap[a], required) {
            r := Some(a);
          }
          AskedNext(heap0, was, heap, a, free, now);
          k := k + 1;
        }
        ScanEnds(fn, heap0, byUuid, bySystem, y, required, free, now, k, r);
      } else {
        NotListed(heap, byUuid, bySystem, y);
      }
      AskedKeeps(heap0, heap, now);
      SameSpecsKeep(heap0, heap, byUuid, bySystem, fn);
    }

    /** The pseudo system `builtin` runs on any registered machine, in no order. */
    method AnyFit(required: seq<Feature>, free: Option<FreeFn>, now: int) returns (r: Option<MachineId>)
      requires byUuid <= heap.Keys
      modifies this`heap
      ensures Asked(old(heap), heap, now)
      ensures AnyFor(old(heap), byUuid, required, free, now, r)
    {
      ghost var heap0 := heap;
      var todo := byUuid;
      r := None;
      while todo != {} && r.None?
        invariant todo <= byUuid && Asked(heap0, heap, now)
        invariant r.Some? ==> r.value in byUuid && Eligible(heap0[r.value], required, free, now)
        invariant r.None? ==> forall a :: a in byUuid && a !in todo ==> !Eligible(heap0[a], required, free, now)
        decreases todo
      {
        var a :| a in todo;
        ghost var was := heap;
        var room := true;
        if free.Some? {
          room := AskCapacity(a, free.value, now);
        }
        if room && Features(heap[a], required) {
          r := Some(a);
        }
        AskedNext(heap0, was, heap, a, free, now);
        todo := todo - {a};
      }
    }

    method GetMachineForSystem(y: System, required: seq<Feature>, free: Option<FreeFn>, now: int, ghost fn: SortFn)
        returns (r: Option<MachineId>)
      requires Indexed(heap, byUuid, bySystem) && Ordered(fn, heap, bySystem)
      modifies this`heap
      ensures Asked(old(heap), heap, now)
      ensures y == BUILTIN ==> AnyFor(old(heap), byUuid, required, free, now, r)
      ensures y != BUILTIN ==> BestFor(fn, old(heap), byUuid, y, required, free, now, r)
      ensures Indexed(heap, byUuid, bySystem) && Ordered(fn, heap, bySystem)
      ensures r.Some? ==> r.value in byUuid && Suits(old(heap)[r.value], y, required, free, now)
      ensures r.None? ==> forall a :: a in byUuid ==> !Suits(old(heap)[a], y, required, free, now)
      ensures r.Some? && y != "builtin" ==>
        forall a :: a in byUuid && Suits(old(heap)[a], y, required, free, now) ==>
          ScoreOf(fn, old(heap)[a].spec) <= ScoreOf(fn, old(heap)[r.value].spec)
    {
      ghost var heap0 := heap;
      if y == BUILTIN {
        r := AnyFit(required, free, now);
        AskedKeeps(heap0, heap, now);
        SameSpecsKeep(heap0, heap, byUuid, bySystem, fn);
      } else {
        r := FirstFit(y, required, free, now, fn);
      }
      AnswerSuits(fn, heap0, byUuid, y, required, free, now, r);
    }

    /** Looks for a machine with the features of the step and those of the queue. */
    method Resolve(y: System, step: seq<Feature>, queue: seq<Feature>, free: FreeFn, now: int, ghost fn: SortFn)
        returns (r: Option<MachineId>)
      requires Indexed(heap, byUuid, bySystem) && Ordered(fn, heap, bySystem)
      modifies this`heap
      ensures Asked(old(heap), heap, now)
      ensures y == BUILTIN ==> AnyFor(old(heap), byUuid, step + queue, Some(free), now, r)
      ensures y != BUILTIN ==> BestFor(fn, old(heap), byUuid, y, step + queue, Some(free), now, r)
      ensures Indexed(heap, byUuid, bySystem) && Ordered(fn, heap, bySystem)
      ensures r.Some? ==> r.value in byUuid && Suits(old(heap)[r.value], y, step + queue, Some(free), now)
      ensures r.None? ==> forall a :: a in byUuid ==> !Suits(old(heap)[a], y, step + queue, Some(free), now)
    {
      var merged := if queue == [] then step else step + queue;
      assert merged == step + queue;
      r := GetMachineForSystem(y, merged, Some(free), now, fn);
    }

    method BuildDrv(a: MachineId, j: Job, now: int)
      requires a in heap
      modifies this`heap
      ensures heap == old(heap)[a := Sent(old(heap)[a], j, now)]
      ensures heap[a].jobs == old(heap)[a].jobs + [j] && heap[a].spec == old(heap)[a].spec
      ensures var s, t := old(heap)[a].stats, heap[a].stats;
        && t == s.(currentJobs := |old(heap)[a].jobs| + 1, recentStart := t.recentStart, recentCount := t.recentCount)
        && t.recentStart == (if s.recentCount == 0 then now else s.recentStart)
        && (s.recentCount < 0xffff_ffff_ffff_ffff ==> t.recentCount == s.recentCount + 1)
    {
      if heap[a].stats.recentCount == 0 {
        heap := heap[a := heap[a].(stats := heap[a].stats.(recentStart := now))];
      }
      heap := heap[a := heap[a].(jobs := heap[a].jobs + [j])];
      heap := heap[a := heap[a].(stats := heap[a].stats.(currentJobs := |heap[a].jobs|))];
      heap := heap[a := heap[a].(stats := heap[a].stats.(recentCount := (heap[a].stats.recentCount + 1) % WORD))];
    }

    method RemoveJob(a: MachineId, p: Path, now: int) returns (r: Option<Job>)
      requires a in heap
      modifies this`heap
      ensures heap == old(heap)[a := Dropped(old(heap)[a], p, now)]
      ensures r == FirstWithPath(old(heap)[a].jobs, p)
      ensures (forall x :: x in heap[a].jobs <==> x in old(heap)[a].jobs && x.path != p)
        && heap[a].spec == old(heap)[a].spec
      ensures var s, t := old(heap)[a].stats, heap[a].stats;
        && t == s.(currentJobs := |heap[a].jobs|, stepsDone := s.stepsDone + 1, recentCount := t.recentCount)
        && (now - s.recentStart > 30 ==> t.recentCount == s.recentCount)
        && (now - s.recentStart <= 30 && 0 < s.recentCount <= 0xffff_ffff_ffff_ffff ==>
              t.recentCount == s.recentCount - 1)
        && (now - s.recentStart <= 30 && s.recentCount == 0 ==> t.recentCount == 0xffff_ffff_ffff_ffff)
    {
      var m := heap[a];
      r := FirstWithPath(m.jobs, p);
      var jobs := S.Without(m.jobs, p);
      var t := m.stats.(stepsDone := m.stats.stepsDone + 1, currentJobs := |jobs|);
      if now <= t.recentStart + WINDOW {
        t := t.(recentCount := (t.recentCount + WORD - 1) % WORD);
      }
      heap := heap[a := m.(jobs := jobs, stats := t)];
    }
  }

  const BUILTIN := "builtin"

  /** The machine may run a step of the system: it is for the system, has every feature
      that is required and no mandatory one that is not, and does not refuse. */
  predicate Suits(m: Machine, y: System, required: seq<Feature>, free: Option<FreeFn>, now: int) {
    && (y == "builtin" || y in m.spec.systems)
    && (forall f :: f in required ==> f in m.spec.supported)
    && (forall f :: f in m.spec.mandatory ==> f in required)
    && (free.Some? ==> !Refuses(m, free.value, now))
  }

  lemma SuitsExactly(m: Machine, y: System, required: seq<Feature>, free: Option<FreeFn>, now: int)
    ensures Suits(m, y, required, free, now) <==> (y == BUILTIN || Supports(m, y)) && Eligible(m, required, free, now)
  {
    if free.Some? { CapacityExactly(m, free.value, now); }
  }

  lemma AnswerSuits(
      fn: SortFn, heap: Heap, registered: set<MachineId>, y: System, required: seq<Feature>, free: Option<FreeFn>,
      now: int, r: Option<MachineId>)
    requires registered <= heap.Keys
    requires if y == BUILTIN then AnyFor(heap, registered, required, free, now, r)
             else BestFor(fn, heap, registered, y, required, free, now, r)
    ensures r.Some? ==> r.value in registered && Suits(heap[r.value], y, required, free, now)
    ensures r.None? ==> forall a :: a in registered ==> !Suits(heap[a], y, required, free, now)
    ensures r.Some? && y != "builtin" ==>
      forall a :: a in registered && Suits(heap[a], y, required, free, now) ==>
        ScoreOf(fn, heap[a].spec) <= ScoreOf(fn, heap[r.value].spec)
  {
    if r.Some? { SuitsExactly(heap[r.value], y, required, free, now); }
    forall a | a in registered
      ensures Suits(heap[a], y, required, free, now) ==>
        && r.Some?
        && (y != BUILTIN ==> ScoreOf(fn, heap[a].spec) <= ScoreOf(fn, heap[r.value].spec))
    {
      SuitsExactly(heap[a], y, required, free, now);
      if y != BUILTIN && Suits(heap[a], y, required, free, now) {
        assert Candidate(heap, registered, y, required, free, now, a);
        assert Score(fn, heap, a) == ScoreOf(fn, heap[a].spec);
      }
    }
  }

  /** Machines may have been asked for capacity, and nothing else happened. */
  predicate Asked(heap: Heap, now: Heap, t: int) {
    heap.Keys == now.Keys && forall a :: a in heap ==> now[a] == heap[a] || now[a] == Checked(heap[a], t)
  }

  lemma AskedNext(heap0: Heap, was: Heap, heap: Heap, a: MachineId, free: Option<FreeFn>, now: int)
    requires Asked(heap0, was, now) && a in heap0
    requires heap == if free.Some? then was[a := Checked(was[a], now)] else was
    ensures Asked(heap0, heap, now) && heap[a].spec == heap0[a].spec
    ensures free.Some? ==> HasCapacity(was[a], free.value, now) == HasCapacity(heap0[a], free.value, now)
  {
    CheckedSame(heap0[a], if free.Some? then free.value else Static, now);
  }

  lemma AskedKeeps(heap: Heap, after: Heap, now: int)
    requires Asked(heap, after, now)
    ensures SameSpecs(heap, after)
  {
  }

  /** What the scan knows: everything before position `k` was refused, except that
      the last one may be the answer. */
  predicate Scanned(
      heap: Heap, list: seq<MachineId>, k: nat, required: seq<Feature>, free: Option<FreeFn>, now: int,
      r: Option<MachineId>)
    requires k <= |list| && forall i :: 0 <= i < |list| ==> list[i] in heap
  {
    match r
    case None => forall i :: 0 <= i < k ==> !Eligible(heap[list[i]], required, free, now)
    case Some(a) =>
      && k > 0 && list[k - 1] == a && Eligible(heap[a], required, free, now)
      && forall i :: 0 <= i < k - 1 ==> !Eligible(heap[list[i]], required, free, now)
  }

  ghost predicate Candidate(
      heap: Heap, registered: set<MachineId>, y: System, required: seq<Feature>, free: Option<FreeFn>, now: int,
      a: MachineId) {
    a in registered && a in heap && Supports(heap[a], y) && Eligible(heap[a], required, free, now)
  }

  ghost predicate BestFor(
      fn: SortFn, heap: Heap, registered: set<MachineId>, y: System, required: seq<Feature>, free: Option<FreeFn>,
      now: int, r: Option<MachineId>) {
    match r
    case None => forall a :: !Candidate(heap, registered, y, required, free, now, a)
    case Some(b) =>
      && Candidate(heap, registered, y, required, free, now, b)
      && forall a :: Candidate(heap, registered, y, required, free, now, a) ==> Score(fn, heap, b) >= Score(fn, heap, a)
  }

  predicate AnyFor(
      heap: Heap, registered: set<MachineId>, required: seq<Feature>, free: Option<FreeFn>, now: int,
      r: Option<MachineId>)
    requires registered <= heap.Keys
  {
    match r
    case None => forall a :: a in registered ==> !Eligible(heap[a], required, free, now)
    case Some(b) => b in registered && Eligible(heap[b], required, free, now)
  }

  lemma ListedKnown(heap: Heap, registered: set<MachineId>, index: Index, y: System)
    requires Indexed(heap, registered, index) && y in index
    ensures forall i :: 0 <= i < |index[y]| ==> index[y][i] in heap && index[y][i] in registered
  {
    forall i | 0 <= i < |index[y]| ensures index[y][i] in registered {
      ListedIffSupports(heap, registered, index, y, index[y][i]);
    }
  }

  lemma NotListed(heap: Heap, registered: set<MachineId>, index: Index, y: System)
    requires Indexed(heap, registered, index) && y !in index
    ensures forall a :: a in registered ==> !Supports(heap[a], y)
  {
    forall a | a in registered ensures !Supports(heap[a], y) {
      ListedIffSupports(heap, registered, index, y, a);
    }
  }

  lemma ScanEnds(
      fn: SortFn, heap: Heap, registered: set<MachineId>, index: Index, y: System, required: seq<Feature>,
      free: Option<FreeFn>, now: int, k: nat, r: Option<MachineId>)
    requires Indexed(heap, registered, index) && Ordered(fn, heap, index) && y in index && k <= |index[y]|
    requires forall i :: 0 <= i < |index[y]| ==> index[y][i] in heap
    requires Scanned(heap, index[y], k, required, free, now, r) && (r.None? ==> k == |index[y]|)
    ensures BestFor(fn, heap, registered, y, required, free, now, r)
  {
    var list := index[y];
    assert Descending(fn, heap, list);
    forall a | Candidate(heap, registered, y, required, free, now, a)
      ensures r.Some? && Score(fn, heap, r.value) >= Score(fn, heap, a)
    {
      ListedIffSupports(heap, registered, index, y, a);
      var i :| 0 <= i < |list| && list[i] == a;
    }
    if r.Some? {
      ListedIffSupports(heap, registered, index, y, r.value);
    }
  }

  lemma PullNext(index: Index, now: Index, a: MachineId, y: System)
    requires Pulled(index, now, a) && y in index
    ensures Pulled(index, now[y := Drop(now[y], a)], a) && Drop(now[y], a) == Drop(index[y], a)
  {
    DropTwice(index[y], a);
  }

  lemma DropTwice(s: seq<MachineId>, a: MachineId)
    ensures Drop(Drop(s, a), a) == Drop(s, a)
  {
    var t := Drop(s, a);
    assert a !in multiset(t);
    DropNone(t, a);
  }

  lemma {:induction false} DropNone(s: seq<MachineId>, a: MachineId)
    requires a !in multiset(s)
    ensures Drop(s, a) == s
  {
    if s != [] {
      assert s == [s[0]] + s[1..];
      assert multiset(s) == multiset{s[0]} + multiset(s[1..]);
      DropNone(s[1..], a);
    }
  }
}
