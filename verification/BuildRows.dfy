/**
 The rows of `builds` and `buildsteps` under every statement that writes them.

 Statements of different sessions interleave freely; only the check and the
 update of `mark_succeeded_build`, which share a transaction, are one step.
 Allocating a step number and inserting the row are two.
 */
module BuildRows {
  import opened Collections

  type BuildId = int
  type Session = nat

  datatype BuildStatus =
    | Success | Failed | DepFailed | Aborted | Cancelled | FailedWithOutput | TimedOut | CachedFailure
    | Unsupported | LogLimitExceeded | NarSizeLimitExceeded | NotDeterministic | Busy

  function StatusCode(s: BuildStatus): int {
    match s
    case Success => 0 case Failed => 1 case DepFailed => 2 case Aborted => 3 case Cancelled => 4
    case FailedWithOutput => 6 case TimedOut => 7 case CachedFailure => 8 case Unsupported => 9
    case LogLimitExceeded => 10 case NarSizeLimitExceeded => 11 case NotDeterministic => 12 case Busy => 100
  }

  datatype StepStatus =
    | Preparing
    | Connecting
    | SendingInputs
    | Building
    | WaitingForLocalSlot
    | ReceivingOutputs
    | PostProcessing

  function StepCode(s: StepStatus): int {
    match s
    case Preparing => 1 case Connecting => 10 case SendingInputs => 20 case Building => 30
    case WaitingForLocalSlot => 35 case ReceivingOutputs => 40 case PostProcessing => 50
  }

  datatype Build = Build(finished: bool, status: Option<int>)
  datatype Step = Step(busy: int, status: Option<int>)

  type Steps = map<int, Step>

  /** `pending` is the step number a session has read and not yet inserted. */
  datatype Rows = Rows(builds: map<BuildId, Build>, steps: map<BuildId, Steps>, pending: map<Session, (BuildId, int)>)

  function StepsOf(r: Rows, b: BuildId): Steps { if b in r.steps then r.steps[b] else map[] }

  datatype Event =
    | NewBuild(b: BuildId)
    | AbortBuild(b: BuildId)
    | FailBuild(b: BuildId, status: BuildStatus)
    | MarkSucceeded(b: BuildId, finishedInDb: bool, failed: bool)
    | ClearBusy
    | UpdateStep(b: BuildId, nr: int, step: StepStatus)
    | FinishStep(b: BuildId, nr: int, status: BuildStatus)
    | Alloc(session: Session, b: BuildId, nr: int)
    | Insert(session: Session, status: BuildStatus)

  /** What the query for the highest number, plus one, gives. */
  predicate NextNumber(steps: Steps, nr: int) {
    if steps == map[] then nr == 1
    else nr - 1 in steps && forall k :: k in steps ==> k <= nr - 1
  }

  // ---- the statements ----

  function SetBuild(r: Rows, b: BuildId, status: BuildStatus): Rows {
    r.(builds := r.builds[b := Build(true, Some(StatusCode(status)))])
  }

  function FinishUnfinished(r: Rows, b: BuildId, status: BuildStatus): Rows {
    if b in r.builds && !r.builds[b].finished then SetBuild(r, b, status) else r
  }

  function SetStep(r: Rows, b: BuildId, nr: int, s: Step): Rows {
    r.(steps := r.steps[b := StepsOf(r, b)[nr := s]])
  }

  function Cleared(s: Step): Step { if s.busy != 0 then Step(0, Some(StatusCode(Aborted))) else s }

  function NewStep(status: BuildStatus): Step {
    if status.Busy? then Step(1, None) else Step(0, Some(StatusCode(status)))
  }

  predicate Enabled(r: Rows, e: Event) {
    match e
    case NewBuild(b) => b !in r.builds
    case Alloc(_, b, nr) => NextNumber(StepsOf(r, b), nr)
    case Insert(x, _) => x in r.pending
    case _ => true
  }

  function Apply(r: Rows, e: Event): Rows
    requires Enabled(r, e)
  {
    match e
    case NewBuild(b) => r.(builds := r.builds[b := Build(false, None)])
    case AbortBuild(b) => FinishUnfinished(r, b, Aborted)
    case FailBuild(b, status) => FinishUnfinished(r, b, status)
    case MarkSucceeded(b, finishedInDb, failed) =>
      if finishedInDb || !(b in r.builds && !r.builds[b].finished) then r
      else SetBuild(r, b, if failed then FailedWithOutput else Success)
    case ClearBusy => r.(steps := map b | b in r.steps :: map nr | nr in r.steps[b] :: Cleared(r.steps[b][nr]))
    case UpdateStep(b, nr, s) =>
      if nr in StepsOf(r, b) && StepsOf(r, b)[nr].busy != 0 && StepsOf(r, b)[nr].status.None?
      then SetStep(r, b, nr, Step(StepCode(s), None)) else r
    case FinishStep(b, nr, status) =>
      if nr in StepsOf(r, b) then SetStep(r, b, nr, Step(0, Some(StatusCode(status)))) else r
    case Alloc(x, b, nr) => r.(pending := r.pending[x := (b, nr)])
    case Insert(x, status) =>
      var (b, nr) := r.pending[x];
      var h := r.(pending := r.pending - {x});
      if nr in StepsOf(r, b) then h else SetStep(h, b, nr, NewStep(status))
  }

  // ---- invariants ----

  predicate BuildOk(r: Rows, b: BuildId) {
    b in r.builds ==> (r.builds[b].finished <==> r.builds[b].status.Some?)
  }

  predicate StepOk(r: Rows, b: BuildId, nr: int) {
    nr in StepsOf(r, b) ==> (StepsOf(r, b)[nr].busy != 0 <==> StepsOf(r, b)[nr].status.None?)
  }

  /** The numbers of a build go from 1 up without a gap. */
  predicate NumberOk(r: Rows, b: BuildId, nr: int, k: int) {
    nr in StepsOf(r, b) ==> nr >= 1 && (1 <= k <= nr ==> k in StepsOf(r, b))
  }

  /** A number someone allocated is taken by now or is the next one. */
  predicate AllocatedOk(r: Rows, x: Session, k: int) {
    x in r.pending ==> r.pending[x].1 >= 1 && (1 <= k < r.pending[x].1 ==> k in StepsOf(r, r.pending[x].0))
  }

  ghost predicate Inv(r: Rows) {
    && (forall b :: BuildOk(r, b))
    && (forall b, nr :: StepOk(r, b, nr))
    && (forall b, nr, k :: NumberOk(r, b, nr, k))
    && (forall x, k :: AllocatedOk(r, x, k))
  }

  lemma ApplyBuilds(r: Rows, e: Event, b: BuildId)
    requires Inv(r) && Enabled(r, e)
    ensures BuildOk(Apply(r, e), b)
    ensures b in r.builds ==> b in Apply(r, e).builds
    ensures b in r.builds && r.builds[b].finished ==> Apply(r, e).builds[b] == r.builds[b]
  {
    assert BuildOk(r, b);
  }

  lemma ApplySteps(r: Rows, e: Event, b: BuildId, nr: int)
    requires Inv(r) && Enabled(r, e)
    ensures StepOk(Apply(r, e), b, nr)
    ensures nr in StepsOf(r, b) ==> nr in StepsOf(Apply(r, e), b)
    ensures nr in StepsOf(r, b) && StepsOf(r, b)[nr].status.Some? ==> StepsOf(Apply(r, e), b)[nr].status.Some?
    ensures nr in StepsOf(Apply(r, e), b) && nr !in StepsOf(r, b) ==> e.Insert? && r.pending[e.session] == (b, nr)
  {
    assert StepOk(r, b, nr);
  }

  lemma ApplyKeeps(r: Rows, e: Event)
    requires Inv(r) && Enabled(r, e)
    ensures Inv(Apply(r, e))
  {
    var h := Apply(r, e);
    forall b ensures BuildOk(h, b) { ApplyBuilds(r, e, b); }
    forall b, nr ensures StepOk(h, b, nr) { ApplySteps(r, e, b, nr); }
    forall b, nr, k ensures NumberOk(h, b, nr, k) {
      ApplySteps(r, e, b, nr);
      ApplySteps(r, e, b, k);
      assert NumberOk(r, b, nr, k);
      if nr in StepsOf(h, b) && nr !in StepsOf(r, b) {
        assert AllocatedOk(r, e.session, k);
      }
    }
    forall x, k ensures AllocatedOk(h, x, k) {
      assert AllocatedOk(r, x, k);
      if x in h.pending {
        ApplySteps(r, e, h.pending[x].0, k);
        if e.Alloc? && e.session == x {
          assert NumberOk(r, e.b, e.nr - 1, k);
        }
      }
    }
  }

  // ---- runs ----

  ghost predicate Next(rs: seq<Rows>, es: seq<Event>, i: nat)
    requires |rs| == |es| + 1 && i < |es|
  {
    Enabled(rs[i], es[i]) && rs[i + 1] == Apply(rs[i], es[i])
  }

  ghost predicate Run(rs: seq<Rows>, es: seq<Event>) {
    |rs| == |es| + 1 && rs[0] == Rows(map[], map[], map[]) && forall i :: 0 <= i < |es| ==> Next(rs, es, i)
  }

  lemma {:induction false} RunInv(rs: seq<Rows>, es: seq<Event>, i: nat)
    requires Run(rs, es) && i < |rs|
    ensures Inv(rs[i])
  {
    if i > 0 {
      RunInv(rs, es, i - 1);
      assert Next(rs, es, i - 1);
      ApplyKeeps(rs[i - 1], es[i - 1]);
    }
  }

  /** A step row is busy exactly while it has no status. */
  lemma BusyIffNoStatus(rs: seq<Rows>, es: seq<Event>, i: nat, b: BuildId, nr: int)
    requires Run(rs, es) && i < |rs| && nr in StepsOf(rs[i], b)
    ensures StepsOf(rs[i], b)[nr].busy != 0 <==> StepsOf(rs[i], b)[nr].status.None?
  {
    RunInv(rs, es, i);
    assert StepOk(rs[i], b, nr);
  }

  /** The step numbers of a build are 1, ..., n. */
  lemma StepNumbersContiguous(rs: seq<Rows>, es: seq<Event>, i: nat, b: BuildId)
    requires Run(rs, es) && i < |rs|
    ensures forall k :: k in StepsOf(rs[i], b) <==> 1 <= k <= |StepsOf(rs[i], b)|
  {
    RunInv(rs, es, i);
    NumbersFromOne(rs[i], b);
  }

  lemma NumbersFromOne(r: Rows, b: BuildId)
    requires Inv(r)
    ensures forall k :: k in StepsOf(r, b) <==> 1 <= k <= |StepsOf(r, b)|
  {
    var keys := StepsOf(r, b).Keys;
    forall nr, k | nr in keys && 1 <= k <= nr ensures k in keys { assert NumberOk(r, b, nr, k); }
    forall nr | nr in keys ensures nr >= 1 { assert NumberOk(r, b, nr, nr); }
    DownwardClosed(keys);
    assert |keys| == |StepsOf(r, b)|;
  }

  lemma {:induction false} DownwardClosed(keys: set<int>)
    requires forall nr :: nr in keys ==> nr >= 1
    requires forall nr, k :: nr in keys && 1 <= k <= nr ==> k in keys
    ensures forall k :: k in keys <==> 1 <= k <= |keys|
  {
    if keys != {} {
      var m := Greatest(keys);
      var rest := keys - {m};
      DownwardClosed(rest);
      assert |rest| == |keys| - 1;
      assert m - 1 in rest || m == 1;
      assert |rest| in rest || |rest| == 0;
      assert m == |keys|;
      assert forall k :: k in keys <==> k in rest || k == m;
    }
  }

  lemma {:induction false} Greatest(keys: set<int>) returns (m: int)
    requires keys != {}
    ensures m in keys && forall k :: k in keys ==> k <= m
  {
    var x := HasElement(keys);
    var rest := keys - {x};
    m := x;
    if rest != {} {
      var n := Greatest(rest);
      m := if n > x then n else x;
    }
    assert forall k :: k in keys ==> k == x || k in rest;
  }

  /** Once a build is finished, its row never changes again. */
  lemma {:induction false} TerminalStatusStays(rs: seq<Rows>, es: seq<Event>, i: nat, j: nat, b: BuildId)
    requires Run(rs, es) && i <= j < |rs| && b in rs[i].builds && rs[i].builds[b].finished
    ensures b in rs[j].builds && rs[j].builds[b] == rs[i].builds[b] && rs[i].builds[b].status.Some?
    decreases j - i
  {
    if i == j {
      RunInv(rs, es, i);
      assert BuildOk(rs[i], b);
    } else {
      TerminalStatusStays(rs, es, i, j - 1, b);
      RunInv(rs, es, j - 1);
      assert Next(rs, es, j - 1);
      ApplyBuilds(rs[j - 1], es[j - 1], b);
    }
  }

  /** Two insertions that succeed never give the same number of the same build. */
  lemma {:induction false} RowsStay(rs: seq<Rows>, es: seq<Event>, i: nat, j: nat, b: BuildId, nr: int)
    requires Run(rs, es) && i <= j < |rs| && nr in StepsOf(rs[i], b)
    ensures nr in StepsOf(rs[j], b)
    ensures StepsOf(rs[i], b)[nr].status.Some? ==> StepsOf(rs[j], b)[nr].status.Some?
    decreases j - i
  {
    if i < j {
      RowsStay(rs, es, i, j - 1, b, nr);
      RunInv(rs, es, j - 1);
      assert Next(rs, es, j - 1);
      ApplySteps(rs[j - 1], es[j - 1], b, nr);
    }
  }

  predicate Creates(r: Rows, e: Event, b: BuildId, nr: int) {
    e.Insert? && e.session in r.pending && r.pending[e.session] == (b, nr) && nr !in StepsOf(r, b)
  }

  lemma NumbersUnique(rs: seq<Rows>, es: seq<Event>, i: nat, j: nat, b: BuildId, nr: int)
    requires Run(rs, es) && i < j < |es| && Creates(rs[i], es[i], b, nr)
    ensures !Creates(rs[j], es[j], b, nr)
  {
    assert Next(rs, es, i);
    RowsStay(rs, es, i + 1, j, b, nr);
  }

  // ---- the transaction of a success ----

  /** The event finishes the build, with another status. */
  predicate FinishesOther(r: Rows, e: Event, b: BuildId, status: BuildStatus) {
    && Enabled(r, e) && b in r.builds && !r.builds[b].finished && b in Apply(r, e).builds
    && Apply(r, e).builds[b].finished && Apply(r, e).builds[b].status != Some(StatusCode(status))
  }

  /** The update without a check of its own would change a terminal status. */
  predicate Overwrites(r: Rows, b: BuildId, status: BuildStatus) {
    b in r.builds && r.builds[b].finished && SetBuild(r, b, status).builds[b] != r.builds[b]
  }

  /** If the check and the update of `mark_succeeded_build` did not share a transaction,
      then the update, at `j`, would overwrite a terminal status exactly if some statement
      since the check, at `i`, finished the build with another one. */
  lemma {:induction false} UnguardedUpdate(
      rs: seq<Rows>, es: seq<Event>, i: nat, j: nat, b: BuildId, status: BuildStatus)
    requires Run(rs, es) && i <= j < |rs| && b in rs[i].builds && !rs[i].builds[b].finished
    ensures Overwrites(rs[j], b, status) <==> exists k :: i <= k < j && FinishesOther(rs[k], es[k], b, status)
    decreases j - i
  {
    if i < j {
      RunInv(rs, es, i);
      assert Next(rs, es, i);
      ApplyBuilds(rs[i], es[i], b);
      if rs[i + 1].builds[b].finished {
        TerminalStatusStays(rs, es, i + 1, j, b);
        forall k | i < k < j ensures !FinishesOther(rs[k], es[k], b, status) {
          TerminalStatusStays(rs, es, i + 1, k, b);
        }
      } else {
        UnguardedUpdate(rs, es, i + 1, j, b, status);
      }
    }
  }

  // ---- who wrote a status ----

  /** The event finishes build `b` with status `x`. */
  predicate Finishes(e: Event, b: BuildId, x: int) {
    || (e.AbortBuild? && e.b == b && x == 3)
    || (e.FailBuild? && e.b == b && x == StatusCode(e.status))
    || (e.MarkSucceeded? && e.b == b && !e.finishedInDb && x == if e.failed then 6 else 0)
  }

  /** An unfinished build is finished by exactly these statements, with their status. */
  lemma FinishesExactly(r: Rows, e: Event, b: BuildId, x: int)
    requires Inv(r) && Enabled(r, e) && b in r.builds && !r.builds[b].finished
    ensures b in Apply(r, e).builds
    ensures Apply(r, e).builds[b] == Build(true, Some(x)) <==> Finishes(e, b, x)
    ensures Apply(r, e).builds[b].finished || Apply(r, e).builds[b] == r.builds[b]
  {
    assert BuildOk(r, b);
  }

  /** In every run a build row has a status if and only if one of these statements met it
      unfinished, and then that of the statement. */
  lemma {:induction false} StatusWrittenBy(rs: seq<Rows>, es: seq<Event>, i: nat, b: BuildId, x: int)
    requires Run(rs, es) && i < |rs| && b in rs[i].builds
    ensures rs[i].builds[b] == Build(true, Some(x)) <==>
      exists k :: 0 <= k < i && b in rs[k].builds && !rs[k].builds[b].finished && Finishes(es[k], b, x)
  {
    if i > 0 {
      RunInv(rs, es, i - 1);
      assert Next(rs, es, i - 1);
      if b in rs[i - 1].builds {
        StatusWrittenBy(rs, es, i - 1, b, x);
        if rs[i - 1].builds[b].finished {
          ApplyBuilds(rs[i - 1], es[i - 1], b);
        } else {
          FinishesExactly(rs[i - 1], es[i - 1], b, x);
        }
      } else {
        forall k: nat | k < i ensures b in rs[k].builds ==> b in rs[i - 1].builds {
          if b in rs[k].builds { BuildsStay(rs, es, k, i - 1, b); }
        }
      }
    }
  }

  /** Rows of builds are never deleted. */
  lemma {:induction false} BuildsStay(rs: seq<Rows>, es: seq<Event>, k: nat, i: nat, b: BuildId)
    requires Run(rs, es) && k <= i < |rs| && b in rs[k].builds
    ensures b in rs[i].builds
    decreases i - k
  {
    if k < i {
      BuildsStay(rs, es, k, i - 1, b);
      RunInv(rs, es, i - 1);
      assert Next(rs, es, i - 1);
      ApplyBuilds(rs[i - 1], es[i - 1], b);
    }
  }

  /** What each statement makes of a step row that is there: finishing writes its status,
      clearing aborts a busy row, and progress shows only on a busy row without status. */
  lemma StepRowAfter(r: Rows, e: Event, b: BuildId, nr: int)
    requires Inv(r) && Enabled(r, e) && nr in StepsOf(r, b)
    ensures nr in StepsOf(Apply(r, e), b)
    ensures var s := StepsOf(r, b)[nr];
      StepsOf(Apply(r, e), b)[nr] ==
        if e.FinishStep? && e.b == b && e.nr == nr then Step(0, Some(StatusCode(e.status)))
        else if e.ClearBusy? && s.busy != 0 then Step(0, Some(3))
        else if e.UpdateStep? && e.b == b && e.nr == nr && s.busy != 0 then Step(StepCode(e.step), None)
        else s
  {
    assert StepOk(r, b, nr);
  }

  /** A new step row is busy without a status, or has the status it was inserted with. */
  lemma StepRowInserted(r: Rows, e: Event, b: BuildId, nr: int)
    requires Inv(r) && Enabled(r, e) && Creates(r, e, b, nr)
    ensures StepsOf(Apply(r, e), b) == StepsOf(r, b)[nr := if e.status.Busy? then Step(1, None)
                                                            else Step(0, Some(StatusCode(e.status)))]
    ensures Apply(r, e).builds == r.builds && Apply(r, e).pending == r.pending - {e.session}
  {
  }

  /** The status that a code stands for. */
  function FromCode(v: int): Option<BuildStatus> {
    match v
    case 0 => Some(Success) case 1 => Some(Failed) case 2 => Some(DepFailed) case 3 => Some(Aborted)
    case 4 => Some(Cancelled) case 6 => Some(FailedWithOutput) case 7 => Some(TimedOut) case 8 => Some(CachedFailure)
    case 9 => Some(Unsupported) case 10 => Some(LogLimitExceeded) case 11 => Some(NarSizeLimitExceeded)
    case 12 => Some(NotDeterministic) case 100 => Some(Busy) case _ => None
  }

  lemma CodesReadBack(s: BuildStatus, v: int)
    ensures FromCode(v) == Some(s) <==> v == StatusCode(s)
  {
  }

  /** The codes a step row shows while it is busy: they grow with the stages. */
  lemma StageCodes()
    ensures 0 < StepCode(Preparing) == 1 < StepCode(Connecting) == 10 < StepCode(SendingInputs) == 20
    ensures 20 < StepCode(Building) == 30 < StepCode(WaitingForLocalSlot) == 35 < StepCode(ReceivingOutputs) == 40
    ensures StepCode(PostProcessing) == 50
  {
  }

  // ---- the statements in place ----

  class Database {
    var builds: map<BuildId, Build>
    var steps: map<BuildId, Steps>

    constructor ()
      ensures View() == Rows(map[], map[], map[])
    {
      builds, steps := map[], map[];
    }

    ghost function View(): Rows
      reads this
    {
      Rows(builds, steps, map[])
    }

    method FinishIfUnfinished(b: BuildId, status: BuildStatus)
      modifies this`builds
      ensures View() == FinishUnfinished(old(View()), b, status)
      ensures builds == if b in old(builds) && !old(builds)[b].finished
        then old(builds)[b := Build(true, Some(StatusCode(status)))] else old(builds)
    {
      if b in builds && !builds[b].finished {
        builds := builds[b := Build(true, Some(StatusCode(status)))];
      }
    }

    method Abort(b: BuildId)
      modifies this`builds
      ensures View() == Apply(old(View()), AbortBuild(b))
      ensures builds == if b in old(builds) && !old(builds)[b].finished
        then old(builds)[b := Build(true, Some(3))] else old(builds)
    {
      FinishIfUnfinished(b, Aborted);
    }

    method UpdateBuild(b: BuildId, status: BuildStatus)
      modifies this`builds
      ensures View() == if b in old(builds) then SetBuild(old(View()), b, status) else old(View())
    {
      if b in builds {
        builds := builds[b := Build(true, Some(StatusCode(status)))];
      }
    }

    /** An unfinished build is finished with status 0, or 6 if it failed with output; all
        other builds, and a finished one, stay. */
    method MarkSucceededBuild(b: BuildId, finishedInDb: bool, failed: bool)
      modifies this`builds
      ensures View() == Apply(old(View()), MarkSucceeded(b, finishedInDb, failed))
      ensures builds == if !finishedInDb && b in old(builds) && !old(builds)[b].finished
        then old(builds)[b := Build(true, Some(if failed then 6 else 0))] else old(builds)
    {
      if finishedInDb { return; }
      if !(b in builds && !builds[b].finished) { return; }
      UpdateBuild(b, if failed then FailedWithOutput else Success);
    }

    method ClearAllBusy()
      modifies this`steps
      ensures View() == Apply(old(View()), ClearBusy)
      ensures steps.Keys == old(steps).Keys && forall b :: b in steps ==> steps[b].Keys == old(steps)[b].Keys
      ensures forall b, nr :: b in steps && nr in steps[b] ==>
        steps[b][nr] == if old(steps)[b][nr].busy != 0 then Step(0, Some(3)) else old(steps)[b][nr]
    {
      steps := map b | b in steps :: map nr | nr in steps[b] :: Cleared(steps[b][nr]);
    }

    method UpdateBuildStep(b: BuildId, nr: int, status: StepStatus)
      modifies this`steps
      ensures View() == Apply(old(View()), UpdateStep(b, nr, status))
    {
      if b in steps && nr in steps[b] && steps[b][nr].busy != 0 && steps[b][nr].status.None? {
        steps := steps[b := steps[b][nr := steps[b][nr].(busy := StepCode(status))]];
      }
    }

    method UpdateBuildStepInFinish(b: BuildId, nr: int, status: BuildStatus)
      modifies this`steps
      ensures View() == Apply(old(View()), FinishStep(b, nr, status))
    {
      if b in steps && nr in steps[b] {
        steps := steps[b := steps[b][nr := Step(0, Some(StatusCode(status)))]];
      }
    }

    method AllocBuildStep(b: BuildId) returns (nr: int)
      ensures NextNumber(StepsOf(View(), b), nr)
    {
      if b !in steps || steps[b] == map[] { return 1; }
      var todo := steps[b].Keys;
      ghost var one := HasElement(todo);
      var m :| m in todo;
      todo := todo - {m};
      while todo != {}
        invariant m in steps[b] && todo <= steps[b].Keys
        invariant forall k :: k in steps[b] && k !in todo ==> k <= m
        decreases todo
      {
        ghost var next := HasElement(todo);
        var k :| k in todo;
        if k > m { m := k; }
        todo := todo - {k};
      }
      return m + 1;
    }

    method InsertBuildStep(b: BuildId, nr: int, status: BuildStatus, busy: bool) returns (ok: bool)
      modifies this`steps
      ensures ok == (nr !in StepsOf(old(View()), b))
      ensures View() == if ok
        then SetStep(old(View()), b, nr,
            Step(if busy then 1 else 0, if status.Busy? then None else Some(StatusCode(status))))
        else old(View())
    {
      var here := if b in steps then steps[b] else map[];
      if nr in here { return false; }
      var row := Step(if busy then 1 else 0, if status.Busy? then None else Some(StatusCode(status)));
      steps := steps[b := here[nr := row]];
      return true;
    }

    /** Rows that other sessions insert, each with the next number of its build. */
    method OthersInsert(rows: seq<Row>)
      requires Inv(View())
      modifies this`steps
      ensures Inv(View()) && View() == InsertAll(old(View()), rows)
    {
      for k := 0 to |rows|
        invariant Inv(View()) && View() == InsertAll(old(View()), rows[..k])
      {
        assert rows[..k + 1][..k] == rows[..k];
        ghost var r := View();
        var nr := AllocBuildStep(rows[k].b);
        CreatedOk(r, rows[k].b, nr, rows[k].status);
        var _ := InsertBuildStep(rows[k].b, nr, rows[k].status, rows[k].status.Busy?);
      }
      assert rows[..|rows|] == rows;
    }

    /** One try: the number is allocated, other sessions insert rows, and the row is
        inserted unless one of them took the number. */
    method TryCreate(b: BuildId, status: BuildStatus, rows: seq<Row>) returns (nr: int, done: bool)
      requires Numbered(View())
      modifies this`steps
      ensures done == !Conflicts(rows, b)
      ensures if done then Created(InsertAll(old(View()), rows), View(), b, nr, status)
        else View() == InsertAll(old(View()), rows)
      ensures Numbered(View())
    {
      ghost var r := View();
      nr := AllocBuildStep(b);
      CreatedOk(r, b, nr, status);
      OthersInsert(rows);
      ghost var at := View();
      InsertedElsewhere(r, rows, b);
      done := InsertBuildStep(b, nr, status, status.Busy?);
      if done { CreatedOk(at, b, nr, status); }
    }

    /** Tries again until an insertion succeeds. In the k-th try other sessions insert the
        rows of round k. The loop tries again exactly as long as one of these is of the same
        build; then the new row has the next number, and all other new rows are theirs. */
    method CreateBuildStep(b: BuildId, status: BuildStatus, others: seq<seq<Row>>) returns (nr: int, ghost tries: nat)
      requires Numbered(View())
      modifies this`steps
      ensures tries >= 1 && !Conflicts(Round(others, tries - 1), b)
      ensures forall k: nat :: k < tries - 1 ==> Conflicts(Round(others, k), b)
      ensures Created(InsertRounds(old(View()), others, tries), View(), b, nr, status)
    {
      ghost var r := View();
      var done: bool;
      var k: nat := 1;
      nr, done := TryCreate(b, status, Round(others, 0));
      TriedFirst(r, View(), others, b, done, nr, status);
      while !done
        invariant Tried(r, View(), others, b, k, done, nr, status) && 1 <= k <= |others| + 1
        invariant !done ==> k <= |others|
        decreases |others| + 1 - k, !done
      {
        ghost var h := View();
        nr, done := TryCreate(b, status, Round(others, k));
        TriedNext(r, h, View(), others, b, k, done, nr, status);
        k := k + 1;
      }
      tries := k;
    }

    method CreateSubstitutionStep(b: BuildId, others: seq<seq<Row>>) returns (nr: int)
      requires Numbered(View())
      modifies this`steps
      ensures Numbered(View()) && nr in StepsOf(View(), b)
        && StepsOf(View(), b)[nr] == Step(0, Some(StatusCode(Success)))
      ensures nr !in StepsOf(old(View()), b) && nr == |StepsOf(View(), b)|
    {
      ghost var r := View();
      ghost var tries;
      nr, tries := CreateBuildStep(b, Success, others);
      RoundsGrow(r, others, tries, b);
    }
  }

  // ---- what other sessions insert ----

  datatype Row = Row(b: BuildId, status: BuildStatus)

  predicate Conflicts(rows: seq<Row>, b: BuildId) { exists row :: row in rows && row.b == b }

  function InsertAll(r: Rows, rows: seq<Row>): Rows {
    if rows == [] then r
    else
      var h, row := InsertAll(r, rows[..|rows| - 1]), rows[|rows| - 1];
      SetStep(h, row.b, |StepsOf(h, row.b)| + 1, NewStep(row.status))
  }

  /** What others insert in one try; nothing after the last round. */
  function Round(others: seq<seq<Row>>, k: nat): seq<Row> { if k < |others| then others[k] else [] }

  /** The rows of the first `n` rounds. */
  function InsertRounds(r: Rows, others: seq<seq<Row>>, n: nat): Rows {
    if n == 0 then r else InsertAll(InsertRounds(r, others, n - 1), Round(others, n - 1))
  }

  /** The new row has the next number. */
  ghost predicate Created(at: Rows, h: Rows, b: BuildId, nr: int, status: BuildStatus) {
    nr == |StepsOf(at, b)| + 1 && nr !in StepsOf(at, b) && h == SetStep(at, b, nr, NewStep(status)) && Numbered(h)
  }

  /** The rows satisfy the invariant, and no session waits. */
  ghost predicate Numbered(r: Rows) { Inv(r) && r.pending == map[] }

  /** After `k` tries, all but the last of which failed. */
  ghost predicate Tried(r: Rows, h: Rows, others: seq<seq<Row>>, b: BuildId, k: nat, done: bool, nr: int,
      status: BuildStatus)
    requires k >= 1
  {
    && Numbered(h) && done == !Conflicts(Round(others, k - 1), b)
    && (forall j: nat :: j < k - 1 ==> Conflicts(Round(others, j), b))
    && if done then Created(InsertRounds(r, others, k), h, b, nr, status) else h == InsertRounds(r, others, k)
  }

  lemma TriedFirst(r: Rows, h: Rows, others: seq<seq<Row>>, b: BuildId, done: bool, nr: int, status: BuildStatus)
    requires Numbered(h) && done == !Conflicts(Round(others, 0), b)
    requires if done then Created(InsertAll(r, Round(others, 0)), h, b, nr, status)
      else h == InsertAll(r, Round(others, 0))
    ensures Tried(r, h, others, b, 1, done, nr, status)
    ensures !done ==> 1 <= |others|
  {
    assert InsertRounds(r, others, 0) == r;
    assert InsertRounds(r, others, 1) == InsertAll(r, Round(others, 0));
  }

  lemma TriedNext(r: Rows, m: Rows, h: Rows, others: seq<seq<Row>>, b: BuildId, k: nat, done: bool, nr: int,
      status: BuildStatus)
    requires k >= 1 && m == InsertRounds(r, others, k) && Conflicts(Round(others, k - 1), b)
    requires forall j: nat :: j < k - 1 ==> Conflicts(Round(others, j), b)
    requires Numbered(h) && done == !Conflicts(Round(others, k), b)
    requires if done then Created(InsertAll(m, Round(others, k)), h, b, nr, status)
      else h == InsertAll(m, Round(others, k))
    ensures Tried(r, h, others, b, k + 1, done, nr, status)
    ensures !done ==> k + 1 <= |others|
  {
    assert InsertRounds(r, others, k + 1) == InsertAll(m, Round(others, k));
  }

  /** Rows of other builds leave a build alone; a row of the build takes its next number. */
  lemma {:induction false} InsertedElsewhere(r: Rows, rows: seq<Row>, b: BuildId)
    ensures StepsOf(r, b).Keys <= StepsOf(InsertAll(r, rows), b).Keys
    ensures !Conflicts(rows, b) ==> StepsOf(InsertAll(r, rows), b) == StepsOf(r, b)
    ensures Conflicts(rows, b) ==> |StepsOf(r, b)| + 1 in StepsOf(InsertAll(r, rows), b)
  {
    if rows != [] {
      var init, row := rows[..|rows| - 1], rows[|rows| - 1];
      InsertedElsewhere(r, init, b);
      assert rows == init + [row];
      if row.b != b {
        assert Conflicts(rows, b) <==> Conflicts(init, b);
      } else {
        assert row in rows;
      }
    }
  }

  lemma {:induction false} RoundsGrow(r: Rows, others: seq<seq<Row>>, n: nat, b: BuildId)
    ensures StepsOf(r, b).Keys <= StepsOf(InsertRounds(r, others, n), b).Keys
  {
    if n > 0 {
      RoundsGrow(r, others, n - 1, b);
      InsertedElsewhere(InsertRounds(r, others, n - 1), Round(others, n - 1), b);
    }
  }

  lemma CreatedOk(r: Rows, b: BuildId, nr: int, status: BuildStatus)
    requires Inv(r) && NextNumber(StepsOf(r, b), nr) && r.pending == map[]
    ensures Inv(SetStep(r, b, nr, NewStep(status))) && nr == |StepsOf(r, b)| + 1
  {
    NumbersFromOne(r, b);
    var a := Apply(r, Alloc(0, b, nr));
    ApplyKeeps(r, Alloc(0, b, nr));
    ApplyKeeps(a, Insert(0, status));
    assert Apply(a, Insert(0, status)) == SetStep(r, b, nr, NewStep(status));
  }
}
