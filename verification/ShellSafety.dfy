/** No lookup of any run reaches an impossible cell, and a job_send always
comes to rest after at most two owed events. */
module ShellSafety {
  import opened Lifecycle
  import opened Shell

  predicate NoStep(j: Job) {
    j.run.liveStep == -1 && !j.run.procOk
  }

  predicate OnStep(j: Job) {
    j.run.liveStep == j.run.cur < |j.plan.coe| && j.results.started && j.timers.jobOk
  }

  predicate Untold(j: Job) {
    !j.heard.cancel && !j.heard.timeout
  }

  /** What ties the shell's cursor, process, timers and told-flags to the
      table's state, while a job waits for the outside world or is owed an event. */
  predicate Coherent(j: Job) {
    && Whole(j)
    && match j.state
       case Pending => Unstarted(j)
       case Ready => Unstarted(j)
       case BetweenSteps =>
         && NoStep(j) && Untold(j)
         && j.results.started == !j.run.haveFollowup
         && j.timers.jobOk == j.results.started
         && (j.run.haveFollowup ==> j.run.cur == 0)
       case StepRunning(coe) =>
         && OnStep(j) && Untold(j)
         && coe == j.plan.coe[j.run.cur]
         && !j.run.leaderReaped
         && j.run.procOk == !j.run.haveFollowup
         && (j.run.procOk ==> j.timers.grace == IDLE)
       case StepStopping(coe) => j.run.cur < |j.plan.coe| && Stopped(j, coe, false)
       case StepKilling(coe) => j.run.cur < |j.plan.coe| && Stopped(j, coe, true)
       case Settling(v, killed) =>
         && OnStep(j) && j.run.procOk && !j.run.haveFollowup
         && j.timers.grace == Timer(true, killed)
         && VerdictFits(j.heard, v)
       case _ => NoStep(j) && !j.run.haveFollowup && !j.timers.jobOk
  }

  /** The verdict is the strongest stop that was heard. */
  predicate VerdictFits(h: Heard, v: Verdict) {
    && (h.cancel <==> v == CancelRequest)
    && (v == CancelTimeout ==> h.timeout)
    && (h.timeout ==> v == CancelTimeout || v == CancelRequest)
  }

  predicate Unstarted(j: Job) {
    && NoStep(j) && Untold(j)
    && j.run.cur == 0 && !j.run.haveFollowup && !j.results.started && !j.timers.jobOk
  }

  /** The step timed out: its leader has not been reaped, its own timer has fired,
      and the grace timer is armed, and has fired exactly if SIGKILL was sent. */
  predicate Stopped(j: Job, coe: bool, killed: bool)
    requires j.run.cur < |j.plan.coe|
  {
    && OnStep(j) && Untold(j) && j.run.procOk && !j.run.haveFollowup
    && coe == j.plan.coe[j.run.cur]
    && !j.run.leaderReaped
    && j.timers.step.fired
    && j.timers.grace == Timer(true, killed)
  }

  predicate AtRest(j: Job) {
    Coherent(j) && !Owed(j)
  }

  /** What a handler has already noted about the job when it dispatches e. */
  function Touched(j: Job, e: Event): Job {
    match e
    case LeaderExitOk => j.(run := j.run.(leaderReaped := true))
    case LeaderExitFail => j.(run := j.run.(leaderReaped := true))
    case StepTimeout => j.(timers := j.timers.(step := j.timers.step.(fired := true)))
    case GraceExpired => j.(timers := j.timers.(grace := j.timers.grace.(fired := true)))
    case StartFailed => j.(run := j.run.(haveFollowup := false))
    case _ => j
  }

  /** An event the shell may dispatch to a coherent job: the table decides it,
      and the facts the table takes for granted hold. */
  predicate Sendable(j: Job, e: Event, p: Payload, eventStep: int) {
    && Coherent(j)
    && !IsStale(j.state, e, eventStep, j.run.liveStep)
    && ModelAllows(j.state, e)
    && TakenForGranted(j, e, p)
  }

  /** What the table takes for granted of an event and its payload. */
  predicate TakenForGranted(j: Job, e: Event, p: Payload) {
    && (e == StartFailed <==> j.run.haveFollowup)
    && (e == NextStep ==> j.run.cur < |j.plan.coe| && p.coe == j.plan.coe[j.run.cur])
    && (e == NoMoreSteps ==> j.run.cur == |j.plan.coe|)
    && (e == LeaderExitFail ==> p.reason != Unstated)
    && (e == Skip ==> p.reason == TargetDisabled)
  }

  // ---- the table's rows as relations, so that each proof sees one row ----

  predicate RowPending(e: Event, p: Payload, r: Result) {
    || (e == NeedsMet && r.next == Ready && r.actions == Nothing && r.reason == Unstated)
    || (r.next == Skipped && r.actions == EndRecorded
        && ((e == NeedsFailed && r.reason == DependencyFailed)
            || (e == Cancel && r.reason == CancelRequested)
            || (e == Skip && r.reason == p.reason)))
  }

  predicate RowReady(e: Event, p: Payload, r: Result) {
    || (e == SlotGranted && r.next == BetweenSteps && r.actions == Start && r.reason == Unstated)
    || (r.next == Skipped && r.actions == EndRecorded
        && ((e == Cancel && r.reason == CancelRequested) || (e == Skip && r.reason == p.reason)))
  }

  predicate RowBetween(e: Event, p: Payload, r: Result) {
    || (e == NextStep && r.next == StepRunning(p.coe) && r.actions == Spawn && r.reason == Unstated)
    || (r.actions == EndRecorded
        && ((e == NoMoreSteps && r.next == Success && r.reason == Unstated)
            || (e == StartFailed && r.next == Failed && r.reason == EngineError)
            || (e == JobTimeout && r.next == Cancelled && r.reason == Timeout)
            || (e == Cancel && r.next == Cancelled && r.reason == CancelRequested)))
  }

  predicate RowUnspawned(r: Result) {
    r.next == Failed && r.actions == EndWithStep && r.reason == EngineError
  }

  predicate RowRunning(coe: bool, e: Event, p: Payload, r: Result) {
    || (e == StepTimeout && r.next == StepStopping(coe) && r.actions == TermGrace && r.reason == Timeout)
    || (r.actions == TermGraceRecord && r.next.Settling? && !r.next.killed
        && ((e == LeaderExitOk && r.next.verdict == Continue && r.reason == Unstated)
            || (e == LeaderExitFail && r.next.verdict == (if coe then Continue else Fail) && r.reason == p.reason)
            || Overruled(e, r)))
  }

  /** A job timeout or a cancel decides the step's outcome. */
  predicate Overruled(e: Event, r: Result)
    requires r.next.Settling?
  {
    || (e == JobTimeout && r.next.verdict == CancelTimeout && r.reason == Timeout)
    || (e == Cancel && r.next.verdict == CancelRequest && r.reason == CancelRequested)
  }

  predicate RowStopped(coe: bool, killed: bool, e: Event, r: Result) {
    || (e == GraceExpired && !killed && r.next == StepKilling(coe) && r.actions == KillGroup && r.reason == Unstated)
    || (r.actions == RecordOnly && r.next.Settling? && r.next.killed == killed
        && (((e == LeaderExitOk || e == LeaderExitFail)
             && r.next.verdict == (if coe then Continue else Fail) && r.reason == Timeout)
            || Overruled(e, r)))
  }

  predicate RowSettling(v: Verdict, killed: bool, e: Event, r: Result) {
    || (r == Result(Ignored, Settling(v, killed), Unstated, Nothing)
        && ((e == LeaderExitOk || e == LeaderExitFail || e == StepTimeout)
            || (v == CancelRequest && (e == JobTimeout || e == Cancel))))
    || (r.next.Settling? && r.next.killed == killed && r.actions == Nothing && Overruled(e, r) && r.kind == Moved
        && v != CancelRequest && (e == JobTimeout ==> v != CancelTimeout))
    || (e == GraceExpired && !killed && r == Result(Moved, Settling(v, true), Unstated, KillGroup))
  }

  predicate RowEmptied(v: Verdict, p: Payload, r: Result) {
    match v
    case Continue => r == Result(Moved, BetweenSteps, Unstated, Nothing)
    case Fail => r == Result(Moved, Failed, p.carried, EndRecorded)
    case CancelTimeout => r == Result(Moved, Cancelled, Timeout, EndRecorded)
    case CancelRequest => r == Result(Moved, Cancelled, CancelRequested, EndRecorded)
  }

  predicate Row(s: State, e: Event, p: Payload, r: Result) {
    && (r.kind == Moved || r.kind == Ignored)
    && (r.kind == Ignored ==> s.Settling? || IsFinal(s))
    && match s
       case Pending => RowPending(e, p, r)
       case Ready => RowReady(e, p, r)
       case BetweenSteps => RowBetween(e, p, r)
       case StepRunning(coe) => if e == StartFailed then RowUnspawned(r) else RowRunning(coe, e, p, r)
       case StepStopping(coe) => RowStopped(coe, false, e, r)
       case StepKilling(coe) => RowStopped(coe, true, e, r)
       case Settling(v, killed) => if e == GroupEmpty then RowEmptied(v, p, r) else RowSettling(v, killed, e, r)
       case _ => e == Cancel && r == Result(Ignored, s, Unstated, Nothing)
  }

  lemma LookupRow(s: State, e: Event, p: Payload)
    requires ModelAllows(s, e)
    ensures Row(s, e, p, Lookup(s, e, p))
  {
    match s {
      case Pending => case Ready => case BetweenSteps => case StepRunning(_) => case StepStopping(_) =>
      case StepKilling(_) => case Settling(_, _) => case _ =>
    }
  }


  /** A job, an event the shell may send it, and what the table says. */
  predicate Step(j: Job, e: Event, p: Payload, r: Result) {
    && Coherent(j) && TakenForGranted(j, e, p)
    && p.carried == j.results.last
    && Row(j.state, e, p, r)
  }

  // One move keeps the job coherent, by the state it starts from.

  /** A job that ends is coherent whatever it was doing. */
  lemma CoherentEnd(j: Job, e: Event, r: Result, a: Answers)
    requires IsFinal(r.next) && (r.actions == EndRecorded || r.actions == EndWithStep) && e != GroupEmpty
    requires !j.aborted && !j.run.haveFollowup && (j.results.started ==> |j.results.steps| == |j.plan.coe|)
    requires if j.run.liveStep < 0 then NoStep(j) && j.run.cur <= |j.plan.coe| else j.run.cur < |j.plan.coe|
    ensures Coherent(AfterMove(j, e, r, a))
  {
  }

  predicate Whole(j: Job) {
    !j.aborted && j.run.cur <= |j.plan.coe| && (j.results.started ==> |j.results.steps| == |j.plan.coe|)
  }

  lemma CoherentPending(j: Job, e: Event, p: Payload, r: Result, a: Answers)
    requires Whole(j) && Unstarted(j) && RowPending(e, p, r)
    ensures Coherent(AfterMove(j, e, r, a))
  {
    if r.actions == EndRecorded {
      CoherentEnd(j, e, r, a);
    }
  }

  lemma CoherentReady(j: Job, e: Event, p: Payload, r: Result, a: Answers)
    requires Whole(j) && Unstarted(j) && RowReady(e, p, r)
    ensures Coherent(AfterMove(j, e, r, a))
  {
    if r.actions == EndRecorded {
      CoherentEnd(j, e, r, a);
    }
  }

  lemma CoherentBetween(j: Job, e: Event, p: Payload, r: Result, a: Answers)
    requires Whole(j) && NoStep(j) && Untold(j) && !j.run.haveFollowup && RowBetween(e, p, r)
    requires e == NextStep ==>
               && j.results.started && j.timers.jobOk
               && j.run.cur < |j.plan.coe| && p.coe == j.plan.coe[j.run.cur]
    ensures Coherent(AfterMove(j, e, r, a))
  {
    if r.actions == EndRecorded {
      CoherentEnd(j, e, r, a);
    }
  }

  lemma CoherentUnspawned(j: Job, r: Result, a: Answers)
    requires Whole(j) && OnStep(j) && !j.run.haveFollowup && RowUnspawned(r)
    ensures Coherent(AfterMove(j, StartFailed, r, a))
  {
    CoherentEnd(j, StartFailed, r, a);
  }

  /** The table decides the step's outcome and the shell waits for its group. */
  lemma CoherentDecided(j: Job, e: Event, r: Result, a: Answers)
    requires Whole(j) && OnStep(j) && Untold(j) && j.run.procOk && !j.run.haveFollowup && r.next.Settling?
    requires e == LeaderExitOk || e == LeaderExitFail || Overruled(e, r)
    requires e == LeaderExitOk || e == LeaderExitFail ==> r.next.verdict == Continue || r.next.verdict == Fail
    requires r.actions == TermGraceRecord || r.actions == RecordOnly
    requires j.timers.grace.fired == r.next.killed && (r.actions == RecordOnly ==> j.timers.grace.armed)
    ensures Coherent(AfterMove(j, e, r, a))
  {
  }

  lemma CoherentRunning(j: Job, coe: bool, e: Event, p: Payload, r: Result, a: Answers)
    requires Whole(j) && OnStep(j) && Untold(j) && j.run.procOk && !j.run.haveFollowup && j.timers.grace == IDLE
    requires coe == j.plan.coe[j.run.cur] && RowRunning(coe, e, p, r)
    requires e == StepTimeout ==> !j.run.leaderReaped && j.timers.step.fired
    ensures Coherent(AfterMove(j, e, r, a))
  {
    if e != StepTimeout {
      CoherentDecided(j, e, r, a);
    }
  }

  /** A step that ran out of time, with the grace timer as the event leaves it. */
  lemma CoherentStopped(j: Job, coe: bool, killed: bool, e: Event, r: Result, a: Answers)
    requires Whole(j) && OnStep(j) && Untold(j) && j.run.procOk && !j.run.haveFollowup
    requires coe == j.plan.coe[j.run.cur] && RowStopped(coe, killed, e, r) && j.timers.step.fired
    requires j.timers.grace == Timer(true, killed || e == GraceExpired)
    requires e == GraceExpired ==> !j.run.leaderReaped
    ensures Coherent(AfterMove(j, e, r, a))
  {
    if e != GraceExpired {
      CoherentDecided(j, e, r, a);
    }
  }

  lemma CoherentSettling(j: Job, v: Verdict, killed: bool, e: Event, r: Result, a: Answers)
    requires Whole(j) && OnStep(j) && j.run.procOk && !j.run.haveFollowup && e != GroupEmpty
    requires RowSettling(v, killed, e, r) && j.timers.grace == Timer(true, killed || e == GraceExpired)
    requires VerdictFits(j.heard, v)
    ensures Coherent(AfterMove(j, e, r, a))
  {
    HeardAfter(j.heard, v, killed, e, r);
  }

  lemma HeardAfter(h: Heard, v: Verdict, killed: bool, e: Event, r: Result)
    requires RowSettling(v, killed, e, r) && VerdictFits(h, v)
    ensures r.next.Settling?
    ensures VerdictFits(Heard(h.cancel || e == Cancel, h.timeout || e == JobTimeout), r.next.verdict)
  {
  }

  lemma CoherentEmptied(j: Job, v: Verdict, p: Payload, r: Result, a: Answers)
    requires Whole(j) && OnStep(j) && j.run.procOk && !j.run.haveFollowup && VerdictFits(j.heard, v)
    requires RowEmptied(v, p, r)
    ensures Coherent(AfterMove(j, GroupEmpty, r, a))
  {
  }

  // ---- what a handler sends ----

  /** A handler may send e, having noted only that it happened: the table decides
      it, or the stale filter drops it. */
  predicate MaySend(before: Job, now: Job, e: Event, p: Payload, eventStep: int) {
    || (Sendable(before, e, p, eventStep) && now == Touched(before, e))
    || (IsStale(before.state, e, eventStep, before.run.liveStep) && now == before)
  }

  /** The job with its own clock read, if that is what the input is about. */
  function Clocked(j: Job, i: Input): Job {
    if i.JobTimerReady? && j.timers.jobOk && !j.heard.timeout then JobTimerRead(j, i.clock) else j
  }

  predicate ReactsWell(j: Job, i: Input) {
    match React(j, i)
    case Quietly(k) => k == Clocked(j, i)
    case Sending(k, e, p, step) => MaySend(Clocked(j, i), k, e, p, step)
  }

  lemma ToldReactsWell(j: Job, i: Input)
    requires AtRest(j) && Possible(j, i) && (i.Scheduled? || i.Disabled? || i.OperatorCancel?)
    ensures ReactsWell(j, i)
  {
  }

  lemma ReapedReactsWell(j: Job, i: Input)
    requires AtRest(j) && Possible(j, i) && (i.LeaderExits? || i.GroupGone?)
    ensures ReactsWell(j, i)
  {
  }

  lemma StepTimerReactsWell(j: Job, i: Input)
    requires AtRest(j) && Possible(j, i) && i.StepTimerReady?
    ensures ReactsWell(j, i)
  {
  }

  lemma GraceTimerReactsWell(j: Job, i: Input)
    requires AtRest(j) && Possible(j, i) && i.GraceTimerReady?
    ensures ReactsWell(j, i)
  {
  }

  lemma JobTimerReactsWell(j: Job, i: Input)
    requires AtRest(j) && Possible(j, i) && i.JobTimerReady?
    ensures ReactsWell(j, i)
  {
  }

  /** Whatever a handler sends to a job at rest, it may send. */
  lemma EveryHandlerReactsWell(j: Job, i: Input)
    requires AtRest(j) && Possible(j, i)
    ensures ReactsWell(j, i)
  {
    match i {
      case Scheduled(_) => ToldReactsWell(j, i);
      case Disabled => ToldReactsWell(j, i);
      case OperatorCancel => ToldReactsWell(j, i);
      case LeaderExits(_, _) => ReapedReactsWell(j, i);
      case GroupGone => ReapedReactsWell(j, i);
      case StepTimerReady(_, _) => StepTimerReactsWell(j, i);
      case GraceTimerReady(_, _) => GraceTimerReactsWell(j, i);
      case JobTimerReady(_) => JobTimerReactsWell(j, i);
    }
  }
}
