/** What happens is heard: a timer that runs out, a leader's exit, an empty group and
the operator's cancel each have their effect, whatever state the job is in. */
module ShellHears {
  import opened Lifecycle
  import opened Shell
  import opened ShellSafety
  import opened ShellProtocol
  import opened ShellRuns

  /** What has been done to a spawned step, by the state it is in. */
  function LedgerOf(s: State): Ledger {
    match s
    case StepRunning(_) => Ledger(1, 0, 0, 0, 0, 0, 0)
    case StepStopping(_) => Ledger(1, 1, 1, 0, 0, 0, 0)
    case StepKilling(_) => Ledger(1, 1, 1, 1, 0, 0, 0)
    case Settling(_, killed) => Ledger(1, 1, 1, if killed then 1 else 0, 1, 0, 0)
    case _ => NONE
  }

  /** A live step has been spawned once, and signalled and recorded as its state says. */
  lemma LiveLedger(j: Job)
    requires Coherent(j) && Watched(j) && StepInFlight(j.state) && j.run.procOk
    ensures Tally(j.effects, j.run.cur) == LedgerOf(j.state)
  {
    Tallies(j.effects, j.run.cur);
  }

  lemma RestingLedger(j: Job)
    requires Resting(j) && StepInFlight(j.state)
    ensures j.run.procOk && Tally(j.effects, j.run.cur) == LedgerOf(j.state)
  {
    LiveLedger(j);
  }

  // ---- the step's own timer ----

  lemma StepTimeoutMoves(j: Job, a: Answers)
    requires AtRest(j) && j.state.StepRunning? && j.timers.step == Timer(true, false)
    ensures Possible(j, StepTimerReady(j.run.cur, true))
    ensures var k := Handle(j, StepTimerReady(j.run.cur, true), a);
            k.state == StepStopping(j.state.coe) && k.run == j.run && k.timers.grace == Timer(true, false)
  {
    var d := Dispatched(StepTimerRead(j, true), StepTimeout, PLAIN, j.run.cur, a);
    assert d.state == StepStopping(j.state.coe) && !Owed(d);
  }

  /** A running step whose timer runs out is asked to stop: its group has had its one
      SIGTERM, its one grace timer is armed, and nothing is recorded yet. */
  lemma StepTimeoutIsHeard(j: Job, a: Answers)
    requires Resting(j) && j.state.StepRunning? && j.timers.step == Timer(true, false)
    ensures Possible(j, StepTimerReady(j.run.cur, true))
    ensures var k := Handle(j, StepTimerReady(j.run.cur, true), a);
            && k.state == StepStopping(j.state.coe) && k.run == j.run && k.timers.grace == Timer(true, false)
            && Tally(k.effects, j.run.cur) == Ledger(1, 1, 1, 0, 0, 0, 0)
  {
    StepTimeoutMoves(j, a);
    HandleKeepsSound(j, StepTimerReady(j.run.cur, true), a);
    RestingLedger(Handle(j, StepTimerReady(j.run.cur, true), a));
  }

  // ---- the grace timer ----

  predicate Stoppable(s: State) {
    s.StepStopping? || (s.Settling? && !s.killed)
  }

  /** The same state once SIGKILL is sent. */
  function Killed(s: State): (t: State)
    requires Stoppable(s)
    ensures StepInFlight(t) && LedgerOf(t).killed == 1 && LedgerOf(s).killed == 0
  {
    if s.StepStopping? then StepKilling(s.coe) else Settling(s.verdict, true)
  }

  lemma GraceMoves(j: Job, a: Answers)
    requires AtRest(j) && Stoppable(j.state)
    ensures Possible(j, GraceTimerReady(j.run.cur, true))
    ensures var k := Handle(j, GraceTimerReady(j.run.cur, true), a);
            k.run == j.run && k.state == Killed(j.state)
  {
    var d := Dispatched(GraceTimerRead(j, true), GraceExpired, PLAIN, j.run.cur, a);
    assert !Owed(d);
  }

  /** A group that is being torn down and has not been killed is killed, once, when its grace runs out. */
  lemma GraceIsHeard(j: Job, a: Answers)
    requires Resting(j) && Stoppable(j.state)
    ensures Possible(j, GraceTimerReady(j.run.cur, true)) && Tally(j.effects, j.run.cur).killed == 0
    ensures var k := Handle(j, GraceTimerReady(j.run.cur, true), a);
            k.run == j.run && k.state == Killed(j.state) && Tally(k.effects, j.run.cur).killed == 1
  {
    RestingLedger(j);
    GraceMoves(j, a);
    KilledOnce(j, a);
  }

  lemma KilledOnce(j: Job, a: Answers)
    requires Resting(j) && Stoppable(j.state) && Possible(j, GraceTimerReady(j.run.cur, true))
    requires var k := Handle(j, GraceTimerReady(j.run.cur, true), a); StepInFlight(k.state) && k.run == j.run
    ensures var k := Handle(j, GraceTimerReady(j.run.cur, true), a);
            Tally(k.effects, j.run.cur).killed == LedgerOf(k.state).killed
  {
    HandleKeepsSound(j, GraceTimerReady(j.run.cur, true), a);
    RestingLedger(Handle(j, GraceTimerReady(j.run.cur, true), a));
  }

  // ---- the job's timer ----

  lemma JobTimeoutMoves(j: Job, a: Answers)
    requires AtRest(j) && StepInFlight(j.state) && !j.heard.timeout && ReadTimer(j.timers.job, true).fired
    ensures Possible(j, JobTimerReady(true))
    ensures var k := Handle(j, JobTimerReady(true), a);
            && k.heard.timeout && k.run == j.run && k.state.Settling?
            && k.state.verdict == (if j.heard.cancel then CancelRequest else CancelTimeout)
  {
    var d := Dispatched(JobTimerRead(j, true), JobTimeout, PLAIN, -1, a);
    assert d.state.Settling? && !Owed(d);
  }

  /** A job whose time runs out while a step is in flight settles as timed out, unless
      it was cancelled before; the step has been torn down and recorded, once. */
  lemma JobTimeoutIsHeard(j: Job, a: Answers)
    requires Resting(j) && StepInFlight(j.state) && !j.heard.timeout && ReadTimer(j.timers.job, true).fired
    ensures Possible(j, JobTimerReady(true))
    ensures var k := Handle(j, JobTimerReady(true), a);
            && k.heard.timeout && k.run == j.run && k.state.Settling?
            && k.state.verdict == (if j.heard.cancel then CancelRequest else CancelTimeout)
            && Tally(k.effects, j.run.cur) == LedgerOf(k.state)
  {
    JobTimeoutMoves(j, a);
    HandleKeepsSound(j, JobTimerReady(true), a);
    RestingLedger(Handle(j, JobTimerReady(true), a));
  }

  // ---- arming ----

  /** A step that has a timeout is spawned with its timer armed, and one that has none is not. */
  lemma SpawnArmsTheTimer(j: Job, a: Answers)
    requires Coherent(j) && j.state == BetweenSteps && !j.run.haveFollowup
    requires a.spawnOk && OwedStep(j, a).state.StepRunning?
    ensures OwedStep(j, a).timers.step == Timer(a.stepLimited, false) && OwedStep(j, a).timers.grace == IDLE
  {
    var (e, coe, k) := NextMove(j, a);
    assert e == NextStep;
  }

  /** A job with a timeout of its own is started with its timer armed, and one without is not. */
  lemma StartArmsTheTimer(j: Job, a: Answers)
    requires AtRest(j) && j.state == Ready && a.startOk
    ensures var d := Dispatched(j, SlotGranted, PLAIN, -1, a);
            d.state == BetweenSteps && d.timers.jobOk && d.timers.job == Timer(j.plan.limited, false)
  {
  }

  // ---- exits ----

  /** What an exit makes of a step: a decided one stays so; a step out of time has
      failed; and a failure lets the job go on only with continue-on-error. */
  function VerdictAfterExit(s: State, ok: bool): Verdict
    requires StepInFlight(s)
  {
    match s
    case StepRunning(coe) => if ok || coe then Continue else Fail
    case StepStopping(coe) => if coe then Continue else Fail
    case StepKilling(coe) => if coe then Continue else Fail
    case Settling(v, _) => v
  }

  lemma ExitIsHeard(j: Job, ok: bool, why: Reason, a: Answers)
    requires AtRest(j) && StepInFlight(j.state) && !j.run.leaderReaped && why != Unstated
    ensures Possible(j, LeaderExits(ok, why))
    ensures var k := Handle(j, LeaderExits(ok, why), a);
            && k.run == j.run.(leaderReaped := true) && k.state.Settling?
            && k.state.verdict == VerdictAfterExit(j.state, ok)
  {
    var e := if ok then LeaderExitOk else LeaderExitFail;
    var d := Dispatched(Touched(j, e), e, PLAIN.(reason := why), j.run.liveStep, a);
    assert d.state.Settling? && !Owed(d);
  }

  /** An empty group ends its step, and with it the job unless the step lets it go on. */
  lemma EmptyIsHeard(j: Job, a: Answers)
    requires AtRest(j) && j.state.Settling? && j.run.leaderReaped
    ensures Possible(j, GroupGone)
    ensures var k, v := Handle(j, GroupGone, a), j.state.verdict;
            && (v == Fail ==> k.state == Failed && k.results.reason == j.results.last)
            && (v == CancelTimeout ==> k.state == Cancelled && k.results.reason == Timeout)
            && (v == CancelRequest ==> k.state == Cancelled && k.results.reason == CancelRequested)
            && (v != Continue ==> k.run.cur == j.run.cur + 1 && k.run.liveStep == -1)
  {
    var d := Dispatched(j, GroupEmpty, PLAIN, j.run.liveStep, a);
    assert j.state.verdict != Continue ==> IsFinal(d.state) && !Owed(d);
  }

  /** The operator's cancel stops whatever has not ended: a waiting job is skipped, a
      step in flight is torn down. */
  lemma CancelIsHeard(j: Job, a: Answers)
    requires AtRest(j) && !IsFinal(j.state) && !j.heard.cancel
    ensures var k := Handle(j, OperatorCancel, a);
            && k.heard.cancel
            && if StepInFlight(j.state) then k.state.Settling? && k.state.verdict == CancelRequest && k.run == j.run
               else k.state == Skipped && k.results.reason == CancelRequested
  {
    var d := Dispatched(j, Cancel, PLAIN, -1, a);
    assert !Owed(d);
  }

  // ---- what the scheduler says ----

  /** The scheduler's word about the needs is taken as said. */
  lemma VerdictIsHeard(j: Job, a: Answers)
    requires AtRest(j) && j.state == Pending
    ensures Handle(j, Scheduled(NeedsMet), a).state == Ready
    ensures var k := Handle(j, Scheduled(NeedsFailed), a);
            k.state == Skipped && k.results.reason == DependencyFailed
  {
    assert !Owed(Dispatched(j, NeedsMet, PLAIN, -1, a));
    assert !Owed(Dispatched(j, NeedsFailed, PLAIN, -1, a));
  }

  /** And so is the skip of a disabled target. */
  lemma SkipIsHeard(j: Job, a: Answers)
    requires AtRest(j) && j.state == Pending
    ensures var k := Handle(j, Disabled, a); k.state == Skipped && k.results.reason == TargetDisabled
  {
    var d := Dispatched(j, Skip, PLAIN.(reason := TargetDisabled), -1, a);
    assert Table(Pending, Skip) == T(Skipped, FromEvent, EndRecorded);
    assert d.state == Skipped && d.results.reason == TargetDisabled && !Owed(d);
  }

  /** What becomes of a job that has its slot when the cursor stands at n: a stop comes
      first, then the step, whose spawn may fail; past the last step the job has succeeded. */
  predicate GoesOn(k: Job, n: nat, timeUp: bool, a: Answers)
    requires n <= |k.plan.coe|
  {
    if a.cancelSeen || timeUp then
      && k.state == Cancelled && k.run.cur == n
      && k.results.reason == (if a.cancelSeen then CancelRequested else Timeout)
    else if n == |k.plan.coe| then k.state == Success
    else if a.spawnOk then
      k.state == StepRunning(k.plan.coe[n]) && k.run.liveStep == n && k.timers.step == Timer(a.stepLimited, false)
    else k.state == Failed && k.results.reason == EngineError && k.run.cur == n + 1
  }

  lemma FailedSpawnIsOwed(j: Job, a: Answers)
    requires Coherent(j) && j.state == BetweenSteps && !j.run.haveFollowup && !a.spawnOk
    requires OwedStep(j, a).state.StepRunning?
    ensures var d := OwedStep(j, a); !d.aborted && d.run.haveFollowup && d.run.liveStep == d.run.cur == j.run.cur
  {
    var (e, coe, k) := NextMove(j, a);
    assert e == NextStep;
  }

  lemma FollowupEndsTheJob(d: Job, a: Answers)
    requires d.state.StepRunning? && !d.aborted && d.run.haveFollowup && d.run.liveStep == d.run.cur
    ensures var k := OwedStep(d, a);
            k.state == Failed && k.results.reason == EngineError && k.run.cur == d.run.cur + 1
  {
  }

  lemma OwedOnce(j: Job, a: Answers)
    requires Coherent(j) && j.state == BetweenSteps && !j.run.haveFollowup
    requires OwedStep(j, a).state.StepRunning? ==> a.spawnOk
    ensures !OwedStep(j, a).run.haveFollowup
  {
    var (e, coe, k) := NextMove(j, a);
    var r := Lookup(k.state, e, PLAIN.(coe := coe, carried := k.results.last));
    assert e == NextStep || r.actions == EndRecorded;
  }

  lemma OwedGoesOn(j: Job, a: Answers)
    requires Coherent(j) && j.state == BetweenSteps && !j.run.haveFollowup
    ensures j.run.cur <= |j.plan.coe|
    ensures GoesOn(OwedStep(OwedStep(j, a), a), j.run.cur, ReadTimer(j.timers.job, a.jobClock).fired, a)
  {
    StopsComeFirst(j, a);
    var d := OwedStep(j, a);
    if d.state.StepRunning? && !a.spawnOk {
      FailedSpawnIsOwed(j, a);
      FollowupEndsTheJob(d, a);
    } else {
      OwedOnce(j, a);
      if d.state.StepRunning? {
        SpawnArmsTheTimer(j, a);
      }
    }
  }

  lemma StartedIsCoherent(j: Job, a: Answers)
    requires AtRest(j) && j.state == Ready
    ensures Coherent(Dispatched(j, SlotGranted, PLAIN, -1, a))
  {
  }

  lemma UnstartedHasFailed(j: Job, a: Answers)
    requires AtRest(j) && j.state == Ready && !a.startOk
    ensures var k := Handle(j, Scheduled(SlotGranted), a); k.state == Failed && k.results.reason == EngineError
  {
    var d := Dispatched(j, SlotGranted, PLAIN, -1, a);
    assert d.state == BetweenSteps && d.run.haveFollowup;
    assert !Owed(OwedStep(d, a));
  }

  /** A granted job that could be started goes on with its first step; one that could not has failed. */
  lemma GrantIsHeard(j: Job, a: Answers)
    requires AtRest(j) && j.state == Ready
    ensures Possible(j, Scheduled(SlotGranted))
    ensures var k := Handle(j, Scheduled(SlotGranted), a);
            if a.startOk then GoesOn(k, 0, j.plan.limited && a.jobClock, a)
            else k.state == Failed && k.results.reason == EngineError
  {
    if a.startOk {
      StartedIsCoherent(j, a);
      StartArmsTheTimer(j, a);
      OwedGoesOn(Dispatched(j, SlotGranted, PLAIN, -1, a), a);
    } else {
      UnstartedHasFailed(j, a);
    }
  }

  lemma EmptiedIsCoherent(j: Job, a: Answers)
    requires AtRest(j) && j.state.Settling? && j.state.verdict == Continue && j.run.leaderReaped
    ensures var d := Dispatched(j, GroupEmpty, PLAIN, j.run.liveStep, a);
            && Coherent(d) && d.state == BetweenSteps && !d.run.haveFollowup
            && d.run.cur == j.run.cur + 1 && d.timers == j.timers
  {
  }

  /** The end of a step that lets the job go on hands over to the next one. */
  lemma StepAfterStep(j: Job, a: Answers)
    requires AtRest(j) && j.state.Settling? && j.state.verdict == Continue && j.run.leaderReaped
    ensures Possible(j, GroupGone) && j.run.cur < |j.plan.coe|
    ensures GoesOn(Handle(j, GroupGone, a), j.run.cur + 1, ReadTimer(j.timers.job, a.jobClock).fired, a)
  {
    EmptiedIsCoherent(j, a);
    OwedGoesOn(Dispatched(j, GroupEmpty, PLAIN, j.run.liveStep, a), a);
  }

  // ---- timers that have not run out, or no longer matter ----

  /** Reading a timer that has not run out changes nothing. */
  lemma EarlyTimersAreQuiet(j: Job, clock: bool, a: Answers)
    requires AtRest(j) && StepInFlight(j.state)
    ensures !ReadTimer(j.timers.step, clock).fired ==> Handle(j, StepTimerReady(j.run.cur, clock), a) == j
    ensures !ReadTimer(j.timers.grace, clock).fired ==> Handle(j, GraceTimerReady(j.run.cur, clock), a) == j
    ensures !ReadTimer(j.timers.job, clock).fired ==> Handle(j, JobTimerReady(clock), a) == j
  {
  }

  /** A step timer that runs out while its step is already settling is read and put on the trace, no more. */
  lemma SettledTimeoutIsNoted(j: Job, a: Answers)
    requires AtRest(j) && j.state.Settling? && j.timers.step == Timer(true, false)
    ensures Handle(j, StepTimerReady(j.run.cur, true), a)
            == j.(timers := j.timers.(step := Timer(true, true)),
                  trace := Traced(j.trace, Record(j.state, StepTimeout, Ignoring, Unstated)))
  {
    assert !Owed(Dispatched(StepTimerRead(j, true), StepTimeout, PLAIN, j.run.cur, a));
  }
}
