/** Every run of one job. */
module ShellRuns {
  import opened Lifecycle
  import opened Shell
  import opened ShellSafety
  import opened ShellProtocol
  import opened ShellResults
  import opened ShellHistory
  import opened ShellStory

  predicate Sound(j: Job) {
    Coherent(j) && Watched(j) && Accounted(j) && Explained(j) && Bounded(j) && Storied(j)
  }

  /** What a handler notes before it dispatches changes none of what is recorded. */
  lemma TouchedKeeps(j: Job, e: Event)
    ensures var t := Touched(j, e);
            && t.plan == j.plan && t.state == j.state && t.results == j.results && t.trace == j.trace
            && t.effects == j.effects && t.run.cur == j.run.cur && t.run.liveStep == j.run.liveStep
            && t.heard == j.heard && t.aborted == j.aborted
  {
  }

  lemma MoveCoherent(j: Job, e: Event, p: Payload, r: Result, a: Answers)
    requires Step(j, e, p, r)
    ensures Coherent(AfterMove(Touched(j, e), e, r, a))
  {
    if IsFinal(j.state) {
    } else if StepInFlight(j.state) {
      LiveMoveCoherent(j, e, p, r, a);
    } else {
      IdleMoveCoherent(j, e, p, r, a);
    }
  }

  lemma IdleMoveCoherent(j: Job, e: Event, p: Payload, r: Result, a: Answers)
    requires Step(j, e, p, r) && (j.state == Pending || j.state == Ready || j.state == BetweenSteps)
    ensures Coherent(AfterMove(Touched(j, e), e, r, a))
  {
    match j.state {
      case Pending => CoherentPending(j, e, p, r, a);
      case Ready => CoherentReady(j, e, p, r, a);
      case BetweenSteps => CoherentBetween(Touched(j, e), e, p, r, a);
    }
  }

  lemma LiveMoveCoherent(j: Job, e: Event, p: Payload, r: Result, a: Answers)
    requires Step(j, e, p, r) && StepInFlight(j.state)
    ensures Coherent(AfterMove(Touched(j, e), e, r, a))
  {
    match j.state {
      case StepRunning(_) => RunningMoveCoherent(j, e, p, r, a);
      case StepStopping(_) => StoppedMoveCoherent(j, e, p, r, a);
      case StepKilling(_) => StoppedMoveCoherent(j, e, p, r, a);
      case Settling(_, _) => SettlingMoveCoherent(j, e, p, r, a);
    }
  }

  lemma StoppedMoveCoherent(j: Job, e: Event, p: Payload, r: Result, a: Answers)
    requires Step(j, e, p, r) && (j.state.StepStopping? || j.state.StepKilling?)
    ensures Coherent(AfterMove(Touched(j, e), e, r, a))
  {
    CoherentStopped(Touched(j, e), j.state.coe, j.state.StepKilling?, e, r, a);
  }

  lemma RunningMoveCoherent(j: Job, e: Event, p: Payload, r: Result, a: Answers)
    requires Step(j, e, p, r) && j.state.StepRunning?
    ensures Coherent(AfterMove(Touched(j, e), e, r, a))
  {
    var t := Touched(j, e);
    if e == StartFailed { CoherentUnspawned(t, r, a); } else { CoherentRunning(t, j.state.coe, e, p, r, a); }
  }

  lemma SettlingMoveCoherent(j: Job, e: Event, p: Payload, r: Result, a: Answers)
    requires Step(j, e, p, r) && j.state.Settling?
    ensures Coherent(AfterMove(Touched(j, e), e, r, a))
  {
    var t, v := Touched(j, e), j.state.verdict;
    if e == GroupEmpty { CoherentEmptied(t, v, p, r, a); } else { CoherentSettling(t, v, j.state.killed, e, r, a); }
  }

  lemma MoveWatched(j: Job, e: Event, p: Payload, r: Result, a: Answers)
    requires Step(j, e, p, r) && Watched(j)
    ensures Watched(AfterMove(Touched(j, e), e, r, a))
  {
    if StepInFlight(j.state) {
      LiveMoveWatched(j, e, p, r, a);
    } else {
      IdleMoveWatched(j, e, p, r, a);
    }
  }

  lemma IdleMoveWatched(j: Job, e: Event, p: Payload, r: Result, a: Answers)
    requires Step(j, e, p, r) && Watched(j) && !StepInFlight(j.state)
    ensures Watched(AfterMove(Touched(j, e), e, r, a))
  {
    var t := Touched(j, e);
    TouchedKeeps(j, e);
    match j.state {
      case Pending => WatchedPending(t, e, p, r, a);
      case Ready => WatchedReady(t, e, p, r, a);
      case BetweenSteps => WatchedBetween(t, e, p, r, a);
      case _ =>
    }
  }

  lemma LiveMoveWatched(j: Job, e: Event, p: Payload, r: Result, a: Answers)
    requires Step(j, e, p, r) && Watched(j) && StepInFlight(j.state)
    ensures Watched(AfterMove(Touched(j, e), e, r, a))
  {
    var t := Touched(j, e);
    TouchedKeeps(j, e);
    match j.state {
      case StepRunning(_) =>
        if e == StartFailed { WatchedUnspawned(t, r, a); } else { WatchedRunning(t, e, p, r, a); }
      case StepStopping(_) => WatchedStopped(t, e, r, a);
      case StepKilling(_) => WatchedStopped(t, e, r, a);
      case Settling(_, _) =>
        if e == GroupEmpty { WatchedEmptied(t, p, r, a); } else { WatchedSettling(t, e, r, a); }
    }
  }

  lemma MoveAccounted(j: Job, e: Event, p: Payload, r: Result, a: Answers)
    requires Step(j, e, p, r) && Accounted(j)
    ensures Accounted(AfterMove(Touched(j, e), e, r, a))
  {
    if StepInFlight(j.state) {
      LiveMoveAccounted(j, e, p, r, a);
    } else {
      IdleMoveAccounted(j, e, p, r, a);
    }
  }

  lemma IdleMoveAccounted(j: Job, e: Event, p: Payload, r: Result, a: Answers)
    requires Step(j, e, p, r) && Accounted(j) && !StepInFlight(j.state)
    ensures Accounted(AfterMove(Touched(j, e), e, r, a))
  {
    var t := Touched(j, e);
    TouchedKeeps(j, e);
    match j.state {
      case Pending => AccountedPending(t, e, p, r, a);
      case Ready => AccountedReady(t, e, p, r, a);
      case BetweenSteps => AccountedBetween(t, e, p, r, a);
      case _ =>
    }
  }

  lemma LiveMoveAccounted(j: Job, e: Event, p: Payload, r: Result, a: Answers)
    requires Step(j, e, p, r) && Accounted(j) && StepInFlight(j.state)
    ensures Accounted(AfterMove(Touched(j, e), e, r, a))
  {
    if j.state.Settling? {
      SettlingMoveAccounted(j, e, p, r, a);
    } else {
      var t := Touched(j, e);
      TouchedKeeps(j, e);
      match j.state {
        case StepRunning(_) =>
          if e == StartFailed { AccountedUnspawned(t, r, a); } else { AccountedRunning(t, e, p, r, a); }
        case StepStopping(_) => AccountedStopped(t, false, e, r, a);
        case StepKilling(_) => AccountedStopped(t, true, e, r, a);
      }
    }
  }

  lemma SettlingMoveAccounted(j: Job, e: Event, p: Payload, r: Result, a: Answers)
    requires Step(j, e, p, r) && Accounted(j) && j.state.Settling?
    ensures Accounted(AfterMove(Touched(j, e), e, r, a))
  {
    var t := Touched(j, e);
    TouchedKeeps(j, e);
    if e != GroupEmpty {
      AccountedSettling(t, e, r, a);
    } else if j.state.verdict == Continue {
      AccountedOnward(t, p, r, a);
    } else {
      AccountedEmptied(t, p, r, a);
    }
  }

  lemma MoveExplained(j: Job, e: Event, p: Payload, r: Result, a: Answers)
    requires Row(j.state, e, p, r) && (e == Skip ==> p.reason == TargetDisabled) && Explained(j)
    ensures Explained(AfterMove(j, e, r, a))
  {
    match j.state {
      case Pending => ExplainedPending(j, e, p, r, a);
      case Ready => ExplainedReady(j, e, p, r, a);
      case BetweenSteps => ExplainedBetween(j, e, p, r, a);
      case StepRunning(_) => ExplainedRunning(j, e, p, r, a);
      case StepStopping(_) => ExplainedStopped(j, e, p, r, a);
      case StepKilling(_) => ExplainedStopped(j, e, p, r, a);
      case Settling(_, _) =>
        if e == GroupEmpty { ExplainedEmptied(j, e, p, r, a); } else { ExplainedSettling(j, e, p, r, a); }
      case _ =>
    }
  }

  lemma MoveBounded(j: Job, e: Event, p: Payload, r: Result, a: Answers)
    requires Step(j, e, p, r) && Bounded(j)
    ensures Bounded(AfterMove(Touched(j, e), e, r, a))
  {
    TouchedKeeps(j, e);
    RankFalls(j, e, p, r);
    RankBounds(Touched(j, e), e, r, a);
  }

  lemma MoveStoried(j: Job, e: Event, p: Payload, r: Result, a: Answers)
    requires Step(j, e, p, r) && Storied(j)
    ensures Storied(AfterMove(Touched(j, e), e, r, a))
  {
    if StepInFlight(j.state) {
      LiveMoveStoried(j, e, p, r, a);
    } else {
      IdleMoveStoried(j, e, p, r, a);
    }
  }

  lemma IdleMoveStoried(j: Job, e: Event, p: Payload, r: Result, a: Answers)
    requires Step(j, e, p, r) && Storied(j) && !StepInFlight(j.state)
    ensures Storied(AfterMove(Touched(j, e), e, r, a))
  {
    var t := Touched(j, e);
    TouchedKeeps(j, e);
    match j.state {
      case Pending => StoriedWaiting(t, e, p, r, a);
      case Ready => StoriedWaiting(t, e, p, r, a);
      case BetweenSteps => StoriedBetween(t, e, p, r, a);
      case _ =>
    }
  }

  lemma LiveMoveStoried(j: Job, e: Event, p: Payload, r: Result, a: Answers)
    requires Step(j, e, p, r) && Storied(j) && StepInFlight(j.state)
    ensures Storied(AfterMove(Touched(j, e), e, r, a))
  {
    var t := Touched(j, e);
    TouchedKeeps(j, e);
    match j.state {
      case StepRunning(_) =>
        if e == StartFailed { StoriedUnspawned(t, r, a); } else { StoriedRunning(t, e, p, r, a); }
      case StepStopping(_) => StoriedStopped(t, false, e, r, a);
      case StepKilling(_) => StoriedStopped(t, true, e, r, a);
      case Settling(_, _) =>
        if e == GroupEmpty { StoriedEmptied(t, p, r, a); } else { StoriedSettling(t, e, r, a); }
    }
  }

  lemma MoveKeepsSound(j: Job, e: Event, p: Payload, r: Result, a: Answers)
    requires Step(j, e, p, r) && Sound(j)
    ensures Sound(AfterMove(Touched(j, e), e, r, a))
  {
    MoveCoherent(j, e, p, r, a);
    MoveWatched(j, e, p, r, a);
    MoveAccounted(j, e, p, r, a);
    TouchedKeeps(j, e);
    MoveExplained(Touched(j, e), e, p, r, a);
    MoveBounded(j, e, p, r, a);
    MoveStoried(j, e, p, r, a);
  }

  lemma DispatchIsMove(j: Job, e: Event, p: Payload, eventStep: int, a: Answers) returns (q: Payload, r: Result)
    requires Sendable(j, e, p, eventStep)
    ensures Step(j, e, q, r)
    ensures Dispatched(Touched(j, e), e, p, eventStep, a) == AfterMove(Touched(j, e), e, r, a)
  {
    q := p.(carried := j.results.last);
    r := Lookup(j.state, e, q);
    LookupRow(j.state, e, q);
    TouchedKeeps(j, e);
  }

  /** One dispatched event keeps everything. */
  lemma DispatchKeepsSound(j: Job, e: Event, p: Payload, eventStep: int, a: Answers)
    requires Sendable(j, e, p, eventStep) && Sound(j)
    ensures Sound(Dispatched(Touched(j, e), e, p, eventStep, a))
  {
    var q, r := DispatchIsMove(j, e, p, eventStep, a);
    MoveKeepsSound(j, e, q, r, a);
  }

  // ---- what the job is owed ----

  /** All invariants hold and nothing is owed: the job waits for the outside world. */
  predicate Resting(j: Job) {
    Sound(j) && !Owed(j)
  }

  lemma ClockKeepsSound(j: Job, clock: bool)
    requires Sound(j)
    ensures Sound(JobTimerRead(j, clock))
  {
  }

  lemma FollowupKeepsSound(j: Job, a: Answers)
    requires Sound(j) && j.run.haveFollowup
    ensures Sound(OwedStep(j, a)) && IsFinal(OwedStep(j, a).state)
  {
    var q, r := DispatchIsMove(j, StartFailed, PLAIN, -1, a);
    MoveKeepsSound(j, StartFailed, q, r, a);
    assert OwedStep(j, a) == Dispatched(Touched(j, StartFailed), StartFailed, PLAIN, -1, a);
  }

  lemma BetweenKeepsSound(j: Job, a: Answers)
    requires Sound(j) && j.state == BetweenSteps && !j.run.haveFollowup
    ensures Sound(OwedStep(j, a))
    ensures IsFinal(OwedStep(j, a).state) || OwedStep(j, a).state.StepRunning?
  {
    ClockKeepsSound(j, a.jobClock);
    var k, e, q, r := BetweenIsMove(j, a);
    MoveKeepsSound(k, e, q, r, a);
  }

  /** What a job between steps is owed is one move of the table. */
  lemma BetweenIsMove(j: Job, a: Answers) returns (k: Job, e: Event, q: Payload, r: Result)
    requires Coherent(j) && j.state == BetweenSteps && !j.run.haveFollowup
    ensures k == j || k == JobTimerRead(j, a.jobClock)
    ensures e == NextMove(j, a).0 && e != StartFailed
    ensures Step(k, e, q, r) && OwedStep(j, a) == AfterMove(Touched(k, e), e, r, a)
    ensures IsFinal(r.next) || r.next.StepRunning?
  {
    var (e', coe, k') := NextMove(j, a);
    e, k := e', k';
    q, r := DispatchIsMove(k, e, PLAIN.(coe := coe), -1, a);
    assert OwedStep(j, a) == Dispatched(Touched(k, e), e, PLAIN.(coe := coe), -1, a);
  }

  lemma OwedKeepsSound(j: Job, a: Answers)
    requires Sound(j)
    ensures Sound(OwedStep(j, a))
    ensures Owed(j) ==>
              IsFinal(OwedStep(j, a).state) || (!j.run.haveFollowup && OwedStep(j, a).state.StepRunning?)
  {
    if Owed(j) {
      if j.run.haveFollowup { FollowupKeepsSound(j, a); } else { BetweenKeepsSound(j, a); }
    }
  }

  /** What the cursor's next move is. */
  lemma StopIsNext(j: Job, a: Answers)
    requires Coherent(j) && j.state == BetweenSteps && !j.run.haveFollowup
    ensures var (e, coe, k) := NextMove(j, a);
            var timeUp := ReadTimer(j.timers.job, a.jobClock).fired;
            && (k == j || k == JobTimerRead(j, a.jobClock))
            && e == (if a.cancelSeen then Cancel else if timeUp then JobTimeout
                     else if j.run.cur < |j.plan.coe| then NextStep else NoMoreSteps)
  {
  }

  lemma RowOfNextMove(j: Job, e: Event, p: Payload, r: Result, a: Answers)
    requires j.run.liveStep < 0 && RowBetween(e, p, r) && e != StartFailed
    ensures var k := AfterMove(j, e, r, a);
            && (e == Cancel || e == JobTimeout ==>
                && k.state == Cancelled && k.run.cur == j.run.cur
                && k.results.reason == if e == Cancel then CancelRequested else Timeout)
            && (e == NextStep ==> k.state == StepRunning(p.coe) && k.run.liveStep == j.run.cur)
            && (e == NoMoreSteps ==> k.state == Success)
  {
  }

  /** Between steps a stop comes first: a cancel, else a job timeout, ends the job;
      otherwise the next step is tried, or the job succeeds. */
  lemma StopsComeFirst(j: Job, a: Answers)
    requires Coherent(j) && j.state == BetweenSteps && !j.run.haveFollowup
    ensures var k, n := OwedStep(j, a), j.run.cur;
            var timeUp := ReadTimer(j.timers.job, a.jobClock).fired;
            if a.cancelSeen || timeUp then
              && k.state == Cancelled && k.run.cur == n
              && k.results.reason == if a.cancelSeen then CancelRequested else Timeout
            else if n < |j.plan.coe| then k.state == StepRunning(j.plan.coe[n]) && k.run.liveStep == n
            else k.state == Success
  {
    StopIsNext(j, a);
    var k, e, q, r := BetweenIsMove(j, a);
    RowOfNextMove(Touched(k, e), e, q, r, a);
  }

  /** And the step it comes before is left untouched. */
  lemma StopsSpawnNothing(j: Job, a: Answers)
    requires Sound(j) && j.state == BetweenSteps && !j.run.haveFollowup
    requires a.cancelSeen || ReadTimer(j.timers.job, a.jobClock).fired
    ensures Tally(OwedStep(j, a).effects, j.run.cur) == NONE
  {
    StopsComeFirst(j, a);
    BetweenKeepsSound(j, a);
    Tallies(OwedStep(j, a).effects, j.run.cur);
  }

  /** Two owed turns are all there ever are: then the job waits for the outside world again. */
  lemma OwedComesToRest(j: Job, a: Answers)
    requires Sound(j)
    ensures Resting(OwedStep(OwedStep(j, a), a))
  {
    OwedKeepsSound(j, a);
    OwedKeepsSound(OwedStep(j, a), a);
  }

  // ---- how the state can change ----

  /** A job that has been given its slot: it runs, or has already ended. */
  predicate HasStarted(s: State) {
    IsRunning(s) || s == Success || s == Failed || s == Cancelled
  }

  /** Without the scheduler a waiting job can only be skipped, a running one only
      go on or end, and a final state stays. */
  predicate Evolves(s: State, t: State) {
    || t == s
    || ((s == Pending || s == Ready) && t == Skipped)
    || (IsRunning(s) && HasStarted(t))
  }

  lemma MoveEvolves(j: Job, e: Event, p: Payload, r: Result)
    requires Row(j.state, e, p, r)
    ensures e == NeedsMet ==> r.next == Ready
    ensures e == NeedsFailed || e == Skip ==> r.next == Skipped
    ensures e == SlotGranted ==> r.next == BetweenSteps
    ensures e != NeedsMet && e != NeedsFailed && e != SlotGranted ==> Evolves(j.state, r.next)
  {
  }

  lemma OwedEvolves(j: Job, a: Answers)
    requires Coherent(j)
    ensures Evolves(j.state, OwedStep(j, a).state) && (j.heard.cancel ==> OwedStep(j, a).heard.cancel)
  {
    if Owed(j) {
      if j.run.haveFollowup {
        var q, r := DispatchIsMove(j, StartFailed, PLAIN, -1, a);
        MoveEvolves(j, StartFailed, q, r);
      } else {
        var k, e, q, r := BetweenIsMove(j, a);
        MoveEvolves(k, e, q, r);
      }
    }
  }

  lemma OwedTwiceEvolves(d: Job, a: Answers)
    requires Sound(d)
    ensures var k := OwedStep(OwedStep(d, a), a);
            && Evolves(d.state, k.state) && (d.heard.cancel ==> k.heard.cancel)
            && (d.state == Ready || d.state == Skipped ==> k.state == d.state)
  {
    OwedEvolves(d, a);
    OwedKeepsSound(d, a);
    OwedEvolves(OwedStep(d, a), a);
  }

  /** What one handler can do to the state, and to the flag that the cancel was told. */
  predicate HandledState(j: Job, i: Input, k: Job) {
    && (match i
        case Scheduled(e) =>
          if e == NeedsMet then k.state == Ready
          else if e == NeedsFailed then k.state == Skipped
          else HasStarted(k.state)
        case Disabled => k.state == Skipped
        case _ => Evolves(j.state, k.state))
    && (j.heard.cancel || i.OperatorCancel? ==> k.heard.cancel)
  }

  // ---- one handler ----

  predicate SentState(j: Job, e: Event, k: Job) {
    && (match e
        case NeedsMet => k.state == Ready
        case NeedsFailed => k.state == Skipped
        case Skip => k.state == Skipped
        case SlotGranted => HasStarted(k.state)
        case _ => Evolves(j.state, k.state))
    && (j.heard.cancel || e == Cancel ==> k.heard.cancel)
  }

  lemma SendEvolves(j: Job, e: Event, p: Payload, eventStep: int, a: Answers)
    requires Sendable(j, e, p, eventStep) && Sound(j) && !Owed(j)
    ensures SentState(j, e, JobSent(Touched(j, e), e, p, eventStep, a))
  {
    var q, r := DispatchIsMove(j, e, p, eventStep, a);
    MoveEvolves(j, e, q, r);
    MoveKeepsSound(j, e, q, r, a);
    OwedTwiceEvolves(Dispatched(Touched(j, e), e, p, eventStep, a), a);
  }

  lemma SendKeepsSound(j: Job, e: Event, p: Payload, eventStep: int, a: Answers)
    requires Sendable(j, e, p, eventStep) && Resting(j)
    ensures var k := JobSent(Touched(j, e), e, p, eventStep, a); Resting(k) && SentState(j, e, k)
  {
    DispatchKeepsSound(j, e, p, eventStep, a);
    OwedComesToRest(Dispatched(Touched(j, e), e, p, eventStep, a), a);
    SendEvolves(j, e, p, eventStep, a);
  }

  lemma NoteKeepsStory(j: Job, e: Event)
    requires Explained(j) && Bounded(j) && Storied(j) && Accounted(j)
    ensures var k := Note(j, e, Stale); Explained(k) && Bounded(k) && Storied(k) && Accounted(k)
  {
  }

  lemma NoteKeepsSound(j: Job, e: Event)
    requires Sound(j)
    ensures Sound(Note(j, e, Stale))
  {
    NoteKeepsStory(j, e);
  }

  /** A stale event leaves nothing behind but its trace record. */
  lemma StaleChangesNothing(j: Job, e: Event, p: Payload, eventStep: int, a: Answers)
    requires AtRest(j) && IsStale(j.state, e, eventStep, j.run.liveStep)
    ensures JobSent(j, e, p, eventStep, a) == Note(j, e, Stale)
  {
  }

  lemma ClockKeepsResting(j: Job, i: Input)
    requires Resting(j)
    ensures Resting(Clocked(j, i)) && Clocked(j, i).state == j.state && Clocked(j, i).heard == j.heard
  {
    if i.JobTimerReady? {
      ClockKeepsSound(j, i.clock);
    }
  }

  /** Whatever may be sent leaves a job at rest. */
  lemma SentRests(before: Job, now: Job, e: Event, p: Payload, eventStep: int, a: Answers)
    requires Resting(before) && MaySend(before, now, e, p, eventStep)
    ensures var k := JobSent(now, e, p, eventStep, a); Resting(k) && SentState(before, e, k)
  {
    if IsStale(before.state, e, eventStep, before.run.liveStep) {
      StaleChangesNothing(before, e, p, eventStep, a);
      NoteKeepsSound(before, e);
    } else {
      SendKeepsSound(before, e, p, eventStep, a);
    }
  }

  /** What an input makes a handler send changes the state as the input may. */
  lemma ReactionState(j: Job, i: Input, b: Job, k: Job)
    requires Possible(j, i) && React(j, i).Sending? && b.state == j.state && b.heard == j.heard
    requires SentState(b, React(j, i).event, k)
    ensures HandledState(j, i, k)
  {
  }

  /** Whatever the outside world does, one handler keeps everything and comes to rest. */
  lemma HandleKeepsSound(j: Job, i: Input, a: Answers)
    requires Resting(j) && Possible(j, i)
    ensures Resting(Handle(j, i, a)) && HandledState(j, i, Handle(j, i, a))
  {
    EveryHandlerReactsWell(j, i);
    ClockKeepsResting(j, i);
    match React(j, i) {
      case Quietly(k) => QuietState(j, i);
      case Sending(k, e, p, step) =>
        SentRests(Clocked(j, i), k, e, p, step, a);
        ReactionState(j, i, Clocked(j, i), JobSent(k, e, p, step, a));
    }
  }

  lemma QuietState(j: Job, i: Input)
    requires React(j, i).Quietly?
    ensures HandledState(j, i, Clocked(j, i))
  {
  }

  // ---- whole runs ----

  lemma {:induction false} RunsAreSound(plan: Plan, turns: seq<Turn>)
    requires IsRun(NewJob(plan), turns)
    ensures Resting(RunTo(NewJob(plan), turns))
    ensures RunTo(NewJob(plan), turns).plan == plan
  {
    if turns != [] {
      RunsAreSound(plan, turns[..|turns| - 1]);
      var last := turns[|turns| - 1];
      HandleKeepsSound(RunTo(NewJob(plan), turns[..|turns| - 1]), last.input, last.answers);
    }
  }

  /** No lookup of any run reaches an impossible cell, and between two handlers
      the job is owed nothing and never sits between steps. */
  lemma NoRunAborts(plan: Plan, turns: seq<Turn>)
    requires IsRun(NewJob(plan), turns)
    ensures var j := RunTo(NewJob(plan), turns);
            !j.aborted && !j.run.haveFollowup && j.state != BetweenSteps && Coherent(j)
  {
    RunsAreSound(plan, turns);
  }

  /** Every run takes at most 5n + 4 transitions for n steps. */
  lemma RunsAreBounded(plan: Plan, turns: seq<Turn>)
    requires IsRun(NewJob(plan), turns)
    ensures Moves(RunTo(NewJob(plan), turns).trace) <= 5 * |plan.coe| + 4
  {
    RunsAreSound(plan, turns);
  }

  /** An event tagged with a step that has ended changes nothing but the trace. */
  lemma LateEventsChangeNothing(plan: Plan, turns: seq<Turn>, i: Input, a: Answers)
    requires IsRun(NewJob(plan), turns)
    requires i.StepTimerReady? || i.GraceTimerReady?
    requires i.step != RunTo(NewJob(plan), turns).run.liveStep
    ensures var j := RunTo(NewJob(plan), turns); Handle(j, i, a).(trace := j.trace) == j
  {
    RunsAreSound(plan, turns);
    var j := RunTo(NewJob(plan), turns);
    StaleChangesNothing(j, if i.StepTimerReady? then StepTimeout else GraceExpired, PLAIN, i.step, a);
  }

  /** In every run each step the cursor has passed was recorded once and finished
      once; if it was spawned, its group got exactly one SIGTERM, one grace timer
      and at most one SIGKILL and was found empty once, and if not, none. Steps beyond were never touched,
      and the order of all of it was the protocol's. */
  lemma EveryStepTornDownOnce(plan: Plan, turns: seq<Turn>, k: int)
    requires IsRun(NewJob(plan), turns)
    ensures var j := RunTo(NewJob(plan), turns);
            && Watch(j.effects) != Bad
            && (0 <= k < j.run.cur ==> Done(Tally(j.effects, k)))
            && (k > j.run.cur || (k == j.run.cur && !StepInFlight(j.state)) ==> Tally(j.effects, k) == NONE)
  {
    RunsAreSound(plan, turns);
    Tallies(RunTo(NewJob(plan), turns).effects, k);
  }

  /** In every run, when a step is spawned, the groups of all the steps before it
      have been found empty. */
  lemma EverySpawnWaits(plan: Plan, turns: seq<Turn>, es: Effects, k: int, m: int)
    requires IsRun(NewJob(plan), turns) && Earlier(After(es, Spawned(k)), RunTo(NewJob(plan), turns).effects)
    requires 0 <= m < k
    ensures Done(Tally(es, m)) && Tally(es, m).emptied == Tally(es, m).spawned
  {
    RunsAreSound(plan, turns);
    GoodFromTheStart(After(es, Spawned(k)), RunTo(NewJob(plan), turns).effects);
    SpawnWaits(es, k, m);
  }

  lemma EndedSteps(j: Job, k: nat)
    requires Accounted(j) && IsFinal(j.state) && j.results.started && k < |j.plan.coe|
    ensures |j.results.steps| == |j.plan.coe|
    ensures if k < j.run.cur then Ran(j.results.steps[k]) else j.results.steps[k].outcome == StepSkipped
  {
    if k + 1 < j.run.cur || (j.state == Success && k < j.run.cur) {
      assert Good(j.results.steps[k], j.plan.coe[k]);
    }
  }

  /** A started job that has ended has exactly one outcome per step: the ones the
      cursor passed ran, the others are skipped. */
  lemma EndedJobsAccountForEveryStep(plan: Plan, turns: seq<Turn>, k: nat)
    requires IsRun(NewJob(plan), turns) && k < |plan.coe|
    requires IsFinal(RunTo(NewJob(plan), turns).state) && RunTo(NewJob(plan), turns).results.started
    ensures var j := RunTo(NewJob(plan), turns);
            && |j.results.steps| == |plan.coe|
            && (if k < j.run.cur then Ran(j.results.steps[k]) else j.results.steps[k].outcome == StepSkipped)
  {
    RunsAreSound(plan, turns);
    EndedSteps(RunTo(NewJob(plan), turns), k);
  }

  /** The recorded results are what the events say of each step: the decided ones
      come first, and of an ended job the others are skipped. */
  predicate StepsToldBy(j: Job) {
    var told := Retold(j.trace).results;
    && told <= j.results.steps
    && forall k :: |told| <= k < |j.results.steps| ==>
         j.results.steps[k] == if IsFinal(j.state) then StepResult(StepSkipped, Unstated) else UNSET
  }

  lemma SoundIsTold(j: Job)
    requires Coherent(j) && Accounted(j) && Storied(j) && j.results.started
    ensures StepsToldBy(j)
  {
  }

  lemma StepsAreTheirStory(plan: Plan, turns: seq<Turn>)
    requires IsRun(NewJob(plan), turns) && RunTo(NewJob(plan), turns).results.started
    ensures StepsToldBy(RunTo(NewJob(plan), turns))
  {
    RunsAreSound(plan, turns);
    SoundIsTold(RunTo(NewJob(plan), turns));
  }

  /** How a job with these steps ends, told from its trace alone. A cancel that
      reached it before it ended wins; then a job timeout; then the scheduler's
      skips; then a start or spawn that failed, which continue-on-error does not
      rescue; and otherwise the last decided step. */
  function Ending(t: Trace, coe: seq<bool>): (State, Reason) {
    var told := Retold(t).results;
    var n := |told|;
    if Saw(t, Cancel) then (if Saw(t, SlotGranted) then Cancelled else Skipped, CancelRequested)
    else if Saw(t, JobTimeout) then (Cancelled, Timeout)
    else if Saw(t, NeedsFailed) then (Skipped, DependencyFailed)
    else if Saw(t, Skip) then (Skipped, TargetDisabled)
    else if Saw(t, StartFailed) then (Failed, EngineError)
    else if 0 < n <= |coe| && !Good(told[n - 1], coe[n - 1]) then (Failed, told[n - 1].reason)
    else (Success, Unstated)
  }

  lemma SoundEnds(j: Job)
    requires Sound(j) && IsFinal(j.state)
    ensures (j.state, j.results.reason) == Ending(j.trace, j.plan.coe)
  {
    if j.state == Success && j.run.cur > 0 {
      assert Good(j.results.steps[j.run.cur - 1], j.plan.coe[j.run.cur - 1]);
    }
  }

  /** A job's final state and reason are a function of its events. */
  lemma OutcomeIsItsHistory(plan: Plan, turns: seq<Turn>)
    requires IsRun(NewJob(plan), turns) && IsFinal(RunTo(NewJob(plan), turns).state)
    ensures var j := RunTo(NewJob(plan), turns); (j.state, j.results.reason) == Ending(j.trace, plan.coe)
  {
    RunsAreSound(plan, turns);
    SoundEnds(RunTo(NewJob(plan), turns));
  }

  /** The decided steps explain the end: after success each succeeded or was
      forgiven; a failing job failed at the last one, for its reason. */
  predicate StepsDecide(j: Job) {
    var told, coe := Retold(j.trace).results, j.plan.coe;
    && |told| <= |coe|
    && (j.state == Success ==> |told| == |coe| && AllGood(told, coe, |told|))
    && (j.state == Failed && !Saw(j.trace, StartFailed) ==>
          told != [] && AllGood(told, coe, |told| - 1) && Fatal(told[|told| - 1], coe[|told| - 1], j.results.reason))
  }

  lemma SoundDecides(j: Job)
    requires Sound(j) && IsFinal(j.state)
    ensures StepsDecide(j)
  {
  }

  /** Success means that every step succeeded or failed with continue-on-error,
      and a failing job failed at its last decided step, for that step's reason,
      whatever earlier steps were forgiven. */
  lemma StepsDecideTheJob(plan: Plan, turns: seq<Turn>)
    requires IsRun(NewJob(plan), turns) && IsFinal(RunTo(NewJob(plan), turns).state)
    ensures StepsDecide(RunTo(NewJob(plan), turns))
  {
    RunsAreSound(plan, turns);
    SoundDecides(RunTo(NewJob(plan), turns));
  }

  lemma ExitIsMove(j: Job, why: Reason, a: Answers)
    requires Coherent(j) && !Owed(j) && j.state.StepRunning? && why != Unstated
    ensures Handle(j, LeaderExits(false, why), a).trace
         == Traced(j.trace, Record(j.state, LeaderExitFail, Moving, why))
  {
    var t := j.(run := j.run.(leaderReaped := true));
    var d := Dispatched(t, LeaderExitFail, PLAIN.(reason := why), j.run.liveStep, a);
    assert d.state.Settling? && !Owed(d);
  }

  /** The reason of a step that failed by its leader's exit is the one that came with it. */
  lemma ExitReasonIsKept(j: Job, why: Reason, a: Answers)
    requires Resting(j) && j.state.StepRunning? && why != Unstated
    ensures var k := Handle(j, LeaderExits(false, why), a);
            Retold(k.trace).results == Retold(j.trace).results + [StepResult(StepFailed, why)]
  {
    ExitIsMove(j, why, a);
    assert Storied(j);
  }
}
