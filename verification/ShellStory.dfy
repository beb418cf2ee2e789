/** What became of each step, told from the events alone: a reference that knows
neither the table nor the shell, and the proof that the recorded results are its. */
module ShellStory {
  import opened Lifecycle
  import opened Shell
  import opened ShellSafety

  /** The steps that are decided, whether one more is undecided, and whether that one ran out of time. */
  datatype Story = Story(results: seq<StepResult>, open: bool, timedOut: bool)

  function Decided(s: Story, r: StepResult): Story {
    Story(s.results + [r], false, false)
  }

  /** One more event. The first event that decides a step decides it: its leader's
      exit, which is a failure whatever the status once the step has run out of
      time, the job's timeout, the cancel, or a spawn that failed. `why` is the
      reason that came with a failing exit. */
  function Tell(s: Story, e: Event, why: Reason): Story {
    if e == NextStep then Story(s.results, true, false)
    else if !s.open then s
    else
      match e
      case LeaderExitOk =>
        Decided(s, if s.timedOut then StepResult(StepFailed, Timeout) else StepResult(StepSucceeded, Unstated))
      case LeaderExitFail => Decided(s, StepResult(StepFailed, if s.timedOut then Timeout else why))
      case StepTimeout => s.(timedOut := true)
      case JobTimeout => Decided(s, StepResult(StepCancelled, Timeout))
      case Cancel => Decided(s, StepResult(StepCancelled, CancelRequested))
      case StartFailed => Decided(s, StepResult(StepFailed, EngineError))
      case _ => s
  }

  function Retold(t: Trace): Story {
    match t
    case NoTrace => Story([], false, false)
    case Traced(before, r) => if r.decision == Stale then Retold(before) else Tell(Retold(before), r.event, r.reason)
  }

  function Upto(steps: seq<StepResult>, n: nat): seq<StepResult> {
    if n <= |steps| then steps[..n] else steps
  }

  /** The results so far, as the job has recorded them. */
  function SoFar(j: Job): seq<StepResult> {
    if !j.results.started then []
    else Upto(j.results.steps, if j.state.Settling? then j.run.cur + 1 else j.run.cur)
  }

  predicate Undecided(s: State) {
    s.StepRunning? || s.StepStopping? || s.StepKilling?
  }

  predicate Storied(j: Job) {
    Retold(j.trace) == Story(SoFar(j), Undecided(j.state), j.state.StepStopping? || j.state.StepKilling?)
  }

  lemma RecordExtends(steps: seq<StepResult>, n: nat, s: StepResult)
    requires n < |steps|
    ensures Upto(WithStep(steps, n, s), n + 1) == Upto(steps, n) + [s]
  {
  }

  lemma SkipKeeps(steps: seq<StepResult>, n: nat)
    requires n <= |steps|
    ensures Upto(SkipRest(steps, n), n) == Upto(steps, n)
  {
  }

  // One move, by the state it starts from.

  lemma StoriedWaiting(j: Job, e: Event, p: Payload, r: Result, a: Answers)
    requires Storied(j) && (j.state == Pending || j.state == Ready) && !j.results.started && j.run.cur == 0
    requires if j.state == Pending then RowPending(e, p, r) else RowReady(e, p, r)
    ensures Storied(AfterMove(j, e, r, a))
  {
  }

  lemma StoriedBetween(j: Job, e: Event, p: Payload, r: Result, a: Answers)
    requires Storied(j) && j.state == BetweenSteps && RowBetween(e, p, r) && r.kind == Moved
    requires j.run.liveStep == -1 && (j.results.started ==> j.run.cur <= |j.results.steps|)
    requires e == StartFailed ==> !j.results.started
    requires e == NextStep ==> j.results.started
    ensures Storied(AfterMove(j, e, r, a))
  {
    if j.results.started {
      SkipKeeps(j.results.steps, j.run.cur);
    }
  }

  predicate AtCursor(j: Job) {
    j.results.started && j.run.liveStep == j.run.cur < |j.results.steps|
  }

  lemma StoriedUnspawned(j: Job, r: Result, a: Answers)
    requires Storied(j) && AtCursor(j) && j.state.StepRunning? && RowUnspawned(r) && r.kind == Moved
    ensures Storied(AfterMove(j, StartFailed, r, a))
  {
    var s := StepRecord(r);
    RecordExtends(j.results.steps, j.run.cur, s);
    SkipKeeps(WithStep(j.results.steps, j.run.cur, s), j.run.cur + 1);
  }

  lemma StoriedRunning(j: Job, e: Event, p: Payload, r: Result, a: Answers)
    requires Storied(j) && AtCursor(j) && j.state.StepRunning? && RowRunning(j.state.coe, e, p, r) && r.kind == Moved
    requires e == LeaderExitFail ==> p.reason != Unstated
    ensures Storied(AfterMove(j, e, r, a))
  {
    RecordExtends(j.results.steps, j.run.cur, StepRecord(r));
  }

  lemma StoriedStopped(j: Job, killed: bool, e: Event, r: Result, a: Answers)
    requires Storied(j) && AtCursor(j)
    requires (j.state.StepStopping? || j.state.StepKilling?) && j.state.StepKilling? == killed
    requires RowStopped(j.state.coe, killed, e, r) && r.kind == Moved
    ensures Storied(AfterMove(j, e, r, a))
  {
    RecordExtends(j.results.steps, j.run.cur, StepRecord(r));
  }

  lemma StoriedSettling(j: Job, e: Event, r: Result, a: Answers)
    requires Storied(j) && j.state.Settling? && e != GroupEmpty && RowSettling(j.state.verdict, j.state.killed, e, r)
    ensures Storied(AfterMove(j, e, r, a))
  {
  }

  lemma StoriedEmptied(j: Job, p: Payload, r: Result, a: Answers)
    requires Storied(j) && AtCursor(j) && j.state.Settling? && RowEmptied(j.state.verdict, p, r)
    ensures Storied(AfterMove(j, GroupEmpty, r, a))
  {
    SkipKeeps(j.results.steps, j.run.cur + 1);
  }
}
