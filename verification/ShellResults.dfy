/** What a job has recorded, and why it ended as it did. */
module ShellResults {
  import opened Lifecycle
  import opened Shell
  import opened ShellSafety

  /** A step that lets the job go on: it succeeded, or failed with continue-on-error. */
  predicate Good(s: StepResult, coe: bool) {
    s.outcome == StepSucceeded || (s.outcome == StepFailed && coe)
  }

  predicate AllGood(steps: seq<StepResult>, coe: seq<bool>, n: nat) {
    forall k :: 0 <= k < n && k < |steps| && k < |coe| ==> Good(steps[k], coe[k])
  }

  predicate UnsetFrom(steps: seq<StepResult>, n: nat) {
    forall k :: n <= k < |steps| ==> steps[k] == UNSET
  }

  predicate SkippedFrom(steps: seq<StepResult>, n: nat) {
    forall k :: n <= k < |steps| ==> steps[k] == StepResult(StepSkipped, Unstated)
  }

  predicate Ran(s: StepResult) {
    s.outcome == StepSucceeded || s.outcome == StepFailed || s.outcome == StepCancelled
  }

  /** The step that decided a failing job: it failed for the reason given, and
      without continue-on-error. */
  predicate Fatal(s: StepResult, coe: bool, why: Reason) {
    s.outcome == StepFailed && s.reason == why != Unstated && !coe
  }

  /** What the recorded steps are in state s, with the cursor at cur, `last` the
      last reason a transition recorded, and `why` the job's own. */
  predicate StepsFit(s: State, steps: seq<StepResult>, coe: seq<bool>, cur: nat, last: Reason, why: Reason,
                     unstarted: bool)
    requires |steps| == |coe|
  {
    match s
    case Pending => false
    case Ready => false
    case Skipped => false
    case Settling(v, _) =>
      && cur < |coe| && AllGood(steps, coe, cur) && UnsetFrom(steps, cur + 1)
      && (match v
          case Continue => Good(steps[cur], coe[cur])
          case Fail => Fatal(steps[cur], coe[cur], last)
          case _ => Ran(steps[cur]))
    case Success => cur == |coe| && AllGood(steps, coe, cur) && why == Unstated
    case Failed =>
      && 0 < cur <= |coe| && AllGood(steps, coe, cur - 1) && SkippedFrom(steps, cur)
      && (Fatal(steps[cur - 1], coe[cur - 1], why)
          || (unstarted && steps[cur - 1] == StepResult(StepFailed, EngineError)))
    case Cancelled =>
      && cur <= |coe| && AllGood(steps, coe, if cur == 0 then 0 else cur - 1) && SkippedFrom(steps, cur)
      && (cur > 0 ==> Ran(steps[cur - 1]))
    case _ => AllGood(steps, coe, cur) && UnsetFrom(steps, cur)
  }

  /** Every step has the result the state says, and a job that never started
      has none: it waits, was skipped, or could not be started. */
  predicate Accounted(j: Job) {
    var q, unstarted := j.results, Saw(j.trace, StartFailed);
    if q.started then
      |q.steps| == |j.plan.coe| && StepsFit(j.state, q.steps, j.plan.coe, j.run.cur, q.last, q.reason, unstarted)
    else
      || j.state == Pending || j.state == Ready || j.state == BetweenSteps || j.state == Skipped
      || (j.state == Failed && unstarted)
  }

  lemma SkippedRest(steps: seq<StepResult>, n: nat)
    requires UnsetFrom(steps, n)
    ensures SkippedFrom(SkipRest(steps, n), n)
    ensures |SkipRest(steps, n)| == |steps|
    ensures forall k :: 0 <= k < n && k < |steps| ==> SkipRest(steps, n)[k] == steps[k]
  {
  }

  lemma AccountedPending(j: Job, e: Event, p: Payload, r: Result, a: Answers)
    requires j.state == Pending && !j.results.started && RowPending(e, p, r)
    ensures Accounted(AfterMove(j, e, r, a))
  {
  }

  lemma AccountedReady(j: Job, e: Event, p: Payload, r: Result, a: Answers)
    requires j.state == Ready && !j.results.started && j.run.cur == 0 && RowReady(e, p, r)
    ensures Accounted(AfterMove(j, e, r, a))
  {
  }

  lemma AccountedBetween(j: Job, e: Event, p: Payload, r: Result, a: Answers)
    requires Accounted(j) && j.state == BetweenSteps && RowBetween(e, p, r) && r.kind == Moved
    requires j.run.liveStep == -1 && j.run.cur <= |j.plan.coe| && (e == NoMoreSteps ==> j.run.cur == |j.plan.coe|)
    requires e == StartFailed <==> !j.results.started
    ensures Accounted(AfterMove(j, e, r, a))
  {
    if j.results.started && r.actions == EndRecorded {
      SkippedRest(j.results.steps, j.run.cur);
    }
  }

  /** The live step is the cursor's, and its results are kept. */
  predicate OnCursor(j: Job) {
    j.results.started && j.run.liveStep == j.run.cur < |j.plan.coe|
  }

  lemma AccountedUnspawned(j: Job, r: Result, a: Answers)
    requires Accounted(j) && OnCursor(j) && j.state.StepRunning?
    requires RowUnspawned(r) && r.kind == Moved
    ensures Accounted(AfterMove(j, StartFailed, r, a))
  {
    SkippedRest(WithStep(j.results.steps, j.run.cur, StepRecord(r)), j.run.cur + 1);
  }

  lemma AccountedRunning(j: Job, e: Event, p: Payload, r: Result, a: Answers)
    requires Accounted(j) && OnCursor(j) && j.state == StepRunning(j.plan.coe[j.run.cur])
    requires RowRunning(j.state.coe, e, p, r) && r.kind == Moved && (e == LeaderExitFail ==> p.reason != Unstated)
    ensures Accounted(AfterMove(j, e, r, a))
  {
  }

  lemma AccountedStopped(j: Job, killed: bool, e: Event, r: Result, a: Answers)
    requires Accounted(j) && OnCursor(j)
    requires j.state == if killed then StepKilling(j.plan.coe[j.run.cur]) else StepStopping(j.plan.coe[j.run.cur])
    requires RowStopped(j.state.coe, killed, e, r) && r.kind == Moved
    ensures Accounted(AfterMove(j, e, r, a))
  {
  }

  lemma AccountedSettling(j: Job, e: Event, r: Result, a: Answers)
    requires Accounted(j) && OnCursor(j) && j.state.Settling?
    requires RowSettling(j.state.verdict, j.state.killed, e, r)
    ensures Accounted(AfterMove(j, e, r, a))
  {
  }

  lemma AccountedOnward(j: Job, p: Payload, r: Result, a: Answers)
    requires Accounted(j) && OnCursor(j) && j.state.Settling? && j.state.verdict == Continue
    requires RowEmptied(Continue, p, r)
    ensures Accounted(AfterMove(j, GroupEmpty, r, a))
  {
  }

  /** Ending a job whose step settled fatally or was cancelled. */
  lemma StepsFitAtEnd(s: State, q: Results, coe: seq<bool>, cur: nat, r: Result, u: bool, v: bool)
    requires |q.steps| == |coe| && s.Settling? && StepsFit(s, q.steps, coe, cur, q.last, q.reason, u)
    requires if s.verdict == Fail then r.next == Failed && r.reason == q.last
             else s.verdict != Continue && r.next == Cancelled
    ensures |SkipRest(q.steps, cur + 1)| == |coe|
    ensures StepsFit(r.next, SkipRest(q.steps, cur + 1), coe, cur + 1, r.reason, r.reason, v)
  {
    SkippedRest(q.steps, cur + 1);
  }

  lemma AccountedEmptied(j: Job, p: Payload, r: Result, a: Answers)
    requires Accounted(j) && OnCursor(j) && j.state.Settling? && p.carried == j.results.last
    requires j.state.verdict != Continue && RowEmptied(j.state.verdict, p, r)
    ensures Accounted(AfterMove(j, GroupEmpty, r, a))
  {
    var k := AfterMove(j, GroupEmpty, r, a);
    StepsFitAtEnd(j.state, j.results, j.plan.coe, j.run.cur, r, Saw(j.trace, StartFailed), Saw(k.trace, StartFailed));
  }
}
