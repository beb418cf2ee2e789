/** How a job ended, as a function of the events in its trace, and how many
transitions it can take to get there. */
module ShellHistory {
  import opened Lifecycle
  import opened Shell
  import opened ShellSafety

  function Moves(t: Trace): nat {
    match t
    case NoTrace => 0
    case Traced(before, last) => Moves(before) + if last.decision == Moving then 1 else 0
  }

  /** An upper bound on the transitions still to come. */
  function Rank(s: State, left: nat): nat {
    match s
    case Pending => 5 * left + 4
    case Ready => 5 * left + 3
    case BetweenSteps => 5 * left + 2
    case StepRunning(_) => 5 * left + 1
    case StepStopping(_) => 5 * left
    case StepKilling(_) => if left == 0 then 0 else 5 * left - 1
    case Settling(v, killed) =>
      if left == 0 then 0
      else
        5 * left - (if killed then 1 else 0)
        - (match v case Continue => 1 case Fail => 1 case CancelTimeout => 2 case CancelRequest => 3)
    case _ => 0
  }

  function Left(j: Job): nat {
    if j.run.cur <= |j.plan.coe| then |j.plan.coe| - j.run.cur else 0
  }

  predicate Bounded(j: Job) {
    Moves(j.trace) + Rank(j.state, Left(j)) <= 5 * |j.plan.coe| + 4
  }

  /** The state, and the recorded reason of a job that was stopped before its
      steps decided, are what the trace says. */
  predicate Explained(j: Job) {
    var t, why := j.trace, j.results.reason;
    && (Saw(t, Cancel) <==>
        (j.state.Settling? && j.state.verdict == CancelRequest)
        || ((j.state == Skipped || j.state == Cancelled) && why == CancelRequested))
    && (!Saw(t, Cancel) ==>
        (Saw(t, JobTimeout) <==>
         (j.state.Settling? && j.state.verdict == CancelTimeout) || (j.state == Cancelled && why == Timeout)))
    && (Saw(t, NeedsFailed) <==> j.state == Skipped && why == DependencyFailed)
    && (Saw(t, Skip) <==> j.state == Skipped && why == TargetDisabled)
    && (Saw(t, StartFailed) ==> j.state == Failed && why == EngineError)
    && (Saw(t, SlotGranted) <==> j.state != Pending && j.state != Ready && j.state != Skipped)
    && (j.state == Cancelled ==> why == CancelRequested || why == Timeout)
    && (j.state == Skipped ==> why == CancelRequested || why == DependencyFailed || why == TargetDisabled)
  }

  lemma ExplainedPending(j: Job, e: Event, p: Payload, r: Result, a: Answers)
    requires Explained(j) && j.state == Pending
    requires RowPending(e, p, r) && r.kind == Moved && (e == Skip ==> p.reason == TargetDisabled)
    ensures Explained(AfterMove(j, e, r, a))
  {
  }

  lemma ExplainedReady(j: Job, e: Event, p: Payload, r: Result, a: Answers)
    requires Explained(j) && j.state == Ready
    requires RowReady(e, p, r) && r.kind == Moved && (e == Skip ==> p.reason == TargetDisabled)
    ensures Explained(AfterMove(j, e, r, a))
  {
  }

  lemma ExplainedBetween(j: Job, e: Event, p: Payload, r: Result, a: Answers)
    requires Explained(j) && j.state == BetweenSteps
    requires RowBetween(e, p, r) && r.kind == Moved
    ensures Explained(AfterMove(j, e, r, a))
  {
  }

  lemma ExplainedRunning(j: Job, e: Event, p: Payload, r: Result, a: Answers)
    requires Explained(j) && j.state.StepRunning?
    requires (if e == StartFailed then RowUnspawned(r) else RowRunning(j.state.coe, e, p, r)) && r.kind == Moved
    ensures Explained(AfterMove(j, e, r, a))
  {
  }

  lemma ExplainedStopped(j: Job, e: Event, p: Payload, r: Result, a: Answers)
    requires Explained(j) && (j.state.StepStopping? || j.state.StepKilling?)
    requires RowStopped(j.state.coe, j.state.StepKilling?, e, r) && r.kind == Moved
    ensures Explained(AfterMove(j, e, r, a))
  {
  }

  lemma ExplainedSettling(j: Job, e: Event, p: Payload, r: Result, a: Answers)
    requires Explained(j) && j.state.Settling?
    requires e != GroupEmpty && RowSettling(j.state.verdict, j.state.killed, e, r)
    ensures Explained(AfterMove(j, e, r, a))
  {
  }

  lemma ExplainedEmptied(j: Job, e: Event, p: Payload, r: Result, a: Answers)
    requires Explained(j) && j.state.Settling?
    requires e == GroupEmpty && RowEmptied(j.state.verdict, p, r)
    ensures Explained(AfterMove(j, e, r, a))
  {
  }

  predicate Ends(b: Bundle) {
    b == EndRecorded || b == EndWithStep
  }

  /** r takes the rank down by at least one, or leaves everything if it is ignored. */
  predicate Falls(s: State, left: nat, e: Event, r: Result) {
    && (e == GroupEmpty ==> left > 0)
    && (r.kind == Moved ==> Rank(r.next, if e == GroupEmpty then left - 1 else left) < Rank(s, left))
    && (r.kind == Ignored ==> r.next == s && e != GroupEmpty)
    && (Ends(r.actions) ==> IsFinal(r.next))
  }

  lemma SettlingRankFalls(v: Verdict, killed: bool, left: nat, e: Event, p: Payload, r: Result)
    requires left > 0 && if e == GroupEmpty then RowEmptied(v, p, r) else RowSettling(v, killed, e, r)
    ensures Falls(Settling(v, killed), left, e, r)
  {
  }

  lemma RunningRankFalls(coe: bool, left: nat, e: Event, p: Payload, r: Result)
    requires left > 0 && e != GroupEmpty && r.kind == Moved
    requires if e == StartFailed then RowUnspawned(r) else RowRunning(coe, e, p, r)
    ensures Falls(StepRunning(coe), left, e, r)
  {
  }

  lemma StoppedRankFalls(coe: bool, killed: bool, left: nat, e: Event, r: Result)
    requires left > 0 && e != GroupEmpty && r.kind == Moved && RowStopped(coe, killed, e, r)
    ensures Falls(if killed then StepKilling(coe) else StepStopping(coe), left, e, r)
  {
  }

  lemma LiveRankFalls(s: State, left: nat, e: Event, p: Payload, r: Result)
    requires Row(s, e, p, r) && StepInFlight(s) && left > 0
    ensures Falls(s, left, e, r)
  {
    match s {
      case StepRunning(coe) => RunningRankFalls(coe, left, e, p, r);
      case StepStopping(coe) => StoppedRankFalls(coe, false, left, e, r);
      case StepKilling(coe) => StoppedRankFalls(coe, true, left, e, r);
      case Settling(v, killed) => SettlingRankFalls(v, killed, left, e, p, r);
    }
  }

  lemma IdleRankFalls(s: State, left: nat, e: Event, p: Payload, r: Result)
    requires Row(s, e, p, r) && !StepInFlight(s) && (e == NextStep ==> left > 0)
    ensures Falls(s, left, e, r)
  {
  }

  /** Every transition takes the rank down by at least one; an ignored event leaves it. */
  lemma RankFalls(j: Job, e: Event, p: Payload, r: Result)
    requires Row(j.state, e, p, r) && j.run.cur <= |j.plan.coe|
    requires StepInFlight(j.state) || e == NextStep ==> j.run.cur < |j.plan.coe|
    ensures Falls(j.state, Left(j), e, r)
  {
    if StepInFlight(j.state) {
      LiveRankFalls(j.state, Left(j), e, p, r);
    } else {
      IdleRankFalls(j.state, Left(j), e, p, r);
    }
  }

  lemma RankBounds(j: Job, e: Event, r: Result, a: Answers)
    requires Bounded(j) && r.kind != Aborts && j.run.cur <= |j.plan.coe|
    requires e == GroupEmpty ==> j.run.liveStep >= 0
    requires Falls(j.state, Left(j), e, r)
    ensures Bounded(AfterMove(j, e, r, a))
  {
    var k := AfterMove(j, e, r, a);
    if !IsFinal(r.next) {
      assert k.run.cur == if e == GroupEmpty then j.run.cur + 1 else j.run.cur;
    }
  }
}
