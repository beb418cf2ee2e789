/** The job lifecycle: one flat table from (state, event) to a cell.

The table is a constant and the lookup decides nothing else. A state that
exists in a plain and a continue-on-error variant, or in a -term and a -kill
variant, is one constructor with a flag: three waiting states, three pairs of
step states, eight settling states and four final ones make the 21 rows. */
module Lifecycle {

  datatype Verdict = Continue | Fail | CancelTimeout | CancelRequest

  datatype State =
    | Pending
    | Ready
    | BetweenSteps
    | StepRunning(coe: bool)
    | StepStopping(coe: bool) // out of time, being asked to stop
    | StepKilling(coe: bool)  // out of time, being killed
    | Settling(verdict: Verdict, killed: bool) // nothing is left but the group's end
    | Success
    | Failed
    | Skipped
    | Cancelled

  datatype Event =
    | NeedsMet
    | NeedsFailed
    | SlotGranted
    | NextStep
    | NoMoreSteps
    | StartFailed
    | LeaderExitOk
    | LeaderExitFail
    | StepTimeout
    | JobTimeout
    | Cancel
    | GraceExpired
    | GroupEmpty
    | Skip

  datatype Action =
    | NoAction
    | StartJob
    | SpawnStep
    | SigtermGroup
    | ArmGrace
    | SigkillGroup
    | RecordStep
    | RecordJob
    | EndJob

  /** A reason's text: none, the ones the engine knows by name, or any other text
      an event carries. */
  datatype Reason =
    | Unstated
    | DependencyFailed
    | CancelRequested
    | Timeout
    | EngineError
    | TargetDisabled
    | Told(text: string)

  datatype ReasonRule = NoReason | Fixed(r: Reason) | FromEvent | Carried

  /** The action lists that occur in the table. */
  datatype Bundle =
    | Nothing
    | Start            // start-job
    | Spawn            // spawn-step
    | TermGrace        // sigterm-group, arm-grace
    | TermGraceRecord  // sigterm-group, arm-grace, record-step
    | KillGroup        // sigkill-group
    | RecordOnly       // record-step
    | EndRecorded      // record-job, end-job
    | EndWithStep      // record-step, record-job, end-job

  /** The cell's four action slots. */
  function Actions(b: Bundle): (acts: seq<Action>)
    ensures |acts| == 4
  {
    match b
    case Nothing => [NoAction, NoAction, NoAction, NoAction]
    case Start => [StartJob, NoAction, NoAction, NoAction]
    case Spawn => [SpawnStep, NoAction, NoAction, NoAction]
    case TermGrace => [SigtermGroup, ArmGrace, NoAction, NoAction]
    case TermGraceRecord => [SigtermGroup, ArmGrace, RecordStep, NoAction]
    case KillGroup => [SigkillGroup, NoAction, NoAction, NoAction]
    case RecordOnly => [RecordStep, NoAction, NoAction, NoAction]
    case EndRecorded => [RecordJob, EndJob, NoAction, NoAction]
    case EndWithStep => [RecordStep, RecordJob, EndJob, NoAction]
  }

  datatype Cell =
    | Transition(next: State, coeByPayload: bool, reason: ReasonRule, actions: Bundle)
    | Ignore
    | Impossible // a kernel bug: the lookup aborts

  datatype Payload = Payload(coe: bool, reason: Reason, carried: Reason)

  datatype Kind = Moved | Ignored | Aborts

  datatype Result = Result(kind: Kind, next: State, reason: Reason, actions: Bundle)

  function T(next: State, reason: ReasonRule, actions: Bundle): Cell {
    Transition(next, false, reason, actions)
  }

  /** The table. Every (state, event) pair that a row does not list is impossible. */
  function Table(s: State, e: Event): Cell {
    match s
    case Pending => (
      match e
      case NeedsMet => T(Ready, NoReason, Nothing)
      case NeedsFailed => T(Skipped, Fixed(DependencyFailed), EndRecorded)
      case Cancel => T(Skipped, Fixed(CancelRequested), EndRecorded)
      case Skip => T(Skipped, FromEvent, EndRecorded)
      case _ => Impossible)
    case Ready => (
      match e
      case SlotGranted => T(BetweenSteps, NoReason, Start)
      case Cancel => T(Skipped, Fixed(CancelRequested), EndRecorded)
      case Skip => T(Skipped, FromEvent, EndRecorded)
      case _ => Impossible)
    case BetweenSteps => (
      match e
      case NextStep => Transition(StepRunning(false), true, NoReason, Spawn)
      case NoMoreSteps => T(Success, NoReason, EndRecorded)
      case StartFailed => T(Failed, Fixed(EngineError), EndRecorded)
      case JobTimeout => T(Cancelled, Fixed(Timeout), EndRecorded)
      case Cancel => T(Cancelled, Fixed(CancelRequested), EndRecorded)
      case _ => Impossible)
    case StepRunning(coe) => (
      match e
      // a spawn that failed is fatal even with continue-on-error
      case StartFailed => T(Failed, Fixed(EngineError), EndWithStep)
      case LeaderExitOk => T(Settling(Continue, false), NoReason, TermGraceRecord)
      case LeaderExitFail => T(Settling(if coe then Continue else Fail, false), FromEvent, TermGraceRecord)
      case StepTimeout => T(StepStopping(coe), Fixed(Timeout), TermGrace)
      case JobTimeout => T(Settling(CancelTimeout, false), Fixed(Timeout), TermGraceRecord)
      case Cancel => T(Settling(CancelRequest, false), Fixed(CancelRequested), TermGraceRecord)
      case _ => Impossible)
    case StepStopping(coe) => (
      match e
      // out of time: the exit status no longer counts
      case LeaderExitOk => T(Settling(if coe then Continue else Fail, false), Fixed(Timeout), RecordOnly)
      case LeaderExitFail => T(Settling(if coe then Continue else Fail, false), Fixed(Timeout), RecordOnly)
      case JobTimeout => T(Settling(CancelTimeout, false), Fixed(Timeout), RecordOnly)
      case Cancel => T(Settling(CancelRequest, false), Fixed(CancelRequested), RecordOnly)
      case GraceExpired => T(StepKilling(coe), NoReason, KillGroup)
      case _ => Impossible)
    case StepKilling(coe) => (
      match e
      case LeaderExitOk => T(Settling(if coe then Continue else Fail, true), Fixed(Timeout), RecordOnly)
      case LeaderExitFail => T(Settling(if coe then Continue else Fail, true), Fixed(Timeout), RecordOnly)
      case JobTimeout => T(Settling(CancelTimeout, true), Fixed(Timeout), RecordOnly)
      case Cancel => T(Settling(CancelRequest, true), Fixed(CancelRequested), RecordOnly)
      case _ => Impossible)
    case Settling(v, killed) => (
      match e
      case LeaderExitOk => Ignore
      case LeaderExitFail => Ignore
      case StepTimeout => Ignore
      case JobTimeout =>
        // a job timeout fires once, and a cancel outranks it
        if v == CancelTimeout then Impossible
        else if v == CancelRequest then Ignore
        else T(Settling(CancelTimeout, killed), Fixed(Timeout), Nothing)
      case Cancel =>
        if v == CancelRequest then Ignore
        else T(Settling(CancelRequest, killed), Fixed(CancelRequested), Nothing)
      case GraceExpired =>
        if killed then Impossible else T(Settling(v, true), NoReason, KillGroup)
      case GroupEmpty => (
        match v
        case Continue => T(BetweenSteps, NoReason, Nothing)
        case Fail => T(Failed, Carried, EndRecorded)
        case CancelTimeout => T(Cancelled, Fixed(Timeout), EndRecorded)
        case CancelRequest => T(Cancelled, Fixed(CancelRequested), EndRecorded))
      case _ => Impossible)
    case _ =>
      // a broadcast cancel is the one event that still arrives here
      if e == Cancel then Ignore else Impossible
  }

  /** The state's number in the C enumeration, which the source compares. */
  function Ordinal(s: State): nat {
    match s
    case Pending => 0
    case Ready => 1
    case BetweenSteps => 2
    case StepRunning(coe) => if coe then 4 else 3
    case StepStopping(coe) => if coe then 6 else 5
    case StepKilling(coe) => if coe then 8 else 7
    case Settling(v, killed) =>
      (match v case Continue => 9 case Fail => 11 case CancelTimeout => 13 case CancelRequest => 15)
      + (if killed then 1 else 0)
    case Success => 17
    case Failed => 18
    case Skipped => 19
    case Cancelled => 20
  }

  predicate IsFinal(s: State) {
    s.Success? || s.Failed? || s.Skipped? || s.Cancelled?
  }

  /** The live step's group is being torn down. */
  predicate TeardownStarted(s: State) {
    s.StepStopping? || s.StepKilling? || s.Settling?
  }

  /** Some step is live. */
  predicate StepInFlight(s: State) {
    s.StepRunning? || TeardownStarted(s)
  }

  /** Started and not over: what the parallel limit and the caps count. */
  predicate IsRunning(s: State) {
    s.BetweenSteps? || StepInFlight(s)
  }

  /** The source defines these predicates as ranges of the enumeration. */
  lemma StateRanges(s: State)
    ensures IsFinal(s) <==> Ordinal(Success) <= Ordinal(s)
    ensures TeardownStarted(s) <==>
            Ordinal(StepStopping(false)) <= Ordinal(s) <= Ordinal(Settling(CancelRequest, true))
    ensures StepInFlight(s) <==>
            Ordinal(StepRunning(false)) <= Ordinal(s) <= Ordinal(Settling(CancelRequest, true))
    ensures IsRunning(s) <==> Ordinal(BetweenSteps) <= Ordinal(s) <= Ordinal(Settling(CancelRequest, true))
    ensures Ordinal(s) < 21
  {
  }

  predicate IsStepScoped(e: Event) {
    e.LeaderExitOk? || e.LeaderExitFail? || e.StepTimeout? || e.GraceExpired? || e.GroupEmpty?
  }

  /** Events that no longer concern the job: another step's, or a job timeout after its end. */
  predicate IsStale(s: State, e: Event, eventStep: int, liveStep: int) {
    if IsStepScoped(e) then eventStep != liveStep
    else if e == JobTimeout then IsFinal(s)
    else false
  }

  /** Where a transition leads; the payload picks the variant of a running step. */
  function NextState(c: Cell, coe: bool): State
    requires c.Transition?
  {
    if c.coeByPayload && coe && c.next.StepRunning? then StepRunning(true) else c.next
  }

  /** What the table and the payload together decide. */
  function Lookup(s: State, e: Event, p: Payload): Result {
    match Table(s, e)
    case Impossible => Result(Aborts, s, Unstated, Nothing)
    case Ignore => Result(Ignored, s, Unstated, Nothing)
    case Transition(next, byPayload, rule, actions) =>
      var reason :=
        match rule
        case NoReason => Unstated
        case Fixed(r) => r
        case FromEvent => p.reason
        case Carried => p.carried;
      Result(Moved, NextState(Table(s, e), p.coe), reason, actions)
  }

  datatype Outcome = Unset | StepSucceeded | StepFailed | StepCancelled | StepSkipped

  /** How a recording transition says the step went. */
  function StepOutcome(r: Result): Outcome {
    if r.next.Settling? && (r.next.verdict.CancelTimeout? || r.next.verdict.CancelRequest?) then StepCancelled
    else if r.reason != Unstated then StepFailed
    else StepSucceeded
  }

  // ---- the event model of lifecycle_model.c: what can happen in each state ----

  predicate StepTimerMayFire(s: State) {
    StepInFlight(s) && !s.StepStopping? && !s.StepKilling?
  }

  predicate JobTimerMayFire(s: State) {
    IsRunning(s) && !(s.Settling? && s.verdict == CancelTimeout)
  }

  predicate GraceTimerRunning(s: State) {
    s.StepStopping? || (s.Settling? && !s.killed)
  }

  /** The events the outside world can produce for a job in state s. */
  predicate ModelAllows(s: State, e: Event) {
    match e
    case NeedsMet => s.Pending?
    case NeedsFailed => s.Pending?
    case SlotGranted => s.Ready?
    case NextStep => s.BetweenSteps?
    case NoMoreSteps => s.BetweenSteps?
    case StartFailed => s.BetweenSteps? || s.StepRunning?
    case LeaderExitOk => StepInFlight(s)
    case LeaderExitFail => StepInFlight(s)
    case StepTimeout => StepTimerMayFire(s)
    case JobTimeout => JobTimerMayFire(s)
    case Cancel => true
    case GraceExpired => GraceTimerRunning(s)
    case GroupEmpty => s.Settling?
    case Skip => s.Pending? || s.Ready?
  }

  /** The table decides exactly the pairs the event model allows: no more, no fewer. */
  lemma TableMatchesModel(s: State, e: Event)
    ensures ModelAllows(s, e) <==> !Table(s, e).Impossible?
  {
    match e {
      case NeedsMet => case NeedsFailed => case SlotGranted => case NextStep => case NoMoreSteps =>
      case StartFailed => case LeaderExitOk => case LeaderExitFail => case StepTimeout => case JobTimeout =>
      case Cancel => case GraceExpired => case GroupEmpty => case Skip =>
    }
  }
}
