/** The shell around the lifecycle table, on values: what one job holds, and
what each handler of the event loop does to it.

The foreign calls a handler makes (fork, timers, the cancel signal) are
answered by an `Answers` record; what the handler asks of the outside world
is appended to `effects`, and every decision to `trace`. */
module Shell {
  import opened Lifecycle

  /** A one-shot timer: `fired` is set by the first read that finds it expired, and sticks. */
  datatype Timer = Timer(armed: bool, fired: bool)

  function ReadTimer(t: Timer, clock: bool): Timer {
    t.(fired := t.fired || (t.armed && clock))
  }

  datatype StepResult = StepResult(outcome: Outcome, reason: Reason)

  const UNSET := StepResult(Unset, Unstated)

  datatype Decision = Stale | Ignoring | Moving

  /** One line of the lifecycle trace; the reason is the one the lookup gave. */
  datatype Record = Record(from: State, event: Event, decision: Decision, reason: Reason)

  /** The lifecycle trace, newest record outermost. */
  datatype Trace = NoTrace | Traced(before: Trace, last: Record)

  /** The trace has an event e that reached a job which had not ended. */
  predicate Saw(t: Trace, e: Event) {
    t.Traced? && ((t.last.event == e && t.last.decision != Stale && !IsFinal(t.last.from)) || Saw(t.before, e))
  }

  datatype Effect =
    | Started(ok: bool)
    | Spawned(step: int)
    | SpawnFailed(step: int)
    | Term(step: int)
    | Grace(step: int)
    | Kill(step: int)
    | Recorded(step: int)
    | Emptied(step: int) // the step's process group was found empty
    | Finished(step: int)
    | JobRecorded
    | Ended

  /** Everything that happened between the job and the outside world, newest effect outermost. */
  datatype Effects = NoEffects | After(before: Effects, last: Effect)

  /** What never changes: continue-on-error of each step, and whether the job has a timeout of its own. */
  datatype Plan = Plan(coe: seq<bool>, limited: bool)

  /** The cursor and the live step's process. A follow-up is always start-failed. */
  datatype Run = Run(
    cur: nat,        // the cursor: steps below it are over
    liveStep: int,   // equal to the cursor while a step is live, else -1
    procOk: bool,    // the spawn of the live step succeeded
    leaderReaped: bool,
    haveFollowup: bool)

  datatype Timers = Timers(jobOk: bool, job: Timer, step: Timer, grace: Timer)

  /** Which triggers have been sent as events. */
  datatype Heard = Heard(cancel: bool, timeout: bool)

  /** What has been recorded. `steps` means something once `started` holds. */
  datatype Results = Results(reason: Reason, last: Reason, started: bool, steps: seq<StepResult>)

  datatype Job = Job(
    plan: Plan,
    state: State,
    run: Run,
    timers: Timers,
    heard: Heard,
    results: Results,
    aborted: bool,   // a lookup reached an impossible cell
    trace: Trace,
    effects: Effects)

  /** What the outside world answers during one job_send; each question is asked at most once. */
  datatype Answers = Answers(
    startOk: bool,     // log, ring and job timer could be opened
    spawnOk: bool,     // the step could be resolved and forked
    stepLimited: bool, // the step has a timeout
    cancelSeen: bool,  // poll_cancel found the operator's cancel
    jobClock: bool)    // the job's limit has passed

  const IDLE := Timer(false, false)

  function NewJob(plan: Plan): Job {
    Job(plan, Pending, Run(0, -1, false, false, false), Timers(false, IDLE, IDLE, IDLE), Heard(false, false),
        Results(Unstated, Unstated, false, []), false, NoTrace, NoEffects)
  }

  // ---- actions, component by component ----

  /** step_finish: the cursor moves past the live step, if there is one. */
  function FinishRun(r: Run): Run {
    if r.liveStep < 0 then r else r.(procOk := false, cur := r.cur + 1, liveStep := -1)
  }

  function FinishEffects(es: Effects, r: Run): Effects {
    if r.liveStep < 0 then es else After(es, Finished(r.liveStep))
  }

  /** The group is empty, and so the step is over. */
  function EmptyEffects(es: Effects, r: Run): Effects {
    if r.liveStep < 0 then es else After(After(es, Emptied(r.liveStep)), Finished(r.liveStep))
  }

  function RunAfter(r: Run, b: Bundle, a: Answers): Run {
    match b
    case Start => if a.startOk then r else r.(haveFollowup := true)
    case Spawn =>
      if a.spawnOk then r.(liveStep := r.cur, leaderReaped := false, procOk := true)
      else r.(liveStep := r.cur, leaderReaped := false, haveFollowup := true)
    case EndRecorded => FinishRun(r)
    case EndWithStep => FinishRun(r)
    case _ => r
  }

  function TimersAfter(t: Timers, b: Bundle, limited: bool, a: Answers): Timers {
    match b
    case Start => if a.startOk then t.(jobOk := true, job := Timer(limited, false)) else t
    case Spawn => if a.spawnOk then t.(step := Timer(a.stepLimited, false), grace := IDLE) else t
    case TermGrace => t.(grace := t.grace.(armed := true))
    case TermGraceRecord => t.(grace := t.grace.(armed := true))
    case EndRecorded => t.(jobOk := false)
    case EndWithStep => t.(jobOk := false)
    case _ => t
  }

  /** The result a recording transition leaves for its step. */
  function StepRecord(r: Result): StepResult {
    StepResult(StepOutcome(r), r.reason)
  }

  function WithStep(steps: seq<StepResult>, cur: nat, s: StepResult): seq<StepResult> {
    if cur < |steps| then steps[cur := s] else steps
  }

  /** From the cursor on, every step counts as skipped. */
  function SkipRest(steps: seq<StepResult>, cur: nat): seq<StepResult> {
    seq(|steps|, i requires 0 <= i < |steps| => if i < cur then steps[i] else steps[i].(outcome := StepSkipped))
  }

  function ResultsAfter(q: Results, b: Bundle, run: Run, nsteps: nat, r: Result, a: Answers): Results {
    match b
    case Start => if a.startOk then q.(started := true, steps := seq(nsteps, _ => UNSET)) else q
    case TermGraceRecord => q.(steps := WithStep(q.steps, run.cur, StepRecord(r)))
    case RecordOnly => q.(steps := WithStep(q.steps, run.cur, StepRecord(r)))
    case EndRecorded =>
      q.(reason := r.reason, steps := if q.started then SkipRest(q.steps, FinishRun(run).cur) else q.steps)
    case EndWithStep =>
      var steps := WithStep(q.steps, run.cur, StepRecord(r));
      q.(reason := r.reason, steps := if q.started then SkipRest(steps, FinishRun(run).cur) else steps)
    case _ => q
  }

  function EffectsAfter(es: Effects, b: Bundle, run: Run, r: Result, a: Answers): Effects {
    match b
    case Nothing => es
    case Start => After(es, Started(a.startOk))
    case Spawn => After(es, if a.spawnOk then Spawned(run.cur) else SpawnFailed(run.cur))
    case TermGrace => After(After(es, Term(run.liveStep)), Grace(run.liveStep))
    case TermGraceRecord =>
      After(After(After(es, Term(run.liveStep)), Grace(run.liveStep)), Recorded(run.cur))
    case KillGroup => After(es, Kill(run.liveStep))
    case RecordOnly => After(es, Recorded(run.cur))
    case EndRecorded => After(FinishEffects(After(es, JobRecorded), run), Ended)
    case EndWithStep =>
      After(FinishEffects(After(After(es, Recorded(run.cur)), JobRecorded), run), Ended)
  }

  // ---- one event ----

  function Note(j: Job, e: Event, d: Decision): Job {
    j.(trace := Traced(j.trace, Record(j.state, e, d, Unstated)))
  }

  /** What a lookup's result does to the job: the state, what was heard and
      recorded, the end of the live step if its group is empty, and the actions. */
  function AfterMove(j: Job, e: Event, r: Result, a: Answers): Job {
    var run := if e == GroupEmpty then FinishRun(j.run) else j.run;
    var es := if e == GroupEmpty then EmptyEffects(j.effects, j.run) else j.effects;
    var q := j.results.(last := if r.reason != Unstated then r.reason else j.results.last);
    Job(j.plan, r.next,
        RunAfter(run, r.actions, a),
        TimersAfter(j.timers, r.actions, j.plan.limited, a),
        Heard(j.heard.cancel || e == Cancel, j.heard.timeout || e == JobTimeout),
        ResultsAfter(q, r.actions, run, |j.plan.coe|, r, a),
        j.aborted,
        Traced(j.trace, Record(j.state, e, if r.kind == Ignored then Ignoring else Moving, r.reason)),
        EffectsAfter(es, r.actions, run, r, a))
  }

  /** What one event does: nothing if it is stale, else what the table says. */
  function Dispatched(j: Job, e: Event, p: Payload, eventStep: int, a: Answers): (k: Job)
    ensures k.plan == j.plan
  {
    if IsStale(j.state, e, eventStep, j.run.liveStep) then Note(j, e, Stale)
    else
      var r := Lookup(j.state, e, p.(carried := j.results.last));
      if r.kind == Aborts then j.(aborted := true) else AfterMove(j, e, r, a)
  }

  // ---- what the job is owed ----

  const PLAIN := Payload(false, Unstated, Unstated)

  function JobTimerRead(j: Job, clock: bool): Job {
    j.(timers := j.timers.(job := ReadTimer(j.timers.job, clock)))
  }

  function StepTimerRead(j: Job, clock: bool): Job {
    j.(timers := j.timers.(step := ReadTimer(j.timers.step, clock)))
  }

  function GraceTimerRead(j: Job, clock: bool): Job {
    j.(timers := j.timers.(grace := ReadTimer(j.timers.grace, clock)))
  }

  /** The cursor's next move, and the job after the timer was read to decide it. */
  function NextMove(j: Job, a: Answers): (Event, bool, Job) {
    if !j.heard.cancel && a.cancelSeen then (Cancel, false, j)
    else
      var asked := j.timers.jobOk && !j.heard.timeout;
      var k := if asked then JobTimerRead(j, a.jobClock) else j;
      if asked && k.timers.job.fired then (JobTimeout, false, k)
      else if j.run.cur < |j.plan.coe| then (NextStep, j.plan.coe[j.run.cur], k)
      else (NoMoreSteps, false, k)
  }

  predicate Owed(j: Job) {
    !j.aborted && (j.run.haveFollowup || j.state == BetweenSteps)
  }

  /** One turn of job_send's loop. */
  function OwedStep(j: Job, a: Answers): (k: Job)
    ensures k.plan == j.plan
  {
    if !Owed(j) then j
    else if j.run.haveFollowup then
      Dispatched(j.(run := j.run.(haveFollowup := false)), StartFailed, PLAIN, -1, a)
    else
      var (e, coe, k) := NextMove(j, a);
      Dispatched(k, e, PLAIN.(coe := coe), -1, a)
  }

  /** Sends an event, then what the job is owed; `OwedComesToRest` shows that two turns are all there ever are. */
  function JobSent(j: Job, e: Event, p: Payload, eventStep: int, a: Answers): (k: Job)
    ensures k.plan == j.plan
  {
    OwedStep(OwedStep(Dispatched(j, e, p, eventStep, a), a), a)
  }

  // ---- the handlers of the event loop ----

  datatype Input =
    | Scheduled(e: Event)                          // the scheduler's needs-met, needs-failed, slot-granted
    | Disabled                                     // skip_disabled
    | OperatorCancel                               // broadcast_cancel
    | LeaderExits(ok: bool, why: Reason)           // reap_children: waitpid returned the leader
    | GroupGone                                    // reap_children: the group is empty
    | StepTimerReady(step: nat, clock: bool)       // epoll: the step timer opened for `step`
    | GraceTimerReady(step: nat, clock: bool)
    | JobTimerReady(clock: bool)

  /** What a handler makes of an input before anything is sent: nothing to send, or
      an event, its payload and the step it is about; and the job as the handler left it. */
  datatype Reaction = Quietly(job: Job) | Sending(job: Job, event: Event, payload: Payload, step: int)

  function React(j: Job, i: Input): (r: Reaction)
    ensures r.job.plan == j.plan
  {
    match i
    case Scheduled(e) => Sending(j, e, PLAIN, -1)
    case Disabled => Sending(j, Skip, PLAIN.(reason := TargetDisabled), -1)
    case OperatorCancel => if j.heard.cancel then Quietly(j) else Sending(j, Cancel, PLAIN, -1)
    case LeaderExits(ok, why) =>
      if j.run.liveStep < 0 || !j.run.procOk || j.run.leaderReaped then Quietly(j)
      else
        Sending(j.(run := j.run.(leaderReaped := true)), if ok then LeaderExitOk else LeaderExitFail,
                PLAIN.(reason := why), j.run.liveStep)
    case GroupGone =>
      if j.run.liveStep >= 0 && j.run.procOk && j.run.leaderReaped then Sending(j, GroupEmpty, PLAIN, j.run.liveStep)
      else Quietly(j)
    case StepTimerReady(step, clock) =>
      var live := step == j.run.liveStep && j.run.procOk;
      var k := if live then StepTimerRead(j, clock) else j;
      if live && !k.timers.step.fired then Quietly(k) else Sending(k, StepTimeout, PLAIN, step)
    case GraceTimerReady(step, clock) =>
      var live := step == j.run.liveStep && j.run.procOk;
      var k := if live then GraceTimerRead(j, clock) else j;
      if live && !k.timers.grace.fired then Quietly(k) else Sending(k, GraceExpired, PLAIN, step)
    case JobTimerReady(clock) =>
      if j.timers.jobOk && j.heard.timeout then Quietly(j)
      else
        var k := if j.timers.jobOk then JobTimerRead(j, clock) else j;
        if j.timers.jobOk && !k.timers.job.fired then Quietly(k) else Sending(k, JobTimeout, PLAIN, -1)
  }

  /** What one handler does with one input. */
  function Handle(j: Job, i: Input, a: Answers): (k: Job)
    ensures k.plan == j.plan
  {
    match React(j, i)
    case Quietly(k) => k
    case Sending(k, e, p, step) => JobSent(k, e, p, step, a)
  }

  /** What the outside world can do to a job. The scheduler speaks only to the
      state it saw; epoll reports a one-shot timer's descriptor only until it is
      read, or late and tagged with a step that has ended; a job timer exists
      only once the job has started. */
  predicate Possible(j: Job, i: Input) {
    match i
    case Scheduled(e) =>
      ((e == NeedsMet || e == NeedsFailed) && j.state == Pending) || (e == SlotGranted && j.state == Ready)
    case Disabled => j.state == Pending
    case OperatorCancel => true
    case LeaderExits(_, why) => why != Unstated // leader_exit_event always names a reason
    case GroupGone => true
    case StepTimerReady(step, _) => step == j.run.liveStep ==> !j.timers.step.fired
    case GraceTimerReady(step, _) => step == j.run.liveStep ==> !j.timers.grace.fired
    case JobTimerReady(_) => j.state != Pending && j.state != Ready
  }

  /** A run of one job: any sequence of possible inputs, with any answers. */
  datatype Turn = Turn(input: Input, answers: Answers)

  function RunTo(j: Job, turns: seq<Turn>): Job {
    if turns == [] then j
    else
      var k := RunTo(j, turns[..|turns| - 1]);
      Handle(k, turns[|turns| - 1].input, turns[|turns| - 1].answers)
  }

  predicate IsRun(j: Job, turns: seq<Turn>) {
    turns == [] ||
    (IsRun(j, turns[..|turns| - 1]) &&
     Possible(RunTo(j, turns[..|turns| - 1]), turns[|turns| - 1].input))
  }
}
