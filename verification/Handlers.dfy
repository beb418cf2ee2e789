/** The shell as the source has it: one object per job, whose fields the
handlers change in place. Each method is proved against the value model. */
module Handlers {
  import opened Lifecycle
  import opened Shell
  import opened ShellSafety
  import opened ShellRuns

  /** One action slot, on values. */
  function Acted(j: Job, act: Action, r: Result, a: Answers): Job {
    match act
    case NoAction => j
    case StartJob =>
      j.(run := RunAfter(j.run, Start, a), timers := TimersAfter(j.timers, Start, j.plan.limited, a),
         results := ResultsAfter(j.results, Start, j.run, |j.plan.coe|, r, a),
         effects := After(j.effects, Started(a.startOk)))
    case SpawnStep =>
      j.(run := RunAfter(j.run, Spawn, a), timers := TimersAfter(j.timers, Spawn, j.plan.limited, a),
         effects := EffectsAfter(j.effects, Spawn, j.run, r, a))
    case SigtermGroup => j.(effects := After(j.effects, Term(j.run.liveStep)))
    case ArmGrace =>
      j.(timers := j.timers.(grace := j.timers.grace.(armed := true)),
         effects := After(j.effects, Grace(j.run.liveStep)))
    case SigkillGroup => j.(effects := After(j.effects, Kill(j.run.liveStep)))
    case RecordStep =>
      j.(results := j.results.(steps := WithStep(j.results.steps, j.run.cur, StepRecord(r))),
         effects := After(j.effects, Recorded(j.run.cur)))
    case RecordJob =>
      j.(results := j.results.(reason := r.reason), effects := After(j.effects, JobRecorded))
    case EndJob =>
      var run := FinishRun(j.run);
      j.(run := run, timers := j.timers.(jobOk := false),
         results := j.results.(
           steps := if j.results.started then SkipRest(j.results.steps, run.cur) else j.results.steps),
         effects := After(FinishEffects(j.effects, j.run), Ended))
  }

  /** A cell's whole action list, component by component. */
  function Performed(j: Job, b: Bundle, r: Result, a: Answers): Job {
    j.(run := RunAfter(j.run, b, a), timers := TimersAfter(j.timers, b, j.plan.limited, a),
       results := ResultsAfter(j.results, b, j.run, |j.plan.coe|, r, a),
       effects := EffectsAfter(j.effects, b, j.run, r, a))
  }

  /** Running the four slots in order is what the value model says the list does. */
  lemma SlotsArePerformed(j: Job, b: Bundle, r: Result, a: Answers)
    ensures var s := Actions(b);
            Acted(Acted(Acted(Acted(j, s[0], r, a), s[1], r, a), s[2], r, a), s[3], r, a) == Performed(j, b, r, a)
  {
    match b {
      case Nothing => case Start => case Spawn => case TermGrace => case TermGraceRecord => case KillGroup =>
      case RecordOnly => case EndRecorded => case EndWithStep =>
    }
  }

  /** The job after the lookup, before the actions run. */
  function BeforeActions(j: Job, e: Event, r: Result): Job {
    Job(j.plan, r.next,
        if e == GroupEmpty then FinishRun(j.run) else j.run,
        j.timers,
        Heard(j.heard.cancel || e == Cancel, j.heard.timeout || e == JobTimeout),
        j.results.(last := if r.reason != Unstated then r.reason else j.results.last),
        j.aborted,
        Traced(j.trace, Record(j.state, e, if r.kind == Ignored then Ignoring else Moving, r.reason)),
        if e == GroupEmpty then EmptyEffects(j.effects, j.run) else j.effects)
  }

  lemma MoveIsPerformed(j: Job, e: Event, r: Result, a: Answers)
    ensures AfterMove(j, e, r, a) == Performed(BeforeActions(j, e, r), r.actions, r, a)
  {
  }

  /** What the loop of `JobSend` goes through. */
  lemma SendGoesThrough(before: Job, now: Job, e: Event, p: Payload, eventStep: int, a: Answers)
    requires Resting(before) && MaySend(before, now, e, p, eventStep)
    ensures Sound(Dispatched(now, e, p, eventStep, a))
    ensures !OwedStep(Dispatched(now, e, p, eventStep, a), a).aborted
  {
    if IsStale(before.state, e, eventStep, before.run.liveStep) {
      NoteKeepsSound(before, e);
    } else {
      DispatchKeepsSound(before, e, p, eventStep, a);
    }
    OwedKeepsSound(Dispatched(now, e, p, eventStep, a), a);
  }

  class JobShell {
    const plan: Plan
    var state: State
    var run: Run
    var timers: Timers
    var heard: Heard
    var results: Results
    var aborted: bool
    var trace: Trace
    var effects: Effects

    function View(): Job
      reads this
    {
      Job(plan, state, run, timers, heard, results, aborted, trace, effects)
    }

    constructor (plan: Plan)
      ensures View() == NewJob(plan)
    {
      this.plan := plan;
      state := Pending;
      run := Run(0, -1, false, false, false);
      timers := Timers(false, IDLE, IDLE, IDLE);
      heard := Heard(false, false);
      results := Results(Unstated, Unstated, false, []);
      aborted, trace, effects := false, NoTrace, NoEffects;
    }

    // ---- actions ----

    /** Moves the cursor past the live step, if there is one. */
    method StepFinish()
      modifies this`run, this`effects
      ensures run == FinishRun(old(run)) && effects == FinishEffects(old(effects), old(run))
    {
      if run.liveStep < 0 {
        return;
      }
      effects := After(effects, Finished(run.liveStep));
      run := run.(procOk := false);
      run := run.(cur := run.cur + 1, liveStep := -1);
    }

    /** The live step's group is empty: the step ends with it. */
    method GroupEnds()
      modifies this`run, this`effects
      ensures run == FinishRun(old(run)) && effects == EmptyEffects(old(effects), old(run))
    {
      if run.liveStep >= 0 {
        effects := After(effects, Emptied(run.liveStep));
      }
      StepFinish();
    }

    method JobStart(r: Result, a: Answers)
      modifies this
      ensures View() == Acted(old(View()), StartJob, r, a)
    {
      effects := After(effects, Started(a.startOk));
      if !a.startOk {
        run := run.(haveFollowup := true);
        return;
      }
      results := results.(started := true, steps := seq(|plan.coe|, _ => UNSET));
      timers := timers.(jobOk := true, job := Timer(plan.limited, false));
    }

    method StepSpawn(r: Result, a: Answers)
      modifies this
      ensures View() == Acted(old(View()), SpawnStep, r, a)
    {
      run := run.(liveStep := run.cur, leaderReaped := false);
      if !a.spawnOk {
        effects := After(effects, SpawnFailed(run.cur));
        run := run.(haveFollowup := true);
        return;
      }
      effects := After(effects, Spawned(run.cur));
      timers := timers.(step := Timer(a.stepLimited, false), grace := IDLE);
      run := run.(procOk := true);
    }

    /** Marks the steps from the cursor on as skipped, one by one. */
    method SkipUnrun()
      modifies this`results
      ensures results == old(results).(steps := SkipRest(old(results).steps, run.cur))
    {
      var steps := results.steps;
      var i := run.cur;
      while i < |steps|
        invariant |steps| == |results.steps| && run.cur <= i
        invariant forall k :: 0 <= k < |steps| ==>
                    steps[k] == if run.cur <= k < i then results.steps[k].(outcome := StepSkipped) else results.steps[k]
      {
        steps := steps[i := steps[i].(outcome := StepSkipped)];
        i := i + 1;
      }
      assert steps == SkipRest(results.steps, run.cur);
      results := results.(steps := steps);
    }

    /** The job is over: the live step is finished and what never ran is skipped. */
    method JobEnd(r: Result, a: Answers)
      modifies this
      ensures View() == Acted(old(View()), EndJob, r, a)
    {
      StepFinish();
      if results.started {
        SkipUnrun();
      }
      timers := timers.(jobOk := false);
      effects := After(effects, Ended);
    }

    method ApplyAction(act: Action, r: Result, a: Answers)
      modifies this
      ensures View() == Acted(old(View()), act, r, a)
    {
      match act {
        case NoAction =>
        case StartJob => JobStart(r, a);
        case SpawnStep => StepSpawn(r, a);
        case SigtermGroup => effects := After(effects, Term(run.liveStep));
        case ArmGrace =>
          timers := timers.(grace := timers.grace.(armed := true));
          effects := After(effects, Grace(run.liveStep));
        case SigkillGroup => effects := After(effects, Kill(run.liveStep));
        case RecordStep =>
          results := results.(steps := WithStep(results.steps, run.cur, StepRecord(r)));
          effects := After(effects, Recorded(run.cur));
        case RecordJob =>
          results := results.(reason := r.reason);
          effects := After(effects, JobRecorded);
        case EndJob => JobEnd(r, a);
      }
    }

    method ApplyActions(b: Bundle, r: Result, a: Answers)
      modifies this
      ensures View() == Performed(old(View()), b, r, a)
    {
      var acts := Actions(b);
      ghost var j0 := View();
      ghost var j1 := Acted(j0, acts[0], r, a);
      ghost var j2 := Acted(j1, acts[1], r, a);
      ghost var j3 := Acted(j2, acts[2], r, a);
      ghost var states := [j0, j1, j2, j3, Acted(j3, acts[3], r, a)];
      for i := 0 to 4
        invariant View() == states[i]
      {
        ApplyAction(acts[i], r, a);
      }
      SlotsArePerformed(j0, b, r, a);
    }

    // ---- events ----

    /** Notes that e arrived and what the table said to it. */
    method TakeNote(e: Event, r: Result)
      modifies this`heard, this`trace, this`state, this`results
      ensures heard == Heard(old(heard).cancel || e == Cancel, old(heard).timeout || e == JobTimeout)
      ensures trace == Traced(old(trace),
                              Record(old(state), e, if r.kind == Ignored then Ignoring else Moving, r.reason))
      ensures state == r.next
      ensures results == old(results).(last := if r.reason != Unstated then r.reason else old(results).last)
    {
      heard := Heard(heard.cancel || e == Cancel, heard.timeout || e == JobTimeout);
      trace := Traced(trace, Record(state, e, if r.kind == Ignored then Ignoring else Moving, r.reason));
      state := r.next;
      if r.reason != Unstated {
        results := results.(last := r.reason);
      }
    }

    /** Everything a lookup's result does before the actions. */
    method Land(e: Event, r: Result)
      modifies this
      ensures View() == BeforeActions(old(View()), e, r)
    {
      TakeNote(e, r);
      if e == GroupEmpty {
        GroupEnds();
      }
    }

    /** What a lookup's result does to the job. */
    method Move(e: Event, r: Result, a: Answers)
      modifies this
      ensures View() == AfterMove(old(View()), e, r, a)
    {
      MoveIsPerformed(View(), e, r, a);
      Land(e, r);
      ApplyActions(r.actions, r, a);
    }

    /** The in-place form of `Dispatched`. */
    method DispatchOne(e: Event, p: Payload, eventStep: int, a: Answers)
      modifies this
      ensures View() == Dispatched(old(View()), e, p, eventStep, a)
    {
      if IsStale(state, e, eventStep, run.liveStep) {
        trace := Traced(trace, Record(state, e, Stale, Unstated));
        return;
      }
      var r := Lookup(state, e, p.(carried := results.last));
      if r.kind == Aborts {
        aborted := true;
        return;
      }
      Move(e, r, a);
    }

    /** The in-place form of `NextMove`: reading the clock is its only side effect. */
    method BetweenStepsEvent(a: Answers) returns (e: Event, coe: bool)
      modifies this`timers
      ensures (e, coe, View()) == NextMove(old(View()), a)
    {
      coe := false;
      if !heard.cancel && a.cancelSeen {
        return Cancel, false;
      }
      if timers.jobOk && !heard.timeout {
        timers := timers.(job := ReadTimer(timers.job, a.jobClock));
        if timers.job.fired {
          return JobTimeout, false;
        }
      }
      if run.cur < |plan.coe| {
        return NextStep, plan.coe[run.cur];
      }
      return NoMoreSteps, false;
    }

    /** The loop that follows an event ends within two turns, and leaves a job at
        rest if it was at rest in `before`. */
    method JobSend(e: Event, p: Payload, eventStep: int, a: Answers, ghost before: Job)
      requires Resting(before) && MaySend(before, View(), e, p, eventStep)
      modifies this
      ensures View() == JobSent(old(View()), e, p, eventStep, a)
      ensures Resting(View())
    {
      SendGoesThrough(before, View(), e, p, eventStep, a);
      SentRests(before, View(), e, p, eventStep, a);
      ghost var d := Dispatched(View(), e, p, eventStep, a);
      ghost var d1 := OwedStep(d, a);
      ghost var d2 := OwedStep(d1, a);
      DispatchOne(e, p, eventStep, a);
      ghost var turns := 0;
      while run.haveFollowup || state == BetweenSteps
        invariant 0 <= turns <= 2
        invariant View() == if turns == 0 then d else if turns == 1 then d1 else d2
        decreases 2 - turns
      {
        if run.haveFollowup {
          run := run.(haveFollowup := false);
          DispatchOne(StartFailed, PLAIN, -1, a);
        } else {
          var next, coe := BetweenStepsEvent(a);
          DispatchOne(next, PLAIN.(coe := coe), -1, a);
        }
        turns := turns + 1;
      }
    }

    // ---- the handlers of the event loop ----

    /** The scheduler's events, the skip of a disabled target, and the operator's cancel. */
    method Tell(i: Input, a: Answers)
      requires Resting(View()) && Possible(View(), i) && (i.Scheduled? || i.Disabled? || i.OperatorCancel?)
      modifies this
      ensures View() == Handle(old(View()), i, a) && Resting(View())
    {
      ToldReactsWell(View(), i);
      match i {
        case Scheduled(e) => JobSend(e, PLAIN, -1, a, View());
        case Disabled => JobSend(Skip, PLAIN.(reason := TargetDisabled), -1, a, View());
        case OperatorCancel =>
          if !heard.cancel {
            JobSend(Cancel, PLAIN, -1, a, View());
          }
      }
    }

    /** waitpid returned this job's leader. */
    method LeaderExited(ok: bool, why: Reason, a: Answers)
      requires Resting(View()) && why != Unstated
      modifies this
      ensures View() == Handle(old(View()), LeaderExits(ok, why), a) && Resting(View())
    {
      ghost var before := View();
      ReapedReactsWell(before, LeaderExits(ok, why));
      if run.liveStep < 0 || !run.procOk || run.leaderReaped {
        return;
      }
      run := run.(leaderReaped := true);
      JobSend(if ok then LeaderExitOk else LeaderExitFail, PLAIN.(reason := why), run.liveStep, a, before);
    }

    /** The live step's process group was found empty. */
    method GroupEmptied(a: Answers)
      requires Resting(View())
      modifies this
      ensures View() == Handle(old(View()), GroupGone, a) && Resting(View())
    {
      ReapedReactsWell(View(), GroupGone);
      if run.liveStep >= 0 && run.procOk && run.leaderReaped {
        JobSend(GroupEmpty, PLAIN, run.liveStep, a, View());
      }
    }

    method StepTimerEvent(step: nat, clock: bool, a: Answers)
      requires Resting(View()) && Possible(View(), StepTimerReady(step, clock))
      modifies this
      ensures View() == Handle(old(View()), StepTimerReady(step, clock), a) && Resting(View())
    {
      ghost var before := View();
      StepTimerReactsWell(before, StepTimerReady(step, clock));
      if step == run.liveStep && run.procOk {
        timers := timers.(step := ReadTimer(timers.step, clock));
        if !timers.step.fired {
          return;
        }
      }
      JobSend(StepTimeout, PLAIN, step, a, before);
    }

    method GraceTimerEvent(step: nat, clock: bool, a: Answers)
      requires Resting(View()) && Possible(View(), GraceTimerReady(step, clock))
      modifies this
      ensures View() == Handle(old(View()), GraceTimerReady(step, clock), a) && Resting(View())
    {
      ghost var before := View();
      GraceTimerReactsWell(before, GraceTimerReady(step, clock));
      if step == run.liveStep && run.procOk {
        timers := timers.(grace := ReadTimer(timers.grace, clock));
        if !timers.grace.fired {
          return;
        }
      }
      JobSend(GraceExpired, PLAIN, step, a, before);
    }

    method JobTimerEvent(clock: bool, a: Answers)
      requires Resting(View()) && Possible(View(), JobTimerReady(clock))
      modifies this
      ensures View() == Handle(old(View()), JobTimerReady(clock), a) && Resting(View())
    {
      ghost var i := JobTimerReady(clock);
      ghost var read := Clocked(View(), i);
      JobTimerReactsWell(View(), i);
      ClockKeepsResting(View(), i);
      if timers.jobOk {
        if heard.timeout {
          return;
        }
        timers := timers.(job := ReadTimer(timers.job, clock));
        if !timers.job.fired {
          return;
        }
      }
      JobSend(JobTimeout, PLAIN, -1, a, read);
    }

    /** Whatever the event loop has for the job. */
    method Receive(i: Input, a: Answers)
      requires Resting(View()) && Possible(View(), i)
      modifies this
      ensures View() == Handle(old(View()), i, a) && Resting(View())
    {
      match i {
        case Scheduled(_) => Tell(i, a);
        case Disabled => Tell(i, a);
        case OperatorCancel => Tell(i, a);
        case LeaderExits(ok, why) => LeaderExited(ok, why, a);
        case GroupGone => GroupEmptied(a);
        case StepTimerReady(step, clock) => StepTimerEvent(step, clock, a);
        case GraceTimerReady(step, clock) => GraceTimerEvent(step, clock, a);
        case JobTimerReady(clock) => JobTimerEvent(clock, a);
      }
    }
  }
}
