/** The environment model always leaves a way on: whatever state a run is in, the
outside world can bring the job to its end, and every plan can succeed. */
module ShellReach {
  import opened Lifecycle
  import opened Shell
  import opened ShellSafety
  import opened ShellRuns

  /** Everything can be started, nobody cancels and no clock runs out. */
  const CALM := Answers(true, true, false, false, false)

  const EXIT := LeaderExits(true, Told("exit-code"))

  /** Step k is running, and the job's clock has not run out. */
  predicate RunningAt(j: Job, k: nat) {
    j.state.StepRunning? && j.run.cur == k && !j.timers.job.fired
  }

  /** Step k has succeeded and its group is about to empty. */
  predicate SettledAt(j: Job, k: nat) {
    j.state == Settling(Continue, false) && j.run.cur == k && !j.timers.job.fired
  }

  /** The step after the first k is running, or there is none and the job succeeded. */
  predicate Onward(j: Job, k: nat) {
    if k < |j.plan.coe| then RunningAt(j, k) else j.state == Success
  }

  // ---- the leader exits ----

  lemma ExitIsSent(j: Job) returns (d: Job)
    requires AtRest(j) && StepInFlight(j.state) && !j.run.leaderReaped
    ensures d == Dispatched(Touched(j, LeaderExitOk), LeaderExitOk, PLAIN.(reason := EXIT.why), j.run.liveStep, CALM)
    ensures Handle(j, EXIT, CALM) == d
    ensures d.state.Settling? && d.run.leaderReaped && d.run.cur == j.run.cur && d.timers.job == j.timers.job
    ensures j.state.StepRunning? ==> d.state == Settling(Continue, false)
  {
    d := Dispatched(Touched(j, LeaderExitOk), LeaderExitOk, PLAIN.(reason := EXIT.why), j.run.liveStep, CALM);
    assert !d.run.haveFollowup;
  }

  /** Whatever the step was doing, its leader's exit leaves it waiting for its group. */
  lemma ExitSettles(j: Job)
    requires Resting(j) && StepInFlight(j.state) && !j.run.leaderReaped
    ensures var k := Handle(j, EXIT, CALM);
            && Resting(k) && k.state.Settling? && k.run.leaderReaped && k.run.cur == j.run.cur
            && (RunningAt(j, j.run.cur) ==> SettledAt(k, j.run.cur))
  {
    HandleKeepsSound(j, EXIT, CALM);
    var d := ExitIsSent(j);
  }

  // ---- the group empties ----

  /** A calm job between steps goes on to the step at its cursor, or ends. */
  lemma BetweenGoesOn(j: Job)
    requires Coherent(j) && j.state == BetweenSteps && !j.run.haveFollowup
    ensures var k := OwedStep(j, CALM);
            && !Owed(k)
            && (IsFinal(k.state) || (k.state.StepRunning? && k.run.cur == j.run.cur))
            && (!j.timers.job.fired ==> Onward(k, j.run.cur))
  {
    var (e, coe, k) := NextMove(j, CALM);
    assert k.state == BetweenSteps && (e == JobTimeout || e == NextStep || e == NoMoreSteps);
    assert !j.timers.job.fired ==> e != JobTimeout && !k.timers.job.fired;
  }

  lemma EmptyIsSent(j: Job) returns (d: Job)
    requires AtRest(j) && j.state.Settling? && j.run.leaderReaped
    ensures Handle(j, GroupGone, CALM) == OwedStep(OwedStep(d, CALM), CALM)
    ensures d == Dispatched(j, GroupEmpty, PLAIN, j.run.liveStep, CALM)
    ensures IsFinal(d.state) || d.state == BetweenSteps
    ensures d.run.cur == j.run.cur + 1 && d.timers.job == j.timers.job && !d.run.haveFollowup && d.plan == j.plan
    ensures j.state.verdict == Continue ==> d.state == BetweenSteps
  {
    d := Dispatched(j, GroupEmpty, PLAIN, j.run.liveStep, CALM);
  }

  lemma EmptyIsCoherent(j: Job, d: Job)
    requires Resting(j) && j.state.Settling? && j.run.leaderReaped
    requires d == Dispatched(j, GroupEmpty, PLAIN, j.run.liveStep, CALM)
    ensures Coherent(d)
  {
    DispatchKeepsSound(j, GroupEmpty, PLAIN, j.run.liveStep, CALM);
  }

  /** An empty group ends the step: the next one runs, or the job is over. */
  lemma EmptyMovesOn(j: Job) returns (k: Job)
    requires Resting(j) && j.state.Settling? && j.run.leaderReaped
    ensures Possible(j, GroupGone) && k == Handle(j, GroupGone, CALM) && k.plan == j.plan
    ensures && Resting(k)
            && (IsFinal(k.state) || (k.state.StepRunning? && k.run.cur == j.run.cur + 1))
            && (SettledAt(j, j.run.cur) ==> Onward(k, j.run.cur + 1))
  {
    k := Handle(j, GroupGone, CALM);
    HandleKeepsSound(j, GroupGone, CALM);
    var d := EmptyIsSent(j);
    EmptyIsCoherent(j, d);
    if d.state == BetweenSteps {
      BetweenGoesOn(d);
    }
  }

  // ---- to the end ----

  /** The inputs of the outside world, one after another. */
  function Fed(j: Job, ins: seq<Input>): Job
    decreases |ins|
  {
    if ins == [] then j else Fed(Handle(j, ins[0], CALM), ins[1..])
  }

  predicate CanFeed(j: Job, ins: seq<Input>)
    decreases |ins|
  {
    ins == [] || (Possible(j, ins[0]) && !ins[0].Scheduled? && CanFeed(Handle(j, ins[0], CALM), ins[1..]))
  }

  predicate Finishes(j: Job, ins: seq<Input>) {
    CanFeed(j, ins) && Resting(Fed(j, ins)) && IsFinal(Fed(j, ins).state)
  }

  lemma FeedFirst(j: Job, i: Input, k: Job, ins: seq<Input>)
    requires Possible(j, i) && !i.Scheduled? && k == Handle(j, i, CALM) && Finishes(k, ins)
    ensures Finishes(j, [i] + ins) && Fed(j, [i] + ins) == Fed(k, ins)
  {
    assert ([i] + ins)[1..] == ins;
  }

  lemma FeedNothing(k: Job)
    ensures CanFeed(k, []) && Fed(k, []) == k
  {
  }

  lemma StepsAreLeft(j: Job)
    requires Coherent(j) && StepInFlight(j.state)
    ensures j.run.cur < |j.plan.coe|
  {
  }

  /** A job whose group is about to empty can be brought to its end. */
  lemma {:induction false} FinishSettled(j: Job) returns (ins: seq<Input>)
    requires Resting(j) && j.state.Settling? && j.run.leaderReaped
    ensures Finishes(j, ins)
    ensures SettledAt(j, j.run.cur) ==> Fed(j, ins).state == Success
    decreases |j.plan.coe| - j.run.cur, 0
  {
    var k := EmptyMovesOn(j);
    StepsAreLeft(j);
    if IsFinal(k.state) {
      FeedNothing(k);
      FeedFirst(j, GroupGone, k, []);
      ins := [GroupGone] + [];
    } else {
      var rest := Finish(k);
      FeedFirst(j, GroupGone, k, rest);
      ins := [GroupGone] + rest;
    }
  }

  /** A running job can be brought to its end; one that is running a step and has
      time left, to success. */
  lemma {:induction false} Finish(j: Job) returns (ins: seq<Input>)
    requires Resting(j) && IsRunning(j.state)
    ensures Finishes(j, ins)
    ensures RunningAt(j, j.run.cur) ==> Fed(j, ins).state == Success
    decreases |j.plan.coe| - j.run.cur, 1
  {
    if j.run.leaderReaped {
      ins := FinishSettled(j);
    } else {
      ExitSettles(j);
      var k := Handle(j, EXIT, CALM);
      ins := FinishSettled(k);
      FeedFirst(j, EXIT, k, ins);
      ins := [EXIT] + ins;
    }
  }

  lemma SlotIsSent(j: Job) returns (d: Job)
    requires AtRest(j) && j.state == Ready
    ensures Handle(j, Scheduled(SlotGranted), CALM) == OwedStep(OwedStep(d, CALM), CALM)
    ensures d == Dispatched(j, SlotGranted, PLAIN, -1, CALM) && d.plan == j.plan
    ensures d.state == BetweenSteps && d.run.cur == 0 && !d.run.haveFollowup && !d.timers.job.fired
  {
    d := Dispatched(j, SlotGranted, PLAIN, -1, CALM);
  }

  lemma SlotIsCoherent(j: Job, d: Job)
    requires Resting(j) && j.state == Ready && d == Dispatched(j, SlotGranted, PLAIN, -1, CALM)
    ensures Coherent(d)
  {
    DispatchKeepsSound(j, SlotGranted, PLAIN, -1, CALM);
  }

  lemma SlotStarts(j: Job)
    requires Resting(j) && j.state == Ready
    ensures Resting(Handle(j, Scheduled(SlotGranted), CALM)) && Onward(Handle(j, Scheduled(SlotGranted), CALM), 0)
  {
    HandleKeepsSound(j, Scheduled(SlotGranted), CALM);
    var d := SlotIsSent(j);
    SlotIsCoherent(j, d);
    BetweenGoesOn(d);
  }

  // ---- as a run ----

  lemma OneMore(j: Job, turns: seq<Turn>, i: Input)
    requires IsRun(j, turns) && Possible(RunTo(j, turns), i)
    ensures IsRun(j, turns + [Turn(i, CALM)])
    ensures RunTo(j, turns + [Turn(i, CALM)]) == Handle(RunTo(j, turns), i, CALM)
  {
    assert (turns + [Turn(i, CALM)])[..|turns|] == turns;
  }

  lemma {:induction false} FeedIsRun(j: Job, turns: seq<Turn>, ins: seq<Input>) returns (all: seq<Turn>)
    requires IsRun(j, turns) && CanFeed(RunTo(j, turns), ins)
    ensures IsRun(j, all) && turns <= all && RunTo(j, all) == Fed(RunTo(j, turns), ins)
    decreases |ins|
  {
    all := turns;
    if ins != [] {
      OneMore(j, turns, ins[0]);
      all := FeedIsRun(j, turns + [Turn(ins[0], CALM)], ins[1..]);
    }
  }

  /** Every run can be brought to an end from wherever it is, once the job has started. */
  lemma EveryRunCanEnd(plan: Plan, turns: seq<Turn>) returns (all: seq<Turn>)
    requires IsRun(NewJob(plan), turns) && IsRunning(RunTo(NewJob(plan), turns).state)
    ensures IsRun(NewJob(plan), all) && turns <= all && IsFinal(RunTo(NewJob(plan), all).state)
  {
    RunsAreSound(plan, turns);
    var ins := Finish(RunTo(NewJob(plan), turns));
    all := FeedIsRun(NewJob(plan), turns, ins);
  }

  lemma NeedsMetReadies(j: Job)
    requires j.state == Pending && !j.run.haveFollowup && !j.timers.job.fired
    ensures var k := Handle(j, Scheduled(NeedsMet), CALM); k.state == Ready && !k.timers.job.fired
  {
    assert Dispatched(j, NeedsMet, PLAIN, -1, CALM).state == Ready;
  }

  lemma FreshSlot(plan: Plan) returns (turns: seq<Turn>)
    ensures IsRun(NewJob(plan), turns) && Resting(RunTo(NewJob(plan), turns))
    ensures RunTo(NewJob(plan), turns).plan == plan && Onward(RunTo(NewJob(plan), turns), 0)
  {
    var start := NewJob(plan);
    NeedsMetReadies(start);
    OneMore(start, [], Scheduled(NeedsMet));
    turns := [] + [Turn(Scheduled(NeedsMet), CALM)];
    RunsAreSound(plan, turns);
    OneMore(start, turns, Scheduled(SlotGranted));
    SlotStarts(RunTo(start, turns));
    turns := turns + [Turn(Scheduled(SlotGranted), CALM)];
  }

  /** Every plan has a run that ends in success. */
  lemma EveryPlanCanSucceed(plan: Plan) returns (turns: seq<Turn>)
    ensures IsRun(NewJob(plan), turns) && RunTo(NewJob(plan), turns).state == Success
  {
    turns := FreshSlot(plan);
    var j := RunTo(NewJob(plan), turns);
    if j.state != Success {
      var ins := Finish(j);
      turns := FeedIsRun(NewJob(plan), turns, ins);
    }
  }

  // ---- one input at a time ----

  /** What the outside world can do next to a running job that brings it closer to its end. */
  function Nudge(j: Job): Input {
    if j.run.leaderReaped then GroupGone else EXIT
  }

  /** How many nudges a running job needs at most. */
  function Togo(j: Job): nat {
    var n := 2 * (|j.plan.coe| - j.run.cur) - (if j.run.leaderReaped then 1 else 0);
    if IsRunning(j.state) && n > 0 then n else 0
  }

  /** The job waits with time to spare, is getting on well, or has succeeded. */
  predicate SmoothJob(j: Job) {
    || j.state == Success
    || ((j.state == Pending || j.state == Ready) && !j.timers.job.fired)
    || RunningAt(j, j.run.cur) || (SettledAt(j, j.run.cur) && j.run.leaderReaped)
  }

  /** k is closer to its end than j, and smooth if j is. */
  predicate Nudged(j: Job, k: Job) {
    (IsRunning(k.state) || IsFinal(k.state)) && Togo(k) < Togo(j) && (SmoothJob(j) ==> SmoothJob(k))
  }

  lemma SettledIsNudged(j: Job, k: Job)
    requires Coherent(j) && StepInFlight(j.state) && !j.run.leaderReaped && k.plan == j.plan
    requires k.state.Settling? && k.run.leaderReaped && k.run.cur == j.run.cur
    requires RunningAt(j, j.run.cur) ==> SettledAt(k, j.run.cur)
    ensures Nudged(j, k)
  {
  }

  lemma MovedOnIsNudged(j: Job, k: Job)
    requires Coherent(j) && j.state.Settling? && j.run.leaderReaped && k.plan == j.plan
    requires IsFinal(k.state) || (k.state.StepRunning? && k.run.cur == j.run.cur + 1 && Coherent(k))
    requires SettledAt(j, j.run.cur) ==> Onward(k, j.run.cur + 1)
    ensures Nudged(j, k)
  {
  }

  /** A nudge brings a running job closer to its end, and keeps a smooth job smooth. */
  lemma NudgeMoves(j: Job)
    requires Resting(j) && IsRunning(j.state)
    ensures Possible(j, Nudge(j)) && Nudged(j, Handle(j, Nudge(j), CALM))
  {
    if j.run.leaderReaped {
      var k := EmptyMovesOn(j);
      MovedOnIsNudged(j, k);
    } else {
      ExitSettles(j);
      SettledIsNudged(j, Handle(j, EXIT, CALM));
    }
  }

  /** So does a scheduler that says the needs are met or grants a slot. */
  lemma SmoothScheduled(j: Job, e: Event)
    requires Resting(j) && SmoothJob(j)
    requires (e == NeedsMet && j.state == Pending) || (e == SlotGranted && j.state == Ready)
    ensures SmoothJob(Handle(j, Scheduled(e), CALM))
  {
    if e == NeedsMet { NeedsMetReadies(j); } else { SlotStarts(j); }
  }
}
