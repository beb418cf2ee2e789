/** Whole runs of the engine, on values: every interleaving of the jobs' inputs. */
module EngineRuns {
  import opened Lifecycle
  import opened Shell
  import opened ShellRuns
  import opened Sched
  import opened SchedFacts
  import opened Engine

  function NewJobs(plans: seq<Plan>): (jobs: seq<Job>)
    ensures |jobs| == |plans| && forall i :: 0 <= i < |jobs| ==> jobs[i] == NewJob(plans[i])
  {
    seq(|plans|, i requires 0 <= i < |plans| => NewJob(plans[i]))
  }

  /** One handler call: which job, what for, and what the outside world answered. */
  datatype Call = Call(job: nat, input: Input, answers: Answers)

  function AfterCalls(jobs: seq<Job>, calls: seq<Call>): (k: seq<Job>)
    ensures |k| == |jobs|
  {
    if calls == [] then jobs
    else
      var was, last := AfterCalls(jobs, calls[..|calls| - 1]), calls[|calls| - 1];
      if last.job < |was| then was[last.job := Handle(was[last.job], last.input, last.answers)] else was
  }

  /** Each input is one the outside world can produce, or one the scheduler may send, when it is handled. */
  predicate IsEngineRun(c: Config, jobs: seq<Job>, calls: seq<Call>)
    requires WellFormed(c, |jobs|)
  {
    calls == [] ||
    (IsEngineRun(c, jobs, calls[..|calls| - 1]) &&
     var was, last := AfterCalls(jobs, calls[..|calls| - 1]), calls[|calls| - 1];
     last.job < |was| && Allowed(c, was, last.job, last.input))
  }

  lemma StartIsSafe(c: Config, plans: seq<Plan>)
    requires WellFormed(c, |plans|)
    ensures Safe(c, NewJobs(plans))
  {
    forall i | 0 <= i < |plans| ensures Resting(NewJobs(plans)[i]) {
      RunsAreSound(plans[i], []);
    }
    NoneRunningNow(c, States(NewJobs(plans)));
  }

  /** In every reachable state of a whole run: no job has aborted or is owed
      anything, no limit is exceeded, and whatever is ready or has started has all its needs
      in success. */
  lemma {:induction false} EveryRunIsSafe(c: Config, plans: seq<Plan>, calls: seq<Call>)
    requires WellFormed(c, |plans|) && IsEngineRun(c, NewJobs(plans), calls)
    ensures Safe(c, AfterCalls(NewJobs(plans), calls))
  {
    if calls == [] {
      StartIsSafe(c, plans);
    } else {
      var before, last := calls[..|calls| - 1], calls[|calls| - 1];
      EveryRunIsSafe(c, plans, before);
      InputKeepsSafe(c, AfterCalls(NewJobs(plans), before), last.job, last.input, last.answers);
    }
  }

  /** In every reachable state, what a pass decides fits under the limits, is at
      most one event a job, and is right for the states it will be delivered to. */
  lemma EveryPassIsDeliverable(c: Config, plans: seq<Plan>, calls: seq<Call>)
    requires WellFormed(c, |plans|) && IsEngineRun(c, NewJobs(plans), calls)
    ensures var st := States(AfterCalls(NewJobs(plans), calls)); Deliverable(c, st, Pass(c, st))
  {
    EveryRunIsSafe(c, plans, calls);
    PassIsDeliverable(c, States(AfterCalls(NewJobs(plans), calls)));
  }

  /** Nothing runs and the scheduler has nothing to say. */
  predicate Quiet(c: Config, jobs: seq<Job>)
    requires WellFormed(c, |jobs|)
  {
    Pass(c, States(jobs)) == [] && forall i :: 0 <= i < |jobs| ==> !IsRunning(jobs[i].state)
  }

  // ---- what never starts ----

  predicate Shut(c: Config, i: nat) {
    i < |c.group| && 0 < c.group[i] <= |c.caps| && c.caps[c.group[i] - 1] == 0
  }

  lemma ShutStays(c: Config, was: seq<Job>, i: nat, x: Input, k: Job)
    requires WellFormed(c, |was|) && i < |was| && Shut(c, i) && Allowed(c, was, i, x)
    requires HandledState(was[i], x, k) && !HasStarted(was[i].state)
    ensures !HasStarted(k.state)
  {
  }

  /** The last call of a run, and what it did. */
  lemma LastCall(c: Config, plans: seq<Plan>, calls: seq<Call>) returns (k: Job)
    requires WellFormed(c, |plans|) && IsEngineRun(c, NewJobs(plans), calls) && calls != []
    ensures var was, last := AfterCalls(NewJobs(plans), calls[..|calls| - 1]), calls[|calls| - 1];
            && last.job < |was| && Allowed(c, was, last.job, last.input)
            && AfterCalls(NewJobs(plans), calls) == was[last.job := k]
            && HandledState(was[last.job], last.input, k)
  {
    var before, last := calls[..|calls| - 1], calls[|calls| - 1];
    EveryRunIsSafe(c, plans, before);
    var was := AfterCalls(NewJobs(plans), before);
    InputKeepsSafe(c, was, last.job, last.input, last.answers);
    k := Handle(was[last.job], last.input, last.answers);
  }

  /** A job whose group takes no session is never started. */
  lemma {:induction false} ShutNeverStarts(c: Config, plans: seq<Plan>, calls: seq<Call>, i: nat)
    requires WellFormed(c, |plans|) && IsEngineRun(c, NewJobs(plans), calls) && i < |plans| && Shut(c, i)
    ensures !HasStarted(AfterCalls(NewJobs(plans), calls)[i].state)
  {
    if calls != [] {
      var before, last := calls[..|calls| - 1], calls[|calls| - 1];
      ShutNeverStarts(c, plans, before, i);
      var k := LastCall(c, plans, calls);
      if last.job == i {
        ShutStays(c, AfterCalls(NewJobs(plans), before), i, last.input, k);
      }
    }
  }

  /** Not ready, and not started. */
  predicate Held(s: State) {
    s != Ready && !HasStarted(s)
  }

  predicate LoopHeld(jobs: seq<Job>, loop: set<nat>) {
    forall i {:trigger Held(jobs[i].state)} :: i in loop && i < |jobs| ==> Held(jobs[i].state)
  }

  lemma LoopStays(c: Config, was: seq<Job>, loop: set<nat>, i: nat, x: Input, k: Job)
    requires WellFormed(c, |was|) && NeedsLoop(c, loop) && LoopHeld(was, loop)
    requires i < |was| && Allowed(c, was, i, x) && HandledState(was[i], x, k)
    ensures LoopHeld(was[i := k], loop)
  {
    if i in loop {
      assert Held(was[i].state);
      LoopNeedIsUnmet(c, was, loop, i);
    }
  }

  lemma LoopNeedIsUnmet(c: Config, was: seq<Job>, loop: set<nat>, i: nat)
    requires WellFormed(c, |was|) && NeedsLoop(c, loop) && LoopHeld(was, loop) && i in loop && i < |was|
    ensures !NeedsSucceeded(c, States(was), i)
  {
    assert NeedsOneOf(c, i, loop);
    var m :| 0 <= m < |c.needs[i]| && c.needs[i][m] in loop;
    assert Held(was[c.needs[i][m]].state);
  }

  /** Jobs that need each other in a loop are never ready and never start. */
  lemma {:induction false} LoopNeverStarts(c: Config, plans: seq<Plan>, calls: seq<Call>, loop: set<nat>)
    requires WellFormed(c, |plans|) && IsEngineRun(c, NewJobs(plans), calls) && NeedsLoop(c, loop)
    ensures LoopHeld(AfterCalls(NewJobs(plans), calls), loop)
  {
    if calls != [] {
      var before, last := calls[..|calls| - 1], calls[|calls| - 1];
      LoopNeverStarts(c, plans, before, loop);
      var k := LastCall(c, plans, calls);
      LoopStays(c, AfterCalls(NewJobs(plans), before), loop, last.job, last.input, k);
    }
  }
}
