/** Schedules of the run loop: a pass is delivered whole, and the outside world is
heard only when the scheduler has nothing to say. Every run can go on as such a
schedule, and some schedule gets stuck exactly when the configuration is to blame. */
module EngineSchedules {
  import opened Lifecycle
  import opened Shell
  import opened ShellRuns
  import opened ShellReach
  import opened Sched
  import opened SchedFacts
  import opened Engine
  import opened EngineRuns

  /** One round: all events of a pass, with the answers each handler got, or one
      event of the outside world. */
  datatype Round = WholePass(answers: seq<Answers>) | Outside(call: Call)

  predicate RoundOk(c: Config, jobs: seq<Job>, r: Round)
    requires WellFormed(c, |jobs|)
  {
    var evs := Pass(c, States(jobs));
    match r
    case WholePass(answers) => evs != [] && |answers| == |evs|
    case Outside(call) =>
      evs == [] && call.job < |jobs| && FromOutside(call.input) && Possible(jobs[call.job], call.input)
  }

  function PassCalls(evs: seq<SchedEvent>, answers: seq<Answers>): (calls: seq<Call>)
    requires |answers| == |evs|
    ensures |calls| == |evs|
    ensures forall k :: 0 <= k < |evs| ==> calls[k] == Call(evs[k].job, Scheduled(evs[k].event), answers[k])
  {
    seq(|evs|, k requires 0 <= k < |evs| => Call(evs[k].job, Scheduled(evs[k].event), answers[k]))
  }

  lemma PassHead(evs: seq<SchedEvent>, answers: seq<Answers>)
    requires |answers| == |evs| && evs != []
    ensures PassCalls(evs, answers)
         == [Call(evs[0].job, Scheduled(evs[0].event), answers[0])] + PassCalls(evs[1..], answers[1..])
  {
  }

  function RoundCalls(c: Config, jobs: seq<Job>, r: Round): seq<Call>
    requires WellFormed(c, |jobs|) && RoundOk(c, jobs, r)
  {
    match r
    case WholePass(answers) => PassCalls(Pass(c, States(jobs)), answers)
    case Outside(call) => [call]
  }

  function AfterRound(c: Config, jobs: seq<Job>, r: Round): (k: seq<Job>)
    requires WellFormed(c, |jobs|) && RoundOk(c, jobs, r)
    ensures |k| == |jobs|
  {
    AfterCalls(jobs, RoundCalls(c, jobs, r))
  }

  /** A schedule from jobs that ends in now. */
  predicate Leads(c: Config, jobs: seq<Job>, rounds: seq<Round>, now: seq<Job>)
    requires WellFormed(c, |jobs|)
    decreases |rounds|
  {
    if rounds == [] then now == jobs
    else RoundOk(c, jobs, rounds[0]) && Leads(c, AfterRound(c, jobs, rounds[0]), rounds[1..], now)
  }

  // ---- schedules are runs ----

  lemma {:induction false} CallsJoin(jobs: seq<Job>, a: seq<Call>, b: seq<Call>)
    ensures AfterCalls(jobs, a + b) == AfterCalls(AfterCalls(jobs, a), b)
    decreases |b|
  {
    if b == [] {
      assert a + b == a;
    } else {
      assert (a + b)[..|a + b| - 1] == a + b[..|b| - 1];
      CallsJoin(jobs, a, b[..|b| - 1]);
    }
  }

  lemma {:induction false} RunsJoin(c: Config, jobs: seq<Job>, a: seq<Call>, b: seq<Call>)
    requires WellFormed(c, |jobs|) && IsEngineRun(c, jobs, a) && IsEngineRun(c, AfterCalls(jobs, a), b)
    ensures IsEngineRun(c, jobs, a + b) && AfterCalls(jobs, a + b) == AfterCalls(AfterCalls(jobs, a), b)
    decreases |b|
  {
    CallsJoin(jobs, a, b);
    if b == [] {
      assert a + b == a;
    } else {
      var n := |b| - 1;
      assert (a + b)[..|a + b| - 1] == a + b[..n];
      RunsJoin(c, jobs, a, b[..n]);
    }
  }

  lemma OneCall(c: Config, jobs: seq<Job>, call: Call)
    requires WellFormed(c, |jobs|) && call.job < |jobs| && Allowed(c, jobs, call.job, call.input)
    ensures IsEngineRun(c, jobs, [call])
    ensures AfterCalls(jobs, [call]) == jobs[call.job := Handle(jobs[call.job], call.input, call.answers)]
  {
    SingleCall(jobs, call);
    assert [call][..0] == [];
    assert IsEngineRun(c, jobs, []);
  }

  /** What one event of a pass leaves: job i changed, the rest to be delivered. */
  predicate HeadDone(c: Config, jobs: seq<Job>, e: SchedEvent, rest: seq<SchedEvent>, now: seq<Job>)
    requires WellFormed(c, |jobs|)
  {
    && e.job < |jobs| == |now| && now == jobs[e.job := now[e.job]]
    && Safe(c, now) && Deliverable(c, States(now), rest)
    && Waiting(States(now)) < Waiting(States(jobs))
  }

  lemma DeliverHead(c: Config, jobs: seq<Job>, evs: seq<SchedEvent>, a: Answers)
    requires Safe(c, jobs) && evs != [] && Deliverable(c, States(jobs), evs)
    ensures var call := Call(evs[0].job, Scheduled(evs[0].event), a);
            IsEngineRun(c, jobs, [call]) && HeadDone(c, jobs, evs[0], evs[1..], AfterCalls(jobs, [call]))
  {
    FirstIsAllowed(c, jobs, evs);
    var call := Call(evs[0].job, Scheduled(evs[0].event), a);
    OneCall(c, jobs, call);
    InputKeepsSafe(c, jobs, call.job, call.input, a);
    DeliveredOne(c, jobs, evs, Handle(jobs[call.job], call.input, a));
  }

  /** What a whole pass leaves. */
  predicate PassDone(c: Config, jobs: seq<Job>, n: nat, now: seq<Job>) {
    Safe(c, now) && |now| == |jobs| && Waiting(States(now)) + n <= Waiting(States(jobs))
  }

  /** A whole pass can be delivered, one legal event after another. */
  lemma {:induction false} PassRuns(c: Config, jobs: seq<Job>, evs: seq<SchedEvent>, answers: seq<Answers>)
    requires Safe(c, jobs) && Deliverable(c, States(jobs), evs) && |answers| == |evs|
    ensures IsEngineRun(c, jobs, PassCalls(evs, answers))
    ensures PassDone(c, jobs, |evs|, AfterCalls(jobs, PassCalls(evs, answers)))
    decreases |evs|
  {
    if evs != [] {
      var call := Call(evs[0].job, Scheduled(evs[0].event), answers[0]);
      DeliverHead(c, jobs, evs, answers[0]);
      PassRuns(c, AfterCalls(jobs, [call]), evs[1..], answers[1..]);
      RunsJoin(c, jobs, [call], PassCalls(evs[1..], answers[1..]));
      PassHead(evs, answers);
    }
  }

  /** A round is a run, and keeps everything safe. */
  lemma RoundRuns(c: Config, jobs: seq<Job>, r: Round)
    requires Safe(c, jobs) && RoundOk(c, jobs, r)
    ensures IsEngineRun(c, jobs, RoundCalls(c, jobs, r)) && Safe(c, AfterRound(c, jobs, r))
  {
    match r {
      case WholePass(answers) =>
        PassIsDeliverable(c, States(jobs));
        PassRuns(c, jobs, Pass(c, States(jobs)), answers);
      case Outside(call) =>
        OneCall(c, jobs, call);
        InputKeepsSafe(c, jobs, call.job, call.input, call.answers);
    }
  }

  lemma {:induction false} ScheduleIsRun(c: Config, jobs: seq<Job>, rounds: seq<Round>, now: seq<Job>)
    returns (calls: seq<Call>)
    requires Safe(c, jobs) && Leads(c, jobs, rounds, now)
    ensures IsEngineRun(c, jobs, calls) && AfterCalls(jobs, calls) == now && Safe(c, now)
    decreases |rounds|
  {
    if rounds == [] {
      calls := [];
    } else {
      RoundRuns(c, jobs, rounds[0]);
      var rest := ScheduleIsRun(c, AfterRound(c, jobs, rounds[0]), rounds[1..], now);
      RunsJoin(c, jobs, RoundCalls(c, jobs, rounds[0]), rest);
      calls := RoundCalls(c, jobs, rounds[0]) + rest;
    }
  }

  // ---- the way on ----

  predicate Smooth(jobs: seq<Job>) {
    forall i {:trigger SmoothJob(jobs[i])} :: 0 <= i < |jobs| ==> SmoothJob(jobs[i])
  }

  function TogoAll(jobs: seq<Job>): nat {
    if jobs == [] then 0 else TogoAll(jobs[..|jobs| - 1]) + Togo(jobs[|jobs| - 1])
  }

  lemma {:induction false} TogoUpdate(jobs: seq<Job>, i: nat, k: Job)
    requires i < |jobs|
    ensures TogoAll(jobs[i := k]) + Togo(jobs[i]) == TogoAll(jobs) + Togo(k)
  {
    var n := |jobs| - 1;
    if i == n {
      assert jobs[i := k][..n] == jobs[..n];
    } else {
      TogoUpdate(jobs[..n], i, k);
      assert jobs[i := k][..n] == jobs[..n][i := k];
    }
  }

  /** Less is left to do: fewer jobs wait, or as many wait and the running ones are nearer their end. */
  predicate Progress(was: seq<Job>, now: seq<Job>) {
    || Waiting(States(now)) < Waiting(States(was))
    || (Waiting(States(now)) == Waiting(States(was)) && TogoAll(now) < TogoAll(was))
  }

  lemma NudgeIsProgress(was: seq<Job>, i: nat, k: Job)
    requires i < |was| && IsRunning(was[i].state) && Nudged(was[i], k)
    ensures Progress(was, was[i := k]) && (Smooth(was) ==> Smooth(was[i := k]))
  {
    assert States(was[i := k]) == States(was)[i := k.state];
    WaitingUpdate(States(was), i, k.state);
    TogoUpdate(was, i, k);
  }

  /** On a quiet scheduler one running job is nudged. */
  lemma NudgeRound(c: Config, was: seq<Job>, i: nat) returns (r: Round)
    requires Safe(c, was) && Pass(c, States(was)) == [] && i < |was| && IsRunning(was[i].state)
    ensures RoundOk(c, was, r)
    ensures Progress(was, AfterRound(c, was, r)) && (Smooth(was) ==> Smooth(AfterRound(c, was, r)))
  {
    NudgeMoves(was[i]);
    var call := Call(i, Nudge(was[i]), CALM);
    r := Outside(call);
    OneCall(c, was, call);
    NudgeIsProgress(was, i, Handle(was[i], call.input, CALM));
  }

  /** Events that find their needs met, or a slot free. */
  predicate NoneFailed(evs: seq<SchedEvent>) {
    forall k :: 0 <= k < |evs| ==> evs[k].event == NeedsMet || evs[k].event == SlotGranted
  }

  /** In a smooth state whatever is final has succeeded, so no pass finds failed needs. */
  lemma SmoothPass(c: Config, jobs: seq<Job>)
    requires WellFormed(c, |jobs|) && Smooth(jobs)
    ensures NoneFailed(Pass(c, States(jobs)))
  {
    var st := States(jobs);
    forall i | 0 <= i < |st| && IsFinal(st[i]) ensures st[i] == Success {
      assert SmoothJob(jobs[i]);
    }
    ResolvedExactly(c, st);
    GrantedJobs(c, st, |st|);
  }

  function Calm(n: nat): (a: seq<Answers>)
    ensures |a| == n && forall k :: 0 <= k < n ==> a[k] == CALM
  {
    seq(n, _ => CALM)
  }

  lemma SmoothHead(c: Config, jobs: seq<Job>, evs: seq<SchedEvent>) returns (now: seq<Job>)
    requires Safe(c, jobs) && evs != [] && Deliverable(c, States(jobs), evs) && NoneFailed(evs) && Smooth(jobs)
    ensures now == AfterCalls(jobs, [Call(evs[0].job, Scheduled(evs[0].event), CALM)])
    ensures HeadDone(c, jobs, evs[0], evs[1..], now) && Smooth(now) && NoneFailed(evs[1..])
  {
    DeliverHead(c, jobs, evs, CALM);
    var i, e := evs[0].job, evs[0].event;
    now := AfterCalls(jobs, [Call(i, Scheduled(e), CALM)]);
    SmoothUpdate(c, jobs, evs[0]);
  }

  lemma SmoothUpdate(c: Config, jobs: seq<Job>, e: SchedEvent)
    requires Safe(c, jobs) && StillRight(c, States(jobs), e) && NoneFailed([e]) && Smooth(jobs)
    ensures Smooth(AfterCalls(jobs, [Call(e.job, Scheduled(e.event), CALM)]))
  {
    assert [e][0] == e;
    SmoothScheduled(jobs[e.job], e.event);
    SingleCall(jobs, Call(e.job, Scheduled(e.event), CALM));
  }

  lemma SingleCall(jobs: seq<Job>, call: Call)
    requires call.job < |jobs|
    ensures AfterCalls(jobs, [call]) == jobs[call.job := Handle(jobs[call.job], call.input, call.answers)]
  {
    assert [call][..0] == [];
    assert AfterCalls(jobs, []) == jobs;
  }

  /** The calls of a pass that is answered calmly. */
  function CalmCalls(evs: seq<SchedEvent>): seq<Call> {
    if evs == [] then [] else [Call(evs[0].job, Scheduled(evs[0].event), CALM)] + CalmCalls(evs[1..])
  }

  lemma {:induction false} CalmIsPass(evs: seq<SchedEvent>)
    ensures PassCalls(evs, Calm(|evs|)) == CalmCalls(evs)
  {
    if evs != [] {
      CalmIsPass(evs[1..]);
      PassHead(evs, Calm(|evs|));
      assert Calm(|evs|)[1..] == Calm(|evs[1..]|);
    }
  }

  /** A calm pass keeps a smooth run smooth. */
  lemma {:induction false} PassStaysSmooth(c: Config, jobs: seq<Job>, evs: seq<SchedEvent>)
    requires Safe(c, jobs) && Deliverable(c, States(jobs), evs) && NoneFailed(evs) && Smooth(jobs)
    ensures Smooth(AfterCalls(jobs, CalmCalls(evs)))
    decreases |evs|
  {
    if evs != [] {
      var now := SmoothHead(c, jobs, evs);
      PassStaysSmooth(c, now, evs[1..]);
      CallsJoin(jobs, [Call(evs[0].job, Scheduled(evs[0].event), CALM)], CalmCalls(evs[1..]));
    }
  }

  /** A whole pass, answered calmly. */
  lemma PassRound(c: Config, was: seq<Job>) returns (r: Round)
    requires Safe(c, was) && Pass(c, States(was)) != []
    ensures RoundOk(c, was, r)
    ensures Progress(was, AfterRound(c, was, r)) && (Smooth(was) ==> Smooth(AfterRound(c, was, r)))
  {
    var evs := Pass(c, States(was));
    var answers := Calm(|evs|);
    r := WholePass(answers);
    PassIsDeliverable(c, States(was));
    PassRuns(c, was, evs, answers);
    if Smooth(was) {
      SmoothPass(c, was);
      PassStaysSmooth(c, was, evs);
      CalmIsPass(evs);
    }
  }

  lemma NextRound(c: Config, was: seq<Job>) returns (r: Round)
    requires Safe(c, was) && !Quiet(c, was)
    ensures RoundOk(c, was, r) && Safe(c, AfterRound(c, was, r))
    ensures Progress(was, AfterRound(c, was, r)) && (Smooth(was) ==> Smooth(AfterRound(c, was, r)))
  {
    if Pass(c, States(was)) != [] {
      r := PassRound(c, was);
    } else {
      var i :| 0 <= i < |was| && IsRunning(was[i].state);
      r := NudgeRound(c, was, i);
    }
    RoundRuns(c, was, r);
  }

  /** From every safe state a schedule leads to where nothing runs and the scheduler is quiet. */
  lemma {:induction false} Settle(c: Config, was: seq<Job>) returns (rounds: seq<Round>, now: seq<Job>)
    requires Safe(c, was)
    ensures Leads(c, was, rounds, now) && |now| == |was| && Quiet(c, now) && (Smooth(was) ==> Smooth(now))
    decreases Waiting(States(was)), TogoAll(was)
  {
    if Quiet(c, was) {
      rounds, now := [], was;
    } else {
      var r := NextRound(c, was);
      var rest, end := Settle(c, AfterRound(c, was, r));
      rounds, now := [r] + rest, end;
      assert rounds[1..] == rest;
    }
  }

  /** From every reachable state of a run without loops and with open groups, the
      loop has a schedule that brings every job to its end. */
  lemma EveryRunCanFinish(c: Config, plans: seq<Plan>, calls: seq<Call>) returns (rounds: seq<Round>, now: seq<Job>)
    requires WellFormed(c, |plans|) && IsEngineRun(c, NewJobs(plans), calls)
    requires !HasLoop(c) && CapsOpen(c)
    ensures Leads(c, AfterCalls(NewJobs(plans), calls), rounds, now) && AllFinal(now)
  {
    EveryRunIsSafe(c, plans, calls);
    rounds, now := Settle(c, AfterCalls(NewJobs(plans), calls));
    QuietMeansDoneOrRunning(c, States(now));
  }

  // ---- stuck ----

  /** Jobs that are neither finished nor runnable. */
  predicate Stuck(c: Config, jobs: seq<Job>) {
    WellFormed(c, |jobs|) && Quiet(c, jobs) && !AllFinal(jobs)
  }

  predicate StuckSchedule(c: Config, plans: seq<Plan>, rounds: seq<Round>, now: seq<Job>)
    requires WellFormed(c, |plans|)
  {
    Leads(c, NewJobs(plans), rounds, now) && Stuck(c, now)
  }

  predicate StuckRun(c: Config, plans: seq<Plan>, calls: seq<Call>)
    requires WellFormed(c, |plans|)
  {
    IsEngineRun(c, NewJobs(plans), calls) && Stuck(c, AfterCalls(NewJobs(plans), calls))
  }

  lemma StillWaits(jobs: seq<Job>, i: nat)
    requires Smooth(jobs) && i < |jobs| && !HasStarted(jobs[i].state)
    ensures !AllFinal(jobs)
  {
    assert SmoothJob(jobs[i]);
  }

  /** The calm schedule from the start. */
  lemma CalmSchedule(c: Config, plans: seq<Plan>) returns (rounds: seq<Round>, now: seq<Job>, calls: seq<Call>)
    requires WellFormed(c, |plans|)
    ensures Leads(c, NewJobs(plans), rounds, now) && |now| == |plans| && Quiet(c, now) && Smooth(now)
    ensures IsEngineRun(c, NewJobs(plans), calls) && AfterCalls(NewJobs(plans), calls) == now
  {
    StartIsSafe(c, plans);
    rounds, now := Settle(c, NewJobs(plans));
    calls := ScheduleIsRun(c, NewJobs(plans), rounds, now);
  }

  /** With a zero cap or a loop of needs some job is never started. */
  lemma SomeNeverStarts(c: Config, plans: seq<Plan>, calls: seq<Call>) returns (i: nat)
    requires WellFormed(c, |plans|) && (!CapsOpen(c) || HasLoop(c)) && IsEngineRun(c, NewJobs(plans), calls)
    ensures i < |plans| && !HasStarted(AfterCalls(NewJobs(plans), calls)[i].state)
  {
    if !CapsOpen(c) {
      i :| 0 <= i < |c.group| && 0 < c.group[i] <= |c.caps| && c.caps[c.group[i] - 1] < 1;
      ShutNeverStarts(c, plans, calls, i);
    } else {
      var loop: set<nat> :| loop != {} && NeedsLoop(c, loop);
      LoopNeverStarts(c, plans, calls, loop);
      i :| i in loop;
      assert NeedsOneOf(c, i, loop);
      assert Held(AfterCalls(NewJobs(plans), calls)[i].state);
    }
  }

  /** A zero cap, or a loop of needs: the calm schedule gets stuck. */
  lemma BlockedGetsStuck(c: Config, plans: seq<Plan>) returns (rounds: seq<Round>, now: seq<Job>, calls: seq<Call>)
    requires WellFormed(c, |plans|) && (!CapsOpen(c) || HasLoop(c))
    ensures StuckSchedule(c, plans, rounds, now) && StuckRun(c, plans, calls)
  {
    rounds, now, calls := CalmSchedule(c, plans);
    var i := SomeNeverStarts(c, plans, calls);
    StillWaits(now, i);
  }

  lemma OpenIsNeverStuck(c: Config, jobs: seq<Job>)
    requires CapsOpen(c) && !HasLoop(c)
    ensures !Stuck(c, jobs)
  {
    if WellFormed(c, |jobs|) && Quiet(c, jobs) {
      QuietMeansDoneOrRunning(c, States(jobs));
    }
  }

  /** Some schedule of the loop gets stuck if and only if some job's group takes no
      session or some jobs need each other in a loop; and the same of any interleaving at all. */
  lemma StuckExactly(c: Config, plans: seq<Plan>)
    requires WellFormed(c, |plans|)
    ensures (exists rounds, now :: StuckSchedule(c, plans, rounds, now)) <==> !CapsOpen(c) || HasLoop(c)
    ensures (exists calls :: StuckRun(c, plans, calls)) <==> !CapsOpen(c) || HasLoop(c)
  {
    if !CapsOpen(c) || HasLoop(c) {
      var rounds, now, calls := BlockedGetsStuck(c, plans);
    } else {
      forall jobs ensures !Stuck(c, jobs) {
        OpenIsNeverStuck(c, jobs);
      }
    }
  }
}
