/** The run loop in place: it drives the jobs' shells, and what it does is told as
moments: after the passes and broadcasts, after each batch of events. */
module RunLoop {
  import opened Lifecycle
  import opened Shell
  import opened ShellRuns
  import ShellHears
  import opened Handlers
  import opened Sched
  import opened SchedFacts
  import opened Engine
  import opened EngineRuns
  import opened EngineSchedules

  /** An event of the outside world: about one job, or the operator's signal. */
  datatype WorldEvent = ForJob(job: nat, input: Input) | CancelSignal

  /** Where a run stands: its jobs, and whether a cancel is requested. */
  datatype Moment = Moment(jobs: seq<Job>, cancel: bool)

  // ---- what a batch does ----

  predicate NewlyHeard(j: Job, k: Job) {
    !j.heard.cancel && k.heard.cancel
  }

  /** One event. A job that finds the cancel when it polls makes it known. An event
      that its job's state does not allow is not one the outside world can produce. */
  function AfterEvent(w: Moment, e: WorldEvent, a: Answers): Moment {
    match e
    case CancelSignal => w.(cancel := true)
    case ForJob(i, x) =>
      if i < |w.jobs| && FromOutside(x) && Possible(w.jobs[i], x) then
        var k := Handle(w.jobs[i], x, a);
        Moment(w.jobs[i := k], w.cancel || NewlyHeard(w.jobs[i], k))
      else w
  }

  /** The events of a batch in order, each handler answered as it may be: a poll finds
      a cancel that was requested before. */
  predicate Heeds(w: Moment, batch: seq<WorldEvent>, answers: seq<Answers>, now: Moment)
    decreases |batch|
  {
    if batch == [] then now == w && answers == []
    else
      && answers != [] && (w.cancel ==> answers[0].cancelSeen)
      && Heeds(AfterEvent(w, batch[0], answers[0]), batch[1..], answers[1..], now)
  }

  lemma {:induction false} HeedsJoin(w: Moment, a: seq<WorldEvent>, x: seq<Answers>, mid: Moment, e: WorldEvent,
                                     y: Answers)
    requires Heeds(w, a, x, mid) && (mid.cancel ==> y.cancelSeen)
    ensures Heeds(w, a + [e], x + [y], AfterEvent(mid, e, y))
    decreases |a|
  {
    if a == [] {
      assert a + [e] == [e] && x + [y] == [y] && [e][1..] == [] && [y][1..] == [];
    } else {
      assert (a + [e])[1..] == a[1..] + [e] && (x + [y])[1..] == x[1..] + [y];
      HeedsJoin(AfterEvent(w, a[0], x[0]), a[1..], x[1..], mid, e, y);
    }
  }

  /** A signal in the batch is a request for good. */
  lemma {:induction false} SignalIsHeeded(w: Moment, batch: seq<WorldEvent>, answers: seq<Answers>, now: Moment)
    requires Heeds(w, batch, answers, now)
    ensures w.cancel || CancelSignal in batch ==> now.cancel
    decreases |batch|
  {
    if batch != [] {
      SignalIsHeeded(AfterEvent(w, batch[0], answers[0]), batch[1..], answers[1..], now);
    }
  }

  // ---- runs ----

  /** The calls lead from one list of jobs to another, each of them allowed in its turn. */
  predicate Ran(c: Config, was: seq<Job>, calls: seq<Call>, now: seq<Job>) {
    WellFormed(c, |was|) && IsEngineRun(c, was, calls) && AfterCalls(was, calls) == now
  }

  lemma RanNothing(c: Config, jobs: seq<Job>)
    requires WellFormed(c, |jobs|)
    ensures Ran(c, jobs, [], jobs)
  {
  }

  lemma RanOne(c: Config, jobs: seq<Job>, call: Call)
    requires WellFormed(c, |jobs|) && call.job < |jobs| && Allowed(c, jobs, call.job, call.input)
    ensures Ran(c, jobs, [call], jobs[call.job := Handle(jobs[call.job], call.input, call.answers)])
  {
    OneCall(c, jobs, call);
  }

  lemma RanJoins(c: Config, was: seq<Job>, a: seq<Call>, mid: seq<Job>, b: seq<Call>, now: seq<Job>)
    requires Ran(c, was, a, mid) && Ran(c, mid, b, now)
    ensures Ran(c, was, a + b, now)
  {
    RunsJoin(c, was, a, b);
  }

  // ---- what the loop decides ----

  predicate SomeHeard(jobs: seq<Job>) {
    exists i :: 0 <= i < |jobs| && jobs[i].heard.cancel
  }

  /** A job that has not heard of the requested cancel is told, and another left alone. */
  predicate IsTold(j: Job, a: Answers, k: Job) {
    a.cancelSeen && k == if j.heard.cancel then j else Handle(j, OperatorCancel, a)
  }

  /** A broadcast: nothing unless a cancel is requested, and then every job is told. */
  predicate BroadcastBy(w: Moment, answers: seq<Answers>, now: Moment) {
    if !w.cancel then now == w
    else
      && now.cancel && |answers| == |w.jobs| == |now.jobs|
      && forall i {:trigger now.jobs[i]} :: 0 <= i < |now.jobs| ==> IsTold(w.jobs[i], answers[i], now.jobs[i])
  }

  ghost predicate Broadcasts(w: Moment, now: Moment) {
    exists answers :: BroadcastBy(w, answers, now)
  }

  /** A pass that has something to say, delivered whole: its events in order, and no
      others. A job that finds the cancel when it polls makes it known. */
  predicate PassBy(c: Config, w: Moment, answers: seq<Answers>, now: Moment)
    requires WellFormed(c, |w.jobs|)
  {
    var evs := Pass(c, States(w.jobs));
    && evs != [] && |answers| == |evs| && Ran(c, w.jobs, PassCalls(evs, answers), now.jobs)
    && (w.cancel ==> AllSee(answers)) && now.cancel == (w.cancel || SomeHeard(now.jobs))
  }

  predicate AllSee(answers: seq<Answers>) {
    forall k :: 0 <= k < |answers| ==> answers[k].cancelSeen
  }

  /** One turn: a pass while the scheduler has something to say, and only then a
      broadcast, if it reaches anyone. */
  ghost predicate Decides(c: Config, w: Moment, now: Moment) {
    && WellFormed(c, |w.jobs|)
    && if Pass(c, States(w.jobs)) != [] then exists answers :: PassBy(c, w, answers, now)
       else w.cancel && UntoldJobs(w.jobs) != {} && Broadcasts(w, now)
  }

  /** Each of the moments comes from the one before it. */
  ghost predicate Chain(turn: (Moment, Moment) -> bool, trail: seq<Moment>) {
    forall k {:trigger trail[k]} :: 0 < k < |trail| ==> turn(trail[k - 1], trail[k])
  }

  lemma ChainGrows(turn: (Moment, Moment) -> bool, trail: seq<Moment>, now: Moment)
    requires trail != [] && Chain(turn, trail) && turn(trail[|trail| - 1], now)
    ensures Chain(turn, trail + [now])
  {
  }

  ghost function Turn(c: Config): (Moment, Moment) -> bool {
    (w, now) => Decides(c, w, now)
  }

  /** Turn after turn from w to now. */
  ghost predicate Path(c: Config, w: Moment, trail: seq<Moment>, now: Moment) {
    trail != [] && trail[0] == w && trail[|trail| - 1] == now && Chain(Turn(c), trail)
  }

  lemma PathGrows(c: Config, w: Moment, trail: seq<Moment>, mid: Moment, now: Moment)
    requires Path(c, w, trail, mid) && Decides(c, mid, now)
    ensures Path(c, w, trail + [now], now)
  {
    ChainGrows(Turn(c), trail, now);
  }

  /** From one moment the loop decides all there is to decide: a broadcast first, then
      turns until the scheduler is quiet and every job has heard of a requested cancel. */
  ghost predicate QuietsTo(c: Config, w: Moment, now: Moment) {
    && (exists first, trail :: Broadcasts(w, first) && Path(c, first, trail, now))
    && (w.cancel ==> now.cancel) && |now.jobs| == |w.jobs|
    && WellFormed(c, |now.jobs|) && Pass(c, States(now.jobs)) == [] && (now.cancel ==> UntoldJobs(now.jobs) == {})
  }

  ghost predicate HeedsSome(w: Moment, batch: seq<WorldEvent>, now: Moment) {
    exists answers :: Heeds(w, batch, answers, now)
  }

  /** Round b of the loop goes on: not every job has ended, and the next batch is heeded. */
  ghost predicate GoesOn(batches: seq<seq<WorldEvent>>, met: seq<Moment>, quiet: seq<Moment>, b: nat) {
    && b < |batches| && b < |quiet| && b + 1 < |met|
    && !AllFinal(quiet[b].jobs) && HeedsSome(quiet[b], batches[b], met[b + 1])
  }

  /** Each quiet moment comes from the moment before the loop decided. */
  ghost predicate Paired(turn: (Moment, Moment) -> bool, met: seq<Moment>, quiet: seq<Moment>) {
    |quiet| <= |met| && forall b {:trigger quiet[b]} :: 0 <= b < |quiet| ==> turn(met[b], quiet[b])
  }

  ghost function Quieting(c: Config): (Moment, Moment) -> bool {
    (w, now) => QuietsTo(c, w, now)
  }

  ghost predicate AllGoOn(batches: seq<seq<WorldEvent>>, met: seq<Moment>, quiet: seq<Moment>) {
    forall b: nat {:trigger GoesOn(batches, met, quiet, b)} :: b + 1 < |met| ==> GoesOn(batches, met, quiet, b)
  }

  /** The loop over a sequence of batches: it decides, and unless every job has ended
      takes the next batch; met are the moments before it decides, quiet those after. */
  ghost predicate LoopRan(c: Config, batches: seq<seq<WorldEvent>>, finished: bool, met: seq<Moment>,
                          quiet: seq<Moment>)
  {
    && |quiet| <= |batches| && |met| == |quiet| + (if finished then 0 else 1) && met != []
    && Paired(Quieting(c), met, quiet) && AllGoOn(batches, met, quiet)
    && (if finished then quiet != [] && AllFinal(quiet[|quiet| - 1].jobs) else |quiet| == |batches|)
  }

  /** Once the operator's signal is in a batch, every job has heard of it when the loop next comes to rest. */
  lemma CancelReachesAll(c: Config, batches: seq<seq<WorldEvent>>, finished: bool, met: seq<Moment>, quiet: seq<Moment>,
                         b: nat)
    requires LoopRan(c, batches, finished, met, quiet) && b + 1 < |quiet| && CancelSignal in batches[b]
    ensures quiet[b + 1].cancel && UntoldJobs(quiet[b + 1].jobs) == {}
  {
    assert GoesOn(batches, met, quiet, b) && Quieting(c)(met[b + 1], quiet[b + 1]);
    var answers :| Heeds(quiet[b], batches[b], answers, met[b + 1]);
    SignalIsHeeded(quiet[b], batches[b], answers, met[b + 1]);
  }

  // ---- in place ----

  /** The shells are distinct objects, and what they hold is jobs. */
  ghost predicate Mirrors(shells: seq<JobShell>, jobs: seq<Job>)
    reads shells
  {
    && |shells| == |jobs|
    && (forall i, k :: 0 <= i < k < |shells| ==> shells[i] != shells[k])
    && (forall i {:trigger shells[i].View()} :: 0 <= i < |shells| ==> shells[i].View() == jobs[i])
  }

  /** No job has heard of a cancel that is not requested. */
  predicate HeardIsRequested(jobs: seq<Job>, cancel: bool) {
    forall i :: 0 <= i < |jobs| && jobs[i].heard.cancel ==> cancel
  }

  class Loop {
    const c: Config
    const shells: seq<JobShell>
    ghost var jobs: seq<Job> // what the shells hold
    var cancelRequested: bool

    ghost predicate Valid()
      reads this, shells
    {
      Mirrors(shells, jobs) && Safe(c, jobs) && HeardIsRequested(jobs, cancelRequested)
    }

    ghost function Now(): Moment
      reads this
    {
      Moment(jobs, cancelRequested)
    }

    constructor (c: Config, plans: seq<Plan>)
      requires WellFormed(c, |plans|)
      ensures this.c == c && Valid() && fresh(shells) && jobs == NewJobs(plans) && !cancelRequested
    {
      var made: seq<JobShell> := [];
      for i := 0 to |plans|
        invariant |made| == i && fresh(made)
        invariant forall k, m :: 0 <= k < m < i ==> made[k] != made[m]
        invariant forall k :: 0 <= k < i ==> made[k].View() == NewJob(plans[k])
      {
        var s := new JobShell(plans[i]);
        made := made + [s];
      }
      this.c := c;
      shells := made;
      jobs := NewJobs(plans);
      cancelRequested := false;
      new;
      StartIsSafe(c, plans);
    }

    /** One shell handles one input; the others do not notice. Says whether the job
        has heard of a cancel by it. */
    method Hand(i: nat, x: Input, answers: Answers) returns (found: bool)
      requires Mirrors(shells, jobs) && i < |jobs| && Resting(jobs[i]) && Possible(jobs[i], x)
      modifies this`jobs, shells[i]
      ensures Mirrors(shells, jobs) && jobs == old(jobs)[i := Handle(old(jobs)[i], x, answers)]
      ensures found == NewlyHeard(old(jobs)[i], jobs[i])
    {
      assert shells[i].View() == jobs[i];
      var told := shells[i].heard.cancel;
      shells[i].Receive(x, answers);
      jobs := jobs[i := Handle(jobs[i], x, answers)];
      found := !told && shells[i].heard.cancel;
    }

    /** Hands one input to one job's shell. Whatever the outside world answers, the run
        stays safe; a poll sees a cancel that is requested, and makes one that it finds known. */
    method Send(i: nat, x: Input) returns (ghost a: Answers)
      requires Valid() && i < |jobs| && Allowed(c, jobs, i, x) && (x.OperatorCancel? ==> cancelRequested)
      modifies this, shells[i]
      ensures Valid() && (old(cancelRequested) ==> a.cancelSeen)
      ensures jobs == old(jobs)[i := Handle(old(jobs)[i], x, a)] && HandledState(old(jobs)[i], x, jobs[i])
      ensures cancelRequested == (old(cancelRequested) || NewlyHeard(old(jobs)[i], jobs[i]))
      ensures Ran(c, old(jobs), [Call(i, x, a)], jobs)
    {
      var answers: Answers := *;
      var signal: bool := *; // a SIGINT or SIGTERM is pending
      answers := answers.(cancelSeen := cancelRequested || signal);
      a := answers;
      InputKeepsSafe(c, jobs, i, x, answers);
      RanOne(c, jobs, Call(i, x, answers));
      assert Resting(jobs[i]);
      var found := Hand(i, x, answers);
      cancelRequested := cancelRequested || found;
    }

    /** Delivers what a pass decided: exactly its events, in order, each still right when its turn comes. */
    method Deliver(evs: seq<SchedEvent>) returns (ghost answers: seq<Answers>)
      requires Valid() && Deliverable(c, States(jobs), evs)
      modifies this, shells
      ensures Valid() && |answers| == |evs| && Underway(c, old(Now()), evs, answers, Now())
    {
      answers := [];
      NoneDelivered(c, Now(), evs);
      assert evs[0..] == evs;
      for k := 0 to |evs|
        invariant Valid() && Deliverable(c, States(jobs), evs[k..])
        invariant |answers| == k && Underway(c, old(Now()), evs, answers, Now())
      {
        ghost var mid := Now();
        ghost var a := DeliverNext(evs, k);
        OneMoreDelivered(c, old(Now()), evs, answers, mid, a, Now());
        answers := answers + [a];
      }
    }

    method DeliverNext(evs: seq<SchedEvent>, k: nat) returns (ghost a: Answers)
      requires Valid() && k < |evs| && Deliverable(c, States(jobs), evs[k..])
      modifies this, shells
      ensures Valid() && Deliverable(c, States(jobs), evs[k + 1..])
      ensures OneDelivered(c, old(Now()), evs[k], a, Now())
    {
      ghost var was, todo := jobs, evs[k..];
      var i, e := evs[k].job, evs[k].event;
      assert todo[0] == evs[k] && todo[1..] == evs[k + 1..];
      FirstIsAllowed(c, jobs, todo);
      a := Send(i, Scheduled(e));
      DeliveredOne(c, was, todo, jobs[i]);
    }

    /** Sends a requested cancel to one job, unless it has had it. */
    method TellCancel(i: nat) returns (told: bool, ghost a: Answers, ghost calls: seq<Call>)
      requires Valid() && i < |jobs| && cancelRequested
      modifies this, shells[i]
      ensures Valid() && |jobs| == old(|jobs|) && cancelRequested
      ensures jobs == old(jobs)[i := jobs[i]] && IsTold(old(jobs)[i], a, jobs[i]) && jobs[i].heard.cancel
      ensures told <==> !old(jobs)[i].heard.cancel
      ensures Ran(c, old(jobs), calls, jobs)
    {
      assert shells[i].View() == jobs[i];
      told := !shells[i].heard.cancel;
      a, calls := Answers(false, false, false, true, false), [];
      if told {
        a := Send(i, OperatorCancel);
        calls := [Call(i, OperatorCancel, a)];
      } else {
        RanNothing(c, jobs);
      }
    }

    /** Once a cancel is requested, every job that has not heard of it does, and no other changes. */
    method BroadcastCancel() returns (sent: bool, ghost calls: seq<Call>)
      requires Valid()
      modifies this, shells
      ensures Valid() && |jobs| == old(|jobs|) && cancelRequested == old(cancelRequested)
      ensures Broadcasts(old(Now()), Now()) && (cancelRequested ==> UntoldJobs(jobs) == {})
      ensures sent <==> old(cancelRequested) && old(UntoldJobs(jobs)) != {}
      ensures !sent ==> jobs == old(jobs)
      ensures Ran(c, old(jobs), calls, jobs)
    {
      sent := false;
      calls := [];
      RanNothing(c, jobs);
      ghost var answers: seq<Answers> := [];
      if !cancelRequested {
        assert BroadcastBy(Now(), answers, Now());
        return;
      }
      ghost var first := 0;
      for i := 0 to |shells|
        invariant Valid() && |jobs| == old(|jobs|) && cancelRequested && |answers| == i
        invariant forall k {:trigger jobs[k]} :: 0 <= k < i ==>
                    IsTold(old(jobs)[k], answers[k], jobs[k]) && jobs[k].heard.cancel
        invariant forall k :: i <= k < |jobs| ==> jobs[k] == old(jobs)[k]
        invariant if sent then first in old(UntoldJobs(jobs)) else jobs == old(jobs)
        invariant Ran(c, old(jobs), calls, jobs)
      {
        ghost var mid := jobs;
        var told; ghost var a, more;
        told, a, more := TellCancel(i);
        RanJoins(c, old(jobs), calls, mid, more, jobs);
        calls, answers := calls + more, answers + [a];
        if told {
          first := i;
          sent := true;
        }
      }
      assert BroadcastBy(old(Now()), answers, Now());
    }

    /** The states the scheduler looks at. */
    method ReadStates() returns (st: seq<State>)
      requires Valid()
      ensures st == States(jobs)
    {
      st := [];
      for i := 0 to |shells|
        invariant |st| == i && forall k :: 0 <= k < i ==> st[k] == jobs[k].state
      {
        assert shells[i].View() == jobs[i];
        st := st + [shells[i].state];
      }
    }

    /** One pass that has something to say, delivered whole. */
    method RunPass(evs: seq<SchedEvent>) returns (ghost calls: seq<Call>)
      requires Valid() && evs == Pass(c, States(jobs)) && evs != []
      modifies this, shells
      ensures Valid() && |jobs| == old(|jobs|) && Decides(c, old(Now()), Now())
      ensures UntoldJobs(jobs) <= old(UntoldJobs(jobs)) && (old(cancelRequested) ==> cancelRequested)
      ensures Waiting(States(jobs)) < old(Waiting(States(jobs)))
      ensures Ran(c, old(jobs), calls, jobs)
    {
      PassIsDeliverable(c, States(jobs));
      ghost var answers := Deliver(evs);
      assert evs[..|evs|] == evs;
      calls := PassCalls(evs, answers);
      assert PassBy(c, old(Now()), answers, Now()); // HeardIsRequested gives the converse of Spreads
    }

    /** Passes until the scheduler has nothing to say. */
    method RunPasses(ghost from: Moment, ghost before: seq<Moment>)
      returns (ghost trail: seq<Moment>, ghost calls: seq<Call>)
      requires Valid() && Path(c, from, before, Now())
      modifies this, shells
      ensures Valid() && |jobs| == old(|jobs|) && Pass(c, States(jobs)) == []
      ensures UntoldJobs(jobs) <= old(UntoldJobs(jobs)) && (old(cancelRequested) ==> cancelRequested)
      ensures Path(c, from, trail, Now()) && Ran(c, old(jobs), calls, jobs)
    {
      trail, calls := before, [];
      RanNothing(c, jobs);
      while true
        invariant Valid() && |jobs| == old(|jobs|)
        invariant UntoldJobs(jobs) <= old(UntoldJobs(jobs)) && (old(cancelRequested) ==> cancelRequested)
        invariant Path(c, from, trail, Now()) && Ran(c, old(jobs), calls, jobs)
        decreases Waiting(States(jobs))
      {
        var st := ReadStates();
        var evs := SchedPass(c, st);
        if evs == [] {
          return;
        }
        ghost var mid := Now();
        ghost var more := RunPass(evs);
        PathGrows(c, from, trail, mid, Now());
        RanJoins(c, old(jobs), calls, mid.jobs, more, jobs);
        trail, calls := trail + [Now()], calls + more;
      }
    }

    /** Passes until the scheduler is quiet, and a broadcast after them. */
    method PassesAndBroadcast(ghost from: Moment, ghost before: seq<Moment>)
      returns (sent: bool, ghost trail: seq<Moment>, ghost calls: seq<Call>)
      requires Valid() && Path(c, from, before, Now())
      modifies this, shells
      ensures Valid() && |jobs| == old(|jobs|) && (old(cancelRequested) ==> cancelRequested)
      ensures Path(c, from, trail, Now()) && Ran(c, old(jobs), calls, jobs)
      ensures if sent then UntoldJobs(jobs) < old(UntoldJobs(jobs))
              else Pass(c, States(jobs)) == [] && (cancelRequested ==> UntoldJobs(jobs) == {})
    {
      ghost var passes, told;
      trail, passes := RunPasses(from, before);
      ghost var mid := Now();
      sent, told := BroadcastCancel();
      RanJoins(c, old(jobs), passes, mid.jobs, told, jobs);
      calls := passes + told;
      if sent {
        PathGrows(c, from, trail, mid, Now());
        trail := trail + [Now()];
      }
    }

    /** Passes and broadcasts until neither has anything to say. */
    method Quiesce() returns (ghost calls: seq<Call>)
      requires Valid()
      modifies this, shells
      ensures Valid() && |jobs| == old(|jobs|) && QuietsTo(c, old(Now()), Now())
      ensures Ran(c, old(jobs), calls, jobs)
    {
      var sent;
      sent, calls := BroadcastCancel();
      ghost var first, trail := Now(), [Now()];
      while true
        invariant Valid() && |jobs| == old(|jobs|) && (old(cancelRequested) ==> cancelRequested)
        invariant Path(c, first, trail, Now()) && Ran(c, old(jobs), calls, jobs)
        decreases UntoldJobs(jobs)
      {
        ghost var mid := jobs;
        ghost var more;
        sent, trail, more := PassesAndBroadcast(first, trail);
        RanJoins(c, old(jobs), calls, mid, more, jobs);
        calls := calls + more;
        if !sent {
          QuietIsReached(c, old(Now()), first, trail, Now());
          return;
        }
      }
    }

    /** Skips one job whose target is disabled. */
    method SkipOne(i: nat) returns (ghost calls: seq<Call>)
      requires Valid() && i < |jobs| && jobs[i].state == Pending
      modifies this, shells[i]
      ensures Valid() && |jobs| == old(|jobs|) && (old(cancelRequested) ==> cancelRequested)
      ensures jobs == old(jobs)[i := jobs[i]] && Disables(old(jobs)[i], true, jobs[i])
      ensures Ran(c, old(jobs), calls, jobs)
    {
      assert Resting(jobs[i]);
      ghost var was := jobs[i];
      ghost var a := Send(i, Disabled);
      ShellHears.SkipIsHeard(was, a);
      calls := [Call(i, Disabled, a)];
    }

    /** Exactly the jobs whose target is disabled end here, and are told why; the others do not change. */
    method SkipDisabled(disabled: seq<bool>) returns (ghost calls: seq<Call>)
      requires Valid() && |disabled| == |jobs| && forall i :: 0 <= i < |jobs| ==> jobs[i].state == Pending
      modifies this, shells
      ensures Valid() && |jobs| == old(|jobs|) && (old(cancelRequested) ==> cancelRequested)
      ensures forall i :: 0 <= i < |jobs| ==> Disables(old(jobs)[i], disabled[i], jobs[i])
      ensures Ran(c, old(jobs), calls, jobs)
    {
      calls := [];
      RanNothing(c, jobs);
      for i := 0 to |shells|
        invariant Valid() && |jobs| == old(|jobs|) && (old(cancelRequested) ==> cancelRequested)
        invariant forall k :: 0 <= k < i ==> Disables(old(jobs)[k], disabled[k], jobs[k])
        invariant forall k :: i <= k < |jobs| ==> jobs[k] == old(jobs)[k]
        invariant Ran(c, old(jobs), calls, jobs)
      {
        if disabled[i] {
          ghost var mid := jobs;
          ghost var more := SkipOne(i);
          RanJoins(c, old(jobs), calls, mid, more, jobs);
          calls := calls + more;
        }
      }
    }

    /** One event of a batch. */
    method HandleEvent(e: WorldEvent) returns (ghost a: Answers)
      requires Valid()
      modifies this, shells
      ensures Valid() && |jobs| == old(|jobs|) && (old(cancelRequested) ==> a.cancelSeen)
      ensures Now() == AfterEvent(old(Now()), e, a)
      ensures exists calls :: Ran(c, old(jobs), calls, jobs)
    {
      a := Answers(false, false, false, true, false);
      RanNothing(c, jobs);
      match e {
        case CancelSignal => cancelRequested := true;
        case ForJob(i, x) =>
          if i < |shells| {
            assert shells[i].View() == jobs[i];
            if FromOutside(x) && Possible(shells[i].View(), x) {
              a := Send(i, x);
            }
          }
      }
    }

    /** One batch of epoll events, each of them heeded in its turn. */
    method HandleBatch(batch: seq<WorldEvent>) returns (ghost answers: seq<Answers>, ghost calls: seq<Call>)
      requires Valid()
      modifies this, shells
      ensures Valid() && |jobs| == old(|jobs|)
      ensures Heeds(old(Now()), batch, answers, Now())
      ensures CancelSignal in batch || old(cancelRequested) ==> cancelRequested
      ensures Ran(c, old(jobs), calls, jobs)
    {
      answers, calls := [], [];
      RanNothing(c, jobs);
      for k := 0 to |batch|
        invariant Valid() && |jobs| == old(|jobs|)
        invariant Heeds(old(Now()), batch[..k], answers, Now())
        invariant Ran(c, old(jobs), calls, jobs)
      {
        ghost var mid := Now();
        ghost var a := HandleEvent(batch[k]);
        assert batch[..k + 1] == batch[..k] + [batch[k]];
        HeedsJoin(old(Now()), batch[..k], answers, mid, batch[k], a);
        answers := answers + [a];
        ghost var more :| Ran(c, mid.jobs, more, jobs);
        RanJoins(c, old(jobs), calls, mid.jobs, more, jobs);
        calls := calls + more;
      }
      assert batch[..|batch|] == batch;
      SignalIsHeeded(old(Now()), batch, answers, Now());
    }

    /** Everything that can be decided is, and then every job has ended or one is running. */
    method Advance() returns (done: bool, running: bool, ghost calls: seq<Call>)
      requires Valid() && !HasLoop(c) && CapsOpen(c)
      modifies this, shells
      ensures Valid() && |jobs| == old(|jobs|) && QuietsTo(c, old(Now()), Now())
      ensures Ran(c, old(jobs), calls, jobs)
      ensures (done <==> AllFinal(jobs)) && (done || running)
    {
      calls := Quiesce();
      var st := ReadStates();
      done, running := Judge(c, st);
    }

    /** The loop itself, once the disabled jobs are out of the way. On a graph without
        loops and with open groups it never finds jobs that are neither finished nor runnable. */
    method RunBatches(batches: seq<seq<WorldEvent>>)
      returns (rc: int, finished: bool, ghost met: seq<Moment>, ghost quiet: seq<Moment>, ghost calls: seq<Call>)
      requires Valid() && !HasLoop(c) && CapsOpen(c)
      modifies this, shells
      ensures Valid() && |jobs| == old(|jobs|) && rc == 0 && Ran(c, old(jobs), calls, jobs)
      ensures LoopRan(c, batches, finished, met, quiet) && met[0] == old(Now())
      ensures Now() == if finished then quiet[|quiet| - 1] else met[|met| - 1]
    {
      met, quiet, calls := [Now()], [], [];
      RanNothing(c, jobs);
      for b := 0 to |batches|
        invariant Valid() && |jobs| == old(|jobs|) && |quiet| == b && Ran(c, old(jobs), calls, jobs)
        invariant LoopRan(c, batches[..b], false, met, quiet) && met[0] == old(Now()) && met[|met| - 1] == Now()
      {
        ghost var mid := jobs;
        var done, running; ghost var more;
        done, running, more := Advance();
        RanJoins(c, old(jobs), calls, mid, more, jobs);
        calls := calls + more;
        ghost var q := Now();
        if done {
          LoopEnds(c, batches, b, met, quiet, q);
          return 0, true, met, quiet + [q], calls;
        }
        if !running {
          return -1, false, met, quiet, calls;
        }
        mid := jobs;
        ghost var answers;
        answers, more := HandleBatch(batches[b]);
        RanJoins(c, old(jobs), calls, mid, more, jobs);
        calls := calls + more;
        LoopGoesOn(c, batches, b, met, quiet, q, answers, Now());
        met, quiet := met + [Now()], quiet + [q];
      }
      assert batches[..|batches|] == batches;
      return 0, false, met, quiet, calls;
    }

    /** The whole run: disabled jobs are skipped first, and then the loop. */
    method RunAll(disabled: seq<bool>, batches: seq<seq<WorldEvent>>)
      returns (rc: int, finished: bool, ghost met: seq<Moment>, ghost quiet: seq<Moment>, ghost calls: seq<Call>)
      requires Valid() && |disabled| == |jobs| && forall i :: 0 <= i < |jobs| ==> jobs[i].state == Pending
      requires !HasLoop(c) && CapsOpen(c)
      modifies this, shells
      ensures Valid() && |jobs| == old(|jobs|) && rc == 0 && (finished ==> AllFinal(jobs))
      ensures LoopRan(c, batches, finished, met, quiet)
      ensures |met[0].jobs| == old(|jobs|)
      ensures forall i :: 0 <= i < old(|jobs|) ==> Disables(old(jobs)[i], disabled[i], met[0].jobs[i])
      ensures Ran(c, old(jobs), calls, jobs)
      ensures Now() == if finished then quiet[|quiet| - 1] else met[|met| - 1]
    {
      ghost var skips := SkipDisabled(disabled);
      ghost var mid := jobs;
      rc, finished, met, quiet, calls := RunBatches(batches);
      RanJoins(c, old(jobs), skips, mid, calls, jobs);
      calls := skips + calls;
    }
  }

  lemma PairedOn(turn: (Moment, Moment) -> bool, met: seq<Moment>, quiet: seq<Moment>, now: Moment, more: seq<Moment>)
    requires |quiet| < |met| && Paired(turn, met, quiet) && turn(met[|quiet|], now)
    ensures Paired(turn, met + more, quiet + [now])
  {
  }

  lemma GoesOnWith(batches: seq<seq<WorldEvent>>, met: seq<Moment>, quiet: seq<Moment>, batch: seq<WorldEvent>,
                   q: Moment, now: Moment)
    requires |met| == |batches| + 1 == |quiet| + 1 && AllGoOn(batches, met, quiet)
    requires !AllFinal(q.jobs) && HeedsSome(q, batch, now)
    ensures AllGoOn(batches + [batch], met + [now], quiet + [q])
  {
    var m, qs, bs := met + [now], quiet + [q], batches + [batch];
    forall k: nat | k + 1 < |m| ensures GoesOn(bs, m, qs, k) {
      if k < |batches| {
        assert GoesOn(batches, met, quiet, k);
        assert m[k + 1] == met[k + 1] && qs[k] == quiet[k] && bs[k] == batches[k];
      } else {
        assert m[k + 1] == now && qs[k] == q && bs[k] == batch;
      }
    }
  }

  /** The loop has decided, and goes on with the next batch. */
  lemma LoopGoesOn(c: Config, batches: seq<seq<WorldEvent>>, b: nat, met: seq<Moment>, quiet: seq<Moment>, q: Moment,
                   answers: seq<Answers>, now: Moment)
    requires b < |batches| && |quiet| == b && LoopRan(c, batches[..b], false, met, quiet)
    requires QuietsTo(c, met[b], q) && !AllFinal(q.jobs) && Heeds(q, batches[b], answers, now)
    ensures LoopRan(c, batches[..b + 1], false, met + [now], quiet + [q])
  {
    assert HeedsSome(q, batches[b], now);
    PairedOn(Quieting(c), met, quiet, q, [now]);
    GoesOnWith(batches[..b], met, quiet, batches[b], q, now);
    assert batches[..b] + [batches[b]] == batches[..b + 1];
  }

  /** The loop has decided, and every job has ended. */
  lemma LoopEnds(c: Config, batches: seq<seq<WorldEvent>>, b: nat, met: seq<Moment>, quiet: seq<Moment>, q: Moment)
    requires b < |batches| && |quiet| == b && LoopRan(c, batches[..b], false, met, quiet)
    requires QuietsTo(c, met[b], q) && AllFinal(q.jobs)
    ensures LoopRan(c, batches, true, met, quiet + [q])
  {
    PairedOn(Quieting(c), met, quiet, q, []);
    assert met + [] == met;
    forall k: nat | k + 1 < |met| ensures GoesOn(batches, met, quiet + [q], k) {
      assert GoesOn(batches[..b], met, quiet, k) && batches[..b][k] == batches[k];
    }
  }

  // ---- lemmas for the loops ----

  /** As many events of the pass as there are answers have been delivered, a requested
      cancel was seen by every poll, and it is requested only if it was or a job has heard of it. */
  predicate Underway(c: Config, w: Moment, evs: seq<SchedEvent>, answers: seq<Answers>, now: Moment) {
    && |answers| <= |evs| && Ran(c, w.jobs, PassCalls(evs[..|answers|], answers), now.jobs)
    && Spreads(w.cancel, answers, now.cancel, now.jobs) && Nearer(w, |answers|, now)
  }

  /** The waiting jobs are n events closer to their start, and no job has forgotten a cancel. */
  predicate Nearer(w: Moment, n: nat, now: Moment) {
    && |now.jobs| == |w.jobs| && UntoldJobs(now.jobs) <= UntoldJobs(w.jobs) && (w.cancel ==> now.cancel)
    && Waiting(States(now.jobs)) + n <= Waiting(States(w.jobs))
  }

  predicate OneDelivered(c: Config, w: Moment, e: SchedEvent, a: Answers, now: Moment) {
    && Ran(c, w.jobs, [Call(e.job, Scheduled(e.event), a)], now.jobs)
    && Spreads(w.cancel, [a], now.cancel, now.jobs) && Nearer(w, 1, now)
  }

  lemma NoneDelivered(c: Config, w: Moment, evs: seq<SchedEvent>)
    requires WellFormed(c, |w.jobs|)
    ensures Underway(c, w, evs, [], w)
  {
    assert PassCalls(evs[..0], []) == [];
    RanNothing(c, w.jobs);
  }

  lemma OneMoreDelivered(c: Config, w: Moment, evs: seq<SchedEvent>, answers: seq<Answers>, mid: Moment, a: Answers,
                         now: Moment)
    requires Underway(c, w, evs, answers, mid) && |answers| < |evs| && OneDelivered(c, mid, evs[|answers|], a, now)
    ensures Underway(c, w, evs, answers + [a], now)
  {
    var e := evs[|answers|];
    PassGrows(evs, answers, a);
    RanJoins(c, w.jobs, PassCalls(evs[..|answers|], answers), mid.jobs, [Call(e.job, Scheduled(e.event), a)], now.jobs);
    SpreadsOn(w.cancel, answers, mid, a, now);
  }

  lemma PassGrows(evs: seq<SchedEvent>, answers: seq<Answers>, a: Answers)
    requires |answers| < |evs|
    ensures var k, e := |answers|, evs[|answers|];
            PassCalls(evs[..k + 1], answers + [a])
            == PassCalls(evs[..k], answers) + [Call(e.job, Scheduled(e.event), a)]
  {
  }

  lemma QuietIsReached(c: Config, w: Moment, first: Moment, trail: seq<Moment>, now: Moment)
    requires Broadcasts(w, first) && Path(c, first, trail, now)
    requires (w.cancel ==> now.cancel) && |now.jobs| == |w.jobs| && WellFormed(c, |now.jobs|)
    requires Pass(c, States(now.jobs)) == [] && (now.cancel ==> UntoldJobs(now.jobs) == {})
    ensures QuietsTo(c, w, now)
  {
  }

  /** A requested cancel is seen by every poll, and it is requested only once a job has heard of it. */
  predicate Spreads(requested: bool, answers: seq<Answers>, cancel: bool, jobs: seq<Job>) {
    (requested ==> AllSee(answers)) && (cancel ==> requested || SomeHeard(jobs))
  }

  lemma SpreadsOn(requested: bool, answers: seq<Answers>, mid: Moment, a: Answers, now: Moment)
    requires Spreads(requested, answers, mid.cancel, mid.jobs) && Spreads(mid.cancel, [a], now.cancel, now.jobs)
    requires |mid.jobs| == |now.jobs| && UntoldJobs(now.jobs) <= UntoldJobs(mid.jobs) && (requested ==> mid.cancel)
    ensures Spreads(requested, answers + [a], now.cancel, now.jobs)
  {
    assert [a][0] == a;
    if SomeHeard(mid.jobs) {
      HeardStays(mid.jobs, now.jobs);
    }
  }

  /** What a job has heard it does not forget. */
  lemma HeardStays(was: seq<Job>, now: seq<Job>)
    requires |was| == |now| && UntoldJobs(now) <= UntoldJobs(was) && SomeHeard(was)
    ensures SomeHeard(now)
  {
    var i :| 0 <= i < |was| && was[i].heard.cancel;
    assert i !in UntoldJobs(was);
    assert i !in UntoldJobs(now);
  }

  /** A disabled job is skipped for that reason; another stays as it is. */
  predicate Disables(j: Job, disabled: bool, k: Job) {
    if disabled then k.state == Skipped && k.results.reason == TargetDisabled else k == j
  }

  /** How many jobs have ended and how many are running. */
  method CountEnds(st: seq<State>) returns (final: nat, running: nat)
    ensures final == |st| <==> forall i :: 0 <= i < |st| ==> IsFinal(st[i])
    ensures running == 0 <==> forall i :: 0 <= i < |st| ==> !IsRunning(st[i])
  {
    final, running := 0, 0;
    for i := 0 to |st|
      invariant 0 <= final <= i && (final == i <==> forall k :: 0 <= k < i ==> IsFinal(st[k]))
      invariant 0 <= running && (running == 0 <==> forall k :: 0 <= k < i ==> !IsRunning(st[k]))
    {
      if IsFinal(st[i]) {
        final := final + 1;
      }
      if IsRunning(st[i]) {
        running := running + 1;
      }
    }
  }

  /** What the loop makes of a quiet scheduler. */
  method Judge(c: Config, st: seq<State>) returns (done: bool, running: bool)
    requires WellFormed(c, |st|) && !HasLoop(c) && CapsOpen(c) && Pass(c, st) == []
    ensures (done <==> forall i :: 0 <= i < |st| ==> IsFinal(st[i])) && (done || running)
  {
    QuietMeansDoneOrRunning(c, st);
    var ended, live := CountEnds(st);
    return ended == |st|, live > 0;
  }
}
