/** The run loop: passes of the scheduler, the operator's cancel, and the
events of the outside world, on the jobs of one run. */
module Engine {
  import opened Lifecycle
  import opened Shell
  import opened ShellRuns
  import opened Sched
  import opened SchedFacts

  function States(jobs: seq<Job>): (st: seq<State>)
    ensures |st| == |jobs| && forall i :: 0 <= i < |st| ==> st[i] == jobs[i].state
  {
    seq(|jobs|, i requires 0 <= i < |jobs| => jobs[i].state)
  }

  /** Neither the parallel limit nor any group's cap is exceeded. */
  predicate WithinLimits(c: Config, st: seq<State>)
    requires |st| <= |c.group|
  {
    && (c.maxParallel > 0 ==> Running(st) <= c.maxParallel)
    && forall g :: 0 < g <= |c.caps| ==> InGroup(c, st, g) <= c.caps[g - 1]
  }

  /** A job that is ready, running, or ended by running has all its needs in success. */
  predicate NeedsHold(c: Config, st: seq<State>)
    requires WellFormed(c, |st|)
  {
    forall i :: 0 <= i < |st| && (st[i] == Ready || HasStarted(st[i])) ==> NeedsSucceeded(c, st, i)
  }

  /** What every reachable state of a run satisfies. */
  predicate Safe(c: Config, jobs: seq<Job>) {
    && WellFormed(c, |jobs|)
    && (forall i {:trigger Resting(jobs[i])} :: 0 <= i < |jobs| ==> Resting(jobs[i]))
    && WithinLimits(c, States(jobs)) && NeedsHold(c, States(jobs))
  }

  /** There is room for one more running job, job i. */
  predicate HasRoom(c: Config, st: seq<State>, i: nat)
    requires i < |st| <= |c.group|
  {
    && (c.maxParallel > 0 ==> Running(st) < c.maxParallel)
    && (0 < c.group[i] <= |c.caps| ==> InGroup(c, st, c.group[i]) < c.caps[c.group[i] - 1])
  }

  /** An input the engine may hand to job i: what the outside world can do, or
      what the scheduler decided on the states as they are. */
  predicate Allowed(c: Config, jobs: seq<Job>, i: nat, x: Input)
    requires WellFormed(c, |jobs|) && i < |jobs|
  {
    && Possible(jobs[i], x)
    && (x.Scheduled? && x.e == NeedsMet ==> NeedsSucceeded(c, States(jobs), i))
    && (x.Scheduled? && x.e == SlotGranted ==> HasRoom(c, States(jobs), i))
  }

  lemma LimitsKept(c: Config, st: seq<State>, i: nat, s: State)
    requires WellFormed(c, |st|) && i < |st| && WithinLimits(c, st)
    requires IsRunning(s) ==> IsRunning(st[i]) || HasRoom(c, st, i)
    ensures WithinLimits(c, st[i := s])
  {
    var now := st[i := s];
    RunningUpdate(c, st, i, s, 0);
    forall g | 0 < g <= |c.caps| ensures InGroup(c, now, g) <= c.caps[g - 1] {
      RunningUpdate(c, st, i, s, g);
    }
  }

  lemma NeedsKept(c: Config, st: seq<State>, i: nat, s: State)
    requires WellFormed(c, |st|) && i < |st| && NeedsHold(c, st)
    requires st[i] == Success ==> s == Success
    requires s == Ready || HasStarted(s) ==> NeedsSucceeded(c, st, i)
    ensures NeedsHold(c, st[i := s])
  {
  }

  /** Handing one allowed input to one job keeps the whole run safe. */
  lemma InputKeepsSafe(c: Config, jobs: seq<Job>, i: nat, x: Input, a: Answers)
    requires Safe(c, jobs) && i < |jobs| && Allowed(c, jobs, i, x)
    ensures Safe(c, jobs[i := Handle(jobs[i], x, a)])
    ensures HandledState(jobs[i], x, Handle(jobs[i], x, a))
  {
    HandleKeepsSound(jobs[i], x, a);
    UpdateKeepsSafe(c, jobs, i, x, Handle(jobs[i], x, a));
  }

  /** What an allowed input does to a state: a job comes to run or to be ready only
      if there is room or its needs have succeeded, and success stays. */
  lemma StateKept(c: Config, jobs: seq<Job>, i: nat, x: Input, k: Job)
    requires WellFormed(c, |jobs|) && NeedsHold(c, States(jobs)) && i < |jobs|
    requires Allowed(c, jobs, i, x) && HandledState(jobs[i], x, k)
    ensures IsRunning(k.state) ==> IsRunning(jobs[i].state) || HasRoom(c, States(jobs), i)
    ensures jobs[i].state == Success ==> k.state == Success
    ensures k.state == Ready || HasStarted(k.state) ==> NeedsSucceeded(c, States(jobs), i)
  {
  }

  lemma UpdateKeepsSafe(c: Config, jobs: seq<Job>, i: nat, x: Input, k: Job)
    requires Safe(c, jobs) && i < |jobs| && Allowed(c, jobs, i, x) && Resting(k) && HandledState(jobs[i], x, k)
    ensures Safe(c, jobs[i := k])
  {
    var st := States(jobs);
    assert States(jobs[i := k]) == st[i := k.state];
    StateKept(c, jobs, i, x, k);
    LimitsKept(c, st, i, k.state);
    NeedsKept(c, st, i, k.state);
  }

  // ---- delivering a pass ----

  lemma {:induction false} GrantsSplit(c: Config, a: seq<SchedEvent>, b: seq<SchedEvent>, g: nat)
    ensures GrantsIn(c, a + b, g) == GrantsIn(c, a, g) + GrantsIn(c, b, g)
  {
    if b == [] {
      assert a + b == a;
    } else {
      var n := |b| - 1;
      assert (a + b)[..|a + b| - 1] == a + b[..n];
      GrantsSplit(c, a, b[..n], g);
    }
  }

  /** Event e, decided on earlier states, is still right for the states as they are now. */
  predicate StillRight(c: Config, st: seq<State>, e: SchedEvent)
    requires WellFormed(c, |st|)
  {
    && e.job < |st|
    && match e.event
       case NeedsMet => st[e.job] == Pending && NeedsSucceeded(c, st, e.job)
       case NeedsFailed => st[e.job] == Pending
       case SlotGranted => st[e.job] == Ready
       case _ => false
  }

  /** The grants still to deliver fit under every limit. */
  predicate Budgeted(c: Config, st: seq<State>, todo: seq<SchedEvent>)
    requires WellFormed(c, |st|)
  {
    (exists k :: 0 <= k < |todo| && todo[k].event == SlotGranted) ==>
      && (c.maxParallel > 0 ==> Running(st) + |todo| <= c.maxParallel)
      && forall g :: 0 < g <= |c.caps| ==> InGroup(c, st, g) + GrantsIn(c, todo, g) <= c.caps[g - 1]
  }

  predicate Deliverable(c: Config, st: seq<State>, todo: seq<SchedEvent>)
    requires WellFormed(c, |st|)
  {
    && InOrder(todo)
    && (forall k :: 0 <= k < |todo| ==> StillRight(c, st, todo[k]))
    && (forall k :: 0 <= k < |todo| ==> (todo[k].event == SlotGranted <==> todo[0].event == SlotGranted))
    && Budgeted(c, st, todo)
  }

  /** What a pass decides is deliverable. */
  lemma PassIsDeliverable(c: Config, st: seq<State>)
    requires WellFormed(c, |st|) && WithinLimits(c, st)
    ensures Deliverable(c, st, Pass(c, st))
  {
    ResolvedExactly(c, st);
    GrantedJobs(c, st, |st|);
    GrantsFit(c, st, |st|, 0);
    forall g | 0 < g <= |c.caps|
      ensures InGroup(c, st, g) + GrantsIn(c, Granted(c, st, |st|), g) <= c.caps[g - 1]
    {
      GrantsFit(c, st, |st|, g);
    }
  }

  /** The first event can be delivered now, and the rest stay deliverable. */
  lemma DeliverOne(c: Config, st: seq<State>, todo: seq<SchedEvent>, s: State)
    requires WellFormed(c, |st|) && todo != [] && Deliverable(c, st, todo)
    requires todo[0].event == SlotGranted || !IsRunning(s)
    ensures todo[0].event == SlotGranted ==> HasRoom(c, st, todo[0].job)
    ensures Deliverable(c, st[todo[0].job := s], todo[1..])
  {
    var i, rest := todo[0].job, todo[1..];
    assert todo == [todo[0]] + rest;
    if todo[0].event == SlotGranted {
      RunningUpdate(c, st, i, s, 0);
      forall g | 0 < g <= |c.caps|
        ensures InGroup(c, st[i := s], g) + GrantsIn(c, rest, g) <= c.caps[g - 1]
        ensures c.group[i] == g ==> InGroup(c, st, g) < c.caps[g - 1]
      {
        RunningUpdate(c, st, i, s, g);
        GrantsSplit(c, [todo[0]], rest, g);
        assert GrantsIn(c, [todo[0]], g) == GrantsIn(c, [], g) + One(c.group[i] == g);
      }
    }
    forall k | 0 <= k < |rest| ensures StillRight(c, st[i := s], rest[k]) {
      assert rest[k] == todo[k + 1] && StillRight(c, st, todo[k + 1]);
      assert rest[k].job > i;
    }
  }

  // ---- termination measures ----

  /** How far the waiting jobs are from being started: a pass brings it down. */
  function Waiting(st: seq<State>): nat {
    if st == [] then 0 else Waiting(st[..|st| - 1]) + Weight(st[|st| - 1])
  }

  function Weight(s: State): nat {
    match s case Pending => 2 case Ready => 1 case _ => 0
  }

  lemma {:induction false} WaitingUpdate(st: seq<State>, i: nat, s: State)
    requires i < |st|
    ensures Waiting(st[i := s]) + Weight(st[i]) == Waiting(st) + Weight(s)
  {
    var n := |st| - 1;
    if i == n {
      assert st[i := s][..n] == st[..n];
    } else {
      WaitingUpdate(st[..n], i, s);
      assert st[i := s][..n] == st[..n][i := s];
    }
  }

  /** The jobs the cancel has not been sent to. */
  function UntoldJobs(jobs: seq<Job>): set<nat> {
    set i | 0 <= i < |jobs| && !jobs[i].heard.cancel
  }

  /** What epoll can report of a job. */
  predicate FromOutside(x: Input) {
    x.LeaderExits? || x.GroupGone? || x.StepTimerReady? || x.GraceTimerReady? || x.JobTimerReady?
  }

  predicate AllFinal(jobs: seq<Job>) {
    forall i :: 0 <= i < |jobs| ==> IsFinal(jobs[i].state)
  }

  lemma ToldStayTold(jobs: seq<Job>, i: nat, k: Job)
    requires i < |jobs| && (jobs[i].heard.cancel ==> k.heard.cancel)
    ensures UntoldJobs(jobs[i := k]) <= UntoldJobs(jobs)
  {
  }

  lemma FirstIsAllowed(c: Config, jobs: seq<Job>, todo: seq<SchedEvent>)
    requires WellFormed(c, |jobs|) && todo != [] && Deliverable(c, States(jobs), todo)
    ensures todo[0].job < |jobs| && Allowed(c, jobs, todo[0].job, Scheduled(todo[0].event))
  {
    assert StillRight(c, States(jobs), todo[0]);
    DeliverOne(c, States(jobs), todo, Pending);
  }

  lemma DeliveredOne(c: Config, jobs: seq<Job>, todo: seq<SchedEvent>, k: Job)
    requires WellFormed(c, |jobs|) && todo != [] && Deliverable(c, States(jobs), todo) && todo[0].job < |jobs|
    requires HandledState(jobs[todo[0].job], Scheduled(todo[0].event), k)
    ensures var now := jobs[todo[0].job := k];
            && Deliverable(c, States(now), todo[1..])
            && Waiting(States(now)) < Waiting(States(jobs))
            && UntoldJobs(now) <= UntoldJobs(jobs)
  {
    var i, st := todo[0].job, States(jobs);
    assert StillRight(c, st, todo[0]);
    assert States(jobs[i := k]) == st[i := k.state];
    DeliverOne(c, st, todo, k.state);
    WaitingUpdate(st, i, k.state);
    ToldStayTold(jobs, i, k);
  }

  lemma NoneRunningNow(c: Config, st: seq<State>)
    requires |st| <= |c.group| && forall i :: 0 <= i < |st| ==> !IsRunning(st[i])
    ensures WithinLimits(c, st)
  {
    NoneRunning(c, st, 0);
    forall g | 0 < g <= |c.caps| ensures InGroup(c, st, g) <= c.caps[g - 1] {
      NoneRunning(c, st, g);
    }
  }
}
