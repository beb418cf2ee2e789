/** One run of a workflow, from the graph check to the end of the run loop. */
module Workflow {
  import opened Shell
  import opened Dag
  import opened Select
  import opened Sched
  import opened SchedFacts
  import opened Setup
  import opened Engine
  import opened EngineRuns
  import opened RunLoop

  /** How the run ended: refused before it began, out of events, every job final, or stuck. */
  datatype Exit = Usage | Unfinished | AllEnded | Stuck

  /** What is known of a job from its id: its target, its plan, whether its target is
      disabled, and of a target how many sessions it takes. */
  datatype Info = Info(
    target: string -> string,
    plan: string -> Plan,
    disabled: string -> bool,
    sessions: string -> nat)

  function Map<T>(jobs: seq<DagJob>, f: string -> T): (r: seq<T>)
    ensures |r| == |jobs| && forall i :: 0 <= i < |r| ==> r[i] == f(jobs[i].id)
  {
    seq(|jobs|, i requires 0 <= i < |jobs| => f(jobs[i].id))
  }

  /** What was run, and how it went: the list, its configuration and the targets of the
      groups, the loop's moments, every call to a handler, and the jobs at the end. */
  datatype Story = Story(
    list: seq<DagJob>, config: Config, names: seq<string>,
    met: seq<Moment>, quiet: seq<Moment>, calls: seq<Call>, jobs: seq<Job>)

  /** The configuration of a list of jobs: needs by index, one group a remote target
      with its sessions as cap, and the parallel limit. */
  predicate ConfigOf(list: seq<DagJob>, info: Info, maxParallel: int, c: Config, names: seq<string>) {
    && AllKnown(list) && c.needs == NeedsOf(list) && c.maxParallel == maxParallel
    && |c.group| == |list| && |c.caps| == |names| && DistinctNames(names) && LOCAL !in names
    && (forall i :: 0 <= i < |list| ==> GroupOf(names, info.target(list[i].id), c.group[i]))
    && (forall g :: 0 <= g < |names| ==> c.caps[g] == info.sessions(names[g]))
  }

  /** The story of a run of the list: exactly that list, configured so, its jobs new
      with their own plans; the disabled ones skipped first; then the loop over the
      batches; every change a call that was allowed in its turn. */
  ghost predicate Tells(t: Story, info: Info, maxParallel: int, batches: seq<seq<WorldEvent>>, ended: bool) {
    var start := NewJobs(Map(t.list, info.plan));
    && ConfigOf(t.list, info, maxParallel, t.config, t.names)
    && Ran(t.config, start, t.calls, t.jobs)
    && LoopRan(t.config, batches, ended, t.met, t.quiet)
    && |t.met[0].jobs| == |t.list|
    && (forall i :: 0 <= i < |t.list| ==> Disables(start[i], info.disabled(t.list[i].id), t.met[0].jobs[i]))
    && t.jobs == (if ended then t.quiet[|t.quiet| - 1].jobs else t.met[|t.met| - 1].jobs)
  }

  /** The run loop on a ranked graph. */
  method RunJobs(jobs: seq<DagJob>, info: Info, maxParallel: int, batches: seq<seq<WorldEvent>>,
                 ghost rank: string -> int)
    returns (exit: Exit, ghost t: Story)
    requires AllKnown(jobs) && Ranked(jobs, rank) && forall t :: info.sessions(t) >= 1
    ensures exit == AllEnded || exit == Unfinished
    ensures t.list == jobs && Tells(t, info, maxParallel, batches, exit == AllEnded)
    ensures exit == AllEnded ==> AllFinal(t.jobs)
  {
    var group, caps, names := BuildGroups(Map(jobs, info.target), info.sessions);
    var c := Config(NeedsOf(jobs), group, caps, maxParallel);
    ghost var ranks := RankedConfig(jobs, rank, group, caps, maxParallel);
    RankedHasNoLoop(c, ranks);
    var loop := new Loop(c, Map(jobs, info.plan));
    var rc, finished; ghost var met, quiet, calls;
    rc, finished, met, quiet, calls := loop.RunAll(Map(jobs, info.disabled), batches);
    t := Story(jobs, c, names, met, quiet, calls, loop.jobs);
    exit := if rc < 0 then Stuck else if finished then AllEnded else Unfinished;
  }

  /** The jobs that are run: all of them, or those that the chosen ones reach. */
  ghost predicate ListRun(all: seq<DagJob>, chosen: seq<string>, list: seq<DagJob>) {
    if chosen == [] then list == all else exists keep :: MarksReached(all, chosen, keep) && list == Kept(all, keep)
  }

  /** Whatever the workflow, the selection, the limits and the outside world: the run is
      refused exactly for an unknown need, a cycle or an unknown chosen id; else it is a
      run of exactly the jobs selected, and never finds jobs that are neither finished nor runnable. */
  method RunWorkflow(jobs: array<DagJob>, chosen: seq<string>, info: Info, maxParallel: int,
                     batches: seq<seq<WorldEvent>>) returns (exit: Exit, ghost t: Story)
    requires UniqueIds(jobs[..]) && forall t :: info.sessions(t) >= 1
    modifies jobs
    ensures exit != Stuck
    ensures exit == Usage <==>
              || !AllKnown(old(jobs[..])) || !Acyclic(old(jobs[..]))
              || exists k :: 0 <= k < |chosen| && Index(old(jobs[..]), chosen[k]) < 0
    ensures exit != Usage ==>
              ListRun(old(jobs[..]), chosen, t.list) && Tells(t, info, maxParallel, batches, exit == AllEnded)
    ensures exit == AllEnded ==> AllFinal(t.jobs)
  {
    t := Story([], Config([], [], [], 0), [], [], [], [], []);
    var all := jobs[..];
    var status, cycle, order := Check(all);
    if !status.Ok? {
      return Usage, t;
    }
    OrderRanks(all, order);
    ghost var rank := OrderRank(all, order);
    if chosen == [] {
      exit, t := RunJobs(all, info, maxParallel, batches, rank);
      return;
    }
    var ok, kept, keep := SelectJobs(jobs, chosen);
    if !ok {
      return Usage, t;
    }
    SelectionIsSound(all, chosen, keep, rank);
    exit, t := RunJobs(jobs[..kept], info, maxParallel, batches, rank);
  }
}
