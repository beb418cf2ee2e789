/** What a job may ask of the outside world, and in which order: a reference
automaton that reads the effects one by one, and the proof that every job's
effects are accepted by it. */
module ShellProtocol {
  import opened Lifecycle
  import opened Shell
  import opened ShellSafety

  datatype Phase =
    | Fresh                 // the job has not been started
    | Refused               // it could not be started
    | Idle(next: int)       // no step is live; `next` is the next one
    | Live(step: int, term: bool, grace: bool, kill: bool, recorded: bool)
    | Drained(step: int)    // torn down, recorded, and its group found empty
    | Unspawned(step: int, recorded: bool)
    | Closing(step: int, next: int) // the job's outcome is recorded; `step`, if not -1, is still to be finished
    | Over(next: int)
    | Bad

  /** The protocol: SIGTERM once, then the grace timer once, SIGKILL at most once
      and only after both, one recorded outcome, the group found empty, and only
      then the next step. */
  function Advance(p: Phase, e: Effect): Phase {
    match e
    case Started(ok) => if p != Fresh then Bad else if ok then Idle(0) else Refused
    case Spawned(k) => if p == Idle(k) then Live(k, false, false, false, false) else Bad
    case SpawnFailed(k) => if p == Idle(k) then Unspawned(k, false) else Bad
    case Term(k) => if p == Live(k, false, false, false, false) then Live(k, true, false, false, false) else Bad
    case Grace(k) => if p == Live(k, true, false, false, false) then Live(k, true, true, false, false) else Bad
    case Kill(k) =>
      if p.Live? && p == Live(k, true, true, false, p.recorded) then Live(k, true, true, true, p.recorded) else Bad
    case Recorded(k) =>
      if p.Live? && p == Live(k, true, true, p.kill, false) then Live(k, true, true, p.kill, true)
      else if p == Unspawned(k, false) then Unspawned(k, true)
      else Bad
    case Emptied(k) => if p.Live? && p == Live(k, true, true, p.kill, true) then Drained(k) else Bad
    case Finished(k) =>
      if p == Drained(k) then Idle(k + 1)
      else if p == Closing(k, k) && k >= 0 then Closing(-1, k + 1)
      else Bad
    case JobRecorded =>
      if p.Fresh? || p.Refused? then Closing(-1, 0)
      else if p.Idle? then Closing(-1, p.next)
      else if p.Unspawned? && p.recorded then Closing(p.step, p.step)
      else Bad
    case Ended => if p.Closing? && p.step == -1 then Over(p.next) else Bad
  }

  function Watch(es: Effects): Phase {
    match es
    case NoEffects => Fresh
    case After(before, e) => Advance(Watch(before), e)
  }

  /** Where the protocol stands, as the job's state tells it. */
  function PhaseOf(j: Job): Phase {
    var k := j.run.cur;
    match j.state
    case Pending => Fresh
    case Ready => Fresh
    case BetweenSteps => if j.run.haveFollowup then Refused else Idle(k)
    case StepRunning(_) => if j.run.haveFollowup then Unspawned(k, false) else Live(k, false, false, false, false)
    case StepStopping(_) => Live(k, true, true, false, false)
    case StepKilling(_) => Live(k, true, true, true, false)
    case Settling(_, killed) => Live(k, true, true, killed, true)
    case _ => Over(k)
  }

  predicate Watched(j: Job) {
    Watch(j.effects) == PhaseOf(j)
  }

  lemma WatchOne(es: Effects, e: Effect)
    ensures Watch(After(es, e)) == Advance(Watch(es), e)
  {
  }

  lemma WatchTeardown(es: Effects, run: Run, r: Result, a: Answers)
    requires run.liveStep == run.cur && Watch(es) == Live(run.cur, false, false, false, false)
    ensures Watch(EffectsAfter(es, TermGrace, run, r, a)) == Live(run.cur, true, true, false, false)
    ensures Watch(EffectsAfter(es, TermGraceRecord, run, r, a)) == Live(run.cur, true, true, false, true)
  {
    var e1 := After(es, Term(run.cur));
    WatchOne(e1, Grace(run.cur));
    WatchOne(After(e1, Grace(run.cur)), Recorded(run.cur));
  }

  lemma WatchEnd(es: Effects, run: Run, r: Result, a: Answers)
    requires run.liveStep < 0
    requires Watch(es) == Idle(run.cur) || (run.cur == 0 && (Watch(es).Fresh? || Watch(es).Refused?))
    ensures Watch(EffectsAfter(es, EndRecorded, run, r, a)) == Over(run.cur)
  {
    WatchOne(After(es, JobRecorded), Ended);
  }

  lemma WatchUnspawned(es: Effects, run: Run, r: Result, a: Answers)
    requires run.liveStep == run.cur && Watch(es) == Unspawned(run.cur, false)
    ensures Watch(EffectsAfter(es, EndWithStep, run, r, a)) == Over(run.cur + 1)
  {
    var e1 := After(es, Recorded(run.cur));
    var e2 := After(e1, JobRecorded);
    WatchOne(es, Recorded(run.cur));
    WatchOne(e1, JobRecorded);
    WatchOne(e2, Finished(run.cur));
    WatchOne(After(e2, Finished(run.cur)), Ended);
  }

  /** What a step's effects add up to. */
  datatype Ledger =
    Ledger(spawned: nat, termed: nat, graced: nat, killed: nat, recorded: nat, emptied: nat, finished: nat)

  const NONE := Ledger(0, 0, 0, 0, 0, 0, 0)

  /** How often each effect occurs for step k. */
  function Tally(es: Effects, k: int): Ledger {
    match es
    case NoEffects => NONE
    case After(before, e) => Counted(Tally(before, k), e, k)
  }

  /** A finished step: recorded once and finished once; torn down exactly once if
      it was spawned, and never signalled if it was not. */
  predicate Done(t: Ledger) {
    && t.recorded == 1 && t.finished == 1
    && if t.spawned == 0 then t.termed == t.graced == t.killed == t.emptied == 0
       else t.spawned == t.termed == t.graced == t.emptied == 1 && t.killed <= 1
  }

  predicate Past(n: int, k: int, t: Ledger) {
    if 0 <= k < n then Done(t) else t == NONE
  }

  function Once(b: bool): nat {
    if b then 1 else 0
  }

  predicate Fits(p: Phase, k: int, t: Ledger) {
    match p
    case Fresh => t == NONE
    case Refused => t == NONE
    case Idle(n) => n >= 0 && Past(n, k, t)
    case Live(s, term, grace, kill, rec) =>
      s >= 0 && if k == s then t == Ledger(1, Once(term), Once(grace), Once(kill), Once(rec), 0, 0) else Past(s, k, t)
    case Drained(s) =>
      s >= 0 && if k == s then t == Ledger(1, 1, 1, t.killed, 1, 1, 0) && t.killed <= 1 else Past(s, k, t)
    case Unspawned(s, rec) =>
      s >= 0 && if k == s then t == Ledger(0, 0, 0, 0, Once(rec), 0, 0) else Past(s, k, t)
    case Closing(s, n) =>
      n >= 0 && if s >= 0 && k == s then s == n && t == Ledger(0, 0, 0, 0, 1, 0, 0) else Past(n, k, t)
    case Over(n) => n >= 0 && Past(n, k, t)
    case Bad => true
  }

  /** Whatever the automaton accepts adds up, step by step. */
  lemma {:induction false} Tallies(es: Effects, k: int)
    ensures Fits(Watch(es), k, Tally(es, k))
  {
    match es
    case NoEffects =>
    case After(before, e) =>
      Tallies(before, k);
      OneMoreTally(before, e, k);
  }

  lemma OneMoreTally(before: Effects, e: Effect, k: int)
    requires Fits(Watch(before), k, Tally(before, k))
    ensures Fits(Watch(After(before, e)), k, Tally(After(before, e), k))
  {
    var p, t := Watch(before), Tally(before, k);
    if e.Recorded? || e.Finished? || e.Emptied? {
      LateTally(p, e, k, t);
    } else {
      EarlyTally(p, e, k, t);
    }
  }

  /** A ledger with one more effect. */
  function Counted(t: Ledger, e: Effect, k: int): Ledger {
    match e
    case Spawned(s) => if s == k then t.(spawned := t.spawned + 1) else t
    case Term(s) => if s == k then t.(termed := t.termed + 1) else t
    case Grace(s) => if s == k then t.(graced := t.graced + 1) else t
    case Kill(s) => if s == k then t.(killed := t.killed + 1) else t
    case Recorded(s) => if s == k then t.(recorded := t.recorded + 1) else t
    case Emptied(s) => if s == k then t.(emptied := t.emptied + 1) else t
    case Finished(s) => if s == k then t.(finished := t.finished + 1) else t
    case _ => t
  }

  lemma EarlyTally(p: Phase, e: Effect, k: int, t: Ledger)
    requires Fits(p, k, t) && !e.Recorded? && !e.Finished? && !e.Emptied?
    ensures Fits(Advance(p, e), k, Counted(t, e, k))
  {
  }

  lemma LateTally(p: Phase, e: Effect, k: int, t: Ledger)
    requires Fits(p, k, t) && (e.Recorded? || e.Finished? || e.Emptied?)
    ensures Fits(Advance(p, e), k, Counted(t, e, k))
  {
  }

  /** es is what the effects were at some earlier time. */
  predicate Earlier(es: Effects, all: Effects) {
    es == all || (all.After? && Earlier(es, all.before))
  }

  lemma {:induction false} GoodFromTheStart(es: Effects, all: Effects)
    requires Earlier(es, all) && Watch(all) != Bad
    ensures Watch(es) != Bad
  {
    if es != all {
      GoodFromTheStart(es, all.before);
    }
  }

  /** When step k is spawned, every step before it has been recorded and
      finished, and if it was spawned, its group has been found empty. */
  lemma SpawnWaits(es: Effects, k: int, m: int)
    requires Watch(After(es, Spawned(k))) != Bad && 0 <= m < k
    ensures Done(Tally(es, m)) && Tally(es, m).emptied == Tally(es, m).spawned
  {
    Tallies(es, m);
  }

  // One move, by the state it starts from.

  lemma WatchedPending(j: Job, e: Event, p: Payload, r: Result, a: Answers)
    requires Watch(j.effects) == Fresh && j.run.liveStep == -1 && j.run.cur == 0 && RowPending(e, p, r)
    ensures Watched(AfterMove(j, e, r, a))
  {
    if e != NeedsMet {
      WatchEnd(j.effects, j.run, r, a);
    }
  }

  lemma WatchedReady(j: Job, e: Event, p: Payload, r: Result, a: Answers)
    requires Watched(j) && j.state == Ready && j.run.liveStep == -1 && j.run.cur == 0 && !j.run.haveFollowup
    requires RowReady(e, p, r)
    ensures Watched(AfterMove(j, e, r, a))
  {
    WatchEnd(j.effects, j.run, r, a);
  }

  lemma WatchedBetween(j: Job, e: Event, p: Payload, r: Result, a: Answers)
    requires j.run.liveStep == -1 && !j.run.haveFollowup && RowBetween(e, p, r)
    requires Watch(j.effects) == if e == StartFailed then Refused else Idle(j.run.cur)
    requires e == StartFailed ==> j.run.cur == 0
    ensures Watched(AfterMove(j, e, r, a))
  {
    if e != NextStep {
      WatchEnd(j.effects, j.run, r, a);
    }
  }

  lemma WatchedUnspawned(j: Job, r: Result, a: Answers)
    requires Watch(j.effects) == Unspawned(j.run.cur, false) && j.run.liveStep == j.run.cur && RowUnspawned(r)
    ensures Watched(AfterMove(j, StartFailed, r, a))
  {
    WatchUnspawned(j.effects, j.run, r, a);
  }

  lemma WatchedRunning(j: Job, e: Event, p: Payload, r: Result, a: Answers)
    requires Watched(j) && j.state.StepRunning? && j.run.liveStep == j.run.cur && !j.run.haveFollowup
    requires RowRunning(j.state.coe, e, p, r)
    ensures Watched(AfterMove(j, e, r, a))
  {
    WatchTeardown(j.effects, j.run, r, a);
  }

  lemma WatchedStopped(j: Job, e: Event, r: Result, a: Answers)
    requires Watched(j) && (j.state.StepStopping? || j.state.StepKilling?) && j.run.liveStep == j.run.cur
    requires RowStopped(j.state.coe, j.state.StepKilling?, e, r)
    ensures Watched(AfterMove(j, e, r, a))
  {
  }

  lemma WatchedSettling(j: Job, e: Event, r: Result, a: Answers)
    requires Watched(j) && j.state.Settling? && j.run.liveStep == j.run.cur
    requires e != GroupEmpty && RowSettling(j.state.verdict, j.state.killed, e, r)
    ensures Watched(AfterMove(j, e, r, a))
  {
  }

  lemma WatchedEmptied(j: Job, p: Payload, r: Result, a: Answers)
    requires Watched(j) && j.state.Settling? && j.run.liveStep == j.run.cur && !j.run.haveFollowup
    requires RowEmptied(j.state.verdict, p, r)
    ensures Watched(AfterMove(j, GroupEmpty, r, a))
  {
    var k := j.run.cur;
    WatchOne(j.effects, Emptied(k));
    WatchOne(After(j.effects, Emptied(k)), Finished(k));
    if j.state.verdict != Continue {
      WatchEnd(EmptyEffects(j.effects, j.run), FinishRun(j.run), r, a);
    }
  }
}
