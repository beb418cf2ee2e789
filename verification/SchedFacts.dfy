/** What a pass guarantees. */
module SchedFacts {
  import opened Lifecycle
  import opened Sched

  /** What a pending job waits for: that each of its needs has ended, one way or another;
      and they are met if each has ended in success. */
  lemma ResolvableMeans(c: Config, st: seq<State>, i: nat)
    requires WellFormed(c, |st|) && i < |st|
    ensures Resolvable(c, st, i) <==>
            && st[i] == Pending
            && forall n :: n in c.needs[i] ==> n < |st| && st[n] in {Success, Failed, Skipped, Cancelled}
    ensures NeedsSucceeded(c, st, i) <==> forall n :: n in c.needs[i] ==> n < |st| && st[n] == Success
  {
    forall k | 0 <= k < |c.needs[i]| ensures c.needs[i][k] in c.needs[i] {
    }
  }

  predicate IsResolution(c: Config, st: seq<State>, e: SchedEvent)
    requires WellFormed(c, |st|)
  {
    && e.job < |st| && Resolvable(c, st, e.job)
    && e.event == if NeedsSucceeded(c, st, e.job) then NeedsMet else NeedsFailed
  }

  predicate InOrder(out: seq<SchedEvent>) {
    forall k, m :: 0 <= k < m < |out| ==> out[k].job < out[m].job
  }

  lemma {:induction false} ResolvedOnly(c: Config, st: seq<State>, m: nat)
    requires WellFormed(c, |st|) && m <= |st|
    ensures forall k :: 0 <= k < |Resolved(c, st, m)| ==>
              Resolved(c, st, m)[k].job < m && IsResolution(c, st, Resolved(c, st, m)[k])
    ensures InOrder(Resolved(c, st, m))
  {
    if m > 0 {
      ResolvedOnly(c, st, m - 1);
    }
  }

  lemma {:induction false} ResolvedAll(c: Config, st: seq<State>, m: nat, i: nat)
    requires WellFormed(c, |st|) && i < m <= |st| && Resolvable(c, st, i)
    ensures exists k :: 0 <= k < |Resolved(c, st, m)| && Resolved(c, st, m)[k].job == i
  {
    var now := Resolved(c, st, m);
    if i < m - 1 {
      ResolvedAll(c, st, m - 1, i);
      var before := Resolved(c, st, m - 1);
      var k :| 0 <= k < |before| && before[k].job == i;
      assert now[k].job == i;
    } else {
      assert now[|now| - 1].job == i;
    }
  }

  /** The first phase tells exactly the pending jobs whose needs are all final, once each, in order. */
  lemma ResolvedExactly(c: Config, st: seq<State>)
    requires WellFormed(c, |st|)
    ensures forall k :: 0 <= k < |Resolved(c, st, |st|)| ==> IsResolution(c, st, Resolved(c, st, |st|)[k])
    ensures InOrder(Resolved(c, st, |st|))
    ensures forall i :: 0 <= i < |st| && Resolvable(c, st, i) ==>
              exists k :: 0 <= k < |Resolved(c, st, |st|)| && Resolved(c, st, |st|)[k].job == i
  {
    ResolvedOnly(c, st, |st|);
    forall i | 0 <= i < |st| && Resolvable(c, st, i)
      ensures exists k :: 0 <= k < |Resolved(c, st, |st|)| && Resolved(c, st, |st|)[k].job == i
    {
      ResolvedAll(c, st, |st|, i);
    }
  }

  /** Together with what is running, the grants are within the limit and the cap of group g, if that was. */
  predicate Fitting(c: Config, st: seq<State>, evs: seq<SchedEvent>, g: nat)
    requires |st| <= |c.group|
  {
    && (c.maxParallel > 0 && Running(st) <= c.maxParallel ==> Running(st) + |evs| <= c.maxParallel)
    && (0 < g <= |c.caps| && InGroup(c, st, g) <= c.caps[g - 1] ==>
          InGroup(c, st, g) + GrantsIn(c, evs, g) <= c.caps[g - 1])
  }

  lemma OneMoreGrant(c: Config, a: seq<SchedEvent>, i: nat, g: nat)
    requires i < |c.group|
    ensures GrantsIn(c, a + [SchedEvent(i, SlotGranted)], g) == GrantsIn(c, a, g) + One(c.group[i] == g)
  {
    assert (a + [SchedEvent(i, SlotGranted)])[..|a|] == a;
  }

  lemma FittingOn(c: Config, st: seq<State>, i: nat, a: seq<SchedEvent>, g: nat)
    requires WellFormed(c, |st|) && i < |st| && Fitting(c, st, a, g)
    requires !SlotsFull(c, st, |a|) && !GroupFull(c, st, a, c.group[i])
    ensures Fitting(c, st, a + [SchedEvent(i, SlotGranted)], g)
  {
    OneMoreGrant(c, a, i, g);
  }

  /** Grants never take a limit over its cap. */
  lemma {:induction false} GrantsFit(c: Config, st: seq<State>, m: nat, g: nat)
    requires WellFormed(c, |st|) && m <= |st|
    ensures Fitting(c, st, Granted(c, st, m), g)
  {
    if m > 0 {
      var a := Granted(c, st, m - 1);
      GrantsFit(c, st, m - 1, g);
      GrantedNext(c, st, m - 1, a);
      if Granted(c, st, m) != a {
        FittingOn(c, st, m - 1, a, g);
      }
    }
  }

  // ---- counting, as sets ----

  /** The running jobs, and those of one group. */
  function Busy(st: seq<State>): set<nat> {
    set j: nat | j < |st| && IsRunning(st[j])
  }

  function BusyIn(c: Config, st: seq<State>, g: nat): set<nat> {
    set j: nat | j < |st| && j < |c.group| && c.group[j] == g && IsRunning(st[j])
  }

  /** b is a with x, if yes. */
  lemma OneMore(a: set<nat>, b: set<nat>, x: nat, yes: bool)
    requires x !in a && forall y :: y in b <==> y in a || (yes && y == x)
    ensures |b| == |a| + One(yes)
  {
    if yes {
      assert b == a + {x};
    } else {
      assert b == a;
    }
  }

  lemma {:induction false} BusyIs(st: seq<State>)
    ensures Running(st) == |Busy(st)|
  {
    if st != [] {
      var n := |st| - 1;
      BusyIs(st[..n]);
      OneMore(Busy(st[..n]), Busy(st), n, IsRunning(st[n]));
    }
  }

  lemma {:induction false} BusyInIs(c: Config, st: seq<State>, g: nat)
    requires |st| <= |c.group|
    ensures InGroup(c, st, g) == |BusyIn(c, st, g)|
  {
    if st != [] {
      var n := |st| - 1;
      BusyInIs(c, st[..n], g);
      OneMore(BusyIn(c, st[..n], g), BusyIn(c, st, g), n, c.group[n] == g && IsRunning(st[n]));
    }
  }

  lemma RunningIs(c: Config, st: seq<State>, g: nat)
    requires |st| <= |c.group|
    ensures Running(st) == |Busy(st)| && InGroup(c, st, g) == |BusyIn(c, st, g)|
  {
    BusyIs(st);
    BusyInIs(c, st, g);
  }

  /** The jobs below i that are granted a slot, and those of one group. */
  function Given(evs: seq<SchedEvent>, i: nat): set<nat> {
    set j: nat | j < i && SchedEvent(j, SlotGranted) in evs
  }

  function GivenIn(c: Config, evs: seq<SchedEvent>, i: nat, g: nat): set<nat> {
    set j: nat | j < i && j < |c.group| && c.group[j] == g && SchedEvent(j, SlotGranted) in evs
  }

  /** The events are as many as the jobs below i that they grant, in all and of one group. */
  predicate Counted(c: Config, evs: seq<SchedEvent>, i: nat, g: nat) {
    && (forall k :: 0 <= k < |evs| ==> evs[k].job < i)
    && |evs| == |Given(evs, i)| && GrantsIn(c, evs, g) == |GivenIn(c, evs, i, g)|
  }

  lemma CountedOn(c: Config, a: seq<SchedEvent>, b: seq<SchedEvent>, i: nat, g: nat)
    requires i < |c.group| && Counted(c, a, i, g) && (b == a || b == a + [SchedEvent(i, SlotGranted)])
    ensures Counted(c, b, i + 1, g)
  {
    OneMoreGiven(c, a, b, i, g);
    assert b != a ==> b[..|b| - 1] == a;
  }

  lemma {:induction false} GivenIs(c: Config, st: seq<State>, m: nat, g: nat)
    requires WellFormed(c, |st|) && m <= |st|
    ensures Counted(c, Granted(c, st, m), m, g)
  {
    if m > 0 {
      GivenIs(c, st, m - 1, g);
      GrantedNext(c, st, m - 1, Granted(c, st, m - 1));
      CountedOn(c, Granted(c, st, m - 1), Granted(c, st, m), m - 1, g);
    }
  }

  lemma OneMoreGiven(c: Config, a: seq<SchedEvent>, b: seq<SchedEvent>, i: nat, g: nat)
    requires i < |c.group| && forall k :: 0 <= k < |a| ==> a[k].job < i
    requires b == a || b == a + [SchedEvent(i, SlotGranted)]
    ensures |Given(b, i + 1)| == |Given(a, i)| + One(b != a)
    ensures |GivenIn(c, b, i + 1, g)| == |GivenIn(c, a, i, g)| + One(b != a && c.group[i] == g)
  {
    assert SchedEvent(i, SlotGranted) !in a;
    OneMore(Given(a, i), Given(b, i + 1), i, b != a);
    OneMore(GivenIn(c, a, i, g), GivenIn(c, b, i + 1, g), i, b != a && c.group[i] == g);
  }

  /** What is granted to the jobs below i is settled before the turn of job i. */
  lemma {:induction false} SettledBefore(c: Config, st: seq<State>, i: nat, m: nat)
    requires WellFormed(c, |st|) && i <= m <= |st|
    ensures forall j: nat :: j < i ==>
              (SchedEvent(j, SlotGranted) in Granted(c, st, m) <==> SchedEvent(j, SlotGranted) in Granted(c, st, i))
    decreases m
  {
    if i < m {
      SettledBefore(c, st, i, m - 1);
    }
  }

  // ---- grants ----

  /** What decides when the turn of job i comes. */
  lemma OwnTurn(c: Config, st: seq<State>, i: nat)
    requires WellFormed(c, |st|) && i < |st|
    ensures var a, g := Granted(c, st, i), c.group[i];
            SchedEvent(i, SlotGranted) in Granted(c, st, i + 1) <==>
              && st[i] == Ready
              && (c.maxParallel <= 0 || Running(st) + |a| < c.maxParallel)
              && (g == 0 || InGroup(c, st, g) + GrantsIn(c, a, g) < c.caps[g - 1])
  {
    var a := Granted(c, st, i);
    GrantedJobs(c, st, i);
    GrantedNext(c, st, i, a);
    LastIsNew(a, i);
  }

  lemma LastIsNew(a: seq<SchedEvent>, i: nat)
    requires forall k :: 0 <= k < |a| ==> a[k].job < i
    ensures SchedEvent(i, SlotGranted) !in a && SchedEvent(i, SlotGranted) in a + [SchedEvent(i, SlotGranted)]
  {
  }

  /** Job i is granted a slot if and only if it is ready, fewer jobs than the limit are
      running or granted before it, and fewer of its group than the group's cap. */
  lemma GrantsExactly(c: Config, st: seq<State>, i: nat)
    requires WellFormed(c, |st|) && i < |st|
    ensures var evs, g := Granted(c, st, |st|), c.group[i];
            SchedEvent(i, SlotGranted) in evs <==>
              && st[i] == Ready
              && (c.maxParallel <= 0 || |Busy(st)| + |Given(evs, i)| < c.maxParallel)
              && (g == 0 || |BusyIn(c, st, g)| + |GivenIn(c, evs, i, g)| < c.caps[g - 1])
  {
    var evs, a, g := Granted(c, st, |st|), Granted(c, st, i), c.group[i];
    SettledBefore(c, st, i, |st|);
    SettledBefore(c, st, i + 1, |st|);
    assert Given(evs, i) == Given(a, i) && GivenIn(c, evs, i, g) == GivenIn(c, a, i, g);
    GivenIs(c, st, i, g);
    RunningIs(c, st, g);
    OwnTurn(c, st, i);
  }

  /** A ready job that a pass with grants leaves waiting is blocked by a limit that is
      really full, counting the running jobs and the granted ones. */
  lemma GrantsAreMaximal(c: Config, st: seq<State>, i: nat)
    requires WellFormed(c, |st|) && i < |st| && st[i] == Ready && SchedEvent(i, SlotGranted) !in Granted(c, st, |st|)
    ensures var evs, g := Granted(c, st, |st|), c.group[i];
            || (c.maxParallel > 0 && |Busy(st)| + |Given(evs, |st|)| >= c.maxParallel)
            || (g > 0 && |BusyIn(c, st, g)| + |GivenIn(c, evs, |st|, g)| >= c.caps[g - 1])
  {
    var evs, g := Granted(c, st, |st|), c.group[i];
    GrantsExactly(c, st, i);
    FewerBelow(Given(evs, i), Given(evs, |st|));
    FewerBelow(GivenIn(c, evs, i, g), GivenIn(c, evs, |st|, g));
  }

  lemma {:induction false} FewerBelow(a: set<nat>, b: set<nat>)
    requires a <= b
    ensures |a| <= |b|
    decreases a
  {
    if a != {} {
      var x :| x in a;
      FewerBelow(a - {x}, b - {x});
    }
  }

  /** When a pass returns nothing, no pending job can be resolved, and every ready job
      waits for a limit that the running jobs have filled. */
  lemma QuietPass(c: Config, st: seq<State>)
    requires WellFormed(c, |st|) && Pass(c, st) == []
    ensures forall i :: 0 <= i < |st| ==> !Resolvable(c, st, i)
    ensures forall i :: 0 <= i < |st| && st[i] == Ready ==>
              || (c.maxParallel > 0 && |Busy(st)| >= c.maxParallel)
              || (c.group[i] > 0 && |BusyIn(c, st, c.group[i])| >= c.caps[c.group[i] - 1])
  {
    ResolvedExactly(c, st);
    forall i | 0 <= i < |st| && st[i] == Ready
      ensures || (c.maxParallel > 0 && |Busy(st)| >= c.maxParallel)
              || (c.group[i] > 0 && |BusyIn(c, st, c.group[i])| >= c.caps[c.group[i] - 1])
    {
      GrantsAreMaximal(c, st, i);
      assert Given([], |st|) == {} && GivenIn(c, [], |st|, c.group[i]) == {};
    }
  }

  /** A pass resolves needs as long as there are any to resolve, and only then grants slots. */
  lemma PassIs(c: Config, st: seq<State>)
    requires WellFormed(c, |st|)
    ensures (exists i :: 0 <= i < |st| && Resolvable(c, st, i)) ==> Pass(c, st) == Resolved(c, st, |st|)
    ensures (forall i :: 0 <= i < |st| ==> !Resolvable(c, st, i)) ==> Pass(c, st) == Granted(c, st, |st|)
  {
    ResolvedExactly(c, st);
    var r := Resolved(c, st, |st|);
    if r != [] {
      assert IsResolution(c, st, r[0]);
    }
  }

  // ---- progress ----

  /** The needs have no cycle: they lead down a rank. */
  predicate RanksFall(c: Config, rank: seq<nat>) {
    && |rank| == |c.needs|
    && forall i, k :: 0 <= i < |c.needs| && 0 <= k < |c.needs[i]| ==>
         c.needs[i][k] < |rank| && rank[c.needs[i][k]] < rank[i]
  }

  lemma {:induction false} NoneRunning(c: Config, st: seq<State>, g: nat)
    requires |st| <= |c.group| && forall i :: 0 <= i < |st| ==> !IsRunning(st[i])
    ensures Running(st) == 0 && InGroup(c, st, g) == 0
  {
    if st != [] {
      NoneRunning(c, st[..|st| - 1], g);
    }
  }

  /** Job i needs a job of the set. */
  predicate NeedsOneOf(c: Config, i: nat, loop: set<nat>) {
    i < |c.needs| && exists k :: 0 <= k < |c.needs[i]| && c.needs[i][k] in loop
  }

  /** Each job of the loop needs another one of it. */
  predicate NeedsLoop(c: Config, loop: set<nat>) {
    forall i :: i in loop ==> NeedsOneOf(c, i, loop)
  }

  ghost predicate HasLoop(c: Config) {
    exists loop: set<nat> :: loop != {} && NeedsLoop(c, loop)
  }

  lemma {:induction false} LoopHasNoRank(c: Config, rank: seq<nat>, loop: set<nat>, i: nat)
    requires RanksFall(c, rank) && NeedsLoop(c, loop) && i in loop
    ensures false
    decreases if i < |rank| then rank[i] else 0
  {
    assert NeedsOneOf(c, i, loop);
    var k :| 0 <= k < |c.needs[i]| && c.needs[i][k] in loop;
    LoopHasNoRank(c, rank, loop, c.needs[i][k]);
  }

  lemma RankedHasNoLoop(c: Config, rank: seq<nat>)
    requires RanksFall(c, rank)
    ensures !HasLoop(c)
  {
    forall loop: set<nat> ensures loop == {} || !NeedsLoop(c, loop) {
      if NeedsLoop(c, loop) && loop != {} {
        var i :| i in loop;
        LoopHasNoRank(c, rank, loop, i);
      }
    }
  }

  /** The jobs that are left pending when all others have ended need each other. */
  lemma PendingIsLoop(c: Config, st: seq<State>) returns (loop: set<nat>)
    requires WellFormed(c, |st|) && forall i :: 0 <= i < |st| ==> st[i] == Pending || IsFinal(st[i])
    requires forall i :: 0 <= i < |st| ==> !Resolvable(c, st, i)
    ensures NeedsLoop(c, loop) && forall i: nat :: i < |st| && st[i] == Pending ==> i in loop
  {
    loop := set i: nat | i < |st| && st[i] == Pending;
    forall i | i in loop ensures NeedsOneOf(c, i, loop) {
      assert !Resolvable(c, st, i);
      var k :| 0 <= k < |c.needs[i]| && !IsFinal(st[c.needs[i][k]]);
      assert c.needs[i][k] in loop;
    }
  }

  /** Every group a job is in takes at least one session. */
  predicate CapsOpen(c: Config) {
    forall i :: 0 <= i < |c.group| && 0 < c.group[i] <= |c.caps| ==> c.caps[c.group[i] - 1] >= 1
  }

  /** Whatever the states: with no loop of needs and no zero cap, a quiet scheduler
      means that every job has ended or some job is running. */
  lemma QuietMeansDoneOrRunning(c: Config, st: seq<State>)
    requires WellFormed(c, |st|) && !HasLoop(c) && CapsOpen(c) && Pass(c, st) == []
    ensures (forall i :: 0 <= i < |st| ==> IsFinal(st[i])) || (exists i :: 0 <= i < |st| && IsRunning(st[i]))
  {
    if !exists i :: 0 <= i < |st| && IsRunning(st[i]) {
      QuietPass(c, st);
      forall i | 0 <= i < |st| ensures st[i] != Ready {
        NoneRunning(c, st, c.group[i]);
        RunningIs(c, st, c.group[i]);
      }
      var loop := PendingIsLoop(c, st);
      assert loop == {};
    }
  }

  // ---- counting ----

  function One(b: bool): nat {
    if b then 1 else 0
  }

  lemma {:induction false} RunningUpdate(c: Config, st: seq<State>, i: nat, s: State, g: nat)
    requires i < |st| <= |c.group|
    ensures Running(st[i := s]) + One(IsRunning(st[i])) == Running(st) + One(IsRunning(s))
    ensures InGroup(c, st[i := s], g) + One(c.group[i] == g && IsRunning(st[i]))
            == InGroup(c, st, g) + One(c.group[i] == g && IsRunning(s))
  {
    var n := |st| - 1;
    if i == n {
      assert st[i := s][..n] == st[..n];
    } else {
      RunningUpdate(c, st[..n], i, s, g);
      assert st[i := s][..n] == st[..n][i := s];
    }
  }
}
