/** One scheduling pass as a function of the states, and the loops that compute it. */
module Sched {
  import opened Lifecycle

  /** What never changes during a run: needs by index, session groups (0 for
      none), the cap of each group, and the parallel limit (none if not positive). */
  datatype Config = Config(needs: seq<seq<nat>>, group: seq<nat>, caps: seq<nat>, maxParallel: int)

  predicate WellFormed(c: Config, n: nat) {
    && |c.needs| == n && |c.group| == n
    && (forall i, k :: 0 <= i < n && 0 <= k < |c.needs[i]| ==> c.needs[i][k] < n)
    && (forall i :: 0 <= i < n ==> c.group[i] <= |c.caps|)
  }

  datatype SchedEvent = SchedEvent(job: nat, event: Event)

  // ---- what the pass decides on ----

  predicate NeedsFinal(c: Config, st: seq<State>, i: nat)
    requires WellFormed(c, |st|) && i < |st|
  {
    forall k :: 0 <= k < |c.needs[i]| ==> IsFinal(st[c.needs[i][k]])
  }

  predicate NeedsSucceeded(c: Config, st: seq<State>, i: nat)
    requires WellFormed(c, |st|) && i < |st|
  {
    forall k :: 0 <= k < |c.needs[i]| ==> st[c.needs[i][k]] == Success
  }

  predicate Resolvable(c: Config, st: seq<State>, i: nat)
    requires WellFormed(c, |st|) && i < |st|
  {
    st[i] == Pending && NeedsFinal(c, st, i)
  }

  /** The pending jobs below m whose needs are all final, in order, each with its event. */
  function Resolved(c: Config, st: seq<State>, m: nat): seq<SchedEvent>
    requires WellFormed(c, |st|) && m <= |st|
  {
    if m == 0 then []
    else
      Resolved(c, st, m - 1) +
      if Resolvable(c, st, m - 1) then
        [SchedEvent(m - 1, if NeedsSucceeded(c, st, m - 1) then NeedsMet else NeedsFailed)]
      else []
  }

  function Running(st: seq<State>): nat {
    if st == [] then 0
    else Running(st[..|st| - 1]) + if IsRunning(st[|st| - 1]) then 1 else 0
  }

  /** How many jobs of group g are running. */
  function InGroup(c: Config, st: seq<State>, g: nat): nat
    requires |st| <= |c.group|
  {
    if st == [] then 0
    else
      var i := |st| - 1;
      InGroup(c, st[..i], g) + if c.group[i] == g && IsRunning(st[i]) then 1 else 0
  }

  /** How many of the granted jobs are of group g. */
  function GrantsIn(c: Config, granted: seq<SchedEvent>, g: nat): nat {
    if granted == [] then 0
    else
      var e := granted[|granted| - 1];
      GrantsIn(c, granted[..|granted| - 1], g) + if e.job < |c.group| && c.group[e.job] == g then 1 else 0
  }

  predicate SlotsFull(c: Config, st: seq<State>, granted: nat) {
    c.maxParallel > 0 && Running(st) + granted >= c.maxParallel
  }

  predicate GroupFull(c: Config, st: seq<State>, granted: seq<SchedEvent>, g: nat)
    requires WellFormed(c, |st|) && g <= |c.caps|
  {
    g > 0 && InGroup(c, st, g) + GrantsIn(c, granted, g) >= c.caps[g - 1]
  }

  /** The grants among the jobs below m: lowest index first, while the limits allow. */
  function Granted(c: Config, st: seq<State>, m: nat): seq<SchedEvent>
    requires WellFormed(c, |st|) && m <= |st|
  {
    if m == 0 then []
    else
      var g := Granted(c, st, m - 1);
      if st[m - 1] == Ready && !SlotsFull(c, st, |g|) && !GroupFull(c, st, g, c.group[m - 1]) then
        g + [SchedEvent(m - 1, SlotGranted)]
      else g
  }

  /** The whole pass: resolved needs first, and only if there are none, grants. */
  function Pass(c: Config, st: seq<State>): seq<SchedEvent>
    requires WellFormed(c, |st|)
  {
    var r := Resolved(c, st, |st|);
    if r != [] then r else Granted(c, st, |st|)
  }

  // ---- the loops ----

  method GroupUsed(c: Config, st: seq<State>, g: nat, out: seq<SchedEvent>) returns (used: nat)
    requires WellFormed(c, |st|) && forall k :: 0 <= k < |out| ==> out[k].job < |st|
    ensures used == InGroup(c, st, g) + GrantsIn(c, out, g)
  {
    used := 0;
    for i := 0 to |st|
      invariant used == InGroup(c, st[..i], g)
    {
      assert st[..i + 1][..i] == st[..i];
      if c.group[i] == g && IsRunning(st[i]) {
        used := used + 1;
      }
    }
    assert st[..|st|] == st;
    for i := 0 to |out|
      invariant used == InGroup(c, st, g) + GrantsIn(c, out[..i], g)
    {
      assert out[..i + 1][..i] == out[..i];
      if c.group[out[i].job] == g {
        used := used + 1;
      }
    }
    assert out[..|out|] == out;
  }

  method Resolve(c: Config, st: seq<State>) returns (out: seq<SchedEvent>)
    requires WellFormed(c, |st|)
    ensures out == Resolved(c, st, |st|)
  {
    out := [];
    for i := 0 to |st|
      invariant out == Resolved(c, st, i)
    {
      if st[i] == Pending {
        var allFinal, allSuccess := true, true;
        for k := 0 to |c.needs[i]|
          invariant allFinal <==> forall m :: 0 <= m < k ==> IsFinal(st[c.needs[i][m]])
          invariant allFinal ==> (allSuccess <==> forall m :: 0 <= m < k ==> st[c.needs[i][m]] == Success)
        {
          var s := st[c.needs[i][k]];
          if !IsFinal(s) {
            allFinal := false;
          } else if s != Success {
            allSuccess := false;
          }
        }
        if allFinal {
          out := out + [SchedEvent(i, if allSuccess then NeedsMet else NeedsFailed)];
        }
      }
    }
  }

  method CountRunning(st: seq<State>) returns (running: nat)
    ensures running == Running(st)
  {
    running := 0;
    for i := 0 to |st|
      invariant running == Running(st[..i])
    {
      assert st[..i + 1][..i] == st[..i];
      if IsRunning(st[i]) {
        running := running + 1;
      }
    }
    assert st[..|st|] == st;
  }

  /** Once the slots are full no later job is granted: the loop may stop. */
  lemma {:induction false} FullStaysFull(c: Config, st: seq<State>, m: nat, n: nat)
    requires WellFormed(c, |st|) && m <= n <= |st| && SlotsFull(c, st, |Granted(c, st, m)|)
    ensures Granted(c, st, n) == Granted(c, st, m)
    decreases n
  {
    if m < n {
      FullStaysFull(c, st, m, n - 1);
    }
  }

  lemma {:induction false} GrantedJobs(c: Config, st: seq<State>, m: nat)
    requires WellFormed(c, |st|) && m <= |st|
    ensures forall k :: 0 <= k < |Granted(c, st, m)| ==>
              var e := Granted(c, st, m)[k]; e.job < m && e.event == SlotGranted && st[e.job] == Ready
    ensures forall k, k' :: 0 <= k < k' < |Granted(c, st, m)| ==> Granted(c, st, m)[k].job < Granted(c, st, m)[k'].job
  {
    if m > 0 {
      GrantedJobs(c, st, m - 1);
    }
  }

  /** What the turn of job i adds to the grants before it. */
  lemma GrantedNext(c: Config, st: seq<State>, i: nat, a: seq<SchedEvent>)
    requires WellFormed(c, |st|) && i < |st| && a == Granted(c, st, i)
    ensures st[i] == Ready && !SlotsFull(c, st, |a|) && !GroupFull(c, st, a, c.group[i]) ==>
              Granted(c, st, i + 1) == a + [SchedEvent(i, SlotGranted)]
    ensures st[i] != Ready || SlotsFull(c, st, |a|) || GroupFull(c, st, a, c.group[i]) ==> Granted(c, st, i + 1) == a
  {
  }

  /** Whether the group of a job has no session left. */
  method SessionsTaken(c: Config, st: seq<State>, g: nat, out: seq<SchedEvent>) returns (full: bool)
    requires WellFormed(c, |st|) && g <= |c.caps| && forall k :: 0 <= k < |out| ==> out[k].job < |st|
    ensures full == GroupFull(c, st, out, g)
  {
    full := false;
    if g > 0 {
      var used := GroupUsed(c, st, g, out);
      full := used >= c.caps[g - 1];
    }
  }

  method Grant(c: Config, st: seq<State>) returns (out: seq<SchedEvent>)
    requires WellFormed(c, |st|)
    ensures out == Granted(c, st, |st|)
  {
    var running := CountRunning(st);
    out := [];
    for i := 0 to |st|
      invariant out == Granted(c, st, i)
    {
      GrantedNext(c, st, i, out);
      if st[i] != Ready {
        continue;
      }
      if c.maxParallel > 0 && running + |out| >= c.maxParallel {
        FullStaysFull(c, st, i, |st|);
        return;
      }
      GrantedJobs(c, st, i);
      var full := SessionsTaken(c, st, c.group[i], out);
      if full {
        continue;
      }
      out := out + [SchedEvent(i, SlotGranted)];
    }
  }

  method SchedPass(c: Config, st: seq<State>) returns (out: seq<SchedEvent>)
    requires WellFormed(c, |st|)
    ensures out == Pass(c, st)
  {
    out := Resolve(c, st);
    if out == [] {
      out := Grant(c, st);
    }
  }
}
