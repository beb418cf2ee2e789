/** From the checked graph to the run: needs by index, session groups, and the
proof that an accepted graph, whole or selected, cannot get the run stuck. */
module Setup {
  import opened Dag
  import opened Select
  import opened Sched
  import opened SchedFacts

  function NeedAt(jobs: seq<DagJob>, i: nat, k: nat): nat
    requires AllKnown(jobs) && i < |jobs| && k < |jobs[i].needs|
  {
    assert NeedKnown(jobs, i, k);
    Index(jobs, jobs[i].needs[k])
  }

  function NeedIndexes(jobs: seq<DagJob>, i: nat): (r: seq<nat>)
    requires AllKnown(jobs) && i < |jobs|
    ensures |r| == |jobs[i].needs|
    ensures forall k :: 0 <= k < |r| ==> r[k] == Index(jobs, jobs[i].needs[k])
  {
    seq(|jobs[i].needs|, k requires 0 <= k < |jobs[i].needs| => NeedAt(jobs, i, k))
  }

  /** Each job's needs as indexes into the list. */
  function NeedsOf(jobs: seq<DagJob>): (r: seq<seq<nat>>)
    requires AllKnown(jobs)
    ensures |r| == |jobs|
    ensures forall i :: 0 <= i < |r| ==> r[i] == NeedIndexes(jobs, i)
  {
    seq<seq<nat>>(|jobs|, i requires 0 <= i < |jobs| => NeedIndexes(jobs, i))
  }

  const LOCAL := "local"

  /** Group g stands for target t: 0 for local, otherwise the names' own numbering. */
  predicate GroupOf(names: seq<string>, t: string, g: nat) {
    if t == LOCAL then g == 0 else 0 < g <= |names| && names[g - 1] == t
  }

  predicate DistinctNames(names: seq<string>) {
    forall a, b :: 0 <= a < b < |names| ==> names[a] != names[b]
  }

  /** Group numbers for the scheduler: two jobs share one exactly if they share a
      remote target, and its cap is the target's number of sessions. */
  method BuildGroups(targets: seq<string>, sessions: string -> nat)
    returns (group: seq<nat>, caps: seq<nat>, names: seq<string>)
    ensures |group| == |targets| && |caps| == |names|
    ensures forall i :: 0 <= i < |group| ==> GroupOf(names, targets[i], group[i])
    ensures DistinctNames(names) && LOCAL !in names
    ensures forall g :: 0 <= g < |caps| ==> caps[g] == sessions(names[g])
  {
    group, caps, names := [], [], [];
    for i := 0 to |targets|
      invariant |group| == i && |caps| == |names|
      invariant forall k :: 0 <= k < i ==> GroupOf(names, targets[k], group[k])
      invariant DistinctNames(names) && LOCAL !in names
      invariant forall g :: 0 <= g < |caps| ==> caps[g] == sessions(names[g])
    {
      if targets[i] == LOCAL {
        group := group + [0];
        continue;
      }
      var g := 0;
      while g < |names| && names[g] != targets[i]
        invariant 0 <= g <= |names| && forall k :: 0 <= k < g ==> names[k] != targets[i]
      {
        g := g + 1;
      }
      if g == |names| {
        names := names + [targets[i]];
        caps := caps + [sessions(targets[i])];
      }
      group := group + [g + 1];
    }
  }

  lemma SameGroupSameTarget(names: seq<string>, s: string, t: string, g: nat, h: nat)
    requires DistinctNames(names) && LOCAL !in names && GroupOf(names, s, g) && GroupOf(names, t, h)
    ensures g == h <==> s == t
  {
    if g > 0 && h > 0 && s == t {
      assert names[g - 1] == names[h - 1];
    }
  }

  /** A ranked graph gives a well-formed configuration whose needs lead down a rank. */
  lemma RankedConfig(jobs: seq<DagJob>, rank: string -> int, group: seq<nat>, caps: seq<nat>, maxParallel: int)
    returns (ranks: seq<nat>)
    requires AllKnown(jobs) && Ranked(jobs, rank)
    requires |group| == |jobs| && forall i :: 0 <= i < |group| ==> group[i] <= |caps|
    ensures WellFormed(Config(NeedsOf(jobs), group, caps, maxParallel), |jobs|)
    ensures RanksFall(Config(NeedsOf(jobs), group, caps, maxParallel), ranks)
  {
    ranks := seq(|jobs|, i requires 0 <= i < |jobs| => if rank(jobs[i].id) < 0 then 0 else rank(jobs[i].id));
    forall i, k | 0 <= i < |jobs| && 0 <= k < |jobs[i].needs|
      ensures Index(jobs, jobs[i].needs[k]) >= 0
      ensures ranks[Index(jobs, jobs[i].needs[k])] < ranks[i]
    {
      assert NeedKnown(jobs, i, k);
      assert jobs[Index(jobs, jobs[i].needs[k])].id == jobs[i].needs[k];
    }
  }
}
