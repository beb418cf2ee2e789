/** The --job option: the list shrinks in place to what the chosen jobs can reach
through needs, and what remains is still a graph that can be run. */
module Select {
  import opened Dag

  /** Job i is chosen, or needed by a chosen job through some path of needs. */
  ghost predicate Reached(jobs: seq<DagJob>, chosen: seq<string>, i: int) {
    exists p :: PathTo(jobs, chosen, i, p)
  }

  predicate PathTo(jobs: seq<DagJob>, chosen: seq<string>, i: int, p: seq<int>) {
    && p != [] && Walk(jobs, p) && p[|p| - 1] == i
    && exists c :: 0 <= c < |chosen| && Index(jobs, chosen[c]) == p[0]
  }

  predicate HoldsChosen(jobs: seq<DagJob>, chosen: seq<string>, keep: seq<bool>)
    requires |keep| == |jobs|
  {
    forall c :: 0 <= c < |chosen| ==> var i := Index(jobs, chosen[c]); i >= 0 && keep[i]
  }

  ghost function ReachedSet(jobs: seq<DagJob>, chosen: seq<string>): set<int> {
    set i | 0 <= i < |jobs| && Reached(jobs, chosen, i)
  }

  /** A set of jobs with every chosen one, and every need of its own members. */
  ghost predicate Holds(jobs: seq<DagJob>, chosen: seq<string>, reach: set<int>) {
    && (forall c :: 0 <= c < |chosen| && Index(jobs, chosen[c]) >= 0 ==> Index(jobs, chosen[c]) in reach)
    && (forall a, b :: a in reach && Needs(jobs, a, b) ==> b in reach)
  }

  predicate Within(keep: seq<bool>, reach: set<int>) {
    forall i :: 0 <= i < |keep| && keep[i] ==> i in reach
  }

  /** Needs of kept jobs below i, and the first k of job i, are kept. */
  predicate ClosedTo(jobs: seq<DagJob>, keep: seq<bool>, n: nat, m: nat)
    requires |keep| == |jobs|
  {
    forall i, k :: 0 <= i < |jobs| && 0 <= k < |jobs[i].needs| && (i < n || (i == n && k < m)) && keep[i] ==>
      var d := Index(jobs, jobs[i].needs[k]); d >= 0 && keep[d]
  }

  ghost function Unkept(keep: seq<bool>): set<int> {
    set i | 0 <= i < |keep| && !keep[i]
  }

  lemma ChosenAreReached(jobs: seq<DagJob>, chosen: seq<string>, c: nat)
    requires c < |chosen| && Index(jobs, chosen[c]) >= 0
    ensures Reached(jobs, chosen, Index(jobs, chosen[c]))
  {
    assert PathTo(jobs, chosen, Index(jobs, chosen[c]), [Index(jobs, chosen[c])]);
  }

  lemma NeedsAreReached(jobs: seq<DagJob>, chosen: seq<string>, i: int, b: int)
    requires Reached(jobs, chosen, i) && Needs(jobs, i, b)
    ensures Reached(jobs, chosen, b)
  {
    var p :| PathTo(jobs, chosen, i, p);
    assert PathTo(jobs, chosen, b, p + [b]);
  }

  lemma ReachedHolds(jobs: seq<DagJob>, chosen: seq<string>)
    ensures Holds(jobs, chosen, ReachedSet(jobs, chosen))
  {
    forall c | 0 <= c < |chosen| && Index(jobs, chosen[c]) >= 0
      ensures Index(jobs, chosen[c]) in ReachedSet(jobs, chosen)
    {
      ChosenAreReached(jobs, chosen, c);
    }
    forall a, b | a in ReachedSet(jobs, chosen) && Needs(jobs, a, b) ensures b in ReachedSet(jobs, chosen) {
      NeedsAreReached(jobs, chosen, a, b);
    }
  }

  /** A set that holds the chosen jobs and is closed under needs holds all that is reached. */
  lemma {:induction false} ClosedHoldsPath(jobs: seq<DagJob>, chosen: seq<string>, keep: seq<bool>, i: int, p: seq<int>)
    requires |keep| == |jobs| && HoldsChosen(jobs, chosen, keep) && ClosedTo(jobs, keep, |jobs|, 0)
    requires PathTo(jobs, chosen, i, p)
    ensures keep[i]
    decreases |p|
  {
    if |p| > 1 {
      var q := p[..|p| - 1];
      ClosedHoldsPath(jobs, chosen, keep, q[|q| - 1], q);
      assert Needs(jobs, p[|p| - 2], p[|p| - 1]);
    }
  }

  /** The kept jobs, in their original order. */
  function Kept(jobs: seq<DagJob>, keep: seq<bool>): seq<DagJob>
    requires |keep| == |jobs|
  {
    if jobs == [] then []
    else
      var n := |jobs| - 1;
      Kept(jobs[..n], keep[..n]) + if keep[n] then [jobs[n]] else []
  }

  lemma {:induction false} KeptMembers(jobs: seq<DagJob>, keep: seq<bool>)
    requires |keep| == |jobs|
    ensures |Kept(jobs, keep)| <= |jobs|
    ensures forall j :: j in Kept(jobs, keep) <==> exists i :: 0 <= i < |jobs| && keep[i] && jobs[i] == j
  {
    if jobs != [] {
      var n := |jobs| - 1;
      KeptMembers(jobs[..n], keep[..n]);
      forall j | j in Kept(jobs, keep) ensures exists i :: 0 <= i < |jobs| && keep[i] && jobs[i] == j {
        if j in Kept(jobs[..n], keep[..n]) {
          var i :| 0 <= i < n && keep[..n][i] && jobs[..n][i] == j;
          assert keep[i] && jobs[i] == j;
        }
      }
      forall j | exists i :: 0 <= i < |jobs| && keep[i] && jobs[i] == j ensures j in Kept(jobs, keep) {
        var i :| 0 <= i < |jobs| && keep[i] && jobs[i] == j;
        if i < n {
          assert keep[..n][i] && jobs[..n][i] == j;
        }
      }
    }
  }

  /** The kept jobs stand in the order they stood in: each is a marked job, later ones
      further on, and no marked job is missing. */
  lemma {:induction false} KeptInOrder(jobs: seq<DagJob>, keep: seq<bool>) returns (from: seq<nat>)
    requires |keep| == |jobs|
    ensures |from| == |Kept(jobs, keep)|
    ensures forall k :: 0 <= k < |from| ==>
              from[k] < |jobs| && keep[from[k]] && jobs[from[k]] == Kept(jobs, keep)[k]
    ensures forall k, m :: 0 <= k < m < |from| ==> from[k] < from[m]
    ensures forall i: nat :: i < |jobs| && keep[i] ==> i in from
  {
    from := [];
    if jobs != [] {
      var n := |jobs| - 1;
      from := KeptInOrder(jobs[..n], keep[..n]);
      if keep[n] {
        from := from + [n];
      }
    }
  }

  /** Marks the chosen jobs; fails at the first id that names no job. */
  method MarkChosen(jobs: seq<DagJob>, chosen: seq<string>, keep: array<bool>, ghost reach: set<int>) returns (ok: bool)
    requires keep.Length == |jobs| && Within(keep[..], reach) && Holds(jobs, chosen, reach)
    modifies keep
    ensures ok <==> forall c :: 0 <= c < |chosen| ==> Index(jobs, chosen[c]) >= 0
    ensures ok ==> HoldsChosen(jobs, chosen, keep[..])
    ensures Within(keep[..], reach)
  {
    for c := 0 to |chosen|
      invariant HoldsChosen(jobs, chosen[..c], keep[..]) && Within(keep[..], reach)
      invariant forall c' :: 0 <= c' < c ==> Index(jobs, chosen[c']) >= 0
    {
      var j := Find(jobs, chosen[c]);
      if j < 0 {
        return false;
      }
      keep[j] := true;
      assert chosen[..c + 1] == chosen[..c] + [chosen[c]];
    }
    assert chosen[..|chosen|] == chosen;
    return true;
  }

  ghost predicate Marked(jobs: seq<DagJob>, chosen: seq<string>, keep: seq<bool>, reach: set<int>) {
    |keep| == |jobs| && HoldsChosen(jobs, chosen, keep) && Within(keep, reach) && Holds(jobs, chosen, reach)
  }

  lemma KeepingMarks(jobs: seq<DagJob>, chosen: seq<string>, keep: seq<bool>, i: nat, need: nat, reach: set<int>)
    requires Marked(jobs, chosen, keep, reach) && i < |jobs| && keep[i] && Needs(jobs, i, need) && !keep[need]
    ensures Marked(jobs, chosen, keep[need := true], reach)
    ensures Unkept(keep[need := true]) < Unkept(keep)
  {
    assert Unkept(keep[need := true]) == Unkept(keep) - {need} && need in Unkept(keep);
  }

  /** Keeps the needs of one kept job. */
  method SpreadFrom(jobs: seq<DagJob>, chosen: seq<string>, keep: array<bool>, i: nat, ghost reach: set<int>)
    returns (changed: bool)
    requires AllKnown(jobs) && Marked(jobs, chosen, keep[..], reach) && i < |jobs|
    modifies keep
    ensures Marked(jobs, chosen, keep[..], reach)
    ensures changed ==> Unkept(keep[..]) < old(Unkept(keep[..]))
    ensures !changed ==> keep[..] == old(keep[..])
    ensures !changed && old(ClosedTo(jobs, keep[..], i, 0)) ==> ClosedTo(jobs, keep[..], i + 1, 0)
  {
    changed := false;
    var k := 0;
    while keep[i] && k < |jobs[i].needs|
      invariant 0 <= k <= |jobs[i].needs| && Marked(jobs, chosen, keep[..], reach)
      invariant changed ==> Unkept(keep[..]) < old(Unkept(keep[..]))
      invariant !changed ==> keep[..] == old(keep[..])
      invariant !changed && old(ClosedTo(jobs, keep[..], i, 0)) ==> ClosedTo(jobs, keep[..], i, k)
    {
      var need := Find(jobs, jobs[i].needs[k]);
      assert NeedKnown(jobs, i, k);
      if !keep[need] {
        KeepingMarks(jobs, chosen, keep[..], i, need, reach);
        ghost var before := keep[..];
        keep[need] := true;
        assert keep[..] == before[need := true];
        changed := true;
      }
      k := k + 1;
    }
  }

  /** One round of the fixpoint: every need of every kept job is kept. */
  method Spread(jobs: seq<DagJob>, chosen: seq<string>, keep: array<bool>, ghost reach: set<int>)
    returns (changed: bool)
    requires AllKnown(jobs) && Marked(jobs, chosen, keep[..], reach)
    modifies keep
    ensures Marked(jobs, chosen, keep[..], reach)
    ensures changed ==> Unkept(keep[..]) < old(Unkept(keep[..]))
    ensures !changed ==> keep[..] == old(keep[..]) && ClosedTo(jobs, keep[..], |jobs|, 0)
  {
    changed := false;
    for i := 0 to |jobs|
      invariant Marked(jobs, chosen, keep[..], reach)
      invariant changed ==> Unkept(keep[..]) < old(Unkept(keep[..]))
      invariant !changed ==> keep[..] == old(keep[..]) && ClosedTo(jobs, keep[..], i, 0)
    {
      var c := SpreadFrom(jobs, chosen, keep, i, reach);
      changed := changed || c;
    }
  }

  lemma ClosedIsReached(jobs: seq<DagJob>, chosen: seq<string>, keep: seq<bool>)
    requires Marked(jobs, chosen, keep, ReachedSet(jobs, chosen)) && ClosedTo(jobs, keep, |jobs|, 0)
    ensures MarksReached(jobs, chosen, keep)
  {
    forall i | 0 <= i < |jobs| ensures keep[i] <==> Reached(jobs, chosen, i) {
      if Reached(jobs, chosen, i) {
        var p :| PathTo(jobs, chosen, i, p);
        ClosedHoldsPath(jobs, chosen, keep, i, p);
      }
    }
  }

  method MarkNeeded(jobs: seq<DagJob>, chosen: seq<string>, keep: array<bool>, ghost reach: set<int>)
    requires AllKnown(jobs) && Marked(jobs, chosen, keep[..], reach)
    modifies keep
    ensures Marked(jobs, chosen, keep[..], reach) && ClosedTo(jobs, keep[..], |jobs|, 0)
  {
    var changed := true;
    while changed
      invariant Marked(jobs, chosen, keep[..], reach)
      invariant !changed ==> ClosedTo(jobs, keep[..], |jobs|, 0)
      decreases Unkept(keep[..]), changed
    {
      changed := Spread(jobs, chosen, keep, reach);
    }
  }

  /** What Mark finds: a closed set with exactly the reached jobs. */
  ghost predicate MarksReached(jobs: seq<DagJob>, chosen: seq<string>, keep: seq<bool>) {
    && |keep| == |jobs| && ClosedTo(jobs, keep, |jobs|, 0)
    && forall i :: 0 <= i < |jobs| ==> (keep[i] <==> Reached(jobs, chosen, i))
  }

  /** Which jobs to keep: exactly the chosen ones and what they need. */
  method Mark(jobs: seq<DagJob>, chosen: seq<string>) returns (ok: bool, keep: array<bool>)
    requires AllKnown(jobs)
    ensures fresh(keep) && keep.Length == |jobs|
    ensures ok <==> forall c :: 0 <= c < |chosen| ==> Index(jobs, chosen[c]) >= 0
    ensures ok ==> MarksReached(jobs, chosen, keep[..])
  {
    keep := new bool[|jobs|](_ => false);
    ReachedHolds(jobs, chosen);
    ok := MarkChosen(jobs, chosen, keep, ReachedSet(jobs, chosen));
    if ok {
      MarkNeeded(jobs, chosen, keep, ReachedSet(jobs, chosen));
      ClosedIsReached(jobs, chosen, keep[..]);
    }
  }

  /** Drops the jobs that are not kept, in place and in order. */
  method Compact(jobs: array<DagJob>, keep: array<bool>) returns (kept: nat)
    requires keep.Length == jobs.Length
    modifies jobs
    ensures kept <= jobs.Length && jobs[..kept] == Kept(old(jobs[..]), keep[..])
  {
    kept := 0;
    ghost var all := jobs[..];
    for i := 0 to jobs.Length
      invariant kept <= i && jobs[i..] == all[i..]
      invariant jobs[..kept] == Kept(all[..i], keep[..i])
    {
      assert all[..i + 1][..i] == all[..i] && keep[..i + 1][..i] == keep[..i];
      assert jobs[i] == jobs[i..][0] == all[i];
      if keep[i] {
        jobs[kept] := jobs[i];
        kept := kept + 1;
        assert jobs[..kept] == jobs[..kept - 1] + [all[i]];
      }
    }
    assert all[..jobs.Length] == all && keep[..jobs.Length] == keep[..];
  }

  /** The whole selection. The list afterwards is the old one without the jobs
      that no chosen job needs; an unknown id changes nothing. */
  method SelectJobs(jobs: array<DagJob>, chosen: seq<string>) returns (ok: bool, kept: nat, ghost keep: seq<bool>)
    requires AllKnown(jobs[..])
    modifies jobs
    ensures ok <==> forall c :: 0 <= c < |chosen| ==> Index(old(jobs[..]), chosen[c]) >= 0
    ensures !ok ==> jobs[..] == old(jobs[..])
    ensures ok ==> MarksReached(old(jobs[..]), chosen, keep)
    ensures ok ==> kept <= jobs.Length && jobs[..kept] == Kept(old(jobs[..]), keep)
  {
    var marks;
    ok, marks := Mark(jobs[..], chosen);
    keep := marks[..];
    kept := jobs.Length;
    if ok {
      kept := Compact(jobs, marks);
    }
  }

  // ---- what the selection keeps of the graph ----

  predicate UniqueIds(jobs: seq<DagJob>) {
    forall i, j :: 0 <= i < j < |jobs| ==> jobs[i].id != jobs[j].id
  }

  /** A rank of the ids that falls along every need: the graph has no cycle. */
  ghost predicate Ranked(jobs: seq<DagJob>, rank: string -> int) {
    forall i, k :: 0 <= i < |jobs| && 0 <= k < |jobs[i].needs| ==> 0 <= rank(jobs[i].needs[k]) < rank(jobs[i].id)
  }

  ghost function OrderRank(jobs: seq<DagJob>, order: seq<int>): string -> int {
    id => if Index(jobs, id) in order then Position(order, Index(jobs, id)) else -1
  }

  lemma OrderRanks(jobs: seq<DagJob>, order: seq<int>)
    requires AllKnown(jobs) && UniqueIds(jobs) && Topological(jobs, order)
    requires forall i :: 0 <= i < |jobs| ==> i in order
    ensures Ranked(jobs, OrderRank(jobs, order))
  {
    forall i, k | 0 <= i < |jobs| && 0 <= k < |jobs[i].needs|
      ensures 0 <= OrderRank(jobs, order)(jobs[i].needs[k]) < OrderRank(jobs, order)(jobs[i].id)
    {
      assert NeedKnown(jobs, i, k);
      var d := Index(jobs, jobs[i].needs[k]);
      assert Index(jobs, jobs[i].id) == i;
      assert Needs(jobs, i, d);
      NeedsComeFirst(jobs, order, i, d);
    }
  }

  lemma RankedIsAcyclic(jobs: seq<DagJob>, rank: string -> int)
    requires Ranked(jobs, rank)
    ensures Acyclic(jobs)
  {
    forall p ensures !Cycle(jobs, p) {
      if Cycle(jobs, p) {
        RankFalls(jobs, rank, p);
      }
    }
  }

  lemma {:induction false} RankFalls(jobs: seq<DagJob>, rank: string -> int, p: seq<int>)
    requires Ranked(jobs, rank) && p != [] && Walk(jobs, p)
    ensures rank(jobs[p[|p| - 1]].id) <= rank(jobs[p[0]].id)
  {
    if |p| > 1 {
      RankFalls(jobs, rank, p[..|p| - 1]);
      assert Needs(jobs, p[|p| - 2], p[|p| - 1]);
    }
  }

  /** Every need of a kept job is still in the list, and no cycle appears. */
  lemma SelectionIsSound(jobs: seq<DagJob>, chosen: seq<string>, keep: seq<bool>, rank: string -> int)
    requires AllKnown(jobs) && Ranked(jobs, rank) && MarksReached(jobs, chosen, keep)
    ensures AllKnown(Kept(jobs, keep)) && Ranked(Kept(jobs, keep), rank) && Acyclic(Kept(jobs, keep))
  {
    var left := Kept(jobs, keep);
    KeptMembers(jobs, keep);
    forall i, k | 0 <= i < |left| && 0 <= k < |left[i].needs|
      ensures NeedKnown(left, i, k) && 0 <= rank(left[i].needs[k]) < rank(left[i].id)
    {
      assert left[i] in left;
      var m :| 0 <= m < |jobs| && keep[m] && jobs[m] == left[i];
      var d := Index(jobs, jobs[m].needs[k]);
      assert keep[d];
      assert jobs[d] in left;
    }
    RankedIsAcyclic(left, rank);
  }
}
