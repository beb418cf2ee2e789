/** The check of the jobs' `needs:` graph: unknown needs first, then cycles,
by a depth-first search with colours and a path stack. */
module Dag {
  datatype DagJob = DagJob(id: string, needs: seq<string>)

  /** The first job with the id, or -1. */
  function Index(jobs: seq<DagJob>, id: string): (r: int)
    ensures -1 <= r < |jobs|
    ensures r >= 0 ==> jobs[r].id == id && forall i :: 0 <= i < r ==> jobs[i].id != id
    ensures r < 0 ==> forall i :: 0 <= i < |jobs| ==> jobs[i].id != id
  {
    if jobs == [] then -1
    else
      var n := |jobs| - 1;
      var i := Index(jobs[..n], id);
      if i >= 0 then i else if jobs[n].id == id then n else -1
  }

  method Find(jobs: seq<DagJob>, id: string) returns (r: int)
    ensures r == Index(jobs, id)
  {
    for i := 0 to |jobs|
      invariant forall k :: 0 <= k < i ==> jobs[k].id != id
    {
      if jobs[i].id == id {
        return i;
      }
    }
    return -1;
  }

  predicate NeedKnown(jobs: seq<DagJob>, i: nat, k: nat)
    requires i < |jobs| && k < |jobs[i].needs|
  {
    Index(jobs, jobs[i].needs[k]) >= 0
  }

  predicate AllKnown(jobs: seq<DagJob>) {
    forall i, k :: 0 <= i < |jobs| && 0 <= k < |jobs[i].needs| ==> NeedKnown(jobs, i, k)
  }

  /** Job a needs job b. */
  predicate Needs(jobs: seq<DagJob>, a: int, b: int) {
    0 <= a < |jobs| && 0 <= b < |jobs| &&
    exists k :: 0 <= k < |jobs[a].needs| && Index(jobs, jobs[a].needs[k]) == b
  }

  /** A path through the needs of the jobs. */
  predicate Walk(jobs: seq<DagJob>, p: seq<int>) {
    && (forall i :: 0 <= i < |p| ==> 0 <= p[i] < |jobs|)
    && (forall i :: 0 < i < |p| ==> Needs(jobs, p[i - 1], p[i]))
  }

  predicate Cycle(jobs: seq<DagJob>, p: seq<int>) {
    |p| > 0 && Walk(jobs, p) && Needs(jobs, p[|p| - 1], p[0])
  }

  ghost predicate Acyclic(jobs: seq<DagJob>) {
    forall p :: !Cycle(jobs, p)
  }

  predicate Distinct(p: seq<int>) {
    forall i, j :: 0 <= i < j < |p| ==> p[i] != p[j]
  }

  /** Every need of an ordered job is ordered before it. */
  ghost predicate Topological(jobs: seq<DagJob>, order: seq<int>) {
    forall i, b :: 0 <= i < |order| && Needs(jobs, order[i], b) ==> b in order[..i]
  }

  // ---- a topological order excludes cycles ----

  function Position(order: seq<int>, x: int): (i: nat)
    requires x in order
    ensures i < |order| && order[i] == x
    ensures forall k :: 0 <= k < i ==> order[k] != x
  {
    if order[0] == x then 0 else 1 + Position(order[1..], x)
  }

  lemma NeedsComeFirst(jobs: seq<DagJob>, order: seq<int>, a: int, b: int)
    requires Topological(jobs, order) && a in order && Needs(jobs, a, b)
    ensures b in order && Position(order, b) < Position(order, a)
  {
    var i := Position(order, a);
    assert b in order[..i];
  }

  lemma {:induction false} WalksDescend(jobs: seq<DagJob>, order: seq<int>, p: seq<int>)
    requires Topological(jobs, order) && |p| > 0 && Walk(jobs, p) && p[0] in order
    ensures p[|p| - 1] in order && Position(order, p[|p| - 1]) + |p| <= Position(order, p[0]) + 1
  {
    if |p| > 1 {
      var q := p[..|p| - 1];
      WalksDescend(jobs, order, q);
      NeedsComeFirst(jobs, order, q[|q| - 1], p[|p| - 1]);
    }
  }

  lemma OrderedIsAcyclic(jobs: seq<DagJob>, order: seq<int>)
    requires Topological(jobs, order) && forall i :: 0 <= i < |jobs| ==> i in order
    ensures Acyclic(jobs)
  {
    forall p ensures !Cycle(jobs, p) {
      if Cycle(jobs, p) {
        WalksDescend(jobs, order, p);
        NeedsComeFirst(jobs, order, p[|p| - 1], p[0]);
      }
    }
  }

  // ---- the search ----

  datatype Color = White | Grey | Black

  /** A path without repetition is no longer than the number of jobs. */
  lemma {:induction false} DistinctFits(p: seq<int>, n: nat)
    requires Distinct(p) && forall i :: 0 <= i < |p| ==> 0 <= p[i] < n
    ensures |p| <= n
  {
    if p != [] {
      assert p[0] < n;
      if n - 1 in p {
        var i := Position(p, n - 1);
        DistinctFits(p[..i] + p[i + 1..], n - 1);
      } else {
        DistinctFits(p, n - 1);
      }
    }
  }

  /** The search's state on values: the colours, the path of grey jobs and the
      black jobs in the order they were finished. */
  ghost predicate Searching(jobs: seq<DagJob>, color: seq<Color>, path: seq<int>, order: seq<int>) {
    && |color| == |jobs|
    && Walk(jobs, path) && Distinct(path)
    && (forall i :: 0 <= i < |jobs| ==> (color[i] == Grey <==> i in path))
    && (forall i :: 0 <= i < |jobs| ==> (color[i] == Black <==> i in order))
    && Topological(jobs, order)
  }

  ghost function Whites(color: seq<Color>): set<int> {
    set i | 0 <= i < |color| && color[i] == White
  }

  lemma EnterKeeps(jobs: seq<DagJob>, color: seq<Color>, path: seq<int>, order: seq<int>, j: nat)
    requires Searching(jobs, color, path, order) && j < |jobs| && color[j] == White
    requires path != [] ==> Needs(jobs, path[|path| - 1], j)
    ensures Searching(jobs, color[j := Grey], path + [j], order)
    ensures |path| < |jobs|
    ensures Whites(color[j := Grey]) == Whites(color) - {j}
  {
    DistinctFits(path + [j], |jobs|);
  }

  lemma LeaveKeeps(jobs: seq<DagJob>, color: seq<Color>, path: seq<int>, order: seq<int>)
    requires Searching(jobs, color, path, order) && path != []
    requires forall b :: Needs(jobs, path[|path| - 1], b) ==> b in order
    ensures Searching(jobs, color[path[|path| - 1] := Black], path[..|path| - 1], order + [path[|path| - 1]])
  {
    var j := path[|path| - 1];
    var order' := order + [j];
    forall i, b | 0 <= i < |order'| && Needs(jobs, order'[i], b) ensures b in order'[..i] {
      if i < |order| {
        assert order'[..i] == order[..i];
      } else {
        assert order'[..i] == order;
      }
    }
  }

  class Search {
    const jobs: seq<DagJob>
    const color: array<Color>
    const stack: array<int> // jobs on the current path
    var depth: nat
    var cycleFrom: nat      // where on the stack the cycle starts, once one is found
    ghost var order: seq<int>

    ghost predicate Valid()
      reads this, color, stack
    {
      && color.Length == stack.Length == |jobs| && depth <= stack.Length
      && AllKnown(jobs)
      && Searching(jobs, color[..], stack[..depth], order)
    }

    constructor (jobs: seq<DagJob>)
      requires AllKnown(jobs)
      ensures this.jobs == jobs && Valid() && depth == 0 && order == []
      ensures fresh(color) && fresh(stack)
    {
      this.jobs := jobs;
      color := new Color[|jobs|](_ => White);
      stack := new int[|jobs|](_ => 0);
      depth, cycleFrom, order := 0, 0, [];
    }

    /** A grey job that the top of the stack needs closes a cycle, and the stack holds it. */
    method CloseCycle(d: nat)
      requires Valid() && d < |jobs| && color[d] == Grey
      requires depth > 0 && Needs(jobs, stack[depth - 1], d)
      modifies this`cycleFrom
      ensures cycleFrom < depth && stack[cycleFrom] == d && Cycle(jobs, stack[cycleFrom..depth])
    {
      assert d in stack[..depth];
      cycleFrom := Spot(d);
      var path := stack[..depth];
      assert stack[cycleFrom..depth] == path[cycleFrom..];
    }

    /** Where on the stack d is. */
    method Spot(d: nat) returns (s: nat)
      requires depth <= stack.Length && d in stack[..depth]
      ensures s < depth && stack[s] == d
    {
      s := 0;
      while stack[s] != d
        invariant s < depth && d !in stack[..s]
        decreases depth - s
      {
        assert stack[..s + 1] == stack[..s] + [stack[s]];
        assert stack[..depth] == stack[..s + 1] + stack[s + 1..depth];
        s := s + 1;
      }
    }

    method Enter(j: nat)
      requires Valid() && j < |jobs| && color[j] == White
      requires depth > 0 ==> Needs(jobs, stack[depth - 1], j)
      modifies this`depth, color, stack
      ensures Valid() && depth == old(depth) + 1 && stack[..depth] == old(stack[..depth]) + [j]
      ensures Whites(color[..]) == old(Whites(color[..])) - {j} && j in old(Whites(color[..]))
    {
      EnterKeeps(jobs, color[..], stack[..depth], order, j);
      color[j] := Grey;
      stack[depth] := j;
      depth := depth + 1;
      assert color[..] == old(color[..])[j := Grey];
      assert stack[..depth] == old(stack[..depth]) + [j];
    }

    method Leave(j: nat)
      requires Valid() && j < |jobs| && depth > 0 && stack[depth - 1] == j
      requires forall b :: Needs(jobs, j, b) ==> b in order
      modifies this`depth, this`order, color
      ensures Valid() && depth == old(depth) - 1 && order == old(order) + [j]
      ensures Whites(color[..]) <= old(Whites(color[..]))
    {
      assert stack[..depth][depth - 1] == j;
      LeaveKeeps(jobs, color[..], stack[..depth], order);
      order := order + [j];
      depth := depth - 1;
      color[j] := Black;
      assert color[..] == old(color[..])[j := Black];
      assert stack[..depth] == old(stack[..depth])[..depth];
    }

    /** What a call that found no cycle leaves: the path as it was, and more jobs finished. */
    twostate predicate Extended(whites: set<int>)
      reads this, color, stack
    {
      && Valid() && depth == old(depth) && stack[..depth] == old(stack[..depth])
      && old(order) <= order && Whites(color[..]) <= whites
    }

    /** One need of the job on top of the stack. */
    method Follow(d: nat) returns (found: bool)
      requires Valid() && d < |jobs| && depth > 0 && Needs(jobs, stack[depth - 1], d)
      modifies this, color, stack
      ensures found ==> cycleFrom < depth <= stack.Length && Cycle(jobs, stack[cycleFrom..depth])
      ensures !found ==> Extended(old(Whites(color[..]))) && d in order
      decreases Whites(color[..]), 1
    {
      if color[d] == Grey {
        CloseCycle(d);
        return true;
      }
      if color[d] == White {
        found := Visit(d);
        return found;
      }
      assert color[..][d] == Black;
      return false;
    }

    /** Need k of job j, which is on top of the stack. */
    method FollowNeed(j: nat, k: nat) returns (found: bool)
      requires Valid() && j < |jobs| && k < |jobs[j].needs| && depth > 0 && stack[depth - 1] == j
      modifies this, color, stack
      ensures found ==> cycleFrom < depth <= stack.Length && Cycle(jobs, stack[cycleFrom..depth])
      ensures !found ==> Extended(old(Whites(color[..]))) && Index(jobs, jobs[j].needs[k]) in order
      decreases Whites(color[..]), 2
    {
      var d := Find(jobs, jobs[j].needs[k]);
      assert NeedKnown(jobs, j, k);
      assert Needs(jobs, j, d);
      found := Follow(d);
    }

    /** All needs of job j, which is on top of the stack. */
    method FollowNeeds(j: nat) returns (found: bool)
      requires Valid() && j < |jobs| && depth > 0 && stack[depth - 1] == j
      modifies this, color, stack
      ensures found ==> cycleFrom < depth <= stack.Length && Cycle(jobs, stack[cycleFrom..depth])
      ensures !found ==> Extended(old(Whites(color[..])))
      ensures !found ==> forall m :: 0 <= m < |jobs[j].needs| ==> Index(jobs, jobs[j].needs[m]) in order
      decreases Whites(color[..]), 3
    {
      ghost var path, whites := stack[..depth], Whites(color[..]);
      for k := 0 to |jobs[j].needs|
        invariant Valid() && depth == |path| && stack[..depth] == path
        invariant old(order) <= order && Whites(color[..]) <= whites
        invariant forall m :: 0 <= m < k ==> Index(jobs, jobs[j].needs[m]) in order
      {
        assert stack[depth - 1] == path[depth - 1] == j;
        found := FollowNeed(j, k);
        if found {
          return true;
        }
      }
      return false;
    }

    /** Either the stack ends in a cycle, or everything reachable from j is in topological order. */
    method Visit(j: nat) returns (found: bool)
      requires Valid() && j < |jobs| && color[j] == White
      requires depth > 0 ==> Needs(jobs, stack[depth - 1], j)
      modifies this, color, stack
      ensures found ==> cycleFrom < depth <= stack.Length && Cycle(jobs, stack[cycleFrom..depth])
      ensures !found ==> Extended(old(Whites(color[..]))) && j in order
      decreases Whites(color[..]), 0
    {
      ghost var path := stack[..depth];
      Enter(j);
      assert stack[depth - 1] == stack[..depth][depth - 1] == j;
      found := FollowNeeds(j);
      if found {
        return true;
      }
      assert stack[depth - 1] == stack[..depth][depth - 1] == j;
      Leave(j);
      assert stack[..depth] == (path + [j])[..depth] == path;
      return false;
    }
  }

  datatype Status = Ok | UnknownNeed(job: nat, need: nat) | CycleFound(job: nat)

  /** Need k of job i is the first, job by job, that names no job. */
  predicate FirstUnknown(jobs: seq<DagJob>, i: nat, k: nat) {
    && i < |jobs| && k < |jobs[i].needs| && !NeedKnown(jobs, i, k)
    && (forall i', k' :: 0 <= i' < i && 0 <= k' < |jobs[i'].needs| ==> NeedKnown(jobs, i', k'))
    && (forall k' :: 0 <= k' < k ==> NeedKnown(jobs, i, k'))
  }

  method CheckKnown(jobs: seq<DagJob>) returns (s: Status)
    ensures s.Ok? ==> AllKnown(jobs)
    ensures !s.Ok? ==> s.UnknownNeed? && FirstUnknown(jobs, s.job, s.need)
  {
    for i := 0 to |jobs|
      invariant forall i', k' :: 0 <= i' < i && 0 <= k' < |jobs[i'].needs| ==> NeedKnown(jobs, i', k')
    {
      for k := 0 to |jobs[i].needs|
        invariant forall k' :: 0 <= k' < k ==> NeedKnown(jobs, i, k')
      {
        var d := Find(jobs, jobs[i].needs[k]);
        if d < 0 {
          return UnknownNeed(i, k);
        }
      }
    }
    return Ok;
  }

  /** The whole check. It accepts exactly the graphs whose needs are all known
      and have no cycle; a rejection names a real culprit, and an acceptance
      comes with a topological order of all jobs. */
  method Check(jobs: seq<DagJob>) returns (s: Status, ghost cycle: seq<int>, ghost order: seq<int>)
    ensures s.Ok? <==> AllKnown(jobs) && Acyclic(jobs)
    ensures s.Ok? ==> Topological(jobs, order) && forall i :: 0 <= i < |jobs| ==> i in order
    ensures s.UnknownNeed? <==> !AllKnown(jobs)
    ensures s.UnknownNeed? ==> FirstUnknown(jobs, s.job, s.need)
    ensures s.CycleFound? ==> Cycle(jobs, cycle) && cycle[0] == s.job
  {
    cycle, order := [], [];
    s := CheckKnown(jobs);
    if !s.Ok? {
      return;
    }
    var w := new Search(jobs);
    for i := 0 to |jobs|
      invariant w.jobs == jobs && w.Valid() && w.depth == 0
      invariant forall k :: 0 <= k < i ==> k in w.order
    {
      if w.color[i] == White {
        var found := w.Visit(i);
        if found {
          cycle := w.stack[w.cycleFrom..w.depth];
          return CycleFound(w.stack[w.cycleFrom]), cycle, [];
        }
      }
      assert w.stack[..w.depth] == [];
      assert w.color[..][i] == Black;
    }
    order := w.order;
    OrderedIsAcyclic(jobs, order);
    return Ok, [], order;
  }
}
