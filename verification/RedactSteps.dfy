/** A job's log: the redacted streams of its steps, one after another. Each step is
flushed on its own, so what one step ends with and the next begins with can meet. */
module RedactSteps {
  import opened Bytes
  import opened Redact
  import opened RedactFacts
  import opened RedactLeaks

  /** A step is the chunks it wrote. */
  type Output = seq<seq<byte>>

  function JobLog(S: Secrets, steps: seq<Output>): seq<byte> {
    if steps == [] then [] else Flushed(S, [], steps[0]) + JobLog(S, steps[1..])
  }

  lemma {:induction false} JobLogJoins(S: Secrets, a: seq<Output>, step: Output)
    ensures JobLog(S, a + [step]) == JobLog(S, a) + Flushed(S, [], step)
  {
    if a == [] {
      assert a + [step] == [step] && [step][1..] == [];
      assert Flushed(S, [], step) + [] == [] + Flushed(S, [], step);
    } else {
      assert (a + [step])[1..] == a[1..] + [step];
      JobLogJoins(S, a[1..], step);
      Assoc(Flushed(S, [], a[0]), JobLog(S, a[1..]), Flushed(S, [], step));
    }
  }

  /** Every secret has a byte that is a secret by itself. */
  predicate Guarded(S: Secrets) {
    forall i :: 0 <= i < |S| ==> HasGuard(S, i)
  }

  predicate HasGuard(S: Secrets, i: nat)
    requires i < |S|
  {
    exists k :: 0 <= k < |S[i]| && [S[i][k]] in S
  }

  // ---- a guarded set is safe ----

  lemma ByteOccurs(x: byte, b: seq<byte>)
    requires x in b
    ensures Occurs([x], b)
  {
    var k :| 0 <= k < |b| && b[k] == x;
    assert b[k..k + 1] == [x];
    assert At([x], b, k);
  }

  /** A byte that is a secret by itself is in no step's output. */
  lemma {:induction false} GuardStaysOut(S: Secrets, steps: seq<Output>, x: byte)
    requires Maskable(S) && FlushSafe(S) && [x] in S
    ensures x !in JobLog(S, steps)
  {
    if steps != [] {
      GuardStaysOut(S, steps[1..], x);
      var j :| 0 <= j < |S| && S[j] == [x];
      FlushKeepsClean(S, steps[0], j);
      if x in Flushed(S, [], steps[0]) {
        ByteOccurs(x, Flushed(S, [], steps[0]));
      }
    }
  }

  lemma HasItsBytes(s: seq<byte>, b: seq<byte>, p: int, k: nat)
    requires At(s, b, p) && k < |s|
    ensures s[k] in b
  {
    assert b[p + k] == b[p..p + |s|][k];
  }

  lemma GuardedNeverSpelled(S: Secrets, steps: seq<Output>, i: nat)
    requires Maskable(S) && FlushSafe(S) && i < |S| && HasGuard(S, i)
    ensures !Occurs(S[i], JobLog(S, steps))
  {
    var k :| 0 <= k < |S[i]| && [S[i][k]] in S;
    var log := JobLog(S, steps);
    GuardStaysOut(S, steps, S[i][k]);
    forall p | 0 <= p <= |log| ensures !At(S[i], log, p) {
      if At(S[i], log, p) {
        HasItsBytes(S[i], log, p, k);
      }
    }
  }

  // ---- any other secret can be spelled, a byte a step ----

  function ByteSteps(b: seq<byte>): seq<Output> {
    if b == [] then [] else [[[b[0]]]] + ByteSteps(b[1..])
  }

  lemma OneByteStep(S: Secrets, x: byte)
    requires NonEmpty(S) && [x] !in S
    ensures Flushed(S, [], [[x]]) == [x]
  {
    FedOne(S, [], [x]);
    assert [] + [x] == [x] && [x][1..] == [] && [x] + [] == [x];
    if MatchAt(S, [x]) > 0 {
      ByteMatches(S, x);
    }
  }

  lemma ByteMatches(S: Secrets, x: byte)
    requires MatchAt(S, [x]) > 0
    ensures [x] in S
  {
    MatchIsLongest(S, [x]);
    var i :| 0 <= i < |S| && S[i] == [x][..MatchAt(S, [x])];
    assert S[i] == [x];
  }

  lemma {:induction false} BytesAreSpelled(S: Secrets, b: seq<byte>)
    requires NonEmpty(S) && forall k :: 0 <= k < |b| ==> [b[k]] !in S
    ensures JobLog(S, ByteSteps(b)) == b
  {
    if b != [] {
      OneByteStep(S, b[0]);
      BytesAreSpelled(S, b[1..]);
      assert ByteSteps(b)[1..] == ByteSteps(b[1..]);
    }
  }

  lemma WholeOccurs(b: seq<byte>)
    ensures Occurs(b, b)
  {
    assert At(b, b, 0);
  }

  ghost predicate NeverSpelled(S: Secrets) {
    forall steps, i :: 0 <= i < |S| ==> !Occurs(S[i], JobLog(S, steps))
  }

  lemma NeverSpelledIsFlushSafe(S: Secrets)
    requires Maskable(S) && NeverSpelled(S)
    ensures FlushSafe(S)
  {
    forall chunks, i | 0 <= i < |S| ensures !Occurs(S[i], Flushed(S, [], chunks)) {
      assert [chunks][1..] == [];
      assert JobLog(S, [chunks]) == Flushed(S, [], chunks) + [];
      assert Flushed(S, [], chunks) + [] == Flushed(S, [], chunks);
    }
    FlushLeaksExactly(S);
  }

  /** No job spells a secret in its log, whatever its steps write, if and only if
      the set is flush-safe and every secret has a byte that is a secret by itself. */
  lemma JobLogExactly(S: Secrets)
    requires Maskable(S)
    ensures NeverSpelled(S) <==> FlushSafe(S) && Guarded(S)
  {
    if FlushSafe(S) && Guarded(S) {
      forall steps, i | 0 <= i < |S| ensures !Occurs(S[i], JobLog(S, steps)) {
        GuardedNeverSpelled(S, steps, i);
      }
    }
    if NeverSpelled(S) {
      NeverSpelledIsFlushSafe(S);
      forall i | 0 <= i < |S| ensures HasGuard(S, i) {
        if !HasGuard(S, i) {
          BytesAreSpelled(S, S[i]);
          WholeOccurs(S[i]);
        }
      }
    }
  }

  /** In particular a lone secret of two bytes or more can always be split over two steps. */
  lemma SplitSecretIsSpelled(s: seq<byte>)
    requires |s| > 1
    ensures JobLog([s], [[s[..1]], [s[1..]]]) == s
  {
    OneByteStep([s], s[0]);
    assert s[..1] == [s[0]];
    RestPasses(s);
    assert [[s[..1]], [s[1..]]][1..] == [[s[1..]]] && [[s[1..]]][1..] == [];
    assert JobLog([s], [[s[1..]]]) == s[1..] + [] == s[1..];
    assert s[..1] + s[1..] == s;
  }

  lemma RestPasses(s: seq<byte>)
    requires |s| > 1
    ensures Flushed([s], [], [s[1..]]) == s[1..]
  {
    FedOne([s], [], s[1..]);
    assert [] + s[1..] == s[1..];
    ShortPasses(s, s[1..]);
  }

  lemma {:induction false} ShortPasses(s: seq<byte>, b: seq<byte>)
    requires |b| < |s|
    ensures Scan([s], b).out + Scan([s], b).held == b
    decreases |b|
  {
    if b != [] {
      MatchIsLongest([s], b);
      assert [s][0] == s;
      if !CouldStart([s], b) {
        ShortPasses(s, b[1..]);
        assert b == [b[0]] + b[1..];
        Assoc([b[0]], Scan([s], b[1..]).out, Scan([s], b[1..]).held);
      }
    }
  }
}
