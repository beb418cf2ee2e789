/** No secret reaches the output. */
module RedactLeaks {
  import opened Bytes
  import opened Redact
  import opened RedactFacts

  /** s stands in b at place i. */
  predicate At(s: seq<byte>, b: seq<byte>, i: int) {
    0 <= i && i + |s| <= |b| && b[i..i + |s|] == s
  }

  predicate Occurs(s: seq<byte>, b: seq<byte>) {
    exists i :: 0 <= i <= |b| && At(s, b, i)
  }

  /** A mask cannot be part of an occurrence of s: s neither starts nor ends with
      the mask's character, and has no whole mask inside. */
  predicate Clear(s: seq<byte>) {
    s != [] && s[0] != STAR && s[|s| - 1] != STAR && !Occurs(MASK, s)
  }

  predicate Maskable(S: Secrets) {
    forall i :: 0 <= i < |S| ==> Clear(S[i])
  }

  /** w goes on as b does, to the end of b or up to a mask. */
  ghost predicate Follows(b: seq<byte>, w: seq<byte>) {
    exists n: nat :: FollowsTo(b, w, n)
  }

  predicate FollowsTo(b: seq<byte>, w: seq<byte>, n: nat) {
    n <= |b| && n <= |w| && b[..n] == w[..n] && (n == |b| || MASK <= w[n..])
  }

  /** Where output follows b, a secret can only start if it starts b or b starts it. */
  lemma SecretsNeedAStart(S: Secrets, b: seq<byte>, w: seq<byte>, i: nat)
    requires Maskable(S) && Follows(b, w) && i < |S| && S[i] <= w
    ensures S[i] <= b || b < S[i]
  {
    var n: nat :| FollowsTo(b, w, n);
    var s := S[i];
    if |s| <= n {
      assert s == w[..n][..|s|] == b[..n][..|s|] == b[..|s|];
    } else {
      if MASK <= w[n..] {
        MaskIsWithin(s, w, n);
        assert false;
      }
      assert b == w[..n] == s[..n];
    }
  }

  /** What reaches into a mask, but does not end in it, has it all. */
  lemma MaskIsWithin(s: seq<byte>, w: seq<byte>, n: nat)
    requires s <= w && n < |s| && s[|s| - 1] != STAR && MASK <= w[n..]
    ensures At(MASK, s, n)
  {
    assert forall k :: n <= k < n + 3 ==> w[k] == w[n..][k - n] == STAR;
    assert s[|s| - 1] == w[|s| - 1];
    assert s[n..n + 3] == w[n..n + 3] == MASK;
  }

  /** A place in x + y past x is a place in y. */
  lemma AtShift(s: seq<byte>, x: seq<byte>, y: seq<byte>, k: int)
    requires At(s, x + y, k) && k >= |x|
    ensures At(s, y, k - |x|)
  {
    assert (x + y)[k..k + |s|] == y[k - |x|..k - |x| + |s|];
  }

  lemma AtStarts(S: Secrets, i: nat, w: seq<byte>, k: int)
    requires Maskable(S) && i < |S| && At(S[i], w, k)
    ensures k < |w| && w[k] != STAR
  {
    assert w[k] == S[i][0];
  }

  /** Scanning b: its output followed by anything that follows what it held. The
      whole follows b, and no secret starts in the scanned part. */
  lemma {:induction false} ScanIsClean(S: Secrets, b: seq<byte>, z: seq<byte>)
    requires Maskable(S) && Follows(Scan(S, b).held, z)
    ensures Follows(b, Scan(S, b).out + z)
    ensures forall i, k :: 0 <= i < |S| && 0 <= k < |Scan(S, b).out| ==> !At(S[i], Scan(S, b).out + z, k)
    decreases |b|
  {
    if b == [] {
      assert FollowsTo(b, Scan(S, b).out + z, 0);
    } else if MatchAt(S, b) > 0 {
      MaskIsClean(S, b, z);
    } else if CouldStart(S, b) {
      assert [] + z == z;
    } else {
      PassIsClean(S, b, z);
    }
  }

  lemma {:induction false} MaskIsClean(S: Secrets, b: seq<byte>, z: seq<byte>)
    requires Maskable(S) && b != [] && MatchAt(S, b) > 0 && Follows(Scan(S, b).held, z)
    ensures Follows(b, Scan(S, b).out + z)
    ensures forall i, k :: 0 <= i < |S| && 0 <= k < |Scan(S, b).out| ==> !At(S[i], Scan(S, b).out + z, k)
    decreases |b|, 0
  {
    var rest := b[MatchAt(S, b)..];
    ScanMatches(S, b);
    ScanIsClean(S, rest, z);
    var o, w := Scan(S, rest).out + z, Scan(S, b).out + z;
    Assoc(MASK, Scan(S, rest).out, z);
    assert FollowsTo(b, w, 0);
    forall i, k | 0 <= i < |S| && 0 <= k < |Scan(S, b).out| ensures !At(S[i], w, k) {
      if At(S[i], w, k) {
        AtStarts(S, i, w, k);
        AtShift(S[i], MASK, o, k);
      }
    }
  }

  lemma {:induction false} PassIsClean(S: Secrets, b: seq<byte>, z: seq<byte>)
    requires Maskable(S) && b != [] && MatchAt(S, b) == 0 && !CouldStart(S, b) && Follows(Scan(S, b).held, z)
    ensures Follows(b, Scan(S, b).out + z)
    ensures forall i, k :: 0 <= i < |S| && 0 <= k < |Scan(S, b).out| ==> !At(S[i], Scan(S, b).out + z, k)
    decreases |b|, 0
  {
    ScanPasses(S, b);
    ScanIsClean(S, b[1..], z);
    var o, w := Scan(S, b[1..]).out + z, Scan(S, b).out + z;
    Assoc([b[0]], Scan(S, b[1..]).out, z);
    var n: nat :| FollowsTo(b[1..], o, n);
    assert b[..n + 1] == [b[0]] + b[1..][..n];
    assert w[..n + 1] == [b[0]] + o[..n];
    assert FollowsTo(b, w, n + 1);
    forall i, k | 0 <= i < |S| && 0 <= k < |Scan(S, b).out| ensures !At(S[i], w, k) {
      if At(S[i], w, k) {
        if k == 0 {
          SecretsNeedAStart(S, b, w, i);
          MatchIsLongest(S, b);
        } else {
          AtShift(S[i], [b[0]], o, k);
        }
      }
    }
  }

  lemma FollowsPrefix(a: seq<byte>, b: seq<byte>, w: seq<byte>)
    requires Follows(a + b, w)
    ensures Follows(a, w)
  {
    var n: nat :| FollowsTo(a + b, w, n);
    var m := if n <= |a| then n else |a|;
    assert a[..m] == (a + b)[..m] == (a + b)[..n][..m] == w[..n][..m] == w[..m];
    assert FollowsTo(a, w, m);
  }

  /** Whatever the chunking, no secret starts in what the feeds put out. */
  lemma {:induction false} StreamIsClean(S: Secrets, held: seq<byte>, chunks: seq<seq<byte>>)
    requires Maskable(S)
    ensures Follows(held, Flushed(S, held, chunks))
    ensures forall i, k :: 0 <= i < |S| && 0 <= k < |Fed(S, held, chunks).out| ==>
              !At(S[i], Flushed(S, held, chunks), k)
    decreases |chunks|
  {
    if chunks == [] {
      assert [] + held == held;
      assert FollowsTo(held, held, |held|);
    } else {
      var b := held + chunks[0];
      var r := Scan(S, b);
      StreamIsClean(S, r.held, chunks[1..]);
      var z := Flushed(S, r.held, chunks[1..]);
      ScanIsClean(S, b, z);
      var q := Fed(S, r.held, chunks[1..]);
      Assoc(r.out, q.out, q.held);
      assert Flushed(S, held, chunks) == r.out + z;
      FollowsPrefix(held, chunks[0], r.out + z);
      forall i, k | 0 <= i < |S| && 0 <= k < |Fed(S, held, chunks).out| ensures !At(S[i], r.out + z, k) {
        if At(S[i], r.out + z, k) && k >= |r.out| {
          AtShift(S[i], r.out, z, k);
        }
      }
    }
  }

  /** For every stream and chunking, no secret occurs in what the feeds put out. */
  lemma FeedsNeverLeak(S: Secrets, chunks: seq<seq<byte>>, i: nat)
    requires Maskable(S) && i < |S|
    ensures !Occurs(S[i], Fed(S, [], chunks).out)
  {
    var f := Fed(S, [], chunks);
    StreamIsClean(S, [], chunks);
    forall k | 0 <= k <= |f.out| ensures !At(S[i], f.out, k) {
      if At(S[i], f.out, k) {
        AtStarts(S, i, f.out, k);
        assert Flushed(S, [], chunks)[k..k + |S[i]|] == f.out[k..k + |S[i]|];
        assert At(S[i], Flushed(S, [], chunks), k);
      }
    }
  }

  /** What a stream can end with held back: a proper prefix of a secret that no secret starts. */
  predicate Holdable(S: Secrets, h: seq<byte>) {
    h == [] || (MatchAt(S, h) == 0 && CouldStart(S, h))
  }

  lemma {:induction false} HeldIsHoldable(S: Secrets, held: seq<byte>, chunks: seq<seq<byte>>)
    requires Holdable(S, held)
    ensures Holdable(S, Fed(S, held, chunks).held)
    decreases |chunks|
  {
    if chunks != [] {
      HeldIsStable(S, held + chunks[0]);
      HeldIsHoldable(S, Scan(S, held + chunks[0]).held, chunks[1..]);
    }
  }

  /** No proper prefix of a secret, unless a secret starts it, has a secret inside. */
  predicate FlushSafe(S: Secrets) {
    forall j, k, i :: 0 <= j < |S| && 0 < k < |S[j]| && 0 <= i < |S| && MatchAt(S, S[j][..k]) == 0 ==>
      !Occurs(S[i], S[j][..k])
  }

  lemma SafeToHold(S: Secrets, h: seq<byte>, i: nat)
    requires NonEmpty(S) && FlushSafe(S) && Holdable(S, h) && i < |S|
    ensures !Occurs(S[i], h)
  {
    if h != [] {
      var j :| 0 <= j < |S| && h < S[j];
      assert h == S[j][..|h|];
    }
  }

  lemma FlushKeepsClean(S: Secrets, chunks: seq<seq<byte>>, i: nat)
    requires Maskable(S) && FlushSafe(S) && i < |S|
    ensures !Occurs(S[i], Flushed(S, [], chunks))
  {
    var f := Fed(S, [], chunks);
    var w := Flushed(S, [], chunks);
    StreamIsClean(S, [], chunks);
    HeldIsHoldable(S, [], chunks);
    SafeToHold(S, f.held, i);
    forall k | 0 <= k <= |w| ensures !At(S[i], w, k) {
      if At(S[i], w, k) && k >= |f.out| {
        AtShift(S[i], f.out, f.held, k);
      }
    }
  }

  /** With the flush, no stream leaks if and only if the set is flush-safe. */
  lemma FlushLeaksExactly(S: Secrets)
    requires Maskable(S)
    ensures FlushSafe(S) <==>
            forall chunks, i :: 0 <= i < |S| ==> !Occurs(S[i], Flushed(S, [], chunks))
  {
    if FlushSafe(S) {
      forall chunks, i | 0 <= i < |S| ensures !Occurs(S[i], Flushed(S, [], chunks)) {
        FlushKeepsClean(S, chunks, i);
      }
    } else {
      var j, k, i :| 0 <= j < |S| && 0 < k < |S[j]| && 0 <= i < |S|
                     && MatchAt(S, S[j][..k]) == 0 && Occurs(S[i], S[j][..k]);
      var h := S[j][..k];
      assert h < S[j];
      FedOne(S, [], h);
      assert [] + h == h;
      assert Flushed(S, [], [h]) == [] + h == h;
    }
  }

  lemma PrefixOccurs(s: seq<byte>, h: seq<byte>, t: seq<byte>)
    requires Occurs(s, h) && h <= t
    ensures Occurs(s, t)
  {
    var k :| 0 <= k <= |h| && At(s, h, k);
    assert t[k..k + |s|] == h[k..k + |s|];
    assert At(s, t, k);
  }

  lemma OccursIsShorter(s: seq<byte>, h: seq<byte>)
    requires Occurs(s, h)
    ensures |s| <= |h|
  {
  }

  /** A caller can make sure of it: no secret occurs inside another. */
  lemma NestingFreeIsFlushSafe(S: Secrets)
    requires Maskable(S)
    requires forall i, j :: 0 <= i < |S| && 0 <= j < |S| && |S[i]| < |S[j]| ==> !Occurs(S[i], S[j])
    ensures FlushSafe(S)
  {
    forall j, k, i | 0 <= j < |S| && 0 < k < |S[j]| && 0 <= i < |S| && MatchAt(S, S[j][..k]) == 0
      ensures !Occurs(S[i], S[j][..k])
    {
      if Occurs(S[i], S[j][..k]) {
        OccursIsShorter(S[i], S[j][..k]);
        PrefixOccurs(S[i], S[j][..k], S[j]);
      }
    }
  }

  /** Where no secret occurs, there is nothing to replace. */
  lemma {:induction false} ReplaceNothing(S: Secrets, b: seq<byte>)
    requires forall i :: 0 <= i < |S| ==> !Occurs(S[i], b)
    ensures Replace(S, b) == b
    decreases |b|
  {
    if b != [] {
      if MatchAt(S, b) > 0 {
        MatchOccurs(S, b);
      }
      forall i | 0 <= i < |S| ensures !Occurs(S[i], b[1..]) {
        if Occurs(S[i], b[1..]) {
          SuffixOccurs(S[i], b);
        }
      }
      ReplaceNothing(S, b[1..]);
    }
  }

  lemma MatchOccurs(S: Secrets, b: seq<byte>)
    requires MatchAt(S, b) > 0
    ensures exists i :: 0 <= i < |S| && Occurs(S[i], b)
  {
    MatchIsLongest(S, b);
    var i :| 0 <= i < |S| && S[i] == b[..MatchAt(S, b)];
    assert b[0..0 + |S[i]|] == S[i];
    assert At(S[i], b, 0);
  }

  lemma SuffixOccurs(s: seq<byte>, b: seq<byte>)
    requires b != [] && Occurs(s, b[1..])
    ensures Occurs(s, b)
  {
    var k :| 0 <= k <= |b| - 1 && At(s, b[1..], k);
    assert b[k + 1..k + 1 + |s|] == b[1..][k..k + |s|];
    assert At(s, b, k + 1);
  }

  /** For a prefix-free, flush-safe set the whole streaming machinery is leftmost
      replacement of the secrets in the stream, however it was cut. */
  lemma StreamIsReplacement(S: Secrets, chunks: seq<seq<byte>>)
    requires NonEmpty(S) && PrefixFree(S) && FlushSafe(S)
    ensures Flushed(S, [], chunks) == Replace(S, Concat(chunks))
  {
    var b := Concat(chunks);
    ChunkingIsIrrelevant(S, [], chunks);
    assert [] + b == b;
    ScanReplaces(S, b);
    HeldIsHoldable(S, [], chunks);
    forall i | 0 <= i < |S| ensures !Occurs(S[i], Scan(S, b).held) {
      SafeToHold(S, Scan(S, b).held, i);
    }
    ReplaceNothing(S, Scan(S, b).held);
  }

  lemma NotAtStart(S: Secrets, b: seq<byte>, i: nat, k: nat)
    requires NonEmpty(S) && i < |S| && At(S[i], b, k) && MatchAt(S, b) == 0
    ensures k > 0
  {
    MatchIsLongest(S, b);
  }

  /** No secret is empty or starts with the mask's character. */
  predicate Starless(S: Secrets) {
    forall i :: 0 <= i < |S| ==> S[i] != [] && S[i][0] != STAR
  }

  /** Where a secret occurs, replacement changes something. */
  lemma {:induction false} ReplaceChanges(S: Secrets, b: seq<byte>, i: nat, k: nat)
    requires Starless(S) && i < |S| && At(S[i], b, k)
    ensures Replace(S, b) != b
    decreases |b|
  {
    MatchIsLongest(S, b);
    assert b != [];
    if MatchAt(S, b) > 0 {
      var j :| 0 <= j < |S| && S[j] == b[..MatchAt(S, b)];
      assert b[0] == S[j][0];
    } else {
      NotAtStart(S, b, i, k);
      assert b[1..][k - 1..k - 1 + |S[i]|] == b[k..k + |S[i]|];
      ReplaceChanges(S, b[1..], i, k - 1);
      assert b == [b[0]] + b[1..];
    }
  }

  /** A held-back prefix with a secret inside it is flushed as it is. */
  lemma UnsafeFlushIsNoReplacement(S: Secrets) returns (h: seq<byte>)
    requires Starless(S) && !FlushSafe(S)
    ensures Flushed(S, [], [h]) != Replace(S, h)
  {
    var j, k, i :| 0 <= j < |S| && 0 < k < |S[j]| && 0 <= i < |S|
                   && MatchAt(S, S[j][..k]) == 0 && Occurs(S[i], S[j][..k]);
    h := S[j][..k];
    assert h < S[j];
    FedOne(S, [], h);
    assert [] + h == h;
    var p :| 0 <= p <= |h| && At(S[i], h, p);
    ReplaceChanges(S, h, i, p);
  }

  lemma ConcatOne(b: seq<byte>)
    ensures Concat([b]) == b
  {
    assert [b][1..] == [] && b + [] == b;
  }

  ghost predicate Replaces(S: Secrets) {
    forall chunks :: Flushed(S, [], chunks) == Replace(S, Concat(chunks))
  }

  lemma ReplacesIsPrefixFree(S: Secrets)
    requires NonEmpty(S) && Replaces(S)
    ensures PrefixFree(S)
  {
    forall chunks ensures Flushed(S, [], chunks) == Flushed(S, [], [Concat(chunks)]) {
      ConcatOne(Concat(chunks));
    }
    ChunkingExactly(S);
  }

  /** Every stream, however cut, comes out with its secrets replaced, leftmost
      first, if and only if no secret is a proper prefix of another and the set is flush-safe. */
  lemma ReplacementExactly(S: Secrets)
    requires Starless(S)
    ensures PrefixFree(S) && FlushSafe(S) <==> Replaces(S)
  {
    if PrefixFree(S) && FlushSafe(S) {
      forall chunks ensures Flushed(S, [], chunks) == Replace(S, Concat(chunks)) {
        StreamIsReplacement(S, chunks);
      }
    }
    if Replaces(S) {
      ReplacesIsPrefixFree(S);
      if !FlushSafe(S) {
        var h := UnsafeFlushIsNoReplacement(S);
        ConcatOne(h);
      }
    }
  }
}
