/** What redaction guarantees, for every stream and every chunking. */
module RedactFacts {
  import opened Bytes
  import opened Redact

  // ---- chunking ----

  predicate PrefixFree(S: Secrets) {
    forall i, j :: 0 <= i < |S| && 0 <= j < |S| ==> !(S[i] < S[j])
  }

  /** More bytes do not change what is matched at a place, unless they could begin a secret. */
  lemma MatchStable(S: Secrets, a: seq<byte>, b: seq<byte>)
    requires NonEmpty(S) && PrefixFree(S) && a != []
    ensures MatchAt(S, a) > 0 ==> MatchAt(S, a + b) == MatchAt(S, a)
    ensures MatchAt(S, a) == 0 && !CouldStart(S, a) ==> MatchAt(S, a + b) == 0 && !CouldStart(S, a + b)
  {
    MatchIsLongest(S, a);
    MatchIsLongest(S, a + b);
    var m, n := MatchAt(S, a), MatchAt(S, a + b);
    if m > 0 {
      var i :| 0 <= i < |S| && S[i] == a[..m];
      assert S[i] <= a + b;
      var j :| 0 <= j < |S| && S[j] == (a + b)[..n];
      assert S[i] <= S[j];
    } else if !CouldStart(S, a) {
      if n > 0 {
        var j :| 0 <= j < |S| && S[j] == (a + b)[..n];
        NotComparable(a, b, S[j]);
      }
      forall j | 0 <= j < |S| ensures !(a + b < S[j]) {
        if a + b < S[j] {
          NotComparable(a, b, S[j]);
        }
      }
    }
  }

  /** What shares its start with a + b either starts a or is started by it. */
  lemma NotComparable(a: seq<byte>, b: seq<byte>, s: seq<byte>)
    requires s <= a + b || a + b < s
    ensures s <= a || a < s
  {
    if |s| <= |a| {
      assert s == s[..|s|] == (a + b)[..|s|] == a[..|s|];
    } else {
      assert a == (a + b)[..|a|] == s[..|a|];
    }
  }

  lemma Assoc(a: seq<byte>, b: seq<byte>, c: seq<byte>)
    ensures (a + b) + c == a + (b + c)
  {
  }

  // How a scan goes on, by what it finds first.

  lemma ScanMatches(S: Secrets, b: seq<byte>)
    requires b != [] && MatchAt(S, b) > 0
    ensures var r := Scan(S, b[MatchAt(S, b)..]); Scan(S, b) == Scanned(MASK + r.out, r.held)
  {
  }

  lemma ScanPasses(S: Secrets, b: seq<byte>)
    requires b != [] && MatchAt(S, b) == 0 && !CouldStart(S, b)
    ensures var r := Scan(S, b[1..]); Scan(S, b) == Scanned([b[0]] + r.out, r.held)
  {
  }

  /** What scanning a + b should give, from what scanning a gave. */
  function ThenScan(S: Secrets, r: Scanned, b: seq<byte>): Scanned {
    var q := Scan(S, r.held + b);
    Scanned(r.out + q.out, q.held)
  }

  lemma ThenScanShifts(S: Secrets, x: seq<byte>, r: Scanned, b: seq<byte>)
    ensures var t := ThenScan(S, r, b); ThenScan(S, Scanned(x + r.out, r.held), b) == Scanned(x + t.out, t.held)
  {
    Assoc(x, r.out, Scan(S, r.held + b).out);
  }

  /** Scanning a + b at once is scanning a, and then b after what a held back. */
  predicate Splits(S: Secrets, a: seq<byte>, b: seq<byte>) {
    Scan(S, a + b) == ThenScan(S, Scan(S, a), b)
  }

  lemma MatchSplits(S: Secrets, a: seq<byte>, b: seq<byte>, m: nat)
    requires a != [] && m == MatchAt(S, a) == MatchAt(S, a + b) > 0 && Splits(S, a[m..], b)
    ensures Splits(S, a, b)
  {
    assert (a + b)[m..] == a[m..] + b;
    ScanMatches(S, a);
    ScanMatches(S, a + b);
    ThenScanShifts(S, MASK, Scan(S, a[m..]), b);
  }

  lemma PassSplits(S: Secrets, a: seq<byte>, b: seq<byte>)
    requires a != [] && MatchAt(S, a) == 0 && !CouldStart(S, a)
    requires MatchAt(S, a + b) == 0 && !CouldStart(S, a + b) && Splits(S, a[1..], b)
    ensures Splits(S, a, b)
  {
    assert (a + b)[1..] == a[1..] + b;
    ScanPasses(S, a);
    ScanPasses(S, a + b);
    ThenScanShifts(S, [a[0]], Scan(S, a[1..]), b);
  }

  lemma {:induction false} ScanSplits(S: Secrets, a: seq<byte>, b: seq<byte>)
    requires NonEmpty(S) && PrefixFree(S)
    ensures Splits(S, a, b)
    decreases |a|
  {
    if a == [] {
      assert a + b == b && [] + b == b && [] + Scan(S, b).out == Scan(S, b).out;
    } else {
      MatchStable(S, a, b);
      if MatchAt(S, a) > 0 {
        ScanSplits(S, a[MatchAt(S, a)..], b);
        MatchSplits(S, a, b, MatchAt(S, a));
      } else if CouldStart(S, a) {
        assert [] + Scan(S, a + b).out == Scan(S, a + b).out;
      } else {
        ScanSplits(S, a[1..], b);
        PassSplits(S, a, b);
      }
    }
  }

  /** When no secret is a proper prefix of another, the chunking of a stream does not matter. */
  lemma {:induction false} ChunkingIsIrrelevant(S: Secrets, held: seq<byte>, chunks: seq<seq<byte>>)
    requires NonEmpty(S) && PrefixFree(S) && Scan(S, held) == Scanned([], held)
    ensures Fed(S, held, chunks) == Scan(S, held + Concat(chunks))
    decreases |chunks|
  {
    if chunks == [] {
      assert held + [] == held;
    } else {
      var r := Scan(S, held + chunks[0]);
      HeldIsStable(S, held + chunks[0]);
      ChunkingIsIrrelevant(S, r.held, chunks[1..]);
      ScanSplits(S, held + chunks[0], Concat(chunks[1..]));
      assert held + Concat(chunks) == (held + chunks[0]) + Concat(chunks[1..]);
    }
  }

  /** What a scan holds back, it would hold back again. */
  lemma {:induction false} HeldIsStable(S: Secrets, b: seq<byte>)
    ensures var h := Scan(S, b).held;
            Scan(S, h) == Scanned([], h) && (h != [] ==> MatchAt(S, h) == 0 && CouldStart(S, h))
    decreases |b|
  {
    if b != [] {
      var m := MatchAt(S, b);
      if m > 0 {
        HeldIsStable(S, b[m..]);
      } else if !CouldStart(S, b) {
        HeldIsStable(S, b[1..]);
      }
    }
  }

  lemma ScanAWholeSecret(S: Secrets, i: nat)
    requires NonEmpty(S) && i < |S|
    ensures Scan(S, S[i]) == Scanned(MASK, [])
  {
    MatchIsLongest(S, S[i]);
    assert S[i][|S[i]|..] == [];
    assert MASK + [] == MASK;
  }

  lemma {:induction false} NothingVanishes(S: Secrets, b: seq<byte>)
    requires b != []
    ensures Scan(S, b).out + Scan(S, b).held != []
  {
  }

  /** The condition is exact: if one secret is a proper prefix of another, some
      stream is redacted differently when it is cut after the shorter one. */
  lemma PrefixesBreakChunking(S: Secrets, i: nat, j: nat)
    requires NonEmpty(S) && i < |S| && j < |S| && S[i] < S[j]
    ensures var s, t := S[i], S[j];
            Flushed(S, [], [s, t[|s|..]]) != Flushed(S, [], [s + t[|s|..]])
  {
    var s, t := S[i], S[j];
    var u := t[|s|..];
    assert s + u == t;
    ScanAWholeSecret(S, i);
    ScanAWholeSecret(S, j);
    NothingVanishes(S, u);
    FedOne(S, [], t);
    FedOne(S, [], u);
    assert [] + s == s && [] + t == t && [] + u == u && [s, u][1..] == [u];
    assert Fed(S, [], [s, u]) == Scanned(MASK + Scan(S, u).out, Scan(S, u).held);
    Assoc(MASK, Scan(S, u).out, Scan(S, u).held);
    assert |Flushed(S, [], [s, u])| > 3;
  }

  lemma FedOne(S: Secrets, held: seq<byte>, b: seq<byte>)
    ensures Fed(S, held, [b]) == Scan(S, held + b)
  {
    var r := Scan(S, held + b);
    assert [b][1..] == [] && r.out + [] == r.out;
  }

  lemma ConcatTwo(s: seq<byte>, u: seq<byte>)
    ensures Concat([s, u]) == s + u
  {
    assert [s, u][1..] == [u] && [u][1..] == [];
    assert Concat([u]) == u + Concat([]) == u;
  }

  /** The chunking never matters, if and only if no secret is a proper prefix of another. */
  lemma ChunkingExactly(S: Secrets)
    requires NonEmpty(S)
    ensures PrefixFree(S) <==> forall chunks :: Flushed(S, [], chunks) == Flushed(S, [], [Concat(chunks)])
  {
    if PrefixFree(S) {
      forall chunks ensures Flushed(S, [], chunks) == Flushed(S, [], [Concat(chunks)]) {
        ChunkingIsIrrelevant(S, [], chunks);
        FedOne(S, [], Concat(chunks));
      }
    } else {
      var i, j :| 0 <= i < |S| && 0 <= j < |S| && S[i] < S[j];
      PrefixesBreakChunking(S, i, j);
      var s, u := S[i], S[j][|S[i]|..];
      ConcatTwo(s, u);
      assert Flushed(S, [], [s, u]) != Flushed(S, [], [Concat([s, u])]);
    }
  }

  // ---- the reference replacement ----

  /** Flushing after whole feeds is leftmost-longest replacement, up to what is held. */
  lemma {:induction false} ScanReplaces(S: Secrets, b: seq<byte>)
    ensures Scan(S, b).out + Replace(S, Scan(S, b).held) == Replace(S, b)
    decreases |b|
  {
    if b != [] {
      var m := MatchAt(S, b);
      if m > 0 {
        ScanReplaces(S, b[m..]);
        ScanMatches(S, b);
        Assoc(MASK, Scan(S, b[m..]).out, Replace(S, Scan(S, b).held));
      } else if CouldStart(S, b) {
        assert [] + Replace(S, b) == Replace(S, b);
      } else {
        ScanReplaces(S, b[1..]);
        ScanPasses(S, b);
        Assoc([b[0]], Scan(S, b[1..]).out, Replace(S, Scan(S, b).held));
      }
    }
  }

  // ---- bounds ----

  predicate AllShorter(S: Secrets, n: nat) {
    forall i :: 0 <= i < |S| ==> |S[i]| <= n
  }

  /** A feed gives at most three bytes for each it was given, and holds less than the longest secret. */
  lemma {:induction false} ScanBounds(S: Secrets, b: seq<byte>, longest: nat)
    requires AllShorter(S, longest)
    ensures |Scan(S, b).out| + |Scan(S, b).held| <= 3 * |b|
    ensures Scan(S, b).held != [] ==> |Scan(S, b).held| < longest
    decreases |b|
  {
    if b != [] {
      var m := MatchAt(S, b);
      if m > 0 {
        ScanBounds(S, b[m..], longest);
      } else if !CouldStart(S, b) {
        ScanBounds(S, b[1..], longest);
      }
    }
  }
}
