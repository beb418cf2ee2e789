/** When masks themselves give a secret away. For a set of one secret the feeds
never put it out if and only if no mask can be part of it: for every other
secret there is a stream whose output spells it with a mask. */
module RedactStars {
  import opened Bytes
  import opened Redact
  import opened RedactFacts
  import opened RedactLeaks

  /** Where s, the only secret, does not stand and the rest is not its beginning, a byte passes. */
  lemma OneSecret(s: seq<byte>, b: seq<byte>)
    requires s != []
    ensures MatchAt([s], b) == if s <= b then |s| else 0
    ensures CouldStart([s], b) <==> b < s
  {
    assert [s][..0] == [] && MatchAt([], b) == 0;
    assert [s][0] == s;
  }

  /** Nothing starts in the first bytes of b, and the rest is long enough to tell. */
  predicate Passes(s: seq<byte>, b: seq<byte>, n: nat) {
    n <= |b| && |b| - n >= |s| && forall i :: 0 <= i < n ==> !(s <= b[i..])
  }

  lemma PassesOne(s: seq<byte>, b: seq<byte>, n: nat)
    requires s != [] && Passes(s, b, n) && n > 0
    ensures Passes(s, b[1..], n - 1)
    ensures Scan([s], b).out == [b[0]] + Scan([s], b[1..]).out
  {
    forall i | 0 <= i < n - 1 ensures !(s <= b[1..][i..]) {
      assert b[1..][i..] == b[i + 1..];
    }
    assert b[0..] == b;
    OneSecret(s, b);
    ScanPasses([s], b);
  }

  lemma {:induction false} PassedOn(s: seq<byte>, b: seq<byte>, n: nat)
    requires s != [] && Passes(s, b, n)
    ensures Scan([s], b).out == b[..n] + Scan([s], b[n..]).out
    decreases n
  {
    if n == 0 {
      assert b[0..] == b;
    } else {
      PassesOne(s, b, n);
      PassedOn(s, b[1..], n - 1);
      Peel(b, n, Scan([s], b[n..]).out);
    }
  }

  lemma Peel(b: seq<byte>, n: nat, x: seq<byte>)
    requires 0 < n <= |b|
    ensures b[1..][n - 1..] == b[n..]
    ensures [b[0]] + (b[1..][..n - 1] + x) == b[..n] + x
  {
  }

  /** A whole secret, and then more. */
  lemma Masked(s: seq<byte>, rest: seq<byte>)
    requires s != []
    ensures Scan([s], s + rest).out == MASK + Scan([s], rest).out
  {
    var b := s + rest;
    OneSecret(s, b);
    assert s <= b && b[|s|..] == rest;
    ScanMatches([s], b);
  }

  function Padding(x: byte, n: nat): seq<byte> {
    seq(n, _ => x)
  }

  function Other(x: byte): (y: byte)
    ensures y != x
  {
    if x == 0 then 1 else 0
  }

  /** Bytes that cannot end the secret. */
  function After(s: seq<byte>): seq<byte>
    requires s != []
  {
    Padding(Other(s[|s| - 1]), |s|)
  }

  /** A proper end of the secret passes, when bytes follow that cannot end it. */
  lemma EndPasses(s: seq<byte>, v: seq<byte>)
    requires s != [] && |v| < |s|
    ensures Passes(s, v + After(s), |v|)
  {
    var b := v + After(s);
    forall i | 0 <= i < |v| ensures !(s <= b[i..]) {
      assert b[i..][|s| - 1] == b[i + |s| - 1] == Other(s[|s| - 1]);
    }
  }

  /** A beginning of the secret passes before the secret, when a star follows it
      there and the secret does not start with one. */
  lemma StartPasses(s: seq<byte>, n: nat, rest: seq<byte>)
    requires n < |s| && s[n] == STAR && s[0] != STAR
    ensures Passes(s, s[..n] + (s + rest), n)
  {
    var b := s[..n] + (s + rest);
    forall i: nat | i < n ensures !(s <= b[i..]) {
      if s <= b[i..] {
        ShiftedStart(s, n, i, b);
      }
    }
  }

  /** If the secret stands i bytes into its own beginning, its first byte comes back at n. */
  lemma ShiftedStart(s: seq<byte>, n: nat, i: nat, b: seq<byte>)
    requires i < n < |s| && s[..n] + s <= b && s <= b[i..]
    ensures s[n] == s[0]
  {
    assert s[n] == b[i..][n] == b[n + i] == s[i];
    assert s[0] == b[i..][0] == b[i] == s[..n][i] == s[i];
  }

  lemma StartThenSecret(s: seq<byte>, n: nat, rest: seq<byte>)
    requires n < |s| && s[n] == STAR && s[0] != STAR
    ensures Scan([s], s[..n] + (s + rest)).out == s[..n] + Scan([s], s + rest).out
  {
    var b := s[..n] + (s + rest);
    StartPasses(s, n, rest);
    PassedOn(s, b, n);
    assert b[n..] == s + rest && b[..n] == s[..n];
  }

  ghost predicate NeverOut(s: seq<byte>) {
    forall chunks :: !Occurs(s, Fed([s], [], chunks).out)
  }

  /** The stream as one chunk. */
  lemma OneChunk(s: seq<byte>, b: seq<byte>)
    ensures Fed([s], [], [b]).out == Scan([s], b).out
  {
    FedOne([s], [], b);
    assert [] + b == b;
  }

  lemma StandsAt(s: seq<byte>, a: seq<byte>, z: seq<byte>)
    ensures Occurs(s, a + s + z)
  {
    assert At(s, a + s + z, |a|);
  }

  /** The secret and a proper end of it: a mask, and that end. */
  lemma MaskThenEnd(s: seq<byte>, v: seq<byte>) returns (t: seq<byte>, z: seq<byte>)
    requires s != [] && |v| < |s|
    ensures Scan([s], s + t).out == MASK + (v + z)
  {
    t := v + After(s);
    Masked(s, t);
    EndPasses(s, v);
    PassedOn(s, t, |v|);
    z := Scan([s], t[|v|..]).out;
    assert t[..|v|] == v;
  }

  lemma StarFirstLeaks(s: seq<byte>) returns (b: seq<byte>)
    requires s != [] && s[0] == STAR
    ensures Occurs(s, Scan([s], b).out)
  {
    var v := s[1..];
    var t, z := MaskThenEnd(s, v);
    b := s + t;
    assert s == [STAR] + v;
    assert MASK + (v + z) == [STAR, STAR] + ([STAR] + v) + z;
    StandsAt(s, [STAR, STAR], z);
  }

  lemma StarLastLeaks(s: seq<byte>) returns (b: seq<byte>)
    requires s != [] && s[0] != STAR && s[|s| - 1] == STAR
    ensures Occurs(s, Scan([s], b).out)
  {
    var n := |s| - 1;
    var u := s[..n];
    b := u + (s + []);
    StartThenSecret(s, n, []);
    Masked(s, []);
    var z := [STAR, STAR] + Scan([s], []).out;
    assert s == u + [STAR];
    assert Scan([s], b).out == [] + s + z;
    StandsAt(s, [], z);
  }

  lemma SplitAtMask(s: seq<byte>, n: nat)
    requires At(MASK, s, n)
    ensures s[n] == STAR && s == s[..n] + (MASK + s[n + 3..])
  {
    assert s[n] == s[n..n + 3][0];
    assert s == s[..n] + (s[n..n + 3] + s[n + 3..]);
  }

  lemma MaskInsideLeaks(s: seq<byte>, n: nat) returns (b: seq<byte>)
    requires s != [] && s[0] != STAR && At(MASK, s, n)
    ensures Occurs(s, Scan([s], b).out)
  {
    var u, v := s[..n], s[n + 3..];
    var t, z := MaskThenEnd(s, v);
    b := u + (s + t);
    SplitAtMask(s, n);
    StartThenSecret(s, n, t);
    Around(u, MASK, v, z);
    StandsAt(s, [], z);
  }

  lemma Around(u: seq<byte>, m: seq<byte>, v: seq<byte>, z: seq<byte>)
    ensures u + (m + (v + z)) == [] + (u + (m + v)) + z
  {
  }

  /** The feeds never put a lone secret out if and only if no mask can be part of it. */
  lemma StarsExactly(s: seq<byte>)
    requires s != []
    ensures NeverOut(s) <==> Clear(s)
  {
    if Clear(s) {
      forall chunks ensures !Occurs(s, Fed([s], [], chunks).out) {
        FeedsNeverLeak([s], chunks, 0);
      }
    } else {
      var b;
      if s[0] == STAR {
        b := StarFirstLeaks(s);
      } else if s[|s| - 1] == STAR {
        b := StarLastLeaks(s);
      } else {
        var n :| 0 <= n <= |s| && At(MASK, s, n);
        b := MaskInsideLeaks(s, n);
      }
      OneChunk(s, b);
    }
  }
}
