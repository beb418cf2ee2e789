/** Redaction of secrets in a stream that arrives in pieces: the scan as a
recursive function, the reference it is compared with, and the loops. */
module Redact {
  import opened Bytes

  type Secrets = seq<seq<byte>>

  const MASK: seq<byte> := [STAR, STAR, STAR]

  predicate NonEmpty(S: Secrets) {
    forall i :: 0 <= i < |S| ==> S[i] != []
  }

  /** How much of b a secret takes up from the left, the longest one counting. */
  function MatchAt(S: Secrets, b: seq<byte>): (m: nat)
    ensures m <= |b|
  {
    if S == [] then 0
    else
      var n := |S| - 1;
      var m := MatchAt(S[..n], b);
      if S[n] <= b && |S[n]| > m then |S[n]| else m
  }

  lemma {:induction false} MatchIsLongest(S: Secrets, b: seq<byte>)
    ensures forall i :: 0 <= i < |S| && S[i] <= b ==> |S[i]| <= MatchAt(S, b)
    ensures MatchAt(S, b) > 0 ==> exists i :: 0 <= i < |S| && S[i] == b[..MatchAt(S, b)]
  {
    if S != [] {
      var n := |S| - 1;
      MatchIsLongest(S[..n], b);
      var m := MatchAt(S[..n], b);
      if S[n] <= b && |S[n]| > m {
        assert S[n] == b[..|S[n]|];
      } else if m > 0 {
        var i :| 0 <= i < n && S[..n][i] == b[..m];
        assert S[i] == b[..m];
      }
    }
  }

  /** b is a proper prefix of some secret. */
  predicate CouldStart(S: Secrets, b: seq<byte>) {
    exists i :: 0 <= i < |S| && b < S[i]
  }

  datatype Scanned = Scanned(out: seq<byte>, held: seq<byte>)

  /** What one feed makes of the bytes it has: the redacted output, and the tail it holds back. */
  function Scan(S: Secrets, b: seq<byte>): Scanned
    decreases |b|
  {
    if b == [] then Scanned([], [])
    else
      var m := MatchAt(S, b);
      if m > 0 then
        var r := Scan(S, b[m..]);
        Scanned(MASK + r.out, r.held)
      else if CouldStart(S, b) then Scanned([], b)
      else
        var r := Scan(S, b[1..]);
        Scanned([b[0]] + r.out, r.held)
  }

  /** A stream fed in chunks, starting with some bytes held back. */
  function Fed(S: Secrets, held: seq<byte>, chunks: seq<seq<byte>>): Scanned
    decreases |chunks|
  {
    if chunks == [] then Scanned([], held)
    else
      var r := Scan(S, held + chunks[0]);
      var q := Fed(S, r.held, chunks[1..]);
      Scanned(r.out + q.out, q.held)
  }

  /** The whole output of a stream: what the feeds gave, and what the flush adds. */
  function Flushed(S: Secrets, held: seq<byte>, chunks: seq<seq<byte>>): seq<byte> {
    Fed(S, held, chunks).out + Fed(S, held, chunks).held
  }

  /** The reference: the longest secret at the leftmost place is replaced, and so on. */
  function Replace(S: Secrets, b: seq<byte>): seq<byte>
    decreases |b|
  {
    if b == [] then []
    else
      var m := MatchAt(S, b);
      if m > 0 then MASK + Replace(S, b[m..]) else [b[0]] + Replace(S, b[1..])
  }

  // ---- the code's loops ----

  class SecretSet {
    var secrets: Secrets

    predicate Valid()
      reads this
    {
      NonEmpty(secrets) && forall i, j :: 0 <= i < j < |secrets| ==> secrets[i] != secrets[j]
    }

    constructor ()
      ensures Valid() && secrets == []
    {
      secrets := [];
    }

    /** The set grows by a new value and by nothing else. */
    method Add(value: seq<byte>)
      requires Valid()
      modifies this
      ensures Valid()
      ensures secrets == if value == [] || value in old(secrets) then old(secrets) else old(secrets) + [value]
    {
      if value == [] {
        return;
      }
      for i := 0 to |secrets|
        invariant value !in secrets[..i] && secrets == old(secrets)
      {
        if secrets[i] == value {
          return;
        }
        assert secrets[..i + 1] == secrets[..i] + [secrets[i]];
      }
      assert secrets[..|secrets|] == secrets;
      secrets := secrets + [value];
    }
  }

  method FindMatch(S: Secrets, b: seq<byte>) returns (best: nat)
    ensures best == MatchAt(S, b)
  {
    best := 0;
    for i := 0 to |S|
      invariant best == MatchAt(S[..i], b)
    {
      assert S[..i + 1][..i] == S[..i];
      if |S[i]| <= |b| && |S[i]| > best && b[..|S[i]|] == S[i] {
        best := |S[i]|;
      }
    }
    assert S[..|S|] == S;
  }

  method MayStart(S: Secrets, b: seq<byte>) returns (yes: bool)
    ensures yes == CouldStart(S, b)
  {
    for i := 0 to |S|
      invariant forall k :: 0 <= k < i ==> !(b < S[k])
    {
      if |S[i]| > |b| && S[i][..|b|] == b {
        assert b < S[i];
        return true;
      }
    }
    return false;
  }

  /** With no secrets at all, bytes pass through untouched. */
  lemma {:induction false} NoSecretsNoChange(b: seq<byte>)
    ensures Scan([], b) == Scanned(b, [])
  {
    if b != [] {
      NoSecretsNoChange(b[1..]);
    }
  }

  /** The scan of buf has given `out` for its first p bytes. */
  predicate ScannedTo(S: Secrets, buf: seq<byte>, out: seq<byte>, p: nat)
    requires p <= |buf|
  {
    var r := Scan(S, buf[p..]);
    Scan(S, buf) == Scanned(out + r.out, r.held)
  }

  lemma ScanMask(S: Secrets, buf: seq<byte>, out: seq<byte>, p: nat, m: nat)
    requires p < |buf| && m == MatchAt(S, buf[p..]) > 0 && ScannedTo(S, buf, out, p)
    ensures ScannedTo(S, buf, out + MASK, p + m)
  {
    assert buf[p..][m..] == buf[p + m..];
    var r := Scan(S, buf[p + m..]);
    assert out + (MASK + r.out) == (out + MASK) + r.out;
  }

  lemma ScanByte(S: Secrets, buf: seq<byte>, out: seq<byte>, p: nat)
    requires p < |buf| && MatchAt(S, buf[p..]) == 0 && !CouldStart(S, buf[p..]) && ScannedTo(S, buf, out, p)
    ensures ScannedTo(S, buf, out + [buf[p]], p + 1)
  {
    assert buf[p..][1..] == buf[p + 1..];
    var r := Scan(S, buf[p + 1..]);
    assert out + ([buf[p]] + r.out) == (out + [buf[p]]) + r.out;
  }

  lemma ScanStops(S: Secrets, buf: seq<byte>, out: seq<byte>, p: nat)
    requires p <= |buf| && ScannedTo(S, buf, out, p)
    ensures p == |buf| ==> Scan(S, buf) == Scanned(out, [])
    ensures p < |buf| && MatchAt(S, buf[p..]) == 0 && CouldStart(S, buf[p..]) ==>
              Scan(S, buf) == Scanned(out, buf[p..])
  {
    assert out + [] == out;
  }

  /** One turn of the scan loop: a secret masked, a byte passed, or nothing consumed: the rest is held. */
  method ScanStep(S: Secrets, buf: seq<byte>, ghost out: seq<byte>, p: nat) returns (consumed: nat, emitted: seq<byte>)
    requires p < |buf| && ScannedTo(S, buf, out, p)
    ensures p + consumed <= |buf|
    ensures consumed > 0 ==> ScannedTo(S, buf, out + emitted, p + consumed)
    ensures consumed == 0 ==> Scan(S, buf) == Scanned(out, buf[p..])
  {
    var m := FindMatch(S, buf[p..]);
    if m > 0 {
      ScanMask(S, buf, out, p, m);
      return m, MASK;
    }
    var could := MayStart(S, buf[p..]);
    if could {
      ScanStops(S, buf, out, p);
      return 0, [];
    }
    ScanByte(S, buf, out, p);
    return 1, [buf[p]];
  }

  /** The scan loop: what is consumed, and what is left to hold. */
  method ScanBuffer(S: Secrets, buf: seq<byte>) returns (out: seq<byte>, held: seq<byte>)
    ensures Scanned(out, held) == Scan(S, buf)
  {
    out := [];
    var p := 0;
    assert buf[0..] == buf;
    while p < |buf|
      invariant 0 <= p <= |buf| && ScannedTo(S, buf, out, p)
    {
      var consumed, emitted := ScanStep(S, buf, out, p);
      if consumed == 0 {
        return out, buf[p..];
      }
      out := out + emitted;
      p := p + consumed;
    }
    ScanStops(S, buf, out, p);
    return out, [];
  }

  class Redactor {
    var held: seq<byte>

    constructor ()
      ensures held == []
    {
      held := [];
    }

    /** One piece of the stream: the scan of what was held and this. */
    method Feed(S: Secrets, input: seq<byte>) returns (out: seq<byte>)
      modifies this
      ensures Scanned(out, held) == Scan(S, old(held) + input)
    {
      if S == [] && held == [] {
        NoSecretsNoChange(input);
        assert held + input == input;
        return input;
      }
      out, held := ScanBuffer(S, held + input);
    }

    /** The stream ended: the held bytes are not a whole secret. */
    method Flush() returns (out: seq<byte>)
      modifies this
      ensures out == old(held) && held == []
    {
      out := held;
      held := [];
    }
  }
}
