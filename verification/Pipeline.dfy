/** A step's output on its way to the log: redactor, ring and sink, joined the
way the event loop drains a pipe. */
module Pipeline {
  import opened Bytes
  import opened Redact
  import opened RedactFacts
  import opened RedactLeaks
  import opened RedactSteps
  import opened Ring
  import opened Sink

  const CHUNK: nat := 65536
  const RING_CAPACITY: nat := 1048576

  /** How many bytes a redactor can hold back, with secrets of at most this length. */
  function MaxHeld(longest: nat): nat {
    if longest == 0 then 0 else longest - 1
  }

  /** Secrets short enough that no read can overflow the ring. */
  predicate Fits(longest: nat, cap: nat) {
    3 * (MaxHeld(longest) + CHUNK) <= cap
  }

  /** With the ring's one mebibyte, secrets of up to 283990 bytes are short enough, and no longer ones. */
  lemma RingIsBigEnough(longest: nat)
    ensures Fits(longest, RING_CAPACITY) <==> longest <= 283990
  {
  }

  function Digits(n: nat): seq<byte> {
    (if n < 10 then [] else Digits(n / 10)) + [(48 + n % 10) as byte]
  }

  function Ascii(s: string): seq<byte> {
    seq(|s|, i requires 0 <= i < |s| => (s[i] as int % 256) as byte)
  }

  /** The line that tells of an overflow. */
  function Alarm(dropped: nat): seq<byte> {
    Ascii("qwe: ALARM: ring overflow, ") + Digits(dropped) + Ascii(" bytes dropped") + [NEWLINE]
  }

  // How far a ring's contents have gone to the log.

  predicate MovedTo(all: seq<byte>, before: seq<byte>, k: nat, log: seq<byte>, left: seq<byte>) {
    k <= |all| && log == before + all[..k] && left == all[k..]
  }

  lemma MovedNone(all: seq<byte>, before: seq<byte>)
    ensures MovedTo(all, before, 0, before, all)
  {
  }

  lemma MovedMore(all: seq<byte>, before: seq<byte>, k: nat, log: seq<byte>, left: seq<byte>)
    requires MovedTo(all, before, k, log, left)
    ensures forall n: nat | n <= |left| :: MovedTo(all, before, k + n, log + left[..n], left[n..])
  {
    forall n: nat | n <= |left| ensures MovedTo(all, before, k + n, log + left[..n], left[n..]) {
      assert all[..k + n] == all[..k] + left[..n];
    }
  }

  lemma MovedAll(all: seq<byte>, before: seq<byte>, k: nat, log: seq<byte>, left: seq<byte>)
    requires MovedTo(all, before, k, log, left) && left == []
    ensures log == before + all
  {
    assert all[..k] == all;
  }

  class Pipe {
    const red: Redactor
    const ring: ByteRing
    const sink: LogSink

    ghost predicate Valid()
      reads this, ring, ring.buf, sink
    {
      ring.Valid() && ring.Contents() == [] && sink.Valid()
    }

    constructor (job: seq<byte>)
      ensures Valid() && fresh(red) && fresh(ring) && fresh(ring.buf) && fresh(sink)
      ensures red.held == [] && sink.log == [] && ring.dropped == 0 && ring.buf.Length == RING_CAPACITY
    {
      red := new Redactor();
      ring := new ByteRing(RING_CAPACITY);
      sink := new LogSink(job);
    }

    /** Moves one chunk from the ring to the sink. */
    method MoveChunk() returns (n: nat)
      requires ring.Valid() && sink.Valid()
      modifies ring`head, ring`len, sink
      ensures ring.Valid() && sink.Valid()
      ensures n == if |old(ring.Contents())| < CHUNK then |old(ring.Contents())| else CHUNK
      ensures sink.log == old(sink.log) + old(ring.Contents())[..n] && ring.Contents() == old(ring.Contents())[n..]
    {
      var got := ring.Read(CHUNK);
      n := |got|;
      if n > 0 {
        sink.Write(got);
      } else {
        assert sink.log == sink.log + got;
      }
    }

    /** Moves everything the ring holds to the sink. */
    method DrainRing()
      requires ring.Valid() && sink.Valid()
      modifies ring`head, ring`len, sink
      ensures Valid() && sink.log == old(sink.log) + old(ring.Contents())
    {
      ghost var all := ring.Contents();
      ghost var k := 0;
      MovedNone(all, sink.log);
      var n := 1;
      while n > 0
        invariant ring.Valid() && sink.Valid() && MovedTo(all, old(sink.log), k, sink.log, ring.Contents())
        invariant n == 0 ==> ring.Contents() == []
        decreases |ring.Contents()|, n
      {
        MovedMore(all, old(sink.log), k, sink.log, ring.Contents());
        n := MoveChunk();
        k := k + n;
      }
      MovedAll(all, old(sink.log), k, sink.log, ring.Contents());
    }

    /** Data of any size: what the ring can keep reaches the log, and an overflow is announced. */
    method Emit(data: seq<byte>)
      requires Valid()
      modifies ring, ring.buf, sink
      ensures Valid() && ring.dropped == old(ring.dropped) + Over(|data|, ring.buf.Length)
      ensures var cap := ring.buf.Length;
              sink.log == old(sink.log) + LastOf(data, cap) + if |data| > cap then Alarm(ring.dropped) else []
    {
      var before := ring.dropped;
      assert [] + data == data;
      ring.Write(data);
      DrainRing();
      if ring.dropped != before {
        sink.Write(Alarm(ring.dropped));
      } else {
        assert sink.log == sink.log + [];
      }
    }

    /** One read from the step's pipe. */
    method Drain(S: Secrets, buf: seq<byte>, ghost longest: nat)
      requires Valid() && |buf| <= CHUNK && AllShorter(S, longest) && |red.held| <= MaxHeld(longest)
      requires Fits(longest, ring.buf.Length)
      modifies red, ring, ring.buf, sink
      ensures Valid() && |red.held| <= MaxHeld(longest) && ring.dropped == old(ring.dropped)
      ensures var r := Scan(S, old(red.held) + buf); sink.log == old(sink.log) + r.out && red.held == r.held
    {
      ScanBounds(S, red.held + buf, longest);
      var safe := red.Feed(S, buf);
      if |safe| > 0 {
        Emit(safe);
      }
      assert safe == [] ==> sink.log == sink.log + safe;
    }

    /** At the end of the stream the log gets the held tail as it is. */
    method DrainFlush(ghost longest: nat)
      requires Valid() && |red.held| <= MaxHeld(longest) && Fits(longest, ring.buf.Length)
      modifies red, ring, ring.buf, sink
      ensures Valid() && red.held == [] && ring.dropped == old(ring.dropped)
      ensures sink.log == old(sink.log) + old(red.held)
    {
      var safe := red.Flush();
      if |safe| > 0 {
        Emit(safe);
      }
      assert safe == [] ==> sink.log == sink.log + safe;
    }

    /** A whole step: every read, then the flush. The ring never drops, and the log
        gets exactly the redacted stream. */
    method Step(S: Secrets, chunks: seq<seq<byte>>, ghost longest: nat)
      requires Valid() && red.held == [] && AllShorter(S, longest) && Fits(longest, ring.buf.Length)
      requires forall i :: 0 <= i < |chunks| ==> |chunks[i]| <= CHUNK
      modifies red, ring, ring.buf, sink
      ensures Valid() && red.held == [] && ring.dropped == old(ring.dropped)
      ensures sink.log == old(sink.log) + Flushed(S, [], chunks)
      ensures NonEmpty(S) && PrefixFree(S) && FlushSafe(S) ==>
                sink.log == old(sink.log) + Replace(S, Concat(chunks))
      ensures Maskable(S) && FlushSafe(S) ==> forall i :: 0 <= i < |S| ==> !Occurs(S[i], Flushed(S, [], chunks))
    {
      StepIsClean(S, chunks);
      ghost var done: seq<byte> := [];
      JoinedAtStart(S, chunks);
      for i := 0 to |chunks|
        invariant Valid() && |red.held| <= MaxHeld(longest) && ring.dropped == old(ring.dropped)
        invariant sink.log == old(sink.log) + done
        invariant Joined(S, chunks, i, done, red.held)
      {
        JoinedStep(S, chunks, i, done, red.held);
        ghost var out := Scan(S, red.held + chunks[i]).out;
        Drain(S, chunks[i], longest);
        Assoc(old(sink.log), done, out);
        done := done + out;
      }
      JoinedAtEnd(S, chunks, done, red.held);
      Assoc(old(sink.log), done, red.held);
      DrainFlush(longest);
    }

    /** A whole job: every step, each flushed. No byte is dropped and the log is the
        job's redacted log. */
    method Job(S: Secrets, steps: seq<Output>, ghost longest: nat)
      requires Valid() && red.held == [] && sink.log == [] && AllShorter(S, longest) && Fits(longest, ring.buf.Length)
      requires forall i, k :: 0 <= i < |steps| && 0 <= k < |steps[i]| ==> |steps[i][k]| <= CHUNK
      modifies red, ring, ring.buf, sink
      ensures Valid() && red.held == [] && ring.dropped == old(ring.dropped)
      ensures sink.log == JobLog(S, steps)
      ensures Maskable(S) && FlushSafe(S) && Guarded(S) ==> forall i :: 0 <= i < |S| ==> !Occurs(S[i], sink.log)
    {
      for i := 0 to |steps|
        invariant Valid() && red.held == [] && ring.dropped == old(ring.dropped)
        invariant sink.log == JobLog(S, steps[..i])
      {
        assert steps[..i + 1] == steps[..i] + [steps[i]];
        JobLogJoins(S, steps[..i], steps[i]);
        Step(S, steps[i], longest);
      }
      assert steps[..|steps|] == steps;
      JobIsClean(S, steps);
    }
  }

  /** What redaction promises of a whole job. */
  lemma JobIsClean(S: Secrets, steps: seq<Output>)
    ensures Maskable(S) && FlushSafe(S) && Guarded(S) ==> forall i :: 0 <= i < |S| ==> !Occurs(S[i], JobLog(S, steps))
  {
    if Maskable(S) && FlushSafe(S) && Guarded(S) {
      JobLogExactly(S);
    }
  }

  /** What redaction promises of one step. */
  lemma StepIsClean(S: Secrets, chunks: seq<seq<byte>>)
    ensures NonEmpty(S) && PrefixFree(S) && FlushSafe(S) ==> Flushed(S, [], chunks) == Replace(S, Concat(chunks))
    ensures Maskable(S) && FlushSafe(S) ==> forall i :: 0 <= i < |S| ==> !Occurs(S[i], Flushed(S, [], chunks))
  {
    if NonEmpty(S) && PrefixFree(S) && FlushSafe(S) {
      StreamIsReplacement(S, chunks);
    }
    if Maskable(S) && FlushSafe(S) {
      FlushLeaksExactly(S);
    }
  }

  /** The first i chunks have given `done` and left `held`; the rest goes on from there. */
  predicate Joined(S: Secrets, chunks: seq<seq<byte>>, i: nat, done: seq<byte>, held: seq<byte>)
    requires i <= |chunks|
  {
    var q := Fed(S, held, chunks[i..]);
    Fed(S, [], chunks) == Scanned(done + q.out, q.held)
  }

  lemma JoinedAtStart(S: Secrets, chunks: seq<seq<byte>>)
    ensures Joined(S, chunks, 0, [], [])
  {
    assert chunks[0..] == chunks && [] + Fed(S, [], chunks).out == Fed(S, [], chunks).out;
  }

  lemma JoinedStep(S: Secrets, chunks: seq<seq<byte>>, i: nat, done: seq<byte>, held: seq<byte>)
    requires i < |chunks| && Joined(S, chunks, i, done, held)
    ensures var r := Scan(S, held + chunks[i]); Joined(S, chunks, i + 1, done + r.out, r.held)
  {
    var r := Scan(S, held + chunks[i]);
    assert chunks[i..][0] == chunks[i] && chunks[i..][1..] == chunks[i + 1..];
    Assoc(done, r.out, Fed(S, r.held, chunks[i + 1..]).out);
  }

  lemma JoinedAtEnd(S: Secrets, chunks: seq<seq<byte>>, done: seq<byte>, held: seq<byte>)
    requires Joined(S, chunks, |chunks|, done, held)
    ensures Fed(S, [], chunks) == Scanned(done, held)
  {
    assert done + [] == done;
  }
}
