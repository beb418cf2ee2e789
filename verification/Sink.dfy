/** The log sink: what the terminal shows is a function of the log, however the
bytes came in. */
module Sink {
  import opened Bytes

  /** Where the first newline is, or the length. */
  function LineEnd(d: seq<byte>): (i: nat)
    ensures i <= |d| && (i < |d| ==> d[i] == NEWLINE)
    ensures forall k :: 0 <= k < i ==> d[k] != NEWLINE
  {
    if d == [] || d[0] == NEWLINE then 0 else 1 + LineEnd(d[1..])
  }

  /** The complete lines of d, each with the prefix. */
  function Rendered(prefix: seq<byte>, d: seq<byte>): seq<byte>
    decreases |d|
  {
    var i := LineEnd(d);
    if i == |d| then [] else prefix + d[..i + 1] + Rendered(prefix, d[i + 1..])
  }

  /** The unfinished last line of d. */
  function Rest(d: seq<byte>): seq<byte>
    decreases |d|
  {
    var i := LineEnd(d);
    if i == |d| then d else Rest(d[i + 1..])
  }

  /** The terminal text once the sink is closed: an unfinished line is ended. */
  function Closed(prefix: seq<byte>, d: seq<byte>): seq<byte> {
    Rendered(prefix, d) + if Rest(d) == [] then [] else prefix + Rest(d) + [NEWLINE]
  }

  lemma LineEndIsFirst(d: seq<byte>, i: nat)
    requires i <= |d| && (forall k :: 0 <= k < i ==> d[k] != NEWLINE) && (i == |d| || d[i] == NEWLINE)
    ensures LineEnd(d) == i
  {
    var m := LineEnd(d);
  }

  /** What one more byte does to the complete lines and the unfinished one. */
  predicate Extends(prefix: seq<byte>, d: seq<byte>, x: byte) {
    if x == NEWLINE then
      && Rendered(prefix, d + [x]) == Rendered(prefix, d) + (prefix + Rest(d) + [NEWLINE])
      && Rest(d + [x]) == []
    else Rendered(prefix, d + [x]) == Rendered(prefix, d) && Rest(d + [x]) == Rest(d) + [x]
  }

  lemma FirstLineFirst(prefix: seq<byte>, d: seq<byte>, line: seq<byte>, rest: seq<byte>)
    requires var i := LineEnd(d); i < |d| && line == d[..i + 1] && rest == d[i + 1..]
    ensures Rendered(prefix, d) == (prefix + line) + Rendered(prefix, rest) && Rest(d) == Rest(rest)
  {
  }

  lemma Chopped(d: seq<byte>, x: byte, i: nat)
    requires i < |d|
    ensures (d + [x])[..i + 1] == d[..i + 1] && (d + [x])[i + 1..] == d[i + 1..] + [x]
    ensures (d + [x])[i] == d[i] && forall k :: 0 <= k < i ==> (d + [x])[k] == d[k]
  {
  }

  lemma SameFirstLine(d: seq<byte>, x: byte, i: nat)
    requires i == LineEnd(d) < |d|
    ensures LineEnd(d + [x]) == i
  {
    var e := d + [x];
    Chopped(d, x, i);
    LineEndIsFirst(e, i);
  }

  /** Past the first line, d and d with one more byte go on alike. */
  lemma PastFirstLine(prefix: seq<byte>, d: seq<byte>, x: byte, i: nat, rest: seq<byte>)
    requires i == LineEnd(d) < |d| && rest == d[i + 1..]
    ensures Rendered(prefix, d + [x]) == (prefix + d[..i + 1]) + Rendered(prefix, rest + [x])
    ensures Rest(d + [x]) == Rest(rest + [x])
  {
    SameFirstLine(d, x, i);
    Chopped(d, x, i);
    FirstLineFirst(prefix, d + [x], d[..i + 1], rest + [x]);
  }

  /** What is put after r is put after h + r. */
  lemma PutAfter(h: seq<byte>, r: seq<byte>, t: seq<byte>, rt: seq<byte>, whole: seq<byte>, longer: seq<byte>)
    requires rt == r + t && whole == h + r && longer == h + rt
    ensures longer == whole + t
  {
  }

  lemma LaterLine(prefix: seq<byte>, d: seq<byte>, x: byte, rest: seq<byte>)
    requires LineEnd(d) < |d| && rest == d[LineEnd(d) + 1..] && Extends(prefix, rest, x)
    ensures Extends(prefix, d, x)
  {
    var h, t := prefix + d[..LineEnd(d) + 1], prefix + Rest(rest) + [NEWLINE];
    PastFirstLine(prefix, d, x, LineEnd(d), rest);
    FirstLineFirst(prefix, d, d[..LineEnd(d) + 1], rest);
    var r, rx := Rendered(prefix, rest), Rendered(prefix, rest + [x]);
    if x == NEWLINE {
      PutAfter(h, r, t, rx, Rendered(prefix, d), Rendered(prefix, d + [x]));
    }
  }

  lemma LinesJoin(a: seq<byte>, b: seq<byte>, c: seq<byte>)
    ensures (a + b) + c == a + (b + c)
  {
  }

  lemma Unfinished(prefix: seq<byte>, d: seq<byte>)
    requires LineEnd(d) == |d|
    ensures Rendered(prefix, d) == [] && Rest(d) == d
  {
  }

  lemma EndsAtLast(d: seq<byte>)
    requires LineEnd(d) == |d|
    ensures LineEnd(d + [NEWLINE]) == |d|
  {
    var e := d + [NEWLINE];
    assert e[|d|] == NEWLINE;
    LineEndIsFirst(e, |d|);
  }

  lemma WholeLine(d: seq<byte>)
    ensures (d + [NEWLINE])[..|d| + 1] == d + [NEWLINE] && (d + [NEWLINE])[|d| + 1..] == []
  {
  }

  lemma FirstLineEnds(prefix: seq<byte>, d: seq<byte>)
    requires LineEnd(d) == |d|
    ensures Extends(prefix, d, NEWLINE)
  {
    EndsAtLast(d);
    WholeLine(d);
    FirstLineFirst(prefix, d + [NEWLINE], d + [NEWLINE], []);
    Unfinished(prefix, d);
    Unfinished(prefix, []);
    LinesJoin(prefix, d, [NEWLINE]);
    assert (prefix + (d + [NEWLINE])) + [] == [] + (prefix + (d + [NEWLINE]));
  }

  lemma FirstLineGrows(prefix: seq<byte>, d: seq<byte>, x: byte)
    requires LineEnd(d) == |d| && x != NEWLINE
    ensures Extends(prefix, d, x)
  {
    LineEndIsFirst(d + [x], |d| + 1);
    Unfinished(prefix, d);
    Unfinished(prefix, d + [x]);
  }

  /** A newline ends the unfinished line, and any other byte extends it. */
  lemma {:induction false} OneMoreByte(prefix: seq<byte>, d: seq<byte>, x: byte)
    ensures Extends(prefix, d, x)
    decreases |d|
  {
    if LineEnd(d) < |d| {
      OneMoreByte(prefix, d[LineEnd(d) + 1..], x);
      LaterLine(prefix, d, x, d[LineEnd(d) + 1..]);
    } else if x == NEWLINE {
      FirstLineEnds(prefix, d);
    } else {
      FirstLineGrows(prefix, d, x);
    }
  }

  /** Before anything is written there is nothing to show. */
  lemma NothingYet(prefix: seq<byte>)
    ensures Rendered(prefix, []) == [] && Rest([]) == []
  {
  }

  /** Closing shows what a newline at the end would have shown, if the last line had none. */
  lemma ClosingEndsTheLine(prefix: seq<byte>, d: seq<byte>)
    ensures Closed(prefix, d) == Rendered(prefix, if Rest(d) == [] then d else d + [NEWLINE])
  {
    OneMoreByte(prefix, d, NEWLINE);
    assert Rendered(prefix, d) + [] == Rendered(prefix, d);
  }

  class LogSink {
    const prefix: seq<byte> // "[<job>] "
    var log: seq<byte>      // the log file
    var term: seq<byte>     // what has gone to the terminal
    var line: seq<byte>     // the terminal's unfinished line

    ghost predicate Valid()
      reads this
    {
      term == Rendered(prefix, log) && line == Rest(log)
    }

    constructor (job: seq<byte>)
      ensures Valid() && log == [] && prefix == [91] + job + [93, 32]
    {
      prefix := [91] + job + [93, 32];
      log, term, line := [], [], [];
    }

    method EmitLine()
      modifies this`term, this`line
      ensures term == old(term) + (prefix + old(line) + [NEWLINE]) && line == []
    {
      term := term + (prefix + line + [NEWLINE]);
      line := [];
    }

    /** Whatever the chunking, the terminal shows the log's complete lines. */
    method Write(data: seq<byte>)
      requires Valid()
      modifies this
      ensures Valid() && log == old(log) + data
    {
      log := log + data;
      assert old(log) + data[..0] == old(log);
      for i := 0 to |data|
        invariant log == old(log) + data
        invariant term == Rendered(prefix, old(log) + data[..i]) && line == Rest(old(log) + data[..i])
      {
        assert old(log) + data[..i + 1] == (old(log) + data[..i]) + [data[i]];
        OneMoreByte(prefix, old(log) + data[..i], data[i]);
        if data[i] == NEWLINE {
          EmitLine();
        } else {
          line := line + [data[i]];
        }
      }
      assert data[..|data|] == data;
    }

    method Close()
      requires Valid()
      modifies this`term, this`line
      ensures term == Closed(prefix, log) && line == []
    {
      if |line| > 0 {
        EmitLine();
      }
    }
  }
}
