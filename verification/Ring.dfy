/** A ring buffer that forgets rather than blocks, proved to be a bounded queue
that keeps account of what it forgot. */
module Ring {
  import opened Bytes

  /** The last n elements of s, or all of them. */
  function LastOf(s: seq<byte>, n: nat): seq<byte> {
    if |s| <= n then s else s[|s| - n..]
  }

  function Over(n: nat, cap: nat): nat {
    if n <= cap then 0 else n - cap
  }

  // ---- the bounded queue a ring stands for ----

  datatype Op = Put(data: seq<byte>) | Take(n: nat)

  /** The queue's contents, how many bytes it dropped, and everything put in and taken out. */
  datatype Queue = Queue(held: seq<byte>, dropped: nat, put: seq<byte>, taken: seq<byte>)

  function Apply(q: Queue, op: Op, cap: nat): Queue {
    match op
    case Put(data) =>
      q.(held := LastOf(q.held + data, cap), dropped := q.dropped + Over(|q.held| + |data|, cap), put := q.put + data)
    case Take(n) =>
      var m := if n > |q.held| then |q.held| else n;
      q.(held := q.held[m..], taken := q.taken + q.held[..m])
  }

  function Run(ops: seq<Op>, cap: nat): Queue {
    if ops == [] then Queue([], 0, [], [])
    else Apply(Run(ops[..|ops| - 1], cap), ops[|ops| - 1], cap)
  }

  /** A write drops no more than it must: afterwards as much is held as fits. */
  lemma PutKeepsWhatFits(q: Queue, data: seq<byte>, cap: nat)
    requires |q.held| <= cap
    ensures var r := Apply(q, Put(data), cap);
            && |r.held| == (if |q.held| + |data| <= cap then |q.held| + |data| else cap)
            && r.held == (q.held + data)[|q.held| + |data| - |r.held|..]
            && r.dropped == q.dropped + (|q.held| + |data| - |r.held|)
  {
  }

  /** A read takes the oldest bytes, as many as were asked for or there are. */
  lemma TakeGivesTheOldest(q: Queue, n: nat, cap: nat)
    ensures var r := Apply(q, Take(n), cap);
            && q.held == r.taken[|q.taken|..] + r.held && q.taken <= r.taken
            && (r.held == [] || |r.taken| == |q.taken| + n) && |r.taken| <= |q.taken| + n
            && r.dropped == q.dropped && r.put == q.put
  {
  }

  /** Over any sequence of calls: nothing is lost without being counted, nothing is
      held beyond the capacity, what is held are the bytes that went in last, and while
      nothing was dropped the bytes come out exactly as they went in. */
  lemma {:induction false} NothingIsLostUncounted(ops: seq<Op>, cap: nat)
    ensures var q := Run(ops, cap);
            && |q.put| == |q.taken| + |q.held| + q.dropped
            && |q.held| <= cap
            && q.held == q.put[|q.put| - |q.held|..]
            && (q.dropped == 0 ==> q.put == q.taken + q.held)
  {
    if ops != [] {
      NothingIsLostUncounted(ops[..|ops| - 1], cap);
      var q, op := Run(ops[..|ops| - 1], cap), ops[|ops| - 1];
      match op {
        case Put(data) => OnePut(q, data, cap);
        case Take(n) => OneTake(q, n, cap);
      }
    }
  }

  predicate Balanced(q: Queue, cap: nat) {
    && |q.put| == |q.taken| + |q.held| + q.dropped && |q.held| <= cap
    && q.held == q.put[|q.put| - |q.held|..]
    && (q.dropped == 0 ==> q.put == q.taken + q.held)
  }

  lemma OnePut(q: Queue, data: seq<byte>, cap: nat)
    requires Balanced(q, cap)
    ensures Balanced(Apply(q, Put(data), cap), cap)
  {
    var r := Apply(q, Put(data), cap);
    PutKeepsWhatFits(q, data, cap);
    assert q.taken + (q.held + data) == (q.taken + q.held) + data;
    SuffixOfBoth(q.put, q.held, data, |r.held|);
  }

  lemma SuffixOfBoth(put: seq<byte>, held: seq<byte>, data: seq<byte>, n: nat)
    requires |held| <= |put| && held == put[|put| - |held|..] && n <= |held| + |data|
    ensures (held + data)[|held| + |data| - n..] == (put + data)[|put| + |data| - n..]
  {
    assert put == put[..|put| - |held|] + held;
  }

  lemma OneTake(q: Queue, n: nat, cap: nat)
    requires Balanced(q, cap)
    ensures Balanced(Apply(q, Take(n), cap), cap)
  {
    var m := if n > |q.held| then |q.held| else n;
    assert q.taken + q.held == (q.taken + q.held[..m]) + q.held[m..];
  }

  // ---- the ring ----

  /** The index k places after head. */
  function Slot(head: nat, k: nat, cap: nat): nat
    requires cap > 0
  {
    (head + k) % cap
  }

  lemma SlotIs(head: nat, k: nat, cap: nat)
    requires head < cap && k <= cap
    ensures Slot(head, k, cap) == if head + k < cap then head + k else head + k - cap
    ensures Slot(head, k, cap) < cap
  {
    if head + k < cap { WithinOne(head + k, cap); } else { WithinTwo(head + k, cap); }
  }

  lemma WithinOne(a: nat, cap: nat)
    requires a < cap
    ensures a % cap == a
  {
  }

  lemma WithinTwo(a: nat, cap: nat)
    requires 0 < cap <= a < 2 * cap
    ensures a % cap == a - cap
  {
    WithinOne(a - cap, cap);
    assert (a - cap + cap) % cap == (a - cap) % cap;
  }

  lemma SlotsDiffer(head: nat, k: nat, m: nat, cap: nat)
    requires head < cap && k < m < cap
    ensures Slot(head, k, cap) != Slot(head, m, cap)
  {
    SlotIs(head, k, cap);
    SlotIs(head, m, cap);
  }

  /** Moving the head by m moves every place by m. */
  lemma SlotMoves(head: nat, m: nat, k: nat, cap: nat)
    requires head < cap && m + k <= cap
    ensures Slot(Slot(head, m, cap), k, cap) == Slot(head, m + k, cap)
  {
    SlotIs(head, m, cap);
    SlotIs(head, m + k, cap);
    SlotIs(Slot(head, m, cap), k, cap);
  }

  class ByteRing {
    const buf: array<byte>
    var head: nat // index of the oldest byte
    var len: nat  // bytes currently held
    var dropped: nat

    ghost predicate Valid()
      reads this
    {
      buf.Length > 0 && head < buf.Length && len <= buf.Length
    }

    ghost predicate Holds(s: seq<byte>)
      reads this, buf
      requires Valid()
    {
      |s| == len && forall k :: 0 <= k < len ==> buf[Slot(head, k, buf.Length)] == s[k]
    }

    ghost function Contents(): (s: seq<byte>)
      reads this, buf
      requires Valid()
      ensures Holds(s)
    {
      seq(len, k requires 0 <= k < len reads this, buf requires Valid() => buf[Slot(head, k, buf.Length)])
    }

    lemma HoldsContents(s: seq<byte>)
      requires Valid() && Holds(s)
      ensures s == Contents()
    {
    }

    constructor (cap: nat)
      requires cap > 0
      ensures Valid() && fresh(buf) && buf.Length == cap && Contents() == [] && dropped == 0
    {
      buf := new byte[cap](_ => 0);
      head, len, dropped := 0, 0, 0;
    }

    /** Drops the oldest m bytes. */
    method Forget(m: nat)
      requires Valid() && m <= len
      modifies this`head, this`len
      ensures Valid() && Contents() == old(Contents())[m..]
    {
      ghost var s := Contents();
      SlotIs(head, m, buf.Length);
      forall k | 0 <= k < len - m
        ensures Slot(Slot(head, m, buf.Length), k, buf.Length) == Slot(head, m + k, buf.Length)
      {
        SlotMoves(head, m, k, buf.Length);
      }
      head := (head + m) % buf.Length;
      len := len - m;
      HoldsContents(s[m..]);
    }

    /** Appends data, for which there is room. */
    method Append(data: seq<byte>)
      requires Valid() && len + |data| <= buf.Length
      modifies this`len, buf
      ensures Valid() && Contents() == old(Contents()) + data
    {
      ghost var s := Contents();
      for i := 0 to |data|
        invariant len == old(len)
        invariant forall k :: 0 <= k < len + i ==> buf[Slot(head, k, buf.Length)] == (s + data)[k]
      {
        forall k | 0 <= k < len + i ensures Slot(head, k, buf.Length) != Slot(head, len + i, buf.Length) {
          SlotsDiffer(head, k, len + i, buf.Length);
        }
        buf[(head + len + i) % buf.Length] := data[i];
      }
      len := len + |data|;
      HoldsContents(s + data);
    }

    /** Afterwards the ring holds the last bytes of what it held and was given. */
    method Write(data: seq<byte>)
      requires Valid()
      modifies this, buf
      ensures Valid() && Contents() == LastOf(old(Contents()) + data, buf.Length)
      ensures dropped == old(dropped) + Over(|old(Contents())| + |data|, buf.Length)
    {
      ghost var s := Contents();
      var cap := buf.Length;
      var p := data;
      if |p| > cap {
        dropped := dropped + (|p| - cap);
        p := p[|p| - cap..];
      }
      if len + |p| > cap {
        var over := len + |p| - cap;
        Forget(over);
        dropped := dropped + over;
      }
      Append(p);
      LastTwice(s, data, cap);
    }

    lemma LastTwice(s: seq<byte>, data: seq<byte>, cap: nat)
      requires |s| <= cap
      ensures var p := LastOf(data, cap);
              LastOf(s + data, cap) == (if |s| + |p| > cap then s[|s| + |p| - cap..] else s) + p
    {
    }

    /** The front of the queue comes out, and the rest stays in order. */
    method Read(n: nat) returns (out: seq<byte>)
      requires Valid()
      modifies this`head, this`len
      ensures Valid()
      ensures var s := old(Contents());
              var m := if n > |s| then |s| else n;
              out == s[..m] && Contents() == s[m..]
    {
      var m := if n > len then len else n;
      ghost var s := Contents();
      out := [];
      for i := 0 to m
        invariant head == old(head) && len == old(len) && out == s[..i]
      {
        SlotIs(head, i, buf.Length);
        out := out + [buf[(head + i) % buf.Length]];
      }
      Forget(m);
    }

    /** Any calls on a new ring: it holds, drops and gives out what the bounded queue
        does, and every byte written is read, held or counted as dropped. */
    method Perform(ops: seq<Op>) returns (out: seq<byte>)
      requires Valid() && Contents() == [] && dropped == 0
      modifies this, buf
      ensures Valid()
      ensures var q := Run(ops, buf.Length);
              Contents() == q.held && dropped == q.dropped && out == q.taken
              && |q.put| == |out| + len + dropped
              && (dropped == 0 ==> q.put == out + Contents())
    {
      out := [];
      var cap := buf.Length;
      for i := 0 to |ops|
        invariant Valid()
        invariant Contents() == Run(ops[..i], cap).held && dropped == Run(ops[..i], cap).dropped
        invariant out == Run(ops[..i], cap).taken
      {
        assert ops[..i + 1][..i] == ops[..i];
        match ops[i] {
          case Put(data) => Write(data);
          case Take(n) =>
            var got := Read(n);
            out := out + got;
        }
      }
      assert ops[..|ops|] == ops;
      NothingIsLostUncounted(ops, cap);
    }
  }
}
