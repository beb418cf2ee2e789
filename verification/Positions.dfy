/** The position table once a document is read: sorted, searched, checked for
repeated keys. Sorting and searching are the C library's; what is proved of the
sorted table holds of every order the comparison allows. */
module Positions {
  import opened Wrappers
  import opened Pointer
  import opened Yaml

  // ---- the order ----

  function StrCmp(a: string, b: string): int {
    if a == "" then (if b == "" then 0 else -1)
    else if b == "" then 1
    else if a[0] != b[0] then (if a[0] < b[0] then -1 else 1)
    else StrCmp(a[1..], b[1..])
  }

  lemma {:induction false} StrCmpFacts(a: string, b: string)
    ensures StrCmp(a, b) == 0 <==> a == b
    ensures StrCmp(b, a) == -StrCmp(a, b)
  {
    if a != "" && b != "" && a[0] == b[0] {
      StrCmpFacts(a[1..], b[1..]);
      assert a == [a[0]] + a[1..] && b == [b[0]] + b[1..];
    }
  }

  lemma {:induction false} StrCmpTransitive(a: string, b: string, c: string)
    requires StrCmp(a, b) <= 0 && StrCmp(b, c) <= 0
    ensures StrCmp(a, c) <= 0
  {
    if a != "" && b != "" && c != "" && a[0] == b[0] && b[0] == c[0] {
      StrCmpTransitive(a[1..], b[1..], c[1..]);
    }
  }

  /** Strings are ordered by their first difference, a shorter one first. */
  lemma {:induction false} StrCmpIsLexical(a: string, b: string, k: nat)
    requires k <= |a| && k <= |b| && a[..k] == b[..k] && a != b
    requires k < |a| && k < |b| ==> a[k] != b[k]
    ensures k == |a| ==> StrCmp(a, b) < 0
    ensures k == |b| ==> StrCmp(a, b) > 0
    ensures k < |a| && k < |b| ==> (StrCmp(a, b) < 0 <==> a[k] < b[k])
  {
    if k > 0 {
      assert a[0] == a[..k][0] == b[..k][0] == b[0];
      assert a == [a[0]] + a[1..] && b == [b[0]] + b[1..];
      assert a[1..][..k - 1] == a[..k][1..] && b[1..][..k - 1] == b[..k][1..];
      StrCmpIsLexical(a[1..], b[1..], k - 1);
    }
  }

  function PosCmp(x: Pos, y: Pos): int {
    if x.line != y.line then (if x.line < y.line then -1 else 1)
    else if x.col != y.col then (if x.col < y.col then -1 else 1)
    else 0
  }

  /** The comparison the rows are sorted by: the keys only matter between two keyed
      rows of one pointer, which is why it need not be an order. */
  function Cmp(x: Entry, y: Entry): int {
    var c := StrCmp(x.pointer, y.pointer);
    if c != 0 || x.key.None? || y.key.None? then c else PosCmp(x.key.value, y.key.value)
  }

  predicate Le(x: Entry, y: Entry) {
    Cmp(x, y) <= 0
  }

  /** The rows at p all have a key, or none has. */
  predicate UniformAt(s: seq<Entry>, p: string) {
    forall x, y :: x in s && y in s && x.pointer == p == y.pointer ==> x.key.Some? == y.key.Some?
  }

  /** No unkeyed row at p stands beside keyed rows at different positions. */
  predicate OrderlyAt(s: seq<Entry>, p: string) {
    forall x, y, z ::
      (x in s && y in s && z in s && x.pointer == y.pointer == z.pointer == p
       && x.key.None? && y.key.Some? && z.key.Some?)
      ==> y.key == z.key
  }

  predicate Orderly(s: seq<Entry>) {
    forall x :: x in s ==> OrderlyAt(s, x.pointer)
  }

  lemma LeTotal(x: Entry, y: Entry)
    ensures Le(x, y) || Le(y, x)
  {
    StrCmpFacts(x.pointer, y.pointer);
  }

  /** An unkeyed row between two keyed ones at different positions of one pointer:
      the one way the comparison fails to carry over. */
  predicate Bridges(x: Entry, y: Entry, z: Entry) {
    x.pointer == y.pointer == z.pointer && y.key.None? && x.key.Some? && z.key.Some? && x.key != z.key
  }

  lemma LeTransitive(x: Entry, y: Entry, z: Entry)
    requires Le(x, y) && Le(y, z) && !Bridges(x, y, z)
    ensures Le(x, z)
  {
    StrCmpFacts(x.pointer, y.pointer);
    StrCmpFacts(y.pointer, z.pointer);
    StrCmpFacts(x.pointer, z.pointer);
    StrCmpTransitive(x.pointer, y.pointer, z.pointer);
  }

  lemma BridgeFails(x: Entry, y: Entry, z: Entry)
    requires Bridges(x, y, z)
    ensures Le(x, y) && Le(y, z) && Le(z, y) && Le(y, x) && !(Le(x, z) && Le(z, x))
  {
    StrCmpFacts(x.pointer, y.pointer);
    StrCmpFacts(y.pointer, z.pointer);
  }

  /** The comparison is an order on the rows. */
  predicate Transitive(s: seq<Entry>) {
    forall x, y, z :: x in s && y in s && z in s && Le(x, y) && Le(y, z) ==> Le(x, z)
  }

  /** The comparison is an order if and only if no pointer has an unkeyed row
      together with two keyed rows at different positions. */
  lemma OrderExactly(s: seq<Entry>)
    ensures Transitive(s) <==> Orderly(s)
  {
    if Orderly(s) {
      forall x, y, z | x in s && y in s && z in s && Le(x, y) && Le(y, z) ensures Le(x, z) {
        assert OrderlyAt(s, y.pointer);
        LeTransitive(x, y, z);
      }
    }
    if Transitive(s) {
      forall x, y, z | x in s && y in s && z in s && x.pointer == y.pointer == z.pointer
                       && x.key.None? && y.key.Some? && z.key.Some?
        ensures y.key == z.key
      {
        if Bridges(y, x, z) {
          BridgeFails(y, x, z);
        }
      }
    }
  }

  predicate PointerSorted(s: seq<Entry>) {
    forall i, j :: 0 <= i < j < |s| ==> StrCmp(s[i].pointer, s[j].pointer) <= 0
  }

  /** The rows at p are in the comparison's order. */
  predicate SortedAt(s: seq<Entry>, p: string) {
    forall i, j :: 0 <= i < j < |s| && s[i].pointer == p == s[j].pointer ==> Le(s[i], s[j])
  }

  predicate Sorted(s: seq<Entry>) {
    forall i, j :: 0 <= i < j < |s| ==> Le(s[i], s[j])
  }

  /** after is before, sorted by pointer, and at each pointer where the comparison
      is an order, by that. */
  ghost predicate Finished(before: seq<Entry>, after: seq<Entry>) {
    && multiset(before) == multiset(after) && PointerSorted(after)
    && forall p :: OrderlyAt(before, p) ==> SortedAt(after, p)
  }

  lemma SameRows(before: seq<Entry>, after: seq<Entry>)
    requires multiset(before) == multiset(after)
    ensures forall e :: e in before <==> e in after
  {
    forall e ensures e in before <==> e in after {
      assert e in before <==> e in multiset(before);
      assert e in after <==> e in multiset(after);
    }
  }

  /** An orderly table ends up sorted as a whole. */
  lemma OrderlyIsSorted(before: seq<Entry>, after: seq<Entry>)
    requires Finished(before, after) && Orderly(before)
    ensures Sorted(after)
  {
    SameRows(before, after);
    forall i, j | 0 <= i < j < |after| ensures Le(after[i], after[j]) {
      assert after[i] in before;
      assert OrderlyAt(before, after[i].pointer);
      StrCmpFacts(after[i].pointer, after[j].pointer);
    }
  }

  // ---- lookup ----

  /** What a search for a pointer may give: any row that has it, or nothing if none has. */
  predicate Finds(s: seq<Entry>, p: string, r: Option<Entry>) {
    match r
    case Some(e) => e in s && e.pointer == p
    case None => forall e :: e in s ==> e.pointer != p
  }

  /** No two rows share a pointer. */
  predicate Unique(s: seq<Entry>) {
    forall i, j :: 0 <= i < j < |s| ==> s[i].pointer != s[j].pointer
  }

  /** The first row with a pointer, in document order. */
  function Linear(s: seq<Entry>, p: string): (r: Option<Entry>)
    ensures Finds(s, p, r)
  {
    if s == [] then None else if s[0].pointer == p then Some(s[0]) else Linear(s[1..], p)
  }

  /** At most one row is at p. */
  predicate UniqueAt(s: seq<Entry>, p: string) {
    forall i, j :: 0 <= i < j < |s| && s[i].pointer == p ==> s[j].pointer != p
  }

  /** Where one pointer is unique, whatever else is repeated, every search for it in
      the sorted table agrees with a linear search of the table as the document left it. */
  lemma LookupIsLinear(before: seq<Entry>, after: seq<Entry>, p: string, r: Option<Entry>)
    requires multiset(before) == multiset(after) && UniqueAt(before, p) && Finds(after, p, r)
    ensures r == Linear(before, p)
  {
    SameRows(before, after);
    var l := Linear(before, p);
    if r.Some? {
      assert r.value in before;
      var i :| 0 <= i < |before| && before[i] == r.value;
      assert l.Some?;
      var j :| 0 <= j < |before| && before[j] == l.value;
    }
  }

  // ---- the nearest ancestor ----

  function Wants(e: Entry, wantKey: bool): Option<Pos> {
    if wantKey then e.key else e.value
  }

  /** What the locating loop may answer for a pointer. */
  predicate Located(s: seq<Entry>, p: string, wantKey: bool, at: Pos)
    decreases |p|
  {
    || (exists e :: e in s && e.pointer == p && Wants(e, wantKey) == Some(at))
    || (Missed(s, p, wantKey)
        && var i := LastSlash(p);
           if i < 0 then at == Pos(1, 1) else Located(s, p[..i], false, at))
  }

  predicate Missed(s: seq<Entry>, p: string, wantKey: bool) {
    || (forall e :: e in s ==> e.pointer != p)
    || (exists e :: e in s && e.pointer == p && Wants(e, wantKey).None?)
  }

  /** a is x or names something x is inside of. */
  predicate Ancestor(a: string, x: string) {
    a == x || a + "/" <= x
  }

  /** The step of the loop drops exactly the last token. */
  lemma AncestorStep(a: string, x: string)
    requires a != x && Ancestor(a, x)
    ensures LastSlash(x) >= |a| && Ancestor(a, x[..LastSlash(x)])
  {
    assert x[|a|] == '/';
    var i := LastSlash(x);
    if i > |a| {
      assert x[..i][..|a| + 1] == x[..|a| + 1] == a + "/";
    } else {
      assert x[..i] == x[..|a|] == (a + "/")[..|a|] == a;
    }
  }

  lemma AncestorsRise(a: string, x: string)
    requires LastSlash(x) >= 0 && Ancestor(a, x[..LastSlash(x)])
    ensures Ancestor(a, x)
  {
    var i := LastSlash(x);
    if a == x[..i] {
      assert a + "/" == x[..i + 1];
    } else {
      assert a + "/" <= x[..i] <= x;
    }
  }

  // What a table says of a pointer.

  predicate RowAt(s: seq<Entry>, p: string) {
    exists e :: e in s && e.pointer == p
  }

  predicate ValueAt(s: seq<Entry>, p: string, at: Pos) {
    exists e :: e in s && e.pointer == p && e.value == Some(at)
  }

  predicate KeyAt(s: seq<Entry>, p: string, at: Pos) {
    exists e :: e in s && e.pointer == p && e.key == Some(at)
  }

  predicate UnkeyedAt(s: seq<Entry>, p: string) {
    exists e :: e in s && e.pointer == p && e.key.None?
  }

  /** Every row has a value position, as in the table of a whole document. */
  predicate Valued(s: seq<Entry>) {
    forall e :: e in s ==> e.value.Some?
  }

  /** p is the longest pointer with a row at or above x. */
  predicate NearestAt(s: seq<Entry>, p: string, x: string) {
    RowAt(s, p) && Ancestor(p, x) && forall f :: f in s && Ancestor(f.pointer, x) ==> |f.pointer| <= |p|
  }

  predicate Above(s: seq<Entry>, x: string) {
    exists e :: e in s && Ancestor(e.pointer, x)
  }

  /** The value position of a row at the nearest pointer at or above x, or 1:1 if there is none. */
  ghost predicate ValuePosition(s: seq<Entry>, x: string, at: Pos) {
    if Above(s, x) then exists p :: NearestAt(s, p, x) && ValueAt(s, p, at) else at == Pos(1, 1)
  }

  /** The key of a row at x. A row without a key is passed over, as is a missing
      one: then what is above x answers, or 1:1. */
  ghost predicate KeyPosition(s: seq<Entry>, x: string, at: Pos) {
    || KeyAt(s, x, at)
    || ((UnkeyedAt(s, x) || !RowAt(s, x))
        && var i := LastSlash(x);
           if i < 0 then at == Pos(1, 1) else ValuePosition(s, x[..i], at))
  }

  lemma NearestIsOne(s: seq<Entry>, p: string, q: string, x: string)
    requires NearestAt(s, p, x) && NearestAt(s, q, x)
    ensures p == q
  {
    assert |p| == |q|;
    assert p == x[..|p|] && q == x[..|q|];
  }

  lemma RowIsNearest(s: seq<Entry>, x: string)
    requires RowAt(s, x)
    ensures NearestAt(s, x, x) && Above(s, x)
  {
  }

  /** Without a row at x, what is at or above x is what is at or above one token less. */
  lemma StepUp(s: seq<Entry>, x: string)
    requires !RowAt(s, x)
    ensures LastSlash(x) < 0 ==> !Above(s, x)
    ensures LastSlash(x) >= 0 ==>
              forall f :: f in s ==> (Ancestor(f.pointer, x) <==> Ancestor(f.pointer, x[..LastSlash(x)]))
  {
    forall f | f in s
      ensures LastSlash(x) < 0 ==> !Ancestor(f.pointer, x)
      ensures LastSlash(x) >= 0 ==> (Ancestor(f.pointer, x) <==> Ancestor(f.pointer, x[..LastSlash(x)]))
    {
      if Ancestor(f.pointer, x) {
        AncestorStep(f.pointer, x);
      } else if LastSlash(x) >= 0 && Ancestor(f.pointer, x[..LastSlash(x)]) {
        AncestorsRise(f.pointer, x);
      }
    }
  }

  lemma NearestStepsUp(s: seq<Entry>, x: string, p: string)
    requires !RowAt(s, x) && LastSlash(x) >= 0
    ensures NearestAt(s, p, x) <==> NearestAt(s, p, x[..LastSlash(x)])
  {
    StepUp(s, x);
    if RowAt(s, p) {
      var e :| e in s && e.pointer == p;
      assert Ancestor(e.pointer, x) <==> Ancestor(e.pointer, x[..LastSlash(x)]);
    }
  }

  lemma ValueStepsUp(s: seq<Entry>, x: string, at: Pos)
    requires !RowAt(s, x)
    ensures LastSlash(x) < 0 ==> (ValuePosition(s, x, at) <==> at == Pos(1, 1))
    ensures LastSlash(x) >= 0 ==> (ValuePosition(s, x, at) <==> ValuePosition(s, x[..LastSlash(x)], at))
  {
    StepUp(s, x);
    if LastSlash(x) >= 0 {
      forall p ensures NearestAt(s, p, x) <==> NearestAt(s, p, x[..LastSlash(x)]) {
        NearestStepsUp(s, x, p);
      }
    }
  }

  lemma ValueOfRow(s: seq<Entry>, x: string, at: Pos)
    requires RowAt(s, x)
    ensures ValuePosition(s, x, at) <==> ValueAt(s, x, at)
  {
    RowIsNearest(s, x);
    forall p | NearestAt(s, p, x) ensures p == x {
      NearestIsOne(s, p, x, x);
    }
  }

  /** The loop may answer with a value position if and only if it is that of a row
      at the nearest pointer that has one, however often pointers are repeated. */
  lemma {:induction false} LocatesNearest(s: seq<Entry>, x: string, at: Pos)
    requires Valued(s)
    ensures Located(s, x, false, at) <==> ValuePosition(s, x, at)
    decreases |x|
  {
    if RowAt(s, x) {
      ValueOfRow(s, x, at);
    } else {
      ValueStepsUp(s, x, at);
      if LastSlash(x) >= 0 {
        LocatesNearest(s, x[..LastSlash(x)], at);
      }
    }
  }

  /** And with a key position if and only if it is one of these. */
  lemma LocatesKey(s: seq<Entry>, x: string, at: Pos)
    requires Valued(s)
    ensures Located(s, x, true, at) <==> KeyPosition(s, x, at)
  {
    if LastSlash(x) >= 0 {
      LocatesNearest(s, x[..LastSlash(x)], at);
    }
  }

  lemma OnlyRow(s: seq<Entry>, e: Entry)
    requires UniqueAt(s, e.pointer) && e in s
    ensures forall f :: f in s && f.pointer == e.pointer ==> f == e
  {
  }

  /** Where the nearest pointer is not repeated, its row's position is the only answer. */
  lemma OnlyAnswer(s: seq<Entry>, e: Entry, x: string, at: Pos)
    requires Valued(s) && e in s && NearestAt(s, e.pointer, x) && UniqueAt(s, e.pointer)
    ensures Located(s, x, false, at) <==> Some(at) == e.value
  {
    LocatesNearest(s, x, at);
    OnlyRow(s, e);
    forall p | NearestAt(s, p, x) ensures p == e.pointer {
      NearestIsOne(s, p, e.pointer, x);
    }
  }

  // ---- repeated keys ----

  datatype Repeat = Repeat(pointer: string, first: Pos, second: Pos)

  /** The first row with the pointer of row i. */
  function FirstLike(s: seq<Entry>, i: nat): (f: nat)
    requires i < |s|
    ensures f <= i && s[f].pointer == s[i].pointer
    ensures forall k :: 0 <= k < f ==> s[k].pointer != s[i].pointer
  {
    FirstFrom(s, i, 0)
  }

  /** The first one from row k on. */
  function FirstFrom(s: seq<Entry>, i: nat, k: nat): (f: nat)
    requires k <= i < |s|
    ensures k <= f <= i && s[f].pointer == s[i].pointer
    ensures forall m :: k <= m < f ==> s[m].pointer != s[i].pointer
    decreases i - k
  {
    if s[k].pointer == s[i].pointer then k else FirstFrom(s, i, k + 1)
  }

  /** What row i adds to the report. */
  function RowRepeat(s: seq<Entry>, i: nat): seq<Repeat>
    requires i < |s|
  {
    var f := FirstLike(s, i);
    if f < i && s[f].key.Some? && s[i].key.Some? then
      [Repeat(s[i].pointer, s[f].key.value, s[i].key.value)]
    else []
  }

  /** The report on the first n rows. */
  function Reported(s: seq<Entry>, n: nat): seq<Repeat>
    requires n <= |s|
  {
    if n == 0 then [] else Reported(s, n - 1) + RowRepeat(s, n - 1)
  }

  /** Rows with one pointer stand together. */
  predicate Grouped(s: seq<Entry>) {
    forall i, j, k :: 0 <= i < j < k < |s| && s[i].pointer == s[k].pointer ==> s[j].pointer == s[k].pointer
  }

  lemma SortedIsGrouped(s: seq<Entry>)
    requires PointerSorted(s)
    ensures Grouped(s)
  {
    forall i, j, k | 0 <= i < j < k < |s| && s[i].pointer == s[k].pointer ensures s[j].pointer == s[k].pointer {
      StrCmpFacts(s[i].pointer, s[j].pointer);
      StrCmpFacts(s[j].pointer, s[k].pointer);
    }
  }

  /** The reporting loop remembers where the current run of equal pointers starts. */
  method Duplicates(s: seq<Entry>) returns (r: seq<Repeat>)
    requires Grouped(s)
    ensures r == Reported(s, |s|)
  {
    r := [];
    if s == [] {
      return;
    }
    var first := 0;
    assert Reported(s, 1) == Reported(s, 0) + RowRepeat(s, 0);
    for i := 1 to |s|
      invariant 0 <= first < i && FirstLike(s, i - 1) == first && r == Reported(s, i)
    {
      if s[i].pointer != s[first].pointer {
        assert forall k :: 0 <= k < i ==> s[k].pointer != s[i].pointer;
        first := i;
      } else if s[first].key.Some? && s[i].key.Some? {
        r := r + [Repeat(s[i].pointer, s[first].key.value, s[i].key.value)];
      }
    }
  }

  function Count(s: seq<Entry>, p: string): nat {
    if s == [] then 0 else (if s[0].pointer == p then 1 else 0) + Count(s[1..], p)
  }

  function CountRepeats(r: seq<Repeat>, p: string): nat {
    if r == [] then 0 else (if r[0].pointer == p then 1 else 0) + CountRepeats(r[1..], p)
  }

  lemma {:induction false} CountJoins(a: seq<Entry>, b: seq<Entry>, p: string)
    ensures Count(a + b, p) == Count(a, p) + Count(b, p)
  {
    if a == [] {
      assert a + b == b;
    } else {
      assert (a + b)[1..] == a[1..] + b;
      CountJoins(a[1..], b, p);
    }
  }

  lemma {:induction false} CountRepeatsJoins(a: seq<Repeat>, b: seq<Repeat>, p: string)
    ensures CountRepeats(a + b, p) == CountRepeats(a, p) + CountRepeats(b, p)
  {
    if a == [] {
      assert a + b == b;
    } else {
      assert (a + b)[1..] == a[1..] + b;
      CountRepeatsJoins(a[1..], b, p);
    }
  }

  function Without(s: seq<Entry>, j: nat): seq<Entry>
    requires j < |s|
  {
    s[..j] + s[j + 1..]
  }

  lemma WithoutOne(s: seq<Entry>, j: nat, p: string)
    requires j < |s|
    ensures multiset(s) == multiset(Without(s, j)) + multiset{s[j]}
    ensures Count(s, p) == Count(Without(s, j), p) + Count([s[j]], p)
  {
    assert s == s[..j] + ([s[j]] + s[j + 1..]);
    CountJoins(s[..j], s[j + 1..], p);
    CountJoins(s[..j], [s[j]] + s[j + 1..], p);
    CountJoins([s[j]], s[j + 1..], p);
  }

  lemma {:induction false} CountIsOrderless(a: seq<Entry>, b: seq<Entry>, p: string)
    requires multiset(a) == multiset(b)
    ensures Count(a, p) == Count(b, p)
  {
    if a == [] {
      assert |multiset(b)| == 0;
    } else {
      assert a[0] in multiset(b);
      var j :| 0 <= j < |b| && b[j] == a[0];
      WithoutOne(a, 0, p);
      WithoutOne(b, j, p);
      assert multiset(Without(a, 0)) == multiset(a) - multiset{a[0]};
      assert multiset(Without(b, j)) == multiset(b) - multiset{b[j]};
      CountIsOrderless(Without(a, 0), Without(b, j), p);
    }
  }

  lemma {:induction false} CountZero(s: seq<Entry>, p: string)
    ensures Count(s, p) == 0 <==> forall i :: 0 <= i < |s| ==> s[i].pointer != p
  {
    if s != [] {
      CountZero(s[1..], p);
      assert forall i :: 0 < i < |s| ==> s[i] == s[1..][i - 1];
    }
  }

  predicate IsKeyed(s: seq<Entry>, p: string) {
    exists i :: 0 <= i < |s| && s[i].pointer == p && s[i].key.Some?
  }

  function Repetitions(n: nat): nat {
    if n == 0 then 0 else n - 1
  }

  /** Row n gives a report for p exactly when p has stood before; k says whether p is a key. */
  predicate RowFact(s: seq<Entry>, n: nat, p: string, k: bool)
    requires n < |s|
  {
    && Count(s[..n + 1], p) == Count(s[..n], p) + (if s[n].pointer == p then 1 else 0)
    && CountRepeats(RowRepeat(s, n), p) == if s[n].pointer == p && k && Count(s[..n], p) > 0 then 1 else 0
  }

  lemma RowCounts(s: seq<Entry>, n: nat, p: string)
    requires UniformAt(s, p) && n < |s|
    ensures RowFact(s, n, p, IsKeyed(s, p))
  {
    assert s[..n + 1] == s[..n] + [s[n]];
    CountJoins(s[..n], [s[n]], p);
    CountZero(s[..n], p);
    var f := FirstLike(s, n);
    assert f < n ==> s[..n][f] == s[f];
    assert s[f] in s && s[n] in s;
    assert s[n].pointer == p && IsKeyed(s, p) ==> s[n].key.Some?;
  }

  lemma ReportGrows(s: seq<Entry>, n: nat, p: string)
    requires n < |s|
    ensures CountRepeats(Reported(s, n + 1), p)
         == CountRepeats(Reported(s, n), p) + CountRepeats(RowRepeat(s, n), p)
  {
    CountRepeatsJoins(Reported(s, n), RowRepeat(s, n), p);
  }

  predicate PrefixFact(s: seq<Entry>, n: nat, p: string, k: bool)
    requires n <= |s|
  {
    CountRepeats(Reported(s, n), p) == if k then Repetitions(Count(s[..n], p)) else 0
  }

  lemma PrefixGrows(s: seq<Entry>, n: nat, p: string, k: bool)
    requires n < |s| && PrefixFact(s, n, p, k) && RowFact(s, n, p, k)
    ensures PrefixFact(s, n + 1, p, k)
  {
    ReportGrows(s, n, p);
  }

  lemma {:induction false} PrefixCounts(s: seq<Entry>, n: nat, p: string, k: bool)
    requires n <= |s| && forall i :: 0 <= i < |s| ==> RowFact(s, i, p, k)
    ensures PrefixFact(s, n, p, k)
  {
    if n > 0 {
      PrefixCounts(s, n - 1, p, k);
      PrefixGrows(s, n - 1, p, k);
    }
  }

  /** Every repetition of a key is reported once: a key that stands k times gives
      k - 1 reports, whatever order the rows were left in. */
  lemma RepeatsAreCounted(before: seq<Entry>, after: seq<Entry>, p: string)
    requires multiset(before) == multiset(after) && UniformAt(before, p)
    ensures CountRepeats(Reported(after, |after|), p)
         == if IsKeyed(before, p) then Repetitions(Count(before, p)) else 0
  {
    SameRows(before, after);
    forall i | 0 <= i < |after| ensures RowFact(after, i, p, IsKeyed(after, p)) {
      RowCounts(after, i, p);
    }
    PrefixCounts(after, |after|, p, IsKeyed(after, p));
    assert after[..|after|] == after;
    CountIsOrderless(before, after, p);
    KeyedIsOrderless(before, after, p);
  }

  lemma KeyedIsOrderless(before: seq<Entry>, after: seq<Entry>, p: string)
    requires multiset(before) == multiset(after)
    ensures IsKeyed(before, p) <==> IsKeyed(after, p)
  {
    SameRows(before, after);
    assert IsKeyed(before, p) <==> exists e :: e in before && e.pointer == p && e.key.Some?;
    assert IsKeyed(after, p) <==> exists e :: e in after && e.pointer == p && e.key.Some?;
  }

  /** x is read before y, or is the same place. */
  predicate NotAfter(x: Pos, y: Pos) {
    x.line < y.line || (x.line == y.line && x.col <= y.col)
  }

  /** What a report means in the table as the document left it: both positions are
      keys of that pointer, and the first is the earliest there is. */
  predicate Means(s: seq<Entry>, x: Repeat) {
    && (exists e :: e in s && e.pointer == x.pointer && e.key == Some(x.first))
    && (exists e :: e in s && e.pointer == x.pointer && e.key == Some(x.second))
    && forall e :: e in s && e.pointer == x.pointer ==> e.key.Some? && NotAfter(x.first, e.key.value)
  }

  lemma RowMeans(s: seq<Entry>, i: nat, x: Repeat)
    requires SortedAt(s, x.pointer) && UniformAt(s, x.pointer) && i < |s| && x in RowRepeat(s, i)
    ensures Means(s, x)
  {
    var f := FirstLike(s, i);
    assert s[f] in s && s[i] in s;
    forall e | e in s && e.pointer == s[f].pointer
      ensures e.key.Some? && NotAfter(s[f].key.value, e.key.value)
    {
      var k :| 0 <= k < |s| && s[k] == e;
      StrCmpFacts(s[f].pointer, e.pointer);
      assert f < k ==> Le(s[f], s[k]);
    }
  }

  lemma {:induction false} ReportedByRow(s: seq<Entry>, n: nat, x: Repeat) returns (i: nat)
    requires n <= |s| && x in Reported(s, n)
    ensures i < n && x in RowRepeat(s, i)
  {
    InEither(x, Reported(s, n - 1), RowRepeat(s, n - 1));
    if x in RowRepeat(s, n - 1) {
      i := n - 1;
    } else {
      i := ReportedByRow(s, n - 1, x);
    }
  }

  lemma InEither(x: Repeat, a: seq<Repeat>, b: seq<Repeat>)
    ensures x in a + b <==> x in a || x in b
  {
  }

  lemma RepeatsNameTheEarliest(before: seq<Entry>, after: seq<Entry>, x: Repeat)
    requires Finished(before, after) && UniformAt(before, x.pointer) && x in Reported(after, |after|)
    ensures Means(before, x)
  {
    assert OrderlyAt(before, x.pointer);
    SameRows(before, after);
    var i := ReportedByRow(after, |after|, x);
    RowMeans(after, i, x);
  }

  lemma {:induction false} RowIsReported(s: seq<Entry>, n: nat, i: nat)
    requires i < n <= |s|
    ensures forall x :: x in RowRepeat(s, i) ==> x in Reported(s, n)
  {
    if i < n - 1 {
      RowIsReported(s, n - 1, i);
    }
    forall x | x in RowRepeat(s, i) ensures x in Reported(s, n) {
      InEither(x, Reported(s, n - 1), RowRepeat(s, n - 1));
    }
  }

  /** Every key of a repeated pointer is named: as the earliest, or as a repetition of it. */
  lemma EveryRepeatIsNamed(before: seq<Entry>, after: seq<Entry>, e: Entry)
    requires multiset(before) == multiset(after) && UniformAt(before, e.pointer)
    requires e in before && e.key.Some? && Count(before, e.pointer) > 1
    ensures exists x :: x in Reported(after, |after|) && x.pointer == e.pointer
                        && (x.first == e.key.value || x.second == e.key.value)
  {
    SameRows(before, after);
    var i :| 0 <= i < |after| && after[i] == e;
    var f := FirstLike(after, i);
    assert after[f] in before;
    if f < i {
      RowIsReported(after, |after|, i);
      assert Repeat(e.pointer, after[f].key.value, e.key.value) in RowRepeat(after, i);
    } else {
      CountIsOrderless(before, after, e.pointer);
      var k := AnotherRow(after, i);
      assert after[k] in before;
      RowIsReported(after, |after|, k);
      SameFirst(after, i, k);
      assert Repeat(e.pointer, e.key.value, after[k].key.value) in RowRepeat(after, k);
    }
  }

  lemma SameFirst(s: seq<Entry>, i: nat, k: nat)
    requires i < k < |s| && s[i].pointer == s[k].pointer && FirstLike(s, i) == i
    ensures FirstLike(s, k) == i
  {
    var f := FirstLike(s, k);
  }

  lemma CountAround(s: seq<Entry>, i: nat, p: string)
    requires i < |s| && s[i].pointer == p
    ensures Count(s, p) == Count(s[..i], p) + 1 + Count(s[i + 1..], p)
  {
    WithoutOne(s, i, p);
    CountJoins(s[..i], s[i + 1..], p);
    assert [s[i]][1..] == [];
  }

  /** Of two rows or more at a pointer, one comes after the first. */
  lemma AnotherRow(s: seq<Entry>, i: nat) returns (k: nat)
    requires i < |s| && FirstLike(s, i) == i && Count(s, s[i].pointer) > 1
    ensures i < k < |s| && s[k].pointer == s[i].pointer
  {
    var p := s[i].pointer;
    CountAround(s, i, p);
    CountZero(s[..i], p);
    CountZero(s[i + 1..], p);
    var m :| 0 <= m < |s[i + 1..]| && s[i + 1..][m].pointer == p;
    k := i + 1 + m;
  }

  // ---- the table itself ----

  class Table {
    var rows: seq<Entry>

    constructor ()
      ensures rows == []
    {
      rows := [];
    }

    method Add(pointer: string, key: Option<Pos>, value: Option<Pos>) returns (i: nat)
      modifies this
      ensures i == |old(rows)| && rows == old(rows) + [Entry(pointer, key, value)]
    {
      i := |rows|;
      rows := rows + [Entry(pointer, key, value)];
    }

    method SetValue(i: nat, value: Pos)
      requires i < |rows|
      modifies this
      ensures rows == old(rows)[i := old(rows)[i].(value := Some(value))]
    {
      rows := rows[i := rows[i].(value := Some(value))];
    }

    /** Sorts the rows, whatever they are. */
    method Finish()
      modifies this
      ensures Finished(old(rows), rows)
    {
      var done: seq<Entry> := [];
      for i := 0 to |rows|
        invariant rows == old(rows) && Finished(rows[..i], done)
      {
        var next := Insert(done, rows[i]);
        FinishedGrows(rows, i, done, next);
        done := next;
      }
      assert rows[..|rows|] == rows;
      rows := done;
    }

    /** A search by halves. */
    method Find(p: string) returns (r: Option<Entry>)
      requires PointerSorted(rows)
      ensures Finds(rows, p, r)
    {
      var lo, hi := 0, |rows|;
      while lo < hi
        invariant 0 <= lo <= hi <= |rows|
        invariant forall i :: 0 <= i < lo ==> rows[i].pointer != p
        invariant forall i :: hi <= i < |rows| ==> rows[i].pointer != p
      {
        var mid := (lo + hi) / 2;
        var c := StrCmp(p, rows[mid].pointer);
        StrCmpFacts(p, rows[mid].pointer);
        if c == 0 {
          return Some(rows[mid]);
        }
        Beside(rows, mid, p);
        if c < 0 { hi := mid; } else { lo := mid + 1; }
      }
      return None;
    }

    /** The repeated keys of a finished table. */
    method Report() returns (r: seq<Repeat>)
      requires PointerSorted(rows)
      ensures r == Reported(rows, |rows|)
    {
      SortedIsGrouped(rows);
      r := Duplicates(rows);
    }

    /** The position of a pointer, or of its nearest ancestor that has one. */
    method Locate(pointer: string, wantKey: bool) returns (at: Pos)
      requires PointerSorted(rows)
      ensures Located(rows, pointer, wantKey, at)
    {
      var p, first := pointer, true;
      while true
        invariant forall at :: Located(rows, p, first && wantKey, at) ==> Located(rows, pointer, wantKey, at)
        decreases |p|
      {
        var e := Find(p);
        if e.Some? && Wants(e.value, first && wantKey).Some? {
          return Wants(e.value, first && wantKey).value;
        }
        var i := LastSlash(p);
        assert Missed(rows, p, first && wantKey);
        if i < 0 {
          return Pos(1, 1);
        }
        first := false;
        p := p[..i];
      }
    }
  }

  /** Inserting e keeps the order by pointer, and at each pointer the comparison's
      where that is an order. */
  ghost predicate Inserted(s: seq<Entry>, e: Entry, r: seq<Entry>) {
    && multiset(r) == multiset(s) + multiset{e} && PointerSorted(r)
    && forall p :: SortedAt(s, p) && OrderlyAt(s + [e], p) ==> SortedAt(r, p)
  }

  method Insert(s: seq<Entry>, e: Entry) returns (r: seq<Entry>)
    requires PointerSorted(s)
    ensures Inserted(s, e, r)
  {
    var i := 0;
    while i < |s| && Le(s[i], e)
      invariant 0 <= i <= |s| && forall k :: 0 <= k < i ==> Le(s[k], e)
    {
      i := i + 1;
    }
    r := s[..i] + [e] + s[i..];
    assert s == s[..i] + s[i..];
    InsertByPointer(s, e, i);
    forall p | SortedAt(s, p) && OrderlyAt(s + [e], p) ensures SortedAt(r, p) {
      InsertInOrder(s, e, i, p);
    }
  }

  /** e may stand before row i: what precedes is not after it, and row i is. */
  predicate Fits(s: seq<Entry>, e: Entry, i: nat) {
    i <= |s| && (forall k :: 0 <= k < i ==> Le(s[k], e)) && (i < |s| ==> !Le(s[i], e))
  }

  lemma InsertByPointer(s: seq<Entry>, e: Entry, i: nat)
    requires PointerSorted(s) && Fits(s, e, i)
    ensures PointerSorted(s[..i] + [e] + s[i..])
    ensures forall k :: i <= k < |s| ==> StrCmp(e.pointer, s[k].pointer) <= 0
  {
    forall k | i <= k < |s| ensures StrCmp(e.pointer, s[k].pointer) <= 0 {
      StrCmpFacts(s[i].pointer, e.pointer);
      if i < k {
        StrCmpTransitive(e.pointer, s[i].pointer, s[k].pointer);
      }
    }
    forall k | 0 <= k < i ensures StrCmp(s[k].pointer, e.pointer) <= 0 {
      assert Le(s[k], e);
    }
  }

  lemma InsertInOrder(s: seq<Entry>, e: Entry, i: nat, p: string)
    requires PointerSorted(s) && Fits(s, e, i) && SortedAt(s, p) && OrderlyAt(s + [e], p)
    ensures SortedAt(s[..i] + [e] + s[i..], p)
  {
    if e.pointer == p {
      forall k | i <= k < |s| && s[k].pointer == p ensures Le(e, s[k]) {
        InsertBefore(s, e, i, k);
      }
    }
  }

  lemma InsertBefore(s: seq<Entry>, e: Entry, i: nat, k: nat)
    requires PointerSorted(s) && Fits(s, e, i) && i <= k < |s| && s[k].pointer == e.pointer
    requires SortedAt(s, e.pointer) && OrderlyAt(s + [e], e.pointer)
    ensures Le(e, s[k])
  {
    LeTotal(s[i], e);
    if i < k {
      StrCmpFacts(s[i].pointer, e.pointer);
      assert e in s + [e] && s[i] in s + [e] && s[k] in s + [e];
      LeTransitive(e, s[i], s[k]);
    }
  }

  lemma FinishedGrows(rows: seq<Entry>, i: nat, done: seq<Entry>, next: seq<Entry>)
    requires i < |rows| && Finished(rows[..i], done) && Inserted(done, rows[i], next)
    ensures Finished(rows[..i + 1], next)
  {
    assert rows[..i + 1] == rows[..i] + [rows[i]];
    SameRows(rows[..i], done);
    forall p | OrderlyAt(rows[..i + 1], p) ensures SortedAt(next, p) {
      assert OrderlyAt(rows[..i], p);
      assert OrderlyAt(done + [rows[i]], p);
    }
  }

  lemma Beside(s: seq<Entry>, mid: nat, p: string)
    requires PointerSorted(s) && mid < |s|
    ensures StrCmp(p, s[mid].pointer) < 0 ==> forall i :: mid <= i < |s| ==> s[i].pointer != p
    ensures StrCmp(p, s[mid].pointer) > 0 ==> forall i :: 0 <= i <= mid ==> s[i].pointer != p
  {
    forall i | 0 <= i < |s|
      ensures i >= mid && StrCmp(p, s[mid].pointer) < 0 ==> s[i].pointer != p
      ensures i <= mid && StrCmp(p, s[mid].pointer) > 0 ==> s[i].pointer != p
    {
      StrCmpFacts(p, s[mid].pointer);
      assert i < mid ==> StrCmp(s[i].pointer, s[mid].pointer) <= 0;
      assert mid < i ==> StrCmp(s[mid].pointer, s[i].pointer) <= 0;
    }
  }
}
