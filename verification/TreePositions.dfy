/** The position table of a document: pointers are unique exactly when no map
repeats a key, so the duplicate report and the position lookups mean what they say. */
module TreePositions {
  import opened Wrappers
  import opened Pointer
  import opened Scalars
  import opened Yaml
  import opened YamlTree
  import opened Positions
  import opened Transcode
  import opened YamlSyntax

  predicate HasKey(ps: seq<Pair>, k: string) {
    exists i :: 0 <= i < |ps| && ps[i].key == k
  }

  /** No map of the tree repeats a key. */
  predicate KeysUnique(n: Node)
    decreases n
  {
    match n
    case Leaf(_, _, _, _) => true
    case MapNode(ps, _, _) => PairsUnique(ps)
    case SeqNode(es, _, _) => ElemsUnique(es)
  }

  predicate PairsUnique(ps: seq<Pair>)
    decreases ps
  {
    ps == [] || (!HasKey(ps[1..], ps[0].key) && KeysUnique(ps[0].value) && PairsUnique(ps[1..]))
  }

  predicate ElemsUnique(es: seq<Node>)
    decreases es
  {
    es == [] || (KeysUnique(es[0]) && ElemsUnique(es[1..]))
  }

  // ---- indices are spelled differently ----

  lemma DecimalIsAToken(n: nat)
    ensures '/' !in Decimal(n)
  {
    DecimalReads(n);
  }

  // ---- the token after a container's pointer ----

  function UpToSlash(s: string): string {
    if s == "" || s[0] == '/' then "" else [s[0]] + UpToSlash(s[1..])
  }

  lemma {:induction false} UpToSlashIs(t: string, rest: string)
    requires '/' !in t && (rest == "" || rest[0] == '/')
    ensures UpToSlash(t + rest) == t
  {
    if t == "" {
      assert t + rest == rest;
    } else {
      assert (t + rest)[1..] == t[1..] + rest;
      UpToSlashIs(t[1..], rest);
    }
  }

  predicate Inside(p: string, x: string) {
    p + "/" <= x
  }

  /** Which child of p the pointer x goes through. */
  function Through(p: string, x: string): string
    requires Inside(p, x)
  {
    UpToSlash(x[|p| + 1..])
  }

  lemma ThroughIs(p: string, t: string, x: string)
    requires '/' !in t && Ancestor(p + "/" + t, x)
    ensures Inside(p, x) && Through(p, x) == t
  {
    var q := p + "/" + t;
    var rest := x[|q|..];
    assert x == q + rest && x[|p| + 1..] == t + rest;
    UpToSlashIs(t, rest);
  }

  // ---- every row goes through its parent ----

  lemma {:induction false} BelowIsInside(n: Node, p: string, e: Entry)
    requires e in Below(n, p)
    ensures Inside(p, e.pointer)
    decreases n
  {
    match n {
      case MapNode(ps, _, _) => var i := PairRowOf(ps, p, e);
      case SeqNode(es, _, _) => var j := ElemRowOf(es, p, 0, e);
    }
  }

  /** A row of a map's pairs goes through one of the keys. */
  lemma {:induction false} PairRowOf(ps: seq<Pair>, p: string, e: Entry) returns (i: nat)
    requires e in PairRows(ps, p)
    ensures i < |ps| && Inside(p, e.pointer) && Through(p, e.pointer) == Escape(ps[i].key)
    decreases ps
  {
    var q := Child(p, ps[0].key);
    if e in PairRows(ps[1..], p) {
      i := PairRowOf(ps[1..], p, e);
      i := i + 1;
    } else {
      if e in Below(ps[0].value, q) {
        BelowIsInside(ps[0].value, q, e);
      }
      i := 0;
      EscapedHasNoSlash(ps[0].key);
      ThroughIs(p, Escape(ps[0].key), e.pointer);
    }
  }

  lemma {:induction false} ElemRowOf(es: seq<Node>, p: string, i: nat, e: Entry) returns (j: nat)
    requires e in ElemRows(es, p, i)
    ensures i <= j && Inside(p, e.pointer) && Through(p, e.pointer) == Decimal(j)
    decreases es
  {
    var q := ElementPath(p, i);
    if e in ElemRows(es[1..], p, i + 1) {
      j := ElemRowOf(es[1..], p, i + 1, e);
    } else {
      if e in Below(es[0], q) {
        BelowIsInside(es[0], q, e);
      }
      j := i;
      DecimalIsAToken(i);
      ThroughIs(p, Decimal(i), e.pointer);
    }
  }

  // ---- unique keys, unique pointers ----

  predicate Apart(a: seq<Entry>, b: seq<Entry>) {
    forall x, y :: x in a && y in b ==> x.pointer != y.pointer
  }

  lemma UniqueJoins(a: seq<Entry>, b: seq<Entry>)
    requires Unique(a) && Unique(b) && Apart(a, b)
    ensures Unique(a + b)
  {
    var s := a + b;
    forall i, j | 0 <= i < j < |s| ensures s[i].pointer != s[j].pointer {
      if i < |a| <= j {
        assert s[i] in a && s[j] in b;
      }
    }
  }

  /** A node's own row and those below it. */
  lemma HeadStandsApart(n: Node, q: string, head: Entry)
    requires head.pointer == q
    ensures Apart([head], Below(n, q))
  {
    forall x, y | x in [head] && y in Below(n, q) ensures x.pointer != y.pointer {
      BelowIsInside(n, q, y);
    }
  }

  lemma HeadApart(n: Node, q: string, head: Entry)
    requires head.pointer == q && Unique(Below(n, q))
    ensures Unique([head] + Below(n, q))
  {
    HeadStandsApart(n, q, head);
    UniqueJoins([head], Below(n, q));
  }

  lemma {:induction false} UniqueBelow(n: Node, p: string)
    requires KeysUnique(n)
    ensures Unique(Below(n, p))
    decreases n
  {
    match n {
      case Leaf(_, _, _, _) =>
      case MapNode(ps, _, _) => UniquePairs(ps, p);
      case SeqNode(es, _, _) => UniqueElems(es, p, 0);
    }
  }

  function PairHead(pr: Pair, p: string): Entry {
    Entry(Child(p, pr.key), Some(ToPos(pr.keyMark)), At(pr.value))
  }

  lemma PairsApart(ps: seq<Pair>, p: string)
    requires ps != [] && !HasKey(ps[1..], ps[0].key)
    ensures Apart([PairHead(ps[0], p)] + Below(ps[0].value, Child(p, ps[0].key)), PairRows(ps[1..], p))
  {
    var q := Child(p, ps[0].key);
    EscapedHasNoSlash(ps[0].key);
    forall x, y | x in [PairHead(ps[0], p)] + Below(ps[0].value, q) && y in PairRows(ps[1..], p)
      ensures x.pointer != y.pointer
    {
      if x in Below(ps[0].value, q) {
        BelowIsInside(ps[0].value, q, x);
      }
      ThroughIs(p, Escape(ps[0].key), x.pointer);
      var j := PairRowOf(ps[1..], p, y);
      if Escape(ps[1..][j].key) == Escape(ps[0].key) {
        EscapeIsInjective(ps[1..][j].key, ps[0].key);
      }
    }
  }

  lemma {:induction false} UniquePairs(ps: seq<Pair>, p: string)
    requires PairsUnique(ps)
    ensures Unique(PairRows(ps, p))
    decreases ps
  {
    if ps != [] {
      var q := Child(p, ps[0].key);
      UniqueBelow(ps[0].value, q);
      HeadApart(ps[0].value, q, PairHead(ps[0], p));
      UniquePairs(ps[1..], p);
      PairsApart(ps, p);
      UniqueJoins([PairHead(ps[0], p)] + Below(ps[0].value, q), PairRows(ps[1..], p));
    }
  }

  function ElemHead(e: Node, p: string, i: nat): Entry {
    Entry(ElementPath(p, i), None, At(e))
  }

  lemma ElemsApart(es: seq<Node>, p: string, i: nat)
    requires es != []
    ensures Apart([ElemHead(es[0], p, i)] + Below(es[0], ElementPath(p, i)), ElemRows(es[1..], p, i + 1))
  {
    var q := ElementPath(p, i);
    DecimalIsAToken(i);
    forall x, y | x in [ElemHead(es[0], p, i)] + Below(es[0], q) && y in ElemRows(es[1..], p, i + 1)
      ensures x.pointer != y.pointer
    {
      if x in Below(es[0], q) {
        BelowIsInside(es[0], q, x);
      }
      ThroughIs(p, Decimal(i), x.pointer);
      var j := ElemRowOf(es[1..], p, i + 1, y);
      DecimalReads(i);
      DecimalReads(j);
    }
  }

  lemma {:induction false} UniqueElems(es: seq<Node>, p: string, i: nat)
    requires ElemsUnique(es)
    ensures Unique(ElemRows(es, p, i))
    decreases es
  {
    if es != [] {
      var q := ElementPath(p, i);
      UniqueBelow(es[0], q);
      HeadApart(es[0], q, ElemHead(es[0], p, i));
      UniqueElems(es[1..], p, i + 1);
      ElemsApart(es, p, i);
      UniqueJoins([ElemHead(es[0], p, i)] + Below(es[0], q), ElemRows(es[1..], p, i + 1));
    }
  }

  // ---- a repeated key, a repeated pointer ----

  predicate AllKeyedAt(s: seq<Entry>, p: string) {
    forall e :: e in s && e.pointer == p ==> e.key.Some?
  }

  /** Two rows at one pointer, and every row there is keyed. */
  predicate TwiceKeyed(s: seq<Entry>, i: nat, j: nat) {
    i < j < |s| && s[i].pointer == s[j].pointer && AllKeyedAt(s, s[i].pointer)
  }

  lemma {:induction false} KeyHasRow(ps: seq<Pair>, p: string, k: string) returns (i: nat)
    requires HasKey(ps, k)
    ensures i < |PairRows(ps, p)| && PairRows(ps, p)[i].pointer == Child(p, k) && PairRows(ps, p)[i].key.Some?
    decreases ps
  {
    if ps[0].key == k {
      i := 0;
    } else {
      var j :| 0 <= j < |ps| && ps[j].key == k;
      assert ps[1..][j - 1].key == k;
      i := KeyHasRow(ps[1..], p, k);
      i := i + 1 + |Below(ps[0].value, Child(p, ps[0].key))|;
    }
  }

  lemma {:induction false} RepeatBelow(n: Node, p: string) returns (i: nat, j: nat)
    requires !KeysUnique(n)
    ensures TwiceKeyed(Below(n, p), i, j)
    decreases n
  {
    match n {
      case MapNode(ps, _, _) => i, j := RepeatInPairs(ps, p);
      case SeqNode(es, _, _) => i, j := RepeatInElems(es, p, 0);
    }
  }

  /** A repeat in a part that shares no pointer with the rest is a repeat in the whole. */
  lemma TwiceWithin(a: seq<Entry>, s: seq<Entry>, b: seq<Entry>, i: nat, j: nat)
    requires TwiceKeyed(s, i, j) && Apart(a, s) && Apart(s, b)
    ensures TwiceKeyed(a + s + b, |a| + i, |a| + j)
  {
    var w := a + s + b;
    assert w[|a| + i] == s[i] && w[|a| + j] == s[j];
    forall e | e in w && e.pointer == s[i].pointer ensures e.key.Some? {
      assert s[i] in s;
      assert e in s;
    }
  }

  lemma ApartSplits(a: seq<Entry>, s: seq<Entry>, b: seq<Entry>)
    requires Apart(a + s, b)
    ensures Apart(s, b)
  {
  }

  /** All rows at the pointer of a map's key are keyed. */
  lemma {:induction false} KeyRowsAreKeyed(ps: seq<Pair>, p: string, k: string)
    ensures AllKeyedAt(PairRows(ps, p), Child(p, k))
    decreases ps
  {
    if ps != [] {
      KeyRowsAreKeyed(ps[1..], p, k);
      BelowIsElsewhere(ps[0], p, k);
    }
  }

  /** What is below one of a map's values is at no key of that map. */
  lemma BelowIsElsewhere(pr: Pair, p: string, k: string)
    ensures forall e :: e in Below(pr.value, Child(p, pr.key)) ==> e.pointer != Child(p, k)
  {
    var q := Child(p, pr.key);
    forall e | e in Below(pr.value, q) ensures e.pointer != Child(p, k) {
      BelowIsInside(pr.value, q, e);
      EscapedHasNoSlash(pr.key);
      EscapedHasNoSlash(k);
      ThroughIs(p, Escape(pr.key), e.pointer);
      ThroughIs(p, Escape(k), Child(p, k));
    }
  }

  lemma TwiceAcross(ps: seq<Pair>, p: string, k: nat)
    requires ps != [] && k < |PairRows(ps[1..], p)|
    requires PairRows(ps[1..], p)[k].pointer == Child(p, ps[0].key)
    ensures TwiceKeyed(PairRows(ps, p), 0, 1 + |Below(ps[0].value, Child(p, ps[0].key))| + k)
  {
    KeyRowsAreKeyed(ps, p, ps[0].key);
  }

  lemma {:induction false} RepeatInPairs(ps: seq<Pair>, p: string) returns (i: nat, j: nat)
    requires !PairsUnique(ps)
    ensures TwiceKeyed(PairRows(ps, p), i, j)
    decreases ps
  {
    var q := Child(p, ps[0].key);
    var head, below, rest := [PairHead(ps[0], p)], Below(ps[0].value, q), PairRows(ps[1..], p);
    if HasKey(ps[1..], ps[0].key) {
      j := KeyHasRow(ps[1..], p, ps[0].key);
      TwiceAcross(ps, p, j);
      i, j := 0, 1 + |below| + j;
    } else {
      PairsApart(ps, p);
      if !KeysUnique(ps[0].value) {
        i, j := RepeatBelow(ps[0].value, q);
        i, j := TwiceInHead(ps[0].value, q, head[0], rest, i, j);
      } else {
        i, j := RepeatInPairs(ps[1..], p);
        i, j := TwiceInRest(head + below, rest, i, j);
      }
    }
  }

  lemma TwiceInHead(n: Node, q: string, head: Entry, rest: seq<Entry>, i: nat, j: nat) returns (i': nat, j': nat)
    requires head.pointer == q && TwiceKeyed(Below(n, q), i, j) && Apart([head] + Below(n, q), rest)
    ensures TwiceKeyed([head] + Below(n, q) + rest, i', j')
  {
    HeadStandsApart(n, q, head);
    ApartSplits([head], Below(n, q), rest);
    TwiceWithin([head], Below(n, q), rest, i, j);
    i', j' := 1 + i, 1 + j;
  }

  lemma TwiceInRest(first: seq<Entry>, rest: seq<Entry>, i: nat, j: nat) returns (i': nat, j': nat)
    requires TwiceKeyed(rest, i, j) && Apart(first, rest)
    ensures TwiceKeyed(first + rest, i', j')
  {
    TwiceWithin(first, rest, [], i, j);
    assert first + rest + [] == first + rest;
    i', j' := |first| + i, |first| + j;
  }

  lemma {:induction false} RepeatInElems(es: seq<Node>, p: string, n: nat) returns (i: nat, j: nat)
    requires !ElemsUnique(es)
    ensures TwiceKeyed(ElemRows(es, p, n), i, j)
    decreases es
  {
    var q := ElementPath(p, n);
    var head, below, rest := [ElemHead(es[0], p, n)], Below(es[0], q), ElemRows(es[1..], p, n + 1);
    ElemsApart(es, p, n);
    if !KeysUnique(es[0]) {
      i, j := RepeatBelow(es[0], q);
      i, j := TwiceInHead(es[0], q, head[0], rest, i, j);
    } else {
      i, j := RepeatInElems(es[1..], p, n + 1);
      i, j := TwiceInRest(head + below, rest, i, j);
    }
  }

  /** A document's pointers are unique exactly when its maps repeat no key. */
  lemma PointersUniqueExactly(n: Node)
    ensures Unique(Preorder(n)) <==> KeysUnique(n)
  {
    if KeysUnique(n) {
      UniqueBelow(n, "");
      HeadApart(n, "", Entry("", None, At(n)));
    } else {
      var i, j := RepeatBelow(n, "");
      assert Preorder(n)[i + 1].pointer == Preorder(n)[j + 1].pointer;
    }
  }

  // ---- the finished table of a document ----

  lemma {:induction false} TwoRowsCount(s: seq<Entry>, i: nat, j: nat)
    requires i < j < |s| && s[i].pointer == s[j].pointer
    ensures Count(s, s[i].pointer) >= 2
  {
    if i > 0 {
      TwoRowsCount(s[1..], i - 1, j - 1);
    } else {
      CountZero(s[1..], s[0].pointer);
      assert s[1..][j - 1] == s[j];
    }
  }

  lemma {:induction false} UniqueCounts(s: seq<Entry>, p: string)
    requires Unique(s)
    ensures Count(s, p) <= 1
  {
    if s != [] {
      UniqueCounts(s[1..], p);
      CountZero(s[1..], p);
    }
  }

  lemma UniqueIsOrderless(before: seq<Entry>, after: seq<Entry>)
    requires multiset(before) == multiset(after) && Unique(before)
    ensures Unique(after)
  {
    forall i, j | 0 <= i < j < |after| ensures after[i].pointer != after[j].pointer {
      UniqueCounts(before, after[i].pointer);
      CountIsOrderless(before, after, after[i].pointer);
      if after[i].pointer == after[j].pointer {
        TwoRowsCount(after, i, j);
      }
    }
  }

  lemma {:induction false} SomeRepeat(r: seq<Repeat>, x: Repeat)
    requires x in r
    ensures CountRepeats(r, x.pointer) > 0
  {
    if r[0] != x {
      SomeRepeat(r[1..], x);
    }
  }

  predicate Silent(s: seq<Entry>) {
    Reported(s, |s|) == []
  }

  lemma {:induction false} UniqueIsSilent(s: seq<Entry>, n: nat)
    requires Unique(s) && n <= |s|
    ensures Reported(s, n) == []
  {
    if n > 0 {
      UniqueIsSilent(s, n - 1);
    }
  }

  lemma RepeatIsReported(before: seq<Entry>, after: seq<Entry>, i: nat, j: nat)
    requires multiset(before) == multiset(after) && TwiceKeyed(before, i, j)
    ensures !Silent(after)
  {
    TwoRowsCount(before, i, j);
    assert before[i] in before;
    RepeatsAreCounted(before, after, before[i].pointer);
  }

  lemma TwoInDocument(n: Node) returns (i: nat, j: nat)
    requires !KeysUnique(n)
    ensures TwiceKeyed(Preorder(n), i, j)
  {
    i, j := RepeatBelow(n, "");
    HeadStandsApart(n, "", Entry("", None, At(n)));
    i, j := TwiceInRest([Entry("", None, At(n))], Below(n, ""), i, j);
  }

  /** Nothing is reported if and only if no map of the document repeats a key,
      however the rows were sorted. */
  lemma ReportsExactly(n: Node, after: seq<Entry>)
    requires multiset(Preorder(n)) == multiset(after)
    ensures Silent(after) <==> KeysUnique(n)
  {
    PointersUniqueExactly(n);
    if KeysUnique(n) {
      UniqueIsOrderless(Preorder(n), after);
      UniqueIsSilent(after, |after|);
    } else {
      var i, j := TwoInDocument(n);
      RepeatIsReported(Preorder(n), after, i, j);
    }
  }

  // ---- where the comparison is no order ----

  /** Without a repeated key the comparison is an order on the table. */
  lemma UniqueIsOrderly(n: Node)
    requires KeysUnique(n)
    ensures Orderly(Preorder(n))
  {
    PointersUniqueExactly(n);
    UniqueRowsAreOrderly(Preorder(n));
  }

  lemma UniqueRowsAreOrderly(s: seq<Entry>)
    requires Unique(s)
    ensures Orderly(s)
  {
    forall x | x in s ensures OrderlyAt(s, x.pointer) {
      OnlyRow(s, x);
    }
  }

  lemma MixedRows(leaf: Node, inner: Pair, q: string)
    requires inner.key == "0" && leaf.Leaf? && inner.value.Leaf?
    ensures ElemRows([leaf], q, 0) == [ElemHead(leaf, q, 0)]
    ensures PairRows([inner], q) == [PairHead(inner, q)]
    ensures ElemHead(leaf, q, 0).pointer == PairHead(inner, q).pointer
  {
    assert [leaf][1..] == [] && [inner][1..] == [];
    assert Decimal(0) == ['0'] by { assert '0' as int == 48; }
    assert Escape("0") == ['0'] by { assert "0"[1..] == ""; }
  }

  lemma ConsRows(a: Pair, rest: seq<Pair>, p: string)
    ensures PairRows([a] + rest, p) == [PairHead(a, p)] + Below(a.value, Child(p, a.key)) + PairRows(rest, p)
  {
    assert ([a] + rest)[1..] == rest;
  }

  lemma ConsFine(a: Pair, rest: seq<Pair>, d: nat)
    requires PairFine(a, d) && PairsFine(rest, d)
    ensures PairsFine([a] + rest, d)
  {
    assert ([a] + rest)[1..] == rest;
  }

  lemma OneFine(leaf: Node, d: nat)
    requires Fine(leaf, d)
    ensures ElemsFine([leaf], d)
  {
    assert [leaf][1..] == [];
  }

  // The document {a: {"0": x}, a: [x], a: {"0": x}}, each node at its own column.

  function Col(k: nat): Mark {
    Mark(0, k)
  }

  function Inner(k: nat): Node {
    Leaf("x", true, false, Col(k))
  }

  /** {"0": x} at column k. */
  function OneKey(k: nat): Node {
    MapNode([ZeroKey(k)], Col(k), Col(k + 7))
  }

  function ZeroKey(k: nat): Pair {
    Pair("0", false, Col(k + 1), Inner(k + 6))
  }

  /** [x] at column k. */
  function OneElem(k: nat): Node {
    SeqNode([Inner(k + 1)], Col(k), Col(k + 2))
  }

  function Under(k: nat, value: Node): Pair {
    Pair("a", true, Col(k), value)
  }

  function ThreeUnderOneKey(): Node {
    MapNode([Under(1, OneKey(4))] + ([Under(14, OneElem(17))] + ([Under(22, OneKey(25))] + [])), Col(0), Col(33))
  }

  lemma InnerFine(k: nat)
    ensures Fine(OneKey(k), 1) && Fine(OneElem(k), 1)
  {
    OneFine(Inner(k + 1), 2);
    ConsFine(ZeroKey(k), [], 2);
    assert [ZeroKey(k)] + [] == [ZeroKey(k)];
  }

  lemma ThreeFine()
    ensures Fine(ThreeUnderOneKey(), 0)
  {
    InnerFine(4);
    InnerFine(17);
    InnerFine(25);
    var a, b, c := Under(1, OneKey(4)), Under(14, OneElem(17)), Under(22, OneKey(25));
    ConsFine(c, [], 1);
    ConsFine(b, [c] + [], 1);
    ConsFine(a, [b] + ([c] + []), 1);
  }

  /** The row of the key "0" of the map at column k, and of the element of the list there. */
  function KeyRow(k: nat): Entry {
    PairHead(ZeroKey(k), Child("", "a"))
  }

  function ElemRow(k: nat): Entry {
    ElemHead(Inner(k + 1), Child("", "a"), 0)
  }

  lemma InnerRows(k: nat, m: nat)
    ensures Below(OneKey(k), Child("", "a")) == [KeyRow(k)] && Below(OneElem(m), Child("", "a")) == [ElemRow(m)]
    ensures KeyRow(k).pointer == ElemRow(m).pointer
  {
    MixedRows(Inner(m + 1), ZeroKey(k), Child("", "a"));
  }

  lemma ThreeRows()
    ensures var s := Preorder(ThreeUnderOneKey()); KeyRow(4) in s && ElemRow(17) in s && KeyRow(25) in s
  {
    var a, b, c := Under(1, OneKey(4)), Under(14, OneElem(17)), Under(22, OneKey(25));
    InnerRows(4, 17);
    InnerRows(25, 17);
    ConsRows(c, [], "");
    ConsRows(b, [c] + [], "");
    ConsRows(a, [b] + ([c] + []), "");
    InThree(PairHead(a, ""), KeyRow(4), PairHead(b, ""), ElemRow(17), PairHead(c, ""), KeyRow(25));
  }

  lemma InThree(h: Entry, x: Entry, h': Entry, y: Entry, h'': Entry, z: Entry)
    ensures var s := [h] + [x] + ([h'] + [y] + ([h''] + [z] + [])); x in s && y in s && z in s
  {
    var s := [h] + [x] + ([h'] + [y] + ([h''] + [z] + []));
    assert s[1] == x && s[3] == y && s[5] == z;
  }

  /** An accepted document with a repeated key on whose table the comparison is no order. */
  lemma RepeatsBreakTheOrder()
    ensures Fine(ThreeUnderOneKey(), 0) && !Transitive(Preorder(ThreeUnderOneKey()))
  {
    ThreeFine();
    ThreeRows();
    InnerRows(4, 17);
    InnerRows(25, 17);
    BridgeFails(KeyRow(4), ElemRow(17), KeyRow(25));
  }

  /** Every row of a document has a value position. */
  lemma {:induction false} BelowIsValued(n: Node, p: string, e: Entry)
    requires e in Below(n, p)
    ensures e.value.Some?
    decreases n
  {
    match n {
      case MapNode(ps, _, _) => PairsValued(ps, p, e);
      case SeqNode(es, _, _) => ElemsValued(es, p, 0, e);
    }
  }

  lemma {:induction false} PairsValued(ps: seq<Pair>, p: string, e: Entry)
    requires e in PairRows(ps, p)
    ensures e.value.Some?
    decreases ps
  {
    if e in PairRows(ps[1..], p) {
      PairsValued(ps[1..], p, e);
    } else if e in Below(ps[0].value, Child(p, ps[0].key)) {
      BelowIsValued(ps[0].value, Child(p, ps[0].key), e);
    }
  }

  lemma {:induction false} ElemsValued(es: seq<Node>, p: string, i: nat, e: Entry)
    requires e in ElemRows(es, p, i)
    ensures e.value.Some?
    decreases es
  {
    if e in ElemRows(es[1..], p, i + 1) {
      ElemsValued(es[1..], p, i + 1, e);
    } else if e in Below(es[0], ElementPath(p, i)) {
      BelowIsValued(es[0], ElementPath(p, i), e);
    }
  }

  // ---- parents ----

  /** A row of s is at the pointer one token above e's. */
  predicate HasParent(s: seq<Entry>, e: Entry) {
    LastSlash(e.pointer) >= 0 && exists f :: f in s && f.pointer == e.pointer[..LastSlash(e.pointer)]
  }

  lemma TokenSplits(p: string, t: string)
    requires '/' !in t
    ensures LastSlash(p + "/" + t) == |p| && (p + "/" + t)[..|p|] == p
  {
    var c := p + "/" + t;
    assert c[|p|] == '/' && c[|p| + 1..] == t;
    LastSlashIs(c, |p|);
  }

  lemma {:induction false} BelowHasParent(n: Node, head: Entry, e: Entry)
    requires e in Below(n, head.pointer)
    ensures HasParent([head] + Below(n, head.pointer), e)
    decreases n
  {
    match n {
      case MapNode(ps, _, _) => PairHasParent(ps, head, e);
      case SeqNode(es, _, _) => ElemHasParent(es, head, 0, e);
    }
  }

  lemma MoreRows(s: seq<Entry>, t: seq<Entry>, e: Entry)
    requires HasParent(s, e) && forall f :: f in s ==> f in t
    ensures HasParent(t, e)
  {
  }

  lemma {:induction false} PairHasParent(ps: seq<Pair>, head: Entry, e: Entry)
    requires e in PairRows(ps, head.pointer)
    ensures HasParent([head] + PairRows(ps, head.pointer), e)
    decreases ps
  {
    var p := head.pointer;
    var h, all := PairHead(ps[0], p), [head] + PairRows(ps, p);
    if e in PairRows(ps[1..], p) {
      PairHasParent(ps[1..], head, e);
      MoreRows([head] + PairRows(ps[1..], p), all, e);
    } else if e in Below(ps[0].value, h.pointer) {
      BelowHasParent(ps[0].value, h, e);
      MoreRows([h] + Below(ps[0].value, h.pointer), all, e);
    } else {
      EscapedHasNoSlash(ps[0].key);
      TokenSplits(p, Escape(ps[0].key));
      assert head in all;
    }
  }

  lemma {:induction false} ElemHasParent(es: seq<Node>, head: Entry, i: nat, e: Entry)
    requires e in ElemRows(es, head.pointer, i)
    ensures HasParent([head] + ElemRows(es, head.pointer, i), e)
    decreases es
  {
    var p := head.pointer;
    var h, all := ElemHead(es[0], p, i), [head] + ElemRows(es, p, i);
    if e in ElemRows(es[1..], p, i + 1) {
      ElemHasParent(es[1..], head, i + 1, e);
      MoreRows([head] + ElemRows(es[1..], p, i + 1), all, e);
    } else if e in Below(es[0], h.pointer) {
      BelowHasParent(es[0], h, e);
      MoreRows([h] + Below(es[0], h.pointer), all, e);
    } else {
      DecimalIsAToken(i);
      TokenSplits(p, Decimal(i));
      assert head in all;
    }
  }

  /** Every row but the root's has its parent's row in the table. */
  lemma EveryRowHasParent(n: Node, e: Entry)
    requires e in Preorder(n)
    ensures e.pointer == "" || HasParent(Preorder(n), e)
  {
    if e in Below(n, "") {
      BelowHasParent(n, Entry("", None, At(n)), e);
    }
  }

  // ---- locating ----

  lemma DocumentIsValued(n: Node)
    ensures Valued(Preorder(n))
  {
    forall e | e in Preorder(n) ensures e.value.Some? {
      if e in Below(n, "") {
        BelowIsValued(n, "", e);
      }
    }
  }

  /** Where a pointer of a document is said to be: at a row of the nearest node at
      or above it. A wanted key is the key of a node there; a node without one, a
      list element or the root, is passed over for its parent, or for 1:1. */
  ghost predicate Positioned(s: seq<Entry>, x: string, wantKey: bool, at: Pos) {
    if !wantKey || !RowAt(s, x) then ValuePosition(s, x, at)
    else
      || KeyAt(s, x, at)
      || (UnkeyedAt(s, x)
          && if x == "" then at == Pos(1, 1) else LastSlash(x) >= 0 && ValueAt(s, x[..LastSlash(x)], at))
  }

  lemma ParentPosition(n: Node, x: string, at: Pos)
    requires RowAt(Preorder(n), x) && x != ""
    ensures LastSlash(x) >= 0
    ensures ValuePosition(Preorder(n), x[..LastSlash(x)], at) <==> ValueAt(Preorder(n), x[..LastSlash(x)], at)
  {
    var e :| e in Preorder(n) && e.pointer == x;
    EveryRowHasParent(n, e);
    ValueOfRow(Preorder(n), x[..LastSlash(x)], at);
  }

  lemma KeyInDocument(n: Node, x: string, at: Pos)
    ensures KeyPosition(Preorder(n), x, at) <==> Positioned(Preorder(n), x, true, at)
  {
    if !RowAt(Preorder(n), x) {
      ValueStepsUp(Preorder(n), x, at);
    } else if x != "" {
      ParentPosition(n, x, at);
    }
  }

  /** What a table may answer depends on its rows alone. */
  lemma {:induction false} LocatedInAnyOrder(s: seq<Entry>, t: seq<Entry>, x: string, wantKey: bool, at: Pos)
    requires forall e :: e in s <==> e in t
    ensures Located(s, x, wantKey, at) ==> Located(t, x, wantKey, at)
    decreases |x|
  {
    if Located(s, x, wantKey, at) && Missed(s, x, wantKey) && LastSlash(x) >= 0 {
      LocatedInAnyOrder(s, t, x[..LastSlash(x)], false, at);
    }
  }

  /** For every document, with repeated keys or without, and every order its table
      was left in: the loop may answer exactly with these positions. */
  lemma LocatesInDocument(n: Node, after: seq<Entry>, x: string, wantKey: bool, at: Pos)
    requires multiset(Preorder(n)) == multiset(after)
    ensures Located(after, x, wantKey, at) <==> Positioned(Preorder(n), x, wantKey, at)
  {
    var before := Preorder(n);
    SameRows(before, after);
    LocatedInAnyOrder(before, after, x, wantKey, at);
    LocatedInAnyOrder(after, before, x, wantKey, at);
    DocumentIsValued(n);
    if wantKey {
      LocatesKey(before, x, at);
      KeyInDocument(n, x, at);
    } else {
      LocatesNearest(before, x, at);
    }
  }

  /** Without a repeated key there is one answer: the position of the nearest node. */
  lemma OneAnswerInDocument(n: Node, after: seq<Entry>, e: Entry, x: string, at: Pos)
    requires KeysUnique(n) && multiset(Preorder(n)) == multiset(after)
    requires e in Preorder(n) && NearestAt(Preorder(n), e.pointer, x)
    ensures Located(after, x, false, at) <==> Some(at) == e.value
  {
    PointersUniqueExactly(n);
    DocumentIsValued(n);
    LocatesInDocument(n, after, x, false, at);
    LocatesNearest(Preorder(n), x, at);
    OnlyAnswer(Preorder(n), e, x, at);
  }

  // ---- in place ----

  /** Reads a stream, sorts its positions and looks for repeated keys. */
  method CheckKeys(ds: seq<RawDocument>) returns (ok: bool, r: seq<Repeat>)
    ensures ok <==> StreamSupported(ds)
    ensures ok ==> (r == [] <==> KeysUnique(Tree(ds[0].root)))
    ensures ok ==> exists after :: Finished(Preorder(Tree(ds[0].root)), after) && r == Reported(after, |after|)
  {
    StreamExactly(ds);
    var t := new Transcoder();
    ok := t.Encode(StreamEvents(ds));
    r := [];
    if ok {
      t.table.Finish();
      ReportsExactly(Tree(ds[0].root), t.table.rows);
      r := t.table.Report();
    }
  }

  /** Reads a stream and says where a pointer of its document is. */
  method Where(ds: seq<RawDocument>, x: string, wantKey: bool) returns (at: Option<Pos>)
    ensures at.Some? <==> StreamSupported(ds)
    ensures at.Some? ==> Positioned(Preorder(Tree(ds[0].root)), x, wantKey, at.value)
  {
    StreamExactly(ds);
    var t := new Transcoder();
    var ok := t.Encode(StreamEvents(ds));
    if !ok {
      return None;
    }
    t.table.Finish();
    var p := t.table.Locate(x, wantKey);
    LocatesInDocument(Tree(ds[0].root), t.table.rows, x, wantKey, p);
    return Some(p);
  }
}
