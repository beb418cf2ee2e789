/** Documents as trees: the events a tree gives, the position table and the
CBOR items it should leave, and the proof that the machine leaves exactly those. */
module YamlTree {
  import opened Wrappers
  import opened Pointer
  import opened Scalars
  import opened Yaml

  datatype Node =
    | Leaf(text: string, plain: bool, secret: bool, mark: Mark)
    | MapNode(pairs: seq<Pair>, mark: Mark, end: Mark)
    | SeqNode(elems: seq<Node>, mark: Mark, end: Mark)

  datatype Pair = Pair(key: string, keyPlain: bool, keyMark: Mark, value: Node)

  // ---- the events of a tree ----

  function SecretTag(secret: bool): Option<string> {
    if secret then Some(ENCRYPTED) else None
  }

  function Events(n: Node): seq<Event>
    decreases n
  {
    match n
    case Leaf(text, plain, secret, m) => [Scalar(text, plain, false, SecretTag(secret), m)]
    case MapNode(ps, m, e) => [Start(true, false, None, m)] + PairEvents(ps) + [End(true, e)]
    case SeqNode(es, m, e) => [Start(false, false, None, m)] + ElemEvents(es) + [End(false, e)]
  }

  function KeyEvent(p: Pair): Event {
    Scalar(p.key, p.keyPlain, false, None, p.keyMark)
  }

  function PairEvents(ps: seq<Pair>): seq<Event>
    decreases ps
  {
    if ps == [] then [] else [KeyEvent(ps[0])] + Events(ps[0].value) + PairEvents(ps[1..])
  }

  function ElemEvents(es: seq<Node>): seq<Event>
    decreases es
  {
    if es == [] then [] else Events(es[0]) + ElemEvents(es[1..])
  }

  // ---- what they should leave ----

  function At(n: Node): Option<Pos> {
    Some(ToPos(n.mark))
  }

  /** The rows of everything below a node whose pointer is p, in preorder. */
  function Below(n: Node, p: string): seq<Entry>
    decreases n
  {
    match n
    case Leaf(_, _, _, _) => []
    case MapNode(ps, _, _) => PairRows(ps, p)
    case SeqNode(es, _, _) => ElemRows(es, p, 0)
  }

  function PairRows(ps: seq<Pair>, p: string): seq<Entry>
    decreases ps
  {
    if ps == [] then []
    else
      var q := Child(p, ps[0].key);
      [Entry(q, Some(ToPos(ps[0].keyMark)), At(ps[0].value))] + Below(ps[0].value, q) + PairRows(ps[1..], p)
  }

  function ElemRows(es: seq<Node>, p: string, i: nat): seq<Entry>
    decreases es
  {
    if es == [] then []
    else
      var q := ElementPath(p, i);
      [Entry(q, None, At(es[0]))] + Below(es[0], q) + ElemRows(es[1..], p, i + 1)
  }

  /** The whole table: every node in preorder, each with its pointer, the position
      of its key if it has one, and its own. */
  function Preorder(n: Node): seq<Entry> {
    [Entry("", None, At(n))] + Below(n, "")
  }

  function Items(n: Node): seq<Item>
    decreases n
  {
    match n
    case Leaf(text, plain, secret, _) => ScalarItems(text, plain, secret)
    case MapNode(ps, _, _) => [MapItem] + PairItems(ps) + [BreakItem]
    case SeqNode(es, _, _) => [ArrayItem] + ElemItems(es) + [BreakItem]
  }

  function PairItems(ps: seq<Pair>): seq<Item>
    decreases ps
  {
    if ps == [] then [] else [TextItem(ps[0].key)] + Items(ps[0].value) + PairItems(ps[1..])
  }

  function ElemItems(es: seq<Node>): seq<Item>
    decreases es
  {
    if es == [] then [] else Items(es[0]) + ElemItems(es[1..])
  }

  /** Within the limits, with d containers already open: not too deep, no merge key. */
  predicate Fine(n: Node, d: nat)
    decreases n
  {
    match n
    case Leaf(_, _, _, _) => true
    case MapNode(ps, _, _) => d < MAX_DEPTH && PairsFine(ps, d + 1)
    case SeqNode(es, _, _) => d < MAX_DEPTH && ElemsFine(es, d + 1)
  }

  predicate PairsFine(ps: seq<Pair>, d: nat)
    decreases ps
  {
    ps == [] || (PairFine(ps[0], d) && PairsFine(ps[1..], d))
  }

  predicate PairFine(pr: Pair, d: nat)
    decreases pr
  {
    !(pr.keyPlain && pr.key == "<<") && Fine(pr.value, d)
  }

  predicate ElemsFine(es: seq<Node>, d: nat)
    decreases es
  {
    es == [] || (Fine(es[0], d) && ElemsFine(es[1..], d))
  }

  // ---- the machine on a tree ----

  /** The machine awaits a value whose pointer is p. */
  predicate Awaits(c: Ctx, p: string) {
    && c.fault.None? && Stacked(c) && !AtKey(c)
    && if c.frames == [] then p == ""
       else if Top(c).isMap then c.path == p && Top(c).keyEntry == |c.entries| - 1
       else p == ElementPath(c.path[..Top(c).containerLen], Top(c).nextIndex)
  }

  /** The open containers once the awaited value is complete. */
  function Stepped(c: Ctx): seq<Frame> {
    if c.frames == [] then []
    else if Top(c).isMap then WithTop(c, Top(c).(expectKey := true, keyEntry := -1))
    else WithTop(c, Top(c).(nextIndex := Top(c).nextIndex + 1))
  }

  /** The table once the awaited value's own row is complete. */
  function Landed(c: Ctx, p: string, v: Option<Pos>): seq<Entry> {
    if InMap(c) && c.entries != [] then
      c.entries[..|c.entries| - 1] + [c.entries[|c.entries| - 1].(value := v)]
    else c.entries + [Entry(p, None, v)]
  }

  /** The machine after the awaited value n: nothing but the path is left open, and
      that still starts with the value's pointer. */
  predicate Took(c: Ctx, n: Node, p: string, k: Ctx) {
    && k == Ctx(Stepped(c), true, c.docs, k.path, Landed(c, p, At(n)) + Below(n, p), c.items + Items(n), None)
    && p <= k.path
  }

  lemma NoteValueLands(c: Ctx, m: Mark, p: string)
    requires Awaits(c, p)
    ensures var k := NoteValue(c, m);
            && k.entries == Landed(c, p, Some(ToPos(m))) && k.path == p
            && k.docs == c.docs && k.items == c.items && k.fault.None?
            && |k.frames| == |c.frames|
            && (InMap(c) || c.frames == [] ==> k.frames == c.frames)
            && (c.frames != [] && !Top(c).isMap ==> k.frames == Stepped(c))
  {
  }

  lemma LeafRuns(c: Ctx, n: Node, p: string)
    requires Awaits(c, p) && n.Leaf?
    ensures Took(c, n, p, Feed(c, Events(n)))
  {
    NoteValueLands(c, n.mark, p);
    var e := Scalar(n.text, n.plain, false, SecretTag(n.secret), n.mark);
    FeedOne(c, e);
    assert Handle(c, e) == OnScalar(c, n.text, n.plain, n.secret, n.mark);
    assert Landed(c, p, At(n)) + [] == Landed(c, p, At(n));
  }

  /** The open containers while a container that was awaited is itself open. */
  function Held(c: Ctx): seq<Frame> {
    if c.frames == [] || Top(c).isMap then c.frames else Stepped(c)
  }

  function Opened(c: Ctx, isMap: bool, p: string, v: Option<Pos>): Ctx {
    Ctx(Held(c) + [Frame(isMap, true, |p|, 0, -1)], true, c.docs, p, Landed(c, p, v),
        c.items + [if isMap then MapItem else ArrayItem], None)
  }

  lemma OpenRuns(c: Ctx, isMap: bool, m: Mark, p: string)
    requires Awaits(c, p) && |c.frames| < MAX_DEPTH
    ensures Handle(c, Start(isMap, false, None, m)) == Opened(c, isMap, p, Some(ToPos(m)))
    ensures Stacked(Opened(c, isMap, p, Some(ToPos(m))))
  {
    NoteValueLands(c, m, p);
    HandleKeepsStacked(c, Start(isMap, false, None, m));
  }

  /** Closing brings the open containers back, with the value counted. */
  lemma CloseRuns(c: Ctx, k: Ctx, isMap: bool, f: Frame, m: Mark)
    requires k.fault.None? && k.frames == Held(c) + [f] && f.isMap == isMap && !AtKey(c)
    ensures Handle(k, End(isMap, m)) == k.(frames := Stepped(c), items := k.items + [BreakItem])
  {
    assert k.frames[..|k.frames| - 1] == Held(c);
  }

  /** The innermost container is a map at p, ready for a key. */
  predicate InMapAt(c: Ctx, p: string) {
    && c.fault.None? && Stacked(c) && c.haveRoot && AtKey(c)
    && Top(c).containerLen == |p| && Top(c).keyEntry == -1 && p <= c.path
  }

  /** The innermost container is a sequence at p with i elements. */
  predicate InSeqAt(c: Ctx, p: string, i: nat) {
    && c.fault.None? && Stacked(c) && c.haveRoot && c.frames != [] && !Top(c).isMap
    && Top(c).containerLen == |p| && Top(c).nextIndex == i && p <= c.path
  }

  function Keyed(c: Ctx, pr: Pair, p: string): Ctx
    requires c.frames != []
  {
    Ctx(WithTop(c, Top(c).(expectKey := false, keyEntry := |c.entries|)), true, c.docs, Child(p, pr.key),
        c.entries + [Entry(Child(p, pr.key), Some(ToPos(pr.keyMark)), None)], c.items + [TextItem(pr.key)], None)
  }

  lemma KeyRuns(c: Ctx, pr: Pair, p: string)
    requires InMapAt(c, p) && !(pr.keyPlain && pr.key == "<<")
    ensures Handle(c, KeyEvent(pr)) == Keyed(c, pr, p) && Awaits(Keyed(c, pr, p), Child(p, pr.key))
  {
    assert ContainerPath(c) == p;
    HandleKeepsStacked(c, KeyEvent(pr));
    assert Handle(c, KeyEvent(pr)) == OnKey(c, pr.key, pr.keyPlain, pr.keyMark);
  }

  /** A key and its value leave the map as it was, with their rows and items added. */
  lemma PairTaken(c: Ctx, pr: Pair, p: string, k: Ctx)
    requires InMapAt(c, p) && Took(Keyed(c, pr, p), pr.value, Child(p, pr.key), k) && Stacked(k)
    ensures InMapAt(k, p) && k.frames == c.frames && k.docs == c.docs
    ensures k.entries == c.entries + PairRows([pr], p) && k.items == c.items + PairItems([pr])
  {
    var q := Keyed(c, pr, p);
    assert Stepped(q) == c.frames;
    assert Landed(q, Child(p, pr.key), At(pr.value))
        == c.entries + [Entry(Child(p, pr.key), Some(ToPos(pr.keyMark)), At(pr.value))];
    assert [pr][1..] == [];
    assert p <= Child(p, pr.key) <= k.path;
  }

  lemma ElemTaken(c: Ctx, e: Node, p: string, i: nat, k: Ctx)
    requires InSeqAt(c, p, i) && Took(c, e, ElementPath(p, i), k) && Stacked(k)
    ensures InSeqAt(k, p, i + 1) && k.frames == WithTop(c, Top(c).(nextIndex := i + 1)) && k.docs == c.docs
    ensures k.entries == c.entries + ElemRows([e], p, i) && k.items == c.items + ElemItems([e])
  {
    assert [e][1..] == [];
    assert p <= ElementPath(p, i) <= k.path;
  }

  lemma RowsJoin(pr: Pair, ps: seq<Pair>, p: string)
    ensures PairRows([pr], p) + PairRows(ps, p) == PairRows([pr] + ps, p)
    ensures PairItems([pr]) + PairItems(ps) == PairItems([pr] + ps)
  {
    assert ([pr] + ps)[1..] == ps && [pr][1..] == [];
  }

  lemma ElemsJoin(e: Node, es: seq<Node>, p: string, i: nat)
    ensures ElemRows([e], p, i) + ElemRows(es, p, i + 1) == ElemRows([e] + es, p, i)
    ensures ElemItems([e]) + ElemItems(es) == ElemItems([e] + es)
  {
    assert ([e] + es)[1..] == es && [e][1..] == [];
  }

  lemma FeedOne(c: Ctx, e: Event)
    ensures Feed(c, [e]) == Handle(c, e)
  {
    assert [e][1..] == [];
  }

  lemma FeedThree(c: Ctx, e: Event, es: seq<Event>, z: Event)
    ensures Feed(c, [e] + es + [z]) == Handle(Feed(Handle(c, e), es), z)
  {
    FeedJoins(c, [e] + es, [z]);
    FeedJoins(c, [e], es);
    FeedOne(c, e);
    FeedOne(Feed(c, [e] + es), z);
  }

  lemma Wrapped(a: seq<Item>, x: Item, b: seq<Item>, y: Item)
    ensures ((a + [x]) + b) + [y] == a + ([x] + b + [y])
  {
  }

  lemma Joined<T>(a: seq<T>, b: seq<T>, c: seq<T>)
    ensures (a + b) + c == a + (b + c)
  {
  }

  /** What the pairs of a map leave behind in it. */
  predicate TookPairs(c: Ctx, ps: seq<Pair>, p: string, k: Ctx) {
    && k == Ctx(c.frames, true, c.docs, k.path, c.entries + PairRows(ps, p), c.items + PairItems(ps), None)
    && p <= k.path
  }

  predicate TookElems(c: Ctx, es: seq<Node>, p: string, i: nat, k: Ctx)
    requires c.frames != []
  {
    && k == Ctx(WithTop(c, Top(c).(nextIndex := i + |es|)), true, c.docs, k.path,
                c.entries + ElemRows(es, p, i), c.items + ElemItems(es), None)
    && p <= k.path
  }

  lemma PairsStep(c: Ctx, pr: Pair, rest: seq<Pair>, p: string, k: Ctx, z: Ctx)
    requires k.frames == c.frames && k.docs == c.docs
    requires k.entries == c.entries + PairRows([pr], p) && k.items == c.items + PairItems([pr])
    requires TookPairs(k, rest, p, z)
    ensures TookPairs(c, [pr] + rest, p, z)
  {
    RowsJoin(pr, rest, p);
    Joined(c.entries, PairRows([pr], p), PairRows(rest, p));
    Joined(c.items, PairItems([pr]), PairItems(rest));
  }

  lemma ElemsStep(c: Ctx, e: Node, rest: seq<Node>, p: string, i: nat, k: Ctx, z: Ctx)
    requires c.frames != [] && k.frames == WithTop(c, Top(c).(nextIndex := i + 1)) && k.docs == c.docs
    requires k.entries == c.entries + ElemRows([e], p, i) && k.items == c.items + ElemItems([e])
    requires TookElems(k, rest, p, i + 1, z)
    ensures TookElems(c, [e] + rest, p, i, z)
  {
    ElemsJoin(e, rest, p, i);
    Joined(c.entries, ElemRows([e], p, i), ElemRows(rest, p, i + 1));
    Joined(c.items, ElemItems([e]), ElemItems(rest));
    assert WithTop(k, Top(k).(nextIndex := i + 1 + |rest|)) == WithTop(c, Top(c).(nextIndex := i + |[e] + rest|));
  }

  lemma MapCloses(c: Ctx, n: Node, p: string, k: Ctx)
    requires n.MapNode? && Awaits(c, p) && TookPairs(Opened(c, true, p, At(n)), n.pairs, p, k)
    ensures Took(c, n, p, Handle(k, End(true, n.end)))
  {
    CloseRuns(c, k, true, Frame(true, true, |p|, 0, -1), n.end);
    Wrapped(c.items, MapItem, PairItems(n.pairs), BreakItem);
  }

  lemma SeqCloses(c: Ctx, n: Node, p: string, k: Ctx)
    requires n.SeqNode? && Awaits(c, p) && TookElems(Opened(c, false, p, At(n)), n.elems, p, 0, k)
    ensures Took(c, n, p, Handle(k, End(false, n.end)))
  {
    var o := Opened(c, false, p, At(n));
    var f := Frame(false, true, |p|, |n.elems|, -1);
    assert o.frames[..|o.frames| - 1] == Held(c);
    CloseRuns(c, k, false, f, n.end);
    Wrapped(c.items, ArrayItem, ElemItems(n.elems), BreakItem);
  }

  /** An awaited value is taken whole. */
  lemma {:induction false} ValueRuns(c: Ctx, n: Node, p: string)
    requires Awaits(c, p) && Fine(n, |c.frames|)
    ensures Took(c, n, p, Feed(c, Events(n)))
    decreases n
  {
    match n {
      case Leaf(_, _, _, _) => LeafRuns(c, n, p);
      case MapNode(ps, m, e) =>
        OpenRuns(c, true, m, p);
        var o := Opened(c, true, p, At(n));
        OpenedAt(c, true, p, At(n));
        PairsRun(o, ps, p);
        FeedThree(c, Start(true, false, None, m), PairEvents(ps), End(true, e));
        MapCloses(c, n, p, Feed(o, PairEvents(ps)));
      case SeqNode(es, m, e) =>
        OpenRuns(c, false, m, p);
        var o := Opened(c, false, p, At(n));
        OpenedAt(c, false, p, At(n));
        ElemsRun(o, es, p, 0);
        FeedThree(c, Start(false, false, None, m), ElemEvents(es), End(false, e));
        SeqCloses(c, n, p, Feed(o, ElemEvents(es)));
    }
  }

  lemma OpenedAt(c: Ctx, isMap: bool, p: string, v: Option<Pos>)
    requires Awaits(c, p) && Stacked(Opened(c, isMap, p, v))
    ensures |Opened(c, isMap, p, v).frames| == |c.frames| + 1
    ensures isMap ==> InMapAt(Opened(c, isMap, p, v), p)
    ensures !isMap ==> InSeqAt(Opened(c, isMap, p, v), p, 0)
  {
  }

  /** The machine after one key and its value. */
  function AfterPair(c: Ctx, pr: Pair): Ctx {
    Feed(Handle(c, KeyEvent(pr)), Events(pr.value))
  }

  lemma {:induction false} PairRuns(c: Ctx, pr: Pair, p: string)
    requires InMapAt(c, p) && PairFine(pr, |c.frames|)
    ensures var k := AfterPair(c, pr);
            && InMapAt(k, p) && k.frames == c.frames && k.docs == c.docs
            && k.entries == c.entries + PairRows([pr], p) && k.items == c.items + PairItems([pr])
    decreases pr
  {
    KeyRuns(c, pr, p);
    var q := Keyed(c, pr, p);
    assert |q.frames| == |c.frames|;
    ValueRuns(q, pr.value, Child(p, pr.key));
    AnyStreamStaysStacked(q, Events(pr.value));
    PairTaken(c, pr, p, Feed(q, Events(pr.value)));
  }

  /** The pairs of a map, one after another. */
  lemma {:induction false} PairsRun(c: Ctx, ps: seq<Pair>, p: string)
    requires InMapAt(c, p) && PairsFine(ps, |c.frames|)
    ensures TookPairs(c, ps, p, Feed(c, PairEvents(ps)))
    decreases ps
  {
    if ps == [] {
      assert c.entries + [] == c.entries && c.items + [] == c.items;
    } else {
      var pr, rest := ps[0], ps[1..];
      assert ps == [pr] + rest;
      PairRuns(c, pr, p);
      var k := AfterPair(c, pr);
      PairsRun(k, rest, p);
      FeedPair(c, pr, rest);
      PairsStep(c, pr, rest, p, k, Feed(k, PairEvents(rest)));
    }
  }

  lemma FeedPair(c: Ctx, pr: Pair, rest: seq<Pair>)
    ensures Feed(c, PairEvents([pr] + rest))
         == Feed(AfterPair(c, pr), PairEvents(rest))
  {
    assert ([pr] + rest)[1..] == rest;
    FeedJoins(c, [KeyEvent(pr)] + Events(pr.value), PairEvents(rest));
    FeedJoins(c, [KeyEvent(pr)], Events(pr.value));
    FeedOne(c, KeyEvent(pr));
  }

  /** The elements of a sequence, one after another. */
  lemma {:induction false} ElemsRun(c: Ctx, es: seq<Node>, p: string, i: nat)
    requires InSeqAt(c, p, i) && ElemsFine(es, |c.frames|)
    ensures TookElems(c, es, p, i, Feed(c, ElemEvents(es)))
    decreases es
  {
    if es == [] {
      assert c.entries + [] == c.entries && c.items + [] == c.items;
      assert WithTop(c, Top(c).(nextIndex := i)) == c.frames;
    } else {
      var e, rest := es[0], es[1..];
      assert es == [e] + rest;
      assert c.path[..|p|] == p;
      ValueRuns(c, e, ElementPath(p, i));
      var k := Feed(c, Events(e));
      AnyStreamStaysStacked(c, Events(e));
      ElemTaken(c, e, p, i, k);
      ElemsRun(k, rest, p, i + 1);
      FeedJoins(c, Events(e), ElemEvents(rest));
      ElemsStep(c, e, rest, p, i, k, Feed(k, ElemEvents(rest)));
    }
  }

  /** The events of a whole document. */
  function Document(n: Node, m: Mark): seq<Event> {
    [Other, DocumentStart(m)] + Events(n) + [Other]
  }

  lemma DocumentStarts(m: Mark)
    ensures Feed(FRESH, [Other, DocumentStart(m)]) == FRESH.(docs := 1)
  {
    assert [Other, DocumentStart(m)] == [Other] + [DocumentStart(m)];
    FeedJoins(FRESH, [Other], [DocumentStart(m)]);
    FeedOne(FRESH, Other);
    FeedOne(FRESH, DocumentStart(m));
  }

  /** A single document within the limits leaves exactly its preorder table and its items. */
  lemma DocumentRuns(n: Node, m: Mark)
    requires Fine(n, 0)
    ensures var k := Feed(FRESH, Document(n, m));
            k.fault.None? && k.frames == [] && k.haveRoot && k.entries == Preorder(n) && k.items == Items(n)
  {
    var c := FRESH.(docs := 1);
    FeedJoins(FRESH, [Other, DocumentStart(m)] + Events(n), [Other]);
    FeedJoins(FRESH, [Other, DocumentStart(m)], Events(n));
    DocumentStarts(m);
    ValueRuns(c, n, "");
    RootTaken(c, n, Feed(c, Events(n)));
    FeedOne(Feed(c, Events(n)), Other);
  }

  lemma RootTaken(c: Ctx, n: Node, k: Ctx)
    requires c == FRESH.(docs := 1) && Took(c, n, "", k)
    ensures k.fault.None? && k.frames == [] && k.haveRoot && k.docs == 1
    ensures k.entries == Preorder(n) && k.items == Items(n)
  {
    assert [] + [Entry("", None, At(n))] + Below(n, "") == Preorder(n);
    assert [] + Items(n) == Items(n);
  }

  /** Positions count lines and columns from one. */
  lemma PositionsCountFromOne(n: Node)
    ensures Preorder(n)[0] == Entry("", None, Some(Pos(n.mark.line + 1, n.mark.column + 1)))
  {
  }

  /** Each key of a map has its row: the key's token under the map's pointer, where the
      key stands, and where its value does. */
  lemma {:induction false} EveryPairHasItsRow(ps: seq<Pair>, p: string, i: nat)
    requires i < |ps|
    ensures var k, v := ps[i].keyMark, ps[i].value.mark;
            Entry(p + "/" + Escape(ps[i].key), Some(Pos(k.line + 1, k.column + 1)), Some(Pos(v.line + 1, v.column + 1)))
            in PairRows(ps, p)
    decreases ps
  {
    if i > 0 {
      EveryPairHasItsRow(ps[1..], p, i - 1);
    }
  }

  /** Each element of a list has its row, under its index in decimal, counted from k. */
  lemma {:induction false} EveryElementHasItsRow(es: seq<Node>, p: string, k: nat, i: nat)
    requires i < |es|
    ensures Entry(p + "/" + Decimal(k + i), None, Some(Pos(es[i].mark.line + 1, es[i].mark.column + 1)))
            in ElemRows(es, p, k)
    decreases es
  {
    if i > 0 {
      EveryElementHasItsRow(es[1..], p, k + 1, i - 1);
    }
  }

  // ---- a tree outside the limits is refused ----

  lemma FaultStays(c: Ctx, a: seq<Event>, b: seq<Event>)
    requires Feed(c, a).fault.Some?
    ensures Feed(c, a + b).fault.Some?
  {
    FeedJoins(c, a, b);
    FaultSticks(Feed(c, a), b);
  }

  /** The events inside a container. */
  function Inside(n: Node): seq<Event>
    requires !n.Leaf?
  {
    if n.MapNode? then PairEvents(n.pairs) else ElemEvents(n.elems)
  }

  lemma {:induction false} InsideRefused(o: Ctx, n: Node, p: string)
    requires !n.Leaf?
    requires if n.MapNode? then InMapAt(o, p) && !PairsFine(n.pairs, |o.frames|)
             else InSeqAt(o, p, 0) && !ElemsFine(n.elems, |o.frames|)
    ensures Feed(o, Inside(n)).fault.Some?
    decreases n, 0
  {
    if n.MapNode? { PairsRefused(o, n.pairs, p); } else { ElemsRefused(o, n.elems, p, 0); }
  }

  lemma ContainerEvents(n: Node)
    requires !n.Leaf?
    ensures Events(n) == [Start(n.MapNode?, false, None, n.mark)] + Inside(n) + [End(n.MapNode?, n.end)]
  {
  }

  lemma {:induction false} ValueRefused(c: Ctx, n: Node, p: string)
    requires Awaits(c, p) && !Fine(n, |c.frames|)
    ensures Feed(c, Events(n)).fault.Some?
    decreases n, 1
  {
    var e := Start(n.MapNode?, false, None, n.mark);
    ContainerEvents(n);
    FeedThree(c, e, Inside(n), End(n.MapNode?, n.end));
    if |c.frames| < MAX_DEPTH {
      OpenRuns(c, n.MapNode?, n.mark, p);
      OpenedAt(c, n.MapNode?, p, At(n));
      InsideRefused(Opened(c, n.MapNode?, p, At(n)), n, p);
    } else {
      FaultSticks(Handle(c, e), Inside(n));
    }
  }

  lemma {:induction false} PairsRefused(c: Ctx, ps: seq<Pair>, p: string)
    requires InMapAt(c, p) && !PairsFine(ps, |c.frames|)
    ensures Feed(c, PairEvents(ps)).fault.Some?
    decreases ps
  {
    var pr, rest := ps[0], ps[1..];
    assert ps == [pr] + rest;
    FeedPair(c, pr, rest);
    if PairFine(pr, |c.frames|) {
      PairRuns(c, pr, p);
      PairsRefused(AfterPair(c, pr), rest, p);
    } else {
      PairRefused(c, pr, p);
      FaultSticks(AfterPair(c, pr), PairEvents(rest));
    }
  }

  lemma {:induction false} PairRefused(c: Ctx, pr: Pair, p: string)
    requires InMapAt(c, p) && !PairFine(pr, |c.frames|)
    ensures AfterPair(c, pr).fault.Some?
    decreases pr
  {
    if pr.keyPlain && pr.key == "<<" {
      FaultSticks(Handle(c, KeyEvent(pr)), Events(pr.value));
    } else {
      KeyRuns(c, pr, p);
      ValueRefused(Keyed(c, pr, p), pr.value, Child(p, pr.key));
    }
  }

  lemma {:induction false} ElemsRefused(c: Ctx, es: seq<Node>, p: string, i: nat)
    requires InSeqAt(c, p, i) && !ElemsFine(es, |c.frames|)
    ensures Feed(c, ElemEvents(es)).fault.Some?
    decreases es
  {
    var e, rest := es[0], es[1..];
    assert c.path[..|p|] == p;
    var k := Feed(c, Events(e));
    if !Fine(e, |c.frames|) {
      ValueRefused(c, e, ElementPath(p, i));
      FaultStays(c, Events(e), ElemEvents(rest));
    } else {
      ValueRuns(c, e, ElementPath(p, i));
      AnyStreamStaysStacked(c, Events(e));
      ElemTaken(c, e, p, i, k);
      ElemsRefused(k, rest, p, i + 1);
      FeedJoins(c, Events(e), ElemEvents(rest));
    }
  }

  /** The machine accepts a document exactly when it is within the limits. */
  lemma AcceptsExactly(n: Node, m: Mark)
    ensures Feed(FRESH, Document(n, m)).fault.None? <==> Fine(n, 0)
  {
    if Fine(n, 0) {
      DocumentRuns(n, m);
    } else {
      DocumentStarts(m);
      ValueRefused(FRESH.(docs := 1), n, "");
      FeedJoins(FRESH, [Other, DocumentStart(m)], Events(n));
      FaultStays(FRESH, [Other, DocumentStart(m)] + Events(n), [Other]);
    }
  }
}
