/** Everything a YAML stream can say: anchors, aliases, tags, keys of any kind and
any number of documents; and exactly which streams the machine accepts. */
module YamlSyntax {
  import opened Wrappers
  import opened Pointer
  import opened Yaml
  import opened YamlTree

  datatype Raw =
    | RawScalar(text: string, plain: bool, anchor: bool, tag: Option<string>, mark: Mark)
    | RawMap(pairs: seq<RawPair>, anchor: bool, tag: Option<string>, mark: Mark, end: Mark)
    | RawSeq(elems: seq<Raw>, anchor: bool, tag: Option<string>, mark: Mark, end: Mark)
    | RawAlias(mark: Mark)

  datatype RawPair = RawPair(key: Raw, value: Raw)

  function RawEvents(n: Raw): (es: seq<Event>)
    ensures es != []
    decreases n
  {
    match n
    case RawScalar(text, plain, anchor, tag, m) => [Scalar(text, plain, anchor, tag, m)]
    case RawMap(ps, anchor, tag, m, e) => [Start(true, anchor, tag, m)] + RawPairEvents(ps) + [End(true, e)]
    case RawSeq(es, anchor, tag, m, e) => [Start(false, anchor, tag, m)] + RawElemEvents(es) + [End(false, e)]
    case RawAlias(m) => [Alias(m)]
  }

  function RawPairEvents(ps: seq<RawPair>): seq<Event>
    decreases ps
  {
    if ps == [] then [] else OnePairEvents(ps[0]) + RawPairEvents(ps[1..])
  }

  function OnePairEvents(pr: RawPair): seq<Event>
    decreases pr
  {
    RawEvents(pr.key) + RawEvents(pr.value)
  }

  function RawElemEvents(es: seq<Raw>): seq<Event>
    decreases es
  {
    if es == [] then [] else RawEvents(es[0]) + RawElemEvents(es[1..])
  }

  // ---- what is supported ----

  /** With d containers open: no anchor or alias, no tag but the encrypted one on a
      scalar, keys that are untagged scalars and no merge key, and not too deep. */
  predicate Supported(n: Raw, d: nat)
    decreases n
  {
    match n
    case RawScalar(_, _, anchor, tag, _) => !anchor && (tag.None? || tag.value == "!encrypted")
    case RawMap(ps, anchor, tag, _, _) => !anchor && tag.None? && d < 64 && PairsSupported(ps, d + 1)
    case RawSeq(es, anchor, tag, _, _) => !anchor && tag.None? && d < 64 && ElemsSupported(es, d + 1)
    case RawAlias(_) => false
  }

  predicate KeySupported(k: Raw) {
    k.RawScalar? && !k.anchor && k.tag.None? && !(k.plain && k.text == "<<")
  }

  predicate PairSupported(pr: RawPair, d: nat)
    decreases pr
  {
    KeySupported(pr.key) && Supported(pr.value, d)
  }

  predicate PairsSupported(ps: seq<RawPair>, d: nat)
    decreases ps
  {
    ps == [] || (PairSupported(ps[0], d) && PairsSupported(ps[1..], d))
  }

  predicate ElemsSupported(es: seq<Raw>, d: nat)
    decreases es
  {
    es == [] || (Supported(es[0], d) && ElemsSupported(es[1..], d))
  }

  /** The tree of a supported node. */
  function Tree(n: Raw): Node
    decreases n
  {
    match n
    case RawScalar(text, plain, _, tag, m) => Leaf(text, plain, tag.Some?, m)
    case RawMap(ps, _, _, m, e) => MapNode(TreePairs(ps), m, e)
    case RawSeq(es, _, _, m, e) => SeqNode(TreeElems(es), m, e)
    case RawAlias(m) => Leaf("", true, false, m)
  }

  function TreePair(pr: RawPair): Pair
    decreases pr
  {
    match pr.key
    case RawScalar(text, plain, _, _, m) => Pair(text, plain, m, Tree(pr.value))
    case _ => Pair("", true, pr.key.mark, Tree(pr.value))
  }

  function TreePairs(ps: seq<RawPair>): seq<Pair>
    decreases ps
  {
    if ps == [] then [] else [TreePair(ps[0])] + TreePairs(ps[1..])
  }

  function TreeElems(es: seq<Raw>): seq<Node>
    decreases es
  {
    if es == [] then [] else [Tree(es[0])] + TreeElems(es[1..])
  }

  /** A supported node gives the events of its tree, which is within the limits. */
  lemma {:induction false} SupportedIsTree(n: Raw, d: nat)
    requires Supported(n, d)
    ensures RawEvents(n) == Events(Tree(n)) && Fine(Tree(n), d)
    decreases n
  {
    match n {
      case RawScalar(_, _, _, _, _) =>
      case RawMap(ps, _, _, _, _) => SupportedPairs(ps, d + 1);
      case RawSeq(es, _, _, _, _) => SupportedElems(es, d + 1);
    }
  }

  lemma {:induction false} SupportedPair(pr: RawPair, d: nat)
    requires PairSupported(pr, d)
    ensures RawEvents(pr.key) == [KeyEvent(TreePair(pr))] && RawEvents(pr.value) == Events(TreePair(pr).value)
    ensures PairFine(TreePair(pr), d)
    decreases pr
  {
    SupportedIsTree(pr.value, d);
  }

  lemma {:induction false} SupportedPairs(ps: seq<RawPair>, d: nat)
    requires PairsSupported(ps, d)
    ensures RawPairEvents(ps) == PairEvents(TreePairs(ps)) && PairsFine(TreePairs(ps), d)
    decreases ps
  {
    if ps != [] {
      SupportedPair(ps[0], d);
      SupportedPairs(ps[1..], d);
      assert TreePairs(ps)[1..] == TreePairs(ps[1..]);
    }
  }

  lemma {:induction false} SupportedElems(es: seq<Raw>, d: nat)
    requires ElemsSupported(es, d)
    ensures RawElemEvents(es) == ElemEvents(TreeElems(es)) && ElemsFine(TreeElems(es), d)
    decreases es
  {
    if es != [] {
      SupportedIsTree(es[0], d);
      SupportedElems(es[1..], d);
      assert TreeElems(es)[1..] == TreeElems(es[1..]);
    }
  }

  // ---- anything else is refused, and the first offence is named ----

  /** A fault where a mark says, counting from one. */
  function Fault1(f: Fault, m: Mark): Option<(Fault, Pos)> {
    Some((f, Pos(m.line + 1, m.column + 1)))
  }

  function PropsTrouble(anchor: bool, tag: Option<string>, m: Mark): Option<(Fault, Pos)> {
    if anchor then Fault1(Anchored, m) else if tag.Some? then Fault1(UnknownTag, m) else None
  }

  /** What is wrong with a key. */
  function KeyTrouble(k: Raw): Option<(Fault, Pos)> {
    if k.RawAlias? then Fault1(Aliased, k.mark)
    else
      var p := PropsTrouble(k.anchor, k.tag, k.mark);
      if p.Some? then p
      else if !k.RawScalar? then Fault1(KeyNotScalar, k.mark)
      else if k.plain && k.text == "<<" then Fault1(MergeKey, k.mark)
      else None
  }

  /** The first thing in a document, in reading order, that is not supported, and where it is. */
  function Trouble(n: Raw, d: nat): Option<(Fault, Pos)>
    decreases n
  {
    match n
    case RawAlias(m) => Fault1(Aliased, m)
    case RawScalar(_, _, anchor, tag, m) =>
      if !anchor && tag == Some("!encrypted") then None else PropsTrouble(anchor, tag, m)
    case RawMap(ps, anchor, tag, m, _) =>
      var p := PropsTrouble(anchor, tag, m);
      if p.Some? then p else if d >= 64 then Fault1(TooDeep, m) else PairsTrouble(ps, d + 1)
    case RawSeq(es, anchor, tag, m, _) =>
      var p := PropsTrouble(anchor, tag, m);
      if p.Some? then p else if d >= 64 then Fault1(TooDeep, m) else ElemsTrouble(es, d + 1)
  }

  function PairTrouble(pr: RawPair, d: nat): Option<(Fault, Pos)>
    decreases pr
  {
    if KeyTrouble(pr.key).Some? then KeyTrouble(pr.key) else Trouble(pr.value, d)
  }

  function PairsTrouble(ps: seq<RawPair>, d: nat): Option<(Fault, Pos)>
    decreases ps
  {
    if ps == [] then None
    else if PairTrouble(ps[0], d).Some? then PairTrouble(ps[0], d)
    else PairsTrouble(ps[1..], d)
  }

  function ElemsTrouble(es: seq<Raw>, d: nat): Option<(Fault, Pos)>
    decreases es
  {
    if es == [] then None
    else if Trouble(es[0], d).Some? then Trouble(es[0], d)
    else ElemsTrouble(es[1..], d)
  }

  /** What is supported is what there is no trouble with. */
  lemma {:induction false} SupportedIsUntroubled(n: Raw, d: nat)
    ensures Supported(n, d) <==> Trouble(n, d).None?
    decreases n
  {
    match n {
      case RawMap(ps, _, _, _, _) => PairsUntroubled(ps, d + 1);
      case RawSeq(es, _, _, _, _) => ElemsUntroubled(es, d + 1);
      case _ =>
    }
  }

  lemma {:induction false} PairUntroubled(pr: RawPair, d: nat)
    ensures PairSupported(pr, d) <==> PairTrouble(pr, d).None?
    decreases pr
  {
    SupportedIsUntroubled(pr.value, d);
  }

  lemma {:induction false} PairsUntroubled(ps: seq<RawPair>, d: nat)
    ensures PairsSupported(ps, d) <==> PairsTrouble(ps, d).None?
    decreases ps
  {
    if ps != [] {
      PairUntroubled(ps[0], d);
      PairsUntroubled(ps[1..], d);
    }
  }

  lemma {:induction false} ElemsUntroubled(es: seq<Raw>, d: nat)
    ensures ElemsSupported(es, d) <==> ElemsTrouble(es, d).None?
    decreases es
  {
    if es != [] {
      SupportedIsUntroubled(es[0], d);
      ElemsUntroubled(es[1..], d);
    }
  }

  lemma FirstFaults(c: Ctx, es: seq<Event>)
    requires es != [] && Handle(c, es[0]).fault.Some?
    ensures Feed(c, es) == Handle(c, es[0])
  {
    FaultSticks(Handle(c, es[0]), es[1..]);
  }

  lemma KeyRefused(c: Ctx, k: Raw, p: string)
    requires InMapAt(c, p) && KeyTrouble(k).Some?
    ensures Feed(c, RawEvents(k)).fault == KeyTrouble(k)
  {
    FirstFaults(c, RawEvents(k));
  }

  /** The inside of a container that could be opened. */
  lemma {:induction false} InsideRefused(o: Ctx, n: Raw, p: string)
    requires (n.RawMap? && InMapAt(o, p) && PairsTrouble(n.pairs, |o.frames|).Some?)
          || (n.RawSeq? && InSeqAt(o, p, 0) && ElemsTrouble(n.elems, |o.frames|).Some?)
    ensures Feed(o, Inner(n)).fault
         == if n.RawMap? then PairsTrouble(n.pairs, |o.frames|) else ElemsTrouble(n.elems, |o.frames|)
    decreases n, 0
  {
    if n.RawMap? { RawPairsRefused(o, n.pairs, p); } else { RawElemsRefused(o, n.elems, p, 0); }
  }

  function Inner(n: Raw): seq<Event>
    requires n.RawMap? || n.RawSeq?
  {
    if n.RawMap? then RawPairEvents(n.pairs) else RawElemEvents(n.elems)
  }

  lemma FaultAfterThree(c: Ctx, e: Event, es: seq<Event>, z: Event)
    requires Feed(Handle(c, e), es).fault.Some?
    ensures Feed(c, [e] + es + [z]) == Feed(Handle(c, e), es)
  {
    FeedThree(c, e, es, z);
  }

  lemma {:induction false} RawRefused(c: Ctx, n: Raw, p: string)
    requires Awaits(c, p) && Trouble(n, |c.frames|).Some?
    ensures Feed(c, RawEvents(n)).fault == Trouble(n, |c.frames|)
    decreases n, 1
  {
    if (n.RawMap? || n.RawSeq?) && !n.anchor && n.tag.None? && |c.frames| < MAX_DEPTH {
      var isMap := n.RawMap?;
      var at := Some(ToPos(n.mark));
      OpenRuns(c, isMap, n.mark, p);
      OpenedAt(c, isMap, p, at);
      InsideRefused(Opened(c, isMap, p, at), n, p);
      FaultAfterThree(c, Start(isMap, false, None, n.mark), Inner(n), End(isMap, n.end));
    } else {
      FirstFaults(c, RawEvents(n));
    }
  }

  lemma FeedRawPair(c: Ctx, pr: RawPair, rest: seq<RawPair>)
    ensures Feed(c, RawPairEvents([pr] + rest))
         == Feed(Feed(Feed(c, RawEvents(pr.key)), RawEvents(pr.value)), RawPairEvents(rest))
  {
    assert ([pr] + rest)[1..] == rest;
    FeedJoins(c, RawEvents(pr.key) + RawEvents(pr.value), RawPairEvents(rest));
    FeedJoins(c, RawEvents(pr.key), RawEvents(pr.value));
  }

  lemma {:induction false} RawPairRefused(c: Ctx, pr: RawPair, p: string)
    requires InMapAt(c, p) && PairTrouble(pr, |c.frames|).Some?
    ensures Feed(Feed(c, RawEvents(pr.key)), RawEvents(pr.value)).fault == PairTrouble(pr, |c.frames|)
    decreases pr
  {
    if KeyTrouble(pr.key).None? {
      var t := TreePair(pr);
      KeyRuns(c, t, p);
      FeedOne(c, KeyEvent(t));
      RawRefused(Keyed(c, t, p), pr.value, Child(p, t.key));
    } else {
      KeyRefused(c, pr.key, p);
      FaultSticks(Feed(c, RawEvents(pr.key)), RawEvents(pr.value));
    }
  }

  lemma RawPairRuns(c: Ctx, pr: RawPair, p: string)
    requires InMapAt(c, p) && PairSupported(pr, |c.frames|)
    ensures Feed(Feed(c, RawEvents(pr.key)), RawEvents(pr.value)) == AfterPair(c, TreePair(pr))
    ensures InMapAt(AfterPair(c, TreePair(pr)), p) && AfterPair(c, TreePair(pr)).frames == c.frames
  {
    SupportedPair(pr, |c.frames|);
    PairRuns(c, TreePair(pr), p);
    FeedOne(c, KeyEvent(TreePair(pr)));
  }

  lemma {:induction false} RawPairsRefused(c: Ctx, ps: seq<RawPair>, p: string)
    requires InMapAt(c, p) && PairsTrouble(ps, |c.frames|).Some?
    ensures Feed(c, RawPairEvents(ps)).fault == PairsTrouble(ps, |c.frames|)
    decreases ps
  {
    var pr, rest := ps[0], ps[1..];
    assert ps == [pr] + rest;
    FeedRawPair(c, pr, rest);
    if PairTrouble(pr, |c.frames|).None? {
      PairUntroubled(pr, |c.frames|);
      RawPairRuns(c, pr, p);
      RawPairsRefused(AfterPair(c, TreePair(pr)), rest, p);
    } else {
      RawPairRefused(c, pr, p);
      FaultSticks(Feed(Feed(c, RawEvents(pr.key)), RawEvents(pr.value)), RawPairEvents(rest));
    }
  }

  lemma {:induction false} RawElemsRefused(c: Ctx, es: seq<Raw>, p: string, i: nat)
    requires InSeqAt(c, p, i) && ElemsTrouble(es, |c.frames|).Some?
    ensures Feed(c, RawElemEvents(es)).fault == ElemsTrouble(es, |c.frames|)
    decreases es
  {
    var e, rest := es[0], es[1..];
    assert c.path[..|p|] == p;
    FeedJoins(c, RawEvents(e), RawElemEvents(rest));
    if Trouble(e, |c.frames|).None? {
      SupportedIsUntroubled(e, |c.frames|);
      ElemRuns(c, e, p, i);
      RawElemsRefused(Feed(c, RawEvents(e)), rest, p, i + 1);
    } else {
      RawRefused(c, e, ElementPath(p, i));
      FaultSticks(Feed(c, RawEvents(e)), RawElemEvents(rest));
    }
  }

  lemma ElemRuns(c: Ctx, e: Raw, p: string, i: nat)
    requires InSeqAt(c, p, i) && Supported(e, |c.frames|)
    ensures InSeqAt(Feed(c, RawEvents(e)), p, i + 1) && |Feed(c, RawEvents(e)).frames| == |c.frames|
  {
    assert c.path[..|p|] == p;
    SupportedIsTree(e, |c.frames|);
    ValueRuns(c, Tree(e), ElementPath(p, i));
    AnyStreamStaysStacked(c, Events(Tree(e)));
    ElemTaken(c, Tree(e), p, i, Feed(c, Events(Tree(e))));
  }

  // ---- whole streams ----

  datatype RawDocument = RawDocument(root: Raw, start: Mark)

  function DocumentEvents(d: RawDocument): seq<Event> {
    [DocumentStart(d.start)] + RawEvents(d.root) + [Other]
  }

  function DocumentsEvents(ds: seq<RawDocument>): seq<Event> {
    if ds == [] then [] else DocumentEvents(ds[0]) + DocumentsEvents(ds[1..])
  }

  function StreamEvents(ds: seq<RawDocument>): seq<Event> {
    [Other] + DocumentsEvents(ds)
  }

  /** What a stream must be: one document, and that supported. */
  predicate StreamSupported(ds: seq<RawDocument>) {
    |ds| == 1 && Supported(ds[0].root, 0)
  }

  predicate Accepted(c: Ctx) {
    c.fault.None? && c.haveRoot
  }

  /** What is wrong with a stream, if anything: trouble in its first document, or the
      start of a second one. */
  function StreamTrouble(ds: seq<RawDocument>): Option<(Fault, Pos)> {
    if ds == [] then None
    else if Trouble(ds[0].root, 0).Some? then Trouble(ds[0].root, 0)
    else if |ds| > 1 then Fault1(TwoDocuments, ds[1].start)
    else None
  }

  lemma FirstDocument(d: RawDocument)
    ensures var k := Feed(FRESH, DocumentEvents(d));
            && k.fault == Trouble(d.root, 0)
            && (k.fault.None? ==>
                && k.haveRoot && k.docs == 1
                && k.entries == Preorder(Tree(d.root)) && k.items == Items(Tree(d.root)))
  {
    var c := FRESH.(docs := 1);
    FeedJoins(FRESH, [DocumentStart(d.start)] + RawEvents(d.root), [Other]);
    FeedJoins(FRESH, [DocumentStart(d.start)], RawEvents(d.root));
    FeedOne(FRESH, DocumentStart(d.start));
    FeedOne(Feed(c, RawEvents(d.root)), Other);
    if Trouble(d.root, 0).None? {
      SupportedIsUntroubled(d.root, 0);
      SupportedIsTree(d.root, 0);
      ValueRuns(c, Tree(d.root), "");
      RootTaken(c, Tree(d.root), Feed(c, RawEvents(d.root)));
    } else {
      RawRefused(c, d.root, "");
    }
  }

  /** A stream is accepted if and only if it is one supported document, and then it
      leaves that document's table and items; otherwise the fault is the first thing
      wrong with it, at its place. */
  lemma StreamExactly(ds: seq<RawDocument>)
    ensures Accepted(Feed(FRESH, StreamEvents(ds))) <==> StreamSupported(ds)
    ensures Feed(FRESH, StreamEvents(ds)).fault == StreamTrouble(ds)
    ensures StreamSupported(ds) ==>
              var k := Feed(FRESH, StreamEvents(ds));
              k.entries == Preorder(Tree(ds[0].root)) && k.items == Items(Tree(ds[0].root))
  {
    FeedJoins(FRESH, [Other], DocumentsEvents(ds));
    FeedOne(FRESH, Other);
    if ds != [] {
      var k := Feed(FRESH, DocumentEvents(ds[0]));
      FirstDocument(ds[0]);
      SupportedIsUntroubled(ds[0].root, 0);
      FeedJoins(FRESH, DocumentEvents(ds[0]), DocumentsEvents(ds[1..]));
      if k.fault.Some? {
        FaultSticks(k, DocumentsEvents(ds[1..]));
      } else if |ds| > 1 {
        SecondRefused(k, ds[1..]);
      }
    }
  }

  lemma SecondRefused(k: Ctx, ds: seq<RawDocument>)
    requires k.fault.None? && k.docs == 1 && ds != []
    ensures Feed(k, DocumentsEvents(ds)).fault == Fault1(TwoDocuments, ds[0].start)
  {
    assert DocumentsEvents(ds)[0] == DocumentStart(ds[0].start);
    FirstFaults(k, DocumentsEvents(ds));
  }
}
