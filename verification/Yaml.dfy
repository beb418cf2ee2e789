/** YAML to CBOR: the event-driven stack machine of the quarantined edge, on
values. CBOR is an abstract item stream: containers have indefinite length
(section 3.2 of RFC 8949) and end with a break; a tag precedes its content
(section 3.4). */
module Yaml {
  import opened Wrappers
  import opened Pointer
  import opened Scalars

  const MAX_DEPTH: nat := 64
  const SECRET_TAG: nat := 32768
  const ENCRYPTED := "!encrypted"

  datatype Mark = Mark(line: nat, column: nat) // from 0, as the parser counts
  datatype Pos = Pos(line: nat, col: nat)      // from 1, as positions are reported

  function ToPos(m: Mark): Pos {
    Pos(m.line + 1, m.column + 1)
  }

  datatype Event =
    | DocumentStart(mark: Mark)
    | Alias(mark: Mark)
    | Scalar(value: string, plain: bool, anchor: bool, tag: Option<string>, mark: Mark)
    | Start(isMap: bool, anchor: bool, tag: Option<string>, mark: Mark)
    | End(isMap: bool, mark: Mark)
    | Other // stream start, document end

  datatype Item =
    | NullItem
    | BoolItem(b: bool)
    | IntItem(v: int)
    | DoubleItem(text: string) // the conversion of the text is not modelled
    | TextItem(text: string)
    | TagItem(tag: nat)
    | MapItem
    | ArrayItem
    | BreakItem

  /** One row of the position table. */
  datatype Entry = Entry(pointer: string, key: Option<Pos>, value: Option<Pos>)

  /** An open container. */
  datatype Frame = Frame(
    isMap: bool,
    expectKey: bool,    // of a map: it waits for a key, not for a value
    containerLen: nat,  // length of the container's pointer
    nextIndex: nat,
    keyEntry: int)      // table row of the key just read, while its value is awaited

  datatype Fault =
    | TwoDocuments | Aliased | Anchored | UnknownTag | MergeKey | KeyNotScalar | TooDeep | Unbalanced

  datatype Ctx = Ctx(
    frames: seq<Frame>, // the innermost last; their number is the depth
    haveRoot: bool,
    docs: nat,
    path: string,       // where in the document the machine is
    entries: seq<Entry>,
    items: seq<Item>,
    fault: Option<(Fault, Pos)>)

  const FRESH := Ctx([], false, 0, "", [], [], None)

  function Fail(c: Ctx, f: Fault, m: Mark): Ctx {
    c.(fault := Some((f, ToPos(m))))
  }

  function Top(c: Ctx): Frame
    requires c.frames != []
  {
    c.frames[|c.frames| - 1]
  }

  function WithTop(c: Ctx, f: Frame): seq<Frame>
    requires c.frames != []
  {
    c.frames[..|c.frames| - 1] + [f]
  }

  predicate InMap(c: Ctx) {
    c.frames != [] && Top(c).isMap
  }

  predicate AtKey(c: Ctx) {
    InMap(c) && Top(c).expectKey
  }

  // ---- pointer bookkeeping ----

  function Cut(p: string, n: nat): string {
    if n <= |p| then p[..n] else p
  }

  /** The innermost container's pointer, again. */
  function ContainerPath(c: Ctx): string {
    if c.frames == [] then "" else Cut(c.path, Top(c).containerLen)
  }

  function ElementPath(p: string, i: nat): string {
    p + "/" + Decimal(i)
  }

  /** A value begins: its row has its position, and the path is its pointer. */
  function NoteValue(c: Ctx, m: Mark): Ctx {
    var p := Some(ToPos(m));
    if c.frames == [] then c.(path := "", entries := c.entries + [Entry("", None, p)])
    else if Top(c).isMap then
      var k := Top(c).keyEntry;
      if 0 <= k < |c.entries| then c.(entries := c.entries[k := c.entries[k].(value := p)]) else c
    else
      var path := ElementPath(ContainerPath(c), Top(c).nextIndex);
      c.(path := path, entries := c.entries + [Entry(path, None, p)],
         frames := WithTop(c, Top(c).(nextIndex := Top(c).nextIndex + 1)))
  }

  function NoteKey(c: Ctx, key: string, m: Mark): Ctx
    requires c.frames != []
  {
    var path := Child(ContainerPath(c), key);
    c.(path := path, entries := c.entries + [Entry(path, Some(ToPos(m)), None)],
       frames := WithTop(c, Top(c).(keyEntry := |c.entries|)))
  }

  /** A map turns from value to key, or from key to value. */
  function ValueDone(c: Ctx): Ctx {
    if !InMap(c) then c
    else if Top(c).expectKey then c.(frames := WithTop(c, Top(c).(expectKey := false)))
    else c.(frames := WithTop(c, Top(c).(expectKey := true, keyEntry := -1)))
  }

  // ---- scalars ----

  predicate NullText(s: string) {
    s == "" || s == "~" || s == "null" || s == "Null" || s == "NULL"
  }

  predicate TrueText(s: string) {
    s == "true" || s == "True" || s == "TRUE"
  }

  predicate FalseText(s: string) {
    s == "false" || s == "False" || s == "FALSE"
  }

  /** What an untagged scalar becomes. */
  function Resolve(s: string, plain: bool): Item {
    if !plain then TextItem(s)
    else if NullText(s) then NullItem
    else if TrueText(s) then BoolItem(true)
    else if FalseText(s) then BoolItem(false)
    else if IntForm(s) then IntItem(IntValue(s))
    else if FloatForm(s) then DoubleItem(s)
    else TextItem(s)
  }

  function ScalarItems(value: string, plain: bool, secret: bool): seq<Item> {
    if secret then [TagItem(SECRET_TAG), TextItem(value)] else [Resolve(value, plain)]
  }

  // ---- one event ----

  /** What is wrong with a node's anchor or tag, if anything. */
  function PropsFault(anchor: bool, tag: Option<string>, tagOk: bool): Option<Fault> {
    if anchor then Some(Anchored)
    else if tag.Some? && !(tagOk && tag.value == ENCRYPTED) then Some(UnknownTag)
    else None
  }

  function OnKey(c: Ctx, key: string, plain: bool, m: Mark): Ctx
    requires c.frames != []
  {
    if plain && key == "<<" then Fail(c, MergeKey, m)
    else
      var k := NoteKey(c, key, m);
      ValueDone(k.(items := k.items + [TextItem(key)], haveRoot := true))
  }

  function OnScalar(c: Ctx, value: string, plain: bool, secret: bool, m: Mark): Ctx {
    var k := NoteValue(c, m);
    ValueDone(k.(items := k.items + ScalarItems(value, plain, secret), haveRoot := true))
  }

  function OnStart(c: Ctx, isMap: bool, m: Mark): Ctx {
    if AtKey(c) then Fail(c, KeyNotScalar, m)
    else if |c.frames| >= MAX_DEPTH then Fail(c, TooDeep, m)
    else
      var k := NoteValue(c, m);
      k.(frames := k.frames + [Frame(isMap, true, |k.path|, 0, -1)],
         items := k.items + [if isMap then MapItem else ArrayItem],
         haveRoot := true)
  }

  function OnEnd(c: Ctx, isMap: bool, m: Mark): Ctx {
    if c.frames == [] || Top(c).isMap != isMap then Fail(c, Unbalanced, m)
    else ValueDone(c.(frames := c.frames[..|c.frames| - 1], items := c.items + [BreakItem]))
  }

  /** One event. A context with a fault takes no more. */
  function Handle(c: Ctx, e: Event): Ctx {
    if c.fault.Some? then c
    else
      match e
      case DocumentStart(m) =>
        var k := c.(docs := c.docs + 1);
        if k.docs > 1 then Fail(k, TwoDocuments, m) else k
      case Alias(m) => Fail(c, Aliased, m)
      case Scalar(value, plain, anchor, tag, m) =>
        var f := PropsFault(anchor, tag, !AtKey(c));
        if f.Some? then Fail(c, f.value, m)
        else if AtKey(c) then OnKey(c, value, plain, m)
        else OnScalar(c, value, plain, tag.Some?, m)
      case Start(isMap, anchor, tag, m) =>
        var f := PropsFault(anchor, tag, false);
        if f.Some? then Fail(c, f.value, m) else OnStart(c, isMap, m)
      case End(isMap, m) => OnEnd(c, isMap, m)
      case Other => c
  }

  function Feed(c: Ctx, events: seq<Event>): Ctx
    decreases |events|
  {
    if events == [] then c else Feed(Handle(c, events[0]), events[1..])
  }

  lemma {:induction false} FeedJoins(c: Ctx, a: seq<Event>, b: seq<Event>)
    ensures Feed(c, a + b) == Feed(Feed(c, a), b)
    decreases |a|
  {
    if a == [] {
      assert a + b == b;
    } else {
      assert (a + b)[0] == a[0] && (a + b)[1..] == a[1..] + b;
      FeedJoins(Handle(c, a[0]), a[1..], b);
    }
  }

  lemma {:induction false} FaultSticks(c: Ctx, events: seq<Event>)
    requires c.fault.Some?
    ensures Feed(c, events) == c
    decreases |events|
  {
    if events != [] {
      FaultSticks(c, events[1..]);
    }
  }

  // ---- any event stream at all ----

  /** The depth is within bounds, every container's pointer is a prefix of the
      next one's and of the path, and a map that awaits a value has its key's row. */
  predicate Stacked(c: Ctx) {
    && |c.frames| <= MAX_DEPTH
    && (forall i :: 0 <= i < |c.frames| ==> c.frames[i].containerLen <= |c.path|)
    && (forall i, j :: 0 <= i < j < |c.frames| ==> c.frames[i].containerLen <= c.frames[j].containerLen)
    && (forall i :: 0 <= i < |c.frames| && c.frames[i].isMap && !c.frames[i].expectKey ==>
          0 <= c.frames[i].keyEntry < |c.entries|)
    // only the innermost map can be waiting for a key
    && (forall i :: 0 <= i < |c.frames| - 1 && c.frames[i].isMap ==> !c.frames[i].expectKey)
  }

  lemma ElementStacked(c: Ctx, path: string, entries: seq<Entry>)
    requires Stacked(c) && c.frames != [] && !Top(c).isMap && Cut(c.path, Top(c).containerLen) <= path
    requires |entries| >= |c.entries|
    ensures Stacked(c.(path := path, entries := entries,
                       frames := WithTop(c, Top(c).(nextIndex := Top(c).nextIndex + 1))))
  {
  }

  lemma NoteValueStacked(c: Ctx, m: Mark)
    requires Stacked(c) && !AtKey(c)
    ensures Stacked(NoteValue(c, m)) && |NoteValue(c, m).frames| == |c.frames|
    ensures NoteValue(c, m).fault == c.fault && !AtKey(NoteValue(c, m)) && InMap(NoteValue(c, m)) == InMap(c)
  {
    if c.frames != [] && !Top(c).isMap {
      var path := ElementPath(ContainerPath(c), Top(c).nextIndex);
      ElementStacked(c, path, c.entries + [Entry(path, None, Some(ToPos(m)))]);
    }
  }

  lemma ValueDoneStacked(c: Ctx)
    requires Stacked(c)
    requires AtKey(c) ==> 0 <= Top(c).keyEntry < |c.entries|
    ensures Stacked(ValueDone(c)) && ValueDone(c).fault == c.fault
  {
  }

  lemma OnKeyStacked(c: Ctx, key: string, plain: bool, m: Mark)
    requires Stacked(c) && AtKey(c)
    ensures Stacked(OnKey(c, key, plain, m))
  {
    if !(plain && key == "<<") {
      var k := NoteKey(c, key, m);
      ValueDoneStacked(k.(items := k.items + [TextItem(key)], haveRoot := true));
    }
  }

  lemma OnScalarStacked(c: Ctx, value: string, plain: bool, secret: bool, m: Mark)
    requires Stacked(c) && !AtKey(c)
    ensures Stacked(OnScalar(c, value, plain, secret, m))
  {
    NoteValueStacked(c, m);
    var k := NoteValue(c, m);
    ValueDoneStacked(k.(items := k.items + ScalarItems(value, plain, secret), haveRoot := true));
  }

  lemma OnStartStacked(c: Ctx, isMap: bool, m: Mark)
    requires Stacked(c)
    ensures Stacked(OnStart(c, isMap, m))
  {
    if !AtKey(c) && |c.frames| < MAX_DEPTH {
      NoteValueStacked(c, m);
      var k := NoteValue(c, m);
      PushStacked(k, isMap, k.items + [if isMap then MapItem else ArrayItem]);
    }
  }

  lemma PushStacked(k: Ctx, isMap: bool, items: seq<Item>)
    requires Stacked(k) && !AtKey(k) && |k.frames| < MAX_DEPTH
    ensures Stacked(k.(frames := k.frames + [Frame(isMap, true, |k.path|, 0, -1)], items := items, haveRoot := true))
  {
  }

  lemma OnEndStacked(c: Ctx, isMap: bool, m: Mark)
    requires Stacked(c)
    ensures Stacked(OnEnd(c, isMap, m))
  {
    if c.frames != [] && Top(c).isMap == isMap {
      var k := c.(frames := c.frames[..|c.frames| - 1], items := c.items + [BreakItem]);
      ValueDoneStacked(k);
    }
  }

  lemma FailStacked(c: Ctx, f: Fault, m: Mark)
    requires Stacked(c)
    ensures Stacked(Fail(c, f, m))
  {
  }

  lemma ScalarStacked(c: Ctx, e: Event)
    requires Stacked(c) && c.fault.None? && e.Scalar?
    ensures Stacked(Handle(c, e))
  {
    var f := PropsFault(e.anchor, e.tag, !AtKey(c));
    if f.Some? {
      FailStacked(c, f.value, e.mark);
    } else if AtKey(c) {
      OnKeyStacked(c, e.value, e.plain, e.mark);
    } else {
      OnScalarStacked(c, e.value, e.plain, e.tag.Some?, e.mark);
    }
  }

  lemma StartStacked(c: Ctx, e: Event)
    requires Stacked(c) && c.fault.None? && e.Start?
    ensures Stacked(Handle(c, e))
  {
    var f := PropsFault(e.anchor, e.tag, false);
    if f.Some? {
      FailStacked(c, f.value, e.mark);
    } else {
      OnStartStacked(c, e.isMap, e.mark);
    }
  }

  /** Whatever events arrive, in whatever order, the stacks stay sound: the depth
      never leaves 0 to 64 and no row index is ever wrong. */
  lemma HandleKeepsStacked(c: Ctx, e: Event)
    requires Stacked(c)
    ensures Stacked(Handle(c, e))
  {
    if c.fault.None? {
      match e {
        case DocumentStart(_) =>
        case Alias(m) => FailStacked(c, Aliased, m);
        case Scalar(_, _, _, _, _) => ScalarStacked(c, e);
        case Start(_, _, _, _) => StartStacked(c, e);
        case End(isMap, m) => OnEndStacked(c, isMap, m);
        case Other =>
      }
    }
  }

  lemma {:induction false} AnyStreamStaysStacked(c: Ctx, events: seq<Event>)
    requires Stacked(c)
    ensures Stacked(Feed(c, events))
    decreases |events|
  {
    if events != [] {
      HandleKeepsStacked(c, events[0]);
      AnyStreamStaysStacked(Handle(c, events[0]), events[1..]);
    }
  }

  // ---- only well-nested events are taken ----

  /** The kinds of the containers that a stream leaves open, if its ends match its starts. */
  function Nesting(open: seq<bool>, events: seq<Event>): Option<seq<bool>>
    decreases |events|
  {
    if events == [] then Some(open)
    else
      match events[0]
      case Start(isMap, _, _, _) => Nesting(open + [isMap], events[1..])
      case End(isMap, _) =>
        if open == [] || open[|open| - 1] != isMap then None else Nesting(open[..|open| - 1], events[1..])
      case _ => Nesting(open, events[1..])
  }

  function Kinds(frames: seq<Frame>): (k: seq<bool>)
    ensures |k| == |frames| && forall i :: 0 <= i < |k| ==> k[i] == frames[i].isMap
  {
    seq(|frames|, i requires 0 <= i < |frames| => frames[i].isMap)
  }

  lemma ScalarKeepsKinds(c: Ctx, e: Event)
    requires !e.Start? && !e.End?
    ensures Kinds(Handle(c, e).frames) == Kinds(c.frames)
  {
    if e.Scalar? && c.fault.None? {
      if AtKey(c) {
        var k := NoteKey(c, e.value, e.mark);
        ValueDoneKeepsKinds(k.(items := k.items + [TextItem(e.value)], haveRoot := true));
      } else {
        NoteValueKeepsKinds(c, e.mark);
        var k := NoteValue(c, e.mark);
        ValueDoneKeepsKinds(k.(items := k.items + ScalarItems(e.value, e.plain, e.tag.Some?), haveRoot := true));
      }
    }
  }

  lemma NoteValueKeepsKinds(c: Ctx, m: Mark)
    ensures Kinds(NoteValue(c, m).frames) == Kinds(c.frames)
  {
  }

  lemma ValueDoneKeepsKinds(c: Ctx)
    ensures Kinds(ValueDone(c).frames) == Kinds(c.frames)
  {
  }

  lemma StartPushesKind(c: Ctx, e: Event)
    requires e.Start? && c.fault.None? && Handle(c, e).fault.None?
    ensures Kinds(Handle(c, e).frames) == Kinds(c.frames) + [e.isMap]
  {
  }

  lemma EndPopsKind(c: Ctx, e: Event)
    requires e.End? && c.fault.None? && Handle(c, e).fault.None?
    ensures c.frames != [] && Top(c).isMap == e.isMap
    ensures Kinds(Handle(c, e).frames) == Kinds(c.frames)[..|c.frames| - 1]
  {
  }

  /** Whatever stream is taken without a fault is well nested, and the machine's stack is its nesting. */
  lemma {:induction false} TakenIsNested(c: Ctx, events: seq<Event>)
    requires Feed(c, events).fault.None?
    ensures Nesting(Kinds(c.frames), events) == Some(Kinds(Feed(c, events).frames))
    decreases |events|
  {
    if events != [] {
      var e, k := events[0], Handle(c, events[0]);
      if k.fault.Some? {
        FaultSticks(k, events[1..]);
      }
      if c.fault.Some? {
        FaultSticks(c, events);
      }
      TakenIsNested(k, events[1..]);
      if e.Start? { StartPushesKind(c, e); } else if e.End? { EndPopsKind(c, e); } else { ScalarKeepsKinds(c, e); }
    }
  }
}
