/** The transcoder's context, its stacks updated in place, event by event. */
module Transcode {
  import opened Wrappers
  import opened Pointer
  import opened Scalars
  import opened Yaml
  import opened Positions

  /** A key's row is only meaningful while a map awaits the key's value; before
      and after, the stack keeps whatever was there. */
  function Meaningful(f: Frame): Frame {
    if f.isMap && !f.expectKey then f else f.(keyEntry := -1)
  }

  /** The open containers, when the innermost is in slot d. */
  function Live(s: seq<Frame>, d: nat): (r: seq<Frame>)
    requires d < |s|
    ensures |r| == d
  {
    seq(d, i requires 0 <= i < d => Meaningful(s[i + 1]))
  }

  lemma TopSet(s: seq<Frame>, d: nat, f: Frame)
    requires 0 < d < |s|
    ensures Live(s[d := f], d) == Live(s, d)[..d - 1] + [Meaningful(f)]
  {
  }

  lemma Pushed(s: seq<Frame>, d: nat, f: Frame)
    requires d + 1 < |s|
    ensures Live(s[d + 1 := f], d + 1) == Live(s, d) + [Meaningful(f)]
  {
  }

  lemma Popped(s: seq<Frame>, d: nat)
    requires 0 < d < |s|
    ensures Live(s, d - 1) == Live(s, d)[..d - 1]
  {
  }

  class Transcoder {
    const stack: array<Frame> // slot 0 is the document
    var depth: nat
    var haveRoot: bool
    var docs: nat
    var path: string
    const table: Table
    var items: seq<Item>
    var fault: Option<(Fault, Pos)>

    ghost predicate Valid()
      reads this, stack, table
    {
      && stack.Length == MAX_DEPTH + 1 && depth <= MAX_DEPTH
      && Stacked(View())
    }

    /** The context as a value. */
    ghost function View(): Ctx
      requires depth < stack.Length
      reads this, stack, table
    {
      Ctx(Live(stack[..], depth), haveRoot, docs, path, table.rows, items, fault)
    }

    constructor ()
      ensures Valid() && View() == FRESH && fresh(stack) && fresh(table)
    {
      stack := new Frame[MAX_DEPTH + 1](_ => Frame(false, false, 0, 0, -1));
      table := new Table();
      depth, haveRoot, docs, path, items, fault := 0, false, 0, "", [], None;
    }

    predicate InMap()
      requires depth < stack.Length
      reads this, stack, table
    {
      depth > 0 && stack[depth].isMap
    }

    predicate IsKey()
      requires depth < stack.Length
      reads this, stack, table
    {
      InMap() && stack[depth].expectKey
    }

    lemma TopIs()
      requires depth < stack.Length
      ensures depth > 0 ==> View().frames[depth - 1] == Meaningful(stack[depth])
      ensures AtKey(View()) <==> IsKey()
    {
    }

    /** The innermost container's pointer, again. */
    method PathReset()
      requires Valid()
      modifies this`path
      ensures path == ContainerPath(old(View()))
    {
      if depth > 0 {
        assert View().frames[depth - 1] == Meaningful(stack[depth]);
        path := path[..stack[depth].containerLen];
      } else {
        path := "";
      }
    }

    method PathPushKey(key: string)
      modifies this`path
      ensures path == Child(old(path), key)
    {
      var token := EscapeToken(key);
      path := path + "/" + token;
    }

    method SetTop(f: Frame)
      requires 0 < depth < stack.Length
      modifies stack
      ensures stack[..] == old(stack[..])[depth := f]
      ensures View() == old(View()).(frames := old(View()).frames[..depth - 1] + [Meaningful(f)])
    {
      TopSet(stack[..], depth, f);
      stack[depth] := f;
    }

    /** The in-place form of `NoteValue`; every index it uses is in range. */
    method NoteValueAt(m: Mark)
      requires Valid() && !IsKey()
      modifies this`path, table, stack
      ensures View() == NoteValue(old(View()), m)
    {
      var p := Some(ToPos(m));
      if depth == 0 {
        path := "";
        var row := table.Add("", None, p);
      } else if stack[depth].isMap {
        var k := stack[depth].keyEntry;
        assert View().frames[depth - 1] == stack[depth];
        table.SetValue(k, ToPos(m));
      } else {
        NoteElement(p);
      }
    }

    method NoteElement(p: Option<Pos>)
      requires Valid() && 0 < depth && !stack[depth].isMap
      modifies this`path, table, stack
      ensures var c := old(View());
        && c.frames != []
        && var path := ElementPath(ContainerPath(c), Top(c).nextIndex);
           View() == c.(path := path, entries := c.entries + [Entry(path, None, p)],
                        frames := WithTop(c, Top(c).(nextIndex := Top(c).nextIndex + 1)))
    {
      PathReset();
      var i := stack[depth].nextIndex;
      path := ElementPath(path, i);
      SetTop(stack[depth].(nextIndex := i + 1));
      var row := table.Add(path, None, p);
    }

    /** A map turns from value to key, or from key to value; its other fields stay. */
    method ValueLands()
      requires depth < stack.Length
      requires IsKey() ==> stack[depth].keyEntry >= 0
      modifies stack
      ensures !old(IsKey()) ==> View() == ValueDone(old(View()))
      ensures old(IsKey()) ==> View() == old(View()).(frames :=
        old(View()).frames[..depth - 1] + [old(stack[depth]).(expectKey := false)])
    {
      if depth > 0 && stack[depth].isMap {
        SetTop(stack[depth].(expectKey := !stack[depth].expectKey));
      }
    }

    /** A key's row, and where it is. */
    method NoteKeyAt(key: string, m: Mark)
      requires Valid() && IsKey()
      modifies this`path, table, stack
      ensures path == Child(ContainerPath(old(View())), key)
      ensures table.rows == old(table.rows) + [Entry(path, Some(ToPos(m)), None)]
      ensures stack[..] == old(stack[..])[depth := old(stack[depth]).(keyEntry := |old(table.rows)|)]
    {
      PathReset();
      PathPushKey(key);
      var row := table.Add(path, Some(ToPos(m)), None);
      stack[depth] := stack[depth].(keyEntry := row);
    }

    /** A key: its row, its item, and the map now awaits its value. */
    method TakeKey(key: string, plain: bool, m: Mark)
      requires Valid() && IsKey() && fault.None?
      modifies this, stack, table
      ensures depth < stack.Length && View() == OnKey(old(View()), key, plain, m)
    {
      if plain && key == "<<" {
        fault := Some((MergeKey, ToPos(m)));
        return;
      }
      NoteKeyAt(key, m);
      items := items + [TextItem(key)];
      haveRoot := true;
      ValueLands();
    }

    method EncodeScalar(value: string, plain: bool, secret: bool)
      modifies this`items
      ensures items == old(items) + ScalarItems(value, plain, secret)
    {
      if secret {
        items := items + [TagItem(SECRET_TAG), TextItem(value)];
        return;
      }
      if plain {
        if NullText(value) {
          items := items + [NullItem];
          return;
        }
        if TrueText(value) {
          items := items + [BoolItem(true)];
          return;
        }
        if FalseText(value) {
          items := items + [BoolItem(false)];
          return;
        }
        var isInt := IsInt(value);
        if isInt {
          items := items + [IntItem(IntValue(value))];
          return;
        }
        var isFloat := IsFloat(value);
        if isFloat {
          items := items + [DoubleItem(value)];
          return;
        }
      }
      items := items + [TextItem(value)];
    }

    method TakeScalar(value: string, plain: bool, secret: bool, m: Mark)
      requires Valid() && !IsKey()
      modifies this, stack, table
      ensures depth < stack.Length && View() == OnScalar(old(View()), value, plain, secret, m)
    {
      NoteValueStacked(View(), m);
      NoteValueAt(m);
      assert AtKey(View()) == IsKey() by { TopIs(); }
      EncodeScalar(value, plain, secret);
      haveRoot := true;
      ValueLands();
    }

    method OpenContainer(isMap: bool)
      requires Valid() && depth < MAX_DEPTH
      modifies this, stack, table
      ensures depth < stack.Length && View() == old(View()).(
        frames := old(View()).frames + [Frame(isMap, true, |path|, 0, -1)],
        items := old(items) + [if isMap then MapItem else ArrayItem])
    {
      items := items + [if isMap then MapItem else ArrayItem];
      var f := Frame(isMap, true, |path|, 0, stack[depth + 1].keyEntry);
      Pushed(stack[..], depth, f);
      depth := depth + 1;
      stack[depth] := f;
    }

    method TakeStart(isMap: bool, m: Mark)
      requires Valid() && fault.None?
      modifies this, stack, table
      ensures depth < stack.Length && View() == OnStart(old(View()), isMap, m)
    {
      if IsKey() {
        fault := Some((KeyNotScalar, ToPos(m)));
        return;
      }
      if depth >= MAX_DEPTH {
        fault := Some((TooDeep, ToPos(m)));
        return;
      }
      NoteValueStacked(View(), m);
      NoteValueAt(m);
      OpenContainer(isMap);
      haveRoot := true;
    }

    method TakeEnd(isMap: bool, m: Mark)
      requires Valid() && fault.None?
      modifies this, stack, table
      ensures depth < stack.Length && View() == OnEnd(old(View()), isMap, m)
    {
      if depth == 0 || isMap != stack[depth].isMap {
        fault := Some((Unbalanced, ToPos(m)));
        return;
      }
      Popped(stack[..], depth);
      assert depth > 1 ==> View().frames[depth - 2] == Meaningful(stack[depth - 1]);
      depth := depth - 1;
      items := items + [BreakItem];
      ValueLands();
    }

    /** The in-place form of `PropsFault`. */
    method CheckProps(anchor: bool, tag: Option<string>, tagOk: bool, m: Mark) returns (ok: bool)
      requires depth < stack.Length && fault.None?
      modifies this`fault
      ensures var f := PropsFault(anchor, tag, tagOk);
        ok == f.None? && View() == if ok then old(View()) else Fail(old(View()), f.value, m)
    {
      if anchor {
        fault := Some((Anchored, ToPos(m)));
        return false;
      }
      if tag.Some? && !(tagOk && tag.value == ENCRYPTED) {
        fault := Some((UnknownTag, ToPos(m)));
        return false;
      }
      return true;
    }

    method ScalarEvent(e: Event)
      requires Valid() && fault.None? && e.Scalar?
      modifies this, stack, table
      ensures depth < stack.Length && View() == Handle(old(View()), e)
    {
      TopIs();
      var isKey := IsKey();
      var ok := CheckProps(e.anchor, e.tag, !isKey, e.mark);
      if ok {
        if isKey { TakeKey(e.value, e.plain, e.mark); } else { TakeScalar(e.value, e.plain, e.tag.Some?, e.mark); }
      }
    }

    /** One event, in place. */
    method HandleEvent(e: Event)
      requires Valid() && fault.None?
      modifies this, stack, table
      ensures Valid() && View() == Handle(old(View()), e)
    {
      HandleKeepsStacked(View(), e);
      TopIs();
      match e {
        case DocumentStart(m) =>
          docs := docs + 1;
          if docs > 1 {
            fault := Some((TwoDocuments, ToPos(m)));
          }
        case Alias(m) =>
          fault := Some((Aliased, ToPos(m)));
        case Scalar(_, _, _, _, _) => ScalarEvent(e);
        case Start(isMap, anchor, tag, m) =>
          var ok := CheckProps(anchor, tag, false, m);
          if ok {
            TakeStart(isMap, m);
          }
        case End(isMap, m) => TakeEnd(isMap, m);
        case Other =>
      }
    }

    /** The events of a stream, up to the first fault; a stream with no root is refused. */
    method Encode(events: seq<Event>) returns (ok: bool)
      requires Valid() && View() == FRESH
      modifies this, stack, table
      ensures Valid() && View() == Feed(FRESH, events)
      ensures ok <==> View().fault.None? && View().haveRoot
    {
      var i := 0;
      assert events[0..] == events;
      while i < |events| && fault.None?
        invariant Valid() && 0 <= i <= |events| && Feed(View(), events[i..]) == Feed(FRESH, events)
      {
        assert events[i..][0] == events[i] && events[i..][1..] == events[i + 1..];
        HandleEvent(events[i]);
        i := i + 1;
      }
      if fault.Some? {
        FaultSticks(View(), events[i..]);
      }
      return fault.None? && haveRoot;
    }
  }
}
