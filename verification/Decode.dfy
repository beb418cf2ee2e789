/** CBOR items to Lua values: the recursive conversion that advances an iterator
and builds tables, and its agreement with what a document denotes. */
module Decode {
  import opened Yaml

  const LUA_MAX_DEPTH: nat := 64
  const MAX_EXACT: int := 9007199254740992 // 2^53

  /** Lua values as the configuration sees them. A map table holds one value a key. */
  datatype Value =
    | Null
    | Bool(b: bool)
    | Int(v: int)
    | Float(text: string) // the double the text converts to
    | Text(text: string)
    | Secret(text: string)
    | Array(elems: seq<Value>)
    | Map(fields: map<string, Value>)

  datatype Error = NestedTooDeep | KeyNotText | BeyondExact | ForeignTag | SecretNotText | Malformed

  datatype Outcome = Ok(value: Value, rest: seq<Item>) | Err(error: Error)

  predicate Exact(v: int) {
    -MAX_EXACT <= v <= MAX_EXACT
  }

  /** The value at the front of an item stream, with d containers open around it. */
  function Convert(s: seq<Item>, d: nat): (r: Outcome)
    ensures r.Ok? ==> |r.rest| < |s|
    decreases |s|, 0
  {
    if s == [] then Err(Malformed)
    else
      match s[0]
      case NullItem => Ok(Null, s[1..])
      case BoolItem(b) => Ok(Bool(b), s[1..])
      case IntItem(v) => if Exact(v) then Ok(Int(v), s[1..]) else Err(BeyondExact)
      case DoubleItem(t) => Ok(Float(t), s[1..])
      case TextItem(t) => Ok(Text(t), s[1..])
      case TagItem(t) => ConvertTagged(t, s[1..])
      case MapItem => if d >= LUA_MAX_DEPTH then Err(NestedTooDeep) else ConvertPairs(s[1..], d + 1, map[])
      case ArrayItem => if d >= LUA_MAX_DEPTH then Err(NestedTooDeep) else ConvertElems(s[1..], d + 1, [])
      case BreakItem => Err(Malformed)
  }

  function ConvertTagged(tag: nat, s: seq<Item>): (r: Outcome)
    ensures r.Ok? ==> |r.rest| < |s|
  {
    if tag != SECRET_TAG then Err(ForeignTag)
    else if s == [] || !s[0].TextItem? then Err(SecretNotText)
    else Ok(Secret(s[0].text), s[1..])
  }

  /** The rest of a map whose table so far is m. */
  function ConvertPairs(s: seq<Item>, d: nat, m: map<string, Value>): (r: Outcome)
    ensures r.Ok? ==> |r.rest| < |s|
    decreases |s|, 0
  {
    if s == [] then Err(Malformed)
    else if s[0].BreakItem? then Ok(Map(m), s[1..])
    else if !s[0].TextItem? then Err(KeyNotText)
    else
      match Convert(s[1..], d)
      case Err(e) => Err(e)
      case Ok(v, rest) => ConvertPairs(rest, d, m[s[0].text := v])
  }

  /** The rest of an array whose elements so far are a. */
  function ConvertElems(s: seq<Item>, d: nat, a: seq<Value>): (r: Outcome)
    ensures r.Ok? ==> |r.rest| < |s|
    decreases |s|, 1
  {
    if s == [] then Err(Malformed)
    else if s[0].BreakItem? then Ok(Array(a), s[1..])
    else
      match Convert(s, d)
      case Err(e) => Err(e)
      case Ok(v, rest) => ConvertElems(rest, d, a + [v])
  }

  datatype Loaded = Loaded(value: Value) | Failed(error: Error)

  function Just(o: Outcome): Loaded {
    match o case Ok(v, _) => Loaded(v) case Err(e) => Failed(e)
  }

  /** The decoder: one iterator over the items. */
  class Decoder {
    const items: seq<Item>
    var at: nat

    constructor (items: seq<Item>)
      ensures this.items == items && at == 0
    {
      this.items := items;
      at := 0;
    }

    ghost predicate Valid()
      reads this
    {
      at <= |items|
    }

    ghost function Left(): seq<Item>
      requires Valid()
      reads this
    {
      items[at..]
    }

    /** Having done o, the iterator stands where o left it and r is what o gave. */
    ghost predicate Did(o: Outcome, r: Loaded)
      reads this
    {
      && Valid() && r == Just(o)
      && (o.Ok? ==> Left() == o.rest)
    }

    /** Steps over the item at the front. */
    method Advance()
      requires Valid() && at < |items|
      modifies this
      ensures Valid() && at == old(at) + 1 && Left() == old(Left())[1..]
    {
      at := at + 1;
    }

    method ConvertSecret(tag: nat) returns (r: Loaded)
      requires Valid()
      modifies this
      ensures Did(ConvertTagged(tag, old(Left())), r)
    {
      if tag != SECRET_TAG {
        return Failed(ForeignTag);
      }
      if at == |items| || !items[at].TextItem? {
        return Failed(SecretNotText);
      }
      r := Loaded(Secret(items[at].text));
      Advance();
    }

    /** Everything that is not a container. */
    method ConvertPlain(d: nat) returns (r: Loaded)
      requires Valid() && (at < |items| ==> !items[at].MapItem? && !items[at].ArrayItem?)
      modifies this
      ensures Did(Convert(old(Left()), d), r)
    {
      if at == |items| {
        return Failed(Malformed);
      }
      var i := items[at];
      if i.BreakItem? {
        return Failed(Malformed);
      }
      if i.IntItem? && (i.v > MAX_EXACT || i.v < -MAX_EXACT) {
        return Failed(BeyondExact);
      }
      Advance();
      match i {
        case NullItem => r := Loaded(Null);
        case BoolItem(b) => r := Loaded(Bool(b));
        case IntItem(v) => r := Loaded(Int(v));
        case DoubleItem(t) => r := Loaded(Float(t));
        case TextItem(t) => r := Loaded(Text(t));
        case TagItem(t) => r := ConvertSecret(t);
      }
    }

    method ConvertMap(d: nat) returns (r: Loaded)
      requires Valid()
      modifies this
      ensures Did(ConvertPairs(old(Left()), d, map[]), r)
      decreases |items| - at, 0
    {
      var table: map<string, Value> := map[];
      ghost var want := ConvertPairs(Left(), d, map[]);
      while at < |items| && !items[at].BreakItem?
        invariant Valid() && at >= old(at) && ConvertPairs(Left(), d, table) == want
        decreases |items| - at
      {
        if !items[at].TextItem? {
          return Failed(KeyNotText);
        }
        var key := items[at].text;
        Advance();
        var v := ConvertValue(d);
        if v.Failed? {
          return v;
        }
        table := table[key := v.value];
      }
      if at == |items| {
        return Failed(Malformed);
      }
      Advance();
      r := Loaded(Map(table));
    }

    method ConvertArray(d: nat) returns (r: Loaded)
      requires Valid()
      modifies this
      ensures Did(ConvertElems(old(Left()), d, []), r)
      decreases |items| - at, 2
    {
      var table: seq<Value> := [];
      ghost var want := ConvertElems(Left(), d, []);
      while at < |items| && !items[at].BreakItem?
        invariant Valid() && at >= old(at) && ConvertElems(Left(), d, table) == want
        decreases |items| - at
      {
        var v := ConvertValue(d);
        if v.Failed? {
          return v;
        }
        table := table + [v.value];
      }
      if at == |items| {
        return Failed(Malformed);
      }
      Advance();
      r := Loaded(Array(table));
    }

    method ConvertValue(d: nat) returns (r: Loaded)
      requires Valid()
      modifies this
      ensures Did(Convert(old(Left()), d), r)
      decreases |items| - at, 1
    {
      if at < |items| && (items[at].MapItem? || items[at].ArrayItem?) {
        if d >= LUA_MAX_DEPTH {
          return Failed(NestedTooDeep);
        }
        var isMap := items[at].MapItem?;
        Advance();
        if isMap {
          r := ConvertMap(d + 1);
        } else {
          r := ConvertArray(d + 1);
        }
      } else {
        r := ConvertPlain(d);
      }
    }
  }
}
