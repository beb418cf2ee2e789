/** What the decoder accepts: exactly the spellings of values. */
module DecodeFacts {
  import opened Yaml
  import opened Decode

  /** A value as it is spelled in items: a map is its pairs in order, repeats included. */
  datatype Code =
    | NullCode
    | BoolCode(b: bool)
    | IntCode(v: int)
    | DoubleCode(text: string)
    | TextCode(text: string)
    | SecretCode(text: string)
    | ListCode(codes: seq<Code>)
    | PairsCode(pairs: seq<CodePair>)

  datatype CodePair = CodePair(key: string, value: Code)

  function Spell(c: Code): (s: seq<Item>)
    ensures s != [] && !s[0].BreakItem?
    decreases c
  {
    match c
    case NullCode => [NullItem]
    case BoolCode(b) => [BoolItem(b)]
    case IntCode(v) => [IntItem(v)]
    case DoubleCode(t) => [DoubleItem(t)]
    case TextCode(t) => [TextItem(t)]
    case SecretCode(t) => [TagItem(32768), TextItem(t)]
    case ListCode(cs) => [ArrayItem] + SpellList(cs) + [BreakItem]
    case PairsCode(ps) => [MapItem] + SpellPairs(ps) + [BreakItem]
  }

  function SpellList(cs: seq<Code>): seq<Item>
    decreases cs
  {
    if cs == [] then [] else Spell(cs[0]) + SpellList(cs[1..])
  }

  function SpellPair(p: CodePair): seq<Item>
    decreases p
  {
    [TextItem(p.key)] + Spell(p.value)
  }

  function SpellPairs(ps: seq<CodePair>): seq<Item>
    decreases ps
  {
    if ps == [] then [] else SpellPair(ps[0]) + SpellPairs(ps[1..])
  }

  function Meaning(c: Code): Value
    decreases c
  {
    match c
    case NullCode => Null
    case BoolCode(b) => Bool(b)
    case IntCode(v) => Int(v)
    case DoubleCode(t) => Float(t)
    case TextCode(t) => Text(t)
    case SecretCode(t) => Secret(t)
    case ListCode(cs) => Array(ListMeaning(cs))
    case PairsCode(ps) => Map(PairsMeaning(ps))
  }

  function ListMeaning(cs: seq<Code>): seq<Value>
    decreases cs
  {
    if cs == [] then [] else [Meaning(cs[0])] + ListMeaning(cs[1..])
  }

  function PairMeaning(p: CodePair): map<string, Value>
    decreases p
  {
    map[p.key := Meaning(p.value)]
  }

  function PairsMeaning(ps: seq<CodePair>): map<string, Value>
    decreases ps
  {
    if ps == [] then map[] else PairMeaning(ps[0]) + PairsMeaning(ps[1..])
  }

  /** With d containers open: not nested deeper than 64, and every integer a double holds exactly. */
  predicate Within(c: Code, d: nat)
    decreases c
  {
    match c
    case IntCode(v) => -9007199254740992 <= v <= 9007199254740992
    case ListCode(cs) => d < 64 && ListWithin(cs, d + 1)
    case PairsCode(ps) => d < 64 && PairsWithin(ps, d + 1)
    case _ => true
  }

  predicate ListWithin(cs: seq<Code>, d: nat)
    decreases cs
  {
    cs == [] || (Within(cs[0], d) && ListWithin(cs[1..], d))
  }

  predicate PairsWithin(ps: seq<CodePair>, d: nat)
    decreases ps
  {
    ps == [] || (PairWithin(ps[0], d) && PairsWithin(ps[1..], d))
  }

  predicate PairWithin(p: CodePair, d: nat)
    decreases p
  {
    Within(p.value, d)
  }

  // ---- what is spelled is read ----

  lemma Framed(x: Item, a: seq<Item>, y: Item, rest: seq<Item>)
    ensures var s := ([x] + a + [y]) + rest; s[0] == x && s[1..] == a + ([y] + rest)
  {
  }

  lemma {:induction false} SpelledIsRead(c: Code, rest: seq<Item>, d: nat)
    requires Within(c, d)
    ensures Convert(Spell(c) + rest, d) == Ok(Meaning(c), rest)
    decreases c
  {
    match c {
      case ListCode(cs) =>
        Framed(ArrayItem, SpellList(cs), BreakItem, rest);
        ListIsRead(cs, rest, d + 1, []);
        assert [] + ListMeaning(cs) == ListMeaning(cs);
      case PairsCode(ps) =>
        Framed(MapItem, SpellPairs(ps), BreakItem, rest);
        PairsAreRead(ps, rest, d + 1, map[]);
        assert map[] + PairsMeaning(ps) == PairsMeaning(ps);
      case SecretCode(t) =>
        var s := Spell(c) + rest;
        assert s[0] == TagItem(32768) && s[1..][0] == TextItem(t) && s[1..][1..] == rest;
      case _ =>
        assert (Spell(c) + rest)[1..] == rest;
    }
  }

  lemma ListSplits(cs: seq<Code>, z: seq<Item>)
    requires cs != []
    ensures SpellList(cs) + z == Spell(cs[0]) + (SpellList(cs[1..]) + z)
  {
  }

  lemma Appended(a: seq<Value>, x: Value, b: seq<Value>)
    ensures (a + [x]) + b == a + ([x] + b)
  {
  }

  lemma {:induction false} ListIsRead(cs: seq<Code>, rest: seq<Item>, d: nat, a: seq<Value>)
    requires ListWithin(cs, d)
    ensures ConvertElems(SpellList(cs) + ([BreakItem] + rest), d, a) == Ok(Array(a + ListMeaning(cs)), rest)
    decreases cs
  {
    var z := [BreakItem] + rest;
    if cs == [] {
      assert [] + z == z && z[1..] == rest && a + [] == a;
    } else {
      ListSplits(cs, z);
      SpelledIsRead(cs[0], SpellList(cs[1..]) + z, d);
      ListIsRead(cs[1..], rest, d, a + [Meaning(cs[0])]);
      Appended(a, Meaning(cs[0]), ListMeaning(cs[1..]));
    }
  }

  lemma PairsSplit(ps: seq<CodePair>, z: seq<Item>)
    requires ps != []
    ensures var s := SpellPairs(ps) + z;
            s != [] && s[0] == TextItem(ps[0].key) && s[1..] == Spell(ps[0].value) + (SpellPairs(ps[1..]) + z)
  {
    HeadAndTwo(TextItem(ps[0].key), Spell(ps[0].value), SpellPairs(ps[1..]), z);
  }

  lemma HeadAndTwo(x: Item, a: seq<Item>, b: seq<Item>, z: seq<Item>)
    ensures var s := (([x] + a) + b) + z; s != [] && s[0] == x && s[1..] == a + (b + z)
  {
  }

  lemma Updated(m: map<string, Value>, k: string, v: Value, f: map<string, Value>)
    ensures m[k := v] + f == m + (map[k := v] + f)
  {
  }

  lemma {:induction false} PairsAreRead(ps: seq<CodePair>, rest: seq<Item>, d: nat, m: map<string, Value>)
    requires PairsWithin(ps, d)
    ensures ConvertPairs(SpellPairs(ps) + ([BreakItem] + rest), d, m) == Ok(Map(m + PairsMeaning(ps)), rest)
    decreases ps
  {
    var z := [BreakItem] + rest;
    if ps == [] {
      assert [] + z == z && z[1..] == rest && m + map[] == m;
    } else {
      var k, v := ps[0].key, Meaning(ps[0].value);
      PairsSplit(ps, z);
      PairIsRead(ps[0], SpellPairs(ps[1..]) + z, d);
      PairsAreRead(ps[1..], rest, d, m[k := v]);
      Updated(m, k, v, PairsMeaning(ps[1..]));
    }
  }

  lemma {:induction false} PairIsRead(p: CodePair, rest: seq<Item>, d: nat)
    requires PairWithin(p, d)
    ensures Convert(Spell(p.value) + rest, d) == Ok(Meaning(p.value), rest)
    decreases p
  {
    SpelledIsRead(p.value, rest, d);
  }

  // ---- what is read is spelled ----

  /** s begins with the spelling of c, and goes on with rest. */
  predicate Begins(s: seq<Item>, c: Code, rest: seq<Item>) {
    s == Spell(c) + rest
  }

  lemma OneItem(s: seq<Item>, c: Code)
    requires s != [] && Spell(c) == [s[0]]
    ensures Begins(s, c, s[1..])
  {
  }

  lemma ReadPlain(s: seq<Item>, d: nat) returns (c: Code)
    requires Convert(s, d).Ok? && !s[0].MapItem? && !s[0].ArrayItem?
    ensures Begins(s, c, Convert(s, d).rest) && Meaning(c) == Convert(s, d).value && Within(c, d)
  {
    match s[0] {
      case NullItem => c := NullCode;
      case BoolItem(b) => c := BoolCode(b);
      case IntItem(v) => c := IntCode(v);
      case DoubleItem(t) => c := DoubleCode(t);
      case TextItem(t) => c := TextCode(t);
      case TagItem(t) =>
        c := SecretCode(s[1].text);
        assert s == [TagItem(32768), TextItem(s[1].text)] + s[2..] && s[1..][1..] == s[2..];
        return;
    }
    OneItem(s, c);
  }

  lemma Wrapped(s: seq<Item>, x: Item, body: seq<Item>, rest: seq<Item>)
    requires s != [] && s[0] == x && s[1..] == body + ([BreakItem] + rest)
    ensures s == ([x] + body + [BreakItem]) + rest
  {
    assert s == [x] + s[1..];
  }

  /** Whatever the decoder reads, it reads the spelling of what it gives. */
  lemma {:induction false} ReadIsSpelled(s: seq<Item>, d: nat) returns (c: Code)
    requires Convert(s, d).Ok?
    ensures Begins(s, c, Convert(s, d).rest) && Meaning(c) == Convert(s, d).value && Within(c, d)
    decreases |s|, 0
  {
    var r := Convert(s, d);
    if s[0].MapItem? {
      var ps := ReadPairs(s[1..], d + 1, map[]);
      c := PairsCode(ps);
      Wrapped(s, MapItem, SpellPairs(ps), r.rest);
      assert map[] + PairsMeaning(ps) == PairsMeaning(ps);
    } else if s[0].ArrayItem? {
      var cs := ReadList(s[1..], d + 1, []);
      c := ListCode(cs);
      Wrapped(s, ArrayItem, SpellList(cs), r.rest);
      assert [] + ListMeaning(cs) == ListMeaning(cs);
    } else {
      c := ReadPlain(s, d);
    }
  }

  lemma ListCons(c: Code, cs: seq<Code>)
    ensures SpellList([c] + cs) == Spell(c) + SpellList(cs) && ListMeaning([c] + cs) == [Meaning(c)] + ListMeaning(cs)
    ensures forall d :: ListWithin([c] + cs, d) <==> Within(c, d) && ListWithin(cs, d)
  {
    assert ([c] + cs)[1..] == cs;
  }

  lemma {:induction false} ReadList(s: seq<Item>, d: nat, a: seq<Value>) returns (cs: seq<Code>)
    requires ConvertElems(s, d, a).Ok?
    ensures var r := ConvertElems(s, d, a);
            && s == SpellList(cs) + ([BreakItem] + r.rest) && r.value == Array(a + ListMeaning(cs))
            && ListWithin(cs, d)
    decreases |s|, 1
  {
    var r := ConvertElems(s, d, a);
    if s[0].BreakItem? {
      cs := [];
      assert s == [BreakItem] + s[1..] && [] + ([BreakItem] + r.rest) == [BreakItem] + r.rest && a + [] == a;
    } else {
      var c := ReadIsSpelled(s, d);
      var more := ReadList(Convert(s, d).rest, d, a + [Meaning(c)]);
      cs := [c] + more;
      ListCons(c, more);
      Appended(a, Meaning(c), ListMeaning(more));
      ThreeJoin(Spell(c), SpellList(more), [BreakItem] + r.rest);
    }
  }

  lemma ThreeJoin(a: seq<Item>, b: seq<Item>, z: seq<Item>)
    ensures a + (b + z) == (a + b) + z
  {
  }

  lemma PairsCons(p: CodePair, ps: seq<CodePair>)
    ensures SpellPairs([p] + ps) == SpellPair(p) + SpellPairs(ps)
    ensures PairsMeaning([p] + ps) == map[p.key := Meaning(p.value)] + PairsMeaning(ps)
    ensures forall d :: PairsWithin([p] + ps, d) <==> Within(p.value, d) && PairsWithin(ps, d)
  {
    assert ([p] + ps)[1..] == ps;
  }

  lemma {:induction false} ReadPairs(s: seq<Item>, d: nat, m: map<string, Value>) returns (ps: seq<CodePair>)
    requires ConvertPairs(s, d, m).Ok?
    ensures var r := ConvertPairs(s, d, m);
            && s == SpellPairs(ps) + ([BreakItem] + r.rest) && r.value == Map(m + PairsMeaning(ps))
            && PairsWithin(ps, d)
    decreases |s|, 0
  {
    var r := ConvertPairs(s, d, m);
    if s[0].BreakItem? {
      ps := [];
      assert s == [BreakItem] + s[1..] && [] + ([BreakItem] + r.rest) == [BreakItem] + r.rest && m + map[] == m;
    } else {
      var c := ReadIsSpelled(s[1..], d);
      var p := CodePair(s[0].text, c);
      var more := ReadPairs(Convert(s[1..], d).rest, d, m[p.key := Meaning(c)]);
      ps := [p] + more;
      PairsCons(p, more);
      Updated(m, p.key, Meaning(c), PairsMeaning(more));
      PairThenRest(s, p, SpellPairs(more), [BreakItem] + r.rest);
    }
  }

  lemma PairThenRest(s: seq<Item>, p: CodePair, b: seq<Item>, z: seq<Item>)
    requires s != [] && s[0] == TextItem(p.key) && s[1..] == Spell(p.value) + (b + z)
    ensures s == (SpellPair(p) + b) + z
  {
    assert s == [s[0]] + s[1..];
    ThreeJoin(Spell(p.value), b, z);
    ThreeJoin([s[0]], Spell(p.value) + b, z);
    ThreeJoin([s[0]], Spell(p.value), b);
  }

  /** The decoder gives v and leaves rest if and only if the items are a spelling of v,
      within the limits, followed by rest. */
  lemma DecodesExactly(s: seq<Item>, d: nat, v: Value, rest: seq<Item>)
    ensures Convert(s, d) == Ok(v, rest) <==>
            exists c :: Begins(s, c, rest) && Meaning(c) == v && Within(c, d)
  {
    if Convert(s, d) == Ok(v, rest) {
      var c := ReadIsSpelled(s, d);
    }
    forall c | Begins(s, c, rest) && Meaning(c) == v && Within(c, d) ensures Convert(s, d) == Ok(v, rest) {
      SpelledIsRead(c, rest, d);
    }
  }
}
