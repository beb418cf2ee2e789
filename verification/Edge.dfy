/** The whole edge: what a document denotes, and the proof that transcoding it
and decoding the items gives exactly that. */
module Edge {
  import opened Wrappers
  import opened Scalars
  import opened Yaml
  import opened YamlTree
  import opened Decode
  import opened Transcode
  import opened YamlSyntax

  /** What a scalar denotes. */
  function LeafValue(text: string, plain: bool, secret: bool): Value {
    if secret then Secret(text)
    else if !plain then Text(text)
    else if text in {"", "~", "null", "Null", "NULL"} then Null
    else if text in {"true", "True", "TRUE"} then Bool(true)
    else if text in {"false", "False", "FALSE"} then Bool(false)
    else if IntForm(text) then Int(IntValue(text))
    else if FloatForm(text) then Value.Float(text)
    else Text(text)
  }

  /** What a tree denotes: a repeated key has its last value. */
  function Denote(n: Node): Value
    decreases n
  {
    match n
    case Leaf(text, plain, secret, _) => LeafValue(text, plain, secret)
    case MapNode(ps, _, _) => Map(Fields(ps))
    case SeqNode(es, _, _) => Array(Elements(es))
  }

  function Fields(ps: seq<Pair>): map<string, Value>
    decreases ps
  {
    if ps == [] then map[] else map[ps[0].key := Denote(ps[0].value)] + Fields(ps[1..])
  }

  function Elements(es: seq<Node>): seq<Value>
    decreases es
  {
    if es == [] then [] else [Denote(es[0])] + Elements(es[1..])
  }

  /** Every integer of the tree is one a double holds exactly. */
  predicate Exactly(n: Node)
    decreases n
  {
    match n
    case Leaf(text, plain, secret, _) =>
      var v := LeafValue(text, plain, secret);
      v.Int? ==> Exact(v.v)
    case MapNode(ps, _, _) => PairsExactly(ps)
    case SeqNode(es, _, _) => ElemsExactly(es)
  }

  predicate PairsExactly(ps: seq<Pair>)
    decreases ps
  {
    ps == [] || (Exactly(ps[0].value) && PairsExactly(ps[1..]))
  }

  predicate ElemsExactly(es: seq<Node>)
    decreases es
  {
    es == [] || (Exactly(es[0]) && ElemsExactly(es[1..]))
  }

  /** A plain decimal number denotes that number, sign and all, whatever its leading zeros. */
  lemma IntegerDenotes(sign: string, k: nat, n: nat, m: Mark)
    requires SignText(sign) && k + |Decimal(n)| <= 18
    ensures var text, v: int := sign + (Zeros(k) + Decimal(n)), n;
            Denote(Leaf(text, true, false, m)) == Int(if sign == "-" then -v else v)
  {
    var text := sign + (Zeros(k) + Decimal(n));
    IntegersMean(sign, k, n);
    DecimalReads(n);
    var last := text[|text| - 1];
    assert last == Decimal(n)[|Decimal(n)| - 1] && Digit(last);
    NotAWord(text);
  }

  lemma NotAWord(text: string)
    requires text != "" && Digit(text[|text| - 1])
    ensures text !in {"", "~", "null", "Null", "NULL"}
    ensures text !in {"true", "True", "TRUE"} && text !in {"false", "False", "FALSE"}
  {
    var last := text[|text| - 1];
    assert last != '~' && last != 'l' && last != 'L' && last != 'e' && last != 'E';
    assert text == "~" ==> last == '~';
    assert text == "null" || text == "Null" ==> last == 'l';
    assert text == "NULL" ==> last == 'L';
    assert text == "true" || text == "True" || text == "false" || text == "False" ==> last == 'e';
    assert text == "TRUE" || text == "FALSE" ==> last == 'E';
  }

  // ---- what a map's table holds ----

  /** The table of a map has the map's keys, and a key's last value. */
  lemma {:induction false} FieldsHoldTheLast(ps: seq<Pair>, i: nat)
    requires i < |ps| && forall j :: i < j < |ps| ==> ps[j].key != ps[i].key
    ensures ps[i].key in Fields(ps) && Fields(ps)[ps[i].key] == Denote(ps[i].value)
  {
    if i > 0 {
      FieldsHoldTheLast(ps[1..], i - 1);
    } else {
      FieldsHaveTheKeys(ps[1..], ps[0].key);
    }
  }

  lemma {:induction false} FieldsHaveTheKeys(ps: seq<Pair>, k: string)
    ensures k in Fields(ps) <==> exists i :: 0 <= i < |ps| && ps[i].key == k
  {
    if ps != [] {
      FieldsHaveTheKeys(ps[1..], k);
      if k in Fields(ps[1..]) {
        var i :| 0 <= i < |ps[1..]| && ps[1..][i].key == k;
        assert ps[i + 1].key == k;
      }
      forall i | 0 <= i < |ps| && ps[i].key == k ensures k in Fields(ps) {
        if i > 0 {
          assert ps[1..][i - 1].key == k;
        }
      }
    }
  }

  lemma {:induction false} ElementsAre(es: seq<Node>, i: nat)
    requires i < |es|
    ensures |Elements(es)| == |es| && Elements(es)[i] == Denote(es[i])
  {
    if |es| > 1 {
      ElementsAre(es[1..], if i > 0 then i - 1 else 0);
    }
  }

  // ---- decoding what was transcoded ----

  /** The decoder's outcome on a value that denotes v. */
  function Wanted(fits: bool, v: Value, rest: seq<Item>): Outcome {
    if fits then Ok(v, rest) else Err(BeyondExact)
  }

  lemma LeafDecodes(n: Node, rest: seq<Item>, d: nat)
    requires n.Leaf?
    ensures Convert(Items(n) + rest, d) == Wanted(Exactly(n), Denote(n), rest)
  {
    var s := Items(n) + rest;
    if n.secret {
      assert s[0] == TagItem(SECRET_TAG) && s[1..][0] == TextItem(n.text) && s[1..][1..] == rest;
    } else {
      assert s[0] == Resolve(n.text, n.plain) && s[1..] == rest;
    }
  }

  lemma Regroup(x: Item, a: seq<Item>, y: Item, rest: seq<Item>)
    ensures ([x] + a + [y]) + rest == [x] + (a + ([y] + rest))
    ensures ([x] + (a + ([y] + rest)))[1..] == a + ([y] + rest)
  {
  }

  lemma {:induction false} ValueDecodes(n: Node, rest: seq<Item>, d: nat)
    requires Fine(n, d)
    ensures Convert(Items(n) + rest, d) == Wanted(Exactly(n), Denote(n), rest)
    decreases n
  {
    match n {
      case Leaf(_, _, _, _) => LeafDecodes(n, rest, d);
      case MapNode(ps, _, _) =>
        Regroup(MapItem, PairItems(ps), BreakItem, rest);
        PairsDecode(ps, rest, d + 1, map[]);
        assert map[] + Fields(ps) == Fields(ps);
      case SeqNode(es, _, _) =>
        Regroup(ArrayItem, ElemItems(es), BreakItem, rest);
        ElemsDecode(es, rest, d + 1, []);
        assert [] + Elements(es) == Elements(es);
    }
  }

  lemma {:induction false} PairsDecode(ps: seq<Pair>, rest: seq<Item>, d: nat, m: map<string, Value>)
    requires PairsFine(ps, d)
    ensures ConvertPairs(PairItems(ps) + ([BreakItem] + rest), d, m)
         == Wanted(PairsExactly(ps), Map(m + Fields(ps)), rest)
    decreases ps
  {
    if ps == [] {
      assert [] + ([BreakItem] + rest) == [BreakItem] + rest;
      assert ([BreakItem] + rest)[1..] == rest;
      assert m + map[] == m;
    } else {
      var pr, tail := ps[0], PairItems(ps[1..]) + ([BreakItem] + rest);
      PairSplits(ps, [BreakItem] + rest);
      ValueDecodes(pr.value, tail, d);
      if Exactly(pr.value) {
        var k := m[pr.key := Denote(pr.value)];
        PairsDecode(ps[1..], rest, d, k);
        assert k + Fields(ps[1..]) == m + Fields(ps);
      }
    }
  }

  lemma Cons(x: Item, a: seq<Item>, b: seq<Item>, z: seq<Item>)
    ensures var s := ([x] + a + b) + z; s != [] && s[0] == x && s[1..] == a + (b + z)
  {
  }

  lemma PairSplits(ps: seq<Pair>, z: seq<Item>)
    requires ps != []
    ensures var s := PairItems(ps) + z;
            s != [] && s[0] == TextItem(ps[0].key) && s[1..] == Items(ps[0].value) + (PairItems(ps[1..]) + z)
  {
    Cons(TextItem(ps[0].key), Items(ps[0].value), PairItems(ps[1..]), z);
  }

  lemma ElemSplits(es: seq<Node>, z: seq<Item>)
    requires es != []
    ensures ElemItems(es) + z == Items(es[0]) + (ElemItems(es[1..]) + z)
  {
  }

  /** No value starts with a break. */
  lemma ItemsStart(n: Node)
    ensures Items(n) != [] && !Items(n)[0].BreakItem?
  {
  }

  lemma {:induction false} ElemsDecode(es: seq<Node>, rest: seq<Item>, d: nat, a: seq<Value>)
    requires ElemsFine(es, d)
    ensures ConvertElems(ElemItems(es) + ([BreakItem] + rest), d, a)
         == Wanted(ElemsExactly(es), Array(a + Elements(es)), rest)
    decreases es
  {
    if es == [] {
      assert [] + ([BreakItem] + rest) == [BreakItem] + rest;
      assert ([BreakItem] + rest)[1..] == rest;
      assert a + [] == a;
    } else {
      var tail := ElemItems(es[1..]) + ([BreakItem] + rest);
      ElemSplits(es, [BreakItem] + rest);
      ItemsStart(es[0]);
      ValueDecodes(es[0], tail, d);
      if Exactly(es[0]) {
        ElemsDecode(es[1..], rest, d, a + [Denote(es[0])]);
        Joined(a, [Denote(es[0])], Elements(es[1..]));
      }
    }
  }

  /** Everything the transcoder accepts, the decoder accepts, except for integers
      beyond 2^53; and then it gives the value the document denotes, with nothing left over. */
  lemma EdgeRoundTrip(n: Node, m: Mark)
    requires Feed(FRESH, Document(n, m)).fault.None?
    ensures Convert(Feed(FRESH, Document(n, m)).items, 0) == Wanted(Exactly(n), Denote(n), [])
  {
    AcceptsExactly(n, m);
    DocumentRuns(n, m);
    ValueDecodes(n, [], 0);
    assert Items(n) + [] == Items(n);
  }

  /** The whole edge in place: transcode the events, then decode the items. None
      means the transcoder refused. */
  method Load(events: seq<Event>) returns (r: Option<Loaded>)
    ensures var k := Feed(FRESH, events);
            r == if k.fault.None? && k.haveRoot then Some(Just(Convert(k.items, 0))) else None
  {
    var t := new Transcoder();
    var ok := t.Encode(events);
    if !ok {
      return None;
    }
    var d := new Decoder(t.items);
    assert d.Left() == t.items;
    var v := d.ConvertValue(0);
    r := Some(v);
  }

  /** Loading a stream gives its document's value, or says why not: it is not one
      supported document, or an integer is beyond 2^53. */
  method LoadStream(ds: seq<RawDocument>) returns (r: Option<Loaded>)
    ensures r == if !StreamSupported(ds) then None
                 else if Exactly(Tree(ds[0].root)) then Some(Loaded(Denote(Tree(ds[0].root))))
                 else Some(Failed(BeyondExact))
  {
    StreamExactly(ds);
    if StreamSupported(ds) {
      var n := Tree(ds[0].root);
      SupportedIsTree(ds[0].root, 0);
      ValueDecodes(n, [], 0);
      assert Items(n) + [] == Items(n);
    }
    r := Load(StreamEvents(ds));
  }
}
