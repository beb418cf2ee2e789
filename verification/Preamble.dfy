/** The environment a script gets on its standard input: lines of name=value with
backslashes and newlines escaped, then an empty line. The writer is proved
against the shell loop that reads it back. */
module Preamble {
  import Pointer

  const NUL: char := 0 as char

  datatype Var = Var(name: string, value: string)

  // ---- names ----

  predicate Letter(c: char) {
    'A' <= c <= 'Z' || 'a' <= c <= 'z' || c == '_'
  }

  predicate NameOk(s: string) {
    s != "" && Letter(s[0]) && forall i :: 0 < i < |s| ==> Letter(s[i]) || '0' <= s[i] <= '9'
  }

  /** A name is accepted if and only if it is one of the shell's: not empty, made of
      letters, digits and underscores, and not starting with a digit. */
  lemma NamesExactly(s: string)
    ensures NameOk(s) <==>
            && s != "" && !('0' <= s[0] <= '9')
            && forall i :: 0 <= i < |s| ==>
                 'A' <= s[i] <= 'Z' || 'a' <= s[i] <= 'z' || '0' <= s[i] <= '9' || s[i] == '_'
  {
  }

  method CheckName(s: string) returns (ok: bool)
    ensures ok <==> NameOk(s)
  {
    if s == "" || !Letter(s[0]) {
      return false;
    }
    for i := 1 to |s|
      invariant forall k :: 0 < k < i ==> Letter(s[k]) || '0' <= s[k] <= '9'
    {
      if !(Letter(s[i]) || '0' <= s[i] <= '9') {
        return false;
      }
    }
    return true;
  }

  // ---- what is written ----

  function EscChar(c: char): string {
    if c == '\\' then "\\\\" else if c == '\n' then "\\n" else [c]
  }

  function Esc(v: string): string {
    if v == "" then "" else EscChar(v[0]) + Esc(v[1..])
  }

  function Line(v: Var): string {
    v.name + "=" + Esc(v.value) + "\n"
  }

  function Lines(vs: seq<Var>): string {
    if vs == [] then "" else Line(vs[0]) + Lines(vs[1..])
  }

  function Text(vs: seq<Var>): string {
    Lines(vs) + "\n"
  }

  // ---- how the shell reads it ----

  /** The first position of c in s, or the length of s. */
  function First(s: string, c: char): (i: nat)
    ensures i <= |s| && (i < |s| ==> s[i] == c)
  {
    if s == "" || s[0] == c then 0 else 1 + First(s[1..], c)
  }

  predicate Octal(c: char) {
    '0' <= c <= '7'
  }

  /** Up to n octal digits at the front of s. */
  function OctalRun(s: string, n: nat): (k: nat)
    ensures k <= |s|
  {
    if n == 0 || s == "" || !Octal(s[0]) then 0 else 1 + OctalRun(s[1..], n - 1)
  }

  function OctalValue(s: string, k: nat): nat
    requires k <= |s|
  {
    if k == 0 then 0
    else 8 * OctalValue(s, k - 1) + (if Octal(s[k - 1]) then s[k - 1] as int - '0' as int else 0)
  }

  /** The one-letter escapes of the printf utility's %b. */
  function Simple(c: char): string {
    match c
    case '\\' => "\\"
    case 'a' => [7 as char]
    case 'b' => [8 as char]
    case 'f' => [12 as char]
    case 'n' => "\n"
    case 'r' => "\r"
    case 't' => "\t"
    case 'v' => [11 as char]
    case _ => ['\\', c]
  }

  datatype Printed = Printed(text: string, stopped: bool)

  function Before(t: string, p: Printed): Printed {
    Printed(t + p.text, p.stopped)
  }

  /** What %b prints of s, and whether \c stopped all further output. */
  function PercentB(s: string): Printed
    decreases |s|
  {
    if s == "" then Printed("", false)
    else if s[0] != '\\' || |s| == 1 then Before([s[0]], PercentB(s[1..]))
    else if s[1] == 'c' then Printed("", true)
    else if s[1] == '0' then
      var k := OctalRun(s[2..], 3);
      Before([(OctalValue(s[2..], k) % 256) as char], PercentB(s[2..][k..]))
    else Before(Simple(s[1]), PercentB(s[2..]))
  }

  function DropNul(s: string): string {
    if s == "" then "" else (if s[0] == NUL then "" else [s[0]]) + DropNul(s[1..])
  }

  function TrimNewlines(s: string): string {
    if s != "" && s[|s| - 1] == '\n' then TrimNewlines(s[..|s| - 1]) else s
  }

  /** $(printf '%b.' s): the output without NULs and without its trailing newlines. */
  function Substituted(s: string): string {
    var p := PercentB(s);
    TrimNewlines(DropNul(if p.stopped then p.text else p.text + "."))
  }

  /** ${v%.} */
  function WithoutDot(s: string): string {
    if s != "" && s[|s| - 1] == '.' then s[..|s| - 1] else s
  }

  /** ${l%%=*} and ${l#*=}, both of them the whole line when it has no "=". */
  function NamePart(l: string): string {
    l[..First(l, '=')]
  }

  function ValuePart(l: string): string {
    var i := First(l, '=');
    if i < |l| then l[i + 1..] else l
  }

  function Decoded(l: string): Var {
    Var(NamePart(l), WithoutDot(Substituted(ValuePart(l))))
  }

  datatype Taken = Taken(vars: seq<Var>, rest: string)

  /** The reading loop: lines up to the first empty one, and what is left of the
      input. A last line with no newline ends the loop unused. */
  function Read(s: string): Taken
    decreases |s|
  {
    var e := First(s, '\n');
    if e == |s| then Taken([], "")
    else if e == 0 then Taken([], s[1..])
    else
      var t := Read(s[e + 1..]);
      Taken([Decoded(s[..e])] + t.vars, t.rest)
  }

  // ---- reading back ----

  lemma {:induction false} FirstIs(a: string, c: char, b: string)
    requires c !in a
    ensures First(a + [c] + b, c) == |a|
  {
    if a != "" {
      assert (a + [c] + b)[1..] == a[1..] + [c] + b;
      FirstIs(a[1..], c, b);
    }
  }

  lemma {:induction false} EscHasNoNewline(v: string)
    ensures '\n' !in Esc(v)
  {
    if v != "" {
      EscHasNoNewline(v[1..]);
    }
  }

  /** Escaping doubles the backslashes, writes a newline as "\\n", and changes nothing else. */
  lemma {:induction false} EscIsReplacement(v: string)
    ensures Esc(v) == Pointer.Expand(Pointer.Expand(v, '\\', "\\\\"), '\n', "\\n")
  {
    if v != "" {
      EscIsReplacement(v[1..]);
      var head := if v[0] == '\\' then "\\\\" else [v[0]];
      Pointer.ExpandJoins(head, Pointer.Expand(v[1..], '\\', "\\\\"), '\n', "\\n");
      assert "\\\\"[1..] == "\\" && "\\"[1..] == "" && [v[0]][1..] == "";
    }
  }

  /** %b undoes the escaping. */
  lemma {:induction false} PercentBInverts(v: string)
    ensures PercentB(Esc(v)) == Printed(v, false)
  {
    if v != "" {
      PercentBInverts(v[1..]);
      var s, rest := Esc(v), Esc(v[1..]);
      if v[0] == '\\' || v[0] == '\n' {
        assert s[0] == '\\' && |s| > 1 && s[2..] == rest;
        assert Simple(s[1]) == [v[0]];
      } else {
        assert s[0] == v[0] && s[1..] == rest;
      }
    }
  }

  lemma {:induction false} DropNulKeeps(s: string)
    requires NUL !in s
    ensures DropNul(s) == s
  {
    if s != "" {
      DropNulKeeps(s[1..]);
    }
  }

  /** The trailing dot keeps a value's own trailing newlines and dots. */
  lemma ValueComesBack(v: string)
    requires NUL !in v
    ensures WithoutDot(Substituted(Esc(v))) == v
  {
    PercentBInverts(v);
    DropNulKeeps(v + ".");
  }

  lemma NameIsPlain(s: string)
    requires NameOk(s)
    ensures '=' !in s && '\n' !in s
  {
    forall i | 0 <= i < |s| ensures s[i] != '=' && s[i] != '\n' {
    }
  }

  predicate VarOk(v: Var) {
    NameOk(v.name) && NUL !in v.value
  }

  lemma LineDecodes(v: Var)
    requires VarOk(v)
    ensures Decoded(v.name + "=" + Esc(v.value)) == v
  {
    var l := v.name + "=" + Esc(v.value);
    NameIsPlain(v.name);
    FirstIs(v.name, '=', Esc(v.value));
    assert l[..|v.name|] == v.name && l[|v.name| + 1..] == Esc(v.value);
    ValueComesBack(v.value);
  }

  lemma ReadLine(v: Var, rest: string)
    requires VarOk(v)
    ensures Read(Line(v) + rest) == Taken([v] + Read(rest).vars, Read(rest).rest)
  {
    var l := v.name + "=" + Esc(v.value);
    var s := Line(v) + rest;
    NameIsPlain(v.name);
    EscHasNoNewline(v.value);
    assert s == l + ['\n'] + rest;
    FirstIs(l, '\n', rest);
    assert s[..|l|] == l && s[|l| + 1..] == rest;
    LineDecodes(v);
  }

  /** Reading what was written gives exactly the variables, in order, and leaves
      the bytes that follow untouched. */
  lemma {:induction false} ReadBack(vs: seq<Var>, stdin: string)
    requires forall i :: 0 <= i < |vs| ==> VarOk(vs[i])
    ensures Read(Text(vs) + stdin) == Taken(vs, stdin)
  {
    if vs == [] {
      EmptyLineEnds(stdin);
      assert Text(vs) + stdin == ['\n'] + stdin;
    } else {
      ReadBack(vs[1..], stdin);
      TextSplits(vs, stdin);
      ReadNext(vs[0], vs[1..], Text(vs[1..]) + stdin, stdin);
      assert [vs[0]] + vs[1..] == vs;
    }
  }

  lemma EmptyLineEnds(stdin: string)
    ensures Read(['\n'] + stdin) == Taken([], stdin)
  {
    assert (['\n'] + stdin)[1..] == stdin;
  }

  lemma ReadNext(v: Var, vs: seq<Var>, rest: string, stdin: string)
    requires VarOk(v) && Read(rest) == Taken(vs, stdin)
    ensures Read(Line(v) + rest) == Taken([v] + vs, stdin)
  {
    ReadLine(v, rest);
  }

  lemma TextSplits(vs: seq<Var>, stdin: string)
    requires vs != []
    ensures Text(vs) + stdin == Line(vs[0]) + (Text(vs[1..]) + stdin)
  {
    LinesSplit(Line(vs[0]), Lines(vs[1..]), stdin);
  }

  lemma LinesSplit(a: string, b: string, c: string)
    ensures ((a + b) + "\n") + c == a + ((b + "\n") + c)
  {
  }

  // ---- the environment the script starts with ----

  /** The loop's own variables, unset when it is done. */
  const WORK := {"qwe_l", "qwe_v"}

  function Exports(vs: seq<Var>): map<string, string> {
    if vs == [] then map[] else Exports(vs[..|vs| - 1])[vs[|vs| - 1].name := vs[|vs| - 1].value]
  }

  /** The environment after the whole loop, from an inherited one. */
  function Environment(s: string, inherited: map<string, string>): map<string, string> {
    (inherited + Exports(Read(s).vars)) - WORK
  }

  lemma {:induction false} ExportsHoldTheLast(vs: seq<Var>, i: nat)
    requires i < |vs| && forall j :: i < j < |vs| ==> vs[j].name != vs[i].name
    ensures vs[i].name in Exports(vs) && Exports(vs)[vs[i].name] == vs[i].value
  {
    if i < |vs| - 1 {
      ExportsHoldTheLast(vs[..|vs| - 1], i);
    }
  }

  /** A variable reaches the script, with its last value, exactly when it is not
      named like one of the loop's own. */
  lemma ReachesTheScript(vs: seq<Var>, stdin: string, inherited: map<string, string>, i: nat)
    requires forall k :: 0 <= k < |vs| ==> VarOk(vs[k])
    requires i < |vs| && forall j :: i < j < |vs| ==> vs[j].name != vs[i].name
    ensures var env := Environment(Text(vs) + stdin, inherited);
            (vs[i].name in env && env[vs[i].name] == vs[i].value) <==> vs[i].name !in WORK
  {
    ReadBack(vs, stdin);
    ExportsHoldTheLast(vs, i);
  }

  lemma ReservedNameIsLost()
    ensures VarOk(Var("qwe_l", "x"))
    ensures "qwe_l" !in Environment(Text([Var("qwe_l", "x")]), map[])
  {
    var v := Var("qwe_l", "x");
    assert NUL != 'x';
    assert VarOk(v);
  }

  // ---- the writer ----

  function Zip(names: seq<string>, values: seq<string>): (vs: seq<Var>)
    requires |names| == |values|
    ensures |vs| == |names| && forall i :: 0 <= i < |vs| ==> vs[i] == Var(names[i], values[i])
  {
    seq(|names|, i requires 0 <= i < |names| => Var(names[i], values[i]))
  }

  lemma {:induction false} EscJoins(a: string, c: char)
    ensures Esc(a + [c]) == Esc(a) + EscChar(c)
  {
    if a == "" {
      assert a + [c] == [c];
      assert EscChar(c) + "" == "" + EscChar(c);
    } else {
      assert (a + [c])[1..] == a[1..] + [c];
      EscJoins(a[1..], c);
    }
  }

  lemma {:induction false} LinesJoin(vs: seq<Var>, v: Var)
    ensures Lines(vs + [v]) == Lines(vs) + Line(v)
  {
    if vs == [] {
      assert vs + [v] == [v];
    } else {
      assert (vs + [v])[1..] == vs[1..] + [v];
      LinesJoin(vs[1..], v);
    }
  }

  lemma LinesGrow(vs: seq<Var>, i: nat)
    requires i < |vs|
    ensures Lines(vs[..i + 1]) == Lines(vs[..i]) + Line(vs[i])
    ensures |Line(vs[i])| == |vs[i].name| + 2 + |Esc(vs[i].value)|
  {
    assert vs[..i + 1] == vs[..i] + [vs[i]];
    LinesJoin(vs[..i], vs[i]);
  }

  lemma {:induction false} LinesOnlyGrow(vs: seq<Var>, i: nat)
    requires i <= |vs|
    ensures |Lines(vs[..i])| <= |Lines(vs)|
    decreases |vs| - i
  {
    if i == |vs| {
      assert vs[..i] == vs;
    } else {
      LinesGrow(vs, i);
      LinesOnlyGrow(vs, i + 1);
    }
  }

  /** The room one escaped value needs. */
  method CountValue(v: string) returns (n: nat)
    ensures n == |Esc(v)|
  {
    n := 0;
    for i := 0 to |v|
      invariant n == |Esc(v[..i])|
    {
      assert v[..i + 1] == v[..i] + [v[i]];
      EscJoins(v[..i], v[i]);
      n := n + if v[i] == '\\' || v[i] == '\n' then 2 else 1;
    }
    assert v[..|v|] == v;
  }

  /** The counting loop: the room everything needs, or the first bad name. */
  method Count(names: seq<string>, values: seq<string>) returns (cap: nat, bad: nat)
    requires |names| == |values|
    ensures bad <= |names| && (forall i :: 0 <= i < bad ==> NameOk(names[i]))
    ensures bad < |names| ==> !NameOk(names[bad])
    ensures bad == |names| ==> cap == |Text(Zip(names, values))|
  {
    cap, bad := 1, 0;
    ghost var vs := Zip(names, values);
    while bad < |names|
      invariant bad <= |names| && forall i :: 0 <= i < bad ==> NameOk(names[i])
      invariant cap == 1 + |Lines(vs[..bad])|
    {
      var ok := CheckName(names[bad]);
      if !ok {
        return;
      }
      var n := CountValue(values[bad]);
      LinesGrow(vs, bad);
      cap := cap + |names[bad]| + 2 + n;
      bad := bad + 1;
    }
    assert vs[..bad] == vs;
  }

  /** Copies s and a terminator to position o, and says where the copy ends. */
  method Put(buf: array<char>, o: nat, s: string) returns (end: nat)
    requires o + |s| < buf.Length
    modifies buf
    ensures end == o + |s| && buf[..end] == old(buf[..o]) + s
  {
    for i := 0 to |s|
      invariant buf[..o + i] == old(buf[..o]) + s[..i]
    {
      buf[o + i] := s[i];
      assert buf[..o + i + 1] == buf[..o + i] + [s[i]];
    }
    end := o + |s|;
    buf[end] := NUL;
    assert s[..|s|] == s;
  }

  method PutChar(buf: array<char>, o: nat, c: char)
    requires o < buf.Length
    modifies buf
    ensures buf[..o + 1] == old(buf[..o]) + [c]
  {
    buf[o] := c;
  }

  method PutEscaped(buf: array<char>, o: nat, c: char) returns (end: nat)
    requires o + |EscChar(c)| <= buf.Length
    modifies buf
    ensures end == o + |EscChar(c)| && buf[..end] == old(buf[..o]) + EscChar(c)
  {
    if c == '\\' {
      PutChar(buf, o, '\\');
      PutChar(buf, o + 1, '\\');
      end := o + 2;
    } else if c == '\n' {
      PutChar(buf, o, '\\');
      PutChar(buf, o + 1, 'n');
      end := o + 2;
    } else {
      PutChar(buf, o, c);
      end := o + 1;
    }
  }

  lemma EscOnlyGrows(v: string, i: nat)
    requires i < |v|
    ensures Esc(v[..i + 1]) == Esc(v[..i]) + EscChar(v[i]) && |Esc(v[..i + 1])| <= |Esc(v)|
    decreases |v| - i
  {
    assert v[..i + 1] == v[..i] + [v[i]];
    EscJoins(v[..i], v[i]);
    if i + 1 < |v| {
      EscOnlyGrows(v, i + 1);
    } else {
      assert v[..i + 1] == v;
    }
  }

  method PutValue(buf: array<char>, o: nat, v: string) returns (end: nat)
    requires o + |Esc(v)| <= buf.Length
    modifies buf
    ensures end == o + |Esc(v)| && buf[..end] == old(buf[..o]) + Esc(v)
  {
    end := o;
    for i := 0 to |v|
      invariant end == o + |Esc(v[..i])| <= buf.Length && buf[..end] == old(buf[..o]) + Esc(v[..i])
    {
      EscOnlyGrows(v, i);
      end := PutEscaped(buf, end, v[i]);
    }
    assert v[..|v|] == v;
  }

  method PutLine(buf: array<char>, o: nat, v: Var) returns (end: nat)
    requires o + |Line(v)| < buf.Length
    modifies buf
    ensures end == o + |Line(v)| && buf[..end] == old(buf[..o]) + Line(v)
  {
    end := Put(buf, o, v.name);
    PutChar(buf, end, '=');
    end := PutValue(buf, end + 1, v.value);
    PutChar(buf, end, '\n');
    end := end + 1;
  }

  datatype Built = BadName(index: nat) | Built(text: string)

  /** The writer fills exactly the room it counted, with the text of the variables,
      or names the first bad name and writes nothing. */
  method Build(names: seq<string>, values: seq<string>) returns (r: Built)
    requires |names| == |values|
    ensures r.Built? <==> forall i :: 0 <= i < |names| ==> NameOk(names[i])
    ensures r.Built? ==> r.text == Text(Zip(names, values))
    ensures r.BadName? ==> r.index < |names| && !NameOk(names[r.index])
                           && forall i :: 0 <= i < r.index ==> NameOk(names[i])
  {
    var cap, bad := Count(names, values);
    if bad < |names| {
      return BadName(bad);
    }
    ghost var vs := Zip(names, values);
    var buf := new char[cap + 1](_ => NUL);
    var o := 0;
    for i := 0 to |names|
      invariant o == |Lines(vs[..i])| && o < buf.Length && buf[..o] == Lines(vs[..i])
    {
      LinesGrow(vs, i);
      LinesOnlyGrow(vs, i + 1);
      o := PutLine(buf, o, Var(names[i], values[i]));
    }
    assert vs[..|names|] == vs;
    PutChar(buf, o, '\n');
    assert o + 1 == cap;
    r := Built(buf[..o + 1]);
  }
}
