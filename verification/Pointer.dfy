/** JSON Pointers (RFC 6901): reference tokens are escaped as sections 3 and 4 say. */
module Pointer {
  /** "~" is "~0" and "/" is "~1". */
  function Escape(key: string): string {
    if key == "" then "" else EscapeChar(key[0]) + Escape(key[1..])
  }

  function EscapeChar(c: char): string {
    if c == '~' then "~0" else if c == '/' then "~1" else [c]
  }

  /** How long the next character or escape of a token is, and what it stands for. */
  function NextLen(tok: string): (n: nat)
    requires tok != ""
    ensures 1 <= n <= |tok|
  {
    if tok[0] == '~' && |tok| > 1 && (tok[1] == '1' || tok[1] == '0') then 2 else 1
  }

  function NextChar(tok: string): char
    requires tok != ""
  {
    if NextLen(tok) == 2 then (if tok[1] == '1' then '/' else '~') else tok[0]
  }

  function Unescape(tok: string): string
    decreases |tok|
  {
    if tok == "" then "" else [NextChar(tok)] + Unescape(tok[NextLen(tok)..])
  }

  lemma {:induction false} UnescapeInverts(key: string)
    ensures Unescape(Escape(key)) == key
  {
    if key != "" {
      UnescapeInverts(key[1..]);
      var rest := Escape(key[1..]);
      if key[0] == '~' {
        assert Escape(key)[2..] == rest && Escape(key)[0] == '~' && Escape(key)[1] == '0';
      } else if key[0] == '/' {
        assert Escape(key)[2..] == rest && Escape(key)[0] == '~' && Escape(key)[1] == '1';
      } else {
        assert Escape(key)[1..] == rest && Escape(key)[0] == key[0];
      }
    }
  }

  lemma {:induction false} EscapedHasNoSlash(key: string)
    ensures '/' !in Escape(key)
  {
    if key != "" {
      EscapedHasNoSlash(key[1..]);
    }
  }

  lemma EscapeIsInjective(a: string, b: string)
    requires Escape(a) == Escape(b)
    ensures a == b
  {
    UnescapeInverts(a);
    UnescapeInverts(b);
  }

  // ---- as sections 3 and 4 of RFC 6901 say it ----

  /** s with every c written as t. */
  function Expand(s: string, c: char, t: string): string {
    if s == "" then "" else (if s[0] == c then t else [s[0]]) + Expand(s[1..], c, t)
  }

  /** s with every a b, from the left, read as c. */
  function Contract(s: string, a: char, b: char, c: char): string
    decreases |s|
  {
    if s == "" then ""
    else if |s| > 1 && s[0] == a && s[1] == b then [c] + Contract(s[2..], a, b, c)
    else [s[0]] + Contract(s[1..], a, b, c)
  }

  /** Escaping writes "~" as "~0", and then "/" as "~1". */
  lemma {:induction false} EscapeIsStandard(key: string)
    ensures Escape(key) == Expand(Expand(key, '~', "~0"), '/', "~1")
  {
    if key != "" {
      EscapeIsStandard(key[1..]);
      var head := if key[0] == '~' then "~0" else [key[0]];
      ExpandJoins(head, Expand(key[1..], '~', "~0"), '/', "~1");
      ExpandHead(key[0]);
    }
  }

  lemma {:induction false} ExpandJoins(a: string, b: string, c: char, t: string)
    ensures Expand(a + b, c, t) == Expand(a, c, t) + Expand(b, c, t)
  {
    if a == "" {
      assert a + b == b;
    } else {
      assert (a + b)[1..] == a[1..] + b;
      ExpandJoins(a[1..], b, c, t);
    }
  }

  lemma ExpandHead(c: char)
    ensures Expand(if c == '~' then "~0" else [c], '/', "~1") == EscapeChar(c)
  {
    assert "~0"[1..] == "0" && "0"[1..] == "" && [c][1..] == "";
  }

  /** Unescaping reads every "~1" as "/", and only then every "~0" as "~". */
  lemma {:induction false} UnescapeIsStandard(tok: string)
    ensures Unescape(tok) == Contract(Contract(tok, '~', '1', '/'), '~', '0', '~')
    decreases |tok|
  {
    if tok != "" {
      UnescapeIsStandard(tok[NextLen(tok)..]);
      if NextLen(tok) == 2 {
        if tok[1] == '1' { SlashFirst(tok); } else { TildeFirst(tok); }
      } else {
        PlainFirst(tok);
      }
    }
  }

  lemma SlashFirst(tok: string)
    requires |tok| > 1 && tok[0] == '~' && tok[1] == '1'
    ensures Contract(Contract(tok, '~', '1', '/'), '~', '0', '~')
         == "/" + Contract(Contract(tok[2..], '~', '1', '/'), '~', '0', '~')
  {
    var x := Contract(tok[2..], '~', '1', '/');
    assert ("/" + x)[1..] == x;
  }

  lemma TildeFirst(tok: string)
    requires |tok| > 1 && tok[0] == '~' && tok[1] == '0'
    ensures Contract(Contract(tok, '~', '1', '/'), '~', '0', '~')
         == "~" + Contract(Contract(tok[2..], '~', '1', '/'), '~', '0', '~')
  {
    var x := Contract(tok[2..], '~', '1', '/');
    assert tok[1..][1..] == tok[2..];
    assert Contract(tok[1..], '~', '1', '/') == "0" + x;
    var y := "~" + ("0" + x);
    assert y[0] == '~' && y[1] == '0' && y[2..] == x;
  }

  lemma PlainFirst(tok: string)
    requires tok != "" && NextLen(tok) == 1
    ensures Contract(Contract(tok, '~', '1', '/'), '~', '0', '~')
         == [tok[0]] + Contract(Contract(tok[1..], '~', '1', '/'), '~', '0', '~')
  {
    var x := Contract(tok[1..], '~', '1', '/');
    assert ([tok[0]] + x)[1..] == x;
    assert tok[0] == '~' && x != "" ==> ([tok[0]] + x)[1] == x[0] && x[0] != '0';
  }

  /** Where the last slash is, or -1. */
  function LastSlash(p: string): (i: int)
    ensures -1 <= i < |p|
    ensures i >= 0 ==> p[i] == '/'
    ensures forall k :: i < k < |p| ==> p[k] != '/'
  {
    var n := |p| - 1;
    if n < 0 || p[n] == '/' then n else LastSlash(p[..n])
  }

  lemma LastSlashIs(p: string, i: int)
    requires 0 <= i < |p| && p[i] == '/' && '/' !in p[i + 1..]
    ensures LastSlash(p) == i
  {
    forall k | i < k < |p| ensures p[k] != '/' {
      assert p[k] == p[i + 1..][k - i - 1];
    }
  }

  /** The child of p under one key. */
  function Child(p: string, key: string): string {
    p + "/" + Escape(key)
  }

  lemma UnescapeSteps(tok: string, i: nat, key: string)
    requires i < |tok| && key + Unescape(tok[i..]) == Unescape(tok)
    ensures var n := NextLen(tok[i..]); (key + [NextChar(tok[i..])]) + Unescape(tok[i + n..]) == Unescape(tok)
  {
    var c, n := NextChar(tok[i..]), NextLen(tok[i..]);
    assert tok[i..][n..] == tok[i + n..];
    Joined(key, [c], Unescape(tok[i + n..]));
  }

  lemma Joined(a: string, b: string, c: string)
    ensures (a + b) + c == a + (b + c)
  {
  }

  method ReadNext(tok: string, i: nat) returns (c: char, n: nat)
    requires i < |tok|
    ensures c == NextChar(tok[i..]) && n == NextLen(tok[i..])
  {
    if tok[i] == '~' && i + 1 < |tok| && tok[i + 1] == '1' {
      return '/', 2;
    } else if tok[i] == '~' && i + 1 < |tok| && tok[i + 1] == '0' {
      return '~', 2;
    }
    return tok[i], 1;
  }

  method UnescapeToken(tok: string) returns (key: string)
    ensures key == Unescape(tok)
  {
    key := "";
    var i := 0;
    assert tok[0..] == tok;
    while i < |tok|
      invariant 0 <= i <= |tok| && key + Unescape(tok[i..]) == Unescape(tok)
    {
      UnescapeSteps(tok, i, key);
      var c, n := ReadNext(tok, i);
      key := key + [c];
      i := i + n;
    }
  }

  /** The last token of a pointer, unescaped: the text after the last slash. */
  method LastToken(p: string) returns (key: string)
    ensures key == Unescape(p[LastSlash(p) + 1..])
  {
    key := UnescapeToken(p[LastSlash(p) + 1..]);
  }

  /** Escaping a key under any parent and taking the last token gives the key back. */
  lemma LastTokenOfChild(p: string, key: string)
    ensures Unescape(Child(p, key)[LastSlash(Child(p, key)) + 1..]) == key
    ensures LastSlash(Child(p, key)) >= 0 && Child(p, key)[..LastSlash(Child(p, key))] == p
  {
    var c := Child(p, key);
    EscapedHasNoSlash(key);
    assert c[|p|] == '/' && c[|p| + 1..] == Escape(key) && c[..|p|] == p;
    LastSlashIs(c, |p|);
    UnescapeInverts(key);
  }

  lemma EscapeSteps(s: string, i: nat, out: string)
    requires i < |s| && out + Escape(s[i..]) == Escape(s)
    ensures (out + EscapeChar(s[i])) + Escape(s[i + 1..]) == Escape(s)
  {
    assert s[i..][0] == s[i] && s[i..][1..] == s[i + 1..];
    Joined(out, EscapeChar(s[i]), Escape(s[i + 1..]));
  }

  /** The escape loop of the validator. */
  method EscapeToken(s: string) returns (out: string)
    ensures out == Escape(s)
  {
    out := "";
    assert s[0..] == s;
    for i := 0 to |s|
      invariant out + Escape(s[i..]) == Escape(s)
    {
      EscapeSteps(s, i, out);
      if s[i] == '~' {
        out := out + "~0";
      } else if s[i] == '/' {
        out := out + "~1";
      } else {
        out := out + [s[i]];
      }
    }
    assert s[|s|..] == "";
  }
}
