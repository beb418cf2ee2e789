/** Which plain scalars are integers or floats, by the YAML core rules. */
module Scalars {
  predicate Digit(c: char) {
    '0' <= c <= '9'
  }

  predicate Digits(s: string) {
    forall i :: 0 <= i < |s| ==> Digit(s[i])
  }

  predicate SignText(s: string) {
    s == "" || s == "-" || s == "+"
  }

  // ---- integers ----

  function SignLen(s: string): (n: nat)
    ensures n <= |s|
  {
    if |s| > 0 && (s[0] == '-' || s[0] == '+') then 1 else 0
  }

  /** An optional sign and one to eighteen digits. */
  predicate IntForm(s: string) {
    var d := s[SignLen(s)..];
    0 < |d| <= 18 && Digits(d)
  }

  function DigitValue(c: char): nat
    requires Digit(c)
  {
    c as int - '0' as int
  }

  function NatValue(d: string): nat
    requires Digits(d)
  {
    if d == "" then 0 else 10 * NatValue(d[..|d| - 1]) + DigitValue(d[|d| - 1])
  }

  /** The number an integer scalar stands for. */
  function IntValue(s: string): int
    requires IntForm(s)
  {
    var v: int := NatValue(s[SignLen(s)..]);
    if s[0] == '-' then -v else v
  }

  function Decimal(n: nat): string {
    (if n < 10 then "" else Decimal(n / 10)) + [(48 + n % 10) as char]
  }

  /** The decimal form reads as the number, and has no needless zero in front. */
  lemma {:induction false} DecimalReads(n: nat)
    ensures Decimal(n) != "" && Digits(Decimal(n)) && NatValue(Decimal(n)) == n
    ensures n > 0 ==> Decimal(n)[0] != '0'
  {
    var d := Decimal(n);
    if n >= 10 {
      DecimalReads(n / 10);
      assert d[..|d| - 1] == Decimal(n / 10) && d[0] == Decimal(n / 10)[0];
    } else {
      assert d[..|d| - 1] == "";
    }
  }

  // ---- which texts are integers, and which ones ----

  /** Exactly an optional sign and one to eighteen digits. */
  lemma IntFormIsGrammar(s: string)
    ensures IntForm(s) <==> exists sign, d :: SignText(sign) && 0 < |d| <= 18 && Digits(d) && s == sign + d
  {
    if IntForm(s) {
      var k := SignLen(s);
      assert s == s[..k] + s[k..] && SignText(s[..k]);
    }
    forall sign, d | SignText(sign) && 0 < |d| <= 18 && Digits(d) && s == sign + d ensures IntForm(s) {
      SignThenDigits(sign, d);
    }
  }

  lemma SignThenDigits(sign: string, d: string)
    requires SignText(sign) && d != "" && Digits(d)
    ensures SignLen(sign + d) == |sign| && (sign + d)[|sign|..] == d
  {
    assert Digit(d[0]);
    assert (sign + d)[0] == if sign == "" then d[0] else sign[0];
  }

  function Zeros(k: nat): (z: string)
    ensures |z| == k && Digits(z)
  {
    seq(k, _ => '0')
  }

  /** Leading zeros change nothing. */
  lemma {:induction false} ZerosCountNothing(k: nat, d: string)
    requires Digits(d)
    ensures Digits(Zeros(k) + d) && NatValue(Zeros(k) + d) == NatValue(d)
  {
    var s := Zeros(k) + d;
    if d != "" {
      var e := d[..|d| - 1];
      ZerosCountNothing(k, e);
      assert s[..|s| - 1] == Zeros(k) + e && s[|s| - 1] == d[|d| - 1];
    } else if k > 0 {
      ZerosCountNothing(k - 1, "");
      assert s[..|s| - 1] == Zeros(k - 1) + "" && s[|s| - 1] == '0';
    }
  }

  /** A decimal number with a sign and leading zeros is that number: with a minus, its negative. */
  lemma IntegersMean(sign: string, k: nat, n: nat)
    requires SignText(sign) && k + |Decimal(n)| <= 18
    ensures var s, v: int := sign + (Zeros(k) + Decimal(n)), n;
            IntForm(s) && IntValue(s) == if sign == "-" then -v else v
  {
    var d := Zeros(k) + Decimal(n);
    DecimalReads(n);
    ZerosCountNothing(k, Decimal(n));
    SignThenDigits(sign, d);
    assert (sign + d)[0] == if sign == "" then d[0] else sign[0];
    assert Digit(d[0]);
  }

  /** The sign decides between a number and its negative, and nothing else. */
  lemma SignsMean(d: string)
    requires Digits(d) && 0 < |d| <= 18
    ensures IntForm(d) && IntForm("-" + d) && IntForm("+" + d)
    ensures IntValue("-" + d) == -IntValue(d) && IntValue("+" + d) == IntValue(d) && IntValue(d) >= 0
  {
    SignThenDigits("", d);
    SignThenDigits("-", d);
    SignThenDigits("+", d);
    assert "" + d == d && Digit(d[0]);
  }

  /** Every digit string is a decimal number with leading zeros. */
  lemma {:induction false} EveryNumberIsDecimal(d: string) returns (k: nat, n: nat)
    requires Digits(d) && d != ""
    ensures d == Zeros(k) + Decimal(n) && NatValue(d) == n
  {
    var last := d[|d| - 1];
    var e := d[..|d| - 1];
    n := NatValue(d);
    DigitComesBack(last);
    if |d| == 1 {
      k := 0;
      assert d == [last] && NatValue(e) == 0 && n == DigitValue(last);
      assert Decimal(n) == [last];
      assert Zeros(0) + Decimal(n) == Decimal(n);
    } else {
      var m;
      k, m := EveryNumberIsDecimal(e);
      assert d == e + [last] && NatValue(e) == m && n == 10 * m + DigitValue(last);
      if m == 0 {
        k := k + 1;
        ZeroThenDigit(e, k, last);
      } else {
        assert n / 10 == m && n % 10 == DigitValue(last);
        assert Decimal(n) == Decimal(m) + [last];
        assert Zeros(k) + (Decimal(m) + [last]) == (Zeros(k) + Decimal(m)) + [last];
      }
    }
  }

  lemma DigitComesBack(c: char)
    requires Digit(c)
    ensures DigitValue(c) < 10 && (48 + DigitValue(c)) as char == c
  {
    assert '0' as int == 48;
  }

  lemma ZeroThenDigit(e: string, k: nat, last: char)
    requires k > 0 && e == Zeros(k - 1) + Decimal(0) && Digit(last)
    ensures e + [last] == Zeros(k) + Decimal(DigitValue(last))
  {
    assert Decimal(0) == ['0'] by { assert '0' as int == 48; }
    DigitComesBack(last);
    assert Decimal(DigitValue(last)) == [last];
    assert Zeros(k) == Zeros(k - 1) + ['0'];
  }

  method IsInt(s: string) returns (yes: bool)
    ensures yes <==> IntForm(s)
  {
    var i := 0;
    if |s| > 0 && (s[0] == '-' || s[0] == '+') {
      i := 1;
    }
    if i == |s| || |s| - i > 18 {
      return false;
    }
    ghost var d := s[SignLen(s)..];
    while i < |s|
      invariant SignLen(s) <= i <= |s| && forall k :: 0 <= k < i - SignLen(s) ==> Digit(d[k])
    {
      if s[i] < '0' || s[i] > '9' {
        assert d[i - SignLen(s)] == s[i];
        return false;
      }
      i := i + 1;
    }
    return true;
  }

  // ---- floats ----

  /** A float by the YAML core schema, part by part: sign, digits before the point,
      the point and what follows, the exponent; a point or an exponent must be there. */
  datatype Float = Float(sign: string, whole: string, frac: Part, exp: Part)
  datatype Part = Absent | Part(mark: char, sign: string, digits: string)

  predicate FloatOk(f: Float) {
    SignText(f.sign) && Digits(f.whole) && TailOk(|f.whole|, f.frac, f.exp)
  }

  function PartText(p: Part): string {
    match p case Absent => "" case Part(m, s, d) => [m] + s + d
  }

  function FloatText(f: Float): string {
    f.sign + f.whole + PartText(f.frac) + PartText(f.exp)
  }

  /** How many digits stand at the front of s. */
  function Run(s: string): (n: nat)
    ensures n <= |s|
  {
    if s == "" || !Digit(s[0]) then 0 else 1 + Run(s[1..])
  }

  lemma {:induction false} RunIsDigits(s: string)
    ensures Digits(s[..Run(s)])
  {
    if s != "" && Digit(s[0]) {
      RunIsDigits(s[1..]);
      assert s[..Run(s)] == [s[0]] + s[1..][..Run(s[1..])];
    }
  }

  lemma {:induction false} RunIs(d: string, rest: string)
    requires Digits(d) && (rest == "" || !Digit(rest[0]))
    ensures Run(d + rest) == |d|
  {
    if d == "" {
      assert d + rest == rest;
    } else {
      assert (d + rest)[1..] == d[1..] + rest;
      RunIs(d[1..], rest);
    }
  }

  method CountDigits(s: string, start: nat) returns (i: nat)
    requires start <= |s|
    ensures i == start + Run(s[start..])
  {
    i := start;
    while i < |s| && s[i] >= '0' && s[i] <= '9'
      invariant start <= i <= |s| && start + Run(s[start..]) == i + Run(s[i..])
    {
      assert s[i..][1..] == s[i + 1..];
      i := i + 1;
    }
  }

  /** The exponent part at the front of s, if it is all there is. */
  predicate ExpForm(s: string) {
    s == "" || ((s[0] == 'e' || s[0] == 'E') && var d := s[1..][SignLen(s[1..])..]; d != "" && Run(d) == |d|)
  }

  predicate FloatForm(s: string) {
    var a := s[SignLen(s)..];
    var n := Run(a);
    TailForm(a[n..], n)
  }

  /** The scanner accepts exactly the texts of the grammar. */
  lemma FloatFormIsGrammar(s: string)
    ensures FloatForm(s) <==> exists f :: FloatOk(f) && FloatText(f) == s
  {
    if FloatForm(s) {
      var f := Parsed(s);
    }
    forall f | FloatOk(f) && FloatText(f) == s ensures FloatForm(s) {
      GrammarIsScanned(f);
    }
  }

  lemma ParsedExp(s: string) returns (p: Part)
    requires ExpForm(s)
    ensures PartText(p) == s && (p.Part? <==> s != "")
    ensures p.Part? ==> (p.mark == 'e' || p.mark == 'E') && SignText(p.sign) && Digits(p.digits) && p.digits != ""
  {
    if s == "" {
      p := Absent;
    } else {
      var k := SignLen(s[1..]);
      p := Part(s[0], s[1..][..k], s[1..][k..]);
      RunIsDigits(p.digits);
      assert p.digits[..|p.digits|] == p.digits;
    }
  }

  /** What follows the whole part, if the scanner accepts it after n digits. */
  predicate TailForm(b: string, n: nat) {
    if b != "" && b[0] == '.' then
      var m := Run(b[1..]);
      n + m > 0 && ExpForm(b[1..][m..])
    else n > 0 && b != "" && ExpForm(b)
  }

  predicate TailOk(n: nat, frac: Part, exp: Part) {
    && (frac.Part? ==> frac.mark == '.' && frac.sign == "" && Digits(frac.digits))
    && (n > 0 || (frac.Part? && frac.digits != ""))
    && (exp.Part? ==>
          (exp.mark == 'e' || exp.mark == 'E') && SignText(exp.sign) && Digits(exp.digits) && exp.digits != "")
    && (frac.Part? || exp.Part?)
  }

  lemma SplitAfter(b: string, m: nat)
    requires b != "" && m <= |b[1..]|
    ensures b[..1 + m] + b[1..][m..] == b
  {
    assert b[1..][m..] == b[1 + m..];
  }

  lemma ParsedFraction(b: string, m: nat) returns (frac: Part)
    requires b != "" && b[0] == '.' && m == Run(b[1..])
    ensures frac == Part('.', "", b[1..][..m]) && Digits(frac.digits) && PartText(frac) == b[..1 + m]
  {
    RunIsDigits(b[1..]);
    frac := Part('.', "", b[1..][..m]);
    assert b[..1 + m] == ['.'] + "" + b[1..][..m];
  }

  lemma ParsedTail(b: string, n: nat) returns (frac: Part, exp: Part)
    requires TailForm(b, n)
    ensures TailOk(n, frac, exp) && PartText(frac) + PartText(exp) == b
  {
    if b[0] == '.' {
      var m := Run(b[1..]);
      exp := ParsedExp(b[1..][m..]);
      frac := ParsedFraction(b, m);
      SplitAfter(b, m);
    } else {
      exp := ParsedExp(b);
      frac := Absent;
      assert "" + b == b;
    }
  }

  lemma Parsed(s: string) returns (f: Float)
    requires FloatForm(s)
    ensures FloatOk(f) && FloatText(f) == s
  {
    var k := SignLen(s);
    var n := Run(s[k..]);
    var frac, exp := ParsedTail(s[k..][n..], n);
    RunIsDigits(s[k..]);
    f := Float(s[..k], s[k..][..n], frac, exp);
    TextsJoin(s, k, n, PartText(frac), PartText(exp));
  }

  lemma TextsJoin(s: string, k: nat, n: nat, x: string, y: string)
    requires k <= |s| && n <= |s[k..]| && x + y == s[k..][n..]
    ensures s[..k] + s[k..][..n] + x + y == s
  {
    assert s[..k] + s[k..][..n] + x + y == s[..k] + (s[k..][..n] + (x + y));
    assert s[k..][..n] + s[k..][n..] == s[k..];
  }

  lemma ExpIsScanned(p: Part)
    requires p.Part? ==> (p.mark == 'e' || p.mark == 'E') && SignText(p.sign) && Digits(p.digits) && p.digits != ""
    ensures ExpForm(PartText(p))
  {
    if p.Part? {
      var s := PartText(p);
      assert s[1..] == p.sign + p.digits;
      assert SignLen(s[1..]) == |p.sign|;
      assert s[1..][|p.sign|..] == p.digits;
      RunIs(p.digits, "");
      assert p.digits + "" == p.digits;
    }
  }

  lemma ExpStarts(p: Part)
    requires p.Part? ==> p.mark == 'e' || p.mark == 'E'
    ensures PartText(p) == "" || !Digit(PartText(p)[0])
  {
  }

  lemma TailIsScanned(n: nat, frac: Part, exp: Part)
    requires TailOk(n, frac, exp)
    ensures TailForm(PartText(frac) + PartText(exp), n)
    ensures PartText(frac) + PartText(exp) == "" || !Digit((PartText(frac) + PartText(exp))[0])
  {
    ExpIsScanned(exp);
    ExpStarts(exp);
    if frac.Part? {
      DotIsScanned(n, frac.digits, PartText(exp));
      assert PartText(frac) == ['.'] + frac.digits;
    } else {
      assert PartText(frac) + PartText(exp) == PartText(exp);
    }
  }

  lemma DotIsScanned(n: nat, d: string, e: string)
    requires Digits(d) && n + |d| > 0 && ExpForm(e) && (e == "" || !Digit(e[0]))
    ensures TailForm(['.'] + d + e, n)
  {
    var tail := ['.'] + d + e;
    assert tail[0] == '.' && tail[1..] == d + e;
    RunIs(d, e);
    assert (d + e)[|d|..] == e;
  }

  lemma SignIsScanned(sign: string, rest: string)
    requires SignText(sign) && rest != "" && rest[0] != '-' && rest[0] != '+'
    ensures SignLen(sign + rest) == |sign| && (sign + rest)[|sign|..] == rest
  {
  }

  lemma GrammarIsScanned(f: Float)
    requires FloatOk(f)
    ensures FloatForm(FloatText(f))
  {
    var tail := PartText(f.frac) + PartText(f.exp);
    var rest := f.whole + tail;
    TailIsScanned(|f.whole|, f.frac, f.exp);
    assert FloatText(f) == f.sign + rest;
    assert f.whole == "" ==> rest == tail;
    SignIsScanned(f.sign, rest);
    RunIs(f.whole, tail);
    assert rest[|f.whole|..] == tail;
  }

  method IsExp(s: string, start: nat) returns (yes: bool)
    requires start <= |s|
    ensures yes <==> ExpForm(s[start..])
  {
    if start == |s| {
      return true;
    }
    if s[start] != 'e' && s[start] != 'E' {
      return false;
    }
    var i := start + 1;
    if i < |s| && (s[i] == '-' || s[i] == '+') {
      i := i + 1;
    }
    var j := CountDigits(s, i);
    ghost var t := s[start..];
    assert t[1..] == s[start + 1..] && t[1..][SignLen(t[1..])..] == s[i..];
    return j > i && j == |s|;
  }

  /** What follows the whole part of n digits, from a point on. */
  method IsFraction(s: string, j: nat, n: nat) returns (yes: bool)
    requires j < |s| && s[j] == '.'
    ensures yes <==> TailForm(s[j..], n)
  {
    var m := CountDigits(s, j + 1);
    ghost var b := s[j..];
    assert b[1..] == s[j + 1..] && b[1..][m - (j + 1)..] == s[m..];
    if n + (m - (j + 1)) == 0 {
      return false;
    }
    yes := IsExp(s, m);
  }

  method IsFloat(s: string) returns (yes: bool)
    ensures yes <==> FloatForm(s)
  {
    var i := SignLen(s);
    var j := CountDigits(s, i);
    assert s[i..][j - i..] == s[j..];
    if j < |s| && s[j] == '.' {
      yes := IsFraction(s, j, j - i);
      return;
    }
    if j == i || j == |s| {
      return false;
    }
    yes := IsExp(s, j);
  }
}
