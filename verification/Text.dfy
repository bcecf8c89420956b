/** Text helpers shared by the ceremony and the generators: hexadecimal, decimal,
    lexicographic order and newline-terminated lines. A byte string is a string
    of characters below 256. */
module Text {

  import opened Options

  // ---------------------------------------------------------------------
  // Hexadecimal
  // ---------------------------------------------------------------------

  predicate IsBytes(s: string) {
    forall i :: 0 <= i < |s| ==> s[i] as int < 256
  }

  predicate IsLowerHex(c: char) {
    '0' <= c <= '9' || 'a' <= c <= 'f'
  }

  function Digit(n: nat): (c: char)
    requires n < 16
    ensures IsLowerHex(c) && DigitValue(c) == Some(n)
  {
    if n < 10 then '0' + n as char else 'a' + (n - 10) as char
  }

  /** Decoding accepts both cases. */
  function DigitValue(c: char): Option<nat> {
    if '0' <= c <= '9' then Some(c as int - '0' as int)
    else if 'a' <= c <= 'f' then Some(c as int - 'a' as int + 10)
    else if 'A' <= c <= 'F' then Some(c as int - 'A' as int + 10)
    else None
  }

  function Hex(s: string): (h: string)
    requires IsBytes(s)
    ensures |h| == 2 * |s| && forall i :: 0 <= i < |h| ==> IsLowerHex(h[i])
  {
    if s == [] then []
    else [Digit(s[0] as int / 16), Digit(s[0] as int % 16)] + Hex(s[1..])
  }

  function Unhex(h: string): (s: Option<string>)
    ensures s.Some? ==> IsBytes(s.value) && |h| == 2 * |s.value|
  {
    if h == [] then Some([])
    else if |h| == 1 then None
    else
      var hi, lo, rest := DigitValue(h[0]), DigitValue(h[1]), Unhex(h[2..]);
      if hi.None? || lo.None? || rest.None? || hi.value > 15 || lo.value > 15 then None
      else Some([(16 * hi.value + lo.value) as char] + rest.value)
  }

  lemma {:induction false} UnhexHex(s: string)
    requires IsBytes(s)
    ensures Unhex(Hex(s)) == Some(s)
  {
    if s != [] {
      UnhexHex(s[1..]);
      assert Hex(s)[2..] == Hex(s[1..]);
      assert [s[0]] + s[1..] == s;
    }
  }

  /** What decodes is made of hexadecimal digits only. */
  lemma {:induction false} UnhexIsPlain(h: string)
    requires Unhex(h).Some?
    ensures forall c :: c in h ==> DigitValue(c).Some?
    ensures '\n' !in h && '=' !in h
  {
    if h != [] {
      UnhexIsPlain(h[2..]);
      assert h == [h[0], h[1]] + h[2..];
    }
  }

  lemma HexInjective(s: string, t: string)
    requires IsBytes(s) && IsBytes(t) && Hex(s) == Hex(t)
    ensures s == t
  {
    UnhexHex(s);
    UnhexHex(t);
  }

  /** The high digit of each byte comes first. */
  lemma {:induction false} HexDigitsAt(s: string, i: nat)
    requires IsBytes(s) && i < |s|
    ensures DigitValue(Hex(s)[2 * i]) == Some(s[i] as int / 16) && DigitValue(Hex(s)[2 * i + 1]) == Some(s[i] as int % 16)
  {
    if i > 0 {
      HexDigitsAt(s[1..], i - 1);
    }
  }

  // ---------------------------------------------------------------------
  // Decimal
  // ---------------------------------------------------------------------

  function Decimal(n: nat): (d: string)
    ensures d != [] && forall i :: 0 <= i < |d| ==> '0' <= d[i] <= '9'
    ensures n > 0 ==> d[0] != '0'
  {
    if n < 10 then [Digit(n)] else Decimal(n / 10) + [Digit(n % 10)]
  }

  lemma {:induction false} DecimalInjective(m: nat, n: nat)
    requires Decimal(m) == Decimal(n)
    ensures m == n
  {
    var d, e := Decimal(m), Decimal(n);
    if m < 10 && n < 10 {
      assert DigitValue(d[0]) == DigitValue(e[0]);
    } else if m >= 10 && n >= 10 {
      assert d[|d| - 1] == Digit(m % 10) && e[|e| - 1] == Digit(n % 10);
      assert DigitValue(d[|d| - 1]) == DigitValue(e[|e| - 1]);
      assert d[..|d| - 1] == Decimal(m / 10) && e[..|e| - 1] == Decimal(n / 10);
      DecimalInjective(m / 10, n / 10);
    }
  }

  /** The number a text of digits stands for, most significant first. */
  function Value(d: string): nat {
    if d == [] then 0
    else
      var last := DigitValue(d[|d| - 1]);
      10 * Value(d[..|d| - 1]) + (if last.Some? then last.value else 0)
  }

  lemma {:induction false} DecimalStandsFor(n: nat)
    ensures Value(Decimal(n)) == n
  {
    if n < 10 {
      assert Decimal(n)[..0] == [];
    } else {
      DecimalStandsFor(n / 10);
      assert Decimal(n)[..|Decimal(n)| - 1] == Decimal(n / 10);
    }
  }

  /** At least two digits, as the format verb %02d prints. */
  function TwoDigits(n: nat): string {
    if n < 10 then "0" + Decimal(n) else Decimal(n)
  }

  lemma TwoDigitsInjective(m: nat, n: nat)
    requires m > 0 && n > 0 && TwoDigits(m) == TwoDigits(n)
    ensures m == n
  {
    assert TwoDigits(m)[0] == (if m < 10 then '0' else Decimal(m)[0]);
    assert TwoDigits(n)[0] == (if n < 10 then '0' else Decimal(n)[0]);
    if m < 10 {
      assert TwoDigits(m)[1..] == Decimal(m) && TwoDigits(n)[1..] == Decimal(n);
    }
    DecimalInjective(m, n);
  }

  // ---------------------------------------------------------------------
  // Lexicographic order
  // ---------------------------------------------------------------------

  predicate Less(a: string, b: string) {
    b != [] && (a == [] || a[0] < b[0] || (a[0] == b[0] && Less(a[1..], b[1..])))
  }

  lemma {:induction false} LessIrreflexive(a: string)
    ensures !Less(a, a)
  {
    if a != [] {
      LessIrreflexive(a[1..]);
    }
  }

  lemma {:induction false} LessTransitive(a: string, b: string, c: string)
    requires Less(a, b) && Less(b, c)
    ensures Less(a, c)
  {
    if a != [] && a[0] == b[0] == c[0] {
      LessTransitive(a[1..], b[1..], c[1..]);
    }
  }

  lemma {:induction false} LessConnected(a: string, b: string)
    ensures a == b || Less(a, b) || Less(b, a)
  {
    if a != [] && b != [] && a[0] == b[0] {
      LessConnected(a[1..], b[1..]);
      assert a == [a[0]] + a[1..] && b == [b[0]] + b[1..];
    }
  }

  /** The order of the first difference, a proper prefix coming first. */
  lemma {:induction false} LessAtFirstDifference(a: string, b: string, k: nat)
    requires k <= |a| && k <= |b| && a[..k] == b[..k]
    requires k == |a| || k == |b| || a[k] != b[k]
    ensures Less(a, b) <==> k < |b| && (k == |a| || a[k] < b[k])
    decreases k
  {
    if k > 0 {
      assert a[0] == a[..k][0] && b[0] == b[..k][0];
      assert a[1..][..k - 1] == a[..k][1..] && b[1..][..k - 1] == b[..k][1..];
      LessAtFirstDifference(a[1..], b[1..], k - 1);
    }
  }

  // ---------------------------------------------------------------------
  // Lines
  // ---------------------------------------------------------------------

  predicate OneLine(s: string) {
    '\n' !in s
  }

  /** `head`, a newline, then what follows. */
  function Line(head: string, rest: string): string {
    head + ['\n'] + rest
  }

  lemma LineInjective(a: string, x: string, b: string, y: string)
    requires OneLine(a) && OneLine(b) && Line(a, x) == Line(b, y)
    ensures a == b && x == y
  {
    var s := Line(a, x);
    assert s[|a|] == '\n' && s[|b|] == '\n';
    assert forall i :: 0 <= i < |a| ==> s[i] == a[i];
    assert forall i :: 0 <= i < |b| ==> s[i] == b[i];
    assert |a| == |b|;
    assert a == s[..|a|] && b == s[..|b|];
    assert x == s[|a| + 1..] && y == s[|b| + 1..];
  }

  /** The last `=` splits a text whose right side has none. */
  lemma LastEqualsSplits(a: string, x: string, b: string, y: string)
    requires a + "=" + x == b + "=" + y && '=' !in x && '=' !in y
    ensures a == b && x == y
  {
    var s := a + "=" + x;
    assert s[|a|] == '=' && s[|b|] == '=';
    assert forall i :: |a| < i < |s| ==> s[i] == x[i - |a| - 1];
    assert forall i :: |b| < i < |s| ==> s[i] == y[i - |b| - 1];
    assert |a| == |b|;
    assert a == s[..|a|] && b == s[..|b|] && x == s[|a| + 1..] && y == s[|b| + 1..];
  }

  lemma PrefixInjective(p: string, a: string, b: string)
    requires p + a == p + b
    ensures a == b
  {
    assert a == (p + a)[|p|..] && b == (p + b)[|p|..];
  }

  lemma HexIsOneLine(s: string)
    requires IsBytes(s)
    ensures OneLine(Hex(s))
  {
  }

  lemma JoinedIsOneLine(a: string, b: string)
    requires OneLine(a) && OneLine(b)
    ensures OneLine(a + b)
  {
  }

  function Newlines(s: string): nat {
    if s == [] then 0 else Newlines(s[..|s| - 1]) + (if s[|s| - 1] == '\n' then 1 else 0)
  }

  lemma {:induction false} NewlinesAppend(a: string, b: string)
    ensures Newlines(a + b) == Newlines(a) + Newlines(b)
  {
    if b == [] {
      assert a + b == a;
    } else {
      NewlinesAppend(a, b[..|b| - 1]);
      assert (a + b)[..|a + b| - 1] == a + b[..|b| - 1];
    }
  }

  lemma {:induction false} OneLineHasNone(s: string)
    ensures OneLine(s) <==> Newlines(s) == 0
  {
    if s != [] {
      OneLineHasNone(s[..|s| - 1]);
      assert s == s[..|s| - 1] + [s[|s| - 1]];
    }
  }

  lemma NewlinesOfLine(head: string, rest: string)
    ensures Newlines(Line(head, rest)) == Newlines(head) + 1 + Newlines(rest)
  {
    NewlinesAppend(head, ['\n']);
    NewlinesAppend(head + ['\n'], rest);
    assert ['\n'][..0] == [];
  }

  lemma {:induction false} LessWithMore(a: string, b: string, more: string)
    requires Less(a, b)
    ensures Less(a, b + more)
  {
    if a != [] && a[0] == b[0] {
      LessWithMore(a[1..], b[1..], more);
      assert (b + more)[1..] == b[1..] + more;
    }
  }

  // ---------------------------------------------------------------------
  // Blanks
  // ---------------------------------------------------------------------

  /** The characters with the Unicode White_Space property. */
  predicate IsWhiteSpace(c: char) {
    || '\t' <= c <= '\r' || c == ' ' || c == '\U{85}' || c == '\U{A0}' || c == '\U{1680}'
    || '\U{2000}' <= c <= '\U{200A}' || c == '\U{2028}' || c == '\U{2029}' || c == '\U{202F}'
    || c == '\U{205F}' || c == '\U{3000}'
  }

  function TrimLeft(s: string, blank: char -> bool): (t: string)
    ensures |t| <= |s| && t == s[|s| - |t|..] && (t != [] ==> !blank(t[0]))
    ensures forall i :: 0 <= i < |s| - |t| ==> blank(s[i])
  {
    if s != [] && blank(s[0]) then
      var t := TrimLeft(s[1..], blank);
      assert t == s[|s| - |t|..];
      assert forall i :: 0 < i < |s| - |t| ==> s[i] == s[1..][i - 1];
      t
    else s
  }

  function TrimRight(s: string, blank: char -> bool): (t: string)
    ensures t <= s && (t != [] ==> !blank(t[|t| - 1]))
    ensures forall i :: |t| <= i < |s| ==> blank(s[i])
  {
    if s != [] && blank(s[|s| - 1]) then TrimRight(s[..|s| - 1], blank) else s
  }

  /** Without the blanks at both ends. */
  function Trim(s: string, blank: char -> bool): string {
    TrimRight(TrimLeft(s, blank), blank)
  }
}
