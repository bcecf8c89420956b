/** The parser for promtool's label and annotation maps, and the printer that
    quotes their values. */
module KvBlock {
  import opened Text
  import opened Options

  predicate IsSeparator(c: char) {
    c in ", \t\n"
  }

  predicate IsNameStart(c: char) {
    'A' <= c <= 'Z' || 'a' <= c <= 'z' || c == '_'
  }

  predicate IsNameChar(c: char) {
    IsNameStart(c) || '0' <= c <= '9'
  }

  predicate IsName(s: string) {
    s != [] && IsNameStart(s[0]) && forall i :: 0 <= i < |s| ==> IsNameChar(s[i])
  }

  // ---------------------------------------------------------------------
  // The parser
  // ---------------------------------------------------------------------

  function SkipSeparators(s: string): (t: string)
    ensures |t| <= |s| && (t == [] || !IsSeparator(t[0]))
  {
    if s != [] && IsSeparator(s[0]) then SkipSeparators(s[1..]) else s
  }

  function NameChars(s: string): (n: nat)
    ensures n <= |s|
  {
    if s != [] && IsNameChar(s[0]) then 1 + NameChars(s[1..]) else 0
  }

  /** The length of the longest name at the front, or zero. */
  function NameLength(s: string): (n: nat)
    ensures n <= |s|
  {
    if s != [] && IsNameStart(s[0]) then 1 + NameChars(s[1..]) else 0
  }

  function Decode(c: char): char {
    if c == 'n' then '\n' else if c == 't' then '\t' else c
  }

  /** A quoted value from after its opening quote: the value, and what follows
      the closing quote. A value that is never closed runs to the end. */
  function Unquote(s: string): (r: (string, string))
    ensures |r.1| <= |s|
  {
    if s == [] then ([], [])
    else if s[0] == '\\' && |s| >= 2 then ([Decode(s[1])] + Unquote(s[2..]).0, Unquote(s[2..]).1)
    else if s[0] == '"' then ([], s[1..])
    else ([s[0]] + Unquote(s[1..]).0, Unquote(s[1..]).1)
  }

  /** The entries read from `s`, on top of those in `out`; reading stops at the
      first thing that is not `name="value"`. */
  function Parse(s: string, out: map<string, string>): map<string, string>
    decreases |s|
  {
    var t := SkipSeparators(s);
    var n := NameLength(t);
    if n == 0 || |t| < n + 2 || t[n] != '=' || t[n + 1] != '"' then out
    else
      var (value, rest) := Unquote(t[n + 2..]);
      Parse(rest, out[t[..n] := value])
  }

  lemma SkipStep(s: string, i: nat)
    requires i < |s| && IsSeparator(s[i])
    ensures SkipSeparators(s[i..]) == SkipSeparators(s[i + 1..])
  {
    assert s[i..][1..] == s[i + 1..];
  }

  method MatchName(block: string, start: nat) returns (n: nat)
    requires start <= |block|
    ensures n == NameLength(block[start..])
  {
    if start == |block| || !IsNameStart(block[start]) {
      return 0;
    }
    n := 1;
    while start + n < |block| && IsNameChar(block[start + n])
      invariant 1 <= n <= |block| - start
      invariant NameLength(block[start..]) == n + NameChars(block[start + n..])
    {
      assert block[start + n..][1..] == block[start + n + 1..];
      n := n + 1;
    }
  }

  method ReadQuoted(block: string, start: nat) returns (value: string, i: nat)
    requires start <= |block|
    ensures start <= i <= |block|
    ensures Unquote(block[start..]) == (value, block[i..])
  {
    value, i := [], start;
    ghost var whole := Unquote(block[start..]);
    assert [] + whole.0 == whole.0;
    while i < |block|
      invariant start <= i <= |block|
      invariant whole.0 == value + Unquote(block[i..]).0 && whole.1 == Unquote(block[i..]).1
    {
      var ch := block[i];
      ghost var rest := block[i..];
      assert rest[0] == ch && rest[1..] == block[i + 1..];
      if ch == '\\' && i + 1 < |block| {
        assert rest[1] == block[i + 1] && rest[2..] == block[i + 2..];
        assert value + ([Decode(block[i + 1])] + Unquote(block[i + 2..]).0)
            == value + [Decode(block[i + 1])] + Unquote(block[i + 2..]).0;
        value, i := value + [Decode(block[i + 1])], i + 2;
      } else if ch == '"' {
        assert value + [] == value;
        return value, i + 1;
      } else {
        assert value + ([ch] + Unquote(block[i + 1..]).0) == value + [ch] + Unquote(block[i + 1..]).0;
        value, i := value + [ch], i + 1;
      }
    }
    assert value + [] == value;
  }

  method ParseBlock(block: string) returns (out: map<string, string>)
    ensures out == Parse(block, map[])
  {
    hide Unquote, NameLength;
    out := map[];
    var i := 0;
    assert block[0..] == block;
    while i < |block|
      invariant 0 <= i <= |block|
      invariant Parse(block, map[]) == Parse(block[i..], out)
      decreases |block| - i
    {
      ghost var from := i;
      while i < |block| && IsSeparator(block[i])
        invariant from <= i <= |block|
        invariant SkipSeparators(block[from..]) == SkipSeparators(block[i..])
      {
        SkipStep(block, i);
        i := i + 1;
      }
      ghost var t := block[i..];
      assert SkipSeparators(t) == t;
      var n := MatchName(block, i);
      if n == 0 {
        return;
      }
      if i + n + 1 >= |block| || block[i + n] != '=' || block[i + n + 1] != '"' {
        assert |t| < n + 2 || t[n] != '=' || t[n + 1] != '"';
        return;
      }
      assert t[..n] == block[i..i + n] && t[n + 2..] == block[i + n + 2..];
      var value, next := ReadQuoted(block, i + n + 2);
      out := out[block[i..i + n] := value];
      i := next;
    }
  }

  // ---------------------------------------------------------------------
  // The printer
  // ---------------------------------------------------------------------

  function EscapeChar(c: char): string {
    if c == '\\' then "\\\\"
    else if c == '"' then "\\\""
    else if c == '\n' then "\\n"
    else if c == '\t' then "\\t"
    else if c == '\r' then "\\r"
    else if c as int < 0x20 then "\\x" + [Digit(c as int / 16), Digit(c as int % 16)]
    else [c]
  }

  function Escape(s: string): string {
    if s == [] then [] else Escape(s[..|s| - 1]) + EscapeChar(s[|s| - 1])
  }

  method YamlQuoted(s: string) returns (q: string)
    ensures q == "\"" + Escape(s) + "\""
  {
    hide EscapeChar;
    q := "\"";
    for i := 0 to |s|
      invariant q == "\"" + Escape(s[..i])
    {
      assert s[..i + 1][..i] == s[..i];
      q := q + EscapeChar(s[i]);
    }
    assert s[..|s|] == s;
    q := q + "\"";
  }

  /** Comma-separated `name="value"` entries; `gap` is any run of separators. */
  function Print(entries: seq<(string, string)>, gap: string): string {
    if entries == [] then []
    else entries[0].0 + "=\"" + Escape(entries[0].1) + "\""
         + (if |entries| == 1 then [] else gap + Print(entries[1..], gap))
  }

  // ---------------------------------------------------------------------
  // Undoing each other
  // ---------------------------------------------------------------------

  /** What comes back for a character that was printed. */
  function Echo(c: char): string {
    if c == '\r' then "r"
    else if c as int < 0x20 && c != '\n' && c != '\t' then "x" + [Digit(c as int / 16), Digit(c as int % 16)]
    else [c]
  }

  function Echoed(s: string): string {
    if s == [] then [] else Echo(s[0]) + Echoed(s[1..])
  }

  /** The only control characters are newline and tab. */
  predicate Clean(s: string) {
    forall i :: 0 <= i < |s| ==> s[i] as int >= 0x20 || s[i] == '\n' || s[i] == '\t'
  }

  lemma {:induction false} EscapeCons(c: char, s: string)
    ensures Escape([c] + s) == EscapeChar(c) + Escape(s)
  {
    hide EscapeChar;
    if s == [] {
      assert [c] + s == [c] && [c][..0] == [];
      assert Escape([c]) == Escape([]) + EscapeChar(c);
    } else {
      var n := |s| - 1;
      EscapeCons(c, s[..n]);
      assert ([c] + s)[..n + 1] == [c] + s[..n];
      assert EscapeChar(c) + Escape(s[..n]) + EscapeChar(s[n]) == EscapeChar(c) + (Escape(s[..n]) + EscapeChar(s[n]));
    }
  }

  /** An ordinary character is read as itself. */
  lemma UnquotePlain(c: char, rest: string)
    requires c != '\\' && c != '"'
    ensures Unquote([c] + rest) == ([c] + Unquote(rest).0, Unquote(rest).1)
  {
    assert ([c] + rest)[1..] == rest;
  }

  lemma UnquoteEscaped(c: char, rest: string)
    ensures Unquote(['\\', c] + rest) == ([Decode(c)] + Unquote(rest).0, Unquote(rest).1)
  {
    assert (['\\', c] + rest)[2..] == rest;
  }

  /** Reading one printed character gives its echo. */
  lemma UnquoteChar(c: char, rest: string)
    ensures Unquote(EscapeChar(c) + rest) == (Echo(c) + Unquote(rest).0, Unquote(rest).1)
  {
    hide Unquote;
    if c as int < 0x20 && c != '\n' && c != '\t' && c != '\r' {
      var hi, lo := Digit(c as int / 16), Digit(c as int % 16);
      assert EscapeChar(c) + rest == ['\\', 'x'] + ([hi] + ([lo] + rest));
      UnquoteEscaped('x', [hi] + ([lo] + rest));
      UnquotePlain(hi, [lo] + rest);
      UnquotePlain(lo, rest);
      assert ['x'] + ([hi] + ([lo] + Unquote(rest).0)) == Echo(c) + Unquote(rest).0;
    } else if c == '\\' || c == '"' || c == '\n' || c == '\t' || c == '\r' {
      var e := EscapeChar(c)[1];
      assert EscapeChar(c) + rest == ['\\', e] + rest;
      UnquoteEscaped(e, rest);
    } else {
      UnquotePlain(c, rest);
    }
  }

  /** A printed value is read back, up to its closing quote, as its echo. */
  lemma {:induction false} UnquotePrinted(s: string, rest: string)
    ensures Unquote(Escape(s) + "\"" + rest) == (Echoed(s), rest)
  {
    hide Unquote, EscapeChar, Echo;
    if s == [] {
      assert Escape(s) + "\"" + rest == "\"" + rest;
      UnquoteClose(rest);
    } else {
      UnquotePrinted(s[1..], rest);
      EscapeCons(s[0], s[1..]);
      assert s == [s[0]] + s[1..];
      UnquoteChar(s[0], Escape(s[1..]) + "\"" + rest);
      assert Escape(s) + "\"" + rest == EscapeChar(s[0]) + (Escape(s[1..]) + "\"" + rest);
    }
  }

  lemma UnquoteClose(rest: string)
    ensures Unquote("\"" + rest) == ([], rest)
  {
    assert ("\"" + rest)[1..] == rest;
  }

  /** A value comes back unchanged exactly when it is clean. */
  lemma {:induction false} EchoedExactlyWhenClean(s: string)
    ensures Echoed(s) == s <==> Clean(s)
    ensures |Echoed(s)| >= |s|
  {
    if s != [] {
      var e := Echoed(s);
      EchoedExactlyWhenClean(s[1..]);
      if Echo(s[0]) == [s[0]] {
        assert e[1..] == Echoed(s[1..]);
        assert Clean(s) <==> Clean(s[1..]) by {
          if Clean(s[1..]) {
            forall i | 0 <= i < |s| ensures s[i] as int >= 0x20 || s[i] == '\n' || s[i] == '\t' {
              if i > 0 {
                assert s[i] == s[1..][i - 1];
              }
            }
          }
        }
        assert s == [s[0]] + s[1..];
      } else {
        assert e[0] == 'r' || e[0] == 'x';
      }
    }
  }

  lemma {:induction false} NameCharsOf(name: string, rest: string)
    requires forall i :: 0 <= i < |name| ==> IsNameChar(name[i])
    requires rest != [] && !IsNameChar(rest[0])
    ensures NameChars(name + rest) == |name|
  {
    if name == [] {
      assert name + rest == rest;
    } else {
      NameCharsOf(name[1..], rest);
      assert (name + rest)[1..] == name[1..] + rest;
    }
  }

  lemma NameLengthOf(name: string, rest: string)
    requires IsName(name) && rest != [] && !IsNameChar(rest[0])
    ensures NameLength(name + rest) == |name|
  {
    NameCharsOf(name[1..], rest);
    assert (name + rest)[1..] == name[1..] + rest;
  }

  lemma {:induction false} GapIsSkipped(gap: string, s: string)
    requires forall i :: 0 <= i < |gap| ==> IsSeparator(gap[i])
    ensures SkipSeparators(gap + s) == SkipSeparators(s)
  {
    if gap == [] {
      assert gap + s == s;
    } else {
      GapIsSkipped(gap[1..], s);
      assert (gap + s)[1..] == gap[1..] + s;
    }
  }

  lemma ParseSkipsGap(gap: string, s: string, out: map<string, string>)
    requires forall i :: 0 <= i < |gap| ==> IsSeparator(gap[i])
    ensures Parse(gap + s, out) == Parse(s, out)
  {
    hide Unquote, NameLength;
    GapIsSkipped(gap, s);
  }

  lemma ParseEntry(name: string, value: string, rest: string, out: map<string, string>)
    requires IsName(name)
    ensures Parse(name + "=\"" + Escape(value) + "\"" + rest, out) == Parse(rest, out[name := Echoed(value)])
  {
    hide Unquote, NameLength, Escape, Echoed;
    var quoted := Escape(value) + "\"" + rest;
    var s := name + ("=\"" + quoted);
    assert name + "=\"" + Escape(value) + "\"" + rest == s;
    NameLengthOf(name, "=\"" + quoted);
    UnquotePrinted(value, rest);
    assert SkipSeparators(s) == s;
    assert s[..|name|] == name && s[|name| + 2..] == quoted;
  }

  function Stored(entries: seq<(string, string)>, out: map<string, string>): map<string, string> {
    if entries == [] then out else Stored(entries[1..], out[entries[0].0 := Echoed(entries[0].1)])
  }

  /** Reading what was printed stores each entry's echo, the last one winning. */
  lemma {:induction false} ParsePrinted(entries: seq<(string, string)>, gap: string, out: map<string, string>)
    requires forall i :: 0 <= i < |entries| ==> IsName(entries[i].0)
    requires forall i :: 0 <= i < |gap| ==> IsSeparator(gap[i])
    ensures Parse(Print(entries, gap), out) == Stored(entries, out)
    decreases |entries|
  {
    hide Parse, Escape, Echoed;
    if entries == [] {
      ParseNothing(out);
    } else {
      var rest := Print(entries[1..], gap);
      var out' := out[entries[0].0 := Echoed(entries[0].1)];
      ParseEntry(entries[0].0, entries[0].1, if |entries| == 1 then [] else gap + rest, out);
      ParseSkipsGap(gap, rest, out');
      ParsePrinted(entries[1..], gap, out');
    }
  }

  lemma ParseNothing(out: map<string, string>)
    ensures Parse([], out) == out
  {
  }

  /** The entries of a map, listed in any order without repetition. */
  predicate Lists(entries: seq<(string, string)>, m: map<string, string>) {
    && (forall i :: 0 <= i < |entries| ==> entries[i].0 in m && m[entries[i].0] == entries[i].1)
    && (forall i, j :: 0 <= i < j < |entries| ==> entries[i].0 != entries[j].0)
    && (forall k :: k in m ==> exists i :: 0 <= i < |entries| && entries[i].0 == k)
  }

  lemma {:induction false} StoredAt(entries: seq<(string, string)>, out: map<string, string>)
    requires forall i, j :: 0 <= i < j < |entries| ==> entries[i].0 != entries[j].0
    ensures var r := Stored(entries, out);
            && (forall i :: 0 <= i < |entries| ==> entries[i].0 in r && r[entries[i].0] == Echoed(entries[i].1))
            && (forall k :: (k in r && k !in out) ==> exists i :: 0 <= i < |entries| && entries[i].0 == k)
            && (forall k :: k in out && (forall i :: 0 <= i < |entries| ==> entries[i].0 != k) ==> k in r && r[k] == out[k])
    decreases |entries|
  {
    hide Echoed;
    if entries != [] {
      var out' := out[entries[0].0 := Echoed(entries[0].1)];
      var tail := entries[1..];
      StoredAt(tail, out');
      var r := Stored(entries, out);
      assert r == Stored(tail, out');
      assert forall i :: 0 <= i < |tail| ==> tail[i] == entries[i + 1];
      assert forall i :: 0 <= i < |tail| ==> tail[i].0 != entries[0].0;
      assert entries[0].0 in out';
      forall i | 0 <= i < |entries| ensures entries[i].0 in r && r[entries[i].0] == Echoed(entries[i].1) {
        if i > 0 {
          assert entries[i] == tail[i - 1];
        }
      }
      forall k | k in r && k !in out ensures exists i :: 0 <= i < |entries| && entries[i].0 == k {
        if k != entries[0].0 {
          assert k !in out';
          var j :| 0 <= j < |tail| && tail[j].0 == k;
          assert entries[j + 1].0 == k;
        }
      }
    }
  }

  /** A letter or underscore, then letters, digits and underscores. */
  predicate Identifier(k: string) {
    && k != [] && !('0' <= k[0] <= '9')
    && forall i :: 0 <= i < |k| ==>
         'A' <= k[i] <= 'Z' || 'a' <= k[i] <= 'z' || '0' <= k[i] <= '9' || k[i] == '_'
  }

  /** Reading stops at anything but an identifier: what is left is not looked at. */
  lemma ParseStopsAt(s: string, out: map<string, string>)
    requires s != [] && s[0] !in {',', ' ', '\t', '\n'}
    requires !('A' <= s[0] <= 'Z' || 'a' <= s[0] <= 'z' || s[0] == '_')
    ensures Parse(s, out) == out
  {
  }

  /** Every map with names for keys survives being printed, in any order and with
      any separators, and parsed again, exactly when its values are clean. */
  lemma RoundTripExactlyWhenClean(m: map<string, string>, entries: seq<(string, string)>, gap: string)
    requires Lists(entries, m)
    requires forall k :: k in m ==> Identifier(k)
    requires forall i :: 0 <= i < |gap| ==> gap[i] in {',', ' ', '\t', '\n'}
    ensures Parse(Print(entries, gap), map[]) == m <==> forall k :: k in m ==> Clean(m[k])
  {
    hide Parse, Print, Echoed, Clean, Stored;
    ParsePrinted(entries, gap, map[]);
    StoredAt(entries, map[]);
    var r := Stored(entries, map[]);
    assert r.Keys == m.Keys;
    forall k | k in m ensures r[k] == Echoed(m[k]) && (Echoed(m[k]) == m[k] <==> Clean(m[k])) {
      var i :| 0 <= i < |entries| && entries[i].0 == k;
      EchoedExactlyWhenClean(m[k]);
    }
  }
}
