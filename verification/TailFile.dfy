/** Reading the last lines of a log backwards, chunk by chunk. */
module TailFile {

  const NEWLINE := '\n'

  /** The pieces of `s` between newlines; the empty text is one empty piece. */
  function Split(s: string): (pieces: seq<string>)
    ensures |pieces| >= 1
  {
    if s == [] then [[]]
    else if s[0] == NEWLINE then [[]] + Split(s[1..])
    else
      var rest := Split(s[1..]);
      [[s[0]] + rest[0]] + rest[1..]
  }

  function Join(pieces: seq<string>): string {
    if pieces == [] then []
    else if |pieces| == 1 then pieces[0]
    else pieces[0] + [NEWLINE] + Join(pieces[1..])
  }

  /** Splitting loses nothing and leaves no newline inside a piece. */
  lemma {:induction false} SplitIsExact(s: string)
    ensures Join(Split(s)) == s
    ensures forall i :: 0 <= i < |Split(s)| ==> NEWLINE !in Split(s)[i]
  {
    if s == [] {
    } else if s[0] == NEWLINE {
      SplitIsExact(s[1..]);
      assert Split(s)[1..] == Split(s[1..]);
      assert s == [] + [NEWLINE] + s[1..];
    } else {
      SplitIsExact(s[1..]);
      var rest := Split(s[1..]);
      assert s == [s[0]] + s[1..];
      if |rest| > 1 {
        assert Split(s)[1..] == rest[1..];
        assert Join(Split(s)) == [s[0]] + (rest[0] + [NEWLINE] + Join(rest[1..]));
      }
    }
  }

  function Last(lines: seq<string>, n: nat): seq<string> {
    if |lines| <= n then lines else lines[|lines| - n..]
  }

  /** Without the blank lines at the end. */
  function DropBlankEnd(lines: seq<string>, blank: string -> bool): seq<string> {
    if lines != [] && blank(lines[|lines| - 1]) then DropBlankEnd(lines[..|lines| - 1], blank) else lines
  }

  /** The simple reader: split the whole file, keep the last n pieces, drop the
      blank ones at the end. */
  function WholeFile(file: string, n: nat, blank: string -> bool): seq<string> {
    DropBlankEnd(Last(Split(file), n), blank)
  }

  /** The result is the front of the last n pieces: it ends in no blank line, and only
      blank ones are missing. */
  lemma {:induction false} OnlyBlankEndIsDropped(lines: seq<string>, blank: string -> bool)
    ensures var kept := DropBlankEnd(lines, blank);
            && kept <= lines && (kept != [] ==> !blank(kept[|kept| - 1]))
            && forall i :: |kept| <= i < |lines| ==> blank(lines[i])
    decreases |lines|
  {
    if lines != [] && blank(lines[|lines| - 1]) {
      OnlyBlankEndIsDropped(lines[..|lines| - 1], blank);
    }
  }

  /** The last n pieces, or all if there are fewer. */
  lemma LastPieces(lines: seq<string>, n: nat)
    ensures |Last(lines, n)| == (if |lines| < n then |lines| else n)
    ensures Last(lines, n) == lines[|lines| - |Last(lines, n)|..]
  {
  }

  /** One more character in front adds a piece or lengthens the first one. */
  lemma SplitCons(c: char, s: string)
    ensures Split([c] + s) == if c == NEWLINE then [[]] + Split(s) else [[c] + Split(s)[0]] + Split(s)[1..]
  {
    assert ([c] + s)[1..] == s;
  }

  /** Text put in front leaves every piece but the first as it was. */
  lemma {:induction false} SplitInFront(a: string, b: string)
    ensures var y, z := Split(b), Split(a + b);
            |z| >= |y| && z[|z| - |y| + 1..] == y[1..]
  {
    hide Split;
    if a == [] {
      assert a + b == b;
    } else {
      SplitInFront(a[1..], b);
      SplitCons(a[0], a[1..] + b);
      assert a + b == [a[0]] + (a[1..] + b);
    }
  }

  /** A suffix with more than n pieces already determines the last n. */
  lemma SuffixDecides(a: string, b: string, n: nat)
    requires |Split(b)| > n
    ensures Last(Split(a + b), n) == Last(Split(b), n)
  {
    hide Split;
    SplitInFront(a, b);
    var y, z := Split(b), Split(a + b);
    assert z[|z| - n..] == z[|z| - |y| + 1..][|y| - 1 - n..];
    assert y[|y| - n..] == y[1..][|y| - 1 - n..];
  }

  /** The backward loop returns what the simple reader returns, for every file,
      count and chunk size; `off` falls to zero. */
  method Tail(file: string, n: nat, chunk: nat, blank: string -> bool) returns (lines: seq<string>)
    requires chunk > 0 && blank([])
    ensures lines == WholeFile(file, n, blank) && |lines| <= n
    ensures lines != [] ==> !blank(lines[|lines| - 1])
  {
    hide Split;
    var buf := "";
    lines := [];
    var off := |file|;
    while off > 0 && |lines| <= n
      invariant 0 <= off <= |file| && buf == file[off..]
      invariant off < |file| ==> lines == Split(buf)
      invariant off == |file| ==> lines == []
      decreases off
    {
      var read := if off < chunk then off else chunk;
      off := off - read;
      var piece := file[off..off + read];
      assert piece + file[off + read..] == file[off..];
      buf := piece + buf;
      lines := Split(buf);
    }
    if off == |file| {
      assert file == [];
      EmptyFile(n, blank);
    } else if off > 0 {
      SuffixDecides(file[..off], buf, n);
      assert file[..off] + buf == file;
    } else {
      assert file[0..] == file;
    }
    if |lines| > n {
      lines := lines[|lines| - n..];
    }
    ghost var kept := lines;
    while |lines| > 0 && blank(lines[|lines| - 1])
      invariant DropBlankEnd(lines, blank) == DropBlankEnd(kept, blank)
      decreases |lines|
    {
      lines := lines[..|lines| - 1];
    }
  }

  lemma EmptyFile(n: nat, blank: string -> bool)
    requires blank([])
    ensures WholeFile([], n, blank) == [] && Last([], n) == [] && DropBlankEnd([], blank) == []
  {
    assert Last(Split([]), n) == if n == 0 then [] else [[]];
  }
}
