/** Splitting an alert expression at its last top-level comparison.

    The specification works in separate passes over the characters: which ones
    lie inside quotes, how deep in brackets each visible one is, and where
    comparison tokens then start. The code does it all in one scan with jumps. */
module Promql {
  import opened Options
  import opened Text

  predicate IsQuote(c: char) {
    c == '"' || c == '\''
  }

  function Weight(c: char): int {
    if c in "([{" then 1 else if c in ")]}" then -1 else 0
  }

  /** Python's whitespace: four separator controls beside the Unicode property. */
  predicate IsSpace(c: char) {
    IsWhiteSpace(c) || '\U{1C}' <= c <= '\U{1F}'
  }

  // ---------------------------------------------------------------------
  // The specification
  // ---------------------------------------------------------------------

  /** Outside quotes, inside them, or inside just after a backslash. */
  datatype Quoting = Out | In(q: char) | Escaped(q: char)

  function Advance(k: Quoting, c: char): Quoting {
    match k
    case Out => if IsQuote(c) then In(c) else Out
    case In(q) => if c == '\\' then Escaped(q) else if c == q then Out else In(q)
    case Escaped(q) => In(q)
  }

  /** The quoting state before character i. */
  function QuotingAt(s: string, i: nat): Quoting
    requires i <= |s|
  {
    if i == 0 then Out else Advance(QuotingAt(s, i - 1), s[i - 1])
  }

  predicate Visible(s: string, i: nat)
    requires i < |s|
  {
    QuotingAt(s, i) == Out && !IsQuote(s[i])
  }

  /** The bracket depth before character i, counting visible brackets only. */
  function DepthAt(s: string, i: nat): int
    requires i <= |s|
  {
    if i == 0 then 0 else DepthAt(s, i - 1) + (if Visible(s, i - 1) then Weight(s[i - 1]) else 0)
  }

  predicate StartsAt(s: string, i: nat, word: string) {
    i + |word| <= |s| && s[i..i + |word|] == word
  }

  /** The comparison operator at i, two characters before one; empty if none. */
  function OperatorAt(s: string, i: nat): (op: string)
    ensures op != [] ==> StartsAt(s, i, op) && |op| <= 2 && (|op| == 2 ==> op[1] == '=')
    ensures op != [] ==> op[0] in ">=<!"
  {
    if StartsAt(s, i, ">=") then ">="
    else if StartsAt(s, i, "<=") then "<="
    else if StartsAt(s, i, "==") then "=="
    else if StartsAt(s, i, "!=") then "!="
    else if StartsAt(s, i, ">") then ">"
    else if StartsAt(s, i, "<") then "<"
    else []
  }

  /** Longest match, by characters: two if an `=` follows one of the four, one if a
      bare `<` or `>` stands there, and nothing otherwise. */
  lemma OperatorByCharacters(s: string, i: nat)
    ensures |OperatorAt(s, i)| == 2 <==> i + 1 < |s| && s[i] in "<>=!" && s[i + 1] == '='
    ensures |OperatorAt(s, i)| == 1 <==> i < |s| && s[i] in "<>" && (i + 1 == |s| || s[i + 1] != '=')
    ensures OperatorAt(s, i) != [] ==> OperatorAt(s, i) == s[i..i + |OperatorAt(s, i)|]
  {
    if i + 1 < |s| {
      assert s[i..i + 2] == [s[i], s[i + 1]];
    }
    if i < |s| {
      assert s[i..i + 1] == [s[i]];
    }
  }

  /** A comparison operator stands at i, outside quotes and brackets. */
  predicate Comparison(s: string, i: nat) {
    i < |s| && Visible(s, i) && DepthAt(s, i) == 0 && OperatorAt(s, i) != []
  }

  datatype Token = Token(pos: nat, op: string)

  /** The comparison tokens from i on, taken left to right without overlap. */
  function Tokens(s: string, i: nat): seq<Token>
    requires i <= |s|
    decreases |s| - i
  {
    if i == |s| then []
    else if Comparison(s, i) then [Token(i, OperatorAt(s, i))] + Tokens(s, i + |OperatorAt(s, i)|)
    else Tokens(s, i + 1)
  }

  // ---------------------------------------------------------------------
  // What the tokens are
  // ---------------------------------------------------------------------

  /** Every token is a comparison at its place, and they do not overlap. */
  lemma {:induction false} TokensAreComparisons(s: string, i: nat, k: nat)
    requires i <= |s| && k < |Tokens(s, i)|
    ensures var t := Tokens(s, i)[k];
            && Comparison(s, t.pos) && t.op == OperatorAt(s, t.pos) && i <= t.pos
            && (k + 1 < |Tokens(s, i)| ==> t.pos + |t.op| <= Tokens(s, i)[k + 1].pos)
    decreases |s| - i
  {
    hide Comparison, OperatorAt;
    if i < |s| {
      if Comparison(s, i) {
        var next := i + |OperatorAt(s, i)|;
        AdvancesWithin(s, i);
        if k > 0 {
          TokensAreComparisons(s, next, k - 1);
        } else if |Tokens(s, i)| > 1 {
          TokensAreComparisons(s, next, 0);
        }
      } else {
        TokensAreComparisons(s, i + 1, k);
      }
    }
  }

  lemma AdvancesWithin(s: string, i: nat)
    requires Comparison(s, i)
    ensures i < i + |OperatorAt(s, i)| <= |s|
  {
  }

  /** A comparison at j, at or after i, forces a token, and the last token does
      not end at or before j. */
  lemma {:induction false} LastTokenReaches(s: string, i: nat, j: nat)
    requires i <= j && Comparison(s, j) && i <= |s|
    ensures Tokens(s, i) != []
    ensures var t := Tokens(s, i)[|Tokens(s, i)| - 1]; j < t.pos + |t.op|
    decreases |s| - i
  {
    hide Comparison, OperatorAt;
    AdvancesWithin(s, j);
    if Comparison(s, i) {
      AdvancesWithin(s, i);
      var next := i + |OperatorAt(s, i)|;
      var ts := Tokens(s, i);
      assert ts[1..] == Tokens(s, next);
      if next <= j {
        LastTokenReaches(s, next, j);
        assert ts[|ts| - 1] == Tokens(s, next)[|ts| - 2];
      } else if |ts| > 1 {
        TokensAreComparisons(s, next, |ts| - 2);
        assert ts[|ts| - 1] == Tokens(s, next)[|ts| - 2];
      }
    } else {
      LastTokenReaches(s, i + 1, j);
    }
  }

  /** There is a token exactly when there is a comparison. */
  lemma TokenExactlyWhenComparison(s: string)
    ensures Tokens(s, 0) != [] <==> exists i: nat :: Comparison(s, i)
  {
    if Tokens(s, 0) != [] {
      TokensAreComparisons(s, 0, 0);
    } else if i: nat :| Comparison(s, i) {
      LastTokenReaches(s, 0, i);
    }
  }

  // ---------------------------------------------------------------------
  // The scan
  // ---------------------------------------------------------------------

  function QuotingOf(quote: Option<char>): Quoting {
    if quote.None? then Out else In(quote.value)
  }

  /** The scanner's variables agree with the specification before character i. */
  predicate InStep(s: string, i: nat, depth: int, quote: Option<char>) {
    i <= |s| && DepthAt(s, i) == depth && (i < |s| ==> QuotingAt(s, i) == QuotingOf(quote))
  }

  /** Character i is neither quoted nor a quote nor a bracket. */
  predicate Plain(s: string, i: nat) {
    i < |s| && Visible(s, i) && Weight(s[i]) == 0
  }

  /** The moves the scan makes over quoted text, quotes and brackets. */
  method Move(s: string, i: nat, depth: int, quote: Option<char>)
    returns (next: nat, newDepth: int, newQuote: Option<char>)
    requires i < |s| && InStep(s, i, depth, quote)
    ensures Plain(s, i) ==> next == i && newDepth == depth && newQuote == quote == None
    ensures !Plain(s, i) ==> i < next <= |s| && InStep(s, next, newDepth, newQuote)
    ensures !Plain(s, i) ==> next == i + 1 || (next == i + 2 && !Plain(s, i + 1))
  {
    var ch := s[i];
    next, newDepth, newQuote := i, depth, quote;
    if quote.Some? {
      if ch == '\\' && i + 1 < |s| {
        assert QuotingAt(s, i + 1) == Escaped(quote.value);
        next := i + 2;
        return;
      }
      if ch == quote.value {
        newQuote := None;
      }
      next := i + 1;
      return;
    }
    if IsQuote(ch) {
      newQuote, next := Some(ch), i + 1;
      return;
    }
    if Weight(ch) != 0 {
      newDepth, next := depth + Weight(ch), i + 1;
    }
  }

  lemma ComparisonIsPlain(s: string, i: nat)
    requires Comparison(s, i)
    ensures Plain(s, i)
  {
  }

  /** Stepping past a plain character, or past a whole operator. */
  lemma PlainInStep(s: string, i: nat, depth: int)
    requires Plain(s, i) && InStep(s, i, depth, None)
    ensures InStep(s, i + 1, depth, None)
    ensures Comparison(s, i) ==> InStep(s, i + |OperatorAt(s, i)|, depth, None)
  {
    assert QuotingAt(s, i + 1) == Out;
    if Comparison(s, i) && |OperatorAt(s, i)| == 2 {
      var op := OperatorAt(s, i);
      assert s[i + 1] == s[i..i + 2][1] == '=';
      assert Visible(s, i + 1);
    }
  }

  /** No token starts on characters that are not plain. */
  lemma TokensSkip(s: string, i: nat, next: nat)
    requires i < next <= |s| && !Plain(s, i) && (next == i + 1 || (next == i + 2 && !Plain(s, i + 1)))
    ensures Tokens(s, i) == Tokens(s, next)
  {
    hide Comparison, Plain;
    if Comparison(s, i) {
      ComparisonIsPlain(s, i);
    }
    if next == i + 2 && Comparison(s, i + 1) {
      ComparisonIsPlain(s, i + 1);
    }
  }

  /** All comparison tokens, collected in one scan. */
  method Scan(s: string) returns (matches: seq<Token>)
    ensures matches == Tokens(s, 0)
  {
    hide Comparison, Plain, InStep;
    matches := [];
    var i, depth, quote := 0, 0, None;
    StartInStep(s);
    while i < |s|
      invariant i <= |s| && InStep(s, i, depth, quote)
      invariant matches + Tokens(s, i) == Tokens(s, 0)
    {
      var next, newDepth, newQuote := Move(s, i, depth, quote);
      if next != i {
        TokensSkip(s, i, next);
        i, depth, quote := next, newDepth, newQuote;
        continue;
      }
      PlainInStep(s, i, depth);
      ComparisonHere(s, i, depth);
      var op := OperatorAt(s, i);
      if depth == 0 && op != [] {
        assert matches + ([Token(i, op)] + Tokens(s, i + |op|)) == matches + [Token(i, op)] + Tokens(s, i + |op|);
        matches := matches + [Token(i, op)];
        i := i + |op|;
      } else {
        i := i + 1;
      }
    }
    assert matches + [] == matches;
  }

  lemma StartInStep(s: string)
    ensures InStep(s, 0, 0, None)
  {
  }

  lemma ComparisonHere(s: string, i: nat, depth: int)
    requires Plain(s, i) && InStep(s, i, depth, None)
    ensures Comparison(s, i) <==> depth == 0 && OperatorAt(s, i) != []
  {
  }

  function Strip(s: string): string {
    Trim(s, IsSpace)
  }

  datatype Parts = Parts(lhs: string, op: string, rhs: string)

  /** `p` is a comparison, and no comparison starts after its operator ends. */
  ghost predicate LastComparison(s: string, p: nat) {
    Comparison(s, p) && forall j: nat :: Comparison(s, j) ==> j < p + |OperatorAt(s, p)|
  }

  /** The last token of the scan stands at `p`. */
  predicate IsLastToken(s: string, p: nat, op: string) {
    Tokens(s, 0) != [] && Tokens(s, 0)[|Tokens(s, 0)| - 1] == Token(p, op)
  }

  /** None exactly when the expression has no top-level comparison; otherwise the
      text is the two sides around the last token, which no comparison follows. */
  method SplitAtRightmost(s: string) returns (parts: Option<Parts>, ghost pos: nat)
    ensures parts.None? <==> forall i: nat :: !Comparison(s, i)
    ensures parts.Some? ==>
              && IsLastToken(s, pos, parts.value.op)
              && LastComparison(s, pos) && parts.value.op == OperatorAt(s, pos)
              && pos + |parts.value.op| <= |s|
              && s == s[..pos] + parts.value.op + s[pos + |parts.value.op|..]
              && parts.value.lhs == Strip(s[..pos])
              && parts.value.rhs == Strip(s[pos + |parts.value.op|..])
  {
    hide Comparison, OperatorAt, Strip;
    var matches := Scan(s);
    pos := 0;
    TokenExactlyWhenComparison(s);
    if |matches| == 0 {
      return None, 0;
    }
    var last := matches[|matches| - 1];
    TokensAreComparisons(s, 0, |matches| - 1);
    forall j: nat | Comparison(s, j) ensures j < last.pos + |last.op| {
      LastTokenReaches(s, 0, j);
    }
    pos := last.pos;
    OperatorText(s, last.pos);
    parts := Some(Parts(Strip(s[..last.pos]), last.op, Strip(s[last.pos + |last.op|..])));
  }

  lemma OperatorText(s: string, i: nat)
    requires Comparison(s, i)
    ensures var op := OperatorAt(s, i); i + |op| <= |s| && s == s[..i] + op + s[i + |op|..]
  {
  }

  // ---------------------------------------------------------------------
  // Set operators and thresholds
  // ---------------------------------------------------------------------

  predicate Keyword(s: string, i: nat, word: string) {
    StartsAt(s, i, word)
    && (i + |word| >= |s| || IsSpace(s[i + |word|]) || s[i + |word|] == '(' || s[i + |word|] == '{')
  }

  predicate AnyKeyword(s: string, i: nat) {
    Keyword(s, i, "and") || Keyword(s, i, "or") || Keyword(s, i, "unless")
  }

  /** A set operator stands at the top level, after whitespace at i or at the start. */
  predicate SetOperator(s: string, i: nat) {
    && Plain(s, i) && DepthAt(s, i) == 0 && (IsSpace(s[i]) || i == 0)
    && AnyKeyword(s, if IsSpace(s[i]) then i + 1 else i)
  }

  method HasTopLevelSetOp(s: string) returns (found: bool)
    ensures found <==> exists i: nat :: SetOperator(s, i)
    ensures found <==> exists p: nat :: SetWord(s, p) && Spaced(s, p)
  {
    hide AnyKeyword, InStep, Plain;
    var i, depth, quote := 0, 0, None;
    StartInStep(s);
    while i < |s|
      invariant i <= |s| && InStep(s, i, depth, quote)
      invariant forall j: nat :: j < i ==> !SetOperator(s, j)
    {
      var next, newDepth, newQuote := Move(s, i, depth, quote);
      if next != i {
        i, depth, quote := next, newDepth, newQuote;
        continue;
      }
      PlainInStep(s, i, depth);
      DepthHere(s, i, depth);
      if depth == 0 && (IsSpace(s[i]) || i == 0) {
        if AnyKeyword(s, if IsSpace(s[i]) then i + 1 else i) {
          assert SetOperator(s, i);
          FoundExactlyWhenSpaced(s);
          return true;
        }
      }
      i := i + 1;
    }
    PlainIsInside(s);
    FoundExactlyWhenSpaced(s);
    found := false;
  }

  predicate IsNameChar(c: char) {
    'a' <= c <= 'z' || 'A' <= c <= 'Z' || '0' <= c <= '9' || c == '_' || c == ':'
  }

  /** The whole word at i, not part of a longer name. */
  predicate WholeWord(s: string, i: nat, word: string) {
    && StartsAt(s, i, word) && (i == 0 || !IsNameChar(s[i - 1]))
    && (i + |word| >= |s| || !IsNameChar(s[i + |word|]))
  }

  /** `and`, `or` or `unless` appears at the top level. */
  predicate SetWord(s: string, i: nat) {
    && i < |s| && Visible(s, i) && DepthAt(s, i) == 0
    && (WholeWord(s, i, "and") || WholeWord(s, i, "or") || WholeWord(s, i, "unless"))
  }

  /** It opens the expression or follows whitespace, and ends it or is followed by
      whitespace or an opening `(` or `{`. */
  predicate Spaced(s: string, i: nat) {
    i <= |s| && (i == 0 || IsSpace(s[i - 1])) && AnyKeyword(s, i)
  }

  /** The scan finds exactly the set words that are spaced. */
  lemma FoundExactlyWhenSpaced(s: string)
    ensures (exists i: nat :: SetOperator(s, i)) <==> (exists p: nat :: SetWord(s, p) && Spaced(s, p))
  {
    if i: nat :| SetOperator(s, i) {
      var p := if IsSpace(s[i]) then i + 1 else i;
      SpacedIsSetWord(s, i, p);
      assert SetWord(s, p) && Spaced(s, p);
    }
    if p: nat :| SetWord(s, p) && Spaced(s, p) {
      var i := if p == 0 then 0 else p - 1;
      SpaceBefore(s, p);
      assert SetOperator(s, i);
    }
  }

  lemma SpacedIsSetWord(s: string, i: nat, p: nat)
    requires SetOperator(s, i) && p == if IsSpace(s[i]) then i + 1 else i
    ensures SetWord(s, p) && Spaced(s, p)
  {
    assert s[p] == 'a' || s[p] == 'o' || s[p] == 'u';
  }

  lemma SpaceIsPlain(c: char)
    requires IsSpace(c)
    ensures !IsQuote(c) && c != '\\' && Weight(c) == 0 && !IsNameChar(c)
  {
  }

  lemma LetterIsPlain(c: char)
    requires 'a' <= c <= 'z'
    ensures !IsQuote(c) && Weight(c) == 0 && !IsSpace(c)
  {
  }

  lemma SetWordIsLetter(s: string, p: nat)
    requires SetWord(s, p)
    ensures 'a' <= s[p] <= 'z'
  {
    hide DepthAt, Visible, IsNameChar;
    if WholeWord(s, p, "and") {
      assert s[p] == "and"[0];
    } else if WholeWord(s, p, "or") {
      assert s[p] == "or"[0];
    } else {
      assert s[p] == "unless"[0];
    }
  }

  lemma {:induction false} QuotedByAQuote(s: string, i: nat)
    requires i <= |s|
    ensures QuotingAt(s, i).Out? || IsQuote(QuotingAt(s, i).q)
  {
    if i > 0 {
      QuotedByAQuote(s, i - 1);
    }
  }

  lemma SpaceBefore(s: string, p: nat)
    requires SetWord(s, p) && Spaced(s, p)
    ensures p == 0 ==> Plain(s, 0) && !IsSpace(s[0])
    ensures p > 0 ==> Plain(s, p - 1) && DepthAt(s, p - 1) == 0
  {
    SetWordIsLetter(s, p);
    LetterIsPlain(s[p]);
    if p > 0 {
      SpaceIsPlain(s[p - 1]);
      QuotedByAQuote(s, p - 1);
      hide IsSpace, AnyKeyword, Weight, WholeWord;
      assert QuotingAt(s, p) == Advance(QuotingAt(s, p - 1), s[p - 1]);
    }
  }

  /** A set operator after a bracket, with no blank between. */
  const GLUED := "(a)or b>1"

  lemma GluedLayout()
    ensures |GLUED| == 9 && GLUED[3] == 'o' && GLUED[7] == '>'
    ensures forall i :: 0 <= i <= 8 ==> QuotingAt(GLUED, i) == Out
    ensures DepthAt(GLUED, 3) == 0 && DepthAt(GLUED, 7) == 0
  {
    var s := GLUED;
    assert !IsQuote(s[0]) && !IsQuote(s[1]) && !IsQuote(s[2]) && !IsQuote(s[3]);
    assert !IsQuote(s[4]) && !IsQuote(s[5]) && !IsQuote(s[6]) && !IsQuote(s[7]);
    hide IsQuote;
    assert QuotingAt(s, 0) == Out && QuotingAt(s, 1) == Out && QuotingAt(s, 2) == Out;
    assert QuotingAt(s, 3) == Out && QuotingAt(s, 4) == Out && QuotingAt(s, 5) == Out;
    assert QuotingAt(s, 6) == Out && QuotingAt(s, 7) == Out && QuotingAt(s, 8) == Out;
    hide QuotingAt;
    assert Weight(s[0]) == 1 && Weight(s[1]) == 0 && Weight(s[2]) == -1 && Weight(s[3]) == 0;
    assert Weight(s[4]) == 0 && Weight(s[5]) == 0 && Weight(s[6]) == 0;
    hide Weight;
    assert DepthAt(s, 1) == 1 && DepthAt(s, 2) == 1 && DepthAt(s, 3) == 0;
    assert DepthAt(s, 4) == 0 && DepthAt(s, 5) == 0 && DepthAt(s, 6) == 0;
  }

  lemma GluedHasNoSetOperator(i: nat)
    ensures !SetOperator(GLUED, i)
  {
    var s := GLUED;
    hide DepthAt, QuotingAt;
    if i < |s| && (IsSpace(s[i]) || i == 0) {
      assert i == 0 || i == 5;
      assert Weight(s[0]) == 1;
      assert s[6] == 'b';
    }
  }

  /** It is at the top level, the scan does not find it, and the expression is split
      at its comparison as if it were not compound. */
  lemma GluedOperatorIsMissed()
    ensures SetWord(GLUED, 3) && forall i: nat :: !SetOperator(GLUED, i)
    ensures IsLastToken(GLUED, 7, ">")
  {
    var s := GLUED;
    GluedLayout();
    assert SetWord(s, 3) by {
      hide QuotingAt, DepthAt;
      assert s[3..5] == "or";
    }
    forall i: nat ensures !SetOperator(s, i) {
      GluedHasNoSetOperator(i);
    }
    GluedToken();
  }

  lemma GluedComparison(i: nat)
    ensures Comparison(GLUED, i) <==> i == 7
    ensures OperatorAt(GLUED, 7) == ">"
  {
    var s := GLUED;
    GluedLayout();
    hide QuotingAt, DepthAt;
    assert s[7..8] == ">";
    if Comparison(s, i) {
      assert OperatorAt(s, i)[0] == s[i];
    }
  }

  /** The only comparison is the last token. */
  lemma OnlyComparisonIsLast(s: string, p: nat)
    requires forall i: nat :: Comparison(s, i) <==> i == p
    ensures IsLastToken(s, p, OperatorAt(s, p))
  {
    hide Comparison, Tokens, OperatorAt;
    assert Comparison(s, p);
    LastTokenReaches(s, 0, p);
    TokensAreComparisons(s, 0, |Tokens(s, 0)| - 1);
  }

  lemma GluedToken()
    ensures IsLastToken(GLUED, 7, ">")
  {
    hide Comparison, Tokens, OperatorAt, IsLastToken;
    forall i: nat ensures Comparison(GLUED, i) <==> i == 7 {
      GluedComparison(i);
    }
    GluedComparison(7);
    OnlyComparisonIsLast(GLUED, 7);
  }

  /** Neither a quote nor a bracket. */
  predicate Ordinary(c: char) {
    c !in {'"', '\'', '(', ')', '[', ']', '{', '}'}
  }

  /** Over ordinary characters outside quotes nothing changes. */
  lemma {:induction false} OrdinaryStretch(s: string, i: nat, j: nat)
    requires i <= j <= |s| && QuotingAt(s, i) == Out && forall k :: i <= k < j ==> Ordinary(s[k])
    ensures QuotingAt(s, j) == Out && DepthAt(s, j) == DepthAt(s, i)
    decreases j
  {
    if i < j {
      OrdinaryStretch(s, i, j - 1);
      assert Ordinary(s[j - 1]);
      OrdinaryIsPlain(s[j - 1]);
    }
  }

  lemma OrdinaryIsPlain(c: char)
    requires Ordinary(c)
    ensures !IsQuote(c) && Weight(c) == 0
  {
  }

  /** After ordinary text a comparison operator is a comparison. */
  lemma BareOperatorCompares(s: string, i: nat)
    requires i < |s| && OperatorAt(s, i) != [] && forall k :: 0 <= k < i ==> Ordinary(s[k])
    ensures Comparison(s, i)
  {
    OrdinaryStretch(s, 0, i);
  }

  /** Inside brackets of any of the three kinds nothing compares. */
  lemma BracketsHide(s: string, i: nat)
    requires |s| >= 2 && 0 < i < |s| - 1
    requires s[0] in {'(', '[', '{'} && forall k :: 0 < k < |s| - 1 ==> Ordinary(s[k])
    ensures !Comparison(s, i)
  {
    assert QuotingAt(s, 1) == Advance(QuotingAt(s, 0), s[0]) && DepthAt(s, 1) == 1;
    OrdinaryStretch(s, 1, i);
  }

  /** Inside quotes of either kind nothing compares. */
  lemma {:induction false} QuotesHide(s: string, i: nat)
    requires |s| >= 2 && 0 < i < |s| - 1
    requires s[0] in {'"', '\''} && forall k :: 0 < k < |s| - 1 ==> s[k] != s[0] && s[k] != '\\'
    ensures QuotingAt(s, i) == In(s[0]) && !Comparison(s, i)
    decreases i
  {
    if i == 1 {
      assert QuotingAt(s, 1) == Advance(QuotingAt(s, 0), s[0]);
    } else {
      QuotesHide(s, i - 1);
    }
  }

  lemma DepthHere(s: string, i: nat, depth: int)
    requires InStep(s, i, depth, None)
    ensures DepthAt(s, i) == depth
  {
  }

  lemma PlainIsInside(s: string)
    ensures forall j: nat :: Plain(s, j) ==> j < |s|
  {
  }

  predicate IsThresholdOp(op: string) {
    op == ">=" || op == "<=" || op == ">" || op == "<"
  }

  datatype Threshold = Threshold(panel: string, op: string, value: Option<real>)

  /** A threshold is read only from the last comparison of an expression without
      top-level set operators, when its operator orders and its right side is a
      number; in every other case the panel shows the whole expression. */
  method ParseThreshold(s: string, number: string -> Option<real>) returns (t: Threshold, ghost pos: nat)
    ensures t.value.Some? ==>
              && (forall i: nat :: !SetOperator(s, i)) && IsLastToken(s, pos, t.op) && LastComparison(s, pos)
              && t.op == OperatorAt(s, pos) && IsThresholdOp(t.op) && pos + |t.op| <= |s|
              && t.panel == Strip(s[..pos]) && t.value == number(Strip(Strip(s[pos + |t.op|..])))
    ensures t.value.Some? ==> t.op in {">=", "<=", ">", "<"}
    ensures t.value.None? ==> t == Threshold(s, "", None)
    ensures t.value.None? ==>
              || (exists i: nat :: SetOperator(s, i))
              || (forall i: nat :: !Comparison(s, i))
              || (IsLastToken(s, pos, OperatorAt(s, pos)) && LastComparison(s, pos) && pos + |OperatorAt(s, pos)| <= |s|
                  && (!IsThresholdOp(OperatorAt(s, pos)) || number(Strip(Strip(s[pos + |OperatorAt(s, pos)|..]))).None?))
  {
    hide SetOperator, Comparison, OperatorAt, Strip;
    var compound := HasTopLevelSetOp(s);
    pos := 0;
    if compound {
      return Threshold(s, "", None), 0;
    }
    var parts, p := SplitAtRightmost(s);
    pos := p;
    if parts.None? {
      return Threshold(s, "", None), p;
    }
    if !IsThresholdOp(parts.value.op) {
      return Threshold(s, "", None), p;
    }
    var v := number(Strip(parts.value.rhs));
    if v.None? {
      return Threshold(s, "", None), p;
    }
    t := Threshold(parts.value.lhs, parts.value.op, v);
  }
}
