/**
 The two bracket matchers that run over the tokens of the lexer, and where they part ways.  The
 forward one lexes the whole text; the backward one lexes the text up to the closing bracket.
 */
module TokenDelimiters {
  import opened Wrappers
  import opened LexerModel
  import opened LexerTheorems
  import opened LexerContext
  import opened LexerMachine
  import opened LexerPrefix
  import opened Lexer
  import D = Delimiters
  import DelimiterLaws

  /** What the forward scan goes by: the punctuation tokens of one character. */
  function CodeOf(ts: seq<Token>): string {
    seq(|ts|, i requires 0 <= i < |ts| =>
      if ts[i].kind == Punctuation && |ts[i].value| == 1 then ts[i].value[0] else 'x')
  }

  predicate SkippedBackward(kind: Kind) {
    kind == Comment || kind == Str || kind == Kind.Template || kind == StaticTemplate
  }

  /** What the backward scan goes by: every token of one character, unless it is skipped. */
  function ScannedOf(ts: seq<Token>): string {
    seq(|ts|, i requires 0 <= i < |ts| =>
      if !SkippedBackward(ts[i].kind) && |ts[i].value| == 1 then ts[i].value[0] else 'x')
  }

  predicate SameBracket(a: char, b: char) {
    D.OpenerKind(a) == D.OpenerKind(b) && D.CloserKind(a) == D.CloserKind(b)
  }

  /** The scans see the same brackets, except where a substitution ends. */
  predicate Parallel(ts: seq<Token>, code: string, scanned: string) {
    && |code| == |scanned| == |ts|
    && forall i | 0 <= i < |ts| ::
         if ts[i].kind == ExpressionEnd then
           scanned[i] == '}' && D.OpenerKind(code[i]).None? && D.CloserKind(code[i]).None?
         else SameBracket(code[i], scanned[i])
  }

  lemma OneCharacterToken(u: Alphabet, text: string, t: Token)
    requires TokenOk(u, text, t) && |t.value| == 1 && !SkippedBackward(t.kind)
    requires t.kind != Punctuation && t.kind != ExpressionEnd
    ensures D.OpenerKind(t.value[0]).None? && D.CloserKind(t.value[0]).None?
  {
    match t.kind
    case Identifier => assert t.value[0] == Name(t)[0];
      SpelledIsWord(u, text, t.start, t.end, t.value);
    case Number =>
    case PrivateIdentifier =>
    case Regex =>
    case JsxIntrinsic =>
  }

  lemma SpelledIsWord(u: Alphabet, text: string, a: nat, b: nat, name: string)
    requires Spells(u, text, a, b, name) && name != []
    ensures IsWord(u, name[0])
  {
  }

  lemma TokensAreParallel(u: Alphabet, text: string, ts: seq<Token>)
    requires forall i | 0 <= i < |ts| :: TokenOk(u, text, ts[i])
    ensures Parallel(ts, CodeOf(ts), ScannedOf(ts))
  {
    forall i | 0 <= i < |ts|
      ensures if ts[i].kind == ExpressionEnd then
                ScannedOf(ts)[i] == '}' && D.OpenerKind(CodeOf(ts)[i]).None? && D.CloserKind(CodeOf(ts)[i]).None?
              else SameBracket(CodeOf(ts)[i], ScannedOf(ts)[i])
    {
      var t := ts[i];
      assert TokenOk(u, text, t);
      if t.kind != Punctuation && t.kind != ExpressionEnd && |t.value| == 1 && !SkippedBackward(t.kind) {
        OneCharacterToken(u, text, t);
      }
    }
  }

  // ---- The backward scan over well-nested code ----

  /** How many substitutions end among the tokens from `i` to `j`. */
  function Ends(ts: seq<Token>, i: nat, j: nat): nat
    requires i <= j <= |ts|
    decreases j - i
  {
    if i == j then 0 else Ends(ts, i, j - 1) + if ts[j - 1].kind == ExpressionEnd then 1 else 0
  }

  lemma {:induction false} EndsSplit(ts: seq<Token>, i: nat, m: nat, j: nat)
    requires i <= m <= j <= |ts|
    ensures Ends(ts, i, j) == Ends(ts, i, m) + Ends(ts, m, j)
    decreases j - m
  {
    if m < j {
      EndsSplit(ts, i, m, j - 1);
    }
  }

  lemma {:induction false} NoEndsIff(ts: seq<Token>, i: nat, j: nat)
    requires i <= j <= |ts|
    ensures Ends(ts, i, j) == 0 <==> forall m | i <= m < j :: ts[m].kind != ExpressionEnd
    decreases j - i
  {
    if i < j {
      NoEndsIff(ts, i, j - 1);
    }
  }

  /** A closing brace that the scan counts: all of them ends of substitutions, for braces only. */
  function Surplus(ts: seq<Token>, k: D.Bracket, i: nat, j: nat): nat
    requires i <= j <= |ts|
  {
    if k == D.Curly then Ends(ts, i, j) else 0
  }

  /** Scanning back from `j` to `i` adds to the depth what the substitution ends there amount to. */
  ghost predicate Counts(ts: seq<Token>, s: string, k: D.Bracket, i: nat, j: nat, depth: int)
    requires i <= j <= |ts| == |s|
  {
    D.Backward(s, k, j, depth) == D.Backward(s, k, i, depth + Surplus(ts, k, i, j))
  }

  lemma CountsCompose(ts: seq<Token>, s: string, k: D.Bracket, i: nat, m: nat, j: nat, depth: int)
    requires i <= m <= j <= |ts| == |s|
    requires Counts(ts, s, k, m, j, depth) && Counts(ts, s, k, i, m, depth + Surplus(ts, k, m, j))
    ensures Counts(ts, s, k, i, j, depth)
  {
    EndsSplit(ts, i, m, j);
  }

  /** Over well-nested code every scan counts. */
  lemma {:induction false} BackwardCounts(
    ts: seq<Token>, code: string, s: string, k: D.Bracket, i: nat, j: nat, depth: int, forest: seq<D.Tree>)
    requires Parallel(ts, code, s) && D.PlainForest(forest) && D.Occurs(code, i, D.Flatten(forest)) && depth >= 1
    requires j == i + |D.Flatten(forest)|
    ensures Counts(ts, s, k, i, j, depth)
    decreases forest, 1
  {
    if forest != [] {
      D.OccursParts(code, i, D.FlattenTree(forest[0]), D.Flatten(forest[1..]));
      var m := i + |D.FlattenTree(forest[0])|;
      BackwardCounts(ts, code, s, k, m, j, depth, forest[1..]);
      BackwardCountsTree(ts, code, s, k, i, m, depth + Surplus(ts, k, m, j), forest[0]);
      CountsCompose(ts, s, k, i, m, j, depth);
    }
  }

  lemma {:induction false} BackwardCountsTree(
    ts: seq<Token>, code: string, s: string, k: D.Bracket, i: nat, j: nat, depth: int, t: D.Tree)
    requires Parallel(ts, code, s) && D.PlainTree(t) && D.Occurs(code, i, D.FlattenTree(t)) && depth >= 1
    requires j == i + |D.FlattenTree(t)|
    ensures Counts(ts, s, k, i, j, depth)
    decreases t, 0
  {
    match t
    case Leaf(c) =>
      assert code[i..i + 1] == [c];
      LeafCounts(ts, code, s, k, i, depth, c);
    case Group(kind, inner) =>
      D.GroupParts(code, i, kind, inner);
      BackwardCounts(ts, code, s, k, i + 1, j - 1, if kind == k then depth + 1 else depth, inner);
      GroupCounts(ts, code, s, k, i, j, depth, kind);
  }

  lemma LeafCounts(ts: seq<Token>, code: string, s: string, k: D.Bracket, i: nat, depth: int, c: char)
    requires Parallel(ts, code, s) && i < |code| && code[i..i + 1] == [c] && depth >= 1
    requires D.OpenerKind(c).None? && D.CloserKind(c).None?
    ensures Counts(ts, s, k, i, i + 1, depth)
  {
    assert code[i] == c;
    assert Ends(ts, i, i) == 0;
  }

  lemma GroupCounts(
    ts: seq<Token>, code: string, s: string, k: D.Bracket, i: nat, j: nat, depth: int, kind: D.Bracket)
    requires Parallel(ts, code, s) && i + 2 <= j <= |code| && depth >= 1
    requires code[i] == D.Opener(kind) && code[j - 1] == D.Closer(kind)
    requires Counts(ts, s, k, i + 1, j - 1, if kind == k then depth + 1 else depth)
    ensures Counts(ts, s, k, i, j, depth)
  {
    BracketIsNoEnd(ts, code, s, i);
    BracketIsNoEnd(ts, code, s, j - 1);
    EndsOfGroup(ts, i, j);
  }

  lemma EndsOfGroup(ts: seq<Token>, i: nat, j: nat)
    requires i + 2 <= j <= |ts| && ts[i].kind != ExpressionEnd && ts[j - 1].kind != ExpressionEnd
    ensures Ends(ts, i, j) == Ends(ts, i + 1, j - 1)
  {
    EndsSplit(ts, i, i + 1, j - 1);
    assert Ends(ts, i, i + 1) == Ends(ts, i, i) == 0;
  }

  lemma BracketIsNoEnd(ts: seq<Token>, code: string, s: string, i: nat)
    requires Parallel(ts, code, s) && i < |ts| && (D.OpenerKind(code[i]).Some? || D.CloserKind(code[i]).Some?)
    ensures ts[i].kind != ExpressionEnd && SameBracket(code[i], s[i])
  {
  }

  /**
   The backward scan finds the opener of a pair exactly when the pair is not a block with a template
   substitution inside: the end of a substitution counts as a closing brace, its start does not
   count as an opening one.  Otherwise it names an opener further out, if any.
   */
  lemma BackwardFindsOpenerIff(ts: seq<Token>, code: string, s: string, open: nat, close: nat)
    requires Parallel(ts, code, s) && D.IsPair(code, open, close)
    ensures var k, r := D.OpenerKind(code[open]).value, D.Backward(s, D.OpenerKind(code[open]).value, close + 1, 0);
            && (r == Some(open) <==> k != D.Curly || forall m | open < m < close :: ts[m].kind != ExpressionEnd)
            && (r.Some? ==> r.value <= open)
  {
    var k := D.OpenerKind(code[open]).value;
    var forest :| D.PlainForest(forest) && D.Flatten(forest) == code[open + 1..close];
    assert D.Occurs(code, open + 1, D.Flatten(forest));
    BracketIsNoEnd(ts, code, s, open);
    BracketIsNoEnd(ts, code, s, close);
    assert s[open] == D.Opener(k) && s[close] == D.Closer(k);
    BackwardCounts(ts, code, s, k, open + 1, close, 1, forest);
    NoEndsIff(ts, open + 1, close);
    DelimiterLaws.BackwardIsBehind(s, k, open, Surplus(ts, k, open + 1, close));
  }

  // ---- The scanners ----

  /** `o` is the punctuation token at `index`: none before it starts there, none after it before. */
  predicate OpensAt(ts: seq<Token>, index: nat, o: nat) {
    && o < |ts| && ts[o].kind == Punctuation && ts[o].start == index
    && (forall i | 0 <= i < o :: ts[i].start < index || ts[i].kind != Punctuation)
    && (forall i | o <= i < |ts| :: index <= ts[i].start)
  }

  lemma TilesOpenAt(u: Alphabet, text: string, ts: seq<Token>, end: nat, o: nat)
    requires Tiles(u, text, ts, end) && o < |ts| && ts[o].kind == Punctuation
    ensures OpensAt(ts, ts[o].start, o)
  {
    forall i: nat | i < o && ts[i].kind == Punctuation ensures ts[i].start < ts[i].end {
      TileIsWellFormed(u, text, ts, end, i);
      PunctuationHasLength(u, text, ts[i]);
    }
    TilesAreOrdered(u, text, ts, end);
    OrderedOpenAt(ts, end, o);
  }

  lemma PunctuationHasLength(u: Alphabet, text: string, t: Token)
    requires TokenOk(u, text, t) && t.kind == Punctuation
    ensures t.start < t.end
  {
  }

  lemma OrderedOpenAt(ts: seq<Token>, end: nat, o: nat)
    requires o < |ts| && ts[o].kind == Punctuation && forall i | 0 <= i < |ts| :: Spanned(ts[i], end)
    requires forall i, j | 0 <= i < j < |ts| :: ts[i].end <= ts[j].start
    requires forall i | 0 <= i < o && ts[i].kind == Punctuation :: ts[i].start < ts[i].end
    ensures OpensAt(ts, ts[o].start, o)
  {
    assert Spanned(ts[o], end);
  }

  function EndAt(ts: seq<Token>, i: Option<nat>): Option<nat> {
    if i.Some? && 0 < i.value <= |ts| then Some(ts[i.value - 1].end) else None
  }

  function StartAt(ts: seq<Token>, i: Option<nat>): Option<nat> {
    if i.Some? && i.value < |ts| then Some(ts[i.value].start) else None
  }

  /** The scan over the tokens from the one at `index` on. */
  method MatchingTokenEnd(ts: seq<Token>, index: nat, k: D.Bracket) returns (r: Option<nat>)
    ensures forall o {:trigger OpensAt(ts, index, o)} | OpensAt(ts, index, o) :: r == EndAt(ts, D.Single(CodeOf(ts), k, o, 0))
    ensures forall o: nat, c: nat {:trigger OpensAt(ts, index, o), D.IsPair(CodeOf(ts), o, c)}
              | OpensAt(ts, index, o) && D.IsPair(CodeOf(ts), o, c) && D.OpenerKind(CodeOf(ts)[o]) == Some(k) ::
              r == Some(ts[c].end)
  {
    ghost var code := CodeOf(ts);
    forall o: nat, c: nat | D.IsPair(code, o, c) && D.OpenerKind(code[o]) == Some(k)
      ensures D.Single(code, k, o, 0) == Some(c + 1)
    {
      D.MatchersAgree(code, o, c, |ts|);
    }
    var depth: int := 0;
    for i: nat := 0 to |ts|
      invariant forall o {:trigger OpensAt(ts, index, o)} | OpensAt(ts, index, o) ::
                  if i <= o then depth == 0 else D.Single(code, k, o, 0) == D.Single(code, k, i, depth)
    {
      var t := ts[i];
      if t.start < index || t.kind != Punctuation {
        continue;
      }
      if t.value == [D.Opener(k)] {
        depth := depth + 1;
      } else if t.value == [D.Closer(k)] {
        depth := depth - 1;
        if depth == 0 {
          return Some(t.end);
        }
      }
    }
    return None;
  }

  lemma PairOpensAt(u: Alphabet, text: string, ts: seq<Token>, end: nat, open: nat, close: nat)
    requires Tiles(u, text, ts, end) && D.IsPair(CodeOf(ts), open, close)
    ensures OpensAt(ts, ts[open].start, open)
  {
    TilesOpenAt(u, text, ts, end, open);
  }

  /** What the scan from `index` names for a text with these tokens: the end of every pair there. */
  ghost predicate NamesEnds(ts: seq<Token>, index: nat, k: D.Bracket, r: Option<nat>) {
    forall o: nat, c: nat {:trigger D.IsPair(CodeOf(ts), o, c)}
      | D.IsPair(CodeOf(ts), o, c) && ts[o].start == index && D.OpenerKind(CodeOf(ts)[o]) == Some(k) :: r == Some(ts[c].end)
  }

  /** `_matching_js_delimiter_end`. */
  method MatchingEnd(u: Alphabet, text: string, index: nat, k: D.Bracket) returns (r: Result<Option<nat>, LexError>)
    ensures Lex(u, text).Failure? ==> r == Failure(Lex(u, text).error)
    ensures Lex(u, text).Success? ==> r.Success? && NamesEnds(Lex(u, text).value, index, k, r.value)
  {
    var scanner := new Scanner(u, text);
    var ts :- scanner.Tokens();
    ghost var end :| |text| <= end && Tiles(u, text, ts, end);
    var found := MatchingTokenEnd(ts, index, k);
    forall o: nat, c: nat {:trigger D.IsPair(CodeOf(ts), o, c)}
      | D.IsPair(CodeOf(ts), o, c) && ts[o].start == index && D.OpenerKind(CodeOf(ts)[o]) == Some(k)
      ensures found == Some(ts[c].end)
    {
      PairOpensAt(u, text, ts, end, o, c);
    }
    return Success(found);
  }

  /** The scan back over the tokens up to a closing bracket. */
  method MatchingOpenToken(ts: seq<Token>, k: D.Bracket) returns (r: Option<nat>)
    ensures r == StartAt(ts, D.Backward(ScannedOf(ts), k, |ts|, 0))
  {
    ghost var scanned := ScannedOf(ts);
    var depth: int := 0;
    var i: nat := |ts|;
    while i > 0
      invariant i <= |ts| && D.Backward(scanned, k, |ts|, 0) == D.Backward(scanned, k, i, depth)
    {
      i := i - 1;
      if SkippedBackward(ts[i].kind) {
        continue;
      }
      if ts[i].value == [D.Closer(k)] {
        depth := depth + 1;
      } else if ts[i].value == [D.Opener(k)] {
        depth := depth - 1;
        if depth == 0 {
          return Some(ts[i].start);
        }
      }
    }
    return None;
  }

  /** The opener of the closing bracket at `at`, going by the tokens of the text up to there. */
  ghost function OpenIndex(u: Alphabet, text: string, at: nat): Result<Option<nat>, LexError>
    requires at < |text|
  {
    var kind := D.CloserKind(text[at]);
    if kind.None? then Success(None)
    else
      var ts :- Lex(u, text[..at + 1]);
      Success(StartAt(ts, D.Backward(ScannedOf(ts), kind.value, |ts|, 0)))
  }

  /** `_matching_open_js_delimiter_index`. */
  method MatchingOpenIndex(u: Alphabet, text: string, at: nat) returns (r: Result<Option<nat>, LexError>)
    requires at < |text|
    ensures r == OpenIndex(u, text, at)
  {
    var kind := D.CloserKind(text[at]);
    if kind.None? {
      return Success(None);
    }
    var scanner := new Scanner(u, text[..at + 1]);
    var ts :- scanner.Tokens();
    var start := MatchingOpenToken(ts, kind.value);
    return Success(start);
  }

  // ---- When the two agree ----

  /** The closing bracket of a pair of tokens, as the lexer of the cut text meets it. */
  lemma CloserIsClosing(u: Alphabet, text: string, ts: seq<Token>, close: nat)
    requires close < |ts| && TokenOk(u, text, ts[close]) && D.CloserKind(CodeOf(ts)[close]).Some?
    ensures IsClosing(text, ts[close]) && ts[close].kind == Punctuation
    ensures D.CloserKind(text[ts[close].start]) == D.CloserKind(CodeOf(ts)[close])
  {
    var t := ts[close];
    assert text[t.start..t.end][0] == t.value[0];
  }

  lemma {:induction false} BackwardOfPrefix(s: string, k: D.Bracket, n: nat, i: nat, depth: int)
    requires i <= n <= |s|
    ensures D.Backward(s[..n], k, i, depth) == D.Backward(s, k, i, depth)
    decreases i
  {
    if i > 0 {
      BackwardOfPrefix(s, k, n, i - 1, depth + 1);
      BackwardOfPrefix(s, k, n, i - 1, depth - 1);
      BackwardOfPrefix(s, k, n, i - 1, depth);
    }
  }

  lemma CutScans(ts: seq<Token>, k: D.Bracket, close: nat)
    requires close < |ts|
    ensures StartAt(ts[..close + 1], D.Backward(ScannedOf(ts[..close + 1]), k, close + 1, 0)) ==
            StartAt(ts, D.Backward(ScannedOf(ts), k, close + 1, 0))
  {
    var n: nat := close + 1;
    assert ScannedOf(ts[..n]) == ScannedOf(ts)[..n];
    BackwardOfPrefix(ScannedOf(ts), k, n, n, 0);
    DelimiterLaws.BackwardIsBehind(ScannedOf(ts), k, n, 0);
  }

  lemma OpenIndexOfLexed(u: Alphabet, text: string, at: nat, k: D.Bracket)
    requires at < |text| && D.CloserKind(text[at]) == Some(k)
    ensures var cut := Lex(u, text[..at + 1]);
            OpenIndex(u, text, at) ==
            if cut.Failure? then Failure(cut.error)
            else Success(StartAt(cut.value, D.Backward(ScannedOf(cut.value), k, |cut.value|, 0)))
  {
  }

  /** Outside every substitution the scan of the cut text is the scan of all tokens from the closer back. */
  lemma OpenIndexScans(u: Alphabet, text: string, ts: seq<Token>, k: D.Bracket, close: nat)
    requires Lex(u, text) == Success(ts) && close < |ts| && TokenOk(u, text, ts[close])
    requires D.CloserKind(CodeOf(ts)[close]) == Some(k)
    ensures ts[close].start < |text|
    ensures OpenIndex(u, text, ts[close].start) ==
            if Outer(LevelsOf(ts[..close + 1])) == [] then
              Success(StartAt(ts, D.Backward(ScannedOf(ts), k, close + 1, 0)))
            else Failure(UnterminatedExpression)
  {
    CloserIsClosing(u, text, ts, close);
    CutLexes(u, text, ts, close);
    CutScans(ts, k, close);
    OpenIndexOfLexed(u, text, ts[close].start, k);
  }

  /** Two tokens of which one is punctuation start apart. */
  lemma StartsApart(u: Alphabet, text: string, ts: seq<Token>, end: nat, k: D.Bracket, close: nat, open: nat, i: nat)
    requires Tiles(u, text, ts, end) && close < |ts|
    requires D.Backward(ScannedOf(ts), k, close + 1, 0) == Some(i) && i < open < |ts|
    ensures ts[i].start < ts[open].start
  {
    TilesAreWellFormed(u, text, ts, end);
    TokensAreParallel(u, text, ts);
    DelimiterLaws.BackwardNamesOpener(ScannedOf(ts), k, close + 1, 0);
    TileIsWellFormed(u, text, ts, end, i);
    PunctuationHasLength(u, text, ts[i]);
    TilesAreOrdered(u, text, ts, end);
  }

  /** No substitution ends between the two brackets of a pair of braces. */
  predicate NoEndInside(ts: seq<Token>, open: nat, close: nat)
    requires open < close < |ts|
  {
    D.OpenerKind(CodeOf(ts)[open]) == Some(D.Curly) ==> forall m | open < m < close :: ts[m].kind != ExpressionEnd
  }

  ghost predicate FindsOpener(u: Alphabet, text: string, ts: seq<Token>, open: nat, close: nat)
    requires open < close < |ts|
  {
    ts[close].start < |text| && OpenIndex(u, text, ts[close].start) == Success(Some(ts[open].start))
  }

  lemma NoEndAnywhere(ts: seq<Token>, open: nat, close: nat)
    requires open < close < |ts| && HoldsNoEnd(ts)
    ensures NoEndInside(ts, open, close)
  {
  }

  lemma BackwardStartsAt(u: Alphabet, text: string, ts: seq<Token>, end: nat, open: nat, close: nat)
    requires Tiles(u, text, ts, end) && D.IsPair(CodeOf(ts), open, close)
    ensures var k := D.OpenerKind(CodeOf(ts)[open]).value;
            StartAt(ts, D.Backward(ScannedOf(ts), k, close + 1, 0)) == Some(ts[open].start) <==> NoEndInside(ts, open, close)
  {
    var k := D.OpenerKind(CodeOf(ts)[open]).value;
    TilesAreWellFormed(u, text, ts, end);
    TokensAreParallel(u, text, ts);
    BackwardFindsOpenerIff(ts, CodeOf(ts), ScannedOf(ts), open, close);
    var r := D.Backward(ScannedOf(ts), k, close + 1, 0);
    if r.Some? && r.value < open {
      StartsApart(u, text, ts, end, k, close, open, r.value);
    }
  }

  lemma OpenIndexOfPair(u: Alphabet, text: string, ts: seq<Token>, end: nat, open: nat, close: nat)
    requires Lex(u, text) == Success(ts) && Tiles(u, text, ts, end) && D.IsPair(CodeOf(ts), open, close)
    ensures var k := D.OpenerKind(CodeOf(ts)[open]).value;
            && ts[close].start < |text|
            && OpenIndex(u, text, ts[close].start) ==
               if Outer(LevelsOf(ts[..close + 1])) == [] then
                 Success(StartAt(ts, D.Backward(ScannedOf(ts), k, close + 1, 0)))
               else Failure(UnterminatedExpression)
  {
    TileIsWellFormed(u, text, ts, end, close);
    OpenIndexScans(u, text, ts, D.OpenerKind(CodeOf(ts)[open]).value, close);
  }

  lemma FindsOpenerIff(u: Alphabet, text: string, ts: seq<Token>, end: nat, open: nat, close: nat)
    requires Lex(u, text) == Success(ts) && Tiles(u, text, ts, end) && D.IsPair(CodeOf(ts), open, close)
    ensures FindsOpener(u, text, ts, open, close) <==>
            Outer(LevelsOf(ts[..close + 1])) == [] && NoEndInside(ts, open, close)
  {
    OpenIndexOfPair(u, text, ts, end, open, close);
    BackwardStartsAt(u, text, ts, end, open, close);
  }

  /**
   For the two brackets of a pair of tokens of an accepted text: the forward scan always finds the
   closing one.  The backward one fails exactly inside a template substitution, and outside finds
   the opening one exactly when no substitution ends inside a pair of braces.
   */
  lemma TokenScansAgreeIff(u: Alphabet, text: string, ts: seq<Token>, end: nat, open: nat, close: nat)
    requires Lex(u, text) == Success(ts) && Tiles(u, text, ts, end) && D.IsPair(CodeOf(ts), open, close)
    ensures var outside, at := Outer(LevelsOf(ts[..close + 1])) == [], ts[close].start;
            && at < |text|
            && (!outside ==> OpenIndex(u, text, at) == Failure(UnterminatedExpression))
            && (outside ==> OpenIndex(u, text, at).Success?)
            && (FindsOpener(u, text, ts, open, close) <==> outside && NoEndInside(ts, open, close))
  {
    OpenIndexOfPair(u, text, ts, end, open, close);
    FindsOpenerIff(u, text, ts, end, open, close);
  }

  /** Without substitutions the scans agree on every pair. */
  lemma PlainTokenScansAgree(u: Alphabet, text: string, ts: seq<Token>, end: nat, open: nat, close: nat)
    requires Lex(u, text) == Success(ts) && Tiles(u, text, ts, end) && HoldsNoEnd(ts)
    requires D.IsPair(CodeOf(ts), open, close)
    ensures FindsOpener(u, text, ts, open, close)
  {
    NoEndNoSubstitution(u, text, ts, close);
    NoEndAnywhere(ts, open, close);
    FindsOpenerIff(u, text, ts, end, open, close);
  }
}
