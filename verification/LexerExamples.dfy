/** Three short texts on which the backward matcher fails, names nothing, or meets a lost literal. */
module LexerExamples {
  import opened Wrappers
  import opened Text
  import opened LexerModel
  import opened LexerContext
  import opened LexerMachine
  import opened TokenDelimiters
  import D = Delimiters

  // ---- Steps over single characters ----

  lemma StartsWith(text: string, i: nat, s: string)
    requires s != [] && StartsAt(text, i, s)
    ensures text[i] == s[0]
  {
    assert text[i..i + |s|][0] == s[0];
  }

  lemma NoCommentHere(text: string, i: nat, has: bool)
    requires i < |text| && !IsBlank(text[i]) && text[i] !in {'/', '<', '-', '#'}
    ensures IsCode(text, i, has)
  {
    if StartsAt(text, i, "//") { StartsWith(text, i, "//"); }
    if StartsAt(text, i, "<!--") { StartsWith(text, i, "<!--"); }
    if StartsAt(text, i, "-->") { StartsWith(text, i, "-->"); }
    if StartsAt(text, i, "#!") { StartsWith(text, i, "#!"); }
    if StartsAt(text, i, "/*") { StartsWith(text, i, "/*"); }
  }

  predicate IsBracket(c: char) {
    D.OpenerKind(c).Some? || D.CloserKind(c).Some?
  }

  lemma BracketItem(u: Alphabet, text: string, i: nat, reading: Reading, tag: bool)
    requires i < |text| && IsBracket(text[i])
    ensures ItemAt(u, text, i, reading, tag) == Success(Token(Punctuation, [text[i]], i, i + 1))
  {
    assert Slice(text, i, i + 2)[0] == text[i];
  }

  /** A letter on its own is a name. */
  lemma LetterItem(u: Alphabet, text: string, i: nat, reading: Reading, tag: bool)
    requires i + 1 < |text| && IsLetter(text[i]) && text[i + 1] != '\\' && !IsWord(u, text[i + 1])
    ensures ItemAt(u, text, i, reading, tag) == Success(Token(Identifier, [text[i]], i, i + 1))
  {
    var c := text[i];
    assert NameFrom(u, text, i + 1, [c]) == Success(Some(([c], i + 1)));
    assert "" + [c] == [c];
    assert NameOn(u, text, i, "", c, i + 1) == NameFrom(u, text, i + 1, [c]);
    assert NameFrom(u, text, i, "") == NameOn(u, text, i, "", c, i + 1);
    assert WordAt(u, text, i) == Success(Token(Identifier, [c], i, i + 1));
  }

  lemma ItemGoes(
    run: Runner, u: Alphabet, text: string, i: nat, ts: seq<Token>, below: Below, depth: int, has: bool, t: Token)
    requires IsCode(text, i, has) && text[i] != '`' && !(text[i] == '}' && depth == 0 && below != [])
    requires ItemAt(u, text, i, ReadingAt(text, ts, i), ExpectsTag(text, ts, i)) == Success(t)
    ensures run(u, text, State(i, ts, Within(below, depth, has))) ==
            run(u, text, State(t.end, ts + [t], Within(below, Braces(depth, text[i]), true)))
  {
    CodeRuns(run, u, text, State(i, ts, Within(below, depth, has)), below, depth, has);
  }

  lemma BracketGoes(run: Runner, u: Alphabet, text: string, i: nat, ts: seq<Token>, below: Below, depth: int, has: bool)
    requires i < |text| && IsBracket(text[i]) && !(text[i] == '}' && depth == 0 && below != [])
    ensures run(u, text, State(i, ts, Within(below, depth, has))) ==
            run(u, text, State(i + 1, ts + [Token(Punctuation, [text[i]], i, i + 1)],
                               Within(below, Braces(depth, text[i]), true)))
  {
    NoCommentHere(text, i, has);
    BracketItem(u, text, i, ReadingAt(text, ts, i), ExpectsTag(text, ts, i));
    ItemGoes(run, u, text, i, ts, below, depth, has, Token(Punctuation, [text[i]], i, i + 1));
  }

  lemma LetterGoes(run: Runner, u: Alphabet, text: string, i: nat, ts: seq<Token>, below: Below, depth: int, has: bool)
    requires i + 1 < |text| && IsLetter(text[i]) && text[i + 1] != '\\' && !IsWord(u, text[i + 1])
    ensures run(u, text, State(i, ts, Within(below, depth, has))) ==
            run(u, text, State(i + 1, ts + [Token(Identifier, [text[i]], i, i + 1)], Within(below, depth, true)))
  {
    NoCommentHere(text, i, has);
    LetterItem(u, text, i, ReadingAt(text, ts, i), ExpectsTag(text, ts, i));
    ItemGoes(run, u, text, i, ts, below, depth, has, Token(Identifier, [text[i]], i, i + 1));
  }

  lemma TemplateGoes(run: Runner, u: Alphabet, text: string, i: nat, ts: seq<Token>, below: Below, depth: int, has: bool)
    requires i < |text| && text[i] == '`'
    ensures run(u, text, State(i, ts, Within(below, depth, has))) ==
            run(u, text, State(i, ts, Within(below, depth, true) + [Piece(false)]))
  {
    NoCommentHere(text, i, has);
    CodeRuns(run, u, text, State(i, ts, Within(below, depth, has)), below, depth, has);
  }

  /** A literal piece from `i` that stops at a substitution behind one character or none. */
  lemma PieceGoes(run: Runner, u: Alphabet, text: string, i: nat, ts: seq<Token>, below: Frames, interpolated: bool, end: nat)
    requires PieceEnd(text, if interpolated then i else i + 1) == Some(end) && i <= end && StartsAt(text, end, "${")
    ensures run(u, text, State(i, ts, below + [Piece(interpolated)])) ==
            run(u, text, State(end + 2, ts + [Sliced(Kind.Template, text, i, end)] + [Token(Punctuation, "${", end, end + 2)],
                               Within(below + [Piece(true)], 0, false)))
  {
    PieceOpensRuns(run, u, text, State(i, ts, below + [Piece(interpolated)]), below, interpolated,
                   Sliced(Kind.Template, text, i, end), Token(Punctuation, "${", end, end + 2));
  }

  // ---- A pair inside a substitution ----

  lemma CutSubstitution(run: Runner, u: Alphabet, text: string)
    requires text == "`${(a)"
    ensures run(u, text, State(0, [], Within([], 0, false))) == Failure(UnterminatedExpression)
  {
    var code := Within([], 0, true);
    TemplateGoes(run, u, text, 0, [], [], 0, false);
    assert text[1..3] == "${" && StartsAt(text, 1, "${");
    PieceGoes(run, u, text, 0, [], code, false, 1);
    var below: Below := code + [Piece(true)];
    var ts := [Sliced(Kind.Template, text, 0, 1)] + [Token(Punctuation, "${", 1, 3)];
    assert [] + [Sliced(Kind.Template, text, 0, 1)] + [Token(Punctuation, "${", 1, 3)] == ts;
    BracketGoes(run, u, text, 3, ts, below, 0, false);
    ts := ts + [Token(Punctuation, [text[3]], 3, 4)];
    LetterGoes(run, u, text, 4, ts, below, 0, true);
    ts := ts + [Token(Identifier, [text[4]], 4, 5)];
    BracketGoes(run, u, text, 5, ts, below, 0, true);
    ts := ts + [Token(Punctuation, [text[5]], 5, 6)];
    EndOfTextLeads(run, u, text, run(u, text, State(6, ts, Within(below, 0, true))), 6, ts, below, 0, true);
  }

  /** The round brackets of `${(a)}` in a template: the backward scan fails on them. */
  lemma PairInSubstitutionFails(u: Alphabet)
    ensures OpenIndex(u, "`${(a)}`", 5) == Failure(UnterminatedExpression)
  {
    var run: Runner := (u: Alphabet, text: string, s: State) => Run(u, text, s);
    assert "`${(a)}`"[..6] == "`${(a)";
    CutSubstitution(run, u, "`${(a)");
  }

  // ---- A block with a substitution inside ----

  /** The tokens of the text up to the end of the substitution. */
  function OpenedTokens(text: string): seq<Token>
    requires |text| == 8
  {
    [Token(Punctuation, [text[0]], 0, 1)] + [Sliced(Kind.Template, text, 1, 2)] + [Token(Punctuation, "${", 2, 4)]
    + [Token(Identifier, [text[4]], 4, 5)] + [Token(ExpressionEnd, "}", 5, 6)]
  }

  function BlockTokens(text: string): seq<Token>
    requires |text| == 8
  {
    OpenedTokens(text) + [Sliced(Kind.Template, text, 6, 7)] + [Token(Punctuation, [text[7]], 7, 8)]
  }

  lemma BlockOpens(run: Runner, u: Alphabet, text: string)
    requires text == "{`${a}`}"
    ensures run(u, text, State(0, [], Within([], 0, false))) ==
            run(u, text, State(6, OpenedTokens(text), Within([], 1, true) + [Piece(true)]))
  {
    var code := Within([], 1, true);
    BracketGoes(run, u, text, 0, [], [], 0, false);
    var ts := [Token(Punctuation, [text[0]], 0, 1)];
    assert [] + ts == ts;
    TemplateGoes(run, u, text, 1, ts, [], 1, true);
    assert text[2..4] == "${" && StartsAt(text, 2, "${");
    PieceGoes(run, u, text, 1, ts, code, false, 2);
    var below := code + [Piece(true)];
    ts := ts + [Sliced(Kind.Template, text, 1, 2)] + [Token(Punctuation, "${", 2, 4)];
    LetterGoes(run, u, text, 4, ts, below, 0, false);
    ts := ts + [Token(Identifier, [text[4]], 4, 5)];
    NoCommentHere(text, 5, true);
    var goal := run(u, text, State(5, ts, Within(below, 0, true)));
    EndLeads(run, u, text, goal, 5, ts, below, 0, true, Token(ExpressionEnd, "}", 5, 6));
  }

  lemma BlockCloses(run: Runner, u: Alphabet, text: string)
    requires text == "{`${a}`}"
    ensures run(u, text, State(6, OpenedTokens(text), Within([], 1, true) + [Piece(true)])) == Success(BlockTokens(text))
  {
    var code, ts := Within([], 1, true), OpenedTokens(text);
    LastPieceRuns(run, u, text, State(6, ts, code + [Piece(true)]), code, true, Sliced(Kind.Template, text, 6, 7), 6);
    ts := ts + [Sliced(Kind.Template, text, 6, 7)];
    BracketGoes(run, u, text, 7, ts, [], 1, true);
    ts := ts + [Token(Punctuation, [text[7]], 7, 8)];
    EndOfTextLeads(run, u, text, run(u, text, State(8, ts, Within([], 0, true))), 8, ts, [], 0, true);
  }

  lemma BlockScan(text: string)
    requires text == "{`${a}`}"
    ensures D.Backward(ScannedOf(BlockTokens(text)), D.Curly, |BlockTokens(text)|, 0) == None
  {
    var s := ScannedOf(BlockTokens(text));
    assert s == "{xxa}x}";
    assert D.Backward(s, D.Curly, 7, 0) == D.Backward(s, D.Curly, 5, 1) == D.Backward(s, D.Curly, 4, 2);
    assert D.Backward(s, D.Curly, 4, 2) == D.Backward(s, D.Curly, 1, 2) == None;
  }

  /** The braces around a template with a substitution: the backward scan finds no opener. */
  lemma BlockOpenerIsMissed(u: Alphabet)
    ensures OpenIndex(u, "{`${a}`}", 7) == Success(None)
  {
    var run: Runner := (u: Alphabet, text: string, s: State) => Run(u, text, s);
    var text := "{`${a}`}";
    assert text[..8] == text;
    BlockOpens(run, u, text);
    BlockCloses(run, u, text);
    BlockScan(text);
    OpenIndexOfLexed(u, text, 7, D.Curly);
  }
}
