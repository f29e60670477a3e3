/**
 A text whose scan view is not lexed in step: where the text has a tag over two lines, the view has
 a line that starts with an arrow, which is a comment there and swallows a backquote.
 */
module ViewExample {
  import opened Wrappers
  import opened Text
  import opened LexerModel
  import opened LexerContext
  import opened LexerMachine
  import opened LexerExamples
  import LexerPrefix
  import ViewScans
  import V = ScanView

  /** The text, and what becomes of its tag. */
  const SOURCE := "<a\n/>-->`\n`'${b}`//'"
  const SHOWN := "0 \n  -->`\n`'${b}`//'"

  // ---- The tokens of the text ----

  function CodeTokens(text: string): seq<Token> {
    [Sliced(JsxIntrinsic, text, 0, 5)] + [Token(Punctuation, "--", 5, 7)] + [Token(Punctuation, ">", 7, 8)]
  }

  function SourceTokens(text: string): seq<Token> {
    CodeTokens(text) + [Sliced(StaticTemplate, text, 8, 11)] + [Sliced(Str, text, 11, 20)]
  }

  lemma TagItem(u: Alphabet, text: string, reading: Reading)
    requires text == SOURCE
    ensures IsCode(text, 0, false) && ItemAt(u, text, 0, reading, true) == Success(Sliced(JsxIntrinsic, text, 0, 5))
  {
    assert text[0..2] == "<a" && text[0..3] == "<a\n" && text[0..4] == "<a\n/";
    assert TagEnd(text, 2) == 2 && SpaceEnd(text, 3) == 3 && SpaceEnd(text, 2) == 3;
    assert text[3..5] == "/>" && StartsAt(text, 3, "/>");
    assert IntrinsicEnd(text, 0) == Some(5);
    assert SpaceEnd(text, 1) == 1 && IsTagLike(u, text, 0);
  }

  lemma DashItem(u: Alphabet, text: string, reading: Reading, tag: bool)
    requires text == SOURCE
    ensures IsCode(text, 5, true) && ItemAt(u, text, 5, reading, tag) == Success(Token(Punctuation, "--", 5, 7))
  {
    assert text[5..7] == "--" && text[5..9] == "-->`";
    assert Slice(text, 5, 7) == "--";
  }

  lemma ArrowItem(u: Alphabet, text: string, reading: Reading, tag: bool)
    requires text == SOURCE
    ensures IsCode(text, 7, true) && ItemAt(u, text, 7, reading, tag) == Success(Token(Punctuation, ">", 7, 8))
  {
    NoCommentHere(text, 7, true);
    assert Slice(text, 7, 9) == ">`";
  }

  lemma QuoteItem(u: Alphabet, text: string, reading: Reading, tag: bool)
    requires text == SOURCE
    ensures IsCode(text, 11, true) && ItemAt(u, text, 11, reading, tag) == Success(Sliced(Str, text, 11, 20))
  {
    NoCommentHere(text, 11, true);
    assert StringEnd(text, 16, '\'') == StringEnd(text, 19, '\'') == Some(20);
    assert StringEnd(text, 12, '\'') == StringEnd(text, 16, '\'');
  }

  /** Code at `i` that is read as `t` whatever stands before it. */
  ghost predicate Reads(u: Alphabet, text: string, i: nat, has: bool, t: Token) {
    && IsCode(text, i, has) && text[i] !in {'`', '{', '}'}
    && forall reading, tag :: ItemAt(u, text, i, reading, tag) == Success(t)
  }

  lemma ReadsGoes(run: Runner, u: Alphabet, text: string, i: nat, was: seq<Token>, now: seq<Token>, has: bool, t: Token)
    requires Reads(u, text, i, has, t) && now == was + [t]
    ensures run(u, text, State(i, was, Within([], 0, has))) == run(u, text, State(t.end, now, Within([], 0, true)))
  {
    ItemGoes(run, u, text, i, was, [], 0, has, t);
  }

  lemma TagGoes(run: Runner, u: Alphabet, text: string, now: seq<Token>)
    requires text == SOURCE && now == [Sliced(JsxIntrinsic, text, 0, 5)]
    ensures run(u, text, State(0, [], Within([], 0, false))) == run(u, text, State(5, now, Within([], 0, true)))
  {
    TagItem(u, text, ReadingAt(text, [], 0));
    ItemGoes(run, u, text, 0, [], [], 0, false, now[0]);
    assert [] + now == now;
  }

  lemma DashReads(u: Alphabet, text: string)
    requires text == SOURCE
    ensures Reads(u, text, 5, true, Token(Punctuation, "--", 5, 7))
  {
    forall reading, tag ensures ItemAt(u, text, 5, reading, tag) == Success(Token(Punctuation, "--", 5, 7)) {
      DashItem(u, text, reading, tag);
    }
    DashItem(u, text, AsRegex, true);
  }

  lemma ArrowReads(u: Alphabet, text: string)
    requires text == SOURCE
    ensures Reads(u, text, 7, true, Token(Punctuation, ">", 7, 8))
  {
    forall reading, tag ensures ItemAt(u, text, 7, reading, tag) == Success(Token(Punctuation, ">", 7, 8)) {
      ArrowItem(u, text, reading, tag);
    }
    ArrowItem(u, text, AsRegex, true);
  }

  lemma QuoteReads(u: Alphabet, text: string)
    requires text == SOURCE
    ensures Reads(u, text, 11, true, Sliced(Str, text, 11, 20))
  {
    forall reading, tag ensures ItemAt(u, text, 11, reading, tag) == Success(Sliced(Str, text, 11, 20)) {
      QuoteItem(u, text, reading, tag);
    }
    QuoteItem(u, text, AsRegex, true);
  }

  lemma StaticGoes(run: Runner, u: Alphabet, text: string, i: nat, was: seq<Token>, now: seq<Token>, from: nat, end: nat, to: nat)
    requires i < |text| && text[i] == '`' && from == i + 1 && to == end + 1
    requires PieceEnd(text, from) == Some(end) && i <= end && text[end] == '`'
    requires now == was + [Sliced(StaticTemplate, text, i, to)]
    ensures run(u, text, State(i, was, Within([], 0, true))) == run(u, text, State(to, now, Within([], 0, true)))
  {
    var code := Within([], 0, true);
    TemplateGoes(run, u, text, i, was, [], 0, true);
    LastPieceRuns(run, u, text, State(i, was, code + [Piece(false)]), code, false, Sliced(StaticTemplate, text, i, to), end);
  }

  lemma MarksGo(run: Runner, u: Alphabet, text: string, ts: seq<Token>, dashes: Token, arrow: Token)
    requires Reads(u, text, 5, true, dashes) && Reads(u, text, 7, true, arrow) && dashes.end == 7 && arrow.end == 8
    ensures run(u, text, State(5, ts, Within([], 0, true))) ==
            run(u, text, State(8, ts + [dashes] + [arrow], Within([], 0, true)))
  {
    ReadsGoes(run, u, text, 5, ts, ts + [dashes], true, dashes);
    ReadsGoes(run, u, text, 7, ts + [dashes], ts + [dashes] + [arrow], true, arrow);
  }

  lemma LiteralsGo(run: Runner, u: Alphabet, text: string, ts: seq<Token>, quoted: Token)
    requires Reads(u, text, 11, true, quoted) && |text| == quoted.end
    requires text[8] == '`' && PieceEnd(text, 9) == Some(10) && text[10] == '`'
    ensures run(u, text, State(8, ts, Within([], 0, true))) ==
            Success(ts + [Sliced(StaticTemplate, text, 8, 11)] + [quoted])
  {
    var next := ts + [Sliced(StaticTemplate, text, 8, 11)];
    StaticGoes(run, u, text, 8, ts, next, 9, 10, 11);
    ReadsGoes(run, u, text, 11, next, next + [quoted], true, quoted);
    EndGoes(run, u, text, next + [quoted], quoted.end);
  }

  lemma EndGoes(run: Runner, u: Alphabet, text: string, ts: seq<Token>, end: nat)
    requires end == |text|
    ensures run(u, text, State(end, ts, Within([], 0, true))) == Success(ts)
  {
    EndOfTextLeads(run, u, text, run(u, text, State(end, ts, Within([], 0, true))), end, ts, [], 0, true);
  }

  lemma SourceTemplate(text: string)
    requires text == SOURCE
    ensures text[8] == '`' && PieceEnd(text, 9) == Some(10) && text[10] == '`'
  {
    assert PieceEnd(text, 9) == PieceEnd(text, 10);
  }

  lemma SourceRuns(run: Runner, u: Alphabet, text: string)
    requires text == SOURCE
    ensures run(u, text, State(0, [], Within([], 0, false))) == Success(SourceTokens(text))
  {
    TagGoes(run, u, text, [Sliced(JsxIntrinsic, text, 0, 5)]);
    DashReads(u, text);
    ArrowReads(u, text);
    QuoteReads(u, text);
    SourceTemplate(text);
    MarksGo(run, u, text, [Sliced(JsxIntrinsic, text, 0, 5)], Token(Punctuation, "--", 5, 7), Token(Punctuation, ">", 7, 8));
    LiteralsGo(run, u, text, CodeTokens(text), Sliced(Str, text, 11, 20));
  }

  // ---- The tokens of what it shows ----

  function ShownStart(text: string): seq<Token> {
    [Sliced(Number, text, 0, 1)] + [Sliced(Comment, text, 5, 9)]
  }

  function ShownOpen(text: string): seq<Token>
    requires |text| == 20
  {
    ShownStart(text) + [Sliced(Kind.Template, text, 10, 12)] + [Token(Punctuation, "${", 12, 14)]
    + [Token(Identifier, [text[14]], 14, 15)] + [Token(ExpressionEnd, "}", 15, 16)]
  }

  function ShownTokens(text: string): seq<Token>
    requires |text| == 20
  {
    ShownOpen(text) + [Sliced(Kind.Template, text, 16, 17)] + [Sliced(Comment, text, 17, 20)]
  }

  lemma DigitItem(u: Alphabet, text: string, reading: Reading, tag: bool)
    requires text == SHOWN
    ensures IsCode(text, 0, false) && ItemAt(u, text, 0, reading, tag) == Success(Sliced(Number, text, 0, 1))
  {
    NoCommentHere(text, 0, false);
    assert NameFrom(u, text, 0, "") == Success(None);
    assert NumberEnd(u, text, 1) == 1;
  }

  lemma BlankGoes(run: Runner, u: Alphabet, text: string, i: nat, ts: seq<Token>, has: bool, next: nat)
    requires i < |text| && IsBlank(text[i]) && next == i + 1
    ensures run(u, text, State(i, ts, Within([], 0, has))) ==
            run(u, text, State(next, ts, Within([], 0, has && !IsTerminator(text[i]))))
  {
    BlankLeads(run, u, text, run(u, text, State(i, ts, Within([], 0, has))), i, ts, [], 0, has, next);
  }

  lemma CommentGoes(run: Runner, u: Alphabet, text: string, i: nat, ts: seq<Token>, has: bool, end: nat)
    requires i < |text| && !IsBlank(text[i]) && OpensComment(text, i, has) && LineEnd(text, i) == end
    ensures run(u, text, State(i, ts, Within([], 0, has))) ==
            run(u, text, State(end, ts + [Sliced(Comment, text, i, end)], Within([], 0, has)))
  {
    CommentLeads(run, u, text, run(u, text, State(i, ts, Within([], 0, has))), i, ts, [], 0, has,
                 OpenedComment(text, i, has));
  }

  /** The lines of the view up to its open backquote. */
  lemma ShownStarts(run: Runner, u: Alphabet, text: string, number: Token, was: seq<Token>, now: seq<Token>)
    requires |text| == 20 && Reads(u, text, 0, false, number) && number.end == 1
    requires was == [number] && now == was + [Sliced(Comment, text, 5, 9)]
    requires forall k | 0 < k < 5 || k == 9 :: IsBlank(text[k]) && (IsTerminator(text[k]) <==> k == 2 || k == 9)
    requires !IsBlank(text[5]) && OpensComment(text, 5, false) && LineEnd(text, 5) == 9
    ensures run(u, text, State(0, [], Within([], 0, false))) == run(u, text, State(10, now, Within([], 0, false)))
  {
    assert [] + [number] == was;
    ReadsGoes(run, u, text, 0, [], was, false, number);
    BlankGoes(run, u, text, 1, was, true, 2);
    BlankGoes(run, u, text, 2, was, true, 3);
    BlankGoes(run, u, text, 3, was, false, 4);
    BlankGoes(run, u, text, 4, was, false, 5);
    CommentGoes(run, u, text, 5, was, false, 9);
    BlankGoes(run, u, text, 9, now, false, 10);
  }

  lemma ShownPiece(run: Runner, u: Alphabet, text: string, ts: seq<Token>, below: Below)
    requires |text| == 20 && text[10] == '`' && PieceEnd(text, 11) == Some(12) && StartsAt(text, 12, "${")
    requires below == Within([], 0, true) + [Piece(true)]
    ensures run(u, text, State(10, ts, Within([], 0, false))) ==
            run(u, text, State(14, ts + [Sliced(Kind.Template, text, 10, 12)] + [Token(Punctuation, "${", 12, 14)],
                               Within(below, 0, false)))
  {
    TemplateGoes(run, u, text, 10, ts, [], 0, false);
    PieceGoes(run, u, text, 10, ts, Within([], 0, true), false, 12);
  }

  lemma ShownName(run: Runner, u: Alphabet, text: string, ts: seq<Token>, below: Frames)
    requires |text| == 20 && IsLetter(text[14]) && text[15] == '}'
    ensures run(u, text, State(14, ts, Within(below, 0, false))) ==
            run(u, text, State(16, ts + [Token(Identifier, [text[14]], 14, 15)] + [Token(ExpressionEnd, "}", 15, 16)], below))
  {
    LetterGoes(run, u, text, 14, ts, below, 0, false);
    var inside := ts + [Token(Identifier, [text[14]], 14, 15)];
    NoCommentHere(text, 15, true);
    EndLeads(run, u, text, run(u, text, State(15, inside, Within(below, 0, true))), 15, inside, below, 0, true,
             Token(ExpressionEnd, "}", 15, 16));
  }

  lemma ShownEnds(run: Runner, u: Alphabet, text: string, ts: seq<Token>)
    requires |text| == 20 && PieceEnd(text, 16) == Some(16) && text[16] == '`'
    requires OpensComment(text, 17, true) && !IsBlank(text[17]) && LineEnd(text, 17) == 20
    ensures run(u, text, State(16, ts, Within([], 0, true) + [Piece(true)])) ==
            Success(ts + [Sliced(Kind.Template, text, 16, 17)] + [Sliced(Comment, text, 17, 20)])
  {
    var code, closed := Within([], 0, true), ts + [Sliced(Kind.Template, text, 16, 17)];
    LastPieceRuns(run, u, text, State(16, ts, code + [Piece(true)]), code, true, Sliced(Kind.Template, text, 16, 17), 16);
    CommentGoes(run, u, text, 17, closed, true, 20);
    var all := closed + [Sliced(Comment, text, 17, 20)];
    EndGoes(run, u, text, all, 20);
  }

  lemma ShownBlanks(text: string)
    requires text == SHOWN
    ensures forall k | 0 < k < 5 || k == 9 :: IsBlank(text[k]) && (IsTerminator(text[k]) <==> k == 2 || k == 9)
  {
  }

  lemma ShownComment(text: string)
    requires text == SHOWN
    ensures !IsBlank(text[5]) && OpensComment(text, 5, false) && LineEnd(text, 5) == 9
  {
    assert text[5..8] == "-->" && StartsAt(text, 5, "-->");
    assert LineEnd(text, 5) == LineEnd(text, 7) == LineEnd(text, 9) == 9;
  }

  lemma ShownSubstitution(text: string)
    requires text == SHOWN
    ensures text[10] == '`' && PieceEnd(text, 11) == Some(12) && StartsAt(text, 12, "${")
    ensures IsLetter(text[14]) && text[15] == '}' && PieceEnd(text, 16) == Some(16) && text[16] == '`'
  {
    assert text[12..14] == "${" && StartsAt(text, 12, "${");
    assert text[11..13] == "'$" && PieceEnd(text, 11) == PieceEnd(text, 12) == Some(12);
  }

  lemma ShownTail(text: string)
    requires text == SHOWN
    ensures OpensComment(text, 17, true) && !IsBlank(text[17]) && LineEnd(text, 17) == 20
  {
    assert text[17..19] == "//" && StartsAt(text, 17, "//");
    assert LineEnd(text, 17) == LineEnd(text, 19) == 20;
  }

  lemma ShownReads(u: Alphabet, text: string)
    requires text == SHOWN
    ensures Reads(u, text, 0, false, Sliced(Number, text, 0, 1))
  {
    forall reading, tag
      ensures ItemAt(u, text, 0, reading, tag) == Success(Sliced(Number, text, 0, 1)) && IsCode(text, 0, false)
    {
      DigitItem(u, text, reading, tag);
    }
  }

  lemma ShownRuns(run: Runner, u: Alphabet, text: string)
    requires text == SHOWN
    ensures run(u, text, State(0, [], Within([], 0, false))) == Success(ShownTokens(text))
  {
    var number := Sliced(Number, text, 0, 1);
    ShownReads(u, text);
    ShownBlanks(text);
    ShownComment(text);
    ShownSubstitution(text);
    ShownTail(text);
    ShownStarts(run, u, text, number, [number], ShownStart(text));
    ShownPiece(run, u, text, ShownStart(text), Within([], 0, true) + [Piece(true)]);
    ShownName(run, u, text, ShownStart(text) + [Sliced(Kind.Template, text, 10, 12)] + [Token(Punctuation, "${", 12, 14)],
              Within([], 0, true) + [Piece(true)]);
    ShownEnds(run, u, text, ShownOpen(text));
  }

  // ---- The one is the scan view of the other ----

  lemma {:induction false} KeptAll(ts: seq<Token>)
    ensures V.Kept(ts, []) == ts
    decreases |ts|
  {
    if ts != [] {
      KeptAll(ts[..|ts| - 1]);
      assert !V.InSpan([], ts[|ts| - 1].start);
    }
  }

  /** Without names to splice the view is its base. */
  lemma {:induction false} UnnamedView(base: string, ts: seq<Token>, from: nat)
    requires V.Ordered(ts) && (ts != [] ==> from <= ts[0].start)
    requires forall i | 0 <= i < |ts| :: ts[i].kind != Identifier && ts[i].end <= |base|
    ensures V.View(base, map[], ts, from) == Slice(base, from, |base|)
    decreases |ts|
  {
    if ts != [] {
      V.NextStarts(ts);
      UnnamedView(base, ts[1..], ts[0].end);
      Joined(base, from, ts[0].start, ts[0].end);
    }
  }

  lemma Joined(base: string, a: nat, b: nat, c: nat)
    requires a <= b <= c <= |base|
    ensures Slice(base, a, b) + Slice(base, b, c) + Slice(base, c, |base|) == Slice(base, a, |base|)
  {
  }

  lemma SourceIsOrdered(text: string)
    requires |text| == 20
    ensures var ts := SourceTokens(text);
            && V.Ordered(ts) && |ts| == 5
            && forall i | 0 <= i < |ts| :: ts[i].kind != Identifier && ts[i].end <= 20
  {
    var ts := SourceTokens(text);
    assert ts[0].end == 5 == ts[1].start && ts[1].end == 7 == ts[2].start && ts[2].end == 8 == ts[3].start;
    assert ts[3].end == 11 == ts[4].start && ts[4].end == 20;
  }

  lemma MarkedSource(text: string, ts: seq<Token>, k: nat)
    requires text == SOURCE && ts == SourceTokens(text) && k < 20
    ensures V.Marked(text, ts, k, text[k]) == SHOWN[k]
  {
    SourceIsOrdered(text);
    var i := if k < 5 then 0 else if k < 7 then 1 else if k < 8 then 2 else if k < 11 then 3 else 4;
    V.MarkedInside(text, ts, i, k, text[k]);
  }

  lemma SourceShows(text: string, ts: seq<Token>)
    requires text == SOURCE && ts == SourceTokens(text)
    ensures ViewScans.ViewOf(text, ts, [], map[]) == SHOWN
  {
    var base := V.Base(text, [], ts);
    KeptAll(ts);
    SourceIsOrdered(text);
    forall k | 0 <= k < 20 ensures base[k] == SHOWN[k] {
      assert !V.InSpan([], k);
      MarkedSource(text, ts, k);
    }
    UnnamedView(base, ts, 0);
  }

  lemma SourceLexes(u: Alphabet, text: string)
    requires text == SOURCE
    ensures Lex(u, text) == Success(SourceTokens(text))
  {
    var run: Runner := (u: Alphabet, text: string, s: State) => Run(u, text, s);
    SourceRuns(run, u, text);
  }

  lemma ShownLexes(u: Alphabet, text: string)
    requires text == SHOWN
    ensures Lex(u, text) == Success(ShownTokens(text))
  {
    var run: Runner := (u: Alphabet, text: string, s: State) => Run(u, text, s);
    ShownRuns(run, u, text);
  }

  lemma OnlyOneEnds(source: string, shown: string)
    requires |source| == |shown| == 20
    ensures LexerPrefix.HoldsNoEnd(SourceTokens(source)) && !LexerPrefix.HoldsNoEnd(ShownTokens(shown))
  {
    assert ShownTokens(shown)[5].kind == ExpressionEnd;
  }

  /** An accepted text without substitutions, whose view is accepted with one. */
  lemma ViewMayHoldSubstitution(u: Alphabet, source: string, shown: string)
    requires source == SOURCE && shown == SHOWN
    ensures Lex(u, source) == Success(SourceTokens(source)) && LexerPrefix.HoldsNoEnd(SourceTokens(source))
    ensures ViewScans.ViewOf(source, SourceTokens(source), [], map[]) == shown
    ensures Lex(u, shown) == Success(ShownTokens(shown)) && !LexerPrefix.HoldsNoEnd(ShownTokens(shown))
  {
    SourceLexes(u, source);
    SourceShows(source, SourceTokens(source));
    ShownLexes(u, shown);
    OnlyOneEnds(source, shown);
  }
}
