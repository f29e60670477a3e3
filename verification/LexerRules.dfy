/**
 How the lexer reads marks, slashes and angle brackets, spelled out word by word and mark by mark:
 what every accepted text and every context comes to.
 */
module LexerRules {
  import opened Wrappers
  import opened Text
  import opened LexerModel
  import opened LexerContext
  import opened LexerMachine
  import opened LexerPrefix
  import opened LexerSlashes

  // ---- Marks of two characters ----

  predicate IsTwoMark(s: string) {
    |s| == 2 && ((s[0] == '+' && s[1] == '+') || (s[0] == '-' && s[1] == '-') || (s[0] == '=' && s[1] == '>')
                 || (s[0] == '?' && s[1] == '.'))
  }

  /** One character that does not begin a mark of two with the next, or a mark of two. */
  predicate MunchesMost(text: string, t: Token) {
    t.kind == Punctuation ==>
      if |t.value| == 1 then t.start + 1 < |text| ==> !IsTwoMark([text[t.start], text[t.start + 1]])
      else IsTwoMark(t.value) || (|t.value| == 2 && t.value[0] == '$' && t.value[1] == '{')
  }

  predicate AllMunchMost(text: string, ts: seq<Token>) {
    forall i | 0 <= i < |ts| :: MunchesMost(text, ts[i])
  }

  lemma MarkMunchesMost(text: string, i: nat)
    requires i < |text|
    ensures MunchesMost(text, MarkAt(text, i))
  {
    if i + 1 < |text| {
      var pair := Slice(text, i, i + 2);
      assert pair == [text[i], text[i + 1]];
    } else {
      assert |Slice(text, i, i + 2)| == 1;
    }
  }

  lemma ItemMunchesMost(u: Alphabet, text: string, i: nat, reading: Reading, tag: bool)
    requires i < |text| && ItemAt(u, text, i, reading, tag).Success?
    ensures MunchesMost(text, ItemAt(u, text, i, reading, tag).value)
  {
    MarkMunchesMost(text, i);
  }

  lemma CodeMunchesMost(u: Alphabet, text: string, s: State, below: Below, depth: int, has: bool, next: State)
    requires s.index < |text| && CodeStep(u, text, s, below, depth, has) == Success(next) && AllMunchMost(text, s.tokens)
    ensures AllMunchMost(text, next.tokens)
  {
    var i := s.index;
    if !IsBlank(text[i]) && OpenedComment(text, i, has) == Success(None)
       && !(text[i] == '}' && depth == 0 && below != []) && text[i] != '`'
    {
      ItemMunchesMost(u, text, i, ReadingAt(text, s.tokens, i), ExpectsTag(text, s.tokens, i));
    }
  }

  lemma PieceMunchesMost(text: string, s: State, below: Frames, interpolated: bool, next: State)
    requires PieceStep(text, s, below, interpolated) == Success(next) && AllMunchMost(text, s.tokens)
    ensures AllMunchMost(text, next.tokens)
  {
  }

  lemma StepMunchesMost(step: Stepper, u: Alphabet, text: string, s: State, next: State)
    requires step(u, text, s) == Success(next) && AllMunchMost(text, s.tokens)
    ensures AllMunchMost(text, next.tokens)
  {
    assert step(u, text, s) == Step(u, text, s);
    var below, top := s.frames[..|s.frames| - 1], s.frames[|s.frames| - 1];
    if top.Piece? {
      PieceMunchesMost(text, s, below, top.interpolated, next);
    } else {
      CodeMunchesMost(u, text, s, below, top.depth, top.lineHasCode, next);
    }
  }

  lemma {:induction false} RunMunchesMost(
    run: Runner, step: Stepper, u: Alphabet, text: string, ts: seq<Token>, s: State)
    requires run(u, text, s) == Success(ts) && AllMunchMost(text, s.tokens)
    ensures AllMunchMost(text, ts)
    decreases Ahead(text, s).0, Ahead(text, s).1
  {
    if IsDone(text, s) {
      assert run(u, text, s) == Run(u, text, s);
    } else {
      var next := RunsOn(run, step, u, text, s, ts);
      StepMunchesMost(step, u, text, s, next);
      RunMunchesMost(run, step, u, text, ts, next);
    }
  }

  lemma LexMunchesMost(u: Alphabet, text: string, ts: seq<Token>)
    requires Lex(u, text) == Success(ts)
    ensures AllMunchMost(text, ts)
  {
    var run: Runner := (u: Alphabet, text: string, s: State) => Run(u, text, s);
    var step: Stepper := (u: Alphabet, text: string, s: State) => Step(u, text, s);
    RunMunchesMost(run, step, u, text, ts, State(0, [], Within([], 0, false)));
  }

  /** Two single marks that touch never spell one of two characters; every other mark is one of those or opens a substitution. */
  lemma MarkRules(u: Alphabet, text: string, ts: seq<Token>, i: nat, j: nat)
    requires Lex(u, text) == Success(ts) && i < |ts| && j < |ts| && ts[i].kind == Punctuation == ts[j].kind
    requires TokenOk(u, text, ts[i]) && TokenOk(u, text, ts[j])
    ensures |ts[i].value| == 1 || ts[i].value in {"++", "--", "=>", "?.", "${"}
    ensures |ts[i].value| == 1 == |ts[j].value| && ts[i].end == ts[j].start ==>
              ts[i].value + ts[j].value !in {"++", "--", "=>", "?."}
  {
    LexMunchesMost(u, text, ts);
    assert MunchesMost(text, ts[i]);
    if |ts[i].value| == 1 == |ts[j].value| && ts[i].end == ts[j].start {
      Touching(u, text, ts[i], ts[j]);
    } else if |ts[i].value| != 1 {
      TwoMarks(ts[i].value);
    }
  }

  lemma TwoMarks(s: string)
    ensures IsTwoMark(s) <==> s in {"++", "--", "=>", "?."}
    ensures |s| == 2 && s[0] == '$' && s[1] == '{' ==> s == "${"
  {
    if |s| == 2 {
      assert s == [s[0], s[1]];
    }
  }

  lemma Touching(u: Alphabet, text: string, a: Token, b: Token)
    requires TokenOk(u, text, a) && TokenOk(u, text, b) && a.kind == Punctuation == b.kind && MunchesMost(text, a)
    requires |a.value| == 1 == |b.value| && a.end == b.start
    ensures a.value + b.value !in {"++", "--", "=>", "?."}
  {
    assert text[a.start..a.end] == a.value && text[b.start..b.end] == b.value;
    assert a.value == [text[a.start]] && b.value == [text[a.start + 1]];
    TwoMarks(a.value + b.value);
  }

  /** After an increment or decrement a slash divides. */
  lemma SlashAfterStepDivides(text: string, ts: seq<Token>, i: nat)
    requires AllInContext(text, ts) && i < |ts| && IsSlash(ts[i]) && NonComments(ts[..i]) != []
    requires var code := NonComments(ts[..i]); var last := code[|code| - 1];
             last.kind == Punctuation && (last.value == "++" || last.value == "--")
    ensures ts[i].kind == Punctuation
  {
    RegexIffOperandWanted(text, ts, i);
  }

  // ---- What a slash is ----

  predicate IsDot(p: Option<Prior>) {
    p == Some(Prior(Mark, ".")) || p == Some(Prior(Mark, "?."))
  }

  /** Words after which an operand follows. */
  predicate IsOperatorWord(word: string) {
    word in {"break", "case", "continue", "debugger", "default", "delete", "do", "else", "extends", "in", "instanceof",
             "new", "return", "throw", "typeof", "void"}
  }

  predicate IsOperatorMark(mark: string) {
    mark in {"!", "%", "&", "(", "*", "+", ",", "-", ":", ";", "=", "=>", "?", "@", "[", "^", "{", "|", "~"}
  }

  /** A line ends between the last token that is no comment and the index. */
  predicate LineEndsBefore(text: string, code: seq<Token>, index: nat) {
    code != [] && exists k | code[|code| - 1].end <= k < index && k < |text| ::
      text[k] == '\n' || text[k] == '\r' || text[k] as int == 0x2028 || text[k] as int == 0x2029
  }

  lemma LineRules(text: string, ts: seq<Token>, index: nat)
    ensures BreaksLine(text, ts, index) <==> LineEndsBefore(text, NonComments(ts), index)
  {
    var code := NonComments(ts);
    if code != [] {
      var a := code[|code| - 1].end;
      var gap := Slice(text, a, index);
      forall k | a <= k < index && k < |text| ensures gap[k - a] == text[k] {}
      if HasTerminator(gap) {
        var i :| 0 <= i < |gap| && IsTerminator(gap[i]);
        assert text[a + i] == gap[i];
      }
      if LineEndsBefore(text, code, index) {
        var k :| a <= k < index && k < |text| && IsTerminator(text[k]);
        assert IsTerminator(gap[k - a]);
      }
    }
  }

  /** The innermost parenthesis still open follows `for`, or `await` after `for`. */
  ghost predicate IsForOpen(code: seq<Token>) {
    exists k: nat | IsInnermostOpen(code, k) && k >= 1 ::
      code[k - 1].value == "for" || (code[k - 1].value == "await" && k >= 2 && code[k - 2].value == "for")
  }

  lemma ForRules(code: seq<Token>)
    ensures InForHeader(code) <==> IsForOpen(code)
  {
  }

  /** Neither operand nor operator can be told from the two tokens before, the line, and the open parenthesis. */
  ghost predicate IsInDoubt(previous: Option<Prior>, before: Option<Prior>, newLine: bool, forHeader: bool) {
    previous.Some? &&
    var p := previous.value;
    || p.value in {")", "}", "<", ">", "postfix!"}
    || (p.class_ == Word && !IsDot(before) && (p.value == "await" || p.value == "yield" || (p.value == "of" && forHeader)))
    || (p.class_ != Mark && newLine && (IsDot(before) || !IsOperatorWord(p.value)))
  }

  predicate WantsOperandAfter(previous: Option<Prior>, before: Option<Prior>) {
    match previous
    case None => true
    case Some(p) =>
      (p.class_ == Mark && IsOperatorMark(p.value)) || (p.class_ == Word && IsOperatorWord(p.value) && !IsDot(before))
  }

  lemma WordRules(p: Option<Prior>)
    ensures IsMember(p) <==> IsDot(p)
    ensures p.Some? ==> (p.value.value in REGEX_KEYWORDS <==> IsOperatorWord(p.value.value))
    ensures p.Some? ==> (p.value.value in EXPRESSION_MARKS <==> IsOperatorMark(p.value.value))
  {
  }

  lemma OperandRules(previous: Option<Prior>, before: Option<Prior>)
    ensures StartsExpression(previous, before) <==> WantsOperandAfter(previous, before)
  {
    WordRules(previous);
    WordRules(before);
  }

  lemma ContextRules(previous: Option<Prior>, forHeader: bool)
    ensures IsContextual(previous, forHeader) <==>
            previous.Some? && previous.value.class_ == Word
            && (previous.value.value == "await" || previous.value.value == "yield" || (previous.value.value == "of" && forHeader))
  {
  }

  lemma ClosingRules(p: Prior)
    ensures ClosesOrAsserts(p) <==> p.value in {")", "}", "<", ">", "postfix!"}
  {
  }

  lemma ResumeRules(text: string, ts: seq<Token>, p: Prior, before: Option<Prior>, start: nat)
    ensures Resumes(text, ts, p, before, start) <==>
            p.class_ != Mark && LineEndsBefore(text, NonComments(ts), start) && (IsDot(before) || !IsOperatorWord(p.value))
  {
    LineRules(text, ts, start);
    WordRules(before);
    WordRules(Some(p));
  }

  /** Regexp, division or neither, exactly as the context says. */
  lemma ReadingRules(text: string, ts: seq<Token>, start: nat)
    ensures var previous, before := Previous(Top(LevelsOf(ts))), BeforePrevious(Top(LevelsOf(ts)));
            var code := NonComments(ts);
            ReadingAt(text, ts, start) ==
            if IsInDoubt(previous, before, LineEndsBefore(text, code, start), IsForOpen(code)) then Ambiguous
            else if WantsOperandAfter(previous, before) then AsRegex else AsDivision
  {
    var previous, before := Previous(Top(LevelsOf(ts))), BeforePrevious(Top(LevelsOf(ts)));
    ForRules(NonComments(ts));
    OperandRules(previous, before);
    ContextRules(previous, IsForOpen(NonComments(ts)));
    WordRules(before);
    if previous.Some? {
      ClosingRules(previous.value);
      ResumeRules(text, ts, previous.value, before, start);
    }
  }

  /** An expression may come at the start, behind an operator or angle bracket, and behind an operator word. */
  predicate MayStartHere(previous: Option<Prior>) {
    match previous
    case None => true
    case Some(p) =>
      || (p.class_ == Mark && (IsOperatorMark(p.value) || p.value == "<" || p.value == ">"))
      || (p.class_ == Word && (IsOperatorWord(p.value) || p.value == "await" || p.value == "yield" || p.value == "of"))
  }

  lemma StartRules(previous: Option<Prior>)
    ensures ExpectsExpression(previous) <==> MayStartHere(previous)
  {
    WordRules(previous);
  }

  /** A tag may come where an expression may, or on a new line. */
  lemma TagRules(text: string, ts: seq<Token>, start: nat)
    ensures ExpectsTag(text, ts, start) <==>
            LineEndsBefore(text, NonComments(ts), start) || MayStartHere(Previous(Top(LevelsOf(ts))))
  {
    LineRules(text, ts, start);
    StartRules(Previous(Top(LevelsOf(ts))));
  }

  /** An exclamation mark asserts behind a value: a literal, a closing mark, a step, or a word that is none of the language's. */
  lemma AssertionRules(value: string, previous: Option<Prior>)
    ensures var p := MarkAfter(value, previous);
            && p.class_ == Mark
            && p.value == if value == "!" && previous.Some?
                             && (|| previous.value.class_ == Literal
                                 || previous.value.value in {")", "]", "}", "++", "--", "postfix!"}
                                 || (previous.value.class_ == Word && !IsOperatorWord(previous.value.value)
                                     && previous.value.value !in
                                        {"await", "yield", "of", "const", "let", "var", "export", "import"}))
                          then "postfix!" else value
  {
  }

  /** The slash rule on tokens: what comes before in the code decides, word by word and mark by mark. */
  lemma SlashRules(text: string, ts: seq<Token>, i: nat)
    requires AllInContext(text, ts) && i < |ts| && IsSlash(ts[i])
    ensures var code := NonComments(ts[..i]);
            ts[i].kind == Regex <==>
            || code == []
            || (code[|code| - 1].kind == Punctuation
                && (code[|code| - 1].value == "${" || IsOperatorMark(code[|code| - 1].value)))
            || (code[|code| - 1].kind == Identifier && IsOperatorWord(code[|code| - 1].value)
                && !(|code| >= 2 && code[|code| - 2].kind == Punctuation && code[|code| - 2].value in {".", "?."}))
  {
    RegexIffOperandWanted(text, ts, i);
  }

  // ---- Comments are passed over ----

  /** The tokens that are no comments, in order. */
  lemma {:induction false} CodeRules(ts: seq<Token>)
    ensures forall t :: t in NonComments(ts) <==> t in ts && t.kind != Comment
    ensures forall k | 0 <= k <= |ts| :: NonComments(ts) == NonComments(ts[..k]) + NonComments(ts[k..])
    decreases |ts|
  {
    if ts != [] {
      var n := |ts| - 1;
      CodeRules(ts[..n]);
      assert ts == ts[..n] + [ts[n]];
      forall k | 0 <= k <= |ts| ensures NonComments(ts) == NonComments(ts[..k]) + NonComments(ts[k..]) {
        if k <= n {
          assert ts[..n][..k] == ts[..k] && ts[k..][..n - k] == ts[..n][k..];
        } else {
          assert ts[..k] == ts;
        }
      }
    }
  }
}
