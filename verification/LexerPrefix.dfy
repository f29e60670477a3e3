/**
 What the lexer makes of a text that is cut off behind a closing bracket: it reads the same tokens
 up to there, and fails there exactly when the bracket stands inside a template substitution.
 */
module LexerPrefix {
  import opened Wrappers
  import opened Text
  import opened LexerModel
  import opened LexerContext
  import opened LexerMachine

  predicate IsCloser(c: char) {
    c == ')' || c == ']' || c == '}'
  }

  /** The text ends at `cut` when cut, behind a closing bracket. */
  predicate CutsAt(text: string, cut: nat) {
    0 < cut <= |text| && IsCloser(text[cut - 1])
  }

  function Min(a: nat, b: nat): nat {
    if a < b then a else b
  }

  // ---- Scans that end before the cut do not notice it ----

  lemma StartsInCut(text: string, cut: nat, i: nat, s: string)
    requires cut <= |text|
    ensures StartsAt(text[..cut], i, s) <==> StartsAt(text, i, s) && i + |s| <= cut
  {
    if i + |s| <= cut {
      assert text[..cut][i..i + |s|] == text[i..i + |s|];
    }
  }

  lemma SliceInCut(text: string, cut: nat, a: nat, b: nat)
    requires b <= cut <= |text|
    ensures Slice(text[..cut], a, b) == Slice(text, a, b)
  {
    if a < b {
      assert text[..cut][a..b] == text[a..b];
    }
  }

  lemma {:induction false} RunsInCut(u: Alphabet, text: string, cut: nat, i: nat)
    requires i <= cut <= |text|
    ensures LineEnd(text[..cut], i) == Min(LineEnd(text, i), cut)
    ensures WordEnd(u, text[..cut], i) == Min(WordEnd(u, text, i), cut)
    ensures NumberEnd(u, text[..cut], i) == Min(NumberEnd(u, text, i), cut)
    decreases cut - i
  {
    if i < cut {
      RunsInCut(u, text, cut, i + 1);
    }
  }

  lemma {:induction false} TagRunsInCut(text: string, cut: nat, i: nat)
    requires i <= cut <= |text|
    ensures TagEnd(text[..cut], i) == Min(TagEnd(text, i), cut)
    ensures SpaceEnd(text[..cut], i) == Min(SpaceEnd(text, i), cut)
    ensures NameEnd(text[..cut], i) == Min(NameEnd(text, i), cut)
    decreases cut - i
  {
    if i < cut {
      TagRunsInCut(text, cut, i + 1);
    }
  }

  /** Spaces and names stop at a closing bracket. */
  lemma {:induction false} RunsStop(text: string, cut: nat, i: nat)
    requires CutsAt(text, cut) && i < cut
    ensures SpaceEnd(text, i) < cut && SpaceEnd(text[..cut], i) == SpaceEnd(text, i)
    ensures NameEnd(text, i) < cut && NameEnd(text[..cut], i) == NameEnd(text, i)
    decreases cut - i
  {
    if i < cut - 1 {
      RunsStop(text, cut, i + 1);
    }
  }

  lemma {:induction false} StringInCut(text: string, cut: nat, i: nat, quote: char)
    requires cut <= |text| && StringEnd(text, i, quote).Some? && StringEnd(text, i, quote).value <= cut
    ensures StringEnd(text[..cut], i, quote) == StringEnd(text, i, quote)
    decreases |text| - i
  {
    if text[i] == '\\' {
      StringInCut(text, cut, AfterEscape(text, i), quote);
    } else if text[i] != quote {
      StringInCut(text, cut, i + 1, quote);
    }
  }

  lemma {:induction false} RegexInCut(text: string, cut: nat, i: nat, inClass: bool)
    requires cut <= |text| && RegexEnd(text, i, inClass).Some? && RegexEnd(text, i, inClass).value <= cut
    ensures RegexEnd(text[..cut], i, inClass) == RegexEnd(text, i, inClass)
    decreases |text| - i
  {
    if text[i] == '\\' {
      RegexInCut(text, cut, i + 2, inClass);
    } else if text[i] != '/' || inClass {
      RegexInCut(text, cut, i + 1, text[i] == '[' || (inClass && text[i] != ']'));
    }
  }

  lemma {:induction false} PieceInCut(text: string, cut: nat, i: nat)
    requires cut <= |text| && PieceEnd(text, i).Some? && PieceEnd(text, i).value < cut
    requires text[PieceEnd(text, i).value] == '`' || PieceEnd(text, i).value + 2 <= cut
    ensures PieceEnd(text[..cut], i) == PieceEnd(text, i)
    decreases |text| - i
  {
    StartsInCut(text, cut, i, "${");
    if text[i] == '\\' {
      PieceInCut(text, cut, i + 2);
    } else if text[i] != '`' && !StartsAt(text, i, "${") {
      PieceInCut(text, cut, i + 1);
    }
  }

  lemma {:induction false} FindInCut(text: string, cut: nat, i: nat, s: string)
    requires cut <= |text| && Find(text, i, s).Some? && Find(text, i, s).value + |s| <= cut
    ensures Find(text[..cut], i, s) == Find(text, i, s)
    decreases |text| - i
  {
    StartsInCut(text, cut, i, s);
    if !StartsAt(text, i, s) {
      FindInCut(text, cut, i + 1, s);
    }
  }

  function TagClose(text: string, i: nat): nat
    requires i <= |text|
  {
    SpaceEnd(text, TagEnd(text, i))
  }

  lemma TagCloseInCut(text: string, cut: nat, i: nat)
    requires i <= cut <= |text|
    ensures TagClose(text[..cut], i) <= cut && (TagClose(text[..cut], i) == TagClose(text, i) || TagClose(text[..cut], i) == cut)
    ensures TagClose(text, i) <= cut ==> TagClose(text[..cut], i) == TagClose(text, i)
  {
    TagRunsInCut(text, cut, i);
    TagRunsInCut(text, cut, TagEnd(text[..cut], i));
  }

  lemma IntrinsicInCut(text: string, cut: nat, i: nat)
    requires i < cut <= |text| && (IntrinsicEnd(text, i).Some? ==> IntrinsicEnd(text, i).value <= cut)
    ensures IntrinsicEnd(text[..cut], i) == IntrinsicEnd(text, i)
  {
    if i + 1 < cut && text[i] == '<' && 'a' <= text[i + 1] <= 'z' {
      TagCloseInCut(text, cut, i + 2);
      StartsInCut(text, cut, TagClose(text[..cut], i + 2), "/>");
    }
  }

  lemma ParameterInCut(text: string, cut: nat, i: nat)
    requires CutsAt(text, cut) && i < cut
    ensures ParameterEnd(text[..cut], i) == ParameterEnd(text, i)
    ensures ParameterEnd(text, i).Some? ==> ParameterEnd(text, i).value < cut
  {
    RunsStop(text, cut, i);
    var name := SpaceEnd(text, i);
    if IsNameHead(text[name]) {
      RunsStop(text, cut, name + 1);
      RunsStop(text, cut, NameEnd(text, name + 1));
    }
  }

  /** The generic arrow from one parameter on. */
  lemma ArrowUnfolds(text: string, i: nat, at: Option<nat>)
    requires i <= |text| && at == ParameterEnd(text, i) && (at.Some? ==> at.value < |text|)
    ensures at.None? ==> ArrowEnd(text, i).None?
    ensures at.Some? && text[at.value] == ',' ==> ArrowEnd(text, i) == ArrowEnd(text, at.value + 1)
    ensures at.Some? && text[at.value] != ',' ==>
              var open := SpaceEnd(text, at.value + 1);
              ArrowEnd(text, i) ==
              if text[at.value] == '>' && open < |text| && text[open] == '(' then Some(open + 1) else None
  {
  }

  lemma ArrowLast(text: string, p: string, cut: nat, i: nat, at: nat)
    requires CutsAt(text, cut) && p == text[..cut] && i <= at < cut && text[at] != ','
    requires ParameterEnd(text, i) == Some(at) && ParameterEnd(p, i) == Some(at)
    ensures ArrowEnd(p, i) == ArrowEnd(text, i)
  {
    ArrowUnfolds(text, i, Some(at));
    ArrowUnfolds(p, i, Some(at));
    if text[at] == '>' {
      RunsStop(text, cut, at + 1);
    }
  }

  lemma {:induction false} ArrowInCut(text: string, p: string, cut: nat, i: nat)
    requires CutsAt(text, cut) && p == text[..cut] && i < cut
    ensures ArrowEnd(p, i) == ArrowEnd(text, i)
    decreases cut - i
  {
    ParameterInCut(text, cut, i);
    var at := ParameterEnd(text, i);
    if at.Some? && text[at.value] != ',' {
      ArrowLast(text, p, cut, i, at.value);
    } else {
      ArrowUnfolds(text, i, at);
      ArrowUnfolds(p, i, at);
      if at.Some? {
        ArrowInCut(text, p, cut, at.value + 1);
      }
    }
  }

  // ---- Names ----

  lemma {:induction false} FindIsFirst(text: string, i: nat, s: string, k: nat)
    requires Find(text, i, s).Some? && i <= k < Find(text, i, s).value
    ensures !StartsAt(text, k, s)
    decreases |text| - i
  {
    if i < k {
      FindIsFirst(text, i + 1, s, k);
    }
  }

  lemma EscapeHoldsNoCloser(u: Alphabet, text: string, i: nat, k: nat)
    requires Decode(u, text, i).Some? && i < k < Decode(u, text, i).value.1 - 1 && k < |text|
    ensures !IsCloser(text[k])
  {
    var digits := EscapeDigits(text, i).value.0;
    assert text[i..i + 2][1] == 'u';
    var from := if i + 2 < |text| && text[i + 2] == '{' then i + 3 else i + 2;
    if from <= k {
      assert text[k] == digits[k - from] && digits[k - from] in digits;
    }
  }

  /** An escape that starts before the closing bracket ends before it, or with it. */
  lemma EscapeBeforeCut(u: Alphabet, text: string, cut: nat, i: nat)
    requires CutsAt(text, cut) && i < cut - 1 && Decode(u, text, i).Some?
    ensures Decode(u, text, i).value.1 <= cut
  {
    if cut < Decode(u, text, i).value.1 {
      EscapeHoldsNoCloser(u, text, i, cut - 1);
    }
  }

  lemma DecodeInCut(u: Alphabet, text: string, cut: nat, i: nat)
    requires cut <= |text| && Decode(u, text, i).Some? && Decode(u, text, i).value.1 <= cut
    ensures Decode(u, text[..cut], i) == Decode(u, text, i)
  {
    StartsInCut(text, cut, i, "\\u");
    if text[i + 2] == '{' {
      FindInCut(text, cut, i + 3, "}");
      var close := Find(text, i + 3, "}").value;
      assert text[..cut][i + 3..close] == text[i + 3..close];
    } else {
      SliceInCut(text, cut, i + 2, i + 6);
    }
  }

  lemma {:induction false} NameInCut(u: Alphabet, text: string, cut: nat, i: nat, parts: string)
    requires CutsAt(text, cut) && NameFrom(u, text, i, parts).Success?
    requires var name := NameFrom(u, text, i, parts).value; if name.Some? then name.value.1 <= cut else i < cut
    requires NameFrom(u, text, i, parts).value.None? ==> parts == ""
    ensures NameFrom(u, text[..cut], i, parts) == NameFrom(u, text, i, parts)
    decreases |text| - i
  {
    if i < cut && text[i] == '\\' {
      var d := Decode(u, text, i).value;
      if parts == "" && IsDigit(u, d.0) {
        EscapeBeforeCut(u, text, cut, i);
      }
      DecodeInCut(u, text, cut, i);
      if !(parts == "" && IsDigit(u, d.0)) {
        NameInCut(u, text, cut, d.1, parts + [d.0]);
      }
    } else if i < cut && IsWord(u, text[i]) && !(parts == "" && IsDigit(u, text[i])) {
      NameInCut(u, text, cut, i + 1, parts + [text[i]]);
    }
  }

  // ---- Context ----

  lemma BreaksInCut(text: string, cut: nat, ts: seq<Token>, i: nat)
    requires i <= cut <= |text|
    ensures BreaksLine(text[..cut], ts, i) == BreaksLine(text, ts, i)
  {
    var code := NonComments(ts);
    if code != [] {
      SliceInCut(text, cut, code[|code| - 1].end, i);
    }
  }

  lemma ContextInCut(text: string, cut: nat, ts: seq<Token>, i: nat)
    requires i <= cut <= |text|
    ensures ReadingAt(text[..cut], ts, i) == ReadingAt(text, ts, i)
    ensures ExpectsTag(text[..cut], ts, i) == ExpectsTag(text, ts, i)
  {
    BreaksInCut(text, cut, ts, i);
  }

  // ---- Steps that end before the cut do not notice it ----

  lemma {:induction false} MarkOnLine(text: string, i: nat, s: string)
    requires StartsAt(text, i, s) && !HasTerminator(s)
    ensures i + |s| <= LineEnd(text, i)
    decreases |s|
  {
    if s != [] {
      assert text[i] == text[i..i + |s|][0] == s[0];
      assert text[i + 1..i + 1 + |s[1..]|] == text[i..i + |s|][1..] == s[1..];
      MarkOnLine(text, i + 1, s[1..]);
    }
  }

  lemma MarkInCut(text: string, cut: nat, i: nat, s: string)
    requires i <= cut <= |text| && !HasTerminator(s) && LineEnd(text, i) <= cut
    ensures StartsAt(text[..cut], i, s) == StartsAt(text, i, s)
  {
    StartsInCut(text, cut, i, s);
    if StartsAt(text, i, s) {
      MarkOnLine(text, i, s);
    }
  }

  lemma LineCommentInCut(text: string, cut: nat, i: nat, has: bool)
    requires i < cut <= |text| && (OpensComment(text, i, has) ==> LineEnd(text, i) <= cut)
    ensures OpensComment(text[..cut], i, has) == OpensComment(text, i, has)
  {
    if OpensComment(text, i, has) {
      MarkInCut(text, cut, i, "//");
      MarkInCut(text, cut, i, "<!--");
      MarkInCut(text, cut, i, "-->");
      MarkInCut(text, cut, i, "#!");
    } else {
      StartsInCut(text, cut, i, "//");
      StartsInCut(text, cut, i, "<!--");
      StartsInCut(text, cut, i, "-->");
      StartsInCut(text, cut, i, "#!");
    }
  }

  lemma BlockInCut(text: string, cut: nat, i: nat)
    requires i < cut <= |text| && OpenedBlock(text, i).Success?
    requires OpenedBlock(text, i).value.Some? ==> OpenedBlock(text, i).value.value.0 <= cut
    ensures OpenedBlock(text[..cut], i) == OpenedBlock(text, i)
  {
    StartsInCut(text, cut, i, "/*");
    if StartsAt(text, i, "/*") {
      FindInCut(text, cut, i + 2, "*/");
      var end := Find(text, i + 2, "*/").value + 2;
      assert text[..cut][i..end] == text[i..end];
    }
  }

  lemma CommentInCut(u: Alphabet, text: string, cut: nat, i: nat, has: bool)
    requires i < cut <= |text| && OpenedComment(text, i, has).Success?
    requires OpenedComment(text, i, has).value.Some? ==> OpenedComment(text, i, has).value.value.0 <= cut
    ensures OpenedComment(text[..cut], i, has) == OpenedComment(text, i, has)
  {
    LineCommentInCut(text, cut, i, has);
    if OpensComment(text, i, has) {
      RunsInCut(u, text, cut, i);
    } else {
      BlockInCut(text, cut, i);
    }
  }

  lemma TagLikeInCut(u: Alphabet, text: string, cut: nat, i: nat)
    requires CutsAt(text, cut) && i + 1 < cut
    ensures IsTagLike(u, text[..cut], i) == IsTagLike(u, text, i)
  {
    RunsStop(text, cut, i + 1);
  }

  lemma AngleInCut(u: Alphabet, text: string, cut: nat, i: nat, tag: bool)
    requires CutsAt(text, cut) && i + 1 < cut && AngleAt(u, text, i, tag).Success?
    requires AngleAt(u, text, i, tag).value.Some? ==> AngleAt(u, text, i, tag).value.value <= cut
    ensures AngleAt(u, text[..cut], i, tag) == AngleAt(u, text, i, tag)
  {
    TagLikeInCut(u, text, cut, i);
    if IsTagLike(u, text, i) && tag {
      ArrowInCut(text, text[..cut], cut, i + 1);
      IntrinsicInCut(text, cut, i);
    }
  }

  lemma MarkTokenInCut(text: string, cut: nat, i: nat)
    requires i < cut <= |text| && MarkAt(text, i).end <= cut
    ensures MarkAt(text[..cut], i) == MarkAt(text, i)
  {
    if i + 2 <= cut {
      SliceInCut(text, cut, i, i + 2);
    }
  }

  lemma SlashInCut(u: Alphabet, text: string, cut: nat, i: nat, reading: Reading)
    requires i < cut <= |text| && SlashAt(u, text, i, reading).Success?
    requires SlashAt(u, text, i, reading).value.end <= cut
    ensures SlashAt(u, text[..cut], i, reading) == SlashAt(u, text, i, reading)
  {
    if reading == AsRegex {
      var body := RegexEnd(text, i + 1, false).value;
      RegexInCut(text, cut, i + 1, false);
      RunsInCut(u, text, cut, body);
      SliceInCut(text, cut, i, WordEnd(u, text, body));
    }
  }

  lemma WordInCut(u: Alphabet, text: string, cut: nat, i: nat)
    requires CutsAt(text, cut) && i < cut && WordAt(u, text, i).Success? && WordAt(u, text, i).value.end <= cut
    ensures WordAt(u, text[..cut], i) == WordAt(u, text, i)
  {
    NameInCut(u, text, cut, i, "");
    if NameFrom(u, text, i, "").value.None? {
      RunsInCut(u, text, cut, i + 1);
      SliceInCut(text, cut, i, NumberEnd(u, text, i + 1));
    }
  }

  lemma PrivateInCut(u: Alphabet, text: string, cut: nat, i: nat)
    requires CutsAt(text, cut) && i < cut && PrivateAt(u, text, i).Success? && PrivateAt(u, text, i).value.end <= cut
    ensures PrivateAt(u, text[..cut], i) == PrivateAt(u, text, i)
  {
    NameInCut(u, text, cut, i + 1, "");
  }

  lemma StringTokenInCut(text: string, cut: nat, i: nat)
    requires i < cut <= |text| && StringAt(text, i).Success? && StringAt(text, i).value.end <= cut
    ensures StringAt(text[..cut], i) == StringAt(text, i)
  {
    StringInCut(text, cut, i + 1, text[i]);
    SliceInCut(text, cut, i, StringAt(text, i).value.end);
  }

  lemma ItemInCut(u: Alphabet, text: string, cut: nat, i: nat, reading: Reading, tag: bool)
    requires CutsAt(text, cut) && i < cut
    requires ItemAt(u, text, i, reading, tag).Success? && ItemAt(u, text, i, reading, tag).value.end <= cut
    ensures ItemAt(u, text[..cut], i, reading, tag) == ItemAt(u, text, i, reading, tag)
  {
    var c := text[i];
    if c == '<' {
      AngleInCut(u, text, cut, i, tag);
      if AngleAt(u, text, i, tag).value.Some? {
        SliceInCut(text, cut, i, AngleAt(u, text, i, tag).value.value);
      } else {
        MarkTokenInCut(text, cut, i);
      }
    } else if c == '\'' || c == '"' {
      StringTokenInCut(text, cut, i);
    } else if c == '/' {
      SlashInCut(u, text, cut, i, reading);
    } else if c == '#' {
      PrivateInCut(u, text, cut, i);
    } else if IsWord(u, c) || c == '\\' {
      WordInCut(u, text, cut, i);
    } else {
      MarkTokenInCut(text, cut, i);
    }
  }

  lemma CodeStepInCut(u: Alphabet, text: string, cut: nat, s: State, below: Below, depth: int, has: bool)
    requires CutsAt(text, cut) && s.index < cut && CodeStep(u, text, s, below, depth, has).Success?
    requires CodeStep(u, text, s, below, depth, has).value.index <= cut
    ensures CodeStep(u, text[..cut], s, below, depth, has) == CodeStep(u, text, s, below, depth, has)
  {
    var i := s.index;
    if !IsBlank(text[i]) {
      CommentInCut(u, text, cut, i, has);
      ContextInCut(text, cut, s.tokens, i);
      var reading, tag := ReadingAt(text, s.tokens, i), ExpectsTag(text, s.tokens, i);
      if OpenedComment(text, i, has).value.Some? {
        SliceInCut(text, cut, i, OpenedComment(text, i, has).value.value.0);
      } else if !(text[i] == '}' && depth == 0 && below != []) && text[i] != '`' {
        ItemInCut(u, text, cut, i, reading, tag);
      }
    }
  }

  lemma PieceStepUnfolds(text: string, s: State, below: Frames, interpolated: bool, end: nat, upto: nat)
    requires PieceEnd(text, if interpolated then s.index else s.index + 1) == Some(end) && s.index <= end
    requires upto == if text[end] == '`' then end + 1 else end
    ensures var open := Token(Punctuation, "${", end, end + 2);
            PieceStep(text, s, below, interpolated) ==
            if upto == end then
              Success(State(end + 2, s.tokens + [Sliced(Kind.Template, text, s.index, end)] + [open],
                            Within(below + [Piece(true)], 0, false)))
            else
              Success(State(upto, s.tokens + [Sliced(if interpolated then Kind.Template else StaticTemplate,
                                                     text, s.index, upto)], below))
  {
  }

  lemma PieceStepInCut(text: string, p: string, cut: nat, s: State, below: Frames, interpolated: bool)
    requires cut <= |text| && p == text[..cut] && PieceStep(text, s, below, interpolated).Success?
    requires PieceStep(text, s, below, interpolated).value.index <= cut
    ensures PieceStep(p, s, below, interpolated) == PieceStep(text, s, below, interpolated)
  {
    var from := if interpolated then s.index else s.index + 1;
    var end := PieceEnd(text, from).value;
    var upto := if text[end] == '`' then end + 1 else end;
    PieceStepUnfolds(text, s, below, interpolated, end, upto);
    PieceInCut(text, cut, from);
    assert p[end] == text[end];
    PieceStepUnfolds(p, s, below, interpolated, end, upto);
    SliceInCut(text, cut, s.index, upto);
  }

  lemma StepInCut(u: Alphabet, text: string, cut: nat, s: State)
    requires CutsAt(text, cut) && s.index < cut
    requires Step(u, text, s).Success? && Step(u, text, s).value.index <= cut
    ensures Step(u, text[..cut], s) == Step(u, text, s)
  {
    var below, top := s.frames[..|s.frames| - 1], s.frames[|s.frames| - 1];
    if top.Piece? {
      PieceStepInCut(text, text[..cut], cut, s, below, top.interpolated);
    } else {
      CodeStepInCut(u, text, cut, s, below, top.depth, top.lineHasCode);
    }
  }

  // ---- What a step adds ----

  /** One step appended to the tokens, from where it stood on. */
  ghost predicate Grown(was: State, now: State) {
    && was.tokens <= now.tokens && was.index <= now.index
    && (forall j | |was.tokens| <= j < |now.tokens| :: was.index <= now.tokens[j].start)
  }

  lemma StepGrows(u: Alphabet, text: string, s: State)
    requires Step(u, text, s).Success?
    ensures Grown(s, Step(u, text, s).value)
  {
  }

  lemma {:induction false} RunGrows(u: Alphabet, text: string, s: State, ts: seq<Token>)
    requires Run(u, text, s) == Success(ts)
    ensures s.tokens <= ts && forall j | |s.tokens| <= j < |ts| :: s.index <= ts[j].start
    decreases Ahead(text, s).0, Ahead(text, s).1
  {
    if !IsDone(text, s) {
      var next := Step(u, text, s).value;
      StepGrows(u, text, s);
      RunGrows(u, text, next, ts);
      forall j | |s.tokens| <= j < |ts| ensures s.index <= ts[j].start {
        assert j < |next.tokens| ==> ts[j] == next.tokens[j];
      }
    }
  }

  // ---- Frames and levels ----

  /** Every other frame is code, the first one too. */
  predicate Alternates(frames: seq<Frame>)
    decreases |frames|
  {
    frames == [] ||
    var n := |frames| - 1;
    Alternates(frames[..n]) && (frames[n].Code? <==> n == 0 || frames[n - 1].Piece?)
  }

  function Codes(frames: seq<Frame>): nat
    decreases |frames|
  {
    if frames == [] then 0
    else
      var n := |frames| - 1;
      Codes(frames[..n]) + if frames[n].Code? then 1 else 0
  }

  /** Code and templates alternate, and each code has its level of tokens. */
  predicate Nested(s: State) {
    Alternates(s.frames) && Codes(s.frames) == |LevelsOf(s.tokens)|
  }

  lemma OneMoreFrame(below: seq<Frame>, top: Frame)
    ensures Codes(below + [top]) == Codes(below) + if top.Code? then 1 else 0
    ensures Alternates(below + [top]) <==>
            Alternates(below) && (top.Code? <==> below == [] || below[|below| - 1].Piece?)
  {
    assert (below + [top])[..|below|] == below;
  }

  /** The code of the text itself is the only one on its own. */
  lemma OutermostIff(frames: Frames)
    requires Alternates(frames) && frames[|frames| - 1].Code?
    ensures |frames| == 1 <==> Codes(frames) == 1
  {
    if |frames| > 1 {
      var below := frames[..|frames| - 1];
      assert below[|below| - 1].Piece?;
      assert Codes(below[..|below| - 1]) >= 1;
    } else {
      assert Codes(frames[..0]) == 0;
    }
  }

  /** How many levels there are after one more token. */
  lemma LevelsAfter(ts: seq<Token>, t: Token)
    ensures |LevelsOf(ts + [t])| ==
            if OpensSubstitution(t) then |LevelsOf(ts)| + 1
            else if t.kind == ExpressionEnd && |LevelsOf(ts)| > 1 then |LevelsOf(ts)| - 1
            else |LevelsOf(ts)|
  {
    assert (ts + [t])[..|ts|] == ts;
  }

  lemma ItemIsInner(u: Alphabet, text: string, i: nat, reading: Reading, tag: bool)
    requires i < |text| && ItemAt(u, text, i, reading, tag).Success?
    ensures var t := ItemAt(u, text, i, reading, tag).value; !OpensSubstitution(t) && t.kind != ExpressionEnd
  {
  }

  /** The topmost frame changes, in kind or not. */
  lemma NestsInPlace(s: State, below: seq<Frame>, top: Frame, next: State)
    requires Nested(s) && s.frames == below + [top] && |LevelsOf(next.tokens)| == |LevelsOf(s.tokens)|
    requires |next.frames| == |below| + 1 && next.frames[..|below|] == below && next.frames[|below|].Code? == top.Code?
    ensures Nested(next)
  {
    OneMoreFrame(below, top);
    OneMoreFrame(below, next.frames[|below|]);
    assert next.frames == below + [next.frames[|below|]];
  }

  lemma NestsTemplate(s: State, below: Below, depth: int, has: bool, next: State)
    requires Nested(s) && s.frames == Within(below, depth, has) && next.tokens == s.tokens
    requires next.frames == Within(below, depth, true) + [Piece(false)]
    ensures Nested(next)
  {
    OneMoreFrame(below, Code(depth, has));
    OneMoreFrame(below, Code(depth, true));
    OneMoreFrame(Within(below, depth, true), Piece(false));
  }

  lemma NestsOut(s: State, below: Frames, top: Frame, next: State)
    requires Nested(s) && s.frames == below + [top] && next.frames == below
    requires |LevelsOf(next.tokens)| == if top.Code? then |LevelsOf(s.tokens)| - 1 else |LevelsOf(s.tokens)|
    ensures Nested(next)
  {
    OneMoreFrame(below, top);
  }

  lemma NestsIn(s: State, below: Frames, interpolated: bool, next: State)
    requires Nested(s) && s.frames == below + [Piece(interpolated)]
    requires next.frames == Within(below + [Piece(true)], 0, false)
    requires |LevelsOf(next.tokens)| == |LevelsOf(s.tokens)| + 1
    ensures Nested(next)
  {
    OneMoreFrame(below, Piece(interpolated));
    OneMoreFrame(below, Piece(true));
    OneMoreFrame(below + [Piece(true)], Code(0, false));
  }

  lemma {:induction false} FramesHoldCode(frames: Frames)
    ensures Codes(frames) >= 1
    decreases |frames|
  {
    if |frames| > 1 {
      FramesHoldCode(frames[..|frames| - 1]);
    }
  }

  /** The brace that ends a substitution. */
  lemma EndNests(s: State, below: Frames, top: Frame, next: State)
    requires Nested(s) && s.frames == below + [top] && top.Code? && next.frames == below
    requires next.tokens == s.tokens + [Token(ExpressionEnd, "}", s.index, s.index + 1)]
    ensures Nested(next)
  {
    LevelsAfter(s.tokens, next.tokens[|s.tokens|]);
    OneMoreFrame(below, top);
    FramesHoldCode(below);
    NestsOut(s, below, top, next);
  }

  lemma CodeStepNests(u: Alphabet, text: string, s: State, below: Below, depth: int, has: bool, next: State)
    requires Nested(s) && s.frames == Within(below, depth, has) && s.index < |text|
    requires CodeStep(u, text, s, below, depth, has) == Success(next)
    ensures Nested(next)
  {
    var i, top := s.index, Code(depth, has);
    if IsBlank(text[i]) {
      NestsInPlace(s, below, top, next);
    } else if OpenedComment(text, i, has).value.Some? {
      LevelsAfter(s.tokens, next.tokens[|s.tokens|]);
      NestsInPlace(s, below, top, next);
    } else if text[i] == '}' && depth == 0 && below != [] {
      EndNests(s, below, top, next);
    } else if text[i] == '`' {
      NestsTemplate(s, below, depth, has, next);
    } else {
      ItemIsInner(u, text, i, ReadingAt(text, s.tokens, i), ExpectsTag(text, s.tokens, i));
      LevelsAfter(s.tokens, next.tokens[|s.tokens|]);
      NestsInPlace(s, below, top, next);
    }
  }

  lemma PieceStepNests(text: string, s: State, below: Frames, interpolated: bool)
    requires Nested(s) && s.frames == below + [Piece(interpolated)] && PieceStep(text, s, below, interpolated).Success?
    ensures Nested(PieceStep(text, s, below, interpolated).value)
  {
    var next := PieceStep(text, s, below, interpolated).value;
    var piece := next.tokens[|s.tokens|];
    LevelsAfter(s.tokens, piece);
    if |next.tokens| == |s.tokens| + 1 {
      NestsOut(s, below, Piece(interpolated), next);
    } else {
      LevelsAfter(s.tokens + [piece], next.tokens[|s.tokens| + 1]);
      NestsIn(s, below, interpolated, next);
    }
  }

  lemma StepNests(u: Alphabet, text: string, s: State)
    requires Nested(s) && Step(u, text, s).Success?
    ensures Nested(Step(u, text, s).value)
  {
    var below, top := s.frames[..|s.frames| - 1], s.frames[|s.frames| - 1];
    assert s.frames == below + [top];
    if top.Piece? {
      PieceStepNests(text, s, below, top.interpolated);
    } else {
      CodeStepNests(u, text, s, below, top.depth, top.lineHasCode, Step(u, text, s).value);
    }
  }

  // ---- The text cut off behind a closing bracket ----

  /** A closing bracket of code, or the end of a substitution. */
  predicate IsClosing(text: string, t: Token) {
    && t.start < |text| && t.end == t.start + 1 && IsCloser(text[t.start]) && t.value == [text[t.start]]
    && (t.kind == Punctuation || t.kind == ExpressionEnd)
  }

  /** What cutting off the text behind a closing token gives. */
  function CutResult(ts: seq<Token>, c: nat): Result<seq<Token>, LexError>
    requires c < |ts|
  {
    if ts[c].kind == ExpressionEnd then Failure(UnterminatedTemplate)
    else if Outer(LevelsOf(ts[..c + 1])) == [] then Success(ts[..c + 1])
    else Failure(UnterminatedExpression)
  }

  /** No token is added, or one that ends where the text goes on. */
  ghost predicate Adds(was: State, now: State) {
    now.tokens == was.tokens ||
    (|now.tokens| == |was.tokens| + 1 && was.tokens <= now.tokens && now.index == now.tokens[|was.tokens|].end)
  }

  /** Only the end of a substitution leaves the code at hand. */
  ghost predicate Stays(was: State, now: State) {
    |was.tokens| < |now.tokens| ==>
      if now.tokens[|was.tokens|].kind == ExpressionEnd then
        now.frames == was.frames[..|was.frames| - 1]
      else now.frames[|now.frames| - 1].Code?
  }

  lemma CodeStepAdds(u: Alphabet, text: string, s: State, below: Below, depth: int, has: bool)
    requires s.index < |text| && CodeStep(u, text, s, below, depth, has).Success?
    ensures Adds(s, CodeStep(u, text, s, below, depth, has).value)
  {
  }

  lemma CodeStepStays(u: Alphabet, text: string, s: State, below: Below, depth: int, has: bool, next: State)
    requires s.frames == Within(below, depth, has) && s.index < |text|
    requires CodeStep(u, text, s, below, depth, has) == Success(next)
    ensures Stays(s, next)
  {
    var i := s.index;
    assert s.frames[..|below|] == below;
    if IsBlank(text[i]) || OpenedComment(text, i, has).value.Some? {
      assert next.frames[|below|].Code?;
    } else if !(text[i] == '}' && depth == 0 && below != []) && text[i] != '`' {
      ItemIsInner(u, text, i, ReadingAt(text, s.tokens, i), ExpectsTag(text, s.tokens, i));
      assert next.frames[|below|].Code?;
    }
  }

  lemma CodeAdds(step: Stepper, u: Alphabet, text: string, s: State, next: State)
    requires step(u, text, s) == Success(next) && s.frames[|s.frames| - 1].Code?
    ensures Adds(s, next) && Stays(s, next)
  {
    var below, top := s.frames[..|s.frames| - 1], s.frames[|s.frames| - 1];
    assert s.frames == below + [top] && step(u, text, s) == Step(u, text, s);
    CodeStepAdds(u, text, s, below, top.depth, top.lineHasCode);
    CodeStepStays(u, text, s, below, top.depth, top.lineHasCode, next);
  }

  lemma PieceDoesNotClose(step: Stepper, u: Alphabet, text: string, s: State, next: State, c: nat)
    requires step(u, text, s) == Success(next) && s.frames[|s.frames| - 1].Piece? && |s.tokens| <= c < |next.tokens|
    ensures !IsClosing(text, next.tokens[c])
  {
    assert step(u, text, s) == Step(u, text, s);
  }

  /** The step that appends a closing token appends it alone. */
  lemma StepCloses(step: Stepper, u: Alphabet, text: string, s: State, next: State, c: nat)
    requires Nested(s) && step(u, text, s) == Success(next)
    requires |s.tokens| <= c < |next.tokens| && IsClosing(text, next.tokens[c])
    ensures next.tokens == s.tokens + [next.tokens[c]] && next.index == next.tokens[c].end
    ensures next.frames[|next.frames| - 1].Piece? <==> next.tokens[c].kind == ExpressionEnd
  {
    var below, top := s.frames[..|s.frames| - 1], s.frames[|s.frames| - 1];
    if top.Piece? {
      PieceDoesNotClose(step, u, text, s, next, c);
    } else {
      CodeAdds(step, u, text, s, next);
      assert s.frames == below + [top];
      OneMoreFrame(below, top);
    }
  }

  lemma EndsAtCut(run: Runner, u: Alphabet, p: string, ts: seq<Token>, c: nat, s: State)
    requires Nested(s) && s.index == |p| && c < |ts| && s.tokens == ts[..c + 1]
    requires s.frames[|s.frames| - 1].Piece? <==> ts[c].kind == ExpressionEnd
    ensures run(u, p, s) == CutResult(ts, c)
  {
    assert run(u, p, s) == Run(u, p, s);
    if s.frames[|s.frames| - 1].Code? {
      OutermostIff(s.frames);
    }
  }

  /** A step that does not go beyond the cut is the same on both sides of it. */
  lemma CutFollows(run: Runner, step: Stepper, u: Alphabet, text: string, p: string, s: State, next: State)
    requires p <= text && CutsAt(text, |p|) && s.index < |p| && next.index <= |p| && step(u, text, s) == Success(next)
    ensures run(u, p, s) == run(u, p, next)
  {
    assert step(u, text, s) == Step(u, text, s) && p == text[..|p|];
    StepInCut(u, text, |p|, s);
    StepRuns(run, u, p, s);
  }

  lemma NotDone(run: Runner, u: Alphabet, text: string, s: State, ts: seq<Token>)
    requires run(u, text, s) == Success(ts) && |s.tokens| < |ts|
    ensures !IsDone(text, s)
  {
    assert run(u, text, s) == Run(u, text, s);
  }

  lemma RunsOn(run: Runner, step: Stepper, u: Alphabet, text: string, s: State, ts: seq<Token>) returns (next: State)
    requires run(u, text, s) == Success(ts) && !IsDone(text, s)
    ensures step(u, text, s) == Success(next) && run(u, text, next) == Success(ts)
    ensures || Ahead(text, next).0 < Ahead(text, s).0
            || (Ahead(text, next).0 == Ahead(text, s).0 && Ahead(text, next).1 < Ahead(text, s).1)
  {
    assert step(u, text, s) == Step(u, text, s) && run(u, text, s) == Run(u, text, s);
    next := Step(u, text, s).value;
    assert run(u, text, next) == Run(u, text, next);
  }

  lemma RunAppends(run: Runner, u: Alphabet, text: string, s: State, ts: seq<Token>)
    requires run(u, text, s) == Success(ts)
    ensures s.tokens <= ts && forall j | |s.tokens| <= j < |ts| :: s.index <= ts[j].start
  {
    assert run(u, text, s) == Run(u, text, s);
    RunGrows(u, text, s, ts);
  }

  lemma Nests(step: Stepper, u: Alphabet, text: string, s: State, next: State)
    requires Nested(s) && step(u, text, s) == Success(next)
    ensures Nested(next)
  {
    assert step(u, text, s) == Step(u, text, s);
    StepNests(u, text, s);
  }

  lemma {:induction false} CutRuns(
    run: Runner, step: Stepper, u: Alphabet, text: string, p: string, ts: seq<Token>, c: nat, s: State)
    requires run(u, text, s) == Success(ts) && Nested(s) && |s.tokens| <= c < |ts| && IsClosing(text, ts[c])
    requires p == text[..ts[c].end]
    ensures run(u, p, s) == CutResult(ts, c)
    decreases Ahead(text, s).0, Ahead(text, s).1
  {
    NotDone(run, u, text, s, ts);
    var next := RunsOn(run, step, u, text, s, ts);
    RunAppends(run, u, text, s, ts);
    RunAppends(run, u, text, next, ts);
    Nests(step, u, text, s, next);
    if c < |next.tokens| {
      assert next.tokens[c] == ts[c];
      StepCloses(step, u, text, s, next, c);
      assert next.tokens == ts[..c + 1];
      EndsAtCut(run, u, p, ts, c, next);
    } else {
      CutRuns(run, step, u, text, p, ts, c, next);
    }
    CutFollows(run, step, u, text, p, s, next);
  }

  lemma StartNests()
    ensures Nested(State(0, [], Within([], 0, false)))
  {
    OneMoreFrame([], Code(0, false));
  }

  /**
   Lexing the text up to a closing bracket gives the tokens up to there when the bracket stands
   outside every substitution, and fails when it stands inside one or ends one.
   */
  lemma CutLexes(u: Alphabet, text: string, ts: seq<Token>, c: nat)
    requires Lex(u, text) == Success(ts) && c < |ts| && IsClosing(text, ts[c])
    ensures Lex(u, text[..ts[c].end]) == CutResult(ts, c)
  {
    var run: Runner := (u: Alphabet, text: string, s: State) => Run(u, text, s);
    var step: Stepper := (u: Alphabet, text: string, s: State) => Step(u, text, s);
    StartNests();
    CutRuns(run, step, u, text, text[..ts[c].end], ts, c, State(0, [], Within([], 0, false)));
  }

  // ---- Substitutions are closed ----

  lemma {:induction false} RunEnds(run: Runner, step: Stepper, u: Alphabet, text: string, ts: seq<Token>, s: State)
    requires run(u, text, s) == Success(ts) && Nested(s)
    ensures |LevelsOf(ts)| == 1
    decreases Ahead(text, s).0, Ahead(text, s).1
  {
    if IsDone(text, s) {
      assert run(u, text, s) == Run(u, text, s);
      OutermostIff(s.frames);
    } else {
      var next := RunsOn(run, step, u, text, s, ts);
      Nests(step, u, text, s, next);
      RunEnds(run, step, u, text, ts, next);
    }
  }

  lemma LexCloses(u: Alphabet, text: string, ts: seq<Token>)
    requires Lex(u, text) == Success(ts)
    ensures |LevelsOf(ts)| == 1
  {
    var run: Runner := (u: Alphabet, text: string, s: State) => Run(u, text, s);
    var step: Stepper := (u: Alphabet, text: string, s: State) => Step(u, text, s);
    StartNests();
    RunEnds(run, step, u, text, ts, State(0, [], Within([], 0, false)));
  }

  predicate HoldsNoEnd(ts: seq<Token>) {
    forall i | 0 <= i < |ts| :: ts[i].kind != ExpressionEnd
  }

  lemma {:induction false} LevelsOnlyGrow(ts: seq<Token>, n: nat)
    requires HoldsNoEnd(ts) && n <= |ts|
    ensures |LevelsOf(ts[..n])| <= |LevelsOf(ts)|
    decreases |ts|
  {
    if n == |ts| {
      assert ts[..n] == ts;
    } else {
      var last := |ts| - 1;
      assert ts[..last][..n] == ts[..n] && ts == ts[..last] + [ts[last]];
      LevelsOnlyGrow(ts[..last], n);
      LevelsAfter(ts[..last], ts[last]);
    }
  }

  /** A text whose tokens end no substitution opens none either. */
  lemma NoEndNoSubstitution(u: Alphabet, text: string, ts: seq<Token>, c: nat)
    requires Lex(u, text) == Success(ts) && HoldsNoEnd(ts) && c < |ts|
    ensures Outer(LevelsOf(ts[..c + 1])) == []
  {
    LexCloses(u, text, ts);
    LevelsOnlyGrow(ts, c + 1);
  }
}
