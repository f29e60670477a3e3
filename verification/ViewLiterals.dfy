/**
 Texts in which quotes, backquotes and slashes occur in plain literals only, as in the scan view:
 when no comment runs into a literal, the lexer takes each literal for one token and finds no
 template substitution.
 */
module ViewLiterals {
  import opened Wrappers
  import opened Text
  import opened LexerModel
  import opened LexerContext
  import opened LexerMachine
  import opened LexerPrefix
  import opened LexerTheorems

  datatype Span = Span(start: nat, end: nat)

  predicate IsQuote(c: char) {
    c == '\'' || c == '"' || c == '`'
  }

  predicate IsLoud(c: char) {
    IsQuote(c) || c == '/'
  }

  /** A string, or a template without substitutions. */
  predicate IsPlainLiteral(text: string, l: Span) {
    && l.start + 1 < l.end <= |text|
    && if text[l.start] == '`' then PieceEnd(text, l.start + 1) == Some(l.end - 1) && text[l.end - 1] == '`'
       else IsQuote(text[l.start]) && StringEnd(text, l.start + 1, text[l.start]) == Some(l.end)
  }

  predicate Apart(l: Span, m: Span) {
    l.end <= m.start || m.end <= l.start
  }

  predicate Covers(l: Span, k: nat) {
    l.start <= k < l.end
  }

  ghost predicate Covered(lits: set<Span>, k: nat) {
    exists l :: l in lits && Covers(l, k)
  }

  /** All quotes, backquotes and slashes stand in these plain literals. */
  ghost predicate PlainlyQuoted(text: string, lits: set<Span>) {
    && (forall l | l in lits :: IsPlainLiteral(text, l))
    && (forall l, m | l in lits && m in lits && l != m :: Apart(l, m))
    && (forall k: nat {:trigger Covered(lits, k)} | k < |text| && IsLoud(text[k]) :: Covered(lits, k))
  }

  /** The position is inside no literal. */
  ghost predicate Synced(lits: set<Span>, i: nat) {
    forall l | l in lits :: i <= l.start || l.end <= i
  }

  predicate IsInert(kind: Kind) {
    kind == Str || kind == StaticTemplate
  }

  predicate IsTokenOf(ts: seq<Token>, l: Span) {
    exists i :: 0 <= i < |ts| && IsInert(ts[i].kind) && ts[i].start == l.start && ts[i].end == l.end
  }

  predicate MissesLiterals(t: Token, lits: set<Span>) {
    forall l | l in lits :: Apart(Span(t.start, t.end), l)
  }

  /** No comment runs into a literal. */
  predicate CommentsMiss(ts: seq<Token>, lits: set<Span>) {
    forall i | 0 <= i < |ts| && ts[i].kind == Comment :: MissesLiterals(ts[i], lits)
  }

  // ---- Other tokens hold no quotes ----

  predicate Unquoted(text: string, a: nat, b: nat) {
    forall k | a <= k < b && k < |text| :: !IsQuote(text[k])
  }

  lemma EscapeIsUnquoted(u: Alphabet, text: string, i: nat)
    requires Decode(u, text, i).Some?
    ensures Unquoted(text, i, Decode(u, text, i).value.1)
  {
    var digits, next := EscapeDigits(text, i).value.0, EscapeDigits(text, i).value.1;
    assert text[i..i + 2][1] == 'u';
    var braced := i + 2 < |text| && text[i + 2] == '{';
    var from := if braced then i + 3 else i + 2;
    forall k | i <= k < next && k < |text| ensures !IsQuote(text[k]) {
      if from <= k && !(braced && k == next - 1) {
        assert text[k] == digits[k - from] && digits[k - from] in digits;
      } else if from <= k {
        assert text[k..k + 1] == "}";
      }
    }
  }

  lemma {:induction false} NameIsUnquoted(u: Alphabet, text: string, i: nat, parts: string)
    requires NameFrom(u, text, i, parts).Success? && NameFrom(u, text, i, parts).value.Some?
    ensures Unquoted(text, i, NameFrom(u, text, i, parts).value.value.1)
    decreases |text| - i
  {
    if i < |text| && text[i] == '\\' {
      var d := Decode(u, text, i).value;
      EscapeIsUnquoted(u, text, i);
      NameIsUnquoted(u, text, d.1, parts + [d.0]);
    } else if i < |text| && IsWord(u, text[i]) {
      NameIsUnquoted(u, text, i + 1, parts + [text[i]]);
    }
  }

  lemma {:induction false} RunsAreUnquoted(u: Alphabet, text: string, i: nat)
    requires i <= |text|
    ensures Unquoted(text, i, NumberEnd(u, text, i)) && Unquoted(text, i, TagEnd(text, i)) && Unquoted(text, i, SpaceEnd(text, i))
    decreases |text| - i
  {
    if i < |text| {
      RunsAreUnquoted(u, text, i + 1);
    }
  }

  lemma IntrinsicIsUnquoted(u: Alphabet, text: string, i: nat)
    requires i < |text| && IntrinsicEnd(text, i).Some?
    ensures Unquoted(text, i, IntrinsicEnd(text, i).value)
  {
    var tag := TagEnd(text, i + 2);
    RunsAreUnquoted(u, text, i + 2);
    RunsAreUnquoted(u, text, tag);
    var close := SpaceEnd(text, tag);
    var end := text[close..close + 2];
    assert end == "/>" && text[close] == end[0] && text[close + 1] == end[1];
  }

  lemma MarkIsUnquoted(text: string, i: nat)
    requires i < |text| && !IsQuote(text[i])
    ensures Unquoted(text, i, MarkAt(text, i).end)
  {
    var pair := Slice(text, i, i + 2);
    if IsDoubleMark(pair) {
      assert pair[0] == text[i] && (i + 1 < |text| ==> pair[1] == text[i + 1]);
    }
  }

  lemma WordIsUnquoted(u: Alphabet, text: string, i: nat)
    requires i < |text| && !IsQuote(text[i]) && WordAt(u, text, i).Success?
    ensures Unquoted(text, i, WordAt(u, text, i).value.end)
  {
    if NameFrom(u, text, i, "").value.Some? {
      NameIsUnquoted(u, text, i, "");
    } else {
      RunsAreUnquoted(u, text, i + 1);
    }
  }

  lemma ItemIsUnquoted(u: Alphabet, text: string, i: nat, reading: Reading, tag: bool)
    requires i < |text| && !IsLoud(text[i]) && ItemAt(u, text, i, reading, tag).Success?
    ensures Unquoted(text, i, ItemAt(u, text, i, reading, tag).value.end)
  {
    var c := text[i];
    if c == '<' && AngleAt(u, text, i, tag).value.Some? {
      IntrinsicIsUnquoted(u, text, i);
    } else if c == '#' {
      NameIsUnquoted(u, text, i + 1, "");
    } else if IsWord(u, c) || c == '\\' {
      WordIsUnquoted(u, text, i);
    } else {
      MarkIsUnquoted(text, i);
    }
  }

  // ---- The lexer meets every literal at its start ----

  /** The literal that starts here. */
  lemma LoudStarts(text: string, lits: set<Span>, i: nat) returns (l: Span)
    requires PlainlyQuoted(text, lits) && Synced(lits, i) && i < |text| && IsLoud(text[i])
    ensures l in lits && l.start == i && IsPlainLiteral(text, l) && IsQuote(text[i])
  {
    assert Covered(lits, i);
    l :| l in lits && Covers(l, i);
  }

  /** From `a` to `b` without touching a literal that starts at `a` or later. */
  lemma UnquotedMisses(text: string, lits: set<Span>, a: nat, b: nat)
    requires PlainlyQuoted(text, lits) && Synced(lits, a) && Unquoted(text, a, b)
    ensures forall l | l in lits :: b <= l.start || l.end <= a
  {
    forall l | l in lits ensures b <= l.start || l.end <= a {
      assert IsPlainLiteral(text, l);
    }
  }

  lemma LiteralsApart(text: string, lits: set<Span>, l: Span)
    requires PlainlyQuoted(text, lits) && l in lits && Synced(lits, l.start)
    ensures forall m | m in lits && m != l :: l.end <= m.start || m.end <= l.start
  {
    forall m | m in lits && m != l ensures l.end <= m.start || m.end <= l.start {
      assert Apart(l, m);
    }
  }

  /** Every literal is still ahead, was behind already, or is the token just read. */
  ghost predicate Passes(lits: set<Span>, was: nat, now: nat, t: Token) {
    forall l | l in lits ::
      now <= l.start || l.end <= was || (l == Span(t.start, t.end) && IsInert(t.kind) && l.end == now)
  }

  lemma ItemPasses(u: Alphabet, text: string, lits: set<Span>, i: nat, reading: Reading, tag: bool)
    requires PlainlyQuoted(text, lits) && Synced(lits, i) && i < |text| && text[i] != '`'
    requires ItemAt(u, text, i, reading, tag).Success?
    ensures var t := ItemAt(u, text, i, reading, tag).value; Passes(lits, i, t.end, t)
  {
    var t := ItemAt(u, text, i, reading, tag).value;
    if IsLoud(text[i]) {
      var l := LoudStarts(text, lits, i);
      LiteralsApart(text, lits, l);
      assert t.kind == Str && t.end == l.end;
    } else {
      ItemIsUnquoted(u, text, i, reading, tag);
      UnquotedMisses(text, lits, i, t.end);
    }
  }

  lemma TemplatePasses(text: string, lits: set<Span>, i: nat, from: nat, end: nat, t: Token)
    requires PlainlyQuoted(text, lits) && Synced(lits, i) && i < |text| && text[i] == '`' && from == i + 1
    requires PieceEnd(text, from) == Some(end) && t.kind == StaticTemplate && t.start == i && t.end == end + 1
    ensures text[end] == '`' && Passes(lits, i, t.end, t)
  {
    var l := LoudStarts(text, lits, i);
    LiteralsApart(text, lits, l);
  }

  lemma TemplateEnds(text: string, lits: set<Span>, i: nat, from: nat) returns (end: nat)
    requires PlainlyQuoted(text, lits) && Synced(lits, i) && i < |text| && text[i] == '`' && from == i + 1
    ensures PieceEnd(text, from) == Some(end) && text[end] == '`' && i < end
  {
    var l := LoudStarts(text, lits, i);
    end := l.end - 1;
  }

  // ---- The machine over plain literals ----

  /** In code outside every literal, or at the start of a template. */
  ghost predicate AtPlain(text: string, lits: set<Span>, s: State) {
    && Synced(lits, s.index)
    && (|s.frames| == 1 || (|s.frames| == 2 && s.frames[1] == Piece(false) && s.index < |text| && text[s.index] == '`'))
  }

  /** The literals behind are tokens, and no substitution has ended. */
  ghost predicate HasRead(lits: set<Span>, s: State) {
    && HoldsNoEnd(s.tokens)
    && forall l | l in lits && l.end <= s.index :: IsTokenOf(s.tokens, l)
  }

  lemma ReadsOn(lits: set<Span>, s: State, next: State, t: Token)
    requires HasRead(lits, s) && next.tokens == s.tokens + [t] && t.kind != ExpressionEnd && s.index <= next.index
    requires Passes(lits, s.index, next.index, t) && forall l | l in lits :: l.start < l.end
    ensures HasRead(lits, next) && Synced(lits, next.index)
  {
    forall l | l in lits && l.end <= next.index ensures IsTokenOf(next.tokens, l) {
      if l.end <= s.index {
        var i :| 0 <= i < |s.tokens| && IsInert(s.tokens[i].kind) && s.tokens[i].start == l.start && s.tokens[i].end == l.end;
        assert next.tokens[i] == s.tokens[i];
      } else {
        assert next.tokens[|s.tokens|] == t;
      }
    }
  }

  lemma BlankIsNoQuote(c: char)
    requires IsBlank(c)
    ensures !IsQuote(c)
  {
    assert '\'' as int == 39 && '"' as int == 34 && '`' as int == 96;
  }

  lemma BlankReads(text: string, lits: set<Span>, s: State, next: State)
    requires PlainlyQuoted(text, lits) && HasRead(lits, s) && Synced(lits, s.index)
    requires s.index < |text| && IsBlank(text[s.index]) && next.tokens == s.tokens && next.index == s.index + 1
    ensures HasRead(lits, next) && Synced(lits, next.index)
  {
    BlankIsNoQuote(text[s.index]);
    UnquotedMisses(text, lits, s.index, next.index);
    LiteralsHaveLength(text, lits);
  }

  lemma CommentReads(text: string, lits: set<Span>, s: State, next: State, t: Token)
    requires PlainlyQuoted(text, lits) && HasRead(lits, s) && Synced(lits, s.index) && t.kind == Comment
    requires next.tokens == s.tokens + [t] && t.start == s.index < t.end == next.index && MissesLiterals(t, lits)
    ensures HasRead(lits, next) && Synced(lits, next.index)
  {
    forall l | l in lits ensures next.index <= l.start || l.end <= s.index {
      assert Apart(Span(t.start, t.end), l);
    }
    LiteralsHaveLength(text, lits);
    ReadsOn(lits, s, next, t);
  }

  lemma LiteralsHaveLength(text: string, lits: set<Span>)
    requires PlainlyQuoted(text, lits)
    ensures forall l | l in lits :: l.start < l.end
  {
    forall l | l in lits ensures l.start < l.end {
      assert IsPlainLiteral(text, l);
    }
  }

  lemma ItemReads(
    u: Alphabet, text: string, lits: set<Span>, s: State, next: State, reading: Reading, tag: bool, t: Token)
    requires PlainlyQuoted(text, lits) && HasRead(lits, s) && Synced(lits, s.index)
    requires s.index < |text| && text[s.index] != '`' && ItemAt(u, text, s.index, reading, tag) == Success(t)
    requires next.tokens == s.tokens + [t] && next.index == t.end
    ensures HasRead(lits, next) && Synced(lits, next.index)
  {
    ItemPasses(u, text, lits, s.index, reading, tag);
    ItemIsInner(u, text, s.index, reading, tag);
    LiteralsHaveLength(text, lits);
    ReadsOn(lits, s, next, t);
  }

  lemma TemplateReads(text: string, lits: set<Span>, s: State, below: Frames, next: State)
    requires PlainlyQuoted(text, lits) && HasRead(lits, s) && Synced(lits, s.index)
    requires s.index < |text| && text[s.index] == '`' && PieceStep(text, s, below, false) == Success(next)
    ensures HasRead(lits, next) && Synced(lits, next.index) && next.frames == below
  {
    var from := s.index + 1;
    var end := TemplateEnds(text, lits, s.index, from);
    var t := next.tokens[|s.tokens|];
    LastPieceStep(text, s, below, next, from, end, t);
    TemplatePasses(text, lits, s.index, from, end, t);
    LiteralsHaveLength(text, lits);
    ReadsOn(lits, s, next, t);
  }

  lemma LastPieceStep(text: string, s: State, below: Frames, next: State, from: nat, end: nat, t: Token)
    requires PieceStep(text, s, below, false) == Success(next) && from == s.index + 1
    requires PieceEnd(text, from) == Some(end) && text[end] == '`' && t == next.tokens[|s.tokens|]
    ensures next.tokens == s.tokens + [t] && t.kind == StaticTemplate && t.start == s.index
    ensures t.end == end + 1 == next.index && next.frames == below
  {
  }

  /** The comment this step adds, if any, runs into no literal. */
  ghost predicate CommentMisses(lits: set<Span>, was: State, now: State) {
    |was.tokens| < |now.tokens| && now.tokens[|was.tokens|].kind == Comment ==>
      MissesLiterals(now.tokens[|was.tokens|], lits)
  }

  lemma CodeReads(
    u: Alphabet, text: string, lits: set<Span>, s: State, depth: int, has: bool, next: State)
    requires PlainlyQuoted(text, lits) && HasRead(lits, s) && Synced(lits, s.index) && s.frames == Within([], depth, has)
    requires s.index < |text| && CodeStep(u, text, s, [], depth, has) == Success(next) && CommentMisses(lits, s, next)
    ensures HasRead(lits, next) && AtPlain(text, lits, next)
  {
    var i := s.index;
    if IsBlank(text[i]) {
      BlankReads(text, lits, s, next);
    } else if OpenedComment(text, i, has).value.Some? {
      var t := next.tokens[|s.tokens|];
      CommentReads(text, lits, s, next, t);
    } else if text[i] != '`' {
      var reading, tag := ReadingAt(text, s.tokens, i), ExpectsTag(text, s.tokens, i);
      ItemReads(u, text, lits, s, next, reading, tag, ItemAt(u, text, i, reading, tag).value);
    }
  }

  lemma CodeStepReads(step: Stepper, u: Alphabet, text: string, lits: set<Span>, s: State, next: State)
    requires PlainlyQuoted(text, lits) && HasRead(lits, s) && Synced(lits, s.index) && |s.frames| == 1
    requires step(u, text, s) == Success(next) && CommentMisses(lits, s, next)
    ensures HasRead(lits, next) && AtPlain(text, lits, next)
  {
    var code := s.frames[0];
    assert step(u, text, s) == Step(u, text, s);
    assert s.frames == Within([], code.depth, code.lineHasCode) && s.frames[..0] == [];
    CodeReads(u, text, lits, s, code.depth, code.lineHasCode, next);
  }

  lemma PieceStepReads(step: Stepper, u: Alphabet, text: string, lits: set<Span>, s: State, next: State)
    requires PlainlyQuoted(text, lits) && HasRead(lits, s) && Synced(lits, s.index) && |s.frames| == 2
    requires s.frames[1] == Piece(false) && s.index < |text| && text[s.index] == '`'
    requires step(u, text, s) == Success(next)
    ensures HasRead(lits, next) && AtPlain(text, lits, next)
  {
    assert step(u, text, s) == Step(u, text, s);
    TemplateReads(text, lits, s, s.frames[..1], next);
  }

  lemma StepReads(step: Stepper, u: Alphabet, text: string, lits: set<Span>, s: State, next: State)
    requires PlainlyQuoted(text, lits) && HasRead(lits, s) && AtPlain(text, lits, s)
    requires step(u, text, s) == Success(next) && CommentMisses(lits, s, next)
    ensures HasRead(lits, next) && AtPlain(text, lits, next)
  {
    if |s.frames| == 1 {
      CodeStepReads(step, u, text, lits, s, next);
    } else {
      PieceStepReads(step, u, text, lits, s, next);
    }
  }

  lemma {:induction false} RunReads(
    run: Runner, step: Stepper, u: Alphabet, text: string, lits: set<Span>, ts: seq<Token>, s: State)
    requires PlainlyQuoted(text, lits) && HasRead(lits, s) && AtPlain(text, lits, s)
    requires run(u, text, s) == Success(ts) && CommentsMiss(ts, lits)
    ensures HoldsNoEnd(ts) && forall l | l in lits :: IsTokenOf(ts, l)
    decreases Ahead(text, s).0, Ahead(text, s).1
  {
    if IsDone(text, s) {
      assert run(u, text, s) == Run(u, text, s);
      forall l | l in lits ensures IsTokenOf(ts, l) {
        assert IsPlainLiteral(text, l);
      }
    } else {
      var next := RunsOn(run, step, u, text, s, ts);
      RunAppends(run, u, text, next, ts);
      assert |s.tokens| < |next.tokens| ==> next.tokens[|s.tokens|] == ts[|s.tokens|];
      StepReads(step, u, text, lits, s, next);
      RunReads(run, step, u, text, lits, ts, next);
    }
  }

  lemma CommentsMissTokens(u: Alphabet, text: string, ts: seq<Token>, end: nat, lits: set<Span>)
    requires Tiles(u, text, ts, end) && forall l | l in lits :: IsTokenOf(ts, l)
    ensures CommentsMiss(ts, lits)
  {
    TilesAreOrdered(u, text, ts, end);
    forall i, l | 0 <= i < |ts| && ts[i].kind == Comment && l in lits ensures Apart(Span(ts[i].start, ts[i].end), l) {
      var j :| 0 <= j < |ts| && IsInert(ts[j].kind) && ts[j].start == l.start && ts[j].end == l.end;
    }
  }

  /**
   An accepted text with quotes and slashes in plain literals only is lexed in step with them, each
   one a token, exactly when no comment runs into one.
   */
  lemma LiteralsAreTokensIff(u: Alphabet, text: string, ts: seq<Token>, end: nat, lits: set<Span>)
    requires PlainlyQuoted(text, lits) && Lex(u, text) == Success(ts) && Tiles(u, text, ts, end)
    ensures (forall l | l in lits :: IsTokenOf(ts, l)) <==> CommentsMiss(ts, lits)
  {
    if CommentsMiss(ts, lits) {
      InStepNoSubstitution(u, text, ts, lits);
    } else if forall l | l in lits :: IsTokenOf(ts, l) {
      CommentsMissTokens(u, text, ts, end, lits);
    }
  }

  /** Then it holds no template substitution. */
  lemma InStepNoSubstitution(u: Alphabet, text: string, ts: seq<Token>, lits: set<Span>)
    requires PlainlyQuoted(text, lits) && Lex(u, text) == Success(ts) && CommentsMiss(ts, lits)
    ensures HoldsNoEnd(ts) && forall l | l in lits :: IsTokenOf(ts, l)
  {
    var run: Runner := (u: Alphabet, text: string, s: State) => Run(u, text, s);
    var step: Stepper := (u: Alphabet, text: string, s: State) => Step(u, text, s);
    var start := State(0, [], Within([], 0, false));
    LiteralsHaveLength(text, lits);
    RunReads(run, step, u, text, lits, ts, start);
  }
}
