/**
 What decides how a slash or an angle bracket is read: the two tokens before it at its own level of
 template nesting, a line break, and the innermost open parenthesis.
 */
module LexerContext {
  import opened Wrappers
  import opened Text
  import opened LexerModel

  /**
   What the lexer remembers of the token before: its class, and the text that matters.  `Pending`
   stands for a template literal whose next piece is due.
   */
  datatype Class = Word | Literal | Mark | Pending

  datatype Prior = Prior(class_: Class, value: string)

  const REGEX_KEYWORDS: set<string> := {
    "break", "case", "continue", "debugger", "default", "delete", "do", "else", "extends",
    "in", "instanceof", "new", "return", "throw", "typeof", "void"}

  const EXPRESSION_MARKS: set<string> := {
    "(", "[", "{", "=", ",", ":", ";", "?", "!", "&", "|", "+", "-", "*", "%", "^", "~", "@", "=>"}

  function NonComments(ts: seq<Token>): seq<Token> {
    if ts == [] then []
    else
      var n := |ts| - 1;
      NonComments(ts[..n]) + if ts[n].kind == Comment then [] else [ts[n]]
  }

  /** A line terminator since the last token that is no comment. */
  predicate BreaksLine(text: string, ts: seq<Token>, index: nat) {
    var code := NonComments(ts);
    code != [] && HasTerminator(Slice(text, code[|code| - 1].end, index))
  }

  predicate IsWordOf(prior: Option<Prior>, words: set<string>) {
    prior.Some? && prior.value.class_ == Word && prior.value.value in words
  }

  predicate IsMarkOf(prior: Option<Prior>, marks: set<string>) {
    prior.Some? && prior.value.class_ == Mark && prior.value.value in marks
  }

  predicate ExpectsExpression(prior: Option<Prior>) {
    || prior.None?
    || IsMarkOf(prior, EXPRESSION_MARKS + {"<", ">"})
    || IsWordOf(prior, REGEX_KEYWORDS + {"await", "yield", "of"})
  }

  predicate EndsExpression(prior: Prior) {
    || prior.class_ == Literal
    || prior.value in {")", "]", "}", "++", "--", "postfix!"}
    || (prior.class_ == Word
        && prior.value !in REGEX_KEYWORDS + {"await", "yield", "of", "const", "let", "var", "export", "import"})
  }

  // ---- The tokens before, level by level ----

  const PENDING: Prior := Prior(Pending, "")
  const TEMPLATE: Prior := Prior(Literal, "template")

  /** A `!` after a value is an assertion, not an operator. */
  function MarkAfter(value: string, previous: Option<Prior>): Prior {
    Prior(Mark, if value == "!" && previous.Some? && EndsExpression(previous.value) then "postfix!" else value)
  }

  /** What the code after `t` remembers of it. */
  function PriorOf(t: Token, previous: Option<Prior>): Prior {
    match t.kind
    case Identifier => Prior(Word, t.value)
    case Punctuation => MarkAfter(t.value, previous)
    case Str => Prior(Literal, "string")
    case Regex => Prior(Literal, "regex")
    case Number => Prior(Literal, "number")
    case PrivateIdentifier => Prior(Literal, "private-identifier")
    case JsxIntrinsic => Prior(Literal, "jsx-intrinsic")
    case _ => TEMPLATE
  }

  function Previous(level: seq<Prior>): Option<Prior> {
    if level == [] then None else Some(level[|level| - 1])
  }

  function BeforePrevious(level: seq<Prior>): Option<Prior> {
    if |level| < 2 then None else Some(level[|level| - 2])
  }

  /** One level for the text and one for each substitution still open, innermost last. */
  type Levels = levels: seq<seq<Prior>> | levels != [] witness [[]]

  function Outer(levels: Levels): seq<seq<Prior>> {
    levels[..|levels| - 1]
  }

  function Top(levels: Levels): seq<Prior> {
    levels[|levels| - 1]
  }

  function Shift(levels: Levels, p: Prior): Levels {
    Outer(levels) + [Top(levels) + [p]]
  }

  function Unshift(levels: Levels): Levels {
    if Top(levels) == [] then levels else Outer(levels) + [Top(levels)[..|Top(levels)| - 1]]
  }

  function Leave(levels: Levels): Levels {
    if Outer(levels) == [] then levels else Outer(levels)
  }

  predicate IsPending(levels: Levels) {
    Top(levels) != [] && Top(levels)[|Top(levels)| - 1].class_ == Pending
  }

  predicate OpensSubstitution(t: Token) {
    t.kind == Punctuation && t.value == "${"
  }

  function After(levels: Levels, t: Token): Levels {
    if t.kind == Comment then levels
    else if OpensSubstitution(t) then Unshift(levels) + [[]]
    else if t.kind == ExpressionEnd then Shift(Leave(levels), PENDING)
    else if t.kind == Kind.Template then Shift(if IsPending(levels) then Unshift(levels) else levels, TEMPLATE)
    else Shift(levels, PriorOf(t, Previous(Top(levels))))
  }

  function LevelsOf(ts: seq<Token>): Levels {
    if ts == [] then [[]] else After(LevelsOf(ts[..|ts| - 1]), ts[|ts| - 1])
  }

  // ---- How a slash is read ----

  datatype Reading = AsRegex | AsDivision | Ambiguous

  predicate IsMember(before: Option<Prior>) {
    IsMarkOf(before, {".", "?."})
  }

  predicate ClosesOrAsserts(previous: Prior) {
    previous.value in {")", "}", ">", "<", "postfix!"}
  }

  /** Words that are operators in some contexts only. */
  predicate IsContextual(previous: Option<Prior>, inForHeader: bool) {
    IsWordOf(previous, {"await", "yield"}) || (IsWordOf(previous, {"of"}) && inForHeader)
  }

  predicate StartsExpression(previous: Option<Prior>, before: Option<Prior>) {
    || previous.None?
    || IsMarkOf(previous, EXPRESSION_MARKS)
    || (IsWordOf(previous, REGEX_KEYWORDS) && !IsMember(before))
  }

  // ---- Parentheses before a position ----

  /** Closing minus opening parentheses from j on. */
  function Depth(code: seq<Token>, j: nat): int
    requires j <= |code|
    decreases |code| - j
  {
    if j == |code| then 0
    else Depth(code, j + 1) + if code[j].value == ")" then 1 else if code[j].value == "(" then -1 else 0
  }

  /** The last parenthesis still open at the end: everything after it is balanced or closes more. */
  ghost predicate IsInnermostOpen(code: seq<Token>, k: nat) {
    && k < |code| && code[k].value == "(" && Depth(code, k + 1) == 0
    && forall j | k < j <= |code| :: 0 <= Depth(code, j)
  }

  predicate HeadsFor(code: seq<Token>, k: nat)
    requires k < |code|
  {
    0 < k && (code[k - 1].value == "for"
              || (1 < k && code[k - 2].value == "for" && code[k - 1].value == "await"))
  }

  ghost predicate InForHeader(code: seq<Token>) {
    exists k :: IsInnermostOpen(code, k) && HeadsFor(code, k)
  }

  lemma InnermostIsUnique(code: seq<Token>, k: nat)
    requires IsInnermostOpen(code, k)
    ensures InForHeader(code) <==> HeadsFor(code, k)
  {
    if j: nat :| IsInnermostOpen(code, j) && HeadsFor(code, j) {
      assert Depth(code, j) == -1 && Depth(code, k) == -1;
    }
  }

  /** A value, then a line break: the slash could continue it or start a new statement. */
  predicate Resumes(text: string, ts: seq<Token>, previous: Prior, before: Option<Prior>, start: nat) {
    && previous.class_ != Mark
    && !(previous.value in REGEX_KEYWORDS && !IsMember(before))
    && BreaksLine(text, ts, start)
  }

  /** How a slash at `start` after the tokens `ts` is read. */
  ghost function ReadingAt(text: string, ts: seq<Token>, start: nat): Reading {
    var previous, before := Previous(Top(LevelsOf(ts))), BeforePrevious(Top(LevelsOf(ts)));
    if || (previous.Some? && ClosesOrAsserts(previous.value))
       || (previous.Some? && Resumes(text, ts, previous.value, before, start))
       || (IsContextual(previous, InForHeader(NonComments(ts))) && !IsMember(before)) then Ambiguous
    else if StartsExpression(previous, before) then AsRegex
    else AsDivision
  }

  /** A token that depends on its context stands in the context it needs. */
  ghost predicate InContext(text: string, ts: seq<Token>, t: Token) {
    && (t.kind == Regex ==> ReadingAt(text, ts, t.start) == AsRegex)
    && (t.kind == Punctuation && t.value == "/" ==> ReadingAt(text, ts, t.start) == AsDivision)
    && (t.kind == JsxIntrinsic ==> ExpectsTag(text, ts, t.start))
  }

  predicate ExpectsTag(text: string, ts: seq<Token>, start: nat) {
    ExpectsExpression(Previous(Top(LevelsOf(ts)))) || BreaksLine(text, ts, start)
  }

  ghost predicate AllInContext(text: string, ts: seq<Token>) {
    forall i {:trigger ts[i]} | 0 <= i < |ts| :: InContext(text, ts[..i], ts[i])
  }

  // ---- What the tokens so far amount to ----

  /** What the lexer goes by, and whether every token so far stands in its context. */
  datatype View = View(levels: Levels, sound: bool, slash: nat -> Reading, tag: nat -> bool)

  ghost function ViewOf(text: string, ts: seq<Token>): View {
    View(LevelsOf(ts), AllInContext(text, ts),
         (start: nat) => ReadingAt(text, ts, start), (start: nat) => ExpectsTag(text, ts, start))
  }

  /** `ViewOf` as a value, so that only proofs that name `ViewOf` look inside. */
  type Reader = read: (string, seq<Token>) -> View
    | forall text, ts {:trigger ViewOf(text, ts)} :: read(text, ts) == ViewOf(text, ts)
    ghost witness (text: string, ts: seq<Token>) => ViewOf(text, ts)

  /** `now` continues `was` by tokens that amount to `p`, each in its context. */
  ghost predicate Advances(read: Reader, text: string, was: seq<Token>, now: seq<Token>, p: Prior) {
    && was <= now && read(text, now).levels == Shift(read(text, was).levels, p)
    && (read(text, was).sound ==> read(text, now).sound)
  }

  lemma NothingYet(read: Reader, text: string)
    ensures read(text, []).levels == [[]] && read(text, []).sound
  {
    assert read(text, []) == ViewOf(text, []);
  }

  lemma SoundIsInContext(read: Reader, text: string, ts: seq<Token>)
    requires read(text, ts).sound
    ensures AllInContext(text, ts) && LevelsOf(ts) == read(text, ts).levels
  {
    assert read(text, ts) == ViewOf(text, ts);
  }

  lemma OneMore(read: Reader, text: string, ts: seq<Token>, t: Token)
    requires InContext(text, ts, t)
    ensures read(text, ts + [t]).levels == After(read(text, ts).levels, t)
    ensures read(text, ts).sound ==> read(text, ts + [t]).sound
  {
    assert read(text, ts) == ViewOf(text, ts) && read(text, ts + [t]) == ViewOf(text, ts + [t]);
    assert (ts + [t])[..|ts|] == ts;
    forall i | 0 <= i < |ts| ensures (ts + [t])[..i] == ts[..i] {}
  }

  /** A token that is all there is to remember at its level, whatever stands before it. */
  predicate IsPlain(t: Token) {
    match t.kind
    case Str => true
    case Number => true
    case Identifier => true
    case PrivateIdentifier => true
    case Punctuation => t.value != "/" && t.value != "${"
    case _ => false
  }

  lemma PlainShifts(levels: Levels, t: Token)
    requires IsPlain(t)
    ensures After(levels, t) == Shift(levels, PriorOf(t, Previous(Top(levels))))
  {
  }

  lemma PlainInContext(text: string, ts: seq<Token>, t: Token)
    requires IsPlain(t)
    ensures InContext(text, ts, t)
  {
  }

  lemma PlainAdvances(read: Reader, text: string, ts: seq<Token>, t: Token, p: Prior)
    requires IsPlain(t) && p == PriorOf(t, Previous(Top(read(text, ts).levels)))
    ensures Advances(read, text, ts, ts + [t], p)
  {
    PlainShifts(read(text, ts).levels, t);
    PlainInContext(text, ts, t);
    OneMore(read, text, ts, t);
  }

  lemma RegexAdvances(read: Reader, text: string, ts: seq<Token>, t: Token)
    requires t.kind == Regex && read(text, ts).slash(t.start) == AsRegex
    ensures Advances(read, text, ts, ts + [t], Prior(Literal, "regex"))
  {
    assert read(text, ts) == ViewOf(text, ts);
    OneMore(read, text, ts, t);
  }

  lemma DivisionAdvances(read: Reader, text: string, ts: seq<Token>, t: Token)
    requires t.kind == Punctuation && t.value == "/" && read(text, ts).slash(t.start) == AsDivision
    ensures Advances(read, text, ts, ts + [t], Prior(Mark, t.value))
  {
    assert read(text, ts) == ViewOf(text, ts);
    OneMore(read, text, ts, t);
  }

  lemma IntrinsicAdvances(read: Reader, text: string, ts: seq<Token>, t: Token)
    requires t.kind == JsxIntrinsic && read(text, ts).tag(t.start)
    ensures Advances(read, text, ts, ts + [t], Prior(Literal, "jsx-intrinsic"))
  {
    assert read(text, ts) == ViewOf(text, ts);
    OneMore(read, text, ts, t);
  }

  // ---- Code at one level ----

  /** `now` continues `was` by tokens that leave nothing to remember. */
  ghost predicate Remains(read: Reader, text: string, was: seq<Token>, now: seq<Token>) {
    was <= now && read(text, now).levels == read(text, was).levels && (read(text, was).sound ==> read(text, now).sound)
  }

  lemma CommentRemains(read: Reader, text: string, ts: seq<Token>, t: Token)
    requires t.kind == Comment
    ensures Remains(read, text, ts, ts + [t])
  {
    OneMore(read, text, ts, t);
  }

  /** The code of one level has appended to `was`; `level` is what it has passed so far. */
  ghost predicate InCode(read: Reader, text: string, was: seq<Token>, now: seq<Token>, level: seq<Prior>) {
    && was <= now && read(text, now).levels == Outer(read(text, was).levels) + [level]
    && (read(text, was).sound ==> read(text, now).sound)
  }

  ghost predicate EndsWith(level: seq<Prior>, previous: Option<Prior>, before: Option<Prior>) {
    && previous == Previous(level) && before == BeforePrevious(level)
    && (previous.Some? ==> previous.value.class_ != Pending)
  }

  /** The token lists that the code of one level may have made of `was`, given what it remembers. */
  ghost function CodeStates(
    read: Reader, text: string, was: seq<Token>, previous: Option<Prior>, before: Option<Prior>): iset<seq<Token>>
  {
    iset now: seq<Token> | AtLevel(read, text, was, now, previous, before)
  }

  ghost predicate AtLevel(
    read: Reader, text: string, was: seq<Token>, now: seq<Token>, previous: Option<Prior>, before: Option<Prior>)
  {
    exists level :: InCode(read, text, was, now, level) && EndsWith(level, previous, before)
  }

  /** The token lists that accepted code may have made of `was`; an expression closes its substitution. */
  ghost function CodeResults(read: Reader, text: string, was: seq<Token>, expression: bool): iset<seq<Token>> {
    iset now: seq<Token> | EndsCode(read, text, was, now, expression)
  }

  ghost predicate EndsCode(read: Reader, text: string, was: seq<Token>, now: seq<Token>, expression: bool) {
    if expression then ClosesCode(read, text, was, now)
    else was <= now && Outer(read(text, now).levels) == Outer(read(text, was).levels)
         && (read(text, was).sound ==> read(text, now).sound)
  }

  lemma CodeStarts(read: Reader, text: string, was: seq<Token>)
    requires Top(read(text, was).levels) == []
    ensures was in CodeStates(read, text, was, None, None)
  {
    assert InCode(read, text, was, was, []) && EndsWith([], None, None);
  }

  lemma CodeRemembers(
    read: Reader, text: string, was: seq<Token>, now: seq<Token>, previous: Option<Prior>, before: Option<Prior>)
    requires now in CodeStates(read, text, was, previous, before)
    ensures EndsWith(Top(read(text, now).levels), previous, before)
  {
  }

  lemma CodeRemains(
    read: Reader, text: string, was: seq<Token>, now: seq<Token>, next: seq<Token>,
    previous: Option<Prior>, before: Option<Prior>)
    requires now in CodeStates(read, text, was, previous, before) && Remains(read, text, now, next)
    ensures next in CodeStates(read, text, was, previous, before)
  {
    var level :| InCode(read, text, was, now, level) && EndsWith(level, previous, before);
    assert InCode(read, text, was, next, level);
  }

  lemma AdvancesInCode(
    read: Reader, text: string, was: seq<Token>, now: seq<Token>, next: seq<Token>, level: seq<Prior>, p: Prior)
    requires InCode(read, text, was, now, level) && Advances(read, text, now, next, p)
    ensures InCode(read, text, was, next, level + [p])
  {
    assert Outer(Outer(read(text, was).levels) + [level]) == Outer(read(text, was).levels);
  }

  lemma CodeAdvances(
    read: Reader, text: string, was: seq<Token>, now: seq<Token>, next: seq<Token>,
    previous: Option<Prior>, before: Option<Prior>, p: Prior)
    requires now in CodeStates(read, text, was, previous, before)
    requires Advances(read, text, now, next, p) && p.class_ != Pending
    ensures next in CodeStates(read, text, was, Some(p), previous)
  {
    var level :| InCode(read, text, was, now, level) && EndsWith(level, previous, before);
    AdvancesInCode(read, text, was, now, next, level, p);
    assert EndsWith(level + [p], Some(p), previous);
  }

  /** Nested code from `was` to `now` has closed its substitution. */
  ghost predicate ClosesCode(read: Reader, text: string, was: seq<Token>, now: seq<Token>) {
    && was < now && now[|now| - 1].kind == ExpressionEnd
    && Outer(read(text, was).levels) != []
    && read(text, now).levels == Shift(Outer(read(text, was).levels), PENDING)
    && (read(text, was).sound ==> read(text, now).sound)
  }

  lemma CodeEnds(
    read: Reader, text: string, was: seq<Token>, now: seq<Token>, previous: Option<Prior>, before: Option<Prior>)
    requires now in CodeStates(read, text, was, previous, before)
    ensures now in CodeResults(read, text, was, false)
  {
    var level :| InCode(read, text, was, now, level) && EndsWith(level, previous, before);
    assert Outer(Outer(read(text, was).levels) + [level]) == Outer(read(text, was).levels);
  }

  lemma CodeCloses(
    read: Reader, text: string, was: seq<Token>, now: seq<Token>, previous: Option<Prior>, before: Option<Prior>,
    t: Token)
    requires now in CodeStates(read, text, was, previous, before) && t.kind == ExpressionEnd
    requires Outer(read(text, was).levels) != []
    ensures now + [t] in CodeResults(read, text, was, true)
  {
    var level :| InCode(read, text, was, now, level) && EndsWith(level, previous, before);
    OneMore(read, text, now, t);
    assert Outer(Outer(read(text, was).levels) + [level]) == Outer(read(text, was).levels);
  }

  // ---- Template literals ----

  /** The template at `start` has no substitution. */
  predicate IsStatic(text: string, start: nat) {
    var end := PieceEnd(text, start + 1);
    end.Some? && text[end.value] == '`'
  }

  /** `now` continues `was` by a template at `start` whose first piece stops at a substitution. */
  ghost predicate Grows(text: string, start: nat, was: seq<Token>, now: seq<Token>) {
    && !IsStatic(text, start) && PieceEnd(text, start + 1).Some?
    && |was| + 2 <= |now| && was <= now
    && now[|was|].kind == Kind.Template && now[|was|].start == start
    && now[|was|].end == PieceEnd(text, start + 1).value
  }

  /** The pieces and substitutions so far of the template at `start`, which stands on top of `was`. */
  ghost predicate InTemplate(read: Reader, text: string, start: nat, was: seq<Token>, now: seq<Token>, interpolated: bool) {
    && (read(text, was).sound ==> read(text, now).sound)
    && !IsPending(read(text, was).levels)
    && if interpolated then
         && read(text, now).levels == Shift(read(text, was).levels, PENDING)
         && |was| + 3 <= |now| && Grows(text, start, was, now) && now[|now| - 1].kind == ExpressionEnd
       else now == was
  }

  /** `now` continues `was` by the pieces and substitutions of a template from `start` to `end`. */
  ghost predicate IsTemplate(text: string, start: nat, end: nat, was: seq<Token>, now: seq<Token>) {
    && was < now && now[|now| - 1].end == end
    && if IsStatic(text, start) then
         && end == PieceEnd(text, start + 1).value + 1
         && now == was + [Token(StaticTemplate, Slice(text, start, end), start, end)]
       else
         && |was| + 4 <= |now| && Grows(text, start, was, now)
         && now[|now| - 1].kind == Kind.Template && now[|now| - 2].kind == ExpressionEnd
  }

  ghost function TemplateStates(
    read: Reader, text: string, start: nat, was: seq<Token>, interpolated: bool): iset<seq<Token>>
  {
    iset now: seq<Token> | InTemplate(read, text, start, was, now, interpolated)
  }

  ghost function TemplateResults(read: Reader, text: string, start: nat, was: seq<Token>, end: nat): iset<seq<Token>> {
    iset now: seq<Token> | IsTemplate(text, start, end, was, now) && Advances(read, text, was, now, TEMPLATE)
  }

  lemma TemplateStarts(read: Reader, text: string, start: nat, was: seq<Token>)
    requires !IsPending(read(text, was).levels)
    ensures was in TemplateStates(read, text, start, was, false)
  {
  }

  lemma ShiftUnshift(levels: Levels, p: Prior)
    ensures Unshift(Shift(levels, p)) == levels
  {
    assert Outer(levels) + [Top(levels)] == levels;
  }

  lemma PieceThenOpen(levels: Levels, base: Levels, piece: Token, open: Token)
    requires (levels == base && !IsPending(base)) || levels == Shift(base, PENDING)
    requires piece.kind == Kind.Template && OpensSubstitution(open)
    ensures After(After(levels, piece), open) == base + [[]]
  {
    ShiftUnshift(base, PENDING);
    ShiftUnshift(base, TEMPLATE);
  }

  /** The template at `start` has just opened a substitution. */
  ghost predicate InSubstitution(read: Reader, text: string, start: nat, was: seq<Token>, now: seq<Token>) {
    && (read(text, was).sound ==> read(text, now).sound) && !IsPending(read(text, was).levels)
    && read(text, now).levels == read(text, was).levels + [[]] && Grows(text, start, was, now)
  }

  lemma OpensGrows(
    read: Reader, text: string, start: nat, was: seq<Token>, now: seq<Token>, interpolated: bool, piece: Token, open: Token)
    requires now in TemplateStates(read, text, start, was, interpolated) && piece.kind == Kind.Template
    requires !interpolated ==>
               piece.start == start && PieceEnd(text, start + 1) == Some(piece.end) && !IsStatic(text, start)
    ensures Grows(text, start, was, now + [piece] + [open])
  {
    var mid := now + [piece] + [open];
    assert mid[|now|] == piece;
    assert interpolated ==> mid[|was|] == now[|was|];
  }

  /** A piece that stops at a substitution, and the substitution's opening. */
  lemma TemplateOpens(
    read: Reader, text: string, start: nat, was: seq<Token>, now: seq<Token>, interpolated: bool, piece: Token, open: Token)
    requires now in TemplateStates(read, text, start, was, interpolated)
    requires piece.kind == Kind.Template && OpensSubstitution(open)
    requires !interpolated ==>
               piece.start == start && PieceEnd(text, start + 1) == Some(piece.end) && !IsStatic(text, start)
    ensures InSubstitution(read, text, start, was, now + [piece] + [open])
  {
    OneMore(read, text, now, piece);
    OneMore(read, text, now + [piece], open);
    PieceThenOpen(read(text, now).levels, read(text, was).levels, piece, open);
    OpensGrows(read, text, start, was, now, interpolated, piece, open);
  }

  lemma TemplateResumes(read: Reader, text: string, start: nat, was: seq<Token>, now: seq<Token>, next: seq<Token>)
    requires InSubstitution(read, text, start, was, now) && next in CodeResults(read, text, now, true)
    ensures next in TemplateStates(read, text, start, was, true)
  {
    assert Outer(read(text, was).levels + [[]]) == read(text, was).levels;
    assert next[|was|] == now[|was|];
  }

  lemma LastPieceShifts(levels: Levels, base: Levels, last: Token)
    requires if last.kind == StaticTemplate then levels == base
             else last.kind == Kind.Template && levels == Shift(base, PENDING)
    ensures After(levels, last) == Shift(base, TEMPLATE)
  {
    ShiftUnshift(base, PENDING);
  }

  lemma TemplateAdvances(
    read: Reader, text: string, start: nat, was: seq<Token>, now: seq<Token>, interpolated: bool, last: Token)
    requires now in TemplateStates(read, text, start, was, interpolated)
    requires last.kind == if interpolated then Kind.Template else StaticTemplate
    ensures Advances(read, text, was, now + [last], TEMPLATE)
  {
    OneMore(read, text, now, last);
    LastPieceShifts(read(text, now).levels, read(text, was).levels, last);
  }

  lemma TemplateCloses(
    read: Reader, text: string, start: nat, was: seq<Token>, now: seq<Token>, interpolated: bool, last: Token)
    requires now in TemplateStates(read, text, start, was, interpolated)
    requires if interpolated then last.kind == Kind.Template
             else IsStatic(text, start) && last.end == PieceEnd(text, start + 1).value + 1
                  && last == Token(StaticTemplate, Slice(text, start, last.end), start, last.end)
    ensures now + [last] in TemplateResults(read, text, start, was, last.end)
  {
    assert (now + [last])[..|now|] == now;
    TemplateAdvances(read, text, start, was, now, interpolated, last);
  }
}
