/**
 The lexer as a machine over one position, the tokens so far, and a stack of open code and template
 literals.  `Lex` says for every text whether it is accepted, with which tokens, and how it is refused.
 */
module LexerMachine {
  import opened Wrappers
  import opened Text
  import opened LexerModel
  import opened LexerContext

  datatype LexError =
    | UnterminatedTemplate | UnterminatedExpression | UnterminatedComment | UnterminatedString
    | UnterminatedRegex | UnsupportedAngle | AmbiguousSlash | InvalidPrivateIdentifier
    | UnsupportedEscape | UnsupportedToken

  /**
   Open code with its braces and whether its line has code, or an open template and whether a
   substitution came already.  Every frame of code but the outermost is a substitution.
   */
  datatype Frame = Code(depth: int, lineHasCode: bool) | Piece(interpolated: bool)

  type Frames = frames: seq<Frame> | frames != [] && frames[0].Code? witness [Code(0, false)]

  /** The frames around open code. */
  type Below = below: seq<Frame> | below == [] || below[0].Code?

  function Within(below: Below, depth: int, lineHasCode: bool): Frames {
    below + [Code(depth, lineHasCode)]
  }

  datatype State = State(index: nat, tokens: seq<Token>, frames: Frames)

  function Sliced(kind: Kind, text: string, start: nat, end: nat): Token
    requires start <= end
  {
    Token(kind, Slice(text, start, end), start, end)
  }

  // ---- One token ----

  /** The name from here on, with the index after it; none for an empty one or a leading digit. */
  function NameFrom(u: Alphabet, text: string, i: nat, parts: string): (r: Result<Option<(string, nat)>, LexError>)
    ensures r.Success? && r.value.Some? ==> i <= r.value.value.1 && (parts == "" ==> i < r.value.value.1)
    ensures r.Success? && parts != "" ==> r.value.Some?
    decreases |text| - i
  {
    var ended := Success(if parts != "" then Some((parts, i)) else None);
    if i >= |text| then ended
    else if text[i] == '\\' then
      var d := Decode(u, text, i);
      if d.None? then Failure(UnsupportedEscape) else NameOn(u, text, i, parts, d.value.0, d.value.1)
    else if IsWord(u, text[i]) then NameOn(u, text, i, parts, text[i], i + 1)
    else ended
  }

  function NameOn(u: Alphabet, text: string, i: nat, parts: string, c: char, next: nat):
    (r: Result<Option<(string, nat)>, LexError>)
    requires i < |text| && i < next
    ensures r.Success? && r.value.Some? ==> i < r.value.value.1
    ensures r.Success? && parts != "" ==> r.value.Some?
    decreases |text| - i, 0
  {
    if parts == "" && IsDigit(u, c) then Success(None) else NameFrom(u, text, next, parts + [c])
  }

  /** A block comment that opens here, with its end and whether it spans lines. */
  function OpenedBlock(text: string, i: nat): Result<Option<(nat, bool)>, LexError> {
    if !StartsAt(text, i, "/*") then Success(None)
    else
      var end := Find(text, i + 2, "*/");
      if end.None? then Failure(UnterminatedComment)
      else Success(Some((end.value + 2, HasTerminator(text[i..end.value + 2]))))
  }

  /** A comment that opens here. */
  function OpenedComment(text: string, i: nat, lineHasCode: bool): Result<Option<(nat, bool)>, LexError>
    requires i < |text|
  {
    if OpensComment(text, i, lineHasCode) then Success(Some((LineEnd(text, i), false))) else OpenedBlock(text, i)
  }

  predicate OpensComment(text: string, i: nat, lineHasCode: bool) {
    || StartsAt(text, i, "//") || StartsAt(text, i, "<!--") || (!lineHasCode && StartsAt(text, i, "-->"))
    || (StartsAt(text, i, "#!") && (i == 0 || (i == 1 && text[0] == '\U{FEFF}')))
  }

  predicate IsTagLike(u: Alphabet, text: string, i: nat)
    requires i < |text|
  {
    var following := SpaceEnd(text, i + 1);
    following < |text| && (text[following] == '>' || IsWord(u, text[following]))
  }

  /** The end of an intrinsic; none where the angle bracket is punctuation. */
  function AngleAt(u: Alphabet, text: string, i: nat, tag: bool): Result<Option<nat>, LexError>
    requires i < |text|
  {
    if IsTagLike(u, text, i) && tag then
      var end := IntrinsicEnd(text, i);
      if end.None? && ArrowEnd(text, i + 1).None? then Failure(UnsupportedAngle) else Success(end)
    else Success(None)
  }

  function StringAt(text: string, i: nat): Result<Token, LexError>
    requires i < |text|
  {
    var end := StringEnd(text, i + 1, text[i]);
    if end.None? then Failure(UnterminatedString) else Success(Sliced(Str, text, i, end.value))
  }

  function SlashAt(u: Alphabet, text: string, i: nat, reading: Reading): Result<Token, LexError>
    requires i < |text|
  {
    match reading
    case Ambiguous => Failure(AmbiguousSlash)
    case AsDivision => Success(Token(Punctuation, "/", i, i + 1))
    case AsRegex =>
      var body := RegexEnd(text, i + 1, false);
      if body.None? then Failure(UnterminatedRegex) else Success(Sliced(Regex, text, i, WordEnd(u, text, body.value)))
  }

  function PrivateAt(u: Alphabet, text: string, i: nat): Result<Token, LexError>
    requires i < |text|
  {
    var name :- NameFrom(u, text, i + 1, "");
    if name.None? then Failure(InvalidPrivateIdentifier)
    else Success(Token(PrivateIdentifier, "#" + name.value.0, i, name.value.1))
  }

  function WordAt(u: Alphabet, text: string, i: nat): Result<Token, LexError>
    requires i < |text|
  {
    var name :- NameFrom(u, text, i, "");
    Success(if name.None? then Sliced(Number, text, i, NumberEnd(u, text, i + 1))
            else Token(Identifier, name.value.0, i, name.value.1))
  }

  function MarkAt(text: string, i: nat): Token
    requires i < |text|
  {
    var pair := Slice(text, i, i + 2);
    var value := if IsDoubleMark(pair) then pair else [text[i]];
    Token(Punctuation, value, i, i + |value|)
  }

  /**
   The next token of code, unless a comment, a template or the end of a substitution comes first.
   `reading` and `tag` say what a slash or a tag is here.
   */
  function ItemAt(u: Alphabet, text: string, i: nat, reading: Reading, tag: bool): (r: Result<Token, LexError>)
    requires i < |text|
    ensures r.Success? ==> r.value.start == i < r.value.end
  {
    var c := text[i];
    var intrinsic :- if c == '<' then AngleAt(u, text, i, tag) else Success(None);
    if intrinsic.Some? then Success(Sliced(JsxIntrinsic, text, i, intrinsic.value))
    else if c == '\'' || c == '"' then StringAt(text, i)
    else if c == '/' then SlashAt(u, text, i, reading)
    else if c == '#' then PrivateAt(u, text, i)
    else if IsWord(u, c) || c == '\\' then WordAt(u, text, i)
    else if !IsAscii(c) then Failure(UnsupportedToken)
    else Success(MarkAt(text, i))
  }

  /** Reading on from `was` gave `item`: its end is returned and its token appended, or its error. */
  ghost predicate Makes(item: Result<Token, LexError>, r: Result<nat, LexError>, was: seq<Token>, now: seq<Token>) {
    if item.Failure? then r == Failure(item.error) else r == Success(item.value.end) && now == was + [item.value]
  }

  function EndOf<T>(r: Result<(nat, T), LexError>): Result<nat, LexError> {
    if r.Failure? then Failure(r.error) else Success(r.value.0)
  }

  // ---- One step, and all of them ----

  function Braces(depth: int, c: char): int {
    if c == '{' then depth + 1 else if c == '}' then depth - 1 else depth
  }

  ghost function CodeStep(u: Alphabet, text: string, s: State, below: Below, depth: int, has: bool): Result<State, LexError>
    requires s.index < |text|
  {
    var i, c := s.index, text[s.index];
    if IsBlank(c) then
      Success(State(i + 1, s.tokens, Within(below, depth, has && !IsTerminator(c))))
    else
      var comment :- OpenedComment(text, i, has);
      if comment.Some? then
        var (end, spans) := comment.value;
        Success(State(end, s.tokens + [Token(Comment, Slice(text, i, end), i, end)],
                      Within(below, depth, has && !spans)))
      else if c == '}' && depth == 0 && below != [] then
        Success(State(i + 1, s.tokens + [Token(ExpressionEnd, "}", i, i + 1)], below))
      else if c == '`' then Success(State(i, s.tokens, Within(below, depth, true) + [Piece(false)]))
      else
        var t :- ItemAt(u, text, i, ReadingAt(text, s.tokens, i), ExpectsTag(text, s.tokens, i));
        Success(State(t.end, s.tokens + [t], Within(below, Braces(depth, c), true)))
  }

  /** A literal piece of a template, up to its end or through the opening of a substitution. */
  function PieceStep(text: string, s: State, below: Frames, interpolated: bool): Result<State, LexError> {
    var end := PieceEnd(text, if interpolated then s.index else s.index + 1);
    if end.None? then Failure(UnterminatedTemplate)
    else if text[end.value] == '`' then
      var kind := if interpolated then Kind.Template else StaticTemplate;
      Success(State(end.value + 1, s.tokens + [Sliced(kind, text, s.index, end.value + 1)], below))
    else
      var open := Token(Punctuation, "${", end.value, end.value + 2);
      Success(State(end.value + 2, s.tokens + [Sliced(Kind.Template, text, s.index, end.value)] + [open],
                    Within(below + [Piece(true)], 0, false)))
  }

  ghost function Step(u: Alphabet, text: string, s: State): Result<State, LexError> {
    var below, top := s.frames[..|s.frames| - 1], s.frames[|s.frames| - 1];
    if top.Piece? then PieceStep(text, s, below, top.interpolated)
    else if s.index < |text| then CodeStep(u, text, s, below, top.depth, top.lineHasCode)
    else Failure(UnterminatedExpression)
  }

  /** All code, and nothing but the outermost, has been read. */
  predicate IsDone(text: string, s: State) {
    |text| <= s.index && |s.frames| == 1
  }

  /** What is left of the text, and whether a template has just been opened on it. */
  function Ahead(text: string, s: State): (nat, nat) {
    (if s.index < |text| then |text| - s.index else 0, if s.frames[|s.frames| - 1].Code? then 1 else 0)
  }

  ghost function Run(u: Alphabet, text: string, s: State): Result<seq<Token>, LexError>
    decreases Ahead(text, s).0, Ahead(text, s).1
  {
    if IsDone(text, s) then Success(s.tokens)
    else
      var next :- Step(u, text, s);
      Run(u, text, next)
  }

  ghost function Lex(u: Alphabet, text: string): Result<seq<Token>, LexError> {
    Run(u, text, State(0, [], Within([], 0, false)))
  }

  // ---- The steps one by one ----

  /** `Run` as a value, so that only proofs that name `Run` look inside. */
  type Runner = run: (Alphabet, string, State) -> Result<seq<Token>, LexError>
    | forall u, text, s {:trigger Run(u, text, s)} :: run(u, text, s) == Run(u, text, s)
    ghost witness (u: Alphabet, text: string, s: State) => Run(u, text, s)

  /** `Step` likewise. */
  type Stepper = step: (Alphabet, string, State) -> Result<State, LexError>
    | forall u, text, s {:trigger Step(u, text, s)} :: step(u, text, s) == Step(u, text, s)
    ghost witness (u: Alphabet, text: string, s: State) => Step(u, text, s)

  ghost predicate Continues(run: Runner, u: Alphabet, text: string, s: State, next: Result<State, LexError>) {
    run(u, text, s) == if next.Success? then run(u, text, next.value) else Failure(next.error)
  }

  lemma StepRuns(run: Runner, u: Alphabet, text: string, s: State)
    requires !IsDone(text, s)
    ensures Continues(run, u, text, s, Step(u, text, s))
  {
    assert Run(u, text, s) == run(u, text, s);
    if Step(u, text, s).Success? {
      assert Run(u, text, Step(u, text, s).value) == run(u, text, Step(u, text, s).value);
    }
  }

  /** The states from which the machine comes to `goal`. */
  ghost function Leads(run: Runner, u: Alphabet, text: string, goal: Result<seq<Token>, LexError>): iset<State> {
    iset s: State | run(u, text, s) == goal
  }

  lemma CodeRuns(run: Runner, u: Alphabet, text: string, s: State, below: Below, depth: int, has: bool)
    requires s.frames == Within(below, depth, has) && s.index < |text|
    ensures Continues(run, u, text, s, CodeStep(u, text, s, below, depth, has))
  {
    assert s.frames[..|below|] == below;
    StepRuns(run, u, text, s);
  }

  lemma BlankLeads(
    run: Runner, u: Alphabet, text: string, goal: Result<seq<Token>, LexError>,
    i: nat, ts: seq<Token>, below: Below, depth: int, has: bool, next: nat)
    requires State(i, ts, Within(below, depth, has)) in Leads(run, u, text, goal)
    requires i < |text| && IsBlank(text[i]) && next == i + 1
    ensures State(next, ts, Within(below, depth, has && !IsTerminator(text[i]))) in Leads(run, u, text, goal)
  {
    CodeRuns(run, u, text, State(i, ts, Within(below, depth, has)), below, depth, has);
  }

  lemma CommentLeads(
    run: Runner, u: Alphabet, text: string, goal: Result<seq<Token>, LexError>,
    i: nat, ts: seq<Token>, below: Below, depth: int, has: bool, comment: Result<Option<(nat, bool)>, LexError>)
    requires State(i, ts, Within(below, depth, has)) in Leads(run, u, text, goal)
    requires i < |text| && !IsBlank(text[i]) && comment == OpenedComment(text, i, has)
    ensures comment.Failure? ==> goal == Failure(comment.error)
    ensures comment.Success? && comment.value.Some? ==>
              var (end, spans) := comment.value.value;
              State(end, ts + [Token(Comment, Slice(text, i, end), i, end)], Within(below, depth, has && !spans))
              in Leads(run, u, text, goal)
  {
    CodeRuns(run, u, text, State(i, ts, Within(below, depth, has)), below, depth, has);
  }

  /** Neither blank nor comment. */
  predicate IsCode(text: string, i: nat, lineHasCode: bool) {
    i < |text| && !IsBlank(text[i]) && OpenedComment(text, i, lineHasCode) == Success(None)
  }

  lemma EndLeads(
    run: Runner, u: Alphabet, text: string, goal: Result<seq<Token>, LexError>,
    i: nat, ts: seq<Token>, below: Frames, depth: int, has: bool, end: Token)
    requires State(i, ts, Within(below, depth, has)) in Leads(run, u, text, goal)
    requires IsCode(text, i, has) && text[i] == '}' && depth == 0 && end == Token(ExpressionEnd, "}", i, i + 1)
    ensures run(u, text, State(end.end, ts + [end], below)) == goal
  {
    CodeRuns(run, u, text, State(i, ts, Within(below, depth, has)), below, depth, has);
  }

  /** What the machine makes of the item that comes next, a template or another token. */
  ghost predicate ItemLeads(
    run: Runner, read: Reader, u: Alphabet, text: string, goal: Result<seq<Token>, LexError>,
    i: nat, ts: seq<Token>, below: Below, depth: int)
    requires i < |text|
  {
    if text[i] == '`' then run(u, text, State(i, ts, Within(below, depth, true) + [Piece(false)])) == goal
    else
      var item := ItemAt(u, text, i, read(text, ts).slash(i), read(text, ts).tag(i));
      goal == if item.Failure? then Failure(item.error)
              else run(u, text, State(item.value.end, ts + [item.value], Within(below, depth, true)))
  }

  lemma CodeLeads(
    run: Runner, read: Reader, u: Alphabet, text: string, goal: Result<seq<Token>, LexError>,
    i: nat, ts: seq<Token>, below: Below, depth: int, has: bool)
    requires State(i, ts, Within(below, depth, has)) in Leads(run, u, text, goal)
    requires IsCode(text, i, has) && !(text[i] == '}' && depth == 0 && below != [])
    ensures ItemLeads(run, read, u, text, goal, i, ts, below, Braces(depth, text[i]))
  {
    assert read(text, ts) == ViewOf(text, ts);
    CodeRuns(run, u, text, State(i, ts, Within(below, depth, has)), below, depth, has);
  }

  /** Reading the item from `was` to `now` ended at `r`: as the machine does. */
  ghost predicate ItemDone(
    run: Runner, read: Reader, u: Alphabet, text: string, i: nat, was: seq<Token>, now: seq<Token>,
    below: Frames, r: Result<nat, LexError>)
    requires i < |text|
  {
    if text[i] == '`' then
      run(u, text, State(i, was, below + [Piece(false)])) ==
      if r.Success? then run(u, text, State(r.value, now, below)) else Failure(r.error)
    else Makes(ItemAt(u, text, i, read(text, was).slash(i), read(text, was).tag(i)), r, was, now)
  }

  lemma ItemRuns(
    run: Runner, read: Reader, u: Alphabet, text: string, goal: Result<seq<Token>, LexError>,
    i: nat, was: seq<Token>, now: seq<Token>, below: Below, depth: int, has: bool, after: int, r: Result<nat, LexError>)
    requires State(i, was, Within(below, depth, has)) in Leads(run, u, text, goal)
    requires IsCode(text, i, has) && !(text[i] == '}' && depth == 0 && below != []) && after == Braces(depth, text[i])
    requires ItemDone(run, read, u, text, i, was, now, Within(below, after, true), r)
    ensures r.Failure? ==> goal == Failure(r.error)
    ensures r.Success? ==> State(r.value, now, Within(below, after, true)) in Leads(run, u, text, goal)
  {
    CodeLeads(run, read, u, text, goal, i, was, below, depth, has);
  }

  lemma PieceRuns(run: Runner, u: Alphabet, text: string, s: State, below: Frames, interpolated: bool)
    requires s.frames == below + [Piece(interpolated)]
    ensures Continues(run, u, text, s, PieceStep(text, s, below, interpolated))
  {
    assert s.frames[..|below|] == below;
    StepRuns(run, u, text, s);
  }

  lemma NoPieceRuns(run: Runner, u: Alphabet, text: string, s: State, below: Frames, interpolated: bool)
    requires s.frames == below + [Piece(interpolated)]
    requires PieceEnd(text, if interpolated then s.index else s.index + 1).None?
    ensures run(u, text, s) == Failure(UnterminatedTemplate)
  {
    PieceRuns(run, u, text, s, below, interpolated);
  }

  lemma LastPieceRuns(
    run: Runner, u: Alphabet, text: string, s: State, below: Frames, interpolated: bool, last: Token, end: nat)
    requires s.frames == below + [Piece(interpolated)]
    requires PieceEnd(text, if interpolated then s.index else s.index + 1) == Some(end) && text[end] == '`'
    requires s.index <= end && last.kind == (if interpolated then Kind.Template else StaticTemplate)
    requires last == Token(last.kind, Slice(text, s.index, end + 1), s.index, end + 1)
    ensures run(u, text, s) == run(u, text, State(last.end, s.tokens + [last], below))
  {
    PieceRuns(run, u, text, s, below, interpolated);
  }

  lemma PieceOpensRuns(
    run: Runner, u: Alphabet, text: string, s: State, below: Frames, interpolated: bool, piece: Token, open: Token)
    requires s.frames == below + [Piece(interpolated)]
    requires PieceEnd(text, if interpolated then s.index else s.index + 1) == Some(piece.end)
    requires StartsAt(text, piece.end, "${")
    requires s.index <= piece.end && piece == Sliced(Kind.Template, text, s.index, piece.end)
    requires open == Token(Punctuation, "${", piece.end, piece.end + 2)
    ensures run(u, text, s) ==
            run(u, text, State(open.end, s.tokens + [piece] + [open], Within(below + [Piece(true)], 0, false)))
  {
    assert text[piece.end..piece.end + 2][0] == '$';
    PieceRuns(run, u, text, s, below, interpolated);
  }

  lemma EndOfTextLeads(
    run: Runner, u: Alphabet, text: string, goal: Result<seq<Token>, LexError>,
    i: nat, ts: seq<Token>, below: Below, depth: int, has: bool)
    requires State(i, ts, Within(below, depth, has)) in Leads(run, u, text, goal) && |text| <= i
    ensures goal == if below == [] then Success(ts) else Failure(UnterminatedExpression)
  {
    assert Run(u, text, State(i, ts, Within(below, depth, has))) == run(u, text, State(i, ts, Within(below, depth, has)));
  }
}
