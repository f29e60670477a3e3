/**
 The fail-closed JavaScript lexer: it appends to one shared token list while code and template
 literals call each other.  Every accepted text is tiled by its tokens.
 */
module Lexer {
  import opened Wrappers
  import opened Text
  import opened LexerModel
  import opened LexerContext
  import opened LexerMachine


  class Scanner {
    const u: Alphabet
    const text: string
    var tokens: seq<Token>
    ghost const tiles: Tiler
    ghost const read: Reader
    ghost const run: Runner

    constructor (u: Alphabet, text: string)
      ensures this.u == u && this.text == text && tokens == []
    {
      this.u, this.text, tokens := u, text, [];
      tiles := (u: Alphabet, text: string, ts: seq<Token>, end: nat) => Tiles(u, text, ts, end);
      read := (text: string, ts: seq<Token>) => ViewOf(text, ts);
      run := (u: Alphabet, text: string, s: State) => Run(u, text, s);
    }

    ghost predicate Tiled(end: nat)
      reads this`tokens
    {
      tiles(u, text, tokens, end)
    }

    /** `previous` and `before` are the last two tokens at the current level of nesting. */
    ghost predicate Remembers(previous: Option<Prior>, before: Option<Prior>)
      reads this`tokens
    {
      previous == Previous(Top(read(text, tokens).levels)) && before == BeforePrevious(Top(read(text, tokens).levels))
    }

    /** What becomes of the text when the machine stands here. */
    ghost function Rest(index: nat, frames: Frames): Result<seq<Token>, LexError>
      reads this`tokens
    {
      run(u, text, State(index, tokens, frames))
    }

    method Push(kind: Kind, start: nat, end: nat, value: string)
      requires tiles(u, text, tokens + [Token(kind, value, start, end)], end)
      modifies `tokens
      ensures tokens == old(tokens) + [Token(kind, value, start, end)] && Tiled(end)
    {
      tokens := tokens + [Token(kind, value, start, end)];
    }

    // ---- Literals and comments ----

    method LineComment(start: nat) returns (index: nat)
      requires Tiled(start) && OpensLineComment(text, start)
      modifies `tokens
      ensures index == LineEnd(text, start) && start < index
      ensures tokens == old(tokens) + [Token(Comment, Slice(text, start, index), start, index)] && Tiled(index)
    {
      index := start;
      while index < |text| && !IsTerminator(text[index])
        invariant start <= index <= |text| && LineEnd(text, index) == LineEnd(text, start)
      {
        index := index + 1;
      }
      LineCommentTiles(tiles, u, text, tokens, start, index);
      Push(Comment, start, index, Slice(text, start, index));
    }

    method BlockComment(start: nat) returns (r: Result<nat, LexError>)
      requires Tiled(start) && StartsAt(text, start, "/*")
      modifies `tokens
      ensures r.Success? <==> Find(text, start + 2, "*/").Some?
      ensures r.Failure? ==> r.error == UnterminatedComment
      ensures r.Success? ==>
                && r.value == Find(text, start + 2, "*/").value + 2 <= |text|
                && tokens == old(tokens) + [Token(Comment, Slice(text, start, r.value), start, r.value)] && Tiled(r.value)
    {
      var end := Find(text, start + 2, "*/");
      if end.None? { return Failure(UnterminatedComment); }
      BlockCommentTiles(tiles, u, text, tokens, start, end.value + 2);
      Push(Comment, start, end.value + 2, Slice(text, start, end.value + 2));
      return Success(end.value + 2);
    }

    method QuotedString(start: nat) returns (r: Result<nat, LexError>)
      requires Tiled(start) && start < |text| && (text[start] == '\'' || text[start] == '"')
      modifies `tokens
      ensures r.Success? <==> StringEnd(text, start + 1, text[start]).Some?
      ensures r.Success? ==>
                && r.value == StringEnd(text, start + 1, text[start]).value
                && tokens == old(tokens) + [Token(Str, Slice(text, start, r.value), start, r.value)] && Tiled(r.value)
      ensures Makes(StringAt(text, start), r, old(tokens), tokens)
    {
      var quote := text[start];
      var index: nat := start + 1;
      while index < |text|
        invariant start < index && tokens == old(tokens)
        invariant StringEnd(text, index, quote) == StringEnd(text, start + 1, quote)
      {
        StringUnfolds(text, index, quote);
        if text[index] == '\\' {
          index := index + 2;
          if index < |text| && text[index - 1] == '\r' && text[index] == '\n' {
            index := index + 1;
          }
        } else if text[index] == quote {
          index := index + 1;
          StringTiles(tiles, u, text, tokens, start, index);
          Push(Str, start, index, Slice(text, start, index));
          return Success(index);
        } else if text[index] == '\r' || text[index] == '\n' {
          return Failure(UnterminatedString);
        } else {
          index := index + 1;
        }
      }
      return Failure(UnterminatedString);
    }

    method RegexLiteral(start: nat) returns (r: Result<nat, LexError>)
      requires Tiled(start) && start < |text| && text[start] == '/'
      modifies `tokens
      ensures r.Success? <==> RegexEnd(text, start + 1, false).Some?
      ensures r.Failure? ==> r.error == UnterminatedRegex
      ensures r.Success? ==>
                && r.value == WordEnd(u, text, RegexEnd(text, start + 1, false).value)
                && tokens == old(tokens) + [Token(Regex, Slice(text, start, r.value), start, r.value)] && Tiled(r.value)
    {
      var index: nat := start + 1;
      var inClass := false;
      while index < |text|
        invariant start < index && tokens == old(tokens)
        invariant RegexEnd(text, index, inClass) == RegexEnd(text, start + 1, false)
      {
        RegexUnfolds(text, index, inClass);
        var c := text[index];
        if c == '\\' {
          index := index + 2;
          continue;
        }
        if IsTerminator(c) { return Failure(UnterminatedRegex); }
        if c == '/' && !inClass {
          ghost var body := index + 1;
          index := SkipWord(index + 1);
          RegexTiles(tiles, u, text, tokens, start, body, index);
          Push(Regex, start, index, Slice(text, start, index));
          return Success(index);
        }
        inClass := c == '[' || (inClass && c != ']');
        index := index + 1;
      }
      return Failure(UnterminatedRegex);
    }

    method SkipWord(start: nat) returns (index: nat)
      requires start <= |text|
      ensures index == WordEnd(u, text, start)
    {
      index := start;
      while index < |text| && IsWord(u, text[index])
        invariant start <= index <= |text| && WordEnd(u, text, index) == WordEnd(u, text, start)
      {
        index := index + 1;
      }
    }

    method SkipNumber(start: nat) returns (index: nat)
      requires start <= |text|
      ensures index == NumberEnd(u, text, start)
    {
      index := start;
      while index < |text| && IsNumberPart(u, text[index])
        invariant start <= index <= |text| && NumberEnd(u, text, index) == NumberEnd(u, text, start)
      {
        index := index + 1;
      }
    }

    // ---- Identifiers ----

    /**
     The identifier at a position with the index after it; none for an empty one or one that starts
     with a digit.
     */
    method ParseIdentifier(start: nat) returns (r: Result<Option<(string, nat)>, LexError>)
      ensures r == NameFrom(u, text, start, "")
      ensures r.Success? && r.value.Some? ==>
                start < r.value.value.1 && IsIdentifierAt(u, text, start, r.value.value.1, r.value.value.0)
      ensures r.Success? && r.value.None? && start < |text| && (text[start] == '\\' || IsWord(u, text[start])) ==>
                if text[start] == '\\' then Decode(u, text, start).Some? && IsDigit(u, Decode(u, text, start).value.0)
                else IsDigit(u, text[start])
    {
      var index, parts := start, "";
      while index < |text|
        invariant start <= index && Spells(u, text, start, index, parts)
        invariant NameFrom(u, text, index, parts) == NameFrom(u, text, start, "")
        invariant parts != "" ==> !IsDigit(u, parts[0]) && start < index
        invariant parts == "" ==> index == start
        decreases |text| - index
      {
        var c, next := text[index], index + 1;
        if c == '\\' {
          var decoded := Decode(u, text, index);
          if decoded.None? { return Failure(UnsupportedEscape); }
          c, next := decoded.value.0, decoded.value.1;
        } else if !IsWord(u, c) {
          break;
        }
        if parts == "" && IsDigit(u, c) { return Success(None); }
        SpellsOneMore(u, text, start, index, parts, c, next);
        parts, index := parts + [c], next;
      }
      return Success(if parts != "" then Some((parts, index)) else None);
    }

    method PrivateName(start: nat) returns (r: Result<nat, LexError>)
      requires Tiled(start) && start < |text| && text[start] == '#'
      modifies `tokens
      ensures r.Success? ==> Tiled(r.value) && start < r.value
      ensures r.Success? ==> Advances(read, text, old(tokens), tokens, Prior(Literal, "private-identifier"))
      ensures Makes(PrivateAt(u, text, start), r, old(tokens), tokens)
    {
      var parsed :- ParseIdentifier(start + 1);
      if parsed.None? { return Failure(InvalidPrivateIdentifier); }
      PrivateNameTiles(tiles, u, text, tokens, start, parsed.value.1, parsed.value.0);
      PlainAdvances(read, text, tokens, Token(PrivateIdentifier, "#" + parsed.value.0, start, parsed.value.1),
                    Prior(Literal, "private-identifier"));
      Push(PrivateIdentifier, start, parsed.value.1, "#" + parsed.value.0);
      return Success(parsed.value.1);
    }

    method WordOrNumber(start: nat) returns (r: Result<(nat, Prior), LexError>)
      requires Tiled(start) && start < |text| && (IsWord(u, text[start]) || text[start] == '\\')
      modifies `tokens
      ensures r.Success? ==> Tiled(r.value.0) && start < r.value.0
      ensures r.Success? ==> Advances(read, text, old(tokens), tokens, r.value.1) && r.value.1.class_ != Pending
      ensures Makes(WordAt(u, text, start), EndOf(r), old(tokens), tokens)
    {
      var parsed :- ParseIdentifier(start);
      if parsed.None? {
        var index := SkipNumber(start + 1);
        NumberTiles(tiles, u, text, tokens, start, index);
        PlainAdvances(read, text, tokens, Token(Number, Slice(text, start, index), start, index), Prior(Literal, "number"));
        Push(Number, start, index, Slice(text, start, index));
        return Success((index, Prior(Literal, "number")));
      }
      NameTiles(tiles, u, text, tokens, start, parsed.value.1, parsed.value.0);
      PlainAdvances(read, text, tokens, Token(Identifier, parsed.value.0, start, parsed.value.1), Prior(Word, parsed.value.0));
      Push(Identifier, start, parsed.value.1, parsed.value.0);
      return Success((parsed.value.1, Prior(Word, parsed.value.0)));
    }

    // ---- Context ----

    /** Whether the innermost open parenthesis heads a `for`. */
    method WithinForHeader() returns (within: bool)
      ensures within <==> InForHeader(NonComments(tokens))
    {
      var code, depth := NonComments(tokens), 0;
      var cursor: nat := |code|;
      while cursor > 0
        invariant cursor <= |code| && depth == Depth(code, cursor)
        invariant forall j | cursor <= j <= |code| :: 0 <= Depth(code, j)
      {
        cursor := cursor - 1;
        if code[cursor].value == ")" {
          depth := depth + 1;
        } else if code[cursor].value == "(" {
          if depth == 0 {
            InnermostIsUnique(code, cursor);
            return HeadsFor(code, cursor);
          }
          depth := depth - 1;
        }
      }
      assert forall k: nat :: IsInnermostOpen(code, k) ==> Depth(code, k) == -1;
      return false;
    }

    /** Regexp, division, or refused, as the tokens so far decide. */
    method ReadSlash(start: nat, previous: Option<Prior>, before: Option<Prior>) returns (reading: Reading)
      requires Remembers(previous, before)
      ensures reading == read(text, tokens).slash(start)
    {
      assert read(text, tokens) == ViewOf(text, tokens);
      var contextual := IsWordOf(previous, {"await", "yield"});
      if IsWordOf(previous, {"of"}) {
        contextual := WithinForHeader();
      }
      if previous.Some? && ClosesOrAsserts(previous.value) { return Ambiguous; }
      if contextual && !IsMember(before) { return Ambiguous; }
      if previous.Some? && Resumes(text, tokens, previous.value, before, start) { return Ambiguous; }
      return if StartsExpression(previous, before) then AsRegex else AsDivision;
    }

    // ---- Code and templates ----

    method Slash(start: nat, previous: Option<Prior>, before: Option<Prior>)
      returns (r: Result<(nat, Prior), LexError>)
      requires Tiled(start) && start < |text| && text[start] == '/' && Remembers(previous, before)
      modifies `tokens
      ensures r.Success? ==> Tiled(r.value.0) && start < r.value.0
      ensures r.Success? ==> Advances(read, text, old(tokens), tokens, r.value.1) && r.value.1.class_ != Pending
      ensures var reading := read(text, old(tokens)).slash(start);
              r.Success? <==> reading != Ambiguous && (reading == AsRegex ==> RegexEnd(text, start + 1, false).Some?)
      ensures Makes(SlashAt(u, text, start, read(text, old(tokens)).slash(start)), EndOf(r), old(tokens), tokens)
    {
      var index, current := start + 1, Prior(Mark, "/");
      var reading := ReadSlash(start, previous, before);
      if reading == Ambiguous { return Failure(AmbiguousSlash); }
      if reading == AsRegex {
        index :- RegexLiteral(start);
        current := Prior(Literal, "regex");
        RegexAdvances(read, text, old(tokens), Token(Regex, Slice(text, start, index), start, index));
      } else {
        DivisionTiles(tiles, u, text, tokens, start);
        DivisionAdvances(read, text, tokens, Token(Punctuation, "/", start, index));
        Push(Punctuation, start, index, "/");
      }
      return Success((index, current));
    }

    /** An intrinsic is a token, a generic arrow is left to the punctuation, other tags are refused. */
    method Angle(start: nat, previous: Option<Prior>) returns (r: Result<Option<nat>, LexError>)
      requires Tiled(start) && start < |text| && text[start] == '<' && previous == Previous(Top(read(text, tokens).levels))
      modifies `tokens
      ensures r.Success? && r.value.Some? ==> Tiled(r.value.value) && start < r.value.value
      ensures r.Success? && r.value.Some? ==> Advances(read, text, old(tokens), tokens, Prior(Literal, "jsx-intrinsic"))
      ensures r.Success? && r.value.None? ==> tokens == old(tokens)
      ensures r == AngleAt(u, text, start, read(text, old(tokens)).tag(start))
      ensures r.Success? && r.value.Some? ==> tokens == old(tokens) + [Sliced(JsxIntrinsic, text, start, r.value.value)]
    {
      assert read(text, tokens) == ViewOf(text, tokens);
      var following := start + 1;
      while following < |text| && IsSpace(text[following])
        invariant following <= |text| && SpaceEnd(text, following) == SpaceEnd(text, start + 1)
      {
        following := following + 1;
      }
      var tagLike := following < |text| && (text[following] == '>' || IsWord(u, text[following]));
      if tagLike && (ExpectsExpression(previous) || BreaksLine(text, tokens, start)) {
        var end := IntrinsicEnd(text, start);
        if end.Some? {
          IntrinsicTiles(tiles, u, text, tokens, start, end.value);
          IntrinsicAdvances(read, text, tokens, Token(JsxIntrinsic, Slice(text, start, end.value), start, end.value));
          Push(JsxIntrinsic, start, end.value, Slice(text, start, end.value));
          return Success(end);
        }
        if ArrowEnd(text, start + 1).None? { return Failure(UnsupportedAngle); }
      }
      return Success(None);
    }

    method Punctuate(start: nat, previous: Option<Prior>) returns (index: nat, current: Prior)
      requires Tiled(start) && start < |text| && IsPunctuator(u, text[start])
      requires previous == Previous(Top(read(text, tokens).levels))
      modifies `tokens
      ensures Tiled(index) && start < index <= |text|
      ensures Advances(read, text, old(tokens), tokens, current) && current.class_ != Pending
      ensures tokens == old(tokens) + [MarkAt(text, start)] && index == MarkAt(text, start).end
    {
      var pair := Slice(text, start, start + 2);
      var value := if IsDoubleMark(pair) then pair else [text[start]];
      index := start + |value|;
      current := MarkAfter(value, previous);
      PunctuatorTiles(tiles, u, text, tokens, start, value);
      PlainAdvances(read, text, tokens, Token(Punctuation, value, start, index), current);
      Push(Punctuation, start, index, value);
    }

    /** Closes the literal piece before a substitution and lexes the substituted code. */
    method Substitution(
      piece: nat, index: nat, ghost start: nat, ghost was: seq<Token>, ghost interpolated: bool, ghost below: Frames,
      ghost goal: Result<seq<Token>, LexError>)
      returns (r: Result<nat, LexError>)
      requires Tiled(piece) && StartsAt(text, index, "${") && tokens in TemplateStates(read, text, start, was, interpolated)
      requires piece <= index && PieceEnd(text, if interpolated then piece else start + 1) == Some(index)
      requires !interpolated ==> piece == start && text[start] == '`'
      requires Rest(piece, below + [Frame.Piece(interpolated)]) == goal
      modifies `tokens
      ensures r.Success? ==> Tiled(r.value) && index < r.value <= |text|
      ensures r.Success? ==> tokens in TemplateStates(read, text, start, was, true)
      ensures if r.Success? then Rest(r.value, below + [Frame.Piece(true)]) == goal else goal == Failure(r.error)
      decreases |text| - index, 0
    {
      ghost var first := Token(Kind.Template, Slice(text, piece, index), piece, index);
      ghost var open := Token(Punctuation, "${", index, index + 2);
      TemplateOpens(read, text, start, was, tokens, interpolated, first, open);
      PieceOpensRuns(
        run, u, text, State(piece, tokens, below + [Frame.Piece(interpolated)]), below, interpolated, first, open);
      PieceTiles(tiles, u, text, tokens, piece, index, interpolated);
      Push(Kind.Template, piece, index, Slice(text, piece, index));
      Push(Punctuation, index, index + 2, "${");
      ghost var inside := tokens;
      r := Code(index + 2, true, below + [Frame.Piece(true)]);
      if r.Success? {
        TemplateResumes(read, text, start, was, inside, tokens);
      }
    }

    method CloseTemplate(
      piece: nat, index: nat, interpolated: bool, ghost start: nat, ghost was: seq<Token>, ghost below: Frames,
      ghost goal: Result<seq<Token>, LexError>)
      returns (next: nat)
      requires Tiled(piece) && piece <= index < |text| && text[index] == '`'
      requires tokens in TemplateStates(read, text, start, was, interpolated)
      requires PieceEnd(text, if interpolated then piece else start + 1) == Some(index)
      requires !interpolated ==> piece == start && text[start] == '`'
      requires Rest(piece, below + [Frame.Piece(interpolated)]) == goal
      modifies `tokens
      ensures var kind := if interpolated then Kind.Template else StaticTemplate;
              tokens == old(tokens) + [Token(kind, Slice(text, piece, next), piece, next)]
      ensures next == index + 1 && Tiled(next) && tokens in TemplateResults(read, text, start, was, next)
      ensures Rest(next, below) == goal
    {
      var kind := if interpolated then Kind.Template else StaticTemplate;
      ghost var last := Token(kind, Slice(text, piece, index + 1), piece, index + 1);
      LastPieceRuns(
        run, u, text, State(piece, tokens, below + [Frame.Piece(interpolated)]), below, interpolated, last, index);
      LastPieceTiles(tiles, u, text, tokens, kind, piece, index);
      TemplateCloses(read, text, start, was, tokens, interpolated, last);
      Push(kind, piece, index + 1, Slice(text, piece, index + 1));
      return index + 1;
    }

    /** Scans literal template text up to its closing backquote or next substitution. */
    method ScanPiece(from: nat) returns (end: Option<nat>)
      ensures end == PieceEnd(text, from)
    {
      var index: nat := from;
      while index < |text|
        invariant PieceEnd(text, index) == PieceEnd(text, from)
        decreases |text| - index
      {
        PieceUnfolds(text, from, index);
        if text[index] == '\\' {
          index := index + 2;
        } else if text[index] == '`' || StartsAt(text, index, "${") {
          return Some(index);
        } else {
          index := index + 1;
        }
      }
      return None;
    }

    /** One literal piece: up to the end of the template, or through the substitution after it. */
    method Piece(
      piece: nat, interpolated: bool, ghost start: nat, ghost was: seq<Token>, ghost below: Frames,
      ghost goal: Result<seq<Token>, LexError>)
      returns (r: Result<(bool, nat), LexError>)
      requires Tiled(piece) && start <= piece < |text| + 1 && tokens in TemplateStates(read, text, start, was, interpolated)
      requires !interpolated ==> piece == start < |text| && text[start] == '`'
      requires Rest(piece, below + [Frame.Piece(interpolated)]) == goal
      modifies `tokens
      ensures r.Success? ==> Tiled(r.value.1) && piece < r.value.1 <= |text|
      ensures r.Success? && r.value.0 ==>
                tokens in TemplateResults(read, text, start, was, r.value.1) && Rest(r.value.1, below) == goal
      ensures r.Success? && !r.value.0 ==>
                tokens in TemplateStates(read, text, start, was, true)
                && Rest(r.value.1, below + [Frame.Piece(true)]) == goal
      ensures !interpolated && PieceEnd(text, start + 1).None? ==> r.Failure?
      ensures !interpolated && IsStatic(text, start) ==> r.Success? && r.value.0
      ensures r.Failure? ==> goal == Failure(r.error)
      decreases |text| - piece, 1
    {
      var body := if interpolated then piece else piece + 1;
      var end := ScanPiece(body);
      if end.None? {
        NoPieceRuns(run, u, text, State(piece, tokens, below + [Frame.Piece(interpolated)]), below, interpolated);
        return Failure(UnterminatedTemplate);
      }
      if text[end.value] == '`' {
        var after := CloseTemplate(piece, end.value, interpolated, start, was, below, goal);
        return Success((true, after));
      }
      var next :- Substitution(piece, end.value, start, was, interpolated, below, goal);
      return Success((false, next));
    }

    /**
     A whole template: a static one is one token; otherwise its pieces enclose the code of its
     substitutions, and the last piece ends with the backquote it returns behind.
     */
    method Template(start: nat, ghost below: Frames) returns (r: Result<nat, LexError>)
      requires Tiled(start) && start < |text| && text[start] == '`' && !IsPending(read(text, tokens).levels)
      modifies `tokens
      ensures r.Success? ==> Tiled(r.value) && start < r.value <= |text|
      ensures r.Success? ==> Advances(read, text, old(tokens), tokens, TEMPLATE)
      ensures r.Success? ==> IsTemplate(text, start, r.value, old(tokens), tokens)
      ensures PieceEnd(text, start + 1).None? ==> r.Failure?
      ensures IsStatic(text, start) ==> r.Success?
      ensures old(Rest(start, below + [Frame.Piece(false)])) ==
              if r.Success? then Rest(r.value, below) else Failure(r.error)
      decreases |text| - start, 2
    {
      TemplateStarts(read, text, start, tokens);
      ghost var goal := Rest(start, below + [Frame.Piece(false)]);
      var piece :- Piece(start, false, start, old(tokens), below, goal);
      while !piece.0
        invariant start < piece.1 <= |text| && Tiled(piece.1)
        invariant tokens in if piece.0 then TemplateResults(read, text, start, old(tokens), piece.1)
                            else TemplateStates(read, text, start, old(tokens), true)
        invariant !piece.0 ==> PieceEnd(text, start + 1).Some? && !IsStatic(text, start)
        invariant Rest(piece.1, if piece.0 then below else below + [Frame.Piece(true)]) == goal
        decreases |text| - piece.1, if piece.0 then 0 else 1
      {
        piece :- Piece(piece.1, true, start, old(tokens), below, goal);
      }
      return Success(piece.1);
    }

    /** A comment at `start`, with its end and whether it spans lines; none if there is no comment. */
    method CommentAt(start: nat, lineHasCode: bool) returns (r: Result<Option<(nat, bool)>, LexError>)
      requires Tiled(start) && start < |text|
      modifies `tokens
      ensures r.Success? && r.value.Some? ==> Tiled(r.value.value.0) && start < r.value.value.0
      ensures r.Success? && r.value.Some? ==> Remains(read, text, old(tokens), tokens)
      ensures r.Success? && r.value.None? ==> tokens == old(tokens) && !StartsAt(text, start, "/*")
      ensures r == OpenedComment(text, start, lineHasCode)
      ensures r.Success? && r.value.Some? ==>
                tokens == old(tokens) + [Sliced(Comment, text, start, r.value.value.0)]
    {
      var line :=
        || StartsAt(text, start, "//") || StartsAt(text, start, "<!--")
        || (!lineHasCode && StartsAt(text, start, "-->"))
        || (StartsAt(text, start, "#!") && (start == 0 || (start == 1 && text[0] == '\U{FEFF}')));
      assert line == OpensComment(text, start, lineHasCode);
      if line {
        var end := LineComment(start);
        CommentRemains(read, text, old(tokens), Token(Comment, Slice(text, start, end), start, end));
        return Success(Some((end, false)));
      }
      if StartsAt(text, start, "/*") {
        var end :- BlockComment(start);
        CommentRemains(read, text, old(tokens), Token(Comment, Slice(text, start, end), start, end));
        return Success(Some((end, HasTerminator(text[start..end]))));
      }
      return Success(None);
    }

    /** Blank or comment: the index after it, and whether the line there has code; none at code. */
    method Gap(
      index: nat, lineHasCode: bool, ghost goal: Result<seq<Token>, LexError>, ghost outer: Below, ghost depth: int)
      returns (r: Result<Option<(nat, bool)>, LexError>)
      requires Tiled(index) && index < |text|
      requires State(index, tokens, Within(outer, depth, lineHasCode)) in Leads(run, u, text, goal)
      modifies `tokens
      ensures r.Failure? ==> goal == Failure(r.error)
      ensures r.Success? && r.value.Some? ==>
                && Tiled(r.value.value.0) && index < r.value.value.0 && Remains(read, text, old(tokens), tokens)
                && State(r.value.value.0, tokens, Within(outer, depth, r.value.value.1)) in Leads(run, u, text, goal)
      ensures r.Success? && r.value.None? ==> tokens == old(tokens) && IsCode(text, index, lineHasCode)
    {
      var c := text[index];
      if IsBlank(c) {
        BlankTiles(tiles, u, text, tokens, index);
        BlankLeads(run, u, text, goal, index, tokens, outer, depth, lineHasCode, index + 1);
        return Success(Some((index + 1, lineHasCode && !IsTerminator(c))));
      }
      CommentLeads(run, u, text, goal, index, tokens, outer, depth, lineHasCode, OpenedComment(text, index, lineHasCode));
      var comment :- CommentAt(index, lineHasCode);
      if comment.None? { return Success(None); }
      return Success(Some((comment.value.0, lineHasCode && !comment.value.1)));
    }

    /** One token of code, or one template: the index after it and what it leaves behind. */
    method Item(start: nat, previous: Option<Prior>, before: Option<Prior>, ghost below: Frames)
      returns (r: Result<(nat, Prior), LexError>)
      requires Tiled(start) && start < |text| && !IsBlank(text[start]) && Remembers(previous, before)
      requires previous.Some? ==> previous.value.class_ != Pending
      modifies `tokens
      ensures r.Success? ==> Tiled(r.value.0) && start < r.value.0
      ensures r.Success? ==> Advances(read, text, old(tokens), tokens, r.value.1) && r.value.1.class_ != Pending
      ensures ItemDone(run, read, u, text, start, old(tokens), tokens, below, EndOf(r))
      decreases |text| - start, 3
    {
      var c := text[start];
      if c == '<' {
        var intrinsic :- Angle(start, previous);
        if intrinsic.Some? { return Success((intrinsic.value, Prior(Literal, "jsx-intrinsic"))); }
      }
      if c == '\'' || c == '"' {
        var end :- QuotedString(start);
        PlainAdvances(read, text, old(tokens), Token(Str, Slice(text, start, end), start, end), Prior(Literal, "string"));
        return Success((end, Prior(Literal, "string")));
      }
      if c == '`' {
        var end :- Template(start, below);
        return Success((end, TEMPLATE));
      }
      if c == '/' {
        r := Slash(start, previous, before);
        return;
      }
      if c == '#' {
        var end :- PrivateName(start);
        return Success((end, Prior(Literal, "private-identifier")));
      }
      if IsWord(u, c) || c == '\\' {
        r := WordOrNumber(start);
        return;
      }
      if !IsAscii(c) { return Failure(UnsupportedToken); }
      var index, current := Punctuate(start, previous);
      return Success((index, current));
    }

    /** The brace that closes the substitution whose code was lexed from `was` on. */
    method CloseSubstitution(
      index: nat, ghost was: seq<Token>, ghost previous: Option<Prior>, ghost before: Option<Prior>,
      ghost goal: Result<seq<Token>, LexError>, ghost outer: Frames, ghost lineHasCode: bool)
      requires Tiled(index) && IsCode(text, index, lineHasCode) && text[index] == '}'
      requires tokens in CodeStates(read, text, was, previous, before) && Outer(read(text, was).levels) != []
      requires State(index, tokens, Within(outer, 0, lineHasCode)) in Leads(run, u, text, goal)
      modifies `tokens
      ensures Tiled(index + 1) && tokens in CodeResults(read, text, was, true) && Rest(index + 1, outer) == goal
    {
      ghost var end := Token(ExpressionEnd, "}", index, index + 1);
      EndLeads(run, u, text, goal, index, tokens, outer, 0, lineHasCode, end);
      EndTiles(tiles, u, text, tokens, index);
      CodeCloses(read, text, was, tokens, previous, before, end);
      Push(ExpressionEnd, index, index + 1, "}");
    }

    /** An item within the code that was lexed from `was` on; `outside` is the depth before it. */
    method CodeItem(
      start: nat, previous: Option<Prior>, before: Option<Prior>, ghost was: seq<Token>,
      ghost goal: Result<seq<Token>, LexError>, ghost outer: Below, ghost outside: int, ghost lineHasCode: bool)
      returns (r: Result<(nat, Prior), LexError>)
      requires Tiled(start) && IsCode(text, start, lineHasCode)
      requires !(text[start] == '}' && outside == 0 && outer != [])
      requires tokens in CodeStates(read, text, was, previous, before)
      requires State(start, tokens, Within(outer, outside, lineHasCode)) in Leads(run, u, text, goal)
      modifies `tokens
      ensures r.Failure? ==> goal == Failure(r.error)
      ensures r.Success? ==>
                && Tiled(r.value.0) && start < r.value.0
                && tokens in CodeStates(read, text, was, Some(r.value.1), previous)
                && State(r.value.0, tokens, Within(outer, Braces(outside, text[start]), true)) in Leads(run, u, text, goal)
      decreases |text| - start, 4
    {
      ghost var depth, now := Braces(outside, text[start]), tokens;
      CodeRemembers(read, text, was, tokens, previous, before);
      r := Item(start, previous, before, Within(outer, depth, true));
      ItemRuns(run, read, u, text, goal, start, now, tokens, outer, outside, lineHasCode, depth, EndOf(r));
      if r.Success? {
        CodeAdvances(read, text, was, now, tokens, previous, before, r.value.1);
      }
    }

    /** Code up to the end of the text, or up to the brace that closes a substitution. */
    method Code(from: nat, expression: bool, ghost outer: Below) returns (r: Result<nat, LexError>)
      requires Tiled(from) && from <= |text|
      requires Top(read(text, tokens).levels) == [] && (expression ==> Outer(read(text, tokens).levels) != [])
      requires (expression <==> outer != [])
      modifies `tokens
      ensures r.Success? ==> Tiled(r.value) && if expression then from < r.value <= |text| else |text| <= r.value
      ensures r.Success? ==> tokens in CodeResults(read, text, old(tokens), expression)
      ensures old(Rest(from, Within(outer, 0, false))) ==
              if r.Failure? then Failure(r.error) else if expression then Rest(r.value, outer) else Success(tokens)
      decreases |text| - from, 5
    {
      var index, depth := from, 0;
      var previous: Option<Prior> := None;
      var before: Option<Prior> := None;
      var lineHasCode := false;
      CodeStarts(read, text, tokens);
      ghost var goal := Rest(from, Within(outer, 0, false));
      while index < |text|
        invariant from <= index && Tiled(index)
        invariant tokens in CodeStates(read, text, old(tokens), previous, before)
        invariant State(index, tokens, Within(outer, depth, lineHasCode)) in Leads(run, u, text, goal)
        decreases |text| - index
      {
        var c := text[index];
        ghost var was := tokens;
        var gap :- Gap(index, lineHasCode, goal, outer, depth);
        if gap.Some? {
          CodeRemains(read, text, old(tokens), was, tokens, previous, before);
          index, lineHasCode := gap.value.0, gap.value.1;
          continue;
        }
        if expression && c == '}' && depth == 0 {
          CloseSubstitution(index, old(tokens), previous, before, goal, outer, lineHasCode);
          return Success(index + 1);
        }
        var item :- CodeItem(index, previous, before, old(tokens), goal, outer, depth, lineHasCode);
        depth := if c == '{' then depth + 1 else if c == '}' then depth - 1 else depth;
        index, before, previous := item.0, previous, Some(item.1);
        lineHasCode := true;
      }
      CodeEnds(read, text, old(tokens), tokens, previous, before);
      EndOfTextLeads(run, u, text, goal, index, tokens, outer, depth, lineHasCode);
      if expression { return Failure(UnterminatedExpression); }
      return Success(index);
    }

    /**
     All tokens of the text: they tile it, each stands in the context it needs, and every
     substitution that is opened is closed.
     */
    method Tokens() returns (r: Result<seq<Token>, LexError>)
      requires tokens == []
      modifies `tokens
      ensures r == Lex(u, text)
      ensures r.Success? ==> exists end :: |text| <= end && Tiles(u, text, r.value, end)
      ensures r.Success? ==> AllInContext(text, r.value) && Outer(LevelsOf(r.value)) == []
    {
      NothingYet(read, text);
      assert Tiles(u, text, tokens, 0);
      ghost var start := State(0, tokens, Within([], 0, false));
      assert run(u, text, start) == Run(u, text, start);
      var end :- Code(0, false, []);
      assert tiles(u, text, tokens, end) == Tiles(u, text, tokens, end);
      SoundIsInContext(read, text, tokens);
      return Success(tokens);
    }
  }

  // ---- One step of each scan ----

  lemma StringUnfolds(text: string, i: nat, quote: char)
    requires i < |text|
    ensures StringEnd(text, i, quote) ==
            if text[i] == '\\' then StringEnd(text, AfterEscape(text, i), quote)
            else if text[i] == quote then Some(i + 1)
            else if text[i] == '\r' || text[i] == '\n' then None
            else StringEnd(text, i + 1, quote)
  {
  }

  lemma RegexUnfolds(text: string, i: nat, inClass: bool)
    requires i < |text|
    ensures RegexEnd(text, i, inClass) ==
            if text[i] == '\\' then RegexEnd(text, i + 2, inClass)
            else if IsTerminator(text[i]) then None
            else if text[i] == '/' && !inClass then Some(i + 1)
            else RegexEnd(text, i + 1, text[i] == '[' || (inClass && text[i] != ']'))
  {
  }

  lemma PieceUnfolds(text: string, body: nat, i: nat)
    requires i < |text| && PieceEnd(text, i) == PieceEnd(text, body)
    ensures if text[i] == '\\' then PieceEnd(text, i + 2) == PieceEnd(text, body)
            else if text[i] == '`' || StartsAt(text, i, "${") then PieceEnd(text, body) == Some(i)
            else PieceEnd(text, i + 1) == PieceEnd(text, body)
  {
  }

  lemma {:induction false} SpellsOneMore(u: Alphabet, text: string, a: nat, b: nat, name: string, c: char, next: nat)
    requires Spells(u, text, a, b, name) && b < |text|
    requires if text[b] == '\\' then Decode(u, text, b) == Some((c, next)) else IsWord(u, text[b]) && c == text[b] && next == b + 1
    ensures Spells(u, text, a, next, name + [c])
    decreases |name|
  {
    if name != [] {
      assert (name + [c])[1..] == name[1..] + [c];
      if text[a] == '\\' {
        SpellsOneMore(u, text, Decode(u, text, a).value.1, b, name[1..], c, next);
      } else {
        SpellsOneMore(u, text, a + 1, b, name[1..], c, next);
      }
    } else {
      assert (name + [c])[1..] == [];
    }
  }

  // ---- Each token extends the tiling ----

  lemma LineCommentTiles(tiles: Tiler, u: Alphabet, text: string, ts: seq<Token>, start: nat, end: nat)
    requires tiles(u, text, ts, start) && OpensLineComment(text, start) && end == LineEnd(text, start)
    ensures start < end && tiles(u, text, ts + [Token(Comment, Slice(text, start, end), start, end)], end)
  {
    assert text[start] == text[start..start + 2][0];
    assert StartsAt(text, start, "<!--") ==> text[start] == text[start..start + 4][0];
    assert StartsAt(text, start, "-->") ==> text[start] == text[start..start + 3][0];
    assert !IsTerminator(text[start]);
    TokenTiles(tiles, u, text, ts, Token(Comment, Slice(text, start, end), start, end));
  }

  lemma BlockCommentTiles(tiles: Tiler, u: Alphabet, text: string, ts: seq<Token>, start: nat, end: nat)
    requires tiles(u, text, ts, start) && StartsAt(text, start, "/*")
    requires 2 <= end && Find(text, start + 2, "*/") == Some(end - 2)
    ensures start < end <= |text| && tiles(u, text, ts + [Token(Comment, Slice(text, start, end), start, end)], end)
  {
    TokenTiles(tiles, u, text, ts, Token(Comment, Slice(text, start, end), start, end));
  }

  lemma StringTiles(tiles: Tiler, u: Alphabet, text: string, ts: seq<Token>, start: nat, end: nat)
    requires tiles(u, text, ts, start) && start < |text| && (text[start] == '\'' || text[start] == '"')
    requires StringEnd(text, start + 1, text[start]) == Some(end)
    ensures tiles(u, text, ts + [Token(Str, Slice(text, start, end), start, end)], end)
  {
    TokenTiles(tiles, u, text, ts, Token(Str, Slice(text, start, end), start, end));
  }

  lemma RegexTiles(tiles: Tiler, u: Alphabet, text: string, ts: seq<Token>, start: nat, body: nat, end: nat)
    requires tiles(u, text, ts, start) && start < |text| && text[start] == '/'
    requires RegexEnd(text, start + 1, false) == Some(body) && end == WordEnd(u, text, body)
    ensures tiles(u, text, ts + [Token(Regex, Slice(text, start, end), start, end)], end)
  {
    TokenTiles(tiles, u, text, ts, Token(Regex, Slice(text, start, end), start, end));
  }

  lemma PrivateNameTiles(
    tiles: Tiler, u: Alphabet, text: string, ts: seq<Token>, start: nat, end: nat, name: string)
    requires tiles(u, text, ts, start) && start < |text| && text[start] == '#'
    requires start < end && IsIdentifierAt(u, text, start + 1, end, name)
    ensures tiles(u, text, ts + [Token(PrivateIdentifier, "#" + name, start, end)], end)
  {
    assert ("#" + name)[1..] == name;
    TokenTiles(tiles, u, text, ts, Token(PrivateIdentifier, "#" + name, start, end));
  }

  lemma NumberTiles(tiles: Tiler, u: Alphabet, text: string, ts: seq<Token>, start: nat, end: nat)
    requires tiles(u, text, ts, start) && start < |text| && end == NumberEnd(u, text, start + 1)
    requires IsWord(u, text[start]) || (Decode(u, text, start).Some? && IsDigit(u, Decode(u, text, start).value.0))
    ensures tiles(u, text, ts + [Token(Number, Slice(text, start, end), start, end)], end)
  {
    TokenTiles(tiles, u, text, ts, Token(Number, Slice(text, start, end), start, end));
  }

  lemma NameTiles(tiles: Tiler, u: Alphabet, text: string, ts: seq<Token>, start: nat, end: nat, name: string)
    requires tiles(u, text, ts, start) && start <= |text|
    requires start < end && IsIdentifierAt(u, text, start, end, name)
    ensures tiles(u, text, ts + [Token(Identifier, name, start, end)], end)
  {
    TokenTiles(tiles, u, text, ts, Token(Identifier, name, start, end));
  }

  lemma DivisionTiles(tiles: Tiler, u: Alphabet, text: string, ts: seq<Token>, start: nat)
    requires tiles(u, text, ts, start) && start < |text| && text[start] == '/'
    ensures tiles(u, text, ts + [Token(Punctuation, "/", start, start + 1)], start + 1)
  {
    assert text[start..start + 1] == "/";
    TokenTiles(tiles, u, text, ts, Token(Punctuation, "/", start, start + 1));
  }

  lemma IntrinsicTiles(tiles: Tiler, u: Alphabet, text: string, ts: seq<Token>, start: nat, end: nat)
    requires tiles(u, text, ts, start) && start < |text| && IntrinsicEnd(text, start) == Some(end)
    ensures tiles(u, text, ts + [Token(JsxIntrinsic, Slice(text, start, end), start, end)], end)
  {
    TokenTiles(tiles, u, text, ts, Token(JsxIntrinsic, Slice(text, start, end), start, end));
  }

  lemma PunctuatorTiles(tiles: Tiler, u: Alphabet, text: string, ts: seq<Token>, start: nat, value: string)
    requires tiles(u, text, ts, start) && start < |text| && IsPunctuator(u, text[start])
    requires (value == Slice(text, start, start + 2) && IsDoubleMark(value)) || value == [text[start]]
    ensures var t := Token(Punctuation, value, start, start + |value|);
            t.end <= |text| && IsPlain(t) && tiles(u, text, ts + [t], t.end)
  {
    assert text[start..start + |value|] == value;
    TokenTiles(tiles, u, text, ts, Token(Punctuation, value, start, start + |value|));
  }

  lemma EndTiles(tiles: Tiler, u: Alphabet, text: string, ts: seq<Token>, start: nat)
    requires tiles(u, text, ts, start) && start < |text| && text[start] == '}'
    ensures tiles(u, text, ts + [Token(ExpressionEnd, "}", start, start + 1)], start + 1)
  {
    TokenTiles(tiles, u, text, ts, Token(ExpressionEnd, "}", start, start + 1));
  }

  /** A piece that stops at a substitution, and the opening of that. */
  lemma PieceTiles(
    tiles: Tiler, u: Alphabet, text: string, ts: seq<Token>, piece: nat, index: nat, interpolated: bool)
    requires tiles(u, text, ts, piece) && piece <= index && StartsAt(text, index, "${")
    requires PieceEnd(text, if interpolated then piece else piece + 1) == Some(index)
    requires !interpolated ==> text[piece] == '`'
    ensures var first := Token(Kind.Template, Slice(text, piece, index), piece, index);
            && tiles(u, text, ts + [first], index)
            && tiles(u, text, ts + [first] + [Token(Punctuation, "${", index, index + 2)], index + 2)
  {
    var first := Token(Kind.Template, Slice(text, piece, index), piece, index);
    TokenTiles(tiles, u, text, ts, first);
    TokenTiles(tiles, u, text, ts + [first], Token(Punctuation, "${", index, index + 2));
  }

  lemma LastPieceTiles(
    tiles: Tiler, u: Alphabet, text: string, ts: seq<Token>, kind: Kind, piece: nat, index: nat)
    requires tiles(u, text, ts, piece) && piece <= index < |text| && text[index] == '`'
    requires if kind == Kind.Template then PieceEnd(text, piece) == Some(index)
             else kind == StaticTemplate && piece < index && text[piece] == '`' && PieceEnd(text, piece + 1) == Some(index)
    ensures tiles(u, text, ts + [Token(kind, Slice(text, piece, index + 1), piece, index + 1)], index + 1)
  {
    TokenTiles(tiles, u, text, ts, Token(kind, Slice(text, piece, index + 1), piece, index + 1));
  }
}
