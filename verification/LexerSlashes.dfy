/** What the context of every slash token says about the tokens before it. */
module LexerSlashes {
  import opened Wrappers
  import opened Text
  import opened LexerModel
  import opened LexerContext

  const LITERALS: set<string> := {"string", "template", "regex", "number", "private-identifier", "jsx-intrinsic"}

  /** `p` is what the lexer remembers of `t`. */
  predicate Describes(t: Token, p: Prior) {
    match p.class_
    case Word => t.kind == Identifier && p.value == t.value
    case Mark => t.kind == Punctuation && (p.value == t.value || (t.value == "!" && p.value == "postfix!"))
    case Literal => t.kind != Identifier && t.kind != Punctuation && p.value in LITERALS
    case Pending => t.kind == ExpressionEnd && p.value == ""
  }

  /** `p` is what is remembered of the last token of `code`: nothing where a level of code starts. */
  predicate RemembersLast(code: seq<Token>, p: Option<Prior>) {
    if code == [] || OpensSubstitution(code[|code| - 1]) then p.None?
    else p.Some? && Describes(code[|code| - 1], p.value)
  }

  lemma PriorDescribes(t: Token, previous: Option<Prior>)
    requires t.kind != Comment && t.kind != ExpressionEnd
    ensures Describes(t, PriorOf(t, previous))
  {
  }

  lemma ShiftedTop(levels: Levels, p: Prior)
    ensures Previous(Top(Shift(levels, p))) == Some(p)
    ensures BeforePrevious(Top(Shift(levels, p))) == Previous(Top(levels))
  {
  }

  lemma AfterRemembersLast(levels: Levels, t: Token)
    requires t.kind != Comment
    ensures var p := Previous(Top(After(levels, t)));
            if OpensSubstitution(t) then p.None? else p.Some? && Describes(t, p.value)
  {
    if t.kind == ExpressionEnd {
      ShiftedTop(Leave(levels), PENDING);
    } else if t.kind == Kind.Template {
      ShiftedTop(if IsPending(levels) then Unshift(levels) else levels, TEMPLATE);
    } else if !OpensSubstitution(t) {
      var p := PriorOf(t, Previous(Top(levels)));
      PriorDescribes(t, Previous(Top(levels)));
      ShiftedTop(levels, p);
    }
  }

  lemma {:induction false} PreviousIsLast(ts: seq<Token>)
    ensures RemembersLast(NonComments(ts), Previous(Top(LevelsOf(ts))))
  {
    if ts != [] {
      var n := |ts| - 1;
      PreviousIsLast(ts[..n]);
      if ts[n].kind != Comment {
        AfterRemembersLast(LevelsOf(ts[..n]), ts[n]);
      }
    }
  }

  /** After an identifier, `before` is what is remembered of the token before it. */
  lemma {:induction false} BeforeIsSecondLast(ts: seq<Token>)
    requires NonComments(ts) != [] && NonComments(ts)[|NonComments(ts)| - 1].kind == Identifier
    ensures var code := NonComments(ts); RemembersLast(code[..|code| - 1], BeforePrevious(Top(LevelsOf(ts))))
  {
    var n := |ts| - 1;
    if ts[n].kind == Comment {
      BeforeIsSecondLast(ts[..n]);
    } else {
      var code := NonComments(ts);
      assert code[..|code| - 1] == NonComments(ts[..n]);
      PreviousIsLast(ts[..n]);
      ShiftedTop(LevelsOf(ts[..n]), PriorOf(ts[n], Previous(Top(LevelsOf(ts[..n])))));
    }
  }

  // ---- The same conditions on the tokens themselves ----

  /** The last token of `code` follows a member operator. */
  predicate AfterDot(code: seq<Token>) {
    |code| >= 2 && code[|code| - 2].kind == Punctuation && code[|code| - 2].value in {".", "?."}
  }

  /** An operand is due after `code`: at its start, after an operator, and after an operator word. */
  predicate WantsOperand(code: seq<Token>) {
    code == [] ||
    var t := code[|code| - 1];
    || (t.kind == Punctuation && (t.value == "${" || t.value in EXPRESSION_MARKS))
    || (t.kind == Identifier && t.value in REGEX_KEYWORDS && !AfterDot(code))
  }

  /** Whether an operand or an operator is due cannot be told from the last tokens of `code`. */
  ghost predicate InDoubt(text: string, code: seq<Token>, start: nat) {
    code != [] &&
    var t := code[|code| - 1];
    || (t.kind == Punctuation && t.value in {")", "}", "<", ">"})
    || (t.kind == Identifier && !AfterDot(code)
        && (t.value in {"await", "yield"} || (t.value == "of" && InForHeader(code))))
    || (t.kind != Punctuation && !(t.kind == Identifier && t.value in REGEX_KEYWORDS && !AfterDot(code))
        && HasTerminator(Slice(text, t.end, start)))
  }

  predicate IsSlash(t: Token) {
    t.kind == Regex || (t.kind == Punctuation && t.value == "/")
  }

  lemma LiteralsAreNoKeywords(value: string)
    requires value in LITERALS || value == ""
    ensures value !in REGEX_KEYWORDS
  {
  }

  lemma DotIsMember(code: seq<Token>, before: Option<Prior>)
    requires code != [] && RemembersLast(code[..|code| - 1], before)
    ensures IsMember(before) <==> AfterDot(code)
  {
    if |code| >= 2 {
      assert code[..|code| - 1][|code| - 2] == code[|code| - 2];
    }
  }

  /** `previous` and `before` are what is remembered of the last tokens of `code`. */
  predicate Matches(code: seq<Token>, previous: Option<Prior>, before: Option<Prior>) {
    && RemembersLast(code, previous)
    && (code != [] && code[|code| - 1].kind == Identifier ==> RemembersLast(code[..|code| - 1], before))
  }

  lemma LevelsMatch(ts: seq<Token>)
    ensures Matches(NonComments(ts), Previous(Top(LevelsOf(ts))), BeforePrevious(Top(LevelsOf(ts))))
  {
    PreviousIsLast(ts);
    if NonComments(ts) != [] && NonComments(ts)[|NonComments(ts)| - 1].kind == Identifier {
      BeforeIsSecondLast(ts);
    }
  }

  lemma StartsIffWants(code: seq<Token>, previous: Option<Prior>, before: Option<Prior>)
    requires Matches(code, previous, before) && !(previous.Some? && ClosesOrAsserts(previous.value))
    ensures StartsExpression(previous, before) <==> WantsOperand(code)
  {
    if code != [] && code[|code| - 1].kind == Identifier {
      DotIsMember(code, before);
    }
  }

  lemma DoubtIsAmbiguous(text: string, ts: seq<Token>, start: nat)
    requires InDoubt(text, NonComments(ts), start)
    ensures ReadingAt(text, ts, start) == Ambiguous
  {
    LevelsMatch(ts);
    var code, previous, before := NonComments(ts), Previous(Top(LevelsOf(ts))), BeforePrevious(Top(LevelsOf(ts)));
    var t := code[|code| - 1];
    if t.kind == Identifier {
      DotIsMember(code, before);
    } else if t.kind != Punctuation {
      LiteralsAreNoKeywords(previous.value.value);
    }
  }

  lemma ReadingWants(text: string, ts: seq<Token>, start: nat)
    requires ReadingAt(text, ts, start) != Ambiguous
    ensures ReadingAt(text, ts, start) == AsRegex <==> WantsOperand(NonComments(ts))
  {
    LevelsMatch(ts);
    StartsIffWants(NonComments(ts), Previous(Top(LevelsOf(ts))), BeforePrevious(Top(LevelsOf(ts))));
  }

  /**
   A slash token is a regular expression exactly when the tokens before it ask for an operand, and
   it never stands where they leave that in doubt.  Comments before it make no difference.
   */
  lemma RegexIffOperandWanted(text: string, ts: seq<Token>, i: nat)
    requires AllInContext(text, ts) && i < |ts| && IsSlash(ts[i])
    ensures ts[i].kind == Regex <==> WantsOperand(NonComments(ts[..i]))
    ensures !InDoubt(text, NonComments(ts[..i]), ts[i].start)
  {
    assert InContext(text, ts[..i], ts[i]);
    ReadingWants(text, ts[..i], ts[i].start);
    if InDoubt(text, NonComments(ts[..i]), ts[i].start) {
      DoubtIsAmbiguous(text, ts[..i], ts[i].start);
    }
  }
}
