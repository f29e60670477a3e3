/**
 The bracket scanners that walk a scan view character by character.  They skip its strings and
 templates, so each computes what the scan of the code alone gives.
 */
module ViewDelimiters {
  import opened Wrappers
  import opened LexerModel
  import opened ViewLiterals
  import opened Delimiters

  // ---- What the scanners skip ----

  /** The text with its literals blotted out. */
  ghost function CodeOf(text: string, lits: set<Span>): (s: string)
    ensures |s| == |text|
  {
    seq(|text|, k requires 0 <= k < |text| => if Covered(lits, k) then 'x' else text[k])
  }

  /** Nothing but literals from `i` to `j`. */
  ghost predicate Hidden(text: string, lits: set<Span>, i: nat, j: nat) {
    forall k {:trigger Covered(lits, k)} | i <= k < j && k < |text| :: Covered(lits, k)
  }

  lemma CodeAt(text: string, lits: set<Span>, i: nat)
    requires PlainlyQuoted(text, lits) && Synced(lits, i) && i < |text| && !IsQuote(text[i])
    ensures CodeOf(text, lits)[i] == text[i] && Synced(lits, i + 1) && !Covered(lits, i)
  {
    forall l | l in lits ensures !Covers(l, i) && (i + 1 <= l.start || l.end <= i + 1) {
      assert IsPlainLiteral(text, l);
    }
  }

  lemma {:induction false} ForwardSkips(text: string, lits: set<Span>, k: Bracket, i: nat, j: nat, end: nat, depth: nat)
    requires i <= j && end <= |text| && Hidden(text, lits, i, j)
    ensures Forward(CodeOf(text, lits), k, i, end, depth) == Forward(CodeOf(text, lits), k, j, end, depth)
    decreases j - i
  {
    if i < j && i < end {
      assert Covered(lits, i);
      assert CodeOf(text, lits)[i] == 'x';
      ForwardSkips(text, lits, k, i + 1, j, end, depth);
    }
  }

  function Upto(i: nat, n: nat): nat {
    if i < n then i else n
  }

  lemma {:induction false} StackSkipsHidden(text: string, lits: set<Span>, i: nat, j: nat, target: nat)
    requires i <= j && target <= |text| && Hidden(text, lits, i, j)
    ensures StackAt(CodeOf(text, lits), Upto(j, target)) == StackAt(CodeOf(text, lits), Upto(i, target))
    decreases j - i
  {
    if i < j {
      StackSkipsHidden(text, lits, i, j - 1, target);
      if j <= target {
        assert Covered(lits, j - 1);
        assert CodeOf(text, lits)[j - 1] == 'x';
      }
    }
  }

  // ---- Strings ----

  /** Where the scanners take a string to end: they know neither line ends nor continuations. */
  function QuoteEnd(text: string, i: nat, quote: char): Option<nat>
    decreases |text| - i
  {
    if i >= |text| then None
    else if text[i] == '\\' then QuoteEnd(text, i + 2, quote)
    else if text[i] == quote then Some(i + 1)
    else QuoteEnd(text, i + 1, quote)
  }

  lemma {:induction false} QuoteEndIsStringEnd(text: string, i: nat, quote: char)
    requires StringEnd(text, i, quote).Some? && quote != '\\' && quote != '\n'
    ensures QuoteEnd(text, i, quote) == StringEnd(text, i, quote)
    decreases |text| - i
  {
    if text[i] == '\\' {
      var next := AfterEscape(text, i);
      QuoteEndIsStringEnd(text, next, quote);
      assert next == i + 3 ==> QuoteEnd(text, i + 2, quote) == QuoteEnd(text, i + 3, quote);
    } else if text[i] != quote {
      QuoteEndIsStringEnd(text, i + 1, quote);
    }
  }

  /** Inside the string literal `l`, which `quote` closes. */
  ghost predicate InString(text: string, l: Span, i: nat, quote: char) {
    l.start < i < l.end && quote != '`' && QuoteEnd(text, i, quote) == Some(l.end)
  }

  /** What a scanner that stands before `end` knows: code, or the literal whose quote it waits for. */
  ghost predicate Stands(text: string, lits: set<Span>, i: nat, end: nat, quote: Option<char>) {
    i < end ==>
      if quote.None? then Synced(lits, i) else exists l :: l in lits && InString(text, l, i, quote.value)
  }

  lemma QuoteStarts(text: string, lits: set<Span>, i: nat, next: nat, end: nat)
    requires PlainlyQuoted(text, lits) && Synced(lits, i) && i < end <= |text| && next == i + 1
    requires IsQuote(text[i]) && text[i] != '`'
    ensures Stands(text, lits, next, end, Some(text[i])) && Hidden(text, lits, i, next)
  {
    var l := LoudStarts(text, lits, i);
    QuoteEndIsStringEnd(text, next, text[i]);
    assert InString(text, l, next, text[i]);
    assert Covers(l, i);
  }

  lemma EndIsSynced(text: string, lits: set<Span>, l: Span)
    requires PlainlyQuoted(text, lits) && l in lits
    ensures Synced(lits, l.end)
  {
    forall m | m in lits ensures l.end <= m.start || m.end <= l.end {
      assert IsPlainLiteral(text, l) && IsPlainLiteral(text, m);
      assert l != m ==> Apart(l, m);
    }
  }

  lemma CoveredBetween(text: string, lits: set<Span>, l: Span, i: nat, j: nat)
    requires l in lits && l.start <= i && j <= l.end
    ensures Hidden(text, lits, i, j)
  {
    forall k | i <= k < j && k < |text| ensures Covered(lits, k) {
      assert Covers(l, k);
    }
  }

  /** A string goes on, or ends. */
  lemma StringGoesOn(text: string, lits: set<Span>, i: nat, end: nat, quote: char, next: nat, after: Option<char>)
    requires PlainlyQuoted(text, lits) && Stands(text, lits, i, end, Some(quote)) && i < end <= |text|
    requires if text[i] == '\\' && i + 1 < end then next == i + 2 && after == Some(quote)
             else next == i + 1 && after == if text[i] == quote then None else Some(quote)
    ensures Stands(text, lits, next, end, after) && Hidden(text, lits, i, next)
  {
    var l :| l in lits && InString(text, l, i, quote);
    assert IsPlainLiteral(text, l);
    QuoteEndIsBehind(text, i, quote);
    if text[i] == '\\' {
      QuoteEndIsBehind(text, i + 2, quote);
      CoveredBetween(text, lits, l, i, next);
    } else if text[i] == quote {
      EndIsSynced(text, lits, l);
      CoveredBetween(text, lits, l, i, next);
    } else {
      QuoteEndIsBehind(text, i + 1, quote);
      CoveredBetween(text, lits, l, i, next);
    }
    if next < end && after == Some(quote) {
      assert InString(text, l, next, quote);
    }
  }

  lemma {:induction false} QuoteEndIsBehind(text: string, i: nat, quote: char)
    requires QuoteEnd(text, i, quote).Some?
    ensures i < QuoteEnd(text, i, quote).value <= |text|
    decreases |text| - i
  {
    if text[i] == '\\' {
      QuoteEndIsBehind(text, i + 2, quote);
    } else if text[i] != quote {
      QuoteEndIsBehind(text, i + 1, quote);
    }
  }

  /** `_template_expression_chunks`, of a template without any. */
  method SkipTemplate(text: string, ghost l: Span, start: nat) returns (index: nat)
    requires IsPlainLiteral(text, l) && start == l.start && text[start] == '`'
    ensures index == l.end
  {
    index := start + 1;
    while text[index] != '`'
      invariant start < index && PieceEnd(text, index) == Some(l.end - 1) && index < |text|
      decreases |text| - index
    {
      index := if text[index] == '\\' && index + 1 < |text| then index + 2 else index + 1;
    }
    return index + 1;
  }

  /** Past a literal, or into a string; nothing in code. */
  method Skip(text: string, ghost lits: set<Span>, i: nat, end: nat, quote: Option<char>)
    returns (skipped: bool, next: nat, after: Option<char>)
    requires PlainlyQuoted(text, lits) && Stands(text, lits, i, end, quote) && i < end <= |text|
    ensures skipped ==> i < next && Stands(text, lits, next, end, after) && Hidden(text, lits, i, next)
    ensures !skipped ==> quote.None? && !IsQuote(text[i])
  {
    var c := text[i];
    if quote.Some? {
      next := if c == '\\' && i + 1 < end then i + 2 else i + 1;
      after := if !(c == '\\' && i + 1 < end) && c == quote.value then None else quote;
      StringGoesOn(text, lits, i, end, quote.value, next, after);
      return true, next, after;
    }
    if c == '`' {
      ghost var l := LoudStarts(text, lits, i);
      next := SkipTemplate(text, l, i);
      EndIsSynced(text, lits, l);
      CoveredBetween(text, lits, l, i, next);
      return true, next, None;
    }
    if c == '\'' || c == '"' {
      QuoteStarts(text, lits, i, i + 1, end);
      return true, i + 1, Some(c);
    }
    return false, i, None;
  }

  // ---- The scanners ----

  /** `_matching_js_delimiter_index`, from a bracket of the code. */
  method MatchingDelimiterIndex(text: string, ghost lits: set<Span>, opener: nat, end: nat) returns (r: Option<nat>)
    requires PlainlyQuoted(text, lits) && opener < |text| && end <= |text|
    requires OpenerKind(text[opener]).Some? && Synced(lits, opener)
    ensures r == Forward(CodeOf(text, lits), OpenerKind(text[opener]).value, opener + 1, end, 0)
    ensures forall close | IsPair(CodeOf(text, lits), opener, close) && close < end :: r == Some(close)
  {
    var k := OpenerKind(text[opener]).value;
    ghost var code := CodeOf(text, lits);
    CodeAt(text, lits, opener);
    forall close | IsPair(code, opener, close) && close < end
      ensures Forward(code, k, opener + 1, end, 0) == Some(close)
    {
      MatchersAgree(code, opener, close, end);
    }
    var i, depth := opener + 1, 0;
    var quote: Option<char> := None;
    while i < end
      invariant opener < i && depth >= 0 && Stands(text, lits, i, end, quote)
      invariant Forward(code, k, opener + 1, end, 0) == Forward(code, k, i, end, depth)
      decreases |text| - i
    {
      var skipped, next, after := Skip(text, lits, i, end, quote);
      if skipped {
        ForwardSkips(text, lits, k, i, next, end, depth);
        i, quote := next, after;
        continue;
      }
      CodeAt(text, lits, i);
      var c := text[i];
      if c == Opener(k) {
        depth := depth + 1;
      } else if c == Closer(k) {
        if depth == 0 {
          return Some(i);
        }
        depth := depth - 1;
      } else if OpenerKind(c).Some? {
        depth := depth + 1;
      } else if CloserKind(c).Some? && depth > 0 {
        depth := depth - 1;
      }
      i := i + 1;
    }
    return None;
  }

  /** `_js_delimiter_stack_at`. */
  method DelimiterStackAt(text: string, ghost lits: set<Span>, target: nat) returns (stack: seq<Open>)
    requires PlainlyQuoted(text, lits) && target <= |text|
    ensures stack == StackAt(CodeOf(text, lits), target)
  {
    stack := [];
    var i: nat := 0;
    var quote: Option<char> := None;
    while i < target
      invariant Stands(text, lits, i, target, quote) && stack == StackAt(CodeOf(text, lits), Upto(i, target))
      decreases |text| - i
    {
      var skipped, next, after := Skip(text, lits, i, target, quote);
      if skipped {
        StackSkipsHidden(text, lits, i, next, target);
        i, quote := next, after;
        continue;
      }
      CodeAt(text, lits, i);
      var c := text[i];
      if OpenerKind(c).Some? {
        stack := stack + [Open(OpenerKind(c).value, i)];
      } else if CloserKind(c).Some? && stack != [] && stack[|stack| - 1].kind == CloserKind(c).value {
        stack := stack[..|stack| - 1];
      }
      i := i + 1;
    }
  }

  lemma {:induction false} StackIndices(s: string, n: nat)
    requires n <= |s|
    ensures forall j | 0 <= j < |StackAt(s, n)| ::
              StackAt(s, n)[j].index < n && OpenerKind(s[StackAt(s, n)[j].index]) == Some(StackAt(s, n)[j].kind)
  {
    if n > 0 {
      StackIndices(s, n - 1);
    }
  }

  /** A bracket that the code shows stands outside every literal. */
  lemma ShownIsCode(text: string, lits: set<Span>, i: nat)
    requires i < |text| && CodeOf(text, lits)[i] != 'x'
    ensures CodeOf(text, lits)[i] == text[i] && Synced(lits, i)
  {
    forall l | l in lits ensures i <= l.start || l.end <= i {
      assert !Covers(l, i) by {
        assert !Covered(lits, i);
      }
    }
  }

  /** `_matching_js_opener_index`: the opener on top of the stack, confirmed by the forward scan. */
  method MatchingOpenerIndex(text: string, ghost lits: set<Span>, closer: nat) returns (r: Option<nat>)
    requires PlainlyQuoted(text, lits)
    ensures r.Some? ==>
              var code := CodeOf(text, lits);
              && closer < |code| && r.value < closer
              && OpenerKind(code[r.value]).Some? && CloserKind(code[closer]) == OpenerKind(code[r.value])
              && Forward(code, OpenerKind(code[r.value]).value, r.value + 1, closer + 1, 0) == Some(closer)
    ensures forall open | IsPair(CodeOf(text, lits), open, closer) :: r == Some(open)
  {
    ghost var code := CodeOf(text, lits);
    forall open | IsPair(code, open, closer)
      ensures CloserKind(code[closer]).Some? && code[closer] == text[closer]
      ensures StackAt(code, closer) == StackAt(code, open) + [Open(OpenerKind(code[open]).value, open)]
      ensures Forward(code, OpenerKind(code[open]).value, open + 1, closer + 1, 0) == Some(closer)
    {
      ShownIsCode(text, lits, closer);
      MatchersAgree(code, open, closer, closer + 1);
    }
    if closer >= |text| || CloserKind(text[closer]).None? {
      return None;
    }
    var stack := DelimiterStackAt(text, lits, closer);
    if stack == [] || stack[|stack| - 1].kind != CloserKind(text[closer]).value {
      return None;
    }
    StackIndices(code, closer);
    var open := stack[|stack| - 1].index;
    ShownIsCode(text, lits, open);
    var confirmed := MatchingDelimiterIndex(text, lits, open, closer + 1);
    if confirmed != Some(closer) {
      return None;
    }
    ForwardNamesCloser(code, OpenerKind(code[open]).value, open + 1, closer + 1, 0);
    return Some(open);
  }

  lemma {:induction false} ForwardNamesCloser(s: string, k: Bracket, i: nat, end: nat, depth: nat)
    requires end <= |s| && Forward(s, k, i, end, depth).Some?
    ensures i <= Forward(s, k, i, end, depth).value < end && s[Forward(s, k, i, end, depth).value] == Closer(k)
    decreases end - i
  {
    var c := s[i];
    if c == Opener(k) {
      ForwardNamesCloser(s, k, i + 1, end, depth + 1);
    } else if c == Closer(k) {
      if depth != 0 {
        ForwardNamesCloser(s, k, i + 1, end, depth - 1);
      }
    } else if OpenerKind(c).Some? {
      ForwardNamesCloser(s, k, i + 1, end, depth + 1);
    } else if CloserKind(c).Some? && depth > 0 {
      ForwardNamesCloser(s, k, i + 1, end, depth - 1);
    } else {
      ForwardNamesCloser(s, k, i + 1, end, depth);
    }
  }
}
