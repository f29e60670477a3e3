/** What a tiling by well-formed tokens means, and the one way a token can run past the text. */
module LexerTheorems {
  import opened Wrappers
  import opened Text
  import opened LexerModel

  ghost predicate Spanned(t: Token, end: nat) {
    t.start <= t.end <= end
  }

  lemma {:induction false} TileIsWellFormed(u: Alphabet, text: string, ts: seq<Token>, end: nat, i: nat)
    requires Tiles(u, text, ts, end) && i < |ts|
    ensures TokenOk(u, text, ts[i])
    decreases |ts|
  {
    var n := |ts| - 1;
    if i < n {
      TileIsWellFormed(u, text, ts[..n], ts[n].start, i);
      assert ts[..n][i] == ts[i];
    }
  }

  lemma TilesAreWellFormed(u: Alphabet, text: string, ts: seq<Token>, end: nat)
    requires Tiles(u, text, ts, end)
    ensures forall i | 0 <= i < |ts| :: TokenOk(u, text, ts[i])
  {
    forall i | 0 <= i < |ts| ensures TokenOk(u, text, ts[i]) {
      TileIsWellFormed(u, text, ts, end, i);
    }
  }

  /** The layout of a tiling, whatever the tokens are. */
  ghost predicate Laid(text: string, ts: seq<Token>, end: nat)
    decreases |ts|
  {
    if ts == [] then BlankBetween(text, 0, end)
    else
      var last := ts[|ts| - 1];
      last.start <= last.end && BlankBetween(text, last.end, end) && Laid(text, ts[..|ts| - 1], last.start)
  }

  lemma {:induction false} TilesAreLaid(u: Alphabet, text: string, ts: seq<Token>, end: nat)
    requires Tiles(u, text, ts, end)
    ensures Laid(text, ts, end)
    decreases |ts|
  {
    if ts != [] {
      TilesAreLaid(u, text, ts[..|ts| - 1], ts[|ts| - 1].start);
    }
  }

  lemma {:induction false} LaidIsOrdered(text: string, ts: seq<Token>, end: nat)
    requires Laid(text, ts, end)
    ensures forall i | 0 <= i < |ts| :: Spanned(ts[i], end)
    ensures forall i, j | 0 <= i < j < |ts| :: ts[i].end <= ts[j].start
    decreases |ts|
  {
    if ts != [] {
      var n := |ts| - 1;
      LaidIsOrdered(text, ts[..n], ts[n].start);
      forall i | 0 <= i < |ts| ensures Spanned(ts[i], end) && (i < n ==> ts[i].end <= ts[n].start) {
        if i < n {
          assert ts[..n][i] == ts[i] && Spanned(ts[..n][i], ts[n].start);
        }
      }
      forall i, j | 0 <= i < j < |ts| ensures ts[i].end <= ts[j].start {
        if j < n {
          assert ts[..n][i] == ts[i] && ts[..n][j] == ts[j];
        }
      }
    }
  }

  lemma {:induction false} LaidHasBlankGaps(text: string, ts: seq<Token>, end: nat)
    requires Laid(text, ts, end)
    ensures forall i | 0 < i < |ts| :: BlankBetween(text, ts[i - 1].end, ts[i].start)
    ensures ts != [] ==> BlankBetween(text, 0, ts[0].start)
    decreases |ts|
  {
    if ts != [] {
      var n := |ts| - 1;
      LaidHasBlankGaps(text, ts[..n], ts[n].start);
      forall i | 0 < i < |ts| ensures BlankBetween(text, ts[i - 1].end, ts[i].start) {
        if i < n {
          assert ts[..n][i] == ts[i] && ts[..n][i - 1] == ts[i - 1];
        } else {
          assert ts[..n][n - 1] == ts[n - 1];
        }
      }
      assert 0 < n ==> ts[..n][0] == ts[0];
    }
  }

  /** In order, disjoint, and nothing but blanks before, between and after the tokens. */
  lemma TilesAreOrdered(u: Alphabet, text: string, ts: seq<Token>, end: nat)
    requires Tiles(u, text, ts, end)
    ensures forall i | 0 <= i < |ts| :: Spanned(ts[i], end)
    ensures forall i, j | 0 <= i < j < |ts| :: ts[i].end <= ts[j].start
    ensures forall i | 0 < i < |ts| :: BlankBetween(text, ts[i - 1].end, ts[i].start)
    ensures if ts == [] then BlankBetween(text, 0, end)
            else BlankBetween(text, 0, ts[0].start) && BlankBetween(text, ts[|ts| - 1].end, end)
  {
    TilesAreLaid(u, text, ts, end);
    LaidIsOrdered(text, ts, end);
    LaidHasBlankGaps(text, ts, end);
  }

  /** Every character that is not blank lies in a token. */
  lemma {:induction false} EveryCharacterIsOwned(u: Alphabet, text: string, ts: seq<Token>, end: nat, k: nat)
    requires Tiles(u, text, ts, end) && k < end && k < |text| && !IsBlank(text[k])
    ensures exists i :: 0 <= i < |ts| && ts[i].start <= k < ts[i].end
    decreases |ts|
  {
    if ts != [] {
      var n := |ts| - 1;
      if k < ts[n].start {
        EveryCharacterIsOwned(u, text, ts[..n], ts[n].start, k);
        var i :| 0 <= i < n && ts[..n][i].start <= k < ts[..n][i].end;
        assert ts[i] == ts[..n][i];
      } else {
        assert ts[n].start <= k < ts[n].end;
      }
    }
  }

  lemma Owner(u: Alphabet, text: string, ts: seq<Token>, end: nat, k: nat) returns (t: Token)
    requires Tiles(u, text, ts, end) && k < end && k < |text| && !IsBlank(text[k])
    ensures t in ts && TokenOk(u, text, t) && t.start <= k < t.end <= end
  {
    EveryCharacterIsOwned(u, text, ts, end, k);
    var i :| 0 <= i < |ts| && ts[i].start <= k < ts[i].end;
    t := ts[i];
    TilesAreWellFormed(u, text, ts, end);
    TilesAreLaid(u, text, ts, end);
    LaidIsOrdered(text, ts, end);
    assert Spanned(ts[i], end);
  }

  // ---- Identifiers ----

  /** The text of an escape holds a backslash first, then only `u`, braces and hexadecimal digits. */
  lemma EscapeInterior(u: Alphabet, text: string, i: nat, k: nat)
    requires Decode(u, text, i).Some? && i < k < Decode(u, text, i).value.1 && k < |text|
    ensures text[k] == 'u' || text[k] == '{' || text[k] == '}' || IsHex(text[k])
  {
    var digits := EscapeDigits(text, i).value;
    assert text[i..i + 2] == "\\u";
    assert text[i + 1] == text[i..i + 2][1];
    if i + 2 <= k {
      if i + 2 < |text| && text[i + 2] == '{' {
        var close := Find(text, i + 3, "}").value;
        assert text[close..close + 1] == "}";
        assert text[close] == text[close..close + 1][0];
        if i + 3 <= k < close {
          assert text[k] == digits.0[k - (i + 3)] && digits.0[k - (i + 3)] in digits.0;
        }
      } else {
        assert text[k] == digits.0[k - (i + 2)] && digits.0[k - (i + 2)] in digits.0;
      }
    }
  }

  predicate MayOccurInName(u: Alphabet, c: char) {
    IsWord(u, c) || c == '\\' || c == '{' || c == '}'
  }

  lemma {:induction false} SpellsOnlyNameCharacters(u: Alphabet, text: string, a: nat, b: nat, name: string, k: nat)
    requires Spells(u, text, a, b, name) && a <= k < b && k < |text|
    ensures MayOccurInName(u, text[k])
    decreases |name|
  {
    if text[a] == '\\' {
      var next := Decode(u, text, a).value.1;
      if next <= k {
        SpellsOnlyNameCharacters(u, text, next, b, name[1..], k);
      } else if a < k {
        EscapeInterior(u, text, a, k);
      }
    } else if a < k {
      SpellsOnlyNameCharacters(u, text, a + 1, b, name[1..], k);
    }
  }

  /** The text stops inside a four-digit escape. */
  ghost predicate ShortEscapeAt(text: string, p: nat) {
    && p + 3 <= |text| < p + 6 && text[p] == '\\' && text[p + 1] == 'u'
    && forall k | p + 2 <= k < |text| :: IsHex(text[k])
  }

  ghost predicate EndsShort(text: string) {
    exists p :: ShortEscapeAt(text, p)
  }

  lemma OverrunningEscapeIsShort(u: Alphabet, text: string, i: nat)
    requires Decode(u, text, i).Some? && |text| < Decode(u, text, i).value.1
    ensures ShortEscapeAt(text, i)
  {
    var digits := EscapeDigits(text, i).value.0;
    assert text[i..i + 2] == "\\u";
    assert text[i + 1] == text[i..i + 2][1];
    forall k | i + 2 <= k < |text| ensures IsHex(text[k]) {
      assert text[k] == digits[k - (i + 2)] && digits[k - (i + 2)] in digits;
    }
  }

  lemma {:induction false} SpellsOverrun(u: Alphabet, text: string, a: nat, b: nat, name: string)
    requires Spells(u, text, a, b, name) && a <= |text| < b
    ensures EndsShort(text)
    decreases |name|
  {
    if text[a] == '\\' {
      var next := Decode(u, text, a).value.1;
      if next <= |text| {
        SpellsOverrun(u, text, next, b, name[1..]);
      } else {
        OverrunningEscapeIsShort(u, text, a);
      }
    } else {
      SpellsOverrun(u, text, a + 1, b, name[1..]);
    }
  }

  lemma {:induction false} SpellsThroughShortEscape(u: Alphabet, text: string, a: nat, b: nat, name: string, p: nat)
    requires Spells(u, text, a, b, name) && a <= p < b && ShortEscapeAt(text, p)
    ensures |text| < b
    decreases |name|
  {
    if a == p {
      SpellsAdvances(u, text, Decode(u, text, a).value.1, b, name[1..]);
    } else if text[a] == '\\' {
      var next := Decode(u, text, a).value.1;
      if p < next {
        EscapeInterior(u, text, a, p);
      } else {
        SpellsThroughShortEscape(u, text, next, b, name[1..], p);
      }
    } else {
      SpellsThroughShortEscape(u, text, a + 1, b, name[1..], p);
    }
  }

  lemma {:induction false} SpellsAdvances(u: Alphabet, text: string, a: nat, b: nat, name: string)
    requires Spells(u, text, a, b, name)
    ensures a <= b && (name != [] ==> a < b)
    decreases |name|
  {
    if name != [] {
      SpellsAdvances(u, text, if text[a] == '\\' then Decode(u, text, a).value.1 else a + 1, b, name[1..]);
    }
  }

  // ---- Bounds ----

  predicate IsNameKind(kind: Kind) {
    kind == Identifier || kind == PrivateIdentifier
  }

  function NameStart(t: Token): nat {
    if t.kind == PrivateIdentifier then t.start + 1 else t.start
  }

  function Name(t: Token): string {
    if t.kind == PrivateIdentifier && t.value != [] then t.value[1..] else t.value
  }

  lemma NameToken(u: Alphabet, text: string, t: Token)
    requires TokenOk(u, text, t) && IsNameKind(t.kind)
    ensures Spells(u, text, NameStart(t), t.end, Name(t)) && NameStart(t) < t.end && NameStart(t) <= |text|
  {
    SpellsAdvances(u, text, NameStart(t), t.end, Name(t));
  }

  lemma OverrunIsAName(u: Alphabet, text: string, t: Token)
    requires TokenOk(u, text, t) && |text| < t.end
    ensures IsNameKind(t.kind) && EndsShort(text)
  {
    if IsNameKind(t.kind) {
      NameToken(u, text, t);
      SpellsOverrun(u, text, NameStart(t), t.end, Name(t));
    }
  }

  lemma {:induction false} StringEndsWithQuote(text: string, i: nat, quote: char)
    requires StringEnd(text, i, quote).Some?
    ensures text[StringEnd(text, i, quote).value - 1] == quote
    decreases |text| - i
  {
    if text[i] == '\\' {
      StringEndsWithQuote(text, AfterEscape(text, i), quote);
    } else if text[i] != quote {
      StringEndsWithQuote(text, i + 1, quote);
    }
  }

  lemma {:induction false} RunsAreMaximal(u: Alphabet, text: string, i: nat)
    requires i <= |text|
    ensures WordEnd(u, text, i) < |text| ==> !IsWord(u, text[WordEnd(u, text, i)])
    ensures NumberEnd(u, text, i) < |text| ==> !IsNumberPart(u, text[NumberEnd(u, text, i)])
    ensures LineEnd(text, i) < |text| ==> IsTerminator(text[LineEnd(text, i)])
    decreases |text| - i
  {
    if i < |text| {
      RunsAreMaximal(u, text, i + 1);
    }
  }

  predicate IsAsciiAlnum(c: char) {
    IsLetter(c) || '0' <= c <= '9'
  }

  /** Both sides of a token's end: never a letter, digit or backslash against a letter or digit. */
  predicate JoinsWord(text: string, at: nat)
    requires 0 < at < |text|
  {
    IsAsciiAlnum(text[at]) && (IsAsciiAlnum(text[at - 1]) || text[at - 1] == '\\')
  }

  lemma CommentSplitsNoWord(u: Alphabet, text: string, t: Token)
    requires TokenOk(u, text, t) && t.start < t.end < |text| && t.kind == Comment
    ensures !JoinsWord(text, t.end)
  {
    RunsAreMaximal(u, text, t.start);
    if StartsAt(text, t.start, "/*") && Find(text, t.start + 2, "*/") == Some(t.end - 2) {
      assert text[t.end - 2..t.end][1] == '/';
    }
  }

  lemma TemplateSplitsNoWord(u: Alphabet, text: string, t: Token)
    requires TokenOk(u, text, t) && t.start < t.end < |text| && t.kind == Template
    ensures !JoinsWord(text, t.end)
  {
    if StartsAt(text, t.end, "${") {
      assert text[t.end..t.end + 2][0] == '$';
    }
  }

  lemma PunctuationSplitsNoWord(u: Alphabet, text: string, t: Token)
    requires TokenOk(u, text, t) && t.start < t.end < |text| && t.kind == Punctuation
    ensures !JoinsWord(text, t.end)
  {
    assert text[t.end - 1] == t.value[|t.value| - 1];
  }

  lemma NoTokenSplitsAWord(u: Alphabet, text: string, t: Token)
    requires TokenOk(u, text, t) && t.start < t.end < |text|
    ensures !JoinsWord(text, t.end)
  {
    match t.kind
    case Comment => CommentSplitsNoWord(u, text, t);
    case Str => StringEndsWithQuote(text, t.start + 1, text[t.start]);
    case Template => TemplateSplitsNoWord(u, text, t);
    case Regex => RunsAreMaximal(u, text, RegexEnd(text, t.start + 1, false).value);
    case Number => RunsAreMaximal(u, text, t.start + 1);
    case Punctuation => PunctuationSplitsNoWord(u, text, t);
    case _ =>
  }

  /**
   Tokens stay in bounds, except that a text which ends in a name whose last escape is cut short
   has one token, the last, that ends beyond it.
   */
  lemma TokensOverrunIff(u: Alphabet, text: string, ts: seq<Token>, end: nat)
    requires Tiles(u, text, ts, end) && |text| <= end
    ensures (exists t :: t in ts && |text| < t.end) <==>
            ts != [] && IsNameKind(ts[|ts| - 1].kind) && EndsShort(text)
    ensures forall i | 0 <= i < |ts| - 1 :: ts[i].end <= |text|
  {
    TilesAreWellFormed(u, text, ts, end);
    TilesAreOrdered(u, text, ts, end);
    forall i | 0 <= i < |ts| - 1 ensures ts[i].end <= |text| {
      assert TokenOk(u, text, ts[i + 1]);
    }
    if t :| t in ts && |text| < t.end {
      OverrunIsAName(u, text, t);
    }
    if ts != [] && IsNameKind(ts[|ts| - 1].kind) && EndsShort(text) {
      var p :| ShortEscapeAt(text, p);
      ShortEscapeOverruns(u, text, ts, end, p);
      assert ts[|ts| - 1] in ts;
    }
  }

  lemma LastTokenReachesTheEnd(u: Alphabet, text: string, ts: seq<Token>, end: nat)
    requires Tiles(u, text, ts, end) && |text| <= end && text != [] && !IsBlank(text[|text| - 1])
    ensures ts != [] && |text| <= ts[|ts| - 1].end
  {
  }

  lemma NameStartsInside(u: Alphabet, text: string, t: Token, p: nat)
    requires TokenOk(u, text, t) && IsNameKind(t.kind) && ShortEscapeAt(text, p)
    requires p < NameStart(t) && t.end == |text|
    ensures p < t.start < |text| && JoinsWord(text, t.start)
  {
    NameToken(u, text, t);
  }

  lemma ShortEscapeOverruns(u: Alphabet, text: string, ts: seq<Token>, end: nat, p: nat)
    requires Tiles(u, text, ts, end) && |text| <= end && ts != [] && IsNameKind(ts[|ts| - 1].kind)
    requires ShortEscapeAt(text, p)
    ensures |text| < ts[|ts| - 1].end
  {
    var n := |ts| - 1;
    var last := ts[n];
    assert IsHex(text[|text| - 1]);
    LastTokenReachesTheEnd(u, text, ts, end);
    NameToken(u, text, last);
    if NameStart(last) <= p {
      SpellsThroughShortEscape(u, text, NameStart(last), last.end, Name(last), p);
    } else if last.end == |text| {
      NameStartsInside(u, text, last, p);
      NamesStartWords(u, text, ts, end);
    }
  }

  /** A token that follows another one directly does not continue its word. */
  lemma NamesStartWords(u: Alphabet, text: string, ts: seq<Token>, end: nat)
    requires Tiles(u, text, ts, end) && ts != [] && 0 < ts[|ts| - 1].start < |text|
    ensures !JoinsWord(text, ts[|ts| - 1].start)
  {
    var n := |ts| - 1;
    var at := ts[n].start;
    if JoinsWord(text, at) {
      var t := Owner(u, text, ts[..n], at, at - 1);
      assert t.end == at;
      NoTokenSplitsAWord(u, text, t);
    }
  }

  /** A text that does not end in a short escape has all its tokens in bounds. */
  lemma TokensInBounds(u: Alphabet, text: string, ts: seq<Token>, end: nat)
    requires Tiles(u, text, ts, end) && |text| <= end && !EndsShort(text)
    ensures forall i | 0 <= i < |ts| :: ts[i].end <= |text|
  {
    TokensOverrunIff(u, text, ts, end);
    forall i | 0 <= i < |ts| ensures ts[i].end <= |text| {
      assert ts[i] in ts;
    }
  }

  lemma {:induction false} NoPieceInHex(text: string, i: nat)
    requires forall k | i <= k < |text| :: IsHex(text[k])
    ensures PieceEnd(text, i).None?
    decreases |text| - i
  {
    if i < |text| {
      assert i + 2 <= |text| ==> text[i..i + 2][0] == text[i];
      assert !StartsAt(text, i, "${");
      NoPieceInHex(text, i + 1);
    }
  }

  lemma PunctuationIsNoEscape(u: Alphabet, text: string, t: Token)
    requires TokenOk(u, text, t) && t.kind == Punctuation
    ensures t.start < |text| && text[t.start] != '\\'
  {
    assert text[t.start] == t.value[0];
  }

  /** A short escape that denotes no digit starts an identifier in every tiling. */
  lemma ShortEscapeStartsName(u: Alphabet, text: string, t: Token)
    requires TokenOk(u, text, t) && t.start == 0 < t.end && ShortEscapeAt(text, 0)
    requires Decode(u, text, 0).Some? ==> !IsDigit(u, Decode(u, text, 0).value.0)
    ensures t.kind == Identifier
  {
    NoPieceInHex(text, 2);
    assert PieceEnd(text, 0).None?;
    if t.kind == Punctuation {
      PunctuationIsNoEscape(u, text, t);
    }
  }

  /** Every tiling of a text that is one short escape overruns it: the escape alone decides. */
  lemma ShortEscapeTextOverruns(u: Alphabet, text: string, ts: seq<Token>, end: nat)
    requires Tiles(u, text, ts, end) && |text| <= end && ShortEscapeAt(text, 0)
    requires Decode(u, text, 0).Some? ==> !IsDigit(u, Decode(u, text, 0).value.0)
    ensures exists t :: t in ts && |text| < t.end
  {
    var t := Owner(u, text, ts, end, 0);
    ShortEscapeStartsName(u, text, t);
    NameToken(u, text, t);
    SpellsThroughShortEscape(u, text, 0, t.end, t.value, 0);
  }

  /** The overrun is real: four characters, one identifier `A` that ends at index six. */
  lemma ShortEscapeExample(u: Alphabet)
    ensures Tiles(u, "\\u41", [Token(Identifier, "A", 0, 6)], 6) && |"\\u41"| == 4
  {
    var text, t := "\\u41", Token(Identifier, "A", 0, 6);
    assert text[0..2] == "\\u" && Slice(text, 2, 6) == "41";
    assert HexValue("4") == 4 && "41"[..1] == "4" && HexValue("41") == 65;
    assert 65 as char == 'A' && "A"[1..] == [];
    assert Decode(u, text, 0) == Some(('A', 6));
    assert Spells(u, text, 6, 6, []);
    assert [t][..0] == [];
  }
}
