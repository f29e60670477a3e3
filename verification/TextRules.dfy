/** The characters, escapes and tags of the lexer, in code points and regular shapes. */
module TextRules {
  import opened Wrappers
  import opened Text
  import opened LexerModel

  // ---- Characters ----

  predicate IsCapital(n: int) {
    65 <= n <= 90
  }

  predicate IsSmall(n: int) {
    97 <= n <= 122
  }

  predicate IsFigure(n: int) {
    48 <= n <= 57
  }

  lemma CharacterRules(u: Alphabet, c: char)
    ensures var n := c as int;
            && (IsAscii(c) <==> n <= 127)
            && (IsLetter(c) <==> IsCapital(n) || IsSmall(n))
            && (IsHex(c) <==> IsFigure(n) || 65 <= n <= 70 || 97 <= n <= 102)
            && (IsTerminator(c) <==> n == 10 || n == 13 || n == 8232 || n == 8233)
            && (n <= 127 ==>
                  && (IsDigit(u, c) <==> IsFigure(n))
                  && (IsAlnum(u, c) <==> IsFigure(n) || IsCapital(n) || IsSmall(n))
                  && (IsWord(u, c) <==> IsFigure(n) || IsCapital(n) || IsSmall(n) || n == 95 || n == 36)
                  && (IsNumberPart(u, c) <==> IsFigure(n) || IsCapital(n) || IsSmall(n) || n == 95 || n == 46))
            && (n > 127 ==>
                  && IsDigit(u, c) == u.digit(c) && IsAlnum(u, c) == u.alnum(c) && IsNumberPart(u, c) == u.alnum(c)
                  && (IsWord(u, c) <==> u.word(c) || n == 8204 || n == 8205))
  {
  }

  /** White space is what Unicode gives the bidirectional type B, S or WS, or the category Zs. */
  lemma BlankRules(c: char)
    ensures var n := c as int;
            && (IsSpace(c) <==> (9 <= n <= 13) || (28 <= n <= 32) || n == 133 || n == 160 || n == 5760
                                || (8192 <= n <= 8202) || n == 8232 || n == 8233 || n == 8239 || n == 8287 || n == 12288)
            && (IsBlank(c) <==> IsSpace(c) || n == 65279)
  {
  }

  predicate AllSpaces(s: string) {
    forall i | 0 <= i < |s| :: IsSpace(s[i])
  }

  lemma MoreSpaces(a: string, b: string)
    requires AllSpaces(a) && AllSpaces(b)
    ensures AllSpaces(a + b)
  {
  }

  lemma {:induction false} LeftRules(s: string)
    ensures AllSpaces(s[..|s| - |StripLeft(s)|])
    decreases |s|
  {
    if s != [] && IsSpace(s[0]) {
      var rest := s[1..];
      LeftRules(rest);
      var more := rest[..|rest| - |StripLeft(rest)|];
      MoreSpaces([s[0]], more);
      assert s[..|s| - |StripLeft(s)|] == [s[0]] + more;
    }
  }

  lemma {:induction false} RightRules(s: string, n: nat)
    requires n == |StripRight(s)|
    ensures AllSpaces(s[n..])
    decreases |s|
  {
    if s != [] && IsSpace(s[|s| - 1]) {
      var init := s[..|s| - 1];
      RightRules(init, n);
      MoreSpaces(init[n..], [s[|s| - 1]]);
      assert s[n..] == init[n..] + [s[|s| - 1]];
    }
  }

  lemma StrippedMiddle(s: string, left: string, middle: string, a: nat, b: nat)
    requires a <= |s| && left == s[a..] && |middle| <= |left| && middle == left[..|middle|] && b == a + |middle|
    ensures b <= |s| && middle == s[a..b] && left[|middle|..] == s[b..]
    ensures a < b ==> middle[0] == s[a] && middle[|middle| - 1] == s[b - 1]
  {
  }

  /** Stripping cuts white space off both ends until none is left there. */
  lemma StripRules(s: string) returns (a: nat, b: nat)
    ensures a <= b <= |s| && Strip(s) == s[a..b] && AllSpaces(s[..a]) && AllSpaces(s[b..])
    ensures a < b ==> !IsSpace(s[a]) && !IsSpace(s[b - 1])
  {
    var left, middle := StripLeft(s), Strip(s);
    a := |s| - |left|;
    b := a + |middle|;
    LeftRules(s);
    RightRules(left, |middle|);
    StrippedMiddle(s, left, middle, a, b);
  }

  // ---- Looking for text ----

  predicate StandsAt(text: string, k: nat, s: string) {
    k + |s| <= |text| && text[k..k + |s|] == s
  }

  /** The first place from `i` on where the text stands. */
  predicate IsFirst(text: string, i: nat, s: string, at: nat) {
    i <= at && StandsAt(text, at, s) && forall k {:trigger StandsAt(text, k, s)} | i <= k < at :: !StandsAt(text, k, s)
  }

  lemma {:induction false} FindRules(text: string, i: nat, s: string, at: nat)
    ensures Find(text, i, s) == Some(at) <==> IsFirst(text, i, s, at)
    decreases |text| - i
  {
    assert StartsAt(text, i, s) <==> StandsAt(text, i, s);
    if i < |text| && !StandsAt(text, i, s) {
      FindRules(text, i + 1, s, at);
    }
  }

  // ---- Escapes ----

  function Digit(c: char): int {
    var n := c as int;
    if n <= 57 then n - 48 else if n <= 70 then n - 55 else n - 87
  }

  /** The value of hexadecimal digits, one digit after the other. */
  lemma HexRules(s: string, c: char)
    requires IsHex(c) && forall x | x in s :: IsHex(x)
    ensures HexValue(s + [c]) == 16 * HexValue(s) + Digit(c) && HexValue([]) == 0
  {
    assert (s + [c])[..|s|] == s;
  }

  /** `\u{digits}`, or `\u` and four digits; fewer when the text ends there. */
  predicate IsEscape(text: string, i: nat, digits: string, end: nat) {
    && i + 2 <= |text| && text[i] == '\\' && text[i + 1] == 'u'
    && if i + 2 < |text| && text[i + 2] == '{' then
         end == i + 4 + |digits| <= |text| && text[i + 3..end - 1] == digits && text[end - 1] == '}' && '}' !in digits
       else
         end == i + 6 && digits == if i + 6 <= |text| then text[i + 2..i + 6] else text[i + 2..]
  }

  lemma ShortEscapeRules(text: string, i: nat)
    requires i + 2 <= |text|
    ensures Slice(text, i + 2, i + 6) == if i + 6 <= |text| then text[i + 2..i + 6] else text[i + 2..]
  {
  }

  /** The first brace is where the digits end that hold none. */
  lemma BraceFound(text: string, from: nat, close: nat)
    requires from <= close < |text| && text[close] == '}' && '}' !in text[from..close]
    ensures Find(text, from, "}") == Some(close)
  {
    FindRules(text, from, "}", close);
    assert text[close..close + 1] == "}";
    forall k | from <= k < close ensures !StandsAt(text, k, "}") {
      assert text[k] == text[from..close][k - from];
      assert text[k..k + 1] == [text[k]];
    }
  }

  lemma FoundIsBrace(text: string, from: nat, close: nat)
    requires Find(text, from, "}") == Some(close)
    ensures from <= close < |text| && text[close] == '}' && '}' !in text[from..close]
  {
    FindRules(text, from, "}", close);
    assert text[close..close + 1] == [text[close]];
    forall k | from <= k < close ensures text[k] != '}' {
      assert text[k..k + 1] == [text[k]] && !StandsAt(text, k, "}");
    }
  }

  lemma LeadRules(text: string, i: nat)
    ensures StartsAt(text, i, "\\u") <==> i + 2 <= |text| && text[i] == '\\' && text[i + 1] == 'u'
  {
    if i + 2 <= |text| {
      assert text[i..i + 2] == [text[i], text[i + 1]];
    }
  }

  /** Which characters an escape gives, and where it ends. */
  lemma EscapeRules(u: Alphabet, text: string, i: nat, digits: string, end: nat)
    requires IsEscape(text, i, digits, end)
    ensures Decode(u, text, i) ==
            if digits != "" && (forall x | x in digits :: IsHex(x)) && HexValue(digits) < 128 && IsWord(u, HexValue(digits) as char)
            then Some((HexValue(digits) as char, end)) else None
  {
    LeadRules(text, i);
    if i + 2 < |text| && text[i + 2] == '{' {
      BraceFound(text, i + 3, end - 1);
    } else {
      ShortEscapeRules(text, i);
    }
  }

  /** Nothing else is decoded. */
  lemma DecodedIsEscape(u: Alphabet, text: string, i: nat) returns (digits: string)
    requires Decode(u, text, i).Some?
    ensures IsEscape(text, i, digits, Decode(u, text, i).value.1)
  {
    LeadRules(text, i);
    digits := EscapeDigits(text, i).value.0;
    if i + 2 < |text| && text[i + 2] == '{' {
      FoundIsBrace(text, i + 3, Decode(u, text, i).value.1 - 1);
    } else {
      ShortEscapeRules(text, i);
    }
  }

  // ---- Tags ----

  predicate Spaces(text: string, a: nat, b: nat) {
    a <= b <= |text| && forall k | a <= k < b :: IsSpace(text[k])
  }

  predicate IsTagCharacter(c: char) {
    var n := c as int; IsFigure(n) || IsCapital(n) || IsSmall(n) || n == 95 || n == 45
  }

  predicate TagCharacters(text: string, a: nat, b: nat) {
    a <= b <= |text| && forall k | a <= k < b :: IsTagCharacter(text[k])
  }

  predicate IsNameCharacter(c: char) {
    var n := c as int; IsFigure(n) || IsCapital(n) || IsSmall(n) || n == 95 || n == 36
  }

  predicate NameCharacters(text: string, a: nat, b: nat) {
    a <= b <= |text| && forall k | a <= k < b :: IsNameCharacter(text[k])
  }

  lemma {:induction false} SpaceRules(text: string, i: nat, b: nat)
    requires i <= |text|
    ensures SpaceEnd(text, i) == b <==> Spaces(text, i, b) && (b < |text| ==> !IsSpace(text[b]))
    decreases |text| - i
  {
    if i < |text| && IsSpace(text[i]) {
      SpaceRules(text, i + 1, b);
    }
  }

  lemma {:induction false} TagNameRules(text: string, i: nat, b: nat)
    requires i <= |text|
    ensures TagEnd(text, i) == b <==> TagCharacters(text, i, b) && (b < |text| ==> !IsTagCharacter(text[b]))
    decreases |text| - i
  {
    if i < |text| && IsTagPart(text[i]) {
      TagNameRules(text, i + 1, b);
    }
  }

  lemma {:induction false} NameRules(text: string, i: nat, b: nat)
    requires i <= |text|
    ensures NameEnd(text, i) == b <==> NameCharacters(text, i, b) && (b < |text| ==> !IsNameCharacter(text[b]))
    decreases |text| - i
  {
    if i < |text| && (IsNameHead(text[i]) || '0' <= text[i] <= '9') {
      NameRules(text, i + 1, b);
    }
  }

  /** A lowercase tag without attributes that closes itself: `<`, the name, spaces, `/>`. */
  predicate IsSelfClosing(text: string, i: nat, name: nat, slash: nat) {
    && i + 1 < |text| && text[i] == '<' && IsSmall(text[i + 1] as int)
    && TagCharacters(text, i + 2, name) && Spaces(text, name, slash)
    && slash + 2 <= |text| && text[slash] == '/' && text[slash + 1] == '>'
  }

  lemma SelfClosingRules(text: string, i: nat, name: nat, slash: nat)
    requires i < |text|
    ensures IsSelfClosing(text, i, name, slash) ==> IntrinsicEnd(text, i) == Some(slash + 2)
    ensures IntrinsicEnd(text, i).Some? ==>
              IsSelfClosing(text, i, TagEnd(text, i + 2), IntrinsicEnd(text, i).value - 2)
  {
    if IsSelfClosing(text, i, name, slash) {
      TagNameRules(text, i + 2, name);
      SpaceRules(text, name, slash);
      assert text[slash..slash + 2] == [text[slash], text[slash + 1]];
    }
    if IntrinsicEnd(text, i).Some? {
      var tag := TagEnd(text, i + 2);
      var close := SpaceEnd(text, tag);
      TagNameRules(text, i + 2, tag);
      SpaceRules(text, tag, close);
      assert text[close..close + 2] == [text[close], text[close + 1]];
    }
  }

  /** A type parameter from `i` on: spaces, a name from `a` to `b`, spaces up to `c`. */
  predicate IsParameter(text: string, i: nat, a: nat, b: nat, c: nat) {
    && Spaces(text, i, a) && a < b && NameCharacters(text, a, b) && !IsFigure(text[a] as int) && Spaces(text, b, c)
    && c < |text| && (text[c] == ',' || text[c] == '>')
  }

  /** Behind `>`: spaces and an opening parenthesis before `end`. */
  predicate OpensBehind(text: string, c: nat, end: nat) {
    0 < end <= |text| && Spaces(text, c + 1, end - 1) && text[end - 1] == '('
  }

  /** Parameters with commas between, a closing angle bracket, spaces, and an opening parenthesis before `end`. */
  ghost predicate IsParameterList(text: string, i: nat, end: nat)
    decreases |text| - i
  {
    exists a: nat, b: nat, c: nat {:trigger IsParameter(text, i, a, b, c)} | IsParameter(text, i, a, b, c) && i <= c ::
      if text[c] == ',' then IsParameterList(text, c + 1, end) else OpensBehind(text, c, end)
  }

  lemma ParameterRules(text: string, i: nat, a: nat, b: nat, c: nat)
    requires i <= |text|
    ensures IsParameter(text, i, a, b, c) ==> ParameterEnd(text, i) == Some(c)
  {
    if IsParameter(text, i, a, b, c) {
      SpaceRules(text, i, a);
      NameRules(text, a + 1, b);
      SpaceRules(text, b, c);
    }
  }

  lemma ParameterFound(text: string, i: nat, c: nat) returns (a: nat, b: nat)
    requires i <= |text| && ParameterEnd(text, i) == Some(c) && c < |text| && (text[c] == ',' || text[c] == '>')
    ensures IsParameter(text, i, a, b, c)
  {
    a := SpaceEnd(text, i);
    b := NameEnd(text, a + 1);
    SpaceRules(text, i, a);
    NameRules(text, a + 1, b);
    SpaceRules(text, b, c);
  }

  lemma OpensRules(text: string, c: nat, end: nat)
    requires c < |text|
    ensures OpensBehind(text, c, end) <==>
            SpaceEnd(text, c + 1) < |text| && text[SpaceEnd(text, c + 1)] == '(' && end == SpaceEnd(text, c + 1) + 1
  {
    var open := SpaceEnd(text, c + 1);
    SpaceRules(text, c + 1, open);
    if OpensBehind(text, c, end) {
      SpaceRules(text, c + 1, end - 1);
    }
  }

  lemma ArrowStep(text: string, i: nat, c: nat, end: nat)
    requires i <= |text| && ParameterEnd(text, i) == Some(c) && c < |text|
    ensures text[c] == ',' ==> ArrowEnd(text, i) == ArrowEnd(text, c + 1)
    ensures text[c] == '>' ==> (ArrowEnd(text, i) == Some(end) <==> OpensBehind(text, c, end))
  {
    OpensRules(text, c, end);
  }

  lemma ArrowNeedsParameter(text: string, i: nat)
    requires i <= |text| && ArrowEnd(text, i).Some?
    ensures ParameterEnd(text, i).Some? && ParameterEnd(text, i).value < |text|
    ensures text[ParameterEnd(text, i).value] == ',' || text[ParameterEnd(text, i).value] == '>'
  {
  }

  /** The list goes on at `c`, or ends there. */
  ghost predicate GoesOn(text: string, c: nat, end: nat)
    requires c < |text|
  {
    if text[c] == ',' then IsParameterList(text, c + 1, end) else OpensBehind(text, c, end)
  }

  lemma ListFrom(text: string, i: nat, a: nat, b: nat, c: nat, end: nat)
    requires IsParameter(text, i, a, b, c) && GoesOn(text, c, end)
    ensures IsParameterList(text, i, end)
  {
  }

  lemma ListParts(text: string, i: nat, end: nat) returns (a: nat, b: nat, c: nat)
    requires IsParameterList(text, i, end)
    ensures IsParameter(text, i, a, b, c) && i <= c && GoesOn(text, c, end)
  {
    a, b, c :| IsParameter(text, i, a, b, c) && i <= c && GoesOn(text, c, end);
  }

  lemma {:induction false} ListIsArrow(text: string, i: nat, end: nat)
    requires i <= |text| && IsParameterList(text, i, end)
    ensures ArrowEnd(text, i) == Some(end)
    decreases |text| - i, 1
  {
    var a, b, c := ListParts(text, i, end);
    ParameterRules(text, i, a, b, c);
    ArrowStep(text, i, c, end);
    if text[c] == ',' {
      RestIsArrow(text, c, end);
    }
  }

  lemma {:induction false} RestIsArrow(text: string, c: nat, end: nat)
    requires c < |text| && text[c] == ',' && GoesOn(text, c, end)
    ensures ArrowEnd(text, c + 1) == Some(end)
    decreases |text| - c, 0
  {
    ListIsArrow(text, c + 1, end);
  }

  lemma {:induction false} ArrowIsList(text: string, i: nat, end: nat)
    requires i <= |text| && ArrowEnd(text, i) == Some(end)
    ensures IsParameterList(text, i, end)
    decreases |text| - i, 1
  {
    ArrowNeedsParameter(text, i);
    var c := ParameterEnd(text, i).value;
    var a, b := ParameterFound(text, i, c);
    ArrowStep(text, i, c, end);
    if text[c] == ',' {
      RestIsList(text, c, end);
    }
    ListFrom(text, i, a, b, c, end);
  }

  lemma {:induction false} RestIsList(text: string, c: nat, end: nat)
    requires c < |text| && text[c] == ',' && ArrowEnd(text, c + 1) == Some(end)
    ensures GoesOn(text, c, end)
    decreases |text| - c, 0
  {
    ArrowIsList(text, c + 1, end);
  }

  /** A generic arrow function is recognized exactly by its parameter list. */
  lemma ArrowRules(text: string, i: nat, end: nat)
    requires i <= |text|
    ensures ArrowEnd(text, i) == Some(end) <==> IsParameterList(text, i, end)
  {
    if IsParameterList(text, i, end) {
      ListIsArrow(text, i, end);
    } else if ArrowEnd(text, i) == Some(end) {
      ArrowIsList(text, i, end);
    }
  }
}
