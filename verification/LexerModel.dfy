/**
 Lexical pieces of a JavaScript source text: where each kind of token that starts at a position
 ends, and what it means for tokens to tile a text.
 */
module LexerModel {
  import opened Wrappers
  import opened Text

  /** What the program asks Unicode about characters outside ASCII. */
  datatype Alphabet = Alphabet(word: char -> bool, digit: char -> bool, alnum: char -> bool)

  datatype Kind =
    | Comment | Str | StaticTemplate | Template | Regex | Number | Identifier | PrivateIdentifier
    | Punctuation | ExpressionEnd | JsxIntrinsic

  datatype Token = Token(kind: Kind, value: string, start: nat, end: nat)

  predicate IsAscii(c: char) {
    c < 128 as char
  }

  predicate IsLetter(c: char) {
    'a' <= c <= 'z' || 'A' <= c <= 'Z'
  }

  predicate IsTerminator(c: char) {
    c == '\n' || c == '\r' || c == '\U{2028}' || c == '\U{2029}'
  }

  predicate IsBlank(c: char) {
    IsSpace(c) || c == '\U{FEFF}'
  }

  predicate IsDigit(u: Alphabet, c: char) {
    if IsAscii(c) then '0' <= c <= '9' else u.digit(c)
  }

  predicate IsAlnum(u: Alphabet, c: char) {
    if IsAscii(c) then IsLetter(c) || '0' <= c <= '9' else u.alnum(c)
  }

  /** An identifier continuation. */
  predicate IsWord(u: Alphabet, c: char) {
    if IsAscii(c) then IsLetter(c) || '0' <= c <= '9' || c == '_' || c == '$'
    else c == '\U{200C}' || c == '\U{200D}' || u.word(c)
  }

  predicate IsHex(c: char) {
    '0' <= c <= '9' || 'a' <= c <= 'f' || 'A' <= c <= 'F'
  }

  function HexDigit(c: char): nat
    requires IsHex(c)
  {
    if c <= '9' then c as nat - '0' as nat
    else if c <= 'F' then c as nat - 'A' as nat + 10
    else c as nat - 'a' as nat + 10
  }

  function HexValue(s: string): nat
    requires forall c | c in s :: IsHex(c)
  {
    if s == [] then 0 else 16 * HexValue(s[..|s| - 1]) + HexDigit(s[|s| - 1])
  }

  /** A slice that stops at the end of the text. */
  function Slice(text: string, a: nat, b: nat): string {
    if a < b && a < |text| then text[a..if b < |text| then b else |text|] else []
  }

  predicate StartsAt(text: string, i: nat, s: string) {
    i + |s| <= |text| && text[i..i + |s|] == s
  }

  function Find(text: string, i: nat, s: string): (at: Option<nat>)
    ensures at.Some? ==> i <= at.value && StartsAt(text, at.value, s)
    decreases |text| - i
  {
    if StartsAt(text, i, s) then Some(i) else if i >= |text| then None else Find(text, i + 1, s)
  }

  predicate HasTerminator(s: string) {
    exists i :: 0 <= i < |s| && IsTerminator(s[i])
  }

  // ---- Where tokens end ----

  function LineEnd(text: string, i: nat): (end: nat)
    requires i <= |text|
    ensures i <= end <= |text|
    decreases |text| - i
  {
    if i < |text| && !IsTerminator(text[i]) then LineEnd(text, i + 1) else i
  }

  /** After the closing quote; an escaped CRLF is one line continuation. */
  function StringEnd(text: string, i: nat, quote: char): (end: Option<nat>)
    ensures end.Some? ==> i < end.value <= |text|
    decreases |text| - i
  {
    if i >= |text| then None
    else if text[i] == '\\' then StringEnd(text, AfterEscape(text, i), quote)
    else if text[i] == quote then Some(i + 1)
    else if text[i] == '\r' || text[i] == '\n' then None
    else StringEnd(text, i + 1, quote)
  }

  function AfterEscape(text: string, i: nat): (next: nat)
    ensures i + 2 <= next
  {
    if i + 2 < |text| && text[i + 1] == '\r' && text[i + 2] == '\n' then i + 3 else i + 2
  }

  /** After the closing slash, before the flags. */
  function RegexEnd(text: string, i: nat, inClass: bool): (end: Option<nat>)
    ensures end.Some? ==> i < end.value <= |text| && text[end.value - 1] == '/'
    decreases |text| - i
  {
    if i >= |text| then None
    else if text[i] == '\\' then RegexEnd(text, i + 2, inClass)
    else if IsTerminator(text[i]) then None
    else if text[i] == '/' && !inClass then Some(i + 1)
    else RegexEnd(text, i + 1, text[i] == '[' || (inClass && text[i] != ']'))
  }

  function WordEnd(u: Alphabet, text: string, i: nat): (end: nat)
    requires i <= |text|
    ensures i <= end <= |text|
    decreases |text| - i
  {
    if i < |text| && IsWord(u, text[i]) then WordEnd(u, text, i + 1) else i
  }

  predicate IsNumberPart(u: Alphabet, c: char) {
    IsAlnum(u, c) || c == '.' || c == '_'
  }

  function NumberEnd(u: Alphabet, text: string, i: nat): (end: nat)
    requires i <= |text|
    ensures i <= end <= |text|
    decreases |text| - i
  {
    if i < |text| && IsNumberPart(u, text[i]) then NumberEnd(u, text, i + 1) else i
  }

  /** Where the literal text of a template stops: its closing backquote or a substitution. */
  function PieceEnd(text: string, i: nat): (end: Option<nat>)
    ensures end.Some? ==> i <= end.value < |text| && (text[end.value] == '`' || StartsAt(text, end.value, "${"))
    decreases |text| - i
  {
    if i >= |text| then None
    else if text[i] == '\\' then PieceEnd(text, i + 2)
    else if text[i] == '`' || StartsAt(text, i, "${") then Some(i)
    else PieceEnd(text, i + 1)
  }

  predicate IsTagPart(c: char) {
    IsLetter(c) || '0' <= c <= '9' || c == '_' || c == '-'
  }

  function TagEnd(text: string, i: nat): (end: nat)
    requires i <= |text|
    ensures i <= end <= |text|
    decreases |text| - i
  {
    if i < |text| && IsTagPart(text[i]) then TagEnd(text, i + 1) else i
  }

  function SpaceEnd(text: string, i: nat): (end: nat)
    requires i <= |text|
    ensures i <= end <= |text|
    decreases |text| - i
  {
    if i < |text| && IsSpace(text[i]) then SpaceEnd(text, i + 1) else i
  }

  /** An attribute-free lowercase intrinsic: a tag name, spaces, and a self-closing end. */
  function IntrinsicEnd(text: string, i: nat): (end: Option<nat>)
    requires i < |text|
    ensures end.Some? ==> i + 3 < end.value <= |text| && text[end.value - 1] == '>'
  {
    if i + 1 < |text| && text[i] == '<' && 'a' <= text[i + 1] <= 'z' then
      var close := SpaceEnd(text, TagEnd(text, i + 2));
      if StartsAt(text, close, "/>") then Some(close + 2) else None
    else None
  }

  predicate IsNameHead(c: char) {
    IsLetter(c) || c == '_' || c == '$'
  }

  function NameEnd(text: string, i: nat): (end: nat)
    requires i <= |text|
    ensures i <= end <= |text|
    decreases |text| - i
  {
    if i < |text| && (IsNameHead(text[i]) || '0' <= text[i] <= '9') then NameEnd(text, i + 1) else i
  }

  /** Past a type parameter and the spaces around it. */
  function ParameterEnd(text: string, i: nat): (end: Option<nat>)
    requires i <= |text|
    ensures end.Some? ==> i < end.value <= |text|
  {
    var name := SpaceEnd(text, i);
    if name < |text| && IsNameHead(text[name]) then Some(SpaceEnd(text, NameEnd(text, name + 1))) else None
  }

  /** The rest of the type parameters of a generic arrow function, through its opening parenthesis. */
  function ArrowEnd(text: string, i: nat): (end: Option<nat>)
    requires i <= |text|
    ensures end.Some? ==> i < end.value <= |text|
    decreases |text| - i
  {
    var parameter := ParameterEnd(text, i);
    if parameter.None? || parameter.value == |text| then None
    else if text[parameter.value] == ',' then ArrowEnd(text, parameter.value + 1)
    else
      var open := SpaceEnd(text, parameter.value + 1);
      if text[parameter.value] == '>' && open < |text| && text[open] == '(' then Some(open + 1) else None
  }

  // ---- Identifiers ----

  function EscapeDigits(text: string, i: nat): Option<(string, nat)> {
    if !StartsAt(text, i, "\\u") then None
    else if i + 2 < |text| && text[i + 2] == '{' then
      var close := Find(text, i + 3, "}");
      if close.None? then None else Some((text[i + 3..close.value], close.value + 1))
    else Some((Slice(text, i + 2, i + 6), i + 6))
  }

  /** One escaped identifier character; it must denote an ASCII one. */
  function Decode(u: Alphabet, text: string, i: nat): (r: Option<(char, nat)>)
    ensures r.Some? ==> i + 4 <= r.value.1 && i < |text| && text[i] == '\\' && IsWord(u, r.value.0) && IsAscii(r.value.0)
  {
    var digits := EscapeDigits(text, i);
    if digits.None? || digits.value.0 == [] || !(forall c | c in digits.value.0 :: IsHex(c)) then None
    else
      var code := HexValue(digits.value.0);
      if code < 128 && IsWord(u, code as char) then Some((code as char, digits.value.1)) else None
  }

  /** text[a..b] spells the name, character by character or escaped. */
  ghost predicate Spells(u: Alphabet, text: string, a: nat, b: nat, name: string)
    decreases |name|
  {
    if name == [] then a == b
    else if a >= |text| then false
    else if text[a] == '\\' then
      var d := Decode(u, text, a);
      d.Some? && d.value.0 == name[0] && Spells(u, text, d.value.1, b, name[1..])
    else IsWord(u, text[a]) && text[a] == name[0] && Spells(u, text, a + 1, b, name[1..])
  }

  /** The identifier at a is exactly name, up to b. */
  ghost predicate IsIdentifierAt(u: Alphabet, text: string, a: nat, b: nat, name: string) {
    && Spells(u, text, a, b, name) && name != [] && !IsDigit(u, name[0])
    && (b < |text| ==> text[b] != '\\' && !IsWord(u, text[b]))
  }

  // ---- Token streams ----

  predicate IsDoubleMark(s: string) {
    s == "?." || s == "++" || s == "--" || s == "=>"
  }

  /** Characters that reach the last branch of the lexer. */
  predicate IsPunctuator(u: Alphabet, c: char) {
    IsAscii(c) && !IsBlank(c) && !IsWord(u, c) && c != '\\' && c != '\'' && c != '"' && c != '`' && c != '/' && c != '#'
  }

  predicate OpensLineComment(text: string, i: nat) {
    StartsAt(text, i, "//") || StartsAt(text, i, "<!--") || StartsAt(text, i, "-->") || StartsAt(text, i, "#!")
  }

  ghost predicate TokenOk(u: Alphabet, text: string, t: Token) {
    && t.start <= t.end && t.start <= |text|
    && (t.kind != Identifier && t.kind != PrivateIdentifier ==> t.value == Slice(text, t.start, t.end))
    && match t.kind
       case Comment =>
         && t.end <= |text|
         && ((OpensLineComment(text, t.start) && t.end == LineEnd(text, t.start))
             || (StartsAt(text, t.start, "/*") && Find(text, t.start + 2, "*/") == Some(t.end - 2)))
       case Str =>
         && t.start < |text| && (text[t.start] == '\'' || text[t.start] == '"')
         && StringEnd(text, t.start + 1, text[t.start]) == Some(t.end)
       case StaticTemplate =>
         && t.start + 1 < t.end <= |text| && text[t.start] == '`' && text[t.end - 1] == '`'
         && PieceEnd(text, t.start + 1) == Some(t.end - 1)
       case Template =>
         || (t.start < |text| && text[t.start] == '`' && PieceEnd(text, t.start + 1) == Some(t.end)
             && StartsAt(text, t.end, "${"))
         || (PieceEnd(text, t.start) == Some(t.end) && StartsAt(text, t.end, "${"))
         || (0 < t.end <= |text| && PieceEnd(text, t.start) == Some(t.end - 1) && text[t.end - 1] == '`')
       case Regex =>
         && t.start < |text| && text[t.start] == '/'
         && var body := RegexEnd(text, t.start + 1, false);
         && body.Some? && t.end == WordEnd(u, text, body.value)
       case Number =>
         && t.start < |text| && t.end == NumberEnd(u, text, t.start + 1)
         && (IsWord(u, text[t.start]) || (Decode(u, text, t.start).Some? && IsDigit(u, Decode(u, text, t.start).value.0)))
       case Identifier => IsIdentifierAt(u, text, t.start, t.end, t.value)
       case PrivateIdentifier =>
         && t.start < |text| && text[t.start] == '#' && 0 < |t.value| && t.value[0] == '#'
         && IsIdentifierAt(u, text, t.start + 1, t.end, t.value[1..])
       case Punctuation =>
         && t.end <= |text| && text[t.start..t.end] == t.value
         && (t.value == "/" || t.value == "${" || IsDoubleMark(t.value)
             || (|t.value| == 1 && IsPunctuator(u, t.value[0])))
       case ExpressionEnd => t.end == t.start + 1 <= |text| && text[t.start] == '}'
       case JsxIntrinsic => t.start < |text| && IntrinsicEnd(text, t.start) == Some(t.end)
  }

  /** Only whitespace and byte order marks, as far as the text goes. */
  ghost predicate BlankBetween(text: string, a: nat, b: nat) {
    a <= b && forall k | a <= k < b && k < |text| :: IsBlank(text[k])
  }

  /** The tokens fill the text up to `end`, in order, each well formed, with only blanks between. */
  ghost predicate Tiles(u: Alphabet, text: string, ts: seq<Token>, end: nat)
    decreases |ts|
  {
    if ts == [] then BlankBetween(text, 0, end)
    else
      var last := ts[|ts| - 1];
      && TokenOk(u, text, last) && BlankBetween(text, last.end, end)
      && Tiles(u, text, ts[..|ts| - 1], last.start)
  }

  /** `Tiles` as a value, so that only proofs that name `Tiles` look inside. */
  type Tiler = tiles: (Alphabet, string, seq<Token>, nat) -> bool
    | forall u, text, ts, end {:trigger Tiles(u, text, ts, end)} :: tiles(u, text, ts, end) == Tiles(u, text, ts, end)
    ghost witness (u: Alphabet, text: string, ts: seq<Token>, end: nat) => Tiles(u, text, ts, end)

  lemma TokenTiles(tiles: Tiler, u: Alphabet, text: string, ts: seq<Token>, t: Token)
    requires tiles(u, text, ts, t.start) && TokenOk(u, text, t)
    ensures tiles(u, text, ts + [t], t.end)
  {
    assert Tiles(u, text, ts, t.start);
    assert (ts + [t])[..|ts|] == ts;
    assert Tiles(u, text, ts + [t], t.end);
  }

  lemma TilesOverBlank(u: Alphabet, text: string, ts: seq<Token>, end: nat)
    requires Tiles(u, text, ts, end) && end < |text| && IsBlank(text[end])
    ensures Tiles(u, text, ts, end + 1)
  {
  }

  lemma BlankTiles(tiles: Tiler, u: Alphabet, text: string, ts: seq<Token>, end: nat)
    requires tiles(u, text, ts, end) && end < |text| && IsBlank(text[end])
    ensures tiles(u, text, ts, end + 1)
  {
    assert Tiles(u, text, ts, end);
    TilesOverBlank(u, text, ts, end);
  }
}
