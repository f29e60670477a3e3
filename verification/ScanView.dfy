/**
 The two texts derived from the tokens: the text without comments, and the scan view in which
 later recognizers find no slash and no quote of the code, only those of plain literals.
 */
module ScanView {
  import opened Wrappers
  import opened Text
  import opened LexerModel
  import opened LexerTheorems
  import opened ViewLiterals

  // ---- Comments ----

  predicate InComment(ts: seq<Token>, k: nat) {
    exists i :: 0 <= i < |ts| && ts[i].kind == Comment && ts[i].start <= k < ts[i].end
  }

  function Erased(c: char): char {
    if IsTerminator(c) then c else ' '
  }

  /** Blanks comments, not their line terminators or offsets. */
  method StripComments(u: Alphabet, text: string, ts: seq<Token>) returns (output: string)
    requires forall t | t in ts :: TokenOk(u, text, t)
    ensures |output| == |text|
    ensures forall k | 0 <= k < |text| :: output[k] == if InComment(ts, k) then Erased(text[k]) else text[k]
  {
    var chars := new char[|text|](i requires 0 <= i < |text| => text[i]);
    for i := 0 to |ts|
      invariant forall k | 0 <= k < |text| ::
                  chars[k] == if InComment(ts[..i], k) then Erased(text[k]) else text[k]
    {
      if ts[i].kind == Comment {
        assert TokenOk(u, text, ts[i]);
        BlankRange(text, chars, ts[i].start, ts[i].end);
      }
      forall k | 0 <= k < |text|
        ensures InComment(ts[..i + 1], k) <==>
                InComment(ts[..i], k) || (ts[i].kind == Comment && ts[i].start <= k < ts[i].end)
      {
        OneMoreComment(ts, i, k);
      }
    }
    assert ts[..|ts|] == ts;
    return chars[..];
  }

  lemma OneMoreComment(ts: seq<Token>, i: nat, k: nat)
    requires i < |ts|
    ensures InComment(ts[..i + 1], k) <==>
            InComment(ts[..i], k) || (ts[i].kind == Comment && ts[i].start <= k < ts[i].end)
  {
    assert ts[..i + 1] == ts[..i] + [ts[i]];
    if j :| 0 <= j < i && ts[..i][j].kind == Comment && ts[..i][j].start <= k < ts[..i][j].end {
      assert ts[..i + 1][j] == ts[..i][j];
    }
    assert ts[..i + 1][i] == ts[i];
  }

  method BlankRange(text: string, chars: array<char>, start: nat, end: nat)
    requires chars.Length == |text| && start <= end <= |text|
    modifies chars
    ensures forall k | 0 <= k < |text| ::
              chars[k] == if start <= k < end && !IsTerminator(text[k]) then ' ' else old(chars[k])
  {
    for index := start to end
      invariant forall k | 0 <= k < |text| ::
                  chars[k] == if start <= k < index && !IsTerminator(text[k]) then ' ' else old(chars[k])
    {
      if !IsTerminator(text[index]) {
        chars[index] := ' ';
      }
    }
  }

  // ---- Canonical names ----

  function Decimal(n: nat): (s: string)
    ensures s != [] && forall c | c in s :: '0' <= c <= '9'
  {
    if n < 10 then [(n + 48) as char] else Decimal(n / 10) + [(n % 10 + 48) as char]
  }

  lemma {:induction false} DecimalIsInjective(a: nat, b: nat)
    requires Decimal(a) == Decimal(b)
    ensures a == b
  {
    var s := Decimal(a);
    assert s[|s| - 1] == (a % 10 + 48) as char == (b % 10 + 48) as char;
    if 10 <= a && 10 <= b {
      assert Decimal(a / 10) == s[..|s| - 1] == Decimal(b / 10);
      DecimalIsInjective(a / 10, b / 10);
    }
  }

  function LocalName(counter: nat): string {
    "__agentic_source_identifier_" + Decimal(counter) + "__"
  }

  lemma LocalNameIsInjective(a: nat, b: nat)
    requires LocalName(a) == LocalName(b)
    ensures a == b
  {
    var prefix := "__agentic_source_identifier_";
    var n := |LocalName(a)|;
    assert LocalName(a)[|prefix|..n - 2] == Decimal(a);
    assert LocalName(b)[|prefix|..n - 2] == Decimal(b);
    DecimalIsInjective(a, b);
  }

  predicate IsAsciiText(s: string) {
    forall c | c in s :: IsAscii(c)
  }

  predicate IsQuiet(s: string) {
    forall i | 0 <= i < |s| :: !IsLoud(s[i])
  }

  function Renamed(names: map<string, string>, value: string): string {
    if value in names then names[value] else value
  }

  /** Fresh local names for the identifiers outside ASCII: renaming never merges two identifiers. */
  ghost predicate Canonical(names: map<string, string>, identifiers: set<string>) {
    && (forall v | v in identifiers :: v in names <==> !IsAsciiText(v))
    && (forall v | v in names :: names[v] !in identifiers && exists k: nat :: names[v] == LocalName(k))
    && (forall v, w | v in names && w in names && names[v] == names[w] :: v == w)
  }

  lemma RenamingIsInjective(names: map<string, string>, identifiers: set<string>, a: string, b: string)
    requires Canonical(names, identifiers) && a in identifiers && b in identifiers
    requires Renamed(names, a) == Renamed(names, b)
    ensures a == b
  {
  }

  /** The counter j cannot name an identifier from the i-th on. */
  ghost predicate Spent(names: map<string, string>, identifiers: set<string>, order: seq<string>, i: nat, j: nat)
    requires i <= |order|
  {
    LocalName(j) in identifiers || exists h :: 0 <= h < i && order[h] in names && names[order[h]] == LocalName(j)
  }

  /** In their order the first identifiers take the lowest free counters. */
  ghost predicate LowestUpTo(names: map<string, string>, identifiers: set<string>, order: seq<string>, n: nat)
    requires n <= |order|
  {
    forall i, k: nat, j: nat | 0 <= i < n && order[i] in names && names[order[i]] == LocalName(k) && j < k ::
      Spent(names, identifiers, order, i, j)
  }

  ghost predicate SpentBelow(names: map<string, string>, identifiers: set<string>, order: seq<string>, i: nat, counter: nat)
    requires i <= |order|
  {
    forall j: nat | j < counter :: Spent(names, identifiers, order, i, j)
  }

  lemma OneMoreName(before: map<string, string>, names: map<string, string>, identifiers: set<string>,
                    order: seq<string>, i: nat, from: nat, counter: nat)
    requires i < |order| && forall h | 0 <= h < i :: order[h] != order[i]
    requires order[i] !in before && SpentBelow(before, identifiers, order, i, from)
    requires LowestUpTo(before, identifiers, order, i)
    requires || (names == before && counter == from)
             || (from < counter && names == before[order[i] := LocalName(counter - 1)]
                 && forall j | from <= j < counter - 1 :: LocalName(j) in identifiers)
    ensures SpentBelow(names, identifiers, order, i + 1, counter) && LowestUpTo(names, identifiers, order, i + 1)
  {
    forall h: nat, j: nat | h <= i && Spent(before, identifiers, order, h, j) ensures Spent(names, identifiers, order, h, j) {
      if LocalName(j) !in identifiers {
        var g :| 0 <= g < h && order[g] in before && before[order[g]] == LocalName(j);
        assert names[order[g]] == LocalName(j);
      }
    }
    var next := i + 1;
    forall j: nat | j < counter ensures Spent(names, identifiers, order, next, j) {
      if j < from {
        assert Spent(names, identifiers, order, i, j);
      } else if j == counter - 1 {
        assert order[i] in names && names[order[i]] == LocalName(j);
      }
    }
    forall h, k: nat, j: nat | 0 <= h < i + 1 && order[h] in names && names[order[h]] == LocalName(k) && j < k
      ensures Spent(names, identifiers, order, h, j)
    {
      if h < i {
        assert names[order[h]] == before[order[h]];
      } else {
        LocalNameIsInjective(k, counter - 1);
        assert j < from ==> Spent(names, identifiers, order, i, j);
      }
    }
  }

  /** `order` lists the identifiers; the search for a free counter ends because they are finite. */
  method CanonicalNames(identifiers: set<string>, order: seq<string>) returns (names: map<string, string>)
    requires forall v :: v in order <==> v in identifiers
    requires forall i, j | 0 <= i < j < |order| :: order[i] != order[j]
    ensures Canonical(names, identifiers) && LowestUpTo(names, identifiers, order, |order|)
  {
    names := map[];
    var counter := 0;
    for i := 0 to |order|
      invariant forall v | v in order[..i] :: v in names <==> !IsAsciiText(v)
      invariant forall v | v in names :: v in order[..i] && names[v] !in identifiers
      invariant forall v | v in names :: exists k: nat :: k < counter && names[v] == LocalName(k)
      invariant forall v, w | v in names && w in names && names[v] == names[w] :: v == w
      invariant SpentBelow(names, identifiers, order, i, counter)
      invariant LowestUpTo(names, identifiers, order, i)
    {
      var v := order[i];
      assert order[..i + 1] == order[..i] + [v];
      ghost var earlier, from := names, counter;
      if !IsAsciiText(v) {
        counter := FreeCounter(identifiers, counter);
        forall w | w in names ensures names[w] != LocalName(counter - 1) {
          var k: nat :| k < counter - 1 && names[w] == LocalName(k);
          if LocalName(k) == LocalName(counter - 1) {
            LocalNameIsInjective(k, counter - 1);
          }
        }
        names := names[v := LocalName(counter - 1)];
      }
      OneMoreName(earlier, names, identifiers, order, i, from, counter);
    }
    assert order[..|order|] == order;
  }

  method FreeCounter(identifiers: set<string>, from: nat) returns (counter: nat)
    ensures from < counter && LocalName(counter - 1) !in identifiers
    ensures forall k | from <= k < counter - 1 :: LocalName(k) in identifiers
  {
    counter := from;
    ghost var seen: set<string> := {};
    while true
      invariant from <= counter && seen <= identifiers
      invariant forall k: nat | k >= counter :: LocalName(k) !in seen
      invariant forall k | from <= k < counter :: LocalName(k) in identifiers
      decreases |identifiers - seen|
    {
      var name := LocalName(counter);
      counter := counter + 1;
      if name !in identifiers { return; }
      ghost var before := seen;
      seen := seen + {name};
      forall k: nat | k >= counter ensures LocalName(k) !in seen {
        if LocalName(k) == name {
          LocalNameIsInjective(k, counter - 1);
        }
      }
      assert identifiers - seen < identifiers - before by {
        assert name in identifiers - before && name !in identifiers - seen;
      }
      SmallerSet(identifiers - seen, identifiers - before);
    }
  }

  lemma SmallerSet(a: set<string>, b: set<string>)
    requires a < b
    ensures |a| < |b|
  {
    var rest := b - a;
    assert b == a + rest;
    assert rest != {};
  }

  // ---- The scan view ----

  /** The recognized type aliases: each span runs from the start of a token to the end of a later one. */
  ghost predicate AreSpans(ts: seq<Token>, spans: seq<(nat, nat)>) {
    forall s | s in spans :: IsSpan(ts, s)
  }

  ghost predicate IsSpan(ts: seq<Token>, s: (nat, nat)) {
    exists i, j :: 0 <= i <= j < |ts| && s == (ts[i].start, ts[j].end)
  }

  predicate InSpan(spans: seq<(nat, nat)>, k: nat) {
    exists s :: s in spans && s.0 <= k < s.1
  }

  function Kept(ts: seq<Token>, spans: seq<(nat, nat)>): seq<Token> {
    if ts == [] then []
    else
      var n := |ts| - 1;
      Kept(ts[..n], spans) + if InSpan(spans, ts[n].start) then [] else [ts[n]]
  }

  /** What a token makes of the character at k, itself c by now. */
  function Mark(text: string, t: Token, k: nat, c: char): char
    requires k < |text|
  {
    match t.kind
    case Comment => if IsTerminator(text[k]) then c else ' '
    case Template => if IsTerminator(text[k]) then c else ' '
    case Regex => if k == t.start then '0' else if IsTerminator(text[k]) then c else ' '
    case JsxIntrinsic => if k == t.start then '0' else if IsTerminator(text[k]) then c else ' '
    case Punctuation =>
      if t.value == "/" && k == t.start then '*'
      else if t.value == "${" then if k == t.start then '(' else ' '
      else c
    case ExpressionEnd => ')'
    case _ => c
  }

  function Marked(text: string, ts: seq<Token>, k: nat, c: char): char
    requires k < |text|
  {
    if ts == [] then c
    else
      var n := |ts| - 1;
      var before := Marked(text, ts[..n], k, c);
      if ts[n].start <= k < ts[n].end then Mark(text, ts[n], k, before) else before
  }

  /** The character at k once the aliases are erased. */
  function Unaliased(text: string, spans: seq<(nat, nat)>, k: nat): char
    requires k < |text|
  {
    if InSpan(spans, k) then Erased(text[k]) else text[k]
  }

  function Base(text: string, spans: seq<(nat, nat)>, kept: seq<Token>): (b: string)
    ensures |b| == |text|
  {
    seq(|text|, k requires 0 <= k < |text| => Marked(text, kept, k, Unaliased(text, spans, k)))
  }

  function Piece(base: string, names: map<string, string>, t: Token): string {
    if t.kind == Identifier then Renamed(names, t.value) else Slice(base, t.start, t.end)
  }

  /** The view from a position on: gaps as they are, tokens by their pieces. */
  function View(base: string, names: map<string, string>, ts: seq<Token>, from: nat): string {
    if ts == [] then Slice(base, from, |base|)
    else Slice(base, from, ts[0].start) + Piece(base, names, ts[0]) + View(base, names, ts[1..], ts[0].end)
  }

  /** The token whose piece holds the j-th character of the view; none inside a gap. */
  function Origin(base: string, names: map<string, string>, ts: seq<Token>, from: nat, j: nat): Option<nat> {
    if ts == [] then None
    else
      var gap, piece := |Slice(base, from, ts[0].start)|, |Piece(base, names, ts[0])|;
      if j < gap then None
      else if j < gap + piece then Some(0)
      else
        var rest := Origin(base, names, ts[1..], ts[0].end, j - gap - piece);
        if rest.Some? then Some(rest.value + 1) else None
  }

  // ---- Which tokens hold a slash or a quote ----

  predicate MayHoldLoud(kind: Kind) {
    kind == Comment || kind == Str || kind == StaticTemplate || kind == Template || kind == Regex || kind == JsxIntrinsic
  }

  lemma {:induction false} NumbersHoldNumberParts(u: Alphabet, text: string, i: nat, k: nat)
    requires i <= |text| && i <= k < NumberEnd(u, text, i)
    ensures IsNumberPart(u, text[k])
    decreases |text| - i
  {
    if i < k {
      NumbersHoldNumberParts(u, text, i + 1, k);
    }
  }

  lemma NameHoldsNothingLoud(u: Alphabet, text: string, t: Token, k: nat)
    requires TokenOk(u, text, t) && t.start <= k < t.end && k < |text| && IsNameKind(t.kind)
    ensures !IsLoud(text[k])
  {
    if NameStart(t) <= k {
      NameToken(u, text, t);
      SpellsOnlyNameCharacters(u, text, NameStart(t), t.end, Name(t), k);
    }
  }

  /** Outside literal text and the division sign itself no token holds a slash or a quote. */
  lemma LoudOwner(u: Alphabet, text: string, t: Token, k: nat)
    requires TokenOk(u, text, t) && t.start <= k < t.end && k < |text| && IsLoud(text[k])
    ensures MayHoldLoud(t.kind) || (t.kind == Punctuation && t.value == "/")
  {
    match t.kind
    case Number =>
      if t.start < k {
        NumbersHoldNumberParts(u, text, t.start + 1, k);
      }
    case Identifier => NameHoldsNothingLoud(u, text, t, k);
    case PrivateIdentifier => NameHoldsNothingLoud(u, text, t, k);
    case Punctuation => assert text[k] == t.value[k - t.start];
    case _ =>
  }

  lemma {:induction false} NameIsQuiet(u: Alphabet, text: string, a: nat, b: nat, name: string)
    requires Spells(u, text, a, b, name)
    ensures IsQuiet(name)
    decreases |name|
  {
    if name != [] {
      NameIsQuiet(u, text, if text[a] == '\\' then Decode(u, text, a).value.1 else a + 1, b, name[1..]);
      forall i | 0 <= i < |name| ensures !IsLoud(name[i]) {
        assert i > 0 ==> name[i] == name[1..][i - 1];
      }
    }
  }

  lemma LocalNameIsQuiet(k: nat)
    ensures IsQuiet(LocalName(k))
  {
    assert IsQuiet("__agentic_source_identifier_") && IsQuiet("__");
    forall i | 0 <= i < |Decimal(k)| ensures !IsLoud(Decimal(k)[i]) {
      assert Decimal(k)[i] in Decimal(k);
    }
  }

  // ---- The view is what the program computes ----

  method MarkToken(u: Alphabet, text: string, chars: array<char>, t: Token)
    requires chars.Length == |text| && TokenOk(u, text, t)
    modifies chars
    ensures forall k | 0 <= k < |text| ::
              chars[k] == if t.start <= k < t.end then Mark(text, t, k, old(chars[k])) else old(chars[k])
  {
    match t.kind
    case Comment => BlankRange(text, chars, t.start, t.end);
    case Template => BlankRange(text, chars, t.start, t.end);
    case Regex =>
      BlankRange(text, chars, t.start, t.end);
      chars[t.start] := '0';
    case JsxIntrinsic =>
      BlankRange(text, chars, t.start, t.end);
      chars[t.start] := '0';
    case Punctuation =>
      if t.value == "/" {
        chars[t.start] := '*';
      } else if t.value == "${" {
        chars[t.start], chars[t.start + 1] := '(', ' ';
      }
    case ExpressionEnd => chars[t.start] := ')';
    case _ =>
  }

  lemma OneMoreSpan(spans: seq<(nat, nat)>, s: (nat, nat), k: nat)
    ensures InSpan(spans + [s], k) <==> InSpan(spans, k) || s.0 <= k < s.1
  {
    if s.0 <= k < s.1 {
      assert s in spans + [s];
    }
    if x :| x in spans && x.0 <= k < x.1 {
      assert x in spans + [s];
    }
  }

  method EraseSpans(text: string, chars: array<char>, spans: seq<(nat, nat)>) returns (ok: bool)
    requires chars.Length == |text| && forall s | s in spans :: s.0 <= s.1
    modifies chars
    ensures ok <==> forall s | s in spans :: s.1 <= |text|
    ensures ok ==> forall k | 0 <= k < |text| ::
              chars[k] == (if InSpan(spans, k) && !IsTerminator(text[k]) then ' ' else old(chars[k]))
  {
    for i := 0 to |spans|
      invariant forall s | s in spans[..i] :: s.1 <= |text|
      invariant forall k | 0 <= k < |text| ::
                  chars[k] == (if InSpan(spans[..i], k) && !IsTerminator(text[k]) then ' ' else old(chars[k]))
    {
      if spans[i].1 > |text| { return false; }
      BlankRange(text, chars, spans[i].0, spans[i].1);
      assert spans[..i + 1] == spans[..i] + [spans[i]];
      forall k | 0 <= k < |text|
        ensures InSpan(spans[..i + 1], k) <==> InSpan(spans[..i], k) || spans[i].0 <= k < spans[i].1
      {
        OneMoreSpan(spans[..i], spans[i], k);
      }
    }
    assert spans[..|spans|] == spans;
    return true;
  }

  ghost predicate Ordered(ts: seq<Token>) {
    && (forall i | 0 <= i < |ts| :: ts[i].start <= ts[i].end)
    && (forall i, j | 0 <= i < j < |ts| :: ts[i].end <= ts[j].start)
  }

  lemma SplitRange(s: string, a: nat, b: nat)
    requires a <= b
    ensures Slice(s, 0, b) == Slice(s, 0, a) + Slice(s, a, b)
  {
  }

  lemma SplitAll(s: string, a: nat)
    ensures s == Slice(s, 0, a) + Slice(s, a, |s|)
  {
  }

  /** One replacement, with all that follows already rendered. */
  lemma SpliceOne(base: string, start: nat, end: nat, middle: string, tail: string)
    requires start <= end && start <= |base| && (|base| < end ==> tail == [])
    ensures var view := Slice(base, 0, end) + tail;
            start <= |view| && view[..start] + middle + Slice(view, end, |view|) == Slice(base, 0, start) + middle + tail
  {
    var view := Slice(base, 0, end) + tail;
    assert Slice(view, end, |view|) == tail;
    assert view[..start] == Slice(base, 0, start);
  }

  lemma EarlierEnds(base: string, ts: seq<Token>, i: nat, j: nat)
    requires Ordered(ts) && (forall t | t in ts :: t.start <= |base|) && i < j < |ts|
    ensures ts[i].end <= |base|
  {
    assert ts[j] in ts;
  }

  lemma NothingAfter(base: string, names: map<string, string>, ts: seq<Token>, i: nat)
    requires Ordered(ts) && (forall t | t in ts :: t.start <= |base|) && i < |ts| && |base| < ts[i].end
    ensures View(base, names, ts[i + 1..], ts[i].end) == []
  {
    if i + 1 < |ts| {
      EarlierEnds(base, ts, i, i + 1);
    }
  }

  lemma ViewFrom(base: string, names: map<string, string>, ts: seq<Token>, i: nat, e: nat)
    requires i < |ts| && e <= ts[i].start
    ensures Slice(base, 0, e) + View(base, names, ts[i..], e) ==
            Slice(base, 0, ts[i].start) + Piece(base, names, ts[i]) + View(base, names, ts[i + 1..], ts[i].end)
  {
    assert ts[i..][1..] == ts[i + 1..];
    SplitRange(base, e, ts[i].start);
  }

  function Spliced(view: string, names: map<string, string>, t: Token): string
    requires t.kind == Identifier ==> t.start <= |view|
  {
    if t.kind == Identifier then view[..t.start] + Renamed(names, t.value) + Slice(view, t.end, |view|) else view
  }

  function EndBefore(ts: seq<Token>, i: nat): nat
    requires i <= |ts|
  {
    if i == 0 then 0 else ts[i - 1].end
  }

  /** Up to the tokens from i on, which are rendered, the view still is the base. */
  ghost predicate RendersFrom(view: string, base: string, names: map<string, string>, ts: seq<Token>, i: nat)
    requires i <= |ts|
  {
    view == Slice(base, 0, EndBefore(ts, i)) + View(base, names, ts[i..], EndBefore(ts, i))
  }

  lemma RendersStep(view: string, base: string, names: map<string, string>, ts: seq<Token>, i: nat)
    requires Ordered(ts) && (forall t | t in ts :: t.start <= |base|) && i < |ts|
    requires RendersFrom(view, base, names, ts, i + 1)
    ensures ts[i].start <= |view| && RendersFrom(Spliced(view, names, ts[i]), base, names, ts, i)
  {
    var t, tail := ts[i], View(base, names, ts[i + 1..], ts[i].end);
    assert t in ts;
    if |base| < t.end {
      NothingAfter(base, names, ts, i);
    }
    SpliceOne(base, t.start, t.end, Renamed(names, t.value), tail);
    SplitRange(base, t.start, t.end);
    ViewFrom(base, names, ts, i, EndBefore(ts, i));
  }

  lemma RendersEnds(base: string, names: map<string, string>, ts: seq<Token>)
    ensures RendersFrom(base, base, names, ts, |ts|)
    ensures forall view :: RendersFrom(view, base, names, ts, 0) ==> view == View(base, names, ts, 0)
  {
    SplitAll(base, EndBefore(ts, |ts|));
    assert ts[0..] == ts;
  }

  /** Splices names over identifiers from the last to the first, so that offsets stay valid. */
  method SpliceNames(base: string, names: map<string, string>, ts: seq<Token>) returns (view: string)
    requires Ordered(ts) && forall t | t in ts :: t.start <= |base|
    ensures view == View(base, names, ts, 0)
  {
    view := base;
    RendersEnds(base, names, ts);
    var i := |ts|;
    while i > 0
      invariant 0 <= i <= |ts| && RendersFrom(view, base, names, ts, i)
    {
      i := i - 1;
      RendersStep(view, base, names, ts, i);
      view := Spliced(view, names, ts[i]);
    }
  }

  // ---- Kept tokens ----

  lemma {:induction false} KeptMembers(ts: seq<Token>, spans: seq<(nat, nat)>)
    ensures forall t :: t in Kept(ts, spans) <==> t in ts && !InSpan(spans, t.start)
    decreases |ts|
  {
    if ts != [] {
      var n := |ts| - 1;
      KeptMembers(ts[..n], spans);
      assert ts == ts[..n] + [ts[n]];
    }
  }

  lemma EndsBefore(ts: seq<Token>, t: Token)
    requires Ordered(ts) && ts != [] && t in ts[..|ts| - 1]
    ensures t.end <= ts[|ts| - 1].start
  {
    var j :| 0 <= j < |ts| - 1 && ts[..|ts| - 1][j] == t;
    assert ts[j] == t;
  }

  lemma {:induction false} KeptIsOrdered(ts: seq<Token>, spans: seq<(nat, nat)>)
    requires Ordered(ts)
    ensures Ordered(Kept(ts, spans))
    decreases |ts|
  {
    if ts != [] {
      var n := |ts| - 1;
      var kept := Kept(ts[..n], spans);
      KeptIsOrdered(ts[..n], spans);
      KeptMembers(ts[..n], spans);
      forall i | 0 <= i < |kept| ensures kept[i].end <= ts[n].start {
        EndsBefore(ts, kept[i]);
      }
    }
  }

  lemma KeptFacts(ts: seq<Token>, spans: seq<(nat, nat)>)
    requires Ordered(ts)
    ensures Ordered(Kept(ts, spans))
    ensures forall t :: t in Kept(ts, spans) <==> t in ts && !InSpan(spans, t.start)
  {
    KeptIsOrdered(ts, spans);
    KeptMembers(ts, spans);
  }

  lemma {:induction false} MarkedOutside(text: string, ts: seq<Token>, k: nat, c: char)
    requires k < |text| && forall t | t in ts :: !Owns(t, k)
    ensures Marked(text, ts, k, c) == c
    decreases |ts|
  {
    if ts != [] {
      var n := |ts| - 1;
      assert ts[n] in ts && forall t | t in ts[..n] :: t in ts;
      MarkedOutside(text, ts[..n], k, c);
    }
  }

  lemma {:induction false} MarkedInside(text: string, ts: seq<Token>, i: nat, k: nat, c: char)
    requires Ordered(ts) && i < |ts| && ts[i].start <= k < ts[i].end && k < |text|
    ensures Marked(text, ts, k, c) == Mark(text, ts[i], k, c)
    decreases |ts|
  {
    var n := |ts| - 1;
    assert Ordered(ts[..n]);
    if i == n {
      forall t | t in ts[..n] ensures !Owns(t, k) {
        var j :| 0 <= j < n && ts[..n][j] == t;
        assert ts[j].end <= ts[n].start;
      }
      MarkedOutside(text, ts[..n], k, c);
    } else {
      assert ts[i].end <= ts[n].start;
      MarkedInside(text, ts[..n], i, k, c);
    }
  }

  // ---- No slash or quote of the code ----

  lemma ErasedTokenIsCovered(ts: seq<Token>, spans: seq<(nat, nat)>, t: Token, k: nat)
    requires Ordered(ts) && AreSpans(ts, spans) && t in ts && InSpan(spans, t.start) && t.start <= k < t.end
    ensures InSpan(spans, k)
  {
    var s :| s in spans && s.0 <= t.start < s.1;
    assert IsSpan(ts, s);
    var i: nat, j: nat :| i <= j < |ts| && s == (ts[i].start, ts[j].end);
    var x: nat :| x < |ts| && ts[x] == t;
    if j < x {
      StartsAfter(ts, j, x);
    } else if x < j {
      StartsAfter(ts, x, j);
    }
  }

  lemma StartsAfter(ts: seq<Token>, i: nat, j: nat)
    requires Ordered(ts) && i < j < |ts|
    ensures ts[i].end <= ts[j].start && ts[j].start <= ts[j].end
  {
  }

  lemma MarkHidesLoud(u: Alphabet, text: string, t: Token, k: nat, c: char)
    requires TokenOk(u, text, t) && t.start <= k < t.end && k < |text| && (c == text[k] || !IsLoud(c))
    requires IsLoud(Mark(text, t, k, c))
    ensures IsInert(t.kind)
  {
    if IsLoud(c) {
      LoudOwner(u, text, t, k);
    }
  }

  /** A slash or quote outside all kept tokens would lie in an erased one, hence in a span. */
  lemma UnkeptIsErased(u: Alphabet, text: string, ts: seq<Token>, end: nat, spans: seq<(nat, nat)>, k: nat)
    requires Tiles(u, text, ts, end) && |text| <= end && AreSpans(ts, spans) && Ordered(ts) && k < |text|
    requires IsLoud(text[k]) && forall t | t in Kept(ts, spans) :: !Owns(t, k)
    ensures InSpan(spans, k)
  {
    var t := Owner(u, text, ts, end, k);
    KeptFacts(ts, spans);
    ErasedTokenIsCovered(ts, spans, t, k);
  }

  lemma OwnedLoudIsInert(u: Alphabet, text: string, ts: seq<Token>, end: nat, kept: seq<Token>, i: nat, k: nat, c: char)
    requires Tiles(u, text, ts, end) && Ordered(kept) && i < |kept| && kept[i] in ts
    requires kept[i].start <= k < kept[i].end && k < |text| && (c == text[k] || !IsLoud(c))
    requires IsLoud(Marked(text, kept, k, c))
    ensures IsInert(kept[i].kind)
  {
    MarkedInside(text, kept, i, k, c);
    WellFormedMember(u, text, ts, end, kept[i]);
    MarkHidesLoud(u, text, kept[i], k, c);
  }

  predicate Owns(t: Token, k: nat) {
    t.start <= k < t.end
  }

  lemma UnaliasedIsQuiet(text: string, spans: seq<(nat, nat)>, k: nat)
    requires k < |text|
    ensures Unaliased(text, spans, k) == text[k] || !IsLoud(Unaliased(text, spans, k))
    ensures InSpan(spans, k) ==> !IsLoud(Unaliased(text, spans, k))
  {
  }

  lemma UnownedIsQuiet(u: Alphabet, text: string, ts: seq<Token>, end: nat, spans: seq<(nat, nat)>, k: nat)
    requires Tiles(u, text, ts, end) && |text| <= end && AreSpans(ts, spans) && Ordered(ts) && k < |text|
    requires forall t | t in Kept(ts, spans) :: !Owns(t, k)
    ensures !IsLoud(Base(text, spans, Kept(ts, spans))[k])
  {
    MarkedOutside(text, Kept(ts, spans), k, Unaliased(text, spans, k));
    UnaliasedIsQuiet(text, spans, k);
    if IsLoud(text[k]) {
      UnkeptIsErased(u, text, ts, end, spans, k);
    }
  }

  /** Before names are spliced in, a slash or quote is left only inside a string or a static template. */
  lemma BaseLoud(u: Alphabet, text: string, ts: seq<Token>, end: nat, spans: seq<(nat, nat)>, k: nat)
    requires Tiles(u, text, ts, end) && |text| <= end && AreSpans(ts, spans) && Ordered(ts) && k < |text|
    requires IsLoud(Base(text, spans, Kept(ts, spans))[k])
    ensures exists t :: t in Kept(ts, spans) && Owns(t, k) && IsInert(t.kind)
  {
    var kept := Kept(ts, spans);
    if forall t | t in kept :: !Owns(t, k) {
      UnownedIsQuiet(u, text, ts, end, spans, k);
    } else {
      var t :| t in kept && Owns(t, k);
      var i: nat :| i < |kept| && kept[i] == t;
      KeptFacts(ts, spans);
      UnaliasedIsQuiet(text, spans, k);
      OwnedLoudIsInert(u, text, ts, end, kept, i, k, Unaliased(text, spans, k));
    }
  }

  lemma WellFormedMember(u: Alphabet, text: string, ts: seq<Token>, end: nat, t: Token)
    requires Tiles(u, text, ts, end) && t in ts
    ensures TokenOk(u, text, t)
  {
    TilesAreWellFormed(u, text, ts, end);
  }

  /** From a position on, every slash and quote of the base lies in an inert token of the rest. */
  ghost predicate OnlyInertLoud(base: string, ts: seq<Token>, from: nat) {
    forall k | from <= k < |base| && IsLoud(base[k]) :: exists t :: t in ts && Owns(t, k) && IsInert(t.kind)
  }

  lemma RestStaysInert(base: string, ts: seq<Token>, from: nat)
    requires Ordered(ts) && ts != [] && OnlyInertLoud(base, ts, from) && from <= ts[0].start
    ensures Ordered(ts[1..]) && OnlyInertLoud(base, ts[1..], ts[0].end)
    ensures forall k | from <= k < ts[0].start && k < |base| :: !IsLoud(base[k])
    ensures !IsInert(ts[0].kind) ==> forall k | ts[0].start <= k < ts[0].end && k < |base| :: !IsLoud(base[k])
  {
    forall k | from <= k < |base| && IsLoud(base[k])
      ensures ts[0].start <= k && (k < ts[0].end ==> IsInert(ts[0].kind))
      ensures ts[0].end <= k ==> exists t :: t in ts[1..] && Owns(t, k) && IsInert(t.kind)
    {
      var t :| t in ts && Owns(t, k) && IsInert(t.kind);
      var i: nat :| i < |ts| && ts[i] == t;
      if 0 < i {
        StartsAfter(ts, 0, i);
        assert ts[1..][i - 1] == t;
      }
    }
  }

  ghost predicate NamesAreQuiet(names: map<string, string>, ts: seq<Token>) {
    forall t | t in ts && t.kind == Identifier :: IsQuiet(Renamed(names, t.value))
  }

  lemma Pick(a: string, b: string, c: string, j: nat)
    requires j < |a + b + c|
    ensures (a + b + c)[j] == if j < |a| then a[j] else if j < |a| + |b| then b[j - |a|] else c[j - |a| - |b|]
  {
  }

  /** Where the j-th character of the view comes from. */
  lemma ViewCharacter(base: string, names: map<string, string>, ts: seq<Token>, from: nat, j: nat,
                      view: string, gap: nat, piece: nat, rest: string)
    requires ts != [] && view == View(base, names, ts, from) && j < |view|
    requires gap == |Slice(base, from, ts[0].start)| && piece == |Piece(base, names, ts[0])|
    requires rest == View(base, names, ts[1..], ts[0].end)
    ensures if j < gap then from + j < |base| && from + j < ts[0].start && view[j] == base[from + j]
            else if j < gap + piece then view[j] == Piece(base, names, ts[0])[j - gap]
            else j - gap - piece < |rest| && view[j] == rest[j - gap - piece]
  {
    Pick(Slice(base, from, ts[0].start), Piece(base, names, ts[0]), rest, j);
  }

  ghost predicate QuietFrom(base: string, names: map<string, string>, ts: seq<Token>, from: nat) {
    && Ordered(ts) && (ts != [] ==> from <= ts[0].start)
    && OnlyInertLoud(base, ts, from) && NamesAreQuiet(names, ts)
  }

  lemma QuietRest(base: string, names: map<string, string>, ts: seq<Token>, from: nat)
    requires QuietFrom(base, names, ts, from) && ts != []
    ensures QuietFrom(base, names, ts[1..], ts[0].end)
  {
    RestStaysInert(base, ts, from);
    NamesOfRest(names, ts);
    NextStarts(ts);
  }

  lemma HeadIsQuiet(base: string, names: map<string, string>, ts: seq<Token>, from: nat)
    requires QuietFrom(base, names, ts, from) && ts != []
    ensures forall k | from <= k < ts[0].start && k < |base| :: !IsLoud(base[k])
    ensures !IsInert(ts[0].kind) ==> forall j | 0 <= j < |Piece(base, names, ts[0])| :: !IsLoud(Piece(base, names, ts[0])[j])
  {
    RestStaysInert(base, ts, from);
    assert ts[0] in ts;
    forall j | 0 <= j < |Piece(base, names, ts[0])| && IsLoud(Piece(base, names, ts[0])[j]) ensures IsInert(ts[0].kind) {
      PieceLoud(base, names, ts[0], j);
    }
  }

  lemma TailIsQuiet(base: string, from: nat)
    requires OnlyInertLoud(base, [], from)
    ensures IsQuiet(Slice(base, from, |base|))
  {
    var tail := Slice(base, from, |base|);
    forall j | 0 <= j < |tail| ensures !IsLoud(tail[j]) {
      assert tail[j] == base[from + j];
    }
  }

  ghost predicate InertOrigin(base: string, names: map<string, string>, ts: seq<Token>, from: nat, j: nat) {
    var origin := Origin(base, names, ts, from, j);
    origin.Some? && origin.value < |ts| && IsInert(ts[origin.value].kind)
  }

  lemma InertOriginOfHead(base: string, names: map<string, string>, ts: seq<Token>, from: nat, j: nat)
    requires ts != [] && IsInert(ts[0].kind)
    requires |Slice(base, from, ts[0].start)| <= j < |Slice(base, from, ts[0].start)| + |Piece(base, names, ts[0])|
    ensures InertOrigin(base, names, ts, from, j)
  {
  }

  lemma InertOriginOfRest(base: string, names: map<string, string>, ts: seq<Token>, from: nat, j: nat, i: nat)
    requires ts != [] && InertOrigin(base, names, ts[1..], ts[0].end, i)
    requires j == |Slice(base, from, ts[0].start)| + |Piece(base, names, ts[0])| + i
    ensures InertOrigin(base, names, ts, from, j)
  {
  }

  lemma {:induction false} LoudHasInertOrigin(
    base: string, names: map<string, string>, ts: seq<Token>, from: nat, j: nat, view: string)
    requires QuietFrom(base, names, ts, from)
    requires view == View(base, names, ts, from) && j < |view| && IsLoud(view[j])
    ensures InertOrigin(base, names, ts, from, j)
    decreases |ts|
  {
    if ts == [] {
      TailIsQuiet(base, from);
    } else {
      var rest := View(base, names, ts[1..], ts[0].end);
      var gap, piece := |Slice(base, from, ts[0].start)|, |Piece(base, names, ts[0])|;
      ViewCharacter(base, names, ts, from, j, view, gap, piece, rest);
      HeadIsQuiet(base, names, ts, from);
      if j < gap + piece {
        InertOriginOfHead(base, names, ts, from, j);
      } else {
        QuietRest(base, names, ts, from);
        LoudHasInertOrigin(base, names, ts[1..], ts[0].end, j - gap - piece, rest);
        InertOriginOfRest(base, names, ts, from, j, j - gap - piece);
      }
    }
  }

  lemma NamesOfRest(names: map<string, string>, ts: seq<Token>)
    requires ts != [] && NamesAreQuiet(names, ts)
    ensures NamesAreQuiet(names, ts[1..])
  {
    assert forall t | t in ts[1..] :: t in ts;
  }

  lemma NextStarts(ts: seq<Token>)
    requires Ordered(ts) && ts != []
    ensures ts[1..] != [] ==> ts[0].end <= ts[1..][0].start
  {
  }

  lemma PieceLoud(base: string, names: map<string, string>, t: Token, j: nat)
    requires j < |Piece(base, names, t)| && IsLoud(Piece(base, names, t)[j])
    requires t.kind == Identifier ==> IsQuiet(Renamed(names, t.value))
    requires !IsInert(t.kind) ==> forall k | t.start <= k < t.end && k < |base| :: !IsLoud(base[k])
    ensures IsInert(t.kind)
  {
    if t.kind != Identifier {
      assert Piece(base, names, t)[j] == base[t.start + j];
    }
  }

  function Identifiers(ts: seq<Token>): set<string> {
    set t | t in ts && t.kind == Identifier :: t.value
  }

  lemma NamesAreClean(u: Alphabet, text: string, ts: seq<Token>, end: nat, kept: seq<Token>, names: map<string, string>)
    requires Tiles(u, text, ts, end) && (forall t | t in kept :: t in ts) && Canonical(names, Identifiers(kept))
    ensures NamesAreQuiet(names, kept)
  {
    forall t | t in kept && t.kind == Identifier ensures IsQuiet(Renamed(names, t.value)) {
      WellFormedMember(u, text, ts, end, t);
      NameIsQuiet(u, text, t.start, t.end, t.value);
      if t.value in names {
        var k: nat :| names[t.value] == LocalName(k);
        LocalNameIsQuiet(k);
      }
    }
  }

  /** Later recognizers never see a slash or quote of the code: each one left stands in a string or template. */
  lemma ViewShowsNoLoudCode(u: Alphabet, text: string, ts: seq<Token>, end: nat, spans: seq<(nat, nat)>,
                             names: map<string, string>, j: nat)
    requires Tiles(u, text, ts, end) && |text| <= end && AreSpans(ts, spans)
    requires Canonical(names, Identifiers(Kept(ts, spans)))
    requires var kept := Kept(ts, spans);
             j < |View(Base(text, spans, kept), names, kept, 0)| && IsLoud(View(Base(text, spans, kept), names, kept, 0)[j])
    ensures InertOrigin(Base(text, spans, Kept(ts, spans)), names, Kept(ts, spans), 0, j)
  {
    var kept := Kept(ts, spans);
    var base := Base(text, spans, kept);
    TokensAreOrdered(u, text, ts, end);
    KeptFacts(ts, spans);
    NamesAreClean(u, text, ts, end, kept, names);
    forall k | 0 <= k < |base| && IsLoud(base[k])
      ensures exists t :: t in kept && Owns(t, k) && IsInert(t.kind)
    {
      BaseLoud(u, text, ts, end, spans, k);
    }
    LoudHasInertOrigin(base, names, kept, 0, j, View(base, names, kept, 0));
  }

  lemma TokensAreOrdered(u: Alphabet, text: string, ts: seq<Token>, end: nat)
    requires Tiles(u, text, ts, end)
    ensures Ordered(ts)
  {
    TilesAreOrdered(u, text, ts, end);
    assert forall i | 0 <= i < |ts| :: Spanned(ts[i], end);
  }

  lemma SpansAreOrdered(ts: seq<Token>, spans: seq<(nat, nat)>)
    requires Ordered(ts) && AreSpans(ts, spans)
    ensures forall s | s in spans :: s.0 <= s.1
  {
    forall s | s in spans ensures s.0 <= s.1 {
      assert IsSpan(ts, s);
      var i: nat, j: nat :| i <= j < |ts| && s == (ts[i].start, ts[j].end);
      if i < j {
        StartsAfter(ts, i, j);
      }
    }
  }

  method MarkTokens(u: Alphabet, text: string, chars: array<char>, kept: seq<Token>)
    requires chars.Length == |text| && forall t | t in kept :: TokenOk(u, text, t)
    modifies chars
    ensures forall k | 0 <= k < |text| :: chars[k] == Marked(text, kept, k, old(chars[k]))
  {
    for i := 0 to |kept|
      invariant forall k | 0 <= k < |text| :: chars[k] == Marked(text, kept[..i], k, old(chars[k]))
    {
      assert kept[..i + 1][..i] == kept[..i] && kept[i] in kept;
      MarkToken(u, text, chars, kept[i]);
    }
    assert kept[..|kept|] == kept;
  }

  /**
   The scan view.  `order` lists the kept identifiers.  An alias span that runs past the text makes
   the program fail with an index error: no view.
   */
  method ScanView(u: Alphabet, text: string, ts: seq<Token>, ghost end: nat, spans: seq<(nat, nat)>, order: seq<string>)
    returns (view: Option<string>, names: map<string, string>)
    requires Tiles(u, text, ts, end) && |text| <= end && AreSpans(ts, spans)
    requires forall v :: v in order <==> v in Identifiers(Kept(ts, spans))
    requires forall i, j | 0 <= i < j < |order| :: order[i] != order[j]
    ensures view.None? <==> exists s :: s in spans && |text| < s.1
    ensures view.Some? ==>
              && Canonical(names, Identifiers(Kept(ts, spans)))
              && LowestUpTo(names, Identifiers(Kept(ts, spans)), order, |order|)
              && view.value == View(Base(text, spans, Kept(ts, spans)), names, Kept(ts, spans), 0)
  {
    names := map[];
    var chars := new char[|text|](i requires 0 <= i < |text| => text[i]);
    KeptTokens(u, text, ts, end, spans);
    var ok := EraseSpans(text, chars, spans);
    if !ok { return None, names; }
    var kept := Kept(ts, spans);
    names := CanonicalNames(Identifiers(kept), order);
    MarkTokens(u, text, chars, kept);
    assert chars[..] == Base(text, spans, kept);
    var rendered := SpliceNames(chars[..], names, kept);
    return Some(rendered), names;
  }

  lemma KeptTokens(u: Alphabet, text: string, ts: seq<Token>, end: nat, spans: seq<(nat, nat)>)
    requires Tiles(u, text, ts, end) && AreSpans(ts, spans)
    ensures forall s | s in spans :: s.0 <= s.1
    ensures Ordered(Kept(ts, spans))
    ensures forall t | t in Kept(ts, spans) :: TokenOk(u, text, t)
    ensures forall t | t in Kept(ts, spans) :: t.start <= |text|
  {
    TokensAreOrdered(u, text, ts, end);
    SpansAreOrdered(ts, spans);
    KeptFacts(ts, spans);
    TilesAreWellFormed(u, text, ts, end);
  }
}
