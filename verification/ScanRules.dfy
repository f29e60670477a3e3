/** What the scan view shows of every character and every token, spelled out kind by kind. */
module ScanRules {
  import opened Wrappers
  import opened Text
  import opened LexerModel
  import opened ScanView

  // ---- Local names ----

  predicate IsFigure(c: char) {
    48 <= c as int <= 57
  }

  /** The number that a row of figures stands for. */
  function Reading(s: string): int {
    if s == [] then 0 else 10 * Reading(s[..|s| - 1]) + (s[|s| - 1] as int - 48)
  }

  lemma {:induction false} DecimalRules(n: nat)
    ensures var s := Decimal(n);
            && s != [] && (forall i | 0 <= i < |s| :: IsFigure(s[i]))
            && (|s| > 1 ==> s[0] as int != 48) && Reading(s) == n
    decreases n
  {
    if n < 10 {
      assert Reading([]) == 0;
      assert Decimal(n)[..0] == [];
    } else {
      DecimalRules(n / 10);
      var s, front := Decimal(n), Decimal(n / 10);
      assert s[..|s| - 1] == front && s[0] == front[0];
      assert n / 10 < 10 ==> Decimal(n / 10) == [(n / 10 + 48) as char];
    }
  }

  ghost predicate IsLocalName(s: string) {
    exists n: nat :: s == "__agentic_source_identifier_" + Decimal(n) + "__"
  }

  predicate AllAscii(s: string) {
    forall i | 0 <= i < |s| :: s[i] as int <= 127
  }

  lemma LocalNameIsAscii(n: nat)
    ensures LocalName(n) == "__agentic_source_identifier_" + Decimal(n) + "__" && AllAscii(LocalName(n))
  {
    DecimalRules(n);
    assert AllAscii("__agentic_source_identifier_") && AllAscii("__");
  }

  // ---- Kept tokens and their identifiers ----

  predicate StartsErased(spans: seq<(nat, nat)>, t: Token) {
    exists i :: 0 <= i < |spans| && spans[i].0 <= t.start < spans[i].1
  }

  lemma ErasedStart(spans: seq<(nat, nat)>, t: Token)
    ensures InSpan(spans, t.start) <==> StartsErased(spans, t)
  {
    if InSpan(spans, t.start) {
      var s :| s in spans && s.0 <= t.start < s.1;
      var i :| 0 <= i < |spans| && spans[i] == s;
    }
  }

  /** Erasing drops the tokens that start in a span and no others. */
  lemma KeptRules(ts: seq<Token>, spans: seq<(nat, nat)>, t: Token)
    ensures t in Kept(ts, spans) <==> t in ts && !StartsErased(spans, t)
  {
    KeptMembers(ts, spans);
    ErasedStart(spans, t);
  }

  /** The identifiers to rename are the names that the kept tokens hold. */
  lemma IdentifierRules(ts: seq<Token>, spans: seq<(nat, nat)>, v: string)
    ensures v in Identifiers(Kept(ts, spans)) <==>
            exists t :: t in ts && t.kind == Identifier && t.value == v && !StartsErased(spans, t)
  {
    forall t: Token ensures t in Kept(ts, spans) <==> t in ts && !StartsErased(spans, t) {
      KeptRules(ts, spans, t);
    }
  }

  lemma KeptInOrder(u: Alphabet, text: string, ts: seq<Token>, end: nat, spans: seq<(nat, nat)>)
    requires Tiles(u, text, ts, end)
    ensures Ordered(Kept(ts, spans))
  {
    TokensAreOrdered(u, text, ts, end);
    KeptFacts(ts, spans);
  }

  // ---- The characters before names are spliced in ----

  predicate EndsLine(c: char) {
    c as int == 10 || c as int == 13 || c as int == 8232 || c as int == 8233
  }

  predicate InErased(spans: seq<(nat, nat)>, k: nat) {
    exists i :: 0 <= i < |spans| && spans[i].0 <= k < spans[i].1
  }

  /** What stands at k for the token t that holds it; c is the character there without the token. */
  predicate Shown(text: string, t: Token, k: nat, c: char, shown: char)
    requires t.start <= k < |text|
  {
    && (t.kind in {Comment, Template} ==> shown == if EndsLine(text[k]) then c else ' ')
    && (t.kind in {Regex, JsxIntrinsic} ==> shown == if k == t.start then '0' else if EndsLine(text[k]) then c else ' ')
    && (t.kind in {Str, StaticTemplate, Number, Identifier, PrivateIdentifier} ==> shown == c)
    && (t.kind == ExpressionEnd ==> shown == ')')
    && (t.kind == Punctuation ==>
          if text[k] == '/' then shown == '*'
          else if t.end == t.start + 2 && text[t.start] == '$' then shown == if k == t.start then '(' else ' '
          else shown == c)
  }

  lemma MarkIsShown(u: Alphabet, text: string, t: Token, k: nat, c: char)
    requires TokenOk(u, text, t) && t.start <= k < t.end && k < |text|
    ensures Shown(text, t, k, c, Mark(text, t, k, c))
  {
    if t.kind == Punctuation {
      assert text[t.start..t.end] == t.value && text[k] == t.value[k - t.start];
    }
  }

  /** The character at k once the spans are erased. */
  function Ground(text: string, spans: seq<(nat, nat)>, k: nat): char
    requires k < |text|
  {
    if InErased(spans, k) && !EndsLine(text[k]) then ' ' else text[k]
  }

  lemma GroundIsUnaliased(text: string, spans: seq<(nat, nat)>, k: nat)
    requires k < |text|
    ensures Ground(text, spans, k) == Unaliased(text, spans, k)
  {
    if InSpan(spans, k) {
      var s :| s in spans && s.0 <= k < s.1;
      var i :| 0 <= i < |spans| && spans[i] == s;
    }
  }

  /** A character that a kept token holds is marked by the kind of the token. */
  lemma HeldCharacterRules(u: Alphabet, text: string, ts: seq<Token>, end: nat, spans: seq<(nat, nat)>, t: Token, k: nat)
    requires Tiles(u, text, ts, end) && k < |text| && t in ts && t.start <= k < t.end && !StartsErased(spans, t)
    ensures Shown(text, t, k, Ground(text, spans, k), Base(text, spans, Kept(ts, spans))[k])
  {
    var kept, c := Kept(ts, spans), Ground(text, spans, k);
    KeptRules(ts, spans, t);
    KeptInOrder(u, text, ts, end, spans);
    MarkOfOwner(text, kept, t, k, c);
    WellFormedMember(u, text, ts, end, t);
    MarkIsShown(u, text, t, k, c);
    GroundIsUnaliased(text, spans, k);
  }

  lemma MarkOfOwner(text: string, kept: seq<Token>, t: Token, k: nat, c: char)
    requires Ordered(kept) && t in kept && t.start <= k < t.end && k < |text|
    ensures Marked(text, kept, k, c) == Mark(text, t, k, c)
  {
    var j: nat :| j < |kept| && kept[j] == t;
    MarkedInside(text, kept, j, k, c);
  }

  /** A character that no kept token holds is as it was, or blank if a span holds it. */
  lemma FreeCharacterRules(text: string, ts: seq<Token>, spans: seq<(nat, nat)>, k: nat)
    requires k < |text| && forall t | t in ts && t.start <= k < t.end :: StartsErased(spans, t)
    ensures Base(text, spans, Kept(ts, spans))[k] == Ground(text, spans, k)
  {
    forall t | t in Kept(ts, spans) ensures !Owns(t, k) {
      KeptRules(ts, spans, t);
    }
    MarkedOutside(text, Kept(ts, spans), k, Ground(text, spans, k));
    GroundIsUnaliased(text, spans, k);
  }

  // ---- The view ----

  /** A token is shown as it is, an identifier by its value, or by a local name if it is not all ASCII. */
  ghost predicate ShownAs(base: string, identifiers: set<string>, t: Token, piece: string) {
    if t.kind != Identifier then piece == Slice(base, t.start, t.end)
    else if AllAscii(t.value) then piece == t.value
    else IsLocalName(piece) && AllAscii(piece) && piece !in identifiers
  }

  lemma AsciiRules(s: string)
    ensures IsAsciiText(s) <==> AllAscii(s)
  {
    if AllAscii(s) {
      forall c | c in s ensures IsAscii(c) {
        var i :| 0 <= i < |s| && s[i] == c;
      }
    } else {
      var i :| 0 <= i < |s| && s[i] as int > 127;
      assert s[i] in s && !IsAscii(s[i]);
    }
  }

  lemma PieceIsShown(base: string, names: map<string, string>, ts: seq<Token>, t: Token)
    requires Canonical(names, Identifiers(ts)) && t in ts
    ensures ShownAs(base, Identifiers(ts), t, Piece(base, names, t))
  {
    if t.kind == Identifier {
      assert t.value in Identifiers(ts);
      AsciiRules(t.value);
      if t.value in names {
        var n: nat :| names[t.value] == LocalName(n);
        LocalNameIsAscii(n);
      }
    }
  }

  /** Where the i-th token begins in the view, and where its gap does. */
  function StartAt(base: string, names: map<string, string>, ts: seq<Token>, i: nat): nat
    requires i < |ts|
  {
    GapAt(base, names, ts, i) + |Slice(base, EndBefore(ts, i), ts[i].start)|
  }

  function GapAt(base: string, names: map<string, string>, ts: seq<Token>, i: nat): nat
    requires i <= |ts|
  {
    if i == 0 then 0
    else
      var h := i - 1;
      GapAt(base, names, ts, h) + |Slice(base, EndBefore(ts, h), ts[h].start)| + |Piece(base, names, ts[h])|
  }

  ghost predicate RestStands(base: string, names: map<string, string>, ts: seq<Token>, view: string, i: nat)
    requires i <= |ts|
  {
    GapAt(base, names, ts, i) <= |view| && view[GapAt(base, names, ts, i)..] == View(base, names, ts[i..], EndBefore(ts, i))
  }

  lemma ViewSplits(base: string, names: map<string, string>, ts: seq<Token>, i: nat, next: nat)
    requires next == i + 1 <= |ts|
    ensures View(base, names, ts[i..], EndBefore(ts, i)) ==
            Slice(base, EndBefore(ts, i), ts[i].start) + Piece(base, names, ts[i]) + View(base, names, ts[next..], ts[i].end)
  {
    assert ts[i..][1..] == ts[next..];
  }

  lemma NextGap(base: string, names: map<string, string>, ts: seq<Token>, i: nat, next: nat)
    requires next == i + 1 <= |ts|
    ensures StartAt(base, names, ts, i) == GapAt(base, names, ts, i) + |Slice(base, EndBefore(ts, i), ts[i].start)|
    ensures GapAt(base, names, ts, next) == StartAt(base, names, ts, i) + |Piece(base, names, ts[i])|
  {
  }

  ghost predicate Stands(view: string, a: nat, b: nat, c: nat, gap: string, piece: string, rest: string) {
    a <= b <= c <= |view| && view[a..b] == gap && view[b..c] == piece && view[c..] == rest
  }

  lemma Parts(view: string, a: nat, b: nat, c: nat, gap: string, piece: string, rest: string)
    requires a <= |view| && view[a..] == gap + piece + rest && b == a + |gap| && c == b + |piece|
    ensures Stands(view, a, b, c, gap, piece, rest)
  {
    var tail := view[a..];
    assert tail[..|gap|] == gap && tail[|gap|..|gap| + |piece|] == piece && tail[|gap| + |piece|..] == rest;
  }

  lemma TokenStands(base: string, names: map<string, string>, ts: seq<Token>, view: string, i: nat, next: nat)
    requires next == i + 1 <= |ts| && RestStands(base, names, ts, view, i)
    ensures Stands(view, GapAt(base, names, ts, i), StartAt(base, names, ts, i), GapAt(base, names, ts, next),
                   Slice(base, EndBefore(ts, i), ts[i].start), Piece(base, names, ts[i]),
                   View(base, names, ts[next..], EndBefore(ts, next)))
  {
    NextGap(base, names, ts, i, next);
    ViewSplits(base, names, ts, i, next);
    Parts(view, GapAt(base, names, ts, i), StartAt(base, names, ts, i), GapAt(base, names, ts, next),
          Slice(base, EndBefore(ts, i), ts[i].start), Piece(base, names, ts[i]),
          View(base, names, ts[next..], EndBefore(ts, next)));
  }

  lemma {:induction false} RestsStand(base: string, names: map<string, string>, ts: seq<Token>, view: string, i: nat)
    requires i <= |ts| && view == View(base, names, ts, 0)
    ensures RestStands(base, names, ts, view, i)
    decreases i
  {
    if i == 0 {
      assert ts[0..] == ts && view[0..] == view;
    } else {
      var h := i - 1;
      RestsStand(base, names, ts, view, h);
      TokenStands(base, names, ts, view, h, i);
    }
  }

  /** The i-th token stands in the view between its neighbours. */
  ghost predicate InPlace(base: string, ts: seq<Token>, view: string, at: seq<(nat, nat)>, i: nat)
    requires i < |at| == |ts|
  {
    var from := if i == 0 then 0 else at[i - 1].1;
    && from <= at[i].0 <= at[i].1 <= |view|
    && view[from..at[i].0] == Slice(base, if i == 0 then 0 else ts[i - 1].end, ts[i].start)
    && ShownAs(base, Identifiers(ts), ts[i], view[at[i].0..at[i].1])
  }

  /**
   The view is laid out token after token, with the marked text between and after them: every identifier by
   itself or, outside ASCII, by a local name that no identifier bears, the others by their marked text.
   */
  lemma ViewRules(u: Alphabet, text: string, ts: seq<Token>, end: nat, spans: seq<(nat, nat)>, names: map<string, string>)
    returns (at: seq<(nat, nat)>)
    requires Tiles(u, text, ts, end) && Canonical(names, Identifiers(Kept(ts, spans)))
    ensures var kept := Kept(ts, spans);
            var base := Base(text, spans, kept);
            var view := View(base, names, kept, 0);
            && |at| == |kept|
            && (forall i | 0 <= i < |kept| :: InPlace(base, kept, view, at, i))
            && (if kept == [] then view == base
                else at[|at| - 1].1 <= |view|
                     && view[at[|at| - 1].1..] == Slice(base, kept[|at| - 1].end, |base|))
  {
    var kept := Kept(ts, spans);
    var base := Base(text, spans, kept);
    var view := View(base, names, kept, 0);
    at := Places(base, names, kept);
    forall i | 0 <= i < |kept| ensures InPlace(base, kept, view, at, i) {
      var next := i + 1;
      PlacedInView(base, names, kept, view, at, i, next);
    }
    RestsStand(base, names, kept, view, |kept|);
    assert kept[|kept|..] == [];
  }

  function Place(base: string, names: map<string, string>, ts: seq<Token>, i: nat): (nat, nat)
    requires i < |ts|
  {
    var next := i + 1;
    (StartAt(base, names, ts, i), GapAt(base, names, ts, next))
  }

  function Places(base: string, names: map<string, string>, ts: seq<Token>): (at: seq<(nat, nat)>)
    ensures |at| == |ts| && forall i | 0 <= i < |ts| :: at[i] == Place(base, names, ts, i)
  {
    seq(|ts|, i requires 0 <= i < |ts| => Place(base, names, ts, i))
  }

  lemma PlacesMeet(base: string, names: map<string, string>, ts: seq<Token>, at: seq<(nat, nat)>, i: nat)
    requires i < |ts| && at == Places(base, names, ts)
    ensures (if i == 0 then 0 else at[i - 1].1) == GapAt(base, names, ts, i)
  {
    if i > 0 {
      var h := i - 1;
      assert at[h] == Place(base, names, ts, h);
    }
  }

  lemma StandingIsInPlace(base: string, ts: seq<Token>, view: string, at: seq<(nat, nat)>, i: nat,
                          a: nat, b: nat, c: nat, piece: string, rest: string)
    requires i < |at| == |ts| && at[i] == (b, c) && a == if i == 0 then 0 else at[i - 1].1
    requires Stands(view, a, b, c, Slice(base, EndBefore(ts, i), ts[i].start), piece, rest)
    requires ShownAs(base, Identifiers(ts), ts[i], piece)
    ensures InPlace(base, ts, view, at, i)
  {
  }

  lemma PlacedInView(base: string, names: map<string, string>, ts: seq<Token>, view: string, at: seq<(nat, nat)>,
                     i: nat, next: nat)
    requires Canonical(names, Identifiers(ts)) && next == i + 1 <= |ts|
    requires view == View(base, names, ts, 0) && at == Places(base, names, ts)
    ensures InPlace(base, ts, view, at, i)
  {
    RestsStand(base, names, ts, view, i);
    TokenStands(base, names, ts, view, i, next);
    PieceIsShown(base, names, ts, ts[i]);
    PlacesMeet(base, names, ts, at, i);
    assert at[i] == Place(base, names, ts, i);
    StandingIsInPlace(base, ts, view, at, i, GapAt(base, names, ts, i), StartAt(base, names, ts, i), GapAt(base, names, ts, next),
                      Piece(base, names, ts[i]), View(base, names, ts[next..], EndBefore(ts, next)));
  }
}
