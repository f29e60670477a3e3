/**
 The literals of the scan view: each is the copy of a string or a static template of the text, and
 there are no other quotes or slashes.  So the bracket matchers over the tokens of a view agree as
 long as no comment runs into a literal.
 */
module ViewScans {
  import opened Wrappers
  import opened LexerModel
  import opened LexerTheorems
  import opened LexerMachine
  import opened LexerPrefix
  import opened ViewLiterals
  import opened TokenDelimiters
  import V = ScanView
  import D = Delimiters

  // ---- Literals stay literals when they are moved ----

  predicate SameFrom(a: string, i: nat, b: string, j: nat, n: nat) {
    i + n <= |a| && j + n <= |b| && a[i..i + n] == b[j..j + n]
  }

  lemma SameAt(a: string, i: nat, b: string, j: nat, n: nat, k: nat)
    requires SameFrom(a, i, b, j, n) && k < n
    ensures a[i + k] == b[j + k]
  {
    assert a[i..i + n][k] == b[j..j + n][k];
  }

  lemma SameRest(a: string, i: nat, b: string, j: nat, n: nat, k: nat)
    requires SameFrom(a, i, b, j, n) && k <= n
    ensures SameFrom(a, i + k, b, j + k, n - k)
  {
    assert a[i + k..i + n] == a[i..i + n][k..] && b[j + k..j + n] == b[j..j + n][k..];
  }

  lemma EscapeMoves(a: string, i: nat, b: string, j: nat, n: nat)
    requires SameFrom(a, i, b, j, n) && 0 < n && AfterEscape(a, i) < i + n
    ensures AfterEscape(b, j) == j + (AfterEscape(a, i) - i)
  {
    SameAt(a, i, b, j, n, 1);
    SameAt(a, i, b, j, n, 2);
  }

  lemma {:induction false} StringMoves(a: string, i: nat, b: string, j: nat, n: nat, quote: char)
    requires SameFrom(a, i, b, j, n) && StringEnd(a, i, quote) == Some(i + n)
    ensures StringEnd(b, j, quote) == Some(j + n)
    decreases n
  {
    SameAt(a, i, b, j, n, 0);
    if a[i] == '\\' {
      var k := AfterEscape(a, i) - i;
      EscapeMoves(a, i, b, j, n);
      SameRest(a, i, b, j, n, k);
      StringMoves(a, i + k, b, j + k, n - k, quote);
    } else if a[i] != quote {
      SameRest(a, i, b, j, n, 1);
      StringMoves(a, i + 1, b, j + 1, n - 1, quote);
    }
  }

  lemma OpensMoves(a: string, i: nat, b: string, j: nat, n: nat)
    requires SameFrom(a, i, b, j, n) && 2 <= n
    ensures StartsAt(b, j, "${") == StartsAt(a, i, "${")
  {
    assert a[i..i + 2] == a[i..i + n][..2] && b[j..j + 2] == b[j..j + n][..2];
  }

  /** The n characters hold the closing backquote last. */
  lemma {:induction false} PieceMoves(a: string, i: nat, b: string, j: nat, n: nat)
    requires SameFrom(a, i, b, j, n) && 0 < n && PieceEnd(a, i) == Some(i + n - 1) && a[i + n - 1] == '`'
    ensures PieceEnd(b, j) == Some(j + n - 1)
    decreases n
  {
    SameAt(a, i, b, j, n, 0);
    if a[i] == '\\' {
      SameRest(a, i, b, j, n, 2);
      PieceMoves(a, i + 2, b, j + 2, n - 2);
    } else if a[i] != '`' {
      OpensMoves(a, i, b, j, n);
      SameRest(a, i, b, j, n, 1);
      PieceMoves(a, i + 1, b, j + 1, n - 1);
    }
  }

  lemma TemplateMoves(a: string, i: nat, b: string, j: nat, n: nat, from: nat, to: nat)
    requires SameFrom(a, i, b, j, n) && 1 < n && from == i + 1 && to == j + 1
    requires PieceEnd(a, from) == Some(i + n - 1) && a[i + n - 1] == '`'
    ensures PieceEnd(b, to) == Some(j + n - 1) && b[j + n - 1] == '`'
  {
    SameRest(a, i, b, j, n, 1);
    PieceMoves(a, from, b, to, n - 1);
    SameAt(a, i, b, j, n, n - 1);
  }

  lemma QuotedMoves(a: string, i: nat, b: string, j: nat, n: nat, from: nat, to: nat, quote: char)
    requires SameFrom(a, i, b, j, n) && 1 < n && from == i + 1 && to == j + 1 && StringEnd(a, from, quote) == Some(i + n)
    ensures StringEnd(b, to, quote) == Some(j + n)
  {
    SameRest(a, i, b, j, n, 1);
    StringMoves(a, from, b, to, n - 1, quote);
  }

  lemma LiteralMoves(a: string, l: Span, b: string, m: Span, n: nat)
    requires IsPlainLiteral(a, l) && l.end == l.start + n && m.end == m.start + n && SameFrom(a, l.start, b, m.start, n)
    ensures IsPlainLiteral(b, m)
  {
    SameAt(a, l.start, b, m.start, n, 0);
    if a[l.start] == '`' {
      TemplateMoves(a, l.start, b, m.start, n, l.start + 1, m.start + 1);
    } else {
      QuotedMoves(a, l.start, b, m.start, n, l.start + 1, m.start + 1, a[l.start]);
    }
  }

  // ---- Where the pieces of the view stand ----

  /** Where the piece of the i-th token starts in the view. */
  function Offset(base: string, names: map<string, string>, ts: seq<Token>, from: nat, i: nat): nat
    requires i < |ts|
    decreases |ts|
  {
    var gap := |Slice(base, from, ts[0].start)|;
    if i == 0 then gap else gap + |V.Piece(base, names, ts[0])| + Offset(base, names, ts[1..], ts[0].end, i - 1)
  }

  /** Where the piece ends. */
  function Until(base: string, names: map<string, string>, ts: seq<Token>, from: nat, i: nat): nat
    requires i < |ts|
  {
    Offset(base, names, ts, from, i) + |V.Piece(base, names, ts[i])|
  }

  lemma StandsBehind(before: string, rest: string, at: nat, until: nat)
    requires at <= until <= |rest|
    ensures (before + rest)[|before| + at..|before| + until] == rest[at..until]
  {
  }

  lemma StandsFirst(gap: string, piece: string, rest: string)
    ensures (gap + piece + rest)[|gap|..|gap| + |piece|] == piece
  {
  }

  lemma LaterPiece(base: string, names: map<string, string>, ts: seq<Token>, from: nat, i: nat, before: nat)
    requires 0 < i < |ts| && before == |Slice(base, from, ts[0].start)| + |V.Piece(base, names, ts[0])|
    ensures Offset(base, names, ts, from, i) == before + Offset(base, names, ts[1..], ts[0].end, i - 1)
    ensures Until(base, names, ts, from, i) == before + Until(base, names, ts[1..], ts[0].end, i - 1)
    ensures ts[1..][i - 1] == ts[i]
  {
  }

  /** The view shows these characters from here to there. */
  predicate Shows(view: string, at: nat, until: nat, piece: string) {
    at <= until <= |view| && view[at..until] == piece
  }

  lemma {:induction false} PieceStands(base: string, names: map<string, string>, ts: seq<Token>, from: nat, i: nat)
    requires i < |ts|
    ensures Shows(V.View(base, names, ts, from), Offset(base, names, ts, from, i), Until(base, names, ts, from, i),
                  V.Piece(base, names, ts[i]))
    decreases |ts|
  {
    var gap, piece, rest := Slice(base, from, ts[0].start), V.Piece(base, names, ts[0]), V.View(base, names, ts[1..], ts[0].end);
    if i == 0 {
      StandsFirst(gap, piece, rest);
    } else {
      PieceStands(base, names, ts[1..], ts[0].end, i - 1);
      LaterPiece(base, names, ts, from, i, |gap + piece|);
      ShowsBehind(gap + piece, rest, Offset(base, names, ts[1..], ts[0].end, i - 1),
                  Until(base, names, ts[1..], ts[0].end, i - 1), V.Piece(base, names, ts[i]));
    }
  }

  lemma ShowsBehind(before: string, rest: string, at: nat, until: nat, piece: string)
    requires Shows(rest, at, until, piece)
    ensures Shows(before + rest, |before| + at, |before| + until, piece)
  {
    StandsBehind(before, rest, at, until);
  }

  lemma {:induction false} PiecesAreOrdered(
    base: string, names: map<string, string>, ts: seq<Token>, from: nat, i: nat, j: nat)
    requires i < j < |ts|
    ensures Until(base, names, ts, from, i) <= Offset(base, names, ts, from, j)
    decreases |ts|
  {
    if i > 0 {
      PiecesAreOrdered(base, names, ts[1..], ts[0].end, i - 1, j - 1);
      assert ts[1..][i - 1] == ts[i];
    }
  }

  lemma {:induction false} OriginStands(base: string, names: map<string, string>, ts: seq<Token>, from: nat, j: nat)
    requires V.Origin(base, names, ts, from, j).Some?
    ensures var i := V.Origin(base, names, ts, from, j).value;
            i < |ts| && Offset(base, names, ts, from, i) <= j < Until(base, names, ts, from, i)
    decreases |ts|
  {
    var gap, piece := |Slice(base, from, ts[0].start)|, |V.Piece(base, names, ts[0])|;
    if gap + piece <= j {
      OriginStands(base, names, ts[1..], ts[0].end, j - gap - piece);
      var i := V.Origin(base, names, ts, from, j).value;
      assert ts[1..][i - 1] == ts[i];
    }
  }

  // ---- The literals of the view ----

  lemma KeptStaysOut(ts: seq<Token>, spans: seq<(nat, nat)>, t: Token, k: nat)
    requires V.Ordered(ts) && V.AreSpans(ts, spans) && t in ts && !V.InSpan(spans, t.start) && t.start <= k < t.end
    ensures !V.InSpan(spans, k)
  {
    if s :| s in spans && s.0 <= k < s.1 {
      assert V.IsSpan(ts, s);
      var i: nat, j: nat :| i <= j < |ts| && s == (ts[i].start, ts[j].end);
      var x: nat :| x < |ts| && ts[x] == t;
      if x < i {
        V.StartsAfter(ts, x, i);
      } else if i < x {
        V.StartsAfter(ts, i, x);
        assert ts[i].start <= ts[i].end;
      }
      assert s.0 <= t.start;
    }
  }

  lemma InertIsLiteral(u: Alphabet, text: string, t: Token)
    requires TokenOk(u, text, t) && IsInert(t.kind)
    ensures IsPlainLiteral(text, Span(t.start, t.end))
  {
  }

  lemma InertCharacter(text: string, ts: seq<Token>, spans: seq<(nat, nat)>, kept: seq<Token>, i: nat, k: nat)
    requires V.Ordered(ts) && V.AreSpans(ts, spans) && kept == V.Kept(ts, spans) && i < |kept|
    requires IsInert(kept[i].kind) && kept[i].start <= k < kept[i].end && k < |text|
    ensures V.Base(text, spans, kept)[k] == text[k]
  {
    V.KeptFacts(ts, spans);
    assert kept[i] in kept;
    KeptStaysOut(ts, spans, kept[i], k);
    V.MarkedInside(text, kept, i, k, V.Unaliased(text, spans, k));
  }

  lemma KeptIsWellFormed(u: Alphabet, text: string, ts: seq<Token>, end: nat, spans: seq<(nat, nat)>, kept: seq<Token>, i: nat)
    requires Tiles(u, text, ts, end) && kept == V.Kept(ts, spans) && i < |kept|
    ensures V.Ordered(ts) && TokenOk(u, text, kept[i])
  {
    V.TokensAreOrdered(u, text, ts, end);
    V.KeptFacts(ts, spans);
    assert kept[i] in kept;
    V.WellFormedMember(u, text, ts, end, kept[i]);
  }

  lemma SameSlice(a: string, b: string, i: nat, j: nat)
    requires i < j <= |a| == |b| && forall k | i <= k < j :: a[k] == b[k]
    ensures Slice(a, i, j) == b[i..j]
  {
  }

  /** A kept string or static template is rendered as it is. */
  lemma InertPiece(
    text: string, ts: seq<Token>, spans: seq<(nat, nat)>, names: map<string, string>, kept: seq<Token>, i: nat, base: string)
    requires V.Ordered(ts) && V.AreSpans(ts, spans) && kept == V.Kept(ts, spans) && i < |kept|
    requires IsInert(kept[i].kind) && kept[i].start < kept[i].end <= |text| && base == V.Base(text, spans, kept)
    ensures V.Piece(base, names, kept[i]) == text[kept[i].start..kept[i].end]
  {
    forall k | kept[i].start <= k < kept[i].end ensures base[k] == text[k] {
      InertCharacter(text, ts, spans, kept, i, k);
    }
    SameSlice(base, text, kept[i].start, kept[i].end);
  }

  /** Where the i-th token stands in the view. */
  function SpanOf(base: string, names: map<string, string>, ts: seq<Token>, i: nat): Span
    requires i < |ts|
  {
    Span(Offset(base, names, ts, 0, i), Until(base, names, ts, 0, i))
  }

  /** Where the view shows strings and static templates. */
  function Literals(base: string, names: map<string, string>, kept: seq<Token>): set<Span> {
    set i | 0 <= i < |kept| && IsInert(kept[i].kind) :: SpanOf(base, names, kept, i)
  }

  lemma InertStands(
    u: Alphabet, text: string, ts: seq<Token>, end: nat, spans: seq<(nat, nat)>, names: map<string, string>,
    kept: seq<Token>, i: nat)
    requires Tiles(u, text, ts, end) && V.AreSpans(ts, spans) && kept == V.Kept(ts, spans) && i < |kept|
    requires IsInert(kept[i].kind)
    ensures var base := V.Base(text, spans, kept);
            IsPlainLiteral(V.View(base, names, kept, 0), SpanOf(base, names, kept, i))
  {
    var base := V.Base(text, spans, kept);
    KeptIsWellFormed(u, text, ts, end, spans, kept, i);
    InertIsLiteral(u, text, kept[i]);
    InertPiece(text, ts, spans, names, kept, i, base);
    PieceStands(base, names, kept, 0, i);
    var l, m := Span(kept[i].start, kept[i].end), SpanOf(base, names, kept, i);
    LiteralMoves(text, l, V.View(base, names, kept, 0), m, l.end - l.start);
  }

  lemma LiteralsAreApart(base: string, names: map<string, string>, kept: seq<Token>, i: nat, j: nat)
    requires i < |kept| && j < |kept| && i != j
    ensures Apart(SpanOf(base, names, kept, i), SpanOf(base, names, kept, j))
  {
    if i < j {
      PiecesAreOrdered(base, names, kept, 0, i, j);
    } else {
      PiecesAreOrdered(base, names, kept, 0, j, i);
    }
  }

  lemma LoudIsCovered(base: string, names: map<string, string>, kept: seq<Token>, k: nat)
    requires V.InertOrigin(base, names, kept, 0, k)
    ensures Covered(Literals(base, names, kept), k)
  {
    OriginStands(base, names, kept, 0, k);
    var i := V.Origin(base, names, kept, 0, k).value;
    var l := SpanOf(base, names, kept, i);
    assert l in Literals(base, names, kept) && Covers(l, k);
  }

  /** In a scan view all quotes, backquotes and slashes stand in plain literals. */
  lemma ViewIsPlainlyQuoted(
    u: Alphabet, text: string, ts: seq<Token>, end: nat, spans: seq<(nat, nat)>, names: map<string, string>)
    requires Tiles(u, text, ts, end) && |text| <= end && V.AreSpans(ts, spans)
    requires V.Canonical(names, V.Identifiers(V.Kept(ts, spans)))
    ensures var kept := V.Kept(ts, spans); var base := V.Base(text, spans, kept);
            PlainlyQuoted(V.View(base, names, kept, 0), Literals(base, names, kept))
  {
    var kept := V.Kept(ts, spans);
    var base := V.Base(text, spans, kept);
    var view, lits := V.View(base, names, kept, 0), Literals(base, names, kept);
    forall l | l in lits ensures IsPlainLiteral(view, l) {
      var i: nat :| i < |kept| && IsInert(kept[i].kind) && l == SpanOf(base, names, kept, i);
      InertStands(u, text, ts, end, spans, names, kept, i);
    }
    forall l, m | l in lits && m in lits && l != m ensures Apart(l, m) {
      var i: nat :| i < |kept| && IsInert(kept[i].kind) && l == SpanOf(base, names, kept, i);
      var j: nat :| j < |kept| && IsInert(kept[j].kind) && m == SpanOf(base, names, kept, j);
      LiteralsAreApart(base, names, kept, i, j);
    }
    forall k: nat | k < |view| && IsLoud(view[k]) ensures Covered(lits, k) {
      V.ViewShowsNoLoudCode(u, text, ts, end, spans, names, k);
      LoudIsCovered(base, names, kept, k);
    }
  }

  // ---- The matchers over a view ----

  /** The scan view of a text with these tokens, aliases and names. */
  function ViewOf(text: string, ts: seq<Token>, spans: seq<(nat, nat)>, names: map<string, string>): string {
    V.View(V.Base(text, spans, V.Kept(ts, spans)), names, V.Kept(ts, spans), 0)
  }

  function LiteralsOf(text: string, ts: seq<Token>, spans: seq<(nat, nat)>, names: map<string, string>): set<Span> {
    Literals(V.Base(text, spans, V.Kept(ts, spans)), names, V.Kept(ts, spans))
  }

  /**
   Lexed again, a view shows each of its strings and templates as a token exactly when no comment
   runs into one, and then no substitution is left.
   */
  lemma ViewIsLexedInStep(
    u: Alphabet, text: string, ts: seq<Token>, end: nat, spans: seq<(nat, nat)>, names: map<string, string>,
    again: seq<Token>, endAgain: nat)
    requires Tiles(u, text, ts, end) && |text| <= end && V.AreSpans(ts, spans)
    requires V.Canonical(names, V.Identifiers(V.Kept(ts, spans)))
    requires Lex(u, ViewOf(text, ts, spans, names)) == Success(again)
    requires Tiles(u, ViewOf(text, ts, spans, names), again, endAgain)
    ensures var lits := LiteralsOf(text, ts, spans, names);
            && ((forall l | l in lits :: IsTokenOf(again, l)) <==> CommentsMiss(again, lits))
            && (CommentsMiss(again, lits) ==> HoldsNoEnd(again))
  {
    var view, lits := ViewOf(text, ts, spans, names), LiteralsOf(text, ts, spans, names);
    ViewIsPlainlyQuoted(u, text, ts, end, spans, names);
    LiteralsAreTokensIff(u, view, again, endAgain, lits);
    if CommentsMiss(again, lits) {
      InStepNoSubstitution(u, view, again, lits);
    }
  }

  /** Over such a view the forward and the backward scan name the same pairs. */
  lemma ViewScansAgree(
    u: Alphabet, text: string, ts: seq<Token>, end: nat, spans: seq<(nat, nat)>, names: map<string, string>,
    again: seq<Token>, endAgain: nat, open: nat, close: nat)
    requires Tiles(u, text, ts, end) && |text| <= end && V.AreSpans(ts, spans)
    requires V.Canonical(names, V.Identifiers(V.Kept(ts, spans)))
    requires Lex(u, ViewOf(text, ts, spans, names)) == Success(again)
    requires Tiles(u, ViewOf(text, ts, spans, names), again, endAgain)
    requires CommentsMiss(again, LiteralsOf(text, ts, spans, names)) && D.IsPair(CodeOf(again), open, close)
    ensures FindsOpener(u, ViewOf(text, ts, spans, names), again, open, close)
  {
    ViewIsLexedInStep(u, text, ts, end, spans, names, again, endAgain);
    PlainTokenScansAgree(u, ViewOf(text, ts, spans, names), again, endAgain, open, close);
  }
}
