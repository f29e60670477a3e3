/**
 The four bracket scans of the source contract as functions of the code characters alone.  The
 programs that walk a scan view character by character are in `ViewDelimiters`, those that run over
 the tokens of the lexer in `TokenDelimiters`.
 */
module Delimiters {
  import opened Wrappers

  datatype Bracket = Round | Square | Curly

  function Opener(k: Bracket): char {
    match k case Round => '(' case Square => '[' case Curly => '{'
  }

  function Closer(k: Bracket): char {
    match k case Round => ')' case Square => ']' case Curly => '}'
  }

  function OpenerKind(c: char): Option<Bracket> {
    if c == '(' then Some(Round) else if c == '[' then Some(Square)
    else if c == '{' then Some(Curly) else None
  }

  function CloserKind(c: char): Option<Bracket> {
    if c == ')' then Some(Round) else if c == ']' then Some(Square)
    else if c == '}' then Some(Curly) else None
  }

  // ---- Well-nested text, independently of any matcher ----

  datatype Tree = Leaf(c: char) | Group(kind: Bracket, inner: seq<Tree>)

  predicate PlainTree(t: Tree)
    decreases t
  {
    match t
    case Leaf(c) => OpenerKind(c).None? && CloserKind(c).None?
    case Group(_, inner) => PlainForest(inner)
  }

  predicate PlainForest(forest: seq<Tree>)
    decreases forest
  {
    forest == [] || (PlainTree(forest[0]) && PlainForest(forest[1..]))
  }

  function FlattenTree(t: Tree): string
    decreases t
  {
    match t
    case Leaf(c) => [c]
    case Group(k, inner) => [Opener(k)] + Flatten(inner) + [Closer(k)]
  }

  function Flatten(forest: seq<Tree>): string
    decreases forest
  {
    if forest == [] then [] else FlattenTree(forest[0]) + Flatten(forest[1..])
  }

  /** Well-nested text is the flattening of a forest. */
  ghost predicate WellNested(s: string) {
    exists forest :: PlainForest(forest) && Flatten(forest) == s
  }

  /** `open` and `close` enclose well-nested text in brackets of one kind. */
  ghost predicate IsPair(s: string, open: int, close: int) {
    && 0 <= open < close < |s|
    && OpenerKind(s[open]).Some? && CloserKind(s[close]) == OpenerKind(s[open])
    && WellNested(s[open + 1..close])
  }

  // ---- What each scanner computes ----

  /** The mixed-depth forward scan for the closer of `k`, from `i` with `depth` brackets open. */
  function Forward(s: string, k: Bracket, i: nat, end: nat, depth: nat): Option<nat>
    requires end <= |s|
    decreases end - i
  {
    if i >= end then None
    else if s[i] == Opener(k) then Forward(s, k, i + 1, end, depth + 1)
    else if s[i] == Closer(k) then
      if depth == 0 then Some(i) else Forward(s, k, i + 1, end, depth - 1)
    else if OpenerKind(s[i]).Some? then Forward(s, k, i + 1, end, depth + 1)
    else if CloserKind(s[i]).Some? && depth > 0 then Forward(s, k, i + 1, end, depth - 1)
    else Forward(s, k, i + 1, end, depth)
  }

  /** The single-kind forward scan: the position after the closer that brings the count to zero. */
  function Single(s: string, k: Bracket, i: nat, depth: int): Option<nat>
    decreases |s| - i
  {
    if i >= |s| then None
    else if s[i] == Opener(k) then Single(s, k, i + 1, depth + 1)
    else if s[i] == Closer(k) then
      if depth == 1 then Some(i + 1) else Single(s, k, i + 1, depth - 1)
    else Single(s, k, i + 1, depth)
  }

  /** The single-kind backward scan over `s[..i]`. */
  function Backward(s: string, k: Bracket, i: nat, depth: int): Option<nat>
    requires i <= |s|
    decreases i
  {
    if i == 0 then None
    else if s[i - 1] == Closer(k) then Backward(s, k, i - 1, depth + 1)
    else if s[i - 1] == Opener(k) then
      if depth == 1 then Some(i - 1) else Backward(s, k, i - 1, depth - 1)
    else Backward(s, k, i - 1, depth)
  }

  datatype Open = Open(kind: Bracket, index: nat)

  function Push(stack: seq<Open>, c: char, i: nat): seq<Open> {
    if OpenerKind(c).Some? then stack + [Open(OpenerKind(c).value, i)]
    else if CloserKind(c).Some? && stack != [] && stack[|stack| - 1].kind == CloserKind(c).value then
      stack[..|stack| - 1]
    else stack
  }

  /** The stack of unmatched openers before `i`; a closer of another kind is ignored. */
  function StackAt(s: string, i: nat): seq<Open>
    requires i <= |s|
  {
    if i == 0 then [] else Push(StackAt(s, i - 1), s[i - 1], i - 1)
  }

  // ---- Well-nested text is skipped by every scanner ----

  ghost predicate Occurs(s: string, i: nat, part: string) {
    i + |part| <= |s| && s[i..i + |part|] == part
  }

  lemma OccursParts(s: string, i: nat, a: string, b: string)
    requires Occurs(s, i, a + b)
    ensures Occurs(s, i, a) && Occurs(s, i + |a|, b)
  {
    assert s[i..i + |a|] == (a + b)[..|a|];
    assert s[i + |a|..i + |a| + |b|] == (a + b)[|a|..];
  }

  lemma GroupParts(s: string, i: nat, k: Bracket, inner: seq<Tree>)
    requires Occurs(s, i, FlattenTree(Group(k, inner)))
    ensures var n := |Flatten(inner)|;
      && i + n + 1 < |s| && |FlattenTree(Group(k, inner))| == n + 2
      && s[i] == Opener(k) && Occurs(s, i + 1, Flatten(inner)) && s[i + 1 + n] == Closer(k)
  {
    OccursParts(s, i, [Opener(k)] + Flatten(inner), [Closer(k)]);
    OccursParts(s, i, [Opener(k)], Flatten(inner));
    assert s[i..i + 1] == [Opener(k)];
    var n := |Flatten(inner)|;
    assert s[i] == s[i..i + 1][0];
    assert s[i + 1 + n..i + 1 + n + 1] == [Closer(k)];
    assert s[i + 1 + n] == s[i + 1 + n..i + 1 + n + 1][0];
  }

  lemma {:induction false} ForwardSkips(s: string, k: Bracket, i: nat, end: nat, depth: nat, forest: seq<Tree>)
    requires PlainForest(forest) && Occurs(s, i, Flatten(forest)) && i + |Flatten(forest)| <= end <= |s|
    ensures Forward(s, k, i, end, depth) == Forward(s, k, i + |Flatten(forest)|, end, depth)
    decreases forest, 1
  {
    if forest != [] {
      var n := |FlattenTree(forest[0])|;
      OccursParts(s, i, FlattenTree(forest[0]), Flatten(forest[1..]));
      ForwardSkipsTree(s, k, i, end, depth, forest[0]);
      ForwardSkips(s, k, i + n, end, depth, forest[1..]);
    }
  }

  lemma {:induction false} ForwardSkipsTree(s: string, k: Bracket, i: nat, end: nat, depth: nat, t: Tree)
    requires PlainTree(t) && Occurs(s, i, FlattenTree(t)) && i + |FlattenTree(t)| <= end <= |s|
    ensures Forward(s, k, i, end, depth) == Forward(s, k, i + |FlattenTree(t)|, end, depth)
    decreases t, 0
  {
    match t
    case Leaf(c) =>
      assert s[i..i + 1] == [c];
      assert s[i] == c;
    case Group(kind, inner) =>
      GroupParts(s, i, kind, inner);
      ForwardSkips(s, k, i + 1, end, depth + 1, inner);
  }

  lemma {:induction false} SingleSkips(s: string, k: Bracket, i: nat, depth: int, forest: seq<Tree>)
    requires PlainForest(forest) && Occurs(s, i, Flatten(forest)) && depth >= 1
    ensures Single(s, k, i, depth) == Single(s, k, i + |Flatten(forest)|, depth)
    decreases forest, 1
  {
    if forest != [] {
      OccursParts(s, i, FlattenTree(forest[0]), Flatten(forest[1..]));
      SingleSkipsTree(s, k, i, depth, forest[0]);
      SingleSkips(s, k, i + |FlattenTree(forest[0])|, depth, forest[1..]);
    }
  }

  lemma {:induction false} SingleSkipsTree(s: string, k: Bracket, i: nat, depth: int, t: Tree)
    requires PlainTree(t) && Occurs(s, i, FlattenTree(t)) && depth >= 1
    ensures Single(s, k, i, depth) == Single(s, k, i + |FlattenTree(t)|, depth)
    decreases t, 0
  {
    match t
    case Leaf(c) =>
      assert s[i..i + 1] == [c];
      assert s[i] == c;
    case Group(kind, inner) =>
      GroupParts(s, i, kind, inner);
      SingleSkips(s, k, i + 1, if kind == k then depth + 1 else depth, inner);
  }

  lemma {:induction false} BackwardSkips(s: string, k: Bracket, i: nat, depth: int, forest: seq<Tree>)
    requires PlainForest(forest) && Occurs(s, i, Flatten(forest)) && depth >= 1
    ensures Backward(s, k, i + |Flatten(forest)|, depth) == Backward(s, k, i, depth)
    decreases forest, 1
  {
    if forest != [] {
      OccursParts(s, i, FlattenTree(forest[0]), Flatten(forest[1..]));
      BackwardSkips(s, k, i + |FlattenTree(forest[0])|, depth, forest[1..]);
      BackwardSkipsTree(s, k, i, depth, forest[0]);
    }
  }

  lemma {:induction false} BackwardSkipsTree(s: string, k: Bracket, i: nat, depth: int, t: Tree)
    requires PlainTree(t) && Occurs(s, i, FlattenTree(t)) && depth >= 1
    ensures Backward(s, k, i + |FlattenTree(t)|, depth) == Backward(s, k, i, depth)
    decreases t, 0
  {
    match t
    case Leaf(c) =>
      assert s[i..i + 1] == [c];
      assert s[i] == c;
    case Group(kind, inner) =>
      GroupParts(s, i, kind, inner);
      BackwardSkips(s, k, i + 1, if kind == k then depth + 1 else depth, inner);
  }

  lemma {:induction false} StackSkips(s: string, i: nat, forest: seq<Tree>, end: nat)
    requires PlainForest(forest) && Occurs(s, i, Flatten(forest)) && end == i + |Flatten(forest)|
    ensures StackAt(s, end) == StackAt(s, i)
    decreases forest, 1
  {
    if forest != [] {
      OccursParts(s, i, FlattenTree(forest[0]), Flatten(forest[1..]));
      var middle := i + |FlattenTree(forest[0])|;
      StackSkipsTree(s, i, forest[0], middle);
      StackSkips(s, middle, forest[1..], end);
    }
  }

  lemma {:induction false} StackSkipsTree(s: string, i: nat, t: Tree, end: nat)
    requires PlainTree(t) && Occurs(s, i, FlattenTree(t)) && end == i + |FlattenTree(t)|
    ensures StackAt(s, end) == StackAt(s, i)
    decreases t, 0
  {
    match t
    case Leaf(c) =>
      StackIgnores(s, i, c);
    case Group(kind, inner) =>
      GroupParts(s, i, kind, inner);
      StackSkips(s, i + 1, inner, end - 1);
      StackOpensAndCloses(s, i, end, kind);
  }

  lemma StackIgnores(s: string, i: nat, c: char)
    requires Occurs(s, i, [c]) && OpenerKind(c).None? && CloserKind(c).None?
    ensures StackAt(s, i + 1) == StackAt(s, i)
  {
    assert s[i..i + 1] == [c];
    assert s[i] == c;
    assert StackAt(s, i + 1) == Push(StackAt(s, i), c, i);
  }

  lemma StackOpensAndCloses(s: string, open: nat, end: nat, kind: Bracket)
    requires open + 1 < end <= |s| && s[open] == Opener(kind) && s[end - 1] == Closer(kind)
    requires StackAt(s, end - 1) == StackAt(s, open + 1)
    ensures StackAt(s, end) == StackAt(s, open)
  {
    var stack := StackAt(s, open);
    assert StackAt(s, open + 1) == Push(stack, s[open], open) == stack + [Open(kind, open)];
    assert StackAt(s, end) == Push(stack + [Open(kind, open)], s[end - 1], end - 1);
  }

  // ---- All matchers name the same pair ----

  /**
   On a bracket pair, whatever surrounds it, the mixed-depth forward scan, the single-kind forward
   scan, the single-kind backward scan and the opener stack all name the other bracket.
   */
  lemma MatchersAgree(s: string, open: nat, close: nat, end: nat)
    requires IsPair(s, open, close) && close < end <= |s|
    ensures var k := OpenerKind(s[open]).value;
      && Forward(s, k, open + 1, end, 0) == Some(close)
      && Single(s, k, open, 0) == Some(close + 1)
      && Backward(s, k, close + 1, 0) == Some(open)
      && StackAt(s, close) == StackAt(s, open) + [Open(k, open)]
  {
    var k := OpenerKind(s[open]).value;
    var forest :| PlainForest(forest) && Flatten(forest) == s[open + 1..close];
    ForwardFinds(s, k, open, close, end, forest);
    SingleFinds(s, k, open, close, forest);
    BackwardFinds(s, k, open, close, forest);
    StackFinds(s, k, open, close, forest);
  }

  /** `forest` lies between an opener and a closer of kind `k`. */
  predicate Encloses(s: string, k: Bracket, open: nat, close: nat, forest: seq<Tree>) {
    && open < close < |s| && s[open] == Opener(k) && s[close] == Closer(k)
    && PlainForest(forest) && Flatten(forest) == s[open + 1..close]
  }

  lemma ForwardFinds(s: string, k: Bracket, open: nat, close: nat, end: nat, forest: seq<Tree>)
    requires Encloses(s, k, open, close, forest) && close < end <= |s|
    ensures Forward(s, k, open + 1, end, 0) == Some(close)
  {
    assert Occurs(s, open + 1, Flatten(forest));
    ForwardSkips(s, k, open + 1, end, 0, forest);
  }

  lemma SingleFinds(s: string, k: Bracket, open: nat, close: nat, forest: seq<Tree>)
    requires Encloses(s, k, open, close, forest)
    ensures Single(s, k, open, 0) == Some(close + 1)
  {
    assert Occurs(s, open + 1, Flatten(forest));
    SingleSkips(s, k, open + 1, 1, forest);
  }

  lemma BackwardFinds(s: string, k: Bracket, open: nat, close: nat, forest: seq<Tree>)
    requires Encloses(s, k, open, close, forest)
    ensures Backward(s, k, close + 1, 0) == Some(open)
  {
    assert Occurs(s, open + 1, Flatten(forest));
    BackwardSkips(s, k, open + 1, 1, forest);
  }

  lemma StackFinds(s: string, k: Bracket, open: nat, close: nat, forest: seq<Tree>)
    requires Encloses(s, k, open, close, forest)
    ensures StackAt(s, close) == StackAt(s, open) + [Open(k, open)]
  {
    assert Occurs(s, open + 1, Flatten(forest));
    StackSkips(s, open + 1, forest, close);
    assert StackAt(s, open + 1) == Push(StackAt(s, open), s[open], open);
  }

  lemma PairUnique(s: string, open: nat, close: nat, other: nat)
    requires IsPair(s, open, close) && IsPair(s, open, other)
    ensures close == other
  {
    MatchersAgree(s, open, close, |s|);
    MatchersAgree(s, open, other, |s|);
  }

  lemma PairInside(s: string, i: nat, part: string, open: nat, close: nat)
    requires Occurs(s, i, part) && IsPair(part, open, close)
    ensures IsPair(s, i + open, i + close)
  {
    var window := s[i..i + |part|];
    assert window[open] == s[i + open] && window[close] == s[i + close];
    SliceOfSlice(s, i, |part|, open + 1, close);
  }

  lemma SliceOfSlice(s: string, i: nat, n: nat, a: nat, b: nat)
    requires i + n <= |s| && a <= b <= n
    ensures s[i..i + n][a..b] == s[i + a..i + b]
  {
    var w := s[i..i + n];
    assert forall k | 0 <= k < b - a :: w[a..b][k] == w[a + k] == s[i + a + k];
    assert w[a..b] == s[i + a..i + b];
  }

  /** In well-nested text every opener and every closer belongs to a pair. */
  lemma {:induction false} ForestPairs(forest: seq<Tree>, n: nat) returns (open: nat, close: nat)
    requires PlainForest(forest) && n < |Flatten(forest)|
    requires OpenerKind(Flatten(forest)[n]).Some? || CloserKind(Flatten(forest)[n]).Some?
    ensures IsPair(Flatten(forest), open, close) && (n == open || n == close)
    decreases forest, 1
  {
    var first, rest := FlattenTree(forest[0]), Flatten(forest[1..]);
    assert Flatten(forest) == first + rest;
    if n < |first| {
      open, close := TreePairs(forest[0], n);
      PairInLeft(first, rest, open, close);
    } else {
      open, close := ForestPairs(forest[1..], n - |first|);
      PairInRight(first, rest, open, close);
      open, close := open + |first|, close + |first|;
    }
  }

  lemma PairInLeft(a: string, b: string, open: nat, close: nat)
    requires IsPair(a, open, close)
    ensures IsPair(a + b, open, close)
  {
    assert Occurs(a + b, 0, a);
    PairInside(a + b, 0, a, open, close);
  }

  lemma PairInRight(a: string, b: string, open: nat, close: nat)
    requires IsPair(b, open, close)
    ensures IsPair(a + b, open + |a|, close + |a|)
  {
    assert Occurs(a + b, |a|, b);
    PairInside(a + b, |a|, b, open, close);
  }

  lemma GroupIsPair(k: Bracket, inner: seq<Tree>)
    requires PlainForest(inner)
    ensures IsPair(FlattenTree(Group(k, inner)), 0, |Flatten(inner)| + 1)
  {
    var s, part := FlattenTree(Group(k, inner)), Flatten(inner);
    assert s[1..|part| + 1] == part;
    assert WellNested(part);
  }

  lemma PairInBrackets(o: string, part: string, c: string, open: nat, close: nat)
    requires IsPair(part, open, close) && |o| == 1
    ensures IsPair(o + part + c, open + 1, close + 1)
  {
    PairInRight(o, part, open, close);
    PairInLeft(o + part, c, open + 1, close + 1);
  }

  lemma {:induction false} TreePairs(t: Tree, n: nat) returns (open: nat, close: nat)
    requires PlainTree(t) && n < |FlattenTree(t)|
    requires OpenerKind(FlattenTree(t)[n]).Some? || CloserKind(FlattenTree(t)[n]).Some?
    ensures IsPair(FlattenTree(t), open, close) && (n == open || n == close)
    decreases t, 0
  {
    assert t.Group?;
    var o, part, c := [Opener(t.kind)], Flatten(t.inner), [Closer(t.kind)];
    if n == 0 || n == |part| + 1 {
      open, close := 0, |part| + 1;
      GroupIsPair(t.kind, t.inner);
    } else {
      assert part[n - 1] == FlattenTree(t)[n];
      open, close := ForestPairs(t.inner, n - 1);
      PairInBrackets(o, part, c, open, close);
      open, close := open + 1, close + 1;
    }
  }

  lemma EveryBracketPaired(s: string, n: nat) returns (open: nat, close: nat)
    requires WellNested(s) && n < |s|
    requires OpenerKind(s[n]).Some? || CloserKind(s[n]).Some?
    ensures IsPair(s, open, close) && (n == open || n == close)
  {
    var forest :| PlainForest(forest) && Flatten(forest) == s;
    open, close := ForestPairs(forest, n);
  }

  /** Off well-nested text they part ways: in `([)` the forward scans disagree about the first bracket. */
  lemma MatchersDisagreeUnbalanced()
    ensures Forward("([)", Round, 1, 3, 0) == None && Single("([)", Round, 0, 0) == Some(3)
    ensures StackAt("([)", 2) == [Open(Round, 0), Open(Square, 1)] && Backward("([)", Round, 3, 0) == Some(0)
  {
    var s := "([)";
    assert s[0] == '(' && s[1] == '[' && s[2] == ')';
    assert Forward(s, Round, 3, 3, 0) == None;
    assert Forward(s, Round, 2, 3, 1) == None;
    assert Single(s, Round, 2, 1) == Some(3);
    assert Single(s, Round, 1, 1) == Some(3);
    assert StackAt(s, 0) == [] && StackAt(s, 1) == [Open(Round, 0)];
    assert Backward(s, Round, 1, 1) == Some(0);
    assert Backward(s, Round, 2, 1) == Some(0);
  }
}
