/** Where the four bracket scans agree on arbitrary text, well nested or not. */
module DelimiterLaws {
  import opened Wrappers
  import opened Delimiters

  // ---- The two single-kind scans never disagree ----

  function Weight(k: Bracket, c: char): int {
    if c == Opener(k) then 1 else if c == Closer(k) then -1 else 0
  }

  /** Openers minus closers of one kind between two positions. */
  function Net(s: string, k: Bracket, i: nat, j: nat): int
    requires i <= j <= |s|
    decreases j - i
  {
    if i == j then 0 else Net(s, k, i, j - 1) + Weight(k, s[j - 1])
  }

  lemma {:induction false} NetSplit(s: string, k: Bracket, i: nat, m: nat, j: nat)
    requires i <= m <= j <= |s|
    ensures Net(s, k, i, j) == Net(s, k, i, m) + Net(s, k, m, j)
    decreases j - m
  {
    if m < j {
      NetSplit(s, k, i, m, j - 1);
    }
  }

  lemma NetFirst(s: string, k: Bracket, i: nat, j: nat)
    requires i < j <= |s|
    ensures Net(s, k, i, j) == Weight(k, s[i]) + Net(s, k, i + 1, j)
  {
    NetSplit(s, k, i, i + 1, j);
    assert Net(s, k, i, i + 1) == Net(s, k, i, i) + Weight(k, s[i]);
  }

  /** Scanning forward from `i` with `depth` open, the count first reaches zero at the closer `c`. */
  ghost predicate ClosesFirst(s: string, k: Bracket, i: nat, depth: int, c: nat) {
    && i <= c < |s| && s[c] == Closer(k) && depth + Net(s, k, i, c) == 1
    && forall j: nat {:trigger OpenAfter(s, k, i, depth, j)} | i <= j <= c :: OpenAfter(s, k, i, depth, j)
  }

  predicate OpenAfter(s: string, k: Bracket, i: nat, depth: int, j: nat)
    requires i <= j <= |s|
  {
    depth + Net(s, k, i, j) >= 1
  }

  lemma ClosesFirstStep(s: string, k: Bracket, i: nat, depth: int, c: nat)
    requires i < c < |s| && depth >= 1
    ensures ClosesFirst(s, k, i, depth, c) <==> ClosesFirst(s, k, i + 1, depth + Weight(k, s[i]), c)
  {
    var next, i1: nat := depth + Weight(k, s[i]), i + 1;
    NetFirst(s, k, i, c);
    if ClosesFirst(s, k, i, depth, c) {
      forall j: nat | i1 <= j <= c ensures OpenAfter(s, k, i1, next, j) {
        NetFirst(s, k, i, j);
        assert OpenAfter(s, k, i, depth, j);
      }
    }
    if ClosesFirst(s, k, i1, next, c) {
      forall j: nat | i <= j <= c ensures OpenAfter(s, k, i, depth, j) {
        if i < j {
          NetFirst(s, k, i, j);
          assert OpenAfter(s, k, i1, next, j);
        }
      }
    }
  }

  lemma {:induction false} SingleIff(s: string, k: Bracket, i: nat, depth: int, c: nat)
    requires i <= |s| && depth >= 1
    ensures Single(s, k, i, depth) == Some(c + 1) <==> ClosesFirst(s, k, i, depth, c)
    decreases |s| - i
  {
    if i < |s| {
      var next := depth + Weight(k, s[i]);
      assert Net(s, k, i, i) == 0;
      if c <= i || c >= |s| {
        SingleIsBeyond(s, k, i, depth);
      } else {
        ClosesFirstStep(s, k, i, depth, c);
        if next >= 1 {
          SingleIff(s, k, i + 1, next, c);
        } else {
          assert ClosesFirst(s, k, i + 1, next, c) ==> OpenAfter(s, k, i + 1, next, i + 1);
        }
      }
    }
  }

  lemma {:induction false} SingleIsBeyond(s: string, k: Bracket, i: nat, depth: int)
    requires i <= |s|
    ensures Single(s, k, i, depth).Some? ==> i < Single(s, k, i, depth).value <= |s|
    ensures i < |s| && Single(s, k, i, depth) == Some(i + 1) ==> s[i] == Closer(k) && depth == 1
    decreases |s| - i
  {
    if i < |s| {
      SingleIsBeyond(s, k, i + 1, depth + 1);
      SingleIsBeyond(s, k, i + 1, depth - 1);
      SingleIsBeyond(s, k, i + 1, depth);
    }
  }

  /** Scanning back from `i` with `depth` open, the count first reaches zero at the opener `o`. */
  ghost predicate OpensFirst(s: string, k: Bracket, i: nat, depth: int, o: nat) {
    && o < i <= |s| && s[o] == Opener(k) && depth - Net(s, k, o + 1, i) == 1
    && forall j: nat {:trigger OpenBefore(s, k, i, depth, j)} | o < j <= i :: OpenBefore(s, k, i, depth, j)
  }

  predicate OpenBefore(s: string, k: Bracket, i: nat, depth: int, j: nat)
    requires j <= i <= |s|
  {
    depth - Net(s, k, j, i) >= 1
  }

  lemma OpensFirstStep(s: string, k: Bracket, i: nat, depth: int, o: nat)
    requires o + 1 < i <= |s| && depth >= 1
    ensures OpensFirst(s, k, i, depth, o) <==> OpensFirst(s, k, i - 1, depth - Weight(k, s[i - 1]), o)
  {
    var next, i1: nat := depth - Weight(k, s[i - 1]), i - 1;
    assert Net(s, k, o + 1, i) == Net(s, k, o + 1, i - 1) + Weight(k, s[i - 1]);
    if OpensFirst(s, k, i, depth, o) {
      forall j: nat | o < j <= i1 ensures OpenBefore(s, k, i1, next, j) {
        assert OpenBefore(s, k, i, depth, j);
      }
    }
    if OpensFirst(s, k, i1, next, o) {
      forall j: nat | o < j <= i ensures OpenBefore(s, k, i, depth, j) {
        if j < i {
          assert OpenBefore(s, k, i1, next, j);
        }
      }
    }
  }

  lemma {:induction false} BackwardIff(s: string, k: Bracket, i: nat, depth: int, o: nat)
    requires i <= |s| && depth >= 1
    ensures Backward(s, k, i, depth) == Some(o) <==> OpensFirst(s, k, i, depth, o)
    decreases i
  {
    if i > 0 {
      var next := depth - Weight(k, s[i - 1]);
      assert Net(s, k, i, i) == 0;
      if o + 1 >= i {
        BackwardIsBehind(s, k, i, depth);
      } else {
        OpensFirstStep(s, k, i, depth, o);
        if next >= 1 {
          BackwardIff(s, k, i - 1, next, o);
        } else {
          assert OpensFirst(s, k, i - 1, next, o) ==> OpenBefore(s, k, i - 1, next, i - 1);
        }
      }
    }
  }

  lemma {:induction false} BackwardIsBehind(s: string, k: Bracket, i: nat, depth: int)
    requires i <= |s|
    ensures Backward(s, k, i, depth).Some? ==> Backward(s, k, i, depth).value < i
    ensures i > 0 && Backward(s, k, i, depth) == Some(i - 1) ==> s[i - 1] == Opener(k) && depth == 1
    decreases i
  {
    if i > 0 {
      BackwardIsBehind(s, k, i - 1, depth + 1);
      BackwardIsBehind(s, k, i - 1, depth - 1);
      BackwardIsBehind(s, k, i - 1, depth);
    }
  }

  lemma {:induction false} BackwardNamesOpener(s: string, k: Bracket, i: nat, depth: int)
    requires i <= |s| && Backward(s, k, i, depth).Some?
    ensures Backward(s, k, i, depth).value < i && s[Backward(s, k, i, depth).value] == Opener(k)
    decreases i
  {
    if s[i - 1] == Closer(k) {
      BackwardNamesOpener(s, k, i - 1, depth + 1);
    } else if s[i - 1] != Opener(k) {
      BackwardNamesOpener(s, k, i - 1, depth);
    } else if depth != 1 {
      BackwardNamesOpener(s, k, i - 1, depth - 1);
    }
  }

  /** On any text at all, the single-kind scans name the same partners. */
  lemma SingleKindScansAgree(s: string, k: Bracket, o: nat, c: nat)
    requires o < c < |s| && s[o] == Opener(k) && s[c] == Closer(k)
    ensures Single(s, k, o, 0) == Some(c + 1) <==> Backward(s, k, c + 1, 0) == Some(o)
  {
    SingleIff(s, k, o + 1, 1, c);
    BackwardIff(s, k, c, 1, o);
    var from: nat := o + 1;
    assert Single(s, k, o, 0) == Single(s, k, o + 1, 1) && Backward(s, k, c + 1, 0) == Backward(s, k, c, 1);
    if ClosesFirst(s, k, o + 1, 1, c) {
      forall j: nat | o < j <= c ensures OpenBefore(s, k, c, 1, j) {
        NetSplit(s, k, o + 1, j, c);
        assert OpenAfter(s, k, o + 1, 1, j);
      }
    }
    if OpensFirst(s, k, c, 1, o) {
      forall j: nat | from <= j <= c ensures OpenAfter(s, k, from, 1, j) {
        NetSplit(s, k, o + 1, j, c);
        assert OpenBefore(s, k, c, 1, j);
      }
    }
  }

  // ---- When the stack and the mixed scan see a well-nested pair ----

  /** The stack drops the closer at `j`: there is nothing to match, or something else on top. */
  predicate IsIgnored(s: string, j: nat)
    requires j < |s|
  {
    CloserKind(s[j]).Some? && Push(StackAt(s, j), s[j], j) == StackAt(s, j)
  }

  /** Every closer between the two positions is matched by the stack. */
  predicate NoneIgnored(s: string, i: nat, j: nat)
    requires i <= j <= |s|
  {
    forall m: nat {:trigger IsIgnored(s, m)} | i <= m < j :: !IsIgnored(s, m)
  }

  lemma StackStep(s: string, i: nat)
    requires i < |s|
    ensures StackAt(s, i + 1) == Push(StackAt(s, i), s[i], i)
  {
  }

  /** Openers on the stack are older than the position, in order. */
  lemma {:induction false} StackOrdered(s: string, i: nat)
    requires i <= |s|
    ensures forall m | 0 <= m < |StackAt(s, i)| :: StackAt(s, i)[m].index < i
    decreases i
  {
    if i > 0 {
      StackOrdered(s, i - 1);
    }
  }

  /** An opener once popped never comes back: the stack that held it at both ends held it throughout. */
  lemma {:induction false} StackHeld(s: string, base: seq<Open>, i: nat, m: nat, j: nat)
    requires i <= m <= j <= |s| && base != [] && base[|base| - 1].index < i
    requires base <= StackAt(s, j)
    ensures base <= StackAt(s, m)
    decreases j - m
  {
    if m < j {
      StackHeld(s, base, i, m + 1, j);
      StackStep(s, m);
      HeldBefore(base, StackAt(s, m), s[m], m);
    }
  }

  lemma HeldBefore(base: seq<Open>, before: seq<Open>, c: char, m: nat)
    requires base != [] && base[|base| - 1].index < m && base <= Push(before, c, m)
    ensures base <= before
  {
    var after := Push(before, c, m);
    if OpenerKind(c).Some? {
      assert after[|after| - 1].index == m;
      assert |base| <= |before|;
      assert base == after[..|base|] == before[..|base|];
    }
  }

  /** The stack is the same at both ends, and in between it matches every closer. */
  ghost predicate Balanced(s: string, base: seq<Open>, i: nat, j: nat) {
    && i <= j <= |s| && base != [] && base[|base| - 1].index < i
    && StackAt(s, i) == base == StackAt(s, j) && NoneIgnored(s, i, j)
  }

  /** A balanced stretch is well nested. */
  lemma {:induction false} BalancedIsNested(s: string, base: seq<Open>, i: nat, j: nat)
    requires Balanced(s, base, i, j)
    ensures WellNested(s[i..j])
    decreases j - i
  {
    if i == j {
      assert PlainForest([]) && Flatten([]) == s[i..j];
    } else if OpenerKind(s[i]).Some? {
      var m := BalancedGroup(s, base, i, j);
      BalancedIsNested(s, base + [Open(OpenerKind(s[i]).value, i)], i + 1, m);
      BalancedIsNested(s, base, m + 1, j);
      GroupThenRest(s, OpenerKind(s[i]).value, i, m, j);
    } else {
      BalancedLeaf(s, base, i, j);
      BalancedIsNested(s, base, i + 1, j);
      LeafThenRest(s, i, j);
    }
  }

  lemma BalancedLeaf(s: string, base: seq<Open>, i: nat, j: nat)
    requires Balanced(s, base, i, j) && i < j && OpenerKind(s[i]).None?
    ensures CloserKind(s[i]).None? && Balanced(s, base, i + 1, j)
  {
    StackStep(s, i);
    StackHeld(s, base, i, i + 1, j);
    assert !IsIgnored(s, i);
  }

  lemma BalancedGroup(s: string, base: seq<Open>, i: nat, j: nat) returns (m: nat)
    requires Balanced(s, base, i, j) && i < j && OpenerKind(s[i]).Some?
    ensures i < m < j && s[m] == Closer(OpenerKind(s[i]).value)
    ensures Balanced(s, base + [Open(OpenerKind(s[i]).value, i)], i + 1, m) && Balanced(s, base, m + 1, j)
  {
    var top := Open(OpenerKind(s[i]).value, i);
    StackStep(s, i);
    m := PoppedFrom(s, base, top, i + 1, j);
    StackStep(s, m);
    var deeper := base + [top];
    assert deeper[|deeper| - 1] == top;
  }

  /** The closer that pops the opener at `i`, if the stack is back to `base` by `j`. */
  lemma {:induction false} PoppedFrom(s: string, base: seq<Open>, top: Open, i: nat, j: nat) returns (m: nat)
    requires i <= j <= |s| && base != [] && top.index < i && base + [top] <= StackAt(s, i) && StackAt(s, j) == base
    requires base[|base| - 1].index < top.index
    ensures i <= m < j && s[m] == Closer(top.kind)
    ensures StackAt(s, m) == base + [top] && StackAt(s, m + 1) == base
    decreases j - i
  {
    StackStep(s, i);
    if base + [top] <= StackAt(s, i + 1) {
      m := PoppedFrom(s, base, top, i + 1, j);
    } else {
      m := i;
      PoppedStep(base, top, StackAt(s, i), s[i], i);
    }
  }

  lemma PrefixOfShorter(a: seq<Open>, b: seq<Open>)
    requires a <= b && |a| < |b|
    ensures a <= b[..|b| - 1]
  {
    assert b[..|b| - 1][..|a|] == b[..|a|];
  }

  lemma PoppedStep(base: seq<Open>, top: Open, before: seq<Open>, c: char, i: nat)
    requires base + [top] <= before && !(base + [top] <= Push(before, c, i))
    ensures before == base + [top] && Push(before, c, i) == base && c == Closer(top.kind)
  {
    var deeper, after := base + [top], Push(before, c, i);
    assert after == before[..|before| - 1];
    if |deeper| < |before| {
      PrefixOfShorter(deeper, before);
    }
    assert deeper[|deeper| - 1] == top;
    assert deeper[..|base|] == base;
  }

  lemma ConsForest(t: Tree, rest: seq<Tree>)
    requires PlainTree(t) && PlainForest(rest)
    ensures WellNested(FlattenTree(t) + Flatten(rest))
  {
    var all := [t] + rest;
    assert all[0] == t && all[1..] == rest;
    assert PlainForest(all);
    assert Flatten(all) == FlattenTree(t) + Flatten(rest);
  }

  lemma LeafThenRest(s: string, i: nat, j: nat)
    requires i < j <= |s| && OpenerKind(s[i]).None? && CloserKind(s[i]).None? && WellNested(s[i + 1..j])
    ensures WellNested(s[i..j])
  {
    var rest :| PlainForest(rest) && Flatten(rest) == s[i + 1..j];
    ConsForest(Leaf(s[i]), rest);
    assert s[i..j] == [s[i]] + s[i + 1..j];
  }

  lemma GroupSlice(s: string, i: nat, m: nat, j: nat)
    requires i < m < j <= |s|
    ensures s[i..j] == [s[i]] + s[i + 1..m] + [s[m]] + s[m + 1..j]
  {
  }

  lemma GroupThenRest(s: string, k: Bracket, i: nat, m: nat, j: nat)
    requires i < m < j <= |s| && s[i] == Opener(k) && s[m] == Closer(k)
    requires WellNested(s[i + 1..m]) && WellNested(s[m + 1..j])
    ensures WellNested(s[i..j])
  {
    var inner :| PlainForest(inner) && Flatten(inner) == s[i + 1..m];
    var rest :| PlainForest(rest) && Flatten(rest) == s[m + 1..j];
    ConsForest(Group(k, inner), rest);
    GroupSlice(s, i, m, j);
    assert FlattenTree(Group(k, inner)) == [s[i]] + s[i + 1..m] + [s[m]];
  }

  /**
   Where the stack ignores no closer in between, a well-nested pair is exactly what the stack sees:
   the opener on top of what was there before.
   */
  lemma StackFindsIff(s: string, k: Bracket, o: nat, c: nat)
    requires o < c < |s| && s[o] == Opener(k) && s[c] == Closer(k) && NoneIgnored(s, o + 1, c)
    ensures StackAt(s, c) == StackAt(s, o) + [Open(k, o)] <==> IsPair(s, o, c)
  {
    StackStep(s, o);
    var base := StackAt(s, o) + [Open(k, o)];
    assert base[|base| - 1].index == o;
    if StackAt(s, c) == base {
      assert Balanced(s, base, o + 1, c);
      BalancedIsNested(s, base, o + 1, c);
    }
    if IsPair(s, o, c) {
      MatchersAgree(s, o, c, |s|);
    }
  }

  lemma {:induction false} ForwardIsAhead(s: string, k: Bracket, i: nat, end: nat, depth: nat)
    requires end <= |s|
    ensures Forward(s, k, i, end, depth).Some? ==> i <= Forward(s, k, i, end, depth).value
    ensures i < end && Forward(s, k, i, end, depth) == Some(i) ==> depth == 0
    decreases end - i
  {
    if i < end {
      ForwardIsAhead(s, k, i + 1, end, depth + 1);
      ForwardIsAhead(s, k, i + 1, end, depth);
      if depth > 0 {
        ForwardIsAhead(s, k, i + 1, end, depth - 1);
      }
    }
  }

  /** The mixed scan's depth is the height of the stack, as long as the stack matches every closer. */
  predicate Tracks(base: seq<Open>, stack: seq<Open>, depth: nat) {
    base <= stack && |stack| == |base| + depth
  }

  lemma TracksStep(base: seq<Open>, stack: seq<Open>, k: Bracket, c: char, i: nat, depth: nat)
    requires base != [] && base[|base| - 1].kind == k && Tracks(base, stack, depth)
    requires CloserKind(c).Some? ==> Push(stack, c, i) != stack
    ensures OpenerKind(c).Some? ==> Tracks(base, Push(stack, c, i), depth + 1)
    ensures CloserKind(c).Some? && depth > 0 ==> Tracks(base, Push(stack, c, i), depth - 1)
    ensures CloserKind(c).Some? && depth == 0 ==> CloserKind(c) == Some(k)
    ensures OpenerKind(c).None? && CloserKind(c).None? ==> Tracks(base, Push(stack, c, i), depth)
  {
    if depth == 0 {
      assert stack == base;
    } else {
      PrefixOfShorter(base, stack);
    }
  }

  lemma {:induction false} ForwardTracks(
    s: string, k: Bracket, base: seq<Open>, i: nat, c: nat, end: nat, depth: nat)
    requires i <= c < end <= |s| && NoneIgnored(s, i, c) && Forward(s, k, i, end, depth) == Some(c)
    requires base != [] && base[|base| - 1].kind == k && Tracks(base, StackAt(s, i), depth)
    ensures StackAt(s, c) == base
    decreases c - i
  {
    ForwardIsAhead(s, k, i, end, depth);
    if i < c {
      assert !IsIgnored(s, i);
      StackStep(s, i);
      TracksStep(base, StackAt(s, i), k, s[i], i, depth);
      if OpenerKind(s[i]).Some? {
        ForwardTracks(s, k, base, i + 1, c, end, depth + 1);
      } else if CloserKind(s[i]).None? {
        ForwardTracks(s, k, base, i + 1, c, end, depth);
      } else if depth > 0 {
        ForwardTracks(s, k, base, i + 1, c, end, depth - 1);
      }
    }
  }

  /** The same for the mixed scan. */
  lemma ForwardFindsIff(s: string, k: Bracket, o: nat, c: nat, end: nat)
    requires o < c < end <= |s| && s[o] == Opener(k) && s[c] == Closer(k) && NoneIgnored(s, o + 1, c)
    ensures Forward(s, k, o + 1, end, 0) == Some(c) <==> IsPair(s, o, c)
  {
    StackStep(s, o);
    var base := StackAt(s, o) + [Open(k, o)];
    if Forward(s, k, o + 1, end, 0) == Some(c) {
      ForwardTracks(s, k, base, o + 1, c, end, 0);
      StackFindsIff(s, k, o, c);
    }
    if IsPair(s, o, c) {
      MatchersAgree(s, o, c, end);
    }
  }

  /** Off well-nested text they can agree on what is no pair: all four on the round brackets of `(])`. */
  lemma AgreementOffNesting(s: string)
    requires |s| == 3 && s[0] == '(' && s[1] == ']' && s[2] == ')'
    ensures Forward(s, Round, 1, 3, 0) == Some(2) && Single(s, Round, 0, 0) == Some(3)
    ensures Backward(s, Round, 3, 0) == Some(0) && StackAt(s, 2) == StackAt(s, 0) + [Open(Round, 0)]
    ensures IsIgnored(s, 1) && !IsPair(s, 0, 2)
  {
    StackStep(s, 0);
    StackStep(s, 1);
    assert Single(s, Round, 2, 1) == Some(3);
    assert Backward(s, Round, 1, 1) == Some(0);
    LoneCloserIsNotNested(s[1..2]);
  }

  lemma LoneCloserIsNotNested(s: string)
    requires |s| == 1 && CloserKind(s[0]).Some?
    ensures !WellNested(s)
  {
    if WellNested(s) {
      var open, close := EveryBracketPaired(s, 0);
    }
  }
}
