/** Package `exports` and `imports` maps: pattern keys, condition selection and target validation. */
module PackageMaps {
  import opened Wrappers

  /** A JSON target; objects keep their members in order. */
  datatype Target =
    | Text(text: string)
    | List(items: seq<Target>)
    | Object(members: seq<Member>)
    | Scalar

  datatype Member = Member(key: string, value: Target)

  predicate DistinctKeys(members: seq<Member>) {
    forall i, j | 0 <= i < j < |members| :: members[i].key != members[j].key
  }

  // ---- Text helpers ----

  predicate EndsWith(s: string, suffix: string) {
    |suffix| <= |s| && s[|s| - |suffix|..] == suffix
  }

  /** Index of the first `c`, or the length when there is none. */
  function IndexOf(s: string, c: char): (n: nat)
    ensures n <= |s| && c !in s[..n]
    ensures n < |s| ==> s[n] == c
  {
    if s == [] || s[0] == c then 0
    else
      var n := 1 + IndexOf(s[1..], c);
      assert s[..n] == [s[0]] + s[1..][..n - 1];
      n
  }

  function Split(s: string, c: char): (parts: seq<string>)
    ensures parts != []
    decreases |s|
  {
    var n := IndexOf(s, c);
    if n == |s| then [s] else [s[..n]] + Split(s[n + 1..], c)
  }

  function Replace(s: string, c: char, r: string): string {
    if s == [] then [] else (if s[0] == c then r else [s[0]]) + Replace(s[1..], c, r)
  }

  // ---- Pattern keys ----

  /** Before and after the first star of a key. */
  function Prefix(key: string): string {
    key[..IndexOf(key, '*')]
  }

  function Suffix(key: string): string
    requires '*' in key
  {
    key[IndexOf(key, '*') + 1..]
  }

  /** What the star stands for: the requested key between prefix and suffix, empty when they overlap. */
  function Replacement(key: string, requested: string): string
    requires '*' in key
  {
    var lo, hi := |Prefix(key)|, |requested| - |Suffix(key)|;
    if lo <= hi <= |requested| then requested[lo..hi] else []
  }

  predicate Matches(key: string, lead: char, requested: string) {
    && '*' in key && key[0] == lead
    && Prefix(key) <= requested && EndsWith(requested, Suffix(key))
    && Replacement(key, requested) != []
  }

  /** The match found for one key. */
  datatype Match = Match(prefix: nat, length: nat, replacement: string, target: Target)

  predicate Outranks(a: Match, b: Match) {
    a.prefix > b.prefix || (a.prefix == b.prefix && a.length > b.length)
  }

  function MatchOf(m: Member, requested: string): Match
    requires '*' in m.key
  {
    Match(|Prefix(m.key)|, |m.key|, Replacement(m.key, requested), m.value)
  }

  function Substitute(target: Target, replacement: string): Target {
    match target
    case Text(s) => Text(Replace(s, '*', replacement))
    case List(items) =>
      List(seq(|items|, i requires 0 <= i < |items| => Substitute(items[i], replacement)))
    case Object(members) =>
      Object(seq(|members|, i requires 0 <= i < |members| =>
                   Member(members[i].key, Substitute(members[i].value, replacement))))
    case Scalar => Scalar
  }

  /** `m` is a matching member that no other matching member outranks. */
  predicate Wins(members: seq<Member>, lead: char, requested: string, m: Member) {
    && m in members && Matches(m.key, lead, requested)
    && forall k | k in members && Matches(k.key, lead, requested) ::
         !Outranks(MatchOf(k, requested), MatchOf(m, requested))
  }

  /** A pattern rebuilds the requested key. */
  lemma MatchRebuilds(key: string, lead: char, requested: string)
    requires Matches(key, lead, requested)
    ensures Prefix(key) + Replacement(key, requested) + Suffix(key) == requested
  {
  }

  /** Two matching keys of equal rank are the same key. */
  lemma EqualRankSameKey(a: string, b: string, lead: char, requested: string)
    requires Matches(a, lead, requested) && Matches(b, lead, requested)
    requires |Prefix(a)| == |Prefix(b)| && |a| == |b|
    ensures a == b
  {
    MatchParts(a, lead, requested);
    MatchParts(b, lead, requested);
  }

  /** A matching key is a beginning and an end of the requested key around its first star. */
  lemma MatchParts(key: string, lead: char, requested: string)
    requires Matches(key, lead, requested)
    ensures |Prefix(key)| <= |requested| && |key| - |Prefix(key)| - 1 <= |requested|
    ensures key == requested[..|Prefix(key)|] + ['*'] + requested[|requested| - (|key| - |Prefix(key)| - 1)..]
  {
    var n, suffix := |Prefix(key)|, Suffix(key);
    SplitAtStar(key, n);
    assert Prefix(key) == requested[..n];
    assert |suffix| == |key| - n - 1 && suffix == requested[|requested| - |suffix|..];
  }

  lemma SplitAtStar(key: string, n: nat)
    requires '*' in key && n == |Prefix(key)|
    ensures n < |key| && key == Prefix(key) + ['*'] + Suffix(key)
  {
    assert key == key[..n] + [key[n]] + key[n + 1..];
  }

  /** With distinct keys the winner is unique, so the order of the map cannot matter. */
  lemma WinnerUnique(members: seq<Member>, lead: char, requested: string, m: Member, k: Member)
    requires DistinctKeys(members)
    requires Wins(members, lead, requested, m) && Wins(members, lead, requested, k)
    ensures m == k
  {
    EqualRankSameKey(m.key, k.key, lead, requested);
    var i :| 0 <= i < |members| && members[i] == m;
    var j :| 0 <= j < |members| && members[j] == k;
  }

  lemma WinnerIgnoresOrder(
    members: seq<Member>, shuffled: seq<Member>, lead: char, requested: string, m: Member)
    requires multiset(members) == multiset(shuffled)
    ensures Wins(members, lead, requested, m) <==> Wins(shuffled, lead, requested, m)
  {
    SameMembers(members, shuffled);
  }

  /** The substituted target of a winning key, or nothing when no key matches. */
  ghost predicate IsPatternTarget(members: seq<Member>, lead: char, requested: string, r: Option<Target>) {
    match r
    case None => forall m | m in members :: !Matches(m.key, lead, requested)
    case Some(t) => exists m | Wins(members, lead, requested, m) :: t == Substitute(m.value, Replacement(m.key, requested))
  }

  /** What the pattern scan answers does not depend on the order of the map. */
  lemma PatternTargetIgnoresOrder(
    members: seq<Member>, shuffled: seq<Member>, lead: char, requested: string, r: Option<Target>, q: Option<Target>)
    requires DistinctKeys(members) && multiset(members) == multiset(shuffled)
    requires IsPatternTarget(members, lead, requested, r) && IsPatternTarget(shuffled, lead, requested, q)
    ensures r == q
  {
    SameMembers(members, shuffled);
    if r.Some? && q.Some? {
      var m :| Wins(members, lead, requested, m) && r.value == Substitute(m.value, Replacement(m.key, requested));
      var k :| Wins(shuffled, lead, requested, k) && q.value == Substitute(k.value, Replacement(k.key, requested));
      WinnerIgnoresOrder(members, shuffled, lead, requested, k);
      WinnerUnique(members, lead, requested, m, k);
    }
  }

  lemma SameMembers(members: seq<Member>, shuffled: seq<Member>)
    requires multiset(members) == multiset(shuffled)
    ensures forall x :: x in members <==> x in shuffled
  {
    forall x ensures x in members <==> x in shuffled {
      assert x in members <==> x in multiset(members);
      assert x in shuffled <==> x in multiset(shuffled);
    }
  }

  /** The pattern scan: the substituted target of the winning key, or nothing when none matches. */
  method PatternTarget(members: seq<Member>, lead: char, requested: string) returns (r: Option<Target>)
    ensures IsPatternTarget(members, lead, requested, r)
  {
    var best: Option<Match> := None;
    ghost var winner: Option<Member> := None;
    for i := 0 to |members|
      invariant best.None? ==> forall j | 0 <= j < i :: !Matches(members[j].key, lead, requested)
      invariant best.Some? ==>
                  && winner.Some? && winner.value in members[..i]
                  && Matches(winner.value.key, lead, requested)
                  && best.value == MatchOf(winner.value, requested)
                  && forall j | 0 <= j < i && Matches(members[j].key, lead, requested) ::
                       !Outranks(MatchOf(members[j], requested), best.value)
    {
      var key := members[i].key;
      if '*' !in key || key[0] != lead {
        continue;
      }
      var prefix, suffix := Prefix(key), Suffix(key);
      if !(prefix <= requested) || !EndsWith(requested, suffix) {
        continue;
      }
      var replacement := Replacement(key, requested);
      if replacement == [] {
        continue;
      }
      var found := Match(|prefix|, |key|, replacement, members[i].value);
      if best.None? || Outranks(found, best.value) {
        best := Some(found);
        winner := Some(members[i]);
      }
    }
    if best.None? {
      return None;
    }
    assert Wins(members, lead, requested, winner.value);
    return Some(Substitute(best.value.target, best.value.replacement));
  }

  // ---- Agreement with Node's PATTERN_KEY_COMPARE ----

  /** The key contains exactly one star. */
  predicate SingleStar(key: string) {
    '*' in key && '*' !in Suffix(key)
  }

  /** PATTERN_KEY_COMPARE puts `a` before `b`: longer base first, then longer key. */
  predicate ComparesBefore(a: string, b: string)
    requires '*' in a && '*' in b
  {
    var baseA, baseB := IndexOf(a, '*') + 1, IndexOf(b, '*') + 1;
    baseA > baseB || (baseA == baseB && |a| > |b|)
  }

  /** The match condition of PACKAGE_IMPORTS_EXPORTS_RESOLVE for an expansion key. */
  predicate NodeMatches(key: string, requested: string)
    requires '*' in key
  {
    var base, trailer := Prefix(key), Suffix(key);
    && base <= requested && requested != base
    && (trailer == [] || (EndsWith(requested, trailer) && |requested| >= |key|))
  }

  lemma MatchesLikeNode(key: string, lead: char, requested: string)
    requires '*' in key && key[0] == lead
    ensures Matches(key, lead, requested) <==> NodeMatches(key, requested)
  {
    assert key == Prefix(key) + ['*'] + Suffix(key);
  }

  /**
   For single-star keys the winner is the key Node's sorted scan reaches first: it matches there,
   and every other key that matches there compares after it.
   */
  lemma WinnerIsNodesFirst(members: seq<Member>, lead: char, requested: string, m: Member)
    requires DistinctKeys(members) && Wins(members, lead, requested, m)
    requires forall k | k in members && '*' in k.key :: SingleStar(k.key) && k.key[0] == lead
    ensures NodeMatches(m.key, requested)
    ensures forall k | k in members && k != m && '*' in k.key && NodeMatches(k.key, requested) ::
              ComparesBefore(m.key, k.key)
  {
    MatchesLikeNode(m.key, lead, requested);
    forall k | k in members && k != m && '*' in k.key && NodeMatches(k.key, requested)
      ensures ComparesBefore(m.key, k.key) {
      MatchesLikeNode(k.key, lead, requested);
      if |Prefix(k.key)| == |Prefix(m.key)| && |k.key| == |m.key| {
        WinnerUnique(members, lead, requested, m, k);
      }
    }
  }

  // ---- Condition selection ----

  /** The targets of a list, in order. */
  function ListTargets(items: seq<Target>, conditions: set<string>): seq<string>
    decreases items
  {
    if items == [] then []
    else ConditionTargets(items[0], conditions) + ListTargets(items[1..], conditions)
  }

  /** The first active condition that selects anything decides. */
  function FirstTargets(members: seq<Member>, conditions: set<string>): seq<string>
    decreases members
  {
    if members == [] then []
    else
      var m := members[0];
      var selected := if m.key in conditions then ConditionTargets(m.value, conditions) else [];
      if selected != [] then selected else FirstTargets(members[1..], conditions)
  }

  function ConditionTargets(target: Target, conditions: set<string>): seq<string>
    decreases target
  {
    match target
    case Text(s) => if s != [] then [s] else []
    case List(items) => ListTargets(items, conditions)
    case Object(members) => FirstTargets(members, conditions)
    case Scalar => []
  }

  function ReplaceAll(ss: seq<string>, c: char, r: string): seq<string> {
    seq(|ss|, i requires 0 <= i < |ss| => Replace(ss[i], c, r))
  }

  function SubstituteItems(items: seq<Target>, r: string): seq<Target> {
    seq(|items|, i requires 0 <= i < |items| => Substitute(items[i], r))
  }

  function SubstituteMembers(members: seq<Member>, r: string): seq<Member> {
    seq(|members|, i requires 0 <= i < |members| => Member(members[i].key, Substitute(members[i].value, r)))
  }

  lemma ReplaceNonEmpty(s: string, r: string)
    requires r != []
    ensures Replace(s, '*', r) == [] <==> s == []
  {
  }

  /** Substituting the star and then selecting conditions is the same as selecting and then substituting. */
  lemma {:induction false} SubstituteCommutes(target: Target, r: string, conditions: set<string>)
    requires r != []
    ensures ConditionTargets(Substitute(target, r), conditions)
            == ReplaceAll(ConditionTargets(target, conditions), '*', r)
    decreases target
  {
    match target
    case Text(s) => ReplaceNonEmpty(s, r);
    case List(items) =>
      assert Substitute(target, r) == List(SubstituteItems(items, r));
      ListSubstitutes(items, r, conditions);
    case Object(members) =>
      assert Substitute(target, r) == Object(SubstituteMembers(members, r));
      MembersSubstitute(members, r, conditions);
    case Scalar =>
  }

  lemma {:induction false} ListSubstitutes(items: seq<Target>, r: string, conditions: set<string>)
    requires r != []
    ensures ListTargets(SubstituteItems(items, r), conditions)
            == ReplaceAll(ListTargets(items, conditions), '*', r)
    decreases items
  {
    if items != [] {
      SubstituteCommutes(items[0], r, conditions);
      ListSubstitutes(items[1..], r, conditions);
      assert SubstituteItems(items, r)[1..] == SubstituteItems(items[1..], r);
    }
  }

  lemma {:induction false} MembersSubstitute(members: seq<Member>, r: string, conditions: set<string>)
    requires r != []
    ensures FirstTargets(SubstituteMembers(members, r), conditions)
            == ReplaceAll(FirstTargets(members, conditions), '*', r)
    decreases members
  {
    if members != [] {
      assert members[0].value < members[0];
      SubstituteCommutes(members[0].value, r, conditions);
      MembersSubstitute(members[1..], r, conditions);
      assert SubstituteMembers(members, r)[1..] == SubstituteMembers(members[1..], r);
    }
  }

  // ---- Target validation ----

  predicate BadSegment(segment: string) {
    segment == "" || segment == "." || segment == ".." || segment == "node_modules"
  }

  /** The targets `_validate_package_map_target` lets through. */
  predicate ValidTarget(target: string) {
    && '%' !in target && '?' !in target && '#' !in target
    && "./" <= target
    && forall segment | segment in Split(target[2..], '/') :: !BadSegment(segment)
  }

  /** Lexical path resolution: drop empty and dot segments, and pop one directory for each dot-dot. */
  function Normalize(base: seq<string>, segments: seq<string>): seq<string>
    decreases |segments|
  {
    if segments == [] then base
    else
      var s, rest := segments[0], segments[1..];
      if s == "" || s == "." then Normalize(base, rest)
      else if s == ".." then Normalize(if base == [] then [] else base[..|base| - 1], rest)
      else Normalize(base + [s], rest)
  }

  lemma {:induction false} NormalizePlain(base: seq<string>, segments: seq<string>)
    requires forall s | s in segments :: !BadSegment(s)
    ensures Normalize(base, segments) == base + segments
    decreases |segments|
  {
    if segments == [] {
      assert base + segments == base;
    } else {
      assert segments[0] in segments;
      NormalizePlain(base + [segments[0]], segments[1..]);
      assert base + segments == base + [segments[0]] + segments[1..];
    }
  }

  /** A validated target resolves, without popping, to a path strictly below the package root. */
  lemma ValidTargetStaysInside(root: seq<string>, target: string)
    requires ValidTarget(target)
    ensures root < Normalize(root, Split(target, '/'))
    ensures Normalize(root, Split(target, '/')) == root + Split(target[2..], '/')
    ensures "node_modules" !in Split(target[2..], '/')
  {
    var rest := Split(target[2..], '/');
    assert target == "./" + target[2..];
    assert target[0] == '.' && target[1] == '/';
    assert IndexOf(target, '/') == 1 by {
      assert IndexOf(target[1..], '/') == 0;
    }
    assert target[..1] == ".";
    assert Split(target, '/') == ["."] + rest;
    assert Normalize(root, ["."] + rest) == Normalize(root, rest) by {
      assert (["."] + rest)[1..] == rest;
    }
    NormalizePlain(root, rest);
  }

  /** Every accepted target of a matched pattern stays under the package root after substitution. */
  lemma AcceptedTargetsStayInside(
    root: seq<string>, target: Target, replacement: string, conditions: set<string>, accepted: string)
    requires replacement != []
    requires accepted in ConditionTargets(Substitute(target, replacement), conditions) && ValidTarget(accepted)
    ensures root < Normalize(root, Split(accepted, '/'))
    ensures exists raw :: raw in ConditionTargets(target, conditions) && accepted == Replace(raw, '*', replacement)
  {
    ValidTargetStaysInside(root, accepted);
    SubstituteCommutes(target, replacement, conditions);
    var raws := ConditionTargets(target, conditions);
    var i :| 0 <= i < |raws| && ReplaceAll(raws, '*', replacement)[i] == accepted;
    assert raws[i] in raws;
  }

  // ---- From an exports value to entry targets ----

  function ExportKey(subpath: string): string {
    if subpath == "" then "." else "./" + subpath
  }

  /** `t` is what the exports value offers for `key`: itself, an exact member, or the winning pattern. */
  ghost predicate Offers(exports: Target, key: string, t: Target) {
    match exports
    case Text(_) => key == "." && t == exports
    case List(_) => key == "." && t == exports
    case Object(members) =>
      if exists m | m in members :: m.key != "" && m.key[0] == '.' then
        if exists m | m in members :: m.key == key then exists m | m in members :: m.key == key && t == m.value
        else exists m | Wins(members, '.', key, m) :: t == Substitute(m.value, Replacement(m.key, key))
      else key == "." && t == exports
    case Scalar => false
  }

  /** `_exports_map_target`. */
  method ExportsMapTarget(exports: Target, subpath: string) returns (r: Option<Target>)
    ensures r.Some? ==> Offers(exports, ExportKey(subpath), r.value)
    ensures r.None? ==> forall t :: !Offers(exports, ExportKey(subpath), t)
  {
    var key := ExportKey(subpath);
    match exports
    case Scalar => return None;
    case Text(_) => return if key == "." then Some(exports) else None;
    case List(_) => return if key == "." then Some(exports) else None;
    case Object(members) =>
      if forall m | m in members :: m.key == "" || m.key[0] != '.' {
        return if key == "." then Some(exports) else None;
      }
      for i := 0 to |members|
        invariant forall j | 0 <= j < i :: members[j].key != key
      {
        if members[i].key == key {
          return Some(members[i].value);
        }
      }
      r := PatternTarget(members, '.', key);
  }

  /**
   The exports branch of `_package_entry_bases`: every selected target, or a refusal as soon as one
   of them is not a valid target.
   */
  method ExportTargets(exports: Target, subpath: string, conditions: set<string>)
    returns (r: Option<seq<string>>)
    ensures r.Some? ==>
              && (forall t | t in r.value :: ValidTarget(t))
              && ((exists t | Offers(exports, ExportKey(subpath), t) :: r.value == ConditionTargets(t, conditions))
                  || (r.value == [] && forall t :: !Offers(exports, ExportKey(subpath), t)))
    ensures r.None? ==>
              exists t | Offers(exports, ExportKey(subpath), t) ::
                exists x | x in ConditionTargets(t, conditions) :: !ValidTarget(x)
  {
    var target := ExportsMapTarget(exports, subpath);
    if target.None? {
      return Some([]);
    }
    var targets := ConditionTargets(target.value, conditions);
    for i := 0 to |targets|
      invariant forall j | 0 <= j < i :: ValidTarget(targets[j])
    {
      if !ValidTarget(targets[i]) {
        assert targets[i] in ConditionTargets(target.value, conditions);
        return None;
      }
    }
    return Some(targets);
  }
}
