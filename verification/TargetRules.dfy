/**
 What is selected from a target, what a star is replaced by, and which targets are valid, in terms
 of the target and its text alone.
 */
module TargetRules {
  import opened Wrappers
  import opened PackageMaps

  // ---- Condition selection ----

  /**
   The path of positions leads to a non-empty text through list items and members with active keys,
   each of them the first active member from which any such text is reached.
   */
  ghost predicate Chosen(target: Target, path: seq<nat>, conditions: set<string>)
    decreases target
  {
    match target
    case Text(s) => path == [] && s != ""
    case List(items) => path != [] && path[0] < |items| && Chosen(items[path[0]], path[1..], conditions)
    case Object(members) =>
      && path != [] && path[0] < |members| && members[path[0]].key in conditions
      && Chosen(members[path[0]].value, path[1..], conditions)
      && forall j | 0 <= j < path[0] && members[j].key in conditions ::
           forall p :: !Chosen(members[j].value, p, conditions)
    case Scalar => false
  }

  /** The text at the end of a path. */
  function TextAt(target: Target, path: seq<nat>): Option<string>
    decreases |path|
  {
    if path == [] then if target.Text? then Some(target.text) else None
    else if target.List? && path[0] < |target.items| then TextAt(target.items[path[0]], path[1..])
    else if target.Object? && path[0] < |target.members| then TextAt(target.members[path[0]].value, path[1..])
    else None
  }

  /** `p` comes before `q`: the first position where they differ decides. */
  predicate ComesBefore(p: seq<nat>, q: seq<nat>)
    decreases |p|
  {
    p != [] && q != [] && (p[0] < q[0] || (p[0] == q[0] && ComesBefore(p[1..], q[1..])))
  }

  predicate InOrder(paths: seq<seq<nat>>) {
    forall i, j | 0 <= i < j < |paths| :: ComesBefore(paths[i], paths[j])
  }

  /** These are all the chosen paths, in order, and the texts they lead to. */
  ghost predicate Selects(target: Target, conditions: set<string>, paths: seq<seq<nat>>, texts: seq<string>) {
    && |paths| == |texts| && InOrder(paths)
    && (forall i | 0 <= i < |paths| :: Chosen(target, paths[i], conditions) && TextAt(target, paths[i]) == Some(texts[i]))
    && forall p | Chosen(target, p, conditions) :: p in paths
  }

  /** Chosen paths from the k-th item or member on, when they are put behind it. */
  function Under(k: nat, paths: seq<seq<nat>>): seq<seq<nat>> {
    seq(|paths|, i requires 0 <= i < |paths| => [k] + paths[i])
  }

  lemma UnderInOrder(k: nat, paths: seq<seq<nat>>)
    requires InOrder(paths)
    ensures InOrder(Under(k, paths))
  {
    forall i, j | 0 <= i < j < |paths| ensures ComesBefore(Under(k, paths)[i], Under(k, paths)[j]) {
      assert Under(k, paths)[i][1..] == paths[i] && Under(k, paths)[j][1..] == paths[j];
    }
  }

  /** Everything selected comes from a path, and every path is selected, once and in order. */
  lemma {:induction false} SelectionRules(target: Target, conditions: set<string>) returns (paths: seq<seq<nat>>)
    ensures Selects(target, conditions, paths, ConditionTargets(target, conditions))
    decreases target, 1, 0
  {
    match target
    case Text(s) =>
      paths := if s != [] then [[]] else [];
    case List(items) =>
      paths := ItemPaths(target, items, conditions, 0);
    case Object(members) =>
      paths := MemberPaths(target, members, conditions, 0);
    case Scalar =>
      paths := [];
  }

  /** The paths through the items from the k-th on. */
  ghost predicate SelectsFrom(
    target: Target, conditions: set<string>, k: nat, paths: seq<seq<nat>>, texts: seq<string>)
  {
    && |paths| == |texts| && InOrder(paths)
    && (forall i | 0 <= i < |paths| ::
          paths[i] != [] && k <= paths[i][0]
          && Chosen(target, paths[i], conditions) && TextAt(target, paths[i]) == Some(texts[i]))
    && forall p | Chosen(target, p, conditions) && p != [] && k <= p[0] :: p in paths
  }

  lemma {:induction false} ItemPaths(target: Target, items: seq<Target>, conditions: set<string>, k: nat)
    returns (paths: seq<seq<nat>>)
    requires target == List(items) && k <= |items|
    ensures SelectsFrom(target, conditions, k, paths, ListTargets(items[k..], conditions))
    decreases target, 0, |items| - k
  {
    if k == |items| {
      paths := [];
    } else {
      var first := SelectionRules(items[k], conditions);
      var rest := ItemPaths(target, items, conditions, k + 1);
      paths := Under(k, first) + rest;
      assert items[k..][1..] == items[k + 1..];
      UnderInOrder(k, first);
      ItemsJoin(target, items, conditions, k, first, rest);
    }
  }

  lemma JoinedInOrder(k: nat, here: seq<seq<nat>>, rest: seq<seq<nat>>)
    requires InOrder(here) && InOrder(rest)
    requires forall i | 0 <= i < |here| :: here[i] != [] && here[i][0] == k
    requires forall i | 0 <= i < |rest| :: rest[i] != [] && k < rest[i][0]
    ensures InOrder(here + rest)
  {
    var paths := here + rest;
    forall i, j | 0 <= i < j < |paths| ensures ComesBefore(paths[i], paths[j]) {
      if j < |here| {
        assert paths[i] == here[i] && paths[j] == here[j];
      } else if i < |here| {
        assert paths[i] == here[i] && paths[j] == rest[j - |here|];
      } else {
        assert paths[i] == rest[i - |here|] && paths[j] == rest[j - |here|];
      }
    }
  }

  lemma JoinedLead(
    target: Target, items: seq<Target>, conditions: set<string>, k: nat, first: seq<seq<nat>>, texts: seq<string>, i: nat)
    requires target == List(items) && k < |items| && i < |first|
    requires Selects(items[k], conditions, first, texts)
    ensures Chosen(target, [k] + first[i], conditions) && TextAt(target, [k] + first[i]) == Some(texts[i])
  {
    assert ([k] + first[i])[1..] == first[i];
  }

  lemma JoinedReached(
    target: Target, items: seq<Target>, conditions: set<string>, k: nat, first: seq<seq<nat>>, texts: seq<string>,
    rest: seq<seq<nat>>, more: seq<string>, p: seq<nat>)
    requires target == List(items) && k < |items|
    requires Selects(items[k], conditions, first, texts) && SelectsFrom(target, conditions, k + 1, rest, more)
    requires Chosen(target, p, conditions) && p != [] && k <= p[0]
    ensures p in Under(k, first) + rest
  {
    if p[0] == k {
      var i :| 0 <= i < |first| && first[i] == p[1..];
      assert Under(k, first)[i] == p;
    }
  }

  lemma ItemsJoin(
    target: Target, items: seq<Target>, conditions: set<string>, k: nat, first: seq<seq<nat>>, rest: seq<seq<nat>>)
    requires target == List(items) && k < |items| && InOrder(Under(k, first))
    requires Selects(items[k], conditions, first, ConditionTargets(items[k], conditions))
    requires SelectsFrom(target, conditions, k + 1, rest, ListTargets(items[k + 1..], conditions))
    ensures SelectsFrom(target, conditions, k, Under(k, first) + rest,
                        ConditionTargets(items[k], conditions) + ListTargets(items[k + 1..], conditions))
  {
    var texts, more := ConditionTargets(items[k], conditions), ListTargets(items[k + 1..], conditions);
    var here, paths, all := Under(k, first), Under(k, first) + rest, texts + more;
    JoinedInOrder(k, here, rest);
    forall i | 0 <= i < |paths|
      ensures paths[i] != [] && k <= paths[i][0]
      ensures Chosen(target, paths[i], conditions) && TextAt(target, paths[i]) == Some(all[i])
    {
      if i < |here| {
        JoinedLead(target, items, conditions, k, first, texts, i);
      } else {
        assert paths[i] == rest[i - |here|] && all[i] == more[i - |texts|];
      }
    }
    forall p | Chosen(target, p, conditions) && p != [] && k <= p[0] ensures p in paths {
      JoinedReached(target, items, conditions, k, first, texts, rest, more, p);
    }
  }

  /** No active member before the k-th reaches anything. */
  ghost predicate NothingBefore(members: seq<Member>, conditions: set<string>, k: nat)
    requires k <= |members|
  {
    forall j | 0 <= j < k && members[j].key in conditions :: forall p :: !Chosen(members[j].value, p, conditions)
  }

  lemma {:induction false} MemberPaths(target: Target, members: seq<Member>, conditions: set<string>, k: nat)
    returns (paths: seq<seq<nat>>)
    requires target == Object(members) && k <= |members| && NothingBefore(members, conditions, k)
    ensures Selects(target, conditions, paths, FirstTargets(members[k..], conditions))
    decreases target, 0, |members| - k
  {
    if k == |members| {
      paths := [];
    } else {
      assert members[k..][1..] == members[k + 1..] && members[k..][0] == members[k];
      assert members[k].value < members[k] && members[k] in members;
      var first := [];
      if members[k].key in conditions {
        first := SelectionRules(members[k].value, conditions);
      }
      if first != [] {
        paths := Under(k, first);
        UnderInOrder(k, first);
        MemberDecides(target, members, conditions, k, first);
      } else {
        paths := MemberPaths(target, members, conditions, k + 1);
      }
    }
  }

  lemma MemberDecides(target: Target, members: seq<Member>, conditions: set<string>, k: nat, first: seq<seq<nat>>)
    requires target == Object(members) && k < |members| && NothingBefore(members, conditions, k)
    requires members[k].key in conditions && first != [] && InOrder(Under(k, first))
    requires Selects(members[k].value, conditions, first, ConditionTargets(members[k].value, conditions))
    ensures Selects(target, conditions, Under(k, first), ConditionTargets(members[k].value, conditions))
  {
    var here, texts := Under(k, first), ConditionTargets(members[k].value, conditions);
    forall i | 0 <= i < |here|
      ensures Chosen(target, here[i], conditions) && TextAt(target, here[i]) == Some(texts[i])
    {
      MemberLeads(target, members, conditions, k, first[i]);
    }
    forall p | Chosen(target, p, conditions) ensures p in here {
      MemberIsFirst(target, members, conditions, k, first[0], p);
      var i :| 0 <= i < |first| && first[i] == p[1..];
      assert here[i] == p;
    }
  }

  /** A chosen path goes through the first active member that reaches something. */
  lemma MemberIsFirst(target: Target, members: seq<Member>, conditions: set<string>, k: nat, q: seq<nat>, p: seq<nat>)
    requires target == Object(members) && k < |members| && NothingBefore(members, conditions, k)
    requires members[k].key in conditions && Chosen(members[k].value, q, conditions) && Chosen(target, p, conditions)
    ensures p != [] && p[0] == k && Chosen(members[k].value, p[1..], conditions)
  {
    if k < p[0] {
      EarlierReachesNothing(target, members, conditions, k, q, p);
    } else if p[0] < k {
      ReachesAfterAll(target, members, conditions, k, p);
    }
  }

  lemma EarlierReachesNothing(
    target: Target, members: seq<Member>, conditions: set<string>, k: nat, q: seq<nat>, p: seq<nat>)
    requires target == Object(members) && Chosen(target, p, conditions) && k < p[0] && members[k].key in conditions
    ensures !Chosen(members[k].value, q, conditions)
  {
  }

  lemma ReachesAfterAll(target: Target, members: seq<Member>, conditions: set<string>, k: nat, p: seq<nat>)
    requires target == Object(members) && Chosen(target, p, conditions) && p[0] < k <= |members|
    ensures !NothingBefore(members, conditions, k)
  {
    assert members[p[0]].key in conditions && Chosen(members[p[0]].value, p[1..], conditions);
  }

  lemma MemberLeads(target: Target, members: seq<Member>, conditions: set<string>, k: nat, q: seq<nat>)
    requires target == Object(members) && k < |members| && NothingBefore(members, conditions, k)
    requires members[k].key in conditions && Chosen(members[k].value, q, conditions)
    ensures Chosen(target, [k] + q, conditions) && TextAt(target, [k] + q) == TextAt(members[k].value, q)
  {
    assert ([k] + q)[1..] == q;
  }

  // ---- Replacing and splitting ----

  function Join(parts: seq<string>, between: string): string
    requires parts != []
  {
    if |parts| == 1 then parts[0] else parts[0] + between + Join(parts[1..], between)
  }

  /** Splitting cuts a text at every such character, and at no other place. */
  lemma {:induction false} SplitRules(s: string, c: char)
    ensures Join(Split(s, c), [c]) == s && forall part | part in Split(s, c) :: c !in part
    decreases |s|
  {
    var n := IndexOf(s, c);
    if n < |s| {
      SplitRules(s[n + 1..], c);
      assert s == s[..n] + [c] + s[n + 1..];
      assert Split(s, c)[1..] == Split(s[n + 1..], c);
    }
  }

  /** Replacing puts the replacement where splitting cuts. */
  lemma {:induction false} ReplaceRules(s: string, c: char, r: string)
    ensures Replace(s, c, r) == Join(Split(s, c), r)
    decreases |s|
  {
    var n := IndexOf(s, c);
    if n == |s| {
      ReplaceNothing(s, c, r);
      assert s[..n] == s;
    } else {
      var rest := s[n + 1..];
      ReplaceRules(rest, c, r);
      ReplaceFirst(s, c, r, n, rest);
      assert Split(s, c) == [s[..n]] + Split(rest, c);
      assert Split(s, c)[1..] == Split(rest, c);
    }
  }

  lemma {:induction false} ReplaceNothing(s: string, c: char, r: string)
    requires c !in s
    ensures Replace(s, c, r) == s
    decreases |s|
  {
    if s != [] {
      ReplaceNothing(s[1..], c, r);
      assert s == [s[0]] + s[1..];
    }
  }

  lemma {:induction false} ReplaceFirst(s: string, c: char, r: string, n: nat, rest: string)
    requires n < |s| && c !in s[..n] && s[n] == c && rest == s[n + 1..]
    ensures Replace(s, c, r) == s[..n] + r + Replace(rest, c, r)
    decreases n
  {
    if n > 0 {
      assert s[..n][0] == s[0] && s[..n] == [s[0]] + s[1..][..n - 1];
      assert s[1..][n - 1] == s[n] && s[1..][n..] == rest;
      ReplaceFirst(s[1..], c, r, n - 1, rest);
    } else {
      assert s[1..] == rest && s[..0] == [];
    }
  }

  // ---- Valid targets ----

  predicate PlainSegments(segments: seq<string>) {
    forall i | 0 <= i < |segments| ::
      segments[i] != "" && segments[i] != "." && segments[i] != ".." && segments[i] != "node_modules"
  }

  /** The characters and segments that no valid target has. */
  lemma ValidTargetRules(target: string)
    ensures ValidTarget(target) <==>
            && '%' !in target && '?' !in target && '#' !in target
            && |target| >= 2 && target[0] == '.' && target[1] == '/' && PlainSegments(Split(target[2..], '/'))
  {
    LeadRules(target);
    if "./" <= target {
      SegmentRules(Split(target[2..], '/'));
    }
  }

  lemma SegmentRules(segments: seq<string>)
    ensures (forall segment | segment in segments :: !BadSegment(segment)) <==> PlainSegments(segments)
  {
    forall i | 0 <= i < |segments| ensures segments[i] in segments {}
    if forall segment | segment in segments :: !BadSegment(segment) {
      forall i | 0 <= i < |segments| ensures !BadSegment(segments[i]) {}
    }
  }

  lemma LeadRules(target: string)
    ensures "./" <= target <==> |target| >= 2 && target[0] == '.' && target[1] == '/'
  {
    if |target| >= 2 {
      assert target[..2] == [target[0], target[1]];
    }
  }

  /** The key asked for: a single dot for the package itself, else the subpath behind a dot and a slash. */
  lemma ExportKeyRules(subpath: string)
    ensures if subpath == "" then ExportKey(subpath) == "."
            else |ExportKey(subpath)| == |subpath| + 2 && ExportKey(subpath)[0] == '.' && ExportKey(subpath)[1] == '/'
                 && ExportKey(subpath)[2..] == subpath
  {
  }

  // ---- Patterns ----

  /** The key is `before`, a star and `after`; the requested key has `middle` in place of the star. */
  predicate Fits(key: string, requested: string, before: string, middle: string, after: string) {
    && key == before + ['*'] + after && '*' !in before
    && requested == before + middle + after && middle != ""
  }

  /** A key matches exactly when the requested key is the key with something in place of its first star. */
  lemma MatchRules(key: string, lead: char, requested: string, before: string, middle: string, after: string)
    ensures Fits(key, requested, before, middle, after) && key[0] == lead ==>
              Matches(key, lead, requested) && Prefix(key) == before && Replacement(key, requested) == middle
    ensures Matches(key, lead, requested) ==>
              key[0] == lead && Fits(key, requested, Prefix(key), Replacement(key, requested), Suffix(key))
  {
    if Fits(key, requested, before, middle, after) {
      FirstStar(key, before, after);
      assert requested[|before|..|before| + |middle|] == middle;
      assert requested[|requested| - |after|..] == after;
    }
    if Matches(key, lead, requested) {
      SplitAtStar(key, |Prefix(key)|);
      MatchRebuilds(key, lead, requested);
    }
  }

  lemma {:induction false} FirstStar(key: string, before: string, after: string)
    requires key == before + ['*'] + after && '*' !in before
    ensures '*' in key && IndexOf(key, '*') == |before| && Prefix(key) == before && Suffix(key) == after
    decreases |before|
  {
    assert key[|before|] == '*';
    if before != [] {
      assert key[0] == before[0] && before[0] in before;
      assert key[1..] == before[1..] + ['*'] + after;
      assert forall c | c in before[1..] :: c in before;
      FirstStar(key[1..], before[1..], after);
    }
  }

  /** Among the matching keys the longest beginning wins, then the longest key. */
  lemma WinnerRules(members: seq<Member>, lead: char, requested: string, m: Member)
    ensures Wins(members, lead, requested, m) <==>
            && m in members && Matches(m.key, lead, requested)
            && forall k | k in members && Matches(k.key, lead, requested) ::
                 || IndexOf(k.key, '*') < IndexOf(m.key, '*')
                 || (IndexOf(k.key, '*') == IndexOf(m.key, '*') && |k.key| <= |m.key|)
  {
    forall k: Member | '*' in k.key && '*' in m.key
      ensures Outranks(MatchOf(k, requested), MatchOf(m, requested)) <==>
              !(|| IndexOf(k.key, '*') < IndexOf(m.key, '*')
                || (IndexOf(k.key, '*') == IndexOf(m.key, '*') && |k.key| <= |m.key|))
    {
    }
  }

  /** Substituting keeps the shape of a target and replaces every star of its texts. */
  lemma {:induction false} SubstituteRules(target: Target, r: string, path: seq<nat>)
    ensures TextAt(Substitute(target, r), path) ==
            match TextAt(target, path) case None => None case Some(s) => Some(Join(Split(s, '*'), r))
    decreases |path|
  {
    if path == [] {
      if target.Text? {
        ReplaceRules(target.text, '*', r);
      }
    } else if target.List? && path[0] < |target.items| {
      SubstituteRules(target.items[path[0]], r, path[1..]);
    } else if target.Object? && path[0] < |target.members| {
      SubstituteRules(target.members[path[0]].value, r, path[1..]);
    }
  }
}
