/** The verdict on a tree in terms of its files, scans and specifiers alone. */
module ClosureRules {
  import opened Wrappers
  import opened SourceClosure

  /** The specifiers that count: those of a parsed file whose scan is accepted. */
  function SpecifiersOf(tree: Tree, file: string): seq<Specifier> {
    if !tree.parseable(file) then []
    else match tree.scan(file) case None => [] case Some(scan) => scan.specifiers
  }

  // ---- Reachability ----

  /** A set of nodes that holds the entrypoints, manifests and imports. */
  ghost predicate IsClosed(tree: Tree, holds: Node -> bool) {
    && (forall file | file in tree.entrypoints :: holds(Node(file, false)))
    && (forall file, mode, manifest | holds(Node(file, mode)) && tree.parseable(file) && manifest in tree.manifests(file) ::
          holds(Node(manifest, mode)))
    && (forall file, mode, sp, other, nodeMode: bool {:trigger holds(Node(file, mode)), sp in SpecifiersOf(tree, file), holds(Node(other, nodeMode))}
          | holds(Node(file, mode)) && sp in SpecifiersOf(tree, file) && nodeMode == (mode || sp.kind == Spawn)
            && tree.resolve(file, sp, nodeMode).Some? && other in tree.resolve(file, sp, nodeMode).value ::
          holds(Node(other, nodeMode)))
  }

  lemma {:induction false} ClosedHolds(tree: Tree, holds: Node -> bool, path: seq<Node>)
    requires IsClosed(tree, holds) && IsPath(tree, path)
    ensures holds(path[|path| - 1])
    decreases |path|
  {
    var n := |path| - 1;
    if n == 0 {
      assert path[0] == Node(path[0].file, false);
    } else {
      var init := path[..n];
      ClosedHolds(tree, holds, init);
      assert Child(tree, path[n - 1], path[n]);
      ChildHolds(tree, holds, path[n - 1], path[n]);
    }
  }

  lemma ChildHolds(tree: Tree, holds: Node -> bool, n: Node, c: Node)
    requires IsClosed(tree, holds) && holds(n) && Child(tree, n, c)
    ensures holds(c)
  {
    assert n == Node(n.file, n.nodeMode) && c == Node(c.file, c.nodeMode);
    if !ManifestOf(tree, n, c) {
      var sp :| ImportOf(tree, n, sp, c);
      assert sp in SpecifiersOf(tree, n.file);
    }
  }

  /** The reachable nodes are the least closed set. */
  lemma ReachableIsLeastClosed(tree: Tree, holds: Node -> bool)
    ensures IsClosed(tree, holds) ==> forall n | Reachable(tree, n) :: holds(n)
    ensures (forall n :: holds(n) <==> Reachable(tree, n)) ==> IsClosed(tree, holds)
  {
    if IsClosed(tree, holds) {
      forall n | Reachable(tree, n) ensures holds(n) {
        var path :| IsPath(tree, path) && path[|path| - 1] == n;
        ClosedHolds(tree, holds, path);
      }
    }
    if forall n :: holds(n) <==> Reachable(tree, n) {
      ReachableIsClosed(tree, holds);
    }
  }

  lemma ReachableIsClosed(tree: Tree, holds: Node -> bool)
    requires forall n :: holds(n) <==> Reachable(tree, n)
    ensures IsClosed(tree, holds)
  {
    forall file | file in tree.entrypoints ensures holds(Node(file, false)) {
      EntryReachable(tree, Node(file, false));
    }
    forall file, mode, manifest | holds(Node(file, mode)) && tree.parseable(file) && manifest in tree.manifests(file)
      ensures holds(Node(manifest, mode))
    {
      ChildReachable(tree, Node(file, mode), Node(manifest, mode));
    }
    forall file, mode, sp, other, nodeMode: bool
      | holds(Node(file, mode)) && sp in SpecifiersOf(tree, file) && nodeMode == (mode || sp.kind == Spawn)
        && tree.resolve(file, sp, nodeMode).Some? && other in tree.resolve(file, sp, nodeMode).value
      ensures holds(Node(other, nodeMode))
    {
      assert ImportOf(tree, Node(file, mode), sp, Node(other, nodeMode));
      ChildReachable(tree, Node(file, mode), Node(other, nodeMode));
    }
  }

  // ---- Verdicts ----

  /** Some reachable file has a specifier of this kind. */
  ghost predicate HasSpecifier(tree: Tree, kind: ImportKind) {
    exists n, sp {:trigger Reachable(tree, n), sp in SpecifiersOf(tree, n.file)}
      | Reachable(tree, n) && sp in SpecifiersOf(tree, n.file) :: sp.kind == kind
  }

  /** Some reachable file is scanned with this outcome. */
  ghost predicate HasScan(tree: Tree, shows: Scan -> bool) {
    exists n | Reachable(tree, n) ::
      tree.parseable(n.file) && tree.scan(n.file).Some? && shows(tree.scan(n.file).value)
  }

  /** Scope, scan and each specifier of every reachable parsed file are accepted. */
  ghost predicate AllAccepted(tree: Tree) {
    forall n | Reachable(tree, n) && tree.parseable(n.file) ::
      && tree.scopeOk(n.file) && tree.scan(n.file).Some?
      && forall sp | sp in tree.scan(n.file).value.specifiers ::
           tree.resolve(n.file, sp, n.nodeMode || sp.kind == Spawn).Some?
  }

  lemma AcceptedIff(tree: Tree)
    ensures AllExpand(tree) <==> AllAccepted(tree)
  {
    forall n ensures Expands(tree, n) <==>
                     (tree.parseable(n.file) ==>
                        && tree.scopeOk(n.file) && tree.scan(n.file).Some?
                        && forall sp | sp in tree.scan(n.file).value.specifiers ::
                             tree.resolve(n.file, sp, n.nodeMode || sp.kind == Spawn).Some?)
    {
      forall sp ensures Resolved(tree, n, sp) == tree.resolve(n.file, sp, n.nodeMode || sp.kind == Spawn) {}
    }
  }

  lemma LaunchesIff(tree: Tree)
    ensures LaunchesSomewhere(tree) <==> HasSpecifier(tree, Fork) || HasSpecifier(tree, Spawn)
  {
    forall n ensures Specifiers(tree, n) == SpecifiersOf(tree, n.file) {}
    if LaunchesSomewhere(tree) {
      var n :| Reachable(tree, n) && Launching(tree, n);
      var sp :| sp in Specifiers(tree, n) && Launches(sp.kind);
      assert sp in SpecifiersOf(tree, n.file) && (sp.kind == Fork || sp.kind == Spawn);
    }
    if HasSpecifier(tree, Fork) {
      LaunchesByKind(tree, Fork);
    }
    if HasSpecifier(tree, Spawn) {
      LaunchesByKind(tree, Spawn);
    }
  }

  lemma LaunchesByKind(tree: Tree, kind: ImportKind)
    requires HasSpecifier(tree, kind) && (kind == Fork || kind == Spawn)
    ensures LaunchesSomewhere(tree)
  {
    var n, sp :| Reachable(tree, n) && sp in SpecifiersOf(tree, n.file) && sp.kind == kind;
    assert sp in Specifiers(tree, n) && Launches(sp.kind);
    assert Launching(tree, n);
  }

  /** No reachable file with ambient launch state goes with one that forks or spawns. */
  ghost predicate LaunchUnbound(tree: Tree) {
    HasScan(tree, (scan: Scan) => scan.ambient) && (HasSpecifier(tree, Fork) || HasSpecifier(tree, Spawn))
  }

  ghost predicate UrlUnbound(tree: Tree) {
    HasScan(tree, (scan: Scan) => scan.requiresUrl) && HasScan(tree, (scan: Scan) => scan.urlRisk)
  }

  /** Which of the refusals applies first, and the closure when none does. */
  lemma VerdictRules(tree: Tree, r: Result<set<string>, Refusal>)
    requires VerdictIs(tree, r)
    ensures r == Failure(EntrypointMissing) <==> exists file :: file in tree.entrypoints && file !in tree.files
    ensures r == Failure(Unexpandable) <==> EntrypointsPresent(tree) && !AllAccepted(tree)
    ensures r == Failure(AmbientLaunchState) <==> EntrypointsPresent(tree) && AllAccepted(tree) && LaunchUnbound(tree)
    ensures r == Failure(WorkerUrlUnbound) <==>
            EntrypointsPresent(tree) && AllAccepted(tree) && !LaunchUnbound(tree) && UrlUnbound(tree)
    ensures r.Success? ==> !LaunchUnbound(tree) && !UrlUnbound(tree) && tree.entrypoints != []
    ensures r.Success? ==> forall file :: file in r.value <==> Reachable(tree, Node(file, false)) || Reachable(tree, Node(file, true))
  {
    AcceptedIff(tree);
    LaunchesIff(tree);
    ScansIff(tree);
  }

  lemma ScansIff(tree: Tree)
    ensures AmbientSomewhere(tree) <==> HasScan(tree, (scan: Scan) => scan.ambient)
    ensures NeedsUrlSomewhere(tree) <==> HasScan(tree, (scan: Scan) => scan.requiresUrl)
    ensures RisksUrlSomewhere(tree) <==> HasScan(tree, (scan: Scan) => scan.urlRisk)
  {
  }
}
