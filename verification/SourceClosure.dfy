/**
 The work list that computes the closure of persistent runtime sources.  A node is a file together
 with its resolution mode; scanning a file and resolving a specifier are the tree's business.
 */
module SourceClosure {
  import opened Wrappers

  datatype ImportKind = Import | Require | Fork | Spawn

  datatype Specifier = Specifier(text: string, required: bool, kind: ImportKind)

  /** What the recognizers report about one source text. */
  datatype Scan = Scan(specifiers: seq<Specifier>, ambient: bool, requiresUrl: bool, urlRisk: bool)

  /**
   The candidate tree: its files, which of them are parsed, whether a file's controlling package
   scope is readable, the manifests of its enclosing directories, the scan of its text (none when
   it is unreadable or rejected), and how a specifier resolves (none when that is rejected).
   */
  datatype Tree = Tree(
    entrypoints: seq<string>,
    files: set<string>,
    parseable: string -> bool,
    scopeOk: string -> bool,
    manifests: string -> seq<string>,
    scan: string -> Option<Scan>,
    resolve: (string, Specifier, bool) -> Option<seq<string>>)

  datatype Node = Node(file: string, nodeMode: bool)

  datatype Refusal = EntrypointMissing | Unexpandable | AmbientLaunchState | WorkerUrlUnbound | EmptyClosure

  /** Manifests and resolution results are files of the tree. */
  ghost predicate WellFormed(tree: Tree) {
    && (forall f, m | m in tree.manifests(f) :: m in tree.files)
    && (forall f, sp, mode, g | tree.resolve(f, sp, mode).Some? && g in tree.resolve(f, sp, mode).value ::
          g in tree.files)
  }

  predicate Launches(kind: ImportKind) {
    kind == Fork || kind == Spawn
  }

  function ChildMode(n: Node, sp: Specifier): bool {
    n.nodeMode || sp.kind == Spawn
  }

  function Resolved(tree: Tree, n: Node, sp: Specifier): Option<seq<string>> {
    tree.resolve(n.file, sp, ChildMode(n, sp))
  }

  function Specifiers(tree: Tree, n: Node): seq<Specifier> {
    if tree.parseable(n.file) && tree.scan(n.file).Some? then tree.scan(n.file).value.specifiers else []
  }

  /** The node's scope, text and every specifier are accepted. */
  ghost predicate Expands(tree: Tree, n: Node) {
    tree.parseable(n.file) ==>
      && tree.scopeOk(n.file) && tree.scan(n.file).Some?
      && forall sp | sp in Specifiers(tree, n) :: Resolved(tree, n, sp).Some?
  }

  ghost predicate ManifestOf(tree: Tree, n: Node, c: Node) {
    tree.parseable(n.file) && c.file in tree.manifests(n.file) && c.nodeMode == n.nodeMode
  }

  ghost predicate ImportOf(tree: Tree, n: Node, sp: Specifier, c: Node) {
    && sp in Specifiers(tree, n)
    && Resolved(tree, n, sp).Some? && c.file in Resolved(tree, n, sp).value
    && c.nodeMode == ChildMode(n, sp)
  }

  ghost predicate Child(tree: Tree, n: Node, c: Node) {
    ManifestOf(tree, n, c) || exists sp :: ImportOf(tree, n, sp, c)
  }

  ghost predicate Entry(tree: Tree, n: Node) {
    n.file in tree.entrypoints && !n.nodeMode
  }

  // ---- Reachability ----

  /** A path from an entrypoint: every node is a child of its predecessor. */
  ghost predicate IsPath(tree: Tree, path: seq<Node>) {
    && path != [] && Entry(tree, path[0])
    && forall i | 0 < i < |path| :: Child(tree, path[i - 1], path[i])
  }

  ghost predicate Reachable(tree: Tree, n: Node) {
    exists path :: IsPath(tree, path) && path[|path| - 1] == n
  }

  lemma EntryReachable(tree: Tree, n: Node)
    requires Entry(tree, n)
    ensures Reachable(tree, n)
  {
    assert IsPath(tree, [n]) && [n][|[n]| - 1] == n;
  }

  lemma ChildReachable(tree: Tree, n: Node, c: Node)
    requires Reachable(tree, n) && Child(tree, n, c)
    ensures Reachable(tree, c)
  {
    var path :| IsPath(tree, path) && path[|path| - 1] == n;
    var longer := path + [c];
    assert forall i | 0 < i < |longer| :: Child(tree, longer[i - 1], longer[i]);
    assert IsPath(tree, longer) && longer[|longer| - 1] == c;
  }

  /** A closed set that holds every entrypoint holds every reachable node. */
  lemma {:induction false} ClosedHoldsPath(tree: Tree, closed: set<Node>, path: seq<Node>)
    requires IsPath(tree, path)
    requires forall n | Entry(tree, n) :: n in closed
    requires forall n, c | n in closed && Child(tree, n, c) :: c in closed
    ensures path[|path| - 1] in closed
    decreases |path|
  {
    if |path| > 1 {
      var init := path[..|path| - 1];
      ClosedHoldsPath(tree, closed, init);
      assert Child(tree, path[|path| - 2], path[|path| - 1]);
    }
  }

  /** One labelled edge of a path: through a manifest, or through a specifier. */
  datatype Edge = ViaManifest | ViaImport(specifier: Specifier)

  ghost predicate EdgeOf(tree: Tree, n: Node, via: Edge, c: Node) {
    match via
    case ViaManifest => ManifestOf(tree, n, c)
    case ViaImport(sp) => ImportOf(tree, n, sp, c)
  }

  predicate IsSpawn(via: Edge) {
    via.ViaImport? && via.specifier.kind == Spawn
  }

  /** A path with its edges: `via[i]` leads from `path[i]` to `path[i + 1]`. */
  ghost predicate IsLabelled(tree: Tree, path: seq<Node>, via: seq<Edge>) {
    && IsPath(tree, path) && |path| == |via| + 1
    && forall i | 0 <= i < |via| :: EdgeOf(tree, path[i], via[i], path[i + 1])
  }

  /** However a node is reached, it has node mode exactly when that path uses a spawn edge. */
  lemma {:induction false} NodeModeIffSpawn(tree: Tree, path: seq<Node>, via: seq<Edge>)
    requires IsLabelled(tree, path, via)
    ensures path[|path| - 1].nodeMode <==> exists i | 0 <= i < |via| :: IsSpawn(via[i])
    decreases |via|
  {
    if via != [] {
      var n := |via| - 1;
      assert EdgeOf(tree, path[n], via[n], path[n + 1]);
      NodeModeIffSpawn(tree, path[..n + 1], via[..n]);
      if i :| 0 <= i < n && IsSpawn(via[i]) {
        assert IsSpawn(via[..n][i]);
      }
      if i :| 0 <= i < n && IsSpawn(via[..n][i]) {
        assert IsSpawn(via[i]);
      }
    }
  }

  /** Every path has labels. */
  lemma {:induction false} PathHasLabels(tree: Tree, path: seq<Node>) returns (via: seq<Edge>)
    requires IsPath(tree, path)
    ensures IsLabelled(tree, path, via)
    decreases |path|
  {
    via := [];
    if |path| > 1 {
      var n := |path| - 2;
      var init := PathHasLabels(tree, path[..n + 1]);
      var last: Edge;
      if ManifestOf(tree, path[n], path[n + 1]) {
        last := ViaManifest;
      } else {
        assert Child(tree, path[n], path[n + 1]);
        var sp :| ImportOf(tree, path[n], sp, path[n + 1]);
        last := ViaImport(sp);
      }
      via := init + [last];
      forall i | 0 <= i < |via| ensures EdgeOf(tree, path[i], via[i], path[i + 1]) {
        if i < |init| {
          assert EdgeOf(tree, path[..n + 1][i], init[i], path[..n + 1][i + 1]);
        }
      }
    }
  }

  /** A labelled path to `file` that uses a spawn edge. */
  ghost predicate SpawnPath(tree: Tree, file: string, path: seq<Node>, via: seq<Edge>) {
    && IsLabelled(tree, path, via) && path[|path| - 1].file == file
    && exists i | 0 <= i < |via| :: IsSpawn(via[i])
  }

  /** A node-mode node is reachable exactly when some path to its file uses a spawn edge. */
  lemma NodeModeReachableIff(tree: Tree, file: string)
    ensures Reachable(tree, Node(file, true)) <==> exists path, via :: SpawnPath(tree, file, path, via)
  {
    if Reachable(tree, Node(file, true)) {
      var path :| IsPath(tree, path) && path[|path| - 1] == Node(file, true);
      var via := PathHasLabels(tree, path);
      NodeModeIffSpawn(tree, path, via);
      assert SpawnPath(tree, file, path, via);
    }
    if path, via :| SpawnPath(tree, file, path, via) {
      NodeModeIffSpawn(tree, path, via);
      assert path[|path| - 1] == Node(file, true);
    }
  }

  // ---- The work list ----

  ghost predicate Launching(tree: Tree, n: Node) {
    exists sp | sp in Specifiers(tree, n) :: Launches(sp.kind)
  }

  predicate Scanned(tree: Tree, n: Node) {
    tree.parseable(n.file) && tree.scan(n.file).Some?
  }

  predicate Ambient(tree: Tree, n: Node) {
    Scanned(tree, n) && tree.scan(n.file).value.ambient
  }

  predicate NeedsUrl(tree: Tree, n: Node) {
    Scanned(tree, n) && tree.scan(n.file).value.requiresUrl
  }

  predicate RisksUrl(tree: Tree, n: Node) {
    Scanned(tree, n) && tree.scan(n.file).value.urlRisk
  }

  /** The flags accumulated over the nodes of `seen`. */
  datatype Flags = Flags(launch: bool, ambient: bool, requiresUrl: bool, urlRisk: bool)

  ghost predicate FlagsOf(tree: Tree, seen: set<Node>, flags: Flags) {
    && (flags.launch <==> exists n | n in seen :: Launching(tree, n))
    && (flags.ambient <==> exists n | n in seen :: Ambient(tree, n))
    && (flags.requiresUrl <==> exists n | n in seen :: NeedsUrl(tree, n))
    && (flags.urlRisk <==> exists n | n in seen :: RisksUrl(tree, n))
  }

  /** `queue` is `queue0` with nothing but children of `n`, and all of them that are not seen. */
  ghost predicate Enqueued(tree: Tree, n: Node, seen: set<Node>, queue0: seq<Node>, queue: seq<Node>) {
    && (forall x | x in queue0 :: x in queue)
    && (forall x | x in queue :: x in queue0 || Child(tree, n, x))
    && (forall c | Child(tree, n, c) :: c in seen || c in queue)
  }

  ghost predicate Flagged(tree: Tree, n: Node, before: Flags, after: Flags) {
    && (after.launch <==> before.launch || Launching(tree, n))
    && (after.ambient <==> before.ambient || Ambient(tree, n))
    && (after.requiresUrl <==> before.requiresUrl || NeedsUrl(tree, n))
    && (after.urlRisk <==> before.urlRisk || RisksUrl(tree, n))
  }

  /** Append the manifests and resolved imports of `n` (none if it is not parsed), or find that it cannot be expanded. */
  method Expand(tree: Tree, n: Node, seen: set<Node>, queue0: seq<Node>, flags0: Flags)
    returns (ok: bool, queue: seq<Node>, flags: Flags)
    ensures ok <==> Expands(tree, n)
    ensures ok ==> Enqueued(tree, n, seen, queue0, queue) && Flagged(tree, n, flags0, flags)
  {
    queue, flags := queue0, flags0;
    if !tree.parseable(n.file) {
      return true, queue, flags;
    }
    if !tree.scopeOk(n.file) {
      return false, queue, flags;
    }
    var manifests := tree.manifests(n.file);
    for i := 0 to |manifests|
      invariant forall x | x in queue0 :: x in queue
      invariant forall x | x in queue :: x in queue0 || ManifestOf(tree, n, x)
      invariant forall j | 0 <= j < i :: Node(manifests[j], n.nodeMode) in queue
    {
      queue := queue + [Node(manifests[i], n.nodeMode)];
    }
    assert forall c | ManifestOf(tree, n, c) :: c in queue;
    var scan := tree.scan(n.file);
    if scan.None? {
      return false, queue, flags;
    }
    flags := Flags(flags.launch, flags.ambient || scan.value.ambient,
                   flags.requiresUrl || scan.value.requiresUrl, flags.urlRisk || scan.value.urlRisk);
    var specifiers := scan.value.specifiers;
    ghost var queue1 := queue;
    for i := 0 to |specifiers|
      invariant forall x | x in queue1 :: x in queue
      invariant forall x | x in queue :: x in queue1 || Child(tree, n, x)
      invariant forall j | 0 <= j < i :: Resolved(tree, n, specifiers[j]).Some?
      invariant forall j, c | 0 <= j < i && ImportOf(tree, n, specifiers[j], c) :: c in seen || c in queue
      invariant flags.launch <==> flags0.launch || exists j | 0 <= j < i :: Launches(specifiers[j].kind)
      invariant flags == flags0.(launch := flags.launch, ambient := flags.ambient,
                                 requiresUrl := flags.requiresUrl, urlRisk := flags.urlRisk)
      invariant flags.ambient == (flags0.ambient || scan.value.ambient)
      invariant flags.requiresUrl == (flags0.requiresUrl || scan.value.requiresUrl)
      invariant flags.urlRisk == (flags0.urlRisk || scan.value.urlRisk)
    {
      var sp := specifiers[i];
      flags := flags.(launch := flags.launch || Launches(sp.kind));
      var mode := ChildMode(n, sp);
      var resolved := tree.resolve(n.file, sp, mode);
      if resolved.None? {
        assert sp in Specifiers(tree, n) && Resolved(tree, n, sp).None?;
        return false, queue, flags;
      }
      queue := AddUnseen(tree, n, sp, resolved.value, seen, queue);
    }
    ok := true;
  }

  method AddUnseen(
    tree: Tree, n: Node, sp: Specifier, imported: seq<string>, seen: set<Node>, queue0: seq<Node>)
    returns (queue: seq<Node>)
    requires sp in Specifiers(tree, n) && Resolved(tree, n, sp) == Some(imported)
    ensures forall x | x in queue0 :: x in queue
    ensures forall x | x in queue :: x in queue0 || Child(tree, n, x)
    ensures forall c | ImportOf(tree, n, sp, c) :: c in seen || c in queue
  {
    queue := queue0;
    for i := 0 to |imported|
      invariant forall x | x in queue0 :: x in queue
      invariant forall x | x in queue :: x in queue0 || Child(tree, n, x)
      invariant forall j | 0 <= j < i ::
                  Node(imported[j], ChildMode(n, sp)) in seen || Node(imported[j], ChildMode(n, sp)) in queue
    {
      var c := Node(imported[i], ChildMode(n, sp));
      if c !in seen {
        assert ImportOf(tree, n, sp, c);
        queue := queue + [c];
      }
    }
  }

  ghost predicate EntrypointsPresent(tree: Tree) {
    forall e | e in tree.entrypoints :: e in tree.files
  }

  ghost predicate AllExpand(tree: Tree) {
    forall n | Reachable(tree, n) :: Expands(tree, n)
  }

  ghost predicate LaunchesSomewhere(tree: Tree) {
    exists n | Reachable(tree, n) :: Launching(tree, n)
  }

  ghost predicate AmbientSomewhere(tree: Tree) {
    exists n | Reachable(tree, n) :: Ambient(tree, n)
  }

  ghost predicate NeedsUrlSomewhere(tree: Tree) {
    exists n | Reachable(tree, n) :: NeedsUrl(tree, n)
  }

  ghost predicate RisksUrlSomewhere(tree: Tree) {
    exists n | Reachable(tree, n) :: RisksUrl(tree, n)
  }

  /**
   The verdict on a tree, in terms of reachability alone: no queue order appears in it.
   */
  ghost predicate VerdictIs(tree: Tree, r: Result<set<string>, Refusal>) {
    if !EntrypointsPresent(tree) then r == Failure(EntrypointMissing)
    else if !AllExpand(tree) then r == Failure(Unexpandable)
    else if LaunchesSomewhere(tree) && AmbientSomewhere(tree) then r == Failure(AmbientLaunchState)
    else if NeedsUrlSomewhere(tree) && RisksUrlSomewhere(tree) then r == Failure(WorkerUrlUnbound)
    else if tree.entrypoints == [] then r == Failure(EmptyClosure)
    else r.Success? && forall f :: f in r.value <==> exists mode :: Reachable(tree, Node(f, mode))
  }

  /** What the work list must have established about what it has seen and what is queued. */
  ghost predicate Frontier(tree: Tree, seen: set<Node>, queue: seq<Node>) {
    && (forall n | n in seen || n in queue :: Reachable(tree, n) && n.file in tree.files)
    && (forall n | Entry(tree, n) :: n in seen || n in queue)
    && (forall n | n in seen :: Expands(tree, n))
    && (forall n, c | n in seen && Child(tree, n, c) :: c in seen || c in queue)
  }

  lemma FrontierStart(tree: Tree)
    requires EntrypointsPresent(tree)
    ensures Frontier(tree, {}, EntryNodes(tree))
  {
    var queue := EntryNodes(tree);
    forall n | n in queue ensures Reachable(tree, n) && n.file in tree.files {
      var i :| 0 <= i < |queue| && queue[i] == n;
      assert Entry(tree, n);
      EntryReachable(tree, n);
    }
    forall n | Entry(tree, n) ensures n in queue {
      var i :| 0 <= i < |tree.entrypoints| && tree.entrypoints[i] == n.file;
      assert queue[i] == n;
    }
  }

  /** When the queue is empty, exactly the reachable nodes have been seen. */
  lemma FrontierDone(tree: Tree, seen: set<Node>)
    requires Frontier(tree, seen, [])
    ensures forall n :: n in seen <==> Reachable(tree, n)
    ensures AllExpand(tree)
  {
    forall n | Reachable(tree, n) ensures n in seen {
      var path :| IsPath(tree, path) && path[|path| - 1] == n;
      ClosedHoldsPath(tree, seen, path);
    }
  }

  lemma FrontierSkip(tree: Tree, seen: set<Node>, queue: seq<Node>)
    requires queue != [] && Frontier(tree, seen, queue) && queue[0] in seen
    ensures Frontier(tree, seen, queue[1..])
  {
    assert forall n | n in queue :: n == queue[0] || n in queue[1..];
  }

  lemma FrontierExpand(tree: Tree, seen: set<Node>, queue: seq<Node>, more: seq<Node>)
    requires WellFormed(tree) && queue != [] && Frontier(tree, seen, queue) && Expands(tree, queue[0])
    requires Enqueued(tree, queue[0], seen + {queue[0]}, queue[1..], more)
    ensures Frontier(tree, seen + {queue[0]}, more)
  {
    var n := queue[0];
    assert forall x | x in queue :: x == n || x in queue[1..];
    forall x | x in more ensures Reachable(tree, x) && x.file in tree.files {
      if x !in queue[1..] {
        ChildReachable(tree, n, x);
      }
    }
  }

  lemma FlagsAdd(tree: Tree, seen: set<Node>, n: Node, before: Flags, after: Flags)
    requires FlagsOf(tree, seen, before)
    requires Flagged(tree, n, before, after)
    ensures FlagsOf(tree, seen + {n}, after)
  {
  }

  function Nodes(tree: Tree): set<Node> {
    (set f | f in tree.files :: Node(f, true)) + (set f | f in tree.files :: Node(f, false))
  }

  /** The work list itself: every reachable node is seen once and expanded, or one cannot be. */
  method WorkList(tree: Tree, queue0: seq<Node>) returns (ok: bool, seen: set<Node>, flags: Flags)
    requires WellFormed(tree) && Frontier(tree, {}, queue0)
    ensures ok <==> AllExpand(tree)
    ensures ok ==> FlagsOf(tree, seen, flags) && forall n :: n in seen <==> Reachable(tree, n)
  {
    var queue := queue0;
    seen := {};
    flags := Flags(false, false, false, false);
    while queue != []
      invariant Frontier(tree, seen, queue) && FlagsOf(tree, seen, flags)
      decreases Nodes(tree) - seen, |queue|
    {
      var n := queue[0];
      if n in seen {
        FrontierSkip(tree, seen, queue);
        queue := queue[1..];
        continue;
      }
      var expanded, rest, after := Expand(tree, n, seen + {n}, queue[1..], flags);
      if !expanded {
        assert Reachable(tree, n);
        return false, seen, flags;
      }
      FrontierExpand(tree, seen, queue, rest);
      FlagsAdd(tree, seen, n, flags, after);
      assert n in Nodes(tree) - seen;
      seen, queue, flags := seen + {n}, rest, after;
    }
    FrontierDone(tree, seen);
    ok := true;
  }

  function EntryNodes(tree: Tree): seq<Node> {
    seq(|tree.entrypoints|, i requires 0 <= i < |tree.entrypoints| => Node(tree.entrypoints[i], false))
  }

  method QueueEntrypoints(tree: Tree) returns (ok: bool, queue: seq<Node>)
    ensures ok <==> EntrypointsPresent(tree)
    ensures ok ==> queue == EntryNodes(tree)
  {
    queue := [];
    for i := 0 to |tree.entrypoints|
      invariant |queue| == i
      invariant forall j | 0 <= j < i ::
                  queue[j] == Node(tree.entrypoints[j], false) && tree.entrypoints[j] in tree.files
    {
      if tree.entrypoints[i] !in tree.files {
        return false, queue;
      }
      queue := queue + [Node(tree.entrypoints[i], false)];
    }
    ok := true;
  }

  /**
   The work list terminates with exactly the verdict that reachability dictates: the closure of
   the entrypoints, or the first refusal that applies.
   */
  method RuntimeSourcePaths(tree: Tree) returns (r: Result<set<string>, Refusal>)
    requires WellFormed(tree)
    ensures VerdictIs(tree, r)
  {
    var present, queue := QueueEntrypoints(tree);
    if !present {
      return Failure(EntrypointMissing);
    }
    FrontierStart(tree);
    var ok, seen, flags := WorkList(tree, queue);
    if !ok {
      return Failure(Unexpandable);
    }
    FlagsMeanSomewhere(tree, seen, flags);
    if flags.launch && flags.ambient {
      return Failure(AmbientLaunchState);
    }
    if flags.requiresUrl && flags.urlRisk {
      return Failure(WorkerUrlUnbound);
    }
    SeenEmptyIff(tree, seen);
    if seen == {} {
      return Failure(EmptyClosure);
    }
    var paths := set n | n in seen :: n.file;
    FilesOfSeen(tree, seen, paths);
    return Success(paths);
  }

  lemma FlagsMeanSomewhere(tree: Tree, seen: set<Node>, flags: Flags)
    requires FlagsOf(tree, seen, flags) && forall n :: n in seen <==> Reachable(tree, n)
    ensures flags.launch <==> LaunchesSomewhere(tree)
    ensures flags.ambient <==> AmbientSomewhere(tree)
    ensures flags.requiresUrl <==> NeedsUrlSomewhere(tree)
    ensures flags.urlRisk <==> RisksUrlSomewhere(tree)
  {
  }

  lemma FilesOfSeen(tree: Tree, seen: set<Node>, paths: set<string>)
    requires forall n :: n in seen <==> Reachable(tree, n)
    requires paths == set n | n in seen :: n.file
    ensures forall f :: f in paths <==> exists mode :: Reachable(tree, Node(f, mode))
  {
    forall f ensures f in paths <==> exists mode :: Reachable(tree, Node(f, mode)) {
      if f in paths {
        var n :| n in seen && n.file == f;
        assert Reachable(tree, Node(f, n.nodeMode));
      }
      if mode :| Reachable(tree, Node(f, mode)) {
        assert Node(f, mode) in seen;
      }
    }
  }

  lemma ReachableFromEntry(tree: Tree, n: Node)
    requires Reachable(tree, n)
    ensures tree.entrypoints != []
  {
    var path :| IsPath(tree, path) && path[|path| - 1] == n;
    assert Entry(tree, path[0]);
  }

  lemma SeenEmptyIff(tree: Tree, seen: set<Node>)
    requires forall n :: n in seen <==> Reachable(tree, n)
    ensures seen == {} <==> tree.entrypoints == []
  {
    if tree.entrypoints != [] {
      EntryReachable(tree, Node(tree.entrypoints[0], false));
      assert Node(tree.entrypoints[0], false) in seen;
    }
    if n :| n in seen {
      ReachableFromEntry(tree, n);
    }
  }
}
