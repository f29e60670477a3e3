/** The main results about every history of the budget ledger. */
module BudgetTheorems {
  import opened Wrappers
  import opened Amounts
  import opened BudgetModel
  import opened BudgetSpec
  import opened BudgetCore
  import opened BudgetQueries
  import opened BudgetSettlement
  import opened BudgetInvariant
  import opened BudgetHistory

  /** What one call did: nothing, one appended event, or one whole settlement. */
  datatype Change = Nothing | OneEvent(row: Payload) | OneSettlement(p: SettlementPayload)

  ghost predicate Explains(s: State, change: Change, t: State) {
    match change
    case Nothing => t == s
    case OneEvent(row) =>
      && RowBound(s, row) && row.amounts.InLimits() && Timely(s, FreshEvent(s, row))
      && Appended(s, row, t) && s.runs[row.run].confidence != Unknown
    case OneSettlement(p) =>
      && SettledInto(s, p, SettlementBlock(s, p), t) && Core(t)
      && SettlementAdmissible(s, p) && s.runs[p.run].confidence != Unknown
      && !SpawnSettled(s, p.spawn) && p.key !in s.settlements
  }

  /** Some call did `change` to `s`. */
  lemma RecordExplained(s: State, row: Payload, v: Verdicts)
    requires Inv(s) && RecordAdmissible(s, row)
    ensures var t := RecordAdmitted(s, row, v).state;
      t == s || Explains(s, OneEvent(row), t)
  {
    RecordOutcome(s, row, v);
  }

  lemma PostDispatchExplained(s: State, row: Payload, v: Verdicts)
    requires Inv(s) && PostDispatchAdmissible(s, row)
    ensures var t := PostDispatchAdmitted(s, row, v).state;
      t == s || Explains(s, OneEvent(row), t)
  {
    PostDispatchOutcome(s, row, v);
  }

  lemma CallExplained(s: State, call: Call, v: Verdicts) returns (change: Change)
    requires Inv(s)
    ensures Explains(s, change, Apply(s, call, v).0)
  {
    change := Nothing;
    match call
    case Record(kind, request, policy) =>
      var r := AdmitRecord(s, kind, Stripped(request), policy, v.schema);
      if r.Success? {
        RecordExplained(s, r.value, v);
        change := if RecordAdmitted(s, r.value, v).state == s then Nothing else OneEvent(r.value);
      }
    case PostDispatch(kind, request) =>
      var r := AdmitPostDispatch(s, kind, Stripped(request), v.schema);
      if r.Success? {
        PostDispatchExplained(s, r.value, v);
        change := if PostDispatchAdmitted(s, r.value, v).state == s then Nothing else OneEvent(r.value);
      }
    case Settle(request) =>
      var r := AdmitSettlement(s, Stripped(request), v.schema);
      if r.Success? {
        SettleExplained(s, r.value, v);
        change := if SettleAdmitted(s, r.value, v).state == s then Nothing else OneSettlement(r.value);
      }
  }

  lemma SettleCommits(s: State, p: SettlementPayload, v: Verdicts)
    requires Inv(s) && SettlementAdmissible(s, p)
    ensures var t := SettleAdmitted(s, p, v).state;
      t == s || (t == Settled(s, p) && Committing(s, p) && s.runs[p.run].confidence != Unknown)
  {
    SettleOutcome(s, p, v);
    if SettleAdmitted(s, p, v).state != s {
      UnrefusedBlockIsFree(s.events, SettlementBlock(s, p), 0, v);
    }
  }

  lemma CommittingExplained(s: State, p: SettlementPayload)
    requires Committing(s, p) && s.runs[p.run].confidence != Unknown
    ensures Explains(s, OneSettlement(p), Settled(s, p))
  {
    SettledTables(s, p);
    SettledCore(s, p);
  }

  lemma SettleExplained(s: State, p: SettlementPayload, v: Verdicts)
    requires Inv(s) && SettlementAdmissible(s, p)
    ensures var t := SettleAdmitted(s, p, v).state;
      t == s || Explains(s, OneSettlement(p), t)
  {
    SettleCommits(s, p, v);
    if SettleAdmitted(s, p, v).state != s {
      CommittingExplained(s, p);
    }
  }

  // ---- The ledger only grows ----

  /** The events `t` has beyond those of `s`. */
  function Since(s: State, t: State): seq<Event>
    requires |s.events| <= |t.events|
  {
    t.events[|s.events|..]
  }

  ghost predicate Extends(s: State, t: State) {
    |s.events| <= |t.events| && t.events == s.events + Since(s, t)
  }

  lemma ChangeExtends(s: State, change: Change, t: State)
    requires Explains(s, change, t)
    ensures Extends(s, t)
  {
  }

  /** Every move is an environment step or an explained change. */
  lemma MoveExplained(s: State, t: State) returns (change: Change)
    requires Inv(s) && Moves(s, t)
    ensures EnvironmentOk(s, t) || Explains(s, change, t)
  {
    change := Nothing;
    if !EnvironmentOk(s, t) {
      var call, v :| Apply(s, call, v).0 == t;
      change := CallExplained(s, call, v);
    }
  }

  lemma ExtendsTransitive(s: State, t: State, u: State)
    requires Extends(s, t) && Extends(t, u)
    ensures Extends(s, u) && Since(s, u) == Since(s, t) + Since(t, u)
  {
    assert u.events == s.events + (Since(s, t) + Since(t, u));
  }

  lemma HistoryMoveExtends(h: seq<State>, i: nat)
    requires History(h) && Inv(h[0]) && 0 < i < |h|
    ensures Extends(h[i - 1], h[i])
  {
    HistoryKeepsInv(h, i - 1);
    assert MovesAt(h, i);
    var change := MoveExplained(h[i - 1], h[i]);
    if !EnvironmentOk(h[i - 1], h[i]) {
      ChangeExtends(h[i - 1], change, h[i]);
    }
  }

  lemma {:induction false} ExtendsChain(h: seq<State>, m: nat, n: nat)
    requires m <= n < |h| && forall i | 0 < i < |h| :: Extends(h[i - 1], h[i])
    ensures Extends(h[m], h[n])
    decreases n - m
  {
    if m == n {
      assert Since(h[m], h[n]) == [];
    } else {
      ExtendsChain(h, m, n - 1);
      ExtendsTransitive(h[m], h[n - 1], h[n]);
    }
  }

  /** The ledger is append-only: a later state's events extend an earlier state's. */
  lemma EventsPersist(h: seq<State>, m: nat, n: nat)
    requires History(h) && Inv(h[0]) && m <= n < |h|
    ensures Extends(h[m], h[n])
  {
    forall i | 0 < i < |h| ensures Extends(h[i - 1], h[i]) {
      HistoryMoveExtends(h, i);
    }
    ExtendsChain(h, m, n);
  }

  // ---- A settlement is final ----

  lemma SettledIntent(s: State, spawn: string)
    requires SettlementsOk(s) && SpawnSettled(s, spawn)
    ensures spawn in s.spawns && s.spawns[spawn].intent.Some? && Outstanding(s.events, spawn) == ZERO
  {
    var k :| k in s.settlements && s.settlements[k].row.spawn == spawn;
    assert SettlementOk(s, k);
  }

  /** `t` still has the settlement of `spawn`, and the same rows for it. */
  ghost predicate KeepsSettled(s: State, t: State, spawn: string) {
    SpawnSettled(t, spawn) && ForSpawn(t.events, spawn) == ForSpawn(s.events, spawn)
  }

  lemma EventKeepsSettled(s: State, row: Payload, t: State, spawn: string)
    requires SettlementsOk(s) && Explains(s, OneEvent(row), t) && SpawnSettled(s, spawn)
    ensures KeepsSettled(s, t, spawn)
  {
    SettledIntent(s, spawn);
    ForSpawnAppend(s.events, FreshEvent(s, row), spawn);
  }

  lemma SettlementKeepsSettled(s: State, p: SettlementPayload, block: seq<Event>, t: State, spawn: string)
    requires SettledInto(s, p, block, t) && SpawnSettled(s, spawn)
    requires !SpawnSettled(s, p.spawn) && p.key !in s.settlements
    ensures KeepsSettled(s, t, spawn)
  {
    SettledOthers(s, p, block, t);
    var k :| k in s.settlements && s.settlements[k].row.spawn == spawn;
    assert t.settlements[k].row.spawn == spawn;
  }

  lemma MoveKeepsSettled(s: State, t: State, spawn: string)
    requires Inv(s) && Moves(s, t) && SpawnSettled(s, spawn)
    ensures KeepsSettled(s, t, spawn)
  {
    var change := MoveExplained(s, t);
    if !EnvironmentOk(s, t) {
      match change
      case Nothing =>
      case OneEvent(row) => EventKeepsSettled(s, row, t, spawn);
      case OneSettlement(p) => SettlementKeepsSettled(s, p, SettlementBlock(s, p), t, spawn);
    }
  }

  lemma {:induction false} SettledChain(h: seq<State>, n: nat, spawn: string)
    requires n < |h| && SpawnSettled(h[0], spawn)
    requires forall i | 0 < i < |h| && SpawnSettled(h[i - 1], spawn) :: KeepsSettled(h[i - 1], h[i], spawn)
    ensures KeepsSettled(h[0], h[n], spawn)
  {
    if n > 0 {
      SettledChain(h, n - 1, spawn);
    }
  }

  lemma HistoryKeepsSettled(h: seq<State>, n: nat, spawn: string)
    requires History(h) && Inv(h[0]) && n < |h| && SpawnSettled(h[0], spawn)
    ensures KeepsSettled(h[0], h[n], spawn)
  {
    forall i | 0 < i < |h| && SpawnSettled(h[i - 1], spawn)
      ensures KeepsSettled(h[i - 1], h[i], spawn)
    {
      HistoryMoveKeepsSettled(h, i, spawn);
    }
    SettledChain(h, n, spawn);
  }

  lemma HistoryMoveKeepsSettled(h: seq<State>, i: nat, spawn: string)
    requires History(h) && Inv(h[0]) && 0 < i < |h| && SpawnSettled(h[i - 1], spawn)
    ensures KeepsSettled(h[i - 1], h[i], spawn)
  {
    HistoryKeepsInv(h, i - 1);
    assert MovesAt(h, i);
    MoveKeepsSettled(h[i - 1], h[i], spawn);
  }

  /** Whatever happens later, a settled spawn keeps exactly its ledger, with nothing outstanding. */
  lemma SettlementIsFinal(h: seq<State>, n: nat, spawn: string)
    requires History(h) && Inv(h[0]) && n < |h| && SpawnSettled(h[0], spawn)
    ensures ForSpawn(h[n].events, spawn) == ForSpawn(h[0].events, spawn)
    ensures Outstanding(h[n].events, spawn) == ZERO
  {
    HistoryKeepsSettled(h, n, spawn);
    SettledIntent(h[0], spawn);
  }

  // ---- Unknown usage is absorbing, and confidence is a join ----

  /** The same run, up to the state the rest of the system gives it. */
  ghost predicate Frozen(s: State, t: State, run: string) {
    && run in s.runs && run in t.runs
    && t.runs[run] == s.runs[run].(state := t.runs[run].state)
    && ForRun(t.events, run) == ForRun(s.events, run)
  }

  /** A run's confidence in `t` joins that in `s` with its events since. */
  ghost predicate Joined(s: State, t: State, run: string) {
    && Extends(s, t) && run in s.runs && run in t.runs
    && t.runs[run].confidence == JoinedBy(s.runs[run], Since(s, t), run)
  }

  lemma EventJoins(s: State, row: Payload, t: State, run: string)
    requires Explains(s, OneEvent(row), t) && run in s.runs
    ensures Joined(s, t, run)
  {
    var e := FreshEvent(s, row);
    assert Since(s, t) == [e];
    OneEventConfidence(e, run);
  }

  lemma OneEventConfidence(e: Event, run: string)
    ensures Confidences(ForRun([e], run)) == if e.row.run == run then e.row.confidence else Known
  {
    ForRunAppend([], e, run);
    assert [] + [e] == [e];
    ConfidencesAppend([], e);
  }

  lemma EventFreezes(s: State, row: Payload, t: State, run: string)
    requires Explains(s, OneEvent(row), t) && run in s.runs && s.runs[run].confidence == Unknown
    ensures Frozen(s, t, run)
  {
    ForRunAppend(s.events, FreshEvent(s, row), run);
  }

  lemma SettlementJoins(s: State, p: SettlementPayload, block: seq<Event>, t: State, run: string)
    requires CountersOk(s) && CountersOk(t) && SettledInto(s, p, block, t)
    requires run in s.runs && p.run in s.runs && s.runs[p.run].confidence != Unknown
    ensures Joined(s, t, run)
    ensures s.runs[run].confidence == Unknown ==> Frozen(s, t, run)
  {
    assert Since(s, t) == block;
    if run != p.run {
      SettledOthers(s, p, block, t);
      SettledOtherRun(s, p, block, t, run);
      RowsNone(block, OfRun(run));
    }
  }

  lemma EnvironmentJoins(s: State, t: State, run: string)
    requires EnvironmentOk(s, t) && run in s.runs
    ensures Joined(s, t, run) && Frozen(s, t, run)
  {
    assert Since(s, t) == [];
  }

  /** What any move does to a run. */
  ghost predicate JoinsOrFreezes(s: State, t: State, run: string) {
    Joined(s, t, run) && (s.runs[run].confidence == Unknown ==> Frozen(s, t, run))
  }

  lemma ChangeJoins(s: State, change: Change, t: State, run: string)
    requires CountersOk(s) && Explains(s, change, t) && !change.Nothing? && run in s.runs
    ensures JoinsOrFreezes(s, t, run)
  {
    match change
    case OneEvent(row) =>
      EventJoins(s, row, t, run);
      if s.runs[run].confidence == Unknown {
        EventFreezes(s, row, t, run);
      }
    case OneSettlement(p) => SettlementJoins(s, p, SettlementBlock(s, p), t, run);
  }

  lemma MoveJoins(s: State, t: State, run: string)
    requires Inv(s) && Moves(s, t) && run in s.runs
    ensures JoinsOrFreezes(s, t, run)
  {
    var change := MoveExplained(s, t);
    if EnvironmentOk(s, t) {
      EnvironmentJoins(s, t, run);
    } else if !change.Nothing? {
      ChangeJoins(s, change, t, run);
    }
  }

  lemma JoinedTransitive(s: State, t: State, u: State, run: string)
    requires Joined(s, t, run) && Joined(t, u, run)
    ensures Joined(s, u, run)
  {
    ExtendsTransitive(s, t, u);
    RowsConcat(Since(s, t), Since(t, u), OfRun(run));
    ConfidencesConcat(ForRun(Since(s, t), run), ForRun(Since(t, u), run));
  }

  lemma HistoryMoveJoins(h: seq<State>, i: nat, run: string)
    requires History(h) && Inv(h[0]) && 0 < i < |h| && run in h[i - 1].runs
    ensures JoinsOrFreezes(h[i - 1], h[i], run)
  {
    HistoryKeepsInv(h, i - 1);
    assert MovesAt(h, i);
    MoveJoins(h[i - 1], h[i], run);
  }

  /**
   At every point of a history a run's usage confidence is the join of what it started with and
   the confidence of every event recorded for it since.
   */
  lemma {:induction false} ConfidenceIsJoin(h: seq<State>, n: nat, run: string)
    requires History(h) && Inv(h[0]) && n < |h| && run in h[0].runs
    ensures Extends(h[0], h[n]) && run in h[n].runs
    ensures h[n].runs[run].confidence
            == Join(h[0].runs[run].confidence, Confidences(ForRun(Since(h[0], h[n]), run)))
  {
    if n == 0 {
      assert Since(h[0], h[0]) == [];
    } else {
      ConfidenceIsJoin(h, n - 1, run);
      HistoryMoveJoins(h, n, run);
      JoinedTransitive(h[0], h[n - 1], h[n], run);
    }
  }

  lemma {:induction false} FrozenChain(h: seq<State>, n: nat, run: string)
    requires n < |h| && run in h[0].runs && h[0].runs[run].confidence == Unknown
    requires forall i | 0 < i < |h| && run in h[i - 1].runs :: JoinsOrFreezes(h[i - 1], h[i], run)
    ensures Frozen(h[0], h[n], run)
  {
    if n > 0 {
      FrozenChain(h, n - 1, run);
    }
  }

  /** Once a run records unknown usage, nothing ever changes its ledger, counters or confidence. */
  lemma PoisonIsAbsorbing(h: seq<State>, n: nat, run: string)
    requires History(h) && Inv(h[0]) && n < |h|
    requires run in h[0].runs && h[0].runs[run].confidence == Unknown
    ensures Frozen(h[0], h[n], run)
  {
    forall i | 0 < i < |h| && run in h[i - 1].runs ensures JoinsOrFreezes(h[i - 1], h[i], run) {
      HistoryMoveJoins(h, i, run);
    }
    FrozenChain(h, n, run);
  }

  // ---- The state of the counters ----

  /**
   In every state of every history from an empty ledger: counters are folds of the run's events,
   they are the sums over the run's spawns of non-negative shares, and reserved plus consumed
   stays within budget in all six dimensions.
   */
  lemma CountersAreFolds(h: seq<State>, n: nat, run: string)
    requires History(h) && Genesis(h[0]) && n < |h| && run in h[n].runs
    ensures h[n].runs[run].reserved == Total(ForRun(h[n].events, run))
    ensures h[n].runs[run].consumed == Used(ForRun(h[n].events, run))
    ensures h[n].runs[run].reserved == SumOver(SpawnsOf(h[n], run), SpawnTotal(h[n].events))
    ensures h[n].runs[run].consumed == SumOver(SpawnsOf(h[n], run), SpawnUsed(h[n].events))
    ensures forall x | x in SpawnsOf(h[n], run) :: SpawnTotal(h[n].events)(x).NonNegative()
    ensures CountersFit(h[n].runs[run]) && h[n].runs[run].budget.InLimits()
  {
    GenesisInv(h[0]);
    HistoryKeepsInv(h, n);
    assert RunOk(h[n].events, run, h[n].runs[run]);
    RunShares(h[n], run);
    forall x | x in SpawnsOf(h[n], run) ensures SpawnTotal(h[n].events)(x).NonNegative() {
      var rows := ForSpawn(h[n].events, x);
      assert SafePrefixes(rows) && rows[..|rows|] == rows;
    }
  }

  /**
   In every reachable state the lower guards of a post-dispatch counter update decide alone: when
   neither counter would go negative, the upper guards hold as well.
   */
  lemma UpperGuardsAreImplied(h: seq<State>, n: nat, row: Payload)
    requires History(h) && Genesis(h[0]) && n < |h| && row.run in h[n].runs
    requires row.kind != Reserve && row.kind != Release && row.amounts.NonNegative()
    ensures var after := Charge(h[n].runs[row.run], row);
            after.reserved.NonNegative() && after.consumed.NonNegative() ==> CountersFit(after)
  {
    CountersAreFolds(h, n, row.run);
  }

  /** In every reachable state each spawn can still pay for its outstanding tokens, and each run has paid. */
  lemma EverySpawnStaysFunded(h: seq<State>, n: nat, spawn: string)
    requires History(h) && Genesis(h[0]) && n < |h|
    requires spawn in h[n].spawns && h[n].spawns[spawn].run in h[n].runs
    ensures var run := h[n].runs[h[n].spawns[spawn].run];
      && CoversFor(run.selection, Outstanding(h[n].events, spawn))
      && CoversFor(run.selection, run.consumed)
  {
    GenesisInv(h[0]);
    HistoryKeepsInv(h, n);
  }

  const MAX_INT64: int := 0x7fff_ffff_ffff_ffff

  predicate Bounded(v: Vector, bound: int) {
    && -bound <= v.time <= bound && -bound <= v.input <= bound && -bound <= v.output <= bound
    && -bound <= v.cost <= bound && -bound <= v.retry <= bound && -bound <= v.human <= bound
  }

  lemma {:induction false} SumsBounded(vs: seq<Vector>, n: nat)
    requires n <= |vs| && forall i | 0 <= i < |vs| :: Bounded(vs[i], MAX_COST)
    ensures Bounded(Sum(vs[..n]), n * MAX_COST)
  {
    if n == 0 {
      assert vs[..0] == [];
    } else {
      SumsBounded(vs, n - 1);
      assert vs[..n] == vs[..n - 1] + [vs[n - 1]];
      SumAppend(vs[..n - 1], vs[n - 1]);
    }
  }

  /**
   A run's event sequences are exactly 1..n with n at most a million, so every running sum over
   its events fits a signed 64-bit integer.
   */
  lemma RunSumsFitInt64(h: seq<State>, n: nat, run: string, k: nat)
    requires History(h) && Genesis(h[0]) && n < |h|
    requires k <= |ForRun(h[n].events, run)|
    ensures |ForRun(h[n].events, run)| <= MAX_EVENT_SEQUENCE
    ensures forall i | 0 <= i < |ForRun(h[n].events, run)| :: ForRun(h[n].events, run)[i].sequence == i + 1
    ensures Bounded(Total(ForRun(h[n].events, run)[..k]), MAX_INT64)
    ensures Bounded(Used(ForRun(h[n].events, run)[..k]), MAX_INT64)
  {
    GenesisInv(h[0]);
    HistoryKeepsInv(h, n);
    var rows := ForRun(h[n].events, run);
    assert Numbered(rows);
    RowsMembers(h[n].events, OfRun(run));
    forall i | 0 <= i < |rows| ensures rows[i].row.amounts.InLimits() {
      assert rows[i] in h[n].events;
    }
    PrefixSumsBounded(rows, k);
  }

  /**
   The sums the two summing queries compute fit as well: the running nets of every row's window
   partition, and the per-spawn outstanding sum of any request bound to its spawn.
   */
  lemma QuerySumsFitInt64(h: seq<State>, n: nat, i: nat, row: Payload)
    requires History(h) && Genesis(h[0]) && n < |h|
    ensures i < |h[n].events| ==>
              var rows := Rows(h[n].events[..i + 1], SamePartition(h[n].events[i]));
              Bounded(Total(rows), MAX_INT64) && Bounded(Used(rows), MAX_INT64)
    ensures RowBound(h[n], row) ==>
              var rows := Rows(h[n].events, Matching(row));
              Bounded(Total(rows), MAX_INT64) && Bounded(Used(rows), MAX_INT64)
  {
    GenesisInv(h[0]);
    HistoryKeepsInv(h, n);
    if i < |h[n].events| {
      PartitionSumsBounded(h[n], i);
    }
    if RowBound(h[n], row) {
      MatchingSumsBounded(h[n], row);
    }
  }

  lemma PartitionSumsBounded(s: State, i: nat)
    requires Core(s) && i < |s.events|
    ensures var rows := Rows(s.events[..i + 1], SamePartition(s.events[i]));
            Bounded(Total(rows), MAX_INT64) && Bounded(Used(rows), MAX_INT64)
  {
    PartitionIsSpawn(s, i, i + 1);
    assert RowBound(s, s.events[i].row);
    SpawnSumsBounded(s, s.events[i].row.spawn, s.events[i].row.run, i + 1);
  }

  lemma MatchingSumsBounded(s: State, row: Payload)
    requires Core(s) && RowBound(s, row)
    ensures var rows := Rows(s.events, Matching(row));
            Bounded(Total(rows), MAX_INT64) && Bounded(Used(rows), MAX_INT64)
  {
    MatchingIsSpawn(s, row);
    SpawnSumsBounded(s, row.spawn, row.run, |s.events|);
    assert s.events[..|s.events|] == s.events;
  }

  lemma SpawnSumsBounded(s: State, spawn: string, run: string, k: nat)
    requires Core(s) && k <= |s.events| && spawn in s.spawns && s.spawns[spawn].run == run && run in s.runs
    ensures Bounded(Total(ForSpawn(s.events[..k], spawn)), MAX_INT64)
    ensures Bounded(Used(ForSpawn(s.events[..k], spawn)), MAX_INT64)
  {
    var rows := ForSpawn(s.events[..k], spawn);
    SpawnRowsAreFew(s, spawn, run, k);
    SpawnRowsAreLegal(s, spawn, k);
    PrefixSumsBounded(rows, |rows|);
    assert rows[..|rows|] == rows;
  }

  /** A spawn's rows are among its run's, of which there are at most a million. */
  lemma SpawnRowsAreFew(s: State, spawn: string, run: string, k: nat)
    requires Core(s) && k <= |s.events| && spawn in s.spawns && s.spawns[spawn].run == run && run in s.runs
    ensures |ForSpawn(s.events[..k], spawn)| <= MAX_EVENT_SEQUENCE
  {
    var part := s.events[..k];
    forall e | e in part && OfSpawn(spawn)(e) ensures OfRun(run)(e) {
      var i :| 0 <= i < k && s.events[i] == e;
      assert RowBound(s, s.events[i].row);
    }
    RowsTwice(part, OfSpawn(spawn), OfRun(run));
    RowsShorter(ForRun(part, run), OfSpawn(spawn));
    RowsConcat(part, s.events[k..], OfRun(run));
    assert s.events == part + s.events[k..];
    assert RunOk(s.events, run, s.runs[run]) && Numbered(ForRun(s.events, run));
  }

  lemma SpawnRowsAreLegal(s: State, spawn: string, k: nat)
    requires Core(s) && k <= |s.events|
    ensures var rows := ForSpawn(s.events[..k], spawn); forall i | 0 <= i < |rows| :: rows[i].row.amounts.InLimits()
  {
    var rows := ForSpawn(s.events[..k], spawn);
    RowsMembers(s.events[..k], OfSpawn(spawn));
    forall i | 0 <= i < |rows| ensures rows[i].row.amounts.InLimits() {
      assert rows[i] in s.events[..k];
    }
  }

  lemma {:induction false} RowsShorter(es: seq<Event>, p: Event -> bool)
    ensures |Rows(es, p)| <= |es|
  {
    if es != [] {
      RowsShorter(es[..|es| - 1], p);
    }
  }

  lemma PrefixSumsBounded(rows: seq<Event>, k: nat)
    requires k <= |rows| <= MAX_EVENT_SEQUENCE
    requires forall i | 0 <= i < |rows| :: rows[i].row.amounts.InLimits()
    ensures Bounded(Total(rows[..k]), MAX_INT64) && Bounded(Used(rows[..k]), MAX_INT64)
  {
    forall i | 0 <= i < |rows|
      ensures Bounded(Effects(rows)[i], MAX_COST) && Bounded(Usages(rows)[i], MAX_COST)
    {
      assert Effects(rows)[i] == EffectOf(rows[i]) && Usages(rows)[i] == UsageOf(rows[i]);
    }
    SumsBounded(Effects(rows), k);
    SumsBounded(Usages(rows), k);
    assert Effects(rows[..k]) == Effects(rows)[..k];
    assert Usages(rows[..k]) == Usages(rows)[..k];
    assert k * MAX_COST <= MAX_INT64;
  }

  // ---- The shape of a spawn's ledger ----

  ghost predicate PhaseIs(es: seq<Event>, phase: int) {
    forall i | 0 <= i < |es| :: Phase(es[i]) == phase
  }

  lemma {:induction false} FirstOfPhase(es: seq<Event>, phase: int) returns (n: nat)
    requires forall i, j | 0 <= i < j < |es| :: Phase(es[i]) <= Phase(es[j])
    ensures n <= |es|
    ensures forall i | 0 <= i < n :: Phase(es[i]) < phase
    ensures forall i | n <= i < |es| :: Phase(es[i]) >= phase
  {
    n := 0;
    while n < |es| && Phase(es[n]) < phase
      invariant n <= |es|
      invariant forall i | 0 <= i < n :: Phase(es[i]) < phase
    {
      n := n + 1;
    }
  }

  /** `rows` is reserves and releases, then direct usage, then one block of consecutive settled events. */
  ghost predicate ThreePhases(rows: seq<Event>, i: nat, j: nat) {
    && i <= j <= |rows|
    && PhaseIs(rows[..i], 0) && PhaseIs(rows[i..j], 1) && PhaseIs(rows[j..], 2)
    && (forall a, b | j <= a < b < |rows| ::
          && rows[b].settlement == rows[a].settlement
          && rows[b].sequence == rows[a].sequence + (b - a)
          && 0 <= Rank(rows[a].row.kind) < Rank(rows[b].row.kind) < 4)
  }

  lemma PhaseBelow(rows: seq<Event>, n: nat, phase: int, j: nat)
    requires j < n <= |rows| && forall i | 0 <= i < n :: Phase(rows[i]) < phase
    ensures Phase(rows[j]) < phase
  {
  }

  lemma ShapedSplits(rows: seq<Event>) returns (i: nat, j: nat)
    requires Shaped(rows)
    ensures ThreePhases(rows, i, j)
    ensures i < |rows| ==> Phase(rows[i]) > 0
    ensures j < |rows| ==> Phase(rows[j]) == 2
  {
    assert forall a, b | 0 <= a < b < |rows| :: InOrder(rows[a], rows[b], b - a);
    i := FirstOfPhase(rows, 1);
    j := FirstOfPhase(rows, 2);
    assert i <= j by {
      if j < i {
        PhaseBelow(rows, i, 1, j);
      }
    }
    forall a | 0 <= a < |rows| ensures Phase(rows[a]) == if a < i then 0 else if a < j then 1 else 2 {
    }
    forall a | 0 <= a < i ensures Phase(rows[..i][a]) == 0 {
      assert rows[..i][a] == rows[a];
    }
    forall a | 0 <= a < j - i ensures Phase(rows[i..j][a]) == 1 {
      assert rows[i..j][a] == rows[i + a];
    }
    forall a | 0 <= a < |rows| - j ensures Phase(rows[j..][a]) == 2 {
      assert rows[j..][a] == rows[j + a];
    }
    forall a, b | j <= a < b < |rows| ensures InOrder(rows[a], rows[b], b - a) && Phase(rows[a]) == 2 {
    }
  }

  /**
   Every reachable spawn ledger is: reserves and releases, then direct usage, then at most one
   settlement block of strictly ordered types with consecutive sequence numbers, and nothing more.
   Usage needs an intent, and the block needs a settlement.
   */
  lemma SpawnLedgerShape(h: seq<State>, n: nat, spawn: string) returns (i: nat, j: nat)
    requires History(h) && Genesis(h[0]) && n < |h|
    ensures ThreePhases(ForSpawn(h[n].events, spawn), i, j)
    ensures spawn in h[n].spawns && h[n].spawns[spawn].intent.None? ==> i == |ForSpawn(h[n].events, spawn)|
    ensures !SpawnSettled(h[n], spawn) ==> j == |ForSpawn(h[n].events, spawn)|
  {
    GenesisInv(h[0]);
    HistoryKeepsInv(h, n);
    i, j := InvShape(h[n], spawn);
  }

  lemma InvShape(s: State, spawn: string) returns (i: nat, j: nat)
    requires ShapesOk(s) && SettlementsOk(s)
    ensures ThreePhases(ForSpawn(s.events, spawn), i, j)
    ensures spawn in s.spawns && s.spawns[spawn].intent.None? ==> i == |ForSpawn(s.events, spawn)|
    ensures !SpawnSettled(s, spawn) ==> j == |ForSpawn(s.events, spawn)|
  {
    var rows := ForSpawn(s.events, spawn);
    assert Shaped(rows);
    i, j := ShapedSplits(rows);
    if i < |rows| {
      IntentOfUsage(s, spawn, i);
    }
    if j < |rows| && !SpawnSettled(s, spawn) {
      UnsettledPhases(s, spawn);
    }
  }

  lemma IntentOfUsage(s: State, spawn: string, i: nat)
    requires ShapesOk(s) && i < |ForSpawn(s.events, spawn)| && Phase(ForSpawn(s.events, spawn)[i]) > 0
    ensures spawn in s.spawns ==> s.spawns[spawn].intent.Some?
  {
    var e := ForSpawn(s.events, spawn)[i];
    RowsMembers(s.events, OfSpawn(spawn));
    assert e in ForSpawn(s.events, spawn);
    var k :| 0 <= k < |s.events| && s.events[k] == e;
    assert Phase(s.events[k]) > 0;
  }

  // ---- Settlements conserve ----

  /**
   A settlement that commits: usage and remainder split exactly what was outstanding, nothing is
   left outstanding, and no other spawn's ledger changes.
   */
  lemma SettlementConserves(s: State, p: SettlementPayload, v: Verdicts)
    requires Inv(s) && SettlementAdmissible(s, p)
    requires SettleAdmitted(s, p, v).state != s
    ensures p.actual.Plus(Released(s, p)) == Outstanding(s.events, p.spawn)
    ensures p.actual.InLimits() && Released(s, p).InLimits()
    ensures Outstanding(SettleAdmitted(s, p, v).state.events, p.spawn) == ZERO
    ensures forall x | x != p.spawn ::
              ForSpawn(SettleAdmitted(s, p, v).state.events, x) == ForSpawn(s.events, x)
  {
    SettleCommits(s, p, v);
    CommittingConserves(s, p, Settled(s, p));
  }

  lemma CommittingConserves(s: State, p: SettlementPayload, t: State)
    requires Committing(s, p) && t == Settled(s, p)
    ensures p.actual.Plus(Released(s, p)) == Outstanding(s.events, p.spawn)
    ensures p.actual.InLimits() && Released(s, p).InLimits()
    ensures Outstanding(t.events, p.spawn) == ZERO
    ensures forall x | x != p.spawn :: ForSpawn(t.events, x) == ForSpawn(s.events, x)
  {
    SettleableLimits(s, p);
    SettledTables(s, p);
    IntoConserves(s, p, SettlementBlock(s, p), t);
    MinusPlus(Outstanding(s.events, p.spawn), p.actual);
  }

  lemma MinusPlus(v: Vector, w: Vector)
    ensures w.Plus(v.Minus(w)) == v
  {
  }

  lemma IntoConserves(s: State, p: SettlementPayload, block: seq<Event>, t: State)
    requires SettledInto(s, p, block, t)
    ensures Outstanding(t.events, p.spawn) == ZERO
    ensures forall x | x != p.spawn :: ForSpawn(t.events, x) == ForSpawn(s.events, x)
  {
    SettledOutstanding(s, p, block, t);
    SettledOthers(s, p, block, t);
  }

  /**
   Its linked events, one to four of them and contiguous in the run's sequence, record exactly the
   usage and take out exactly usage plus remainder.
   */
  lemma LinkedEventsAddUp(s: State, p: SettlementPayload, v: Verdicts)
    requires Inv(s) && SettlementAdmissible(s, p)
    requires SettleAdmitted(s, p, v).state != s
    ensures var t, block := SettleAdmitted(s, p, v).state, SettlementBlock(s, p);
      && t.events == s.events + block && 1 <= |block| <= 4
      && (forall i | 0 <= i < |block| ::
            && block[i].sequence == NextSequence(s, p.run) + i
            && block[i].settlement == Some(p.key) && block[i].row.spawn == p.spawn)
      && Used(block) == p.actual
      && Total(block) == ZERO.Minus(Outstanding(s.events, p.spawn))
  {
    SettleCommits(s, p, v);
    SettleableLimits(s, p);
    SettledRows(s, p);
    BlockEvents(s, p);
    BlockSums(s, p);
  }

  /** The two sides of the run's counters after a committed settlement. */
  lemma SettlementMovesCounters(s: State, p: SettlementPayload, v: Verdicts)
    requires Inv(s) && SettlementAdmissible(s, p)
    requires SettleAdmitted(s, p, v).state != s
    ensures var t := SettleAdmitted(s, p, v).state;
      && p.run in t.runs
      && t.runs[p.run].consumed == s.runs[p.run].consumed.Plus(p.actual)
      && t.runs[p.run].reserved == s.runs[p.run].reserved.Minus(Outstanding(s.events, p.spawn))
      && (forall r | r in s.runs && r != p.run ::
            r in t.runs && t.runs[r].consumed == s.runs[r].consumed && t.runs[r].reserved == s.runs[r].reserved)
  {
    SettleCommits(s, p, v);
    var t, block := Settled(s, p), SettlementBlock(s, p);
    SettledTables(s, p);
    SettledCore(s, p);
    SettledSums(s, p, block, t);
    forall r | r in s.runs && r != p.run
      ensures r in t.runs && t.runs[r].consumed == s.runs[r].consumed && t.runs[r].reserved == s.runs[r].reserved
    {
      SettledOtherRun(s, p, block, t, r);
    }
  }

  // ---- Local checks, counter guards and whole-ledger queries ----

  /**
   A settlement cannot half-fail: once its usage fits what is outstanding and its block's sequence
   numbers and identities are free, no counter update and no ledger query between or after its
   inserts can refuse.
   */
  lemma SettlementCannotHalfFail(s: State, p: SettlementPayload, n: nat)
    requires Settleable(s, p) && AllFree(s.events, SettlementBlock(s, p))
    requires n < |SettlementBlock(s, p)|
    ensures p.run in BlockState(s, p, n).runs
    ensures CountersFit(Charge(BlockState(s, p, n).runs[p.run], SettlementBlock(s, p)[n].row))
    ensures var t := BlockState(s, p, n + 1); BindingsClean(t) && PrefixesClean(t.events)
    ensures UnknownUsageClean(BlockState(s, p, n + 1)) <==> !ClosedPoison(s)
  {
    var block := SettlementBlock(s, p);
    AllFreeTake(s.events, block, n);
    AllFreeTake(s.events, block, n + 1);
    BlockStateCore(s, p, n);
    BlockStateCore(s, p, n + 1);
    BlockStateNext(s, p, n);
    LinkedInsertDecision(s, p, n);
    assert Free(s.events, block[n]);
    WindowFromPrefixes(BlockState(s, p, n + 1));
    LedgerQueriesAreLocal(BlockState(s, p, n + 1));
    BlockPoison(s, p, n + 1);
  }

  /** A settlement records no unknown usage and moves no run state. */
  lemma BlockPoison(s: State, p: SettlementPayload, n: nat)
    requires Settleable(s, p) && n <= |SettlementBlock(s, p)|
    ensures ClosedPoison(BlockState(s, p, n)) <==> ClosedPoison(s)
  {
    var part := SettlementBlock(s, p)[..n];
    BlockIsKnown(s, p, n);
    InsertAllTables(WithSettlement(s, p), part);
    PoisonOfParts(s, part, BlockState(s, p, n));
  }

  ghost predicate AllKnown(es: seq<Event>) {
    forall i | 0 <= i < |es| :: es[i].row.confidence != Unknown
  }

  lemma BlockIsKnown(s: State, p: SettlementPayload, n: nat)
    requires Settleable(s, p) && n <= |SettlementBlock(s, p)|
    ensures AllKnown(SettlementBlock(s, p)[..n])
  {
    SettleableLimits(s, p);
    BlockEvents(s, p);
  }

  lemma PoisonOfParts(s: State, more: seq<Event>, t: State)
    requires t.events == s.events + more && SameRunTerms(s.runs, t.runs)
    requires AllKnown(more)
    ensures ClosedPoison(t) <==> ClosedPoison(s)
  {
    if i :| 0 <= i < |s.events| && s.events[i].row.confidence == Unknown
            && s.events[i].row.run in s.runs && Closed(s.runs[s.events[i].row.run].state) {
      assert t.events[i] == s.events[i];
    }
  }

  lemma AllFreeTake(es: seq<Event>, block: seq<Event>, n: nat)
    requires AllFree(es, block) && n <= |block|
    ensures AllFree(es, block[..n])
  {
    var part := block[..n];
    forall i | 0 <= i < |part| ensures Free(es, part[i]) {
      assert part[i] == block[i];
    }
  }

  /**
   The append-time check refines the full window query.  For every kind but a retry restore, a row
   its spawn's outstanding amount allows keeps all seven running nets non-negative at every prefix
   of every partition.
   */
  lemma LocalCheckRefinesWindow(s: State, row: Payload)
    requires Core(s) && RowBound(s, row) && row.amounts.InLimits()
    requires row.kind != RetryRestore && LocalRefusal(s, row).None?
    ensures PrefixesClean(Insert(s, FreshEvent(s, row)).events)
  {
    var e := FreshEvent(s, row);
    OutstandingQuery(s, row);
    LocalNets(s, row);
    ForSpawnAppend(s.events, e, row.spawn);
    TotalAppend(ForSpawn(s.events, row.spawn), e);
    AppendKeepsPrefixes(s.events, e);
    InsertKeepsRows(s, e);
    WindowFromPrefixes(Insert(s, e));
  }

  lemma LocalNets(s: State, row: Payload)
    requires row.run in s.runs && row.amounts.InLimits()
    requires Outstanding(s.events, row.spawn).NonNegative()
    requires Used(ForSpawn(s.events, row.spawn)).retry >= 0
    requires row.kind != RetryRestore && LocalRefusal(s, row).None?
    ensures Outstanding(s.events, row.spawn).Plus(Effect(row.kind, row.amounts)).NonNegative()
    ensures Used(ForSpawn(s.events, row.spawn)).Plus(Usage(row.kind, row.amounts)).retry >= 0
  {
  }

  /**
   A retry restore passes the window query exactly when its own spawn has spent that many retries.
   */
  lemma RestoreWindowIff(s: State, row: Payload)
    requires Core(s) && RowBound(s, row) && row.amounts.InLimits() && row.kind == RetryRestore
    ensures PrefixesClean(Insert(s, FreshEvent(s, row)).events)
            <==> row.amounts.retry <= Used(ForSpawn(s.events, row.spawn)).retry
  {
    var e := FreshEvent(s, row);
    var t, n := Insert(s, e), |s.events|;
    OutstandingQuery(s, row);
    ForSpawnAppend(s.events, e, row.spawn);
    TotalAppend(ForSpawn(s.events, row.spawn), e);
    InsertKeepsRows(s, e);
    if row.amounts.retry <= Used(ForSpawn(s.events, row.spawn)).retry {
      AppendKeepsPrefixes(s.events, e);
      WindowFromPrefixes(t);
    } else {
      PartitionIsSpawn(t, n, n + 1);
      assert t.events[..n + 1] == t.events;
      assert !NetsOk(Rows(t.events[..n + 1], SamePartition(t.events[n])));
    }
  }

  // ---- Why a retry restore needs the window query ----

  /**
   The whole failing family: a spawn that restores more retries than it spent, but no more than its
   run spent, passes its local checks and its counter guards; only a window query refuses it, the
   inline one below if the service-level one of the same wording did not.
   */
  lemma OverRestoreOnlyWindowRefuses(s: State, row: Payload)
    requires Core(s) && RowBound(s, row) && row.amounts.InLimits() && row.kind == RetryRestore
    requires Used(ForSpawn(s.events, row.spawn)).retry < row.amounts.retry <= s.runs[row.run].consumed.retry
    ensures LocalRefusal(s, row).None?
    ensures CountersFit(Charge(s.runs[row.run], row))
    ensures !PrefixesClean(Insert(s, FreshEvent(s, row)).events)
  {
    RestoreWindowIff(s, row);
    assert RunOk(s.events, row.run, s.runs[row.run]);
  }
}
