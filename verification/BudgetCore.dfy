/**
 The core ledger invariant: cached counters are folds of the ledger, every spawn's running nets
 stay non-negative and every run stays within budget.  One appended event keeps it.
 */
module BudgetCore {
  import opened Wrappers
  import opened Amounts
  import opened BudgetModel
  import opened BudgetSpec

  /** The CHECK constraints of a `run_budgets` row. */
  predicate CountersFit(run: Run) {
    && run.reserved.NonNegative() && run.consumed.NonNegative()
    && run.reserved.Plus(run.consumed).Within(run.budget)
  }

  /** A run's cached counters are the folds of its ledger, and they fit its budget. */
  ghost predicate RunOk(es: seq<Event>, id: string, run: Run) {
    && run.budget.InLimits()
    && run.reserved == Total(ForRun(es, id))
    && run.consumed == Used(ForRun(es, id))
    && CountersFit(run)
  }

  ghost predicate CountersOk(s: State) {
    forall r {:trigger RunOk(s.events, r, s.runs[r])} | r in s.runs :: RunOk(s.events, r, s.runs[r])
  }

  ghost predicate RowsBound(s: State) {
    forall i | 0 <= i < |s.events| :: RowBound(s, s.events[i].row) && s.events[i].row.amounts.InLimits()
  }

  /** Every prefix of a spawn's ledger keeps the seven nets non-negative. */
  ghost predicate SafePrefixes(es: seq<Event>) {
    forall n | 0 <= n <= |es| :: NetsOk(es[..n])
  }

  ghost predicate PrefixesOk(es: seq<Event>) {
    forall spawn {:trigger SafePrefixes(ForSpawn(es, spawn))} :: SafePrefixes(ForSpawn(es, spawn))
  }

  /** Sequence numbers are exactly 1..n. */
  ghost predicate Numbered(es: seq<Event>) {
    |es| <= MAX_EVENT_SEQUENCE && forall i | 0 <= i < |es| :: es[i].sequence == i + 1
  }

  ghost predicate SequencesOk(es: seq<Event>) {
    forall run {:trigger Numbered(ForRun(es, run))} :: Numbered(ForRun(es, run))
  }

  ghost predicate IdentitiesOk(es: seq<Event>) {
    && (forall i, j | 0 <= i < j < |es| :: es[i].row.key != es[j].row.key)
    && (forall i, j | 0 <= i < j < |es| :: es[i].row.dedupe != es[j].row.dedupe)
  }

  /** Unknown usage is a zero-amount consume and marks its run. */
  ghost predicate PoisonOk(s: State) {
    forall i | 0 <= i < |s.events| && s.events[i].row.confidence == Unknown ::
      && s.events[i].row.kind == Consume && s.events[i].row.amounts == ZERO
      && s.events[i].row.run in s.runs && s.runs[s.events[i].row.run].confidence == Unknown
  }

  ghost predicate Core(s: State) {
    && CountersOk(s) && RowsBound(s) && PrefixesOk(s.events) && SequencesOk(s.events)
    && IdentitiesOk(s.events) && PoisonOk(s)
  }

  /** The condition on one event that keeps the core invariant. */
  ghost predicate Appendable(s: State, e: Event) {
    && RowBound(s, e.row) && e.row.amounts.InLimits()
    && e.sequence == NextSequence(s, e.row.run) <= MAX_EVENT_SEQUENCE
    && !KeyUsed(s.events, e.row.key) && !DedupeUsed(s.events, e.row.dedupe)
    && (e.row.confidence == Unknown ==> e.row.kind == Consume && e.row.amounts == ZERO)
    && Outstanding(s.events, e.row.spawn).Plus(EffectOf(e)).NonNegative()
    && Used(ForSpawn(s.events, e.row.spawn)).Plus(UsageOf(e)).retry >= 0
    && (e.row.kind == Reserve ==>
          var run := s.runs[e.row.run];
          run.reserved.Plus(run.consumed).Plus(e.row.amounts).Within(run.budget))
  }

  // ---- Reserved and consumed of a run are sums over its spawns ----

  function SpawnTotal(es: seq<Event>): string -> Vector {
    spawn => Total(ForSpawn(es, spawn))
  }

  function SpawnUsed(es: seq<Event>): string -> Vector {
    spawn => Used(ForSpawn(es, spawn))
  }

  lemma ForSpawnAppend(es: seq<Event>, e: Event, spawn: string)
    ensures ForSpawn(es + [e], spawn)
            == if e.row.spawn == spawn then ForSpawn(es, spawn) + [e] else ForSpawn(es, spawn)
  {
    RowsAppend(es, e, OfSpawn(spawn));
    assert ForSpawn(es, spawn) + [] == ForSpawn(es, spawn);
  }

  lemma ForRunAppend(es: seq<Event>, e: Event, run: string)
    ensures ForRun(es + [e], run)
            == if e.row.run == run then ForRun(es, run) + [e] else ForRun(es, run)
  {
    RowsAppend(es, e, OfRun(run));
    assert ForRun(es, run) + [] == ForRun(es, run);
  }

  lemma SpawnTotalAppend(es: seq<Event>, e: Event, spawn: string)
    ensures e.row.spawn == spawn ==>
              && SpawnTotal(es + [e])(spawn) == SpawnTotal(es)(spawn).Plus(EffectOf(e))
              && SpawnUsed(es + [e])(spawn) == SpawnUsed(es)(spawn).Plus(UsageOf(e))
    ensures e.row.spawn != spawn ==>
              && SpawnTotal(es + [e])(spawn) == SpawnTotal(es)(spawn)
              && SpawnUsed(es + [e])(spawn) == SpawnUsed(es)(spawn)
  {
    ForSpawnAppend(es, e, spawn);
    if e.row.spawn == spawn {
      TotalAppend(ForSpawn(es, spawn), e);
    }
  }

  lemma SumOverSpawnsStep(es: seq<Event>, e: Event, owners: set<string>)
    requires e.row.spawn in owners
    ensures SumOver(owners, SpawnTotal(es + [e])) == SumOver(owners, SpawnTotal(es)).Plus(EffectOf(e))
    ensures SumOver(owners, SpawnUsed(es + [e])) == SumOver(owners, SpawnUsed(es)).Plus(UsageOf(e))
  {
    forall x | x in owners
      ensures x != e.row.spawn ==> SpawnTotal(es + [e])(x) == SpawnTotal(es)(x)
      ensures x != e.row.spawn ==> SpawnUsed(es + [e])(x) == SpawnUsed(es)(x)
    {
      SpawnTotalAppend(es, e, x);
    }
    SpawnTotalAppend(es, e, e.row.spawn);
    SumOverUpdate(owners, SpawnTotal(es), SpawnTotal(es + [e]), e.row.spawn, EffectOf(e));
    SumOverUpdate(owners, SpawnUsed(es), SpawnUsed(es + [e]), e.row.spawn, UsageOf(e));
  }

  lemma {:induction false} SumOverSpawns(es: seq<Event>, owners: set<string>)
    requires forall i | 0 <= i < |es| :: es[i].row.spawn in owners
    ensures SumOver(owners, SpawnTotal(es)) == Total(es)
    ensures SumOver(owners, SpawnUsed(es)) == Used(es)
  {
    if es == [] {
      SumOverZero(owners, SpawnTotal(es));
      SumOverZero(owners, SpawnUsed(es));
    } else {
      var init, e := es[..|es| - 1], es[|es| - 1];
      SumOverSpawns(init, owners);
      SumOverSpawnsStep(init, e, owners);
      TotalAppend(init, e);
      assert es == init + [e];
    }
  }

  function SpawnsOf(s: State, run: string): set<string> {
    set x | x in s.spawns && s.spawns[x].run == run
  }

  /** A run's net reservation and consumption are the sums of its spawns' shares. */
  lemma RunShares(s: State, run: string)
    requires RowsBound(s)
    ensures SumOver(SpawnsOf(s, run), SpawnTotal(s.events)) == Total(ForRun(s.events, run))
    ensures SumOver(SpawnsOf(s, run), SpawnUsed(s.events)) == Used(ForRun(s.events, run))
  {
    var owners, rows := SpawnsOf(s, run), ForRun(s.events, run);
    RowsMembers(s.events, OfRun(run));
    forall i | 0 <= i < |rows| ensures rows[i].row.spawn in owners {
      assert rows[i] in rows;
    }
    SumOverSpawns(rows, owners);
    forall x | x in owners ensures ForSpawn(rows, x) == ForSpawn(s.events, x) {
      RowsTwice(s.events, OfSpawn(x), OfRun(run));
    }
    SumOverAgree(owners, SpawnTotal(rows), SpawnTotal(s.events));
    SumOverAgree(owners, SpawnUsed(rows), SpawnUsed(s.events));
  }

  lemma {:induction false} UsedMostlyNonNegative(es: seq<Event>)
    requires forall i | 0 <= i < |es| :: es[i].row.amounts.InLimits()
    ensures Used(es).Minus(Used(es).RetryPart()).NonNegative()
  {
    if es != [] {
      var init, e := es[..|es| - 1], es[|es| - 1];
      assert es == init + [e];
      TotalAppend(init, e);
      UsedMostlyNonNegative(init);
    }
  }

  /** A spawn's share is bounded by its run's, because every share is non-negative. */
  lemma SharesNonNegative(s: State, run: string)
    requires RowsBound(s) && PrefixesOk(s.events)
    ensures Total(ForRun(s.events, run)).NonNegative() && Used(ForRun(s.events, run)).NonNegative()
    ensures forall x | x in SpawnsOf(s, run) :: Outstanding(s.events, x).Within(Total(ForRun(s.events, run)))
    ensures forall x | x in SpawnsOf(s, run) ::
              Used(ForSpawn(s.events, x)).Within(Used(ForRun(s.events, run)))
  {
    var owners := SpawnsOf(s, run);
    RunShares(s, run);
    forall x ensures SpawnTotal(s.events)(x).NonNegative() && SpawnUsed(s.events)(x).NonNegative() {
      var rows := ForSpawn(s.events, x);
      assert SafePrefixes(rows) && rows[..|rows|] == rows;
      RowsMembers(s.events, OfSpawn(x));
      forall i | 0 <= i < |rows| ensures rows[i].row.amounts.InLimits() {
        assert rows[i] in rows;
      }
      UsedMostlyNonNegative(rows);
    }
    SumOverNonNegative(owners, SpawnTotal(s.events));
    SumOverNonNegative(owners, SpawnUsed(s.events));
    forall x | x in owners
      ensures Outstanding(s.events, x).Within(Total(ForRun(s.events, run)))
      ensures Used(ForSpawn(s.events, x)).Within(Used(ForRun(s.events, run)))
    {
      assert SpawnTotal(s.events)(x).Within(SumOver(owners, SpawnTotal(s.events)));
      assert SpawnUsed(s.events)(x).Within(SumOver(owners, SpawnUsed(s.events)));
    }
  }

  // ---- Appending one event ----

  lemma AppendKeepsPrefixes(es: seq<Event>, e: Event)
    requires PrefixesOk(es)
    requires NetsOk(ForSpawn(es + [e], e.row.spawn))
    ensures PrefixesOk(es + [e])
  {
    forall spawn ensures SafePrefixes(ForSpawn(es + [e], spawn)) {
      var before, after := ForSpawn(es, spawn), ForSpawn(es + [e], spawn);
      ForSpawnAppend(es, e, spawn);
      assert SafePrefixes(before);
      forall n | 0 <= n <= |after| ensures NetsOk(after[..n]) {
        if n <= |before| {
          assert after[..n] == before[..n];
        } else {
          assert after[..n] == after;
        }
      }
    }
  }

  lemma AppendKeepsSequences(es: seq<Event>, e: Event)
    requires SequencesOk(es)
    requires e.sequence == |ForRun(es, e.row.run)| + 1 <= MAX_EVENT_SEQUENCE
    ensures SequencesOk(es + [e])
  {
    forall run ensures Numbered(ForRun(es + [e], run)) {
      ForRunAppend(es, e, run);
      assert Numbered(ForRun(es, run));
    }
  }

  lemma InsertKeepsRows(s: State, e: Event)
    requires RowsBound(s) && RowBound(s, e.row) && e.row.amounts.InLimits()
    ensures RowsBound(Insert(s, e))
  {
    var t := Insert(s, e);
    forall i | 0 <= i < |t.events|
      ensures RowBound(t, t.events[i].row) && t.events[i].row.amounts.InLimits()
    {
      if i < |s.events| {
        assert t.events[i] == s.events[i];
      }
    }
  }

  lemma InsertKeepsPoison(s: State, e: Event)
    requires PoisonOk(s) && e.row.run in s.runs
    requires e.row.confidence == Unknown ==> e.row.kind == Consume && e.row.amounts == ZERO
    ensures PoisonOk(Insert(s, e))
  {
    var t := Insert(s, e);
    forall i | 0 <= i < |t.events| && t.events[i].row.confidence == Unknown
      ensures t.events[i].row.kind == Consume && t.events[i].row.amounts == ZERO
      ensures t.events[i].row.run in t.runs && t.runs[t.events[i].row.run].confidence == Unknown
    {
      if i < |s.events| {
        assert t.events[i] == s.events[i];
      }
    }
  }

  lemma InsertKeepsCounters(s: State, e: Event)
    requires CountersOk(s) && Appendable(s, e)
    requires RowsBound(Insert(s, e)) && PrefixesOk(Insert(s, e).events)
    ensures CountersOk(Insert(s, e))
  {
    var t := Insert(s, e);
    forall r | r in t.runs ensures RunOk(t.events, r, t.runs[r]) {
      if r == e.row.run {
        ChargedRunOk(s, e);
      } else {
        assert RunOk(s.events, r, s.runs[r]);
        ForRunAppend(s.events, e, r);
      }
    }
  }

  lemma ChargedRunOk(s: State, e: Event)
    requires CountersOk(s) && Appendable(s, e)
    requires RowsBound(Insert(s, e)) && PrefixesOk(Insert(s, e).events)
    ensures RunOk(Insert(s, e).events, e.row.run, Charge(s.runs[e.row.run], e.row))
  {
    var r := e.row.run;
    var run, charged, rows := s.runs[r], Charge(s.runs[r], e.row), ForRun(s.events, r);
    assert RunOk(s.events, r, run);
    assert charged.reserved == Total(ForRun(s.events + [e], r))
        && charged.consumed == Used(ForRun(s.events + [e], r)) by {
      ForRunAppend(s.events, e, r);
      TotalAppend(rows, e);
    }
    assert charged.reserved.NonNegative() && charged.consumed.NonNegative() by {
      SharesNonNegative(Insert(s, e), r);
    }
    ChargeWithinBudget(run, e);
  }

  lemma ChargeWithinBudget(run: Run, e: Event)
    requires e.row.amounts.NonNegative()
    requires run.reserved.Plus(run.consumed).Within(run.budget)
    requires e.row.kind == Reserve ==> run.reserved.Plus(run.consumed).Plus(e.row.amounts).Within(run.budget)
    ensures Charge(run, e.row).reserved.Plus(Charge(run, e.row).consumed).Within(run.budget)
  {
  }

  /** One appended event keeps the whole core invariant. */
  lemma InsertKeepsCore(s: State, e: Event)
    requires Core(s) && Appendable(s, e)
    ensures Core(Insert(s, e))
  {
    ForSpawnAppend(s.events, e, e.row.spawn);
    TotalAppend(ForSpawn(s.events, e.row.spawn), e);
    AppendKeepsPrefixes(s.events, e);
    AppendKeepsSequences(s.events, e);
    InsertKeepsRows(s, e);
    InsertKeepsPoison(s, e);
    InsertKeepsCounters(s, e);
    IdentitiesAppend(s.events, e);
  }

  lemma IdentitiesAppend(es: seq<Event>, e: Event)
    requires IdentitiesOk(es) && !KeyUsed(es, e.row.key) && !DedupeUsed(es, e.row.dedupe)
    ensures IdentitiesOk(es + [e])
  {
  }
}
