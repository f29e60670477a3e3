/**
 The whole-ledger queries the implementation runs, and the proof that on a ledger that satisfies
 the core invariant each of them agrees with a local fact about one spawn or one run.
 */
module BudgetQueries {
  import opened Wrappers
  import opened Amounts
  import opened BudgetModel
  import opened BudgetSpec
  import opened BudgetCore

  /** The row filter of the outstanding query. */
  function Matching(row: Payload): Event -> bool {
    (e: Event) =>
      && e.row.spawn == row.spawn && e.row.run == row.run && e.row.transition == row.transition
      && if e.row.kind == HumanAttention then e.row.binding.capability == row.binding.capability
         else e.row.binding == row.binding
  }

  /** The spawn's outstanding amount, refused when it is not a legal amount. */
  function SpawnOutstanding(es: seq<Event>, row: Payload): Result<Vector, Error> {
    var sum := Total(Rows(es, Matching(row)));
    if sum.InLimits() then Success(sum) else Failure(Unsafe)
  }

  function MaxSequence(es: seq<Event>): int {
    if es == [] then 0
    else
      var rest := MaxSequence(es[..|es| - 1]);
      if es[|es| - 1].sequence > rest then es[|es| - 1].sequence else rest
  }

  /** The unknown-usage query finds no row. */
  predicate UnknownUsageClean(s: State) {
    !exists i | 0 <= i < |s.events| ::
      && s.events[i].row.confidence == Unknown
      && s.events[i].row.run in s.runs
      && var run := s.runs[s.events[i].row.run];
         || run.confidence != Unknown || Closed(run.state)
         || s.events[i].row.kind != Consume || s.events[i].row.amounts != ZERO
  }

  /** The composite-binding query finds no row. */
  predicate BindingsClean(s: State) {
    forall i | 0 <= i < |s.events| && s.events[i].row.kind != HumanAttention ::
      RowBound(s, s.events[i].row)
  }

  /** One window partition: same run, transition, spawn and capability class. */
  function SamePartition(e: Event): Event -> bool {
    (x: Event) =>
      && x.row.run == e.row.run && x.row.transition == e.row.transition
      && x.row.spawn == e.row.spawn && x.row.binding.capability == e.row.binding.capability
  }

  /** The running nets of every row's partition, up to that row, are non-negative. */
  predicate PrefixesClean(es: seq<Event>) {
    forall i | 0 <= i < |es| :: NetsOk(Rows(es[..i + 1], SamePartition(es[i])))
  }

  /** The run's row or any of its events records unknown usage. */
  predicate Poisoned(s: State, run: string)
    requires run in s.runs
  {
    || s.runs[run].confidence == Unknown
    || exists i | 0 <= i < |s.events| ::
         s.events[i].row.run == run && s.events[i].row.confidence == Unknown
  }

  lemma PoisonQuery(s: State, run: string)
    requires PoisonOk(s) && run in s.runs
    ensures Poisoned(s, run) <==> s.runs[run].confidence == Unknown
  {
  }

  predicate LedgerQueriesClean(s: State) {
    UnknownUsageClean(s) && BindingsClean(s) && PrefixesClean(s.events)
  }

  // ---- Each query is a local fact ----

  lemma MatchingIsSpawn(s: State, row: Payload)
    requires RowsBound(s) && RowBound(s, row)
    ensures Rows(s.events, Matching(row)) == ForSpawn(s.events, row.spawn)
  {
    forall e | e in s.events ensures Matching(row)(e) == OfSpawn(row.spawn)(e) {
      var i :| 0 <= i < |s.events| && s.events[i] == e;
      assert RowBound(s, s.events[i].row);
    }
    RowsAgree(s.events, Matching(row), OfSpawn(row.spawn));
  }

  /** The outstanding query always yields a legal amount: the spawn's net reservation. */
  lemma OutstandingQuery(s: State, row: Payload)
    requires Core(s) && RowBound(s, row)
    ensures SpawnOutstanding(s.events, row) == Success(Outstanding(s.events, row.spawn))
    ensures Outstanding(s.events, row.spawn).InLimits()
    ensures Outstanding(s.events, row.spawn).Within(s.runs[row.run].reserved)
    ensures Used(ForSpawn(s.events, row.spawn)).retry >= 0
    ensures Used(ForSpawn(s.events, row.spawn)).Within(s.runs[row.run].consumed)
  {
    MatchingIsSpawn(s, row);
    var rows := ForSpawn(s.events, row.spawn);
    assert SafePrefixes(rows) && rows[..|rows|] == rows;
    SharesNonNegative(s, row.run);
    assert RunOk(s.events, row.run, s.runs[row.run]);
    assert row.spawn in SpawnsOf(s, row.run);
  }

  lemma {:induction false} MaxSequenceNumbered(es: seq<Event>)
    requires Numbered(es)
    ensures MaxSequence(es) == |es|
  {
    if es != [] {
      MaxSequenceNumbered(es[..|es| - 1]);
    }
  }

  lemma MaxSequenceQuery(s: State, run: string)
    requires SequencesOk(s.events)
    ensures MaxSequence(ForRun(s.events, run)) + 1 == NextSequence(s, run)
  {
    assert Numbered(ForRun(s.events, run));
    MaxSequenceNumbered(ForRun(s.events, run));
  }

  lemma PartitionIsSpawn(s: State, i: nat, n: nat)
    requires RowsBound(s) && i < |s.events| && n <= |s.events|
    ensures Rows(s.events[..n], SamePartition(s.events[i])) == ForSpawn(s.events[..n], s.events[i].row.spawn)
  {
    var e := s.events[i];
    assert RowBound(s, e.row);
    forall x | x in s.events[..n] ensures SamePartition(e)(x) == OfSpawn(e.row.spawn)(x) {
      var j :| 0 <= j < n && s.events[j] == x;
      assert RowBound(s, s.events[j].row);
    }
    RowsAgree(s.events[..n], SamePartition(e), OfSpawn(e.row.spawn));
  }

  lemma WindowFromPrefixes(s: State)
    requires RowsBound(s) && PrefixesOk(s.events)
    ensures PrefixesClean(s.events)
  {
    forall i | 0 <= i < |s.events|
      ensures NetsOk(Rows(s.events[..i + 1], SamePartition(s.events[i])))
    {
      var spawn := s.events[i].row.spawn;
      PartitionIsSpawn(s, i, i + 1);
      var part, whole := ForSpawn(s.events[..i + 1], spawn), ForSpawn(s.events, spawn);
      RowsConcat(s.events[..i + 1], s.events[i + 1..], OfSpawn(spawn));
      assert s.events == s.events[..i + 1] + s.events[i + 1..];
      assert SafePrefixes(whole);
      assert part == whole[..|part|];
    }
  }

  /**
   On a core-valid ledger the three inline queries pass exactly when no poisoned run has been
   closed: the window and binding queries can never be what refuses.
   */
  lemma LedgerQueriesAreLocal(s: State)
    requires Core(s)
    ensures LedgerQueriesClean(s) <==> !ClosedPoison(s)
  {
    WindowFromPrefixes(s);
  }

  /** The window query is what stops a spawn from restoring retries it never spent. */
  lemma OverRestoreCaught(s: State, e: Event)
    requires Core(s) && RowBound(s, e.row) && e.row.amounts.InLimits()
    requires Used(ForSpawn(s.events, e.row.spawn)).Plus(UsageOf(e)).retry < 0
    ensures !LedgerQueriesClean(Insert(s, e))
  {
    var t, n := Insert(s, e), |s.events|;
    InsertKeepsRows(s, e);
    PartitionIsSpawn(t, n, n + 1);
    ForSpawnAppend(s.events, e, e.row.spawn);
    TotalAppend(ForSpawn(s.events, e.row.spawn), e);
    assert t.events[..n + 1] == t.events;
    assert !NetsOk(Rows(t.events[..n + 1], SamePartition(t.events[n])));
  }

  lemma AdmittedRowAppendable(s: State, row: Payload)
    requires Core(s) && RowBound(s, row) && row.amounts.InLimits()
    requires row.confidence == Unknown ==> row.kind == Consume && row.amounts == ZERO
    requires LocalRefusal(s, row).None? && CounterRefusal(s, row).None?
    requires NextSequence(s, row.run) <= MAX_EVENT_SEQUENCE
    requires !KeyUsed(s.events, row.key) && !DedupeUsed(s.events, row.dedupe)
    ensures Appendable(s, FreshEvent(s, row))
  {
    OutstandingQuery(s, row);
  }

  /** A row that no local condition refuses keeps the core invariant. */
  lemma AdmittedIsAppendable(s: State, row: Payload)
    requires Core(s) && RowBound(s, row) && row.amounts.InLimits()
    requires row.confidence == Unknown ==> row.kind == Consume && row.amounts == ZERO
    requires LocalRefusal(s, row).None? && CounterRefusal(s, row).None?
    requires NextSequence(s, row.run) <= MAX_EVENT_SEQUENCE
    requires !KeyUsed(s.events, row.key) && !DedupeUsed(s.events, row.dedupe)
    ensures Appendable(s, FreshEvent(s, row))
    ensures Core(Insert(s, FreshEvent(s, row)))
  {
    AdmittedRowAppendable(s, row);
    InsertKeepsCore(s, FreshEvent(s, row));
  }

  lemma {:induction false} FindEventFinds(es: seq<Event>, key: string)
    ensures FindEvent(es, key).Some? <==> KeyUsed(es, key)
    ensures FindEvent(es, key).Some? ==>
              FindEvent(es, key).value in es && FindEvent(es, key).value.row.key == key
  {
    if es != [] {
      var init := es[..|es| - 1];
      FindEventFinds(init, key);
      if KeyUsed(es, key) && es[|es| - 1].row.key != key {
        var i :| 0 <= i < |es| && es[i].row.key == key;
        assert init[i].row.key == key;
      }
      if FindEvent(es, key).Some? && es[|es| - 1].row.key != key {
        var i :| 0 <= i < |init| && init[i].row.key == key;
        assert es[i].row.key == key;
      }
    }
  }
}
