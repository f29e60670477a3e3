/**
 The budget database as the program drives it: rows inserted and counters updated in place under
 one transaction, guarded UPDATE statements, whole-ledger queries before COMMIT, and ROLLBACK.
 Every call is proved to do exactly what its specification function says.
 */
module BudgetDatabase {
  import opened Wrappers
  import opened Amounts
  import opened BudgetModel
  import opened BudgetSpec
  import opened BudgetCore
  import opened BudgetQueries
  import opened BudgetSettlement

  class Database {
    var runs: map<string, Run>
    var spawns: map<string, Spawn>
    var clocks: map<string, Clock>
    var policies: map<string, ZeroPolicy>
    var events: seq<Event>
    var settlements: map<string, Settlement>

    function Snapshot(): State
      reads this
    {
      State(runs, spawns, clocks, policies, events, settlements)
    }

    /** Pre-dispatch counters: the UPDATE matches its row exactly when the result fits the budget. */
    method UpdateCounters(row: Payload) returns (updated: bool)
      requires row.kind == Reserve || row.kind == Release
      requires row.amounts.NonNegative() && row.confidence != Unknown
      requires row.run in runs && CountersFit(runs[row.run])
      modifies this`runs
      ensures updated <==> CountersFit(Charge(old(runs)[row.run], row))
      ensures runs == if updated then old(runs)[row.run := Charge(old(runs)[row.run], row)] else old(runs)
    {
      var run, v := runs[row.run], row.amounts;
      var confidence := if run.confidence == Known && row.confidence == Estimated
                        then Estimated else run.confidence;
      if row.kind == Reserve {
        updated := run.reserved.Plus(run.consumed).Plus(v).Within(run.budget);
        if updated {
          runs := runs[row.run := run.(reserved := run.reserved.Plus(v), confidence := confidence)];
        }
      } else {
        updated := v.Within(run.reserved);
        if updated {
          runs := runs[row.run := run.(reserved := run.reserved.Minus(v), confidence := confidence)];
        }
      }
    }

    /**
     Post-dispatch counters.  Each UPDATE has a lower and an upper guard; together they hold
     exactly when the updated row fits, which the lower guard alone already decides.
     */
    method UpdatePostDispatchCounters(row: Payload) returns (updated: bool)
      requires row.kind != Reserve && row.kind != Release
      requires row.amounts.NonNegative()
      requires row.confidence == Unknown ==> row.kind == Consume
      requires row.run in runs && CountersFit(runs[row.run])
      modifies this`runs
      ensures updated <==> CountersFit(Charge(old(runs)[row.run], row))
      ensures updated <==> && Charge(old(runs)[row.run], row).reserved.NonNegative()
                           && Charge(old(runs)[row.run], row).consumed.NonNegative()
      ensures runs == if updated then old(runs)[row.run := Charge(old(runs)[row.run], row)] else old(runs)
    {
      var run := runs[row.run];
      var confidence := if run.confidence == Known && row.confidence == Estimated
                        then Estimated else run.confidence;
      var r, c, b := run.reserved, run.consumed, run.budget;
      if row.kind == Consume {
        var v := row.amounts.UsagePart();
        updated := && v.time <= r.time && v.input <= r.input && v.output <= r.output && v.cost <= r.cost
                   && c.time + v.time <= b.time && c.input + v.input <= b.input
                   && c.output + v.output <= b.output && c.cost + v.cost <= b.cost;
        if updated {
          runs := runs[row.run := run.(
                         reserved := r.Minus(v), consumed := c.Plus(v),
                         confidence := if row.confidence == Unknown then Unknown else confidence)];
        }
      } else if row.kind == RetryDecrement {
        var n := row.amounts.retry;
        updated := n <= r.retry && c.retry + n <= b.retry;
        if updated {
          runs := runs[row.run := run.(
                         reserved := r.(retry := r.retry - n), consumed := c.(retry := c.retry + n),
                         confidence := confidence)];
        }
      } else if row.kind == RetryRestore {
        var n := row.amounts.retry;
        updated := n <= c.retry && r.retry + n <= b.retry;
        if updated {
          runs := runs[row.run := run.(
                         reserved := r.(retry := r.retry + n), consumed := c.(retry := c.retry - n),
                         confidence := confidence)];
        }
      } else {
        var n := row.amounts.human;
        updated := n <= r.human && c.human + n <= b.human;
        if updated {
          runs := runs[row.run := run.(
                         reserved := r.(human := r.human - n), consumed := c.(human := c.human + n),
                         confidence := confidence)];
        }
      }
    }

    /** INSERT one event, then its guarded UPDATE.  A refusal leaves the transaction to be rolled back. */
    method InsertEvent(e: Event, rejected: bool) returns (done: Outcome<Error>)
      requires e.row.run in runs && CountersFit(runs[e.row.run])
      requires e.row.amounts.NonNegative()
      requires e.row.confidence == Unknown ==> e.row.kind == Consume
      modifies this`runs, this`events
      ensures done == if KeyUsed(old(events), e.row.key) || DedupeUsed(old(events), e.row.dedupe) || rejected
                      then Fail(Conflict)
                      else Need(CountersFit(Charge(old(runs)[e.row.run], e.row)), Exceeded)
      ensures done.Pass? ==> Snapshot() == Insert(old(Snapshot()), e)
    {
      if KeyUsed(events, e.row.key) || DedupeUsed(events, e.row.dedupe) || rejected {
        return Fail(Conflict);
      }
      events := events + [e];
      var updated;
      if e.row.kind == Reserve || e.row.kind == Release {
        updated := UpdateCounters(e.row);
      } else {
        updated := UpdatePostDispatchCounters(e.row);
      }
      return Need(updated, Exceeded);
    }

    /** The service-level verdict and the three inline queries over the whole ledger. */
    predicate InvariantsHold(verdict: bool)
      reads this
    {
      LedgerQueriesClean(Snapshot()) && verdict
    }

    /** The checks a row's own spawn must pass before it is written. */
    method CheckOutstanding(row: Payload) returns (refusal: Option<Error>)
      requires row.run in runs && row.amounts.InLimits()
      ensures SpawnOutstanding(events, row) == Success(Outstanding(events, row.spawn)) ==>
                refusal == LocalRefusal(Snapshot(), row)
    {
      if row.kind == Reserve || row.kind == RetryRestore {
        return None;
      }
      var sum := SpawnOutstanding(events, row);
      if sum.Failure? {
        return Some(sum.error);
      }
      var outstanding := sum.value;
      if row.kind == RetryDecrement {
        return if row.amounts.retry > outstanding.retry then Some(Exceeded) else None;
      }
      if row.kind == HumanAttention {
        return if row.amounts.human > outstanding.human then Some(Exceeded) else None;
      }
      var spent := if row.kind == Consume then row.amounts.UsagePart() else row.amounts;
      var remaining := outstanding.Minus(spent);
      assert remaining == outstanding.Plus(Effect(row.kind, row.amounts));
      if !spent.Within(outstanding) {
        return Some(Exceeded);
      }
      refusal := CheckFunding(runs[row.run].selection, remaining);
    }

    /** Write one row and commit, or roll everything back. */
    method AppendRow(row: Payload, v: Verdicts) returns (answer: Result<EventResult, Error>)
      requires Core(Snapshot()) && RowBound(Snapshot(), row) && row.amounts.InLimits()
      requires !KeyUsed(events, row.key)
      requires row.confidence == Unknown ==> row.kind == Consume && row.amounts == ZERO
      modifies this`runs, this`events
      ensures Reply(Snapshot(), answer) == Append(old(Snapshot()), row, v)
    {
      OutstandingQuery(Snapshot(), row);
      var refusal := CheckOutstanding(row);
      if refusal.Some? {
        return Failure(refusal.value);
      }
      MaxSequenceQuery(Snapshot(), row.run);
      var sequence := MaxSequence(ForRun(events, row.run)) + 1;
      if !(1 <= sequence <= MAX_EVENT_SEQUENCE) {
        return Failure(Exceeded);
      }
      WriteDecision(Snapshot(), FreshEvent(Snapshot(), row));
      answer := WriteRow(Event(row, sequence, None), v);
    }

    /** INSERT, UPDATE, the closing queries, then COMMIT or ROLLBACK. */
    method WriteRow(e: Event, v: Verdicts) returns (answer: Result<EventResult, Error>)
      requires e.row.run in runs && e.row.amounts.NonNegative()
      requires e.row.confidence == Unknown ==> e.row.kind == Consume
      requires e == FreshEvent(Snapshot(), e.row) && e.sequence <= MAX_EVENT_SEQUENCE
      requires !KeyUsed(events, e.row.key) && LocalRefusal(Snapshot(), e.row).None?
      requires Decided(Snapshot(), e)
      modifies this`runs, this`events
      ensures Reply(Snapshot(), answer) == Append(old(Snapshot()), e.row, v)
    {
      var runs0, events0 := runs, events;
      var done := InsertEvent(e, v.rejected == Some(0));
      if done.Pass? && !InvariantsHold(v.after) {
        done := Fail(Unsafe);
      }
      if done.Fail? {
        runs, events := runs0, events0;
        return Failure(done.error);
      }
      return Success(EventResult(e.row.key, e.sequence, false));
    }

    /** Answer a repeated idempotency key: the original row, or a conflict. */
    method AnswerReplay(prior: Event, row: Payload, v: Verdicts) returns (answer: Result<EventResult, Error>)
      requires Core(Snapshot())
      ensures Reply(Snapshot(), answer) == ReplayEvent(Snapshot(), prior, row, v)
    {
      LedgerQueriesAreLocal(Snapshot());
      if prior.row != row {
        return Failure(Conflict);
      }
      if !InvariantsHold(v.after) {
        return Failure(Unsafe);
      }
      return Success(EventResult(prior.row.key, prior.sequence, true));
    }

    /** `record_budget_event`: one reserve or release. */
    method RecordBudgetEvent(kind: Kind, raw: Request, policy: Option<string>, v: Verdicts)
      returns (answer: Result<EventResult, Error>)
      requires Core(Snapshot())
      modifies this`runs, this`events
      ensures Reply(Snapshot(), answer) == RecordSpec(old(Snapshot()), kind, raw, policy, v)
    {
      var admitted := AdmitRecord(Snapshot(), kind, Stripped(raw), policy, v.schema);
      if admitted.Failure? {
        return Failure(admitted.error);
      }
      answer := RecordRow(admitted.value, v);
    }

    method RecordRow(row: Payload, v: Verdicts) returns (answer: Result<EventResult, Error>)
      requires Core(Snapshot()) && RecordAdmissible(Snapshot(), row)
      modifies this`runs, this`events
      ensures Reply(Snapshot(), answer) == RecordAdmitted(old(Snapshot()), row, v)
    {
      FindEventFinds(events, row.key);
      var prior := FindEvent(events, row.key);
      if prior.Some? {
        answer := AnswerReplay(prior.value, row, v);
        return;
      }
      if SettlementDedupeUsed(Snapshot(), row.dedupe) {
        return Failure(Conflict);
      }
      if spawns[row.spawn].state != Pending {
        return Failure(Unsafe);
      }
      if runs[row.run].state != Candidate {
        return Failure(Unsafe);
      }
      if spawns[row.spawn].intent.Some? {
        return Failure(Unsafe);
      }
      answer := AppendRow(row, v);
    }

    /** `record_post_dispatch_event`: usage, retry or human-attention of an accepted spawn. */
    method RecordPostDispatchEvent(kind: Kind, raw: Request, v: Verdicts)
      returns (answer: Result<EventResult, Error>)
      requires Core(Snapshot())
      modifies this`runs, this`events
      ensures Reply(Snapshot(), answer) == PostDispatchSpec(old(Snapshot()), kind, raw, v)
    {
      var admitted := AdmitPostDispatch(Snapshot(), kind, Stripped(raw), v.schema);
      if admitted.Failure? {
        return Failure(admitted.error);
      }
      answer := PostDispatchRow(admitted.value, v);
    }

    method PostDispatchRow(row: Payload, v: Verdicts) returns (answer: Result<EventResult, Error>)
      requires Core(Snapshot()) && PostDispatchAdmissible(Snapshot(), row)
      modifies this`runs, this`events
      ensures Reply(Snapshot(), answer) == PostDispatchAdmitted(old(Snapshot()), row, v)
    {
      FindEventFinds(events, row.key);
      var prior := FindEvent(events, row.key);
      if prior.Some? {
        answer := AnswerReplay(prior.value, row, v);
        return;
      }
      if SettlementDedupeUsed(Snapshot(), row.dedupe) {
        return Failure(Conflict);
      }
      if SpawnSettled(Snapshot(), row.spawn) {
        return Failure(Conflict);
      }
      PoisonQuery(Snapshot(), row.run);
      if Poisoned(Snapshot(), row.run) {
        return Failure(Unsafe);
      }
      if !PostDispatchState(runs[row.run].state) {
        return Failure(Unsafe);
      }
      LedgerQueriesAreLocal(Snapshot());
      if !InvariantsHold(v.before) {
        return Failure(Unsafe);
      }
      answer := AppendRow(row, v);
    }

    /** Insert one linked event of a settlement; amounts of zero are skipped unless forced. */
    method InsertLinked(
      p: SettlementPayload, kind: Kind, amounts: Vector, force: bool, v: Verdicts,
      results: seq<EventResult>, ghost es: seq<Event>, ghost e: Event)
      returns (done: Outcome<Error>, more: seq<EventResult>)
      requires !Skipped(amounts, force) ==>
                 e.row == LinkedRow(p, kind, amounts) && EventDecided(Snapshot(), es, e, p)
      modifies this`runs, this`events
      ensures Skipped(amounts, force) ==>
                done == Pass && more == results && Snapshot() == old(Snapshot())
      ensures !Skipped(amounts, force) ==>
                done == match EventRefusal(es, e, |results| + 1, v) case None => Pass case Some(x) => Fail(x)
      ensures !Skipped(amounts, force) && done.Pass? ==>
                && Snapshot() == Insert(old(Snapshot()), e)
                && more == results + [EventResult(e.row.key, e.sequence, false)]
    {
      more := results;
      if Skipped(amounts, force) {
        return Pass, more;
      }
      var sequence := MaxSequence(ForRun(events, p.run)) + 1;
      if !(1 <= sequence <= MAX_EVENT_SEQUENCE) {
        return Fail(Exceeded), more;
      }
      var event := Event(LinkedRow(p, kind, amounts), sequence, Some(p.key));
      done := InsertEvent(event, v.rejected == Some(|results| + 1));
      more := results + [EventResult(event.row.key, sequence, false)];
    }

    /** The four inserts of a settlement, in order. */
    method WriteBlock(
      p: SettlementPayload, released: Vector, v: Verdicts, ghost es: seq<Event>, ghost block: seq<Event>)
      returns (done: Outcome<Error>, results: seq<EventResult>)
      requires BlockPlan(Snapshot(), es, block, p) && BlockLayout(p, released, block)
      modifies this`runs, this`events
      ensures done == match BlockRefusal(es, block, 0, v) case None => Pass case Some(x) => Fail(x)
      ensures done.Pass? ==>
                && Snapshot() == InsertAll(old(Snapshot()), block) && AllFree(es, block)
                && results == Results(block, false)
    {
      ghost var base := Snapshot();
      ghost var a := Taken(p.actual.UsagePart(), false);
      ghost var b := Taken(p.actual.RetryPart(), false);
      ghost var c := Taken(p.actual.HumanPart(), false);
      ProgressStart(base, es, block, v);
      done, results := WriteLinked(p, Consume, p.actual.UsagePart(), false, v, [], base, es, block, 0);
      if done.Fail? {
        return;
      }
      done, results := WriteLinked(p, RetryDecrement, p.actual.RetryPart(), false, v, results, base, es, block, a);
      if done.Fail? {
        return;
      }
      done, results := WriteLinked(p, HumanAttention, p.actual.HumanPart(), false, v, results, base, es, block, a + b);
      if done.Fail? {
        return;
      }
      done, results := WriteLinked(
        p, Release, released, TerminalMarker(p, released), v, results, base, es, block, a + b + c);
      if done.Pass? {
        ProgressDone(base, es, block, v, Snapshot(), results);
      }
    }

    /** `InsertLinked`, with the progress it makes through `block`. */
    method WriteLinked(
      p: SettlementPayload, kind: Kind, amounts: Vector, force: bool, v: Verdicts,
      results: seq<EventResult>, ghost base: State, ghost es: seq<Event>, ghost block: seq<Event>,
      ghost n: nat)
      returns (done: Outcome<Error>, more: seq<EventResult>)
      requires n == |results|
      requires BlockPlan(base, es, block, p) && Progress(base, es, block, v, Snapshot(), results)
      requires SlotOk(p, block, n, kind, amounts, force)
      modifies this`runs, this`events
      ensures done.Pass? ==> Progress(base, es, block, v, Snapshot(), more)
      ensures done.Pass? ==> |more| == |results| + Taken(amounts, force)
      ensures done.Fail? ==> BlockRefusal(es, block, 0, v) == Some(done.error)
    {
      ghost var e := Event(LinkedRow(p, kind, amounts), 0, None);
      if !Skipped(amounts, force) {
        ProgressDecided(base, es, block, p, v, Snapshot(), results);
        e := block[|results|];
      }
      ghost var t := Snapshot();
      done, more := InsertLinked(p, kind, amounts, force, v, results, es, e);
      if !Skipped(amounts, force) {
        if done.Pass? {
          ProgressNext(base, es, block, v, t, results, Snapshot(), more);
        } else {
          ProgressRefused(base, es, block, v, t, results);
        }
      }
    }

    /** `_settle_budget_on_connection` for an admitted payload; a refusal is left for ROLLBACK. */
    method SettleOnConnection(p: SettlementPayload, v: Verdicts)
      returns (answer: Result<SettlementResult, Error>)
      requires Core(Snapshot()) && SettlementAdmissible(Snapshot(), p)
      modifies this`runs, this`events, this`settlements
      ensures answer == SettleAdmitted(old(Snapshot()), p, v).answer
      ensures answer.Success? ==> Snapshot() == SettleAdmitted(old(Snapshot()), p, v).state
    {
      LedgerQueriesAreLocal(Snapshot());
      if p.key in settlements {
        if settlements[p.key].row != p {
          return Failure(Conflict);
        }
        if !InvariantsHold(v.after) {
          return Failure(Unsafe);
        }
        return Success(SettlementResult(
                         p.key, Results(LinkedTo(events, p.key), true), settlements[p.key].released, true));
      }
      if DedupeUsed(events, p.dedupe) {
        return Failure(Conflict);
      }
      if !FinalState(runs[p.run].state) {
        return Failure(Unsafe);
      }
      PoisonQuery(Snapshot(), p.run);
      if Poisoned(Snapshot(), p.run) {
        return Failure(Unsafe);
      }
      if !InvariantsHold(v.before) {
        return Failure(Unsafe);
      }
      SettlementDecision(Snapshot(), p);
      answer := SettleOutstanding(p, v);
    }

    /** What the settlement leaves of its spawn's outstanding amount. */
    method Remainder(p: SettlementPayload) returns (released: Result<Vector, Error>)
      ensures var sum := SpawnOutstanding(events, LinkedRow(p, Release, p.actual));
        released == if sum.Failure? then sum
                    else if !p.actual.Within(sum.value) then Failure(Exceeded)
                    else Success(sum.value.Minus(p.actual))
    {
      var outstanding :- SpawnOutstanding(events, LinkedRow(p, Release, p.actual));
      if !p.actual.Within(outstanding) {
        return Failure(Exceeded);
      }
      return Success(outstanding.Minus(p.actual));
    }

    /** Split what is outstanding into usage and remainder and write both. */
    method SettleOutstanding(p: SettlementPayload, v: Verdicts)
      returns (answer: Result<SettlementResult, Error>)
      requires SettlementDecided(Snapshot(), p)
      modifies this`runs, this`events, this`settlements
      ensures answer == SettleFresh(old(Snapshot()), p, v).answer
      ensures answer.Success? ==> Snapshot() == SettleFresh(old(Snapshot()), p, v).state
    {
      var released :- Remainder(p);
      if SettlementDedupeUsed(Snapshot(), p.dedupe) || SpawnSettled(Snapshot(), p.spawn) || v.rejected == Some(0) {
        return Failure(Conflict);
      }
      answer := WriteSettlement(p, released, v);
    }

    method WriteSettlement(p: SettlementPayload, released: Vector, v: Verdicts)
      returns (answer: Result<SettlementResult, Error>)
      requires SettlementDecided(Snapshot(), p) && p.actual.Within(Outstanding(events, p.spawn))
      requires released == Released(Snapshot(), p)
      modifies this`runs, this`events, this`settlements
      ensures answer == SettleInto(old(Snapshot()), p, v).answer
      ensures answer.Success? ==> Snapshot() == SettleInto(old(Snapshot()), p, v).state
    {
      ghost var s := Snapshot();
      settlements := settlements[p.key := Settlement(p, released)];
      var done, results := WriteBlock(p, released, v, s.events, SettlementBlock(s, p));
      if done.Fail? {
        return Failure(done.error);
      }
      if !InvariantsHold(v.after) {
        return Failure(Unsafe);
      }
      return Success(SettlementResult(p.key, results, released, false));
    }

    /** `settle_budget`: the whole settlement in one transaction. */
    method SettleBudget(raw: Request, v: Verdicts) returns (answer: Result<SettlementResult, Error>)
      requires Core(Snapshot())
      modifies this`runs, this`events, this`settlements
      ensures Reply(Snapshot(), answer) == SettleSpec(old(Snapshot()), raw, v)
    {
      var admitted := AdmitSettlement(Snapshot(), Stripped(raw), v.schema);
      if admitted.Failure? {
        return Failure(admitted.error);
      }
      answer := SettleOrRollBack(admitted.value, v);
    }

    method SettleOrRollBack(p: SettlementPayload, v: Verdicts)
      returns (answer: Result<SettlementResult, Error>)
      requires Core(Snapshot()) && SettlementAdmissible(Snapshot(), p)
      modifies this`runs, this`events, this`settlements
      ensures Reply(Snapshot(), answer) == SettleAdmitted(old(Snapshot()), p, v)
    {
      var runs0, events0, settlements0 := runs, events, settlements;
      SettleRefusalKeepsState(Snapshot(), p, v);
      answer := SettleOnConnection(p, v);
      if answer.Failure? {
        runs, events, settlements := runs0, events0, settlements0;
      }
    }
  }

  /** The outstanding query is exact, and the block it leads to is decided by identities alone. */
  ghost predicate SettlementDecided(s: State, p: SettlementPayload) {
    && p.run in s.runs
    && SpawnOutstanding(s.events, LinkedRow(p, Release, p.actual)) == Success(Outstanding(s.events, p.spawn))
    && (p.actual.Within(Outstanding(s.events, p.spawn)) ==>
          && BlockPlan(WithSettlement(s, p), s.events, SettlementBlock(s, p), p)
          && BlockLayout(p, Released(s, p), SettlementBlock(s, p))
          && (AllFree(s.events, SettlementBlock(s, p)) ==>
                (LedgerQueriesClean(Settled(s, p)) <==> !ClosedPoison(Settled(s, p)))))
  }

  lemma SettlementDecision(s: State, p: SettlementPayload)
    requires Core(s) && SettlementAdmissible(s, p)
    ensures SettlementDecided(s, p)
  {
    OutstandingQuery(s, LinkedRow(p, Release, p.actual));
    if p.actual.Within(Outstanding(s.events, p.spawn)) {
      SettlementBlockPlan(s, p);
      SettlementBlockLayout(s, p);
      if AllFree(s.events, SettlementBlock(s, p)) {
        SettledQueries(s, p);
      }
    }
  }

  /** The closing queries of a settlement whose block went in. */
  lemma SettledQueries(s: State, p: SettlementPayload)
    requires Settleable(s, p) && AllFree(s.events, SettlementBlock(s, p))
    ensures LedgerQueriesClean(Settled(s, p)) <==> !ClosedPoison(Settled(s, p))
  {
    var block := SettlementBlock(s, p);
    assert block[..|block|] == block;
    BlockStateCore(s, p, |block|);
    LedgerQueriesAreLocal(Settled(s, p));
  }

  lemma SettleRefusalKeepsState(s: State, p: SettlementPayload, v: Verdicts)
    requires p.run in s.runs && p.spawn in s.spawns
    ensures SettleAdmitted(s, p, v).answer.Failure? ==> SettleAdmitted(s, p, v).state == s
  {
  }

  /** Does the remaining reservation still pay for its remaining tokens? */
  method CheckFunding(selection: Selection, remaining: Vector) returns (refusal: Option<Error>)
    requires remaining.InLimits()
    ensures refusal == if !PriceOk(selection.inputPrice) || !PriceOk(selection.outputPrice) then Some(Unsafe)
                       else if !Covers(selection.inputPrice, selection.outputPrice, remaining)
                       then Some(Exceeded) else None
  {
    var required := RequiredCost(selection, remaining);
    if required.Failure? {
      return Some(required.error);
    }
    return if remaining.cost < required.value then Some(Exceeded) else None;
  }

  /** A numbered row that passed its local checks on a core-valid database. */
  ghost predicate Writable(s: State, e: Event) {
    && Core(s) && RowBound(s, e.row) && e.row.amounts.InLimits()
    && !KeyUsed(s.events, e.row.key)
    && (e.row.confidence == Unknown ==> e.row.kind == Consume && e.row.amounts == ZERO)
    && LocalRefusal(s, e.row).None?
    && NextSequence(s, e.row.run) <= MAX_EVENT_SEQUENCE
    && e == FreshEvent(s, e.row)
  }

  /**
   The run-wide counter guards and the whole-ledger queries decide no more than the local
   conditions of `CounterRefusal` and the ledger's closed poison.
   */
  predicate Decided(s: State, e: Event)
    requires e.row.run in s.runs
  {
    && CountersFit(s.runs[e.row.run])
    && (CountersFit(Charge(s.runs[e.row.run], e.row)) <==> CounterRefusal(s, e.row) != Some(Exceeded))
    && (!DedupeUsed(s.events, e.row.dedupe) && CounterRefusal(s, e.row) != Some(Exceeded) ==>
          (LedgerQueriesClean(Insert(s, e)) <==>
           CounterRefusal(s, e.row).None? && !ClosedPoison(Insert(s, e))))
  }

  /** Everything that is decided after a writable row has been inserted. */
  lemma WriteDecision(s: State, e: Event)
    requires Writable(s, e)
    ensures Decided(s, e)
  {
    assert RunOk(s.events, e.row.run, s.runs[e.row.run]);
    OutstandingQuery(s, e.row);
    CounterDecision(s, e.row);
    if !DedupeUsed(s.events, e.row.dedupe) && CounterRefusal(s, e.row) != Some(Exceeded) {
      CommitDecision(s, e.row);
    }
  }

  /** The guarded UPDATE of a row that its spawn's outstanding amount allows. */
  lemma CounterDecision(s: State, row: Payload)
    requires row.run in s.runs && CountersFit(s.runs[row.run])
    requires row.amounts.NonNegative()
    requires Outstanding(s.events, row.spawn).Within(s.runs[row.run].reserved)
    requires LocalRefusal(s, row).None?
    ensures CountersFit(Charge(s.runs[row.run], row)) <==> CounterRefusal(s, row) != Some(Exceeded)
  {
    match row.kind
    case Reserve =>
    case Release => KindFits(s.runs[row.run], row, Outstanding(s.events, row.spawn));
    case Consume => KindFits(s.runs[row.run], row, Outstanding(s.events, row.spawn));
    case RetryDecrement => KindFits(s.runs[row.run], row, Outstanding(s.events, row.spawn));
    case HumanAttention => KindFits(s.runs[row.run], row, Outstanding(s.events, row.spawn));
    case RetryRestore =>
  }

  /** What a spawn's reservation covers, its run's counters cover too. */
  lemma KindFits(run: Run, row: Payload, held: Vector)
    requires CountersFit(run) && row.amounts.NonNegative() && held.Within(run.reserved)
    requires row.kind != Reserve && row.kind != RetryRestore
    requires held.Plus(Effect(row.kind, row.amounts)).NonNegative()
    ensures CountersFit(Charge(run, row))
  {
  }

  /** What the ledger queries decide about a row that its counters allow. */
  lemma CommitDecision(s: State, row: Payload)
    requires Core(s) && RowBound(s, row) && row.amounts.InLimits()
    requires row.confidence == Unknown ==> row.kind == Consume && row.amounts == ZERO
    requires LocalRefusal(s, row).None? && CounterRefusal(s, row) != Some(Exceeded)
    requires NextSequence(s, row.run) <= MAX_EVENT_SEQUENCE
    requires !KeyUsed(s.events, row.key) && !DedupeUsed(s.events, row.dedupe)
    ensures LedgerQueriesClean(Insert(s, FreshEvent(s, row))) <==>
            CounterRefusal(s, row).None? && !ClosedPoison(Insert(s, FreshEvent(s, row)))
  {
    var e := FreshEvent(s, row);
    if CounterRefusal(s, row).None? {
      AdmittedIsAppendable(s, row);
      LedgerQueriesAreLocal(Insert(s, e));
    } else {
      OverRestoreCaught(s, e);
    }
  }
}
