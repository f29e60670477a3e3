/**
 Whole histories of the ledger: any interleaving of calls, whatever they ask and however they are
 answered, with any steps of the rest of the system between them.
 */
module BudgetHistory {
  import opened Wrappers
  import opened Amounts
  import opened BudgetModel
  import opened BudgetSpec
  import opened BudgetCore
  import opened BudgetQueries
  import opened BudgetSettlement
  import opened BudgetInvariant

  datatype Call =
    | Record(kind: Kind, request: Request, policy: Option<string>)
    | PostDispatch(kind: Kind, request: Request)
    | Settle(request: Request)

  datatype Answer =
    | EventAnswer(event: Result<EventResult, Error>)
    | SettlementAnswer(settlement: Result<SettlementResult, Error>)
  {
    predicate Returned() {
      match this
      case EventAnswer(r) => r.Success?
      case SettlementAnswer(r) => r.Success?
    }
  }

  function Apply(s: State, call: Call, v: Verdicts): (State, Answer) {
    match call
    case Record(kind, request, policy) =>
      var r := RecordSpec(s, kind, request, policy, v); (r.state, EventAnswer(r.answer))
    case PostDispatch(kind, request) =>
      var r := PostDispatchSpec(s, kind, request, v); (r.state, EventAnswer(r.answer))
    case Settle(request) =>
      var r := SettleSpec(s, request, v); (r.state, SettlementAnswer(r.answer))
  }

  /** A run as it is created: a legal budget and no usage. */
  predicate NewRun(run: Run) {
    run.budget.InLimits() && run.reserved == ZERO && run.consumed == ZERO
  }

  /**
   What the rest of the system may do between calls: create runs, spawns, clocks and policies,
   move run and spawn states, and create or accept intents.  It never touches the ledger, the
   counters, a run's selected terms or a spawn's identity, and it never deletes an intent.
   */
  ghost predicate EnvironmentOk(s: State, t: State) {
    && t.events == s.events && t.settlements == s.settlements
    && (forall r | r in s.runs :: r in t.runs && t.runs[r] == s.runs[r].(state := t.runs[r].state))
    && (forall r | r in t.runs && r !in s.runs :: NewRun(t.runs[r]))
    && (forall x | x in s.spawns ::
          && x in t.spawns
          && t.spawns[x].run == s.spawns[x].run && t.spawns[x].transition == s.spawns[x].transition
          && (s.spawns[x].intent.Some? ==> t.spawns[x].intent.Some?))
    && (forall c | c in s.clocks :: c in t.clocks && t.clocks[c] == s.clocks[c])
    && (forall c | c in s.policies :: c in t.policies && t.policies[c] == s.policies[c])
  }

  /** One step of the whole system: an environment step or a call with any answer. */
  ghost predicate Moves(s: State, t: State) {
    EnvironmentOk(s, t) || exists call, v :: Apply(s, call, v).0 == t
  }

  ghost predicate MovesAt(h: seq<State>, i: nat)
    requires 0 < i < |h|
  {
    Moves(h[i - 1], h[i])
  }

  /** The successive states of a history. */
  ghost predicate History(h: seq<State>) {
    h != [] && forall i {:trigger MovesAt(h, i)} | 0 < i < |h| :: MovesAt(h, i)
  }

  /** An empty ledger over freshly created runs. */
  ghost predicate Genesis(s: State) {
    s.events == [] && s.settlements == map[] && forall r | r in s.runs :: NewRun(s.runs[r])
  }

  // ---- The invariant holds in every reachable state ----

  lemma GenesisInv(s: State)
    requires Genesis(s)
    ensures Inv(s)
  {
    forall r | r in s.runs ensures RunOk(s.events, r, s.runs[r]) {}
    forall x ensures SafePrefixes(ForSpawn(s.events, x)) && Outstanding(s.events, x) == ZERO {}
    forall x | x in s.spawns && s.spawns[x].run in s.runs
      ensures CoversFor(s.runs[s.spawns[x].run].selection, Outstanding(s.events, x))
    {
      ZeroCovered(s.runs[s.spawns[x].run].selection, ZERO);
    }
    forall r | r in s.runs ensures CoversFor(s.runs[r].selection, s.runs[r].consumed) {
      ZeroCovered(s.runs[r].selection, ZERO);
    }
  }

  /** No condition refuses `row`. */
  predicate Accepted(s: State, row: Payload)
    requires row.run in s.runs
  {
    && LocalRefusal(s, row).None? && CounterRefusal(s, row).None?
    && NextSequence(s, row.run) <= MAX_EVENT_SEQUENCE
    && !DedupeUsed(s.events, row.dedupe)
  }

  /** `t` is `s` with the accepted `row` appended. */
  ghost predicate Appended(s: State, row: Payload, t: State) {
    && row.run in s.runs && Accepted(s, row) && FindEvent(s.events, row.key).None?
    && t == Insert(s, FreshEvent(s, row))
  }

  /** A reserve or release either leaves the state alone or appends one event to an intent-free spawn. */
  lemma RecordOutcome(s: State, row: Payload, v: Verdicts)
    requires row.run in s.runs && row.spawn in s.spawns
    ensures var r := RecordAdmitted(s, row, v);
      || r.state == s
      || (Appended(s, row, r.state) && s.spawns[row.spawn].intent.None?
          && r.answer == Success(EventResult(row.key, NextSequence(s, row.run), false)))
  {
  }

  /** A post-dispatch call either leaves the state alone or appends one event to an unsettled spawn. */
  lemma PostDispatchOutcome(s: State, row: Payload, v: Verdicts)
    requires row.run in s.runs && row.spawn in s.spawns
    ensures var r := PostDispatchAdmitted(s, row, v);
      || r.state == s
      || (Appended(s, row, r.state) && !SpawnSettled(s, row.spawn)
          && s.runs[row.run].confidence != Unknown
          && r.answer == Success(EventResult(row.key, NextSequence(s, row.run), false)))
  {
  }

  lemma AppendedKeepsInv(s: State, row: Payload, t: State)
    requires Inv(s) && RowBound(s, row) && PaidRow(s, row) && Timely(s, FreshEvent(s, row))
    requires Appended(s, row, t)
    ensures Inv(t)
  {
    FindEventFinds(s.events, row.key);
    AppendKeepsInv(s, row);
  }

  lemma RecordKeepsInv(s: State, row: Payload, v: Verdicts)
    requires Inv(s) && RecordAdmissible(s, row)
    ensures Inv(RecordAdmitted(s, row, v).state)
  {
    RecordOutcome(s, row, v);
    var t := RecordAdmitted(s, row, v).state;
    if t != s {
      AppendedKeepsInv(s, row, t);
    }
  }

  lemma PostDispatchKeepsInv(s: State, row: Payload, v: Verdicts)
    requires Inv(s) && PostDispatchAdmissible(s, row)
    ensures Inv(PostDispatchAdmitted(s, row, v).state)
  {
    PostDispatchOutcome(s, row, v);
    var t := PostDispatchAdmitted(s, row, v).state;
    if t != s {
      AppendedKeepsInv(s, row, t);
    }
  }

  /** A settlement either leaves the state alone or settles a new key of an unsettled spawn. */
  lemma SettleOutcome(s: State, p: SettlementPayload, v: Verdicts)
    requires p.run in s.runs && p.spawn in s.spawns
    ensures var r := SettleAdmitted(s, p, v);
      || r.state == s
      || (&& r.state == Settled(s, p)
          && p.key !in s.settlements && !SpawnSettled(s, p.spawn)
          && p.actual.Within(Outstanding(s.events, p.spawn))
          && BlockRefusal(s.events, SettlementBlock(s, p), 0, v).None?
          && s.runs[p.run].confidence != Unknown
          && r.answer == Success(SettlementResult(
                           p.key, Results(SettlementBlock(s, p), false), Released(s, p), false)))
  {
  }

  lemma {:induction false} UnrefusedBlockIsFree(es: seq<Event>, block: seq<Event>, n: nat, v: Verdicts)
    requires n <= |block| && BlockRefusal(es, block, n, v).None?
    ensures forall i | n <= i < |block| :: Free(es, block[i])
    decreases |block| - n
  {
    if n < |block| {
      UnrefusedBlockIsFree(es, block, n + 1, v);
    }
  }

  lemma SettleKeepsInv(s: State, p: SettlementPayload, v: Verdicts)
    requires Inv(s) && SettlementAdmissible(s, p)
    ensures Inv(SettleAdmitted(s, p, v).state)
  {
    SettleOutcome(s, p, v);
    var t := SettleAdmitted(s, p, v).state;
    if t != s {
      UnrefusedBlockIsFree(s.events, SettlementBlock(s, p), 0, v);
      SettledKeepsInv(s, p);
    }
  }

  lemma CallKeepsInv(s: State, call: Call, v: Verdicts)
    requires Inv(s)
    ensures Inv(Apply(s, call, v).0)
  {
    match call
    case Record(kind, request, policy) =>
      var r := AdmitRecord(s, kind, Stripped(request), policy, v.schema);
      if r.Success? {
        RecordKeepsInv(s, r.value, v);
      }
    case PostDispatch(kind, request) =>
      var r := AdmitPostDispatch(s, kind, Stripped(request), v.schema);
      if r.Success? {
        PostDispatchKeepsInv(s, r.value, v);
      }
    case Settle(request) =>
      var r := AdmitSettlement(s, Stripped(request), v.schema);
      if r.Success? {
        SettleKeepsInv(s, r.value, v);
      }
  }

  lemma NoRowsOfNewRun(s: State, run: string)
    requires RowsBound(s) && run !in s.runs
    ensures ForRun(s.events, run) == []
  {
    forall e | e in s.events ensures !OfRun(run)(e) {
      var i :| 0 <= i < |s.events| && s.events[i] == e;
      assert RowBound(s, s.events[i].row);
    }
    RowsNone(s.events, OfRun(run));
  }

  lemma NoRowsOfNewSpawn(s: State, spawn: string)
    requires RowsBound(s) && (spawn !in s.spawns || s.spawns[spawn].run !in s.runs)
    ensures ForSpawn(s.events, spawn) == []
  {
    forall e | e in s.events ensures !OfSpawn(spawn)(e) {
      var i :| 0 <= i < |s.events| && s.events[i] == e;
      assert RowBound(s, s.events[i].row);
    }
    RowsNone(s.events, OfSpawn(spawn));
  }

  lemma EnvironmentKeepsCounters(s: State, t: State)
    requires RowsBound(s) && CountersOk(s) && EnvironmentOk(s, t)
    ensures CountersOk(t)
  {
    forall r | r in t.runs ensures RunOk(t.events, r, t.runs[r]) {
      if r in s.runs {
        assert RunOk(s.events, r, s.runs[r]);
      } else {
        NoRowsOfNewRun(s, r);
      }
    }
  }

  lemma EnvironmentKeepsRows(s: State, t: State)
    requires RowsBound(s) && PoisonOk(s) && EnvironmentOk(s, t)
    ensures RowsBound(t) && PoisonOk(t)
  {
    forall i | 0 <= i < |t.events|
      ensures RowBound(t, t.events[i].row) && t.events[i].row.amounts.InLimits()
    {
      assert RowBound(s, s.events[i].row);
    }
  }

  lemma EnvironmentKeepsFunded(s: State, t: State)
    requires RowsBound(s) && FundedOk(s) && EnvironmentOk(s, t)
    ensures FundedOk(t)
  {
    forall x | x in t.spawns && t.spawns[x].run in t.runs
      ensures CoversFor(t.runs[t.spawns[x].run].selection, Outstanding(t.events, x))
    {
      if x !in s.spawns || s.spawns[x].run !in s.runs {
        NoRowsOfNewSpawn(s, x);
        ZeroCovered(t.runs[t.spawns[x].run].selection, ZERO);
      }
    }
    forall r | r in t.runs ensures CoversFor(t.runs[r].selection, t.runs[r].consumed) {
      if r !in s.runs {
        ZeroCovered(t.runs[r].selection, ZERO);
      }
    }
  }

  lemma EnvironmentKeepsSettlements(s: State, t: State)
    requires SettlementsOk(s) && EnvironmentOk(s, t)
    ensures SettlementsOk(t)
  {
    forall k | k in t.settlements ensures SettlementOk(t, k) {
      assert SettlementOk(s, k);
    }
  }

  lemma EnvironmentKeepsShapes(s: State, t: State)
    requires RowsBound(s) && ShapesOk(s) && EnvironmentOk(s, t)
    ensures ShapesOk(t)
  {
    forall i | 0 <= i < |t.events| && Phase(t.events[i]) > 0 && t.events[i].row.spawn in t.spawns
      ensures t.spawns[t.events[i].row.spawn].intent.Some?
    {
      assert RowBound(s, s.events[i].row);
    }
    forall x ensures Shaped(ForSpawn(t.events, x)) {
      assert Shaped(ForSpawn(s.events, x));
    }
  }

  lemma EnvironmentKeepsInv(s: State, t: State)
    requires Inv(s) && EnvironmentOk(s, t)
    ensures Inv(t)
  {
    EnvironmentKeepsCounters(s, t);
    EnvironmentKeepsRows(s, t);
    EnvironmentKeepsFunded(s, t);
    EnvironmentKeepsShapes(s, t);
    EnvironmentKeepsSettlements(s, t);
  }

  lemma MoveKeepsInv(s: State, t: State)
    requires Inv(s) && Moves(s, t)
    ensures Inv(t)
  {
    if EnvironmentOk(s, t) {
      EnvironmentKeepsInv(s, t);
    } else {
      var call, v :| Apply(s, call, v).0 == t;
      CallKeepsInv(s, call, v);
    }
  }

  /** Every state of a history that starts well satisfies the full invariant. */
  lemma {:induction false} HistoryKeepsInv(h: seq<State>, n: nat)
    requires History(h) && Inv(h[0]) && n < |h|
    ensures Inv(h[n])
  {
    if n > 0 {
      HistoryKeepsInv(h, n - 1);
      assert MovesAt(h, n);
      MoveKeepsInv(h[n - 1], h[n]);
    }
  }
}
