/** One closed poisoned run makes every call of every run fail. */
module BudgetRefusals {
  import opened Wrappers
  import opened Amounts
  import opened BudgetModel
  import opened BudgetSpec
  import opened BudgetCore
  import opened BudgetQueries
  import opened BudgetSettlement
  import opened BudgetInvariant
  import opened BudgetHistory
  import opened BudgetTheorems
  import opened BudgetReplay

  // ---- One closed poisoned run stops every run ----

  lemma InsertKeepsClosedPoison(s: State, e: Event)
    requires ClosedPoison(s)
    ensures ClosedPoison(Insert(s, e))
  {
    var i :| 0 <= i < |s.events| && s.events[i].row.confidence == Unknown
      && s.events[i].row.run in s.runs && Closed(s.runs[s.events[i].row.run].state);
    assert Insert(s, e).events[i] == s.events[i];
  }

  lemma PoisonedRowFails(s: State, row: Payload, v: Verdicts)
    requires ClosedPoison(s) && row.run in s.runs && row.spawn in s.spawns
    ensures RecordAdmitted(s, row, v).answer.Failure? && RecordAdmitted(s, row, v).state == s
    ensures PostDispatchAdmitted(s, row, v).answer.Failure? && PostDispatchAdmitted(s, row, v).state == s
  {
    InsertKeepsClosedPoison(s, FreshEvent(s, row));
  }

  lemma PoisonedSettlementFails(s: State, p: SettlementPayload, v: Verdicts)
    requires ClosedPoison(s) && p.run in s.runs && p.spawn in s.spawns
    ensures SettleAdmitted(s, p, v).answer.Failure? && SettleAdmitted(s, p, v).state == s
  {
  }

  lemma PoisonedRecord(s: State, kind: Kind, request: Request, policy: Option<string>, v: Verdicts)
    requires ClosedPoison(s)
    ensures var r := RecordSpec(s, kind, request, policy, v); r.state == s && r.answer.Failure?
  {
    var r := AdmitRecord(s, kind, Stripped(request), policy, v.schema);
    if r.Success? {
      PoisonedRowFails(s, r.value, v);
    }
  }

  lemma PoisonedPostDispatch(s: State, kind: Kind, request: Request, v: Verdicts)
    requires ClosedPoison(s)
    ensures var r := PostDispatchSpec(s, kind, request, v); r.state == s && r.answer.Failure?
  {
    var r := AdmitPostDispatch(s, kind, Stripped(request), v.schema);
    if r.Success? {
      PoisonedRowFails(s, r.value, v);
    }
  }

  lemma PoisonedSettle(s: State, request: Request, v: Verdicts)
    requires ClosedPoison(s)
    ensures var r := SettleSpec(s, request, v); r.state == s && r.answer.Failure?
  {
    var r := AdmitSettlement(s, Stripped(request), v.schema);
    if r.Success? {
      PoisonedSettlementFails(s, r.value, v);
    }
  }

  /** While some run with unknown usage is past its gate, every call of every run fails without effect. */
  lemma ClosedPoisonStopsEveryCall(s: State, call: Call, v: Verdicts)
    requires ClosedPoison(s)
    ensures Apply(s, call, v).0 == s && !Apply(s, call, v).1.Returned()
  {
    match call
    case Record(kind, request, policy) => PoisonedRecord(s, kind, request, policy, v);
    case PostDispatch(kind, request) => PoisonedPostDispatch(s, kind, request, v);
    case Settle(request) => PoisonedSettle(s, request, v);
  }

  /** No run that is past its gate is reopened. */
  ghost predicate KeepsClosed(s: State, t: State) {
    forall r | r in s.runs && r in t.runs && Closed(s.runs[r].state) :: Closed(t.runs[r].state)
  }

  ghost predicate ClosedAt(h: seq<State>, i: nat)
    requires 0 < i < |h|
  {
    KeepsClosed(h[i - 1], h[i])
  }

  ghost predicate GatesStayClosed(h: seq<State>) {
    forall i {:trigger ClosedAt(h, i)} | 0 < i < |h| :: ClosedAt(h, i)
  }

  lemma PoisonCarries(s: State, t: State)
    requires ClosedPoison(s) && EnvironmentOk(s, t) && KeepsClosed(s, t)
    ensures ClosedPoison(t)
  {
    var i :| 0 <= i < |s.events| && s.events[i].row.confidence == Unknown
      && s.events[i].row.run in s.runs && Closed(s.runs[s.events[i].row.run].state);
    assert t.events[i] == s.events[i];
  }

  lemma PoisonedMove(s: State, t: State)
    requires ClosedPoison(s) && Moves(s, t) && KeepsClosed(s, t)
    ensures ClosedPoison(t) && t.events == s.events && t.settlements == s.settlements
  {
    if EnvironmentOk(s, t) {
      PoisonCarries(s, t);
    } else {
      var call, v :| Apply(s, call, v).0 == t;
      ClosedPoisonStopsEveryCall(s, call, v);
    }
  }

  /** What a history of poisoned states carries along. */
  ghost predicate StillPoisoned(s: State, t: State) {
    ClosedPoison(t) && t.events == s.events && t.settlements == s.settlements
  }

  ghost predicate PoisonedAt(h: seq<State>, i: nat)
    requires 0 < i < |h|
  {
    ClosedPoison(h[i - 1]) ==> StillPoisoned(h[i - 1], h[i])
  }

  lemma {:induction false} PoisonChain(h: seq<State>, n: nat)
    requires n < |h| && ClosedPoison(h[0])
    requires forall i {:trigger PoisonedAt(h, i)} | 0 < i < |h| :: PoisonedAt(h, i)
    ensures StillPoisoned(h[0], h[n])
  {
    if n != 0 {
      PoisonChain(h, n - 1);
      assert PoisonedAt(h, n);
    }
  }

  /** As long as no gate reopens, a closed poisoned run freezes ledger and settlements for good. */
  lemma ClosedPoisonFreezesTheLedger(h: seq<State>, n: nat)
    requires History(h) && GatesStayClosed(h) && ClosedPoison(h[0]) && n < |h|
    ensures ClosedPoison(h[n]) && h[n].events == h[0].events && h[n].settlements == h[0].settlements
  {
    forall i | 0 < i < |h| ensures PoisonedAt(h, i) {
      assert MovesAt(h, i) && ClosedAt(h, i);
      if ClosedPoison(h[i - 1]) {
        PoisonedMove(h[i - 1], h[i]);
      }
    }
    PoisonChain(h, n);
  }
}
