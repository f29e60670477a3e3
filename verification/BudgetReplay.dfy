/** Idempotent replay: a committed key can be repeated anywhere later without any effect. */
module BudgetReplay {
  import opened Wrappers
  import opened Amounts
  import opened BudgetModel
  import opened BudgetSpec
  import opened BudgetCore
  import opened BudgetQueries
  import opened BudgetSettlement
  import opened BudgetInvariant
  import opened BudgetHistory
  import opened BudgetTheorems
  import Text

  function KeyOf(call: Call): string {
    Text.Strip(call.request.key)
  }

  /** The call's idempotency key has been committed, in the table its kind of call uses. */
  predicate Committed(s: State, call: Call) {
    if call.Settle? then KeyOf(call) in s.settlements else KeyUsed(s.events, KeyOf(call))
  }

  /** What a repeat may answer: the original event, marked as a replay, or a refusal. */
  ghost predicate ReplaysEvent(s: State, key: string, answer: Result<EventResult, Error>) {
    match answer
    case Failure(_) => true
    case Success(r) =>
      exists i | 0 <= i < |s.events| :: s.events[i].row.key == key && r == EventResult(key, s.events[i].sequence, true)
  }

  ghost predicate ReplaysSettlement(s: State, key: string, answer: Result<SettlementResult, Error>) {
    match answer
    case Failure(_) => true
    case Success(r) =>
      && key in s.settlements
      && r == SettlementResult(key, Results(LinkedTo(s.events, key), true), s.settlements[key].released, true)
  }

  ghost predicate Replays(s: State, key: string, answer: Answer) {
    match answer
    case EventAnswer(r) => ReplaysEvent(s, key, r)
    case SettlementAnswer(r) => ReplaysSettlement(s, key, r)
  }

  lemma RowReplay(s: State, row: Payload, v: Verdicts)
    requires row.run in s.runs && row.spawn in s.spawns && KeyUsed(s.events, row.key)
    ensures var prior := FindEvent(s.events, row.key);
      && prior.Some? && prior.value in s.events && prior.value.row.key == row.key
      && RecordAdmitted(s, row, v) == ReplayEvent(s, prior.value, row, v)
      && PostDispatchAdmitted(s, row, v) == ReplayEvent(s, prior.value, row, v)
    ensures ReplaysEvent(s, row.key, RecordAdmitted(s, row, v).answer)
    ensures ReplaysEvent(s, row.key, PostDispatchAdmitted(s, row, v).answer)
  {
    FindEventFinds(s.events, row.key);
    var e := FindEvent(s.events, row.key).value;
    var i :| 0 <= i < |s.events| && s.events[i] == e;
  }

  lemma RecordIsInert(s: State, kind: Kind, q: Request, policy: Option<string>, v: Verdicts)
    requires KeyUsed(s.events, q.key)
    ensures var r := AdmitRecord(s, kind, q, policy, v.schema);
      r.Success? ==>
        && RecordAdmitted(s, r.value, v).state == s
        && ReplaysEvent(s, q.key, RecordAdmitted(s, r.value, v).answer)
  {
    var r := AdmitRecord(s, kind, q, policy, v.schema);
    if r.Success? {
      RowReplay(s, r.value, v);
    }
  }

  lemma PostDispatchIsInert(s: State, kind: Kind, q: Request, v: Verdicts)
    requires KeyUsed(s.events, q.key)
    ensures var r := AdmitPostDispatch(s, kind, q, v.schema);
      r.Success? ==>
        && PostDispatchAdmitted(s, r.value, v).state == s
        && ReplaysEvent(s, q.key, PostDispatchAdmitted(s, r.value, v).answer)
  {
    var r := AdmitPostDispatch(s, kind, q, v.schema);
    if r.Success? {
      RowReplay(s, r.value, v);
    }
  }

  lemma SettleIsInert(s: State, q: Request, v: Verdicts)
    requires q.key in s.settlements
    ensures var r := AdmitSettlement(s, q, v.schema);
      r.Success? ==>
        && SettleAdmitted(s, r.value, v).state == s
        && ReplaysSettlement(s, q.key, SettleAdmitted(s, r.value, v).answer)
  {
  }

  /**
   A call whose key is already committed changes nothing, whatever else it carries, and if it
   returns at all it returns the original result.
   */
  lemma CommittedKeyIsInert(s: State, call: Call, v: Verdicts)
    requires Committed(s, call)
    ensures Apply(s, call, v).0 == s
    ensures Replays(s, KeyOf(call), Apply(s, call, v).1)
  {
    var q := Stripped(call.request);
    assert q.key == KeyOf(call);
    match call
    case Record(kind, request, policy) => RecordIsInert(s, kind, q, policy, v);
    case PostDispatch(kind, request) => PostDispatchIsInert(s, kind, q, v);
    case Settle(request) => SettleIsInert(s, q, v);
  }

  predicate RowPresent(es: seq<Event>, row: Payload) {
    exists i | 0 <= i < |es| :: es[i].row == row
  }

  /** A used event key conflicts exactly when it was committed with another payload. */
  lemma ChangedRowConflicts(s: State, row: Payload, v: Verdicts)
    requires Inv(s) && row.run in s.runs && row.spawn in s.spawns && KeyUsed(s.events, row.key)
    ensures RecordAdmitted(s, row, v) == PostDispatchAdmitted(s, row, v)
    ensures RecordAdmitted(s, row, v).state == s
    ensures RecordAdmitted(s, row, v).answer == Failure(Conflict) <==> !RowPresent(s.events, row)
  {
    RowReplay(s, row, v);
    var e := FindEvent(s.events, row.key).value;
    var j: nat :| 0 <= j < |s.events| && s.events[j] == e;
    if RowPresent(s.events, row) {
      var i: nat :| 0 <= i < |s.events| && s.events[i].row == row;
      OneEventPerKey(s.events, i, j);
    }
  }

  lemma OneEventPerKey(es: seq<Event>, i: nat, j: nat)
    requires IdentitiesOk(es) && i < |es| && j < |es| && es[i].row.key == es[j].row.key
    ensures i == j
  {
  }

  /** The same for the key of a settlement. */
  lemma ChangedSettlementConflicts(s: State, p: SettlementPayload, v: Verdicts)
    requires p.run in s.runs && p.spawn in s.spawns && p.key in s.settlements
    ensures SettleAdmitted(s, p, v).state == s
    ensures SettleAdmitted(s, p, v).answer == Failure(Conflict) <==> s.settlements[p.key].row != p
  {
  }

  /** The request passes every check that comes before the lookup of its key. */
  predicate Admitted(s: State, call: Call, v: Verdicts) {
    var q := Stripped(call.request);
    match call
    case Record(kind, _, policy) => AdmitRecord(s, kind, q, policy, v.schema).Success?
    case PostDispatch(kind, _) => AdmitPostDispatch(s, kind, q, v.schema).Success?
    case Settle(_) => AdmitSettlement(s, q, v.schema).Success?
  }

  /** The payload of the admitted call is the one committed under its key. */
  predicate SamePayload(s: State, call: Call, v: Verdicts)
    requires Admitted(s, call, v)
  {
    var q := Stripped(call.request);
    match call
    case Record(kind, _, policy) => RowPresent(s.events, AdmitRecord(s, kind, q, policy, v.schema).value)
    case PostDispatch(kind, _) => RowPresent(s.events, AdmitPostDispatch(s, kind, q, v.schema).value)
    case Settle(_) =>
      var p := AdmitSettlement(s, q, v.schema).value;
      p.key in s.settlements && s.settlements[p.key].row == p
  }

  function ConflictOf(call: Call): Answer {
    if call.Settle? then SettlementAnswer(Failure(Conflict)) else EventAnswer(Failure(Conflict))
  }

  lemma ChangedRecordConflicts(s: State, kind: Kind, request: Request, policy: Option<string>, v: Verdicts)
    requires Inv(s) && KeyUsed(s.events, Text.Strip(request.key))
    requires AdmitRecord(s, kind, Stripped(request), policy, v.schema).Success?
    ensures RecordSpec(s, kind, request, policy, v).answer == Failure(Conflict)
            <==> !RowPresent(s.events, AdmitRecord(s, kind, Stripped(request), policy, v.schema).value)
  {
    ChangedRowConflicts(s, AdmitRecord(s, kind, Stripped(request), policy, v.schema).value, v);
  }

  lemma ChangedPostDispatchConflicts(s: State, kind: Kind, request: Request, v: Verdicts)
    requires Inv(s) && KeyUsed(s.events, Text.Strip(request.key))
    requires AdmitPostDispatch(s, kind, Stripped(request), v.schema).Success?
    ensures PostDispatchSpec(s, kind, request, v).answer == Failure(Conflict)
            <==> !RowPresent(s.events, AdmitPostDispatch(s, kind, Stripped(request), v.schema).value)
  {
    ChangedRowConflicts(s, AdmitPostDispatch(s, kind, Stripped(request), v.schema).value, v);
  }

  /** An admitted call under a committed key conflicts exactly when its payload is not the committed one. */
  lemma ChangedPayloadConflicts(s: State, call: Call, v: Verdicts)
    requires Inv(s) && Committed(s, call) && Admitted(s, call, v)
    ensures Apply(s, call, v).1 == ConflictOf(call) <==> !SamePayload(s, call, v)
    ensures Apply(s, call, v).0 == s
  {
    CommittedKeyIsInert(s, call, v);
    match call
    case Record(kind, request, policy) => ChangedRecordConflicts(s, kind, request, policy, v);
    case PostDispatch(kind, request) => ChangedPostDispatchConflicts(s, kind, request, v);
    case Settle(request) =>
      ChangedSettlementConflicts(s, AdmitSettlement(s, Stripped(request), v.schema).value, v);
  }

  // ---- Answers describe the ledger, and keep describing it ----

  /** The answer names the ledger rows that `key` stands for. */
  ghost predicate EventDescribed(s: State, key: string, r: EventResult) {
    exists i | 0 <= i < |s.events| ::
      s.events[i].row.key == key && r == EventResult(key, s.events[i].sequence, r.replayed)
  }

  ghost predicate SettlementDescribed(s: State, key: string, r: SettlementResult) {
    && key in s.settlements
    && r == SettlementResult(key, Results(LinkedTo(s.events, key), r.replayed),
                             s.settlements[key].released, r.replayed)
  }

  ghost predicate Described(s: State, key: string, answer: Answer) {
    match answer
    case EventAnswer(r) => r.Success? && EventDescribed(s, key, r.value)
    case SettlementAnswer(r) => r.Success? && SettlementDescribed(s, key, r.value)
  }

  /** Every answer that describes `key` in the ledger. */
  ghost function Answers(s: State, key: string): iset<Answer> {
    iset answer: Answer | Described(s, key, answer)
  }

  lemma AppendedDescribed(s: State, row: Payload, t: State)
    requires Appended(s, row, t)
    ensures EventDescribed(t, row.key, EventResult(row.key, NextSequence(s, row.run), false))
  {
    assert t.events[|s.events|] == FreshEvent(s, row);
  }

  lemma RowDescribed(s: State, row: Payload, v: Verdicts)
    requires row.run in s.runs && row.spawn in s.spawns
    ensures var r := RecordAdmitted(s, row, v);
      r.answer.Success? ==> EventDescribed(r.state, row.key, r.answer.value)
    ensures var r := PostDispatchAdmitted(s, row, v);
      r.answer.Success? ==> EventDescribed(r.state, row.key, r.answer.value)
  {
    FindEventFinds(s.events, row.key);
    if FindEvent(s.events, row.key).Some? {
      RowReplay(s, row, v);
    } else {
      RecordFreshDescribed(s, row, v);
      PostDispatchFreshDescribed(s, row, v);
    }
  }

  lemma RecordFreshDescribed(s: State, row: Payload, v: Verdicts)
    requires row.run in s.runs && row.spawn in s.spawns && FindEvent(s.events, row.key).None?
    ensures var r := RecordAdmitted(s, row, v);
      r.answer.Success? ==> EventDescribed(r.state, row.key, r.answer.value)
  {
    var r := RecordAdmitted(s, row, v);
    if r.answer.Success? {
      assert Appended(s, row, r.state);
      AppendedDescribed(s, row, r.state);
    }
  }

  lemma PostDispatchFreshDescribed(s: State, row: Payload, v: Verdicts)
    requires row.run in s.runs && row.spawn in s.spawns && FindEvent(s.events, row.key).None?
    ensures var r := PostDispatchAdmitted(s, row, v);
      r.answer.Success? ==> EventDescribed(r.state, row.key, r.answer.value)
  {
    var r := PostDispatchAdmitted(s, row, v);
    if r.answer.Success? {
      assert Appended(s, row, r.state);
      AppendedDescribed(s, row, r.state);
    }
  }

  /** A settlement that returns under a new key has committed. */
  lemma FreshSettleOutcome(s: State, p: SettlementPayload, v: Verdicts)
    requires p.run in s.runs && p.spawn in s.spawns
    requires p.key !in s.settlements && SettleAdmitted(s, p, v).answer.Success?
    ensures var r := SettleAdmitted(s, p, v);
      && r.state == Settled(s, p) && !SpawnSettled(s, p.spawn)
      && p.actual.Within(Outstanding(s.events, p.spawn))
      && BlockRefusal(s.events, SettlementBlock(s, p), 0, v).None?
      && r.answer == Success(SettlementResult(
                       p.key, Results(SettlementBlock(s, p), false), Released(s, p), false))
  {
  }

  lemma SettleDescribed(s: State, p: SettlementPayload, v: Verdicts)
    requires Inv(s) && SettlementAdmissible(s, p)
    ensures var r := SettleAdmitted(s, p, v);
      r.answer.Success? ==> SettlementDescribed(r.state, p.key, r.answer.value)
  {
    if SettleAdmitted(s, p, v).answer.Success? {
      if p.key in s.settlements {
        SettleReplayDescribed(s, p, v);
      } else {
        FreshSettleOutcome(s, p, v);
        UnrefusedBlockIsFree(s.events, SettlementBlock(s, p), 0, v);
        CommittedLinks(s, p);
      }
    }
  }

  lemma SettleReplayDescribed(s: State, p: SettlementPayload, v: Verdicts)
    requires p.run in s.runs && p.spawn in s.spawns
    requires p.key in s.settlements && SettleAdmitted(s, p, v).answer.Success?
    ensures SettlementDescribed(SettleAdmitted(s, p, v).state, p.key, SettleAdmitted(s, p, v).answer.value)
  {
  }

  lemma CommittedLinks(s: State, p: SettlementPayload)
    requires Committing(s, p)
    ensures var t := Settled(s, p);
      && p.key in t.settlements && t.settlements[p.key].released == Released(s, p)
      && LinkedTo(t.events, p.key) == SettlementBlock(s, p)
  {
    SettledTables(s, p);
    KeyUnlinked(s, p.key);
    SettledLinks(s.events, SettlementBlock(s, p), p, p.key);
  }

  /** Whatever a call returns, it describes the ledger after the call. */
  lemma ReturnedIsDescribed(s: State, call: Call, v: Verdicts)
    requires Inv(s) && Apply(s, call, v).1.Returned()
    ensures Described(Apply(s, call, v).0, KeyOf(call), Apply(s, call, v).1)
  {
    var q := Stripped(call.request);
    assert q.key == KeyOf(call);
    match call
    case Record(kind, request, policy) =>
      var r := AdmitRecord(s, kind, q, policy, v.schema);
      if r.Success? {
        RowDescribed(s, r.value, v);
      }
    case PostDispatch(kind, request) =>
      var r := AdmitPostDispatch(s, kind, q, v.schema);
      if r.Success? {
        RowDescribed(s, r.value, v);
      }
    case Settle(request) =>
      var r := AdmitSettlement(s, q, v.schema);
      if r.Success? {
        SettleDescribed(s, r.value, v);
      }
  }

  // ---- Rows and settlements persist ----

  /** Settlement `key` and its linked events are the same in `t`. */
  ghost predicate KeepsSettlement(s: State, t: State, key: string) {
    && key in s.settlements && key in t.settlements && t.settlements[key] == s.settlements[key]
    && LinkedTo(t.events, key) == LinkedTo(s.events, key)
  }

  lemma ChangeKeepsSettlement(s: State, change: Change, t: State, key: string)
    requires SettlementsOk(s) && Explains(s, change, t) && key in s.settlements
    ensures KeepsSettlement(s, t, key)
  {
    match change
    case Nothing =>
    case OneEvent(row) => EventKeepsSettlement(s, row, t, key);
    case OneSettlement(p) => BlockKeepsSettlement(s, p, t, key);
  }

  lemma EventKeepsSettlement(s: State, row: Payload, t: State, key: string)
    requires Explains(s, OneEvent(row), t) && key in s.settlements
    ensures KeepsSettlement(s, t, key)
  {
    RowsAppend(s.events, FreshEvent(s, row), OfSettlement(key));
    assert LinkedTo(s.events, key) + [] == LinkedTo(s.events, key);
  }

  lemma BlockKeepsSettlement(s: State, p: SettlementPayload, t: State, key: string)
    requires SettlementsOk(s) && Explains(s, OneSettlement(p), t) && key in s.settlements
    ensures KeepsSettlement(s, t, key)
  {
    KeyUnlinked(s, p.key);
    SettledLinks(s.events, SettlementBlock(s, p), p, key);
  }

  lemma HistoryMoveKeepsSettlement(h: seq<State>, i: nat, key: string)
    requires History(h) && Inv(h[0]) && 0 < i < |h| && key in h[i - 1].settlements
    ensures KeepsSettlement(h[i - 1], h[i], key)
  {
    HistoryKeepsInv(h, i - 1);
    assert MovesAt(h, i);
    var change := MoveExplained(h[i - 1], h[i]);
    if !EnvironmentOk(h[i - 1], h[i]) {
      ChangeKeepsSettlement(h[i - 1], change, h[i], key);
    }
  }

  lemma KeptTwice(r: State, s: State, t: State, key: string)
    requires KeepsSettlement(r, s, key) && KeepsSettlement(s, t, key)
    ensures KeepsSettlement(r, t, key)
  {
  }

  /** Step `i` of the history keeps the settlement if it is there. */
  ghost predicate KeptAt(h: seq<State>, i: nat, key: string)
    requires 0 < i < |h|
  {
    key in h[i - 1].settlements ==> KeepsSettlement(h[i - 1], h[i], key)
  }

  lemma {:induction false} KeptAlong(h: seq<State>, m: nat, n: nat, key: string)
    requires m <= n < |h| && key in h[m].settlements
    requires forall i {:trigger KeptAt(h, i, key)} | m < i <= n :: KeptAt(h, i, key)
    ensures KeepsSettlement(h[m], h[n], key)
    decreases n - m
  {
    if m < n {
      KeptAlong(h, m, n - 1, key);
      assert KeptAt(h, n, key);
      KeptTwice(h[m], h[n - 1], h[n], key);
    }
  }

  lemma SettlementPersists(h: seq<State>, m: nat, n: nat, key: string)
    requires History(h) && Inv(h[0]) && m <= n < |h| && key in h[m].settlements
    ensures KeepsSettlement(h[m], h[n], key)
  {
    forall i | m < i <= n ensures KeptAt(h, i, key) {
      if key in h[i - 1].settlements {
        HistoryMoveKeepsSettlement(h, i, key);
      }
    }
    KeptAlong(h, m, n, key);
  }

  lemma DescriptionPersists(h: seq<State>, m: nat, n: nat, key: string, answer: Answer)
    requires History(h) && Inv(h[0]) && m <= n < |h| && Described(h[m], key, answer)
    ensures Described(h[n], key, answer)
  {
    match answer
    case EventAnswer(r) =>
      EventsPersist(h, m, n);
      var i :| 0 <= i < |h[m].events| && h[m].events[i].row.key == key
        && r.value == EventResult(key, h[m].events[i].sequence, r.value.replayed);
      assert h[n].events[i] == h[m].events[i];
    case SettlementAnswer(r) =>
      SettlementPersists(h, m, n, key);
  }

  // ---- Duplicate erasure ----

  datatype Step = Api(call: Call, verdicts: Verdicts) | Environment

  /** `t` follows `s` by `step`. */
  ghost predicate Follows(s: State, step: Step, t: State) {
    match step
    case Api(call, v) => Apply(s, call, v).0 == t
    case Environment => EnvironmentOk(s, t)
  }

  ghost predicate FollowsAt(h: seq<State>, steps: seq<Step>, i: nat)
    requires i < |steps| && i + 1 < |h|
  {
    Follows(h[i], steps[i], h[i + 1])
  }

  /** `h` is the sequence of states of a history whose steps are `steps`. */
  ghost predicate Runs(h: seq<State>, steps: seq<Step>) {
    |h| == |steps| + 1 && forall i {:trigger FollowsAt(h, steps, i)} | 0 <= i < |steps| :: FollowsAt(h, steps, i)
  }

  lemma RunsIsHistory(h: seq<State>, steps: seq<Step>)
    requires Runs(h, steps)
    ensures History(h)
  {
    forall i | 0 < i < |h| ensures MovesAt(h, i) {
      assert FollowsAt(h, steps, i - 1);
    }
  }

  /** The calls use the same key of the same table. */
  predicate SameKey(a: Call, b: Call) {
    KeyOf(a) == KeyOf(b) && a.Settle? == b.Settle?
  }

  /** `again` is the original answer marked as a replay, or a refusal. */
  ghost predicate Repeats(original: Answer, again: Answer) {
    match again
    case EventAnswer(r) =>
      r.Failure? || (original.EventAnswer? && original.event.Success?
                     && r.value == original.event.value.(replayed := true))
    case SettlementAnswer(r) =>
      r.Failure? || (&& original.SettlementAnswer? && original.settlement.Success?
                     && var o := original.settlement.value;
                        && r.value.key == o.key && r.value.released == o.released && r.value.replayed
                        && |r.value.events| == |o.events|
                        && forall i | 0 <= i < |o.events| ::
                             r.value.events[i] == o.events[i].(replayed := true))
  }

  lemma DescribedOnce(s: State, key: string, original: Answer, again: Answer)
    requires IdentitiesOk(s.events)
    requires Described(s, key, original) && Replays(s, key, again)
    requires original.EventAnswer? == again.EventAnswer?
    ensures Repeats(original, again)
  {
    if again.EventAnswer? && again.event.Success? {
      var r, o := again.event.value, original.event.value;
      var i :| 0 <= i < |s.events| && s.events[i].row.key == key && r == EventResult(key, s.events[i].sequence, true);
      var j :| 0 <= j < |s.events| && s.events[j].row.key == key
        && o == EventResult(key, s.events[j].sequence, o.replayed);
      assert i == j;
    }
  }

  lemma DescribedIsCommitted(s: State, key: string, call: Call, answer: Answer)
    requires Described(s, key, answer) && KeyOf(call) == key && call.Settle? == answer.SettlementAnswer?
    ensures Committed(s, call)
  {
  }

  /** Inserting a repeat that changes nothing leaves the rest of the history as it was. */
  lemma InsertNoOp(h: seq<State>, steps: seq<Step>, i: nat, step: Step)
    requires Runs(h, steps) && i < |h| && Follows(h[i], step, h[i])
    ensures Runs(h[..i + 1] + h[i..], steps[..i] + [step] + steps[i..])
  {
    var g, more := h[..i + 1] + h[i..], steps[..i] + [step] + steps[i..];
    forall k: nat | k < |more| ensures FollowsAt(g, more, k) {
      InsertNoOpAt(h, steps, i, step, k);
    }
  }

  lemma InsertNoOpAt(h: seq<State>, steps: seq<Step>, i: nat, step: Step, k: nat)
    requires Runs(h, steps) && i < |h| && Follows(h[i], step, h[i]) && k <= |steps|
    ensures FollowsAt(h[..i + 1] + h[i..], steps[..i] + [step] + steps[i..], k)
  {
    InsertedAt(h, steps, i, step, k);
    if k < i {
      assert FollowsAt(h, steps, k);
    } else if k > i {
      assert FollowsAt(h, steps, k - 1);
    }
  }

  /** What stands at `k` once `step` is inserted at `i` with its state repeated. */
  lemma InsertedAt<T, S>(h: seq<T>, steps: seq<S>, i: nat, step: S, k: nat)
    requires |h| == |steps| + 1 && i < |h| && k <= |steps|
    ensures var g, more := h[..i + 1] + h[i..], steps[..i] + [step] + steps[i..];
            (g[k], more[k], g[k + 1])
            == if k < i then (h[k], steps[k], h[k + 1])
               else if k == i then (h[i], step, h[i])
               else (h[k - 1], steps[k - 1], h[k])
  {
  }

  /**
   Duplicate erasure.  Insert, anywhere after a call that returned, another call with its key: the
   rest of the history goes through the same states, so ledger, counters and settlements are
   unchanged; and the repeat either is refused or returns the original result.
   */
  lemma DuplicateErasure(
    h: seq<State>, steps: seq<Step>, m: nat, i: nat,
    first: Call, v0: Verdicts, repeated: Call, v: Verdicts)
    requires Runs(h, steps) && Inv(h[0]) && m < i < |h|
    requires steps[m] == Api(first, v0) && Apply(h[m], first, v0).1.Returned()
    requires SameKey(first, repeated)
    ensures Runs(h[..i + 1] + h[i..], steps[..i] + [Api(repeated, v)] + steps[i..])
    ensures Repeats(Apply(h[m], first, v0).1, Apply(h[i], repeated, v).1)
  {
    RepeatIsInert(h, steps, m, i, first, v0, repeated, v);
    InsertNoOp(h, steps, i, Api(repeated, v));
  }

  lemma RepeatIsInert(
    h: seq<State>, steps: seq<Step>, m: nat, i: nat,
    first: Call, v0: Verdicts, repeated: Call, v: Verdicts)
    requires Runs(h, steps) && Inv(h[0]) && m < i < |h|
    requires steps[m] == Api(first, v0) && Apply(h[m], first, v0).1.Returned()
    requires SameKey(first, repeated)
    ensures Apply(h[i], repeated, v).0 == h[i]
    ensures Repeats(Apply(h[m], first, v0).1, Apply(h[i], repeated, v).1)
  {
    RunsIsHistory(h, steps);
    var original := AnswerDescribed(h, steps, m, first, v0);
    DescribedIsRepeatedLater(h, m, i, KeyOf(first), original, repeated, v);
  }

  lemma DescribedIsRepeatedLater(
    h: seq<State>, m: nat, n: nat, key: string, original: Answer, repeated: Call, v: Verdicts)
    requires History(h) && Inv(h[0]) && m < n < |h| && original in Answers(h[m + 1], key)
    requires KeyOf(repeated) == key && repeated.Settle? == original.SettlementAnswer?
    ensures Apply(h[n], repeated, v).0 == h[n] && Repeats(original, Apply(h[n], repeated, v).1)
  {
    LaterDescribed(h, m, n, key, original);
    HistoryKeepsInv(h, n);
    DescribedIsRepeated(h[n], key, original, repeated, v);
  }

  /** Whatever the state, a repeat of what it describes changes nothing and repeats the answer. */
  lemma DescribedIsRepeated(s: State, key: string, original: Answer, repeated: Call, v: Verdicts)
    requires IdentitiesOk(s.events) && Described(s, key, original)
    requires KeyOf(repeated) == key && repeated.Settle? == original.SettlementAnswer?
    ensures Apply(s, repeated, v).0 == s && Repeats(original, Apply(s, repeated, v).1)
  {
    DescribedIsCommitted(s, key, repeated, original);
    CommittedKeyIsInert(s, repeated, v);
    DescribedOnce(s, key, original, Apply(s, repeated, v).1);
  }

  lemma AnswerDescribed(h: seq<State>, steps: seq<Step>, m: nat, first: Call, v0: Verdicts)
    returns (original: Answer)
    requires Runs(h, steps) && History(h) && Inv(h[0]) && m < |steps|
    requires steps[m] == Api(first, v0) && Apply(h[m], first, v0).1.Returned()
    ensures original == Apply(h[m], first, v0).1 && original.SettlementAnswer? == first.Settle?
    ensures original in Answers(h[m + 1], KeyOf(first))
  {
    HistoryKeepsInv(h, m);
    assert FollowsAt(h, steps, m);
    original := FollowerIsDescribed(h[m], first, v0, h[m + 1]);
  }

  lemma LaterDescribed(h: seq<State>, m: nat, n: nat, key: string, answer: Answer)
    requires History(h) && Inv(h[0]) && m < n < |h| && answer in Answers(h[m + 1], key)
    ensures answer in Answers(h[n], key)
  {
    DescriptionPersists(h, m + 1, n, key, answer);
  }

  lemma FollowerIsDescribed(s: State, call: Call, v: Verdicts, t: State) returns (original: Answer)
    requires Inv(s) && Follows(s, Api(call, v), t) && Apply(s, call, v).1.Returned()
    ensures original == Apply(s, call, v).1 && original.SettlementAnswer? == call.Settle?
    ensures original in Answers(t, KeyOf(call))
  {
    ReturnedIsDescribed(s, call, v);
    original := Apply(s, call, v).1;
  }

  // ---- Exactly when a repeated reserve or release returns ----

  /** The facts admission of a reserve or release reads are the same in `t`, except confidence. */
  ghost predicate TermsKept(s: State, t: State) {
    && (forall r | r in s.runs ::
          r in t.runs && t.runs[r].transition == s.runs[r].transition && t.runs[r].selection == s.runs[r].selection)
    && (forall x | x in s.spawns ::
          x in t.spawns && t.spawns[x].run == s.spawns[x].run && t.spawns[x].transition == s.spawns[x].transition)
    && (forall c | c in s.clocks :: c in t.clocks && t.clocks[c] == s.clocks[c])
    && (forall c | c in s.policies :: c in t.policies && t.policies[c] == s.policies[c])
  }

  lemma ChangeKeepsTerms(s: State, change: Change, t: State)
    requires Explains(s, change, t)
    ensures TermsKept(s, t)
  {
  }

  lemma HistoryMoveKeepsTerms(h: seq<State>, i: nat)
    requires History(h) && Inv(h[0]) && 0 < i < |h|
    ensures TermsKept(h[i - 1], h[i])
  {
    HistoryKeepsInv(h, i - 1);
    assert MovesAt(h, i);
    var change := MoveExplained(h[i - 1], h[i]);
    if !EnvironmentOk(h[i - 1], h[i]) {
      ChangeKeepsTerms(h[i - 1], change, h[i]);
    }
  }

  lemma {:induction false} TermsChain(h: seq<State>, m: nat, n: nat)
    requires m <= n < |h| && forall i | 0 < i < |h| :: TermsKept(h[i - 1], h[i])
    ensures TermsKept(h[m], h[n])
    decreases n - m
  {
    if m < n {
      TermsChain(h, m, n - 1);
      assert TermsKept(h[n - 1], h[n]);
    }
  }

  lemma TermsPersist(h: seq<State>, m: nat, n: nat)
    requires History(h) && Inv(h[0]) && m <= n < |h|
    ensures TermsKept(h[m], h[n])
  {
    forall i | 0 < i < |h| ensures TermsKept(h[i - 1], h[i]) {
      HistoryMoveKeepsTerms(h, i);
    }
    TermsChain(h, m, n);
  }

  /** The answers of every SELECT of an admission. */
  ghost predicate SameAnswers(s: State, t: State, q: Request, policy: Option<string>) {
    && SelectedBinding(t, q, false).Pass? && SpawnBelongs(t, q)
    && TrustedCreatedAt(t, q) == TrustedCreatedAt(s, q)
    && ZeroPolicyHash(t, policy, q.selection.binding) == ZeroPolicyHash(s, policy, q.selection.binding)
  }

  lemma AdmittedSelections(s: State, kind: Kind, q: Request, policy: Option<string>)
    requires AdmitRecord(s, kind, q, policy, true).Success?
    ensures SelectedBinding(s, q, false).Pass? && SpawnBelongs(s, q) && TrustedCreatedAt(s, q).Success?
    ensures ZeroPolicyHash(s, policy, q.selection.binding).Success?
  {
  }

  lemma SelectionsPersist(s: State, t: State, kind: Kind, q: Request, policy: Option<string>)
    requires TermsKept(s, t) && AdmitRecord(s, kind, q, policy, true).Success?
    ensures q.run in t.runs && (t.runs[q.run].confidence != Unknown ==> SameAnswers(s, t, q, policy))
  {
    AdmittedSelections(s, kind, q, policy);
    AnswersPersist(s, t, q, policy);
  }

  lemma AnswersPersist(s: State, t: State, q: Request, policy: Option<string>)
    requires TermsKept(s, t) && SelectedBinding(s, q, false).Pass? && SpawnBelongs(s, q)
    requires TrustedCreatedAt(s, q).Success? && ZeroPolicyHash(s, policy, q.selection.binding).Success?
    ensures q.run in t.runs && (t.runs[q.run].confidence != Unknown ==> SameAnswers(s, t, q, policy))
  {
  }

  lemma SameAnswersAdmit(s: State, t: State, kind: Kind, q: Request, policy: Option<string>)
    requires AdmitRecord(s, kind, q, policy, true).Success? && SameAnswers(s, t, q, policy)
    ensures AdmitRecord(t, kind, q, policy, true) == AdmitRecord(s, kind, q, policy, true)
  {
  }

  lemma AdmissionSame(s: State, t: State, kind: Kind, q: Request, policy: Option<string>)
    requires TermsKept(s, t) && AdmitRecord(s, kind, q, policy, true).Success?
    ensures q.run in t.runs
    ensures t.runs[q.run].confidence != Unknown ==>
              AdmitRecord(t, kind, q, policy, true) == AdmitRecord(s, kind, q, policy, true)
  {
    SelectionsPersist(s, t, kind, q, policy);
    if t.runs[q.run].confidence != Unknown {
      SameAnswersAdmit(s, t, kind, q, policy);
    }
  }

  lemma AdmissionRefused(t: State, kind: Kind, q: Request, policy: Option<string>, schema: bool)
    requires !schema || (q.run in t.runs && t.runs[q.run].confidence == Unknown)
    ensures AdmitRecord(t, kind, q, policy, schema).Failure?
  {
  }

  /** An admitted reserve or release is admitted again, with the same row, unless its run is poisoned. */
  lemma AdmissionPersists(s: State, t: State, kind: Kind, q: Request, policy: Option<string>, schema: bool)
    requires TermsKept(s, t) && AdmitRecord(s, kind, q, policy, true).Success?
    ensures q.run in t.runs
    ensures AdmitRecord(t, kind, q, policy, schema).Success? <==> schema && t.runs[q.run].confidence != Unknown
    ensures AdmitRecord(t, kind, q, policy, schema).Success? ==>
              AdmitRecord(t, kind, q, policy, schema) == AdmitRecord(s, kind, q, policy, true)
  {
    AdmissionSame(s, t, kind, q, policy);
    if !schema || t.runs[q.run].confidence == Unknown {
      AdmissionRefused(t, kind, q, policy, schema);
    }
  }

  /** A reserve or release that returned has its exact row in the ledger. */
  lemma ReturnedRowPresent(s: State, row: Payload, v: Verdicts)
    requires row.run in s.runs && row.spawn in s.spawns
    requires RecordAdmitted(s, row, v).answer.Success?
    ensures RowPresent(RecordAdmitted(s, row, v).state.events, row)
  {
    FindEventFinds(s.events, row.key);
    var t := RecordAdmitted(s, row, v).state;
    if FindEvent(s.events, row.key).Some? {
      var e := FindEvent(s.events, row.key).value;
      var i :| 0 <= i < |s.events| && s.events[i] == e;
      assert t == s && s.events[i].row == row;
    } else {
      assert t == Insert(s, FreshEvent(s, row));
      assert t.events[|s.events|].row == row;
    }
  }

  lemma PresentRowReplays(s: State, row: Payload, v: Verdicts)
    requires IdentitiesOk(s.events) && row.run in s.runs && row.spawn in s.spawns
    requires RowPresent(s.events, row)
    ensures RecordAdmitted(s, row, v).answer.Success? <==> v.after && !ClosedPoison(s)
  {
    var i :| 0 <= i < |s.events| && s.events[i].row == row;
    FindEventFinds(s.events, row.key);
    var e := FindEvent(s.events, row.key).value;
    var j :| 0 <= j < |s.events| && s.events[j] == e;
    assert i == j;
  }

  lemma RowsPersist(h: seq<State>, m: nat, n: nat, row: Payload)
    requires History(h) && Inv(h[0]) && m <= n < |h| && RowPresent(h[m].events, row)
    ensures RowPresent(h[n].events, row)
  {
    EventsPersist(h, m, n);
    var i :| 0 <= i < |h[m].events| && h[m].events[i].row == row;
    assert h[n].events[i] == h[m].events[i];
  }

  /**
   Exactly when an identical repeat of a returned reserve or release returns: the schema and
   service-level checks pass, its run is not poisoned, and no poisoned run has been closed.  What
   has become of the spawn, its intent or the run's state meanwhile does not matter.
   */
  lemma IdenticalRepeatReturnsIff(
    h: seq<State>, m: nat, i: nat, kind: Kind, request: Request, policy: Option<string>,
    v0: Verdicts, v: Verdicts)
    requires History(h) && Inv(h[0]) && m < i < |h|
    requires RecordSpec(h[m], kind, request, policy, v0).answer.Success?
    requires h[m + 1] == RecordSpec(h[m], kind, request, policy, v0).state
    ensures Stripped(request).run in h[i].runs
    ensures RecordSpec(h[i], kind, request, policy, v).answer.Success? <==>
            && v.schema && v.after && !ClosedPoison(h[i])
            && h[i].runs[Stripped(request).run].confidence != Unknown
  {
    var q := Stripped(request);
    var row := AdmitRecord(h[m], kind, q, policy, v0.schema).value;
    AdmissionPersists(h[m], h[m], kind, q, policy, v0.schema);
    ReturnedRowPresent(h[m], row, v0);
    RowsPersist(h, m + 1, i, row);
    TermsPersist(h, m, i);
    AdmissionPersists(h[m], h[i], kind, q, policy, v.schema);
    if AdmitRecord(h[i], kind, q, policy, v.schema).Success? {
      HistoryKeepsInv(h, i);
      PresentRowReplays(h[i], row, v);
    }
  }
}
