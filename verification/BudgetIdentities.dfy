/** The identities a settlement derives for its linked events, and what happens when one is taken. */
module BudgetIdentities {
  import opened Wrappers
  import opened Amounts
  import opened BudgetModel
  import opened BudgetSpec
  import opened BudgetCore
  import opened BudgetQueries
  import opened BudgetSettlement
  import opened BudgetInvariant
  import opened BudgetHistory
  import opened BudgetTheorems
  import opened BudgetReplay
  import Text

  /** The text a linked event of type `kind` derives from its settlement's key or dedupe key. */
  function Derived(text: string, kind: Kind): string {
    text + "\0" + KindName(kind)
  }

  /** A settlement of `actual` that returns `released` writes a linked event of type `kind`. */
  predicate Writes(actual: Vector, released: Vector, kind: Kind) {
    match kind
    case Consume => !actual.UsagePart().IsZero()
    case RetryDecrement => !actual.RetryPart().IsZero()
    case HumanAttention => !actual.HumanPart().IsZero()
    case Release => !released.IsZero() || actual.IsZero()
    case Reserve => false
    case RetryRestore => false
  }

  predicate IsLinkedRow(p: SettlementPayload, row: Payload, kind: Kind) {
    row.kind == kind && row.key == Derived(p.key, kind) && row.dedupe == Derived(p.dedupe, kind)
  }

  predicate HasRow(p: SettlementPayload, rows: seq<Payload>, kind: Kind) {
    exists i | 0 <= i < |rows| :: IsLinkedRow(p, rows[i], kind)
  }

  lemma HasRowIn(p: SettlementPayload, a: seq<Payload>, b: seq<Payload>, c: seq<Payload>, d: seq<Payload>, kind: Kind)
    requires HasRow(p, a, kind) || HasRow(p, b, kind) || HasRow(p, c, kind) || HasRow(p, d, kind)
    ensures HasRow(p, a + b + c + d, kind)
  {
    var rows := a + b + c + d;
    if HasRow(p, a, kind) {
      var i: nat :| i < |a| && IsLinkedRow(p, a[i], kind);
      assert rows[i] == a[i];
    } else if HasRow(p, b, kind) {
      var i: nat :| i < |b| && IsLinkedRow(p, b[i], kind);
      assert rows[|a| + i] == b[i];
    } else if HasRow(p, c, kind) {
      var i: nat :| i < |c| && IsLinkedRow(p, c[i], kind);
      assert rows[|a + b| + i] == c[i];
    } else {
      var i: nat :| i < |d| && IsLinkedRow(p, d[i], kind);
      assert rows[|a + b + c| + i] == d[i];
    }
  }

  lemma OneRow(p: SettlementPayload, kind: Kind, amounts: Vector)
    ensures HasRow(p, [LinkedRow(p, kind, amounts)], kind)
  {
    assert IsLinkedRow(p, [LinkedRow(p, kind, amounts)][0], kind);
  }

  lemma WrittenRow(p: SettlementPayload, released: Vector, kind: Kind)
    requires Writes(p.actual, released, kind)
    ensures HasRow(p, LinkedRows(p, released), kind)
  {
    match kind {
      case Consume => OneRow(p, kind, p.actual.UsagePart());
      case RetryDecrement => OneRow(p, kind, p.actual.RetryPart());
      case HumanAttention => OneRow(p, kind, p.actual.HumanPart());
      case Release => OneRow(p, kind, released);
    }
    HasRowIn(p, UsageRows(p), RetryRows(p), HumanRows(p), ReleaseRows(p, released), kind);
  }

  /** Every row of the part is one the settlement writes. */
  predicate AllWritten(p: SettlementPayload, released: Vector, rows: seq<Payload>) {
    forall i | 0 <= i < |rows| :: Writes(p.actual, released, rows[i].kind) && IsLinkedRow(p, rows[i], rows[i].kind)
  }

  lemma AllWrittenConcat(p: SettlementPayload, released: Vector, a: seq<Payload>, b: seq<Payload>)
    requires AllWritten(p, released, a) && AllWritten(p, released, b)
    ensures AllWritten(p, released, a + b)
  {
  }

  lemma OnlyWrittenRows(p: SettlementPayload, released: Vector)
    ensures AllWritten(p, released, LinkedRows(p, released))
  {
    var a, b, c, d := UsageRows(p), RetryRows(p), HumanRows(p), ReleaseRows(p, released);
    AllWrittenConcat(p, released, a, b);
    AllWrittenConcat(p, released, a + b, c);
    AllWrittenConcat(p, released, a + b + c, d);
  }

  /** The derived key or dedupe key of a linked event of type `kind` is in the ledger already. */
  predicate DerivedTaken(es: seq<Event>, p: SettlementPayload, kind: Kind) {
    KeyUsed(es, Derived(p.key, kind)) || DedupeUsed(es, Derived(p.dedupe, kind))
  }

  lemma {:induction false} BlockRefusalIff(es: seq<Event>, block: seq<Event>, n: nat, v: Verdicts)
    requires n <= |block|
    ensures BlockRefusal(es, block, n, v).None?
            <==> forall i | n <= i < |block| :: EventRefusal(es, block[i], i + 1, v).None?
    decreases |block| - n
  {
    if n < |block| {
      BlockRefusalIff(es, block, n + 1, v);
    }
  }

  /** Sequence numbers are left for `size` rows, and no insert trigger rejects one of them. */
  predicate HasRoom(first: int, size: nat, v: Verdicts) {
    && first + size - 1 <= MAX_EVENT_SEQUENCE
    && (v.rejected.Some? ==> !(1 <= v.rejected.value <= size))
  }

  predicate NoneTaken(es: seq<Event>, p: SettlementPayload, released: Vector) {
    forall kind | Writes(p.actual, released, kind) :: !DerivedTaken(es, p, kind)
  }

  /** No row of the block is refused. */
  predicate Writable(es: seq<Event>, block: seq<Event>, v: Verdicts) {
    forall i | 0 <= i < |block| :: EventRefusal(es, block[i], i + 1, v).None?
  }

  lemma WritableIsFree(es: seq<Event>, p: SettlementPayload, released: Vector, rows: seq<Payload>, first: int, v: Verdicts)
    requires Writable(es, LinkedEvents(rows, first, p.key), v) && rows == LinkedRows(p, released)
    ensures NoneTaken(es, p, released)
  {
    var block := LinkedEvents(rows, first, p.key);
    forall kind | Writes(p.actual, released, kind) ensures !DerivedTaken(es, p, kind) {
      WrittenRow(p, released, kind);
      var i: nat :| i < |rows| && IsLinkedRow(p, rows[i], kind);
      assert block[i].row == rows[i];
    }
  }

  lemma WritableHasRoom(es: seq<Event>, p: SettlementPayload, rows: seq<Payload>, first: int, v: Verdicts)
    requires Writable(es, LinkedEvents(rows, first, p.key), v) && rows != []
    ensures HasRoom(first, |rows|, v)
  {
    var block := LinkedEvents(rows, first, p.key);
    assert block[|rows| - 1].sequence == first + |rows| - 1;
    forall i | 1 <= i <= |rows| ensures v.rejected != Some(i) {
      assert EventRefusal(es, block[i - 1], i - 1 + 1, v).None?;
    }
  }

  lemma FreeIsWritable(es: seq<Event>, p: SettlementPayload, released: Vector, rows: seq<Payload>, first: int, v: Verdicts)
    requires NoneTaken(es, p, released) && AllWritten(p, released, rows) && HasRoom(first, |rows|, v)
    ensures Writable(es, LinkedEvents(rows, first, p.key), v)
  {
    var block := LinkedEvents(rows, first, p.key);
    forall i | 0 <= i < |block| ensures EventRefusal(es, block[i], i + 1, v).None? {
      assert block[i].row == rows[i];
      assert !DerivedTaken(es, p, rows[i].kind);
    }
  }

  /**
   The block is written whole exactly when it has room and none of the identities derived for the
   types it writes is taken.
   */
  lemma BlockRefusedIffDerivedTaken(s: State, p: SettlementPayload, v: Verdicts)
    ensures BlockRefusal(s.events, SettlementBlock(s, p), 0, v).None?
            <==> HasRoom(NextSequence(s, p.run), |SettlementBlock(s, p)|, v)
                 && NoneTaken(s.events, p, Released(s, p))
  {
    var rows, first := LinkedRows(p, Released(s, p)), NextSequence(s, p.run);
    BlockRefusalIff(s.events, SettlementBlock(s, p), 0, v);
    OnlyWrittenRows(p, Released(s, p));
    LinkedRowsPresent(p, Released(s, p));
    if BlockRefusal(s.events, SettlementBlock(s, p), 0, v).None? {
      WritableIsFree(s.events, p, Released(s, p), rows, first, v);
      WritableHasRoom(s.events, p, rows, first, v);
    } else if HasRoom(first, |rows|, v) && NoneTaken(s.events, p, Released(s, p)) {
      FreeIsWritable(s.events, p, Released(s, p), rows, first, v);
    }
  }

  // ---- A direct event under a derived key ----

  /** What a settlement of `actual` writes whatever it releases. */
  ghost predicate AlwaysWrites(actual: Vector, kind: Kind) {
    kind != Reserve && kind != RetryRestore && forall released :: Writes(actual, released, kind)
  }

  /** A direct event, not linked to any settlement, carries `key`. */
  predicate DirectKey(es: seq<Event>, key: string) {
    exists i | 0 <= i < |es| :: es[i].row.key == key && es[i].settlement.None?
  }

  /** Under the key of a direct event no settlement has a linked event. */
  lemma DirectIsNotLinked(s: State, p: SettlementPayload, kind: Kind)
    requires Inv(s) && DirectKey(s.events, Derived(p.key, kind)) && AlwaysWrites(p.actual, kind)
    ensures p.key in s.settlements ==> s.settlements[p.key].row != p
  {
    if p.key in s.settlements && s.settlements[p.key].row == p {
      var i: nat :| i < |s.events| && s.events[i].row.key == Derived(p.key, kind) && s.events[i].settlement.None?;
      var j := LinkedUnderDerived(s, p, kind);
      OneEventPerKey(s.events, i, j);
    }
  }

  /** A committed settlement has a linked event of every type it always writes. */
  lemma LinkedUnderDerived(s: State, p: SettlementPayload, kind: Kind) returns (j: nat)
    requires SettlementsOk(s) && p.key in s.settlements && s.settlements[p.key].row == p && AlwaysWrites(p.actual, kind)
    ensures j < |s.events| && s.events[j].row.key == Derived(p.key, kind) && s.events[j].settlement == Some(p.key)
  {
    var st, linked := s.settlements[p.key], LinkedTo(s.events, p.key);
    assert SettlementOk(s, p.key);
    WrittenRow(p, st.released, kind);
    var rows := LinkedRows(p, st.released);
    var i: nat :| i < |rows| && IsLinkedRow(p, rows[i], kind);
    assert linked[i].row == rows[i] && linked[i].settlement == Some(p.key);
    RowsMembers(s.events, OfSettlement(p.key));
    assert linked[i] in s.events;
    j :| 0 <= j < |s.events| && s.events[j] == linked[i];
  }

  lemma TakenKeyRefusesBlock(s: State, p: SettlementPayload, kind: Kind, v: Verdicts)
    requires DirectKey(s.events, Derived(p.key, kind)) && AlwaysWrites(p.actual, kind)
    ensures BlockRefusal(s.events, SettlementBlock(s, p), 0, v).Some?
  {
    BlockRefusedIffDerivedTaken(s, p, v);
    assert DerivedTaken(s.events, p, kind) && Writes(p.actual, Released(s, p), kind);
  }

  lemma RefusedBlockFails(s: State, p: SettlementPayload, v: Verdicts)
    requires p.run in s.runs && p.spawn in s.spawns && p.key !in s.settlements
    requires BlockRefusal(s.events, SettlementBlock(s, p), 0, v).Some?
    ensures SettleAdmitted(s, p, v).state == s && SettleAdmitted(s, p, v).answer.Failure?
  {
  }

  lemma TakenKeyRefuses(s: State, p: SettlementPayload, kind: Kind, v: Verdicts)
    requires Inv(s) && p.run in s.runs && p.spawn in s.spawns
    requires DirectKey(s.events, Derived(p.key, kind)) && AlwaysWrites(p.actual, kind)
    ensures SettleAdmitted(s, p, v).state == s && SettleAdmitted(s, p, v).answer.Failure?
  {
    DirectIsNotLinked(s, p, kind);
    if p.key in s.settlements {
      ChangedSettlementConflicts(s, p, v);
    } else {
      TakenKeyRefusesBlock(s, p, kind, v);
      RefusedBlockFails(s, p, v);
    }
  }

  lemma AdmittedSettlement(s: State, q: Request, schema: bool)
    ensures var r := AdmitSettlement(s, q, schema);
      r.Success? ==>
        && r.value.key == q.key && r.value.actual == q.amounts
        && r.value.run in s.runs && r.value.spawn in s.spawns
  {
  }

  lemma TakenKeyRefusesCall(s: State, request: Request, kind: Kind, v: Verdicts)
    requires Inv(s)
    requires DirectKey(s.events, Derived(Text.Strip(request.key), kind)) && AlwaysWrites(request.amounts, kind)
    ensures SettleSpec(s, request, v).state == s && SettleSpec(s, request, v).answer.Failure?
  {
    AdmittedSettlement(s, Stripped(request), v.schema);
    var r := AdmitSettlement(s, Stripped(request), v.schema);
    if r.Success? {
      TakenKeyRefuses(s, r.value, kind, v);
    }
  }

  lemma SettleApplied(s: State, request: Request, r: Reply<SettlementResult>, v: Verdicts)
    requires SettleSpec(s, request, v) == r
    ensures Apply(s, Settle(request), v) == (r.state, SettlementAnswer(r.answer))
  {
  }

  lemma TakenKeyFails(s: State, request: Request, kind: Kind, v: Verdicts) returns (e: Error)
    requires Inv(s)
    requires DirectKey(s.events, Derived(Text.Strip(request.key), kind)) && AlwaysWrites(request.amounts, kind)
    ensures Apply(s, Settle(request), v) == (s, SettlementAnswer(Failure(e)))
  {
    TakenKeyRefusesCall(s, request, kind, v);
    var r := SettleSpec(s, request, v);
    SettleApplied(s, request, r, v);
    e := r.answer.error;
  }

  lemma DirectKeyStays(h: seq<State>, n: nat, key: string)
    requires History(h) && Inv(h[0]) && n < |h| && DirectKey(h[0].events, key)
    ensures Inv(h[n]) && DirectKey(h[n].events, key)
  {
    EventsPersist(h, 0, n);
    HistoryKeepsInv(h, n);
    var i: nat :| i < |h[0].events| && h[0].events[i].row.key == key && h[0].events[i].settlement.None?;
    assert h[n].events[i] == h[0].events[i];
  }

  /**
   Once a direct event carries the key derived for some type, no settlement that has to write that
   type ever returns, in any later state of any history.
   */
  lemma DerivedKeyBlocksSettlement(h: seq<State>, n: nat, request: Request, kind: Kind, v: Verdicts)
    returns (e: Error)
    requires History(h) && Inv(h[0]) && n < |h|
    requires DirectKey(h[0].events, Derived(Text.Strip(request.key), kind)) && AlwaysWrites(request.amounts, kind)
    ensures Apply(h[n], Settle(request), v) == (h[n], SettlementAnswer(Failure(e)))
  {
    DirectKeyStays(h, n, Derived(Text.Strip(request.key), kind));
    e := TakenKeyFails(h[n], request, kind, v);
  }

  // ---- A derived key is as good as any other for a direct event ----

  /** The row is accepted and nothing outside the model objects. */
  predicate Appends(s: State, row: Payload, v: Verdicts)
    requires row.run in s.runs
  {
    && BudgetHistory.Accepted(s, row) && v.rejected != Some(0) && v.after
    && !ClosedPoison(Insert(s, FreshEvent(s, row)))
  }

  lemma AppendsIff(s: State, row: Payload, v: Verdicts)
    requires row.run in s.runs
    ensures var r := Append(s, row, v);
      && (r.answer.Success? <==> Appends(s, row, v))
      && (Appends(s, row, v) ==> r.state == Insert(s, FreshEvent(s, row)))
  {
  }

  lemma RekeyedAppends(s: State, row: Payload, key: string, v: Verdicts)
    requires row.run in s.runs && Appends(s, row, v)
    ensures Appends(s, row.(key := key), v)
  {
    var t, u := Insert(s, FreshEvent(s, row)), Insert(s, FreshEvent(s, row.(key := key)));
    forall i | 0 <= i < |u.events| && u.events[i].row.confidence == Unknown && u.events[i].row.run in u.runs
      ensures !Closed(u.runs[u.events[i].row.run].state)
    {
      assert u.events[i].row.run == t.events[i].row.run;
    }
  }

  /** The answer of a direct call, whichever function made it. */
  function Direct(s: State, row: Payload, postDispatch: bool, v: Verdicts): Reply<EventResult>
    requires row.run in s.runs && row.spawn in s.spawns
  {
    if postDispatch then PostDispatchAdmitted(s, row, v) else RecordAdmitted(s, row, v)
  }

  lemma DirectAppends(s: State, row: Payload, postDispatch: bool, v: Verdicts)
    requires row.run in s.runs && row.spawn in s.spawns && !KeyUsed(s.events, row.key)
    requires Direct(s, row, postDispatch, v).answer.Success?
    ensures Appends(s, row, v)
  {
    FindEventFinds(s.events, row.key);
    AppendsIff(s, row, v);
  }

  lemma DirectRekeyed(s: State, row: Payload, key: string, postDispatch: bool, v: Verdicts)
    requires row.run in s.runs && row.spawn in s.spawns && !KeyUsed(s.events, row.key) && !KeyUsed(s.events, key)
    requires Direct(s, row, postDispatch, v).answer.Success?
    ensures var r := Direct(s, row.(key := key), postDispatch, v);
      && r.answer.Success? && r.state == Insert(s, FreshEvent(s, row.(key := key)))
  {
    FindEventFinds(s.events, row.key);
    FindEventFinds(s.events, key);
    DirectAppends(s, row, postDispatch, v);
    RekeyedAppends(s, row, key, v);
    AppendsIff(s, row, v);
    AppendsIff(s, row.(key := key), v);
  }

  /** What a direct call does once admitted. */
  function AdmittedRow(s: State, call: Call, v: Verdicts): Result<Payload, Error> {
    var q := Stripped(call.request);
    match call
    case Record(kind, _, policy) => AdmitRecord(s, kind, q, policy, v.schema)
    case PostDispatch(kind, _) => AdmitPostDispatch(s, kind, q, v.schema)
    case Settle(_) => Failure(Unsafe)
  }

  function Rekeyed(call: Call, key: string): Call {
    call.(request := call.request.(key := key))
  }

  lemma RekeyedRecord(s: State, kind: Kind, q: Request, key: string, policy: Option<string>, schema: bool)
    requires AdmitRecord(s, kind, q, policy, schema).Success? && key != ""
    ensures AdmitRecord(s, kind, q.(key := key), policy, schema)
            == Success(AdmitRecord(s, kind, q, policy, schema).value.(key := key))
  {
  }

  lemma RekeyedPostDispatch(s: State, kind: Kind, q: Request, key: string, schema: bool)
    requires AdmitPostDispatch(s, kind, q, schema).Success? && key != ""
    ensures AdmitPostDispatch(s, kind, q.(key := key), schema)
            == Success(AdmitPostDispatch(s, kind, q, schema).value.(key := key))
  {
  }

  lemma RekeyedAdmitted(s: State, call: Call, key: string, v: Verdicts)
    requires AdmittedRow(s, call, v).Success? && Text.Trimmed(key)
    ensures AdmittedRow(s, Rekeyed(call, key), v) == Success(AdmittedRow(s, call, v).value.(key := key))
  {
    var q := Stripped(call.request);
    assert Stripped(Rekeyed(call, key).request) == q.(key := key);
    match call
    case Record(kind, _, policy) => RekeyedRecord(s, kind, q, key, policy, v.schema);
    case PostDispatch(kind, _) => RekeyedPostDispatch(s, kind, q, key, v.schema);
  }

  lemma AdmittedCall(s: State, call: Call, row: Payload, v: Verdicts)
    requires AdmittedRow(s, call, v) == Success(row)
    ensures row.run in s.runs && row.spawn in s.spawns && row.key == KeyOf(call)
    ensures var d := Direct(s, row, call.PostDispatch?, v); Apply(s, call, v) == (d.state, EventAnswer(d.answer))
  {
  }

  lemma ReturnedIsAdmitted(s: State, call: Call, v: Verdicts)
    requires !call.Settle? && Apply(s, call, v).1.Returned()
    ensures AdmittedRow(s, call, v).Success?
  {
  }

  /** What a direct call under `key` leaves when it is recorded. */
  ghost predicate Recorded(s: State, key: string, r: (State, Answer)) {
    r.1.Returned() && |r.0.events| == |s.events| + 1 && DirectKey(r.0.events, key)
  }

  lemma InsertedIsRecorded(s: State, row: Payload, r: (State, Answer))
    requires row.run in s.runs && r.0 == Insert(s, FreshEvent(s, row)) && r.1.Returned()
    ensures Recorded(s, row.key, r)
  {
    assert r.0.events[|s.events|] == FreshEvent(s, row);
  }

  /** A direct call that returns under one fresh key returns, and is recorded, under any other. */
  lemma AnyFreshKeyWillDo(s: State, call: Call, key: string, v: Verdicts)
    requires !call.Settle? && Apply(s, call, v).1.Returned() && !KeyUsed(s.events, KeyOf(call))
    requires Text.Trimmed(key) && !KeyUsed(s.events, key)
    ensures Recorded(s, key, Apply(s, Rekeyed(call, key), v))
  {
    ReturnedIsAdmitted(s, call, v);
    var row := AdmittedRow(s, call, v).value;
    AdmittedCall(s, call, row, v);
    RekeyedAdmitted(s, call, key, v);
    AdmittedCall(s, Rekeyed(call, key), row.(key := key), v);
    DirectRekeyed(s, row, key, call.PostDispatch?, v);
    InsertedIsRecorded(s, row.(key := key), Apply(s, Rekeyed(call, key), v));
  }

  /** Stripping leaves a derived key alone, so a caller can send one. */
  lemma DerivedIsTrimmed(key: string, kind: Kind)
    requires Text.Trimmed(key)
    ensures Text.Trimmed(Derived(key, kind))
  {
    Text.TrimmedIff(key);
    KindNameEnds(kind);
    var s, name := Derived(key, kind), KindName(kind);
    assert s[0] == key[0] && s[|s| - 1] == name[|name| - 1];
    Text.TrimmedIff(s);
  }

  lemma KindNameEnds(kind: Kind)
    ensures var name := KindName(kind); |name| > 0 && !Text.IsSpace(name[|name| - 1])
  {
    match kind
    case Reserve => assert KindName(Reserve)[6] == 'e';
    case Release => assert KindName(Release)[6] == 'e';
    case Consume => assert KindName(Consume)[6] == 'e';
    case RetryDecrement => assert KindName(RetryDecrement)[14] == 't';
    case RetryRestore => assert KindName(RetryRestore)[12] == 'e';
    case HumanAttention => assert KindName(HumanAttention)[14] == 'n';
  }

  /**
   The collision can be had wherever a direct call can: sent under the derived key it returns all
   the same, and from then on no settlement under `key` that has to write that type returns.
   */
  lemma DerivedKeyCollides(
    h: seq<State>, n: nat, s: State, call: Call, v: Verdicts, request: Request, kind: Kind, w: Verdicts)
    returns (e: Error)
    requires Inv(s) && !call.Settle? && Apply(s, call, v).1.Returned() && !KeyUsed(s.events, KeyOf(call))
    requires Text.Trimmed(request.key) && !KeyUsed(s.events, Derived(request.key, kind))
    requires AlwaysWrites(request.amounts, kind)
    requires History(h) && n < |h| && h[0] == Apply(s, Rekeyed(call, Derived(request.key, kind)), v).0
    ensures Apply(s, Rekeyed(call, Derived(request.key, kind)), v).1.Returned()
    ensures Apply(h[n], Settle(request), w) == (h[n], SettlementAnswer(Failure(e)))
  {
    var key := Derived(request.key, kind);
    DerivedIsTrimmed(request.key, kind);
    AnyFreshKeyWillDo(s, call, key, v);
    CallKeepsInv(s, Rekeyed(call, key), v);
    e := DerivedKeyBlocksSettlement(h, n, request, kind, w);
  }
}
