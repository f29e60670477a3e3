/**
 Exactly when a call under a key of its own returns, what it writes, and what stood on record when
 an event of the ledger was written: all in terms of rows and numbers.
 */
module BudgetReturns {
  import opened Wrappers
  import opened Amounts
  import opened BudgetModel
  import opened BudgetSpec
  import opened BudgetSettlement
  import opened BudgetHistory
  import opened BudgetIdentities
  import opened BudgetAdmission
  import BudgetTheorems

  // ---- What stands in the way ----

  /** Unknown usage of a run that has passed its gate, whichever run it is. */
  ghost predicate IsPoisonedPastGate(s: State) {
    exists i | 0 <= i < |s.events| ::
      && s.events[i].row.confidence == Unknown && s.events[i].row.run in s.runs
      && s.runs[s.events[i].row.run].state in {GatePassed, ReleasePending, Finalized}
  }

  predicate IsNewKey(s: State, key: string) {
    forall i | 0 <= i < |s.events| :: s.events[i].row.key != key
  }

  ghost predicate IsNewDedupe(s: State, dedupe: string) {
    && (forall i | 0 <= i < |s.events| :: s.events[i].row.dedupe != dedupe)
    && forall k | k in s.settlements :: s.settlements[k].row.dedupe != dedupe
  }

  ghost predicate IsUnsettled(s: State, spawn: string) {
    forall k | k in s.settlements :: s.settlements[k].row.spawn != spawn
  }

  /** One more event of the run is numbered with at most a million. */
  predicate HasNumbersLeft(s: State, run: string) {
    |ForRun(s.events, run)| < 1_000_000
  }

  /** Reserved, consumed and the new amounts stay within the budget, dimension by dimension. */
  predicate FitsBudget(run: Run, v: Vector) {
    && run.reserved.time + run.consumed.time + v.time <= run.budget.time
    && run.reserved.input + run.consumed.input + v.input <= run.budget.input
    && run.reserved.output + run.consumed.output + v.output <= run.budget.output
    && run.reserved.cost + run.consumed.cost + v.cost <= run.budget.cost
    && run.reserved.retry + run.consumed.retry + v.retry <= run.budget.retry
    && run.reserved.human + run.consumed.human + v.human <= run.budget.human
  }

  predicate IsLegalAmount(v: Vector) {
    v.time >= 0 && v.input >= 0 && v.output >= 0 && v.cost >= 0 && v.retry >= 0 && v.human >= 0
  }

  /** What a spawn holds once the amounts are taken from it: all of it for a release, the usage for the rest. */
  function Left(kind: Kind, held: Vector, v: Vector): Vector {
    match kind
    case Release =>
      Vector(held.time - v.time, held.input - v.input, held.output - v.output,
             held.cost - v.cost, held.retry - v.retry, held.human - v.human)
    case Consume =>
      Vector(held.time - v.time, held.input - v.input, held.output - v.output, held.cost - v.cost, held.retry, held.human)
    case RetryDecrement =>
      Vector(held.time, held.input, held.output, held.cost, held.retry - v.retry, held.human)
    case HumanAttention =>
      Vector(held.time, held.input, held.output, held.cost, held.retry, held.human - v.human)
    case _ => held
  }

  /** What is left of the spawn's reservation is an amount that pays for the tokens still in it. */
  ghost predicate LeavesFunded(s: State, q: Request, left: Vector) {
    IsLegalAmount(left) && IsPaidBy(q.selection, left, left.cost)
  }

  // ---- When a call returns ----

  lemma GatePoisonRules(s: State)
    ensures ClosedPoison(s) <==> IsPoisonedPastGate(s)
  {
  }

  /** One more event poisons nothing unless it is itself unknown and its run past the gate. */
  lemma GatePoisonOfMore(s: State, e: Event)
    requires e.row.run in s.runs && (e.row.confidence == Unknown ==> !Closed(s.runs[e.row.run].state))
    ensures ClosedPoison(Insert(s, e)) <==> IsPoisonedPastGate(s)
  {
    var t := Insert(s, e);
    if ClosedPoison(t) {
      var i :| 0 <= i < |t.events| && t.events[i].row.confidence == Unknown && t.events[i].row.run in t.runs
               && Closed(t.runs[t.events[i].row.run].state);
      assert i < |s.events| && s.events[i] == t.events[i];
    }
    if IsPoisonedPastGate(s) {
      var i :| 0 <= i < |s.events| && s.events[i].row.confidence == Unknown && s.events[i].row.run in s.runs
               && Closed(s.runs[s.events[i].row.run].state);
      assert t.events[i] == s.events[i];
    }
  }

  lemma NewKeyRules(s: State, key: string)
    ensures FindEvent(s.events, key).None? <==> IsNewKey(s, key)
  {
    FindEventIff(s.events, key);
  }

  lemma {:induction false} FindEventIff(es: seq<Event>, key: string)
    ensures FindEvent(es, key).None? <==> forall i | 0 <= i < |es| :: es[i].row.key != key
  {
    if es != [] {
      FindEventIff(es[..|es| - 1], key);
    }
  }

  lemma NewDedupeRules(s: State, dedupe: string)
    ensures !DedupeUsed(s.events, dedupe) && !SettlementDedupeUsed(s, dedupe) <==> IsNewDedupe(s, dedupe)
  {
  }

  /** The reservation rules of one row. */
  ghost predicate Allows(s: State, kind: Kind, q: Request)
    requires q.run in s.runs
  {
    var held := Outstanding(s.events, q.spawn);
    match kind
    case Reserve => FitsBudget(s.runs[q.run], q.amounts)
    case RetryRestore =>
      q.amounts.retry <= s.runs[q.run].consumed.retry && q.amounts.retry <= Used(ForSpawn(s.events, q.spawn)).retry
    case Release => LeavesFunded(s, q, Left(kind, held, q.amounts))
    case Consume => LeavesFunded(s, q, Left(kind, held, q.amounts))
    case _ => IsLegalAmount(Left(kind, held, q.amounts))
  }

  lemma LeftIsOutstanding(kind: Kind, held: Vector, v: Vector)
    ensures kind != Reserve && kind != RetryRestore ==> held.Plus(Effect(kind, v)) == Left(kind, held, v)
  {
  }

  lemma LegalIff(v: Vector)
    ensures v.NonNegative() <==> IsLegalAmount(v)
  {
  }

  lemma FundedIff(s: State, q: Request, left: Vector)
    requires q.run in s.runs && s.runs[q.run].selection == q.selection
    ensures LeavesFunded(s, q, left) <==>
            left.NonNegative() && PricesOk(s, q.run) && Covers(q.selection.inputPrice, q.selection.outputPrice, left)
  {
    PriceRules(q.selection, left, left.cost);
    LegalIff(left);
  }

  lemma FitsIff(run: Run, v: Vector)
    ensures run.reserved.Plus(run.consumed).Plus(v).Within(run.budget) <==> FitsBudget(run, v)
  {
  }

  lemma AllowsIff(s: State, row: Payload, q: Request)
    requires row.run == q.run && row.spawn == q.spawn && row.amounts == q.amounts && q.run in s.runs
    requires s.runs[q.run].selection == q.selection
    ensures LocalRefusal(s, row).None? && CounterRefusal(s, row).None? <==> Allows(s, row.kind, q)
  {
    var held := Outstanding(s.events, row.spawn);
    var left := Left(row.kind, held, q.amounts);
    LeftIsOutstanding(row.kind, held, q.amounts);
    FundedIff(s, q, left);
    LegalIff(left);
    FitsIff(s.runs[q.run], q.amounts);
  }

  /** A new row is appended exactly when nothing stands in its way. */
  lemma AppendIff(s: State, row: Payload, q: Request, v: Verdicts)
    requires row.run == q.run && row.spawn == q.spawn && row.amounts == q.amounts && q.run in s.runs
    requires s.runs[q.run].selection == q.selection
    requires row.confidence == Unknown ==> !Closed(s.runs[row.run].state)
    ensures Append(s, row, v).answer.Success? <==>
            && Allows(s, row.kind, q) && HasNumbersLeft(s, q.run) && !DedupeUsed(s.events, row.dedupe)
            && v.rejected != Some(0) && v.after && !IsPoisonedPastGate(s)
  {
    AllowsIff(s, row, q);
    GatePoisonOfMore(s, FreshEvent(s, row));
  }

  /** The run is still a candidate and the spawn still pending, with nothing sent. */
  predicate IsBeforeDispatch(s: State, q: Request) {
    && q.run in s.runs && q.spawn in s.spawns
    && s.runs[q.run].state == Candidate && s.spawns[q.spawn].state == Pending && s.spawns[q.spawn].intent.None?
  }

  lemma RecordRowReturnsIff(s: State, row: Payload, q: Request, v: Verdicts)
    requires row.run == q.run && row.spawn == q.spawn && row.amounts == q.amounts && row.dedupe == q.dedupe
    requires q.run in s.runs && q.spawn in s.spawns && s.runs[q.run].selection == q.selection
    requires row.confidence != Unknown && FindEvent(s.events, row.key).None?
    ensures RecordAdmitted(s, row, v).answer.Success? <==>
            && v.after && v.rejected != Some(0) && IsBeforeDispatch(s, q) && IsNewDedupe(s, q.dedupe)
            && HasNumbersLeft(s, q.run) && !IsPoisonedPastGate(s) && Allows(s, row.kind, q)
  {
    NewDedupeRules(s, q.dedupe);
    AppendIff(s, row, q, v);
  }

  lemma AdmittedRecordRow(s: State, kind: Kind, q: Request, policy: Option<string>)
    requires AdmitRecord(s, kind, q, policy, true).Success?
    ensures var row := AdmitRecord(s, kind, q, policy, true).value;
            && row.run == q.run && row.spawn == q.spawn && row.amounts == q.amounts && row.dedupe == q.dedupe
            && row.kind == kind && row.key == q.key && row.confidence == q.confidence != Unknown
            && q.run in s.runs && q.spawn in s.spawns && s.runs[q.run].selection == q.selection
  {
  }

  /** Nothing of the ledger, the run or the spawn stands in the way of a reserve or release. */
  ghost predicate RecordMayGoOn(s: State, kind: Kind, q: Request) {
    && IsBeforeDispatch(s, q) && IsNewDedupe(s, q.dedupe)
    && HasNumbersLeft(s, q.run) && !IsPoisonedPastGate(s) && Allows(s, kind, q)
  }

  /** Exactly when a reserve or release under a new key returns. */
  lemma RecordReturnsIff(s: State, kind: Kind, request: Request, policy: Option<string>, v: Verdicts)
    requires IsNewKey(s, Cleaned(request).key)
    ensures RecordSpec(s, kind, request, policy, v).answer.Success? <==>
            && v.schema && v.after && v.rejected != Some(0)
            && RecordTerms(s, kind, Cleaned(request), policy) && RecordMayGoOn(s, kind, Cleaned(request))
  {
    var q := Cleaned(request);
    CleanedIsStripped(request);
    RecordTermsIff(s, kind, q, policy);
    if v.schema && AdmitRecord(s, kind, q, policy, true).Success? {
      AdmittedRecordRow(s, kind, q, policy);
      NewKeyRules(s, q.key);
      RecordRowReturnsIff(s, AdmitRecord(s, kind, q, policy, true).value, q, v);
    }
  }

  /** The run is at work on what it dispatched. */
  predicate IsAfterDispatch(s: State, q: Request) {
    && q.run in s.runs && s.runs[q.run].confidence != Unknown
    && s.runs[q.run].state in
       {Dispatched, FirstOutputWaiting, Running, ChildCompleted, ChildFailed, AggregationCompleted}
  }

  lemma AfterDispatchRules(s: State, q: Request)
    requires q.run in s.runs
    ensures IsAfterDispatch(s, q) <==>
            s.runs[q.run].confidence != Unknown && PostDispatchState(s.runs[q.run].state)
    ensures PostDispatchState(s.runs[q.run].state) ==> !Closed(s.runs[q.run].state)
  {
  }

  lemma UsageRowReturnsIff(s: State, row: Payload, q: Request, v: Verdicts)
    requires row.run == q.run && row.spawn == q.spawn && row.amounts == q.amounts && row.dedupe == q.dedupe
    requires q.run in s.runs && q.spawn in s.spawns && s.runs[q.run].selection == q.selection
    requires FindEvent(s.events, row.key).None?
    ensures PostDispatchAdmitted(s, row, v).answer.Success? <==>
            && v.before && v.after && v.rejected != Some(0)
            && IsAfterDispatch(s, q) && IsNewDedupe(s, q.dedupe) && IsUnsettled(s, q.spawn)
            && HasNumbersLeft(s, q.run) && !IsPoisonedPastGate(s) && Allows(s, row.kind, q)
  {
    NewDedupeRules(s, q.dedupe);
    GatePoisonRules(s);
    AfterDispatchRules(s, q);
    if IsAfterDispatch(s, q) {
      AppendIff(s, row, q, v);
    }
  }

  lemma AdmittedUsageRow(s: State, kind: Kind, q: Request)
    requires AdmitPostDispatch(s, kind, q, true).Success?
    ensures var row := AdmitPostDispatch(s, kind, q, true).value;
            && row.run == q.run && row.spawn == q.spawn && row.amounts == q.amounts && row.dedupe == q.dedupe
            && row.kind == kind && row.key == q.key
            && q.run in s.runs && q.spawn in s.spawns && s.runs[q.run].selection == q.selection
  {
  }

  ghost predicate UsageMayGoOn(s: State, kind: Kind, q: Request) {
    && IsAfterDispatch(s, q) && IsNewDedupe(s, q.dedupe) && IsUnsettled(s, q.spawn)
    && HasNumbersLeft(s, q.run) && !IsPoisonedPastGate(s) && Allows(s, kind, q)
  }

  /** Exactly when usage, a retry or human attention under a new key is recorded. */
  lemma UsageReturnsIff(s: State, kind: Kind, request: Request, v: Verdicts)
    requires IsNewKey(s, Cleaned(request).key)
    ensures PostDispatchSpec(s, kind, request, v).answer.Success? <==>
            && v.schema && v.before && v.after && v.rejected != Some(0)
            && UsageTerms(s, kind, Cleaned(request)) && UsageMayGoOn(s, kind, Cleaned(request))
  {
    var q := Cleaned(request);
    CleanedIsStripped(request);
    UsageTermsIff(s, kind, q);
    if v.schema && AdmitPostDispatch(s, kind, q, true).Success? {
      AdmittedUsageRow(s, kind, q);
      NewKeyRules(s, q.key);
      UsageRowReturnsIff(s, AdmitPostDispatch(s, kind, q, true).value, q, v);
    }
  }

  // ---- When a settlement returns ----

  /** The types of linked events, each of which a settlement writes at most once. */
  datatype LinkType = Usage | Retry | Attention | Remainder

  predicate WritesLink(link: LinkType, actual: Vector, released: Vector) {
    match link
    case Usage => actual.time != 0 || actual.input != 0 || actual.output != 0 || actual.cost != 0
    case Retry => actual.retry != 0
    case Attention => actual.human != 0
    case Remainder => !IsNothing(released) || IsNothing(actual)
  }

  function LinkName(link: LinkType): string {
    match link
    case Usage => "\0consume"
    case Retry => "\0retry_decrement"
    case Attention => "\0human_attention"
    case Remainder => "\0release"
  }

  function LinkKind(link: LinkType): Kind {
    match link
    case Usage => Consume
    case Retry => RetryDecrement
    case Attention => HumanAttention
    case Remainder => Release
  }

  function LinkCount(actual: Vector, released: Vector): nat {
    (if WritesLink(Usage, actual, released) then 1 else 0) + (if WritesLink(Retry, actual, released) then 1 else 0)
    + (if WritesLink(Attention, actual, released) then 1 else 0) + (if WritesLink(Remainder, actual, released) then 1 else 0)
  }

  /** No event has the key or the dedupe key of a link that is written, and each gets a number and no rejection. */
  predicate LinksMayGoOn(s: State, q: Request, released: Vector, v: Verdicts) {
    && (forall link | WritesLink(link, q.amounts, released) ::
          forall i | 0 <= i < |s.events| ::
            s.events[i].row.key != q.key + LinkName(link) && s.events[i].row.dedupe != q.dedupe + LinkName(link))
    && |ForRun(s.events, q.run)| + LinkCount(q.amounts, released) <= 1_000_000
    && (v.rejected.Some? ==> !(0 <= v.rejected.value <= LinkCount(q.amounts, released)))
  }

  lemma LinkNames(link: LinkType)
    ensures LinkName(link) == "\0" + KindName(LinkKind(link))
    ensures forall text :: text + LinkName(link) == Derived(text, LinkKind(link))
  {
    forall text: string ensures text + LinkName(link) == Derived(text, LinkKind(link)) {}
  }

  lemma LinkWrites(link: LinkType, actual: Vector, released: Vector)
    ensures WritesLink(link, actual, released) <==> Writes(actual, released, LinkKind(link))
  {
  }

  lemma LinksFreeIff(s: State, q: Request, p: SettlementPayload, released: Vector)
    requires p.key == q.key && p.dedupe == q.dedupe && p.actual == q.amounts
    ensures NoneTaken(s.events, p, released) <==>
            forall link | WritesLink(link, q.amounts, released) ::
              forall i | 0 <= i < |s.events| ::
                s.events[i].row.key != q.key + LinkName(link) && s.events[i].row.dedupe != q.dedupe + LinkName(link)
  {
    forall link
      ensures WritesLink(link, q.amounts, released) <==> Writes(q.amounts, released, LinkKind(link))
      ensures DerivedTaken(s.events, p, LinkKind(link)) <==>
              exists i | 0 <= i < |s.events| ::
                s.events[i].row.key == q.key + LinkName(link) || s.events[i].row.dedupe == q.dedupe + LinkName(link)
    {
      LinkWrites(link, q.amounts, released);
      LinkNames(link);
    }
    forall kind | Writes(p.actual, released, kind) ensures exists link :: LinkKind(link) == kind {
      match kind {
        case Consume => assert LinkKind(Usage) == kind;
        case RetryDecrement => assert LinkKind(Retry) == kind;
        case HumanAttention => assert LinkKind(Attention) == kind;
        case Release => assert LinkKind(Remainder) == kind;
      }
    }
  }

  lemma LinkCountIsSize(p: SettlementPayload, released: Vector)
    ensures |LinkedRows(p, released)| == LinkCount(p.actual, released)
  {
    LinkWrites(Usage, p.actual, released);
    LinkWrites(Retry, p.actual, released);
    LinkWrites(Attention, p.actual, released);
    LinkWrites(Remainder, p.actual, released);
  }

  /** Six-dimensional difference. */
  function Rest(held: Vector, v: Vector): Vector {
    Vector(held.time - v.time, held.input - v.input, held.output - v.output,
           held.cost - v.cost, held.retry - v.retry, held.human - v.human)
  }

  /** The run has come to the end of what it dispatched, and the spawn holds what it used. */
  ghost predicate SettlementMayGoOn(s: State, q: Request) {
    && q.run in s.runs && s.runs[q.run].confidence != Unknown
    && s.runs[q.run].state in {ChildCompleted, ChildFailed, AggregationCompleted}
    && IsNewDedupe(s, q.dedupe) && IsUnsettled(s, q.spawn) && !IsPoisonedPastGate(s)
    && IsLegalAmount(Rest(Outstanding(s.events, q.spawn), q.amounts))
  }

  lemma AdmittedSettlement(s: State, q: Request)
    requires AdmitSettlement(s, q, true).Success?
    ensures var p := AdmitSettlement(s, q, true).value;
            && p.run == q.run && p.spawn == q.spawn && p.actual == q.amounts && p.dedupe == q.dedupe && p.key == q.key
            && p.confidence == q.confidence != Unknown && q.run in s.runs && q.spawn in s.spawns
  {
  }

  lemma SettledPoisonRules(s: State, p: SettlementPayload)
    requires p.confidence != Unknown
    ensures ClosedPoison(Settled(s, p)) <==> IsPoisonedPastGate(s)
  {
    var block := SettlementBlock(s, p);
    InsertAllTables(WithSettlement(s, p), block);
    LinkedRowsConfidence(p, Released(s, p));
    BudgetTheorems.PoisonOfParts(s, block, Settled(s, p));
  }

  lemma LinkedRowsConfidence(p: SettlementPayload, released: Vector)
    ensures forall i | 0 <= i < |LinkedRows(p, released)| :: LinkedRows(p, released)[i].confidence == p.confidence
  {
  }

  lemma FreshSettlementIff(s: State, p: SettlementPayload, q: Request, v: Verdicts)
    requires p.run == q.run && p.spawn == q.spawn && p.actual == q.amounts && p.dedupe == q.dedupe && p.key == q.key
    requires p.confidence != Unknown
    ensures SettleFresh(s, p, v).answer.Success? <==>
            && IsLegalAmount(Rest(Outstanding(s.events, q.spawn), q.amounts)) && !SettlementDedupeUsed(s, p.dedupe)
            && IsUnsettled(s, q.spawn) && LinksMayGoOn(s, q, Rest(Outstanding(s.events, q.spawn), q.amounts), v)
            && !IsPoisonedPastGate(s) && v.after
  {
    var released := Released(s, p);
    assert released == Rest(Outstanding(s.events, q.spawn), q.amounts);
    BlockRefusedIffDerivedTaken(s, p, v);
    LinksFreeIff(s, q, p, released);
    LinkCountIsSize(p, released);
    SettledPoisonRules(s, p);
  }

  lemma SettlementRowReturnsIff(s: State, p: SettlementPayload, q: Request, v: Verdicts)
    requires p.run == q.run && p.spawn == q.spawn && p.actual == q.amounts && p.dedupe == q.dedupe && p.key == q.key
    requires p.confidence != Unknown && q.run in s.runs && q.spawn in s.spawns && q.key !in s.settlements
    ensures SettleAdmitted(s, p, v).answer.Success? <==>
            && v.before && v.after && SettlementMayGoOn(s, q)
            && LinksMayGoOn(s, q, Rest(Outstanding(s.events, q.spawn), q.amounts), v)
  {
    FreshSettlementIff(s, p, q, v);
    NewDedupeRules(s, q.dedupe);
    GatePoisonRules(s);
  }

  /** Exactly when a settlement under a new key returns. */
  lemma SettlementReturnsIff(s: State, request: Request, v: Verdicts)
    requires Cleaned(request).key !in s.settlements
    ensures var q := Cleaned(request);
            SettleSpec(s, request, v).answer.Success? <==>
            && v.schema && v.before && v.after && SettlementTerms(s, q) && SettlementMayGoOn(s, q)
            && LinksMayGoOn(s, q, Rest(Outstanding(s.events, q.spawn), q.amounts), v)
  {
    var q := Cleaned(request);
    CleanedIsStripped(request);
    SettlementTermsIff(s, q);
    if v.schema && AdmitSettlement(s, q, true).Success? {
      AdmittedSettlement(s, q);
      SettlementRowReturnsIff(s, AdmitSettlement(s, q, true).value, q, v);
    }
  }
}
