/** What each call writes, and what stood on record when an event of the ledger was written. */
module BudgetWritten {
  import opened Wrappers
  import opened Amounts
  import opened BudgetModel
  import opened BudgetSpec
  import opened BudgetSettlement
  import opened BudgetHistory
  import opened BudgetAdmission
  import opened BudgetReturns
  import Text

  // ---- Rows ----

  /** The row carries what the request says, at the instant of its clock. */
  predicate Carries(s: State, row: Payload, q: Request, kind: Kind) {
    && row.key == q.key && row.dedupe == q.dedupe && row.run == q.run && row.transition == q.transition
    && row.spawn == q.spawn && row.binding == q.selection.binding && row.kind == kind && row.amounts == q.amounts
    && row.confidence == q.confidence && row.source == q.source
    && q.clock in s.clocks && row.createdAt == s.clocks[q.clock].epochMs
  }

  lemma RecordRowRules(s: State, kind: Kind, q: Request, policy: Option<string>)
    requires AdmitRecord(s, kind, q, policy, true).Success?
    ensures var row := AdmitRecord(s, kind, q, policy, true).value;
            && Carries(s, row, q, kind) && row.clock == None && row.policy == policy
            && row.policyHash == if policy.None? then None
                                 else if Text.Strip(policy.value) in s.policies
                                 then Some(s.policies[Text.Strip(policy.value)].hash) else None
  {
  }

  lemma UsageRowRules(s: State, kind: Kind, q: Request)
    requires AdmitPostDispatch(s, kind, q, true).Success?
    ensures var row := AdmitPostDispatch(s, kind, q, true).value;
            Carries(s, row, q, kind) && row.clock == Some(q.clock) && row.policy == None && row.policyHash == None
  {
  }

  lemma SettlementRowRules(s: State, q: Request)
    requires AdmitSettlement(s, q, true).Success?
    ensures var p := AdmitSettlement(s, q, true).value;
            && p.key == q.key && p.dedupe == q.dedupe && p.run == q.run && p.transition == q.transition
            && p.spawn == q.spawn && p.binding == q.selection.binding && p.actual == q.amounts
            && p.confidence == q.confidence && p.source == q.source && p.clock == q.clock
            && q.clock in s.clocks && p.createdAt == s.clocks[q.clock].epochMs
  {
  }

  // ---- One event ----

  /** A reserve adds to what the run has reserved, a release takes from it. */
  function ReservedAfter(kind: Kind, held: Vector, v: Vector): Vector {
    match kind
    case Reserve =>
      Vector(held.time + v.time, held.input + v.input, held.output + v.output,
             held.cost + v.cost, held.retry + v.retry, held.human + v.human)
    case RetryRestore => Vector(held.time, held.input, held.output, held.cost, held.retry + v.retry, held.human)
    case _ => Left(kind, held, v)
  }

  /** Usage adds to what the run has consumed; only a restored retry is given back. */
  function ConsumedAfter(kind: Kind, used: Vector, v: Vector): Vector {
    match kind
    case Consume =>
      Vector(used.time + v.time, used.input + v.input, used.output + v.output, used.cost + v.cost, used.retry, used.human)
    case RetryDecrement => Vector(used.time, used.input, used.output, used.cost, used.retry + v.retry, used.human)
    case RetryRestore => Vector(used.time, used.input, used.output, used.cost, used.retry - v.retry, used.human)
    case HumanAttention => Vector(used.time, used.input, used.output, used.cost, used.retry, used.human + v.human)
    case _ => used
  }

  /** Unknown usage stays unknown, an estimate is never taken for known. */
  function Worse(a: Confidence, b: Confidence): Confidence {
    match a
    case Unknown => Unknown
    case Estimated => if b.Unknown? then Unknown else Estimated
    case Known => b
  }

  /** One event more, numbered next in its run, and that run's counters moved by it; nothing else. */
  ghost predicate WritesOne(s: State, t: State, row: Payload) {
    && row.run in s.runs
    && t.events == s.events + [Event(row, |ForRun(s.events, row.run)| + 1, None)]
    && t.spawns == s.spawns && t.clocks == s.clocks && t.policies == s.policies && t.settlements == s.settlements
    && t.runs.Keys == s.runs.Keys && (forall r | r in s.runs && r != row.run :: t.runs[r] == s.runs[r])
    && var run := s.runs[row.run];
       t.runs[row.run] == Run(run.state, run.transition, run.selection, run.budget,
                              ReservedAfter(row.kind, run.reserved, row.amounts),
                              ConsumedAfter(row.kind, run.consumed, row.amounts), Worse(run.confidence, row.confidence))
  }

  lemma ChargeRules(run: Run, row: Payload)
    ensures Charge(run, row) == Run(run.state, run.transition, run.selection, run.budget,
                                    ReservedAfter(row.kind, run.reserved, row.amounts),
                                    ConsumedAfter(row.kind, run.consumed, row.amounts), Worse(run.confidence, row.confidence))
  {
  }

  lemma InsertRules(s: State, row: Payload)
    requires row.run in s.runs
    ensures WritesOne(s, Insert(s, FreshEvent(s, row)), row)
  {
    ChargeRules(s.runs[row.run], row);
  }

  lemma RecordRowWrites(s: State, row: Payload, q: Request, v: Verdicts)
    requires row.run == q.run && row.spawn == q.spawn && q.run in s.runs && q.spawn in s.spawns
    requires RecordAdmitted(s, row, v).state != s
    ensures RecordAdmitted(s, row, v).state == Insert(s, FreshEvent(s, row)) && IsBeforeDispatch(s, q)
  {
    RecordOutcome(s, row, v);
  }

  lemma UsageRowWrites(s: State, row: Payload, q: Request, v: Verdicts)
    requires row.run == q.run && row.spawn == q.spawn && q.run in s.runs && q.spawn in s.spawns
    requires PostDispatchAdmitted(s, row, v).state != s
    ensures PostDispatchAdmitted(s, row, v).state == Insert(s, FreshEvent(s, row))
    ensures IsAfterDispatch(s, q) && IsUnsettled(s, q.spawn)
  {
    PostDispatchOutcome(s, row, v);
    AfterDispatchRules(s, q);
  }

  lemma RecordIsAdmitted(s: State, kind: Kind, request: Request, policy: Option<string>, v: Verdicts)
    requires RecordSpec(s, kind, request, policy, v).state != s
    ensures var r := AdmitRecord(s, kind, Cleaned(request), policy, true);
            && r.Success? && r.value.run in s.runs && r.value.spawn in s.spawns
            && RecordSpec(s, kind, request, policy, v).state == RecordAdmitted(s, r.value, v).state
  {
    CleanedIsStripped(request);
  }

  lemma UsageIsAdmitted(s: State, kind: Kind, request: Request, v: Verdicts)
    requires PostDispatchSpec(s, kind, request, v).state != s
    ensures var r := AdmitPostDispatch(s, kind, Cleaned(request), true);
            && r.Success? && r.value.run in s.runs && r.value.spawn in s.spawns
            && PostDispatchSpec(s, kind, request, v).state == PostDispatchAdmitted(s, r.value, v).state
  {
    CleanedIsStripped(request);
  }

  /** A reserve or release that changes anything appends one event, of a spawn before its dispatch. */
  lemma RecordWritesOne(s: State, kind: Kind, request: Request, policy: Option<string>, v: Verdicts) returns (row: Payload)
    requires RecordSpec(s, kind, request, policy, v).state != s
    ensures WritesOne(s, RecordSpec(s, kind, request, policy, v).state, row) && row.clock == None
    ensures Carries(s, row, Cleaned(request), kind) && IsBeforeDispatch(s, Cleaned(request))
  {
    var q := Cleaned(request);
    RecordIsAdmitted(s, kind, request, policy, v);
    row := AdmitRecord(s, kind, q, policy, true).value;
    RecordRowRules(s, kind, q, policy);
    RecordRowWrites(s, row, q, v);
    InsertRules(s, row);
  }

  /** Usage, a retry or human attention that changes anything appends one event, of an unsettled spawn. */
  lemma UsageWritesOne(s: State, kind: Kind, request: Request, v: Verdicts) returns (row: Payload)
    requires PostDispatchSpec(s, kind, request, v).state != s
    ensures WritesOne(s, PostDispatchSpec(s, kind, request, v).state, row) && row.clock == Some(Cleaned(request).clock)
    ensures Carries(s, row, Cleaned(request), kind)
    ensures IsAfterDispatch(s, Cleaned(request)) && IsUnsettled(s, Cleaned(request).spawn)
  {
    var q := Cleaned(request);
    UsageIsAdmitted(s, kind, request, v);
    row := AdmitPostDispatch(s, kind, q, true).value;
    UsageRowRules(s, kind, q);
    UsageRowWrites(s, row, q, v);
    InsertRules(s, row);
  }

  // ---- The events of a settlement ----

  /** The linked event of a type: its part of what was used, or the remainder, under derived identities. */
  predicate IsLink(link: LinkType, q: Request, released: Vector, at: int, row: Payload) {
    && row.key == q.key + LinkName(link) && row.dedupe == q.dedupe + LinkName(link) && row.kind == LinkKind(link)
    && row.run == q.run && row.transition == q.transition && row.spawn == q.spawn
    && row.binding == q.selection.binding && row.confidence == q.confidence && row.source == q.source
    && row.clock == Some(q.clock) && row.createdAt == at && row.policy == None && row.policyHash == None
    && row.amounts ==
       match link
       case Usage => Vector(q.amounts.time, q.amounts.input, q.amounts.output, q.amounts.cost, 0, 0)
       case Retry => Vector(0, 0, 0, 0, q.amounts.retry, 0)
       case Attention => Vector(0, 0, 0, 0, 0, q.amounts.human)
       case Remainder => released
  }

  lemma LinkedRowRules(p: SettlementPayload, released: Vector, q: Request, i: nat) returns (link: LinkType)
    requires i < |LinkedRows(p, released)|
    requires p.key == q.key && p.dedupe == q.dedupe && p.run == q.run && p.transition == q.transition
    requires p.spawn == q.spawn && p.binding == q.selection.binding && p.actual == q.amounts
    requires p.confidence == q.confidence && p.source == q.source && p.clock == q.clock
    ensures WritesLink(link, q.amounts, released) && IsLink(link, q, released, p.createdAt, LinkedRows(p, released)[i])
  {
    var a, b, c := UsageRows(p), RetryRows(p), HumanRows(p);
    link := if i < |a| then Usage else if i < |a| + |b| then Retry else if i < |a| + |b| + |c| then Attention else Remainder;
    LinkNames(link);
    LinkWrites(link, q.amounts, released);
  }

  lemma SettlementIsAdmitted(s: State, request: Request, v: Verdicts)
    requires SettleSpec(s, request, v).state != s
    ensures var r := AdmitSettlement(s, Cleaned(request), true);
            && r.Success? && r.value.run in s.runs && r.value.spawn in s.spawns
            && SettleSpec(s, request, v).state == SettleAdmitted(s, r.value, v).state
  {
    CleanedIsStripped(request);
  }

  lemma SettlementRowWrites(s: State, p: SettlementPayload, q: Request, v: Verdicts)
    requires p.run == q.run && p.spawn == q.spawn && p.actual == q.amounts && p.dedupe == q.dedupe && p.key == q.key
    requires p.confidence != Unknown && q.run in s.runs && q.spawn in s.spawns && SettleAdmitted(s, p, v).state != s
    ensures SettleAdmitted(s, p, v).state.events == s.events + SettlementBlock(s, p) && SettlementMayGoOn(s, q)
    ensures Released(s, p) == Rest(Outstanding(s.events, q.spawn), q.amounts)
  {
    SettleOutcome(s, p, v);
    SettlementRowReturnsIff(s, p, q, v);
    InsertAllTables(WithSettlement(s, p), SettlementBlock(s, p));
  }

  /** A settlement that changes anything appends linked events only, of a spawn that it settles. */
  lemma SettlementWritesLinks(s: State, request: Request, v: Verdicts, e: Event) returns (link: LinkType)
    requires e in SettleSpec(s, request, v).state.events && e !in s.events
    ensures var q := Cleaned(request); var released := Rest(Outstanding(s.events, q.spawn), q.amounts);
            && WritesLink(link, q.amounts, released) && q.clock in s.clocks
            && IsLink(link, q, released, s.clocks[q.clock].epochMs, e.row) && e.settlement == Some(q.key)
    ensures SettlementMayGoOn(s, Cleaned(request))
  {
    var q := Cleaned(request);
    SettlementIsAdmitted(s, request, v);
    var p := AdmitSettlement(s, q, true).value;
    SettlementRowRules(s, q);
    AdmittedSettlement(s, q);
    SettlementRowWrites(s, p, q, v);
    var i := IndexIn(s.events, SettlementBlock(s, p), e);
    link := LinkedRowRules(p, Released(s, p), q, i);
  }

  lemma IndexIn(es: seq<Event>, block: seq<Event>, e: Event) returns (i: nat)
    requires e in es + block && e !in es
    ensures i < |block| && block[i] == e
  {
    i :| i < |block| && block[i] == e;
  }

  // ---- Along a history ----

  /**
   What stood on record when the event was written: a pending spawn of a candidate for a reserve or
   release of its own; an accepted intent before the event's own clock for everything else; an ended
   session for usage; the end of the run's work for what a settlement writes.
   */
  predicate StoodOnRecord(s: State, e: Event) {
    && e.row.run in s.runs && e.row.spawn in s.spawns && s.spawns[e.row.spawn].run == e.row.run
    && var run, spawn := s.runs[e.row.run], s.spawns[e.row.spawn];
       if e.settlement.None? && e.row.kind in {Reserve, Release} then
         run.state == Candidate && spawn.state == Pending && spawn.intent.None?
       else
         && IsDispatched(spawn, e.row.createdAt) && run.confidence != Unknown
         && e.row.clock.Some? && e.row.clock.value in s.clocks
         && s.clocks[e.row.clock.value].epochMs == e.row.createdAt && s.clocks[e.row.clock.value].run == e.row.run
         && (e.row.kind == Consume || e.settlement.Some? ==> HasEnded(spawn))
         && run.state in {Dispatched, FirstOutputWaiting, Running, ChildCompleted, ChildFailed, AggregationCompleted}
         && (e.settlement.Some? ==> run.state in {ChildCompleted, ChildFailed, AggregationCompleted})
  }

  lemma RecordRowStood(s: State, t: State, kind: Kind, q: Request, policy: Option<string>, row: Payload, e: Event)
    requires RecordTerms(s, kind, q, policy) && IsBeforeDispatch(s, q)
    requires WritesOne(s, t, row) && Carries(s, row, q, kind) && e in t.events && e !in s.events
    ensures StoodOnRecord(s, e)
  {
  }

  lemma UsageRowStood(s: State, t: State, kind: Kind, q: Request, row: Payload, e: Event)
    requires UsageTerms(s, kind, q) && IsAfterDispatch(s, q) && row.clock == Some(q.clock)
    requires WritesOne(s, t, row) && Carries(s, row, q, kind) && e in t.events && e !in s.events
    ensures StoodOnRecord(s, e)
  {
  }

  lemma RecordedStood(s: State, kind: Kind, request: Request, policy: Option<string>, v: Verdicts, e: Event)
    requires e in RecordSpec(s, kind, request, policy, v).state.events && e !in s.events
    ensures StoodOnRecord(s, e)
  {
    var t := RecordSpec(s, kind, request, policy, v).state;
    RecordActs(s, kind, request, policy, v);
    var row := RecordWritesOne(s, kind, request, policy, v);
    RecordRowStood(s, t, kind, Cleaned(request), policy, row, e);
  }

  lemma UsageStood(s: State, kind: Kind, request: Request, v: Verdicts, e: Event)
    requires e in PostDispatchSpec(s, kind, request, v).state.events && e !in s.events
    ensures StoodOnRecord(s, e)
  {
    var t := PostDispatchSpec(s, kind, request, v).state;
    UsageActs(s, kind, request, v);
    var row := UsageWritesOne(s, kind, request, v);
    UsageRowStood(s, t, kind, Cleaned(request), row, e);
  }

  lemma SettlementStood(s: State, request: Request, v: Verdicts, e: Event)
    requires e in SettleSpec(s, request, v).state.events && e !in s.events
    ensures StoodOnRecord(s, e)
  {
    SettlementActs(s, request, v);
    var link := SettlementWritesLinks(s, request, v, e);
  }

  lemma CallStood(s: State, call: Call, v: Verdicts, e: Event)
    requires e in Apply(s, call, v).0.events && e !in s.events
    ensures StoodOnRecord(s, e)
  {
    match call
    case Record(kind, request, policy) => RecordedStood(s, kind, request, policy, v, e);
    case PostDispatch(kind, request) => UsageStood(s, kind, request, v, e);
    case Settle(request) => SettlementStood(s, request, v, e);
  }

  /** Every event of a history stood on record at the step that wrote it. */
  lemma EveryEventStoodOnRecord(h: seq<State>, i: nat, e: Event)
    requires History(h) && 0 < i < |h| && e in h[i].events && e !in h[i - 1].events
    ensures StoodOnRecord(h[i - 1], e)
  {
    assert MovesAt(h, i);
    assert !EnvironmentOk(h[i - 1], h[i]);
    var call, v :| Apply(h[i - 1], call, v).0 == h[i];
    CallStood(h[i - 1], call, v, e);
  }
}
