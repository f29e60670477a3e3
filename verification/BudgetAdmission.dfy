/**
 Who may call the ledger, in terms of rows and numbers alone: what must be on record about the run,
 its spawn, its session and the clock before a call returns or changes anything.
 */
module BudgetAdmission {
  import opened Wrappers
  import opened Amounts
  import opened BudgetModel
  import opened BudgetSpec
  import opened BudgetHistory
  import Text

  // ---- What is on record ----

  /** The request names a run and a spawn of it, at one transition, under the run's own selection. */
  predicate IsIdentified(s: State, q: Request) {
    && q.run in s.runs && q.spawn in s.spawns
    && s.runs[q.run].transition == q.transition
    && s.spawns[q.spawn].run == q.run && s.spawns[q.spawn].transition == q.transition
    && s.runs[q.run].selection.binding == q.selection.binding
    && s.runs[q.run].selection.inputPrice == q.selection.inputPrice
    && s.runs[q.run].selection.outputPrice == q.selection.outputPrice
    && q.selection.binding.costConfidence != Unknown
  }

  /** The run's own clock shows this instant, between the epoch and the end of the year 9999. */
  predicate IsClocked(s: State, q: Request, at: int) {
    && q.clock in s.clocks && s.clocks[q.clock].epochMs == at
    && s.clocks[q.clock].run == q.run && s.clocks[q.clock].transition == q.transition
    && 0 < at < 253_402_300_800_000
  }

  /** The spawn was requested, accepted and given a session before this instant. */
  predicate IsDispatched(spawn: Spawn, at: int) {
    && spawn.intent.Some? && spawn.intent.value.accepted && spawn.intent.value.acceptedAt.Some?
    && 0 < spawn.intent.value.requestedAt < spawn.intent.value.acceptedAt.value < at
    && spawn.sessionCompleted.Some? && (spawn.state == Accepted || spawn.state == Completed)
  }

  /** Its session has completed too. */
  predicate HasEnded(spawn: Spawn) {
    spawn.state == Completed && spawn.sessionCompleted == Some(true)
  }

  /** So many microdollars pay for input and output tokens, each priced per million and rounded up. */
  ghost predicate IsPaidBy(selection: Selection, v: Vector, microusd: int) {
    && 0 <= selection.inputPrice <= 100_000_000_000 && 0 <= selection.outputPrice <= 100_000_000_000
    && exists input, output :: Pays(selection, v, input, output) && input + output <= microusd
  }

  predicate Pays(selection: Selection, v: Vector, input: int, output: int) {
    && v.input * selection.inputPrice <= input * 1_000_000
    && v.output * selection.outputPrice <= output * 1_000_000
  }

  predicate HasTexts(q: Request) {
    q.run != "" && q.transition != "" && q.spawn != "" && q.key != "" && q.dedupe != "" && q.source != "" && q.clock != ""
  }

  predicate IsNothing(v: Vector) {
    v == Vector(0, 0, 0, 0, 0, 0)
  }

  /** Neither tokens nor cost. */
  predicate IsFreeOfCharge(v: Vector) {
    v == Vector(v.time, 0, 0, 0, v.retry, v.human)
  }

  predicate IsPolicyFor(s: State, policy: string, q: Request) {
    && Text.Strip(policy) != "" && Text.Strip(policy) in s.policies
    && s.policies[Text.Strip(policy)].endpoint == q.selection.binding.endpoint
    && s.policies[Text.Strip(policy)].capability == q.selection.binding.capability
  }

  // ---- The terms of each call ----

  /** What `record_budget_event` asks for; a reserve without charge needs a policy, and only that has one. */
  ghost predicate RecordTerms(s: State, kind: Kind, q: Request, policy: Option<string>) {
    && HasTexts(q) && IsIdentified(s, q) && s.runs[q.run].confidence != Unknown && q.confidence != Unknown
    && !IsNothing(q.amounts) && (exists at :: IsClocked(s, q, at))
    && (policy.Some? ==> IsPolicyFor(s, policy.value, q))
    && match kind
       case Reserve => IsPaidBy(q.selection, q.amounts, q.amounts.cost) && (policy.Some? <==> IsFreeOfCharge(q.amounts))
       case Release => IsPaidBy(q.selection, q.amounts, 100_000_000_000) && policy.None?
       case _ => false
  }

  /** What each kind of usage may carry. */
  predicate CarriesUsage(kind: Kind, v: Vector, confidence: Confidence) {
    match kind
    case Consume =>
      v.retry == 0 && v.human == 0 && if confidence == Unknown then IsNothing(v) else !IsNothing(v)
    case HumanAttention => v == Vector(0, 0, 0, 0, 0, v.human) && v.human != 0 && confidence != Unknown
    case RetryDecrement => v == Vector(0, 0, 0, 0, v.retry, 0) && v.retry != 0 && confidence != Unknown
    case RetryRestore => v == Vector(0, 0, 0, 0, v.retry, 0) && v.retry != 0 && confidence != Unknown
    case Reserve => false
    case Release => false
  }

  /** What `record_post_dispatch_event` asks for; usage needs an ended session. */
  ghost predicate UsageTerms(s: State, kind: Kind, q: Request) {
    && HasTexts(q) && IsIdentified(s, q) && CarriesUsage(kind, q.amounts, q.confidence)
    && (exists at :: IsClocked(s, q, at) && IsDispatched(s.spawns[q.spawn], at))
    && s.spawns[q.spawn].intent.value.requestedAt < 253_402_300_800_000
    && (kind == Consume ==> HasEnded(s.spawns[q.spawn]))
    && (kind == Consume && q.confidence != Unknown ==> IsPaidBy(q.selection, q.amounts, q.amounts.cost))
  }

  /** What `settle_budget` asks for. */
  ghost predicate SettlementTerms(s: State, q: Request) {
    && HasTexts(q) && IsIdentified(s, q) && q.confidence != Unknown
    && (exists at :: IsClocked(s, q, at) && IsDispatched(s.spawns[q.spawn], at)) && HasEnded(s.spawns[q.spawn])
    && (!IsFreeOfCharge(q.amounts) ==> IsPaidBy(q.selection, q.amounts, q.amounts.cost))
  }

  // ---- The admission checks are these terms ----

  lemma PriceRules(selection: Selection, v: Vector, microusd: int)
    ensures IsPaidBy(selection, v, microusd) <==>
            && PriceOk(selection.inputPrice) && PriceOk(selection.outputPrice)
            && Price(selection.inputPrice, selection.outputPrice, v) <= microusd
  {
    var a, b := RoundedUp(v.input, selection.inputPrice), RoundedUp(v.output, selection.outputPrice);
    RoundedUpIsCeiling(v.input, selection.inputPrice, a);
    RoundedUpIsCeiling(v.output, selection.outputPrice, b);
    assert Pays(selection, v, a, b);
    if input, output :| Pays(selection, v, input, output) && input + output <= microusd {
      RoundedUpIsCeiling(v.input, selection.inputPrice, input);
      RoundedUpIsCeiling(v.output, selection.outputPrice, output);
    }
  }

  lemma IdentityRules(s: State, q: Request, allowUnknown: bool)
    ensures SelectedBinding(s, q, allowUnknown).Pass? && SpawnBelongs(s, q) <==>
            IsIdentified(s, q) && (!allowUnknown ==> s.runs[q.run].confidence != Unknown)
  {
  }

  lemma ClockRules(s: State, q: Request, at: int)
    ensures TrustedCreatedAt(s, q) == Success(at) <==> IsClocked(s, q, at)
  {
  }

  lemma SomeClockRules(s: State, q: Request)
    ensures TrustedCreatedAt(s, q).Success? <==> exists at :: IsClocked(s, q, at)
  {
    if TrustedCreatedAt(s, q).Success? {
      ClockRules(s, q, TrustedCreatedAt(s, q).value);
    }
    if at :| IsClocked(s, q, at) {
      ClockRules(s, q, at);
    }
  }

  lemma SessionRules(s: State, q: Request, completed: bool, at: int)
    requires SpawnBelongs(s, q)
    ensures SessionProof(s, q, completed) && ClockAfterAcceptance(s.spawns[q.spawn].intent.value, at) <==>
            IsDispatched(s.spawns[q.spawn], at) && (completed ==> HasEnded(s.spawns[q.spawn]))
  {
  }

  lemma PolicyRules(s: State, policy: Option<string>, q: Request)
    ensures ZeroPolicyHash(s, policy, q.selection.binding).Success? <==>
            (policy.Some? ==> IsPolicyFor(s, policy.value, q))
  {
  }

  lemma RecordTermsIff(s: State, kind: Kind, q: Request, policy: Option<string>)
    ensures AdmitRecord(s, kind, q, policy, true).Success? <==> RecordTerms(s, kind, q, policy)
  {
    IdentityRules(s, q, false);
    SomeClockRules(s, q);
    PolicyRules(s, policy, q);
    PriceRules(q.selection, q.amounts, q.amounts.cost);
    PriceRules(q.selection, q.amounts, MAX_COST);
  }

  lemma UsageTermsIff(s: State, kind: Kind, q: Request)
    ensures AdmitPostDispatch(s, kind, q, true).Success? <==> UsageTerms(s, kind, q)
  {
    IdentityRules(s, q, true);
    SomeClockRules(s, q);
    PriceRules(q.selection, q.amounts, q.amounts.cost);
    if SpawnBelongs(s, q) && TrustedCreatedAt(s, q).Success? {
      SessionRules(s, q, kind == Consume, TrustedCreatedAt(s, q).value);
    }
  }

  lemma SettlementTermsIff(s: State, q: Request)
    ensures AdmitSettlement(s, q, true).Success? <==> SettlementTerms(s, q)
  {
    IdentityRules(s, q, true);
    SomeClockRules(s, q);
    PriceRules(q.selection, q.amounts, q.amounts.cost);
    if SpawnBelongs(s, q) && TrustedCreatedAt(s, q).Success? {
      SessionRules(s, q, true, TrustedCreatedAt(s, q).value);
    }
  }

  // ---- No call gets by without its terms ----

  /** The request as it is used: every text without the white space around it. */
  function Cleaned(q: Request): Request {
    Request(Text.Strip(q.run), Text.Strip(q.transition), Text.Strip(q.spawn), q.selection, q.amounts,
            Text.Strip(q.key), Text.Strip(q.dedupe), Text.Strip(q.source), Text.Strip(q.clock), q.confidence)
  }

  ghost predicate Terms(s: State, call: Call) {
    match call
    case Record(kind, q, policy) => RecordTerms(s, kind, Cleaned(q), policy)
    case PostDispatch(kind, q) => UsageTerms(s, kind, Cleaned(q))
    case Settle(q) => SettlementTerms(s, Cleaned(q))
  }

  /** It returned, or left another state. */
  ghost predicate Acts(s: State, call: Call, v: Verdicts) {
    Apply(s, call, v).1.Returned() || Apply(s, call, v).0 != s
  }

  lemma CleanedIsStripped(q: Request)
    ensures Stripped(q) == Cleaned(q)
  {
  }

  lemma RecordActs(s: State, kind: Kind, q: Request, policy: Option<string>, v: Verdicts)
    requires RecordSpec(s, kind, q, policy, v).answer.Success? || RecordSpec(s, kind, q, policy, v).state != s
    ensures v.schema && RecordTerms(s, kind, Cleaned(q), policy)
  {
    CleanedIsStripped(q);
    RecordTermsIff(s, kind, Cleaned(q), policy);
  }

  lemma UsageActs(s: State, kind: Kind, q: Request, v: Verdicts)
    requires PostDispatchSpec(s, kind, q, v).answer.Success? || PostDispatchSpec(s, kind, q, v).state != s
    ensures v.schema && UsageTerms(s, kind, Cleaned(q))
  {
    CleanedIsStripped(q);
    UsageTermsIff(s, kind, Cleaned(q));
  }

  lemma SettlementActs(s: State, q: Request, v: Verdicts)
    requires SettleSpec(s, q, v).answer.Success? || SettleSpec(s, q, v).state != s
    ensures v.schema && SettlementTerms(s, Cleaned(q))
  {
    CleanedIsStripped(q);
    SettlementTermsIff(s, Cleaned(q));
  }

  /** A call of any kind returns or changes the state only on its terms. */
  lemma ActsOnTerms(s: State, call: Call, v: Verdicts)
    requires Acts(s, call, v)
    ensures v.schema && Terms(s, call)
  {
    match call
    case Record(kind, q, policy) => RecordActs(s, kind, q, policy, v);
    case PostDispatch(kind, q) => UsageActs(s, kind, q, v);
    case Settle(q) => SettlementActs(s, q, v);
  }

  /** Usage and settlements need a session that has ended, accepted before the clock of the call. */
  lemma UsageNeedsEndedSession(s: State, call: Call, v: Verdicts)
    requires Acts(s, call, v)
    requires call.Settle? || (call.PostDispatch? && call.kind == Consume)
    ensures var spawn, clock := Text.Strip(call.request.spawn), Text.Strip(call.request.clock);
            && spawn in s.spawns && clock in s.clocks
            && s.spawns[spawn].state == Completed && s.spawns[spawn].sessionCompleted == Some(true)
            && s.spawns[spawn].intent.Some? && s.spawns[spawn].intent.value.accepted
            && s.spawns[spawn].intent.value.acceptedAt.Some?
            && 0 < s.spawns[spawn].intent.value.requestedAt < s.spawns[spawn].intent.value.acceptedAt.value
               < s.clocks[clock].epochMs
  {
    ActsOnTerms(s, call, v);
  }

  /** Retries and human attention need an accepted session that may still run. */
  lemma AttentionNeedsSession(s: State, call: Call, v: Verdicts)
    requires Acts(s, call, v) && call.PostDispatch?
    ensures var spawn, clock := Text.Strip(call.request.spawn), Text.Strip(call.request.clock);
            && spawn in s.spawns && clock in s.clocks && s.spawns[spawn].sessionCompleted.Some?
            && (s.spawns[spawn].state == Accepted || s.spawns[spawn].state == Completed)
            && s.spawns[spawn].intent.Some? && s.spawns[spawn].intent.value.accepted
            && s.spawns[spawn].intent.value.acceptedAt.Some?
            && 0 < s.spawns[spawn].intent.value.requestedAt < s.spawns[spawn].intent.value.acceptedAt.value
               < s.clocks[clock].epochMs
  {
    ActsOnTerms(s, call, v);
  }
}
