/**
 Requests to the ledger, the read-only checks that admit them, and the meaning of every call as
 a function from the state before it to the state after it.

 A call is admitted by SELECT statements alone.  What an admitted call does is stated here by
 local conditions: the caller's own spawn, its outstanding amount and the run's free budget.  The
 guarded counter updates and whole-ledger queries of the implementation do not appear.
 */
module BudgetSpec {
  import opened Wrappers
  import opened Amounts
  import opened BudgetModel
  import Text

  /** `Unsafe`, `Conflict` and `Exceeded` are the three exception classes of the ledger. */
  datatype Error = Unsafe | Conflict | Exceeded

  /**
   Verdicts of the parts of a transaction outside this model: the schema identity check, the
   pinned service-level queries before and after the write, and which inserted row (counting from
   zero) an insert trigger rejects, if any.
   */
  datatype Verdicts = Verdicts(schema: bool, before: bool, rejected: Option<int>, after: bool)

  datatype Request = Request(
    run: string, transition: string, spawn: string, selection: Selection, amounts: Amount,
    key: string, dedupe: string, source: string, clock: string, confidence: Confidence)

  datatype EventResult = EventResult(key: string, sequence: int, replayed: bool)

  datatype SettlementResult = SettlementResult(
    key: string, events: seq<EventResult>, released: Vector, replayed: bool)

  datatype Reply<T> = Reply(state: State, answer: Result<T, Error>)

  // ---- Admission: request checks and SELECT statements ----

  function Stripped(q: Request): Request {
    q.(run := Text.Strip(q.run), transition := Text.Strip(q.transition),
       spawn := Text.Strip(q.spawn), key := Text.Strip(q.key), dedupe := Text.Strip(q.dedupe),
       source := Text.Strip(q.source), clock := Text.Strip(q.clock))
  }

  predicate TextsPresent(q: Request) {
    && q.run != "" && q.transition != "" && q.spawn != "" && q.key != "" && q.dedupe != ""
    && q.source != "" && q.clock != ""
  }

  function SelectedBinding(s: State, q: Request, allowUnknown: bool): Outcome<Error> {
    if q.run !in s.runs then Fail(Unsafe)
    else
      var run := s.runs[q.run];
      if || run.transition != q.transition
         || run.selection.binding.costConfidence == Unknown
         || (!allowUnknown && run.confidence == Unknown) then Fail(Unsafe)
      else Need(run.selection == q.selection, Conflict)
  }

  function TrustedCreatedAt(s: State, q: Request): Result<int, Error> {
    if || q.clock !in s.clocks
       || s.clocks[q.clock].run != q.run || s.clocks[q.clock].transition != q.transition
       || !(1 <= s.clocks[q.clock].epochMs <= MAX_EPOCH_MS) then Failure(Unsafe)
    else Success(s.clocks[q.clock].epochMs)
  }

  predicate PriceOk(price: int) {
    0 <= price <= MAX_COST
  }

  function RequiredCost(selection: Selection, amounts: Vector): Result<int, Error> {
    var required := Price(selection.inputPrice, selection.outputPrice, amounts);
    :- Need(PriceOk(selection.inputPrice) && PriceOk(selection.outputPrice), Unsafe);
    :- Need(required <= MAX_COST, Exceeded);
    Success(required)
  }

  predicate SpawnBelongs(s: State, q: Request) {
    q.spawn in s.spawns && s.spawns[q.spawn].run == q.run
    && s.spawns[q.spawn].transition == q.transition
  }

  /** An accepted spawn with its accepted intent and session; `completed` when it must have ended. */
  predicate SessionProof(s: State, q: Request, completed: bool) {
    && SpawnBelongs(s, q)
    && var spawn := s.spawns[q.spawn];
       && spawn.intent.Some? && spawn.intent.value.accepted
       && spawn.sessionCompleted.Some?
       && (spawn.state == Accepted || spawn.state == Completed)
       && (completed ==> spawn.state == Completed && spawn.sessionCompleted.value)
  }

  /** The trusted clock is later than acceptance, which is later than the request. */
  predicate ClockAfterAcceptance(intent: Intent, createdAt: int) {
    && 1 <= intent.requestedAt
    && intent.acceptedAt.Some?
    && intent.requestedAt < intent.acceptedAt.value < createdAt
  }

  function ZeroPolicyHash(s: State, policy: Option<string>, binding: Binding)
    : Result<Option<string>, Error>
  {
    if policy.None? then Success(None)
    else
      var id := Text.Strip(policy.value);
      if || id == "" || id !in s.policies
         || s.policies[id].endpoint != binding.endpoint
         || s.policies[id].capability != binding.capability then Failure(Unsafe)
      else Success(Some(s.policies[id].hash))
  }

  predicate NoTokensOrCost(v: Vector) {
    v.input == 0 && v.output == 0 && v.cost == 0
  }

  /** The row names an existing run and spawn that agree with it on run, transition and registry row. */
  predicate RowBound(s: State, row: Payload) {
    && row.run in s.runs && row.spawn in s.spawns
    && s.spawns[row.spawn].run == row.run
    && s.spawns[row.spawn].transition == row.transition == s.runs[row.run].transition
    && row.binding == s.runs[row.run].selection.binding
  }

  /** The row pays at least the registry price of the tokens it carries. */
  predicate Paid(s: State, row: Payload)
    requires row.run in s.runs
  {
    var selection := s.runs[row.run].selection;
    Covers(selection.inputPrice, selection.outputPrice, row.amounts)
  }

  predicate PricesOk(s: State, run: string)
    requires run in s.runs
  {
    PriceOk(s.runs[run].selection.inputPrice) && PriceOk(s.runs[run].selection.outputPrice)
  }

  /** What admission has established about a reserve or release row. */
  predicate RecordAdmissible(s: State, row: Payload) {
    && RowBound(s, row)
    && (row.kind == Reserve || row.kind == Release)
    && row.amounts.InLimits() && !row.amounts.IsZero()
    && row.confidence != Unknown && s.runs[row.run].confidence != Unknown
    && PricesOk(s, row.run)
    && (row.kind == Reserve ==> Paid(s, row))
  }

  /** What admission has established about a post-dispatch row. */
  predicate PostDispatchAdmissible(s: State, row: Payload) {
    && RowBound(s, row)
    && row.amounts.InLimits()
    && PostDispatchShape(row.kind, row.amounts, row.confidence)
    && s.spawns[row.spawn].intent.Some?
    && (row.kind == Consume && row.confidence != Unknown ==> PricesOk(s, row.run) && Paid(s, row))
  }

  /** What admission has established about a settlement. */
  predicate SettlementAdmissible(s: State, p: SettlementPayload) {
    && RowBound(s, LinkedRow(p, Release, p.actual))
    && p.actual.InLimits()
    && p.confidence != Unknown
    && s.spawns[p.spawn].intent.Some?
    && (!NoTokensOrCost(p.actual) ==> PricesOk(s, p.run) && Paid(s, LinkedRow(p, Consume, p.actual)))
  }

  /** The request rules of `record_budget_event`, checked before the database is opened. */
  predicate RecordShape(kind: Kind, q: Request, policy: Option<string>) {
    && (kind == Reserve || kind == Release)
    && TextsPresent(q)
    && q.confidence != Unknown
    && !q.amounts.IsZero()
    && (kind == Reserve ==> NoTokensOrCost(q.amounts) == policy.Some?)
    && (kind == Release ==> policy.None?)
  }

  /** Everything `record_budget_event` checks before it looks for a replay, and the row it builds. */
  function AdmitRecord(s: State, kind: Kind, q: Request, policy: Option<string>, schema: bool)
    : (r: Result<Payload, Error>)
    ensures r.Success? ==> RecordAdmissible(s, r.value) && r.value.key == q.key
  {
    var shaped := RecordShape(kind, q, policy);
    :- Need(shaped && schema, Unsafe);
    :- SelectedBinding(s, q, false);
    :- Need(SpawnBelongs(s, q), Unsafe);
    var createdAt :- TrustedCreatedAt(s, q);
    var required :- RequiredCost(q.selection, q.amounts);
    :- Need(kind == Reserve ==> q.amounts.cost >= required, Exceeded);
    var hash :- ZeroPolicyHash(s, policy, q.selection.binding);
    Success(Payload(q.key, q.dedupe, q.run, q.transition, q.spawn, q.selection.binding,
                    policy, hash, kind, q.amounts, q.confidence, q.source, createdAt, None))
  }

  /** The shape rules for each post-dispatch event type. */
  predicate PostDispatchShape(kind: Kind, amounts: Vector, confidence: Confidence) {
    match kind
    case Consume =>
      && amounts == amounts.UsagePart()
      && (confidence == Unknown <==> amounts.IsZero())
    case RetryDecrement => amounts == amounts.RetryPart() && amounts.retry != 0 && confidence != Unknown
    case RetryRestore => amounts == amounts.RetryPart() && amounts.retry != 0 && confidence != Unknown
    case HumanAttention => amounts == amounts.HumanPart() && amounts.human != 0 && confidence != Unknown
    case Reserve => false
    case Release => false
  }

  function AdmitPostDispatch(s: State, kind: Kind, q: Request, schema: bool)
    : (r: Result<Payload, Error>)
    ensures r.Success? ==> PostDispatchAdmissible(s, r.value) && r.value.key == q.key
  {
    var shaped := TextsPresent(q) && PostDispatchShape(kind, q.amounts, q.confidence);
    :- Need(shaped && schema, Unsafe);
    :- SelectedBinding(s, q, true);
    :- Need(SessionProof(s, q, kind == Consume), Unsafe);
    var createdAt :- TrustedCreatedAt(s, q);
    var intent := s.spawns[q.spawn].intent.value;
    :- Need(ClockAfterAcceptance(intent, createdAt) && intent.requestedAt <= MAX_EPOCH_MS, Unsafe);
    var required :- if kind == Consume && q.confidence != Unknown
                    then RequiredCost(q.selection, q.amounts) else Success(0);
    :- Need(q.amounts.cost >= required, Exceeded);
    Success(Payload(q.key, q.dedupe, q.run, q.transition, q.spawn, q.selection.binding,
                    None, None, kind, q.amounts, q.confidence, q.source, createdAt, Some(q.clock)))
  }

  function AdmitSettlement(s: State, q: Request, schema: bool)
    : (r: Result<SettlementPayload, Error>)
    ensures r.Success? ==> SettlementAdmissible(s, r.value) && r.value.key == q.key
  {
    var shaped := TextsPresent(q) && q.confidence != Unknown;
    :- Need(shaped && schema, Unsafe);
    :- SelectedBinding(s, q, true);
    :- Need(SessionProof(s, q, true), Unsafe);
    var createdAt :- TrustedCreatedAt(s, q);
    :- Need(ClockAfterAcceptance(s.spawns[q.spawn].intent.value, createdAt), Unsafe);
    var required :- if NoTokensOrCost(q.amounts) then Success(0)
                    else RequiredCost(q.selection, q.amounts);
    :- Need(q.amounts.cost >= required, Exceeded);
    Success(SettlementPayload(q.key, q.dedupe, q.run, q.transition, q.spawn, q.selection.binding,
                              q.amounts, q.confidence, q.source, createdAt, q.clock))
  }

  // ---- Lookups by unique column ----

  function FindEvent(es: seq<Event>, key: string): Option<Event> {
    if es == [] then None
    else if es[|es| - 1].row.key == key then Some(es[|es| - 1])
    else FindEvent(es[..|es| - 1], key)
  }

  predicate KeyUsed(es: seq<Event>, key: string) {
    exists i | 0 <= i < |es| :: es[i].row.key == key
  }

  predicate DedupeUsed(es: seq<Event>, dedupe: string) {
    exists i | 0 <= i < |es| :: es[i].row.dedupe == dedupe
  }

  predicate SettlementDedupeUsed(s: State, dedupe: string) {
    exists k | k in s.settlements :: s.settlements[k].row.dedupe == dedupe
  }

  predicate SpawnSettled(s: State, spawn: string) {
    exists k | k in s.settlements :: s.settlements[k].row.spawn == spawn
  }

  // ---- Ledger-wide poison ----

  predicate Closed(state: RunState) {
    state == GatePassed || state == ReleasePending || state == Finalized
  }

  /**
   Some run whose ledger records unknown usage has moved on past its gate.  The unknown-usage
   query has no run filter, so this refuses every later call of every run.
   */
  predicate ClosedPoison(s: State) {
    exists i | 0 <= i < |s.events| ::
      && s.events[i].row.confidence == Unknown
      && s.events[i].row.run in s.runs
      && Closed(s.runs[s.events[i].row.run].state)
  }

  predicate PostDispatchState(state: RunState) {
    || state == Dispatched || state == FirstOutputWaiting || state == Running
    || FinalState(state)
  }

  predicate FinalState(state: RunState) {
    state == ChildCompleted || state == ChildFailed || state == AggregationCompleted
  }

  // ---- What a committed write does ----

  function Charge(run: Run, row: Payload): Run {
    run.(reserved := run.reserved.Plus(Effect(row.kind, row.amounts)),
         consumed := run.consumed.Plus(Usage(row.kind, row.amounts)),
         confidence := Join(run.confidence, row.confidence))
  }

  /** Append one event and move its run's counters by exactly its effect. */
  function Insert(s: State, e: Event): State {
    s.(events := s.events + [e],
       runs := if e.row.run in s.runs then s.runs[e.row.run := Charge(s.runs[e.row.run], e.row)]
               else s.runs)
  }

  function InsertAll(s: State, es: seq<Event>): State {
    if es == [] then s else Insert(InsertAll(s, es[..|es| - 1]), es[|es| - 1])
  }

  function NextSequence(s: State, run: string): int {
    |ForRun(s.events, run)| + 1
  }

  function FreshEvent(s: State, row: Payload): Event {
    Event(row, NextSequence(s, row.run), None)
  }

  function Refuse<T>(s: State, error: Error): Reply<T> {
    Reply(s, Failure(error))
  }

  function ReplayEvent(s: State, prior: Event, row: Payload, v: Verdicts): Reply<EventResult> {
    if prior.row != row then Refuse(s, Conflict)
    else if ClosedPoison(s) || !v.after then Refuse(s, Unsafe)
    else Reply(s, Success(EventResult(prior.row.key, prior.sequence, true)))
  }

  /** Why the spawn's own reservation refuses `row`, if it does. */
  function LocalRefusal(s: State, row: Payload): Option<Error>
    requires row.run in s.runs
  {
    var selection := s.runs[row.run].selection;
    var left := Outstanding(s.events, row.spawn).Plus(Effect(row.kind, row.amounts));
    if row.kind == Reserve || row.kind == RetryRestore then None
    else if !left.NonNegative() then Some(Exceeded)
    else if row.kind == RetryDecrement || row.kind == HumanAttention then None
    else if !PricesOk(s, row.run) then Some(Unsafe)
    else if !Covers(selection.inputPrice, selection.outputPrice, left) then Some(Exceeded)
    else None
  }

  /** Why counters or retry history refuse `row`, if they do: the only non-local conditions. */
  function CounterRefusal(s: State, row: Payload): Option<Error>
    requires row.run in s.runs
  {
    var run := s.runs[row.run];
    match row.kind
    case Reserve =>
      if run.reserved.Plus(run.consumed).Plus(row.amounts).Within(run.budget) then None
      else Some(Exceeded)
    case RetryRestore =>
      if row.amounts.retry > run.consumed.retry then Some(Exceeded)
      else if row.amounts.retry > Used(ForSpawn(s.events, row.spawn)).retry then Some(Unsafe)
      else None
    case _ => None
  }

  /** Append `row`, or say why not. */
  function Append(s: State, row: Payload, v: Verdicts): Reply<EventResult>
    requires row.run in s.runs
  {
    var local := LocalRefusal(s, row);
    var counter := CounterRefusal(s, row);
    if local.Some? then Refuse(s, local.value)
    else if NextSequence(s, row.run) > MAX_EVENT_SEQUENCE then Refuse(s, Exceeded)
    else if DedupeUsed(s.events, row.dedupe) || v.rejected == Some(0) then Refuse(s, Conflict)
    else if counter.Some? then Refuse(s, counter.value)
    else if ClosedPoison(Insert(s, FreshEvent(s, row))) || !v.after then Refuse(s, Unsafe)
    else Reply(Insert(s, FreshEvent(s, row)),
               Success(EventResult(row.key, NextSequence(s, row.run), false)))
  }

  function RecordAdmitted(s: State, row: Payload, v: Verdicts): Reply<EventResult>
    requires row.run in s.runs && row.spawn in s.spawns
  {
    var prior := FindEvent(s.events, row.key);
    var spawn := s.spawns[row.spawn];
    if prior.Some? then ReplayEvent(s, prior.value, row, v)
    else if SettlementDedupeUsed(s, row.dedupe) then Refuse(s, Conflict)
    else if spawn.state != Pending || s.runs[row.run].state != Candidate || spawn.intent.Some? then
      Refuse(s, Unsafe)
    else Append(s, row, v)
  }

  function RecordSpec(s: State, kind: Kind, raw: Request, policy: Option<string>, v: Verdicts)
    : Reply<EventResult>
  {
    match AdmitRecord(s, kind, Stripped(raw), policy, v.schema)
    case Failure(e) => Refuse(s, e)
    case Success(row) => RecordAdmitted(s, row, v)
  }

  function PostDispatchAdmitted(s: State, row: Payload, v: Verdicts): Reply<EventResult>
    requires row.run in s.runs && row.spawn in s.spawns
  {
    var prior := FindEvent(s.events, row.key);
    if prior.Some? then ReplayEvent(s, prior.value, row, v)
    else if SettlementDedupeUsed(s, row.dedupe) || SpawnSettled(s, row.spawn) then
      Refuse(s, Conflict)
    else if || s.runs[row.run].confidence == Unknown
            || !PostDispatchState(s.runs[row.run].state)
            || ClosedPoison(s) || !v.before then
      Refuse(s, Unsafe)
    else Append(s, row, v)
  }

  function PostDispatchSpec(s: State, kind: Kind, raw: Request, v: Verdicts): Reply<EventResult> {
    match AdmitPostDispatch(s, kind, Stripped(raw), v.schema)
    case Failure(e) => Refuse(s, e)
    case Success(row) => PostDispatchAdmitted(s, row, v)
  }

  // ---- Final settlement ----

  function KindName(kind: Kind): string {
    match kind
    case Reserve => "reserve"
    case Release => "release"
    case Consume => "consume"
    case RetryDecrement => "retry_decrement"
    case RetryRestore => "retry_restore"
    case HumanAttention => "human_attention"
  }

  function LinkedRow(p: SettlementPayload, kind: Kind, amounts: Vector): Payload {
    Payload(p.key + "\0" + KindName(kind), p.dedupe + "\0" + KindName(kind),
            p.run, p.transition, p.spawn, p.binding, None, None,
            kind, amounts, p.confidence, p.source, p.createdAt, Some(p.clock))
  }

  function UsageRows(p: SettlementPayload): seq<Payload> {
    var amounts := p.actual.UsagePart();
    if amounts.IsZero() then [] else [LinkedRow(p, Consume, amounts)]
  }

  function RetryRows(p: SettlementPayload): seq<Payload> {
    var amounts := p.actual.RetryPart();
    if amounts.IsZero() then [] else [LinkedRow(p, RetryDecrement, amounts)]
  }

  function HumanRows(p: SettlementPayload): seq<Payload> {
    var amounts := p.actual.HumanPart();
    if amounts.IsZero() then [] else [LinkedRow(p, HumanAttention, amounts)]
  }

  /** The remainder; an all-zero settlement still leaves a zero-amount terminal marker. */
  function ReleaseRows(p: SettlementPayload, released: Vector): seq<Payload> {
    if released.IsZero() && !p.actual.IsZero() then [] else [LinkedRow(p, Release, released)]
  }

  /** The one to four rows a settlement writes: usage by type, then the remainder. */
  function LinkedRows(p: SettlementPayload, released: Vector): seq<Payload> {
    UsageRows(p) + RetryRows(p) + HumanRows(p) + ReleaseRows(p, released)
  }

  function LinkedEvents(rows: seq<Payload>, first: int, key: string): (es: seq<Event>) {
    seq(|rows|, i requires 0 <= i < |rows| => Event(rows[i], first + i, Some(key)))
  }

  /** Why block event `e`, the `index`th row written, would be refused. */
  function EventRefusal(es: seq<Event>, e: Event, index: int, v: Verdicts): Option<Error> {
    if e.sequence > MAX_EVENT_SEQUENCE then Some(Exceeded)
    else if KeyUsed(es, e.row.key) || DedupeUsed(es, e.row.dedupe) || v.rejected == Some(index) then
      Some(Conflict)
    else None
  }

  /** Why the block cannot be written whole: no sequence left, or a derived identity is taken. */
  function BlockRefusal(es: seq<Event>, block: seq<Event>, n: nat, v: Verdicts): Option<Error>
    requires n <= |block|
    decreases |block| - n
  {
    if n == |block| then None
    else
      var first := EventRefusal(es, block[n], n + 1, v);
      if first.Some? then first else BlockRefusal(es, block, n + 1, v)
  }

  function Results(es: seq<Event>, replayed: bool): seq<EventResult> {
    seq(|es|, i requires 0 <= i < |es| => EventResult(es[i].row.key, es[i].sequence, replayed))
  }

  function ReplaySettlement(s: State, prior: Settlement, p: SettlementPayload, v: Verdicts)
    : Reply<SettlementResult>
  {
    if prior.row != p then Refuse(s, Conflict)
    else if ClosedPoison(s) || !v.after then Refuse(s, Unsafe)
    else Reply(s, Success(SettlementResult(
                            p.key, Results(LinkedTo(s.events, p.key), true), prior.released, true)))
  }

  /** The part of the spawn's reservation that the settlement returns. */
  function Released(s: State, p: SettlementPayload): Vector {
    Outstanding(s.events, p.spawn).Minus(p.actual)
  }

  function SettlementBlock(s: State, p: SettlementPayload): seq<Event> {
    LinkedEvents(LinkedRows(p, Released(s, p)), NextSequence(s, p.run), p.key)
  }

  function WithSettlement(s: State, p: SettlementPayload): State {
    s.(settlements := s.settlements[p.key := Settlement(p, Released(s, p))])
  }

  function Settled(s: State, p: SettlementPayload): State {
    InsertAll(WithSettlement(s, p), SettlementBlock(s, p))
  }

  function SettleFresh(s: State, p: SettlementPayload, v: Verdicts): Reply<SettlementResult> {
    if !p.actual.Within(Outstanding(s.events, p.spawn)) then Refuse(s, Exceeded)
    else if SettlementDedupeUsed(s, p.dedupe) || SpawnSettled(s, p.spawn) || v.rejected == Some(0) then
      Refuse(s, Conflict)
    else SettleInto(s, p, v)
  }

  /** Write the settlement and its block, then query the ledger. */
  function SettleInto(s: State, p: SettlementPayload, v: Verdicts): Reply<SettlementResult> {
    var refusal := BlockRefusal(s.events, SettlementBlock(s, p), 0, v);
    if refusal.Some? then Refuse(s, refusal.value)
    else if ClosedPoison(Settled(s, p)) || !v.after then Refuse(s, Unsafe)
    else Reply(Settled(s, p), Success(SettlementResult(
                p.key, Results(SettlementBlock(s, p), false), Released(s, p), false)))
  }

  function SettleAdmitted(s: State, p: SettlementPayload, v: Verdicts): Reply<SettlementResult>
    requires p.run in s.runs && p.spawn in s.spawns
  {
    if p.key in s.settlements then ReplaySettlement(s, s.settlements[p.key], p, v)
    else if DedupeUsed(s.events, p.dedupe) then Refuse(s, Conflict)
    else if || !FinalState(s.runs[p.run].state)
            || s.runs[p.run].confidence == Unknown
            || ClosedPoison(s) || !v.before then
      Refuse(s, Unsafe)
    else SettleFresh(s, p, v)
  }

  function SettleSpec(s: State, raw: Request, v: Verdicts): Reply<SettlementResult> {
    match AdmitSettlement(s, Stripped(raw), v.schema)
    case Failure(e) => Refuse(s, e)
    case Success(p) => SettleAdmitted(s, p, v)
  }
}
