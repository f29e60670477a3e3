/** Tables of the budget database and the sums its queries compute over the event ledger. */
module BudgetModel {
  import opened Wrappers
  import opened Amounts

  const MAX_EVENT_SEQUENCE: int := 1_000_000
  const MAX_EPOCH_MS: int := 253_402_300_799_999

  datatype Kind = Reserve | Release | Consume | RetryDecrement | RetryRestore | HumanAttention

  datatype Confidence = Known | Estimated | Unknown

  datatype RunState =
    | Candidate
    | Dispatched | FirstOutputWaiting | Running
    | ChildCompleted | ChildFailed | AggregationCompleted
    | GatePassed | ReleasePending | Finalized
    | OtherRunState(name: string)

  datatype SpawnState = Pending | Accepted | Completed | OtherSpawnState(name: string)

  /** The columns that bind an event to its endpoint and registry row. */
  datatype Binding = Binding(
    provider: string, model: string, endpoint: string, capability: string,
    registry: string, effectiveAt: string, registryHash: string, costConfidence: Confidence)

  datatype Selection = Selection(binding: Binding, inputPrice: int, outputPrice: int)

  /** A run joined with its `run_budgets` row and selected registry row. */
  datatype Run = Run(
    state: RunState, transition: string, selection: Selection,
    budget: Vector, reserved: Vector, consumed: Vector, confidence: Confidence)

  /** The `sessions_spawn` intent of a spawn request. */
  datatype Intent = Intent(accepted: bool, requestedAt: int, acceptedAt: Option<int>)

  datatype Spawn = Spawn(
    run: string, transition: string, state: SpawnState,
    intent: Option<Intent>, sessionCompleted: Option<bool>)

  /** A consumed gate clock context that passed every trust condition. */
  datatype Clock = Clock(run: string, transition: string, epochMs: int)

  datatype ZeroPolicy = ZeroPolicy(endpoint: string, capability: string, hash: string)

  /** The event columns compared on replay.  `key` stands for the id hashed from it. */
  datatype Payload = Payload(
    key: string, dedupe: string, run: string, transition: string, spawn: string,
    binding: Binding, policy: Option<string>, policyHash: Option<string>,
    kind: Kind, amounts: Vector, confidence: Confidence, source: string,
    createdAt: int, clock: Option<string>)

  datatype Event = Event(row: Payload, sequence: int, settlement: Option<string>)

  /** The settlement columns compared on replay. */
  datatype SettlementPayload = SettlementPayload(
    key: string, dedupe: string, run: string, transition: string, spawn: string,
    binding: Binding, actual: Vector, confidence: Confidence, source: string,
    createdAt: int, clock: string)

  datatype Settlement = Settlement(row: SettlementPayload, released: Vector)

  datatype State = State(
    runs: map<string, Run>, spawns: map<string, Spawn>,
    clocks: map<string, Clock>, policies: map<string, ZeroPolicy>,
    events: seq<Event>, settlements: map<string, Settlement>)

  /** What one event adds to (or takes from) the reservation it belongs to. */
  function Effect(kind: Kind, amounts: Vector): Vector {
    match kind
    case Reserve => amounts
    case Release => ZERO.Minus(amounts)
    case Consume => ZERO.Minus(amounts.UsagePart())
    case RetryDecrement => ZERO.Minus(amounts.RetryPart())
    case RetryRestore => amounts.RetryPart()
    case HumanAttention => ZERO.Minus(amounts.HumanPart())
  }

  /** What one event adds to (or takes from) consumption. */
  function Usage(kind: Kind, amounts: Vector): Vector {
    match kind
    case Reserve => ZERO
    case Release => ZERO
    case Consume => amounts.UsagePart()
    case RetryDecrement => amounts.RetryPart()
    case RetryRestore => ZERO.Minus(amounts.RetryPart())
    case HumanAttention => amounts.HumanPart()
  }

  function EffectOf(e: Event): Vector {
    Effect(e.row.kind, e.row.amounts)
  }

  function UsageOf(e: Event): Vector {
    Usage(e.row.kind, e.row.amounts)
  }

  function Join(a: Confidence, b: Confidence): Confidence {
    if a == Unknown || b == Unknown then Unknown
    else if a == Estimated || b == Estimated then Estimated
    else Known
  }

  /** The rows of `es` that satisfy `p`, in ledger order. */
  function Rows(es: seq<Event>, p: Event -> bool): seq<Event> {
    if es == [] then []
    else Rows(es[..|es| - 1], p) + if p(es[|es| - 1]) then [es[|es| - 1]] else []
  }

  function OfRun(run: string): Event -> bool {
    (e: Event) => e.row.run == run
  }

  function OfSpawn(spawn: string): Event -> bool {
    (e: Event) => e.row.spawn == spawn
  }

  function OfSettlement(key: string): Event -> bool {
    (e: Event) => e.settlement == Some(key)
  }

  function ForRun(es: seq<Event>, run: string): seq<Event> {
    Rows(es, OfRun(run))
  }

  function ForSpawn(es: seq<Event>, spawn: string): seq<Event> {
    Rows(es, OfSpawn(spawn))
  }

  function LinkedTo(es: seq<Event>, key: string): seq<Event> {
    Rows(es, OfSettlement(key))
  }

  /** The CASE column a SUM over the ledger adds up: one effect per row. */
  function Effects(es: seq<Event>): seq<Vector> {
    seq(|es|, i requires 0 <= i < |es| => EffectOf(es[i]))
  }

  function Usages(es: seq<Event>): seq<Vector> {
    seq(|es|, i requires 0 <= i < |es| => UsageOf(es[i]))
  }

  /** Net reservation left by `es`. */
  function Total(es: seq<Event>): Vector {
    Sum(Effects(es))
  }

  /** Net consumption recorded by `es`. */
  function Used(es: seq<Event>): Vector {
    Sum(Usages(es))
  }

  function Confidences(es: seq<Event>): Confidence {
    if es == [] then Known
    else Join(Confidences(es[..|es| - 1]), es[|es| - 1].row.confidence)
  }

  function Outstanding(es: seq<Event>, spawn: string): Vector {
    Total(ForSpawn(es, spawn))
  }

  /** The seven nets tracked by the per-spawn window query are non-negative. */
  predicate NetsOk(es: seq<Event>) {
    Total(es).NonNegative() && Used(es).retry >= 0
  }

  // ---- Laws of the folds ----

  lemma RowsAppend(es: seq<Event>, e: Event, p: Event -> bool)
    ensures Rows(es + [e], p) == Rows(es, p) + if p(e) then [e] else []
  {
    assert (es + [e])[..|es|] == es;
  }

  lemma {:induction false} RowsConcat(es: seq<Event>, fs: seq<Event>, p: Event -> bool)
    ensures Rows(es + fs, p) == Rows(es, p) + Rows(fs, p)
  {
    if fs == [] {
      assert es + fs == es;
    } else {
      var init, e := fs[..|fs| - 1], fs[|fs| - 1];
      assert es + fs == (es + init) + [e];
      RowsAppend(es + init, e, p);
      RowsConcat(es, init, p);
    }
  }

  lemma {:induction false} RowsAgree(es: seq<Event>, p: Event -> bool, q: Event -> bool)
    requires forall e | e in es :: p(e) == q(e)
    ensures Rows(es, p) == Rows(es, q)
  {
    if es != [] {
      RowsAgree(es[..|es| - 1], p, q);
    }
  }

  lemma {:induction false} RowsMembers(es: seq<Event>, p: Event -> bool)
    ensures forall e :: e in Rows(es, p) <==> e in es && p(e)
  {
    if es != [] {
      RowsMembers(es[..|es| - 1], p);
      assert es == es[..|es| - 1] + [es[|es| - 1]];
    }
  }

  lemma {:induction false} RowsAll(es: seq<Event>, p: Event -> bool)
    requires forall e | e in es :: p(e)
    ensures Rows(es, p) == es
  {
    if es != [] {
      RowsAll(es[..|es| - 1], p);
      assert es == es[..|es| - 1] + [es[|es| - 1]];
    }
  }

  lemma {:induction false} RowsNone(es: seq<Event>, p: Event -> bool)
    requires forall e | e in es :: !p(e)
    ensures Rows(es, p) == []
  {
    if es != [] {
      RowsNone(es[..|es| - 1], p);
    }
  }

  lemma {:induction false} RowsTwice(es: seq<Event>, p: Event -> bool, q: Event -> bool)
    requires forall e | e in es :: p(e) ==> q(e)
    ensures Rows(Rows(es, q), p) == Rows(es, p)
  {
    if es != [] {
      var init, e := es[..|es| - 1], es[|es| - 1];
      RowsTwice(init, p, q);
      var kept := if q(e) then [e] else [];
      assert Rows(es, q) == Rows(init, q) + kept;
      if q(e) {
        RowsAppend(Rows(init, q), e, p);
      } else {
        assert Rows(es, q) == Rows(init, q);
      }
    }
  }

  lemma TotalConcat(es: seq<Event>, fs: seq<Event>)
    ensures Total(es + fs) == Total(es).Plus(Total(fs))
    ensures Used(es + fs) == Used(es).Plus(Used(fs))
  {
    assert Effects(es + fs) == Effects(es) + Effects(fs);
    assert Usages(es + fs) == Usages(es) + Usages(fs);
    SumConcat(Effects(es), Effects(fs));
    SumConcat(Usages(es), Usages(fs));
  }

  lemma TotalAppend(es: seq<Event>, e: Event)
    ensures Total(es + [e]) == Total(es).Plus(EffectOf(e))
    ensures Used(es + [e]) == Used(es).Plus(UsageOf(e))
  {
    assert Effects(es + [e]) == Effects(es) + [EffectOf(e)];
    assert Usages(es + [e]) == Usages(es) + [UsageOf(e)];
    SumAppend(Effects(es), EffectOf(e));
    SumAppend(Usages(es), UsageOf(e));
  }

  lemma ConfidencesAppend(es: seq<Event>, e: Event)
    ensures Confidences(es + [e]) == Join(Confidences(es), e.row.confidence)
  {
    assert (es + [e])[..|es|] == es;
  }

  lemma {:induction false} ConfidencesConcat(es: seq<Event>, fs: seq<Event>)
    ensures Confidences(es + fs) == Join(Confidences(es), Confidences(fs))
  {
    if fs == [] {
      assert es + fs == es;
    } else {
      var init, e := fs[..|fs| - 1], fs[|fs| - 1];
      assert fs == init + [e];
      assert es + fs == (es + init) + [e];
      ConfidencesAppend(es + init, e);
      ConfidencesAppend(init, e);
      ConfidencesConcat(es, init);
    }
  }
}
