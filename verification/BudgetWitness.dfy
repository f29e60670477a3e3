/**
 A ledger that the program's own calls poison: a reserve, the dispatch of its spawn, usage that
 nobody can tell, and a run that passes its gate all the same.
 */
module BudgetWitness {
  import opened Wrappers
  import opened Amounts
  import opened BudgetModel
  import opened BudgetSpec
  import opened BudgetCore
  import opened BudgetQueries
  import opened BudgetSettlement
  import opened BudgetInvariant
  import opened BudgetHistory
  import opened BudgetTheorems
  import opened BudgetReplay
  import opened BudgetRefusals
  import Text

  datatype Names = Names(run: string, spawn: string, early: string, late: string, reserve: string, usage: string)

  predicate Usable(n: Names) {
    && Text.Trimmed(n.run) && Text.Trimmed(n.spawn) && Text.Trimmed(n.early) && Text.Trimmed(n.late)
    && Text.Trimmed(n.reserve) && Text.Trimmed(n.usage)
    && n.early != n.late && n.reserve != n.usage
  }

  predicate IsFree(selection: Selection) {
    selection.inputPrice == 0 == selection.outputPrice && selection.binding.costConfidence != Unknown
  }

  const RESERVED: Vector := Vector(1, 1, 1, 1, 0, 0)
  const TRUSTED: Verdicts := Verdicts(true, true, None, true)

  // ---- The history ----

  /** One new run with one pending spawn and two trusted clocks; nothing recorded, nothing intended. */
  function Fresh(n: Names, selection: Selection): State {
    State(map[n.run := Run(Candidate, n.run, selection, RESERVED, ZERO, ZERO, Known)],
          map[n.spawn := Spawn(n.run, n.run, Pending, None, None)],
          map[n.early := Clock(n.run, n.run, 1), n.late := Clock(n.run, n.run, 4)], map[], [], map[])
  }

  function ReserveRequest(n: Names, selection: Selection): Request {
    Request(n.run, n.run, n.spawn, selection, RESERVED, n.reserve, n.reserve, n.reserve, n.early, Known)
  }

  function ReserveRow(n: Names, selection: Selection): Payload {
    Payload(n.reserve, n.reserve, n.run, n.run, n.spawn, selection.binding, None, None, Reserve, RESERVED, Known,
            n.reserve, 1, None)
  }

  /** The reserve is in; its intent comes later, is accepted, and the spawn has run to its end. */
  function Dispatch(s: State, n: Names): State
    requires n.run in s.runs && n.spawn in s.spawns
  {
    s.(runs := s.runs[n.run := s.runs[n.run].(state := Dispatched)],
       spawns := s.spawns[n.spawn := s.spawns[n.spawn].(state := Completed, intent := Some(Intent(true, 2, Some(3))),
                                                        sessionCompleted := Some(true))])
  }

  function UsageRequest(n: Names, selection: Selection): Request {
    Request(n.run, n.run, n.spawn, selection, ZERO, n.usage, n.usage, n.usage, n.late, Unknown)
  }

  function UsageRow(n: Names, selection: Selection): Payload {
    Payload(n.usage, n.usage, n.run, n.run, n.spawn, selection.binding, None, None, Consume, ZERO, Unknown,
            n.usage, 4, Some(n.late))
  }

  function PassGate(s: State): State {
    s.(runs := map r | r in s.runs :: s.runs[r].(state := GatePassed))
  }

  function Reserved(n: Names, selection: Selection): State {
    Insert(Fresh(n, selection), FreshEvent(Fresh(n, selection), ReserveRow(n, selection)))
  }

  function Ready(n: Names, selection: Selection): State {
    Dispatch(Reserved(n, selection), n)
  }

  function Poisoned(n: Names, selection: Selection): State {
    Insert(Ready(n, selection), FreshEvent(Ready(n, selection), UsageRow(n, selection)))
  }

  // ---- The reserve returns ----

  lemma RequestsStripped(n: Names, selection: Selection)
    requires Usable(n)
    ensures var q := ReserveRequest(n, selection); Stripped(q) == q && TextsPresent(q)
    ensures var q := UsageRequest(n, selection); Stripped(q) == q && TextsPresent(q)
  {
  }

  lemma ReserveAdmitted(s: State, q: Request, at: int)
    requires TextsPresent(q) && q.amounts == RESERVED && q.confidence.Known? && IsFree(q.selection)
    requires SelectedBinding(s, q, false).Pass? && SpawnBelongs(s, q) && TrustedCreatedAt(s, q) == Success(at)
    ensures AdmitRecord(s, Reserve, q, None, true) ==
            Success(Payload(q.key, q.dedupe, q.run, q.transition, q.spawn, q.selection.binding, None, None, Reserve,
                            q.amounts, q.confidence, q.source, at, None))
  {
  }

  lemma FreshFits(n: Names, selection: Selection)
    requires IsFree(selection) && n.early != n.late
    ensures var s, q := Fresh(n, selection), ReserveRequest(n, selection);
            SelectedBinding(s, q, false).Pass? && SpawnBelongs(s, q) && TrustedCreatedAt(s, q) == Success(1)
  {
  }

  lemma FreshReserveAdmitted(n: Names, selection: Selection)
    requires Usable(n) && IsFree(selection)
    ensures AdmitRecord(Fresh(n, selection), Reserve, ReserveRequest(n, selection), None, true)
            == Success(ReserveRow(n, selection))
  {
    RequestsStripped(n, selection);
    FreshFits(n, selection);
    ReserveAdmitted(Fresh(n, selection), ReserveRequest(n, selection), 1);
  }

  /** On an empty ledger a reserve that fits the budget is recorded. */
  lemma FirstReserveRecorded(s: State, row: Payload, v: Verdicts)
    requires s.events == [] && |s.settlements| == 0 && row.run in s.runs && row.spawn in s.spawns
    requires row.kind.Reserve? && s.runs[row.run].reserved.Plus(s.runs[row.run].consumed).Plus(row.amounts).Within(s.runs[row.run].budget)
    requires s.runs[row.run].state.Candidate? && s.spawns[row.spawn].state.Pending? && s.spawns[row.spawn].intent.None?
    requires v.rejected.None? && v.after && !Closed(s.runs[row.run].state)
    ensures RecordAdmitted(s, row, v)
            == Reply(Insert(s, FreshEvent(s, row)), Success(EventResult(row.key, NextSequence(s, row.run), false)))
  {
    assert ForRun(s.events, row.run) == [];
  }

  lemma RecordApplied(
    s: State, kind: Kind, q: Request, policy: Option<string>, v: Verdicts, row: Payload, r: Reply<EventResult>)
    requires Stripped(q) == q && AdmitRecord(s, kind, q, policy, v.schema) == Success(row)
    requires RecordAdmitted(s, row, v) == r
    ensures RecordSpec(s, kind, q, policy, v) == r
  {
  }

  lemma RecordMoves(s: State, kind: Kind, q: Request, policy: Option<string>, v: Verdicts, t: State)
    requires RecordSpec(s, kind, q, policy, v).state == t
    ensures Moves(s, t)
  {
    CallMoves(s, Record(kind, q, policy), v, t);
  }

  lemma ReserveReturns(n: Names, selection: Selection)
    requires Usable(n) && IsFree(selection)
    ensures RecordSpec(Fresh(n, selection), Reserve, ReserveRequest(n, selection), None, TRUSTED)
            == Reply(Reserved(n, selection), Success(EventResult(n.reserve, 1, false)))
  {
    var s, q, row := Fresh(n, selection), ReserveRequest(n, selection), ReserveRow(n, selection);
    RequestsStripped(n, selection);
    FreshReserveAdmitted(n, selection);
    FreshReserveRecorded(n, selection);
    RecordApplied(s, Reserve, q, None, TRUSTED, row, RecordAdmitted(s, row, TRUSTED));
  }

  lemma FreshReserveRecorded(n: Names, selection: Selection)
    ensures RecordAdmitted(Fresh(n, selection), ReserveRow(n, selection), TRUSTED)
            == Reply(Reserved(n, selection), Success(EventResult(n.reserve, 1, false)))
  {
    FirstReserveRecorded(Fresh(n, selection), ReserveRow(n, selection), TRUSTED);
    assert ForRun(Fresh(n, selection).events, n.run) == [];
  }

  // ---- The unknown usage is recorded ----

  lemma ReservedFacts(n: Names, selection: Selection)
    ensures var s := Reserved(n, selection);
            && s.events == [Event(ReserveRow(n, selection), 1, None)] && |s.settlements| == 0
            && s.runs == map[n.run := Run(Candidate, n.run, selection, RESERVED, RESERVED, ZERO, Known)]
            && s.spawns == Fresh(n, selection).spawns && s.clocks == Fresh(n, selection).clocks
            && s.policies == map[]
  {
    assert ForRun(Fresh(n, selection).events, n.run) == [];
  }

  lemma ReadyFits(n: Names, selection: Selection)
    requires IsFree(selection) && n.early != n.late
    ensures var s, q := Ready(n, selection), UsageRequest(n, selection);
            && SelectedBinding(s, q, true).Pass? && SessionProof(s, q, true) && TrustedCreatedAt(s, q) == Success(4)
            && s.spawns[q.spawn].intent == Some(Intent(true, 2, Some(3)))
  {
    ReservedFacts(n, selection);
  }

  /** Admission of an unknown consume, check by check. */
  lemma UnknownConsumeAdmitted(s: State, q: Request, at: int)
    requires TextsPresent(q) && q.amounts == ZERO && q.confidence == Unknown
    requires SelectedBinding(s, q, true).Pass? && SessionProof(s, q, true)
    requires TrustedCreatedAt(s, q) == Success(at)
    requires ClockAfterAcceptance(s.spawns[q.spawn].intent.value, at)
    requires s.spawns[q.spawn].intent.value.requestedAt <= MAX_EPOCH_MS
    ensures AdmitPostDispatch(s, Consume, q, true) ==
            Success(Payload(q.key, q.dedupe, q.run, q.transition, q.spawn, q.selection.binding, None, None, Consume,
                            q.amounts, q.confidence, q.source, at, Some(q.clock)))
  {
  }

  lemma UsageAdmitted(n: Names, selection: Selection)
    requires Usable(n) && IsFree(selection)
    ensures AdmitPostDispatch(Ready(n, selection), Consume, UsageRequest(n, selection), true)
            == Success(UsageRow(n, selection))
  {
    RequestsStripped(n, selection);
    ReadyFits(n, selection);
    UnknownConsumeAdmitted(Ready(n, selection), UsageRequest(n, selection), 4);
  }

  lemma OneEventHeld(es: seq<Event>)
    requires |es| == 1
    ensures Outstanding(es, es[0].row.spawn) == Effect(es[0].row.kind, es[0].row.amounts)
  {
    var none, x := es[..0], es[0].row.spawn;
    OutstandingAppend(none, es[0], x);
    assert none + [es[0]] == es;
    assert ForSpawn(none, x) == [] && Effects(ForSpawn(none, x)) == [];
    ZeroPlus(EffectOf(es[0]));
  }

  lemma ZeroPlus(v: Vector)
    ensures ZERO.Plus(v) == v && v.Plus(Effect(Consume, ZERO)) == v
  {
  }

  lemma FreeIsCovered(selection: Selection, v: Vector)
    requires IsFree(selection) && v.cost >= 0
    ensures Covers(selection.inputPrice, selection.outputPrice, v)
  {
    assert v.input * selection.inputPrice == 0 && v.output * selection.outputPrice == 0;
  }

  /** A row that takes nothing from a legal reservation at no price is never refused. */
  lemma FreeRowFits(s: State, row: Payload, left: Vector)
    requires row.run in s.runs && IsFree(s.runs[row.run].selection) && row.kind.Consume?
    requires left == Outstanding(s.events, row.spawn).Plus(Effect(row.kind, row.amounts))
    requires left.NonNegative()
    ensures LocalRefusal(s, row).None?
  {
    FreeIsCovered(s.runs[row.run].selection, left);
  }

  lemma SecondRowAccepted(s: State, row: Payload)
    requires row.run in s.runs && LocalRefusal(s, row).None? && row.kind.Consume?
    requires |s.events| == 1 && s.events[0].row.dedupe != row.dedupe
    ensures BudgetHistory.Accepted(s, row)
  {
    RowsShorter(s.events, OfRun(row.run));
  }

  lemma OpenRunIsNotPoison(s: State, row: Payload)
    requires |s.events| == 1 && s.events[0].row.confidence.Known?
    requires row.run in s.runs && s.runs[row.run].state.Dispatched?
    ensures !ClosedPoison(Insert(s, FreshEvent(s, row)))
  {
    var t := Insert(s, FreshEvent(s, row));
    assert t.events == [s.events[0]] + [FreshEvent(s, row)];
  }

  /** Without objections from outside an accepted row is appended. */
  lemma AcceptedIsAppended(s: State, row: Payload, v: Verdicts)
    requires row.run in s.runs && BudgetHistory.Accepted(s, row) && v.rejected.None? && v.after
    requires !ClosedPoison(Insert(s, FreshEvent(s, row)))
    ensures Append(s, row, v).state == Insert(s, FreshEvent(s, row))
  {
  }

  /** After one reserve an unknown consume is recorded. */
  lemma UnknownRowRecorded(s: State, row: Payload, v: Verdicts)
    requires row.run in s.runs && row.spawn in s.spawns && |s.settlements| == 0 && LocalRefusal(s, row).None?
    requires |s.events| == 1 && s.events[0].row.confidence.Known?
    requires s.events[0].row.key != row.key && s.events[0].row.dedupe != row.dedupe
    requires row.kind.Consume? && s.runs[row.run].state.Dispatched? && s.runs[row.run].confidence.Known?
    requires v.before && v.rejected.None? && v.after
    ensures PostDispatchAdmitted(s, row, v).state == Insert(s, FreshEvent(s, row))
  {
    SecondRowAccepted(s, row);
    OneKnownIsClean(s);
    OpenRunIsNotPoison(s, row);
    AcceptedIsAppended(s, row, v);
    FindEventFinds(s.events, row.key);
  }

  lemma ReadyFacts(n: Names, selection: Selection)
    ensures var s := Ready(n, selection);
            && s.events == [Event(ReserveRow(n, selection), 1, None)] && |s.settlements| == 0
            && Outstanding(s.events, n.spawn).Plus(Effect(Consume, ZERO)) == RESERVED
            && n.run in s.runs && n.spawn in s.spawns
            && s.runs[n.run] == Run(Dispatched, n.run, selection, RESERVED, RESERVED, ZERO, Known)
  {
    ReservedFacts(n, selection);
    OneEventHeld(Ready(n, selection).events);
    ZeroPlus(RESERVED);
  }

  lemma UsageMoves(n: Names, selection: Selection)
    requires Usable(n) && IsFree(selection)
    ensures Moves(Ready(n, selection), Poisoned(n, selection))
  {
    var s, q, row := Ready(n, selection), UsageRequest(n, selection), UsageRow(n, selection);
    RequestsStripped(n, selection);
    UsageAdmitted(n, selection);
    ReadyFacts(n, selection);
    FreeRowFits(s, row, RESERVED);
    UnknownRowRecorded(s, row, TRUSTED);
    PostDispatchMoves(s, q, row, Poisoned(n, selection));
  }

  lemma PostDispatchMoves(s: State, q: Request, row: Payload, t: State)
    requires Stripped(q) == q && AdmitPostDispatch(s, Consume, q, TRUSTED.schema) == Success(row)
    requires PostDispatchAdmitted(s, row, TRUSTED).state == t
    ensures Moves(s, t)
  {
    PostDispatchApplied(s, q, row);
    CallMoves(s, PostDispatch(Consume, q), TRUSTED, t);
  }

  lemma PostDispatchApplied(s: State, q: Request, row: Payload)
    requires Stripped(q) == q && AdmitPostDispatch(s, Consume, q, TRUSTED.schema) == Success(row)
    ensures Apply(s, PostDispatch(Consume, q), TRUSTED).0 == PostDispatchAdmitted(s, row, TRUSTED).state
  {
  }

  lemma CallMoves(s: State, call: Call, v: Verdicts, t: State)
    requires Apply(s, call, v).0 == t
    ensures Moves(s, t)
  {
  }

  // ---- The whole history ----

  lemma EnvironmentSteps(n: Names, selection: Selection)
    ensures EnvironmentOk(Reserved(n, selection), Ready(n, selection))
    ensures EnvironmentOk(Poisoned(n, selection), PassGate(Poisoned(n, selection)))
  {
    ReservedFacts(n, selection);
  }

  lemma GatedUnknownIsPoison(t: State, i: nat)
    requires i < |t.events| && t.events[i].row.confidence.Unknown? && t.events[i].row.run in t.runs
    ensures ClosedPoison(PassGate(t))
  {
    var u := PassGate(t);
    assert u.events[i].row.run in u.runs;
  }

  lemma PoisonedFacts(n: Names, selection: Selection)
    ensures var t := Poisoned(n, selection);
            && |t.events| == 2 && t.events[1].row == UsageRow(n, selection)
            && n.run in t.runs && t.runs[n.run].confidence.Unknown?
  {
    ReadyFacts(n, selection);
    JoinUnknown(Ready(n, selection), FreshEvent(Ready(n, selection), UsageRow(n, selection)));
  }

  lemma JoinUnknown(s: State, e: Event)
    requires e.row.run in s.runs && e.row.confidence.Unknown?
    ensures Insert(s, e).runs[e.row.run].confidence.Unknown?
  {
  }

  lemma FiveStates(a: State, b: State, c: State, d: State, e: State)
    requires Moves(a, b) && Moves(b, c) && Moves(c, d) && Moves(d, e)
    ensures History([a, b, c, d, e])
  {
    var h := [a, b, c, d, e];
    forall i | 0 < i < |h| ensures MovesAt(h, i) {
      if i == 1 {
        assert h[0] == a && h[1] == b;
      } else if i == 2 {
        assert h[1] == b && h[2] == c;
      } else if i == 3 {
        assert h[2] == c && h[3] == d;
      }
    }
  }

  function Story(n: Names, selection: Selection): seq<State> {
    [Fresh(n, selection), Reserved(n, selection), Ready(n, selection), Poisoned(n, selection),
     PassGate(Poisoned(n, selection))]
  }

  lemma FreshIsGenesis(n: Names, selection: Selection)
    ensures Genesis(Fresh(n, selection))
  {
  }

  lemma StoryIsHistory(n: Names, selection: Selection)
    requires Usable(n) && IsFree(selection)
    ensures History(Story(n, selection))
  {
    ReserveReturns(n, selection);
    RecordMoves(Fresh(n, selection), Reserve, ReserveRequest(n, selection), None, TRUSTED, Reserved(n, selection));
    EnvironmentSteps(n, selection);
    UsageMoves(n, selection);
    FiveStates(Fresh(n, selection), Reserved(n, selection), Ready(n, selection), Poisoned(n, selection),
               PassGate(Poisoned(n, selection)));
  }

  /** Poison is reachable by the program's own calls, and at its end no call returns any more. */
  lemma ClosedPoisonIsReachable(n: Names, selection: Selection)
    requires Usable(n) && IsFree(selection)
    ensures var h := Story(n, selection);
            && Genesis(h[0]) && History(h) && ClosedPoison(h[4])
            && forall call, v :: !Apply(h[4], call, v).1.Returned()
  {
    StoryIsHistory(n, selection);
    FreshIsGenesis(n, selection);
    PoisonedFacts(n, selection);
    GatedUnknownIsPoison(Poisoned(n, selection), 1);
    var end := Story(n, selection)[4];
    forall call, v ensures !Apply(end, call, v).1.Returned() {
      ClosedPoisonStopsEveryCall(end, call, v);
    }
  }

  lemma OneKnownIsClean(s: State)
    requires |s.events| == 1 && s.events[0].row.confidence.Known?
    ensures !ClosedPoison(s)
  {
  }

  lemma ReadyReserveAdmitted(n: Names, selection: Selection)
    requires Usable(n) && IsFree(selection)
    ensures AdmitRecord(Ready(n, selection), Reserve, ReserveRequest(n, selection), None, true)
            == Success(ReserveRow(n, selection))
  {
    RequestsStripped(n, selection);
    ReadyReserveFits(n, selection);
    ReserveAdmitted(Ready(n, selection), ReserveRequest(n, selection), 1);
  }

  lemma ReadyReserveFits(n: Names, selection: Selection)
    requires IsFree(selection) && n.early != n.late
    ensures var s, q := Ready(n, selection), ReserveRequest(n, selection);
            SelectedBinding(s, q, false).Pass? && SpawnBelongs(s, q) && TrustedCreatedAt(s, q) == Success(1)
  {
    ReservedFacts(n, selection);
  }

  lemma OnlyRowReplays(s: State, row: Payload, v: Verdicts)
    requires |s.events| == 1 && s.events[0].row == row && row.confidence.Known? && v.after
    requires row.run in s.runs && row.spawn in s.spawns
    ensures RecordAdmitted(s, row, v).answer.Success?
  {
    OneKnownIsClean(s);
    PresentRowReplays(s, row, v);
  }

  lemma RecordRefused(s: State, kind: Kind, q: Request, policy: Option<string>, v: Verdicts)
    requires AdmitRecord(s, kind, Stripped(q), policy, v.schema).Failure?
    ensures RecordSpec(s, kind, q, policy, v).answer.Failure?
  {
  }

  /** The repeat of the reserve returns before the usage, and after it no repeat ever does. */
  lemma PoisonedReplayIsRefused(n: Names, selection: Selection, v: Verdicts)
    requires Usable(n) && IsFree(selection)
    ensures RecordSpec(Ready(n, selection), Reserve, ReserveRequest(n, selection), None, TRUSTED).answer.Success?
    ensures RecordSpec(Poisoned(n, selection), Reserve, ReserveRequest(n, selection), None, v).answer.Failure?
  {
    CleanReplayReturns(n, selection);
    RequestsStripped(n, selection);
    PoisonedFacts(n, selection);
    AdmissionRefused(Poisoned(n, selection), Reserve, ReserveRequest(n, selection), None, v.schema);
    RecordRefused(Poisoned(n, selection), Reserve, ReserveRequest(n, selection), None, v);
  }

  lemma CleanReplayReturns(n: Names, selection: Selection)
    requires Usable(n) && IsFree(selection)
    ensures RecordSpec(Ready(n, selection), Reserve, ReserveRequest(n, selection), None, TRUSTED).answer.Success?
  {
    var s, q, row := Ready(n, selection), ReserveRequest(n, selection), ReserveRow(n, selection);
    RequestsStripped(n, selection);
    ReadyReserveAdmitted(n, selection);
    ReadyFacts(n, selection);
    OnlyRowReplays(s, row, TRUSTED);
    RecordApplied(s, Reserve, q, None, TRUSTED, row, RecordAdmitted(s, row, TRUSTED));
  }

  /** One-letter names will do. */
  lemma UsableNames(a: char, b: char, c: char, d: char, e: char, f: char)
    requires !Text.IsSpace(a) && !Text.IsSpace(b) && !Text.IsSpace(c)
    requires !Text.IsSpace(d) && !Text.IsSpace(e) && !Text.IsSpace(f) && c != d && e != f
    ensures Usable(Names([a], [b], [c], [d], [e], [f]))
  {
    Text.OneCharacterIsTrimmed(a);
    Text.OneCharacterIsTrimmed(b);
    Text.OneCharacterIsTrimmed(c);
    Text.OneCharacterIsTrimmed(d);
    Text.OneCharacterIsTrimmed(e);
    Text.OneCharacterIsTrimmed(f);
    assert [c][0] != [d][0] && [e][0] != [f][0];
  }

  /** So for every free selection there is such a history. */
  lemma ClosedPoisonHappens(selection: Selection) returns (h: seq<State>)
    requires IsFree(selection)
    ensures |h| == 5 && Genesis(h[0]) && History(h) && ClosedPoison(h[4])
  {
    var n := Names("a", "b", "c", "d", "e", "f");
    UsableNames('a', 'b', 'c', 'd', 'e', 'f');
    ClosedPoisonIsReachable(n, selection);
    h := Story(n, selection);
  }
}
