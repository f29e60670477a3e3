/**
 The full ledger invariant: on top of the core, every spawn stays funded, every settlement is
 exact and final, and every spawn's ledger has the shape of its lifecycle.
 */
module BudgetInvariant {
  import opened Wrappers
  import opened Amounts
  import opened BudgetModel
  import opened BudgetSpec
  import opened BudgetCore
  import opened BudgetQueries
  import opened BudgetSettlement

  // ---- Funding ----

  predicate CoversFor(selection: Selection, v: Vector) {
    Covers(selection.inputPrice, selection.outputPrice, v)
  }

  /** Outstanding cost pays for outstanding tokens, and consumed cost for consumed tokens. */
  ghost predicate FundedOk(s: State) {
    && (forall x | x in s.spawns && s.spawns[x].run in s.runs ::
          CoversFor(s.runs[s.spawns[x].run].selection, Outstanding(s.events, x)))
    && (forall r | r in s.runs :: CoversFor(s.runs[r].selection, s.runs[r].consumed))
  }

  // ---- Shape of a spawn's ledger ----

  /** 0: reserve and release before the spawn; 1: post-dispatch usage; 2: final settlement. */
  function Phase(e: Event): int {
    if e.settlement.Some? then 2
    else if e.row.kind == Reserve || e.row.kind == Release then 0
    else 1
  }

  /** Later events are never of an earlier phase; settled events form one contiguous block. */
  predicate InOrder(a: Event, b: Event, distance: int) {
    && Phase(a) <= Phase(b)
    && (Phase(a) == 2 ==>
          && b.settlement == a.settlement
          && b.sequence == a.sequence + distance
          && 0 <= Rank(a.row.kind) < Rank(b.row.kind) < 4)
  }

  ghost predicate Shaped(es: seq<Event>) {
    forall i, j | 0 <= i < j < |es| :: InOrder(es[i], es[j], j - i)
  }

  ghost predicate ShapesOk(s: State) {
    && (forall x {:trigger Shaped(ForSpawn(s.events, x))} :: Shaped(ForSpawn(s.events, x)))
    && (forall i | 0 <= i < |s.events| && Phase(s.events[i]) > 0 && s.events[i].row.spawn in s.spawns ::
          s.spawns[s.events[i].row.spawn].intent.Some?)
  }

  // ---- Settlements ----

  /** The linked events are exactly the block that splits the reservation into usage and remainder. */
  ghost predicate SettlementExact(st: Settlement, key: string, linked: seq<Event>) {
    && st.row.key == key
    && st.row.actual.InLimits() && st.released.InLimits()
    && linked != []
    && linked == LinkedEvents(LinkedRows(st.row, st.released), linked[0].sequence, key)
  }

  ghost predicate SettlementOk(s: State, key: string)
    requires key in s.settlements
  {
    var row := s.settlements[key].row;
    && row.spawn in s.spawns && s.spawns[row.spawn].intent.Some?
    && row.run == s.spawns[row.spawn].run
    && Outstanding(s.events, row.spawn) == ZERO
    && SettlementExact(s.settlements[key], key, LinkedTo(s.events, key))
  }

  ghost predicate SettlementsOk(s: State) {
    && (forall k {:trigger SettlementOk(s, k)} | k in s.settlements :: SettlementOk(s, k))
    && LinksBack(s.events, s.settlements)
    && (forall j, k | j in s.settlements && k in s.settlements && j != k ::
          s.settlements[j].row.spawn != s.settlements[k].row.spawn)
  }

  ghost predicate Inv(s: State) {
    Core(s) && FundedOk(s) && ShapesOk(s) && SettlementsOk(s)
  }

  // ---- One direct event ----

  /** A reserve or release on a spawn without an intent, or post-dispatch usage of an unsettled one. */
  ghost predicate Timely(s: State, e: Event) {
    && e.row.spawn in s.spawns && e.settlement.None?
    && if Phase(e) == 0 then s.spawns[e.row.spawn].intent.None?
       else s.spawns[e.row.spawn].intent.Some? && !SpawnSettled(s, e.row.spawn)
  }

  /** The event leaves its spawn funded and pays for what it consumes. */
  ghost predicate Funding(s: State, e: Event) {
    && e.row.run in s.runs
    && CoversFor(s.runs[e.row.run].selection, Outstanding(s.events, e.row.spawn).Plus(EffectOf(e)))
    && CoversFor(s.runs[e.row.run].selection, UsageOf(e))
  }

  lemma OutstandingAppend(es: seq<Event>, e: Event, x: string)
    ensures Outstanding(es + [e], x)
            == if e.row.spawn == x then Outstanding(es, x).Plus(EffectOf(e)) else Outstanding(es, x)
  {
    ForSpawnAppend(es, e, x);
    if e.row.spawn == x {
      TotalAppend(ForSpawn(es, x), e);
    }
  }

  lemma InsertKeepsFunded(s: State, e: Event)
    requires FundedOk(s) && RowBound(s, e.row) && Funding(s, e)
    ensures FundedOk(Insert(s, e))
  {
    var t := Insert(s, e);
    forall x | x in t.spawns && t.spawns[x].run in t.runs
      ensures CoversFor(t.runs[t.spawns[x].run].selection, Outstanding(t.events, x))
    {
      OutstandingAppend(s.events, e, x);
    }
    forall r | r in t.runs ensures CoversFor(t.runs[r].selection, t.runs[r].consumed) {
      if r == e.row.run {
        var selection := s.runs[r].selection;
        CoversPlus(selection.inputPrice, selection.outputPrice, s.runs[r].consumed, UsageOf(e));
      }
    }
  }

  lemma ShapedAppend(es: seq<Event>, e: Event)
    requires Shaped(es) && e.settlement.None?
    requires forall i | 0 <= i < |es| :: Phase(es[i]) <= Phase(e)
    ensures Shaped(es + [e])
  {
    var fs := es + [e];
    forall i, j | 0 <= i < j < |fs| ensures InOrder(fs[i], fs[j], j - i) {
      assert fs[i] == es[i];
      assert j < |es| ==> fs[j] == es[j];
    }
  }

  lemma SettledEvent(s: State, j: nat)
    requires SettlementsOk(s) && j < |s.events|
    ensures s.events[j].settlement.Some? ==>
              && SpawnSettled(s, s.events[j].row.spawn)
              && s.events[j].row.spawn in s.spawns
              && s.spawns[s.events[j].row.spawn].intent.Some?
  {
    if s.events[j].settlement.Some? {
      var k := s.events[j].settlement.value;
      assert s.events[j].settlement == Some(k);
      assert SettlementOk(s, k);
      assert s.settlements[k].row.spawn == s.events[j].row.spawn;
    }
  }

  lemma EarlierPhase(s: State, e: Event, j: nat)
    requires ShapesOk(s) && SettlementsOk(s) && Timely(s, e)
    requires j < |s.events| && s.events[j].row.spawn == e.row.spawn
    ensures Phase(s.events[j]) <= Phase(e)
  {
    SettledEvent(s, j);
  }

  lemma InsertKeepsShapes(s: State, e: Event)
    requires RowsBound(s) && ShapesOk(s) && SettlementsOk(s) && Timely(s, e)
    ensures ShapesOk(Insert(s, e))
  {
    var t := Insert(s, e);
    forall x ensures Shaped(ForSpawn(t.events, x)) {
      ForSpawnAppend(s.events, e, x);
      if x == e.row.spawn {
        var rows := ForSpawn(s.events, x);
        RowsMembers(s.events, OfSpawn(x));
        forall i | 0 <= i < |rows| ensures Phase(rows[i]) <= Phase(e) {
          assert rows[i] in s.events && rows[i].row.spawn == x;
          var j :| 0 <= j < |s.events| && s.events[j] == rows[i];
          EarlierPhase(s, e, j);
        }
        ShapedAppend(rows, e);
      }
    }
    forall i | 0 <= i < |t.events| && Phase(t.events[i]) > 0 && t.events[i].row.spawn in t.spawns
      ensures t.spawns[t.events[i].row.spawn].intent.Some?
    {
      assert i < |s.events| ==> t.events[i] == s.events[i];
    }
  }

  /** An event of another spawn, outside the settlement, leaves a settlement exact. */
  lemma SettlementStays(s: State, t: State, key: string, e: Event)
    requires key in s.settlements && key in t.settlements && t.settlements[key] == s.settlements[key]
    requires SettlementOk(s, key) && t.events == s.events + [e]
    requires t.spawns == s.spawns
    requires e.row.spawn != s.settlements[key].row.spawn && e.settlement != Some(key)
    ensures SettlementOk(t, key)
  {
    OutstandingAppend(s.events, e, s.settlements[key].row.spawn);
    RowsAppend(s.events, e, OfSettlement(key));
    assert LinkedTo(s.events, key) + [] == LinkedTo(s.events, key);
  }

  lemma SettlementOkStays(s: State, e: Event, k: string)
    requires SettlementsOk(s) && Timely(s, e) && k in s.settlements
    ensures SettlementOk(Insert(s, e), k)
  {
    assert SettlementOk(s, k);
    SettlementStays(s, Insert(s, e), k, e);
  }

  lemma InsertKeepsSettlements(s: State, e: Event)
    requires SettlementsOk(s) && Timely(s, e)
    ensures SettlementsOk(Insert(s, e))
  {
    var t := Insert(s, e);
    forall k | k in t.settlements ensures SettlementOk(t, k) {
      SettlementOkStays(s, e, k);
    }
    LinksBackAppend(s.events, s.settlements, e);
  }

  lemma LinksBackAppend(es: seq<Event>, settlements: map<string, Settlement>, e: Event)
    requires LinksBack(es, settlements) && e.settlement.None?
    ensures LinksBack(es + [e], settlements)
  {
    forall i, k | 0 <= i < |es + [e]| && (es + [e])[i].settlement == Some(k)
      ensures k in settlements && settlements[k].row.spawn == (es + [e])[i].row.spawn
    {
      assert i < |es|;
      assert es[i].settlement == Some(k);
    }
  }

  lemma ZeroCovered(selection: Selection, v: Vector)
    requires v.input == 0 && v.output == 0 && v.cost >= 0
    ensures CoversFor(selection, v)
  {
    assert 0 * selection.inputPrice == 0 && 0 * selection.outputPrice == 0;
  }

  /** What admission established about payment, for either kind of direct row. */
  predicate PaidRow(s: State, row: Payload) {
    && row.run in s.runs && row.amounts.InLimits()
    && (row.kind == Reserve ==> Paid(s, row))
    && (row.kind == Consume && row.confidence != Unknown ==> Paid(s, row))
    && (row.confidence == Unknown ==> row.kind == Consume && row.amounts == ZERO)
  }

  lemma EffectFunded(selection: Selection, held: Vector, kind: Kind, amounts: Vector)
    requires CoversFor(selection, held) && amounts.InLimits()
    requires kind == Reserve ==> CoversFor(selection, amounts)
    requires kind == Release || kind == Consume ==> CoversFor(selection, held.Plus(Effect(kind, amounts)))
    ensures CoversFor(selection, held.Plus(Effect(kind, amounts)))
  {
    if kind == Reserve {
      CoversPlus(selection.inputPrice, selection.outputPrice, held, amounts);
    }
  }

  lemma UsageFunded(selection: Selection, kind: Kind, amounts: Vector)
    requires amounts.InLimits()
    requires kind == Consume && amounts != ZERO ==> CoversFor(selection, amounts)
    ensures CoversFor(selection, Usage(kind, amounts))
  {
    if kind != Consume || amounts == ZERO {
      ZeroCovered(selection, Usage(kind, amounts));
    }
  }

  lemma FundingHolds(s: State, row: Payload)
    requires FundedOk(s) && RowBound(s, row) && PaidRow(s, row)
    requires LocalRefusal(s, row).None?
    ensures Funding(s, FreshEvent(s, row))
  {
    var selection := s.runs[row.run].selection;
    var held := Outstanding(s.events, row.spawn);
    assert CoversFor(selection, held);
    EffectFunded(selection, held, row.kind, row.amounts);
    UsageFunded(selection, row.kind, row.amounts);
  }

  /** A committed direct event keeps the whole invariant. */
  lemma AppendKeepsInv(s: State, row: Payload)
    requires Inv(s) && RowBound(s, row) && PaidRow(s, row) && Timely(s, FreshEvent(s, row))
    requires LocalRefusal(s, row).None? && CounterRefusal(s, row).None?
    requires NextSequence(s, row.run) <= MAX_EVENT_SEQUENCE
    requires !KeyUsed(s.events, row.key) && !DedupeUsed(s.events, row.dedupe)
    ensures Inv(Insert(s, FreshEvent(s, row)))
  {
    var e := FreshEvent(s, row);
    AdmittedIsAppendable(s, row);
    FundingHolds(s, row);
    InsertKeepsFunded(s, e);
    InsertKeepsShapes(s, e);
    InsertKeepsSettlements(s, e);
  }

  // ---- A whole settlement ----

  /** A settlement that commits: it fits, its spawn and key are new, and its block is free. */
  ghost predicate Committing(s: State, p: SettlementPayload) {
    && Inv(s) && Settleable(s, p)
    && p.key !in s.settlements && !SpawnSettled(s, p.spawn)
    && AllFree(s.events, SettlementBlock(s, p))
  }

  /** `t` is `s` after the settlement `p` has written `block`. */
  ghost predicate SettledInto(s: State, p: SettlementPayload, block: seq<Event>, t: State) {
    && t.events == s.events + block && t.spawns == s.spawns
    && t.clocks == s.clocks && t.policies == s.policies
    && t.settlements == s.settlements[p.key := Settlement(p, Released(s, p))]
    && SameRunTerms(s.runs, t.runs)
    && ForSpawn(t.events, p.spawn) == ForSpawn(s.events, p.spawn) + block
    && ForRun(t.events, p.run) == ForRun(s.events, p.run) + block
    && Total(block) == ZERO.Minus(Outstanding(s.events, p.spawn)) && Used(block) == p.actual
    && SettlementExact(Settlement(p, Released(s, p)), p.key, block)
    && BlockOf(p, block)
    && (forall r | r in s.runs :: t.runs[r].confidence == JoinedBy(s.runs[r], block, r))
  }

  function JoinedBy(run: Run, es: seq<Event>, id: string): Confidence {
    Join(run.confidence, Confidences(ForRun(es, id)))
  }

  /** The rows of a block belong to one settlement and are in block order with consecutive sequences. */
  ghost predicate BlockOf(p: SettlementPayload, block: seq<Event>) {
    && (forall i | 0 <= i < |block| ::
          && block[i].row.spawn == p.spawn && block[i].row.run == p.run
          && block[i].settlement == Some(p.key)
          && block[i].sequence == block[0].sequence + i
          && 0 <= Rank(block[i].row.kind) < 4)
    && (forall i, j | 0 <= i < j < |block| :: Rank(block[i].row.kind) < Rank(block[j].row.kind))
  }

  lemma SettlementBlockExact(s: State, p: SettlementPayload)
    requires p.actual.InLimits() && Released(s, p).InLimits()
    ensures SettlementExact(Settlement(p, Released(s, p)), p.key, SettlementBlock(s, p))
    ensures BlockOf(p, SettlementBlock(s, p))
  {
    BlockEvents(s, p);
  }

  lemma SettledTables(s: State, p: SettlementPayload)
    requires Committing(s, p)
    ensures SettledInto(s, p, SettlementBlock(s, p), Settled(s, p))
  {
    var block := SettlementBlock(s, p);
    SettleableLimits(s, p);
    SettledRows(s, p);
    SettlementBlockExact(s, p);
    BlockSums(s, p);
    forall r | r in s.runs ensures Settled(s, p).runs[r].confidence == JoinedBy(s.runs[r], block, r) {
      InsertAllConfidence(WithSettlement(s, p), block, r);
    }
  }

  lemma SettledRows(s: State, p: SettlementPayload)
    requires p.actual.InLimits() && Released(s, p).InLimits()
    ensures var t, block := Settled(s, p), SettlementBlock(s, p);
      && t.events == s.events + block && t.spawns == s.spawns
      && t.clocks == s.clocks && t.policies == s.policies
      && t.settlements == s.settlements[p.key := Settlement(p, Released(s, p))]
      && SameRunTerms(s.runs, t.runs)
      && ForSpawn(t.events, p.spawn) == ForSpawn(s.events, p.spawn) + block
      && ForRun(t.events, p.run) == ForRun(s.events, p.run) + block
  {
    var block := SettlementBlock(s, p);
    assert block[..|block|] == block;
    BlockRows(s, p, |block|);
    InsertAllTables(WithSettlement(s, p), block);
  }

  lemma SettledCore(s: State, p: SettlementPayload)
    requires Committing(s, p)
    ensures Core(Settled(s, p))
  {
    var block := SettlementBlock(s, p);
    assert block[..|block|] == block;
    BlockStateCore(s, p, |block|);
  }

  /** Other spawns and runs keep their rows. */
  lemma SettledOthers(s: State, p: SettlementPayload, block: seq<Event>, t: State)
    requires SettledInto(s, p, block, t)
    ensures forall x | x != p.spawn :: ForSpawn(t.events, x) == ForSpawn(s.events, x)
    ensures forall r | r != p.run :: ForRun(t.events, r) == ForRun(s.events, r)
  {
    forall x | x != p.spawn ensures ForSpawn(t.events, x) == ForSpawn(s.events, x) {
      RowsConcat(s.events, block, OfSpawn(x));
      RowsNone(block, OfSpawn(x));
      assert ForSpawn(s.events, x) + [] == ForSpawn(s.events, x);
    }
    forall r | r != p.run ensures ForRun(t.events, r) == ForRun(s.events, r) {
      RowsConcat(s.events, block, OfRun(r));
      RowsNone(block, OfRun(r));
      assert ForRun(s.events, r) + [] == ForRun(s.events, r);
    }
  }

  lemma PlusOwnNegative(v: Vector, w: Vector)
    requires w == ZERO.Minus(v)
    ensures v.Plus(w) == ZERO
  {
  }

  lemma SettledSpawnSum(rows: seq<Event>, block: seq<Event>)
    requires Total(block) == ZERO.Minus(Total(rows))
    ensures Total(rows + block) == ZERO
  {
    TotalConcat(rows, block);
    PlusOwnNegative(Total(rows), Total(block));
  }

  lemma SettledRunSums(s: State, t: State, r: string, rows: seq<Event>)
    requires r in s.runs && RunOk(s.events, r, s.runs[r])
    requires r in t.runs && RunOk(t.events, r, t.runs[r])
    requires ForRun(t.events, r) == ForRun(s.events, r) + rows
    ensures t.runs[r].consumed == s.runs[r].consumed.Plus(Used(rows))
    ensures t.runs[r].reserved == s.runs[r].reserved.Plus(Total(rows))
  {
    TotalConcat(ForRun(s.events, r), rows);
  }

  /** The settled spawn has nothing outstanding. */
  lemma SettledOutstanding(s: State, p: SettlementPayload, block: seq<Event>, t: State)
    requires SettledInto(s, p, block, t)
    ensures Outstanding(t.events, p.spawn) == ZERO
  {
    SettledSpawnSum(ForSpawn(s.events, p.spawn), block);
  }

  /** The run consumed exactly the declared usage more, and gave up the whole reservation. */
  lemma SettledSums(s: State, p: SettlementPayload, block: seq<Event>, t: State)
    requires CountersOk(s) && CountersOk(t) && p.run in s.runs && SettledInto(s, p, block, t)
    ensures t.runs[p.run].consumed == s.runs[p.run].consumed.Plus(p.actual)
    ensures t.runs[p.run].reserved == s.runs[p.run].reserved.Minus(Outstanding(s.events, p.spawn))
  {
    assert RunOk(s.events, p.run, s.runs[p.run]) && RunOk(t.events, p.run, t.runs[p.run]);
    SettledRunSums(s, t, p.run, block);
    PlusNegated(s.runs[p.run].reserved, Outstanding(s.events, p.spawn), Total(block));
  }

  lemma PlusNegated(v: Vector, w: Vector, negated: Vector)
    requires negated == ZERO.Minus(w)
    ensures v.Plus(negated) == v.Minus(w)
  {
  }

  lemma SettledOtherRun(s: State, p: SettlementPayload, block: seq<Event>, t: State, r: string)
    requires CountersOk(s) && CountersOk(t) && SettledInto(s, p, block, t)
    requires r in s.runs && r != p.run
    ensures t.runs[r].consumed == s.runs[r].consumed && t.runs[r].reserved == s.runs[r].reserved
  {
    SettledOthers(s, p, block, t);
    assert RunOk(s.events, r, s.runs[r]) && RunOk(t.events, r, t.runs[r]);
  }

  lemma SettledFunded(s: State, p: SettlementPayload, block: seq<Event>, t: State)
    requires CountersOk(s) && CountersOk(t) && FundedOk(s) && p.run in s.runs && SettledInto(s, p, block, t)
    requires CoversFor(s.runs[p.run].selection, p.actual)
    ensures FundedOk(t)
  {
    SettledOthers(s, p, block, t);
    SettledOutstanding(s, p, block, t);
    SettledSums(s, p, block, t);
    var selection := s.runs[p.run].selection;
    forall x | x in t.spawns && t.spawns[x].run in t.runs
      ensures CoversFor(t.runs[t.spawns[x].run].selection, Outstanding(t.events, x))
    {
      if x == p.spawn {
        ZeroCovered(t.runs[t.spawns[x].run].selection, ZERO);
      }
    }
    forall r | r in t.runs ensures CoversFor(t.runs[r].selection, t.runs[r].consumed) {
      if r == p.run {
        CoversPlus(selection.inputPrice, selection.outputPrice, s.runs[r].consumed, p.actual);
      } else {
        SettledOtherRun(s, p, block, t, r);
      }
    }
  }

  lemma ShapedBlock(p: SettlementPayload, es: seq<Event>, block: seq<Event>)
    requires Shaped(es) && BlockOf(p, block)
    requires forall i | 0 <= i < |es| :: Phase(es[i]) < 2
    ensures Shaped(es + block)
  {
    var fs := es + block;
    forall i, j | 0 <= i < j < |fs| ensures InOrder(fs[i], fs[j], j - i) {
      assert i < |es| ==> fs[i] == es[i];
      assert j < |es| ==> fs[j] == es[j];
      assert i >= |es| ==> fs[i] == block[i - |es|];
      assert j >= |es| ==> fs[j] == block[j - |es|];
    }
  }

  lemma UnsettledPhases(s: State, x: string)
    requires SettlementsOk(s) && !SpawnSettled(s, x)
    ensures forall i | 0 <= i < |ForSpawn(s.events, x)| :: Phase(ForSpawn(s.events, x)[i]) < 2
  {
    var rows := ForSpawn(s.events, x);
    RowsMembers(s.events, OfSpawn(x));
    forall i | 0 <= i < |rows| ensures Phase(rows[i]) < 2 {
      assert rows[i] in s.events && rows[i].row.spawn == x;
      var j :| 0 <= j < |s.events| && s.events[j] == rows[i];
      SettledEvent(s, j);
    }
  }

  lemma SettledShapes(s: State, p: SettlementPayload, block: seq<Event>, t: State)
    requires ShapesOk(s) && SettlementsOk(s) && SettledInto(s, p, block, t)
    requires !SpawnSettled(s, p.spawn)
    requires p.spawn in s.spawns && s.spawns[p.spawn].intent.Some?
    ensures ShapesOk(t)
  {
    SettledOthers(s, p, block, t);
    forall x ensures Shaped(ForSpawn(t.events, x)) {
      assert Shaped(ForSpawn(s.events, x));
      if x == p.spawn {
        UnsettledPhases(s, x);
        ShapedBlock(p, ForSpawn(s.events, x), block);
      }
    }
    forall i | 0 <= i < |t.events| && Phase(t.events[i]) > 0 && t.events[i].row.spawn in t.spawns
      ensures t.spawns[t.events[i].row.spawn].intent.Some?
    {
      assert i < |s.events| ==> t.events[i] == s.events[i];
      assert i >= |s.events| ==> t.events[i] == block[i - |s.events|];
    }
  }

  lemma SettledLinks(es: seq<Event>, block: seq<Event>, p: SettlementPayload, k: string)
    requires BlockOf(p, block)
    requires forall i | 0 <= i < |es| :: es[i].settlement != Some(p.key)
    ensures LinkedTo(es + block, k) == if k == p.key then block else LinkedTo(es, k)
  {
    RowsConcat(es, block, OfSettlement(k));
    if k == p.key {
      RowsNone(es, OfSettlement(k));
      RowsAll(block, OfSettlement(k));
    } else {
      RowsNone(block, OfSettlement(k));
      assert LinkedTo(es, k) + [] == LinkedTo(es, k);
    }
  }

  lemma KeyUnlinked(s: State, key: string)
    requires SettlementsOk(s) && key !in s.settlements
    ensures forall i | 0 <= i < |s.events| :: s.events[i].settlement != Some(key)
  {
  }

  lemma SettledSettlement(s: State, p: SettlementPayload, block: seq<Event>, t: State, k: string)
    requires CountersOk(s) && SettlementsOk(s) && SettledInto(s, p, block, t)
    requires p.key !in s.settlements && !SpawnSettled(s, p.spawn)
    requires p.run in s.runs && p.spawn in s.spawns
    requires s.spawns[p.spawn].intent.Some? && s.spawns[p.spawn].run == p.run
    requires k in t.settlements
    ensures SettlementOk(t, k)
  {
    KeyUnlinked(s, p.key);
    SettledLinks(s.events, block, p, k);
    SettledOthers(s, p, block, t);
    SettledOutstanding(s, p, block, t);
    if k != p.key {
      assert SettlementOk(s, k);
      assert s.settlements[k].row.spawn != p.spawn;
    }
  }

  /** Every linked event points to a settlement of its own spawn. */
  ghost predicate LinksBack(es: seq<Event>, settlements: map<string, Settlement>) {
    forall i, k | 0 <= i < |es| && es[i].settlement == Some(k) ::
      k in settlements && settlements[k].row.spawn == es[i].row.spawn
  }

  lemma SettledLinksBack(
    es: seq<Event>, block: seq<Event>, settlements: map<string, Settlement>, st: Settlement, key: string)
    requires LinksBack(es, settlements) && key !in settlements && st.row.key == key
    requires BlockOf(st.row, block)
    ensures LinksBack(es + block, settlements[key := st])
  {
    var fs, all := es + block, settlements[key := st];
    forall i, k | 0 <= i < |fs| && fs[i].settlement == Some(k)
      ensures k in all && all[k].row.spawn == fs[i].row.spawn
    {
      if i < |es| {
        assert es[i].settlement == Some(k);
      } else {
        assert fs[i] == block[i - |es|];
      }
    }
  }

  lemma SettledDistinct(s: State, p: SettlementPayload, t: State)
    requires forall j, k | j in s.settlements && k in s.settlements && j != k ::
               s.settlements[j].row.spawn != s.settlements[k].row.spawn
    requires t.settlements == s.settlements[p.key := Settlement(p, Released(s, p))]
    requires p.key !in s.settlements && !SpawnSettled(s, p.spawn)
    ensures forall j, k | j in t.settlements && k in t.settlements && j != k ::
              t.settlements[j].row.spawn != t.settlements[k].row.spawn
  {
    assert forall j | j in s.settlements :: s.settlements[j].row.spawn != p.spawn;
  }

  lemma SettledSettlements(s: State, p: SettlementPayload, block: seq<Event>, t: State)
    requires CountersOk(s) && SettlementsOk(s) && SettledInto(s, p, block, t)
    requires p.key !in s.settlements && !SpawnSettled(s, p.spawn)
    requires p.run in s.runs && p.spawn in s.spawns
    requires s.spawns[p.spawn].intent.Some? && s.spawns[p.spawn].run == p.run
    ensures SettlementsOk(t)
  {
    forall k | k in t.settlements ensures SettlementOk(t, k) {
      SettledSettlement(s, p, block, t, k);
    }
    SettledLinksBack(s.events, block, s.settlements, Settlement(p, Released(s, p)), p.key);
    SettledDistinct(s, p, t);
  }

  /** A committed settlement keeps the whole invariant. */
  lemma SettledKeepsInv(s: State, p: SettlementPayload)
    requires Committing(s, p)
    ensures Inv(Settled(s, p))
  {
    var t, block := Settled(s, p), SettlementBlock(s, p);
    SettledTables(s, p);
    SettledCore(s, p);
    assert RowBound(s, LinkedRow(p, Release, p.actual));
    assert CoversFor(s.runs[p.run].selection, p.actual) by {
      if NoTokensOrCost(p.actual) {
        ZeroCovered(s.runs[p.run].selection, p.actual);
      }
    }
    SettledFunded(s, p, block, t);
    SettledShapes(s, p, block, t);
    SettledSettlements(s, p, block, t);
  }
}
