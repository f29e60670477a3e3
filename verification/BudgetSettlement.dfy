/** The block of linked events a final settlement writes, and why it is written whole. */
module BudgetSettlement {
  import opened Wrappers
  import opened Amounts
  import opened BudgetModel
  import opened BudgetSpec
  import opened BudgetCore
  import opened BudgetQueries

  function RowEffects(rows: seq<Payload>): seq<Vector> {
    seq(|rows|, i requires 0 <= i < |rows| => Effect(rows[i].kind, rows[i].amounts))
  }

  function RowUsages(rows: seq<Payload>): seq<Vector> {
    seq(|rows|, i requires 0 <= i < |rows| => Usage(rows[i].kind, rows[i].amounts))
  }

  lemma RowSumsConcat(a: seq<Payload>, b: seq<Payload>)
    ensures Sum(RowEffects(a + b)) == Sum(RowEffects(a)).Plus(Sum(RowEffects(b)))
    ensures Sum(RowUsages(a + b)) == Sum(RowUsages(a)).Plus(Sum(RowUsages(b)))
  {
    assert RowEffects(a + b) == RowEffects(a) + RowEffects(b);
    assert RowUsages(a + b) == RowUsages(a) + RowUsages(b);
    SumConcat(RowEffects(a), RowEffects(b));
    SumConcat(RowUsages(a), RowUsages(b));
  }

  lemma RowSumsOne(row: Payload)
    ensures Sum(RowEffects([row])) == Effect(row.kind, row.amounts)
    ensures Sum(RowUsages([row])) == Usage(row.kind, row.amounts)
  {
    var effect, usage := Effect(row.kind, row.amounts), Usage(row.kind, row.amounts);
    assert RowEffects([row]) == [effect] && RowUsages([row]) == [usage];
    SumOne(effect);
    SumOne(usage);
  }

  lemma NoRowSums(rows: seq<Payload>)
    requires rows == []
    ensures Sum(RowEffects(rows)) == ZERO && Sum(RowUsages(rows)) == ZERO
  {
    assert RowEffects(rows) == [] && RowUsages(rows) == [];
  }

  lemma UsageRowSums(p: SettlementPayload)
    ensures Sum(RowEffects(UsageRows(p))) == Effect(Consume, p.actual.UsagePart())
    ensures Sum(RowUsages(UsageRows(p))) == Usage(Consume, p.actual.UsagePart())
  {
    if p.actual.UsagePart().IsZero() {
      NoRowSums(UsageRows(p));
    } else {
      var row := LinkedRow(p, Consume, p.actual.UsagePart());
      assert UsageRows(p) == [row];
      assert row.kind == Consume && row.amounts == p.actual.UsagePart();
      RowSumsOne(row);
    }
  }

  lemma RetryRowSums(p: SettlementPayload)
    ensures Sum(RowEffects(RetryRows(p))) == Effect(RetryDecrement, p.actual.RetryPart())
    ensures Sum(RowUsages(RetryRows(p))) == Usage(RetryDecrement, p.actual.RetryPart())
  {
    if p.actual.RetryPart().IsZero() {
      NoRowSums(RetryRows(p));
    } else {
      var row := LinkedRow(p, RetryDecrement, p.actual.RetryPart());
      assert RetryRows(p) == [row];
      assert row.kind == RetryDecrement && row.amounts == p.actual.RetryPart();
      RowSumsOne(row);
    }
  }

  lemma HumanRowSums(p: SettlementPayload)
    ensures Sum(RowEffects(HumanRows(p))) == Effect(HumanAttention, p.actual.HumanPart())
    ensures Sum(RowUsages(HumanRows(p))) == Usage(HumanAttention, p.actual.HumanPart())
  {
    if p.actual.HumanPart().IsZero() {
      NoRowSums(HumanRows(p));
    } else {
      var row := LinkedRow(p, HumanAttention, p.actual.HumanPart());
      assert HumanRows(p) == [row];
      assert row.kind == HumanAttention && row.amounts == p.actual.HumanPart();
      RowSumsOne(row);
    }
  }

  lemma ReleaseRowSums(p: SettlementPayload, released: Vector)
    ensures Sum(RowEffects(ReleaseRows(p, released))) == Effect(Release, released)
    ensures Sum(RowUsages(ReleaseRows(p, released))) == Usage(Release, released)
  {
    var rows := ReleaseRows(p, released);
    if released.IsZero() && !p.actual.IsZero() {
      NoRowSums(rows);
      assert Effect(Release, released) == ZERO;
    } else {
      RowSumsOne(LinkedRow(p, Release, released));
      assert rows == [LinkedRow(p, Release, released)];
    }
  }

  lemma FourRowSums(a: seq<Payload>, b: seq<Payload>, c: seq<Payload>, d: seq<Payload>)
    ensures Sum(RowEffects(a + b + c + d))
            == Sum(RowEffects(a)).Plus(Sum(RowEffects(b))).Plus(Sum(RowEffects(c))).Plus(Sum(RowEffects(d)))
    ensures Sum(RowUsages(a + b + c + d))
            == Sum(RowUsages(a)).Plus(Sum(RowUsages(b))).Plus(Sum(RowUsages(c))).Plus(Sum(RowUsages(d)))
  {
    RowSumsConcat(a, b);
    RowSumsConcat(a + b, c);
    RowSumsConcat(a + b + c, d);
  }

  lemma PartsAddUp(actual: Vector, released: Vector)
    ensures Effect(Consume, actual.UsagePart()).Plus(Effect(RetryDecrement, actual.RetryPart()))
            .Plus(Effect(HumanAttention, actual.HumanPart())).Plus(Effect(Release, released))
            == ZERO.Minus(actual.Plus(released))
    ensures Usage(Consume, actual.UsagePart()).Plus(Usage(RetryDecrement, actual.RetryPart()))
            .Plus(Usage(HumanAttention, actual.HumanPart())).Plus(Usage(Release, released))
            == actual
  {
  }

  /** The linked rows take exactly usage plus remainder out, and record exactly the usage. */
  lemma LinkedRowsConserve(p: SettlementPayload, released: Vector)
    ensures Sum(RowEffects(LinkedRows(p, released))) == ZERO.Minus(p.actual.Plus(released))
    ensures Sum(RowUsages(LinkedRows(p, released))) == p.actual
  {
    var a, b, c, d := UsageRows(p), RetryRows(p), HumanRows(p), ReleaseRows(p, released);
    UsageRowSums(p);
    RetryRowSums(p);
    HumanRowSums(p);
    ReleaseRowSums(p, released);
    FourRowSums(a, b, c, d);
    PartsAddUp(p.actual, released);
    assert LinkedRows(p, released) == a + b + c + d;
  }

  /** The position of an event type in a settlement block. */
  function Rank(kind: Kind): int {
    match kind
    case Consume => 0
    case RetryDecrement => 1
    case HumanAttention => 2
    case Release => 3
    case Reserve => 4
    case RetryRestore => 5
  }

  /** Linked rows of `p` in strict block order, all of rank below `bound`; only a release may be empty. */
  predicate LinkedBelow(p: SettlementPayload, rows: seq<Payload>, bound: int) {
    && |rows| <= bound
    && (forall i | 0 <= i < |rows| ::
          && rows[i] == LinkedRow(p, rows[i].kind, rows[i].amounts)
          && rows[i].amounts.InLimits() && 0 <= Rank(rows[i].kind) < bound
          && (rows[i].amounts.IsZero() ==> rows[i].kind == Release))
    && (forall i, j | 0 <= i < j < |rows| :: Rank(rows[i].kind) < Rank(rows[j].kind))
  }

  lemma LinkedBelowAppend(
    p: SettlementPayload, rows: seq<Payload>, kind: Kind, amounts: Vector, more: seq<Payload>)
    requires LinkedBelow(p, rows, Rank(kind)) && amounts.InLimits()
    requires more == [] || (more == [LinkedRow(p, kind, amounts)] && (amounts.IsZero() ==> kind == Release))
    ensures LinkedBelow(p, rows + more, Rank(kind) + 1)
  {
    var row := LinkedRow(p, kind, amounts);
    assert row.kind == kind && row.amounts == amounts;
    assert row == LinkedRow(p, row.kind, row.amounts);
    assert Rank(kind) >= 0;
    if more == [] {
      assert rows + more == rows;
    }
  }

  /** One to four linked rows, at most one of each type, in block order. */
  lemma LinkedRowsShape(p: SettlementPayload, released: Vector)
    requires p.actual.InLimits() && released.InLimits()
    ensures LinkedBelow(p, LinkedRows(p, released), 4)
  {
    var a, b, c, d := UsageRows(p), RetryRows(p), HumanRows(p), ReleaseRows(p, released);
    assert LinkedBelow(p, [], 0);
    LinkedBelowAppend(p, [], Consume, p.actual.UsagePart(), a);
    assert [] + a == a;
    LinkedBelowAppend(p, a, RetryDecrement, p.actual.RetryPart(), b);
    LinkedBelowAppend(p, a + b, HumanAttention, p.actual.HumanPart(), c);
    LinkedBelowAppend(p, a + b + c, Release, released, d);
  }

  /** A settlement always leaves a row; one that settles nothing leaves a single zero release. */
  lemma LinkedRowsPresent(p: SettlementPayload, released: Vector)
    ensures LinkedRows(p, released) != []
    ensures p.actual.IsZero() && released.IsZero() ==>
              LinkedRows(p, released) == [LinkedRow(p, Release, released)]
  {
    var a, b, c, d := UsageRows(p), RetryRows(p), HumanRows(p), ReleaseRows(p, released);
    if !released.IsZero() {
      assert d != [];
    } else if p.actual.IsZero() {
      assert a == [] && b == [] && c == [];
      assert a + b + c + d == d;
    } else {
      assert !p.actual.UsagePart().IsZero() || !p.actual.RetryPart().IsZero() || !p.actual.HumanPart().IsZero();
      assert a != [] || b != [] || c != [];
    }
  }

  lemma KindNamesDiffer(a: Kind, b: Kind, text: string)
    requires a != b
    ensures text + "\0" + KindName(a) != text + "\0" + KindName(b)
  {
    var prefix := text + "\0";
    assert (prefix + KindName(a))[|prefix|..] == KindName(a);
    assert (prefix + KindName(b))[|prefix|..] == KindName(b);
    assert KindName(a) != KindName(b) by {
      assert |KindName(Reserve)| == 7 && |KindName(Release)| == 7 && |KindName(Consume)| == 7;
      assert KindName(Reserve)[2] == 's' && KindName(Release)[2] == 'l' && KindName(Consume)[2] == 'n';
      assert |KindName(RetryDecrement)| == 15 && |KindName(RetryRestore)| == 13;
      assert |KindName(HumanAttention)| == 15;
      assert KindName(RetryDecrement)[0] == 'r' && KindName(HumanAttention)[0] == 'h';
    }
  }

  // ---- Writing the block one event at a time ----

  function BlockState(s: State, p: SettlementPayload, n: nat): State
    requires n <= |SettlementBlock(s, p)|
  {
    InsertAll(WithSettlement(s, p), SettlementBlock(s, p)[..n])
  }

  /** The same runs, each with the terms that budget calls never change. */
  predicate SameRunTerms(a: map<string, Run>, b: map<string, Run>) {
    && a.Keys == b.Keys
    && forall r | r in a ::
         && b[r].transition == a[r].transition && b[r].selection == a[r].selection
         && b[r].state == a[r].state && b[r].budget == a[r].budget
  }

  lemma {:induction false} InsertAllTables(s: State, es: seq<Event>)
    ensures InsertAll(s, es).events == s.events + es
    ensures InsertAll(s, es).spawns == s.spawns && InsertAll(s, es).settlements == s.settlements
    ensures InsertAll(s, es).clocks == s.clocks && InsertAll(s, es).policies == s.policies
    ensures SameRunTerms(s.runs, InsertAll(s, es).runs)
  {
    if es == [] {
      assert s.events + es == s.events;
    } else {
      var init, e := es[..|es| - 1], es[|es| - 1];
      InsertAllTables(s, init);
      assert s.events + es == s.events + init + [e];
    }
  }

  /** A run's confidence is joined with that of each of its events, and with no other. */
  lemma {:induction false} InsertAllConfidence(s: State, es: seq<Event>, run: string)
    requires run in s.runs
    ensures run in InsertAll(s, es).runs
    ensures InsertAll(s, es).runs[run].confidence
            == Join(s.runs[run].confidence, Confidences(ForRun(es, run)))
  {
    if es != [] {
      var init, e := es[..|es| - 1], es[|es| - 1];
      InsertAllConfidence(s, init, run);
      assert es == init + [e];
      InsertConfidence(InsertAll(s, init), e, run);
      JoinAppended(s.runs[run].confidence, init, e, run);
    }
  }

  lemma InsertConfidence(s: State, e: Event, run: string)
    requires run in s.runs
    ensures run in Insert(s, e).runs
    ensures Insert(s, e).runs[run].confidence
            == if e.row.run == run then Join(s.runs[run].confidence, e.row.confidence) else s.runs[run].confidence
  {
  }

  lemma JoinAppended(start: Confidence, es: seq<Event>, e: Event, run: string)
    ensures Join(start, Confidences(ForRun(es + [e], run)))
            == var before := Join(start, Confidences(ForRun(es, run)));
               if e.row.run == run then Join(before, e.row.confidence) else before
  {
    ForRunAppend(es, e, run);
    if e.row.run == run {
      ConfidencesAppend(ForRun(es, run), e);
    }
  }

  lemma BlockStateNext(s: State, p: SettlementPayload, n: nat)
    requires n < |SettlementBlock(s, p)|
    ensures BlockState(s, p, n + 1) == Insert(BlockState(s, p, n), SettlementBlock(s, p)[n])
  {
    var block := SettlementBlock(s, p);
    assert block[..n + 1][..n] == block[..n];
  }

  /** Every block event belongs to the settled spawn and carries its settlement's identity. */
  lemma BlockEvents(s: State, p: SettlementPayload)
    requires p.actual.InLimits() && Released(s, p).InLimits()
    ensures var block := SettlementBlock(s, p);
      && 1 <= |block| <= 4
      && forall i | 0 <= i < |block| ::
           && block[i].row == LinkedRow(p, block[i].row.kind, block[i].row.amounts)
           && block[i].row.amounts.InLimits() && 0 <= Rank(block[i].row.kind) < 4
           && block[i].sequence == NextSequence(s, p.run) + i
           && block[i].settlement == Some(p.key)
    ensures forall i, j | 0 <= i < j < |SettlementBlock(s, p)| ::
              Rank(SettlementBlock(s, p)[i].row.kind) < Rank(SettlementBlock(s, p)[j].row.kind)
  {
    LinkedRowsShape(p, Released(s, p));
    LinkedRowsPresent(p, Released(s, p));
  }

  lemma BlockSums(s: State, p: SettlementPayload)
    ensures Effects(SettlementBlock(s, p)) == RowEffects(LinkedRows(p, Released(s, p)))
    ensures Usages(SettlementBlock(s, p)) == RowUsages(LinkedRows(p, Released(s, p)))
    ensures Total(SettlementBlock(s, p)) == ZERO.Minus(Outstanding(s.events, p.spawn))
    ensures Used(SettlementBlock(s, p)) == p.actual
  {
    var rows := LinkedRows(p, Released(s, p));
    LinkedRowsConserve(p, Released(s, p));
    assert Effects(SettlementBlock(s, p)) == RowEffects(rows);
    assert Usages(SettlementBlock(s, p)) == RowUsages(rows);
  }

  /** Part-way through the block the spawn still has a non-negative reservation. */
  lemma PartialBlockSums(s: State, p: SettlementPayload, n: nat)
    requires p.actual.InLimits() && Released(s, p).InLimits()
    requires n <= |SettlementBlock(s, p)|
    ensures Outstanding(s.events, p.spawn).Plus(Total(SettlementBlock(s, p)[..n])).NonNegative()
    ensures Used(SettlementBlock(s, p)[..n]).NonNegative()
  {
    BlockEvents(s, p);
    BlockSums(s, p);
    TakeAwayPrefix(SettlementBlock(s, p), n);
  }

  lemma TakeAwayPrefix(block: seq<Event>, n: nat)
    requires n <= |block|
    requires forall i | 0 <= i < |block| :: block[i].row.amounts.InLimits() && Rank(block[i].row.kind) < 4
    ensures Total(block).Within(Total(block[..n])) && Used(block[..n]).NonNegative()
  {
    forall i | 0 <= i < |block|
      ensures Effects(block)[i].Within(ZERO) && Usages(block)[i].NonNegative()
    {
      LinkedKindsTakeAway(block[i].row.kind, block[i].row.amounts);
    }
    SumPrefixDominates(Effects(block), n);
    assert Effects(block)[..n] == Effects(block[..n]);
    assert forall i | 0 <= i < n :: Usages(block[..n])[i] == Usages(block)[i];
    SumNonNegative(Usages(block[..n]));
  }

  lemma LinkedKindsTakeAway(kind: Kind, amounts: Vector)
    requires amounts.NonNegative() && Rank(kind) < 4
    ensures Effect(kind, amounts).Within(ZERO) && Usage(kind, amounts).NonNegative()
  {
  }

  /** Part-way through the block, the settled spawn's and run's rows are the old ones and the block so far. */
  lemma BlockRows(s: State, p: SettlementPayload, n: nat)
    requires p.actual.InLimits() && Released(s, p).InLimits()
    requires n <= |SettlementBlock(s, p)|
    ensures var t, part := BlockState(s, p, n), SettlementBlock(s, p)[..n];
      && t.events == s.events + part
      && ForSpawn(t.events, p.spawn) == ForSpawn(s.events, p.spawn) + part
      && ForRun(t.events, p.run) == ForRun(s.events, p.run) + part
  {
    var part := SettlementBlock(s, p)[..n];
    BlockEvents(s, p);
    InsertAllTables(WithSettlement(s, p), part);
    RowsConcat(s.events, part, OfSpawn(p.spawn));
    RowsConcat(s.events, part, OfRun(p.run));
    RowsAll(part, OfSpawn(p.spawn));
    RowsAll(part, OfRun(p.run));
  }

  /** A settlement that fits the spawn's reservation. */
  ghost predicate Settleable(s: State, p: SettlementPayload) {
    && Core(s) && SettlementAdmissible(s, p)
    && p.actual.Within(Outstanding(s.events, p.spawn))
  }

  lemma SettleableLimits(s: State, p: SettlementPayload)
    requires Settleable(s, p)
    ensures p.actual.InLimits() && Released(s, p).InLimits()
    ensures Used(ForSpawn(s.events, p.spawn)).retry >= 0
  {
    OutstandingQuery(s, LinkedRow(p, Release, p.actual));
  }

  /** The next block event can never be refused by counters or by the window query. */
  lemma BlockAppendable(s: State, p: SettlementPayload, n: nat)
    requires Settleable(s, p) && n < |SettlementBlock(s, p)|
    requires NextSequence(s, p.run) + n <= MAX_EVENT_SEQUENCE
    requires !KeyUsed(s.events, SettlementBlock(s, p)[n].row.key)
    requires !DedupeUsed(s.events, SettlementBlock(s, p)[n].row.dedupe)
    ensures Appendable(BlockState(s, p, n), SettlementBlock(s, p)[n])
  {
    var t, e := BlockState(s, p, n), SettlementBlock(s, p)[n];
    SettleableLimits(s, p);
    BlockEvents(s, p);
    BlockRows(s, p, n);
    LinkedIdentities(s, p, n);
    BlockNets(s, p, n);
    InsertAllTables(WithSettlement(s, p), SettlementBlock(s, p)[..n]);
    assert RowBound(s, LinkedRow(p, Release, p.actual));
    assert RowBound(t, e.row);
  }

  lemma BlockNets(s: State, p: SettlementPayload, n: nat)
    requires p.actual.InLimits() && Released(s, p).InLimits()
    requires Used(ForSpawn(s.events, p.spawn)).retry >= 0
    requires n < |SettlementBlock(s, p)|
    ensures Total(ForSpawn(s.events, p.spawn) + SettlementBlock(s, p)[..n])
            .Plus(EffectOf(SettlementBlock(s, p)[n])).NonNegative()
    ensures Used(ForSpawn(s.events, p.spawn) + SettlementBlock(s, p)[..n])
            .Plus(UsageOf(SettlementBlock(s, p)[n])).retry >= 0
  {
    PartialBlockSums(s, p, n + 1);
    NetsOfPart(ForSpawn(s.events, p.spawn), SettlementBlock(s, p), n);
  }

  lemma NetsOfPart(rows: seq<Event>, block: seq<Event>, n: nat)
    requires n < |block|
    requires Total(rows).Plus(Total(block[..n + 1])).NonNegative()
    requires Used(rows).retry >= 0 && Used(block[..n + 1]).NonNegative()
    ensures Total(rows + block[..n]).Plus(EffectOf(block[n])).NonNegative()
    ensures Used(rows + block[..n]).Plus(UsageOf(block[n])).retry >= 0
  {
    assert block[..n + 1] == block[..n] + [block[n]];
    NetsRegroup(rows, block[..n], block[n]);
  }

  lemma NetsRegroup(rows: seq<Event>, part: seq<Event>, e: Event)
    ensures Total(rows + part).Plus(EffectOf(e)) == Total(rows).Plus(Total(part + [e]))
    ensures Used(rows + part).Plus(UsageOf(e)) == Used(rows).Plus(Used(part + [e]))
  {
    TotalConcat(rows, part);
    TotalAppend(part, e);
    PlusAssociates(Total(rows), Total(part), EffectOf(e));
    PlusAssociates(Used(rows), Used(part), UsageOf(e));
  }

  /** A linked event of zero amounts is not written, unless it is the terminal marker. */
  predicate Skipped(amounts: Vector, force: bool) {
    amounts.IsZero() && !force
  }

  predicate TerminalMarker(p: SettlementPayload, released: Vector) {
    p.actual.IsZero() && released.IsZero()
  }

  /** Unless it is skipped, the linked row of this kind sits at position `n`. */
  predicate SlotOk(
    p: SettlementPayload, block: seq<Event>, n: nat, kind: Kind, amounts: Vector, force: bool)
  {
    Skipped(amounts, force) || (n < |block| && block[n].row == LinkedRow(p, kind, amounts))
  }

  function Taken(amounts: Vector, force: bool): nat {
    if Skipped(amounts, force) then 0 else 1
  }

  /** Where each kind of linked row sits in a block. */
  ghost predicate BlockLayout(p: SettlementPayload, released: Vector, block: seq<Event>) {
    var usage, retry, human := p.actual.UsagePart(), p.actual.RetryPart(), p.actual.HumanPart();
    var a, b, c := Taken(usage, false), Taken(retry, false), Taken(human, false);
    && |block| == a + b + c + Taken(released, TerminalMarker(p, released))
    && SlotOk(p, block, 0, Consume, usage, false)
    && SlotOk(p, block, a, RetryDecrement, retry, false)
    && SlotOk(p, block, a + b, HumanAttention, human, false)
    && SlotOk(p, block, a + b + c, Release, released, TerminalMarker(p, released))
  }

  lemma SettlementBlockLayout(s: State, p: SettlementPayload)
    ensures BlockLayout(p, Released(s, p), SettlementBlock(s, p))
  {
  }

  /** There is a sequence number left for `e`, and its identity is unused in `es`. */
  predicate Free(es: seq<Event>, e: Event) {
    e.sequence <= MAX_EVENT_SEQUENCE && !KeyUsed(es, e.row.key) && !DedupeUsed(es, e.row.dedupe)
  }

  predicate AllFree(es: seq<Event>, block: seq<Event>) {
    forall i | 0 <= i < |block| :: Free(es, block[i])
  }

  /**
   Everything that is decided about inserting `e` into `t`, where `es` is the ledger the
   settlement found: its sequence number, which identities count, and that counters allow it.
   */
  ghost predicate EventDecided(t: State, es: seq<Event>, e: Event, p: SettlementPayload) {
    && e.row.run == p.run && p.run in t.runs
    && e.row.amounts.NonNegative() && e.row.confidence != Unknown
    && e.settlement == Some(p.key)
    && 1 <= e.sequence == MaxSequence(ForRun(t.events, p.run)) + 1
    && (KeyUsed(t.events, e.row.key) <==> KeyUsed(es, e.row.key))
    && (DedupeUsed(t.events, e.row.dedupe) <==> DedupeUsed(es, e.row.dedupe))
    && CountersFit(t.runs[p.run])
    && (Free(es, e) ==> CountersFit(Charge(t.runs[p.run], e.row)))
  }

  lemma LinkedInsertDecision(s: State, p: SettlementPayload, n: nat)
    requires Settleable(s, p) && n < |SettlementBlock(s, p)| && Core(BlockState(s, p, n))
    ensures EventDecided(BlockState(s, p, n), s.events, SettlementBlock(s, p)[n], p)
    ensures Free(s.events, SettlementBlock(s, p)[n]) ==>
              Core(Insert(BlockState(s, p, n), SettlementBlock(s, p)[n]))
  {
    var t, e := BlockState(s, p, n), SettlementBlock(s, p)[n];
    SettleableLimits(s, p);
    BlockEvents(s, p);
    InsertAllTables(WithSettlement(s, p), SettlementBlock(s, p)[..n]);
    assert RunOk(t.events, p.run, t.runs[p.run]);
    LinkedIdentities(s, p, n);
    assert MaxSequence(ForRun(t.events, p.run)) + 1 == e.sequence by {
      BlockRows(s, p, n);
      MaxSequenceQuery(t, p.run);
    }
    if Free(s.events, e) {
      BlockAppendable(s, p, n);
      InsertKeepsCore(t, e);
      assert RunOk(Insert(t, e).events, p.run, Insert(t, e).runs[p.run]);
    }
  }

  lemma LinkedIdentities(s: State, p: SettlementPayload, n: nat)
    requires p.actual.InLimits() && Released(s, p).InLimits()
    requires n < |SettlementBlock(s, p)|
    ensures var t, e := BlockState(s, p, n), SettlementBlock(s, p)[n];
      && (KeyUsed(t.events, e.row.key) <==> KeyUsed(s.events, e.row.key))
      && (DedupeUsed(t.events, e.row.dedupe) <==> DedupeUsed(s.events, e.row.dedupe))
  {
    var t, block := BlockState(s, p, n), SettlementBlock(s, p);
    BlockEvents(s, p);
    BlockRows(s, p, n);
    forall i | 0 <= i < n
      ensures block[i].row.key != block[n].row.key && block[i].row.dedupe != block[n].row.dedupe
    {
      KindNamesDiffer(block[i].row.kind, block[n].row.kind, p.key);
      KindNamesDiffer(block[i].row.kind, block[n].row.kind, p.dedupe);
    }
    UsedInConcat(s.events, block[..n], block[n].row);
    assert forall e | e in block[..n] :: e.row.key != block[n].row.key && e.row.dedupe != block[n].row.dedupe;
  }

  lemma UsedInConcat(es: seq<Event>, part: seq<Event>, row: Payload)
    ensures KeyUsed(es + part, row.key) <==> KeyUsed(es, row.key) || KeyUsed(part, row.key)
    ensures DedupeUsed(es + part, row.dedupe) <==> DedupeUsed(es, row.dedupe) || DedupeUsed(part, row.dedupe)
  {
    var both := es + part;
    forall i | 0 <= i < |es| ensures both[i] == es[i] {}
    forall i | 0 <= i < |part| ensures both[|es| + i] == part[i] {}
  }

  /**
   Writing `block` onto `base`: once its predecessors were free to go in, the next event is
   decided by its sequence number and identity alone.
   */
  ghost predicate BlockPlan(base: State, es: seq<Event>, block: seq<Event>, p: SettlementPayload) {
    forall n: nat | n < |block| && AllFree(es, block[..n]) ::
      EventDecided(InsertAll(base, block[..n]), es, block[n], p)
  }

  lemma {:induction false} BlockStateCore(s: State, p: SettlementPayload, n: nat)
    requires Settleable(s, p) && n <= |SettlementBlock(s, p)|
    requires AllFree(s.events, SettlementBlock(s, p)[..n])
    ensures Core(BlockState(s, p, n))
  {
    if n == 0 {
      BlockStateZero(s, p);
    } else {
      AllFreePrefix(s.events, SettlementBlock(s, p), n);
      BlockStateCore(s, p, n - 1);
      LinkedInsertDecision(s, p, n - 1);
      BlockStateNext(s, p, n - 1);
    }
  }

  lemma BlockStateZero(s: State, p: SettlementPayload)
    requires Core(s)
    ensures Core(BlockState(s, p, 0))
  {
    assert SettlementBlock(s, p)[..0] == [];
    SettlementRowKeepsCore(s, p);
  }

  lemma AllFreePrefix(es: seq<Event>, block: seq<Event>, n: nat)
    requires 0 < n <= |block| && AllFree(es, block[..n])
    ensures AllFree(es, block[..n - 1]) && Free(es, block[n - 1])
  {
    assert block[..n][n - 1] == block[n - 1];
    var part := block[..n - 1];
    forall i | 0 <= i < |part| ensures Free(es, part[i]) {
      assert block[..n][i] == part[i];
    }
  }

  lemma SettlementBlockPlan(s: State, p: SettlementPayload)
    requires Settleable(s, p)
    ensures BlockPlan(WithSettlement(s, p), s.events, SettlementBlock(s, p), p)
  {
    var base, block := WithSettlement(s, p), SettlementBlock(s, p);
    forall n: nat | n < |block| && AllFree(s.events, block[..n])
      ensures EventDecided(InsertAll(base, block[..n]), s.events, block[n], p)
    {
      BlockStateCore(s, p, n);
      LinkedInsertDecision(s, p, n);
    }
  }

  lemma SettlementRowKeepsCore(s: State, p: SettlementPayload)
    requires Core(s)
    ensures Core(WithSettlement(s, p))
  {
    var t := WithSettlement(s, p);
    forall r | r in t.runs ensures RunOk(t.events, r, t.runs[r]) {
      assert RunOk(s.events, r, s.runs[r]);
    }
    forall i | 0 <= i < |t.events|
      ensures RowBound(t, t.events[i].row) && t.events[i].row.amounts.InLimits()
    {
      assert RowBound(s, s.events[i].row);
    }
  }

  /** After some block events: the state, the collected results, and what is still undecided. */
  ghost predicate Progress(
    base: State, es: seq<Event>, block: seq<Event>, v: Verdicts, t: State, results: seq<EventResult>)
  {
    && |results| <= |block|
    && t == InsertAll(base, block[..|results|])
    && AllFree(es, block[..|results|])
    && results == Results(block[..|results|], false)
    && BlockRefusal(es, block, 0, v) == BlockRefusal(es, block, |results|, v)
  }

  lemma ProgressStart(base: State, es: seq<Event>, block: seq<Event>, v: Verdicts)
    ensures Progress(base, es, block, v, base, [])
  {
    assert block[..0] == [];
    assert Results([], false) == [];
  }

  lemma InsertAllNext(base: State, block: seq<Event>, n: nat)
    requires n < |block|
    ensures InsertAll(base, block[..n + 1]) == Insert(InsertAll(base, block[..n]), block[n])
  {
    assert block[..n + 1][..n] == block[..n];
  }

  lemma ResultsNext(block: seq<Event>, n: nat)
    requires n < |block|
    ensures Results(block[..n + 1], false)
            == Results(block[..n], false) + [EventResult(block[n].row.key, block[n].sequence, false)]
  {
  }

  lemma ProgressDecided(
    base: State, es: seq<Event>, block: seq<Event>, p: SettlementPayload, v: Verdicts,
    t: State, results: seq<EventResult>)
    requires BlockPlan(base, es, block, p) && Progress(base, es, block, v, t, results)
    requires |results| < |block|
    ensures EventDecided(t, es, block[|results|], p)
  {
  }

  lemma ProgressNext(
    base: State, es: seq<Event>, block: seq<Event>, v: Verdicts,
    t: State, results: seq<EventResult>, u: State, more: seq<EventResult>)
    requires Progress(base, es, block, v, t, results) && |results| < |block|
    requires EventRefusal(es, block[|results|], |results| + 1, v).None?
    requires u == Insert(t, block[|results|])
    requires more == results + [EventResult(block[|results|].row.key, block[|results|].sequence, false)]
    ensures Progress(base, es, block, v, u, more)
  {
    var n := |results|;
    InsertAllNext(base, block, n);
    ResultsNext(block, n);
    var part := block[..n + 1];
    forall i | 0 <= i < |part| ensures Free(es, part[i]) {
      assert i < n ==> part[i] == block[..n][i];
    }
  }

  lemma ProgressDone(
    base: State, es: seq<Event>, block: seq<Event>, v: Verdicts, t: State, results: seq<EventResult>)
    requires Progress(base, es, block, v, t, results) && |results| == |block|
    ensures t == InsertAll(base, block) && AllFree(es, block) && results == Results(block, false)
    ensures BlockRefusal(es, block, 0, v).None?
  {
    assert block[..|results|] == block;
  }

  lemma ProgressRefused(
    base: State, es: seq<Event>, block: seq<Event>, v: Verdicts, t: State, results: seq<EventResult>)
    requires Progress(base, es, block, v, t, results) && |results| < |block|
    requires EventRefusal(es, block[|results|], |results| + 1, v).Some?
    ensures BlockRefusal(es, block, 0, v) == EventRefusal(es, block[|results|], |results| + 1, v)
  {
  }
}
