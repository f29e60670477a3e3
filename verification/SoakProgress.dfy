/**
 Progress of a daemon that nothing disturbs: passing samplings in time bring a resumed disk to a
 complete receipt behind a completion envelope.
 */
module SoakProgress {
  import opened Wrappers
  import opened SoakModel
  import opened SoakTheorems
  import opened SoakProcess

  /** A sampling instant on both clocks, and what is observed then. */
  datatype Tick = Tick(epoch: int, monotonic: int, observation: Observation)

  function SamplingAt(c: Timing, d: Disk, t: Tick): Sampling {
    SnapshotWrites(c, d, t.epoch, t.observation)
  }

  function SampleOf(c: Timing, d: Disk, t: Tick): Sample
    requires SamplingAt(c, d, t).recorded ==> t.observation.content.Some?
  {
    Sampled(SamplingAt(c, d, t), t.epoch, t.monotonic, t.observation)
  }

  /** The running disk lets this tick pass, in time and within the window. */
  predicate Undisturbed(c: Timing, d: Disk, t: Tick) {
    && LetsPass(d, t.epoch, t.observation) && d.receipt.Some? && d.receipt.value.samples != []
    && var s := SampleOf(c, d, t);
       && Spaced(c, d.receipt.value.samples[|d.receipt.value.samples| - 1], s) && InWindow(c, s) && !Straddles(c, s)
  }

  /** The disk after all writes of one iteration. */
  function Ticked(c: Timing, d: Disk, t: Tick): Disk
    requires Undisturbed(c, d, t)
  {
    var d1 := After(d, SamplingAt(c, d, t).writes);
    After(d1, RecordWrites(c, d1, d.receipt.value, SampleOf(c, d, t)))
  }

  // ---- One tick ----

  lemma AfterCons(d: Disk, w: Write, rest: seq<Write>)
    ensures After(d, [w] + rest) == After(Apply(d, w), rest)
  {
    SurvivingCons(d, w, rest, |rest| + 1);
  }

  /** The seal of a complete receipt is followed by its completion envelope. */
  lemma FinishCompletes(c: Timing, d: Disk, e: Disk)
    requires Aligned(c, d) && d.receipt.value.status == Complete && e == After(d, FinishWrites(c, d, Complete))
    ensures e.envelope.Some? && e.envelope.value.status == Completed && e.receipt == d.receipt
  {
    var sealed := SealFile(SealOf(d).value);
    var d1 := Apply(d, sealed);
    var rest := EnvelopeWrites(c, d1, Completed, None);
    AfterCons(d, sealed, rest);
    SameEvidenceKeeps(c, d, d1);
    SealedIsOneToOne(c, d1);
    CompletionIffOneToOne(c, d1);
    AfterCons(d1, rest[0], []);
    assert rest == [rest[0]] + [];
  }

  lemma ChainCompletes(c: Timing, d: Disk, u: Receipt, s: Sample, e: Disk)
    requires Resumed(c, d) && ReceiptOk(c, u) && u.samples == Samples(d) + [s] && BoundTo(d, s) && u.status == Complete
    requires e == After(d, ChainWrites(c, d, u, s))
    ensures e.envelope.Some? && e.envelope.value.status == Completed
  {
    BindingOfNew(c, d, s);
    var link := SignedLink(Payload(|u.samples|, s, Binding(d, s).value, Previous(d.chain)));
    var d1 := Apply(d, ChainFile(d.chain + [link]));
    var d2 := Apply(d1, ReceiptFile(u));
    ReceiptStep(c, d, u, s, link);
    AfterCons(d, ChainFile(d.chain + [link]), [ReceiptFile(u)] + FinishWrites(c, d2, u.status));
    AfterCons(d1, ReceiptFile(u), FinishWrites(c, d2, u.status));
    FinishCompletes(c, d2, e);
  }

  lemma RecordCompletes(c: Timing, d: Disk, r: Receipt, s: Sample, e: Disk)
    requires Resumed(c, d) && d.receipt == Some(r) && BoundTo(d, s)
    requires AppendSample(c, r, s).Some? && AppendSample(c, r, s).value.status == Complete
    requires e == After(d, RecordWrites(c, d, r, s))
    ensures e.envelope.Some? && e.envelope.value.status == Completed
  {
    var u := AppendSample(c, r, s).value;
    var file := SampleFile(|u.samples|, s);
    var d1 := Apply(d, file);
    AppendFacts(c, r, s);
    SameEvidenceKeeps(c, d, d1);
    AfterCons(d, file, ChainWrites(c, d1, u, s));
    ChainCompletes(c, d1, u, s, e);
  }

  /** One more passing sample: the disk stays resumed, or is completed past the deadlines. */
  ghost predicate Progressed(c: Timing, d: Disk, past: bool, e: Disk) {
    && e.receipt.Some? && |Samples(e)| == |Samples(d)| + 1 && Samples(d) <= Samples(e) && Samples(e)[|Samples(d)|].passed
    && if past then e.receipt.value.status == Complete && e.envelope.Some? && e.envelope.value.status == Completed
       else e.receipt.value.status == InProgress && Resumed(c, e)
  }

  lemma TickGrows(
    c: Timing, d: Disk, r: Receipt, t: Tick, sampling: Sampling, d1: Disk, s: Sample, record: seq<Write>, e: Disk)
    requires Resumed(c, d) && Undisturbed(c, d, t) && d.receipt == Some(r)
    requires sampling == SamplingAt(c, d, t) && d1 == After(d, sampling.writes) && s == SampleOf(c, d, t)
    requires record == RecordWrites(c, d1, r, s) && e == After(d1, record)
    ensures s.passed && e.receipt == Some(Receipt(if c.Deadline() <= t.epoch then Complete else InProgress, r.samples + [s]))
    ensures t.epoch < c.Deadline() ==> Resumed(c, e)
  {
    PassingIterationProgresses(c, d, r, t.epoch, t.monotonic, t.observation, sampling, d1, s, e);
    LastIsPositive(c, r);
    IterationIsCrashSafe(c, d, r, t.epoch, t.monotonic, t.observation, sampling, d1, s, record,
                         |sampling.writes| + |record|, e);
  }

  lemma TickIsBound(c: Timing, d: Disk, r: Receipt, t: Tick, sampling: Sampling, d1: Disk, s: Sample)
    requires Resumed(c, d) && Undisturbed(c, d, t) && d.receipt == Some(r)
    requires sampling == SamplingAt(c, d, t) && d1 == After(d, sampling.writes) && s == SampleOf(c, d, t)
    ensures Resumed(c, d1) && d1.receipt == Some(r) && BoundTo(d1, s)
  {
    LastIsPositive(c, r);
    SnapshotStage(c, d, t.epoch, t.observation, |sampling.writes|, sampling, d1);
    SampledIsBound(d, d1, sampling, t.epoch, t.monotonic, t.observation);
  }

  lemma TickCompletes(
    c: Timing, d: Disk, r: Receipt, t: Tick, sampling: Sampling, d1: Disk, s: Sample, e: Disk)
    requires Resumed(c, d) && Undisturbed(c, d, t) && d.receipt == Some(r) && c.Deadline() <= t.epoch
    requires sampling == SamplingAt(c, d, t) && d1 == After(d, sampling.writes) && s == SampleOf(c, d, t)
    requires e == After(d1, RecordWrites(c, d1, r, s))
    ensures e.envelope.Some? && e.envelope.value.status == Completed
  {
    TickIsBound(c, d, r, t, sampling, d1, s);
    TickAppends(c, d, t);
    RecordCompletes(c, d1, r, s, e);
  }

  lemma TickProgresses(c: Timing, d: Disk, t: Tick)
    requires Resumed(c, d) && Undisturbed(c, d, t)
    ensures Progressed(c, d, c.Deadline() <= t.epoch, Ticked(c, d, t))
  {
    var r, sampling, s, e := d.receipt.value, SamplingAt(c, d, t), SampleOf(c, d, t), Ticked(c, d, t);
    var d1 := After(d, sampling.writes);
    TickGrows(c, d, r, t, sampling, d1, s, RecordWrites(c, d1, r, s), e);
    if c.Deadline() <= t.epoch {
      TickCompletes(c, d, r, t, sampling, d1, s, e);
    }
  }

  lemma TickAppends(c: Timing, d: Disk, t: Tick)
    requires Resumed(c, d) && Undisturbed(c, d, t)
    ensures AppendSample(c, d.receipt.value, SampleOf(c, d, t)) ==
            Some(Receipt(if c.Deadline() <= t.epoch then Complete else InProgress, Samples(d) + [SampleOf(c, d, t)]))
  {
    SnapshotSucceedsIff(c, d, t.epoch, t.observation);
    SampledOkIff(SamplingAt(c, d, t), t.epoch, t.monotonic, t.observation);
    LastIsPositive(c, d.receipt.value);
    AppendIff(c, d.receipt.value, SampleOf(c, d, t));
  }

  lemma TickIterates(
    c: Timing, d: Disk, r: Receipt, t: Tick, sampling: Sampling, s: Sample, record: seq<Write>, e: Disk, power: nat)
    requires Samplable(c, d) && d.receipt == Some(r) && Undisturbed(c, d, t)
    requires sampling == SamplingAt(c, d, t) && s == SampleOf(c, d, t)
    requires record == RecordWrites(c, After(d, sampling.writes), r, s)
    requires power == |sampling.writes| + |record| && e == After(After(d, sampling.writes), record)
    requires t.epoch < c.Deadline() ==>
               e.receipt == AppendSample(c, r, s) && e.receipt.Some? && e.receipt.value.status == InProgress
    ensures Iterates(c, System(d, true), System(e, t.epoch < c.Deadline()), t.monotonic, t.epoch, t.monotonic,
                     t.observation, power)
  {
  }

  lemma IterationIsStep(
    c: Timing, s: System, t: System, waited: int, epoch: int, monotonic: int, o: Observation, power: nat)
    requires Iterates(c, s, t, waited, epoch, monotonic, o, power)
    ensures Step(c, s, t)
  {
  }

  /** A tick is a step of the state machine, which goes on before the deadlines and ends behind them. */
  lemma TickIsStep(c: Timing, d: Disk, t: Tick)
    requires Resumed(c, d) && Undisturbed(c, d, t)
    ensures Step(c, System(d, true), System(Ticked(c, d, t), t.epoch < c.Deadline()))
  {
    var r, sampling, s, e := d.receipt.value, SamplingAt(c, d, t), SampleOf(c, d, t), Ticked(c, d, t);
    var d1 := After(d, sampling.writes);
    var record := RecordWrites(c, d1, r, s);
    var power := |sampling.writes| + |record|;
    TickGrows(c, d, r, t, sampling, d1, s, record, e);
    TickAppends(c, d, t);
    ResumedIsSamplable(c, d);
    TickIterates(c, d, r, t, sampling, s, record, e, power);
    IterationIsStep(c, System(d, true), System(e, t.epoch < c.Deadline()), t.monotonic, t.epoch, t.monotonic,
                    t.observation, power);
  }

  lemma ResumedIsSamplable(c: Timing, d: Disk)
    requires Resumed(c, d)
    ensures Samplable(c, d)
  {
    AcceptsRunningIff(c, d);
  }

  // ---- A whole run ----

  /** Each tick is undisturbed on the disk that the ticks before it leave, and only the last is past the deadlines. */
  predicate AllUndisturbed(c: Timing, d: Disk, ticks: seq<Tick>)
    decreases |ticks|
  {
    ticks != [] ==>
      && Undisturbed(c, d, ticks[0])
      && (1 < |ticks| ==> ticks[0].epoch < c.Deadline())
      && AllUndisturbed(c, Ticked(c, d, ticks[0]), ticks[1..])
  }

  function AllTicked(c: Timing, d: Disk, ticks: seq<Tick>): Disk
    requires AllUndisturbed(c, d, ticks)
    decreases |ticks|
  {
    if ticks == [] then d else AllTicked(c, Ticked(c, d, ticks[0]), ticks[1..])
  }

  /** One passing sample per tick, and completion if the last tick is past the deadlines. */
  ghost predicate Gained(c: Timing, d: Disk, n: nat, past: bool, e: Disk) {
    && |Samples(e)| == |Samples(d)| + n && Samples(d) <= Samples(e)
    && (forall i | |Samples(d)| <= i < |Samples(e)| :: Samples(e)[i].passed)
    && if past then e.receipt.Some? && e.receipt.value.status == Complete
                    && e.envelope.Some? && e.envelope.value.status == Completed
       else Resumed(c, e)
  }

  lemma GainsFirst(c: Timing, d: Disk, past: bool, e: Disk)
    requires Progressed(c, d, past, e)
    ensures Gained(c, d, 1, past, e)
  {
  }

  lemma GainsMore(c: Timing, d: Disk, d1: Disk, n: nat, past: bool, e: Disk)
    requires Progressed(c, d, false, d1) && Gained(c, d1, n, past, e)
    ensures Gained(c, d, n + 1, past, e)
  {
    forall i | |Samples(d)| <= i < |Samples(e)| ensures Samples(e)[i].passed {
      assert i == |Samples(d)| ==> Samples(e)[i] == Samples(d1)[i];
    }
  }

  /** The last of the ticks is past both deadlines. */
  predicate IsPast(c: Timing, ticks: seq<Tick>) {
    ticks != [] && c.Deadline() <= ticks[|ticks| - 1].epoch
  }

  /**
   A daemon that samples undisturbed from a resumed disk gains one passing sample per tick, and is
   completed, receipt and envelope, by the first tick past both deadlines.
   */
  lemma {:induction false} UndisturbedRunCompletes(c: Timing, d: Disk, ticks: seq<Tick>)
    requires Resumed(c, d) && AllUndisturbed(c, d, ticks)
    ensures Gained(c, d, |ticks|, IsPast(c, ticks), AllTicked(c, d, ticks))
    decreases |ticks|
  {
    if ticks != [] {
      var d1, rest := Ticked(c, d, ticks[0]), ticks[1..];
      TickProgresses(c, d, ticks[0]);
      if rest == [] {
        GainsFirst(c, d, IsPast(c, ticks), d1);
      } else {
        UndisturbedRunCompletes(c, d1, rest);
        GainsMore(c, d, d1, |rest|, IsPast(c, rest), AllTicked(c, d1, rest));
      }
    }
  }
}
