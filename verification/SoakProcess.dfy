/**
 The daemon as a state machine over the disk: every step makes the writes of the model, cut off
 wherever the process dies.
 */
module SoakProcess {
  import opened Wrappers
  import opened SoakModel
  import opened SoakTheorems

  datatype StopCheck = NoStop | StopRequested | StopInvalid

  /** Why the loop ends. */
  datatype Ending = Ending(status: MonitorStatus, violation: Option<Violation>)

  /** The disk at the head of the loop of a daemon that was started on disk d. */
  ghost predicate Current(c: Timing, d: Disk, e: Disk) {
    && NotCompleted(e)
    && (Samplable(c, e) ==> Resumable(c, d) && Resumed(c, e))
    && (if Resumable(c, d) then IterationSafe(c, d, e) && (HasOrphan(e) ==> SameEvidence(d, e))
        else SameEvidence(d, e))
  }

  /** The disk of a daemon that was started on disk d, once it ended. */
  ghost predicate Ended(c: Timing, d: Disk, e: Disk) {
    && Certified(c, e)
    && (Resumable(c, d) ==> IterationSafe(c, d, e))
    && (!Resumable(c, d) ==> SameEvidence(d, e))
    && (Aligned(c, d) ==> Aligned(c, e))
  }

  ghost predicate RoundSafe(c: Timing, d: Disk, e: Disk) {
    && Certified(c, e)
    && (Samplable(c, d) ==> IterationSafe(c, d, e))
    && (!Samplable(c, d) ==> SameEvidence(d, e))
  }

  lemma SealIsFirst(c: Timing, d: Disk, sealed: Write, power: nat)
    requires SealOf(d).Some? && sealed == SealFile(SealOf(d).value)
    ensures var writes := FinishWrites(c, d, Complete);
            var rest := EnvelopeWrites(c, Apply(d, sealed), Completed, None);
            && |writes| == 1 + |rest| && |rest| <= 1
            && Surviving(d, writes, power) == if power == 0 then d else Surviving(Apply(d, sealed), rest, power - 1)
  {
    SurvivingCons(d, sealed, EnvelopeWrites(c, Apply(d, sealed), Completed, None), power);
  }

  lemma RestartRefused(c: Timing, d: Disk, d': Disk)
    requires EnvelopeOf(c, d, Running, None).None?
    requires d' == d.(envelope := d'.envelope) && d'.envelope.Some? && d'.envelope.value.status == FailedClosed
    ensures Ended(c, d, d')
  {
    if Aligned(c, d) {
      SameEvidenceKeeps(c, d, d');
    }
  }

  /** The running envelope is on disk: what may be sampled from here on was acceptable before it. */
  lemma RestartAccepted(c: Timing, d: Disk, d1: Disk)
    requires EnvelopeOf(c, d, Running, None).Some?
    requires d1 == Apply(d, EnvelopeFile(EnvelopeOf(c, d, Running, None).value))
    ensures Current(c, d, d1)
  {
    if d.receipt.Some? {
      SameChain(c, d, d1);
    }
    if Resumable(c, d) {
      ResumptionIsSafe(c, d, EnvelopeOf(c, d, Running, None).value);
    }
  }

  lemma ComposeFromStart(c: Timing, d: Disk, d1: Disk, e: Disk)
    requires IterationSafe(c, d, d1) && (HasOrphan(d1) ==> SameEvidence(d, d1)) && IterationSafe(c, d1, e)
    ensures IterationSafe(c, d, e)
  {
    ExtendsTransitive(d, d1, e);
  }

  lemma RoundComposes(c: Timing, d: Disk, before: Disk, after: Disk)
    requires Current(c, d, before) && RoundSafe(c, before, after)
    ensures Ended(c, d, after)
    ensures Samplable(c, before) && Resumed(c, after) && !HasOrphan(after) ==> Current(c, d, after)
  {
    if Samplable(c, before) {
      ComposeFromStart(c, d, before, after);
    } else if Resumable(c, d) {
      SameEvidenceKeeps(c, before, after);
      SafeThenSame(c, d, before, after);
    } else if Aligned(c, d) {
      SameEvidenceKeeps(c, d, after);
    }
  }

  lemma SafeThenSame(c: Timing, d: Disk, d1: Disk, e: Disk)
    requires IterationSafe(c, d, d1) && SameEvidence(d1, e) && Aligned(c, e) && Certified(c, e)
    ensures IterationSafe(c, d, e)
  {
  }

  lemma SameChain(c: Timing, d: Disk, e: Disk)
    requires SameEvidence(d, e) && d.receipt.Some?
    ensures ChainExact(d, d.receipt.value.samples) <==> ChainExact(e, e.receipt.value.samples)
  {
  }

  ghost predicate ReceiptChecks(c: Timing, d: Disk) {
    d.receipt.Some? && ReceiptOk(c, d.receipt.value) && ChainExact(d, d.receipt.value.samples)
  }

  ghost predicate Samplable(c: Timing, d: Disk) {
    ReceiptChecks(c, d) && d.receipt.value.status == InProgress && d.receipt.value.samples != []
  }

  lemma EnvelopeOnlyIsSafe(c: Timing, d: Disk, d': Disk)
    requires NotCompleted(d) && d' == d.(envelope := d'.envelope)
    requires d'.envelope != d.envelope && d'.envelope.Some? && d'.envelope.value.status == Completed ==> OneToOne(c, d)
    ensures SameEvidence(d, d') && Certified(c, d')
    ensures Resumed(c, d) ==> IterationSafe(c, d, d')
  {
    if d'.envelope.Some? && d'.envelope.value.status == Completed {
      SameEvidenceIsOneToOne(c, d, d');
    }
    if Resumed(c, d) {
      SameEvidenceKeeps(c, d, d');
    }
  }

  lemma SameEvidenceIsOneToOne(c: Timing, d: Disk, e: Disk)
    requires OneToOne(c, d) && SameEvidence(d, e) && e.seal == d.seal
    ensures OneToOne(c, e)
  {
    FramedFiles(d, e, d.receipt.value.samples, d.ledger.value, |d.ledger.value|);
  }

  // ---- The state machine ----

  /** The disk, and whether a daemon is in its loop. */
  datatype System = System(disk: Disk, up: bool)

  /** The first write of a daemon: it announces that it runs, or that it will not. */
  function BootWrites(c: Timing, d: Disk): seq<Write> {
    if EnvelopeOf(c, d, Running, None).Some? then EnvelopeWrites(c, d, Running, None)
    else EnvelopeWrites(c, d, FailedClosed, Some(CoreReceiptInvalid))
  }

  /** How a stop request or a coverage gap ends the loop. */
  function WorldEnding(stop: StopCheck, gap: bool): Option<Ending> {
    match stop
    case StopInvalid => Some(Ending(FailedClosed, Some(StopRequestInvalid)))
    case StopRequested => Some(Ending(Stopped, None))
    case NoStop => if gap then Some(Ending(FailedClosed, Some(CoverageGap))) else None
  }

  /** How the loop ends on a disk, if it does: as the files say, or for the reason the world gives. */
  ghost function EndingOf(c: Timing, d: Disk, stop: StopCheck, gap: bool): Option<Ending> {
    if !ReceiptChecks(c, d) then Some(Ending(FailedClosed, Some(CoreReceiptInvalid)))
    else if d.receipt.value.status == Complete then
      Some(if SealOk(d) then Ending(Completed, None) else Ending(FailedClosed, Some(SealMissing)))
    else if d.receipt.value.status == Failed then Some(Ending(FailedClosed, Some(CoreReceiptFailed)))
    else if stop == NoStop && d.receipt.value.samples == [] then
      Some(Ending(FailedClosed, Some(MissingFirstSample)))
    else WorldEnding(stop, gap)
  }

  ghost predicate Boots(c: Timing, s: System, t: System, power: nat) {
    && !s.up && t.disk == Surviving(s.disk, BootWrites(c, s.disk), power)
    && (t.up ==> 0 < power && EnvelopeOf(c, s.disk, Running, None).Some?)
  }

  ghost predicate Closes(c: Timing, s: System, t: System, stop: StopCheck, gap: bool, power: nat) {
    var ending := EndingOf(c, s.disk, stop, gap);
    && s.up && !t.up && ending.Some?
    && t.disk == Surviving(s.disk, EnvelopeWrites(c, s.disk, ending.value.status, ending.value.violation), power)
  }

  /** A sample is due on both clocks, and overdue on neither. */
  predicate IsDue(c: Timing, last: Sample, epoch: int, monotonic: int) {
    && last.epoch + c.Interval() <= epoch <= last.epoch + 2 * c.Interval()
    && last.monotonic + c.Interval() <= monotonic <= last.monotonic + 2 * c.Interval()
  }

  /**
   One sampling after a wait that ended in time, all its writes or some; the loop goes on after a
   running receipt.
   */
  ghost predicate Iterates(
    c: Timing, s: System, t: System, waited: int, epoch: int, monotonic: int, o: Observation, power: nat)
  {
    && s.up && Samplable(c, s.disk)
    && var r := s.disk.receipt.value;
       && IsDue(c, r.samples[|r.samples| - 1], epoch, waited) && waited <= monotonic
       && var sampling := SnapshotWrites(c, s.disk, epoch, o);
          var sample := Sampled(sampling, epoch, monotonic, o);
          var record := RecordWrites(c, After(s.disk, sampling.writes), r, sample);
          && t.disk == TwoStages(s.disk, sampling.writes, record, power)
          && (t.up ==> |sampling.writes| + |record| <= power
                       && t.disk.receipt == AppendSample(c, r, sample) && t.disk.receipt.Some?
                       && t.disk.receipt.value.status == InProgress)
  }

  ghost predicate Step(c: Timing, s: System, t: System) {
    || (t.disk == s.disk && !t.up)
    || (exists power :: Boots(c, s, t, power))
    || (exists stop, gap, power :: Closes(c, s, t, stop, gap, power))
    || (exists waited, epoch, monotonic, o, power :: Iterates(c, s, t, waited, epoch, monotonic, o, power))
  }

  /** What a pass of the loop may lead to, whether it goes on or not. */
  ghost function RoundResults(c: Timing, d: Disk): iset<System> {
    iset t: System |
      && RoundSafe(c, d, t.disk) && Step(c, System(d, true), t)
      && (t.up ==> && Samplable(c, d) && Resumed(c, t.disk) && !HasOrphan(t.disk)
                   && |Samples(d)| < |Samples(t.disk)|)
  }

  lemma IterationResult(
    c: Timing, d: Disk, t: System, waited: int, epoch: int, monotonic: int, o: Observation, power: nat)
    requires Resumed(c, d) && Iterates(c, System(d, true), t, waited, epoch, monotonic, o, power)
    ensures t in RoundResults(c, d)
  {
    var r := d.receipt.value;
    var sampling := SnapshotWrites(c, d, epoch, o);
    var d1 := After(d, sampling.writes);
    var sample := Sampled(sampling, epoch, monotonic, o);
    var record := RecordWrites(c, d1, r, sample);
    IterationIsCrashSafe(c, d, r, epoch, monotonic, o, sampling, d1, sample, record, power, t.disk);
  }

  /** The disk after one iteration of a process with `power`, and what it reports if it lives. */
  ghost function Iterations(c: Timing, d: Disk, r: Receipt, epoch: int, monotonic: int, o: Observation, power: nat)
    : iset<(Disk, Option<Option<Receipt>>)>
  {
    var sampling := SnapshotWrites(c, d, epoch, o);
    var sample := Sampled(sampling, epoch, monotonic, o);
    var record := RecordWrites(c, After(d, sampling.writes), r, sample);
    iset x: (Disk, Option<Option<Receipt>>) | Outcome(d, sampling.writes, record, AppendSample(c, r, sample), power, x.0, x.1)
  }

  /** What two stages of writes leave, and the report of a process that lives through both. */
  ghost predicate Outcome(
    d: Disk, first: seq<Write>, second: seq<Write>, report: Option<Receipt>, power: nat,
    e: Disk, updated: Option<Option<Receipt>>)
  {
    && e == TwoStages(d, first, second, power)
    && (updated.Some? ==>
          && |first| + |second| <= power && updated.value == report && (report.Some? ==> e.receipt == report))
  }

  lemma OutcomeOfBoth(
    d: Disk, d1: Disk, first: seq<Write>, second: seq<Write>, report: Option<Receipt>, rest: nat,
    e: Disk, updated: Option<Option<Receipt>>)
    requires d1 == After(d, first) && e == Surviving(d1, second, rest)
    requires updated.Some? ==> |second| <= rest && updated.value == report && (report.Some? ==> e.receipt == report)
    ensures Outcome(d, first, second, report, |first| + rest, e, updated)
  {
  }

  lemma CutIteration(
    c: Timing, d: Disk, r: Receipt, e: Disk, epoch: int, monotonic: int, o: Observation, power: nat)
    requires power < |SnapshotWrites(c, d, epoch, o).writes|
    requires e == Surviving(d, SnapshotWrites(c, d, epoch, o).writes, power)
    ensures (e, None) in Iterations(c, d, r, epoch, monotonic, o, power)
  {
  }

  lemma WholeIteration(
    c: Timing, d: Disk, r: Receipt, e: Disk, updated: Option<Option<Receipt>>, epoch: int, monotonic: int,
    o: Observation, power: nat, s: Sampling, sample: Sample, record: seq<Write>, report: Option<Receipt>)
    requires s == SnapshotWrites(c, d, epoch, o) && sample == Sampled(s, epoch, monotonic, o)
    requires record == RecordWrites(c, After(d, s.writes), r, sample) && report == AppendSample(c, r, sample)
    requires Outcome(d, s.writes, record, report, power, e, updated)
    ensures (e, updated) in Iterations(c, d, r, epoch, monotonic, o, power)
  {
  }

  predicate GoesOn(updated: Option<Option<Receipt>>) {
    updated.Some? && updated.value.Some? && updated.value.value.status == InProgress
  }

  lemma IterationSteps(
    c: Timing, d: Disk, r: Receipt, e: Disk, updated: Option<Option<Receipt>>,
    waited: int, epoch: int, monotonic: int, o: Observation, power: nat)
    requires Resumed(c, d) && Samplable(c, d) && d.receipt == Some(r)
    requires IsDue(c, r.samples[|r.samples| - 1], epoch, waited) && waited <= monotonic
    requires (e, updated) in Iterations(c, d, r, epoch, monotonic, o, power)
    ensures System(e, GoesOn(updated)) in RoundResults(c, d)
  {
    var t := System(e, GoesOn(updated));
    assert Iterates(c, System(d, true), t, waited, epoch, monotonic, o, power);
    IterationResult(c, d, t, waited, epoch, monotonic, o, power);
  }

  lemma ClosingResult(c: Timing, d: Disk, e: Disk, stop: StopCheck, gap: bool, power: nat)
    requires Closes(c, System(d, true), System(e, false), stop, gap, power)
    requires SameEvidence(d, e) && Certified(c, e) && (Resumed(c, d) ==> IterationSafe(c, d, e))
    requires Samplable(c, d) ==> Resumed(c, d)
    ensures System(e, false) in RoundResults(c, d)
  {
  }

  /** What every step keeps on a disk that a completed start left behind. */
  ghost predicate Sound(c: Timing, s: System) {
    Aligned(c, s.disk) && Certified(c, s.disk)
    && (s.up ==> NotCompleted(s.disk) && (Samplable(c, s.disk) ==> Resumed(c, s.disk)))
  }

  ghost predicate Keeps(c: Timing, s: System, t: System) {
    Sound(c, t) && Extends(s.disk, t.disk)
  }

  lemma NothingKeeps(c: Timing, s: System, t: System)
    requires Sound(c, s) && t.disk == s.disk && !t.up
    ensures Keeps(c, s, t)
  {
  }

  lemma BootKeeps(c: Timing, s: System, t: System, power: nat)
    requires Sound(c, s) && Boots(c, s, t, power)
    ensures Keeps(c, s, t)
  {
    var writes := BootWrites(c, s.disk);
    if power == 0 {
      NothingKeeps(c, s, t);
    } else {
      SurvivingCons(s.disk, writes[0], [], power);
      assert writes == [writes[0]] + [];
      SameEvidenceKeeps(c, s.disk, t.disk);
      if EnvelopeOf(c, s.disk, Running, None).Some? {
        RestartAccepted(c, s.disk, t.disk);
      }
    }
  }

  lemma CloseKeeps(c: Timing, s: System, t: System, stop: StopCheck, gap: bool, power: nat)
    requires Sound(c, s) && Closes(c, s, t, stop, gap, power)
    ensures Keeps(c, s, t)
  {
    var ending := EndingOf(c, s.disk, stop, gap).value;
    var writes := EnvelopeWrites(c, s.disk, ending.status, ending.violation);
    if power == 0 || writes == [] {
      NothingKeeps(c, s, t);
    } else {
      SurvivingCons(s.disk, writes[0], [], power);
      assert writes == [writes[0]] + [];
      CompletionIffOneToOne(c, s.disk);
      EnvelopeOnlyIsSafe(c, s.disk, t.disk);
      SameEvidenceKeeps(c, s.disk, t.disk);
    }
  }

  lemma IterateKeeps(
    c: Timing, s: System, t: System, waited: int, epoch: int, monotonic: int, o: Observation, power: nat)
    requires Sound(c, s) && Iterates(c, s, t, waited, epoch, monotonic, o, power)
    ensures Keeps(c, s, t)
  {
    var r := s.disk.receipt.value;
    var sampling := SnapshotWrites(c, s.disk, epoch, o);
    var d1 := After(s.disk, sampling.writes);
    var sample := Sampled(sampling, epoch, monotonic, o);
    var record := RecordWrites(c, d1, r, sample);
    IterationIsCrashSafe(c, s.disk, r, epoch, monotonic, o, sampling, d1, sample, record, power, t.disk);
  }

  lemma StepKeeps(c: Timing, s: System, t: System)
    requires Sound(c, s) && Step(c, s, t)
    ensures Keeps(c, s, t)
  {
    if t.disk == s.disk && !t.up {
      NothingKeeps(c, s, t);
    } else if power: nat :| Boots(c, s, t, power) {
      BootKeeps(c, s, t, power);
    } else if stop, gap, power: nat :| Closes(c, s, t, stop, gap, power) {
      CloseKeeps(c, s, t, stop, gap, power);
    } else {
      var waited, epoch, monotonic, o, power: nat :| Iterates(c, s, t, waited, epoch, monotonic, o, power);
      IterateKeeps(c, s, t, waited, epoch, monotonic, o, power);
    }
  }

  ghost predicate StepAt(c: Timing, h: seq<System>, i: nat)
    requires 0 < i < |h|
  {
    Step(c, h[i - 1], h[i])
  }

  /** Any number of daemons one after another, each stopped or killed at any instant. */
  ghost predicate Runs(c: Timing, h: seq<System>) {
    forall i {:trigger StepAt(c, h, i)} | 0 < i < |h| :: StepAt(c, h, i)
  }

  /**
   Crash and restart as often as you like after a completed start: samples, chain and snapshots stay
   aligned, a completion envelope certifies a one-to-one match, and nothing recorded is ever lost.
   */
  lemma {:induction false} RestartsStayAligned(c: Timing, h: seq<System>, n: nat)
    requires Runs(c, h) && n < |h| && Sound(c, h[0])
    ensures Sound(c, h[n]) && Extends(h[0].disk, h[n].disk)
  {
    if n != 0 {
      RestartsStayAligned(c, h, n - 1);
      assert StepAt(c, h, n);
      StepKeeps(c, h[n - 1], h[n]);
      ExtendsTransitive(h[0].disk, h[n - 1].disk, h[n].disk);
    }
  }

  /** The runs of the machine from one system to another. */
  ghost function RunsBetween(c: Timing, s: System, t: System): iset<seq<System>> {
    iset h: seq<System> | h != [] && h[0] == s && h[|h| - 1] == t && Runs(c, h)
  }

  lemma RunsOn(c: Timing, d: Disk, h: seq<System>, before: Disk, t: System) returns (more: seq<System>)
    requires h in RunsBetween(c, System(d, false), System(before, true)) && t in RoundResults(c, before)
    ensures more in RunsBetween(c, System(d, false), t)
  {
    more := h + [t];
    forall i | 0 < i < |more| ensures StepAt(c, more, i) {
      assert i < |h| ==> StepAt(c, h, i);
    }
  }

  lemma BootRuns(c: Timing, d: Disk, t: System, power: nat) returns (h: seq<System>)
    requires Boots(c, System(d, false), t, power)
    ensures h in RunsBetween(c, System(d, false), t)
  {
    h := [System(d, false), t];
    assert Step(c, System(d, false), t);
  }
}
