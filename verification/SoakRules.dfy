/**
 The rules of a soak in plain numbers: hours, seconds and milliseconds, files and entries.  Each
 says what a check of the model amounts to without using the checks and clocks it is built from.
 */
module SoakRules {
  import opened Wrappers
  import opened SoakModel
  import opened SoakTheorems
  import opened SoakProcess

  // ---- Clocks ----

  /** The promised hours have gone by on the wall clock. */
  predicate PastOnWall(c: Timing, epoch: int) {
    c.started + c.hours * 60 * 60 * 1000 <= epoch
  }

  predicate PastOnMonotonic(c: Timing, monotonic: int) {
    c.startedMonotonic + c.hours * 60 * 60 * 1000 <= monotonic
  }

  /** Both instants lie so many seconds after the two reference instants, up to twice as many. */
  predicate IsTimely(seconds: int, fromEpoch: int, fromMonotonic: int, epoch: int, monotonic: int) {
    && fromEpoch + seconds * 1000 <= epoch <= fromEpoch + seconds * 2000
    && fromMonotonic + seconds * 1000 <= monotonic <= fromMonotonic + seconds * 2000
  }

  /** The first sample within an interval of the start, each later one one to two intervals after the one before. */
  predicate ComesInTime(c: Timing, before: Option<Sample>, s: Sample) {
    match before
    case None =>
      && c.started <= s.epoch <= c.started + c.interval * 1000
      && c.startedMonotonic <= s.monotonic <= c.startedMonotonic + c.interval * 1000
    case Some(b) => IsTimely(c.interval, b.epoch, b.monotonic, s.epoch, s.monotonic)
  }

  /** At most one interval past the promised hours. */
  predicate BeforeTheLimit(c: Timing, s: Sample) {
    && s.epoch <= c.started + c.hours * 3600 * 1000 + c.interval * 1000
    && s.monotonic <= c.startedMonotonic + c.hours * 3600 * 1000 + c.interval * 1000
  }

  predicate IsLegal(s: Sample) {
    && s.epoch > 0 && s.monotonic > 0
    && (s.passed <==> s.digestMatches && s.clean && s.violations == 0 && s.rows == 0)
    && (!s.observed ==> s.violations >= 1 && !s.clean && !s.misattributed)
  }

  predicate IsTimingLegal(c: Timing) {
    24 <= c.hours <= 72 && 60 <= c.interval <= 3600 && c.startedMonotonic >= 1
  }

  function Before(samples: seq<Sample>, i: nat): Option<Sample>
    requires i <= |samples|
  {
    if i == 0 then None else Some(samples[i - 1])
  }

  predicate SampleStands(c: Timing, samples: seq<Sample>, i: nat)
    requires i < |samples|
  {
    && IsLegal(samples[i]) && ComesInTime(c, Before(samples, i), samples[i]) && BeforeTheLimit(c, samples[i])
    && c.started <= samples[i].epoch && c.startedMonotonic <= samples[i].monotonic
  }

  /** What the status says about the samples. */
  predicate StatusFits(c: Timing, r: Receipt) {
    match r.status
    case InProgress =>
      forall i | 0 <= i < |r.samples| ::
        r.samples[i].passed && (i == |r.samples| - 1 ==> !PastOnWall(c, r.samples[i].epoch)
                                                         && !PastOnMonotonic(c, r.samples[i].monotonic))
    case Complete =>
      && r.samples != []
      && PastOnWall(c, r.samples[|r.samples| - 1].epoch) && PastOnMonotonic(c, r.samples[|r.samples| - 1].monotonic)
      && forall i | 0 <= i < |r.samples| :: r.samples[i].passed
    case Failed => r.samples != [] && !r.samples[|r.samples| - 1].passed
  }

  lemma SampleRules(c: Timing, samples: seq<Sample>, i: nat)
    requires i < |samples|
    ensures SampleStands(c, samples, i) <==>
            SampleOk(samples[i]) && InWindow(c, samples[i]) && Follows(c, samples[..i], samples[i])
  {
    if i > 0 {
      assert samples[..i][i - 1] == samples[i - 1];
    }
  }

  ghost predicate AllStand(c: Timing, samples: seq<Sample>) {
    forall i {:trigger SampleStands(c, samples, i)} | 0 <= i < |samples| :: SampleStands(c, samples, i)
  }

  lemma SamplesRules(c: Timing, samples: seq<Sample>)
    ensures SamplesOk(c, samples) <==> AllStand(c, samples)
  {
    forall i | 0 <= i < |samples|
      ensures SampleStands(c, samples, i) <==>
              SampleOk(samples[i]) && InWindow(c, samples[i]) && Follows(c, samples[..i], samples[i])
    {
      SampleRules(c, samples, i);
    }
  }

  lemma StatusRules(c: Timing, r: Receipt)
    ensures StatusOk(c, r) <==> StatusFits(c, r)
  {
    AllPassedIff(r.samples);
  }

  lemma AllPassedIff(samples: seq<Sample>)
    ensures (forall s | s in samples :: s.passed) <==> (forall i | 0 <= i < |samples| :: samples[i].passed)
  {
  }

  /** A receipt is valid exactly when its timing, each sample and its status are as they should be. */
  lemma ReceiptRules(c: Timing, r: Receipt)
    ensures ReceiptOk(c, r) <==> IsTimingLegal(c) && AllStand(c, r.samples) && StatusFits(c, r)
  {
    SamplesRules(c, r.samples);
    StatusRules(c, r);
    if c.Valid() && SamplesOk(c, r.samples) {
      CountGuardIsImplied(c, r.samples);
    }
  }

  /** A complete soak has lasted the promised hours on both clocks. */
  lemma CompleteIsPastBothEnds(c: Timing, r: Receipt)
    requires ReceiptOk(c, r) && r.status == Complete
    ensures r.samples != []
    ensures var last := r.samples[|r.samples| - 1];
            && c.started + c.hours * 60 * 60 * 1000 <= last.epoch
            && c.startedMonotonic + c.hours * 60 * 60 * 1000 <= last.monotonic
  {
    ReceiptRules(c, r);
  }

  /** So has every soak with a completion envelope that is certified, as all of a resumed daemon's are. */
  lemma CompletionMeansThePromisedHours(c: Timing, d: Disk)
    requires Certified(c, d) && d.envelope.Some? && d.envelope.value.status == Completed
    ensures Samples(d) != []
    ensures c.started + c.hours * 60 * 60 * 1000 <= Samples(d)[|Samples(d)| - 1].epoch
    ensures c.startedMonotonic + c.hours * 60 * 60 * 1000 <= Samples(d)[|Samples(d)| - 1].monotonic
  {
    CompleteIsPastBothEnds(c, d.receipt.value);
  }

  /**
   A running receipt takes exactly the legal samples that come in time, before the limit, and that
   do not pass beyond the promised hours on one clock alone.  Before those hours a passing sample
   leaves it running.
   */
  lemma AppendRules(c: Timing, r: Receipt, s: Sample)
    requires ReceiptOk(c, r) && r.status == InProgress
    ensures var past := PastOnWall(c, s.epoch);
            && (AppendSample(c, r, s).Some? <==>
                  && IsLegal(s) && ComesInTime(c, Before(r.samples, |r.samples|), s) && BeforeTheLimit(c, s)
                  && (s.passed ==> past == PastOnMonotonic(c, s.monotonic)))
            && (AppendSample(c, r, s).Some? ==>
                  AppendSample(c, r, s) ==
                  Some(Receipt(if !s.passed then Failed else if past then Complete else InProgress, r.samples + [s])))
  {
    AppendIff(c, r, s);
    if r.samples != [] {
      assert InWindow(c, r.samples[|r.samples| - 1]);
    }
  }

  /** A completed soak leaves no gap on the wall clock of its promised hours. */
  lemma CompletedSoakCoversItsHours(c: Timing, r: Receipt, t: int)
    requires ReceiptOk(c, r) && r.status == Complete && c.started <= t <= c.started + c.hours * 60 * 60 * 1000
    ensures exists i :: 0 <= i < |r.samples| && r.samples[i].passed
                        && r.samples[i].epoch - c.interval * 1000 <= t <= r.samples[i].epoch + c.interval * 1000
  {
    CompletedSoakCoversItsWindow(c, r, t);
  }

  lemma CompletedSoakCoversMonotonicHours(c: Timing, r: Receipt, t: int)
    requires ReceiptOk(c, r) && r.status == Complete
    requires c.startedMonotonic <= t <= c.startedMonotonic + c.hours * 60 * 60 * 1000
    ensures exists i :: 0 <= i < |r.samples| && r.samples[i].passed
                        && r.samples[i].monotonic - c.interval * 1000 <= t <= r.samples[i].monotonic + c.interval * 1000
  {
    CompletedSoakCoversMonotonicWindow(c, r, t);
  }

  /** The wait ends at an instant that comes in time after the last sample. */
  lemma DueRules(c: Timing, last: Sample, epoch: int, monotonic: int)
    ensures IsDue(c, last, epoch, monotonic) <==> IsTimely(c.interval, last.epoch, last.monotonic, epoch, monotonic)
  {
  }

  // ---- Samples ----

  /** What a recorded sampling reports: the rows it saw, and violations exactly when it found something. */
  lemma RecordedSampleRules(epoch: int, monotonic: int, content: Content, o: Observation)
    ensures var s := Sampled(Sampling([], true), epoch, monotonic, o.(content := Some(content)));
            && s.epoch == epoch && s.monotonic == monotonic && s.digestMatches == o.digestMatches
            && s.observed == o.readable && s.rows == (if o.readable then content.rows else 0)
            && (s.violations == 0 <==> o.readable && o.digestMatches && o.drift == 0 && content.rows == 0)
            && (s.clean <==> o.readable && !o.error) && (s.misattributed <==> !o.readable && o.error)
  {
  }

  /** An unmade snapshot leaves a legal sample that fails, unobserved. */
  lemma UnrecordedSampleRules(epoch: int, monotonic: int, o: Observation)
    ensures var s := Sampled(Sampling([], false), epoch, monotonic, o);
            && s.epoch == epoch && s.monotonic == monotonic && !s.passed && !s.observed
            && s.rows == 0 && s.violations == 1 && s.digestMatches && !s.clean && !s.misattributed
  {
  }

  // ---- Files ----

  /** The database a ledger entry names is there, with the contents it states. */
  predicate IsBacked(d: Disk, e: Entry) {
    e.epoch in d.databases && d.databases[e.epoch].digest == e.content.digest && d.databases[e.epoch].rows == e.content.rows
  }

  predicate Names(e: Entry, s: Sample) {
    e.epoch == s.epoch && (s.observed ==> e.content.rows == s.rows)
  }

  predicate EachBacked(d: Disk, l: seq<Entry>) {
    && (forall i | 0 <= i < |l| :: IsBacked(d, l[i]))
    && forall i, j | 0 <= i < j < |l| :: l[i].epoch != l[j].epoch
  }

  /** Every sample has its entry, and at most one later entry follows where that is allowed. */
  predicate MatchesSamples(l: seq<Entry>, samples: seq<Sample>, allowTrailing: bool) {
    && |samples| <= |l|
    && (forall i | 0 <= i < |samples| :: Names(l[i], samples[i]))
    && (|l| == |samples|
        || (allowTrailing && |l| == |samples| + 1
            && (samples != [] ==> samples[|samples| - 1].epoch < l[|samples|].epoch)))
  }

  lemma BackedIff(d: Disk, e: Entry)
    ensures EntryOk(d, e, None) <==> IsBacked(d, e)
  {
  }

  lemma NamedIff(d: Disk, e: Entry, s: Sample)
    ensures EntryOk(d, e, Some(s)) <==> IsBacked(d, e) && Names(e, s)
  {
  }

  /** The ledger check, with the samples at hand. */
  lemma LedgerRules(d: Disk, l: seq<Entry>, samples: seq<Sample>, allowTrailing: bool)
    ensures LedgerCheck(d, l, Some(samples), allowTrailing) ==
            if EachBacked(d, l) && MatchesSamples(l, samples, allowTrailing) then Some(l[..|samples|]) else None
  {
    LedgerCheckIffRecorded(d, samples, l, allowTrailing);
    forall i | 0 <= i < |l| ensures EntryOk(d, l[i], None) <==> IsBacked(d, l[i]) {
      BackedIff(d, l[i]);
    }
    forall i | 0 <= i < |l| && i < |samples|
      ensures EntryOk(d, l[i], Some(samples[i])) <==> IsBacked(d, l[i]) && Names(l[i], samples[i])
    {
      NamedIff(d, l[i], samples[i]);
    }
  }

  /** And without. */
  lemma BareLedgerRules(d: Disk, l: seq<Entry>, allowTrailing: bool)
    ensures LedgerCheck(d, l, None, allowTrailing) == if EachBacked(d, l) then Some(l) else None
  {
    forall i | 0 <= i < |l| ensures EntryOk(d, l[i], None) <==> IsBacked(d, l[i]) {
      BackedIff(d, l[i]);
    }
  }

  /** `e` is the one entry of the ledger at the sample's instant. */
  predicate IsOnlyEntry(l: seq<Entry>, epoch: int, i: int) {
    && 0 <= i < |l| && l[i].epoch == epoch
    && forall j | 0 <= j < |l| && l[j].epoch == epoch :: j == i
  }

  lemma {:induction false} OneMatchIff(l: seq<Entry>, epoch: int)
    ensures |WithEpoch(l, epoch)| == 0 <==> forall i | 0 <= i < |l| :: l[i].epoch != epoch
    ensures |WithEpoch(l, epoch)| == 1 ==> exists i :: IsOnlyEntry(l, epoch, i) && WithEpoch(l, epoch) == [l[i]]
    ensures forall i | IsOnlyEntry(l, epoch, i) :: WithEpoch(l, epoch) == [l[i]]
    decreases |l|
  {
    if l != [] {
      var n := |l| - 1;
      OneMatchIff(l[..n], epoch);
      if l[n].epoch == epoch {
        if |WithEpoch(l, epoch)| == 1 {
          assert IsOnlyEntry(l, epoch, n);
        }
        forall i | IsOnlyEntry(l, epoch, i) ensures WithEpoch(l, epoch) == [l[i]] {
          assert i == n;
        }
      } else {
        if |WithEpoch(l, epoch)| == 1 {
          var i :| IsOnlyEntry(l[..n], epoch, i) && WithEpoch(l[..n], epoch) == [l[..n][i]];
          assert IsOnlyEntry(l, epoch, i);
        }
        forall i | IsOnlyEntry(l, epoch, i) ensures WithEpoch(l, epoch) == [l[i]] {
          assert IsOnlyEntry(l[..n], epoch, i);
        }
      }
    }
  }

  /** A sample is bound to nothing when unobserved, else to its only entry if that is backed and names it. */
  lemma BindingRules(d: Disk, s: Sample, e: Entry)
    ensures Binding(d, s) == Some(None) <==> !s.observed
    ensures Binding(d, s) == Some(Some(e)) <==>
            && s.observed && d.ledger.Some? && IsBacked(d, e) && Names(e, s)
            && exists i :: IsOnlyEntry(d.ledger.value, s.epoch, i) && d.ledger.value[i] == e
  {
    NamedIff(d, e, s);
    if d.ledger.Some? {
      OneMatchIff(d.ledger.value, s.epoch);
    }
  }

  /** Link i of an exact chain signs sample i, what it is bound to, and the signature before. */
  lemma ChainRules(d: Disk, samples: seq<Sample>, i: nat)
    requires ChainExact(d, samples) && i < |samples|
    ensures i < |d.chain| == |samples| && Binding(d, samples[i]).Some?
    ensures var signed := Payload(i + 1, samples[i], Binding(d, samples[i]).value,
                                  if i == 0 then None else Some(d.chain[i - 1].signature));
            d.chain[i].payload == signed && d.chain[i].signature == Hmac(signed)
  {
    assert LinkOk(d, i, samples[i]);
    if i > 0 {
      assert d.chain[..i][i - 1] == d.chain[i - 1];
    }
  }

  /** The seal signs receipt, ledger and chain as they are. */
  lemma SealRules(d: Disk)
    ensures SealOk(d) <==>
            && d.receipt.Some? && d.ledger.Some? && d.seal.Some?
            && d.seal.value.payload.receipt == d.receipt.value && d.seal.value.payload.ledger == d.ledger.value
            && d.seal.value.payload.chain == d.chain && d.seal.value.signature == SealHmac(d.seal.value.payload)
  {
  }

  // ---- Envelopes ----

  function SampleCount(d: Disk): nat {
    if d.receipt.Some? then |d.receipt.value.samples| else 0
  }

  /** An envelope that does not fail closed counts the receipt's samples and their snapshots. */
  lemma EnvelopeCounts(c: Timing, d: Disk, status: MonitorStatus, violation: Option<Violation>)
    requires status != FailedClosed && EnvelopeOf(c, d, status, violation).Some?
    ensures var e := EnvelopeOf(c, d, status, violation).value;
            && e.status == status && e.violation == violation && e.samples == SampleCount(d)
            && e.snapshots == if d.ledger.None? then 0 else if d.receipt.Some? then SampleCount(d) else |d.ledger.value|
  {
    if d.ledger.Some? {
      BareLedgerRules(d, d.ledger.value, status != Completed);
      if d.receipt.Some? {
        LedgerRules(d, d.ledger.value, d.receipt.value.samples, status != Completed);
      }
    }
  }

  /** Failing closed is always possible; it counts what is valid. */
  lemma FailingClosedCounts(c: Timing, d: Disk, violation: Option<Violation>)
    ensures EnvelopeOf(c, d, FailedClosed, violation).Some?
    ensures var e, valid := EnvelopeOf(c, d, FailedClosed, violation).value, d.receipt.Some? && ReceiptOk(c, d.receipt.value);
            && e.status == FailedClosed && e.violation == violation
            && e.samples == (if valid then SampleCount(d) else 0)
            && e.snapshots ==
               if d.ledger.None? || !EachBacked(d, d.ledger.value) then 0
               else if !valid then |d.ledger.value|
               else if MatchesSamples(d.ledger.value, d.receipt.value.samples, true) then SampleCount(d) else 0
  {
    if d.ledger.Some? {
      BareLedgerRules(d, d.ledger.value, true);
      if d.receipt.Some? {
        LedgerRules(d, d.ledger.value, d.receipt.value.samples, true);
      }
    }
  }

  /** Stopping needs a valid receipt, if there is one, and a backed ledger that matches it. */
  lemma StoppingIsSupportedIff(c: Timing, d: Disk, violation: Option<Violation>)
    ensures EnvelopeOf(c, d, Stopped, violation).Some? <==>
            && (d.receipt.Some? ==> ReceiptOk(c, d.receipt.value))
            && (d.ledger.Some? ==> EachBacked(d, d.ledger.value))
            && (d.receipt.Some? && d.ledger.Some? ==>
                  MatchesSamples(d.ledger.value, d.receipt.value.samples, true))
  {
    if d.ledger.Some? {
      BareLedgerRules(d, d.ledger.value, true);
      if d.receipt.Some? {
        LedgerRules(d, d.ledger.value, d.receipt.value.samples, true);
      }
    }
  }
}
