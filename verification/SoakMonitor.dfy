/**
 The soak monitor as the daemon drives it: every step rewrites one durable file, and the process
 may die between any two writes.  `power` is the number of writes it still gets to make.
 */
module SoakMonitor {
  import opened Wrappers
  import opened SoakModel
  import opened SoakTheorems
  import opened SoakProcess

  /** The answers of one instant: the wall clock, how far the monotonic clock moved, and the rest. */
  datatype Moment = Moment(epoch: int, gap: nat, stop: StopCheck, observation: Observation)

  datatype Persisted = Written | Unsupported | Died

  /** How the process ended: without a word, or with an exit code. */
  datatype Exit = Gone | Code(code: int)

  /** The envelope status that reports a receipt status. */
  function Announced(status: Status): MonitorStatus {
    match status
    case Failed => FailedClosed
    case InProgress => Running
    case Complete => Completed
  }

  /** The envelope reports the updated receipt, or that the sample was refused. */
  predicate Reports(envelope: Option<Envelope>, updated: Option<Receipt>) {
    && envelope.Some?
    && envelope.value.status == if updated.None? then FailedClosed else Announced(updated.value.status)
  }

  class Monitor {
    const timing: Timing
    var databases: map<int, Content>
    var ledger: Option<seq<Entry>>
    var orphans: seq<Entry>
    var sampleFiles: map<nat, Sample>
    var chain: seq<Link>
    var receipt: Option<Receipt>
    var seal: Option<Seal>
    var envelope: Option<Envelope>
    var power: nat
    var tick: nat
    var monotonic: int

    function Snapshot(): Disk
      reads this
    {
      Disk(databases, ledger, orphans, sampleFiles, chain, receipt, seal, envelope)
    }

    constructor (timing: Timing)
      ensures this.timing == timing
      ensures Snapshot() == EMPTY
    {
      this.timing := timing;
      databases, ledger, orphans, sampleFiles := map[], None, [], map[];
      chain, receipt, seal, envelope := [], None, None, None;
    }

    /** One atomic file replacement, unless the process dies first. */
    method Replace(w: Write) returns (alive: bool)
      modifies this
      ensures Snapshot() == Surviving(old(Snapshot()), [w], old(power))
      ensures Snapshot() == if alive then Apply(old(Snapshot()), w) else old(Snapshot())
      ensures alive <==> 0 < old(power)
      ensures power == if alive then old(power) - 1 else 0
      ensures tick == old(tick) && monotonic == old(monotonic)
    {
      alive := 0 < power;
      SurvivingCons(Snapshot(), w, [], power);
      assert [w] + [] == [w];
      if alive {
        power := power - 1;
        match w
        case DatabaseFile(epoch, content) => databases := databases[epoch := content];
        case OrphanFile(entries) => orphans := entries;
        case LedgerFile(entries) => ledger := Some(entries);
        case SampleFile(index, sample) => sampleFiles := sampleFiles[index := sample];
        case ChainFile(links) => chain := links;
        case ReceiptFile(r) => receipt := Some(r);
        case SealFile(s) => seal := Some(s);
        case EnvelopeFile(e) => envelope := Some(e);
      }
    }

    // ---- Checks ----

    method FindBinding(s: Sample) returns (binding: Option<Option<Entry>>)
      ensures binding == Binding(Snapshot(), s)
    {
      if !s.observed { return Some(None); }
      if ledger.None? { return None; }
      var l := ledger.value;
      var matches: seq<Entry> := [];
      for i := 0 to |l|
        invariant matches == WithEpoch(l[..i], s.epoch)
      {
        assert l[..i + 1][..i] == l[..i];
        if l[i].epoch == s.epoch {
          matches := matches + [l[i]];
        }
      }
      assert l[..|l|] == l;
      return if |matches| == 1 && EntryOk(Snapshot(), matches[0], Some(s)) then Some(Some(matches[0])) else None;
    }

    /** Link by link against the samples; one entry too many is refused whatever it says. */
    method ValidateChain(samples: seq<Sample>) returns (exact: bool)
      ensures exact <==> ChainExact(Snapshot(), samples)
    {
      if |chain| != |samples| { return false; }
      var previous: Option<Signature> := None;
      for i := 0 to |samples|
        invariant previous == Previous(chain[..i])
        invariant forall j | 0 <= j < i :: LinkOk(Snapshot(), j, samples[j])
      {
        var binding := FindBinding(samples[i]);
        if binding.None? || chain[i] != SignedLink(Payload(i + 1, samples[i], binding.value, previous)) {
          assert !LinkOk(Snapshot(), i, samples[i]);
          return false;
        }
        previous := Some(chain[i].signature);
        assert chain[..i + 1][i] == chain[i];
      }
      return true;
    }

    /** Entry by entry against the samples, paths distinct, with at most one newer trailing entry. */
    method ValidateLedger(l: seq<Entry>, samples: Option<seq<Sample>>, allowTrailing: bool)
      returns (result: Option<seq<Entry>>)
      ensures result == LedgerCheck(Snapshot(), l, samples, allowTrailing)
    {
      var trailing := HasTrailing(l, samples);
      if trailing && !allowTrailing { return None; }
      var kept := if trailing then l[..|l| - 1] else l;
      if samples.Some? && |kept| != |samples.value| { return None; }
      var seen: set<int> := {};
      for i := 0 to |kept|
        invariant forall j | 0 <= j < i :: kept[j].epoch in seen
        invariant forall epoch | epoch in seen :: exists j :: 0 <= j < i && kept[j].epoch == epoch
        invariant forall j, k | 0 <= j < k < i :: kept[j].epoch != kept[k].epoch
        invariant forall j | 0 <= j < i ::
                    EntryOk(Snapshot(), kept[j], if samples.Some? then Some(samples.value[j]) else None)
      {
        var sample := if samples.Some? then Some(samples.value[i]) else None;
        if !EntryOk(Snapshot(), kept[i], sample) || kept[i].epoch in seen {
          assert !KeptOk(Snapshot(), kept, samples);
          return None;
        }
        seen := seen + {kept[i].epoch};
      }
      if trailing {
        var newest := l[|l| - 1];
        if !EntryOk(Snapshot(), newest, None) || newest.epoch in seen { return None; }
        if samples.value != [] && newest.epoch <= samples.value[|samples.value| - 1].epoch { return None; }
      }
      return Some(kept);
    }

    method ComposeEnvelope(status: MonitorStatus, violation: Option<Violation>) returns (result: Option<Envelope>)
      ensures result == EnvelopeOf(timing, Snapshot(), status, violation)
    {
      if status == Completed && receipt.None? { return None; }
      var samples: Option<seq<Sample>> := None;
      if receipt.Some? {
        var shown := ReceiptOk(timing, receipt.value)
          && (status != Completed || (receipt.value.status == Complete && ledger.Some?));
        if shown && ChecksChain(status) {
          shown := ValidateChain(receipt.value.samples);
        }
        if !shown && status != FailedClosed { return None; }
        samples := if shown then Some(receipt.value.samples) else None;
      }
      var snapshots: seq<Entry> := [];
      if ledger.Some? {
        var checked := ValidateLedger(ledger.value, samples, status != Completed);
        if checked.None? && status != FailedClosed { return None; }
        snapshots := if checked.Some? then checked.value else [];
      }
      if status == Completed && !SealOk(Snapshot()) { return None; }
      return Some(Envelope(status, violation, if samples.Some? then |samples.value| else 0, |snapshots|));
    }

    method PersistEnvelope(status: MonitorStatus, violation: Option<Violation>) returns (result: Persisted)
      modifies this
      ensures Snapshot() ==
              Surviving(old(Snapshot()), EnvelopeWrites(timing, old(Snapshot()), status, violation), old(power))
      ensures result.Unsupported? <==> EnvelopeOf(timing, old(Snapshot()), status, violation).None?
      ensures result.Written? ==>
                && 0 < old(power)
                && Snapshot() == Apply(old(Snapshot()),
                                       EnvelopeFile(EnvelopeOf(timing, old(Snapshot()), status, violation).value))
      ensures result.Died? ==> old(power) == 0
      ensures !result.Written? ==> Snapshot() == old(Snapshot())
      ensures power == if result.Written? then old(power) - 1 else old(power)
      ensures tick == old(tick) && monotonic == old(monotonic)
    {
      var composed := ComposeEnvelope(status, violation);
      if composed.None? { return Unsupported; }
      var alive := Replace(EnvelopeFile(composed.value));
      return if alive then Written else Died;
    }

    // ---- Sampling ----

    /** Appends the snapshot unless it is archived already, and rewrites the archive either way. */
    method ArchiveOrphan(e: Entry) returns (alive: bool)
      modifies this
      ensures Snapshot() == Surviving(old(Snapshot()), [OrphanFile(Archived(old(orphans), e))], old(power))
      ensures alive ==> Snapshot() == Apply(old(Snapshot()), OrphanFile(Archived(old(orphans), e)))
      ensures alive <==> 0 < old(power)
      ensures power == if alive then old(power) - 1 else 0
      ensures tick == old(tick) && monotonic == old(monotonic)
    {
      for i := 0 to |orphans|
        invariant e !in orphans[..i]
      {
        if orphans[i] == e {
          alive := Replace(OrphanFile(orphans));
          return;
        }
        assert orphans[..i + 1] == orphans[..i] + [orphans[i]];
      }
      assert orphans[..|orphans|] == orphans;
      alive := Replace(OrphanFile(orphans + [e]));
    }

    method AppendLedger(kept: seq<Entry>, e: Entry, o: Observation) returns (alive: bool, recorded: bool)
      modifies this
      ensures var s := LedgerAppend(old(Snapshot()), kept, e, o);
              && Snapshot() == Surviving(old(Snapshot()), s.writes, old(power))
              && (alive <==> |s.writes| <= old(power)) && (alive ==> recorded == s.recorded)
              && power == if alive then old(power) - |s.writes| else 0
      ensures tick == old(tick) && monotonic == old(monotonic)
    {
      var checked := ValidateLedger(kept + [e], None, true);
      if checked.None? || o.ledgerFails { return true, false; }
      alive := Replace(LedgerFile(kept + [e]));
      recorded := true;
    }

    method ArchiveThenAppend(orphan: Entry, kept: seq<Entry>, e: Entry, o: Observation)
      returns (alive: bool, recorded: bool)
      modifies this
      ensures var archive := OrphanFile(Archived(old(orphans), orphan));
              var s := LedgerAppend(Apply(old(Snapshot()), archive), kept, e, o);
              && Snapshot() == Surviving(old(Snapshot()), [archive] + s.writes, old(power))
              && (alive <==> 1 + |s.writes| <= old(power)) && (alive ==> recorded == s.recorded)
              && power == if alive then old(power) - 1 - |s.writes| else 0
      ensures tick == old(tick) && monotonic == old(monotonic)
    {
      ghost var archive := OrphanFile(Archived(orphans, orphan));
      SurvivingCons(Snapshot(), archive, LedgerAppend(Apply(Snapshot(), archive), kept, e, o).writes, power);
      recorded := false;
      alive := ArchiveOrphan(orphan);
      if alive {
        alive, recorded := AppendLedger(kept, e, o);
      }
    }

    /** Reconciles the ledger with the receipt: an unmatched trailing entry is archived, then dropped. */
    method AppendSnapshotReceipt(e: Entry, o: Observation) returns (alive: bool, recorded: bool)
      modifies this
      ensures var s := LedgerWrites(timing, old(Snapshot()), e, o);
              && Snapshot() == Surviving(old(Snapshot()), s.writes, old(power))
              && (alive <==> |s.writes| <= old(power)) && (alive ==> recorded == s.recorded)
              && power == if alive then old(power) - |s.writes| else 0
      ensures tick == old(tick) && monotonic == old(monotonic)
    {
      if ledger.None? {
        alive, recorded := AppendLedger([], e, o);
      } else {
        alive, recorded := AppendToLedger(e, o);
      }
    }

    method AppendToLedger(e: Entry, o: Observation) returns (alive: bool, recorded: bool)
      requires ledger.Some?
      modifies this
      ensures var s := LedgerWrites(timing, old(Snapshot()), e, o);
              && Snapshot() == Surviving(old(Snapshot()), s.writes, old(power))
              && (alive <==> |s.writes| <= old(power)) && (alive ==> recorded == s.recorded)
              && power == if alive then old(power) - |s.writes| else 0
      ensures tick == old(tick) && monotonic == old(monotonic)
    {
      if receipt.Some? && !ReceiptOk(timing, receipt.value) { return true, false; }
      var l := ledger.value;
      var samples := if receipt.Some? then Some(receipt.value.samples) else None;
      var kept := ValidateLedger(l, samples, true);
      if kept.None? { return true, false; }
      if HasTrailing(l, samples) {
        if o.archiveFails { return true, false; }
        alive, recorded := ArchiveThenAppend(l[|l| - 1], kept.value, e, o);
      } else {
        alive, recorded := AppendLedger(kept.value, e, o);
      }
    }

    /** The snapshot of one sampling; any failure to make or record it becomes a failed sample. */
    method TakeSample(epoch: int, o: Observation) returns (alive: bool, sample: Sample)
      modifies this
      ensures var s := SnapshotWrites(timing, old(Snapshot()), epoch, o);
              && Snapshot() == Surviving(old(Snapshot()), s.writes, old(power))
              && (alive <==> |s.writes| <= old(power))
              && (alive ==> sample == Sampled(s, epoch, monotonic, o))
              && power == if alive then old(power) - |s.writes| else 0
      ensures tick == old(tick) && monotonic == old(monotonic)
    {
      if o.content.None? || epoch in databases { return true, FailedSample(epoch, monotonic); }
      ghost var d, p := Snapshot(), power;
      var e := Entry(epoch, o.content.value);
      ghost var rest := LedgerWrites(timing, Apply(d, DatabaseFile(epoch, e.content)), e, o);
      SurvivingCons(d, DatabaseFile(epoch, e.content), rest.writes, p);
      alive := Replace(DatabaseFile(epoch, e.content));
      if !alive { return false, FailedSample(epoch, monotonic); }
      var recorded;
      alive, recorded := AppendSnapshotReceipt(e, o);
      sample := if recorded then ParitySample(epoch, monotonic, o.content.value, o) else FailedSample(epoch, monotonic);
    }

    // ---- Recording ----

    /** Signs the sample onto the chain; the process gives up when the append point is off. */
    method AppendSampleAuthentication(index: nat, s: Sample) returns (alive: bool)
      modifies this
      ensures var binding := Binding(old(Snapshot()), s);
              if |old(chain)| + 1 != index || binding.None? then
                !alive && Snapshot() == old(Snapshot()) && power == old(power)
              else
                var link := SignedLink(Payload(index, s, binding.value, Previous(old(chain))));
                && Snapshot() == (if alive then Apply(old(Snapshot()), ChainFile(old(chain) + [link]))
                                  else old(Snapshot()))
                && (alive <==> 0 < old(power)) && power == if alive then old(power) - 1 else 0
      ensures tick == old(tick) && monotonic == old(monotonic)
    {
      if |chain| + 1 != index { return false; }
      var binding := FindBinding(s);
      if binding.None? { return false; }
      var link := SignedLink(Payload(index, s, binding.value, Previous(chain)));
      alive := Replace(ChainFile(chain + [link]));
    }

    /** The envelope that follows the receipt; a complete receipt is sealed first. */
    method Finish(status: Status) returns (alive: bool)
      modifies this
      ensures var writes := FinishWrites(timing, old(Snapshot()), status);
              && Snapshot() == Surviving(old(Snapshot()), writes, old(power))
              && (alive ==> |writes| <= old(power) && envelope.Some?
                            && envelope.value.status == Announced(status))
      ensures tick == old(tick) && monotonic == old(monotonic)
    {
      if status == Complete {
        alive := SealReceipt();
        return;
      }
      var result := PersistEnvelope(Announced(status), if status == Failed then Some(SampleFailed) else None);
      alive := result.Written?;
    }

    method SealReceipt() returns (alive: bool)
      modifies this
      ensures var writes := FinishWrites(timing, old(Snapshot()), Complete);
              && Snapshot() == Surviving(old(Snapshot()), writes, old(power))
              && (alive ==> |writes| <= old(power) && envelope.Some? && envelope.value.status == Completed)
      ensures tick == old(tick) && monotonic == old(monotonic)
    {
      if SealOf(Snapshot()).None? { return false; }
      var sealed := SealFile(SealOf(Snapshot()).value);
      SealIsFirst(timing, Snapshot(), sealed, power);
      alive := Replace(sealed);
      if alive {
        var result := PersistEnvelope(Completed, None);
        alive := result.Written?;
      }
    }

    method PersistReceipt(updated: Receipt) returns (alive: bool)
      modifies this
      ensures var file := ReceiptFile(updated);
              var finish := FinishWrites(timing, Apply(old(Snapshot()), file), updated.status);
              && Snapshot() == Surviving(old(Snapshot()), [file] + finish, old(power))
              && (alive ==> 1 + |finish| <= old(power))
      ensures alive ==> receipt == Some(updated) && envelope.Some? && envelope.value.status == Announced(updated.status)
      ensures tick == old(tick) && monotonic == old(monotonic)
    {
      ghost var file := ReceiptFile(updated);
      ghost var d1 := Apply(Snapshot(), file);
      SurvivingCons(Snapshot(), file, FinishWrites(timing, d1, updated.status), power);
      alive := Replace(ReceiptFile(updated));
      if alive {
        ghost var p := power;
        alive := Finish(updated.status);
        FinishOutcome(timing, d1, updated.status, p, Snapshot());
      }
    }

    /** After the sample file: the link, the receipt, and what announces it. */
    method StoreSample(updated: Receipt, s: Sample) returns (alive: bool)
      modifies this
      ensures var writes := ChainWrites(timing, old(Snapshot()), updated, s);
              Snapshot() == Surviving(old(Snapshot()), writes, old(power)) && (alive ==> |writes| <= old(power))
      ensures alive ==> receipt == Some(updated) && envelope.Some? && envelope.value.status == Announced(updated.status)
      ensures tick == old(tick) && monotonic == old(monotonic)
    {
      ghost var d, p := Snapshot(), power;
      alive := AppendSampleAuthentication(|updated.samples|, s);
      if alive {
        ghost var d1 := Snapshot();
        SurvivingCons(d, ChainFile(d1.chain),
                      [ReceiptFile(updated)] + FinishWrites(timing, Apply(d1, ReceiptFile(updated)), updated.status), p);
        alive := PersistReceipt(updated);
      }
    }

    /** The tail of the loop: append, persist the sample, its link, the receipt and the envelope. */
    method RecordSample(r: Receipt, s: Sample) returns (alive: bool)
      modifies this
      ensures var writes := RecordWrites(timing, old(Snapshot()), r, s);
              Snapshot() == Surviving(old(Snapshot()), writes, old(power)) && (alive ==> |writes| <= old(power))
      ensures alive ==> Reports(envelope, AppendSample(timing, r, s))
      ensures alive && AppendSample(timing, r, s).Some? ==> receipt == AppendSample(timing, r, s)
      ensures tick == old(tick) && monotonic == old(monotonic)
    {
      var updated := AppendSample(timing, r, s);
      if updated.None? {
        var result := PersistEnvelope(FailedClosed, Some(SampleAppendRejected));
        return result.Written?;
      }
      ghost var d, p := Snapshot(), power;
      var file := SampleFile(|updated.value.samples|, s);
      SurvivingCons(d, file, ChainWrites(timing, Apply(d, file), updated.value, s), p);
      alive := Replace(file);
      if !alive { return; }
      alive := StoreSample(updated.value, s);
    }

    // ---- Start ----

    /** Receipt first, then sample file and link: a crash in between leaves the receipt unchained. */
    method RecordFirst(sample: Sample) returns (alive: bool)
      requires Unstarted(Snapshot()) && FirstBound(Snapshot(), sample)
      modifies this
      ensures Snapshot() == Surviving(old(Snapshot()), FirstWrites(timing, old(Snapshot()), sample), old(power))
      ensures Snapshot() in Starts(timing, sample, alive)
    {
      UnchainedIsNotResumable(timing, Snapshot());
      var updated := AppendSample(timing, Receipt(InProgress, []), sample);
      if updated.None? { return false; }
      FirstStatus(timing, sample);
      ghost var receiptFile, file := ReceiptFile(updated.value), SampleFile(1, sample);
      ghost var d1 := Apply(Snapshot(), receiptFile);
      SurvivingCons(Snapshot(), receiptFile, [file] + FirstLinkWrites(timing, Apply(d1, file), sample), power);
      alive := Replace(ReceiptFile(updated.value));
      UnchainedIsNotResumable(timing, Snapshot());
      if alive {
        alive := StoreFirst(updated.value, sample);
      }
    }

    method StoreFirst(r: Receipt, sample: Sample) returns (alive: bool)
      requires receipt == Some(r) && ReceiptOk(timing, r) && chain == [] && envelope == None
      requires r == Receipt(if sample.passed then InProgress else Failed, [sample])
      requires FirstBound(Snapshot(), sample) && (sample.passed ==> sample.observed)
      modifies this
      ensures var file := SampleFile(1, sample);
              Snapshot() == Surviving(old(Snapshot()),
                                      [file] + FirstLinkWrites(timing, Apply(old(Snapshot()), file), sample), old(power))
      ensures Snapshot() in Starts(timing, sample, alive)
    {
      ghost var file := SampleFile(1, sample);
      SurvivingCons(Snapshot(), file, FirstLinkWrites(timing, Apply(Snapshot(), file), sample), power);
      alive := Replace(SampleFile(1, sample));
      UnchainedIsNotResumable(timing, Snapshot());
      if alive {
        alive := LinkFirst(r, sample);
      }
    }

    method LinkFirst(r: Receipt, sample: Sample) returns (alive: bool)
      requires receipt == Some(r) && ReceiptOk(timing, r) && chain == [] && envelope == None
      requires r == Receipt(if sample.passed then InProgress else Failed, [sample])
      requires FirstBound(Snapshot(), sample) && (sample.passed ==> sample.observed)
      modifies this
      ensures Snapshot() == Surviving(old(Snapshot()), FirstLinkWrites(timing, old(Snapshot()), sample), old(power))
      ensures Snapshot() in Starts(timing, sample, alive)
    {
      ghost var d, p := Snapshot(), power;
      UnchainedIsNotResumable(timing, d);
      FirstBinding(d, sample);
      alive := AppendSampleAuthentication(1, sample);
      if Binding(d, sample).Some? {
        FirstLinkSurvives(timing, d, sample, p);
      }
      if alive {
        FirstChained(timing, d, r, sample, Snapshot());
        if !sample.passed {
          var result := PersistEnvelope(FailedClosed, Some(FirstSampleFailed));
          assert receipt == Some(r);
        }
      }
    }

    /** The first sample of a fresh run. */
    method FirstSample(world: nat -> Moment) returns (first: Option<Sample>)
      requires Snapshot() == EMPTY
      modifies this
      ensures Snapshot() == StartDisk(timing, EMPTY, world(old(tick)).epoch, old(monotonic + world(tick).gap),
                                      old(world(tick).observation), old(power))
      ensures first.Some? && first.value.passed ==>
                Resumed(timing, Snapshot()) && !HasOrphan(Snapshot()) && Samples(Snapshot()) == [first.value]
      ensures first.None? || !first.value.passed ==> !Resumable(timing, Snapshot())
    {
      var now := world(tick).epoch;
      var o := world(tick).observation;
      monotonic, tick := monotonic + world(tick).gap, tick + 1;
      first := Start(now, o);
    }

    method Start(now: int, o: Observation) returns (first: Option<Sample>)
      requires Snapshot() == EMPTY
      modifies this
      ensures Snapshot() == StartDisk(timing, old(Snapshot()), now, old(monotonic), o, old(power))
      ensures if first.Some? then Snapshot() in Starts(timing, first.value, true) else !Resumable(timing, Snapshot())
    {
      ghost var d, p := Snapshot(), power;
      ghost var sampling := SnapshotWrites(timing, d, now, o);
      var alive, sample := TakeSample(now, o);
      FirstSnapshot(timing, d, now, o, sampling, p, Snapshot());
      UnchainedIsNotResumable(timing, Snapshot());
      if !alive {
        CutStart(timing, d, now, monotonic, o, p, sampling);
        return None;
      }
      SurvivingAll(d, sampling.writes, p);
      WholeStart(timing, d, now, monotonic, o, p, sampling, Snapshot(), sample);
      alive := RecordFirst(sample);
      return if alive then Some(sample) else None;
    }

    // ---- The daemon ----

    /** Announces why the loop ends; a completion is announced only for a one-to-one match. */
    method End(ending: Ending, ghost stop: StopCheck, ghost gap: bool) returns (exit: Exit)
      requires NotCompleted(Snapshot()) && Some(ending) == EndingOf(timing, Snapshot(), stop, gap)
      requires Samplable(timing, Snapshot()) ==> Resumed(timing, Snapshot())
      modifies this
      ensures System(Snapshot(), false) in RoundResults(timing, old(Snapshot()))
      ensures Explains(exit, envelope)
    {
      ghost var d, p := Snapshot(), power;
      CompletionIffOneToOne(timing, d);
      var result := PersistEnvelope(ending.status, ending.violation);
      EnvelopeOnlyIsSafe(timing, d, Snapshot());
      ClosingResult(timing, d, Snapshot(), stop, gap, p);
      exit := if result.Written? then Code(ExitCode(ending.status)) else Gone;
    }

    /**
     Waits until a sample is due on both clocks.  The monotonic clock moves on during every pause,
     so the wait ends: by then it is due, or overdue on a clock, or a stop was requested.
     */
    method WaitUntilDue(world: nat -> Moment, last: Sample)
      returns (now: int, ending: Option<Ending>, ghost stop: StopCheck, ghost gap: bool)
      modifies `tick, `monotonic
      ensures old(monotonic) <= monotonic && old(tick) < tick
      ensures ending.None? ==> IsDue(timing, last, now, monotonic)
      ensures ending == WorldEnding(stop, gap)
      ensures stop != NoStop ==> exists k :: old(tick) <= k <= tick && world(k).stop == stop
      ensures gap ==> now > last.epoch + 2 * timing.Interval() || monotonic > last.monotonic + 2 * timing.Interval()
    {
      stop, gap := NoStop, false;
      var due, dueMonotonic := last.epoch + timing.Interval(), last.monotonic + timing.Interval();
      var latest, latestMonotonic := last.epoch + 2 * timing.Interval(), last.monotonic + 2 * timing.Interval();
      now := world(tick).epoch;
      monotonic, tick := monotonic + world(tick).gap, tick + 1;
      ending := None;
      if now > latest || monotonic > latestMonotonic {
        return now, Some(Ending(FailedClosed, Some(CoverageGap))), NoStop, true;
      }
      while now < due || monotonic < dueMonotonic
        invariant now <= latest && old(monotonic) <= monotonic <= latestMonotonic && old(tick) < tick
        invariant ending.None? && stop == NoStop && !gap
        decreases latestMonotonic - monotonic
      {
        ending := CheckStop(world);
        if ending.Some? {
          stop := world(tick).stop;
          return;
        }
        tick := tick + 1;
        now := world(tick).epoch;
        monotonic := monotonic + 1 + world(tick).gap;
        if now > latest || monotonic > latestMonotonic {
          return now, Some(Ending(FailedClosed, Some(CoverageGap))), NoStop, true;
        }
      }
    }

    method CheckReceipt() returns (ok: bool)
      ensures ok <==> ReceiptChecks(timing, Snapshot())
    {
      if receipt.None? || !ReceiptOk(timing, receipt.value) { return false; }
      ok := ValidateChain(receipt.value.samples);
    }

    /** The checks at the head of the loop that end it, in order. */
    method FindEnding(world: nat -> Moment) returns (ending: Option<Ending>)
      modifies `tick
      ensures ending == EndingOf(timing, Snapshot(), world(old(tick)).stop, false)
    {
      var ok := CheckReceipt();
      if !ok { return Some(Ending(FailedClosed, Some(CoreReceiptInvalid))); }
      if receipt.value.status == Complete {
        return Some(if SealOk(Snapshot()) then Ending(Completed, None) else Ending(FailedClosed, Some(SealMissing)));
      }
      if receipt.value.status == Failed { return Some(Ending(FailedClosed, Some(CoreReceiptFailed))); }
      ending := CheckStop(world);
      tick := tick + 1;
      if ending.None? && receipt.value.samples == [] {
        return Some(Ending(FailedClosed, Some(MissingFirstSample)));
      }
    }

    method CheckStop(world: nat -> Moment) returns (ending: Option<Ending>)
      ensures ending == WorldEnding(world(tick).stop, false)
    {
      match world(tick).stop
      case StopInvalid => return Some(Ending(FailedClosed, Some(StopRequestInvalid)));
      case StopRequested => return Some(Ending(Stopped, None));
      case NoStop => return None;
    }

    /** Samples at a due instant and records the result. */
    method TakeAndRecord(world: nat -> Moment, r: Receipt, epoch: int) returns (exit: Option<Exit>)
      requires Resumed(timing, Snapshot()) && Samplable(timing, Snapshot()) && receipt == Some(r)
      requires IsDue(timing, r.samples[|r.samples| - 1], epoch, monotonic)
      modifies this
      ensures System(Snapshot(), exit.None?) in RoundResults(timing, old(Snapshot()))
      ensures exit.Some? ==> Explains(exit.value, envelope)
    {
      ghost var d, p, waited := Snapshot(), power, monotonic;
      var o := world(tick).observation;
      monotonic, tick := monotonic + world(tick).gap, tick + 1;
      ghost var instant := monotonic;
      var updated := PerformIteration(r, epoch, o);
      IterationSteps(timing, d, r, Snapshot(), updated, waited, epoch, instant, o, p);
      exit := if updated.None? then Some(Gone) else ExitAfter(updated.value);
    }

    /** The writes of one iteration, as many as the process lives to make. */
    method PerformIteration(r: Receipt, epoch: int, o: Observation) returns (updated: Option<Option<Receipt>>)
      modifies this
      ensures (Snapshot(), updated) in Iterations(timing, old(Snapshot()), r, epoch, old(monotonic), o, old(power))
      ensures updated.Some? ==> Reports(envelope, updated.value)
    {
      ghost var d, p := Snapshot(), power;
      ghost var sampling := SnapshotWrites(timing, d, epoch, o);
      updated := None;
      var alive, sample := TakeSample(epoch, o);
      if !alive {
        CutIteration(timing, d, r, Snapshot(), epoch, monotonic, o, p);
        return;
      }
      SurvivingAll(d, sampling.writes, p);
      ghost var d1, rest := Snapshot(), power;
      alive := RecordSample(r, sample);
      if alive {
        updated := Some(AppendSample(timing, r, sample));
      }
      ghost var record, report := RecordWrites(timing, d1, r, sample), AppendSample(timing, r, sample);
      OutcomeOfBoth(d, d1, sampling.writes, record, report, rest, Snapshot(), updated);
      WholeIteration(timing, d, r, Snapshot(), updated, epoch, monotonic, o, p, sampling, sample, record, report);
    }

    /** One pass of the loop: none when it goes on. */
    method Round(world: nat -> Moment) returns (exit: Option<Exit>)
      requires NotCompleted(Snapshot())
      requires Samplable(timing, Snapshot()) ==> Resumed(timing, Snapshot())
      modifies this
      ensures System(Snapshot(), exit.None?) in RoundResults(timing, old(Snapshot()))
      ensures exit.Some? ==> Explains(exit.value, envelope)
    {
      ghost var stop, gap := world(tick).stop, false;
      var ending := FindEnding(world);
      var now := 0;
      if ending.None? {
        now, ending, stop, gap := WaitUntilDue(world, receipt.value.samples[|receipt.value.samples| - 1]);
      }
      if ending.Some? {
        var ended := End(ending.value, stop, gap);
        return Some(ended);
      }
      exit := TakeAndRecord(world, receipt.value, now);
    }

    /** Announces that the daemon runs, or that it refuses the disk; none when the loop may begin. */
    method Boot() returns (exit: Option<Exit>)
      modifies this
      ensures Boots(timing, System(old(Snapshot()), false), System(Snapshot(), exit.None?), old(power))
      ensures old(power) == 0 ==> Snapshot() == old(Snapshot()) && exit.Some?
      ensures 0 < old(power) ==> if exit.Some? then Ended(timing, old(Snapshot()), Snapshot())
                                 else Current(timing, old(Snapshot()), Snapshot())
      ensures exit.Some? ==> Explains(exit.value, envelope)
    {
      ghost var d := Snapshot();
      var result := PersistEnvelope(Running, None);
      if result.Unsupported? {
        result := PersistEnvelope(FailedClosed, Some(CoreReceiptInvalid));
        if result.Died? { return Some(Gone); }
        RestartRefused(timing, d, Snapshot());
        return Some(Code(2));
      }
      if result.Died? { return Some(Gone); }
      RestartAccepted(timing, d, Snapshot());
      return None;
    }

    /**
     The daemon, started on any disk whatever.  A disk it does not resume loses nothing but its old
     envelope; a resumed one is aligned at the instant the process ends, however it ends.
     */
    method Run(world: nat -> Moment) returns (exit: Exit, ghost h: seq<System>)
      modifies this
      ensures h in RunsBetween(timing, System(old(Snapshot()), false), System(Snapshot(), false))
      ensures old(power) == 0 ==> Snapshot() == old(Snapshot())
      ensures 0 < old(power) ==> Ended(timing, old(Snapshot()), Snapshot())
      ensures Explains(exit, envelope)
    {
      ghost var d, p := Snapshot(), power;
      var booted := Boot();
      h := BootRuns(timing, d, System(Snapshot(), booted.None?), p);
      if booted.Some? { return booted.value, h; }
      while true
        invariant Current(timing, d, Snapshot())
        invariant h in RunsBetween(timing, System(d, false), System(Snapshot(), true))
        decreases (if timing.Valid() then timing.MaxSamples() else 0) - |Samples(Snapshot())|
      {
        ghost var before := Snapshot();
        var ended := Round(world);
        h := RunsOn(timing, d, h, before, System(Snapshot(), ended.None?));
        RoundComposes(timing, d, before, Snapshot());
        if ended.Some? { return ended.value, h; }
      }
    }
  }

  /** Exit code 0 stands behind a completion or stop envelope, 2 behind a failure. */
  predicate Explains(exit: Exit, envelope: Option<Envelope>) {
    match exit
    case Gone => true
    case Code(code) =>
      && envelope.Some?
      && match envelope.value.status
         case FailedClosed => code == 2
         case Completed => code == 0
         case Stopped => code == 0
         case Running => false
         case FirstSamplePass => false
  }

  function ExitCode(status: MonitorStatus): int {
    if status == FailedClosed then 2 else 0
  }

  /** What one appended sample means for the process. */
  function ExitAfter(updated: Option<Receipt>): Option<Exit> {
    match updated
    case None => Some(Code(2))
    case Some(r) =>
      match r.status
      case Failed => Some(Code(2))
      case Complete => Some(Code(0))
      case InProgress => None
  }

  const EMPTY: Disk := Disk(map[], None, [], map[], [], None, None, None)

  /** The disk a start leaves: its snapshot, then what the first sample writes. */
  function StartDisk(c: Timing, d: Disk, epoch: int, monotonic: int, o: Observation, power: nat): Disk {
    var sampling := SnapshotWrites(c, d, epoch, o);
    TwoStages(d, sampling.writes,
              FirstWrites(c, After(d, sampling.writes), Sampled(sampling, epoch, monotonic, o)), power)
  }

  lemma CutStart(c: Timing, d: Disk, epoch: int, monotonic: int, o: Observation, power: nat, s: Sampling)
    requires s == SnapshotWrites(c, d, epoch, o) && power < |s.writes|
    ensures StartDisk(c, d, epoch, monotonic, o, power) == Surviving(d, s.writes, power)
  {
  }

  lemma WholeStart(
    c: Timing, d: Disk, epoch: int, monotonic: int, o: Observation, power: nat, s: Sampling, d1: Disk, sample: Sample)
    requires s == SnapshotWrites(c, d, epoch, o) && |s.writes| <= power && d1 == After(d, s.writes)
    requires sample == Sampled(s, epoch, monotonic, o)
    ensures StartDisk(c, d, epoch, monotonic, o, power)
            == Surviving(d1, FirstWrites(c, d1, sample), power - |s.writes|)
  {
  }

  /** What a start leaves: one matched passing sample, or a disk that is never resumed. */
  ghost function Starts(c: Timing, sample: Sample, alive: bool): iset<Disk> {
    iset d: Disk |
      if alive && sample.passed then Resumed(c, d) && !HasOrphan(d) && Samples(d) == [sample]
      else !Resumable(c, d)
  }

  ghost predicate Unstarted(d: Disk) {
    d.chain == [] && d.receipt.None? && d.envelope.None?
  }

  ghost predicate FirstBound(d: Disk, s: Sample) {
    s.observed ==> |Ledger(d)| == 1 && EntryOk(d, Ledger(d)[0], Some(s))
  }

  lemma FirstBinding(d: Disk, s: Sample)
    requires FirstBound(d, s)
    ensures s.observed ==> Binding(d, s) == Some(Some(Ledger(d)[0]))
  {
    if s.observed {
      WithEpochFinds(Ledger(d), s.epoch, 0);
    }
  }

  lemma FirstLinkSurvives(c: Timing, d: Disk, s: Sample, power: nat)
    requires d.chain == [] && Binding(d, s).Some?
    ensures var chain := ChainFile([] + [SignedLink(Payload(1, s, Binding(d, s).value, Previous([])))]);
            var d1 := Apply(d, chain);
            var rest := if s.passed then [] else EnvelopeWrites(c, d1, FailedClosed, Some(FirstSampleFailed));
            Surviving(d, FirstLinkWrites(c, d, s), power) == if power == 0 then d else Surviving(d1, rest, power - 1)
  {
    var chain := ChainFile([] + [SignedLink(Payload(1, s, Binding(d, s).value, Previous([])))]);
    var rest := if s.passed then [] else EnvelopeWrites(c, Apply(d, chain), FailedClosed, Some(FirstSampleFailed));
    SurvivingCons(d, chain, rest, power);
  }

  lemma FirstChained(c: Timing, d: Disk, r: Receipt, s: Sample, d': Disk)
    requires d.receipt == Some(r) && ReceiptOk(c, r) && d.chain == [] && d.envelope == None
    requires r == Receipt(if s.passed then InProgress else Failed, [s])
    requires FirstBound(d, s) && (s.passed ==> s.observed) && Binding(d, s).Some?
    requires d' == Apply(d, ChainFile(d.chain + [SignedLink(Payload(1, s, Binding(d, s).value, Previous(d.chain)))]))
    ensures s.passed ==> Resumed(c, d') && !HasOrphan(d')
  {
    FirstBinding(d, s);
    if s.passed {
      assert Ledger(d) == [Ledger(d)[0]];
      StartIsCoherent(c, d', s, Ledger(d)[0]);
    }
  }

  lemma FirstStatus(c: Timing, s: Sample)
    requires AppendSample(c, Receipt(InProgress, []), s).Some?
    ensures var u := AppendSample(c, Receipt(InProgress, []), s).value;
            && ReceiptOk(c, u) && u == Receipt(if s.passed then InProgress else Failed, [s])
            && (s.passed ==> s.observed)
  {
    var all := Receipt(InProgress, []).samples + [s];
    assert all == [s];
    assert FirstOk(c, s);
  }

  lemma FirstSnapshot(c: Timing, d: Disk, epoch: int, o: Observation, s: Sampling, power: nat, d': Disk)
    requires d == Disk(map[], None, [], map[], [], None, None, None)
    requires s == SnapshotWrites(c, d, epoch, o) && d' == Surviving(d, s.writes, power)
    ensures d'.chain == [] && d'.receipt.None? && d'.envelope.None?
    ensures s.recorded && |s.writes| <= power ==>
              d'.ledger == Some([Entry(epoch, o.content.value)]) && EntryOk(d', Entry(epoch, o.content.value), None)
  {
    if o.content.Some? {
      var database, e := DatabaseFile(epoch, o.content.value), Entry(epoch, o.content.value);
      var d1 := Apply(d, database);
      var rest := LedgerWrites(c, d1, e, o);
      assert [] + [e] == [e];
      SurvivingCons(d, database, rest.writes, power);
      if power != 0 {
        SurvivingCons(d1, LedgerFile([e]), [], power - 1);
        assert [LedgerFile([e])] + [] == [LedgerFile([e])];
      }
    }
  }
}
