/**
 Crash safety of the soak monitor: whatever prefix of its writes survives, samples, chain and
 snapshots stay aligned, nothing recorded is lost, and `complete` certifies a one-to-one match.
 */
module SoakTheorems {
  import opened Wrappers
  import opened SoakModel

  /** The samples that must have a snapshot: all of them, but for the one that failed the soak. */
  function Matched(r: Receipt): nat
    requires r.samples != []
  {
    if r.status == Failed then |r.samples| - 1 else |r.samples|
  }

  ghost predicate LinkAt(d: Disk, samples: seq<Sample>, l: seq<Entry>, i: nat)
    requires i < |samples| && i < |l| && i < |d.chain|
  {
    d.chain[i] == SignedLink(Payload(i + 1, samples[i], Some(l[i]), Previous(d.chain[..i])))
  }

  ghost predicate Linked(d: Disk, samples: seq<Sample>, l: seq<Entry>, m: nat) {
    m <= |samples| && m <= |l| && m <= |d.chain| && forall i | 0 <= i < m :: LinkAt(d, samples, l, i)
  }

  /** The first m ledger entries name the first m samples; at most one newer entry follows. */
  ghost predicate Recorded(d: Disk, samples: seq<Sample>, l: seq<Entry>, m: nat) {
    && m <= |samples| && (|l| == m || |l| == m + 1)
    && DistinctEpochs(l)
    && (forall i {:trigger EntryOk(d, l[i], None)} | 0 <= i < |l| :: EntryOk(d, l[i], None))
    && (forall i {:trigger EntryOk(d, l[i], Some(samples[i]))} | 0 <= i < m :: EntryOk(d, l[i], Some(samples[i])))
    && (m < |l| && 0 < m ==> samples[m - 1].epoch < l[m].epoch)
  }

  /** Samples, snapshots and chain correspond one to one, sealed, past both deadlines. */
  ghost predicate OneToOne(c: Timing, d: Disk) {
    && d.receipt.Some? && d.ledger.Some?
    && ReceiptOk(c, d.receipt.value) && d.receipt.value.status == Complete
    && var samples, l := d.receipt.value.samples, d.ledger.value;
    && |samples| == |l| == |d.chain|
    && Recorded(d, samples, l, |samples|) && Linked(d, samples, l, |samples|)
    && SealOk(d)
  }

  ghost predicate Certified(c: Timing, d: Disk) {
    d.envelope.Some? && d.envelope.value.status == Completed ==> OneToOne(c, d)
  }

  /** What holds on disk at every instant after a completed start. */
  ghost predicate Aligned(c: Timing, d: Disk) {
    && d.receipt.Some? && d.ledger.Some?
    && ReceiptOk(c, d.receipt.value) && d.receipt.value.samples != []
    && var r, l := d.receipt.value, d.ledger.value;
    && Recorded(d, r.samples, l, Matched(r)) && (r.status == Complete ==> |l| == |r.samples|)
    && Linked(d, r.samples, l, Matched(r))
    && (|d.chain| == |r.samples| || (r.status == InProgress && |d.chain| == |r.samples| + 1))
  }

  ghost predicate NotCompleted(d: Disk) {
    d.envelope.Some? ==> d.envelope.value.status != Completed
  }

  /** Aligned, running, and every chained sample is in the receipt. */
  ghost predicate Coherent(c: Timing, d: Disk) {
    Aligned(c, d) && d.receipt.value.status == InProgress && |d.chain| == |d.receipt.value.samples|
  }

  ghost predicate Resumed(c: Timing, d: Disk) {
    Coherent(c, d) && NotCompleted(d)
  }

  function Samples(d: Disk): seq<Sample> {
    if d.receipt.Some? then d.receipt.value.samples else []
  }

  function Ledger(d: Disk): seq<Entry> {
    if d.ledger.Some? then d.ledger.value else []
  }

  /** Nothing recorded is lost: a snapshot receipt leaves the ledger only for the orphan archive. */
  ghost predicate Extends(d: Disk, e: Disk) {
    && Samples(d) <= Samples(e) && d.chain <= e.chain && d.orphans <= e.orphans
    && (forall epoch | epoch in d.databases :: epoch in e.databases && e.databases[epoch] == d.databases[epoch])
    && (forall x | x in Ledger(d) :: x in Ledger(e) || x in e.orphans)
  }

  ghost predicate HasOrphan(d: Disk) {
    |Ledger(d)| == |Samples(d)| + 1
  }

  /** At most the one unmatched trailing snapshot is archived, and never twice. */
  ghost predicate ArchivesAtMostTrailing(d: Disk, e: Disk) {
    || e.orphans == d.orphans
    || (HasOrphan(d) && Ledger(d)[|Samples(d)|] !in d.orphans
        && e.orphans == d.orphans + [Ledger(d)[|Samples(d)|]])
  }

  lemma ExtendsTransitive(a: Disk, b: Disk, e: Disk)
    requires Extends(a, b) && Extends(b, e)
    ensures Extends(a, e)
  {
    forall x | x in Ledger(a) ensures x in Ledger(e) || x in e.orphans {
      if x in b.orphans {
        assert b.orphans <= e.orphans;
      }
    }
  }

  // ---- Bindings ----

  lemma {:induction false} WithEpochFinds(l: seq<Entry>, epoch: int, i: nat)
    requires i < |l| && l[i].epoch == epoch
    requires DistinctEpochs(l)
    ensures WithEpoch(l, epoch) == [l[i]]
  {
    var n := |l| - 1;
    if i < n {
      WithEpochFinds(l[..n], epoch, i);
    } else {
      WithEpochMisses(l[..n], epoch);
    }
  }

  lemma {:induction false} WithEpochMisses(l: seq<Entry>, epoch: int)
    requires forall e | e in l :: e.epoch != epoch
    ensures WithEpoch(l, epoch) == []
  {
    if l != [] {
      WithEpochMisses(l[..|l| - 1], epoch);
    }
  }

  lemma BindingOfRecorded(d: Disk, samples: seq<Sample>, l: seq<Entry>, m: nat, i: nat)
    requires d.ledger == Some(l) && Recorded(d, samples, l, m) && i < m && samples[i].observed
    ensures Binding(d, samples[i]) == Some(Some(l[i]))
  {
    assert EntryOk(d, l[i], Some(samples[i]));
    WithEpochFinds(l, samples[i].epoch, i);
  }

  /** On recorded, observed samples the chain check is exactly the link-by-link equation. */
  lemma ChainExactIffLinked(d: Disk, samples: seq<Sample>, l: seq<Entry>)
    requires d.ledger == Some(l) && Recorded(d, samples, l, |samples|)
    requires forall s | s in samples :: s.observed
    ensures ChainExact(d, samples) <==> |d.chain| == |samples| && Linked(d, samples, l, |samples|)
  {
    forall i | 0 <= i < |samples| ensures Binding(d, samples[i]) == Some(Some(l[i])) {
      BindingOfRecorded(d, samples, l, |samples|, i);
    }
    if |d.chain| == |samples| {
      assert forall i | 0 <= i < |samples| :: LinkOk(d, i, samples[i]) <==> LinkAt(d, samples, l, i);
    }
  }

  lemma PassedIsObserved(c: Timing, r: Receipt)
    requires ReceiptOk(c, r) && r.status != Failed
    ensures forall s | s in r.samples :: s.passed && s.observed && s.rows == 0
  {
    forall s | s in r.samples ensures s.passed && s.observed && s.rows == 0 {
      var i :| 0 <= i < |r.samples| && r.samples[i] == s;
      assert SampleOk(r.samples[i]);
    }
  }

  /** The ledger check accepts exactly recorded ledgers. */
  lemma LedgerCheckIffRecorded(d: Disk, samples: seq<Sample>, l: seq<Entry>, allowTrailing: bool)
    ensures LedgerCheck(d, l, Some(samples), allowTrailing).Some? <==>
            Recorded(d, samples, l, |samples|) && (|l| == |samples| || allowTrailing)
    ensures Recorded(d, samples, l, |samples|) && (|l| == |samples| || allowTrailing) ==>
              LedgerCheck(d, l, Some(samples), allowTrailing) == Some(l[..|samples|])
  {
    var n := |samples|;
    if |l| == n + 1 {
      var kept := l[..n];
      if Recorded(d, samples, l, n) {
        assert TrailingOk(d, kept, l[n], samples) by {
          forall e | e in kept ensures e.epoch != l[n].epoch {
            var i :| 0 <= i < n && kept[i] == e;
            assert l[i] == e;
          }
        }
      }
      if KeptOk(d, kept, Some(samples)) && TrailingOk(d, kept, l[n], samples) {
        assert Recorded(d, samples, l, n) by {
          assert forall i | 0 <= i < n :: l[i] == kept[i] && kept[i] in kept;
        }
      }
    } else if |l| == n {
      assert l[..n] == l;
    }
  }

  /** For any disk at all, the completion envelope is granted exactly for a one-to-one match. */
  lemma CompletionIffOneToOne(c: Timing, d: Disk)
    ensures EnvelopeOf(c, d, Completed, None).Some? <==> OneToOne(c, d)
  {
    if d.receipt.Some? && d.ledger.Some? && ReceiptOk(c, d.receipt.value) && d.receipt.value.status == Complete {
      var samples, l := d.receipt.value.samples, d.ledger.value;
      PassedIsObserved(c, d.receipt.value);
      LedgerCheckIffRecorded(d, samples, l, false);
      if Recorded(d, samples, l, |samples|) {
        ChainExactIffLinked(d, samples, l);
      }
    }
  }

  /** The check every restart makes before it touches anything but its envelope. */
  predicate Accepts(c: Timing, d: Disk) {
    d.receipt.Some? && EnvelopeOf(c, d, Running, None).Some?
  }

  /** For any disk at all: a restart goes on with a running receipt exactly when it is aligned. */
  lemma AcceptsRunningIff(c: Timing, d: Disk)
    requires d.receipt.Some? && d.receipt.value.status == InProgress && d.receipt.value.samples != []
    ensures Accepts(c, d) <==> Coherent(c, d)
  {
    if ReceiptOk(c, d.receipt.value) {
      var samples := d.receipt.value.samples;
      PassedIsObserved(c, d.receipt.value);
      assert samples[0] in samples;
      if d.ledger.Some? {
        LedgerCheckIffRecorded(d, samples, d.ledger.value, true);
        if Recorded(d, samples, d.ledger.value, |samples|) {
          ChainExactIffLinked(d, samples, d.ledger.value);
        }
      } else {
        assert |d.chain| == |samples| ==> !LinkOk(d, 0, samples[0]);
      }
    }
  }

  /** After any crash: a sample chained but missing from the receipt is never resumed over. */
  lemma RestartResumesIffChainMatches(c: Timing, d: Disk)
    requires Aligned(c, d) && d.receipt.value.status == InProgress
    ensures Accepts(c, d) <==> |d.chain| == |d.receipt.value.samples|
    ensures !Accepts(c, d) <==> |d.chain| == |d.receipt.value.samples| + 1
  {
    AcceptsRunningIff(c, d);
  }

  // ---- Every crash point of an iteration ----

  lemma SurvivingAll(d: Disk, a: seq<Write>, power: nat)
    requires |a| <= power
    ensures Surviving(d, a, power) == After(d, a)
    decreases |a|
  {
    if a != [] {
      SurvivingAll(Apply(d, a[0]), a[1..], power - 1);
    }
  }

  /** Recorded reads the databases and Linked the chain, nothing else. */
  lemma FramedFiles(d: Disk, e: Disk, samples: seq<Sample>, l: seq<Entry>, m: nat)
    requires forall epoch | epoch in d.databases ::
               epoch in e.databases && e.databases[epoch] == d.databases[epoch]
    requires d.chain <= e.chain
    ensures Recorded(d, samples, l, m) ==> Recorded(e, samples, l, m)
    ensures Linked(d, samples, l, m) ==> Linked(e, samples, l, m)
  {
    if Linked(d, samples, l, m) {
      forall i | 0 <= i < m ensures LinkAt(e, samples, l, i) {
        assert LinkAt(d, samples, l, i);
        assert e.chain[..i] == d.chain[..i];
      }
    }
    if Recorded(d, samples, l, m) {
      forall i | 0 <= i < |l| ensures EntryOk(e, l[i], None) {
        assert EntryOk(d, l[i], None);
      }
      forall i | 0 <= i < m ensures EntryOk(e, l[i], Some(samples[i])) {
        assert EntryOk(d, l[i], Some(samples[i]));
      }
    }
  }

  lemma DatabaseStep(c: Timing, d: Disk, epoch: int, content: Content)
    requires Resumed(c, d) && epoch !in d.databases
    ensures Resumed(c, Apply(d, DatabaseFile(epoch, content)))
    ensures Extends(d, Apply(d, DatabaseFile(epoch, content)))
  {
    FramedFiles(d, Apply(d, DatabaseFile(epoch, content)), d.receipt.value.samples, d.ledger.value,
                |d.receipt.value.samples|);
  }

  lemma OrphanStep(c: Timing, d: Disk)
    requires Resumed(c, d) && HasOrphan(d)
    ensures var d' := Apply(d, OrphanFile(Archived(d.orphans, Ledger(d)[|Samples(d)|])));
            && Resumed(c, d') && Extends(d, d') && ArchivesAtMostTrailing(d, d')
            && Ledger(d)[|Samples(d)|] in d'.orphans
  {
    FramedFiles(d, Apply(d, OrphanFile(Archived(d.orphans, Ledger(d)[|Samples(d)|]))),
                d.receipt.value.samples, d.ledger.value, |d.receipt.value.samples|);
  }

  /** The ledger's matched part, followed by a newer snapshot. */
  lemma RecordedAppend(d: Disk, samples: seq<Sample>, l: seq<Entry>, e: Entry)
    requires samples != [] && Recorded(d, samples, l, |samples|) && EntryOk(d, e, None)
    requires samples[|samples| - 1].epoch < e.epoch && forall x | x in l :: x.epoch != e.epoch
    ensures Recorded(d, samples, l[..|samples|] + [e], |samples|)
  {
    var n, l' := |samples|, l[..|samples|] + [e];
    forall i | 0 <= i < n ensures l'[i] == l[i] && l[i].epoch != e.epoch {
      assert l[i] in l;
    }
  }

  lemma LinkedAppend(d: Disk, samples: seq<Sample>, l: seq<Entry>, e: Entry)
    requires |samples| <= |l| && Linked(d, samples, l, |samples|)
    ensures Linked(d, samples, l[..|samples|] + [e], |samples|)
  {
    var n, l' := |samples|, l[..|samples|] + [e];
    forall i | 0 <= i < n ensures LinkAt(d, samples, l', i) {
      assert LinkAt(d, samples, l, i) && l'[i] == l[i];
    }
  }

  lemma EvidenceKept(l: seq<Entry>, n: nat, e: Entry, orphans: seq<Entry>)
    requires |l| == n || (|l| == n + 1 && l[n] in orphans)
    ensures forall x | x in l :: x in l[..n] + [e] || x in orphans
  {
    forall x | x in l ensures x in l[..n] + [e] || x in orphans {
      var i :| 0 <= i < |l| && l[i] == x;
      if i < n {
        assert (l[..n] + [e])[i] == x;
      }
    }
  }

  lemma LedgerStep(c: Timing, d: Disk, e: Entry)
    requires Resumed(c, d) && EntryOk(d, e, None)
    requires HasOrphan(d) ==> Ledger(d)[|Samples(d)|] in d.orphans
    requires Samples(d)[|Samples(d)| - 1].epoch < e.epoch && forall x | x in Ledger(d) :: x.epoch != e.epoch
    ensures var d' := Apply(d, LedgerFile(Ledger(d)[..|Samples(d)|] + [e]));
            Resumed(c, d') && Extends(d, d')
  {
    var samples, l := Samples(d), Ledger(d);
    var l' := l[..|samples|] + [e];
    var d' := Apply(d, LedgerFile(l'));
    assert Recorded(d', samples, l', |samples|) && Linked(d', samples, l', |samples|) by {
      RecordedAppend(d, samples, l, e);
      LinkedAppend(d, samples, l, e);
      FramedFiles(d, d', samples, l', |samples|);
    }
    EvidenceKept(l, |samples|, e, d.orphans);
  }

  lemma SurvivingCons(d: Disk, w: Write, rest: seq<Write>, power: nat)
    ensures Surviving(d, [w] + rest, power) == if power == 0 then d else Surviving(Apply(d, w), rest, power - 1)
  {
    assert ([w] + rest)[1..] == rest;
  }

  ghost predicate SnapshotSafe(c: Timing, d: Disk, e: Disk) {
    && Resumed(c, e) && Extends(d, e) && ArchivesAtMostTrailing(d, e)
    && e.receipt == d.receipt && e.chain == d.chain
  }

  ghost predicate Newer(d: Disk, e: Entry) {
    && EntryOk(d, e, None)
    && (Samples(d) != [] ==> Samples(d)[|Samples(d)| - 1].epoch < e.epoch)
    && forall x | x in Ledger(d) :: x.epoch != e.epoch
  }

  /** All that the ledger's part of a sampling can write after the disk `d`. */
  ghost predicate AppendShape(kept: seq<Entry>, e: Entry, s: Sampling) {
    s == Sampling([], false) || s == Sampling([LedgerFile(kept + [e])], true)
  }

  ghost predicate LedgerShape(d: Disk, e: Entry, s: Sampling)
    requires |Samples(d)| <= |Ledger(d)|
  {
    var kept := Ledger(d)[..|Samples(d)|];
    if HasOrphan(d) then
      s.writes != [] ==>
        && s.writes[0] == OrphanFile(Archived(d.orphans, Ledger(d)[|Samples(d)|]))
        && AppendShape(kept, e, Sampling(s.writes[1..], s.recorded))
    else AppendShape(kept, e, s)
  }

  lemma LedgerWritesShape(c: Timing, d: Disk, e: Entry, o: Observation)
    requires Resumed(c, d)
    ensures LedgerShape(d, e, LedgerWrites(c, d, e, o))
    ensures LedgerWrites(c, d, e, o).recorded ==> LedgerWrites(c, d, e, o).writes != []
  {
    LedgerCheckIffRecorded(d, Samples(d), Ledger(d), true);
    var kept := Ledger(d)[..|Samples(d)|];
    if HasOrphan(d) {
      var archive := OrphanFile(Archived(d.orphans, Ledger(d)[|Samples(d)|]));
      var rest := LedgerAppend(Apply(d, archive), kept, e, o);
      assert ([archive] + rest.writes)[1..] == rest.writes;
    } else {
      assert kept == Ledger(d);
    }
  }

  lemma AppendOutcome(d: Disk, kept: seq<Entry>, e: Entry, power: nat, s: Sampling, d': Disk)
    requires AppendShape(kept, e, s) && d' == Surviving(d, s.writes, power)
    ensures d' == d || d' == Apply(d, LedgerFile(kept + [e]))
    ensures s.recorded && |s.writes| <= power ==> d' == Apply(d, LedgerFile(kept + [e]))
  {
    SurvivingCons(d, LedgerFile(kept + [e]), [], power);
    assert [LedgerFile(kept + [e])] + [] == [LedgerFile(kept + [e])];
  }

  lemma SnapshotIsNewer(c: Timing, d: Disk, e: Entry)
    requires Aligned(c, d) && e.epoch !in d.databases && Samples(d)[|Samples(d)| - 1].epoch < e.epoch
    ensures Newer(Apply(d, DatabaseFile(e.epoch, e.content)), e)
  {
    forall x | x in Ledger(d) ensures x.epoch != e.epoch {
      assert EntryOk(d, x, None);
    }
  }

  lemma LedgerAppendStage(c: Timing, d: Disk, e: Entry, power: nat, s: Sampling, d': Disk)
    requires Resumed(c, d) && Newer(d, e)
    requires HasOrphan(d) ==> Ledger(d)[|Samples(d)|] in d.orphans
    requires AppendShape(Ledger(d)[..|Samples(d)|], e, s) && d' == Surviving(d, s.writes, power)
    ensures Resumed(c, d') && Extends(d, d')
  {
    AppendOutcome(d, Ledger(d)[..|Samples(d)|], e, power, s, d');
    if d' != d {
      LedgerStep(c, d, e);
    }
  }

  lemma OrphanShape(d: Disk, e: Entry, power: nat, s: Sampling)
    requires HasOrphan(d) && Newer(d, e) && LedgerShape(d, e, s) && s.writes != [] && power != 0
    ensures var d1 := Apply(d, OrphanFile(Archived(d.orphans, Ledger(d)[|Samples(d)|])));
            && AppendShape(Ledger(d1)[..|Samples(d1)|], e, Sampling(s.writes[1..], s.recorded))
            && Newer(d1, e) && Surviving(d, s.writes, power) == Surviving(d1, s.writes[1..], power - 1)
  {
  }

  /** The ledger's part of a sampling touches nothing but the ledger and the orphan archive. */
  lemma LedgerFrame(d: Disk, e: Entry, power: nat, s: Sampling, d': Disk)
    requires |Samples(d)| <= |Ledger(d)| && Newer(d, e)
    requires LedgerShape(d, e, s) && (s.recorded ==> s.writes != []) && d' == Surviving(d, s.writes, power)
    ensures d'.receipt == d.receipt && d'.chain == d.chain && d'.databases == d.databases
    ensures ArchivesAtMostTrailing(d, d')
    ensures s.recorded && |s.writes| <= power ==> d'.ledger == Some(Ledger(d)[..|Samples(d)|] + [e])
  {
    var kept := Ledger(d)[..|Samples(d)|];
    if !HasOrphan(d) {
      AppendOutcome(d, kept, e, power, s, d');
    } else if s.writes != [] && power != 0 {
      OrphanShape(d, e, power, s);
      var d1 := Apply(d, s.writes[0]);
      AppendOutcome(d1, kept, e, power - 1, Sampling(s.writes[1..], s.recorded), d');
    }
  }

  lemma OrphanStage(c: Timing, d: Disk, d1: Disk, e: Entry, power: nat, s: Sampling, d': Disk)
    requires Resumed(c, d) && HasOrphan(d)
    requires d1 == Apply(d, OrphanFile(Archived(d.orphans, Ledger(d)[|Samples(d)|]))) && Newer(d1, e)
    requires AppendShape(Ledger(d1)[..|Samples(d1)|], e, s) && d' == Surviving(d1, s.writes, power)
    ensures Resumed(c, d') && Extends(d, d')
  {
    OrphanStep(c, d);
    LedgerAppendStage(c, d1, e, power, s, d');
    ExtendsTransitive(d, d1, d');
  }

  /** Where a snapshot may go: the ledger unchanged, or its matched part plus the new entry. */
  lemma LedgerStage(c: Timing, d: Disk, e: Entry, power: nat, s: Sampling, d': Disk)
    requires Resumed(c, d) && Newer(d, e)
    requires LedgerShape(d, e, s) && d' == Surviving(d, s.writes, power)
    ensures Resumed(c, d') && Extends(d, d')
  {
    if !HasOrphan(d) {
      LedgerAppendStage(c, d, e, power, s, d');
    } else if s.writes != [] && power != 0 {
      var d1 := Apply(d, OrphanFile(Archived(d.orphans, Ledger(d)[|Samples(d)|])));
      OrphanShape(d, e, power, s);
      OrphanStage(c, d, d1, e, power - 1, Sampling(s.writes[1..], s.recorded), d');
    }
  }

  lemma SnapshotShape(c: Timing, d: Disk, epoch: int, o: Observation, power: nat)
    ensures var s := SnapshotWrites(c, d, epoch, o);
            if s.writes == [] then !s.recorded
            else
              && o.content.Some? && epoch !in d.databases
              && var d1 := Apply(d, DatabaseFile(epoch, o.content.value));
              && var rest := LedgerWrites(c, d1, Entry(epoch, o.content.value), o);
              && s == Sampling([DatabaseFile(epoch, o.content.value)] + rest.writes, rest.recorded)
              && (power != 0 ==> Surviving(d, s.writes, power) == Surviving(d1, rest.writes, power - 1))
  {
    if o.content.Some? && epoch !in d.databases {
      var database := DatabaseFile(epoch, o.content.value);
      var rest := LedgerWrites(c, Apply(d, database), Entry(epoch, o.content.value), o);
      SurvivingCons(d, database, rest.writes, power);
    }
  }

  /** Any prefix of a sampling's snapshot writes keeps the disk resumable and loses nothing. */
  lemma SnapshotStage(c: Timing, d: Disk, epoch: int, o: Observation, power: nat, s: Sampling, d': Disk)
    requires Resumed(c, d) && Samples(d)[|Samples(d)| - 1].epoch < epoch
    requires s == SnapshotWrites(c, d, epoch, o) && d' == Surviving(d, s.writes, power)
    ensures SnapshotSafe(c, d, d')
    ensures s.recorded && |s.writes| <= power ==>
              && d'.ledger == Some(Ledger(d)[..|Samples(d)|] + [Entry(epoch, o.content.value)])
              && EntryOk(d', Entry(epoch, o.content.value), None)
  {
    SnapshotShape(c, d, epoch, o, power);
    if s.writes == [] || power == 0 {
      assert d' == d;
    } else {
      var e := Entry(epoch, o.content.value);
      var d1 := Apply(d, DatabaseFile(epoch, e.content));
      var rest := LedgerWrites(c, d1, e, o);
      DatabaseStep(c, d, epoch, e.content);
      SnapshotIsNewer(c, d, e);
      LedgerWritesShape(c, d1, e, o);
      LedgerFrame(d1, e, power - 1, rest, d');
      LedgerStage(c, d1, e, power - 1, rest, d');
      ExtendsTransitive(d, d1, d');
    }
  }

  // ---- Recording the sample ----

  /** Only the envelope and the seal differ: files the alignment does not read. */
  ghost predicate SameEvidence(d: Disk, e: Disk) {
    && e.receipt == d.receipt && e.ledger == d.ledger && e.chain == d.chain
    && e.databases == d.databases && e.orphans == d.orphans
  }

  lemma SameEvidenceKeeps(c: Timing, d: Disk, e: Disk)
    requires Aligned(c, d) && SameEvidence(d, e)
    ensures Aligned(c, e) && Extends(d, e)
  {
    FramedFiles(d, e, d.receipt.value.samples, d.ledger.value, Matched(d.receipt.value));
  }

  /** An observed sample's snapshot is the ledger's last entry. */
  ghost predicate BoundTo(d: Disk, s: Sample) {
    s.observed ==> HasOrphan(d) && EntryOk(d, Ledger(d)[|Samples(d)|], Some(s))
  }

  lemma BindingOfNew(c: Timing, d: Disk, s: Sample)
    requires Aligned(c, d) && d.receipt.value.status == InProgress && BoundTo(d, s)
    ensures Binding(d, s) == Some(if s.observed then Some(Ledger(d)[|Samples(d)|]) else None)
  {
    if s.observed {
      WithEpochFinds(Ledger(d), s.epoch, |Samples(d)|);
    }
  }

  lemma ChainStep(c: Timing, d: Disk, link: Link)
    requires Resumed(c, d)
    ensures var d' := Apply(d, ChainFile(d.chain + [link]));
            Aligned(c, d') && Extends(d, d')
  {
    var d' := Apply(d, ChainFile(d.chain + [link]));
    FramedFiles(d, d', d.receipt.value.samples, d.ledger.value, Matched(d.receipt.value));
  }

  lemma RecordedExtended(d: Disk, samples: seq<Sample>, l: seq<Entry>, s: Sample, m: nat)
    requires Recorded(d, samples, l, |samples|) && samples != []
    requires m == |samples| || (m == |samples| + 1 && |l| == m && EntryOk(d, l[m - 1], Some(s)))
    ensures Recorded(d, samples + [s], l, m)
  {
    assert forall i | 0 <= i < |samples| :: (samples + [s])[i] == samples[i];
  }

  lemma LinkedExtended(d: Disk, samples: seq<Sample>, l: seq<Entry>, s: Sample, m: nat)
    requires Linked(d, samples, l, |samples|) && |samples| < |d.chain|
    requires m == |samples| || (m == |samples| + 1 && |l| == m && LinkAt(d, samples + [s], l, m - 1))
    ensures Linked(d, samples + [s], l, m)
  {
    forall i | 0 <= i < |samples| ensures LinkAt(d, samples + [s], l, i) {
      assert LinkAt(d, samples, l, i);
    }
  }

  /** The receipt catches up with the chain. */
  lemma ReceiptStep(c: Timing, d: Disk, u: Receipt, s: Sample, link: Link)
    requires Resumed(c, d) && ReceiptOk(c, u) && u.samples == Samples(d) + [s] && BoundTo(d, s)
    requires Binding(d, s).Some?
    requires link == SignedLink(Payload(|u.samples|, s, Binding(d, s).value, Previous(d.chain)))
    ensures var d' := Apply(Apply(d, ChainFile(d.chain + [link])), ReceiptFile(u));
            && Aligned(c, d') && Extends(d, d') && |d'.chain| == |u.samples|
            && (u.status != Failed ==> !HasOrphan(d'))
  {
    var samples, l, n, m := Samples(d), Ledger(d), |Samples(d)|, Matched(u);
    var d' := Apply(Apply(d, ChainFile(d.chain + [link])), ReceiptFile(u));
    BindingOfNew(c, d, s);
    assert u.samples[n] == s;
    FramedFiles(d, d', samples, l, n);
    if u.status != Failed {
      PassedIsObserved(c, u);
      assert s in u.samples;
      assert d'.chain[..n] == d.chain;
      assert LinkAt(d', u.samples, l, n);
    }
    RecordedExtended(d', samples, l, s, m);
    LinkedExtended(d', samples, l, s, m);
  }

  lemma SealedIsOneToOne(c: Timing, d: Disk)
    requires Aligned(c, d) && d.receipt.value.status == Complete && d.seal == SealOf(d)
    ensures OneToOne(c, d)
  {
  }

  // What the writes after a sampling can leave behind, as relations between disks.

  ghost predicate FinishResult(d: Disk, status: Status, e: Disk) {
    && SameEvidence(d, e)
    && (e.envelope != d.envelope ==>
          && e.envelope.Some?
          && (status == Complete ==> e.seal == SealOf(d))
          && (status != Complete ==> e.envelope.value.status != Completed))
  }

  ghost predicate ChainResult(d: Disk, u: Receipt, s: Sample, e: Disk, whole: bool) {
    && Binding(d, s).Some?
    && var link := SignedLink(Payload(|u.samples|, s, Binding(d, s).value, Previous(d.chain)));
    && var d1 := Apply(d, ChainFile(d.chain + [link]));
    && ((!whole && (e == d || e == d1)) || FinishResult(Apply(d1, ReceiptFile(u)), u.status, e))
  }

  ghost predicate RefusedResult(d: Disk, e: Disk) {
    SameEvidence(d, e) && (e.envelope == d.envelope || (e.envelope.Some? && e.envelope.value.status == FailedClosed))
  }

  ghost predicate RecordResult(d: Disk, updated: Option<Receipt>, s: Sample, e: Disk, whole: bool) {
    match updated
    case None => RefusedResult(d, e)
    case Some(u) => (!whole && e == d) || ChainResult(Apply(d, SampleFile(|u.samples|, s)), u, s, e, whole)
  }

  lemma OneEnvelopeOutcome(c: Timing, d: Disk, status: MonitorStatus, violation: Option<Violation>,
                           writes: seq<Write>, power: nat, d': Disk)
    requires writes == EnvelopeWrites(c, d, status, violation) && d' == Surviving(d, writes, power)
    ensures d' == d || (d' == d.(envelope := d'.envelope) && d'.envelope.Some? && d'.envelope.value.status == status)
  {
    if writes != [] {
      SurvivingCons(d, writes[0], [], power);
      assert [writes[0]] + [] == writes;
    }
  }

  lemma SealOutcome(c: Timing, d: Disk, power: nat, d': Disk)
    requires d' == Surviving(d, FinishWrites(c, d, Complete), power)
    ensures FinishResult(d, Complete, d')
  {
    if SealOf(d).Some? {
      var seal := SealFile(SealOf(d).value);
      var d1 := Apply(d, seal);
      var rest := EnvelopeWrites(c, d1, Completed, None);
      SurvivingCons(d, seal, rest, power);
      if power != 0 {
        OneEnvelopeOutcome(c, d1, Completed, None, rest, power - 1, d');
      }
    }
  }

  /** Without a complete receipt one envelope is written; with one, its seal comes first. */
  lemma FinishOutcome(c: Timing, d: Disk, status: Status, power: nat, d': Disk)
    requires d' == Surviving(d, FinishWrites(c, d, status), power)
    ensures FinishResult(d, status, d')
  {
    match status
    case Complete => SealOutcome(c, d, power, d');
    case Failed =>
      OneEnvelopeOutcome(c, d, FailedClosed, Some(SampleFailed), FinishWrites(c, d, status), power, d');
    case InProgress =>
      OneEnvelopeOutcome(c, d, Running, None, FinishWrites(c, d, status), power, d');
  }

  lemma ReceiptOutcome(c: Timing, d: Disk, u: Receipt, d1: Disk, power: nat, d': Disk)
    requires d1 == Apply(d, ReceiptFile(u))
    requires d' == Surviving(d, [ReceiptFile(u)] + FinishWrites(c, d1, u.status), power)
    ensures (power == 0 && d' == d) || (power != 0 && FinishResult(d1, u.status, d'))
  {
    SurvivingCons(d, ReceiptFile(u), FinishWrites(c, d1, u.status), power);
    if power != 0 {
      FinishOutcome(c, d1, u.status, power - 1, d');
    }
  }

  lemma ChainOutcome(c: Timing, d: Disk, u: Receipt, s: Sample, writes: seq<Write>, power: nat, d': Disk)
    requires |d.chain| + 1 == |u.samples| && Binding(d, s).Some?
    requires writes == ChainWrites(c, d, u, s) && d' == Surviving(d, writes, power)
    ensures ChainResult(d, u, s, d', |writes| <= power)
  {
    var link := SignedLink(Payload(|u.samples|, s, Binding(d, s).value, Previous(d.chain)));
    var d1 := Apply(d, ChainFile(d.chain + [link]));
    var d2 := Apply(d1, ReceiptFile(u));
    SurvivingCons(d, ChainFile(d.chain + [link]), [ReceiptFile(u)] + FinishWrites(c, d2, u.status), power);
    if power != 0 {
      ReceiptOutcome(c, d1, u, d2, power - 1, d');
    }
  }

  lemma AcceptedOutcome(c: Timing, d: Disk, u: Receipt, s: Sample, d1: Disk, writes: seq<Write>, power: nat, d': Disk)
    requires |d.chain| + 1 == |u.samples| && Binding(d, s).Some?
    requires d1 == Apply(d, SampleFile(|u.samples|, s))
    requires writes == [SampleFile(|u.samples|, s)] + ChainWrites(c, d1, u, s) && d' == Surviving(d, writes, power)
    ensures RecordResult(d, Some(u), s, d', |writes| <= power)
  {
    SurvivingCons(d, SampleFile(|u.samples|, s), ChainWrites(c, d1, u, s), power);
    if power != 0 {
      ChainOutcome(c, d1, u, s, ChainWrites(c, d1, u, s), power - 1, d');
    }
  }

  lemma RecordOutcome(c: Timing, d: Disk, r: Receipt, s: Sample, writes: seq<Write>, power: nat, d': Disk)
    requires AppendSample(c, r, s).Some? ==> |d.chain| + 1 == |AppendSample(c, r, s).value.samples|
    requires Binding(d, s).Some?
    requires writes == RecordWrites(c, d, r, s) && d' == Surviving(d, writes, power)
    ensures RecordResult(d, AppendSample(c, r, s), s, d', |writes| <= power)
  {
    var updated := AppendSample(c, r, s);
    if updated.None? {
      OneEnvelopeOutcome(c, d, FailedClosed, Some(SampleAppendRejected), writes, power, d');
    } else {
      AcceptedOutcome(c, d, updated.value, s, Apply(d, SampleFile(|updated.value.samples|, s)), writes, power, d');
    }
  }

  // What those relations keep.

  ghost predicate RecordSafe(c: Timing, d: Disk, e: Disk) {
    && Aligned(c, e) && Certified(c, e) && Extends(d, e) && e.orphans == d.orphans
  }

  ghost predicate Settled(d: Disk) {
    d.receipt.Some? && d.receipt.value.status == InProgress ==>
      NotCompleted(d) && |d.chain| == |Samples(d)| && |Ledger(d)| == |Samples(d)|
  }

  lemma RecordSafeAfter(c: Timing, d: Disk, d1: Disk, e: Disk)
    requires Extends(d, d1) && d1.orphans == d.orphans && RecordSafe(c, d1, e)
    ensures RecordSafe(c, d, e)
  {
    ExtendsTransitive(d, d1, e);
  }

  /** A completion envelope appears only behind the seal of an aligned, complete receipt. */
  lemma FinishIsSafe(c: Timing, d: Disk, status: Status, d': Disk)
    requires Aligned(c, d) && NotCompleted(d) && status == d.receipt.value.status
    requires FinishResult(d, status, d')
    ensures RecordSafe(c, d, d')
  {
    SameEvidenceKeeps(c, d, d');
    if d'.envelope != d.envelope && status == Complete {
      SealedIsOneToOne(c, d');
    }
  }

  lemma ReceiptStage(c: Timing, d: Disk, u: Receipt, s: Sample, link: Link, d2: Disk, d': Disk)
    requires Resumed(c, d) && ReceiptOk(c, u) && u.samples == Samples(d) + [s] && BoundTo(d, s)
    requires Binding(d, s).Some?
    requires link == SignedLink(Payload(|u.samples|, s, Binding(d, s).value, Previous(d.chain)))
    requires d2 == Apply(Apply(d, ChainFile(d.chain + [link])), ReceiptFile(u))
    requires FinishResult(d2, u.status, d')
    ensures RecordSafe(c, d, d') && Settled(d')
  {
    ReceiptStep(c, d, u, s, link);
    FinishIsSafe(c, d2, u.status, d');
    RecordSafeAfter(c, d, d2, d');
  }

  lemma ChainStage(c: Timing, d: Disk, u: Receipt, s: Sample, d': Disk, whole: bool)
    requires Resumed(c, d) && ReceiptOk(c, u) && u.samples == Samples(d) + [s] && BoundTo(d, s)
    requires ChainResult(d, u, s, d', whole)
    ensures RecordSafe(c, d, d')
    ensures whole ==> Settled(d')
  {
    var link := SignedLink(Payload(|u.samples|, s, Binding(d, s).value, Previous(d.chain)));
    var d1 := Apply(d, ChainFile(d.chain + [link]));
    if FinishResult(Apply(d1, ReceiptFile(u)), u.status, d') {
      ReceiptStage(c, d, u, s, link, Apply(d1, ReceiptFile(u)), d');
    } else if d' == d1 {
      ChainStep(c, d, link);
    }
  }

  lemma AppendFacts(c: Timing, r: Receipt, s: Sample)
    requires AppendSample(c, r, s).Some?
    ensures var u := AppendSample(c, r, s).value;
            ReceiptOk(c, u) && u.samples == r.samples + [s] && Follows(c, r.samples, s)
  {
  }

  /** Any prefix of the sample, chain, receipt, seal and envelope writes leaves the disk aligned. */
  lemma RecordStage(c: Timing, d: Disk, updated: Option<Receipt>, s: Sample, d': Disk, whole: bool)
    requires Resumed(c, d) && BoundTo(d, s)
    requires updated.Some? ==> ReceiptOk(c, updated.value) && updated.value.samples == Samples(d) + [s]
    requires RecordResult(d, updated, s, d', whole)
    ensures RecordSafe(c, d, d')
    ensures whole && updated.Some? ==> Settled(d')
  {
    if updated.None? {
      SameEvidenceKeeps(c, d, d');
    } else if ChainResult(Apply(d, SampleFile(|updated.value.samples|, s)), updated.value, s, d', whole) {
      var d1 := Apply(d, SampleFile(|updated.value.samples|, s));
      SameEvidenceKeeps(c, d, d1);
      ChainStage(c, d1, updated.value, s, d', whole);
      RecordSafeAfter(c, d, d1, d');
    }
  }

  lemma SampledIsBound(d: Disk, d1: Disk, sampling: Sampling, epoch: int, monotonic: int, o: Observation)
    requires sampling.recorded ==> o.content.Some?
    requires |Samples(d)| <= |Ledger(d)| && d1.receipt == d.receipt
    requires sampling.recorded ==>
               && d1.ledger == Some(Ledger(d)[..|Samples(d)|] + [Entry(epoch, o.content.value)])
               && EntryOk(d1, Entry(epoch, o.content.value), None)
    ensures BoundTo(d1, Sampled(sampling, epoch, monotonic, o))
  {
  }

  ghost predicate IterationSafe(c: Timing, d: Disk, e: Disk) {
    Aligned(c, e) && Certified(c, e) && Extends(d, e) && ArchivesAtMostTrailing(d, e)
  }

  lemma IterationSafeAfter(c: Timing, d: Disk, d1: Disk, e: Disk)
    requires SnapshotSafe(c, d, d1) && RecordSafe(c, d1, e)
    ensures IterationSafe(c, d, e)
  {
    ExtendsTransitive(d, d1, e);
  }

  lemma RecordingStage(c: Timing, d: Disk, r: Receipt, s: Sample, writes: seq<Write>, power: nat, d': Disk)
    requires Resumed(c, d) && d.receipt == Some(r) && BoundTo(d, s)
    requires writes == RecordWrites(c, d, r, s) && d' == Surviving(d, writes, power)
    ensures RecordSafe(c, d, d')
    ensures |writes| <= power && d'.receipt != d.receipt ==> Settled(d')
  {
    BindingOfNew(c, d, s);
    if AppendSample(c, r, s).Some? {
      AppendFacts(c, r, s);
    }
    RecordOutcome(c, d, r, s, writes, power, d');
    RecordStage(c, d, AppendSample(c, r, s), s, d', |writes| <= power);
  }

  lemma RecordAfterSnapshot(c: Timing, d: Disk, r: Receipt, epoch: int, monotonic: int, o: Observation,
                            sampling: Sampling, d1: Disk, s: Sample, record: seq<Write>, power: nat, d': Disk)
    requires Resumed(c, d) && d.receipt == Some(r) && r.samples[|r.samples| - 1].epoch < epoch
    requires sampling == SnapshotWrites(c, d, epoch, o) && d1 == After(d, sampling.writes)
    requires s == Sampled(sampling, epoch, monotonic, o) && record == RecordWrites(c, d1, r, s)
    requires d' == Surviving(d1, record, power)
    ensures IterationSafe(c, d, d')
    ensures |record| <= power && d'.receipt != d.receipt ==> Settled(d')
  {
    SnapshotStage(c, d, epoch, o, |sampling.writes|, sampling, d1);
    SampledIsBound(d, d1, sampling, epoch, monotonic, o);
    RecordingStage(c, d1, r, s, record, power, d');
    IterationSafeAfter(c, d, d1, d');
  }

  lemma CutEarlyIsSafe(c: Timing, d: Disk, epoch: int, o: Observation, sampling: Sampling, power: nat, d': Disk)
    requires Resumed(c, d) && Samples(d)[|Samples(d)| - 1].epoch < epoch
    requires sampling == SnapshotWrites(c, d, epoch, o) && d' == Surviving(d, sampling.writes, power)
    ensures IterationSafe(c, d, d')
  {
    SnapshotStage(c, d, epoch, o, power, sampling, d');
  }

  /** What an iteration guarantees, as one fact: `whole` when the process lived through all of it. */
  ghost function IterationResults(c: Timing, d: Disk, whole: bool): iset<Disk> {
    iset e: Disk | IterationSafe(c, d, e) && (whole && e.receipt != d.receipt ==> Settled(e))
  }

  lemma CutEarlyResult(c: Timing, d: Disk, epoch: int, o: Observation, sampling: Sampling, power: nat, d': Disk)
    requires Resumed(c, d) && Samples(d)[|Samples(d)| - 1].epoch < epoch
    requires sampling == SnapshotWrites(c, d, epoch, o) && d' == Surviving(d, sampling.writes, power)
    ensures d' in IterationResults(c, d, false)
  {
    CutEarlyIsSafe(c, d, epoch, o, sampling, power, d');
  }

  lemma RecordedResult(c: Timing, d: Disk, r: Receipt, epoch: int, monotonic: int, o: Observation,
                       sampling: Sampling, d1: Disk, s: Sample, record: seq<Write>, power: nat, d': Disk)
    requires Resumed(c, d) && d.receipt == Some(r) && r.samples[|r.samples| - 1].epoch < epoch
    requires sampling == SnapshotWrites(c, d, epoch, o) && d1 == After(d, sampling.writes)
    requires s == Sampled(sampling, epoch, monotonic, o) && record == RecordWrites(c, d1, r, s)
    requires d' == Surviving(d1, record, power)
    ensures d' in IterationResults(c, d, |record| <= power)
  {
    RecordAfterSnapshot(c, d, r, epoch, monotonic, o, sampling, d1, s, record, power, d');
  }

  /** A whole iteration, cut off anywhere: aligned, certified, nothing lost, at most one archived. */
  lemma IterationIsCrashSafe(c: Timing, d: Disk, r: Receipt, epoch: int, monotonic: int, o: Observation,
                             sampling: Sampling, d1: Disk, s: Sample, record: seq<Write>, power: nat, d': Disk)
    requires Resumed(c, d) && d.receipt == Some(r) && r.samples[|r.samples| - 1].epoch < epoch
    requires sampling == SnapshotWrites(c, d, epoch, o) && d1 == After(d, sampling.writes)
    requires s == Sampled(sampling, epoch, monotonic, o) && record == RecordWrites(c, d1, r, s)
    requires d' == TwoStages(d, sampling.writes, record, power)
    ensures d' in IterationResults(c, d, |sampling.writes| + |record| <= power)
  {
    if power < |sampling.writes| {
      CutEarlyResult(c, d, epoch, o, sampling, power, d');
    } else {
      RecordedResult(c, d, r, epoch, monotonic, o, sampling, d1, s, record, power - |sampling.writes|, d');
    }
  }

  // ---- Coverage and bounds ----

  lemma {:induction false} SamplesAdvance(c: Timing, samples: seq<Sample>, i: nat)
    requires c.Valid() && SamplesOk(c, samples) && i < |samples|
    ensures c.started + i * c.Interval() <= samples[i].epoch
  {
    assert Follows(c, samples[..i], samples[i]);
    if i != 0 {
      SamplesAdvance(c, samples, i - 1);
      assert samples[..i][i - 1] == samples[i - 1];
    }
  }

  /** The sample-count guard can never fire: spacing and the bounded deadline already imply it. */
  lemma CountGuardIsImplied(c: Timing, samples: seq<Sample>)
    requires c.Valid() && SamplesOk(c, samples)
    ensures |samples| <= c.MaxSamples()
  {
    var n := |samples|;
    if 2 < n {
      SamplesAdvance(c, samples, n - 1);
      assert InWindow(c, samples[n - 1]);
      assert (n - 2) * c.interval <= c.hours * 3600;
      QuotientBound(n - 2, c.interval, c.hours * 3600);
    }
  }

  lemma QuotientBound(k: nat, d: int, total: int)
    requires 0 < d && k * d <= total
    ensures k <= total / d
  {
    if total / d + 1 <= k {
      ProductGrows(total / d + 1, k, d);
    }
  }

  lemma ProductGrows(a: int, b: int, d: int)
    requires a <= b && 0 < d
    ensures a * d <= b * d
  {
  }

  lemma SamplesExtended(c: Timing, samples: seq<Sample>, s: Sample)
    requires SamplesOk(c, samples) && SampleOk(s) && InWindow(c, s) && Follows(c, samples, s)
    ensures SamplesOk(c, samples + [s])
  {
    var all := samples + [s];
    forall i | 0 <= i < |all| ensures SampleOk(all[i]) && InWindow(c, all[i]) && Follows(c, all[..i], all[i]) {
      if i < |samples| {
        assert all[i] == samples[i] && all[..i] == samples[..i];
        assert SampleOk(samples[i]) && Follows(c, samples[..i], samples[i]);
      } else {
        assert all[..i] == samples;
      }
    }
  }

  /** A passing sample past one deadline but not the other: neither running nor complete. */
  predicate Straddles(c: Timing, s: Sample) {
    (c.Deadline() <= s.epoch) != (c.DeadlineMonotonic() <= s.monotonic)
  }

  /** Exactly which samples a running receipt takes, and what becomes of it. */
  lemma AppendIff(c: Timing, r: Receipt, s: Sample)
    requires ReceiptOk(c, r) && r.status == InProgress
    ensures AppendSample(c, r, s).Some? <==>
            SampleOk(s) && Follows(c, r.samples, s) && InWindow(c, s) && !(s.passed && Straddles(c, s))
    ensures AppendSample(c, r, s).Some? ==>
              AppendSample(c, r, s).value ==
              Receipt(if !s.passed then Failed else if c.Deadline() <= s.epoch then Complete else InProgress,
                      r.samples + [s])
  {
    var all := r.samples + [s];
    if SampleOk(s) && Follows(c, r.samples, s) {
      assert c.started <= s.epoch && c.startedMonotonic <= s.monotonic by {
        if r.samples != [] {
          assert InWindow(c, r.samples[|r.samples| - 1]);
        }
      }
      if InWindow(c, s) {
        SamplesExtended(c, r.samples, s);
        CountGuardIsImplied(c, all);
        assert all[|all| - 1] == s && s in all;
        assert s.passed ==> forall x | x in all :: x.passed;
      }
    }
  }

  predicate Close(times: seq<int>, i: nat, gap: nat)
    requires 0 < i < |times|
  {
    times[i] <= times[i - 1] + 2 * gap
  }

  lemma {:induction false} NearestTime(times: seq<int>, t: int, gap: nat)
    requires times != [] && times[0] - gap <= t <= times[|times| - 1]
    requires forall i | 0 < i < |times| :: Close(times, i, gap)
    ensures exists i :: 0 <= i < |times| && times[i] - gap <= t <= times[i] + gap
  {
    var n := |times| - 1;
    if t < times[n] - gap {
      assert 0 < n && Close(times, n, gap);
      if t <= times[n - 1] {
        forall i | 0 < i < n ensures Close(times[..n], i, gap) {
          assert Close(times, i, gap);
        }
        NearestTime(times[..n], t, gap);
        var i :| 0 <= i < n && times[..n][i] - gap <= t <= times[..n][i] + gap;
        assert times[i] - gap <= t <= times[i] + gap;
      } else {
        assert times[n - 1] - gap <= t <= times[n - 1] + gap;
      }
    } else {
      assert times[n] - gap <= t <= times[n] + gap;
    }
  }

  lemma StepsBounded(c: Timing, samples: seq<Sample>)
    requires SamplesOk(c, samples) && samples != []
    ensures FirstOk(c, samples[0])
    ensures forall i {:trigger Spaced(c, samples[i - 1], samples[i])} | 0 < i < |samples| ::
              Spaced(c, samples[i - 1], samples[i])
  {
    assert Follows(c, samples[..0], samples[0]);
    forall i | 0 < i < |samples| ensures Spaced(c, samples[i - 1], samples[i]) {
      assert Follows(c, samples[..i], samples[i]);
      assert samples[..i][i - 1] == samples[i - 1];
    }
  }

  /** A completed soak leaves no gap: a passing sample lies within one interval of every instant. */
  lemma CompletedSoakCoversItsWindow(c: Timing, r: Receipt, t: int)
    requires ReceiptOk(c, r) && r.status == Complete && c.started <= t <= c.Deadline()
    ensures exists i :: 0 <= i < |r.samples| && r.samples[i].passed
                        && r.samples[i].epoch - c.Interval() <= t <= r.samples[i].epoch + c.Interval()
  {
    StepsBounded(c, r.samples);
    var times := seq(|r.samples|, i requires 0 <= i < |r.samples| => r.samples[i].epoch);
    forall i | 0 < i < |times| ensures Close(times, i, c.Interval()) {
      assert Spaced(c, r.samples[i - 1], r.samples[i]);
    }
    NearestTime(times, t, c.Interval());
    var i :| 0 <= i < |times| && times[i] - c.Interval() <= t <= times[i] + c.Interval();
    assert r.samples[i] in r.samples;
  }

  lemma CompletedSoakCoversMonotonicWindow(c: Timing, r: Receipt, t: int)
    requires ReceiptOk(c, r) && r.status == Complete && c.startedMonotonic <= t <= c.DeadlineMonotonic()
    ensures exists i :: 0 <= i < |r.samples| && r.samples[i].passed
                        && r.samples[i].monotonic - c.Interval() <= t <= r.samples[i].monotonic + c.Interval()
  {
    StepsBounded(c, r.samples);
    var times := seq(|r.samples|, i requires 0 <= i < |r.samples| => r.samples[i].monotonic);
    forall i | 0 < i < |times| ensures Close(times, i, c.Interval()) {
      assert Spaced(c, r.samples[i - 1], r.samples[i]);
    }
    NearestTime(times, t, c.Interval());
    var i :| 0 <= i < |times| && times[i] - c.Interval() <= t <= times[i] + c.Interval();
    assert r.samples[i] in r.samples;
  }

  /** The last signature of a valid chain fixes every sample before it. */
  lemma {:induction false} TipDeterminesHistory(d: Disk, samples: seq<Sample>, e: Disk, others: seq<Sample>, n: nat)
    requires ChainExact(d, samples) && ChainExact(e, others)
    requires 0 < n <= |samples| && n <= |others|
    requires d.chain[n - 1].signature == e.chain[n - 1].signature
    ensures d.chain[..n] == e.chain[..n] && samples[..n] == others[..n]
  {
    assert LinkOk(d, n - 1, samples[n - 1]) && LinkOk(e, n - 1, others[n - 1]);
    if 1 < n {
      assert d.chain[..n - 1][n - 2] == d.chain[n - 2] && e.chain[..n - 1][n - 2] == e.chain[n - 2];
      TipDeterminesHistory(d, samples, e, others, n - 1);
    }
    assert d.chain[..n] == d.chain[..n - 1] + [d.chain[n - 1]];
    assert e.chain[..n] == e.chain[..n - 1] + [e.chain[n - 1]];
    assert samples[..n] == samples[..n - 1] + [samples[n - 1]];
    assert others[..n] == others[..n - 1] + [others[n - 1]];
  }

  // ---- Start and restart ----

  /** A restart that goes on sampling. */
  ghost predicate Resumable(c: Timing, d: Disk) {
    Accepts(c, d) && d.receipt.value.status == InProgress && d.receipt.value.samples != []
  }

  /** Writing the running envelope is itself a safe step, from any disk the restart accepts. */
  lemma ResumptionIsSafe(c: Timing, d: Disk, e: Envelope)
    requires Resumable(c, d) && e.status == Running
    ensures var d' := Apply(d, EnvelopeFile(e));
            Resumed(c, d') && IterationSafe(c, d, d')
  {
    AcceptsRunningIff(c, d);
    SameEvidenceKeeps(c, d, Apply(d, EnvelopeFile(e)));
  }

  /** One matched sample, snapshot and link: what a completed start leaves. */
  lemma StartIsCoherent(c: Timing, d: Disk, s: Sample, e: Entry)
    requires d.receipt == Some(Receipt(InProgress, [s])) && ReceiptOk(c, d.receipt.value)
    requires d.ledger == Some([e]) && EntryOk(d, e, Some(s))
    requires d.chain == [SignedLink(Payload(1, s, Some(e), None))]
    ensures Coherent(c, d) && !HasOrphan(d)
  {
    assert LinkAt(d, [s], [e], 0);
  }

  /** A start that stopped before its chain write is never resumed. */
  lemma UnchainedIsNotResumable(c: Timing, d: Disk)
    requires d.chain == []
    ensures !Resumable(c, d)
  {
  }

  // ---- Progress ----

  /** Every entry of the kept ledger and the new one is backed by a database, at its own epoch. */
  lemma NewEntryChecks(c: Timing, d: Disk, e: Entry)
    requires Resumed(c, d) && Newer(d, e)
    ensures LedgerCheck(d, Ledger(d)[..|Samples(d)|] + [e], None, true).Some?
  {
    var kept := Ledger(d)[..|Samples(d)|];
    var l := kept + [e];
    forall i | 0 <= i < |l| ensures EntryOk(d, l[i], None) {
      if i < |kept| {
        assert l[i] == Ledger(d)[i];
        assert EntryOk(d, Ledger(d)[i], None);
      }
    }
    forall i, j | 0 <= i < j < |l| ensures l[i].epoch != l[j].epoch {
      assert l[i] == Ledger(d)[i] && l[i] in Ledger(d);
      if j < |kept| {
        assert l[j] == Ledger(d)[j];
      }
    }
  }

  lemma AppendSucceedsIff(c: Timing, d: Disk, e: Entry, o: Observation)
    requires Resumed(c, d) && Newer(d, e)
    ensures LedgerAppend(d, Ledger(d)[..|Samples(d)|], e, o).recorded <==> !o.ledgerFails
  {
    NewEntryChecks(c, d, e);
  }

  lemma ArchivedAppendSucceedsIff(c: Timing, d: Disk, d1: Disk, e: Entry, o: Observation)
    requires Resumed(c, d) && Newer(d, e) && HasOrphan(d)
    requires d1 == Apply(d, OrphanFile(Archived(d.orphans, Ledger(d)[|Samples(d)|])))
    ensures LedgerAppend(d1, Ledger(d)[..|Samples(d)|], e, o).recorded <==> !o.ledgerFails
  {
    OrphanStep(c, d);
    assert Newer(d1, e);
    AppendSucceedsIff(c, d1, e, o);
  }

  lemma LedgerSucceedsIff(c: Timing, d: Disk, e: Entry, o: Observation)
    requires Resumed(c, d) && Newer(d, e)
    ensures LedgerWrites(c, d, e, o).recorded <==> !o.ledgerFails && (HasOrphan(d) ==> !o.archiveFails)
  {
    LedgerCheckIffRecorded(d, Samples(d), Ledger(d), true);
    if HasOrphan(d) {
      var d1 := Apply(d, OrphanFile(Archived(d.orphans, Ledger(d)[|Samples(d)|])));
      ArchivedAppendSucceedsIff(c, d, d1, e, o);
    } else {
      assert Ledger(d)[..|Samples(d)|] == Ledger(d);
      AppendSucceedsIff(c, d, e, o);
    }
  }

  /** A due sampling fails to record its snapshot exactly for one of four reasons. */
  lemma SnapshotSucceedsIff(c: Timing, d: Disk, epoch: int, o: Observation)
    requires Resumed(c, d) && Samples(d)[|Samples(d)| - 1].epoch < epoch
    ensures SnapshotWrites(c, d, epoch, o).recorded <==>
            && o.content.Some? && epoch !in d.databases && !o.ledgerFails
            && (HasOrphan(d) ==> !o.archiveFails)
  {
    if o.content.Some? && epoch !in d.databases {
      var e := Entry(epoch, o.content.value);
      DatabaseStep(c, d, epoch, e.content);
      SnapshotIsNewer(c, d, e);
      LedgerSucceedsIff(c, Apply(d, DatabaseFile(epoch, e.content)), e, o);
    }
  }

  /** What a sampling yields is a legal sample exactly when its one error is the one it must report. */
  lemma SampledOkIff(s: Sampling, epoch: int, monotonic: int, o: Observation)
    requires s.recorded ==> o.content.Some?
    ensures SampleOk(Sampled(s, epoch, monotonic, o)) <==>
            0 < epoch && 0 < monotonic && (s.recorded && !o.readable ==> !o.error)
    ensures Sampled(s, epoch, monotonic, o).passed <==>
            && s.recorded && o.readable && !o.error && o.digestMatches
            && o.drift == 0 && o.content.value.rows == 0
  {
  }

  /** Whatever sample the receipt accepts is recorded by an iteration that is not cut off. */
  lemma AcceptedSampleIsRecorded(
    c: Timing, d: Disk, r: Receipt, epoch: int, monotonic: int, o: Observation,
    sampling: Sampling, d1: Disk, s: Sample, d': Disk)
    requires Resumed(c, d) && d.receipt == Some(r) && r.samples[|r.samples| - 1].epoch < epoch
    requires sampling == SnapshotWrites(c, d, epoch, o) && d1 == After(d, sampling.writes)
    requires s == Sampled(sampling, epoch, monotonic, o) && AppendSample(c, r, s).Some?
    requires d' == After(d1, RecordWrites(c, d1, r, s))
    ensures d'.receipt == AppendSample(c, r, s) && |d'.chain| == |d.chain| + 1
  {
    SnapshotStage(c, d, epoch, o, |sampling.writes|, sampling, d1);
    SampledIsBound(d, d1, sampling, epoch, monotonic, o);
    BoundSampleIsRecorded(c, d1, r, s, RecordWrites(c, d1, r, s), d');
  }

  lemma BoundSampleIsRecorded(c: Timing, d: Disk, r: Receipt, s: Sample, writes: seq<Write>, d': Disk)
    requires Resumed(c, d) && d.receipt == Some(r) && BoundTo(d, s) && AppendSample(c, r, s).Some?
    requires writes == RecordWrites(c, d, r, s) && d' == After(d, writes)
    ensures d'.receipt == AppendSample(c, r, s) && |d'.chain| == |d.chain| + 1
  {
    BindingOfNew(c, d, s);
    AppendFacts(c, r, s);
    RecordOutcome(c, d, r, s, writes, |writes|, d');
  }

  /** A process that dies between the link and the receipt of any accepted sample is never resumed. */
  lemma CrashAfterLinkIsFinal(c: Timing, d: Disk, r: Receipt, s: Sample, d': Disk)
    requires Resumed(c, d) && d.receipt == Some(r) && BoundTo(d, s) && AppendSample(c, r, s).Some?
    requires d' == Surviving(d, RecordWrites(c, d, r, s), 2)
    ensures d'.receipt == d.receipt && |d'.chain| == |r.samples| + 1 && !Accepts(c, d')
  {
    BindingOfNew(c, d, s);
    AppendFacts(c, r, s);
    var u := AppendSample(c, r, s).value;
    var d1 := Apply(d, SampleFile(|u.samples|, s));
    SurvivingCons(d, SampleFile(|u.samples|, s), ChainWrites(c, d1, u, s), 2);
    LinkAlone(c, d1, u, s);
    AcceptsRunningIff(c, d');
  }

  lemma LinkAlone(c: Timing, d: Disk, u: Receipt, s: Sample)
    requires |d.chain| + 1 == |u.samples| && Binding(d, s).Some?
    ensures var link := SignedLink(Payload(|u.samples|, s, Binding(d, s).value, Previous(d.chain)));
            Surviving(d, ChainWrites(c, d, u, s), 1) == Apply(d, ChainFile(d.chain + [link]))
  {
    var link := SignedLink(Payload(|u.samples|, s, Binding(d, s).value, Previous(d.chain)));
    var d1 := Apply(Apply(d, ChainFile(d.chain + [link])), ReceiptFile(u));
    SurvivingCons(d, ChainFile(d.chain + [link]), [ReceiptFile(u)] + FinishWrites(c, d1, u.status), 1);
  }

  /** The outside world lets a due sampling pass. */
  predicate LetsPass(d: Disk, epoch: int, o: Observation) {
    && o.content.Some? && o.content.value.rows == 0 && epoch !in d.databases
    && !o.archiveFails && !o.ledgerFails
    && o.readable && !o.error && o.digestMatches && o.drift == 0
  }

  /**
   Every undisturbed sampling in time makes progress: the receipt grows by a passing sample, and is
   complete as soon as both deadlines have passed.
   */
  lemma PassingIterationProgresses(
    c: Timing, d: Disk, r: Receipt, epoch: int, monotonic: int, o: Observation,
    sampling: Sampling, d1: Disk, s: Sample, d': Disk)
    requires Resumed(c, d) && d.receipt == Some(r) && LetsPass(d, epoch, o)
    requires sampling == SnapshotWrites(c, d, epoch, o) && d1 == After(d, sampling.writes)
    requires s == Sampled(sampling, epoch, monotonic, o)
    requires Spaced(c, r.samples[|r.samples| - 1], s) && InWindow(c, s) && !Straddles(c, s)
    requires d' == After(d1, RecordWrites(c, d1, r, s))
    ensures s.passed
    ensures d'.receipt == Some(Receipt(if c.Deadline() <= epoch then Complete else InProgress, r.samples + [s]))
  {
    SnapshotSucceedsIff(c, d, epoch, o);
    SampledOkIff(sampling, epoch, monotonic, o);
    LastIsPositive(c, r);
    AppendIff(c, r, s);
    AcceptedSampleIsRecorded(c, d, r, epoch, monotonic, o, sampling, d1, s, d');
  }

  lemma LastIsPositive(c: Timing, r: Receipt)
    requires ReceiptOk(c, r) && r.samples != []
    ensures 0 < r.samples[|r.samples| - 1].epoch && 0 < r.samples[|r.samples| - 1].monotonic && 0 < c.Interval()
  {
    assert SampleOk(r.samples[|r.samples| - 1]);
  }
}
