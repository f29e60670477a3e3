/**
 The durable files of the restart-safe soak monitor and the checks it makes on them.  An HMAC is
 the payload it signs, so equal signatures mean equal payloads; a sample's digest is the sample.
 */
module SoakModel {
  import opened Wrappers

  /** The authenticated timing of one soak; receipts must repeat it. */
  datatype Timing = Timing(started: int, startedMonotonic: int, hours: int, interval: int) {
    predicate Valid() {
      24 <= hours <= 72 && 60 <= interval <= 3600 && 0 < startedMonotonic
    }

    function Interval(): int {
      interval * 1000
    }

    function Deadline(): int {
      started + hours * 3600000
    }

    function DeadlineMonotonic(): int {
      startedMonotonic + hours * 3600000
    }

    function MaxSamples(): int
      requires Valid()
    {
      hours * 3600 / interval + 2
    }
  }

  /** A snapshot database: its digest and the number of runtime-authority rows it holds. */
  datatype Content = Content(digest: string, rows: nat)

  /** A snapshot receipt; the epoch names the database file. */
  datatype Entry = Entry(epoch: int, content: Content)

  /** `misattributed`: the runtime authority went unobserved, but the recorded error is an earlier one. */
  datatype Sample = Sample(
    epoch: int, monotonic: int, passed: bool, observed: bool, rows: nat,
    violations: nat, digestMatches: bool, clean: bool, misattributed: bool)

  datatype Status = InProgress | Complete | Failed

  datatype Receipt = Receipt(status: Status, samples: seq<Sample>)

  datatype Payload = Payload(index: nat, sample: Sample, snapshot: Option<Entry>, previous: Option<Signature>)

  datatype Signature = Hmac(payload: Payload)

  datatype Link = Link(payload: Payload, signature: Signature)

  datatype SealPayload = SealPayload(receipt: Receipt, ledger: seq<Entry>, chain: seq<Link>)

  datatype SealSignature = SealHmac(payload: SealPayload)

  datatype Seal = Seal(payload: SealPayload, signature: SealSignature)

  datatype MonitorStatus = FirstSamplePass | Running | Completed | FailedClosed | Stopped

  datatype Violation =
    | CoreReceiptInvalid | CoreReceiptFailed | SealMissing | StopRequestInvalid | MissingFirstSample
    | CoverageGap | SampleAppendRejected | SampleFailed | FirstSampleFailed

  datatype Envelope = Envelope(status: MonitorStatus, violation: Option<Violation>, samples: nat, snapshots: nat)

  /** Everything the monitor leaves on disk; a missing chain or orphan archive reads as empty. */
  datatype Disk = Disk(
    databases: map<int, Content>, ledger: Option<seq<Entry>>, orphans: seq<Entry>,
    sampleFiles: map<nat, Sample>, chain: seq<Link>, receipt: Option<Receipt>,
    seal: Option<Seal>, envelope: Option<Envelope>)

  // ---- Atomic writes ----

  datatype Write =
    | DatabaseFile(epoch: int, content: Content)
    | OrphanFile(entries: seq<Entry>)
    | LedgerFile(entries: seq<Entry>)
    | SampleFile(index: nat, sample: Sample)
    | ChainFile(links: seq<Link>)
    | ReceiptFile(receipt: Receipt)
    | SealFile(seal: Seal)
    | EnvelopeFile(envelope: Envelope)

  function Apply(d: Disk, w: Write): Disk {
    match w
    case DatabaseFile(epoch, content) => d.(databases := d.databases[epoch := content])
    case OrphanFile(entries) => d.(orphans := entries)
    case LedgerFile(entries) => d.(ledger := Some(entries))
    case SampleFile(index, sample) => d.(sampleFiles := d.sampleFiles[index := sample])
    case ChainFile(links) => d.(chain := links)
    case ReceiptFile(receipt) => d.(receipt := Some(receipt))
    case SealFile(seal) => d.(seal := Some(seal))
    case EnvelopeFile(envelope) => d.(envelope := Some(envelope))
  }

  /** The disk after a crash that lets only the first `power` of the writes through. */
  function Surviving(d: Disk, writes: seq<Write>, power: nat): Disk
    decreases |writes|
  {
    if power == 0 || writes == [] then d else Surviving(Apply(d, writes[0]), writes[1..], power - 1)
  }

  function After(d: Disk, writes: seq<Write>): Disk {
    Surviving(d, writes, |writes|)
  }

  // ---- Core receipt ----

  predicate SampleOk(s: Sample) {
    && 0 < s.epoch && 0 < s.monotonic
    && (!s.observed ==> !s.clean && 1 <= s.violations && !s.misattributed)
    && (s.passed <==> s.digestMatches && s.clean && s.violations == 0 && s.rows == 0)
  }

  predicate InWindow(c: Timing, s: Sample) {
    && c.started <= s.epoch <= c.Deadline() + c.Interval()
    && c.startedMonotonic <= s.monotonic <= c.DeadlineMonotonic() + c.Interval()
  }

  /** One to two intervals apart on both clocks. */
  predicate Spaced(c: Timing, a: Sample, b: Sample) {
    && a.epoch + c.Interval() <= b.epoch <= a.epoch + 2 * c.Interval()
    && a.monotonic + c.Interval() <= b.monotonic <= a.monotonic + 2 * c.Interval()
  }

  predicate FirstOk(c: Timing, s: Sample) {
    && c.started <= s.epoch <= c.started + c.Interval()
    && c.startedMonotonic <= s.monotonic <= c.startedMonotonic + c.Interval()
  }

  predicate Follows(c: Timing, samples: seq<Sample>, s: Sample) {
    if samples == [] then FirstOk(c, s) else Spaced(c, samples[|samples| - 1], s)
  }

  predicate StatusOk(c: Timing, r: Receipt) {
    var n := |r.samples|;
    match r.status
    case Complete =>
      && 0 < n
      && c.Deadline() <= r.samples[n - 1].epoch && c.DeadlineMonotonic() <= r.samples[n - 1].monotonic
      && forall s | s in r.samples :: s.passed
    case Failed => 0 < n && !r.samples[n - 1].passed
    case InProgress =>
      && (forall s | s in r.samples :: s.passed)
      && (0 < n ==> r.samples[n - 1].epoch < c.Deadline() && r.samples[n - 1].monotonic < c.DeadlineMonotonic())
  }

  predicate SamplesOk(c: Timing, samples: seq<Sample>) {
    && (forall i {:trigger SampleOk(samples[i])} {:trigger InWindow(c, samples[i])} | 0 <= i < |samples| ::
          SampleOk(samples[i]) && InWindow(c, samples[i]))
    && (forall i {:trigger Follows(c, samples[..i], samples[i])} | 0 <= i < |samples| :: Follows(c, samples[..i], samples[i]))
  }

  predicate ReceiptOk(c: Timing, r: Receipt) {
    c.Valid() && |r.samples| <= c.MaxSamples() && SamplesOk(c, r.samples) && StatusOk(c, r)
  }

  /** Appends one sample, or refuses. */
  function AppendSample(c: Timing, r: Receipt, s: Sample): Option<Receipt> {
    if !ReceiptOk(c, r) || r.status != InProgress || !SampleOk(s) || !Follows(c, r.samples, s) then None
    else if s.epoch > c.Deadline() + c.Interval() || s.monotonic > c.DeadlineMonotonic() + c.Interval() then None
    else if |r.samples| + 1 > c.MaxSamples() then None
    else
      var status :=
        if !s.passed || 0 < s.violations then Failed
        else if c.Deadline() <= s.epoch && c.DeadlineMonotonic() <= s.monotonic then Complete
        else InProgress;
      var updated := Receipt(status, r.samples + [s]);
      if ReceiptOk(c, updated) then Some(updated) else None
  }

  // ---- Snapshot ledger ----

  predicate EntryOk(d: Disk, e: Entry, sample: Option<Sample>) {
    && e.epoch in d.databases && d.databases[e.epoch] == e.content
    && (sample.Some? ==>
          && sample.value.epoch == e.epoch
          && (sample.value.observed ==> sample.value.rows == e.content.rows))
  }

  predicate DistinctEpochs(l: seq<Entry>) {
    forall i, j | 0 <= i < j < |l| :: l[i].epoch != l[j].epoch
  }

  predicate KeptOk(d: Disk, kept: seq<Entry>, samples: Option<seq<Sample>>) {
    && (samples.Some? ==> |kept| == |samples.value|)
    && (forall i | 0 <= i < |kept| ::
          EntryOk(d, kept[i], if samples.Some? then Some(samples.value[i]) else None))
    && DistinctEpochs(kept)
  }

  predicate TrailingOk(d: Disk, kept: seq<Entry>, trailing: Entry, samples: seq<Sample>) {
    && EntryOk(d, trailing, None)
    && (forall e | e in kept :: e.epoch != trailing.epoch)
    && (0 < |samples| ==> samples[|samples| - 1].epoch < trailing.epoch)
  }

  predicate HasTrailing(l: seq<Entry>, samples: Option<seq<Sample>>) {
    samples.Some? && |l| == |samples.value| + 1
  }

  /** The validated entries without an unmatched trailing one, or nothing. */
  function LedgerCheck(d: Disk, l: seq<Entry>, samples: Option<seq<Sample>>, allowTrailing: bool)
    : Option<seq<Entry>>
  {
    if HasTrailing(l, samples) then
      var kept := l[..|l| - 1];
      if allowTrailing && KeptOk(d, kept, samples) && TrailingOk(d, kept, l[|l| - 1], samples.value)
      then Some(kept) else None
    else if KeptOk(d, l, samples) then Some(l) else None
  }

  function Archived(orphans: seq<Entry>, e: Entry): seq<Entry> {
    if e in orphans then orphans else orphans + [e]
  }

  // ---- Authentication chain ----

  function WithEpoch(l: seq<Entry>, epoch: int): seq<Entry> {
    if l == [] then []
    else
      var n := |l| - 1;
      WithEpoch(l[..n], epoch) + if l[n].epoch == epoch then [l[n]] else []
  }

  /** The snapshot a sample is bound to: none for an unobserved one, else its single ledger entry. */
  function Binding(d: Disk, s: Sample): Option<Option<Entry>> {
    if !s.observed then Some(None)
    else if d.ledger.None? then None
    else
      var matches := WithEpoch(d.ledger.value, s.epoch);
      if |matches| == 1 && EntryOk(d, matches[0], Some(s)) then Some(Some(matches[0])) else None
  }

  function SignedLink(payload: Payload): Link {
    Link(payload, Hmac(payload))
  }

  function Previous(chain: seq<Link>): Option<Signature> {
    if chain == [] then None else Some(chain[|chain| - 1].signature)
  }

  predicate LinkOk(d: Disk, i: nat, s: Sample)
    requires i < |d.chain|
  {
    var snapshot := Binding(d, s);
    snapshot.Some? && d.chain[i] == SignedLink(Payload(i + 1, s, snapshot.value, Previous(d.chain[..i])))
  }

  predicate ChainExact(d: Disk, samples: seq<Sample>) {
    |d.chain| == |samples| && forall i | 0 <= i < |samples| :: LinkOk(d, i, samples[i])
  }

  // ---- Envelope ----

  function SealOf(d: Disk): Option<Seal> {
    if d.receipt.None? || d.ledger.None? then None
    else
      var payload := SealPayload(d.receipt.value, d.ledger.value, d.chain);
      Some(Seal(payload, SealHmac(payload)))
  }

  predicate SealOk(d: Disk) {
    d.seal.Some? && d.seal == SealOf(d)
  }

  predicate ChecksChain(status: MonitorStatus) {
    status == Running || status == Completed || status == FirstSamplePass
  }

  predicate ShowsReceipt(c: Timing, d: Disk, status: MonitorStatus) {
    && d.receipt.Some? && ReceiptOk(c, d.receipt.value)
    && (status == Completed ==> d.receipt.value.status == Complete && d.ledger.Some?)
    && (ChecksChain(status) ==> ChainExact(d, d.receipt.value.samples))
  }

  function ShownSamples(c: Timing, d: Disk, status: MonitorStatus): Option<seq<Sample>> {
    if ShowsReceipt(c, d, status) then Some(d.receipt.value.samples) else None
  }

  function ShownSnapshots(c: Timing, d: Disk, status: MonitorStatus): Option<seq<Entry>> {
    if d.ledger.None? then Some([])
    else LedgerCheck(d, d.ledger.value, ShownSamples(c, d, status), status != Completed)
  }

  /** The envelope for a status; refused unless the files support it, except when failing closed. */
  function EnvelopeOf(c: Timing, d: Disk, status: MonitorStatus, violation: Option<Violation>): Option<Envelope> {
    var samples := ShownSamples(c, d, status);
    var snapshots := ShownSnapshots(c, d, status);
    if status == FailedClosed then
      Some(Envelope(status, violation,
                    if samples.Some? then |samples.value| else 0,
                    if snapshots.Some? then |snapshots.value| else 0))
    else if (status == Completed && d.receipt.None?) || (d.receipt.Some? && samples.None?) then None
    else if snapshots.None? || (status == Completed && !SealOk(d)) then None
    else
      Some(Envelope(status, violation, if samples.Some? then |samples.value| else 0, |snapshots.value|))
  }

  // ---- What one iteration writes ----

  /** The answers of the outside world during one sampling; `error` comes before the row counts. */
  datatype Observation = Observation(
    content: Option<Content>, archiveFails: bool, ledgerFails: bool,
    readable: bool, error: bool, digestMatches: bool, drift: nat)

  datatype Sampling = Sampling(writes: seq<Write>, recorded: bool)

  function ParitySample(epoch: int, monotonic: int, content: Content, o: Observation): Sample {
    var rows := if o.readable then content.rows else 0;
    var clean := o.readable && !o.error;
    var violations := rows + (if o.readable then 0 else 1) + o.drift + (if o.digestMatches then 0 else 1);
    Sample(epoch, monotonic, clean && violations == 0, o.readable, rows, violations, o.digestMatches, clean,
           !o.readable && o.error)
  }

  function FailedSample(epoch: int, monotonic: int): Sample {
    Sample(epoch, monotonic, false, false, 0, 1, true, false, false)
  }

  function LedgerAppend(d: Disk, kept: seq<Entry>, e: Entry, o: Observation): Sampling {
    if LedgerCheck(d, kept + [e], None, true).None? || o.ledgerFails then Sampling([], false)
    else Sampling([LedgerFile(kept + [e])], true)
  }

  function LedgerWrites(c: Timing, d: Disk, e: Entry, o: Observation): Sampling {
    if d.ledger.None? then LedgerAppend(d, [], e, o)
    else if d.receipt.Some? && !ReceiptOk(c, d.receipt.value) then Sampling([], false)
    else
      var l := d.ledger.value;
      var samples := if d.receipt.Some? then Some(d.receipt.value.samples) else None;
      var kept := LedgerCheck(d, l, samples, true);
      if kept.None? then Sampling([], false)
      else if HasTrailing(l, samples) then
        if o.archiveFails then Sampling([], false)
        else
          var archive := OrphanFile(Archived(d.orphans, l[|l| - 1]));
          var rest := LedgerAppend(Apply(d, archive), kept.value, e, o);
          Sampling([archive] + rest.writes, rest.recorded)
      else LedgerAppend(d, kept.value, e, o)
  }

  function SnapshotWrites(c: Timing, d: Disk, epoch: int, o: Observation): (s: Sampling)
    ensures s.recorded ==> o.content.Some? && s.writes != []
  {
    if o.content.None? || epoch in d.databases then Sampling([], false)
    else
      var database := DatabaseFile(epoch, o.content.value);
      var rest := LedgerWrites(c, Apply(d, database), Entry(epoch, o.content.value), o);
      Sampling([database] + rest.writes, rest.recorded)
  }

  function Sampled(s: Sampling, epoch: int, monotonic: int, o: Observation): Sample
    requires s.recorded ==> o.content.Some?
  {
    if s.recorded then ParitySample(epoch, monotonic, o.content.value, o) else FailedSample(epoch, monotonic)
  }

  function EnvelopeWrites(c: Timing, d: Disk, status: MonitorStatus, violation: Option<Violation>): seq<Write> {
    var envelope := EnvelopeOf(c, d, status, violation);
    if envelope.Some? then [EnvelopeFile(envelope.value)] else []
  }

  function FinishWrites(c: Timing, d: Disk, status: Status): seq<Write> {
    match status
    case Failed => EnvelopeWrites(c, d, FailedClosed, Some(SampleFailed))
    case InProgress => EnvelopeWrites(c, d, Running, None)
    case Complete =>
      if SealOf(d).None? then []
      else
        var seal := SealFile(SealOf(d).value);
        [seal] + EnvelopeWrites(c, Apply(d, seal), Completed, None)
  }

  function ChainWrites(c: Timing, d: Disk, updated: Receipt, s: Sample): seq<Write> {
    var snapshot := Binding(d, s);
    if |d.chain| + 1 != |updated.samples| || snapshot.None? then []
    else
      var link := SignedLink(Payload(|updated.samples|, s, snapshot.value, Previous(d.chain)));
      var chain, receipt := ChainFile(d.chain + [link]), ReceiptFile(updated);
      [chain] + ([receipt] + FinishWrites(c, Apply(Apply(d, chain), receipt), updated.status))
  }

  function RecordWrites(c: Timing, d: Disk, r: Receipt, s: Sample): seq<Write> {
    var updated := AppendSample(c, r, s);
    if updated.None? then EnvelopeWrites(c, d, FailedClosed, Some(SampleAppendRejected))
    else
      var file := SampleFile(|updated.value.samples|, s);
      [file] + ChainWrites(c, Apply(d, file), updated.value, s)
  }

  /** One list of writes after another, cut off after `power` of them. */
  function TwoStages(d: Disk, first: seq<Write>, second: seq<Write>, power: nat): Disk {
    if power < |first| then Surviving(d, first, power)
    else Surviving(After(d, first), second, power - |first|)
  }

  // ---- What a start writes ----

  /** The first link, and the failure of a first sample that does not pass. */
  function FirstLinkWrites(c: Timing, d: Disk, s: Sample): seq<Write> {
    var snapshot := Binding(d, s);
    if |d.chain| != 0 || snapshot.None? then []
    else
      var chain := ChainFile(d.chain + [SignedLink(Payload(1, s, snapshot.value, Previous(d.chain)))]);
      [chain] + if s.passed then [] else EnvelopeWrites(c, Apply(d, chain), FailedClosed, Some(FirstSampleFailed))
  }

  /** Receipt, sample file, link: nothing when the first sample is refused. */
  function FirstWrites(c: Timing, d: Disk, s: Sample): seq<Write> {
    var updated := AppendSample(c, Receipt(InProgress, []), s);
    if updated.None? then []
    else
      var receipt, file := ReceiptFile(updated.value), SampleFile(1, s);
      [receipt] + ([file] + FirstLinkWrites(c, Apply(Apply(d, receipt), file), s))
  }
}
