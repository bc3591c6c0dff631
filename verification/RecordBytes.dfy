/** The bytes of the persisted records and of a frame, field by field: what another reader or
    writer of the format has to agree with. */
module RecordBytes {
  import opened Enums
  import opened Records
  import opened Devices
  import opened Wire
  import opened Crc
  import opened RecordCodecs
  import opened DeviceCodec
  import opened Persistence
  import Protocol

  // ---- Fields ----

  /** `bs` is the little-endian form of `n`: byte `i` has weight 256 to the power `i`. */
  ghost predicate LittleEndian(bs: seq<byte>, n: nat) {
    if bs == [] then n == 0 else bs[0] as int == n % 256 && LittleEndian(bs[1..], n / 256)
  }

  lemma {:induction false} PutIsLittleEndian(n: nat, width: nat)
    requires n < Pow256(width)
    ensures LittleEndian(PutLE(n, width), n)
    decreases width
  {
    if width > 0 {
      ByteOfInt(n % 256);
      PutIsLittleEndian(n / 256, width - 1);
      assert PutLE(n, width)[1..] == PutLE(n / 256, width - 1);
    }
  }

  /** A signed number is written as the unsigned one it equals modulo 2^64. */
  lemma TwosComplement(i: I64)
    ensures 0 <= Unsigned64(i) < UINT64 && (Unsigned64(i) == i || Unsigned64(i) == i + UINT64)
  {
  }

  lemma CharactersAreBytes(t: string)
    requires IsBytes(t)
    ensures |Bytes(t)| == |t| && forall i :: 0 <= i < |t| ==> Bytes(t)[i] as int == t[i] as int
  {
    forall i | 0 <= i < |t| ensures Bytes(t)[i] as int == t[i] as int {
      ByteOfInt(t[i] as int);
    }
  }

  // The forms of a field.

  function Code(n: nat): seq<byte> { PutLE(n, 1) }
  function Flag(b: bool): seq<byte> { PutLE(if b then 1 else 0, 1) }
  function Word(n: nat): seq<byte> { PutLE(n, 4) }
  function Long(n: nat): seq<byte> { PutLE(n, 8) }
  function Time(i: I64): seq<byte> { PutLE(Unsigned64(i), 8) }
  function Text(t: string): seq<byte>
    requires IsBytes(t)
  {
    PutLE(|t|, 4) + Bytes(t)
  }

  /** One piece after the other. */
  function Joined(pieces: seq<seq<byte>>): seq<byte> {
    if pieces == [] then [] else pieces[0] + Joined(pieces[1..])
  }

  function Pieces(tys: seq<Ty>, vs: Row): (ps: seq<seq<byte>>)
    requires FitsRow(tys, vs)
    ensures |ps| == |tys|
  {
    seq(|tys|, i requires 0 <= i < |tys| => Put(tys[i], vs[i]))
  }

  lemma {:induction false} RowIsPieces(tys: seq<Ty>, vs: Row)
    requires FitsRow(tys, vs)
    ensures PutRow(tys, vs) == Joined(Pieces(tys, vs))
    decreases |tys|
  {
    hide Put;
    if tys != [] {
      RowIsPieces(tys[1..], vs[1..]);
      assert Pieces(tys, vs)[1..] == Pieces(tys[1..], vs[1..]);
    }
  }

  // ---- Records, field by field ----

  function PolicyPieces(p: HealthPolicy): seq<seq<byte>> {
    [Long(p.id), Code(p.requiredValidationDepth),
     Time(p.freshness.current), Time(p.freshness.stale), Time(p.freshness.expire),
     Word(p.degradeAfterFailures), Word(p.unhealthyAfterFailures), Word(p.quarantineAfterFailures),
     Word(p.recoveryValidationsRequired), Code(p.revalidationProfile), Flag(p.allowDegradedReadiness),
     Flag(p.fatalFaultTriggersQuarantine), Flag(p.requireEnumeratedForHealth)]
  }

  lemma PolicyBytes(p: HealthPolicy)
    ensures FitsRow(POLICY_LAYOUT, PolicyRow(p))
    ensures PutRow(POLICY_LAYOUT, PolicyRow(p)) == Joined(PolicyPieces(p))
  {
    hide PutRow, Joined, PutLE, FitsRow;
    PolicyRoundTrip(p);
    RowIsPieces(POLICY_LAYOUT, PolicyRow(p));
    PolicyPiecesAre(p);
  }

  lemma PolicyPiecesAre(p: HealthPolicy)
    requires FitsRow(POLICY_LAYOUT, PolicyRow(p))
    ensures Pieces(POLICY_LAYOUT, PolicyRow(p)) == PolicyPieces(p)
  {
    hide PutLE, FitsRow;
  }

  function DimensionPieces(r: HealthDimension): seq<seq<byte>>
    requires DimensionWritable(r)
  {
    [Code(r.kind), Code(DimensionCode(r.state)), Code(r.evidence), Time(r.timestamp), Long(r.observationGeneration),
     Long(r.deviceGeneration), Word(r.confidence), Code(r.severity), Text(r.reason), Long(r.value), Text(r.units)]
  }

  lemma DimensionBytes(r: HealthDimension)
    requires DimensionWritable(r)
    ensures FitsRow(DIMENSION_LAYOUT, DimensionRow(r))
    ensures PutRow(DIMENSION_LAYOUT, DimensionRow(r)) == Joined(DimensionPieces(r))
  {
    hide PutRow, Joined, PutLE, FitsRow;
    DimensionRoundTrip(r);
    RowIsPieces(DIMENSION_LAYOUT, DimensionRow(r));
    DimensionPiecesAre(r);
  }

  lemma DimensionPiecesAre(r: HealthDimension)
    requires DimensionWritable(r) && FitsRow(DIMENSION_LAYOUT, DimensionRow(r))
    ensures Pieces(DIMENSION_LAYOUT, DimensionRow(r)) == DimensionPieces(r)
  {
    hide PutLE, FitsRow;
  }

  function EvidencePieces(e: Evidence): seq<seq<byte>>
    requires EvidenceWritable(e)
  {
    [Long(e.id), Long(e.accelerator), Code(e.dimension), Code(DimensionCode(e.state)), Code(e.evidenceClass),
     Time(e.timestamp), Long(e.observationGeneration), Long(e.workerId), Long(e.workerBootId),
     Long(e.deviceGeneration), Word(e.confidence), Code(e.severity), Text(e.reason), Long(e.value), Text(e.units)]
  }

  lemma EvidenceBytes(e: Evidence)
    requires EvidenceWritable(e)
    ensures FitsRow(EVIDENCE_LAYOUT, EvidenceRow(e))
    ensures PutRow(EVIDENCE_LAYOUT, EvidenceRow(e)) == Joined(EvidencePieces(e))
  {
    hide PutRow, Joined, PutLE, FitsRow;
    EvidenceRoundTrip(e);
    RowIsPieces(EVIDENCE_LAYOUT, EvidenceRow(e));
    EvidencePiecesAre(e);
  }

  lemma EvidencePiecesAre(e: Evidence)
    requires EvidenceWritable(e) && FitsRow(EVIDENCE_LAYOUT, EvidenceRow(e))
    ensures Pieces(EVIDENCE_LAYOUT, EvidenceRow(e)) == EvidencePieces(e)
  {
    hide PutLE, FitsRow;
  }

  function FaultPieces(f: Fault): seq<seq<byte>>
    requires FaultWritable(f)
  {
    [Long(f.id), Long(f.accelerator), Code(f.kind), Code(f.faultClass), Code(f.severity), Time(f.timestamp),
     Long(f.observationGeneration), Long(f.worker), Long(f.workerBootId), Text(f.evidence),
     Flag(f.transient), Flag(f.recoverable), Flag(f.fatal), Text(f.causalMetadata),
     Code(ResolutionCode(f.resolution)), Time(f.resolvedAt)]
  }

  lemma FaultBytes(f: Fault)
    requires FaultWritable(f)
    ensures FitsRow(FAULT_LAYOUT, FaultRow(f))
    ensures PutRow(FAULT_LAYOUT, FaultRow(f)) == Joined(FaultPieces(f))
  {
    hide PutRow, Joined, PutLE, FitsRow;
    FaultRoundTrip(f);
    RowIsPieces(FAULT_LAYOUT, FaultRow(f));
    FaultPiecesAre(f);
  }

  lemma FaultPiecesAre(f: Fault)
    requires FaultWritable(f) && FitsRow(FAULT_LAYOUT, FaultRow(f))
    ensures Pieces(FAULT_LAYOUT, FaultRow(f)) == FaultPieces(f)
  {
    hide PutLE, FitsRow;
  }

  function ValidationPieces(v: ValidationRecord): seq<seq<byte>>
    requires ValidationWritable(v)
  {
    [Long(v.id), Long(v.accelerator), Time(v.timestamp), Code(v.profile), Code(v.depth), Flag(v.passed),
     Word(v.maxError), Text(v.detail), Long(v.worker), Long(v.workerBootId), Long(v.validationGeneration),
     Long(v.deviceGeneration)]
  }

  lemma ValidationBytes(v: ValidationRecord)
    requires ValidationWritable(v)
    ensures FitsRow(VALIDATION_LAYOUT, ValidationRow(v))
    ensures PutRow(VALIDATION_LAYOUT, ValidationRow(v)) == Joined(ValidationPieces(v))
  {
    hide PutRow, Joined, PutLE, FitsRow;
    ValidationRoundTrip(v);
    RowIsPieces(VALIDATION_LAYOUT, ValidationRow(v));
    ValidationPiecesAre(v);
  }

  lemma ValidationPiecesAre(v: ValidationRecord)
    requires ValidationWritable(v) && FitsRow(VALIDATION_LAYOUT, ValidationRow(v))
    ensures Pieces(VALIDATION_LAYOUT, ValidationRow(v)) == ValidationPieces(v)
  {
    hide PutLE, FitsRow;
  }

  function ChangePieces(g: HealthChange): seq<seq<byte>>
    requires ChangeWritable(g)
  {
    [Time(g.timestamp), Long(g.accelerator), Code(HealthCode(g.from)), Code(HealthCode(g.to)),
     Code(ReadinessCode(g.readinessFrom)), Code(ReadinessCode(g.readinessTo)), Text(g.tag), Text(g.detail),
     Long(g.healthGeneration), Long(g.policyGeneration)]
  }

  lemma ChangeBytes(g: HealthChange)
    requires ChangeWritable(g)
    ensures FitsRow(CHANGE_LAYOUT, ChangeRow(g))
    ensures PutRow(CHANGE_LAYOUT, ChangeRow(g)) == Joined(ChangePieces(g))
  {
    hide PutRow, Joined, PutLE, FitsRow;
    ChangeRoundTrip(g);
    RowIsPieces(CHANGE_LAYOUT, ChangeRow(g));
    ChangePiecesAre(g);
  }

  lemma ChangePiecesAre(g: HealthChange)
    requires ChangeWritable(g) && FitsRow(CHANGE_LAYOUT, ChangeRow(g))
    ensures Pieces(CHANGE_LAYOUT, ChangeRow(g)) == ChangePieces(g)
  {
    hide PutLE, FitsRow;
  }

  function QuarantinePieces(q: QuarantineRecord): seq<seq<byte>>
    requires QuarantineWritable(q)
  {
    [Long(q.id), Time(q.timestamp), Code(q.authority), Text(q.reason), Text(q.triggeredBy),
     Long(q.policyGeneration), Long(q.deviceGeneration), Long(q.healthGeneration), Flag(q.active)]
  }

  lemma QuarantineBytes(q: QuarantineRecord)
    requires QuarantineWritable(q)
    ensures FitsRow(QUARANTINE_LAYOUT, QuarantineRow(q))
    ensures PutRow(QUARANTINE_LAYOUT, QuarantineRow(q)) == Joined(QuarantinePieces(q))
  {
    hide PutRow, Joined, PutLE, FitsRow;
    QuarantineRoundTrip(q);
    RowIsPieces(QUARANTINE_LAYOUT, QuarantineRow(q));
    QuarantinePiecesAre(q);
  }

  lemma QuarantinePiecesAre(q: QuarantineRecord)
    requires QuarantineWritable(q) && FitsRow(QUARANTINE_LAYOUT, QuarantineRow(q))
    ensures Pieces(QUARANTINE_LAYOUT, QuarantineRow(q)) == QuarantinePieces(q)
  {
    hide PutLE, FitsRow;
  }

  function RecoveryPieces(r: RecoveryRecord): seq<seq<byte>>
    requires RecoveryWritable(r)
  {
    [Long(r.id), Long(r.generation), Time(r.begin), Text(r.profile), Word(r.successfulValidations),
     Flag(r.completed), Time(r.end)]
  }

  lemma RecoveryBytes(r: RecoveryRecord)
    requires RecoveryWritable(r)
    ensures FitsRow(RECOVERY_LAYOUT, RecoveryRow(r))
    ensures PutRow(RECOVERY_LAYOUT, RecoveryRow(r)) == Joined(RecoveryPieces(r))
  {
    hide PutRow, Joined, PutLE, FitsRow;
    RecoveryRoundTrip(r);
    RowIsPieces(RECOVERY_LAYOUT, RecoveryRow(r));
    RecoveryPiecesAre(r);
  }

  lemma RecoveryPiecesAre(r: RecoveryRecord)
    requires RecoveryWritable(r) && FitsRow(RECOVERY_LAYOUT, RecoveryRow(r))
    ensures Pieces(RECOVERY_LAYOUT, RecoveryRow(r)) == RecoveryPieces(r)
  {
    hide PutLE, FitsRow;
  }

  // ---- Lists and optional records ----

  /** A list is its length and then its records. */
  function Counted(items: seq<seq<byte>>): seq<byte> {
    Word(|items|) + Joined(items)
  }

  function Items<T>(form: T --> seq<byte>, xs: seq<T>): (items: seq<seq<byte>>)
    requires forall i :: 0 <= i < |xs| ==> form.requires(xs[i])
    ensures |items| == |xs| && forall i :: 0 <= i < |xs| ==> items[i] == form(xs[i])
  {
    seq(|xs|, i requires 0 <= i < |xs| && form.requires(xs[i]) => form(xs[i]))
  }

  lemma {:induction false} RowsAreItems(tys: seq<Ty>, rows: seq<Row>, items: seq<seq<byte>>)
    requires |items| == |rows|
    requires forall j :: 0 <= j < |rows| ==> FitsRow(tys, rows[j]) && PutRow(tys, rows[j]) == items[j]
    ensures PutRows(tys, rows) == Joined(items)
    decreases |rows|
  {
    hide FitsRow, PutRow;
    if rows != [] {
      RowsAreItems(tys, rows[1..], items[1..]);
    }
  }

  lemma ListIsItems(tys: seq<Ty>, rows: seq<Row>, items: seq<seq<byte>>)
    requires |items| == |rows| && Fits(TList(tys), VList(rows))
    requires forall j :: 0 <= j < |rows| ==> FitsRow(tys, rows[j]) && PutRow(tys, rows[j]) == items[j]
    ensures Put(TList(tys), VList(rows)) == Counted(items)
  {
    hide FitsRow, PutRow, PutRows, Joined, PutLE;
    RowsAreItems(tys, rows, items);
  }

  function DimensionForm(x: HealthDimension): seq<byte>
    requires DimensionWritable(x)
  {
    Joined(DimensionPieces(x))
  }

  function DimensionPart(xs: seq<HealthDimension>): seq<byte>
    requires forall i :: 0 <= i < |xs| ==> DimensionWritable(xs[i])
  {
    Counted(Items(DimensionForm, xs))
  }

  function EvidenceForm(x: Evidence): seq<byte>
    requires EvidenceWritable(x)
  {
    Joined(EvidencePieces(x))
  }

  function EvidencePart(xs: seq<Evidence>): seq<byte>
    requires forall i :: 0 <= i < |xs| ==> EvidenceWritable(xs[i])
  {
    Counted(Items(EvidenceForm, xs))
  }

  function FaultForm(x: Fault): seq<byte>
    requires FaultWritable(x)
  {
    Joined(FaultPieces(x))
  }

  function FaultPart(xs: seq<Fault>): seq<byte>
    requires forall i :: 0 <= i < |xs| ==> FaultWritable(xs[i])
  {
    Counted(Items(FaultForm, xs))
  }

  function ValidationForm(x: ValidationRecord): seq<byte>
    requires ValidationWritable(x)
  {
    Joined(ValidationPieces(x))
  }

  function ValidationPart(xs: seq<ValidationRecord>): seq<byte>
    requires forall i :: 0 <= i < |xs| ==> ValidationWritable(xs[i])
  {
    Counted(Items(ValidationForm, xs))
  }

  function ChangeForm(x: HealthChange): seq<byte>
    requires ChangeWritable(x)
  {
    Joined(ChangePieces(x))
  }

  function ChangePart(xs: seq<HealthChange>): seq<byte>
    requires forall i :: 0 <= i < |xs| ==> ChangeWritable(xs[i])
  {
    Counted(Items(ChangeForm, xs))
  }

  lemma DimensionListBytes(xs: seq<HealthDimension>)
    requires |xs| <= MAX_COUNT && forall i :: 0 <= i < |xs| ==> DimensionWritable(xs[i])
    ensures Fits(TList(DIMENSION_LAYOUT), VList(ToRows(DimensionRow, xs)))
    ensures Put(TList(DIMENSION_LAYOUT), VList(ToRows(DimensionRow, xs))) == DimensionPart(xs)
  {
    hide FitsRow, PutRow, Put, Joined, Counted, DimensionRow, DimensionPieces, DimensionWritable;
    forall i | 0 <= i < |xs|
      ensures FitsRow(DIMENSION_LAYOUT, DimensionRow(xs[i]))
      ensures PutRow(DIMENSION_LAYOUT, DimensionRow(xs[i])) == Joined(DimensionPieces(xs[i]))
    {
      DimensionBytes(xs[i]);
    }
    ListIsItems(DIMENSION_LAYOUT, ToRows(DimensionRow, xs), Items(DimensionForm, xs));
  }

  lemma EvidenceListBytes(xs: seq<Evidence>)
    requires |xs| <= MAX_COUNT && forall i :: 0 <= i < |xs| ==> EvidenceWritable(xs[i])
    ensures Fits(TList(EVIDENCE_LAYOUT), VList(ToRows(EvidenceRow, xs)))
    ensures Put(TList(EVIDENCE_LAYOUT), VList(ToRows(EvidenceRow, xs))) == EvidencePart(xs)
  {
    hide FitsRow, PutRow, Put, Joined, Counted, EvidenceRow, EvidencePieces, EvidenceWritable;
    forall i | 0 <= i < |xs|
      ensures FitsRow(EVIDENCE_LAYOUT, EvidenceRow(xs[i]))
      ensures PutRow(EVIDENCE_LAYOUT, EvidenceRow(xs[i])) == Joined(EvidencePieces(xs[i]))
    {
      EvidenceBytes(xs[i]);
    }
    ListIsItems(EVIDENCE_LAYOUT, ToRows(EvidenceRow, xs), Items(EvidenceForm, xs));
  }

  lemma FaultListBytes(xs: seq<Fault>)
    requires |xs| <= MAX_COUNT && forall i :: 0 <= i < |xs| ==> FaultWritable(xs[i])
    ensures Fits(TList(FAULT_LAYOUT), VList(ToRows(FaultRow, xs)))
    ensures Put(TList(FAULT_LAYOUT), VList(ToRows(FaultRow, xs))) == FaultPart(xs)
  {
    hide FitsRow, PutRow, Put, Joined, Counted, FaultRow, FaultPieces, FaultWritable;
    forall i | 0 <= i < |xs|
      ensures FitsRow(FAULT_LAYOUT, FaultRow(xs[i]))
      ensures PutRow(FAULT_LAYOUT, FaultRow(xs[i])) == Joined(FaultPieces(xs[i]))
    {
      FaultBytes(xs[i]);
    }
    ListIsItems(FAULT_LAYOUT, ToRows(FaultRow, xs), Items(FaultForm, xs));
  }

  lemma ValidationListBytes(xs: seq<ValidationRecord>)
    requires |xs| <= MAX_COUNT && forall i :: 0 <= i < |xs| ==> ValidationWritable(xs[i])
    ensures Fits(TList(VALIDATION_LAYOUT), VList(ToRows(ValidationRow, xs)))
    ensures Put(TList(VALIDATION_LAYOUT), VList(ToRows(ValidationRow, xs))) == ValidationPart(xs)
  {
    hide FitsRow, PutRow, Put, Joined, Counted, ValidationRow, ValidationPieces, ValidationWritable;
    forall i | 0 <= i < |xs|
      ensures FitsRow(VALIDATION_LAYOUT, ValidationRow(xs[i]))
      ensures PutRow(VALIDATION_LAYOUT, ValidationRow(xs[i])) == Joined(ValidationPieces(xs[i]))
    {
      ValidationBytes(xs[i]);
    }
    ListIsItems(VALIDATION_LAYOUT, ToRows(ValidationRow, xs), Items(ValidationForm, xs));
  }

  lemma ChangeListBytes(xs: seq<HealthChange>)
    requires |xs| <= MAX_COUNT && forall i :: 0 <= i < |xs| ==> ChangeWritable(xs[i])
    ensures Fits(TList(CHANGE_LAYOUT), VList(ToRows(ChangeRow, xs)))
    ensures Put(TList(CHANGE_LAYOUT), VList(ToRows(ChangeRow, xs))) == ChangePart(xs)
  {
    hide FitsRow, PutRow, Put, Joined, Counted, ChangeRow, ChangePieces, ChangeWritable;
    forall i | 0 <= i < |xs|
      ensures FitsRow(CHANGE_LAYOUT, ChangeRow(xs[i]))
      ensures PutRow(CHANGE_LAYOUT, ChangeRow(xs[i])) == Joined(ChangePieces(xs[i]))
    {
      ChangeBytes(xs[i]);
    }
    ListIsItems(CHANGE_LAYOUT, ToRows(ChangeRow, xs), Items(ChangeForm, xs));
  }

  // ---- The assessment ----

  function VerdictPieces(a: HealthAssessment): seq<seq<byte>> {
    [Long(a.id), Long(a.accelerator), Long(a.uuid), Code(HealthCode(a.state)), Code(ReadinessCode(a.readiness)),
     Code(a.validationDepth), Word(a.confidence), Code(a.action)]
  }

  function StandingPieces(a: HealthAssessment): seq<seq<byte>> {
    [Flag(a.executionReady), Flag(a.quarantined), Long(a.quarantineId), Flag(a.inRecovery), Time(a.timestamp),
     Long(a.healthGeneration), Long(a.policyGeneration), Long(a.deviceGeneration)]
  }

  function TextForm(t: string): seq<byte>
    requires Writable(t)
  {
    Text(t)
  }

  function ReasonPart(rs: seq<string>): seq<byte>
    requires forall i :: 0 <= i < |rs| ==> Writable(rs[i])
  {
    Counted(Items(TextForm, rs))
  }

  function AssessmentPieces(a: HealthAssessment): seq<seq<byte>>
    requires AssessmentWritable(a)
  {
    [Joined(VerdictPieces(a)), Joined(StandingPieces(a)), ReasonPart(a.reasons), TextForm(a.digest)]
  }

  lemma VerdictBytes(a: HealthAssessment)
    requires FitsWord(a.healthGeneration) && FitsWord(a.policyGeneration)
    ensures FitsRow(VERDICT_LAYOUT, VerdictRow(a)) && FitsRow(STANDING_LAYOUT, StandingRow(a))
    ensures PutRow(VERDICT_LAYOUT, VerdictRow(a)) == Joined(VerdictPieces(a))
    ensures PutRow(STANDING_LAYOUT, StandingRow(a)) == Joined(StandingPieces(a))
  {
    hide PutRow, Joined, PutLE, FitsRow;
    VerdictRowFits(a);
    StandingRowFits(a);
    RowIsPieces(VERDICT_LAYOUT, VerdictRow(a));
    RowIsPieces(STANDING_LAYOUT, StandingRow(a));
    assert Pieces(VERDICT_LAYOUT, VerdictRow(a)) == VerdictPieces(a);
    assert Pieces(STANDING_LAYOUT, StandingRow(a)) == StandingPieces(a);
  }

  lemma ReasonBytes(rs: seq<string>)
    requires |rs| <= MAX_COUNT && forall i :: 0 <= i < |rs| ==> Writable(rs[i])
    ensures Fits(TList(REASON_LAYOUT), VList(ReasonRows(rs)))
    ensures Put(TList(REASON_LAYOUT), VList(ReasonRows(rs))) == ReasonPart(rs)
  {
    ReasonsRoundTrip(rs);
    hide Put, PutLE, Bytes, IsBytes, Joined;
    forall i | 0 <= i < |rs|
      ensures FitsRow(REASON_LAYOUT, ReasonRows(rs)[i])
      ensures PutRow(REASON_LAYOUT, ReasonRows(rs)[i]) == Items(TextForm, rs)[i]
    {
      OneReason(rs[i]);
    }
    ListIsItems(REASON_LAYOUT, ReasonRows(rs), Items(TextForm, rs));
  }

  lemma OneReason(t: string)
    requires Writable(t)
    ensures FitsRow(REASON_LAYOUT, [VText(t)]) && PutRow(REASON_LAYOUT, [VText(t)]) == Text(t)
  {
    assert Put(TText, VText(t)) + [] == Text(t);
  }

  lemma AssessmentBytes(a: HealthAssessment)
    requires AssessmentWritable(a)
    ensures FitsRow(ASSESSMENT_LAYOUT, AssessmentRow(a))
    ensures PutRow(ASSESSMENT_LAYOUT, AssessmentRow(a)) == Joined(AssessmentPieces(a))
  {
    hide PutRow, Joined, PutLE, FitsRow, VerdictRow, StandingRow, ReasonRows, VerdictPieces, StandingPieces, Counted;
    AssessmentFits(a);
    VerdictBytes(a);
    ReasonBytes(a.reasons);
    RowIsPieces(ASSESSMENT_LAYOUT, AssessmentRow(a));
    assert Pieces(ASSESSMENT_LAYOUT, AssessmentRow(a)) == AssessmentPieces(a);
  }

  // ---- The device ----

  function HeadPieces(d: Device): seq<seq<byte>> {
    [Long(d.id), Long(d.identity.uuid), Long(d.identity.node), Long(d.evidence.lastWorker),
     Long(d.evidence.lastWorkerBootId), Long(d.evidence.generation), Code(HealthCode(d.health.state)),
     Code(ReadinessCode(d.judgement.readiness)), Long(d.health.generation), Long(d.health.transitions)]
  }

  function DatesPieces(d: Device): seq<seq<byte>> {
    [Code(d.history.highestValidation), Time(d.evidence.lastObservation), Time(d.identity.firstSeen)]
  }

  function FlagsPieces(d: Device): seq<seq<byte>> {
    [Flag(d.evidence.deviceGenerationChanged), Flag(d.evidence.policyGenerationChanged), Flag(d.care.inRecovery),
     Flag(d.care.present)]
  }

  function QuarantinePart(q: Option<QuarantineRecord>): seq<byte>
    requires q.Some? ==> QuarantineWritable(q.value)
  {
    if q.Some? then Flag(true) + Joined(QuarantinePieces(q.value)) else Flag(false)
  }

  function RecoveryPart(r: Option<RecoveryRecord>): seq<byte>
    requires r.Some? ==> RecoveryWritable(r.value)
  {
    if r.Some? then Flag(true) + Joined(RecoveryPieces(r.value)) else Flag(false)
  }

  lemma ReadingsWritable(d: Device)
    requires DeviceWritable(d)
    ensures |DimensionList(d.evidence.dimensions)| <= MAX_COUNT
    ensures forall i :: 0 <= i < |DimensionList(d.evidence.dimensions)| ==>
      DimensionWritable(DimensionList(d.evidence.dimensions)[i])
  {
    var ds := DimensionList(d.evidence.dimensions);
    assert forall i :: 0 <= i < |ds| ==> ds[i] in ds;
  }

  function DevicePieces(d: Device): seq<seq<byte>>
    requires DeviceWritable(d)
  {
    ReadingsWritable(d);
    [Joined(HeadPieces(d)),
     DimensionPart(DimensionList(d.evidence.dimensions)),
     EvidencePart(d.evidence.recentEvidence),
     FaultPart(d.history.faults), ValidationPart(d.history.validations),
     ChangePart(d.health.changes), Joined(AssessmentPieces(d.judgement.assessment)),
     Joined(DatesPieces(d)),
     QuarantinePart(d.care.quarantine), RecoveryPart(d.care.recovery), Joined(FlagsPieces(d))]
  }

  lemma HeadBytes(d: Device)
    requires HealthWritable(d.health)
    ensures FitsRow(HEAD_LAYOUT, HeadRow(d))
    ensures PutRow(HEAD_LAYOUT, HeadRow(d)) == Joined(HeadPieces(d))
  {
    HeadFits(d);
    hide PutRow, Joined, PutLE, FitsRow, HeadRow, HeadPieces;
    HeadPiecesAre(d);
    RowIsPieces(HEAD_LAYOUT, HeadRow(d));
  }

  lemma HeadFits(d: Device)
    requires HealthWritable(d.health)
    ensures FitsRow(HEAD_LAYOUT, HeadRow(d))
  {
  }

  lemma HeadPiecesAre(d: Device)
    requires FitsRow(HEAD_LAYOUT, HeadRow(d))
    ensures Pieces(HEAD_LAYOUT, HeadRow(d)) == HeadPieces(d)
  {
    hide PutLE, FitsRow;
  }

  lemma DatesBytes(d: Device)
    ensures FitsRow(DATES_LAYOUT, DatesRow(d))
    ensures PutRow(DATES_LAYOUT, DatesRow(d)) == Joined(DatesPieces(d))
  {
    DatesFits(d);
    hide PutRow, Joined, PutLE, FitsRow, DatesRow, DatesPieces;
    DatesPiecesAre(d);
    RowIsPieces(DATES_LAYOUT, DatesRow(d));
  }

  lemma DatesFits(d: Device)
    ensures FitsRow(DATES_LAYOUT, DatesRow(d))
  {
  }

  lemma DatesPiecesAre(d: Device)
    requires FitsRow(DATES_LAYOUT, DatesRow(d))
    ensures Pieces(DATES_LAYOUT, DatesRow(d)) == DatesPieces(d)
  {
    hide PutLE, FitsRow;
  }

  lemma FlagsBytes(d: Device)
    ensures FitsRow(FLAGS_LAYOUT, FlagsRow(d))
    ensures PutRow(FLAGS_LAYOUT, FlagsRow(d)) == Joined(FlagsPieces(d))
  {
    FlagsFits(d);
    hide PutRow, Joined, PutLE, FitsRow, FlagsRow, FlagsPieces;
    FlagsPiecesAre(d);
    RowIsPieces(FLAGS_LAYOUT, FlagsRow(d));
  }

  lemma FlagsFits(d: Device)
    ensures FitsRow(FLAGS_LAYOUT, FlagsRow(d))
  {
  }

  lemma FlagsPiecesAre(d: Device)
    requires FitsRow(FLAGS_LAYOUT, FlagsRow(d))
    ensures Pieces(FLAGS_LAYOUT, FlagsRow(d)) == FlagsPieces(d)
  {
    hide PutLE, FitsRow;
  }

  lemma CareBytes(c: Care)
    requires CareWritable(c)
    ensures Fits(TOpt(QUARANTINE_LAYOUT), VOpt(ToOpt(QuarantineRow, c.quarantine)))
    ensures Put(TOpt(QUARANTINE_LAYOUT), VOpt(ToOpt(QuarantineRow, c.quarantine))) == QuarantinePart(c.quarantine)
    ensures Fits(TOpt(RECOVERY_LAYOUT), VOpt(ToOpt(RecoveryRow, c.recovery)))
    ensures Put(TOpt(RECOVERY_LAYOUT), VOpt(ToOpt(RecoveryRow, c.recovery))) == RecoveryPart(c.recovery)
  {
    hide PutRow, Joined, FitsRow, QuarantineRow, RecoveryRow, QuarantinePieces, RecoveryPieces, QuarantineWritable,
      RecoveryWritable, PutLE;
    if c.quarantine.Some? {
      QuarantineBytes(c.quarantine.value);
    }
    if c.recovery.Some? {
      RecoveryBytes(c.recovery.value);
    }
  }

  /** A device is written in this order: the head, five lists, the assessment, depth and dates,
      quarantine and recovery with a presence byte each, and four flags. */
  lemma DeviceRecordBytes(d: Device)
    requires DeviceWritable(d)
    ensures FitsRow(DEVICE_LAYOUT, DeviceRow(d))
    ensures PutRow(DEVICE_LAYOUT, DeviceRow(d)) == Joined(DevicePieces(d))
  {
    DeviceFits(d);
    DeviceParts(d);
    hide PutRow, Joined, FitsRow, DeviceRow, DevicePieces;
    RowIsPieces(DEVICE_LAYOUT, DeviceRow(d));
  }

  lemma DeviceParts(d: Device)
    requires DeviceWritable(d) && FitsRow(DEVICE_LAYOUT, DeviceRow(d))
    ensures Pieces(DEVICE_LAYOUT, DeviceRow(d)) == DevicePieces(d)
  {
    hide Put, PutRow, Joined, Counted, FitsRow, ToRows, ToOpt, DimensionList, AssessmentRow, HeadRow, DatesRow,
      FlagsRow, HeadPieces, DatesPieces, FlagsPieces, AssessmentPieces, QuarantinePart, RecoveryPart, DimensionPart,
      EvidencePart, FaultPart, ValidationPart, ChangePart;
    ReadingsWritable(d);
    NestedParts(d);
    CareBytes(d.care);
    DimensionListBytes(DimensionList(d.evidence.dimensions));
    EvidenceListBytes(d.evidence.recentEvidence);
    FaultListBytes(d.history.faults);
    ValidationListBytes(d.history.validations);
    ChangeListBytes(d.health.changes);
  }

  lemma NestedParts(d: Device)
    requires DeviceWritable(d)
    ensures Fits(TRow(HEAD_LAYOUT), VRow(HeadRow(d))) && Fits(TRow(DATES_LAYOUT), VRow(DatesRow(d)))
    ensures Fits(TRow(FLAGS_LAYOUT), VRow(FlagsRow(d)))
    ensures Fits(TRow(ASSESSMENT_LAYOUT), VRow(AssessmentRow(d.judgement.assessment)))
    ensures Put(TRow(HEAD_LAYOUT), VRow(HeadRow(d))) == Joined(HeadPieces(d))
    ensures Put(TRow(DATES_LAYOUT), VRow(DatesRow(d))) == Joined(DatesPieces(d))
    ensures Put(TRow(FLAGS_LAYOUT), VRow(FlagsRow(d))) == Joined(FlagsPieces(d))
    ensures Put(TRow(ASSESSMENT_LAYOUT), VRow(AssessmentRow(d.judgement.assessment))) ==
      Joined(AssessmentPieces(d.judgement.assessment))
  {
    hide PutRow, Joined, FitsRow, AssessmentRow, HeadRow, DatesRow, FlagsRow, HeadPieces, DatesPieces, FlagsPieces,
      AssessmentPieces, EvidenceStateWritable, HistoryWritable, CareWritable;
    HeadBytes(d);
    DatesBytes(d);
    FlagsBytes(d);
    AssessmentBytes(d.judgement.assessment);
  }

  // ---- The file and the frame ----

  function DeviceForm(d: Device): seq<byte>
    requires DeviceWritable(d)
  {
    Joined(DevicePieces(d))
  }

  function BodyPieces(sv: Saved): seq<seq<byte>>
    requires WithinLimits(sv)
  {
    [Joined(PolicyPieces(sv.policy)), Long(sv.policyGeneration), Long(sv.epoch), Counted(Items(DeviceForm, sv.devices))]
  }

  lemma DeviceListBytes(ds: seq<Device>)
    requires |ds| <= MAX_COUNT && forall i :: 0 <= i < |ds| ==> DeviceWritable(ds[i])
    ensures Fits(TList(DEVICE_LAYOUT), VList(ToRows(DeviceRow, ds)))
    ensures Put(TList(DEVICE_LAYOUT), VList(ToRows(DeviceRow, ds))) == Counted(Items(DeviceForm, ds))
  {
    hide FitsRow, PutRow, Put, Joined, Counted, DeviceRow, DevicePieces, DeviceWritable;
    forall i | 0 <= i < |ds|
      ensures FitsRow(DEVICE_LAYOUT, DeviceRow(ds[i]))
      ensures PutRow(DEVICE_LAYOUT, DeviceRow(ds[i])) == Joined(DevicePieces(ds[i]))
    {
      DeviceRecordBytes(ds[i]);
    }
    ListIsItems(DEVICE_LAYOUT, ToRows(DeviceRow, ds), Items(DeviceForm, ds));
  }

  lemma BodyBytes(sv: Saved)
    requires WithinLimits(sv)
    ensures Body(sv) == Joined(BodyPieces(sv))
  {
    SavedRoundTrip(sv);
    BodyParts(sv);
    hide PutRow, Joined, FitsRow, SavedRow, BodyPieces, WithinLimits;
    RowIsPieces(STORE_LAYOUT, SavedRow(sv));
  }

  lemma BodyParts(sv: Saved)
    requires WithinLimits(sv) && FitsRow(STORE_LAYOUT, SavedRow(sv))
    ensures Pieces(STORE_LAYOUT, SavedRow(sv)) == BodyPieces(sv)
  {
    hide PutRow, Joined, Counted, FitsRow, PolicyRow, PolicyPieces, ToRows, DeviceForm, PutLE, InFileForm;
    PolicyBytes(sv.policy);
    InFileFormIsWritable(sv);
    DeviceListBytes(sv.devices);
  }

  lemma InFileFormIsWritable(sv: Saved)
    requires WithinLimits(sv)
    ensures forall i :: 0 <= i < |sv.devices| ==> DeviceWritable(sv.devices[i])
  {
  }

  /** The bytes of a file: "AHPS", version 1, the length of the body, the body, and the checksum of
      all that precedes it. */
  lemma FileBytes(sv: Saved)
    requires WithinLimits(sv)
    ensures var front := [0x41, 0x48, 0x50, 0x53] + Word(1) + Word(|Body(sv)| % UINT32) + Joined(BodyPieces(sv));
      Encode(sv) == front + StoreWord(Checksum(front))
  {
    hide Body, BodyPieces, PutLE, Joined, Checksum, StoreWord, WithinLimits;
    BodyBytes(sv);
  }

  /** The bytes of a frame: "AHF1", version 1, the type, the length, four zero bytes, the payload,
      and the checksum of all that precedes it. */
  lemma FrameBytes(f: Protocol.Frame)
    requires |f.payload| <= Protocol.MAX_PAYLOAD
    ensures var front := [0x41, 0x48, 0x46, 0x31] + [1] + Code(f.kind) + Word(|f.payload|) + [0, 0, 0, 0] + f.payload;
      Protocol.Encode(f) == front + StoreWord(Checksum(front))
  {
    hide PutLE, Checksum, StoreWord;
  }

  // ---- Codes ----

  const STATES: seq<HealthState> := [
    Unknown, Initializing, Healthy, Degraded, Unhealthy, Failed, Draining, Drained, Quarantined, Recovering,
    Revalidating, Offline, Lost]

  const VERDICTS: seq<ReadinessState> := [
    Ready, ReadyDegraded, NotReady, RevalidationRequired, DrainRequired, QuarantineHold, ReadinessUnknown]

  /** An enumeration is written as the place of its value in the declared order. */
  lemma CodesFollowDeclarations(s: HealthState, r: ReadinessState, d: DimensionState, o: ResolutionState)
    ensures STATES[HealthCode(s)] == s && VERDICTS[ReadinessCode(r)] == r
    ensures [DimNominal, DimDegraded, DimFailed, DimUnavailable, DimUnknown][DimensionCode(d)] == d
    ensures [Open, Resolved, Suppressed][ResolutionCode(o)] == o
  {
  }
}
