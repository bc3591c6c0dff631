/** Wire layouts of the persisted records. Each record has a row of values in field order,
    a way back from a row that fits the layout, and the proof that the way back undoes it. */
module RecordCodecs {
  import opened Enums
  import opened Records
  import opened Wire

  /** A byte string of at most `m` characters. */
  predicate Within(s: string, m: nat) {
    |s| <= m && IsBytes(s)
  }

  /** A string the writer accepts. */
  predicate Writable(s: string) {
    Within(s, MAX_STRING)
  }

  predicate FitsWord(n: Counter) {
    n < UINT64
  }

  // ---- Policy ----

  const POLICY_LAYOUT: seq<Ty> := [
    TU64, TCode(VALIDATION_DEPTHS), TI64, TI64, TI64, TU32, TU32, TU32, TU32, TCode(VALIDATION_PROFILES),
    TFlag, TFlag, TFlag]

  function PolicyRow(p: HealthPolicy): Row {
    [VNum(p.id), VNum(p.requiredValidationDepth),
     VNum(p.freshness.current), VNum(p.freshness.stale), VNum(p.freshness.expire),
     VNum(p.degradeAfterFailures), VNum(p.unhealthyAfterFailures), VNum(p.quarantineAfterFailures),
     VNum(p.recoveryValidationsRequired), VNum(p.revalidationProfile),
     VFlag(p.allowDegradedReadiness), VFlag(p.fatalFaultTriggersQuarantine), VFlag(p.requireEnumeratedForHealth)]
  }

  function PolicyOf(r: Row): HealthPolicy
    requires FitsRow(POLICY_LAYOUT, r)
  {
    hide FitsRow, Fits;
    var ty := POLICY_LAYOUT;
    HealthPolicy(U64At(ty, r, 0), CodeAt(ty, r, 1), Thresholds(I64At(ty, r, 2), I64At(ty, r, 3), I64At(ty, r, 4)),
      U32At(ty, r, 5), U32At(ty, r, 6), U32At(ty, r, 7), U32At(ty, r, 8), CodeAt(ty, r, 9), FlagAt(ty, r, 10),
      FlagAt(ty, r, 11), FlagAt(ty, r, 12))
  }

  lemma PolicyRoundTrip(p: HealthPolicy)
    ensures FitsRow(POLICY_LAYOUT, PolicyRow(p)) && PolicyOf(PolicyRow(p)) == p
  {
  }

  // ---- Dimension ----

  const DIMENSION_LAYOUT: seq<Ty> := [
    TCode(DIMENSION_KINDS), TCode(5), TCode(EVIDENCE_CLASSES), TI64, TU64, TU64, TU32, TCode(SEVERITIES),
    TText, TU64, TText]

  predicate DimensionWritable(d: HealthDimension) {
    Writable(d.reason) && Writable(d.units)
  }

  function DimensionRow(d: HealthDimension): Row {
    [VNum(d.kind), VNum(DimensionCode(d.state)), VNum(d.evidence), VNum(d.timestamp), VNum(d.observationGeneration),
     VNum(d.deviceGeneration), VNum(d.confidence), VNum(d.severity), VText(d.reason), VNum(d.value), VText(d.units)]
  }

  function DimensionFrom(r: Row): HealthDimension
    requires FitsRow(DIMENSION_LAYOUT, r)
  {
    hide FitsRow, Fits;
    var ty := DIMENSION_LAYOUT;
    HealthDimension(CodeAt(ty, r, 0), DimensionOf(CodeAt(ty, r, 1)), CodeAt(ty, r, 2), I64At(ty, r, 3),
      U64At(ty, r, 4), U64At(ty, r, 5), U32At(ty, r, 6), CodeAt(ty, r, 7), TextAt(ty, r, 8), U64At(ty, r, 9),
      TextAt(ty, r, 10))
  }

  lemma DimensionRoundTrip(d: HealthDimension)
    requires DimensionWritable(d)
    ensures FitsRow(DIMENSION_LAYOUT, DimensionRow(d)) && DimensionFrom(DimensionRow(d)) == d
  {
  }

  // ---- Evidence ----

  const EVIDENCE_LAYOUT: seq<Ty> := [
    TU64, TU64, TCode(DIMENSION_KINDS), TCode(5), TCode(EVIDENCE_CLASSES), TI64, TU64, TU64, TU64, TU64, TU32,
    TCode(SEVERITIES), TText, TU64, TText]

  predicate EvidenceWritable(e: Evidence) {
    Writable(e.reason) && Writable(e.units)
  }

  function EvidenceRow(e: Evidence): Row {
    [VNum(e.id), VNum(e.accelerator), VNum(e.dimension), VNum(DimensionCode(e.state)), VNum(e.evidenceClass),
     VNum(e.timestamp), VNum(e.observationGeneration), VNum(e.workerId), VNum(e.workerBootId),
     VNum(e.deviceGeneration), VNum(e.confidence), VNum(e.severity), VText(e.reason), VNum(e.value), VText(e.units)]
  }

  function EvidenceFrom(r: Row): Evidence
    requires FitsRow(EVIDENCE_LAYOUT, r)
  {
    hide FitsRow, Fits;
    var ty := EVIDENCE_LAYOUT;
    Evidence(U64At(ty, r, 0), U64At(ty, r, 1), CodeAt(ty, r, 2), DimensionOf(CodeAt(ty, r, 3)), CodeAt(ty, r, 4),
      I64At(ty, r, 5), U64At(ty, r, 6), U64At(ty, r, 7), U64At(ty, r, 8), U64At(ty, r, 9), U32At(ty, r, 10),
      CodeAt(ty, r, 11), TextAt(ty, r, 12), U64At(ty, r, 13), TextAt(ty, r, 14))
  }

  lemma EvidenceRoundTrip(e: Evidence)
    requires EvidenceWritable(e)
    ensures FitsRow(EVIDENCE_LAYOUT, EvidenceRow(e)) && EvidenceFrom(EvidenceRow(e)) == e
  {
  }

  // ---- Fault ----

  const FAULT_LAYOUT: seq<Ty> := [
    TU64, TU64, TCode(FAULT_TYPES), TCode(FAULT_CLASSES), TCode(SEVERITIES), TI64, TU64, TU64, TU64, TText,
    TFlag, TFlag, TFlag, TText, TCode(3), TI64]

  predicate FaultWritable(f: Fault) {
    Writable(f.evidence) && Writable(f.causalMetadata)
  }

  function FaultRow(f: Fault): Row {
    [VNum(f.id), VNum(f.accelerator), VNum(f.kind), VNum(f.faultClass), VNum(f.severity), VNum(f.timestamp),
     VNum(f.observationGeneration), VNum(f.worker), VNum(f.workerBootId), VText(f.evidence),
     VFlag(f.transient), VFlag(f.recoverable), VFlag(f.fatal), VText(f.causalMetadata),
     VNum(ResolutionCode(f.resolution)), VNum(f.resolvedAt)]
  }

  function FaultFrom(r: Row): Fault
    requires FitsRow(FAULT_LAYOUT, r)
  {
    hide FitsRow, Fits;
    var ty := FAULT_LAYOUT;
    Fault(U64At(ty, r, 0), U64At(ty, r, 1), CodeAt(ty, r, 2), CodeAt(ty, r, 3), CodeAt(ty, r, 4), I64At(ty, r, 5),
      U64At(ty, r, 6), U64At(ty, r, 7), U64At(ty, r, 8), TextAt(ty, r, 9), FlagAt(ty, r, 10), FlagAt(ty, r, 11),
      FlagAt(ty, r, 12), TextAt(ty, r, 13), ResolutionOf(CodeAt(ty, r, 14)), I64At(ty, r, 15))
  }

  lemma FaultRoundTrip(f: Fault)
    requires FaultWritable(f)
    ensures FitsRow(FAULT_LAYOUT, FaultRow(f)) && FaultFrom(FaultRow(f)) == f
  {
  }

  // ---- Validation ----

  const VALIDATION_LAYOUT: seq<Ty> := [
    TU64, TU64, TI64, TCode(VALIDATION_PROFILES), TCode(VALIDATION_DEPTHS), TFlag, TU32, TText, TU64, TU64, TU64, TU64]

  predicate ValidationWritable(v: ValidationRecord) {
    Writable(v.detail)
  }

  function ValidationRow(v: ValidationRecord): Row {
    [VNum(v.id), VNum(v.accelerator), VNum(v.timestamp), VNum(v.profile), VNum(v.depth), VFlag(v.passed),
     VNum(v.maxError), VText(v.detail), VNum(v.worker), VNum(v.workerBootId), VNum(v.validationGeneration),
     VNum(v.deviceGeneration)]
  }

  function ValidationFrom(r: Row): ValidationRecord
    requires FitsRow(VALIDATION_LAYOUT, r)
  {
    hide FitsRow, Fits;
    var ty := VALIDATION_LAYOUT;
    ValidationRecord(U64At(ty, r, 0), U64At(ty, r, 1), I64At(ty, r, 2), CodeAt(ty, r, 3), CodeAt(ty, r, 4),
      FlagAt(ty, r, 5), U32At(ty, r, 6), TextAt(ty, r, 7), U64At(ty, r, 8), U64At(ty, r, 9), U64At(ty, r, 10),
      U64At(ty, r, 11))
  }

  lemma ValidationRoundTrip(v: ValidationRecord)
    requires ValidationWritable(v)
    ensures FitsRow(VALIDATION_LAYOUT, ValidationRow(v)) && ValidationFrom(ValidationRow(v)) == v
  {
  }

  // ---- Change ----

  const CHANGE_LAYOUT: seq<Ty> := [
    TI64, TU64, TCode(13), TCode(13), TCode(7), TCode(7), TText, TText, TU64, TU64]

  predicate ChangeWritable(c: HealthChange) {
    Writable(c.tag) && Writable(c.detail) && FitsWord(c.healthGeneration) && FitsWord(c.policyGeneration)
  }

  function ChangeRow(c: HealthChange): Row {
    [VNum(c.timestamp), VNum(c.accelerator), VNum(HealthCode(c.from)), VNum(HealthCode(c.to)),
     VNum(ReadinessCode(c.readinessFrom)), VNum(ReadinessCode(c.readinessTo)), VText(c.tag), VText(c.detail),
     VNum(c.healthGeneration), VNum(c.policyGeneration)]
  }

  function ChangeFrom(r: Row): HealthChange
    requires FitsRow(CHANGE_LAYOUT, r)
  {
    hide FitsRow, Fits;
    var ty := CHANGE_LAYOUT;
    HealthChange(I64At(ty, r, 0), U64At(ty, r, 1), HealthOf(CodeAt(ty, r, 2)), HealthOf(CodeAt(ty, r, 3)),
      ReadinessOf(CodeAt(ty, r, 4)), ReadinessOf(CodeAt(ty, r, 5)), TextAt(ty, r, 6), TextAt(ty, r, 7),
      U64At(ty, r, 8), U64At(ty, r, 9))
  }

  lemma ChangeRoundTrip(c: HealthChange)
    requires ChangeWritable(c)
    ensures FitsRow(CHANGE_LAYOUT, ChangeRow(c)) && ChangeFrom(ChangeRow(c)) == c
  {
  }

  // ---- Quarantine and recovery ----

  const QUARANTINE_LAYOUT: seq<Ty> := [
    TU64, TI64, TCode(QUARANTINE_AUTHORITIES), TText, TText, TU64, TU64, TU64, TFlag]

  predicate QuarantineWritable(q: QuarantineRecord) {
    Writable(q.reason) && Writable(q.triggeredBy) && FitsWord(q.policyGeneration) && FitsWord(q.healthGeneration)
  }

  function QuarantineRow(q: QuarantineRecord): Row {
    [VNum(q.id), VNum(q.timestamp), VNum(q.authority), VText(q.reason), VText(q.triggeredBy),
     VNum(q.policyGeneration), VNum(q.deviceGeneration), VNum(q.healthGeneration), VFlag(q.active)]
  }

  function QuarantineFrom(r: Row): QuarantineRecord
    requires FitsRow(QUARANTINE_LAYOUT, r)
  {
    hide FitsRow, Fits;
    var ty := QUARANTINE_LAYOUT;
    QuarantineRecord(U64At(ty, r, 0), I64At(ty, r, 1), CodeAt(ty, r, 2), TextAt(ty, r, 3), TextAt(ty, r, 4),
      U64At(ty, r, 5), U64At(ty, r, 6), U64At(ty, r, 7), FlagAt(ty, r, 8))
  }

  lemma QuarantineRoundTrip(q: QuarantineRecord)
    requires QuarantineWritable(q)
    ensures FitsRow(QUARANTINE_LAYOUT, QuarantineRow(q)) && QuarantineFrom(QuarantineRow(q)) == q
  {
  }

  const RECOVERY_LAYOUT: seq<Ty> := [TU64, TU64, TI64, TText, TU32, TFlag, TI64]

  predicate RecoveryWritable(r: RecoveryRecord) {
    Writable(r.profile) && FitsWord(r.generation) && r.successfulValidations < UINT32
  }

  function RecoveryRow(r: RecoveryRecord): Row {
    [VNum(r.id), VNum(r.generation), VNum(r.begin), VText(r.profile), VNum(r.successfulValidations),
     VFlag(r.completed), VNum(r.end)]
  }

  function RecoveryFrom(r: Row): RecoveryRecord
    requires FitsRow(RECOVERY_LAYOUT, r)
  {
    hide FitsRow, Fits;
    var ty := RECOVERY_LAYOUT;
    RecoveryRecord(U64At(ty, r, 0), U64At(ty, r, 1), I64At(ty, r, 2), TextAt(ty, r, 3), U32At(ty, r, 4), FlagAt(ty,
      r, 5), I64At(ty, r, 6))
  }

  lemma RecoveryRoundTrip(r: RecoveryRecord)
    requires RecoveryWritable(r)
    ensures FitsRow(RECOVERY_LAYOUT, RecoveryRow(r)) && RecoveryFrom(RecoveryRow(r)) == r
  {
  }

  // ---- Assessment ----

  const REASON_LAYOUT: seq<Ty> := [TText]

  /** The verdict and its generations, in the order the fields are written. */
  const VERDICT_LAYOUT: seq<Ty> := [
    TU64, TU64, TU64, TCode(13), TCode(7), TCode(VALIDATION_DEPTHS), TU32, TCode(ACTIONS)]

  const STANDING_LAYOUT: seq<Ty> := [TFlag, TFlag, TU64, TFlag, TI64, TU64, TU64, TU64]

  const ASSESSMENT_LAYOUT: seq<Ty> := [
    TRow(VERDICT_LAYOUT), TRow(STANDING_LAYOUT), TList(REASON_LAYOUT), TText]

  predicate AssessmentWritable(a: HealthAssessment) {
    && FitsWord(a.healthGeneration) && FitsWord(a.policyGeneration)
    && |a.reasons| <= MAX_COUNT && (forall i :: 0 <= i < |a.reasons| ==> Writable(a.reasons[i]))
    && Writable(a.digest)
  }

  function ReasonRows(rs: seq<string>): seq<Row> {
    seq(|rs|, i requires 0 <= i < |rs| => [VText(rs[i])])
  }

  function ReasonsFrom(rows: seq<Row>): seq<string>
    requires forall i :: 0 <= i < |rows| ==> FitsRow(REASON_LAYOUT, rows[i])
  {
    seq(|rows|, i requires 0 <= i < |rows| => TextAt(REASON_LAYOUT, rows[i], 0))
  }

  function VerdictRow(a: HealthAssessment): Row {
    [VNum(a.id), VNum(a.accelerator), VNum(a.uuid), VNum(HealthCode(a.state)), VNum(ReadinessCode(a.readiness)),
     VNum(a.validationDepth), VNum(a.confidence), VNum(a.action)]
  }

  function StandingRow(a: HealthAssessment): Row {
    [VFlag(a.executionReady), VFlag(a.quarantined), VNum(a.quarantineId), VFlag(a.inRecovery), VNum(a.timestamp),
     VNum(a.healthGeneration), VNum(a.policyGeneration), VNum(a.deviceGeneration)]
  }

  function AssessmentRow(a: HealthAssessment): Row {
    [VRow(VerdictRow(a)), VRow(StandingRow(a)), VList(ReasonRows(a.reasons)), VText(a.digest)]
  }

  function AssessmentOf(verdict: Row, standing: Row, reasons: seq<string>, digest: string): HealthAssessment
    requires FitsRow(VERDICT_LAYOUT, verdict) && FitsRow(STANDING_LAYOUT, standing)
  {
    hide FitsRow, Fits;
    var x, y := VERDICT_LAYOUT, STANDING_LAYOUT;
    HealthAssessment(
      U64At(x, verdict, 0), U64At(x, verdict, 1), U64At(x, verdict, 2), HealthOf(CodeAt(x, verdict, 3)),
      ReadinessOf(CodeAt(x, verdict, 4)), CodeAt(x, verdict, 5), U32At(x, verdict, 6), CodeAt(x, verdict, 7),
      FlagAt(y, standing, 0), FlagAt(y, standing, 1), U64At(y, standing, 2), FlagAt(y, standing, 3),
      I64At(y, standing, 4), U64At(y, standing, 5), U64At(y, standing, 6), U64At(y, standing, 7), reasons, digest)
  }

  function AssessmentFrom(r: Row): HealthAssessment
    requires FitsRow(ASSESSMENT_LAYOUT, r)
  {
    hide FitsRow, Fits;
    var ty := ASSESSMENT_LAYOUT;
    AssessmentOf(RowAt(ty, r, 0), RowAt(ty, r, 1), ReasonsFrom(RowsAt(ty, r, 2)), TextAt(ty, r, 3))
  }

  lemma ReasonsRoundTrip(rs: seq<string>)
    requires |rs| <= MAX_COUNT && forall i :: 0 <= i < |rs| ==> Writable(rs[i])
    ensures Fits(TList(REASON_LAYOUT), VList(ReasonRows(rs)))
    ensures ReasonsFrom(ReasonRows(rs)) == rs
  {
  }

  lemma VerdictRowFits(a: HealthAssessment)
    ensures FitsRow(VERDICT_LAYOUT, VerdictRow(a))
  {
  }

  lemma StandingRowFits(a: HealthAssessment)
    requires FitsWord(a.healthGeneration) && FitsWord(a.policyGeneration)
    ensures FitsRow(STANDING_LAYOUT, StandingRow(a))
  {
  }

  lemma AssessmentFits(a: HealthAssessment)
    requires AssessmentWritable(a)
    ensures FitsRow(ASSESSMENT_LAYOUT, AssessmentRow(a))
  {
    hide ReasonRows, VerdictRow, StandingRow;
    VerdictRowFits(a);
    StandingRowFits(a);
    ReasonsRoundTrip(a.reasons);
  }

  lemma AssessmentRoundTrip(a: HealthAssessment)
    requires AssessmentWritable(a)
    ensures FitsRow(ASSESSMENT_LAYOUT, AssessmentRow(a)) && AssessmentFrom(AssessmentRow(a)) == a
  {
    hide ReasonRows, ReasonsFrom, FitsRow;
    VerdictRowFits(a);
    StandingRowFits(a);
    ReasonsRoundTrip(a.reasons);
    AssessmentFits(a);
  }
}
