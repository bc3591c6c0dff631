/** The plain records of the health model. What arrives from outside has the width it has
    on the wire; generations and counters the store itself advances are unbounded.
    Floating-point fields are their opaque bit patterns. */
module Records {
  import opened Enums

  const UINT32: nat := 0x1_0000_0000
  const UINT64: nat := 0x1_0000_0000_0000_0000

  type U32 = n: nat | n < UINT32
  type U64 = n: nat | n < UINT64
  type I64 = i: int | -0x8000_0000_0000_0000 <= i < 0x8000_0000_0000_0000

  type Id = U64
  type Generation = U64
  type Timestamp = I64

  /** A counter the store advances itself; reaching 2^64 takes that many steps. */
  type Counter = nat

  datatype Thresholds = Thresholds(current: I64, stale: I64, expire: I64)

  datatype HealthPolicy = HealthPolicy(
    id: Id,
    requiredValidationDepth: ValidationDepth,
    freshness: Thresholds,
    degradeAfterFailures: U32,
    unhealthyAfterFailures: U32,
    quarantineAfterFailures: U32,
    recoveryValidationsRequired: U32,
    revalidationProfile: ValidationProfile,
    allowDegradedReadiness: bool,
    fatalFaultTriggersQuarantine: bool,
    requireEnumeratedForHealth: bool)

  datatype HealthDimension = HealthDimension(
    kind: DimensionKind,
    state: DimensionState,
    evidence: EvidenceClass,
    timestamp: Timestamp,
    observationGeneration: Generation,
    deviceGeneration: Generation,
    confidence: U32,
    severity: Severity,
    reason: string,
    value: U64,
    units: string)

  datatype Evidence = Evidence(
    id: Id,
    accelerator: Id,
    dimension: DimensionKind,
    state: DimensionState,
    evidenceClass: EvidenceClass,
    timestamp: Timestamp,
    observationGeneration: Generation,
    workerId: Id,
    workerBootId: Id,
    deviceGeneration: Generation,
    confidence: U32,
    severity: Severity,
    reason: string,
    value: U64,
    units: string)

  datatype Fault = Fault(
    id: Id,
    accelerator: Id,
    kind: FaultType,
    faultClass: FaultClass,
    severity: Severity,
    timestamp: Timestamp,
    observationGeneration: Generation,
    worker: Id,
    workerBootId: Id,
    evidence: string,
    transient: bool,
    recoverable: bool,
    fatal: bool,
    causalMetadata: string,
    resolution: ResolutionState,
    resolvedAt: Timestamp)

  datatype ValidationRecord = ValidationRecord(
    id: Id,
    accelerator: Id,
    timestamp: Timestamp,
    profile: ValidationProfile,
    depth: ValidationDepth,
    passed: bool,
    maxError: U32,
    detail: string,
    worker: Id,
    workerBootId: Id,
    validationGeneration: Generation,
    deviceGeneration: Generation)

  datatype QuarantineRecord = QuarantineRecord(
    id: Id,
    timestamp: Timestamp,
    authority: QuarantineAuthority,
    reason: string,
    triggeredBy: string,
    policyGeneration: Counter,
    deviceGeneration: Generation,
    healthGeneration: Counter,
    active: bool)

  datatype RecoveryRecord = RecoveryRecord(
    id: Id,
    generation: Counter,
    begin: Timestamp,
    profile: string,
    successfulValidations: Counter,
    completed: bool,
    end: Timestamp)

  datatype HealthChange = HealthChange(
    timestamp: Timestamp,
    accelerator: Id,
    from: HealthState,
    to: HealthState,
    readinessFrom: ReadinessState,
    readinessTo: ReadinessState,
    tag: string,
    detail: string,
    healthGeneration: Counter,
    policyGeneration: Counter)

  datatype HealthAssessment = HealthAssessment(
    id: Id,
    accelerator: Id,
    uuid: Id,
    state: HealthState,
    readiness: ReadinessState,
    validationDepth: ValidationDepth,
    confidence: U32,
    action: ActionRequired,
    executionReady: bool,
    quarantined: bool,
    quarantineId: Id,
    inRecovery: bool,
    timestamp: Timestamp,
    healthGeneration: Counter,
    policyGeneration: Counter,
    deviceGeneration: Generation,
    reasons: seq<string>,
    digest: string)

  const NO_ASSESSMENT: HealthAssessment :=
    HealthAssessment(0, 0, 0, Unknown, ReadinessUnknown, 0, 0, ACTION_UNKNOWN, false, false, 0, false,
                     0, 0, 0, 0, [], "")

  /** A grouped observation: one device, many dimensions. */
  datatype Observation = Observation(
    accelerator: Id,
    node: Id,
    worker: Id,
    workerBootId: Id,
    observationGeneration: Generation,
    deviceGeneration: Generation,
    timestamp: Timestamp,
    dimensions: seq<HealthDimension>)

  /** The authority envelope every distributed report travels in. */
  datatype Envelope = Envelope(
    coordinatorEpoch: U64,
    workerId: Id,
    workerBootId: Id,
    observationGeneration: Generation,
    healthGeneration: Generation,
    validationGeneration: Generation,
    deviceGeneration: Generation)
}
