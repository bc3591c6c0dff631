/** One tracked device and everything a step can do to it. */
module Devices {
  import opened Enums
  import opened Records
  import opened StateMachine
  import opened Readiness
  import opened FaultHistory
  import opened Assessment

  type Dimensions = map<DimensionKind, HealthDimension>

  datatype Identity = Identity(uuid: Id, node: Id, firstSeen: Timestamp)

  /** The latest evidence, who reported it, and the flags that say what it is worth. */
  datatype EvidenceState = EvidenceState(
    lastWorker: Id,
    lastWorkerBootId: Id,
    generation: Generation,
    dimensions: Dimensions,
    recentEvidence: seq<Evidence>,
    lastObservation: Timestamp,
    deviceGenerationChanged: bool,
    policyGenerationChanged: bool,
    requiresRevalidation: bool)

  datatype History = History(
    faults: seq<Fault>,
    validations: seq<ValidationRecord>,
    highestValidation: ValidationDepth)

  /** Quarantine, recovery and presence. */
  datatype Care = Care(
    quarantine: Option<QuarantineRecord>,
    recovery: Option<RecoveryRecord>,
    inRecovery: bool,
    present: bool)

  /** The health state with the log of how it was reached. */
  datatype Health = Health(
    state: HealthState,
    generation: Counter,
    transitions: Counter,
    changes: seq<HealthChange>)

  datatype Judgement = Judgement(readiness: ReadinessState, assessment: HealthAssessment)

  /** The device record of the source, its fields grouped by the operations that change them. */
  datatype Device = Device(
    id: Id,
    identity: Identity,
    evidence: EvidenceState,
    history: History,
    care: Care,
    health: Health,
    judgement: Judgement)

  /** What a step reads besides the device: policy, policy generation, clock and float unit. */
  datatype Context = Context(
    policy: HealthPolicy,
    policyGeneration: Counter,
    now: Timestamp,
    floats: FloatTable)

  predicate Active(c: Care) {
    c.quarantine.Some? && c.quarantine.value.active
  }

  predicate QuarantineActive(d: Device) {
    Active(d.care)
  }

  predicate ExecutionReady(d: Device) {
    d.judgement.assessment.executionReady
  }

  function FreshDevice(id: Id, uuid: Id, node: Id, now: Timestamp): Device {
    Device(id, Identity(uuid, node, now),
           EvidenceState(0, 0, 1, map[], [], 0, false, false, false),
           History([], [], 0),
           Care(None, None, false, true),
           Health(Initializing, 1, 0, []),
           Judgement(ReadinessUnknown, NO_ASSESSMENT))
  }

  // ---- Transitions ----

  function ChangeEntry(d: Device, to: HealthState, tag: string, detail: string, c: Context): HealthChange {
    HealthChange(c.now, d.id, d.health.state, to, d.judgement.readiness, d.judgement.readiness, tag, detail,
                 d.health.generation + 1, c.policyGeneration)
  }

  /** A legal transition: new state, one more transition, next generation, one log entry. */
  function Moved(d: Device, to: HealthState, tag: string, detail: string, c: Context): Device
    requires CanTransition(d.health.state, to)
  {
    d.(health := Health(to, d.health.generation + 1, d.health.transitions + 1,
                        d.health.changes + [ChangeEntry(d, to, tag, detail, c)]))
  }

  // ---- Reassessment ----

  function InputOf(d: Device, c: Context): AssessmentInput {
    AssessmentInput(
      d.id, d.identity.uuid, d.evidence.generation, d.health.state, Active(d.care), d.care.inRecovery,
      c.now, d.evidence.dimensions, StatsOf(d.history.faults), d.history.highestValidation,
      d.evidence.lastObservation, c.policy,
      d.evidence.deviceGenerationChanged, d.evidence.policyGenerationChanged)
  }

  function TargetOf(d: Device, c: Context): HealthState {
    Target(InputOf(d, c))
  }

  function DeviceFreshness(d: Device, c: Context): FreshnessStatus {
    EvidenceFreshness(c.policy, d.evidence.lastObservation, c.now)
  }

  /** The evidence asks for a state that no legal transition reaches from here. */
  predicate Blocked(d: Device, c: Context) {
    TargetOf(d, c) != d.health.state && !CanTransition(d.health.state, TargetOf(d, c))
  }

  function FollowTarget(d: Device, c: Context): Device {
    var target := TargetOf(d, c);
    if target != d.health.state && CanTransition(d.health.state, target)
    then Moved(d, target, "health", HealthName(target), c)
    else d
  }

  function ReadinessInputOf(d: Device, c: Context): ReadinessInput {
    ReadinessInput(
      d.health.state, DeviceFreshness(d, c), d.history.highestValidation, c.policy.requiredValidationDepth,
      Active(d.care), d.care.inRecovery, d.evidence.deviceGenerationChanged,
      d.evidence.policyGenerationChanged, d.evidence.requiresRevalidation, c.policy.allowDegradedReadiness, false)
  }

  function ReadinessNow(d: Device, c: Context, blocked: bool): ReadinessResult {
    if blocked then ReadinessResult(RevalidationRequired, false) else Evaluate(ReadinessInputOf(d, c))
  }

  /** The recorded assessment: the engine's, with the state and readiness actually reached. */
  function JudgementOf(d: Device, e: Device, c: Context): Judgement {
    var rr := ReadinessNow(e, c, Blocked(d, c));
    Judgement(rr.state, Assess(InputOf(d, c), c.floats).(
      state := e.health.state,
      readiness := rr.state,
      executionReady := rr.executionReady,
      validationDepth := e.history.highestValidation,
      healthGeneration := e.health.generation,
      policyGeneration := c.policyGeneration,
      deviceGeneration := e.evidence.generation,
      quarantined := Active(e.care),
      inRecovery := e.care.inRecovery))
  }

  function Reassessed(d: Device, c: Context): Device {
    var e := FollowTarget(d, c);
    e.(judgement := JudgementOf(d, e, c))
  }

  // ---- The device part of each store operation, up to the closing reassessment ----

  function MergeDimensions(m: Dimensions, ds: seq<HealthDimension>): Dimensions {
    if ds == [] then m
    else MergeDimensions(m, ds[..|ds| - 1])[ds[|ds| - 1].kind := ds[|ds| - 1]]
  }

  function Observed(d: Device, obs: Observation, env: Envelope): Device {
    var newer := env.deviceGeneration > d.evidence.generation;
    d.(evidence := d.evidence.(
         generation := if newer then env.deviceGeneration else d.evidence.generation,
         deviceGenerationChanged := d.evidence.deviceGenerationChanged || newer,
         lastWorker := obs.worker,
         lastWorkerBootId := obs.workerBootId,
         requiresRevalidation := false,
         dimensions := MergeDimensions(d.evidence.dimensions, obs.dimensions),
         lastObservation := obs.timestamp))
  }

  function EvidenceStripped(d: Device): Device {
    d.(evidence := d.evidence.(lastObservation := 0, deviceGenerationChanged := false))
  }

  function PolicyFlagged(d: Device): Device {
    d.(evidence := d.evidence.(policyGenerationChanged := true))
  }

  function Distrusted(d: Device): Device {
    d.(evidence := d.evidence.(requiresRevalidation := true))
  }

  function WithFault(d: Device, f: Fault): Device {
    d.(history := d.history.(faults := d.history.faults + [f]))
  }

  function WithValidation(d: Device, v: ValidationRecord): Device {
    var best := d.history.highestValidation;
    d.(history := d.history.(
         validations := d.history.validations + [v],
         highestValidation := if v.passed && v.depth > best then v.depth else best))
  }

  function MarkedLost(d: Device, reason: string, c: Context): Device {
    TableShape(d.health.state);
    var gone := d.(care := d.care.(present := false));
    if d.health.state == Lost then gone else Moved(gone, Lost, "lost", reason, c)
  }

  function WithQuarantine(d: Device, id: Id, authority: QuarantineAuthority, reason: string,
                          triggeredBy: string, c: Context): Device {
    d.(care := d.care.(quarantine := Some(QuarantineRecord(
         id, c.now, authority, reason, triggeredBy, c.policyGeneration, d.evidence.generation,
         d.health.generation, true))))
  }

  /** The quarantine transition can be taken, or there is none to take. */
  predicate CanQuarantine(d: Device) {
    d.health.state == Quarantined || CanTransition(d.health.state, Quarantined)
  }

  function MovedToQuarantine(d: Device, reason: string, c: Context): Device
    requires CanQuarantine(d)
  {
    if d.health.state == Quarantined then d else Moved(d, Quarantined, "quarantine", reason, c)
  }

  function QuarantineCleared(d: Device): Device {
    if d.care.quarantine.Some?
    then d.(care := d.care.(quarantine := Some(d.care.quarantine.value.(active := false)))) else d
  }

  function RecoveryBegun(d: Device, id: Id, c: Context): Device
    requires CanTransition(d.health.state, Recovering)
  {
    Moved(d, Recovering, "recovery", "begin recovery", c).(
      care := d.care.(
        inRecovery := true,
        recovery := Some(RecoveryRecord(
          id, if d.care.recovery.Some? then d.care.recovery.value.generation + 1 else 1, c.now,
          ProfileName(c.policy.revalidationProfile), 0, false, 0))))
  }

  function OneMoreSuccess(r: Option<RecoveryRecord>): Option<RecoveryRecord> {
    if r.Some? then Some(r.value.(successfulValidations := r.value.successfulValidations + 1)) else None
  }

  /** A passing validation inside recovery: enter revalidation, count it. */
  function ValidationCounted(d: Device, c: Context): Device {
    var e := if d.health.state == Recovering
             then Moved(d, Revalidating, "revalidate", "enter revalidation", c) else d;
    e.(care := d.care.(recovery := OneMoreSuccess(d.care.recovery)))
  }

  predicate RecoveryComplete(d: Device, c: Context) {
    && d.health.state == Revalidating
    && d.care.recovery.Some?
    && d.care.recovery.value.successfulValidations >= c.policy.recoveryValidationsRequired
  }

  function RecoveryFinished(d: Device, c: Context): Device
    requires RecoveryComplete(d, c)
  {
    Moved(d, Healthy, "recovery", "revalidated", c).(
      care := d.care.(
        inRecovery := false,
        recovery := Some(d.care.recovery.value.(completed := true, end := c.now))))
  }

  /** A passing validation inside recovery, with the end of the recovery it may bring. */
  function Passed(d: Device, c: Context): Device {
    var counted := ValidationCounted(d, c);
    if RecoveryComplete(counted, c) then RecoveryFinished(counted, c) else counted
  }

  /** A failed validation inside recovery. */
  function FailedIn(d: Device, c: Context): Device {
    if d.health.state == Recovering || d.health.state == Revalidating
    then Moved(d, Quarantined, "revalidate-failed", "validation failed during recovery", c) else d
  }

  function Revalidated(d: Device, v: ValidationRecord, c: Context): Device {
    var e := WithValidation(d, v);
    if !e.care.inRecovery then e else if v.passed then Passed(e, c) else FailedIn(e, c)
  }
}
