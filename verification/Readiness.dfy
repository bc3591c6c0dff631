/** Evidence freshness and the execution-readiness table. */
module Readiness {
  import opened Enums
  import opened Records

  function Freshness(t: Thresholds, observed: Timestamp, now: Timestamp): FreshnessStatus {
    if observed > now then Current
    else
      var age := now - observed;
      if age <= t.current then Current
      else if age <= t.stale then Aging
      else if age <= t.expire then Stale
      else Expired
  }

  /** Freshness of a device's evidence; a zero timestamp means there is none. */
  function EvidenceFreshness(p: HealthPolicy, lastObservation: Timestamp, now: Timestamp): FreshnessStatus {
    if lastObservation != 0 then Freshness(p.freshness, lastObservation, now) else Expired
  }

  predicate IsFresh(f: FreshnessStatus) { f == Current || f == Aging }

  /** Evidence that is fresh now was fresh at every earlier reading of the clock,
      whatever the order of the thresholds. */
  lemma FreshnessOnlyDecays(p: HealthPolicy, observed: Timestamp, t1: Timestamp, t2: Timestamp)
    requires t1 <= t2
    requires IsFresh(EvidenceFreshness(p, observed, t2))
    ensures IsFresh(EvidenceFreshness(p, observed, t1))
  {
  }

  /** Where each band begins and ends, for all thresholds in any order: the first threshold that
      the age does not exceed decides, and a reading from the future is always CURRENT. */
  lemma BandsExactly(t: Thresholds, observed: Timestamp, now: Timestamp)
    ensures Freshness(t, observed, now) == Current <==> observed > now || now - observed <= t.current
    ensures Freshness(t, observed, now) == Aging <==>
      observed <= now && t.current < now - observed <= t.stale
    ensures Freshness(t, observed, now) == Stale <==>
      observed <= now && t.current < now - observed <= t.expire && t.stale < now - observed
    ensures Freshness(t, observed, now) == Expired <==>
      && observed <= now
      && now - observed > t.current && now - observed > t.stale && now - observed > t.expire
  {
  }

  /** Evidence is fresh exactly when there is some, and it is from the future or no older than
      the greater of the first two thresholds; without any it is EXPIRED. */
  lemma FreshExactly(p: HealthPolicy, lastObservation: Timestamp, now: Timestamp)
    ensures IsFresh(EvidenceFreshness(p, lastObservation, now)) <==>
      && lastObservation != 0
      && (|| lastObservation > now
          || now - lastObservation <= p.freshness.current
          || now - lastObservation <= p.freshness.stale)
    ensures lastObservation == 0 ==> EvidenceFreshness(p, lastObservation, now) == Expired
  {
    BandsExactly(p.freshness, lastObservation, now);
  }

  datatype ReadinessInput = ReadinessInput(
    health: HealthState,
    freshness: FreshnessStatus,
    validationDepth: ValidationDepth,
    requiredValidationDepth: ValidationDepth,
    quarantined: bool,
    inRecovery: bool,
    deviceGenerationChanged: bool,
    policyGenerationChanged: bool,
    requiresRevalidation: bool,
    allowDegradedReadiness: bool,
    runtimeCompatibilityChanged: bool)

  datatype ReadinessResult = ReadinessResult(state: ReadinessState, executionReady: bool)

  function Evaluate(i: ReadinessInput): ReadinessResult {
    if i.quarantined then ReadinessResult(QuarantineHold, false)
    else if (i.health == Healthy || i.health == Degraded) && !IsFresh(i.freshness) then
      ReadinessResult(RevalidationRequired, false)
    else
      match i.health
      case Failed => ReadinessResult(DrainRequired, false)
      case Unhealthy => ReadinessResult(DrainRequired, false)
      case Degraded =>
        if i.allowDegradedReadiness then ReadinessResult(ReadyDegraded, true)
        else ReadinessResult(NotReady, false)
      case Healthy =>
        if i.validationDepth < i.requiredValidationDepth then ReadinessResult(RevalidationRequired, false)
        else if i.deviceGenerationChanged || i.policyGenerationChanged || i.runtimeCompatibilityChanged then
          ReadinessResult(RevalidationRequired, false)
        else if i.requiresRevalidation then ReadinessResult(RevalidationRequired, false)
        else if i.freshness == Aging then ReadinessResult(ReadyDegraded, true)
        else ReadinessResult(Ready, true)
      case Unknown => ReadinessResult(ReadinessUnknown, false)
      case Initializing => ReadinessResult(ReadinessUnknown, false)
      case Quarantined => ReadinessResult(QuarantineHold, false)
      case Offline => ReadinessResult(NotReady, false)
      case Lost => ReadinessResult(NotReady, false)
      case _ => ReadinessResult(RevalidationRequired, false)
  }

  /** When the table says a device may execute: exactly these conditions. The DEGRADED row
      looks at neither validation depth nor the change and revalidation flags. */
  predicate MayExecute(i: ReadinessInput) {
    && !i.quarantined
    && IsFresh(i.freshness)
    && (|| (i.health == Degraded && i.allowDegradedReadiness)
        || (&& i.health == Healthy
            && i.validationDepth >= i.requiredValidationDepth
            && !i.deviceGenerationChanged && !i.policyGenerationChanged && !i.runtimeCompatibilityChanged
            && !i.requiresRevalidation))
  }

  lemma EvaluateExactly(i: ReadinessInput)
    ensures Evaluate(i).executionReady <==> MayExecute(i)
    ensures Evaluate(i).executionReady <==> Evaluate(i).state in {Ready, ReadyDegraded}
    ensures Evaluate(i).state == Ready ==> i.health == Healthy && i.freshness == Current
  {
  }

  /** When each verdict is given. Two of them say that the device may execute; for the others
      the quarantine comes first, then old evidence of a device in service, then the state. */
  lemma VerdictsExactly(i: ReadinessInput)
    ensures Evaluate(i).state == Ready <==> MayExecute(i) && i.health == Healthy && i.freshness == Current
    ensures Evaluate(i).state == ReadyDegraded <==> MayExecute(i) && (i.health == Degraded || i.freshness == Aging)
    ensures Evaluate(i).state == QuarantineHold <==> i.quarantined || i.health == Quarantined
    ensures Evaluate(i).state == DrainRequired <==> !i.quarantined && (i.health == Failed || i.health == Unhealthy)
    ensures Evaluate(i).state == ReadinessUnknown <==>
      !i.quarantined && (i.health == Unknown || i.health == Initializing)
    ensures Evaluate(i).state == NotReady <==>
      && !i.quarantined
      && (|| i.health == Offline || i.health == Lost
          || (i.health == Degraded && IsFresh(i.freshness) && !i.allowDegradedReadiness))
    ensures Evaluate(i).state == RevalidationRequired <==>
      && !i.quarantined
      && (|| i.health in {Draining, Drained, Recovering, Revalidating}
          || (i.health == Degraded && !IsFresh(i.freshness))
          || (i.health == Healthy && !MayExecute(i)))
  {
    EvaluateExactly(i);
  }
}
