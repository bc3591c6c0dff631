/** What holds of every tracked device after every step of every run. */
module DeviceInvariant {
  import opened Enums
  import opened Records
  import opened StateMachine
  import opened Readiness
  import opened FaultHistory
  import opened Assessment
  import opened Devices
  import opened StoreMachine

  /** The states the store ever puts a device in. */
  predicate InUse(s: HealthState) {
    s in {Initializing, Healthy, Degraded, Unhealthy, Failed, Quarantined, Recovering, Revalidating, Lost}
  }

  predicate UnderRecovery(s: HealthState) { s == Recovering || s == Revalidating }

  ghost predicate RecoveryAgrees(d: Device) {
    && (UnderRecovery(d.health.state) <==> d.care.inRecovery && d.health.state != Lost)
    && (d.care.inRecovery ==> d.care.recovery.Some?)
  }

  /** While a quarantine is active the device sits in quarantine, recovery or loss. */
  ghost predicate QuarantineHolds(d: Device) {
    QuarantineActive(d) ==> d.health.state == Quarantined || UnderRecovery(d.health.state) || d.health.state == Lost
  }

  /** An open fatal fault keeps the device out of service. */
  ghost predicate FatalHolds(d: Device) {
    HasOpenFatal(d.history.faults) ==>
      && !ExecutionReady(d)
      && (|| d.health.state == Failed || d.health.state == Quarantined
          || UnderRecovery(d.health.state) || d.health.state == Lost)
  }

  /** What the last verdict "may execute" still guarantees. Only a loss recorded since can
      have changed the state, and only on a lost device can a quarantine be active. */
  ghost predicate ReadyHolds(d: Device) {
    ExecutionReady(d) ==>
      && (d.judgement.assessment.state == Healthy || d.judgement.assessment.state == Degraded)
      && (d.health.state == d.judgement.assessment.state || d.health.state == Lost)
      && !AnyFailed(d.evidence.dimensions)
      && !HasOpenFatal(d.history.faults)
      && !d.care.inRecovery
      && d.evidence.lastObservation != 0
      && (QuarantineActive(d) ==> d.health.state == Lost)
  }

  ghost predicate Settled(d: Device) {
    && InUse(d.health.state)
    && (d.health.state == Initializing ==> d.health.transitions == 0)
    && RecoveryAgrees(d)
    && QuarantineHolds(d)
    && FatalHolds(d)
    && ReadyHolds(d)
  }

  /** What the operations establish before the closing reassessment. */
  ghost predicate Prepared(d: Device) {
    && InUse(d.health.state)
    && (d.health.state == Initializing ==> d.health.transitions == 0)
    && (UnderRecovery(d.health.state) ==> d.care.inRecovery)
    && (d.care.inRecovery ==> UnderRecovery(d.health.state) || d.health.state == Quarantined || d.health.state == Lost)
    && (d.care.inRecovery ==> d.care.recovery.Some?)
  }

  /** A reassessment leaves the evidence and the records alone. */
  ghost predicate SameEvidence(d: Device, r: Device) {
    && r.id == d.id
    && r.identity == d.identity
    && r.evidence == d.evidence
    && r.history == d.history
    && r.care == d.care
  }

  lemma ReassessKeepsEvidence(d: Device, c: Context)
    ensures SameEvidence(d, Reassessed(d, c))
  {
    hide Assess, Target, InputOf;
  }

  /** What a reassessment decides. */
  lemma ReassessDecides(d: Device, c: Context)
    ensures var r := Reassessed(d, c);
      && r.health.state == (if Blocked(d, c) then d.health.state else TargetOf(d, c))
      && r.health.transitions == d.health.transitions + (if r.health.state == d.health.state then 0 else 1)
      && r.judgement.assessment.state == r.health.state
      && (ExecutionReady(r) <==> !Blocked(d, c) && MayExecute(ReadinessInputOf(r, c)))
  {
    hide Assess, Target, Evaluate, MayExecute, EvidenceFreshness, CanTransition, InputOf;
    EvaluateExactly(ReadinessInputOf(FollowTarget(d, c), c));
  }

  lemma ReassessSettles(d: Device, c: Context)
    requires Prepared(d)
    ensures Settled(Reassessed(d, c))
  {
    hide Reassessed, AnyFailed, AnyFatalDimension, HasOpenFatal, AsInt32;
    ReassessKeepsEvidence(d, c);
    ReassessDecides(d, c);
  }

  // ---- Every operation prepares the device for its closing reassessment ----

  lemma RevalidatedPrepares(d: Device, v: ValidationRecord, c: Context)
    requires Settled(d)
    ensures Prepared(Revalidated(d, v, c))
  {
    hide ReadyHolds, FatalHolds, QuarantineHolds;
  }

  lemma LandedPrepares(s: Store, d: Device, e: Event, now: Timestamp)
    requires Settled(d)
    ensures Prepared(Landed(s, d, e, now))
  {
    hide Revalidated, ReadyHolds, FatalHolds, QuarantineHolds, Judge, MergeDimensions;
    if e.Revalidate? {
      RevalidatedPrepares(d, e.record, ContextOf(s, now));
    }
    if e.MarkLost? {
      TableShape(d.health.state);
    }
  }

  /** The three silent changes keep the invariant without a reassessment. */
  lemma QuietSettles(s: Store, d: Device, e: Event, now: Timestamp)
    requires Settled(d)
    requires !IsReassessed(s, d, e, now)
    ensures Settled(Landed(s, d, e, now))
  {
    hide Judge, Observed, Revalidated, RecoveryBegun, AnyFailed, HasOpenFatal;
    if e.MarkLost? {
      TableShape(d.health.state);
    }
  }

  lemma StepSettles(s: Store, d: Device, e: Event, now: Timestamp)
    requires Settled(d)
    ensures Settled(DeviceAfter(s, d, e, now))
  {
    hide Settled, Prepared, Landed, Reassessed;
    if IsReassessed(s, d, e, now) {
      LandedPrepares(s, d, e, now);
      ReassessSettles(Landed(s, d, e, now), ContextOf(s, now));
    } else {
      QuietSettles(s, d, e, now);
    }
  }

  lemma FreshIsSettled(id: Id, uuid: Id, node: Id, now: Timestamp)
    ensures Settled(FreshDevice(id, uuid, node, now))
  {
  }
}
