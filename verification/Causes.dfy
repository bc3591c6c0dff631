/** What a reassessment makes of a device, told from its readings and its records: the state it
    reaches, the verdict, and what is asked for. */
module Causes {
  import opened Enums
  import opened Records
  import opened StateMachine
  import opened Readiness
  import opened FaultHistory
  import opened Assessment
  import opened Devices
  import opened DeviceInvariant

  // ---- Causes ----

  ghost predicate FailedReading(d: Device) {
    exists k :: k in d.evidence.dimensions && d.evidence.dimensions[k].state == DimFailed
  }

  /** An open fault that is fatal, by its flag or its severity, or a failed reading that is. */
  ghost predicate FatalCause(d: Device) {
    || (exists i :: 0 <= i < |d.history.faults| && OpenAndFatal(d.history.faults[i]))
    || (exists k :: k in d.evidence.dimensions && FailedFatally(d.evidence.dimensions[k]))
  }

  predicate OpenAndFatal(f: Fault) {
    f.resolution == Open && (f.fatal || f.severity == SEVERITY_FATAL)
  }

  predicate FailedFatally(r: HealthDimension) {
    r.state == DimFailed && r.severity == SEVERITY_FATAL
  }

  ghost predicate OpenCriticalFault(d: Device) {
    exists i :: 0 <= i < |d.history.faults| && OpenAndCritical(d.history.faults[i])
  }

  predicate OpenAndCritical(f: Fault) {
    f.resolution == Open && (f.severity == SEVERITY_CRITICAL || f.severity == SEVERITY_FATAL)
  }

  /** As many faults of the latest type in a row as the threshold asks, both read as signed
      32-bit numbers. */
  predicate RunReaches(d: Device, threshold: U32) {
    AsInt32(ConsecutiveLatest(d.history.faults) % UINT32) >= AsInt32(threshold)
  }

  predicate IsFreshAt(d: Device, c: Context) {
    && d.evidence.lastObservation != 0
    && (|| d.evidence.lastObservation > c.now
        || c.now - d.evidence.lastObservation <= c.policy.freshness.current
        || c.now - d.evidence.lastObservation <= c.policy.freshness.stale)
  }

  ghost predicate CriticalRun(d: Device, c: Context) {
    && !FatalCause(d) && !FailedReading(d)
    && OpenCriticalFault(d) && RunReaches(d, c.policy.quarantineAfterFailures)
  }

  /** What calls for state `st`, in a device that was in state `from`. Old evidence calls for
      DEGRADED once a device has been assessed at all. */
  ghost predicate Calls(d: Device, from: HealthState, c: Context, st: HealthState) {
    match st
    case Healthy => IsFreshAt(d, c)
    case Degraded => RunReaches(d, c.policy.degradeAfterFailures) || (!IsFreshAt(d, c) && from != Initializing)
    case Unhealthy => FailedReading(d) || RunReaches(d, c.policy.unhealthyAfterFailures)
    case Failed => FatalCause(d)
    case Quarantined => QuarantineActive(d) || CriticalRun(d, c)
    case _ => false
  }

  function Rank(s: HealthState): nat {
    match s
    case Initializing => 0 case Healthy => 1 case Degraded => 2 case Unhealthy => 3
    case Failed => 4 case Quarantined => 5 case _ => 6
  }

  /** `st` is the worst of the state `from` and all states called for. */
  ghost predicate IsWorst(d: Device, from: HealthState, c: Context, st: HealthState) {
    && (st == from || Calls(d, from, c, st))
    && Rank(from) <= Rank(st)
    && forall other :: Calls(d, from, c, other) ==> Rank(other) <= Rank(st)
  }

  /** Nothing adverse but, perhaps, the age of the evidence. */
  ghost predicate Spotless(d: Device, c: Context) {
    && !QuarantineActive(d) && !FatalCause(d) && !FailedReading(d) && !CriticalRun(d, c)
    && !RunReaches(d, c.policy.unhealthyAfterFailures) && !RunReaches(d, c.policy.degradeAfterFailures)
  }

  /** The causes are those the engine looks for. */
  lemma CausesAre(d: Device, c: Context)
    ensures FailedReading(d) <==> AnyFailed(d.evidence.dimensions)
    ensures FatalCause(d) <==> HasOpenFatal(d.history.faults) || AnyFatalDimension(d.evidence.dimensions)
    ensures OpenCriticalFault(d) <==> HasOpenCritical(d.history.faults)
    ensures IsFreshAt(d, c) <==> IsFresh(DeviceFreshness(d, c))
  {
    FreshExactly(c.policy, d.evidence.lastObservation, c.now);
    FatalFaultsAre(d.history.faults);
    FatalReadingsAre(d.evidence.dimensions);
  }

  lemma FatalFaultsAre(fs: seq<Fault>)
    ensures HasOpenFatal(fs) <==> exists i :: 0 <= i < |fs| && OpenAndFatal(fs[i])
    ensures HasOpenCritical(fs) <==> exists i :: 0 <= i < |fs| && OpenAndCritical(fs[i])
  {
    assert forall i :: 0 <= i < |fs| ==> (IsOpenFatal(fs[i]) <==> OpenAndFatal(fs[i]));
    assert forall i :: 0 <= i < |fs| ==> (IsOpenCritical(fs[i]) <==> OpenAndCritical(fs[i]));
  }

  lemma FatalReadingsAre(dims: Dimensions)
    ensures AnyFatalDimension(dims) <==> exists k :: k in dims && FailedFatally(dims[k])
    ensures AnyFailed(dims) <==> exists k :: k in dims && dims[k].state == DimFailed
  {
    assert forall k :: k in dims ==>
      (IsFailed(dims[k]) && dims[k].severity == SEVERITY_FATAL <==> FailedFatally(dims[k]));
  }

  // ---- The target ----

  /** Outside quarantine and recovery, cause by cause. Old evidence alone keeps the state a
      device is in, so FAILED and UNHEALTHY are also aimed at without a cause of their own. */
  lemma TargetByCause(d: Device, c: Context)
    requires !QuarantineActive(d) && !d.care.inRecovery
    ensures TargetOf(d, c) == Failed <==>
      FatalCause(d) || (Spotless(d, c) && !IsFreshAt(d, c) && d.health.state == Failed)
    ensures TargetOf(d, c) == Unhealthy <==>
      || (!FatalCause(d) && FailedReading(d))
      || (!FatalCause(d) && !CriticalRun(d, c) && RunReaches(d, c.policy.unhealthyAfterFailures))
      || (Spotless(d, c) && !IsFreshAt(d, c) && d.health.state == Unhealthy)
    ensures TargetOf(d, c) == Healthy <==> Spotless(d, c) && IsFreshAt(d, c)
    ensures Spotless(d, c) && !IsFreshAt(d, c) ==>
      TargetOf(d, c) == if d.health.state == Healthy then Degraded else d.health.state
    ensures CriticalRun(d, c) ==> TargetOf(d, c) == Quarantined
  {
    hide FatalCause, FailedReading, OpenCriticalFault, AnyFailed, AnyFatalDimension, HasOpenFatal, HasOpenCritical,
      AsInt32, EvidenceFreshness, IsFreshAt, ConsecutiveLatest;
    CausesAre(d, c);
    FatalIsFailed(d);
  }

  lemma FatalIsFailed(d: Device)
    ensures AnyFatalDimension(d.evidence.dimensions) ==> AnyFailed(d.evidence.dimensions)
  {
  }

  // ---- The state ----

  /** Outside recovery a reassessment leaves a device in the worst of the state it was in and the
      states called for: it never improves a state, and never goes beyond what calls for it. */
  lemma ReassessIsWorst(d: Device, c: Context)
    requires InUse(d.health.state) && !UnderRecovery(d.health.state) && !d.care.inRecovery
    ensures IsWorst(d, d.health.state, c, Reassessed(d, c).health.state)
  {
    hide FatalCause, FailedReading, OpenCriticalFault, AnyFailed, AnyFatalDimension, HasOpenFatal, HasOpenCritical,
      AsInt32, EvidenceFreshness, IsFreshAt, ConsecutiveLatest, Reassessed;
    CausesAre(d, c);
    FatalIsFailed(d);
    ReassessDecides(d, c);
  }

  /** Under recovery a device stays where it is, and a quarantined one is taken back into it. */
  lemma ReassessKeepsRecovery(d: Device, c: Context)
    requires Prepared(d) && d.care.inRecovery
    ensures Reassessed(d, c).health.state == if d.health.state == Quarantined then Recovering else d.health.state
  {
    hide Reassessed;
    ReassessDecides(d, c);
  }

  // ---- The verdict ----

  /** The state is worse than anything that still calls for one: what made it so is over, but no
      transition leads back without a recovery. */
  ghost predicate HeldByPast(d: Device, c: Context) {
    && !d.care.inRecovery
    && !Calls(d, d.health.state, c, d.health.state)
    && !(Spotless(d, c) && !IsFreshAt(d, c))
  }

  lemma BlockedIsHeld(d: Device, c: Context)
    requires InUse(d.health.state) && !UnderRecovery(d.health.state) && !d.care.inRecovery
    ensures Blocked(d, c) <==> HeldByPast(Reassessed(d, c), c)
  {
    hide FatalCause, FailedReading, OpenCriticalFault, AnyFailed, AnyFatalDimension, HasOpenFatal, HasOpenCritical,
      AsInt32, EvidenceFreshness, IsFreshAt, ConsecutiveLatest, Reassessed;
    CausesAre(d, c);
    FatalIsFailed(d);
    ReassessDecides(d, c);
    ReassessKeepsEvidence(d, c);
    SameCauses(d, Reassessed(d, c), c);
  }

  lemma SameCauses(d: Device, r: Device, c: Context)
    requires SameEvidence(d, r)
    ensures FatalCause(d) == FatalCause(r) && FailedReading(d) == FailedReading(r)
    ensures OpenCriticalFault(d) == OpenCriticalFault(r) && IsFreshAt(d, c) == IsFreshAt(r, c)
    ensures forall n: U32 :: RunReaches(d, n) == RunReaches(r, n)
  {
  }

  lemma VerdictIs(d: Device, c: Context)
    ensures var r := Reassessed(d, c);
      && r.judgement.assessment.readiness == r.judgement.readiness
      && r.judgement.assessment.executionReady ==
         (if Blocked(d, c) then false else Evaluate(ReadinessInputOf(r, c)).executionReady)
      && r.judgement.readiness ==
         if Blocked(d, c) then RevalidationRequired else Evaluate(ReadinessInputOf(r, c)).state
  {
    hide Assess, Target, Evaluate, EvidenceFreshness, CanTransition, InputOf;
  }

  /** A mark, or too shallow a validation, that keeps a HEALTHY device from executing. */
  predicate Doubted(d: Device, c: Context) {
    || d.history.highestValidation < c.policy.requiredValidationDepth
    || d.evidence.deviceGenerationChanged || d.evidence.policyGenerationChanged || d.evidence.requiresRevalidation
  }

  predicate AgeingAt(d: Device, c: Context) {
    && d.evidence.lastObservation <= c.now
    && c.now - d.evidence.lastObservation > c.policy.freshness.current
  }

  /** When each of the seven verdicts stands, outside recovery. */
  ghost predicate VerdictTold(r: Device, c: Context) {
    var v, st, held, young := r.judgement.readiness, r.health.state, HeldByPast(r, c), IsFreshAt(r, c);
    && (v == Ready <==> !held && st == Healthy && young && !Doubted(r, c) && !AgeingAt(r, c))
    && (v == ReadyDegraded <==>
          && !held && young
          && (|| (st == Degraded && c.policy.allowDegradedReadiness)
              || (st == Healthy && !Doubted(r, c) && AgeingAt(r, c))))
    && (v == NotReady <==>
          !held && (st == Lost || (st == Degraded && young && !c.policy.allowDegradedReadiness)))
    && (v == RevalidationRequired <==>
          held || (st == Degraded && !young) || (st == Healthy && (!young || Doubted(r, c))))
    && (v == DrainRequired <==> !held && (st == Unhealthy || st == Failed))
    && (v == QuarantineHold <==> !held && st == Quarantined)
    && (v == ReadinessUnknown <==> st == Initializing)
  }

  lemma VerdictByCause(d: Device, c: Context)
    requires Prepared(d) && !d.care.inRecovery
    ensures VerdictTold(Reassessed(d, c), c)
  {
    hide Reassessed, HeldByPast, EvidenceFreshness, Evaluate, Target, Blocked, IsFreshAt;
    var r := Reassessed(d, c);
    VerdictIs(d, c);
    BlockedIsHeld(d, c);
    ReassessKeepsEvidence(d, c);
    CausesAre(r, c);
    VerdictsExactly(ReadinessInputOf(r, c));
    AgeingIs(r, c);
    StatesReached(d, c);
  }

  /** Under recovery there are two verdicts. */
  lemma VerdictInRecovery(d: Device, c: Context)
    requires Prepared(d) && d.care.inRecovery
    ensures Reassessed(d, c).judgement.readiness ==
      if QuarantineActive(d) && d.health.state != Lost then QuarantineHold else RevalidationRequired
  {
    hide Reassessed, EvidenceFreshness;
    VerdictIs(d, c);
    ReassessDecides(d, c);
    ReassessKeepsEvidence(d, c);
  }

  lemma AgeingIs(d: Device, c: Context)
    ensures IsFreshAt(d, c) ==> (DeviceFreshness(d, c) == Aging <==> AgeingAt(d, c))
    ensures IsFreshAt(d, c) ==> (DeviceFreshness(d, c) == Current <==> !AgeingAt(d, c))
  {
    BandsExactly(c.policy.freshness, d.evidence.lastObservation, c.now);
  }

  /** A reassessed device is quarantined or lost while a quarantine is active, and a device
      that stays INITIALIZING is not held there. */
  lemma StatesReached(d: Device, c: Context)
    requires Prepared(d) && !d.care.inRecovery
    ensures var r := Reassessed(d, c);
      && InUse(r.health.state) && !UnderRecovery(r.health.state)
      && (QuarantineActive(r) ==> r.health.state == Quarantined || (r.health.state == Lost && Blocked(d, c)))
      && (r.health.state == Initializing ==> !Blocked(d, c))
  {
    hide Reassessed, AnyFailed, AnyFatalDimension, HasOpenFatal, HasOpenCritical, AsInt32, EvidenceFreshness, StatsOf;
    ReassessDecides(d, c);
    ReassessKeepsEvidence(d, c);
  }

  // ---- The action ----

  predicate TooShallow(d: Device, c: Context) {
    d.history.highestValidation < c.policy.requiredValidationDepth
  }

  /** What is asked of a device that was in state `from`, for each of the six actions. It follows
      the causes, not the state that the past may hold the device in. */
  ghost predicate ActionTold(d: Device, from: HealthState, c: Context, a: ActionRequired) {
    var aged := Spotless(d, c) && !IsFreshAt(d, c);
    var drain := FatalCause(d) || FailedReading(d)
      || (!CriticalRun(d, c) && RunReaches(d, c.policy.unhealthyAfterFailures))
      || (aged && (from == Unhealthy || from == Failed));
    var hold := CriticalRun(d, c) || (aged && from == Quarantined);
    var watch := RunReaches(d, c.policy.degradeAfterFailures) || (aged && (from == Healthy || from == Degraded));
    a == if QuarantineActive(d) then ACTION_RECOVER
         else if d.care.inRecovery then ACTION_REVALIDATE
         else if drain then ACTION_DRAIN
         else if hold then ACTION_QUARANTINE
         else if TooShallow(d, c) then ACTION_REVALIDATE
         else if watch then ACTION_MONITOR else ACTION_NONE
  }

  lemma ActionByCause(d: Device, c: Context)
    requires Prepared(d)
    ensures ActionTold(d, d.health.state, c, Reassessed(d, c).judgement.assessment.action)
  {
    hide FatalCause, FailedReading, OpenCriticalFault, AnyFailed, AnyFatalDimension, HasOpenFatal, HasOpenCritical,
      AsInt32, EvidenceFreshness, IsFreshAt, ConsecutiveLatest, ReasonsFor, Digest, ConfidenceOf, Evaluate;
    CausesAre(d, c);
    FatalIsFailed(d);
  }

  lemma SameAction(d: Device, r: Device, from: HealthState, c: Context, a: ActionRequired)
    requires SameEvidence(d, r) && ActionTold(d, from, c, a)
    ensures ActionTold(r, from, c, a)
  {
    hide FatalCause, FailedReading, OpenCriticalFault, RunReaches, IsFreshAt;
    SameCauses(d, r, c);
  }
}
