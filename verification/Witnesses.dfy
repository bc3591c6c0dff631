/** Runs that reach the corners which the run theorems except or describe. */
module Witnesses {
  import opened Enums
  import opened Records
  import opened StateMachine
  import opened Readiness
  import opened FaultHistory
  import opened Assessment
  import opened Devices
  import opened StoreMachine
  import opened ChangeLogs
  import opened DeviceInvariant
  import opened Runs
  import opened Recovery
  import opened Guarantees
  import opened Trust
  import opened Hysteresis
  import opened Wire
  import opened RecordCodecs
  import opened DeviceCodec
  import opened Persistence
  import opened Limits

  const DEVICE: Id := 7
  const WORKER: Id := 2
  const BOOT: Id := 3

  /** An envelope that the first observation of a new device can travel in. */
  predicate FirstEnvelope(s: Store, env: Envelope) {
    && env.coordinatorEpoch == s.coordinatorEpoch
    && env.workerId == WORKER && env.workerBootId == BOOT && env.deviceGeneration == 1
  }

  /** Register a device and a worker, and observe the one through the other. */
  function FirstObservation(obs: Observation, env: Envelope, now: Timestamp): Trace {
    [] + [Timed(RegisterDevice(DEVICE, 1), now)] + [Timed(RegisterWorker(WORKER, BOOT), now)]
    + [Timed(Observe(obs, env), now)]
  }

  lemma RegisterWorkerKeeps(s: Store, w: Id, b: Id, now: Timestamp)
    ensures var t := Step(s, RegisterWorker(w, b), now);
      && t.coordinatorEpoch == s.coordinatorEpoch && t.fence == s.fence && t.workers == s.workers[w := b]
      && ContextOf(t, now) == ContextOf(s, now)
      && forall x :: x in s.devices ==> x in t.devices && t.devices[x] == s.devices[x]
  {
    hide StateIndexAfter, ReadinessIndexAfter, StaleIndexAfter, GlobalChangesAfter, Judge, Reassessed;
  }

  lemma RegisterDeviceKeeps(s: Store, uuid: Id, node: Id, now: Timestamp)
    requires uuid != 0 && uuid !in s.uuidIndex
    ensures var t := Step(s, RegisterDevice(uuid, node), now);
      && t.coordinatorEpoch == s.coordinatorEpoch && t.fence == s.fence && t.workers == s.workers
      && ContextOf(t, now) == ContextOf(s, now)
      && uuid in t.devices && t.devices[uuid] == FreshDevice(uuid, uuid, node, now)
  {
    hide StateIndexAfter, ReadinessIndexAfter, StaleIndexAfter, GlobalChangesAfter, Judge, Reassessed;
  }

  lemma BothRegistered(s: Store, now: Timestamp)
    requires IsInitial(s)
    ensures var t := Run(s, [] + [Timed(RegisterDevice(DEVICE, 1), now)] + [Timed(RegisterWorker(WORKER, BOOT), now)]);
      && t.coordinatorEpoch == s.coordinatorEpoch && t.fence == map[] && t.workers == map[WORKER := BOOT]
      && ContextOf(t, now) == ContextOf(s, now)
      && DEVICE in t.devices && t.devices[DEVICE] == FreshDevice(DEVICE, DEVICE, 1, now)
  {
    hide Step, FreshDevice;
    var e1, e2 := Timed(RegisterDevice(DEVICE, 1), now), Timed(RegisterWorker(WORKER, BOOT), now);
    RunSnoc(s, [], e1);
    RunSnoc(s, [] + [e1], e2);
    RegisterDeviceKeeps(s, DEVICE, 1, now);
    RegisterWorkerKeeps(Run(s, [] + [e1]), WORKER, BOOT, now);
  }

  /** The observation is accepted, and the device is what a reassessment makes of it. */
  lemma FirstObservationLands(s: Store, obs: Observation, env: Envelope, now: Timestamp)
    requires IsInitial(s) && obs.accelerator == DEVICE && FirstEnvelope(s, env)
    ensures Admissible(s, FirstObservation(obs, env, now))
    ensures var t := Run(s, FirstObservation(obs, env, now));
      && DEVICE in t.devices && ContextOf(t, now) == ContextOf(s, now)
      && t.devices[DEVICE] ==
         Reassessed(Observed(FreshDevice(DEVICE, DEVICE, 1, now), obs, env), ContextOf(s, now))
      && t.devices[DEVICE].care.quarantine.None?
  {
    hide Step, Reassessed, MergeDimensions, Run, Admissible;
    var before := [] + [Timed(RegisterDevice(DEVICE, 1), now)] + [Timed(RegisterWorker(WORKER, BOOT), now)];
    BothRegistered(s, now);
    RunSnoc(s, before, Timed(Observe(obs, env), now));
    NonZeroUuidsAreAdmissible(s, FirstObservation(obs, env, now));
    ObserveLands(Run(s, before), obs, env, now);
    ReassessKeepsEvidence(Observed(FreshDevice(DEVICE, DEVICE, 1, now), obs, env), ContextOf(s, now));
  }

  lemma ObserveLands(s: Store, obs: Observation, env: Envelope, now: Timestamp)
    requires obs.accelerator in s.devices && s.devices[obs.accelerator].id == obs.accelerator
    requires Judge(s, obs, env) == Accepted
    ensures var t := Step(s, Observe(obs, env), now);
      && obs.accelerator in t.devices && ContextOf(t, now) == ContextOf(s, now)
      && t.devices[obs.accelerator] ==
         Reassessed(Observed(s.devices[obs.accelerator], obs, env), ContextOf(s, now))
  {
    hide StateIndexAfter, ReadinessIndexAfter, StaleIndexAfter, GlobalChangesAfter, Judge, Reassessed, Observed;
  }

  /** A policy under which a clean first observation is enough to execute. */
  ghost predicate Lenient(p: HealthPolicy) {
    Thresholded(p) && p.requiredValidationDepth == 0 && p.freshness.current >= 0
  }

  lemma CleanObservationIsReady(obs: Observation, env: Envelope, c: Context)
    requires Lenient(c.policy) && obs.dimensions == [] && obs.timestamp == c.now != 0 && env.deviceGeneration == 1
    ensures var r := Reassessed(Observed(FreshDevice(DEVICE, DEVICE, 1, c.now), obs, env), c);
      ExecutionReady(r) && r.health.state == Healthy && InGoodStanding(r, 0) && r.history.faults == []
  {
    hide Reassessed, StatsOf;
    var d := Observed(FreshDevice(DEVICE, DEVICE, 1, c.now), obs, env);
    var r := Reassessed(d, c);
    assert d.evidence.dimensions == map[];
    ThresholdsMustFit(d, c);
    ReassessMoves(d, c);
    ReassessKeepsEvidence(d, c);
    ThresholdsMustFit(r, c);
    NoFaultsNoRun();
    ReadyIffDeserved(d, c);
  }

  lemma NoFaultsNoRun()
    ensures StatsOf([]).consecutiveLatest == 0
  {
  }

  /** The exception of QuarantineTakesHold is reached: a device that is ready, is then lost and
      is then quarantined still carries the verdict "may execute" under an active quarantine. */
  lemma ReadyUnderQuarantine(s: Store, obs: Observation, env: Envelope, now: Timestamp, reason: string)
    requires IsInitial(s) && Lenient(s.policy)
    requires obs.accelerator == DEVICE && FirstEnvelope(s, env) && obs.dimensions == [] && obs.timestamp == now != 0
    ensures var t := Run(s, FirstObservation(obs, env, now) + [Timed(MarkLost(DEVICE, reason), now)]
                            + [Timed(BeginQuarantine(DEVICE, 0, reason, reason), now)]);
      DEVICE in t.devices && QuarantineActive(t.devices[DEVICE]) && ExecutionReady(t.devices[DEVICE])
  {
    hide Step, Reassessed, Observed, FreshDevice, Admissible, FirstObservation, Sound, Identified;
    var seen := FirstObservation(obs, env, now);
    var e1, e2 := Timed(MarkLost(DEVICE, reason), now), Timed(BeginQuarantine(DEVICE, 0, reason, reason), now);
    FirstObservationLands(s, obs, env, now);
    CleanObservationIsReady(obs, env, ContextOf(s, now));
    RunSnoc(s, seen, e1);
    RunSnoc(s, seen + [e1], e2);
    ReachableInvariant(s, seen);
    LossKeepsVerdict(Run(s, seen), DEVICE, reason, now);
    StepKeepsInvariant(Run(s, seen), e1.event, now);
    QuarantineOnLost(Run(s, seen + [e1]), e2.event, now);
  }

  lemma LossKeepsVerdict(s: Store, x: Id, reason: string, now: Timestamp)
    requires Invariant(s) && x in s.devices
    ensures var t := Step(s, MarkLost(x, reason), now);
      && x in t.devices && t.devices[x].health.state == Lost
      && ExecutionReady(t.devices[x]) == ExecutionReady(s.devices[x])
      && t.devices[x].care.quarantine == s.devices[x].care.quarantine
  {
    hide Step, Reassessed, Sound, Judge;
    DevicesStep(s, MarkLost(x, reason), now);
    TableShape(s.devices[x].health.state);
  }

  lemma QuarantineOnLost(s: Store, e: Event, now: Timestamp)
    requires Invariant(s) && e.BeginQuarantine? && e.id in s.devices
    requires s.devices[e.id].health.state == Lost && !QuarantineActive(s.devices[e.id])
    ensures var t := Step(s, e, now);
      && e.id in t.devices && QuarantineActive(t.devices[e.id])
      && ExecutionReady(t.devices[e.id]) == ExecutionReady(s.devices[e.id])
  {
    hide Step, DeviceAfter, Settled, LegalLog, RecordsSound;
    DevicesStep(s, e, now);
    QuarantineTakesHold(s, s.devices[e.id], e, now);
  }

  // ---- Ready out of a load ----

  /** A policy under which one fault degrades a device and a degraded one may execute. */
  ghost predicate DegradesAtOnce(p: HealthPolicy) {
    Lenient(p) && p.degradeAfterFailures == 1 < p.unhealthyAfterFailures && p.allowDegradedReadiness
  }

  lemma OneFaultDegrades(d: Device, f: Fault, c: Context)
    requires DegradesAtOnce(c.policy) && IsMinor(f, d.id, f.kind)
    requires d.health.state == Healthy && InGoodStanding(d, 0) && d.history.faults == []
    requires IsFresh(DeviceFreshness(d, c))
    ensures var r := Reassessed(WithFault(d, f), c);
      r.health.state == Degraded && TargetOf(r, c) == Degraded && r.evidence == d.evidence
  {
    hide Target, AnyFailed, EvidenceFreshness, HasOpenFatal, HasOpenCritical, Assess, Evaluate;
    var e := WithFault(d, f);
    assert TrailingRun([], f.kind) == 0;
    NoFaultsOpen();
    MinorFaultTarget(d, f, c);
    ReassessMoves(e, c);
    ReassessKeepsEvidence(e, c);
    TargetIsStable(e, c);
    assert InputOf(Reassessed(e, c), c) == InputOf(FollowTarget(e, c), c);
  }

  lemma NoFaultsOpen()
    ensures !HasOpenFatal([]) && !HasOpenCritical([])
  {
  }

  /** The trust boundary has a gap: a device that one minor fault has degraded comes out of a
      load marked for revalidation, unobserved, and ready. */
  lemma ReadyOutOfLoad(s: Store, obs: Observation, env: Envelope, now: Timestamp, f: Fault)
    requires IsInitial(s) && DegradesAtOnce(s.policy) && IsMinor(f, DEVICE, f.kind)
    requires obs.accelerator == DEVICE && FirstEnvelope(s, env) && obs.dimensions == [] && obs.timestamp == now != 0
    ensures var t := Run(s, FirstObservation(obs, env, now) + [Timed(RecordFault(f), now)] + [Timed(Restart, now)]);
      && DEVICE in t.devices && t.devices[DEVICE].evidence.requiresRevalidation
      && t.devices[DEVICE].health.state == Degraded && ExecutionReady(t.devices[DEVICE])
  {
    hide Step, Run, Reassessed, Observed, FreshDevice, Admissible, FirstObservation, Sound, Identified,
      EvidenceFreshness, TargetOf, HasId;
    var seen := FirstObservation(obs, env, now);
    var e1, e2 := Timed(RecordFault(f), now), Timed(Restart, now);
    FirstObservationLands(s, obs, env, now);
    CleanObservationIsReady(obs, env, ContextOf(s, now));
    RunSnoc(s, seen, e1);
    RunSnoc(s, seen + [e1], e2);
    ReachableInvariant(s, seen);
    IdentifiedKeys(Run(s, seen));
    var d := Run(s, seen).devices[DEVICE];
    ObservedNow(obs, env, ContextOf(s, now));
    NoIds(f.id);
    ReportStep(Run(s, seen), f, now);
    OneFaultDegrades(d, f, ContextOf(s, now));
    StepKeepsInvariant(Run(s, seen), e1.event, now);
    RecordFaultKeepsContext(Run(s, seen), f, now);
    LoadOfDegraded(Run(s, seen + [e1]), DEVICE, now);
  }

  lemma NoIds(id: Id)
    ensures !HasId([], id)
  {
  }

  lemma ObservedNow(obs: Observation, env: Envelope, c: Context)
    requires Lenient(c.policy) && obs.timestamp == c.now != 0
    ensures IsFresh(DeviceFreshness(Reassessed(Observed(FreshDevice(DEVICE, DEVICE, 1, c.now), obs, env), c), c))
  {
    hide Reassessed, MergeDimensions;
    ReassessKeepsEvidence(Observed(FreshDevice(DEVICE, DEVICE, 1, c.now), obs, env), c);
  }

  lemma RecordFaultKeepsContext(s: Store, f: Fault, now: Timestamp)
    ensures ContextOf(Step(s, RecordFault(f), now), now) == ContextOf(s, now)
  {
    hide DevicesAfter, StateIndexAfter, ReadinessIndexAfter, StaleIndexAfter, GlobalChangesAfter, FaultIndexAfter;
  }

  lemma LoadOfDegraded(s: Store, x: Id, now: Timestamp)
    requires Invariant(s) && x in s.devices && s.policy.allowDegradedReadiness
    requires var d, c := s.devices[x], ContextOf(s, now);
      d.health.state == Degraded && TargetOf(d, c) == Degraded && IsFresh(DeviceFreshness(d, c))
    ensures var t := Step(s, Restart, now);
      && x in t.devices && t.devices[x].evidence.requiresRevalidation
      && t.devices[x].health.state == Degraded && ExecutionReady(t.devices[x])
  {
    hide Step, Reassessed, Settled, LegalLog, RecordsSound, EvidenceFreshness, Target;
    var d := s.devices[x];
    DevicesStep(s, Restart, now);
    ReadyAfterRestart(s, d, now);
    ReassessKeepsEvidence(Distrusted(d), ContextOf(s, now));
    ReassessMoves(Distrusted(d), ContextOf(s, now));
    assert InputOf(Distrusted(d), ContextOf(s, now)) == InputOf(d, ContextOf(s, now));
  }

  // ---- A failed revalidation ----

  lemma QuarantineOfNew(s: Store, node: Id, since: Timestamp, reason: string, now: Timestamp)
    requires DEVICE in s.devices && s.devices[DEVICE] == FreshDevice(DEVICE, DEVICE, node, since)
    ensures var t := Step(s, BeginQuarantine(DEVICE, 0, reason, reason), now);
      && DEVICE in t.devices && t.devices[DEVICE].id == DEVICE
      && t.devices[DEVICE].health.state == Quarantined && !t.devices[DEVICE].care.inRecovery
      && t.devices[DEVICE].health.transitions == 1
  {
    hide Step, Reassessed, Landed, IsReassessed;
    var e := BeginQuarantine(DEVICE, 0, reason, reason);
    DevicesStep(s, e, now);
    QuarantineLands(s, s.devices[DEVICE], e, now);
    Stays(Landed(s, s.devices[DEVICE], e, now), ContextOf(s, now));
  }

  lemma QuarantineLands(s: Store, d: Device, e: Event, now: Timestamp)
    requires e.BeginQuarantine? && e.id == d.id
    requires d.health.state == Initializing && d.care.quarantine.None?
    ensures var l := Landed(s, d, e, now);
      && IsReassessed(s, d, e, now) && l.id == d.id && l.care.inRecovery == d.care.inRecovery
      && QuarantineActive(l) && l.health.state == Quarantined && l.health.transitions == d.health.transitions + 1
  {
  }

  /** A reassessment leaves a device alone that it finds in quarantine or under recovery. */
  lemma Stays(d: Device, c: Context)
    requires if d.care.inRecovery then d.health.state == Recovering
             else QuarantineActive(d) && d.health.state == Quarantined
    ensures var r := Reassessed(d, c);
      && r.id == d.id && r.care == d.care && r.health.state == d.health.state
      && r.health.transitions == d.health.transitions
  {
    hide Reassessed;
    ReassessDecides(d, c);
    ReassessKeepsEvidence(d, c);
  }

  lemma RecoveryOfQuarantined(s: Store, now: Timestamp)
    requires DEVICE in s.devices && s.devices[DEVICE].id == DEVICE
    requires s.devices[DEVICE].health.state == Quarantined && !s.devices[DEVICE].care.inRecovery
    ensures var t := Step(s, BeginRecovery(DEVICE), now);
      && DEVICE in t.devices && t.devices[DEVICE].id == DEVICE
      && t.devices[DEVICE].health.state == Recovering && t.devices[DEVICE].care.inRecovery
      && t.devices[DEVICE].health.transitions == s.devices[DEVICE].health.transitions + 1
  {
    hide Step, Reassessed, Landed, IsReassessed;
    DevicesStep(s, BeginRecovery(DEVICE), now);
    RecoveryLands(s, s.devices[DEVICE], now);
    Stays(Landed(s, s.devices[DEVICE], BeginRecovery(DEVICE), now), ContextOf(s, now));
  }

  lemma RecoveryLands(s: Store, d: Device, now: Timestamp)
    requires d.health.state == Quarantined && !d.care.inRecovery
    ensures var e := BeginRecovery(d.id);
      && IsReassessed(s, d, e, now) && Landed(s, d, e, now).id == d.id && Landed(s, d, e, now).care.inRecovery
      && Landed(s, d, e, now).health.state == Recovering
      && Landed(s, d, e, now).health.transitions == d.health.transitions + 1
  {
  }

  /** Registered, quarantined, taken into recovery, and failed in revalidation. */
  function FailedRecovery(v: ValidationRecord, reason: string, now: Timestamp): Trace {
    [] + [Timed(RegisterDevice(DEVICE, 1), now)] + [Timed(BeginQuarantine(DEVICE, 0, reason, reason), now)]
    + [Timed(BeginRecovery(DEVICE), now)] + [Timed(Revalidate(DEVICE, v), now)]
  }

  /** The device is back under recovery, not in quarantine: the log has four changes. */
  lemma FailureIsRetried(s: Store, v: ValidationRecord, reason: string, now: Timestamp)
    requires IsInitial(s) && !v.passed
    ensures var t := Run(s, FailedRecovery(v, reason, now));
      && DEVICE in t.devices && t.devices[DEVICE].health.state == Recovering && t.devices[DEVICE].care.inRecovery
      && t.devices[DEVICE].health.transitions == 4
  {
    hide Step, Run, DeviceAfter, Sound, FreshDevice;
    var e1 := Timed(RegisterDevice(DEVICE, 1), now);
    var e2, e3 := Timed(BeginQuarantine(DEVICE, 0, reason, reason), now), Timed(BeginRecovery(DEVICE), now);
    var e4 := Timed(Revalidate(DEVICE, v), now);
    RunSnoc(s, [], e1);
    RunSnoc(s, [] + [e1], e2);
    RunSnoc(s, [] + [e1] + [e2], e3);
    RunSnoc(s, [] + [e1] + [e2] + [e3], e4);
    NoSteps(s);
    RegisterDeviceKeeps(s, DEVICE, 1, now);
    QuarantineOfNew(Run(s, [] + [e1]), 1, now, reason, now);
    RecoveryOfQuarantined(Run(s, [] + [e1] + [e2]), now);
    NonZeroUuidsAreAdmissible(s, [] + [e1] + [e2] + [e3]);
    ReachableInvariant(s, [] + [e1] + [e2] + [e3]);
    var t := Run(s, [] + [e1] + [e2] + [e3]);
    DevicesStep(t, e4.event, now);
    SoundIsSettled(t.devices[DEVICE]);
    FailureKeepsRecovery(t, t.devices[DEVICE], v, now);
  }

  lemma SoundIsSettled(d: Device)
    requires Sound(d)
    ensures Settled(d)
  {
  }

  // ---- A text that cannot be written ----

  lemma {:induction false} OnlyOneIsWorst(dim: HealthDimension, n: nat)
    requires n <= DIMENSION_KINDS && dim.state == DimFailed && dim.severity > SEVERITY_INFO
    ensures WorstBelow(map[dim.kind := dim], n) ==
      if dim.kind < n then Worst(dim.severity, dim.reason) else Worst(SEVERITY_INFO, "")
  {
    if n > 0 {
      OnlyOneIsWorst(dim, n - 1);
    }
  }

  lemma LongReasonIsNotWritable(d: Device, dim: HealthDimension, c: Context)
    requires d.evidence.dimensions == map[dim.kind := dim]
    requires dim.state == DimFailed && dim.severity > SEVERITY_INFO
    requires IsBytes(dim.reason) && |dim.reason| > MAX_STRING - 19
    ensures !AssessmentWritable(Reassessed(d, c).judgement.assessment)
  {
    hide Target, ReasonsFor, Digest, Evaluate, CanTransition, WorstBelow, AllWithin;
    var i := InputOf(d, c);
    OnlyOneIsWorst(dim, DIMENSION_KINDS);
    assert IsFailed(i.dimensions[dim.kind]);
    ReasonsWithinExactly(i, MAX_STRING);
    assert !FindingFits(i, MAX_STRING);
    NotAllWritable(ReasonsFor(i));
    assert Reassessed(d, c).judgement.assessment.reasons == ReasonsFor(i);
  }

  lemma NotAllWritable(rs: seq<string>)
    requires !AllWithin(rs, MAX_STRING)
    ensures exists k :: 0 <= k < |rs| && !Writable(rs[k])
  {
  }

  /** A dimension whose reason can be written, and is accepted, but cannot be quoted: after its
      observation the store cannot be saved. */
  lemma LongReasonCannotBeSaved(s: Store, obs: Observation, env: Envelope, now: Timestamp, dim: HealthDimension)
    requires IsInitial(s) && obs.accelerator == DEVICE && FirstEnvelope(s, env)
    requires obs.dimensions == [dim] && DimensionWritable(dim)
    requires dim.state == DimFailed && dim.severity > SEVERITY_INFO && |dim.reason| > MAX_STRING - 19
    ensures !Saveable(Run(s, FirstObservation(obs, env, now)))
  {
    hide Run, Reassessed, Admissible, FirstObservation, AssessmentWritable, HistoryWritable, HealthWritable,
      CareWritable,
      EvidenceStateWritable;
    var d := Observed(FreshDevice(DEVICE, DEVICE, 1, now), obs, env);
    FirstObservationLands(s, obs, env, now);
    assert obs.dimensions[..0] == [];
    assert MergeDimensions(map[], [dim]) == map[dim.kind := dim];
    LongReasonIsNotWritable(d, dim, ContextOf(s, now));
  }
}
