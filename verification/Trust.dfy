/** What a verdict is worth once the evidence behind it is distrusted: after a load, and after
    a change of policy. */
module Trust {
  import opened Enums
  import opened Records
  import opened StateMachine
  import opened Readiness
  import opened FaultHistory
  import opened Assessment
  import opened Devices
  import opened StoreMachine
  import opened ChangeLogs
  import opened DeviceInvariant
  import opened Runs
  import opened Guarantees

  /** A verdict "may execute" can only be that of a DEGRADED device. */
  predicate AtMostDegraded(d: Device) {
    ExecutionReady(d) ==> d.judgement.assessment.state == Degraded
  }

  /** Either mark rules a verdict "may execute" for a HEALTHY device out. */
  lemma MarksRuleOutHealthy(d: Device, c: Context)
    requires d.evidence.requiresRevalidation || d.evidence.policyGenerationChanged
    ensures AtMostDegraded(Reassessed(d, c))
  {
    hide Reassessed, EvidenceFreshness, TargetOf, StatsOf, Blocked;
    ReassessKeepsEvidence(d, c);
    ReassessDecides(d, c);
  }

  // ---- The trust boundary of a load ----

  /** Loaded, and not observed since. */
  ghost predicate Loaded(d: Device) {
    Settled(d) && d.evidence.requiresRevalidation && AtMostDegraded(d)
  }

  lemma LandedMark(s: Store, d: Device, e: Event, now: Timestamp)
    requires !AcceptedFor(s, e, d.id)
    ensures Landed(s, d, e, now).evidence.requiresRevalidation == (d.evidence.requiresRevalidation || e.Restart?)
    ensures !IsReassessed(s, d, e, now) ==> Landed(s, d, e, now).judgement == d.judgement && !e.Restart?
  {
    hide Judge;
  }

  lemma LoadedStep(s: Store, d: Device, e: Event, now: Timestamp)
    requires Settled(d)
    requires !AcceptedFor(s, e, d.id)
    requires Loaded(d) || e.Restart?
    ensures Loaded(DeviceAfter(s, d, e, now))
  {
    hide Landed, Reassessed, Settled, Prepared, IsReassessed, Judge;
    LandedMark(s, d, e, now);
    StepSettles(s, d, e, now);
    ReassessKeepsEvidence(Landed(s, d, e, now), ContextOf(s, now));
    if IsReassessed(s, d, e, now) {
      MarksRuleOutHealthy(Landed(s, d, e, now), ContextOf(s, now));
    }
  }

  /** The trust boundary. From a restart on, until an observation of it is accepted, a device
      keeps its revalidation mark, and a verdict "may execute" is that of a DEGRADED device. */
  lemma {:induction false} TrustBoundary(s: Store, trace: Trace, i: nat, x: Id)
    requires IsInitial(s)
    requires Admissible(s, trace)
    requires i < |trace| && trace[i].event.Restart?
    requires x in Run(s, trace[..i]).devices
    requires Unobserved(s, trace, i, x)
    ensures x in Run(s, trace).devices && Loaded(Run(s, trace).devices[x])
    decreases |trace|
  {
    hide DeviceAfter, Step, Settled, LegalLog, RecordsSound, AcceptedFor, Loaded;
    var init, last := trace[..|trace| - 1], trace[|trace| - 1];
    var before := Run(s, init);
    if i < |trace| - 1 {
      assert init[..i] == trace[..i];
      UnobservedPrefix(s, trace, i, x);
      TrustBoundary(s, init, i, x);
    }
    LastStep(s, trace, x);
    LoadedStep(before, before.devices[x], last.event, last.now);
  }

  /** And exactly when a device is ready as it comes out of a load: when what was saved of it
      aims at DEGRADED, is still fresh, and policy lets a degraded device execute. */
  lemma ReadyAfterRestart(s: Store, d: Device, now: Timestamp)
    requires Settled(d)
    ensures var c := ContextOf(s, now);
      ExecutionReady(DeviceAfter(s, d, Restart, now)) <==>
        && TargetOf(d, c) == Degraded && !Blocked(d, c)
        && IsFresh(DeviceFreshness(d, c)) && c.policy.allowDegradedReadiness
  {
    hide Reassessed, Target, EvidenceFreshness, CanTransition, ReadyHolds, FatalHolds, QuarantineHolds;
    var c := ContextOf(s, now);
    if TargetOf(d, c) == Degraded {
      DegradedIsAtLarge(d, c);
    }
    ReassessDecides(Distrusted(d), c);
    ReassessKeepsEvidence(Distrusted(d), c);
    assert InputOf(Distrusted(d), c) == InputOf(d, c);
  }

  /** Only outside quarantine and recovery does the engine aim at DEGRADED. */
  lemma DegradedIsAtLarge(d: Device, c: Context)
    requires TargetOf(d, c) == Degraded
    ensures !QuarantineActive(d) && !d.care.inRecovery
  {
    hide AnyFailed, AnyFatalDimension, HasOpenFatal, AsInt32, EvidenceFreshness, StatsOf;
  }

  // ---- After a change of policy ----

  lemma PolicyMarkStep(s: Store, d: Device, e: Event, now: Timestamp)
    requires Settled(d)
    requires d.evidence.policyGenerationChanged || e.InstallPolicy?
    ensures DeviceAfter(s, d, e, now).evidence.policyGenerationChanged
    ensures IsReassessed(s, d, e, now) || AtMostDegraded(d) ==> AtMostDegraded(DeviceAfter(s, d, e, now))
  {
    hide Landed, Reassessed, Settled, Prepared, IsReassessed;
    LandedPolicyMark(s, d, e, now);
    ReassessKeepsEvidence(Landed(s, d, e, now), ContextOf(s, now));
    if IsReassessed(s, d, e, now) {
      MarksRuleOutHealthy(Landed(s, d, e, now), ContextOf(s, now));
    }
  }

  lemma LandedPolicyMark(s: Store, d: Device, e: Event, now: Timestamp)
    ensures Landed(s, d, e, now).evidence.policyGenerationChanged ==
      (d.evidence.policyGenerationChanged || e.InstallPolicy?)
    ensures !IsReassessed(s, d, e, now) ==> Landed(s, d, e, now).judgement == d.judgement
  {
    hide Judge;
  }

  /** Some step from `i` on reassessed `x`. */
  ghost predicate ReassessedSince(s: Store, trace: Trace, i: nat, x: Id) {
    exists j :: i <= j < |trace| && ReassessedAt(s, trace, j, x)
  }

  ghost predicate ReassessedAt(s: Store, trace: Trace, j: nat, x: Id)
    requires j < |trace|
  {
    var before := Run(s, trace[..j]);
    x in before.devices && IsReassessed(before, before.devices[x], trace[j].event, trace[j].now)
  }

  lemma ReassessedBefore(s: Store, trace: Trace, i: nat, x: Id)
    requires trace != [] && i < |trace| && ReassessedSince(s, trace, i, x)
    ensures ReassessedAt(s, trace, |trace| - 1, x) || ReassessedSince(s, trace[..|trace| - 1], i, x)
  {
    hide Run, IsReassessed;
    var init := trace[..|trace| - 1];
    var j :| i <= j < |trace| && ReassessedAt(s, trace, j, x);
    if j < |init| {
      assert init[..j] == trace[..j];
      assert ReassessedAt(s, init, j, x);
    }
  }

  /** A new policy marks every tracked device for good: no observation, revalidation or restart
      takes the mark away, and once it has been reassessed no HEALTHY verdict "may execute" is
      ever given to the device again. */
  lemma {:induction false} NewPolicyEndsFullReadiness(s: Store, trace: Trace, i: nat, x: Id)
    requires IsInitial(s)
    requires Admissible(s, trace)
    requires i < |trace| && trace[i].event.InstallPolicy?
    requires x in Run(s, trace[..i]).devices
    ensures x in Run(s, trace).devices && Run(s, trace).devices[x].evidence.policyGenerationChanged
    ensures ReassessedSince(s, trace, i, x) ==> AtMostDegraded(Run(s, trace).devices[x])
    decreases |trace|
  {
    hide DeviceAfter, Step, LegalLog, RecordsSound, Settled, AtMostDegraded, IsReassessed, ReassessedSince;
    var init, last := trace[..|trace| - 1], trace[|trace| - 1];
    var before := Run(s, init);
    if i < |trace| - 1 {
      assert init[..i] == trace[..i];
      NewPolicyEndsFullReadiness(s, init, i, x);
    }
    LastStep(s, trace, x);
    PolicyMarkStep(before, before.devices[x], last.event, last.now);
    if ReassessedSince(s, trace, i, x) {
      ReassessedBefore(s, trace, i, x);
      if i == |init| {
        NothingSince(s, init, i, x);
      }
    }
  }

  lemma NothingSince(s: Store, trace: Trace, i: nat, x: Id)
    requires i >= |trace|
    ensures !ReassessedSince(s, trace, i, x)
  {
  }

  // ---- What the verdict asks for ----

  /** A verdict "may execute" goes with no call to drain, quarantine or recover the device,
      and for a HEALTHY one with no call for anything. */
  predicate AsksLittle(a: HealthAssessment) {
    a.executionReady ==>
      && a.action in {ACTION_NONE, ACTION_MONITOR, ACTION_REVALIDATE}
      && (a.state == Healthy ==> a.action == ACTION_NONE)
  }

  lemma ActionOfVerdict(d: Device, c: Context)
    requires Prepared(d)
    ensures AsksLittle(Reassessed(d, c).judgement.assessment)
    ensures Reassessed(d, c).judgement.assessment.action == ActionFor(InputOf(d, c))
  {
    hide AnyFailed, AnyFatalDimension, HasOpenFatal, AsInt32, EvidenceFreshness, StatsOf, ReasonsFor, Digest,
      ConfidenceOf;
    EvaluateExactly(ReadinessInputOf(FollowTarget(d, c), c));
  }

  /** The converse fails: a device with fresh evidence of which nothing is asked is still kept
      from executing by a mark on its evidence, or where no transition leads to HEALTHY. */
  lemma NothingAsked(d: Device, c: Context)
    requires Prepared(d)
    requires IsFresh(DeviceFreshness(d, c)) && ActionFor(InputOf(d, c)) == ACTION_NONE
    ensures TargetOf(d, c) == Healthy
    ensures ExecutionReady(Reassessed(d, c)) <==>
      && !Blocked(d, c)
      && !d.evidence.deviceGenerationChanged && !d.evidence.policyGenerationChanged
      && !d.evidence.requiresRevalidation
  {
    hide Reassessed, AnyFailed, AnyFatalDimension, HasOpenFatal, AsInt32, EvidenceFreshness, StatsOf;
    ReassessDecides(d, c);
    ReassessKeepsEvidence(d, c);
  }

  /** In every run a device that may execute is asked for monitoring or revalidation at most,
      and for nothing at all when the verdict found it HEALTHY. */
  lemma {:induction false} ReadyIsAskedLittle(s: Store, trace: Trace, x: Id)
    requires IsInitial(s)
    requires Admissible(s, trace)
    requires x in Run(s, trace).devices
    ensures AsksLittle(Run(s, trace).devices[x].judgement.assessment)
    decreases |trace|
  {
    hide Step, Landed, Reassessed, LegalLog, RecordsSound, Settled, Prepared, AsksLittle, IsReassessed;
    if trace != [] {
      var init, last := trace[..|trace| - 1], trace[|trace| - 1];
      var before := Run(s, init);
      if x in before.devices {
        LastStep(s, trace, x);
        ReadyIsAskedLittle(s, init, x);
        LandedPolicyMark(before, before.devices[x], last.event, last.now);
        LandedPrepares(before, before.devices[x], last.event, last.now);
        ActionOfVerdict(Landed(before, before.devices[x], last.event, last.now), ContextOf(before, last.now));
      } else {
        NewDevice(s, trace, x);
        NotYetAsked(Run(s, trace).devices[x], x);
      }
    }
  }

  lemma NotYetAsked(d: Device, x: Id)
    requires exists uuid, node, now :: d == FreshDevice(x, uuid, node, now)
    ensures AsksLittle(d.judgement.assessment)
  {
  }
}
