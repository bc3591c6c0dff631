/** What the last step of a run leaves a device in: state, verdict and assessment, told from what
    the device then holds and the policy and clock of the step. */
module Outcomes {
  import opened Enums
  import opened Records
  import opened StateMachine
  import opened Readiness
  import opened Assessment
  import opened Devices
  import opened StoreMachine
  import opened ChangeLogs
  import opened DeviceInvariant
  import opened Runs
  import opened Recovery
  import opened Guarantees
  import opened Causes

  // ---- Which steps reassess ----

  /** The events that have a device assessed anew. */
  predicate Concerns(s: Store, d: Device, e: Event) {
    match e
    case ReassessAll => true
    case Restart => true
    case Reassess(id) => id == d.id
    case Observe(obs, env) => obs.accelerator == d.id && Judge(s, obs, env) == Accepted
    case RecordFault(f) =>
      f.accelerator == d.id && forall i :: 0 <= i < |d.history.faults| ==> d.history.faults[i].id != f.id
    case RecordValidation(v) => v.accelerator == d.id
    case Revalidate(id, _) => id == d.id
    case ClearQuarantine(id) => id == d.id
    case BeginQuarantine(id, _, _, _) => id == d.id && !QuarantineActive(d) && d.health.state != Lost
    case BeginRecovery(id) =>
      id == d.id && !d.care.inRecovery && (d.health.state == Failed || d.health.state == Quarantined)
    case InvalidateWorker(w, b) =>
      w in s.workers && s.workers[w] == b && d.evidence.lastWorker == w && d.evidence.lastWorkerBootId == b
    case _ => false
  }

  lemma ConcernsExactly(s: Store, d: Device, e: Event, now: Timestamp)
    requires Settled(d)
    ensures IsReassessed(s, d, e, now) <==> Concerns(s, d, e)
  {
    hide Judge, ReadyHolds, FatalHolds, QuarantineHolds;
    TableShape(d.health.state);
  }

  // ---- The recorded assessment ----

  /** The assessment says what the device is, as of now and under the policy generation `pg`. */
  ghost predicate Tells(d: Device, pg: Counter, now: Timestamp) {
    var a := d.judgement.assessment;
    && a.accelerator == d.id && a.uuid == d.identity.uuid
    && a.timestamp == now && a.policyGeneration == pg
    && a.state == d.health.state && a.healthGeneration == d.health.generation
    && a.deviceGeneration == d.evidence.generation && a.validationDepth == d.history.highestValidation
    && a.quarantined == QuarantineActive(d) && a.inRecovery == d.care.inRecovery
    && a.readiness == d.judgement.readiness
    && (a.executionReady <==> a.readiness == Ready || a.readiness == ReadyDegraded)
    && a.id == 0 && a.quarantineId == 0
  }

  lemma ReassessTells(d: Device, c: Context)
    ensures Tells(Reassessed(d, c), c.policyGeneration, c.now)
  {
    hide Target, Evaluate, EvidenceFreshness, CanTransition, ReasonsFor, Digest, ConfidenceOf;
    EvaluateExactly(ReadinessInputOf(FollowTarget(d, c), c));
  }

  /** Every event that concerns a device has it assessed at once: its assessment then says what the
      device is, with the clock of the step and the policy generation in force. */
  lemma AssessedAtOnce(s: Store, trace: Trace, x: Id)
    requires IsInitial(s) && trace != [] && Admissible(s, trace)
    requires var before, last := Run(s, trace[..|trace| - 1]), trace[|trace| - 1];
      x in before.devices && Concerns(before, before.devices[x], last.event)
    ensures x in Run(s, trace).devices
    ensures Tells(Run(s, trace).devices[x], Run(s, trace[..|trace| - 1]).policyGeneration, trace[|trace| - 1].now)
  {
    hide Step, Landed, Reassessed, Concerns, LegalLog, RecordsSound, Settled, IsReassessed, Tells;
    var before, last := Run(s, trace[..|trace| - 1]), trace[|trace| - 1];
    LastStep(s, trace, x);
    ConcernsExactly(before, before.devices[x], last.event, last.now);
    ReassessTells(Landed(before, before.devices[x], last.event, last.now), ContextOf(before, last.now));
  }

  /** And between such events it goes on saying so, but for the silent changes. */
  lemma SilentOtherwise(s: Store, trace: Trace, x: Id)
    requires IsInitial(s) && trace != [] && Admissible(s, trace)
    requires var before, last := Run(s, trace[..|trace| - 1]), trace[|trace| - 1];
      x in before.devices && !Concerns(before, before.devices[x], last.event)
    ensures x in Run(s, trace).devices
    ensures OnlySilently(Run(s, trace[..|trace| - 1]).devices[x], Run(s, trace).devices[x])
  {
    hide Step, DeviceAfter, Concerns, LegalLog, RecordsSound, Settled, IsReassessed, OnlySilently;
    var before, last := Run(s, trace[..|trace| - 1]), trace[|trace| - 1];
    LastStep(s, trace, x);
    ConcernsExactly(before, before.devices[x], last.event, last.now);
    SilentStep(before, before.devices[x], last.event, last.now);
  }

  // ---- The state ----

  /** Where the state a device is assessed from comes from: the call itself changes it when it
      ends a recovery or sets a quarantine. */
  lemma LandedFrom(s: Store, d: Device, e: Event, now: Timestamp)
    requires Settled(d) && IsReassessed(s, d, e, now) && !Landed(s, d, e, now).care.inRecovery
    ensures var l := Landed(s, d, e, now);
      && InUse(l.health.state) && !UnderRecovery(l.health.state)
      && l.health.state == (if d.care.inRecovery && IsPass(e, d.id) && d.health.state != Lost then Healthy
                            else if e.BeginQuarantine? then Quarantined else d.health.state)
      && (e.BeginQuarantine? ==> QuarantineActive(l) && d.health.state != Lost)
  {
    hide Judge, MergeDimensions, ReadyHolds, FatalHolds, QuarantineHolds;
  }

  /** The state that the step starts from: HEALTHY for a recovery that it ends. */
  function From(d: Device, e: Event): HealthState {
    if d.care.inRecovery && IsPass(e, d.id) && d.health.state != Lost then Healthy else d.health.state
  }

  lemma WorstAfterQuarantine(d: Device, from: HealthState, c: Context, st: HealthState)
    requires QuarantineActive(d) && InUse(from) && !UnderRecovery(from) && from != Lost
    requires IsWorst(d, Quarantined, c, st)
    ensures IsWorst(d, from, c, st)
  {
    hide FatalCause, FailedReading, CriticalRun, RunReaches, IsFreshAt;
    assert st == Quarantined;
    assert Calls(d, from, c, st);
  }

  lemma SameWorst(d: Device, r: Device, from: HealthState, c: Context, st: HealthState)
    requires SameEvidence(d, r) && IsWorst(d, from, c, st)
    ensures IsWorst(r, from, c, st)
  {
    hide FatalCause, FailedReading, OpenCriticalFault, RunReaches, IsFreshAt;
    SameCauses(d, r, c);
  }

  /** After every step that concerns a device out of recovery, its state is the worst of the one it
      came from and those that its readings, its faults, its quarantine and the age of its
      evidence call for, under the policy and the clock of the step. */
  lemma StateIsWorst(s: Store, trace: Trace, x: Id)
    requires IsInitial(s) && trace != [] && Admissible(s, trace)
    requires var before, last := Run(s, trace[..|trace| - 1]), trace[|trace| - 1];
      x in before.devices && Concerns(before, before.devices[x], last.event)
    requires x in Run(s, trace).devices && !Run(s, trace).devices[x].care.inRecovery
    ensures var before, last, d := Run(s, trace[..|trace| - 1]), trace[|trace| - 1], Run(s, trace).devices[x];
      IsWorst(d, From(before.devices[x], last.event), ContextOf(before, last.now), d.health.state)
  {
    hide Step, Landed, Reassessed, Concerns, LegalLog, RecordsSound, Settled, IsReassessed, IsWorst;
    var before, last := Run(s, trace[..|trace| - 1]), trace[|trace| - 1];
    LastStep(s, trace, x);
    var d, c := before.devices[x], ContextOf(before, last.now);
    var l := Landed(before, d, last.event, last.now);
    ConcernsExactly(before, d, last.event, last.now);
    ReassessKeepsEvidence(l, c);
    LandedFrom(before, d, last.event, last.now);
    ReassessIsWorst(l, c);
    SameWorst(l, Reassessed(l, c), l.health.state, c, Reassessed(l, c).health.state);
    if last.event.BeginQuarantine? {
      NotRecovering(before, d, last.event, last.now);
      WorstAfterQuarantine(Reassessed(l, c), d.health.state, c, Reassessed(l, c).health.state);
    }
  }

  lemma NotRecovering(s: Store, d: Device, e: Event, now: Timestamp)
    requires Settled(d) && e.BeginQuarantine? && !Landed(s, d, e, now).care.inRecovery
    ensures !d.care.inRecovery && InUse(d.health.state) && !UnderRecovery(d.health.state)
  {
    hide ReadyHolds, FatalHolds, QuarantineHolds;
  }

  /** The verdict and the action that such a step records, likewise. */
  lemma VerdictAndActionFollow(s: Store, trace: Trace, x: Id)
    requires IsInitial(s) && trace != [] && Admissible(s, trace)
    requires var before, last := Run(s, trace[..|trace| - 1]), trace[|trace| - 1];
      x in before.devices && Concerns(before, before.devices[x], last.event)
    requires x in Run(s, trace).devices && !Run(s, trace).devices[x].care.inRecovery
    ensures var before, last, d := Run(s, trace[..|trace| - 1]), trace[|trace| - 1], Run(s, trace).devices[x];
      && VerdictTold(d, ContextOf(before, last.now))
      && ActionTold(d, From(before.devices[x], last.event), ContextOf(before, last.now),
                    d.judgement.assessment.action)
  {
    hide Step, Landed, Reassessed, Concerns, LegalLog, RecordsSound, Settled, IsReassessed, VerdictTold, ActionTold,
      Prepared;
    var before, last := Run(s, trace[..|trace| - 1]), trace[|trace| - 1];
    LastStep(s, trace, x);
    var d, c := before.devices[x], ContextOf(before, last.now);
    var l := Landed(before, d, last.event, last.now);
    ConcernsExactly(before, d, last.event, last.now);
    LandedPrepares(before, d, last.event, last.now);
    ReassessKeepsEvidence(l, c);
    LandedFrom(before, d, last.event, last.now);
    VerdictByCause(l, c);
    ActionByCause(l, c);
    SameAction(l, Reassessed(l, c), l.health.state, c, Reassessed(l, c).judgement.assessment.action);
    if last.event.BeginQuarantine? {
      NotRecovering(before, d, last.event, last.now);
      QuarantineAsks(Reassessed(l, c), l.health.state, d.health.state, c,
                     Reassessed(l, c).judgement.assessment.action);
    }
  }

  lemma QuarantineAsks(d: Device, from: HealthState, other: HealthState, c: Context, a: ActionRequired)
    requires QuarantineActive(d) && ActionTold(d, from, c, a)
    ensures ActionTold(d, other, c, a)
  {
  }

  // ---- Causes, one at a time ----

  /** What a step that concerns a device out of recovery leaves, all together. */
  ghost predicate Follows(d: Device, from: HealthState, c: Context) {
    && !d.care.inRecovery
    && IsWorst(d, from, c, d.health.state) && VerdictTold(d, c)
    && ActionTold(d, from, c, d.judgement.assessment.action)
    && Tells(d, c.policyGeneration, c.now)
  }

  lemma ReadingDrains(d: Device, from: HealthState, c: Context)
    requires Follows(d, from, c) && !QuarantineActive(d) && from in {Initializing, Healthy, Degraded}
    requires FailedReading(d) && !FatalCause(d)
    ensures d.health.state == Unhealthy && d.judgement.readiness == DrainRequired && !ExecutionReady(d)
    ensures d.judgement.assessment.action == ACTION_DRAIN
  {
    hide FailedReading, FatalCause, OpenCriticalFault, RunReaches, IsFreshAt, Doubted, AgeingAt;
    assert Calls(d, from, c, Unhealthy);
  }

  lemma FatalFails(d: Device, from: HealthState, c: Context)
    requires Follows(d, from, c) && !QuarantineActive(d) && from in {Initializing, Healthy, Degraded}
    requires FatalCause(d)
    ensures d.health.state == Failed && !ExecutionReady(d) && d.judgement.assessment.action == ACTION_DRAIN
  {
    hide FailedReading, FatalCause, OpenCriticalFault, RunReaches, IsFreshAt, Doubted, AgeingAt;
    assert Calls(d, from, c, Failed);
  }

  lemma AgeWithdraws(d: Device, c: Context)
    requires Follows(d, Healthy, c) && !IsFreshAt(d, c)
    ensures !ExecutionReady(d)
    ensures Spotless(d, c) ==> d.health.state == Degraded && d.judgement.readiness == RevalidationRequired
  {
    hide FailedReading, FatalCause, OpenCriticalFault, RunReaches, IsFreshAt, Doubted, AgeingAt;
    assert Calls(d, Healthy, c, Degraded);
  }

  lemma SpotlessStays(d: Device, r: Device, c: Context)
    requires SameEvidence(d, r)
    ensures Spotless(d, c) == Spotless(r, c)
  {
    hide FailedReading, FatalCause, OpenCriticalFault, RunReaches, IsFreshAt;
    SameCauses(d, r, c);
  }

  lemma KeptEvidence(s: Store, d: Device, e: Event, now: Timestamp)
    requires e.ReassessAll? || e == Reassess(d.id)
    ensures SameEvidence(d, DeviceAfter(s, d, e, now))
  {
    hide Reassessed;
    ReassessKeepsEvidence(d, ContextOf(s, now));
  }

  /** An accepted report that leaves a failed reading, with nothing fatal, makes a device in service
      UNHEALTHY and asks to drain it. */
  lemma FailedReadingDrains(s: Store, trace: Trace, x: Id)
    requires IsInitial(s) && trace != [] && Admissible(s, trace)
    requires var before, last := Run(s, trace[..|trace| - 1]), trace[|trace| - 1];
      && x in before.devices && AcceptedFor(before, last.event, x)
      && before.devices[x].health.state in {Initializing, Healthy, Degraded}
    requires x in Run(s, trace).devices
    requires FailedReading(Run(s, trace).devices[x]) && !FatalCause(Run(s, trace).devices[x])
    ensures var d := Run(s, trace).devices[x];
      && d.health.state == Unhealthy && d.judgement.readiness == DrainRequired && !ExecutionReady(d)
      && d.judgement.assessment.action == ACTION_DRAIN
  {
    hide Step, DeviceAfter, LegalLog, RecordsSound, Settled, FailedReading, FatalCause, IsWorst, VerdictTold,
      ActionTold, Tells, Concerns, From, AcceptedFor;
    var before, last := Run(s, trace[..|trace| - 1]), trace[|trace| - 1];
    LastStep(s, trace, x);
    InServiceStays(before, before.devices[x], last.event, last.now);
    StateIsWorst(s, trace, x);
    VerdictAndActionFollow(s, trace, x);
    AssessedAtOnce(s, trace, x);
    ReadingDrains(Run(s, trace).devices[x], before.devices[x].health.state, ContextOf(before, last.now));
  }

  lemma InServiceStays(s: Store, d: Device, e: Event, now: Timestamp)
    requires Settled(d) && d.health.state in {Initializing, Healthy, Degraded}
    requires AcceptedFor(s, e, d.id) || e.ReassessAll? || e == Reassess(d.id) || (e.RecordFault? && Concerns(s, d, e))
    ensures Concerns(s, d, e) && From(d, e) == d.health.state
    ensures !DeviceAfter(s, d, e, now).care.inRecovery && !QuarantineActive(DeviceAfter(s, d, e, now))
  {
    hide Reassessed, Judge, MergeDimensions, ReadyHolds, FatalHolds;
    ReassessKeepsEvidence(Landed(s, d, e, now), ContextOf(s, now));
  }

  /** A fatal reading, or a fatal fault that is open, makes it FAILED, at the report or the fault that
      brings it. */
  lemma FatalCauseFails(s: Store, trace: Trace, x: Id)
    requires IsInitial(s) && trace != [] && Admissible(s, trace)
    requires var before, last := Run(s, trace[..|trace| - 1]), trace[|trace| - 1];
      && x in before.devices
      && (AcceptedFor(before, last.event, x)
          || (last.event.RecordFault? && Concerns(before, before.devices[x], last.event)))
      && before.devices[x].health.state in {Initializing, Healthy, Degraded}
    requires x in Run(s, trace).devices && FatalCause(Run(s, trace).devices[x])
    ensures var d := Run(s, trace).devices[x];
      && d.health.state == Failed && !ExecutionReady(d) && d.judgement.assessment.action == ACTION_DRAIN
  {
    hide Step, DeviceAfter, LegalLog, RecordsSound, Settled, FailedReading, FatalCause, IsWorst, VerdictTold,
      ActionTold, Tells, Concerns, From, AcceptedFor;
    var before, last := Run(s, trace[..|trace| - 1]), trace[|trace| - 1];
    LastStep(s, trace, x);
    InServiceStays(before, before.devices[x], last.event, last.now);
    StateIsWorst(s, trace, x);
    VerdictAndActionFollow(s, trace, x);
    AssessedAtOnce(s, trace, x);
    FatalFails(Run(s, trace).devices[x], before.devices[x].health.state, ContextOf(before, last.now));
  }

  /** Old evidence withdraws service: reassessed when its last observation is older than both of the
      first two thresholds, a HEALTHY device is not ready, and with nothing else against it, it is
      DEGRADED. */
  lemma OldEvidenceWithdraws(s: Store, trace: Trace, x: Id)
    requires IsInitial(s) && trace != [] && Admissible(s, trace)
    requires var before, last := Run(s, trace[..|trace| - 1]), trace[|trace| - 1];
      && x in before.devices && before.devices[x].health.state == Healthy
      && (last.event.ReassessAll? || last.event == Reassess(x))
      && last.now >= before.devices[x].evidence.lastObservation
      && last.now - before.devices[x].evidence.lastObservation > before.policy.freshness.current
      && last.now - before.devices[x].evidence.lastObservation > before.policy.freshness.stale
    ensures x in Run(s, trace).devices
    ensures var before, last, d := Run(s, trace[..|trace| - 1]), trace[|trace| - 1], Run(s, trace).devices[x];
      && !ExecutionReady(d)
      && (Spotless(before.devices[x], ContextOf(before, last.now)) ==>
            && d.health.state == Degraded && d.judgement.readiness == RevalidationRequired)
  {
    hide Step, LegalLog, RecordsSound, Settled, Spotless, IsWorst, VerdictTold, ActionTold, Tells, Concerns, From,
      Reassessed, DeviceAfter;
    var before, last := Run(s, trace[..|trace| - 1]), trace[|trace| - 1];
    LastStep(s, trace, x);
    var d, c := before.devices[x], ContextOf(before, last.now);
    InServiceStays(before, d, last.event, last.now);
    KeptEvidence(before, d, last.event, last.now);
    StateIsWorst(s, trace, x);
    VerdictAndActionFollow(s, trace, x);
    AssessedAtOnce(s, trace, x);
    SpotlessStays(d, Run(s, trace).devices[x], c);
    AgeWithdraws(Run(s, trace).devices[x], c);
  }

  // ---- A change of policy ----

  lemma InstallKeeps(s: Store, p: HealthPolicy, now: Timestamp)
    ensures var t := Step(s, InstallPolicy(p), now);
      && t.policy == p && t.policyGeneration == s.policyGeneration + 1 && t.floats == s.floats
      && t.devices.Keys == s.devices.Keys
      && forall x :: x in s.devices ==> t.devices[x] == PolicyFlagged(s.devices[x])
  {
    hide StateIndexAfter, ReadinessIndexAfter, StaleIndexAfter, GlobalChangesAfter, GlobalFaultsAfter,
      QuarantineIndexAfter, FaultIndexAfter, Judge;
  }

  /** A new policy is in force as soon as it is set: the call that installs it and then reassesses
      all leaves every device out of recovery in the worst of the state it had and those called
      for under the new policy, and with the verdict that policy gives. */
  lemma PolicyTakesEffect(s: Store, trace: Trace, p: HealthPolicy, t1: Timestamp, t2: Timestamp, x: Id)
    requires IsInitial(s) && Admissible(s, trace + [Timed(InstallPolicy(p), t1)] + [Timed(ReassessAll, t2)])
    requires x in Run(s, trace).devices && !Run(s, trace).devices[x].care.inRecovery
    ensures var before := Run(s, trace);
      var after := Run(s, trace + [Timed(InstallPolicy(p), t1)] + [Timed(ReassessAll, t2)]);
      var c := Context(p, before.policyGeneration + 1, t2, before.floats);
      && after.policy == p && after.policyGeneration == before.policyGeneration + 1
      && x in after.devices && Follows(after.devices[x], before.devices[x].health.state, c)
      && SameRecords(before.devices[x], after.devices[x])
  {
    hide Step, Run, DeviceAfter, LegalLog, RecordsSound, Settled, IsWorst, VerdictTold, ActionTold, Tells, Concerns,
      Admissible;
    var e1, e2 := Timed(InstallPolicy(p), t1), Timed(ReassessAll, t2);
    var first, whole := trace + [e1], trace + [e1] + [e2];
    RunSnoc(s, trace, e1);
    RunSnoc(s, first, e2);
    assert whole[..|whole| - 1] == first;
    InstallKeeps(Run(s, trace), p, t1);
    LastStep(s, whole, x);
    var d := Run(s, first).devices[x];
    KeptEvidence(Run(s, first), d, ReassessAll, t2);
    ReassessAllKeepsPolicy(Run(s, first), t2);
    AllAreConcerned(Run(s, first), d);
    StateIsWorst(s, whole, x);
    VerdictAndActionFollow(s, whole, x);
    AssessedAtOnce(s, whole, x);
  }

  /** Faults, validations, readings and reporter are as they were. */
  ghost predicate SameRecords(d: Device, e: Device) {
    && e.history == d.history && e.care == d.care && e.evidence == d.evidence.(policyGenerationChanged := true)
  }

  lemma AllAreConcerned(s: Store, d: Device)
    ensures Concerns(s, d, ReassessAll) && From(d, ReassessAll) == d.health.state
  {
  }

  lemma ReassessAllKeepsPolicy(s: Store, now: Timestamp)
    ensures Step(s, ReassessAll, now).policy == s.policy
    ensures Step(s, ReassessAll, now).policyGeneration == s.policyGeneration
  {
    hide DevicesAfter, StateIndexAfter, ReadinessIndexAfter, StaleIndexAfter, GlobalChangesAfter, GlobalFaultsAfter,
      QuarantineIndexAfter, FaultIndexAfter, Judge;
  }
}
