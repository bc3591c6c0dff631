/** What the store promises about service over whole runs: what "ready" means, and what
    fatal faults, quarantine and the loss of a worker cannot be talked out of. */
module Guarantees {
  import opened Enums
  import opened Records
  import opened StateMachine
  import opened Readiness
  import opened FaultHistory
  import opened Assessment
  import opened Devices
  import opened StoreMachine
  import opened ChangeLogs
  import opened DeviceInvariant
  import opened Runs
  import opened Recovery

  // ---- Records are append-only ----

  ghost predicate Grows(d: Device, e: Device) {
    && d.history.faults <= e.history.faults
    && d.history.validations <= e.history.validations
    && d.health.changes <= e.health.changes
    && d.evidence.generation <= e.evidence.generation
  }

  lemma StepGrows(s: Store, d: Device, e: Event, now: Timestamp)
    ensures Grows(d, DeviceAfter(s, d, e, now))
  {
    hide Reassessed, Judge, MergeDimensions, Revalidated, LegalLog;
    StepContinues(s, d, e, now);
    ReassessKeepsEvidence(Landed(s, d, e, now), ContextOf(s, now));
    if e.Revalidate? {
      RevalidationKeepsRecords(d, e.record, ContextOf(s, now));
    }
  }

  /** Once tracked, always tracked; recorded faults, validations and changes are never
      removed or reordered, and the device generation never decreases. */
  lemma {:induction false} HistoryOnlyGrows(s: Store, trace: Trace, i: nat, x: Id)
    requires IsInitial(s)
    requires Admissible(s, trace)
    requires i <= |trace|
    requires x in Run(s, trace[..i]).devices
    ensures x in Run(s, trace).devices
    ensures Grows(Run(s, trace[..i]).devices[x], Run(s, trace).devices[x])
    decreases |trace|
  {
    hide DeviceAfter, Step, Sound;
    if i == |trace| {
      assert trace[..i] == trace;
    } else {
      var init, last := trace[..|trace| - 1], trace[|trace| - 1];
      assert init[..i] == trace[..i];
      HistoryOnlyGrows(s, init, i, x);
      LastStep(s, trace, x);
      StepGrows(Run(s, init), Run(s, init).devices[x], last.event, last.now);
    }
  }

  lemma OpenFatalPersists(fs: seq<Fault>, gs: seq<Fault>)
    requires fs <= gs
    requires HasOpenFatal(fs)
    ensures HasOpenFatal(gs)
  {
    var i :| 0 <= i < |fs| && IsOpenFatal(fs[i]);
    assert gs[i] == fs[i];
  }

  /** A fatal fault is never washed out: from the moment it is recorded open, after every
      later step the device is not execution-ready and is failed, quarantined, under
      recovery or lost, whatever revalidations have passed. */
  lemma FatalFaultStays(s: Store, trace: Trace, i: nat, x: Id)
    requires IsInitial(s)
    requires Admissible(s, trace)
    requires i <= |trace|
    requires x in Run(s, trace[..i]).devices
    requires HasOpenFatal(Run(s, trace[..i]).devices[x].history.faults)
    ensures x in Run(s, trace).devices
    ensures !ExecutionReady(Run(s, trace).devices[x])
    ensures Run(s, trace).devices[x].health.state in {Failed, Quarantined, Recovering, Revalidating, Lost}
  {
    hide Step, HasOpenFatal, LegalLog, RecordsSound, ReadyHolds;
    HistoryOnlyGrows(s, trace, i, x);
    OpenFatalPersists(Run(s, trace[..i]).devices[x].history.faults, Run(s, trace).devices[x].history.faults);
    ReachableInvariant(s, trace);
  }

  // ---- Quarantine ----

  ghost predicate Held(d: Device) {
    Settled(d) && QuarantineActive(d) && !ExecutionReady(d)
  }

  lemma NotReadyUnderQuarantine(d: Device, c: Context)
    requires QuarantineActive(d)
    ensures !ExecutionReady(Reassessed(d, c)) && QuarantineActive(Reassessed(d, c))
  {
    hide Reassessed, Blocked;
    ReassessKeepsEvidence(d, c);
    ReassessDecides(d, c);
  }

  lemma LandedQuarantine(s: Store, d: Device, e: Event, now: Timestamp)
    requires QuarantineActive(d) && e != ClearQuarantine(d.id)
    ensures QuarantineActive(Landed(s, d, e, now))
    ensures !IsReassessed(s, d, e, now) ==> Landed(s, d, e, now).judgement == d.judgement
  {
    hide Judge, MergeDimensions;
  }

  lemma HeldStep(s: Store, d: Device, e: Event, now: Timestamp)
    requires Held(d)
    requires e != ClearQuarantine(d.id)
    ensures Held(DeviceAfter(s, d, e, now))
  {
    hide Landed, Reassessed, Settled;
    LandedQuarantine(s, d, e, now);
    StepSettles(s, d, e, now);
    NotReadyUnderQuarantine(Landed(s, d, e, now), ContextOf(s, now));
  }

  /** Beginning a quarantine takes hold, except on a lost device: there the record is set,
      the transition throws, and a stale verdict "ready" survives if there was one. */
  lemma QuarantineTakesHold(s: Store, d: Device, e: Event, now: Timestamp)
    requires Settled(d) && !QuarantineActive(d)
    requires e.BeginQuarantine? && e.id == d.id
    ensures QuarantineActive(DeviceAfter(s, d, e, now))
    ensures ExecutionReady(DeviceAfter(s, d, e, now)) <==> d.health.state == Lost && ExecutionReady(d)
  {
    hide Reassessed, Judge, MergeDimensions, ReadyHolds, FatalHolds;
    if d.health.state != Lost {
      NotReadyUnderQuarantine(Landed(s, d, e, now), ContextOf(s, now));
    }
  }

  predicate NoClearing(trace: Trace, i: nat, x: Id) {
    forall j :: i <= j < |trace| ==> trace[j].event != ClearQuarantine(x)
  }

  /** From a quarantine that took hold until it is cleared, after every step the device is
      not execution-ready and is quarantined, under recovery or lost. */
  lemma {:induction false} QuarantineSticks(s: Store, trace: Trace, i: nat, x: Id)
    requires IsInitial(s)
    requires Admissible(s, trace)
    requires i < |trace| && NoClearing(trace, i, x)
    requires trace[i].event.BeginQuarantine? && trace[i].event.id == x
    requires x in Run(s, trace[..i]).devices
    requires !QuarantineActive(Run(s, trace[..i]).devices[x])
    requires Run(s, trace[..i]).devices[x].health.state != Lost
    ensures x in Run(s, trace).devices && Held(Run(s, trace).devices[x])
    ensures Run(s, trace).devices[x].health.state in {Quarantined, Recovering, Revalidating, Lost}
    decreases |trace|
  {
    hide DeviceAfter, Step, LegalLog, RecordsSound, ReadyHolds, FatalHolds;
    var init, last := trace[..|trace| - 1], trace[|trace| - 1];
    var before := Run(s, init);
    if i == |trace| - 1 {
      LastStep(s, trace, x);
      QuarantineTakesHold(before, before.devices[x], last.event, last.now);
      StepSettles(before, before.devices[x], last.event, last.now);
    } else {
      assert init[..i] == trace[..i];
      QuarantineSticks(s, init, i, x);
      LastStep(s, trace, x);
      HeldStep(before, before.devices[x], last.event, last.now);
    }
  }

  /** And clearing it does not help: a device that has changed state and is not HEALTHY does
      not become HEALTHY without a passing revalidation. */
  lemma {:induction false} HealthyNeedsRevalidation(s: Store, trace: Trace, i: nat, x: Id)
    requires IsInitial(s)
    requires Admissible(s, trace)
    requires i <= |trace| && forall j :: i <= j < |trace| ==> !IsPass(trace[j].event, x)
    requires x in Run(s, trace[..i]).devices
    requires Run(s, trace[..i]).devices[x].health.changes != []
    requires Run(s, trace[..i]).devices[x].health.state != Healthy
    ensures x in Run(s, trace).devices && Run(s, trace).devices[x].health.state != Healthy
    decreases |trace|
  {
    hide DeviceAfter, Step, Sound, IsPass;
    if i == |trace| {
      assert trace[..i] == trace;
    } else {
      var init := trace[..|trace| - 1];
      assert init[..i] == trace[..i];
      HealthyNeedsRevalidation(s, init, i, x);
      HistoryOnlyGrows(s, init, i, x);
      HistoryOnlyGrows(s, trace, i, x);
      if Run(s, trace).devices[x].health.state == Healthy {
        RecoveryGate(s, trace, x);
      }
    }
  }

  // ---- Loss of a worker ----

  ghost predicate NoEvidence(d: Device) {
    Settled(d) && d.evidence.lastObservation == 0
  }

  predicate AcceptedFor(s: Store, e: Event, x: Id) {
    e.Observe? && e.obs.accelerator == x && Judge(s, e.obs, e.env) == Accepted
  }

  lemma LandedEvidence(s: Store, d: Device, e: Event, now: Timestamp)
    requires !AcceptedFor(s, e, d.id)
    ensures var seen := Landed(s, d, e, now).evidence.lastObservation; seen == 0 || seen == d.evidence.lastObservation
    ensures e.InvalidateWorker? && IsWorkerCurrent(s, e.worker, e.boot) && LastSeenBy(d, e.worker, e.boot) ==>
      Landed(s, d, e, now).evidence.lastObservation == 0
  {
    hide Judge;
  }

  lemma NoEvidenceStep(s: Store, d: Device, e: Event, now: Timestamp)
    requires Settled(d)
    requires !AcceptedFor(s, e, d.id)
    requires NoEvidence(d) ||
      (e.InvalidateWorker? && IsWorkerCurrent(s, e.worker, e.boot) && LastSeenBy(d, e.worker, e.boot))
    ensures NoEvidence(DeviceAfter(s, d, e, now))
  {
    hide Landed, Reassessed, Settled, Judge;
    LandedEvidence(s, d, e, now);
    StepSettles(s, d, e, now);
    ReassessKeepsEvidence(Landed(s, d, e, now), ContextOf(s, now));
  }

  /** No observation of `x` is accepted from step `i` on. */
  ghost predicate Unobserved(s: Store, trace: Trace, i: nat, x: Id) {
    forall j :: i <= j < |trace| ==> !AcceptedFor(Run(s, trace[..j]), trace[j].event, x)
  }

  lemma UnobservedPrefix(s: Store, trace: Trace, i: nat, x: Id)
    requires trace != [] && Unobserved(s, trace, i, x)
    ensures Unobserved(s, trace[..|trace| - 1], i, x)
  {
    hide Run, AcceptedFor;
    var init := trace[..|trace| - 1];
    forall j | i <= j < |init| ensures !AcceptedFor(Run(s, init[..j]), init[j].event, x) {
      assert init[..j] == trace[..j];
    }
  }

  /** When the current process of a worker is lost, no device it observed last is
      execution-ready after any later step, until an observation of that device is accepted. */
  lemma {:induction false} WorkerLossRemovesReadiness(s: Store, trace: Trace, i: nat, x: Id)
    requires IsInitial(s)
    requires Admissible(s, trace)
    requires i < |trace| && trace[i].event.InvalidateWorker?
    requires IsWorkerCurrent(Run(s, trace[..i]), trace[i].event.worker, trace[i].event.boot)
    requires x in Run(s, trace[..i]).devices
    requires LastSeenBy(Run(s, trace[..i]).devices[x], trace[i].event.worker, trace[i].event.boot)
    requires Unobserved(s, trace, i, x)
    ensures x in Run(s, trace).devices && NoEvidence(Run(s, trace).devices[x])
    ensures !ExecutionReady(Run(s, trace).devices[x])
    decreases |trace|
  {
    hide DeviceAfter, Step, LegalLog, RecordsSound, FatalHolds, QuarantineHolds, AcceptedFor;
    var init, last := trace[..|trace| - 1], trace[|trace| - 1];
    var before := Run(s, init);
    if i < |trace| - 1 {
      assert init[..i] == trace[..i];
      UnobservedPrefix(s, trace, i, x);
      WorkerLossRemovesReadiness(s, init, i, x);
    }
    LastStep(s, trace, x);
    NoEvidenceStep(before, before.devices[x], last.event, last.now);
  }

  // ---- What "ready" means ----

  /** The conditions under which a verdict "may execute" is given. */
  ghost predicate Deserved(d: Device, c: Context) {
    && d.health.state == TargetOf(d, c)
    && (d.health.state == Healthy || d.health.state == Degraded)
    && !AnyFailed(d.evidence.dimensions)
    && !HasOpenFatal(d.history.faults)
    && !QuarantineActive(d)
    && !d.care.inRecovery
    && IsFresh(DeviceFreshness(d, c))
    && AsInt32(StatsOf(d.history.faults).consecutiveLatest) < AsInt32(c.policy.unhealthyAfterFailures)
    && (d.health.state == Degraded ==> c.policy.allowDegradedReadiness)
    && (d.health.state == Healthy ==>
          && d.history.highestValidation >= c.policy.requiredValidationDepth
          && !d.evidence.deviceGenerationChanged
          && !d.evidence.policyGenerationChanged
          && !d.evidence.requiresRevalidation)
  }

  /** A reassessment gives the verdict exactly when it is deserved. */
  lemma ReadyIffDeserved(d: Device, c: Context)
    requires Prepared(d)
    ensures ExecutionReady(Reassessed(d, c)) <==> Deserved(Reassessed(d, c), c)
  {
    hide Reassessed, AnyFailed, AnyFatalDimension, HasOpenFatal, AsInt32, EvidenceFreshness;
    ReassessKeepsEvidence(d, c);
    ReassessDecides(d, c);
  }

  /** `e` differs from `d` at most by what the silent operations change: the policy flag, a
      recorded loss, and a quarantine record set on a lost device. */
  ghost predicate OnlySilently(d: Device, e: Device) {
    && e.judgement == d.judgement
    && e.history == d.history
    && (e.evidence == d.evidence || e.evidence == PolicyFlagged(d).evidence)
    && (e.health == d.health || e.health.state == Lost)
    && e.care.inRecovery == d.care.inRecovery
    && (e.care.quarantine == d.care.quarantine || e.health.state == Lost)
  }

  lemma SilentStep(s: Store, d: Device, e: Event, now: Timestamp)
    requires Settled(d)
    requires !IsReassessed(s, d, e, now)
    ensures OnlySilently(d, DeviceAfter(s, d, e, now))
  {
    hide Judge, MergeDimensions, Revalidated, ReadyHolds, FatalHolds, QuarantineHolds;
    if e.MarkLost? {
      TableShape(d.health.state);
    }
  }

  lemma SilentlyTransitive(d: Device, e: Device, f: Device)
    requires OnlySilently(d, e) && OnlySilently(e, f)
    requires e.health.state == Lost ==> f.health.state == Lost
    ensures OnlySilently(d, f)
  {
  }

  lemma LostForever(s: Store, d: Device, e: Event, now: Timestamp)
    requires Settled(d) && d.health.state == Lost
    ensures DeviceAfter(s, d, e, now).health.state == Lost
  {
    hide Landed, Reassessed, ReadyHolds, FatalHolds, QuarantineHolds, AnyFailed, AnyFatalDimension, HasOpenFatal,
      AsInt32;
    LandedStates(s, d, e, now);
    LandedLost(s, d, e, now);
    ReassessDecides(Landed(s, d, e, now), ContextOf(s, now));
  }

  lemma LandedLost(s: Store, d: Device, e: Event, now: Timestamp)
    requires Settled(d) && d.health.state == Lost
    ensures Landed(s, d, e, now).health.state == Lost
  {
    hide Judge, MergeDimensions, ReadyHolds, FatalHolds, QuarantineHolds;
  }

  /** Step `j` of the run reassessed `x`, found it worthy, and only silent steps followed. */
  ghost predicate Vouches(s: Store, trace: Trace, j: nat, x: Id) {
    && j < |trace|
    && x in Run(s, trace[..j + 1]).devices
    && x in Run(s, trace).devices
    && Deserved(Run(s, trace[..j + 1]).devices[x], ContextOf(Run(s, trace[..j]), trace[j].now))
    && OnlySilently(Run(s, trace[..j + 1]).devices[x], Run(s, trace).devices[x])
  }

  /** Ready is sound: whenever a device is execution-ready, some step of the run reassessed
      it, every condition for the verdict held then under the policy and the clock of that
      step, and nothing but silent changes has happened to the device since. */
  lemma {:induction false} ReadyIsSound(s: Store, trace: Trace, x: Id)
    requires IsInitial(s)
    requires Admissible(s, trace)
    requires x in Run(s, trace).devices && ExecutionReady(Run(s, trace).devices[x])
    ensures exists j :: Vouches(s, trace, j, x)
    decreases |trace|
  {
    hide DeviceAfter, Step, LegalLog, RecordsSound, Settled, Deserved, OnlySilently;
    if trace != [] {
      var init, last := trace[..|trace| - 1], trace[|trace| - 1];
      var before := Run(s, init);
      assert trace[..|trace|] == trace;
      if x !in before.devices {
        NewDevice(s, trace, x);
      } else {
        LastStep(s, trace, x);
        var d := before.devices[x];
        if IsReassessed(before, d, last.event, last.now) {
          VerdictStep(before, d, last.event, last.now);
          SilentlyReflexive(Run(s, trace).devices[x]);
          assert Vouches(s, trace, |trace| - 1, x);
        } else {
          SilentStep(before, d, last.event, last.now);
          SameVerdict(d, Run(s, trace).devices[x]);
          ReadyIsSound(s, init, x);
          var j :| Vouches(s, init, j, x);
          VouchExtends(s, trace, j, x);
        }
      }
    }
  }

  lemma VerdictStep(s: Store, d: Device, e: Event, now: Timestamp)
    requires Settled(d)
    requires IsReassessed(s, d, e, now)
    requires ExecutionReady(DeviceAfter(s, d, e, now))
    ensures Deserved(DeviceAfter(s, d, e, now), ContextOf(s, now))
  {
    hide Landed, Reassessed, Settled, Prepared, Deserved;
    LandedPrepares(s, d, e, now);
    ReadyIffDeserved(Landed(s, d, e, now), ContextOf(s, now));
  }

  lemma SilentlyReflexive(d: Device)
    ensures OnlySilently(d, d)
  {
  }

  lemma SameVerdict(d: Device, e: Device)
    requires OnlySilently(d, e)
    ensures ExecutionReady(d) == ExecutionReady(e)
  {
  }

  lemma VouchExtends(s: Store, trace: Trace, j: nat, x: Id)
    requires IsInitial(s)
    requires trace != [] && Admissible(s, trace)
    requires Vouches(s, trace[..|trace| - 1], j, x)
    requires var before := Run(s, trace[..|trace| - 1]);
      !IsReassessed(before, before.devices[x], trace[|trace| - 1].event, trace[|trace| - 1].now)
    ensures Vouches(s, trace, j, x)
  {
    hide DeviceAfter, Step, LegalLog, RecordsSound, Settled, Deserved, OnlySilently, IsReassessed;
    var init, last := trace[..|trace| - 1], trace[|trace| - 1];
    assert init[..j] == trace[..j] && init[..j + 1] == trace[..j + 1];
    LastStep(s, trace, x);
    var d := Run(s, init).devices[x];
    SilentStep(Run(s, init), d, last.event, last.now);
    if d.health.state == Lost {
      LostForever(Run(s, init), d, last.event, last.now);
    }
    SilentlyTransitive(Run(s, trace[..j + 1]).devices[x], d, Run(s, trace).devices[x]);
  }
}
