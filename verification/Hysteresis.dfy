/** Reassessment as a function of time and of repeated faults. */
module Hysteresis {
  import opened Enums
  import opened Records
  import opened StateMachine
  import opened Readiness
  import opened FaultHistory
  import opened Assessment
  import opened Devices
  import opened StoreMachine
  import opened DeviceInvariant
  import opened Runs

  // ---- Reassessing twice ----

  lemma DigestFollowsTarget(i: AssessmentInput, j: AssessmentInput)
    requires j == i.(currentState := j.currentState)
    requires Target(i) == Target(j)
    ensures Digest(i) == Digest(j)
  {
    hide Target, EvidenceFreshness, Evaluate;
    assert DigestRow(i) == DigestRow(j);
  }

  lemma ReasonsFollowTarget(i: AssessmentInput, j: AssessmentInput)
    requires j == i.(currentState := j.currentState)
    requires Target(i) == Target(j)
    ensures ReasonsFor(i) == ReasonsFor(j)
  {
    hide Target, WorstBelow, Decimal, If, EvidenceFreshness, AnyFailed, AnyDegraded, AsInt32;
    assert Consecutive(i) == Consecutive(j);
    assert FindingsIn(i) == FindingsIn(j);
  }

  /** The assessment looks at the current state only to choose its target. */
  lemma AssessmentFollowsTarget(i: AssessmentInput, j: AssessmentInput, floats: FloatTable)
    requires j == i.(currentState := j.currentState)
    requires Target(i) == Target(j)
    ensures Assess(i, floats) == Assess(j, floats)
  {
    hide Target, Digest, ReasonsFor, EvidenceFreshness, Evaluate;
    DigestFollowsTarget(i, j);
    ReasonsFollowTarget(i, j);
  }

  lemma TargetIsStable(d: Device, c: Context)
    ensures TargetOf(FollowTarget(d, c), c) == TargetOf(d, c)
    ensures FollowTarget(FollowTarget(d, c), c) == FollowTarget(d, c)
    ensures Blocked(FollowTarget(d, c), c) == Blocked(d, c)
  {
    hide AnyFailed, AnyFatalDimension, HasOpenFatal, AsInt32, EvidenceFreshness, StatsOf;
  }

  /** Reassessing again at the same clock reading changes nothing at all: not the state, the
      log, the readiness, the digest or any other part of the device. */
  lemma ReassessIdempotent(d: Device, c: Context)
    ensures Reassessed(Reassessed(d, c), c) == Reassessed(d, c)
  {
    var e := FollowTarget(d, c);
    var r := Reassessed(d, c);
    TargetIsStable(d, c);
    assert InputOf(r, c) == InputOf(e, c);
    assert InputOf(e, c) == InputOf(d, c).(currentState := e.health.state) by {
      hide Assess, Target;
    }
    AssessmentFollowsTarget(InputOf(d, c), InputOf(e, c), c.floats);
    hide Assess, Target, Evaluate, InputOf;
    assert FollowTarget(r, c) == r;
    assert Blocked(r, c) == Blocked(d, c);
    assert ReadinessInputOf(r, c) == ReadinessInputOf(e, c);
  }

  lemma MovingTwice<B>(index: set<(B, Id)>, moved: set<Id>, bucket: map<Id, B>)
    requires moved <= bucket.Keys
    ensures Moving(Moving(index, moved, bucket), moved, bucket) == Moving(index, moved, bucket)
  {
  }

  lemma SecondReassessment(s: Store, t: Store, now: Timestamp)
    requires t.policy == s.policy && t.policyGeneration == s.policyGeneration && t.floats == s.floats
    requires t.devices == Kept(s, ReassessAll, now)
    ensures Kept(t, ReassessAll, now) == t.devices
    ensures Refreshed(t, ReassessAll, now) == t.devices.Keys == Refreshed(s, ReassessAll, now)
  {
    hide Reassessed;
    forall x | x in t.devices
      ensures DeviceAfter(t, t.devices[x], ReassessAll, now) == t.devices[x]
    {
      ReassessIdempotent(s.devices[x], ContextOf(s, now));
    }
  }

  lemma SecondBuckets(s: Store, t: Store, now: Timestamp)
    requires Kept(t, ReassessAll, now) == t.devices == Kept(s, ReassessAll, now)
    requires Refreshed(t, ReassessAll, now) == t.devices.Keys == Refreshed(s, ReassessAll, now)
    requires t.stateIndex == StateIndexAfter(s, ReassessAll, now)
    requires t.readinessIndex == ReadinessIndexAfter(s, ReassessAll, now)
    ensures StateIndexAfter(t, ReassessAll, now) == t.stateIndex
    ensures ReadinessIndexAfter(t, ReassessAll, now) == t.readinessIndex
  {
    hide Kept, Refreshed, Moving;
    MovingTwice(s.stateIndex, t.devices.Keys, StatesOf(t.devices));
    MovingTwice(s.readinessIndex, t.devices.Keys, ReadinessesOf(t.devices));
    assert t.devices.Keys + {} == t.devices.Keys;
  }

  lemma SecondStale(s: Store, t: Store, now: Timestamp)
    requires t.policy == s.policy && t.policyGeneration == s.policyGeneration && t.floats == s.floats
    requires Kept(t, ReassessAll, now) == t.devices == Kept(s, ReassessAll, now)
    requires Refreshed(t, ReassessAll, now) == t.devices.Keys == Refreshed(s, ReassessAll, now)
    requires t.staleIndex == StaleIndexAfter(s, ReassessAll, now)
    ensures StaleIndexAfter(t, ReassessAll, now) == t.staleIndex
    ensures GlobalChangesAfter(t, ReassessAll, now) == t.globalChanges
  {
    hide Kept, Refreshed, HasOldEvidence, NewChanges;
    NothingGained(Sorted(t.devices.Keys), t.devices, t.devices);
  }

  /** Reassessing the whole store twice at one clock reading is reassessing it once. */
  lemma ReassessAllIdempotent(s: Store, now: Timestamp)
    ensures Step(Step(s, ReassessAll, now), ReassessAll, now) == Step(s, ReassessAll, now)
  {
    hide Kept, StateIndexAfter, ReadinessIndexAfter, StaleIndexAfter, GlobalChangesAfter;
    var t := Step(s, ReassessAll, now);
    SecondReassessment(s, t, now);
    SecondBuckets(s, t, now);
    SecondStale(s, t, now);
  }

  // ---- Time alone ----

  /** With nothing else happening, a later reassessment keeps the verdict "may execute"
      exactly as long as the evidence stays fresh, and never gives it back. */
  lemma ReadinessOnlyDecays(d: Device, c: Context, later: Timestamp)
    requires Prepared(d)
    requires c.now <= later
    ensures var r := Reassessed(d, c);
      ExecutionReady(Reassessed(r, c.(now := later))) <==>
        ExecutionReady(r) && IsFresh(DeviceFreshness(r, c.(now := later)))
  {
    hide Reassessed, AnyFailed, AnyFatalDimension, HasOpenFatal, AsInt32, EvidenceFreshness, StatsOf;
    var c' := c.(now := later);
    var r := Reassessed(d, c);
    ReassessKeepsEvidence(d, c);
    ReassessDecides(d, c);
    ReassessKeepsEvidence(r, c');
    ReassessDecides(r, c');
    if IsFresh(DeviceFreshness(r, c')) {
      FreshnessOnlyDecays(c.policy, r.evidence.lastObservation, c.now, later);
    }
  }

  // ---- Repeated faults ----

  /** A fault of type `t` that is neither critical nor fatal. */
  predicate IsMinor(f: Fault, x: Id, t: FaultType) {
    f.accelerator == x && f.kind == t && f.severity < SEVERITY_CRITICAL && !f.fatal
  }

  /** An open fault of type `t` that is critical but not fatal. */
  predicate IsCritical(f: Fault, x: Id, t: FaultType) {
    f.accelerator == x && f.kind == t && f.severity == SEVERITY_CRITICAL && !f.fatal && f.resolution == Open
  }

  /** In service: no quarantine or recovery, no failed dimension, no open critical or fatal
      fault, and the latest fault, if any, is of another type than `t`. */
  ghost predicate InGoodStanding(d: Device, t: FaultType) {
    && !QuarantineActive(d) && !d.care.inRecovery
    && !AnyFailed(d.evidence.dimensions)
    && !HasOpenFatal(d.history.faults) && !HasOpenCritical(d.history.faults)
    && TrailingRun(d.history.faults, t) == 0
  }

  /** The state that `n` consecutive failures of one type lead to. */
  function StateAfterFailures(p: HealthPolicy, n: nat): HealthState {
    if n >= p.unhealthyAfterFailures then Unhealthy
    else if n >= p.degradeAfterFailures then Degraded
    else Healthy
  }

  ghost predicate Thresholded(p: HealthPolicy) {
    1 <= p.degradeAfterFailures <= p.unhealthyAfterFailures < 0x8000_0000
  }

  lemma AnyFatalIsFailed(dims: Dimensions)
    requires AnyFatalDimension(dims)
    ensures AnyFailed(dims)
  {
  }

  /** A device that one more minor fault finds in service and with fresh evidence. */
  ghost predicate TakesMinorFault(d: Device, f: Fault, c: Context) {
    && IsMinor(f, d.id, f.kind)
    && !QuarantineActive(d) && !d.care.inRecovery
    && !AnyFailed(d.evidence.dimensions)
    && !HasOpenFatal(d.history.faults) && !HasOpenCritical(d.history.faults)
    && IsFresh(DeviceFreshness(d, c))
  }

  /** Where a minor fault aims a device depends on the count alone. */
  lemma MinorFaultTarget(d: Device, f: Fault, c: Context)
    requires TakesMinorFault(d, f, c)
    ensures var run := AsInt32((TrailingRun(d.history.faults, f.kind) + 1) % UINT32);
      TargetOf(WithFault(d, f), c) ==
        if run >= AsInt32(c.policy.unhealthyAfterFailures) then Unhealthy
        else if run >= AsInt32(c.policy.degradeAfterFailures) then Degraded else Healthy
    ensures !HasOpenFatal(WithFault(d, f).history.faults) && !HasOpenCritical(WithFault(d, f).history.faults)
  {
    hide EvidenceFreshness, AnyFailed, AnyFatalDimension, HasOpenFatal, HasOpenCritical, TrailingRun, AsInt32;
    StatsAfterRecord(d.history.faults, f);
    if AnyFatalDimension(d.evidence.dimensions) {
      AnyFatalIsFailed(d.evidence.dimensions);
    }
  }

  /** One more minor fault of the type that has now occurred `n` times in a row. From 2^31
      faults on the count reads negative and the engine aims at HEALTHY or DEGRADED; no
      transition leads there from UNHEALTHY, so the state stays what the thresholds say. */
  lemma OneMoreFault(d: Device, f: Fault, c: Context, n: nat)
    requires Thresholded(c.policy)
    requires TakesMinorFault(d, f, c)
    requires TrailingRun(d.history.faults, f.kind) == n
    requires d.health.state == StateAfterFailures(c.policy, n)
    ensures var r := Reassessed(WithFault(d, f), c);
      && r.health.state == StateAfterFailures(c.policy, n + 1)
      && !HasOpenFatal(r.history.faults) && !HasOpenCritical(r.history.faults)
      && TrailingRun(r.history.faults, f.kind) == n + 1
  {
    hide Reassessed, EvidenceFreshness, AnyFailed, HasOpenFatal, HasOpenCritical, TrailingRun, TargetOf,
      DeviceFreshness;
    var e := WithFault(d, f);
    MinorFaultTarget(d, f, c);
    TrailingRunAfter(d.history.faults, f);
    ReassessKeepsEvidence(e, c);
    ReassessMoves(e, c);
    assert n + 1 < 0x8000_0000 ==> AsInt32((n + 1) % UINT32) == n + 1;
  }

  /** A reassessment goes to its target when a transition leads there, and stays otherwise. */
  lemma ReassessMoves(d: Device, c: Context)
    ensures Reassessed(d, c).health.state ==
      if CanTransition(d.health.state, TargetOf(d, c)) then TargetOf(d, c) else d.health.state
  {
    hide Assess, TargetOf;
    TableShape(d.health.state);
  }

  lemma TrailingRunAfter(fs: seq<Fault>, f: Fault)
    ensures TrailingRun(fs + [f], f.kind) == TrailingRun(fs, f.kind) + 1
  {
    var gs := fs + [f];
    assert gs[..|gs| - 1] == fs;
  }

  /** Every event of the trace records a fault of type `t` on `x` under a fresh id, while the
      evidence of the device is fresh. */
  ghost predicate FaultReports(s: Store, trace: Trace, x: Id, t: FaultType)
    requires x in s.devices
  {
    && (forall i :: 0 <= i < |trace| ==>
          && trace[i].event.RecordFault?
          && trace[i].event.fault.accelerator == x && trace[i].event.fault.kind == t
          && !HasId(s.devices[x].history.faults, trace[i].event.fault.id)
          && IsFresh(EvidenceFreshness(s.policy, s.devices[x].evidence.lastObservation, trace[i].now)))
    && (forall i, j :: 0 <= i < j < |trace| ==> trace[i].event.fault.id != trace[j].event.fault.id)
  }

  ghost predicate MinorFaults(s: Store, trace: Trace, x: Id, t: FaultType)
    requires x in s.devices
  {
    && FaultReports(s, trace, x, t)
    && forall i :: 0 <= i < |trace| ==> IsMinor(trace[i].event.fault, x, t)
  }

  ghost predicate CriticalFaults(s: Store, trace: Trace, x: Id, t: FaultType)
    requires x in s.devices
  {
    && FaultReports(s, trace, x, t)
    && forall i :: 0 <= i < |trace| ==> IsCritical(trace[i].event.fault, x, t)
  }

  /** The faults a trace of fault reports carries, in order. */
  function FaultsIn(trace: Trace): seq<Fault>
    requires forall i :: 0 <= i < |trace| ==> trace[i].event.RecordFault?
  {
    seq(|trace|, i requires 0 <= i < |trace| => trace[i].event.fault)
  }

  /** One report under a new id: recorded, and the device reassessed. */
  lemma ReportStep(s: Store, f: Fault, now: Timestamp)
    requires f.accelerator in s.devices && s.devices[f.accelerator].id == f.accelerator
    requires !HasId(s.devices[f.accelerator].history.faults, f.id)
    ensures var t, x := Step(s, RecordFault(f), now), f.accelerator;
      && t.policy == s.policy && x in t.devices
      && t.devices[x] == Reassessed(WithFault(s.devices[x], f), ContextOf(s, now))
      && t.devices[x].id == x && t.devices[x].evidence == s.devices[x].evidence
      && t.devices[x].care == s.devices[x].care
      && t.devices[x].history.faults == s.devices[x].history.faults + [f]
  {
    hide Step, Reassessed, HasId, Judge;
    var d := s.devices[f.accelerator];
    DevicesStep(s, RecordFault(f), now);
    RecordFaultKeepsPolicy(s, f, now);
    ReassessKeepsEvidence(WithFault(d, f), ContextOf(s, now));
  }

  /** Reports under new ids are all recorded, and change nothing else a report can see. */
  lemma {:induction false} ReportsAreRecorded(s: Store, trace: Trace, x: Id, t: FaultType)
    requires Invariant(s) && x in s.devices
    requires FaultReports(s, trace, x, t)
    ensures Run(s, trace).policy == s.policy
    ensures x in Run(s, trace).devices
    ensures var d := Run(s, trace).devices[x];
      && d.id == x && d.evidence == s.devices[x].evidence && d.care == s.devices[x].care
      && d.history.faults == s.devices[x].history.faults + FaultsIn(trace)
    decreases |trace|
  {
    hide Step, Sound, Reassessed, EvidenceFreshness, HasId, Identified;
    IdentifiedKeys(s);
    if trace == [] {
      assert s.devices[x].history.faults + [] == s.devices[x].history.faults;
    } else {
      var init, last := trace[..|trace| - 1], trace[|trace| - 1];
      assert forall i :: 0 <= i < |init| ==> init[i] == trace[i];
      ReportsAreRecorded(s, init, x, t);
      var before := Run(s, init);
      var d, f := before.devices[x], last.event.fault;
      StillNew(s.devices[x].history.faults, FaultsIn(init), f.id);
      ReportStep(before, f, last.now);
      assert FaultsIn(trace) == FaultsIn(init) + [f];
    }
  }

  lemma IdentifiedKeys(s: Store)
    requires Invariant(s)
    ensures forall x :: x in s.devices ==> s.devices[x].id == x
  {
  }

  lemma StillNew(fs: seq<Fault>, gs: seq<Fault>, id: Id)
    requires !HasId(fs, id) && forall i :: 0 <= i < |gs| ==> gs[i].id != id
    ensures !HasId(fs + gs, id)
  {
  }

  /** Exact hysteresis. From HEALTHY and in good standing, `n` minor faults of one new type
      leave the device HEALTHY below the first threshold, DEGRADED from the first, UNHEALTHY
      from the second, for every `n`. */
  lemma {:induction false} ExactHysteresis(s: Store, trace: Trace, x: Id, t: FaultType)
    requires Invariant(s) && x in s.devices
    requires s.devices[x].health.state == Healthy && InGoodStanding(s.devices[x], t)
    requires Thresholded(s.policy)
    requires MinorFaults(s, trace, x, t)
    ensures x in Run(s, trace).devices
    ensures Run(s, trace).devices[x].health.state == StateAfterFailures(s.policy, |trace|)
    ensures TrailingRun(Run(s, trace).devices[x].history.faults, t) == |trace|
    ensures !HasOpenFatal(Run(s, trace).devices[x].history.faults)
    ensures !HasOpenCritical(Run(s, trace).devices[x].history.faults)
    decreases |trace|
  {
    hide Step, Sound, Reassessed, HasOpenFatal, HasOpenCritical, AnyFailed, TrailingRun, EvidenceFreshness, HasId;
    ReportsAreRecorded(s, trace, x, t);
    if trace != [] {
      var init, last := trace[..|trace| - 1], trace[|trace| - 1];
      assert forall i :: 0 <= i < |init| ==> init[i] == trace[i];
      ExactHysteresis(s, init, x, t);
      ReportsAreRecorded(s, init, x, t);
      var before := Run(s, init);
      var d, f := before.devices[x], last.event.fault;
      StillNew(s.devices[x].history.faults, FaultsIn(init), f.id);
      ReportStep(before, f, last.now);
      OneMoreFault(d, f, ContextOf(before, last.now), |init|);
    }
  }

  // ---- Repeated critical faults ----

  /** The state that `n` open critical failures of one type lead to. The quarantine threshold
      goes first, wherever it stands among the three; zero thresholds act from the first fault. */
  function StateAfterCritical(p: HealthPolicy, n: nat): HealthState {
    if n == 0 then Healthy
    else if n >= p.quarantineAfterFailures then Quarantined
    else StateAfterFailures(p, n)
  }

  /** Thresholds that survive the cast to a signed integer, in any order. */
  ghost predicate ThresholdsFit(p: HealthPolicy) {
    && p.degradeAfterFailures < 0x8000_0000
    && p.unhealthyAfterFailures < 0x8000_0000
    && p.quarantineAfterFailures < 0x8000_0000
  }

  /** A device that one more critical fault finds with fresh evidence and nothing worse. */
  ghost predicate TakesCriticalFault(d: Device, f: Fault, c: Context) {
    && IsCritical(f, d.id, f.kind)
    && !QuarantineActive(d) && !d.care.inRecovery
    && !AnyFailed(d.evidence.dimensions)
    && !HasOpenFatal(d.history.faults)
    && IsFresh(DeviceFreshness(d, c))
  }

  lemma CriticalFaultTarget(d: Device, f: Fault, c: Context)
    requires TakesCriticalFault(d, f, c)
    ensures var run := AsInt32((TrailingRun(d.history.faults, f.kind) + 1) % UINT32);
      TargetOf(WithFault(d, f), c) ==
        if run >= AsInt32(c.policy.quarantineAfterFailures) then Quarantined
        else if run >= AsInt32(c.policy.unhealthyAfterFailures) then Unhealthy
        else if run >= AsInt32(c.policy.degradeAfterFailures) then Degraded else Healthy
    ensures !HasOpenFatal(WithFault(d, f).history.faults)
  {
    hide EvidenceFreshness, AnyFailed, AnyFatalDimension, HasOpenFatal, HasOpenCritical, TrailingRun, AsInt32;
    StatsAfterRecord(d.history.faults, f);
    if AnyFatalDimension(d.evidence.dimensions) {
      AnyFatalIsFailed(d.evidence.dimensions);
    }
  }

  /** One more open critical fault of the type that has now occurred `n` times in a row. */
  lemma OneMoreCritical(d: Device, f: Fault, c: Context, n: nat)
    requires ThresholdsFit(c.policy)
    requires TakesCriticalFault(d, f, c)
    requires TrailingRun(d.history.faults, f.kind) == n
    requires d.health.state == StateAfterCritical(c.policy, n)
    ensures var r := Reassessed(WithFault(d, f), c);
      && r.health.state == StateAfterCritical(c.policy, n + 1)
      && !HasOpenFatal(r.history.faults)
      && TrailingRun(r.history.faults, f.kind) == n + 1
  {
    hide Reassessed, EvidenceFreshness, AnyFailed, HasOpenFatal, TrailingRun, TargetOf, DeviceFreshness;
    var e := WithFault(d, f);
    CriticalFaultTarget(d, f, c);
    TrailingRunAfter(d.history.faults, f);
    ReassessKeepsEvidence(e, c);
    ReassessMoves(e, c);
    assert n + 1 < 0x8000_0000 ==> AsInt32((n + 1) % UINT32) == n + 1;
  }

  /** Exact quarantine. From HEALTHY, out of quarantine and recovery and with no open fatal
      fault, `n` open critical faults of one new type quarantine the device from the third
      threshold on, and until then do what as many minor faults do, for every `n` and every
      order of the thresholds. */
  lemma {:induction false} ExactQuarantine(s: Store, trace: Trace, x: Id, t: FaultType)
    requires Invariant(s) && x in s.devices
    requires s.devices[x].health.state == Healthy && TrailingRun(s.devices[x].history.faults, t) == 0
    requires !QuarantineActive(s.devices[x]) && !s.devices[x].care.inRecovery
    requires !AnyFailed(s.devices[x].evidence.dimensions) && !HasOpenFatal(s.devices[x].history.faults)
    requires ThresholdsFit(s.policy)
    requires CriticalFaults(s, trace, x, t)
    ensures x in Run(s, trace).devices
    ensures Run(s, trace).devices[x].health.state == StateAfterCritical(s.policy, |trace|)
    ensures TrailingRun(Run(s, trace).devices[x].history.faults, t) == |trace|
    ensures !HasOpenFatal(Run(s, trace).devices[x].history.faults)
    decreases |trace|
  {
    hide Step, Sound, Reassessed, HasOpenFatal, AnyFailed, TrailingRun, EvidenceFreshness, HasId, StateAfterCritical;
    ReportsAreRecorded(s, trace, x, t);
    if trace == [] {
      assert StateAfterCritical(s.policy, 0) == Healthy by { NoneIsHealthy(s.policy); }
    } else {
      var init, last := trace[..|trace| - 1], trace[|trace| - 1];
      assert forall i :: 0 <= i < |init| ==> init[i] == trace[i];
      ExactQuarantine(s, init, x, t);
      ReportsAreRecorded(s, init, x, t);
      var before := Run(s, init);
      var d, f := before.devices[x], last.event.fault;
      StillNew(s.devices[x].history.faults, FaultsIn(init), f.id);
      ReportStep(before, f, last.now);
      OneMoreCritical(d, f, ContextOf(before, last.now), |init|);
    }
  }

  lemma NoneIsHealthy(p: HealthPolicy)
    ensures StateAfterCritical(p, 0) == Healthy
  {
  }

  lemma RecordFaultKeepsPolicy(s: Store, f: Fault, now: Timestamp)
    ensures Step(s, RecordFault(f), now).policy == s.policy
  {
    hide DevicesAfter, StateIndexAfter, ReadinessIndexAfter, StaleIndexAfter, GlobalChangesAfter, FaultIndexAfter;
  }

  /** With no faults at all and fresh nominal evidence the engine aims at HEALTHY exactly
      when both thresholds survive the cast to a signed integer: a threshold of 2^31 or more
      reads as negative and is met by a device that has never failed. */
  lemma ThresholdsMustFit(d: Device, c: Context)
    requires InGoodStanding(d, 0) && d.history.faults == []
    requires IsFresh(DeviceFreshness(d, c))
    ensures TargetOf(d, c) == Healthy <==>
      && 1 <= c.policy.degradeAfterFailures < 0x8000_0000
      && 1 <= c.policy.unhealthyAfterFailures < 0x8000_0000
  {
    hide EvidenceFreshness, AnyFailed, AnyFatalDimension;
    if AnyFatalDimension(d.evidence.dimensions) {
      AnyFatalIsFailed(d.evidence.dimensions);
    }
  }
}
