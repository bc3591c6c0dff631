/** The secondary indexes and the global logs agree with the devices in every run. */
module Indexes {
  import opened Enums
  import opened Records
  import opened StateMachine
  import opened FaultHistory
  import opened Devices
  import opened StoreMachine
  import opened ChangeLogs
  import opened DeviceInvariant
  import opened Runs
  import opened Guarantees

  // ---- Buckets ----

  /** `x` is in bucket `k` and in no other. */
  ghost predicate OneBucket<B(!new)>(index: set<(B, Id)>, x: Id, k: B) {
    (k, x) in index && forall p :: p in index && p.1 == x ==> p.0 == k
  }

  lemma MovingBuckets<B(!new)>(index: set<(B, Id)>, moved: set<Id>, bucket: map<Id, B>)
    requires moved <= bucket.Keys
    ensures forall x :: x in moved ==> OneBucket(Moving(index, moved, bucket), x, bucket[x])
    ensures forall x, k :: x !in moved && OneBucket(index, x, k) ==> OneBucket(Moving(index, moved, bucket), x, k)
    ensures forall p :: p in Moving(index, moved, bucket) ==> p in index || p.1 in moved
  {
  }

  ghost predicate StateIndexed(s: Store, x: Id)
    requires x in s.devices
  {
    && (exists k :: OneBucket(s.stateIndex, x, k))
    && (s.devices[x].health.state != Lost ==> OneBucket(s.stateIndex, x, s.devices[x].health.state))
  }

  /** Every tracked id, and no other, is in exactly one state bucket and one readiness
      bucket. The readiness bucket is always the right one, and so is the state bucket of
      every device that is not lost; for the lost ones see StateBucketExact. */
  ghost predicate BucketsAgree(s: Store) {
    && (forall p :: p in s.stateIndex ==> p.1 in s.devices)
    && (forall p :: p in s.readinessIndex ==> p.1 in s.devices)
    && (forall x :: x in s.devices ==>
          StateIndexed(s, x) && OneBucket(s.readinessIndex, x, s.devices[x].judgement.readiness))
  }

  /** The quarantine index is exactly the set of active records. */
  ghost predicate QuarantineAgrees(s: Store) {
    s.quarantineIndex == set x | x in s.devices && QuarantineActive(s.devices[x])
  }

  ghost predicate HasFaultOfType(d: Device, t: FaultType) {
    exists i :: 0 <= i < |d.history.faults| && d.history.faults[i].kind == t
  }

  ghost predicate HasOpenFaultOfType(d: Device, t: FaultType) {
    exists i :: 0 <= i < |d.history.faults| && d.history.faults[i].kind == t && d.history.faults[i].resolution == Open
  }

  /** The fault index holds every type with an open fault and only types that occurred. */
  ghost predicate FaultsAgree(s: Store) {
    && (forall p :: p in s.faultIndex ==> p.1 in s.devices && HasFaultOfType(s.devices[p.1], p.0))
    && (forall x, t: FaultType :: x in s.devices && HasOpenFaultOfType(s.devices[x], t) ==> (t, x) in s.faultIndex)
  }

  ghost predicate IndexesAgree(s: Store) {
    BucketsAgree(s) && QuarantineAgrees(s) && FaultsAgree(s)
  }

  /** One device through the bucket updates of a step. */
  lemma BucketsOf(s: Store, t: Store, e: Event, now: Timestamp, x: Id)
    requires Invariant(s) && BucketsAgree(s)
    requires t.devices == DevicesAfter(s, e, now) && x in t.devices
    requires t.stateIndex == StateIndexAfter(s, e, now)
    requires t.readinessIndex == ReadinessIndexAfter(s, e, now)
    requires x in s.devices ==> t.devices[x] == DeviceAfter(s, s.devices[x], e, now)
    requires x !in s.devices ==> x in Reindexed(s, e, now)
    ensures StateIndexed(t, x) && OneBucket(t.readinessIndex, x, t.devices[x].judgement.readiness)
  {
    hide DeviceAfter, IsReassessed, Identified, LegalLog, RecordsSound, Settled, Moving, OneBucket, DevicesAfter,
      OnlySilently;
    ReindexedAreTracked(s, e, now);
    MovingBuckets(if e.Restart? then {} else s.stateIndex, Reindexed(s, e, now), StatesOf(t.devices));
    MovingBuckets(if e.Restart? then {} else s.readinessIndex, Reindexed(s, e, now), ReadinessesOf(t.devices));
    if x in Reindexed(s, e, now) {
      assert OneBucket(t.stateIndex, x, t.devices[x].health.state);
    } else {
      SilentStep(s, s.devices[x], e, now);
      SilentMeans(s.devices[x], t.devices[x]);
      RestartReassesses(s, s.devices[x], now);
      var k :| OneBucket(s.stateIndex, x, k);
      assert OneBucket(t.stateIndex, x, k);
    }
  }

  lemma ReindexedAreTracked(s: Store, e: Event, now: Timestamp)
    ensures Reindexed(s, e, now) <= DevicesAfter(s, e, now).Keys
  {
    hide DeviceAfter, IsReassessed;
  }

  lemma SilentMeans(d: Device, e: Device)
    requires OnlySilently(d, e)
    ensures e.judgement == d.judgement && (e.health.state == d.health.state || e.health.state == Lost)
  {
  }

  lemma StepBuckets(s: Store, e: Event, now: Timestamp)
    requires Invariant(s) && BucketsAgree(s)
    requires !Collides(s, e)
    ensures BucketsAgree(Step(s, e, now))
  {
    hide Step, DeviceAfter, StateIndexAfter, ReadinessIndexAfter, DevicesAfter, FreshDevice, Identified, Sound,
      StateIndexed, OneBucket;
    var t := Step(s, e, now);
    StepDevices(s, e, now);
    StepBucketIndexes(s, e, now);
    DevicesStep(s, e, now);
    BucketSupport(s, e, now);
    forall x | x in t.devices
      ensures StateIndexed(t, x) && OneBucket(t.readinessIndex, x, t.devices[x].judgement.readiness)
    {
      BucketsOf(s, t, e, now, x);
    }
  }

  lemma BucketSupport(s: Store, e: Event, now: Timestamp)
    ensures forall p :: p in StateIndexAfter(s, e, now) ==> p in s.stateIndex || p.1 in DevicesAfter(s, e, now)
    ensures forall p :: p in ReadinessIndexAfter(s, e, now) ==> p in s.readinessIndex || p.1 in DevicesAfter(s, e, now)
  {
    hide DeviceAfter, IsReassessed;
  }

  lemma RestartReassesses(s: Store, d: Device, now: Timestamp)
    ensures IsReassessed(s, d, Restart, now)
  {
  }

  lemma ActiveStep(s: Store, d: Device, e: Event, now: Timestamp)
    ensures QuarantineActive(DeviceAfter(s, d, e, now)) <==>
      || (e.BeginQuarantine? && e.id == d.id)
      || (QuarantineActive(d) && e != ClearQuarantine(d.id))
  {
    hide Reassessed, Judge, MergeDimensions;
    ReassessKeepsEvidence(Landed(s, d, e, now), ContextOf(s, now));
  }

  lemma StepQuarantine(s: Store, e: Event, now: Timestamp)
    requires Invariant(s) && QuarantineAgrees(s)
    requires !Collides(s, e)
    ensures QuarantineAgrees(Step(s, e, now))
  {
    hide Step, DeviceAfter, QuarantineIndexAfter, Sound, DevicesAfter, QuarantineActive, FreshDevice;
    StepQuarantineIndex(s, e, now);
    DevicesStep(s, e, now);
    var t := Step(s, e, now);
    forall x ensures x in QuarantineIndexAfter(s, e) <==> x in t.devices && QuarantineActive(t.devices[x]) {
      if x in s.devices {
        ActiveStep(s, s.devices[x], e, now);
      } else if x in t.devices {
        FreshIsNotQuarantined(t.devices[x], x, e, now);
      }
      QuarantineMember(s, e, x);
    }
  }

  lemma FreshIsNotQuarantined(d: Device, x: Id, e: Event, now: Timestamp)
    requires e.RegisterDevice? && d == FreshDevice(x, e.uuid, e.node, now)
    ensures !QuarantineActive(d)
  {
  }

  lemma QuarantineMember(s: Store, e: Event, x: Id)
    requires QuarantineAgrees(s)
    ensures x in QuarantineIndexAfter(s, e) <==>
      && x in s.devices
      && ((e.BeginQuarantine? && e.id == x) || (QuarantineActive(s.devices[x]) && e != ClearQuarantine(x)))
  {
  }

  lemma FaultsStep(s: Store, d: Device, e: Event, now: Timestamp)
    ensures DeviceAfter(s, d, e, now).history.faults ==
      if e.RecordFault? && e.fault.accelerator == d.id && !HasId(d.history.faults, e.fault.id)
      then d.history.faults + [e.fault] else d.history.faults
  {
    hide Reassessed, Judge, MergeDimensions, Revalidated;
    ReassessKeepsEvidence(Landed(s, d, e, now), ContextOf(s, now));
    if e.Revalidate? {
      RevalidationKeepsRecords(d, e.record, ContextOf(s, now));
    }
  }

  lemma FaultTypesStep(s: Store, d: Device, e: Event, now: Timestamp, t: FaultType)
    ensures var recorded := e.RecordFault? && e.fault.accelerator == d.id && !HasId(d.history.faults, e.fault.id);
      && (HasFaultOfType(DeviceAfter(s, d, e, now), t) <==>
            HasFaultOfType(d, t) || (recorded && e.fault.kind == t))
      && (HasOpenFaultOfType(DeviceAfter(s, d, e, now), t) <==>
            HasOpenFaultOfType(d, t) || (recorded && e.fault.kind == t && e.fault.resolution == Open))
  {
    hide DeviceAfter;
    FaultsStep(s, d, e, now);
    var fs, gs := d.history.faults, DeviceAfter(s, d, e, now).history.faults;
    assert forall i :: 0 <= i < |fs| ==> gs[i] == fs[i];
    if |gs| > |fs| {
      assert gs[|fs|] == e.fault;
    }
  }

  /** The event records a fault of type `t` on `x`. */
  ghost predicate Adds(s: Store, e: Event, x: Id, t: FaultType)
    requires x in s.devices
  {
    e.RecordFault? && e.fault.accelerator == x && !HasId(s.devices[x].history.faults, e.fault.id) && e.fault.kind == t
  }

  lemma FaultIndexStep(s: Store, e: Event, x: Id, t: FaultType)
    requires FaultsAgree(s)
    ensures (t, x) in FaultIndexAfter(s, e) ==> x in s.devices && (HasFaultOfType(s.devices[x], t) || Adds(s, e, x, t))
    ensures x in s.devices && (HasOpenFaultOfType(s.devices[x], t) || Adds(s, e, x, t)) ==>
      (t, x) in FaultIndexAfter(s, e)
  {
    hide HasId;
    OpenFaultIndexIs(s.devices);
    if x in s.devices {
      OpenIsFault(s.devices[x], t);
    }
  }

  lemma StepFaults(s: Store, e: Event, now: Timestamp)
    requires Invariant(s) && FaultsAgree(s)
    requires !Collides(s, e)
    ensures FaultsAgree(Step(s, e, now))
  {
    hide Step, DeviceAfter, FaultIndexAfter, Sound, DevicesAfter, HasFaultOfType, HasOpenFaultOfType, FreshDevice;
    StepFaultIndex(s, e, now);
    DevicesStep(s, e, now);
    var u := Step(s, e, now);
    forall p | p in u.faultIndex ensures p.1 in u.devices && HasFaultOfType(u.devices[p.1], p.0) {
      FaultIndexStep(s, e, p.1, p.0);
      FaultTypesStep(s, s.devices[p.1], e, now, p.0);
    }
    forall x, t: FaultType | x in u.devices && HasOpenFaultOfType(u.devices[x], t) ensures (t, x) in u.faultIndex {
      if x in s.devices {
        FaultTypesStep(s, s.devices[x], e, now, t);
        FaultIndexStep(s, e, x, t);
      } else {
        FreshHasNoFaults(u.devices[x], x, e, now, t);
      }
    }
  }

  lemma OpenIsFault(d: Device, t: FaultType)
    ensures HasOpenFaultOfType(d, t) ==> HasFaultOfType(d, t)
  {
  }

  lemma FreshHasNoFaults(d: Device, x: Id, e: Event, now: Timestamp, t: FaultType)
    requires e.RegisterDevice? && d == FreshDevice(x, e.uuid, e.node, now)
    ensures !HasOpenFaultOfType(d, t)
  {
  }

  lemma OpenFaultIndexIs(devices: map<Id, Device>)
    ensures forall x, t: FaultType ::
      (t, x) in OpenFaultIndex(devices) <==> x in devices && HasOpenFaultOfType(devices[x], t)
  {
  }

  /** After every run, restarts included, the indexes agree with a scan of the devices. */
  lemma {:induction false} IndexesAlwaysAgree(s: Store, trace: Trace)
    requires IsInitial(s)
    requires Admissible(s, trace)
    ensures IndexesAgree(Run(s, trace))
    decreases |trace|
  {
    hide Step, Invariant, BucketsAgree, QuarantineAgrees, FaultsAgree;
    if trace == [] {
      InitialIndexes(s);
    } else {
      var init, last := trace[..|trace| - 1], trace[|trace| - 1];
      IndexesAlwaysAgree(s, init);
      ReachableInvariant(s, init);
      StepBuckets(Run(s, init), last.event, last.now);
      StepQuarantine(Run(s, init), last.event, last.now);
      StepFaults(Run(s, init), last.event, last.now);
    }
  }

  lemma InitialIndexes(s: Store)
    requires IsInitial(s)
    ensures IndexesAgree(s)
  {
  }

  // ---- The state bucket, exactly ----

  /** A loss moved `x` to LOST, and no step has reassessed the device since. */
  ghost predicate LossUnseen(s: Store, trace: Trace, x: Id)
    decreases |trace|
  {
    trace != [] &&
    var init, last := trace[..|trace| - 1], trace[|trace| - 1];
    var before := Run(s, init);
    && x in before.devices
    && !IsReassessed(before, before.devices[x], last.event, last.now)
    && (LossUnseen(s, init, x) || (Loses(last.event, x) && before.devices[x].health.state != Lost))
  }

  predicate Loses(e: Event, x: Id) {
    e.MarkLost? && e.id == x
  }

  /** Without a reassessment only a loss changes the state. */
  lemma StateStep(s: Store, d: Device, e: Event, now: Timestamp)
    requires Settled(d) && !IsReassessed(s, d, e, now)
    ensures DeviceAfter(s, d, e, now).health.state == if Loses(e, d.id) then Lost else d.health.state
  {
    hide Reassessed, Judge, MergeDimensions, ReadyHolds, FatalHolds, QuarantineHolds, RecoveryAgrees, Revalidated;
    if e.MarkLost? {
      TableShape(d.health.state);
    }
  }

  /** A step that reassesses a device puts it into the bucket of its new state. */
  lemma SeenBucket(s: Store, e: Event, now: Timestamp, x: Id)
    requires x in s.devices && IsReassessed(s, s.devices[x], e, now)
    ensures var t := Step(s, e, now);
      x in t.devices && OneBucket(t.stateIndex, x, t.devices[x].health.state)
  {
    hide Step, DeviceAfter, IsReassessed, OneBucket, Moving, DevicesAfter;
    StepDevices(s, e, now);
    StepBucketIndexes(s, e, now);
    ReindexedAreTracked(s, e, now);
    MovingBuckets(if e.Restart? then {} else s.stateIndex, Reindexed(s, e, now), StatesOf(DevicesAfter(s, e, now)));
  }

  /** A step that does not leaves it where it was. */
  lemma KeptBucket(s: Store, e: Event, now: Timestamp, x: Id, k: HealthState)
    requires !Collides(s, e) && x in s.devices && !IsReassessed(s, s.devices[x], e, now)
    requires OneBucket(s.stateIndex, x, k)
    ensures OneBucket(Step(s, e, now).stateIndex, x, k)
  {
    hide Step, DeviceAfter, IsReassessed, OneBucket, Moving, DevicesAfter;
    StepBucketIndexes(s, e, now);
    ReindexedAreTracked(s, e, now);
    RestartReassesses(s, s.devices[x], now);
    assert x !in Reindexed(s, e, now);
    MovingBuckets(s.stateIndex, Reindexed(s, e, now), StatesOf(DevicesAfter(s, e, now)));
  }

  lemma KeptState(s: Store, e: Event, now: Timestamp, x: Id)
    requires Invariant(s) && !Collides(s, e) && x in s.devices && !IsReassessed(s, s.devices[x], e, now)
    ensures x in Step(s, e, now).devices
    ensures Step(s, e, now).devices[x].health.state == if Loses(e, x) then Lost else s.devices[x].health.state
  {
    hide Step, DeviceAfter, IsReassessed, Settled, LegalLog, RecordsSound;
    DevicesStep(s, e, now);
    StateStep(s, s.devices[x], e, now);
  }

  lemma NewBucket(s: Store, e: Event, now: Timestamp, x: Id)
    requires Registers(s, e) && x == NewId(s, e.uuid)
    ensures var t := Step(s, e, now);
      x in t.devices && OneBucket(t.stateIndex, x, t.devices[x].health.state)
  {
    hide Step, DeviceAfter, IsReassessed, OneBucket, Moving, Kept;
    StepDevices(s, e, now);
    StepBucketIndexes(s, e, now);
    ReindexedAreTracked(s, e, now);
    MovingBuckets(s.stateIndex, Reindexed(s, e, now), StatesOf(DevicesAfter(s, e, now)));
  }

  /** The bucket a lost device was left in. */
  ghost function BucketBefore(s: Store, trace: Trace, x: Id): (k: HealthState)
    requires exists k :: k != Lost && OneBucket(Run(s, trace).stateIndex, x, k)
    ensures k != Lost && OneBucket(Run(s, trace).stateIndex, x, k)
  {
    var k :| k != Lost && OneBucket(Run(s, trace).stateIndex, x, k);
    k
  }

  /** Where a device is indexed after a run: in the bucket of its state, or, while a loss has
      not been seen by a reassessment, in that of the state before the loss. */
  lemma {:induction false} BucketFollows(s: Store, trace: Trace, x: Id)
    requires IsInitial(s) && Admissible(s, trace)
    requires x in Run(s, trace).devices
    ensures var t := Run(s, trace);
      if LossUnseen(s, trace, x)
      then t.devices[x].health.state == Lost && exists k :: k != Lost && OneBucket(t.stateIndex, x, k)
      else OneBucket(t.stateIndex, x, t.devices[x].health.state)
    decreases |trace|
  {
    hide Step, OneBucket, IsReassessed, Invariant;
    if trace != [] {
      var init, last := trace[..|trace| - 1], trace[|trace| - 1];
      var before := Run(s, init);
      ReachableInvariant(s, init);
      if x in before.devices {
        BucketFollows(s, init, x);
        if IsReassessed(before, before.devices[x], last.event, last.now) {
          SeenBucket(before, last.event, last.now, x);
        } else {
          var k := if LossUnseen(s, init, x) then BucketBefore(s, init, x) else before.devices[x].health.state;
          KeptBucket(before, last.event, last.now, x, k);
          KeptState(before, last.event, last.now, x);
        }
      } else {
        DevicesStep(before, last.event, last.now);
        NewBucket(before, last.event, last.now, x);
      }
    }
  }

  /** After every run a device is in the bucket of its current state exactly when no loss of
      it has gone without a reassessment. */
  lemma StateBucketExact(s: Store, trace: Trace, x: Id)
    requires IsInitial(s) && Admissible(s, trace)
    requires x in Run(s, trace).devices
    ensures OneBucket(Run(s, trace).stateIndex, x, Run(s, trace).devices[x].health.state) <==> !LossUnseen(s, trace, x)
  {
    hide Run;
    BucketFollows(s, trace, x);
  }

  /** A run in which the bucket is wrong: registered, then lost. */
  lemma LossLeavesBucket(s: Store, uuid: Id, t1: Timestamp, t2: Timestamp, reason: string)
    requires IsInitial(s) && uuid != 0
    ensures var t := Run(s, [Timed(RegisterDevice(uuid, 1), t1), Timed(MarkLost(uuid, reason), t2)]);
      uuid in t.devices && t.devices[uuid].health.state == Lost && !OneBucket(t.stateIndex, uuid, Lost)
  {
    hide Step, OneBucket, Invariant;
    var e1, e2 := Timed(RegisterDevice(uuid, 1), t1), Timed(MarkLost(uuid, reason), t2);
    var one, two := [] + [e1], [] + [e1] + [e2];
    RunSnoc(s, [], e1);
    RunSnoc(s, one, e2);
    assert two[..1] == one && [e1, e2] == two;
    NonZeroUuidsAreAdmissible(s, two);
    ReachableInvariant(s, one);
    var s1 := Run(s, one);
    DevicesStep(s, e1.event, t1);
    assert s1.devices[uuid] == FreshDevice(uuid, uuid, 1, t1);
    KeptState(s1, e2.event, t2, uuid);
    assert LossUnseen(s, two, uuid);
    StateBucketExact(s, two, uuid);
  }
}
