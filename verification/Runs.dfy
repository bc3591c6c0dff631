/** Whole runs: the invariant every reachable store satisfies. */
module Runs {
  import opened Enums
  import opened Records
  import opened FaultHistory
  import opened Assessment
  import opened Devices
  import opened StoreMachine
  import opened ChangeLogs
  import opened DeviceInvariant

  // ---- Records and the values cached from them ----

  /** Greatest depth among the passing validations. */
  function DeepestPass(vs: seq<ValidationRecord>): ValidationDepth {
    if vs == [] then 0
    else
      var best := DeepestPass(vs[..|vs| - 1]);
      var v := vs[|vs| - 1];
      if v.passed && v.depth > best then v.depth else best
  }

  /** The fold is the maximum: it bounds every passing depth, and some passing record has it. */
  lemma {:induction false} DeepestPassIsMaximum(vs: seq<ValidationRecord>)
    ensures forall i :: 0 <= i < |vs| && vs[i].passed ==> vs[i].depth <= DeepestPass(vs)
    ensures DeepestPass(vs) > 0 ==> exists i :: 0 <= i < |vs| && vs[i].passed && vs[i].depth == DeepestPass(vs)
  {
    if vs != [] {
      var init := vs[..|vs| - 1];
      DeepestPassIsMaximum(init);
      assert forall i :: 0 <= i < |init| ==> init[i] == vs[i];
      if DeepestPass(vs) == DeepestPass(init) && DeepestPass(vs) > 0 {
        var i :| 0 <= i < |init| && init[i].passed && init[i].depth == DeepestPass(init);
        assert vs[i].passed;
      }
    }
  }

  predicate KeyedByKind(dims: Dimensions) {
    forall k :: k in dims ==> dims[k].kind == k
  }

  ghost predicate RecordsSound(d: Device) {
    && KeyedByKind(d.evidence.dimensions)
    && UniqueIds(d.history.faults)
    && d.history.highestValidation == DeepestPass(d.history.validations)
  }

  lemma {:induction false} MergeKeepsKinds(m: Dimensions, ds: seq<HealthDimension>)
    requires KeyedByKind(m)
    ensures KeyedByKind(MergeDimensions(m, ds))
  {
    if ds != [] {
      MergeKeepsKinds(m, ds[..|ds| - 1]);
    }
  }

  lemma ValidationKeepsFold(d: Device, v: ValidationRecord)
    requires RecordsSound(d)
    ensures RecordsSound(WithValidation(d, v))
  {
    var vs := d.history.validations + [v];
    assert vs[..|vs| - 1] == d.history.validations;
  }

  lemma RevalidationKeepsRecords(d: Device, v: ValidationRecord, c: Context)
    ensures Revalidated(d, v, c).evidence == d.evidence
    ensures Revalidated(d, v, c).history == WithValidation(d, v).history
    ensures Revalidated(d, v, c).id == d.id
    ensures Revalidated(d, v, c).identity == d.identity
  {
  }

  lemma LandedKeepsRecords(s: Store, d: Device, e: Event, now: Timestamp)
    requires RecordsSound(d)
    ensures RecordsSound(Landed(s, d, e, now))
  {
    hide Judge, Revalidated, DeepestPass, MergeDimensions;
    match e
    case Observe(obs, _) => MergeKeepsKinds(d.evidence.dimensions, obs.dimensions);
    case RecordValidation(v) => ValidationKeepsFold(d, v);
    case Revalidate(_, v) =>
      ValidationKeepsFold(d, v);
      RevalidationKeepsRecords(d, v, ContextOf(s, now));
    case _ =>
  }

  lemma StepKeepsRecords(s: Store, d: Device, e: Event, now: Timestamp)
    requires RecordsSound(d)
    ensures RecordsSound(DeviceAfter(s, d, e, now))
  {
    hide Landed, Reassessed;
    LandedKeepsRecords(s, d, e, now);
    ReassessKeepsEvidence(Landed(s, d, e, now), ContextOf(s, now));
  }

  // ---- The invariant ----

  ghost predicate Sound(d: Device) {
    && Settled(d)
    && LegalLog(d)
    && RecordsSound(d)
  }

  /** Device keys, identities and uuids agree: a uuid names one device and a device one uuid. */
  ghost predicate Identified(s: Store) {
    && (forall x :: x in s.devices ==>
          && s.devices[x].id == x
          && s.devices[x].identity.uuid in s.uuidIndex
          && s.uuidIndex[s.devices[x].identity.uuid] == x)
    && (forall u :: u in s.uuidIndex ==>
          s.uuidIndex[u] in s.devices && s.devices[s.uuidIndex[u]].identity.uuid == u)
  }

  ghost predicate Invariant(s: Store) {
    && s.policyGeneration >= 1
    && Identified(s)
    && forall x :: x in s.devices ==> Sound(s.devices[x])
  }

  lemma LandedKeepsIdentity(s: Store, d: Device, e: Event, now: Timestamp)
    ensures Landed(s, d, e, now).id == d.id
    ensures Landed(s, d, e, now).identity == d.identity
  {
    hide Judge, Revalidated, MergeDimensions;
    if e.Revalidate? {
      RevalidationKeepsRecords(d, e.record, ContextOf(s, now));
    }
  }

  lemma StepKeepsIdentity(s: Store, d: Device, e: Event, now: Timestamp)
    ensures DeviceAfter(s, d, e, now).id == d.id
    ensures DeviceAfter(s, d, e, now).identity == d.identity
  {
    hide Landed, Reassessed;
    LandedKeepsIdentity(s, d, e, now);
    ReassessKeepsEvidence(Landed(s, d, e, now), ContextOf(s, now));
  }

  lemma StepKeepsSound(s: Store, d: Device, e: Event, now: Timestamp)
    requires Sound(d)
    ensures Sound(DeviceAfter(s, d, e, now))
  {
    hide Settled, LegalLog, RecordsSound, DeviceAfter;
    StepSettles(s, d, e, now);
    StepContinues(s, d, e, now);
    StepKeepsRecords(s, d, e, now);
  }

  lemma FreshIsSound(id: Id, uuid: Id, node: Id, now: Timestamp)
    ensures Sound(FreshDevice(id, uuid, node, now))
  {
    FreshIsSettled(id, uuid, node, now);
  }

  // What each part of a stepped store is, so that proofs need not open the whole step.

  lemma StepDevices(s: Store, e: Event, now: Timestamp)
    ensures Step(s, e, now).devices == DevicesAfter(s, e, now)
  {
  }

  lemma StepBucketIndexes(s: Store, e: Event, now: Timestamp)
    ensures Step(s, e, now).stateIndex == StateIndexAfter(s, e, now)
    ensures Step(s, e, now).readinessIndex == ReadinessIndexAfter(s, e, now)
  {
  }

  lemma StepFaultIndex(s: Store, e: Event, now: Timestamp)
    ensures Step(s, e, now).faultIndex == FaultIndexAfter(s, e)
  {
  }

  lemma StepQuarantineIndex(s: Store, e: Event, now: Timestamp)
    ensures Step(s, e, now).quarantineIndex == QuarantineIndexAfter(s, e)
  {
  }

  lemma StepGlobalLogs(s: Store, e: Event, now: Timestamp)
    ensures Step(s, e, now).globalFaults == GlobalFaultsAfter(s, e)
    ensures Step(s, e, now).globalChanges == GlobalChangesAfter(s, e, now)
  {
  }

  lemma StepUuids(s: Store, e: Event, now: Timestamp)
    ensures Step(s, e, now).uuidIndex == if Registers(s, e) then s.uuidIndex[e.uuid := NewId(s,
      e.uuid)] else s.uuidIndex
  {
  }

  /** `after` is the device table with every device stepped and perhaps a new one added. */
  ghost predicate TableStepped(s: Store, e: Event, now: Timestamp, after: map<Id, Device>) {
    && (forall x :: x in s.devices ==> x in after && after[x] == DeviceAfter(s, s.devices[x], e, now))
    && (forall x :: x in after && x !in s.devices ==>
          Registers(s, e) && x == NewId(s, e.uuid) && after[x] == FreshDevice(x, e.uuid, e.node, now))
    && (Registers(s, e) ==> NewId(s, e.uuid) in after && NewId(s, e.uuid) !in s.devices)
  }

  /** What a step does to the device table, when it does not collide. */
  lemma DevicesStep(s: Store, e: Event, now: Timestamp)
    requires !Collides(s, e)
    ensures TableStepped(s, e, now, Step(s, e, now).devices)
  {
    hide Step, DeviceAfter, FreshDevice;
    StepDevices(s, e, now);
  }

  lemma StepKeepsIdentified(s: Store, e: Event, now: Timestamp)
    requires Identified(s)
    requires !Collides(s, e)
    ensures Identified(Step(s, e, now))
  {
    hide DeviceAfter, Step;
    DevicesStep(s, e, now);
    StepUuids(s, e, now);
    forall x | x in s.devices
      ensures DeviceAfter(s, s.devices[x], e, now).id == s.devices[x].id
      ensures DeviceAfter(s, s.devices[x], e, now).identity == s.devices[x].identity
    {
      StepKeepsIdentity(s, s.devices[x], e, now);
    }
  }

  lemma StepKeepsInvariant(s: Store, e: Event, now: Timestamp)
    requires Invariant(s)
    requires !Collides(s, e)
    ensures Invariant(Step(s, e, now))
  {
    hide Identified, Sound, DeviceAfter, StateIndexAfter, ReadinessIndexAfter, StaleIndexAfter, GlobalChangesAfter,
      QuarantineIndexAfter, FaultIndexAfter, Judge, DevicesAfter, GlobalFaultsAfter, FreshDevice;
    StepKeepsIdentified(s, e, now);
    DevicesStep(s, e, now);
    var t := Step(s, e, now);
    forall x | x in t.devices ensures Sound(t.devices[x]) {
      if x in s.devices {
        StepKeepsSound(s, s.devices[x], e, now);
      } else {
        FreshIsSound(x, e.uuid, e.node, now);
      }
    }
  }

  // ---- Runs ----

  ghost predicate Admissible(s: Store, trace: Trace)
    decreases |trace|
  {
    trace == [] ||
    (Admissible(s, trace[..|trace| - 1]) && !Collides(Run(s, trace[..|trace| - 1]), trace[|trace| - 1].event))
  }

  lemma NoSteps(s: Store)
    ensures Run(s, []) == s
  {
  }

  lemma RunSnoc(s: Store, trace: Trace, t: Timed)
    ensures Run(s, trace + [t]) == Step(Run(s, trace), t.event, t.now)
  {
    hide Step;
    var longer := trace + [t];
    assert longer[..|longer| - 1] == trace;
  }

  /** The invariant holds after every run of operations, loads and clock readings. */
  lemma {:induction false} RunKeepsInvariant(s: Store, trace: Trace)
    requires Invariant(s)
    requires Admissible(s, trace)
    ensures Invariant(Run(s, trace))
    decreases |trace|
  {
    hide Invariant, Step;
    if trace != [] {
      var init, last := trace[..|trace| - 1], trace[|trace| - 1];
      RunKeepsInvariant(s, init);
      StepKeepsInvariant(Run(s, init), last.event, last.now);
    }
  }

  lemma InitialInvariant(policy: HealthPolicy, epoch: U64, floats: FloatTable)
    ensures Invariant(Initial(policy, epoch, floats))
  {
  }

  predicate IsInitial(s: Store) {
    s == Initial(s.policy, s.coordinatorEpoch, s.floats)
  }

  /** Everything proved of the invariant is proved of every run of a new store. */
  lemma ReachableInvariant(s: Store, trace: Trace)
    requires IsInitial(s)
    requires Admissible(s, trace)
    ensures Invariant(Run(s, trace))
  {
    InitialInvariant(s.policy, s.coordinatorEpoch, s.floats);
    RunKeepsInvariant(s, trace);
  }

  /** The last step of a run, seen from one device that was already tracked. */
  lemma LastStep(s: Store, trace: Trace, x: Id)
    requires IsInitial(s)
    requires trace != [] && Admissible(s, trace)
    requires x in Run(s, trace[..|trace| - 1]).devices
    ensures var before := Run(s, trace[..|trace| - 1]);
      && Invariant(before)
      && before.devices[x].id == x
      && Sound(before.devices[x])
      && x in Run(s, trace).devices
      && Run(s, trace).devices[x] ==
         DeviceAfter(before, before.devices[x], trace[|trace| - 1].event, trace[|trace| - 1].now)
  {
    hide Sound, DeviceAfter, Step;
    var init, last := trace[..|trace| - 1], trace[|trace| - 1];
    ReachableInvariant(s, init);
    DevicesStep(Run(s, init), last.event, last.now);
  }

  /** A device that the last step of a run brought in. */
  lemma NewDevice(s: Store, trace: Trace, x: Id)
    requires IsInitial(s)
    requires trace != [] && Admissible(s, trace)
    requires x in Run(s, trace).devices && x !in Run(s, trace[..|trace| - 1]).devices
    ensures exists uuid, node, now :: Run(s, trace).devices[x] == FreshDevice(x, uuid, node, now)
  {
    hide DeviceAfter, Step;
    var init, last := trace[..|trace| - 1], trace[|trace| - 1];
    DevicesStep(Run(s, init), last.event, last.now);
    assert Run(s, trace).devices[x] == FreshDevice(x, last.event.uuid, last.event.node, last.now);
  }

  /** When uuids are non-zero, as workers report them, a registration never collides. */
  lemma {:induction false} NonZeroUuidsAreAdmissible(s: Store, trace: Trace)
    requires IsInitial(s)
    requires forall i :: 0 <= i < |trace| && trace[i].event.RegisterDevice? ==> trace[i].event.uuid != 0
    ensures Admissible(s, trace)
    ensures forall x :: x in Run(s, trace).devices ==> Run(s, trace).devices[x].identity.uuid == x
    decreases |trace|
  {
    hide DeviceAfter, Step, Invariant;
    if trace != [] {
      var init, last := trace[..|trace| - 1], trace[|trace| - 1];
      assert forall i :: 0 <= i < |init| ==> init[i] == trace[i];
      NonZeroUuidsAreAdmissible(s, init);
      ReachableInvariant(s, init);
      var before := Run(s, init);
      assert Identified(before) by { assert Invariant(before); InvariantIdentified(before); }
      assert !Collides(before, last.event);
      DevicesStep(before, last.event, last.now);
      forall x | x in Run(s, trace).devices ensures Run(s, trace).devices[x].identity.uuid == x {
        if x in before.devices {
          StepKeepsIdentity(before, before.devices[x], last.event, last.now);
        }
      }
    }
  }

  lemma InvariantIdentified(s: Store)
    requires Invariant(s)
    ensures Identified(s)
  {
  }

  /** With uuid zero the promise fails: the counter can hand out the id of a tracked device,
      whose record is then replaced by a new one. */
  lemma ZeroUuidOverwrites(policy: HealthPolicy, floats: FloatTable, f: Fault)
    requires f.accelerator == 1
    ensures var s := Run(Initial(policy, 0, floats), [Timed(RegisterDevice(1, 5), 10), Timed(RecordFault(f), 11)]);
      && 1 in s.devices && s.devices[1].history.faults == [f]
      && Collides(s, RegisterDevice(0, 5))
      && Step(s, RegisterDevice(0, 5), 12).devices[1].history.faults == []
  {
    hide StateIndexAfter, ReadinessIndexAfter, StaleIndexAfter, GlobalChangesAfter,
      QuarantineIndexAfter, FaultIndexAfter, Judge, Reassessed;
    var s0 := Initial(policy, 0, floats);
    var t1, t2 := Timed(RegisterDevice(1, 5), 10), Timed(RecordFault(f), 11);
    var s1 := Step(s0, t1.event, 10);
    var s2 := Step(s1, t2.event, 11);
    assert [t1, t2][..1] == [t1] && [t1][..0] == [];
    assert Run(s0, []) == s0;
    assert Run(s0, [t1]) == s1;
    assert Run(s0, [t1, t2]) == s2;
    ReassessKeepsEvidence(WithFault(s1.devices[1], f), ContextOf(s1, 11));
  }

  /** A registration replaces a tracked device exactly when it collides with it, and
      otherwise leaves every tracked device as it was. */
  lemma RegistrationOverwrites(s: Store, uuid: Id, node: Id, now: Timestamp, x: Id)
    requires x in s.devices
    ensures var e := RegisterDevice(uuid, node);
      && x in Step(s, e, now).devices
      && Step(s, e, now).devices[x] ==
         if Collides(s, e) && x == NewId(s, uuid) then FreshDevice(x, uuid, node, now) else s.devices[x]
  {
    hide StateIndexAfter, ReadinessIndexAfter, StaleIndexAfter, GlobalChangesAfter,
      QuarantineIndexAfter, FaultIndexAfter, Judge, Reassessed, FreshDevice;
    assert Landed(s, s.devices[x], RegisterDevice(uuid, node), now) == s.devices[x];
  }
}
