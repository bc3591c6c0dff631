/** What a caller is shown of a device. */
module Snapshots {
  import opened Enums
  import opened Records
  import opened Devices

  datatype Snapshot = Snapshot(
    accelerator: Id,
    uuid: Id,
    node: Id,
    lastWorker: Id,
    lastWorkerBootId: Id,
    generation: Generation,
    state: HealthState,
    readiness: ReadinessState,
    highestValidation: ValidationDepth,
    dimensions: Dimensions,
    lastObservation: Timestamp,
    openFaults: seq<Fault>,
    faultCount: U32,
    validations: seq<ValidationRecord>,
    changes: seq<HealthChange>,
    latestAssessment: HealthAssessment,
    quarantine: Option<QuarantineRecord>,
    recovery: Option<RecoveryRecord>,
    deviceGenerationChanged: bool)

  function OpenOnly(fs: seq<Fault>): seq<Fault> {
    if fs == [] then []
    else OpenOnly(fs[..|fs| - 1]) + if fs[|fs| - 1].resolution == Open then [fs[|fs| - 1]] else []
  }

  /** Nothing open is missing and nothing else is shown. */
  lemma {:induction false} OpenOnlyExactly(fs: seq<Fault>, f: Fault)
    ensures f in OpenOnly(fs) <==> f in fs && f.resolution == Open
  {
    if fs != [] {
      var init, last := fs[..|fs| - 1], fs[|fs| - 1];
      OpenOnlyExactly(init, f);
      assert fs == init + [last];
      assert f in fs <==> f in init || f == last;
    }
  }

  /** The order is that of the history: what is open of one part comes before what is open of
      the next. */
  lemma {:induction false} OpenOnlyInOrder(a: seq<Fault>, b: seq<Fault>)
    ensures OpenOnly(a + b) == OpenOnly(a) + OpenOnly(b)
  {
    if b == [] {
      assert a + b == a;
    } else {
      assert (a + b)[..|a + b| - 1] == a + b[..|b| - 1];
      OpenOnlyInOrder(a, b[..|b| - 1]);
    }
  }

  function SnapshotOf(d: Device): Snapshot {
    Snapshot(
      d.id, d.identity.uuid, d.identity.node, d.evidence.lastWorker, d.evidence.lastWorkerBootId,
      d.evidence.generation, d.health.state, d.judgement.readiness, d.history.highestValidation,
      d.evidence.dimensions, d.evidence.lastObservation, OpenOnly(d.history.faults), |d.history.faults| % UINT32,
      d.history.validations, d.health.changes, d.judgement.assessment, d.care.quarantine, d.care.recovery,
      d.evidence.deviceGenerationChanged)
  }

  method CollectOpen(fs: seq<Fault>) returns (open: seq<Fault>)
    ensures open == OpenOnly(fs)
  {
    open := [];
    for i := 0 to |fs|
      invariant open == OpenOnly(fs[..i])
    {
      assert fs[..i + 1][..i] == fs[..i];
      if fs[i].resolution == Open {
        open := open + [fs[i]];
      }
    }
    assert fs[..|fs|] == fs;
  }

  method TakeSnapshot(d: Device) returns (s: Snapshot)
    ensures s == SnapshotOf(d)
  {
    var open := CollectOpen(d.history.faults);
    s := Snapshot(
      d.id, d.identity.uuid, d.identity.node, d.evidence.lastWorker, d.evidence.lastWorkerBootId,
      d.evidence.generation, d.health.state, d.judgement.readiness, d.history.highestValidation,
      d.evidence.dimensions, d.evidence.lastObservation, open, |d.history.faults| % UINT32,
      d.history.validations, d.health.changes, d.judgement.assessment, d.care.quarantine, d.care.recovery,
      d.evidence.deviceGenerationChanged);
  }
}
