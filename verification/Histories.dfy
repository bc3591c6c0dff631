/** What a store holds after a run, told from the events: the policy in force, the evidence of a
    device reading by reading, who reported it, and its identity. */
module Histories {
  import opened Enums
  import opened Records
  import opened Devices
  import opened StoreMachine
  import opened ChangeLogs
  import opened DeviceInvariant
  import opened Runs
  import opened Guarantees
  import opened SaveableRuns
  import opened Snapshots
  import opened Ledgers

  // ---- The policy ----

  /** The policy installed last, or the one the store started with; a restart keeps it. */
  function CurrentPolicy(start: HealthPolicy, trace: Trace): HealthPolicy {
    if trace == [] then start
    else
      match trace[|trace| - 1].event
      case InstallPolicy(p) => p
      case _ => CurrentPolicy(start, trace[..|trace| - 1])
  }

  lemma PolicyStep(s: Store, e: Event, now: Timestamp)
    ensures Step(s, e, now).policy == if e.InstallPolicy? then e.policy else s.policy
  {
    hide DevicesAfter, StateIndexAfter, ReadinessIndexAfter, StaleIndexAfter, GlobalChangesAfter, GlobalFaultsAfter,
      QuarantineIndexAfter, FaultIndexAfter, Judge;
  }

  /** After every run the policy in force is the one installed last, and the policy generation
      counts the installations. */
  lemma {:induction false} PolicyIsCurrent(s: Store, trace: Trace)
    ensures Run(s, trace).policy == CurrentPolicy(s.policy, trace)
    ensures Run(s, trace).policyGeneration == s.policyGeneration + Count(trace, Policies())
    decreases |trace|
  {
    hide Step;
    if trace != [] {
      var init, last := trace[..|trace| - 1], trace[|trace| - 1];
      PolicyIsCurrent(s, init);
      PolicyStep(Run(s, init), last.event, last.now);
      HeaderStep(Run(s, init), last.event, last.now);
    }
  }

  // ---- Readings ----

  function ReadingOf(d: Device, k: DimensionKind): Option<HealthDimension> {
    if k in d.evidence.dimensions then Some(d.evidence.dimensions[k]) else None
  }

  /** The last entry of kind `k` in a report. */
  function LastOf(ds: seq<HealthDimension>, k: DimensionKind): Option<HealthDimension> {
    if ds == [] then None
    else if ds[|ds| - 1].kind == k then Some(ds[|ds| - 1])
    else LastOf(ds[..|ds| - 1], k)
  }

  lemma {:induction false} LastOfIsLast(ds: seq<HealthDimension>, k: DimensionKind)
    ensures LastOf(ds, k).None? <==> forall i :: 0 <= i < |ds| ==> ds[i].kind != k
    ensures LastOf(ds, k).Some? ==> exists i ::
      && 0 <= i < |ds| && ds[i] == LastOf(ds, k).value && ds[i].kind == k
      && forall j :: i < j < |ds| ==> ds[j].kind != k
  {
    if ds != [] {
      var init := ds[..|ds| - 1];
      assert forall i :: 0 <= i < |init| ==> init[i] == ds[i];
      LastOfIsLast(init, k);
      if ds[|ds| - 1].kind != k && LastOf(init, k).Some? {
        var i :| 0 <= i < |init| && init[i] == LastOf(init, k).value && init[i].kind == k
          && forall j :: i < j < |init| ==> init[j].kind != k;
        assert ds[i] == LastOf(ds, k).value;
      }
    }
  }

  lemma {:induction false} MergedReading(m: Dimensions, ds: seq<HealthDimension>, k: DimensionKind)
    ensures k in MergeDimensions(m, ds) <==> k in m || LastOf(ds, k).Some?
    ensures k in MergeDimensions(m, ds) ==>
      MergeDimensions(m, ds)[k] == if LastOf(ds, k).Some? then LastOf(ds, k).value else m[k]
  {
    if ds != [] {
      MergedReading(m, ds[..|ds| - 1], k);
    }
  }

  lemma ReadingStep(s: Store, d: Device, e: Event, now: Timestamp, k: DimensionKind)
    ensures ReadingOf(DeviceAfter(s, d, e, now), k) ==
      if AcceptedFor(s, e, d.id) && LastOf(e.obs.dimensions, k).Some? then LastOf(e.obs.dimensions, k)
      else ReadingOf(d, k)
  {
    hide Reassessed, Judge, MergeDimensions, LastOf;
    ReassessKeepsEvidence(Landed(s, d, e, now), ContextOf(s, now));
    if e.Observe? {
      MergedReading(d.evidence.dimensions, e.obs.dimensions, k);
    }
    if e.Revalidate? {
      RevalidationKeepsRecords(d, e.record, ContextOf(s, now));
    }
  }

  /** The last reading of kind `k` accepted for device `x`. */
  ghost function LastReading(s: Store, trace: Trace, x: Id, k: DimensionKind): Option<HealthDimension>
    decreases |trace|
  {
    if trace == [] then None
    else
      var init, e := trace[..|trace| - 1], trace[|trace| - 1].event;
      if AcceptedFor(Run(s, init), e, x) && LastOf(e.obs.dimensions, k).Some? then LastOf(e.obs.dimensions, k)
      else LastReading(s, init, x, k)
  }

  lemma {:induction false} NothingAcceptedYet(s: Store, trace: Trace, x: Id, k: DimensionKind)
    requires IsInitial(s) && Admissible(s, trace) && x !in Run(s, trace).devices
    ensures LastReading(s, trace, x, k) == None
    decreases |trace|
  {
    hide Step, DeviceAfter, Invariant;
    if trace != [] {
      var init, last := trace[..|trace| - 1], trace[|trace| - 1];
      DevicesStep(Run(s, init), last.event, last.now);
      NothingAcceptedYet(s, init, x, k);
    }
  }

  /** In every run what a device holds for a kind is the last reading of that kind accepted for
      it: nothing is forgotten and nothing else gets in. */
  lemma {:induction false} ReadingIsLast(s: Store, trace: Trace, x: Id, k: DimensionKind)
    requires IsInitial(s) && Admissible(s, trace) && x in Run(s, trace).devices
    ensures ReadingOf(Run(s, trace).devices[x], k) == LastReading(s, trace, x, k)
    decreases |trace|
  {
    hide Step, DeviceAfter, Sound, LastOf, AcceptedFor, ReadingOf;
    if trace != [] {
      var init, last := trace[..|trace| - 1], trace[|trace| - 1];
      if x in Run(s, init).devices {
        ReadingIsLast(s, init, x, k);
        LastStep(s, trace, x);
        ReadingStep(Run(s, init), Run(s, init).devices[x], last.event, last.now, k);
      } else {
        NewDevice(s, trace, x);
        NoReading(Run(s, trace).devices[x], x, k);
        NothingAcceptedYet(s, init, x, k);
        NotAccepted(Run(s, init), last.event, x);
      }
    }
  }

  lemma NoReading(d: Device, x: Id, k: DimensionKind)
    requires exists uuid, node, now :: d == FreshDevice(x, uuid, node, now)
    ensures ReadingOf(d, k) == None
  {
  }

  lemma NotAccepted(s: Store, e: Event, x: Id)
    requires x !in s.devices
    ensures !AcceptedFor(s, e, x)
  {
  }

  // ---- Who reported, when, and what it is worth ----

  /** What the events leave on record about the evidence of a device. */
  datatype Report = Report(
    worker: Id,
    boot: Id,
    at: Timestamp,
    generation: Generation,
    newGeneration: bool,
    newPolicy: bool,
    distrusted: bool)

  function ReportOn(d: Device): Report {
    Report(d.evidence.lastWorker, d.evidence.lastWorkerBootId, d.evidence.lastObservation, d.evidence.generation,
           d.evidence.deviceGenerationChanged, d.evidence.policyGenerationChanged, d.evidence.requiresRevalidation)
  }

  const UNREPORTED: Report := Report(0, 0, 0, 1, false, false, false)

  /** An accepted observation replaces reporter and time, raises the generation and its mark, and
      removes the distrust; a policy marks; the loss of the reporting process removes time and
      generation mark; a restart brings the distrust. Nothing else changes anything. */
  function Retold(r: Report, accepted: bool, gone: bool, e: Event): Report {
    match e
    case Observe(obs, env) =>
      if !accepted then r
      else if env.deviceGeneration > r.generation
      then Report(obs.worker, obs.workerBootId, obs.timestamp, env.deviceGeneration, true, r.newPolicy, false)
      else Report(obs.worker, obs.workerBootId, obs.timestamp, r.generation, r.newGeneration, r.newPolicy, false)
    case InvalidateWorker(worker, boot) =>
      if gone && r.worker == worker && r.boot == boot then r.(at := 0, newGeneration := false) else r
    case InstallPolicy(_) => r.(newPolicy := true)
    case Restart => r.(distrusted := true)
    case _ => r
  }

  /** The event ends the worker process that its worker is registered with. */
  predicate EndsProcess(s: Store, e: Event) {
    e.InvalidateWorker? && IsWorkerCurrent(s, e.worker, e.boot)
  }

  ghost function LastReport(s: Store, trace: Trace, x: Id): Report
    decreases |trace|
  {
    if trace == [] then UNREPORTED
    else
      var init, e := trace[..|trace| - 1], trace[|trace| - 1].event;
      if x !in Run(s, init).devices then UNREPORTED
      else Retold(LastReport(s, init, x), AcceptedFor(Run(s, init), e, x), EndsProcess(Run(s, init), e), e)
  }

  lemma ReportStepwise(s: Store, d: Device, e: Event, now: Timestamp)
    ensures ReportOn(DeviceAfter(s, d, e, now)) ==
      Retold(ReportOn(d), AcceptedFor(s, e, d.id), EndsProcess(s, e), e)
  {
    hide Reassessed, Judge, MergeDimensions;
    ReassessKeepsEvidence(Landed(s, d, e, now), ContextOf(s, now));
    if e.Revalidate? {
      RevalidationKeepsRecords(d, e.record, ContextOf(s, now));
    }
  }

  lemma {:induction false} ReportIsLast(s: Store, trace: Trace, x: Id)
    requires IsInitial(s) && Admissible(s, trace) && x in Run(s, trace).devices
    ensures ReportOn(Run(s, trace).devices[x]) == LastReport(s, trace, x)
    decreases |trace|
  {
    hide Step, DeviceAfter, Sound, AcceptedFor, Retold, EndsProcess, ReportOn;
    if trace != [] {
      var init, last := trace[..|trace| - 1], trace[|trace| - 1];
      if x in Run(s, init).devices {
        ReportIsLast(s, init, x);
        LastStep(s, trace, x);
        ReportStepwise(Run(s, init), Run(s, init).devices[x], last.event, last.now);
      } else {
        NewDevice(s, trace, x);
        Unreported(Run(s, trace).devices[x], x);
      }
    }
  }

  lemma Unreported(d: Device, x: Id)
    requires exists uuid, node, now :: d == FreshDevice(x, uuid, node, now)
    ensures ReportOn(d) == UNREPORTED
  {
  }

  // ---- One accepted observation ----

  ghost predicate IsLastOfKind(ds: seq<HealthDimension>, i: nat)
    requires i < |ds|
  {
    forall j :: i < j < |ds| ==> ds[j].kind != ds[i].kind
  }

  ghost predicate Reports(ds: seq<HealthDimension>, k: DimensionKind) {
    exists i :: 0 <= i < |ds| && ds[i].kind == k
  }

  /** Every kind in the report has its last entry, every other kind the reading it had. */
  ghost predicate TakesIn(before: Dimensions, ds: seq<HealthDimension>, after: Dimensions) {
    && (forall i :: 0 <= i < |ds| && IsLastOfKind(ds, i) ==> ds[i].kind in after && after[ds[i].kind] == ds[i])
    && (forall k: DimensionKind :: !Reports(ds, k) ==> (k in after <==> k in before))
    && (forall k: DimensionKind :: !Reports(ds, k) && k in before ==> after[k] == before[k])
  }

  lemma MergeTakesIn(m: Dimensions, ds: seq<HealthDimension>)
    ensures TakesIn(m, ds, MergeDimensions(m, ds))
  {
    hide MergeDimensions, LastOf;
    forall i | 0 <= i < |ds| && IsLastOfKind(ds, i)
      ensures ds[i].kind in MergeDimensions(m, ds) && MergeDimensions(m, ds)[ds[i].kind] == ds[i]
    {
      LastOfIsLast(ds, ds[i].kind);
      MergedReading(m, ds, ds[i].kind);
    }
    forall k: DimensionKind | !Reports(ds, k)
      ensures k in MergeDimensions(m, ds) <==> k in m
      ensures k in m ==> MergeDimensions(m, ds)[k] == m[k]
    {
      LastOfIsLast(ds, k);
      MergedReading(m, ds, k);
    }
  }

  lemma AcceptedMerges(s: Store, d: Device, e: Event, now: Timestamp)
    requires AcceptedFor(s, e, d.id)
    ensures DeviceAfter(s, d, e, now).evidence.dimensions == MergeDimensions(d.evidence.dimensions, e.obs.dimensions)
    ensures DeviceAfter(s, d, e, now).evidence.recentEvidence == d.evidence.recentEvidence
  {
    hide Reassessed, Judge, MergeDimensions;
    ReassessKeepsEvidence(Landed(s, d, e, now), ContextOf(s, now));
  }

  /** An accepted observation, in full: its readings are taken in, and it is on record with its
      reporter and its time, trusted again, the generation raised and marked when it is new. */
  lemma ObservationLands(s: Store, obs: Observation, env: Envelope, now: Timestamp)
    requires Identified(s) && Judge(s, obs, env) == Accepted
    ensures obs.accelerator in s.devices && obs.accelerator in Step(s, Observe(obs, env), now).devices
    ensures var d, r := s.devices[obs.accelerator], Step(s, Observe(obs, env), now).devices[obs.accelerator];
      && TakesIn(d.evidence.dimensions, obs.dimensions, r.evidence.dimensions)
      && r.evidence.recentEvidence == d.evidence.recentEvidence
      && env.deviceGeneration >= d.evidence.generation
      && ReportOn(r) == Report(obs.worker, obs.workerBootId, obs.timestamp, env.deviceGeneration,
           d.evidence.deviceGenerationChanged || env.deviceGeneration > d.evidence.generation,
           d.evidence.policyGenerationChanged, false)
  {
    hide Step, DeviceAfter, MergeDimensions, TakesIn;
    var x, e := obs.accelerator, Observe(obs, env);
    DevicesStep(s, e, now);
    ReportStepwise(s, s.devices[x], e, now);
    AcceptedMerges(s, s.devices[x], e, now);
    MergeTakesIn(s.devices[x].evidence.dimensions, obs.dimensions);
  }

  // ---- Identity ----

  /** The registration that brought the device in, and whether it has been lost since. */
  ghost predicate RegisteredAt(s: Store, trace: Trace, i: nat, x: Id, d: Device) {
    && i < |trace|
    && Registers(Run(s, trace[..i]), trace[i].event) && NewId(Run(s, trace[..i]), trace[i].event.uuid) == x
    && d.identity == Identity(trace[i].event.uuid, trace[i].event.node, trace[i].now)
    && (d.care.present <==> forall j :: i < j < |trace| ==> !LosesDevice(trace[j].event, x))
  }

  predicate LosesDevice(e: Event, x: Id) {
    e.MarkLost? && e.id == x
  }

  lemma PresenceStep(s: Store, d: Device, e: Event, now: Timestamp)
    ensures DeviceAfter(s, d, e, now).care.present == (d.care.present && !LosesDevice(e, d.id))
  {
    hide Reassessed, Judge, MergeDimensions;
    ReassessKeepsEvidence(Landed(s, d, e, now), ContextOf(s, now));
  }

  lemma RegisteredEarlier(s: Store, trace: Trace, i: nat, x: Id, d: Device, d': Device)
    requires trace != [] && RegisteredAt(s, trace[..|trace| - 1], i, x, d)
    requires d'.identity == d.identity
    requires d'.care.present == (d.care.present && !LosesDevice(trace[|trace| - 1].event, x))
    ensures RegisteredAt(s, trace, i, x, d')
  {
    hide Run, Registers, LosesDevice, NewId;
    var init := trace[..|trace| - 1];
    assert init[..i] == trace[..i];
    assert forall j :: 0 <= j < |init| ==> init[j] == trace[j];
    if d'.care.present {
      forall j | i < j < |trace| ensures !LosesDevice(trace[j].event, x) {
        if j < |init| {
          assert !LosesDevice(init[j].event, x);
        }
      }
    }
  }

  /** Every device carries the uuid, node and time of the one event that registered it, and is
      present until it is marked lost. */
  lemma {:induction false} IdentityIsRegistered(s: Store, trace: Trace, x: Id)
    requires IsInitial(s) && Admissible(s, trace) && x in Run(s, trace).devices
    ensures exists i :: RegisteredAt(s, trace, i, x, Run(s, trace).devices[x])
    decreases |trace|
  {
    hide Step, DeviceAfter, Sound, RegisteredAt, FreshDevice;
    if trace != [] {
      var init, last := trace[..|trace| - 1], trace[|trace| - 1];
      var before := Run(s, init);
      if x in before.devices {
        IdentityIsRegistered(s, init, x);
        var i :| RegisteredAt(s, init, i, x, before.devices[x]);
        LastStep(s, trace, x);
        StepKeepsIdentity(before, before.devices[x], last.event, last.now);
        PresenceStep(before, before.devices[x], last.event, last.now);
        RegisteredEarlier(s, trace, i, x, before.devices[x], Run(s, trace).devices[x]);
      } else {
        DevicesStep(before, last.event, last.now);
        RegisteredNow(s, trace, x);
      }
    }
  }

  lemma RegisteredNow(s: Store, trace: Trace, x: Id)
    requires trace != []
    requires var before, last := Run(s, trace[..|trace| - 1]), trace[|trace| - 1];
      Registers(before, last.event) && NewId(before, last.event.uuid) == x
    ensures var last := trace[|trace| - 1];
      RegisteredAt(s, trace, |trace| - 1, x, FreshDevice(x, last.event.uuid, last.event.node, last.now))
  {
    hide Run, Registers, NewId;
  }

  // ---- What a caller is shown ----

  /** A snapshot taken after a run shows what the events tell: the last report, the last reading of
      each kind, the open ones of all faults recorded, every validation with the greatest depth
      passed, the state the log ends in, and the rest as the device holds it. */
  lemma SnapshotTells(s: Store, trace: Trace, x: Id)
    requires IsInitial(s) && Admissible(s, trace) && x in Run(s, trace).devices
    ensures var sn, r := SnapshotOf(Run(s, trace).devices[x]), LastReport(s, trace, x);
      && sn.accelerator == x
      && Identity(sn.uuid, sn.node, Run(s, trace).devices[x].identity.firstSeen) == Run(s, trace).devices[x].identity
      && sn.lastWorker == r.worker && sn.lastWorkerBootId == r.boot && sn.lastObservation == r.at
      && sn.generation == r.generation && sn.deviceGenerationChanged == r.newGeneration
      && (forall k: DimensionKind :: LastReading(s, trace, x, k) ==
            if k in sn.dimensions then Some(sn.dimensions[k]) else None)
      && sn.openFaults == OpenOnly(FaultsRecorded(s, trace, x))
      && sn.faultCount == |FaultsRecorded(s, trace, x)| % UINT32
      && sn.validations == ValidationsRecorded(s, trace, x)
      && sn.highestValidation == DeepestPass(ValidationsRecorded(s, trace, x))
      && sn.state == StateBefore(sn.changes, |sn.changes|)
      && Health(sn.state, 1 + |sn.changes|, |sn.changes|, sn.changes) == Run(s, trace).devices[x].health
      && Judgement(sn.readiness, sn.latestAssessment) == Run(s, trace).devices[x].judgement
      && sn.quarantine == Run(s, trace).devices[x].care.quarantine
      && sn.recovery == Run(s, trace).devices[x].care.recovery
  {
    hide Run, LastReading, LastReport, FaultsRecorded, ValidationsRecorded, OpenOnly, DeepestPass, Settled, Identified,
      Admissible;
    ReachableInvariant(s, trace);
    ReportIsLast(s, trace, x);
    RecordsAreTold(s, trace, x);
    forall k: DimensionKind ensures ReadingOf(Run(s, trace).devices[x], k) == LastReading(s, trace, x, k) {
      ReadingIsLast(s, trace, x, k);
    }
    KeyIsId(s, trace, x);
  }

  lemma KeyIsId(s: Store, trace: Trace, x: Id)
    requires IsInitial(s) && Admissible(s, trace) && x in Run(s, trace).devices
    ensures Run(s, trace).devices[x].id == x
  {
    hide Run, Admissible, Sound;
    ReachableInvariant(s, trace);
  }
}
