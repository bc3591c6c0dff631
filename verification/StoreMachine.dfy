/** The health store as a state machine: every public operation is one atomic step. */
module StoreMachine {
  import opened Enums
  import opened Records
  import opened StateMachine
  import opened Readiness
  import opened FaultHistory
  import opened Assessment
  import opened Devices

  /** Store contents. An index of buckets is the relation it denotes, so that an absent
      bucket and an empty one are the same. */
  datatype Store = Store(
    policy: HealthPolicy,
    policyGeneration: Counter,
    coordinatorEpoch: U64,
    nextDevice: U64,
    nextQuarantine: U64,
    nextRecovery: U64,
    workers: map<Id, Id>,
    fence: map<(Id, Id), Generation>,
    devices: map<Id, Device>,
    uuidIndex: map<Id, Id>,
    stateIndex: set<(HealthState, Id)>,
    readinessIndex: set<(ReadinessState, Id)>,
    faultIndex: set<(FaultType, Id)>,
    quarantineIndex: set<Id>,
    staleIndex: set<Id>,
    globalFaults: seq<Fault>,
    globalChanges: seq<HealthChange>,
    floats: FloatTable)

  /** One event per lock acquisition: `setPolicy` is InstallPolicy followed, after the lock
      has been dropped, by ReassessAll. Restart is saving the store and loading the file
      into a new process. */
  datatype Event =
    | InstallPolicy(policy: HealthPolicy)
    | ReassessAll
    | Reassess(id: Id)
    | RollEpoch
    | SetEpoch(epoch: U64)
    | RegisterWorker(worker: Id, boot: Id)
    | InvalidateWorker(worker: Id, boot: Id)
    | RegisterDevice(uuid: Id, node: Id)
    | MarkLost(id: Id, reason: string)
    | Observe(obs: Observation, env: Envelope)
    | RecordFault(fault: Fault)
    | RecordValidation(record: ValidationRecord)
    | BeginQuarantine(id: Id, authority: QuarantineAuthority, reason: string, triggeredBy: string)
    | ClearQuarantine(id: Id)
    | BeginRecovery(id: Id)
    | Revalidate(id: Id, record: ValidationRecord)
    | Restart

  function Successor(n: U64): U64 {
    (n + 1) % UINT64
  }

  function Initial(policy: HealthPolicy, epoch: U64, floats: FloatTable): Store {
    Store(policy, 1, epoch, 1, 1, 1, map[], map[], map[], map[], {}, {}, {}, {}, {}, [], [], floats)
  }

  function ContextOf(s: Store, now: Timestamp): Context {
    Context(s.policy, s.policyGeneration, now, s.floats)
  }

  // ---- Fencing ----

  datatype Verdict =
    | Accepted | UnknownDevice | StaleEpoch | UnregisteredWorker | StaleBoot
    | StaleObservation | StaleDeviceGeneration

  predicate IsWorkerCurrent(s: Store, worker: Id, boot: Id) {
    worker in s.workers && s.workers[worker] == boot
  }

  function FenceKey(env: Envelope): (Id, Id) {
    (env.workerId, env.workerBootId)
  }

  function Judge(s: Store, obs: Observation, env: Envelope): Verdict {
    if obs.accelerator !in s.devices then UnknownDevice
    else if env.coordinatorEpoch != s.coordinatorEpoch then StaleEpoch
    else if env.workerId !in s.workers then UnregisteredWorker
    else if s.workers[env.workerId] != env.workerBootId then StaleBoot
    else if FenceKey(env) in s.fence && env.observationGeneration <= s.fence[FenceKey(env)] then StaleObservation
    else if env.deviceGeneration < s.devices[obs.accelerator].evidence.generation then StaleDeviceGeneration
    else Accepted
  }

  // ---- What an event does to a device already tracked ----

  predicate LastSeenBy(d: Device, worker: Id, boot: Id) {
    d.evidence.lastWorker == worker && d.evidence.lastWorkerBootId == boot
  }

  /** A device is left alone, changed silently, or changed and then reassessed. */
  datatype Touch = Untouched | Quiet(d: Device) | Judged(d: Device)

  function Touched(s: Store, d: Device, e: Event, now: Timestamp): Touch {
    var c := ContextOf(s, now);
    match e
    case InstallPolicy(_) => Quiet(PolicyFlagged(d))
    case ReassessAll => Judged(d)
    case Reassess(id) => if id == d.id then Judged(d) else Untouched
    case InvalidateWorker(w, b) =>
      if IsWorkerCurrent(s, w, b) && LastSeenBy(d, w, b)
      then Judged(EvidenceStripped(d)) else Untouched
    case MarkLost(id, reason) => if id == d.id then Quiet(MarkedLost(d, reason, c)) else Untouched
    case Observe(obs, env) =>
      if obs.accelerator == d.id && Judge(s, obs, env) == Accepted then Judged(Observed(d, obs, env)) else Untouched
    case RecordFault(f) =>
      if f.accelerator == d.id && !HasId(d.history.faults, f.id) then Judged(WithFault(d, f)) else Untouched
    case RecordValidation(v) =>
      if v.accelerator == d.id then Judged(WithValidation(d, v)) else Untouched
    case BeginQuarantine(id, authority, reason, trigger) =>
      if id != d.id || QuarantineActive(d) then Untouched
      else
        var q := WithQuarantine(d, s.nextQuarantine, authority, reason, trigger, c);
        if CanQuarantine(d) then Judged(MovedToQuarantine(q, reason, c)) else Quiet(q)
    case ClearQuarantine(id) => if id == d.id then Judged(QuarantineCleared(d)) else Untouched
    case BeginRecovery(id) =>
      if id == d.id && !d.care.inRecovery && CanTransition(d.health.state, Recovering)
      then Judged(RecoveryBegun(d, s.nextRecovery, c)) else Untouched
    case Revalidate(id, v) => if id == d.id then Judged(Revalidated(d, v, c)) else Untouched
    case Restart => Judged(Distrusted(d))
    case _ => Untouched
  }

  predicate IsReassessed(s: Store, d: Device, e: Event, now: Timestamp) {
    Touched(s, d, e, now).Judged?
  }

  /** The device as the event leaves it, before any closing reassessment. */
  function Landed(s: Store, d: Device, e: Event, now: Timestamp): Device {
    var t := Touched(s, d, e, now);
    if t.Untouched? then d else t.d
  }

  function DeviceAfter(s: Store, d: Device, e: Event, now: Timestamp): Device {
    if IsReassessed(s, d, e, now) then Reassessed(Landed(s, d, e, now), ContextOf(s, now))
    else Landed(s, d, e, now)
  }

  // ---- Registration ----

  /** A non-zero uuid is its own device id; uuid zero draws from the counter. */
  function NewId(s: Store, uuid: Id): Id {
    if uuid != 0 then uuid else s.nextDevice
  }

  predicate Registers(s: Store, e: Event) {
    e.RegisterDevice? && e.uuid !in s.uuidIndex
  }

  /** Registration would overwrite a device that is already tracked. */
  predicate Collides(s: Store, e: Event) {
    Registers(s, e) && NewId(s, e.uuid) in s.devices
  }

  // ---- Enumeration in key order ----

  ghost predicate IsSorted(ks: seq<Id>) {
    forall i, j :: 0 <= i < j < |ks| ==> ks[i] < ks[j]
  }

  ghost predicate IsLeast(x: Id, s: set<Id>) {
    x in s && forall y :: y in s ==> x <= y
  }

  lemma {:induction false} LeastExists(s: set<Id>)
    requires s != {}
    ensures exists x :: IsLeast(x, s)
    decreases |s|
  {
    var z :| z in s;
    var rest := s - {z};
    assert forall y :: y in s ==> y == z || y in rest;
    if rest == {} {
      assert IsLeast(z, s);
    } else {
      LeastExists(rest);
      var x :| IsLeast(x, rest);
      assert IsLeast(if z < x then z else x, s);
    }
  }

  ghost function Least(s: set<Id>): (x: Id)
    requires s != {}
    ensures IsLeast(x, s)
  {
    LeastExists(s);
    var x :| IsLeast(x, s);
    x
  }

  ghost function Sorted(s: set<Id>): (ks: seq<Id>)
    ensures IsSorted(ks)
    ensures forall x :: x in ks <==> x in s
    ensures |ks| == |s|
  {
    if s == {} then [] else [Least(s)] + Sorted(s - {Least(s)})
  }

  // ---- The step ----

  function Kept(s: Store, e: Event, now: Timestamp): map<Id, Device> {
    map x | x in s.devices :: DeviceAfter(s, s.devices[x], e, now)
  }

  function DevicesAfter(s: Store, e: Event, now: Timestamp): map<Id, Device> {
    if Registers(s, e)
    then Kept(s, e, now)[NewId(s, e.uuid) := FreshDevice(NewId(s, e.uuid), e.uuid, e.node, now)]
    else Kept(s, e, now)
  }

  /** The devices a closing reassessment looked at. */
  function Refreshed(s: Store, e: Event, now: Timestamp): set<Id> {
    set x | x in s.devices && IsReassessed(s, s.devices[x], e, now)
  }

  /** The devices that go through the index update, and so move between buckets. */
  function Reindexed(s: Store, e: Event, now: Timestamp): set<Id> {
    Refreshed(s, e, now) + (if Registers(s, e) then {NewId(s, e.uuid)} else {})
  }

  function Moving<B(==)>(index: set<(B, Id)>, moved: set<Id>, bucket: map<Id, B>): set<(B, Id)>
    requires moved <= bucket.Keys
  {
    (set p | p in index && p.1 !in moved) + (set x | x in moved :: (bucket[x], x))
  }

  function StatesOf(devices: map<Id, Device>): map<Id, HealthState> {
    map x | x in devices :: devices[x].health.state
  }

  function ReadinessesOf(devices: map<Id, Device>): map<Id, ReadinessState> {
    map x | x in devices :: devices[x].judgement.readiness
  }

  function StateIndexAfter(s: Store, e: Event, now: Timestamp): set<(HealthState, Id)> {
    Moving(if e.Restart? then {} else s.stateIndex, Reindexed(s, e, now), StatesOf(DevicesAfter(s, e, now)))
  }

  function ReadinessIndexAfter(s: Store, e: Event, now: Timestamp): set<(ReadinessState, Id)> {
    Moving(if e.Restart? then {} else s.readinessIndex, Reindexed(s, e, now), ReadinessesOf(DevicesAfter(s, e, now)))
  }

  predicate RecordsFault(s: Store, f: Fault) {
    f.accelerator in s.devices && !HasId(s.devices[f.accelerator].history.faults, f.id)
  }

  /** The fault index a load rebuilds: open faults only. */
  function OpenFaultIndex(devices: map<Id, Device>): set<(FaultType, Id)> {
    set x, i | x in devices && 0 <= i < |devices[x].history.faults| && devices[x].history.faults[i].resolution == Open
      :: (devices[x].history.faults[i].kind, x)
  }

  function FaultIndexAfter(s: Store, e: Event): set<(FaultType, Id)> {
    if e.Restart? then OpenFaultIndex(s.devices)
    else if e.RecordFault? && RecordsFault(s, e.fault) then s.faultIndex + {(e.fault.kind, e.fault.accelerator)}
    else s.faultIndex
  }

  predicate SetsQuarantine(s: Store, e: Event) {
    e.BeginQuarantine? && e.id in s.devices && !QuarantineActive(s.devices[e.id])
  }

  function QuarantineIndexAfter(s: Store, e: Event): set<Id> {
    if e.Restart? then set x | x in s.devices && QuarantineActive(s.devices[x])
    else if SetsQuarantine(s, e) then s.quarantineIndex + {e.id}
    else if e.ClearQuarantine? && e.id in s.devices && s.devices[e.id].care.quarantine.Some?
    then s.quarantineIndex - {e.id}
    else s.quarantineIndex
  }

  predicate HasOldEvidence(d: Device, c: Context) {
    !IsFresh(DeviceFreshness(d, c))
  }

  function StaleIndexAfter(s: Store, e: Event, now: Timestamp): set<Id> {
    var after := DevicesAfter(s, e, now);
    var seen := Refreshed(s, e, now);
    ((if e.Restart? then {} else s.staleIndex) - seen)
    + (set x | x in seen && HasOldEvidence(after[x], ContextOf(s, now)))
  }

  /** Log entries that `after` has and `before` had not. */
  function Gained(before: Device, after: Device): seq<HealthChange> {
    if |before.health.changes| <= |after.health.changes| then after.health.changes[|before.health.changes|..] else []
  }

  /** The same, device by device in key order. */
  function NewChanges(ks: seq<Id>, before: map<Id, Device>, after: map<Id, Device>): seq<HealthChange>
    requires forall k :: k in ks ==> k in before && k in after
  {
    if ks == [] then []
    else Gained(before[ks[0]], after[ks[0]]) + NewChanges(ks[1..], before, after)
  }

  lemma {:induction false} NothingGained(ks: seq<Id>, before: map<Id, Device>, after: map<Id, Device>)
    requires forall k :: k in ks ==> k in before && k in after && before[k].health.changes == after[k].health.changes
    ensures NewChanges(ks, before, after) == []
  {
    if ks != [] {
      NothingGained(ks[1..], before, after);
    }
  }

  ghost function GlobalChangesAfter(s: Store, e: Event, now: Timestamp): seq<HealthChange> {
    (if e.Restart? then [] else s.globalChanges) + NewChanges(Sorted(s.devices.Keys), s.devices, Kept(s, e, now))
  }

  function GlobalFaultsAfter(s: Store, e: Event): seq<Fault> {
    if e.Restart? then []
    else if e.RecordFault? && RecordsFault(s, e.fault) then s.globalFaults + [e.fault]
    else s.globalFaults
  }

  ghost function MaxId(s: set<Id>): Id {
    if exists x :: x in s && forall y :: y in s ==> y <= x
    then var x :| x in s && forall y :: y in s ==> y <= x; x else 0
  }

  ghost function NextAfterLoad(s: Store): U64 {
    Successor(MaxId(s.devices.Keys))
  }

  /** The fields that no reassessment writes, after the event. */
  ghost function Framed(s: Store, e: Event): Store {
    s.(policy := if e.InstallPolicy? then e.policy else s.policy,
       policyGeneration := if e.InstallPolicy? then s.policyGeneration + 1 else s.policyGeneration,
       coordinatorEpoch := match e
         case RollEpoch => Successor(s.coordinatorEpoch)
         case SetEpoch(n) => n
         case _ => s.coordinatorEpoch,
       nextDevice := if e.Restart? then NextAfterLoad(s)
                     else if Registers(s, e) && e.uuid == 0 then Successor(s.nextDevice) else s.nextDevice,
       nextQuarantine := if e.Restart? then NextAfterLoad(s)
                         else if SetsQuarantine(s, e) then Successor(s.nextQuarantine) else s.nextQuarantine,
       nextRecovery := if e.Restart? then NextAfterLoad(s)
                       else if BeginsRecovery(s, e) then Successor(s.nextRecovery) else s.nextRecovery,
       workers := match e
         case RegisterWorker(w, b) => s.workers[w := b]
         case InvalidateWorker(w, b) => if IsWorkerCurrent(s, w, b) then s.workers - {w} else s.workers
         case Restart => map[]
         case _ => s.workers,
       fence := match e
         case Observe(obs, env) =>
           if Judge(s, obs, env) == Accepted then s.fence[FenceKey(env) := env.observationGeneration] else s.fence
         case Restart => map[]
         case _ => s.fence,
       uuidIndex := if Registers(s, e) then s.uuidIndex[e.uuid := NewId(s, e.uuid)] else s.uuidIndex,
       faultIndex := FaultIndexAfter(s, e),
       quarantineIndex := QuarantineIndexAfter(s, e),
       globalFaults := GlobalFaultsAfter(s, e))
  }

  ghost function Step(s: Store, e: Event, now: Timestamp): Store {
    Framed(s, e).(
      devices := DevicesAfter(s, e, now),
      stateIndex := StateIndexAfter(s, e, now),
      readinessIndex := ReadinessIndexAfter(s, e, now),
      staleIndex := StaleIndexAfter(s, e, now),
      globalChanges := GlobalChangesAfter(s, e, now))
  }

  predicate BeginsRecovery(s: Store, e: Event) {
    && e.BeginRecovery?
    && e.id in s.devices
    && !s.devices[e.id].care.inRecovery
    && CanTransition(s.devices[e.id].health.state, Recovering)
  }

  // ---- Runs ----

  /** An event together with the clock reading of its step. */
  datatype Timed = Timed(event: Event, now: Timestamp)

  type Trace = seq<Timed>

  ghost function Run(s: Store, trace: Trace): Store
    decreases |trace|
  {
    if trace == [] then s
    else Step(Run(s, trace[..|trace| - 1]), trace[|trace| - 1].event, trace[|trace| - 1].now)
  }
}
