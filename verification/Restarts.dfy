/** Loading a file into a store, and why saving and loading into a new process is the
    Restart step of the store machine. */
module Restarts {
  import opened Enums
  import opened Records
  import opened Devices
  import opened StoreMachine
  import opened DeviceInvariant
  import opened Runs
  import opened Guarantees
  import opened Trust
  import opened DeviceCodec
  import opened Wire
  import opened RecordCodecs
  import opened Persistence
  import opened SaveableRuns

  // ---- What a decoded image makes of a store ----

  function TableOf(ds: seq<Device>): map<Id, Device> {
    if ds == [] then map[]
    else TableOf(ds[..|ds| - 1])[ds[|ds| - 1].id := ds[|ds| - 1]]
  }

  function UuidsOf(ds: seq<Device>): map<Id, Id> {
    if ds == [] then map[]
    else UuidsOf(ds[..|ds| - 1])[ds[|ds| - 1].identity.uuid := ds[|ds| - 1].id]
  }

  function StateBuckets(devices: map<Id, Device>): set<(HealthState, Id)> {
    set x | x in devices :: (devices[x].health.state, x)
  }

  function ReadinessBuckets(devices: map<Id, Device>): set<(ReadinessState, Id)> {
    set x | x in devices :: (devices[x].judgement.readiness, x)
  }

  function QuarantinedIn(devices: map<Id, Device>): set<Id> {
    set x | x in devices && QuarantineActive(devices[x])
  }

  /** The decoder replaces what the file holds, rebuilds the indexes by a scan, restarts the
      id counters after the largest device id, and keeps the rest of the store. */
  ghost function Restored(out: Store, sv: Saved): Store {
    var devices := TableOf(sv.devices);
    var next := Successor(MaxId(devices.Keys));
    out.(policy := sv.policy, policyGeneration := sv.policyGeneration, coordinatorEpoch := sv.epoch,
         nextDevice := next, nextQuarantine := next, nextRecovery := next,
         devices := devices, uuidIndex := UuidsOf(sv.devices),
         stateIndex := StateBuckets(devices), readinessIndex := ReadinessBuckets(devices),
         faultIndex := OpenFaultIndex(devices), quarantineIndex := QuarantinedIn(devices),
         staleIndex := {}, globalFaults := [], globalChanges := [])
  }

  function DistrustedAll(devices: map<Id, Device>): map<Id, Device> {
    map x | x in devices :: Distrusted(devices[x])
  }

  /** A load is a decode, after which every device must be revalidated and is reassessed. */
  ghost function Load(out: Store, file: seq<byte>, now: Timestamp): Option<Store> {
    var sv := Decode(file);
    if sv.None? then None
    else
      var t := Restored(out, sv.value);
      Some(Step(t.(devices := DistrustedAll(t.devices)), ReassessAll, now))
  }

  // ---- The tables survive ----

  predicate DistinctIds(ds: seq<Device>) {
    forall i, j :: 0 <= i < j < |ds| ==> ds[i].id != ds[j].id
  }

  lemma {:induction false} TableEntries(ds: seq<Device>)
    requires DistinctIds(ds)
    ensures forall i :: 0 <= i < |ds| ==> ds[i].id in TableOf(ds) && TableOf(ds)[ds[i].id] == ds[i]
    ensures forall x :: x in TableOf(ds) ==> exists i :: 0 <= i < |ds| && ds[i].id == x
  {
    if ds != [] {
      var init := ds[..|ds| - 1];
      assert forall i :: 0 <= i < |init| ==> init[i] == ds[i];
      TableEntries(init);
    }
  }

  lemma {:induction false} UuidEntries(ds: seq<Device>)
    requires DistinctUuids(ds)
    ensures forall i :: 0 <= i < |ds| ==>
      ds[i].identity.uuid in UuidsOf(ds) && UuidsOf(ds)[ds[i].identity.uuid] == ds[i].id
    ensures forall u :: u in UuidsOf(ds) ==> exists i :: 0 <= i < |ds| && ds[i].identity.uuid == u
  {
    if ds != [] {
      var init := ds[..|ds| - 1];
      assert forall i :: 0 <= i < |init| ==> init[i] == ds[i];
      UuidEntries(init);
    }
  }

  /** Element `i` of the list is the device of the `i`-th key. */
  lemma ListEntry(s: Store, i: nat)
    requires Identified(s) && i < |DeviceList(s.devices)|
    ensures var k := Sorted(s.devices.Keys)[i];
      k in s.devices && DeviceList(s.devices)[i] == Persisted(s.devices[k]) && DeviceList(s.devices)[i].id == k
  {
    hide Sorted;
    var ks := Sorted(s.devices.Keys);
    assert ks[i] in ks;
  }

  lemma KeyIndex(s: Store, x: Id) returns (i: nat)
    requires x in s.devices
    ensures i < |Sorted(s.devices.Keys)| && Sorted(s.devices.Keys)[i] == x
  {
    hide Sorted;
    var ks := Sorted(s.devices.Keys);
    assert x in ks;
    i :| 0 <= i < |ks| && ks[i] == x;
  }

  lemma TableSurvives(s: Store)
    requires Identified(s)
    ensures TableOf(DeviceList(s.devices)).Keys == s.devices.Keys
    ensures forall x :: x in s.devices ==> TableOf(DeviceList(s.devices))[x] == Persisted(s.devices[x])
  {
    hide Sorted, Persisted, TableOf, Identified, DeviceList;
    var ds, t := DeviceList(s.devices), TableOf(DeviceList(s.devices));
    DistinctKeys(s);
    TableEntries(ds);
    forall x | x in s.devices ensures x in t && t[x] == Persisted(s.devices[x]) {
      var i := KeyIndex(s, x);
      ListLength(s);
      ListEntry(s, i);
    }
    forall x | x in t ensures x in s.devices {
      var i :| 0 <= i < |ds| && ds[i].id == x;
      ListEntry(s, i);
    }
  }

  lemma ListLength(s: Store)
    ensures |DeviceList(s.devices)| == |Sorted(s.devices.Keys)|
  {
  }

  lemma DistinctKeys(s: Store)
    requires Identified(s)
    ensures DistinctIds(DeviceList(s.devices))
  {
    hide Sorted, Identified, DeviceList, Persisted;
    var ds := DeviceList(s.devices);
    ListLength(s);
    forall i, j | 0 <= i < j < |ds| ensures ds[i].id != ds[j].id {
      ListEntry(s, i);
      ListEntry(s, j);
    }
  }

  lemma UuidsSurvive(s: Store)
    requires Identified(s)
    ensures UuidsOf(DeviceList(s.devices)) == s.uuidIndex
  {
    hide Sorted, UuidsOf, DeviceList;
    var ds, u := DeviceList(s.devices), UuidsOf(DeviceList(s.devices));
    UuidsDistinct(s);
    UuidEntries(ds);
    ListLength(s);
    forall v | v in s.uuidIndex ensures v in u && u[v] == s.uuidIndex[v] {
      var i := KeyIndex(s, s.uuidIndex[v]);
      ListEntry(s, i);
    }
    forall v | v in u ensures v in s.uuidIndex {
      var i :| 0 <= i < |ds| && ds[i].identity.uuid == v;
      ListEntry(s, i);
    }
  }

  // ---- The reassessed store is the restarted one ----

  /** The restored, distrusted store, before its reassessment. */
  ghost function Reopened(clean: Store, s: Store): Store {
    var t := Restored(clean, Contents(s));
    t.(devices := DistrustedAll(t.devices))
  }

  lemma ReopenedDevices(clean: Store, s: Store)
    requires Identified(s)
    ensures Reopened(clean, s).devices == DistrustedAll(s.devices)
    ensures Reopened(clean, s).uuidIndex == s.uuidIndex
  {
    hide MaxId, TableOf, UuidsOf, DeviceList, Identified, StateBuckets, ReadinessBuckets, QuarantinedIn, OpenFaultIndex;
    TableSurvives(s);
    UuidsSurvive(s);
  }

  lemma SameOpenFaults(m: map<Id, Device>, n: map<Id, Device>)
    requires m.Keys == n.Keys && forall x :: x in m ==> m[x].history == n[x].history
    ensures OpenFaultIndex(m) == OpenFaultIndex(n)
  {
    assert forall x :: x in m ==> m[x].history.faults == n[x].history.faults;
  }

  lemma SameQuarantines(m: map<Id, Device>, n: map<Id, Device>)
    requires m.Keys == n.Keys && forall x :: x in m ==> m[x].care == n[x].care
    ensures QuarantinedIn(m) == QuarantinedIn(n)
  {
  }

  lemma ReopenedIndexes(clean: Store, s: Store)
    requires Identified(s)
    ensures Reopened(clean, s).faultIndex == OpenFaultIndex(s.devices)
    ensures Reopened(clean, s).quarantineIndex == QuarantinedIn(s.devices)
    ensures Reopened(clean, s).nextDevice == NextAfterLoad(s)
  {
    hide MaxId, TableOf, UuidsOf, DeviceList, Identified, StateBuckets, ReadinessBuckets, QuarantinedIn, OpenFaultIndex;
    TableSurvives(s);
    var t := TableOf(DeviceList(s.devices));
    SameOpenFaults(t, s.devices);
    SameQuarantines(t, s.devices);
  }

  /** Every device of a reopened store, and every bucket entry, belongs to the saved table. */
  lemma ReopenedBuckets(clean: Store, s: Store)
    requires Identified(s)
    ensures forall p :: p in Reopened(clean, s).stateIndex ==> p.1 in s.devices
    ensures forall p :: p in Reopened(clean, s).readinessIndex ==> p.1 in s.devices
  {
    hide MaxId, TableOf, UuidsOf, DeviceList, Identified, QuarantinedIn, OpenFaultIndex;
    TableSurvives(s);
  }

  lemma ReopenedContext(clean: Store, s: Store, now: Timestamp)
    requires clean.floats == s.floats
    ensures ContextOf(Reopened(clean, s), now) == ContextOf(s, now)
  {
    hide MaxId, TableOf, UuidsOf, DeviceList, StateBuckets, ReadinessBuckets, QuarantinedIn, OpenFaultIndex;
  }

  lemma ReassessAllJudges(s: Store, d: Device, now: Timestamp)
    ensures IsReassessed(s, d, ReassessAll, now) && IsReassessed(s, d, Restart, now)
    ensures DeviceAfter(s, d, ReassessAll, now) == Reassessed(d, ContextOf(s, now))
    ensures DeviceAfter(s, d, Restart, now) == Reassessed(Distrusted(d), ContextOf(s, now))
  {
    hide Reassessed, Distrusted;
  }

  lemma SameReassessment(clean: Store, s: Store, now: Timestamp)
    requires Identified(s) && clean.floats == s.floats
    ensures Kept(Reopened(clean, s), ReassessAll, now) == Kept(s, Restart, now)
    ensures DevicesAfter(Reopened(clean, s), ReassessAll, now) == Kept(s, Restart, now)
    ensures DevicesAfter(s, Restart, now) == Kept(s, Restart, now)
  {
    hide Reassessed, Distrusted, DeviceAfter, Reopened, Identified, ContextOf;
    ReopenedDevices(clean, s);
    ReopenedContext(clean, s, now);
    var t := Reopened(clean, s);
    forall x | x in s.devices
      ensures DeviceAfter(t, t.devices[x], ReassessAll, now) == DeviceAfter(s, s.devices[x], Restart, now)
    {
      ReassessAllJudges(t, t.devices[x], now);
      ReassessAllJudges(s, s.devices[x], now);
    }
  }

  lemma AllRefreshed(s: Store, e: Event, now: Timestamp)
    requires e.ReassessAll? || e.Restart?
    ensures Refreshed(s, e, now) == s.devices.Keys && Reindexed(s, e, now) == s.devices.Keys
  {
    hide IsReassessed, DeviceAfter;
    forall x | x in s.devices ensures IsReassessed(s, s.devices[x], e, now) {
      ReassessAllJudges(s, s.devices[x], now);
    }
  }

  lemma SameBuckets(clean: Store, s: Store, now: Timestamp)
    requires Identified(s) && clean.floats == s.floats
    ensures StateIndexAfter(Reopened(clean, s), ReassessAll, now) == StateIndexAfter(s, Restart, now)
    ensures ReadinessIndexAfter(Reopened(clean, s), ReassessAll, now) == ReadinessIndexAfter(s, Restart, now)
  {
    hide DevicesAfter, Identified, Reopened, Kept, Refreshed, Reindexed, StatesOf, ReadinessesOf;
    SameReassessment(clean, s, now);
    ReopenedDevices(clean, s);
    ReopenedBuckets(clean, s);
    AllRefreshed(Reopened(clean, s), ReassessAll, now);
    AllRefreshed(s, Restart, now);
  }

  lemma SameStale(clean: Store, s: Store, now: Timestamp)
    requires Identified(s) && clean.floats == s.floats
    ensures StaleIndexAfter(Reopened(clean, s), ReassessAll, now) == StaleIndexAfter(s, Restart, now)
  {
    hide DevicesAfter, Identified, Kept, Refreshed, Reindexed, HasOldEvidence, MaxId, TableOf, UuidsOf, DeviceList,
      StateBuckets, ReadinessBuckets, QuarantinedIn, OpenFaultIndex, ContextOf;
    SameReassessment(clean, s, now);
    ReopenedDevices(clean, s);
    ReopenedContext(clean, s, now);
    AllRefreshed(Reopened(clean, s), ReassessAll, now);
    AllRefreshed(s, Restart, now);
  }

  lemma {:induction false} GainsAgree(ks: seq<Id>, before: map<Id, Device>, before': map<Id, Device>, after: map<Id,
      Device>)
    requires forall k :: k in ks ==> k in before && k in before' && k in after
    requires forall k :: k in ks ==> before[k].health == before'[k].health
    ensures NewChanges(ks, before, after) == NewChanges(ks, before', after)
  {
    if ks != [] {
      GainsAgree(ks[1..], before, before', after);
    }
  }

  lemma KeptKeys(s: Store, now: Timestamp)
    ensures Kept(s, Restart, now).Keys == s.devices.Keys
    ensures DistrustedAll(s.devices).Keys == s.devices.Keys
    ensures forall x :: x in s.devices ==> DistrustedAll(s.devices)[x].health == s.devices[x].health
  {
    hide DeviceAfter;
  }

  lemma SameGlobalChanges(clean: Store, s: Store, now: Timestamp)
    requires Identified(s) && clean.floats == s.floats
    ensures GlobalChangesAfter(Reopened(clean, s), ReassessAll, now) == GlobalChangesAfter(s, Restart, now)
  {
    hide DevicesAfter, Identified, Kept, Sorted, MaxId, TableOf, UuidsOf, DeviceList, DistrustedAll,
      StateBuckets, ReadinessBuckets, QuarantinedIn, OpenFaultIndex;
    SameReassessment(clean, s, now);
    ReopenedDevices(clean, s);
    KeptKeys(s, now);
    GainsAgree(Sorted(s.devices.Keys), DistrustedAll(s.devices), s.devices, Kept(s, Restart, now));
  }

  /** Reassessing the reopened store is one Restart step. */
  lemma ReopenedSteps(clean: Store, s: Store, now: Timestamp)
    requires Identified(s) && IsInitial(clean) && clean.floats == s.floats
    ensures Step(Reopened(clean, s), ReassessAll, now) == Step(s, Restart, now)
  {
    hide DevicesAfter, StateIndexAfter, ReadinessIndexAfter, StaleIndexAfter, GlobalChangesAfter, Identified, Judge,
      OpenFaultIndex, DeviceList, TableOf, UuidsOf, StateBuckets, ReadinessBuckets, MaxId, Kept;
    SameReassessment(clean, s, now);
    SameBuckets(clean, s, now);
    SameStale(clean, s, now);
    SameGlobalChanges(clean, s, now);
    ReopenedDevices(clean, s);
    ReopenedIndexes(clean, s);
  }

  /** Saving a reachable store and loading the file into a new process takes exactly the
      Restart step; it is refused exactly when some device repeats a validation id, or the
      image outgrows its length field. */
  lemma LoadOfSave(clean: Store, s: Store, now: Timestamp)
    requires Invariant(s) && Saveable(s)
    requires IsInitial(clean) && clean.floats == s.floats
    ensures WithinLimits(Contents(s))
    ensures Load(clean, Encode(Contents(s)), now) ==
      if |Body(Contents(s))| < UINT32 && DistinctRunIds(s) then Some(Step(s, Restart, now)) else None
  {
    hide Encode, Decode, Step, DistinctRunIds, Body, Contents, IsInitial, WithinLimits, Saveable, Identified, Restored;
    SaveRoundTrip(s);
    ReopenedSteps(clean, s, now);
  }

  /** The same for every run of a new store. */
  lemma ReachableSavesLoad(s: Store, trace: Trace, now: Timestamp)
    requires IsInitial(s) && Admissible(s, trace)
    requires Saveable(Run(s, trace)) && DistinctRunIds(Run(s, trace))
    ensures WithinLimits(Contents(Run(s, trace)))
    ensures |Body(Contents(Run(s, trace)))| < UINT32 ==>
      Load(s, Encode(Contents(Run(s, trace))), now) == Some(Run(s, trace + [Timed(Restart, now)]))
  {
    hide Encode, Load, Step, Body, Contents, IsInitial, WithinLimits, Saveable, DistinctRunIds, Invariant;
    ReachableInvariant(s, trace);
    FloatsNeverChange(s, trace);
    LoadOfSave(s, Run(s, trace), now);
    var longer := trace + [Timed(Restart, now)];
    assert longer[..|longer| - 1] == trace;
  }

  /** The trust boundary holds for every file that is accepted, whoever wrote it: each device is
      marked for revalidation, and only DEGRADED ones can come out ready. */
  lemma LoadDistrusts(out: Store, file: seq<byte>, now: Timestamp)
    ensures var loaded := Load(out, file, now);
      loaded.Some? ==> forall x :: x in loaded.value.devices ==>
        loaded.value.devices[x].evidence.requiresRevalidation && AtMostDegraded(loaded.value.devices[x])
  {
    hide Decode, Restored, Step, Reassessed, AtMostDegraded;
    var sv := Decode(file);
    if sv.Some? {
      var r := Restored(out, sv.value);
      var t := r.(devices := DistrustedAll(r.devices));
      StepDevices(t, ReassessAll, now);
      forall x | x in t.devices
        ensures var d := DeviceAfter(t, t.devices[x], ReassessAll, now);
          d.evidence.requiresRevalidation && AtMostDegraded(d)
      {
        ReassessAllJudges(t, t.devices[x], now);
        ReassessKeepsEvidence(t.devices[x], ContextOf(t, now));
        MarksRuleOutHealthy(t.devices[x], ContextOf(t, now));
      }
    }
  }

  /** And told from the events: a modest run ends in a store that can be saved, and that a new
      process loads exactly when no device repeats a validation id and the image is small
      enough for its length field. */
  lemma ModestRunsLoad(s: Store, trace: Trace, now: Timestamp)
    requires IsInitial(s) && Admissible(s, trace) && Modest(trace)
    ensures WithinLimits(Contents(Run(s, trace)))
    ensures Load(s, Encode(Contents(Run(s, trace))), now) ==
      if |Body(Contents(Run(s, trace)))| < UINT32 && DistinctRunIds(Run(s, trace))
      then Some(Run(s, trace + [Timed(Restart, now)])) else None
  {
    hide Encode, Load, Step, Body, Contents, IsInitial, WithinLimits, Saveable, DistinctRunIds, Invariant, Modest;
    ModestRunsAreSaveable(s, trace);
    ReachableInvariant(s, trace);
    FloatsNeverChange(s, trace);
    LoadOfSave(s, Run(s, trace), now);
    RunSnoc(s, trace, Timed(Restart, now));
  }

  /** What a restart from an earlier save forgets. A file saved after `k` steps of a run loads
      as if the run had stopped there: the devices are those then tracked, with the faults and
      validations then recorded, which are the beginnings of what they hold by now. */
  lemma EarlierSaveLoads(s: Store, trace: Trace, k: nat, now: Timestamp)
    requires IsInitial(s) && Admissible(s, trace) && k <= |trace|
    requires Saveable(Run(s, trace[..k]))
    ensures WithinLimits(Contents(Run(s, trace[..k])))
    ensures var saved, t := Run(s, trace[..k]), Load(s, Encode(Contents(Run(s, trace[..k]))), now);
      t.Some? ==>
        && t.value == Run(s, trace[..k] + [Timed(Restart, now)])
        && t.value.devices.Keys == saved.devices.Keys <= Run(s, trace).devices.Keys
        && forall x :: x in saved.devices ==>
             && t.value.devices[x].history == saved.devices[x].history
             && saved.devices[x].history.faults <= Run(s, trace).devices[x].history.faults
             && saved.devices[x].history.validations <= Run(s, trace).devices[x].history.validations
  {
    hide Encode, Load, Step, Body, Contents, IsInitial, WithinLimits, Saveable, DistinctRunIds, Invariant;
    var saved := Run(s, trace[..k]);
    AdmissiblePrefix(s, trace, k);
    ReachableInvariant(s, trace[..k]);
    FloatsNeverChange(s, trace[..k]);
    LoadOfSave(s, saved, now);
    RunSnoc(s, trace[..k], Timed(Restart, now));
    RestartKeepsHistory(saved, now);
    forall x | x in saved.devices
      ensures x in Run(s, trace).devices && Grows(saved.devices[x], Run(s, trace).devices[x])
    {
      HistoryOnlyGrows(s, trace, k, x);
    }
  }

  lemma {:induction false} AdmissiblePrefix(s: Store, trace: Trace, k: nat)
    requires Admissible(s, trace) && k <= |trace|
    ensures Admissible(s, trace[..k])
    decreases |trace|
  {
    hide Run, Collides;
    if k == |trace| {
      assert trace[..k] == trace;
    } else {
      assert trace[..|trace| - 1][..k] == trace[..k];
      AdmissiblePrefix(s, trace[..|trace| - 1], k);
    }
  }

  lemma RestartKeepsHistory(s: Store, now: Timestamp)
    ensures Step(s, Restart, now).devices.Keys == s.devices.Keys
    ensures forall x :: x in s.devices ==> Step(s, Restart, now).devices[x].history == s.devices[x].history
  {
    hide Step, Reassessed;
    DevicesStep(s, Restart, now);
    StepDevices(s, Restart, now);
    forall x | x in s.devices ensures DeviceAfter(s, s.devices[x], Restart, now).history == s.devices[x].history {
      ReassessKeepsEvidence(Distrusted(s.devices[x]), ContextOf(s, now));
    }
  }

  lemma {:induction false} FloatsNeverChange(s: Store, trace: Trace)
    ensures Run(s, trace).floats == s.floats
    decreases |trace|
  {
    hide DevicesAfter, StateIndexAfter, ReadinessIndexAfter, StaleIndexAfter, GlobalChangesAfter, GlobalFaultsAfter,
      QuarantineIndexAfter, FaultIndexAfter, Judge;
    if trace != [] {
      FloatsNeverChange(s, trace[..|trace| - 1]);
    }
  }

  // ---- The one rejection that reachable stores can meet ----

  lemma ValidationAppends(s: Store, x: Id, v: ValidationRecord, now: Timestamp)
    requires x in s.devices && s.devices[x].id == x && v.accelerator == x
    ensures var t := Step(s, RecordValidation(v), now);
      && x in t.devices && t.devices[x].id == x
      && t.devices[x].history.validations == s.devices[x].history.validations + [v]
  {
    hide Step, Reassessed, Judge;
    DevicesStep(s, RecordValidation(v), now);
    ReassessKeepsEvidence(WithValidation(s.devices[x], v), ContextOf(s, now));
  }

  /** Recording a validation twice under one id is allowed, and makes the saved file one that
      the decoder refuses. */
  lemma RepeatedRunCannotLoad(clean: Store, v: ValidationRecord, now: Timestamp)
    requires IsInitial(clean) && v.accelerator == 7 && Writable(v.detail)
    ensures var s := Run(clean, [Timed(RegisterDevice(7, 1), 1), Timed(RecordValidation(v), 2),
                                 Timed(RecordValidation(v), 3)]);
      && Saveable(s) && WithinLimits(Contents(s))
      && Load(clean, Encode(Contents(s)), now) == None
  {
    hide Step, Load, Encode, WithinLimits, Contents, Saveable, Invariant, Body, Modest;
    var t1, t2, t3 := Timed(RegisterDevice(7, 1), 1), Timed(RecordValidation(v), 2), Timed(RecordValidation(v), 3);
    var trace := [t1, t2, t3];
    RunSnoc(clean, [], t1);
    RunSnoc(clean, [] + [t1], t2);
    RunSnoc(clean, [] + [t1] + [t2], t3);
    assert trace == [] + [t1] + [t2] + [t3];
    var s1 := Step(clean, t1.event, 1);
    var s := Run(clean, trace);
    assert Registers(clean, t1.event) && NewId(clean, 7) == 7;
    DevicesStep(clean, t1.event, 1);
    ValidationAppends(s1, 7, v, 2);
    ValidationAppends(Step(s1, t2.event, 2), 7, v, 3);
    var vs := s.devices[7].history.validations;
    assert vs == [v, v];
    assert vs[0].id == vs[1].id;
    NonZeroUuidsAreAdmissible(clean, trace);
    ReachableInvariant(clean, trace);
    FloatsNeverChange(clean, trace);
    ShortRunsAreModest(trace);
    ModestRunsAreSaveable(clean, trace);
    LoadOfSave(clean, s, now);
  }
}
