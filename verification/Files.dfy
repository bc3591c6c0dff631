/** Saving a running store to bytes and loading bytes into one. */
module Files {
  import opened Enums
  import opened Records
  import opened Devices
  import opened StoreMachine
  import opened StepShapes
  import opened Runs
  import opened Indexes
  import opened Buckets
  import opened Runtime
  import opened Wire
  import opened Persistence
  import opened Restarts
  import opened Storage

  // ---- Rebuilding the tables ----

  lemma {:induction false} TableKeys(ds: seq<Device>)
    ensures KeysAgree(TableOf(ds))
  {
    if ds != [] {
      TableKeys(ds[..|ds| - 1]);
    }
  }

  /** `m` is the greatest of the keys, or zero when there are none. */
  ghost predicate IsGreatest(m: Id, keys: set<Id>) {
    (forall x :: x in keys ==> x <= m) && (keys == {} ==> m == 0) && (keys != {} ==> m in keys)
  }

  lemma GreatestIsMaxId(m: Id, keys: set<Id>)
    requires IsGreatest(m, keys)
    ensures MaxId(keys) == m
  {
    if keys != {} {
      assert m in keys && forall y :: y in keys ==> y <= m;
    }
  }

  lemma NoneIsGreatest()
    ensures IsGreatest(0, {})
  {
  }

  lemma GreatestNext(m: Id, keys: set<Id>, x: Id)
    requires IsGreatest(m, keys)
    ensures IsGreatest(if x > m then x else m, keys + {x})
  {
  }

  method BuildTables(ds: seq<Device>) returns (devices: map<Id, Device>, uuids: map<Id, Id>, greatest: Id)
    ensures devices == TableOf(ds) && uuids == UuidsOf(ds)
    ensures MaxId(devices.Keys) == greatest
  {
    hide MaxId, IsGreatest;
    NoneIsGreatest();
    devices, uuids, greatest := map[], map[], 0;
    assert devices.Keys == {};
    for i := 0 to |ds|
      invariant devices == TableOf(ds[..i]) && uuids == UuidsOf(ds[..i])
      invariant IsGreatest(greatest, devices.Keys)
    {
      assert ds[..i + 1][..i] == ds[..i];
      GreatestNext(greatest, devices.Keys, ds[i].id);
      assert devices[ds[i].id := ds[i]].Keys == devices.Keys + {ds[i].id};
      greatest := if ds[i].id > greatest then ds[i].id else greatest;
      devices := devices[ds[i].id := ds[i]];
      uuids := uuids[ds[i].identity.uuid := ds[i].id];
    }
    assert ds[..|ds|] == ds;
    GreatestIsMaxId(greatest, devices.Keys);
  }

  // ---- Rebuilding the indexes ----

  /** The pairs a scan of the ids in `done` puts into an index. */
  function Scanned<B(==)>(bucket: map<Id, B>, done: set<Id>): set<(B, Id)> {
    set x | x in done && x in bucket :: (bucket[x], x)
  }

  lemma ScannedNext<B>(bucket: map<Id, B>, done: set<Id>, x: Id)
    requires x in bucket
    ensures Scanned(bucket, done + {x}) == Scanned(bucket, done) + {(bucket[x], x)}
  {
  }

  lemma ScannedIsExclusive<B(!new)>(index: map<B, set<Id>>, bucket: map<Id, B>, done: set<Id>)
    requires Relation(index) == Scanned(bucket, done)
    ensures Exclusive(index)
  {
    forall b, c, x | b in index && c in index && x in index[b] && x in index[c] ensures b == c {
      assert (b, x) in Relation(index) && (c, x) in Relation(index);
    }
  }

  method BucketAll<B(==, !new)>(bucket: map<Id, B>) returns (index: map<B, set<Id>>)
    ensures Exclusive(index)
    ensures Relation(index) == Scanned(bucket, bucket.Keys)
  {
    hide Relation, Scanned;
    index := map[];
    var todo := bucket.Keys;
    EmptyRelation<B>();
    EmptyScan(bucket);
    while todo != {}
      invariant todo <= bucket.Keys
      invariant Relation(index) == Scanned(bucket, bucket.Keys - todo)
      decreases |todo|
    {
      var x :| x in todo;
      ScannedNext(bucket, bucket.Keys - todo, x);
      assert bucket.Keys - (todo - {x}) == (bucket.Keys - todo) + {x};
      todo := todo - {x};
      index := Insert(index, bucket[x], x);
    }
    assert bucket.Keys - todo == bucket.Keys;
    ScannedIsExclusive(index, bucket, bucket.Keys);
  }

  lemma EmptyRelation<B>()
    ensures Relation<B>(map[]) == {}
  {
  }

  lemma EmptyScan<B>(bucket: map<Id, B>)
    ensures Scanned(bucket, bucket.Keys - bucket.Keys) == {}
  {
  }

  lemma ScannedStates(devices: map<Id, Device>)
    ensures Scanned(StatesOf(devices), StatesOf(devices).Keys) == StateBuckets(devices)
    ensures Scanned(ReadinessesOf(devices), ReadinessesOf(devices).Keys) == ReadinessBuckets(devices)
  {
    ScannedAre(StatesOf(devices), StateBuckets(devices));
    ScannedAre(ReadinessesOf(devices), ReadinessBuckets(devices));
  }

  lemma ScannedAre<B>(bucket: map<Id, B>, pairs: set<(B, Id)>)
    requires forall p :: p in pairs ==> p.1 in bucket && p.0 == bucket[p.1]
    requires forall x :: x in bucket ==> (bucket[x], x) in pairs
    ensures Scanned(bucket, bucket.Keys) == pairs
  {
    forall p | p in pairs ensures p in Scanned(bucket, bucket.Keys) {
      assert p == (bucket[p.1], p.1);
    }
  }

  /** Open faults of one device. */
  function OpenOf(d: Device): set<FaultType> {
    set i | 0 <= i < |d.history.faults| && d.history.faults[i].resolution == Open :: d.history.faults[i].kind
  }

  function OpenAmong(devices: map<Id, Device>, done: set<Id>): set<(FaultType, Id)> {
    set x, t | x in done && x in devices && t in OpenOf(devices[x]) :: (t, x)
  }

  lemma OpenAmongAll(devices: map<Id, Device>)
    ensures OpenAmong(devices, devices.Keys) == OpenFaultIndex(devices)
  {
    forall p: (FaultType, Id) ensures p in OpenAmong(devices, devices.Keys) <==> p in OpenFaultIndex(devices) {
    }
  }

  method IndexFaults(index: map<FaultType, set<Id>>, x: Id, d: Device) returns (r: map<FaultType, set<Id>>)
    ensures Relation(r) == Relation(index) + (set t | t in OpenOf(d) :: (t, x))
  {
    hide Relation;
    r := index;
    ghost var added: set<(FaultType, Id)> := {};
    for i := 0 to |d.history.faults|
      invariant added == set j | 0 <= j < i && d.history.faults[j].resolution == Open :: (d.history.faults[j].kind, x)
      invariant Relation(r) == Relation(index) + added
    {
      if d.history.faults[i].resolution == Open {
        r := Insert(r, d.history.faults[i].kind, x);
        added := added + {(d.history.faults[i].kind, x)};
      }
    }
    assert added == set t | t in OpenOf(d) :: (t, x);
  }

  method BucketFaults(devices: map<Id, Device>) returns (index: map<FaultType, set<Id>>)
    ensures Relation(index) == OpenFaultIndex(devices)
  {
    hide Relation, OpenOf;
    index := map[];
    EmptyRelation<FaultType>();
    var todo := devices.Keys;
    while todo != {}
      invariant todo <= devices.Keys
      invariant Relation(index) == OpenAmong(devices, devices.Keys - todo)
      decreases |todo|
    {
      var x :| x in todo;
      ghost var done := devices.Keys - todo;
      OpenAmongNext(devices, done, x);
      assert devices.Keys - (todo - {x}) == done + {x};
      todo := todo - {x};
      index := IndexFaults(index, x, devices[x]);
    }
    assert devices.Keys - todo == devices.Keys;
    OpenAmongAll(devices);
  }

  lemma OpenAmongNext(devices: map<Id, Device>, done: set<Id>, x: Id)
    requires x in devices
    ensures OpenAmong(devices, done + {x}) == OpenAmong(devices, done) + (set t | t in OpenOf(devices[x]) :: (t, x))
  {
    hide OpenOf;
  }

  method CollectQuarantined(devices: map<Id, Device>) returns (r: set<Id>)
    ensures r == QuarantinedIn(devices)
  {
    r := {};
    var todo := devices.Keys;
    while todo != {}
      invariant todo <= devices.Keys
      invariant r == set x | x in devices && x !in todo && QuarantineActive(devices[x])
      decreases |todo|
    {
      var x :| x in todo;
      todo := todo - {x};
      if devices[x].care.quarantine.Some? && devices[x].care.quarantine.value.active {
        r := r + {x};
      }
    }
  }

  // ---- Saving and loading ----

  method Save(store: HealthStore) returns (file: Option<seq<byte>>)
    requires store.Valid()
    ensures file == if WithinLimits(Contents(store.View())) then Some(Encode(Contents(store.View()))) else None
  {
    hide Encode, WithinLimits, DeviceList, Run, Relation;
    file := EncodeState(store.policy, store.policyGeneration, store.coordinatorEpoch, store.devices);
  }

  method DistrustEvery(devices: map<Id, Device>) returns (r: map<Id, Device>)
    ensures r == DistrustedAll(devices)
  {
    r := devices;
    var todo := devices.Keys;
    while todo != {}
      invariant todo <= devices.Keys == r.Keys
      invariant forall x :: x in todo ==> r[x] == devices[x]
      invariant forall x :: x in r && x !in todo ==> r[x] == Distrusted(devices[x])
      decreases |todo|
    {
      var x :| x in todo;
      todo := todo - {x};
      r := r[x := r[x].(evidence := r[x].evidence.(requiresRevalidation := true))];
    }
  }

  /** Everything the decoder writes once the image has been accepted. */
  method Install(store: HealthStore, sv: Saved)
    requires store.Consistent()
    modifies store
    ensures store.Consistent()
    ensures store.View() == Restored(old(store.View()), sv)
  {
    hide TableOf, UuidsOf, MaxId, Relation, Exclusive, StateBuckets, ReadinessBuckets, OpenFaultIndex, QuarantinedIn,
      KeysAgree;
    store.policy, store.policyGeneration, store.coordinatorEpoch := sv.policy, sv.policyGeneration, sv.epoch;
    InstallTables(store, sv.devices);
    RecomputeIndexes(store);
    store.globalFaults, store.globalChanges := [], [];
  }

  method WriteTables(store: HealthStore, ds: seq<Device>) returns (greatest: Id)
    modifies store`devices, store`uuidIndex
    ensures store.devices == TableOf(ds) && store.uuidIndex == UuidsOf(ds) && KeysAgree(store.devices)
    ensures greatest == MaxId(store.devices.Keys)
  {
    hide TableOf, UuidsOf, MaxId, KeysAgree;
    var devices, uuids, largest := BuildTables(ds);
    TableKeys(ds);
    store.devices, store.uuidIndex := devices, uuids;
    return largest;
  }

  method InstallTables(store: HealthStore, ds: seq<Device>)
    modifies store`devices, store`uuidIndex, store`nextDevice, store`nextQuarantine, store`nextRecovery
    ensures store.devices == TableOf(ds) && store.uuidIndex == UuidsOf(ds) && KeysAgree(store.devices)
    ensures store.nextDevice == store.nextQuarantine == store.nextRecovery == Successor(MaxId(store.devices.Keys))
  {
    hide TableOf, UuidsOf, MaxId, KeysAgree;
    var greatest := WriteTables(store, ds);
    var next := Successor(greatest);
    store.nextDevice, store.nextQuarantine, store.nextRecovery := next, next, next;
  }

  /** All indexes from one scan of the devices; the stale index is left to reassessment. */
  method RecomputeIndexes(store: HealthStore)
    requires KeysAgree(store.devices)
    modifies store`stateIndex, store`readinessIndex, store`faultIndex, store`quarantineIndex, store`staleIndex
    ensures store.Consistent()
    ensures Relation(store.stateIndex) == StateBuckets(store.devices)
    ensures Relation(store.readinessIndex) == ReadinessBuckets(store.devices)
    ensures Relation(store.faultIndex) == OpenFaultIndex(store.devices)
    ensures store.quarantineIndex == QuarantinedIn(store.devices) && store.staleIndex == {}
  {
    hide Relation, Exclusive, StateBuckets, ReadinessBuckets, OpenFaultIndex, QuarantinedIn, Scanned, KeysAgree;
    ScannedStates(store.devices);
    store.stateIndex := BucketAll(StatesOf(store.devices));
    store.readinessIndex := BucketAll(ReadinessesOf(store.devices));
    store.faultIndex := BucketFaults(store.devices);
    store.quarantineIndex := CollectQuarantined(store.devices);
    store.staleIndex := {};
  }

  // ---- A load that fails part way ----

  /** What a decode that did not complete has made of the store: nothing before the header is
      accepted; afterwards the header and the devices kept so far, with the indexes and logs
      emptied and the id counters as they were. */
  function Damaged(out: Store, o: Decoded): Store
    requires !o.Complete?
  {
    if o.Refusal? then out
    else out.(policy := o.header.policy, policyGeneration := o.header.generation, coordinatorEpoch := o.header.epoch,
              devices := TableOf(o.kept), uuidIndex := UuidsOf(o.kept),
              stateIndex := {}, readinessIndex := {}, faultIndex := {}, quarantineIndex := {}, staleIndex := {},
              globalFaults := [], globalChanges := [])
  }

  /** After a load that failed behind the header the indexes agree with the devices exactly
      when no device had been kept. */
  lemma DamageShows(out: Store, o: Decoded)
    requires o.Partial?
    ensures IndexesAgree(Damaged(out, o)) <==> o.kept == []
  {
    var t := Damaged(out, o);
    if o.kept != [] {
      var x := o.kept[|o.kept| - 1].id;
      assert x in t.devices;
      assert forall k :: !OneBucket(t.stateIndex, x, k);
    }
  }

  method Abandon(store: HealthStore, h: Header, kept: seq<Device>)
    requires store.Consistent()
    modifies store
    ensures store.Consistent()
    ensures store.View() == Damaged(old(store.View()), Partial(h, kept))
  {
    hide TableOf, UuidsOf, MaxId, KeysAgree, Relation, Exclusive;
    store.policy, store.policyGeneration, store.coordinatorEpoch := h.policy, h.generation, h.epoch;
    var _ := WriteTables(store, kept);
    ClearIndexes(store);
    store.globalFaults, store.globalChanges := [], [];
  }

  method ClearIndexes(store: HealthStore)
    modifies store`stateIndex, store`readinessIndex, store`faultIndex, store`quarantineIndex, store`staleIndex
    ensures Exclusive(store.stateIndex) && Exclusive(store.readinessIndex)
    ensures Relation(store.stateIndex) == {} && Relation(store.readinessIndex) == {} && Relation(store.faultIndex) == {}
    ensures store.quarantineIndex == {} && store.staleIndex == {}
  {
    EmptyRelation<HealthState>();
    EmptyRelation<ReadinessState>();
    EmptyRelation<FaultType>();
    store.stateIndex, store.readinessIndex, store.faultIndex := map[], map[], map[];
    store.quarantineIndex, store.staleIndex := {}, {};
  }

  /** An accepted file is installed, every device is marked for revalidation, and all are
      reassessed; any other is abandoned where the decoder stopped. */
  method LoadFile(store: HealthStore, file: seq<byte>, now: Timestamp) returns (ok: bool)
    requires store.Valid()
    modifies store
    ensures store.Valid()
    ensures ok <==> FileOutcome(file).Complete?
    ensures Load(old(store.View()), file, now) == if ok then Some(store.View()) else None
    ensures !ok ==> store.View() == Damaged(old(store.View()), FileOutcome(file))
  {
    hide Decode, Restored, Step, Relation, Exclusive, DistrustedAll, KeysAgree, FileOutcome, Damaged, Run;
    OutcomeIsDecode(file);
    var o := DecodeState(file);
    match o
    case Refusal =>
      NothingWritten(store.View());
      return false;
    case Partial(h, kept) =>
      Abandon(store, h, kept);
      NewOrigin(store);
      return false;
    case Complete(sv) =>
      Install(store, sv);
      var marked := DistrustEvery(store.devices);
      DistrustKeepsKeys(store.devices);
      store.devices := marked;
      NewOrigin(store);
      store.ReassessAll(now);
      return true;
  }

  /** What a file holds need not have come from a run: the record of steps starts anew. */
  ghost method NewOrigin(store: HealthStore)
    requires store.Consistent()
    modifies store`origin, store`trace
    ensures store.Valid() && store.View() == old(store.View()) == store.origin && store.trace == []
  {
    hide Relation, KeysAgree, Exclusive;
    store.origin, store.trace := store.View(), [];
  }

  /** The new process continues the run of the old one. */
  ghost method Adopt(next: HealthStore, store: HealthStore, now: Timestamp)
    requires next != store && next.Consistent() && store.Valid()
    requires next.View() == Step(store.View(), Restart, now)
    modifies next`origin, next`trace
    ensures next.Valid() && next.View() == old(next.View())
    ensures next.origin == store.origin && next.trace == store.trace + [Timed(Restart, now)]
  {
    hide Step, Run, Relation, KeysAgree, Exclusive;
    RunSnoc(store.origin, store.trace, Timed(Restart, now));
    next.origin, next.trace := store.origin, store.trace + [Timed(Restart, now)];
  }

  lemma NothingWritten(out: Store)
    ensures Damaged(out, Refusal) == out
  {
  }

  lemma DistrustKeepsKeys(devices: map<Id, Device>)
    requires KeysAgree(devices)
    ensures KeysAgree(DistrustedAll(devices))
  {
  }

  /** A coordinator restart, end to end: the new process holds exactly what the Restart step
      says, unless a device repeats a validation id or the image outgrows its length field. */
  method RestartStore(store: HealthStore, now: Timestamp) returns (next: HealthStore, ok: bool)
    requires store.Valid() && Invariant(store.View()) && Saveable(store.View())
    ensures next.Valid() && WithinLimits(Contents(store.View()))
    ensures ok <==> |Body(Contents(store.View()))| < UINT32 && DistinctRunIds(store.View())
    ensures ok ==> next.View() == Step(store.View(), Restart, now)
    ensures ok ==> next.origin == store.origin && next.trace == store.trace + [Timed(Restart, now)]
  {
    hide Load, Step, Encode, Body, DistinctRunIds, Contents, WithinLimits, Invariant, Saveable, Decode, Relation, Run;
    ContentsWithinLimits(store.View());
    var file := Save(store);
    next := new HealthStore(store.policy, store.coordinatorEpoch, store.floats);
    LoadOfSave(next.View(), store.View(), now);
    ok := LoadFile(next, file.value, now);
    if ok {
      Adopt(next, store, now);
    }
  }
}
