/** What loading a store's own save leaves behind when the decoder refuses it. */
module OwnSaves {
  import opened Enums
  import opened Records
  import opened FaultHistory
  import opened Devices
  import opened StoreMachine
  import opened StepShapes
  import opened EventShapes
  import opened SaveableRuns
  import opened Runs
  import opened Hysteresis
  import opened Indexes
  import opened Wire
  import opened RecordCodecs
  import opened DeviceCodec
  import opened Persistence
  import opened Storage
  import opened Files
  import opened Restarts
  import opened Limits
  import opened CompactRuns

  /** `k` is the place of the first impossible device. */
  ghost predicate FirstImpossible(ds: seq<Device>, k: nat) {
    k < |ds| && !Possible(ds[k]) && forall i :: 0 <= i < k ==> Possible(ds[i])
  }

  lemma OneRow(ds: seq<Device>, n: nat)
    requires n < |ds| && forall i :: 0 <= i < |ds| ==> FitsRow(DEVICE_LAYOUT, DeviceRow(ds[i]))
    ensures PutRows(DEVICE_LAYOUT, ToRows(DeviceRow, ds[n..])) ==
      PutRow(DEVICE_LAYOUT, DeviceRow(ds[n])) + PutRows(DEVICE_LAYOUT, ToRows(DeviceRow, ds[n + 1..]))
  {
    hide FitsRow, DeviceRow, PutRow;
    var rows := ToRows(DeviceRow, ds[n..]);
    assert rows[1..] == ToRows(DeviceRow, ds[n + 1..]);
    assert rows[0] == DeviceRow(ds[n]);
  }

  /** Reading a written list keeps exactly the devices before the first impossible one. */
  lemma {:induction false} KeptOfRows(ds: seq<Device>, n: nat, k: nat)
    requires (forall i :: 0 <= i < |ds| ==> InFileForm(ds[i])) && DistinctUuids(ds)
    requires (forall i :: 0 <= i < |ds| ==> FitsRow(DEVICE_LAYOUT, DeviceRow(ds[i])))
    requires n <= k && FirstImpossible(ds, k)
    ensures PrefixKept(ds[..n], |ds| - n, PutRows(DEVICE_LAYOUT, ToRows(DeviceRow, ds[n..]))) == ds[..k]
    decreases k - n
  {
    hide FitsRow, DeviceRow, DeviceFrom, Possible, InFileForm, PutRow, PutRows, GetRow, Uuids;
    var rest := PutRows(DEVICE_LAYOUT, ToRows(DeviceRow, ds[n + 1..]));
    OneRow(ds, n);
    ReadBack(ds[n], rest);
    if n < k {
      KeptOfRows(ds, n + 1, k);
      NewUuid(ds, n);
      assert ds[..n + 1] == ds[..n] + [ds[n]];
    }
  }

  lemma ReadBack(d: Device, rest: seq<byte>)
    requires InFileForm(d)
    ensures FitsRow(DEVICE_LAYOUT, DeviceRow(d))
    ensures GetRow(DEVICE_LAYOUT, PutRow(DEVICE_LAYOUT, DeviceRow(d)) + rest) == Some((DeviceRow(d), rest))
    ensures DeviceFrom(DeviceRow(d)) == d
  {
    hide FitsRow, DeviceRow, DeviceFrom, DeviceWritable, KeyedByKind, PutRow, GetRow;
    DeviceRoundTrip(d);
    RowRoundTrip(DEVICE_LAYOUT, DeviceRow(d), rest);
  }

  lemma NewUuid(ds: seq<Device>, n: nat)
    requires DistinctUuids(ds) && n < |ds|
    ensures ds[n].identity.uuid !in Uuids(ds[..n])
  {
    assert forall i :: 0 <= i < n ==> ds[..n][i] == ds[i];
  }

  /** The header and the count of a written image are read back. */
  lemma HeaderOfBody(sv: Saved)
    requires WithinLimits(sv)
    ensures forall i :: 0 <= i < |sv.devices| ==> FitsRow(DEVICE_LAYOUT, DeviceRow(sv.devices[i]))
    ensures var rows := PutRows(DEVICE_LAYOUT, ToRows(DeviceRow, sv.devices));
      && HeaderOf(Body(sv)) ==
         Some(Header(sv.policy, sv.policyGeneration, sv.epoch, PutLE(|sv.devices|, 4) + rows))
      && GetInt(PutLE(|sv.devices|, 4) + rows, 4) == Some((|sv.devices|, rows))
  {
    hide FitsRow, PolicyRow, PolicyOf, DeviceRow, PutRow, PutRows, PutLE, Get, GetInt, Body;
    PartsFit(sv);
    BodyIs(sv);
    PolicyRoundTrip(sv.policy);
    var rows := PutRows(DEVICE_LAYOUT, ToRows(DeviceRow, sv.devices));
    var r3 := PutLE(|sv.devices|, 4) + rows;
    var r2 := PutLE(sv.epoch, 8) + r3;
    var r1 := PutLE(sv.policyGeneration, 8) + r2;
    assert Body(sv) == PutRow(POLICY_LAYOUT, PolicyRow(sv.policy)) + r1;
    RoundTrip(TRow(POLICY_LAYOUT), VRow(PolicyRow(sv.policy)), r1);
    RoundTrip(TU64, VNum(sv.policyGeneration), r2);
    RoundTrip(TU64, VNum(sv.epoch), r3);
    GetIntOfPut(|sv.devices|, 4, rows);
  }

  /** An image that is implausible only in its devices stops the decoder at the first impossible
      one, behind the header. */
  lemma ImageStops(sv: Saved, k: nat)
    requires WithinLimits(sv) && |Body(sv)| < UINT32
    requires sv.policyGeneration != 0 && DistinctUuids(sv.devices) && FirstImpossible(sv.devices, k)
    ensures var o := FileOutcome(Encode(sv));
      && o.Partial? && o.kept == sv.devices[..k]
      && o.header.policy == sv.policy && o.header.generation == sv.policyGeneration && o.header.epoch == sv.epoch
  {
    hide FitsRow, PutLE, PutRows, Body, Encode, WellFramed, Payload, Possible, InFileForm, PrefixKept, HeaderOf, GetInt,
      Parse, DeviceRow;
    EncodedIsFramed(sv);
    HeaderOfBody(sv);
    ParseOfBody(sv);
    assert sv.devices[0..] == sv.devices && sv.devices[..0] == [];
    KeptOfRows(sv.devices, 0, k);
  }

  /** The device with the `k`-th smallest id is the first that repeats a validation id. */
  ghost predicate FirstRepeats(s: Store, k: nat) {
    var ks := Sorted(s.devices.Keys);
    && k < |ks|
    && (forall i :: 0 <= i <= k ==> ks[i] in s.devices)
    && !DistinctRuns(s.devices[ks[k]].history.validations)
    && forall i :: 0 <= i < k ==> DistinctRuns(s.devices[ks[i]].history.validations)
  }

  lemma FirstRepeatIsImpossible(s: Store, k: nat)
    requires Invariant(s) && FirstRepeats(s, k)
    ensures FirstImpossible(DeviceList(s.devices), k)
  {
    hide Sound, Possible, DistinctRuns, Sorted, Identified, Persisted;
    var ks := Sorted(s.devices.Keys);
    forall i | 0 <= i <= k
      ensures Possible(DeviceList(s.devices)[i]) <==> DistinctRuns(s.devices[ks[i]].history.validations)
    {
      SoundIsPossible(s.devices[ks[i]]);
    }
  }

  /** Loading a reachable store's own save, when some device repeats a validation id, leaves the
      header and the devices with smaller ids than the first such device; the indexes then
      agree with the devices exactly when there is no device with a smaller id. */
  lemma OwnSaveDamage(out: Store, s: Store, k: nat)
    requires Invariant(s) && Saveable(s) && FirstRepeats(s, k)
    ensures WithinLimits(Contents(s))
    ensures |Body(Contents(s))| < UINT32 ==>
      var o := FileOutcome(Encode(Contents(s)));
      && o.Partial? && o.kept == DeviceList(s.devices)[..k]
      && Damaged(out, o).policy == s.policy && Damaged(out, o).policyGeneration == s.policyGeneration
      && Damaged(out, o).devices == TableOf(DeviceList(s.devices)[..k])
      && (IndexesAgree(Damaged(out, o)) <==> k == 0)
  {
    hide Encode, Body, FileOutcome, WithinLimits, IndexesAgree, FirstImpossible, FirstRepeats, DeviceList,
      Identified, Sound;
    ContentsWithinLimits(s);
    UuidsDistinct(s);
    FirstRepeatIsImpossible(s, k);
    if |Body(Contents(s))| < UINT32 {
      ImageStops(Contents(s), k);
      InList(DeviceList(s.devices), k);
      DamageShows(out, FileOutcome(Encode(Contents(s))));
    }
  }

  lemma InList(ds: seq<Device>, k: nat)
    requires FirstImpossible(ds, k)
    ensures k < |ds| && (ds[..k] == [] <==> k == 0)
  {
  }

  lemma TwoKeys(keys: set<Id>)
    requires keys == {7, 9}
    ensures Sorted(keys) == [7, 9]
  {
    hide Sorted;
    var ks := Sorted(keys);
    assert |keys| == 2;
    assert ks[0] in ks && ks[1] in ks && ks[0] < ks[1];
  }

  /** The same for compact runs, of whose end nothing need be known but the repetition. */
  lemma CompactRunDamage(clean: Store, out: Store, trace: Trace, m: TextLimit, k: nat)
    requires IsInitial(clean) && Admissible(clean, trace) && Compact(trace, m)
    requires FirstRepeats(Run(clean, trace), k)
    ensures var s := Run(clean, trace);
      && WithinLimits(Contents(s))
      && var o := FileOutcome(Encode(Contents(s)));
      && o.Partial? && o.kept == DeviceList(s.devices)[..k]
      && Damaged(out, o).policy == s.policy && Damaged(out, o).policyGeneration == s.policyGeneration
      && Damaged(out, o).devices == TableOf(DeviceList(s.devices)[..k])
      && (IndexesAgree(Damaged(out, o)) <==> k == 0)
  {
    hide Encode, Body, FileOutcome, WithinLimits, IndexesAgree, FirstRepeats, Contents, Saveable, Invariant, Run,
      Compact, Modest, Load, DeviceList, Damaged;
    CompactRunsAreModest(trace, m);
    ModestRunsAreSaveable(clean, trace);
    ReachableInvariant(clean, trace);
    CompactRunsLoad(clean, trace, m, 0);
    OwnSaveDamage(out, Run(clean, trace), k);
  }

  /** Two devices, and one validation of the second recorded once or twice. */
  function Twice(v: ValidationRecord, again: bool): Trace {
    var once := [] + [Timed(RegisterDevice(7, 1), 1)] + [Timed(RegisterDevice(9, 1), 2)]
                + [Timed(RecordValidation(v), 3)];
    if again then once + [Timed(RecordValidation(v), 4)] else once
  }

  lemma TwiceIsCompact(v: ValidationRecord, again: bool)
    requires Writable(v.detail)
    ensures Compact(Twice(v, again), MAX_STRING)
  {
    hide Count, TotalGrowth;
    var e1, e2 := Timed(RegisterDevice(7, 1), 1), Timed(RegisterDevice(9, 1), 2);
    var e3, e4 := Timed(RecordValidation(v), 3), Timed(RecordValidation(v), 4);
    GrowthSnoc([], e1);
    GrowthSnoc([] + [e1], e2);
    GrowthSnoc([] + [e1] + [e2], e3);
    GrowthSnoc([] + [e1] + [e2] + [e3], e4);
    NoGrowth();
    CountIsShort(Twice(v, again), Policies());
  }

  lemma NoGrowth()
    ensures TotalGrowth([]) == 0
  {
  }

  /** A run whose save does load: the validation is recorded once. */
  lemma OwnSaveLoads(clean: Store, v: ValidationRecord, now: Timestamp)
    requires IsInitial(clean) && Writable(v.detail)
    ensures WithinLimits(Contents(Run(clean, Twice(v, false))))
    ensures Load(clean, Encode(Contents(Run(clean, Twice(v, false)))), now) ==
      Some(Run(clean, Twice(v, false) + [Timed(Restart, now)]))
  {
    hide Run, Encode, Contents, WithinLimits, Load, Compact;
    TwiceIsCompact(v, false);
    NonZeroUuidsAreAdmissible(clean, Twice(v, false));
    NewIdsLoad(clean, Twice(v, false), MAX_STRING, now);
  }

  /** And a run whose save does not: it is recorded twice. The save, loaded, leaves the first
      device in a store with empty indexes. */
  lemma OwnSaveRun(clean: Store, out: Store, v: ValidationRecord)
    requires IsInitial(clean) && v.accelerator == 9 && Writable(v.detail)
    ensures var s := Run(clean, Twice(v, true));
      && s.devices.Keys == {7, 9} && FirstRepeats(s, 1) && WithinLimits(Contents(s))
      && var o := FileOutcome(Encode(Contents(s)));
      && o.Partial? && o.kept == [Persisted(s.devices[7])]
      && !IndexesAgree(Damaged(out, o))
  {
    hide Step, Encode, Body, FileOutcome, WithinLimits, IndexesAgree, Contents, Invariant, Compact, Damaged,
      FirstRepeats, Run, Persisted, Sorted, TableOf;
    var e1, e2 := Timed(RegisterDevice(7, 1), 1), Timed(RegisterDevice(9, 1), 2);
    var e3, e4 := Timed(RecordValidation(v), 3), Timed(RecordValidation(v), 4);
    var two := [] + [e1] + [e2];
    NonZeroUuidsAreAdmissible(clean, Twice(v, true));
    TwiceIsCompact(v, true);
    RunSnoc(clean, two, e3);
    RunSnoc(clean, two + [e3], e4);
    BothDevices(clean);
    var s2, s := Run(clean, two), Run(clean, Twice(v, true));
    ValidationAppends(s2, 9, v, 3);
    ValidationAppends(Run(clean, two + [e3]), 9, v, 4);
    OtherValidations(s2, v, 3);
    OtherValidations(Run(clean, two + [e3]), v, 4);
    RepeatIsFirst(s, v);
    TwoKeys(s.devices.Keys);
    assert DeviceList(s.devices)[..1] == [Persisted(s.devices[7])];
    CompactRunDamage(clean, out, Twice(v, true), MAX_STRING, 1);
  }

  lemma BothDevices(clean: Store)
    requires IsInitial(clean)
    ensures var s := Run(clean, [] + [Timed(RegisterDevice(7, 1), 1)] + [Timed(RegisterDevice(9, 1), 2)]);
      && s.devices.Keys == {7, 9} && s.devices[7].id == 7 && s.devices[9].id == 9
      && s.devices[7].history.validations == [] && s.devices[9].history.validations == []
  {
    hide Step, MovedTo, Run;
    var e1, e2 := Timed(RegisterDevice(7, 1), 1), Timed(RegisterDevice(9, 1), 2);
    RunSnoc(clean, [], e1);
    RunSnoc(clean, [] + [e1], e2);
    NoSteps(clean);
    var s1 := Run(clean, [] + [e1]);
    RegisterShape(clean, 7, 1, 1, 7);
    assert s1.devices == map[7 := FreshDevice(7, 7, 1, 1)] && s1.uuidIndex == map[7 := 7];
    RegisterShape(s1, 9, 1, 2, 9);
  }

  // ---- A save from before ----

  lemma OneDevice(clean: Store)
    requires IsInitial(clean)
    ensures var s := Run(clean, [] + [Timed(RegisterDevice(7, 1), 1)]);
      s.devices.Keys == {7} && s.devices[7].id == 7 && s.devices[7].history.faults == []
  {
    hide Step, MovedTo, Run;
    RunSnoc(clean, [], Timed(RegisterDevice(7, 1), 1));
    NoSteps(clean);
    RegisterShape(clean, 7, 1, 1, 7);
  }

  /** A restart forgets what was recorded since the save, a fatal fault included: the loaded
      device has no fault at all. */
  lemma FatalFaultForgotten(clean: Store, f: Fault, now: Timestamp)
    requires IsInitial(clean) && f.accelerator == 7 && IsOpenFatal(f)
    ensures var saved := [] + [Timed(RegisterDevice(7, 1), 1)];
      && var s, t := Run(clean, saved), Run(clean, saved + [Timed(RecordFault(f), 2)]);
      && 7 in t.devices && HasOpenFatal(t.devices[7].history.faults)
      && WithinLimits(Contents(s))
      && var loaded := Load(clean, Encode(Contents(s)), now);
      && loaded.Some? && 7 in loaded.value.devices && loaded.value.devices[7].history.faults == []
  {
    hide Run, Encode, Contents, WithinLimits, Load, Step, Compact, IsInitial, Saveable, Reassessed;
    var saved, e := [] + [Timed(RegisterDevice(7, 1), 1)], Timed(RecordFault(f), 2);
    OneDevice(clean);
    RunSnoc(clean, saved, e);
    ReportStep(Run(clean, saved), f, 2);
    LastIsFatal(f);
    RegistrationIsCompact();
    NonZeroUuidsAreAdmissible(clean, saved + [e]);
    NonZeroUuidsAreAdmissible(clean, saved);
    CompactRunsAreModest(saved, MAX_STRING);
    ModestRunsAreSaveable(clean, saved);
    NewIdsLoad(clean, saved, MAX_STRING, now);
    assert (saved + [e])[..1] == saved;
    EarlierSaveLoads(clean, saved + [e], 1, now);
  }

  lemma LastIsFatal(f: Fault)
    requires IsOpenFatal(f)
    ensures HasOpenFatal([] + [f])
  {
    assert ([] + [f])[0] == f;
  }

  lemma RegistrationIsCompact()
    ensures Compact([] + [Timed(RegisterDevice(7, 1), 1)], MAX_STRING)
  {
    hide Count, TotalGrowth;
    GrowthSnoc([], Timed(RegisterDevice(7, 1), 1));
    NoGrowth();
    CountIsShort([] + [Timed(RegisterDevice(7, 1), 1)], Policies());
  }

  /** Recording a validation of device 9 leaves the others and the table as they were. */
  lemma OtherValidations(s: Store, v: ValidationRecord, now: Timestamp)
    requires v.accelerator == 9 && s.devices.Keys == {7, 9} && s.devices[7].id == 7
    ensures var t := Step(s, RecordValidation(v), now);
      t.devices.Keys == {7, 9} && t.devices[7] == s.devices[7]
  {
    hide Step, Reassessed, Judge;
    DevicesStep(s, RecordValidation(v), now);
    StepDevices(s, RecordValidation(v), now);
  }

  lemma RepeatIsFirst(s: Store, v: ValidationRecord)
    requires s.devices.Keys == {7, 9}
    requires s.devices[7].history.validations == [] && s.devices[9].history.validations == [] + [v] + [v]
    ensures FirstRepeats(s, 1)
  {
    hide Sorted;
    TwoKeys(s.devices.Keys);
    var vs := s.devices[9].history.validations;
    assert vs[0].id == vs[1].id;
  }
}
