/** The persisted file: a sealed, versioned image of policy, epoch and devices. What the
    decoder refuses, what survives a save and a load, and why a restart is one step of the
    store machine. */
module Persistence {
  import opened Enums
  import opened Records
  import opened FaultHistory
  import opened Devices
  import opened StoreMachine
  import opened DeviceInvariant
  import opened ChangeLogs
  import opened Runs
  import opened Wire
  import opened Crc
  import opened RecordCodecs
  import opened DeviceCodec

  const MAGIC: seq<byte> := [0x41, 0x48, 0x50, 0x53]
  const SCHEMA_VERSION: nat := 1
  const PREFIX_SIZE: nat := 12
  const CRC_SIZE: nat := 4

  /** What a file holds. */
  datatype Saved = Saved(policy: HealthPolicy, policyGeneration: Counter, epoch: U64, devices: seq<Device>)

  const STORE_LAYOUT: seq<Ty> := [TRow(POLICY_LAYOUT), TU64, TU64, TList(DEVICE_LAYOUT)]

  function SavedRow(sv: Saved): Row {
    [VRow(PolicyRow(sv.policy)), VNum(sv.policyGeneration), VNum(sv.epoch), VList(ToRows(DeviceRow, sv.devices))]
  }

  function SavedFrom(r: Row): Saved
    requires FitsRow(STORE_LAYOUT, r)
  {
    hide FitsRow, Fits;
    var ty := STORE_LAYOUT;
    Saved(PolicyOf(RowAt(ty, r, 0)), U64At(ty, r, 1), U64At(ty, r, 2), ListAt(ty, r, 3, DEVICE_LAYOUT, DeviceFrom))
  }

  /** A device in the form a file holds: dimensions under their kinds, no revalidation mark. */
  predicate InFileForm(d: Device) {
    DeviceWritable(d) && KeyedByKind(d.evidence.dimensions) && !d.evidence.requiresRevalidation
  }

  predicate WithinLimits(sv: Saved) {
    && FitsWord(sv.policyGeneration)
    && |sv.devices| <= MAX_COUNT
    && forall i :: 0 <= i < |sv.devices| ==> InFileForm(sv.devices[i])
  }

  lemma SavedRoundTrip(sv: Saved)
    requires WithinLimits(sv)
    ensures FitsRow(STORE_LAYOUT, SavedRow(sv)) && SavedFrom(SavedRow(sv)) == sv
  {
    hide FitsRow, PolicyRow, PolicyOf, DeviceRow, DeviceFrom, DeviceWritable, KeyedByKind;
    PolicyRoundTrip(sv.policy);
    forall i | 0 <= i < |sv.devices| ensures Undoes(DEVICE_LAYOUT, DeviceRow, DeviceFrom, sv.devices[i]) {
      DeviceRoundTrip(sv.devices[i]);
    }
    ListRoundTrips(DEVICE_LAYOUT, DeviceRow, DeviceFrom, sv.devices);
    SavedFits(sv);
  }

  lemma SavedFits(sv: Saved)
    requires FitsWord(sv.policyGeneration)
    requires FitsRow(POLICY_LAYOUT, PolicyRow(sv.policy))
    requires Fits(TList(DEVICE_LAYOUT), VList(ToRows(DeviceRow, sv.devices)))
    ensures FitsRow(STORE_LAYOUT, SavedRow(sv))
  {
    hide PolicyRow, ToRows;
  }

  // ---- Encoding ----

  function Body(sv: Saved): seq<byte>
    requires WithinLimits(sv)
  {
    SavedRoundTrip(sv);
    PutRow(STORE_LAYOUT, SavedRow(sv))
  }

  /** The length field is the low 32 bits of the body's length. */
  function Prefix(body: seq<byte>): (bs: seq<byte>)
    ensures |bs| == PREFIX_SIZE
  {
    MAGIC + PutLE(SCHEMA_VERSION, 4) + PutLE(|body| % UINT32, 4)
  }

  function Encode(sv: Saved): seq<byte>
    requires WithinLimits(sv)
  {
    var front := Prefix(Body(sv)) + Body(sv);
    front + StoreWord(Checksum(front))
  }

  // ---- Decoding ----

  predicate DistinctRuns(vs: seq<ValidationRecord>) {
    forall i, j :: 0 <= i < j < |vs| ==> vs[i].id != vs[j].id
  }

  predicate DistinctUuids(ds: seq<Device>) {
    forall i, j :: 0 <= i < j < |ds| ==> ds[i].identity.uuid != ds[j].identity.uuid
  }

  /** The states of a device that the decoder does not call impossible. */
  predicate Possible(d: Device) {
    && d.health.generation != 0
    && UniqueIds(d.history.faults)
    && DistinctRuns(d.history.validations)
    && !(QuarantineActive(d) && d.health.state == Healthy)
  }

  predicate Plausible(sv: Saved) {
    && sv.policyGeneration != 0
    && (forall i :: 0 <= i < |sv.devices| ==> Possible(sv.devices[i]))
    && DistinctUuids(sv.devices)
  }

  predicate WellFramed(file: seq<byte>) {
    && |file| >= PREFIX_SIZE + CRC_SIZE
    && file[..4] == MAGIC
    && GetLE(file[4..8]) == SCHEMA_VERSION
    && |file| == PREFIX_SIZE + GetLE(file[8..12]) + CRC_SIZE
    && Sealed(file)
  }

  function Payload(file: seq<byte>): seq<byte>
    requires |file| >= PREFIX_SIZE + CRC_SIZE
  {
    file[PREFIX_SIZE..|file| - CRC_SIZE]
  }

  function Parse(body: seq<byte>): Option<Saved> {
    var p := GetRow(STORE_LAYOUT, body);
    if p.Some? && p.value.1 == [] then Some(SavedFrom(p.value.0)) else None
  }

  function Decode(file: seq<byte>): Option<Saved> {
    if !WellFramed(file) then None
    else
      var sv := Parse(Payload(file));
      if sv.Some? && Plausible(sv.value) then sv else None
  }

  /** Exactly what is accepted: a file framed and sealed whose body is one image without rest, of
      a counted policy, with every uuid once and no device in an impossible state: no generation
      zero, no fault or validation id twice, and none HEALTHY under an active quarantine. */
  lemma AcceptsExactly(file: seq<byte>, sv: Saved)
    ensures Decode(file) == Some(sv) <==>
      && |file| >= 16 && file[..4] == [0x41, 0x48, 0x50, 0x53] && GetLE(file[4..8]) == 1
      && |file| == 16 + GetLE(file[8..12]) && Sealed(file)
      && Parse(file[12..|file| - 4]) == Some(sv)
      && sv.policyGeneration > 0
      && (forall i, j :: 0 <= i < j < |sv.devices| ==> sv.devices[i].identity.uuid != sv.devices[j].identity.uuid)
      && forall i :: 0 <= i < |sv.devices| ==> IsConsistent(sv.devices[i])
  {
    hide Parse, Sealed, GetLE, Possible, IsConsistent;
    forall d: Device ensures Possible(d) <==> IsConsistent(d) {
      PossibleIs(d);
    }
  }

  ghost predicate IsConsistent(d: Device) {
    && d.health.generation > 0
    && (forall i, j :: 0 <= i < j < |d.history.faults| ==> d.history.faults[i].id != d.history.faults[j].id)
    && (forall i, j :: 0 <= i < j < |d.history.validations| ==>
          d.history.validations[i].id != d.history.validations[j].id)
    && (d.health.state == Healthy ==> d.care.quarantine.None? || !d.care.quarantine.value.active)
  }

  lemma PossibleIs(d: Device)
    ensures Possible(d) <==> IsConsistent(d)
  {
  }

  // ---- Round trip ----

  lemma PrefixFields(body: seq<byte>, rest: seq<byte>)
    ensures var f := Prefix(body) + rest;
      f[..4] == MAGIC && GetLE(f[4..8]) == SCHEMA_VERSION && GetLE(f[8..12]) == |body| % UINT32
  {
    hide PutLE, GetLE;
    var f := Prefix(body) + rest;
    assert f[4..8] == PutLE(SCHEMA_VERSION, 4) && f[8..12] == PutLE(|body| % UINT32, 4);
    WordRoundTrip(SCHEMA_VERSION);
    WordRoundTrip(|body| % UINT32);
  }

  lemma WordRoundTrip(n: nat)
    requires n < UINT32
    ensures GetLE(PutLE(n, 4)) == n
  {
    LittleEndianRoundTrip(n, 4);
  }

  lemma EncodedIsFramed(sv: Saved)
    requires WithinLimits(sv)
    ensures |Encode(sv)| == PREFIX_SIZE + |Body(sv)| + CRC_SIZE
    ensures WellFramed(Encode(sv)) <==> |Body(sv)| < UINT32
    ensures Payload(Encode(sv)) == Body(sv)
  {
    hide Sealed, GetLE, Checksum, Body, Prefix, StoreWord, WithinLimits;
    var body := Body(sv);
    var front := Prefix(body) + body;
    var tail := StoreWord(Checksum(front));
    assert Encode(sv) == Prefix(body) + (body + tail);
    PrefixFields(body, body + tail);
    SealedIsSealed(front);
  }

  lemma ParseOfBody(sv: Saved)
    requires WithinLimits(sv)
    ensures Parse(Body(sv)) == Some(sv)
  {
    hide WithinLimits, SavedRow, SavedFrom;
    SavedRoundTrip(sv);
    RowRoundTrip(STORE_LAYOUT, SavedRow(sv), []);
    assert Body(sv) + [] == Body(sv);
  }

  /** An encoded image is read back exactly when it is plausible and its length fits the
      length field; it is then read back unchanged. */
  lemma EncodeRoundTrip(sv: Saved)
    requires WithinLimits(sv)
    ensures Decode(Encode(sv)) == if |Body(sv)| < UINT32 && Plausible(sv) then Some(sv) else None
  {
    hide Encode, Parse, Body, WellFramed, Plausible, WithinLimits, Payload;
    EncodedIsFramed(sv);
    ParseOfBody(sv);
  }

  // ---- What the frame refuses ----

  /** Accepted files form a prefix-free set: no truncation and no extension of one is
      accepted. */
  lemma NoPrefixAccepted(f: seq<byte>, g: seq<byte>)
    requires Decode(f).Some? && Decode(g).Some?
    requires f <= g
    ensures f == g
  {
    hide Sealed, GetLE, Parse, Plausible;
    assert f[8..12] == g[8..12];
  }

  /** A change confined to four consecutive bytes of an accepted file, anywhere in it, is
      refused. */
  lemma BurstRefused(f: seq<byte>, g: seq<byte>, i: nat)
    requires Decode(f).Some?
    requires |f| == |g| && f != g
    requires i + 4 <= |f| && f[..i] == g[..i] && f[i + 4..] == g[i + 4..]
    ensures Decode(g).None?
  {
    hide Sealed, Parse, Plausible, GetLE;
    if Decode(g).Some? {
      BurstIsDetected(f, g, i);
    }
  }

  /** In particular, so is a change of any one byte. */
  lemma ByteChangeRefused(f: seq<byte>, k: nat, b: byte)
    requires Decode(f).Some?
    requires k < |f| && b != f[k]
    ensures Decode(f[k := b]).None?
  {
    hide Parse, Plausible, Sealed, GetLE;
    var g := f[k := b];
    var i := if k + 4 <= |f| then k else |f| - 4;
    assert g[k] != f[k];
    BurstRefused(f, g, i);
  }

  // ---- Saving a store ----

  ghost function DeviceList(devices: map<Id, Device>): (ds: seq<Device>) {
    var ks := Sorted(devices.Keys);
    seq(|ks|, i requires 0 <= i < |ks| => Persisted(devices[ks[i]]))
  }

  ghost function Contents(s: Store): Saved {
    Saved(s.policy, s.policyGeneration, s.coordinatorEpoch, DeviceList(s.devices))
  }

  /** Sizes within the limits of the format. */
  ghost predicate Saveable(s: Store) {
    && FitsWord(s.policyGeneration)
    && |s.devices| <= MAX_COUNT
    && forall x :: x in s.devices ==> DeviceWritable(s.devices[x])
  }

  lemma ContentsWithinLimits(s: Store)
    requires Invariant(s) && Saveable(s)
    ensures WithinLimits(Contents(s))
  {
    hide DeviceWritable, Identified, Settled, LegalLog, UniqueIds, DeepestPass, Sorted;
    var ds := DeviceList(s.devices);
    var ks := Sorted(s.devices.Keys);
    forall i | 0 <= i < |ds| ensures InFileForm(ds[i]) {
      assert ks[i] in ks;
      PersistedIsInFileForm(s.devices[ks[i]]);
    }
  }

  lemma PersistedIsInFileForm(d: Device)
    requires DeviceWritable(d) && KeyedByKind(d.evidence.dimensions)
    ensures InFileForm(Persisted(d))
  {
    hide AssessmentWritable, HistoryWritable, HealthWritable, CareWritable;
  }

  /** The run invariants rule out every rejection but one. */
  lemma SoundIsPossible(d: Device)
    requires Sound(d)
    ensures Possible(Persisted(d)) <==> DistinctRuns(d.history.validations)
  {
    hide UniqueIds, DistinctRuns, KeyedByKind, DeepestPass, FatalHolds, ReadyHolds;
  }

  lemma UuidsDistinct(s: Store)
    requires Identified(s)
    ensures DistinctUuids(DeviceList(s.devices))
  {
    hide Sorted;
    var ks := Sorted(s.devices.Keys);
    var ds := DeviceList(s.devices);
    forall i, j | 0 <= i < j < |ds| ensures ds[i].identity.uuid != ds[j].identity.uuid {
      assert ks[i] in ks && ks[j] in ks && ks[i] < ks[j];
    }
  }

  /** No device holds two validation records with one id. */
  ghost predicate DistinctRunIds(s: Store) {
    forall x :: x in s.devices ==> DistinctRuns(s.devices[x].history.validations)
  }

  lemma PlausibleIffDistinctRuns(s: Store)
    requires Invariant(s)
    ensures Plausible(Contents(s)) <==> DistinctRunIds(s)
  {
    hide Sound, Identified, Possible, Persisted, DistinctRuns, Sorted, DistinctUuids;
    var ks := Sorted(s.devices.Keys);
    var ds := DeviceList(s.devices);
    UuidsDistinct(s);
    forall i | 0 <= i < |ds|
      ensures ks[i] in s.devices && (Possible(ds[i]) <==> DistinctRuns(s.devices[ks[i]].history.validations))
    {
      assert ks[i] in ks;
      SoundIsPossible(s.devices[ks[i]]);
    }
    forall x | x in s.devices && Plausible(Contents(s)) ensures DistinctRuns(s.devices[x].history.validations) {
      assert x in ks;
      var i :| 0 <= i < |ks| && ks[i] == x;
      assert Possible(ds[i]);
    }
  }

  /** A reachable store within the limits is read back from its own file exactly when no
      device repeats a validation id, and then with every persisted field as it was. */
  lemma SaveRoundTrip(s: Store)
    requires Invariant(s) && Saveable(s)
    ensures WithinLimits(Contents(s))
    ensures Decode(Encode(Contents(s))) ==
      if |Body(Contents(s))| < UINT32 && DistinctRunIds(s) then Some(Contents(s)) else None
  {
    hide Encode, Body, Decode, Plausible, WithinLimits, Contents, Invariant, DistinctRunIds;
    ContentsWithinLimits(s);
    EncodeRoundTrip(Contents(s));
    PlausibleIffDistinctRuns(s);
  }
}
