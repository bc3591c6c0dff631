/** Saving and loading as the runtime does it: a writer filled device by device, a reader
    drained and checked device by device. */
module Storage {
  import opened Enums
  import opened Records
  import opened FaultHistory
  import opened Devices
  import opened StoreMachine
  import opened Runs
  import opened Buckets
  import opened Wire
  import opened WireIO
  import opened Crc
  import opened RecordCodecs
  import opened DeviceCodec
  import opened Persistence

  // ---- Encoding ----

  lemma PartsFit(sv: Saved)
    requires WithinLimits(sv)
    ensures FitsRow(POLICY_LAYOUT, PolicyRow(sv.policy))
    ensures forall i :: 0 <= i < |sv.devices| ==> FitsRow(DEVICE_LAYOUT, DeviceRow(sv.devices[i]))
  {
    hide FitsRow, PolicyRow, DeviceRow, PolicyOf, DeviceFrom, DeviceWritable;
    PolicyRoundTrip(sv.policy);
    forall i | 0 <= i < |sv.devices| ensures FitsRow(DEVICE_LAYOUT, DeviceRow(sv.devices[i])) {
      DeviceFits(sv.devices[i]);
    }
  }

  lemma Associates(a: seq<byte>, b: seq<byte>, c: seq<byte>, d: seq<byte>, e: seq<byte>)
    ensures a + b + c + (d + e) == a + b + c + d + e
  {
  }

  /** The image, field by field. */
  lemma BodyIs(sv: Saved)
    requires WithinLimits(sv)
    ensures FitsRow(POLICY_LAYOUT, PolicyRow(sv.policy))
    ensures forall i :: 0 <= i < |sv.devices| ==> FitsRow(DEVICE_LAYOUT, DeviceRow(sv.devices[i]))
    ensures Body(sv) == PutRow(POLICY_LAYOUT, PolicyRow(sv.policy)) + PutLE(sv.policyGeneration, 8) + PutLE(sv.epoch, 8)
      + PutLE(|sv.devices|, 4) + PutRows(DEVICE_LAYOUT, ToRows(DeviceRow, sv.devices))
  {
    hide WithinLimits, PolicyRow, DeviceRow, PutLE, PutRow, PutRows, FitsRow;
    PartsFit(sv);
    SavedRoundTrip(sv);
    Unrolled(STORE_LAYOUT, SavedRow(sv));
    Associates(PutRow(POLICY_LAYOUT, PolicyRow(sv.policy)), PutLE(sv.policyGeneration, 8), PutLE(sv.epoch, 8),
               PutLE(|sv.devices|, 4), PutRows(DEVICE_LAYOUT, ToRows(DeviceRow, sv.devices)));
  }

  lemma Unrolled(tys: seq<Ty>, vs: Row)
    requires |tys| == 4 && FitsRow(tys, vs)
    ensures |vs| == 4 && forall i :: 0 <= i < 4 ==> Fits(tys[i], vs[i])
    ensures PutRow(tys, vs) == Put(tys[0], vs[0]) + Put(tys[1], vs[1]) + Put(tys[2], vs[2]) + Put(tys[3], vs[3])
  {
    hide Put, Fits;
    var t1, v1 := tys[1..], vs[1..];
    var t2, v2 := t1[1..], v1[1..];
    var t3, v3 := t2[1..], v2[1..];
    assert PutRow(tys, vs) == Put(tys[0], vs[0]) + PutRow(t1, v1);
    assert PutRow(t1, v1) == Put(t1[0], v1[0]) + PutRow(t2, v2);
    assert PutRow(t2, v2) == Put(t2[0], v2[0]) + PutRow(t3, v3);
    assert PutRow(t3, v3) == Put(t3[0], v3[0]) + PutRow(t3[1..], v3[1..]);
  }

  lemma {:induction false} RowsAppend(tys: seq<Ty>, rows: seq<Row>, r: Row)
    requires (forall j :: 0 <= j < |rows| ==> FitsRow(tys, rows[j])) && FitsRow(tys, r)
    ensures PutRows(tys, rows + [r]) == PutRows(tys, rows) + PutRow(tys, r)
  {
    hide FitsRow, PutRow;
    if rows == [] {
      assert rows + [r] == [r];
      assert PutRows(tys, [r]) == PutRow(tys, r) + PutRows(tys, []);
    } else {
      assert (rows + [r])[1..] == rows[1..] + [r];
      RowsAppend(tys, rows[1..], r);
    }
  }

  lemma MarkIsNotWritten(d: Device)
    ensures DeviceRow(d) == DeviceRow(Persisted(d))
  {
  }

  /** The bytes of the first `n` devices. */
  ghost function DeviceBytes(sv: Saved, n: nat): seq<byte>
    requires WithinLimits(sv) && n <= |sv.devices|
  {
    PartsFit(sv);
    PutRows(DEVICE_LAYOUT, ToRows(DeviceRow, sv.devices[..n]))
  }

  lemma DeviceBytesNext(sv: Saved, n: nat)
    requires WithinLimits(sv) && n < |sv.devices|
    ensures FitsRow(DEVICE_LAYOUT, DeviceRow(sv.devices[n]))
    ensures DeviceBytes(sv, n + 1) == DeviceBytes(sv, n) + PutRow(DEVICE_LAYOUT, DeviceRow(sv.devices[n]))
  {
    hide FitsRow, DeviceRow, PutRow, PutRows, WithinLimits;
    PartsFit(sv);
    var ds := sv.devices;
    assert ds[..n + 1] == ds[..n] + [ds[n]];
    assert ToRows(DeviceRow, ds[..n + 1]) == ToRows(DeviceRow, ds[..n]) + [DeviceRow(ds[n])];
    RowsAppend(DEVICE_LAYOUT, ToRows(DeviceRow, ds[..n]), DeviceRow(ds[n]));
  }

  lemma DeviceBytesEnds(sv: Saved)
    requires WithinLimits(sv)
    ensures forall i :: 0 <= i < |sv.devices| ==> FitsRow(DEVICE_LAYOUT, DeviceRow(sv.devices[i]))
    ensures DeviceBytes(sv, 0) == []
    ensures DeviceBytes(sv, |sv.devices|) == PutRows(DEVICE_LAYOUT, ToRows(DeviceRow, sv.devices))
  {
    hide FitsRow, DeviceRow, PutRow, WithinLimits;
    PartsFit(sv);
    assert sv.devices[..|sv.devices|] == sv.devices;
  }

  /** The devices in key order, one record after the other. */
  method WriteDevices(w: Writer, devices: map<Id, Device>, ghost sv: Saved)
    requires WithinLimits(sv) && sv.devices == DeviceList(devices)
    modifies w
    ensures w.buf == old(w.buf) + DeviceBytes(sv, |sv.devices|)
  {
    hide FitsRow, DeviceRow, WithinLimits, Sorted, DeviceBytes, DeviceList, PutRow, Persisted;
    var ks := InOrder(devices.Keys);
    DeviceBytesEnds(sv);
    DeviceListLength(devices);
    assert w.buf == w.buf + [];
    for i := 0 to |ks|
      invariant |sv.devices| == |ks|
      invariant w.buf == old(w.buf) + DeviceBytes(sv, i)
    {
      DeviceListAt(devices, i);
      var d := devices[ks[i]];
      MarkIsNotWritten(d);
      DeviceBytesNext(sv, i);
      w.Fields(DEVICE_LAYOUT, DeviceRow(d));
      Regroup(old(w.buf), DeviceBytes(sv, i), PutRow(DEVICE_LAYOUT, DeviceRow(d)));
    }
  }

  lemma Regroup(a: seq<byte>, b: seq<byte>, c: seq<byte>)
    ensures a + b + c == a + (b + c)
  {
  }

  lemma DeviceListAt(devices: map<Id, Device>, i: nat)
    requires i < |Sorted(devices.Keys)|
    ensures i < |DeviceList(devices)|
    ensures Sorted(devices.Keys)[i] in devices
    ensures DeviceList(devices)[i] == Persisted(devices[Sorted(devices.Keys)[i]])
  {
    hide Sorted, Persisted;
    var ks := Sorted(devices.Keys);
    assert ks[i] in ks;
  }

  method WriteBody(policy: HealthPolicy, policyGeneration: Counter, epoch: U64, devices: map<Id, Device>,
      ghost sv: Saved)
    returns (body: seq<byte>)
    requires WithinLimits(sv) && sv == Saved(policy, policyGeneration, epoch, DeviceList(devices))
    ensures body == Body(sv)
  {
    hide FitsRow, PolicyRow, DeviceRow, WithinLimits, DeviceBytes, DeviceList, Body, PutRow, PutRows, PutLE, ToRows;
    BodyIs(sv);
    DeviceBytesEnds(sv);
    DeviceListLength(devices);
    var w := new Writer();
    w.Fields(POLICY_LAYOUT, PolicyRow(policy));
    assert w.buf == PutRow(POLICY_LAYOUT, PolicyRow(policy));
    w.Word(policyGeneration, 8);
    w.Word(epoch, 8);
    w.Word(|devices|, 4);
    WriteDevices(w, devices, sv);
    body := w.buf;
  }

  lemma DeviceListLength(devices: map<Id, Device>)
    ensures |DeviceList(devices)| == |devices| == |Sorted(devices.Keys)|
  {
    hide Sorted;
    assert |devices.Keys| == |devices|;
  }

  /** Every text of the device is within the writer's bound, every list and counter within the
      format's, and its dimensions stand under their kinds. */
  predicate FitsFormat(d: Device) {
    DeviceWritable(d) && KeyedByKind(d.evidence.dimensions)
  }

  method FitFormat(devices: map<Id, Device>) returns (ok: bool)
    ensures ok <==> forall x :: x in devices ==> FitsFormat(devices[x])
  {
    hide FitsFormat;
    var todo := devices.Keys;
    while todo != {}
      invariant todo <= devices.Keys
      invariant forall x :: x in devices && x !in todo ==> FitsFormat(devices[x])
      decreases |todo|
    {
      var x :| x in todo;
      todo := todo - {x};
      if !FitsFormat(devices[x]) {
        return false;
      }
    }
    return true;
  }

  lemma LimitsAre(sv: Saved, devices: map<Id, Device>)
    requires sv.devices == DeviceList(devices)
    ensures WithinLimits(sv) <==>
      && FitsWord(sv.policyGeneration) && |devices| <= MAX_COUNT
      && forall x :: x in devices ==> FitsFormat(devices[x])
  {
    hide FitsFormat, InFileForm, Sorted;
    var ks := Sorted(devices.Keys);
    DeviceListLength(devices);
    forall i | 0 <= i < |ks| ensures InFileForm(sv.devices[i]) <==> FitsFormat(devices[ks[i]]) {
      DeviceListAt(devices, i);
      FormOfPersisted(devices[ks[i]]);
    }
    forall x | x in devices ensures exists i :: 0 <= i < |ks| && ks[i] == x {
      assert x in ks;
    }
  }

  lemma FormOfPersisted(d: Device)
    ensures InFileForm(Persisted(d)) <==> FitsFormat(d)
  {
    hide AssessmentWritable, HistoryWritable, HealthWritable, CareWritable;
  }

  /** A store within the limits of the format is encoded; on any other the writer gives up. */
  method EncodeState(policy: HealthPolicy, policyGeneration: Counter, epoch: U64, devices: map<Id, Device>)
    returns (file: Option<seq<byte>>)
    ensures var sv := Saved(policy, policyGeneration, epoch, DeviceList(devices));
      file == if WithinLimits(sv) then Some(Encode(sv)) else None
  {
    hide WithinLimits, DeviceList, Body, PutLE, Checksum, StoreWord, FitsFormat;
    ghost var sv := Saved(policy, policyGeneration, epoch, DeviceList(devices));
    LimitsAre(sv, devices);
    var ok := FitFormat(devices);
    if !ok || !FitsWord(policyGeneration) || |devices| > MAX_COUNT {
      return None;
    }
    var body := WriteBody(policy, policyGeneration, epoch, devices, sv);
    var frame := new Writer();
    frame.Raw(MAGIC);
    frame.Word(SCHEMA_VERSION, 4);
    frame.Word(|body| % UINT32, 4);
    frame.Raw(body);
    assert frame.buf == Prefix(body) + body;
    var crc := Crc32(frame.buf);
    return Some(frame.buf + StoreWord(crc));
  }

  // ---- Decoding: the checks on one device ----

  method FaultIdsDiffer(fs: seq<Fault>) returns (ok: bool)
    ensures ok <==> UniqueIds(fs)
  {
    var seen: set<Id> := {};
    for i := 0 to |fs|
      invariant seen == set j | 0 <= j < i :: fs[j].id
      invariant UniqueIds(fs[..i])
    {
      if fs[i].id in seen {
        return false;
      }
      seen := seen + {fs[i].id};
    }
    assert fs[..|fs|] == fs;
    return true;
  }

  method RunIdsDiffer(vs: seq<ValidationRecord>) returns (ok: bool)
    ensures ok <==> DistinctRuns(vs)
  {
    var seen: set<Id> := {};
    for i := 0 to |vs|
      invariant seen == set j | 0 <= j < i :: vs[j].id
      invariant DistinctRuns(vs[..i])
    {
      if vs[i].id in seen {
        return false;
      }
      seen := seen + {vs[i].id};
    }
    assert vs[..|vs|] == vs;
    return true;
  }

  method CheckDevice(d: Device) returns (ok: bool)
    ensures ok <==> Possible(d)
  {
    hide UniqueIds, DistinctRuns;
    if d.health.generation == 0 {
      return false;
    }
    var faults := FaultIdsDiffer(d.history.faults);
    var runs := RunIdsDiffer(d.history.validations);
    if !faults || !runs {
      return false;
    }
    return !(d.care.quarantine.Some? && d.care.quarantine.value.active && d.health.state == Healthy);
  }

  // ---- Decoding: the device list ----

  /** No impossible device, and no uuid twice. */
  predicate AllPossible(ds: seq<Device>) {
    (forall i :: 0 <= i < |ds| ==> Possible(ds[i])) && DistinctUuids(ds)
  }

  /** A list is refused as soon as a prefix of it is. */
  lemma PrefixDecides(ds: seq<Device>, more: seq<Device>)
    requires AllPossible(ds + more)
    ensures AllPossible(ds)
  {
    hide Possible;
    var all := ds + more;
    assert forall i :: 0 <= i < |ds| ==> all[i] == ds[i];
  }

  function Uuids(ds: seq<Device>): set<Id> {
    set i | 0 <= i < |ds| :: ds[i].identity.uuid
  }

  lemma UuidsNext(ds: seq<Device>, d: Device)
    ensures Uuids(ds + [d]) == Uuids(ds) + {d.identity.uuid}
  {
    var all := ds + [d];
    assert forall i :: 0 <= i < |ds| ==> all[i] == ds[i];
    assert all[|ds|] == d;
  }

  lemma AllPossibleNext(ds: seq<Device>, d: Device)
    requires AllPossible(ds)
    ensures AllPossible(ds + [d]) <==> Possible(d) && d.identity.uuid !in Uuids(ds)
  {
    hide Possible;
    var all := ds + [d];
    assert all[|ds|] == d;
    assert forall i :: 0 <= i < |ds| ==> all[i] == ds[i];
  }

  /** The devices that a list of rows stands for. */
  function DevicesFrom(rows: seq<Row>): (ds: seq<Device>)
    requires forall j :: 0 <= j < |rows| ==> FitsRow(DEVICE_LAYOUT, rows[j])
  {
    FromRows(DeviceFrom, rows)
  }

  lemma DevicesFromConcat(a: seq<Row>, b: seq<Row>)
    requires forall j :: 0 <= j < |a| ==> FitsRow(DEVICE_LAYOUT, a[j])
    requires forall j :: 0 <= j < |b| ==> FitsRow(DEVICE_LAYOUT, b[j])
    ensures forall j :: 0 <= j < |a + b| ==> FitsRow(DEVICE_LAYOUT, (a + b)[j])
    ensures DevicesFrom(a + b) == DevicesFrom(a) + DevicesFrom(b)
  {
    hide FitsRow, DeviceFrom;
  }

  /** Whether the rest of the read parses or not, an unacceptable start is never accepted. */
  lemma BadStart(rows: seq<Row>, p: Parsed<seq<Row>>)
    requires forall j :: 0 <= j < |rows| ==> FitsRow(DEVICE_LAYOUT, rows[j])
    requires p.Some? ==> forall j :: 0 <= j < |p.value.0| ==> FitsRow(DEVICE_LAYOUT, p.value.0[j])
    requires !AllPossible(DevicesFrom(rows))
    ensures var whole := Prepended(rows, p);
      whole.Some? ==>
        && (forall j :: 0 <= j < |whole.value.0| ==> FitsRow(DEVICE_LAYOUT, whole.value.0[j]))
        && !AllPossible(DevicesFrom(whole.value.0))
  {
    hide FitsRow, AllPossible, DevicesFrom;
    if p.Some? {
      DevicesFromConcat(rows, p.value.0);
      if AllPossible(DevicesFrom(rows) + DevicesFrom(p.value.0)) {
        PrefixDecides(DevicesFrom(rows), DevicesFrom(p.value.0));
      }
    }
  }

  /** The devices kept from a list of `count` records before the first that does not parse or
      is not acceptable next to those already kept. */
  function PrefixKept(done: seq<Device>, count: nat, bs: seq<byte>): seq<Device>
    decreases count
  {
    if count == 0 then done
    else
      var row := GetRow(DEVICE_LAYOUT, bs);
      if row.None? then done
      else
        var d := DeviceFrom(row.value.0);
        if Possible(d) && d.identity.uuid !in Uuids(done) then PrefixKept(done + [d], count - 1, row.value.1) else done
  }

  /** The device records, each checked as it is read and kept if it passes. */
  method ReadDevices(r: Reader, count: nat) returns (devices: seq<Device>, ok: bool)
    requires r.Valid() && !r.failed
    modifies r
    ensures r.Valid()
    ensures devices == PrefixKept([], count, old(r.Rest()))
    ensures var p := GetRows(DEVICE_LAYOUT, count, old(r.Rest()));
      && (ok <==> p.Some? && AllPossible(DevicesFrom(p.value.0)))
      && (ok ==> !r.failed && devices == DevicesFrom(p.value.0) && r.Rest() == p.value.1)
  {
    hide FitsRow, AllPossible, Possible, DeviceFrom, GetRow, Uuids;
    devices := [];
    ghost var rows: seq<Row> := [];
    ghost var whole := GetRows(DEVICE_LAYOUT, count, r.Rest());
    var seen: set<Id> := {};
    PrependNone(whole);
    NothingRead();
    for i := 0 to count
      invariant r.Valid() && !r.failed
      invariant forall j :: 0 <= j < |rows| ==> FitsRow(DEVICE_LAYOUT, rows[j])
      invariant whole == Prepended(rows, GetRows(DEVICE_LAYOUT, count - i, r.Rest()))
      invariant devices == DevicesFrom(rows) && AllPossible(devices)
      invariant seen == Uuids(devices)
      invariant PrefixKept([], count, old(r.Rest())) == PrefixKept(devices, count - i, r.Rest())
    {
      ghost var earlier := rows;
      var row := r.Fields(DEVICE_LAYOUT);
      if row.None? {
        return devices, false;
      }
      var d := DeviceFrom(row.value);
      ghost var later := GetRows(DEVICE_LAYOUT, count - i - 1, r.Rest());
      rows := rows + [row.value];
      PrependOne(earlier, row.value, later);
      DevicesFromConcat(earlier, [row.value]);
      assert DevicesFrom([row.value]) == [d];
      AllPossibleNext(devices, d);
      UuidsNext(devices, d);
      var ok := CheckDevice(d);
      if !ok || d.identity.uuid in seen {
        BadStart(rows, later);
        return devices, false;
      }
      seen := seen + {d.identity.uuid};
      devices := devices + [d];
    }
    assert rows + [] == rows;
    return devices, true;
  }

  lemma NothingRead()
    ensures AllPossible([]) && DevicesFrom([]) == [] && Uuids([]) == {}
  {
  }

  // ---- Decoding: the whole file ----

  lemma FieldThenRest(tys: seq<Ty>, bs: seq<byte>)
    requires tys != []
    ensures Get(tys[0], bs).None? ==> GetRow(tys, bs).None?
    ensures Get(tys[0], bs).Some? ==>
      GetRow(tys, bs) == Prepended([Get(tys[0], bs).value.0], GetRow(tys[1..], Get(tys[0], bs).value.1))
  {
    hide Get, FitsRow, Fits;
  }

  /** Reading a four-field row, one field at a time. */
  lemma FieldByField(tys: seq<Ty>, bs: seq<byte>, vs: Row, rest: seq<seq<byte>>, n: nat)
    requires |tys| == 4 && n <= 4 == |vs| && |rest| == 5 && rest[0] == bs
    requires forall i :: 0 <= i < n ==> Get(tys[i], rest[i]) == Some((vs[i], rest[i + 1]))
    ensures GetRow(tys, bs) == Prepended(vs[..n], GetRow(tys[n..], rest[n]))
    decreases n
  {
    hide Get, FitsRow, Fits, GetRow;
    if n == 0 {
      assert tys[0..] == tys && vs[..0] == [];
      PrependNone(GetRow(tys, bs));
    } else {
      FieldByField(tys, bs, vs, rest, n - 1);
      FieldThenRest(tys[n - 1..], rest[n - 1]);
      assert tys[n - 1..][1..] == tys[n..];
      PrependOne(vs[..n - 1], vs[n - 1], GetRow(tys[n..], rest[n]));
      assert vs[..n] == vs[..n - 1] + [vs[n - 1]];
    }
  }

  /** A field that cannot be read sinks the whole row. */
  lemma FieldFails(tys: seq<Ty>, bs: seq<byte>, vs: Row, rest: seq<seq<byte>>, n: nat)
    requires |tys| == 4 && n < 4 == |vs| && |rest| == 5 && rest[0] == bs
    requires forall i :: 0 <= i < n ==> Get(tys[i], rest[i]) == Some((vs[i], rest[i + 1]))
    requires Get(tys[n], rest[n]).None?
    ensures GetRow(tys, bs).None?
  {
    hide Get, FitsRow, Fits, GetRow;
    FieldByField(tys, bs, vs, rest, n);
    FieldThenRest(tys[n..], rest[n]);
  }

  /** The image that four fields read in turn stand for, if they end the body. */
  lemma ParseIs(body: seq<byte>, vs: Row, rest: seq<seq<byte>>)
    requires |vs| == 4 && |rest| == 5 && rest[0] == body
    requires forall i :: 0 <= i < 4 ==> Get(STORE_LAYOUT[i], rest[i]) == Some((vs[i], rest[i + 1]))
    ensures FitsRow(STORE_LAYOUT, vs)
    ensures Parse(body) == if rest[4] == [] then Some(SavedFrom(vs)) else None
  {
    hide Get, Fits, SavedFrom, FitsRow;
    var tys := STORE_LAYOUT;
    FieldByField(tys, body, vs, rest, 4);
    assert tys[4..] == [] && vs[..4] == vs;
    assert GetRow([], rest[4]) == Some(([], rest[4]));
    assert vs + [] == vs;
  }

  lemma SavedFields(vs: Row)
    requires FitsRow(STORE_LAYOUT, vs)
    ensures vs[0].VRow? && FitsRow(POLICY_LAYOUT, vs[0].row)
    ensures vs[1].VNum? && vs[2].VNum? && 0 <= vs[1].n < UINT64 && 0 <= vs[2].n < UINT64
    ensures vs[3].VList? && forall j :: 0 <= j < |vs[3].rows| ==> FitsRow(DEVICE_LAYOUT, vs[3].rows[j])
    ensures SavedFrom(vs) == Saved(PolicyOf(vs[0].row), vs[1].n, vs[2].n, DevicesFrom(vs[3].rows))
  {
    hide PolicyOf, DeviceFrom;
    assert Fits(STORE_LAYOUT[0], vs[0]) && Fits(STORE_LAYOUT[1], vs[1]) && Fits(STORE_LAYOUT[2], vs[2])
           && Fits(STORE_LAYOUT[3], vs[3]);
  }

  /** What the decoder makes of a body. */
  function Checked(body: seq<byte>): Option<Saved> {
    var sv := Parse(body);
    if sv.Some? && Plausible(sv.value) then sv else None
  }

  /** Three scalar fields read, then the count and the devices. */
  lemma ListRead(bs: seq<byte>)
    ensures var c := GetInt(bs, 4);
      if c.None? || c.value.0 > MAX_COUNT then Get(TList(DEVICE_LAYOUT), bs).None?
      else
        var rs := GetRows(DEVICE_LAYOUT, c.value.0, c.value.1);
        Get(TList(DEVICE_LAYOUT), bs) == if rs.None? then None else Some((VList(rs.value.0), rs.value.1))
  {
    hide GetRows, GetInt;
  }

  /** The header fields and what follows them. */
  datatype Header = Header(policy: HealthPolicy, generation: U64, epoch: U64, rest: seq<byte>)

  function HeaderOf(body: seq<byte>): Option<Header> {
    var p0 := Get(TRow(POLICY_LAYOUT), body);
    if p0.None? then None
    else
      var p1 := Get(TU64, p0.value.1);
      if p1.None? then None
      else
        var p2 := Get(TU64, p1.value.1);
        if p2.None? then None
        else Some(Header(PolicyOf(p0.value.0.row), p1.value.0.n, p2.value.0.n, p2.value.1))
  }

  /** A header that cannot be read, seen from the field that fails. */
  lemma HeaderFails(body: seq<byte>, vs: Row, rest: seq<seq<byte>>, n: nat)
    requires n < 3 && |vs| == n && |rest| == n + 1 && rest[0] == body
    requires forall i :: 0 <= i < n ==> Get(STORE_LAYOUT[i], rest[i]) == Some((vs[i], rest[i + 1]))
    requires Get(STORE_LAYOUT[n], rest[n]).None?
    ensures HeaderOf(body).None?
  {
    hide Get, PolicyOf;
    if n > 0 {
      assert Get(STORE_LAYOUT[0], rest[0]) == Some((vs[0], rest[1]));
    }
    if n > 1 {
      assert Get(STORE_LAYOUT[1], rest[1]) == Some((vs[1], rest[2]));
    }
  }

  lemma HeaderIs(body: seq<byte>, vs: Row, rest: seq<seq<byte>>)
    requires |vs| == 3 && |rest| == 4 && rest[0] == body
    requires forall i :: 0 <= i < 3 ==> Get(STORE_LAYOUT[i], rest[i]) == Some((vs[i], rest[i + 1]))
    ensures vs[0].VRow? && FitsRow(POLICY_LAYOUT, vs[0].row)
    ensures vs[1].VNum? && vs[2].VNum? && 0 <= vs[1].n < UINT64 && 0 <= vs[2].n < UINT64
    ensures HeaderOf(body) == Some(Header(PolicyOf(vs[0].row), vs[1].n, vs[2].n, rest[3]))
  {
    hide Get, PolicyOf;
    HeaderFits(vs, rest);
    assert Get(STORE_LAYOUT[0], rest[0]) == Some((vs[0], rest[1]));
    assert Get(STORE_LAYOUT[1], rest[1]) == Some((vs[1], rest[2]));
    assert Get(STORE_LAYOUT[2], rest[2]) == Some((vs[2], rest[3]));
  }

  /** The header fields, read in order. */
  method ReadHeader(r: Reader, ghost body: seq<byte>) returns (h: Option<Row>, ghost rest: seq<seq<byte>>)
    requires r.Valid() && !r.failed && r.Rest() == body
    modifies r
    ensures r.Valid()
    ensures h.None? ==> Parse(body).None? && HeaderOf(body).None?
    ensures h.Some? ==> !r.failed && |h.value| == 3 && |rest| == 4 && rest[0] == body && rest[3] == r.Rest()
    ensures h.Some? ==> forall i :: 0 <= i < 3 ==> Get(STORE_LAYOUT[i], rest[i]) == Some((h.value[i], rest[i + 1]))
  {
    hide Get, GetRow, Fits, FitsRow, HeaderOf;
    var vs: Row := [];
    rest := [body];
    for i := 0 to 3
      invariant r.Valid() && !r.failed
      invariant |vs| == i && |rest| == i + 1 && rest[0] == body && rest[i] == r.Rest()
      invariant forall j :: 0 <= j < i ==> Get(STORE_LAYOUT[j], rest[j]) == Some((vs[j], rest[j + 1]))
    {
      ghost var before := r.Rest();
      var v := r.Value(STORE_LAYOUT[i]);
      if v.None? {
        FieldFails(STORE_LAYOUT, body, Padded(vs, 4, VFlag(false)), Padded(rest, 5, []), i);
        HeaderFails(body, vs, rest, i);
        return None, rest;
      }
      vs := vs + [v.value];
      rest := rest + [r.Rest()];
    }
    return Some(vs), rest;
  }

  function Padded<T>(s: seq<T>, n: nat, x: T): (r: seq<T>)
    requires |s| <= n
    ensures |r| == n && forall i :: 0 <= i < |s| ==> r[i] == s[i]
  {
    s + seq(n - |s|, _ => x)
  }

  /** With the header read, the rest of the body decides as the device list does. */
  lemma BodyDecided(body: seq<byte>, h: Row, rest: seq<seq<byte>>)
    requires |h| == 3 && |rest| == 4 && rest[0] == body
    requires forall i :: 0 <= i < 3 ==> Get(STORE_LAYOUT[i], rest[i]) == Some((h[i], rest[i + 1]))
    ensures Get(TList(DEVICE_LAYOUT), rest[3]).None? ==> Parse(body).None?
    ensures Get(TList(DEVICE_LAYOUT), rest[3]).Some? ==>
      var p := Get(TList(DEVICE_LAYOUT), rest[3]).value;
      && FitsRow(STORE_LAYOUT, h + [p.0])
      && Parse(body) == if p.1 == [] then Some(SavedFrom(h + [p.0])) else None
  {
    hide Get, GetRow, Fits, FitsRow, SavedFrom, Parse;
    var p := Get(TList(DEVICE_LAYOUT), rest[3]);
    assert STORE_LAYOUT[3] == TList(DEVICE_LAYOUT);
    if p.None? {
      FieldFails(STORE_LAYOUT, body, Padded(h, 4, VFlag(false)), Padded(rest, 5, []), 3);
      ParseNeedsRow(body);
    } else {
      ParseIs(body, h + [p.value.0], rest + [p.value.1]);
    }
  }

  lemma ParseNeedsRow(body: seq<byte>)
    requires GetRow(STORE_LAYOUT, body).None?
    ensures Parse(body).None?
  {
  }

  lemma HeaderFits(h: Row, rest: seq<seq<byte>>)
    requires |h| == 3 && |rest| == 4
    requires forall i :: 0 <= i < 3 ==> Get(STORE_LAYOUT[i], rest[i]) == Some((h[i], rest[i + 1]))
    ensures h[0].VRow? && FitsRow(POLICY_LAYOUT, h[0].row)
    ensures h[1].VNum? && h[2].VNum? && 0 <= h[1].n < UINT64 && 0 <= h[2].n < UINT64
  {
    hide Get;
    forall i | 0 <= i < 3 ensures Fits(STORE_LAYOUT[i], h[i]) {
      assert Get(STORE_LAYOUT[i], rest[i]) == Some((h[i], rest[i + 1]));
    }
    assert Fits(STORE_LAYOUT[0], h[0]) && Fits(STORE_LAYOUT[1], h[1]) && Fits(STORE_LAYOUT[2], h[2]);
  }

  /** How a decode ends: before it has written anything, part way, or with an image. */
  datatype Decoded =
    | Refusal
    | Partial(header: Header, kept: seq<Device>)
    | Complete(saved: Saved)

  /** What the decoder has written when it stops in a body. */
  function BodyOutcome(body: seq<byte>): Decoded {
    var h := HeaderOf(body);
    if h.None? || h.value.generation == 0 then Refusal
    else
      var sv := Checked(body);
      if sv.Some? then Complete(sv.value)
      else
        var c := GetInt(h.value.rest, 4);
        if c.None? || c.value.0 > MAX_COUNT then Partial(h.value, [])
        else Partial(h.value, PrefixKept([], c.value.0, c.value.1))
  }

  function FileOutcome(file: seq<byte>): Decoded {
    if WellFramed(file) then BodyOutcome(Payload(file)) else Refusal
  }

  method DecodeBody(body: seq<byte>) returns (result: Decoded)
    ensures result == BodyOutcome(body)
  {
    hide Get, GetRow, Fits, FitsRow, SavedFrom, Parse, PolicyOf, DevicesFrom, Possible, DistinctUuids, GetInt, GetRows,
      HeaderOf, PrefixKept;
    var r := new Reader(body);
    var h, rest := ReadHeader(r, body);
    if h.None? {
      return Refusal;
    }
    HeaderIs(body, h.value, rest);
    BodyDecided(body, h.value, rest);
    ListRead(rest[3]);
    ListPlausible(body, h.value, rest);
    ghost var at := r.Rest();
    var header := Header(PolicyOf(h.value[0].row), h.value[1].n, h.value[2].n, r.data[r.pos..]);
    if header.generation == 0 {
      return Refusal;
    }
    var count := r.Word(4);
    if r.failed || count > MAX_COUNT {
      return Partial(header, []);
    }
    var devices, ok := ReadDevices(r, count);
    if !ok || r.pos != |r.data| {
      return Partial(header, devices);
    }
    return Complete(Saved(header.policy, header.generation, header.epoch, devices));
  }

  /** What a parsed body is and when it is plausible, in terms of the header and the list. */
  lemma ListPlausible(body: seq<byte>, h: Row, rest: seq<seq<byte>>)
    requires |h| == 3 && |rest| == 4 && rest[0] == body
    requires forall i :: 0 <= i < 3 ==> Get(STORE_LAYOUT[i], rest[i]) == Some((h[i], rest[i + 1]))
    ensures h[0].VRow? && FitsRow(POLICY_LAYOUT, h[0].row)
    ensures h[1].VNum? && h[2].VNum? && 0 <= h[1].n < UINT64 && 0 <= h[2].n < UINT64
    ensures var p := Get(TList(DEVICE_LAYOUT), rest[3]);
      p.Some? && p.value.1 == [] ==>
        && p.value.0.VList? && (forall j :: 0 <= j < |p.value.0.rows| ==> FitsRow(DEVICE_LAYOUT, p.value.0.rows[j]))
        && Parse(body) == Some(Saved(PolicyOf(h[0].row), h[1].n, h[2].n, DevicesFrom(p.value.0.rows)))
        && (Plausible(Parse(body).value) <==> h[1].n != 0 && AllPossible(DevicesFrom(p.value.0.rows)))
  {
    hide Get, GetRow, Fits, FitsRow, SavedFrom, Parse, PolicyOf, DevicesFrom, Possible, DistinctUuids;
    HeaderFits(h, rest);
    BodyDecided(body, h, rest);
    var p := Get(TList(DEVICE_LAYOUT), rest[3]);
    if p.Some? && p.value.1 == [] {
      SavedFields(h + [p.value.0]);
    }
  }

  /** The whole decoder. */
  method DecodeState(file: seq<byte>) returns (result: Decoded)
    ensures result == FileOutcome(file)
  {
    hide BodyOutcome, GetLE, LoadWord, Checksum;
    if |file| < PREFIX_SIZE + CRC_SIZE {
      return Refusal;
    }
    if file[..4] != MAGIC {
      return Refusal;
    }
    var version := LoadLE(file[4..8]);
    if version != SCHEMA_VERSION {
      return Refusal;
    }
    var len := LoadLE(file[8..12]);
    var bodyEnd := PREFIX_SIZE + len;
    if |file| != bodyEnd + CRC_SIZE {
      return Refusal;
    }
    var expected := LoadWord(file[bodyEnd..]);
    var actual := Crc32(file[..bodyEnd]);
    if expected != actual {
      return Refusal;
    }
    result := DecodeBody(file[PREFIX_SIZE..bodyEnd]);
  }

  /** The step-by-step decoder ends with an image exactly when the specification does, and
      with the same one. */
  lemma OutcomeIsDecode(file: seq<byte>)
    ensures Decode(file) == if FileOutcome(file).Complete? then Some(FileOutcome(file).saved) else None
  {
    hide Sealed, GetLE, Parse, Plausible, HeaderOf, PrefixKept, GetInt;
    if WellFramed(file) {
      RefusedBody(Payload(file));
    }
  }

  lemma RefusedBody(body: seq<byte>)
    ensures HeaderOf(body).None? || HeaderOf(body).value.generation == 0 ==> Checked(body).None?
  {
    hide Get, GetRow, Fits, FitsRow, SavedFrom, Possible, DistinctUuids;
    var h := HeaderOf(body);
    var p := GetRow(STORE_LAYOUT, body);
    FieldThenRest(STORE_LAYOUT, body);
    var p0 := Get(TRow(POLICY_LAYOUT), body);
    if p0.Some? {
      FieldThenRest(STORE_LAYOUT[1..], p0.value.1);
      var p1 := Get(TU64, p0.value.1);
      if p1.Some? {
        FieldThenRest(STORE_LAYOUT[1..][1..], p1.value.1);
        var p2 := Get(TU64, p1.value.1);
        if p2.Some? {
          var vs, rest := [p0.value.0, p1.value.0, p2.value.0], [body, p0.value.1, p1.value.1, p2.value.1];
          assert forall i :: 0 <= i < 3 ==> Get(STORE_LAYOUT[i], rest[i]) == Some((vs[i], rest[i + 1]));
          BodyDecided(body, vs, rest);
          ListPlausible(body, vs, rest);
        }
      }
    }
  }
}
