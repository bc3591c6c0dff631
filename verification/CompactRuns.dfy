/** Runs that a new process can always be started from: bounds on the number of events and the
    length of their texts under which the saved image fits its length field, and is loaded. */
module CompactRuns {
  import opened Enums
  import opened Records
  import opened Devices
  import opened StoreMachine
  import opened Runs
  import opened Recovery
  import opened Wire
  import opened DeviceCodec
  import opened Persistence
  import opened Limits
  import opened SaveableRuns
  import opened ImageSize
  import opened Restarts
  import opened Ledgers

  // ---- What events add to the image ----

  /** The most fields an event adds to the image. */
  function Growth(e: Event): nat {
    match e
    case RegisterDevice(_, _) => DEVICE_FIELDS + 60
    case RecordFault(_) => 16
    case RecordValidation(_) => 12
    case Revalidate(_, _) => 72
    case BeginQuarantine(_, _, _, _) => 20
    case BeginRecovery(_) => 10
    case _ => 0
  }

  function TotalGrowth(trace: Trace): nat {
    if trace == [] then 0
    else TotalGrowth(trace[..|trace| - 1]) + Growth(trace[|trace| - 1].event)
  }

  lemma GrowthSnoc(trace: Trace, t: Timed)
    ensures TotalGrowth(trace + [t]) == TotalGrowth(trace) + Growth(t.event)
  {
    assert (trace + [t])[..|trace|] == trace;
  }

  /** The fields of device `x` that the events of the trace account for. */
  ghost function Share(trace: Trace, x: Id): nat {
    16 * Count(trace, ReportsOf(x)) + 12 * Count(trace, ValidationsOf(x)) + 10 * Charges(trace, x)
  }

  ghost function Shares(ks: seq<Id>, trace: Trace): nat {
    if ks == [] then 0 else Share(trace, ks[0]) + Shares(ks[1..], trace)
  }

  /** The one device whose records an event lengthens. */
  function Lengthened(e: Event): Id {
    match e
    case RecordFault(f) => f.accelerator
    case RecordValidation(v) => v.accelerator
    case Revalidate(id, _) => id
    case BeginQuarantine(id, _, _, _) => id
    case BeginRecovery(id) => id
    case _ => 0
  }

  lemma ShareStep(trace: Trace, x: Id)
    requires trace != []
    ensures var init, e := trace[..|trace| - 1], trace[|trace| - 1].event;
      Share(trace, x) <= Share(init, x) + if x == Lengthened(e) && !e.RegisterDevice? then Growth(e) else 0
  {
  }

  lemma {:induction false} SharesStep(ks: seq<Id>, trace: Trace)
    requires trace != [] && IsSorted(ks)
    ensures var init, e := trace[..|trace| - 1], trace[|trace| - 1].event;
      Shares(ks, trace) <= Shares(ks, init) + if Lengthened(e) in ks && !e.RegisterDevice? then Growth(e) else 0
  {
    hide Share, Growth, Lengthened;
    if ks != [] {
      SharesStep(ks[1..], trace);
      ShareStep(trace, ks[0]);
      assert ks[0] !in ks[1..];
      assert forall x :: x in ks <==> x == ks[0] || x in ks[1..];
    }
  }

  lemma {:induction false} NoShares(ks: seq<Id>)
    ensures Shares(ks, []) == 0
  {
    if ks != [] {
      NoShares(ks[1..]);
    }
  }

  /** Added up over any devices, an event is counted once. */
  lemma {:induction false} GrowthIsShared(ks: seq<Id>, trace: Trace)
    requires IsSorted(ks)
    ensures Shares(ks, trace) + (DEVICE_FIELDS + 60) * Count(trace, Registrations()) <= TotalGrowth(trace)
  {
    hide Share, Shares;
    if trace == [] {
      NoShares(ks);
    } else {
      GrowthIsShared(ks, trace[..|trace| - 1]);
      SharesStep(ks, trace);
    }
  }

  // ---- The image of a run ----

  lemma DeviceOfRun(s: Store, trace: Trace, x: Id, m: TextLimit)
    requires IsInitial(s) && Admissible(s, trace) && x in Run(s, trace).devices
    requires EventsFit(trace, m)
    ensures var d := Persisted(Run(s, trace).devices[x]);
      && ShortRow(DEVICE_LAYOUT, DeviceRow(d), m)
      && RowFields(DEVICE_LAYOUT, DeviceRow(d)) <= DEVICE_FIELDS + 60 + Share(trace, x)
  {
    hide Run, Admissible, Count, Charges, ShortRow, RowFields, DeviceRow, EventsFit, HistoryFits, EntriesFit, CareFits,
      AllWithin, Quotable;
    var d := Run(s, trace).devices[x];
    RunFits(s, trace, x, m);
    RunBounded(s, trace, x);
    TransitionsBounded(s, trace, x);
    ShortDevice(Persisted(d), Run(s, trace).policyGeneration, m);
    DeviceFields(Persisted(d));
  }

  lemma {:induction false} FieldsOfList(ds: seq<Device>, ks: seq<Id>, trace: Trace)
    requires |ds| == |ks|
    requires forall i :: 0 <= i < |ds| ==>
      RowFields(DEVICE_LAYOUT, DeviceRow(ds[i])) <= DEVICE_FIELDS + 60 + Share(trace, ks[i])
    ensures RowsFields(DEVICE_LAYOUT, ToRows(DeviceRow, ds)) <= (DEVICE_FIELDS + 60) * |ks| + Shares(ks, trace)
    decreases |ds|
  {
    hide RowFields, DeviceRow, Share;
    if ds != [] {
      FieldsOfList(ds[1..], ks[1..], trace);
      assert ToRows(DeviceRow, ds)[1..] == ToRows(DeviceRow, ds[1..]);
      assert ToRows(DeviceRow, ds)[0] == DeviceRow(ds[0]);
    }
  }

  lemma FieldsOfRun(s: Store, trace: Trace, m: TextLimit)
    requires IsInitial(s) && Admissible(s, trace) && EventsFit(trace, m)
    ensures var ds := DeviceList(Run(s, trace).devices);
      && (forall i :: 0 <= i < |ds| ==> ShortRow(DEVICE_LAYOUT, DeviceRow(ds[i]), m))
      && RowsFields(DEVICE_LAYOUT, ToRows(DeviceRow, ds)) <= TotalGrowth(trace)
  {
    hide Run, Admissible, Share, ShortRow, RowFields, RowsFields, DeviceRow, EventsFit, Persisted, Sorted, Count,
      TotalGrowth, ToRows;
    var devices := Run(s, trace).devices;
    var ks, ds := Sorted(devices.Keys), DeviceList(devices);
    forall i | 0 <= i < |ds|
      ensures ShortRow(DEVICE_LAYOUT, DeviceRow(ds[i]), m)
      ensures RowFields(DEVICE_LAYOUT, DeviceRow(ds[i])) <= DEVICE_FIELDS + 60 + Share(trace, ks[i])
    {
      assert ks[i] in ks;
      DeviceOfRun(s, trace, ks[i], m);
    }
    FieldsOfList(ds, ks, trace);
    RunHeader(s, trace);
    GrowthIsShared(ks, trace);
  }

  /** The image of the store a run ends in is at most as long as its events let it grow. */
  lemma ImageBounded(s: Store, trace: Trace, m: TextLimit)
    requires IsInitial(s) && Admissible(s, trace) && EventsFit(trace, m) && Saveable(Run(s, trace))
    ensures WithinLimits(Contents(Run(s, trace)))
    ensures |Body(Contents(Run(s, trace)))| <= (16 + TotalGrowth(trace)) * (m + 8)
  {
    hide Run, Admissible, Share, ShortRow, RowsFields, DeviceRow, EventsFit, TotalGrowth, ToRows, Body, WithinLimits,
      Saveable, Invariant, DeviceList;
    ReachableInvariant(s, trace);
    ContentsWithinLimits(Run(s, trace));
    FieldsOfRun(s, trace, m);
    BodyLength(Contents(Run(s, trace)), TotalGrowth(trace), m);
  }

  // ---- Compact runs ----

  /** No text an event brings has more than `m` characters, and the events that make the store
      larger are few enough for texts of that length. Observations, losses, reassessments,
      workers, restarts and clock readings are not limited. */
  ghost predicate Compact(trace: Trace, m: TextLimit) {
    && m <= MAX_STRING
    && EventsFit(trace, m)
    && (16 + TotalGrowth(trace)) * (m + 8) < UINT32
    && 1 + Count(trace, Policies()) < UINT64
  }

  lemma CompactBounds(growth: nat, m: TextLimit)
    requires (16 + growth) * (m + 8) < UINT32
    ensures growth < 8_300_000
  {
    if growth >= 8_300_000 {
      AddFields(8_300_016, growth - 8_300_000, m);
    }
  }

  lemma WiderFits(e: Event, m: nat, n: nat)
    requires EventFits(e, m) && m <= n
    ensures EventFits(e, n)
  {
  }

  lemma CompactRunsAreModest(trace: Trace, m: TextLimit)
    requires Compact(trace, m)
    ensures Modest(trace)
  {
    hide Count, Charges, EventFits, TotalGrowth;
    forall i | 0 <= i < |trace| ensures EventFits(trace[i].event, MAX_STRING) {
      WiderFits(trace[i].event, m, MAX_STRING);
    }
    CompactBounds(TotalGrowth(trace), m);
    GrowthIsShared([], trace);
    forall x ensures ModestFor(trace, x) {
      GrowthIsShared([x], trace);
      assert Shares([x], trace) == Share(trace, x) + Shares([], trace);
    }
  }

  /** A compact run can be saved, and a new process loads the save exactly when no device
      repeats a validation id: nothing is asked of the store the run ends in. */
  lemma CompactRunsLoad(s: Store, trace: Trace, m: TextLimit, now: Timestamp)
    requires IsInitial(s) && Admissible(s, trace) && Compact(trace, m)
    ensures WithinLimits(Contents(Run(s, trace))) && |Body(Contents(Run(s, trace)))| < UINT32
    ensures Load(s, Encode(Contents(Run(s, trace))), now) ==
      if DistinctRunIds(Run(s, trace)) then Some(Run(s, trace + [Timed(Restart, now)])) else None
  {
    hide Encode, Load, Body, Contents, IsInitial, WithinLimits, Saveable, DistinctRunIds, Modest, TotalGrowth,
      EventsFit, Run, Count;
    CompactRunsAreModest(trace, m);
    ModestRunsAreSaveable(s, trace);
    ImageBounded(s, trace, m);
    ModestRunsLoad(s, trace, now);
  }

  // ---- Validations under new ids ----

  /** The device and the id of the validation an event carries. */
  function Validated(e: Event): Option<(Id, Id)> {
    match e
    case RecordValidation(v) => Some((v.accelerator, v.id))
    case Revalidate(id, v) => Some((id, v.id))
    case _ => None
  }

  /** No two events carry a validation of one device under one id. */
  predicate NoRepeats(trace: Trace) {
    forall i, j :: 0 <= i < j < |trace| && Validated(trace[i].event).Some? ==>
      Validated(trace[i].event) != Validated(trace[j].event)
  }

  /** Every record of the device came in an event of the trace. */
  predicate FromEvents(vs: seq<ValidationRecord>, trace: Trace, x: Id) {
    forall k :: 0 <= k < |vs| ==> CameIn(vs[k].id, trace, x)
  }

  predicate CameIn(id: Id, trace: Trace, x: Id) {
    exists i :: 0 <= i < |trace| && Validated(trace[i].event) == Some((x, id))
  }

  lemma FromEventsExtends(vs: seq<ValidationRecord>, trace: Trace, x: Id)
    requires trace != [] && FromEvents(vs, trace[..|trace| - 1], x)
    ensures FromEvents(vs, trace, x)
  {
    forall k | 0 <= k < |vs| ensures CameIn(vs[k].id, trace, x) {
      assert CameIn(vs[k].id, trace[..|trace| - 1], x);
    }
  }

  lemma NewRun(vs: seq<ValidationRecord>, v: ValidationRecord, trace: Trace, x: Id)
    requires trace != [] && NoRepeats(trace) && Validated(trace[|trace| - 1].event) == Some((x, v.id))
    requires DistinctRuns(vs) && FromEvents(vs, trace[..|trace| - 1], x)
    ensures DistinctRuns(vs + [v]) && FromEvents(vs + [v], trace, x)
  {
    hide Validated;
    FromEventsExtends(vs, trace, x);
    assert CameIn(v.id, trace, x);
    forall k | 0 <= k < |vs| ensures vs[k].id != v.id {
      assert CameIn(vs[k].id, trace[..|trace| - 1], x);
    }
  }

  lemma {:induction false} RunsAreDistinct(s: Store, trace: Trace, x: Id)
    requires IsInitial(s) && Admissible(s, trace) && NoRepeats(trace)
    requires x in Run(s, trace).devices
    ensures DistinctRuns(Run(s, trace).devices[x].history.validations)
    ensures FromEvents(Run(s, trace).devices[x].history.validations, trace, x)
    decreases |trace|
  {
    hide DeviceAfter, Step, Sound, DistinctRuns, FromEvents;
    if trace != [] {
      var init, last := trace[..|trace| - 1], trace[|trace| - 1];
      assert NoRepeats(init);
      if x in Run(s, init).devices {
        RunsAreDistinct(s, init, x);
        LastStep(s, trace, x);
        var vs := Run(s, init).devices[x].history.validations;
        ValidationsStep(Run(s, init), Run(s, init).devices[x], last.event, last.now);
        FromEventsExtends(vs, trace, x);
        if Run(s, trace).devices[x].history.validations != vs {
          NewRun(vs, last.event.record, trace, x);
        }
      } else {
        NewDevice(s, trace, x);
        NoRuns(trace, x);
      }
    }
  }

  lemma NoRuns(trace: Trace, x: Id)
    ensures DistinctRuns([]) && FromEvents([], trace, x)
  {
  }

  /** A compact run whose validations all come under new ids is always continued: the new
      process starts from the store the run ended in, one Restart step later. */
  lemma NewIdsLoad(s: Store, trace: Trace, m: TextLimit, now: Timestamp)
    requires IsInitial(s) && Admissible(s, trace) && Compact(trace, m) && NoRepeats(trace)
    ensures WithinLimits(Contents(Run(s, trace)))
    ensures Load(s, Encode(Contents(Run(s, trace))), now) == Some(Run(s, trace + [Timed(Restart, now)]))
  {
    hide Encode, Load, Contents, IsInitial, WithinLimits, Compact, NoRepeats, Run, DistinctRuns, FromEvents;
    CompactRunsLoad(s, trace, m, now);
    forall x | x in Run(s, trace).devices ensures DistinctRuns(Run(s, trace).devices[x].history.validations) {
      RunsAreDistinct(s, trace, x);
    }
  }
}
