/** The accounting scan: what each figure means, and how the figures agree with the indexes
    and the global fault log over whole runs. */
module Accounting {
  import opened Enums
  import opened Records
  import opened Devices
  import opened StoreMachine
  import opened Runs
  import opened Indexes
  import opened GlobalLogs
  import opened Snapshots
  import opened Causes

  datatype Tally = Tally(
    tracked: nat, healthy: nat, degraded: nat, unhealthy: nat, failed: nat, quarantined: nat,
    recovering: nat, stale: nat, validationRecords: nat, unresolvedFaults: nat, resolvedFaults: nat)

  // ---- Counting devices ----

  function Those(devices: map<Id, Device>, among: set<Id>, p: Device -> bool): set<Id> {
    set x | x in among && x in devices && p(devices[x])
  }

  function InState(st: HealthState): Device -> bool {
    (d: Device) => d.health.state == st
  }

  function InRecovery(): Device -> bool {
    (d: Device) => d.care.inRecovery
  }

  function WithOldEvidence(c: Context): Device -> bool {
    (d: Device) => HasOldEvidence(d, c)
  }

  lemma OneMore(devices: map<Id, Device>, among: set<Id>, x: Id, p: Device -> bool)
    requires x in devices && x !in among
    ensures |Those(devices, among + {x}, p)| == |Those(devices, among, p)| + if p(devices[x]) then 1 else 0
  {
    var before, after := Those(devices, among, p), Those(devices, among + {x}, p);
    if p(devices[x]) {
      assert after == before + {x};
    } else {
      assert after == before;
    }
  }

  lemma NoneYet(devices: map<Id, Device>, p: Device -> bool)
    ensures |Those(devices, {}, p)| == 0
  {
    assert Those(devices, {}, p) == {};
  }

  // ---- Summing over devices ----

  function Sum(ks: seq<Id>, devices: map<Id, Device>, f: Device -> nat): nat
    requires forall k :: k in ks ==> k in devices
  {
    if ks == [] then 0 else Sum(ks[..|ks| - 1], devices, f) + f(devices[ks[|ks| - 1]])
  }

  function ValidationCount(): Device -> nat {
    (d: Device) => |d.history.validations|
  }

  function OpenFaults(fs: seq<Fault>): nat {
    if fs == [] then 0 else OpenFaults(fs[..|fs| - 1]) + if fs[|fs| - 1].resolution == Open then 1 else 0
  }

  function ClosedFaults(fs: seq<Fault>): nat {
    if fs == [] then 0 else ClosedFaults(fs[..|fs| - 1]) + if fs[|fs| - 1].resolution == Open then 0 else 1
  }

  function OpenCount(): Device -> nat {
    (d: Device) => OpenFaults(d.history.faults)
  }

  function ClosedCount(): Device -> nat {
    (d: Device) => ClosedFaults(d.history.faults)
  }

  lemma {:induction false} EveryFaultCounts(fs: seq<Fault>)
    ensures OpenFaults(fs) + ClosedFaults(fs) == |fs|
  {
    if fs != [] {
      EveryFaultCounts(fs[..|fs| - 1]);
    }
  }

  function Elements(ks: seq<Id>): set<Id> {
    set x | x in ks
  }

  /** What a scan of the devices in `ks` reports. */
  function TallyAmong(devices: map<Id, Device>, ks: seq<Id>, c: Context): Tally
    requires forall k :: k in ks ==> k in devices
  {
    var among := Elements(ks);
    Tally(
      |ks|,
      |Those(devices, among, InState(Healthy))|,
      |Those(devices, among, InState(Degraded))|,
      |Those(devices, among, InState(Unhealthy))|,
      |Those(devices, among, InState(Failed))|,
      |Those(devices, among, InState(Quarantined))|,
      |Those(devices, among, InRecovery())|,
      |Those(devices, among, WithOldEvidence(c))|,
      Sum(ks, devices, ValidationCount()),
      Sum(ks, devices, OpenCount()),
      Sum(ks, devices, ClosedCount()))
  }

  ghost function TallyOf(s: Store, now: Timestamp): Tally {
    TallyAmong(s.devices, Sorted(s.devices.Keys), ContextOf(s, now))
  }

  function One(b: bool): nat {
    if b then 1 else 0
  }

  /** One more device adds one to exactly the figures that describe it. */
  lemma TallyNext(devices: map<Id, Device>, ks: seq<Id>, k: Id, c: Context)
    requires (forall j :: j in ks ==> j in devices) && k in devices && k !in ks
    ensures forall j :: j in ks + [k] ==> j in devices
    ensures var a, b, d := TallyAmong(devices, ks, c), TallyAmong(devices, ks + [k], c), devices[k];
      b == Tally(
        a.tracked + 1, a.healthy + One(d.health.state == Healthy), a.degraded + One(d.health.state == Degraded),
        a.unhealthy + One(d.health.state == Unhealthy), a.failed + One(d.health.state == Failed),
        a.quarantined + One(d.health.state == Quarantined), a.recovering + One(d.care.inRecovery),
        a.stale + One(HasOldEvidence(d, c)), a.validationRecords + |d.history.validations|,
        a.unresolvedFaults + OpenFaults(d.history.faults), a.resolvedFaults + ClosedFaults(d.history.faults))
  {
    hide Those, HasOldEvidence, OpenFaults, ClosedFaults, ContextOf;
    var among := Elements(ks);
    assert Elements(ks + [k]) == among + {k};
    assert (ks + [k])[..|ks|] == ks;
    OneMore(devices, among, k, InState(Healthy));
    OneMore(devices, among, k, InState(Degraded));
    OneMore(devices, among, k, InState(Unhealthy));
    OneMore(devices, among, k, InState(Failed));
    OneMore(devices, among, k, InState(Quarantined));
    OneMore(devices, among, k, InRecovery());
    OneMore(devices, among, k, WithOldEvidence(c));
  }

  lemma TallyNone(devices: map<Id, Device>, c: Context)
    ensures TallyAmong(devices, [], c) == Tally(0, 0, 0, 0, 0, 0, 0, 0, 0, 0, 0)
  {
    hide Those;
    assert Elements([]) == {};
    NoneYet(devices, InState(Healthy));
    NoneYet(devices, InState(Degraded));
    NoneYet(devices, InState(Unhealthy));
    NoneYet(devices, InState(Failed));
    NoneYet(devices, InState(Quarantined));
    NoneYet(devices, InRecovery());
    NoneYet(devices, WithOldEvidence(c));
  }

  /** The scan: one pass for the states and the records, a second for the evidence. */
  method ScanDevices(devices: map<Id, Device>, ks: seq<Id>, c: Context) returns (a: Tally)
    requires IsSorted(ks) && forall k :: k in ks ==> k in devices
    ensures a == TallyAmong(devices, ks, c)
  {
    hide TallyAmong, HasOldEvidence, OpenFaults, ClosedFaults;
    a := Tally(0, 0, 0, 0, 0, 0, 0, 0, 0, 0, 0);
    TallyNone(devices, c);
    for i := 0 to |ks|
      invariant forall k :: k in ks[..i] ==> k in devices
      invariant a == TallyAmong(devices, ks[..i], c).(stale := 0)
    {
      var d := devices[ks[i]];
      assert ks[..i + 1] == ks[..i] + [ks[i]] && ks[i] !in ks[..i];
      TallyNext(devices, ks[..i], ks[i], c);
      a := a.(tracked := a.tracked + 1);
      if d.health.state == Healthy {
        a := a.(healthy := a.healthy + 1);
      } else if d.health.state == Degraded {
        a := a.(degraded := a.degraded + 1);
      } else if d.health.state == Unhealthy {
        a := a.(unhealthy := a.unhealthy + 1);
      } else if d.health.state == Failed {
        a := a.(failed := a.failed + 1);
      }
      if d.health.state == Quarantined {
        a := a.(quarantined := a.quarantined + 1);
      }
      if d.care.inRecovery {
        a := a.(recovering := a.recovering + 1);
      }
      a := a.(validationRecords := a.validationRecords + |d.history.validations|);
      var open, closed := CountFaults(d.history.faults);
      a := a.(unresolvedFaults := a.unresolvedFaults + open, resolvedFaults := a.resolvedFaults + closed);
    }
    assert ks[..|ks|] == ks;
    var stale := CountStale(devices, ks, c);
    a := a.(stale := stale);
  }

  method CountStale(devices: map<Id, Device>, ks: seq<Id>, c: Context) returns (n: nat)
    requires IsSorted(ks) && forall k :: k in ks ==> k in devices
    ensures n == TallyAmong(devices, ks, c).stale
  {
    hide TallyAmong, HasOldEvidence, OpenFaults, ClosedFaults;
    n := 0;
    TallyNone(devices, c);
    for i := 0 to |ks|
      invariant forall k :: k in ks[..i] ==> k in devices
      invariant n == TallyAmong(devices, ks[..i], c).stale
    {
      assert ks[..i + 1] == ks[..i] + [ks[i]] && ks[i] !in ks[..i];
      TallyNext(devices, ks[..i], ks[i], c);
      if HasOldEvidence(devices[ks[i]], c) {
        n := n + 1;
      }
    }
    assert ks[..|ks|] == ks;
  }

  method CountFaults(fs: seq<Fault>) returns (open: nat, closed: nat)
    ensures open == OpenFaults(fs) && closed == ClosedFaults(fs)
  {
    open, closed := 0, 0;
    for i := 0 to |fs|
      invariant open == OpenFaults(fs[..i]) && closed == ClosedFaults(fs[..i])
    {
      assert fs[..i + 1][..i] == fs[..i];
      if fs[i].resolution == Open {
        open := open + 1;
      } else {
        closed := closed + 1;
      }
    }
    assert fs[..|fs|] == fs;
  }

  // ---- Agreement with the indexes ----

  function Bucket<B(==)>(index: set<(B, Id)>, b: B): set<Id> {
    set p | p in index && p.0 == b :: p.1
  }

  /** The devices in a bucket whose loss no reassessment has seen. */
  ghost function LeftBehind(s: Store, trace: Trace, st: HealthState): set<Id> {
    set x | x in Bucket(Run(s, trace).stateIndex, st) && LossUnseen(s, trace, x)
  }

  /** Over every run, the bucket of a state other than LOST holds the devices in that state
      and those whose loss from it no reassessment has seen. */
  lemma BucketsAreExact(s: Store, trace: Trace, st: HealthState)
    requires IsInitial(s) && Admissible(s, trace) && st != Lost
    ensures var t := Run(s, trace);
      && Bucket(t.stateIndex, st) == Those(t.devices, t.devices.Keys, InState(st)) + LeftBehind(s, trace, st)
      && Those(t.devices, t.devices.Keys, InState(st)) !! LeftBehind(s, trace, st)
  {
    hide Run, Step, Admissible, StateIndexed, LossUnseen;
    var t := Run(s, trace);
    IndexesAlwaysAgree(s, trace);
    forall x | x in t.devices
      ensures LossUnseen(s, trace, x) ==> t.devices[x].health.state == Lost
      ensures !LossUnseen(s, trace, x) ==> OneBucket(t.stateIndex, x, t.devices[x].health.state)
    {
      BucketFollows(s, trace, x);
    }
    var those, left := Those(t.devices, t.devices.Keys, InState(st)), LeftBehind(s, trace, st);
    forall x ensures x in Bucket(t.stateIndex, st) <==> x in those || x in left {
      if x in t.devices && !LossUnseen(s, trace, x) {
        assert (st, x) in t.stateIndex <==> t.devices[x].health.state == st;
      }
    }
  }

  lemma {:induction false} FaultSums(ks: seq<Id>, devices: map<Id, Device>, log: seq<Fault>)
    requires forall k :: k in ks ==> k in devices && FaultsOf(log, k) == devices[k].history.faults
    ensures Sum(ks, devices, OpenCount()) + Sum(ks, devices, ClosedCount()) == FaultTotal(ks, log)
  {
    if ks != [] {
      var init, k := ks[..|ks| - 1], ks[|ks| - 1];
      FaultSums(init, devices, log);
      EveryFaultCounts(devices[k].history.faults);
      FaultTotalSnoc(init, k, log);
      assert init + [k] == ks;
    }
  }

  lemma {:induction false} FaultTotalSnoc(ks: seq<Id>, k: Id, log: seq<Fault>)
    ensures FaultTotal(ks + [k], log) == FaultTotal(ks, log) + |FaultsOf(log, k)|
  {
    if ks == [] {
      assert ks + [k] == [k];
      assert FaultTotal([k], log) == |FaultsOf(log, k)| + FaultTotal([], log);
    } else {
      assert (ks + [k])[1..] == ks[1..] + [k];
      FaultTotalSnoc(ks[1..], k, log);
    }
  }

  /** A fault counts as unresolved exactly when it would be shown as open. */
  lemma {:induction false} OpenFaultsAreShown(fs: seq<Fault>)
    ensures OpenFaults(fs) == |OpenOnly(fs)|
  {
    if fs != [] {
      OpenFaultsAreShown(fs[..|fs| - 1]);
    }
  }

  /** The figures that no index mirrors: all devices, those under recovery, the faults shown as
      open, and the devices whose evidence is old now. */
  lemma FiguresCount(s: Store, now: Timestamp)
    ensures TallyOf(s, now).tracked == |s.devices|
    ensures TallyOf(s, now).recovering == |set x | x in s.devices && s.devices[x].care.inRecovery|
    ensures TallyOf(s, now).unresolvedFaults == Sum(Sorted(s.devices.Keys), s.devices, Shown())
    ensures TallyOf(s, now).stale == |set x | x in s.devices && !IsFreshAt(s.devices[x], ContextOf(s, now))|
  {
    hide Sorted, Sum, InState, IsFreshAt, HasOldEvidence;
    var c := ContextOf(s, now);
    assert Elements(Sorted(s.devices.Keys)) == s.devices.Keys;
    assert |s.devices.Keys| == |s.devices|;
    forall x | x in s.devices ensures HasOldEvidence(s.devices[x], c) <==> !IsFreshAt(s.devices[x], c) {
      OldEvidenceIs(s.devices[x], c);
    }
    assert Those(s.devices, s.devices.Keys, InRecovery()) == set x | x in s.devices && s.devices[x].care.inRecovery;
    SameOpenSum(Sorted(s.devices.Keys), s.devices);
    assert Those(s.devices, s.devices.Keys, WithOldEvidence(c)) ==
      set x | x in s.devices && !IsFreshAt(s.devices[x], c);
  }

  function Shown(): Device -> nat {
    (d: Device) => |OpenOnly(d.history.faults)|
  }

  lemma {:induction false} SameSum(ks: seq<Id>, devices: map<Id, Device>, f: Device -> nat, g: Device -> nat)
    requires (forall k :: k in ks ==> k in devices) && forall k :: k in ks ==> f(devices[k]) == g(devices[k])
    ensures Sum(ks, devices, f) == Sum(ks, devices, g)
  {
    if ks != [] {
      SameSum(ks[..|ks| - 1], devices, f, g);
    }
  }

  lemma SameOpenSum(ks: seq<Id>, devices: map<Id, Device>)
    requires forall k :: k in ks ==> k in devices
    ensures Sum(ks, devices, OpenCount()) == Sum(ks, devices, Shown())
  {
    forall k | k in ks ensures OpenCount()(devices[k]) == Shown()(devices[k]) {
      OpenFaultsAreShown(devices[k].history.faults);
    }
    SameSum(ks, devices, OpenCount(), Shown());
  }

  lemma OldEvidenceIs(d: Device, c: Context)
    ensures HasOldEvidence(d, c) <==> !IsFreshAt(d, c)
  {
    CausesAre(d, c);
  }

  /** Open and resolved faults together are every fault ever recorded, in every run without a
      restart, however devices and faults interleave. */
  lemma NoFaultIsMissed(s: Store, trace: Trace, now: Timestamp)
    requires IsInitial(s) && Admissible(s, trace) && NoRestart(trace)
    ensures var t := Run(s, trace);
      TallyOf(t, now).unresolvedFaults + TallyOf(t, now).resolvedFaults == |t.globalFaults|
  {
    hide Run, Step, Admissible, Sorted, Those, FaultTotal, Sum;
    var t := Run(s, trace);
    var ks := Sorted(t.devices.Keys);
    GlobalLogsAlwaysAgree(s, trace);
    FaultSums(ks, t.devices, t.globalFaults);
    FaultTotalIsAll(ks, t.globalFaults);
  }

  lemma BucketSize(s: Store, trace: Trace, st: HealthState)
    requires IsInitial(s) && Admissible(s, trace) && st != Lost
    ensures var t := Run(s, trace);
      |Bucket(t.stateIndex, st)| == |Those(t.devices, t.devices.Keys, InState(st))| + |LeftBehind(s, trace, st)|
  {
    hide Run, Step, Admissible, Those, Bucket, InState, LeftBehind;
    BucketsAreExact(s, trace, st);
  }

  /** In every run each figure falls short of the size of its bucket by exactly the devices
      whose loss no reassessment has seen; it is that size exactly when there are none. */
  lemma FiguresAndBuckets(s: Store, trace: Trace, now: Timestamp)
    requires IsInitial(s) && Admissible(s, trace)
    ensures var t := Run(s, trace);
      var a := TallyOf(t, now);
      && |Bucket(t.stateIndex, Healthy)| == a.healthy + |LeftBehind(s, trace, Healthy)|
      && |Bucket(t.stateIndex, Degraded)| == a.degraded + |LeftBehind(s, trace, Degraded)|
      && |Bucket(t.stateIndex, Unhealthy)| == a.unhealthy + |LeftBehind(s, trace, Unhealthy)|
      && |Bucket(t.stateIndex, Failed)| == a.failed + |LeftBehind(s, trace, Failed)|
      && |Bucket(t.stateIndex, Quarantined)| == a.quarantined + |LeftBehind(s, trace, Quarantined)|
  {
    hide Run, Step, Admissible, Sorted, Those, Sum, Bucket, InState, LeftBehind;
    var t := Run(s, trace);
    assert Elements(Sorted(t.devices.Keys)) == t.devices.Keys;
    BucketSize(s, trace, Healthy);
    BucketSize(s, trace, Degraded);
    BucketSize(s, trace, Unhealthy);
    BucketSize(s, trace, Failed);
    BucketSize(s, trace, Quarantined);
  }
}
