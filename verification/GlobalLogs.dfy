/** The store-wide logs, read device by device, are the devices' own logs. */
module GlobalLogs {
  import opened Records
  import opened Devices
  import opened FaultHistory
  import opened StoreMachine
  import opened ChangeLogs
  import opened DeviceInvariant
  import opened Runs
  import opened Indexes

  function ChangesOf(log: seq<HealthChange>, x: Id): seq<HealthChange> {
    if log == [] then []
    else ChangesOf(log[..|log| - 1], x) + if log[|log| - 1].accelerator == x then [log[|log| - 1]] else []
  }

  function FaultsOf(log: seq<Fault>, x: Id): seq<Fault> {
    if log == [] then []
    else FaultsOf(log[..|log| - 1], x) + if log[|log| - 1].accelerator == x then [log[|log| - 1]] else []
  }

  lemma {:induction false} ChangesOfConcat(a: seq<HealthChange>, b: seq<HealthChange>, x: Id)
    ensures ChangesOf(a + b, x) == ChangesOf(a, x) + ChangesOf(b, x)
  {
    if b == [] {
      assert a + b == a;
    } else {
      var ab := a + b;
      assert ab[..|ab| - 1] == a + b[..|b| - 1];
      ChangesOfConcat(a, b[..|b| - 1], x);
    }
  }

  lemma {:induction false} ChangesOfOwn(log: seq<HealthChange>, y: Id, x: Id)
    requires forall i :: 0 <= i < |log| ==> log[i].accelerator == y
    ensures ChangesOf(log, x) == if x == y then log else []
  {
    if log != [] {
      ChangesOfOwn(log[..|log| - 1], y, x);
    }
  }

  lemma GainedIsOwn(before: Device, after: Device)
    requires LegalLog(after)
    ensures forall i :: 0 <= i < |Gained(before, after)| ==> Gained(before, after)[i].accelerator == after.id
  {
  }

  /** The entries a step adds, read for one device, are what that device gained. */
  lemma {:induction false} NewChangesOf(ks: seq<Id>, before: map<Id, Device>, after: map<Id, Device>, x: Id)
    requires forall k :: k in ks ==> k in before && k in after && after[k].id == k && LegalLog(after[k])
    requires IsSorted(ks)
    ensures ChangesOf(NewChanges(ks, before, after), x) == if x in ks then Gained(before[x], after[x]) else []
  {
    hide LegalLog, Gained, ChangesOf;
    if ks == [] {
      NoEntries([], x);
    } else {
      var k := ks[0];
      NewChangesOf(ks[1..], before, after, x);
      GainedIsOwn(before[k], after[k]);
      ChangesOfConcat(Gained(before[k], after[k]), NewChanges(ks[1..], before, after), x);
      ChangesOfOwn(Gained(before[k], after[k]), k, x);
      assert k !in ks[1..];
      assert x in ks <==> x == k || x in ks[1..];
    }
  }

  lemma {:induction false} NewChangesSupport(ks: seq<Id>, before: map<Id, Device>, after: map<Id, Device>)
    requires forall k :: k in ks ==> k in before && k in after && after[k].id == k && LegalLog(after[k])
    ensures forall i :: 0 <= i < |NewChanges(ks, before, after)| ==> NewChanges(ks, before, after)[i].accelerator in ks
  {
    hide LegalLog, Gained;
    if ks != [] {
      GainedIsOwn(before[ks[0]], after[ks[0]]);
      NewChangesSupport(ks[1..], before, after);
    }
  }

  ghost predicate IsSuffix<T>(a: seq<T>, b: seq<T>) {
    |a| <= |b| && b[|b| - |a|..] == a
  }

  /** What the global logs say of a device is the end of its own logs; all of them, when
      `whole` is set. */
  ghost predicate LogsAgree(s: Store, whole: bool) {
    && (forall i :: 0 <= i < |s.globalChanges| ==> s.globalChanges[i].accelerator in s.devices)
    && (forall i :: 0 <= i < |s.globalFaults| ==> s.globalFaults[i].accelerator in s.devices)
    && (forall x :: x in s.devices ==>
          && IsSuffix(ChangesOf(s.globalChanges, x), s.devices[x].health.changes)
          && IsSuffix(FaultsOf(s.globalFaults, x), s.devices[x].history.faults)
          && (whole ==> ChangesOf(s.globalChanges, x) == s.devices[x].health.changes)
          && (whole ==> FaultsOf(s.globalFaults, x) == s.devices[x].history.faults))
  }

  lemma SuffixExtends<T>(a: seq<T>, b: seq<T>, c: seq<T>)
    requires IsSuffix(a, b)
    ensures IsSuffix(a + c, b + c)
  {
    assert (b + c)[|b + c| - |a + c|..] == b[|b| - |a|..] + c;
  }

  lemma GainedIsRest(d: Device, e: Device)
    requires Continues(d, e)
    ensures d.health.changes + Gained(d, e) == e.health.changes
    ensures IsSuffix(Gained(d, e), e.health.changes)
  {
  }

  lemma {:induction false} NoEntries(log: seq<HealthChange>, x: Id)
    requires forall i :: 0 <= i < |log| ==> log[i].accelerator != x
    ensures ChangesOf(log, x) == []
  {
    if log != [] {
      NoEntries(log[..|log| - 1], x);
    }
  }

  lemma {:induction false} NoFaults(log: seq<Fault>, x: Id)
    requires forall i :: 0 <= i < |log| ==> log[i].accelerator != x
    ensures FaultsOf(log, x) == []
  {
    if log != [] {
      NoFaults(log[..|log| - 1], x);
    }
  }

  ghost predicate ChangesAgreeFor(log: seq<HealthChange>, d: Device, whole: bool) {
    && IsSuffix(ChangesOf(log, d.id), d.health.changes)
    && (whole ==> ChangesOf(log, d.id) == d.health.changes)
  }

  lemma ChangesStep(s: Store, e: Event, now: Timestamp, x: Id, whole: bool)
    requires Invariant(s) && !Collides(s, e)
    requires whole ==> !e.Restart?
    requires x in s.devices && ChangesAgreeFor(s.globalChanges, s.devices[x], whole)
    ensures ChangesAgreeFor(GlobalChangesAfter(s, e, now), DeviceAfter(s, s.devices[x], e, now), whole)
  {
    hide DeviceAfter, LegalLog, Settled, RecordsSound, Identified, NewChanges;
    KeptIsSound(s, e, now);
    var kept, ks := Kept(s, e, now), Sorted(s.devices.Keys);
    NewChangesOf(ks, s.devices, kept, x);
    var d, d' := s.devices[x], kept[x];
    StepContinues(s, d, e, now);
    GainedIsRest(d, d');
    StepKeepsIdentity(s, d, e, now);
    if e.Restart? {
      assert GlobalChangesAfter(s, e, now) == NewChanges(ks, s.devices, kept);
    } else {
      ChangesOfConcat(s.globalChanges, NewChanges(ks, s.devices, kept), x);
      SuffixExtends(ChangesOf(s.globalChanges, x), d.health.changes, Gained(d, d'));
    }
  }

  lemma KeptIsSound(s: Store, e: Event, now: Timestamp)
    requires Invariant(s)
    ensures forall k :: k in s.devices ==>
      k in Kept(s, e, now) && Kept(s, e, now)[k].id == k && LegalLog(Kept(s, e, now)[k])
      && Kept(s, e, now)[k] == DeviceAfter(s, s.devices[k], e, now) && s.devices[k].id == k
  {
    hide DeviceAfter, LegalLog, Settled, RecordsSound;
    forall k | k in s.devices
      ensures Kept(s, e, now)[k].id == k && LegalLog(Kept(s, e, now)[k]) && s.devices[k].id == k
    {
      StepKeepsIdentity(s, s.devices[k], e, now);
      StepContinues(s, s.devices[k], e, now);
    }
  }

  lemma ChangesSupport(s: Store, e: Event, now: Timestamp)
    requires Invariant(s)
    requires forall i :: 0 <= i < |s.globalChanges| ==> s.globalChanges[i].accelerator in s.devices
    ensures forall i :: 0 <= i < |GlobalChangesAfter(s, e, now)| ==>
      GlobalChangesAfter(s, e, now)[i].accelerator in s.devices
  {
    hide DeviceAfter, LegalLog, Settled, RecordsSound, Identified, NewChanges;
    KeptIsSound(s, e, now);
    NewChangesSupport(Sorted(s.devices.Keys), s.devices, Kept(s, e, now));
  }

  lemma FaultLogStep(s: Store, e: Event, now: Timestamp, x: Id, whole: bool)
    requires Invariant(s) && !Collides(s, e)
    requires whole ==> !e.Restart?
    requires x in s.devices
    requires IsSuffix(FaultsOf(s.globalFaults, x), s.devices[x].history.faults)
    requires whole ==> FaultsOf(s.globalFaults, x) == s.devices[x].history.faults
    ensures var log, d' := GlobalFaultsAfter(s, e), DeviceAfter(s, s.devices[x], e, now);
      && IsSuffix(FaultsOf(log, x), d'.history.faults)
      && (whole ==> FaultsOf(log, x) == d'.history.faults)
  {
    hide DeviceAfter, Sound, HasId;
    FaultsStep(s, s.devices[x], e, now);
    if e.RecordFault? && RecordsFault(s, e.fault) {
      var log := s.globalFaults + [e.fault];
      assert log[..|log| - 1] == s.globalFaults;
      if e.fault.accelerator == x {
        SuffixExtends(FaultsOf(s.globalFaults, x), s.devices[x].history.faults, [e.fault]);
      }
    }
  }

  /** One device and the global logs through a step. */
  lemma LogsOf(s: Store, e: Event, now: Timestamp, d: Device, whole: bool)
    requires Invariant(s) && LogsAgree(s, whole)
    requires !Collides(s, e)
    requires whole ==> !e.Restart?
    requires d.id in s.devices ==> d == DeviceAfter(s, s.devices[d.id], e, now)
    requires d.id !in s.devices ==> d.health.changes == [] && d.history.faults == []
    ensures ChangesAgreeFor(GlobalChangesAfter(s, e, now), d, whole)
    ensures IsSuffix(FaultsOf(GlobalFaultsAfter(s, e), d.id), d.history.faults)
    ensures whole ==> FaultsOf(GlobalFaultsAfter(s, e), d.id) == d.history.faults
  {
    hide DeviceAfter, GlobalChangesAfter, Sound, IsSuffix, ChangesOf, FaultsOf, Identified;
    if d.id in s.devices {
      DeviceIds(s, d.id);
      ChangesStep(s, e, now, d.id, whole);
      FaultLogStep(s, e, now, d.id, whole);
    } else {
      ChangesSupport(s, e, now);
      NoEntries(GlobalChangesAfter(s, e, now), d.id);
      NoFaults(GlobalFaultsAfter(s, e), d.id);
      EmptySuffix<HealthChange>([]);
      EmptySuffix<Fault>([]);
    }
  }

  lemma FreshIsBlank(d: Device, x: Id, e: Event, now: Timestamp)
    requires e.RegisterDevice? && d == FreshDevice(x, e.uuid, e.node, now)
    ensures d.id == x && d.health.changes == [] && d.history.faults == []
  {
  }

  lemma DeviceIds(s: Store, x: Id)
    requires Invariant(s) && x in s.devices
    ensures s.devices[x].id == x
  {
  }

  lemma StepLogs(s: Store, e: Event, now: Timestamp, whole: bool)
    requires Invariant(s) && LogsAgree(s, whole)
    requires !Collides(s, e)
    requires whole ==> !e.Restart?
    ensures LogsAgree(Step(s, e, now), whole)
  {
    hide Step, DeviceAfter, GlobalChangesAfter, Sound, DevicesAfter, IsSuffix, ChangesOf, FaultsOf, Identified,
      FreshDevice;
    var t := Step(s, e, now);
    StepGlobalLogs(s, e, now);
    DevicesStep(s, e, now);
    ChangesSupport(s, e, now);
    forall x | x in t.devices
      ensures t.devices[x].id == x
      ensures ChangesAgreeFor(t.globalChanges, t.devices[x], whole)
      ensures IsSuffix(FaultsOf(t.globalFaults, x), t.devices[x].history.faults)
      ensures whole ==> FaultsOf(t.globalFaults, x) == t.devices[x].history.faults
    {
      if x in s.devices {
        DeviceIds(s, x);
        StepKeepsIdentity(s, s.devices[x], e, now);
      } else {
        FreshIsBlank(t.devices[x], x, e, now);
      }
      LogsOf(s, e, now, t.devices[x], whole);
    }
  }

  lemma EmptySuffix<T>(b: seq<T>)
    ensures IsSuffix([], b)
  {
  }

  predicate NoRestart(trace: Trace) {
    forall i :: 0 <= i < |trace| ==> !trace[i].event.Restart?
  }

  lemma NoRestartSoFar(trace: Trace)
    requires trace != []
    ensures NoRestart(trace) <==> NoRestart(trace[..|trace| - 1]) && !trace[|trace| - 1].event.Restart?
  {
    var init := trace[..|trace| - 1];
    assert forall i :: 0 <= i < |init| ==> init[i] == trace[i];
    if NoRestart(init) && !trace[|trace| - 1].event.Restart? {
      forall i | 0 <= i < |trace| ensures !trace[i].event.Restart? {
        if i < |init| {
          assert init[i] == trace[i];
        }
      }
    }
  }

  /** In every run the global change and fault logs, filtered by device, are the ends of the
      devices' own logs; in a run without a restart they are the whole of them. */
  lemma {:induction false} GlobalLogsAlwaysAgree(s: Store, trace: Trace)
    requires IsInitial(s)
    requires Admissible(s, trace)
    ensures LogsAgree(Run(s, trace), NoRestart(trace))
    decreases |trace|
  {
    hide Step, Invariant, LogsAgree;
    if trace == [] {
      InitialLogs(s);
    } else {
      var init, last := trace[..|trace| - 1], trace[|trace| - 1];
      NoRestartSoFar(trace);
      GlobalLogsAlwaysAgree(s, init);
      ReachableInvariant(s, init);
      if !NoRestart(trace) {
        LogsWeaken(Run(s, init));
      }
      StepLogs(Run(s, init), last.event, last.now, NoRestart(trace));
    }
  }

  lemma LogsWeaken(s: Store)
    ensures LogsAgree(s, true) ==> LogsAgree(s, false)
  {
  }

  lemma InitialLogs(s: Store)
    requires IsInitial(s)
    ensures LogsAgree(s, true)
  {
  }

  // ---- Counting ----

  function FaultTotal(ks: seq<Id>, log: seq<Fault>): nat {
    if ks == [] then 0 else |FaultsOf(log, ks[0])| + FaultTotal(ks[1..], log)
  }

  lemma {:induction false} FaultTotalStep(ks: seq<Id>, log: seq<Fault>)
    requires log != []
    requires IsSorted(ks)
    ensures FaultTotal(ks, log) == FaultTotal(ks, log[..|log| - 1]) + if log[|log| - 1].accelerator in ks then 1 else 0
  {
    if ks != [] {
      FaultTotalStep(ks[1..], log);
      assert ks[0] !in ks[1..];
      assert forall x :: x in ks <==> x == ks[0] || x in ks[1..];
    }
  }

  lemma {:induction false} NoFaultTotal(ks: seq<Id>)
    ensures FaultTotal(ks, []) == 0
  {
    if ks != [] {
      NoFaultTotal(ks[1..]);
    }
  }

  /** Counting device by device counts every entry of the global log once. */
  lemma {:induction false} FaultTotalIsAll(ks: seq<Id>, log: seq<Fault>)
    requires IsSorted(ks)
    requires forall i :: 0 <= i < |log| ==> log[i].accelerator in ks
    ensures FaultTotal(ks, log) == |log|
  {
    if log == [] {
      NoFaultTotal(ks);
    } else {
      FaultTotalIsAll(ks, log[..|log| - 1]);
      FaultTotalStep(ks, log);
    }
  }
}
