/** The fault index, exactly: which types it holds of which device after any run. */
module FaultIndexes {
  import opened Enums
  import opened Records
  import opened FaultHistory
  import opened Devices
  import opened StoreMachine
  import opened Runs
  import opened Indexes
  import opened GlobalLogs

  ghost predicate LoggedOfType(log: seq<Fault>, t: FaultType, x: Id) {
    exists i :: 0 <= i < |log| && log[i].kind == t && log[i].accelerator == x
  }

  /** A type is listed for a device while a fault of it is open there, and besides, open or
      not, when one was recorded since the last restart. */
  ghost predicate Listed(s: Store, t: FaultType, x: Id) {
    x in s.devices && (HasOpenFaultOfType(s.devices[x], t) || LoggedOfType(s.globalFaults, t, x))
  }

  lemma LogStep(s: Store, e: Event, t: FaultType, x: Id)
    ensures LoggedOfType(GlobalFaultsAfter(s, e), t, x) <==>
      && !e.Restart?
      && (|| LoggedOfType(s.globalFaults, t, x)
          || (e.RecordFault? && RecordsFault(s, e.fault) && e.fault.kind == t && e.fault.accelerator == x))
  {
    hide HasId;
    if e.RecordFault? && RecordsFault(s, e.fault) {
      var log := s.globalFaults + [e.fault];
      assert log[|log| - 1] == e.fault;
      assert forall i :: 0 <= i < |s.globalFaults| ==> log[i] == s.globalFaults[i];
    }
  }

  lemma NotLogged(s: Store, t: FaultType, x: Id)
    requires LogsAgree(s, false) && x !in s.devices
    ensures !LoggedOfType(s.globalFaults, t, x)
  {
    hide IsSuffix, ChangesOf, FaultsOf;
  }

  /** The fault index one step later. */
  lemma IndexStep(s: Store, e: Event, t: FaultType, x: Id)
    ensures (t, x) in FaultIndexAfter(s, e) <==>
      if e.Restart? then x in s.devices && HasOpenFaultOfType(s.devices[x], t)
      else (t, x) in s.faultIndex
           || (e.RecordFault? && RecordsFault(s, e.fault) && e.fault.kind == t && e.fault.accelerator == x)
  {
    hide HasId, HasOpenFaultOfType;
    OpenFaultIndexIs(s.devices);
  }

  lemma ListedStep(s: Store, e: Event, now: Timestamp, t: FaultType, x: Id)
    requires Invariant(s) && LogsAgree(s, false) && !Collides(s, e)
    requires (t, x) in s.faultIndex <==> Listed(s, t, x)
    ensures (t, x) in Step(s, e, now).faultIndex <==> Listed(Step(s, e, now), t, x)
  {
    hide Step, DeviceAfter, FaultIndexAfter, GlobalFaultsAfter, GlobalChangesAfter, LogsAgree, Sound, LoggedOfType,
      HasOpenFaultOfType, DevicesAfter, FreshDevice, Identified;
    StepFaultIndex(s, e, now);
    StepGlobalLogs(s, e, now);
    DevicesStep(s, e, now);
    IndexStep(s, e, t, x);
    LogStep(s, e, t, x);
    if x in s.devices {
      DeviceIds(s, x);
      FaultTypesStep(s, s.devices[x], e, now, t);
    } else {
      NotLogged(s, t, x);
      if x in Step(s, e, now).devices {
        FreshHasNoFaults(Step(s, e, now).devices[x], x, e, now, t);
      }
    }
  }

  /** After every run the fault index holds exactly these types of exactly these devices. */
  lemma {:induction false} FaultIndexExact(s: Store, trace: Trace, t: FaultType, x: Id)
    requires IsInitial(s)
    requires Admissible(s, trace)
    ensures (t, x) in Run(s, trace).faultIndex <==> Listed(Run(s, trace), t, x)
    decreases |trace|
  {
    hide Step, Invariant, LogsAgree, Listed;
    if trace == [] {
      NothingListed(s, t, x);
    } else {
      var init, last := trace[..|trace| - 1], trace[|trace| - 1];
      FaultIndexExact(s, init, t, x);
      ReachableInvariant(s, init);
      GlobalLogsAlwaysAgree(s, init);
      LogsWeaken(Run(s, init));
      ListedStep(Run(s, init), last.event, last.now, t, x);
    }
  }

  lemma NothingListed(s: Store, t: FaultType, x: Id)
    requires IsInitial(s)
    ensures (t, x) !in s.faultIndex && !Listed(s, t, x)
  {
  }
}
