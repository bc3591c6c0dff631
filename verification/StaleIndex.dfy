/** The stale index: it holds a device exactly while its evidence was old when last assessed. */
module StaleIndex {
  import opened Records
  import opened Readiness
  import opened Devices
  import opened StoreMachine
  import opened ChangeLogs
  import opened DeviceInvariant
  import opened Runs
  import opened Causes
  import opened Outcomes

  /** At the last step that assessed `x` its evidence was not fresh, by the policy and the clock of
      that step. */
  ghost predicate OldWhenAssessed(s: Store, trace: Trace, x: Id)
    decreases |trace|
  {
    trace != [] &&
    var init, last := trace[..|trace| - 1], trace[|trace| - 1];
    var before := Run(s, init);
    && x in before.devices
    && if Concerns(before, before.devices[x], last.event)
       then x in Run(s, trace).devices && !IsFreshAt(Run(s, trace).devices[x], ContextOf(before, last.now))
       else OldWhenAssessed(s, init, x)
  }

  lemma StaleStep(s: Store, e: Event, now: Timestamp, x: Id)
    requires !Collides(s, e) && (x in s.staleIndex ==> x in s.devices)
    ensures x in s.devices ==>
      (x in StaleIndexAfter(s, e, now) <==>
        if IsReassessed(s, s.devices[x], e, now)
        then !IsFresh(DeviceFreshness(DeviceAfter(s, s.devices[x], e, now), ContextOf(s, now)))
        else x in s.staleIndex && !e.Restart?)
    ensures x !in s.devices ==> x !in StaleIndexAfter(s, e, now)
  {
    hide DeviceAfter, IsReassessed, FreshDevice, DeviceFreshness;
  }

  lemma StaleIndexIs(s: Store, e: Event, now: Timestamp)
    ensures Step(s, e, now).staleIndex == StaleIndexAfter(s, e, now)
  {
  }

  lemma {:induction false} StaleIndexExact(s: Store, trace: Trace, x: Id)
    requires IsInitial(s) && Admissible(s, trace)
    ensures x in Run(s, trace).staleIndex <==> OldWhenAssessed(s, trace, x)
    ensures x in Run(s, trace).staleIndex ==> x in Run(s, trace).devices
    decreases |trace|
  {
    hide Step, DeviceAfter, LegalLog, RecordsSound, Settled, Concerns, StaleIndexAfter, IsReassessed, IsFreshAt;
    if trace != [] {
      var init, last := trace[..|trace| - 1], trace[|trace| - 1];
      var before := Run(s, init);
      StaleIndexExact(s, init, x);
      StaleIndexIs(before, last.event, last.now);
      StaleStep(before, last.event, last.now, x);
      if x in before.devices {
        LastStep(s, trace, x);
        ConcernsExactly(before, before.devices[x], last.event, last.now);
        RestartConcerns(before, before.devices[x]);
        CausesAre(Run(s, trace).devices[x], ContextOf(before, last.now));
      }
    }
  }

  lemma RestartConcerns(s: Store, d: Device)
    ensures Concerns(s, d, Restart)
  {
  }
}
