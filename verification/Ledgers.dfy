/** What the append-only records of a device hold after a run: its faults, its validations, and
    for every change of state the step that wrote it and what it wrote. */
module Ledgers {
  import opened Enums
  import opened Records
  import opened StateMachine
  import opened Assessment
  import opened Devices
  import opened StoreMachine
  import opened ChangeLogs
  import opened DeviceInvariant
  import opened Runs
  import opened Causes
  import opened Indexes

  // ---- Faults and validations ----

  /** The faults recorded for `x`: every one reported while it was tracked, the first under
      each id. */
  ghost function FaultsRecorded(s: Store, trace: Trace, x: Id): seq<Fault>
    decreases |trace|
  {
    if trace == [] then []
    else
      var init, e := trace[..|trace| - 1], trace[|trace| - 1].event;
      var earlier := FaultsRecorded(s, init, x);
      if x in Run(s, init).devices && e.RecordFault? && e.fault.accelerator == x
         && (forall i :: 0 <= i < |earlier| ==> earlier[i].id != e.fault.id)
      then earlier + [e.fault] else earlier
  }

  predicate Validates(e: Event, x: Id) {
    (e.RecordValidation? && e.record.accelerator == x) || (e.Revalidate? && e.id == x)
  }

  /** The validations recorded for `x`: every one reported while it was tracked, by either call
      and under any id. */
  ghost function ValidationsRecorded(s: Store, trace: Trace, x: Id): seq<ValidationRecord>
    decreases |trace|
  {
    if trace == [] then []
    else
      var init, e := trace[..|trace| - 1], trace[|trace| - 1].event;
      var earlier := ValidationsRecorded(s, init, x);
      if x in Run(s, init).devices && Validates(e, x) then earlier + [e.record] else earlier
  }

  lemma ValidationsStep(s: Store, d: Device, e: Event, now: Timestamp)
    ensures DeviceAfter(s, d, e, now).history.validations ==
      d.history.validations + if Validates(e, d.id) then [e.record] else []
  {
    hide Reassessed, Judge, MergeDimensions, Revalidated;
    ReassessKeepsEvidence(Landed(s, d, e, now), ContextOf(s, now));
    if e.Revalidate? {
      RevalidationKeepsRecords(d, e.record, ContextOf(s, now));
    }
  }

  lemma {:induction false} NothingRecordedYet(s: Store, trace: Trace, x: Id)
    requires IsInitial(s) && Admissible(s, trace) && x !in Run(s, trace).devices
    ensures FaultsRecorded(s, trace, x) == [] && ValidationsRecorded(s, trace, x) == []
    decreases |trace|
  {
    hide Step, DeviceAfter, Validates;
    if trace != [] {
      var init, last := trace[..|trace| - 1], trace[|trace| - 1];
      DevicesStep(Run(s, init), last.event, last.now);
      NothingRecordedYet(s, init, x);
    }
  }

  /** In every run a device holds exactly these faults and validations, in this order. */
  lemma {:induction false} RecordsAreTold(s: Store, trace: Trace, x: Id)
    requires IsInitial(s) && Admissible(s, trace) && x in Run(s, trace).devices
    ensures Run(s, trace).devices[x].history.faults == FaultsRecorded(s, trace, x)
    ensures Run(s, trace).devices[x].history.validations == ValidationsRecorded(s, trace, x)
    decreases |trace|
  {
    hide Step, DeviceAfter, Sound, Validates;
    if trace != [] {
      var init, last := trace[..|trace| - 1], trace[|trace| - 1];
      if x in Run(s, init).devices {
        RecordsAreTold(s, init, x);
        LastStep(s, trace, x);
        FaultsStep(Run(s, init), Run(s, init).devices[x], last.event, last.now);
        ValidationsStep(Run(s, init), Run(s, init).devices[x], last.event, last.now);
      } else {
        NewDevice(s, trace, x);
        NothingRecordedYet(s, init, x);
      }
    }
  }

  // ---- Changes of state ----

  /** How a change is labelled: by the call that made it, or as the reassessment's own. */
  function Label(e: Event, from: HealthState, to: HealthState): (string, string) {
    match e
    case MarkLost(_, reason) => ("lost", reason)
    case BeginQuarantine(_, _, reason, _) =>
      if to == Quarantined then ("quarantine", reason) else ("health", HealthName(to))
    case BeginRecovery(_) => ("recovery", "begin recovery")
    case Revalidate(_, _) =>
      if from == Recovering && to == Revalidating then ("revalidate", "enter revalidation")
      else if from == Revalidating && to == Healthy then ("recovery", "revalidated")
      else if UnderRecovery(from) && to == Quarantined then ("revalidate-failed", "validation failed during recovery")
      else ("health", HealthName(to))
    case _ => ("health", HealthName(to))
  }

  /** The entry was written by this step: labelled as above, with its time and policy generation,
      and the readiness the device had before it. */
  predicate WrittenBy(g: HealthChange, s: Store, d: Device, t: Timed) {
    && (g.tag, g.detail) == Label(t.event, g.from, g.to)
    && g.timestamp == t.now && g.policyGeneration == s.policyGeneration
    && g.readinessFrom == g.readinessTo == d.judgement.readiness
  }

  ghost predicate NewOnes(d: Device, r: Device, s: Store, t: Timed) {
    && |d.health.changes| <= |r.health.changes|
    && forall i :: |d.health.changes| <= i < |r.health.changes| ==> WrittenBy(r.health.changes[i], s, d, t)
  }

  lemma LandedEntries(s: Store, d: Device, e: Event, now: Timestamp)
    requires Settled(d)
    ensures NewOnes(d, Landed(s, d, e, now), s, Timed(e, now))
    ensures Landed(s, d, e, now).judgement == d.judgement
  {
    hide Judge, MergeDimensions, ReadyHolds, FatalHolds, QuarantineHolds, CanTransition;
    TableShape(d.health.state);
  }

  /** After a call that is labelled by its own name a reassessment leads nowhere such a call
      does, so its own entry is labelled as its own. */
  lemma ReassessLabel(s: Store, d: Device, e: Event, now: Timestamp)
    requires Settled(d) && IsReassessed(s, d, e, now)
    ensures var l, r := Landed(s, d, e, now), Reassessed(Landed(s, d, e, now), ContextOf(s, now));
      r.health.state != l.health.state ==>
        Label(e, l.health.state, r.health.state) == ("health", HealthName(r.health.state))
  {
    hide Landed, Reassessed, IsReassessed, HealthName;
    var l, c := Landed(s, d, e, now), ContextOf(s, now);
    LandedPrepares(s, d, e, now);
    if l.care.inRecovery {
      ReassessKeepsRecovery(l, c);
      LandedInRecovery(s, d, e, now);
    } else {
      NotUnderRecovery(s, d, e, now);
    }
  }

  lemma LandedInRecovery(s: Store, d: Device, e: Event, now: Timestamp)
    requires Settled(d) && IsReassessed(s, d, e, now) && Landed(s, d, e, now).care.inRecovery
    ensures !e.MarkLost? && (e.BeginRecovery? ==> Landed(s, d, e, now).health.state != Quarantined)
  {
    hide Judge, MergeDimensions, ReadyHolds, FatalHolds, QuarantineHolds;
  }

  lemma NotUnderRecovery(s: Store, d: Device, e: Event, now: Timestamp)
    requires Settled(d) && IsReassessed(s, d, e, now) && !Landed(s, d, e, now).care.inRecovery
    ensures var l := Landed(s, d, e, now);
      && !e.MarkLost? && !e.BeginRecovery? && !UnderRecovery(l.health.state)
      && (e.BeginQuarantine? ==> l.health.state == Quarantined)
  {
    hide Judge, MergeDimensions, ReadyHolds, FatalHolds, QuarantineHolds;
  }

  lemma ReassessWrites(d: Device, c: Context)
    ensures var r := Reassessed(d, c);
      || r.health == d.health
      || (&& r.health.changes ==
             d.health.changes + [ChangeEntry(d, r.health.state, "health", HealthName(r.health.state), c)]
          && r.health.state != d.health.state)
  {
    hide Assess, TargetOf, HealthName;
    TableShape(d.health.state);
  }

  lemma StepWrites(s: Store, d: Device, e: Event, now: Timestamp)
    requires Settled(d)
    ensures NewOnes(d, DeviceAfter(s, d, e, now), s, Timed(e, now))
  {
    hide Landed, Reassessed, IsReassessed, Label, HealthName, Settled;
    var l := Landed(s, d, e, now);
    LandedEntries(s, d, e, now);
    if IsReassessed(s, d, e, now) {
      ReassessWrites(l, ContextOf(s, now));
      ReassessLabel(s, d, e, now);
    }
  }

  /** Step `j` of the run wrote entry `i` of the device's log. */
  ghost predicate WroteEntry(s: Store, trace: Trace, j: nat, x: Id, i: nat, g: HealthChange) {
    && j < |trace| && x in Run(s, trace[..j]).devices
    && |Run(s, trace[..j]).devices[x].health.changes| <= i
    && WrittenBy(g, Run(s, trace[..j]), Run(s, trace[..j]).devices[x], trace[j])
  }

  lemma WroteEarlier(s: Store, trace: Trace, j: nat, x: Id, i: nat, g: HealthChange)
    requires trace != [] && WroteEntry(s, trace[..|trace| - 1], j, x, i, g)
    ensures WroteEntry(s, trace, j, x, i, g)
  {
    hide Run, WrittenBy;
    assert trace[..|trace| - 1][..j] == trace[..j];
  }

  /** Every entry of every device's log was written by one step of the run, under the clock, the
      policy generation, the readiness and the label of that step. */
  lemma {:induction false} EveryEntryWasWritten(s: Store, trace: Trace, x: Id, i: nat)
    requires IsInitial(s) && Admissible(s, trace) && x in Run(s, trace).devices
    requires i < |Run(s, trace).devices[x].health.changes|
    ensures exists j :: WroteEntry(s, trace, j, x, i, Run(s, trace).devices[x].health.changes[i])
    decreases |trace|
  {
    hide Step, DeviceAfter, WrittenBy, Settled, LegalLog, RecordsSound;
    if trace != [] {
      var init, last := trace[..|trace| - 1], trace[|trace| - 1];
      if x in Run(s, init).devices {
        LastStep(s, trace, x);
        var before, d := Run(s, init), Run(s, init).devices[x];
        StepWrites(before, d, last.event, last.now);
        StepContinues(before, d, last.event, last.now);
        if i < |d.health.changes| {
          EveryEntryWasWritten(s, init, x, i);
          var j :| WroteEntry(s, init, j, x, i, d.health.changes[i]);
          WroteEarlier(s, trace, j, x, i, d.health.changes[i]);
        } else {
          assert WroteEntry(s, trace, |trace| - 1, x, i, Run(s, trace).devices[x].health.changes[i]);
        }
      } else {
        NewDevice(s, trace, x);
      }
    }
  }
}
