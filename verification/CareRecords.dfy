/** The quarantine and the recovery a device has on record after a run, and the ids they draw. */
module CareRecords {
  import opened Enums
  import opened Records
  import opened StateMachine
  import opened Devices
  import opened StoreMachine
  import opened ChangeLogs
  import opened DeviceInvariant
  import opened Runs
  import opened Recovery

  // ---- Quarantine ----

  /** Step `i` of the run put a quarantine on `x`. */
  ghost predicate QuarantinedAt(s: Store, trace: Trace, i: nat, x: Id) {
    && i < |trace| && trace[i].event.BeginQuarantine? && trace[i].event.id == x
    && x in Run(s, trace[..i]).devices && !QuarantineActive(Run(s, trace[..i]).devices[x])
  }

  /** What that step recorded. */
  ghost function RecordMade(s: Store, trace: Trace, i: nat, x: Id): QuarantineRecord
    requires QuarantinedAt(s, trace, i, x)
  {
    var before, e := Run(s, trace[..i]), trace[i].event;
    QuarantineRecord(before.nextQuarantine, trace[i].now, e.authority, e.reason, e.triggeredBy, before.policyGeneration,
      before.devices[x].evidence.generation, before.devices[x].health.generation, true)
  }

  lemma QuarantineStep(s: Store, d: Device, e: Event, now: Timestamp)
    ensures DeviceAfter(s, d, e, now).care.quarantine ==
      if e.BeginQuarantine? && e.id == d.id && !QuarantineActive(d)
      then Some(QuarantineRecord(s.nextQuarantine, now, e.authority, e.reason, e.triggeredBy, s.policyGeneration,
        d.evidence.generation, d.health.generation, true))
      else if e == ClearQuarantine(d.id) && d.care.quarantine.Some?
      then Some(d.care.quarantine.value.(active := false))
      else d.care.quarantine
  {
    hide Reassessed, Judge, MergeDimensions;
    ReassessKeepsEvidence(Landed(s, d, e, now), ContextOf(s, now));
  }

  predicate Cleared(trace: Trace, i: nat, x: Id) {
    exists j :: i < j < |trace| && trace[j].event == ClearQuarantine(x)
  }

  /** The record of `x` is the one made at step `i`, active until cleared. */
  ghost predicate Stands(s: Store, trace: Trace, i: nat, x: Id, q: Option<QuarantineRecord>) {
    QuarantinedAt(s, trace, i, x) && q == Some(RecordMade(s, trace, i, x).(active := !Cleared(trace, i, x)))
  }

  ghost predicate NeverQuarantined(s: Store, trace: Trace, x: Id) {
    forall i :: 0 <= i < |trace| ==> !QuarantinedAt(s, trace, i, x)
  }

  lemma QuarantinedPrefix(s: Store, trace: Trace, i: nat, x: Id)
    requires trace != [] && i < |trace| - 1
    ensures QuarantinedAt(s, trace, i, x) <==> QuarantinedAt(s, trace[..|trace| - 1], i, x)
    ensures QuarantinedAt(s, trace, i, x) ==> RecordMade(s, trace, i, x) == RecordMade(s, trace[..|trace| - 1], i, x)
  {
    hide Run;
    assert trace[..|trace| - 1][..i] == trace[..i];
  }

  lemma ClearedPrefix(trace: Trace, i: nat, x: Id)
    requires trace != [] && i < |trace| - 1
    ensures Cleared(trace, i, x) <==>
      Cleared(trace[..|trace| - 1], i, x) || trace[|trace| - 1].event == ClearQuarantine(x)
  {
    var init := trace[..|trace| - 1];
    assert forall j :: 0 <= j < |init| ==> init[j] == trace[j];
  }

  lemma StandsLater(s: Store, trace: Trace, i: nat, x: Id, q: Option<QuarantineRecord>, q': Option<QuarantineRecord>)
    requires trace != [] && Stands(s, trace[..|trace| - 1], i, x, q)
    requires !QuarantinedAt(s, trace, |trace| - 1, x)
    requires q' == if trace[|trace| - 1].event == ClearQuarantine(x) && q.Some?
                   then Some(q.value.(active := false)) else q
    ensures Stands(s, trace, i, x, q')
  {
    hide QuarantinedAt, RecordMade, Cleared;
    OnlyWithin(s, trace[..|trace| - 1], i, x);
    QuarantinedPrefix(s, trace, i, x);
    ClearedPrefix(trace, i, x);
  }

  lemma OnlyWithin(s: Store, trace: Trace, i: nat, x: Id)
    requires QuarantinedAt(s, trace, i, x)
    ensures i < |trace|
  {
  }

  ghost predicate NoneAfter(s: Store, trace: Trace, i: nat, x: Id) {
    forall j :: i < j < |trace| ==> !QuarantinedAt(s, trace, j, x)
  }

  ghost predicate QuarantineTold(s: Store, trace: Trace, x: Id, q: Option<QuarantineRecord>) {
    if NeverQuarantined(s, trace, x) then q == None
    else exists i :: Stands(s, trace, i, x, q) && NoneAfter(s, trace, i, x)
  }

  lemma QuarantineTellsNext(s: Store, trace: Trace, x: Id, q: Option<QuarantineRecord>, q': Option<QuarantineRecord>)
    requires trace != [] && QuarantineTold(s, trace[..|trace| - 1], x, q)
    requires if QuarantinedAt(s, trace, |trace| - 1, x) then q' == Some(RecordMade(s, trace, |trace| - 1, x))
             else q' == if trace[|trace| - 1].event == ClearQuarantine(x) && q.Some?
                        then Some(q.value.(active := false)) else q
    ensures QuarantineTold(s, trace, x, q')
  {
    hide Stands, QuarantinedAt, RecordMade;
    var init := trace[..|trace| - 1];
    forall i | 0 <= i < |init| ensures QuarantinedAt(s, trace, i, x) <==> QuarantinedAt(s, init, i, x) {
      QuarantinedPrefix(s, trace, i, x);
    }
    if QuarantinedAt(s, trace, |trace| - 1, x) {
      StandsNow(s, trace, x);
      assert NoneAfter(s, trace, |trace| - 1, x);
    } else if !NeverQuarantined(s, init, x) {
      var i :| Stands(s, init, i, x, q) && NoneAfter(s, init, i, x);
      StandsLater(s, trace, i, x, q, q');
      assert NoneAfter(s, trace, i, x);
      StandsWithin(s, trace, i, x, q');
    } else {
      assert NeverQuarantined(s, trace, x);
    }
  }

  lemma StandsWithin(s: Store, trace: Trace, i: nat, x: Id, q: Option<QuarantineRecord>)
    requires Stands(s, trace, i, x, q)
    ensures i < |trace| && !NeverQuarantined(s, trace, x)
  {
  }

  lemma StandsNow(s: Store, trace: Trace, x: Id)
    requires trace != [] && QuarantinedAt(s, trace, |trace| - 1, x)
    ensures Stands(s, trace, |trace| - 1, x, Some(RecordMade(s, trace, |trace| - 1, x)))
  {
    hide Run;
  }

  /** In every run the quarantine a device has on record is the one put on it last, as it was
      recorded then, and active exactly when it has not been cleared since. */
  lemma {:induction false} QuarantineOnRecord(s: Store, trace: Trace, x: Id)
    requires IsInitial(s) && Admissible(s, trace) && x in Run(s, trace).devices
    ensures QuarantineTold(s, trace, x, Run(s, trace).devices[x].care.quarantine)
    decreases |trace|
  {
    hide Step, DeviceAfter, Sound, QuarantineTold, QuarantinedAt, RecordMade;
    if trace != [] {
      var init, last := trace[..|trace| - 1], trace[|trace| - 1];
      if x in Run(s, init).devices {
        var before, d := Run(s, init), Run(s, init).devices[x];
        QuarantineOnRecord(s, init, x);
        LastStep(s, trace, x);
        QuarantineStep(before, d, last.event, last.now);
        AtLast(s, trace, x);
        QuarantineTellsNext(s, trace, x, d.care.quarantine, Run(s, trace).devices[x].care.quarantine);
      } else {
        NewDevice(s, trace, x);
        NoCare(Run(s, trace).devices[x], x);
        NeverTracked(s, init, x);
        AtLast(s, trace, x);
        NeverIsTold(s, init, x);
        QuarantineTellsNext(s, trace, x, None, None);
      }
    } else {
      NeverIsTold(s, trace, x);
    }
  }

  lemma NeverIsTold(s: Store, trace: Trace, x: Id)
    requires NeverQuarantined(s, trace, x)
    ensures QuarantineTold(s, trace, x, None)
  {
  }

  lemma AtLast(s: Store, trace: Trace, x: Id)
    requires trace != []
    ensures var before, last := Run(s, trace[..|trace| - 1]), trace[|trace| - 1];
      && (QuarantinedAt(s, trace, |trace| - 1, x) <==>
            && last.event.BeginQuarantine? && last.event.id == x
            && x in before.devices && !QuarantineActive(before.devices[x]))
      && (QuarantinedAt(s, trace, |trace| - 1, x) ==>
            RecordMade(s, trace, |trace| - 1, x) ==
            QuarantineRecord(before.nextQuarantine, last.now, last.event.authority, last.event.reason,
              last.event.triggeredBy, before.policyGeneration, before.devices[x].evidence.generation,
              before.devices[x].health.generation, true))
  {
    hide Run;
  }

  lemma NoCare(d: Device, x: Id)
    requires exists uuid, node, now :: d == FreshDevice(x, uuid, node, now)
    ensures d.care.quarantine == None && d.care.recovery == None && !d.care.inRecovery
  {
  }

  lemma {:induction false} NeverTracked(s: Store, trace: Trace, x: Id)
    requires IsInitial(s) && Admissible(s, trace) && x !in Run(s, trace).devices
    ensures NeverQuarantined(s, trace, x)
    ensures Recoveries(s, trace, x) == 0
    decreases |trace|
  {
    hide Step, DeviceAfter, QuarantinedAt;
    if trace != [] {
      var init, last := trace[..|trace| - 1], trace[|trace| - 1];
      DevicesStep(Run(s, init), last.event, last.now);
      NeverTracked(s, init, x);
      AtLast(s, trace, x);
      forall i | 0 <= i < |init| ensures !QuarantinedAt(s, trace, i, x) {
        QuarantinedPrefix(s, trace, i, x);
      }
    }
  }

  // ---- Recovery ----

  /** How many recoveries of `x` have begun. */
  ghost function Recoveries(s: Store, trace: Trace, x: Id): nat
    decreases |trace|
  {
    if trace == [] then 0
    else
      var init, e := trace[..|trace| - 1], trace[|trace| - 1].event;
      Recoveries(s, init, x) + if e == BeginRecovery(x) && BeginsRecovery(Run(s, init), e) then 1 else 0
  }

  /** What an event does to the recovery on record: begin one, count a pass and perhaps complete
      it, or nothing. */
  predicate RecoveryAfter(s: Store, d: Device, e: Event, now: Timestamp, r: Care) {
    if e == BeginRecovery(d.id) && !d.care.inRecovery && CanTransition(d.health.state, Recovering)
    then && r.inRecovery
         && r.recovery == Some(RecoveryRecord(
              s.nextRecovery, 1 + (if d.care.recovery.Some? then d.care.recovery.value.generation else 0), now,
              ProfileName(s.policy.revalidationProfile), 0, false, 0))
    else if IsPass(e, d.id) && d.care.inRecovery
    then && d.care.recovery.Some?
         && r.recovery == Some(d.care.recovery.value.(
              successfulValidations := d.care.recovery.value.successfulValidations + 1,
              completed := d.care.recovery.value.completed || !r.inRecovery,
              end := if r.inRecovery then d.care.recovery.value.end else now))
    else r.recovery == d.care.recovery && r.inRecovery == d.care.inRecovery
  }

  lemma RecoveryStep(s: Store, d: Device, e: Event, now: Timestamp)
    requires Settled(d)
    ensures RecoveryAfter(s, d, e, now, DeviceAfter(s, d, e, now).care)
  {
    hide Reassessed, Judge, MergeDimensions, ReadyHolds, FatalHolds, QuarantineHolds, CanTransition, ProfileName;
    ReassessKeepsEvidence(Landed(s, d, e, now), ContextOf(s, now));
  }

  /** The beginning that the record of `x` tells of: step `i`, the last one. */
  ghost predicate BegunAt(s: Store, trace: Trace, i: nat, x: Id) {
    && i < |trace| && trace[i].event == BeginRecovery(x) && BeginsRecovery(Run(s, trace[..i]), trace[i].event)
  }

  ghost predicate TellsOf(s: Store, trace: Trace, i: nat, x: Id, r: RecoveryRecord) {
    && BegunAt(s, trace, i, x)
    && r.id == Run(s, trace[..i]).nextRecovery && r.begin == trace[i].now
    && r.profile == ProfileName(Run(s, trace[..i]).policy.revalidationProfile)
  }

  lemma TellsLater(s: Store, trace: Trace, i: nat, x: Id, r: RecoveryRecord, r': RecoveryRecord)
    requires trace != [] && TellsOf(s, trace[..|trace| - 1], i, x, r)
    requires r'.id == r.id && r'.begin == r.begin && r'.profile == r.profile
    ensures TellsOf(s, trace, i, x, r')
  {
    hide Run, BeginsRecovery;
    assert trace[..|trace| - 1][..i] == trace[..i];
  }

  lemma BegunPrefix(s: Store, trace: Trace, i: nat, x: Id)
    requires trace != [] && i < |trace| - 1
    ensures BegunAt(s, trace, i, x) <==> BegunAt(s, trace[..|trace| - 1], i, x)
  {
    hide Run, BeginsRecovery;
    assert trace[..|trace| - 1][..i] == trace[..i];
  }

  ghost predicate NoneBegunAfter(s: Store, trace: Trace, i: nat, x: Id) {
    forall j :: i < j < |trace| ==> !BegunAt(s, trace, j, x)
  }

  ghost predicate RecoveryTold(s: Store, trace: Trace, x: Id, d: Device) {
    && (d.care.recovery.None? <==> Recoveries(s, trace, x) == 0)
    && (d.care.recovery.Some? ==>
          && d.care.recovery.value.generation == Recoveries(s, trace, x)
          && (d.care.recovery.value.completed <==> !d.care.inRecovery)
          && (d.care.inRecovery ==> d.care.recovery.value.end == 0)
          && exists i :: TellsOf(s, trace, i, x, d.care.recovery.value) && NoneBegunAfter(s, trace, i, x))
  }

  lemma RecoveryTellsNext(s: Store, trace: Trace, x: Id, d: Device, r: Device)
    requires trace != [] && x in Run(s, trace[..|trace| - 1]).devices
    requires d == Run(s, trace[..|trace| - 1]).devices[x] && d.id == x && Settled(d)
    requires RecoveryTold(s, trace[..|trace| - 1], x, d)
    requires r == DeviceAfter(Run(s, trace[..|trace| - 1]), d, trace[|trace| - 1].event, trace[|trace| - 1].now)
    ensures RecoveryTold(s, trace, x, r)
  {
    hide Run, DeviceAfter, TellsOf, ReadyHolds, FatalHolds, QuarantineHolds, CanTransition, Step;
    var init, last := trace[..|trace| - 1], trace[|trace| - 1];
    RecoveryStep(Run(s, init), d, last.event, last.now);
    assert trace[..|trace| - 1] == init;
    if BegunAt(s, trace, |trace| - 1, x) {
      assert TellsOf(s, trace, |trace| - 1, x, r.care.recovery.value) by { TellsNow(s, trace, x, r); }
    } else if d.care.recovery.Some? {
      var i: nat :| TellsOf(s, init, i, x, d.care.recovery.value) && NoneBegunAfter(s, init, i, x);
      TellsLater(s, trace, i, x, d.care.recovery.value, r.care.recovery.value);
      forall j | i < j < |trace| ensures !BegunAt(s, trace, j, x) {
        if j < |init| {
          BegunPrefix(s, trace, j, x);
        }
      }
      assert NoneBegunAfter(s, trace, i, x);
    }
  }

  lemma TellsNow(s: Store, trace: Trace, x: Id, r: Device)
    requires trace != [] && BegunAt(s, trace, |trace| - 1, x) && r.care.recovery.Some?
    requires var before := Run(s, trace[..|trace| - 1]);
      && r.care.recovery.value.id == before.nextRecovery && r.care.recovery.value.begin == trace[|trace| - 1].now
      && r.care.recovery.value.profile == ProfileName(before.policy.revalidationProfile)
    ensures TellsOf(s, trace, |trace| - 1, x, r.care.recovery.value)
  {
    hide Run;
  }

  /** In every run the recovery a device has on record is the one begun last, with the id, the
      time and the policy's profile of that step; it is numbered by how many have begun, and
      completed exactly when the device is no longer under recovery. */
  lemma {:induction false} RecoveryOnRecord(s: Store, trace: Trace, x: Id)
    requires IsInitial(s) && Admissible(s, trace) && x in Run(s, trace).devices
    ensures RecoveryTold(s, trace, x, Run(s, trace).devices[x])
    decreases |trace|
  {
    hide Step, DeviceAfter, Settled, LegalLog, RecordsSound, RecoveryTold, BeginsRecovery;
    if trace != [] {
      var init, last := trace[..|trace| - 1], trace[|trace| - 1];
      if x in Run(s, init).devices {
        RecoveryOnRecord(s, init, x);
        LastStep(s, trace, x);
        RecoveryTellsNext(s, trace, x, Run(s, init).devices[x], Run(s, trace).devices[x]);
      } else {
        NewDevice(s, trace, x);
        NoCare(Run(s, trace).devices[x], x);
        NeverTracked(s, init, x);
        NoneTold(s, trace, x, Run(s, trace).devices[x]);
      }
    }
  }

  lemma NoneTold(s: Store, trace: Trace, x: Id, d: Device)
    requires trace != [] && x !in Run(s, trace[..|trace| - 1]).devices
    requires Recoveries(s, trace[..|trace| - 1], x) == 0 && d.care.recovery == None
    ensures RecoveryTold(s, trace, x, d)
  {
    hide Run;
  }

  // ---- Ids ----

  datatype Numbered = NewDevices | NewQuarantines | NewRecoveries

  /** The id that the next thing of the kind will draw. */
  function NextOf(s: Store, kind: Numbered): U64 {
    match kind
    case NewDevices => s.nextDevice
    case NewQuarantines => s.nextQuarantine
    case NewRecoveries => s.nextRecovery
  }

  predicate Draws(s: Store, e: Event, kind: Numbered) {
    match kind
    case NewDevices => e.RegisterDevice? && e.uuid !in s.uuidIndex && e.uuid == 0
    case NewQuarantines => e.BeginQuarantine? && e.id in s.devices && !QuarantineActive(s.devices[e.id])
    case NewRecoveries => BeginsRecovery(s, e)
  }

  ghost function Drawn(s: Store, trace: Trace, i: nat, kind: Numbered): nat
    decreases |trace|
  {
    if |trace| <= i then 0
    else
      var init, e := trace[..|trace| - 1], trace[|trace| - 1].event;
      Drawn(s, init, i, kind) + if Draws(Run(s, init), e, kind) then 1 else 0
  }

  lemma IdsStep(s: Store, e: Event, now: Timestamp, kind: Numbered)
    ensures !e.Restart? ==>
      NextOf(Step(s, e, now), kind) == (NextOf(s, kind) + if Draws(s, e, kind) then 1 else 0) % UINT64
    ensures e.Restart? ==> NextOf(Step(s, e, now), kind) == (MaxId(s.devices.Keys) + 1) % UINT64
  {
    hide DevicesAfter, StateIndexAfter, ReadinessIndexAfter, StaleIndexAfter, GlobalChangesAfter, GlobalFaultsAfter,
      QuarantineIndexAfter, FaultIndexAfter, Judge, CanTransition, MaxId;
  }

  /** Between restarts every quarantine, every recovery and every device without a uuid draws the
      next id of its kind, modulo 2^64. */
  lemma {:induction false} IdsAreDrawn(s: Store, trace: Trace, i: nat, kind: Numbered)
    requires i <= |trace| && forall j :: i <= j < |trace| ==> !trace[j].event.Restart?
    ensures NextOf(Run(s, trace), kind) == (NextOf(Run(s, trace[..i]), kind) + Drawn(s, trace, i, kind)) % UINT64
    decreases |trace|
  {
    hide Step, NextOf, Draws;
    if i == |trace| {
      assert trace[..i] == trace;
    } else {
      var init, last := trace[..|trace| - 1], trace[|trace| - 1];
      assert init[..i] == trace[..i];
      assert forall j :: 0 <= j < |init| ==> init[j] == trace[j];
      IdsAreDrawn(s, init, i, kind);
      IdsStep(Run(s, init), last.event, last.now, kind);
      OneMoreId(NextOf(Run(s, trace[..i]), kind) + Drawn(s, init, i, kind),
                if Draws(Run(s, init), last.event, kind) then 1 else 0);
    }
  }

  lemma OneMoreId(a: nat, b: nat)
    ensures (a % UINT64 + b) % UINT64 == (a + b) % UINT64
  {
    assert a == UINT64 * (a / UINT64) + a % UINT64;
  }

  /** A restart has all of them start again, behind the largest device id. */
  lemma IdsAfterRestart(s: Store, trace: Trace, now: Timestamp, kind: Numbered, m: Id)
    requires forall x :: x in Run(s, trace).devices ==> x <= m
    requires m in Run(s, trace).devices || (m == 0 && Run(s, trace).devices == map[])
    ensures NextOf(Run(s, trace + [Timed(Restart, now)]), kind) == (m + 1) % UINT64
  {
    hide Step, Run, NextOf;
    RunSnoc(s, trace, Timed(Restart, now));
    IdsStep(Run(s, trace), Restart, now, kind);
    MaxIdIs(Run(s, trace).devices.Keys, m);
  }

  lemma MaxIdIs(ids: set<Id>, m: Id)
    requires (forall x :: x in ids ==> x <= m) && (m in ids || (m == 0 && ids == {}))
    ensures MaxId(ids) == m
  {
  }
}
