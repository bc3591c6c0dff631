/** Hysteresis of the state machine over whole runs: how a device comes back to HEALTHY,
    and how often it can change state at all. */
module Recovery {
  import opened Enums
  import opened Records
  import opened StateMachine
  import opened Readiness
  import opened FaultHistory
  import opened Assessment
  import opened Devices
  import opened StoreMachine
  import opened ChangeLogs
  import opened DeviceInvariant
  import opened Runs

  function Successes(d: Device): Counter {
    if d.care.recovery.Some? then d.care.recovery.value.successfulValidations else 0
  }

  predicate IsPass(e: Event, x: Id) {
    e.Revalidate? && e.id == x && e.record.passed
  }

  /** A passing revalidation that brings the count of successes up to what policy asks. */
  predicate PassesGate(s: Store, d: Device, e: Event) {
    IsPass(e, d.id) && d.care.inRecovery && Successes(d) + 1 >= s.policy.recoveryValidationsRequired
  }

  // ---- One step ----

  /** The states an operation can land a device in before the closing reassessment. */
  lemma LandedStates(s: Store, d: Device, e: Event, now: Timestamp)
    requires Settled(d)
    ensures var l := Landed(s, d, e, now).health.state;
      || l == d.health.state
      || (l == Lost && e.MarkLost?)
      || (l == Quarantined && (e.BeginQuarantine? || e.Revalidate?))
      || (l == Recovering && e.BeginRecovery?)
      || (l == Revalidating && e.Revalidate?)
      || (l == Healthy && PassesGate(s, d, e))
  {
    hide Judge, MergeDimensions, ReadyHolds, FatalHolds, QuarantineHolds;
    if e.MarkLost? {
      TableShape(d.health.state);
    }
  }

  lemma HealthyEntry(s: Store, d: Device, e: Event, now: Timestamp)
    requires Settled(d)
    requires d.health.state != Healthy
    requires DeviceAfter(s, d, e, now).health.state == Healthy
    ensures d.health.state == Initializing || PassesGate(s, d, e)
  {
    hide Landed, Reassessed, ReadyHolds, FatalHolds, QuarantineHolds, AnyFailed, AnyFatalDimension, HasOpenFatal,
      AsInt32;
    var c := ContextOf(s, now);
    var l := Landed(s, d, e, now);
    LandedStates(s, d, e, now);
    LandedPrepares(s, d, e, now);
    ReassessDecides(l, c);
    TableShape(l.health.state);
  }

  /** How one step changes the count of successes of a recovery under way. */
  lemma SuccessesStep(s: Store, d: Device, e: Event, now: Timestamp)
    requires Settled(d)
    ensures var d' := DeviceAfter(s, d, e, now);
      d'.care.inRecovery ==>
        if e.BeginRecovery? && e.id == d.id && !d.care.inRecovery then Successes(d') == 0
        else d.care.inRecovery && Successes(d') == Successes(d) + (if IsPass(e, d.id) then 1 else 0)
  {
    hide Reassessed, Judge, MergeDimensions, ReadyHolds, FatalHolds, QuarantineHolds;
    ReassessKeepsEvidence(Landed(s, d, e, now), ContextOf(s, now));
  }

  lemma FailureLands(s: Store, d: Device, v: ValidationRecord, now: Timestamp)
    requires Settled(d) && !v.passed
    ensures var l := Landed(s, d, Revalidate(d.id, v), now);
      && IsReassessed(s, d, Revalidate(d.id, v), now)
      && l.care == d.care
      && (if d.care.inRecovery && d.health.state != Lost
          then l.health.state == Quarantined && l.health.transitions == d.health.transitions + 1
          else l == WithValidation(d, v))
  {
    hide ReadyHolds, FatalHolds, QuarantineHolds;
  }

  /** A failed revalidation inside recovery does quarantine the device, but the reassessment that
      closes the call takes it straight back: the recovery stays open, with its successes. */
  lemma FailureKeepsRecovery(s: Store, d: Device, v: ValidationRecord, now: Timestamp)
    requires Settled(d) && d.care.inRecovery && d.health.state != Lost && !v.passed
    ensures var d' := DeviceAfter(s, d, Revalidate(d.id, v), now);
      && d'.health.state == Recovering && d'.care.inRecovery
      && Successes(d') == Successes(d)
      && d'.health.transitions == d.health.transitions + 2
  {
    hide Landed, Reassessed, IsReassessed, ReadyHolds, FatalHolds, QuarantineHolds;
    var l := Landed(s, d, Revalidate(d.id, v), now);
    FailureLands(s, d, v, now);
    ReassessKeepsEvidence(l, ContextOf(s, now));
    ReassessDecides(l, ContextOf(s, now));
  }

  /** So a failed revalidation leaves a device quarantined only outside recovery: exactly when
      the device is there already, or its faults alone send it there. */
  lemma FailureQuarantines(s: Store, d: Device, v: ValidationRecord, now: Timestamp)
    requires Settled(d) && !v.passed
    ensures DeviceAfter(s, d, Revalidate(d.id, v), now).health.state == Quarantined <==>
      && !d.care.inRecovery
      && (|| d.health.state == Quarantined
          || (CanTransition(d.health.state, Quarantined) && TargetOf(d, ContextOf(s, now)) == Quarantined))
  {
    hide Landed, Reassessed, IsReassessed, ReadyHolds, FatalHolds, QuarantineHolds, AnyFailed, AnyFatalDimension,
      HasOpenFatal, AsInt32, EvidenceFreshness, StatsOf;
    var c, l := ContextOf(s, now), Landed(s, d, Revalidate(d.id, v), now);
    FailureLands(s, d, v, now);
    ReassessKeepsEvidence(l, c);
    ReassessDecides(l, c);
  }

  // ---- Transitions left ----

  /** The most transitions a device can still make without a recovery or quarantine call. */
  function Slack(s: HealthState): nat {
    match s
    case Initializing => 6 case Healthy => 5 case Degraded => 4 case Unhealthy => 3
    case Failed => 2 case Quarantined => 1 case Recovering => 1 case Revalidating => 1
    case _ => 0
  }

  /** What one call adds to the number of transitions a device can make. */
  function Charge(e: Event, x: Id): nat {
    match e
    case BeginRecovery(id) => if id == x then 1 else 0
    case Revalidate(id, _) => if id == x then 6 else 0
    case BeginQuarantine(id, _, _, _) => if id == x then 2 else 0
    case _ => 0
  }

  function Level(d: Device): nat {
    d.health.transitions + Slack(d.health.state)
  }

  lemma ReassessLevel(d: Device, c: Context)
    requires Prepared(d)
    ensures Level(Reassessed(d, c)) <= Level(d) + (if d.care.inRecovery && d.health.state == Quarantined then 1 else 0)
    ensures !d.care.inRecovery ==> Slack(Reassessed(d, c).health.state) <= Slack(d.health.state)
  {
    hide Reassessed, AnyFailed, AnyFatalDimension, HasOpenFatal, AsInt32, EvidenceFreshness;
    ReassessDecides(d, c);
  }

  lemma LandedLevel(s: Store, d: Device, e: Event, now: Timestamp)
    requires Settled(d)
    ensures var l := Landed(s, d, e, now);
      Level(l) + (if l.care.inRecovery && l.health.state == Quarantined then 1 else 0) <= Level(d) + Charge(e, d.id)
  {
    hide Judge, MergeDimensions, ReadyHolds, FatalHolds, QuarantineHolds, Revalidated, MarkedLost, CanTransition,
      MovedToQuarantine, WithQuarantine, RecoveryBegun;
    var c := ContextOf(s, now);
    match e
    case MarkLost(_, reason) => LostLevel(d, reason, c);
    case Revalidate(_, v) => RevalidatedLevel(d, v, c);
    case BeginQuarantine(_, authority, reason, trigger) =>
      QuarantinedLevel(d, s.nextQuarantine, authority, reason, trigger, c);
    case BeginRecovery(_) => BegunLevel(d, s.nextRecovery, c);
    case _ =>
  }

  lemma LostLevel(d: Device, reason: string, c: Context)
    requires InUse(d.health.state)
    ensures Level(MarkedLost(d, reason, c)) <= Level(d) && MarkedLost(d, reason, c).health.state == Lost
  {
    hide CanTransition;
    TableShape(d.health.state);
  }

  lemma QuarantinedLevel(d: Device, id: Id, authority: QuarantineAuthority, reason: string, trigger: string, c: Context)
    requires Settled(d)
    ensures var q := WithQuarantine(d, id, authority, reason, trigger, c);
      && q.health == d.health && q.care.inRecovery == d.care.inRecovery
      && (CanQuarantine(d) ==>
            CanQuarantine(q) && Level(MovedToQuarantine(q, reason, c)) + 1 <= Level(d) + 2
            && MovedToQuarantine(q, reason, c).care.inRecovery == d.care.inRecovery)
  {
    hide ReadyHolds, FatalHolds, QuarantineHolds;
  }

  lemma BegunLevel(d: Device, id: Id, c: Context)
    requires InUse(d.health.state)
    ensures CanTransition(d.health.state, Recovering) ==>
      Level(RecoveryBegun(d, id, c)) <= Level(d) + 1 && RecoveryBegun(d, id, c).health.state == Recovering
  {
    TableShape(d.health.state);
  }

  lemma RevalidatedLevel(d: Device, v: ValidationRecord, c: Context)
    requires Settled(d)
    ensures var l := Revalidated(d, v, c);
      Level(l) + (if l.care.inRecovery && l.health.state == Quarantined then 1 else 0) <= Level(d) + 6
  {
    hide ReadyHolds, FatalHolds, QuarantineHolds;
  }

  lemma LevelStep(s: Store, d: Device, e: Event, now: Timestamp)
    requires Settled(d)
    ensures Level(DeviceAfter(s, d, e, now)) <= Level(d) + Charge(e, d.id)
  {
    hide Landed, Reassessed, Settled, Prepared;
    LandedPrepares(s, d, e, now);
    LandedLevel(s, d, e, now);
    ReassessLevel(Landed(s, d, e, now), ContextOf(s, now));
  }

  /** Outside recovery, and without a call that begins one, the state only gets worse. */
  lemma SlackStep(s: Store, d: Device, e: Event, now: Timestamp)
    requires Settled(d)
    requires !d.care.inRecovery
    requires !(e.BeginRecovery? && e.id == d.id)
    ensures !DeviceAfter(s, d, e, now).care.inRecovery
    ensures Slack(DeviceAfter(s, d, e, now).health.state) <= Slack(d.health.state)
    ensures Level(DeviceAfter(s, d, e, now)) <= Level(d)
  {
    hide Reassessed, Judge, MergeDimensions, ReadyHolds, FatalHolds, QuarantineHolds;
    var l := Landed(s, d, e, now);
    LandedPrepares(s, d, e, now);
    ReassessKeepsEvidence(l, ContextOf(s, now));
    ReassessLevel(l, ContextOf(s, now));
    if e.MarkLost? {
      TableShape(d.health.state);
    }
  }

  // ---- Whole runs ----

  /** Passing revalidations of `x` since its recovery last began. */
  ghost function PassesSinceBegin(s: Store, trace: Trace, x: Id): nat
    decreases |trace|
  {
    if trace == [] then 0
    else
      var init, e := trace[..|trace| - 1], trace[|trace| - 1].event;
      if e == BeginRecovery(x) && BeginsRecovery(Run(s, init), e) then 0
      else PassesSinceBegin(s, init, x) + if IsPass(e, x) then 1 else 0
  }

  lemma {:induction false} SuccessesAreCounted(s: Store, trace: Trace, x: Id)
    requires IsInitial(s)
    requires Admissible(s, trace)
    requires x in Run(s, trace).devices && Run(s, trace).devices[x].care.inRecovery
    ensures Successes(Run(s, trace).devices[x]) == PassesSinceBegin(s, trace, x)
    decreases |trace|
  {
    hide DeviceAfter, Step, Settled, LegalLog, RecordsSound;
    if trace != [] {
      var init, last := trace[..|trace| - 1], trace[|trace| - 1];
      if x in Run(s, init).devices {
        var before := Run(s, init);
        LastStep(s, trace, x);
        SuccessesStep(before, before.devices[x], last.event, last.now);
        if before.devices[x].care.inRecovery {
          SuccessesAreCounted(s, init, x);
        } else {
          BeginNeedsEdge(before, before.devices[x], last.event, last.now);
        }
      } else {
        NewDevice(s, trace, x);
      }
    }
  }

  lemma BeginNeedsEdge(s: Store, d: Device, e: Event, now: Timestamp)
    requires e == BeginRecovery(d.id)
    requires !d.care.inRecovery && DeviceAfter(s, d, e, now).care.inRecovery
    ensures CanTransition(d.health.state, Recovering)
  {
    hide Reassessed, CanTransition;
    ReassessKeepsEvidence(Landed(s, d, e, now), ContextOf(s, now));
  }

  /** The recovery gate. A device that has ever changed state enters HEALTHY only inside a
      passing revalidation of a recovery under way, and only when at least as many
      revalidations have passed since that recovery began as policy requires, one at least. */
  lemma RecoveryGate(s: Store, trace: Trace, x: Id)
    requires IsInitial(s)
    requires trace != [] && Admissible(s, trace)
    requires x in Run(s, trace[..|trace| - 1]).devices
    requires Run(s, trace[..|trace| - 1]).devices[x].health.changes != []
    requires Run(s, trace[..|trace| - 1]).devices[x].health.state != Healthy
    requires x in Run(s, trace).devices && Run(s, trace).devices[x].health.state == Healthy
    ensures IsPass(trace[|trace| - 1].event, x)
    ensures Run(s, trace[..|trace| - 1]).devices[x].care.inRecovery
    ensures PassesSinceBegin(s, trace, x) >= 1
    ensures PassesSinceBegin(s, trace, x) >= Run(s, trace[..|trace| - 1]).policy.recoveryValidationsRequired
  {
    hide DeviceAfter, Step, ReadyHolds, FatalHolds, QuarantineHolds, RecordsSound;
    var init, last := trace[..|trace| - 1], trace[|trace| - 1];
    var before := Run(s, init);
    LastStep(s, trace, x);
    HealthyEntry(before, before.devices[x], last.event, last.now);
    SuccessesAreCounted(s, init, x);
  }

  /** What a passing revalidation does to a device under recovery: the success counts, and the
      recovery ends exactly when the count now reaches what policy asks. */
  lemma PassLands(s: Store, d: Device, v: ValidationRecord, now: Timestamp)
    requires Settled(d) && d.care.inRecovery && d.health.state != Lost && v.passed
    ensures var e, n := Revalidate(d.id, v), Successes(d) + 1;
      var l := Landed(s, d, e, now);
      && IsReassessed(s, d, e, now)
      && l.care.recovery.Some? && l.care.recovery.value.successfulValidations == n
      && (if n >= s.policy.recoveryValidationsRequired
          then !l.care.inRecovery && l.health.state == Healthy && l.care.recovery.value.completed
               && l.care.recovery.value.end == now && d.health.changes < l.health.changes
               && LeavesRecovery(l.health.changes[|l.health.changes| - 1], now)
          else l.care.inRecovery && l.health.state == Revalidating)
  {
    hide ReadyHolds, FatalHolds, QuarantineHolds;
  }

  /** The entry of a device that comes out of its recovery. */
  predicate LeavesRecovery(g: HealthChange, now: Timestamp) {
    g.from == Revalidating && g.to == Healthy && g.timestamp == now
  }

  lemma PassStep(s: Store, d: Device, v: ValidationRecord, now: Timestamp)
    requires Settled(d) && d.care.inRecovery && d.health.state != Lost && v.passed
    ensures var e, n := Revalidate(d.id, v), Successes(d) + 1;
      var d' := DeviceAfter(s, d, e, now);
      && d'.care.recovery.Some? && d'.care.recovery.value.successfulValidations == n
      && (if n >= s.policy.recoveryValidationsRequired
          then !d'.care.inRecovery && d'.care.recovery.value.completed && d'.care.recovery.value.end == now
               && exists i :: |d.health.changes| <= i < |d'.health.changes| && LeavesRecovery(d'.health.changes[i], now)
          else d'.care.inRecovery && d'.health.state == Revalidating)
  {
    hide Landed, Reassessed, IsReassessed, LegalLog, ReadyHolds, FatalHolds, QuarantineHolds;
    var e, c := Revalidate(d.id, v), ContextOf(s, now);
    var l := Landed(s, d, e, now);
    PassLands(s, d, v, now);
    ReassessKeepsEvidence(l, c);
    ReassessedContinues(l, c);
    ReassessDecides(l, c);
    var r := Reassessed(l, c);
    if Successes(d) + 1 >= s.policy.recoveryValidationsRequired {
      var i := |l.health.changes| - 1;
      assert r.health.changes[i] == l.health.changes[i];
      assert LeavesRecovery(r.health.changes[i], now);
    }
  }

  /** The gate opens. In every run a passing revalidation of a device under recovery, and not lost,
      ends the recovery exactly when as many have passed since it began as the policy in force
      requires: the device goes through HEALTHY, on record with the time. Otherwise the device
      is REVALIDATING. */
  lemma RecoveryEnds(s: Store, trace: Trace, x: Id)
    requires IsInitial(s)
    requires trace != [] && Admissible(s, trace)
    requires x in Run(s, trace[..|trace| - 1]).devices && IsPass(trace[|trace| - 1].event, x)
    requires Run(s, trace[..|trace| - 1]).devices[x].care.inRecovery
    requires Run(s, trace[..|trace| - 1]).devices[x].health.state != Lost
    ensures x in Run(s, trace).devices
    ensures var before, d, now := Run(s, trace[..|trace| - 1]), Run(s, trace).devices[x], trace[|trace| - 1].now;
      && (!d.care.inRecovery <==> PassesSinceBegin(s, trace, x) >= before.policy.recoveryValidationsRequired)
      && (!d.care.inRecovery ==>
            && d.care.recovery.Some? && d.care.recovery.value.completed && d.care.recovery.value.end == now
            && exists i :: |before.devices[x].health.changes| <= i < |d.health.changes|
                           && LeavesRecovery(d.health.changes[i], now))
      && (d.care.inRecovery ==> d.health.state == Revalidating)
  {
    hide DeviceAfter, Step, ReadyHolds, FatalHolds, QuarantineHolds, RecordsSound, LegalLog, LeavesRecovery;
    var init, last := trace[..|trace| - 1], trace[|trace| - 1];
    var before := Run(s, init);
    LastStep(s, trace, x);
    SuccessesAreCounted(s, init, x);
    PassStep(before, before.devices[x], last.event.record, last.now);
  }

  ghost function Charges(trace: Trace, x: Id): nat {
    if trace == [] then 0
    else Charges(trace[..|trace| - 1], x) + Charge(trace[|trace| - 1].event, x)
  }

  lemma {:induction false} LevelBounded(s: Store, trace: Trace, x: Id)
    requires IsInitial(s)
    requires Admissible(s, trace)
    requires x in Run(s, trace).devices
    ensures Level(Run(s, trace).devices[x]) <= 6 + Charges(trace, x)
    decreases |trace|
  {
    hide DeviceAfter, Step, Settled, LegalLog, RecordsSound;
    if trace != [] {
      var init, last := trace[..|trace| - 1], trace[|trace| - 1];
      if x in Run(s, init).devices {
        LastStep(s, trace, x);
        LevelBounded(s, init, x);
        LevelStep(Run(s, init), Run(s, init).devices[x], last.event, last.now);
      } else {
        NewDevice(s, trace, x);
      }
    }
  }

  /** However many observations, faults, policy changes, restarts and clock readings a run
      has, a device changes state at most six times, plus once for each call that begins its
      recovery, twice for each that begins its quarantine and six times for each revalidation. */
  lemma TransitionsBounded(s: Store, trace: Trace, x: Id)
    requires IsInitial(s)
    requires Admissible(s, trace)
    requires x in Run(s, trace).devices
    ensures |Run(s, trace).devices[x].health.changes| <= 6 + Charges(trace, x)
  {
    hide Step;
    LevelBounded(s, trace, x);
    ReachableInvariant(s, trace);
  }

  predicate BeginsNoRecovery(trace: Trace, x: Id) {
    forall i :: 0 <= i < |trace| ==> trace[i].event != BeginRecovery(x)
  }

  /** Without a recovery the severity order INITIALIZING, HEALTHY, DEGRADED, UNHEALTHY,
      FAILED, QUARANTINED, LOST is never descended, so six changes of state are all there are. */
  lemma {:induction false} NoFlapping(s: Store, trace: Trace, i: nat, x: Id)
    requires IsInitial(s)
    requires Admissible(s, trace)
    requires BeginsNoRecovery(trace, x)
    requires i <= |trace|
    requires x in Run(s, trace[..i]).devices
    ensures x in Run(s, trace).devices
    ensures Slack(Run(s, trace).devices[x].health.state) <= Slack(Run(s, trace[..i]).devices[x].health.state)
    ensures !Run(s, trace).devices[x].care.inRecovery
    ensures |Run(s, trace).devices[x].health.changes| + Slack(Run(s, trace).devices[x].health.state) <= 6
    decreases |trace|
  {
    hide DeviceAfter, Step, Settled, RecordsSound, LegalLog;
    if trace != [] {
      var init, last := trace[..|trace| - 1], trace[|trace| - 1];
      if i == |trace| {
        assert trace[..i] == trace;
        if x in Run(s, init).devices {
          assert init[..|init|] == init;
          NoFlapping(s, init, |init|, x);
        } else {
          NewDevice(s, trace, x);
        }
      } else {
        assert init[..i] == trace[..i];
        NoFlapping(s, init, i, x);
      }
      if x in Run(s, init).devices {
        LastStep(s, trace, x);
        LogLength(Run(s, init).devices[x]);
        SlackStep(Run(s, init), Run(s, init).devices[x], last.event, last.now);
      }
      ReachableInvariant(s, trace);
      LogLength(Run(s, trace).devices[x]);
    }
  }

  lemma LogLength(d: Device)
    requires Sound(d)
    ensures |d.health.changes| == d.health.transitions
  {
  }
}
