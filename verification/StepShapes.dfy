/** What a step comes to when it concerns at most one device: the closed form of the store
    machine, in the terms in which the runtime updates its fields. */
module StepShapes {
  import opened Enums
  import opened Records
  import opened StateMachine
  import opened Devices
  import opened StoreMachine
  import opened ChangeLogs

  ghost predicate KeysAgree(devices: map<Id, Device>) {
    forall x :: x in devices ==> devices[x].id == x
  }

  /** The one device an event is about. */
  function Subject(e: Event): Option<Id> {
    match e
    case Reassess(x) => Some(x)
    case MarkLost(x, _) => Some(x)
    case Observe(obs, _) => Some(obs.accelerator)
    case RecordFault(f) => Some(f.accelerator)
    case RecordValidation(v) => Some(v.accelerator)
    case BeginQuarantine(x, _, _, _) => Some(x)
    case ClearQuarantine(x) => Some(x)
    case BeginRecovery(x) => Some(x)
    case Revalidate(x, _) => Some(x)
    case _ => None
  }

  lemma OthersUntouched(s: Store, d: Device, e: Event, now: Timestamp)
    requires Subject(e).Some? && d.id != Subject(e).value
    ensures Touched(s, d, e, now).Untouched?
  {
    hide Judge, CanTransition, Revalidated, MarkedLost;
  }

  lemma UntouchedMeans(s: Store, d: Device, e: Event, now: Timestamp)
    requires Touched(s, d, e, now).Untouched?
    ensures !IsReassessed(s, d, e, now) && DeviceAfter(s, d, e, now) == d
  {
    hide Touched;
  }

  lemma SameLogGainsNothing(d: Device, e: Device)
    requires d.health.changes == e.health.changes
    ensures Gained(d, e) == []
  {
  }

  lemma {:induction false} OneGains(ks: seq<Id>, before: map<Id, Device>, after: map<Id, Device>, x: Id)
    requires forall k :: k in ks ==> k in before && k in after
    requires forall k :: k in ks && k != x ==> before[k].health.changes == after[k].health.changes
    requires IsSorted(ks) && x in ks
    ensures NewChanges(ks, before, after) == Gained(before[x], after[x])
  {
    hide Gained;
    var rest := ks[1..];
    assert NewChanges(ks, before, after) == Gained(before[ks[0]], after[ks[0]]) + NewChanges(rest, before, after);
    assert forall k :: k in rest ==> k in ks;
    if ks[0] == x {
      assert x !in rest;
      NothingGained(rest, before, after);
    } else {
      SameLogGainsNothing(before[ks[0]], after[ks[0]]);
      assert x in rest;
      OneGains(rest, before, after, x);
    }
  }

  /** Entries gained in two stages are gained at once. */
  lemma GainsChain(a: Device, b: Device, c: Device)
    requires a.health.changes <= b.health.changes <= c.health.changes
    ensures Gained(a, b) + Gained(b, c) == Gained(a, c)
  {
    var x, y, z := a.health.changes, b.health.changes, c.health.changes;
    assert y[|x|..] + z[|y|..] == z[|x|..] by {
      assert z == y + z[|y|..];
    }
  }

  // ---- Moving between buckets ----

  /** An index after one id has been put into one bucket. */
  function MovedTo<B(==)>(index: set<(B, Id)>, x: Id, b: B): set<(B, Id)> {
    (set p | p in index && p.1 != x) + {(b, x)}
  }

  lemma MovingOne<B>(index: set<(B, Id)>, x: Id, bucket: map<Id, B>)
    requires x in bucket
    ensures Moving(index, {x}, bucket) == MovedTo(index, x, bucket[x])
  {
  }

  lemma MovingNone<B>(index: set<(B, Id)>, bucket: map<Id, B>)
    ensures Moving(index, {}, bucket) == index
  {
  }

  // ---- Nothing happens ----

  ghost predicate NobodyTouched(s: Store, e: Event, now: Timestamp) {
    forall x :: x in s.devices ==> Touched(s, s.devices[x], e, now).Untouched?
  }

  lemma IdleKept(s: Store, e: Event, now: Timestamp)
    requires NobodyTouched(s, e, now)
    ensures Kept(s, e, now) == s.devices && Refreshed(s, e, now) == {}
  {
    hide DeviceAfter, IsReassessed, Touched;
    forall x | x in s.devices
      ensures !IsReassessed(s, s.devices[x], e, now) && DeviceAfter(s, s.devices[x], e, now) == s.devices[x]
    {
      UntouchedMeans(s, s.devices[x], e, now);
    }
  }

  lemma IdleStep(s: Store, e: Event, now: Timestamp)
    requires NobodyTouched(s, e, now) && !e.Restart? && !Registers(s, e)
    ensures DevicesAfter(s, e, now) == s.devices
    ensures StateIndexAfter(s, e, now) == s.stateIndex
    ensures ReadinessIndexAfter(s, e, now) == s.readinessIndex
    ensures StaleIndexAfter(s, e, now) == s.staleIndex
    ensures GlobalChangesAfter(s, e, now) == s.globalChanges
  {
    hide Kept, Refreshed, NobodyTouched, Sorted, HasOldEvidence, StatesOf, ReadinessesOf, Moving, NewChanges;
    IdleKept(s, e, now);
    assert DevicesAfter(s, e, now) == s.devices;
    assert Reindexed(s, e, now) == {};
    MovingNone(s.stateIndex, StatesOf(s.devices));
    MovingNone(s.readinessIndex, ReadinessesOf(s.devices));
    NothingGained(Sorted(s.devices.Keys), s.devices, Kept(s, e, now));
  }

  /** The subject is not tracked, or the event does not apply to it. */
  lemma IdleSubject(s: Store, e: Event, now: Timestamp)
    requires KeysAgree(s.devices) && Subject(e).Some?
    requires Subject(e).value in s.devices ==> Touched(s, s.devices[Subject(e).value], e, now).Untouched?
    ensures NobodyTouched(s, e, now) && !e.Restart? && !Registers(s, e)
  {
    hide Touched;
    forall x | x in s.devices ensures Touched(s, s.devices[x], e, now).Untouched? {
      if x != Subject(e).value {
        OthersUntouched(s, s.devices[x], e, now);
      }
    }
  }

  // ---- One device changes ----

  lemma OneKept(s: Store, e: Event, now: Timestamp, x: Id)
    requires KeysAgree(s.devices) && Subject(e) == Some(x) && x in s.devices
    ensures DevicesAfter(s, e, now) == s.devices[x := DeviceAfter(s, s.devices[x], e, now)]
    ensures Kept(s, e, now) == DevicesAfter(s, e, now)
    ensures Refreshed(s, e, now) == if IsReassessed(s, s.devices[x], e, now) then {x} else {}
    ensures Reindexed(s, e, now) == Refreshed(s, e, now)
  {
    hide DeviceAfter, IsReassessed, Touched;
    forall y | y in s.devices && y != x
      ensures !IsReassessed(s, s.devices[y], e, now) && DeviceAfter(s, s.devices[y], e, now) == s.devices[y]
    {
      OthersUntouched(s, s.devices[y], e, now);
      UntouchedMeans(s, s.devices[y], e, now);
    }
  }

  lemma OneChanges(s: Store, e: Event, now: Timestamp, x: Id)
    requires KeysAgree(s.devices) && Subject(e) == Some(x) && x in s.devices
    ensures GlobalChangesAfter(s, e, now) ==
      s.globalChanges + Gained(s.devices[x], DeviceAfter(s, s.devices[x], e, now))
  {
    hide DeviceAfter, Sorted, Gained, Kept, DevicesAfter;
    OneKept(s, e, now, x);
    OneGains(Sorted(s.devices.Keys), s.devices, Kept(s, e, now), x);
  }

  /** One device changes and is not reassessed. */
  lemma QuietStep(s: Store, e: Event, now: Timestamp, x: Id, after: Device)
    requires KeysAgree(s.devices) && Subject(e) == Some(x) && x in s.devices
    requires !IsReassessed(s, s.devices[x], e, now) && after == Landed(s, s.devices[x], e, now)
    ensures DevicesAfter(s, e, now) == s.devices[x := after]
    ensures StateIndexAfter(s, e, now) == s.stateIndex
    ensures ReadinessIndexAfter(s, e, now) == s.readinessIndex
    ensures StaleIndexAfter(s, e, now) == s.staleIndex
    ensures GlobalChangesAfter(s, e, now) == s.globalChanges + Gained(s.devices[x], after)
  {
    hide Landed, IsReassessed, Refreshed, Kept, DevicesAfter, GlobalChangesAfter, Gained, HasOldEvidence, Reindexed;
    OneKept(s, e, now, x);
    OneChanges(s, e, now, x);
    assert DeviceAfter(s, s.devices[x], e, now) == after;
  }

  /** The stale index around one reassessed device. */
  function StaleAround(stale: set<Id>, x: Id, d: Device, c: Context): set<Id> {
    if HasOldEvidence(d, c) then stale + {x} else stale - {x}
  }

  /** One device changes and is reassessed. */
  lemma JudgedStep(s: Store, e: Event, now: Timestamp, x: Id, landed: Device, after: Device)
    requires KeysAgree(s.devices) && Subject(e) == Some(x) && x in s.devices
    requires Touched(s, s.devices[x], e, now) == Judged(landed) && after == Reassessed(landed, ContextOf(s, now))
    ensures DevicesAfter(s, e, now) == s.devices[x := after]
    ensures StateIndexAfter(s, e, now) == MovedTo(s.stateIndex, x, after.health.state)
    ensures ReadinessIndexAfter(s, e, now) == MovedTo(s.readinessIndex, x, after.judgement.readiness)
    ensures StaleIndexAfter(s, e, now) == StaleAround(s.staleIndex, x, after, ContextOf(s, now))
    ensures GlobalChangesAfter(s, e, now) == s.globalChanges + Gained(s.devices[x], after)
  {
    hide Touched, Refreshed, Kept, DevicesAfter, GlobalChangesAfter, Gained, HasOldEvidence, Reindexed, Reassessed,
      Moving, MovedTo;
    OneKept(s, e, now, x);
    OneChanges(s, e, now, x);
    assert DeviceAfter(s, s.devices[x], e, now) == after;
    MovingOne(s.stateIndex, x, StatesOf(s.devices[x := after]));
    MovingOne(s.readinessIndex, x, ReadinessesOf(s.devices[x := after]));
  }

  // ---- Registration and policy change ----

  lemma RegisterStep(s: Store, uuid: Id, node: Id, now: Timestamp, x: Id)
    requires uuid !in s.uuidIndex && x == NewId(s, uuid)
    ensures var e := RegisterDevice(uuid, node);
      && DevicesAfter(s, e, now) == s.devices[x := FreshDevice(x, uuid, node, now)]
      && StateIndexAfter(s, e, now) == MovedTo(s.stateIndex, x, Initializing)
      && ReadinessIndexAfter(s, e, now) == MovedTo(s.readinessIndex, x, ReadinessUnknown)
      && StaleIndexAfter(s, e, now) == s.staleIndex
      && GlobalChangesAfter(s, e, now) == s.globalChanges
  {
    hide Kept, Refreshed, Moving, MovedTo, HasOldEvidence, Sorted, NewChanges;
    var e := RegisterDevice(uuid, node);
    assert NobodyTouched(s, e, now);
    IdleKept(s, e, now);
    assert Reindexed(s, e, now) == {x};
    var after := s.devices[x := FreshDevice(x, uuid, node, now)];
    MovingOne(s.stateIndex, x, StatesOf(after));
    MovingOne(s.readinessIndex, x, ReadinessesOf(after));
    NothingGained(Sorted(s.devices.Keys), s.devices, Kept(s, e, now));
  }

  function FlaggedAll(devices: map<Id, Device>): map<Id, Device> {
    map x | x in devices :: PolicyFlagged(devices[x])
  }

  lemma FlagKept(s: Store, policy: HealthPolicy, now: Timestamp)
    ensures Kept(s, InstallPolicy(policy), now) == FlaggedAll(s.devices)
    ensures Refreshed(s, InstallPolicy(policy), now) == {}
  {
    hide PolicyFlagged;
  }

  lemma FlagStep(s: Store, policy: HealthPolicy, now: Timestamp)
    ensures var e := InstallPolicy(policy);
      && DevicesAfter(s, e, now) == FlaggedAll(s.devices)
      && StateIndexAfter(s, e, now) == s.stateIndex
      && ReadinessIndexAfter(s, e, now) == s.readinessIndex
      && StaleIndexAfter(s, e, now) == s.staleIndex
      && GlobalChangesAfter(s, e, now) == s.globalChanges
  {
    hide Kept, Refreshed, Moving, HasOldEvidence, Sorted, NewChanges, StatesOf, ReadinessesOf;
    FlagKept(s, policy, now);
    assert DevicesAfter(s, InstallPolicy(policy), now) == FlaggedAll(s.devices);
    assert Reindexed(s, InstallPolicy(policy), now) == {};
    MovingNone(s.stateIndex, StatesOf(FlaggedAll(s.devices)));
    MovingNone(s.readinessIndex, ReadinessesOf(FlaggedAll(s.devices)));
    NothingGained(Sorted(s.devices.Keys), s.devices, FlaggedAll(s.devices));
  }

  /** A new policy replaces the old one, counts, and marks every device; nothing else. */
  lemma PolicyShape(s: Store, policy: HealthPolicy, now: Timestamp)
    ensures Step(s, InstallPolicy(policy), now) ==
      s.(policy := policy, policyGeneration := s.policyGeneration + 1, devices := FlaggedAll(s.devices))
  {
    hide FlaggedAll, DevicesAfter, StateIndexAfter, ReadinessIndexAfter, StaleIndexAfter, GlobalChangesAfter;
    FlagStep(s, policy, now);
  }

  // ---- The rest of the store ----

  /** The store with one device replaced and the entries it gained logged. */
  function LandedIn(s: Store, x: Id, d: Device): Store
    requires x in s.devices
  {
    s.(devices := s.devices[x := d], globalChanges := s.globalChanges + Gained(s.devices[x], d))
  }

  /** The store with one device reassessed. */
  function ReassessedIn(s: Store, x: Id, now: Timestamp): Store
    requires x in s.devices
  {
    var c := ContextOf(s, now);
    var after := Reassessed(s.devices[x], c);
    LandedIn(s, x, after).(
      stateIndex := MovedTo(s.stateIndex, x, after.health.state),
      readinessIndex := MovedTo(s.readinessIndex, x, after.judgement.readiness),
      staleIndex := StaleAround(s.staleIndex, x, after, c))
  }

  /** A step that changes and reassesses one device does the one and then the other. */
  lemma StepJudges(s: Store, e: Event, now: Timestamp, x: Id, landed: Device)
    requires KeysAgree(s.devices) && Subject(e) == Some(x) && x in s.devices
    requires Touched(s, s.devices[x], e, now) == Judged(landed)
    ensures x in Framed(s, e).devices
    ensures Step(s, e, now) == ReassessedIn(LandedIn(Framed(s, e), x, landed), x, now)
  {
    hide Framed, Touched, Reassessed, Gained, MovedTo, StaleAround, DevicesAfter, StateIndexAfter,
      ReadinessIndexAfter, StaleIndexAfter, GlobalChangesAfter, Continues;
    var d, after := s.devices[x], Reassessed(landed, ContextOf(s, now));
    FramedKeeps(s, e);
    FramedContext(s, e, now);
    JudgedStep(s, e, now, x, landed, after);
    LandedContinues(s, d, e, now);
    LandedIs(s, d, e, now);
    ReassessedContinues(landed, ContextOf(s, now));
    ContinuesGains(d, landed, after);
  }

  lemma LandedIs(s: Store, d: Device, e: Event, now: Timestamp)
    requires Touched(s, d, e, now).Judged?
    ensures Landed(s, d, e, now) == Touched(s, d, e, now).d
  {
    hide Touched;
  }

  lemma ContinuesGains(a: Device, b: Device, c: Device)
    requires Continues(a, b) && Continues(b, c)
    ensures Gained(a, b) + Gained(b, c) == Gained(a, c)
  {
    GainsChain(a, b, c);
  }

  lemma FramedContext(s: Store, e: Event, now: Timestamp)
    requires Subject(e).Some?
    ensures ContextOf(Framed(s, e), now) == ContextOf(s, now)
  {
    hide FaultIndexAfter, QuarantineIndexAfter, GlobalFaultsAfter, Judge;
  }

  /** A step that changes one device and does not reassess it. */
  lemma StepQuiet(s: Store, e: Event, now: Timestamp, x: Id, after: Device)
    requires KeysAgree(s.devices) && Subject(e) == Some(x) && x in s.devices
    requires Touched(s, s.devices[x], e, now) == Quiet(after)
    ensures x in Framed(s, e).devices
    ensures Step(s, e, now) == LandedIn(Framed(s, e), x, after)
  {
    hide Framed, Touched, Gained, DevicesAfter, StateIndexAfter, ReadinessIndexAfter, StaleIndexAfter,
      GlobalChangesAfter;
    QuietStep(s, e, now, x, after);
    FramedKeeps(s, e);
  }

  /** A step that touches no device. */
  lemma StepIdle(s: Store, e: Event, now: Timestamp)
    requires NobodyTouched(s, e, now) && !e.Restart? && !Registers(s, e)
    ensures Step(s, e, now) == Framed(s, e)
  {
    hide Framed, NobodyTouched, DevicesAfter, StateIndexAfter, ReadinessIndexAfter, StaleIndexAfter,
      GlobalChangesAfter;
    IdleStep(s, e, now);
    FramedKeeps(s, e);
  }

  lemma FramedKeeps(s: Store, e: Event)
    ensures var t := Framed(s, e);
      && t.devices == s.devices && t.stateIndex == s.stateIndex && t.readinessIndex == s.readinessIndex
      && t.staleIndex == s.staleIndex && t.globalChanges == s.globalChanges
  {
    hide FaultIndexAfter, QuarantineIndexAfter, GlobalFaultsAfter, Judge;
  }
}
