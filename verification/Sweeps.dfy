/** Steps that visit every device in key order: the store part way through such a sweep, how
    one more device moves it on, and where it ends. */
module Sweeps {
  import opened Enums
  import opened Records
  import opened Devices
  import opened StoreMachine
  import opened StepShapes

  /** The devices when those in `done` have been through the event and the others have not. */
  function SweptDevices(s: Store, e: Event, now: Timestamp, done: seq<Id>): map<Id, Device> {
    map x | x in s.devices :: if x in done then DeviceAfter(s, s.devices[x], e, now) else s.devices[x]
  }

  function SweptRefreshed(s: Store, e: Event, now: Timestamp, done: seq<Id>): set<Id> {
    set x | x in s.devices && x in done && IsReassessed(s, s.devices[x], e, now)
  }

  function SweptStates(s: Store, e: Event, now: Timestamp, done: seq<Id>): set<(HealthState, Id)> {
    Moving(s.stateIndex, SweptRefreshed(s, e, now, done), StatesOf(SweptDevices(s, e, now, done)))
  }

  function SweptReadiness(s: Store, e: Event, now: Timestamp, done: seq<Id>): set<(ReadinessState, Id)> {
    Moving(s.readinessIndex, SweptRefreshed(s, e, now, done), ReadinessesOf(SweptDevices(s, e, now, done)))
  }

  function SweptStale(s: Store, e: Event, now: Timestamp, done: seq<Id>): set<Id> {
    var after := SweptDevices(s, e, now, done);
    var seen := SweptRefreshed(s, e, now, done);
    (s.staleIndex - seen) + (set x | x in seen && HasOldEvidence(after[x], ContextOf(s, now)))
  }

  function SweptChanges(s: Store, e: Event, now: Timestamp, done: seq<Id>): seq<HealthChange>
    requires forall x :: x in done ==> x in s.devices
  {
    s.globalChanges + NewChanges(done, s.devices, Kept(s, e, now))
  }

  lemma {:induction false} GainsAppend(ks: seq<Id>, k: Id, before: map<Id, Device>, after: map<Id, Device>)
    requires forall j :: j in ks + [k] ==> j in before && j in after
    ensures forall j :: j in ks ==> j in ks + [k]
    ensures NewChanges(ks + [k], before, after) == NewChanges(ks, before, after) + Gained(before[k], after[k])
  {
    hide Gained;
    if ks == [] {
      assert ks + [k] == [k];
      assert NewChanges([k], before, after) == Gained(before[k], after[k]) + NewChanges([], before, after);
    } else {
      assert (ks + [k])[1..] == ks[1..] + [k];
      GainsAppend(ks[1..], k, before, after);
    }
  }

  lemma ChangesExtend(s: Store, e: Event, now: Timestamp, done: seq<Id>, k: Id)
    requires forall x :: x in done + [k] ==> x in s.devices
    ensures k in s.devices
    ensures forall x :: x in done ==> x in done + [k]
    ensures SweptChanges(s, e, now, done + [k]) ==
      SweptChanges(s, e, now, done) + Gained(s.devices[k], DeviceAfter(s, s.devices[k], e, now))
  {
    hide DeviceAfter, Gained, NewChanges;
    assert k in done + [k];
    GainsAppend(done, k, s.devices, Kept(s, e, now));
  }

  /** Visiting a device that the event leaves alone. */
  lemma SkipExtends(s: Store, e: Event, now: Timestamp, done: seq<Id>, k: Id)
    requires k in s.devices && k !in done
    requires Touched(s, s.devices[k], e, now).Untouched?
    ensures SweptDevices(s, e, now, done + [k]) == SweptDevices(s, e, now, done)
    ensures SweptRefreshed(s, e, now, done + [k]) == SweptRefreshed(s, e, now, done)
  {
    hide DeviceAfter, IsReassessed, Touched;
    UntouchedMeans(s, s.devices[k], e, now);
  }

  /** Visiting a device that the event changes and reassesses. */
  lemma VisitExtends(s: Store, e: Event, now: Timestamp, done: seq<Id>, k: Id, after: Device)
    requires k in s.devices && k !in done
    requires IsReassessed(s, s.devices[k], e, now) && after == DeviceAfter(s, s.devices[k], e, now)
    ensures SweptDevices(s, e, now, done + [k]) == SweptDevices(s, e, now, done)[k := after]
    ensures SweptRefreshed(s, e, now, done + [k]) == SweptRefreshed(s, e, now, done) + {k}
    ensures k !in SweptRefreshed(s, e, now, done)
  {
    hide DeviceAfter, IsReassessed;
  }

  lemma MovingOneMore<B>(index: set<(B, Id)>, moved: set<Id>, x: Id, bucket: map<Id, B>, bucket': map<Id, B>)
    requires moved <= bucket.Keys && x !in moved && bucket.Keys == bucket'.Keys && x in bucket
    requires forall y :: y in moved ==> bucket[y] == bucket'[y]
    ensures Moving(index, moved + {x}, bucket') == MovedTo(Moving(index, moved, bucket), x, bucket'[x])
  {
    var a, b := Moving(index, moved + {x}, bucket'), MovedTo(Moving(index, moved, bucket), x, bucket'[x]);
    forall p ensures p in a <==> p in b {
    }
  }

  lemma VisitIndexes(s: Store, e: Event, now: Timestamp, done: seq<Id>, k: Id, after: Device)
    requires k in s.devices && k !in done
    requires IsReassessed(s, s.devices[k], e, now) && after == DeviceAfter(s, s.devices[k], e, now)
    ensures SweptStates(s, e, now, done + [k]) == MovedTo(SweptStates(s, e, now, done), k, after.health.state)
    ensures SweptReadiness(s, e, now, done + [k]) == MovedTo(SweptReadiness(s, e, now, done), k,
      after.judgement.readiness)
  {
    hide DeviceAfter, IsReassessed, Moving, MovedTo, SweptDevices, SweptRefreshed;
    SweptTracked(s, e, now, done);
    VisitExtends(s, e, now, done, k, after);
    var m, m' := SweptDevices(s, e, now, done), SweptDevices(s, e, now, done + [k]);
    var seen := SweptRefreshed(s, e, now, done);
    MovingOneMore(s.stateIndex, seen, k, StatesOf(m), StatesOf(m'));
    MovingOneMore(s.readinessIndex, seen, k, ReadinessesOf(m), ReadinessesOf(m'));
  }

  lemma SweptTracked(s: Store, e: Event, now: Timestamp, done: seq<Id>)
    ensures SweptDevices(s, e, now, done).Keys == s.devices.Keys
    ensures SweptRefreshed(s, e, now, done) <= s.devices.Keys
  {
    hide DeviceAfter, IsReassessed;
  }

  lemma VisitStale(s: Store, e: Event, now: Timestamp, done: seq<Id>, k: Id, after: Device)
    requires k in s.devices && k !in done
    requires IsReassessed(s, s.devices[k], e, now) && after == DeviceAfter(s, s.devices[k], e, now)
    ensures SweptStale(s, e, now, done + [k]) ==
      StaleAround(SweptStale(s, e, now, done), k, after, ContextOf(s, now))
  {
    hide DeviceAfter, IsReassessed, HasOldEvidence, SweptDevices, SweptRefreshed;
    SweptTracked(s, e, now, done);
    VisitExtends(s, e, now, done, k, after);
  }

  /** Before the first device. */
  lemma SweepStarts(s: Store, e: Event, now: Timestamp)
    ensures SweptDevices(s, e, now, []) == s.devices
    ensures SweptStates(s, e, now, []) == s.stateIndex
    ensures SweptReadiness(s, e, now, []) == s.readinessIndex
    ensures SweptStale(s, e, now, []) == s.staleIndex
    ensures SweptChanges(s, e, now, []) == s.globalChanges
  {
    hide DeviceAfter, IsReassessed, HasOldEvidence, Moving, StatesOf, ReadinessesOf;
    assert SweptDevices(s, e, now, []) == s.devices;
    assert SweptRefreshed(s, e, now, []) == {};
    MovingNone(s.stateIndex, StatesOf(s.devices));
    MovingNone(s.readinessIndex, ReadinessesOf(s.devices));
  }

  lemma SweptAll(s: Store, e: Event, now: Timestamp, ks: seq<Id>)
    requires forall x :: x in s.devices ==> x in ks
    ensures SweptDevices(s, e, now, ks) == Kept(s, e, now)
    ensures SweptRefreshed(s, e, now, ks) == Refreshed(s, e, now)
  {
    hide DeviceAfter, IsReassessed;
  }

  lemma SweptAllStale(s: Store, e: Event, now: Timestamp, ks: seq<Id>)
    requires forall x :: x in s.devices ==> x in ks
    requires !e.Restart? && !e.RegisterDevice?
    ensures SweptStale(s, e, now, ks) == StaleIndexAfter(s, e, now)
  {
    hide Kept, Refreshed, SweptDevices, SweptRefreshed, HasOldEvidence;
    SweptAll(s, e, now, ks);
    assert DevicesAfter(s, e, now) == Kept(s, e, now);
  }

  lemma SweptAllBuckets(s: Store, e: Event, now: Timestamp, ks: seq<Id>)
    requires forall x :: x in s.devices ==> x in ks
    requires !e.Restart? && !e.RegisterDevice?
    ensures SweptStates(s, e, now, ks) == StateIndexAfter(s, e, now)
    ensures SweptReadiness(s, e, now, ks) == ReadinessIndexAfter(s, e, now)
  {
    hide Kept, Refreshed, SweptDevices, SweptRefreshed, Moving, StatesOf, ReadinessesOf;
    SweptAll(s, e, now, ks);
    assert DevicesAfter(s, e, now) == Kept(s, e, now);
    assert Reindexed(s, e, now) == Refreshed(s, e, now);
  }

  /** After the last one the sweep has taken the step. */
  lemma SweepEnds(s: Store, e: Event, now: Timestamp, ks: seq<Id>)
    requires ks == Sorted(s.devices.Keys) && !e.Restart? && !e.RegisterDevice?
    ensures SweptDevices(s, e, now, ks) == DevicesAfter(s, e, now)
    ensures SweptStates(s, e, now, ks) == StateIndexAfter(s, e, now)
    ensures SweptReadiness(s, e, now, ks) == ReadinessIndexAfter(s, e, now)
    ensures SweptStale(s, e, now, ks) == StaleIndexAfter(s, e, now)
    ensures SweptChanges(s, e, now, ks) == GlobalChangesAfter(s, e, now)
  {
    hide Kept, SweptDevices, SweptStates, SweptReadiness, SweptStale, StateIndexAfter, ReadinessIndexAfter,
      StaleIndexAfter, Sorted, NewChanges;
    SweptAll(s, e, now, ks);
    SweptAllBuckets(s, e, now, ks);
    SweptAllStale(s, e, now, ks);
  }

  // ---- The sweep as a run of single reassessments ----

  /** The store part way through the sweep. */
  function SweptIn(s: Store, e: Event, now: Timestamp, done: seq<Id>): Store
    requires forall x :: x in done ==> x in s.devices
  {
    hide DeviceAfter, IsReassessed;
    s.(devices := SweptDevices(s, e, now, done), stateIndex := SweptStates(s, e, now, done),
       readinessIndex := SweptReadiness(s, e, now, done), staleIndex := SweptStale(s, e, now, done),
       globalChanges := SweptChanges(s, e, now, done))
  }

  /** The store with one device overwritten. */
  function Rewritten(s: Store, x: Id, d: Device): (t: Store)
    ensures x in t.devices
  {
    s.(devices := s.devices[x := d])
  }

  lemma SweepOpens(s: Store, e: Event, now: Timestamp)
    ensures SweptIn(s, e, now, []) == s
  {
    hide SweptDevices, SweptStates, SweptReadiness, SweptStale, SweptChanges;
    SweepStarts(s, e, now);
  }

  /** Landing the next device and reassessing it moves the sweep on by one. */
  lemma SweepVisits(s: Store, e: Event, now: Timestamp, done: seq<Id>, k: Id, landed: Device)
    requires (forall x :: x in done ==> x in s.devices) && k in s.devices && k !in done
    requires Touched(s, s.devices[k], e, now) == Judged(landed) && landed.health == s.devices[k].health
    ensures forall x :: x in done + [k] ==> x in s.devices
    ensures ReassessedIn(Rewritten(SweptIn(s, e, now, done), k, landed), k, now) == SweptIn(s, e, now, done + [k])
  {
    hide SweptDevices, SweptStates, SweptReadiness, SweptStale, SweptChanges, MovedTo, StaleAround, Reassessed, Touched;
    var after := Reassessed(landed, ContextOf(s, now));
    assert DeviceAfter(s, s.devices[k], e, now) == after;
    VisitExtends(s, e, now, done, k, after);
    VisitIndexes(s, e, now, done, k, after);
    VisitStale(s, e, now, done, k, after);
    ChangesExtend(s, e, now, done, k);
    var t := SweptIn(s, e, now, done);
    var u := Rewritten(t, k, landed);
    assert ContextOf(u, now) == ContextOf(s, now);
    assert u.devices[k := after] == t.devices[k := after];
    assert Gained(landed, after) == Gained(s.devices[k], after);
  }

  /** Passing over a device that the event leaves alone. */
  lemma SweepSkips(s: Store, e: Event, now: Timestamp, done: seq<Id>, k: Id)
    requires (forall x :: x in done ==> x in s.devices) && k in s.devices && k !in done
    requires Touched(s, s.devices[k], e, now).Untouched?
    ensures SweptIn(s, e, now, done + [k]) == SweptIn(s, e, now, done)
  {
    hide SweptDevices, SweptRefreshed, SweptChanges, Touched;
    SkipExtends(s, e, now, done, k);
    ChangesExtend(s, e, now, done, k);
    UntouchedMeans(s, s.devices[k], e, now);
    assert Gained(s.devices[k], s.devices[k]) == [];
  }

  /** At the end only the fields outside the sweep remain to be written. */
  lemma SweepCloses(s: Store, e: Event, now: Timestamp, ks: seq<Id>)
    requires ks == Sorted(s.devices.Keys) && (e.ReassessAll? || e.InvalidateWorker?)
    ensures Step(s, e, now) == SweptIn(s, e, now, ks).(workers := Framed(s, e).workers)
  {
    hide SweptDevices, SweptStates, SweptReadiness, SweptStale, SweptChanges, DevicesAfter, StateIndexAfter,
      ReadinessIndexAfter, StaleIndexAfter, GlobalChangesAfter;
    SweepEnds(s, e, now, ks);
  }
}
