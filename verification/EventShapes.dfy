/** Event by event: what becomes of the device an event is about, and of the fields that no
    reassessment writes. */
module EventShapes {
  import opened Enums
  import opened Records
  import opened StateMachine
  import opened FaultHistory
  import opened Devices
  import opened StoreMachine
  import opened StepShapes
  import opened Sweeps

  /** An event about a device that is not tracked changes nothing. */
  lemma UntrackedShape(s: Store, e: Event, now: Timestamp)
    requires KeysAgree(s.devices) && Subject(e).Some? && Subject(e).value !in s.devices
    ensures Step(s, e, now) == s
  {
    hide Step, Touched, NobodyTouched, KeysAgree;
    IdleSubject(s, e, now);
    StepIdle(s, e, now);
  }

  /** Nor does one that does not apply to its device. */
  lemma InapplicableShape(s: Store, e: Event, now: Timestamp, x: Id)
    requires KeysAgree(s.devices) && Subject(e) == Some(x) && x in s.devices
    requires Touched(s, s.devices[x], e, now).Untouched? && Framed(s, e) == s
    ensures Step(s, e, now) == s
  {
    hide Step, Touched, NobodyTouched, Framed, KeysAgree;
    IdleSubject(s, e, now);
    StepIdle(s, e, now);
  }

  /** Events that only write the registry or the epoch. */
  lemma HeaderShape(s: Store, e: Event, now: Timestamp)
    requires e.RollEpoch? || e.SetEpoch? || e.RegisterWorker?
    ensures Step(s, e, now) == Framed(s, e)
  {
    hide Step, Framed;
    assert NobodyTouched(s, e, now);
    StepIdle(s, e, now);
  }

  lemma ReassessShape(s: Store, d: Device, now: Timestamp)
    ensures Touched(s, d, Reassess(d.id), now) == Judged(d)
    ensures Framed(s, Reassess(d.id)) == s
  {
  }

  lemma LossShape(s: Store, d: Device, reason: string, now: Timestamp)
    ensures Touched(s, d, MarkLost(d.id, reason), now) == Quiet(MarkedLost(d, reason, ContextOf(s, now)))
    ensures Framed(s, MarkLost(d.id, reason)) == s
  {
    hide MarkedLost;
  }

  lemma ObserveShape(s: Store, d: Device, obs: Observation, env: Envelope, now: Timestamp)
    requires obs.accelerator == d.id
    ensures var e, ok := Observe(obs, env), Judge(s, obs, env) == Accepted;
      && Touched(s, d, e, now) == (if ok then Judged(Observed(d, obs, env)) else Untouched)
      && Framed(s, e) == if ok then s.(fence := s.fence[FenceKey(env) := env.observationGeneration]) else s
  {
    hide Judge, Observed;
  }

  lemma FaultShape(s: Store, f: Fault, now: Timestamp)
    requires f.accelerator in s.devices && s.devices[f.accelerator].id == f.accelerator
    ensures var d, e := s.devices[f.accelerator], RecordFault(f);
      && Touched(s, d, e, now) == (if HasId(d.history.faults, f.id) then Untouched else Judged(WithFault(d, f)))
      && Framed(s, e) == if HasId(d.history.faults, f.id) then s
         else s.(faultIndex := s.faultIndex + {(f.kind, f.accelerator)}, globalFaults := s.globalFaults + [f])
  {
    hide HasId;
  }

  lemma ValidationShape(s: Store, d: Device, v: ValidationRecord, now: Timestamp)
    requires d.id == v.accelerator
    ensures Touched(s, d, RecordValidation(v), now) == Judged(WithValidation(d, v))
    ensures Framed(s, RecordValidation(v)) == s
  {
    hide WithValidation;
  }

  lemma QuarantineShape(s: Store, e: Event, now: Timestamp)
    requires e.BeginQuarantine? && e.id in s.devices && s.devices[e.id].id == e.id
    ensures var d, c := s.devices[e.id], ContextOf(s, now);
      var q := WithQuarantine(d, s.nextQuarantine, e.authority, e.reason, e.triggeredBy, c);
      && Touched(s, d, e, now) == (if QuarantineActive(d) then Untouched
         else if CanQuarantine(d) then Judged(MovedToQuarantine(q, e.reason, c)) else Quiet(q))
      && Framed(s, e) == if QuarantineActive(d) then s
         else s.(nextQuarantine := Successor(s.nextQuarantine), quarantineIndex := s.quarantineIndex + {e.id})
  {
    hide MovedToQuarantine, CanTransition;
  }

  lemma ClearShape(s: Store, x: Id, now: Timestamp)
    requires x in s.devices && s.devices[x].id == x
    ensures var d, e := s.devices[x], ClearQuarantine(x);
      && Touched(s, d, e, now) == Judged(QuarantineCleared(d))
      && Framed(s, e) == if d.care.quarantine.Some? then s.(quarantineIndex := s.quarantineIndex - {x}) else s
  {
    hide QuarantineCleared;
  }

  lemma RecoveryShape(s: Store, x: Id, now: Timestamp)
    requires x in s.devices && s.devices[x].id == x
    ensures var d, e := s.devices[x], BeginRecovery(x);
      var begins := !d.care.inRecovery && CanTransition(d.health.state, Recovering);
      && Touched(s, d, e, now) ==
         (if begins then Judged(RecoveryBegun(d, s.nextRecovery, ContextOf(s, now))) else Untouched)
      && Framed(s, e) == if begins then s.(nextRecovery := Successor(s.nextRecovery)) else s
  {
    hide CanTransition, RecoveryBegun;
  }

  lemma RevalidateShape(s: Store, d: Device, v: ValidationRecord, now: Timestamp)
    ensures Touched(s, d, Revalidate(d.id, v), now) == Judged(Revalidated(d, v, ContextOf(s, now)))
    ensures Framed(s, Revalidate(d.id, v)) == s
  {
    hide Revalidated;
  }

  lemma SweepShape(s: Store, e: Event, d: Device, now: Timestamp)
    requires e.ReassessAll? || e.InvalidateWorker?
    ensures e.ReassessAll? ==> Touched(s, d, e, now) == Judged(d)
    ensures e.InvalidateWorker? && IsWorkerCurrent(s, e.worker, e.boot) && LastSeenBy(d, e.worker, e.boot) ==>
      Touched(s, d, e, now) == Judged(EvidenceStripped(d))
    ensures e.InvalidateWorker? && !(IsWorkerCurrent(s, e.worker, e.boot) && LastSeenBy(d, e.worker, e.boot)) ==>
      Touched(s, d, e, now).Untouched?
  {
    hide EvidenceStripped;
  }

  /** Invalidating a boot that is not current changes nothing; otherwise it ends a sweep. */
  lemma InvalidateShape(s: Store, worker: Id, boot: Id, now: Timestamp)
    ensures var e := InvalidateWorker(worker, boot);
      && (!IsWorkerCurrent(s, worker, boot) ==> Step(s, e, now) == s)
      && (IsWorkerCurrent(s, worker, boot) ==>
            Step(s, e, now) == SweptIn(s, e, now, Sorted(s.devices.Keys)).(workers := s.workers - {worker}))
  {
    hide Step, SweptIn, Sorted, Touched, DeviceAfter;
    var e := InvalidateWorker(worker, boot);
    if IsWorkerCurrent(s, worker, boot) {
      SweepCloses(s, e, now, Sorted(s.devices.Keys));
    } else {
      forall x | x in s.devices ensures Touched(s, s.devices[x], e, now).Untouched? {
        SweepShape(s, e, s.devices[x], now);
      }
      assert NobodyTouched(s, e, now);
      StepIdle(s, e, now);
    }
  }

  lemma ReassessAllShape(s: Store, now: Timestamp)
    ensures Step(s, ReassessAll, now) == SweptIn(s, ReassessAll, now, Sorted(s.devices.Keys))
  {
    hide Step, Sorted, SweptDevices, SweptStates, SweptReadiness, SweptStale, SweptChanges;
    SweepCloses(s, ReassessAll, now, Sorted(s.devices.Keys));
  }

  /** A device the sweep has not reached is as it was. */
  lemma SweptHas(s: Store, e: Event, now: Timestamp, done: seq<Id>, k: Id)
    requires (forall x :: x in done ==> x in s.devices) && k in s.devices && k !in done
    ensures k in SweptIn(s, e, now, done).devices && SweptIn(s, e, now, done).devices[k] == s.devices[k]
    ensures Rewritten(SweptIn(s, e, now, done), k, s.devices[k]) == SweptIn(s, e, now, done)
  {
    hide DeviceAfter, SweptStates, SweptReadiness, SweptStale, SweptChanges;
    var t := SweptIn(s, e, now, done);
    assert t.devices[k := s.devices[k]] == t.devices;
  }

  /** Registering a new uuid writes the tables, the counter and the two bucket indexes. */
  lemma RegisterShape(s: Store, uuid: Id, node: Id, now: Timestamp, x: Id)
    requires uuid !in s.uuidIndex && x == NewId(s, uuid)
    ensures Step(s, RegisterDevice(uuid, node), now) == s.(
      nextDevice := if uuid == 0 then Successor(s.nextDevice) else s.nextDevice,
      devices := s.devices[x := FreshDevice(x, uuid, node, now)],
      uuidIndex := s.uuidIndex[uuid := x],
      stateIndex := MovedTo(s.stateIndex, x, Initializing),
      readinessIndex := MovedTo(s.readinessIndex, x, ReadinessUnknown))
  {
    hide DevicesAfter, StateIndexAfter, ReadinessIndexAfter, StaleIndexAfter, GlobalChangesAfter, MovedTo, FreshDevice;
    RegisterStep(s, uuid, node, now, x);
  }

  /** Registering a known uuid changes nothing. */
  lemma KnownShape(s: Store, uuid: Id, node: Id, now: Timestamp)
    requires uuid in s.uuidIndex
    ensures Step(s, RegisterDevice(uuid, node), now) == s
  {
    hide Step;
    assert NobodyTouched(s, RegisterDevice(uuid, node), now);
    StepIdle(s, RegisterDevice(uuid, node), now);
  }

  /** A device that moved gained one entry, whatever else was rewritten. */
  lemma GainedMoved(d: Device, q: Device, e: Device, to: HealthState, tag: string, detail: string, c: Context)
    requires CanTransition(q.health.state, to) && q.health == d.health
    requires e.health == Moved(q, to, tag, detail, c).health
    ensures Gained(d, e) == [ChangeEntry(q, to, tag, detail, c)]
  {
  }
}
