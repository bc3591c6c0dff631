/** The running store: fields updated in place, one method per public operation, each of
    which takes exactly one step of the store machine. */
module Runtime {
  import opened Enums
  import opened Records
  import opened StateMachine
  import opened Readiness
  import opened FaultHistory
  import opened Assessment
  import opened Devices
  import opened StoreMachine
  import opened ChangeLogs
  import opened Runs
  import opened StepShapes
  import opened EventShapes
  import opened Sweeps
  import opened Buckets
  import opened Accounting
  import opened Snapshots

  /** The exceptions operations throw. */
  datatype Failure = NoSuchDevice | DuplicateFault | AlreadyQuarantined | IllegalTransition

  datatype Outcome = Done | Thrown(failure: Failure)

  class HealthStore {
    var policy: HealthPolicy
    var policyGeneration: Counter
    var coordinatorEpoch: U64
    var nextDevice: U64
    var nextQuarantine: U64
    var nextRecovery: U64
    var workers: map<Id, Id>
    var fence: map<(Id, Id), Generation>
    var devices: map<Id, Device>
    var uuidIndex: map<Id, Id>
    var stateIndex: map<HealthState, set<Id>>
    var readinessIndex: map<ReadinessState, set<Id>>
    var faultIndex: map<FaultType, set<Id>>
    var quarantineIndex: set<Id>
    var staleIndex: set<Id>
    var globalFaults: seq<Fault>
    var globalChanges: seq<HealthChange>
    const floats: FloatTable

    /** Where this store came from, and the steps it has taken since. */
    ghost var origin: Store
    ghost var trace: Trace

    ghost predicate Consistent()
      reads this
    {
      KeysAgree(devices) && Exclusive(stateIndex) && Exclusive(readinessIndex)
    }

    /** Between operations the contents are those of the run the store has made. */
    ghost predicate Valid()
      reads this
    {
      Consistent() && View() == Run(origin, trace)
    }

    /** The store contents, an index being the relation its buckets denote. */
    ghost function View(): Store
      reads this
    {
      Store(policy, policyGeneration, coordinatorEpoch, nextDevice, nextQuarantine, nextRecovery, workers, fence,
            devices, uuidIndex, Relation(stateIndex), Relation(readinessIndex), Relation(faultIndex),
            quarantineIndex, staleIndex, globalFaults, globalChanges, floats)
    }

    function Now(now: Timestamp): Context
      reads this
    {
      Context(policy, policyGeneration, now, floats)
    }

    constructor (policy: HealthPolicy, epoch: U64, floats: FloatTable)
      ensures Valid() && trace == []
      ensures View() == origin == Initial(policy, epoch, floats)
    {
      origin, trace := Initial(policy, epoch, floats), [];
      this.policy, this.policyGeneration, this.coordinatorEpoch, this.floats := policy, 1, epoch, floats;
      nextDevice, nextQuarantine, nextRecovery := 1, 1, 1;
      workers, fence, devices, uuidIndex := map[], map[], map[], map[];
      stateIndex, readinessIndex, faultIndex := map[], map[], map[];
      quarantineIndex, staleIndex, globalFaults, globalChanges := {}, {}, [], [];
    }

    /** Whatever is proved of every run holds of the running store. */
    lemma Reachable()
      requires Valid() && IsInitial(origin) && Admissible(origin, trace)
      ensures Invariant(View())
    {
      ReachableInvariant(origin, trace);
    }

    /** An operation begins: its step is the next of the run, once it is taken. */
    ghost method Begin(e: Event, now: Timestamp)
      requires Valid()
      modifies `trace
      ensures Consistent() && View() == old(View())
      ensures trace == old(trace) + [Timed(e, now)]
      ensures Run(origin, trace) == Step(View(), e, now)
    {
      hide Run, Step, Relation, KeysAgree, Exclusive;
      RunSnoc(origin, trace, Timed(e, now));
      trace := trace + [Timed(e, now)];
    }

    // ---- Transitions and reassessment ----

    method ApplyTransition(x: Id, to: HealthState, tag: string, detail: string, now: Timestamp) returns (ok: bool)
      requires Consistent() && x in devices
      modifies `devices, `globalChanges
      ensures Consistent()
      ensures ok <==> old(devices[x]).health.state == to || CanTransition(old(devices[x]).health.state, to)
      ensures CanTransition(old(devices[x]).health.state, to) ==>
        && devices == old(devices)[x := Moved(old(devices[x]), to, tag, detail, Now(now))]
        && globalChanges == old(globalChanges) + [ChangeEntry(old(devices[x]), to, tag, detail, Now(now))]
      ensures !CanTransition(old(devices[x]).health.state, to) ==>
        devices == old(devices) && globalChanges == old(globalChanges)
    {
      var d := devices[x];
      TableShape(to);
      if d.health.state == to {
        return true;
      }
      if !CanTransition(d.health.state, to) {
        return false;
      }
      var entry := ChangeEntry(d, to, tag, detail, Now(now));
      d := d.(health := d.health.(state := to));
      d := d.(health := d.health.(transitions := d.health.transitions + 1));
      d := d.(health := d.health.(generation := d.health.generation + 1));
      d := d.(health := d.health.(changes := d.health.changes + [entry]));
      devices := devices[x := d];
      globalChanges := globalChanges + [entry];
      return true;
    }

    method UpdateIndexes(x: Id)
      requires Consistent() && x in devices
      modifies `stateIndex, `readinessIndex
      ensures Consistent()
      ensures Relation(stateIndex) == MovedTo(old(Relation(stateIndex)), x, devices[x].health.state)
      ensures Relation(readinessIndex) == MovedTo(old(Relation(readinessIndex)), x, devices[x].judgement.readiness)
    {
      stateIndex := Rebucket(stateIndex, x, devices[x].health.state);
      readinessIndex := Rebucket(readinessIndex, x, devices[x].judgement.readiness);
    }

    /** The assessment, the transition it asks for if that is legal, and the readiness. */
    method FollowAssessment(x: Id, now: Timestamp)
      requires Consistent() && x in devices
      modifies `devices, `globalChanges
      ensures Consistent()
      ensures devices == old(devices)[x := Reassessed(old(devices[x]), Now(now))]
      ensures globalChanges == old(globalChanges) + Gained(old(devices[x]), Reassessed(old(devices[x]), Now(now)))
    {
      hide Assess, Target, Evaluate, EvidenceFreshness, StatsOf, CanTransition;
      ghost var c := Now(now);
      var d := devices[x];
      var stats := ComputeStats(d.history.faults);
      var quarantined := d.care.quarantine.Some? && d.care.quarantine.value.active;
      var input := AssessmentInput(
        d.id, d.identity.uuid, d.evidence.generation, d.health.state, quarantined, d.care.inRecovery, now,
        d.evidence.dimensions, stats, d.history.highestValidation, d.evidence.lastObservation, policy,
        d.evidence.deviceGenerationChanged, d.evidence.policyGenerationChanged);
      var desired := RunAssessment(input, floats);
      AssessedTarget(input, floats);
      var target := desired.state;
      var blocked := false;
      if target != d.health.state {
        if CanTransition(d.health.state, target) {
          var _ := ApplyTransition(x, target, "health", HealthName(target), now);
        } else {
          blocked := true;
        }
      }
      var e := devices[x];
      assert e == FollowTarget(d, c);
      var freshness := EvidenceFreshness(policy, e.evidence.lastObservation, now);
      var verdict := Evaluate(ReadinessInput(
        e.health.state, freshness, e.history.highestValidation, policy.requiredValidationDepth, quarantined,
        e.care.inRecovery, e.evidence.deviceGenerationChanged, e.evidence.policyGenerationChanged,
        e.evidence.requiresRevalidation, policy.allowDegradedReadiness, false));
      if blocked {
        verdict := ReadinessResult(RevalidationRequired, false);
      }
      var recorded := desired.(
        state := e.health.state, readiness := verdict.state, executionReady := verdict.executionReady,
        validationDepth := e.history.highestValidation, healthGeneration := e.health.generation,
        policyGeneration := policyGeneration, deviceGeneration := e.evidence.generation,
        quarantined := quarantined, inRecovery := e.care.inRecovery);
      devices := devices[x := e.(judgement := Judgement(verdict.state, recorded))];
    }

    /** The stale index, then the buckets. */
    method Reindex(x: Id, now: Timestamp)
      requires Consistent() && x in devices
      modifies `stateIndex, `readinessIndex, `staleIndex
      ensures Consistent()
      ensures Relation(stateIndex) == MovedTo(old(Relation(stateIndex)), x, devices[x].health.state)
      ensures Relation(readinessIndex) == MovedTo(old(Relation(readinessIndex)), x, devices[x].judgement.readiness)
      ensures staleIndex == StaleAround(old(staleIndex), x, devices[x], Now(now))
    {
      hide MovedTo, Relation, EvidenceFreshness;
      var freshness := EvidenceFreshness(policy, devices[x].evidence.lastObservation, now);
      if freshness == Stale || freshness == Expired {
        staleIndex := staleIndex + {x};
      } else {
        staleIndex := staleIndex - {x};
      }
      UpdateIndexes(x);
    }

    method ReassessLocked(x: Id, now: Timestamp)
      requires Consistent() && x in devices
      modifies `devices, `stateIndex, `readinessIndex, `staleIndex, `globalChanges
      ensures Consistent()
      ensures View() == ReassessedIn(old(View()), x, now)
    {
      hide Reassessed, Gained, MovedTo, Relation, StaleAround, KeysAgree, Exclusive;
      FollowAssessment(x, now);
      Reindex(x, now);
    }

    /** Write a device back. */
    method Put(x: Id, d: Device)
      requires Consistent() && x in devices && d.id == x
      modifies `devices
      ensures Consistent()
      ensures devices == old(devices)[x := d]
    {
      devices := devices[x := d];
    }

    lemma KeyOf(x: Id)
      requires Consistent() && x in devices
      ensures devices[x].id == x
    {
    }

    /** Close an operation with a reassessment: the device has landed, the other fields are
        written, and the step is complete. */
    method Settle(ghost s: Store, ghost e: Event, x: Id, now: Timestamp)
      requires Consistent() && KeysAgree(s.devices) && Subject(e) == Some(x) && x in s.devices && x in devices
      requires Touched(s, s.devices[x], e, now) == Judged(devices[x])
      requires x in Framed(s, e).devices && View() == LandedIn(Framed(s, e), x, devices[x])
      modifies `devices, `stateIndex, `readinessIndex, `staleIndex, `globalChanges
      ensures Consistent() && x in devices
      ensures View() == Step(s, e, now)
    {
      hide Relation, Step, Touched, ReassessedIn, LandedIn, KeysAgree, Exclusive, Framed;
      StepJudges(s, e, now, x, devices[x]);
      StillThere(View(), x, now);
      ReassessLocked(x, now);
    }

    // ---- Evidence, faults and validations ----

    method AcceptObservation(obs: Observation, env: Envelope, now: Timestamp) returns (verdict: Verdict)
      requires Valid()
      modifies `trace, `devices, `fence, `stateIndex, `readinessIndex, `staleIndex, `globalChanges
      ensures Valid()
      ensures verdict == Judge(old(View()), obs, env)
      ensures View() == Step(old(View()), Observe(obs, env), now)
      ensures trace == old(trace) + [Timed(Observe(obs, env), now)]
    {
      hide Step, Run, Relation, KeysAgree, Exclusive;
      Begin(Observe(obs, env), now);
      verdict := ObserveLocked(obs, env, now);
    }

    method ObserveLocked(obs: Observation, env: Envelope, now: Timestamp) returns (verdict: Verdict)
      requires Consistent()
      modifies `devices, `fence, `stateIndex, `readinessIndex, `staleIndex, `globalChanges
      ensures Consistent()
      ensures verdict == Judge(old(View()), obs, env)
      ensures View() == Step(old(View()), Observe(obs, env), now)
    {
      hide Relation, Step, Touched, KeysAgree, Exclusive, Framed, MergeDimensions, Gained, Judge;
      ghost var s, e := View(), Observe(obs, env);
      var x := obs.accelerator;
      if x !in devices {
        UnknownIsRefused(s, obs, env);
        UntrackedShape(s, e, now);
        return UnknownDevice;
      }
      KeyOf(x);
      ObserveShape(s, devices[x], obs, env, now);
      var refusal := Fenced(obs, env);
      if refusal != Accepted {
        InapplicableShape(s, e, now, x);
        return refusal;
      }
      Accept(obs, env, now);
      return Accepted;
    }

    method Accept(obs: Observation, env: Envelope, now: Timestamp)
      requires Consistent() && obs.accelerator in devices && Judge(View(), obs, env) == Accepted
      modifies `devices, `fence, `stateIndex, `readinessIndex, `staleIndex, `globalChanges
      ensures Consistent()
      ensures View() == Step(old(View()), Observe(obs, env), now)
    {
      hide Relation, Step, Touched, KeysAgree, Exclusive, Framed, MergeDimensions, Gained, Judge;
      ghost var s, e := View(), Observe(obs, env);
      var x := obs.accelerator;
      KeyOf(x);
      ObserveShape(s, devices[x], obs, env, now);
      var d := Absorb(devices[x], obs, env);
      NoGain(s.devices[x], d);
      Put(x, d);
      fence := fence[(env.workerId, env.workerBootId) := env.observationGeneration];
      Settle(s, e, x, now);
    }

    /** The checks an observation of a tracked device must pass, in order. */
    method Fenced(obs: Observation, env: Envelope) returns (verdict: Verdict)
      requires obs.accelerator in devices
      ensures verdict == Judge(View(), obs, env)
    {
      if env.coordinatorEpoch != coordinatorEpoch {
        return StaleEpoch;
      }
      if env.workerId !in workers {
        return UnregisteredWorker;
      }
      if workers[env.workerId] != env.workerBootId {
        return StaleBoot;
      }
      var key := (env.workerId, env.workerBootId);
      if key in fence && env.observationGeneration <= fence[key] {
        return StaleObservation;
      }
      if env.deviceGeneration < devices[obs.accelerator].evidence.generation {
        return StaleDeviceGeneration;
      }
      return Accepted;
    }

    method RecordFault(f: Fault, now: Timestamp) returns (outcome: Outcome)
      requires Valid()
      modifies `trace, `devices, `faultIndex, `globalFaults, `stateIndex, `readinessIndex, `staleIndex, `globalChanges
      ensures Valid()
      ensures outcome == if f.accelerator in old(devices) && HasId(old(devices)[f.accelerator].history.faults, f.id)
                         then Thrown(DuplicateFault) else Done
      ensures View() == Step(old(View()), Event.RecordFault(f), now)
      ensures trace == old(trace) + [Timed(Event.RecordFault(f), now)]
    {
      hide Relation, Step, Touched, KeysAgree, Exclusive, Framed, HasId, Run;
      Begin(Event.RecordFault(f), now);
      ghost var s, e := View(), Event.RecordFault(f);
      var x := f.accelerator;
      if x !in devices {
        UntrackedShape(s, e, now);
        return Done;
      }
      KeyOf(x);
      FaultShape(s, f, now);
      var d := devices[x];
      var known := ContainsId(d.history.faults, f.id);
      if known {
        InapplicableShape(s, e, now, x);
        return Thrown(DuplicateFault);
      }
      AppendFault(f, now);
      return Done;
    }

    method AppendFault(f: Fault, now: Timestamp)
      requires Consistent() && f.accelerator in devices
      requires !HasId(devices[f.accelerator].history.faults, f.id)
      modifies `devices, `faultIndex, `globalFaults, `stateIndex, `readinessIndex, `staleIndex, `globalChanges
      ensures Consistent()
      ensures View() == Step(old(View()), Event.RecordFault(f), now)
    {
      hide Relation, Step, Touched, KeysAgree, Exclusive, Framed, HasId, Gained, WithFault;
      ghost var s, e := View(), Event.RecordFault(f);
      var x := f.accelerator;
      KeyOf(x);
      FaultShape(s, f, now);
      FaultLogsNothing(devices[x], f);
      StoreFault(f);
      Settle(s, e, x, now);
    }

    method StoreFault(f: Fault)
      requires Consistent() && f.accelerator in devices
      modifies `devices, `faultIndex, `globalFaults
      ensures Consistent()
      ensures devices == old(devices)[f.accelerator := WithFault(old(devices)[f.accelerator], f)]
      ensures Relation(faultIndex) == old(Relation(faultIndex)) + {(f.kind, f.accelerator)}
      ensures globalFaults == old(globalFaults) + [f]
    {
      hide Relation, Exclusive;
      var d := devices[f.accelerator];
      devices := devices[f.accelerator := d.(history := d.history.(faults := d.history.faults + [f]))];
      faultIndex := Insert(faultIndex, f.kind, f.accelerator);
      globalFaults := globalFaults + [f];
    }

    method RecordValidation(v: ValidationRecord, now: Timestamp)
      requires Valid()
      modifies `trace, `devices, `stateIndex, `readinessIndex, `staleIndex, `globalChanges
      ensures Valid()
      ensures View() == Step(old(View()), Event.RecordValidation(v), now)
      ensures trace == old(trace) + [Timed(Event.RecordValidation(v), now)]
    {
      hide Step, Run, Relation, KeysAgree, Exclusive;
      Begin(Event.RecordValidation(v), now);
      ValidateLocked(v, now);
    }

    method ValidateLocked(v: ValidationRecord, now: Timestamp)
      requires Consistent()
      modifies `devices, `stateIndex, `readinessIndex, `staleIndex, `globalChanges
      ensures Consistent()
      ensures View() == Step(old(View()), Event.RecordValidation(v), now)
    {
      hide Relation, Step, Touched, KeysAgree, Exclusive, Framed;
      ghost var s, e := View(), Event.RecordValidation(v);
      var x := v.accelerator;
      if x !in devices {
        UntrackedShape(s, e, now);
        return;
      }
      KeyOf(x);
      ValidationShape(s, devices[x], v, now);
      var d := AppendValidation(devices[x], v);
      Put(x, d);
      Settle(s, e, x, now);
    }

    // ---- Loss, quarantine and recovery ----

    /** The source has a branch for a state with no transition to LOST; there is none. */
    method MarkLost(x: Id, reason: string, now: Timestamp)
      requires Valid()
      modifies `trace, `devices, `globalChanges
      ensures Valid()
      ensures View() == Step(old(View()), Event.MarkLost(x, reason), now)
      ensures trace == old(trace) + [Timed(Event.MarkLost(x, reason), now)]
    {
      hide Relation, Step, Touched, KeysAgree, Exclusive, Framed, CanTransition, Run;
      Begin(Event.MarkLost(x, reason), now);
      ghost var s, e := View(), Event.MarkLost(x, reason);
      if x !in devices {
        UntrackedShape(s, e, now);
        return;
      }
      Lose(x, reason, now);
    }

    method Lose(x: Id, reason: string, now: Timestamp)
      requires Consistent() && x in devices
      modifies `devices, `globalChanges
      ensures Consistent()
      ensures View() == Step(old(View()), Event.MarkLost(x, reason), now)
    {
      hide Relation, Step, Touched, KeysAgree, Exclusive, Framed, MarkedLost, Gained;
      ghost var s, e := View(), Event.MarkLost(x, reason);
      KeyOf(x);
      LossShape(s, devices[x], reason, now);
      RecordLoss(x, reason, now);
      StepQuiet(s, e, now, x, devices[x]);
    }

    method RecordLoss(x: Id, reason: string, now: Timestamp)
      requires Consistent() && x in devices
      modifies `devices, `globalChanges
      ensures Consistent()
      ensures devices == old(devices)[x := MarkedLost(old(devices)[x], reason, Now(now))]
      ensures globalChanges == old(globalChanges) + Gained(old(devices)[x], devices[x])
    {
      hide CanTransition, ChangeEntry;
      var d := devices[x];
      TableShape(d.health.state);
      var gone := d.(care := d.care.(present := false));
      devices := devices[x := gone];
      if d.health.state != Lost {
        var _ := ApplyTransition(x, Lost, "lost", reason, now);
        GainedMoved(d, gone, devices[x], Lost, "lost", reason, Now(now));
      }
    }

    method BeginQuarantine(x: Id, authority: QuarantineAuthority, reason: string, triggeredBy: string, now: Timestamp)
      returns (outcome: Outcome)
      requires Valid()
      modifies `trace, `devices, `nextQuarantine, `quarantineIndex, `stateIndex, `readinessIndex, `staleIndex,
        `globalChanges
      ensures Valid()
      ensures outcome == if x !in old(devices) then Thrown(NoSuchDevice)
                         else if QuarantineActive(old(devices)[x]) then Thrown(AlreadyQuarantined)
                         else if !CanQuarantine(old(devices)[x]) then Thrown(IllegalTransition) else Done
      ensures View() == Step(old(View()), Event.BeginQuarantine(x, authority, reason, triggeredBy), now)
      ensures trace == old(trace) + [Timed(Event.BeginQuarantine(x, authority, reason, triggeredBy), now)]
    {
      hide Step, Run, Relation, KeysAgree, Exclusive;
      Begin(Event.BeginQuarantine(x, authority, reason, triggeredBy), now);
      outcome := QuarantineLocked(x, authority, reason, triggeredBy, now);
    }

    method QuarantineLocked(x: Id, authority: QuarantineAuthority, reason: string, triggeredBy: string, now: Timestamp)
      returns (outcome: Outcome)
      requires Consistent()
      modifies `devices, `nextQuarantine, `quarantineIndex, `stateIndex, `readinessIndex, `staleIndex, `globalChanges
      ensures Consistent()
      ensures outcome == if x !in old(devices) then Thrown(NoSuchDevice)
                         else if QuarantineActive(old(devices)[x]) then Thrown(AlreadyQuarantined)
                         else if !CanQuarantine(old(devices)[x]) then Thrown(IllegalTransition) else Done
      ensures View() == Step(old(View()), Event.BeginQuarantine(x, authority, reason, triggeredBy), now)
    {
      hide Relation, Step, Touched, KeysAgree, Exclusive, Framed, CanTransition, WithQuarantine, MovedToQuarantine,
        Gained;
      ghost var s, e := View(), Event.BeginQuarantine(x, authority, reason, triggeredBy);
      if x !in devices {
        UntrackedShape(s, e, now);
        return Thrown(NoSuchDevice);
      }
      KeyOf(x);
      QuarantineShape(s, e, now);
      var d := devices[x];
      if d.care.quarantine.Some? && d.care.quarantine.value.active {
        InapplicableShape(s, e, now, x);
        return Thrown(AlreadyQuarantined);
      }
      if d.health.state != Quarantined && !CanTransition(d.health.state, Quarantined) {
        StrandRecord(x, authority, reason, triggeredBy, now);
        return Thrown(IllegalTransition);
      }
      EnterQuarantine(x, authority, reason, triggeredBy, now);
      return Done;
    }

    /** The transition throws behind the record. */
    method StrandRecord(x: Id, authority: QuarantineAuthority, reason: string, triggeredBy: string, now: Timestamp)
      requires Consistent() && x in devices && !QuarantineActive(devices[x]) && !CanQuarantine(devices[x])
      modifies `devices, `nextQuarantine, `quarantineIndex
      ensures Consistent()
      ensures View() == Step(old(View()), Event.BeginQuarantine(x, authority, reason, triggeredBy), now)
    {
      hide Relation, Step, Touched, KeysAgree, Exclusive, Framed, CanTransition, WithQuarantine, MovedToQuarantine,
        Gained;
      ghost var s, e := View(), Event.BeginQuarantine(x, authority, reason, triggeredBy);
      KeyOf(x);
      QuarantineShape(s, e, now);
      GainsOfRecord(devices[x], nextQuarantine, authority, reason, triggeredBy, Now(now));
      PlaceRecord(x, authority, reason, triggeredBy, now);
      StepQuiet(s, e, now, x, devices[x]);
    }

    /** The record is set before the transition is tried, and stays when that fails. */
    method PlaceRecord(x: Id, authority: QuarantineAuthority, reason: string, triggeredBy: string, now: Timestamp)
      requires Consistent() && x in devices
      modifies `devices, `nextQuarantine, `quarantineIndex
      ensures Consistent()
      ensures devices == old(devices)[
        x := WithQuarantine(old(devices)[x], old(nextQuarantine), authority, reason, triggeredBy, Now(now))]
      ensures nextQuarantine == Successor(old(nextQuarantine)) && quarantineIndex == old(quarantineIndex) + {x}
    {
      var d := devices[x];
      var record := QuarantineRecord(nextQuarantine, now, authority, reason, triggeredBy, policyGeneration,
                                     d.evidence.generation, d.health.generation, true);
      nextQuarantine := Successor(nextQuarantine);
      devices := devices[x := d.(care := d.care.(quarantine := Some(record)))];
      quarantineIndex := quarantineIndex + {x};
    }

    method EnterQuarantine(x: Id, authority: QuarantineAuthority, reason: string, triggeredBy: string, now: Timestamp)
      requires Consistent() && x in devices && !QuarantineActive(devices[x]) && CanQuarantine(devices[x])
      modifies `devices, `nextQuarantine, `quarantineIndex, `stateIndex, `readinessIndex, `staleIndex, `globalChanges
      ensures Consistent()
      ensures View() == Step(old(View()), Event.BeginQuarantine(x, authority, reason, triggeredBy), now)
    {
      hide Relation, Step, Touched, KeysAgree, Exclusive, Framed, CanTransition, WithQuarantine, MovedToQuarantine,
        Gained;
      ghost var s, e := View(), Event.BeginQuarantine(x, authority, reason, triggeredBy);
      KeyOf(x);
      QuarantineShape(s, e, now);
      GainsOfQuarantine(s.devices[x], s.nextQuarantine, authority, reason, triggeredBy, Now(now));
      PlaceRecord(x, authority, reason, triggeredBy, now);
      MoveToQuarantine(x, reason, now);
      Settle(s, e, x, now);
    }

    method MoveToQuarantine(x: Id, reason: string, now: Timestamp)
      requires Consistent() && x in devices && CanQuarantine(devices[x])
      modifies `devices, `globalChanges
      ensures Consistent()
      ensures devices == old(devices)[x := MovedToQuarantine(old(devices)[x], reason, Now(now))]
      ensures globalChanges == old(globalChanges) + Gained(old(devices)[x], devices[x])
    {
      hide CanTransition, ChangeEntry;
      if devices[x].health.state != Quarantined {
        ghost var d := devices[x];
        var _ := ApplyTransition(x, Quarantined, "quarantine", reason, now);
        GainedMoved(d, d, devices[x], Quarantined, "quarantine", reason, Now(now));
      }
    }

    method ClearQuarantine(x: Id, now: Timestamp)
      requires Valid()
      modifies `trace, `devices, `quarantineIndex, `stateIndex, `readinessIndex, `staleIndex, `globalChanges
      ensures Valid()
      ensures View() == Step(old(View()), Event.ClearQuarantine(x), now)
      ensures trace == old(trace) + [Timed(Event.ClearQuarantine(x), now)]
    {
      hide Step, Run, Relation, KeysAgree, Exclusive;
      Begin(Event.ClearQuarantine(x), now);
      ClearLocked(x, now);
    }

    method ClearLocked(x: Id, now: Timestamp)
      requires Consistent()
      modifies `devices, `quarantineIndex, `stateIndex, `readinessIndex, `staleIndex, `globalChanges
      ensures Consistent()
      ensures View() == Step(old(View()), Event.ClearQuarantine(x), now)
    {
      hide Relation, Step, Touched, KeysAgree, Exclusive, Framed, Gained, QuarantineCleared;
      ghost var s, e := View(), Event.ClearQuarantine(x);
      if x !in devices {
        UntrackedShape(s, e, now);
        return;
      }
      KeyOf(x);
      ClearShape(s, x, now);
      ClearingLogsNothing(devices[x]);
      Deactivate(x);
      Settle(s, e, x, now);
    }

    method Deactivate(x: Id)
      requires Consistent() && x in devices
      modifies `devices, `quarantineIndex
      ensures Consistent()
      ensures devices == old(devices)[x := QuarantineCleared(old(devices)[x])]
      ensures quarantineIndex ==
        if old(devices)[x].care.quarantine.Some? then old(quarantineIndex) - {x} else old(quarantineIndex)
    {
      hide Exclusive;
      var d := devices[x];
      if d.care.quarantine.Some? {
        d := d.(care := d.care.(quarantine := Some(d.care.quarantine.value.(active := false))));
        quarantineIndex := quarantineIndex - {x};
      }
      devices := devices[x := d];
    }

    method BeginRecovery(x: Id, now: Timestamp) returns (outcome: Outcome)
      requires Valid()
      modifies `trace, `devices, `nextRecovery, `stateIndex, `readinessIndex, `staleIndex, `globalChanges
      ensures Valid()
      ensures outcome == if x !in old(devices) then Thrown(NoSuchDevice)
                         else if old(devices)[x].care.inRecovery then Done
                         else if !CanTransition(old(devices)[x].health.state, Recovering) then Thrown(IllegalTransition)
                         else Done
      ensures View() == Step(old(View()), Event.BeginRecovery(x), now)
      ensures trace == old(trace) + [Timed(Event.BeginRecovery(x), now)]
    {
      hide Relation, Step, Touched, KeysAgree, Exclusive, Framed, CanTransition, Run;
      Begin(Event.BeginRecovery(x), now);
      ghost var s, e := View(), Event.BeginRecovery(x);
      if x !in devices {
        UntrackedShape(s, e, now);
        return Thrown(NoSuchDevice);
      }
      KeyOf(x);
      RecoveryShape(s, x, now);
      var d := devices[x];
      if d.care.inRecovery {
        InapplicableShape(s, e, now, x);
        return Done;
      }
      if !CanTransition(d.health.state, Recovering) {
        InapplicableShape(s, e, now, x);
        return Thrown(IllegalTransition);
      }
      EnterRecovery(x, now);
      return Done;
    }

    method EnterRecovery(x: Id, now: Timestamp)
      requires Consistent() && x in devices
      requires !devices[x].care.inRecovery && CanTransition(devices[x].health.state, Recovering)
      modifies `devices, `nextRecovery, `stateIndex, `readinessIndex, `staleIndex, `globalChanges
      ensures Consistent()
      ensures View() == Step(old(View()), Event.BeginRecovery(x), now)
    {
      hide Relation, Step, Touched, KeysAgree, Exclusive, Framed, CanTransition, RecoveryBegun, Gained;
      ghost var s, e := View(), Event.BeginRecovery(x);
      KeyOf(x);
      RecoveryShape(s, x, now);
      StartRecovery(x, now);
      Settle(s, e, x, now);
    }

    method StartRecovery(x: Id, now: Timestamp)
      requires Consistent() && x in devices && CanTransition(devices[x].health.state, Recovering)
      modifies `devices, `nextRecovery, `globalChanges
      ensures Consistent()
      ensures devices == old(devices)[x := RecoveryBegun(old(devices)[x], old(nextRecovery), Now(now))]
      ensures nextRecovery == Successor(old(nextRecovery))
      ensures globalChanges == old(globalChanges) + Gained(old(devices)[x], devices[x])
    {
      hide CanTransition, ChangeEntry;
      var d := devices[x];
      var _ := ApplyTransition(x, Recovering, "recovery", "begin recovery", now);
      var generation := if d.care.recovery.Some? then d.care.recovery.value.generation + 1 else 1;
      var record := RecoveryRecord(nextRecovery, generation, now, ProfileName(policy.revalidationProfile), 0, false, 0);
      nextRecovery := Successor(nextRecovery);
      var begun := devices[x];
      begun := begun.(care := begun.care.(inRecovery := true));
      begun := begun.(care := begun.care.(recovery := Some(record)));
      GainedMoved(d, d, begun, Recovering, "recovery", "begin recovery", Now(now));
      devices := devices[x := begun];
    }

    method Revalidate(x: Id, v: ValidationRecord, now: Timestamp) returns (outcome: Outcome, shown: Option<Snapshot>)
      requires Valid()
      modifies `trace, `devices, `stateIndex, `readinessIndex, `staleIndex, `globalChanges
      ensures Valid()
      ensures outcome == if x in old(devices) then Done else Thrown(NoSuchDevice)
      ensures outcome.Done? ==> x in devices && shown == Some(SnapshotOf(devices[x]))
      ensures View() == Step(old(View()), Event.Revalidate(x, v), now)
      ensures trace == old(trace) + [Timed(Event.Revalidate(x, v), now)]
    {
      hide Step, Run, Relation, KeysAgree, Exclusive, SnapshotOf;
      Begin(Event.Revalidate(x, v), now);
      outcome := RevalidateLocked(x, v, now);
      shown := None;
      if outcome.Done? {
        var taken := TakeSnapshot(devices[x]);
        shown := Some(taken);
      }
    }

    method RevalidateLocked(x: Id, v: ValidationRecord, now: Timestamp) returns (outcome: Outcome)
      requires Consistent()
      modifies `devices, `stateIndex, `readinessIndex, `staleIndex, `globalChanges
      ensures Consistent()
      ensures outcome == if x in old(devices) then Done else Thrown(NoSuchDevice)
      ensures outcome.Done? ==> x in devices
      ensures View() == Step(old(View()), Event.Revalidate(x, v), now)
    {
      hide Relation, Step, Touched, KeysAgree, Exclusive, Framed, Revalidated, Gained;
      ghost var s, e := View(), Event.Revalidate(x, v);
      if x !in devices {
        UntrackedShape(s, e, now);
        return Thrown(NoSuchDevice);
      }
      KeyOf(x);
      RevalidateShape(s, devices[x], v, now);
      RunRevalidation(x, v, now);
      Settle(s, e, x, now);
      return Done;
    }

    /** The record is appended; inside recovery a pass is counted and may end the recovery, and
        a failure moves the device to quarantine. */
    method RunRevalidation(x: Id, v: ValidationRecord, now: Timestamp)
      requires Consistent() && x in devices
      modifies `devices, `globalChanges
      ensures Consistent()
      ensures devices == old(devices)[x := Revalidated(old(devices)[x], v, Now(now))]
      ensures globalChanges == old(globalChanges) + Gained(old(devices)[x], devices[x])
    {
      hide CanTransition, ChangeEntry, ValidationCounted, RecoveryFinished, WithValidation, Gained, Exclusive,
        KeysAgree;
      ghost var c, before := Now(now), devices[x];
      KeyOf(x);
      var d := AppendValidation(devices[x], v);
      ValidationLogsNothing(before, v);
      Put(x, d);
      if !d.care.inRecovery {
        return;
      }
      if v.passed {
        CountPass(x, now);
      } else {
        FailRecovery(x, now);
      }
      GainsFromSameLog(before, d, devices[x]);
    }

    /** A passing validation inside recovery. */
    method CountPass(x: Id, now: Timestamp)
      requires Consistent() && x in devices
      modifies `devices, `globalChanges
      ensures Consistent()
      ensures devices == old(devices)[x := Passed(old(devices)[x], Now(now))]
      ensures globalChanges == old(globalChanges) + Gained(old(devices)[x], devices[x])
    {
      hide CanTransition, ChangeEntry, ValidationCounted, RecoveryFinished, Gained, Exclusive, KeysAgree, Continues;
      ghost var c, before := Now(now), devices[x];
      EnterRevalidation(x, now);
      ghost var counted := devices[x];
      var d := devices[x];
      if d.health.state == Revalidating && d.care.recovery.Some?
         && d.care.recovery.value.successfulValidations >= policy.recoveryValidationsRequired {
        FinishRecovery(x, now);
        CountedContinues(before, c);
        FinishedContinues(counted, c);
        ContinuesGains(before, counted, devices[x]);
      }
    }

    method EnterRevalidation(x: Id, now: Timestamp)
      requires Consistent() && x in devices
      modifies `devices, `globalChanges
      ensures Consistent()
      ensures devices == old(devices)[x := ValidationCounted(old(devices)[x], Now(now))]
      ensures globalChanges == old(globalChanges) + Gained(old(devices)[x], devices[x])
    {
      hide ChangeEntry;
      ghost var c, before := Now(now), devices[x];
      if devices[x].health.state == Recovering {
        var _ := ApplyTransition(x, Revalidating, "revalidate", "enter revalidation", now);
        GainedMoved(before, before, devices[x], Revalidating, "revalidate", "enter revalidation", c);
      }
      var d := devices[x];
      if d.care.recovery.Some? {
        var r := d.care.recovery.value;
        d := d.(care := d.care.(recovery := Some(r.(successfulValidations := r.successfulValidations + 1))));
      }
      devices := devices[x := d];
    }

    method FinishRecovery(x: Id, now: Timestamp)
      requires Consistent() && x in devices && RecoveryComplete(devices[x], Now(now))
      modifies `devices, `globalChanges
      ensures Consistent()
      ensures devices == old(devices)[x := RecoveryFinished(old(devices)[x], Now(now))]
      ensures globalChanges == old(globalChanges) + Gained(old(devices)[x], devices[x])
    {
      hide ChangeEntry;
      ghost var c, before := Now(now), devices[x];
      var _ := ApplyTransition(x, Healthy, "recovery", "revalidated", now);
      GainedMoved(before, before, devices[x], Healthy, "recovery", "revalidated", c);
      var d := devices[x];
      d := d.(care := d.care.(inRecovery := false));
      d := d.(care := d.care.(recovery := Some(d.care.recovery.value.(completed := true, end := now))));
      devices := devices[x := d];
    }

    /** A failed validation inside recovery; the recovery itself stays open. */
    method FailRecovery(x: Id, now: Timestamp)
      requires Consistent() && x in devices
      modifies `devices, `globalChanges
      ensures Consistent()
      ensures devices == old(devices)[x := FailedIn(old(devices)[x], Now(now))]
      ensures globalChanges == old(globalChanges) + Gained(old(devices)[x], devices[x])
    {
      hide ChangeEntry;
      ghost var c, before := Now(now), devices[x];
      if devices[x].health.state == Recovering || devices[x].health.state == Revalidating {
        var _ := ApplyTransition(x, Quarantined, "revalidate-failed", "validation failed during recovery", now);
        GainedMoved(before, before, devices[x], Quarantined, "revalidate-failed",
            "validation failed during recovery", c);
      }
    }

    method Reassess(x: Id, now: Timestamp)
      requires Valid()
      modifies `trace, `devices, `stateIndex, `readinessIndex, `staleIndex, `globalChanges
      ensures Valid()
      ensures View() == Step(old(View()), Event.Reassess(x), now)
      ensures trace == old(trace) + [Timed(Event.Reassess(x), now)]
    {
      hide Relation, Step, Touched, KeysAgree, Exclusive, Framed, Run;
      Begin(Event.Reassess(x), now);
      ghost var s, e := View(), Event.Reassess(x);
      if x !in devices {
        UntrackedShape(s, e, now);
        return;
      }
      KeyOf(x);
      ReassessShape(s, devices[x], now);
      Settle(s, e, x, now);
    }

    // ---- Operations over all devices ----

    /** The locked half of a policy change; the lock is dropped before the reassessment. */
    method InstallPolicy(p: HealthPolicy, ghost now: Timestamp)
      requires Valid()
      modifies `trace, `policy, `policyGeneration, `devices
      ensures Valid()
      ensures View() == Step(old(View()), Event.InstallPolicy(p), now)
      ensures trace == old(trace) + [Timed(Event.InstallPolicy(p), now)]
      ensures policy == p && policyGeneration == old(policyGeneration) + 1
    {
      hide Step, Run, Relation, KeysAgree, Exclusive;
      Begin(Event.InstallPolicy(p), now);
      InstallLocked(p, now);
    }

    method InstallLocked(p: HealthPolicy, ghost now: Timestamp)
      requires Consistent()
      modifies `policy, `policyGeneration, `devices
      ensures Consistent()
      ensures View() == Step(old(View()), Event.InstallPolicy(p), now)
      ensures policy == p && policyGeneration == old(policyGeneration) + 1
    {
      hide Relation, FlaggedAll, PolicyFlagged, Step, Exclusive;
      ghost var s := View();
      PolicyShape(s, p, now);
      policy := p;
      policyGeneration := policyGeneration + 1;
      FlagAll();
    }

    method FlagAll()
      requires Consistent()
      modifies `devices
      ensures Consistent()
      ensures devices == FlaggedAll(old(devices))
    {
      var todo := devices.Keys;
      while todo != {}
        invariant todo <= devices.Keys == old(devices).Keys
        invariant forall x :: x in todo ==> devices[x] == old(devices)[x]
        invariant forall x :: x in devices && x !in todo ==> devices[x] == PolicyFlagged(old(devices)[x])
        decreases |todo|
      {
        var x :| x in todo;
        todo := todo - {x};
        var d := devices[x];
        devices := devices[x := d.(evidence := d.evidence.(policyGenerationChanged := true))];
      }
    }

    method ReassessAll(now: Timestamp)
      requires Valid()
      modifies `trace, `devices, `stateIndex, `readinessIndex, `staleIndex, `globalChanges
      ensures Valid()
      ensures View() == Step(old(View()), Event.ReassessAll, now)
      ensures trace == old(trace) + [Timed(Event.ReassessAll, now)]
    {
      hide Step, Run, Relation, KeysAgree, Exclusive;
      Begin(Event.ReassessAll, now);
      ReassessAllLocked(now);
    }

    method ReassessAllLocked(now: Timestamp)
      requires Consistent()
      modifies `devices, `stateIndex, `readinessIndex, `staleIndex, `globalChanges
      ensures Consistent()
      ensures View() == Step(old(View()), Event.ReassessAll, now)
    {
      hide Relation, Step, Touched, KeysAgree, Exclusive, SweptIn, ReassessedIn, Sorted;
      ghost var s, e := View(), Event.ReassessAll;
      var ks := InOrder(devices.Keys);
      SweepOpens(s, e, now);
      for i := 0 to |ks|
        invariant Consistent()
        invariant forall x :: x in ks[..i] ==> x in s.devices
        invariant View() == SweptIn(s, e, now, ks[..i])
      {
        ghost var k, done := ks[i], ks[..i];
        assert k in ks && k !in done && ks[..i + 1] == done + [k];
        SweepShape(s, e, s.devices[k], now);
        SweptHas(s, e, now, done, k);
        SweepVisits(s, e, now, done, k, s.devices[k]);
        ReassessLocked(ks[i], now);
      }
      assert ks[..|ks|] == ks;
      ReassessAllShape(s, now);
    }

    method InvalidateWorker(worker: Id, boot: Id, now: Timestamp)
      requires Valid()
      modifies `trace, `workers, `devices, `stateIndex, `readinessIndex, `staleIndex, `globalChanges
      ensures Valid()
      ensures View() == Step(old(View()), Event.InvalidateWorker(worker, boot), now)
      ensures trace == old(trace) + [Timed(Event.InvalidateWorker(worker, boot), now)]
    {
      hide Relation, Step, Touched, KeysAgree, Exclusive, SweptIn, Framed, Run;
      Begin(Event.InvalidateWorker(worker, boot), now);
      ghost var s, e := View(), Event.InvalidateWorker(worker, boot);
      InvalidateShape(s, worker, boot, now);
      if worker in workers && workers[worker] == boot {
        StripAll(worker, boot, now);
        workers := workers - {worker};
      }
    }

    method Strip(x: Id, now: Timestamp)
      requires Consistent() && x in devices
      modifies `devices, `stateIndex, `readinessIndex, `staleIndex, `globalChanges
      ensures Consistent()
      ensures View() == ReassessedIn(Rewritten(old(View()), x, EvidenceStripped(old(devices)[x])), x, now)
    {
      hide Relation, KeysAgree, Exclusive, ReassessedIn;
      KeyOf(x);
      var d := devices[x];
      d := d.(evidence := d.evidence.(lastObservation := 0));
      d := d.(evidence := d.evidence.(deviceGenerationChanged := false));
      Put(x, d);
      ReassessLocked(x, now);
    }

    method StripAll(worker: Id, boot: Id, now: Timestamp)
      requires Consistent() && StoreMachine.IsWorkerCurrent(View(), worker, boot)
      modifies `devices, `stateIndex, `readinessIndex, `staleIndex, `globalChanges
      ensures Consistent()
      ensures forall x :: x in Sorted(old(View()).devices.Keys) ==> x in old(View()).devices
      ensures View() ==
        SweptIn(old(View()), Event.InvalidateWorker(worker, boot), now, Sorted(old(View()).devices.Keys))
    {
      hide Relation, Step, Touched, KeysAgree, Exclusive, SweptIn, ReassessedIn, Sorted;
      ghost var s, e := View(), Event.InvalidateWorker(worker, boot);
      var ks := InOrder(devices.Keys);
      SweepOpens(s, e, now);
      for i := 0 to |ks|
        invariant Consistent()
        invariant forall x :: x in ks[..i] ==> x in s.devices
        invariant View() == SweptIn(s, e, now, ks[..i])
      {
        ghost var k, done := ks[i], ks[..i];
        assert k in ks && k !in done && ks[..i + 1] == done + [k];
        SweepShape(s, e, s.devices[k], now);
        SweptHas(s, e, now, done, k);
        var d := devices[ks[i]];
        if d.evidence.lastWorker == worker && d.evidence.lastWorkerBootId == boot {
          SweepVisits(s, e, now, done, k, EvidenceStripped(s.devices[k]));
          Strip(ks[i], now);
        } else {
          SweepSkips(s, e, now, done, k);
        }
      }
      assert ks[..|ks|] == ks;
    }

    method RegisterDevice(uuid: Id, node: Id, now: Timestamp) returns (x: Id)
      requires Valid()
      modifies `trace, `devices, `uuidIndex, `nextDevice, `stateIndex, `readinessIndex
      ensures Valid()
      ensures x == if uuid in old(uuidIndex) then old(uuidIndex)[uuid] else NewId(old(View()), uuid)
      ensures View() == Step(old(View()), Event.RegisterDevice(uuid, node), now)
      ensures trace == old(trace) + [Timed(Event.RegisterDevice(uuid, node), now)]
    {
      hide Step, Run, Relation, KeysAgree, Exclusive;
      Begin(Event.RegisterDevice(uuid, node), now);
      x := RegisterLocked(uuid, node, now);
    }

    method RegisterLocked(uuid: Id, node: Id, now: Timestamp) returns (x: Id)
      requires Consistent()
      modifies `devices, `uuidIndex, `nextDevice, `stateIndex, `readinessIndex
      ensures Consistent()
      ensures x == if uuid in old(uuidIndex) then old(uuidIndex)[uuid] else NewId(old(View()), uuid)
      ensures View() == Step(old(View()), Event.RegisterDevice(uuid, node), now)
    {
      hide Relation, Step, MovedTo, Exclusive, KeysAgree, FreshDevice;
      ghost var s, e := View(), Event.RegisterDevice(uuid, node);
      if uuid in uuidIndex {
        KnownShape(s, uuid, node, now);
        return uuidIndex[uuid];
      }
      x := if uuid != 0 then uuid else nextDevice;
      if uuid == 0 {
        nextDevice := Successor(nextDevice);
      }
      AddDevice(x, uuid, node, now);
      RegisterShape(s, uuid, node, now, x);
    }

    method AddDevice(x: Id, uuid: Id, node: Id, now: Timestamp)
      requires Consistent()
      modifies `devices, `uuidIndex, `stateIndex, `readinessIndex
      ensures Consistent()
      ensures devices == old(devices)[x := FreshDevice(x, uuid, node, now)]
      ensures uuidIndex == old(uuidIndex)[uuid := x]
      ensures Relation(stateIndex) == MovedTo(old(Relation(stateIndex)), x, Initializing)
      ensures Relation(readinessIndex) == MovedTo(old(Relation(readinessIndex)), x, ReadinessUnknown)
    {
      hide Relation, MovedTo, Exclusive;
      devices := devices[x := FreshDevice(x, uuid, node, now)];
      uuidIndex := uuidIndex[uuid := x];
      UpdateIndexes(x);
    }

    /** A policy change: two locked steps, between which other operations may run. */
    method SetPolicy(p: HealthPolicy, ghost installed: Timestamp, now: Timestamp)
      requires Valid()
      modifies `trace, `policy, `policyGeneration, `devices, `stateIndex, `readinessIndex, `staleIndex, `globalChanges
      ensures Valid()
      ensures trace == old(trace) + [Timed(Event.InstallPolicy(p), installed)] + [Timed(Event.ReassessAll, now)]
      ensures View() == Step(Step(old(View()), Event.InstallPolicy(p), installed), Event.ReassessAll, now)
      ensures policy == p && policyGeneration == old(policyGeneration) + 1
    {
      hide Step, Run, Relation, KeysAgree, Exclusive;
      InstallPolicy(p, installed);
      ReassessAll(now);
    }

    method Account(now: Timestamp) returns (a: Tally)
      requires Valid()
      ensures a == TallyOf(View(), now)
    {
      hide TallyAmong, Sorted;
      var ks := InOrder(devices.Keys);
      a := ScanDevices(devices, ks, Now(now));
    }

    // ---- Epoch and worker registry ----

    method RollCoordinatorEpoch(ghost now: Timestamp)
      requires Valid()
      modifies `trace, `coordinatorEpoch
      ensures Valid()
      ensures View() == Step(old(View()), RollEpoch, now)
      ensures trace == old(trace) + [Timed(RollEpoch, now)]
    {
      hide Step, Run;
      Begin(RollEpoch, now);
      HeaderShape(View(), RollEpoch, now);
      coordinatorEpoch := Successor(coordinatorEpoch);
    }

    method SetCoordinatorEpoch(epoch: U64, ghost now: Timestamp)
      requires Valid()
      modifies `trace, `coordinatorEpoch
      ensures Valid()
      ensures View() == Step(old(View()), SetEpoch(epoch), now)
      ensures trace == old(trace) + [Timed(SetEpoch(epoch), now)]
    {
      hide Step, Run;
      Begin(SetEpoch(epoch), now);
      HeaderShape(View(), SetEpoch(epoch), now);
      coordinatorEpoch := epoch;
    }

    method RegisterWorker(worker: Id, boot: Id, ghost now: Timestamp)
      requires Valid()
      modifies `trace, `workers
      ensures Valid()
      ensures View() == Step(old(View()), Event.RegisterWorker(worker, boot), now)
      ensures trace == old(trace) + [Timed(Event.RegisterWorker(worker, boot), now)]
    {
      hide Step, Run;
      Begin(Event.RegisterWorker(worker, boot), now);
      HeaderShape(View(), Event.RegisterWorker(worker, boot), now);
      workers := workers[worker := boot];
    }

    method IsWorkerCurrent(worker: Id, boot: Id) returns (current: bool)
      ensures current <==> StoreMachine.IsWorkerCurrent(View(), worker, boot)
    {
      current := worker in workers && workers[worker] == boot;
    }
  }

  /** Duplicate detection, by a scan. */
  method ContainsId(fs: seq<Fault>, id: Id) returns (found: bool)
    ensures found <==> HasId(fs, id)
  {
    for i := 0 to |fs|
      invariant !HasId(fs[..i], id)
    {
      if fs[i].id == id {
        return true;
      }
    }
    assert fs[..|fs|] == fs;
    return false;
  }

  method AppendValidation(before: Device, v: ValidationRecord) returns (d: Device)
    ensures d == WithValidation(before, v)
  {
    d := before.(history := before.history.(validations := before.history.validations + [v]));
    if v.passed && v.depth > d.history.highestValidation {
      d := d.(history := d.history.(highestValidation := v.depth));
    }
  }

  method Absorb(before: Device, obs: Observation, env: Envelope) returns (d: Device)
    ensures d == Observed(before, obs, env)
  {
    d := before;
    if env.deviceGeneration > d.evidence.generation {
      d := d.(evidence := d.evidence.(generation := env.deviceGeneration, deviceGenerationChanged := true));
    }
    d := d.(evidence := d.evidence.(lastWorker := obs.worker, lastWorkerBootId := obs.workerBootId));
    d := d.(evidence := d.evidence.(requiresRevalidation := false));
    var dims := d.evidence.dimensions;
    for i := 0 to |obs.dimensions|
      invariant dims == MergeDimensions(before.evidence.dimensions, obs.dimensions[..i])
    {
      assert obs.dimensions[..i + 1][..i] == obs.dimensions[..i];
      dims := dims[obs.dimensions[i].kind := obs.dimensions[i]];
    }
    assert obs.dimensions[..|obs.dimensions|] == obs.dimensions;
    d := d.(evidence := d.evidence.(dimensions := dims));
    d := d.(evidence := d.evidence.(lastObservation := obs.timestamp));
  }

  lemma UnknownIsRefused(s: Store, obs: Observation, env: Envelope)
    requires obs.accelerator !in s.devices
    ensures Judge(s, obs, env) == UnknownDevice
  {
  }

  lemma StillThere(s: Store, x: Id, now: Timestamp)
    requires x in s.devices
    ensures x in ReassessedIn(s, x, now).devices
  {
    hide Reassessed;
  }

  lemma ClearingLogsNothing(d: Device)
    ensures QuarantineCleared(d).id == d.id && Gained(d, QuarantineCleared(d)) == []
  {
  }

  lemma FaultLogsNothing(d: Device, f: Fault)
    ensures WithFault(d, f).id == d.id && Gained(d, WithFault(d, f)) == []
  {
  }

  lemma ValidationLogsNothing(d: Device, v: ValidationRecord)
    ensures WithValidation(d, v).health == d.health && WithValidation(d, v).id == d.id
    ensures Gained(d, WithValidation(d, v)) == []
  {
  }

  lemma GainsFromSameLog(d: Device, e: Device, f: Device)
    requires d.health == e.health
    ensures Gained(d, f) == Gained(e, f)
  {
  }

  lemma NoGain(d: Device, e: Device)
    requires d.health == e.health
    ensures Gained(d, e) == []
  {
  }

  lemma GainsOfRecord(d: Device, id: Id, authority: QuarantineAuthority, reason: string, triggeredBy: string,
      c: Context)
    ensures Gained(d, WithQuarantine(d, id, authority, reason, triggeredBy, c)) == []
  {
  }

  /** Placing the record logs nothing, so the whole gain is that of the transition. */
  lemma GainsOfQuarantine(d: Device, id: Id, authority: QuarantineAuthority, reason: string, triggeredBy: string,
                          c: Context)
    requires CanQuarantine(d)
    ensures var q := WithQuarantine(d, id, authority, reason, triggeredBy, c);
      CanQuarantine(q) && q.id == d.id
      && Gained(d, MovedToQuarantine(q, reason, c)) == Gained(q, MovedToQuarantine(q, reason, c))
  {
  }

  lemma AssessedTarget(i: AssessmentInput, floats: FloatTable)
    ensures Assess(i, floats).state == Target(i)
  {
  }
}
