/** Fencing of distributed observations over whole runs. */
module Fencing {
  import opened Enums
  import opened Records
  import opened StateMachine
  import opened FaultHistory
  import opened Devices
  import opened StoreMachine
  import opened DeviceInvariant
  import opened Runs
  import opened StepShapes

  /** The calls that are refused: a fenced observation, a fault with a duplicate id, a second
      active quarantine, a recovery no transition leads to, the loss of a worker process that is
      not current, a uuid registered already, and whatever names an unknown device. */
  predicate Refused(s: Store, e: Event) {
    match e
    case Observe(obs, env) => Judge(s, obs, env) != Accepted
    case RecordFault(f) => !RecordsFault(s, f)
    case BeginQuarantine(_, _, _, _) => !SetsQuarantine(s, e)
    case BeginRecovery(_) => !BeginsRecovery(s, e)
    case InvalidateWorker(worker, boot) => !IsWorkerCurrent(s, worker, boot)
    case RegisterDevice(uuid, _) => uuid in s.uuidIndex
    case RecordValidation(v) => v.accelerator !in s.devices
    case Revalidate(id, _) => id !in s.devices
    case ClearQuarantine(id) => id !in s.devices
    case MarkLost(id, _) => id !in s.devices
    case Reassess(id) => id !in s.devices
    case _ => false
  }

  lemma RefusedTouchesNothing(s: Store, e: Event, now: Timestamp, x: Id)
    requires Identified(s) && Refused(s, e)
    requires x in s.devices
    ensures Touched(s, s.devices[x], e, now).Untouched?
  {
    hide Judge;
  }

  lemma RefusedFrame(s: Store, e: Event)
    requires Refused(s, e)
    ensures Framed(s, e) == s && !e.Restart? && !Registers(s, e)
  {
    hide Judge, HasId, CanTransition;
  }

  /** A refused call leaves the whole store exactly as it was. */
  lemma RefusedChangesNothing(s: Store, e: Event, now: Timestamp)
    requires Identified(s) && Refused(s, e)
    ensures Step(s, e, now) == s
  {
    hide Step, Touched, Framed, Refused, Identified;
    forall x | x in s.devices ensures Touched(s, s.devices[x], e, now).Untouched? {
      RefusedTouchesNothing(s, e, now, x);
    }
    RefusedFrame(s, e);
    StepIdle(s, e, now);
  }

  // ---- Generations ----

  ghost predicate AcceptedAt(s: Store, trace: Trace, i: nat) {
    && i < |trace|
    && trace[i].event.Observe?
    && Judge(Run(s, trace[..i]), trace[i].event.obs, trace[i].event.env) == Accepted
  }

  predicate NoRestartFrom(trace: Trace, i: nat) {
    forall j :: i <= j < |trace| ==> !trace[j].event.Restart?
  }

  lemma FenceStep(s: Store, e: Event, now: Timestamp, key: (Id, Id))
    requires !e.Restart?
    ensures key in s.fence ==> key in Step(s, e, now).fence && s.fence[key] <= Step(s, e, now).fence[key]
    ensures e.Observe? && Judge(s, e.obs, e.env) == Accepted ==>
      FenceKey(e.env) in Step(s, e, now).fence && Step(s, e, now).fence[FenceKey(e.env)] == e.env.observationGeneration
  {
    hide DevicesAfter, StateIndexAfter, ReadinessIndexAfter, StaleIndexAfter, GlobalChangesAfter, GlobalFaultsAfter,
      QuarantineIndexAfter, FaultIndexAfter;
  }

  lemma {:induction false} FenceOnlyRises(s: Store, trace: Trace, i: nat, key: (Id, Id))
    requires i <= |trace| && NoRestartFrom(trace, i)
    requires key in Run(s, trace[..i]).fence
    ensures key in Run(s, trace).fence && Run(s, trace[..i]).fence[key] <= Run(s, trace).fence[key]
    decreases |trace|
  {
    hide Step;
    if i == |trace| {
      assert trace[..i] == trace;
    } else {
      var init, last := trace[..|trace| - 1], trace[|trace| - 1];
      assert init[..i] == trace[..i];
      FenceOnlyRises(s, init, i, key);
      FenceStep(Run(s, init), last.event, last.now, key);
    }
  }

  /** The observation generations accepted from one worker process strictly increase, unless
      the coordinator has restarted in between: the fence is not part of the saved file. */
  lemma AcceptedGenerationsIncrease(s: Store, trace: Trace, i: nat, j: nat)
    requires i < j
    requires AcceptedAt(s, trace, i) && AcceptedAt(s, trace, j)
    requires FenceKey(trace[i].event.env) == FenceKey(trace[j].event.env)
    ensures || trace[i].event.env.observationGeneration < trace[j].event.env.observationGeneration
            || exists k :: i < k < j && trace[k].event.Restart?
  {
    hide Step;
    if forall k :: i < k < j ==> !trace[k].event.Restart? {
      var head, upTo := trace[..i + 1], trace[..j];
      assert head[..|head| - 1] == trace[..i];
      FenceStep(Run(s, trace[..i]), trace[i].event, trace[i].now, FenceKey(trace[i].event.env));
      assert upTo[..i + 1] == head;
      FenceOnlyRises(s, upTo, i + 1, FenceKey(trace[i].event.env));
    }
  }

  // ---- Registration ----

  /** The boot id a worker last registered with, unless that process was invalidated or the
      coordinator restarted since; a function of the events alone. */
  function CurrentBoot(trace: Trace, w: Id): Option<Id> {
    if trace == [] then None
    else
      var earlier := CurrentBoot(trace[..|trace| - 1], w);
      match trace[|trace| - 1].event
      case RegisterWorker(worker, boot) => if worker == w then Some(boot) else earlier
      case InvalidateWorker(worker, boot) => if worker == w && earlier == Some(boot) then None else earlier
      case Restart => None
      case _ => earlier
  }

  lemma WorkersStep(s: Store, e: Event, now: Timestamp)
    ensures Step(s, e, now).workers == match e
      case RegisterWorker(w, b) => s.workers[w := b]
      case InvalidateWorker(w, b) => if IsWorkerCurrent(s, w, b) then s.workers - {w} else s.workers
      case Restart => map[]
      case _ => s.workers
  {
    hide DevicesAfter, StateIndexAfter, ReadinessIndexAfter, StaleIndexAfter, GlobalChangesAfter, GlobalFaultsAfter,
      QuarantineIndexAfter, FaultIndexAfter, Judge;
  }

  lemma {:induction false} RegistryIsCurrent(s: Store, trace: Trace, w: Id)
    requires IsInitial(s)
    ensures w in Run(s, trace).workers <==> CurrentBoot(trace, w).Some?
    ensures w in Run(s, trace).workers ==> CurrentBoot(trace, w) == Some(Run(s, trace).workers[w])
    decreases |trace|
  {
    hide Step;
    if trace != [] {
      var init, last := trace[..|trace| - 1], trace[|trace| - 1];
      RegistryIsCurrent(s, init, w);
      WorkersStep(Run(s, init), last.event, last.now);
    }
  }

  // ---- Exactly what is accepted ----

  /** The observation generation last accepted from a worker process since the coordinator
      last restarted. */
  ghost function LastAccepted(s: Store, trace: Trace, key: (Id, Id)): Option<Generation>
    decreases |trace|
  {
    if trace == [] then None
    else
      var init, e := trace[..|trace| - 1], trace[|trace| - 1].event;
      if e.Restart? then None
      else if e.Observe? && (e.env.workerId, e.env.workerBootId) == key && Judge(Run(s, init), e.obs, e.env) == Accepted
      then Some(e.env.observationGeneration)
      else LastAccepted(s, init, key)
  }

  /** The coordinator epoch, a function of the events alone; a restart keeps the saved one. */
  function CurrentEpoch(start: U64, trace: Trace): U64 {
    if trace == [] then start
    else
      match trace[|trace| - 1].event
      case RollEpoch => Successor(CurrentEpoch(start, trace[..|trace| - 1]))
      case SetEpoch(n) => n
      case _ => CurrentEpoch(start, trace[..|trace| - 1])
  }

  lemma FenceAndEpochStep(s: Store, e: Event, now: Timestamp)
    ensures Step(s, e, now).fence == Framed(s, e).fence
    ensures Step(s, e, now).coordinatorEpoch == Framed(s, e).coordinatorEpoch
  {
    hide DevicesAfter, StateIndexAfter, ReadinessIndexAfter, StaleIndexAfter, GlobalChangesAfter, GlobalFaultsAfter,
      QuarantineIndexAfter, FaultIndexAfter, Judge;
  }

  lemma {:induction false} FenceIsLastAccepted(s: Store, trace: Trace, key: (Id, Id))
    requires IsInitial(s)
    ensures key in Run(s, trace).fence <==> LastAccepted(s, trace, key).Some?
    ensures key in Run(s, trace).fence ==> LastAccepted(s, trace, key) == Some(Run(s, trace).fence[key])
    decreases |trace|
  {
    hide Step, Judge, FaultIndexAfter, QuarantineIndexAfter, GlobalFaultsAfter;
    if trace != [] {
      var init, last := trace[..|trace| - 1], trace[|trace| - 1];
      FenceIsLastAccepted(s, init, key);
      FenceAndEpochStep(Run(s, init), last.event, last.now);
    }
  }

  lemma {:induction false} EpochIsCurrent(s: Store, trace: Trace)
    ensures Run(s, trace).coordinatorEpoch == CurrentEpoch(s.coordinatorEpoch, trace)
    decreases |trace|
  {
    hide Step, Judge, FaultIndexAfter, QuarantineIndexAfter, GlobalFaultsAfter;
    if trace != [] {
      var init, last := trace[..|trace| - 1], trace[|trace| - 1];
      EpochIsCurrent(s, init);
      FenceAndEpochStep(Run(s, init), last.event, last.now);
    }
  }

  /** What an observation must be to be accepted after a history of events. */
  ghost predicate Acceptable(s: Store, history: Trace, obs: Observation, env: Envelope) {
    var last, devices := LastAccepted(s, history, (env.workerId, env.workerBootId)), Run(s, history).devices;
    && obs.accelerator in devices
    && env.coordinatorEpoch == CurrentEpoch(s.coordinatorEpoch, history)
    && CurrentBoot(history, env.workerId) == Some(env.workerBootId)
    && (last.Some? ==> env.observationGeneration > last.value)
    && env.deviceGeneration >= devices[obs.accelerator].evidence.generation
  }

  /** An observation is accepted exactly when its device is tracked, it carries the current
      epoch, comes from the process its worker registered last and that was not invalidated
      since, is newer than the last one accepted from that process since the last restart,
      and is of no older device generation. */
  lemma AcceptedExactly(s: Store, trace: Trace, i: nat)
    requires IsInitial(s)
    requires i < |trace| && trace[i].event.Observe?
    ensures AcceptedAt(s, trace, i) <==> Acceptable(s, trace[..i], trace[i].event.obs, trace[i].event.env)
  {
    hide Run;
    var env := trace[i].event.env;
    RegistryIsCurrent(s, trace[..i], env.workerId);
    FenceIsLastAccepted(s, trace[..i], FenceKey(env));
    EpochIsCurrent(s, trace[..i]);
  }

  /** And when one is refused, why: the checks come in this order, each as the events have it. */
  lemma RefusedBecause(s: Store, trace: Trace, obs: Observation, env: Envelope)
    requires IsInitial(s)
    ensures var devices, boot, last :=
          Run(s, trace).devices, CurrentBoot(trace, env.workerId),
          LastAccepted(s, trace, (env.workerId, env.workerBootId));
      var known := obs.accelerator in devices;
      var inEpoch := known && env.coordinatorEpoch == CurrentEpoch(s.coordinatorEpoch, trace);
      var current := inEpoch && boot == Some(env.workerBootId);
      var newer := current && (last.None? || env.observationGeneration > last.value);
      var verdict := Judge(Run(s, trace), obs, env);
      && (verdict == UnknownDevice <==> !known)
      && (verdict == StaleEpoch <==> known && !inEpoch)
      && (verdict == UnregisteredWorker <==> inEpoch && boot == None)
      && (verdict == StaleBoot <==> inEpoch && boot != None && !current)
      && (verdict == StaleObservation <==> current && !newer)
      && (verdict == StaleDeviceGeneration <==>
            newer && env.deviceGeneration < devices[obs.accelerator].evidence.generation)
  {
    hide Run;
    RegistryIsCurrent(s, trace, env.workerId);
    FenceIsLastAccepted(s, trace, FenceKey(env));
    EpochIsCurrent(s, trace);
  }

  // ---- What a restart lets through ----

  lemma ObservedGeneration(s: Store, obs: Observation, env: Envelope, now: Timestamp)
    requires Identified(s) && Judge(s, obs, env) == Accepted
    ensures var t := Step(s, Observe(obs, env), now);
      obs.accelerator in t.devices && t.devices[obs.accelerator].evidence.generation == env.deviceGeneration
  {
    hide Step, Reassessed, MergeDimensions;
    var d := s.devices[obs.accelerator];
    DevicesStep(s, Observe(obs, env), now);
    ReassessKeepsEvidence(Observed(d, obs, env), ContextOf(s, now));
  }

  lemma GenerationStays(s: Store, e: Event, now: Timestamp, x: Id)
    requires x in s.devices && (e.Restart? || e.RegisterWorker?)
    ensures x in Step(s, e, now).devices
    ensures Step(s, e, now).devices[x].evidence.generation == s.devices[x].evidence.generation
  {
    hide Step, Reassessed;
    DevicesStep(s, e, now);
    ReassessKeepsEvidence(Distrusted(s.devices[x]), ContextOf(s, now));
  }

  lemma RestartForgets(s: Store, now: Timestamp)
    ensures Step(s, Restart, now).fence == map[]
    ensures Step(s, Restart, now).coordinatorEpoch == s.coordinatorEpoch
  {
    hide Step, FaultIndexAfter, QuarantineIndexAfter, GlobalFaultsAfter;
    FenceAndEpochStep(s, Restart, now);
  }

  lemma EpochStays(s: Store, e: Event, now: Timestamp)
    requires e.Observe? || e.RegisterWorker?
    ensures Step(s, e, now).coordinatorEpoch == s.coordinatorEpoch
    ensures e.RegisterWorker? ==> Step(s, e, now).fence == s.fence
  {
    hide Step, FaultIndexAfter, QuarantineIndexAfter, GlobalFaultsAfter, Judge;
    FenceAndEpochStep(s, e, now);
  }

  /** The promise fails across a restart, for every observation that was ever accepted: after
      it, a restart and the same process registering again, the same envelope is accepted a
      second time. */
  lemma ReplayAfterRestart(s: Store, obs: Observation, env: Envelope, t1: Timestamp, t2: Timestamp, t3: Timestamp)
    requires Identified(s) && Judge(s, obs, env) == Accepted
    ensures var replayed := Step(Step(Step(s, Observe(obs, env), t1), Restart, t2),
                                 RegisterWorker(env.workerId, env.workerBootId), t3);
      Judge(replayed, obs, env) == Accepted
  {
    hide Step, Identified;
    var s1 := Step(s, Observe(obs, env), t1);
    var s2 := Step(s1, Restart, t2);
    var e := RegisterWorker(env.workerId, env.workerBootId);
    ObservedGeneration(s, obs, env, t1);
    GenerationStays(s1, Restart, t2, obs.accelerator);
    GenerationStays(s2, e, t3, obs.accelerator);
    EpochStays(s, Observe(obs, env), t1);
    RestartForgets(s1, t2);
    EpochStays(s2, e, t3);
    WorkersStep(s2, e, t3);
  }

  /** The same as a run: any accepted observation can be accepted again. */
  lemma AcceptedTwice(s: Store, trace: Trace, i: nat, t2: Timestamp, t3: Timestamp)
    requires IsInitial(s) && AcceptedAt(s, trace, i)
    requires Admissible(s, trace[..i])
    ensures var env := trace[i].event.env;
      var replay := trace[..i + 1] + [Timed(Restart, t2), Timed(RegisterWorker(env.workerId, env.workerBootId), t3),
                                      trace[i]];
      AcceptedAt(s, replay, i) && AcceptedAt(s, replay, i + 3)
  {
    hide Step, Judge, Identified, Invariant, Run, Admissible;
    var obs, env := trace[i].event.obs, trace[i].event.env;
    var e2, e3 := Timed(Restart, t2), Timed(RegisterWorker(env.workerId, env.workerBootId), t3);
    var replay := trace[..i + 1] + [e2, e3, trace[i]];
    ReachableInvariant(s, trace[..i]);
    InvariantIdentified(Run(s, trace[..i]));
    ReplayAfterRestart(Run(s, trace[..i]), obs, env, trace[i].now, t2, t3);
    assert replay[..i] == trace[..i];
    RunSnoc(s, trace[..i], trace[i]);
    RunSnoc(s, trace[..i] + [trace[i]], e2);
    RunSnoc(s, trace[..i] + [trace[i]] + [e2], e3);
    assert replay[..i + 3] == trace[..i] + [trace[i]] + [e2] + [e3];
    assert replay[i] == trace[i] && replay[i + 3] == trace[i];
  }
}
