/** Each device's change log is a legal walk of the transition graph. */
module ChangeLogs {
  import opened Enums
  import opened Records
  import opened StateMachine
  import opened Assessment
  import opened Devices
  import opened StoreMachine

  function StateBefore(changes: seq<HealthChange>, i: nat): HealthState
    requires i <= |changes|
  {
    if i == 0 then Initializing else changes[i - 1].to
  }

  /** The log starts at INITIALIZING, its entries chain along declared transitions and number
      the health generations, and the counters of the device are functions of it. */
  ghost predicate LegalLog(d: Device) {
    && d.health.state == StateBefore(d.health.changes, |d.health.changes|)
    && d.health.transitions == |d.health.changes|
    && d.health.generation == |d.health.changes| + 1
    && forall i :: 0 <= i < |d.health.changes| ==>
         && d.health.changes[i].accelerator == d.id
         && d.health.changes[i].from == StateBefore(d.health.changes, i)
         && CanTransition(d.health.changes[i].from, d.health.changes[i].to)
         && d.health.changes[i].healthGeneration == i + 2
  }

  /** `e` continues the log of `d`. */
  ghost predicate Continues(d: Device, e: Device) {
    && d.id == e.id
    && d.health.changes <= e.health.changes
    && (LegalLog(d) ==> LegalLog(e))
  }

  lemma MovedContinues(d: Device, to: HealthState, tag: string, detail: string, c: Context)
    requires CanTransition(d.health.state, to)
    ensures Continues(d, Moved(d, to, tag, detail, c))
  {
    hide CanTransition;
    var before, entry := d.health.changes, ChangeEntry(d, to, tag, detail, c);
    var all := before + [entry];
    assert before <= all;
    if LegalLog(d) {
      forall i | 0 <= i < |all|
        ensures all[i].accelerator == d.id && all[i].from == StateBefore(all, i)
        ensures CanTransition(all[i].from, all[i].to) && all[i].healthGeneration == i + 2
      {
        assert StateBefore(all, i) == StateBefore(before, i);
        assert i < |before| ==> all[i] == before[i];
      }
      assert LegalLog(Moved(d, to, tag, detail, c));
    }
  }

  /** Nothing the log speaks about differs. */
  ghost predicate SameLog(d: Device, e: Device) {
    d.id == e.id && d.health == e.health
  }

  lemma SameLogContinues(d: Device, e: Device)
    requires SameLog(d, e)
    ensures Continues(d, e)
  {
  }

  lemma ReassessedContinues(d: Device, c: Context)
    ensures Continues(d, Reassessed(d, c))
  {
    hide Assess;
    var e := FollowTarget(d, c);
    assert SameLog(e, Reassessed(d, c));
    assert Continues(d, e) by {
      var target := TargetOf(d, c);
      if target != d.health.state && CanTransition(d.health.state, target) {
        MovedContinues(d, target, "health", HealthName(target), c);
      }
    }
  }

  lemma CountedContinues(d: Device, c: Context)
    ensures Continues(d, ValidationCounted(d, c))
  {
    hide LegalLog;
    if d.health.state == Recovering {
      var e := Moved(d, Revalidating, "revalidate", "enter revalidation", c);
      MovedContinues(d, Revalidating, "revalidate", "enter revalidation", c);
      SameLogContinues(e, ValidationCounted(d, c));
    } else {
      SameLogContinues(d, ValidationCounted(d, c));
    }
  }

  lemma FinishedContinues(d: Device, c: Context)
    requires RecoveryComplete(d, c)
    ensures Continues(d, RecoveryFinished(d, c))
  {
    hide LegalLog;
    MovedContinues(d, Healthy, "recovery", "revalidated", c);
    SameLogContinues(Moved(d, Healthy, "recovery", "revalidated", c), RecoveryFinished(d, c));
  }

  lemma RevalidatedContinues(d: Device, v: ValidationRecord, c: Context)
    ensures Continues(d, Revalidated(d, v, c))
  {
    hide LegalLog, ValidationCounted, RecoveryFinished;
    var e := WithValidation(d, v);
    SameLogContinues(d, e);
    if e.care.inRecovery && v.passed {
      CountedContinues(e, c);
      if RecoveryComplete(ValidationCounted(e, c), c) {
        FinishedContinues(ValidationCounted(e, c), c);
      }
    } else if e.care.inRecovery && (e.health.state == Recovering || e.health.state == Revalidating) {
      MovedContinues(e, Quarantined, "revalidate-failed", "validation failed during recovery", c);
    }
  }

  lemma LostContinues(d: Device, reason: string, c: Context)
    ensures Continues(d, MarkedLost(d, reason, c))
  {
    hide LegalLog;
    TableShape(d.health.state);
    SameLogContinues(d, d.(care := d.care.(present := false)));
    if d.health.state != Lost {
      MovedContinues(d.(care := d.care.(present := false)), Lost, "lost", reason, c);
    }
  }

  lemma QuarantineContinues(d: Device, q: Device, reason: string, c: Context)
    requires SameLog(d, q)
    requires CanQuarantine(q)
    ensures Continues(d, MovedToQuarantine(q, reason, c))
  {
    hide LegalLog;
    SameLogContinues(d, q);
    if q.health.state != Quarantined {
      MovedContinues(q, Quarantined, "quarantine", reason, c);
    }
  }

  lemma BegunContinues(d: Device, id: Id, c: Context)
    requires CanTransition(d.health.state, Recovering)
    ensures Continues(d, RecoveryBegun(d, id, c))
  {
    hide LegalLog;
    MovedContinues(d, Recovering, "recovery", "begin recovery", c);
    SameLogContinues(Moved(d, Recovering, "recovery", "begin recovery", c), RecoveryBegun(d, id, c));
  }

  lemma LandedContinues(s: Store, d: Device, e: Event, now: Timestamp)
    ensures Continues(d, Landed(s, d, e, now))
  {
    hide LegalLog, MarkedLost, MovedToQuarantine, RecoveryBegun, Revalidated, Judge, Observed, WithQuarantine;
    var c := ContextOf(s, now);
    SameLogContinues(d, d);
    match e
    case MarkLost(id, reason) => LostContinues(d, reason, c);
    case BeginQuarantine(_, authority, reason, trigger) =>
      QuarantinedContinues(s, d, e, now);
    case BeginRecovery(_) =>
      if CanTransition(d.health.state, Recovering) {
        BegunContinues(d, s.nextRecovery, c);
      }
    case Revalidate(_, v) => RevalidatedContinues(d, v, c);
    case Observe(obs, env) => ObservedContinues(d, obs, env);
    case _ => SameLogContinues(d, Landed(s, d, e, now));
  }

  lemma ObservedContinues(d: Device, obs: Observation, env: Envelope)
    ensures Continues(d, Observed(d, obs, env))
  {
    hide LegalLog;
    SameLogContinues(d, Observed(d, obs, env));
  }

  lemma QuarantinedContinues(s: Store, d: Device, e: Event, now: Timestamp)
    requires e.BeginQuarantine?
    ensures Continues(d, Landed(s, d, e, now))
  {
    hide LegalLog, MovedToQuarantine;
    var c := ContextOf(s, now);
    var q := WithQuarantine(d, s.nextQuarantine, e.authority, e.reason, e.triggeredBy, c);
    SameLogContinues(d, d);
    SameLogContinues(d, q);
    if CanQuarantine(d) {
      QuarantineContinues(d, q, e.reason, c);
    }
  }

  /** Every step continues every tracked device's log: nothing is rewritten, and what is
      added is a legal walk from where the log ended. */
  lemma StepContinues(s: Store, d: Device, e: Event, now: Timestamp)
    ensures Continues(d, DeviceAfter(s, d, e, now))
  {
    hide Reassessed, LegalLog, Landed;
    LandedContinues(s, d, e, now);
    ReassessedContinues(Landed(s, d, e, now), ContextOf(s, now));
  }
}
