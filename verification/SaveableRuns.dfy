/** Runs whose stores can be saved, told from their events. */
module SaveableRuns {
  import opened Enums
  import opened Records
  import opened StateMachine
  import opened Readiness
  import opened Assessment
  import opened Devices
  import opened StoreMachine
  import opened ChangeLogs
  import opened DeviceInvariant
  import opened Runs
  import opened Recovery
  import opened Wire
  import opened RecordCodecs
  import opened DeviceCodec
  import opened Persistence
  import opened Limits

  // ---- Texts ----

  /** A dimension whose reason can also be quoted in the reason of an assessment. */
  predicate Quotable(d: HealthDimension, m: nat) {
    |d.reason| <= m - 20 && IsBytes(d.reason) && Within(d.units, m)
  }

  predicate FaultFits(f: Fault, m: nat) {
    Within(f.evidence, m) && Within(f.causalMetadata, m)
  }

  /** No text that the event brings has more than `m` characters, and a reason of a dimension
      has room to be quoted. */
  predicate EventFits(e: Event, m: nat) {
    match e
    case Observe(obs, _) => forall i :: 0 <= i < |obs.dimensions| ==> Quotable(obs.dimensions[i], m)
    case RecordFault(f) => FaultFits(f, m)
    case RecordValidation(v) => Within(v.detail, m)
    case Revalidate(_, v) => Within(v.detail, m)
    case MarkLost(_, reason) => Within(reason, m)
    case BeginQuarantine(_, _, reason, trigger) => Within(reason, m) && Within(trigger, m)
    case _ => true
  }

  /** Every entry is a short text with a policy generation no newer than `pg`. */
  predicate EntriesFit(changes: seq<HealthChange>, pg: Counter, m: nat) {
    forall i :: 0 <= i < |changes| ==>
      Within(changes[i].tag, m) && Within(changes[i].detail, m) && changes[i].policyGeneration <= pg
  }

  predicate HistoryFits(h: History, m: nat) {
    && (forall i :: 0 <= i < |h.faults| ==> FaultFits(h.faults[i], m))
    && (forall i :: 0 <= i < |h.validations| ==> Within(h.validations[i].detail, m))
  }

  predicate EvidenceFits(e: EvidenceState, m: nat) {
    e.recentEvidence == [] && forall k :: k in e.dimensions ==> Quotable(e.dimensions[k], m)
  }

  predicate CareFits(c: Care, generation: Counter, pg: Counter, m: nat) {
    && (c.quarantine.Some? ==>
          && Within(c.quarantine.value.reason, m) && Within(c.quarantine.value.triggeredBy, m)
          && c.quarantine.value.policyGeneration <= pg && c.quarantine.value.healthGeneration <= generation)
    && (c.recovery.Some? ==> Within(c.recovery.value.profile, m))
  }

  predicate JudgementFits(a: HealthAssessment, generation: Counter, pg: Counter, m: nat) {
    && AllWithin(a.reasons, m) && |a.reasons| <= 10 && Within(a.digest, m)
    && a.healthGeneration <= generation && a.policyGeneration <= pg
  }

  /** No text of a device has more than `m` characters, and no generation in it is ahead of its
      own and the store's. */
  predicate Textual(d: Device, pg: Counter, m: nat) {
    && EvidenceFits(d.evidence, m)
    && HistoryFits(d.history, m)
    && EntriesFit(d.health.changes, pg, m)
    && CareFits(d.care, d.health.generation, pg, m)
    && JudgementFits(d.judgement.assessment, d.health.generation, pg, m)
  }

  lemma MovedFits(d: Device, to: HealthState, tag: string, detail: string, c: Context, m: TextLimit)
    requires CanTransition(d.health.state, to)
    requires Textual(d, c.policyGeneration, m) && Within(tag, m) && Within(detail, m)
    ensures Textual(Moved(d, to, tag, detail, c), c.policyGeneration, m)
  {
    hide IsBytes, EvidenceFits, HistoryFits, AllWithin;
  }

  lemma StateNames(s: HealthState)
    ensures Within(HealthName(s), OWN_TEXT) && Within("health", OWN_TEXT)
  {
  }

  lemma ReassessedFits(d: Device, c: Context, m: TextLimit)
    requires Textual(d, c.policyGeneration, m)
    ensures Textual(Reassessed(d, c), c.policyGeneration, m)
  {
    hide IsBytes, AllWithin, HistoryFits, CanTransition, Target, ReasonsFor, Digest, Evaluate, EntriesFit, Quotable;
    StateNames(TargetOf(d, c));
    var e := FollowTarget(d, c);
    if e != d {
      MovedFits(d, TargetOf(d, c), "health", HealthName(TargetOf(d, c)), c, m);
    }
    assert Textual(e, c.policyGeneration, m);
    AssessFits(InputOf(d, c), m);
  }

  lemma AssessFits(i: AssessmentInput, m: TextLimit)
    requires forall k :: k in i.dimensions ==> Quotable(i.dimensions[k], m)
    ensures AllWithin(ReasonsFor(i), m) && |ReasonsFor(i)| <= 10 && Within(Digest(i), OWN_TEXT)
  {
    hide Digest, ReasonsFor, WorstBelow, AllWithin;
    DigestIsShort(i);
    ReasonsWithinExactly(i, m);
    WorstIsQuotable(i.dimensions, DIMENSION_KINDS, m);
  }

  lemma {:induction false} WorstIsQuotable(dims: Dimensions, n: nat, m: TextLimit)
    requires n <= DIMENSION_KINDS && forall k :: k in dims ==> Quotable(dims[k], m)
    ensures |WorstBelow(dims, n).reason| <= m - 20 && IsBytes(WorstBelow(dims, n).reason)
  {
    if n > 0 {
      WorstIsQuotable(dims, n - 1, m);
    }
  }

  // ---- One step ----

  lemma {:induction false} MergeFits(dims: Dimensions, ds: seq<HealthDimension>, m: TextLimit)
    requires forall k :: k in dims ==> Quotable(dims[k], m)
    requires forall i :: 0 <= i < |ds| ==> Quotable(ds[i], m)
    ensures forall k :: k in MergeDimensions(dims, ds) ==> Quotable(MergeDimensions(dims, ds)[k], m)
  {
    hide Quotable;
    if ds != [] {
      MergeFits(dims, ds[..|ds| - 1], m);
    }
  }

  lemma RecoveryTexts()
    ensures Within("recovery", OWN_TEXT) && Within("begin recovery", OWN_TEXT) && Within("revalidated", OWN_TEXT)
    ensures Within("revalidate", OWN_TEXT) && Within("enter revalidation", OWN_TEXT)
  {
  }

  lemma FailureTag()
    ensures Within("revalidate-failed", OWN_TEXT)
  {
  }

  lemma FailureDetail()
    ensures Within("validation failed during recovery", OWN_TEXT)
  {
  }

  lemma OtherTexts(p: ValidationProfile)
    ensures Within("lost", OWN_TEXT) && Within("quarantine", OWN_TEXT) && Within(ProfileName(p), OWN_TEXT)
  {
  }

  lemma WithValidationFits(d: Device, v: ValidationRecord, pg: Counter, m: TextLimit)
    requires Textual(d, pg, m) && Within(v.detail, m)
    ensures Textual(WithValidation(d, v), pg, m)
  {
    hide IsBytes, EvidenceFits, EntriesFit, CareFits, JudgementFits;
  }

  lemma CountedFits(d: Device, c: Context, m: TextLimit)
    requires Textual(d, c.policyGeneration, m)
    ensures Textual(ValidationCounted(d, c), c.policyGeneration, m)
  {
    hide IsBytes, EvidenceFits, HistoryFits, EntriesFit, AllWithin;
    RecoveryTexts();
    if d.health.state == Recovering {
      MovedFits(d, Revalidating, "revalidate", "enter revalidation", c, m);
    }
  }

  lemma FinishedFits(d: Device, c: Context, m: TextLimit)
    requires Textual(d, c.policyGeneration, m) && RecoveryComplete(d, c)
    ensures Textual(RecoveryFinished(d, c), c.policyGeneration, m)
  {
    hide IsBytes, EvidenceFits, HistoryFits, EntriesFit, AllWithin;
    RecoveryTexts();
    MovedFits(d, Healthy, "recovery", "revalidated", c, m);
  }

  lemma FailedFits(d: Device, c: Context, m: TextLimit)
    requires Textual(d, c.policyGeneration, m)
    ensures Textual(FailedIn(d, c), c.policyGeneration, m)
  {
    hide IsBytes, Textual;
    FailureTag();
    FailureDetail();
    if d.health.state == Recovering || d.health.state == Revalidating {
      MovedFits(d, Quarantined, "revalidate-failed", "validation failed during recovery", c, m);
    }
  }

  lemma RevalidatedFits(d: Device, v: ValidationRecord, c: Context, m: TextLimit)
    requires Textual(d, c.policyGeneration, m) && Within(v.detail, m)
    ensures Textual(Revalidated(d, v, c), c.policyGeneration, m)
  {
    hide Textual, WithValidation, ValidationCounted, RecoveryComplete, RecoveryFinished, FailedIn;
    var e := WithValidation(d, v);
    WithValidationFits(d, v, c.policyGeneration, m);
    CountedFits(e, c, m);
    FailedFits(e, c, m);
    if RecoveryComplete(ValidationCounted(e, c), c) {
      FinishedFits(ValidationCounted(e, c), c, m);
    }
  }

  lemma ObservedFits(d: Device, obs: Observation, env: Envelope, pg: Counter, m: TextLimit)
    requires Textual(d, pg, m) && forall i :: 0 <= i < |obs.dimensions| ==> Quotable(obs.dimensions[i], m)
    ensures Textual(Observed(d, obs, env), pg, m)
  {
    hide Quotable, HistoryFits, EntriesFit, CareFits, JudgementFits, MergeDimensions;
    MergeFits(d.evidence.dimensions, obs.dimensions, m);
  }

  lemma LostFits(d: Device, reason: string, c: Context, m: TextLimit)
    requires Textual(d, c.policyGeneration, m) && Within(reason, m)
    ensures Textual(MarkedLost(d, reason, c), c.policyGeneration, m)
  {
    hide IsBytes, EvidenceFits, HistoryFits, EntriesFit, AllWithin, CanTransition;
    OtherTexts(0);
    TableShape(d.health.state);
    var gone := d.(care := d.care.(present := false));
    assert Textual(gone, c.policyGeneration, m);
    if d.health.state != Lost {
      MovedFits(gone, Lost, "lost", reason, c, m);
    }
  }

  lemma QuarantinedFits(d: Device, id: Id, authority: QuarantineAuthority, reason: string, trigger: string, c: Context,
                        m: TextLimit)
    requires Textual(d, c.policyGeneration, m) && Within(reason, m) && Within(trigger, m)
    ensures var q := WithQuarantine(d, id, authority, reason, trigger, c);
      && Textual(q, c.policyGeneration, m)
      && (CanQuarantine(q) ==> Textual(MovedToQuarantine(q, reason, c), c.policyGeneration, m))
  {
    hide IsBytes, EvidenceFits, HistoryFits, EntriesFit, AllWithin, CanTransition;
    OtherTexts(0);
    var q := WithQuarantine(d, id, authority, reason, trigger, c);
    assert Textual(q, c.policyGeneration, m);
    if CanTransition(q.health.state, Quarantined) {
      MovedFits(q, Quarantined, "quarantine", reason, c, m);
    }
  }

  lemma BegunFits(d: Device, id: Id, c: Context, m: TextLimit)
    requires Textual(d, c.policyGeneration, m) && CanTransition(d.health.state, Recovering)
    ensures Textual(RecoveryBegun(d, id, c), c.policyGeneration, m)
  {
    hide IsBytes, EvidenceFits, HistoryFits, EntriesFit, AllWithin, CanTransition, ProfileName;
    RecoveryTexts();
    OtherTexts(c.policy.revalidationProfile);
    MovedFits(d, Recovering, "recovery", "begin recovery", c, m);
  }

  lemma WithFaultFits(d: Device, f: Fault, pg: Counter, m: TextLimit)
    requires Textual(d, pg, m) && FaultFits(f, m)
    ensures Textual(WithFault(d, f), pg, m)
  {
    hide IsBytes, EvidenceFits, EntriesFit, CareFits, JudgementFits;
  }

  /** The remaining operations write no text. */
  lemma FlagsFit(d: Device, pg: Counter, m: TextLimit)
    requires Textual(d, pg, m)
    ensures Textual(PolicyFlagged(d), pg, m) && Textual(EvidenceStripped(d), pg, m) && Textual(Distrusted(d), pg, m)
    ensures Textual(QuarantineCleared(d), pg, m)
  {
    hide IsBytes, HistoryFits, EntriesFit, JudgementFits, Quotable;
  }

  lemma LandedFits(s: Store, d: Device, e: Event, now: Timestamp, m: TextLimit)
    requires Textual(d, s.policyGeneration, m) && EventFits(e, m)
    ensures Textual(Landed(s, d, e, now), s.policyGeneration, m)
  {
    hide Textual, Judge, Quotable, IsBytes, FaultFits, Revalidated, MarkedLost, Observed,
      WithValidation, WithFault, WithQuarantine, MovedToQuarantine, RecoveryBegun, PolicyFlagged, EvidenceStripped,
      Distrusted, QuarantineCleared, CanTransition;
    var c := ContextOf(s, now);
    FlagsFit(d, s.policyGeneration, m);
    match e
    case MarkLost(_, reason) => LostFits(d, reason, c, m);
    case Observe(obs, env) => ObservedFits(d, obs, env, s.policyGeneration, m);
    case RecordFault(f) => WithFaultFits(d, f, s.policyGeneration, m);
    case RecordValidation(v) => WithValidationFits(d, v, s.policyGeneration, m);
    case Revalidate(_, v) => RevalidatedFits(d, v, c, m);
    case BeginQuarantine(_, authority, reason, trigger) =>
      QuarantinedFits(d, s.nextQuarantine, authority, reason, trigger, c, m);
      SameStanding(d, s.nextQuarantine, authority, reason, trigger, c);
    case BeginRecovery(_) =>
      if CanTransition(d.health.state, Recovering) {
        BegunFits(d, s.nextRecovery, c, m);
      }
    case _ =>
  }

  lemma SameStanding(d: Device, id: Id, authority: QuarantineAuthority, reason: string, trigger: string, c: Context)
    ensures CanQuarantine(WithQuarantine(d, id, authority, reason, trigger, c)) <==> CanQuarantine(d)
  {
  }

  lemma StepFits(s: Store, d: Device, e: Event, now: Timestamp, m: TextLimit)
    requires Textual(d, s.policyGeneration, m) && EventFits(e, m)
    ensures Textual(DeviceAfter(s, d, e, now), s.policyGeneration, m)
  {
    hide Textual, EventFits, Landed, Reassessed;
    LandedFits(s, d, e, now, m);
    ReassessedFits(Landed(s, d, e, now), ContextOf(s, now), m);
  }

  // ---- Counts ----

  function Count(trace: Trace, p: Event -> bool): nat {
    if trace == [] then 0
    else Count(trace[..|trace| - 1], p) + if p(trace[|trace| - 1].event) then 1 else 0
  }

  function Registrations(): Event -> bool {
    (e: Event) => e.RegisterDevice?
  }

  function Policies(): Event -> bool {
    (e: Event) => e.InstallPolicy?
  }

  function ReportsOf(x: Id): Event -> bool {
    (e: Event) => e.RecordFault? && e.fault.accelerator == x
  }

  function ValidationsOf(x: Id): Event -> bool {
    (e: Event) => (e.RecordValidation? && e.record.accelerator == x) || (e.Revalidate? && e.id == x)
  }

  /** What one device holds is bounded by how many calls there have been. */
  ghost predicate Bounded(d: Device, faults: nat, validations: nat, recoveries: nat) {
    && |d.history.faults| <= faults
    && |d.history.validations| <= validations
    && (d.care.recovery.Some? ==>
          d.care.recovery.value.generation <= recoveries && d.care.recovery.value.successfulValidations <= validations)
  }

  lemma LandedBounded(s: Store, d: Device, e: Event, now: Timestamp, f: nat, v: nat, r: nat)
    requires Bounded(d, f, v, r)
    ensures Bounded(Landed(s, d, e, now),
                    f + (if ReportsOf(d.id)(e) then 1 else 0), v + (if ValidationsOf(d.id)(e) then 1 else 0),
                    r + Charge(e, d.id))
  {
    hide Judge, MergeDimensions, CanTransition;
  }

  lemma StepBounded(s: Store, d: Device, e: Event, now: Timestamp, f: nat, v: nat, r: nat)
    requires Bounded(d, f, v, r)
    ensures Bounded(DeviceAfter(s, d, e, now),
                    f + (if ReportsOf(d.id)(e) then 1 else 0), v + (if ValidationsOf(d.id)(e) then 1 else 0),
                    r + Charge(e, d.id))
  {
    hide Landed, Reassessed, ReportsOf, ValidationsOf, Charge;
    LandedBounded(s, d, e, now, f, v, r);
    ReassessKeepsEvidence(Landed(s, d, e, now), ContextOf(s, now));
  }

  lemma {:induction false} RunBounded(s: Store, trace: Trace, x: Id)
    requires IsInitial(s) && Admissible(s, trace) && x in Run(s, trace).devices
    ensures Bounded(Run(s, trace).devices[x], Count(trace, ReportsOf(x)), Count(trace, ValidationsOf(x)),
      Charges(trace, x))
    decreases |trace|
  {
    hide Step, DeviceAfter, ReportsOf, ValidationsOf, Charge, Sound;
    if trace != [] {
      var init, last := trace[..|trace| - 1], trace[|trace| - 1];
      if x in Run(s, init).devices {
        RunBounded(s, init, x);
        LastStep(s, trace, x);
        StepBounded(Run(s, init), Run(s, init).devices[x], last.event, last.now,
                    Count(init, ReportsOf(x)), Count(init, ValidationsOf(x)), Charges(init, x));
      } else {
        NewDevice(s, trace, x);
      }
    }
  }

  lemma HeaderStep(s: Store, e: Event, now: Timestamp)
    ensures Step(s, e, now).policyGeneration == s.policyGeneration + if e.InstallPolicy? then 1 else 0
    ensures |Step(s, e, now).devices| <= |s.devices| + if e.RegisterDevice? then 1 else 0
  {
    hide StateIndexAfter, ReadinessIndexAfter, StaleIndexAfter, GlobalChangesAfter, GlobalFaultsAfter,
      QuarantineIndexAfter, FaultIndexAfter, Judge, DeviceAfter, FreshDevice;
    assert Kept(s, e, now).Keys == s.devices.Keys;
    assert |Kept(s, e, now)| == |s.devices|;
  }

  lemma {:induction false} RunHeader(s: Store, trace: Trace)
    requires IsInitial(s)
    ensures Run(s, trace).policyGeneration == 1 + Count(trace, Policies())
    ensures |Run(s, trace).devices| <= Count(trace, Registrations())
    decreases |trace|
  {
    hide Step;
    if trace != [] {
      var init, last := trace[..|trace| - 1], trace[|trace| - 1];
      RunHeader(s, init);
      HeaderStep(Run(s, init), last.event, last.now);
    }
  }

  lemma NewerPolicyFits(d: Device, pg: Counter, pg': Counter, m: nat)
    requires Textual(d, pg, m) && pg <= pg'
    ensures Textual(d, pg', m)
  {
    hide Within, EvidenceFits, HistoryFits, AllWithin;
  }

  ghost predicate EventsFit(trace: Trace, m: nat) {
    forall i :: 0 <= i < |trace| ==> EventFits(trace[i].event, m)
  }

  lemma {:induction false} RunFits(s: Store, trace: Trace, x: Id, m: TextLimit)
    requires IsInitial(s) && Admissible(s, trace) && x in Run(s, trace).devices
    requires EventsFit(trace, m)
    ensures Textual(Run(s, trace).devices[x], Run(s, trace).policyGeneration, m)
    decreases |trace|
  {
    hide Step, DeviceAfter, EventFits, Textual, Sound;
    if trace != [] {
      var init, last := trace[..|trace| - 1], trace[|trace| - 1];
      var before := Run(s, init);
      assert forall i :: 0 <= i < |init| ==> init[i] == trace[i];
      if x in before.devices {
        RunFits(s, init, x, m);
        LastStep(s, trace, x);
        StepFits(before, before.devices[x], last.event, last.now, m);
        HeaderStep(before, last.event, last.now);
        NewerPolicyFits(Run(s, trace).devices[x], before.policyGeneration, Run(s, trace).policyGeneration, m);
      } else {
        NewDevice(s, trace, x);
        FreshFits(Run(s, trace).devices[x], x, Run(s, trace).policyGeneration, m);
      }
    }
  }

  lemma FreshFits(d: Device, x: Id, pg: Counter, m: nat)
    requires exists uuid, node, now :: d == FreshDevice(x, uuid, node, now)
    ensures Textual(d, pg, m)
  {
  }

  // ---- Runs that can be saved ----

  /** Every text an event brings can be written, reasons of dimensions with room to be quoted;
      no device sees more than 2^20 faults or validations, or calls that could change its
      state that often; and there are no more than 2^20 registrations. Observations, clock
      readings, reassessments and restarts are not limited. */
  ghost predicate Modest(trace: Trace) {
    && EventsFit(trace, MAX_STRING)
    && Count(trace, Registrations()) <= MAX_COUNT
    && 1 + Count(trace, Policies()) < UINT64
    && forall x :: ModestFor(trace, x)
  }

  ghost predicate ModestFor(trace: Trace, x: Id) {
    && Count(trace, ReportsOf(x)) <= MAX_COUNT
    && Count(trace, ValidationsOf(x)) <= MAX_COUNT
    && 6 + Charges(trace, x) <= MAX_COUNT
  }

  lemma FitsIsWritable(d: Device, pg: Counter, f: nat, v: nat, r: nat)
    requires Textual(d, pg, MAX_STRING) && Bounded(d, f, v, r) && LegalLog(d)
    requires f <= MAX_COUNT && v <= MAX_COUNT && r <= MAX_COUNT && |d.health.changes| <= MAX_COUNT && pg < UINT64
    ensures DeviceWritable(d)
  {
    hide IsBytes;
    assert forall i :: 0 <= i < |d.health.changes| ==> ChangeWritable(d.health.changes[i]);
    assert HistoryWritable(d.history);
    assert CareWritable(d.care);
  }

  /** The store that a modest run ends in can be saved. */
  lemma ModestRunsAreSaveable(s: Store, trace: Trace)
    requires IsInitial(s) && Admissible(s, trace) && Modest(trace)
    ensures Saveable(Run(s, trace))
  {
    hide Run, Admissible, Charges, DeviceWritable, Textual, Bounded, Settled, RecordsSound, LegalLog, EventFits, Count;
    var t := Run(s, trace);
    RunHeader(s, trace);
    ReachableInvariant(s, trace);
    forall x | x in t.devices ensures DeviceWritable(t.devices[x]) {
      assert ModestFor(trace, x);
      RunFits(s, trace, x, MAX_STRING);
      RunBounded(s, trace, x);
      TransitionsBounded(s, trace, x);
      FitsIsWritable(t.devices[x], t.policyGeneration, Count(trace, ReportsOf(x)), Count(trace, ValidationsOf(x)),
                     Charges(trace, x));
    }
  }

  lemma {:induction false} CountIsShort(trace: Trace, p: Event -> bool)
    ensures Count(trace, p) <= |trace|
  {
    if trace != [] {
      CountIsShort(trace[..|trace| - 1], p);
    }
  }

  lemma {:induction false} ChargesAreShort(trace: Trace, x: Id)
    ensures Charges(trace, x) <= 6 * |trace|
  {
    if trace != [] {
      ChargesAreShort(trace[..|trace| - 1], x);
    }
  }

  /** A short run is modest when its texts are. */
  lemma ShortRunsAreModest(trace: Trace)
    requires 6 + 6 * |trace| <= MAX_COUNT && EventsFit(trace, MAX_STRING)
    ensures Modest(trace)
  {
    hide Count, Charges, EventFits;
    CountIsShort(trace, Registrations());
    CountIsShort(trace, Policies());
    forall x ensures ModestFor(trace, x) {
      CountIsShort(trace, ReportsOf(x));
      CountIsShort(trace, ValidationsOf(x));
      ChargesAreShort(trace, x);
    }
  }
}
