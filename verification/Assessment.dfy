/** The deterministic assessment: evidence, fault statistics and policy give a target
    state, an action, explanatory reasons and a digest. */
module Assessment {
  import opened Enums
  import opened Records
  import opened Readiness
  import opened FaultHistory
  import Wire
  import WireIO

  datatype AssessmentInput = AssessmentInput(
    accelerator: Id,
    uuid: Id,
    deviceGeneration: Generation,
    currentState: HealthState,
    quarantined: bool,
    inRecovery: bool,
    now: Timestamp,
    dimensions: map<DimensionKind, HealthDimension>,
    faultStats: Stats,
    highestValidationDepth: ValidationDepth,
    lastObservation: Timestamp,
    policy: HealthPolicy,
    deviceGenerationChanged: bool,
    policyGenerationChanged: bool)

  /** Everything the confidence product depends on. The single-precision result is taken
      from a table supplied from outside, so nothing here rests on its rounding. */
  datatype ConfidenceKey = ConfidenceKey(
    inRecovery: bool, quarantined: bool, freshness: FreshnessStatus, target: HealthState,
    shallow: bool, critical: bool)

  type FloatTable = map<ConfidenceKey, U32>

  // ---- The scan over the dimensions ----

  predicate IsFailed(d: HealthDimension) { d.state == DimFailed }

  predicate AnyFailed(dims: map<DimensionKind, HealthDimension>) {
    exists k :: k in dims && IsFailed(dims[k])
  }

  predicate AnyFatalDimension(dims: map<DimensionKind, HealthDimension>) {
    exists k :: k in dims && IsFailed(dims[k]) && dims[k].severity == SEVERITY_FATAL
  }

  predicate AnyDegraded(dims: map<DimensionKind, HealthDimension>) {
    exists k :: k in dims && dims[k].state == DimDegraded
  }

  datatype Worst = Worst(severity: Severity, reason: string)

  /** The most severe failed or degraded dimension among the first `n` kinds; the first one
      in kind order wins a tie, and INFO findings never replace the empty reason. */
  function WorstBelow(dims: map<DimensionKind, HealthDimension>, n: nat): Worst
    requires n <= DIMENSION_KINDS
  {
    if n == 0 then Worst(SEVERITY_INFO, "")
    else
      var w := WorstBelow(dims, n - 1);
      var k := n - 1;
      if k in dims && (dims[k].state == DimFailed || dims[k].state == DimDegraded)
         && dims[k].severity > w.severity
      then Worst(dims[k].severity, dims[k].reason) else w
  }

  datatype Scan = Scan(anyFailed: bool, anyDegraded: bool, anyFatal: bool, worstReason: string)

  method ScanDimensions(dims: map<DimensionKind, HealthDimension>) returns (s: Scan)
    ensures s.anyFailed <==> AnyFailed(dims)
    ensures s.anyDegraded <==> AnyDegraded(dims)
    ensures s.anyFatal <==> AnyFatalDimension(dims)
    ensures s.worstReason == WorstBelow(dims, DIMENSION_KINDS).reason
  {
    var failed, degraded, fatal := false, false, false;
    var worstReason := "";
    var worstSeverity: Severity := SEVERITY_INFO;
    for k := 0 to DIMENSION_KINDS
      invariant failed <==> exists j :: 0 <= j < k && j in dims && IsFailed(dims[j])
      invariant degraded <==> exists j :: 0 <= j < k && j in dims && dims[j].state == DimDegraded
      invariant fatal <==>
        exists j :: 0 <= j < k && j in dims && IsFailed(dims[j]) && dims[j].severity == SEVERITY_FATAL
      invariant Worst(worstSeverity, worstReason) == WorstBelow(dims, k)
    {
      if k in dims {
        var dim := dims[k];
        if dim.state == DimFailed {
          failed := true;
          if dim.severity == SEVERITY_FATAL {
            fatal := true;
          }
          if dim.severity > worstSeverity {
            worstSeverity, worstReason := dim.severity, dim.reason;
          }
        } else if dim.state == DimDegraded {
          degraded := true;
          if dim.severity > worstSeverity {
            worstSeverity, worstReason := dim.severity, dim.reason;
          }
        }
      }
    }
    s := Scan(failed, degraded, fatal, worstReason);
  }

  // ---- The target cascade ----

  function FreshnessIn(i: AssessmentInput): FreshnessStatus {
    EvidenceFreshness(i.policy, i.lastObservation, i.now)
  }

  function Consecutive(i: AssessmentInput): int {
    AsInt32(i.faultStats.consecutiveLatest)
  }

  function Target(i: AssessmentInput): HealthState {
    if i.inRecovery then
      if i.currentState in {Recovering, Revalidating, Draining, Drained} then i.currentState else Recovering
    else if i.quarantined then Quarantined
    else if i.faultStats.hasOpenFatal || AnyFatalDimension(i.dimensions) then Failed
    else if AnyFailed(i.dimensions) then Unhealthy
    else if i.faultStats.hasOpenCritical && Consecutive(i) >= AsInt32(i.policy.quarantineAfterFailures) then Quarantined
    else if Consecutive(i) >= AsInt32(i.policy.unhealthyAfterFailures) then Unhealthy
    else if Consecutive(i) >= AsInt32(i.policy.degradeAfterFailures) then Degraded
    else if !IsFresh(FreshnessIn(i)) then if i.currentState == Healthy then Degraded else i.currentState
    else Healthy
  }

  predicate Shallow(i: AssessmentInput) {
    i.highestValidationDepth < i.policy.requiredValidationDepth
  }

  function ActionFor(i: AssessmentInput): ActionRequired {
    var target := Target(i);
    if i.quarantined then ACTION_RECOVER
    else if target == Failed || target == Unhealthy then ACTION_DRAIN
    else if target == Quarantined then ACTION_QUARANTINE
    else if i.inRecovery || Shallow(i) then ACTION_REVALIDATE
    else if target == Degraded then ACTION_MONITOR
    else ACTION_NONE
  }

  function TargetReadiness(i: AssessmentInput): ReadinessResult {
    Evaluate(ReadinessInput(
      Target(i), FreshnessIn(i), i.highestValidationDepth, i.policy.requiredValidationDepth,
      i.quarantined, i.inRecovery, i.deviceGenerationChanged, i.policyGenerationChanged,
      false, i.policy.allowDegradedReadiness, false))
  }

  // ---- Reasons ----

  function Decimal(n: int): string
    decreases n < 0, if n < 0 then -n else n
  {
    if n < 0 then "-" + Decimal(-n)
    else if n < 10 then [('0' as int + n) as char]
    else Decimal(n / 10) + [('0' as int + n % 10) as char]
  }

  function If(b: bool, s: string): seq<string> {
    if b then [s] else []
  }

  function FindingsIn(i: AssessmentInput): seq<string> {
    var worst := WorstBelow(i.dimensions, DIMENSION_KINDS).reason;
    var worstText := if worst == "" then "unknown" else worst;
    If(i.inRecovery, "device in recovery/revalidation")
    + If(i.quarantined, "quarantine active")
    + If(i.faultStats.hasOpenFatal, "open fatal fault present")
    + (if AnyFailed(i.dimensions) then ["dimension failure: " + worstText]
       else if AnyDegraded(i.dimensions) then ["dimension degraded: " + worstText] else [])
    + If(Consecutive(i) >= AsInt32(i.policy.degradeAfterFailures), "repeated failures: " + Decimal(Consecutive(i)))
    + If(FreshnessIn(i) == Stale, "evidence stale")
    + If(FreshnessIn(i) == Expired, "evidence expired")
    + If(Shallow(i), "validation depth below required")
    + If(i.deviceGenerationChanged, "device generation changed")
    + If(i.policyGenerationChanged, "policy generation changed")
  }

  function ReasonsFor(i: AssessmentInput): seq<string> {
    var rs := FindingsIn(i);
    if rs != [] then rs
    else if Target(i) == Healthy then ["all evidence nominal and fresh"]
    else ["no adverse evidence"]
  }

  // ---- Digest ----

  const DIGEST_LAYOUT: seq<Wire.Ty> := [
    Wire.TU64, Wire.TU64, Wire.TU64, Wire.TCode(13), Wire.TCode(7), Wire.TCode(4),
    Wire.TCode(VALIDATION_DEPTHS), Wire.TCode(VALIDATION_DEPTHS),
    Wire.TU32, Wire.TU32, Wire.TU32, Wire.TFlag, Wire.TFlag, Wire.TU32, Wire.TU32, Wire.TU32]

  /** The digested tuple; no clock reading is in it. */
  function DigestRow(i: AssessmentInput): Wire.Row {
    [Wire.VNum(i.accelerator), Wire.VNum(i.uuid), Wire.VNum(i.deviceGeneration),
     Wire.VNum(HealthCode(Target(i))), Wire.VNum(ReadinessCode(TargetReadiness(i).state)),
     Wire.VNum(FreshnessCode(FreshnessIn(i))),
     Wire.VNum(i.highestValidationDepth), Wire.VNum(i.policy.requiredValidationDepth),
     Wire.VNum(i.faultStats.total), Wire.VNum(i.faultStats.criticalFatalOpen),
     Wire.VNum(i.faultStats.consecutiveLatest),
     Wire.VFlag(i.faultStats.hasOpenFatal), Wire.VFlag(i.faultStats.hasOpenCritical),
     Wire.VNum(i.policy.degradeAfterFailures), Wire.VNum(i.policy.unhealthyAfterFailures),
     Wire.VNum(i.policy.quarantineAfterFailures)]
  }

  lemma DigestRowFits(i: AssessmentInput)
    ensures Wire.FitsRow(DIGEST_LAYOUT, DigestRow(i))
  {
  }

  function Digest(i: AssessmentInput): string {
    DigestRowFits(i);
    "ah-" + Wire.Hex(Wire.PutRow(DIGEST_LAYOUT, DigestRow(i)))
  }

  /** Two assessments carry the same digest exactly when the digested tuples agree. */
  lemma DigestInjective(i: AssessmentInput, j: AssessmentInput)
    ensures Digest(i) == Digest(j) <==> DigestRow(i) == DigestRow(j)
  {
    DigestRowFits(i);
    DigestRowFits(j);
    if Digest(i) == Digest(j) {
      assert Digest(i)[3..] == Wire.Hex(Wire.PutRow(DIGEST_LAYOUT, DigestRow(i)));
      assert Digest(j)[3..] == Wire.Hex(Wire.PutRow(DIGEST_LAYOUT, DigestRow(j)));
      Wire.HexInjective(Wire.PutRow(DIGEST_LAYOUT, DigestRow(i)), Wire.PutRow(DIGEST_LAYOUT, DigestRow(j)));
      Wire.PutRowInjective(DIGEST_LAYOUT, DigestRow(i), DigestRow(j));
    }
  }

  /** So the clock reaches the digest only through the freshness band. */
  lemma DigestIgnoresClock(i: AssessmentInput, now: Timestamp)
    ensures Digest(i) == Digest(i.(now := now)) <==> FreshnessIn(i) == FreshnessIn(i.(now := now))
  {
    hide Digest, FreshnessIn, Target, TargetReadiness, FreshnessCode, HealthCode, ReadinessCode;
    var j := i.(now := now);
    DigestInjective(i, j);
    TargetIgnoresClock(i, now);
    if Digest(i) == Digest(j) {
      assert DigestRow(i)[5] == DigestRow(j)[5];
      assert FreshnessOf(FreshnessCode(FreshnessIn(i))) == FreshnessOf(FreshnessCode(FreshnessIn(j)));
    }
  }

  lemma TargetIgnoresClock(i: AssessmentInput, now: Timestamp)
    ensures FreshnessIn(i) == FreshnessIn(i.(now := now)) ==>
      Target(i) == Target(i.(now := now)) && TargetReadiness(i) == TargetReadiness(i.(now := now))
  {
    hide EvidenceFreshness, AnyFailed, AnyFatalDimension, AsInt32, Evaluate;
  }

  // ---- The assessment ----

  function ConfidenceOf(i: AssessmentInput, floats: FloatTable): U32 {
    var key := ConfidenceKey(i.inRecovery, i.quarantined, FreshnessIn(i), Target(i), Shallow(i),
                             i.faultStats.hasOpenCritical);
    if key in floats then floats[key] else 0
  }

  function Assess(i: AssessmentInput, floats: FloatTable): HealthAssessment {
    HealthAssessment(
      0, i.accelerator, i.uuid, Target(i), TargetReadiness(i).state, i.highestValidationDepth,
      ConfidenceOf(i, floats), ActionFor(i), TargetReadiness(i).executionReady, i.quarantined, 0,
      i.inRecovery, i.now, 0, 0, 0, ReasonsFor(i), Digest(i))
  }

  /** The target cascade as the engine runs it, over the results of one scan. */
  method ChooseTarget(i: AssessmentInput, scan: Scan, freshness: FreshnessStatus) returns (target: HealthState)
    requires scan.anyFailed <==> AnyFailed(i.dimensions)
    requires scan.anyFatal <==> AnyFatalDimension(i.dimensions)
    requires freshness == FreshnessIn(i)
    ensures target == Target(i)
  {
    var consecutive := AsInt32(i.faultStats.consecutiveLatest);
    target := i.currentState;
    if i.inRecovery {
      if target != Recovering && target != Revalidating && target != Draining && target != Drained {
        target := Recovering;
      }
    } else if i.quarantined {
      target := Quarantined;
    } else if i.faultStats.hasOpenFatal || scan.anyFatal {
      target := Failed;
    } else if scan.anyFailed {
      target := Unhealthy;
    } else if i.faultStats.hasOpenCritical && consecutive >= AsInt32(i.policy.quarantineAfterFailures) {
      target := Quarantined;
    } else if consecutive >= AsInt32(i.policy.unhealthyAfterFailures) {
      target := Unhealthy;
    } else if consecutive >= AsInt32(i.policy.degradeAfterFailures) {
      target := Degraded;
    } else if freshness == Expired || freshness == Stale {
      if target == Healthy {
        target := Degraded;
      }
    } else {
      target := Healthy;
    }
  }

  /** The reasons, pushed one by one. */
  method CollectReasons(i: AssessmentInput, scan: Scan, freshness: FreshnessStatus, target: HealthState)
    returns (reasons: seq<string>)
    requires scan.anyFailed <==> AnyFailed(i.dimensions)
    requires scan.anyDegraded <==> AnyDegraded(i.dimensions)
    requires scan.worstReason == WorstBelow(i.dimensions, DIMENSION_KINDS).reason
    requires freshness == FreshnessIn(i) && target == Target(i)
    ensures reasons == ReasonsFor(i)
  {
    hide AnyFailed, AnyDegraded, WorstBelow, Target, FreshnessIn, Decimal, AsInt32, If;
    var consecutive := AsInt32(i.faultStats.consecutiveLatest);
    var worst := if scan.worstReason == "" then "unknown" else scan.worstReason;
    reasons := If(i.inRecovery, "device in recovery/revalidation");
    reasons := reasons + If(i.quarantined, "quarantine active");
    reasons := reasons + If(i.faultStats.hasOpenFatal, "open fatal fault present");
    var finding := [];
    if scan.anyFailed {
      finding := ["dimension failure: " + worst];
    } else if scan.anyDegraded {
      finding := ["dimension degraded: " + worst];
    }
    reasons := reasons + finding;
    var repeated := consecutive >= AsInt32(i.policy.degradeAfterFailures);
    reasons := reasons + If(repeated, "repeated failures: " + Decimal(consecutive));
    reasons := reasons + If(freshness == Stale, "evidence stale");
    reasons := reasons + If(freshness == Expired, "evidence expired");
    reasons := reasons + If(i.highestValidationDepth < i.policy.requiredValidationDepth,
        "validation depth below required");
    reasons := reasons + If(i.deviceGenerationChanged, "device generation changed");
    reasons := reasons + If(i.policyGenerationChanged, "policy generation changed");
    assert reasons == FindingsIn(i);
    if reasons == [] && target == Healthy { reasons := reasons + ["all evidence nominal and fresh"]; }
    if reasons == [] { reasons := reasons + ["no adverse evidence"]; }
  }

  method ChooseAction(i: AssessmentInput, target: HealthState) returns (action: ActionRequired)
    requires target == Target(i)
    ensures action == ActionFor(i)
  {
    hide Target;
    if i.quarantined {
      return ACTION_RECOVER;
    } else if target == Failed {
      return ACTION_DRAIN;
    } else if target == Unhealthy {
      return ACTION_DRAIN;
    } else if target == Quarantined {
      return ACTION_QUARANTINE;
    } else if i.inRecovery || i.highestValidationDepth < i.policy.requiredValidationDepth {
      return ACTION_REVALIDATE;
    } else if target == Degraded {
      return ACTION_MONITOR;
    }
    return ACTION_NONE;
  }

  /** The digested fields, written one after the other and turned into text. */
  method WriteDigest(i: AssessmentInput, target: HealthState, readiness: ReadinessState, freshness: FreshnessStatus)
    returns (digest: string)
    requires target == Target(i) && readiness == TargetReadiness(i).state && freshness == FreshnessIn(i)
    ensures digest == Digest(i)
  {
    hide Target, FreshnessIn, TargetReadiness;
    var row: Wire.Row :=
      [Wire.VNum(i.accelerator), Wire.VNum(i.uuid), Wire.VNum(i.deviceGeneration), Wire.VNum(HealthCode(target)),
       Wire.VNum(ReadinessCode(readiness)), Wire.VNum(FreshnessCode(freshness)), Wire.VNum(i.highestValidationDepth),
       Wire.VNum(i.policy.requiredValidationDepth), Wire.VNum(i.faultStats.total),
       Wire.VNum(i.faultStats.criticalFatalOpen), Wire.VNum(i.faultStats.consecutiveLatest),
       Wire.VFlag(i.faultStats.hasOpenFatal), Wire.VFlag(i.faultStats.hasOpenCritical),
       Wire.VNum(i.policy.degradeAfterFailures), Wire.VNum(i.policy.unhealthyAfterFailures),
       Wire.VNum(i.policy.quarantineAfterFailures)];
    assert row == DigestRow(i);
    DigestRowFits(i);
    var w := new WireIO.Writer();
    w.Fields(DIGEST_LAYOUT, row);
    assert w.buf == Wire.PutRow(DIGEST_LAYOUT, row);
    var hex := Wire.ToHex(w.buf);
    digest := "ah-" + hex;
  }

  method RunAssessment(i: AssessmentInput, floats: FloatTable) returns (a: HealthAssessment)
    ensures a == Assess(i, floats)
  {
    hide Target, FreshnessIn, ReasonsFor, DigestRow, AnyFailed, AnyDegraded, AnyFatalDimension, WorstBelow, ActionFor,
      Digest, Evaluate;
    var freshness := EvidenceFreshness(i.policy, i.lastObservation, i.now);
    FreshnessIsEvidenceFreshness(i);
    var scan := ScanDimensions(i.dimensions);
    var target := ChooseTarget(i, scan, freshness);
    var reasons := CollectReasons(i, scan, freshness, target);
    var action := ChooseAction(i, target);
    var readiness := Evaluate(ReadinessInput(
      target, freshness, i.highestValidationDepth, i.policy.requiredValidationDepth, i.quarantined, i.inRecovery,
      i.deviceGenerationChanged, i.policyGenerationChanged, false, i.policy.allowDegradedReadiness, false));
    var digest := WriteDigest(i, target, readiness.state, freshness);
    a := HealthAssessment(
      0, i.accelerator, i.uuid, target, readiness.state, i.highestValidationDepth, ConfidenceOf(i, floats),
      action, readiness.executionReady, i.quarantined, 0, i.inRecovery, i.now, 0, 0, 0, reasons, digest);
  }

  lemma FreshnessIsEvidenceFreshness(i: AssessmentInput)
    ensures FreshnessIn(i) == EvidenceFreshness(i.policy, i.lastObservation, i.now)
  {
  }
}
