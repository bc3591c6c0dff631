/** What an assessment says in words and in its digest. */
module Explanations {
  import opened Enums
  import opened Records
  import opened Readiness
  import opened FaultHistory
  import opened Assessment
  import opened Limits
  import opened Wire

  // ---- The finding that is quoted ----

  predicate Adverse(r: HealthDimension) {
    (r.state == DimFailed || r.state == DimDegraded) && r.severity > SEVERITY_INFO
  }

  /** The reading of kind `k` is the one to quote: no other is more severe, and none of a smaller
      kind is as severe. */
  ghost predicate IsQuoted(dims: map<DimensionKind, HealthDimension>, k: DimensionKind, n: nat) {
    && k in dims && k < n && Adverse(dims[k])
    && forall j :: j in dims && j < n && Adverse(dims[j]) ==>
         dims[j].severity <= dims[k].severity && (j < k ==> dims[j].severity < dims[k].severity)
  }

  ghost predicate NothingAdverse(dims: map<DimensionKind, HealthDimension>, n: nat) {
    forall k :: k in dims && k < n ==> !Adverse(dims[k])
  }

  /** The fold over the first `n` kinds has found what there is to quote among them. */
  ghost predicate Found(dims: map<DimensionKind, HealthDimension>, n: nat, w: Worst) {
    || (NothingAdverse(dims, n) && w == Worst(SEVERITY_INFO, ""))
    || exists k :: IsQuoted(dims, k, n) && w == Worst(dims[k].severity, dims[k].reason)
  }

  lemma FoundNext(dims: map<DimensionKind, HealthDimension>, n: nat, w: Worst)
    requires n < DIMENSION_KINDS && Found(dims, n, w)
    ensures Found(dims, n + 1,
                  if n in dims && Adverse(dims[n]) && dims[n].severity > w.severity
                  then Worst(dims[n].severity, dims[n].reason) else w)
  {
    if NothingAdverse(dims, n) && w == Worst(SEVERITY_INFO, "") {
      if n in dims && Adverse(dims[n]) {
        assert IsQuoted(dims, n, n + 1);
      }
    } else {
      var k :| IsQuoted(dims, k, n) && w == Worst(dims[k].severity, dims[k].reason);
      if n in dims && Adverse(dims[n]) && dims[n].severity > dims[k].severity {
        assert IsQuoted(dims, n, n + 1);
      } else {
        assert IsQuoted(dims, k, n + 1);
      }
    }
  }

  lemma {:induction false} QuotedBelow(dims: map<DimensionKind, HealthDimension>, n: nat)
    requires n <= DIMENSION_KINDS
    ensures Found(dims, n, WorstBelow(dims, n))
  {
    hide Found;
    if n > 0 {
      QuotedBelow(dims, n - 1);
      FoundNext(dims, n - 1, WorstBelow(dims, n - 1));
    } else {
      NoneFound(dims);
    }
  }

  lemma NoneFound(dims: map<DimensionKind, HealthDimension>)
    ensures Found(dims, 0, Worst(SEVERITY_INFO, ""))
  {
  }

  /** The reading quoted is the most severe adverse one, and of equals the one of the smallest
      kind; a reading of severity INFO is never quoted. */
  lemma QuotesTheWorst(i: AssessmentInput)
    ensures || (NothingAdverse(i.dimensions, DIMENSION_KINDS) && WorstText(i) == "unknown")
            || exists k ::
                 && IsQuoted(i.dimensions, k, DIMENSION_KINDS)
                 && WorstText(i) == if i.dimensions[k].reason == "" then "unknown" else i.dimensions[k].reason
  {
    QuotedBelow(i.dimensions, DIMENSION_KINDS);
  }

  // ---- The reasons ----

  function OneIf(b: bool): nat {
    if b then 1 else 0
  }

  predicate Repeated(i: AssessmentInput) {
    AsInt32(i.faultStats.consecutiveLatest) >= AsInt32(i.policy.degradeAfterFailures)
  }

  /** The findings, cause by cause. */
  function Part(i: AssessmentInput, n: nat): seq<string> {
    match n
    case 0 => If(i.inRecovery, "device in recovery/revalidation")
    case 1 => If(i.quarantined, "quarantine active")
    case 2 => If(i.faultStats.hasOpenFatal, "open fatal fault present")
    case 3 => Finding(i)
    case 4 => If(Repeated(i), "repeated failures: " + Decimal(AsInt32(i.faultStats.consecutiveLatest)))
    case 5 => If(EvidenceFreshness(i.policy, i.lastObservation, i.now) == Stale, "evidence stale")
    case 6 => If(EvidenceFreshness(i.policy, i.lastObservation, i.now) == Expired, "evidence expired")
    case 7 => If(i.highestValidationDepth < i.policy.requiredValidationDepth, "validation depth below required")
    case 8 => If(i.deviceGenerationChanged, "device generation changed")
    case 9 => If(i.policyGenerationChanged, "policy generation changed")
    case _ => []
  }

  lemma FindingsAreParts(i: AssessmentInput)
    ensures FindingsIn(i) ==
      Part(i, 0) + Part(i, 1) + Part(i, 2) + Part(i, 3) + Part(i, 4)
      + Part(i, 5) + Part(i, 6) + Part(i, 7) + Part(i, 8) + Part(i, 9)
  {
    hide If, Decimal, AsInt32, AnyFailed, AnyDegraded, WorstBelow, EvidenceFreshness;
  }

  lemma InParts(i: AssessmentInput, n: nat, t: string)
    requires n < 10 && t in Part(i, n)
    ensures t in ReasonsFor(i)
  {
    hide Part, FindingsIn, Target;
    FindingsAreParts(i);
  }

  /** Each cause is named. */
  lemma CausesAreNamed(i: AssessmentInput)
    ensures i.inRecovery ==> "device in recovery/revalidation" in ReasonsFor(i)
    ensures i.quarantined ==> "quarantine active" in ReasonsFor(i)
    ensures i.faultStats.hasOpenFatal ==> "open fatal fault present" in ReasonsFor(i)
    ensures AnyFailed(i.dimensions) ==> "dimension failure: " + WorstText(i) in ReasonsFor(i)
    ensures !AnyFailed(i.dimensions) && AnyDegraded(i.dimensions) ==>
              "dimension degraded: " + WorstText(i) in ReasonsFor(i)
    ensures Repeated(i) ==>
              "repeated failures: " + Decimal(AsInt32(i.faultStats.consecutiveLatest)) in ReasonsFor(i)
  {
    hide ReasonsFor, Decimal, AsInt32, AnyFailed, AnyDegraded, WorstText;
    forall n: nat, t | n < 10 && t in Part(i, n) ensures t in ReasonsFor(i) {
      InParts(i, n, t);
    }
    assert i.inRecovery ==> "device in recovery/revalidation" in Part(i, 0);
    assert i.quarantined ==> "quarantine active" in Part(i, 1);
    assert i.faultStats.hasOpenFatal ==> "open fatal fault present" in Part(i, 2);
    assert AnyFailed(i.dimensions) ==> "dimension failure: " + WorstText(i) in Part(i, 3);
    assert !AnyFailed(i.dimensions) && AnyDegraded(i.dimensions) ==>
        "dimension degraded: " + WorstText(i) in Part(i, 3);
    assert Repeated(i) ==>
        "repeated failures: " + Decimal(AsInt32(i.faultStats.consecutiveLatest)) in Part(i, 4);
  }

  lemma DoubtsAreNamed(i: AssessmentInput)
    ensures EvidenceFreshness(i.policy, i.lastObservation, i.now) == Stale ==> "evidence stale" in ReasonsFor(i)
    ensures EvidenceFreshness(i.policy, i.lastObservation, i.now) == Expired ==> "evidence expired" in ReasonsFor(i)
    ensures i.highestValidationDepth < i.policy.requiredValidationDepth ==>
              "validation depth below required" in ReasonsFor(i)
    ensures i.deviceGenerationChanged ==> "device generation changed" in ReasonsFor(i)
    ensures i.policyGenerationChanged ==> "policy generation changed" in ReasonsFor(i)
  {
    hide ReasonsFor, EvidenceFreshness;
    forall n: nat, t | n < 10 && t in Part(i, n) ensures t in ReasonsFor(i) {
      InParts(i, n, t);
    }
    assert EvidenceFreshness(i.policy, i.lastObservation, i.now) == Stale ==> "evidence stale" in Part(i, 5);
    assert EvidenceFreshness(i.policy, i.lastObservation, i.now) == Expired ==> "evidence expired" in Part(i, 6);
    assert i.highestValidationDepth < i.policy.requiredValidationDepth ==>
        "validation depth below required" in Part(i, 7);
    assert i.deviceGenerationChanged ==> "device generation changed" in Part(i, 8);
    assert i.policyGenerationChanged ==> "policy generation changed" in Part(i, 9);
  }

  predicate Cause(i: AssessmentInput, n: nat) {
    match n
    case 0 => i.inRecovery
    case 1 => i.quarantined
    case 2 => i.faultStats.hasOpenFatal
    case 3 => AnyFailed(i.dimensions) || AnyDegraded(i.dimensions)
    case 4 => Repeated(i)
    case 5 => EvidenceFreshness(i.policy, i.lastObservation, i.now) == Stale
    case 6 => EvidenceFreshness(i.policy, i.lastObservation, i.now) == Expired
    case 7 => i.highestValidationDepth < i.policy.requiredValidationDepth
    case 8 => i.deviceGenerationChanged
    case 9 => i.policyGenerationChanged
    case _ => false
  }

  function Causes(i: AssessmentInput, n: nat): nat {
    if n == 0 then 0 else Causes(i, n - 1) + OneIf(Cause(i, n - 1))
  }

  lemma PartLength(i: AssessmentInput, n: nat)
    ensures |Part(i, n)| == OneIf(Cause(i, n))
  {
    hide AnyFailed, AnyDegraded, Repeated, EvidenceFreshness, Decimal, AsInt32, WorstText;
  }

  lemma FindingsLength(i: AssessmentInput)
    ensures |FindingsIn(i)| == Causes(i, 10)
  {
    hide Part, FindingsIn, Causes;
    FindingsAreParts(i);
    FirstCauses(i);
    LastCauses(i);
  }

  lemma FirstCauses(i: AssessmentInput)
    ensures Causes(i, 5) ==
      |Part(i, 0)| + |Part(i, 1)| + |Part(i, 2)| + |Part(i, 3)| + |Part(i, 4)|
  {
    hide Part, Cause;
    PartLength(i, 0);
    PartLength(i, 1);
    PartLength(i, 2);
    PartLength(i, 3);
    PartLength(i, 4);
    assert Causes(i, 1) == |Part(i, 0)|;
    assert Causes(i, 2) == Causes(i, 1) + |Part(i, 1)|;
    assert Causes(i, 4) == Causes(i, 2) + |Part(i, 2)| + |Part(i, 3)|;
  }

  lemma LastCauses(i: AssessmentInput)
    ensures Causes(i, 10) ==
      Causes(i, 5) + |Part(i, 5)| + |Part(i, 6)| + |Part(i, 7)| + |Part(i, 8)| + |Part(i, 9)|
  {
    hide Part, Cause;
    PartLength(i, 5);
    PartLength(i, 6);
    PartLength(i, 7);
    PartLength(i, 8);
    PartLength(i, 9);
    assert Causes(i, 7) == Causes(i, 5) + |Part(i, 5)| + |Part(i, 6)|;
    assert Causes(i, 9) == Causes(i, 7) + |Part(i, 7)| + |Part(i, 8)|;
  }

  /** And nothing else is said: there are as many reasons as causes, and without a cause one. */
  lemma NothingElseIsNamed(i: AssessmentInput)
    ensures |ReasonsFor(i)| == if Causes(i, 10) == 0 then 1 else Causes(i, 10)
    ensures Causes(i, 10) == 0 ==>
              ReasonsFor(i) ==
              [if Target(i) == Healthy then "all evidence nominal and fresh" else "no adverse evidence"]
  {
    hide FindingsIn, Causes, Target;
    FindingsLength(i);
  }

  // ---- Numbers ----

  function Digits(s: string): int {
    if s == "" then 0 else 10 * Digits(s[..|s| - 1]) + (s[|s| - 1] as int - '0' as int)
  }

  function Value(s: string): int {
    if s != "" && s[0] == '-' then -Digits(s[1..]) else Digits(s)
  }

  lemma {:induction false} DecimalOfNatReads(n: nat)
    ensures Digits(Decimal(n)) == n && Decimal(n) != "" && Decimal(n)[0] != '-'
  {
    if n >= 10 {
      DecimalOfNatReads(n / 10);
      assert Decimal(n)[..|Decimal(n)| - 1] == Decimal(n / 10);
    } else {
      assert Decimal(n)[..0] == "";
    }
  }

  /** The count that is quoted reads back as the number it is. */
  lemma DecimalReadsBack(n: int)
    ensures Value(Decimal(n)) == n
  {
    if n < 0 {
      DecimalOfNatReads(-n);
      assert Decimal(n)[1..] == Decimal(-n);
    } else {
      DecimalOfNatReads(n);
    }
  }

  // ---- The confidence ----

  /** What the confidence depends on: two assessments have one confidence, whatever the arithmetic
      makes of it, exactly when they agree in recovery, quarantine, freshness band, target,
      shallow validation and open critical faults. */
  lemma ConfidenceFollows(i: AssessmentInput, j: AssessmentInput)
    ensures (forall floats :: ConfidenceOf(i, floats) == ConfidenceOf(j, floats)) <==>
      && i.inRecovery == j.inRecovery && i.quarantined == j.quarantined
      && EvidenceFreshness(i.policy, i.lastObservation, i.now) == EvidenceFreshness(j.policy, j.lastObservation, j.now)
      && Target(i) == Target(j)
      && (i.highestValidationDepth < i.policy.requiredValidationDepth <==>
            j.highestValidationDepth < j.policy.requiredValidationDepth)
      && i.faultStats.hasOpenCritical == j.faultStats.hasOpenCritical
  {
    hide Target, EvidenceFreshness;
    var key := ConfidenceKey(i.inRecovery, i.quarantined, FreshnessIn(i), Target(i), Shallow(i),
                             i.faultStats.hasOpenCritical);
    var floats: FloatTable := map[key := 1];
    assert ConfidenceOf(i, floats) == 1;
    if forall f :: ConfidenceOf(i, f) == ConfidenceOf(j, f) {
      assert ConfidenceOf(j, floats) == 1;
    }
  }

  // ---- The digest ----

  /** Two assessments carry one digest exactly when they agree in the device and its generation,
      the state aimed at, the verdict, the freshness band, the validation depth reached and
      required, the statistics of the faults and the three thresholds. */
  lemma DigestTells(i: AssessmentInput, j: AssessmentInput)
    ensures Digest(i) == Digest(j) <==>
      && i.accelerator == j.accelerator && i.uuid == j.uuid && i.deviceGeneration == j.deviceGeneration
      && Target(i) == Target(j) && TargetReadiness(i).state == TargetReadiness(j).state
      && FreshnessIn(i) == FreshnessIn(j)
      && i.highestValidationDepth == j.highestValidationDepth
      && i.policy.requiredValidationDepth == j.policy.requiredValidationDepth
      && i.faultStats == j.faultStats
      && i.policy.degradeAfterFailures == j.policy.degradeAfterFailures
      && i.policy.unhealthyAfterFailures == j.policy.unhealthyAfterFailures
      && i.policy.quarantineAfterFailures == j.policy.quarantineAfterFailures
  {
    hide Digest, DigestRow, Target, TargetReadiness, FreshnessIn;
    DigestInjective(i, j);
    DigestRowTells(i, j);
    CodesTell(Target(i), Target(j));
    VerdictCodesTell(TargetReadiness(i).state, TargetReadiness(j).state);
    BandCodesTell(FreshnessIn(i), FreshnessIn(j));
  }

  lemma DigestRowTells(i: AssessmentInput, j: AssessmentInput)
    ensures DigestRow(i) == DigestRow(j) <==>
      && i.accelerator == j.accelerator && i.uuid == j.uuid && i.deviceGeneration == j.deviceGeneration
      && HealthCode(Target(i)) == HealthCode(Target(j))
      && ReadinessCode(TargetReadiness(i).state) == ReadinessCode(TargetReadiness(j).state)
      && FreshnessCode(FreshnessIn(i)) == FreshnessCode(FreshnessIn(j))
      && i.highestValidationDepth == j.highestValidationDepth
      && i.policy.requiredValidationDepth == j.policy.requiredValidationDepth
      && i.faultStats == j.faultStats
      && i.policy.degradeAfterFailures == j.policy.degradeAfterFailures
      && i.policy.unhealthyAfterFailures == j.policy.unhealthyAfterFailures
      && i.policy.quarantineAfterFailures == j.policy.quarantineAfterFailures
  {
    hide HealthCode, ReadinessCode, FreshnessCode, Target, TargetReadiness, FreshnessIn;
    var r, q := DigestRow(i), DigestRow(j);
    RowsAgree(r, q);
  }

  lemma RowsAgree(r: Row, q: Row)
    requires |r| == |q| == 16
    ensures r == q <==>
      && r[0] == q[0] && r[1] == q[1] && r[2] == q[2] && r[3] == q[3] && r[4] == q[4] && r[5] == q[5]
      && r[6] == q[6] && r[7] == q[7] && r[8] == q[8] && r[9] == q[9] && r[10] == q[10] && r[11] == q[11]
      && r[12] == q[12] && r[13] == q[13] && r[14] == q[14] && r[15] == q[15]
  {
  }

  lemma CodesTell(a: HealthState, b: HealthState)
    ensures HealthCode(a) == HealthCode(b) <==> a == b
  {
    assert HealthOf(HealthCode(a)) == a && HealthOf(HealthCode(b)) == b;
  }

  lemma VerdictCodesTell(a: ReadinessState, b: ReadinessState)
    ensures ReadinessCode(a) == ReadinessCode(b) <==> a == b
  {
    assert ReadinessOf(ReadinessCode(a)) == a && ReadinessOf(ReadinessCode(b)) == b;
  }

  lemma BandCodesTell(a: FreshnessStatus, b: FreshnessStatus)
    ensures FreshnessCode(a) == FreshnessCode(b) <==> a == b
  {
    assert FreshnessOf(FreshnessCode(a)) == a && FreshnessOf(FreshnessCode(b)) == b;
  }
}
