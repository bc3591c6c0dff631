/** Which runs stay within the limits of the file format: bounds on the events of a run under
    which everything the store holds, what it writes itself included, can be saved. */
module Limits {
  import opened Enums
  import opened Records
  import opened FaultHistory
  import opened Assessment
  import opened Wire
  import opened RecordCodecs

  /** No text fixed in the program is longer than this, and no digest. */
  const OWN_TEXT: nat := 512

  /** A bound on the length of texts that leaves room for those. */
  type TextLimit = m: nat | m >= OWN_TEXT witness OWN_TEXT

  // ---- Texts the assessment writes ----

  function Pow10(k: nat): nat {
    if k == 0 then 1 else 10 * Pow10(k - 1)
  }

  lemma {:induction false} DecimalOfNat(n: nat, k: nat)
    requires k >= 1 && n < Pow10(k)
    ensures |Decimal(n)| <= k && IsBytes(Decimal(n))
    decreases k
  {
    if n >= 10 {
      DecimalOfNat(n / 10, k - 1);
    }
  }

  lemma TenDigits()
    ensures Pow10(10) == 10_000_000_000
  {
    assert Pow10(5) == 100_000;
    assert Pow10(7) == 100 * Pow10(5);
    assert Pow10(9) == 100 * Pow10(7);
  }

  lemma DecimalIsShort(n: int)
    requires -0x8000_0000 <= n < 0x8000_0000
    ensures |Decimal(n)| <= 11 && IsBytes(Decimal(n))
  {
    TenDigits();
    DecimalOfNat(if n < 0 then -n else n, 10);
  }

  lemma {:induction false} HexIsBytes(bs: seq<byte>)
    ensures IsBytes(Hex(bs))
  {
    if bs != [] {
      HexIsBytes(bs[..|bs| - 1]);
    }
  }

  predicate IsScalar(ty: Ty) {
    !ty.TText? && !ty.TList? && !ty.TOpt? && !ty.TRow?
  }

  lemma {:induction false} ScalarRowLength(tys: seq<Ty>, vs: Row)
    requires FitsRow(tys, vs) && forall i :: 0 <= i < |tys| ==> IsScalar(tys[i])
    ensures |PutRow(tys, vs)| <= 8 * |tys|
  {
    if tys != [] {
      assert Fits(tys[0], vs[0]);
      assert FitsRow(tys[1..], vs[1..]);
      ScalarRowLength(tys[1..], vs[1..]);
      assert IsScalar(tys[0]);
    }
  }

  lemma DigestIsShort(i: AssessmentInput)
    ensures Within(Digest(i), OWN_TEXT)
  {
    hide DigestRow, Hex, PutRow;
    DigestRowFits(i);
    assert forall k :: 0 <= k < |DIGEST_LAYOUT| ==> IsScalar(DIGEST_LAYOUT[k]);
    ScalarRowLength(DIGEST_LAYOUT, DigestRow(i));
    HexIsBytes(PutRow(DIGEST_LAYOUT, DigestRow(i)));
  }

  // Texts fixed in the program.

  lemma StandingTexts()
    ensures Within("device in recovery/revalidation", OWN_TEXT) && Within("quarantine active", OWN_TEXT)
  {
  }

  lemma EvidenceTexts()
    ensures Within("open fatal fault present", OWN_TEXT)
    ensures Within("evidence stale", OWN_TEXT) && Within("evidence expired", OWN_TEXT)
  {
  }

  lemma DepthText()
    ensures Within("validation depth below required", OWN_TEXT)
  {
  }

  lemma ChangeTexts()
    ensures Within("device generation changed", OWN_TEXT) && Within("policy generation changed", OWN_TEXT)
  {
  }

  lemma FallbackTexts()
    ensures Within("all evidence nominal and fresh", OWN_TEXT) && Within("no adverse evidence", OWN_TEXT)
  {
  }

  lemma PrefixTexts()
    ensures IsBytes("dimension failure: ") && |"dimension failure: "| == 19
    ensures IsBytes("dimension degraded: ") && |"dimension degraded: "| == 20
    ensures IsBytes("repeated failures: ") && |"repeated failures: "| == 19 && IsBytes("unknown")
  {
  }

  predicate AllWithin(rs: seq<string>, m: nat) {
    forall i :: 0 <= i < |rs| ==> Within(rs[i], m)
  }

  lemma AllWithinConcat(a: seq<string>, b: seq<string>, m: nat)
    ensures AllWithin(a + b, m) <==> AllWithin(a, m) && AllWithin(b, m)
  {
    hide Within;
    var c := a + b;
    assert forall i :: 0 <= i < |a| ==> c[i] == a[i];
    assert forall i :: 0 <= i < |b| ==> c[|a| + i] == b[i];
  }

  lemma IfWithin(b: bool, t: string, m: TextLimit)
    requires Within(t, OWN_TEXT)
    ensures AllWithin(If(b, t), m) && |If(b, t)| <= 1
  {
    hide IsBytes;
  }

  lemma BytesConcat(a: string, b: string)
    requires IsBytes(a) && IsBytes(b)
    ensures IsBytes(a + b)
  {
  }

  /** The text of the worst dimension, as it is quoted in a reason. */
  function WorstText(i: AssessmentInput): string {
    var worst := WorstBelow(i.dimensions, DIMENSION_KINDS).reason;
    if worst == "" then "unknown" else worst
  }

  function Finding(i: AssessmentInput): seq<string> {
    if AnyFailed(i.dimensions) then ["dimension failure: " + WorstText(i)]
    else if AnyDegraded(i.dimensions) then ["dimension degraded: " + WorstText(i)] else []
  }

  /** The one reason whose length the program does not bound has at most `m` characters. */
  predicate FindingFits(i: AssessmentInput, m: nat) {
    && (AnyFailed(i.dimensions) ==> |WorstText(i)| <= m - 19)
    && (!AnyFailed(i.dimensions) && AnyDegraded(i.dimensions) ==> |WorstText(i)| <= m - 20)
  }

  lemma {:induction false} WorstIsBytes(dims: map<DimensionKind, HealthDimension>, n: nat)
    requires n <= DIMENSION_KINDS && forall k :: k in dims ==> IsBytes(dims[k].reason)
    ensures IsBytes(WorstBelow(dims, n).reason)
  {
    if n > 0 {
      WorstIsBytes(dims, n - 1);
    }
  }

  lemma FindingWithin(i: AssessmentInput, m: TextLimit)
    requires forall k :: k in i.dimensions ==> IsBytes(i.dimensions[k].reason)
    ensures AllWithin(Finding(i), m) <==> FindingFits(i, m)
  {
    hide WorstBelow, AnyFailed, AnyDegraded, IsBytes;
    PrefixTexts();
    WorstIsBytes(i.dimensions, DIMENSION_KINDS);
    BytesConcat("dimension failure: ", WorstText(i));
    BytesConcat("dimension degraded: ", WorstText(i));
    OneText("dimension failure: " + WorstText(i), m);
    OneText("dimension degraded: " + WorstText(i), m);
  }

  lemma OneText(t: string, m: nat)
    ensures AllWithin([t], m) <==> Within(t, m)
  {
    hide Within;
    assert [t][0] == t;
  }

  lemma RepeatsTextIsShort(i: AssessmentInput)
    ensures Within("repeated failures: " + Decimal(Consecutive(i)), OWN_TEXT)
  {
    hide IsBytes, Decimal;
    PrefixTexts();
    DecimalIsShort(Consecutive(i));
    BytesConcat("repeated failures: ", Decimal(Consecutive(i)));
  }

  /** Whatever the bound, every reason of an assessment keeps it exactly when the one that
      quotes a dimension does. */
  lemma ReasonsWithinExactly(i: AssessmentInput, m: TextLimit)
    requires forall k :: k in i.dimensions ==> IsBytes(i.dimensions[k].reason)
    ensures AllWithin(ReasonsFor(i), m) <==> FindingFits(i, m)
    ensures |ReasonsFor(i)| <= 10
  {
    hide Within, AllWithin, If, FindingFits, Target, FreshnessIn, Shallow, Decimal, Consecutive, AsInt32, WorstText;
    FindingWithin(i, m);
    FindingsWithin(i, m);
    FallbackWithin(m);
  }

  lemma FallbackWithin(m: TextLimit)
    ensures AllWithin(["all evidence nominal and fresh"], m) && AllWithin(["no adverse evidence"], m)
    ensures AllWithin([], m)
  {
    hide IsBytes;
    FallbackTexts();
  }

  lemma FindingsWithin(i: AssessmentInput, m: TextLimit)
    ensures AllWithin(FindingsIn(i), m) <==> AllWithin(Finding(i), m)
    ensures |FindingsIn(i)| <= 10
  {
    hide Within, AllWithin, If, Target, FreshnessIn, Shallow, Decimal, Consecutive, AsInt32, AnyFailed, AnyDegraded,
      WorstBelow, IsBytes;
    StandingTexts();
    EvidenceTexts();
    DepthText();
    ChangeTexts();
    RepeatsTextIsShort(i);
    var r1 := If(i.inRecovery, "device in recovery/revalidation");
    var r2 := If(i.quarantined, "quarantine active");
    var r3 := If(i.faultStats.hasOpenFatal, "open fatal fault present");
    var r5 := If(Consecutive(i) >= AsInt32(i.policy.degradeAfterFailures),
        "repeated failures: " + Decimal(Consecutive(i)));
    var r6 := If(FreshnessIn(i) == Stale, "evidence stale");
    var r7 := If(FreshnessIn(i) == Expired, "evidence expired");
    var r8 := If(Shallow(i), "validation depth below required");
    var r9 := If(i.deviceGenerationChanged, "device generation changed");
    var r10 := If(i.policyGenerationChanged, "policy generation changed");
    assert FindingsIn(i) == r1 + r2 + r3 + Finding(i) + r5 + r6 + r7 + r8 + r9 + r10;
    TenParts(r1, r2, r3, Finding(i), r5, r6, r7, r8, r9, r10, m);
    IfWithin(i.inRecovery, "device in recovery/revalidation", m);
    IfWithin(i.quarantined, "quarantine active", m);
    IfWithin(i.faultStats.hasOpenFatal, "open fatal fault present", m);
    IfWithin(Consecutive(i) >= AsInt32(i.policy.degradeAfterFailures),
        "repeated failures: " + Decimal(Consecutive(i)), m);
    IfWithin(FreshnessIn(i) == Stale, "evidence stale", m);
    IfWithin(FreshnessIn(i) == Expired, "evidence expired", m);
    IfWithin(Shallow(i), "validation depth below required", m);
    IfWithin(i.deviceGenerationChanged, "device generation changed", m);
    IfWithin(i.policyGenerationChanged, "policy generation changed", m);
  }

  lemma TenParts(a: seq<string>, b: seq<string>, c: seq<string>, d: seq<string>, e: seq<string>,
                 f: seq<string>, g: seq<string>, h: seq<string>, i: seq<string>, j: seq<string>, m: nat)
    ensures AllWithin(a + b + c + d + e + f + g + h + i + j, m) <==>
      && AllWithin(a, m) && AllWithin(b, m) && AllWithin(c, m) && AllWithin(d, m) && AllWithin(e, m)
      && AllWithin(f, m) && AllWithin(g, m) && AllWithin(h, m) && AllWithin(i, m) && AllWithin(j, m)
  {
    hide AllWithin;
    AllWithinConcat(a, b, m);
    AllWithinConcat(a + b, c, m);
    AllWithinConcat(a + b + c, d, m);
    AllWithinConcat(a + b + c + d, e, m);
    AllWithinConcat(a + b + c + d + e, f, m);
    AllWithinConcat(a + b + c + d + e + f, g, m);
    AllWithinConcat(a + b + c + d + e + f + g, h, m);
    AllWithinConcat(a + b + c + d + e + f + g + h, i, m);
    AllWithinConcat(a + b + c + d + e + f + g + h + i, j, m);
  }
}
