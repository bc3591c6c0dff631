/** How large the saved image of a store can get, told from the events of its run. */
module ImageSize {
  import opened Enums
  import opened Records
  import opened Devices
  import opened Wire
  import opened RecordCodecs
  import opened DeviceCodec
  import opened Persistence
  import opened Limits
  import opened SaveableRuns

  // ---- Fields and bytes ----

  /** The number of fields a value is written in, counts and presence bytes included. */
  function Fields(ty: Ty, v: Val): nat
    decreases ty, 0
  {
    match ty
    case TList(item) => 1 + (if v.VList? then RowsFields(item, v.rows) else 0)
    case TOpt(item) => 1 + (if v.VOpt? && v.opt.Some? then RowFields(item, v.opt.value) else 0)
    case TRow(item) => if v.VRow? then RowFields(item, v.row) else 0
    case _ => 1
  }

  function RowFields(tys: seq<Ty>, row: Row): nat
    decreases tys, 0
  {
    if tys == [] || row == [] then 0 else Fields(tys[0], row[0]) + RowFields(tys[1..], row[1..])
  }

  function RowsFields(tys: seq<Ty>, rows: seq<Row>): nat
    decreases tys, 1 + |rows|
  {
    if rows == [] then 0 else RowFields(tys, rows[0]) + RowsFields(tys, rows[1..])
  }

  /** No text in the value has more than `m` characters. */
  ghost predicate Short(ty: Ty, v: Val, m: nat)
    decreases ty
  {
    match ty
    case TText => v.VText? ==> |v.t| <= m
    case TList(item) => v.VList? ==> forall j :: 0 <= j < |v.rows| ==> ShortRow(item, v.rows[j], m)
    case TOpt(item) => v.VOpt? && v.opt.Some? ==> ShortRow(item, v.opt.value, m)
    case TRow(item) => v.VRow? ==> ShortRow(item, v.row, m)
    case _ => true
  }

  ghost predicate ShortRow(tys: seq<Ty>, row: Row, m: nat)
    decreases tys
  {
    |row| == |tys| && forall i :: 0 <= i < |tys| ==> Short(tys[i], row[i], m)
  }

  /** In every layout a field takes at most eight bytes more than the longest text. */
  lemma {:induction false} PutLength(ty: Ty, v: Val, m: nat)
    requires Fits(ty, v) && Short(ty, v, m)
    ensures |Put(ty, v)| <= Fields(ty, v) * (m + 8)
    decreases ty, 0
  {
    hide Put, Fields, Short, FitsRow;
    match ty
    case TList(item) => CountedLength(item, v.rows, m);
    case TOpt(item) => OptLength(item, v.opt, m);
    case TRow(item) => NestedLength(item, v.row, m);
    case _ => PlainLength(ty, v, m);
  }

  lemma PlainLength(ty: Ty, v: Val, m: nat)
    requires IsPlain(ty) && Fits(ty, v) && Short(ty, v, m)
    ensures |Put(ty, v)| <= Fields(ty, v) * (m + 8)
  {
    hide Put, Short;
    PlainBytes(ty, v, m);
    assert Fields(ty, v) == 1;
  }

  lemma PlainBytes(ty: Ty, v: Val, m: nat)
    requires IsPlain(ty) && Fits(ty, v) && Short(ty, v, m)
    ensures |Put(ty, v)| <= m + 8
  {
  }

  lemma {:induction false} CountedLength(item: seq<Ty>, rows: seq<Row>, m: nat)
    requires Fits(TList(item), VList(rows)) && Short(TList(item), VList(rows), m)
    ensures |Put(TList(item), VList(rows))| <= Fields(TList(item), VList(rows)) * (m + 8)
    decreases item, 2 + |rows|
  {
    hide FitsRow, ShortRow, PutRows, RowsFields;
    RowsLength(item, rows, m);
  }

  lemma {:induction false} OptLength(item: seq<Ty>, row: Option<Row>, m: nat)
    requires Fits(TOpt(item), VOpt(row)) && Short(TOpt(item), VOpt(row), m)
    ensures |Put(TOpt(item), VOpt(row))| <= Fields(TOpt(item), VOpt(row)) * (m + 8)
    decreases item, 2
  {
    hide FitsRow, ShortRow, PutRow, RowFields;
    if row.Some? {
      RowLength(item, row.value, m);
    }
  }

  lemma {:induction false} NestedLength(item: seq<Ty>, row: Row, m: nat)
    requires Fits(TRow(item), VRow(row)) && Short(TRow(item), VRow(row), m)
    ensures |Put(TRow(item), VRow(row))| <= Fields(TRow(item), VRow(row)) * (m + 8)
    decreases item, 2
  {
    hide FitsRow, ShortRow, PutRow, RowFields;
    RowLength(item, row, m);
  }

  lemma {:induction false} RowLength(tys: seq<Ty>, row: Row, m: nat)
    requires FitsRow(tys, row) && ShortRow(tys, row, m)
    ensures |PutRow(tys, row)| <= RowFields(tys, row) * (m + 8)
    decreases tys, 0
  {
    hide Put, Fields;
    if tys != [] {
      PutLength(tys[0], row[0], m);
      RowLength(tys[1..], row[1..], m);
      AddFields(Fields(tys[0], row[0]), RowFields(tys[1..], row[1..]), m);
    }
  }

  lemma AddFields(a: nat, b: nat, m: nat)
    ensures (a + b) * (m + 8) == a * (m + 8) + b * (m + 8)
  {
  }

  lemma {:induction false} RowsLength(tys: seq<Ty>, rows: seq<Row>, m: nat)
    requires forall j :: 0 <= j < |rows| ==> FitsRow(tys, rows[j]) && ShortRow(tys, rows[j], m)
    ensures |PutRows(tys, rows)| <= RowsFields(tys, rows) * (m + 8)
    decreases tys, 1 + |rows|
  {
    hide FitsRow, ShortRow, PutRow, RowFields;
    if rows != [] {
      RowLength(tys, rows[0], m);
      RowsLength(tys, rows[1..], m);
      AddFields(RowFields(tys, rows[0]), RowsFields(tys, rows[1..]), m);
    }
  }

  // ---- The fields of a device ----

  predicate IsPlain(ty: Ty) {
    !ty.TList? && !ty.TOpt? && !ty.TRow?
  }

  lemma {:induction false} PlainFields(tys: seq<Ty>, row: Row)
    requires |row| == |tys| && forall i :: 0 <= i < |tys| ==> IsPlain(tys[i])
    ensures RowFields(tys, row) == |tys|
  {
    if tys != [] {
      assert IsPlain(tys[0]);
      PlainFields(tys[1..], row[1..]);
    }
  }

  lemma {:induction false} PlainRows(tys: seq<Ty>, rows: seq<Row>)
    requires forall i :: 0 <= i < |tys| ==> IsPlain(tys[i])
    requires forall j :: 0 <= j < |rows| ==> |rows[j]| == |tys|
    ensures RowsFields(tys, rows) == |tys| * |rows|
    decreases rows
  {
    hide RowFields, IsPlain;
    if rows != [] {
      PlainFields(tys, rows[0]);
      PlainRows(tys, rows[1..]);
    }
  }

  /** Fields are counted part by part. */
  lemma {:induction false} FieldsAppend(xs: seq<Ty>, ys: seq<Ty>, a: Row, b: Row)
    requires |a| == |xs|
    ensures RowFields(xs + ys, a + b) == RowFields(xs, a) + RowFields(ys, b)
  {
    if xs == [] {
      assert a + b == b && xs + ys == ys;
    } else {
      assert (a + b)[1..] == a[1..] + b && (xs + ys)[1..] == xs[1..] + ys;
      FieldsAppend(xs[1..], ys, a[1..], b);
    }
  }

  lemma OneField(t: Ty, v: Val)
    ensures RowFields([t], [v]) == Fields(t, v)
  {
  }

  lemma TwoFields(s: Ty, t: Ty, a: Val, b: Val)
    ensures RowFields([s, t], [a, b]) == Fields(s, a) + Fields(t, b)
  {
    hide Fields, RowFields;
    assert [s, t] == [s] + [t] && [a, b] == [a] + [b];
    FieldsAppend([s], [t], [a], [b]);
    OneField(s, a);
    OneField(t, b);
  }

  lemma FourFields(s: seq<Ty>, a: Row)
    requires |s| == |a| == 4
    ensures RowFields(s, a) == Fields(s[0], a[0]) + Fields(s[1], a[1]) + Fields(s[2], a[2]) + Fields(s[3], a[3])
  {
    hide Fields, RowFields;
    assert s == [s[0], s[1]] + [s[2], s[3]] && a == [a[0], a[1]] + [a[2], a[3]];
    FieldsAppend([s[0], s[1]], [s[2], s[3]], [a[0], a[1]], [a[2], a[3]]);
    TwoFields(s[0], s[1], a[0], a[1]);
    TwoFields(s[2], s[3], a[2], a[3]);
  }

  lemma ElevenFields(t: seq<Ty>, r: Row)
    requires |t| == |r| == 11
    ensures RowFields(t, r) ==
      Fields(t[0], r[0]) + Fields(t[1], r[1]) + Fields(t[2], r[2]) + Fields(t[3], r[3])
      + Fields(t[4], r[4]) + Fields(t[5], r[5]) + Fields(t[6], r[6]) + Fields(t[7], r[7])
      + Fields(t[8], r[8]) + Fields(t[9], r[9]) + Fields(t[10], r[10])
  {
    hide Fields, RowFields;
    assert r == r[..4] + r[4..8] + r[8..10] + [r[10]] && t == t[..4] + t[4..8] + t[8..10] + [t[10]];
    FieldsAppend(t[..4] + t[4..8] + t[8..10], [t[10]], r[..4] + r[4..8] + r[8..10], [r[10]]);
    FieldsAppend(t[..4] + t[4..8], t[8..10], r[..4] + r[4..8], r[8..10]);
    FieldsAppend(t[..4], t[4..8], r[..4], r[4..8]);
    FourFields(t[..4], r[..4]);
    FourFields(t[4..8], r[4..8]);
    assert t[8..10] == [t[8], t[9]] && r[8..10] == [r[8], r[9]];
    TwoFields(t[8], t[9], r[8], r[9]);
    OneField(t[10], r[10]);
  }

  lemma AssessmentFields(a: HealthAssessment)
    requires |a.reasons| <= 10
    ensures RowFields(ASSESSMENT_LAYOUT, AssessmentRow(a)) <= 28
  {
    hide VerdictRow, StandingRow, ReasonRows, RowFields, RowsFields;
    VerdictFields(a);
    ReasonFields(a.reasons);
    FourFields(ASSESSMENT_LAYOUT, AssessmentRow(a));
  }

  lemma ReasonFields(rs: seq<string>)
    ensures RowsFields(REASON_LAYOUT, ReasonRows(rs)) == |rs|
  {
    hide RowsFields;
    PlainRows(REASON_LAYOUT, ReasonRows(rs));
  }

  lemma VerdictFields(a: HealthAssessment)
    ensures RowFields(VERDICT_LAYOUT, VerdictRow(a)) == 8 && RowFields(STANDING_LAYOUT, StandingRow(a)) == 8
  {
    hide RowFields;
    PlainFields(VERDICT_LAYOUT, VerdictRow(a));
    PlainFields(STANDING_LAYOUT, StandingRow(a));
  }

  lemma ScalarFields(d: Device)
    ensures RowFields(HEAD_LAYOUT, HeadRow(d)) == 10
    ensures RowFields(DATES_LAYOUT, DatesRow(d)) == 3 && RowFields(FLAGS_LAYOUT, FlagsRow(d)) == 4
  {
    hide RowFields;
    PlainFields(HEAD_LAYOUT, HeadRow(d));
    PlainFields(DATES_LAYOUT, DatesRow(d));
    PlainFields(FLAGS_LAYOUT, FlagsRow(d));
  }

  lemma CareFields(c: Care)
    ensures Fields(TOpt(QUARANTINE_LAYOUT), VOpt(ToOpt(QuarantineRow, c.quarantine))) <= 10
    ensures Fields(TOpt(RECOVERY_LAYOUT), VOpt(ToOpt(RecoveryRow, c.recovery))) <= 8
  {
    hide RowFields;
    if c.quarantine.Some? {
      PlainFields(QUARANTINE_LAYOUT, QuarantineRow(c.quarantine.value));
    }
    if c.recovery.Some? {
      PlainFields(RECOVERY_LAYOUT, RecoveryRow(c.recovery.value));
    }
  }

  lemma RecordFields(d: Device)
    ensures RowsFields(DIMENSION_LAYOUT, ToRows(DimensionRow, DimensionList(d.evidence.dimensions))) <= 198
    ensures RowsFields(FAULT_LAYOUT, ToRows(FaultRow, d.history.faults)) == 16 * |d.history.faults|
    ensures RowsFields(VALIDATION_LAYOUT, ToRows(ValidationRow, d.history.validations)) == 12 * |d.history.validations|
    ensures RowsFields(CHANGE_LAYOUT, ToRows(ChangeRow, d.health.changes)) == 10 * |d.health.changes|
  {
    hide RowsFields;
    PlainRows(DIMENSION_LAYOUT, ToRows(DimensionRow, DimensionList(d.evidence.dimensions)));
    PlainRows(FAULT_LAYOUT, ToRows(FaultRow, d.history.faults));
    PlainRows(VALIDATION_LAYOUT, ToRows(ValidationRow, d.history.validations));
    PlainRows(CHANGE_LAYOUT, ToRows(ChangeRow, d.health.changes));
  }

  /** What a device is written in, besides faults, validations and changes. */
  const DEVICE_FIELDS: nat := 266

  lemma DeviceFields(d: Device)
    requires d.evidence.recentEvidence == [] && |d.judgement.assessment.reasons| <= 10
    ensures RowFields(DEVICE_LAYOUT, DeviceRow(d)) <=
      DEVICE_FIELDS + 16 * |d.history.faults| + 12 * |d.history.validations| + 10 * |d.health.changes|
  {
    hide RowFields, RowsFields, ToRows, ToOpt, DimensionList, AssessmentRow, HeadRow, DatesRow, FlagsRow;
    ElevenFields(DEVICE_LAYOUT, DeviceRow(d));
    ScalarFields(d);
    AssessmentFields(d.judgement.assessment);
    CareFields(d.care);
    RecordFields(d);
    PlainRows(EVIDENCE_LAYOUT, ToRows(EvidenceRow, d.evidence.recentEvidence));
  }

  // ---- The texts of a device ----

  lemma {:induction false} ShortRows<T>(ty: seq<Ty>, row: T -> Row, xs: seq<T>, m: nat)
    requires forall i :: 0 <= i < |xs| ==> ShortRow(ty, row(xs[i]), m)
    ensures Short(TList(ty), VList(ToRows(row, xs)), m)
  {
    hide ShortRow;
  }

  lemma ShortHistory(h: History, m: nat)
    requires HistoryFits(h, m)
    ensures Short(TList(FAULT_LAYOUT), VList(ToRows(FaultRow, h.faults)), m)
    ensures Short(TList(VALIDATION_LAYOUT), VList(ToRows(ValidationRow, h.validations)), m)
  {
    hide Short, ShortRow;
    forall i | 0 <= i < |h.faults| ensures ShortRow(FAULT_LAYOUT, FaultRow(h.faults[i]), m) {
      ShortFault(h.faults[i], m);
    }
    ShortRows(FAULT_LAYOUT, FaultRow, h.faults, m);
    forall i | 0 <= i < |h.validations| ensures ShortRow(VALIDATION_LAYOUT, ValidationRow(h.validations[i]), m) {
      ShortValidation(h.validations[i], m);
    }
    ShortRows(VALIDATION_LAYOUT, ValidationRow, h.validations, m);
  }

  lemma ShortFault(f: Fault, m: nat)
    requires FaultFits(f, m)
    ensures ShortRow(FAULT_LAYOUT, FaultRow(f), m)
  {
  }

  lemma ShortValidation(v: ValidationRecord, m: nat)
    requires Within(v.detail, m)
    ensures ShortRow(VALIDATION_LAYOUT, ValidationRow(v), m)
  {
  }

  lemma ShortChanges(changes: seq<HealthChange>, pg: Counter, m: nat)
    requires EntriesFit(changes, pg, m)
    ensures Short(TList(CHANGE_LAYOUT), VList(ToRows(ChangeRow, changes)), m)
  {
    hide Short, ShortRow;
    forall i | 0 <= i < |changes| ensures ShortRow(CHANGE_LAYOUT, ChangeRow(changes[i]), m) {
      ShortChange(changes[i], m);
    }
    ShortRows(CHANGE_LAYOUT, ChangeRow, changes, m);
  }

  lemma ShortChange(c: HealthChange, m: nat)
    requires Within(c.tag, m) && Within(c.detail, m)
    ensures ShortRow(CHANGE_LAYOUT, ChangeRow(c), m)
  {
  }

  lemma ShortEvidence(e: EvidenceState, m: nat)
    requires EvidenceFits(e, m)
    ensures Short(TList(DIMENSION_LAYOUT), VList(ToRows(DimensionRow, DimensionList(e.dimensions))), m)
    ensures Short(TList(EVIDENCE_LAYOUT), VList(ToRows(EvidenceRow, e.recentEvidence)), m)
  {
    hide Short, ShortRow;
    var ds := DimensionList(e.dimensions);
    forall i | 0 <= i < |ds| ensures ShortRow(DIMENSION_LAYOUT, DimensionRow(ds[i]), m) {
      assert ds[i] in ds;
      ShortDimension(ds[i], m);
    }
    ShortRows(DIMENSION_LAYOUT, DimensionRow, ds, m);
    ShortRows(EVIDENCE_LAYOUT, EvidenceRow, e.recentEvidence, m);
  }

  lemma ShortDimension(d: HealthDimension, m: nat)
    requires Quotable(d, m)
    ensures ShortRow(DIMENSION_LAYOUT, DimensionRow(d), m)
  {
  }

  lemma ShortCare(c: Care, generation: Counter, pg: Counter, m: nat)
    requires CareFits(c, generation, pg, m)
    ensures Short(TOpt(QUARANTINE_LAYOUT), VOpt(ToOpt(QuarantineRow, c.quarantine)), m)
    ensures Short(TOpt(RECOVERY_LAYOUT), VOpt(ToOpt(RecoveryRow, c.recovery)), m)
  {
  }

  lemma ShortAssessment(a: HealthAssessment, m: nat)
    requires AllWithin(a.reasons, m) && Within(a.digest, m)
    ensures Short(TRow(ASSESSMENT_LAYOUT), VRow(AssessmentRow(a)), m)
  {
    hide ShortRow;
    ShortParts(a, m);
  }

  lemma ShortParts(a: HealthAssessment, m: nat)
    requires AllWithin(a.reasons, m) && Within(a.digest, m)
    ensures ShortRow(ASSESSMENT_LAYOUT, AssessmentRow(a), m)
  {
    hide VerdictRow, StandingRow, ReasonRows, Short;
    ShortVerdict(a, m);
    ShortReasons(a.reasons, m);
    ShortDigest(a.digest, m);
  }

  lemma ShortDigest(t: string, m: nat)
    requires Within(t, m)
    ensures Short(TText, VText(t), m)
  {
  }

  lemma ShortReasons(rs: seq<string>, m: nat)
    requires AllWithin(rs, m)
    ensures Short(TList(REASON_LAYOUT), VList(ReasonRows(rs)), m)
  {
    forall j | 0 <= j < |rs| ensures ShortRow(REASON_LAYOUT, ReasonRows(rs)[j], m) {
      assert Within(rs[j], m);
    }
  }

  lemma ShortVerdict(a: HealthAssessment, m: nat)
    ensures Short(TRow(VERDICT_LAYOUT), VRow(VerdictRow(a)), m)
    ensures Short(TRow(STANDING_LAYOUT), VRow(StandingRow(a)), m)
  {
  }

  lemma ShortScalars(d: Device, m: nat)
    ensures Short(TRow(HEAD_LAYOUT), VRow(HeadRow(d)), m)
    ensures Short(TRow(DATES_LAYOUT), VRow(DatesRow(d)), m) && Short(TRow(FLAGS_LAYOUT), VRow(FlagsRow(d)), m)
  {
  }

  lemma ShortDevice(d: Device, pg: Counter, m: nat)
    requires Textual(d, pg, m)
    ensures ShortRow(DEVICE_LAYOUT, DeviceRow(d), m)
  {
    hide Short, ToRows, ToOpt, DimensionList, AssessmentRow, HeadRow, DatesRow, FlagsRow, EvidenceFits, HistoryFits,
      EntriesFit, CareFits, AllWithin, Within;
    ShortScalars(d, m);
    ShortEvidence(d.evidence, m);
    ShortHistory(d.history, m);
    ShortChanges(d.health.changes, pg, m);
    ShortAssessment(d.judgement.assessment, m);
    ShortCare(d.care, d.health.generation, pg, m);
  }

  // ---- The image ----

  /** The devices of an image are written in at most `n` fields, none longer than `m` allows. */
  lemma BodyLength(sv: Saved, n: nat, m: nat)
    requires WithinLimits(sv)
    requires forall i :: 0 <= i < |sv.devices| ==> ShortRow(DEVICE_LAYOUT, DeviceRow(sv.devices[i]), m)
    requires RowsFields(DEVICE_LAYOUT, ToRows(DeviceRow, sv.devices)) <= n
    ensures |Body(sv)| <= (16 + n) * (m + 8)
  {
    hide DeviceRow, PolicyRow, Short, ShortRow, RowFields, RowsFields, Put, PutRow, FitsRow, WithinLimits;
    SavedRoundTrip(sv);
    SavedShort(sv, m);
    ImageFields(sv);
    RowLength(STORE_LAYOUT, SavedRow(sv), m);
    var k := RowFields(STORE_LAYOUT, SavedRow(sv));
    AddFields(k, 16 + n - k, m);
  }

  lemma SavedShort(sv: Saved, m: nat)
    requires forall i :: 0 <= i < |sv.devices| ==> ShortRow(DEVICE_LAYOUT, DeviceRow(sv.devices[i]), m)
    ensures ShortRow(STORE_LAYOUT, SavedRow(sv), m)
  {
    hide DeviceRow, PolicyRow, ToRows, Short;
    ShortRows(DEVICE_LAYOUT, DeviceRow, sv.devices, m);
    ShortPolicy(sv, m);
  }

  lemma ShortPolicy(sv: Saved, m: nat)
    ensures Short(TRow(POLICY_LAYOUT), VRow(PolicyRow(sv.policy)), m)
    ensures Short(TU64, VNum(sv.policyGeneration), m) && Short(TU64, VNum(sv.epoch), m)
  {
  }

  lemma ImageFields(sv: Saved)
    ensures RowFields(STORE_LAYOUT, SavedRow(sv)) ==
      16 + RowsFields(DEVICE_LAYOUT, ToRows(DeviceRow, sv.devices))
  {
    hide DeviceRow, PolicyRow, ToRows, RowFields, RowsFields;
    FourFields(STORE_LAYOUT, SavedRow(sv));
    PolicyFields(sv.policy);
  }

  lemma PolicyFields(p: HealthPolicy)
    ensures RowFields(POLICY_LAYOUT, PolicyRow(p)) == 13
  {
    hide RowFields;
    PlainFields(POLICY_LAYOUT, PolicyRow(p));
  }
}
