/** The persisted form of a device: every field of the record except the revalidation mark,
    which a load sets anew. */
module DeviceCodec {
  import opened Enums
  import opened Records
  import opened Devices
  import opened Runs
  import opened Wire
  import opened RecordCodecs

  // ---- Lists of records ----

  function ToRows<T>(row: T -> Row, xs: seq<T>): (rows: seq<Row>)
    ensures |rows| == |xs| && forall i :: 0 <= i < |xs| ==> rows[i] == row(xs[i])
  {
    seq(|xs|, i requires 0 <= i < |xs| => row(xs[i]))
  }

  function FromRows<T>(back: Row --> T, rows: seq<Row>): (xs: seq<T>)
    requires forall i :: 0 <= i < |rows| ==> back.requires(rows[i])
    ensures |xs| == |rows| && forall i :: 0 <= i < |xs| ==> xs[i] == back(rows[i])
  {
    seq(|rows|, i requires 0 <= i < |rows| => back(rows[i]))
  }

  /** The list in field `i` of a row, read record by record. */
  function ListAt<T>(tys: seq<Ty>, r: Row, i: nat, ghost ty: seq<Ty>, back: Row --> T): (xs: seq<T>)
    requires FitsRow(tys, r) && i < |tys| && tys[i] == TList(ty)
    requires forall row :: FitsRow(ty, row) ==> back.requires(row)
    ensures r[i].VList?
    ensures forall j :: 0 <= j < |r[i].rows| ==> back.requires(r[i].rows[j])
    ensures xs == FromRows(back, r[i].rows)
  {
    FromRows(back, RowsAt(tys, r, i))
  }

  ghost predicate Undoes<T>(ty: seq<Ty>, row: T -> Row, back: Row --> T, x: T) {
    FitsRow(ty, row(x)) && back.requires(row(x)) && back(row(x)) == x
  }

  lemma ListRoundTrips<T>(ty: seq<Ty>, row: T -> Row, back: Row --> T, xs: seq<T>)
    requires |xs| <= MAX_COUNT
    requires forall i :: 0 <= i < |xs| ==> Undoes(ty, row, back, xs[i])
    ensures Fits(TList(ty), VList(ToRows(row, xs)))
    ensures forall i :: 0 <= i < |xs| ==> back.requires(ToRows(row, xs)[i])
    ensures FromRows(back, ToRows(row, xs)) == xs
  {
    assert forall i :: 0 <= i < |xs| ==> Undoes(ty, row, back, xs[i]) && FitsRow(ty, ToRows(row, xs)[i]);
  }

  // ---- Dimensions, in kind order ----

  function DimensionsBelow(m: Dimensions, n: nat): (ds: seq<HealthDimension>)
    requires n <= DIMENSION_KINDS
    ensures |ds| <= n
    ensures forall d :: d in ds ==> exists k :: k in m && d == m[k]
  {
    if n == 0 then []
    else if n - 1 in m then DimensionsBelow(m, n - 1) + [m[n - 1]]
    else DimensionsBelow(m, n - 1)
  }

  function DimensionList(m: Dimensions): seq<HealthDimension> {
    DimensionsBelow(m, DIMENSION_KINDS)
  }

  lemma {:induction false} MergeOfDimensionsBelow(m: Dimensions, n: nat)
    requires KeyedByKind(m) && n <= DIMENSION_KINDS
    ensures forall k :: k in MergeDimensions(map[], DimensionsBelow(m, n)) <==> k in m && k < n
    ensures forall k :: k in m && k < n ==> MergeDimensions(map[], DimensionsBelow(m, n))[k] == m[k]
  {
    if n > 0 {
      MergeOfDimensionsBelow(m, n - 1);
      var ds := DimensionsBelow(m, n);
      if n - 1 in m {
        assert ds[..|ds| - 1] == DimensionsBelow(m, n - 1);
      }
    }
  }

  /** Merging the written dimensions into an empty map rebuilds the map. */
  lemma DimensionListRoundTrip(m: Dimensions)
    requires KeyedByKind(m)
    ensures MergeDimensions(map[], DimensionList(m)) == m
  {
    MergeOfDimensionsBelow(m, DIMENSION_KINDS);
  }

  // ---- The device record ----

  const HEAD_LAYOUT: seq<Ty> := [TU64, TU64, TU64, TU64, TU64, TU64, TCode(13), TCode(7), TU64, TU64]

  const DATES_LAYOUT: seq<Ty> := [TCode(VALIDATION_DEPTHS), TI64, TI64]

  const FLAGS_LAYOUT: seq<Ty> := [TFlag, TFlag, TFlag, TFlag]

  const DEVICE_LAYOUT: seq<Ty> := [
    TRow(HEAD_LAYOUT), TList(DIMENSION_LAYOUT), TList(EVIDENCE_LAYOUT), TList(FAULT_LAYOUT), TList(VALIDATION_LAYOUT),
    TList(CHANGE_LAYOUT), TRow(ASSESSMENT_LAYOUT), TRow(DATES_LAYOUT), TOpt(QUARANTINE_LAYOUT), TOpt(RECOVERY_LAYOUT),
    TRow(FLAGS_LAYOUT)]

  function HeadRow(d: Device): Row {
    [VNum(d.id), VNum(d.identity.uuid), VNum(d.identity.node), VNum(d.evidence.lastWorker),
     VNum(d.evidence.lastWorkerBootId), VNum(d.evidence.generation), VNum(HealthCode(d.health.state)),
     VNum(ReadinessCode(d.judgement.readiness)), VNum(d.health.generation), VNum(d.health.transitions)]
  }

  function DatesRow(d: Device): Row {
    [VNum(d.history.highestValidation), VNum(d.evidence.lastObservation), VNum(d.identity.firstSeen)]
  }

  function FlagsRow(d: Device): Row {
    [VFlag(d.evidence.deviceGenerationChanged), VFlag(d.evidence.policyGenerationChanged),
     VFlag(d.care.inRecovery), VFlag(d.care.present)]
  }

  function ToOpt<T>(row: T -> Row, x: Option<T>): Option<Row> {
    if x.Some? then Some(row(x.value)) else None
  }

  function FromOpt<T>(back: Row --> T, r: Option<Row>): Option<T>
    requires r.Some? ==> back.requires(r.value)
  {
    if r.Some? then Some(back(r.value)) else None
  }

  function DeviceRow(d: Device): Row {
    [VRow(HeadRow(d)),
     VList(ToRows(DimensionRow, DimensionList(d.evidence.dimensions))),
     VList(ToRows(EvidenceRow, d.evidence.recentEvidence)),
     VList(ToRows(FaultRow, d.history.faults)),
     VList(ToRows(ValidationRow, d.history.validations)),
     VList(ToRows(ChangeRow, d.health.changes)),
     VRow(AssessmentRow(d.judgement.assessment)),
     VRow(DatesRow(d)),
     VOpt(ToOpt(QuarantineRow, d.care.quarantine)),
     VOpt(ToOpt(RecoveryRow, d.care.recovery)),
     VRow(FlagsRow(d))]
  }

  /** The record lists of a device. */
  datatype Lists = Lists(
    dimensions: seq<HealthDimension>,
    evidence: seq<Evidence>,
    faults: seq<Fault>,
    validations: seq<ValidationRecord>,
    changes: seq<HealthChange>)

  function ListsOf(d: Device): Lists {
    Lists(DimensionList(d.evidence.dimensions), d.evidence.recentEvidence, d.history.faults, d.history.validations,
          d.health.changes)
  }

  function ListsFrom(r: Row): Lists
    requires FitsRow(DEVICE_LAYOUT, r)
  {
    hide FitsRow, Fits;
    var ty := DEVICE_LAYOUT;
    Lists(ListAt(ty, r, 1, DIMENSION_LAYOUT, DimensionFrom), ListAt(ty, r, 2, EVIDENCE_LAYOUT, EvidenceFrom),
          ListAt(ty, r, 3, FAULT_LAYOUT, FaultFrom), ListAt(ty, r, 4, VALIDATION_LAYOUT, ValidationFrom),
          ListAt(ty, r, 5, CHANGE_LAYOUT, ChangeFrom))
  }

  /** The scalar rows and the lists read from a file, put together again. */
  function Assembled(head: Row, dates: Row, flags: Row, lists: Lists, assessment: HealthAssessment,
                     quarantine: Option<QuarantineRecord>, recovery: Option<RecoveryRecord>): Device
    requires FitsRow(HEAD_LAYOUT, head) && FitsRow(DATES_LAYOUT, dates) && FitsRow(FLAGS_LAYOUT, flags)
  {
    hide FitsRow, Fits;
    var h, t, f := HEAD_LAYOUT, DATES_LAYOUT, FLAGS_LAYOUT;
    Device(
      U64At(h, head, 0),
      Identity(U64At(h, head, 1), U64At(h, head, 2), I64At(t, dates, 2)),
      EvidenceState(U64At(h, head, 3), U64At(h, head, 4), U64At(h, head, 5),
                    MergeDimensions(map[], lists.dimensions), lists.evidence,
                    I64At(t, dates, 1), FlagAt(f, flags, 0), FlagAt(f, flags, 1), false),
      History(lists.faults, lists.validations, CodeAt(t, dates, 0)),
      Care(quarantine, recovery, FlagAt(f, flags, 2), FlagAt(f, flags, 3)),
      Health(HealthOf(CodeAt(h, head, 6)), U64At(h, head, 8), U64At(h, head, 9), lists.changes),
      Judgement(ReadinessOf(CodeAt(h, head, 7)), assessment))
  }

  function DeviceFrom(r: Row): Device
    requires FitsRow(DEVICE_LAYOUT, r)
  {
    hide FitsRow, Fits;
    var ty := DEVICE_LAYOUT;
    Assembled(RowAt(ty, r, 0), RowAt(ty, r, 7), RowAt(ty, r, 10), ListsFrom(r), AssessmentFrom(RowAt(ty, r, 6)),
              FromOpt(QuarantineFrom, OptAt(ty, r, 8)), FromOpt(RecoveryFrom, OptAt(ty, r, 9)))
  }

  // ---- Limits of the format ----

  predicate EvidenceStateWritable(e: EvidenceState) {
    && (forall k :: k in e.dimensions ==> DimensionWritable(e.dimensions[k]))
    && |e.recentEvidence| <= MAX_COUNT
    && (forall i :: 0 <= i < |e.recentEvidence| ==> EvidenceWritable(e.recentEvidence[i]))
  }

  predicate HistoryWritable(h: History) {
    && |h.faults| <= MAX_COUNT && (forall i :: 0 <= i < |h.faults| ==> FaultWritable(h.faults[i]))
    && |h.validations| <= MAX_COUNT && (forall i :: 0 <= i < |h.validations| ==> ValidationWritable(h.validations[i]))
  }

  predicate HealthWritable(h: Health) {
    && FitsWord(h.generation) && FitsWord(h.transitions)
    && |h.changes| <= MAX_COUNT && (forall i :: 0 <= i < |h.changes| ==> ChangeWritable(h.changes[i]))
  }

  predicate CareWritable(c: Care) {
    && (c.quarantine.Some? ==> QuarantineWritable(c.quarantine.value))
    && (c.recovery.Some? ==> RecoveryWritable(c.recovery.value))
  }

  /** Strings are byte strings within the writer's bound, lists within the reader's, and
      counters within 64 bits. */
  predicate DeviceWritable(d: Device) {
    && EvidenceStateWritable(d.evidence)
    && HistoryWritable(d.history)
    && HealthWritable(d.health)
    && CareWritable(d.care)
    && AssessmentWritable(d.judgement.assessment)
  }

  /** The device as a file holds it. */
  function Persisted(d: Device): Device {
    d.(evidence := d.evidence.(requiresRevalidation := false))
  }

  // ---- Round trip ----

  lemma ScalarsFit(d: Device)
    requires HealthWritable(d.health)
    ensures FitsRow(HEAD_LAYOUT, HeadRow(d)) && FitsRow(DATES_LAYOUT, DatesRow(d)) && FitsRow(FLAGS_LAYOUT, FlagsRow(d))
  {
  }

  lemma EvidenceLists(e: EvidenceState)
    requires EvidenceStateWritable(e)
    ensures Fits(TList(DIMENSION_LAYOUT), VList(ToRows(DimensionRow, DimensionList(e.dimensions))))
    ensures FromRows(DimensionFrom, ToRows(DimensionRow, DimensionList(e.dimensions))) == DimensionList(e.dimensions)
    ensures Fits(TList(EVIDENCE_LAYOUT), VList(ToRows(EvidenceRow, e.recentEvidence)))
    ensures FromRows(EvidenceFrom, ToRows(EvidenceRow, e.recentEvidence)) == e.recentEvidence
  {
    hide FitsRow, DimensionFrom, DimensionRow, EvidenceFrom, EvidenceRow;
    var ds, es := DimensionList(e.dimensions), e.recentEvidence;
    forall i | 0 <= i < |ds| ensures Undoes(DIMENSION_LAYOUT, DimensionRow, DimensionFrom, ds[i]) {
      assert ds[i] in ds;
      DimensionRoundTrip(ds[i]);
    }
    ListRoundTrips(DIMENSION_LAYOUT, DimensionRow, DimensionFrom, ds);
    forall i | 0 <= i < |es| ensures Undoes(EVIDENCE_LAYOUT, EvidenceRow, EvidenceFrom, es[i]) {
      EvidenceRoundTrip(es[i]);
    }
    ListRoundTrips(EVIDENCE_LAYOUT, EvidenceRow, EvidenceFrom, es);
  }

  lemma HistoryLists(h: History)
    requires HistoryWritable(h)
    ensures Fits(TList(FAULT_LAYOUT), VList(ToRows(FaultRow, h.faults)))
    ensures FromRows(FaultFrom, ToRows(FaultRow, h.faults)) == h.faults
    ensures Fits(TList(VALIDATION_LAYOUT), VList(ToRows(ValidationRow, h.validations)))
    ensures FromRows(ValidationFrom, ToRows(ValidationRow, h.validations)) == h.validations
  {
    hide FitsRow, FaultFrom, FaultRow, ValidationFrom, ValidationRow;
    forall i | 0 <= i < |h.faults| ensures Undoes(FAULT_LAYOUT, FaultRow, FaultFrom, h.faults[i]) {
      FaultRoundTrip(h.faults[i]);
    }
    ListRoundTrips(FAULT_LAYOUT, FaultRow, FaultFrom, h.faults);
    forall i | 0 <= i < |h.validations|
      ensures Undoes(VALIDATION_LAYOUT, ValidationRow, ValidationFrom, h.validations[i])
    {
      ValidationRoundTrip(h.validations[i]);
    }
    ListRoundTrips(VALIDATION_LAYOUT, ValidationRow, ValidationFrom, h.validations);
  }

  lemma ChangeList(h: Health)
    requires HealthWritable(h)
    ensures Fits(TList(CHANGE_LAYOUT), VList(ToRows(ChangeRow, h.changes)))
    ensures FromRows(ChangeFrom, ToRows(ChangeRow, h.changes)) == h.changes
  {
    hide FitsRow, ChangeFrom, ChangeRow;
    forall i | 0 <= i < |h.changes| ensures Undoes(CHANGE_LAYOUT, ChangeRow, ChangeFrom, h.changes[i]) {
      ChangeRoundTrip(h.changes[i]);
    }
    ListRoundTrips(CHANGE_LAYOUT, ChangeRow, ChangeFrom, h.changes);
  }

  lemma CareRows(c: Care)
    requires CareWritable(c)
    ensures Fits(TOpt(QUARANTINE_LAYOUT), VOpt(ToOpt(QuarantineRow, c.quarantine)))
    ensures FromOpt(QuarantineFrom, ToOpt(QuarantineRow, c.quarantine)) == c.quarantine
    ensures Fits(TOpt(RECOVERY_LAYOUT), VOpt(ToOpt(RecoveryRow, c.recovery)))
    ensures FromOpt(RecoveryFrom, ToOpt(RecoveryRow, c.recovery)) == c.recovery
  {
    hide FitsRow, QuarantineRow, QuarantineFrom, RecoveryRow, RecoveryFrom;
    if c.quarantine.Some? {
      QuarantineRoundTrip(c.quarantine.value);
    }
    if c.recovery.Some? {
      RecoveryRoundTrip(c.recovery.value);
    }
  }

  lemma NestedRowsFit(d: Device)
    requires DeviceWritable(d)
    ensures Fits(TRow(HEAD_LAYOUT), VRow(HeadRow(d)))
    ensures Fits(TRow(ASSESSMENT_LAYOUT), VRow(AssessmentRow(d.judgement.assessment)))
    ensures Fits(TRow(DATES_LAYOUT), VRow(DatesRow(d)))
    ensures Fits(TRow(FLAGS_LAYOUT), VRow(FlagsRow(d)))
  {
    hide FitsRow, AssessmentRow, HeadRow, DatesRow, FlagsRow;
    ScalarsFit(d);
    AssessmentRoundTrip(d.judgement.assessment);
  }

  lemma DeviceFits(d: Device)
    requires DeviceWritable(d)
    ensures FitsRow(DEVICE_LAYOUT, DeviceRow(d))
  {
    hide Fits, ToRows, ToOpt, DimensionList, AssessmentRow, HeadRow, DatesRow, FlagsRow;
    NestedRowsFit(d);
    EvidenceLists(d.evidence);
    HistoryLists(d.history);
    ChangeList(d.health);
    CareRows(d.care);
  }

  lemma AssembledIsPersisted(d: Device)
    requires DeviceWritable(d) && KeyedByKind(d.evidence.dimensions)
    requires FitsRow(HEAD_LAYOUT, HeadRow(d)) && FitsRow(DATES_LAYOUT, DatesRow(d)) && FitsRow(FLAGS_LAYOUT,
      FlagsRow(d))
    ensures Assembled(HeadRow(d), DatesRow(d), FlagsRow(d), ListsOf(d), d.judgement.assessment, d.care.quarantine,
                      d.care.recovery) == Persisted(d)
  {
    hide FitsRow, DimensionList;
    DimensionListRoundTrip(d.evidence.dimensions);
  }

  lemma ListsReadBack(d: Device)
    requires DeviceWritable(d)
    ensures FitsRow(DEVICE_LAYOUT, DeviceRow(d)) && ListsFrom(DeviceRow(d)) == ListsOf(d)
  {
    hide FitsRow, ToRows, FromRows, ToOpt, DimensionList, AssessmentRow, HeadRow, DatesRow, FlagsRow;
    DeviceFits(d);
    EvidenceLists(d.evidence);
    HistoryLists(d.history);
    ChangeList(d.health);
  }

  /** Reading what was written gives the device back, less its revalidation mark. */
  lemma DeviceRoundTrip(d: Device)
    requires DeviceWritable(d) && KeyedByKind(d.evidence.dimensions)
    ensures FitsRow(DEVICE_LAYOUT, DeviceRow(d)) && DeviceFrom(DeviceRow(d)) == Persisted(d)
  {
    hide FitsRow, ToRows, ToOpt, FromOpt, AssessmentRow, AssessmentFrom, Assembled, HeadRow, DatesRow, FlagsRow,
      Persisted, KeyedByKind, ListsFrom, ListsOf;
    ScalarsFit(d);
    ListsReadBack(d);
    CareRows(d.care);
    AssessmentRoundTrip(d.judgement.assessment);
    AssembledIsPersisted(d);
  }
}
