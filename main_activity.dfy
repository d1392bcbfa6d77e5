/** `MainActivity.kt`: what the app writes into its store on first launch.
    The Health Connect client and the clock are inputs: the client is the
    answer it gives to each read request, the clock the instant
    `Instant.now()` returns when a class's request is built. */
module MainActivity {
  import opened Wrappers
  import opened JavaTime
  import opened HealthRecords
  import opened AppDatabase
  import opened DataViews

  // ---------------------------------------------------------------------------
  // recordToString and createRecordData
  // ---------------------------------------------------------------------------

  /** `recordToString(record)`: the JSON of a `NutritionRecord`, `""` for any other record. */
  function RecordToString(r: HealthRecord): (p: Payload)
    ensures p.Json? <==> KindOf(r.body) == NutritionRecord
  {
    if KindOf(r.body) == NutritionRecord then ToJson(r) else Blank
  }

  /** What a stored payload decodes to: a nutrition record comes back with its
      instants cut to whole seconds; every other record comes back as `null`. */
  lemma RecordToStringDecodes(r: HealthRecord, clazz: Kind)
    requires WellShaped(r.body)
    ensures KindOf(r.body) == NutritionRecord ==>
      FromJson(RecordToString(r), NutritionRecord) == Parsed(HealthRecord(r.metadata, AdaptInstants(r.body)))
    ensures KindOf(r.body) != NutritionRecord ==> FromJson(RecordToString(r), clazz) == JsonNull
  {
    if KindOf(r.body) == NutritionRecord {
      JsonRoundTrip(r);
    }
  }

  /** `createRecordData(record, clazz)`: the row a fetched record is stored as,
      keyed by the record's metadata id and tagged with the class it was read as. */
  function CreateRecordData(r: HealthRecord, clazz: Kind): (row: RecordData)
    ensures row.id == r.metadata.id && row.kind == clazz
    ensures row.originalData == Blank <==> KindOf(r.body) != NutritionRecord
  {
    RecordData(r.metadata.id, RecordToString(r), clazz)
  }

  // ---------------------------------------------------------------------------
  // The read request
  // ---------------------------------------------------------------------------

  /** `TimeRangeFilter`: an optional inclusive start and an optional exclusive end. */
  datatype TimeRangeFilter = TimeRangeFilter(startTime: Option<Instant>, endTime: Option<Instant>)

  /** Whether a record as of instant `t` lies within the filter. */
  predicate Admits(f: TimeRangeFilter, t: Instant) {
    (f.startTime.None? || !IsBefore(t, f.startTime.value))
    && (f.endTime.None? || IsBefore(t, f.endTime.value))
  }

  /** `TimeRangeFilter.before(end)`. */
  function Before(end: Instant): TimeRangeFilter {
    TimeRangeFilter(None, Some(end))
  }

  datatype ReadRecordsRequest = ReadRecordsRequest(recordType: Kind, timeRangeFilter: TimeRangeFilter)

  /** The request `readForFirstTime(clazz)` sends: `ReadRecordsRequest(clazz, before(now))`. */
  function FirstTimeRequest(clazz: Kind, now: Instant): ReadRecordsRequest {
    ReadRecordsRequest(clazz, Before(now))
  }

  /** The first-time read is bounded only above: it admits every instant
      before `now`, however old, and nothing from `now` on. */
  lemma FirstTimeRequestBounds(clazz: Kind, now: Instant, t: Instant)
    ensures FirstTimeRequest(clazz, now).recordType == clazz
    ensures Admits(FirstTimeRequest(clazz, now).timeRangeFilter, t) <==> IsBefore(t, now)
    ensures FirstTimeRequest(clazz, now).timeRangeFilter.startTime.None?
  {
  }

  /** What `hc.readRecords(request)` gives: the records of its first page
      (the page token is never followed), or the exception it throws. */
  datatype ReadOutcome = Page(records: seq<HealthRecord>) | ReadFailed

  /** The Health Connect client, as the answer it gives to each read request. */
  type Client = ReadRecordsRequest -> ReadOutcome

  /** The instant `Instant.now()` returns when the request for a class is built. */
  type Clock = Kind -> Instant

  /** `readRecords` is generic in the class: what it returns for a request
      for `clazz` are records of that class. */
  predicate AnswersInKind(hc: Client, clazz: Kind, now: Instant) {
    match hc(FirstTimeRequest(clazz, now))
    case ReadFailed => true
    case Page(rs) => forall i :: 0 <= i < |rs| ==> KindOf(rs[i].body) == clazz
  }

  // ---------------------------------------------------------------------------
  // readForFirstTime and readAllForFirstTime, on the table
  // ---------------------------------------------------------------------------

  /** The exception that ends the backfill. */
  datatype BackfillError = ReadError(kind: Kind) | InsertError(error: StoreError)

  /** The rows `createRecordData(it, clazz)` makes of a page's records, in page order. */
  function CreatedRows(rs: seq<HealthRecord>, clazz: Kind): (rows: seq<RecordData>)
    ensures |rows| == |rs|
    ensures forall i :: 0 <= i < |rs| ==> rows[i] == CreateRecordData(rs[i], clazz)
  {
    seq(|rs|, i requires 0 <= i < |rs| => CreateRecordData(rs[i], clazz))
  }

  /** `response.records.forEach { insert(..) }`: the rows are appended in
      order, up to the first row whose id is already stored, where Room's
      exception stops the loop. */
  function InsertAll(t: seq<RecordData>, rows: seq<RecordData>): (res: (seq<RecordData>, Outcome<StoreError>))
    ensures |t| <= |res.0| <= |t| + |rows| && res.0[..|t|] == t
    ensures forall i :: |t| <= i < |res.0| ==> res.0[i] == rows[i - |t|]
    ensures res.1.Pass? <==> |res.0| == |t| + |rows|
    ensures res.1.Fail? ==> res.1.error == ConstraintViolation(rows[|res.0| - |t|].id)
  {
    if rows == [] then (t, Pass)
    else
      var prefix := InsertAll(t, rows[..|rows| - 1]);
      if prefix.1.Fail? then prefix
      else InsertRow(prefix.0, rows[|rows| - 1])
  }

  /** A loop that passes has appended every row. */
  lemma InsertAllPasses(t: seq<RecordData>, rows: seq<RecordData>)
    ensures InsertAll(t, rows).1.Pass? ==> InsertAll(t, rows).0 == t + rows
  {
    var res := InsertAll(t, rows).0;
    if InsertAll(t, rows).1.Pass? {
      assert res == res[..|t|] + res[|t|..];
      assert res[|t|..] == rows;
    }
  }

  /** One more row: the longer prefix in terms of the shorter one. */
  lemma InsertAllExtends(t: seq<RecordData>, rows: seq<RecordData>, i: nat)
    requires i < |rows|
    ensures var prefix := InsertAll(t, rows[..i]);
      InsertAll(t, rows[..i + 1]) == if prefix.1.Fail? then prefix else InsertRow(prefix.0, rows[i])
  {
    assert rows[..i + 1][..i] == rows[..i];
  }

  /** The insert loop stops exactly at a duplicate: every row it added had an
      id no earlier row had, and the row it stopped at has an id already in
      the table. */
  lemma {:induction false} InsertAllStopsAtDuplicate(t: seq<RecordData>, rows: seq<RecordData>)
    ensures var res := InsertAll(t, rows);
      res.1.Fail? ==> exists x :: x in res.0 && x.id == rows[|res.0| - |t|].id
    ensures var res := InsertAll(t, rows);
      forall i, j :: 0 <= j < i && |t| <= i < |res.0| ==> res.0[j].id != res.0[i].id
  {
    if rows != [] {
      var init := rows[..|rows| - 1];
      InsertAllStopsAtDuplicate(t, init);
      var prefix := InsertAll(t, init);
      if prefix.1.Pass? {
        var res := InsertAll(t, rows);
        var row := rows[|rows| - 1];
        assert res == InsertRow(prefix.0, row);
        if res.1.Pass? {
          assert res.0 == prefix.0 + [row];
          forall i, j | 0 <= j < i && |t| <= i < |res.0|
            ensures res.0[j].id != res.0[i].id
          {
            if i == |prefix.0| {
              assert res.0[j] == prefix.0[j] && prefix.0[j] in prefix.0;
            } else {
              assert res.0[j] == prefix.0[j] && res.0[i] == prefix.0[i];
            }
          }
        }
      }
    }
  }

  /** Once an insert fails, the remaining rows are not inserted. */
  lemma {:induction false} InsertAllStops(t: seq<RecordData>, rows: seq<RecordData>, i: nat)
    requires i <= |rows| && InsertAll(t, rows[..i]).1.Fail?
    ensures InsertAll(t, rows) == InsertAll(t, rows[..i])
    decreases |rows| - i
  {
    if i < |rows| {
      InsertAllExtends(t, rows, i);
      InsertAllStops(t, rows, i + 1);
    } else {
      assert rows[..i] == rows;
    }
  }

  /** `readForFirstTime(clazz)` on the table: one read, then its records inserted. */
  function BackfillKind(t: seq<RecordData>, hc: Client, clazz: Kind, now: Instant): (res: (seq<RecordData>, Outcome<BackfillError>))
    ensures |t| <= |res.0| && res.0[..|t|] == t
    ensures forall i :: |t| <= i < |res.0| ==> res.0[i].kind == clazz
    ensures hc(FirstTimeRequest(clazz, now)).ReadFailed? ==> res == (t, Fail(ReadError(clazz)))
    ensures hc(FirstTimeRequest(clazz, now)).Page? ==>
      var inserted := InsertAll(t, CreatedRows(hc(FirstTimeRequest(clazz, now)).records, clazz));
      res.0 == inserted.0 && (res.1.Pass? <==> inserted.1.Pass?)
      && (res.1.Fail? ==> res.1.error == InsertError(inserted.1.error))
  {
    match hc(FirstTimeRequest(clazz, now))
    case ReadFailed => (t, Fail(ReadError(clazz)))
    case Page(rs) =>
      var inserted := InsertAll(t, CreatedRows(rs, clazz));
      (inserted.0, if inserted.1.Fail? then Fail(InsertError(inserted.1.error)) else Pass)
  }

  /** `readAllForFirstTime` on the table: the classes in order, the first
      exception ending the whole backfill. */
  function Backfill(t: seq<RecordData>, kinds: seq<Kind>, hc: Client, clock: Clock): (res: (seq<RecordData>, Outcome<BackfillError>))
    ensures |t| <= |res.0| && res.0[..|t|] == t
    ensures forall i :: |t| <= i < |res.0| ==> res.0[i].kind in kinds
  {
    if kinds == [] then (t, Pass)
    else
      var prefix := Backfill(t, kinds[..|kinds| - 1], hc, clock);
      if prefix.1.Fail? then prefix
      else
        var k := kinds[|kinds| - 1];
        var res := BackfillKind(prefix.0, hc, k, clock(k));
        assert forall i :: |t| <= i < |res.0| ==> res.0[i].kind in kinds by {
          forall i | |t| <= i < |res.0|
            ensures res.0[i].kind in kinds
          {
            if i < |prefix.0| {
              assert res.0[i] == res.0[..|prefix.0|][i] == prefix.0[i];
            }
          }
        }
        res
  }

  /** One more class: the longer prefix in terms of the shorter one. */
  lemma BackfillExtends(t: seq<RecordData>, kinds: seq<Kind>, i: nat, hc: Client, clock: Clock)
    requires i < |kinds|
    ensures var prefix := Backfill(t, kinds[..i], hc, clock);
      Backfill(t, kinds[..i + 1], hc, clock) ==
        if prefix.1.Fail? then prefix else BackfillKind(prefix.0, hc, kinds[i], clock(kinds[i]))
  {
    assert kinds[..i + 1][..i] == kinds[..i];
  }

  /** Once a class fails, no later class is read and nothing more is written. */
  lemma {:induction false} BackfillStops(t: seq<RecordData>, kinds: seq<Kind>, i: nat, hc: Client, clock: Clock)
    requires i <= |kinds| && Backfill(t, kinds[..i], hc, clock).1.Fail?
    ensures Backfill(t, kinds, hc, clock) == Backfill(t, kinds[..i], hc, clock)
    decreases |kinds| - i
  {
    if i < |kinds| {
      BackfillExtends(t, kinds, i, hc, clock);
      BackfillStops(t, kinds, i + 1, hc, clock);
    } else {
      assert kinds[..i] == kinds;
    }
  }

  /** There is no per-class isolation: a read that throws ends the backfill
      with the rows written so far, and no class after it is read. */
  lemma ReadFailureAborts(t: seq<RecordData>, kinds: seq<Kind>, i: nat, hc: Client, clock: Clock)
    requires i < |kinds| && Backfill(t, kinds[..i], hc, clock).1.Pass?
    requires hc(FirstTimeRequest(kinds[i], clock(kinds[i]))).ReadFailed?
    ensures Backfill(t, kinds, hc, clock) == (Backfill(t, kinds[..i], hc, clock).0, Fail(ReadError(kinds[i])))
  {
    BackfillExtends(t, kinds, i, hc, clock);
    BackfillStops(t, kinds, i + 1, hc, clock);
  }

  /** The rows the read of `k` yields: one per record of a page, none for a failed read. */
  function ReadRows(hc: Client, k: Kind, now: Instant): seq<RecordData> {
    match hc(FirstTimeRequest(k, now))
    case ReadFailed => []
    case Page(rs) => CreatedRows(rs, k)
  }

  /** The rows of every class in `kinds`, class after class. */
  function AllReadRows(kinds: seq<Kind>, hc: Client, clock: Clock): seq<RecordData> {
    if kinds == [] then []
    else
      var k := kinds[|kinds| - 1];
      AllReadRows(kinds[..|kinds| - 1], hc, clock) + ReadRows(hc, k, clock(k))
  }

  /** A class whose read-and-insert passes was read and had all its rows appended. */
  lemma BackfillKindPasses(t: seq<RecordData>, hc: Client, k: Kind, now: Instant)
    ensures BackfillKind(t, hc, k, now).1.Pass? ==>
      hc(FirstTimeRequest(k, now)).Page? && BackfillKind(t, hc, k, now).0 == t + ReadRows(hc, k, now)
  {
    if hc(FirstTimeRequest(k, now)).Page? {
      InsertAllPasses(t, ReadRows(hc, k, now));
    }
  }

  /** A backfill that passes read every class and appended, class after
      class and in page order, one row per record it was given. */
  lemma {:induction false} BackfillPassWritesEveryClass(t: seq<RecordData>, kinds: seq<Kind>, hc: Client, clock: Clock)
    ensures Backfill(t, kinds, hc, clock).1.Pass? ==>
      (forall i :: 0 <= i < |kinds| ==> hc(FirstTimeRequest(kinds[i], clock(kinds[i]))).Page?)
      && Backfill(t, kinds, hc, clock).0 == t + AllReadRows(kinds, hc, clock)
  {
    if kinds != [] && Backfill(t, kinds, hc, clock).1.Pass? {
      var init := kinds[..|kinds| - 1];
      var k := kinds[|kinds| - 1];
      BackfillPassWritesEveryClass(t, init, hc, clock);
      var prefix := Backfill(t, init, hc, clock);
      assert prefix.1.Pass?;
      BackfillKindPasses(prefix.0, hc, k, clock(k));
      var last := ReadRows(hc, k, clock(k));
      assert Backfill(t, kinds, hc, clock).0 == prefix.0 + last;
      assert AllReadRows(kinds, hc, clock) == AllReadRows(init, hc, clock) + last;
      assert (t + AllReadRows(init, hc, clock)) + last == t + (AllReadRows(init, hc, clock) + last);
      forall i | 0 <= i < |kinds|
        ensures hc(FirstTimeRequest(kinds[i], clock(kinds[i]))).Page?
      {
        if i < |init| {
          assert kinds[i] == init[i];
        } else {
          assert i == |init|;
        }
      }
    }
  }

  /** The classes `readAllForFirstTime` reads, in the order it reads them. */
  function BackfillKinds(): seq<Kind> {
    [
      HeartRateRecord, StepsRecord, ActiveCaloriesBurnedRecord, BasalBodyTemperatureRecord,
      BasalMetabolicRateRecord, BloodGlucoseRecord, BloodPressureRecord, BodyFatRecord,
      BodyTemperatureRecord, BodyWaterMassRecord, BoneMassRecord, CervicalMucusRecord,
      DistanceRecord, ElevationGainedRecord, FloorsClimbedRecord,
      HeartRateVariabilityRmssdRecord, HeightRecord, HydrationRecord,
      IntermenstrualBleedingRecord, LeanBodyMassRecord, MenstruationPeriodRecord,
      MenstruationFlowRecord, OvulationTestRecord, OxygenSaturationRecord,
      PlannedExerciseSessionRecord, PowerRecord, RespiratoryRateRecord, RestingHeartRateRecord,
      SexualActivityRecord, SleepSessionRecord, SpeedRecord, TotalCaloriesBurnedRecord,
      Vo2MaxRecord, WheelchairPushesRecord, WeightRecord, SkinTemperatureRecord
    ]
  }

  /** The backfill reads 36 classes and `NutritionRecord` is not one of them. */
  lemma BackfillSkipsNutrition()
    ensures |BackfillKinds()| == 36 && NutritionRecord !in BackfillKinds()
  {
  }

  /** The backfill reads every class but `NutritionRecord`, each once. */
  lemma BackfillKindsAreAllButNutrition()
    ensures AllKinds() == BackfillKinds() + [NutritionRecord]
    ensures forall k :: k != NutritionRecord ==> k in BackfillKinds()
  {
    forall k | k != NutritionRecord
      ensures k in BackfillKinds()
    {
      AllKindsComplete(k);
      assert k in BackfillKinds() + [NutritionRecord];
    }
  }

  predicate AllBlank(t: seq<RecordData>) {
    forall i :: 0 <= i < |t| ==> t[i].originalData == Blank
  }

  lemma {:induction false} InsertAllBlank(t: seq<RecordData>, rows: seq<RecordData>)
    requires AllBlank(t) && AllBlank(rows)
    ensures AllBlank(InsertAll(t, rows).0)
  {
    var res := InsertAll(t, rows).0;
    forall i | 0 <= i < |res|
      ensures res[i].originalData == Blank
    {
      if i < |t| {
        assert res[i] == res[..|t|][i];
      }
    }
  }

  /** Every row the backfill writes has an empty payload: the only class
      `recordToString` serialises is the one class it never reads. */
  lemma {:induction false} BackfillRowsAreBlank(t: seq<RecordData>, kinds: seq<Kind>, hc: Client, clock: Clock)
    requires AllBlank(t) && NutritionRecord !in kinds
    requires forall k :: k in kinds ==> AnswersInKind(hc, k, clock(k))
    ensures AllBlank(Backfill(t, kinds, hc, clock).0)
  {
    if kinds != [] {
      var init := kinds[..|kinds| - 1];
      assert forall k :: k in init ==> k in kinds;
      BackfillRowsAreBlank(t, init, hc, clock);
      var prefix := Backfill(t, init, hc, clock);
      if prefix.1.Pass? {
        var k := kinds[|kinds| - 1];
        assert AnswersInKind(hc, k, clock(k));
        match hc(FirstTimeRequest(k, clock(k)))
        case ReadFailed =>
        case Page(rs) =>
          var rows := CreatedRows(rs, k);
          forall i | 0 <= i < |rows|
            ensures rows[i].originalData == Blank
          {
            assert rows[i] == CreateRecordData(rs[i], k);
          }
          InsertAllBlank(prefix.0, rows);
      }
    }
  }

  /** A basic card over rows with empty payloads finds no row, or a last row
      that Gson reads as `null`. */
  lemma BlankRowsShowNothing(rows: seq<RecordData>, clazz: Kind)
    requires AllBlank(rows)
    ensures var latest := LatestPoint(OfKind(rows, clazz), clazz);
      latest == Success(NoRows) || latest == Failure(NullRecord)
  {
    var mine := OfKind(rows, clazz);
    if mine != [] {
      assert mine[|mine| - 1] in mine;
    }
  }

  /** Without a nutrition row, every nutrition total is 0. */
  lemma NoNutritionRowsTotalZero(rows: seq<RecordData>, n: Nutrient, now: Instant)
    requires forall i :: 0 <= i < |rows| ==> rows[i].kind != NutritionRecord
    ensures WindowTotal(OfKind(rows, NutritionRecord), n, now) == Success(0.0)
  {
    NoRowsOfKind(rows, NutritionRecord);
  }

  lemma {:induction false} NoRowsOfKind(rows: seq<RecordData>, k: Kind)
    requires forall i :: 0 <= i < |rows| ==> rows[i].kind != k
    ensures OfKind(rows, k) == []
  {
    if rows != [] {
      NoRowsOfKind(rows[..|rows| - 1], k);
    }
  }

  /** Right after a first launch, no card has anything to show: every basic
      card finds no row or a row whose empty payload Gson reads as `null`,
      and every nutrition total is 0, since no nutrition row was written. */
  lemma AfterBackfillNothingToShow(hc: Client, clock: Clock, clazz: Kind, n: Nutrient, now: Instant)
    requires forall k :: k in BackfillKinds() ==> AnswersInKind(hc, k, clock(k))
    ensures var rows := Backfill([], BackfillKinds(), hc, clock).0;
      var latest := LatestPoint(OfKind(rows, clazz), clazz);
      (latest == Success(NoRows) || latest == Failure(NullRecord))
      && WindowTotal(OfKind(rows, NutritionRecord), n, now) == Success(0.0)
  {
    BackfillSkipsNutrition();
    BackfillRowsAreBlank([], BackfillKinds(), hc, clock);
    var rows := Backfill([], BackfillKinds(), hc, clock).0;
    BlankRowsShowNothing(rows, clazz);
    NoNutritionRowsTotalZero(rows, n, now);
  }

  // ---------------------------------------------------------------------------
  // readForFirstTime, readAllForFirstTime and the launch guard, on the DAO
  // ---------------------------------------------------------------------------

  /** `readForFirstTime(clazz)`: read the class up to `now` and insert what came back. */
  method ReadForFirstTime(dao: RecordDataDao, hc: Client, clazz: Kind, now: Instant) returns (outcome: Outcome<BackfillError>)
    requires dao.Valid()
    modifies dao
    ensures dao.Valid()
    ensures (dao.Rows(), outcome) == BackfillKind(old(dao.Rows()), hc, clazz, now)
  {
    var response := hc(FirstTimeRequest(clazz, now));
    if response.ReadFailed? {
      return Fail(ReadError(clazz));
    }
    var rs := response.records;
    ghost var rows := CreatedRows(rs, clazz);
    for i := 0 to |rs|
      invariant dao.Valid()
      invariant InsertAll(old(dao.Rows()), rows[..i]) == (dao.Rows(), Pass)
    {
      InsertAllExtends(old(dao.Rows()), rows, i);
      var o := dao.Insert(CreateRecordData(rs[i], clazz));
      if o.Fail? {
        InsertAllStops(old(dao.Rows()), rows, i + 1);
        return Fail(InsertError(o.error));
      }
    }
    assert rows[..|rs|] == rows;
    outcome := Pass;
  }

  /** `readAllForFirstTime`: the 36 `readForFirstTime` calls in order; an
      exception in any of them ends the whole backfill. */
  method ReadAllForFirstTime(dao: RecordDataDao, hc: Client, clock: Clock) returns (outcome: Outcome<BackfillError>)
    requires dao.Valid()
    modifies dao
    ensures dao.Valid()
    ensures (dao.Rows(), outcome) == Backfill(old(dao.Rows()), BackfillKinds(), hc, clock)
  {
    var kinds := BackfillKinds();
    for i := 0 to |kinds|
      invariant dao.Valid()
      invariant Backfill(old(dao.Rows()), kinds[..i], hc, clock) == (dao.Rows(), Pass)
    {
      BackfillExtends(old(dao.Rows()), kinds, i, hc, clock);
      outcome := ReadForFirstTime(dao, hc, kinds[i], clock(kinds[i]));
      if outcome.Fail? {
        BackfillStops(old(dao.Rows()), kinds, i + 1, hc, clock);
        return;
      }
    }
    assert kinds[..|kinds|] == kinds;
    outcome := Pass;
  }

  /** The launch step: `if (count() == 0L) readAllForFirstTime(..)`. A store
      that holds anything is left exactly as it is. */
  method OnLaunch(dao: RecordDataDao, hc: Client, clock: Clock) returns (backfilled: bool, outcome: Outcome<BackfillError>)
    requires dao.Valid()
    modifies dao
    ensures dao.Valid()
    ensures backfilled <==> old(dao.Rows()) == []
    ensures !backfilled ==> dao.Rows() == old(dao.Rows()) && outcome == Pass
    ensures backfilled ==> (dao.Rows(), outcome) == Backfill([], BackfillKinds(), hc, clock)
  {
    var n := dao.Count();
    if n == 0 {
      outcome := ReadAllForFirstTime(dao, hc, clock);
      backfilled := true;
    } else {
      outcome := Pass;
      backfilled := false;
    }
  }
}
