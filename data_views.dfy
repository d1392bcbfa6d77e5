/** The read side of the app (DataViews.kt): how one record becomes the value
    and time a card shows, how a card picks the record to show, the rolling
    24-hour nutrient totals, and the recent-time label. */
module DataViews {
  import opened Wrappers
  import opened JavaTime
  import opened HealthRecords
  import opened AppDatabase

  // ---------------------------------------------------------------------------
  // getValueAndTime
  // ---------------------------------------------------------------------------

  /** The number a card shows, before it is turned into text: a `Long`
      (`toString()` of a count), a `Double`, or blood pressure's
      "diastolic/systolic". The text rendering itself is not modelled. */
  datatype Value =
    | Whole(n: int)
    | Decimal(x: real)
    | Slashed(first: real, second: real)

  /** A non-null `Pair(value, time)`. */
  datatype Point = Point(value: Value, time: Instant)

  /** The exceptions the read side can raise. */
  datatype ViewError =
    | NoSuchElement       // `samples.last()` on an empty sample list
    | NullRecord          // Gson read `""` as `null`; the cast `as Record` (or `.endTime`) fails
    | ForeignDocument     // the stored JSON is not an object of the class asked for

  /** The classes for which `getValueAndTime` falls through to `Pair(null, null)`:
      the eight the `when` lists with an empty branch, and `NutritionRecord`,
      which it does not list. */
  predicate ShowsNothing(k: Kind) {
    k in {
      CervicalMucusRecord, IntermenstrualBleedingRecord, MenstruationFlowRecord,
      OvulationTestRecord, PlannedExerciseSessionRecord, SexualActivityRecord,
      SleepSessionRecord, SkinTemperatureRecord, NutritionRecord
    }
  }

  /** A series record whose sample list is empty, so that `samples.last()` throws. */
  predicate MissingLastSample(b: Body) {
    match b.reading
    case HeartRateSamples(s) => s == []
    case PowerSamples(s) => s == []
    case SpeedSamples(s) => s == []
    case _ => false
  }

  /** Height in the unit its card labels it with, centimetres (see HeightAsWritten). */
  function HeightInCentimetres(meters: real): (cm: real)
    ensures cm / 100.0 == meters
  {
    meters * 100.0
  }

  /** Height as the code computes it, `height.inMeters / 100`, shown under the unit "cm". */
  function HeightAsWritten(meters: real): real {
    meters / 100.0
  }

  function Shown(v: Value, t: Instant): Result<Option<Point>, ViewError> {
    Success(Some(Point(v, t)))
  }

  /** `getValueAndTime(record)`: the value and time a card shows for one record.
      Every shown class except HeartRate is shown as of its Timestamp: `time`
      for an instantaneous record, `endTime` for an interval record. A count
      is shown as a whole number, a single measurement as itself, except
      Height, which is shown as the code computes it (see HeightAsWritten). */
  function ValueAndTime(b: Body): (r: Result<Option<Point>, ViewError>)
    requires WellShaped(b)
    ensures r.Failure? <==> MissingLastSample(b)
    ensures r.Failure? ==> r.error == NoSuchElement
    ensures r == Success(None) <==> ShowsNothing(KindOf(b))
    ensures r.Success? && r.value.Some? && KindOf(b) != HeartRateRecord ==>
      r.value.value.time == Timestamp(b)
    ensures r.Success? && r.value.Some? && b.reading.Count? ==>
      r.value.value.value == Whole(b.reading.count)
    ensures r.Success? && r.value.Some? && b.reading.Amount? && KindOf(b) != HeightRecord ==>
      r.value.value.value == Decimal(b.reading.amount)
    ensures r.Success? && r.value.Some? && KindOf(b) == HeightRecord ==>
      r.value.value.value == Decimal(HeightAsWritten(b.reading.amount))
  {
    match KindOf(b)
    case HeartRateRecord =>
      var s := b.reading.heartRateSamples;
      if s == [] then Failure(NoSuchElement)
      else Shown(Whole(s[|s| - 1].beatsPerMinute), s[|s| - 1].time)
    case StepsRecord => Shown(Whole(b.reading.count), b.endTime)
    case ActiveCaloriesBurnedRecord => Shown(Decimal(b.reading.amount), b.endTime)
    case BasalBodyTemperatureRecord => Shown(Decimal(b.reading.amount), b.time)
    case BasalMetabolicRateRecord => Shown(Decimal(b.reading.amount), b.time)
    case BloodGlucoseRecord => Shown(Decimal(b.reading.amount), b.time)
    case BloodPressureRecord => Shown(Slashed(b.reading.diastolic, b.reading.systolic), b.time)
    case BodyFatRecord => Shown(Decimal(b.reading.amount), b.time)
    case BodyTemperatureRecord => Shown(Decimal(b.reading.amount), b.time)
    case BodyWaterMassRecord => Shown(Decimal(b.reading.amount), b.time)
    case BoneMassRecord => Shown(Decimal(b.reading.amount), b.time)
    case CervicalMucusRecord => Success(None)
    case DistanceRecord => Shown(Decimal(b.reading.amount), b.endTime)
    case ElevationGainedRecord => Shown(Decimal(b.reading.amount), b.endTime)
    case FloorsClimbedRecord => Shown(Decimal(b.reading.amount), b.endTime)
    case HeartRateVariabilityRmssdRecord => Shown(Decimal(b.reading.amount), b.time)
    case HeightRecord => Shown(Decimal(HeightAsWritten(b.reading.amount)), b.time)
    case HydrationRecord => Shown(Decimal(b.reading.amount), b.endTime)
    case IntermenstrualBleedingRecord => Success(None)
    case LeanBodyMassRecord => Shown(Decimal(b.reading.amount), b.time)
    case MenstruationPeriodRecord => Shown(Whole(WholeDaysBetween(b.startTime, b.endTime)), b.endTime)
    case MenstruationFlowRecord => Success(None)
    case OvulationTestRecord => Success(None)
    case OxygenSaturationRecord => Shown(Decimal(b.reading.amount), b.time)
    case PlannedExerciseSessionRecord => Success(None)
    case PowerRecord =>
      var s := b.reading.powerSamples;
      if s == [] then Failure(NoSuchElement) else Shown(Decimal(s[|s| - 1].watts), b.endTime)
    case RespiratoryRateRecord => Shown(Decimal(b.reading.amount), b.time)
    case RestingHeartRateRecord => Shown(Whole(b.reading.count), b.time)
    case SexualActivityRecord => Success(None)
    case SleepSessionRecord => Success(None)
    case SpeedRecord =>
      var s := b.reading.speedSamples;
      if s == [] then Failure(NoSuchElement) else Shown(Decimal(s[|s| - 1].metersPerSecond), b.endTime)
    case TotalCaloriesBurnedRecord => Shown(Decimal(b.reading.amount), b.endTime)
    case Vo2MaxRecord => Shown(Decimal(b.reading.amount), b.time)
    case WheelchairPushesRecord => Shown(Whole(b.reading.count), b.endTime)
    case WeightRecord => Shown(Decimal(b.reading.amount), b.time)
    case SkinTemperatureRecord => Success(None)
    case NutritionRecord => Success(None)
  }

  /** The three series classes show their last sample's value. HeartRate pairs
      it with that sample's own time; Power and Speed pair it with the
      record's `endTime`. */
  lemma SeriesShowLastSample(b: Body)
    requires WellShaped(b) && !MissingLastSample(b)
    ensures KindOf(b) == HeartRateRecord ==>
      var s := b.reading.heartRateSamples;
      ValueAndTime(b) == Shown(Whole(s[|s| - 1].beatsPerMinute), s[|s| - 1].time)
    ensures KindOf(b) == PowerRecord ==>
      var s := b.reading.powerSamples;
      ValueAndTime(b) == Shown(Decimal(s[|s| - 1].watts), b.endTime)
    ensures KindOf(b) == SpeedRecord ==>
      var s := b.reading.speedSamples;
      ValueAndTime(b) == Shown(Decimal(s[|s| - 1].metersPerSecond), b.endTime)
  {
  }

  /** Blood pressure is shown diastolic first. */
  lemma BloodPressureOrder(b: Body)
    requires WellShaped(b) && KindOf(b) == BloodPressureRecord
    ensures ValueAndTime(b) == Shown(Slashed(b.reading.diastolic, b.reading.systolic), b.time)
  {
  }

  /** A menstruation period shows the whole days it lasted, rounded toward
      zero, as of its `endTime`: for a period that does not end before it
      starts, `d` whole days fit into it and `d + 1` do not. */
  lemma MenstruationPeriodDays(b: Body)
    requires WellShaped(b) && KindOf(b) == MenstruationPeriodRecord && !IsBefore(b.endTime, b.startTime)
    ensures ValueAndTime(b).Success? && ValueAndTime(b).value.Some?
    ensures var p := ValueAndTime(b).value.value;
      var elapsed := EpochNanos(b.endTime) - EpochNanos(b.startTime);
      p.time == b.endTime && p.value.Whole? && 0 <= p.value.n
      && p.value.n * (SecondsPerDay * NanosPerSecond) <= elapsed
      && elapsed < (p.value.n + 1) * (SecondsPerDay * NanosPerSecond)
  {
    var seconds := DurationSeconds(b.startTime, b.endTime);
    DurationSecondsFloors(b.startTime, b.endTime);
    var d := WholeDaysBetween(b.startTime, b.endTime);
    var elapsed := EpochNanos(b.endTime) - EpochNanos(b.startTime);
    IsBeforeMeansEarlier(b.endTime, b.startTime);
    assert 0 <= seconds;
    assert d * SecondsPerDay <= seconds < (d + 1) * SecondsPerDay;
    assert d * (SecondsPerDay * NanosPerSecond) == (d * SecondsPerDay) * NanosPerSecond;
    assert (d + 1) * (SecondsPerDay * NanosPerSecond) == ((d + 1) * SecondsPerDay) * NanosPerSecond;
    assert (d * SecondsPerDay) * NanosPerSecond <= seconds * NanosPerSecond;
    assert (seconds + 1) * NanosPerSecond <= ((d + 1) * SecondsPerDay) * NanosPerSecond;
  }

  /** A person 1.75 m tall is shown as 0.0175 "cm"; the corrected conversion shows 175. */
  lemma HeightAsWrittenMisreports()
    ensures HeightAsWritten(1.75) == 0.0175
    ensures HeightInCentimetres(1.75) == 175.0
    ensures HeightAsWritten(1.75) != HeightInCentimetres(1.75)
  {
  }

  /** The projection with the Height conversion corrected: every class as
      `getValueAndTime` shows it, except Height, shown in centimetres. */
  function CorrectedValueAndTime(b: Body): (r: Result<Option<Point>, ViewError>)
    requires WellShaped(b)
    ensures KindOf(b) != HeightRecord ==> r == ValueAndTime(b)
    ensures KindOf(b) == HeightRecord ==>
      r.Success? && r.value.Some? && r.value.value.time == b.time
      && r.value.value.value.Decimal? && r.value.value.value.x / 100.0 == b.reading.amount
  {
    if KindOf(b) == HeightRecord then Shown(Decimal(HeightInCentimetres(b.reading.amount)), b.time)
    else ValueAndTime(b)
  }

  /** The code shows 1.75 m as 0.0175 under "cm"; the corrected projection shows 175. */
  lemma HeightProjections(t: Instant)
    ensures ValueAndTime(Instantaneous(HeightRecord, t, Amount(1.75))) == Shown(Decimal(0.0175), t)
    ensures CorrectedValueAndTime(Instantaneous(HeightRecord, t, Amount(1.75))) == Shown(Decimal(175.0), t)
  {
  }

  // ---------------------------------------------------------------------------
  // BasicRecordViewData: the card for one class shows its last stored row.
  // ---------------------------------------------------------------------------

  /** What a card's loading step arrives at: no rows (the coroutine returns
      early), or the projection of the last row. */
  datatype Latest = NoRows | Projected(point: Option<Point>)

  /** The last row `getAllOfClass(clazz)` returned, decoded with
      `gson.fromJson(.., clazz.java) as Record` and projected. */
  function LatestPoint(rows: seq<RecordData>, clazz: Kind): (r: Result<Latest, ViewError>)
    ensures r == Success(NoRows) <==> rows == []
    ensures rows != [] && rows[|rows| - 1].originalData == Blank ==> r == Failure(NullRecord)
    ensures r.Success? && r.value.Projected? ==>
      var p := rows[|rows| - 1].originalData;
      p.Json? && KindOf(p.document.body) == clazz && WellShaped(p.document.body)
      && ValueAndTime(p.document.body) == Success(r.value.point)
    ensures rows != [] && rows[|rows| - 1].originalData.Json? ==>
      var doc := rows[|rows| - 1].originalData.document;
      if !IsObjectOf(doc.body, clazz) then r == Failure(ForeignDocument)
      else match ValueAndTime(doc.body)
        case Failure(e) => r == Failure(e)
        case Success(point) => r == Success(Projected(point))
  {
    if rows == [] then Success(NoRows)
    else
      match FromJson(rows[|rows| - 1].originalData, clazz)
      case JsonNull => Failure(NullRecord)
      case ForeignShape => Failure(ForeignDocument)
      case Parsed(record) =>
        var point :- ValueAndTime(record.body);
        Success(Projected(point))
  }

  /** Only the last row matters: rows before it, however recent their times, are never looked at. */
  lemma LatestIgnoresEarlierRows(rows: seq<RecordData>, x: RecordData, clazz: Kind)
    ensures LatestPoint(rows + [x], clazz) == LatestPoint([x], clazz)
  {
  }

  /** A `BasicRecordViewData` card: its remembered `value` and `lastTime`. */
  class BasicRecordCard {
    const clazz: Kind
    var value: Option<Value>
    var lastTime: Option<Instant>

    constructor (clazz: Kind)
      ensures this.clazz == clazz && value == None && lastTime == None
    {
      this.clazz := clazz;
      value := None;
      lastTime := None;
    }

    /** `RecordView` renders "No data" when the time is null. */
    predicate ShowsNoData()
      reads this
    {
      lastTime.None?
    }

    /** The `LaunchedEffect` body: read the class's rows and show the last one. */
    method Load(dao: RecordDataDao) returns (outcome: Outcome<ViewError>)
      requires dao.Valid()
      modifies this
      ensures match LatestPoint(OfKind(dao.Rows(), clazz), clazz)
        case Failure(e) => outcome == Fail(e) && value == old(value) && lastTime == old(lastTime)
        case Success(NoRows) => outcome == Pass && value == old(value) && lastTime == old(lastTime)
        case Success(Projected(p)) =>
          outcome == Pass
          && value == (if p.Some? then Some(p.value.value) else None)
          && lastTime == (if p.Some? then Some(p.value.time) else None)
          && (ShowsNoData() <==> p.None?)
    {
      var records := dao.GetAllOfClass(clazz);
      var latest := LatestPoint(records, clazz);
      match latest
      case Failure(e) =>
        outcome := Fail(e);
      case Success(NoRows) =>
        outcome := Pass;
      case Success(Projected(p)) =>
        value := if p.Some? then Some(p.value.value) else None;
        lastTime := if p.Some? then Some(p.value.time) else None;
        outcome := Pass;
    }
  }

  // ---------------------------------------------------------------------------
  // NutritionGenericViewData: one nutrient summed over the last 24 hours.
  // ---------------------------------------------------------------------------

  /** `getQuantity`, one of the 42 selectors `it.<nutrient>?.in<Unit> ?: 0.0`:
      an absent field counts as 0. */
  function Quantity(b: Body, n: Nutrient): real {
    if b.reading.Nutrients? && n in b.reading.nutrients then b.reading.nutrients[n] else 0.0
  }

  /** `record.endTime.isAfter(now.minusSeconds(60*60*24*1))`: strictly after
      one day before `now`, with no upper bound. */
  predicate InWindow(end: Instant, now: Instant) {
    IsAfter(end, MinusSeconds(now, SecondsPerDay))
  }

  /** What one decoded record adds to the total. */
  function Contribution(b: Body, n: Nutrient, now: Instant): real {
    if InWindow(Timestamp(b), now) then Quantity(b, n) else 0.0
  }

  /** One pass of the loop body: decode the row as a `NutritionRecord` and
      add its quantity when it ended within the last day. */
  function RowContribution(row: RecordData, n: Nutrient, now: Instant): Result<real, ViewError> {
    match FromJson(row.originalData, NutritionRecord)
    case JsonNull => Failure(NullRecord)
    case ForeignShape => Failure(ForeignDocument)
    case Parsed(record) => Success(Contribution(record.body, n, now))
  }

  /** The loop's outcome over `rows` in order: the running sum, or the
      exception of the first row that cannot be read. */
  function WindowTotal(rows: seq<RecordData>, n: Nutrient, now: Instant): Result<real, ViewError> {
    if rows == [] then Success(0.0)
    else
      var sum :- WindowTotal(rows[..|rows| - 1], n, now);
      var c :- RowContribution(rows[|rows| - 1], n, now);
      Success(sum + c)
  }

  /** The loop throws exactly when some row cannot be read, and then with
      that row's exception. */
  lemma {:induction false} WindowTotalFailure(rows: seq<RecordData>, n: Nutrient, now: Instant)
    ensures WindowTotal(rows, n, now).Failure? ==>
      exists i :: 0 <= i < |rows| && RowContribution(rows[i], n, now) == Failure(WindowTotal(rows, n, now).error)
    ensures (forall i :: 0 <= i < |rows| ==> RowContribution(rows[i], n, now).Success?) ==>
      WindowTotal(rows, n, now).Success?
  {
    if rows != [] {
      var init := rows[..|rows| - 1];
      WindowTotalFailure(init, n, now);
      if WindowTotal(init, n, now).Failure? {
        var i :| 0 <= i < |init| && RowContribution(init[i], n, now) == Failure(WindowTotal(init, n, now).error);
        assert rows[i] == init[i];
      }
    }
  }

  /** Once a prefix of the rows fails, the whole loop fails with the same exception. */
  lemma {:induction false} FailureStops(rows: seq<RecordData>, i: nat, n: Nutrient, now: Instant)
    requires i <= |rows| && WindowTotal(rows[..i], n, now).Failure?
    ensures WindowTotal(rows, n, now) == WindowTotal(rows[..i], n, now)
    decreases |rows| - i
  {
    if i < |rows| {
      assert rows[..i + 1][..i] == rows[..i];
      FailureStops(rows, i + 1, n, now);
    } else {
      assert rows[..i] == rows;
    }
  }

  /** One more row: the total of a longer prefix in terms of the shorter one. */
  lemma WindowTotalExtends(rows: seq<RecordData>, i: nat, n: Nutrient, now: Instant)
    requires i < |rows|
    ensures WindowTotal(rows[..i + 1], n, now) ==
      (var sum :- WindowTotal(rows[..i], n, now);
       var c :- RowContribution(rows[i], n, now);
       Success(sum + c))
  {
    assert rows[..i + 1][..i] == rows[..i];
  }

  /** The loop itself: `temp` accumulates the in-window quantities in row order. */
  method SumLastDay(rows: seq<RecordData>, n: Nutrient, now: Instant) returns (r: Result<real, ViewError>)
    ensures r == WindowTotal(rows, n, now)
  {
    var temp := 0.0;
    for i := 0 to |rows|
      invariant WindowTotal(rows[..i], n, now) == Success(temp)
    {
      var c := RowContribution(rows[i], n, now);
      WindowTotalExtends(rows, i, n, now);
      if c.Failure? {
        FailureStops(rows, i + 1, n, now);
        return c.PropagateFailure();
      }
      temp := temp + c.value;
    }
    assert rows[..|rows|] == rows;
    r := Success(temp);
  }

  /** The bodies of the rows, when every row holds a JSON document. */
  function Documents(rows: seq<RecordData>): (bs: seq<Body>)
    requires forall i :: 0 <= i < |rows| ==> rows[i].originalData.Json?
    ensures |bs| == |rows|
    ensures forall i :: 0 <= i < |rows| ==> bs[i] == rows[i].originalData.document.body
  {
    if rows == [] then [] else Documents(rows[..|rows| - 1]) + [rows[|rows| - 1].originalData.document.body]
  }

  /** The records of the last 24 hours, in order. */
  function RecentRecords(bs: seq<Body>, now: Instant): (r: seq<Body>)
    ensures forall b :: b in r <==> b in bs && InWindow(Timestamp(b), now)
  {
    if bs == [] then []
    else if InWindow(Timestamp(bs[|bs| - 1]), now) then RecentRecords(bs[..|bs| - 1], now) + [bs[|bs| - 1]]
    else RecentRecords(bs[..|bs| - 1], now)
  }

  /** `forEach` keeps the rows' order and multiplicity: one more record adds
      itself at the end when it is recent. */
  lemma RecentRecordsAppend(bs: seq<Body>, b: Body, now: Instant)
    ensures RecentRecords(bs + [b], now) == RecentRecords(bs, now) + (if InWindow(Timestamp(b), now) then [b] else [])
  {
    assert (bs + [b])[..|bs|] == bs;
  }

  function TotalOf(bs: seq<Body>, n: Nutrient): real {
    if bs == [] then 0.0 else TotalOf(bs[..|bs| - 1], n) + Quantity(bs[|bs| - 1], n)
  }

  /** Every row holds the JSON of a `NutritionRecord`, as `createRecordData` writes them. */
  predicate NutritionDocuments(rows: seq<RecordData>) {
    forall i :: 0 <= i < |rows| ==>
      rows[i].originalData.Json? && IsObjectOf(rows[i].originalData.document.body, NutritionRecord)
  }

  /** A nutrition document always decodes, and adds its in-window quantity. */
  lemma NutritionRowContributes(row: RecordData, n: Nutrient, now: Instant)
    requires row.originalData.Json? && IsObjectOf(row.originalData.document.body, NutritionRecord)
    ensures RowContribution(row, n, now) == Success(Contribution(row.originalData.document.body, n, now))
  {
  }

  lemma RecentTotalAppend(bs: seq<Body>, b: Body, n: Nutrient, now: Instant)
    ensures TotalOf(RecentRecords(bs + [b], now), n) ==
      TotalOf(RecentRecords(bs, now), n) + Contribution(b, n, now)
  {
    assert (bs + [b])[..|bs|] == bs;
    var recent := RecentRecords(bs, now);
    if InWindow(Timestamp(b), now) {
      assert (recent + [b])[..|recent|] == recent;
    }
  }

  /** When every stored row is a nutrition document, the total is the sum of
      the nutrient over the records whose `endTime` lies in the last 24 hours. */
  lemma {:induction false} WindowTotalIsRecentSum(rows: seq<RecordData>, n: Nutrient, now: Instant)
    requires NutritionDocuments(rows)
    ensures WindowTotal(rows, n, now) == Success(TotalOf(RecentRecords(Documents(rows), now), n))
  {
    if rows != [] {
      var i := |rows| - 1;
      var init := rows[..i];
      assert NutritionDocuments(init);
      WindowTotalIsRecentSum(init, n, now);
      NutritionRowContributes(rows[i], n, now);
      RecentTotalAppend(Documents(init), rows[i].originalData.document.body, n, now);
    }
  }

  /** A record that ended exactly one day before `now` is already outside the
      window, and a record without the nutrient adds nothing. */
  lemma WindowBoundary(row: RecordData, n: Nutrient, now: Instant)
    requires row.originalData.Json? && IsObjectOf(row.originalData.document.body, NutritionRecord)
    requires var b := row.originalData.document.body;
      Timestamp(b) == MinusSeconds(now, SecondsPerDay) || n !in b.reading.nutrients
    ensures WindowTotal([row], n, now) == Success(0.0)
  {
    assert [row][..0] == [];
  }

  /** A `NutritionGenericViewData` card: the total it shows for one nutrient. */
  class NutritionCard {
    const nutrient: Nutrient
    var total: real

    constructor (nutrient: Nutrient)
      ensures this.nutrient == nutrient && total == 0.0
    {
      this.nutrient := nutrient;
      total := 0.0;
    }

    /** The `LaunchedEffect` body: `total = temp` once every Nutrition row is read. */
    method Load(dao: RecordDataDao, now: Instant) returns (outcome: Outcome<ViewError>)
      requires dao.Valid()
      modifies this
      ensures match WindowTotal(OfKind(dao.Rows(), NutritionRecord), nutrient, now)
        case Success(t) => outcome == Pass && total == t
        case Failure(e) => outcome == Fail(e) && total == old(total)
    {
      var records := dao.GetAllOfClass(NutritionRecord);
      var r := SumLastDay(records, nutrient, now);
      if r.Failure? {
        return Fail(r.error);
      }
      total := r.value;
      outcome := Pass;
    }
  }

  // ---------------------------------------------------------------------------
  // toRecentTimeString
  // ---------------------------------------------------------------------------

  /** A `LocalDateTime`, as a position on the local time line (nanoseconds). */
  type LocalDateTime = int

  /** The four formats: "MM dd, yyyy", "MMM dd", "Yesterday" and "HH:mm". */
  datatype TimeLabel = FullDate | MonthDay | Yesterday | ClockTime

  /** `toRecentTimeString`, given `now.minusYears(1)`, `now.minusDays(2)` and
      `now.minusDays(1)`: the checks run oldest first and the first that holds wins. */
  function RecentLabel(t: LocalDateTime, yearAgo: LocalDateTime, twoDaysAgo: LocalDateTime, dayAgo: LocalDateTime): (l: TimeLabel)
    ensures l == FullDate <==> t < yearAgo
    ensures l == MonthDay <==> yearAgo <= t < twoDaysAgo
    ensures l == Yesterday <==> yearAgo <= t && twoDaysAgo <= t < dayAgo
    ensures l == ClockTime <==> yearAgo <= t && twoDaysAgo <= t && dayAgo <= t
  {
    if t < yearAgo then FullDate
    else if t < twoDaysAgo then MonthDay
    else if t < dayAgo then Yesterday
    else ClockTime
  }

  /** How old a label says a time is. */
  function Age(l: TimeLabel): nat {
    match l
    case FullDate => 3
    case MonthDay => 2
    case Yesterday => 1
    case ClockTime => 0
  }

  /** With the thresholds in their natural order, each label covers one band,
      and a later time never gets an older label. */
  lemma RecentLabelBands(t: LocalDateTime, u: LocalDateTime, yearAgo: LocalDateTime, twoDaysAgo: LocalDateTime, dayAgo: LocalDateTime)
    requires yearAgo <= twoDaysAgo <= dayAgo
    ensures RecentLabel(t, yearAgo, twoDaysAgo, dayAgo) == Yesterday <==> twoDaysAgo <= t < dayAgo
    ensures RecentLabel(t, yearAgo, twoDaysAgo, dayAgo) == ClockTime <==> dayAgo <= t
    ensures t <= u ==> Age(RecentLabel(u, yearAgo, twoDaysAgo, dayAgo)) <= Age(RecentLabel(t, yearAgo, twoDaysAgo, dayAgo))
  {
  }
}
