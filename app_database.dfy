/** The app's local cache (AppDatabase.kt): the Gson instance with its
    `Instant` adapter, the `KClass` column converter, the `RecordData` entity
    and the `RecordDataDao` table. */
module AppDatabase {
  import opened Wrappers
  import opened JavaTime
  import opened HealthRecords

  // ---------------------------------------------------------------------------
  // InstantDeserializer: an Instant is written as its whole epoch second.
  // ---------------------------------------------------------------------------

  /** `serialize`: the JSON number `src.epochSecond`. */
  function SerializeInstant(src: Instant): (json: int)
    ensures json * NanosPerSecond <= EpochNanos(src) < (json + 1) * NanosPerSecond
  {
    src.epochSecond
  }

  /** `deserialize`: `Instant.ofEpochSecond(json.asLong)`. */
  function DeserializeInstant(json: int): (i: Instant)
    ensures i.nano == 0 && EpochNanos(i) == json * NanosPerSecond
  {
    OfEpochSecond(json)
  }

  /** An instant after a trip through the adapter. */
  function ThroughAdapter(i: Instant): Instant {
    DeserializeInstant(SerializeInstant(i))
  }

  /** The stored number is the instant rounded down to its second. Writing
      then reading an instant drops its sub-second part and nothing else; the
      result is at most one second earlier, and equal exactly when the
      instant was already a whole second. */
  lemma InstantRoundTrip(i: Instant)
    ensures SerializeInstant(i) * NanosPerSecond <= EpochNanos(i) < (SerializeInstant(i) + 1) * NanosPerSecond
    ensures ThroughAdapter(i) == Instant(i.epochSecond, 0)
    ensures EpochNanos(i) - NanosPerSecond < EpochNanos(ThroughAdapter(i)) <= EpochNanos(i)
    ensures ThroughAdapter(i) == i <==> i.nano == 0
    ensures ThroughAdapter(ThroughAdapter(i)) == ThroughAdapter(i)
  {
  }

  /** Reading then writing a stored number gives the number back. */
  lemma EpochSecondRoundTrip(json: int)
    ensures SerializeInstant(DeserializeInstant(json)) == json
  {
  }

  // ---------------------------------------------------------------------------
  // The shared Gson instance, as far as the app uses it.
  // ---------------------------------------------------------------------------

  /** The text kept in `RecordData.originalData`: the empty string, or a JSON
      document Gson wrote for a record. The JSON text itself is abstract: a
      document stands for the record it encodes. */
  datatype Payload = Blank | Json(document: HealthRecord)

  /** What `gson.fromJson(text, clazz.java)` hands back. */
  datatype Decoded =
    | JsonNull                        // Gson reads the empty string as `null`
    | Parsed(record: HealthRecord)
    | ForeignShape                    // not an object of the class asked for (not modelled further)

  /** The samples of a series record as Gson writes and re-reads them. */
  function AdaptHeartRateSamples(s: seq<HeartRateSample>): (r: seq<HeartRateSample>)
    ensures |r| == |s|
    ensures forall i :: 0 <= i < |s| ==>
      r[i] == HeartRateSample(ThroughAdapter(s[i].time), s[i].beatsPerMinute)
  {
    if s == [] then []
    else [HeartRateSample(ThroughAdapter(s[0].time), s[0].beatsPerMinute)] + AdaptHeartRateSamples(s[1..])
  }

  function AdaptPowerSamples(s: seq<PowerSample>): (r: seq<PowerSample>)
    ensures |r| == |s|
    ensures forall i :: 0 <= i < |s| ==> r[i] == PowerSample(ThroughAdapter(s[i].time), s[i].watts)
  {
    if s == [] then [] else [PowerSample(ThroughAdapter(s[0].time), s[0].watts)] + AdaptPowerSamples(s[1..])
  }

  function AdaptSpeedSamples(s: seq<SpeedSample>): (r: seq<SpeedSample>)
    ensures |r| == |s|
    ensures forall i :: 0 <= i < |s| ==>
      r[i] == SpeedSample(ThroughAdapter(s[i].time), s[i].metersPerSecond)
  {
    if s == [] then [] else [SpeedSample(ThroughAdapter(s[0].time), s[0].metersPerSecond)] + AdaptSpeedSamples(s[1..])
  }

  /** The measurement of a record as Gson writes and re-reads it: only the
      times of series samples change. */
  function AdaptReading(rd: Reading): (r: Reading)
    ensures ShapeOf(r) == ShapeOf(rd)
    ensures !(rd.HeartRateSamples? || rd.PowerSamples? || rd.SpeedSamples?) ==> r == rd
    ensures rd.HeartRateSamples? ==> r.heartRateSamples == AdaptHeartRateSamples(rd.heartRateSamples)
    ensures rd.PowerSamples? ==> r.powerSamples == AdaptPowerSamples(rd.powerSamples)
    ensures rd.SpeedSamples? ==> r.speedSamples == AdaptSpeedSamples(rd.speedSamples)
  {
    match rd
    case HeartRateSamples(s) => HeartRateSamples(AdaptHeartRateSamples(s))
    case PowerSamples(s) => PowerSamples(AdaptPowerSamples(s))
    case SpeedSamples(s) => SpeedSamples(AdaptSpeedSamples(s))
    case _ => rd
  }

  /** Every `Instant` of a record body as Gson writes and re-reads it. */
  function AdaptInstants(b: Body): (r: Body)
    ensures KindOf(r) == KindOf(b)
    ensures WellShaped(r) == WellShaped(b)
  {
    match b
    case Instantaneous(k, t, rd) => Instantaneous(k, ThroughAdapter(t), AdaptReading(rd))
    case Interval(k, s, e, rd) => Interval(k, ThroughAdapter(s), ThroughAdapter(e), AdaptReading(rd))
  }

  /** `gson.toJson(record)`. */
  function ToJson(r: HealthRecord): (p: Payload)
    ensures p.Json? && p.document.metadata == r.metadata
    ensures KindOf(p.document.body) == KindOf(r.body) && Timestamp(p.document.body) == ThroughAdapter(Timestamp(r.body))
  {
    Json(HealthRecord(r.metadata, AdaptInstants(r.body)))
  }

  /** `gson.fromJson(text, clazz.java)`: a document is read back as itself
      only when it is an object of `clazz`. */
  function FromJson(p: Payload, clazz: Kind): (d: Decoded)
    ensures d == JsonNull <==> p == Blank
    ensures d.Parsed? ==> p.Json? && KindOf(p.document.body) == clazz
    ensures d.Parsed? ==> d.record == p.document
  {
    match p
    case Blank => JsonNull
    case Json(doc) => if IsObjectOf(doc.body, clazz) then Parsed(doc) else ForeignShape
  }

  /** A record read back under its own class is the record with every
      instant cut to the whole second. */
  lemma JsonRoundTrip(r: HealthRecord)
    requires WellShaped(r.body)
    ensures FromJson(ToJson(r), KindOf(r.body)) == Parsed(HealthRecord(r.metadata, AdaptInstants(r.body)))
  {
  }

  /** Stored records are already at whole seconds: a second trip through
      Gson changes nothing. */
  lemma AdaptInstantsIdempotent(b: Body)
    ensures AdaptInstants(AdaptInstants(b)) == AdaptInstants(b)
  {
    match b.reading
    case HeartRateSamples(s) => HeartRateSamplesIdempotent(s);
    case PowerSamples(s) => PowerSamplesIdempotent(s);
    case SpeedSamples(s) => SpeedSamplesIdempotent(s);
    case _ =>
  }

  lemma HeartRateSamplesIdempotent(s: seq<HeartRateSample>)
    ensures AdaptHeartRateSamples(AdaptHeartRateSamples(s)) == AdaptHeartRateSamples(s)
  {
  }

  lemma PowerSamplesIdempotent(s: seq<PowerSample>)
    ensures AdaptPowerSamples(AdaptPowerSamples(s)) == AdaptPowerSamples(s)
  {
  }

  lemma SpeedSamplesIdempotent(s: seq<SpeedSample>)
    ensures AdaptSpeedSamples(AdaptSpeedSamples(s)) == AdaptSpeedSamples(s)
  {
  }

  // ---------------------------------------------------------------------------
  // Converters: the `type` column holds the class's qualified name.
  // ---------------------------------------------------------------------------

  /** The package of every Health Connect record class. */
  const RecordsPackage: string := "androidx.health.connect.client.records."

  /** The simple name of each record class. */
  function SimpleName(k: Kind): string {
    match k
    case HeartRateRecord => "HeartRateRecord"
    case StepsRecord => "StepsRecord"
    case ActiveCaloriesBurnedRecord => "ActiveCaloriesBurnedRecord"
    case BasalBodyTemperatureRecord => "BasalBodyTemperatureRecord"
    case BasalMetabolicRateRecord => "BasalMetabolicRateRecord"
    case BloodGlucoseRecord => "BloodGlucoseRecord"
    case BloodPressureRecord => "BloodPressureRecord"
    case BodyFatRecord => "BodyFatRecord"
    case BodyTemperatureRecord => "BodyTemperatureRecord"
    case BodyWaterMassRecord => "BodyWaterMassRecord"
    case BoneMassRecord => "BoneMassRecord"
    case CervicalMucusRecord => "CervicalMucusRecord"
    case DistanceRecord => "DistanceRecord"
    case ElevationGainedRecord => "ElevationGainedRecord"
    case FloorsClimbedRecord => "FloorsClimbedRecord"
    case HeartRateVariabilityRmssdRecord => "HeartRateVariabilityRmssdRecord"
    case HeightRecord => "HeightRecord"
    case HydrationRecord => "HydrationRecord"
    case IntermenstrualBleedingRecord => "IntermenstrualBleedingRecord"
    case LeanBodyMassRecord => "LeanBodyMassRecord"
    case MenstruationPeriodRecord => "MenstruationPeriodRecord"
    case MenstruationFlowRecord => "MenstruationFlowRecord"
    case OvulationTestRecord => "OvulationTestRecord"
    case OxygenSaturationRecord => "OxygenSaturationRecord"
    case PlannedExerciseSessionRecord => "PlannedExerciseSessionRecord"
    case PowerRecord => "PowerRecord"
    case RespiratoryRateRecord => "RespiratoryRateRecord"
    case RestingHeartRateRecord => "RestingHeartRateRecord"
    case SexualActivityRecord => "SexualActivityRecord"
    case SleepSessionRecord => "SleepSessionRecord"
    case SpeedRecord => "SpeedRecord"
    case TotalCaloriesBurnedRecord => "TotalCaloriesBurnedRecord"
    case Vo2MaxRecord => "Vo2MaxRecord"
    case WheelchairPushesRecord => "WheelchairPushesRecord"
    case WeightRecord => "WeightRecord"
    case SkinTemperatureRecord => "SkinTemperatureRecord"
    case NutritionRecord => "NutritionRecord"
  }

  /** The length of each simple name, for the injectivity proof below. */
  ghost function NameLength(k: Kind): nat {
    match k
    case HeartRateRecord => 15
    case StepsRecord => 11
    case ActiveCaloriesBurnedRecord => 26
    case BasalBodyTemperatureRecord => 26
    case BasalMetabolicRateRecord => 24
    case BloodGlucoseRecord => 18
    case BloodPressureRecord => 19
    case BodyFatRecord => 13
    case BodyTemperatureRecord => 21
    case BodyWaterMassRecord => 19
    case BoneMassRecord => 14
    case CervicalMucusRecord => 19
    case DistanceRecord => 14
    case ElevationGainedRecord => 21
    case FloorsClimbedRecord => 19
    case HeartRateVariabilityRmssdRecord => 31
    case HeightRecord => 12
    case HydrationRecord => 15
    case IntermenstrualBleedingRecord => 28
    case LeanBodyMassRecord => 18
    case MenstruationPeriodRecord => 24
    case MenstruationFlowRecord => 22
    case OvulationTestRecord => 19
    case OxygenSaturationRecord => 22
    case PlannedExerciseSessionRecord => 28
    case PowerRecord => 11
    case RespiratoryRateRecord => 21
    case RestingHeartRateRecord => 22
    case SexualActivityRecord => 20
    case SleepSessionRecord => 18
    case SpeedRecord => 11
    case TotalCaloriesBurnedRecord => 25
    case Vo2MaxRecord => 12
    case WheelchairPushesRecord => 22
    case WeightRecord => 12
    case SkinTemperatureRecord => 21
    case NutritionRecord => 15
  }

  lemma SimpleNameLength(k: Kind)
    ensures |SimpleName(k)| == NameLength(k)
  {
    if k.HeartRateRecord? || k.StepsRecord? || k.ActiveCaloriesBurnedRecord? || k.BasalBodyTemperatureRecord? || k.BasalMetabolicRateRecord? || k.BloodGlucoseRecord? || k.BloodPressureRecord? || k.BodyFatRecord? {
      SimpleNameLengthOf1(k);
    } else if k.BodyTemperatureRecord? || k.BodyWaterMassRecord? || k.BoneMassRecord? || k.CervicalMucusRecord? || k.DistanceRecord? || k.ElevationGainedRecord? {
      SimpleNameLengthOf2(k);
    } else if k.FloorsClimbedRecord? || k.HeartRateVariabilityRmssdRecord? || k.HeightRecord? || k.HydrationRecord? || k.IntermenstrualBleedingRecord? {
      SimpleNameLengthOf3(k);
    } else if k.LeanBodyMassRecord? || k.MenstruationPeriodRecord? || k.MenstruationFlowRecord? || k.OvulationTestRecord? || k.OxygenSaturationRecord? {
      SimpleNameLengthOf4(k);
    } else if k.PlannedExerciseSessionRecord? || k.PowerRecord? || k.RespiratoryRateRecord? || k.RestingHeartRateRecord? || k.SexualActivityRecord? {
      SimpleNameLengthOf5(k);
    } else if k.SleepSessionRecord? || k.SpeedRecord? || k.TotalCaloriesBurnedRecord? || k.Vo2MaxRecord? {
      SimpleNameLengthOf6(k);
    } else {
      SimpleNameLengthOf7(k);
    }
  }

  lemma SimpleNameLengthOf1(k: Kind)
    requires k.HeartRateRecord? || k.StepsRecord? || k.ActiveCaloriesBurnedRecord? || k.BasalBodyTemperatureRecord? || k.BasalMetabolicRateRecord? || k.BloodGlucoseRecord? || k.BloodPressureRecord? || k.BodyFatRecord?
    ensures |SimpleName(k)| == NameLength(k)
  {
  }

  lemma SimpleNameLengthOf2(k: Kind)
    requires k.BodyTemperatureRecord? || k.BodyWaterMassRecord? || k.BoneMassRecord? || k.CervicalMucusRecord? || k.DistanceRecord? || k.ElevationGainedRecord?
    ensures |SimpleName(k)| == NameLength(k)
  {
  }

  lemma SimpleNameLengthOf3(k: Kind)
    requires k.FloorsClimbedRecord? || k.HeartRateVariabilityRmssdRecord? || k.HeightRecord? || k.HydrationRecord? || k.IntermenstrualBleedingRecord?
    ensures |SimpleName(k)| == NameLength(k)
  {
  }

  lemma SimpleNameLengthOf4(k: Kind)
    requires k.LeanBodyMassRecord? || k.MenstruationPeriodRecord? || k.MenstruationFlowRecord? || k.OvulationTestRecord? || k.OxygenSaturationRecord?
    ensures |SimpleName(k)| == NameLength(k)
  {
  }

  lemma SimpleNameLengthOf5(k: Kind)
    requires k.PlannedExerciseSessionRecord? || k.PowerRecord? || k.RespiratoryRateRecord? || k.RestingHeartRateRecord? || k.SexualActivityRecord?
    ensures |SimpleName(k)| == NameLength(k)
  {
  }

  lemma SimpleNameLengthOf6(k: Kind)
    requires k.SleepSessionRecord? || k.SpeedRecord? || k.TotalCaloriesBurnedRecord? || k.Vo2MaxRecord?
    ensures |SimpleName(k)| == NameLength(k)
  {
  }

  lemma SimpleNameLengthOf7(k: Kind)
    requires k.WheelchairPushesRecord? || k.WeightRecord? || k.SkinTemperatureRecord? || k.NutritionRecord?
    ensures |SimpleName(k)| == NameLength(k)
  {
  }

  // Names of equal length are told apart one length at a time.
  lemma SameNameLength11(a: Kind, b: Kind)
    requires NameLength(a) == 11 == NameLength(b) && SimpleName(a) == SimpleName(b)
    ensures a == b
  {
  }

  lemma SameNameLength12(a: Kind, b: Kind)
    requires NameLength(a) == 12 == NameLength(b) && SimpleName(a) == SimpleName(b)
    ensures a == b
  {
  }

  lemma SameNameLength14(a: Kind, b: Kind)
    requires NameLength(a) == 14 == NameLength(b) && SimpleName(a) == SimpleName(b)
    ensures a == b
  {
  }

  lemma SameNameLength15(a: Kind, b: Kind)
    requires NameLength(a) == 15 == NameLength(b) && SimpleName(a) == SimpleName(b)
    ensures a == b
  {
  }

  lemma SameNameLength18(a: Kind, b: Kind)
    requires NameLength(a) == 18 == NameLength(b) && SimpleName(a) == SimpleName(b)
    ensures a == b
  {
  }

  lemma SameNameLength19(a: Kind, b: Kind)
    requires NameLength(a) == 19 == NameLength(b) && SimpleName(a) == SimpleName(b)
    ensures a == b
  {
  }

  lemma SameNameLength21(a: Kind, b: Kind)
    requires NameLength(a) == 21 == NameLength(b) && SimpleName(a) == SimpleName(b)
    ensures a == b
  {
  }

  lemma SameNameLength22(a: Kind, b: Kind)
    requires NameLength(a) == 22 == NameLength(b) && SimpleName(a) == SimpleName(b)
    ensures a == b
  {
  }

  lemma SameNameLength24(a: Kind, b: Kind)
    requires NameLength(a) == 24 == NameLength(b) && SimpleName(a) == SimpleName(b)
    ensures a == b
  {
  }

  lemma SameNameLength26(a: Kind, b: Kind)
    requires NameLength(a) == 26 == NameLength(b) && SimpleName(a) == SimpleName(b)
    ensures a == b
  {
  }

  lemma SameNameLength28(a: Kind, b: Kind)
    requires NameLength(a) == 28 == NameLength(b) && SimpleName(a) == SimpleName(b)
    ensures a == b
  {
  }

  lemma SameNameUniqueLength(a: Kind, b: Kind)
    requires NameLength(a) == NameLength(b) && NameLength(a) in {13, 20, 25, 31}
    ensures a == b
  {
  }

  /** No two classes share a simple name. */
  lemma SimpleNameInjective(a: Kind, b: Kind)
    requires SimpleName(a) == SimpleName(b)
    ensures a == b
  {
    SimpleNameLength(a);
    SimpleNameLength(b);
    var n := NameLength(a);
    if n == 11 {
      SameNameLength11(a, b);
    } else if n == 12 {
      SameNameLength12(a, b);
    } else if n == 14 {
      SameNameLength14(a, b);
    } else if n == 15 {
      SameNameLength15(a, b);
    } else if n == 18 {
      SameNameLength18(a, b);
    } else if n == 19 {
      SameNameLength19(a, b);
    } else if n == 21 {
      SameNameLength21(a, b);
    } else if n == 22 {
      SameNameLength22(a, b);
    } else if n == 24 {
      SameNameLength24(a, b);
    } else if n == 26 {
      SameNameLength26(a, b);
    } else if n == 28 {
      SameNameLength28(a, b);
    } else {
      SameNameUniqueLength(a, b);
    }
  }

  /** `fromType`: `type.qualifiedName!!`. */
  function FromType(k: Kind): (name: string)
    ensures RecordsPackage <= name && |RecordsPackage| < |name|
  {
    RecordsPackage + SimpleName(k)
  }

  /** The record class whose qualified name is `name`, searched for among `ks`. */
  function ClassFor(name: string, ks: seq<Kind>): (r: Option<Kind>)
    ensures r.Some? ==> r.value in ks && FromType(r.value) == name
    ensures r.None? ==> forall k :: k in ks ==> FromType(k) != name
  {
    if ks == [] then None
    else if FromType(ks[0]) == name then Some(ks[0])
    else ClassFor(name, ks[1..])
  }

  /** `toType`: `Class.forName(name).kotlin`. `None` stands for a name that
      is not one of the record classes (`Class.forName` would throw, or give
      a class the app never stores). */
  function ToType(name: string): (r: Option<Kind>)
    ensures r.Some? ==> FromType(r.value) == name
    ensures r.None? ==> forall k :: k in AllKinds() ==> FromType(k) != name
  {
    ClassFor(name, AllKinds())
  }

  /** Two classes never share a column value, so `WHERE type = :clazz` singles out one class. */
  lemma FromTypeInjective(k1: Kind, k2: Kind)
    ensures FromType(k1) == FromType(k2) <==> k1 == k2
  {
    if FromType(k1) == FromType(k2) {
      assert FromType(k1)[|RecordsPackage|..] == SimpleName(k1);
      assert FromType(k2)[|RecordsPackage|..] == SimpleName(k2);
      SimpleNameInjective(k1, k2);
    }
  }

  lemma ClassForSkips(k: Kind, ks: seq<Kind>)
    requires ks != [] && ks[0] != k
    ensures ClassFor(FromType(k), ks) == ClassFor(FromType(k), ks[1..])
  {
    FromTypeInjective(ks[0], k);
  }

  lemma {:induction false} ClassForFinds(k: Kind, ks: seq<Kind>)
    requires k in ks
    ensures ClassFor(FromType(k), ks) == Some(k)
  {
    if ks[0] != k {
      ClassForSkips(k, ks);
      ClassForFinds(k, ks[1..]);
    }
  }

  /** Reading back a stored class name gives the class that was stored. */
  lemma ConverterRoundTrip(k: Kind)
    ensures ToType(FromType(k)) == Some(k)
  {
    AllKindsComplete(k);
    ClassForFinds(k, AllKinds());
  }

  /** A name the converter accepts is the stored name of the class it yields,
      and every other name is refused. */
  lemma ConverterInverse(name: string)
    ensures ToType(name).Some? ==> FromType(ToType(name).value) == name
    ensures ToType(name).None? ==> forall k :: FromType(k) != name
  {
    if ToType(name).None? {
      forall k ensures FromType(k) != name {
        AllKindsComplete(k);
      }
    }
  }

  // ---------------------------------------------------------------------------
  // The RecordData table, as a sequence of rows in insertion order.
  // ---------------------------------------------------------------------------

  /** A row: the Health Connect id (the primary key), the stored JSON text and the record class
      (the `type` column). */
  datatype RecordData = RecordData(id: string, originalData: Payload, kind: Kind)

  /** The exception Room raises when a plain `@Insert` meets an existing primary key. */
  datatype StoreError = ConstraintViolation(id: string)

  /** The primary keys of a table, row by row. */
  function Ids(t: seq<RecordData>): (ids: seq<string>)
    ensures |ids| == |t|
    ensures forall i :: 0 <= i < |t| ==> ids[i] == t[i].id
  {
    if t == [] then [] else Ids(t[..|t| - 1]) + [t[|t| - 1].id]
  }

  /** The primary-key constraint: no two rows share an id. */
  predicate UniqueIds(t: seq<RecordData>) {
    forall i, j :: 0 <= i < j < |t| ==> t[i].id != t[j].id
  }

  /** `SELECT * FROM RecordData WHERE id = :id`: the row with that id, if any. */
  function Lookup(t: seq<RecordData>, id: string): (r: Option<RecordData>)
    ensures r.Some? ==> r.value in t && r.value.id == id
    ensures r.None? <==> id !in Ids(t)
  {
    if t == [] then None
    else if t[0].id == id then Some(t[0])
    else
      var r := Lookup(t[1..], id);
      assert Ids(t) == [t[0].id] + Ids(t[1..]);
      r
  }

  /** `DELETE FROM RecordData WHERE id = :id`: every other row, in order. */
  function WithoutId(t: seq<RecordData>, id: string): (r: seq<RecordData>)
    ensures forall x :: x in r <==> x in t && x.id != id
    ensures id !in Ids(t) ==> r == t
    ensures |r| <= |t|
  {
    if t == [] then []
    else
      var rest := WithoutId(t[..|t| - 1], id);
      assert t == t[..|t| - 1] + [t[|t| - 1]];
      if t[|t| - 1].id == id then rest else rest + [t[|t| - 1]]
  }

  /** `SELECT * FROM RecordData WHERE type = :clazz`, in insertion order. */
  function OfKind(t: seq<RecordData>, k: Kind): (r: seq<RecordData>)
    ensures forall x :: x in r <==> x in t && x.kind == k
    ensures |r| <= |t|
  {
    if t == [] then []
    else
      var rest := OfKind(t[..|t| - 1], k);
      assert t == t[..|t| - 1] + [t[|t| - 1]];
      if t[|t| - 1].kind == k then rest + [t[|t| - 1]] else rest
  }

  /** `@Insert` with Room's default conflict strategy (ABORT): a fresh id is
      appended; an id already present aborts the statement and leaves the
      table as it was. */
  function InsertRow(t: seq<RecordData>, r: RecordData): (res: (seq<RecordData>, Outcome<StoreError>))
    ensures res.1.Pass? ==> res.0 == t + [r] && |res.0| == |t| + 1
    ensures res.1.Fail? ==> res.0 == t && res.1.error == ConstraintViolation(r.id)
    ensures res.1.Fail? <==> exists x :: x in t && x.id == r.id
    ensures UniqueIds(t) ==> UniqueIds(res.0)
  {
    if r.id in Ids(t) then (t, Fail(ConstraintViolation(r.id))) else (t + [r], Pass)
  }

  /** Under the primary-key constraint, `get` finds every stored row by its id. */
  lemma {:induction false} LookupFinds(t: seq<RecordData>, x: RecordData)
    requires UniqueIds(t) && x in t
    ensures Lookup(t, x.id) == Some(x)
  {
    if t[0] != x {
      assert t[0].id != x.id by {
        var j :| 0 <= j < |t| && t[j] == x;
        assert j != 0;
      }
      LookupFinds(t[1..], x);
    }
  }

  /** Deleting keeps the primary-key constraint, and removes exactly one row
      when the id is present. */
  lemma {:induction false} WithoutIdCount(t: seq<RecordData>, id: string)
    requires UniqueIds(t)
    ensures UniqueIds(WithoutId(t, id))
    ensures |WithoutId(t, id)| == if id in Ids(t) then |t| - 1 else |t|
  {
    if t != [] {
      var init := t[..|t| - 1];
      var last := t[|t| - 1];
      assert t == init + [last];
      WithoutIdCount(init, id);
      assert Ids(t) == Ids(init) + [last.id];
    }
  }

  lemma WithoutIdAppend(t: seq<RecordData>, x: RecordData, id: string)
    ensures WithoutId(t + [x], id) == WithoutId(t, id) + (if x.id == id then [] else [x])
  {
    assert (t + [x])[..|t + [x]| - 1] == t;
  }

  /** `getAllOfClass` keeps the table's order: a row added later comes later. */
  lemma OfKindAppend(t: seq<RecordData>, x: RecordData, k: Kind)
    ensures OfKind(t + [x], k) == OfKind(t, k) + (if x.kind == k then [x] else [])
  {
    assert (t + [x])[..|t + [x]| - 1] == t;
  }

  /** `getAllOfClass` returns no row twice. */
  lemma {:induction false} OfKindUnique(t: seq<RecordData>, k: Kind)
    requires UniqueIds(t)
    ensures UniqueIds(OfKind(t, k))
  {
    if t != [] {
      var init := t[..|t| - 1];
      var last := t[|t| - 1];
      assert t == init + [last];
      assert UniqueIds(init);
      OfKindUnique(init, k);
      if last.kind == k {
        forall x | x in OfKind(init, k) ensures x.id != last.id {
          var i :| 0 <= i < |init| && init[i] == x;
          assert t[i] == x;
        }
      }
    }
  }

  /** A plain insert is not an upsert: an existing row keeps its payload and
      class, and the statement fails. */
  lemma InsertIsNotUpsert(t: seq<RecordData>, r: RecordData, existing: RecordData)
    requires UniqueIds(t) && existing in t && existing.id == r.id
    ensures InsertRow(t, r).1 == Fail(ConstraintViolation(r.id))
    ensures Lookup(InsertRow(t, r).0, r.id) == Some(existing)
  {
    LookupFinds(t, existing);
  }

  /** Inserting a fresh id makes it retrievable and leaves every other id's row as it was. */
  lemma InsertThenGet(t: seq<RecordData>, r: RecordData, id: string)
    requires UniqueIds(t) && r.id !in Ids(t)
    ensures Lookup(InsertRow(t, r).0, id) == if id == r.id then Some(r) else Lookup(t, id)
  {
    var t' := t + [r];
    assert UniqueIds(t');
    if id == r.id {
      LookupFinds(t', r);
    } else if Lookup(t, id).Some? {
      LookupFinds(t, Lookup(t, id).value);
      LookupFinds(t', Lookup(t, id).value);
    } else {
      assert Ids(t') == Ids(t) + [r.id];
    }
  }

  /** After `delete(id)` the id is gone and every other id's row is as it was. */
  lemma DeleteThenGet(t: seq<RecordData>, id: string, other: string)
    requires UniqueIds(t)
    ensures Lookup(WithoutId(t, id), other) == if other == id then None else Lookup(t, other)
  {
    var t' := WithoutId(t, id);
    WithoutIdCount(t, id);
    if other == id {
    } else if Lookup(t, other).Some? {
      LookupFinds(t, Lookup(t, other).value);
      LookupFinds(t', Lookup(t, other).value);
    }
  }

  // ---------------------------------------------------------------------------
  // RecordDataDao: the table as Room keeps it, keyed by id, with the class
  // stored as its qualified name.
  // ---------------------------------------------------------------------------

  /** The non-key columns of a stored row. The `type` column holds
      `fromType(kind)`; since `toType` inverts `fromType` (ConverterRoundTrip)
      and `fromType` is injective (FromTypeInjective), the entry keeps the
      class itself and compares classes where SQLite compares column text. */
  datatype Entry = Entry(originalData: Payload, kind: Kind)

  /** The row a stored entry reads back as. */
  function AsRecordData(id: string, e: Entry): RecordData {
    RecordData(id, e.originalData, e.kind)
  }

  /** The rows for the keys `ids`, in that order. */
  function Tabulate(ids: seq<string>, entries: map<string, Entry>): (t: seq<RecordData>)
    requires forall id :: id in ids ==> id in entries
    ensures |t| == |ids|
    ensures forall i :: 0 <= i < |ids| ==> t[i] == AsRecordData(ids[i], entries[ids[i]])
  {
    if ids == [] then []
    else Tabulate(ids[..|ids| - 1], entries) + [AsRecordData(ids[|ids| - 1], entries[ids[|ids| - 1]])]
  }

  /** The keys of `ids` other than `id`, in order. */
  function RemoveKey(ids: seq<string>, id: string): (r: seq<string>)
    ensures forall x :: x in r <==> x in ids && x != id
  {
    if ids == [] then []
    else if ids[|ids| - 1] == id then RemoveKey(ids[..|ids| - 1], id)
    else RemoveKey(ids[..|ids| - 1], id) + [ids[|ids| - 1]]
  }

  /** The entries whose `type` column names `k`, in the order of `ids`. */
  function SelectByType(ids: seq<string>, entries: map<string, Entry>, k: Kind): seq<RecordData>
    requires forall id :: id in ids ==> id in entries
  {
    if ids == [] then []
    else
      var rest := SelectByType(ids[..|ids| - 1], entries, k);
      var id := ids[|ids| - 1];
      if entries[id].kind == k then rest + [AsRecordData(id, entries[id])] else rest
  }

  /** Scanning the table for class `k` yields `getAllOfClass`'s rows. */
  lemma {:induction false} SelectByTypeIsOfKind(ids: seq<string>, entries: map<string, Entry>, k: Kind)
    requires forall id :: id in ids ==> id in entries
    ensures SelectByType(ids, entries, k) == OfKind(Tabulate(ids, entries), k)
  {
    if ids != [] {
      var init := ids[..|ids| - 1];
      var id := ids[|ids| - 1];
      SelectByTypeIsOfKind(init, entries, k);
      OfKindAppend(Tabulate(init, entries), AsRecordData(id, entries[id]), k);
    }
  }

  lemma TabulateAppend(ids: seq<string>, x: string, entries: map<string, Entry>)
    requires forall id :: id in ids + [x] ==> id in entries
    ensures Tabulate(ids + [x], entries) == Tabulate(ids, entries) + [AsRecordData(x, entries[x])]
  {
    assert (ids + [x])[..|ids|] == ids;
  }

  /** Dropping a key from the key order and the map drops exactly that row. */
  lemma {:induction false} RemoveKeyTabulates(ids: seq<string>, entries: map<string, Entry>, id: string)
    requires forall x :: x in ids ==> x in entries
    ensures Tabulate(RemoveKey(ids, id), entries - {id}) == WithoutId(Tabulate(ids, entries), id)
  {
    if ids != [] {
      var init := ids[..|ids| - 1];
      var last := ids[|ids| - 1];
      var rest := entries - {id};
      assert ids == init + [last];
      RemoveKeyTabulates(init, entries, id);
      var t0 := Tabulate(init, entries);
      var row := AsRecordData(last, entries[last]);
      TabulateAppend(init, last, entries);
      WithoutIdAppend(t0, row, id);
      if last == id {
        assert RemoveKey(ids, id) == RemoveKey(init, id);
      } else {
        var r := RemoveKey(init, id);
        assert RemoveKey(ids, id) == r + [last];
        TabulateAppend(r, last, rest);
        assert rest[last] == entries[last];
      }
    }
  }

  /** No key occurs twice. */
  predicate Distinct(ids: seq<string>) {
    forall i, j :: 0 <= i < j < |ids| ==> ids[i] != ids[j]
  }

  lemma {:induction false} RemoveKeyDistinct(ids: seq<string>, id: string)
    requires Distinct(ids)
    ensures Distinct(RemoveKey(ids, id))
  {
    if ids != [] {
      var init := ids[..|ids| - 1];
      var last := ids[|ids| - 1];
      RemoveKeyDistinct(init, id);
      var r := RemoveKey(init, id);
      if last != id {
        assert last !in init;
        var r' := r + [last];
        forall i, j | 0 <= i < j < |r'| ensures r'[i] != r'[j] {
          if j == |r| {
            assert r'[i] in r;
          } else {
            assert r'[i] == r[i] && r'[j] == r[j];
          }
        }
      }
    }
  }

  /** `@Dao interface RecordDataDao`, backed by an in-memory table. */
  class RecordDataDao {
    /** The non-key columns of every row, by primary key. */
    var entries: map<string, Entry>
    /** The primary keys in insertion order (the order SQLite scans the table in). */
    var ids: seq<string>

    ghost predicate Valid()
      reads this
    {
      Distinct(ids)
      && (forall id :: id in entries <==> id in ids)
    }

    /** The table's rows, in insertion order. */
    ghost function Rows(): seq<RecordData>
      reads this
      requires Valid()
    {
      Tabulate(ids, entries)
    }

    lemma RowsAreUnique()
      requires Valid()
      ensures UniqueIds(Rows())
      ensures Ids(Rows()) == ids
    {
    }

    /** An empty database. */
    constructor ()
      ensures Valid() && Rows() == []
    {
      entries := map[];
      ids := [];
    }

    /** `insert(recordData)`: the row is added, or the statement fails on a duplicate id. */
    method Insert(r: RecordData) returns (outcome: Outcome<StoreError>)
      requires Valid()
      modifies this
      ensures Valid()
      ensures (Rows(), outcome) == InsertRow(old(Rows()), r)
    {
      RowsAreUnique();
      if r.id in entries {
        return Fail(ConstraintViolation(r.id));
      }
      var e := Entry(r.originalData, r.kind);
      entries := entries[r.id := e];
      ids := ids + [r.id];
      assert Tabulate(ids, entries)[..|ids| - 1] == old(Rows());
      outcome := Pass;
    }

    /** `get(id)`. */
    method Get(id: string) returns (r: Option<RecordData>)
      requires Valid()
      ensures r == Lookup(Rows(), id)
    {
      RowsAreUnique();
      if id in entries {
        r := Some(AsRecordData(id, entries[id]));
        var i :| 0 <= i < |ids| && ids[i] == id;
        LookupFinds(Rows(), Rows()[i]);
      } else {
        r := None;
      }
    }

    /** `delete(id)`: removes the row with that id; an absent id changes nothing. */
    method Delete(id: string)
      requires Valid()
      modifies this
      ensures Valid()
      ensures Rows() == WithoutId(old(Rows()), id)
    {
      RemoveKeyTabulates(ids, entries, id);
      RemoveKeyDistinct(ids, id);
      entries := entries - {id};
      ids := RemoveKey(ids, id);
    }

    /** `getAllOfClass(clazz)`: the rows whose `type` column names `clazz`. */
    method GetAllOfClass(clazz: Kind) returns (rs: seq<RecordData>)
      requires Valid()
      ensures rs == OfKind(Rows(), clazz)
    {
      SelectByTypeIsOfKind(ids, entries, clazz);
      rs := SelectByType(ids, entries, clazz);
    }

    /** `count()`. */
    method Count() returns (n: int)
      requires Valid()
      ensures n == |Rows()|
    {
      n := |ids|;
    }
  }
}
