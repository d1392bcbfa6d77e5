/** The Health Connect record classes the app reads, reduced to the fields
    its core uses. Measurements are kept in the unit the app displays them in
    (the `inKilocalories`, `inGrams`, ... conversions of the client library
    are not modelled), except Height, which the library stores in metres. */
module HealthRecords {
  import opened JavaTime

  /** The record classes (`KClass<out Record>`) the app refers to: the 36 it
      backfills and `NutritionRecord`. */
  datatype Kind =
    | HeartRateRecord
    | StepsRecord
    | ActiveCaloriesBurnedRecord
    | BasalBodyTemperatureRecord
    | BasalMetabolicRateRecord
    | BloodGlucoseRecord
    | BloodPressureRecord
    | BodyFatRecord
    | BodyTemperatureRecord
    | BodyWaterMassRecord
    | BoneMassRecord
    | CervicalMucusRecord
    | DistanceRecord
    | ElevationGainedRecord
    | FloorsClimbedRecord
    | HeartRateVariabilityRmssdRecord
    | HeightRecord
    | HydrationRecord
    | IntermenstrualBleedingRecord
    | LeanBodyMassRecord
    | MenstruationPeriodRecord
    | MenstruationFlowRecord
    | OvulationTestRecord
    | OxygenSaturationRecord
    | PlannedExerciseSessionRecord
    | PowerRecord
    | RespiratoryRateRecord
    | RestingHeartRateRecord
    | SexualActivityRecord
    | SleepSessionRecord
    | SpeedRecord
    | TotalCaloriesBurnedRecord
    | Vo2MaxRecord
    | WheelchairPushesRecord
    | WeightRecord
    | SkinTemperatureRecord
    | NutritionRecord

  /** The optional nutrient fields of a `NutritionRecord` that the app totals. */
  datatype Nutrient =
    | Biotin | Caffeine | Calcium | Energy | EnergyFromFat | Chloride | Cholesterol
    | Chromium | Copper | DietaryFiber | Folate | FolicAcid | Iodine | Iron | Magnesium
    | Manganese | Molybdenum | MonounsaturatedFat | Niacin | PantothenicAcid | Phosphorus
    | PolyunsaturatedFat | Potassium | Protein | Riboflavin | SaturatedFat | Selenium
    | Sodium | Sugar | Thiamin | TotalCarbohydrate | TotalFat | TransFat | UnsaturatedFat
    | VitaminA | VitaminB12 | VitaminB6 | VitaminC | VitaminD | VitaminE | VitaminK | Zinc

  datatype HeartRateSample = HeartRateSample(time: Instant, beatsPerMinute: int)
  datatype PowerSample = PowerSample(time: Instant, watts: real)
  datatype SpeedSample = SpeedSample(time: Instant, metersPerSecond: real)

  /** The class-specific measurement of a record, in the unit the app shows
      it in (Height excepted: its `Length` is kept in metres). The category
      and session records carry `NotRead`: the app never reads their fields. */
  datatype Reading =
    | NotRead
    | Amount(amount: real)
    | Count(count: int)
    | Pressure(systolic: real, diastolic: real)
    | HeartRateSamples(heartRateSamples: seq<HeartRateSample>)
    | PowerSamples(powerSamples: seq<PowerSample>)
    | SpeedSamples(speedSamples: seq<SpeedSample>)
    | Nutrients(nutrients: map<Nutrient, real>)

  /** The kinds of measurement a record class can carry. */
  datatype Shape =
    | NoReading | OneAmount | OneCount | TwoPressures
    | HeartRateSeries | PowerSeries | SpeedSeries | NutrientMap

  function ShapeOf(r: Reading): Shape {
    match r
    case NotRead => NoReading
    case Amount(_) => OneAmount
    case Count(_) => OneCount
    case Pressure(_, _) => TwoPressures
    case HeartRateSamples(_) => HeartRateSeries
    case PowerSamples(_) => PowerSeries
    case SpeedSamples(_) => SpeedSeries
    case Nutrients(_) => NutrientMap
  }

  /** The measurement each record class carries. */
  function ShapeFor(k: Kind): Shape {
    match k
    case HeartRateRecord => HeartRateSeries
    case StepsRecord => OneCount                                // count
    case ActiveCaloriesBurnedRecord => OneAmount                // energy, kcal
    case BasalBodyTemperatureRecord => OneAmount                // temperature, Celsius
    case BasalMetabolicRateRecord => OneAmount                  // kcal per day
    case BloodGlucoseRecord => OneAmount                        // level, mg/dL
    case BloodPressureRecord => TwoPressures                     // systolic, diastolic, mmHg
    case BodyFatRecord => OneAmount                             // percentage
    case BodyTemperatureRecord => OneAmount                     // Celsius
    case BodyWaterMassRecord => OneAmount                       // grams
    case BoneMassRecord => OneAmount                            // grams
    case CervicalMucusRecord => NoReading
    case DistanceRecord => OneAmount                            // metres
    case ElevationGainedRecord => OneAmount                     // metres
    case FloorsClimbedRecord => OneAmount                       // floors
    case HeartRateVariabilityRmssdRecord => OneAmount           // milliseconds
    case HeightRecord => OneAmount                              // metres
    case HydrationRecord => OneAmount                           // millilitres
    case IntermenstrualBleedingRecord => NoReading
    case LeanBodyMassRecord => OneAmount                        // grams
    case MenstruationPeriodRecord => NoReading                 // only its times are read
    case MenstruationFlowRecord => NoReading
    case OvulationTestRecord => NoReading
    case OxygenSaturationRecord => OneAmount                    // percentage
    case PlannedExerciseSessionRecord => NoReading
    case PowerRecord => PowerSeries
    case RespiratoryRateRecord => OneAmount                     // breaths per minute
    case RestingHeartRateRecord => OneCount                     // beats per minute
    case SexualActivityRecord => NoReading
    case SleepSessionRecord => NoReading
    case SpeedRecord => SpeedSeries
    case TotalCaloriesBurnedRecord => OneAmount                 // kcal
    case Vo2MaxRecord => OneAmount                              // mL/(min kg)
    case WheelchairPushesRecord => OneCount                     // count
    case WeightRecord => OneAmount                              // kilograms
    case SkinTemperatureRecord => NoReading
    case NutritionRecord => NutrientMap
  }

  /** The classes that implement Health Connect's `InstantaneousRecord` (one
      `time`); every other class is an `IntervalRecord` (`startTime`, `endTime`). */
  predicate IsInstantaneous(k: Kind) {
    match k
    case HeartRateRecord => false
    case StepsRecord => false
    case ActiveCaloriesBurnedRecord => false
    case BasalBodyTemperatureRecord => true
    case BasalMetabolicRateRecord => true
    case BloodGlucoseRecord => true
    case BloodPressureRecord => true
    case BodyFatRecord => true
    case BodyTemperatureRecord => true
    case BodyWaterMassRecord => true
    case BoneMassRecord => true
    case CervicalMucusRecord => true
    case DistanceRecord => false
    case ElevationGainedRecord => false
    case FloorsClimbedRecord => false
    case HeartRateVariabilityRmssdRecord => true
    case HeightRecord => true
    case HydrationRecord => false
    case IntermenstrualBleedingRecord => true
    case LeanBodyMassRecord => true
    case MenstruationPeriodRecord => false
    case MenstruationFlowRecord => true
    case OvulationTestRecord => true
    case OxygenSaturationRecord => true
    case PlannedExerciseSessionRecord => false
    case PowerRecord => false
    case RespiratoryRateRecord => true
    case RestingHeartRateRecord => true
    case SexualActivityRecord => true
    case SleepSessionRecord => false
    case SpeedRecord => false
    case TotalCaloriesBurnedRecord => false
    case Vo2MaxRecord => true
    case WheelchairPushesRecord => false
    case WeightRecord => true
    case SkinTemperatureRecord => false
    case NutritionRecord => false
  }

  /** The class-specific part of a record: its class, its time or time span,
      and its measurement. */
  datatype Body =
    | Instantaneous(kind: Kind, time: Instant, reading: Reading)
    | Interval(kind: Kind, startTime: Instant, endTime: Instant, reading: Reading)

  /** The fields an object of a record class can actually have: the time
      shape and the measurement both agree with the class. Every record the
      Health Connect client hands out satisfies it. */
  predicate WellShaped(b: Body) {
    b.Instantaneous? == IsInstantaneous(b.kind) && ShapeOf(b.reading) == ShapeFor(b.kind)
  }

  /** `b` is an object of class `clazz`: the well-shaped bodies of that class.
      It is stated against `clazz` itself rather than `b.kind`, which keeps
      decoding proofs from unfolding the class tables per body. */
  predicate IsObjectOf(b: Body, clazz: Kind) {
    b.kind == clazz && b.Instantaneous? == IsInstantaneous(clazz) && ShapeOf(b.reading) == ShapeFor(clazz)
  }

  /** An object of a class is exactly a well-shaped body of that class. */
  lemma IsObjectOfIsWellShaped(b: Body, clazz: Kind)
    ensures IsObjectOf(b, clazz) <==> b.kind == clazz && WellShaped(b)
  {
  }

  /** `record.metadata`: the provider-assigned id and the package that wrote the record. */
  datatype Metadata = Metadata(id: string, dataOrigin: string)

  /** A Health Connect `Record`. */
  datatype HealthRecord = HealthRecord(metadata: Metadata, body: Body)

  /** The class of a record, as `record::class`. */
  function KindOf(b: Body): Kind {
    b.kind
  }

  /** The time a record is "as of": `time` for an instantaneous record and
      `endTime` for an interval record. */
  function Timestamp(b: Body): Instant {
    match b
    case Instantaneous(_, t, _) => t
    case Interval(_, _, e, _) => e
  }

  /** Every record class, in the order the app backfills them, `NutritionRecord` last. */
  function AllKinds(): seq<Kind> {
    [
      HeartRateRecord, StepsRecord, ActiveCaloriesBurnedRecord, BasalBodyTemperatureRecord,
      BasalMetabolicRateRecord, BloodGlucoseRecord, BloodPressureRecord, BodyFatRecord,
      BodyTemperatureRecord, BodyWaterMassRecord, BoneMassRecord, CervicalMucusRecord,
      DistanceRecord, ElevationGainedRecord, FloorsClimbedRecord,
      HeartRateVariabilityRmssdRecord, HeightRecord, HydrationRecord,
      IntermenstrualBleedingRecord, LeanBodyMassRecord, MenstruationPeriodRecord,
      MenstruationFlowRecord, OvulationTestRecord, OxygenSaturationRecord,
      PlannedExerciseSessionRecord, PowerRecord, RespiratoryRateRecord, RestingHeartRateRecord,
      SexualActivityRecord, SleepSessionRecord, SpeedRecord, TotalCaloriesBurnedRecord,
      Vo2MaxRecord, WheelchairPushesRecord, WeightRecord, SkinTemperatureRecord,
      NutritionRecord
    ]
  }

  lemma AllKindsComplete(k: Kind)
    ensures k in AllKinds()
  {
  }
}
