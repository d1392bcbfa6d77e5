# open-health: the record cache and its read side, in Dafny

open-health is an Android viewer for Health Connect data. On its first launch,
when its Room database is empty, it reads 36 Health Connect record classes up to
the current instant. It stores each record it gets back as a `RecordData` row:
the record's id, a payload, and its class. Only a `NutritionRecord` is stored
with its JSON text as payload; every other record gets an empty payload. None
of the 36 classes read on first launch is `NutritionRecord`, so every row that
backfill writes has an empty payload. Every screen card then reads rows back
from that store:

- A basic card shows the value and time of the last row of its class, projected
  by `getValueAndTime`.
- A nutrition card sums one nutrient over the nutrition records that ended
  within the last 24 hours.

The model covers:

- **JavaTime** (`java_time.dfy`): `Instant` as epoch second plus nano-of-second.
  It has `isBefore`/`isAfter`, `minusSeconds`, `ofEpochSecond`, and
  `Duration.between(..).toDays()` with Java's truncating division.
- **HealthRecords** (`health_records.dfy`): the 37 record classes the app uses,
  and a record as metadata (id, origin package) plus a body. A body is either
  instantaneous (`time`) or interval (`startTime`, `endTime`), with the
  measurement the app reads. `WellShaped` says the time shape and the
  measurement agree with the class.
- **AppDatabase** (`app_database.dfy`):
  - the Gson `Instant` adapter, which stores whole epoch seconds;
  - the JSON payload of a row, as `""` or a document;
  - the `KClass` column converter, as an injective name table;
  - the table's semantics as functions over the row sequence;
  - the `RecordDataDao` class: a map from id to entry plus the ids in
    insertion order, with `insert`, `get`, `delete`, `getAllOfClass` and
    `count` each proved against those functions.
- **DataViews** (`data_views.dfy`):
  - `getValueAndTime`;
  - the basic card's load step, as a class with `value` and `lastTime`;
  - the nutrition card's accumulation loop, as a method proved against the
    window total, and the window total proved equal to a plain sum over
    the recent records;
  - the four-way `toRecentTimeString` classification.
- **MainActivity** (`main_activity.dfy`):
  - `recordToString` and `createRecordData`;
  - the `before(now)` read request;
  - `readForFirstTime` and `readAllForFirstTime`, as methods on the DAO proved
    against a backfill function;
  - the `count() == 0` launch guard.
- **DisabledSync** (`disabled_sync.dfy`): a model of `syncData` and
  `processChanges`. **In the source this code and its call site are commented
  out**; the running app never executes it. The model follows the commented
  text.

The Health Connect client is an input. It is a function from a read request to
the first page of records, or to a thrown exception. `Instant.now()` is the
clock: a function from the class being read to the instant its request is built
at. The disabled change feed is likewise a function from token to page.

The model follows the code. In particular:

- `insert` is a plain `@Insert`. A duplicate id is a constraint failure, not an
  upsert.
- The backfill has no per-class error isolation.
- The nutrition window has no upper bound.
- Only the first page of each read response is used.
- Height is shown as `inMeters / 100`, exactly as `getValueAndTime` computes it
  (see Findings).

## Model

| member | source | states |
|---|---|---|
| JavaTime.IsBeforeMeansEarlier | app/src/main/java/com/health/openhealth/DataViews.kt:371 | The field-wise `isBefore` on (second, nano) agrees with comparing the instants' positions on the time line, in both directions |
| JavaTime.ToDays | app/src/main/java/com/health/openhealth/DataViews.kt:279 | `toDays()` truncates toward zero: for non-negative seconds `d` whole days fit and `d + 1` do not; for negative seconds the bracket is mirrored |
| JavaTime.DurationSecondsFloors | app/src/main/java/com/health/openhealth/DataViews.kt:279 | The whole seconds of `Duration.between` are the elapsed time rounded down |
| JavaTime.MinusSecondsMovesBack | app/src/main/java/com/health/openhealth/DataViews.kt:371 | `minusSeconds(s)` moves the instant back by exactly `s` seconds |
| AppDatabase.SerializeInstant | app/src/main/java/com/health/openhealth/AppDatabase.kt:36-42 | `serialize` writes the instant's epoch second: the whole number of seconds the instant lies in, rounded down |
| AppDatabase.DeserializeInstant | app/src/main/java/com/health/openhealth/AppDatabase.kt:28-34 | `deserialize` reads the number as `ofEpochSecond`: an instant exactly that many seconds after the epoch, with no nanoseconds |
| AppDatabase.InstantRoundTrip | app/src/main/java/com/health/openhealth/AppDatabase.kt:27-43 | The adapter stores the instant rounded down to its epoch second. Writing then reading drops the sub-second part and nothing else; the result is less than a second earlier, equals the input iff its nano is 0, and a second trip changes nothing |
| AppDatabase.EpochSecondRoundTrip | app/src/main/java/com/health/openhealth/AppDatabase.kt:33-41 | Reading then writing a stored epoch second gives the same number back |
| AppDatabase.AdaptReading | app/src/main/java/com/health/openhealth/AppDatabase.kt:24 | Passing a measurement through Gson keeps its shape. A measurement without samples is unchanged; a HeartRate, Power or Speed series has each sample's time passed through the adapter, and its values kept |
| AppDatabase.AdaptInstants | app/src/main/java/com/health/openhealth/AppDatabase.kt:24 | Passing a body through Gson keeps its class and whether it is well shaped |
| AppDatabase.ToJson | app/src/main/java/com/health/openhealth/AppDatabase.kt:24 | `gson.toJson` gives a JSON document with the record's metadata, of the record's class, whose timestamp is the record's passed through the `Instant` adapter |
| AppDatabase.FromJson | app/src/main/java/com/health/openhealth/AppDatabase.kt:24 | `fromJson` gives `null` exactly for the empty string. A parsed result is the stored document, and that document is of the class asked for |
| AppDatabase.JsonRoundTrip | app/src/main/java/com/health/openhealth/AppDatabase.kt:24-43 | A well-shaped record read back under its own class is the record with every instant cut to the whole second |
| AppDatabase.AdaptInstantsIdempotent | app/src/main/java/com/health/openhealth/AppDatabase.kt:27-43 | A record already stored through Gson is unchanged by a second trip |
| AppDatabase.FromType | app/src/main/java/com/health/openhealth/AppDatabase.kt:57-59 | `fromType` gives a qualified name: the records package followed by a non-empty simple name |
| AppDatabase.ToType | app/src/main/java/com/health/openhealth/AppDatabase.kt:61-63 | A name `toType` resolves is the qualified name of the class it returns; a name it cannot resolve is no record class's qualified name |
| AppDatabase.SimpleNameInjective | app/src/main/java/com/health/openhealth/AppDatabase.kt:57-59 | No two record classes share a simple name |
| AppDatabase.FromTypeInjective | app/src/main/java/com/health/openhealth/AppDatabase.kt:57-59 | Two classes have the same qualified name iff they are the same class |
| AppDatabase.ClassFor | app/src/main/java/com/health/openhealth/AppDatabase.kt:61-63 | The lookup behind `Class.forName` returns a class whose qualified name is the name given, or reports that no listed class has that name |
| AppDatabase.ConverterRoundTrip | app/src/main/java/com/health/openhealth/AppDatabase.kt:55-64 | `toType(fromType(k)) == k` for every record class |
| AppDatabase.ConverterInverse | app/src/main/java/com/health/openhealth/AppDatabase.kt:55-64 | A name `toType` accepts is the stored name of the class it returns; every other name belongs to no class |
| AppDatabase.Lookup | app/src/main/java/com/health/openhealth/AppDatabase.kt:70-71 | `get(id)` returns a stored row with that id, and returns nothing iff no row has that id |
| AppDatabase.WithoutId | app/src/main/java/com/health/openhealth/AppDatabase.kt:72-73 | `delete(id)` keeps exactly the rows with another id; an absent id leaves the table unchanged |
| AppDatabase.OfKind | app/src/main/java/com/health/openhealth/AppDatabase.kt:74-75 | `getAllOfClass(k)` holds exactly the rows whose class is `k` |
| AppDatabase.InsertRow | app/src/main/java/com/health/openhealth/AppDatabase.kt:48-49 | A plain insert appends the row iff its id is fresh; otherwise it fails with a constraint violation and leaves the table unchanged. The primary-key constraint is kept |
| AppDatabase.LookupFinds | app/src/main/java/com/health/openhealth/AppDatabase.kt:70-71 | With unique ids, `get` finds every stored row by its id |
| AppDatabase.WithoutIdCount | app/src/main/java/com/health/openhealth/AppDatabase.kt:72-73 | Deleting keeps ids unique, and removes one row iff the id was present |
| AppDatabase.OfKindAppend | app/src/main/java/com/health/openhealth/AppDatabase.kt:74-75 | `getAllOfClass` keeps insertion order: a row added later is listed later |
| AppDatabase.OfKindUnique | app/src/main/java/com/health/openhealth/AppDatabase.kt:74-75 | `getAllOfClass` returns no row twice |
| AppDatabase.InsertIsNotUpsert | app/src/main/java/com/health/openhealth/AppDatabase.kt:68-69 | Inserting an existing id fails, and `get` still returns the old row |
| AppDatabase.InsertThenGet | app/src/main/java/com/health/openhealth/AppDatabase.kt:68-71 | After inserting a fresh id, `get` returns the new row for that id and the old answer for every other id |
| AppDatabase.DeleteThenGet | app/src/main/java/com/health/openhealth/AppDatabase.kt:70-73 | After `delete(id)`, `get(id)` is empty and `get` of every other id is unchanged |
| AppDatabase.SelectByTypeIsOfKind | app/src/main/java/com/health/openhealth/AppDatabase.kt:74-75 | Scanning the stored entries for a class yields the `getAllOfClass` rows of the table |
| AppDatabase.RemoveKeyTabulates | app/src/main/java/com/health/openhealth/AppDatabase.kt:72-73 | Removing a key from the map and the key order removes exactly that row from the table |
| AppDatabase.RecordDataDao.RowsAreUnique | app/src/main/java/com/health/openhealth/AppDatabase.kt:48-49 | The DAO's rows satisfy the primary-key constraint |
| AppDatabase.RecordDataDao.Insert | app/src/main/java/com/health/openhealth/AppDatabase.kt:68-69 | The new table and the outcome are those of `InsertRow` on the old table |
| AppDatabase.RecordDataDao.Get | app/src/main/java/com/health/openhealth/AppDatabase.kt:70-71 | Returns `Lookup` of the table |
| AppDatabase.RecordDataDao.Delete | app/src/main/java/com/health/openhealth/AppDatabase.kt:72-73 | The new table is `WithoutId` of the old one |
| AppDatabase.RecordDataDao.GetAllOfClass | app/src/main/java/com/health/openhealth/AppDatabase.kt:74-75 | Returns `OfKind` of the table, in insertion order |
| AppDatabase.RecordDataDao.Count | app/src/main/java/com/health/openhealth/AppDatabase.kt:76-77 | Returns the number of rows |
| DataViews.ValueAndTime | app/src/main/java/com/health/openhealth/DataViews.kt:214-325 | Throws (`last()` on no samples) exactly for a series record with an empty sample list. Shows nothing exactly for the eight empty branches and Nutrition. Every shown class except HeartRate is shown as of `time` (instantaneous) or `endTime` (interval). A count is shown as a whole number and an amount as a decimal; Height's amount is shown as written, divided by 100 |
| DataViews.SeriesShowLastSample | app/src/main/java/com/health/openhealth/DataViews.kt:216-217 | HeartRate shows the last sample's bpm at that sample's own time; Power and Speed (lines 292-293, 305-306) show the last sample's value at the record's `endTime` |
| DataViews.BloodPressureOrder | app/src/main/java/com/health/openhealth/DataViews.kt:234-238 | Blood pressure is shown diastolic first, then systolic, as of `time` |
| DataViews.MenstruationPeriodDays | app/src/main/java/com/health/openhealth/DataViews.kt:277-281 | A period is shown as of `endTime`, as the whole days `d` such that `d` days fit into its length and `d + 1` do not |
| DataViews.HeightInCentimetres | app/src/main/java/com/health/openhealth/DataViews.kt:164 | The corrected conversion: the value in centimetres, divided by 100, is the height in metres |
| DataViews.HeightAsWrittenMisreports | app/src/main/java/com/health/openhealth/DataViews.kt:267 | The code as written shows 1.75 m as 0.0175 under the unit "cm"; the corrected conversion shows 175 |
| DataViews.CorrectedValueAndTime | app/src/main/java/com/health/openhealth/DataViews.kt:214-325 | The intended projection: every class but Height as `getValueAndTime` shows it; a Height as of `time`, in centimetres, so that its value divided by 100 is the height in metres |
| DataViews.HeightProjections | app/src/main/java/com/health/openhealth/DataViews.kt:267 | For a 1.75 m height, `getValueAndTime` as written shows 0.0175 and the corrected projection shows 175 |
| DataViews.LatestPoint | app/src/main/java/com/health/openhealth/DataViews.kt:340-345 | No rows iff the query is empty. A last row with an empty payload throws, because Gson yields `null`. A projected point is `getValueAndTime` of the last row's document, which is of the class asked for. Conversely, a last row holding a document is projected: a document of another class fails, and one of the class asked for gives `getValueAndTime`'s exception or point |
| DataViews.LatestIgnoresEarlierRows | app/src/main/java/com/health/openhealth/DataViews.kt:342 | Only the last row is looked at, whatever the times of the rows before it |
| DataViews.BasicRecordCard.Load | app/src/main/java/com/health/openhealth/DataViews.kt:335-348 | With no rows, or on an exception, `value` and `lastTime` stay as they were. Otherwise they become the projected value and time of the last row, both null when nothing is shown, which is exactly when the card reads "No data" (lines 95-98) |
| DataViews.FailureStops | app/src/main/java/com/health/openhealth/DataViews.kt:368-373 | A row that cannot be decoded ends the loop with its exception, whatever follows |
| DataViews.WindowTotalFailure | app/src/main/java/com/health/openhealth/DataViews.kt:366-374 | The window total fails only with the exception of one of its rows, and it passes whenever every row decodes |
| DataViews.SumLastDay | app/src/main/java/com/health/openhealth/DataViews.kt:367-373 | The `temp` loop computes the window total of the rows in order, or the first row's exception |
| DataViews.NutritionRowContributes | app/src/main/java/com/health/openhealth/DataViews.kt:369-372 | A nutrition document always decodes, and adds its quantity iff it ended within the window |
| DataViews.WindowTotalIsRecentSum | app/src/main/java/com/health/openhealth/DataViews.kt:366-374 | When every row is a nutrition document, the total is the sum of the nutrient over the records whose `endTime` is strictly after `now - 86400 s` |
| DataViews.WindowBoundary | app/src/main/java/com/health/openhealth/DataViews.kt:371-385 | A record that ended exactly one day before `now`, or that lacks the nutrient (`?: 0.0`), adds 0 |
| DataViews.RecentRecords | app/src/main/java/com/health/openhealth/DataViews.kt:371 | Keeps exactly the records whose timestamp is in the 24-hour window |
| DataViews.RecentRecordsAppend | app/src/main/java/com/health/openhealth/DataViews.kt:366-374 | A record added after the others is kept, after the earlier ones, iff it is in the window: the filter keeps order |
| DataViews.NutritionCard.Load | app/src/main/java/com/health/openhealth/DataViews.kt:365-374 | `total` becomes the window total of the nutrition rows; on an exception it keeps its old value |
| DataViews.RecentLabel | app/src/main/java/com/health/openhealth/DataViews.kt:104-116 | The checks run oldest first and the first match wins. Each of the four labels is given exactly when its condition holds and the earlier ones fail |
| DataViews.RecentLabelBands | app/src/main/java/com/health/openhealth/DataViews.kt:104-116 | With ordered thresholds, "Yesterday" and "HH:mm" each cover one band, and a later time never gets an older label |
| MainActivity.RecordToString | app/src/main/java/com/health/openhealth/MainActivity.kt:120-125 | The payload is JSON iff the record is a `NutritionRecord`, and `""` otherwise |
| MainActivity.RecordToStringDecodes | app/src/main/java/com/health/openhealth/MainActivity.kt:120-125 | A nutrition payload decodes to the record with whole-second instants. Any other record's payload decodes to `null` under every class |
| MainActivity.CreateRecordData | app/src/main/java/com/health/openhealth/MainActivity.kt:127-133 | The row is keyed by the record's metadata id and tagged with the class it was read as. Its payload is empty iff the record is not nutrition |
| MainActivity.FirstTimeRequestBounds | app/src/main/java/com/health/openhealth/MainActivity.kt:137-141 | The request is for the class being read and has no lower bound. It admits exactly the instants before `now` |
| MainActivity.CreatedRows | app/src/main/java/com/health/openhealth/MainActivity.kt:143 | One row per record of the page, in page order, each `createRecordData(r, clazz)` |
| MainActivity.InsertAll | app/src/main/java/com/health/openhealth/MainActivity.kt:143 | The old rows stay as a prefix, and the new rows are the given rows in order. It passes iff all were inserted; otherwise it fails on the id of the first row not inserted |
| MainActivity.InsertAllPasses | app/src/main/java/com/health/openhealth/MainActivity.kt:143 | An insert loop that passes has appended every row |
| MainActivity.InsertAllStopsAtDuplicate | app/src/main/java/com/health/openhealth/MainActivity.kt:143 | The loop stops exactly at a duplicate: the row it fails on has an id already stored, and every row it added has an id no earlier row has |
| MainActivity.InsertAllStops | app/src/main/java/com/health/openhealth/MainActivity.kt:143 | After a failed insert, no later record of the page is inserted |
| MainActivity.BackfillKind | app/src/main/java/com/health/openhealth/MainActivity.kt:136-144 | The old rows stay as a prefix and every new row carries the class read. A failed read writes nothing and fails. A successful read inserts the page's `createRecordData` rows, and passes iff all of them were inserted; otherwise it fails with the insert's constraint violation |
| MainActivity.Backfill | app/src/main/java/com/health/openhealth/MainActivity.kt:135-181 | The old rows stay as a prefix, and every new row's class is one of the classes read |
| MainActivity.BackfillKindPasses | app/src/main/java/com/health/openhealth/MainActivity.kt:136-144 | A class whose read-and-insert passed was read, and all its rows were appended |
| MainActivity.BackfillPassWritesEveryClass | app/src/main/java/com/health/openhealth/MainActivity.kt:135-181 | A backfill that passes read every class, and appended each class's rows after the old ones, class after class and in page order |
| MainActivity.BackfillStops | app/src/main/java/com/health/openhealth/MainActivity.kt:135-181 | Once a class fails, no later class is read and nothing more is written |
| MainActivity.ReadFailureAborts | app/src/main/java/com/health/openhealth/MainActivity.kt:135-181 | A read that throws ends the whole backfill with the rows written so far, and no later class is read |
| MainActivity.BackfillSkipsNutrition | app/src/main/java/com/health/openhealth/MainActivity.kt:145-180 | The backfill reads 36 classes, and `NutritionRecord` is not one of them |
| MainActivity.BackfillKindsAreAllButNutrition | app/src/main/java/com/health/openhealth/MainActivity.kt:145-180 | The backfill list is every record class but `NutritionRecord`, each once, in a fixed order |
| MainActivity.InsertAllBlank | app/src/main/java/com/health/openhealth/MainActivity.kt:120-143 | Inserting rows with empty payloads into a table of empty payloads leaves only empty payloads |
| MainActivity.BackfillRowsAreBlank | app/src/main/java/com/health/openhealth/MainActivity.kt:120-181 | Every row the backfill writes has an empty payload |
| MainActivity.BlankRowsShowNothing | app/src/main/java/com/health/openhealth/MainActivity.kt:120-125 | Over rows with empty payloads, a basic card finds no row, or a last row Gson reads as `null` (DataViews.kt:341-344) |
| MainActivity.NoNutritionRowsTotalZero | app/src/main/java/com/health/openhealth/MainActivity.kt:145-180 | Without nutrition rows, every nutrition total is 0 |
| MainActivity.AfterBackfillNothingToShow | app/src/main/java/com/health/openhealth/MainActivity.kt:70-71 | After the first-launch backfill, no basic card can show a value, and every nutrition total is 0 |
| MainActivity.ReadForFirstTime | app/src/main/java/com/health/openhealth/MainActivity.kt:136-144 | The new table and the outcome are `BackfillKind` of the old table |
| MainActivity.ReadAllForFirstTime | app/src/main/java/com/health/openhealth/MainActivity.kt:135-181 | The new table and the outcome are `Backfill` of the old table over the 36 classes |
| MainActivity.OnLaunch | app/src/main/java/com/health/openhealth/MainActivity.kt:70-71 | Backfills iff the store was empty. A non-empty store is left exactly as it was; an empty one becomes the backfill of the 36 classes |
| DisabledSync.ApplyChange | app/src/main/java/com/health/openhealth/MainActivity.kt:185-218 | (Commented-out code) A deletion always passes. An upsertion that is not another app's record of a synced class leaves the store as it is. A failure leaves the store as it is, and comes from such an upsertion, with its record's id |
| DisabledSync.DeletionAlwaysApplies | app/src/main/java/com/health/openhealth/MainActivity.kt:185-187 | (Commented-out code) A deletion is applied whatever app made it, removing exactly the rows with that id |
| DisabledSync.UpsertionFilter | app/src/main/java/com/health/openhealth/MainActivity.kt:189-218 | (Commented-out code) An upsertion from the app's own package, or of a class other than HeartRate, Steps or Nutrition, changes nothing. Otherwise a fresh id is appended |
| DisabledSync.UpsertionOfStoredIdThrows | app/src/main/java/com/health/openhealth/MainActivity.kt:191-203 | (Commented-out code) An upsertion of a stored id is not an update: the plain insert fails |
| DisabledSync.ApplyChangesStops | app/src/main/java/com/health/openhealth/MainActivity.kt:211-219 | (Commented-out code) After a failed change, no later change is applied |
| DisabledSync.ApplyChangesFailure | app/src/main/java/com/health/openhealth/MainActivity.kt:211-219 | (Commented-out code) A page's changes fail only at an upsertion that writes a row, with its record's id; a page of deletions never fails |
| DisabledSync.OwnChangesAreSkipped | app/src/main/java/com/health/openhealth/MainActivity.kt:213-216 | (Commented-out code) Changes the app wrote itself never alter the store |
| DisabledSync.EndsAfterUnique | app/src/main/java/com/health/openhealth/MainActivity.kt:208-221 | (Commented-out code) A feed ends after one number of pages only, so the loop's run is determined |
| DisabledSync.PageAt | app/src/main/java/com/health/openhealth/MainActivity.kt:209-220 | (Commented-out code) Each page answers the token the page before it handed back |
| DisabledSync.ApplyPagesFailure | app/src/main/java/com/health/openhealth/MainActivity.kt:208-221 | (Commented-out code) A run of pages fails only at an upsertion of one of its pages that writes a row, with its record's id |
| DisabledSync.OwnPagesAreSkipped | app/src/main/java/com/health/openhealth/MainActivity.kt:208-221 | (Commented-out code) Pages holding only the app's own upsertions leave the store as it is |
| DisabledSync.OwnFeedIsIdle | app/src/main/java/com/health/openhealth/MainActivity.kt:206-224 | (Commented-out code) `processChanges` over a feed of the app's own writes changes nothing and returns the last page's `nextChangesToken` |
| DisabledSync.ProcessChangesFailure | app/src/main/java/com/health/openhealth/MainActivity.kt:206-224 | (Commented-out code) `processChanges` fails only at an upsertion of the feed that writes a row, with its record's id |
| DisabledSync.ProcessChange | app/src/main/java/com/health/openhealth/MainActivity.kt:185-218 | (Commented-out code) The new table and the outcome are `ApplyChange` of the old table |
| DisabledSync.ProcessPage | app/src/main/java/com/health/openhealth/MainActivity.kt:211-219 | (Commented-out code) The new table and the outcome are `ApplyChanges` of the old table |
| DisabledSync.ProcessChanges | app/src/main/java/com/health/openhealth/MainActivity.kt:206-224 | (Commented-out code) The do-while loop applies every page of a feed that ends after `n` pages. It returns the last page's `nextChangesToken`, or the first failure |
| DisabledSync.SyncData | app/src/main/java/com/health/openhealth/MainActivity.kt:226-229 | (Commented-out code) Runs `processChanges` from a token requested for `NutritionRecord` only, and discards the token it returns. The store ends as `ProcessChangesSpec` gives it, and a failure carries its error |

## Left out

- I/O and external systems: the Health Connect client, `Instant.now()` and the change feed are inputs. Room/SQLite is the in-memory `RecordDataDao`. `Class.forName` is a search over the record classes.
- Concurrency: `inHealthScope`, `LaunchedEffect` and the `Dispatchers.IO` coroutines. Every operation is a sequential call.
- `println`, the Compose UI (`RecordView`, the per-class card wrappers), `BrowseScreen.kt` and `onCreate`'s SDK checks are not part of this model.
- Text rendering: `toString()`, `"%.3f"`, the date patterns and `TIME_ZONE`. Values are numbers. A time label is one of four tags, over a local time line whose thresholds (`now` minus a year, two days, one day) are parameters.
- Units: measurements are held in the unit the app shows them in, so `inKilocalories`, `inGrams` and the like are not modelled. Height is kept in metres, as the library stores it (see Findings).
- Gson's reflective encoding: a JSON document stands for the record it encodes. Only the `Instant` adapter's effect is modelled. A document that is not an object of the class asked for decodes to `ForeignShape`, which the cards report as a `ForeignDocument` error; Gson's partial objects are not modelled.
- Floating point: Kotlin `Double` values (amounts, pressures, sample values, nutrient quantities, the `temp +=` total and `inMeters / 100`) are exact `real`s. IEEE rounding is not modelled; the loop total is a left fold in the loop's own order, but each addition and division is exact.
- The 42 nutrient selectors are one selector over a map of optional nutrient fields.
- 64-bit `Long` ranges of `Instant`, `Duration` and `count()` are not modelled; integers are unbounded.
- `RecordDataDao`: the entry keeps the class itself rather than its qualified name. This is sound by `ConverterRoundTrip` and `FromTypeInjective`. Row order is insertion order, an assumption, since the query has no `ORDER BY`.
- Nutrition loop: `Instant.now()` is read once per load rather than once per row.
- Read responses: only the first page of `readRecords` is used, as the code does; the page token is ignored.
- MainActivity.InsertAll: does not restate that ids stay unique. `RecordDataDao.Valid` keeps that invariant.
- MainActivity.Backfill: likewise does not restate that ids stay unique.
- MainActivity.BackfillRowsAreBlank: assumes each read returns records of the class requested (`AnswersInKind`), as `readRecords` is typed.
- MainActivity.AfterBackfillNothingToShow: makes the same assumption.
- DisabledSync.ProcessChanges: takes as a precondition that the feed ends (some page says `hasMore == false`). The source loops for as long as the server says there is more.
- The commented-out upsertion calls `createRecordData(record)` with one argument, which the two-argument definition does not accept. The model passes the record's own class.

## Findings

| source | as written | input that shows it | evidently intended | confidence | as-written member | corrected member |
|---|---|---|---|---|---|---|
| app/src/main/java/com/health/openhealth/DataViews.kt:267 | Height is shown as `height.inMeters / 100` under the unit "cm" (line 164) | a height of 1.75 m is shown as 0.0175 "cm" | `inMeters * 100`, i.e. 175 cm | not executed | DataViews.HeightProjections | DataViews.CorrectedValueAndTime |

`DataViews.ValueAndTime` models the code as written, and so does every card
built on it. `DataViews.CorrectedValueAndTime` is the intended projection,
built on `DataViews.HeightInCentimetres`; it agrees with `ValueAndTime` on every
other class.
