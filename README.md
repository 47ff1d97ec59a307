# Air-quality sensor pipeline: a verified model

This project models the core of an air-quality monitoring system. Devices post readings. A Next.js application validates them, fingerprints them, stores them and serves them to a map. A legacy FastAPI backend keeps sensors and user permissions in an in-memory document store. A Raspberry Pi script decodes the sensor's serial frames.

The model is split into Dafny modules that follow the program's structure:

- `SensorValidation`: the reading validator, with its range table, its timestamp window, its ordered errors and warnings, and the fingerprint input.
- `SensorIngest`: the `POST /api/v1/sensor-data` handler. It is a method over the store, with its early exits and its three writes.
- `SensorSchema` and `SensorStore`: the four tables and their constraints, and a `Store` class with the find-or-create writes, the duplicate check and the append of a reading.
- `SensorQueries`: the read queries. These are the device window, the threshold scan, the low-battery scan, the hourly and daily buckets, and the health summary.
- `MapAqi`, `MapSensors` and `Poller`: AQI categories, the normalisers that turn each source's records into map markers, and the refetch/backoff state machine of the two map hooks.
- `MapDataRoute` and `RecentReadings`: `GET /api/map-data` and `getRecentSensorReadings`.
- `MemoryStore`, `LegacyApi`, `LegacyReads`, `LegacyWrites` and `LegacyAqi`:
  - the `MemoryCollection` class, with `find_one`, `insert_one`, `update_one` with `$set` and `$addToSet`, and `find`;
  - the permission endpoints, the parameter patch and the `/data` upsert;
  - the piecewise-linear PM2.5 to AQI function.
- `DeviceFrame`: the 26-byte frame, its checksum and `parse_sensor_data`.
- Shared value types:
  - `JsValue` holds JSON values and JavaScript's `??`, `||` and truthiness;
  - `PyValues` holds Python values, ObjectId text and `int()` truncation;
  - `Decimal` holds decimal text;
  - `SeqUtils` holds filter, stable sort, first-per-key dedup and `Take`;
  - `Wrappers` holds `Option` and `Result`.

Code that changes state is modelled imperatively:

- the store and the collection are classes whose methods state their new state exactly;
- each handler is a method proved equal to a specification function, and the lemmas about the handler are proved about that function.

Pure code is modelled as functions and lemmas.

## Model

| member | source | states |
|---|---|---|
| SensorValidation.RangeOf | frontend/lib/sensor-validation.ts:35-50 | every field of the range table has its minimum strictly below its maximum (co2 300..5000, battery 0..100, …) |
| SensorValidation.Classify | frontend/lib/sensor-validation.ts:83-89 | a value is absent exactly when it is undefined or null, and a number exactly when it is one (with that number); everything else is the not-a-valid-number case |
| SensorValidation.ValidateTimestamp | frontend/lib/sensor-validation.ts:52-76 | no error iff the text parses and the instant lies in the closed window [now − 5 min, now + 1 h]; an unparsable text, an instant before the window and an instant after it each get their own error, and these cases are exclusive |
| SensorValidation.ValidateRange | frontend/lib/sensor-validation.ts:78-104 | absent is valid with no error and no warning; a non-number gives only the not-a-number error; below min / above max give an error naming the field, the value and that bound, and min and max themselves are accepted; valid iff no error; a warning iff the value is valid, present and at least 0.9·max |
| SensorValidation.Validate | frontend/lib/sensor-validation.ts:106-218 | the result is valid iff its error list is empty |
| SensorValidation.PushRangeChecks | frontend/lib/sensor-validation.ts:123-211 | the per-field loop appends to the lists accumulated so far exactly the range errors and warnings of the listed fields, in field order |
| SensorValidation.ValidateSensorReading | frontend/lib/sensor-validation.ts:106-218 | the step-by-step accumulation of errors and warnings returns exactly `Validate`'s result, which is valid iff there is no error |
| SensorValidation.CheckStage | frontend/lib/sensor-validation.ts:91-101 | an error or warning about a field carries that field's position in the fixed check order |
| SensorValidation.RangeErrorsInOrder | frontend/lib/sensor-validation.ts:123-197 | range errors of fields listed in table order appear in that order |
| SensorValidation.ErrorsInCheckOrder | frontend/lib/sensor-validation.ts:110-211 | the errors always appear in the order device_id, timestamp, readings pm1…pressure, then battery, signal |
| SensorValidation.MissingReadingsStillChecksMetadata | frontend/lib/sensor-validation.ts:123-211 | without a readings object, the errors are those of device_id and timestamp, then the single "readings required" error, then the metadata errors; the result is invalid and the metadata is still checked |
| SensorValidation.RangeWarningsNearMax | frontend/lib/sensor-validation.ts:99-101 | every warning of the range loop is a near-maximum notice for an in-range value at or above 0.9·max, reporting that max |
| SensorValidation.WarningsOnlyNearMaximum | frontend/lib/sensor-validation.ts:99-101 | every warning of a validation concerns a valid value, so warnings never bear on validity |
| SensorValidation.Co2Examples | frontend/lib/sensor-validation.ts:39 | co2 300 is accepted silently, 4500 and 5000 are accepted with a near-maximum warning, and 6000 and 299 are rejected naming the violated bound |
| SensorValidation.RangeErrorsEmpty | frontend/lib/sensor-validation.ts:91-97 | a container has no range error iff each listed field is absent or a number within its bounds |
| SensorValidation.ValidIff | frontend/lib/sensor-validation.ts:110-217 | a payload is valid iff device_id is a non-blank string, the timestamp parses inside the window, readings is an object whose fields are each absent or in range, and (when metadata is truthy) battery and signal are absent or in range |
| SensorValidation.HashInputOf | frontend/lib/sensor-validation.ts:220-230 | the fingerprint input is exactly device_id, timestamp and readings pm25, co2 and temp |
| SensorValidation.SameKeySameHash | frontend/lib/sensor-validation.ts:220-230 | payloads equal on those five fields get the same fingerprint, whatever their metadata, site or other readings |
| SensorValidation.HashInputDistinguishes | frontend/lib/sensor-validation.ts:220-230 | equal fingerprint inputs mean equal device_id, timestamp, pm25, co2 and temp, so no other field is left out of the key |
| SensorIngest.StatusCode | frontend/app/api/v1/sensor-data/route.ts:17-122 | 500 exactly for a missing secret or a caught exception, 401 exactly for a missing header or wrong token, 400 exactly for bad JSON or a validation failure |
| SensorIngest.Token | frontend/app/api/v1/sensor-data/route.ts:31-32 | the token is the header minus a leading "Bearer ", or the whole header when it has no such prefix |
| SensorIngest.NonEmpty | frontend/app/api/v1/sensor-data/route.ts:51-55 | warnings are reported iff there are some, and then all of them |
| SensorIngest.SiteName | frontend/app/api/v1/sensor-data/route.ts:72-75 | no site is looked up iff `payload.site` is falsy; a truthy string is looked up as itself and a truthy number as its text; `true` fails the lookup (no `=` between text and bool), and so does an array or an object |
| SensorIngest.ValidReadingsStorable | frontend/app/api/v1/sensor-data/route.ts:47-89 | readings that pass validation can be written to every measurement column |
| SensorIngest.ValidPayloadInsertable | frontend/app/api/v1/sensor-data/route.ts:47-89 | a valid payload yields an insertable reading row iff battery and signal are whole numbers (when given) and the unvalidated error_code is not an array or an object |
| SensorIngest.ValidMetadataColumns | frontend/app/api/v1/sensor-data/route.ts:83-89 | validated metadata fits the battery, signal and error_code columns iff battery and signal are whole and error_code is not an array or an object |
| SensorIngest.ResolveSensor | frontend/app/api/v1/sensor-data/route.ts:72-81 | succeeds iff the site lookup succeeds and the firmware can be bound; a failed site lookup writes nothing; the site table changes only for a truthy site, whose name is then found; afterwards the device has its sensor row, which is returned, a truthy firmware is its stored firmware text, and a non-string firmware rewrites `updatedAt` on every call; readings and health are untouched |
| SensorIngest.AppendReading | frontend/app/api/v1/sensor-data/route.ts:83-89 | exactly one reading is appended iff the row is insertable; on failure the readings are unchanged; sites, sensors and health are never touched |
| SensorIngest.WriteReading | frontend/app/api/v1/sensor-data/route.ts:72-122 | the three writes end in 201 iff site, firmware and reading row can all be stored, else in 500 with the readings unchanged; a failed site lookup is a 500 that writes nothing; the site table changes only for a truthy site |
| SensorIngest.Post | frontend/app/api/v1/sensor-data/route.ts:14-123 | the checks run in the order secret, header, token, JSON, validation, duplicate, each with its status. Any answer but 201 or 500 leaves sites, sensors and readings unchanged. 201 appends exactly one reading carrying the payload's fingerprint, echoes the reading id, sensor id, device id and timestamp, and leaves the device's sensor findable by device id |
| SensorIngest.PostTwice | frontend/app/api/v1/sensor-data/route.ts:59-70 | when the first of two identical posts is created, the second is answered as a duplicate and only one reading was stored |
| SensorStore.SiteIndex | frontend/lib/sensor-data-access.ts:10-18 | finds a site with exactly that name, or reports that none has it |
| SensorStore.SensorIndex | frontend/lib/sensor-data-access.ts:37-42 | finds a sensor with exactly that device id, or reports that none has it |
| SensorStore.SensorIndexUnique | frontend/lib/db/schema.ts:71 | with unique device ids, the lookup finds each sensor at its own position |
| SensorStore.DoubleColumn | frontend/lib/sensor-data-access.ts:94-120 | null/undefined becomes NULL, a number is stored as itself, and anything else is rejected by the database naming the column |
| SensorStore.IntegerColumn | frontend/lib/sensor-data-access.ts:94-120 | an integer column takes NULL for null/undefined and a number only when it is a 32-bit integer; anything else is rejected |
| SensorStore.TextColumn | frontend/lib/sensor-data-access.ts:94-120 | a text column takes NULL for null/undefined, a string as itself, a number as its `String(n)` text and a boolean as "true"/"false"; it fails exactly for arrays and objects |
| SensorStore.FirmwareColumn | frontend/lib/sensor-data-access.ts:60-66 | `firmwareVersion \|\| null`: NULL exactly for a falsy firmware, otherwise its text (a string as itself, a number as `String(n)`, `true` as "true"); fails exactly for arrays and objects |
| SensorStore.BuildMeasurementsColumns | frontend/lib/sensor-data-access.ts:98-110 | each measurement column holds its own field's value, with temp stored as temperature and hum as humidity |
| SensorStore.MeasurementsOf | frontend/lib/sensor-data-access.ts:98-110 | the measurements can be stored iff every field fits its column, and then each column holds its field |
| SensorStore.ReadingRow | frontend/lib/sensor-data-access.ts:86-121 | a null readings object fails on its first property; a built row carries the given id, sensor id and fingerprint |
| SensorStore.ReadingRowColumns | frontend/lib/sensor-data-access.ts:94-120 | a built row carries the timestamp, every measurement, and battery, signal and error_code in the health columns, with absent fields NULL |
| SensorStore.ReadingRowInsertable | frontend/lib/sensor-data-access.ts:86-121 | a row can be built iff the readings and metadata are insertable |
| SensorStore.SiteOrNull | frontend/lib/sensor-data-access.ts:64 | a site id is stored only when given and non-zero |
| JsValue.NumberTextOfWhole | frontend/lib/sensor-data-access.ts:8-18 | a whole number below 10^21 sent to a text column is written as its decimal digits (with a sign), so distinct whole numbers name distinct sites |
| SensorStore.AppendSiteConsistent | frontend/lib/db/schema.ts:48-65 | appending a site with a fresh id keeps every table constraint |
| SensorStore.ReplaceSensorConsistent | frontend/lib/db/schema.ts:67-92 | replacing a sensor row by one with the same id and device id keeps every constraint |
| SensorStore.AppendSensorConsistent | frontend/lib/db/schema.ts:67-92 | appending a sensor with a fresh id, a new device id and an existing or no site keeps every constraint |
| SensorStore.AppendReadingConsistent | frontend/lib/db/schema.ts:94-133 | appending a reading with a fresh id for an existing sensor keeps every constraint |
| SensorStore.Store.constructor | frontend/lib/db/schema.ts:48-158 | an empty database satisfies the constraints, with every serial counter at 1 |
| SensorStore.Store.FindOrCreateSite | frontend/lib/sensor-data-access.ts:8-29 | an existing name returns its id and changes nothing. An unknown name appends exactly one site (country "KZ") and returns its new id. Afterwards the name exists, so a repeated call inserts nothing. Other tables are untouched |
| SensorStore.Store.FindOrCreateSensor | frontend/lib/sensor-data-access.ts:31-73 | an existing device keeps its id, device id, site, type and active flag; only firmware and updatedAt change, and only when a truthy firmware is not the stored string (so a number or `true` is rewritten every time). An unknown device appends exactly one sensor with `siteId \|\| null` and `firmwareVersion \|\| null`, or fails on a firmware that cannot be bound or a site id that does not exist, changing nothing. The returned row is the device's row in the new table |
| SensorStore.Store.RefreshSensor | frontend/lib/sensor-data-access.ts:43-58 | firmware and updatedAt change only when a truthy incoming firmware is not the stored string, and then the firmware becomes its text; nothing else in the row or the store changes |
| SensorStore.Store.AddSensor | frontend/lib/sensor-data-access.ts:60-72 | appends one sensor of type air_quality, active, with the next id, the given site and firmware column values, findable by its device id |
| SensorStore.Store.CheckDuplicateReading | frontend/lib/sensor-data-access.ts:75-84 | true iff some stored reading has exactly that fingerprint |
| SensorStore.Store.InsertSensorReading | frontend/lib/sensor-data-access.ts:86-121 | a row that cannot be built, or whose sensor does not exist, changes nothing and reports the database error; otherwise exactly that row is appended under the next id, which is returned |
| SensorStore.InsertedHashIsStored | frontend/lib/sensor-data-access.ts:75-84 | after an append the new fingerprint is found, and every fingerprint found before still is |
| SensorSchema.SchemaAdmitsDuplicateNamesAndHashes | frontend/lib/db/schema.ts:52-63 | two sites of the same name and two readings with the same fingerprint satisfy every constraint, while two sensors with one device id do not |
| SensorQueries.SensorById | frontend/lib/sensor-data-access.ts:160 | finds the sensor with that id, or none iff no sensor has it |
| SensorQueries.SiteById | frontend/lib/sensor-data-access.ts:161 | finds a site with that id, and finds one whenever the id names an existing site |
| SensorQueries.JoinRows | frontend/lib/sensor-data-access.ts:156-161 | the join keeps exactly the readings whose sensor exists, each joined with its sensor and optional site |
| SensorQueries.JoinKeepsEveryReading | frontend/lib/db/schema.ts:98 | with the foreign key holding, the inner join keeps every reading |
| SensorQueries.ReadingsByDevice | frontend/lib/sensor-data-access.ts:150-170 | newest first, and a permutation of exactly that device's readings with timestamp in the closed [start, end] |
| SensorQueries.ReadingsExceedingThresholds | frontend/lib/sensor-data-access.ts:297-341 | newest first, and a permutation of exactly the joined rows satisfying every condition: a strict ">" per truthy threshold and inclusive date bounds |
| SensorQueries.NullNeverExceeds | frontend/lib/sensor-data-access.ts:307-316 | a NULL column never satisfies a threshold condition |
| SensorQueries.ZeroThresholdIgnored | frontend/lib/sensor-data-access.ts:307-316 | a threshold of 0 is the same as no threshold |
| SensorQueries.NoConditionsReturnsAll | frontend/lib/sensor-data-access.ts:318-321 | with no threshold and no date bound every joined row is returned |
| SensorQueries.LowBatteryRows | frontend/lib/sensor-data-access.ts:268-286 | newest first, and a permutation (same multiset) of the joined rows of active sensors whose battery is strictly below the threshold |
| SensorQueries.KeptRowsAreLow | frontend/lib/sensor-data-access.ts:279-294 | every kept row is a low-battery row and sensors are distinct |
| SensorQueries.KeptRowIsNewest | frontend/lib/sensor-data-access.ts:279-294 | each low-battery sensor is kept with a row at least as new as any of its low-battery rows |
| SensorQueries.SensorsWithLowBattery | frontend/lib/sensor-data-access.ts:266-295 | the Map-filling loop keeps the first row per sensor, so the result has distinct sensors, only low-battery rows, and every low-battery sensor represented |
| SensorQueries.Trunc | frontend/lib/sensor-data-access.ts:183 | a timestamp falls in the bucket that starts at its truncation |
| SensorQueries.SensorWindow | frontend/lib/sensor-data-access.ts:191-197 | exactly the sensor's readings with timestamp in the closed [start, end] |
| SensorQueries.InsertKey | frontend/lib/sensor-data-access.ts:198-199 | inserting a bucket start keeps the starts strictly ascending and adds exactly that key |
| SensorQueries.BucketStarts | frontend/lib/sensor-data-access.ts:181-199 | the bucket starts are strictly ascending, include every row's bucket, and each holds at least one row |
| SensorQueries.ValuesIn | frontend/lib/sensor-data-access.ts:184-188 | a value is in a bucket's input exactly when some row of that bucket holds it in the column; there are no more values than rows |
| SensorQueries.Avg | frontend/lib/sensor-data-access.ts:184-186 | an average exists iff the bucket has a non-NULL value |
| SensorQueries.Max | frontend/lib/sensor-data-access.ts:187 | the maximum is one of the values and bounds all of them |
| SensorQueries.Min | frontend/lib/sensor-data-access.ts:188 | the minimum is one of the values and is below all of them |
| SensorQueries.SumBounds | frontend/lib/sensor-data-access.ts:184-186 | a sum of n values within [lo, hi] lies within [n·lo, n·hi] |
| SensorQueries.AvgWithinMinMax | frontend/lib/sensor-data-access.ts:184-188 | a bucket's average lies between its minimum and maximum |
| SensorQueries.AvgBetween | frontend/lib/sensor-data-access.ts:184-186 | an average of values within [lo, hi] lies within [lo, hi] |
| SensorQueries.BucketOf | frontend/lib/sensor-data-access.ts:178-189 | a bucket reports its start and the number of rows in it |
| SensorQueries.Aggregate | frontend/lib/sensor-data-access.ts:172-234 | one bucket per distinct start, ordered by start ascending, each non-empty and holding its rows' count and statistics |
| SensorQueries.AggregateCoversRows | frontend/lib/sensor-data-access.ts:198-199 | every row's bucket start is among the returned buckets |
| SensorQueries.CountPositive | frontend/lib/sensor-data-access.ts:189 | a bucket with a positive count has a row in it |
| SensorQueries.SumCountsCovers | frontend/lib/sensor-data-access.ts:189 | counting over distinct starts that include every row's bucket counts every row once |
| SensorQueries.AggregateCountsAllRows | frontend/lib/sensor-data-access.ts:172-234 | the bucket counts add up to the number of rows in the window |
| SensorQueries.AggregateSummarises | frontend/lib/sensor-data-access.ts:172-234 | the grouped rows are ascending by start, every row lies in the bucket of its truncated instant, each bucket aggregates its own rows and is non-empty, and the counts add up to the rows |
| SensorQueries.HourlyAggregates | frontend/lib/sensor-data-access.ts:172-201 | the hourly buckets summarise exactly the sensor's readings with start ≤ timestamp ≤ end |
| SensorQueries.DailyAggregates | frontend/lib/sensor-data-access.ts:203-234 | the daily buckets summarise exactly the sensor's readings with start ≤ timestamp ≤ end |
| SensorQueries.HealthSummary | frontend/lib/sensor-data-access.ts:379-398 | newest first, and a permutation (same multiset) of the sensor's health records from the last `days` days |
| SeqUtils.Filter | frontend/lib/sensor-data-access.ts:156-161 | keeps, in order, exactly the elements satisfying the condition (a sub-multiset of the input) |
| SeqUtils.FilterAppend | frontend/lib/sensor-data-access.ts:156-161 | filtering distributes over appending one element |
| SeqUtils.KeepSome | frontend/hooks/useUserSensors.ts:79-81 | the `!== null` filter keeps every converted value, only those, and all of them when none failed |
| SeqUtils.Take | frontend/lib/data-access.ts:25-27 | `LIMIT n` is the prefix of length min(n, length) |
| SeqUtils.TakeSortedKeepsTop | frontend/lib/data-access.ts:25-27 | `LIMIT n` after a descending sort keeps a sub-multiset of the rows, and no row left out has a larger key than any kept row |
| SeqUtils.InsertDesc | frontend/lib/sensor-data-access.ts:166 | inserting into a newest-first list keeps it sorted and adds exactly that element |
| SeqUtils.SortDesc | frontend/lib/sensor-data-access.ts:166 | `ORDER BY … DESC` yields a sorted permutation of its input |
| SeqUtils.FirstByKeyProperties | frontend/app/api/map-data/route.ts:67-74 | first-seen dedup yields distinct keys, each element from the input and every input key represented |
| SeqUtils.FirstPos | frontend/app/api/map-data/route.ts:70 | the index of the first element with a key: it has the key and no earlier element does |
| SeqUtils.FirstByKeyKeepsFirst | frontend/app/api/map-data/route.ts:67-74 | the element kept for each key is the first input element with that key, and kept elements follow the order in which their keys first occur |
| SeqUtils.FirstByKeyStep | frontend/app/api/map-data/route.ts:68-73 | one loop step adds the element iff its key is new |
| SeqUtils.FirstByKeyKeepsTop | frontend/lib/sensor-data-access.ts:287-294 | on a list sorted by a rank, each key keeps the element of highest rank |
| SeqUtils.FirstByKeyNewest | frontend/lib/sensor-data-access.ts:287-294 | on a newest-first list, each key keeps its newest element |
| SeqUtils.DedupFirst | frontend/app/api/map-data/route.ts:67-74 | the `Map`-filling loop computes first-seen dedup |
| MapAqi.Style | frontend/lib/map-aqi.ts:26-55 | each category carries its own key, and only the critical one is dangerous |
| MapAqi.GetAqiCategory | frontend/lib/map-aqi.ts:60-70 | good iff aqi ≤ 50, moderate iff 50 < aqi ≤ 100, unhealthy iff 100 < aqi ≤ 200, critical iff aqi > 200 |
| MapAqi.CategoryMonotone | frontend/lib/map-aqi.ts:60-70 | a larger aqi never gets a milder category |
| MapAqi.DangerousIffAbove200 | frontend/lib/map-aqi.ts:26-70 | an aqi is dangerous iff it is above 200 |
| MapAqi.GetAqiColor | frontend/lib/map-aqi.ts:75-77 | the colour is the category's colour, one of four |
| MapAqi.SensorMatchesFilter | frontend/lib/map-aqi.ts:82-89 | "all" matches everything; any other filter matches iff the category key equals it |
| MapAqi.FilterOptionsCoverCategories | frontend/lib/map-aqi.ts:91-97 | the options are "all" followed by one option per category, and every category has an option |
| MapAqi.ExactlyOneOptionMatches | frontend/lib/map-aqi.ts:60-70 | every aqi matches exactly one non-"all" option |
| MapSensors.AirQualityToMapSensor | frontend/hooks/useSensorsOnMap.ts:45-63 | converted exactly when `location.coordinates` is an array with at least two entries, the first two numeric, read as [lon, lat]; the marker is not purchased, aqi defaults to 0, the id, name, city and country follow the record; a falsy or short coordinates value drops the record |
| MapSensors.PurchasedCoordinates | frontend/hooks/useSensorsOnMap.ts:69-74 | lat/lng come from the top-level fields, else from coordinates[1]/[0], and both must be numbers |
| MapSensors.PurchasedSensorToMapSensor | frontend/hooks/useSensorsOnMap.ts:68-84 | a marker exists iff both coordinates are numbers; it is purchased, with aqi default 0, name default "Платный датчик" and parameters default {} |
| MapSensors.ToMapSensor | frontend/hooks/useUserSensors.ts:14-30 | a marker exists iff lat and lng are numeric; it is purchased, with aqi default 0 and parameters default {} |
| MapSensors.PurchasedNormalisersAgree | frontend/hooks/useUserSensors.ts:14-30 | the two purchased normalisers accept the same records and agree whenever the record has a name |
| MapSensors.PurchasedConversions | frontend/hooks/useSensorsOnMap.ts:187-188 | one conversion per record, in order |
| MapSensors.UserConversions | frontend/hooks/useUserSensors.ts:79-80 | one conversion per record, in order |
| MapSensors.PurchasedMarkersWellFormed | frontend/hooks/useSensorsOnMap.ts:187-189 | every kept purchased marker is purchased and has finite coordinates |
| MapSensors.UserMarkersWellFormed | frontend/hooks/useUserSensors.ts:78-81 | every kept marker is purchased with finite coordinates, and nothing is dropped when every record has them |
| MapSensors.Split | frontend/hooks/useSensorsOnMap.ts:150 | the pieces of a split contain no separator, and there is at least one |
| MapSensors.SplitJoin | frontend/hooks/useSensorsOnMap.ts:150 | joining the pieces with the separator gives back the text |
| MapSensors.MarkerParameters | frontend/hooks/useSensorsOnMap.ts:160-177 | the marker's parameters have exactly the eleven names, each taken from the item's parameters (pm25 falling back to the item's value) |
| MapSensors.MapDataItem | frontend/hooks/useSensorsOnMap.ts:147-185 | kept only when the location splits into two pieces that parse to non-NaN numbers; aqi is `value \|\| 0`; a truthy non-string location throws |
| MapSensors.MapDataMarkers | frontend/hooks/useSensorsOnMap.ts:147-185 | the markers of the items, in order, never more than the items |
| MapSensors.MapDataMarkersWellFormed | frontend/hooks/useSensorsOnMap.ts:147-185 | every map-data marker has two non-NaN coordinates and is not purchased |
| MapSensors.ThrowingItemAborts | frontend/hooks/useSensorsOnMap.ts:147-185 | one throwing item aborts the whole cycle |
| MapSensors.CollectMapData | frontend/hooks/useSensorsOnMap.ts:147-185 | the `forEach` that pushes converted items computes `MapDataMarkers` |
| MapSensors.MapDataList | frontend/hooks/useSensorsOnMap.ts:118-134 | an unreachable route contributes nothing; a successful answer contributes its data array |
| MapSensors.ArrayOrEmpty | frontend/hooks/useSensorsOnMap.ts:135-142 | a failed or non-array answer contributes an empty list |
| MapSensors.LoadMapSensors | frontend/hooks/useSensorsOnMap.ts:116-191 | a cycle shows the purchased markers followed by the map-data markers, or fails when a map-data item throws |
| MapSensors.UnreachableSourcesContributeNothing | frontend/hooks/useSensorsOnMap.ts:135-142 | an unreachable source contributes an empty list instead of aborting the cycle |
| MapSensors.MergedListShape | frontend/hooks/useSensorsOnMap.ts:191 | the merged list is as long as both lists together, with the purchased markers first |
| MapSensors.LoadUserSensors | frontend/hooks/useUserSensors.ts:76-94 | a failed request gives its message (or the default one); a successful one loads exactly the converted records of the response array, in order: each loaded marker is purchased with finite coordinates and is the conversion of some record, and every record with numeric coordinates contributes its marker |
| Poller.Pow2 | frontend/hooks/useSensorsOnMap.ts:226 | powers of two are positive |
| Poller.Backoff | frontend/hooks/useSensorsOnMap.ts:222-230 | no timer iff the interval is ≤ 0; otherwise the period is in (0, 60000] and is either the cap or interval·2^failures |
| Poller.BackoffMonotone | frontend/hooks/useSensorsOnMap.ts:225-228 | more failures never shorten the period |
| Poller.BackoffDoubles | frontend/hooks/useSensorsOnMap.ts:225-228 | one more failure doubles the period up to the cap |
| Poller.BackoffReachesCap | frontend/hooks/useSensorsOnMap.ts:225-228 | from 16 failures on, the period is the 60 s cap |
| Poller.Poller.TimerPeriod | frontend/hooks/useUserSensors.ts:105-113 | the user hook has no timer without a user; otherwise the period is the backoff for the current failure count |
| Poller.Poller.constructor | frontend/hooks/useSensorsOnMap.ts:101-109 | starts with no sensors, loading, no error, no failures, and the timer for zero failures |
| Poller.Poller.SyncTimer | frontend/hooks/useSensorsOnMap.ts:222-231 | the timer is reinstalled exactly when the error changed; nothing else changes |
| Poller.Poller.Begin | frontend/hooks/useSensorsOnMap.ts:110-115 | without a user (user hook) the list is emptied and loading cleared. Otherwise the error is cleared and loading is raised whatever is held, because the memoised callback reads the empty list it captured. The timer is reinstalled when an error was cleared |
| Poller.Poller.BeginCorrected | frontend/hooks/useUserSensors.ts:70 | the intent stated by the comment on that line (the code below it behaves like `Begin`): as `Begin`, but loading is raised only when no sensors are held |
| Poller.Poller.Succeed | frontend/hooks/useSensorsOnMap.ts:195-202 | success replaces the list and resets the failures, and leaves the error and the timer as they were |
| Poller.Poller.SucceedCorrected | frontend/hooks/useSensorsOnMap.ts:195-202 | success replaces the list, resets the failures and installs the nominal period |
| Poller.Poller.Fail | frontend/hooks/useSensorsOnMap.ts:203-214 | failure keeps the held sensors, counts one more failure, records the message, and reinstalls the timer if the error changed |
| Poller.Poller.Refetch | frontend/hooks/useUserSensors.ts:62-99 | no user: emptied, not loading, no fetch; a loaded cycle: its list, zero failures, no error; a failed cycle: the old list, one more failure, the error and the backed-off period; after a loaded cycle the timer is the period for the failure count before the reset when an error was showing, else unchanged |
| Poller.NoUserNoPolling | frontend/hooks/useUserSensors.ts:64-68 | without a user there is no timer, no list and no spinner, whatever the interval |
| Poller.LoadingRaisedEveryCycle | frontend/hooks/useSensorsOnMap.ts:110-114 | as written, a cycle started while a sensor is held still raises the hook's loading flag |
| Poller.LoadingStaysDownWhileHolding | frontend/hooks/useSensorsOnMap.ts:111-114 | reading the current list, a cycle with a sensor held keeps loading down |
| Poller.StaleBackoffAfterRecovery | frontend/hooks/useSensorsOnMap.ts:222-231 | as written, two failures then a success leave zero failures but polling every 20 s |
| Poller.BackoffResetAfterRecovery | frontend/hooks/useSensorsOnMap.ts:222-231 | with the timer following the failure count, recovery restores the nominal 5 s |
| MapDataRoute.ChooseRows | frontend/app/api/map-data/route.ts:34-64 | the last-hour rows when there are some, else the fallback rows; a failed query gives nothing |
| MapDataRoute.Num | frontend/app/api/map-data/route.ts:92 | a number is kept and anything else becomes 0 |
| MapDataRoute.SiteOf | frontend/app/api/map-data/route.ts:86 | the site is `data.site` when it is a string, else "" |
| MapDataRoute.LocationIsAlwaysDefault | frontend/app/api/map-data/route.ts:77-89 | a site gets the default coordinates '43.2220,76.8512' iff it is not a property name of `Object.prototype`; "__proto__" gets `Object.prototype` and the inherited method names get that method |
| MapDataRoute.Pm25Of | frontend/app/api/map-data/route.ts:93 | pm25 when it is a non-zero number, else pm2_5 coerced |
| MapDataRoute.ToMapReading | frontend/app/api/map-data/route.ts:84-115 | location is the lookup of the site (the default unless the site is an inherited key); value equals the pm25 parameter; sensorId is device_id or 'unknown'; an empty site is left out; each of the other ten parameters (pm1, pm10, co2, voc, temp, hum, ch2o, co, o3, no2) is num() of the same-named field |
| MapDataRoute.LocationJson | frontend/app/api/map-data/route.ts:119-123 | `location` serialises as a string exactly for coordinates (a function is left out, `Object.prototype` becomes `{}`) |
| MapDataRoute.RecordJson | frontend/app/api/map-data/route.ts:95-123 | the JSON record carries the serialised location, the sensor id, the value and the site when there is one |
| MapDataRoute.ResponseItems | frontend/app/api/map-data/route.ts:84-123 | the `data` array has one serialised record per row, in order |
| MapDataRoute.InheritedSitesLoseMarkers | frontend/app/api/map-data/route.ts:77-89 | in the map hook, a record whose site is "__proto__" is exactly the one that throws, and one whose site is an inherited method name is skipped |
| MapDataRoute.ProtoSiteAbortsMapData | frontend/app/api/map-data/route.ts:77-89 | one row whose site is "__proto__" makes the hook's whole map-data conversion fail |
| MapDataRoute.ResponseFor | frontend/app/api/map-data/route.ts:119-123 | success, one record per row in order, and count equal to the data length |
| MapDataRoute.HandleGet | frontend/app/api/map-data/route.ts:19-136 | a failure answers success with empty data and count 0; otherwise the records of the first row per device of the chosen rows |
| MapDataRoute.OneRecordPerDevice | frontend/app/api/map-data/route.ts:67-74 | the records name distinct devices, every device of the chosen rows is represented, each record is built from its device's first (on `ts DESC` rows: latest) row, and records follow the devices' first-occurrence order |
| MapDataRoute.FallbackOnlyWhenNoFreshRows | frontend/app/api/map-data/route.ts:50-64 | when the last hour has rows, they are used and the fallback is ignored |
| RecentReadings.RecentRows | frontend/lib/data-access.ts:9-27 | min(limit, count) rows, newest ingestion first, drawn without repetition from the readings joined with their sensors, and no reading left out was ingested later than any kept one |
| RecentReadings.JoinedRows | frontend/lib/data-access.ts:9-24 | every row of the left join is a stored reading paired with the sensor its id names |
| RecentReadings.ValueOf | frontend/lib/data-access.ts:40-46 | value is the first non-null of value, pm25, pm10, pm1, co2, else 0 |
| RecentReadings.ToRecentReading | frontend/lib/data-access.ts:29-54 | location is "lat,lng" when both sensor coordinates are non-null, else the reading's location; sensorId is the device id, else the numeric sensor id as text |
| RecentReadings.GetRecentSensorReadings | frontend/lib/data-access.ts:6-60 | one record per row in the same order; a failure is rethrown as "Failed to fetch sensor readings: " and its message |
| RecentReadings.RecordsNameTheirDevice | frontend/lib/data-access.ts:52 | with every reading's sensor present, each record names its sensor's device id |
| MemoryStore.Values | backend/main.py:201 | `values()` follows the insertion order of the keys |
| MemoryStore.FirstMatch | backend/main.py:201-204 | the position of the first document on which every query field is equal, or past the end |
| MemoryStore.FindOneIn | backend/main.py:196-204 | a query with "_id" is a direct lookup of its text; otherwise the first matching document, and none iff no document matches |
| MemoryStore.SliceTo | backend/main.py:245-248 | Python slicing `[:n]` for a positive or negative `n` |
| MemoryStore.AddOne | backend/main.py:231-234 | the value is appended iff it is not already in the array, and is then in it |
| MemoryStore.AddEachProperties | backend/main.py:229-232 | `$each` keeps the old array as a prefix, puts every element in, appends only elements of the list, and keeps the array free of duplicates |
| MemoryStore.AddToSetField | backend/main.py:226-234 | the field (created empty when missing) gets the value or `$each` values added; a non-list field or a non-iterable `$each` raises |
| MemoryStore.AddToSetAllStops | backend/main.py:226-234 | the first raising field stops the `$addToSet` loop |
| MemoryStore.AddToSetAllKeepsOtherFields | backend/main.py:226-234 | `$addToSet` changes no field it does not name |
| MemoryStore.UpdateOutcome | backend/main.py:215-238 | a match is a stored key; with no `$addToSet` the new document is the old one overwritten by the `$set` fields |
| MemoryStore.ApplyAddToSet | backend/main.py:226-234 | the `$addToSet` loop computes `AddToSetAll` |
| MemoryStore.ApplyEntry | backend/main.py:227-234 | one `$addToSet` entry computes `AddToSetField` |
| MemoryStore.AppendEach | backend/main.py:229-232 | the `$each` loop computes `AddEach` |
| MemoryStore.Cursor.constructor | backend/main.py:242-243 | the cursor holds the listed documents |
| MemoryStore.Cursor.Limit | backend/main.py:244-246 | `limit(n)` truncates only for n > 0 |
| MemoryStore.Cursor.ToList | backend/main.py:247-248 | `to_list(length)` truncates when the length is truthy, Python-style for a negative one |
| MemoryStore.SelectIds | backend/main.py:1201 | the documents whose id is among the given ids, in order |
| MemoryStore.MemoryCollection.Contents | backend/main.py:249 | the stored documents in insertion order |
| MemoryStore.MemoryCollection.constructor | backend/main.py:184-194 | loads the initial documents under their `_id` text or their position, and the counter is one past the input length |
| MemoryStore.MemoryCollection.FindOne | backend/main.py:196-204 | computes `FindOneIn` on the stored documents |
| MemoryStore.MemoryCollection.InsertOne | backend/main.py:206-213 | stores a copy under the new key with `_id` set to it, returns that key, and leaves every other entry unchanged |
| MemoryStore.MemoryCollection.UpdateOne | backend/main.py:215-238 | no match reports zero counts and changes nothing; a match overwrites exactly that document with the `$set` fields and the `$addToSet` additions and reports one |
| MemoryStore.MemoryCollection.Find | backend/main.py:240-249 | the cursor holds every stored document, whatever the query |
| MemoryStore.MemoryCollection.FindIdIn | backend/main.py:1201 | the cursor holds exactly the documents whose id is listed (the intended `$in` query) |
| MemoryStore.LoadedConsistent | backend/main.py:188-194 | the loaded keys are distinct, match the stored entries, and each document's `_id` is its key |
| LegacyAqi.AqiLinearBands | backend/main.py:538-551 | before truncation each PM2.5 band maps into its AQI band: [0, 12] → [0, 50], (12, 35.4] → (50, 100], … |
| LegacyAqi.CalculateAqi | backend/main.py:538-551 | the truncated AQI lies in the band of its PM2.5 range |
| LegacyAqi.AqiLinearMonotone | backend/main.py:538-551 | the piecewise-linear function is nondecreasing |
| LegacyAqi.AqiMonotone | backend/main.py:538-551 | `calculate_aqi` is nondecreasing |
| LegacyAqi.AqiAtBreakpoints | backend/main.py:538-551 | the breakpoints 0, 12, 35.4, 55.4, 150.4, 250.4, 350.4 map to 0, 50, 100, 150, 200, 300, 400 |
| PyValues.Lookup | backend/main.py:273 | `dict.get(k)`: the stored value, or None |
| PyValues.Or | backend/main.py:1196 | Python `or`: the left value when truthy, else the right |
| PyValues.EqReflexive | backend/main.py:1284 | every value equals itself |
| PyValues.Lower | backend/main.py:417 | `str.lower` maps each character and keeps the length |
| PyValues.ToObjectId | backend/main.py:1086 | an ObjectId made from valid text has valid, lower-case hex equal to the text up to case |
| PyValues.Str | backend/main.py:1103 | `str()` of a string, an ObjectId, an int and None |
| PyValues.ObjectIdTextRoundTrip | backend/main.py:1086-1103 | ObjectId of the text of an ObjectId is that ObjectId, and the text comes back unchanged iff it was lower-case |
| PyValues.ObjectIdTextIsNotAdmin | backend/main.py:416-417 | no valid object id reads as "admin" |
| PyValues.Iterate | backend/main.py:1094-1097 | iterating a list yields its items, a string its characters, and anything else raises |
| PyValues.Float | backend/main.py:1216 | `float()` keeps numbers, parses strings, and raises otherwise |
| PyValues.Truncate | backend/main.py:541 | `int()` truncates towards zero |
| PyValues.TruncateMonotone | backend/main.py:541 | truncation is nondecreasing |
| Decimal.NatText | backend/main.py:1103 | decimal text is non-empty and all digits |
| Decimal.NatTextRoundTrip | backend/main.py:1103 | reading decimal text back gives the number |
| Decimal.NatTextInjective | backend/main.py:1103 | different numbers have different text |
| LegacyApi.Listed | backend/main.py:1095 | `to_list(500)`: the first 500 documents, all of them when there are fewer |
| LegacyApi.SafeGetUserId | backend/main.py:409-428 | admin iff the id's text lower-cases to "admin"; otherwise an ObjectId id is kept, valid text is converted, and anything else gives none |
| LegacyApi.ResolveUserId | backend/main.py:1084-1088 | an id resolves iff it is an ObjectId or valid text, and otherwise answers 400 "Invalid user ID" |
| LegacyApi.UserByKey | backend/main.py:1090-1092 | a stored, non-empty user document, or none |
| LegacyApi.PermissionSet | backend/main.py:1094 | `sensor_permissions or []` held as a list gives its items when every item is hashable and raises otherwise; a value that is neither a list nor a string raises |
| LegacyApi.SensorToResponse | backend/main.py:272-284 | id is `str(_id)` or null, price defaults to 0, parameters to {}, and every other field is copied |
| LegacyApi.NotPurchased | backend/main.py:1101-1105 | at most one entry per sensor; exactly the responses of the sensors whose id text is not among the permissions (sound and complete) |
| LegacyApi.Responses | backend/main.py:1081 | one response per document, in order |
| LegacyApi.WithStatus | backend/main.py:1154-1159 | one entry per sensor, flagged purchased iff its id text is among the permissions |
| LegacyApi.AllUnpurchased | backend/main.py:1129-1135 | every sensor flagged not purchased |
| LegacyApi.NotPurchasedIsComplement | backend/main.py:1101-1105 | the available list is exactly the not-purchased entries of the status list |
| LegacyApi.AvailableSensors | backend/main.py:1071-1115 | the mock admin gets the first 500 sensors; any other id that is not a valid ObjectId answers 400 "Invalid user ID"; a valid id with no stored user answers 404, a permission list that cannot be read 500, and a found user gets every listed sensor whose id is not among their permissions |
| LegacyApi.AllSensors | backend/main.py:1118-1169 | the mock admin gets every sensor unpurchased; an invalid id gets an empty list; a missing user answers 404, an unreadable permission list 500; for a found user, each listed sensor appears once, in order, with is_purchased exactly when its id text is among the user's permissions |
| LegacyApi.AvailableIsComplementOfPurchased | backend/main.py:1101-1105 | for a valid user id, `/sensors/available` succeeds iff `/sensors/all` does, fails the same way, and lists exactly the sensors flagged not purchased |
| LegacyApi.ParamFloat | backend/main.py:1216 | a missing or falsy parameter reads as 0.0, and a numeric one as its value |
| LegacyApi.PointOf | backend/main.py:1209-1241 | a sensor without truthy coordinates, or without exactly two, is skipped; a two-element coordinate list gives a point exactly when every parameter converts with float(); a point has the sensor's id, lng/lat from [lon, lat], aqi = calculate_aqi of the pm25 float, the parameters dict itself, city and country defaulting to "Unknown", price defaulting to 0, the nine floats, and the fixed colour and source |
| LegacyApi.Points | backend/main.py:1208-1245 | never more points than sensors, each carrying the id of a found sensor |
| LegacyApi.PointOptions | backend/main.py:1209-1245 | the outcome of the per-sensor conversion for each sensor, in order |
| LegacyApi.PointsCollect | backend/main.py:1208-1245 | the loop is the generic present-results collection over the per-sensor conversion |
| LegacyApi.PointsOfPlacedSensors | backend/main.py:1208-1252 | the loop succeeds iff no sensor raises, and then yields the points of the placed sensors in order; otherwise it fails with the first raising sensor's error |
| SeqUtils.CollectPresent | backend/main.py:1208-1245 | a loop that appends present results, skips absent ones and stops at the first error |
| SeqUtils.Outcomes | backend/main.py:1209-1245 | the per-element results when none is an error |
| SeqUtils.CollectPresentFailsFirst | backend/main.py:1208-1252 | the loop fails iff some element fails, with the first failing element's error |
| SeqUtils.CollectPresentKeepsSome | backend/main.py:1208-1245 | without failures the loop yields the present results in element order |
| SeqUtils.KeepSomeAppend | frontend/hooks/useUserSensors.ts:79-81 | unwrapping the present values distributes over appending one element |
| LegacyApi.AsObjectId | backend/main.py:1197 | `ObjectId(sid)` of a valid id: an ObjectId is kept, 24-hex text is converted |
| LegacyApi.ObjectIdsOf | backend/main.py:1197 | the comprehension yields only ObjectIds |
| LegacyApi.ObjectIdsOfValidIds | backend/main.py:1197 | the comprehension yields exactly the valid ids, in order, each converted, and every valid id's ObjectId is among them |
| LegacyApi.MapPermissions | backend/main.py:1180-1199 | the mock admin gets an empty map; an invalid user id is a 400, an unknown user a 404, an uniterable permission value a 500; otherwise the valid ObjectIds of the stored user's `sensor_permissions`, or an empty map when there are none |
| LegacyApi.PointsResponse | backend/main.py:1208-1252 | succeeds iff every point converts, with those points |
| LegacyApi.MapSensorsAsWritten | backend/main.py:1174-1252 | as written on the in-memory store: the permissions are checked but every stored sensor is a candidate point |
| LegacyApi.MapSensorsCorrected | backend/main.py:1174-1252 | with the `$in` query honoured, only the permitted sensors are candidates |
| LegacyApi.PointsAmongPermittedIds | backend/main.py:1197-1201 | with the query honoured, every point carries one of the permitted ids |
| LegacyApi.PermittedIdsOfStoredUser | backend/main.py:1183-1199 | every permitted id is the ObjectId of a valid entry of the stored user's `sensor_permissions` |
| LegacyApi.MapShowsOnlyPermittedSensors | backend/main.py:1177-1201 | with the query honoured, a non-empty map comes from a resolved, stored user, and every point's id is the ObjectId text of a valid entry of that user's `sensor_permissions` |
| LegacyApi.MapListsUnpermittedSensors | backend/main.py:1201 | a user permitted one of two placed sensors sees both as written, and only the permitted one when corrected |
| LegacyApi.ExamplePermissions | backend/main.py:1186-1199 | the example user's permissions resolve to the ObjectId of the one permitted sensor |
| LegacyApi.ExamplePoint | backend/main.py:1209-1241 | a sensor placed at two coordinates becomes a point with its id |
| LegacyApi.ExamplePoints | backend/main.py:1208-1245 | both placed example sensors become points, in order, and a list of the permitted one alone gives its point only |
| LegacyApi.ExampleSelection | backend/main.py:1201 | the id query selects only the permitted sensor |
| LegacyReads.ListSensors | backend/main.py:1095 | reads the first 500 stored sensors |
| LegacyReads.FindUser | backend/main.py:1090 | the stored user under that id, as `UserByKey` says |
| LegacyReads.CollectUnpurchased | backend/main.py:1101-1105 | the loop computes the not-purchased list |
| LegacyReads.GetAvailableSensors | backend/main.py:1071-1115 | the handler answers exactly `AvailableSensors` |
| LegacyReads.CollectWithStatus | backend/main.py:1129-1159 | the loops compute the status list, or all unpurchased for the admin |
| LegacyReads.GetAllSensors | backend/main.py:1118-1169 | the handler answers exactly `AllSensors` |
| LegacyReads.CollectPoints | backend/main.py:1208-1245 | the loop computes `Points` |
| LegacyReads.PointsStop | backend/main.py:1208-1245 | the first raising sensor ends the loop with its error |
| LegacyReads.MapPermissionsOf | backend/main.py:1180-1199 | the handler's prefix computes `MapPermissions` |
| LegacyReads.GetMapSensors | backend/main.py:1174-1252 | the handler as written answers exactly `MapSensorsAsWritten` |
| LegacyReads.GetMapSensorsCorrected | backend/main.py:1174-1252 | the handler with the query honoured answers exactly `MapSensorsCorrected` |
| LegacyWrites.Insert | backend/main.py:206-213 | the store gains the document under the new key with `_id` set, and keeps every other entry and the key invariants |
| LegacyWrites.Apply | backend/main.py:215-238 | `update_one` keeps the key set and order; no match changes nothing and reports zero |
| LegacyWrites.UpdateCollection | backend/main.py:215-238 | the in-place update leaves exactly the store `Apply` computes |
| LegacyWrites.ArgList | backend/main.py:1257-1266 | the ten query parameters, under distinct names |
| LegacyWrites.Given | backend/main.py:1292-1322 | never more reported fields than arguments |
| LegacyWrites.GivenExactly | backend/main.py:1292-1322 | `updated_fields` holds exactly the arguments that are not None, with their values |
| LegacyWrites.PatchSets | backend/main.py:1293-1322 | a given argument ends up under its name in the parameters |
| LegacyWrites.PatchKeeps | backend/main.py:1293-1322 | a parameter with no given argument is kept as it was |
| LegacyWrites.ParametersPatched | backend/main.py:1293-1322 | each of the ten parameters is overwritten iff its argument is given |
| LegacyWrites.OtherParametersKept | backend/main.py:1291-1322 | parameters under any other name are kept |
| LegacyWrites.Patched | backend/main.py:1291-1322 | a dict is patched; a truthy non-dict fails exactly when something is to be written |
| LegacyWrites.PatchParameters | backend/main.py:1291-1322 | the `if` chain computes `Patched` and `Given` |
| LegacyWrites.SensorAccess | backend/main.py:1275-1285 | an admin is never refused; a refusal is 403, 404 or 500 |
| LegacyWrites.CheckAccess | backend/main.py:1275-1285 | the permission check computes `SensorAccess` |
| LegacyWrites.WriteParameters | backend/main.py:1324-1329 | the `$set` of the parameters keeps the keys and the sensor |
| LegacyWrites.UpdateParameters | backend/main.py:1254-1338 | an invalid sensor id answers 400 first, then a refusal; an answer other than 500 leaves the store unchanged |
| LegacyWrites.StoreParameters | backend/main.py:1324-1329 | the handler's write leaves exactly the store `WriteParameters` computes |
| LegacyWrites.UpdateSensorParameters | backend/main.py:1254-1338 | the handler answers and writes exactly what `UpdateParameters` says |
| LegacyWrites.UpdateNeedsPermission | backend/main.py:1276-1285 | a non-admin's update goes through only when the stored user holds that sensor id among their permissions |
| LegacyWrites.UpdateWritesParameters | backend/main.py:1291-1334 | a successful update reports exactly the given arguments, changes only the sensor's parameters, and answers with the updated sensor |
| LegacyWrites.ReadingDoc | backend/main.py:1385-1388 | the raw reading carries the device id, the user id text and the current time |
| LegacyWrites.ReadingParams | backend/main.py:1394-1399 | the parameters are a dict, with the posted pm25 (the value the map shows) under "pm25" |
| LegacyWrites.NewSensorDoc | backend/main.py:1409-1420 | a new sensor carries the device id, the site or device id as name, the posted parameters, and the Almaty location |
| LegacyWrites.ExistingSensor | backend/main.py:1392 | a sensor found by device id is a non-empty document |
| LegacyWrites.ExistingPosition | backend/main.py:1392 | the found sensor is the first stored document whose device_id matches |
| LegacyWrites.Upsert | backend/main.py:1392-1422 | an unknown device inserts a new sensor under the new key |
| LegacyWrites.GrantTo | backend/main.py:1426-1430 | the admin or an unresolved user grants nothing and changes nothing |
| LegacyWrites.Ingest | backend/main.py:1371-1440 | without `_id` the handler answers 500 before writing; whenever `_id` is present the raw reading is inserted; a success answers "ok" with the device id and the user's email |
| LegacyWrites.UpsertSensor | backend/main.py:1392-1422 | the handler's sensor step leaves exactly what `Upsert` says |
| LegacyWrites.GrantSensor | backend/main.py:1426-1430 | the handler's grant leaves exactly what `GrantTo` says |
| LegacyWrites.IngestSensorData | backend/main.py:1371-1440 | the handler answers and writes exactly what `Ingest` says |
| LegacyWrites.UpsertRefreshes | backend/main.py:1401-1406 | a known device's sensor gets the posted parameters and `updated_at`, and no other document changes |
| LegacyWrites.RefreshedFields | backend/main.py:1403-1406 | the refresh keeps the device id and sets the parameters |
| LegacyWrites.RefreshFindsDevice | backend/main.py:1401-1406 | after the refresh, `find_one` by device id finds the refreshed sensor |
| LegacyWrites.CreateFindsDevice | backend/main.py:1407-1422 | after the insert, `find_one` by device id finds the new sensor |
| LegacyWrites.UpsertFindsDevice | backend/main.py:1392-1422 | either way, the device's sensor is then found with the posted parameters under the returned key |
| LegacyWrites.GrantAddsPermission | backend/main.py:1426-1430 | the grant adds the sensor key to the user's permissions without duplicates and changes nothing else |
| LegacyWrites.IngestGrantsDeviceSensor | backend/main.py:1385-1430 | a successful `/data` leaves the device's sensor holding the posted readings, findable by device id, and among the user's permissions |
| DeviceFrame.Sum | send.py:42 | a byte sum is between 0 and 255 per byte |
| DeviceFrame.Window | send.py:42 | the checked bytes are 1..24 |
| DeviceFrame.Checksum | send.py:41-42 | (sum of bytes 1..24 + checksum) mod 256 = 0 |
| DeviceFrame.ChecksumUnique | send.py:41-42 | the checksum is the only byte completing the sum to a multiple of 256 |
| DeviceFrame.Word | send.py:117-120 | a big-endian 16-bit word has the high byte as quotient and the low byte as remainder by 256 |
| DeviceFrame.RawOf | send.py:117-132 | pm1, pm25, pm10 and co2 come from byte pairs 2-3, 4-5, 6-7, 8-9, and tvoc is byte 10 |
| DeviceFrame.Frame | send.py:41-42 | an encoded frame has 26 bytes and a correct checksum |
| DeviceFrame.Calibrated | send.py:136-145 | each calibrated channel is its raw value scaled and offset, truncated for the integer channels |
| DeviceFrame.Calibrate | send.py:138-145 | the calibration loop computes `Calibrated` |
| DeviceFrame.CalTableEffect | send.py:31-37 | the shipped table leaves the pm values unchanged and subtracts 200 from co2 |
| DeviceFrame.Scale | send.py:155-161 | the rounding scale is at least 1 |
| DeviceFrame.RoundHalfEven | send.py:155-161 | the rounded integer is within half of the value |
| DeviceFrame.RoundIsClose | send.py:155-161 | `round(x, d)` is within half a unit of the last digit of x |
| DeviceFrame.RoundKeepsExact | send.py:155 | a value already on d digits is not changed by rounding |
| DeviceFrame.Parse | send.py:109-164 | a result only for a 26-byte frame whose checksum byte is correct |
| DeviceFrame.ParseSensorData | send.py:109-164 | `parse_sensor_data` computes `Parse` |
| DeviceFrame.ParseAccepts | send.py:111-114 | a frame is accepted iff it has 26 bytes and (sum of bytes 1..24 + byte 25) mod 256 = 0 |
| DeviceFrame.DecodedFields | send.py:117-162 | the payload has device "lab01", site "AGI_Lab", the raw pm values, co2 − 200, voc = tvoc and hum = raw − 10 |
| DeviceFrame.ParsedFields | send.py:117-162 | an accepted frame's payload reads pm1, pm25, pm10 and co2 big-endian from bytes 2-9, with co2 less 200, voc from byte 10 and hum from bytes 13-14 less 10 |
| DeviceFrame.RawOfFrame | send.py:109-164 | encoding the fields and decoding gives them back, and the frame parses |
| DeviceFrame.FrameOfParsed | send.py:109-164 | an accepted frame is the encoding of its own fields |
| DeviceFrame.SingleByteCorruptionDetected | send.py:112-114 | changing any one checked byte or the checksum byte of an accepted frame makes it rejected |

## Left out

- Authentication is not modelled: JWT, bcrypt, `get_current_user`, `/token`, `/register`, `/admin/login` and `/device/token`. The authenticated user is an input document.
- SHA-256 in `generateDataHash` is a function parameter applied to the modelled hash input.
- Inputs from the environment are parameters: the clock, `new Date(s)`, `parseFloat`, new ObjectIds and the environment secret.
- The radius search `getSensorsWithinRadius` (frontend/lib/sensor-data-access.ts:343-377) is not modelled. It is trigonometry on doubles inside SQL.
- Numbers are exact reals, not IEEE doubles. The precision of SQL `AVG` and of `send.py`'s scaling is not modelled.
- DeviceFrame.Round rounds half to even on exact decimals. Python's `round` works on binary doubles, so the contract states only closeness and exactness on values that are already decimal.
- Bit operations in `send.py` are written as arithmetic: `hi << 8 \| lo` is `hi·256 + lo`, and `(~s + 1) & 0xFF` is the negated sum mod 256.
- `send.py`'s I/O is not modelled: serial reads, HTTP posting, the JSONL retry buffer and the main loop (send.py:44-107, 167-195).
- Database connections and the MongoDB/MemoryDb fallback at startup are not modelled. The SQL queries of the map-data route run against a database outside this model, so their results are inputs.
- Concurrency is not modelled. The check-then-insert races of the duplicate check and of find-or-create are sequential here, and the schema has no unique constraint on `dataHash`.
- React timers, effects and rendering are not modelled. The poller is a class whose `timer` field is the period of the installed interval.
- Mock data, seed scripts and UI components are not modelled.
- SensorValidation.ValidateRange: the near-maximum warning uses 0.9·max, as the code does. A reading of "the top 10% of the range" would differ when min ≠ 0.
- SensorQueries.ReadingsByDevice: SQL `ORDER BY … DESC` is not stable, so results are stated as sorted and a permutation of the matching rows. The model fixes one order among equal timestamps.
- MapDataRoute.ToMapReading: the `ts` column stays milliseconds instead of ISO text. `toISOString` throws on an invalid date; the model's timestamps are integers, so that error cannot arise here. The same holds for RecentReadings.ToRecentReading.
- JsValue.NumberText: a number that is not whole, or is 10^21 or more in magnitude, is written by a parameter, because JavaScript's shortest round-trip notation depends on binary doubles.
- SensorStore.TextColumn: an array or an object bound to a text column is refused as invalid input. postgres-js serialises such values in its own way, which is not modelled, so the model answers 500 for an array or object `error_code` or firmware.
- SensorIngest.SiteName: an array or object `site` is likewise refused, so the model answers 500; the driver's serialisation of it is not modelled.
- MapSensors.AirQualityToMapSensor: an object (not an array) whose `length` property is a number below 2 is dropped by the source; the model lets it throw like every other object.
- SensorQueries.HealthSummary: the window starts `days`·24 h before now. `setDate` moves by calendar days in local time, which differs by an hour across a daylight-saving change.
- LegacyApi.PermissionSet and LegacyApi.PointOf: a dict where a list is expected is refused; Python would iterate over its keys.
- MemoryStore.AddToSetField: `$each` over a dict is refused, where Python iterates its keys. On a string or dict field, Python's `v not in arr` tests for a substring or a key, and raises only when it then appends; the model raises for every non-list field.
- PyValues.Eq: numbers compare by value, but lists and dicts compare structurally, so `[1] == [1.0]` is false here and true in Python.
- MemoryStore.UpdateOutcome: a found document whose `_id` is not its storage key is MissingKey even for an empty update. Python raises KeyError only when the `$set` or `$addToSet` loop writes, so an empty update returns a match.
- LegacyWrites.Ingest: one `now` stands for the several `datetime.utcnow()` calls of the handler, which may differ by microseconds.
- PyValues.Str: floats, lists, dicts and datetimes get fixed placeholder texts, so Str is not injective on them. Only the texts of None, booleans, integers, strings and ObjectIds are exact.
- The error detail texts of the legacy endpoints are fixed strings. Python's messages differ by exception type and are not reproduced.
- MapSensors.MapDataItem: marker ids are kept as the parts of their template strings rather than the rendered text.
- MemoryStore.MemoryCollection.UpdateOne: documents are values. The in-place mutation of a stored dict is modelled as storing the updated document under the same key, so aliasing between a document a caller holds and the stored one is not modelled. `update_sensor_parameters` first mutates the found sensor's `parameters` in place and then `$set`s the same object, which has the same net effect.
- SensorQueries.LowBattery: the threshold is compared as an exact real. The source binds the JavaScript number untyped against the integer `battery_level` column; with postgres-js a fractional threshold such as 20.5 is then parsed as integer input and the query fails, which the model does not reproduce.
- RecentReadings.GetRecentSensorReadings: a negative `limit` is an error, on the assumption that the ORM emits `LIMIT -n`, which Postgres refuses. The drizzle version is not pinned, and releases that emit the clause only for a non-negative limit would return every row instead.
- LegacyApi.SafeGetUserId: `ObjectId.is_valid` is modelled for 24-character hex text and ObjectIds only, not for 12-byte `bytes`.

## Findings

| source | as written | input that shows it | evidently intended | confidence | as-written member | corrected member |
|---|---|---|---|---|---|---|
| frontend/hooks/useSensorsOnMap.ts:110-116 | `refetch` is memoised with dependencies `[userId]`, so `sensors.length === 0` reads the list captured at first render, which is empty; frontend/hooks/useUserSensors.ts:62-74 has the same callback and the same stale read | one successful cycle leaving one sensor on the map, then the next timed cycle: the hook's `loading` flag is raised again (MapCard shows its spinner only while its list is empty, so there the flag is not visible) | `loading` is raised only on the very first fetch, while nothing is held (the comments on useSensorsOnMap.ts:111 and useUserSensors.ts:70) | not executed | Poller.LoadingRaisedEveryCycle | Poller.LoadingStaysDownWhileHolding |
| frontend/hooks/useSensorsOnMap.ts:222-231 | the timer effect re-runs only when `error` changes; a success resets `consecutiveFailures` but leaves `error` null, so the backed-off interval stays installed; frontend/hooks/useUserSensors.ts:105-113 has the same effect dependencies | interval 5000 ms: fail, fail, then succeed | after recovery polling returns to the nominal interval | not executed | Poller.StaleBackoffAfterRecovery | Poller.BackoffResetAfterRecovery |
| backend/main.py:240-249 | `MemoryCollection.find` ignores its query, so `/sensors/map` on the in-memory store (line 1201) returns every stored sensor with coordinates | a user permitted one of two sensors that both have coordinates | only the sensors the user holds a permission for are shown (the docstring on line 1177) | not executed | LegacyApi.MapListsUnpermittedSensors | LegacyApi.MapShowsOnlyPermittedSensors |
