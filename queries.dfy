/**
 * The read queries of `frontend/lib/sensor-data-access.ts` as functions
 * over the tables: joins, WHERE filters, `ORDER BY ... DESC` and the
 * hourly and daily GROUP BY.  Timestamps are milliseconds since the epoch.
 *
 * `ORDER BY` is not stable in SQL, so a sorted result is specified by
 * "sorted and a permutation of the matching rows", never by a particular
 * order among equal timestamps.
 */
module SensorQueries {
  import opened Wrappers
  import opened SeqUtils
  import opened SensorSchema

  /** A reading with its sensor (inner join) and its sensor's site (left join). */
  datatype Joined = Joined(reading: Reading, sensor: Sensor, site: Option<Site>)

  function SensorById(sensors: seq<Sensor>, id: nat): (r: Option<Sensor>)
    ensures r.Some? ==> r.value in sensors && r.value.id == id
    ensures r.None? <==> !SensorExists(sensors, id)
  {
    match FirstIndex(sensors, (s: Sensor) => s.id == id)
    case None => None
    case Some(i) => Some(sensors[i])
  }

  function SiteById(sites: seq<Site>, id: Option<nat>): (r: Option<Site>)
    ensures r.Some? ==> id.Some? && r.value in sites && r.value.id == id.value
    ensures id.Some? && SiteExists(sites, id.value) ==> r.Some?
  {
    if id.None? then None
    else
      match FirstIndex(sites, (s: Site) => s.id == id.value)
      case None => None
      case Some(i) => Some(sites[i])
  }

  /** The joined row of one reading, or none when its sensor is missing. */
  function JoinOf(sites: seq<Site>, sensors: seq<Sensor>, x: Reading): Option<Joined> {
    match SensorById(sensors, x.sensorId)
    case None => None
    case Some(s) => Some(Joined(x, s, SiteById(sites, s.siteId)))
  }

  /** `FROM sensor_readings INNER JOIN sensors ON ... LEFT JOIN sites ON ...` */
  function JoinRows(sites: seq<Site>, sensors: seq<Sensor>, readings: seq<Reading>): (r: seq<Joined>)
    ensures |r| <= |readings|
    ensures forall i :: 0 <= i < |r| ==> r[i].reading in readings && JoinOf(sites, sensors, r[i].reading) == Some(r[i])
    ensures forall x :: x in readings && JoinOf(sites, sensors, x).Some? ==> JoinOf(sites, sensors, x).value in r
    decreases |readings|
  {
    if readings == [] then []
    else
      var rest := JoinRows(sites, sensors, readings[1..]);
      assert readings == [readings[0]] + readings[1..];
      match JoinOf(sites, sensors, readings[0])
      case None => rest
      case Some(j) => [j] + rest
  }

  /** With every reading referencing a sensor (the schema's foreign key), the join keeps every reading. */
  lemma {:induction false} JoinKeepsEveryReading(sites: seq<Site>, sensors: seq<Sensor>, readings: seq<Reading>)
    requires ReadingSensorsExist(sensors, readings)
    ensures |JoinRows(sites, sensors, readings)| == |readings|
    decreases |readings|
  {
    if readings != [] {
      assert SensorExists(sensors, readings[0].sensorId);
      assert ReadingSensorsExist(sensors, readings[1..]) by {
        forall i | 0 <= i < |readings[1..]| ensures SensorExists(sensors, readings[1..][i].sensorId) {
          assert readings[1..][i] == readings[i + 1];
        }
      }
      JoinKeepsEveryReading(sites, sensors, readings[1..]);
    }
  }

  function ReadingTime(j: Joined): int {
    j.reading.timestamp
  }

  // ---------------------------------------------------------------------
  // getSensorReadingsByDeviceId
  // ---------------------------------------------------------------------

  predicate InDeviceWindow(j: Joined, deviceId: string, startDate: int, endDate: int) {
    j.sensor.deviceId == deviceId && startDate <= j.reading.timestamp <= endDate
  }

  /**
   * `getSensorReadingsByDeviceId`: exactly the joined rows of this device
   * with timestamp in the closed window, newest first.
   */
  function ReadingsByDevice(sites: seq<Site>, sensors: seq<Sensor>, readings: seq<Reading>,
                            deviceId: string, startDate: int, endDate: int): (r: seq<Joined>)
    ensures SortedDesc(r, ReadingTime)
    ensures forall j :: j in r <==> j in JoinRows(sites, sensors, readings) && InDeviceWindow(j, deviceId, startDate, endDate)
    ensures forall j :: j in r ==> j.reading in readings && j.sensor.deviceId == deviceId
    ensures multiset(r) == multiset(Filter(JoinRows(sites, sensors, readings),
                                           (j: Joined) => InDeviceWindow(j, deviceId, startDate, endDate)))
  {
    var rows := Filter(JoinRows(sites, sensors, readings), (j: Joined) => InDeviceWindow(j, deviceId, startDate, endDate));
    var r := SortDesc(rows, ReadingTime);
    FilterMembers(JoinRows(sites, sensors, readings), (j: Joined) => InDeviceWindow(j, deviceId, startDate, endDate));
    SameMembers(r, rows);
    r
  }

  // ---------------------------------------------------------------------
  // getReadingsExceedingThresholds
  // ---------------------------------------------------------------------

  datatype ThresholdParams = ThresholdParams(
    pm25Threshold: Option<real>,
    pm10Threshold: Option<real>,
    co2Threshold: Option<real>,
    startDate: Option<int>,
    endDate: Option<int>)

  /**
   * The condition a threshold adds: none for a missing or zero (falsy)
   * threshold, otherwise `column > threshold`, which is false on NULL.
   */
  predicate Exceeds(column: Option<real>, threshold: Option<real>) {
    threshold.None? || threshold.value == 0.0 || (column.Some? && column.value > threshold.value)
  }

  /** The AND of every pushed condition; no condition at all lets every row through. */
  predicate MatchesThresholds(j: Joined, p: ThresholdParams) {
    && Exceeds(j.reading.m.pm25, p.pm25Threshold)
    && Exceeds(j.reading.m.pm10, p.pm10Threshold)
    && Exceeds(j.reading.m.co2, p.co2Threshold)
    && (p.startDate.Some? ==> j.reading.timestamp >= p.startDate.value)
    && (p.endDate.Some? ==> j.reading.timestamp <= p.endDate.value)
  }

  /** `getReadingsExceedingThresholds`: the joined rows meeting every condition, newest first. */
  function ReadingsExceedingThresholds(sites: seq<Site>, sensors: seq<Sensor>, readings: seq<Reading>,
                                       p: ThresholdParams): (r: seq<Joined>)
    ensures SortedDesc(r, ReadingTime)
    ensures forall j :: j in r <==> j in JoinRows(sites, sensors, readings) && MatchesThresholds(j, p)
    ensures multiset(r) == multiset(Filter(JoinRows(sites, sensors, readings), (j: Joined) => MatchesThresholds(j, p)))
  {
    var rows := Filter(JoinRows(sites, sensors, readings), (j: Joined) => MatchesThresholds(j, p));
    var r := SortDesc(rows, ReadingTime);
    FilterMembers(JoinRows(sites, sensors, readings), (j: Joined) => MatchesThresholds(j, p));
    SameMembers(r, rows);
    r
  }

  /** A row with a NULL column never exceeds a non-zero threshold on that column. */
  lemma NullNeverExceeds(j: Joined, p: ThresholdParams)
    requires p.pm25Threshold.Some? && p.pm25Threshold.value != 0.0 && j.reading.m.pm25.None?
    ensures !MatchesThresholds(j, p)
  {
  }

  /** A zero threshold is falsy and adds no condition: it behaves as if it were not given. */
  lemma ZeroThresholdIgnored(j: Joined, p: ThresholdParams)
    ensures MatchesThresholds(j, p.(pm25Threshold := Some(0.0))) == MatchesThresholds(j, p.(pm25Threshold := None))
    ensures MatchesThresholds(j, p.(pm10Threshold := Some(0.0))) == MatchesThresholds(j, p.(pm10Threshold := None))
    ensures MatchesThresholds(j, p.(co2Threshold := Some(0.0))) == MatchesThresholds(j, p.(co2Threshold := None))
  {
  }

  /** With no condition, every joined row is returned. */
  lemma {:induction false} NoConditionsReturnsAll(sites: seq<Site>, sensors: seq<Sensor>, readings: seq<Reading>)
    ensures var p := ThresholdParams(None, None, None, None, None);
      multiset(ReadingsExceedingThresholds(sites, sensors, readings, p)) == multiset(JoinRows(sites, sensors, readings))
  {
    var p := ThresholdParams(None, None, None, None, None);
    FilterAll(JoinRows(sites, sensors, readings), (j: Joined) => MatchesThresholds(j, p));
  }

  // ---------------------------------------------------------------------
  // getSensorsWithLowBattery
  // ---------------------------------------------------------------------

  const DefaultBatteryThreshold: real := 20.0

  /** An active sensor's reading whose battery is strictly below the threshold (NULL never is). */
  predicate LowBattery(j: Joined, threshold: real) {
    j.sensor.isActive && j.reading.batteryLevel.Some? && (j.reading.batteryLevel.value as real) < threshold
  }

  function SensorIdOf(j: Joined): nat {
    j.reading.sensorId
  }

  /** The SQL part: the low-battery rows, newest first. */
  function LowBatteryRows(sites: seq<Site>, sensors: seq<Sensor>, readings: seq<Reading>, threshold: real)
    : (r: seq<Joined>)
    ensures SortedDesc(r, ReadingTime)
    ensures forall j :: j in r <==> j in JoinRows(sites, sensors, readings) && LowBattery(j, threshold)
    ensures multiset(r) == multiset(Filter(JoinRows(sites, sensors, readings), (j: Joined) => LowBattery(j, threshold)))
  {
    var rows := Filter(JoinRows(sites, sensors, readings), (j: Joined) => LowBattery(j, threshold));
    var r := SortDesc(rows, ReadingTime);
    FilterMembers(JoinRows(sites, sensors, readings), (j: Joined) => LowBattery(j, threshold));
    SameMembers(r, rows);
    r
  }

  /** The dedup keeps, per sensor, one of the low-battery rows. */
  lemma KeptRowsAreLow(sites: seq<Site>, sensors: seq<Sensor>, readings: seq<Reading>, threshold: real)
    ensures var r := FirstByKey(LowBatteryRows(sites, sensors, readings, threshold), SensorIdOf);
      && (forall i, k :: 0 <= i < k < |r| ==> r[i].reading.sensorId != r[k].reading.sensorId)
      && (forall i :: 0 <= i < |r| ==> LowBattery(r[i], threshold) && r[i] in JoinRows(sites, sensors, readings))
  {
    var rows := LowBatteryRows(sites, sensors, readings, threshold);
    var r := FirstByKey(rows, SensorIdOf);
    FirstByKeyProperties(rows, SensorIdOf);
    forall i | 0 <= i < |r| ensures LowBattery(r[i], threshold) && r[i] in JoinRows(sites, sensors, readings) {
      assert r[i] in rows;
    }
  }

  /** Every sensor with a low-battery reading keeps a row, and it is its newest low-battery reading. */
  lemma KeptRowIsNewest(sites: seq<Site>, sensors: seq<Sensor>, readings: seq<Reading>, threshold: real)
    ensures var r := FirstByKey(LowBatteryRows(sites, sensors, readings, threshold), SensorIdOf);
      forall j :: j in JoinRows(sites, sensors, readings) && LowBattery(j, threshold) ==>
        exists i :: 0 <= i < |r| && r[i].reading.sensorId == j.reading.sensorId && r[i].reading.timestamp >= j.reading.timestamp
  {
    var rows := LowBatteryRows(sites, sensors, readings, threshold);
    var r := FirstByKey(rows, SensorIdOf);
    FirstByKeyNewest(rows, SensorIdOf, ReadingTime);
    forall j | j in JoinRows(sites, sensors, readings) && LowBattery(j, threshold)
      ensures exists i :: 0 <= i < |r| && r[i].reading.sensorId == j.reading.sensorId && r[i].reading.timestamp >= j.reading.timestamp
    {
      assert j in rows;
      var i :| 0 <= i < |r| && SensorIdOf(r[i]) == SensorIdOf(j) && ReadingTime(r[i]) >= ReadingTime(j);
    }
  }

  /**
   * `getSensorsWithLowBattery`: the rows of the query, then the loop that
   * keeps the first row per sensor id.  At most one row per sensor, one
   * for every sensor with a low-battery reading, and that row is the
   * sensor's newest low-battery reading.
   */
  method SensorsWithLowBattery(sites: seq<Site>, sensors: seq<Sensor>, readings: seq<Reading>, threshold: real)
    returns (r: seq<Joined>)
    ensures r == FirstByKey(LowBatteryRows(sites, sensors, readings, threshold), SensorIdOf)
    ensures forall i, k :: 0 <= i < k < |r| ==> r[i].reading.sensorId != r[k].reading.sensorId
    ensures forall i :: 0 <= i < |r| ==> LowBattery(r[i], threshold) && r[i] in JoinRows(sites, sensors, readings)
    ensures forall j :: j in JoinRows(sites, sensors, readings) && LowBattery(j, threshold) ==>
      exists i :: 0 <= i < |r| && r[i].reading.sensorId == j.reading.sensorId && r[i].reading.timestamp >= j.reading.timestamp
  {
    var rows := LowBatteryRows(sites, sensors, readings, threshold);
    r := DedupFirst(rows, SensorIdOf);
    KeptRowsAreLow(sites, sensors, readings, threshold);
    KeptRowIsNewest(sites, sensors, readings, threshold);
  }

  // ---------------------------------------------------------------------
  // getHourlyAggregates / getDailyAggregates
  // ---------------------------------------------------------------------

  const HourMs: nat := 3_600_000
  const DayMs: nat := 86_400_000

  /** `DATE_TRUNC`: the start of the hour or day containing `t` (floor, also before 1970). */
  function Trunc(t: int, unit: nat): (r: int)
    requires unit > 0
    ensures r <= t < r + unit
  {
    assert t == (t / unit) * unit + t % unit;
    (t / unit) * unit
  }

  /** The readings of one sensor with timestamp in the closed window (the WHERE clause). */
  function SensorWindow(readings: seq<Reading>, sensorId: nat, startDate: int, endDate: int): (r: seq<Reading>)
    ensures forall x :: x in r <==> x in readings && x.sensorId == sensorId && startDate <= x.timestamp <= endDate
  {
    Filter(readings, (x: Reading) => x.sensorId == sensorId && startDate <= x.timestamp <= endDate)
  }

  ghost predicate StrictlyAscending(ks: seq<int>) {
    forall i, j :: 0 <= i < j < |ks| ==> ks[i] < ks[j]
  }

  function InsertKey(k: int, ks: seq<int>): (r: seq<int>)
    requires StrictlyAscending(ks)
    ensures StrictlyAscending(r)
    ensures forall x :: x in r <==> x == k || x in ks
    decreases |ks|
  {
    if ks == [] then [k]
    else if k < ks[0] then [k] + ks
    else if k == ks[0] then ks
    else
      var rest := InsertKey(k, ks[1..]);
      assert forall x :: x in ks[1..] ==> ks[0] < x;
      assert forall x :: x in rest ==> ks[0] < x;
      var r := [ks[0]] + rest;
      assert forall i :: 1 <= i < |r| ==> r[i] == rest[i - 1] && r[i] in rest;
      r
  }

  /** The distinct group keys of the rows, in ascending order (`GROUP BY ... ORDER BY`). */
  function BucketStarts(rows: seq<Reading>, unit: nat): (ks: seq<int>)
    requires unit > 0
    ensures StrictlyAscending(ks)
    ensures forall i :: 0 <= i < |rows| ==> Trunc(rows[i].timestamp, unit) in ks
    ensures forall k :: k in ks ==> CountIn(rows, k, unit) > 0
    decreases |rows|
  {
    if rows == [] then []
    else
      var rest := BucketStarts(rows[1..], unit);
      var r := InsertKey(Trunc(rows[0].timestamp, unit), rest);
      assert forall i :: 1 <= i < |rows| ==> rows[i] == rows[1..][i - 1];
      r
  }

  /** `COUNT(*)` of a group. */
  function CountIn(rows: seq<Reading>, k: int, unit: nat): nat
    requires unit > 0
    decreases |rows|
  {
    if rows == [] then 0
    else (if Trunc(rows[0].timestamp, unit) == k then 1 else 0) + CountIn(rows[1..], k, unit)
  }

  /**
   * The non-NULL values of a column within a group, the input of `AVG`,
   * `MIN` and `MAX`: a value is collected exactly when some row of the
   * group holds it, and no more values than the group has rows.
   */
  function ValuesIn(rows: seq<Reading>, k: int, unit: nat, column: Reading -> Option<real>): (vs: seq<real>)
    requires unit > 0
    ensures |vs| <= CountIn(rows, k, unit)
    ensures forall x :: x in vs <==>
      exists j :: 0 <= j < |rows| && Trunc(rows[j].timestamp, unit) == k && column(rows[j]) == Some(x)
    decreases |rows|
  {
    if rows == [] then []
    else
      var v := column(rows[0]);
      var rest := ValuesIn(rows[1..], k, unit, column);
      var vs := (if Trunc(rows[0].timestamp, unit) == k && v.Some? then [v.value] else []) + rest;
      assert forall j :: 1 <= j < |rows| ==> rows[j] == rows[1..][j - 1];
      forall x | x in vs
        ensures exists j :: 0 <= j < |rows| && Trunc(rows[j].timestamp, unit) == k && column(rows[j]) == Some(x)
      {
        if x !in rest {
          assert Trunc(rows[0].timestamp, unit) == k && column(rows[0]) == Some(x);
        }
      }
      vs
  }

  function Sum(xs: seq<real>): real
    decreases |xs|
  {
    if xs == [] then 0.0 else xs[0] + Sum(xs[1..])
  }

  /** `AVG`: NULL over no values. */
  function Avg(xs: seq<real>): (r: Option<real>)
    ensures r.Some? <==> xs != []
  {
    if xs == [] then None else Some(Sum(xs) / |xs| as real)
  }

  function Max(xs: seq<real>): (m: real)
    requires xs != []
    ensures m in xs
    ensures forall i :: 0 <= i < |xs| ==> xs[i] <= m
    decreases |xs|
  {
    if |xs| == 1 then xs[0]
    else
      var rest := Max(xs[1..]);
      assert forall i :: 1 <= i < |xs| ==> xs[i] == xs[1..][i - 1];
      if xs[0] >= rest then xs[0] else rest
  }

  function Min(xs: seq<real>): (m: real)
    requires xs != []
    ensures m in xs
    ensures forall i :: 0 <= i < |xs| ==> m <= xs[i]
    decreases |xs|
  {
    if |xs| == 1 then xs[0]
    else
      var rest := Min(xs[1..]);
      assert forall i :: 1 <= i < |xs| ==> xs[i] == xs[1..][i - 1];
      if xs[0] <= rest then xs[0] else rest
  }

  /** `MAX`/`MIN`: NULL over no values. */
  function MaxOf(xs: seq<real>): Option<real> {
    if xs == [] then None else Some(Max(xs))
  }

  function MinOf(xs: seq<real>): Option<real> {
    if xs == [] then None else Some(Min(xs))
  }

  lemma {:induction false} SumBounds(xs: seq<real>, lo: real, hi: real)
    requires forall i :: 0 <= i < |xs| ==> lo <= xs[i] <= hi
    ensures |xs| as real * lo <= Sum(xs) <= |xs| as real * hi
    decreases |xs|
  {
    if xs != [] {
      assert forall i :: 0 <= i < |xs[1..]| ==> xs[1..][i] == xs[i + 1];
      SumBounds(xs[1..], lo, hi);
    }
  }

  lemma QuotientBetween(total: real, n: real, lo: real, hi: real)
    requires n > 0.0 && n * lo <= total <= n * hi
    ensures lo <= total / n <= hi
  {
    var q := total / n;
    assert q * n == total;
    assert (q - lo) * n == total - n * lo;
    assert (hi - q) * n == n * hi - total;
  }

  /** The average of a group lies between its minimum and its maximum. */
  lemma AvgWithinMinMax(xs: seq<real>)
    requires xs != []
    ensures Min(xs) <= Avg(xs).value <= Max(xs)
  {
    AvgBetween(xs, Min(xs), Max(xs));
  }

  /** An average lies within any bounds of its values. */
  lemma AvgBetween(xs: seq<real>, lo: real, hi: real)
    requires xs != [] && forall i :: 0 <= i < |xs| ==> lo <= xs[i] <= hi
    ensures lo <= Avg(xs).value <= hi
  {
    SumBounds(xs, lo, hi);
    QuotientBetween(Sum(xs), |xs| as real, lo, hi);
  }

  function Pm25Of(x: Reading): Option<real> { x.m.pm25 }
  function Pm10Of(x: Reading): Option<real> { x.m.pm10 }
  function Co2Of(x: Reading): Option<real> { x.m.co2 }
  function TemperatureOf(x: Reading): Option<real> { x.m.temperature }
  function HumidityOf(x: Reading): Option<real> { x.m.humidity }

  datatype Bucket = Bucket(
    start: int,
    avgPm25: Option<real>,
    maxPm25: Option<real>,
    minPm25: Option<real>,
    avgPm10: Option<real>,
    avgCo2: Option<real>,
    avgTemp: Option<real>,
    avgHumidity: Option<real>,
    count: nat)

  function BucketOf(rows: seq<Reading>, k: int, unit: nat): (b: Bucket)
    requires unit > 0
    ensures b.start == k && b.count == CountIn(rows, k, unit)
  {
    var pm25 := ValuesIn(rows, k, unit, Pm25Of);
    Bucket(k, Avg(pm25), MaxOf(pm25), MinOf(pm25),
           Avg(ValuesIn(rows, k, unit, Pm10Of)), Avg(ValuesIn(rows, k, unit, Co2Of)),
           Avg(ValuesIn(rows, k, unit, TemperatureOf)), Avg(ValuesIn(rows, k, unit, HumidityOf)),
           CountIn(rows, k, unit))
  }

  /**
   * The GROUP BY of the aggregate queries over the already filtered rows:
   * one bucket per distinct truncated timestamp, ascending.
   */
  function Aggregate(rows: seq<Reading>, unit: nat): (r: seq<Bucket>)
    requires unit > 0
    ensures |r| == |BucketStarts(rows, unit)|
    ensures forall i, j :: 0 <= i < j < |r| ==> r[i].start < r[j].start
    ensures forall i :: 0 <= i < |r| ==> r[i].count > 0
    ensures forall i :: 0 <= i < |r| ==> r[i] == BucketOf(rows, r[i].start, unit)
  {
    var ks := BucketStarts(rows, unit);
    var r := seq(|ks|, i requires 0 <= i < |ks| => BucketOf(rows, ks[i], unit));
    assert forall i :: 0 <= i < |r| ==> r[i].start == ks[i] && r[i].count == CountIn(rows, ks[i], unit);
    r
  }

  /** Every row falls in one of the buckets: the one starting at its truncated timestamp. */
  lemma AggregateCoversRows(rows: seq<Reading>, unit: nat)
    requires unit > 0
    ensures var r := Aggregate(rows, unit);
      forall i :: 0 <= i < |rows| ==> exists b :: b in r && b.start == Trunc(rows[i].timestamp, unit)
  {
    var ks := BucketStarts(rows, unit);
    var r := Aggregate(rows, unit);
    forall i | 0 <= i < |rows| ensures exists b :: b in r && b.start == Trunc(rows[i].timestamp, unit) {
      var j :| 0 <= j < |ks| && ks[j] == Trunc(rows[i].timestamp, unit);
      assert r[j] in r;
    }
  }

  /** A group with a positive count has a row. */
  lemma {:induction false} CountPositive(rows: seq<Reading>, k: int, unit: nat)
    requires unit > 0 && CountIn(rows, k, unit) > 0
    ensures exists j :: 0 <= j < |rows| && Trunc(rows[j].timestamp, unit) == k
    decreases |rows|
  {
    if Trunc(rows[0].timestamp, unit) != k {
      CountPositive(rows[1..], k, unit);
      var j :| 0 <= j < |rows[1..]| && Trunc(rows[1..][j].timestamp, unit) == k;
      assert rows[j + 1] == rows[1..][j];
    }
  }

  /**
   * `bs` is the `GROUP BY DATE_TRUNC(...) ORDER BY DATE_TRUNC(...)` result
   * over `rows`: one bucket per truncated instant in ascending order, each
   * row falling in its bucket, each bucket aggregating its own rows, and
   * the counts adding up to the number of rows.
   */
  ghost predicate Summarises(bs: seq<Bucket>, rows: seq<Reading>, unit: nat)
    requires unit > 0
  {
    && (forall i, j :: 0 <= i < j < |bs| ==> bs[i].start < bs[j].start)
    && (forall i :: 0 <= i < |rows| ==> exists b :: b in bs && b.start == Trunc(rows[i].timestamp, unit))
    && (forall i :: 0 <= i < |bs| ==> bs[i] == BucketOf(rows, bs[i].start, unit) && bs[i].count > 0)
    && TotalCount(bs) == |rows|
  }

  lemma AggregateSummarises(rows: seq<Reading>, unit: nat)
    requires unit > 0
    ensures Summarises(Aggregate(rows, unit), rows, unit)
  {
    AggregateCoversRows(rows, unit);
    AggregateCountsAllRows(rows, unit);
  }

  /** `getHourlyAggregates`: the hourly buckets of the sensor's readings between the two instants, both included. */
  function HourlyAggregates(readings: seq<Reading>, sensorId: nat, startDate: int, endDate: int): (r: seq<Bucket>)
    ensures Summarises(r, SensorWindow(readings, sensorId, startDate, endDate), HourMs)
  {
    AggregateSummarises(SensorWindow(readings, sensorId, startDate, endDate), HourMs);
    Aggregate(SensorWindow(readings, sensorId, startDate, endDate), HourMs)
  }

  /** `getDailyAggregates`: the daily buckets of the sensor's readings between the two instants, both included. */
  function DailyAggregates(readings: seq<Reading>, sensorId: nat, startDate: int, endDate: int): (r: seq<Bucket>)
    ensures Summarises(r, SensorWindow(readings, sensorId, startDate, endDate), DayMs)
  {
    AggregateSummarises(SensorWindow(readings, sensorId, startDate, endDate), DayMs);
    Aggregate(SensorWindow(readings, sensorId, startDate, endDate), DayMs)
  }

  /** The total count of the groups over a list of keys. */
  function SumCounts(rows: seq<Reading>, ks: seq<int>, unit: nat): nat
    requires unit > 0
    decreases |ks|
  {
    if ks == [] then 0 else CountIn(rows, ks[0], unit) + SumCounts(rows, ks[1..], unit)
  }

  /** How often `k` occurs in `ks`, as a sum of indicators. */
  function Occurrences(ks: seq<int>, k: int): nat
    decreases |ks|
  {
    if ks == [] then 0 else (if ks[0] == k then 1 else 0) + Occurrences(ks[1..], k)
  }

  lemma {:induction false} OccursOnce(ks: seq<int>, k: int)
    requires StrictlyAscending(ks) && k in ks
    ensures Occurrences(ks, k) == 1
    decreases |ks|
  {
    if ks[0] == k {
      OccursNot(ks[1..], k);
    } else {
      OccursOnce(ks[1..], k);
    }
  }

  lemma {:induction false} OccursNot(ks: seq<int>, k: int)
    requires k !in ks
    ensures Occurrences(ks, k) == 0
    decreases |ks|
  {
    if ks != [] {
      OccursNot(ks[1..], k);
    }
  }

  /** Counting over `[x] + rest` is counting `x` once per matching key plus counting `rest`. */
  lemma {:induction false} SumCountsCons(x: Reading, rest: seq<Reading>, ks: seq<int>, unit: nat)
    requires unit > 0
    ensures SumCounts([x] + rest, ks, unit) == Occurrences(ks, Trunc(x.timestamp, unit)) + SumCounts(rest, ks, unit)
    decreases |ks|
  {
    if ks != [] {
      assert ([x] + rest)[1..] == rest;
      SumCountsCons(x, rest, ks[1..], unit);
    }
  }

  lemma {:induction false} SumCountsEmpty(ks: seq<int>, unit: nat)
    requires unit > 0
    ensures SumCounts([], ks, unit) == 0
    decreases |ks|
  {
    if ks != [] {
      SumCountsEmpty(ks[1..], unit);
    }
  }

  /** Over distinct keys covering every row, the group counts add up to the number of rows. */
  lemma {:induction false} SumCountsCovers(rows: seq<Reading>, ks: seq<int>, unit: nat)
    requires unit > 0 && StrictlyAscending(ks)
    requires forall i :: 0 <= i < |rows| ==> Trunc(rows[i].timestamp, unit) in ks
    ensures SumCounts(rows, ks, unit) == |rows|
    decreases |rows|
  {
    if rows == [] {
      SumCountsEmpty(ks, unit);
    } else {
      assert rows == [rows[0]] + rows[1..];
      SumCountsCons(rows[0], rows[1..], ks, unit);
      OccursOnce(ks, Trunc(rows[0].timestamp, unit));
      assert forall i :: 0 <= i < |rows[1..]| ==> rows[1..][i] == rows[i + 1];
      SumCountsCovers(rows[1..], ks, unit);
    }
  }

  function TotalCount(bs: seq<Bucket>): nat
    decreases |bs|
  {
    if bs == [] then 0 else bs[0].count + TotalCount(bs[1..])
  }

  lemma {:induction false} TotalCountIsSumCounts(rows: seq<Reading>, ks: seq<int>, unit: nat, bs: seq<Bucket>)
    requires unit > 0 && |bs| == |ks|
    requires forall i :: 0 <= i < |bs| ==> bs[i].count == CountIn(rows, ks[i], unit)
    ensures TotalCount(bs) == SumCounts(rows, ks, unit)
    decreases |ks|
  {
    if ks != [] {
      TotalCountIsSumCounts(rows, ks[1..], unit, bs[1..]);
    }
  }

  /** The groups partition the rows: their counts add up to the number of rows grouped. */
  lemma AggregateCountsAllRows(rows: seq<Reading>, unit: nat)
    requires unit > 0
    ensures TotalCount(Aggregate(rows, unit)) == |rows|
  {
    var ks := BucketStarts(rows, unit);
    var bs := Aggregate(rows, unit);
    forall i | 0 <= i < |bs| ensures bs[i].count == CountIn(rows, ks[i], unit) {
      assert bs[i] == BucketOf(rows, bs[i].start, unit);
    }
    TotalCountIsSumCounts(rows, ks, unit, bs);
    SumCountsCovers(rows, ks, unit);
  }

  // ---------------------------------------------------------------------
  // getSensorHealthSummary
  // ---------------------------------------------------------------------

  const DefaultHealthDays: int := 7

  function CheckTime(h: Health): int {
    h.checkTimestamp
  }

  /**
   * `getSensorHealthSummary`: the sensor's health records checked in the
   * last `days` days up to now, newest first.
   */
  function HealthSummary(health: seq<Health>, sensorId: nat, days: int, now: int): (r: seq<Health>)
    ensures SortedDesc(r, CheckTime)
    ensures forall h :: h in r <==> h in health && h.sensorId == sensorId && now - days * DayMs <= h.checkTimestamp <= now
    ensures multiset(r) == multiset(Filter(health, (h: Health) =>
      h.sensorId == sensorId && now - days * DayMs <= h.checkTimestamp <= now))
  {
    var rows := Filter(health, (h: Health) => h.sensorId == sensorId && now - days * DayMs <= h.checkTimestamp <= now);
    var r := SortDesc(rows, CheckTime);
    assert forall h :: h in r <==> h in rows by {
      forall h ensures h in r <==> h in rows {
        assert h in r <==> h in multiset(r);
        assert h in rows <==> h in multiset(rows);
      }
    }
    r
  }
}
