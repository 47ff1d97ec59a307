/**
 * `getRecentSensorReadings` (`frontend/lib/data-access.ts`): the newest
 * readings of the store, left-joined with their sensors and mapped to map
 * records.  Timestamps stay milliseconds instead of ISO strings, and a
 * "lat,lng" location is kept as its two numbers.
 */
module RecentReadings {
  import opened Wrappers
  import opened SeqUtils
  import opened SensorSchema
  import SensorQueries
  import opened Decimal

  const DefaultLimit: int := 500
  const FailurePrefix: string := "Failed to fetch sensor readings: "
  const NegativeLimitMessage: string := "LIMIT must not be negative"

  /** `${latitude},${longitude}` from the sensor, or the reading's own text. */
  datatype Location = LatLng(lat: real, lng: real) | Text(s: string)

  datatype RecentReading = RecentReading(location: Option<Location>, value: real, timestamp: int, sensorId: string)

  /** How the query failed: an `Error` with its message, or some other thrown value. */
  datatype Failure = ErrorObject(message: string) | NonError

  /** The row of the query: a reading with its sensor, if the left join found one. */
  datatype Row = Row(reading: Reading, sensor: Option<Sensor>)

  function IngestedAt(r: Row): int {
    r.reading.ingestedAt
  }

  /** Every reading with the sensor the left join finds for it, in table order. */
  function Joined(sensors: seq<Sensor>, readings: seq<Reading>): (j: seq<Row>)
    ensures |j| == |readings|
  {
    seq(|readings|, k requires 0 <= k < |readings| => Row(readings[k], SensorQueries.SensorById(sensors, readings[k].sensorId)))
  }

  /**
   * `FROM sensor_readings LEFT JOIN sensors ... ORDER BY ingested_at DESC LIMIT n`:
   * the `limit` newest joined rows (all of them when there are fewer),
   * newest first.  Ties in `ingested_at` may come in any order.
   */
  function RecentRows(sensors: seq<Sensor>, readings: seq<Reading>, limit: nat): (r: seq<Row>)
    ensures |r| == if |readings| <= limit then |readings| else limit
    ensures SortedDesc(r, IngestedAt)
    ensures multiset(r) <= multiset(Joined(sensors, readings))
    ensures forall x, k :: x in multiset(Joined(sensors, readings)) - multiset(r) && 0 <= k < |r| ==>
      IngestedAt(x) <= IngestedAt(r[k])
    ensures forall k :: 0 <= k < |r| ==> r[k].reading in readings && r[k].sensor == SensorQueries.SensorById(sensors, r[k].reading.sensorId)
  {
    var joined := Joined(sensors, readings);
    var sorted := SortDesc(joined, IngestedAt);
    var r := Take(sorted, limit);
    JoinedRows(sensors, readings, sorted);
    TakeSortedKeepsTop(sorted, limit, IngestedAt);
    assert multiset(sorted) == multiset(joined);
    assert forall k :: 0 <= k < |r| ==> r[k] == sorted[k];
    r
  }

  /** Any arrangement of the joined rows holds readings of the table, each with its own sensor. */
  lemma JoinedRows(sensors: seq<Sensor>, readings: seq<Reading>, rows: seq<Row>)
    requires multiset(rows) == multiset(Joined(sensors, readings))
    ensures forall k :: 0 <= k < |rows| ==>
      rows[k].reading in readings && rows[k].sensor == SensorQueries.SensorById(sensors, rows[k].reading.sensorId)
  {
    var joined := Joined(sensors, readings);
    forall k | 0 <= k < |rows|
      ensures rows[k].reading in readings && rows[k].sensor == SensorQueries.SensorById(sensors, rows[k].reading.sensorId)
    {
      assert rows[k] in multiset(joined);
      var i :| 0 <= i < |joined| && joined[i] == rows[k];
    }
  }

  /** `value ?? pm25 ?? pm10 ?? pm1 ?? co2 ?? 0` */
  function ValueOf(x: Reading): (v: real)
    ensures x.value.Some? ==> v == x.value.value
    ensures x.value.None? && x.m.pm25.Some? ==> v == x.m.pm25.value
    ensures x.value.None? && x.m.pm25.None? && x.m.pm10.Some? ==> v == x.m.pm10.value
    ensures x.value.None? && x.m.pm25.None? && x.m.pm10.None? && x.m.pm1.Some? ==> v == x.m.pm1.value
    ensures x.value.None? && x.m.pm25.None? && x.m.pm10.None? && x.m.pm1.None? && x.m.co2.Some? ==> v == x.m.co2.value
    ensures x.value.None? && x.m.pm25.None? && x.m.pm10.None? && x.m.pm1.None? && x.m.co2.None? ==> v == 0.0
  {
    if x.value.Some? then x.value.value
    else if x.m.pm25.Some? then x.m.pm25.value
    else if x.m.pm10.Some? then x.m.pm10.value
    else if x.m.pm1.Some? then x.m.pm1.value
    else if x.m.co2.Some? then x.m.co2.value
    else 0.0
  }

  /** The mapping of one row. */
  function ToRecentReading(r: Row): (m: RecentReading)
    ensures m.timestamp == r.reading.timestamp && m.value == ValueOf(r.reading)
    ensures (r.sensor.Some? && r.sensor.value.latitude.Some? && r.sensor.value.longitude.Some?) ==>
      m.location == Some(LatLng(r.sensor.value.latitude.value, r.sensor.value.longitude.value))
    ensures !(r.sensor.Some? && r.sensor.value.latitude.Some? && r.sensor.value.longitude.Some?) ==>
      m.location == (if r.reading.location.Some? then Some(Text(r.reading.location.value)) else None)
    ensures r.sensor.Some? ==> m.sensorId == r.sensor.value.deviceId
    ensures r.sensor.None? ==> m.sensorId == NatText(r.reading.sensorId)
  {
    var location :=
      if r.sensor.Some? && r.sensor.value.latitude.Some? && r.sensor.value.longitude.Some?
      then Some(LatLng(r.sensor.value.latitude.value, r.sensor.value.longitude.value))
      else if r.reading.location.Some? then Some(Text(r.reading.location.value))
      else None;
    var sensorId := if r.sensor.Some? then r.sensor.value.deviceId else NatText(r.reading.sensorId);
    RecentReading(location, ValueOf(r.reading), r.reading.timestamp, sensorId)
  }

  /**
   * `getRecentSensorReadings(limit)`: one record per selected row in the
   * same order, or the rethrown error with its prefix.  `failure` is what
   * the database call threw, if anything.
   */
  function GetRecentSensorReadings(sensors: seq<Sensor>, readings: seq<Reading>, limit: int, failure: Option<Failure>)
    : (r: Result<seq<RecentReading>, string>)
    ensures failure.Some? && failure.value.ErrorObject? ==> r == Err(FailurePrefix + failure.value.message)
    ensures failure.Some? && failure.value.NonError? ==> r == Err(FailurePrefix + "Unknown error")
    ensures failure.None? && limit < 0 ==> r == Err(FailurePrefix + NegativeLimitMessage)
    ensures r.Ok? ==> 0 <= limit && |r.value| == |RecentRows(sensors, readings, limit)|
    ensures r.Ok? ==> forall k :: 0 <= k < |r.value| ==> r.value[k] == ToRecentReading(RecentRows(sensors, readings, limit)[k])
  {
    if failure.Some? then
      Err(FailurePrefix + (if failure.value.ErrorObject? then failure.value.message else "Unknown error"))
    else if limit < 0 then
      Err(FailurePrefix + NegativeLimitMessage)
    else
      var rows := RecentRows(sensors, readings, limit);
      Ok(seq(|rows|, k requires 0 <= k < |rows| => ToRecentReading(rows[k])))
  }

  /** With every reading's sensor present (the schema's foreign key), each record names its device. */
  lemma RecordsNameTheirDevice(sensors: seq<Sensor>, readings: seq<Reading>, limit: nat)
    requires ReadingSensorsExist(sensors, readings)
    ensures var r := GetRecentSensorReadings(sensors, readings, limit, None);
      r.Ok? && forall k :: 0 <= k < |r.value| ==>
        exists s :: s in sensors && s.id == RecentRows(sensors, readings, limit)[k].reading.sensorId && r.value[k].sensorId == s.deviceId
  {
    var rows := RecentRows(sensors, readings, limit);
    var r := GetRecentSensorReadings(sensors, readings, limit, None);
    forall k | 0 <= k < |r.value|
      ensures exists s :: s in sensors && s.id == rows[k].reading.sensorId && r.value[k].sensorId == s.deviceId
    {
      var x := rows[k].reading;
      var i :| 0 <= i < |readings| && readings[i] == x;
      assert SensorExists(sensors, x.sensorId);
      var s := SensorQueries.SensorById(sensors, x.sensorId).value;
      assert r.value[k] == ToRecentReading(rows[k]);
    }
  }
}
