/**
 * The rows of the sensor database and the constraints the schema declares
 * on them (`frontend/lib/db/schema.ts`): the `sites`, `sensors`,
 * `sensor_readings` and `sensor_health` tables.  Columns that no modelled
 * operation reads or writes (contact details, installation dates, JSON
 * metadata, ...) are omitted from the rows.  Timestamps are milliseconds
 * since the epoch.
 */
module SensorSchema {
  import opened Wrappers

  /** `sites.country` defaults to "KZ". */
  const DefaultCountry: string := "KZ"

  /** The sensor type every auto-created sensor gets. */
  const AirQuality: string := "air_quality"

  datatype Site = Site(
    id: nat,
    siteName: string,
    city: Option<string>,
    country: Option<string>,
    createdAt: int,
    updatedAt: int)

  datatype Sensor = Sensor(
    id: nat,
    deviceId: string,
    siteId: Option<nat>,
    sensorType: string,
    firmwareVersion: Option<string>,
    latitude: Option<real>,
    longitude: Option<real>,
    isActive: bool,
    createdAt: int,
    updatedAt: int)

  /** The twelve nullable double-precision measurement columns of a reading. */
  datatype Measurements = Measurements(
    pm1: Option<real>, pm25: Option<real>, pm10: Option<real>, co2: Option<real>,
    co: Option<real>, o3: Option<real>, no2: Option<real>, voc: Option<real>,
    ch2o: Option<real>, temperature: Option<real>, humidity: Option<real>, pressure: Option<real>)

  datatype Reading = Reading(
    id: nat,
    sensorId: nat,
    timestamp: int,
    serverReceivedAt: int,
    m: Measurements,
    batteryLevel: Option<int>,
    signalStrength: Option<int>,
    errorCode: Option<string>,
    value: Option<real>,
    location: Option<string>,
    ingestedAt: int,
    dataHash: Option<string>)

  datatype Health = Health(
    id: nat,
    sensorId: nat,
    checkTimestamp: int,
    uptimeSeconds: Option<int>,
    readingCount24h: Option<int>,
    batteryVoltage: Option<real>,
    healthStatus: string)

  /** Some sensor row has this primary key. */
  predicate SensorExists(sensors: seq<Sensor>, id: nat) {
    exists j :: 0 <= j < |sensors| && sensors[j].id == id
  }

  /** Some site row has this primary key. */
  predicate SiteExists(sites: seq<Site>, id: nat) {
    exists j :: 0 <= j < |sites| && sites[j].id == id
  }

  /** Serial primary keys: distinct. */
  ghost predicate SiteKeys(sites: seq<Site>) {
    forall i, j :: 0 <= i < j < |sites| ==> sites[i].id != sites[j].id
  }

  ghost predicate SensorKeys(sensors: seq<Sensor>) {
    forall i, j :: 0 <= i < j < |sensors| ==> sensors[i].id != sensors[j].id
  }

  ghost predicate ReadingKeys(readings: seq<Reading>) {
    forall i, j :: 0 <= i < j < |readings| ==> readings[i].id != readings[j].id
  }

  ghost predicate HealthKeys(health: seq<Health>) {
    forall i, j :: 0 <= i < j < |health| ==> health[i].id != health[j].id
  }

  /** `sensors.device_id` is NOT NULL and has a unique index. */
  ghost predicate DeviceIdsUnique(sensors: seq<Sensor>) {
    forall i, j :: 0 <= i < j < |sensors| ==> sensors[i].deviceId != sensors[j].deviceId
  }

  /** `sensors.site_id` references `sites`. */
  ghost predicate SensorSitesExist(sites: seq<Site>, sensors: seq<Sensor>) {
    forall i :: 0 <= i < |sensors| && sensors[i].siteId.Some? ==> SiteExists(sites, sensors[i].siteId.value)
  }

  /** `sensor_readings.sensor_id` is NOT NULL and references `sensors`. */
  ghost predicate ReadingSensorsExist(sensors: seq<Sensor>, readings: seq<Reading>) {
    forall i :: 0 <= i < |readings| ==> SensorExists(sensors, readings[i].sensorId)
  }

  /** `sensor_health.sensor_id` is NOT NULL and references `sensors`. */
  ghost predicate HealthSensorsExist(sensors: seq<Sensor>, health: seq<Health>) {
    forall i :: 0 <= i < |health| ==> SensorExists(sensors, health[i].sensorId)
  }

  /**
   * Every constraint the schema declares.  Nothing here makes
   * `sites.site_name` or `sensor_readings.data_hash` unique: both only
   * carry a plain index.
   */
  ghost predicate Consistent(sites: seq<Site>, sensors: seq<Sensor>, readings: seq<Reading>, health: seq<Health>) {
    && SiteKeys(sites) && SensorKeys(sensors) && ReadingKeys(readings) && HealthKeys(health)
    && DeviceIdsUnique(sensors)
    && SensorSitesExist(sites, sensors)
    && ReadingSensorsExist(sensors, readings)
    && HealthSensorsExist(sensors, health)
  }

  const NoMeasurements: Measurements :=
    Measurements(None, None, None, None, None, None, None, None, None, None, None, None)

  /**
   * The schema admits two sites with the same name and two readings with
   * the same fingerprint, but not two sensors with the same device id.
   */
  lemma SchemaAdmitsDuplicateNamesAndHashes()
    ensures var sites := [Site(1, "AGI_Lab", None, Some(DefaultCountry), 0, 0), Site(2, "AGI_Lab", None, Some(DefaultCountry), 0, 0)];
      var sensors := [Sensor(1, "lab01", Some(1), AirQuality, None, None, None, true, 0, 0)];
      var readings := [Reading(1, 1, 0, 0, NoMeasurements, None, None, None, None, None, 0, Some("h")),
                       Reading(2, 1, 0, 0, NoMeasurements, None, None, None, None, None, 0, Some("h"))];
      Consistent(sites, sensors, readings, [])
    ensures !DeviceIdsUnique([Sensor(1, "lab01", None, AirQuality, None, None, None, true, 0, 0),
                              Sensor(2, "lab01", None, AirQuality, None, None, None, true, 0, 0)])
  {
    var sites := [Site(1, "AGI_Lab", None, Some(DefaultCountry), 0, 0), Site(2, "AGI_Lab", None, Some(DefaultCountry), 0, 0)];
    var sensors := [Sensor(1, "lab01", Some(1), AirQuality, None, None, None, true, 0, 0)];
    assert SiteExists(sites, 1) by { assert sites[0].id == 1; }
    assert SensorExists(sensors, 1) by { assert sensors[0].id == 1; }
    var twins := [Sensor(1, "lab01", None, AirQuality, None, None, None, true, 0, 0),
                  Sensor(2, "lab01", None, AirQuality, None, None, None, true, 0, 0)];
    assert twins[0].deviceId == twins[1].deviceId;
  }
}
