/**
 * The write side of the sensor database (`frontend/lib/sensor-data-access.ts`):
 * find-or-create for sites and sensors, the duplicate-fingerprint lookup
 * and the append of a reading, over a `Store` whose tables are sequences
 * of rows in insertion order and whose serial keys are counters.
 *
 * A Postgres error or a property read of `null` surfaces as `Err`; the
 * clock (`new Date()`) is the parameter `now`.
 */
module SensorStore {
  import opened Wrappers
  import opened JsValue
  import opened SeqUtils
  import opened SensorSchema
  import opened SensorValidation

  /**
   * Why a write fails: Postgres rejects a value or a reference, finds no
   * `=` between a column and a parameter of another type, or the code
   * reads a property of null.
   */
  datatype DbError =
    | ForeignKeyViolation(column: string)
    | InvalidInput(column: string)
    | OperatorMismatch(column: string)
    | NullDereference(property: string)

  const Int32Min: int := -0x8000_0000
  const Int32Max: int := 0x7FFF_FFFF

  // ---------------------------------------------------------------------
  // Lookups (`WHERE ... LIMIT 1`)
  // ---------------------------------------------------------------------

  /**
   * Position of a site with this exact name.  Site names are not unique;
   * `LIMIT 1` without `ORDER BY` may return any of them, and the model
   * takes the first.
   */
  function SiteIndex(sites: seq<Site>, siteName: string): (r: Option<nat>)
    ensures r.Some? ==> r.value < |sites| && sites[r.value].siteName == siteName
    ensures r.None? <==> forall j :: 0 <= j < |sites| ==> sites[j].siteName != siteName
  {
    FirstIndex(sites, (s: Site) => s.siteName == siteName)
  }

  /** Position of the sensor with this device id (unique by the schema). */
  function SensorIndex(sensors: seq<Sensor>, deviceId: string): (r: Option<nat>)
    ensures r.Some? ==> r.value < |sensors| && sensors[r.value].deviceId == deviceId
    ensures r.None? <==> forall j :: 0 <= j < |sensors| ==> sensors[j].deviceId != deviceId
  {
    FirstIndex(sensors, (s: Sensor) => s.deviceId == deviceId)
  }

  /** Under a unique device id, the lookup finds the one row with that id. */
  lemma SensorIndexUnique(sensors: seq<Sensor>, j: nat)
    requires DeviceIdsUnique(sensors) && j < |sensors|
    ensures SensorIndex(sensors, sensors[j].deviceId) == Some(j)
  {
  }

  /** Some stored reading carries this fingerprint. */
  predicate HashStored(readings: seq<Reading>, dataHash: string) {
    exists j :: 0 <= j < |readings| && readings[j].dataHash == Some(dataHash)
  }

  // ---------------------------------------------------------------------
  // Column conversions of `insertSensorReading`
  // ---------------------------------------------------------------------

  /** `v ?? null` written to a `double precision` column. */
  function DoubleColumn(v: Value, column: string): (r: Result<Option<real>, DbError>)
    ensures r == Ok(None) <==> Nullish(v)
    ensures r.Ok? && r.value.Some? <==> v.Number?
    ensures v.Number? ==> r == Ok(Some(v.n))
    ensures r.Err? ==> r.error == InvalidInput(column)
  {
    match v
    case Undefined => Ok(None)
    case Null => Ok(None)
    case Number(n) => Ok(Some(n))
    case _ => Err(InvalidInput(column))
  }

  /** A number Postgres accepts as input of an `integer` column. */
  predicate IsInt32(x: real) {
    x == x.Floor as real && Int32Min <= x.Floor <= Int32Max
  }

  /**
   * `v ?? null` written to an `integer` column: a fractional or
   * out-of-range number is rejected.
   */
  function IntegerColumn(v: Value, column: string): (r: Result<Option<int>, DbError>)
    ensures r == Ok(None) <==> Nullish(v)
    ensures r.Ok? && r.value.Some? <==> v.Number? && IsInt32(v.n)
    ensures r.Ok? && r.value.Some? ==> r.value.value as real == v.n
    ensures r.Err? ==> r.error == InvalidInput(column)
  {
    match v
    case Undefined => Ok(None)
    case Null => Ok(None)
    case Number(n) => if IsInt32(n) then Ok(Some(n.Floor)) else Err(InvalidInput(column))
    case _ => Err(InvalidInput(column))
  }

  /** A value the model can bind to a `text` column: anything but an array or an object. */
  predicate TextStorable(v: Value) {
    !v.Arr? && !v.Obj?
  }

  /**
   * `v ?? null` written to a `text` column.  postgres-js sends a string
   * or a number without a type, so Postgres reads the parameter as text:
   * a number is stored as `String(n)`.  A boolean is sent as `bool` and
   * stored through the assignment cast to text as "true" or "false".
   * Arrays and objects are refused.
   */
  function TextColumn(v: Value, column: string, numeral: real -> string): (r: Result<Option<string>, DbError>)
    ensures r == Ok(None) <==> Nullish(v)
    ensures r.Err? <==> !TextStorable(v)
    ensures r.Err? ==> r.error == InvalidInput(column)
    ensures v.Str? ==> r == Ok(Some(v.s))
    ensures v.Number? ==> r == Ok(Some(NumberText(v.n, numeral)))
    ensures v.Bool? ==> r == Ok(Some(if v.b then "true" else "false"))
  {
    match v
    case Undefined => Ok(None)
    case Null => Ok(None)
    case Str(s) => Ok(Some(s))
    case Number(n) => Ok(Some(NumberText(n, numeral)))
    case Bool(b) => Ok(Some(if b then "true" else "false"))
    case _ => Err(InvalidInput(column))
  }

  /**
   * `firmwareVersion || null` for the `firmware_version` column: a falsy
   * firmware is stored as NULL, any other as its text.
   */
  function FirmwareColumn(firmware: Value, numeral: real -> string): (r: Result<Option<string>, DbError>)
    ensures r == Ok(None) <==> !Truthy(firmware)
    ensures r.Err? <==> !TextStorable(firmware)
    ensures firmware.Str? && Truthy(firmware) ==> r == Ok(Some(firmware.s))
    ensures firmware.Number? && Truthy(firmware) ==> r == Ok(Some(NumberText(firmware.n, numeral)))
    ensures firmware == Bool(true) ==> r == Ok(Some("true"))
  {
    if Truthy(firmware) then TextColumn(firmware, "firmware_version", numeral) else Ok(None)
  }

  /** The measurement column a validated field is stored in (`temp` in `temperature`, `hum` in `humidity`). */
  function Column(m: Measurements, f: FieldName): Option<real>
    requires f in ReadingFields
  {
    match f
    case Pm1 => m.pm1
    case Pm25 => m.pm25
    case Pm10 => m.pm10
    case Co2 => m.co2
    case Co => m.co
    case O3 => m.o3
    case No2 => m.no2
    case Voc => m.voc
    case Ch2o => m.ch2o
    case Temp => m.temperature
    case Hum => m.humidity
    case Pressure => m.pressure
  }

  /** The stored value of field `f` of the readings object. */
  function FieldColumn(rd: Value, f: FieldName): Result<Option<real>, DbError> {
    DoubleColumn(Get(rd, Key(f)), Key(f))
  }

  function ColumnValue(rd: Value, f: FieldName): Option<real>
    requires FieldColumn(rd, f).Ok?
  {
    FieldColumn(rd, f).value
  }

  /** Every measurement field of the readings object can be stored. */
  predicate Storable(rd: Value) {
    forall f :: f in ReadingFields ==> FieldColumn(rd, f).Ok?
  }

  /** The measurement columns of a storable readings object. */
  function BuildMeasurements(rd: Value): Measurements
    requires Storable(rd)
  {
    Measurements(
      ColumnValue(rd, Pm1), ColumnValue(rd, Pm25), ColumnValue(rd, Pm10), ColumnValue(rd, Co2),
      ColumnValue(rd, Co), ColumnValue(rd, O3), ColumnValue(rd, No2), ColumnValue(rd, Voc),
      ColumnValue(rd, Ch2o), ColumnValue(rd, Temp), ColumnValue(rd, Hum), ColumnValue(rd, Pressure))
  }

  lemma BuildMeasurementsColumns(rd: Value)
    requires Storable(rd)
    ensures forall f :: f in ReadingFields ==> Column(BuildMeasurements(rd), f) == FieldColumn(rd, f).value
  {
    forall f | f in ReadingFields ensures Column(BuildMeasurements(rd), f) == FieldColumn(rd, f).value {
      match f
      case Battery => assert false;
      case Signal => assert false;
      case _ =>
    }
  }

  /** The twelve measurement columns of a readings object; the first unstorable field is reported. */
  function MeasurementsOf(rd: Value): (r: Result<Measurements, DbError>)
    ensures r.Ok? <==> Storable(rd)
    ensures r.Ok? ==> forall f :: f in ReadingFields ==> Column(r.value, f) == FieldColumn(rd, f).value
  {
    if Storable(rd) then
      BuildMeasurementsColumns(rd);
      Ok(BuildMeasurements(rd))
    else
      match FirstIndex(ReadingFields, (f: FieldName) => FieldColumn(rd, f).Err?)
      case Some(i) => Err(FieldColumn(rd, ReadingFields[i]).error)
      case None => Err(InvalidInput("readings"))
  }

  /** Every value `insertSensorReading` reads from the request can be stored in its column. */
  predicate Insertable(rd: Value, md: Value) {
    && !Nullish(rd) && MeasurementsOf(rd).Ok?
    && IntegerColumn(Get(md, "battery"), "battery_level").Ok?
    && IntegerColumn(Get(md, "signal"), "signal_strength").Ok?
    && TextStorable(Get(md, "error_code"))
  }

  /**
   * The row `insertSensorReading` asks Postgres to store, or the error
   * building it: reading `pm1` of a null readings object throws before
   * anything is sent.  `value` and `location` are not set.
   */
  function ReadingRow(id: nat, sensorId: nat, timestamp: int, rd: Value, md: Value, dataHash: string, now: int,
                      numeral: real -> string)
    : (r: Result<Reading, DbError>)
    ensures Nullish(rd) ==> r == Err(NullDereference("pm1"))
    ensures r.Ok? ==> r.value.id == id && r.value.sensorId == sensorId && r.value.dataHash == Some(dataHash)
  {
    if Nullish(rd) then Err(NullDereference("pm1"))
    else
      var m := MeasurementsOf(rd);
      var battery := IntegerColumn(Get(md, "battery"), "battery_level");
      var signal := IntegerColumn(Get(md, "signal"), "signal_strength");
      var errorCode := TextColumn(Get(md, "error_code"), "error_code", numeral);
      if m.Err? then Err(m.error)
      else if battery.Err? then Err(battery.error)
      else if signal.Err? then Err(signal.error)
      else if errorCode.Err? then Err(errorCode.error)
      else Ok(Reading(id, sensorId, timestamp, now, m.value, battery.value, signal.value,
                      errorCode.value, None, None, now, Some(dataHash)))
  }

  /**
   * The row holds what the request carried: each measurement field in
   * its column, battery, signal and error code from the metadata, and
   * null for every absent field.  It is built exactly when every value
   * can be stored.
   */
  lemma ReadingRowColumns(id: nat, sensorId: nat, timestamp: int, rd: Value, md: Value, dataHash: string, now: int,
                          numeral: real -> string)
    ensures var r := ReadingRow(id, sensorId, timestamp, rd, md, dataHash, now, numeral);
      && (r.Ok? <==> Insertable(rd, md))
      && (r.Ok? ==>
        && r.value.timestamp == timestamp
        && r.value.serverReceivedAt == now && r.value.ingestedAt == now
        && r.value.value.None? && r.value.location.None?
        && (forall f :: f in ReadingFields ==> Column(r.value.m, f) == FieldColumn(rd, f).value)
        && r.value.batteryLevel == IntegerColumn(Get(md, "battery"), "battery_level").value
        && r.value.signalStrength == IntegerColumn(Get(md, "signal"), "signal_strength").value
        && r.value.errorCode == TextColumn(Get(md, "error_code"), "error_code", numeral).value)
  {
    var r := ReadingRow(id, sensorId, timestamp, rd, md, dataHash, now, numeral);
    if Insertable(rd, md) {
      var m := MeasurementsOf(rd);
      assert r == Ok(Reading(id, sensorId, timestamp, now, m.value,
                             IntegerColumn(Get(md, "battery"), "battery_level").value,
                             IntegerColumn(Get(md, "signal"), "signal_strength").value,
                             TextColumn(Get(md, "error_code"), "error_code", numeral).value, None, None, now, Some(dataHash)));
    } else {
      assert r.Err?;
    }
  }

  /** A reading row can be built exactly for insertable readings and metadata. */
  lemma ReadingRowInsertable(id: nat, sensorId: nat, timestamp: int, rd: Value, md: Value, dataHash: string, now: int,
                             numeral: real -> string)
    ensures ReadingRow(id, sensorId, timestamp, rd, md, dataHash, now, numeral).Ok? <==> Insertable(rd, md)
  {
    ReadingRowColumns(id, sensorId, timestamp, rd, md, dataHash, now, numeral);
  }

  /** The columns `findOrCreateSensor` never touches on an existing row. */
  predicate SameIdentity(a: Sensor, b: Sensor) {
    && a.id == b.id && a.deviceId == b.deviceId && a.siteId == b.siteId
    && a.sensorType == b.sensorType && a.isActive == b.isActive
    && a.latitude == b.latitude && a.longitude == b.longitude && a.createdAt == b.createdAt
  }

  /** `params.siteId || null` */
  function SiteOrNull(siteId: Option<nat>): (r: Option<nat>)
    ensures r.Some? <==> siteId.Some? && siteId.value != 0
    ensures r.Some? ==> r == siteId
  {
    if siteId == Some(0) then None else siteId
  }

  /**
   * `params.firmwareVersion && existingSensor.firmwareVersion !== params.firmwareVersion`:
   * a truthy firmware that is not the stored string.  The stored column
   * is text, so a number or `true` never equals it and is rewritten on
   * every call.
   */
  predicate FirmwareChanges(existing: Sensor, firmware: Value) {
    Truthy(firmware) && !(firmware.Str? && existing.firmwareVersion == Some(firmware.s))
  }

  // ---------------------------------------------------------------------
  // The writes keep the schema's constraints
  // ---------------------------------------------------------------------

  /** Appending a site under a fresh key keeps every constraint. */
  lemma AppendSiteConsistent(sites: seq<Site>, sensors: seq<Sensor>, readings: seq<Reading>, health: seq<Health>, row: Site)
    requires Consistent(sites, sensors, readings, health)
    requires forall i :: 0 <= i < |sites| ==> sites[i].id != row.id
    ensures Consistent(sites + [row], sensors, readings, health)
  {
    var after := sites + [row];
    forall i | 0 <= i < |sensors| && sensors[i].siteId.Some?
      ensures SiteExists(after, sensors[i].siteId.value)
    {
      var j :| 0 <= j < |sites| && sites[j].id == sensors[i].siteId.value;
      assert after[j] == sites[j];
    }
  }

  /** Rewriting a sensor's non-identity columns keeps every constraint. */
  lemma ReplaceSensorConsistent(sites: seq<Site>, sensors: seq<Sensor>, readings: seq<Reading>, health: seq<Health>,
                                i: nat, s: Sensor)
    requires Consistent(sites, sensors, readings, health)
    requires i < |sensors| && SameIdentity(sensors[i], s)
    ensures Consistent(sites, sensors[i := s], readings, health)
  {
    var after := sensors[i := s];
    forall k | 0 <= k < |readings| ensures SensorExists(after, readings[k].sensorId) {
      var j :| 0 <= j < |sensors| && sensors[j].id == readings[k].sensorId;
      assert after[j].id == sensors[j].id;
    }
    forall k | 0 <= k < |health| ensures SensorExists(after, health[k].sensorId) {
      var j :| 0 <= j < |sensors| && sensors[j].id == health[k].sensorId;
      assert after[j].id == sensors[j].id;
    }
  }

  /** Appending a sensor under a fresh key and a fresh device id, naming an existing site or none, keeps every constraint. */
  lemma AppendSensorConsistent(sites: seq<Site>, sensors: seq<Sensor>, readings: seq<Reading>, health: seq<Health>, row: Sensor)
    requires Consistent(sites, sensors, readings, health)
    requires forall i :: 0 <= i < |sensors| ==> sensors[i].id != row.id && sensors[i].deviceId != row.deviceId
    requires row.siteId.Some? ==> SiteExists(sites, row.siteId.value)
    ensures Consistent(sites, sensors + [row], readings, health)
  {
    var after := sensors + [row];
    forall k | 0 <= k < |readings| ensures SensorExists(after, readings[k].sensorId) {
      var j :| 0 <= j < |sensors| && sensors[j].id == readings[k].sensorId;
      assert after[j] == sensors[j];
    }
    forall k | 0 <= k < |health| ensures SensorExists(after, health[k].sensorId) {
      var j :| 0 <= j < |sensors| && sensors[j].id == health[k].sensorId;
      assert after[j] == sensors[j];
    }
    forall k | 0 <= k < |after| && after[k].siteId.Some? ensures SiteExists(sites, after[k].siteId.value) {
      if k < |sensors| {
        assert after[k] == sensors[k];
      }
    }
  }

  /** Appending a reading under a fresh key, for an existing sensor, keeps every constraint. */
  lemma AppendReadingConsistent(sites: seq<Site>, sensors: seq<Sensor>, readings: seq<Reading>, health: seq<Health>, row: Reading)
    requires Consistent(sites, sensors, readings, health)
    requires forall i :: 0 <= i < |readings| ==> readings[i].id != row.id
    requires SensorExists(sensors, row.sensorId)
    ensures Consistent(sites, sensors, readings + [row], health)
  {
    var after := readings + [row];
    forall k | 0 <= k < |after| ensures SensorExists(sensors, after[k].sensorId) {
      if k < |readings| {
        assert after[k] == readings[k];
      }
    }
  }

  class Store {
    var sites: seq<Site>
    var sensors: seq<Sensor>
    var readings: seq<Reading>
    var health: seq<Health>
    var nextSiteId: nat
    var nextSensorId: nat
    var nextReadingId: nat

    /** The schema's constraints hold and every serial counter is past the keys it has issued. */
    ghost predicate Valid()
      reads this
    {
      && Consistent(sites, sensors, readings, health)
      && (forall i :: 0 <= i < |sites| ==> sites[i].id < nextSiteId)
      && (forall i :: 0 <= i < |sensors| ==> sensors[i].id < nextSensorId)
      && (forall i :: 0 <= i < |readings| ==> readings[i].id < nextReadingId)
    }

    constructor ()
      ensures Valid()
      ensures sites == [] && sensors == [] && readings == [] && health == []
      ensures nextSiteId == 1 && nextSensorId == 1 && nextReadingId == 1
    {
      sites, sensors, readings, health := [], [], [], [];
      nextSiteId, nextSensorId, nextReadingId := 1, 1, 1;
    }

    /**
     * `findOrCreateSite`: the id of a site with this exact name, inserting
     * one (country defaulting to "KZ") only when none exists.  Afterwards
     * the name is found, so a repeated call inserts nothing.
     */
    method FindOrCreateSite(siteName: string, now: int) returns (id: nat)
      requires Valid()
      modifies this
      ensures Valid()
      ensures sensors == old(sensors) && readings == old(readings) && health == old(health)
      ensures nextSensorId == old(nextSensorId) && nextReadingId == old(nextReadingId)
      ensures SiteIndex(old(sites), siteName).Some? ==>
        && sites == old(sites) && nextSiteId == old(nextSiteId)
        && id == old(sites)[SiteIndex(old(sites), siteName).value].id
      ensures SiteIndex(old(sites), siteName).None? ==>
        && id == old(nextSiteId) && nextSiteId == old(nextSiteId) + 1
        && sites == old(sites) + [Site(id, siteName, None, Some(DefaultCountry), now, now)]
      ensures SiteIndex(sites, siteName).Some? && SiteExists(sites, id)
      ensures exists j :: 0 <= j < |sites| && sites[j].id == id && sites[j].siteName == siteName
    {
      var found := SiteIndex(sites, siteName);
      if found.Some? {
        id := sites[found.value].id;
        assert sites[found.value].id == id;
      } else {
        id := nextSiteId;
        var row := Site(id, siteName, None, Some(DefaultCountry), now, now);
        AppendSiteConsistent(sites, sensors, readings, health, row);
        sites := sites + [row];
        nextSiteId := nextSiteId + 1;
        assert sites[|sites| - 1] == row;
      }
    }

    /**
     * `findOrCreateSensor`: an existing sensor (found by device id) is
     * returned, with only its firmware and `updatedAt` rewritten when
     * `FirmwareChanges`; otherwise a new active "air_quality" sensor is
     * inserted with `siteId || null` and `firmwareVersion || null`.  A new
     * sensor naming a missing site violates the foreign key, and a
     * firmware that cannot be bound to the text column fails either write.
     */
    method FindOrCreateSensor(deviceId: string, siteId: Option<nat>, firmware: Value, now: int,
                              numeral: real -> string)
      returns (r: Result<Sensor, DbError>)
      requires Valid()
      modifies this
      ensures Valid()
      ensures sites == old(sites) && readings == old(readings) && health == old(health)
      ensures nextSiteId == old(nextSiteId) && nextReadingId == old(nextReadingId)
      ensures SensorIndex(old(sensors), deviceId).Some? ==>
        var i := SensorIndex(old(sensors), deviceId).value;
        var s := old(sensors)[i];
        && nextSensorId == old(nextSensorId)
        && (!FirmwareChanges(s, firmware) ==> r == Ok(s) && sensors == old(sensors))
        && (FirmwareChanges(s, firmware) && !TextStorable(firmware) ==>
              r == Err(InvalidInput("firmware_version")) && sensors == old(sensors))
        && (FirmwareChanges(s, firmware) && TextStorable(firmware) ==>
              && r == Ok(s.(firmwareVersion := FirmwareColumn(firmware, numeral).value, updatedAt := now))
              && sensors == old(sensors)[i := r.value])
      ensures SensorIndex(old(sensors), deviceId).None? && !TextStorable(firmware) ==>
        r == Err(InvalidInput("firmware_version")) && sensors == old(sensors) && nextSensorId == old(nextSensorId)
      ensures SensorIndex(old(sensors), deviceId).None? && TextStorable(firmware) && SiteOrNull(siteId).Some?
              && !SiteExists(sites, SiteOrNull(siteId).value) ==>
        r == Err(ForeignKeyViolation("site_id")) && sensors == old(sensors) && nextSensorId == old(nextSensorId)
      ensures SensorIndex(old(sensors), deviceId).None? && TextStorable(firmware) &&
              (SiteOrNull(siteId).None? || SiteExists(sites, SiteOrNull(siteId).value)) ==>
        && r == Ok(Sensor(old(nextSensorId), deviceId, SiteOrNull(siteId), AirQuality,
                          FirmwareColumn(firmware, numeral).value, None, None, true, now, now))
        && sensors == old(sensors) + [r.value] && nextSensorId == old(nextSensorId) + 1
      ensures |old(sensors)| <= |sensors|
      ensures forall j :: 0 <= j < |old(sensors)| ==> SameIdentity(old(sensors)[j], sensors[j])
      ensures r.Err? ==> sensors == old(sensors)
      ensures r.Ok? && Truthy(firmware) ==> r.value.firmwareVersion == FirmwareColumn(firmware, numeral).value
      ensures r.Ok? && Truthy(firmware) && !firmware.Str? ==> r.value.updatedAt == now
      ensures r.Ok? ==> r.value.deviceId == deviceId && SensorExists(sensors, r.value.id)
      ensures r.Ok? ==> SensorIndex(sensors, deviceId).Some? && sensors[SensorIndex(sensors, deviceId).value] == r.value
    {
      var found := SensorIndex(sensors, deviceId);
      if found.Some? {
        r := RefreshSensor(found.value, firmware, now, numeral);
      } else {
        var site := SiteOrNull(siteId);
        var fw := FirmwareColumn(firmware, numeral);
        if fw.Err? {
          r := Err(fw.error);
        } else if site.Some? && !SiteExists(sites, site.value) {
          r := Err(ForeignKeyViolation("site_id"));
        } else {
          var row := AddSensor(deviceId, site, fw.value, now);
          r := Ok(row);
        }
      }
    }

    /** The existing-sensor branch: only the firmware and `updatedAt` may change. */
    method RefreshSensor(i: nat, firmware: Value, now: int, numeral: real -> string) returns (r: Result<Sensor, DbError>)
      requires Valid() && i < |sensors|
      modifies this
      ensures Valid()
      ensures sites == old(sites) && readings == old(readings) && health == old(health)
      ensures nextSiteId == old(nextSiteId) && nextReadingId == old(nextReadingId) && nextSensorId == old(nextSensorId)
      ensures !FirmwareChanges(old(sensors)[i], firmware) ==> r == Ok(old(sensors)[i])
      ensures FirmwareChanges(old(sensors)[i], firmware) && !TextStorable(firmware) ==>
        r == Err(InvalidInput("firmware_version"))
      ensures FirmwareChanges(old(sensors)[i], firmware) && TextStorable(firmware) ==>
        r == Ok(old(sensors)[i].(firmwareVersion := FirmwareColumn(firmware, numeral).value, updatedAt := now))
      ensures r.Err? ==> sensors == old(sensors)
      ensures r.Ok? ==> sensors == old(sensors)[i := r.value] && SameIdentity(old(sensors)[i], r.value)
      ensures r.Ok? ==> SensorIndex(sensors, r.value.deviceId) == Some(i)
    {
      var s := sensors[i];
      if FirmwareChanges(s, firmware) {
        var fw := FirmwareColumn(firmware, numeral);
        if fw.Err? {
          return Err(fw.error);
        }
        s := s.(firmwareVersion := fw.value, updatedAt := now);
        ReplaceSensorConsistent(sites, sensors, readings, health, i, s);
        sensors := sensors[i := s];
      } else {
        assert sensors == sensors[i := s];
      }
      SensorIndexUnique(sensors, i);
      r := Ok(s);
    }

    /** The insert branch: a new active air-quality sensor under the next id. */
    method AddSensor(deviceId: string, site: Option<nat>, firmware: Option<string>, now: int) returns (row: Sensor)
      requires Valid() && SensorIndex(sensors, deviceId).None?
      requires site.Some? ==> SiteExists(sites, site.value)
      modifies this
      ensures Valid()
      ensures sites == old(sites) && readings == old(readings) && health == old(health)
      ensures nextSiteId == old(nextSiteId) && nextReadingId == old(nextReadingId)
      ensures row == Sensor(old(nextSensorId), deviceId, site, AirQuality, firmware, None, None, true, now, now)
      ensures sensors == old(sensors) + [row] && nextSensorId == old(nextSensorId) + 1
      ensures SensorIndex(sensors, deviceId) == Some(|old(sensors)|)
    {
      row := Sensor(nextSensorId, deviceId, site, AirQuality, firmware, None, None, true, now, now);
      AppendSensorConsistent(sites, sensors, readings, health, row);
      sensors := sensors + [row];
      nextSensorId := nextSensorId + 1;
      assert sensors[|sensors| - 1] == row;
      SensorIndexUnique(sensors, |sensors| - 1);
    }

    /** `checkDuplicateReading`: true exactly when some stored reading carries this fingerprint. */
    method CheckDuplicateReading(dataHash: string) returns (duplicate: bool)
      ensures duplicate <==> HashStored(readings, dataHash)
    {
      var found := FirstIndex(readings, (row: Reading) => row.dataHash == Some(dataHash));
      duplicate := found.Some?;
    }

    /**
     * `insertSensorReading`: appends exactly one row built by `ReadingRow`
     * and returns its new id, or fails without writing when a value cannot
     * be stored or the sensor does not exist.
     */
    method InsertSensorReading(sensorId: nat, timestamp: int, rd: Value, md: Value, dataHash: string, now: int,
                               numeral: real -> string)
      returns (r: Result<nat, DbError>)
      requires Valid()
      modifies this
      ensures Valid()
      ensures sites == old(sites) && sensors == old(sensors) && health == old(health)
      ensures nextSiteId == old(nextSiteId) && nextSensorId == old(nextSensorId)
      ensures ReadingRow(old(nextReadingId), sensorId, timestamp, rd, md, dataHash, now, numeral).Err? ==>
        && r == Err(ReadingRow(old(nextReadingId), sensorId, timestamp, rd, md, dataHash, now, numeral).error)
        && readings == old(readings) && nextReadingId == old(nextReadingId)
      ensures ReadingRow(old(nextReadingId), sensorId, timestamp, rd, md, dataHash, now, numeral).Ok?
              && !SensorExists(sensors, sensorId) ==>
        && r == Err(ForeignKeyViolation("sensor_id"))
        && readings == old(readings) && nextReadingId == old(nextReadingId)
      ensures ReadingRow(old(nextReadingId), sensorId, timestamp, rd, md, dataHash, now, numeral).Ok?
              && SensorExists(sensors, sensorId) ==>
        && r == Ok(old(nextReadingId)) && nextReadingId == old(nextReadingId) + 1
        && readings == old(readings) + [ReadingRow(old(nextReadingId), sensorId, timestamp, rd, md, dataHash, now, numeral).value]
    {
      var row := ReadingRow(nextReadingId, sensorId, timestamp, rd, md, dataHash, now, numeral);
      if row.Err? {
        r := Err(row.error);
      } else if !SensorExists(sensors, sensorId) {
        r := Err(ForeignKeyViolation("sensor_id"));
      } else {
        var added := row.value;
        assert added.id == nextReadingId && added.sensorId == sensorId;
        r := Ok(nextReadingId);
        AppendReadingConsistent(sites, sensors, readings, health, added);
        readings := readings + [added];
        nextReadingId := nextReadingId + 1;
      }
    }
  }

  /** After an insert that succeeded, the fingerprint is stored, so the duplicate check answers true. */
  lemma InsertedHashIsStored(readings: seq<Reading>, row: Reading, dataHash: string)
    requires row.dataHash == Some(dataHash)
    ensures HashStored(readings + [row], dataHash)
    ensures forall h :: HashStored(readings, h) ==> HashStored(readings + [row], h)
  {
    assert (readings + [row])[|readings|] == row;
    forall h | HashStored(readings, h) ensures HashStored(readings + [row], h) {
      var j :| 0 <= j < |readings| && readings[j].dataHash == Some(h);
      assert (readings + [row])[j] == readings[j];
    }
  }
}
