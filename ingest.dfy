/**
 * The device ingestion endpoint `POST /api/v1/sensor-data`
 * (`frontend/app/api/v1/sensor-data/route.ts`): a fixed sequence of
 * early exits (configuration, authorisation, JSON, validation, duplicate)
 * followed by three writes (site, sensor, reading).
 *
 * The environment secret, the Authorization header, the parsed body, the
 * timestamp parser, the SHA-256 digest and the clock are parameters.
 * Every exception inside the handler is caught and answered with 500,
 * which is the `InternalError` outcome.
 */
module SensorIngest {
  import opened Wrappers
  import opened JsValue
  import opened SensorSchema
  import opened SensorValidation
  import opened SensorStore

  /** The request body: `request.json()` either throws or yields a JSON value. */
  datatype Body = Unparsable | Parsed(payload: Value)

  /** The responses of the handler; `warnings` is omitted (`None`) when there are none. */
  datatype Outcome =
    | ConfigurationError
    | MissingAuthorization
    | InvalidCredentials
    | InvalidJson
    | ValidationFailed(errors: seq<Issue>, warnings: Option<seq<Issue>>)
    | Duplicate
    | Created(readingId: nat, sensorId: nat, deviceId: string, timestamp: string, warnings: Option<seq<Issue>>)
    | InternalError(error: DbError)

  /** The HTTP status of each response. */
  function StatusCode(o: Outcome): (code: nat)
    ensures code == 500 <==> o.ConfigurationError? || o.InternalError?
    ensures code == 401 <==> o.MissingAuthorization? || o.InvalidCredentials?
    ensures code == 400 <==> o.InvalidJson? || o.ValidationFailed?
  {
    match o
    case ConfigurationError => 500
    case MissingAuthorization => 401
    case InvalidCredentials => 401
    case InvalidJson => 400
    case ValidationFailed(_, _) => 400
    case Duplicate => 200
    case Created(_, _, _, _, _) => 201
    case InternalError(_) => 500
  }

  const BearerPrefix: string := "Bearer "

  /** The header with a leading "Bearer " removed, or the header itself. */
  function Token(header: string): (t: string)
    ensures BearerPrefix <= header ==> header == BearerPrefix + t
    ensures !(BearerPrefix <= header) ==> t == header
  {
    if BearerPrefix <= header then header[|BearerPrefix|..] else header
  }

  /** `warnings.length > 0 ? warnings : undefined` */
  function NonEmpty(ws: seq<Issue>): (r: Option<seq<Issue>>)
    ensures r.Some? <==> ws != []
    ensures r.Some? ==> r.value == ws
  {
    if |ws| > 0 then Some(ws) else None
  }

  /** `IOT_DEVICE_SECRET` is set and non-empty. */
  predicate Configured(secret: Option<string>) {
    secret.Some? && secret.value != ""
  }

  /** The Authorization header is present and non-empty. */
  predicate HeaderPresent(header: Option<string>) {
    header.Some? && header.value != ""
  }

  predicate Authorized(secret: Option<string>, header: Option<string>) {
    Configured(secret) && HeaderPresent(header) && Token(header.value) == secret.value
  }

  /**
   * The name `findOrCreateSite(payload.site)` looks up, when `payload.site`
   * is truthy (`None` otherwise).  Nothing checks its type: a string is
   * the name itself and a number is sent untyped and compared as its text;
   * `true` is sent as `bool`, for which Postgres has no `=` with the text
   * column, so the lookup fails.  Arrays and objects are refused.
   */
  function SiteName(payload: Value, numeral: real -> string): (r: Result<Option<string>, DbError>)
    ensures var site := Get(payload, "site");
      && (r == Ok(None) <==> !Truthy(site))
      && (r.Err? <==> Truthy(site) && !site.Str? && !site.Number?)
      && (site.Str? && Truthy(site) ==> r == Ok(Some(site.s)))
      && (site.Number? && Truthy(site) ==> r == Ok(Some(NumberText(site.n, numeral))))
      && (site == Bool(true) ==> r == Err(OperatorMismatch("site_name")))
  {
    var site := Get(payload, "site");
    if !Truthy(site) then Ok(None)
    else match site
      case Str(s) => Ok(Some(s))
      case Number(n) => Ok(Some(NumberText(n, numeral)))
      case Bool(_) => Err(OperatorMismatch("site_name"))
      case _ => Err(InvalidInput("site_name"))
  }

  /** `payload.metadata?.firmware`, passed on as it is. */
  function Firmware(payload: Value): Value {
    Get(Get(payload, "metadata"), "firmware")
  }

  /** A number with no fractional part, or no number at all. */
  predicate Integral(v: Value) {
    v.Number? ==> v.n == v.n.Floor as real
  }

  /** A validated readings object can always be stored: each field is absent or a finite number. */
  lemma ValidReadingsStorable(rd: Value)
    requires AllInRange(rd, ReadingFields)
    ensures Storable(rd)
  {
    forall f | f in ReadingFields ensures FieldColumn(rd, f).Ok? {
      var j :| 0 <= j < |ReadingFields| && ReadingFields[j] == f;
      assert FieldCheck(rd, ReadingFields[j]).isValid;
    }
  }

  /**
   * A payload that passes validation is stored exactly when its battery
   * and signal (if given) are whole numbers and its error code is not an
   * array or an object.  Validation accepts a fractional battery such as
   * 55.5, which the `integer` column then rejects.
   */
  lemma ValidPayloadInsertable(payload: Value, parse: string -> Option<int>, now: int)
    requires Validate(payload, parse, now).isValid
    ensures var md := Get(payload, "metadata");
      Insertable(Get(payload, "readings"), md) <==>
        && Integral(Get(md, "battery")) && Integral(Get(md, "signal"))
        && TextStorable(Get(md, "error_code"))
  {
    ValidIff(payload, parse, now);
    var rd, md := Get(payload, "readings"), Get(payload, "metadata");
    ValidReadingsStorable(rd);
    ValidMetadataColumns(md, (x: real) => "");
  }

  /**
   * Validated metadata fits the integer and text columns exactly when
   * battery and signal are whole and the error code, which is not
   * validated, is not an array or an object.
   */
  lemma ValidMetadataColumns(md: Value, numeral: real -> string)
    requires Truthy(md) ==> AllInRange(md, MetadataFields)
    ensures
      && IntegerColumn(Get(md, "battery"), "battery_level").Ok?
      && IntegerColumn(Get(md, "signal"), "signal_strength").Ok?
      && TextColumn(Get(md, "error_code"), "error_code", numeral).Ok?
      <==>
        && Integral(Get(md, "battery")) && Integral(Get(md, "signal"))
        && TextStorable(Get(md, "error_code"))
  {
    if Truthy(md) {
      assert FieldCheck(md, MetadataFields[0]).isValid;
      assert FieldCheck(md, MetadataFields[1]).isValid;
    }
  }

  /** Everything the three writes bind can be stored: the site name, the firmware and the reading row. */
  predicate Writable(payload: Value, numeral: real -> string) {
    && SiteName(payload, numeral).Ok? && TextStorable(Firmware(payload))
    && Insertable(Get(payload, "readings"), Get(payload, "metadata"))
  }

  /**
   * The site and sensor writes: the site only for a truthy `payload.site`,
   * then the sensor with that site and the firmware.  The sensor insert
   * cannot violate its foreign key, since the site id was just resolved.
   * Afterwards a truthy firmware is the sensor's stored firmware.
   */
  method ResolveSensor(store: Store, payload: Value, deviceId: string, now: int, numeral: real -> string)
    returns (r: Result<Sensor, DbError>)
    requires store.Valid()
    modifies store
    ensures store.Valid()
    ensures store.health == old(store.health) && store.readings == old(store.readings)
    ensures store.nextReadingId == old(store.nextReadingId)
    ensures r.Ok? <==> SiteName(payload, numeral).Ok? && TextStorable(Firmware(payload))
    ensures SiteName(payload, numeral).Err? ==>
      && r == Err(SiteName(payload, numeral).error)
      && store.sites == old(store.sites) && store.sensors == old(store.sensors)
    ensures SiteName(payload, numeral) == Ok(None) ==> store.sites == old(store.sites)
    ensures SiteName(payload, numeral).Ok? && SiteName(payload, numeral).value.Some? ==>
      SiteIndex(store.sites, SiteName(payload, numeral).value.value).Some?
    ensures r.Err? ==> store.sensors == old(store.sensors)
    ensures r.Ok? ==>
      && SensorIndex(store.sensors, deviceId).Some?
      && store.sensors[SensorIndex(store.sensors, deviceId).value] == r.value
      && SensorExists(store.sensors, r.value.id)
    ensures r.Ok? && Truthy(Firmware(payload)) ==>
      r.value.firmwareVersion == FirmwareColumn(Firmware(payload), numeral).value
    ensures r.Ok? && Truthy(Firmware(payload)) && !Firmware(payload).Str? ==> r.value.updatedAt == now
  {
    var siteName := SiteName(payload, numeral);
    if siteName.Err? {
      return Err(siteName.error);
    }
    var siteId: Option<nat> := None;
    if siteName.value.Some? {
      var id := store.FindOrCreateSite(siteName.value.value, now);
      siteId := Some(id);
    }
    assert siteId.Some? ==> SiteExists(store.sites, siteId.value);
    r := store.FindOrCreateSensor(deviceId, siteId, Firmware(payload), now, numeral);
  }

  /**
   * The reading insert for a resolved sensor: one row carrying the
   * fingerprint, or a 500 that leaves the readings as they were.
   */
  method AppendReading(store: Store, sensor: Sensor, rd: Value, md: Value, instant: int, dataHash: string, now: int,
                       numeral: real -> string)
    returns (r: Result<nat, DbError>)
    requires store.Valid() && SensorExists(store.sensors, sensor.id)
    modifies store
    ensures store.Valid()
    ensures store.sites == old(store.sites) && store.sensors == old(store.sensors) && store.health == old(store.health)
    ensures r.Ok? <==> Insertable(rd, md)
    ensures r.Err? ==> store.readings == old(store.readings)
    ensures r.Ok? ==>
      && r.value == old(store.nextReadingId)
      && store.readings == old(store.readings) +
           [ReadingRow(r.value, sensor.id, instant, rd, md, dataHash, now, numeral).value]
      && HashStored(store.readings, dataHash)
  {
    ghost var before := store.readings;
    ReadingRowInsertable(store.nextReadingId, sensor.id, instant, rd, md, dataHash, now, numeral);
    r := store.InsertSensorReading(sensor.id, instant, rd, md, dataHash, now, numeral);
    if r.Ok? {
      InsertedHashIsStored(before, store.readings[|store.readings| - 1], dataHash);
    }
  }

  /**
   * The writes after the duplicate check: site and sensor, then one
   * reading carrying the fingerprint.  A failed write returns 500; the
   * writes before it stay.
   */
  method WriteReading(store: Store, payload: Value, deviceId: string, timestamp: string, instant: int,
                      dataHash: string, now: int, warnings: Option<seq<Issue>>, numeral: real -> string)
    returns (o: Outcome)
    requires store.Valid()
    modifies store
    ensures store.Valid()
    ensures store.health == old(store.health)
    ensures o.Created? <==> Writable(payload, numeral)
    ensures o.Created? || o.InternalError?
    ensures o.InternalError? ==> store.readings == old(store.readings)
    ensures SiteName(payload, numeral).Err? ==>
      && o == InternalError(SiteName(payload, numeral).error)
      && store.sites == old(store.sites) && store.sensors == old(store.sensors)
    ensures SiteName(payload, numeral) == Ok(None) ==> store.sites == old(store.sites)
    ensures SiteName(payload, numeral).Ok? && SiteName(payload, numeral).value.Some? ==>
      SiteIndex(store.sites, SiteName(payload, numeral).value.value).Some?
    ensures o.Created? ==>
      && o.deviceId == deviceId && o.timestamp == timestamp && o.warnings == warnings
      && o.readingId == old(store.nextReadingId)
      && store.readings == old(store.readings) +
           [ReadingRow(o.readingId, o.sensorId, instant, Get(payload, "readings"), Get(payload, "metadata"),
                       dataHash, now, numeral).value]
      && HashStored(store.readings, dataHash)
      && SensorIndex(store.sensors, deviceId).Some?
      && store.sensors[SensorIndex(store.sensors, deviceId).value].id == o.sensorId
  {
    var sensor := ResolveSensor(store, payload, deviceId, now, numeral);
    if sensor.Err? {
      return InternalError(sensor.error);
    }
    var inserted := AppendReading(store, sensor.value, Get(payload, "readings"), Get(payload, "metadata"),
                                  instant, dataHash, now, numeral);
    if inserted.Err? {
      return InternalError(inserted.error);
    }
    o := Created(inserted.value, sensor.value.id, deviceId, timestamp, warnings);
  }

  /**
   * `POST`: the early exits in the order of the source, then the writes.
   * A rejected request changes no table; a duplicate changes none; an
   * accepted one resolves the site (only for a truthy site), the sensor,
   * and appends exactly one reading carrying the fingerprint.  `numeral`
   * writes the numbers that `NumberText` leaves to JavaScript.
   */
  method Post(store: Store, secret: Option<string>, authHeader: Option<string>, body: Body,
              parse: string -> Option<int>, sha: HashInput -> string, now: int, numeral: real -> string)
    returns (o: Outcome)
    requires store.Valid()
    modifies store
    ensures store.Valid()
    ensures store.health == old(store.health)
    ensures !Configured(secret) ==> o == ConfigurationError
    ensures Configured(secret) && !HeaderPresent(authHeader) ==> o == MissingAuthorization
    ensures Configured(secret) && HeaderPresent(authHeader) && Token(authHeader.value) != secret.value ==>
      o == InvalidCredentials
    ensures Authorized(secret, authHeader) && body.Unparsable? ==> o == InvalidJson
    ensures Authorized(secret, authHeader) && body.Parsed? && Nullish(body.payload) ==>
      o == InternalError(NullDereference("device_id"))
    ensures Authorized(secret, authHeader) && body.Parsed? && !Nullish(body.payload) ==>
      var v := Validate(body.payload, parse, now);
      && (!v.isValid ==> o == ValidationFailed(v.errors, NonEmpty(v.warnings)))
      && (v.isValid && HashStored(old(store.readings), DataHash(body.payload, sha)) ==> o == Duplicate)
      && (v.isValid && !HashStored(old(store.readings), DataHash(body.payload, sha)) ==>
            (o.Created? <==> Writable(body.payload, numeral))
            && (o.Created? || o.InternalError?))
    ensures !o.Created? && !o.InternalError? ==>
      && store.sites == old(store.sites) && store.sensors == old(store.sensors)
      && store.readings == old(store.readings)
    ensures o.InternalError? ==> store.readings == old(store.readings)
    ensures o.Created? ==>
      var p := body.payload;
      && Authorized(secret, authHeader) && body.Parsed? && Validate(p, parse, now).isValid
      && o.deviceId == Get(p, "device_id").s && o.timestamp == Get(p, "timestamp").s
      && o.warnings == NonEmpty(Validate(p, parse, now).warnings)
      && o.readingId == old(store.nextReadingId)
      && store.readings == old(store.readings) +
           [ReadingRow(o.readingId, o.sensorId, parse(o.timestamp).value, Get(p, "readings"), Get(p, "metadata"),
                       DataHash(p, sha), now, numeral).value]
      && HashStored(store.readings, DataHash(p, sha))
      && SensorIndex(store.sensors, o.deviceId).Some?
      && store.sensors[SensorIndex(store.sensors, o.deviceId).value].id == o.sensorId
      && SiteName(p, numeral).Ok?
      && (SiteName(p, numeral).value.Some? ==> SiteIndex(store.sites, SiteName(p, numeral).value.value).Some?)
      && (SiteName(p, numeral).value.None? ==> store.sites == old(store.sites))
  {
    if secret.None? || secret.value == "" {
      return ConfigurationError;
    }
    if authHeader.None? || authHeader.value == "" {
      return MissingAuthorization;
    }
    var token := Token(authHeader.value);
    if token != secret.value {
      return InvalidCredentials;
    }
    if body.Unparsable? {
      return InvalidJson;
    }
    var payload := body.payload;
    if Nullish(payload) {
      // `payload.device_id` throws inside the validator
      return InternalError(NullDereference("device_id"));
    }
    var validation := ValidateSensorReading(payload, parse, now);
    if !validation.isValid {
      return ValidationFailed(validation.errors, NonEmpty(validation.warnings));
    }
    ValidIff(payload, parse, now);
    var deviceId := Get(payload, "device_id").s;
    var timestamp := Get(payload, "timestamp").s;
    var dataHash := DataHash(payload, sha);
    var isDuplicate := store.CheckDuplicateReading(dataHash);
    if isDuplicate {
      return Duplicate;
    }

    o := WriteReading(store, payload, deviceId, timestamp, parse(timestamp).value, dataHash, now,
                      NonEmpty(validation.warnings), numeral);
  }

  /**
   * The same request sent twice in a row stores one reading: once the
   * first is created, the second finds its fingerprint and is answered
   * as a duplicate without writing.
   */
  method PostTwice(store: Store, secret: Option<string>, authHeader: Option<string>, body: Body,
                   parse: string -> Option<int>, sha: HashInput -> string, now: int, numeral: real -> string)
    returns (first: Outcome, second: Outcome)
    requires store.Valid()
    modifies store
    ensures store.Valid()
    ensures first.Created? ==> second == Duplicate && |store.readings| == |old(store.readings)| + 1
  {
    first := Post(store, secret, authHeader, body, parse, sha, now, numeral);
    second := Post(store, secret, authHeader, body, parse, sha, now, numeral);
  }
}
