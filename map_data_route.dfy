/**
 * `GET /api/map-data` (`frontend/app/api/map-data/route.ts`): the latest
 * reading per device from the external readings database, mapped to map
 * records.  The two SQL queries run against that database, so their
 * results are inputs here; the `ts` column is kept as milliseconds rather
 * than rendered with `toISOString`.
 *
 * The `siteCoordinates` lookup indexes an object literal, so a site named
 * after a property of `Object.prototype` finds an inherited value rather
 * than falling back to the default point.
 */
module MapDataRoute {
  import opened Wrappers
  import opened JsValue
  import opened SeqUtils
  import MapSensors

  /** A row of the `readings` query; `device_id` as the JSON value the driver yields. */
  datatype ReadingRow = ReadingRow(id: int, deviceId: Value, ts: int, data: Value)

  /** A query's outcome: its rows, or a thrown error (an unreachable database). */
  datatype Query = Rows(rows: seq<ReadingRow>) | Unavailable

  /** The eleven numeric parameters of a map record. */
  datatype Parameters = Parameters(
    pm1: real, pm25: real, pm10: real, co2: real, voc: real, temp: real,
    hum: real, ch2o: real, co: real, o3: real, no2: real)

  /**
   * What `siteCoordinates[site] || '43.2220,76.8512'` yields: a string, an
   * inherited method of `Object.prototype`, or (for "__proto__")
   * `Object.prototype` itself.
   */
  datatype Location = Coordinates(text: string) | InheritedMethod(name: string) | Prototype

  datatype MapReading = MapReading(
    location: Location,
    value: real,
    timestamp: int,
    sensorId: Value,
    site: Option<string>,
    parameters: Parameters)

  /** The JSON body; `success` is true on every path. */
  datatype Response = Response(success: bool, data: seq<MapReading>, count: nat)

  const DefaultLocation: string := "43.2220,76.8512"

  /** The `siteCoordinates` table. */
  const SiteCoordinates: map<string, string> := map[
    "AGI_Lab" := "43.2220,76.8512",
    "Almaty" := "43.2220,76.8512",
    "Алматы" := "43.2220,76.8512"
  ]

  /**
   * The rows the route works on: the last-hour rows, or the per-device
   * fallback only when there are none; `None` when a query throws.
   */
  function ChooseRows(lastHour: Query, fallback: Query): (r: Option<seq<ReadingRow>>)
    ensures lastHour.Rows? && lastHour.rows != [] ==> r == Some(lastHour.rows)
    ensures lastHour.Rows? && lastHour.rows == [] ==> r == (if fallback.Rows? then Some(fallback.rows) else None)
    ensures lastHour.Unavailable? ==> r.None?
  {
    match lastHour
    case Unavailable => None
    case Rows(rows) =>
      if rows != [] then Some(rows)
      else if fallback.Rows? then Some(fallback.rows) else None
  }

  function DeviceKey(r: ReadingRow): Value {
    r.deviceId
  }

  /** `num`: a number is kept, anything else becomes 0. */
  function Num(v: Value): (x: real)
    ensures v.Number? ==> x == v.n
    ensures !v.Number? ==> x == 0.0
  {
    if v.Number? then v.n else 0.0
  }

  /** `typeof data.site === 'string' ? data.site : ''` */
  function SiteOf(data: Value): (s: string)
    ensures Get(data, "site").Str? ==> s == Get(data, "site").s
    ensures !Get(data, "site").Str? ==> s == ""
  {
    if Get(data, "site").Str? then Get(data, "site").s else ""
  }

  /** The function-valued properties every object literal inherits from `Object.prototype`. */
  const PrototypeMethods: set<string> := {
    "constructor", "hasOwnProperty", "isPrototypeOf", "propertyIsEnumerable",
    "toLocaleString", "toString", "valueOf",
    "__defineGetter__", "__defineSetter__", "__lookupGetter__", "__lookupSetter__"
  }

  /** A name the `siteCoordinates` literal answers through its prototype. */
  predicate InheritedKey(site: string) {
    site in PrototypeMethods || site == "__proto__"
  }

  /**
   * `siteCoordinates[site] || '43.2220,76.8512'`: an own key gives its
   * coordinates, an inherited key its inherited value (truthy, so `||`
   * keeps it), and any other name the default point.
   */
  function LocationOf(site: string): Location {
    if site in SiteCoordinates && SiteCoordinates[site] != "" then Coordinates(SiteCoordinates[site])
    else if site == "__proto__" then Prototype
    else if site in PrototypeMethods then InheritedMethod(site)
    else Coordinates(DefaultLocation)
  }

  /**
   * Every site, known or not, is placed at the same point, except the
   * names `Object.prototype` answers, which get no coordinates at all.
   */
  lemma LocationIsAlwaysDefault(site: string)
    ensures LocationOf(site) == Coordinates(DefaultLocation) <==> !InheritedKey(site)
    ensures LocationOf(site).Coordinates? ==> LocationOf(site).text == DefaultLocation
    ensures site == "__proto__" ==> LocationOf(site) == Prototype
    ensures site in PrototypeMethods ==> LocationOf(site) == InheritedMethod(site)
  {
  }

  /** `location` in the JSON body: a function is left out, `Object.prototype` has no own properties. */
  function LocationJson(l: Location): (v: Value)
    ensures v.Str? <==> l.Coordinates?
    ensures l.Coordinates? ==> v == Str(l.text)
  {
    match l
    case Coordinates(t) => Str(t)
    case InheritedMethod(_) => Undefined
    case Prototype => Obj(map[])
  }

  /** `num(data.pm25) || num(data.pm2_5)` */
  function Pm25Of(data: Value): (x: real)
    ensures Num(Get(data, "pm25")) != 0.0 ==> x == Num(Get(data, "pm25"))
    ensures Num(Get(data, "pm25")) == 0.0 ==> x == Num(Get(data, "pm2_5"))
  {
    var pm25 := Num(Get(data, "pm25"));
    if pm25 != 0.0 then pm25 else Num(Get(data, "pm2_5"))
  }

  /** The per-row mapping of `readings.map(...)`. */
  function ToMapReading(row: ReadingRow): (m: MapReading)
    ensures var data := Or(row.data, Obj(map[]));
      && m.location == LocationOf(SiteOf(data))
      && (!InheritedKey(SiteOf(data)) ==> m.location == Coordinates(DefaultLocation))
      && m.value == m.parameters.pm25 == Pm25Of(data)
      && m.timestamp == row.ts
      && m.sensorId == Or(row.deviceId, Str("unknown"))
      && (m.site.None? <==> SiteOf(data) == "")
      && (m.site.Some? ==> m.site.value == SiteOf(data))
      && m.parameters.pm1 == Num(Get(data, "pm1")) && m.parameters.pm10 == Num(Get(data, "pm10"))
      && m.parameters.co2 == Num(Get(data, "co2")) && m.parameters.voc == Num(Get(data, "voc"))
      && m.parameters.temp == Num(Get(data, "temp")) && m.parameters.hum == Num(Get(data, "hum"))
      && m.parameters.ch2o == Num(Get(data, "ch2o")) && m.parameters.co == Num(Get(data, "co"))
      && m.parameters.o3 == Num(Get(data, "o3")) && m.parameters.no2 == Num(Get(data, "no2"))
  {
    var data := Or(row.data, Obj(map[]));
    var site := SiteOf(data);
    var pm25 := Pm25Of(data);
    MapReading(
      LocationOf(site),
      pm25,
      row.ts,
      Or(row.deviceId, Str("unknown")),
      if site == "" then None else Some(site),
      Parameters(
        Num(Get(data, "pm1")), pm25, Num(Get(data, "pm10")), Num(Get(data, "co2")),
        Num(Get(data, "voc")), Num(Get(data, "temp")), Num(Get(data, "hum")),
        Num(Get(data, "ch2o")), Num(Get(data, "co")), Num(Get(data, "o3")), Num(Get(data, "no2"))))
  }

  /** The parameters object of a record. */
  function ParametersJson(p: Parameters): Value {
    Obj(map[
      "pm1" := Number(p.pm1), "pm25" := Number(p.pm25), "pm10" := Number(p.pm10), "co2" := Number(p.co2),
      "voc" := Number(p.voc), "temp" := Number(p.temp), "hum" := Number(p.hum), "ch2o" := Number(p.ch2o),
      "co" := Number(p.co), "o3" := Number(p.o3), "no2" := Number(p.no2)])
  }

  /**
   * A record as `NextResponse.json` serialises it: `site: undefined` and a
   * function-valued `location` are left out.
   */
  function RecordJson(m: MapReading): (v: Value)
    ensures v.Obj?
    ensures Get(v, "location") == LocationJson(m.location)
    ensures Get(v, "sensorId") == m.sensorId && Get(v, "value") == Number(m.value)
    ensures Get(v, "site") == (if m.site.Some? then Str(m.site.value) else Undefined)
  {
    var fields := map[
      "value" := Number(m.value), "timestamp" := Number(m.timestamp as real),
      "sensorId" := m.sensorId, "parameters" := ParametersJson(m.parameters)];
    var withSite := if m.site.Some? then fields["site" := Str(m.site.value)] else fields;
    if m.location.InheritedMethod? then Obj(withSite)
    else Obj(withSite["location" := LocationJson(m.location)])
  }

  /**
   * On the map, a record whose site is an inherited key is lost: an
   * inherited method leaves `location` out, so the marker is skipped, and
   * "__proto__" serialises `location` as `{}`, which is truthy and not a
   * string, so the conversion throws.
   */
  lemma InheritedSitesLoseMarkers(row: ReadingRow, i: nat, parse: string -> JsNumber)
    ensures var site := SiteOf(Or(row.data, Obj(map[])));
      var c := MapSensors.MapDataItem(RecordJson(ToMapReading(row)), i, parse);
      && (c == MapSensors.TypeError <==> site == "__proto__")
      && (site in PrototypeMethods ==> c == MapSensors.Dropped)
  {
    var site := SiteOf(Or(row.data, Obj(map[])));
    var m := ToMapReading(row);
    LocationIsAlwaysDefault(site);
    LocationLosesMarker(m.location, RecordJson(m), i, parse);
  }

  /** How the hook treats each kind of `location`: a string is converted or skipped, a function skipped, `{}` throws. */
  lemma LocationLosesMarker(l: Location, item: Value, i: nat, parse: string -> JsNumber)
    requires Get(item, "location") == LocationJson(l)
    ensures MapSensors.MapDataItem(item, i, parse) == MapSensors.TypeError <==> l.Prototype?
    ensures l.InheritedMethod? ==> MapSensors.MapDataItem(item, i, parse) == MapSensors.Dropped
  {
  }

  /** One row whose site is "__proto__" makes the whole map-data list fail in the hook. */
  lemma ProtoSiteAbortsMapData(rows: seq<ReadingRow>, k: nat, parse: string -> JsNumber)
    requires k < |rows| && SiteOf(Or(rows[k].data, Obj(map[]))) == "__proto__"
    ensures MapSensors.MapDataMarkers(ResponseItems(rows), parse).None?
  {
    InheritedSitesLoseMarkers(rows[k], k, parse);
    MapSensors.ThrowingItemAborts(ResponseItems(rows), k, parse);
  }

  /** The `data` array of the JSON body for given rows. */
  function ResponseItems(rows: seq<ReadingRow>): (items: seq<Value>)
    ensures |items| == |rows|
    ensures forall k :: 0 <= k < |rows| ==> items[k] == RecordJson(ToMapReading(rows[k]))
  {
    seq(|rows|, k requires 0 <= k < |rows| => RecordJson(ToMapReading(rows[k])))
  }

  /** The response for given rows: one record per row, and the count. */
  function ResponseFor(rows: seq<ReadingRow>): (r: Response)
    ensures r.success && r.count == |r.data| == |rows|
    ensures forall k :: 0 <= k < |rows| ==> r.data[k] == ToMapReading(rows[k])
  {
    var data := seq(|rows|, k requires 0 <= k < |rows| => ToMapReading(rows[k]));
    Response(true, data, |data|)
  }

  /**
   * `GET`: the chosen rows, deduplicated by `device_id` keeping the first
   * row per device (the `latestByDevice` loop), then mapped.  A failing
   * query gives a successful empty response rather than an error.
   */
  method HandleGet(lastHour: Query, fallback: Query) returns (r: Response)
    ensures ChooseRows(lastHour, fallback).None? ==> r == Response(true, [], 0)
    ensures ChooseRows(lastHour, fallback).Some? ==> r == ResponseFor(FirstByKey(ChooseRows(lastHour, fallback).value, DeviceKey))
    ensures r.success && r.count == |r.data|
  {
    var rows := ChooseRows(lastHour, fallback);
    if rows.None? {
      return Response(true, [], 0);
    }
    var readings := DedupFirst(rows.value, DeviceKey);
    r := ResponseFor(readings);
  }

  /**
   * The records name distinct devices, every device of the chosen rows has
   * one, each record is built from its device's FIRST chosen row (on the
   * `ts DESC` rows: its latest), and records follow the order in which the
   * devices first occur.
   */
  lemma OneRecordPerDevice(rows: seq<ReadingRow>)
    ensures var kept := FirstByKey(rows, DeviceKey);
      var r := ResponseFor(kept);
      && |r.data| <= |rows|
      && (forall i, j :: 0 <= i < j < |r.data| ==> kept[i].deviceId != kept[j].deviceId)
      && (forall k :: 0 <= k < |rows| ==> HasKey(kept, DeviceKey, rows[k].deviceId))
      && (forall j :: 0 <= j < |r.data| ==>
            HasKey(rows, DeviceKey, kept[j].deviceId) &&
            r.data[j] == ToMapReading(rows[FirstPos(rows, DeviceKey, kept[j].deviceId)]))
      && (forall j1, j2 :: 0 <= j1 < j2 < |r.data| ==>
            HasKey(rows, DeviceKey, kept[j1].deviceId) && HasKey(rows, DeviceKey, kept[j2].deviceId) &&
            FirstPos(rows, DeviceKey, kept[j1].deviceId) < FirstPos(rows, DeviceKey, kept[j2].deviceId))
  {
    FirstByKeyProperties(rows, DeviceKey);
    FirstByKeyKeepsFirst(rows, DeviceKey);
  }

  /** The fallback query is consulted only when the last hour has no rows. */
  lemma FallbackOnlyWhenNoFreshRows(lastHour: seq<ReadingRow>, fallback: Query)
    requires lastHour != []
    ensures ChooseRows(Rows(lastHour), fallback) == Some(lastHour)
  {
  }
}
