/**
 * The map's sensor list (`frontend/hooks/useSensorsOnMap.ts`,
 * `frontend/hooks/useUserSensors.ts`): the per-source normalisers that turn
 * raw JSON records into map markers, dropping records without numeric
 * coordinates, and the assembly of one refetch cycle's list.
 *
 * `parseFloat(v.trim())` is a parameter (`parse`); a marker's `id` is kept
 * as the parts of its template string rather than the rendered text.
 */
module MapSensors {
  import opened Wrappers
  import opened JsValue
  import opened SeqUtils

  /** The template a marker id is rendered from. */
  datatype MarkerId =
    | AirQualityId(city: Value, state: Value, index: nat)   // `aq-${city}-${state}-${index}`
    | PurchasedId(key: Value)                               // `sensor-${id ?? index}`
    | MapDataId(key: Value)                                 // `map-data-${sensorId || i}`

  /** The `MapSensor` record; an absent optional field is `Undefined`. */
  datatype MapSensor = MapSensor(
    id: MarkerId,
    lat: JsNumber,
    lng: JsNumber,
    aqi: Value,
    isPurchased: bool,
    name: Value,
    city: Value,
    state: Value,
    country: Value,
    description: Value,
    parameters: Value,
    timestamp: Value,
    airQualityData: Value)

  const StationName: string := "Станция"
  const PurchasedName: string := "Платный датчик"

  /** The outcome of converting one raw air-quality record. */
  datatype Conversion = Dropped | Converted(sensor: MapSensor) | TypeError

  /**
   * `airQualityToMapSensor`: coordinates are read as `[lon, lat]` from
   * `location.coordinates`; a falsy or shorter-than-two value drops the
   * record, a longer string yields characters (not numbers) and drops it,
   * and destructuring any other truthy value (a number, `true`, an object)
   * throws.
   */
  function AirQualityToMapSensor(data: Value, index: nat): (c: Conversion)
    ensures c.Converted? ==>
      var coords := Get(Get(data, "location"), "coordinates");
      && coords.Arr? && |coords.items| >= 2
      && coords.items[1].Number? && coords.items[0].Number?
      && c.sensor.lat == Finite(coords.items[1].n) && c.sensor.lng == Finite(coords.items[0].n)
      && !c.sensor.isPurchased
      && c.sensor.aqi == Coalesce(Get(Get(Get(data, "current"), "pollution"), "aqius"), Number(0.0))
    ensures
      var coords := Get(Get(data, "location"), "coordinates");
      coords.Arr? && |coords.items| >= 2 && coords.items[0].Number? && coords.items[1].Number? ==>
        && c.Converted?
        && c.sensor.id == AirQualityId(Get(data, "city"), Get(data, "state"), index)
        && c.sensor.name == Coalesce(Get(Get(data, "sensor_data"), "site"), Coalesce(Get(data, "city"), Str(StationName)))
        && c.sensor.city == Get(data, "city") && c.sensor.country == Get(data, "country")
        && c.sensor.airQualityData == data
    ensures (Get(Get(data, "location"), "coordinates").Arr? && |Get(Get(data, "location"), "coordinates").items| < 2)
      ==> c == Dropped
    ensures !Truthy(Get(Get(data, "location"), "coordinates")) ==> c == Dropped
  {
    var coords := Get(Get(data, "location"), "coordinates");
    match coords
    case Arr(items) =>
      if |items| < 2 then Dropped
      else
        var lon, lat := items[0], items[1];
        if !lat.Number? || !lon.Number? then Dropped
        else Converted(MapSensor(
          AirQualityId(Get(data, "city"), Get(data, "state"), index),
          Finite(lat.n), Finite(lon.n),
          Coalesce(Get(Get(Get(data, "current"), "pollution"), "aqius"), Number(0.0)),
          false,
          Coalesce(Get(Get(data, "sensor_data"), "site"), Coalesce(Get(data, "city"), Str(StationName))),
          Get(data, "city"), Get(data, "state"), Get(data, "country"),
          Undefined, Undefined, Undefined, data))
    case Str(_) => Dropped
    case _ => if Truthy(coords) then TypeError else Dropped
  }

  /**
   * The coordinates shared by the two purchased-sensor normalisers:
   * top-level `lat`/`lng`, else `location.coordinates[1]`/`[0]`; both must
   * be numbers.
   */
  function PurchasedCoordinates(s: Value): (r: Option<(real, real)>)
    ensures r.Some? <==>
      Coalesce(Get(s, "lat"), At(Get(Get(s, "location"), "coordinates"), 1)).Number? &&
      Coalesce(Get(s, "lng"), At(Get(Get(s, "location"), "coordinates"), 0)).Number?
    ensures Get(s, "lat").Number? && Get(s, "lng").Number? ==> r == Some((Get(s, "lat").n, Get(s, "lng").n))
    ensures Nullish(Get(s, "lat")) && Nullish(Get(s, "lng")) && Get(Get(s, "location"), "coordinates").Arr? ==>
      var items := Get(Get(s, "location"), "coordinates").items;
      r.Some? <==> |items| >= 2 && items[1].Number? && items[0].Number?
  {
    var coords := Get(Get(s, "location"), "coordinates");
    var lat := Coalesce(Get(s, "lat"), At(coords, 1));
    var lng := Coalesce(Get(s, "lng"), At(coords, 0));
    if lat.Number? && lng.Number? then Some((lat.n, lng.n)) else None
  }

  /** `purchasedSensorToMapSensor` */
  function PurchasedSensorToMapSensor(s: Value, index: nat): (r: Option<MapSensor>)
    ensures r.Some? <==> PurchasedCoordinates(s).Some?
    ensures r.Some? ==>
      && r.value.isPurchased
      && r.value.lat == Finite(PurchasedCoordinates(s).value.0)
      && r.value.lng == Finite(PurchasedCoordinates(s).value.1)
      && r.value.id == PurchasedId(Coalesce(Get(s, "id"), Number(index as real)))
      && r.value.aqi == Coalesce(Get(s, "aqi"), Number(0.0))
      && r.value.name == Coalesce(Get(s, "name"), Str(PurchasedName))
      && r.value.parameters == Coalesce(Get(s, "parameters"), Obj(map[]))
  {
    match PurchasedCoordinates(s)
    case None => None
    case Some((lat, lng)) =>
      Some(MapSensor(
        PurchasedId(Coalesce(Get(s, "id"), Number(index as real))),
        Finite(lat), Finite(lng),
        Coalesce(Get(s, "aqi"), Number(0.0)),
        true,
        Coalesce(Get(s, "name"), Str(PurchasedName)),
        Get(s, "city"), Undefined, Get(s, "country"), Get(s, "description"),
        Coalesce(Get(s, "parameters"), Obj(map[])),
        Undefined, Undefined))
  }

  /** `toMapSensor` of the user-sensor hook: as above, except that `name` has no default. */
  function ToMapSensor(s: Value, index: nat): (r: Option<MapSensor>)
    ensures r.Some? <==> PurchasedCoordinates(s).Some?
    ensures r.Some? ==>
      && r.value.isPurchased
      && r.value.lat.Finite? && r.value.lng.Finite?
      && r.value.aqi == Coalesce(Get(s, "aqi"), Number(0.0))
      && r.value.name == Get(s, "name")
      && r.value.parameters == Coalesce(Get(s, "parameters"), Obj(map[]))
  {
    match PurchasedCoordinates(s)
    case None => None
    case Some((lat, lng)) =>
      Some(MapSensor(
        PurchasedId(Coalesce(Get(s, "id"), Number(index as real))),
        Finite(lat), Finite(lng),
        Coalesce(Get(s, "aqi"), Number(0.0)),
        true,
        Get(s, "name"),
        Get(s, "city"), Undefined, Get(s, "country"), Get(s, "description"),
        Coalesce(Get(s, "parameters"), Obj(map[])),
        Undefined, Undefined))
  }

  /** The two purchased normalisers agree on everything but the default name. */
  lemma PurchasedNormalisersAgree(s: Value, index: nat)
    ensures PurchasedSensorToMapSensor(s, index).Some? <==> ToMapSensor(s, index).Some?
    ensures ToMapSensor(s, index).Some? && !Nullish(Get(s, "name")) ==>
      PurchasedSensorToMapSensor(s, index) == ToMapSensor(s, index)
  {
  }

  /** `list.map((s, i) => convert(s, i))` before the null filter. */
  function PurchasedConversions(list: seq<Value>): (r: seq<Option<MapSensor>>)
    ensures |r| == |list|
    ensures forall i :: 0 <= i < |r| ==> r[i] == PurchasedSensorToMapSensor(list[i], i)
  {
    seq(|list|, i requires 0 <= i < |list| => PurchasedSensorToMapSensor(list[i], i))
  }

  function UserConversions(list: seq<Value>): (r: seq<Option<MapSensor>>)
    ensures |r| == |list|
    ensures forall i :: 0 <= i < |r| ==> r[i] == ToMapSensor(list[i], i)
  {
    seq(|list|, i requires 0 <= i < |list| => ToMapSensor(list[i], i))
  }

  /** Every marker produced from purchased records is purchased and has finite coordinates. */
  lemma {:induction false} PurchasedMarkersWellFormed(list: seq<Value>)
    ensures var r := KeepSome(PurchasedConversions(list));
      |r| <= |list| && forall i :: 0 <= i < |r| ==> r[i].isPurchased && r[i].lat.Finite? && r[i].lng.Finite?
  {
    var xs := PurchasedConversions(list);
    var r := KeepSome(xs);
    forall i | 0 <= i < |r| ensures r[i].isPurchased && r[i].lat.Finite? && r[i].lng.Finite? {
      var j :| 0 <= j < |xs| && xs[j] == Some(r[i]);
    }
  }

  /** The user hook's list keeps exactly the records with numeric coordinates, in order. */
  lemma {:induction false} UserMarkersWellFormed(list: seq<Value>)
    ensures var r := KeepSome(UserConversions(list));
      && |r| <= |list|
      && (forall i :: 0 <= i < |r| ==> r[i].isPurchased && r[i].lat.Finite? && r[i].lng.Finite?)
      && ((forall i :: 0 <= i < |list| ==> PurchasedCoordinates(list[i]).Some?) ==> |r| == |list|)
  {
    var xs := UserConversions(list);
    var r := KeepSome(xs);
    forall i | 0 <= i < |r| ensures r[i].isPurchased && r[i].lat.Finite? && r[i].lng.Finite? {
      var j :| 0 <= j < |xs| && xs[j] == Some(r[i]);
    }
  }

  // ---------------------------------------------------------------------
  // /api/map-data items
  // ---------------------------------------------------------------------

  /** `s.split(sep)`: the pieces between separators; always at least one. */
  function Split(s: string, sep: char): (r: seq<string>)
    ensures |r| >= 1
    ensures forall i :: 0 <= i < |r| ==> sep !in r[i]
    decreases |s|
  {
    if s == [] then [""]
    else
      var rest := Split(s[1..], sep);
      if s[0] == sep then [""] + rest
      else [[s[0]] + rest[0]] + rest[1..]
  }

  /** The pieces joined back with the separator. */
  function Join(parts: seq<string>, sep: char): string
    requires |parts| >= 1
    decreases |parts|
  {
    if |parts| == 1 then parts[0] else parts[0] + [sep] + Join(parts[1..], sep)
  }

  /** Splitting loses nothing: joining the pieces gives the string back. */
  lemma {:induction false} SplitJoin(s: string, sep: char)
    ensures Join(Split(s, sep), sep) == s
    decreases |s|
  {
    if s != [] {
      var rest := Split(s[1..], sep);
      SplitJoin(s[1..], sep);
      if s[0] == sep {
        assert ([""] + rest)[1..] == rest;
        assert s == [s[0]] + s[1..];
      } else {
        var parts := [[s[0]] + rest[0]] + rest[1..];
        if |rest| == 1 {
          assert Join(parts, sep) == [s[0]] + rest[0];
        } else {
          assert parts[1..] == rest[1..];
          assert Join(rest, sep) == rest[0] + [sep] + Join(rest[1..], sep);
        }
        assert s == [s[0]] + s[1..];
      }
    }
  }

  /** The eleven parameter names of a map-data marker. */
  const ParameterNames: seq<string> := ["pm1", "pm25", "pm10", "co2", "voc", "temp", "hum", "ch2o", "co", "o3", "no2"]

  /** `params.<name> ?? 0`, with pm25 falling back to the item's value first. */
  function MarkerParameter(params: Value, item: Value, name: string): Value {
    if name == "pm25" then Coalesce(Get(params, "pm25"), Coalesce(Get(item, "value"), Number(0.0)))
    else Coalesce(Get(params, name), Number(0.0))
  }

  function MarkerParameters(params: Value, item: Value): (r: Value)
    ensures r.Obj? && r.fields.Keys == set n | n in ParameterNames
    ensures forall n :: n in ParameterNames ==> r.fields[n] == MarkerParameter(params, item, n)
  {
    Obj(map n | n in ParameterNames :: MarkerParameter(params, item, n))
  }

  /**
   * One item of `/api/map-data` inside the `forEach`: kept when its
   * `location` splits on ',' into two pieces that parse to non-NaN numbers;
   * a truthy non-string location makes `.split` throw.
   */
  function MapDataItem(item: Value, i: nat, parse: string -> JsNumber): (c: Conversion)
    ensures c.Converted? ==>
      && Get(item, "location").Str?
      && var pieces := Split(Get(item, "location").s, ',');
      && |pieces| >= 2
      && c.sensor.lat == parse(pieces[0]) && c.sensor.lng == parse(pieces[1])
      && !c.sensor.lat.NaN? && !c.sensor.lng.NaN?
      && !c.sensor.isPurchased
      && c.sensor.aqi == Or(Get(item, "value"), Number(0.0))
      && c.sensor.parameters.Obj?
    ensures c == TypeError <==> Truthy(Get(item, "location")) && !Get(item, "location").Str?
  {
    var loc := Get(item, "location");
    if !Truthy(loc) then Dropped
    else if !loc.Str? then TypeError
    else
      var pieces := Split(loc.s, ',');
      if |pieces| < 2 || parse(pieces[0]).NaN? || parse(pieces[1]).NaN? then Dropped
      else
        var params := Or(Get(item, "parameters"), Obj(map[]));
        Converted(MapSensor(
          MapDataId(Or(Get(item, "sensorId"), Number(i as real))),
          parse(pieces[0]), parse(pieces[1]),
          Or(Get(item, "value"), Number(0.0)),
          false,
          Or(Get(item, "site"), Or(Get(item, "sensorId"), Str("Sensor"))),
          Str("Almaty"), Undefined, Str("KZ"), Undefined,
          MarkerParameters(params, item),
          Get(item, "timestamp"), Undefined))
  }

  /**
   * The markers of the map-data items, in item order, or `None` when an
   * item throws (which aborts the whole cycle).
   */
  function MapDataMarkers(items: seq<Value>, parse: string -> JsNumber): (r: Option<seq<MapSensor>>)
    ensures r.Some? ==> |r.value| <= |items|
    decreases |items|
  {
    if items == [] then Some([])
    else
      var n := |items| - 1;
      match MapDataMarkers(items[..n], parse)
      case None => None
      case Some(prev) =>
        match MapDataItem(items[n], n, parse)
        case TypeError => None
        case Dropped => Some(prev)
        case Converted(s) => Some(prev + [s])
  }

  /** Every kept map-data marker has two non-NaN coordinates and is not purchased. */
  lemma {:induction false} MapDataMarkersWellFormed(items: seq<Value>, parse: string -> JsNumber)
    ensures var r := MapDataMarkers(items, parse);
      r.Some? ==> forall k :: 0 <= k < |r.value| ==> !r.value[k].lat.NaN? && !r.value[k].lng.NaN? && !r.value[k].isPurchased
    decreases |items|
  {
    if items != [] {
      MapDataMarkersWellFormed(items[..|items| - 1], parse);
    }
  }

  /** A single throwing item aborts the conversion, whatever the other items are. */
  lemma {:induction false} ThrowingItemAborts(items: seq<Value>, k: nat, parse: string -> JsNumber)
    requires k < |items| && MapDataItem(items[k], k, parse) == TypeError
    ensures MapDataMarkers(items, parse) == None
    decreases |items|
  {
    var n := |items| - 1;
    if k < n {
      assert items[..n][k] == items[k];
      ThrowingItemAborts(items[..n], k, parse);
    }
  }

  /**
   * The `forEach` that pushes each converted item onto `mapDataSensors`;
   * returns `None` when an item throws.
   */
  method CollectMapData(items: seq<Value>, parse: string -> JsNumber) returns (r: Option<seq<MapSensor>>)
    ensures r == MapDataMarkers(items, parse)
  {
    var pushed: seq<MapSensor> := [];
    var i := 0;
    while i < |items|
      invariant 0 <= i <= |items|
      invariant MapDataMarkers(items[..i], parse) == Some(pushed)
    {
      assert items[..i + 1][..i] == items[..i];
      match MapDataItem(items[i], i, parse) {
        case TypeError =>
          ThrowingItemAborts(items, i, parse);
          return None;
        case Dropped =>
        case Converted(s) =>
          pushed := pushed + [s];
      }
      i := i + 1;
    }
    assert items[..|items|] == items;
    r := Some(pushed);
  }

  // ---------------------------------------------------------------------
  // One refetch cycle
  // ---------------------------------------------------------------------

  /** What a request yielded: a failure (network, HTTP or JSON error), or a parsed body. */
  datatype Response = Unreachable | Answered(body: Value)

  /** The `/api/map-data` branch: its `data` array when `success` is truthy, otherwise empty. */
  function MapDataList(r: Response): (items: seq<Value>)
    ensures r.Unreachable? ==> items == []
    ensures r.Answered? && Truthy(Get(r.body, "success")) && Get(r.body, "data").Arr? ==> items == Get(r.body, "data").items
  {
    match r
    case Unreachable => []
    case Answered(body) =>
      if Truthy(Get(body, "success")) && Get(body, "data").Arr? then Get(body, "data").items else []
  }

  /** `Array.isArray(raw) ? raw : []`, with a failed request already caught as `[]`. */
  function ArrayOrEmpty(r: Response): (items: seq<Value>)
    ensures r.Answered? && r.body.Arr? ==> items == r.body.items
    ensures !(r.Answered? && r.body.Arr?) ==> items == []
  {
    if r.Answered? && r.body.Arr? then r.body.items else []
  }

  /** The result of a refetch cycle: the new list, or the message of the error thrown. */
  datatype Cycle = Loaded(sensors: seq<MapSensor>) | Failed(message: string)

  /**
   * The body of `useSensorsOnMap`'s `refetch`: each source's failure is
   * caught separately and contributes nothing; the list is the purchased
   * markers followed by the map-data markers, with no dedup across them.
   */
  method LoadMapSensors(mapData: Response, purchased: Response, parse: string -> JsNumber, typeErrorMessage: string)
    returns (c: Cycle)
    ensures var own := KeepSome(PurchasedConversions(ArrayOrEmpty(purchased)));
      match MapDataMarkers(MapDataList(mapData), parse)
      case None => c == Failed(typeErrorMessage)
      case Some(fromMapData) => c == Loaded(own + fromMapData)
  {
    var fromMapData := CollectMapData(MapDataList(mapData), parse);
    var own := KeepSome(PurchasedConversions(ArrayOrEmpty(purchased)));
    if fromMapData.None? {
      return Failed(typeErrorMessage);
    }
    c := Loaded(own + fromMapData.value);
  }

  /** A failed source never fails the cycle: the other source's markers are still shown. */
  lemma UnreachableSourcesContributeNothing(purchased: Response, parse: string -> JsNumber)
    ensures MapDataMarkers(MapDataList(Unreachable), parse) == Some([])
    ensures KeepSome(PurchasedConversions(ArrayOrEmpty(Unreachable))) == []
  {
  }

  /** The merged list is as long as the two lists together, purchased markers first. */
  lemma MergedListShape(own: seq<MapSensor>, fromMapData: seq<MapSensor>)
    requires forall k :: 0 <= k < |own| ==> own[k].isPurchased
    requires forall k :: 0 <= k < |fromMapData| ==> !fromMapData[k].isPurchased
    ensures var merged := own + fromMapData;
      && |merged| == |own| + |fromMapData|
      && forall k :: 0 <= k < |merged| ==> (merged[k].isPurchased <==> k < |own|)
  {
  }

  /**
   * The body of `useUserSensors`'s `refetch` once a user is known: the
   * request's rejection message (or the default), or the converted list.
   */
  function LoadUserSensors(fetched: Result<Value, Option<string>>): (c: Cycle)
    ensures fetched.Err? ==> c == Failed(if fetched.error.Some? then fetched.error.value else DefaultFailure)
    ensures fetched.Ok? ==> c == Loaded(KeepSome(UserConversions(ArrayOrEmpty(Answered(fetched.value)))))
    ensures fetched.Ok? ==> var items := ArrayOrEmpty(Answered(fetched.value));
      && c.Loaded?
      && |c.sensors| <= |items|
      && (forall k :: 0 <= k < |c.sensors| ==>
            c.sensors[k].isPurchased && c.sensors[k].lat.Finite? && c.sensors[k].lng.Finite?)
      && (forall k :: 0 <= k < |c.sensors| ==>
            exists i :: 0 <= i < |items| && ToMapSensor(items[i], i) == Some(c.sensors[k]))
      && (forall i :: 0 <= i < |items| && PurchasedCoordinates(items[i]).Some? ==>
            ToMapSensor(items[i], i).value in c.sensors)
  {
    match fetched
    case Err(message) => Failed(if message.Some? then message.value else DefaultFailure)
    case Ok(raw) => Loaded(KeepSome(UserConversions(ArrayOrEmpty(Answered(raw)))))
  }

  /** `e?.message ?? 'Failed to load sensors'` when the error has no message. */
  const DefaultFailure: string := "Failed to load sensors"
}
