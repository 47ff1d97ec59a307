/**
 * The sensor endpoints of the legacy FastAPI backend (`backend/main.py`)
 * over the in-memory collections: `/sensors/available`, `/sensors/all`,
 * `/sensors/map`, `PUT /sensors/{sensor_id}/parameters` and `POST /data`.
 * The authenticated user (`get_current_user`) is an input document; an
 * `HTTPException` is an `HttpError`, and any other exception is the 500
 * the handler turns it into.  `float()` of a string is the parameter
 * `parse`; the clock is the parameter `now`; new object ids are parameters.
 */
module LegacyApi {
  import opened Wrappers
  import opened PyValues
  import opened MemoryStore
  import opened LegacyAqi
  import SeqUtils

  datatype HttpError = HttpError(status: int, detail: string)

  /** `find(...).to_list(500)` keeps at most this many documents. */
  const ListLimit: int := 500

  /** The documents a `to_list(500)` returns. */
  function Listed(docs: seq<Doc>): (r: seq<Doc>)
    ensures |r| <= ListLimit && |r| <= |docs| && r == docs[..|r|]
    ensures |docs| <= ListLimit ==> r == docs
  {
    SliceTo(docs, ListLimit)
  }

  // ---------------------------------------------------------------------
  // Identity helpers
  // ---------------------------------------------------------------------

  /** `user_is_admin(user)` */
  predicate UserIsAdmin(user: Doc) {
    Eq(Lookup(user, "role"), PStr("admin"))
  }

  /**
   * `safe_get_user_id(current_user)`: the mock admin (an `_id` whose text
   * is "admin" in any case) gives `(True, None)`; an `ObjectId`, or a
   * string that is a valid one, gives `(False, that id)`; anything else
   * gives `(False, None)`.
   */
  function SafeGetUserId(currentUser: Doc): (r: (bool, Option<PyValue>))
    ensures r.0 <==> Lower(Str(Lookup(currentUser, "_id"))) == "admin"
    ensures r.0 ==> r.1.None?
    ensures r.1.Some? ==> r.1.value.PObjectId?
    ensures !r.0 ==> (r.1.Some? <==> ObjectIdIsValid(Lookup(currentUser, "_id")))
    ensures !r.0 && Lookup(currentUser, "_id").PObjectId? ==> r.1 == Some(Lookup(currentUser, "_id"))
    ensures !r.0 && Lookup(currentUser, "_id").PStr? && IsObjectIdText(Lookup(currentUser, "_id").s) ==>
      r.1 == Some(ToObjectId(Lookup(currentUser, "_id").s))
  {
    var v := Lookup(currentUser, "_id");
    if Eq(v, PStr("admin")) || Lower(Str(v)) == "admin" then (true, None)
    else if v.PObjectId? then (false, Some(v))
    else if v.PStr? && IsObjectIdText(v.s) then (false, Some(ToObjectId(v.s)))
    else (false, None)
  }

  /**
   * The user-id check of `/sensors/available` and `/sensors/map`: a valid
   * id string becomes an `ObjectId`, an `ObjectId` is kept, and anything
   * else is a 400.
   */
  function ResolveUserId(v: PyValue): (r: Result<PyValue, HttpError>)
    ensures r.Ok? <==> ObjectIdIsValid(v)
    ensures r.Ok? ==> r.value.PObjectId?
    ensures r.Err? ==> r.error == HttpError(400, "Invalid user ID")
  {
    if v.PStr? && IsObjectIdText(v.s) then Ok(ToObjectId(v.s))
    else if v.PObjectId? then Ok(v)
    else Err(HttpError(400, "Invalid user ID"))
  }

  /** `await db.users.find_one({"_id": uid})` treated as missing when falsy. */
  function UserByKey(users: map<string, Doc>, uid: PyValue): (r: Option<Doc>)
    ensures r.Some? <==> Str(uid) in users && users[Str(uid)] != map[]
    ensures r.Some? ==> r.value == users[Str(uid)]
  {
    if Str(uid) in users && users[Str(uid)] != map[] then Some(users[Str(uid)]) else None
  }

  /**
   * `set(user.get("sensor_permissions", []) or [])`, as the list of its
   * elements: a falsy value is empty, a list gives its items, a string its
   * characters; anything else, or an unhashable element, raises.
   */
  function PermissionSet(user: Doc): (r: Result<seq<PyValue>, string>)
    ensures var v := Or(LookupOr(user, "sensor_permissions", PList([])), PList([]));
      && (v.PList? && (forall k :: 0 <= k < |v.items| ==> Hashable(v.items[k])) ==> r == Ok(v.items))
      && (v.PList? && !(forall k :: 0 <= k < |v.items| ==> Hashable(v.items[k])) ==> r.Err?)
      && (!v.PList? && !v.PStr? ==> r.Err?)
    ensures r.Ok? ==> forall k :: 0 <= k < |r.value| ==> Hashable(r.value[k])
  {
    var v := Or(LookupOr(user, "sensor_permissions", PList([])), PList([]));
    var items := Iterate(v);
    if items.Err? then Err("TypeError: " + items.error)
    else if forall k :: 0 <= k < |items.value| ==> Hashable(items.value[k]) then Ok(items.value)
    else Err("TypeError: unhashable type")
  }

  /** `sensor_id_str in user_sensor_ids` for the sensor's `str(sensor.get("_id"))`. */
  predicate Purchased(sensor: Doc, perms: seq<PyValue>) {
    In(PStr(Str(Lookup(sensor, "_id"))), perms)
  }

  // ---------------------------------------------------------------------
  // Responses
  // ---------------------------------------------------------------------

  /** The dictionary `sensor_to_response` builds. */
  datatype SensorResponse = SensorResponse(
    id: Option<string>,
    name: PyValue,
    description: PyValue,
    price: PyValue,
    location: PyValue,
    city: PyValue,
    country: PyValue,
    parameters: PyValue,
    createdAt: PyValue)

  /** `sensor_to_response(sensor)`: missing fields read as `None`, except the defaults for price and parameters. */
  function SensorToResponse(sensor: Doc): (r: SensorResponse)
    ensures r.id.None? <==> Lookup(sensor, "_id").PNone?
    ensures r.id.Some? ==> r.id.value == Str(sensor["_id"])
    ensures r.name == Lookup(sensor, "name") && r.description == Lookup(sensor, "description")
    ensures r.price == LookupOr(sensor, "price", PInt(0))
    ensures r.parameters == LookupOr(sensor, "parameters", PDict(map[]))
    ensures r.location == Lookup(sensor, "location") && r.city == Lookup(sensor, "city")
    ensures r.country == Lookup(sensor, "country") && r.createdAt == Lookup(sensor, "created_at")
  {
    var sid := Lookup(sensor, "_id");
    SensorResponse(
      if sid.PNone? then None else Some(Str(sid)),
      Lookup(sensor, "name"),
      Lookup(sensor, "description"),
      LookupOr(sensor, "price", PInt(0)),
      Lookup(sensor, "location"),
      Lookup(sensor, "city"),
      Lookup(sensor, "country"),
      LookupOr(sensor, "parameters", PDict(map[])),
      Lookup(sensor, "created_at"))
  }

  /** An entry of `/sensors/all`: the response with `is_purchased` added. */
  datatype SensorStatus = SensorStatus(sensor: SensorResponse, isPurchased: bool)

  // ---------------------------------------------------------------------
  // /sensors/available and /sensors/all
  // ---------------------------------------------------------------------

  /** Every sensor, as the mock admin's `/sensors/available` lists them. */
  function Responses(docs: seq<Doc>): (r: seq<SensorResponse>)
    ensures |r| == |docs|
    ensures forall k :: 0 <= k < |docs| ==> r[k] == SensorToResponse(docs[k])
  {
    seq(|docs|, k requires 0 <= k < |docs| => SensorToResponse(docs[k]))
  }

  /** The `available` loop: the sensors not among the permissions. */
  function NotPurchased(docs: seq<Doc>, perms: seq<PyValue>): (r: seq<SensorResponse>)
    ensures |r| <= |docs|
    ensures forall d :: d in docs && !Purchased(d, perms) ==> SensorToResponse(d) in r
    ensures forall x :: x in r ==> exists d :: d in docs && !Purchased(d, perms) && x == SensorToResponse(d)
    decreases |docs|
  {
    if docs == [] then []
    else
      var n := |docs| - 1;
      var prev := NotPurchased(docs[..n], perms);
      assert docs == docs[..n] + [docs[n]];
      if !Purchased(docs[n], perms) then prev + [SensorToResponse(docs[n])] else prev
  }

  /** The `result` loop of `/sensors/all`: every sensor with its purchase flag. */
  function WithStatus(docs: seq<Doc>, perms: seq<PyValue>): (r: seq<SensorStatus>)
    ensures |r| == |docs|
    ensures forall k :: 0 <= k < |docs| ==> r[k].sensor == SensorToResponse(docs[k])
    ensures forall k :: 0 <= k < |docs| ==> (r[k].isPurchased <==> Purchased(docs[k], perms))
  {
    seq(|docs|, k requires 0 <= k < |docs| => SensorStatus(SensorToResponse(docs[k]), Purchased(docs[k], perms)))
  }

  /** The mock admin's `/sensors/all`: every sensor, none purchased. */
  function AllUnpurchased(docs: seq<Doc>): (r: seq<SensorStatus>)
    ensures |r| == |docs|
    ensures forall k :: 0 <= k < |docs| ==> r[k] == SensorStatus(SensorToResponse(docs[k]), false)
  {
    seq(|docs|, k requires 0 <= k < |docs| => SensorStatus(SensorToResponse(docs[k]), false))
  }

  /** The responses of the entries that are not purchased, in order. */
  function Unpurchased(entries: seq<SensorStatus>): seq<SensorResponse>
    decreases |entries|
  {
    if entries == [] then []
    else
      var n := |entries| - 1;
      Unpurchased(entries[..n]) + (if entries[n].isPurchased then [] else [entries[n].sensor])
  }

  /** What `/sensors/available` answers, given the stored users and the stored sensors in order. */
  function AvailableSensors(users: map<string, Doc>, sensorDocs: seq<Doc>, currentUser: Doc)
    : (r: Result<seq<SensorResponse>, HttpError>)
    ensures Eq(Lookup(currentUser, "_id"), PStr("admin")) ==> r == Ok(Responses(Listed(sensorDocs)))
    ensures !Eq(Lookup(currentUser, "_id"), PStr("admin")) && !ObjectIdIsValid(Lookup(currentUser, "_id")) ==>
      r == Err(HttpError(400, "Invalid user ID"))
    ensures !Eq(Lookup(currentUser, "_id"), PStr("admin")) && ObjectIdIsValid(Lookup(currentUser, "_id")) ==>
      var user := UserByKey(users, ResolveUserId(Lookup(currentUser, "_id")).value);
      && (user.None? ==> r == Err(HttpError(404, "User not found")))
      && (user.Some? && PermissionSet(user.value).Err? ==> r.Err? && r.error.status == 500)
      && (user.Some? && PermissionSet(user.value).Ok? ==>
            r == Ok(NotPurchased(Listed(sensorDocs), PermissionSet(user.value).value)))
    ensures r.Ok? && !Eq(Lookup(currentUser, "_id"), PStr("admin")) ==>
      var user := users[Str(ResolveUserId(Lookup(currentUser, "_id")).value)];
      && PermissionSet(user).Ok?
      && (forall d :: d in Listed(sensorDocs) && !Purchased(d, PermissionSet(user).value) ==> SensorToResponse(d) in r.value)
  {
    var v := Lookup(currentUser, "_id");
    if Eq(v, PStr("admin")) then Ok(Responses(Listed(sensorDocs)))
    else
      var uid := ResolveUserId(v);
      if uid.Err? then Err(uid.error)
      else
        var user := UserByKey(users, uid.value);
        if user.None? then Err(HttpError(404, "User not found"))
        else
          var perms := PermissionSet(user.value);
          if perms.Err? then Err(HttpError(500, "Internal server error: " + perms.error))
          else Ok(NotPurchased(Listed(sensorDocs), perms.value))
  }

  /** What `/sensors/all` answers. */
  function AllSensors(users: map<string, Doc>, sensorDocs: seq<Doc>, currentUser: Doc)
    : (r: Result<seq<SensorStatus>, HttpError>)
    ensures SafeGetUserId(currentUser).0 ==> r == Ok(AllUnpurchased(Listed(sensorDocs)))
    ensures !SafeGetUserId(currentUser).0 && SafeGetUserId(currentUser).1.None? ==> r == Ok([])
    ensures r.Err? ==> r.error.status in {404, 500}
    ensures !SafeGetUserId(currentUser).0 && SafeGetUserId(currentUser).1.Some? ==>
      var user := UserByKey(users, SafeGetUserId(currentUser).1.value);
      && (user.None? ==> r == Err(HttpError(404, "User not found")))
      && (user.Some? && PermissionSet(user.value).Err? ==> r.Err? && r.error.status == 500)
      && (user.Some? && PermissionSet(user.value).Ok? ==>
            r == Ok(WithStatus(Listed(sensorDocs), PermissionSet(user.value).value)))
    ensures r.Ok? && SafeGetUserId(currentUser).1.Some? ==>
      var user := users[Str(SafeGetUserId(currentUser).1.value)];
      && PermissionSet(user).Ok?
      && |r.value| == |Listed(sensorDocs)|
      && forall k :: 0 <= k < |r.value| ==>
           && r.value[k].sensor == SensorToResponse(Listed(sensorDocs)[k])
           && (r.value[k].isPurchased <==> Purchased(Listed(sensorDocs)[k], PermissionSet(user).value))
  {
    var ids := SafeGetUserId(currentUser);
    if ids.0 then Ok(AllUnpurchased(Listed(sensorDocs)))
    else if ids.1.None? then Ok([])
    else
      var user := UserByKey(users, ids.1.value);
      if user.None? then Err(HttpError(404, "User not found"))
      else
        var perms := PermissionSet(user.value);
        if perms.Err? then Err(HttpError(500, "Internal server error: " + perms.error))
        else Ok(WithStatus(Listed(sensorDocs), perms.value))
  }

  /** Filtering the flagged list for the unpurchased entries gives the available list. */
  lemma {:induction false} NotPurchasedIsComplement(docs: seq<Doc>, perms: seq<PyValue>)
    ensures NotPurchased(docs, perms) == Unpurchased(WithStatus(docs, perms))
    decreases |docs|
  {
    if docs != [] {
      var n := |docs| - 1;
      NotPurchasedIsComplement(docs[..n], perms);
      assert WithStatus(docs, perms)[..n] == WithStatus(docs[..n], perms);
    }
  }

  /**
   * For a user identified by an object id, `/sensors/available` fails
   * exactly when `/sensors/all` does, with the same error, and otherwise
   * lists exactly the sensors `/sensors/all` flags as not purchased.
   */
  lemma AvailableIsComplementOfPurchased(users: map<string, Doc>, sensorDocs: seq<Doc>, currentUser: Doc)
    requires var v := Lookup(currentUser, "_id");
      (v.PStr? && IsObjectIdText(v.s)) || (v.PObjectId? && IsObjectIdText(v.hex))
    ensures AvailableSensors(users, sensorDocs, currentUser).Ok? <==> AllSensors(users, sensorDocs, currentUser).Ok?
    ensures AllSensors(users, sensorDocs, currentUser).Err? ==>
      AvailableSensors(users, sensorDocs, currentUser).error == AllSensors(users, sensorDocs, currentUser).error
    ensures AllSensors(users, sensorDocs, currentUser).Ok? ==>
      AvailableSensors(users, sensorDocs, currentUser).value == Unpurchased(AllSensors(users, sensorDocs, currentUser).value)
  {
    var v := Lookup(currentUser, "_id");
    ObjectIdTextIsNotAdmin(v);
    assert !Eq(v, PStr("admin"));
    NotPurchasedIsComplement(Listed(sensorDocs), []);
    var user := UserByKey(users, ResolveUserId(v).value);
    if user.Some? && PermissionSet(user.value).Ok? {
      NotPurchasedIsComplement(Listed(sensorDocs), PermissionSet(user.value).value);
    }
  }

  // ---------------------------------------------------------------------
  // /sensors/map
  // ---------------------------------------------------------------------

  /** A point of `/sensors/map`. */
  datatype MapPoint = MapPoint(
    id: string,
    name: PyValue,
    description: PyValue,
    price: PyValue,
    city: PyValue,
    country: PyValue,
    lat: PyValue,
    lng: PyValue,
    aqi: int,
    parameters: Doc,
    color: string,
    source: string,
    co2: real,
    voc: real,
    temp: real,
    hum: real,
    ch2o: real,
    co: real,
    o3: real,
    no2: real)

  const PointColor: string := "#00d8ff"
  const PointSource: string := "sensor"
  const UnknownPlace: PyValue := PStr("Unknown")

  /** `float(params.get(k, 0) or 0)` */
  function ParamFloat(params: Doc, k: string, parse: string -> Option<real>): (r: Result<real, string>)
    ensures k !in params || !Truthy(params[k]) ==> r == Ok(0.0)
    ensures k in params && IsNumeric(params[k]) ==> r == Ok(NumericValue(params[k]))
  {
    Float(Or(LookupOr(params, k, PInt(0)), PInt(0)), parse)
  }

  /** Every `float(params.get(k, 0) or 0)` of a map point succeeds. */
  predicate ParamsConvert(p: Doc, parse: string -> Option<real>) {
    && ParamFloat(p, "pm25", parse).Ok? && ParamFloat(p, "co2", parse).Ok? && ParamFloat(p, "voc", parse).Ok?
    && ParamFloat(p, "temp", parse).Ok? && ParamFloat(p, "hum", parse).Ok? && ParamFloat(p, "ch2o", parse).Ok?
    && ParamFloat(p, "co", parse).Ok? && ParamFloat(p, "o3", parse).Ok? && ParamFloat(p, "no2", parse).Ok?
  }

  /** `len(coords)` for the values that have a length. */
  function Length(v: PyValue): Option<nat> {
    match v
    case PList(items) => Some(|items|)
    case PStr(s) => Some(|s|)
    case PDict(fields) => Some(|fields|)
    case _ => None
  }

  /**
   * The body of the `/sensors/map` loop for one sensor: `None` when it is
   * skipped (falsy coordinates, or not exactly two of them), the point
   * otherwise, and an error where Python raises.
   */
  function PointOf(sensor: Doc, parse: string -> Option<real>): (r: Result<Option<MapPoint>, string>)
    ensures r.Ok? && r.value.Some? ==>
      var loc := Or(Lookup(sensor, "location"), PDict(map[]));
      loc.PDict? &&
      var coords := Lookup(loc.fields, "coordinates");
      && Truthy(coords) && Length(coords) == Some(2)
      && r.value.value.id == Str(Lookup(sensor, "_id"))
      && (coords.PList? ==> r.value.value.lng == coords.items[0] && r.value.value.lat == coords.items[1])
      && r.value.value.color == PointColor && r.value.value.source == PointSource
    ensures var loc := Or(Lookup(sensor, "location"), PDict(map[]));
      loc.PDict? && Lookup(loc.fields, "coordinates").PList? && |Lookup(loc.fields, "coordinates").items| != 2 ==> r == Ok(None)
    ensures var loc := Or(Lookup(sensor, "location"), PDict(map[]));
      loc.PDict? && !Truthy(Lookup(loc.fields, "coordinates")) ==> r == Ok(None)
    ensures var loc := Or(Lookup(sensor, "location"), PDict(map[]));
      var params := Or(Lookup(sensor, "parameters"), PDict(map[]));
      loc.PDict? && Lookup(loc.fields, "coordinates").PList? && |Lookup(loc.fields, "coordinates").items| == 2 ==>
        (r.Ok? && r.value.Some? <==> params.PDict? && ParamsConvert(params.fields, parse))
    ensures r.Ok? && r.value.Some? ==>
      var params := Or(Lookup(sensor, "parameters"), PDict(map[]));
      params.PDict? && ParamsConvert(params.fields, parse) &&
      var p := params.fields;
      var pt := r.value.value;
      && pt.parameters == p
      && pt.aqi == CalculateAqi(ParamFloat(p, "pm25", parse).value)
      && pt.name == Lookup(sensor, "name") && pt.description == Lookup(sensor, "description")
      && pt.price == LookupOr(sensor, "price", PInt(0))
      && pt.city == Or(Lookup(sensor, "city"), UnknownPlace)
      && pt.country == Or(Lookup(sensor, "country"), UnknownPlace)
      && pt.co2 == ParamFloat(p, "co2", parse).value && pt.voc == ParamFloat(p, "voc", parse).value
      && pt.temp == ParamFloat(p, "temp", parse).value && pt.hum == ParamFloat(p, "hum", parse).value
      && pt.ch2o == ParamFloat(p, "ch2o", parse).value && pt.co == ParamFloat(p, "co", parse).value
      && pt.o3 == ParamFloat(p, "o3", parse).value && pt.no2 == ParamFloat(p, "no2", parse).value
  {
    var loc := Or(Lookup(sensor, "location"), PDict(map[]));
    if !loc.PDict? then Err("AttributeError: object has no attribute 'get'")
    else
      var coords := Lookup(loc.fields, "coordinates");
      if !Truthy(coords) then Ok(None)
      else if Length(coords).None? then Err("TypeError: object has no len()")
      else if Length(coords).value != 2 then Ok(None)
      else
        var pair := Iterate(coords);
        if pair.Err? then Err("unpacking a dictionary's keys is not modelled")
        else
          var lon := pair.value[0];
          var lat := pair.value[1];
          var params := Or(Lookup(sensor, "parameters"), PDict(map[]));
          if !params.PDict? then Err("AttributeError: object has no attribute 'get'")
          else
            var p := params.fields;
            var pm25 := ParamFloat(p, "pm25", parse);
            var co2 := ParamFloat(p, "co2", parse);
            var voc := ParamFloat(p, "voc", parse);
            var temp := ParamFloat(p, "temp", parse);
            var hum := ParamFloat(p, "hum", parse);
            var ch2o := ParamFloat(p, "ch2o", parse);
            var co := ParamFloat(p, "co", parse);
            var o3 := ParamFloat(p, "o3", parse);
            var no2 := ParamFloat(p, "no2", parse);
            if pm25.Err? then Err(pm25.error)
            else if co2.Err? then Err(co2.error)
            else if voc.Err? then Err(voc.error)
            else if temp.Err? then Err(temp.error)
            else if hum.Err? then Err(hum.error)
            else if ch2o.Err? then Err(ch2o.error)
            else if co.Err? then Err(co.error)
            else if o3.Err? then Err(o3.error)
            else if no2.Err? then Err(no2.error)
            else
              Ok(Some(MapPoint(
                Str(Lookup(sensor, "_id")),
                Lookup(sensor, "name"),
                Lookup(sensor, "description"),
                LookupOr(sensor, "price", PInt(0)),
                Or(Lookup(sensor, "city"), UnknownPlace),
                Or(Lookup(sensor, "country"), UnknownPlace),
                lat,
                lon,
                CalculateAqi(pm25.value),
                p,
                PointColor,
                PointSource,
                co2.value, voc.value, temp.value, hum.value, ch2o.value, co.value, o3.value, no2.value)))
  }

  /** What `PointOf` yields for each document, when none of them raises. */
  function PointOptions(docs: seq<Doc>, parse: string -> Option<real>): (r: seq<Option<MapPoint>>)
    requires forall k :: 0 <= k < |docs| ==> PointOf(docs[k], parse).Ok?
    ensures |r| == |docs|
    ensures forall k :: 0 <= k < |docs| ==> r[k] == PointOf(docs[k], parse).value
  {
    seq(|docs|, k requires 0 <= k < |docs| => PointOf(docs[k], parse).value)
  }

  /** The `map_points` loop over the found sensors; the first sensor that raises aborts it. */
  function Points(docs: seq<Doc>, parse: string -> Option<real>): (r: Result<seq<MapPoint>, string>)
    ensures r.Ok? ==> |r.value| <= |docs|
    ensures r.Ok? ==> forall k :: 0 <= k < |r.value| ==> exists d :: d in docs && r.value[k].id == Str(Lookup(d, "_id"))
    decreases |docs|
  {
    if docs == [] then Ok([])
    else
      var n := |docs| - 1;
      var prev := Points(docs[..n], parse);
      if prev.Err? then prev
      else
        var p := PointOf(docs[n], parse);
        if p.Err? then Err(p.error)
        else if p.value.None? then
          assert forall d :: d in docs[..n] ==> d in docs;
          prev
        else
          assert forall d :: d in docs[..n] ==> d in docs;
          Ok(prev.value + [p.value.value])
  }

  /** The loop is the generic present-results collection over `PointOf`. */
  lemma {:induction false} PointsCollect(docs: seq<Doc>, parse: string -> Option<real>)
    ensures Points(docs, parse) == SeqUtils.CollectPresent(docs, (d: Doc) => PointOf(d, parse))
    decreases |docs|
  {
    if docs != [] {
      PointsCollect(docs[..|docs| - 1], parse);
    }
  }

  /**
   * The loop succeeds iff no sensor raises, and then yields the points of
   * the placed sensors in order; otherwise it fails with the error of the
   * first sensor that raises.
   */
  lemma PointsOfPlacedSensors(docs: seq<Doc>, parse: string -> Option<real>)
    ensures Points(docs, parse).Ok? <==> forall k :: 0 <= k < |docs| ==> PointOf(docs[k], parse).Ok?
    ensures Points(docs, parse).Ok? ==> Points(docs, parse).value == SeqUtils.KeepSome(PointOptions(docs, parse))
    ensures Points(docs, parse).Err? ==>
      exists k :: (0 <= k < |docs| && PointOf(docs[k], parse) == Err(Points(docs, parse).error) &&
                   forall k' :: 0 <= k' < k ==> PointOf(docs[k'], parse).Ok?)
  {
    var f := (d: Doc) => PointOf(d, parse);
    PointsCollect(docs, parse);
    SeqUtils.CollectPresentFailsFirst(docs, f);
    if forall k :: 0 <= k < |docs| ==> PointOf(docs[k], parse).Ok? {
      SeqUtils.CollectPresentKeepsSome(docs, f);
      assert SeqUtils.Outcomes(docs, f) == PointOptions(docs, parse);
    }
  }

  /** `ObjectId.is_valid(v)` holds: the `ObjectId` the comprehension builds from `v`. */
  function AsObjectId(v: PyValue): (o: PyValue)
    requires ObjectIdIsValid(v)
    ensures o.PObjectId?
    ensures v.PObjectId? ==> o == v
    ensures v.PStr? ==> o == ToObjectId(v.s)
  {
    if v.PObjectId? then v else ToObjectId(v.s)
  }

  /** `[ObjectId(sid) for sid in sensor_ids if ObjectId.is_valid(sid)]` */
  function ObjectIdsOf(ids: seq<PyValue>): (r: seq<PyValue>)
    ensures forall k :: 0 <= k < |r| ==> r[k].PObjectId?
    decreases |ids|
  {
    if ids == [] then []
    else
      var n := |ids| - 1;
      var x := ids[n];
      ObjectIdsOf(ids[..n]) + (if ObjectIdIsValid(x) then [AsObjectId(x)] else [])
  }

  /**
   * The comprehension keeps the valid ids of `ids`, in order, each
   * converted, and nothing else.
   */
  lemma {:induction false} ObjectIdsOfValidIds(ids: seq<PyValue>)
    ensures var valid := SeqUtils.Filter(ids, ObjectIdIsValid);
      |ObjectIdsOf(ids)| == |valid| && forall k :: 0 <= k < |valid| ==> ObjectIdsOf(ids)[k] == AsObjectId(valid[k])
    ensures forall x :: x in ids && ObjectIdIsValid(x) ==> AsObjectId(x) in ObjectIdsOf(ids)
    decreases |ids|
  {
    if ids != [] {
      var n := |ids| - 1;
      var init, x := ids[..n], ids[n];
      assert ids == init + [x];
      ObjectIdsOfValidIds(init);
      SeqUtils.FilterAppend(init, x, ObjectIdIsValid);
      var r := ObjectIdsOf(ids);
      var prev := ObjectIdsOf(init);
      assert r == prev + (if ObjectIdIsValid(x) then [AsObjectId(x)] else []);
      forall y | y in ids && ObjectIdIsValid(y) ensures AsObjectId(y) in r {
        if y != x {
          assert y in init;
          assert AsObjectId(y) in prev;
        }
      }
    }
  }

  /** `user.get("sensor_permissions", []) or []`, iterated. */
  function MapPermissionIds(user: Doc): Result<seq<PyValue>, string> {
    Iterate(Or(LookupOr(user, "sensor_permissions", PList([])), PList([])))
  }

  /**
   * The permitted object ids of `/sensors/map`, or the early answer: the
   * mock admin and a user without valid permissions get an empty list; an
   * id that is not an `ObjectId` is a 400, an unknown user a 404, and a
   * permission value that cannot be iterated a 500.  Otherwise the ids are
   * the valid entries of the stored user's `sensor_permissions`.
   */
  function MapPermissions(users: map<string, Doc>, currentUser: Doc): (r: Result<seq<PyValue>, Result<seq<MapPoint>, HttpError>>)
    ensures r.Ok? ==> r.value != []
    ensures Eq(Lookup(currentUser, "_id"), PStr("admin")) ==> r == Err(Ok([]))
    ensures var v := Lookup(currentUser, "_id");
      !Eq(v, PStr("admin")) && !ObjectIdIsValid(v) ==> r == Err(Err(HttpError(400, "Invalid user ID")))
    ensures var v := Lookup(currentUser, "_id");
      !Eq(v, PStr("admin")) && ObjectIdIsValid(v) && UserByKey(users, AsObjectId(v)).None? ==>
        r == Err(Err(HttpError(404, "User not found")))
    ensures var v := Lookup(currentUser, "_id");
      !Eq(v, PStr("admin")) && ObjectIdIsValid(v) && UserByKey(users, AsObjectId(v)).Some? ==>
        var ids := MapPermissionIds(UserByKey(users, AsObjectId(v)).value);
        && (ids.Err? ==> r == Err(Err(HttpError(500, "Internal server error: TypeError: " + ids.error))))
        && (ids.Ok? && ObjectIdsOf(ids.value) == [] ==> r == Err(Ok([])))
        && (ids.Ok? && ObjectIdsOf(ids.value) != [] ==> r == Ok(ObjectIdsOf(ids.value)))
  {
    var v := Lookup(currentUser, "_id");
    if Eq(v, PStr("admin")) then Err(Ok([]))
    else
      var uid := ResolveUserId(v);
      if uid.Err? then Err(Err(uid.error))
      else
        var user := UserByKey(users, uid.value);
        if user.None? then Err(Err(HttpError(404, "User not found")))
        else
          var sensorIds := MapPermissionIds(user.value);
          if sensorIds.Err? then Err(Err(HttpError(500, "Internal server error: TypeError: " + sensorIds.error)))
          else
            var objectIds := ObjectIdsOf(sensorIds.value);
            if objectIds == [] then Err(Ok([])) else Ok(objectIds)
  }

  /** The points for the sensors a query found. */
  function PointsResponse(found: seq<Doc>, parse: string -> Option<real>): (r: Result<seq<MapPoint>, HttpError>)
    ensures r.Ok? <==> Points(found, parse).Ok?
    ensures r.Ok? ==> r.value == Points(found, parse).value
  {
    var points := Points(found, parse);
    if points.Err? then Err(HttpError(500, "Internal server error: " + points.error)) else Ok(points.value)
  }

  /**
   * What `/sensors/map` answers as written on the in-memory store: the
   * `$in` query reaches `find`, which ignores it, so every stored sensor is
   * a candidate.
   */
  function MapSensorsAsWritten(users: map<string, Doc>, sensorDocs: seq<Doc>, currentUser: Doc, parse: string -> Option<real>)
    : (r: Result<seq<MapPoint>, HttpError>)
    ensures MapPermissions(users, currentUser).Err? ==> r == MapPermissions(users, currentUser).error
    ensures MapPermissions(users, currentUser).Ok? ==> r == PointsResponse(Listed(sensorDocs), parse)
  {
    var perms := MapPermissions(users, currentUser);
    if perms.Err? then perms.error else PointsResponse(Listed(sensorDocs), parse)
  }

  /** What `/sensors/map` is meant to answer: only the sensors whose id is among the permitted ones. */
  function MapSensorsCorrected(users: map<string, Doc>, sensorDocs: seq<Doc>, currentUser: Doc, parse: string -> Option<real>)
    : (r: Result<seq<MapPoint>, HttpError>)
    ensures MapPermissions(users, currentUser).Err? ==> r == MapPermissions(users, currentUser).error
    ensures MapPermissions(users, currentUser).Ok? ==>
      r == PointsResponse(Listed(SelectIds(sensorDocs, MapPermissions(users, currentUser).value)), parse)
  {
    var perms := MapPermissions(users, currentUser);
    if perms.Err? then perms.error else PointsResponse(Listed(SelectIds(sensorDocs, perms.value)), parse)
  }

  /** With the query honoured, every point on the map has one of the permitted ids. */
  lemma PointsAmongPermittedIds(users: map<string, Doc>, sensorDocs: seq<Doc>, currentUser: Doc, parse: string -> Option<real>)
    requires MapPermissions(users, currentUser).Ok?
    ensures var r := MapSensorsCorrected(users, sensorDocs, currentUser, parse);
      var ids := MapPermissions(users, currentUser).value;
      r.Ok? ==> forall k :: 0 <= k < |r.value| ==> exists m :: 0 <= m < |ids| && Str(ids[m]) == r.value[k].id
  {
    var r := MapSensorsCorrected(users, sensorDocs, currentUser, parse);
    var ids := MapPermissions(users, currentUser).value;
    if r.Ok? {
      var found := Listed(SelectIds(sensorDocs, ids));
      forall k | 0 <= k < |r.value| ensures exists m :: 0 <= m < |ids| && Str(ids[m]) == r.value[k].id {
        var d :| d in found && r.value[k].id == Str(Lookup(d, "_id"));
        var i :| 0 <= i < |found| && found[i] == d;
        assert d == SelectIds(sensorDocs, ids)[i];
        assert IdIn(d, ids);
      }
    }
  }

  /** The permitted ids are the `ObjectId`s of valid entries of the stored user's `sensor_permissions`. */
  lemma PermittedIdsOfStoredUser(users: map<string, Doc>, currentUser: Doc)
    requires MapPermissions(users, currentUser).Ok?
    ensures var v := Lookup(currentUser, "_id");
      && ObjectIdIsValid(v) && UserByKey(users, AsObjectId(v)).Some?
      && var perms := MapPermissionIds(UserByKey(users, AsObjectId(v)).value);
      && perms.Ok?
      && var ids := MapPermissions(users, currentUser).value;
      && forall m :: 0 <= m < |ids| ==>
           exists j :: 0 <= j < |perms.value| && ObjectIdIsValid(perms.value[j]) && ids[m] == AsObjectId(perms.value[j])
  {
    var v := Lookup(currentUser, "_id");
    var perms := MapPermissionIds(UserByKey(users, AsObjectId(v)).value);
    var ids := MapPermissions(users, currentUser).value;
    ObjectIdsOfValidIds(perms.value);
    var valid := SeqUtils.Filter(perms.value, ObjectIdIsValid);
    forall m | 0 <= m < |ids|
      ensures exists j :: 0 <= j < |perms.value| && ObjectIdIsValid(perms.value[j]) && ids[m] == AsObjectId(perms.value[j])
    {
      assert ids[m] == AsObjectId(valid[m]);
      assert valid[m] in perms.value;
      var j :| 0 <= j < |perms.value| && perms.value[j] == valid[m];
    }
  }

  /**
   * With the query honoured, every point on the map is a sensor whose id
   * is the `ObjectId` of a valid entry of the stored user's
   * `sensor_permissions`.
   */
  lemma MapShowsOnlyPermittedSensors(users: map<string, Doc>, sensorDocs: seq<Doc>, currentUser: Doc, parse: string -> Option<real>)
    ensures var r := MapSensorsCorrected(users, sensorDocs, currentUser, parse);
      var v := Lookup(currentUser, "_id");
      r.Ok? && r.value != [] ==>
        && ObjectIdIsValid(v) && UserByKey(users, AsObjectId(v)).Some?
        && var perms := MapPermissionIds(UserByKey(users, AsObjectId(v)).value);
        && perms.Ok?
        && forall k :: 0 <= k < |r.value| ==>
             exists j :: 0 <= j < |perms.value| && ObjectIdIsValid(perms.value[j]) &&
                         Str(AsObjectId(perms.value[j])) == r.value[k].id
  {
    var r := MapSensorsCorrected(users, sensorDocs, currentUser, parse);
    if r.Ok? && r.value != [] {
      PointsAmongPermittedIds(users, sensorDocs, currentUser, parse);
      PermittedIdsOfStoredUser(users, currentUser);
    }
  }

  const UserKey: string := "cccccccccccccccccccccccc"
  const PermittedKey: string := "aaaaaaaaaaaaaaaaaaaaaaaa"
  const OtherKey: string := "bbbbbbbbbbbbbbbbbbbbbbbb"

  /** A stored sensor with a location, as `/data` creates them. */
  function PlacedSensor(key: string): Doc {
    map["_id" := PStr(key), "location" := PDict(map["coordinates" := PList([PFloat(76.8512), PFloat(43.2220)])])]
  }

  function ExampleUsers(): map<string, Doc> {
    map[UserKey := map["_id" := PStr(UserKey), "sensor_permissions" := PList([PStr(PermittedKey)])]]
  }

  function ExampleSensors(): seq<Doc> {
    [PlacedSensor(PermittedKey), PlacedSensor(OtherKey)]
  }

  function ExampleUser(): Doc {
    map["_id" := PStr(UserKey)]
  }

  lemma ExamplePermissions()
    ensures MapPermissions(ExampleUsers(), ExampleUser()) == Ok([PObjectId(PermittedKey)])
  {
    var v := Lookup(ExampleUser(), "_id");
    assert v == PStr(UserKey);
    assert !Eq(v, PStr("admin"));
    ExampleKeysResolve();
    var user := ExampleUsers()[UserKey];
    assert Str(PObjectId(UserKey)) == UserKey && UserKey in ExampleUsers();
    assert "_id" in user;
    assert UserByKey(ExampleUsers(), PObjectId(UserKey)) == Some(user);
    assert Or(LookupOr(user, "sensor_permissions", PList([])), PList([])) == PList([PStr(PermittedKey)]);
    assert [PStr(PermittedKey)][..0] == [];
    assert ObjectIdsOf([PStr(PermittedKey)]) == [PObjectId(PermittedKey)];
  }

  /** The example keys are object id texts that `ObjectId` keeps as they are. */
  lemma ExampleKeysResolve()
    ensures IsObjectIdText(UserKey) && ToObjectId(UserKey) == PObjectId(UserKey)
    ensures IsObjectIdText(PermittedKey) && ToObjectId(PermittedKey) == PObjectId(PermittedKey)
  {
    LowerKeepsLowercase(UserKey);
    LowerKeepsLowercase(PermittedKey);
  }

  /** Lower-casing text that holds no capital letter changes nothing. */
  lemma LowerKeepsLowercase(s: string)
    requires forall k :: 0 <= k < |s| ==> !('A' <= s[k] <= 'Z')
    ensures Lower(s) == s
  {
  }

  lemma ExamplePoint(key: string, parse: string -> Option<real>)
    ensures PointOf(PlacedSensor(key), parse).Ok? && PointOf(PlacedSensor(key), parse).value.Some?
    ensures PointOf(PlacedSensor(key), parse).value.value.id == key
  {
    var p := map[];
    assert ParamFloat(p, "pm25", parse) == Ok(0.0);
  }

  lemma ExampleSelection()
    ensures SelectIds(ExampleSensors(), [PObjectId(PermittedKey)]) == [PlacedSensor(PermittedKey)]
  {
    var ids := [PObjectId(PermittedKey)];
    assert ExampleSensors()[..1] == [PlacedSensor(PermittedKey)];
    assert Str(ids[0]) == Str(PlacedSensor(PermittedKey)["_id"]);
    assert IdIn(PlacedSensor(PermittedKey), ids);
    assert !IdIn(PlacedSensor(OtherKey), ids) by {
      assert Str(ids[0]) != OtherKey by { assert PermittedKey[0] != OtherKey[0]; }
    }
    assert SelectIds([PlacedSensor(PermittedKey)], ids) == [PlacedSensor(PermittedKey)];
  }

  lemma ExamplePoints(parse: string -> Option<real>)
    ensures var r := Points(ExampleSensors(), parse);
      r.Ok? && |r.value| == 2 && r.value[0].id == PermittedKey && r.value[1].id == OtherKey
    ensures var r := Points([PlacedSensor(PermittedKey)], parse);
      r.Ok? && |r.value| == 1 && r.value[0].id == PermittedKey
  {
    ExamplePoint(PermittedKey, parse);
    ExamplePoint(OtherKey, parse);
    var docs := ExampleSensors();
    assert docs[..1] == [PlacedSensor(PermittedKey)];
    assert [PlacedSensor(PermittedKey)][..0] == [];
    assert Points([], parse) == Ok([]);
  }

  /**
   * A user holding a permission for one of two placed sensors sees both on
   * the map as written, but only the permitted one with the query honoured.
   */
  lemma MapListsUnpermittedSensors(parse: string -> Option<real>)
    ensures var r := MapSensorsAsWritten(ExampleUsers(), ExampleSensors(), ExampleUser(), parse);
      r.Ok? && |r.value| == 2 && r.value[0].id == PermittedKey && r.value[1].id == OtherKey
    ensures var r := MapSensorsCorrected(ExampleUsers(), ExampleSensors(), ExampleUser(), parse);
      r.Ok? && |r.value| == 1 && r.value[0].id == PermittedKey
  {
    ExamplePermissions();
    ExampleSelection();
    ExamplePoints(parse);
    assert Listed(ExampleSensors()) == ExampleSensors();
    assert Listed([PlacedSensor(PermittedKey)]) == [PlacedSensor(PermittedKey)];
  }
}
