/**
 * The read-only sensor endpoints of `backend/main.py` as handlers over the
 * in-memory collections: each queries the users and the sensors the way
 * the handler does and is proved to answer what the matching function of
 * `LegacyApi` says.
 */
module LegacyReads {
  import opened Wrappers
  import opened PyValues
  import opened MemoryStore
  import opened LegacyApi

  /** `find({}).to_list(500)` on a collection. */
  method ListSensors(sensors: MemoryCollection) returns (all: seq<Doc>)
    requires sensors.Valid()
    ensures all == Listed(sensors.Contents())
  {
    var cursor := sensors.Find(Some(map[]));
    all := cursor.ToList(Some(ListLimit));
  }

  /** `find_one({"_id": uid})` answers the document stored under the text of `uid`, unless it is falsy. */
  method FindUser(users: MemoryCollection, uid: PyValue) returns (user: Option<Doc>)
    requires users.Valid()
    ensures user == UserByKey(users.data, uid)
  {
    var found := users.FindOne(map["_id" := uid]);
    if found.None? || found.value == map[] {
      return None;
    }
    return found;
  }

  /** The `available` loop of `/sensors/available`. */
  method CollectUnpurchased(all: seq<Doc>, perms: seq<PyValue>) returns (available: seq<SensorResponse>)
    ensures available == NotPurchased(all, perms)
  {
    available := [];
    var i := 0;
    while i < |all|
      invariant 0 <= i <= |all|
      invariant available == NotPurchased(all[..i], perms)
    {
      assert all[..i + 1][..i] == all[..i];
      if !Purchased(all[i], perms) {
        available := available + [SensorToResponse(all[i])];
      }
      i := i + 1;
    }
    assert all[..i] == all;
  }

  /** `GET /sensors/available` */
  method GetAvailableSensors(users: MemoryCollection, sensors: MemoryCollection, currentUser: Doc)
    returns (r: Result<seq<SensorResponse>, HttpError>)
    requires users.Valid() && sensors.Valid()
    ensures r == AvailableSensors(users.data, sensors.Contents(), currentUser)
  {
    var v := Lookup(currentUser, "_id");
    if Eq(v, PStr("admin")) {
      var all := ListSensors(sensors);
      return Ok(Responses(all));
    }
    var uid := ResolveUserId(v);
    if uid.Err? {
      return Err(uid.error);
    }
    var user := FindUser(users, uid.value);
    if user.None? {
      return Err(HttpError(404, "User not found"));
    }
    var perms := PermissionSet(user.value);
    if perms.Err? {
      return Err(HttpError(500, "Internal server error: " + perms.error));
    }
    var all := ListSensors(sensors);
    var available := CollectUnpurchased(all, perms.value);
    return Ok(available);
  }

  /** The `result` loop of `/sensors/all`, with the mock admin's flag fixed to false. */
  method CollectWithStatus(all: seq<Doc>, perms: Option<seq<PyValue>>) returns (result: seq<SensorStatus>)
    ensures perms.None? ==> result == AllUnpurchased(all)
    ensures perms.Some? ==> result == WithStatus(all, perms.value)
  {
    result := [];
    var i := 0;
    while i < |all|
      invariant 0 <= i <= |all|
      invariant |result| == i
      invariant perms.None? ==> forall k :: 0 <= k < i ==> result[k] == SensorStatus(SensorToResponse(all[k]), false)
      invariant perms.Some? ==> forall k :: 0 <= k < i ==>
        result[k] == SensorStatus(SensorToResponse(all[k]), Purchased(all[k], perms.value))
    {
      var isPurchased := perms.Some? && Purchased(all[i], perms.value);
      result := result + [SensorStatus(SensorToResponse(all[i]), isPurchased)];
      i := i + 1;
    }
  }

  /** `GET /sensors/all` */
  method GetAllSensors(users: MemoryCollection, sensors: MemoryCollection, currentUser: Doc)
    returns (r: Result<seq<SensorStatus>, HttpError>)
    requires users.Valid() && sensors.Valid()
    ensures r == AllSensors(users.data, sensors.Contents(), currentUser)
  {
    var ids := SafeGetUserId(currentUser);
    if ids.0 {
      var all := ListSensors(sensors);
      var result := CollectWithStatus(all, None);
      return Ok(result);
    }
    if ids.1.None? {
      return Ok([]);
    }
    var user := FindUser(users, ids.1.value);
    if user.None? {
      return Err(HttpError(404, "User not found"));
    }
    var perms := PermissionSet(user.value);
    if perms.Err? {
      return Err(HttpError(500, "Internal server error: " + perms.error));
    }
    var all := ListSensors(sensors);
    var result := CollectWithStatus(all, Some(perms.value));
    return Ok(result);
  }

  /** The `map_points` loop of `/sensors/map`; the first sensor that raises ends it. */
  method CollectPoints(found: seq<Doc>, parse: string -> Option<real>) returns (r: Result<seq<MapPoint>, string>)
    ensures r == Points(found, parse)
  {
    var points: seq<MapPoint> := [];
    var i := 0;
    while i < |found|
      invariant 0 <= i <= |found|
      invariant Points(found[..i], parse) == Ok(points)
    {
      assert found[..i + 1][..i] == found[..i];
      var p := PointOf(found[i], parse);
      if p.Err? {
        PointsStop(found, parse, i + 1);
        return Err(p.error);
      }
      if p.value.Some? {
        points := points + [p.value.value];
      }
      i := i + 1;
    }
    assert found[..i] == found;
    return Ok(points);
  }

  /** Once a prefix of the sensors raises, so does the whole loop, with the same error. */
  lemma {:induction false} PointsStop(found: seq<Doc>, parse: string -> Option<real>, m: nat)
    requires m <= |found| && Points(found[..m], parse).Err?
    ensures Points(found, parse) == Points(found[..m], parse)
    decreases |found| - m
  {
    if m < |found| {
      assert found[..m + 1][..m] == found[..m];
      PointsStop(found, parse, m + 1);
    } else {
      assert found[..m] == found;
    }
  }

  /** The part of `/sensors/map` before the sensor query: the permitted object ids, or the early answer. */
  method MapPermissionsOf(users: MemoryCollection, currentUser: Doc)
    returns (r: Result<seq<PyValue>, Result<seq<MapPoint>, HttpError>>)
    requires users.Valid()
    ensures r == MapPermissions(users.data, currentUser)
  {
    var v := Lookup(currentUser, "_id");
    if Eq(v, PStr("admin")) {
      return Err(Ok([]));
    }
    var uid := ResolveUserId(v);
    if uid.Err? {
      return Err(Err(uid.error));
    }
    var user := FindUser(users, uid.value);
    if user.None? {
      return Err(Err(HttpError(404, "User not found")));
    }
    var sensorIds := Iterate(Or(LookupOr(user.value, "sensor_permissions", PList([])), PList([])));
    if sensorIds.Err? {
      return Err(Err(HttpError(500, "Internal server error: TypeError: " + sensorIds.error)));
    }
    var objectIds := ObjectIdsOf(sensorIds.value);
    if objectIds == [] {
      return Err(Ok([]));
    }
    return Ok(objectIds);
  }

  /** `GET /sensors/map` as written: the `$in` query goes to `find`, which returns every sensor. */
  method GetMapSensors(users: MemoryCollection, sensors: MemoryCollection, currentUser: Doc, parse: string -> Option<real>)
    returns (r: Result<seq<MapPoint>, HttpError>)
    requires users.Valid() && sensors.Valid()
    ensures r == MapSensorsAsWritten(users.data, sensors.Contents(), currentUser, parse)
  {
    var perms := MapPermissionsOf(users, currentUser);
    if perms.Err? {
      return perms.error;
    }
    var query := map["_id" := PDict(map["$in" := PList(perms.value)])];
    var cursor := sensors.Find(Some(query));
    var found := cursor.ToList(Some(ListLimit));
    var points := CollectPoints(found, parse);
    if points.Err? {
      return Err(HttpError(500, "Internal server error: " + points.error));
    }
    return Ok(points.value);
  }

  /** `GET /sensors/map` on a store that honours the `$in` query. */
  method GetMapSensorsCorrected(users: MemoryCollection, sensors: MemoryCollection, currentUser: Doc, parse: string -> Option<real>)
    returns (r: Result<seq<MapPoint>, HttpError>)
    requires users.Valid() && sensors.Valid()
    ensures r == MapSensorsCorrected(users.data, sensors.Contents(), currentUser, parse)
  {
    var perms := MapPermissionsOf(users, currentUser);
    if perms.Err? {
      return perms.error;
    }
    var cursor := sensors.FindIdIn(perms.value);
    var found := cursor.ToList(Some(ListLimit));
    var points := CollectPoints(found, parse);
    if points.Err? {
      return Err(HttpError(500, "Internal server error: " + points.error));
    }
    return Ok(points.value);
  }
}
