/**
 * The writing sensor endpoints of `backend/main.py` over the in-memory
 * collections: `PUT /sensors/{sensor_id}/parameters` and `POST /data`.
 * Each is a function from the stores before the call to the answer and
 * the stores after it, a handler proved to do exactly that, and lemmas
 * about what the function promises.
 */
module LegacyWrites {
  import opened Wrappers
  import opened PyValues
  import opened MemoryStore
  import opened LegacyApi
  import opened LegacyReads

  // ---------------------------------------------------------------------
  // Collections as values
  // ---------------------------------------------------------------------

  /** The state of one `MemoryCollection`: its insertion order and its documents. */
  datatype Store = Store(keys: seq<string>, data: map<string, Doc>)

  /** Every listed key has a document, as `update_one`'s lookup needs. */
  predicate Indexed(s: Store) {
    forall i :: 0 <= i < |s.keys| ==> s.keys[i] in s.data
  }

  /** Every stored document carries its key as `_id`, as `insert_one` and `__init__` store them. */
  predicate KeyedById(s: Store) {
    forall k :: k in s.data ==> "_id" in s.data[k] && s.data[k]["_id"] == PStr(k)
  }

  function Snapshot(c: MemoryCollection): (s: Store)
    reads c
    ensures s.keys == c.keys && s.data == c.data
  {
    Store(c.keys, c.data)
  }

  lemma ValidIsIndexed(c: MemoryCollection)
    requires c.Valid()
    ensures Indexed(Snapshot(c))
  {
  }

  /** `insert_one(doc)` with the new id `oid`. */
  function Insert(s: Store, oid: string, doc: Doc): (r: Store)
    ensures Indexed(s) ==> Indexed(r)
    ensures KeyedById(s) ==> KeyedById(r)
    ensures oid in r.data && r.data[oid] == doc["_id" := PStr(oid)]
    ensures forall k :: k in s.data && k != oid ==> k in r.data && r.data[k] == s.data[k]
    ensures forall k :: k in r.data ==> k in s.data || k == oid
  {
    Store(if oid in s.data then s.keys else s.keys + [oid], s.data[oid := doc["_id" := PStr(oid)]])
  }

  /** `update_one(query, update)`: the store after it and what it returns or raises. */
  function Apply(s: Store, query: Doc, update: Update): (r: (Store, Result<UpdateResult, string>))
    requires Indexed(s)
    ensures Indexed(r.0) && r.0.keys == s.keys
    ensures forall k :: k in s.data <==> k in r.0.data
    ensures r.1.Err? ==> UpdateOutcome(s.keys, s.data, query, update) != NoMatch
    ensures UpdateOutcome(s.keys, s.data, query, update).NoMatch? ==> r == (s, Ok(UpdateResult(0, 0)))
  {
    match UpdateOutcome(s.keys, s.data, query, update)
    case NoMatch => (s, Ok(UpdateResult(0, 0)))
    case MissingKey => (s, Err(MissingIdError))
    case Applied(key, doc, error) =>
      (Store(s.keys, s.data[key := doc]), if error.None? then Ok(UpdateResult(1, 1)) else Err(error.value))
  }

  /** `update_one` on a collection does what `Apply` says. */
  method UpdateCollection(c: MemoryCollection, query: Doc, update: Update) returns (r: Result<UpdateResult, string>)
    requires c.Valid()
    modifies c
    ensures c.Valid() && Indexed(old(Snapshot(c)))
    ensures (Snapshot(c), r) == Apply(old(Snapshot(c)), query, update)
  {
    r := c.UpdateOne(query, update);
  }

  // ---------------------------------------------------------------------
  // PUT /sensors/{sensor_id}/parameters
  // ---------------------------------------------------------------------

  /** The optional query parameters, in the order the handler tests them. */
  datatype ParamArgs = ParamArgs(
    pm25: Option<real>,
    pm10: Option<real>,
    co2: Option<real>,
    co: Option<real>,
    o3: Option<real>,
    no2: Option<real>,
    voc: Option<real>,
    ch2o: Option<real>,
    temp: Option<real>,
    hum: Option<real>)

  /** The ten `if x is not None` blocks, as (name, argument) in order. */
  function ArgList(a: ParamArgs): (r: seq<(string, Option<real>)>)
    ensures |r| == 10 && DistinctNames(r)
  {
    [("pm25", a.pm25), ("pm10", a.pm10), ("co2", a.co2), ("co", a.co), ("o3", a.o3),
     ("no2", a.no2), ("voc", a.voc), ("ch2o", a.ch2o), ("temp", a.temp), ("hum", a.hum)]
  }

  predicate DistinctNames(pairs: seq<(string, Option<real>)>) {
    forall i, j :: 0 <= i < j < |pairs| ==> pairs[i].0 != pairs[j].0
  }

  /** `updated_fields`: the given arguments, in order. */
  function Given(pairs: seq<(string, Option<real>)>): (r: seq<(string, real)>)
    ensures |r| <= |pairs|
    decreases |pairs|
  {
    if pairs == [] then []
    else
      var n := |pairs| - 1;
      var prev := Given(pairs[..n]);
      if pairs[n].1.Some? then prev + [(pairs[n].0, pairs[n].1.value)] else prev
  }

  /**
   * `updated_fields` lists exactly the given arguments: every entry comes
   * from an argument with a value, and every argument with a value is listed.
   */
  lemma {:induction false} GivenExactly(pairs: seq<(string, Option<real>)>)
    ensures forall k :: 0 <= k < |Given(pairs)| ==> (Given(pairs)[k].0, Some(Given(pairs)[k].1)) in pairs
    ensures forall i :: 0 <= i < |pairs| && pairs[i].1.Some? ==> (pairs[i].0, pairs[i].1.value) in Given(pairs)
    decreases |pairs|
  {
    if pairs != [] {
      var n := |pairs| - 1;
      var prev := pairs[..n];
      GivenExactly(prev);
      assert pairs == prev + [pairs[n]];
      var r := Given(pairs);
      var rp := Given(prev);
      if pairs[n].1.Some? {
        assert r == rp + [(pairs[n].0, pairs[n].1.value)];
        forall k | 0 <= k < |r| ensures (r[k].0, Some(r[k].1)) in pairs {
          if k < |rp| {
            assert r[k] == rp[k];
            assert (rp[k].0, Some(rp[k].1)) in prev;
          } else {
            assert pairs[n] == (r[k].0, Some(r[k].1));
          }
        }
      } else {
        assert r == rp;
      }
    }
  }

  /** `parameters[name] = value` for each given argument, in order. */
  function Patch(params: Doc, fields: seq<(string, real)>): Doc
    decreases |fields|
  {
    if fields == [] then params
    else
      var n := |fields| - 1;
      Patch(params, fields[..n])[fields[n].0 := PFloat(fields[n].1)]
  }

  /** Patching with one more argument: the earlier patch, then that argument if it is given. */
  lemma PatchSnoc(params: Doc, pairs: seq<(string, Option<real>)>)
    requires pairs != []
    ensures var n := |pairs| - 1;
      Patch(params, Given(pairs)) ==
        if pairs[n].1.Some? then Patch(params, Given(pairs[..n]))[pairs[n].0 := PFloat(pairs[n].1.value)]
        else Patch(params, Given(pairs[..n]))
  {
    var n := |pairs| - 1;
    if pairs[n].1.Some? {
      var fields := Given(pairs[..n]) + [(pairs[n].0, pairs[n].1.value)];
      assert fields[..|fields| - 1] == Given(pairs[..n]);
    }
  }

  /** With distinct names, a given argument ends up under its name. */
  lemma {:induction false} PatchSets(params: Doc, pairs: seq<(string, Option<real>)>, i: nat)
    requires DistinctNames(pairs) && i < |pairs| && pairs[i].1.Some?
    ensures pairs[i].0 in Patch(params, Given(pairs))
    ensures Patch(params, Given(pairs))[pairs[i].0] == PFloat(pairs[i].1.value)
    decreases |pairs|
  {
    var n := |pairs| - 1;
    var prev := pairs[..n];
    PatchSnoc(params, pairs);
    if i < n {
      assert prev[i] == pairs[i];
      DistinctNamesPrefix(pairs);
      PatchSets(params, prev, i);
      var before := Patch(params, Given(prev));
      assert pairs[i].0 in before && before[pairs[i].0] == PFloat(pairs[i].1.value);
      assert pairs[i].0 != pairs[n].0;
    }
  }

  lemma DistinctNamesPrefix(pairs: seq<(string, Option<real>)>)
    requires DistinctNames(pairs) && pairs != []
    ensures DistinctNames(pairs[..|pairs| - 1])
  {
    var prev := pairs[..|pairs| - 1];
    forall a, b | 0 <= a < b < |prev| ensures prev[a].0 != prev[b].0 {
      assert prev[a] == pairs[a] && prev[b] == pairs[b];
    }
  }

  /** A name no given argument carries keeps its entry, or its absence. */
  lemma {:induction false} PatchKeeps(params: Doc, pairs: seq<(string, Option<real>)>, f: string)
    requires forall i :: 0 <= i < |pairs| && pairs[i].1.Some? ==> pairs[i].0 != f
    ensures f in Patch(params, Given(pairs)) <==> f in params
    ensures f in params ==> Patch(params, Given(pairs))[f] == params[f]
    decreases |pairs|
  {
    if pairs != [] {
      var n := |pairs| - 1;
      var prev := pairs[..n];
      assert forall i :: 0 <= i < n ==> prev[i] == pairs[i];
      PatchKeeps(params, prev, f);
      PatchSnoc(params, pairs);
    }
  }

  /**
   * Each of the ten parameters: a given argument replaces the entry under
   * its name; an absent one leaves that entry as it was.
   */
  lemma ParametersPatched(params: Doc, a: ParamArgs, i: nat)
    requires i < 10
    ensures var (name, arg) := ArgList(a)[i];
      && (arg.Some? ==> name in Patch(params, Given(ArgList(a))) && Patch(params, Given(ArgList(a)))[name] == PFloat(arg.value))
      && (arg.None? ==> (name in Patch(params, Given(ArgList(a))) <==> name in params))
      && (arg.None? && name in params ==> Patch(params, Given(ArgList(a)))[name] == params[name])
  {
    var pairs := ArgList(a);
    if pairs[i].1.Some? {
      PatchSets(params, pairs, i);
    } else {
      PatchKeeps(params, pairs, pairs[i].0);
    }
  }

  /** An entry under any other name is kept as it was. */
  lemma OtherParametersKept(params: Doc, a: ParamArgs, f: string)
    requires forall i :: 0 <= i < 10 ==> ArgList(a)[i].0 != f
    ensures f in Patch(params, Given(ArgList(a))) <==> f in params
    ensures f in params ==> Patch(params, Given(ArgList(a)))[f] == params[f]
  {
    PatchKeeps(params, ArgList(a), f);
  }

  /** The answer of a successful update. */
  datatype ParamsReply = ParamsReply(message: string, sensor: SensorResponse, updatedFields: seq<(string, real)>)

  /** Python raises when the stored `parameters` is a truthy value other than a dictionary. */
  const NotADictError: string := "TypeError: object does not support item assignment"

  /**
   * The `parameters` value after the ten assignments: a dictionary gets the
   * given arguments; any other value raises at the first given argument.
   */
  function Patched(params: PyValue, pairs: seq<(string, Option<real>)>): (r: Result<PyValue, string>)
    ensures r.Ok? <==> params.PDict? || Given(pairs) == []
    ensures r.Ok? && params.PDict? ==> r.value == PDict(Patch(params.fields, Given(pairs)))
    ensures r.Ok? && !params.PDict? ==> r.value == params
  {
    if params.PDict? then Ok(PDict(Patch(params.fields, Given(pairs))))
    else if Given(pairs) == [] then Ok(params)
    else Err(NotADictError)
  }

  /** The ten `if x is not None` blocks over `parameters` and `updated_fields`. */
  method PatchParameters(params: PyValue, pairs: seq<(string, Option<real>)>)
    returns (patched: Result<PyValue, string>, fields: seq<(string, real)>)
    ensures patched == Patched(params, pairs)
    ensures fields == Given(pairs)
  {
    var p := if params.PDict? then params.fields else map[];
    fields := [];
    var i := 0;
    while i < |pairs|
      invariant 0 <= i <= |pairs|
      invariant fields == Given(pairs[..i])
      invariant params.PDict? ==> p == Patch(params.fields, fields)
      invariant !params.PDict? ==> fields == []
    {
      assert pairs[..i + 1][..i] == pairs[..i];
      if pairs[i].1.Some? {
        if !params.PDict? {
          GivenNonEmpty(pairs, i + 1);
          return Err(NotADictError), Given(pairs);
        }
        p := p[pairs[i].0 := PFloat(pairs[i].1.value)];
        fields := fields + [(pairs[i].0, pairs[i].1.value)];
        assert fields[..|fields| - 1] == Given(pairs[..i]);
      }
      i := i + 1;
    }
    assert pairs[..i] == pairs;
    patched := if params.PDict? then Ok(PDict(p)) else Ok(params);
  }

  /** Once one argument of a prefix is given, the whole list of given arguments is non-empty. */
  lemma GivenNonEmpty(pairs: seq<(string, Option<real>)>, m: nat)
    requires 0 < m <= |pairs| && pairs[m - 1].1.Some?
    ensures Given(pairs) != []
  {
    GivenExactly(pairs);
    assert (pairs[m - 1].0, pairs[m - 1].1.value) in Given(pairs);
  }

  /**
   * The permission check of a non-admin: `None` when the user may update
   * the sensor, the error otherwise.
   */
  function SensorAccess(users: map<string, Doc>, currentUser: Doc, sensorId: string): (r: Option<HttpError>)
    ensures UserIsAdmin(currentUser) ==> r.None?
    ensures r.Some? ==> r.value.status in {403, 404, 500}
  {
    if UserIsAdmin(currentUser) then None
    else
      var uid := UpdaterId(currentUser);
      var user := UserByKey(users, uid);
      if user.None? then Some(HttpError(404, "User not found"))
      else
        var perms := PermissionSet(user.value);
        if perms.Err? then Some(HttpError(500, "Error updating sensor: " + perms.error))
        else if !In(PStr(sensorId), perms.value) then Some(HttpError(403, "You don't have access to this sensor"))
        else None
  }

  /** The user id the update handler looks up: a valid id string becomes an `ObjectId`, anything else is kept. */
  function UpdaterId(currentUser: Doc): (uid: PyValue)
    ensures Str(uid) == (if Lookup(currentUser, "_id").PStr? && IsObjectIdText(Lookup(currentUser, "_id").s)
      then Lower(Lookup(currentUser, "_id").s) else Str(Lookup(currentUser, "_id")))
  {
    var v := Lookup(currentUser, "_id");
    if v.PStr? && IsObjectIdText(v.s) then ToObjectId(v.s) else v
  }

  /** The permission check as the handler runs it. */
  method CheckAccess(users: MemoryCollection, currentUser: Doc, sensorId: string) returns (denied: Option<HttpError>)
    requires users.Valid()
    ensures denied == SensorAccess(users.data, currentUser, sensorId)
  {
    if UserIsAdmin(currentUser) {
      return None;
    }
    var user := FindUser(users, UpdaterId(currentUser));
    if user.None? {
      return Some(HttpError(404, "User not found"));
    }
    var perms := PermissionSet(user.value);
    if perms.Err? {
      return Some(HttpError(500, "Error updating sensor: " + perms.error));
    }
    if !In(PStr(sensorId), perms.value) {
      return Some(HttpError(403, "You don't have access to this sensor"));
    }
    return None;
  }

  /**
   * The sensors collection once the patched value is written: a truthy
   * stored dictionary was patched where it is stored, then `update_one`
   * sets `parameters` again.
   */
  function WriteParameters(sensors: Store, sensorId: string, patched: PyValue)
    : (r: (Store, Result<UpdateResult, string>))
    requires Indexed(sensors) && IsObjectIdText(sensorId) && Lower(sensorId) in sensors.data
    ensures Indexed(r.0) && r.0.keys == sensors.keys
    ensures Lower(sensorId) in r.0.data
  {
    Apply(PatchInPlace(sensors, Lower(sensorId), patched), map["_id" := ToObjectId(sensorId)], Update(map["parameters" := patched], []))
  }

  /** The in-place patch: a truthy stored dictionary is replaced where it is stored, before `update_one` runs. */
  function PatchInPlace(sensors: Store, key: string, patched: PyValue): (r: Store)
    requires Indexed(sensors) && key in sensors.data
    ensures Indexed(r) && r.keys == sensors.keys && key in r.data
    ensures forall k :: k in r.data <==> k in sensors.data
  {
    var sensor := sensors.data[key];
    if Or(Lookup(sensor, "parameters"), PDict(map[])).PDict? && Truthy(Lookup(sensor, "parameters"))
    then Store(sensors.keys, sensors.data[key := sensor["parameters" := patched]])
    else sensors
  }

  /**
   * What `PUT /sensors/{sensor_id}/parameters` answers and leaves in the
   * sensors collection.
   */
  function UpdateParameters(users: map<string, Doc>, sensors: Store, currentUser: Doc, sensorId: string, args: ParamArgs)
    : (r: (Result<ParamsReply, HttpError>, Store))
    requires Indexed(sensors)
    ensures Indexed(r.1) && r.1.keys == sensors.keys
    ensures r.0.Err? && r.0.error.status != 500 ==> r.1 == sensors
    ensures !IsObjectIdText(sensorId) ==> r.0 == Err(HttpError(400, "Invalid sensor id"))
    ensures IsObjectIdText(sensorId) && SensorAccess(users, currentUser, sensorId).Some? ==>
      r.0 == Err(SensorAccess(users, currentUser, sensorId).value)
  {
    if !IsObjectIdText(sensorId) then (Err(HttpError(400, "Invalid sensor id")), sensors)
    else
      var access := SensorAccess(users, currentUser, sensorId);
      if access.Some? then (Err(access.value), sensors)
      else
        var key := Lower(sensorId);
        if key !in sensors.data || sensors.data[key] == map[] then (Err(HttpError(404, "Sensor not found")), sensors)
        else
          var patched := Patched(Or(Lookup(sensors.data[key], "parameters"), PDict(map[])), ArgList(args));
          if patched.Err? then (Err(HttpError(500, "Error updating sensor: " + patched.error)), sensors)
          else
            var (after, res) := WriteParameters(sensors, sensorId, patched.value);
            if res.Err? then (Err(HttpError(500, "Error updating sensor: " + res.error)), after)
            else (Ok(ParamsReply("Sensor parameters updated successfully", SensorToResponse(after.data[key]), Given(ArgList(args)))), after)
  }

  /** The in-place patch and the `update_one` of the handler. */
  method StoreParameters(sensors: MemoryCollection, sensorId: string, patched: PyValue)
    returns (res: Result<UpdateResult, string>)
    requires sensors.Valid() && IsObjectIdText(sensorId) && Lower(sensorId) in sensors.data
    modifies sensors
    ensures sensors.Valid() && Indexed(old(Snapshot(sensors)))
    ensures (Snapshot(sensors), res) == WriteParameters(old(Snapshot(sensors)), sensorId, patched)
  {
    ValidIsIndexed(sensors);
    var key := Lower(sensorId);
    var sensor := sensors.data[key];
    if Or(Lookup(sensor, "parameters"), PDict(map[])).PDict? && Truthy(Lookup(sensor, "parameters")) {
      // the stored dictionary itself is patched
      sensors.data := sensors.data[key := sensor["parameters" := patched]];
    }
    res := UpdateCollection(sensors, map["_id" := ToObjectId(sensorId)], Update(map["parameters" := patched], []));
  }

  /** `PUT /sensors/{sensor_id}/parameters` */
  method UpdateSensorParameters(users: MemoryCollection, sensors: MemoryCollection, currentUser: Doc, sensorId: string, args: ParamArgs)
    returns (r: Result<ParamsReply, HttpError>)
    requires users.Valid() && sensors.Valid() && users != sensors
    modifies sensors
    ensures sensors.Valid() && Indexed(old(Snapshot(sensors)))
    ensures (r, Snapshot(sensors)) == UpdateParameters(users.data, old(Snapshot(sensors)), currentUser, sensorId, args)
  {
    ValidIsIndexed(sensors);
    if !IsObjectIdText(sensorId) {
      return Err(HttpError(400, "Invalid sensor id"));
    }
    var denied := CheckAccess(users, currentUser, sensorId);
    if denied.Some? {
      return Err(denied.value);
    }
    var sensor := sensors.FindOne(map["_id" := ToObjectId(sensorId)]);
    if sensor.None? || sensor.value == map[] {
      return Err(HttpError(404, "Sensor not found"));
    }
    var patched, fields := PatchParameters(Or(Lookup(sensor.value, "parameters"), PDict(map[])), ArgList(args));
    if patched.Err? {
      return Err(HttpError(500, "Error updating sensor: " + patched.error));
    }
    var res := StoreParameters(sensors, sensorId, patched.value);
    if res.Err? {
      return Err(HttpError(500, "Error updating sensor: " + res.error));
    }
    var updated := sensors.FindOne(map["_id" := ToObjectId(sensorId)]);
    return Ok(ParamsReply("Sensor parameters updated successfully", SensorToResponse(updated.value), fields));
  }

  /**
   * A non-admin's update goes through only when the stored user holds a
   * permission for exactly this sensor id text.
   */
  lemma UpdateNeedsPermission(users: map<string, Doc>, sensors: Store, currentUser: Doc, sensorId: string, args: ParamArgs)
    requires Indexed(sensors)
    ensures UpdateParameters(users, sensors, currentUser, sensorId, args).0.Ok? && !UserIsAdmin(currentUser) ==>
      exists k :: k in users && users[k] != map[] && PermissionSet(users[k]).Ok? && In(PStr(sensorId), PermissionSet(users[k]).value)
  {
    if UpdateParameters(users, sensors, currentUser, sensorId, args).0.Ok? && !UserIsAdmin(currentUser) {
      assert SensorAccess(users, currentUser, sensorId).None?;
      var k := Str(UpdaterId(currentUser));
      assert k in users && users[k] != map[];
    }
  }

  /**
   * `$set` through `update_one` on a store whose documents carry their keys
   * as `_id`: the query's `_id` text selects the document, which gets the
   * fields, and nothing else changes.
   */
  lemma SetOnKeyedStore(s: Store, q: PyValue, fields: Doc)
    requires Indexed(s) && KeyedById(s)
    requires Str(q) in s.data && s.data[Str(q)] != map[]
    ensures Apply(s, map["_id" := q], Update(fields, [])) ==
      (Store(s.keys, s.data[Str(q) := s.data[Str(q)] + fields]), Ok(UpdateResult(1, 1)))
  {
    IdQuerySelects(s, q, Update(fields, []));
  }

  /** On a store whose documents carry their keys as `_id`, an `_id` query selects the document under the query's text. */
  lemma IdQuerySelects(s: Store, q: PyValue, update: Update)
    requires Indexed(s) && KeyedById(s)
    requires Str(q) in s.data && s.data[Str(q)] != map[]
    ensures var key := Str(q);
      var after := AddToSetAll(s.data[key] + update.setFields, update.addToSet);
      UpdateOutcome(s.keys, s.data, map["_id" := q], update) == Applied(key, after.0, after.1)
  {
    var key := Str(q);
    assert FindOneIn(s.keys, s.data, map["_id" := q]) == Some(s.data[key]);
    assert s.data[key]["_id"] == PStr(key);
  }

  /** On a store whose documents carry their keys as `_id`, writing the parameters changes that one field of that one sensor. */
  lemma WriteParametersOnKeyedStore(sensors: Store, sensorId: string, patched: PyValue)
    requires Indexed(sensors) && KeyedById(sensors) && IsObjectIdText(sensorId)
    requires Lower(sensorId) in sensors.data && sensors.data[Lower(sensorId)] != map[]
    ensures WriteParameters(sensors, sensorId, patched) ==
      (Store(sensors.keys, sensors.data[Lower(sensorId) := sensors.data[Lower(sensorId)]["parameters" := patched]]), Ok(UpdateResult(1, 1)))
  {
    assert Str(ToObjectId(sensorId)) == Lower(sensorId);
    SetParametersOnKeyedStore(sensors, Lower(sensorId), ToObjectId(sensorId), patched);
  }

  /** The in-place patch followed by `$set` of `parameters` through the `_id` query changes that one field. */
  lemma SetParametersOnKeyedStore(sensors: Store, key: string, q: PyValue, patched: PyValue)
    requires Indexed(sensors) && KeyedById(sensors)
    requires key in sensors.data && sensors.data[key] != map[] && Str(q) == key
    ensures Apply(PatchInPlace(sensors, key, patched), map["_id" := q], Update(map["parameters" := patched], [])) ==
      (Store(sensors.keys, sensors.data[key := sensors.data[key]["parameters" := patched]]), Ok(UpdateResult(1, 1)))
  {
    var sensor := sensors.data[key];
    if Or(Lookup(sensor, "parameters"), PDict(map[])).PDict? && Truthy(Lookup(sensor, "parameters")) {
      assert PatchInPlace(sensors, key, patched) == Store(sensors.keys, sensors.data[key := sensor["parameters" := patched]]);
      SetOnPatched(sensors, key, q, patched);
    } else {
      assert PatchInPlace(sensors, key, patched) == sensors;
      SetOnKeyedStore(sensors, q, map["parameters" := patched]);
      assert sensor + map["parameters" := patched] == sensor["parameters" := patched];
    }
  }

  /** Setting `parameters` again on a sensor already patched in place changes nothing more. */
  lemma SetOnPatched(sensors: Store, key: string, q: PyValue, patched: PyValue)
    requires Indexed(sensors) && KeyedById(sensors)
    requires key in sensors.data && sensors.data[key] != map[] && Str(q) == key
    ensures var doc := sensors.data[key]["parameters" := patched];
      var inPlace := Store(sensors.keys, sensors.data[key := doc]);
      Apply(inPlace, map["_id" := q], Update(map["parameters" := patched], [])) == (inPlace, Ok(UpdateResult(1, 1)))
  {
    var doc := sensors.data[key]["parameters" := patched];
    var inPlace := Store(sensors.keys, sensors.data[key := doc]);
    KeyedAfterWrite(sensors, key, doc);
    SetOnKeyedStore(inPlace, q, map["parameters" := patched]);
    assert doc + map["parameters" := patched] == doc;
    assert inPlace.data[key := doc] == inPlace.data;
  }

  /** Replacing a document by one that keeps its `_id` keeps every document carrying its key. */
  lemma KeyedAfterWrite(s: Store, key: string, doc: Doc)
    requires KeyedById(s) && key in s.data
    requires "_id" in doc && doc["_id"] == PStr(key)
    ensures KeyedById(Store(s.keys, s.data[key := doc]))
  {
  }

  /**
   * On a store whose documents carry their keys as `_id`, a successful
   * update replaces the sensor's `parameters` by the patched dictionary,
   * changes no other document or field, and reports exactly the given
   * arguments.
   */
  lemma UpdateWritesParameters(users: map<string, Doc>, sensors: Store, currentUser: Doc, sensorId: string, args: ParamArgs)
    requires Indexed(sensors) && KeyedById(sensors)
    ensures var (r, after) := UpdateParameters(users, sensors, currentUser, sensorId, args);
      r.Ok? ==>
        var key := Lower(sensorId);
        key in sensors.data &&
        var params := Or(Lookup(sensors.data[key], "parameters"), PDict(map[]));
        && r.value.updatedFields == Given(ArgList(args))
        && after.data == sensors.data[key := sensors.data[key]["parameters" :=
             if params.PDict? then PDict(Patch(params.fields, Given(ArgList(args)))) else params]]
        && r.value.sensor == SensorToResponse(after.data[key])
  {
    var (r, after) := UpdateParameters(users, sensors, currentUser, sensorId, args);
    if r.Ok? {
      var key := Lower(sensorId);
      var params := Or(Lookup(sensors.data[key], "parameters"), PDict(map[]));
      WriteParametersOnKeyedStore(sensors, sensorId, Patched(params, ArgList(args)).value);
    }
  }

  // ---------------------------------------------------------------------
  // POST /data
  // ---------------------------------------------------------------------

  /** The body of `/data` (`SensorData`). */
  datatype SensorData = SensorData(
    deviceId: string,
    site: string,
    pm1: real,
    pm25: real,
    pm10: real,
    co2: real,
    voc: real,
    temp: real,
    hum: real,
    ch2o: real,
    co: real,
    o3: real,
    no2: real)

  /** `data.dict()` with `user_id` and `timestamp` added. */
  function ReadingDoc(d: SensorData, userId: string, now: int): (r: Doc)
    ensures "device_id" in r && r["device_id"] == PStr(d.deviceId)
    ensures "user_id" in r && r["user_id"] == PStr(userId)
    ensures "timestamp" in r && r["timestamp"] == PDatetime(now)
  {
    map[
      "device_id" := PStr(d.deviceId), "site" := PStr(d.site),
      "pm1" := PFloat(d.pm1), "pm25" := PFloat(d.pm25), "pm10" := PFloat(d.pm10),
      "co2" := PFloat(d.co2), "voc" := PFloat(d.voc), "temp" := PFloat(d.temp),
      "hum" := PFloat(d.hum), "ch2o" := PFloat(d.ch2o), "co" := PFloat(d.co),
      "o3" := PFloat(d.o3), "no2" := PFloat(d.no2),
      "user_id" := PStr(userId), "timestamp" := PDatetime(now)]
  }

  /** `params`: the eleven readings under their names. */
  function ReadingParams(d: SensorData): (r: PyValue)
    ensures r.PDict? && "pm25" in r.fields && r.fields["pm25"] == PFloat(d.pm25)
  {
    PDict(map[
      "pm25" := PFloat(d.pm25), "pm10" := PFloat(d.pm10), "pm1" := PFloat(d.pm1),
      "co2" := PFloat(d.co2), "voc" := PFloat(d.voc), "temp" := PFloat(d.temp),
      "hum" := PFloat(d.hum), "ch2o" := PFloat(d.ch2o), "co" := PFloat(d.co),
      "o3" := PFloat(d.o3), "no2" := PFloat(d.no2)])
  }

  /** The `$set` that refreshes a known device's sensor. */
  function Refresh(d: SensorData, now: int): Update {
    Update(map["parameters" := ReadingParams(d), "updated_at" := PDatetime(now)], [])
  }

  const DefaultCity: string := "Almaty"
  const DefaultCountry: string := "Kazakhstan"
  const DefaultLongitude: real := 76.8512
  const DefaultLatitude: real := 43.2220

  /** The sensor `/data` creates for a device it has not seen. */
  function NewSensorDoc(d: SensorData, now: int): (r: Doc)
    ensures "device_id" in r && r["device_id"] == PStr(d.deviceId)
    ensures "name" in r && r["name"] == PStr(if d.site != "" then d.site else d.deviceId)
    ensures "parameters" in r && r["parameters"] == ReadingParams(d)
    ensures "location" in r && r["location"] ==
      PDict(map["type" := PStr("Point"), "coordinates" := PList([PFloat(DefaultLongitude), PFloat(DefaultLatitude)])])
  {
    map[
      "device_id" := PStr(d.deviceId),
      "name" := PStr(if d.site != "" then d.site else d.deviceId),
      "description" := PStr("Auto-created from device " + d.deviceId),
      "city" := PStr(DefaultCity),
      "country" := PStr(DefaultCountry),
      "location" := PDict(map["type" := PStr("Point"), "coordinates" := PList([PFloat(DefaultLongitude), PFloat(DefaultLatitude)])]),
      "parameters" := ReadingParams(d),
      "price" := PInt(0),
      "created_at" := PDatetime(now),
      "updated_at" := PDatetime(now)]
  }

  /** The query that finds a device's sensor. */
  function DeviceQuery(deviceId: string): Doc {
    map["device_id" := PStr(deviceId)]
  }

  /** The stored sensor `/data` treats as the device's: the first whose `device_id` matches, when it is truthy. */
  function ExistingSensor(sensors: Store, deviceId: string): (r: Option<Doc>)
    requires Indexed(sensors)
    ensures r.Some? ==> r.value != map[]
  {
    var found := FindOneIn(sensors.keys, sensors.data, DeviceQuery(deviceId));
    if found.Some? && found.value != map[] then found else None
  }

  /**
   * Step 2 of `/data`: the device's sensor gets the new readings, or is
   * created; the answer is the sensor's id text, or the error raised.
   */
  function Upsert(sensors: Store, d: SensorData, now: int, sensorOid: string): (r: (Result<string, HttpError>, Store))
    requires Indexed(sensors)
    ensures Indexed(r.1)
    ensures ExistingSensor(sensors, d.deviceId).None? ==> r == (Ok(sensorOid), Insert(sensors, sensorOid, NewSensorDoc(d, now)))
  {
    var existing := ExistingSensor(sensors, d.deviceId);
    if existing.None? then (Ok(sensorOid), Insert(sensors, sensorOid, NewSensorDoc(d, now)))
    else if "_id" !in existing.value then (Err(HttpError(500, "Ingestion error: '_id'")), sensors)
    else
      var (after, res) := Apply(sensors, map["_id" := existing.value["_id"]], Refresh(d, now));
      if res.Err? then (Err(HttpError(500, "Ingestion error: " + res.error)), after)
      else (Ok(Str(existing.value["_id"])), after)
  }

  /** Step 3 of `/data`: a user with an object id gets the sensor's id text added to `sensor_permissions`. */
  function GrantTo(users: Store, currentUser: Doc, sensorKey: string): (r: (Option<HttpError>, Store))
    requires Indexed(users)
    ensures Indexed(r.1)
    ensures SafeGetUserId(currentUser).0 || SafeGetUserId(currentUser).1.None? ==> r == (None, users)
  {
    var ids := SafeGetUserId(currentUser);
    if !ids.0 && ids.1.Some? then
      var (after, res) := Apply(users, map["_id" := ids.1.value], Update(map[], [("sensor_permissions", PStr(sensorKey))]));
      if res.Err? then (Some(HttpError(500, "Ingestion error: " + res.error)), after) else (None, after)
    else (None, users)
  }

  /** The acknowledgement of `/data`. */
  datatype IngestReply = IngestReply(status: string, deviceId: string, user: PyValue)

  /** The three collections `/data` touches. */
  datatype Stores = Stores(users: Store, sensors: Store, readings: Store)

  predicate StoresIndexed(st: Stores) {
    Indexed(st.users) && Indexed(st.sensors) && Indexed(st.readings)
  }

  /**
   * What `POST /data` answers and leaves in the three collections: the
   * reading is stored first, then the device's sensor is refreshed or
   * created, then the user is granted the sensor, and the answer reads the
   * user's `email`.  An exception keeps the writes made before it.
   */
  function Ingest(st: Stores, currentUser: Doc, d: SensorData, now: int, readingOid: string, sensorOid: string)
    : (r: (Result<IngestReply, HttpError>, Stores))
    requires StoresIndexed(st)
    ensures StoresIndexed(r.1)
    ensures "_id" !in currentUser ==> r == (Err(HttpError(500, "Ingestion error: '_id'")), st)
    ensures "_id" in currentUser ==>
      r.1.readings == Insert(st.readings, readingOid, ReadingDoc(d, Str(currentUser["_id"]), now))
    ensures r.0.Ok? ==> "_id" in currentUser && "email" in currentUser && r.0.value == IngestReply("ok", d.deviceId, currentUser["email"])
  {
    if "_id" !in currentUser then (Err(HttpError(500, "Ingestion error: '_id'")), st)
    else
      var readings := Insert(st.readings, readingOid, ReadingDoc(d, Str(currentUser["_id"]), now));
      var (sensorKey, sensors) := Upsert(st.sensors, d, now, sensorOid);
      if sensorKey.Err? then (Err(sensorKey.error), Stores(st.users, sensors, readings))
      else
        var (denied, users) := GrantTo(st.users, currentUser, sensorKey.value);
        var after := Stores(users, sensors, readings);
        if denied.Some? then (Err(denied.value), after)
        else if "email" !in currentUser then (Err(HttpError(500, "Ingestion error: 'email'")), after)
        else (Ok(IngestReply("ok", d.deviceId, currentUser["email"])), after)
  }

  /** Step 2 as the handler runs it. */
  method UpsertSensor(sensors: MemoryCollection, d: SensorData, now: int, sensorOid: string) returns (sensorKey: Result<string, HttpError>)
    requires sensors.Valid()
    modifies sensors
    ensures sensors.Valid() && Indexed(old(Snapshot(sensors)))
    ensures (sensorKey, Snapshot(sensors)) == Upsert(old(Snapshot(sensors)), d, now, sensorOid)
  {
    ValidIsIndexed(sensors);
    var existing := sensors.FindOne(DeviceQuery(d.deviceId));
    if existing.Some? && existing.value != map[] {
      if "_id" !in existing.value {
        return Err(HttpError(500, "Ingestion error: '_id'"));
      }
      var res := UpdateCollection(sensors, map["_id" := existing.value["_id"]], Refresh(d, now));
      if res.Err? {
        return Err(HttpError(500, "Ingestion error: " + res.error));
      }
      return Ok(Str(existing.value["_id"]));
    }
    var inserted := sensors.InsertOne(NewSensorDoc(d, now), sensorOid);
    return Ok(inserted);
  }

  /** Step 3 as the handler runs it. */
  method GrantSensor(users: MemoryCollection, currentUser: Doc, sensorKey: string) returns (denied: Option<HttpError>)
    requires users.Valid()
    modifies users
    ensures users.Valid() && Indexed(old(Snapshot(users)))
    ensures (denied, Snapshot(users)) == GrantTo(old(Snapshot(users)), currentUser, sensorKey)
  {
    ValidIsIndexed(users);
    var ids := SafeGetUserId(currentUser);
    if !ids.0 && ids.1.Some? {
      var res := UpdateCollection(users, map["_id" := ids.1.value], Update(map[], [("sensor_permissions", PStr(sensorKey))]));
      if res.Err? {
        return Some(HttpError(500, "Ingestion error: " + res.error));
      }
    }
    return None;
  }

  function Snapshots(users: MemoryCollection, sensors: MemoryCollection, readings: MemoryCollection): Stores
    reads users, sensors, readings
  {
    Stores(Snapshot(users), Snapshot(sensors), Snapshot(readings))
  }

  /** `POST /data`; the clock reading and the two new object ids are parameters. */
  method IngestSensorData(users: MemoryCollection, sensors: MemoryCollection, readings: MemoryCollection,
                          currentUser: Doc, d: SensorData, now: int, readingOid: string, sensorOid: string)
    returns (r: Result<IngestReply, HttpError>)
    requires users.Valid() && sensors.Valid() && readings.Valid()
    requires users != sensors && users != readings && sensors != readings
    modifies users, sensors, readings
    ensures users.Valid() && sensors.Valid() && readings.Valid()
    ensures StoresIndexed(old(Snapshots(users, sensors, readings)))
    ensures (r, Snapshots(users, sensors, readings)) ==
      Ingest(old(Snapshots(users, sensors, readings)), currentUser, d, now, readingOid, sensorOid)
  {
    ValidIsIndexed(users);
    ValidIsIndexed(sensors);
    ValidIsIndexed(readings);
    if "_id" !in currentUser {
      return Err(HttpError(500, "Ingestion error: '_id'"));
    }
    var _ := readings.InsertOne(ReadingDoc(d, Str(currentUser["_id"]), now), readingOid);
    var sensorKey := UpsertSensor(sensors, d, now, sensorOid);
    if sensorKey.Err? {
      return Err(sensorKey.error);
    }
    var denied := GrantSensor(users, currentUser, sensorKey.value);
    if denied.Some? {
      return Err(denied.value);
    }
    if "email" !in currentUser {
      return Err(HttpError(500, "Ingestion error: 'email'"));
    }
    return Ok(IngestReply("ok", d.deviceId, currentUser["email"]));
  }

  // ---------------------------------------------------------------------
  // What /data promises
  // ---------------------------------------------------------------------

  /** A store as a `MemoryCollection` keeps it: the keys list every stored key once. */
  ghost predicate Consistent(s: Store) {
    (forall k :: k in s.data <==> k in s.keys) && Distinct(s.keys)
  }

  /** A field query finds the document at the first matching position. */
  lemma FindsFirstMatch(keys: seq<string>, data: map<string, Doc>, query: Doc, p: nat)
    requires forall i :: 0 <= i < |keys| ==> keys[i] in data
    requires "_id" !in query && p < |keys| && Matches(data[keys[p]], query)
    requires forall j :: 0 <= j < p ==> !Matches(data[keys[j]], query)
    ensures FindOneIn(keys, data, query) == Some(data[keys[p]])
  {
    var r := FindOneIn(keys, data, query);
    assert r.Some?;
    var i :| 0 <= i < |keys| && r.value == data[keys[i]] && forall j :: 0 <= j < i ==> !Matches(data[keys[j]], query);
    assert Matches(data[keys[i]], query);
  }

  /** A document whose `device_id` is the device's text matches the device query, whatever else it holds. */
  lemma DeviceMatches(doc: Doc, deviceId: string)
    requires "device_id" in doc && doc["device_id"] == PStr(deviceId)
    ensures Matches(doc, DeviceQuery(deviceId))
  {
    EqReflexive(PStr(deviceId));
  }

  /** A known device's sensor is refreshed in place: the readings and `updated_at` are set, nothing else changes. */
  lemma UpsertRefreshes(sensors: Store, d: SensorData, now: int, sensorOid: string)
    requires Indexed(sensors) && KeyedById(sensors) && ExistingSensor(sensors, d.deviceId).Some?
    ensures var e := ExistingSensor(sensors, d.deviceId).value;
      && "_id" in e && Str(e["_id"]) in sensors.data && e == sensors.data[Str(e["_id"])]
      && Upsert(sensors, d, now, sensorOid) ==
           (Ok(Str(e["_id"])), Store(sensors.keys, sensors.data[Str(e["_id"]) := e + Refresh(d, now).setFields]))
  {
    var e := ExistingSensor(sensors, d.deviceId).value;
    var i :| 0 <= i < |sensors.keys| && e == sensors.data[sensors.keys[i]];
    assert e["_id"] == PStr(sensors.keys[i]);
    SetOnKeyedStore(sensors, e["_id"], Refresh(d, now).setFields);
  }

  /** The refresh leaves `device_id` as it was and sets the readings. */
  lemma RefreshedFields(e: Doc, d: SensorData, now: int)
    ensures Lookup(e + Refresh(d, now).setFields, "device_id") == Lookup(e, "device_id")
    ensures Lookup(e + Refresh(d, now).setFields, "parameters") == ReadingParams(d)
  {
    assert "device_id" !in Refresh(d, now).setFields;
  }

  /**
   * Writing a matching document at a position that no earlier position
   * shares, and before which nothing matches, makes it the one a field
   * query finds.
   */
  lemma FindAfterWrite(keys: seq<string>, data: map<string, Doc>, q: Doc, p: nat, doc: Doc)
    requires forall i :: 0 <= i < |keys| ==> keys[i] in data
    requires "_id" !in q && p < |keys| && Matches(doc, q)
    requires forall j :: 0 <= j < p ==> keys[j] != keys[p] && !Matches(data[keys[j]], q)
    ensures FindOneIn(keys, data[keys[p] := doc], q) == Some(doc)
  {
    var after := data[keys[p] := doc];
    forall j | 0 <= j < p ensures !Matches(after[keys[j]], q) {
      assert after[keys[j]] == data[keys[j]];
    }
    FindsFirstMatch(keys, after, q, p);
  }

  /** The position of the sensor `ExistingSensor` finds: it matches, and nothing before it does. */
  lemma ExistingPosition(sensors: Store, deviceId: string) returns (i: nat)
    requires Indexed(sensors) && ExistingSensor(sensors, deviceId).Some?
    ensures i < |sensors.keys| && ExistingSensor(sensors, deviceId).value == sensors.data[sensors.keys[i]]
    ensures Matches(sensors.data[sensors.keys[i]], DeviceQuery(deviceId))
    ensures forall j :: 0 <= j < i ==> !Matches(sensors.data[sensors.keys[j]], DeviceQuery(deviceId))
  {
    var q := DeviceQuery(deviceId);
    var found := FindOneIn(sensors.keys, sensors.data, q);
    assert found.Some?;
    i :| 0 <= i < |sensors.keys| && found.value == sensors.data[sensors.keys[i]] &&
      forall j :: 0 <= j < i ==> !Matches(sensors.data[sensors.keys[j]], q);
  }

  /**
   * Overwriting the sensor `ExistingSensor` finds with a document that
   * keeps its `device_id` keeps that position the one found by device.
   */
  lemma OverwriteFindsDevice(sensors: Store, deviceId: string, doc: Doc)
    requires Indexed(sensors) && KeyedById(sensors) && ExistingSensor(sensors, deviceId).Some?
    requires doc != map[] && Lookup(doc, "device_id") == Lookup(ExistingSensor(sensors, deviceId).value, "device_id")
    ensures var e := ExistingSensor(sensors, deviceId).value;
      "_id" in e &&
      var after := Store(sensors.keys, sensors.data[Str(e["_id"]) := doc]);
      && Indexed(after)
      && ExistingSensor(after, deviceId) == Some(doc)
  {
    var q := DeviceQuery(deviceId);
    var e := ExistingSensor(sensors, deviceId).value;
    var keys := sensors.keys;
    var i := ExistingPosition(sensors, deviceId);
    assert e["_id"] == PStr(keys[i]);
    assert Matches(doc, q) by {
      assert "device_id" in q && Eq(Lookup(e, "device_id"), q["device_id"]);
    }
    FindAfterWrite(keys, sensors.data, q, i, doc);
  }

  /** Refreshing keeps a known device's sensor the first one found by device, now with the posted readings. */
  lemma RefreshFindsDevice(sensors: Store, d: SensorData, now: int, sensorOid: string)
    requires Indexed(sensors) && KeyedById(sensors) && ExistingSensor(sensors, d.deviceId).Some?
    ensures var e := ExistingSensor(sensors, d.deviceId).value;
      "_id" in e &&
      var after := Store(sensors.keys, sensors.data[Str(e["_id"]) := e + Refresh(d, now).setFields]);
      && Indexed(after)
      && ExistingSensor(after, d.deviceId) == Some(e + Refresh(d, now).setFields)
      && Lookup(e + Refresh(d, now).setFields, "parameters") == ReadingParams(d)
  {
    var e := ExistingSensor(sensors, d.deviceId).value;
    var doc := e + Refresh(d, now).setFields;
    RefreshedFields(e, d, now);
    assert "parameters" in doc;
    OverwriteFindsDevice(sensors, d.deviceId, doc);
  }

  /** No stored sensor belongs to a device `ExistingSensor` does not find. */
  lemma NoDeviceMatch(sensors: Store, deviceId: string)
    requires Indexed(sensors) && ExistingSensor(sensors, deviceId).None?
    ensures forall j :: 0 <= j < |sensors.keys| ==> !Matches(sensors.data[sensors.keys[j]], DeviceQuery(deviceId))
  {
    var empty: Doc := map[];
    assert Lookup(empty, "device_id") == PNone && !Eq(PNone, PStr(deviceId));
    assert !Matches(empty, DeviceQuery(deviceId));
  }

  /** The position a new key takes, or keeps, in the insertion order. */
  lemma InsertPosition(sensors: Store, oid: string, doc: Doc) returns (p: nat)
    requires Indexed(sensors) && Consistent(sensors)
    ensures var after := Insert(sensors, oid, doc);
      && p < |after.keys| && after.keys[p] == oid
      && forall j :: 0 <= j < p ==> after.keys[j] != oid && after.keys[j] == sensors.keys[j] && after.keys[j] in sensors.data
  {
    if oid in sensors.data {
      p :| 0 <= p < |sensors.keys| && sensors.keys[p] == oid;
    } else {
      p := |sensors.keys|;
    }
  }

  /** Inserting a document of the device's, when no stored sensor is the device's, makes it the one found by device. */
  lemma InsertFindsDevice(sensors: Store, deviceId: string, oid: string, nd: Doc)
    requires Indexed(sensors) && Consistent(sensors) && ExistingSensor(sensors, deviceId).None?
    requires "device_id" in nd && nd["device_id"] == PStr(deviceId)
    ensures var after := Insert(sensors, oid, nd);
      ExistingSensor(after, deviceId) == Some(after.data[oid])
  {
    var q := DeviceQuery(deviceId);
    var after := Insert(sensors, oid, nd);
    var doc := nd["_id" := PStr(oid)];
    NoDeviceMatch(sensors, deviceId);
    DeviceMatches(doc, deviceId);
    var p := InsertPosition(sensors, oid, nd);
    assert after.data == after.data[oid := doc];
    forall j | 0 <= j < p ensures !Matches(after.data[after.keys[j]], q) {
      assert after.data[after.keys[j]] == sensors.data[sensors.keys[j]];
    }
    FindAfterWrite(after.keys, after.data, q, p, doc);
  }

  /** A new device's sensor, once created, is the first one found by device. */
  lemma CreateFindsDevice(sensors: Store, d: SensorData, now: int, sensorOid: string)
    requires Indexed(sensors) && Consistent(sensors) && ExistingSensor(sensors, d.deviceId).None?
    ensures var after := Insert(sensors, sensorOid, NewSensorDoc(d, now));
      ExistingSensor(after, d.deviceId) == Some(after.data[sensorOid])
  {
    InsertFindsDevice(sensors, d.deviceId, sensorOid, NewSensorDoc(d, now));
  }

  /**
   * After a successful step 2 on a consistent store, `find_one` by the
   * device finds the sensor the step answered, and that sensor holds the
   * posted readings.
   */
  lemma UpsertFindsDevice(sensors: Store, d: SensorData, now: int, sensorOid: string)
    requires Indexed(sensors) && Consistent(sensors) && KeyedById(sensors)
    ensures var (key, after) := Upsert(sensors, d, now, sensorOid);
      key.Ok? ==>
        && key.value in after.data
        && ExistingSensor(after, d.deviceId) == Some(after.data[key.value])
        && Lookup(after.data[key.value], "parameters") == ReadingParams(d)
  {
    if ExistingSensor(sensors, d.deviceId).Some? {
      UpsertRefreshes(sensors, d, now, sensorOid);
      RefreshFindsDevice(sensors, d, now, sensorOid);
    } else {
      CreateFindsDevice(sensors, d, now, sensorOid);
      var doc := NewSensorDoc(d, now);
      assert doc["_id" := PStr(sensorOid)]["parameters"] == doc["parameters"];
    }
  }

  /** The permissions a stored user holds, with a missing field read as an empty list. */
  function HeldPermissions(user: Doc): PyValue {
    LookupOr(user, "sensor_permissions", PList([]))
  }

  /**
   * Step 3 for a user stored under their object id, whose permissions are
   * a list (or missing): the sensor's id text is added unless it is there
   * already, and nothing else changes.
   */
  lemma GrantAddsPermission(users: Store, currentUser: Doc, sensorKey: string)
    requires Indexed(users) && KeyedById(users)
    requires !SafeGetUserId(currentUser).0 && SafeGetUserId(currentUser).1.Some?
    requires var ukey := Str(SafeGetUserId(currentUser).1.value);
      ukey in users.data && users.data[ukey] != map[] && HeldPermissions(users.data[ukey]).PList?
    ensures var ukey := Str(SafeGetUserId(currentUser).1.value);
      var perms := AddOne(HeldPermissions(users.data[ukey]).items, PStr(sensorKey));
      && GrantTo(users, currentUser, sensorKey) ==
           (None, Store(users.keys, users.data[ukey := users.data[ukey]["sensor_permissions" := PList(perms)]]))
      && In(PStr(sensorKey), perms)
  {
    var uid := SafeGetUserId(currentUser).1.value;
    var ukey := Str(uid);
    var user := users.data[ukey];
    var pairs := [("sensor_permissions", PStr(sensorKey))];
    IdQuerySelects(users, uid, Update(map[], pairs));
    assert pairs[..0] == [];
    assert user + map[] == user;
    assert AddToSetAll(user, pairs) == AddToSetField(user, "sensor_permissions", PStr(sensorKey));
  }

  /**
   * A successful `/data` by a user stored under their object id leaves the
   * device's sensor where `find_one` by device finds it, holding the posted
   * readings, and among the user's permissions, so that `/sensors/map` can
   * show it.
   */
  lemma IngestGrantsDeviceSensor(st: Stores, currentUser: Doc, d: SensorData, now: int, readingOid: string, sensorOid: string)
    requires StoresIndexed(st) && Consistent(st.sensors) && KeyedById(st.sensors) && KeyedById(st.users)
    requires !SafeGetUserId(currentUser).0 && SafeGetUserId(currentUser).1.Some?
    requires var ukey := Str(SafeGetUserId(currentUser).1.value);
      ukey in st.users.data && st.users.data[ukey] != map[] && HeldPermissions(st.users.data[ukey]).PList?
    ensures var (r, after) := Ingest(st, currentUser, d, now, readingOid, sensorOid);
      var ukey := Str(SafeGetUserId(currentUser).1.value);
      r.Ok? ==>
        && ExistingSensor(after.sensors, d.deviceId).Some?
        && Lookup(ExistingSensor(after.sensors, d.deviceId).value, "parameters") == ReadingParams(d)
        && ukey in after.users.data && HeldPermissions(after.users.data[ukey]).PList?
        && exists key :: key in after.sensors.data && ExistingSensor(after.sensors, d.deviceId).value == after.sensors.data[key]
             && In(PStr(key), HeldPermissions(after.users.data[ukey]).items)
  {
    var (r, after) := Ingest(st, currentUser, d, now, readingOid, sensorOid);
    if r.Ok? {
      IngestSteps(st, currentUser, d, now, readingOid, sensorOid);
      var (sensorKey, sensors) := Upsert(st.sensors, d, now, sensorOid);
      UpsertFindsDevice(st.sensors, d, now, sensorOid);
      GrantAddsPermission(st.users, currentUser, sensorKey.value);
      var ukey := Str(SafeGetUserId(currentUser).1.value);
      assert after.users.data[ukey] == st.users.data[ukey]["sensor_permissions" :=
        PList(AddOne(HeldPermissions(st.users.data[ukey]).items, PStr(sensorKey.value)))];
      assert sensorKey.value in after.sensors.data &&
        ExistingSensor(after.sensors, d.deviceId).value == after.sensors.data[sensorKey.value];
    }
  }

  /** A successful `/data` is the sensor step that answered a key, followed by the grant of that key. */
  lemma IngestSteps(st: Stores, currentUser: Doc, d: SensorData, now: int, readingOid: string, sensorOid: string)
    requires StoresIndexed(st)
    ensures var (r, after) := Ingest(st, currentUser, d, now, readingOid, sensorOid);
      var (sensorKey, sensors) := Upsert(st.sensors, d, now, sensorOid);
      r.Ok? ==> sensorKey.Ok? && after.sensors == sensors && (None, after.users) == GrantTo(st.users, currentUser, sensorKey.value)
  {
    var res := Ingest(st, currentUser, d, now, readingOid, sensorOid);
    if res.0.Ok? {
      assert "_id" in currentUser;
      var up := Upsert(st.sensors, d, now, sensorOid);
      assert up.0.Ok?;
      var grant := GrantTo(st.users, currentUser, up.0.value);
      assert grant.0.None?;
      assert res.1 == Stores(grant.1, up.1, Insert(st.readings, readingOid, ReadingDoc(d, Str(currentUser["_id"]), now)));
    }
  }
}
