/**
 * `MemoryCollection` (`backend/main.py`): the dictionary-backed stand-in
 * for a Motor collection that the backend uses when MongoDB is unavailable.
 * `_data` is a Python dict, so it is kept as the map `data` together with
 * `keys`, the insertion order its `values()` follow.  Documents are values
 * here: the in-place updates of a stored dict are modelled by storing the
 * updated document under the same key.
 */
module MemoryStore {
  import opened Wrappers
  import opened PyValues
  import opened SeqUtils

  /** `all(doc.get(k) == v for k, v in query.items())` */
  predicate Matches(doc: Doc, query: Doc) {
    forall k :: k in query ==> Eq(Lookup(doc, k), query[k])
  }

  /** `_data.values()`: the stored documents in insertion order. */
  function Values(keys: seq<string>, data: map<string, Doc>): (r: seq<Doc>)
    requires forall i :: 0 <= i < |keys| ==> keys[i] in data
    ensures |r| == |keys|
    ensures forall i :: 0 <= i < |keys| ==> r[i] == data[keys[i]]
  {
    seq(|keys|, i requires 0 <= i < |keys| => data[keys[i]])
  }

  /** Position of the first document matching `query`, or `|docs|` when none does. */
  function FirstMatch(docs: seq<Doc>, query: Doc): (i: nat)
    ensures i <= |docs|
    ensures forall j :: 0 <= j < i ==> !Matches(docs[j], query)
    ensures i < |docs| ==> Matches(docs[i], query)
    decreases |docs|
  {
    if docs == [] then 0
    else if Matches(docs[0], query) then 0
    else 1 + FirstMatch(docs[1..], query)
  }

  /**
   * What `find_one(query)` returns: with an `_id` in the query, the document
   * stored under its text (the other fields are ignored); otherwise the
   * first document, in insertion order, on which every query field is equal.
   */
  function FindOneIn(keys: seq<string>, data: map<string, Doc>, query: Doc): (r: Option<Doc>)
    requires forall i :: 0 <= i < |keys| ==> keys[i] in data
    ensures "_id" in query ==> r == (if Str(query["_id"]) in data then Some(data[Str(query["_id"])]) else None)
    ensures "_id" !in query ==> (r.None? <==> forall j :: 0 <= j < |keys| ==> !Matches(data[keys[j]], query))
    ensures "_id" !in query && r.Some? ==>
      Matches(r.value, query) &&
      exists i :: 0 <= i < |keys| && r.value == data[keys[i]] && forall j :: 0 <= j < i ==> !Matches(data[keys[j]], query)
  {
    if "_id" in query then
      (if Str(query["_id"]) in data then Some(data[Str(query["_id"])]) else None)
    else
      var docs := Values(keys, data);
      var i := FirstMatch(docs, query);
      if i < |docs| then Some(docs[i]) else None
  }

  /** Python `s[:n]`: a negative `n` counts from the end. */
  function SliceTo<T>(s: seq<T>, n: int): (r: seq<T>)
    ensures |r| <= |s| && r == s[..|r|]
    ensures n >= 0 ==> |r| == (if n <= |s| then n else |s|)
    ensures n < 0 ==> |r| == (if |s| + n >= 0 then |s| + n else 0)
  {
    if n >= 0 then (if n <= |s| then s[..n] else s)
    else if |s| + n >= 0 then s[..|s| + n] else []
  }

  /** The `update` argument of `update_one`: its `$set` fields and its `$addToSet` entries in order. */
  datatype Update = Update(setFields: Doc, addToSet: seq<(string, PyValue)>)

  datatype UpdateResult = UpdateResult(matchedCount: nat, modifiedCount: nat)

  /** `if x not in arr: arr.append(x)` */
  function AddOne(arr: seq<PyValue>, x: PyValue): (r: seq<PyValue>)
    ensures In(x, r)
    ensures In(x, arr) ==> r == arr
    ensures !In(x, arr) ==> r == arr + [x]
  {
    if In(x, arr) then arr
    else
      InAppended(x, arr);
      arr + [x]
  }

  /** The `$each` loop: `AddOne` for every element, in order. */
  function AddEach(arr: seq<PyValue>, xs: seq<PyValue>): seq<PyValue>
    decreases |xs|
  {
    if xs == [] then arr else AddOne(AddEach(arr, xs[..|xs| - 1]), xs[|xs| - 1])
  }

  /** No element is equal to an element before it. */
  predicate NoDuplicates(s: seq<PyValue>) {
    forall i, j :: 0 <= i < j < |s| ==> !Eq(s[j], s[i])
  }

  /**
   * `$each`: the old array stays a prefix, every element asked for is in
   * the result, nothing else is added, and an array without duplicates
   * stays without duplicates.
   */
  lemma {:induction false} AddEachProperties(arr: seq<PyValue>, xs: seq<PyValue>)
    ensures var r := AddEach(arr, xs);
      && |arr| <= |r| <= |arr| + |xs|
      && r[..|arr|] == arr
      && (forall k :: 0 <= k < |xs| ==> In(xs[k], r))
      && (forall k :: |arr| <= k < |r| ==> r[k] in xs)
      && (NoDuplicates(arr) ==> NoDuplicates(r))
    decreases |xs|
  {
    if xs != [] {
      var n := |xs| - 1;
      var prev := AddEach(arr, xs[..n]);
      AddEachProperties(arr, xs[..n]);
      var r := AddEach(arr, xs);
      assert r == AddOne(prev, xs[n]);
      forall k | 0 <= k < |xs| ensures In(xs[k], r) {
        if k < n {
          assert xs[k] == xs[..n][k];
          var j :| 0 <= j < |prev| && Eq(xs[k], prev[j]);
          assert r[j] == prev[j];
        }
      }
      forall k | |arr| <= k < |r| ensures r[k] in xs {
        if k < |prev| {
          assert r[k] == prev[k];
          assert prev[k] in xs[..n];
        } else {
          assert r[k] == xs[n];
        }
      }
    }
  }

  /** One `$addToSet` entry: `setdefault(k, [])`, then the `$each` loop or a single append. */
  function AddToSetField(doc: Doc, k: string, v: PyValue): (r: (Doc, Option<string>))
    ensures r.1.Some? ==> k in r.0 && r.0 == doc[k := r.0[k]]
    ensures r.1.Some? <==> !LookupOr(doc, k, PList([])).PList? || (v.PDict? && "$each" in v.fields && Iterate(v.fields["$each"]).Err?)
    ensures r.1.None? ==> k in r.0 && r.0[k].PList? && r.0 == doc[k := r.0[k]]
    ensures r.1.None? && !(v.PDict? && "$each" in v.fields) ==> r.0[k] == PList(AddOne(LookupOr(doc, k, PList([])).items, v))
  {
    var arr := LookupOr(doc, k, PList([]));
    if !arr.PList? then (doc[k := arr], Some(NotAListError))
    else if v.PDict? && "$each" in v.fields then
      var each := Iterate(v.fields["$each"]);
      if each.Err? then (doc[k := arr], Some("TypeError: " + each.error))
      else (doc[k := PList(AddEach(arr.items, each.value))], None)
    else (doc[k := PList(AddOne(arr.items, v))], None)
  }

  /** Every `$addToSet` entry in order, stopping at the first that raises; the flag says none raised. */
  function AddToSetAll(doc: Doc, pairs: seq<(string, PyValue)>): (Doc, Option<string>)
    decreases |pairs|
  {
    if pairs == [] then (doc, None)
    else
      var prev := AddToSetAll(doc, pairs[..|pairs| - 1]);
      if prev.1.Some? then prev
      else AddToSetField(prev.0, pairs[|pairs| - 1].0, pairs[|pairs| - 1].1)
  }

  /** Once an entry raises, the later entries are not applied. */
  lemma {:induction false} AddToSetAllStops(doc: Doc, pairs: seq<(string, PyValue)>, m: nat)
    requires m <= |pairs| && AddToSetAll(doc, pairs[..m]).1.Some?
    ensures AddToSetAll(doc, pairs) == AddToSetAll(doc, pairs[..m])
    decreases |pairs| - m
  {
    if m < |pairs| {
      assert pairs[..m + 1][..m] == pairs[..m];
      AddToSetAllStops(doc, pairs, m + 1);
    } else {
      assert pairs[..m] == pairs;
    }
  }

  /** `$addToSet` changes no field it does not name. */
  lemma {:induction false} AddToSetAllKeepsOtherFields(doc: Doc, pairs: seq<(string, PyValue)>, f: string)
    requires forall i :: 0 <= i < |pairs| ==> pairs[i].0 != f
    ensures f in AddToSetAll(doc, pairs).0 <==> f in doc
    ensures f in doc ==> AddToSetAll(doc, pairs).0[f] == doc[f]
    decreases |pairs|
  {
    if pairs != [] {
      AddToSetAllKeepsOtherFields(doc, pairs[..|pairs| - 1], f);
    }
  }

  /** The text of the `KeyError` `update_one` raises when the match's `_id` is not a stored key. */
  const MissingIdError := "KeyError: '_id'"

  /** `$addToSet` met a field holding something other than a list. */
  const NotAListError := "AttributeError: object has no attribute 'append'"

  /** What `update_one` does, decided from the state before the call. */
  datatype Outcome =
    | NoMatch
    | MissingKey
    | Applied(key: string, doc: Doc, error: Option<string>)

  function UpdateOutcome(keys: seq<string>, data: map<string, Doc>, query: Doc, update: Update): (o: Outcome)
    requires forall i :: 0 <= i < |keys| ==> keys[i] in data
    ensures o.Applied? ==> o.key in data
    ensures o.Applied? && update.addToSet == [] ==> o.error.None? && o.doc == data[o.key] + update.setFields
  {
    var found := FindOneIn(keys, data, query);
    if found.None? || found.value == map[] then NoMatch
    else if "_id" !in found.value || Str(found.value["_id"]) !in data then MissingKey
    else
      var key := Str(found.value["_id"]);
      var after := AddToSetAll(data[key] + update.setFields, update.addToSet);
      Applied(key, after.0, after.1)
  }

  /** The `$addToSet` loop over a document, stopping at the entry that raises. */
  method ApplyAddToSet(doc: Doc, pairs: seq<(string, PyValue)>) returns (d: Doc, error: Option<string>)
    ensures (d, error) == AddToSetAll(doc, pairs)
  {
    d := doc;
    var i := 0;
    while i < |pairs|
      invariant 0 <= i <= |pairs|
      invariant (d, None) == AddToSetAll(doc, pairs[..i])
    {
      assert pairs[..i + 1][..i] == pairs[..i];
      d, error := ApplyEntry(d, pairs[i].0, pairs[i].1);
      if error.Some? {
        AddToSetAllStops(doc, pairs, i + 1);
        return;
      }
      i := i + 1;
    }
    assert pairs[..i] == pairs;
    error := None;
  }

  /** The cursor `find` returns. */
  class Cursor {
    var items: seq<Doc>

    constructor (items: seq<Doc>)
      ensures this.items == items
    {
      this.items := items;
    }

    /** `limit(n)`: truncates only for a positive `n`. */
    method Limit(n: int)
      modifies this
      ensures n > 0 ==> items == SliceTo(old(items), n)
      ensures n <= 0 ==> items == old(items)
    {
      if n > 0 {
        items := SliceTo(items, n);
      }
    }

    /** `to_list(length)`: truncates when `length` is truthy, i.e. neither `None` nor 0. */
    method ToList(length: Option<int>) returns (r: seq<Doc>)
      ensures length.None? || length == Some(0) ==> r == items
      ensures length.Some? && length.value > 0 ==>
        |r| == (if length.value <= |items| then length.value else |items|) && r == items[..|r|]
      ensures length.Some? && length.value < 0 ==>
        |r| == (if |items| + length.value >= 0 then |items| + length.value else 0) && r == items[..|r|]
    {
      if length.Some? && length.value != 0 {
        r := SliceTo(items, length.value);
      } else {
        r := items;
      }
    }
  }

  /** A document whose `_id` text is the text of one of `ids`: the `{"_id": {"$in": ids}}` query. */
  predicate IdIn(doc: Doc, ids: seq<PyValue>) {
    "_id" in doc && exists k :: 0 <= k < |ids| && Str(ids[k]) == Str(doc["_id"])
  }

  /** The documents of `docs` whose `_id` is among `ids`, in order. */
  function SelectIds(docs: seq<Doc>, ids: seq<PyValue>): (r: seq<Doc>)
    ensures |r| <= |docs|
    ensures forall k :: 0 <= k < |r| ==> r[k] in docs && IdIn(r[k], ids)
    ensures forall k :: 0 <= k < |docs| && IdIn(docs[k], ids) ==> docs[k] in r
    decreases |docs|
  {
    if docs == [] then []
    else
      var n := |docs| - 1;
      var prev := SelectIds(docs[..n], ids);
      assert forall k :: 0 <= k < n ==> docs[..n][k] == docs[k];
      if IdIn(docs[n], ids) then prev + [docs[n]] else prev
  }

  class MemoryCollection {
    const name: string
    var keys: seq<string>
    var data: map<string, Doc>
    var counter: int

    /** `keys` lists every key of `data` exactly once. */
    ghost predicate Valid()
      reads this
    {
      && (forall k :: k in data <==> k in keys)
      && Distinct(keys)
    }

    /** Every stored document carries its own key as `_id`, as `__init__` and `insert_one` store it. */
    ghost predicate IdsMatchKeys()
      reads this
    {
      forall k :: k in data ==> "_id" in data[k] && data[k]["_id"] == PStr(k)
    }

    /** `_data.values()` */
    function Contents(): (r: seq<Doc>)
      requires Valid()
      reads this
      ensures |r| == |keys|
      ensures forall i :: 0 <= i < |keys| ==> r[i] == data[keys[i]]
    {
      Values(keys, data)
    }

    /**
     * `__init__`: every initial document is copied under the text of its
     * `_id`, or of the running counter when it has none, and its `_id`
     * becomes that text; a later document with the same key replaces an
     * earlier one in place.
     */
    constructor (name: string, initial: seq<Doc>)
      ensures Valid() && IdsMatchKeys()
      ensures this.name == name
      ensures keys == LoadedKeys(initial) && data == LoadedData(initial)
      ensures counter == |initial| + 1
    {
      this.name := name;
      keys := [];
      data := map[];
      counter := 1;
      new;
      var i := 0;
      while i < |initial|
        invariant 0 <= i <= |initial|
        invariant counter == i + 1
        invariant keys == LoadedKeys(initial[..i]) && data == LoadedData(initial[..i])
      {
        LoadedStep(initial, i);
        var k := Str(LookupOr(initial[i], "_id", PInt(counter)));
        if k !in data {
          keys := keys + [k];
        }
        data := data[k := initial[i]["_id" := PStr(k)]];
        counter := counter + 1;
        i := i + 1;
      }
      assert initial[..i] == initial;
      LoadedConsistent(initial);
      counter := Max(counter, |data| + 1);
    }

    /**
     * `find_one(query)`, whose generic branch is the loop over the stored
     * documents; the result is the document itself.
     */
    method FindOne(query: Doc) returns (r: Option<Doc>)
      requires Valid()
      ensures r == FindOneIn(keys, data, query)
    {
      if "_id" in query {
        var key := Str(query["_id"]);
        if key in data {
          return Some(data[key]);
        }
        return None;
      }
      var i := 0;
      while i < |keys|
        invariant 0 <= i <= |keys|
        invariant forall j :: 0 <= j < i ==> !Matches(data[keys[j]], query)
      {
        if Matches(data[keys[i]], query) {
          assert FirstMatch(Values(keys, data), query) == i;
          return Some(data[keys[i]]);
        }
        i := i + 1;
      }
      return None;
    }

    /**
     * `insert_one(doc)` under the text `oid` of a new `ObjectId`: a copy of
     * the document, with `_id` set to that text, is stored under it.
     */
    method InsertOne(doc: Doc, oid: string) returns (insertedId: string)
      requires Valid()
      modifies this
      ensures Valid() && insertedId == oid
      ensures data == old(data)[oid := doc["_id" := PStr(oid)]]
      ensures keys == if oid in old(data) then old(keys) else old(keys) + [oid]
      ensures counter == old(counter)
      ensures old(IdsMatchKeys()) ==> IdsMatchKeys()
    {
      if oid !in data {
        keys := keys + [oid];
      }
      data := data[oid := doc["_id" := PStr(oid)]];
      insertedId := oid;
    }

    /**
     * `update_one(query, update)`: no match (or an empty match) changes
     * nothing and counts zero; otherwise the document stored under the text
     * of the match's `_id` gets the `$set` fields, then the `$addToSet`
     * entries in order.  An entry that raises leaves the changes made
     * before it, and the call fails.
     */
    method UpdateOne(query: Doc, update: Update) returns (r: Result<UpdateResult, string>)
      requires Valid()
      modifies this
      ensures Valid() && keys == old(keys) && counter == old(counter)
      ensures UpdateOutcome(old(keys), old(data), query, update).NoMatch? ==>
        r == Ok(UpdateResult(0, 0)) && data == old(data)
      ensures UpdateOutcome(old(keys), old(data), query, update).MissingKey? ==>
        r == Err(MissingIdError) && data == old(data)
      ensures var o := UpdateOutcome(old(keys), old(data), query, update);
        o.Applied? ==>
          data == old(data)[o.key := o.doc] && r == (if o.error.None? then Ok(UpdateResult(1, 1)) else Err(o.error.value))
    {
      var doc := FindOne(query);
      if doc.None? || doc.value == map[] {
        return Ok(UpdateResult(0, 0));
      }
      if "_id" !in doc.value || Str(doc.value["_id"]) !in data {
        return Err(MissingIdError);
      }
      var key := Str(doc.value["_id"]);
      var d, error := ApplyAddToSet(data[key] + update.setFields, update.addToSet);
      data := data[key := d];
      if error.Some? {
        return Err(error.value);
      }
      return Ok(UpdateResult(1, 1));
    }

    /** `find(query)`: a cursor over every stored document; the query is not consulted. */
    method Find(query: Option<Doc>) returns (c: Cursor)
      requires Valid()
      ensures fresh(c) && c.items == Contents()
    {
      c := new Cursor(Contents());
    }

    /**
     * `find({"_id": {"$in": ids}})` as a document store answers it: a cursor
     * over the stored documents, in insertion order, whose `_id` is one of
     * `ids` (compared by text, as `find_one` compares `_id`).
     */
    method FindIdIn(ids: seq<PyValue>) returns (c: Cursor)
      requires Valid()
      ensures fresh(c) && c.items == SelectIds(Contents(), ids)
    {
      var docs := Contents();
      var selected: seq<Doc> := [];
      var i := 0;
      while i < |docs|
        invariant 0 <= i <= |docs|
        invariant selected == SelectIds(docs[..i], ids)
      {
        assert docs[..i + 1][..i] == docs[..i];
        if IdIn(docs[i], ids) {
          selected := selected + [docs[i]];
        }
        i := i + 1;
      }
      assert docs[..i] == docs;
      c := new Cursor(selected);
    }
  }

  /**
   * One `$addToSet` entry applied to a stored document: `setdefault`, then
   * the membership test and append, or the `$each` loop; `error` names what
   * Python raises.
   */
  method ApplyEntry(doc: Doc, k: string, v: PyValue) returns (d: Doc, error: Option<string>)
    ensures (d, error) == AddToSetField(doc, k, v)
  {
    var arr := LookupOr(doc, k, PList([]));
    d := doc[k := arr];
    if !arr.PList? {
      return d, Some(NotAListError);
    }
    if v.PDict? && "$each" in v.fields {
      var each := Iterate(v.fields["$each"]);
      if each.Err? {
        return d, Some("TypeError: " + each.error);
      }
      var items := AppendEach(arr.items, each.value);
      d := doc[k := PList(items)];
    } else if !In(v, arr.items) {
      d := doc[k := PList(arr.items + [v])];
    }
    error := None;
  }

  /** The `$each` loop over a list, appending in place. */
  method AppendEach(arr: seq<PyValue>, xs: seq<PyValue>) returns (r: seq<PyValue>)
    ensures r == AddEach(arr, xs)
  {
    r := arr;
    var i := 0;
    while i < |xs|
      invariant 0 <= i <= |xs|
      invariant r == AddEach(arr, xs[..i])
    {
      assert xs[..i + 1][..i] == xs[..i];
      if !In(xs[i], r) {
        r := r + [xs[i]];
      }
      i := i + 1;
    }
    assert xs[..i] == xs;
  }

  function Max(a: int, b: int): (m: int)
    ensures m >= a && m >= b && (m == a || m == b)
  {
    if a >= b then a else b
  }

  /** No key is listed twice. */
  predicate Distinct(keys: seq<string>) {
    forall i, j :: 0 <= i < j < |keys| ==> keys[i] != keys[j]
  }

  /** The key `__init__` gives the document it reads when its counter is `counter`. */
  function InitialKey(doc: Doc, counter: int): string {
    Str(LookupOr(doc, "_id", PInt(counter)))
  }

  /** `_data` after `__init__` has read `initial`; the counter before the i-th document is i + 1. */
  function LoadedData(initial: seq<Doc>): map<string, Doc>
    decreases |initial|
  {
    if initial == [] then map[]
    else
      var n := |initial| - 1;
      var k := InitialKey(initial[n], n + 1);
      LoadedData(initial[..n])[k := initial[n]["_id" := PStr(k)]]
  }

  /** The insertion order of `LoadedData(initial)`: a repeated key keeps its first position. */
  function LoadedKeys(initial: seq<Doc>): seq<string>
    decreases |initial|
  {
    if initial == [] then []
    else
      var n := |initial| - 1;
      var k := InitialKey(initial[n], n + 1);
      var prev := LoadedKeys(initial[..n]);
      if k in prev then prev else prev + [k]
  }

  /** Reading one more document: its key joins the order when new, and its copy is stored under the key. */
  lemma LoadedStep(initial: seq<Doc>, i: nat)
    requires i < |initial|
    ensures var k := InitialKey(initial[i], i + 1);
      && LoadedData(initial[..i + 1]) == LoadedData(initial[..i])[k := initial[i]["_id" := PStr(k)]]
      && LoadedKeys(initial[..i + 1]) ==
           if k in LoadedData(initial[..i]) then LoadedKeys(initial[..i]) else LoadedKeys(initial[..i]) + [k]
  {
    LoadedConsistent(initial[..i]);
    assert initial[..i + 1][..i] == initial[..i];
  }

  /**
   * The loaded keys list every loaded document once, every document carries
   * its key as `_id`, and there are at most as many documents as were read.
   */
  lemma {:induction false} LoadedConsistent(initial: seq<Doc>)
    ensures forall k :: k in LoadedData(initial) <==> k in LoadedKeys(initial)
    ensures Distinct(LoadedKeys(initial))
    ensures forall k :: k in LoadedData(initial) ==> "_id" in LoadedData(initial)[k] && LoadedData(initial)[k]["_id"] == PStr(k)
    ensures |LoadedData(initial)| <= |initial|
    decreases |initial|
  {
    if initial != [] {
      var n := |initial| - 1;
      LoadedConsistent(initial[..n]);
      var k := InitialKey(initial[n], n + 1);
      var prev := LoadedKeys(initial[..n]);
      if k !in prev {
        var keys := prev + [k];
        forall i, j | 0 <= i < j < |keys| ensures keys[i] != keys[j] {
          assert keys[i] == prev[i] && prev[i] in prev;
          if j < |prev| {
            assert keys[j] == prev[j];
            assert prev[i] != prev[j];
          } else {
            assert keys[j] == k;
            assert prev[i] != k;
          }
        }
      }
    }
  }
}
