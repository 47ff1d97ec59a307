/**
 * Python values as the legacy FastAPI backend (`backend/main.py`) keeps them
 * in its in-memory documents, and the few built-ins it applies to them:
 * `dict.get`, truthiness, `==`, `in` on a list, `str`, `float`, and the
 * `ObjectId` helpers of `bson`.  A Python float is modelled as a real.
 */
module PyValues {
  import opened Wrappers
  import opened Decimal

  datatype PyValue =
    | PNone
    | PBool(b: bool)
    | PInt(i: int)
    | PFloat(r: real)
    | PStr(s: string)
    | PObjectId(hex: string)
    | PList(items: seq<PyValue>)
    | PDict(fields: map<string, PyValue>)
    | PDatetime(ms: int)

  /** A document: a dictionary with string keys. */
  type Doc = map<string, PyValue>

  /** `d.get(k)`: `None` for a missing key. */
  function Lookup(d: Doc, k: string): (v: PyValue)
    ensures k in d ==> v == d[k]
    ensures k !in d ==> v == PNone
  {
    if k in d then d[k] else PNone
  }

  /** `d.get(k, default)`: the default only for a missing key, not for a stored `None`. */
  function LookupOr(d: Doc, k: string, default: PyValue): (v: PyValue)
    ensures k in d ==> v == d[k]
    ensures k !in d ==> v == default
  {
    if k in d then d[k] else default
  }

  /** `bool(v)` */
  predicate Truthy(v: PyValue) {
    match v
    case PNone => false
    case PBool(b) => b
    case PInt(i) => i != 0
    case PFloat(r) => r != 0.0
    case PStr(s) => s != ""
    case PObjectId(_) => true
    case PList(items) => items != []
    case PDict(fields) => fields != map[]
    case PDatetime(_) => true
  }

  /** `a or b` */
  function Or(a: PyValue, b: PyValue): (r: PyValue)
    ensures Truthy(a) ==> r == a
    ensures !Truthy(a) ==> r == b
  {
    if Truthy(a) then a else b
  }

  /** `bool`, `int` and `float` compare with each other by numeric value. */
  predicate IsNumeric(v: PyValue) {
    v.PBool? || v.PInt? || v.PFloat?
  }

  function NumericValue(v: PyValue): real
    requires IsNumeric(v)
  {
    match v
    case PBool(b) => if b then 1.0 else 0.0
    case PInt(i) => i as real
    case PFloat(r) => r
  }

  /** `a == b`: numbers by value across `bool`, `int` and `float`; everything else structurally. */
  predicate Eq(a: PyValue, b: PyValue) {
    if IsNumeric(a) && IsNumeric(b) then NumericValue(a) == NumericValue(b) else a == b
  }

  /** `x in arr` for a list. */
  predicate In(x: PyValue, arr: seq<PyValue>) {
    exists k :: 0 <= k < |arr| && Eq(x, arr[k])
  }

  lemma EqReflexive(a: PyValue)
    ensures Eq(a, a)
  {
  }

  /** A value appended to a list is found in it afterwards. */
  lemma InAppended(x: PyValue, arr: seq<PyValue>)
    ensures In(x, arr + [x])
  {
    assert Eq(x, (arr + [x])[|arr|]);
  }

  /** ASCII lower case, as `str.lower` treats the characters that matter here. */
  function LowerChar(c: char): (d: char)
    ensures 'A' <= c <= 'Z' ==> d as int == c as int + 32
    ensures !('A' <= c <= 'Z') ==> d == c
  {
    if 'A' <= c <= 'Z' then (c as int + 32) as char else c
  }

  function Lower(s: string): (t: string)
    ensures |t| == |s|
    ensures forall k :: 0 <= k < |s| ==> t[k] == LowerChar(s[k])
  {
    seq(|s|, k requires 0 <= k < |s| => LowerChar(s[k]))
  }

  predicate IsHexDigit(c: char) {
    '0' <= c <= '9' || 'a' <= c <= 'f' || 'A' <= c <= 'F'
  }

  /** `ObjectId.is_valid` of a string: twenty-four hexadecimal digits. */
  predicate IsObjectIdText(s: string) {
    |s| == 24 && forall k :: 0 <= k < |s| ==> IsHexDigit(s[k])
  }

  /** `ObjectId.is_valid(v)`: an `ObjectId`, or a string of twenty-four hexadecimal digits. */
  predicate ObjectIdIsValid(v: PyValue) {
    v.PObjectId? || (v.PStr? && IsObjectIdText(v.s))
  }

  /** `ObjectId(s)`; its `str` is the lower-case hexadecimal text. */
  function ToObjectId(s: string): (o: PyValue)
    requires IsObjectIdText(s)
    ensures o.PObjectId? && IsObjectIdText(o.hex)
    ensures forall k :: 0 <= k < 24 ==> !('A' <= o.hex[k] <= 'Z')
    ensures forall k :: 0 <= k < 24 ==> o.hex[k] == s[k] || o.hex[k] as int == s[k] as int + 32
  {
    PObjectId(Lower(s))
  }

  /** `str(v)` of the values used as identifiers. */
  function Str(v: PyValue): (t: string)
    ensures v.PStr? ==> t == v.s
    ensures v.PObjectId? ==> t == v.hex
    ensures v.PInt? ==> t == IntText(v.i)
    ensures v.PNone? ==> t == "None"
  {
    match v
    case PNone => "None"
    case PBool(b) => if b then "True" else "False"
    case PInt(i) => IntText(i)
    case PFloat(_) => "<float>"
    case PStr(s) => s
    case PObjectId(hex) => hex
    case PList(_) => "<list>"
    case PDict(_) => "<dict>"
    case PDatetime(_) => "<datetime>"
  }

  /**
   * An object id written as text and read back is the same id: the text of
   * `ObjectId(s)` is valid again and converts to that id.
   */
  lemma ObjectIdTextRoundTrip(s: string)
    requires IsObjectIdText(s)
    ensures IsObjectIdText(Str(ToObjectId(s)))
    ensures ToObjectId(Str(ToObjectId(s))) == ToObjectId(s)
    ensures Str(ToObjectId(s)) == s <==> forall k :: 0 <= k < |s| ==> !('A' <= s[k] <= 'Z')
  {
    var t := Lower(s);
    assert Lower(t) == t;
    if Str(ToObjectId(s)) == s {
      forall k | 0 <= k < |s| ensures !('A' <= s[k] <= 'Z') {
        assert t[k] == LowerChar(s[k]);
      }
    }
    if forall k :: 0 <= k < |s| ==> !('A' <= s[k] <= 'Z') {
      assert t == s;
    }
  }

  /** The text of an identifier that is an object id or a valid string is never "admin". */
  lemma ObjectIdTextIsNotAdmin(v: PyValue)
    requires (v.PObjectId? && IsObjectIdText(v.hex)) || (v.PStr? && IsObjectIdText(v.s))
    ensures Lower(Str(v)) != "admin"
  {
  }

  /** The elements `for x in v` visits: a list's items or a string's characters. */
  function Iterate(v: PyValue): (r: Result<seq<PyValue>, string>)
    ensures v.PList? ==> r == Ok(v.items)
    ensures v.PStr? ==> r.Ok? && |r.value| == |v.s| && forall k :: 0 <= k < |v.s| ==> r.value[k] == PStr([v.s[k]])
    ensures !v.PList? && !v.PStr? ==> r.Err?
  {
    match v
    case PList(items) => Ok(items)
    case PStr(s) => Ok(seq(|s|, k requires 0 <= k < |s| => PStr([s[k]])))
    case _ => Err("object is not iterable")
  }

  /** Values a `set` may hold. */
  predicate Hashable(v: PyValue) {
    !v.PList? && !v.PDict?
  }

  /**
   * `float(v)`: numbers convert, a string is parsed by `parse`, anything
   * else raises.
   */
  function Float(v: PyValue, parse: string -> Option<real>): (r: Result<real, string>)
    ensures IsNumeric(v) ==> r == Ok(NumericValue(v))
    ensures v.PStr? ==> (r.Ok? <==> parse(v.s).Some?) && (r.Ok? ==> r.value == parse(v.s).value)
    ensures !IsNumeric(v) && !v.PStr? ==> r.Err?
  {
    if IsNumeric(v) then Ok(NumericValue(v))
    else if v.PStr? then
      (if parse(v.s).Some? then Ok(parse(v.s).value) else Err("could not convert string to float"))
    else Err("float() argument must be a string or a real number")
  }

  /** `int(x)`: truncation toward zero. */
  function Truncate(x: real): (i: int)
    ensures x >= 0.0 ==> i as real <= x < i as real + 1.0
    ensures x < 0.0 ==> i as real - 1.0 < x <= i as real
  {
    if x >= 0.0 then x.Floor else -((-x).Floor)
  }

  /** Truncation never reverses an order. */
  lemma TruncateMonotone(x: real, y: real)
    requires x <= y
    ensures Truncate(x) <= Truncate(y)
  {
  }
}
