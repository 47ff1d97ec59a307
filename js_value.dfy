/**
 * JavaScript values as the frontend receives them from `response.json()`,
 * and the few operators the frontend code applies to them: optional chaining
 * (`v?.key`, `v?.[i]`), nullish coalescing (`a ?? b`), logical or (`a || b`)
 * and truthiness. JSON cannot carry NaN or the infinities, so a `Number`
 * is always a finite real.
 */
module JsValue {
  import opened Wrappers
  import opened Decimal

  datatype Value =
    | Undefined
    | Null
    | Bool(b: bool)
    | Number(n: real)
    | Str(s: string)
    | Arr(items: seq<Value>)
    | Obj(fields: map<string, Value>)

  /** A JavaScript number as produced by `parseFloat`: finite, NaN or infinite. */
  datatype JsNumber = Finite(r: real) | NaN | PosInfinity | NegInfinity

  /** `v?.key`: a missing key, or any non-object, yields undefined. */
  function Get(v: Value, key: string): (r: Value)
    ensures !v.Obj? ==> r == Undefined
    ensures v.Obj? && key !in v.fields ==> r == Undefined
  {
    if v.Obj? && key in v.fields then v.fields[key] else Undefined
  }

  /** `v?.[i]`: array element or one-character string, undefined when out of range. */
  function At(v: Value, i: int): (r: Value)
    ensures !v.Arr? && !v.Str? ==> r == Undefined
    ensures v.Arr? && 0 <= i < |v.items| ==> r == v.items[i]
  {
    match v
    case Arr(items) => if 0 <= i < |items| then items[i] else Undefined
    case Str(s) => if 0 <= i < |s| then Str([s[i]]) else Undefined
    case _ => Undefined
  }

  predicate Nullish(v: Value) {
    v.Undefined? || v.Null?
  }

  /** JavaScript truthiness for JSON values (NaN cannot occur). */
  predicate Truthy(v: Value) {
    match v
    case Undefined => false
    case Null => false
    case Bool(b) => b
    case Number(n) => n != 0.0
    case Str(s) => s != ""
    case Arr(_) => true
    case Obj(_) => true
  }

  /** `a ?? b` */
  function Coalesce(a: Value, b: Value): (r: Value)
    ensures !Nullish(a) ==> r == a
    ensures Nullish(a) ==> r == b
  {
    if Nullish(a) then b else a
  }

  /** `a || b` */
  function Or(a: Value, b: Value): (r: Value)
    ensures Truthy(a) ==> r == a
    ensures !Truthy(a) ==> r == b
  {
    if Truthy(a) then a else b
  }

  /** `typeof v === 'number'` */
  predicate IsNumber(v: Value) {
    v.Number?
  }

  /** A whole number that `String(n)` writes in plain decimal digits. */
  predicate PlainWhole(n: real) {
    n == n.Floor as real && -1_000_000_000_000_000_000_000 < n.Floor < 1_000_000_000_000_000_000_000
  }

  /**
   * `String(n)`: a whole number of magnitude below 10^21 is written in
   * decimal digits, after a minus sign when negative.  Any other number is
   * written in JavaScript's shortest round-trip or exponent notation,
   * which depends on binary floating point; that text is the parameter
   * `numeral`.
   */
  function NumberText(n: real, numeral: real -> string): string {
    if PlainWhole(n) then IntText(n.Floor) else numeral(n)
  }

  /** The text of a plain whole number is its digits, and only that number has them. */
  lemma NumberTextOfWhole(i: int, j: int, numeral: real -> string)
    requires PlainWhole(i as real) && PlainWhole(j as real)
    ensures NumberText(i as real, numeral) == IntText(i)
    ensures '0' <= NumberText(i as real, numeral)[0] <= '9' <==> i >= 0
    ensures NumberText(i as real, numeral) == NumberText(j as real, numeral) ==> i == j
  {
    var s, t := IntText(i), IntText(j);
    if s == t {
      if i >= 0 && j >= 0 {
        NatTextInjective(i, j);
      } else if i < 0 && j < 0 {
        assert NatText(-i) == s[1..] == t[1..] == NatText(-j);
        NatTextInjective(-i, -j);
      }
    }
  }
}
