/** JSON values as the browser hands them to the page after `response.json()`,
    together with the property-access rules the aggregator relies on. */
module Js {

  datatype Option<T> = None | Some(value: T)

  /** A JavaScript value that can come out of a JSON body. `Undefined` is what a
      missing property reads as. Numbers are modelled as reals (no NaN, no infinities). */
  datatype Value =
    | Undefined
    | Null
    | Bool(b: bool)
    | Num(x: real)
    | Str(s: string)
    | Arr(items: seq<Value>)
    | Obj(fields: map<string, Value>)

  /** Reading a property of these two throws a TypeError. */
  predicate Nullish(v: Value) {
    v.Undefined? || v.Null?
  }

  /** `v[key]` for a value whose property access does not throw: an object yields its
      field or `undefined`; a boolean, number, string or array has none of the
      named properties the aggregator reads, so it yields `undefined`. */
  function Field(v: Value, key: string): (r: Value)
    ensures v.Obj? && key in v.fields ==> r == v.fields[key]
    ensures !(v.Obj? && key in v.fields) ==> r == Undefined
  {
    match v
    case Obj(m) => if key in m then m[key] else Undefined
    case _ => Undefined
  }

  /** `v.key` as JavaScript evaluates it: `None` stands for the TypeError thrown
      when `v` is null or undefined. */
  function Get(v: Value, key: string): (r: Option<Value>)
    ensures r.None? <==> Nullish(v)
    ensures r.Some? ==> r.value == Field(v, key)
  {
    if Nullish(v) then None else Some(Field(v, key))
  }

  /** `typeof v === "number" ? v : fallback` */
  function NumberOr(v: Value, fallback: real): (r: real)
    ensures v.Num? ==> r == v.x
    ensures !v.Num? ==> r == fallback
  {
    if v.Num? then v.x else fallback
  }

  /** `s.substring(2, 9)`: JavaScript clamps both bounds to the length of `s`.
      Used on `Math.random().toString(36)`, whose first two characters are "0.". */
  function Substring2To9(s: string): (r: string)
    ensures |r| <= 7
    ensures |s| >= 9 ==> r == s[2..9]
    ensures |s| <= 2 ==> r == []
    ensures 2 <= |s| <= 9 ==> r == s[2..]
  {
    var lo := if |s| < 2 then |s| else 2;
    var hi := if |s| < 9 then |s| else 9;
    s[lo..hi]
  }
}
