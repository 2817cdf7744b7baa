/** Parsed JSON values, as `JSON.parse` hands them to the import and migration code,
    with the JavaScript truthiness and `typeof` tests that code applies to them. */
module Js {

  datatype JsVal =
    | Undefined
    | Null
    | Bool(b: bool)
    | Num(n: real)
    | Str(s: string)
    | List(items: seq<JsVal>)
    | Obj(fields: map<string, JsVal>)
  {
    /** `!!v` (NaN is not modelled). */
    predicate Truthy()
    {
      match this
      case Undefined => false
      case Null => false
      case Bool(b) => b
      case Num(n) => n != 0.0
      case Str(s) => s != ""
      case List(_) => true
      case Obj(_) => true
    }

    /** `typeof v === 'object'`, which also holds for arrays and for null. */
    predicate IsObjectType()
    {
      Null? || List? || Obj?
    }

    /** `typeof v === 'string'`. */
    predicate IsStringType()
    {
      Str?
    }

    /** `Array.isArray(v)`. */
    predicate IsArray()
    {
      List?
    }
  }

  /** Reading a property of a plain object: a missing key reads as undefined. */
  function Get(o: map<string, JsVal>, key: string): (v: JsVal)
    ensures key !in o ==> v == Undefined
    ensures key in o ==> v == o[key]
  {
    if key in o then o[key] else Undefined
  }

  /** `a || b`: the first operand when it is truthy, otherwise the second. */
  function Or(a: JsVal, b: JsVal): (v: JsVal)
    ensures a.Truthy() ==> v == a
    ensures !a.Truthy() ==> v == b
  {
    if a.Truthy() then a else b
  }

  /** Object spread `{ ...base, ...over }`: keys of `over` win. */
  function Spread(base: map<string, JsVal>, over: map<string, JsVal>): (r: map<string, JsVal>)
    ensures r.Keys == base.Keys + over.Keys
    ensures forall k :: k in over ==> r[k] == over[k]
    ensures forall k :: k in base && k !in over ==> r[k] == base[k]
  {
    base + over
  }
}
