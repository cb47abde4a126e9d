/**
 * The JavaScript values a decoded MQTT payload or a library object can
 * hold, with the operations the code applies to them: property access (which throws
 * on `null` and `undefined`), truthiness, loose comparison with
 * `undefined`, and the comparison `v < 1`.
 * Numbers are modelled as reals; arrays are not modelled.
 */
module JsValues {
  import opened Wrappers
  import opened Strings

  datatype JsValue =
    | Undefined
    | Null
    | Bool(b: bool)
    | Num(n: real)
    | Str(s: string)
    | Obj(fields: map<string, JsValue>)

  /** `v.key`: `None` when the access throws a TypeError, `Some(Undefined)` when the key is absent. */
  function Member(v: JsValue, key: string): (r: Option<JsValue>)
    ensures r.None? <==> v.Undefined? || v.Null?
    ensures v.Obj? ==> r == Some(if key in v.fields then v.fields[key] else Undefined)
  {
    match v
    case Undefined => None
    case Null => None
    case Obj(fields) => Some(if key in fields then fields[key] else Undefined)
    case _ => Some(Undefined)
  }

  /**
   * `ToNumber(v)` as the relational operators apply it; `None` stands for NaN.
   * Strings are read as an optional `-` followed by decimal digits, the empty
   * string as 0; every other string is NaN here.
   */
  function ToNumber(v: JsValue): (r: Option<real>)
    ensures v.Num? ==> r == Some(v.n)
    ensures v.Undefined? || v.Obj? ==> r.None?
  {
    match v
    case Undefined => None
    case Null => Some(0.0)
    case Bool(b) => Some(if b then 1.0 else 0.0)
    case Num(n) => Some(n)
    case Str(s) =>
      if s == "" then Some(0.0)
      else (match ParseInt(s) case None => None case Some(i) => Some(i as real))
    case Obj(_) => None
  }

  /** `v != undefined` under loose equality: neither `undefined` nor `null`. */
  predicate Defined(v: JsValue) {
    !v.Undefined? && !v.Null?
  }

  /** JavaScript truthiness (NaN is not modelled). */
  predicate Truthy(v: JsValue) {
    match v
    case Undefined => false
    case Null => false
    case Bool(b) => b
    case Num(n) => n != 0.0
    case Str(s) => s != ""
    case Obj(_) => true
  }

  /** `v < 1`: false whenever `v` converts to NaN. */
  predicate LessThanOne(v: JsValue)
    ensures v.Num? ==> (LessThanOne(v) <==> v.n < 1.0)
    ensures v.Bool? ==> (LessThanOne(v) <==> !v.b)
    ensures v.Null? || v == Str("") ==> LessThanOne(v)
    ensures v.Undefined? || v.Obj? ==> !LessThanOne(v)
  {
    match ToNumber(v)
    case None => false
    case Some(n) => n < 1.0
  }
}
