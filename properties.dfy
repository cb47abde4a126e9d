/**
 * Gateway properties as the adapter sees them: a declared description and
 * a cached value. `ButtonProperty` is the one kind with its own behaviour:
 * it caches `value === 1` instead of the value it is given.
 */
module Properties {
  import opened JsValues

  datatype ValueType = BooleanType | NumberType | IntegerType | StringType | ObjectType

  /** The `type` and `readOnly` fields of a property description. */
  datatype Description = Description(valueType: ValueType, readOnly: bool)

  /** A property kind: a plain gateway property, or a `ButtonProperty`. */
  datatype PropertyKind = Plain(description: Description) | Button

  datatype Property = Property(kind: PropertyKind, value: JsValue)

  function DescriptionOf(kind: PropertyKind): Description {
    match kind
    case Plain(d) => d
    case Button => Description(BooleanType, true)
  }

  /** A freshly constructed `ButtonProperty`: boolean, read-only, no value yet. */
  function ButtonProperty(): (p: Property)
    ensures DescriptionOf(p.kind) == Description(BooleanType, true)
    ensures p.kind.Button? && p.value == Undefined
  {
    Property(Button, Undefined)
  }

  /**
   * The value `setCachedValueAndNotify(v)` stores: a button stores whether
   * `v` is strictly the number 1, any other property stores `v` itself.
   */
  function Converted(kind: PropertyKind, v: JsValue): (r: JsValue)
    ensures kind.Button? ==> r.Bool? && (r.b <==> v == Num(1.0))
    ensures kind.Plain? ==> r == v
  {
    match kind
    case Plain(_) => v
    case Button => Bool(v == Num(1.0))
  }

  /** `setCachedValueAndNotify(v)`: the kind stays, the value is replaced. */
  function SetCachedValue(p: Property, v: JsValue): (q: Property)
    ensures q.kind == p.kind && q.value == Converted(p.kind, v)
  {
    p.(value := Converted(p.kind, v))
  }

  /** Strict equality: the string "1" and the boolean true are both cached as false. */
  lemma ButtonIsStrict()
    ensures Converted(Button, Num(1.0)) == Bool(true)
    ensures Converted(Button, Str("1")) == Bool(false)
    ensures Converted(Button, Bool(true)) == Bool(false)
  {
  }

  /** A button's cached value is a boolean whatever it is given, and setting it twice is setting it once. */
  lemma ButtonCachesBoolean(p: Property, v: JsValue, w: JsValue)
    requires p.kind.Button?
    ensures SetCachedValue(p, v).value.Bool?
    ensures SetCachedValue(SetCachedValue(p, w), v) == SetCachedValue(p, v)
  {
  }
}
