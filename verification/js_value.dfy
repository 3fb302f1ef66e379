/**
 The slice of JavaScript value semantics that the invoice validator relies on:
 parsed-JSON values, truthiness (ECMA-262 ToBoolean), the `typeof` operator,
 `Array.isArray`, and reading a named property, which throws a TypeError when
 the receiver is `null` or `undefined`.

 Numbers are integers: a JSON request body carries no NaN, and the validator
 only ever asks whether a number is zero.
 */
module JsValue {

  /** A parsed request body. `Undefined` stands for an absent key. */
  datatype Value =
    | Null
    | Undefined
    | Bool(b: bool)
    | Num(n: int)
    | Str(s: string)
    | Arr(items: seq<Value>)
    | Obj(fields: map<string, Value>)

  /** The results of the `typeof` operator that a JSON value can produce. */
  datatype TypeTag = TUndefined | TObject | TBoolean | TNumber | TString

  /**
   The property names the validator reads. None of them is an own or an
   inherited property of a string, array, number or boolean, so on those
   receivers reading any of them yields `undefined`.
   */
  datatype Key = BuyerName | Date | List | Total | Id | Details | Quantity | Rate
  {
    function Name(): string {
      match this
      case BuyerName => "buyerName"
      case Date => "date"
      case List => "list"
      case Total => "total"
      case Id => "id"
      case Details => "details"
      case Quantity => "quantity"
      case Rate => "rate"
    }
  }

  /** The outcome of a property read: a value, or a thrown TypeError. */
  datatype Access = Got(value: Value) | Thrown

  /** `null` and `undefined`, the two values whose properties cannot be read. */
  predicate Nullish(v: Value) {
    v.Null? || v.Undefined?
  }

  /**
   ECMA-262 ToBoolean, restricted to JSON values: the falsy values are exactly
   null, undefined, false, 0 and "", so every array and object, `[]` and `{}`
   included, is truthy.
   */
  predicate Truthy(v: Value)
    ensures !Truthy(v) <==> v in {Null, Undefined, Bool(false), Num(0), Str("")}
  {
    match v
    case Null => false
    case Undefined => false
    case Bool(b) => b
    case Num(n) => n != 0
    case Str(s) => s != ""
    case Arr(_) => true
    case Obj(_) => true
  }

  /** The `typeof` operator; note that `typeof null` is "object". */
  function TypeOf(v: Value): (t: TypeTag)
    ensures t == TString <==> v.Str?
    ensures t == TNumber <==> v.Num?
    ensures t == TUndefined <==> v.Undefined?
  {
    match v
    case Null => TObject
    case Undefined => TUndefined
    case Bool(_) => TBoolean
    case Num(_) => TNumber
    case Str(_) => TString
    case Arr(_) => TObject
    case Obj(_) => TObject
  }

  /**
   `Array.isArray`. Among JSON values the arrays are exactly the truthy values
   with `typeof` "object" that are not objects: `typeof` alone cannot tell an
   array from an object or from null.
   */
  predicate IsArray(v: Value)
    ensures IsArray(v) <==> Truthy(v) && TypeOf(v) == TObject && !v.Obj?
  {
    v.Arr?
  }

  /** The entry of an object under `k`, or undefined when the key is absent. */
  function Lookup(m: map<string, Value>, k: string): Value {
    if k in m then m[k] else Undefined
  }

  /** `v[k]` on a receiver that is known not to be nullish. */
  function Prop(v: Value, k: Key): Value
    requires !Nullish(v)
  {
    match v
    case Obj(m) => Lookup(m, k.Name())
    case _ => Undefined
  }

  /** `v[k]` on any receiver: throws exactly when the receiver is nullish. */
  function Get(v: Value, k: Key): (r: Access)
    ensures r.Thrown? <==> Nullish(v)
    ensures r.Got? && !v.Obj? ==> r.value == Undefined
    ensures v.Obj? && k.Name() in v.fields ==> r == Got(v.fields[k.Name()])
    ensures v.Obj? && k.Name() !in v.fields ==> r == Got(Undefined)
  {
    if Nullish(v) then Thrown else Got(Prop(v, k))
  }
}
