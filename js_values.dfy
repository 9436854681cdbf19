/**
 * JavaScript values as the frontend sees them: a property may be missing or
 * hold `undefined`, `null` or a defined value. Plain objects used as queries
 * are maps from property names to such values; object spread is map union.
 */
module JsValues {

  /** `undefined`, `null`, or a defined value of type T. */
  datatype Nullable<+T> = Undefined | Null | Defined(value: T)

  /** The scalar values a query property holds: a string or a number. */
  datatype Scalar = Str(s: string) | Num(n: int)

  type JsVal = Nullable<Scalar>

  /** A plain object such as `{ customerId: 42, page: 0 }`. */
  type Query = map<string, JsVal>

  const PageKey := "page"
  const SizeKey := "size"
  const CustomerIdKey := "customerId"
  const ProductIdKey := "productId"
  const InteractionTypeKey := "interactionType"
  const StartDateKey := "startDate"
  const EndDateKey := "endDate"

  function NumVal(n: int): JsVal { Defined(Num(n)) }

  function StrVal(s: string): JsVal { Defined(Str(s)) }

  predicate Nullish<T>(v: Nullable<T>) { v.Undefined? || v.Null? }

  /** `a ?? b`: `a` unless it is `undefined` or `null`. */
  function Coalesce<T>(a: Nullable<T>, b: Nullable<T>): (r: Nullable<T>)
    ensures !Nullish(a) ==> r == a
    ensures Nullish(a) ==> r == b
  {
    if a.Defined? then a else b
  }

  /** Property access `obj[key]`: a missing property reads as `undefined`. */
  function Get(obj: Query, key: string): (v: JsVal)
    ensures key !in obj ==> v == Undefined
    ensures key in obj ==> v == obj[key]
  {
    if key in obj then obj[key] else Undefined
  }
}
