/**
 * JSON values as the request-body parser produces them, and the few
 * JavaScript operators the games router applies to them: property access
 * (`o.key`, where a missing key reads as `undefined`), truthiness (`!x`),
 * `typeof x === 'number'` and strict equality (`===`).
 */
module Json {

  datatype Option<T> = None | Some(value: T)

  /** A JSON value. JSON has no NaN or infinity, so a number is a real. */
  datatype Value =
    | Null
    | Bool(b: bool)
    | Num(x: real)
    | Str(s: string)
    | Arr(elems: seq<Value>)
    | Object(fields: map<string, Value>)

  /** A plain JavaScript object: a request body, a game record, a stats record. */
  type Obj = map<string, Value>

  /** `o.key`; `None` stands for `undefined`. */
  function Get(o: Obj, key: string): (r: Option<Value>)
    ensures r.Some? <==> key in o
    ensures key in o ==> r.value == o[key]
  {
    if key in o then Some(o[key]) else None
  }

  /** `!!v`: `undefined`, `null`, `false`, `0` and `""` are falsy, everything else truthy. */
  function Truthy(v: Option<Value>): (b: bool)
    ensures b ==> v.Some? && v.value != Null
    ensures v.Some? && (v.value.Arr? || v.value.Object?) ==> b
    ensures v.Some? && v.value.Num? ==> (b <==> v.value.x != 0.0)
    ensures v.Some? && v.value.Str? ==> (b <==> |v.value.s| > 0)
    ensures v.Some? && v.value.Bool? ==> (b <==> v.value.b)
  {
    match v
    case None => false
    case Some(Null) => false
    case Some(Bool(b)) => b
    case Some(Num(x)) => x != 0.0
    case Some(Str(s)) => s != ""
    case Some(Arr(_)) => true
    case Some(Object(_)) => true
  }

  /** `typeof v === 'number'` */
  function IsNumber(v: Option<Value>): (b: bool)
    ensures b ==> v.Some? && IsPrimitive(v.value)
    ensures v.Some? && (v.value.Str? || v.value.Bool? || v.value.Null?) ==> !b
    ensures v.Some? && v.value.Num? ==> b
  {
    v.Some? && v.value.Num?
  }

  /** A primitive: compared by value under `===`. */
  predicate IsPrimitive(v: Value)
  {
    v.Null? || v.Bool? || v.Num? || v.Str?
  }

  /**
   * `a === b` where `a` and `b` come from different parsed documents (a stored
   * record and a fresh request body, or two stored records). Primitives compare
   * by value; arrays and objects compare by reference, and two separately parsed
   * documents never share one, so they are never strictly equal.
   */
  function StrictEquals(a: Option<Value>, b: Option<Value>): (r: bool)
    ensures r ==> a == b
    ensures r && a.Some? ==> IsPrimitive(a.value)
    ensures a == b && (a.None? || IsPrimitive(a.value)) ==> r
  {
    match (a, b)
    case (None, None) => true
    case (Some(x), Some(y)) => IsPrimitive(x) && x == y
    case _ => false
  }

  /** Strict equality is symmetric, implies structural equality, and never holds of an array or object. */
  lemma StrictEqualsProperties(a: Option<Value>, b: Option<Value>)
    ensures StrictEquals(a, b) <==> StrictEquals(b, a)
    ensures StrictEquals(a, b) ==> a == b
    ensures a.Some? && !IsPrimitive(a.value) ==> !StrictEquals(a, b)
  {
  }
}
