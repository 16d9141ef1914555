/** The dynamically typed values that flow through the backend: provider
    payloads, stage inputs and form values.  Only the parts of JavaScript's
    semantics that the orchestrator relies on are modelled: truthiness,
    `String(v)` and property lookup. */
module JsValues {
  import opened Results

  /** How `String(obj)` behaves for an object: the object has no callable
      `toString` at all (created with a null prototype), inherits
      `Object.prototype.toString` (every plain or JSON-parsed object), or
      carries its own `toString` producing `text`. */
  datatype ToStringMethod = Missing | Inherited | Custom(text: string)

  /** A JavaScript value.  Numbers are exact reals (NaN, the infinities and
      -0 are not modelled). */
  datatype JsValue =
    | Undef
    | Null
    | Bool(b: bool)
    | Num(n: real)
    | Str(s: string)
    | Arr(items: seq<JsValue>)
    | Obj(fields: map<string, JsValue>, toStr: ToStringMethod)

  /** JavaScript's rendering of a finite number (`Number::toString`), which
      this model does not compute. */
  type NumberFormat = real -> string

  const ObjectTag: string := "[object Object]"
  const CannotConvert: string := "Cannot convert object to primitive value"

  /** A plain object literal such as `{ image, model }`. */
  function PlainObject(fields: map<string, JsValue>): (v: JsValue)
    ensures v.Obj? && v.fields == fields && v.toStr == Inherited
  {
    Obj(fields, Inherited)
  }

  /** JavaScript truthiness: the falsy values are exactly `undefined`,
      `null`, `false`, `0` and the empty string (NaN and -0 are not
      modelled). */
  predicate Truthy(v: JsValue)
    ensures Truthy(v) <==> !(v == Undef || v == Null || v == Bool(false) || v == Num(0.0) || v == Str(""))
  {
    match v
    case Undef => false
    case Null => false
    case Bool(b) => b
    case Num(n) => n != 0.0
    case Str(s) => s != ""
    case Arr(_) => true
    case Obj(_, _) => true
  }

  /** `obj[key]` for an object: a missing key reads as `undefined`. */
  function Get(fields: map<string, JsValue>, key: string): (v: JsValue)
    ensures key !in fields ==> v == Undef
    ensures key in fields ==> v == fields[key]
  {
    if key in fields then fields[key] else Undef
  }

  /** The object `m` has the key `k`, holding `v`. */
  predicate Maps(m: map<string, JsValue>, k: string, v: JsValue)
  {
    k in m && m[k] == v
  }

  /** `arr[0]`: `undefined` for an empty array. */
  function First(items: seq<JsValue>): (v: JsValue)
    ensures |items| == 0 ==> v == Undef
    ensures |items| > 0 ==> v == items[0]
  {
    if |items| == 0 then Undef else items[0]
  }

  /** `String(v)`.  An array renders as its elements joined by ",", with
      null and undefined elements rendered empty; an object without any
      `toString` throws a TypeError. */
  function ToString(v: JsValue, numText: NumberFormat): (r: Result<string>)
    ensures v.Str? ==> r == Ok(v.s)
    ensures !v.Arr? && !v.Obj? ==> r.Ok?
    ensures v.Obj? ==> (r.Err? <==> v.toStr.Missing?)
    ensures r.Err? ==> r == Err(CannotConvert)
    decreases v, 1
  {
    match v
    case Undef => Ok("undefined")
    case Null => Ok("null")
    case Bool(b) => Ok(if b then "true" else "false")
    case Num(n) => Ok(numText(n))
    case Str(s) => Ok(s)
    case Arr(items) => JoinItems(items, numText)
    case Obj(_, m) =>
      match m
      case Missing => Err(CannotConvert)
      case Inherited => Ok(ObjectTag)
      case Custom(t) => Ok(t)
  }

  /** How `Array.prototype.join` renders one element. */
  function JoinElement(v: JsValue, numText: NumberFormat): (r: Result<string>)
    ensures v.Undef? || v.Null? ==> r == Ok("")
    ensures r.Err? ==> r == Err(CannotConvert)
    decreases v, 2
  {
    if v.Undef? || v.Null? then Ok("") else ToString(v, numText)
  }

  /** `items.join(",")`, converting left to right so that the first
      element that cannot be converted decides the error. */
  function JoinItems(items: seq<JsValue>, numText: NumberFormat): (r: Result<string>)
    ensures |items| == 0 ==> r == Ok("")
    ensures |items| == 1 ==> r == JoinElement(items[0], numText)
    ensures r.Ok? <==> forall i :: 0 <= i < |items| ==> JoinElement(items[i], numText).Ok?
    ensures r.Err? ==> r == Err(CannotConvert)
    decreases items
  {
    if |items| == 0 then Ok("")
    else
      match JoinElement(items[0], numText)
      case Err(m) => Err(m)
      case Ok(head) =>
        if |items| == 1 then Ok(head)
        else
          match JoinItems(items[1..], numText)
          case Err(m) => Err(m)
          case Ok(tail) => Ok(head + "," + tail)
  }
}
