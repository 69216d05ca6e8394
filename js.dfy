/** JavaScript values and exceptions as the library observes them. */
module Js {
  import opened Leaflet

  datatype Option<+T> = None | Some(value: T)

  /** The exceptions the library throws or lets escape. */
  datatype Error =
    | TypeError(message: string)
    | RangeError(message: string)
    | PlainError(message: string)
    /** Whatever a called function throws, which the library lets escape. */
    | Raised(thrower: Value)

  datatype Result<+T> = Ok(value: T) | Err(error: Error)

  datatype Outcome = Pass | Fail(error: Error)

  /** A JavaScript value. `Fn` stands for a function object (identified, its
      behaviour supplied separately where it is called), `Obj` for a plain
      object with its own properties, `HostMap` for a Leaflet map. */
  datatype Value =
    | Undefined
    | Null
    | Bool(b: bool)
    | Num(n: real)
    | NaN
    | Str(s: string)
    | Fn(id: nat)
    | Obj(props: map<string, Value>)
    | HostMap(hostMap: LeafletMap)

  /** JavaScript truthiness (`if (v)`). */
  predicate Truthy(v: Value) {
    match v
    case Undefined => false
    case Null => false
    case Bool(b) => b
    case Num(n) => n != 0.0
    case NaN => false
    case Str(s) => s != ""
    case _ => true
  }

  /** `typeof v === 'function'` */
  predicate IsFunction(v: Value) {
    v.Fn?
  }

  /** Reading `v[key]`: a TypeError (None) on `undefined` and `null`; an
      object's own property or `undefined`; `undefined` on every other value
      (the keys read here, r, g and b, name no property of a primitive). */
  function Member(v: Value, key: string): (r: Option<Value>)
    ensures r.None? <==> v.Undefined? || v.Null?
    ensures v.Obj? && key in v.props ==> r == Some(v.props[key])
  {
    match v
    case Undefined => None
    case Null => None
    case Obj(props) => Some(if key in props then props[key] else Undefined)
    case _ => Some(Undefined)
  }

  /** `Num` for a number, `NaN` for `undefined` read where a number is
      expected (arithmetic on `undefined` gives NaN). */
  function NumberOr(v: Option<real>): Value {
    match v
    case Some(n) => Num(n)
    case None => NaN
  }

  function DigitChar(d: nat): char
    requires d < 10
  {
    "0123456789"[d]
  }

  /** Decimal text of a natural number. */
  function NatText(n: nat): (s: string)
    ensures |s| >= 1
    decreases n
  {
    if n < 10 then [DigitChar(n)] else NatText(n / 10) + [DigitChar(n % 10)]
  }

  /** The text `String(v)` gives, where the model knows it: None for a
      non-integral number and for a function (their text is not modelled). */
  function KeyText(v: Value): Option<string> {
    match v
    case Undefined => Some("undefined")
    case Null => Some("null")
    case Bool(b) => Some(if b then "true" else "false")
    case Num(n) =>
      if n.Floor as real == n then
        Some(if n < 0.0 then "-" + NatText(-n.Floor) else NatText(n.Floor))
      else None
    case NaN => Some("NaN")
    case Str(s) => Some(s)
    case Fn(_) => None
    case Obj(_) => Some("[object Object]")
    case HostMap(_) => Some("[object Object]")
  }
}
