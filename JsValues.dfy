/** The JavaScript values that cross the adapter's boundary: the `state` field of an
    inbound signal and the values the hardware client's promises resolve to. */
module JsValues {

  datatype Option<+T> = None | Some(value: T)

  /** A JavaScript value. Numbers are modelled as integers only. */
  datatype JsValue =
    | Undefined
    | Null
    | Bool(b: bool)
    | Num(n: int)
    | Str(s: string)
    | Obj(props: map<string, JsValue>)

  /** JavaScript's ToBoolean: what `v ? a : b` tests. The falsy values are exactly
      undefined, null, false, 0 and the empty string. */
  predicate Truthy(v: JsValue)
    ensures !Truthy(v) <==> v in {Undefined, Null, Bool(false), Num(0), Str("")}
  {
    match v
    case Undefined => false
    case Null => false
    case Bool(b) => b
    case Num(n) => n != 0
    case Str(s) => s != ""
    case Obj(_) => true
  }

  /** The property read `v.key`: None when the read throws a TypeError (the receiver is
      undefined or null), undefined for a property that is absent, and for the
      properties of primitive values. */
  function Property(v: JsValue, key: string): (r: Option<JsValue>)
    ensures r.None? <==> v == Undefined || v == Null
    ensures v.Obj? ==> r == Some(if key in v.props then v.props[key] else Undefined)
    ensures !v.Obj? && v != Undefined && v != Null ==> r == Some(Undefined)
  {
    match v
    case Undefined => None
    case Null => None
    case Obj(props) => if key in props then Some(props[key]) else Some(Undefined)
    case _ => Some(Undefined)
  }
}
