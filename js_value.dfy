/** A small universe of JavaScript runtime values, enough to state what the
    box, reference-box and metadata helpers observe of their arguments:
    the result of `typeof`, the `in` operator and property reads. */
module JsValue {

  /** A JavaScript value. Objects and functions carry their own properties;
      a function also carries what a call with no arguments completes with.
      Numbers are idealised as integers. */
  datatype Value =
    | Undefined
    | Null
    | Bool(b: bool)
    | Num(n: int)
    | Str(s: string)
    | Sym(id: nat)
    | Func(props: map<string, Value>, call: () -> Outcome)
    | Obj(props: map<string, Value>)

  /** How an evaluation completes: with a value, or by throwing. The helpers
      themselves only throw a `TypeError`, so the one throwing completion has
      that name; it also stands for any other exception a producer throws,
      such as the `ReferenceError` of a constant read before it is
      initialised. */
  datatype Outcome = Normal(value: Value) | TypeError

  /** The `typeof` operator. */
  function TypeOf(v: Value): (t: string)
    ensures t == "object" <==> v.Null? || v.Obj?
    ensures t == "function" <==> v.Func?
  {
    match v
    case Undefined => "undefined"
    case Null => "object"
    case Bool(_) => "boolean"
    case Num(_) => "number"
    case Str(_) => "string"
    case Sym(_) => "symbol"
    case Func(_, _) => "function"
    case Obj(_) => "object"
  }

  /** The `in` operator, `key in v`, on an object or a function (on anything
      else JavaScript throws, which no caller here lets happen). */
  function HasProperty(v: Value, key: string): bool
    requires v.Obj? || v.Func?
  {
    key in v.props
  }

  /** A property read `v[key]`: throws on `null` and `undefined`, yields
      `undefined` for a missing key. */
  function GetProperty(v: Value, key: string): (r: Outcome)
    ensures r.TypeError? <==> v.Null? || v.Undefined?
    ensures (v.Obj? || v.Func?) && key in v.props ==> r == Normal(v.props[key])
    ensures (v.Obj? || v.Func?) && key !in v.props ==> r == Normal(Undefined)
  {
    match v
    case Undefined => TypeError
    case Null => TypeError
    case Func(props, _) => Normal(if key in props then props[key] else Undefined)
    case Obj(props) => Normal(if key in props then props[key] else Undefined)
    case _ => Normal(Undefined)
  }

  /** A call `v()` with no arguments: a non-function throws a `TypeError`. */
  function Call(v: Value): (r: Outcome)
    ensures !v.Func? ==> r.TypeError?
  {
    if v.Func? then v.call() else TypeError
  }
}
