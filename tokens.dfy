/** Dependency tokens: a symbol, a string or a class stands for a dependency,
    and a reference box may defer a token until it is read. String and symbol
    tokens carry, at the type level only, the type of the dependency they name. */
module Tokens {
  import opened JsValue
  import RefBox
  import ValueBox

  /** The name of a type, standing for a TypeScript type. */
  type TypeName = string

  /** A token that is not deferred. The `carried` type of a symbol or string
      token exists only at the type level: it has no runtime trace. */
  datatype PlainToken =
    | SymbolToken(id: nat, carried: TypeName)
    | StringToken(text: string, carried: TypeName)
    | ClassToken(cls: TypeName, callWithoutNew: Outcome)
  {
    /** The token as a runtime value: a symbol, a string, or the constructor
        itself, a function whose call without `new` completes with
        `callWithoutNew` (a `TypeError` for a `class` declaration, `Map` or
        `ArrayBuffer`; a value for `Array`, `Object`, `Date` or `Error`). */
    function ToValue(): (v: Value)
      ensures SymbolToken? ==> TypeOf(v) == "symbol"
      ensures StringToken? ==> TypeOf(v) == "string"
      ensures ClassToken? ==> TypeOf(v) == "function" && !RefBox.IsRefBox(v)
    {
      match this
      case SymbolToken(id, _) => Sym(id)
      case StringToken(text, _) => Str(text)
      case ClassToken(cls, outcome) => Func(map["name" := Str(cls)], () => outcome)
    }
  }

  /** A token, possibly deferred behind a reference box whose producer
      returns the plain token. */
  datatype Token = Plain(plain: PlainToken) | Deferred(ref: () -> PlainToken)
  {
    /** The token as a runtime value; a deferred token is a reference box. */
    function ToValue(): (v: Value)
      ensures Plain? ==> !RefBox.IsRefBox(v)
      ensures Deferred? ==> RefBox.IsRefBox(v) && RefBox.Unpack(v) == Normal(ref().ToValue())
    {
      match this
      case Plain(p) => p.ToValue()
      case Deferred(f) => RefBox.Box(Func(map[], () => Normal(f().ToValue())))
    }
  }

  /** `isRefBox` looks only at `typeof`, so a constructor boxed directly
      passes it, and unpacking it calls the constructor without `new`: for a
      constructor that demands `new`, that throws a `TypeError`. */
  lemma BoxedClassIsRefBox(cls: TypeName, callWithoutNew: Outcome)
    ensures RefBox.IsRefBox(ValueBox.Box(ClassToken(cls, callWithoutNew).ToValue()))
    ensures RefBox.Unpack(ValueBox.Box(ClassToken(cls, callWithoutNew).ToValue())) == callWithoutNew
  {
  }
}
