/** The value box: a record holding one value under a reserved key, so that a
    boxed value can be told apart from a bare value of the same shape. */
module ValueBox {
  import opened JsValue

  /** The reserved key under which a box holds its value. */
  const BoxKey: string := "__Box_value"

  /** `box`: a new record whose only own key is the reserved one. Unboxing it
      gives back exactly the value that went in, whatever that value is. */
  function Box(value: Value): (b: Value)
    ensures b.Obj? && b.props.Keys == {BoxKey}
    ensures IsBox(b)
    ensures Unbox(b) == Normal(value)
  {
    Obj(map[BoxKey := value])
  }

  /** `unbox`: reads the reserved key. On a box this is the held value; on any
      other object it is `undefined`; on `null` or `undefined` the read throws. */
  function Unbox(b: Value): (r: Outcome)
    ensures IsBox(b) ==> r == Normal(b.props[BoxKey])
    ensures r.TypeError? <==> b.Null? || b.Undefined?
    ensures b.Obj? && !IsBox(b) ==> r == Normal(Undefined)
  {
    GetProperty(b, BoxKey)
  }

  /** `isBox`: a non-null value of type "object" that has the reserved key. */
  predicate IsBox(x: Value)
    ensures IsBox(x) <==> x.Obj? && BoxKey in x.props
  {
    TypeOf(x) == "object" && !x.Null? && HasProperty(x, BoxKey)
  }

  /** `unpack`: one box layer removed if there is one, the value itself otherwise. */
  function Unpack(x: Value): (r: Value)
    ensures IsBox(x) ==> Unbox(x) == Normal(r)
    ensures !IsBox(x) ==> r == x
  {
    if IsBox(x) then x.props[BoxKey] else x
  }

  /** Nothing that is `null` or not of type "object" is a box: no string,
      number, symbol or function, even a function carrying the reserved key. */
  lemma NonObjectIsNotBox(x: Value)
    requires x.Null? || TypeOf(x) != "object"
    ensures !IsBox(x)
  {
  }

  /** `unpack` strips exactly one layer, and a second `unpack` of a box of a
      non-box value changes nothing. */
  lemma UnpackStripsOneLayer(v: Value)
    ensures Unpack(Box(Box(v))) == Box(v)
    ensures !IsBox(v) ==> Unpack(Unpack(Box(v))) == Unpack(Box(v))
  {
  }
}
