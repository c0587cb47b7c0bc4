/** The reference box: a value box whose payload is a producer, a function
    called with no arguments. Unboxing calls the producer and gives its result,
    which lets a declaration refer to a token that is defined later. */
module RefBox {
  import opened JsValue
  import ValueBox

  /** `box`: the producer itself goes into a value box. Reading the value box
      gives the producer back; unboxing as a reference box calls it. */
  function Box(ref: Value): (b: Value)
    requires ref.Func?
    ensures ValueBox.Unbox(b) == Normal(ref)
    ensures IsRefBox(b)
    ensures Unbox(b) == ref.call()
  {
    ValueBox.Box(ref)
  }

  /** `unbox`: the payload, called with no arguments. A read that throws, or a
      payload that is not a function, ends in a `TypeError`. */
  function Unbox(b: Value): (r: Outcome)
    ensures IsRefBox(b) ==> r == ValueBox.Unpack(b).call()
    ensures b.Null? || b.Undefined? ==> r.TypeError?
    ensures ValueBox.IsBox(b) && !IsRefBox(b) ==> r.TypeError?
  {
    match ValueBox.Unbox(b)
    case TypeError => TypeError
    case Normal(f) => Call(f)
  }

  /** `isRefBox`: a value box whose payload has type "function". Every
      reference box is thus a value box. */
  predicate IsRefBox(x: Value)
    ensures IsRefBox(x) <==> ValueBox.IsBox(x) && ValueBox.Unpack(x).Func?
  {
    ValueBox.IsBox(x) && TypeOf(ValueBox.Unbox(x).value) == "function"
  }

  /** `unpack`: the producer's result for a reference box, the value itself
      (completing normally) for anything else. */
  function Unpack(x: Value): (r: Outcome)
    ensures IsRefBox(x) ==> r == ValueBox.Unpack(x).call()
    ensures !IsRefBox(x) ==> r == Normal(x)
  {
    if IsRefBox(x) then Unbox(x) else Normal(x)
  }

  /** A value box whose payload is not a function is not a reference box. */
  lemma BoxOfNonFunctionIsNotRefBox(v: Value)
    requires !v.Func?
    ensures !IsRefBox(ValueBox.Box(v))
  {
  }

  /** `unpack` of a reference box built by `box` is the producer's result. */
  lemma UnpackBox(ref: Value)
    requires ref.Func?
    ensures Unpack(Box(ref)) == ref.call()
  {
  }
}
