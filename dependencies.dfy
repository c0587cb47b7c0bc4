/** Dependency-shape inference. Each field of a class's `injectTypes` mapping
    holds a descriptor, a bare token or a metadata record; the field's expected
    dependency is found by taking the record's token, resolving a reference
    box to the token its producer returns, taking the type that token stands
    for, and wrapping it as an array if `multi` is set, else as optional if
    `optional` is set. In TypeScript this is a computation on types; here it
    is a function on descriptors. */
module DependencyShape {
  import opened JsValue
  import opened Tokens
  import Decorators
  import RefBox

  /** A descriptor as written in an `injectTypes` mapping. */
  datatype Descriptor =
    | TokenDescriptor(token: Token)
    | MetaDescriptor(record: Decorators.MetaRecord)
  {
    /** The descriptor as a runtime value. */
    function ToValue(): Value
    {
      if MetaDescriptor? then record.ToValue() else token.ToValue()
    }
  }

  /** The type of one resolved dependency: the type a symbol or string token
      carries, or an instance of a class. */
  datatype Resolved = Carried(ty: TypeName) | InstanceOf(cls: TypeName)

  /** The expected value of one field: exactly one dependency, one or
      `undefined`, or an array of them. */
  datatype Shape = Single(resolved: Resolved) | Optional(resolved: Resolved) | Multi(resolved: Resolved)

  /** `GetToken`: a record's token, or the bare token itself; either way a
      bare token, never metadata. */
  function GetToken(d: Descriptor): (t: Token)
    ensures !Decorators.IsMetadata(t.ToValue())
    ensures d.TokenDescriptor? ==> t == d.token
    ensures d.MetaDescriptor? ==> t == d.record.token
  {
    Decorators.TokenIsNotMetadata(if d.MetaDescriptor? then d.record.token else d.token);
    if d.MetaDescriptor? then d.record.token else d.token
  }

  /** For a record, `GetToken` is the token its runtime object holds under
      `token`; for a bare token, it is the descriptor's runtime value itself. */
  lemma GetTokenMatchesRuntime(d: Descriptor)
    ensures d.MetaDescriptor? ==> GetToken(d).ToValue() == d.ToValue().props["token"]
    ensures d.TokenDescriptor? ==> GetToken(d).ToValue() == d.ToValue()
  {
  }

  /** `RefBox.Unpack` on token types: a deferred token resolves to the token
      its producer returns. This agrees with `RefBox.unpack` on the token's
      runtime value, and leaves a plain token as it is. */
  function ResolveToken(t: Token): (p: PlainToken)
    ensures RefBox.Unpack(t.ToValue()) == Normal(p.ToValue())
    ensures t.Plain? ==> p == t.plain
  {
    match t
    case Plain(p) => p
    case Deferred(f) => f()
  }

  /** `GetDependencyType`: a string or symbol token gives the type it carries,
      a class gives an instance of itself. */
  function GetDependencyType(p: PlainToken): (r: Resolved)
    ensures r.InstanceOf? <==> TypeOf(p.ToValue()) == "function"
    ensures r.Carried? <==> TypeOf(p.ToValue()) in {"string", "symbol"}
    ensures p.ClassToken? ==> r == InstanceOf(p.cls)
    ensures !p.ClassToken? ==> r == Carried(p.carried)
  {
    match p
    case StringToken(_, carried) => Carried(carried)
    case SymbolToken(_, carried) => Carried(carried)
    case ClassToken(cls, _) => InstanceOf(cls)
  }

  /** The expected value of the field a descriptor describes: an array when
      it is a record with `multi` set, else optional when it is a record with
      `optional` set, else a single value; `multi` is tested before
      `optional`, so it wins when both are set. */
  function FieldShape(d: Descriptor): (s: Shape)
    ensures s.resolved == GetDependencyType(ResolveToken(GetToken(d)))
    ensures s.Multi? <==> d.MetaDescriptor? && d.record.multi
    ensures s.Optional? <==> d.MetaDescriptor? && !d.record.multi && d.record.optional
  {
    var resolved := GetDependencyType(ResolveToken(GetToken(d)));
    if d.MetaDescriptor? && d.record.multi then Multi(resolved)
    else if d.MetaDescriptor? && d.record.optional then Optional(resolved)
    else Single(resolved)
  }

  /** `Dependencies`: the expected shape of every declared field, and of no
      other field. */
  function Dependencies(injectTypes: map<string, Descriptor>): (deps: map<string, Shape>)
    ensures deps.Keys == injectTypes.Keys
    ensures forall k | k in injectTypes :: deps[k].resolved == GetDependencyType(ResolveToken(GetToken(injectTypes[k])))
    ensures forall k | k in injectTypes ::
      deps[k].Multi? <==> injectTypes[k].MetaDescriptor? && injectTypes[k].record.multi
    ensures forall k | k in injectTypes ::
      deps[k].Optional? <==> injectTypes[k].MetaDescriptor? && !injectTypes[k].record.multi && injectTypes[k].record.optional
  {
    map k | k in injectTypes :: FieldShape(injectTypes[k])
  }

  /** Declaring one more field, or redeclaring one, gives that field its own
      shape and leaves the shape of every other field as it was. */
  lemma DeclaringAFieldAddsItsShape(injectTypes: map<string, Descriptor>, k: string, d: Descriptor)
    ensures Dependencies(injectTypes[k := d]) == Dependencies(injectTypes)[k := FieldShape(d)]
  {
  }

  /** The shape follows what the descriptor's runtime value shows: an array
      exactly when it is metadata carrying the `multi` key, optional exactly
      when it is metadata carrying `optional` and not `multi`. */
  lemma ShapeFollowsRuntimeKeys(d: Descriptor)
    ensures FieldShape(d).Multi? <==> Decorators.IsMetadata(d.ToValue()) && "multi" in d.ToValue().props
    ensures FieldShape(d).Optional? <==>
      Decorators.IsMetadata(d.ToValue()) && "multi" !in d.ToValue().props && "optional" in d.ToValue().props
  {
    if d.TokenDescriptor? {
      Decorators.TokenIsNotMetadata(d.token);
    }
  }

  /** A bare token, not wrapped in metadata, describes exactly one dependency. */
  lemma BareTokenIsSingle(t: Token)
    ensures FieldShape(TokenDescriptor(t)).Single?
    ensures FieldShape(TokenDescriptor(t)) == FieldShape(MetaDescriptor(Decorators.CreateMetadata(t)))
  {
  }

  /** The shape of a token after any sequence of decorator calls: an array
      if any call was `multi`, else optional if any was `optional`, else a
      single value; tags and names do not matter, and neither does order. */
  lemma ShapeOfDecorated(t: Token, ds: seq<Decorators.Decoration>)
    ensures var resolved := GetDependencyType(ResolveToken(t));
      FieldShape(MetaDescriptor(Decorators.DecorateAll(Decorators.CreateMetadata(t), ds)))
      == if Decorators.HasMulti(ds) then Multi(resolved)
         else if Decorators.HasOptional(ds) then Optional(resolved)
         else Single(resolved)
  {
    Decorators.FlagsAccumulate(Decorators.CreateMetadata(t), ds);
  }

  /** Two sequences of decorator calls made of the same calls, in any order
      and any number of repetitions, give a token the same shape. */
  lemma ShapeIgnoresOrder(t: Token, ds1: seq<Decorators.Decoration>, ds2: seq<Decorators.Decoration>)
    requires forall i | 0 <= i < |ds1| :: exists j | 0 <= j < |ds2| :: ds2[j] == ds1[i]
    requires forall j | 0 <= j < |ds2| :: exists i | 0 <= i < |ds1| :: ds1[i] == ds2[j]
    ensures FieldShape(MetaDescriptor(Decorators.DecorateAll(Decorators.CreateMetadata(t), ds1)))
         == FieldShape(MetaDescriptor(Decorators.DecorateAll(Decorators.CreateMetadata(t), ds2)))
  {
    ShapeOfDecorated(t, ds1);
    ShapeOfDecorated(t, ds2);
    assert Decorators.HasMulti(ds1) <==> Decorators.HasMulti(ds2);
    assert Decorators.HasOptional(ds1) <==> Decorators.HasOptional(ds2);
  }

  // The example service of the source: a string token for a logger, a symbol
  // token for a store reached through a reference box, and two classes.

  const LoggerToken: Token := Plain(StringToken("Logger4503599627370496", "Logger"))
  const StoreToken: PlainToken := SymbolToken(0, "Store")

  const LoggerField: Descriptor :=
    MetaDescriptor(Decorators.Decorate(Decorators.CreateMetadata(LoggerToken), Decorators.SetOptional))
  const LoggersField: Descriptor :=
    MetaDescriptor(Decorators.Decorate(Decorators.CreateMetadata(LoggerToken), Decorators.SetMulti))
  const StoreField: Descriptor := TokenDescriptor(Deferred(() => StoreToken))
  const ArrayBufferField: Descriptor := MetaDescriptor(Decorators.Decorate(
    Decorators.CreateMetadata(Plain(ClassToken("ArrayBuffer", TypeError))), Decorators.Tag("id", Str("data"))))
  const MapField: Descriptor := MetaDescriptor(Decorators.Decorate(
    Decorators.CreateMetadata(Deferred(() => ClassToken("Map", TypeError))), Decorators.Name("cities")))

  function MyServiceInjectTypes(): map<string, Descriptor>
  {
    map[
      "logger" := LoggerField,
      "loggers" := LoggersField,
      "store" := StoreField,
      "arraybuffer" := ArrayBufferField,
      "map" := MapField
    ]
  }

  /** The logger is optional: `optional` on a string token. */
  lemma LoggerFieldIsOptional()
    ensures FieldShape(LoggerField) == Optional(Carried("Logger"))
  {
  }

  /** The logger array: `multi` on the same string token. */
  lemma LoggersFieldIsMulti()
    ensures FieldShape(LoggersField) == Multi(Carried("Logger"))
  {
  }

  /** The store: a symbol token behind a reference box, resolved by calling
      the producer. */
  lemma StoreFieldIsSingle()
    ensures FieldShape(StoreField) == Single(Carried("Store"))
  {
  }

  /** A tag changes nothing about the shape of a class token. */
  lemma ArrayBufferFieldIsInstance()
    ensures FieldShape(ArrayBufferField) == Single(InstanceOf("ArrayBuffer"))
  {
  }

  /** A name changes nothing about the shape of a deferred class token. */
  lemma MapFieldIsInstance()
    ensures FieldShape(MapField) == Single(InstanceOf("Map"))
  {
  }

  /** The example service expects an optional logger, an array of loggers, a
      store, an `ArrayBuffer` instance and a `Map` instance, and nothing else. */
  lemma MyServiceDependencies()
    ensures Dependencies(MyServiceInjectTypes()) == map[
      "logger" := Optional(Carried("Logger")),
      "loggers" := Multi(Carried("Logger")),
      "store" := Single(Carried("Store")),
      "arraybuffer" := Single(InstanceOf("ArrayBuffer")),
      "map" := Single(InstanceOf("Map"))
    ]
  {
    var m0: map<string, Descriptor> := map[];
    var m1 := m0["logger" := LoggerField];
    var m2 := m1["loggers" := LoggersField];
    var m3 := m2["store" := StoreField];
    var m4 := m3["arraybuffer" := ArrayBufferField];
    var m5 := m4["map" := MapField];
    DeclaringAFieldAddsItsShape(m0, "logger", LoggerField);
    DeclaringAFieldAddsItsShape(m1, "loggers", LoggersField);
    DeclaringAFieldAddsItsShape(m2, "store", StoreField);
    DeclaringAFieldAddsItsShape(m3, "arraybuffer", ArrayBufferField);
    DeclaringAFieldAddsItsShape(m4, "map", MapField);
    LoggerFieldIsOptional();
    LoggersFieldIsMulti();
    StoreFieldIsSingle();
    ArrayBufferFieldIsInstance();
    MapFieldIsInstance();
  }
}
