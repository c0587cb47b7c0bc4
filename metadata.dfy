/** Metadata records and the four decorators `tagged`, `named`, `multi` and
    `optional`. A record pairs a token with a tag map, an optional name and two
    flags; it is marked by a reserved key so that it can be told apart from a
    bare token at runtime. A decorator applied to a record changes that record
    in place and returns it; applied to a bare token it creates a new record. */
module Decorators {
  import opened JsValue
  import opened Tokens

  /** The reserved key marking a metadata record. */
  const MetadataTag: string := "__Metadata"

  datatype Option<T> = None | Some(value: T)

  /** The contents of a metadata record. The flags `multi` and `optional` are
      only ever absent or `true`, so absence is written `false`. */
  datatype MetaRecord = MetaRecord(
    token: Token,
    tags: map<string, Value>,
    name: Option<string>,
    multi: bool,
    optional: bool)
  {
    /** The record as a runtime object: the reserved key set to `true`, the
        token, the tag map, and each of `name`, `multi` and `optional` only
        when it is set. */
    function ToValue(): (v: Value)
      ensures IsMetadata(v)
      ensures v.Obj? && "token" in v.props && "tags" in v.props
      ensures v.props["token"] == token.ToValue() && v.props["tags"] == Obj(tags)
      ensures "name" in v.props <==> name.Some?
      ensures "multi" in v.props <==> multi
      ensures "optional" in v.props <==> optional
    {
      Obj(map[MetadataTag := Bool(true), "token" := token.ToValue(), "tags" := Obj(tags)]
        + (if name.Some? then map["name" := Str(name.value)] else map[])
        + (if multi then map["multi" := Bool(true)] else map[])
        + (if optional then map["optional" := Bool(true)] else map[]))
    }
  }

  /** `isMetadata`: a non-null value of type "object" carrying the reserved key. */
  predicate IsMetadata(v: Value)
    ensures IsMetadata(v) <==> v.Obj? && MetadataTag in v.props
  {
    TypeOf(v) == "object" && !v.Null? && HasProperty(v, MetadataTag)
  }

  /** No bare token is mistaken for metadata: symbols and strings are not
      objects, classes have type "function", and a reference box has only the
      box key. */
  lemma TokenIsNotMetadata(t: Token)
    ensures !IsMetadata(t.ToValue())
  {
  }

  /** `createMetadata`: a record for the token with no tags, no name and
      neither flag; it is recognised as metadata. */
  function CreateMetadata(token: Token): (r: MetaRecord)
    ensures r.token == token && r.tags == map[]
    ensures r.name.None? && !r.multi && !r.optional
    ensures IsMetadata(r.ToValue())
  {
    MetaRecord(token, map[], None, false, false)
  }

  /** One decoration, as applied by one decorator call. */
  datatype Decoration =
    | Tag(key: string, value: Value)
    | Name(name: string)
    | SetMulti
    | SetOptional

  /** The change one decorator makes to a record: `tagged` sets one key of the
      tag map, `named` overwrites the name, `multi` and `optional` set their
      flag. The token and every field the decoration does not target are left
      as they were. */
  function Decorate(r: MetaRecord, d: Decoration): (r': MetaRecord)
    ensures r'.token == r.token
    ensures d.Tag? ==> d.key in r'.tags && r'.tags[d.key] == d.value
    ensures d.Tag? ==> r'.tags.Keys == r.tags.Keys + {d.key}
    ensures d.Tag? ==> forall k | k in r.tags && k != d.key :: r'.tags[k] == r.tags[k]
    ensures !d.Tag? ==> r'.tags == r.tags
    ensures d.Name? ==> r'.name == Some(d.name)
    ensures !d.Name? ==> r'.name == r.name
    ensures r'.multi == (r.multi || d.SetMulti?)
    ensures r'.optional == (r.optional || d.SetOptional?)
  {
    match d
    case Tag(key, value) => r.(tags := r.tags[key := value])
    case Name(name) => r.(name := Some(name))
    case SetMulti => r.(multi := true)
    case SetOptional => r.(optional := true)
  }

  /** A sequence of decorator calls, the first one applied first. */
  function DecorateAll(r: MetaRecord, ds: seq<Decoration>): (r': MetaRecord)
    ensures r'.token == r.token
    decreases |ds|
  {
    if ds == [] then r else Decorate(DecorateAll(r, ds[..|ds| - 1]), ds[|ds| - 1])
  }

  predicate HasMulti(ds: seq<Decoration>)
  {
    exists i | 0 <= i < |ds| :: ds[i].SetMulti?
  }

  predicate HasOptional(ds: seq<Decoration>)
  {
    exists i | 0 <= i < |ds| :: ds[i].SetOptional?
  }

  /** After any sequence of decorations, a flag is set exactly when it was set
      before or some decoration set it. */
  lemma {:induction false} FlagsAccumulate(r: MetaRecord, ds: seq<Decoration>)
    ensures DecorateAll(r, ds).multi <==> r.multi || HasMulti(ds)
    ensures DecorateAll(r, ds).optional <==> r.optional || HasOptional(ds)
  {
    if ds != [] {
      var front := ds[..|ds| - 1];
      FlagsAccumulate(r, front);
      assert forall i | 0 <= i < |front| :: front[i] == ds[i];
      assert HasMulti(ds) <==> HasMulti(front) || ds[|ds| - 1].SetMulti?;
      assert HasOptional(ds) <==> HasOptional(front) || ds[|ds| - 1].SetOptional?;
    }
  }

  /** Tags accumulate: the last `tagged` call for a key decides its value,
      whatever else was applied after it. */
  lemma {:induction false} LastTagWins(r: MetaRecord, ds: seq<Decoration>, i: nat)
    requires i < |ds| && ds[i].Tag?
    requires forall j | i < j < |ds| :: !(ds[j].Tag? && ds[j].key == ds[i].key)
    ensures ds[i].key in DecorateAll(r, ds).tags
    ensures DecorateAll(r, ds).tags[ds[i].key] == ds[i].value
  {
    if i < |ds| - 1 {
      LastTagWins(r, ds[..|ds| - 1], i);
    }
  }

  /** A key that no `tagged` call mentions keeps its presence and value. */
  lemma {:induction false} UntaggedKeyKept(r: MetaRecord, ds: seq<Decoration>, k: string)
    requires forall j | 0 <= j < |ds| :: !(ds[j].Tag? && ds[j].key == k)
    ensures k in DecorateAll(r, ds).tags <==> k in r.tags
    ensures k in r.tags ==> DecorateAll(r, ds).tags[k] == r.tags[k]
  {
    if ds != [] {
      UntaggedKeyKept(r, ds[..|ds| - 1], k);
    }
  }

  /** The last `named` call decides the name. */
  lemma {:induction false} LastNameWins(r: MetaRecord, ds: seq<Decoration>, i: nat)
    requires i < |ds| && ds[i].Name?
    requires forall j | i < j < |ds| :: !ds[j].Name?
    ensures DecorateAll(r, ds).name == Some(ds[i].name)
  {
    if i < |ds| - 1 {
      LastNameWins(r, ds[..|ds| - 1], i);
    }
  }

  /** Without a `named` call the name stays as it was. */
  lemma {:induction false} NameKeptWithoutNamed(r: MetaRecord, ds: seq<Decoration>)
    requires forall j | 0 <= j < |ds| :: !ds[j].Name?
    ensures DecorateAll(r, ds).name == r.name
  {
    if ds != [] {
      NameKeptWithoutNamed(r, ds[..|ds| - 1]);
    }
  }

  /** Two decorations that do not write the same tag key or both the name. */
  predicate Independent(a: Decoration, b: Decoration)
  {
    !(a.Tag? && b.Tag? && a.key == b.key) && !(a.Name? && b.Name?)
  }

  /** Decorations on different fields commute: the record ends up the same,
      field for field, in either order. */
  lemma DecorationsCommute(r: MetaRecord, a: Decoration, b: Decoration)
    requires Independent(a, b)
    ensures Decorate(Decorate(r, a), b) == Decorate(Decorate(r, b), a)
  {
    if a.Tag? && b.Tag? {
      assert r.tags[a.key := a.value][b.key := b.value] == r.tags[b.key := b.value][a.key := a.value];
    }
  }

  /** `multi` and `optional` are idempotent. */
  lemma FlagsIdempotent(r: MetaRecord)
    ensures Decorate(Decorate(r, SetMulti), SetMulti) == Decorate(r, SetMulti)
    ensures Decorate(Decorate(r, SetOptional), SetOptional) == Decorate(r, SetOptional)
  {
  }

  /** A metadata record as a mutable object. */
  class Metadata {
    const token: Token
    var tags: map<string, Value>
    var name: Option<string>
    var multi: bool
    var optional: bool

    function Record(): MetaRecord
      reads this
    {
      MetaRecord(token, tags, name, multi, optional)
    }

    /** `createMetadata`: a new record around the token, as `CreateMetadata` describes. */
    constructor (token: Token)
      ensures Record() == CreateMetadata(token)
    {
      this.token := token;
      tags := map[];
      name := None;
      multi := false;
      optional := false;
    }
  }

  /** What a decorator is applied to: a bare token or an existing record. */
  datatype TokenOrMeta = Bare(token: Token) | Meta(meta: Metadata)
  {
    function Footprint(): set<object>
    {
      if Meta? then {meta} else {}
    }

    /** The argument as a runtime value. */
    function View(): Value
      reads Footprint()
    {
      if Bare? then token.ToValue() else meta.Record().ToValue()
    }

    /** The record a decorator starts from: the existing one, or a new one
        around the bare token. */
    function Start(): MetaRecord
      reads Footprint()
    {
      if Bare? then CreateMetadata(token) else meta.Record()
    }
  }

  /** The runtime test `isMetadata` tells records and bare tokens apart. */
  lemma ViewDiscriminates(x: TokenOrMeta)
    ensures IsMetadata(x.View()) <==> x.Meta?
  {
    if x.Bare? {
      TokenIsNotMetadata(x.token);
    }
  }

  /** `tagged(key, value)` applied to a token or record. */
  method Tagged(key: string, value: Value, tokenOrMeta: TokenOrMeta) returns (m: Metadata)
    modifies tokenOrMeta.Footprint()
    ensures tokenOrMeta.Meta? ==> m == tokenOrMeta.meta
    ensures tokenOrMeta.Bare? ==> fresh(m)
    ensures m.Record() == Decorate(old(tokenOrMeta.Start()), Tag(key, value))
  {
    ViewDiscriminates(tokenOrMeta);
    if IsMetadata(tokenOrMeta.View()) {
      m := tokenOrMeta.meta;
      m.tags := m.tags[key := value];
      return;
    }
    m := new Metadata(tokenOrMeta.token);
    m.tags := m.tags[key := value];
  }

  /** `named(name)` applied to a token or record. */
  method Named(name: string, tokenOrMeta: TokenOrMeta) returns (m: Metadata)
    modifies tokenOrMeta.Footprint()
    ensures tokenOrMeta.Meta? ==> m == tokenOrMeta.meta
    ensures tokenOrMeta.Bare? ==> fresh(m)
    ensures m.Record() == Decorate(old(tokenOrMeta.Start()), Name(name))
  {
    ViewDiscriminates(tokenOrMeta);
    if IsMetadata(tokenOrMeta.View()) {
      m := tokenOrMeta.meta;
      m.name := Some(name);
      return;
    }
    m := new Metadata(tokenOrMeta.token);
    m.name := Some(name);
  }

  /** `multi` applied to a token or record. */
  method Multi(tokenOrMeta: TokenOrMeta) returns (m: Metadata)
    modifies tokenOrMeta.Footprint()
    ensures tokenOrMeta.Meta? ==> m == tokenOrMeta.meta
    ensures tokenOrMeta.Bare? ==> fresh(m)
    ensures m.Record() == Decorate(old(tokenOrMeta.Start()), SetMulti)
  {
    ViewDiscriminates(tokenOrMeta);
    if IsMetadata(tokenOrMeta.View()) {
      m := tokenOrMeta.meta;
      m.multi := true;
      return;
    }
    m := new Metadata(tokenOrMeta.token);
    m.multi := true;
  }

  /** `optional` applied to a token or record. */
  method Optional(tokenOrMeta: TokenOrMeta) returns (m: Metadata)
    modifies tokenOrMeta.Footprint()
    ensures tokenOrMeta.Meta? ==> m == tokenOrMeta.meta
    ensures tokenOrMeta.Bare? ==> fresh(m)
    ensures m.Record() == Decorate(old(tokenOrMeta.Start()), SetOptional)
  {
    ViewDiscriminates(tokenOrMeta);
    if IsMetadata(tokenOrMeta.View()) {
      m := tokenOrMeta.meta;
      m.optional := true;
      return;
    }
    m := new Metadata(tokenOrMeta.token);
    m.optional := true;
  }

  /** `multi(named(n)(t))` and `named(n)(multi(t))` give two distinct records
      that agree field for field; re-applying `multi` to the second returns
      that same record (`again`), which `named` then updates in place. */
  method NamedAndMultiInEitherOrder(t: Token, n: string) returns (a: Metadata, b: Metadata, again: Metadata)
    ensures a != b && a.Record() == b.Record()
    ensures a.token == t && a.name == Some(n) && a.multi && !a.optional && a.tags == map[]
    ensures again == b
  {
    a := Named(n, Bare(t));
    a := Multi(Meta(a));
    b := Multi(Bare(t));
    again := Multi(Meta(b));
    b := Named(n, Meta(b));
    DecorationsCommute(CreateMetadata(t), Name(n), SetMulti);
  }
}
