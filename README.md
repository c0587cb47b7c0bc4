# DI tokens, boxes and metadata — a Dafny model

This project models the token/box/metadata core of a small TypeScript
dependency-injection library (`src/di/`):

- **Value box** (`box.ts`): `box` wraps any value in a record under the reserved
  key `__Box_value`; `unbox` reads that key; `isBox` recognises a non-null object
  carrying the key; `unpack` removes one box layer if there is one.
- **Reference box** (`refbox.ts`): a value box whose payload is a producer;
  `unbox`/`unpack` call the producer and give its result, `isRefBox` asks for a
  box whose payload has type "function".
- **Tokens and metadata** (`index.ts`): symbol, string and class tokens (a token
  may be deferred behind a reference box); metadata records tagged `__Metadata`
  holding a token, a tag map, an optional name and the `multi`/`optional` flags;
  the decorators `tagged`, `named`, `multi`, `optional`, which change an existing
  record in place and return it, or create a new record around a bare token.
- **Dependency shape** (`index.ts`, type-level `GetToken`, `GetDependencyType`,
  `Dependencies`): recast as functions from a descriptor to the shape of a field
  (`Single`, `Optional`, `Multi`), with `multi` taking precedence over `optional`.

Files:

- `js_value.dfy` — module `JsValue`: the JavaScript values the helpers observe
  (`typeof`, `in`, property reads, zero-argument calls), with `TypeError` as
  the outcome of a read from `null`/`undefined` or a call of a non-function.
- `box.dfy` — module `ValueBox` (`box.ts`).
- `refbox.dfy` — module `RefBox` (`refbox.ts`).
- `tokens.dfy` — module `Tokens`: plain and deferred tokens and their runtime values.
- `metadata.dfy` — module `Decorators`: metadata records, the `Metadata` class
  (fields updated in place), the four decorator methods, and the pure
  `Decorate`/`DecorateAll` functions that specify them, with their lemmas.
- `dependencies.dfy` — module `DependencyShape`: the shape function and the
  example service's injection table as a concrete case.

Behaviour of the code the model keeps:

- `unbox` on a value that is not a box does not fail: the code reads the key,
  which gives `undefined` on any object without it (and throws only on `null`
  or `undefined`). `ValueBox.Unbox` says exactly this.
- `isBox` accepts any non-null object with the key, not only record literals.
- When both `multi` and `optional` are set, the shape is the array one: the
  type-level computation tests `multi` first.

## Model

| member | source | states |
|---|---|---|
| ValueBox.Box | src/di/box.ts:11-13 | `box(v)` is a record whose only key is `__Box_value`, it is a box, and unboxing it gives `v` back (the round trip) |
| ValueBox.Unbox | src/di/box.ts:15-17 | on a box, the held value; on another object, `undefined`; a `TypeError` exactly for `null` and `undefined` |
| ValueBox.IsBox | src/di/box.ts:19-23 | the runtime test (type "object", not `null`, key present) holds exactly for objects carrying the reserved key |
| ValueBox.NonObjectIsNotBox | src/di/box.ts:19-23 | `null` and every non-object (string, number, symbol, function even with the key) is not a box |
| ValueBox.Unpack | src/di/box.ts:25-27 | a non-box is returned unchanged; for a box the result is what `unbox` gives |
| ValueBox.UnpackStripsOneLayer | src/di/box.ts:25-27 | `unpack(box(box(v))) == box(v)`; for a non-box `v`, a second `unpack` of `box(v)` changes nothing |
| RefBox.Box | src/di/refbox.ts:11-13 | the producer itself is what the value box holds; the result is a ref box and unboxing it is the producer's result |
| RefBox.Unbox | src/di/refbox.ts:15-17 | on a ref box, the payload's zero-argument call; a `TypeError` on `null`/`undefined` and on a box whose payload is not a function |
| RefBox.IsRefBox | src/di/refbox.ts:19-21 | the runtime test (a box whose unboxed payload has type "function") holds exactly for a value box whose payload is a function |
| RefBox.BoxOfNonFunctionIsNotRefBox | src/di/refbox.ts:20 | a value box of a non-function is not a ref box |
| RefBox.Unpack | src/di/refbox.ts:23-25 | a non-ref-box completes normally with itself; a ref box gives its producer's result |
| RefBox.UnpackBox | src/di/refbox.ts:23-25 | `unpack(box(f))` is `f()` |
| Tokens.PlainToken.ToValue | src/di/index.ts:10-34 | symbol and string tokens are a symbol and a string at runtime, a class token is a function and not a ref box |
| Tokens.Token.ToValue | src/di/index.ts:36 | a deferred token is a ref box whose unpacking gives the plain token's value; a plain token is no ref box |
| Tokens.BoxedClassIsRefBox | src/di/refbox.ts:19-25 | a class boxed directly passes `isRefBox`, and unpacking it gives whatever calling the constructor without `new` gives (a `TypeError` for a `class`, `Map` or `ArrayBuffer`) |
| Decorators.MetaRecord.ToValue | src/di/index.ts:42-51 | a record's runtime object is recognised as metadata, holds its token and tags, and has `name`/`multi`/`optional` keys exactly when set |
| Decorators.IsMetadata | src/di/index.ts:73-75 | the runtime test (type "object", not `null`, `__Metadata` key present) holds exactly for objects carrying the tag |
| Decorators.TokenIsNotMetadata | src/di/index.ts:73-75 | `isMetadata` is false for every bare token, deferred ones included |
| Decorators.CreateMetadata | src/di/index.ts:53-59 | a new record has the token, no tags, no name, neither flag, and `isMetadata` holds on it |
| Decorators.Metadata.constructor | src/di/index.ts:53-59 | a freshly allocated record equals `CreateMetadata(token)` |
| Decorators.Decorate | src/di/index.ts:85-147 | each decoration keeps the token, writes only its own field (tag key, name, or flag) and leaves every other field and tag as it was |
| Decorators.DecorateAll | src/di/index.ts:85-147 | no sequence of decorator calls changes the token |
| Decorators.FlagsAccumulate | src/di/index.ts:117-147 | after any sequence of calls, `multi`/`optional` is set exactly when it was before or some call set it |
| Decorators.LastTagWins | src/di/index.ts:85-98 | tags accumulate and the last `tagged` call for a key decides its value |
| Decorators.UntaggedKeyKept | src/di/index.ts:85-98 | a key no `tagged` call mentions keeps its presence and value |
| Decorators.LastNameWins | src/di/index.ts:101-115 | the last `named` call decides the name |
| Decorators.NameKeptWithoutNamed | src/di/index.ts:101-115 | without `named` the name stays as it was |
| Decorators.DecorationsCommute | src/di/index.ts:85-147 | decorations on different fields give the same record in either order |
| Decorators.FlagsIdempotent | src/di/index.ts:117-147 | applying `multi` or `optional` twice is the same as once |
| Decorators.ViewDiscriminates | src/di/index.ts:73-75 | the runtime test `isMetadata` holds exactly for an existing record, not for a bare token |
| Decorators.Tagged | src/di/index.ts:85-98 | on a record: same reference, `tags[key] := value`, nothing else changed; on a token: a fresh record for it with only that tag |
| Decorators.Named | src/di/index.ts:101-115 | on a record: same reference, name overwritten, nothing else changed; on a token: a fresh record with that name |
| Decorators.Multi | src/di/index.ts:117-131 | on a record: same reference, `multi` set, nothing else changed; on a token: a fresh record with `multi` |
| Decorators.Optional | src/di/index.ts:133-147 | on a record: same reference, `optional` set, nothing else changed; on a token: a fresh record with `optional` |
| Decorators.NamedAndMultiInEitherOrder | src/di/index.ts:101-131 | `multi(named(n)(t))` and `named(n)(multi(t))` are distinct records equal field for field; applying `multi` again to an existing record returns that same record |
| DependencyShape.GetToken | src/di/index.ts:77-79 | the token a record holds, or the bare token itself; never something `isMetadata` accepts |
| DependencyShape.GetTokenMatchesRuntime | src/di/index.ts:77-79 | for a record, the token is what its runtime object holds under `token`; for a bare token, the descriptor's runtime value itself |
| DependencyShape.ResolveToken | src/di/refbox.ts:9 | the resolved token's value is what `RefBox.unpack` gives on the token's runtime value; a plain token resolves to itself |
| DependencyShape.GetDependencyType | src/di/index.ts:157-163 | an instance type exactly for a token whose runtime `typeof` is "function", a carried type exactly for one whose `typeof` is "string" or "symbol"; the class for a class token, the carried type otherwise |
| DependencyShape.FieldShape | src/di/index.ts:165-173 | the field's type is that of its resolved token; an array exactly for a record with `multi`, optional exactly for a record with `optional` but not `multi` |
| DependencyShape.ShapeFollowsRuntimeKeys | src/di/index.ts:165-173 | array exactly when the descriptor's runtime value is metadata with a `multi` key; optional exactly when it is metadata with `optional` and no `multi` |
| DependencyShape.Dependencies | src/di/index.ts:165-173 | every declared field and no other gets a shape, whose type is that of the field's resolved token, an array exactly for a `multi` record, optional exactly for an `optional` one without `multi` |
| DependencyShape.DeclaringAFieldAddsItsShape | src/di/index.ts:165-173 | declaring a field gives it its own shape and leaves every other field's shape unchanged |
| DependencyShape.BareTokenIsSingle | src/di/index.ts:77-79 | a bare token describes one dependency, as a fresh record around it does |
| DependencyShape.ShapeOfDecorated | src/di/index.ts:165-173 | after any decorator calls the shape is `Multi` if any was `multi`, else `Optional` if any was `optional`, else `Single`, of the resolved token's type |
| DependencyShape.ShapeIgnoresOrder | src/di/index.ts:165-173 | two call sequences made of the same calls in any order give the same shape |
| DependencyShape.LoggerFieldIsOptional | src/di/index.ts:195 | `optional(Logger)` is an optional `Logger` |
| DependencyShape.LoggersFieldIsMulti | src/di/index.ts:196 | `multi(Logger)` is an array of `Logger` |
| DependencyShape.StoreFieldIsSingle | src/di/index.ts:197 | `RefBox.box(() => Store)` is one `Store` |
| DependencyShape.ArrayBufferFieldIsInstance | src/di/index.ts:198 | `tagged('id', 'data')(ArrayBuffer)` is one `ArrayBuffer` instance |
| DependencyShape.MapFieldIsInstance | src/di/index.ts:199 | `named('cities')(RefBox.box(() => Map))` is one `Map` instance |
| DependencyShape.MyServiceDependencies | src/di/index.ts:193-200 | the example service's table yields an optional logger, a logger array, a store, an `ArrayBuffer` and a `Map` |

## Left out

- `tokenSymbol` and `tokenString`: their uniqueness comes from the runtime's
  `Symbol()` and from `Math.random`; tokens are parameters here (a symbol is an
  identity number, a string token a fixed text).
- `src/di/metabox.d.ts` has no runtime value: the type it attaches to string and
  symbol tokens is the `carried` field of `Tokens.PlainToken`.
- The type-level `never` branch of `GetDependencyType` and the static types
  `ToMetadata`, `WithMulti`, `WithOptional`: the three token kinds are the only
  plain tokens, and the static flags are modelled by the runtime flags the
  decorators set, which agree with them as long as the expression's static
  type is the decorator's own return type (next line).
- DependencyShape.FieldShape: the shape is read off the runtime record, not
  off the static type of the expression that denotes it, and the two differ
  whenever that static type is wider than what the decorator returns. For
  example, when one record is reached through two references: after `const
  base = named('x')(Logger); const many = multi(base);` the decorator has set
  `multi` on the shared record, so the model gives the field `one: base` an
  array shape, while its static type `Metadata<StringToken<Logger>>` makes it
  a single `Logger`. Likewise for a widened type with no sharing: an
  annotation (`const m: Metadata<StringToken<Logger>> = multi(Logger)`), a
  cast, or a union from `?:` (`cond ? multi(Logger) : optional(Logger)`,
  which extends neither `Multi` nor `OptionalM`) makes the static shape a
  single `Logger`, while the model gives `Multi` or `Optional` from the
  record actually built. The model follows the runtime record.
- `tagged(key, value)` and `named(name)` return a closure; the model applies
  them in one call (`Decorators.Tagged(key, value, x)`).
- The example `MyService` class body and the `console.log`/`window` statement;
  the table of the example is kept as a test case of the shape function.
- `src/index.tsx` (rendering, the third-party container, timing and the
  metadata reader): foreign code and I/O.
- JavaScript semantics beyond what the helpers observe: the prototype chain
  (`in` and property reads see own properties only), numbers as floating
  point (they are integers here), and object identity for boxes (a box is a
  value; equality is structural, not `===`). The metadata record's separate
  `tags` object is a map field, so aliasing of that object is not captured.
- Decorators.Tagged: with the key `"__proto__"`, the assignment `tags[key] =
  value` in JavaScript runs the inherited prototype setter (an object value
  replaces the prototype of `tags`, a primitive is ignored) and adds no own
  key; the model, having no prototypes, adds an ordinary key.
- What calling a constructor without `new` does is not derived: a class
  token carries that outcome as the parameter `callWithoutNew`
  (`Tokens.PlainToken`), and `Tokens.BoxedClassIsRefBox` is stated for
  every outcome, the throwing one included.
- Producers with side effects, and how often `RefBox.unbox` runs one: a
  producer is a pure zero-argument call whose result is fixed.
