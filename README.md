# mongoose-joins: the join-resolution layer in Dafny

This project models the join layer of mongoose-joins. A schema declares a
*join* on a path. Bound to a document, the join is *followed* to the related
documents of a target model. Four strategies are modelled:

- a **DBRef join** uses a stored (namespace, oid) reference;
- a **foreign-key join** uses a stored identifier;
- a **mapped join** uses a conjunction of field equalities;
- a **query join** uses a user-supplied query factory.

Each strategy can be mapped-to (the key sits on the target documents) or
mapped-from (the key sits on the source document), where the strategy has
both modes.

The model has these parts:

- `Js` (`js.dfy`): the JavaScript values the code inspects. It covers loose
  `== undefined`, `typeof`, property reads, `String()` as a property key, and
  the spreading of an array-valued option into arguments.
- `Errors` (`errors.dfy`): the four error records (name, path, detail), and
  what can travel in a callback's error position.
- `Resolution` (`resolution.dfy`): the document, the request sent to the
  store, the `(err, val)` pair a callback receives, and the single decision
  tree every follower applies to the store's answer. The four strategy files
  repeat this tree word for word, so it is written once here.
- `DBRefJoin`, `FkJoin`, `MappedJoin` and `QueryJoin`: each strategy's
  `initMapping` validation, its `buildFollower`, and its follower. The mapped
  join builds its query with a loop, so that loop is a method,
  `MappedJoin.BuildQuery`.
- `JoinTypes` (`jointype.dfy`): the `JoinType` object.
  - Its fields are assigned by the constructor's loop over the options,
    `JoinType.ApplyOptions`. That loop is proved against the fold
    `Configure`.
  - Its setters are methods.
  - The memoised `_follower` is the field `follower`. `Follow` fills it once,
    and `InitMapping` clears it.
  - `bind` gives a `Binding` value.
- `SchemaJoins` (`schema.dfy`): `buildJoin` and `schema.join`.
  - The lookup form changes nothing.
  - The declaration form writes `options.target` into the caller's options
    object, builds the join, and records it in `joins` with a virtual getter.

The external pieces become parameters:

- the target lookup `model.db.model(join.targetSchema)` is an
  `Option<Target>`;
- the store is a function `store: Request -> Reply`, from the `find`/`findOne`
  request to the answer its callback receives;
- calling a query factory is `invoke(id, doc)`.

## Model

| member | source | states |
|---|---|---|
| Errors.MakeError | lib/jointype.js:154-223 | each error record keeps path and detail verbatim under a fixed name that tells the four kinds apart |
| Resolution.OnMany | lib/types/dbrefJoin.js:40-52 | `find` answer: nullable passes it through; otherwise a store error is passed on, a null answer or one without element 0 gives ConstraintError "is null", and success happens iff there is no error and a first element exists |
| Resolution.OnOne | lib/types/dbrefJoin.js:53-63 | `findOne` answer: nullable passes it through; otherwise a store error is passed on, a null answer gives ConstraintError "is null" with the null kept as value, and success happens iff there is no error and the value is not null |
| Resolution.Dispatch | lib/types/fkJoin.js:34-62 | a missing target gives FollowerError "target schema missing" and sends nothing; otherwise the query is sent with `find` iff a result set is wanted, and the reply is `OnMany` of the store's `find` answer or `OnOne` of its `findOne` answer |
| Resolution.Unreferenced | lib/types/dbrefJoin.js:86-89 | absent source reference: no request, no error; the value is null iff nullable, otherwise the ConstraintError record in the value position |
| Resolution.InitToFrom | lib/types/dbrefJoin.js:155-166 | a string s gives `{to: s}`; otherwise success iff exactly one of `to`/`from` is set, and the value is returned unchanged; neither set gives "no 'to' or 'from' field defined", both set give "only 'to' or 'from' field allowed"; a null value throws a TypeError |
| Resolution.InitToFromIdempotent | lib/types/fkJoin.js:150-161 | an accepted mapping is accepted again unchanged |
| Resolution.ConstraintErrorUnbound | lib/types/dbrefJoin.js:14 | as written a non-nullable `findOne` that finds nothing never reaches the callback; as intended it reports ConstraintError "is null" |
| DBRefJoin.BuildFollower | lib/types/dbrefJoin.js:124-129 | mapped-to iff `to` is set, and on an accepted mapping mapped-from iff `from` is set; mapped-to keeps the keys `to.$ref` and `to.$id` |
| DBRefJoin.MappedToQuery | lib/types/dbrefJoin.js:28-56 | the mapped-to query has exactly the two keys `to.$ref` (source collection name) and `to.$id` (source `_id`) and is sent with `find` iff the join yields a result set; the store's answer reaches the callback under `OnMany` for `find` and `OnOne` for `findOne`, so a non-nullable join passes errors on, turns a null answer or a missing first element into "is null", and otherwise returns the store's value |
| DBRefJoin.MappedToTargetMissing | lib/types/dbrefJoin.js:36-38 | without a target the mapped-to follower reports "target schema missing" whatever the store holds |
| DBRefJoin.MappedFromAbsent | lib/types/dbrefJoin.js:86-89 | with the reference absent the answer is the same for every target lookup and every store |
| DBRefJoin.Run | lib/types/dbrefJoin.js:32-114 | either follower sends a query only when the target exists, and a nullable one replies with exactly the store's answer; each mode's full behaviour is in `MappedToQuery`, `MappedToTargetMissing`, `MappedFromAbsent` and `MappedFromPresent` |
| DBRefJoin.FromReference | lib/types/dbrefJoin.js:91-111 | with the reference present a query is sent iff the target exists, its collection equals the reference's namespace and no result set is wanted, and that query is `findOne({_id: ref.oid})` |
| DBRefJoin.MappedFromPresent | lib/types/dbrefJoin.js:90-112 | with the reference present: target missing first, then "namespace mismatch", then "result set impossible"; a reference passing all three sends `findOne({_id: ref.oid})` and replies with `OnOne` of the store's answer |
| DBRefJoin.MappedFromRequest | lib/types/dbrefJoin.js:91-111 | the mapped-from follower only ever sends `findOne({_id: ref.oid})`, and only with the reference present, the target found, the namespace equal to the target's collection, and no result set |
| DBRefJoin.MappedFromNamespace | lib/types/dbrefJoin.js:95-96 | a reference whose namespace differs from the target collection gives "namespace mismatch" |
| DBRefJoin.MappedFromResultSet | lib/types/dbrefJoin.js:97-99 | asking for a result set through a present, matching reference gives "result set impossible", nullable or not |
| FkJoin.BuildFollower | lib/types/fkJoin.js:119-124 | mapped-to iff `to` is set, and on an accepted mapping mapped-from iff `from` is set |
| FkJoin.Run | lib/types/fkJoin.js:29-109 | either follower sends a query only when the target exists, and a nullable one replies with exactly the store's answer; each mode's full behaviour is in `MappedToQuery`, `MappedToTargetMissing`, `MappedFromAbsent` and `MappedFromPresent` |
| FkJoin.FromKey | lib/types/fkJoin.js:88-107 | with the key present a query is sent iff the target exists and no result set is wanted, and that query is `findOne({_id: fk})` |
| FkJoin.MappedToTargetMissing | lib/types/fkJoin.js:34-36 | without a target the mapped-to follower reports "target schema missing" and sends nothing, whatever the store holds |
| FkJoin.MappedToQuery | lib/types/fkJoin.js:28-65 | the mapped-to query is exactly `{[to]: model._id}`, sent iff the target exists, with `find` iff a result set; the reply is `OnMany` or `OnOne` applied to the store's answer, so a non-nullable join passes errors on, turns a null answer or a missing first element into "is null", and otherwise returns the store's value |
| FkJoin.MappedFromAbsent | lib/types/fkJoin.js:83-86 | with the key absent the answer is `Unreferenced` for every target lookup and every store |
| FkJoin.MappedFromPresent | lib/types/fkJoin.js:87-108 | with the key present: target missing first, then "result set impossible", then `findOne({_id: fk})` with no namespace check |
| FkJoin.NullablePassThrough | lib/types/fkJoin.js:96-97 | a nullable follower hands the store's answer to the callback untouched |
| MappedJoin.InitMapping | lib/types/mappedJoin.js:101-116 | a string s gives `{to: [s], from: [s]}`; a missing `to` is reported before a missing `from`; non-arrays are wrapped; unequal lengths give "'to' & 'from' mismatch"; success iff both are set with equal lengths, and then the result is normalised |
| MappedJoin.InitMappingIdempotent | lib/types/mappedJoin.js:101-116 | an accepted mapping is accepted again unchanged |
| MappedJoin.MismatchRefused | lib/types/mappedJoin.js:113-114 | lists of different lengths are always refused with "'to' & 'from' mismatch" |
| MappedJoin.BuildFollower | lib/types/mappedJoin.js:27-28 | the built follower's `to` and `from` are exactly the mapping's lists, of equal lengths |
| MappedJoin.MappedFollowerQuery | lib/types/mappedJoin.js:27-32 | with the target found, the follower built from a normalised mapping sends `query[to[i]] = model[from[i]]` over the mapping's own lists: its keys are exactly the names in `to`, and each name holds the source field at the index of its last occurrence |
| MappedJoin.MappedQuery | lib/types/mappedJoin.js:30-32 | the query built by assigning `query[to[i]] = model[from[i]]` for i in order; its keys and values are stated by `MappedQueryKeys` and `MappedQueryLastWins` |
| MappedJoin.Run | lib/types/mappedJoin.js:29-63 | the follower sends a query iff the target exists, asking for exactly the fields named in `to`; its reply is stated by `MappedReply` and `MappedMissing` |
| MappedJoin.MappedReply | lib/types/mappedJoin.js:37-60 | with the target found, `find` is sent iff the join yields a result set, and the store's answer reaches the callback through `OnMany` or `OnOne`, so a non-nullable join passes errors on, turns a null answer or a missing first element into "is null", and otherwise returns the store's value |
| MappedJoin.MappedMissing | lib/types/mappedJoin.js:33-35 | without a target the follower reports "target schema missing" and sends nothing, whatever the store holds |
| MappedJoin.BuildQuery | lib/types/mappedJoin.js:30-32 | the `for-in` loop builds exactly the query `MappedQuery` describes |
| MappedJoin.MappedQueryKeys | lib/types/mappedJoin.js:30-32 | the query's keys are exactly the names listed in `to` |
| MappedJoin.MappedQueryLastWins | lib/types/mappedJoin.js:30-32 | each name holds the source field paired with its last occurrence in `to` |
| MappedJoin.TwoFieldExample | lib/types/mappedJoin.js:27-39 | `{to: [userId, tenantId], from: [ownerId, orgId]}` on `{ownerId: 7, orgId: 3}` queries `{userId: 7, tenantId: 3}` |
| QueryJoin.InitMapping | lib/types/queryJoin.js:90-95 | success iff the value is a function, kept unchanged; otherwise JoinError "mapping not factory" |
| QueryJoin.BuildFollower | lib/types/queryJoin.js:27-30 | the follower calls the mapping's own factory; what running it does is stated by `QueryJoin.Run` and `QueryJoin.QueryChecks` |
| QueryJoin.Run | lib/types/queryJoin.js:29-63 | a query is sent iff the factory's result has `typeof` "object" and the target exists, and the query sent is that result unchanged |
| QueryJoin.QueryChecks | lib/types/queryJoin.js:30-61 | a factory result whose `typeof` is not "object" gives "query not defined" before the target check; a result whose `typeof` is "object" (null included) with the target found is sent unchanged with `find` iff a result set is wanted, and the reply is `OnMany`/`OnOne` of the store's answer |
| QueryJoin.NonObjectQuery | lib/types/queryJoin.js:32-33 | a factory yielding a string gives "query not defined" whether or not the target exists |
| JoinTypes.InitMappingOf | lib/jointype.js:141-143 | the base `initMapping` is the identity; every accepted mapping is in its kind's normal form; which strategy validates each kind is stated by `KindStrategies` |
| JoinTypes.NormalisedIsFixedPoint | lib/types/mappedJoin.js:101-116 | for every kind, a normalised mapping is accepted unchanged |
| JoinTypes.ApplyOption | lib/jointype.js:26-30 | a key that names no setter changes nothing; only `mapping` changes the mapping; only `mapping`/`initMapping` can throw, with `initMapping`'s error |
| JoinTypes.Configure | lib/jointype.js:21-31 | the constructor's option loop as a fold from the defaults; what it yields is stated by `ConfigureFields`, `ConfigureFailure`, `ConfigureFirstError` and `ConfigureStops` |
| JoinTypes.ConfigureFields | lib/jointype.js:21-84 | after construction: `resultSet` iff `multiple` was exactly `true`, `nullOk` unless `nullable` was exactly `false`, `targetSchema` the `target` argument, `mappedBy` `initMapping` of the `mapping` argument, defaults for absent keys; an array option yields its first element |
| JoinTypes.ConfigureFailure | lib/jointype.js:26-30 | construction fails iff some `mapping`/`initMapping` option is refused by `initMapping` |
| JoinTypes.ConfigureFirstError | lib/jointype.js:26-30 | a failed construction reports the error of the first refused option |
| JoinTypes.ConfigureStops | lib/jointype.js:26-30 | once a setter has thrown, later options have no effect |
| JoinTypes.BaseNeverResolves | lib/jointype.js:115-117 | the base `follow` sends nothing and always reports a FollowerError for its path |
| JoinTypes.BackstopArgumentsShifted | lib/jointype.js:116 | as written the base FollowerError carries the path as its detail and not the join's path |
| JoinTypes.KindStrategies | lib/types/dbrefJoin.js:155-172 | each kind validates with its own strategy's `initMapping` (the base one is the identity), and follows with its own strategy's follower built from the join's mapping and run with the join's path, result-set and nullability settings; the base kind follows with the backstop |
| JoinTypes.Resolve | lib/types/fkJoin.js:164-168 | following with a freshly built follower of the join's kind, or the base backstop; the per-kind dispatch is stated by `KindStrategies`, and the properties shared by all kinds by `BaseNeverResolves`, `NullablePassesThrough`, `NonNullableNeverEmpty` and `QueryNeedsTarget` |
| JoinTypes.NullablePassesThrough | lib/types/queryJoin.js:38-39 | for every strategy, a nullable join's callback receives exactly the store's answer |
| JoinTypes.NonNullableNeverEmpty | lib/types/mappedJoin.js:40-58 | for every strategy, a non-nullable join never reports success with an absent value, nor a `find` success without a first document |
| JoinTypes.QueryNeedsTarget | lib/types/mappedJoin.js:33-35 | for every strategy, nothing is sent when the target model is missing |
| JoinTypes.AuthorScenario | lib/types/fkJoin.js:80-86 | a non-nullable mapped-from FK join `author` on a post without `authorId` answers `(null, ConstraintError{path: author})` and sends nothing |
| JoinTypes.StringMappingIsMappedTo | lib/types/fkJoin.js:152-153 | a string FK mapping is mapped-to and queries `{[name]: model._id}` |
| JoinTypes.SetKeyLookup | lib/patches/schema.js:34 | after `options[key] = v`, the options hold `v` for `key` and the old value for every other key |
| JoinTypes.Options.Set | lib/patches/schema.js:34 | assigning a property replaces an existing key in place or appends a new one |
| JoinTypes.JoinType.constructor | lib/jointype.js:21-25 | a fresh join is not a result set, is nullable, and has no target, mapping or cached follower |
| JoinTypes.JoinType.Target | lib/jointype.js:41-44 | `target(v)` stores `v` unchanged |
| JoinTypes.JoinType.Multiple | lib/jointype.js:54-57 | `resultSet` holds iff the argument is exactly `true` |
| JoinTypes.JoinType.Nullable | lib/jointype.js:67-70 | `nullOk` fails iff the argument is exactly `false` |
| JoinTypes.JoinType.InitMapping | lib/types/fkJoin.js:150-161 | a strategy's `initMapping` clears the follower cache and returns the kind's validation result |
| JoinTypes.JoinType.Mapping | lib/jointype.js:81-84 | `mappedBy` becomes the normalised mapping; when validation throws the old mapping stays |
| JoinTypes.JoinType.ApplyOptions | lib/jointype.js:26-30 | the option loop leaves in the fields exactly what `Configure` computes, or throws its error |
| JoinTypes.JoinType.Follow | lib/types/fkJoin.js:164-168 | following gives `Resolve` of the current configuration; the follower is built when the cache is empty and reused when it is full |
| JoinTypes.JoinType.Bind | lib/jointype.js:96-103 | `bind(model)` is a function of the join and the document and changes no field; following the binding is stated by `Binding.Follow` |
| JoinTypes.Binding.Follow | lib/jointype.js:96-103 | `bind(doc).follow(cb)` is `join.follow(doc, cb)`; `bind` itself touches no field |
| JoinTypes.New | lib/types/dbrefJoin.js:146-149 | construction succeeds iff `Configure` does; a built join is valid, has an empty cache and holds `Configure`'s fields |
| JoinTypes.FollowTwice | lib/types/mappedJoin.js:119-123 | following the same binding twice gives the same answer, so the cache does not change behaviour |
| SchemaJoins.MergedTarget | lib/patches/schema.js:33-35 | a join built from the merged options has the `target` argument (its first element for an array) as target schema |
| SchemaJoins.BuildJoin | lib/patches/schema.js:27-36 | an unknown type or a missing registry gives JoinError "no such join type registered" and leaves the options alone; otherwise the caller's options get `target` set, the build fails iff `Configure` on them fails (with its error), and a built join is fresh and satisfies `BuiltFrom`: valid, an empty follower cache, the registered kind, `path`, options equal to the merged entries, `Configure`'s fields and the target schema from `target` |
| SchemaJoins.Schema.Join | lib/patches/schema.js:48-59 | the lookup form returns null, undefined or the join and changes nothing; a declaration creates `joins`; an unregistered type gives "no such join type registered" and leaves the options alone; otherwise the caller's options get `target` set, the declaration fails iff `Configure` on them fails (with its error, leaving entries and getters as they were), and on success records the join under `path` (other paths untouched) with a getter and returns it, holding `Configure`'s fields |
| SchemaJoins.DeclareThenLookup | lib/patches/schema.js:48-59 | after a successful declaration the lookup form returns that join, and the virtual at `path` binds it to the document |

## Left out

- Asynchronous callbacks and I/O: each follower is a total function giving the request it sent and the `(err, val)` pair its callback receives. The mongoose model lookup, `find`/`findOne` and `schema.virtual` are parameters or a map of getters.
- `model.db.model(...)` can throw in mongoose for an unregistered name. The model only sees its result, as an optional target.
- Error records: `MongooseError` inheritance, `Error.captureStackTrace` and the message text are not modelled. A record is its kind, path and detail.
- JavaScript numbers are integers here. Falsy non-null error values (`0`, `""`) from the store are not distinguished from no error.
- Option keys that re-enter the join are excluded by a precondition (`NoReservedKeys`). These are `follow`, `constructor`, `mappedBy`, `targetSchema` and the methods every object inherits (`toString`, `valueOf`, `hasOwnProperty`, …). Applying them would run a follower on an option value, call a user-stored function as a method, or call a built-in.
- Only the type name of `type` is modelled. A registry entry is one of the four strategy tags, or absent. A name that hits a property every object inherits is not modelled.
- A path that names a property every object inherits is not modelled for the lookup form.
- The `loadType` registration wiring (lib/types/dbrefJoin.js:138-181 and its siblings) is not modelled. Neither are the `isArray` polyfill (modelled as `Array.isArray`), the `bind` option key beyond being a no-op, and chained virtual getters.
- `Js.Get` reads only object properties. Property reads on strings, arrays and functions give undefined. None of the keys the followers read (`to`, `from`, `oid`, `namespace`) is an index or a built-in property of those values.
- A query factory's own side effects are not modelled. `invoke` is a pure function of the factory and the document.
- A query factory that throws makes `follow` itself throw synchronously (lib/types/queryJoin.js:30). The model does not capture this: `invoke` always returns a value.
- Following a strategy join whose `mappedBy` was never set dereferences undefined in lib/types/*.js. Here `Follow` has a precondition instead.
- The mapped-from followers' comments (lib/types/dbrefJoin.js:79, lib/types/fkJoin.js:76) say a result set is not possible in this join. The code reports "result set impossible" only after the reference is found present, the target exists and (for DBRef) the namespace matches. An absent reference still answers `(null, null)` or the ConstraintError. The model follows the code (`DBRefJoin.MappedFromPresent`, `FkJoin.MappedFromPresent`).
- A bare string mapping of a DBRef or foreign-key join is mapped-to (lib/types/fkJoin.js:152-153, `JoinTypes.StringMappingIsMappedTo`). A mapped-from join needs `{from: name}`, as in `JoinTypes.AuthorScenario`.
- `Resolution.OnOne`, `Resolution.OnMany` and `Resolution.Unreferenced` model the documented ConstraintError outcome. As written, that branch throws a ReferenceError (see Findings).
- `JoinTypes.Backstop`: the rest of the model uses the intended base `follow` error (see Findings).

## Findings

| source | as written | input that shows it | evidently intended | confidence | as-written member | corrected member |
|---|---|---|---|---|---|---|
| lib/types/dbrefJoin.js:14 | the constructor is bound as `ConstraintErrpr`, but the constraint branches call `new ConstraintError(...)`, which nothing binds, so they throw a ReferenceError and never call back (the same holds in fkJoin.js, mappedJoin.js and queryJoin.js) | a non-nullable join whose `findOne` answers `(null, null)` | the callback receives ConstraintError "is null" | high; not executed | Resolution.OnOneAsWritten | Resolution.OnOne |
| lib/jointype.js:116 | `new FollowerError(this, this.path, "NOT YET IMPLEMENTED")` passes the join as path and the path as detail, and drops the message | following a base join on path `author` | FollowerError with path `author` and detail "NOT YET IMPLEMENTED" | high; not executed | JoinTypes.BackstopAsWritten | JoinTypes.Backstop |
