# Radar query builder in Dafny

Radar is a small fluent query builder. A `Radar` object holds a driver, an
optional connection string or connection, and a mutable query descriptor. The
chainable methods `select`, `from`, `where`, `schema`, `insert`, `into` and
`limit` each rewrite one field of the descriptor under their own rule and
return the same object. `exec` hands the descriptor to the driver, together
with the connection string or else the connection. `Radar.txn` checks its
options before it talks to the driver.

The model has four modules:

- `Values` (values.dfy): `Option`, `Result` and the JSON-like `Value`, plus
  JavaScript truthiness.
- `Lodash` (lodash.dfy): the three lodash helpers the builder calls, written
  out. `Uniq` is `_.uniq`, `Merge` is `_.merge` and `HasWithoutPath` is
  `_.has` called without a path. Each comes with lemmas about what it does.
- `Builder` (builder.dfy): the class `Radar`. Its methods update the `query`
  field in place (`modifies this`query`), so the driver, the connection and the
  connection string cannot change. Each method returns `this` and is proved
  equal to a pure step function, such as `SelectStep`. `Run` applies a chain of
  calls to a descriptor. `CheckTxnOptions` models the synchronous checks of
  `Radar.txn`.
- `BuilderProperties` (properties.dfy) proves what the steps and the chains
  promise. `Scenarios` (scenarios.dfy) runs whole chains on `Radar` objects.

### Where the code differs from its documented intent

The model follows the code as written:

- A later `select` does not keep the earlier columns. index.js:60 concatenates
  with `this.values`, a property that is never set. A chain of selects
  therefore ends with the last call's columns, de-duplicated
  (`SelectChainKeepsOnlyLast`), not with the union of all calls.
- The `from` guard at index.js:71 calls `_.has` without a path. Lodash 4 turns
  the missing path into the key "undefined", so the guard holds only for an
  object with an own property named "undefined". In every other case `from`
  is overwritten. That includes a `{table, schema}` record built by `schema`,
  so `from` after `schema` loses the schema (`FromAfterSchemaLosesSchema`).
  Any chain whose `from` arguments carry no such key leaves the guard false,
  so `from` always overwrites (`FromAlwaysOverwritesAfterChain`).
  The model keeps the odd guarded case too: there the object's `table` is set
  (`FromSetsTableOnGuardedObject`).
- `schema` on an object `from` drops its table, and a `schema` without
  a `from` stores `{}` (`SchemaOfObjectDropsTable`, `SchemaOfNothing`).
- `exec` with neither a connection string nor a connection does not fail. It
  sends the driver a request with neither field.

## Model

| member | source | states |
|---|---|---|
| `Builder.Radar.New` | index.js:15-39 | fails with the missing-driver error exactly when the driver is falsy; otherwise a fresh builder holds the driver, keeps the connection string and the connection only when each is truthy, and starts with the empty descriptor |
| `Builder.Radar.Select` | index.js:43-65 | returns `this`; only `select` changes. The first call stores the argument verbatim; once set, `'*'` replaces it; any other argument becomes `Uniq` of its columns, with a scalar wrapped and nothing earlier kept |
| `Builder.Radar.From` | index.js:69-85 | returns `this`; only `from` changes. It becomes the argument unless the old `from` is an object with own key "undefined"; in that case its `table` becomes the argument |
| `Builder.Radar.Where` | index.js:89-95 | returns `this`; only `where` changes, to `Merge` of the old criteria (or `{}`) with the argument |
| `Builder.Radar.Schema` | index.js:99-109 | returns `this`; only `from` changes. A string t becomes `{table: t, schema: s}`, an object becomes `{schema: s}`, anything else `{}` |
| `Builder.Radar.Insert` | index.js:113-119 | returns `this`; only `insert` changes, to `Merge` of the old insert data (or `{}`) with the argument |
| `Builder.Radar.Into` | index.js:123-126 | returns `this`; only `into` changes, to the argument |
| `Builder.Radar.Limit` | index.js:129-132 | returns `this`; only `limit` changes, to the argument |
| `Builder.Radar.Exec` | index.js:138-144 | the driver request carries the descriptor unchanged, the connection string when it is truthy, otherwise the connection when it is truthy; never both |
| `Builder.CheckTxnOptions` | index.js:160-162 | the checks pass exactly when options exist with a truthy connection string and a truthy driver. A failure names the first failing check, in the order options, connection string, driver |
| `Values.Truthy` | index.js:20 | a value fails `if (x)` exactly when it is `null`, `false`, `0` or `""` |
| `Values.Present` | index.js:24-30 | a property passes `if (o.x)` exactly when it is there and not one of the falsy values; the same test guards index.js:139 and 142 |
| `Lodash.HasWithoutPath` | index.js:71 | `_.has` without a path holds only for an object, and for an object exactly when it has an own key "undefined" |
| `BuilderProperties.StepKeepsFromGuardOff` | index.js:69-108 | no call other than `from` with an object holding key "undefined" can make that guard hold |
| `BuilderProperties.ChainKeepsFromGuardOff` | index.js:69-108 | from a descriptor the guard rejects, a chain whose `from` arguments hold no key "undefined" leaves a `from` the guard still rejects |
| `BuilderProperties.FromAlwaysOverwritesAfterChain` | index.js:71-73 | after any such chain from the empty descriptor, `from(v)` leaves `from == v` |
| `Builder.Columns` | index.js:56-58 | an array argument gives its elements; any other value gives a one-element list |
| `Lodash.Uniq` | index.js:61 | the result has no duplicates and holds exactly the input's elements |
| `Lodash.UniqIsFirstOccurrences` | index.js:61 | `Uniq` equals the front-to-back filter that keeps an element exactly when it has not been seen |
| `Lodash.UniqSplit` | index.js:60-61 | de-duplicating `p + q` de-duplicates `p`, then keeps the elements of `q` that `p` has not shown |
| `Lodash.UniqKeepsFirstOccurrenceOrder` | index.js:61 | the result lists its elements in the order of their first occurrence in the input |
| `Lodash.UniqOfDistinct` | index.js:61 | input without repetitions comes back unchanged |
| `Lodash.UniqIdempotent` | index.js:61 | de-duplicating twice equals de-duplicating once |
| `Lodash.FirstIndex` | index.js:61 | the index returned holds the element, and no earlier index does |
| `Lodash.Merge` | index.js:91 | the keys are the union of both sides; keys only in the destination keep their values; the source's non-object values win; its object values stay objects |
| `Lodash.MergeCoversSource` | index.js:91 | every key of the source ends up present, with the source's value at leaf level and recursively below |
| `Lodash.MergeRetainsDestination` | index.js:91 | whatever the destination held and the source did not overwrite survives, at every depth |
| `Lodash.MergeWithin` | index.js:91 | a merge adds nothing beyond its two sides: each key comes from one side; where only the source has an object, that object is copied unchanged; recursively below |
| `Lodash.MergeIsDeterminedByItsProperties` | index.js:91 | any object that covers the source, retains the destination and stays within both is the merge, so these three properties fully define `Merge` |
| `Lodash.MergeItself` | index.js:91 | merging an object into itself changes nothing |
| `Lodash.MergeIdempotent` | index.js:91 | merging the same source twice equals merging it once |
| `Lodash.MergeIntoEmpty` | index.js:90-91 | merging into `{}` yields the source |
| `Lodash.MergeEmpty` | index.js:91 | merging `{}` changes nothing |
| `Lodash.MergeExamples` | index.js:89-95 | `{a:1}` merged with `{b:2}` gives `{a:1, b:2}`; `{a:1}` merged with `{a:2}` gives `{a:2}`; nested objects are merged |
| `BuilderProperties.FirstSelectIsVerbatim` | index.js:44-47 | on a descriptor without `select`, `select(v)` stores `v` unchanged |
| `BuilderProperties.WildcardOverrides` | index.js:50-53 | once `select` exists, `select('*')` sets it to `'*'` whatever it held |
| `BuilderProperties.LaterSelectDeduplicates` | index.js:55-63 | a later non-`'*'` select gives an array with no duplicates and exactly the argument's columns, in first-occurrence order |
| `BuilderProperties.SelectChainKeepsOnlyLast` | index.js:60-63 | in a chain of non-`'*'` selects, once a selection exists only the last call's de-duplicated columns remain |
| `BuilderProperties.FromOverwrites` | index.js:71-73 | unless the old `from` is an object with own key "undefined", `from(v)` leaves `from == v` |
| `BuilderProperties.FromSetsTableOnGuardedObject` | index.js:80-82 | when the guard holds, `from(v)` sets the object's `table` to `v` and keeps its other keys |
| `BuilderProperties.SchemaOfTable` | index.js:101-102 | a string `from` t becomes `{table: t, schema: s}` |
| `BuilderProperties.SchemaOfObjectDropsTable` | index.js:103-104 | an object `from` becomes `{schema: s}`, and its table is dropped |
| `BuilderProperties.SchemaOfNothing` | index.js:100-107 | without a string or object `from`, `from` becomes `{}` |
| `BuilderProperties.SchemaTwiceDropsTable` | index.js:99-108 | a second `schema` drops the table the first one recorded |
| `BuilderProperties.FromAfterSchemaLosesSchema` | index.js:69-73 | `from(t)` after `schema(s)` leaves `from == t`; the schema is lost |
| `BuilderProperties.WhereMerges` | index.js:89-95 | after `where(v)` every key of `v` is present with `v`'s leaf values; the old criteria survive where `v` did not overwrite them; without old criteria the result is `v` |
| `BuilderProperties.InsertMergesLikeWhere` | index.js:113-119 | `insert` merges exactly as `where` does |
| `BuilderProperties.WhereIdempotent` | index.js:89-95 | repeating a `where` call changes nothing |
| `BuilderProperties.InsertIdempotent` | index.js:113-119 | repeating an `insert` call changes nothing |
| `BuilderProperties.StepKeepsOtherFields` | index.js:43-132 | each builder call changes only its own field (`schema` and `from` share `from`) |
| `BuilderProperties.StepsOnDifferentFieldsCommute` | index.js:43-132 | calls on different fields can be swapped |
| `BuilderProperties.RunKeepsUntouchedFields` | index.js:43-132 | a chain leaves alone every field none of its calls is about |
| `BuilderProperties.RunAppend` | index.js:43-132 | running two chains in turn equals running their concatenation |
| `BuilderProperties.LastWriteWins` | index.js:123-132 | after the last `into` (or `limit`) call of a chain, that call's value stands |
| `Scenarios.SelectFromWhereLimit` | index.js:135-144 | `select(['id','name']).from('users').where({active:true}).limit(10)` sends exactly that descriptor and the connection string to the driver |
| `Scenarios.SecondSelectReplacesColumns` | index.js:55-63 | `select(['id']).select(['name','name'])` selects `['name']` |
| `Scenarios.FromSchemaFrom` | index.js:99-108 | `from('users').schema('public')` gives `{table:'users', schema:'public'}`; a further `from('orders')` gives `'orders'` |
| `Scenarios.ExecWithConnection` | index.js:24-30 | an empty connection string is not kept, so `exec` sends the connection instead |

## Left out

- The driver call in `exec` (index.js:146-153) is left out. It is an asynchronous call into a driver whose code is not part of this model. `Exec` returns the request that would be sent.
- Connection acquisition, begin, commit, rollback and the transaction handle in `Radar.txn` (index.js:164-220) are left out for the same reason. Only the three synchronous checks are modelled.
- The `instanceof` self-construction at index.js:16-18 is left out. It only makes `Radar(options)` behave like `new Radar(options)`.
- Calling the constructor with no options object is left out. The source then throws a `TypeError` while reading `options.driver`.
- Arguments that are `undefined` are left out: every method takes a `Value`. In the source, a first `select()` with no argument would record `select` as present but `undefined`.
- JavaScript dynamic typing is replaced by `Value`. Numbers are integers, so there is no floating point and no `NaN`. `where` and `insert` take objects, not arbitrary values, and boxed strings and class instances do not exist.
- `Lodash.Merge`: non-object source values overwrite. Lodash merges arrays index by index, merges a source object into an existing array, and skips `undefined` source values. None of that is modelled.
- `Lodash.Uniq`: values are compared structurally. Lodash's SameValueZero compares objects and arrays by reference, so two equal but distinct objects would both be kept.
- Aliasing is left out because values are immutable. `_.merge` mutates the stored criteria in place, and the guarded `from` branch mutates the caller's object.

