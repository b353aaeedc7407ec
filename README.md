# Roads-Models: the cached data-access layer, modelled in Dafny

Roads-Models is a small Node.js data-access layer. A *model module* is
configured with an entity definition (table, fields with their types,
nullability and validators, sort presets, association metadata). It loads
records from MySQL as *models*, and a model saves and deletes itself. Every
operation returns a *model request*: a chainable promise-like object with a
queue of stages (`addModifier`), a final `ready` handler, an `error` handler
and a `preload` stage that joins associated models into the delivered data.
The *cached model module* puts Redis in front of the database:

- records are cached as hashes under `models:<table>:<id>`;
- a secondary index maps `field:value` to an id;
- collections are cached as id sets;
- a cache key may carry a time bucket that is created on first use.

The project models these parts:

| file | module | what it holds |
|---|---|---|
| `js.dfy` | `Js` | JavaScript values and the coercions the layer relies on: truthiness, `String(v)`, `Array.prototype.join`, `Number(v)`, the numeric test of the validators |
| `schema.dfy` | `Schema` | the entity definition, `fix_data_type`, and the type switch both validators share |
| `cachekey.dfy` | `CacheKeys` | `_buildCacheKey` as a pure function, and what keys distinguish |
| `stores.dfy` | `Stores` | Redis (`CacheStore`: hashes, sets, strings, ttls, a failure switch) and a MySQL table (`SqlStore`: rows, a failure switch, a statement counter), as classes whose fields the commands update |
| `modelrequest.dfy` | `Requests` | `ModelRequest` as a class: the stage queue, ready and error handlers, kept errors, `bindRequest`, and the `preload` join |
| `model.dfy` | `Models` | the model class (slots, changed-field tracking, `save`, `delete`, `dataObject`); the inline validator `save` uses; the INSERT and UPDATE statements; `setModel`, `load` and `collection` of the plain module |
| `validationhandler.dfy` | `Validation` | the standalone `ValidationHandler` class and its `validateField` rules |
| `cachedmodel.dfy` | `CachedModels` | the cached module and the cached model |

Asynchrony is flattened. Each callback runs to completion in program order.
An operation returns the reply its request would deliver: `Ok` for `ready`,
`Err(StoreError(...))` for a cache or database error passed to `error`.
`Err(Raised(...))` marks an exception the code throws. Depending on where it
is thrown, it reaches the request's `error` handler, the caller, or nobody
(see "## Left out").

Each cached operation is a `method` of `CachedModelModule`. It changes the
`CacheStore` and `SqlStore` it holds. Its `ensures` ties the reply, the new
cache (`CacheOf(cache)`) and the number of statements sent to a pure function
of the old state, named `...On` (`LoadByIdOn`, `LoadArrayOn`, `UnsortedOn`,
...). The function returns an `Outcome(reply, cache, queries)`. Lemmas then
state what those functions promise: hits send no SQL; read-through makes the
next load a hit; collection sets are remembered and serve the next call; add
and remove change exactly one member; save and delete keep the record's hash
coherent.

Handlers and stages are the caller's code. `Requests` names them by tags, and
its methods return the step the request takes next instead of calling it.

The model follows the code where it differs from the layer's stated design:

- The sorted collection path (`cachedmodel.js:213-249`) only normalises
  `options.sort` and returns nothing; its sort-and-store body is commented
  out.
- `addToCachedCollection` and `removeFromCachedCollection` only SADD or SREM.
  They rebuild no sorted view.
- `CachedModel.delete` evicts no secondary index entry. As written it does not
  evict the record's hash either (see "## Findings").

The model follows the evident intent where the code as written cannot run:

- `_unsortedCachedCollection` loads its ids with `_self.load(ids)`
  (`cachedmodel.js:284`, `:312`). The only `load` there is the plain
  `load(value, field)` (`model.js:450-478`). It binds the whole list to the
  single placeholder of `where id = ? limit 1` and answers one model at most.
  The comments at `cachedmodel.js:281-283` and `:311` say the ids are turned
  into models from the cache. The model loads them with `_loadArray`.
- `_loadModel` and `_loadById` ask the database through
  `CachedModelModule.super_.prototype._loadModel` (`cachedmodel.js:519`,
  `:574`). The plain module defines no `_loadModel`, so as written that call
  throws a `TypeError` on every cache miss. The model asks the database as the
  plain `load(value, field)` does.

## Model

| member | source | states |
|---|---|---|
| `Js.ToNumberIdempotent` | libs/model.js:172-178 | converting with `Number` twice gives the same as once, and always a number or NaN |
| `Js.ToNumberOfText` | libs/model.js:172-178 | `Number` of an integer's decimal text is that integer, so an id read back from Redis as text converts to the number it was |
| `Js.Prop` | libs/modelrequest.js:147-149 | reading a property throws exactly when the value is null or undefined; otherwise it is the property, or undefined |
| `Schema.FixDataType` | libs/model.js:172-178 | `id` and `int` fields become a number or NaN; every other type keeps its value |
| `Schema.TypeCheck` | libs/validationhandler.js:118-150 | "invalid length" exactly for a string, or a numeric number, whose text is longer than a set non-zero length in UTF-16 code units, as `length` counts; "invalid number" exactly for a non-numeric number field; an exception exactly for a type other than string and number (for `date`, only where `util_module` is missing) |
| `CacheKeys.IdKeyBuilt` | libs/cachedmodel.js:79-111 | the key `_buildCacheKey([id])` builds is the prefix, `:` and the id's joined text |
| `CacheKeys.KeyExtendsPrefix` | libs/cachedmodel.js:79-111 | every key starts with the module's prefix, and is the prefix alone exactly when there is no key value, no parameter, no sort and no time |
| `CacheKeys.IdKeyInjective` | libs/cachedmodel.js:98-100 | two record keys are equal exactly when the ids join to the same text |
| `CacheKeys.TimedKeyText` | libs/cachedmodel.js:106-108 | a key with a time bucket is the key without it, then `:` and the bucket's text |
| `CacheKeys.BucketSeparatesKeys` | libs/cachedmodel.js:106-108 | two keys that differ only in their time bucket are equal exactly when the buckets have the same text |
| `CacheKeys.ParamOrderMatters` | libs/cachedmodel.js:98-100 | swapping two distinct parameters without a colon in them changes the key: parameters are a list, not a set |
| `CacheKeys.SaveKeyIsLoadKey` | libs/cachedmodel.js:630 | for a non-null id, the key `CachedModel.save` writes by hand is the key the loads read |
| `CacheKeys.FieldKeyText` | libs/cachedmodel.js:508 | the secondary-index key is `prefix:field:value` |
| `Stores.AddMembers` | libs/cachedmodel.js:128 | SADD: the members afterwards are the old ones and the new ones, and the old ones keep their order |
| `Stores.RemoveMember` | libs/cachedmodel.js:149 | SREM: the members afterwards are the old ones except the removed one |
| `Stores.FirstMatch` | libs/model.js:458-473 | `where field = ? limit 1`: none exactly when no row matches; otherwise the first matching row in table order |
| `Stores.RowsWithIds` | libs/cachedmodel.js:426-427 | `where id in (...)`: exactly the rows whose id is one of the listed ids |
| `Stores.RowsWithoutId` | libs/model.js:302 | `delete ... where id = ?`: exactly the rows whose id differs |
| `Stores.CacheStore.HGetAll` | libs/cachedmodel.js:564 | HGETALL fails exactly when the store does, and answers a record exactly when the key holds a hash |
| `Stores.CacheStore.SMembers` | libs/cachedmodel.js:275 | SMEMBERS fails exactly when the store does, and answers nothing exactly when the key holds no set or an empty one |
| `Stores.CacheStore.GetString` | libs/cachedmodel.js:333 | GET fails exactly when the store does, and answers a string exactly when the key holds one |
| `Stores.CacheStore.HMSet` | libs/cachedmodel.js:578 | HMSET merges the fields into the hash under the key; a failing store or no field changes nothing |
| `Stores.CacheStore.HDel` | libs/cachedmodel.js:646 | HDEL removes the listed fields of the hash, and the key once its hash is empty; with no field listed nothing changes |
| `Stores.CacheStore.Del` | libs/cachedmodel.js:511 | DEL removes the key, whatever it holds, and changes no other key |
| `Stores.CacheStore.SetString` | libs/cachedmodel.js:360 | SET stores the string under the key, failing exactly when the store does |
| `Stores.CacheStore.SAdd` | libs/cachedmodel.js:304 | SADD replaces the key's set by `Stores.AddMembers` of it |
| `Stores.CacheStore.SRem` | libs/cachedmodel.js:149 | SREM replaces an existing set by `Stores.RemoveMember` of it |
| `Stores.CacheStore.Expire` | libs/cachedmodel.js:305 | EXPIRE records the ttl only for a key that holds something |
| `Stores.SqlStore.SelectWhere` | libs/model.js:458-460 | one statement, answering the store's error or the first matching row |
| `Stores.SqlStore.SelectIds` | libs/cachedmodel.js:426-427 | one statement, answering the store's error or the rows with the listed ids |
| `Stores.SqlStore.Insert` | libs/model.js:244-246 | one statement; on success the row is appended |
| `Stores.SqlStore.UpdateWhereId` | libs/model.js:267-268 | one statement; on success the rows with the id take the changed columns |
| `Stores.SqlStore.DeleteWhereId` | libs/model.js:302-303 | one statement; on success the rows with the id are gone |
| `Stores.SqlStore.Query` | libs/model.js:489 | one statement, answering the store's error or the rows given for it |
| `Requests.ModelRequest.constructor` | libs/modelrequest.js:8-16 | a new request has the target's definition, an empty stage queue, no ready handler, the default error function and no kept error |
| `Requests.ModelRequest.Deliver` | libs/modelrequest.js:31-42 | `_ready(data)`: with stages queued, the oldest is taken off and receives the data; otherwise the final handler does; only with neither is the message logged |
| `Requests.ModelRequest.Fail` | libs/modelrequest.js:25-29 | `_error(err)` runs the current error function with the request as `this`; exactly when that is the default, the error is kept |
| `Requests.ModelRequest.Keep` | libs/modelrequest.js:25-29 | the default error function keeps the error |
| `Requests.ModelRequest.OnReady` | libs/modelrequest.js:73-76 | `ready(fn)` replaces the final handler and returns the request |
| `Requests.ModelRequest.OnError` | libs/modelrequest.js:55-66 | `error(fn)` replaces the error function and returns the request; once an error was kept, `fn` is called with it at once and the handler stays |
| `Requests.ModelRequest.OnValidationError` | libs/modelrequest.js:68-71 | `validationError(fn)` replaces the validation handler and returns the request |
| `Requests.ModelRequest.AddModifier` | libs/modelrequest.js:78-81 | `addModifier(fn)` appends the stage to the queue and returns the request |
| `Requests.ModelRequest.BindRequest` | libs/modelrequest.js:50-53 | after `bindRequest(target)`, final data goes to `target._ready`, so `target`'s stages still run, and errors go to the error function `target` held at binding, run as `target`; a kept error is handed over at once |
| `Requests.PreloadConfig` | libs/modelrequest.js:106-120 | `preload(field)` can go ahead exactly when the field is defined, its `assign_to` is a string and its `model_module` an object; it then yields those two |
| `Requests.ModelRequest.Preload` | libs/modelrequest.js:105-180 | `preload` throws exactly when the configuration is refused, leaving the queue alone; otherwise it appends the join stage and returns the request |
| `Requests.ModelRequest.Run` | libs/modelrequest.js:31-42 | driving a request delivers the data every queued stage hands on, in queue order; on success the queue is empty and the final step follows; a failing stage leaves the later stages queued |
| `Requests.RunAllAppend` | libs/modelrequest.js:78-81 | stages queued later run after the earlier ones, on what those hand on |
| `Requests.CollectIds` | libs/modelrequest.js:145-149 | the ids asked for are `data[i][field]` in list order; collecting throws exactly when some element is null or undefined |
| `Requests.AssocIndexSound` | libs/modelrequest.js:159-164 | every entry of the id index is a truthy loaded model filed under its own id |
| `Requests.AssocIndexLastWins` | libs/modelrequest.js:159-164 | every truthy loaded model is indexed, and among models sharing an id the last one wins |
| `Requests.DanglingJoinsNull` | libs/modelrequest.js:166-172 | an element whose id names no loaded model is joined to null, not an error |
| `Requests.Attach` | libs/modelrequest.js:152-173 | a single loaded value is assigned to the data object directly; a loaded list joins each element of a data list to its model or null, keeping length and order, and leaves any other data as it was |
| `Requests.RunPreload` | libs/modelrequest.js:125-177 | the join stage hands null on; a primitive is an error; a null element throws; the load's error goes to the request; otherwise the joined data goes on, a list keeping its length |
| `Requests.ErrorBeforeHandler` | libs/modelrequest.js:25-29 | an error raised before any error handler is registered reaches the handler registered afterwards, at once |
| `Requests.ErrorAfterHandler` | libs/modelrequest.js:55-66 | once a handler is registered, an error goes to it and nothing is kept |
| `Requests.ErrorIntoRequest` | libs/modelrequest.js:57-60 | a request passed to `error` receives the errors, and its own handler is called |
| `Requests.BoundRequestChain` | libs/modelrequest.js:50-53 | data from a bound request runs through the target's own stages before the target's final handler; an error is kept by a target without a handler and reaches the handler registered later |
| `Models.FixData` | libs/model.js:186-202 | building a model succeeds exactly when every key of the data is a defined field; the model holds the same keys, each converted by `fix_data_type` |
| `Models.FixDataStable` | libs/model.js:186-202 | building a model from a model's own data gives the same data |
| `Models.ModelValue` | libs/model.js:186-202 | a delivered model exists exactly when its data builds, and carries the converted data |
| `Models.Model.constructor` | libs/model.js:186-202 | a new model holds the converted data and no changed field |
| `Models.InlineCheck` | libs/model.js:565-628 | the alias gives the checked type and default length, and an explicit length replaces it; a type other than string, number and date throws, even when nullable; a nullable field never fails, and passes with null where the check failed |
| `Models.EmailLimit` | libs/model.js:573-600 | an email without its own length fails exactly above 256 UTF-16 code units, and passes as its text |
| `Models.IdLimit` | libs/model.js:578-611 | an id without its own length fails "invalid number" exactly when non-numeric, and "invalid length" exactly when numeric with more than ten UTF-16 code units |
| `Models.CheckField` | libs/model.js:624-638 | a field throws exactly when its check throws; a failed check is rejected with its message; only a field with a custom validator can stay unanswered; a rejection carries a truthy error |
| `Models.VerdictCompleteIff` | libs/model.js:531-546 | the inline handler's final callback fires exactly when every changed field reported, none by throwing |
| `Models.VerdictInvalid` | libs/model.js:531-546 | when it fires, the final callback receives exactly the rejected fields, each with its error |
| `Models.VerdictThrewStays` | libs/model.js:553-558 | once a field throws, the fields after it change nothing |
| `Models.InlineValidate` | libs/model.js:553-558 | the loop over the changed fields reaches the verdict the fields determine, stopping at the first exception |
| `Models.PlaceholderCount` | libs/model.js:237-245 | `n` placeholders joined with `, ` contain exactly `n` question marks |
| `Models.BuildInsert` | libs/model.js:236-246 | the INSERT binds the changed values in key order, one per column, and, when table and column names hold no `?`, has one placeholder per value |
| `Models.InsertCount` | libs/model.js:245 | the INSERT text holds exactly one `?` per column when no name holds one |
| `Models.BuildUpdate` | libs/model.js:261-268 | the UPDATE binds the changed values in key order and then the id, and, when no name holds `?`, has one placeholder per value |
| `Models.UpdateCount` | libs/model.js:268 | the UPDATE text holds one `?` per column plus one for the id |
| `Models.CheckDefinition` | libs/model.js:373-416 | `setModel` accepts a definition exactly when `definition` names neither a method nor a field |
| `Models.Model.DataObject` | libs/model.js:333-344 | `dataObject()` throws exactly when a field is named `definition`; otherwise it has one entry per defined field, holding that field's accessor value |
| `Models.Model.MarkDirty` | libs/model.js:388-392 | marking a field records its mark, and the field joins the changed keys once, in first-change order |
| `Models.Model.Set` | libs/model.js:383-407 | assigning a defined field stores the value and marks it changed; with a custom setter the mark is `true` and the slot is what the setter stored; any other key is a plain property; no other field changes |
| `Models.Model.ClearDirty` | libs/model.js:256 | after a write no field is marked changed |
| `Models.Model.Save` | libs/model.js:216-291 | nothing changed: nothing is sent; a pending or throwing validation sends nothing; invalid fields go to the validation handler; otherwise one INSERT (no id yet) or UPDATE with the changed values (then the id), and the marks are cleared only on success |
| `Models.Model.Write` | libs/model.js:236-281 | the insert appends the changed columns with the new id and sets the model's id; the update changes the row with the model's id; a failed statement changes nothing but the statement count |
| `Models.Model.Delete` | libs/model.js:298-319 | one DELETE; on success the row is gone and the model's id is null; on failure nothing changes |
| `Models.ModelsOf` | libs/model.js:495-499 | a collection succeeds exactly when every row builds, with one model per row in row order |
| `Models.ModelsOfFirstError` | libs/model.js:495-499 | a failing collection fails with the first failing row's error |
| `Models.ModelModule.constructor` | libs/model.js:418-420 | the module holds the definition and the connection |
| `Models.ModelModule.Load` | libs/model.js:450-478 | `load(value, field)` sends one statement; it delivers the store's error, null when no row matches on `field` (default `id`), else the first matching row as a model |
| `Models.ModelModule.Collection` | libs/model.js:486-505 | `collection` sends one statement and delivers the store's error or the rows as models, in order |
| `Models.SetModel` | libs/model.js:418-448 | `setModel` fails exactly when the reserved-word checks refuse the definition |
| `Models.NewModel` | libs/model.js:426-428 | the configured class builds a model exactly when its data builds |
| `Validation.NullRule` | libs/validationhandler.js:100-116 | a non-nullable null or undefined fails "can not be null" whatever its type; a nullable field reads undefined as null; otherwise nullability changes nothing |
| `Validation.LengthIgnored` | libs/validationhandler.js:84-97 | the standalone validator ignores the definition's own `length`: only the alias decides it |
| `Validation.AliasLimits` | libs/validationhandler.js:84-97 | an email fails on length exactly above 256 UTF-16 code units, an ip above 15; an id fails as a number exactly when non-numeric, and on length above ten units |
| `Validation.AstralIpTooLong` | libs/validationhandler.js:93-126 | eight characters outside the Basic Multilingual Plane are sixteen code units, so as an ip they fail "invalid length" |
| `Validation.UnknownTypeThrows` | libs/validationhandler.js:140-148 | every type other than string and number throws once it reaches the type switch, `date` included |
| `Validation.NullableNull` | libs/validationhandler.js:100-107 | a nullable null passes a string field as the text "null" and fails a number field, where the inline validator accepts both |
| `Validation.FinalOf` | libs/validationhandler.js:35-41 | the final handler receives null exactly when nothing was invalid, else the invalid fields; without a handler the message is logged |
| `Validation.ValidationHandler.constructor` | libs/validationhandler.js:6-19 | the handler's pending data holds exactly the model's changed fields with their slot values, in change order, and nothing is invalid |
| `Validation.ValidationHandler.SetReady` | libs/validationhandler.js:44-47 | `ready(fn)` sets the final handler |
| `Validation.ValidationHandler.Ready` | libs/validationhandler.js:24-42 | `_ready(err, field)` crosses a truthy field off, records a truthy error under the field's text, and fires once nothing is pending |
| `Validation.ValidationHandler.ValidateFields` | libs/validationhandler.js:49-69 | with nothing pending, `validateFields` fires at once; otherwise it defers the loop and changes nothing yet |
| `Validation.ValidationHandler.ValidateField` | libs/validationhandler.js:76-161 | one field: null rule, alias and type check, then the custom validator only for a passing value; its report reaches `_ready` |
| `Validation.ValidationHandler.Tick` | libs/validationhandler.js:57-66 | the deferred loop visits the fields pending when it started, skips those crossed off meanwhile and stops at an exception |
| `Validation.ExpectedMeaning` | libs/validationhandler.js:24-42 | the invalid fields expected are exactly the pending defined fields whose report is a truthy error, each with that error |
| `Validation.FieldStep` | libs/validationhandler.js:152-160 | a field whose validator calls back with its own name is crossed off, its error is recorded if truthy, and the final handler fires exactly when it was the last |
| `Validation.Completion` | libs/validationhandler.js:57-66 | when every pending field's validator calls back with its own name, the loop empties the pending set and fires the final handler once, with the expected invalid fields |
| `Validation.CustomOnlyAfterPass` | libs/validationhandler.js:152-160 | the custom validator is not consulted for a value that fails or throws; a failing value is recorded with its message |
| `Validation.EmptyReportsNull` | libs/validationhandler.js:52-55 | validating no changed field reports null to the final handler |
| `Validation.ValidateUnchanged` | libs/validationhandler.js:52-55 | a model with no changed field gets exactly one final call, with null |
| `Validation.ValidateChanged` | libs/validationhandler.js:49-69 | with cooperative validators, the final handler is called exactly once, with null or the expected invalid fields, and nothing stays pending |
| `Validation.CompletionFromStart` | libs/validationhandler.js:49-69 | from a fresh handler, the deferred loop ends with one final call carrying the expected invalid fields |
| `Validation.PendingOf` | libs/validationhandler.js:9-15 | the pending data holds exactly the changed fields |
| `CachedModels.GetTimeStores` | libs/cachedmodel.js:330-373 | `getTime` fails exactly when the cache does; whatever bucket it answers is, as text, the one stored afterwards; no other string, hash or set changes |
| `CachedModels.GetTimeStable` | libs/cachedmodel.js:330-373 | a second `getTime` answers the bucket the first one stored and changes nothing |
| `CachedModels.NormalOptions` | libs/cachedmodel.js:33-35 | a string option stands for `{ key : { value : string } }` |
| `CachedModels.StringOptionsKey` | libs/cachedmodel.js:30-54 | a plain name builds the key prefix, `:name` (when not empty) and the parameters, with no ttl and no cache access |
| `CachedModels.MissingKeyThrows` | libs/cachedmodel.js:42 | options without a key throw before any cache access |
| `CachedModels.TimerNeedsBucket` | libs/cachedmodel.js:42-45 | a timed key fails with the cache's error when the bucket cannot be read |
| `CachedModels.TimedKeyStable` | libs/cachedmodel.js:42-50 | building the same timed key twice gives the same key and ttl, and the second build changes nothing |
| `CachedModels.BucketStable` | libs/cachedmodel.js:42-47 | a second bucket lookup answers a bucket with the same text as the first, and changes nothing |
| `CachedModels.LoadByIdHit` | libs/cachedmodel.js:564-571 | a cached record is served from its hash, with no SQL and no cache change |
| `CachedModels.LoadByIdMiss` | libs/cachedmodel.js:573-583 | a miss sends one statement and delivers the database's answer; a missing row changes no cache entry, and strings and sets never change |
| `CachedModels.ReadThrough` | libs/cachedmodel.js:559-587 | after a miss that found the row, loading the same id again is a hit: same model, no SQL, no cache change |
| `CachedModels.FindIdOn` | libs/cachedmodel.js:540-552 | `_findId` fails exactly when the cache does, and answers the id the index holds, or null when there is no entry |
| `CachedModels.LoadModelById` | libs/cachedmodel.js:489-495 | `_loadModel` with no field, or `id`, is `_loadById` |
| `CachedModels.IndexedLoad` | libs/cachedmodel.js:497-516 | through an index entry the model is loaded by that id; the entry is rewritten to the found model's id, or deleted when no model was found |
| `CachedModels.UnindexedLoad` | libs/cachedmodel.js:517-529 | without an index entry the database is asked once by the field; a found model gets its index entry and its record hash written; otherwise the cache is unchanged |
| `CachedModels.SlotsAligned` | libs/cachedmodel.js:412-419 | the batched HGETALLs give one slot per id, in id order: the cached model, or null for a miss |
| `CachedModels.MissIdsExact` | libs/cachedmodel.js:413-416 | the ids asked of the database are exactly those without a cached hash; none exactly when every id was cached |
| `CachedModels.ByIdKeys` | libs/cachedmodel.js:456-461 | the id map holds exactly the ids of the returned rows |
| `CachedModels.ByIdLast` | libs/cachedmodel.js:456-461 | each row's model is filed under its id, and a later row with the same id replaces it |
| `CachedModels.FillWritesExact` | libs/cachedmodel.js:464-471 | the write-back writes exactly the models found for missed slots, each under its own record key with its data |
| `CachedModels.FillMissingKeeps` | libs/cachedmodel.js:450-478 | cached slots keep their model; each missed slot gets the model with its id, or null; equal ids get equal models |
| `CachedModels.FillMissingDanglingId` | libs/cachedmodel.js:466-469 | as written, a missed id the database no longer has throws; corrected, its slot is null |
| `CachedModels.FillMissingAgrees` | libs/cachedmodel.js:450-478 | without a dangling id, the code as written and the corrected merge agree |
| `CachedModels.EmptyListAnsweredOnce` | libs/cachedmodel.js:389-393 | as written an empty list is answered twice, the second time possibly with an error; corrected, it is answered once with the empty list |
| `CachedModels.AllHitsNoQuery` | libs/cachedmodel.js:436-438 | when every id is cached, the list is served from the hashes with no SQL and no cache change |
| `CachedModels.LoadArrayAligned` | libs/cachedmodel.js:381-442 | a batch load delivers one entry per id, in id order: the cached model for hits, the database's model or null for misses; exactly one statement is sent when something missed, none otherwise |
| `CachedModels.LoadArrayKeeps` | libs/cachedmodel.js:381-442 | a batch load changes record hashes only |
| `CachedModels.NormalSortOn` | libs/cachedmodel.js:216-230 | an object sort always normalises: a nullish field becomes `id` and any other is kept; a falsy direction becomes `DESC` and a truthy one is kept; an array sort becomes `id` `DESC`; a null or undefined sort throws; a normalised sort has a non-null field and a truthy direction |
| `CachedModels.PresetIsItsSort` | libs/cachedmodel.js:216-226 | a preset's name normalises exactly as the preset object it names |
| `CachedModels.UnknownSortThrows` | libs/cachedmodel.js:216-219 | a preset name the definition does not hold as an object throws "Invalid pre-defined sort" |
| `CachedModels.PresetNormalisedOnce` | libs/cachedmodel.js:221-230 | writing the defaults back into a preset, as the code does, leaves later normalisations of that preset unchanged |
| `CachedModels.CollectionRoutes` | libs/cachedmodel.js:161-173 | a truthy sort takes the sorted path, which touches nothing and delivers nothing; otherwise the reply, cache and statements are the unsorted collection's |
| `CachedModels.SetHitRunsNoStatement` | libs/cachedmodel.js:281-285 | a non-empty id set is loaded as it is, without running the collection's statement |
| `CachedModels.EmptyResultNotCached` | libs/cachedmodel.js:298-300 | a statement that finds nothing delivers the empty list after one statement and caches nothing |
| `CachedModels.ResultRemembered` | libs/cachedmodel.js:301-313 | a non-empty result is remembered as the set, with its expiry, before its models are loaded; one statement more than the load |
| `CachedModels.RememberedIds` | libs/cachedmodel.js:303-309 | the remembered set holds exactly the ids' texts, expiring when a ttl is given; nothing else changes |
| `CachedModels.SetFilled` | libs/cachedmodel.js:286-315 | after a statement with results the set under the key is non-empty, and no string changed |
| `CachedModels.RememberedSetServesNext` | libs/cachedmodel.js:258-321 | after a first call whose statement found models, the same call again is served from the remembered set, whatever the statement would return now |
| `CachedModels.AddedIsMember` | libs/cachedmodel.js:120-131 | adding fails exactly when the key cannot be built; otherwise the set's members are the old ones and the value, and no other set changes |
| `CachedModels.RemovedIsAbsent` | libs/cachedmodel.js:141-152 | removing fails exactly when the key cannot be built; otherwise the set's members are the old ones without the value, and no other set changes |
| `CachedModels.AddThenRemove` | libs/cachedmodel.js:120-152 | adding a value and removing it later leaves exactly the old members without that value |
| `CachedModels.SaveThenLoadHits` | libs/cachedmodel.js:625-633 | after a save wrote the record's data, loading that id is a hit on the saved fields, with no SQL |
| `CachedModels.DeleteLeavesStaleHit` | libs/cachedmodel.js:640-649 | as written, after deleting a cached record, loading its id still answers the stale model without SQL |
| `CachedModels.DeleteEvicts` | libs/cachedmodel.js:640-649 | corrected, after a delete, loading the id asks the database and delivers null |
| `CachedModels.CachedModelModule.constructor` | libs/cachedmodel.js:594-599 | a configured cached module has the prefix `models:<table>` and shares the plain module's definition and connection |
| `CachedModels.SetCachedModel` | libs/cachedmodel.js:594-599 | `setModel` fails exactly when the reserved-word checks refuse the definition, and otherwise configures the module with the prefix `models:<table>` |
| `CachedModels.CachedModelModule.GetTime` | libs/cachedmodel.js:330-373 | reply and strings afterwards are `getTime`'s (see `GetTimeStores`) |
| `CachedModels.CachedModelModule.BuildCacheKey` | libs/cachedmodel.js:30-54 | the key, ttl and bucket write are those `buildCacheKey` makes (see `TimedKeyStable`) |
| `CachedModels.CachedModelModule.LoadById` | libs/cachedmodel.js:559-587 | the reply, cache and statement count follow `_loadById`: a hit from the hash, else the database and a write-back (see `LoadByIdHit`, `LoadByIdMiss`, `ReadThrough`) |
| `CachedModels.CachedModelModule.FindId` | libs/cachedmodel.js:540-552 | the reply is the index lookup, with no change |
| `CachedModels.CachedModelModule.LoadModel` | libs/cachedmodel.js:486-532 | the reply, cache and statement count follow `_loadModel` (see `LoadModelById`, `IndexedLoad`, `UnindexedLoad`) |
| `CachedModels.CachedModelModule.LoadByIndex` | libs/cachedmodel.js:497-531 | the load by another field, through the index or the database |
| `CachedModels.CachedModelModule.LoadIndexed` | libs/cachedmodel.js:502-516 | the model is loaded by the indexed id; the entry is then pointed at the found model's id, or deleted |
| `CachedModels.CachedModelModule.LoadUnindexed` | libs/cachedmodel.js:517-529 | one statement by the field; a found model gets its index entry and its hash |
| `CachedModels.CachedModelModule.RememberModel` | libs/cachedmodel.js:520-525 | a found model's index entry and hash are written; nothing for null or an error |
| `CachedModels.CachedModelModule.FillMissing` | libs/cachedmodel.js:450-478 | the merge's reply and hash writes (see `FillMissingKeeps`, `FillWritesExact`) |
| `CachedModels.CachedModelModule.FileById` | libs/cachedmodel.js:458-461 | the returned rows filed by id (see `ByIdKeys`, `ByIdLast`) |
| `CachedModels.CachedModelModule.FillSlots` | libs/cachedmodel.js:464-471 | the slots filled from the id map, and exactly the hash writes `FillWritesExact` describes |
| `CachedModels.CachedModelModule.CachedSlots` | libs/cachedmodel.js:400-419 | the slots of the batched lookup and the ids it missed (see `SlotsAligned`, `MissIdsExact`) |
| `CachedModels.CachedModelModule.LoadArray` | libs/cachedmodel.js:381-442 | the reply, cache and statement count follow `_loadArray`, answering an empty list once (see `LoadArrayAligned`, `LoadArrayKeeps`) |
| `CachedModels.CachedModelModule.UnsortedCollection` | libs/cachedmodel.js:258-321 | the reply, cache and statement count of the unsorted collection (see `RememberedSetServesNext`) |
| `CachedModels.CachedModelModule.FromSet` | libs/cachedmodel.js:275-317 | the id set under the key serves the call, or the statement runs and its ids are remembered (see `SetHitRunsNoStatement`, `ResultRemembered`) |
| `CachedModels.CachedModelModule.SetMiss` | libs/cachedmodel.js:286-315 | the statement's ids are remembered and loaded, or the empty list is delivered uncached (see `EmptyResultNotCached`) |
| `CachedModels.CachedModelModule.RememberSet` | libs/cachedmodel.js:303-309 | the SADD and, with a ttl, the EXPIRE (see `RememberedIds`) |
| `CachedModels.CachedModelModule.CachedCollection` | libs/cachedmodel.js:161-173 | the reply, cache and statement count of `cachedCollection` (see `CollectionRoutes`) |
| `CachedModels.CachedModelModule.CollectionKey` | libs/cachedmodel.js:123-126 | the key add and remove write under, or the error that reaches the request |
| `CachedModels.CachedModelModule.AddToCachedCollection` | libs/cachedmodel.js:120-131 | the SADD under the built key (see `AddedIsMember`) |
| `CachedModels.CachedModelModule.RemoveFromCachedCollection` | libs/cachedmodel.js:141-152 | the SREM under the built key (see `RemovedIsAbsent`) |
| `CachedModels.CachedModel.constructor` | libs/cachedmodel.js:608-610 | a cached model wraps a plain model and the module's cache |
| `CachedModels.CachedModel.Save` | libs/cachedmodel.js:625-633 | once the plain save delivers the model (after a write, or at once when nothing changed), its `dataObject()` is merged into the record's hash under its (possibly new) id, unless `dataObject()` throws; on any other outcome the cache is unchanged; nothing changed means no statement |
| `CachedModels.CachedModel.Delete` | libs/cachedmodel.js:640-649 | one DELETE; on success the row is gone, the record's hash under the old id is evicted (corrected, see "## Findings") and the model's id reads null, marked changed when `id` is a field; on failure neither store nor the model changes |

## Left out

- Models.CheckField: a custom validator in the inline handler is assumed to call back naming its own field. The callback it gets is `_ready` bound without a field (`libs/model.js:632`), so a validator that passes only an error leaves its field pending. `Validation.FieldOn` models the general `(err, field)` callback for the standalone handler.
- Models.VerdictCompleteIff: stated under the same assumption as `Models.CheckField`.
- Models.Model.Save: stated under the same assumption as `Models.CheckField`. Custom validators that answer asynchronously or more than once are not modelled. `None` stands for one that never answers.
- Requests.RunPreload: on success the contract states only that a list keeps its length. The joined content is stated by `Requests.Attach`, which the stage calls.
- Requests.ModelRequest.Run: on failure the contract states only that some non-empty prefix of the stages was consumed.
- CachedModels.CachedModel.Delete: when `id` has a custom setter, the model's state after a successful delete is not stated; it is the setter's effect, as for `Models.Model.Set`.
- CachedModels.CachedModel.Save: the contract states the cache effect. The outcome of the save itself is `Models.Model.Save`'s, which it calls.
- Timing is not modelled: `process.nextTick`, the order in which concurrent requests interleave, and fire-and-forget Redis writes. Writes are applied in program order and their replies are dropped.
- `Date.now() / 1000` in `setTime` is the parameter `now`.
- The SQL text of `collection(sql, params)` is not interpreted. The parameter `answer` stands for the rows it returns. The insert's `insertId` is a parameter.
- Floating point is not modelled: numbers are integers and `parseFloat` / `isFinite` reduce to "the text is an integer".
- Js.ToNumber: only integers, numeric text and the basic constants convert. Where `Number` converts an array (`Number([5])` is 5), text with surrounding blanks (`" 5"`), a `+` sign (`"+5"`), hexadecimal (`"0x10"`) or blank text (`"  "` is 0), the model answers NaN.
- Stores.RowsWithIds: `_loadArray` splices the ids into the SQL text with `join(',')` (`cachedmodel.js:423-427`). A null id leaves an empty item (`in (3,)`) and non-numeric text breaks the statement. The model matches ids as values, so such an id only answers a null slot. `Stores.SqlStore.SelectIds` inherits this.
- Date values are not modelled. `util.isDate` holds of no value here.
- `JSON.parse` of a string passed to the model constructor is not modelled: data is a record.
- Redis's string coercion of stored values is not modelled: hashes keep values as given. Set members are texts, and SMEMBERS answers them in insertion order, where Redis gives no order.
- The order of `for ... in` is the field order the model records (first-change order for changed fields). Prototype keys and named properties on arrays are not modelled. So `Array.prototype.sort` named as a sort preset is not modelled either.
- A thrown `TypeError` and an `Error` created by the code are both `Err(Raised(...))`, with the message as the engine would write it. Where the exception goes is not modelled. The members below answer `Err(Raised(...))` where the source never calls the request's `error`.
- CachedModels.LoadArrayOn: `_loadArray` with null or undefined ids throws to its caller before any request exists (`cachedmodel.js:384-386`).
- CachedModels.KeyTimer: options without a `key` make `buildCacheKey` throw to its caller (`cachedmodel.js:42`). `CachedModels.BuildCacheKeyOn` and `CachedModels.CollectionKeyOn` inherit this.
- CachedModels.NormalSortOn: an unknown preset or a null sort throws to the caller of `cachedCollection` (`cachedmodel.js:216-219`).
- CachedModels.CachedCollectionOn: options that are null or undefined throw to the caller (`cachedmodel.js:168`).
- CachedModels.LoadByIdOn: a record whose data does not build a model throws inside the Redis or MySQL callback (`cachedmodel.js:570`). The exception escapes and the request is never answered. `CachedModels.DbLoadOn`, `CachedModels.SlotsFrom`, `Models.ModelValue` and `Models.ModelsOf` model the same throw, inside the callbacks at `cachedmodel.js:412-419` and `model.js:473`, `:497-499`.
- CachedModels.FillMissingAsWritten: the dangling id's `TypeError` is thrown inside the MySQL callback (`cachedmodel.js:466-469`), so that request is never answered either.
- Custom field setters, getters and extra methods are caller code. A setter's effect is a parameter (`customEffect`), and getters are the stored slot.
- `onSave` and `onDelete` events from the definition are not modelled. The default handlers deliver the model, or null.
- The `request` argument of `addToCachedCollection` and `removeFromCachedCollection` is assumed present. A `params` that is not an array makes the callback that argument, and calling it throws, as `CollectionKeyOn` states.
- `libs/model.js:17-170` holds an older copy of `ModelRequest` whose `preload` calls `_locateModels` (`libs/model.js:513-515`). That copy and `_locateModels` are not modelled. `Requests` models `libs/modelrequest.js`.
- The cached module's `load(ids)` calls and super `_loadModel` calls are modelled as intended, not as written; see the list after the module table.
- `_sortedCachedCollection` only normalises the sort, and its store-and-sort body is commented out. The model does the same: the sorted path delivers nothing.
- Normalising a sort preset writes the defaults into the shared preset object. `PresetNormalisedOnce` shows a second normalisation gives the same sort, so the write-back is not modelled as state.
- Loads read record keys through `IdKey`, which `CacheKeys.IdKeyBuilt` proves equal to the key `_buildCacheKey([id])` builds.
- Connection set-up (`libs/connection.js`, `libs/connections/*`) and the example application are not part of this model.

## Findings

| source | as written | input that shows it | evidently intended | confidence | as-written member | corrected member |
|---|---|---|---|---|---|---|
| libs/cachedmodel.js:646 | `CachedModel.delete` calls `hdel` with the record's key and no field, which removes nothing, so the deleted record's hash survives | a cached record with id 1 is deleted; the next load of id 1 hits the stale hash and answers the deleted model without SQL | the record's hash is removed, so the next load asks the database and answers null | not executed | `CachedModels.DeleteThroughAsWritten`, `CachedModels.DeleteLeavesStaleHit` | `CachedModels.DeleteThroughOn`, `CachedModels.DeleteEvicts`, `CachedModels.CachedModel.Delete` |
| libs/cachedmodel.js:466-469 | `_fillMissingCacheValues` reads `model.id` of the row found for each missed id; an id with no row gives `undefined`, and reading `.id` throws | slots `[null]`, ids `[1]`, the database returns no row | a missed id the database does not have becomes null, as a single load does | not executed | `CachedModels.FillMissingAsWritten`, `CachedModels.FillMissingDanglingId` | `CachedModels.FillMissingOn`, `CachedModels.FillMissingKeeps` |
| libs/cachedmodel.js:389-393 | `_loadArray([])` schedules `_ready([])` for the next tick and also runs the empty batch, whose callback calls `_ready` again | `_loadArray([])`: the request is answered twice, and the second time with the cache's error when the cache fails | an empty list is answered once, with the empty list | not executed | `CachedModels.LoadArrayRepliesAsWritten`, `CachedModels.EmptyListAnsweredOnce` | `CachedModels.LoadArrayOn`, `CachedModels.CachedModelModule.LoadArray` |
