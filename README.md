# gorm-cache read path, modelled in Dafny

gorm-cache is a cache-aside plugin for the gorm ORM. It replaces gorm's query
hook. A read whose result type belongs to a registered model is first looked
up in a key-value store under a key derived from the SQL. A hit is decoded into
the destination without touching the database. A miss runs the query through a
single-flight group and marks the statement. Then an after-query hook encodes
the marked result sparsely (non-zero fields only) and stores it with a fixed
expiry. The repository also ships an in-memory store whose entries expire
lazily on read.

The project models:

- `errors.dfy` (module `Errors`): `ErrGormCache`, `NewErrGormCache` and the
  `"gorm-cache:"` message prefix.
- `gotypes.dfy` (module `GoTypes`): Go types as pointer/slice/array layers
  around a named type. It has `structType` (a method with the source's two
  loops, proved against the function `StructTypeOf`) and the name-set loop of
  `Models`.
- `records.dfy` (module `Records`): `queryResult`. A record is one
  `(value, isZero)` cell per schema field. The payload is an abstract
  structured value: a map of non-zero fields, or a list of such maps where a
  nil entry stands for an all-zero element. It is not JSON text.
- `cacher.dfy` (module `Cacher`): the functional options, `Initialize`, the
  `query` and `queryAfter` hooks, `queryFromDB`, `unmarshalToDB` and
  `canCache`. gorm's statement is the class `DB`, which holds the dry-run flag,
  the error list, the result value, `RowsAffected` and the marker for a
  coalesced miss. The store's `Get`/`Set` answers, the database's answer and
  the JSON decoder's answer are parameters. A ghost log `calls` records every
  store call and every execution, so "no store call" and "never executed" can
  be stated.
- `memkv.dfy` (module `MemKV`): the in-memory store `Mdb`. It is a class with
  a value map and an expiry map. Its methods take `now` explicitly.

The model keeps these behaviours of the code, although a cache-aside design might be expected to do otherwise:

- An element whose fields are all zero is encoded as a nil entry, not as an
  empty map (cacher.go:200-202).
- A decode error on a hit is added to the statement unwrapped
  (cacher.go:219-221). Store and encoder errors are wrapped.
- The result is written back only after an execution that went through the
  single-flight group. That path is taken only when the cache key is
  non-empty (cacher.go:129-136, 149-151). A custom key function that returns
  `""` therefore disables caching of results, although the store is still
  asked.
- The pluggable codec is never used: encoding and decoding call the JSON
  package directly (cacher.go:192, 207, 218).
- An entry is still served at exactly its expiry instant, because the test is
  a strict "before" (cachekv/mem.go:28).

## Model

| member | source | states |
|---|---|---|
| `Errors.Message` | cacher.go:39 | a plain error's message is its text. A wrapped error's message is `"gorm-cache:"` followed by the inner error's message |
| `Errors.NewErrGormCache` | cacher.go:39-47 | nil maps to nil. A non-nil error is wrapped once, and the wrapper's message is `"gorm-cache:"` followed by the inner message |
| `GoTypes.Deref` | cacher.go:240-243 | the result is never a pointer, and the input is that result under some number of pointer layers |
| `GoTypes.StructTypeOf` | cacher.go:239-255 | the type whose name decides cacheability is never a pointer |
| `GoTypes.StructType` | cacher.go:239-255 | the two loops over `typ` compute exactly `StructTypeOf` and never return a pointer type |
| `GoTypes.DerefPtrs` | cacher.go:241-243 | removing pointers from any number of pointer layers around a non-pointer gives that type back |
| `GoTypes.StructTypeOfCollection` | cacher.go:245-250 | `Ptr*(Slice or Array(Ptr*(T)))` yields `T`. Only one collection layer is removed, so a nested collection comes back unnamed |
| `GoTypes.StructTypeOfPlain` | cacher.go:239-255 | a non-collection type behind any number of pointers is returned with all pointers stripped |
| `GoTypes.ModelNameSet` | cacher.go:267-275 | the loop of `Models` builds exactly the set of `structType(m).Name()` over the models: each model's name is in it, and nothing else is |
| `GoTypes.RegisteredModelCoversQueries` | cacher.go:171-175 | registering a model makes a query for `*T`, `[]T`, `[]*T`, an array of `T`, or a pointer to any of them pass `canCache` |
| `Records.SparseFieldsEncodable` | cacher.go:185-193 | a zero field is dropped before encoding, so the sparse map is encodable when no non-zero field holds an unsupported value. With distinct field names the converse holds too |
| `Records.MarshalFailsOnNonZeroUnsupported` | cacher.go:185-208 | for a struct, slice or array, the encoder succeeds when no non-zero field of any record holds an unsupported value. With distinct field names it succeeds exactly then |
| `Records.SparseFieldsKeys` | cacher.go:185-191 | the keys of a struct's map are exactly the names of its non-zero fields |
| `Records.SparseFieldsValues` | cacher.go:186-190 | with distinct field names, each non-zero field maps to its own value, and a zero field is absent |
| `Records.EntryNilIffEmpty` | cacher.go:199-204 | a collection entry is nil exactly when the element has no non-zero field, so an entry is never an empty map |
| `Records.ListShape` | cacher.go:194-208 | for any schema, repeated field names included, the list has one entry per element, and entry i is nil iff element i is all zero, so it is never an empty map |
| `Records.ListEntries` | cacher.go:194-208 | with distinct field names, the list has one entry per element. Entry i is nil iff element i is all zero, and otherwise holds exactly element i's non-zero fields with their values |
| `Records.EntryStep` | cacher.go:197-206 | one step of the field loop creates the entry's map lazily on the first non-zero field and adds that field |
| `Records.QueryResult` | cacher.go:179-213 | a struct, slice or array gives `ok` with the sparse payload, or with the encoder's error and no payload. Any other kind gives `(false, none, nil)` |
| `Records.EncodeElements` | cacher.go:194-208 | the nested field/element loops over the fixed-size entry array produce exactly the list of sparse entries |
| `Cacher.LastModelsWins` | cacher.go:72-74 | options apply in order, so a later `Models` replaces the names of any earlier one |
| `Cacher.NoModelsNoNames` | cacher.go:62-75 | without a `Models` option the name set is empty |
| `Cacher.GormCacher.constructor` | cacher.go:62-76 | the default key function is the dialect's rendering of the SQL. Options are applied in order, and the last `Models` and the last `CacheKeyFunc` win |
| `Cacher.GormCacher.Initialize` | cacher.go:82-96 | with no model names it returns the wrapped configuration error and installs nothing. Otherwise it returns the wrapped registration error, if any, and the hooks are installed only on success |
| `Cacher.GormCacher.CanCache` | cacher.go:171-175 | a result is cacheable iff the name of its `structType` is registered. A pointer in front of the result type makes no difference, and with no model registered nothing is cacheable |
| `Cacher.GormCacher.Query` | cacher.go:99-121 | dry run or earlier error: nothing happens. Ineligible: the query runs directly and the store is never called. Eligible: the store is asked under the key. A store error is added wrapped and the query is not run. A hit is decoded and the query is not run. A miss runs through the single-flight group under the key |
| `Cacher.GormCacher.QueryFromDB` | cacher.go:124-145 | a non-empty key runs through the single-flight group and marks the statement. An execution error is added unwrapped. Rows replace the result and its count |
| `Cacher.GormCacher.QueryAfter` | cacher.go:148-168 | the store is written only if the statement is marked, has no error and has a schema, and the result passes `canCache`. An unsupported kind is skipped silently. An encoder or `Set` error is added wrapped. Otherwise `Set` receives the key, the sparse payload and the configured expiry |
| `Cacher.GormCacher.UnmarshalToDB` | cacher.go:216-236 | a decode error is added unwrapped and `RowsAffected` is untouched. The result then holds whatever the decoder wrote before failing, which may be nothing or part of the destination. Otherwise `RowsAffected` is 1 for a struct and the decoded length for a slice or array, and the result is replaced |
| `Cacher.GormCacher.QueryCallbacks` | cacher.go:86-94 | with `query` then `queryAfter` on a fresh statement: an ineligible result never reaches the store. A store error fails the read without running it. A hit is neither run nor written back. A miss with a non-empty key is run once and marked. Its sparse encoding is stored under the key the key function gives for the statement, the same key the store was asked under, and a `Set` error is added wrapped. A failed execution leaves only its own error. An unsupported kind or a missing schema skips the write-back. An unencodable result ends with the wrapped encoder error and no `Set`. An empty key skips the write-back. Each case states the statement's final errors, result, `RowsAffected` and marker |
| `MemKV.Mdb.constructor` | cachekv/mem.go:16-22 | the store starts with two empty tables |
| `MemKV.Mdb.Get` | cachekv/mem.go:24-39 | never an error. A hit iff the key is in both tables and its expiry is not before `now`. While both tables hold the same keys, the expiry alone decides. An expired key is deleted from both tables and nothing else changes. Otherwise both tables are unchanged, and a miss returns `""` |
| `MemKV.Mdb.Set` | cachekv/mem.go:41-45 | always nil. Value and expiry are overwritten for `key` only, which is then live exactly up to `now + exp` inclusive |
| `MemKV.SetThenGet` | cachekv/mem.go:24-45 | after `Set` at `t`, `Get` at `now` returns the value iff `now <= t + exp`, and both tables hold the new value and expiry. A later read misses and evicts the key from both tables |
| `MemKV.MemKVScenario` | cachekv/mem_test.go:9-28 | a fresh store misses on a key never set, and a value set with a one-second expiry is returned by a read within that second |

## Left out

- Concurrent-miss coalescing (`singleflight.Group.Do`): only the caller that runs the shared execution is modelled. That caller executes with the key and sets the marker. A caller that joins an in-flight execution does not get the marker, and this is not represented.
- Callback registration, `callbacks.BuildQuerySQL`, `ConnPool.QueryContext`, `gorm.Scan`, `rows.Close` and `Logger.Info` are foreign calls. Their results are parameters (`registerErr`, `ExecOutcome`), and the log message for an unsupported kind is dropped.
- `Cacher.GormCacher.Initialize`: gorm's `Replace` and `Register` are folded into one registration outcome. A failure after the query hook was replaced but before the after-hook was registered is not distinguished.
- The dialect's `Explain`, used by the default key function, is the constructor parameter `explain`, an arbitrary function.
- `Cacher.GormCacher.QueryCallbacks`: the key function is modelled as a function of the SQL text and its variables only. In the source it receives the whole `*gorm.DB` and is evaluated again after the query (cacher.go:159), by which time the context, the result and `RowsAffected` have changed. The model's "the write-back uses the key that was read" therefore holds in the source only for key functions that read nothing the execution changes. The default key function is one of them.
- JSON text is not modelled. The payload is a structured value. `Records.MarshalError`, the model of `json.Marshal`, fails exactly on values marked unsupported; this is an assumption about the encoder, not a proved property, and the error message is a constant. `json.Unmarshal` is the parameter `DecodeOutcome`, including what a failed decode has already written into the destination, so no round trip through the store is claimed.
- `Codec`, `WithCodec` and `stdJsonCodec` are not modelled: nothing on the query path reads the configured codec.
- `Name()` (the plugin name method) is the constant `Errors.Name`. The store interface `CacheKV` is not modelled as a type: the cacher receives its answers as parameters.
- Named slice or array types (`type Users []User`) cannot be written as a `GoType`. Neither can interface values behind `ReflectValue`.
- `cachekv/redis.go`, a thin wrapper over the Redis client, and `doc.go`, documentation of an older API, are not part of this model.
- `MemKV`: `sync.Map` thread safety and the wall clock are replaced by plain maps and the `now` parameter. `time.Time.Add` is integer addition, so overflow at the end of the time range is not modelled.
