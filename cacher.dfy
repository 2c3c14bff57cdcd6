/**
 * The cache-aside plugin (cacher.go): configuration by functional options,
 * `Initialize`, and the two query hooks. gorm's statement is the `DB` class;
 * the key-value store's answers, the database's answers and the JSON
 * decoder's answers are parameters, and every call the plugin makes outside
 * itself is recorded in the ghost log `calls`.
 */
module Cacher {
  import opened Wrappers
  import opened Errors
  import opened GoTypes
  import opened Records

  /** The SQL text and bound variables gorm built for the statement. */
  datatype Stmt = Stmt(sql: string, vars: seq<string>)

  /**
   * A call to a collaborator. `Execute("")` runs the query directly;
   * `Execute(key)` runs it through the single-flight group for `key`.
   */
  datatype Call = KVGet(key: string) | KVSet(key: string, value: Payload, exp: int) | Execute(group: string)

  /** What the store's `Get` answered. */
  datatype GetOutcome = GetFailed(err: Error) | Miss | Hit(value: Payload)

  /** What running the query (and scanning its rows) produced. */
  datatype ExecOutcome = ExecFailed(err: Error) | Rows(data: Data, count: int)

  /**
   * What `json.Unmarshal` into the statement's destination produced. A failed
   * decode may already have written part of the destination (a type mismatch
   * is reported only after the other fields are decoded): `partial` is what
   * the destination then holds, `None` when nothing was written.
   */
  datatype DecodeOutcome = DecodeFailed(err: Error, partial: Option<Data>) | Decoded(data: Data)

  /** What a decode leaves in the destination, if it wrote anything. */
  function Written(decoded: DecodeOutcome): Option<Data>
  {
    match decoded
    case DecodeFailed(_, partial) => partial
    case Decoded(data) => Some(data)
  }

  /** A functional option (Go's `Option`), applied in order by `GormCache`. */
  datatype Setting = Models(models: seq<GoType>) | CacheKeyFunc(f: Stmt -> string)

  /** The message of the configuration error `Initialize` reports. */
  const NoModels: string := "call `Models` to add model that needs to be cached"

  /** The default key: the dialect's rendering of the SQL with its variables. */
  function DefaultKeyFunc(explain: (string, seq<string>) -> string): Stmt -> string
  {
    (s: Stmt) => explain(s.sql, s.vars)
  }

  /** The model names after applying `options` in order: the last `Models` wins. */
  function ConfiguredNames(options: seq<Setting>): set<string>
  {
    if options == [] then {}
    else
      match options[|options| - 1]
      case Models(ms) => NamesOf(ms)
      case CacheKeyFunc(_) => ConfiguredNames(options[..|options| - 1])
  }

  /** The key function after applying `options` in order: the last `CacheKeyFunc` wins. */
  function ConfiguredKeyFunc(options: seq<Setting>, default: Stmt -> string): Stmt -> string
  {
    if options == [] then default
    else
      match options[|options| - 1]
      case Models(_) => ConfiguredKeyFunc(options[..|options| - 1], default)
      case CacheKeyFunc(f) => f
  }

  /** A later `Models` replaces the names of an earlier one instead of extending them. */
  lemma {:induction false} LastModelsWins(before: seq<Setting>, ms: seq<GoType>, after: seq<Setting>)
    requires forall i :: 0 <= i < |after| ==> after[i].CacheKeyFunc?
    ensures ConfiguredNames(before + [Models(ms)] + after) == NamesOf(ms)
  {
    if after != [] {
      var n := |after| - 1;
      LastModelsWins(before, ms, after[..n]);
      assert (before + [Models(ms)] + after)[..|before| + 1 + n] == before + [Models(ms)] + after[..n];
    }
  }

  /** Without any `Models` option nothing is cacheable. */
  lemma {:induction false} NoModelsNoNames(options: seq<Setting>)
    requires forall i :: 0 <= i < |options| ==> options[i].CacheKeyFunc?
    ensures ConfiguredNames(options) == {}
  {
    if options != [] {
      NoModelsNoNames(options[..|options| - 1]);
    }
  }

  /** The part of gorm's statement the hooks change. */
  datatype DBState = DBState(errors: seq<Error>, value: ResultValue, rowsAffected: int, coalescedMiss: bool)

  /**
   * The state after `queryFromDB`: a non-empty key marks the execution as a
   * coalesced miss before running; a failure is added unwrapped; rows replace
   * the result and its count.
   */
  function Scanned(s: DBState, cachekey: string, exec: ExecOutcome): DBState
  {
    var marked := s.(coalescedMiss := s.coalescedMiss || cachekey != "");
    match exec
    case ExecFailed(e) => marked.(errors := s.errors + [e])
    case Rows(data, count) => marked.(value := ResultValue(s.value.typ, data), rowsAffected := count)
  }

  /** `RowsAffected` after a successful decode: one for a struct, the length for a slice or array. */
  function RowsOnHit(t: GoType, d: Data, rows: int): int
  {
    if t.Struct? then 1
    else if IsCollection(t) && d.Many? then |d.recs|
    else rows
  }

  /**
   * The state after `unmarshalToDB`: a decode failure is added unwrapped,
   * `RowsAffected` is kept, and the result holds whatever the decoder wrote
   * before failing.
   */
  function Unmarshaled(s: DBState, decoded: DecodeOutcome): DBState
  {
    match decoded
    case DecodeFailed(e, partial) =>
      var failed := s.(errors := s.errors + [e]);
      if partial.Some? then failed.(value := ResultValue(s.value.typ, partial.value)) else failed
    case Decoded(data) =>
      s.(value := ResultValue(s.value.typ, data), rowsAffected := RowsOnHit(s.value.typ, data, s.rowsAffected))
  }

  /** gorm's statement, reduced to what the hooks read and write. */
  class DB {
    var dryRun: bool
    var errors: seq<Error>                // `db.Error`: nil when empty; `AddError` appends
    var stmt: Stmt
    var schema: Option<seq<string>>       // `Statement.Schema`, by its field names
    var value: ResultValue                // `Statement.ReflectValue`
    var rowsAffected: int
    var coalescedMiss: bool               // the `nocachectx` marker in `Statement.Context`

    function State(): DBState
      reads this
    {
      DBState(errors, value, rowsAffected, coalescedMiss)
    }

    /** Records of this shape can be stored in the statement's destination. */
    ghost predicate Accepts(d: Data)
      reads this
    {
      Fits(ResultValue(value.typ, d)) && (schema.Some? ==> Shaped(schema.value, d))
    }

    ghost predicate Valid()
      reads this
    {
      Accepts(value.data)
    }

    method AddError(err: Error)
      modifies this`errors
      ensures errors == old(errors) + [err]
    {
      errors := errors + [err];
    }
  }

  /** `GormCacher`. */
  class GormCacher {
    var modelNames: set<string>
    var exp: int
    var cacheKeyFunc: Stmt -> string
    const queryAfterRegisterName: string
    var hooksRegistered: bool
    ghost var calls: seq<Call>

    /** `GormCache(kv, exp, options...)`: defaults, then each option in order. */
    constructor (exp: int, explain: (string, seq<string>) -> string, options: seq<Setting>)
      ensures this.exp == exp && queryAfterRegisterName == Name + ":after_query"
      ensures modelNames == ConfiguredNames(options)
      ensures cacheKeyFunc == ConfiguredKeyFunc(options, DefaultKeyFunc(explain))
      ensures !hooksRegistered && calls == []
    {
      this.exp := exp;
      queryAfterRegisterName := Name + ":after_query";
      cacheKeyFunc := DefaultKeyFunc(explain);
      modelNames := {};
      hooksRegistered := false;
      calls := [];
      new;
      for i := 0 to |options|
        invariant modelNames == ConfiguredNames(options[..i])
        invariant cacheKeyFunc == ConfiguredKeyFunc(options[..i], DefaultKeyFunc(explain))
        invariant this.exp == exp && !hooksRegistered && calls == []
      {
        assert options[..i + 1][..i] == options[..i];
        match options[i]
        case Models(ms) =>
          modelNames := ModelNameSet(ms);
        case CacheKeyFunc(f) =>
          cacheKeyFunc := f;
      }
      assert options[..|options|] == options;
    }

    /**
     * `Initialize`: with no model names, a wrapped configuration error and no
     * hook installed; otherwise the hooks are installed unless gorm's
     * registration reports `registerErr`, which is returned wrapped.
     */
    method Initialize(registerErr: Option<Error>) returns (err: Option<Error>)
      modifies this`hooksRegistered
      ensures modelNames == {} ==> err == Some(ErrGormCache(Plain(NoModels))) && hooksRegistered == old(hooksRegistered)
      ensures modelNames != {} ==> err == NewErrGormCache(registerErr) && hooksRegistered == (old(hooksRegistered) || registerErr.None?)
    {
      if |modelNames| == 0 {
        return NewErrGormCache(Some(Plain(NoModels)));
      }
      if registerErr.Some? {
        return NewErrGormCache(registerErr);
      }
      hooksRegistered := true;
      return None;
    }

    /**
     * `canCache`: the result type, reduced by `structType`, names a registered
     * model; pointers in front of the result type make no difference, and
     * with no model registered nothing is cacheable.
     */
    predicate CanCache(db: DB): (r: bool)
      reads this, db
      ensures r ==> modelNames != {}
      ensures db.value.typ.Ptr? ==> (r <==> TypeName(StructTypeOf(db.value.typ.elem)) in modelNames)
    {
      TypeName(StructTypeOf(db.value.typ)) in modelNames
    }

    /**
     * `query`, which replaces gorm's query hook: skip on a dry run or an
     * earlier error; an ineligible result runs directly; an eligible one asks
     * the store first and fails on a store error, decodes a hit, and runs a
     * miss through the single-flight group for its key.
     */
    method Query(db: DB, get: GetOutcome, exec: ExecOutcome, decoded: DecodeOutcome)
      requires db.Valid()
      requires exec.Rows? ==> db.Accepts(exec.data)
      requires Written(decoded).Some? ==> db.Accepts(Written(decoded).value)
      modifies this`calls, db`errors, db`value, db`rowsAffected, db`coalescedMiss
      ensures db.Valid() && db.value.typ == old(db.value.typ)
      ensures old(db.dryRun || db.errors != []) ==>
                calls == old(calls) && db.State() == old(db.State())
      ensures !old(db.dryRun || db.errors != []) && !old(CanCache(db)) ==>
                calls == old(calls) + [Execute("")] && db.State() == Scanned(old(db.State()), "", exec)
      ensures !old(db.dryRun || db.errors != []) && old(CanCache(db)) && get.GetFailed? ==>
                calls == old(calls) + [KVGet(cacheKeyFunc(db.stmt))] &&
                db.State() == old(db.State()).(errors := old(db.errors) + [ErrGormCache(get.err)])
      ensures !old(db.dryRun || db.errors != []) && old(CanCache(db)) && get.Hit? ==>
                calls == old(calls) + [KVGet(cacheKeyFunc(db.stmt))] &&
                db.State() == Unmarshaled(old(db.State()), decoded)
      ensures !old(db.dryRun || db.errors != []) && old(CanCache(db)) && get.Miss? ==>
                calls == old(calls) + [KVGet(cacheKeyFunc(db.stmt)), Execute(cacheKeyFunc(db.stmt))] &&
                db.State() == Scanned(old(db.State()), cacheKeyFunc(db.stmt), exec)
    {
      if db.dryRun || db.errors != [] {
        return;
      }
      if CanCache(db) {
        var cachekey := cacheKeyFunc(db.stmt);
        calls := calls + [KVGet(cachekey)];
        match get
        case GetFailed(e) =>
          db.AddError(ErrGormCache(e));
          return;
        case Hit(_) =>
          UnmarshalToDB(db, decoded);
          return;
        case Miss =>
          QueryFromDB(db, cachekey, exec);
          return;
      }
      QueryFromDB(db, "", exec);
    }

    /** `queryFromDB`, its branch on the key and its effect on the statement. */
    method QueryFromDB(db: DB, cachekey: string, exec: ExecOutcome)
      requires db.Valid()
      requires exec.Rows? ==> db.Accepts(exec.data)
      modifies this`calls, db`errors, db`value, db`rowsAffected, db`coalescedMiss
      ensures db.Valid() && db.value.typ == old(db.value.typ)
      ensures calls == old(calls) + [Execute(cachekey)]
      ensures db.State() == Scanned(old(db.State()), cachekey, exec)
    {
      calls := calls + [Execute(cachekey)];
      if cachekey != "" {
        db.coalescedMiss := true;
      }
      match exec
      case ExecFailed(e) =>
        db.AddError(e);
      case Rows(data, count) =>
        db.value := ResultValue(db.value.typ, data);
        db.rowsAffected := count;
    }

    /** The conditions under which `queryAfter` encodes the result. */
    predicate WriteBackDue(db: DB)
      reads this, db
    {
      db.coalescedMiss && db.errors == [] && db.schema.Some? && CanCache(db) && Supported(db.value.typ)
    }

    /**
     * `queryAfter`: only after a coalesced miss with no error, a schema and a
     * cacheable result of a supported kind, encode it and store it under the
     * key with the configured expiry; an encoder or store error is added wrapped.
     */
    method QueryAfter(db: DB, setErr: Option<Error>)
      requires db.Valid()
      modifies this`calls, db`errors
      ensures |calls| != |old(calls)| ==>
                old(db.coalescedMiss) && old(db.errors) == [] && db.schema.Some? && CanCache(db)
      ensures !old(WriteBackDue(db)) ==> calls == old(calls) && db.errors == old(db.errors)
      ensures old(WriteBackDue(db)) ==>
                var p := SparsePayload(db.schema.value, db.value.data);
                if MarshalError(p).Some? then
                  calls == old(calls) && db.errors == old(db.errors) + [ErrGormCache(MarshalError(p).value)]
                else
                  calls == old(calls) + [KVSet(cacheKeyFunc(db.stmt), p, exp)] &&
                  db.errors == old(db.errors) + (if setErr.Some? then [ErrGormCache(setErr.value)] else [])
    {
      if !db.coalescedMiss {
        return;
      }
      if db.errors != [] || db.schema.None? || !CanCache(db) {
        return;
      }
      var ok, value, err := QueryResult(db.schema.value, db.value);
      if !ok {
        return;
      }
      var key := cacheKeyFunc(db.stmt);
      if err.Some? {
        db.AddError(ErrGormCache(err.value));
        return;
      }
      calls := calls + [KVSet(key, value.value, exp)];
      if setErr.Some? {
        db.AddError(ErrGormCache(setErr.value));
        return;
      }
    }

    /** `unmarshalToDB`: decode into the destination and set `RowsAffected` from it. */
    method UnmarshalToDB(db: DB, decoded: DecodeOutcome)
      requires db.Valid()
      requires Written(decoded).Some? ==> db.Accepts(Written(decoded).value)
      modifies db`errors, db`value, db`rowsAffected
      ensures db.Valid() && db.value.typ == old(db.value.typ)
      ensures db.State() == Unmarshaled(old(db.State()), decoded)
    {
      match decoded
      case DecodeFailed(e, partial) =>
        if partial.Some? {
          db.value := ResultValue(db.value.typ, partial.value);
        }
        db.AddError(e);
      case Decoded(data) =>
        var rows := RowsOnHit(db.value.typ, data, db.rowsAffected);
        db.rowsAffected := rows;
        db.value := ResultValue(db.value.typ, data);
    }

    /**
     * The two hooks in the order `Initialize` installs them, on a statement
     * not yet marked: an ineligible result never reaches the store, a store
     * error fails the read without running it, a hit is neither run nor
     * written back, and a miss is run once and its encoding stored under the
     * same key; a miss whose execution fails, whose kind is unsupported or
     * that has no schema is not written back, and one whose encoding fails
     * ends with the wrapped encoder error.
     */
    method QueryCallbacks(db: DB, get: GetOutcome, exec: ExecOutcome, decoded: DecodeOutcome, setErr: Option<Error>)
      requires db.Valid() && !db.coalescedMiss
      requires exec.Rows? ==> db.Accepts(exec.data)
      requires Written(decoded).Some? ==> db.Accepts(Written(decoded).value)
      modifies this`calls, db`errors, db`value, db`rowsAffected, db`coalescedMiss
      ensures db.Valid() && db.value.typ == old(db.value.typ)
      ensures exec.Rows? ==> db.Accepts(exec.data)
      ensures old(db.dryRun || db.errors != []) ==>
                calls == old(calls) && db.State() == old(db.State())
      ensures old(!db.dryRun && db.errors == [] && !CanCache(db)) ==>
                calls == old(calls) + [Execute("")] && db.State() == Scanned(old(db.State()), "", exec)
      ensures old(!db.dryRun && db.errors == [] && CanCache(db)) && get.GetFailed? ==>
                calls == old(calls) + [KVGet(cacheKeyFunc(db.stmt))] &&
                db.State() == old(db.State()).(errors := [ErrGormCache(get.err)])
      ensures old(!db.dryRun && db.errors == [] && CanCache(db)) && get.Hit? ==>
                calls == old(calls) + [KVGet(cacheKeyFunc(db.stmt))] &&
                db.State() == Unmarshaled(old(db.State()), decoded)
      ensures old(!db.dryRun && db.errors == [] && CanCache(db)) && get.Miss? && cacheKeyFunc(db.stmt) == "" ==>
                calls == old(calls) + [KVGet(""), Execute("")] &&
                db.State() == Scanned(old(db.State()), "", exec)
      ensures old(!db.dryRun && db.errors == [] && CanCache(db)) && get.Miss? && cacheKeyFunc(db.stmt) != "" &&
              (exec.ExecFailed? || db.schema.None? || !Supported(db.value.typ)) ==>
                calls == old(calls) + [KVGet(cacheKeyFunc(db.stmt)), Execute(cacheKeyFunc(db.stmt))] &&
                db.State() == Scanned(old(db.State()), cacheKeyFunc(db.stmt), exec)
      ensures old(!db.dryRun && db.errors == [] && CanCache(db)) && get.Miss? && cacheKeyFunc(db.stmt) != "" &&
              exec.ExecFailed? ==>
                db.errors == [exec.err] && db.coalescedMiss
      ensures old(!db.dryRun && db.errors == [] && CanCache(db)) && get.Miss? && cacheKeyFunc(db.stmt) != "" &&
              exec.Rows? && db.schema.Some? && Supported(db.value.typ) &&
              !Encodable(SparsePayload(db.schema.value, exec.data)) ==>
                calls == old(calls) + [KVGet(cacheKeyFunc(db.stmt)), Execute(cacheKeyFunc(db.stmt))] &&
                db.State() == Scanned(old(db.State()), cacheKeyFunc(db.stmt), exec).(errors := [ErrGormCache(Plain(UnsupportedValue))])
      ensures old(!db.dryRun && db.errors == [] && CanCache(db)) && get.Miss? && cacheKeyFunc(db.stmt) != "" &&
              exec.Rows? && db.schema.Some? && Supported(db.value.typ) &&
              Encodable(SparsePayload(db.schema.value, exec.data)) ==>
                calls == old(calls) + [KVGet(cacheKeyFunc(db.stmt)), Execute(cacheKeyFunc(db.stmt)),
                                       KVSet(cacheKeyFunc(db.stmt), SparsePayload(db.schema.value, exec.data), exp)] &&
                db.State() == Scanned(old(db.State()), cacheKeyFunc(db.stmt), exec).(errors := if setErr.Some? then [ErrGormCache(setErr.value)] else [])
    {
      Query(db, get, exec, decoded);
      QueryAfter(db, setErr);
    }
  }
}
