/**
 * Go types as far as the cache layer inspects them (cacher.go, `structType`
 * and `Models`): pointer, slice and array layers around a named type.
 */
module GoTypes {

  /** A Go type. `Struct` and `Other` are named (or anonymous, with name "") non-collection types. */
  datatype GoType =
    | Ptr(elem: GoType)
    | Slice(elem: GoType)
    | Array(len: nat, elem: GoType)
    | Struct(name: string)
    | Other(name: string)

  /** `reflect.Type.Name()`: pointer, slice and array types are unnamed. */
  function TypeName(t: GoType): string
  {
    match t
    case Struct(name) => name
    case Other(name) => name
    case _ => ""
  }

  predicate IsCollection(t: GoType)
  {
    t.Slice? || t.Array?
  }

  /** `n` pointer layers around `t`. */
  function Ptrs(n: nat, t: GoType): GoType
  {
    if n == 0 then t else Ptr(Ptrs(n - 1, t))
  }

  /** `t` with every outer pointer layer removed. */
  function Deref(t: GoType): (r: GoType)
    ensures !r.Ptr?
    ensures exists n: nat :: t == Ptrs(n, r)
  {
    if t.Ptr? then
      var r := Deref(t.elem);
      ghost var n: nat :| t.elem == Ptrs(n, r);
      assert t == Ptrs(n + 1, r);
      r
    else
      assert t == Ptrs(0, t);
      t
  }

  /**
   * The type whose name decides cacheability: pointers stripped, then at most
   * one slice or array layer, then the element's pointers.
   */
  function StructTypeOf(t: GoType): (r: GoType)
    ensures !r.Ptr?
  {
    var base := Deref(t);
    if IsCollection(base) then Deref(base.elem) else base
  }

  /** `structType`, with its two loops over `typ`. */
  method StructType(val: GoType) returns (t: GoType)
    ensures t == StructTypeOf(val)
    ensures !t.Ptr?
  {
    var typ := val;
    while typ.Ptr?
      invariant Deref(typ) == Deref(val)
      decreases typ
    {
      typ := typ.elem;
    }
    if IsCollection(typ) {
      ghost var base := typ;
      while typ.elem.Ptr?
        invariant typ.Ptr? || IsCollection(typ)
        invariant Deref(typ.elem) == Deref(base.elem)
        decreases typ
      {
        typ := typ.elem;
      }
      t := typ.elem;
    } else {
      t := typ;
    }
  }

  lemma {:induction false} DerefPtrs(n: nat, t: GoType)
    requires !t.Ptr?
    ensures Deref(Ptrs(n, t)) == t
  {
    if n > 0 {
      DerefPtrs(n - 1, t);
    }
  }

  /**
   * `Ptr*(Slice|Array(Ptr*(T)))` names `T`, for any non-pointer `T`; only one
   * collection layer is removed, so a collection `T` stays (and is unnamed).
   */
  lemma {:induction false} StructTypeOfCollection(i: nat, c: GoType, j: nat, t: GoType)
    requires IsCollection(c) && c.elem == Ptrs(j, t) && !t.Ptr?
    ensures StructTypeOf(Ptrs(i, c)) == t
    ensures IsCollection(t) ==> TypeName(StructTypeOf(Ptrs(i, c))) == ""
  {
    DerefPtrs(i, c);
    DerefPtrs(j, t);
  }

  /** A non-collection type behind any number of pointers is returned bare. */
  lemma {:induction false} StructTypeOfPlain(i: nat, t: GoType)
    requires !t.Ptr? && !IsCollection(t)
    ensures StructTypeOf(Ptrs(i, t)) == t
  {
    DerefPtrs(i, t);
  }

  /** The name set `Models(models...)` builds. */
  function NamesOf(models: seq<GoType>): set<string>
  {
    set m | m in models :: TypeName(StructTypeOf(m))
  }

  /** The loop of `Models`: one name per model, each reduced by `structType`. */
  method ModelNameSet(models: seq<GoType>) returns (names: set<string>)
    ensures names == NamesOf(models)
    ensures forall k :: 0 <= k < |models| ==> TypeName(StructTypeOf(models[k])) in names
    ensures forall n :: n in names ==> exists k :: 0 <= k < |models| && n == TypeName(StructTypeOf(models[k]))
  {
    names := {};
    for i := 0 to |models|
      invariant names == NamesOf(models[..i])
    {
      var t := StructType(models[i]);
      assert models[..i + 1] == models[..i] + [models[i]];
      names := names + {TypeName(t)};
    }
    assert models[..|models|] == models;
  }

  /**
   * Registering a model makes every query over it cacheable: its pointer, a
   * slice or array of it, and pointers to those all reduce to its name.
   */
  lemma RegisteredModelCoversQueries(models: seq<GoType>, k: nat, i: nat, c: GoType, j: nat)
    requires k < |models| && !IsCollection(StructTypeOf(models[k]))
    requires IsCollection(c) && c.elem == Ptrs(j, StructTypeOf(models[k]))
    ensures TypeName(StructTypeOf(Ptrs(i, StructTypeOf(models[k])))) in NamesOf(models)
    ensures TypeName(StructTypeOf(Ptrs(i, c))) in NamesOf(models)
  {
    var u := StructTypeOf(models[k]);
    assert models[k] in models;
    StructTypeOfCollection(i, c, j, u);
    StructTypeOfPlain(i, u);
  }
}
