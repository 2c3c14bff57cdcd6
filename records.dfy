/**
 * The sparse encoding of a query result (cacher.go, `queryResult`): a struct
 * becomes a map of its non-zero fields, a slice or array a positional list of
 * such maps, and an element whose fields are all zero a null entry.
 *
 * A record is read through the schema's field accessors, so it is modelled as
 * one `Cell` per schema field, in schema order: the value `ValueOf` returns
 * and whether that value is the field type's zero value.
 */
module Records {
  import opened Wrappers
  import opened Errors
  import opened GoTypes

  /** A field value. `Unsupported` stands for a value the JSON encoder refuses (a channel, a function, NaN). */
  datatype FieldValue = Int(i: int) | Str(s: string) | Bool(b: bool) | Unsupported(desc: string)

  /** What `field.ValueOf` reports for one field of one record. */
  datatype Cell = Cell(value: FieldValue, isZero: bool)

  type Record = seq<Cell>

  type FieldMap = map<string, FieldValue>

  /** The value handed to `json.Marshal`: one map, or a list of maps where `None` is a nil map. */
  datatype Payload = Object(fields: FieldMap) | List(entries: seq<Option<FieldMap>>)

  /** The records behind `Statement.ReflectValue`. */
  datatype Data = One(rec: Record) | Many(recs: seq<Record>) | Opaque

  /** `Statement.ReflectValue`: its Go type and its records. */
  datatype ResultValue = ResultValue(typ: GoType, data: Data)

  /** The kinds `queryResult` and `unmarshalToDB` handle. */
  predicate Supported(t: GoType)
  {
    t.Struct? || IsCollection(t)
  }

  /** Reflection never shows a value whose records disagree with its type. */
  predicate Fits(v: ResultValue)
  {
    match v.typ
    case Struct(_) => v.data.One?
    case Slice(_) => v.data.Many?
    case Array(n, _) => v.data.Many? && |v.data.recs| == n
    case _ => v.data.Opaque?
  }

  /** Every record has one cell per schema field. */
  predicate Shaped(fields: seq<string>, d: Data)
  {
    match d
    case One(rec) => |rec| == |fields|
    case Many(recs) => forall i :: 0 <= i < |recs| ==> |recs[i]| == |fields|
    case Opaque => true
  }

  predicate Distinct(fields: seq<string>)
  {
    forall i, j :: 0 <= i < j < |fields| ==> fields[i] != fields[j]
  }

  predicate AllZero(rec: Record)
  {
    forall j :: 0 <= j < |rec| ==> rec[j].isZero
  }

  /** The map of a record's non-zero fields, filled field by field in schema order. */
  function SparseFields(fields: seq<string>, rec: Record): FieldMap
    requires |rec| == |fields|
  {
    if fields == [] then map[]
    else
      var n := |fields| - 1;
      var m := SparseFields(fields[..n], rec[..n]);
      if rec[n].isZero then m else m[fields[n] := rec[n].value]
  }

  /** One entry of a collection's list: nil when every field is zero. */
  function Entry(fields: seq<string>, rec: Record): Option<FieldMap>
    requires |rec| == |fields|
  {
    if AllZero(rec) then None else Some(SparseFields(fields, rec))
  }

  /** The payload of a supported result. */
  function SparsePayload(fields: seq<string>, d: Data): Payload
    requires Shaped(fields, d) && !d.Opaque?
  {
    match d
    case One(rec) => Object(SparseFields(fields, rec))
    case Many(recs) => List(seq(|recs|, i requires 0 <= i < |recs| => Entry(fields, recs[i])))
  }

  /** The message of the encoder's failure on an unsupported value. */
  const UnsupportedValue: string := "json: unsupported value"

  predicate MapEncodable(m: FieldMap)
  {
    forall k :: k in m ==> !m[k].Unsupported?
  }

  predicate Encodable(p: Payload)
  {
    match p
    case Object(m) => MapEncodable(m)
    case List(es) => forall i :: 0 <= i < |es| ==> es[i].None? || MapEncodable(es[i].value)
  }

  /** The error `json.Marshal` returns for a payload, if any. */
  function MarshalError(p: Payload): (r: Option<Error>)
    ensures r.None? <==> Encodable(p)
  {
    if Encodable(p) then None else Some(Plain(UnsupportedValue))
  }

  /** The record's non-zero fields hold only values the encoder accepts. */
  predicate NonZeroSupported(rec: Record)
  {
    forall j :: 0 <= j < |rec| && !rec[j].isZero ==> !rec[j].value.Unsupported?
  }

  /** Every record behind a result holds only encodable non-zero values. */
  predicate DataEncodable(d: Data)
  {
    match d
    case One(rec) => NonZeroSupported(rec)
    case Many(recs) => forall i :: 0 <= i < |recs| ==> NonZeroSupported(recs[i])
    case Opaque => true
  }

  /**
   * A zero field is dropped before the encoder sees it, so only a non-zero
   * unsupported value can make the sparse map unencodable; with distinct field
   * names every non-zero unsupported value does.
   */
  lemma {:induction false} SparseFieldsEncodable(fields: seq<string>, rec: Record)
    requires |rec| == |fields|
    ensures NonZeroSupported(rec) ==> MapEncodable(SparseFields(fields, rec))
    ensures Distinct(fields) && MapEncodable(SparseFields(fields, rec)) ==> NonZeroSupported(rec)
  {
    if fields != [] {
      var n := |fields| - 1;
      SparseFieldsEncodable(fields[..n], rec[..n]);
      assert NonZeroSupported(rec) ==> NonZeroSupported(rec[..n]);
    }
    if Distinct(fields) && MapEncodable(SparseFields(fields, rec)) {
      forall j | 0 <= j < |rec| && !rec[j].isZero
        ensures !rec[j].value.Unsupported?
      {
        SparseFieldsValues(fields, rec, j);
      }
    }
  }

  /**
   * The encoder fails on a query result only when some non-zero field of some
   * record holds an unsupported value, and, with distinct field names, always
   * does then: unsupported values in zero fields never reach it.
   */
  lemma {:induction false} MarshalFailsOnNonZeroUnsupported(fields: seq<string>, d: Data)
    requires Shaped(fields, d) && !d.Opaque?
    ensures DataEncodable(d) ==> MarshalError(SparsePayload(fields, d)).None?
    ensures Distinct(fields) ==> (MarshalError(SparsePayload(fields, d)).None? <==> DataEncodable(d))
  {
    match d
    case One(rec) =>
      SparseFieldsEncodable(fields, rec);
    case Many(recs) =>
      var es := SparsePayload(fields, d).entries;
      forall i | 0 <= i < |recs|
        ensures NonZeroSupported(recs[i]) ==> es[i].None? || MapEncodable(es[i].value)
        ensures Distinct(fields) && (es[i].None? || MapEncodable(es[i].value)) ==> NonZeroSupported(recs[i])
      {
        SparseFieldsEncodable(fields, recs[i]);
      }
  }

  /** The keys of the sparse map are exactly the names of the non-zero fields. */
  lemma {:induction false} SparseFieldsKeys(fields: seq<string>, rec: Record)
    requires |rec| == |fields|
    ensures SparseFields(fields, rec).Keys == set j | 0 <= j < |fields| && !rec[j].isZero :: fields[j]
  {
    if fields != [] {
      var n := |fields| - 1;
      SparseFieldsKeys(fields[..n], rec[..n]);
      var before := set j | 0 <= j < n && !rec[..n][j].isZero :: fields[..n][j];
      var after := set j | 0 <= j < |fields| && !rec[j].isZero :: fields[j];
      assert before == set j | 0 <= j < n && !rec[j].isZero :: fields[j];
      assert after == before + (if rec[n].isZero then {} else {fields[n]});
    }
  }

  /** With distinct field names, each non-zero field maps to its own value. */
  lemma {:induction false} SparseFieldsValues(fields: seq<string>, rec: Record, j: nat)
    requires |rec| == |fields| && Distinct(fields) && j < |fields|
    ensures fields[j] in SparseFields(fields, rec) <==> !rec[j].isZero
    ensures !rec[j].isZero ==> SparseFields(fields, rec)[fields[j]] == rec[j].value
  {
    var n := |fields| - 1;
    if j < n {
      SparseFieldsValues(fields[..n], rec[..n], j);
    } else {
      SparseFieldsKeys(fields[..n], rec[..n]);
    }
  }

  /** A list entry is nil exactly when its map would be empty: never an empty map. */
  lemma EntryNilIffEmpty(fields: seq<string>, rec: Record)
    requires |rec| == |fields|
    ensures Entry(fields, rec).None? <==> SparseFields(fields, rec) == map[]
    ensures Entry(fields, rec).Some? ==> |Entry(fields, rec).value| > 0
  {
    SparseFieldsKeys(fields, rec);
    if !AllZero(rec) {
      var j :| 0 <= j < |rec| && !rec[j].isZero;
      assert fields[j] in SparseFields(fields, rec).Keys;
    }
  }

  /**
   * With any schema, repeated field names included, a list keeps every
   * position and entry `i` is nil exactly when element `i` is all zero.
   */
  lemma ListShape(fields: seq<string>, recs: seq<Record>, i: nat)
    requires Shaped(fields, Many(recs)) && i < |recs|
    ensures |SparsePayload(fields, Many(recs)).entries| == |recs|
    ensures SparsePayload(fields, Many(recs)).entries[i].None? <==> AllZero(recs[i])
    ensures SparsePayload(fields, Many(recs)).entries[i].Some? ==>
              SparsePayload(fields, Many(recs)).entries[i].value != map[]
  {
    EntryNilIffEmpty(fields, recs[i]);
  }

  /**
   * A list keeps every position: one entry per element, entry `i` nil exactly
   * when element `i` is all zero, and otherwise holding exactly its non-zero fields.
   */
  lemma ListEntries(fields: seq<string>, recs: seq<Record>, i: nat)
    requires Shaped(fields, Many(recs)) && Distinct(fields) && i < |recs|
    ensures |SparsePayload(fields, Many(recs)).entries| == |recs|
    ensures SparsePayload(fields, Many(recs)).entries[i].None? <==> AllZero(recs[i])
    ensures forall j :: 0 <= j < |fields| && !recs[i][j].isZero ==>
              && fields[j] in SparsePayload(fields, Many(recs)).entries[i].value
              && SparsePayload(fields, Many(recs)).entries[i].value[fields[j]] == recs[i][j].value
    ensures SparsePayload(fields, Many(recs)).entries[i].Some? ==>
              SparsePayload(fields, Many(recs)).entries[i].value.Keys ==
                set j | 0 <= j < |fields| && !recs[i][j].isZero :: fields[j]
  {
    SparseFieldsKeys(fields, recs[i]);
    forall j | 0 <= j < |fields| && !recs[i][j].isZero
      ensures SparseFields(fields, recs[i])[fields[j]] == recs[i][j].value
    {
      SparseFieldsValues(fields, recs[i], j);
    }
  }

  /** How a list entry grows when the loop reaches field `j`. */
  lemma EntryStep(fields: seq<string>, rec: Record, j: nat)
    requires |rec| == |fields| && j < |fields|
    ensures Entry(fields[..j + 1], rec[..j + 1]) ==
              if rec[j].isZero then Entry(fields[..j], rec[..j])
              else Some((if Entry(fields[..j], rec[..j]).None? then map[] else Entry(fields[..j], rec[..j]).value)[fields[j] := rec[j].value])
  {
    assert fields[..j + 1][..j] == fields[..j];
    assert rec[..j + 1][..j] == rec[..j];
    if AllZero(rec[..j]) {
      SparseFieldsKeys(fields[..j], rec[..j]);
    }
    assert AllZero(rec[..j + 1]) <==> AllZero(rec[..j]) && rec[j].isZero;
  }

  /**
   * `queryResult`: for a struct, the map of its non-zero fields; for a slice
   * or array, the list of its elements' entries; any other kind is skipped
   * with no error. An encoder failure yields no payload.
   */
  method QueryResult(fields: seq<string>, v: ResultValue) returns (ok: bool, value: Option<Payload>, err: Option<Error>)
    requires Fits(v) && Shaped(fields, v.data)
    ensures ok <==> Supported(v.typ)
    ensures !ok ==> value.None? && err.None?
    ensures ok ==> err == MarshalError(SparsePayload(fields, v.data))
    ensures ok && err.None? ==> value == Some(SparsePayload(fields, v.data))
    ensures err.Some? ==> value.None?
  {
    match v.typ
    case Struct(_) =>
      var rec := v.data.rec;
      var valueData: FieldMap := map[];
      for j := 0 to |fields|
        invariant valueData == SparseFields(fields[..j], rec[..j])
      {
        assert fields[..j + 1][..j] == fields[..j];
        assert rec[..j + 1][..j] == rec[..j];
        if !rec[j].isZero {
          valueData := valueData[fields[j] := rec[j].value];
        }
      }
      assert fields[..|fields|] == fields && rec[..|rec|] == rec;
      ok, err := true, MarshalError(Object(valueData));
      value := if err.None? then Some(Object(valueData)) else None;
    case Slice(_) =>
      ok, value, err := EncodeElements(fields, v.data.recs);
    case Array(_, _) =>
      ok, value, err := EncodeElements(fields, v.data.recs);
    case _ =>
      ok, value, err := false, None, None;
  }

  /** The slice and array branch of `queryResult`: the outer loop runs over fields, the inner over elements. */
  method EncodeElements(fields: seq<string>, recs: seq<Record>) returns (ok: bool, value: Option<Payload>, err: Option<Error>)
    requires Shaped(fields, Many(recs))
    ensures ok
    ensures err == MarshalError(SparsePayload(fields, Many(recs)))
    ensures value == if err.None? then Some(SparsePayload(fields, Many(recs))) else None
  {
    var lens := |recs|;
    var valueArrData := new Option<FieldMap>[lens](_ => None);
    for j := 0 to |fields|
      invariant forall i :: 0 <= i < lens ==> valueArrData[i] == Entry(fields[..j], recs[i][..j])
    {
      for i := 0 to lens
        invariant forall k :: 0 <= k < i ==> valueArrData[k] == Entry(fields[..j + 1], recs[k][..j + 1])
        invariant forall k :: i <= k < lens ==> valueArrData[k] == Entry(fields[..j], recs[k][..j])
      {
        EntryStep(fields, recs[i], j);
        if !recs[i][j].isZero {
          var m := if valueArrData[i].None? then map[] else valueArrData[i].value;
          valueArrData[i] := Some(m[fields[j] := recs[i][j].value]);
        }
      }
    }
    var p := List(valueArrData[..]);
    assert p == SparsePayload(fields, Many(recs)) by {
      forall i | 0 <= i < lens
        ensures valueArrData[i] == Entry(fields, recs[i])
      {
        assert fields[..|fields|] == fields && recs[i][..|fields|] == recs[i];
      }
    }
    ok, err := true, MarshalError(p);
    value := if err.None? then Some(p) else None;
  }
}
