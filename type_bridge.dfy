/**
 * The type bridge of Conversion.java: the lookup table from engine type classes to scalar
 * Column.Type constants, and the recursive conversion of engine column types into API
 * column types.
 */
module TypeBridge {
  import opened Wrappers
  import Engine
  import Api

  /** Thrown by Preconditions.checkArgument: "Unknown type mapping for <class>". */
  datatype TypeError = UnknownTypeMapping(typeClass: string)

  /** TYPE_MAPPINGS: the engine type class name to the name of a scalar Column.Type constant. */
  type TypeTable = map<string, string>

  /** The Column.Type constants that get a table entry: all but the five composite kinds. */
  predicate HasTableEntry(ct: Api.TypeConstant) {
    ct != Api.Tuple && ct != Api.List && ct != Api.Map && ct != Api.Set && ct != Api.UDT
  }

  /**
   * The table that putting every non-composite constant of `values`, in order, under the
   * class of its engine type yields; `classOf` stands for ColumnUtils.toInternalType(ct).getClass().
   * Every key comes from some constant, and every entry maps back to a constant of that class.
   */
  function Mappings(values: seq<Api.TypeConstant>, classOf: Api.TypeConstant -> string): (table: TypeTable)
    decreases |values|
    ensures table.Keys == set ct | ct in values && HasTableEntry(ct) :: classOf(ct)
    ensures forall cls :: cls in table ==>
              Api.Scalar(table[cls]) in values && classOf(Api.Scalar(table[cls])) == cls
  {
    if values == [] then map[]
    else
      var earlier := values[..|values| - 1];
      var ct := values[|values| - 1];
      assert values == earlier + [ct];
      var table := Mappings(earlier, classOf);
      if HasTableEntry(ct) then table[classOf(ct) := ct.name] else table
  }

  /** The static initialiser of TYPE_MAPPINGS: one put per non-composite constant, in order. */
  method BuildTypeMappings(values: seq<Api.TypeConstant>, classOf: Api.TypeConstant -> string)
    returns (table: TypeTable)
    ensures table == Mappings(values, classOf)
  {
    table := map[];
    var i := 0;
    while i < |values|
      invariant 0 <= i <= |values|
      invariant table == Mappings(values[..i], classOf)
    {
      var ct := values[i];
      if ct != Api.Tuple && ct != Api.List && ct != Api.Map && ct != Api.Set && ct != Api.UDT {
        table := table[classOf(ct) := ct.name];
      }
      assert values[..i + 1][..i] == values[..i];
      i := i + 1;
    }
    assert values[..i] == values;
  }

  /**
   * When distinct table constants have distinct engine classes, the table is exactly the
   * inverse of `classOf` on them: looking up a constant's class gives back that constant.
   */
  lemma {:induction false} MappingsInvertClassOf(values: seq<Api.TypeConstant>, classOf: Api.TypeConstant -> string)
    requires forall a, b :: a in values && b in values && HasTableEntry(a) && HasTableEntry(b) && classOf(a) == classOf(b) ==> a == b
    ensures forall ct :: ct in values && HasTableEntry(ct) ==>
              classOf(ct) in Mappings(values, classOf) && Api.Scalar(Mappings(values, classOf)[classOf(ct)]) == ct
  {
    var table := Mappings(values, classOf);
    forall ct | ct in values && HasTableEntry(ct)
      ensures classOf(ct) in table && Api.Scalar(table[classOf(ct)]) == ct
    {
      assert classOf(ct) in table.Keys;
      var other := Api.Scalar(table[classOf(ct)]);
      assert other in values && classOf(other) == classOf(ct);
    }
  }

  /** The engine classes the table must resolve for `t` to convert: its scalar leaves. */
  function ScalarClasses(t: Engine.AbstractType): set<string>
    decreases t
  {
    match t
    case ReversedType(b) => ScalarClasses(b)
    case MapType(k, v, _) => ScalarClasses(k) + ScalarClasses(v)
    case SetType(e, _) => ScalarClasses(e)
    case ListType(e, _) => ScalarClasses(e)
    case TupleType(ts, _) => ScalarClassesOfEach(ts)
    case UserType(_, _, fs, _) => ScalarClassesOfFields(fs)
    case OtherType(cls) => {cls}
  }

  function ScalarClassesOfEach(ts: seq<Engine.AbstractType>): set<string>
    decreases ts
  {
    if ts == [] then {} else ScalarClasses(ts[0]) + ScalarClassesOfEach(ts[1..])
  }

  function ScalarClassesOfFields(fs: seq<Engine.UserField>): set<string>
    decreases fs
  {
    if fs == [] then {} else ScalarClasses(fs[0].fieldType) + ScalarClassesOfFields(fs[1..])
  }

  /** The column describing one user type field: name, type and Kind.Regular, nothing else. */
  function FieldColumn(name: string, c: Api.ColumnType): Api.Column {
    Api.Column(None, None, name, c, Some(Api.Regular))
  }

  /**
   * `c` is the API type of `t`: Reversed wrappers are transparent, every composite keeps its
   * kind with `frozen == !multiCell` and its components in order, UDT fields become regular
   * columns in declaration order, and scalars are exactly what the table says.
   */
  ghost predicate Corresponds(t: Engine.AbstractType, c: Api.ColumnType, table: TypeTable)
    decreases t
  {
    match t
    case ReversedType(b) => Corresponds(b, c, table)
    case MapType(k, v, mc) =>
      c.MapOf? && c.frozen == !mc && Corresponds(k, c.keyType, table) && Corresponds(v, c.valueType, table)
    case SetType(e, mc) => c.SetOf? && c.frozen == !mc && Corresponds(e, c.elementType, table)
    case ListType(e, mc) => c.ListOf? && c.frozen == !mc && Corresponds(e, c.elementType, table)
    case TupleType(ts, mc) =>
      c.TupleOf? && c.frozen == !mc && |c.elementTypes| == |ts| &&
      forall i :: 0 <= i < |ts| ==> Corresponds(ts[i], c.elementTypes[i], table)
    case UserType(ks, n, fs, mc) =>
      c.UserDefined? && c.keyspace == ks && c.name == n && c.frozen == !mc &&
      |c.columns| == |fs| &&
      forall i :: 0 <= i < |fs| ==>
        c.columns[i] == FieldColumn(fs[i].fieldName, c.columns[i].columnType) &&
        Corresponds(fs[i].fieldType, c.columns[i].columnType, table)
    case OtherType(cls) => cls in table && c == Api.Primitive(table[cls])
  }

  /**
   * getTypeFromInternal: Reversed is unwrapped first, composites recurse on their components
   * (map keys before values) with `frozen == !multiCell`, and every other type is looked up
   * by its class in the table; a missing entry is an UnknownTypeMapping failure.
   */
  function GetTypeFromInternal(t: Engine.AbstractType, table: TypeTable): Result<Api.ColumnType, TypeError>
    decreases t
  {
    match t
    case ReversedType(b) => GetTypeFromInternal(b, table)
    case MapType(k, v, mc) =>
      var kc :- GetTypeFromInternal(k, table);
      var vc :- GetTypeFromInternal(v, table);
      Ok(Api.MapOf(kc, vc, !mc))
    case SetType(e, mc) =>
      var ec :- GetTypeFromInternal(e, table);
      Ok(Api.SetOf(ec, !mc))
    case ListType(e, mc) =>
      var ec :- GetTypeFromInternal(e, table);
      Ok(Api.ListOf(ec, !mc))
    case TupleType(ts, mc) =>
      var cs :- ConvertEach(ts, table);
      Ok(Api.TupleOf(cs, !mc))
    case UserType(ks, n, fs, mc) =>
      var cols :- UdtColumns(fs, table);
      Ok(Api.UserDefined(ks, n, cols, !mc))
    case OtherType(cls) =>
      if cls in table then Ok(Api.Primitive(table[cls])) else Err(UnknownTypeMapping(cls))
  }

  /** The tuple case's `allTypes().stream().map(getTypeFromInternal)`, position by position. */
  function ConvertEach(ts: seq<Engine.AbstractType>, table: TypeTable): Result<seq<Api.ColumnType>, TypeError>
    decreases ts
  {
    if ts == [] then Ok([])
    else
      var c :- GetTypeFromInternal(ts[0], table);
      var cs :- ConvertEach(ts[1..], table);
      Ok([c] + cs)
  }

  /** What getUDTColumns returns for the fields `fs`: one regular column per field, in order. */
  function UdtColumns(fs: seq<Engine.UserField>, table: TypeTable): Result<seq<Api.Column>, TypeError>
    decreases fs
  {
    if fs == [] then Ok([])
    else
      var c :- GetTypeFromInternal(fs[0].fieldType, table);
      var cols :- UdtColumns(fs[1..], table);
      Ok([FieldColumn(fs[0].fieldName, c)] + cols)
  }

  /** getUDTColumns: the indexed loop over the fields of a user type. */
  method GetUdtColumns(userType: Engine.AbstractType, table: TypeTable) returns (r: Result<seq<Api.Column>, TypeError>)
    requires userType.UserType?
    ensures r == UdtColumns(userType.fields, table)
  {
    var fs := userType.fields;
    var columns: seq<Api.Column> := [];
    var i := 0;
    assert fs[0..] == fs;
    PrependNothing(UdtColumns(fs, table));
    while i < |fs|
      invariant 0 <= i <= |fs|
      invariant UdtColumns(fs, table) == PrependColumns(columns, UdtColumns(fs[i..], table))
    {
      assert fs[i..][0] == fs[i] && fs[i..][1..] == fs[i + 1..];
      var c := GetTypeFromInternal(fs[i].fieldType, table);
      if c.Err? {
        assert UdtColumns(fs[i..], table) == Err(c.error);
        assert UdtColumns(fs, table) == Err(c.error);
        return Err(c.error);
      }
      var column := FieldColumn(fs[i].fieldName, c.value);
      PrependOneMore(columns, column, UdtColumns(fs[i + 1..], table));
      columns := columns + [column];
      i := i + 1;
    }
    assert fs[i..] == [];
    assert UdtColumns(fs, table) == PrependColumns(columns, Ok([]));
    assert columns + [] == columns;
    r := Ok(columns);
  }

  /** Columns already produced, followed by the outcome of converting the remaining fields. */
  function PrependColumns(columns: seq<Api.Column>, rest: Result<seq<Api.Column>, TypeError>): Result<seq<Api.Column>, TypeError> {
    match rest
    case Ok(more) => Ok(columns + more)
    case Err(e) => Err(e)
  }

  lemma PrependNothing(rest: Result<seq<Api.Column>, TypeError>)
    ensures PrependColumns([], rest) == rest
  {
    if rest.Ok? {
      assert [] + rest.value == rest.value;
    }
  }

  lemma PrependOneMore(columns: seq<Api.Column>, column: Api.Column, rest: Result<seq<Api.Column>, TypeError>)
    ensures PrependColumns(columns, PrependColumns([column], rest)) == PrependColumns(columns + [column], rest)
  {
    if rest.Ok? {
      assert columns + ([column] + rest.value) == (columns + [column]) + rest.value;
    }
  }

  /**
   * The conversion succeeds exactly when every scalar leaf has a table entry; when it
   * succeeds the result corresponds to `t`, and when it fails it names a scalar class of `t`
   * that has no entry (it never falls back to a default type).
   */
  lemma {:induction false} ConversionSound(t: Engine.AbstractType, table: TypeTable)
    decreases t
    ensures GetTypeFromInternal(t, table).Ok? <==> ScalarClasses(t) <= table.Keys
    ensures GetTypeFromInternal(t, table).Ok? ==> Corresponds(t, GetTypeFromInternal(t, table).value, table)
    ensures GetTypeFromInternal(t, table).Err? ==>
              GetTypeFromInternal(t, table).error.typeClass in ScalarClasses(t) - table.Keys
  {
    match t
    case ReversedType(b) => ConversionSound(b, table);
    case MapType(k, v, _) => ConversionSound(k, table); ConversionSound(v, table);
    case SetType(e, _) => ConversionSound(e, table);
    case ListType(e, _) => ConversionSound(e, table);
    case TupleType(ts, _) => ConvertEachSound(ts, table);
    case UserType(_, _, fs, _) => UdtColumnsSound(fs, table);
    case OtherType(_) =>
  }

  lemma {:induction false} ConvertEachSound(ts: seq<Engine.AbstractType>, table: TypeTable)
    decreases ts
    ensures ConvertEach(ts, table).Ok? <==> ScalarClassesOfEach(ts) <= table.Keys
    ensures ConvertEach(ts, table).Ok? ==>
              |ConvertEach(ts, table).value| == |ts| &&
              forall i :: 0 <= i < |ts| ==> Corresponds(ts[i], ConvertEach(ts, table).value[i], table)
    ensures ConvertEach(ts, table).Err? ==>
              ConvertEach(ts, table).error.typeClass in ScalarClassesOfEach(ts) - table.Keys
  {
    if ts != [] {
      ConversionSound(ts[0], table);
      ConvertEachSound(ts[1..], table);
      var r := ConvertEach(ts, table);
      if r.Ok? {
        var rest := ConvertEach(ts[1..], table).value;
        assert r.value == [GetTypeFromInternal(ts[0], table).value] + rest;
        forall i | 0 <= i < |ts| ensures Corresponds(ts[i], r.value[i], table) {
          if i > 0 {
            assert ts[i] == ts[1..][i - 1] && r.value[i] == rest[i - 1];
          }
        }
      }
    }
  }

  lemma {:induction false} UdtColumnsSound(fs: seq<Engine.UserField>, table: TypeTable)
    decreases fs
    ensures UdtColumns(fs, table).Ok? <==> ScalarClassesOfFields(fs) <= table.Keys
    ensures UdtColumns(fs, table).Ok? ==>
              |UdtColumns(fs, table).value| == |fs| &&
              forall i :: 0 <= i < |fs| ==>
                UdtColumns(fs, table).value[i] == FieldColumn(fs[i].fieldName, UdtColumns(fs, table).value[i].columnType) &&
                Corresponds(fs[i].fieldType, UdtColumns(fs, table).value[i].columnType, table)
    ensures UdtColumns(fs, table).Err? ==>
              UdtColumns(fs, table).error.typeClass in ScalarClassesOfFields(fs) - table.Keys
  {
    if fs != [] {
      ConversionSound(fs[0].fieldType, table);
      UdtColumnsSound(fs[1..], table);
      var r := UdtColumns(fs, table);
      if r.Ok? {
        var rest := UdtColumns(fs[1..], table).value;
        assert r.value == [FieldColumn(fs[0].fieldName, GetTypeFromInternal(fs[0].fieldType, table).value)] + rest;
        forall i | 0 <= i < |fs|
          ensures r.value[i] == FieldColumn(fs[i].fieldName, r.value[i].columnType)
          ensures Corresponds(fs[i].fieldType, r.value[i].columnType, table)
        {
          if i > 0 {
            assert fs[i] == fs[1..][i - 1] && r.value[i] == rest[i - 1];
          }
        }
      }
    }
  }

  /** At most one API type corresponds to an engine type. */
  lemma {:induction false} CorrespondenceUnique(t: Engine.AbstractType, c1: Api.ColumnType, c2: Api.ColumnType, table: TypeTable)
    decreases t
    requires Corresponds(t, c1, table) && Corresponds(t, c2, table)
    ensures c1 == c2
  {
    match t
    case ReversedType(b) => CorrespondenceUnique(b, c1, c2, table);
    case MapType(k, v, _) =>
      CorrespondenceUnique(k, c1.keyType, c2.keyType, table);
      CorrespondenceUnique(v, c1.valueType, c2.valueType, table);
    case SetType(e, _) => CorrespondenceUnique(e, c1.elementType, c2.elementType, table);
    case ListType(e, _) => CorrespondenceUnique(e, c1.elementType, c2.elementType, table);
    case TupleType(ts, _) =>
      forall i | 0 <= i < |ts| ensures c1.elementTypes[i] == c2.elementTypes[i] {
        CorrespondenceUnique(ts[i], c1.elementTypes[i], c2.elementTypes[i], table);
      }
      assert c1.elementTypes == c2.elementTypes;
    case UserType(_, _, fs, _) =>
      forall i | 0 <= i < |fs| ensures c1.columns[i] == c2.columns[i] {
        CorrespondenceUnique(fs[i].fieldType, c1.columns[i].columnType, c2.columns[i].columnType, table);
      }
      assert c1.columns == c2.columns;
    case OtherType(_) =>
  }

  /** A corresponding API type exists only when every scalar leaf has a table entry. */
  lemma {:induction false} CorrespondenceNeedsEntries(t: Engine.AbstractType, c: Api.ColumnType, table: TypeTable)
    decreases t
    requires Corresponds(t, c, table)
    ensures ScalarClasses(t) <= table.Keys
  {
    match t
    case ReversedType(b) => CorrespondenceNeedsEntries(b, c, table);
    case MapType(k, v, _) =>
      CorrespondenceNeedsEntries(k, c.keyType, table);
      CorrespondenceNeedsEntries(v, c.valueType, table);
    case SetType(e, _) => CorrespondenceNeedsEntries(e, c.elementType, table);
    case ListType(e, _) => CorrespondenceNeedsEntries(e, c.elementType, table);
    case TupleType(ts, _) => EachNeedsEntries(ts, c.elementTypes, table);
    case UserType(_, _, fs, _) => FieldsNeedEntries(fs, c.columns, table);
    case OtherType(_) =>
  }

  lemma {:induction false} EachNeedsEntries(ts: seq<Engine.AbstractType>, cs: seq<Api.ColumnType>, table: TypeTable)
    decreases ts
    requires |cs| == |ts| && forall i :: 0 <= i < |ts| ==> Corresponds(ts[i], cs[i], table)
    ensures ScalarClassesOfEach(ts) <= table.Keys
  {
    if ts != [] {
      CorrespondenceNeedsEntries(ts[0], cs[0], table);
      forall i | 0 <= i < |ts| - 1 ensures Corresponds(ts[1..][i], cs[1..][i], table) {
        assert ts[1..][i] == ts[i + 1] && cs[1..][i] == cs[i + 1];
      }
      EachNeedsEntries(ts[1..], cs[1..], table);
    }
  }

  lemma {:induction false} FieldsNeedEntries(fs: seq<Engine.UserField>, cols: seq<Api.Column>, table: TypeTable)
    decreases fs
    requires |cols| == |fs| && forall i :: 0 <= i < |fs| ==> Corresponds(fs[i].fieldType, cols[i].columnType, table)
    ensures ScalarClassesOfFields(fs) <= table.Keys
  {
    if fs != [] {
      CorrespondenceNeedsEntries(fs[0].fieldType, cols[0].columnType, table);
      forall i | 0 <= i < |fs| - 1 ensures Corresponds(fs[1..][i].fieldType, cols[1..][i].columnType, table) {
        assert fs[1..][i] == fs[i + 1] && cols[1..][i] == cols[i + 1];
      }
      FieldsNeedEntries(fs[1..], cols[1..], table);
    }
  }

  /** Corresponds is an exact description of the conversion: it holds iff the conversion yields `c`. */
  lemma ConversionExact(t: Engine.AbstractType, c: Api.ColumnType, table: TypeTable)
    ensures Corresponds(t, c, table) <==> GetTypeFromInternal(t, table) == Ok(c)
  {
    ConversionSound(t, table);
    if Corresponds(t, c, table) {
      CorrespondenceNeedsEntries(t, c, table);
      CorrespondenceUnique(t, c, GetTypeFromInternal(t, table).value, table);
    }
  }

  /** `t` with every Reversed wrapper removed, at any depth. */
  function StripReversed(t: Engine.AbstractType): Engine.AbstractType
    decreases t
  {
    match t
    case ReversedType(b) => StripReversed(b)
    case MapType(k, v, mc) => Engine.MapType(StripReversed(k), StripReversed(v), mc)
    case SetType(e, mc) => Engine.SetType(StripReversed(e), mc)
    case ListType(e, mc) => Engine.ListType(StripReversed(e), mc)
    case TupleType(ts, mc) => Engine.TupleType(StripEach(ts), mc)
    case UserType(ks, n, fs, mc) => Engine.UserType(ks, n, StripFields(fs), mc)
    case OtherType(_) => t
  }

  function StripEach(ts: seq<Engine.AbstractType>): seq<Engine.AbstractType>
    decreases ts
  {
    if ts == [] then [] else [StripReversed(ts[0])] + StripEach(ts[1..])
  }

  function StripFields(fs: seq<Engine.UserField>): seq<Engine.UserField>
    decreases fs
  {
    if fs == [] then [] else [Engine.UserField(fs[0].fieldName, StripReversed(fs[0].fieldType))] + StripFields(fs[1..])
  }

  /** Reversed wrappers, wherever they occur, make no difference to the converted type. */
  lemma {:induction false} ConversionIgnoresReversal(t: Engine.AbstractType, table: TypeTable)
    decreases t
    ensures GetTypeFromInternal(StripReversed(t), table) == GetTypeFromInternal(t, table)
  {
    match t
    case ReversedType(b) => ConversionIgnoresReversal(b, table);
    case MapType(k, v, _) => ConversionIgnoresReversal(k, table); ConversionIgnoresReversal(v, table);
    case SetType(e, _) => ConversionIgnoresReversal(e, table);
    case ListType(e, _) => ConversionIgnoresReversal(e, table);
    case TupleType(ts, _) => ConvertEachIgnoresReversal(ts, table);
    case UserType(_, _, fs, _) => UdtColumnsIgnoreReversal(fs, table);
    case OtherType(_) =>
  }

  lemma {:induction false} ConvertEachIgnoresReversal(ts: seq<Engine.AbstractType>, table: TypeTable)
    decreases ts
    ensures ConvertEach(StripEach(ts), table) == ConvertEach(ts, table)
  {
    if ts != [] {
      ConversionIgnoresReversal(ts[0], table);
      ConvertEachIgnoresReversal(ts[1..], table);
      var s := StripEach(ts);
      assert s[0] == StripReversed(ts[0]) && s[1..] == StripEach(ts[1..]);
    }
  }

  lemma {:induction false} UdtColumnsIgnoreReversal(fs: seq<Engine.UserField>, table: TypeTable)
    decreases fs
    ensures UdtColumns(StripFields(fs), table) == UdtColumns(fs, table)
  {
    if fs != [] {
      ConversionIgnoresReversal(fs[0].fieldType, table);
      UdtColumnsIgnoreReversal(fs[1..], table);
      var s := StripFields(fs);
      assert s[0] == Engine.UserField(fs[0].fieldName, StripReversed(fs[0].fieldType)) && s[1..] == StripFields(fs[1..]);
    }
  }
}
