/**
 * The result translator of Conversion.java: toResultMetadata, toPreparedMetadata,
 * toSchemaChangeMetadata, toResultInternal and toResult, which turn the engine's result
 * messages into io.stargate.db.Result values.
 */
module ResultTranslation {
  import opened Wrappers
  import Engine
  import Api
  import TypeBridge
  import Levels

  /** Why a result cannot be translated. */
  datatype ResultError =
    | UnknownType(typeError: TypeBridge.TypeError)
      // ProtocolException("Unexpected type for RESULT message: " + kind)
    | UnexpectedResultKind(kind: string)
      // the prepared statement is not in the registry, so reading its indexes fails
    | MissingPreparedStatement(statementId: Engine.Digest)

  /** QueryProcessor's prepared statements: id to partitionKeyBindIndexes (which may be null). */
  type Registry = map<Engine.Digest, Option<seq<int>>>

  /** PagingState.serialize(version). */
  type Serializer = (Engine.PagingState, Option<Engine.ProtocolVersion>) -> Engine.Bytes

  /** The column built for a column specification: its keyspace, table, name and type; no kind. */
  function SpecColumn(spec: Engine.ColumnSpecification, c: Api.ColumnType): Api.Column {
    Api.Column(Some(spec.ksName), Some(spec.cfName), spec.name, c, None)
  }

  /** The columns for `specs`, in order; the first specification whose type fails decides the error. */
  function Columns(specs: seq<Engine.ColumnSpecification>, table: TypeBridge.TypeTable)
    : Result<seq<Api.Column>, TypeBridge.TypeError>
    decreases specs
  {
    if specs == [] then Ok([])
    else
      var c :- TypeBridge.GetTypeFromInternal(specs[0].columnType, table);
      var cols :- Columns(specs[1..], table);
      Ok([SpecColumn(specs[0], c)] + cols)
  }

  /** The forEach over the specifications that appends one column per specification. */
  method ToColumns(specs: seq<Engine.ColumnSpecification>, table: TypeBridge.TypeTable)
    returns (r: Result<seq<Api.Column>, TypeBridge.TypeError>)
    ensures r == Columns(specs, table)
  {
    var columns: seq<Api.Column> := [];
    var i := 0;
    assert specs[0..] == specs;
    TypeBridge.PrependNothing(Columns(specs, table));
    while i < |specs|
      invariant 0 <= i <= |specs|
      invariant Columns(specs, table) == TypeBridge.PrependColumns(columns, Columns(specs[i..], table))
    {
      assert specs[i..][0] == specs[i] && specs[i..][1..] == specs[i + 1..];
      var c := TypeBridge.GetTypeFromInternal(specs[i].columnType, table);
      if c.Err? {
        assert Columns(specs[i..], table) == Err(c.error);
        assert Columns(specs, table) == Err(c.error);
        return Err(c.error);
      }
      var column := SpecColumn(specs[i], c.value);
      TypeBridge.PrependOneMore(columns, column, Columns(specs[i + 1..], table));
      columns := columns + [column];
      i := i + 1;
    }
    assert specs[i..] == [];
    assert Columns(specs, table) == TypeBridge.PrependColumns(columns, Ok([]));
    assert columns + [] == columns;
    r := Ok(columns);
  }

  /**
   * The columns succeed exactly when every type has its scalar classes in the table; then
   * there is one column per specification, in order, carrying its keyspace, table and name and
   * a type that corresponds to the specification's type.
   */
  lemma {:induction false} ColumnsSound(specs: seq<Engine.ColumnSpecification>, table: TypeBridge.TypeTable)
    decreases specs
    ensures Columns(specs, table).Ok? <==>
              forall i :: 0 <= i < |specs| ==> TypeBridge.ScalarClasses(specs[i].columnType) <= table.Keys
    ensures Columns(specs, table).Ok? ==>
              var cols := Columns(specs, table).value;
              |cols| == |specs| &&
              forall i :: 0 <= i < |specs| ==>
                cols[i] == SpecColumn(specs[i], cols[i].columnType) &&
                TypeBridge.Corresponds(specs[i].columnType, cols[i].columnType, table)
  {
    if specs != [] {
      TypeBridge.ConversionSound(specs[0].columnType, table);
      ColumnsSound(specs[1..], table);
      var r := Columns(specs, table);
      if forall i :: 0 <= i < |specs| ==> TypeBridge.ScalarClasses(specs[i].columnType) <= table.Keys {
        assert forall i :: 0 <= i < |specs| - 1 ==>
          TypeBridge.ScalarClasses(specs[1..][i].columnType) <= table.Keys by {
          forall i | 0 <= i < |specs| - 1
            ensures TypeBridge.ScalarClasses(specs[1..][i].columnType) <= table.Keys
          {
            assert specs[1..][i] == specs[i + 1];
          }
        }
      }
      if r.Ok? {
        var cols := r.value;
        var rest := Columns(specs[1..], table).value;
        forall i | 0 <= i < |specs|
          ensures TypeBridge.ScalarClasses(specs[i].columnType) <= table.Keys
          ensures cols[i] == SpecColumn(specs[i], cols[i].columnType)
          ensures TypeBridge.Corresponds(specs[i].columnType, cols[i].columnType, table)
        {
          if i > 0 {
            assert specs[1..][i - 1] == specs[i] && cols[i] == rest[i - 1];
          }
        }
      }
    }
  }

  /** The names of a metadata, an absent list being no columns. */
  function NamesOf(metadata: Engine.ResultSetMetadata): seq<Engine.ColumnSpecification> {
    if metadata.names.Some? then metadata.names.value else []
  }

  /**
   * What toResultMetadata builds: the columns of the names in order; HAS_MORE_PAGES, and the
   * serialized paging state, exactly when the metadata has a paging state; no metadata id.
   */
  function ResultMetadataOf(
    metadata: Engine.ResultSetMetadata, version: Option<Engine.ProtocolVersion>,
    table: TypeBridge.TypeTable, serialize: Serializer)
    : (r: Result<Api.ResultMetadata, TypeBridge.TypeError>)
    ensures r.Ok? <==> Columns(NamesOf(metadata), table).Ok?
    ensures r.Err? ==> r.error == Columns(NamesOf(metadata), table).error
    ensures r.Ok? ==> r.value.columns == Columns(NamesOf(metadata), table).value
    ensures r.Ok? ==> r.value.flags <= {Api.HAS_MORE_PAGES}
    ensures r.Ok? ==> (Api.HAS_MORE_PAGES in r.value.flags <==> metadata.pagingState.Some?)
    ensures r.Ok? ==> (r.value.pagingState.Some? <==> metadata.pagingState.Some?)
    ensures r.Ok? && metadata.pagingState.Some? ==>
              r.value.pagingState.value == serialize(metadata.pagingState.value, version)
    ensures r.Ok? ==> r.value.resultMetadataId.None?
  {
    var columns :- Columns(NamesOf(metadata), table);
    var flags: set<Api.Flag> := if metadata.pagingState.Some? then {Api.HAS_MORE_PAGES} else {};
    var token := if metadata.pagingState.Some? then Some(serialize(metadata.pagingState.value, version)) else None;
    Ok(Api.ResultMetadata(flags, columns, None, token))
  }

  /** toResultMetadata: the column loop, then HAS_MORE_PAGES added when a paging state is present. */
  method ToResultMetadata(
    metadata: Engine.ResultSetMetadata, version: Option<Engine.ProtocolVersion>,
    table: TypeBridge.TypeTable, serialize: Serializer)
    returns (r: Result<Api.ResultMetadata, TypeBridge.TypeError>)
    ensures r == ResultMetadataOf(metadata, version, table, serialize)
  {
    var columns: seq<Api.Column> := [];
    if metadata.names.Some? {
      var cols := ToColumns(metadata.names.value, table);
      if cols.Err? {
        return Err(cols.error);
      }
      columns := cols.value;
    }
    assert Columns(NamesOf(metadata), table) == Ok(columns);
    var flags: set<Api.Flag> := {};
    var token: Option<Engine.Bytes> := None;
    if metadata.pagingState.Some? {
      flags := flags + {Api.HAS_MORE_PAGES};
      token := Some(serialize(metadata.pagingState.value, version));
    }
    r := Ok(Api.ResultMetadata(flags, columns, None, token));
    assert flags == if metadata.pagingState.Some? then {Api.HAS_MORE_PAGES} else {};
  }

  /** ColumnSpecification.allInSameTable: the list is non-empty and every entry has the first one's keyspace and table. */
  predicate AllInSameTable(names: seq<Engine.ColumnSpecification>) {
    |names| > 0 &&
    forall i :: 0 <= i < |names| ==> names[i].ksName == names[0].ksName && names[i].cfName == names[0].cfName
  }

  /**
   * What toPreparedMetadata builds: the columns of the bound names in order, the given
   * indexes, and GLOBAL_TABLES_SPEC exactly when the names are non-empty and all in one table.
   */
  function PreparedMetadataOf(names: seq<Engine.ColumnSpecification>, indexes: Option<seq<int>>, table: TypeBridge.TypeTable)
    : (r: Result<Api.PreparedMetadata, TypeBridge.TypeError>)
    ensures r.Ok? <==> Columns(names, table).Ok?
    ensures r.Err? ==> r.error == Columns(names, table).error
    ensures r.Ok? ==> r.value.columns == Columns(names, table).value && r.value.partitionKeyBindIndexes == indexes
    ensures r.Ok? ==> r.value.flags <= {Api.GLOBAL_TABLES_SPEC}
    ensures r.Ok? ==> (Api.GLOBAL_TABLES_SPEC in r.value.flags <==> |names| > 0 && AllInSameTable(names))
  {
    var columns :- Columns(names, table);
    var flags: set<Api.Flag> := if |names| > 0 && AllInSameTable(names) then {Api.GLOBAL_TABLES_SPEC} else {};
    Ok(Api.PreparedMetadata(flags, columns, indexes))
  }

  /** toPreparedMetadata: the column loop, then GLOBAL_TABLES_SPEC added when the names share a table. */
  method ToPreparedMetadata(names: seq<Engine.ColumnSpecification>, indexes: Option<seq<int>>, table: TypeBridge.TypeTable)
    returns (r: Result<Api.PreparedMetadata, TypeBridge.TypeError>)
    ensures r == PreparedMetadataOf(names, indexes, table)
  {
    var columns := ToColumns(names, table);
    if columns.Err? {
      return Err(columns.error);
    }
    var flags: set<Api.Flag> := {};
    if |names| > 0 && AllInSameTable(names) {
      flags := flags + {Api.GLOBAL_TABLES_SPEC};
    }
    r := Ok(Api.PreparedMetadata(flags, columns.value, indexes));
    assert flags == if |names| > 0 && AllInSameTable(names) then {Api.GLOBAL_TABLES_SPEC} else {};
  }

  /** The toString of the engine's enums. */
  function ChangeName(k: Engine.SchemaChangeKind): string {
    match k
    case CREATED => "CREATED"
    case UPDATED => "UPDATED"
    case DROPPED => "DROPPED"
  }

  function TargetName(t: Engine.SchemaChangeTarget): string {
    match t
    case KEYSPACE => "KEYSPACE"
    case TABLE => "TABLE"
    case TYPE => "TYPE"
    case FUNCTION => "FUNCTION"
    case AGGREGATE => "AGGREGATE"
  }

  /** toSchemaChangeMetadata: the change and target by name, keyspace, name and argument types as given. */
  function ToSchemaChangeMetadata(change: Engine.SchemaChangeEvent): (m: Api.SchemaChangeMetadata)
    ensures m.change == ChangeName(change.change) && m.target == TargetName(change.target)
    ensures m.keyspace == change.keyspace && m.name == change.name && m.argTypes == change.argTypes
  {
    Api.SchemaChangeMetadata(ChangeName(change.change), TargetName(change.target), change.keyspace, change.name, change.argTypes)
  }

  /** The schema change metadata determines the event: nothing is lost in translation. */
  lemma SchemaChangeLossless(a: Engine.SchemaChangeEvent, b: Engine.SchemaChangeEvent)
    requires ToSchemaChangeMetadata(a) == ToSchemaChangeMetadata(b)
    ensures a == b
  {
    assert ChangeName(a.change) == ChangeName(b.change);
    assert TargetName(a.target) == TargetName(b.target);
    assert ChangeName(a.change)[0] == ChangeName(b.change)[0];
    assert TargetName(a.target)[1] == TargetName(b.target)[1];
  }

  /** A translated result has the kind of the message it was translated from. */
  predicate SameKind(message: Engine.ResultBody, body: Api.ResultBody) {
    match message
    case VoidMessage => body.Void?
    case RowsMessage(_, _) => body.Rows?
    case SetKeyspaceMessage(_) => body.SetKeyspace?
    case PreparedMessage(_, _, _) => body.Prepared?
    case SchemaChangeMessage(_) => body.SchemaChange?
    case OtherKind(_) => false
  }

  /**
   * toResultInternal: a switch over the message kind. Rows keep their rows and translate their
   * metadata with the given version; a prepared result translates its result metadata with no
   * version, looks up the statement's partition-key indexes in the registry and has no result
   * metadata id; any other kind is a ProtocolException.
   */
  function ToResultInternal(
    message: Engine.ResultBody, version: Option<Engine.ProtocolVersion>,
    table: TypeBridge.TypeTable, registry: Registry, serialize: Serializer)
    : (r: Result<Api.ResultBody, ResultError>)
    ensures r.Ok? ==> SameKind(message, r.value)
    ensures message.OtherKind? ==> r == Err(UnexpectedResultKind(message.kind))
    ensures r.Err? && r.error.UnexpectedResultKind? ==> message.OtherKind?
    ensures message.VoidMessage? ==> r == Ok(Api.Void)
    ensures message.SetKeyspaceMessage? ==> r == Ok(Api.SetKeyspace(message.keyspace))
    ensures message.SchemaChangeMessage? ==> r == Ok(Api.SchemaChange(ToSchemaChangeMetadata(message.change)))
    ensures message.RowsMessage? ==>
              (r.Ok? <==> Columns(NamesOf(message.metadata), table).Ok?) &&
              (r.Ok? ==> r.value.rows == message.rows &&
                         Ok(r.value.metadata) == ResultMetadataOf(message.metadata, version, table, serialize))
    ensures message.PreparedMessage? ==>
              (r.Ok? <==> Columns(NamesOf(message.resultMetadata), table).Ok? && message.statementId in registry &&
                          Columns(message.boundNames, table).Ok?) &&
              (r.Ok? ==> r.value.statementId == Levels.ToExternalDigest(message.statementId) &&
                         r.value.resultMetadataId.None? &&
                         Ok(r.value.resultMetadata) == ResultMetadataOf(message.resultMetadata, None, table, serialize) &&
                         Ok(r.value.preparedMetadata) ==
                           PreparedMetadataOf(message.boundNames, registry[message.statementId], table))
  {
    match message
    case VoidMessage => Ok(Api.Void)
    case RowsMessage(rows, metadata) =>
      var m := ResultMetadataOf(metadata, version, table, serialize);
      if m.Err? then Err(UnknownType(m.error)) else Ok(Api.Rows(rows, m.value))
    case SetKeyspaceMessage(keyspace) => Ok(Api.SetKeyspace(keyspace))
    case SchemaChangeMessage(change) => Ok(Api.SchemaChange(ToSchemaChangeMetadata(change)))
    case PreparedMessage(id, resultMetadata, boundNames) =>
      var m := ResultMetadataOf(resultMetadata, None, table, serialize);
      if m.Err? then Err(UnknownType(m.error))
      else if id !in registry then Err(MissingPreparedStatement(id))
      else
        var p := PreparedMetadataOf(boundNames, registry[id], table);
        if p.Err? then Err(UnknownType(p.error))
        else Ok(Api.Prepared(Levels.ToExternalDigest(id), None, m.value, p.value))
    case OtherKind(kind) => Err(UnexpectedResultKind(kind))
  }

  /** toResult: the translated result, with the message's tracing id set on it. */
  function ToResult(
    message: Engine.ResultMessage, version: Option<Engine.ProtocolVersion>,
    table: TypeBridge.TypeTable, registry: Registry, serialize: Serializer)
    : (r: Result<Api.QueryResult, ResultError>)
    ensures r.Ok? <==> ToResultInternal(message.body, version, table, registry, serialize).Ok?
    ensures r.Ok? ==> r.value.tracingId == message.tracingId &&
                      r.value.body == ToResultInternal(message.body, version, table, registry, serialize).value
    ensures r.Err? ==> r.error == ToResultInternal(message.body, version, table, registry, serialize).error
  {
    var body :- ToResultInternal(message.body, version, table, registry, serialize);
    Ok(Api.QueryResult(body, message.tracingId))
  }
}
