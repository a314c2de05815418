/**
 * KeyValueConstructor of the Kafka CDC producer: it builds the Avro key record (the
 * partition-key columns) and the Avro value record (operation, timestamp and a data record
 * of per-column union records) for a mutation event.
 */
module KafkaRecords {
  import opened Wrappers
  import Engine

  /** SchemaConstants' field names and OperationType's aliases. */
  datatype SchemaNames = SchemaNames(
    dataField: string, operationField: string, timestampField: string, valueField: string,
    updateAlias: string, deleteAlias: string)
  {
    /** The three top-level fields of the value record are different fields. */
    predicate TopFieldsDistinct() {
      dataField != operationField && dataField != timestampField && operationField != timestampField
    }
  }

  /** An Avro schema: a record with its fields, a union with its branches, or any other type. */
  datatype Schema =
    | RecordSchema(recordName: string, fields: seq<Field>)
    | UnionSchema(types: seq<Schema>)
    | OtherSchema(typeName: string)
  {
    /** Schema.getType(), by name. */
    function TypeName(): string {
      match this
      case RecordSchema(_, _) => "RECORD"
      case UnionSchema(_) => "UNION"
      case OtherSchema(n) => n
    }
  }

  datatype Field = Field(name: string, schema: Schema)

  /** A Java class by name, with the names of everything it extends or implements. */
  datatype JavaClass = JavaClass(name: string, supertypes: set<string>)

  /** A cell's value object: a java.util.Map (a UDT value) or any other object. */
  datatype JavaObject =
    | Instance(runtimeClass: JavaClass, text: string)
    | MapInstance(runtimeClass: JavaClass, entries: map<string, Option<JavaObject>>)

  datatype CellType = UserDefinedType(udtName: string) | OtherCellType(cqlName: string)

  datatype CellColumn = CellColumn(name: string, columnType: CellType)

  /** CellValue: its column, its value object (null is None) and its serialised bytes. */
  datatype CellValue = CellValue(column: CellColumn, valueObject: Option<JavaObject>, value: Engine.Bytes)

  /** RowUpdateEvent carries cells, DeleteEvent none, and any other MutationEvent neither. */
  datatype MutationKind = RowUpdate(cells: seq<CellValue>) | Delete | OtherMutation

  datatype MutationEvent = MutationEvent(
    kind: MutationKind, partitionKeys: seq<CellValue>, clusteringKeys: seq<CellValue>, timestamp: int)

  /** What is put into an Avro record field. */
  datatype Datum =
    | NullDatum
    | ObjectDatum(obj: JavaObject)
    | BytesDatum(bytes: Engine.Bytes)
    | RecordDatum(record: Record)
    | LongDatum(n: int)
    | StringDatum(s: string)

  /** GenericData.Record: its schema and the fields put so far. */
  datatype Record = Record(schema: Schema, fields: map<string, Datum>)

  datatype KafkaError =
      // AvroRuntimeException("Not a record schema: ...") from new GenericData.Record
    | NotRecordSchema(schema: Schema)
      // IllegalStateException("There is no %s field in the record schema for topic: %s.")
    | NoDataField(topic: string)
      // IllegalStateException("The type for %s should be UNION but is: %s")
    | NotUnion(columnName: string, actualType: string)
      // getTypes().get(1) on a union with fewer than two branches
    | MissingUnionBranch(columnName: string)
      // dataSchema.getField(columnName) is null
    | MissingColumnField(columnName: string)
      // getFields().get(0) on a UDT record schema without fields
    | EmptyUdtRecord(columnName: string)
      // the UDT cell's value object is null
    | NullUdtValue(columnName: string)
      // the UDT cell's value object is not a Map
    | NotAMap(columnName: string)

  /** GenericRecord.put. */
  function Put(record: Record, name: string, d: Datum): (r: Record)
    ensures r.schema == record.schema && r.fields.Keys == record.fields.Keys + {name}
    ensures r.fields[name] == d && forall k :: k in record.fields && k != name ==> r.fields[k] == record.fields[k]
  {
    Record(record.schema, record.fields[name := d])
  }

  /** new GenericData.Record(schema): an empty record, for record schemas only. */
  function NewRecord(schema: Schema): (r: Result<Record, KafkaError>)
    ensures r.Ok? <==> schema.RecordSchema?
    ensures r.Ok? ==> r.value.schema == schema && r.value.fields == map[]
    ensures r.Err? ==> r.error == NotRecordSchema(schema)
  {
    if schema.RecordSchema? then Ok(Record(schema, map[])) else Err(NotRecordSchema(schema))
  }

  /**
   * The first field with the given name (Schema.getField, and the stream's findFirst). Avro
   * rejects a record schema with two fields of one name, so the first is the only one.
   */
  function FieldNamed(fields: seq<Field>, name: string): (r: Option<Field>)
    ensures r.Some? ==> r.value in fields && r.value.name == name
    ensures r.Some? ==> exists j :: 0 <= j < |fields| && fields[j] == r.value &&
                                   forall m :: 0 <= m < j ==> fields[m].name != name
    ensures r.None? <==> forall f :: f in fields ==> f.name != name
    decreases fields
  {
    if fields == [] then None
    else if fields[0].name == name then Some(fields[0])
    else FieldNamed(fields[1..], name)
  }

  const CQL_DURATION: string := "com.datastax.oss.driver.api.core.data.CqlDuration"
  const INET_ADDRESS: string := "java.net.InetAddress"

  /** The classes whose values are sent as their raw bytes. */
  const AVRO_UNSUPPORTED_TYPES: seq<string> := [CQL_DURATION, INET_ADDRESS]

  /** Class.isAssignableFrom: `c` is the class named `t` or extends or implements it. */
  predicate IsAssignableFrom(t: string, c: JavaClass) {
    c.name == t || t in c.supertypes
  }

  /** What getValueObjectOrByteBuffer selects for a cell. */
  function SelectedValue(cell: CellValue): Datum {
    if cell.valueObject.None? then NullDatum
    else if exists t :: t in AVRO_UNSUPPORTED_TYPES && IsAssignableFrom(t, cell.valueObject.value.runtimeClass)
    then BytesDatum(cell.value)
    else ObjectDatum(cell.valueObject.value)
  }

  /**
   * getValueObjectOrByteBuffer: null stays null, a CqlDuration or an InetAddress (or any
   * subclass, such as Inet4Address) is replaced by the cell's bytes, anything else is the value
   * object itself.
   */
  method GetValueObjectOrByteBuffer(cell: CellValue) returns (d: Datum)
    ensures d == SelectedValue(cell)
    ensures d == NullDatum <==> cell.valueObject.None?
    ensures cell.valueObject.Some? ==>
              var c := cell.valueObject.value.runtimeClass;
              if IsAssignableFrom(CQL_DURATION, c) || IsAssignableFrom(INET_ADDRESS, c)
              then d == BytesDatum(cell.value)
              else d == ObjectDatum(cell.valueObject.value)
  {
    if cell.valueObject.None? {
      return NullDatum;
    }
    var c := cell.valueObject.value.runtimeClass;
    var i := 0;
    while i < |AVRO_UNSUPPORTED_TYPES|
      invariant 0 <= i <= |AVRO_UNSUPPORTED_TYPES|
      invariant forall j :: 0 <= j < i ==> !IsAssignableFrom(AVRO_UNSUPPORTED_TYPES[j], c)
    {
      if IsAssignableFrom(AVRO_UNSUPPORTED_TYPES[i], c) {
        return BytesDatum(cell.value);
      }
      i := i + 1;
    }
    d := ObjectDatum(cell.valueObject.value);
  }

  /**
   * validateUnionTypeAndConstructRecord: the schema must be a union, and the record is an
   * empty record of its second branch (the first one being null).
   */
  function ValidateUnionTypeAndConstructRecord(columnName: string, unionSchema: Schema): (r: Result<Record, KafkaError>)
    ensures !unionSchema.UnionSchema? ==> r == Err(NotUnion(columnName, unionSchema.TypeName()))
    ensures unionSchema.UnionSchema? && |unionSchema.types| < 2 ==> r == Err(MissingUnionBranch(columnName))
    ensures r.Ok? <==> unionSchema.UnionSchema? && |unionSchema.types| >= 2 && unionSchema.types[1].RecordSchema?
    ensures r.Ok? ==> r.value == Record(unionSchema.types[1], map[])
  {
    if !unionSchema.UnionSchema? then Err(NotUnion(columnName, unionSchema.TypeName()))
    else if |unionSchema.types| < 2 then Err(MissingUnionBranch(columnName))
    else NewRecord(unionSchema.types[1])
  }

  /** A UDT field value as it is put: null or the raw object, without byte substitution. */
  function RawDatum(o: Option<JavaObject>): Datum {
    if o.Some? then ObjectDatum(o.value) else NullDatum
  }

  /**
   * What constructUdt builds: the union record named after the UDT, holding every entry of
   * the cell's map under its key.
   */
  function UdtRecord(cell: CellValue, udtSchema: Schema): (r: Result<Record, KafkaError>)
    requires cell.column.columnType.UserDefinedType?
    ensures r.Ok? ==> cell.valueObject.Some? && cell.valueObject.value.MapInstance? &&
                      r.value.fields.Keys == cell.valueObject.value.entries.Keys &&
                      forall k :: k in r.value.fields ==> r.value.fields[k] == RawDatum(cell.valueObject.value.entries[k])
    ensures r.Ok? <==> ValidateUnionTypeAndConstructRecord(cell.column.columnType.udtName, udtSchema).Ok? &&
                       cell.valueObject.Some? && cell.valueObject.value.MapInstance?
    ensures r.Ok? ==> r.value.schema == udtSchema.types[1]
  {
    var record :- ValidateUnionTypeAndConstructRecord(cell.column.columnType.udtName, udtSchema);
    if cell.valueObject.None? then Err(NullUdtValue(cell.column.name))
    else if !cell.valueObject.value.MapInstance? then Err(NotAMap(cell.column.name))
    else
      var entries := cell.valueObject.value.entries;
      Ok(Record(record.schema, map k | k in entries :: RawDatum(entries[k])))
  }

  /** constructUdt: the loop over the map's entries, in whatever order the map yields them. */
  method ConstructUdt(cell: CellValue, udtSchema: Schema) returns (r: Result<Record, KafkaError>)
    requires cell.column.columnType.UserDefinedType?
    ensures r == UdtRecord(cell, udtSchema)
  {
    var union := ValidateUnionTypeAndConstructRecord(cell.column.columnType.udtName, udtSchema);
    if union.Err? {
      return Err(union.error);
    }
    var record := union.value;
    if cell.valueObject.None? {
      return Err(NullUdtValue(cell.column.name));
    }
    if !cell.valueObject.value.MapInstance? {
      return Err(NotAMap(cell.column.name));
    }
    var entries := cell.valueObject.value.entries;
    var remaining := entries.Keys;
    while remaining != {}
      invariant remaining <= entries.Keys && record.schema == union.value.schema
      invariant record.fields == map k | k in entries.Keys - remaining :: RawDatum(entries[k])
      decreases remaining
    {
      var k :| k in remaining;
      record := Put(record, k, RawDatum(entries[k]));
      remaining := remaining - {k};
    }
    assert entries.Keys - remaining == entries.Keys;
    assert record.fields == map k | k in entries :: RawDatum(entries[k]);
    r := Ok(record);
  }

  /**
   * The union record built for one cell: the data schema's field for the column must be a
   * union, and its record gets the value field set to the UDT record (for a UDT column, using
   * the schema of the record's first field) or to the selected value.
   */
  function CellRecord(cell: CellValue, dataSchema: Schema, names: SchemaNames): (r: Result<Record, KafkaError>)
    requires dataSchema.RecordSchema?
    ensures r.Ok? ==> names.valueField in r.value.fields
    ensures r.Ok? && !cell.column.columnType.UserDefinedType? ==>
              r.value.fields[names.valueField] == SelectedValue(cell)
    ensures FieldNamed(dataSchema.fields, cell.column.name).None? ==> r == Err(MissingColumnField(cell.column.name))
    ensures FieldNamed(dataSchema.fields, cell.column.name).Some? ==>
              var u := ValidateUnionTypeAndConstructRecord(cell.column.name, FieldNamed(dataSchema.fields, cell.column.name).value.schema);
              (u.Err? ==> r == Err(u.error)) &&
              (r.Ok? ==> u.Ok? && r.value.schema == u.value.schema && r.value.fields.Keys == {names.valueField}) &&
              (r.Ok? && cell.column.columnType.UserDefinedType? ==>
                 u.value.schema.fields != [] &&
                 UdtRecord(cell, u.value.schema.fields[0].schema).Ok? &&
                 r.value.fields[names.valueField] == RecordDatum(UdtRecord(cell, u.value.schema.fields[0].schema).value))
  {
    var columnName := cell.column.name;
    match FieldNamed(dataSchema.fields, columnName)
    case None => Err(MissingColumnField(columnName))
    case Some(field) =>
      var record :- ValidateUnionTypeAndConstructRecord(columnName, field.schema);
      if cell.column.columnType.UserDefinedType? then
        if record.schema.fields == [] then Err(EmptyUdtRecord(columnName))
        else
          var udt :- UdtRecord(cell, record.schema.fields[0].schema);
          Ok(Put(record, names.valueField, RecordDatum(udt)))
      else Ok(Put(record, names.valueField, SelectedValue(cell)))
  }

  /** The forEach lambda of createUnionAndAppendToData, up to the put into the data record. */
  method BuildCellRecord(cell: CellValue, dataSchema: Schema, names: SchemaNames) returns (r: Result<Record, KafkaError>)
    requires dataSchema.RecordSchema?
    ensures r == CellRecord(cell, dataSchema, names)
  {
    var columnName := cell.column.name;
    var field := FieldNamed(dataSchema.fields, columnName);
    if field.None? {
      return Err(MissingColumnField(columnName));
    }
    var union := ValidateUnionTypeAndConstructRecord(columnName, field.value.schema);
    if union.Err? {
      return Err(union.error);
    }
    var record := union.value;
    if cell.column.columnType.UserDefinedType? {
      if record.schema.fields == [] {
        return Err(EmptyUdtRecord(columnName));
      }
      var udt := ConstructUdt(cell, record.schema.fields[0].schema);
      if udt.Err? {
        return Err(udt.error);
      }
      r := Ok(Put(record, names.valueField, RecordDatum(udt.value)));
    } else {
      var v := GetValueObjectOrByteBuffer(cell);
      r := Ok(Put(record, names.valueField, v));
    }
  }

  /** The data record after appending the cells in order; the first cell that fails decides the error. */
  function AppendCells(cells: seq<CellValue>, dataSchema: Schema, data: Record, names: SchemaNames)
    : Result<Record, KafkaError>
    requires dataSchema.RecordSchema?
    decreases |cells|
  {
    if cells == [] then Ok(data)
    else
      var record :- CellRecord(cells[0], dataSchema, names);
      AppendCells(cells[1..], dataSchema, Put(data, cells[0].column.name, RecordDatum(record)), names)
  }

  /** createUnionAndAppendToData: the forEach over the cells. */
  method CreateUnionAndAppendToData(cells: seq<CellValue>, dataSchema: Schema, data: Record, names: SchemaNames)
    returns (r: Result<Record, KafkaError>)
    requires dataSchema.RecordSchema?
    ensures r == AppendCells(cells, dataSchema, data, names)
  {
    var current := data;
    var i := 0;
    assert cells[0..] == cells;
    while i < |cells|
      invariant 0 <= i <= |cells|
      invariant AppendCells(cells, dataSchema, data, names) == AppendCells(cells[i..], dataSchema, current, names)
    {
      assert cells[i..][0] == cells[i] && cells[i..][1..] == cells[i + 1..];
      var record := BuildCellRecord(cells[i], dataSchema, names);
      if record.Err? {
        return Err(record.error);
      }
      current := Put(current, cells[i].column.name, RecordDatum(record.value));
      i := i + 1;
    }
    r := Ok(current);
  }

  /** The record after putting each cell's selected value under its column name, in order. */
  function Filled(cells: seq<CellValue>, record: Record): Record
    decreases |cells|
  {
    if cells == [] then record
    else Filled(cells[1..], Put(record, cells[0].column.name, SelectedValue(cells[0])))
  }

  /** fillGenericRecordWithData: the forEach over the cells. */
  method FillGenericRecordWithData(cells: seq<CellValue>, record: Record) returns (r: Record)
    ensures r == Filled(cells, record)
  {
    r := record;
    var i := 0;
    assert cells[0..] == cells;
    while i < |cells|
      invariant 0 <= i <= |cells|
      invariant Filled(cells, record) == Filled(cells[i..], r)
    {
      assert cells[i..][0] == cells[i] && cells[i..][1..] == cells[i + 1..];
      var v := GetValueObjectOrByteBuffer(cells[i]);
      r := Put(r, cells[i].column.name, v);
      i := i + 1;
    }
  }

  /** The column names of some cells. */
  function ColumnNames(cells: seq<CellValue>): set<string> {
    set c | c in cells :: c.column.name
  }

  /** No two cells name the same column. */
  predicate DistinctColumns(cells: seq<CellValue>) {
    forall i, j :: 0 <= i < j < |cells| ==> cells[i].column.name != cells[j].column.name
  }

  /** The tail of distinct cells is distinct, and does not name the first cell's column. */
  lemma DistinctTail(cells: seq<CellValue>)
    requires cells != [] && DistinctColumns(cells)
    ensures DistinctColumns(cells[1..])
    ensures cells[0].column.name !in ColumnNames(cells[1..])
    ensures ColumnNames(cells) == {cells[0].column.name} + ColumnNames(cells[1..])
  {
    var rest := cells[1..];
    forall i, j | 0 <= i < j < |rest| ensures rest[i].column.name != rest[j].column.name {
      assert rest[i] == cells[i + 1] && rest[j] == cells[j + 1];
    }
    forall c | c in rest ensures c.column.name != cells[0].column.name {
      var j :| 0 <= j < |rest| && rest[j] == c;
      assert cells[j + 1] == c;
    }
    assert forall c :: c in cells <==> c == cells[0] || c in rest;
  }

  /** Appending succeeds exactly when every cell's union record can be built. */
  lemma {:induction false} AppendCellsSucceeds(cells: seq<CellValue>, dataSchema: Schema, data: Record, names: SchemaNames)
    requires dataSchema.RecordSchema?
    decreases |cells|
    ensures AppendCells(cells, dataSchema, data, names).Ok? <==>
              forall i :: 0 <= i < |cells| ==> CellRecord(cells[i], dataSchema, names).Ok?
  {
    if cells != [] {
      var next := CellRecord(cells[0], dataSchema, names);
      if next.Ok? {
        AppendCellsSucceeds(cells[1..], dataSchema, Put(data, cells[0].column.name, RecordDatum(next.value)), names);
        assert forall i :: 0 < i < |cells| ==> cells[1..][i - 1] == cells[i];
      }
    }
  }

  /** A successful append gains exactly the cells' column names and keeps every other field. */
  lemma {:induction false} AppendCellsSound(cells: seq<CellValue>, dataSchema: Schema, data: Record, names: SchemaNames)
    requires dataSchema.RecordSchema?
    decreases |cells|
    ensures AppendCells(cells, dataSchema, data, names).Ok? ==>
              var r := AppendCells(cells, dataSchema, data, names).value;
              r.schema == data.schema && r.fields.Keys == data.fields.Keys + ColumnNames(cells) &&
              forall k :: k in data.fields && k !in ColumnNames(cells) ==> r.fields[k] == data.fields[k]
  {
    if cells != [] {
      var next := CellRecord(cells[0], dataSchema, names);
      assert ColumnNames(cells) == {cells[0].column.name} + ColumnNames(cells[1..]) by {
        assert forall c :: c in cells <==> c == cells[0] || c in cells[1..];
      }
      if next.Ok? {
        AppendCellsSound(cells[1..], dataSchema, Put(data, cells[0].column.name, RecordDatum(next.value)), names);
      }
    }
  }

  /** With distinct columns, each cell's union record ends up under its column name. */
  lemma {:induction false} AppendCellsPlacesEach(cells: seq<CellValue>, dataSchema: Schema, data: Record, names: SchemaNames)
    requires dataSchema.RecordSchema? && DistinctColumns(cells)
    requires AppendCells(cells, dataSchema, data, names).Ok?
    decreases |cells|
    ensures forall i :: 0 <= i < |cells| ==> cells[i].column.name in AppendCells(cells, dataSchema, data, names).value.fields
    ensures forall i :: 0 <= i < |cells| ==>
              CellRecord(cells[i], dataSchema, names).Ok? &&
              AppendCells(cells, dataSchema, data, names).value.fields[cells[i].column.name] ==
                RecordDatum(CellRecord(cells[i], dataSchema, names).value)
  {
    if cells != [] {
      var first := CellRecord(cells[0], dataSchema, names).value;
      var data' := Put(data, cells[0].column.name, RecordDatum(first));
      var rest := cells[1..];
      DistinctTail(cells);
      AppendCellsPlacesEach(rest, dataSchema, data', names);
      AppendCellsSound(rest, dataSchema, data', names);
      forall i | 0 < i < |cells|
        ensures CellRecord(cells[i], dataSchema, names).Ok? &&
                AppendCells(cells, dataSchema, data, names).value.fields[cells[i].column.name] ==
                  RecordDatum(CellRecord(cells[i], dataSchema, names).value)
      {
        assert rest[i - 1] == cells[i];
      }
    }
  }

  /**
   * A UDT cell's map reaches the data record: with distinct columns, the union record under
   * the column holds in its value field a record with exactly the cell's map entries, each
   * under its key, with the raw value.
   */
  lemma UdtEntriesInData(cells: seq<CellValue>, dataSchema: Schema, data: Record, names: SchemaNames, i: nat)
    requires dataSchema.RecordSchema? && DistinctColumns(cells)
    requires AppendCells(cells, dataSchema, data, names).Ok?
    requires i < |cells| && cells[i].column.columnType.UserDefinedType?
    ensures cells[i].valueObject.Some? && cells[i].valueObject.value.MapInstance?
    ensures cells[i].column.name in AppendCells(cells, dataSchema, data, names).value.fields
    ensures var d := AppendCells(cells, dataSchema, data, names).value.fields[cells[i].column.name];
            d.RecordDatum? && names.valueField in d.record.fields && d.record.fields[names.valueField].RecordDatum? &&
            var udt := d.record.fields[names.valueField].record;
            udt.fields.Keys == cells[i].valueObject.value.entries.Keys &&
            forall k :: k in udt.fields ==> udt.fields[k] == RawDatum(cells[i].valueObject.value.entries[k])
  {
    AppendCellsPlacesEach(cells, dataSchema, data, names);
    var cell := cells[i];
    var u := ValidateUnionTypeAndConstructRecord(cell.column.name, FieldNamed(dataSchema.fields, cell.column.name).value.schema);
    assert UdtRecord(cell, u.value.schema.fields[0].schema).Ok?;
  }

  /** Appending cells never fails for want of a data field: that is only checked on the value schema. */
  lemma {:induction false} AppendCellsHasDataField(cells: seq<CellValue>, dataSchema: Schema, data: Record, names: SchemaNames)
    requires dataSchema.RecordSchema?
    decreases |cells|
    ensures AppendCells(cells, dataSchema, data, names).Err? ==> !AppendCells(cells, dataSchema, data, names).error.NoDataField?
  {
    if cells != [] {
      var next := CellRecord(cells[0], dataSchema, names);
      if next.Ok? {
        AppendCellsHasDataField(cells[1..], dataSchema, Put(data, cells[0].column.name, RecordDatum(next.value)), names);
      }
    }
  }

  /** Appending two lists of cells is appending the first and then the second. */
  lemma {:induction false} AppendCellsConcat(a: seq<CellValue>, b: seq<CellValue>, dataSchema: Schema, data: Record, names: SchemaNames)
    requires dataSchema.RecordSchema?
    decreases |a|
    ensures AppendCells(a + b, dataSchema, data, names) ==
              match AppendCells(a, dataSchema, data, names)
              case Ok(d) => AppendCells(b, dataSchema, d, names)
              case Err(e) => Err(e)
  {
    if a == [] {
      assert a + b == b;
    } else {
      assert (a + b)[0] == a[0] && (a + b)[1..] == a[1..] + b;
      var next := CellRecord(a[0], dataSchema, names);
      if next.Ok? {
        AppendCellsConcat(a[1..], b, dataSchema, Put(data, a[0].column.name, RecordDatum(next.value)), names);
      }
    }
  }

  /** Filling puts exactly the cells' column names into the record and keeps its other fields. */
  lemma {:induction false} FilledKeys(cells: seq<CellValue>, record: Record)
    decreases |cells|
    ensures Filled(cells, record).schema == record.schema
    ensures Filled(cells, record).fields.Keys == record.fields.Keys + ColumnNames(cells)
    ensures forall k :: k in record.fields && k !in ColumnNames(cells) ==> Filled(cells, record).fields[k] == record.fields[k]
  {
    if cells != [] {
      var rest := cells[1..];
      FilledKeys(rest, Put(record, cells[0].column.name, SelectedValue(cells[0])));
      assert ColumnNames(cells) == {cells[0].column.name} + ColumnNames(rest) by {
        assert forall c :: c in cells <==> c == cells[0] || c in rest;
      }
    }
  }

  /** With distinct columns, each column of the filled record holds its cell's selected value. */
  lemma {:induction false} FilledPlacesEach(cells: seq<CellValue>, record: Record)
    requires DistinctColumns(cells)
    decreases |cells|
    ensures forall i :: 0 <= i < |cells| ==> cells[i].column.name in Filled(cells, record).fields
    ensures forall i :: 0 <= i < |cells| ==> Filled(cells, record).fields[cells[i].column.name] == SelectedValue(cells[i])
  {
    if cells != [] {
      var rest := cells[1..];
      var record' := Put(record, cells[0].column.name, SelectedValue(cells[0]));
      DistinctTail(cells);
      FilledPlacesEach(rest, record');
      FilledKeys(rest, record');
      forall i | 0 < i < |cells|
        ensures cells[i].column.name in Filled(cells, record).fields
        ensures Filled(cells, record).fields[cells[i].column.name] == SelectedValue(cells[i])
      {
        assert rest[i - 1] == cells[i];
      }
    }
  }

  /** What constructKey builds: the key schema's record filled with the partition keys. */
  function KeyRecord(event: MutationEvent, topic: string, keySchemaFor: string -> Schema): Result<Record, KafkaError> {
    var key :- NewRecord(keySchemaFor(topic));
    Ok(Filled(event.partitionKeys, key))
  }

  /** constructKey. */
  method ConstructKey(event: MutationEvent, topic: string, keySchemaFor: string -> Schema)
    returns (r: Result<Record, KafkaError>)
    ensures r == KeyRecord(event, topic, keySchemaFor)
  {
    var key := NewRecord(keySchemaFor(topic));
    if key.Err? {
      return Err(key.error);
    }
    var filled := FillGenericRecordWithData(event.partitionKeys, key.value);
    r := Ok(filled);
  }

  /**
   * The key record holds exactly the partition-key columns, under their names, and with
   * distinct columns each holds its cell's selected value.
   */
  lemma KeyHoldsPartitionKeys(event: MutationEvent, topic: string, keySchemaFor: string -> Schema)
    ensures KeyRecord(event, topic, keySchemaFor).Ok? <==> keySchemaFor(topic).RecordSchema?
    ensures KeyRecord(event, topic, keySchemaFor).Ok? ==>
              var key := KeyRecord(event, topic, keySchemaFor).value;
              key.schema == keySchemaFor(topic) && key.fields.Keys == ColumnNames(event.partitionKeys) &&
              (DistinctColumns(event.partitionKeys) ==>
                 forall i :: 0 <= i < |event.partitionKeys| ==>
                   key.fields[event.partitionKeys[i].column.name] == SelectedValue(event.partitionKeys[i]))
  {
    var empty := Record(keySchemaFor(topic), map[]);
    FilledKeys(event.partitionKeys, empty);
    if DistinctColumns(event.partitionKeys) {
      FilledPlacesEach(event.partitionKeys, empty);
    }
  }

  /** The cells written into the data record: partition keys, clustering keys, then an update's cells. */
  function DataCells(event: MutationEvent): seq<CellValue> {
    event.partitionKeys + event.clusteringKeys + (if event.kind.RowUpdate? then event.kind.cells else [])
  }

  /**
   * What constructValue builds: the value schema's record with the operation alias (for an
   * update or a delete), the event's timestamp and the data record, which is the data field's
   * record with the partition keys, then the clustering keys, then an update's cells appended.
   */
  function ValueRecord(event: MutationEvent, topic: string, valueSchemaFor: string -> Schema, names: SchemaNames)
    : Result<Record, KafkaError>
  {
    var schema := valueSchemaFor(topic);
    var value :- NewRecord(schema);
    match FieldNamed(schema.fields, names.dataField)
    case None => Err(NoDataField(topic))
    case Some(dataField) =>
      var data :- NewRecord(dataField.schema);
      var afterPartitionKeys :- AppendCells(event.partitionKeys, dataField.schema, data, names);
      var afterClusteringKeys :- AppendCells(event.clusteringKeys, dataField.schema, afterPartitionKeys, names);
      var filled :- (if event.kind.RowUpdate? then AppendCells(event.kind.cells, dataField.schema, afterClusteringKeys, names)
                     else Ok(afterClusteringKeys));
      var withOperation :=
        match event.kind
        case RowUpdate(_) => Put(value, names.operationField, StringDatum(names.updateAlias))
        case Delete => Put(value, names.operationField, StringDatum(names.deleteAlias))
        case OtherMutation => value;
      Ok(Put(Put(withOperation, names.timestampField, LongDatum(event.timestamp)), names.dataField, RecordDatum(filled)))
  }

  /** constructValue. */
  method ConstructValue(event: MutationEvent, topic: string, valueSchemaFor: string -> Schema, names: SchemaNames)
    returns (r: Result<Record, KafkaError>)
    ensures r == ValueRecord(event, topic, valueSchemaFor, names)
  {
    var schema := valueSchemaFor(topic);
    var value := NewRecord(schema);
    if value.Err? {
      return Err(value.error);
    }
    var dataField := FieldNamed(schema.fields, names.dataField);
    if dataField.None? {
      return Err(NoDataField(topic));
    }
    var dataSchema := dataField.value.schema;
    var data := NewRecord(dataSchema);
    if data.Err? {
      return Err(data.error);
    }
    var current := CreateUnionAndAppendToData(event.partitionKeys, dataSchema, data.value, names);
    if current.Err? {
      return Err(current.error);
    }
    current := CreateUnionAndAppendToData(event.clusteringKeys, dataSchema, current.value, names);
    if current.Err? {
      return Err(current.error);
    }
    var record := value.value;
    match event.kind {
      case RowUpdate(cells) =>
        current := CreateUnionAndAppendToData(cells, dataSchema, current.value, names);
        if current.Err? {
          return Err(current.error);
        }
        record := Put(record, names.operationField, StringDatum(names.updateAlias));
      case Delete =>
        record := Put(record, names.operationField, StringDatum(names.deleteAlias));
      case OtherMutation =>
    }
    record := Put(record, names.timestampField, LongDatum(event.timestamp));
    record := Put(record, names.dataField, RecordDatum(current.value));
    r := Ok(record);
  }

  /** The value record reports a missing data field, naming the topic, exactly when that field is missing. */
  lemma ValueRecordNoDataField(event: MutationEvent, topic: string, valueSchemaFor: string -> Schema, names: SchemaNames)
    ensures var schema := valueSchemaFor(topic);
            ValueRecord(event, topic, valueSchemaFor, names) == Err(NoDataField(topic)) <==>
              schema.RecordSchema? && FieldNamed(schema.fields, names.dataField).None?
  {
    var schema := valueSchemaFor(topic);
    if schema.RecordSchema? && FieldNamed(schema.fields, names.dataField).Some? {
      var dataSchema := FieldNamed(schema.fields, names.dataField).value.schema;
      if dataSchema.RecordSchema? {
        var data := Record(dataSchema, map[]);
        AppendCellsHasDataField(event.partitionKeys, dataSchema, data, names);
        var afterPartitionKeys := AppendCells(event.partitionKeys, dataSchema, data, names);
        if afterPartitionKeys.Ok? {
          AppendCellsHasDataField(event.clusteringKeys, dataSchema, afterPartitionKeys.value, names);
          var afterClusteringKeys := AppendCells(event.clusteringKeys, dataSchema, afterPartitionKeys.value, names);
          if afterClusteringKeys.Ok? && event.kind.RowUpdate? {
            AppendCellsHasDataField(event.kind.cells, dataSchema, afterClusteringKeys.value, names);
          }
        }
      }
    }
  }

  /**
   * A built value record is a record of the value schema holding the data and timestamp fields,
   * and the operation field exactly for an update (its alias) or a delete (its alias); the
   * timestamp is the event's.
   */
  lemma ValueRecordFields(event: MutationEvent, topic: string, valueSchemaFor: string -> Schema, names: SchemaNames)
    requires names.TopFieldsDistinct()
    ensures var r := ValueRecord(event, topic, valueSchemaFor, names);
            r.Ok? ==>
              r.value.schema == valueSchemaFor(topic) &&
              r.value.fields.Keys ==
                {names.dataField, names.timestampField} + (if event.kind.OtherMutation? then {} else {names.operationField}) &&
              r.value.fields[names.timestampField] == LongDatum(event.timestamp) &&
              (event.kind.RowUpdate? ==> r.value.fields[names.operationField] == StringDatum(names.updateAlias)) &&
              (event.kind.Delete? ==> r.value.fields[names.operationField] == StringDatum(names.deleteAlias))
  {
  }

  /**
   * The data field of a built value record holds the data field's record with the partition
   * keys, then the clustering keys, then an update's cells appended, in that order.
   */
  lemma ValueRecordData(event: MutationEvent, topic: string, valueSchemaFor: string -> Schema, names: SchemaNames)
    ensures var schema := valueSchemaFor(topic);
            var r := ValueRecord(event, topic, valueSchemaFor, names);
            r.Ok? ==>
              FieldNamed(schema.fields, names.dataField).Some? &&
              var dataSchema := FieldNamed(schema.fields, names.dataField).value.schema;
              dataSchema.RecordSchema? &&
              names.dataField in r.value.fields &&
              r.value.fields[names.dataField].RecordDatum? &&
              Ok(r.value.fields[names.dataField].record) ==
                AppendCells(DataCells(event), dataSchema, Record(dataSchema, map[]), names)
  {
    var schema := valueSchemaFor(topic);
    if schema.RecordSchema? && FieldNamed(schema.fields, names.dataField).Some? {
      var dataSchema := FieldNamed(schema.fields, names.dataField).value.schema;
      if dataSchema.RecordSchema? {
        var data := Record(dataSchema, map[]);
        var extra := if event.kind.RowUpdate? then event.kind.cells else [];
        AppendCellsConcat(event.partitionKeys, event.clusteringKeys, dataSchema, data, names);
        AppendCellsConcat(event.partitionKeys + event.clusteringKeys, extra, dataSchema, data, names);
        var keys := AppendCells(event.partitionKeys + event.clusteringKeys, dataSchema, data, names);
        if keys.Ok? && !event.kind.RowUpdate? {
          assert AppendCells(extra, dataSchema, keys.value, names) == Ok(keys.value);
        }
      }
    }
  }
}
