# Stargate marshalling layer, modelled in Dafny

Stargate is a data gateway that sits in front of an embedded Cassandra engine. This
project models its marshalling layer and proves properties of the model. The layer has
three parts:

* **Conversion (Cassandra 3.11 persistence).** It converts values in both directions
  between Stargate's own API types and the engine's internal types:
  * column types;
  * consistency levels, protocol versions, write and batch types;
  * statement digests and endpoint addresses;
  * query options built from request parameters;
  * engine exceptions into Stargate's exceptions;
  * engine result messages into Stargate `Result`s.
* **The persistence-backed prepared statement.** It checks the values bound to a
  prepared statement, validates them against the bind markers' types (recursing into
  lists, sets and maps) and serialises them. It applies a per-execution consistency
  override, and it turns the persistence layer's `Result` into a `ResultSet`.
* **The Kafka CDC producer's key/value constructor.** For a mutation event it builds an
  Avro key record holding the partition-key columns. It also builds an Avro value record
  holding the operation, the timestamp and a data record with one union record per
  column.

Modules, one file each:

| file | module | models |
|---|---|---|
| `wrappers.dfy` | `Wrappers` | `Option`, and `Result` with `:-` propagation |
| `engine.dfy` | `Engine` | the engine-side types: `AbstractType`, messages, exceptions, `QueryOptions` |
| `api.dfy` | `Api` | the Stargate-side types: `ColumnType`, `Column`, `Result` kinds, exceptions, `Parameters`, `ByteBuffer` |
| `type_bridge.dfy` | `TypeBridge` | `TYPE_MAPPINGS`, `getTypeFromInternal` and `getUDTColumns` |
| `levels.dfy` | `Levels` | the one-to-one conversions, the failure map and `toInternalQueryOrIds` |
| `errors.dfy` | `ErrorTranslation` | `toExternal(CassandraException)` and `convertInternalException` |
| `options.dfy` | `QueryOptionsBuilder` | `toInternal(values, boundNames, parameters)` and `createOptions` |
| `results.dfy` | `ResultTranslation` | `toResultMetadata`, `toPreparedMetadata`, `toSchemaChangeMetadata`, `toResultInternal`, `toResult` |
| `prepared_statement.dfy` | `PreparedStatements` | `PersistenceBackedPreparedStatement` |
| `kafka_records.dfy` | `KafkaRecords` | `KeyValueConstructor` |

Calls into code outside the model are function parameters. Each one is named where it
is used. They are:

* `ColumnUtils.toInternalType(ct).getClass()` is `classOf`.
* `TYPE_MAPPINGS` is `table`.
* `PagingState.deserialize` is `decode`, and `PagingState.serialize` is `serialize`.
* `ColumnType.validate` is `validate`, and `codec().encode` is `encode`.
* The `QueryProcessor` registry of prepared statements is `registry`.
* The Avro schema provider is `keySchemaFor` and `valueSchemaFor`.
* The default port of `InetAddressAndPort.getByAddress` is `defaultPort`.

Two kinds of loop have their own form:

* Loops over a Java `HashMap` or `HashSet` visit the elements in an arbitrary order,
  written with `:|`.
* Where such an order could change the result, the method is stated by a relation
  rather than a function. Examples are coerced set members that coalesce, and map keys
  that collide once validated.

## Model

Source paths are relative to the repository root.

| member | source | states |
|---|---|---|
| TypeBridge.Mappings | persistence-cassandra-3.11/src/main/java/io/stargate/db/cassandra/impl/Conversion.java:141-155 | The table's keys are exactly the internal classes of the constants other than Tuple, List, Map, Set and UDT. Every entry maps back to a scalar constant of that class. |
| TypeBridge.BuildTypeMappings | persistence-cassandra-3.11/src/main/java/io/stargate/db/cassandra/impl/Conversion.java:141-155 | The forEach over the constants builds exactly that table. |
| TypeBridge.MappingsInvertClassOf | persistence-cassandra-3.11/src/main/java/io/stargate/db/cassandra/impl/Conversion.java:141-155 | When distinct scalar constants have distinct internal classes, looking up a constant's class gives back that constant. |
| TypeBridge.ConversionSound | persistence-cassandra-3.11/src/main/java/io/stargate/db/cassandra/impl/Conversion.java:520-557 | getTypeFromInternal succeeds iff every scalar leaf's class has a table entry. On success the result corresponds structurally to the input: Reversed is transparent, composites keep their kind with frozen = !multiCell and their components in order, and scalars are what the table says. On failure the error names a leaf class with no entry, so there is no silent default. |
| TypeBridge.ConvertEachSound | persistence-cassandra-3.11/src/main/java/io/stargate/db/cassandra/impl/Conversion.java:535-542 | A tuple's components convert iff all their leaves have entries. The result has one corresponding type per component, in order. |
| TypeBridge.UdtColumnsSound | persistence-cassandra-3.11/src/main/java/io/stargate/db/cassandra/impl/Conversion.java:559-570 | The UDT columns exist iff all field types convert. There is one Regular column per field, in declaration order, carrying the field's name and a corresponding type and nothing else. |
| TypeBridge.GetUdtColumns | persistence-cassandra-3.11/src/main/java/io/stargate/db/cassandra/impl/Conversion.java:559-570 | The indexed loop returns exactly the UDT columns of the user type's fields, or the first field's conversion error. |
| TypeBridge.CorrespondenceUnique | persistence-cassandra-3.11/src/main/java/io/stargate/db/cassandra/impl/Conversion.java:520-557 | An internal type corresponds to at most one API type. |
| TypeBridge.CorrespondenceNeedsEntries | persistence-cassandra-3.11/src/main/java/io/stargate/db/cassandra/impl/Conversion.java:553-556 | Any API type corresponding to an internal type needs table entries for all of its scalar leaves. |
| TypeBridge.EachNeedsEntries | persistence-cassandra-3.11/src/main/java/io/stargate/db/cassandra/impl/Conversion.java:535-542 | The same for a list of component types. |
| TypeBridge.FieldsNeedEntries | persistence-cassandra-3.11/src/main/java/io/stargate/db/cassandra/impl/Conversion.java:559-570 | The same for a list of UDT fields. |
| TypeBridge.ConversionExact | persistence-cassandra-3.11/src/main/java/io/stargate/db/cassandra/impl/Conversion.java:520-557 | getTypeFromInternal returns c iff c corresponds to the input, which makes the structural relation an independent reference for the function. |
| TypeBridge.ConversionIgnoresReversal | persistence-cassandra-3.11/src/main/java/io/stargate/db/cassandra/impl/Conversion.java:521-523 | Converting a type equals converting it with every Reversed wrapper removed, at any depth. |
| TypeBridge.ConvertEachIgnoresReversal | persistence-cassandra-3.11/src/main/java/io/stargate/db/cassandra/impl/Conversion.java:535-542 | The same for tuple components. |
| TypeBridge.UdtColumnsIgnoreReversal | persistence-cassandra-3.11/src/main/java/io/stargate/db/cassandra/impl/Conversion.java:559-570 | The same for UDT field types. |
| Levels.ExternalLevel | persistence-cassandra-3.11/src/main/java/io/stargate/db/cassandra/impl/Conversion.java:229-231 | An engine level becomes the API level with the same code. |
| Levels.InternalLevel | persistence-cassandra-3.11/src/main/java/io/stargate/db/cassandra/impl/Conversion.java:225-227 | An API level becomes the engine level with the same code. |
| Levels.ToInternalConsistency | persistence-cassandra-3.11/src/main/java/io/stargate/db/cassandra/impl/Conversion.java:225-227 | Null stays null; any other level keeps its code. |
| Levels.ToExternalConsistency | persistence-cassandra-3.11/src/main/java/io/stargate/db/cassandra/impl/Conversion.java:229-231 | Null stays null; any other level keeps its code. |
| Levels.ConsistencyRoundTrip | persistence-cassandra-3.11/src/main/java/io/stargate/db/cassandra/impl/Conversion.java:225-231 | The two level conversions are inverse bijections. |
| Levels.ToInternalProtocolVersion | persistence-cassandra-3.11/src/main/java/io/stargate/db/cassandra/impl/Conversion.java:233-240 | Null stays null; a version keeps its number. |
| Levels.ToExternalProtocolVersion | persistence-cassandra-3.11/src/main/java/io/stargate/db/cassandra/impl/Conversion.java:242-245 | Null stays null; a version keeps its number. |
| Levels.ProtocolVersionRoundTrip | persistence-cassandra-3.11/src/main/java/io/stargate/db/cassandra/impl/Conversion.java:233-245 | Converting a version in and back out returns it. |
| Levels.ToExternalWriteType | persistence-cassandra-3.11/src/main/java/io/stargate/db/cassandra/impl/Conversion.java:276-278 | A write type keeps its ordinal. |
| Levels.WriteTypeInjective | persistence-cassandra-3.11/src/main/java/io/stargate/db/cassandra/impl/Conversion.java:276-278 | Distinct engine write types stay distinct. |
| Levels.ToInternalBatchType | persistence-cassandra-3.11/src/main/java/io/stargate/db/cassandra/impl/Conversion.java:508-518 | Each batch type goes to the engine batch type of the same name. |
| Levels.ToInternalDigest | persistence-cassandra-3.11/src/main/java/io/stargate/db/cassandra/impl/Conversion.java:256-258 | The engine digest wraps the same bytes. |
| Levels.ToExternalDigest | persistence-cassandra-3.11/src/main/java/io/stargate/db/cassandra/impl/Conversion.java:260-262 | The API digest wraps the same bytes. |
| Levels.DigestRoundTrip | persistence-cassandra-3.11/src/main/java/io/stargate/db/cassandra/impl/Conversion.java:256-262 | The two digest conversions are inverses. |
| Levels.ToExternalAddress | persistence-cassandra-3.11/src/main/java/io/stargate/db/cassandra/impl/Conversion.java:247-250 | The external endpoint is the address at the given port. |
| Levels.ToInternalAddress | persistence-cassandra-3.11/src/main/java/io/stargate/db/cassandra/impl/Conversion.java:252-254 | The internal address is the endpoint's address, with the port dropped. |
| Levels.AddressRoundTrip | persistence-cassandra-3.11/src/main/java/io/stargate/db/cassandra/impl/Conversion.java:247-254 | Converting an address out and back in returns it. |
| Levels.ToExternalReason | persistence-cassandra-3.11/src/main/java/io/stargate/db/cassandra/impl/Conversion.java:271 | A failure reason keeps its code. |
| Levels.FailureMapEntries | persistence-cassandra-3.11/src/main/java/io/stargate/db/cassandra/impl/Conversion.java:264-274 | There is one entry per engine endpoint, at the default port, with the reason's code. |
| Levels.FailureMapLossless | persistence-cassandra-3.11/src/main/java/io/stargate/db/cassandra/impl/Conversion.java:264-274 | Mapping every external endpoint back with toInternal recovers the engine map exactly. |
| Levels.ToExternalFailureMap | persistence-cassandra-3.11/src/main/java/io/stargate/db/cassandra/impl/Conversion.java:264-274 | The loop over the entries, in any order, builds exactly that map. |
| Levels.ToInternalQueryOrIds | persistence-cassandra-3.11/src/main/java/io/stargate/db/cassandra/impl/Conversion.java:496-506 | The list keeps its length and order. Each digest becomes the engine digest of the same bytes, and each query string is kept. |
| ErrorTranslation.ToExternalFunctionName | persistence-cassandra-3.11/src/main/java/io/stargate/db/cassandra/impl/Conversion.java:280-282 | Keyspace and name are copied. |
| ErrorTranslation.ToExternal | persistence-cassandra-3.11/src/main/java/io/stargate/db/cassandra/impl/Conversion.java:284-381 | The input comes back unchanged iff its code has no case. A translated exception reports the same native-protocol error code. It carries the original as its only suppressed exception, except for UNAUTHORIZED, which carries none. |
| ErrorTranslation.DiagnosticsCopied | persistence-cassandra-3.11/src/main/java/io/stargate/db/cassandra/impl/Conversion.java:290-352 | A translated exception's consistency, replica counts, data-present flag, write type and endpoint failures are the converted copies of the engine exception's. |
| ErrorTranslation.FunctionFailureCopied | persistence-cassandra-3.11/src/main/java/io/stargate/db/cassandra/impl/Conversion.java:336-341 | A function failure becomes a function-execution exception with the function's keyspace and name, its argument types and its detail. |
| ErrorTranslation.UnpreparedCopied | persistence-cassandra-3.11/src/main/java/io/stargate/db/cassandra/impl/Conversion.java:370-373 | An unprepared error becomes a prepared-query-not-found exception whose digest has the same bytes and converts back to the engine digest. |
| ErrorTranslation.MessageAndCauseCopied | persistence-cassandra-3.11/src/main/java/io/stargate/db/cassandra/impl/Conversion.java:286-361 | Message and cause are copied wherever the external class takes them. Every code whose external class takes a message or a cause gets the engine exception's own, a null cause included. A truncate error is built from its cause iff that cause is non-null. |
| ErrorTranslation.AlreadyExistsForm | persistence-cassandra-3.11/src/main/java/io/stargate/db/cassandra/impl/Conversion.java:362-369 | The keyspace-only form is used iff the table name is null or empty; otherwise both names are given. |
| ErrorTranslation.ConvertInternalException | persistence-cassandra-3.11/src/main/java/io/stargate/db/cassandra/impl/Conversion.java:484-494 | Cassandra exceptions go through toExternal. The transport ProtocolException becomes the external one with the same message and forced version. Anything else is returned as is. |
| QueryOptionsBuilder.CreateOptions | persistence-cassandra-3.11/src/main/java/io/stargate/db/cassandra/impl/Conversion.java:191-223 | Every getter of the options returns the argument given for it. The bound names are present iff names were given, so the names wrapper adds names and replaces none of the positional data. |
| QueryOptionsBuilder.DeserializePagingState | persistence-cassandra-3.11/src/main/java/io/stargate/db/cassandra/impl/Conversion.java:172-177 | Decoding reads the buffer's remaining bytes and consumes them. |
| QueryOptionsBuilder.ToInternal | persistence-cassandra-3.11/src/main/java/io/stargate/db/cassandra/impl/Conversion.java:168-189 | The caller's paging-state buffer is unchanged, because decoding reads a duplicate. The page size defaults to -1, the serial consistency to SERIAL and the timestamp to Long.MIN_VALUE. The other parameters are carried over converted. |
| Api.ByteBuffer.Duplicate | persistence-cassandra-3.11/src/main/java/io/stargate/db/cassandra/impl/Conversion.java:177 | The duplicate is a fresh buffer with the same contents and position. |
| ResultTranslation.ColumnsSound | persistence-cassandra-3.11/src/main/java/io/stargate/db/cassandra/impl/Conversion.java:386-396 | The columns exist iff every specification's type converts. There is one column per specification, in order, carrying its keyspace, table, name and a corresponding type. |
| ResultTranslation.ToColumns | persistence-cassandra-3.11/src/main/java/io/stargate/db/cassandra/impl/Conversion.java:424-432 | The forEach appending a column per specification builds exactly those columns. |
| ResultTranslation.ResultMetadataOf | persistence-cassandra-3.11/src/main/java/io/stargate/db/cassandra/impl/Conversion.java:383-419 | The columns are those of the names; null names give no columns. HAS_MORE_PAGES is the only possible flag and is set iff a paging state exists. The token is present iff a paging state exists and is then that state serialised. There is no metadata id. Type errors propagate. |
| ResultTranslation.ToResultMetadata | persistence-cassandra-3.11/src/main/java/io/stargate/db/cassandra/impl/Conversion.java:383-419 | The imperative version equals ResultMetadataOf. |
| ResultTranslation.PreparedMetadataOf | persistence-cassandra-3.11/src/main/java/io/stargate/db/cassandra/impl/Conversion.java:421-439 | The columns are those of the bound names, and the indexes are exactly those given. GLOBAL_TABLES_SPEC is the only possible flag and is set iff the names are non-empty and all in one table. |
| ResultTranslation.ToPreparedMetadata | persistence-cassandra-3.11/src/main/java/io/stargate/db/cassandra/impl/Conversion.java:421-439 | The imperative version equals PreparedMetadataOf. |
| ResultTranslation.ToSchemaChangeMetadata | persistence-cassandra-3.11/src/main/java/io/stargate/db/cassandra/impl/Conversion.java:441-450 | Change and target appear by name; keyspace, name and argument types are copied. |
| ResultTranslation.SchemaChangeLossless | persistence-cassandra-3.11/src/main/java/io/stargate/db/cassandra/impl/Conversion.java:441-450 | Distinct schema-change events give distinct metadata. |
| ResultTranslation.ToResultInternal | persistence-cassandra-3.11/src/main/java/io/stargate/db/cassandra/impl/Conversion.java:457-482 | A translated result has the message's kind. Void, SetKeyspace and SchemaChange always translate. Rows keep their rows and translate their metadata with the given version. A Prepared result has the same digest, no metadata id, result metadata translated with no version, and the registry's partition-key indexes. An unknown kind is a ProtocolException naming it. |
| ResultTranslation.ToResult | persistence-cassandra-3.11/src/main/java/io/stargate/db/cassandra/impl/Conversion.java:452-455 | The result is toResultInternal's, with the message's tracing id set on it. |
| PreparedStatements.ToDriverVersion | persistence-api/src/main/java/io/stargate/db/datastore/PersistenceBackedPreparedStatement.java:46-62 | V1 and V2 are rejected with a ProtocolException naming the version; V3, V4 and V5 map to the driver version of the same number. |
| PreparedStatements.DriverVersionOneToOne | persistence-api/src/main/java/io/stargate/db/datastore/PersistenceBackedPreparedStatement.java:46-62 | Distinct supported versions give distinct driver versions. |
| PreparedStatements.NewPreparedStatement | persistence-api/src/main/java/io/stargate/db/datastore/PersistenceBackedPreparedStatement.java:34-44 | Construction fails iff the protocol version is unsupported; otherwise the fields are the arguments plus the driver version. |
| PreparedStatements.ValidatedListSound | persistence-api/src/main/java/io/stargate/db/datastore/PersistenceBackedPreparedStatement.java:149-155 | A list validates iff each element does. The result has the same length and each element's validated value in its place. Otherwise the error is the first failing element's. |
| PreparedStatements.ListFailureExtends | persistence-api/src/main/java/io/stargate/db/datastore/PersistenceBackedPreparedStatement.java:152-154 | Once an element fails, the whole list fails with its error. |
| PreparedStatements.ValidateList | persistence-api/src/main/java/io/stargate/db/datastore/PersistenceBackedPreparedStatement.java:149-155 | The loop returns the validated list or the first failure. |
| PreparedStatements.ValidateSet | persistence-api/src/main/java/io/stargate/db/datastore/PersistenceBackedPreparedStatement.java:163-169 | In any iteration order, either all members validate and the result is exactly the set of validated members, or the error is some failing member's. |
| PreparedStatements.ValidateMap | persistence-api/src/main/java/io/stargate/db/datastore/PersistenceBackedPreparedStatement.java:177-187 | In any iteration order, either every key validates (at "key of map N") and every value validates (at "value of map N for key K"), or some key or value fails. On success the result's keys are exactly the validated keys, and each entry comes from an input entry. |
| PreparedStatements.ValidateValue | persistence-api/src/main/java/io/stargate/db/datastore/PersistenceBackedPreparedStatement.java:138-196 | A list, set or map marker rejects a value that is not that collection, giving position, name and value, and otherwise validates the elements as above. Any other marker validates the value itself. A ValidationException is always reported as the WrongValue error with its location, provided type, expected type and details. |
| PreparedStatements.ValidationOutcomeAgrees | persistence-api/src/main/java/io/stargate/db/datastore/PersistenceBackedPreparedStatement.java:157-188 | Whether validation succeeds does not depend on the order of iteration. Outside sets and maps the outcome is fully determined. |
| PreparedStatements.SetMayCoalesce | persistence-api/src/main/java/io/stargate/db/datastore/PersistenceBackedPreparedStatement.java:163-169 | A validated set holds every member's validated form, and each of its elements is some member's validated form. It has no more elements than the bound set, because coerced members may coalesce. |
| PreparedStatements.SerializeBoundValues | persistence-api/src/main/java/io/stargate/db/datastore/PersistenceBackedPreparedStatement.java:109-136 | A count mismatch is rejected before anything is serialised, naming both counts. Otherwise there is one output per value. Null becomes the null buffer and UNSET the unset marker, neither validated nor encoded. Any other value is validated against its marker and encoded with the marker's type under the driver version. A failure is the error of the first value that fails. |
| PreparedStatements.ExecuteParameters | persistence-api/src/main/java/io/stargate/db/datastore/PersistenceBackedPreparedStatement.java:72-75 | The consistency is the override when one is given and the statement's own otherwise; nothing else changes. |
| Api.Parameters.WithConsistencyLevel | persistence-api/src/main/java/io/stargate/db/datastore/PersistenceBackedPreparedStatement.java:74 | It replaces the consistency level and nothing else. |
| PreparedStatements.Execute | persistence-api/src/main/java/io/stargate/db/datastore/PersistenceBackedPreparedStatement.java:64-83 | The request sent to the persistence layer has the overridden parameters and a bound statement with the statement's id, the serialised values and no names. A binding failure is reported as an InvalidRequestException. |
| PreparedStatements.CreateResultSet | persistence-api/src/main/java/io/stargate/db/datastore/PersistenceBackedPreparedStatement.java:85-103 | Prepared fails with an assertion error. SchemaChange completes after schema agreement with an empty result. Void and SetKeyspace give an empty result. Rows become a paged result set over the request, the driver version and the rows. |
| KafkaRecords.FieldNamed | producer-kafka/src/main/java/io/stargate/producer/kafka/schema/KeyValueConstructor.java:53-56 | It finds a field of that name iff one exists. The field returned has that name, and no earlier field does, following findFirst. |
| KafkaRecords.GetValueObjectOrByteBuffer | producer-kafka/src/main/java/io/stargate/producer/kafka/schema/KeyValueConstructor.java:137-151 | Null gives null. A CqlDuration, an InetAddress or any subclass of either gives the cell's bytes. Anything else gives the value object. |
| KafkaRecords.ValidateUnionTypeAndConstructRecord | producer-kafka/src/main/java/io/stargate/producer/kafka/schema/KeyValueConstructor.java:119-127 | A non-union schema is an IllegalStateException naming the column and the type. Otherwise the result is an empty record of the union's second branch. |
| KafkaRecords.UdtRecord | producer-kafka/src/main/java/io/stargate/producer/kafka/schema/KeyValueConstructor.java:108-117 | The UDT record succeeds iff the union is valid and the value is a map. It then holds exactly the map's entries, each under its key, with the raw value. |
| KafkaRecords.ConstructUdt | producer-kafka/src/main/java/io/stargate/producer/kafka/schema/KeyValueConstructor.java:108-117 | The entry loop, in any order, builds exactly that record. |
| KafkaRecords.CellRecord | producer-kafka/src/main/java/io/stargate/producer/kafka/schema/KeyValueConstructor.java:92-103 | A column missing from the data schema is an error. A failure of the union check is passed on. A built record is a record of the union's branch holding only the value field. For a UDT column that field holds the UDT record built from the schema of the branch's first field. For any other column it holds the selected value. |
| KafkaRecords.BuildCellRecord | producer-kafka/src/main/java/io/stargate/producer/kafka/schema/KeyValueConstructor.java:92-103 | The imperative version equals CellRecord. |
| KafkaRecords.CreateUnionAndAppendToData | producer-kafka/src/main/java/io/stargate/producer/kafka/schema/KeyValueConstructor.java:90-106 | The forEach builds exactly the data record with the cells appended in order. |
| KafkaRecords.AppendCellsSucceeds | producer-kafka/src/main/java/io/stargate/producer/kafka/schema/KeyValueConstructor.java:90-106 | Appending succeeds iff every cell's union record can be built. |
| KafkaRecords.AppendCellsSound | producer-kafka/src/main/java/io/stargate/producer/kafka/schema/KeyValueConstructor.java:90-106 | A successful append adds exactly the cells' column names and keeps every other field. |
| KafkaRecords.AppendCellsPlacesEach | producer-kafka/src/main/java/io/stargate/producer/kafka/schema/KeyValueConstructor.java:92-105 | With distinct columns, each cell's union record lands under its column name. |
| KafkaRecords.UdtEntriesInData | producer-kafka/src/main/java/io/stargate/producer/kafka/schema/KeyValueConstructor.java:92-117 | With distinct columns, the union record under a UDT column holds, in its value field, a record with exactly the cell's map entries, each under its key with the raw value. |
| KafkaRecords.AppendCellsConcat | producer-kafka/src/main/java/io/stargate/producer/kafka/schema/KeyValueConstructor.java:67-70 | Appending two lists of cells is appending the first and then the second. |
| KafkaRecords.FillGenericRecordWithData | producer-kafka/src/main/java/io/stargate/producer/kafka/schema/KeyValueConstructor.java:129-135 | The forEach puts each cell's selected value under its column name, in order. |
| KafkaRecords.FilledKeys | producer-kafka/src/main/java/io/stargate/producer/kafka/schema/KeyValueConstructor.java:129-135 | Filling adds exactly the cells' column names and keeps every other field. |
| KafkaRecords.FilledPlacesEach | producer-kafka/src/main/java/io/stargate/producer/kafka/schema/KeyValueConstructor.java:129-135 | With distinct columns, each column holds its cell's selected value. |
| KafkaRecords.ConstructKey | producer-kafka/src/main/java/io/stargate/producer/kafka/schema/KeyValueConstructor.java:82-88 | The key is the key schema's record, filled with the partition keys. |
| KafkaRecords.KeyHoldsPartitionKeys | producer-kafka/src/main/java/io/stargate/producer/kafka/schema/KeyValueConstructor.java:82-88 | The key record holds exactly the partition-key columns, under their names, with their selected values. |
| KafkaRecords.ConstructValue | producer-kafka/src/main/java/io/stargate/producer/kafka/schema/KeyValueConstructor.java:48-80 | The imperative version equals ValueRecord. |
| KafkaRecords.ValueRecordNoDataField | producer-kafka/src/main/java/io/stargate/producer/kafka/schema/KeyValueConstructor.java:53-63 | The value record fails with an error naming the topic exactly when the value schema is a record without the data field. |
| KafkaRecords.ValueRecordFields | producer-kafka/src/main/java/io/stargate/producer/kafka/schema/KeyValueConstructor.java:48-80 | A built value record belongs to the value schema and holds the data and timestamp fields. It holds an operation field exactly for an update (the update alias) or a delete (the delete alias). The timestamp is the event's. |
| KafkaRecords.ValueRecordData | producer-kafka/src/main/java/io/stargate/producer/kafka/schema/KeyValueConstructor.java:58-77 | The data field holds the data field's record, with the partition keys, then the clustering keys, then an update's cells appended. |

## Left out

- Reflection that reaches the engine's `QueryOptions` constructors and the `pagingState` field. `createOptions` builds the options directly; the reflective read and its logging are not modelled.
- `newQueryState` and `internalClientState`, which build engine global state.
- The storage port from `DatabaseDescriptor`, which is the `defaultPort` or `port` parameter.
- `PagingState.serialize`/`deserialize`, `ColumnType.validate`, codec encoding and MD5 wrapping. These are foreign code, modelled as uninterpreted parameters.
- `ColumnType.validate` may coerce, and the set and map results depend on its coercions. That dependence is stated but not resolved.
- Futures, `System.nanoTime`, `persistence.execute` and `waitForSchemaAgreement`. They are asynchronous or blocking.
- PreparedStatements.Execute: it stops at the request handed to the persistence layer. `CreateResultSet` is the completion applied to the persistence layer's result.
- `PersistenceBackedResultSet` paging. A rows result is only wrapped, as `PagedRows`.
- Avro internals. A record is the schema it was made for plus a map of the fields put so far. Avro's check that a put field exists in the record's schema is not modelled.
- KafkaRecords.ValueRecordFields: the data field, timestamp field and operation field are only known to be distinct. `SchemaConstants` and `OperationType` are not part of this model, so their names and aliases are the `SchemaNames` parameter.
- Exception messages are structured values. The `String.format` rendering is not modelled.
- Java's `getClass().getSimpleName()` in the wrong-collection message is carried as the value itself.
- `Column.Type`'s constants, the engine's enumerations, `Result.java`, `ResultSet.java`, `ColumnSpecification.allInSameTable` and the schema provider are not part of this model.
- `AllInSameTable` follows the engine's check: every column has the first one's keyspace and table.
- Levels.ToInternalProtocolVersion: the range check of the engine's `ProtocolVersion.decode` is not modelled. Every version converts to the one of the same number.
- Levels.ToExternalProtocolVersion: the API's `ProtocolVersion.decode(version, true)` is not part of this model. Its range check and its handling of beta versions are not modelled. It is taken to be total on V1 to V5, so every engine version converts to the API version of the same number.
- Levels.ToExternalWriteType: the two `WriteType` enumerations are taken to list the same constants in the same order, so `fromOrdinal(ordinal())` maps each to its namesake.
- `Result.VOID` is a shared singleton in the source, and `setTracingId` mutates it. The model sets the tracing id on a value, so aliasing of that singleton is not captured.
- The `org.apache.cassandra.stargate.transport.ProtocolException` thrown for an unknown result kind is `UnexpectedResultKind`.
- A prepared statement missing from the engine registry makes the source dereference null. This is `MissingPreparedStatement`.
- KafkaRecords.CellRecord, KafkaRecords.UdtRecord, KafkaRecords.ValidateUnionTypeAndConstructRecord: runtime failures of the source become named errors. A column with no field in the data schema makes `getField(columnName).schema()` dereference null; this is `MissingColumnField`. A UDT union record schema without fields makes `getFields().get(0)` fail; this is `EmptyUdtRecord`. A union with fewer than two branches makes `getTypes().get(1)` fail; this is `MissingUnionBranch`. A null or non-map UDT value makes the cast or the `entrySet()` call fail; these are `NullUdtValue` and `NotAMap`.
- KafkaRecords.ConstructValue, KafkaRecords.CreateUnionAndAppendToData: the source mutates one `GenericData.Record` in place across two or three `createUnionAndAppendToData` calls. The model passes the record as a value, so aliasing is not captured. This is harmless here, because each record is put into its parent only after it is completely filled and is not touched afterwards.
- testing/src/test/java/io/stargate/it/cql/SnappyCompressionTest.java only sets a driver option; it has no logic to model.
- `getTypeFromInternal`'s exact-class tests for tuples and UDTs are modelled by distinct constructors, since no other subclass of `TupleType` occurs.

## Notes on the source

- `toExternal(CassandraException)` adds the engine exception as a suppressed cause for BAD_CREDENTIALS just as for the other codes. Only UNAUTHORIZED omits it. The model follows the code.
- `PROTOCOL_ERROR` is the one engine code without a case, so such an exception is returned unchanged.
