/**
 * The persistence API's side of the boundary (Stargate's own copies of the protocol
 * enumerations, its column and result model, its exception hierarchy and its parameters).
 */
module Api {
  import opened Wrappers
  import Engine

  type Bytes = seq<bv8>

  /** org.apache.cassandra.stargate.db.ConsistencyLevel, with its native-protocol code. */
  datatype ConsistencyLevel =
    | ANY | ONE | TWO | THREE | QUORUM | ALL | LOCAL_QUORUM | EACH_QUORUM
    | SERIAL | LOCAL_SERIAL | LOCAL_ONE
  {
    function Code(): nat {
      match this
      case ANY => 0
      case ONE => 1
      case TWO => 2
      case THREE => 3
      case QUORUM => 4
      case ALL => 5
      case LOCAL_QUORUM => 6
      case EACH_QUORUM => 7
      case SERIAL => 8
      case LOCAL_SERIAL => 9
      case LOCAL_ONE => 10
    }
  }

  function ConsistencyFromCode(code: int): Option<ConsistencyLevel> {
    match code
    case 0 => Some(ANY)
    case 1 => Some(ONE)
    case 2 => Some(TWO)
    case 3 => Some(THREE)
    case 4 => Some(QUORUM)
    case 5 => Some(ALL)
    case 6 => Some(LOCAL_QUORUM)
    case 7 => Some(EACH_QUORUM)
    case 8 => Some(SERIAL)
    case 9 => Some(LOCAL_SERIAL)
    case 10 => Some(LOCAL_ONE)
    case _ => None
  }

  /** org.apache.cassandra.stargate.db.WriteType, in declaration order. */
  datatype WriteType = SIMPLE | BATCH | UNLOGGED_BATCH | COUNTER | BATCH_LOG | CAS | VIEW | CDC
  {
    function Ordinal(): nat {
      match this
      case SIMPLE => 0
      case BATCH => 1
      case UNLOGGED_BATCH => 2
      case COUNTER => 3
      case BATCH_LOG => 4
      case CAS => 5
      case VIEW => 6
      case CDC => 7
    }
  }

  /** WriteType.fromOrdinal; an ordinal past the last constant has no write type. */
  function WriteTypeFromOrdinal(n: int): Option<WriteType> {
    match n
    case 0 => Some(SIMPLE)
    case 1 => Some(BATCH)
    case 2 => Some(UNLOGGED_BATCH)
    case 3 => Some(COUNTER)
    case 4 => Some(BATCH_LOG)
    case 5 => Some(CAS)
    case 6 => Some(VIEW)
    case 7 => Some(CDC)
    case _ => None
  }

  /** org.apache.cassandra.stargate.transport.ProtocolVersion. */
  datatype ProtocolVersion = V1 | V2 | V3 | V4 | V5
  {
    function AsInt(): nat {
      match this
      case V1 => 1
      case V2 => 2
      case V3 => 3
      case V4 => 4
      case V5 => 5
    }
  }

  function ProtocolVersionFromInt(n: int): Option<ProtocolVersion> {
    match n
    case 1 => Some(V1)
    case 2 => Some(V2)
    case 3 => Some(V3)
    case 4 => Some(V4)
    case 5 => Some(V5)
    case _ => None
  }

  /** io.stargate.db.BatchType. */
  datatype BatchType = LOGGED | UNLOGGED | COUNTER_BATCH

  /** org.apache.cassandra.stargate.utils.MD5Digest. */
  datatype Digest = Digest(bytes: Bytes)

  /** InetAddressAndPort: an address and the port it is reached on. */
  datatype InetAddressAndPort = InetAddressAndPort(address: Engine.InetAddress, port: int)

  /** RequestFailureReason, carried by its numeric code. */
  datatype FailureReason = FailureReason(code: nat)

  /** The constants of Column.Type: five composite kinds and the scalar ones, by name. */
  datatype TypeConstant = Tuple | List | Map | Set | UDT | Scalar(name: string)

  /** Column.Kind. */
  datatype Kind = PartitionKey | Clustering | Regular | Static

  /** Column.ColumnType: a scalar Column.Type constant or a composite with its `frozen` flag. */
  datatype ColumnType =
    | Primitive(name: string)
    | MapOf(keyType: ColumnType, valueType: ColumnType, frozen: bool)
    | SetOf(elementType: ColumnType, frozen: bool)
    | ListOf(elementType: ColumnType, frozen: bool)
    | TupleOf(elementTypes: seq<ColumnType>, frozen: bool)
    | UserDefined(keyspace: string, name: string, columns: seq<Column>, frozen: bool)

  /** An ImmutableColumn; unset builder attributes are `None`. */
  datatype Column = Column(
    keyspace: Option<string>, table: Option<string>, name: string,
    columnType: ColumnType, kind: Option<Kind>)

  /** Result.Flag (the two this layer sets). */
  datatype Flag = GLOBAL_TABLES_SPEC | HAS_MORE_PAGES

  datatype ResultMetadata = ResultMetadata(
    flags: set<Flag>, columns: seq<Column>, resultMetadataId: Option<Digest>, pagingState: Option<Bytes>)

  datatype PreparedMetadata = PreparedMetadata(flags: set<Flag>, columns: seq<Column>, partitionKeyBindIndexes: Option<seq<int>>)

  datatype SchemaChangeMetadata = SchemaChangeMetadata(
    change: string, target: string, keyspace: string, name: Option<string>, argTypes: Option<seq<string>>)

  /** The kinds of io.stargate.db.Result. */
  datatype ResultBody =
    | Void
    | Rows(rows: seq<seq<Option<Bytes>>>, metadata: ResultMetadata)
    | SetKeyspace(keyspace: string)
    | SchemaChange(schemaChange: SchemaChangeMetadata)
    | Prepared(statementId: Digest, resultMetadataId: Option<Digest>,
               resultMetadata: ResultMetadata, preparedMetadata: PreparedMetadata)

  /** io.stargate.db.Result: its kind-specific part and the tracing id set on it. */
  datatype QueryResult = QueryResult(body: ResultBody, tracingId: Option<Engine.Uuid>)

  /** org.apache.cassandra.stargate.exceptions.ExceptionCode, with its native-protocol error code. */
  datatype ExceptionCode =
    | SERVER_ERROR | PROTOCOL_ERROR | BAD_CREDENTIALS | UNAVAILABLE | OVERLOADED
    | IS_BOOTSTRAPPING | TRUNCATE_ERROR | WRITE_TIMEOUT | READ_TIMEOUT | READ_FAILURE
    | FUNCTION_FAILURE | WRITE_FAILURE | SYNTAX_ERROR | UNAUTHORIZED | INVALID
    | CONFIG_ERROR | ALREADY_EXISTS | UNPREPARED
  {
    function Value(): nat {
      match this
      case SERVER_ERROR => 0x0000
      case PROTOCOL_ERROR => 0x000A
      case BAD_CREDENTIALS => 0x0100
      case UNAVAILABLE => 0x1000
      case OVERLOADED => 0x1001
      case IS_BOOTSTRAPPING => 0x1002
      case TRUNCATE_ERROR => 0x1003
      case WRITE_TIMEOUT => 0x1100
      case READ_TIMEOUT => 0x1200
      case READ_FAILURE => 0x1300
      case FUNCTION_FAILURE => 0x1400
      case WRITE_FAILURE => 0x1500
      case SYNTAX_ERROR => 0x2000
      case UNAUTHORIZED => 0x2100
      case INVALID => 0x2200
      case CONFIG_ERROR => 0x2300
      case ALREADY_EXISTS => 0x2400
      case UNPREPARED => 0x2500
    }
  }

  datatype FunctionName = FunctionName(keyspace: string, name: string)

  /** The external exception classes, each with the constructor arguments it was built from. */
  datatype ExternalKind =
    | ServerError(message: string)
    | AuthenticationException(message: string, cause: Option<Engine.Throwable>)
    | UnavailableException(message: string, consistency: ConsistencyLevel, required: int, alive: int)
    | OverloadedException(message: string)
    | IsBootstrappingException
    | TruncateWithMessage(message: string)
    | TruncateWithCause(truncateCause: Engine.Throwable)
    | WriteTimeoutException(writeType: WriteType, consistency: ConsistencyLevel, received: int, blockFor: int, message: string)
    | ReadTimeoutException(consistency: ConsistencyLevel, received: int, blockFor: int, dataPresent: bool)
    | ReadFailureException(consistency: ConsistencyLevel, received: int, blockFor: int, dataPresent: bool,
                           failureReasonByEndpoint: map<InetAddressAndPort, FailureReason>)
    | FunctionExecutionException(functionName: FunctionName, argTypes: seq<string>, detail: string)
    | WriteFailureException(consistency: ConsistencyLevel, received: int, blockFor: int, writeType: WriteType,
                            failureReasonByEndpoint: map<InetAddressAndPort, FailureReason>)
    | SyntaxException(message: string)
    | UnauthorizedException(message: string, cause: Option<Engine.Throwable>)
    | InvalidRequestException(message: string)
    | ConfigurationException(message: string, cause: Option<Engine.Throwable>)
    | AlreadyExistsKeyspace(ksName: string)
    | AlreadyExistsTable(ksName: string, cfName: string)
    | PreparedQueryNotFoundException(id: Digest)
  {
    /** The error code each external exception class reports. */
    function Code(): ExceptionCode {
      match this
      case ServerError(_) => SERVER_ERROR
      case AuthenticationException(_, _) => BAD_CREDENTIALS
      case UnavailableException(_, _, _, _) => UNAVAILABLE
      case OverloadedException(_) => OVERLOADED
      case IsBootstrappingException => IS_BOOTSTRAPPING
      case TruncateWithMessage(_) => TRUNCATE_ERROR
      case TruncateWithCause(_) => TRUNCATE_ERROR
      case WriteTimeoutException(_, _, _, _, _) => WRITE_TIMEOUT
      case ReadTimeoutException(_, _, _, _) => READ_TIMEOUT
      case ReadFailureException(_, _, _, _, _) => READ_FAILURE
      case FunctionExecutionException(_, _, _) => FUNCTION_FAILURE
      case WriteFailureException(_, _, _, _, _) => WRITE_FAILURE
      case SyntaxException(_) => SYNTAX_ERROR
      case UnauthorizedException(_, _) => UNAUTHORIZED
      case InvalidRequestException(_) => INVALID
      case ConfigurationException(_, _) => CONFIG_ERROR
      case AlreadyExistsKeyspace(_) => ALREADY_EXISTS
      case AlreadyExistsTable(_, _) => ALREADY_EXISTS
      case PreparedQueryNotFoundException(_) => UNPREPARED
    }
  }

  /** An external exception together with the throwables attached to it by addSuppressed. */
  datatype ExternalException = ExternalException(kind: ExternalKind, suppressed: seq<Engine.CassandraException>)

  /**
   * A caller-owned ByteBuffer: fixed contents and a read position. Reading from it, as
   * PagingState.deserialize does, moves the position.
   */
  class ByteBuffer {
    const contents: Bytes
    var position: nat

    ghost predicate Valid() reads this { position <= |contents| }

    /** The bytes a reader would consume next. */
    function Remaining(): Bytes
      reads this
      requires Valid()
    {
      contents[position..]
    }

    constructor (contents: Bytes)
      ensures this.contents == contents && position == 0 && Valid()
    {
      this.contents := contents;
      position := 0;
    }

    /** ByteBuffer.duplicate: a new buffer over the same contents with its own position. */
    method Duplicate() returns (d: ByteBuffer)
      requires Valid()
      ensures fresh(d) && d.Valid()
      ensures d.contents == contents && d.position == position
    {
      d := new ByteBuffer(contents);
      d.position := position;
    }
  }

  /** io.stargate.db.Parameters: the per-request query parameters. */
  datatype Parameters = Parameters(
    consistencyLevel: ConsistencyLevel,
    serialConsistencyLevel: Option<ConsistencyLevel>,
    pageSize: Option<int>,
    pagingState: Option<ByteBuffer>,
    defaultTimestamp: Option<int>,
    protocolVersion: ProtocolVersion,
    skipMetadataInResult: bool)
  {
    /** Parameters.withConsistencyLevel: the same parameters with another consistency. */
    function WithConsistencyLevel(cl: ConsistencyLevel): (p: Parameters)
      ensures p.consistencyLevel == cl
      ensures p.(consistencyLevel := consistencyLevel) == this
    {
      this.(consistencyLevel := cl)
    }
  }

  /** io.stargate.db.BoundStatement: a prepared statement id with its serialised values. */
  datatype BoundStatement = BoundStatement(id: Digest, values: seq<Engine.Serialized>, boundNames: Option<seq<string>>)
}
