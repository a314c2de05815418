/**
 * The storage engine's side of the boundary (Cassandra 3.11): its consistency levels,
 * write types, protocol versions, internal column types, result messages, query options
 * and exceptions, as plain values.
 */
module Engine {
  import opened Wrappers

  type Bytes = seq<bv8>

  /** org.apache.cassandra.db.ConsistencyLevel; `Code` is the native-protocol code. */
  datatype ConsistencyLevel =
    | ANY | ONE | TWO | THREE | QUORUM | ALL | LOCAL_QUORUM | EACH_QUORUM
    | SERIAL | LOCAL_SERIAL | LOCAL_ONE
  {
    function Code(): nat {
      match this
      case ANY => 0
      case ONE => 1
      case TWO => 2
      case THREE => 3
      case QUORUM => 4
      case ALL => 5
      case LOCAL_QUORUM => 6
      case EACH_QUORUM => 7
      case SERIAL => 8
      case LOCAL_SERIAL => 9
      case LOCAL_ONE => 10
    }
  }

  /** ConsistencyLevel.fromCode; an unknown code is a protocol error (`None`). */
  function ConsistencyFromCode(code: int): Option<ConsistencyLevel> {
    match code
    case 0 => Some(ANY)
    case 1 => Some(ONE)
    case 2 => Some(TWO)
    case 3 => Some(THREE)
    case 4 => Some(QUORUM)
    case 5 => Some(ALL)
    case 6 => Some(LOCAL_QUORUM)
    case 7 => Some(EACH_QUORUM)
    case 8 => Some(SERIAL)
    case 9 => Some(LOCAL_SERIAL)
    case 10 => Some(LOCAL_ONE)
    case _ => None
  }

  /** org.apache.cassandra.db.WriteType, in declaration order. */
  datatype WriteType = SIMPLE | BATCH | UNLOGGED_BATCH | COUNTER | BATCH_LOG | CAS | VIEW | CDC
  {
    function Ordinal(): nat {
      match this
      case SIMPLE => 0
      case BATCH => 1
      case UNLOGGED_BATCH => 2
      case COUNTER => 3
      case BATCH_LOG => 4
      case CAS => 5
      case VIEW => 6
      case CDC => 7
    }
  }

  /** org.apache.cassandra.transport.ProtocolVersion. */
  datatype ProtocolVersion = V1 | V2 | V3 | V4 | V5
  {
    function AsInt(): nat {
      match this
      case V1 => 1
      case V2 => 2
      case V3 => 3
      case V4 => 4
      case V5 => 5
    }
  }

  function ProtocolVersionFromInt(n: int): Option<ProtocolVersion> {
    match n
    case 1 => Some(V1)
    case 2 => Some(V2)
    case 3 => Some(V3)
    case 4 => Some(V4)
    case 5 => Some(V5)
    case _ => None
  }

  /** BatchStatement.Type. */
  datatype BatchKind = LOGGED | UNLOGGED | COUNTER_BATCH

  /** An MD5 digest identifying a prepared statement (org.apache.cassandra.utils.MD5Digest). */
  datatype Digest = Digest(bytes: Bytes)

  /** java.net.InetAddress, by its raw address bytes. */
  datatype InetAddress = InetAddress(address: Bytes)

  /** A RequestFailureReason, carried by its numeric code. */
  datatype FailureReason = FailureReason(code: nat)

  /** A Throwable the model does not look into (an exception's cause). */
  datatype Throwable = Throwable(className: string, message: string)

  /**
   * The engine's column types (subclasses of AbstractType). Composite kinds are explicit;
   * every other type is `OtherType`, known only by its Java class name.
   */
  datatype AbstractType =
    | ReversedType(baseType: AbstractType)
    | MapType(keysType: AbstractType, valuesType: AbstractType, multiCell: bool)
    | SetType(elementsType: AbstractType, multiCell: bool)
    | ListType(elementsType: AbstractType, multiCell: bool)
    | TupleType(allTypes: seq<AbstractType>, multiCell: bool)
    | UserType(keyspace: string, name: string, fields: seq<UserField>, multiCell: bool)
    | OtherType(typeClass: string)

  /** One declared field of a user type: `fieldName(i)` and `fieldType(i)`. */
  datatype UserField = UserField(fieldName: string, fieldType: AbstractType)

  /** ColumnSpecification: the column a result or a bind marker refers to. */
  datatype ColumnSpecification = ColumnSpecification(ksName: string, cfName: string, name: string, columnType: AbstractType)

  /** The engine's paging state; its serialised form is not part of this model. */
  datatype PagingState = PagingState(contents: Bytes)

  /** ResultSet.ResultMetadata: `names` may be null; `pagingState` is its private field. */
  datatype ResultSetMetadata = ResultSetMetadata(names: Option<seq<ColumnSpecification>>, pagingState: Option<PagingState>)

  datatype SchemaChangeKind = CREATED | UPDATED | DROPPED
  datatype SchemaChangeTarget = KEYSPACE | TABLE | TYPE | FUNCTION | AGGREGATE

  /** Event.SchemaChange. */
  datatype SchemaChangeEvent = SchemaChangeEvent(
    change: SchemaChangeKind, target: SchemaChangeTarget,
    keyspace: string, name: Option<string>, argTypes: Option<seq<string>>)

  datatype Uuid = Uuid(mostSignificant: int, leastSignificant: int)

  /** The subclasses of ResultMessage, by kind; `OtherKind` is a kind the translator has no case for. */
  datatype ResultBody =
    | VoidMessage
    | RowsMessage(rows: seq<seq<Option<Bytes>>>, metadata: ResultSetMetadata)
    | SetKeyspaceMessage(keyspace: string)
    | PreparedMessage(statementId: Digest, resultMetadata: ResultSetMetadata, boundNames: seq<ColumnSpecification>)
    | SchemaChangeMessage(change: SchemaChangeEvent)
    | OtherKind(kind: string)

  datatype ResultMessage = ResultMessage(body: ResultBody, tracingId: Option<Uuid>)

  /** A bound value as a ByteBuffer: null, the distinguished "unset" buffer, or real bytes. */
  datatype Serialized = NullValue | UnsetValue | Bytes(data: Bytes)

  /** QueryOptions.SpecificOptions. */
  datatype SpecificOptions = SpecificOptions(
    pageSize: int, state: Option<PagingState>, serialConsistency: Option<ConsistencyLevel>, timestamp: int)

  /** QueryOptions: the positional DefaultQueryOptions, possibly wrapped with bound names. */
  datatype QueryOptions =
    | DefaultQueryOptions(
        consistency: Option<ConsistencyLevel>, values: seq<Serialized>, skipMetadata: bool,
        options: SpecificOptions, protocolVersion: Option<ProtocolVersion>)
    | OptionsWithNames(wrapped: QueryOptions, names: seq<string>)
  {
    /** The getters of QueryOptions; OptionsWithNames delegates every one of them to `wrapped`. */
    function Consistency(): Option<ConsistencyLevel> {
      match this
      case DefaultQueryOptions(cl, _, _, _, _) => cl
      case OptionsWithNames(w, _) => w.Consistency()
    }

    function Values(): seq<Serialized> {
      match this
      case DefaultQueryOptions(_, vs, _, _, _) => vs
      case OptionsWithNames(w, _) => w.Values()
    }

    function SkipMetadata(): bool {
      match this
      case DefaultQueryOptions(_, _, skip, _, _) => skip
      case OptionsWithNames(w, _) => w.SkipMetadata()
    }

    function Specific(): SpecificOptions {
      match this
      case DefaultQueryOptions(_, _, _, specific, _) => specific
      case OptionsWithNames(w, _) => w.Specific()
    }

    function Version(): Option<ProtocolVersion> {
      match this
      case DefaultQueryOptions(_, _, _, _, v) => v
      case OptionsWithNames(w, _) => w.Version()
    }

    /** The bound names, present only on the by-name wrapper. */
    function BoundNames(): Option<seq<string>> {
      match this
      case DefaultQueryOptions(_, _, _, _, _) => None
      case OptionsWithNames(_, names) => Some(names)
    }
  }

  /** ExceptionCode of the engine, with its native-protocol error code. */
  datatype ExceptionCode =
    | SERVER_ERROR | PROTOCOL_ERROR | BAD_CREDENTIALS | UNAVAILABLE | OVERLOADED
    | IS_BOOTSTRAPPING | TRUNCATE_ERROR | WRITE_TIMEOUT | READ_TIMEOUT | READ_FAILURE
    | FUNCTION_FAILURE | WRITE_FAILURE | SYNTAX_ERROR | UNAUTHORIZED | INVALID
    | CONFIG_ERROR | ALREADY_EXISTS | UNPREPARED
  {
    function Value(): nat {
      match this
      case SERVER_ERROR => 0x0000
      case PROTOCOL_ERROR => 0x000A
      case BAD_CREDENTIALS => 0x0100
      case UNAVAILABLE => 0x1000
      case OVERLOADED => 0x1001
      case IS_BOOTSTRAPPING => 0x1002
      case TRUNCATE_ERROR => 0x1003
      case WRITE_TIMEOUT => 0x1100
      case READ_TIMEOUT => 0x1200
      case READ_FAILURE => 0x1300
      case FUNCTION_FAILURE => 0x1400
      case WRITE_FAILURE => 0x1500
      case SYNTAX_ERROR => 0x2000
      case UNAUTHORIZED => 0x2100
      case INVALID => 0x2200
      case CONFIG_ERROR => 0x2300
      case ALREADY_EXISTS => 0x2400
      case UNPREPARED => 0x2500
    }
  }

  datatype FunctionName = FunctionName(keyspace: string, name: string)

  /**
   * The subclass of a CassandraException, with the diagnostic fields that subclass carries.
   * Each subclass has one fixed code (`Code`), so the casts of the translator always succeed.
   */
  datatype ExceptionKind =
    | ServerError | ProtocolError | BadCredentials | Overloaded | IsBootstrapping
    | TruncateError | SyntaxError | Unauthorized | Invalid | ConfigError
    | Unavailable(consistency: ConsistencyLevel, required: int, alive: int)
    | WriteTimeout(writeType: WriteType, consistency: ConsistencyLevel, received: int, blockFor: int)
    | ReadTimeout(consistency: ConsistencyLevel, received: int, blockFor: int, dataPresent: bool)
    | ReadFailure(consistency: ConsistencyLevel, received: int, blockFor: int, dataPresent: bool,
                  failureReasonByEndpoint: map<InetAddress, FailureReason>)
    | FunctionFailure(functionName: FunctionName, argTypes: seq<string>, detail: string)
    | WriteFailure(consistency: ConsistencyLevel, received: int, blockFor: int, writeType: WriteType,
                   failureReasonByEndpoint: map<InetAddress, FailureReason>)
    | AlreadyExists(ksName: string, cfName: Option<string>)
    | Unprepared(id: Digest)

  datatype CassandraException = CassandraException(message: string, cause: Option<Throwable>, kind: ExceptionKind)
  {
    function Code(): ExceptionCode {
      match kind
      case ServerError => SERVER_ERROR
      case ProtocolError => PROTOCOL_ERROR
      case BadCredentials => BAD_CREDENTIALS
      case Overloaded => OVERLOADED
      case IsBootstrapping => IS_BOOTSTRAPPING
      case TruncateError => TRUNCATE_ERROR
      case SyntaxError => SYNTAX_ERROR
      case Unauthorized => UNAUTHORIZED
      case Invalid => INVALID
      case ConfigError => CONFIG_ERROR
      case Unavailable(_, _, _) => UNAVAILABLE
      case WriteTimeout(_, _, _, _) => WRITE_TIMEOUT
      case ReadTimeout(_, _, _, _) => READ_TIMEOUT
      case ReadFailure(_, _, _, _, _) => READ_FAILURE
      case FunctionFailure(_, _, _) => FUNCTION_FAILURE
      case WriteFailure(_, _, _, _, _) => WRITE_FAILURE
      case AlreadyExists(_, _) => ALREADY_EXISTS
      case Unprepared(_) => UNPREPARED
    }
  }

  /** A Throwable handed to convertInternalException. */
  datatype EngineThrowable =
    | Cassandra(exception: CassandraException)
    | TransportProtocolException(message: string, forcedProtocolVersion: Option<ProtocolVersion>)
    | OtherThrowable(throwable: Throwable)
}
