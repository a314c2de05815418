/**
 * The error translator of Conversion.java: toExternal(CassandraException), a switch over the
 * engine's failure code, and convertInternalException, its entry point for any Throwable.
 */
module ErrorTranslation {
  import opened Wrappers
  import Engine
  import Api
  import Levels

  /** What toExternal returns: a new external exception, or the engine exception itself. */
  datatype Rethrown = Translated(exception: Api.ExternalException) | Unchanged(original: Engine.CassandraException)

  /** The codes the switch has a case for. */
  const TranslatedCodes: set<Engine.ExceptionCode> := {
    Engine.SERVER_ERROR, Engine.BAD_CREDENTIALS, Engine.UNAVAILABLE, Engine.OVERLOADED,
    Engine.IS_BOOTSTRAPPING, Engine.TRUNCATE_ERROR, Engine.WRITE_TIMEOUT, Engine.READ_TIMEOUT,
    Engine.READ_FAILURE, Engine.FUNCTION_FAILURE, Engine.WRITE_FAILURE, Engine.SYNTAX_ERROR,
    Engine.UNAUTHORIZED, Engine.INVALID, Engine.CONFIG_ERROR, Engine.ALREADY_EXISTS, Engine.UNPREPARED
  }

  /** A freshly constructed external exception after addSuppressed(suppressed). */
  function WithSuppressed(kind: Api.ExternalKind, suppressed: Engine.CassandraException): Api.ExternalException {
    Api.ExternalException(kind, [suppressed])
  }

  /** toExternal(FunctionName). */
  function ToExternalFunctionName(f: Engine.FunctionName): (r: Api.FunctionName)
    ensures r.keyspace == f.keyspace && r.name == f.name
  {
    Api.FunctionName(f.keyspace, f.name)
  }

  /**
   * toExternal(CassandraException). A code with a case yields a new external exception that
   * reports the same native-protocol error code; it carries the engine exception as its one
   * suppressed throwable, except for UNAUTHORIZED, which carries none. A code without a case
   * returns the engine exception unchanged. `defaultPort` is the port
   * InetAddressAndPort.getByAddress gives the endpoints of a failure map.
   */
  function ToExternal(e: Engine.CassandraException, defaultPort: int): (r: Rethrown)
    ensures r.Unchanged? <==> e.Code() !in TranslatedCodes
    ensures r.Unchanged? ==> r.original == e
    ensures r.Translated? ==> r.exception.kind.Code().Value() == e.Code().Value()
    ensures r.Translated? && e.Code() == Engine.UNAUTHORIZED ==> r.exception.suppressed == []
    ensures r.Translated? && e.Code() != Engine.UNAUTHORIZED ==> r.exception.suppressed == [e]
  {
    match e.kind
    case ServerError => Translated(WithSuppressed(Api.ServerError(e.message), e))
    case BadCredentials => Translated(WithSuppressed(Api.AuthenticationException(e.message, e.cause), e))
    case Unavailable(cl, required, alive) =>
      Translated(WithSuppressed(Api.UnavailableException(e.message, Levels.ExternalLevel(cl), required, alive), e))
    case Overloaded => Translated(WithSuppressed(Api.OverloadedException(e.message), e))
    case IsBootstrapping => Translated(WithSuppressed(Api.IsBootstrappingException, e))
    case TruncateError =>
      Translated(WithSuppressed(
        if e.cause.None? then Api.TruncateWithMessage(e.message) else Api.TruncateWithCause(e.cause.value), e))
    case WriteTimeout(wt, cl, received, blockFor) =>
      Translated(WithSuppressed(
        Api.WriteTimeoutException(Levels.ToExternalWriteType(wt), Levels.ExternalLevel(cl), received, blockFor, e.message), e))
    case ReadTimeout(cl, received, blockFor, dataPresent) =>
      Translated(WithSuppressed(
        Api.ReadTimeoutException(Levels.ExternalLevel(cl), received, blockFor, dataPresent), e))
    case ReadFailure(cl, received, blockFor, dataPresent, failures) =>
      Translated(WithSuppressed(
        Api.ReadFailureException(Levels.ExternalLevel(cl), received, blockFor, dataPresent,
                                 Levels.FailureMap(failures, defaultPort)), e))
    case FunctionFailure(name, argTypes, detail) =>
      Translated(WithSuppressed(Api.FunctionExecutionException(ToExternalFunctionName(name), argTypes, detail), e))
    case WriteFailure(cl, received, blockFor, wt, failures) =>
      Translated(WithSuppressed(
        Api.WriteFailureException(Levels.ExternalLevel(cl), received, blockFor, Levels.ToExternalWriteType(wt),
                                  Levels.FailureMap(failures, defaultPort)), e))
    case SyntaxError => Translated(WithSuppressed(Api.SyntaxException(e.message), e))
    case Unauthorized =>
      // no suppressed exception, so that nothing of the engine's exception leaks
      Translated(Api.ExternalException(Api.UnauthorizedException(e.message, e.cause), []))
    case Invalid => Translated(WithSuppressed(Api.InvalidRequestException(e.message), e))
    case ConfigError => Translated(WithSuppressed(Api.ConfigurationException(e.message, e.cause), e))
    case AlreadyExists(ks, cf) =>
      Translated(WithSuppressed(
        if cf.None? || cf.value == "" then Api.AlreadyExistsKeyspace(ks) else Api.AlreadyExistsTable(ks, cf.value), e))
    case Unprepared(id) => Translated(WithSuppressed(Api.PreparedQueryNotFoundException(Levels.ToExternalDigest(id)), e))
    case ProtocolError => Unchanged(e)
  }

  /** The diagnostic payload of an exception, whichever side it is on. */
  datatype Diagnostics<CL, WT, FM> = Diagnostics(
    consistency: Option<CL>, counts: Option<(int, int)>, dataPresent: Option<bool>,
    writeType: Option<WT>, failures: Option<FM>)

  type EngineDiagnostics = Diagnostics<Engine.ConsistencyLevel, Engine.WriteType, map<Engine.InetAddress, Engine.FailureReason>>
  type ApiDiagnostics = Diagnostics<Api.ConsistencyLevel, Api.WriteType, map<Api.InetAddressAndPort, Api.FailureReason>>

  /** The replica figures of an engine exception: (required, alive) or (received, blockFor). */
  function EngineDiagnosticsOf(k: Engine.ExceptionKind): EngineDiagnostics {
    match k
    case Unavailable(cl, required, alive) => Diagnostics(Some(cl), Some((required, alive)), None, None, None)
    case WriteTimeout(wt, cl, rc, bf) => Diagnostics(Some(cl), Some((rc, bf)), None, Some(wt), None)
    case ReadTimeout(cl, rc, bf, dp) => Diagnostics(Some(cl), Some((rc, bf)), Some(dp), None, None)
    case ReadFailure(cl, rc, bf, dp, fm) => Diagnostics(Some(cl), Some((rc, bf)), Some(dp), None, Some(fm))
    case WriteFailure(cl, rc, bf, wt, fm) => Diagnostics(Some(cl), Some((rc, bf)), None, Some(wt), Some(fm))
    case _ => Diagnostics(None, None, None, None, None)
  }

  function ApiDiagnosticsOf(k: Api.ExternalKind): ApiDiagnostics {
    match k
    case UnavailableException(_, cl, required, alive) => Diagnostics(Some(cl), Some((required, alive)), None, None, None)
    case WriteTimeoutException(wt, cl, rc, bf, _) => Diagnostics(Some(cl), Some((rc, bf)), None, Some(wt), None)
    case ReadTimeoutException(cl, rc, bf, dp) => Diagnostics(Some(cl), Some((rc, bf)), Some(dp), None, None)
    case ReadFailureException(cl, rc, bf, dp, fm) => Diagnostics(Some(cl), Some((rc, bf)), Some(dp), None, Some(fm))
    case WriteFailureException(cl, rc, bf, wt, fm) => Diagnostics(Some(cl), Some((rc, bf)), None, Some(wt), Some(fm))
    case _ => Diagnostics(None, None, None, None, None)
  }

  /** Engine diagnostics seen through the level, write-type and failure-map conversions. */
  function TranslateDiagnostics(d: EngineDiagnostics, defaultPort: int): ApiDiagnostics {
    Diagnostics(
      Levels.ToExternalConsistency(d.consistency), d.counts, d.dataPresent,
      if d.writeType.Some? then Some(Levels.ToExternalWriteType(d.writeType.value)) else None,
      if d.failures.Some? then Some(Levels.FailureMap(d.failures.value, defaultPort)) else None)
  }

  /**
   * The replica diagnostics are copied: the external exception's consistency, replica counts,
   * data-present flag, write type and per-endpoint failures are those of the engine exception.
   * The function-failure and unprepared payloads are stated by FunctionFailureCopied and
   * UnpreparedCopied.
   */
  lemma DiagnosticsCopied(e: Engine.CassandraException, defaultPort: int)
    requires ToExternal(e, defaultPort).Translated?
    ensures ApiDiagnosticsOf(ToExternal(e, defaultPort).exception.kind)
         == TranslateDiagnostics(EngineDiagnosticsOf(e.kind), defaultPort)
  {
  }

  /** A function failure keeps the function's keyspace and name, its argument types and the detail. */
  lemma FunctionFailureCopied(e: Engine.CassandraException, defaultPort: int)
    requires e.kind.FunctionFailure?
    ensures var k := ToExternal(e, defaultPort).exception.kind;
            k.FunctionExecutionException? &&
            k.functionName.keyspace == e.kind.functionName.keyspace &&
            k.functionName.name == e.kind.functionName.name &&
            k.argTypes == e.kind.argTypes && k.detail == e.kind.detail
  {
  }

  /** An unprepared error keeps the digest: the same bytes, converting back to the engine digest. */
  lemma UnpreparedCopied(e: Engine.CassandraException, defaultPort: int)
    requires e.kind.Unprepared?
    ensures var k := ToExternal(e, defaultPort).exception.kind;
            k.PreparedQueryNotFoundException? && k.id.bytes == e.kind.id.bytes &&
            Levels.ToInternalDigest(k.id) == e.kind.id
  {
    Levels.DigestRoundTrip(ToExternal(e, defaultPort).exception.kind.id, e.kind.id);
  }

  /** The message and cause an external exception was built from, where it takes them. */
  function MessageOf(k: Api.ExternalKind): Option<string> {
    match k
    case ServerError(m) => Some(m)
    case AuthenticationException(m, _) => Some(m)
    case UnavailableException(m, _, _, _) => Some(m)
    case OverloadedException(m) => Some(m)
    case TruncateWithMessage(m) => Some(m)
    case WriteTimeoutException(_, _, _, _, m) => Some(m)
    case SyntaxException(m) => Some(m)
    case UnauthorizedException(m, _) => Some(m)
    case InvalidRequestException(m) => Some(m)
    case ConfigurationException(m, _) => Some(m)
    case _ => None
  }

  function CauseOf(k: Api.ExternalKind): Option<Engine.Throwable> {
    match k
    case AuthenticationException(_, c) => c
    case UnauthorizedException(_, c) => c
    case ConfigurationException(_, c) => c
    case TruncateWithCause(c) => Some(c)
    case _ => None
  }

  /**
   * Messages and causes are copied verbatim where the external class takes them, and every
   * code whose external class takes a message or a cause gets the engine exception's own, a
   * null cause included; a truncate error is built from its cause exactly when it has one.
   */
  lemma MessageAndCauseCopied(e: Engine.CassandraException, defaultPort: int)
    requires ToExternal(e, defaultPort).Translated?
    ensures MessageOf(ToExternal(e, defaultPort).exception.kind).Some? ==>
              MessageOf(ToExternal(e, defaultPort).exception.kind) == Some(e.message)
    ensures CauseOf(ToExternal(e, defaultPort).exception.kind).Some? ==>
              CauseOf(ToExternal(e, defaultPort).exception.kind) == e.cause
    ensures e.Code() == Engine.TRUNCATE_ERROR ==>
              (ToExternal(e, defaultPort).exception.kind.TruncateWithCause? <==> e.cause.Some?)
    ensures e.Code() in {Engine.SERVER_ERROR, Engine.BAD_CREDENTIALS, Engine.UNAVAILABLE, Engine.OVERLOADED,
                         Engine.WRITE_TIMEOUT, Engine.SYNTAX_ERROR, Engine.UNAUTHORIZED, Engine.INVALID,
                         Engine.CONFIG_ERROR} ||
            (e.Code() == Engine.TRUNCATE_ERROR && e.cause.None?) ==>
              MessageOf(ToExternal(e, defaultPort).exception.kind) == Some(e.message)
    ensures e.Code() in {Engine.BAD_CREDENTIALS, Engine.UNAUTHORIZED, Engine.CONFIG_ERROR} ||
            (e.Code() == Engine.TRUNCATE_ERROR && e.cause.Some?) ==>
              CauseOf(ToExternal(e, defaultPort).exception.kind) == e.cause
  {
  }

  /**
   * An already-exists error names only the keyspace exactly when its table name is null or
   * empty, and otherwise names both.
   */
  lemma AlreadyExistsForm(e: Engine.CassandraException, defaultPort: int)
    requires e.kind.AlreadyExists?
    ensures ToExternal(e, defaultPort).exception.kind.AlreadyExistsKeyspace?
        <==> (e.kind.cfName.None? || e.kind.cfName.value == "")
    ensures ToExternal(e, defaultPort).exception.kind.AlreadyExistsTable? ==>
              ToExternal(e, defaultPort).exception.kind == Api.AlreadyExistsTable(e.kind.ksName, e.kind.cfName.value)
    ensures ToExternal(e, defaultPort).exception.kind.ksName == e.kind.ksName
  {
  }

  /** What convertInternalException returns. */
  datatype Converted =
    | FromCassandra(rethrown: Rethrown)
    | ExternalProtocolException(message: string, forcedProtocolVersion: Option<Api.ProtocolVersion>)
    | Same(throwable: Engine.EngineThrowable)

  /**
   * convertInternalException: Cassandra exceptions go through toExternal; the engine's transport
   * ProtocolException becomes the external one with the same message and the same forced
   * version number; any other throwable is returned as it is.
   */
  function ConvertInternalException(t: Engine.EngineThrowable, defaultPort: int): (r: Converted)
    ensures t.Cassandra? <==> r.FromCassandra?
    ensures t.Cassandra? ==> r.rethrown == ToExternal(t.exception, defaultPort)
    ensures t.TransportProtocolException? <==> r.ExternalProtocolException?
    ensures t.TransportProtocolException? ==>
              r.message == t.message &&
              (r.forcedProtocolVersion.Some? <==> t.forcedProtocolVersion.Some?) &&
              (r.forcedProtocolVersion.Some? ==> r.forcedProtocolVersion.value.AsInt() == t.forcedProtocolVersion.value.AsInt())
    ensures t.OtherThrowable? ==> r == Same(t)
  {
    match t
    case Cassandra(e) => FromCassandra(ToExternal(e, defaultPort))
    case TransportProtocolException(m, v) => ExternalProtocolException(m, Levels.ToExternalProtocolVersion(v))
    case OtherThrowable(_) => Same(t)
  }
}
