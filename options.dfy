/**
 * The option builder of Conversion.java: toInternal(values, boundNames, parameters) and
 * createOptions, which turn the API's query parameters into the engine's QueryOptions.
 */
module QueryOptionsBuilder {
  import opened Wrappers
  import Engine
  import Api
  import Levels

  /** Long.MIN_VALUE: the engine's "no timestamp provided". */
  const NO_TIMESTAMP: int := -0x8000_0000_0000_0000

  /** The page size meaning "no paging requested". */
  const NO_PAGE_SIZE: int := -1

  /**
   * createOptions: the positional options hold exactly the given arguments, and they are
   * wrapped with the bound names exactly when names are given; the wrapper adds the names and
   * changes none of the positional data.
   */
  function CreateOptions(
    consistency: Option<Engine.ConsistencyLevel>, values: seq<Engine.Serialized>, boundNames: Option<seq<string>>,
    skipMetadata: bool, pageSize: int, pagingState: Option<Engine.PagingState>,
    serialConsistency: Option<Engine.ConsistencyLevel>, protocolVersion: Option<Engine.ProtocolVersion>, timestamp: int)
    : (o: Engine.QueryOptions)
    ensures o.BoundNames() == boundNames
    ensures o.Consistency() == consistency && o.Values() == values && o.SkipMetadata() == skipMetadata
    ensures o.Specific().pageSize == pageSize && o.Specific().state == pagingState
    ensures o.Specific().serialConsistency == serialConsistency && o.Specific().timestamp == timestamp
    ensures o.Version() == protocolVersion
  {
    var specificOptions := Engine.SpecificOptions(pageSize, pagingState, serialConsistency, timestamp);
    var defaultOptions := Engine.DefaultQueryOptions(consistency, values, skipMetadata, specificOptions, protocolVersion);
    if boundNames.Some? then Engine.OptionsWithNames(defaultOptions, boundNames.value) else defaultOptions
  }

  /**
   * PagingState.deserialize, which reads the remaining bytes of its buffer and so moves the
   * buffer's position; `decode` is the decoding itself.
   */
  method DeserializePagingState(
    buffer: Api.ByteBuffer, version: Option<Engine.ProtocolVersion>,
    decode: (Engine.Bytes, Option<Engine.ProtocolVersion>) -> Engine.PagingState)
    returns (state: Engine.PagingState)
    requires buffer.Valid()
    modifies buffer
    ensures buffer.Valid() && buffer.position == |buffer.contents|
    ensures state == decode(old(buffer.Remaining()), version)
  {
    state := decode(buffer.Remaining(), version);
    buffer.position := |buffer.contents|;
  }

  /**
   * toInternal(values, boundNames, parameters). The paging state is decoded from a duplicate
   * of the caller's buffer, which is left untouched; an absent page size becomes -1, an absent
   * serial consistency SERIAL and an absent timestamp Long.MIN_VALUE.
   */
  method ToInternal(
    values: seq<Engine.Serialized>, boundNames: Option<seq<string>>, parameters: Api.Parameters,
    decode: (Engine.Bytes, Option<Engine.ProtocolVersion>) -> Engine.PagingState)
    returns (options: Engine.QueryOptions)
    requires parameters.pagingState.Some? ==> parameters.pagingState.value.Valid()
    ensures parameters.pagingState.Some? ==> unchanged(parameters.pagingState.value)
    ensures options.BoundNames() == boundNames && options.Values() == values
    ensures options.Consistency() == Some(Levels.InternalLevel(parameters.consistencyLevel))
    ensures options.SkipMetadata() == parameters.skipMetadataInResult
    ensures options.Version() == Levels.ToInternalProtocolVersion(Some(parameters.protocolVersion))
    ensures options.Specific().pageSize ==
              if parameters.pageSize.Some? then parameters.pageSize.value else NO_PAGE_SIZE
    ensures options.Specific().serialConsistency ==
              Some(Levels.InternalLevel(if parameters.serialConsistencyLevel.Some?
                                        then parameters.serialConsistencyLevel.value else Api.SERIAL))
    ensures options.Specific().timestamp ==
              if parameters.defaultTimestamp.Some? then parameters.defaultTimestamp.value else NO_TIMESTAMP
    ensures options.Specific().state ==
              if parameters.pagingState.Some?
              then Some(decode(parameters.pagingState.value.Remaining(), options.Version()))
              else None
  {
    var protocolVersion := Levels.ToInternalProtocolVersion(Some(parameters.protocolVersion));
    var pagingState: Option<Engine.PagingState> := None;
    if parameters.pagingState.Some? {
      // deserialize moves the position of the buffer it reads, so it is given a duplicate
      var copy := parameters.pagingState.value.Duplicate();
      var state := DeserializePagingState(copy, protocolVersion, decode);
      pagingState := Some(state);
    }
    options := CreateOptions(
      Levels.ToInternalConsistency(Some(parameters.consistencyLevel)),
      values,
      boundNames,
      parameters.skipMetadataInResult,
      if parameters.pageSize.Some? then parameters.pageSize.value else NO_PAGE_SIZE,
      pagingState,
      Levels.ToInternalConsistency(Some(if parameters.serialConsistencyLevel.Some?
                                        then parameters.serialConsistencyLevel.value else Api.SERIAL)),
      protocolVersion,
      if parameters.defaultTimestamp.Some? then parameters.defaultTimestamp.value else NO_TIMESTAMP);
  }
}
