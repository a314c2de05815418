/**
 * The small one-to-one conversions of Conversion.java: consistency levels (by code),
 * protocol versions (by number), write types (by ordinal), batch types, digests, endpoint
 * addresses, the per-endpoint failure-reason map and the query-or-id list of a batch.
 */
module Levels {
  import opened Wrappers
  import Engine
  import Api

  /** ConsistencyLevel.fromCode(cl.code) on the API side, for a non-null engine level. */
  function ExternalLevel(cl: Engine.ConsistencyLevel): (r: Api.ConsistencyLevel)
    ensures r.Code() == cl.Code()
  {
    Api.ConsistencyFromCode(cl.Code()).value
  }

  /** ConsistencyLevel.fromCode(cl.code) on the engine side, for a non-null API level. */
  function InternalLevel(cl: Api.ConsistencyLevel): (r: Engine.ConsistencyLevel)
    ensures r.Code() == cl.Code()
  {
    Engine.ConsistencyFromCode(cl.Code()).value
  }

  /** toInternal(ConsistencyLevel): null stays null, any other level keeps its code. */
  function ToInternalConsistency(cl: Option<Api.ConsistencyLevel>): (r: Option<Engine.ConsistencyLevel>)
    ensures r.Some? <==> cl.Some?
    ensures r.Some? ==> r.value.Code() == cl.value.Code()
  {
    match cl
    case None => None
    case Some(c) => Some(InternalLevel(c))
  }

  /** toExternal(ConsistencyLevel): null stays null, any other level keeps its code. */
  function ToExternalConsistency(cl: Option<Engine.ConsistencyLevel>): (r: Option<Api.ConsistencyLevel>)
    ensures r.Some? <==> cl.Some?
    ensures r.Some? ==> r.value.Code() == cl.value.Code()
  {
    match cl
    case None => None
    case Some(c) => Some(ExternalLevel(c))
  }

  /** The two consistency conversions are inverse bijections. */
  lemma ConsistencyRoundTrip(a: Api.ConsistencyLevel, e: Engine.ConsistencyLevel)
    ensures ExternalLevel(InternalLevel(a)) == a
    ensures InternalLevel(ExternalLevel(e)) == e
  {
  }

  /** toInternal(ProtocolVersion): null stays null, any version keeps its number. */
  function ToInternalProtocolVersion(v: Option<Api.ProtocolVersion>): (r: Option<Engine.ProtocolVersion>)
    ensures r.Some? <==> v.Some?
    ensures r.Some? ==> r.value.AsInt() == v.value.AsInt()
  {
    match v
    case None => None
    case Some(x) => Engine.ProtocolVersionFromInt(x.AsInt())
  }

  /** toExternal(ProtocolVersion): null stays null, any version keeps its number. */
  function ToExternalProtocolVersion(v: Option<Engine.ProtocolVersion>): (r: Option<Api.ProtocolVersion>)
    ensures r.Some? <==> v.Some?
    ensures r.Some? ==> r.value.AsInt() == v.value.AsInt()
  {
    match v
    case None => None
    case Some(x) => Api.ProtocolVersionFromInt(x.AsInt())
  }

  lemma ProtocolVersionRoundTrip(v: Option<Api.ProtocolVersion>)
    ensures ToExternalProtocolVersion(ToInternalProtocolVersion(v)) == v
  {
  }

  /** toExternal(WriteType): WriteType.fromOrdinal(internal.ordinal()). */
  function ToExternalWriteType(w: Engine.WriteType): (r: Api.WriteType)
    ensures r.Ordinal() == w.Ordinal()
  {
    Api.WriteTypeFromOrdinal(w.Ordinal()).value
  }

  /** Distinct engine write types stay distinct. */
  lemma WriteTypeInjective(a: Engine.WriteType, b: Engine.WriteType)
    ensures ToExternalWriteType(a) == ToExternalWriteType(b) ==> a == b
  {
  }

  /** The constant name shared by the two batch-type enumerations. */
  function BatchTypeName(b: Api.BatchType): string {
    match b
    case LOGGED => "LOGGED"
    case UNLOGGED => "UNLOGGED"
    case COUNTER_BATCH => "COUNTER"
  }

  function BatchKindName(k: Engine.BatchKind): string {
    match k
    case LOGGED => "LOGGED"
    case UNLOGGED => "UNLOGGED"
    case COUNTER_BATCH => "COUNTER"
  }

  /** toInternal(BatchType): each batch type goes to the engine constant of the same name. */
  function ToInternalBatchType(b: Api.BatchType): (r: Engine.BatchKind)
    ensures BatchKindName(r) == BatchTypeName(b)
  {
    match b
    case LOGGED => Engine.LOGGED
    case UNLOGGED => Engine.UNLOGGED
    case COUNTER_BATCH => Engine.COUNTER_BATCH
  }

  /** toInternal(MD5Digest) and toExternal(MD5Digest): both wrap the same bytes. */
  function ToInternalDigest(id: Api.Digest): (r: Engine.Digest)
    ensures r.bytes == id.bytes
  {
    Engine.Digest(id.bytes)
  }

  function ToExternalDigest(id: Engine.Digest): (r: Api.Digest)
    ensures r.bytes == id.bytes
  {
    Api.Digest(id.bytes)
  }

  lemma DigestRoundTrip(a: Api.Digest, e: Engine.Digest)
    ensures ToExternalDigest(ToInternalDigest(a)) == a
    ensures ToInternalDigest(ToExternalDigest(e)) == e
  {
  }

  /** toExternal(InetAddress) and InetAddressAndPort.getByAddress: the address at a given port. */
  function ToExternalAddress(address: Engine.InetAddress, port: int): (r: Api.InetAddressAndPort)
    ensures r.address == address && r.port == port
  {
    Api.InetAddressAndPort(address, port)
  }

  /** toInternal(InetAddressAndPort): the address, dropping the port. */
  function ToInternalAddress(external: Api.InetAddressAndPort): (r: Engine.InetAddress)
    ensures r == external.address
  {
    external.address
  }

  lemma AddressRoundTrip(address: Engine.InetAddress, port: int)
    ensures ToInternalAddress(ToExternalAddress(address, port)) == address
  {
  }

  /** RequestFailureReason.fromCode(reason.code). */
  function ToExternalReason(reason: Engine.FailureReason): (r: Api.FailureReason)
    ensures r.code == reason.code
  {
    Api.FailureReason(reason.code)
  }

  /** The map toExternal(Map<InetAddress, RequestFailureReason>) builds. */
  function FailureMap(internal: map<Engine.InetAddress, Engine.FailureReason>, defaultPort: int)
    : map<Api.InetAddressAndPort, Api.FailureReason>
  {
    map a | a in internal :: ToExternalAddress(a, defaultPort) := ToExternalReason(internal[a])
  }

  /** Every endpoint appears, at the default port, with its reason's code, and nothing else does. */
  lemma FailureMapEntries(internal: map<Engine.InetAddress, Engine.FailureReason>, defaultPort: int)
    ensures FailureMap(internal, defaultPort).Keys == set a | a in internal :: ToExternalAddress(a, defaultPort)
    ensures forall a :: a in internal ==>
              FailureMap(internal, defaultPort)[ToExternalAddress(a, defaultPort)].code == internal[a].code
  {
  }

  /** No entry is lost: mapping each external endpoint back with toInternal recovers the input. */
  lemma FailureMapLossless(internal: map<Engine.InetAddress, Engine.FailureReason>, defaultPort: int)
    ensures (map k | k in FailureMap(internal, defaultPort) ::
               ToInternalAddress(k) := Engine.FailureReason(FailureMap(internal, defaultPort)[k].code)) == internal
  {
    var m := FailureMap(internal, defaultPort);
    var back := map k | k in m :: ToInternalAddress(k) := Engine.FailureReason(m[k].code);
    forall a | a in internal ensures a in back && back[a] == internal[a] {
      assert ToExternalAddress(a, defaultPort) in m;
      assert ToInternalAddress(ToExternalAddress(a, defaultPort)) == a;
    }
    assert back.Keys == internal.Keys;
  }

  /** Adding one engine entry adds its external entry. */
  lemma FailureMapStep(seen: map<Engine.InetAddress, Engine.FailureReason>, a: Engine.InetAddress,
                       reason: Engine.FailureReason, defaultPort: int)
    ensures FailureMap(seen[a := reason], defaultPort)
         == FailureMap(seen, defaultPort)[ToExternalAddress(a, defaultPort) := ToExternalReason(reason)]
  {
  }

  /** The for loop over the entries of the engine map, putting each into a new map. */
  method ToExternalFailureMap(internal: map<Engine.InetAddress, Engine.FailureReason>, defaultPort: int)
    returns (external: map<Api.InetAddressAndPort, Api.FailureReason>)
    ensures external == FailureMap(internal, defaultPort)
  {
    external := map[];
    var remaining := internal.Keys;
    ghost var seen: map<Engine.InetAddress, Engine.FailureReason> := map[];
    while remaining != {}
      invariant remaining <= internal.Keys
      invariant seen.Keys == internal.Keys - remaining
      invariant forall k :: k in seen ==> seen[k] == internal[k]
      invariant external == FailureMap(seen, defaultPort)
      decreases remaining
    {
      var a :| a in remaining;
      FailureMapStep(seen, a, internal[a], defaultPort);
      external := external[ToExternalAddress(a, defaultPort) := ToExternalReason(internal[a])];
      seen := seen[a := internal[a]];
      remaining := remaining - {a};
    }
    assert seen == internal;
  }

  /** An element of a batch: either a CQL query string or the id of a prepared statement. */
  datatype QueryOrId = Query(cql: string) | Id(id: Api.Digest)
  datatype InternalQueryOrId = InternalQuery(cql: string) | InternalId(id: Engine.Digest)

  /**
   * toInternalQueryOrIds: the same list in the same order, where every prepared-statement id is
   * converted to the engine digest of the same bytes and every other element is kept as is.
   */
  method ToInternalQueryOrIds(queryOrIds: seq<QueryOrId>) returns (internal: seq<InternalQueryOrId>)
    ensures |internal| == |queryOrIds|
    ensures forall i :: 0 <= i < |queryOrIds| ==>
              match queryOrIds[i]
              case Query(q) => internal[i] == InternalQuery(q)
              case Id(d) => internal[i] == InternalId(ToInternalDigest(d))
  {
    internal := [];
    for i := 0 to |queryOrIds|
      invariant |internal| == i
      invariant forall j :: 0 <= j < i ==>
                  match queryOrIds[j]
                  case Query(q) => internal[j] == InternalQuery(q)
                  case Id(d) => internal[j] == InternalId(ToInternalDigest(d))
    {
      match queryOrIds[i]
      case Id(d) => internal := internal + [InternalId(ToInternalDigest(d))];
      case Query(q) => internal := internal + [InternalQuery(q)];
    }
  }
}
