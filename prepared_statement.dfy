/**
 * PersistenceBackedPreparedStatement: the client-side prepared statement that checks,
 * validates and serialises bound values, picks the consistency of an execution, and turns
 * the persistence layer's Result into a ResultSet.
 */
module PreparedStatements {
  import opened Wrappers
  import Engine
  import Api

  /** The driver's protocol versions this statement can encode with. */
  datatype DriverVersion = DriverV3 | DriverV4 | DriverV5
  {
    function AsInt(): nat {
      match this
      case DriverV3 => 3
      case DriverV4 => 4
      case DriverV5 => 5
    }
  }

  /** A Java value bound to a marker: null, the UNSET sentinel, a collection or any other object. */
  datatype Value =
    | Null
    | Unset
    | ListValue(elements: seq<Value>)
    | SetValue(members: set<Value>)
    | MapValue(entries: map<Value, Value>)
    | Atom(className: string, text: string)

  /** The location string handed to ColumnType.validate. */
  datatype Location =
    | Named(name: string)
      // "key of map %s"
    | KeyOfMap(mapName: string)
      // "value of map %s for key %s"
    | ValueOfMap(mapName: string, key: Value)

  /** Column.ValidationException. */
  datatype ValidationException = ValidationException(
    location: Location, providedType: string, expectedCqlType: string, errorDetails: string)

  datatype CollectionKind = ListKind | SetKind | MapKind

  /** The InvalidRequestExceptions raised while binding values, by message. */
  datatype InvalidReason =
      // "Unexpected number of values provided: the prepared statement has %d markers but %d values provided"
    | WrongValueCount(markers: nat, valueCount: nat)
      // "For value %d bound to %s, expected a list/set/map but got a %s (%s)"
    | WrongCollection(position: int, name: string, expected: CollectionKind, provided: Value)
      // "Wrong value provided for %s. Provided type '%s' is not compatible with expected CQL type '%s'.%s"
    | WrongValue(location: Location, providedType: string, expectedCqlType: string, errorDetails: string)

  datatype StatementError =
      // ProtocolException("Unsupported protocol version: " + version)
    | UnsupportedProtocolVersion(version: Api.ProtocolVersion)
    | InvalidRequest(reason: InvalidReason)
      // AssertionError("Shouldn't get a 'Prepared' result when executing a prepared statement")
    | UnexpectedPreparedResult

  /** ColumnType.validate(value, location): the value, possibly coerced, or a ValidationException. */
  type Validator = (Api.ColumnType, Value, Location) -> Result<Value, ValidationException>

  /** type.codec().encode(value, version). */
  type Encoder = (Api.ColumnType, Value, DriverVersion) -> Engine.Bytes

  /**
   * toDriverVersion: V1 and V2 are rejected with a ProtocolException, V3, V4 and V5 become the
   * driver's version of the same number.
   */
  function ToDriverVersion(version: Api.ProtocolVersion): (r: Result<DriverVersion, StatementError>)
    ensures r.Err? <==> version.AsInt() < 3
    ensures r.Err? ==> r.error == UnsupportedProtocolVersion(version)
    ensures r.Ok? ==> r.value.AsInt() == version.AsInt()
  {
    match version
    case V1 => Err(UnsupportedProtocolVersion(version))
    case V2 => Err(UnsupportedProtocolVersion(version))
    case V3 => Ok(DriverV3)
    case V4 => Ok(DriverV4)
    case V5 => Ok(DriverV5)
  }

  /** Distinct supported versions give distinct driver versions. */
  lemma DriverVersionOneToOne(a: Api.ProtocolVersion, b: Api.ProtocolVersion)
    requires ToDriverVersion(a).Ok? && ToDriverVersion(a) == ToDriverVersion(b)
    ensures a == b
  {
  }

  /** The final fields of a PersistenceBackedPreparedStatement. */
  datatype PreparedStatement = PreparedStatement(
    parameters: Api.Parameters, id: Api.Digest, bindMarkerDefinitions: seq<Api.Column>,
    driverProtocolVersion: DriverVersion)

  /** The constructor: it fails exactly when the parameters' protocol version is unsupported. */
  function NewPreparedStatement(parameters: Api.Parameters, id: Api.Digest, markers: seq<Api.Column>)
    : (r: Result<PreparedStatement, StatementError>)
    ensures r.Ok? <==> parameters.protocolVersion.AsInt() >= 3
    ensures r.Err? ==> r.error == UnsupportedProtocolVersion(parameters.protocolVersion)
    ensures r.Ok? ==> r.value.parameters == parameters && r.value.id == id &&
                      r.value.bindMarkerDefinitions == markers &&
                      r.value.driverProtocolVersion.AsInt() == parameters.protocolVersion.AsInt()
  {
    var version :- ToDriverVersion(parameters.protocolVersion);
    Ok(PreparedStatement(parameters, id, markers, version))
  }

  /** A ValidationException becomes an InvalidRequestException with the same four parts. */
  function Wrong(e: ValidationException): InvalidReason {
    WrongValue(e.location, e.providedType, e.expectedCqlType, e.errorDetails)
  }

  function Checked(r: Result<Value, ValidationException>): Result<Value, InvalidReason> {
    match r
    case Ok(v) => Ok(v)
    case Err(e) => Err(Wrong(e))
  }

  /** The validation of a list or set element. */
  function ElementCheck(elementType: Api.ColumnType, name: string, validate: Validator, e: Value): Result<Value, ValidationException> {
    validate(elementType, e, Named(name))
  }

  /** The validation of a map key, at "key of map name". */
  function KeyCheck(keyType: Api.ColumnType, name: string, validate: Validator, k: Value): Result<Value, ValidationException> {
    validate(keyType, k, KeyOfMap(name))
  }

  /** The validation of the value under key `k`, at "value of map name for key k". */
  function ValueCheck(valueType: Api.ColumnType, name: string, validate: Validator, k: Value, v: Value)
    : Result<Value, ValidationException>
  {
    validate(valueType, v, ValueOfMap(name, k))
  }

  /** The validated elements of a list, in order; the first element that fails decides the error. */
  function ValidatedList(elements: seq<Value>, elementType: Api.ColumnType, name: string, validate: Validator)
    : Result<seq<Value>, InvalidReason>
    decreases |elements|
  {
    if elements == [] then Ok([])
    else
      var init :- ValidatedList(elements[..|elements| - 1], elementType, name, validate);
      var last :- Checked(ElementCheck(elementType, name, validate, elements[|elements| - 1]));
      Ok(init + [last])
  }

  /** Once a prefix of the list fails, the whole list fails with the same error. */
  lemma {:induction false} ListFailureExtends(elements: seq<Value>, i: nat, elementType: Api.ColumnType, name: string, validate: Validator)
    requires i <= |elements|
    requires ValidatedList(elements[..i], elementType, name, validate).Err?
    ensures ValidatedList(elements, elementType, name, validate) == ValidatedList(elements[..i], elementType, name, validate)
    decreases |elements| - i
  {
    if i < |elements| {
      var next := elements[..i + 1];
      assert next[..|next| - 1] == elements[..i];
      ListFailureExtends(elements, i + 1, elementType, name, validate);
    } else {
      assert elements[..i] == elements;
    }
  }

  /**
   * A list validates exactly when each of its elements does; then the result has the same
   * length and holds each element's validated value at its position; otherwise the error is
   * that of the first element that fails.
   */
  lemma {:induction false} ValidatedListSound(elements: seq<Value>, elementType: Api.ColumnType, name: string, validate: Validator)
    decreases |elements|
    ensures ValidatedList(elements, elementType, name, validate).Ok? <==>
              forall i :: 0 <= i < |elements| ==> ElementCheck(elementType, name, validate, elements[i]).Ok?
    ensures ValidatedList(elements, elementType, name, validate).Ok? ==>
              var vs := ValidatedList(elements, elementType, name, validate).value;
              |vs| == |elements| &&
              forall i :: 0 <= i < |elements| ==> Ok(vs[i]) == ElementCheck(elementType, name, validate, elements[i])
    ensures ValidatedList(elements, elementType, name, validate).Err? ==>
              exists i :: 0 <= i < |elements| && ElementCheck(elementType, name, validate, elements[i]).Err? &&
                ValidatedList(elements, elementType, name, validate).error ==
                  Wrong(ElementCheck(elementType, name, validate, elements[i]).error) &&
                forall j :: 0 <= j < i ==> ElementCheck(elementType, name, validate, elements[j]).Ok?
  {
    if elements != [] {
      var n := |elements| - 1;
      var init := elements[..n];
      ValidatedListSound(init, elementType, name, validate);
      assert forall i :: 0 <= i < n ==> init[i] == elements[i];
      var r := ValidatedList(init, elementType, name, validate);
      if r.Err? {
        var i :| 0 <= i < n && ElementCheck(elementType, name, validate, init[i]).Err? &&
                 r.error == Wrong(ElementCheck(elementType, name, validate, init[i]).error) &&
                 forall j :: 0 <= j < i ==> ElementCheck(elementType, name, validate, init[j]).Ok?;
        assert elements[i] == init[i];
      }
    }
  }

  /** The outcome of the list loop: the validated list, or the error of its first failing element. */
  ghost predicate ListValidation(elements: seq<Value>, elementType: Api.ColumnType, name: string, validate: Validator,
                                 r: Result<Value, InvalidReason>)
  {
    match ValidatedList(elements, elementType, name, validate)
    case Ok(vs) => r == Ok(ListValue(vs))
    case Err(e) => r == Err(e)
  }

  /** The outcome of the set loop, whatever order the HashSet is iterated in. */
  ghost predicate SetValidation(members: set<Value>, elementType: Api.ColumnType, name: string, validate: Validator,
                                r: Result<Value, InvalidReason>)
  {
    match r
    case Ok(v) =>
      (forall e :: e in members ==> ElementCheck(elementType, name, validate, e).Ok?) &&
      v == SetValue(set e | e in members && ElementCheck(elementType, name, validate, e).Ok? ::
                      ElementCheck(elementType, name, validate, e).value)
    case Err(err) =>
      exists e :: e in members && ElementCheck(elementType, name, validate, e).Err? &&
        err == Wrong(ElementCheck(elementType, name, validate, e).error)
  }

  /**
   * The outcome of the map loop, whatever order the HashMap is iterated in: every key and
   * value validates, the keys are the validated keys, and each entry comes from an input entry
   * (value-equal validated keys coalesce, one of their values surviving); or some key fails, or
   * some value whose key validated fails.
   */
  ghost predicate MapValidation(entries: map<Value, Value>, keyType: Api.ColumnType, valueType: Api.ColumnType,
                                name: string, validate: Validator, r: Result<Value, InvalidReason>)
  {
    match r
    case Ok(v) =>
      v.MapValue? &&
      (forall k :: k in entries ==>
         KeyCheck(keyType, name, validate, k).Ok? && ValueCheck(valueType, name, validate, k, entries[k]).Ok?) &&
      v.entries.Keys == (set k | k in entries && KeyCheck(keyType, name, validate, k).Ok? ::
                           KeyCheck(keyType, name, validate, k).value) &&
      (forall k' :: k' in v.entries ==>
         exists k :: k in entries && KeyCheck(keyType, name, validate, k) == Ok(k') &&
                     ValueCheck(valueType, name, validate, k, entries[k]) == Ok(v.entries[k']))
    case Err(err) =>
      exists k :: k in entries &&
        ((KeyCheck(keyType, name, validate, k).Err? && err == Wrong(KeyCheck(keyType, name, validate, k).error)) ||
         (KeyCheck(keyType, name, validate, k).Ok? && ValueCheck(valueType, name, validate, k, entries[k]).Err? &&
          err == Wrong(ValueCheck(valueType, name, validate, k, entries[k]).error)))
  }

  /**
   * What validateValue may return for `value` bound at `position` to the marker `name` of
   * type `t`: list, set and map markers demand a value of that collection and validate its
   * parts; any other type validates the value itself. Validation failures are reported as
   * WrongValue, never raw.
   */
  ghost predicate Validates(name: string, t: Api.ColumnType, value: Value, position: int, validate: Validator,
                            r: Result<Value, InvalidReason>)
  {
    match t
    case ListOf(elementType, _) =>
      if !value.ListValue? then r == Err(WrongCollection(position, name, ListKind, value))
      else ListValidation(value.elements, elementType, name, validate, r)
    case SetOf(elementType, _) =>
      if !value.SetValue? then r == Err(WrongCollection(position, name, SetKind, value))
      else SetValidation(value.members, elementType, name, validate, r)
    case MapOf(keyType, valueType, _) =>
      if !value.MapValue? then r == Err(WrongCollection(position, name, MapKind, value))
      else MapValidation(value.entries, keyType, valueType, name, validate, r)
    case _ => r == Checked(validate(t, value, Named(name)))
  }

  /** validateValue. */
  method ValidateValue(name: string, t: Api.ColumnType, value: Value, position: int, validate: Validator)
    returns (r: Result<Value, InvalidReason>)
    ensures Validates(name, t, value, position, validate, r)
  {
    match t
    case ListOf(elementType, _) =>
      if !value.ListValue? {
        return Err(WrongCollection(position, name, ListKind, value));
      }
      r := ValidateList(value.elements, elementType, name, validate);
    case SetOf(elementType, _) =>
      if !value.SetValue? {
        return Err(WrongCollection(position, name, SetKind, value));
      }
      r := ValidateSet(value.members, elementType, name, validate);
    case MapOf(keyType, valueType, _) =>
      if !value.MapValue? {
        return Err(WrongCollection(position, name, MapKind, value));
      }
      r := ValidateMap(value.entries, keyType, valueType, name, validate);
    case _ =>
      r := Checked(validate(t, value, Named(name)));
  }

  /** The list loop of validateValue. */
  method ValidateList(elements: seq<Value>, elementType: Api.ColumnType, name: string, validate: Validator)
    returns (r: Result<Value, InvalidReason>)
    ensures ListValidation(elements, elementType, name, validate, r)
  {
    var validated: seq<Value> := [];
    var i := 0;
    while i < |elements|
      invariant 0 <= i <= |elements|
      invariant ValidatedList(elements[..i], elementType, name, validate) == Ok(validated)
    {
      var c := ElementCheck(elementType, name, validate, elements[i]);
      var next := elements[..i + 1];
      assert next[..|next| - 1] == elements[..i] && next[|next| - 1] == elements[i];
      if c.Err? {
        ListFailureExtends(elements, i + 1, elementType, name, validate);
        return Err(Wrong(c.error));
      }
      validated := validated + [c.value];
      i := i + 1;
    }
    assert elements[..i] == elements;
    r := Ok(ListValue(validated));
  }

  /** The set loop of validateValue, over the members in an arbitrary order. */
  method ValidateSet(members: set<Value>, elementType: Api.ColumnType, name: string, validate: Validator)
    returns (r: Result<Value, InvalidReason>)
    ensures SetValidation(members, elementType, name, validate, r)
  {
    var remaining := members;
    var validated: set<Value> := {};
    while remaining != {}
      invariant remaining <= members
      invariant forall e :: e in members - remaining ==> ElementCheck(elementType, name, validate, e).Ok?
      invariant validated == set e | e in members - remaining && ElementCheck(elementType, name, validate, e).Ok? ::
                               ElementCheck(elementType, name, validate, e).value
      decreases remaining
    {
      var e :| e in remaining;
      var c := ElementCheck(elementType, name, validate, e);
      if c.Err? {
        return Err(Wrong(c.error));
      }
      validated := validated + {c.value};
      remaining := remaining - {e};
    }
    r := Ok(SetValue(validated));
  }

  /** Every key and value of the entries in `done` validates. */
  ghost predicate EntriesValid(entries: map<Value, Value>, keyType: Api.ColumnType, valueType: Api.ColumnType,
                               name: string, validate: Validator, done: set<Value>)
  {
    forall k :: k in done && k in entries ==>
      KeyCheck(keyType, name, validate, k).Ok? && ValueCheck(valueType, name, validate, k, entries[k]).Ok?
  }

  /** The validated keys of the entries in `done`. */
  ghost function ValidatedKeys(entries: map<Value, Value>, keyType: Api.ColumnType, name: string, validate: Validator,
                               done: set<Value>): set<Value>
  {
    set k | k in done && KeyCheck(keyType, name, validate, k).Ok? :: KeyCheck(keyType, name, validate, k).value
  }

  /** Each validated entry was put from the input entry `source` names for it, which is in `done`. */
  ghost predicate Traced(entries: map<Value, Value>, keyType: Api.ColumnType, valueType: Api.ColumnType,
                         name: string, validate: Validator, done: set<Value>,
                         validated: map<Value, Value>, source: map<Value, Value>)
  {
    validated.Keys == source.Keys &&
    forall k' :: k' in source ==>
      source[k'] in done && source[k'] in entries &&
      KeyCheck(keyType, name, validate, source[k']) == Ok(k') &&
      ValueCheck(valueType, name, validate, source[k'], entries[source[k']]) == Ok(validated[k'])
  }

  /** One put of the map loop keeps the loop's invariant. */
  lemma MapStep(entries: map<Value, Value>, keyType: Api.ColumnType, valueType: Api.ColumnType,
                name: string, validate: Validator, done: set<Value>,
                validated: map<Value, Value>, source: map<Value, Value>, k: Value)
    requires k in entries
    requires KeyCheck(keyType, name, validate, k).Ok? && ValueCheck(valueType, name, validate, k, entries[k]).Ok?
    requires EntriesValid(entries, keyType, valueType, name, validate, done)
    requires validated.Keys == ValidatedKeys(entries, keyType, name, validate, done)
    requires Traced(entries, keyType, valueType, name, validate, done, validated, source)
    ensures var kv := KeyCheck(keyType, name, validate, k).value;
            var vv := ValueCheck(valueType, name, validate, k, entries[k]).value;
            EntriesValid(entries, keyType, valueType, name, validate, done + {k}) &&
            validated[kv := vv].Keys == ValidatedKeys(entries, keyType, name, validate, done + {k}) &&
            Traced(entries, keyType, valueType, name, validate, done + {k}, validated[kv := vv], source[kv := k])
  {
    var kv := KeyCheck(keyType, name, validate, k).value;
    assert ValidatedKeys(entries, keyType, name, validate, done + {k}) ==
           ValidatedKeys(entries, keyType, name, validate, done) + {kv};
  }

  /** The map loop of validateValue, over the entries in an arbitrary order; a later put overwrites. */
  method ValidateMap(entries: map<Value, Value>, keyType: Api.ColumnType, valueType: Api.ColumnType, name: string,
                     validate: Validator)
    returns (r: Result<Value, InvalidReason>)
    ensures MapValidation(entries, keyType, valueType, name, validate, r)
  {
    var remaining := entries.Keys;
    var validated: map<Value, Value> := map[];
    ghost var done: set<Value> := {};
    // the input key each validated key was last put from
    ghost var source: map<Value, Value> := map[];
    while remaining != {}
      invariant done + remaining == entries.Keys && done !! remaining
      invariant EntriesValid(entries, keyType, valueType, name, validate, done)
      invariant validated.Keys == ValidatedKeys(entries, keyType, name, validate, done)
      invariant Traced(entries, keyType, valueType, name, validate, done, validated, source)
      decreases remaining
    {
      var k :| k in remaining;
      var kc := KeyCheck(keyType, name, validate, k);
      if kc.Err? {
        return Err(Wrong(kc.error));
      }
      var vc := ValueCheck(valueType, name, validate, k, entries[k]);
      if vc.Err? {
        return Err(Wrong(vc.error));
      }
      MapStep(entries, keyType, valueType, name, validate, done, validated, source, k);
      validated := validated[kc.value := vc.value];
      source := source[kc.value := k];
      done := done + {k};
      remaining := remaining - {k};
    }
    assert done == entries.Keys;
    forall k' | k' in validated
      ensures exists k :: k in entries && KeyCheck(keyType, name, validate, k) == Ok(k') &&
                          ValueCheck(valueType, name, validate, k, entries[k]) == Ok(validated[k'])
    {
      var k := source[k'];
      assert k in entries;
    }
    r := Ok(MapValue(validated));
  }

  /**
   * Whether validation succeeds does not depend on the order the set or map is iterated in:
   * two outcomes validateValue may produce for the same input agree on success, and for
   * anything but a set or a map they are the same outcome.
   */
  lemma ValidationOutcomeAgrees(name: string, t: Api.ColumnType, value: Value, position: int, validate: Validator,
                                r1: Result<Value, InvalidReason>, r2: Result<Value, InvalidReason>)
    requires Validates(name, t, value, position, validate, r1) && Validates(name, t, value, position, validate, r2)
    ensures r1.Ok? == r2.Ok?
    ensures !(t.SetOf? && value.SetValue?) && !(t.MapOf? && value.MapValue?) ==> r1 == r2
  {
  }

  /**
   * A validated set is exactly the set of its members' validated forms: every member's
   * validated form is in it, each of its elements is some member's validated form, and it has
   * no more elements than the bound set, fewer when coerced members coalesce.
   */
  lemma SetMayCoalesce(members: set<Value>, elementType: Api.ColumnType, name: string, validate: Validator,
                       r: Result<Value, InvalidReason>)
    requires SetValidation(members, elementType, name, validate, r) && r.Ok?
    ensures r.value.SetValue?
    ensures forall e :: e in members ==> ElementCheck(elementType, name, validate, e).Ok? &&
                                         ElementCheck(elementType, name, validate, e).value in r.value.members
    ensures forall v :: v in r.value.members ==>
              exists e :: e in members && ElementCheck(elementType, name, validate, e) == Ok(v)
    ensures |r.value.members| <= |members|
  {
    ValidatedImageBound(members, elementType, name, validate);
  }

  /** The members that validate, once validated, are no more than the members. */
  lemma {:induction false} ValidatedImageBound(members: set<Value>, elementType: Api.ColumnType, name: string, validate: Validator)
    decreases members
    ensures |set e | e in members && ElementCheck(elementType, name, validate, e).Ok? ::
               ElementCheck(elementType, name, validate, e).value| <= |members|
  {
    if members != {} {
      var x :| x in members;
      var rest := members - {x};
      ValidatedImageBound(rest, elementType, name, validate);
      var image := set e | e in members && ElementCheck(elementType, name, validate, e).Ok? ::
                     ElementCheck(elementType, name, validate, e).value;
      var restImage := set e | e in rest && ElementCheck(elementType, name, validate, e).Ok? ::
                         ElementCheck(elementType, name, validate, e).value;
      if ElementCheck(elementType, name, validate, x).Ok? {
        assert image == restImage + {ElementCheck(elementType, name, validate, x).value};
      } else {
        assert image == restImage;
      }
    }
  }

  /**
   * What serializeBoundValues may put at position `position`: null becomes the null buffer,
   * UNSET the persistence's unset value, and any other value is validated against the
   * marker's type and encoded with that type under the driver version.
   */
  ghost predicate EntrySerialized(marker: Api.Column, value: Value, position: int, version: DriverVersion,
                                  validate: Validator, encode: Encoder, s: Engine.Serialized)
  {
    if value.Null? then s == Engine.NullValue
    else if value.Unset? then s == Engine.UnsetValue
    else exists v :: Validates(marker.name, marker.columnType, value, position, validate, Ok(v)) &&
                     s == Engine.Bytes(encode(marker.columnType, v, version))
  }

  /** The value at `position` gets past validation: it is null, UNSET, or validates against its marker. */
  ghost predicate Accepted(marker: Api.Column, value: Value, position: int, validate: Validator) {
    value.Null? || value.Unset? ||
    exists v :: Validates(marker.name, marker.columnType, value, position, validate, Ok(v))
  }

  /**
   * What serializeBoundValues may return: a count mismatch is rejected before anything is
   * serialised; otherwise one entry per value, each from its value and its marker; or the
   * error of the first value whose validation fails.
   */
  ghost predicate SerializedAs(markers: seq<Api.Column>, values: seq<Value>, version: DriverVersion,
                               validate: Validator, encode: Encoder, r: Result<seq<Engine.Serialized>, InvalidReason>)
  {
    if |markers| != |values| then r == Err(WrongValueCount(|markers|, |values|))
    else
      match r
      case Ok(serialized) =>
        |serialized| == |values| &&
        forall i :: 0 <= i < |values| ==> EntrySerialized(markers[i], values[i], i, version, validate, encode, serialized[i])
      case Err(e) =>
        exists i :: 0 <= i < |values| && !values[i].Null? && !values[i].Unset? &&
          Validates(markers[i].name, markers[i].columnType, values[i], i, validate, Err(e)) &&
          forall j :: 0 <= j < i ==> Accepted(markers[j], values[j], j, validate)
  }

  /** A value that fails validation after `serialized` was produced for the values before it decides the error. */
  lemma SerializationFailsAt(markers: seq<Api.Column>, values: seq<Value>, version: DriverVersion,
                             validate: Validator, encode: Encoder, serialized: seq<Engine.Serialized>, e: InvalidReason)
    requires |markers| == |values| && |serialized| < |values|
    requires forall j :: 0 <= j < |serialized| ==>
               EntrySerialized(markers[j], values[j], j, version, validate, encode, serialized[j])
    requires var i := |serialized|;
             !values[i].Null? && !values[i].Unset? &&
             Validates(markers[i].name, markers[i].columnType, values[i], i, validate, Err(e))
    ensures SerializedAs(markers, values, version, validate, encode, Err(e))
  {
    var i := |serialized|;
    forall j | 0 <= j < i
      ensures Accepted(markers[j], values[j], j, validate)
    {
      assert EntrySerialized(markers[j], values[j], j, version, validate, encode, serialized[j]);
    }
  }

  /** serializeBoundValues: the count check, then the indexed loop over the values. */
  method SerializeBoundValues(statement: PreparedStatement, values: seq<Value>, validate: Validator, encode: Encoder)
    returns (r: Result<seq<Engine.Serialized>, InvalidReason>)
    ensures SerializedAs(statement.bindMarkerDefinitions, values, statement.driverProtocolVersion, validate, encode, r)
  {
    var markers := statement.bindMarkerDefinitions;
    var version := statement.driverProtocolVersion;
    if |markers| != |values| {
      return Err(WrongValueCount(|markers|, |values|));
    }
    var serialized: seq<Engine.Serialized> := [];
    for i := 0 to |values|
      invariant |serialized| == i
      invariant forall j :: 0 <= j < i ==> EntrySerialized(markers[j], values[j], j, version, validate, encode, serialized[j])
    {
      var marker := markers[i];
      var value := values[i];
      var entry: Engine.Serialized;
      if value.Null? {
        entry := Engine.NullValue;
      } else if value.Unset? {
        entry := Engine.UnsetValue;
      } else {
        var validated := ValidateValue(marker.name, marker.columnType, value, i, validate);
        if validated.Err? {
          SerializationFailsAt(markers, values, version, validate, encode, serialized, validated.error);
          return Err(validated.error);
        }
        entry := Engine.Bytes(encode(marker.columnType, validated.value, version));
      }
      serialized := serialized + [entry];
    }
    r := Ok(serialized);
  }

  /** The consistency of an execution: the override when one is given, else the statement's own. */
  function ExecuteParameters(statement: PreparedStatement, consistencyLevel: Option<Api.ConsistencyLevel>)
    : (p: Api.Parameters)
    ensures p.consistencyLevel ==
              if consistencyLevel.Some? then consistencyLevel.value else statement.parameters.consistencyLevel
    ensures p.(consistencyLevel := statement.parameters.consistencyLevel) == statement.parameters
  {
    if consistencyLevel.Some? then statement.parameters.WithConsistencyLevel(consistencyLevel.value)
    else statement.parameters
  }

  /** What execute hands to the persistence layer. */
  datatype Request = Request(statement: Api.BoundStatement, parameters: Api.Parameters)

  /**
   * execute up to the persistence call: the parameters with the consistency override applied,
   * and a bound statement with this statement's id, the serialised values and no names.
   */
  method Execute(statement: PreparedStatement, consistencyLevel: Option<Api.ConsistencyLevel>, values: seq<Value>,
                 validate: Validator, encode: Encoder)
    returns (r: Result<Request, StatementError>)
    ensures r.Ok? ==> r.value.parameters == ExecuteParameters(statement, consistencyLevel)
    ensures r.Ok? ==> r.value.statement.id == statement.id && r.value.statement.boundNames.None? &&
                      SerializedAs(statement.bindMarkerDefinitions, values, statement.driverProtocolVersion,
                                   validate, encode, Ok(r.value.statement.values))
    ensures r.Err? ==> r.error.InvalidRequest? &&
                       SerializedAs(statement.bindMarkerDefinitions, values, statement.driverProtocolVersion,
                                    validate, encode, Err(r.error.reason))
  {
    var executeParameters := ExecuteParameters(statement, consistencyLevel);
    var boundValues := SerializeBoundValues(statement, values, validate, encode);
    if boundValues.Err? {
      return Err(InvalidRequest(boundValues.error));
    }
    r := Ok(Request(Api.BoundStatement(statement.id, boundValues.value, None), executeParameters));
  }

  /** The ResultSet an execution completes with. */
  datatype ResultSet =
    | EmptyResult
      // ResultSet.empty(true), returned once schema agreement has been waited for
    | EmptyAfterSchemaAgreement
      // a PersistenceBackedResultSet over the rows
    | PagedRows(request: Request, version: DriverVersion, rows: seq<seq<Option<Engine.Bytes>>>, metadata: Api.ResultMetadata)

  /**
   * createResultSet: a Prepared result is an assertion failure, a schema change completes
   * after schema agreement with an empty result, Void and SetKeyspace with an empty result, and
   * rows become a paged result set over the request and the driver version.
   */
  function CreateResultSet(statement: PreparedStatement, result: Api.QueryResult, request: Request)
    : (r: Result<ResultSet, StatementError>)
    ensures r.Err? <==> result.body.Prepared?
    ensures r.Err? ==> r.error == UnexpectedPreparedResult
    ensures r == Ok(EmptyAfterSchemaAgreement) <==> result.body.SchemaChange?
    ensures r == Ok(EmptyResult) <==> result.body.Void? || result.body.SetKeyspace?
    ensures (r.Ok? && r.value.PagedRows?) <==> result.body.Rows?
    ensures r.Ok? && r.value.PagedRows? ==>
              r.value.request == request && r.value.version == statement.driverProtocolVersion &&
              r.value.rows == result.body.rows && r.value.metadata == result.body.metadata
  {
    match result.body
    case Prepared(_, _, _, _) => Err(UnexpectedPreparedResult)
    case SchemaChange(_) => Ok(EmptyAfterSchemaAgreement)
    case Void => Ok(EmptyResult)
    case SetKeyspace(_) => Ok(EmptyResult)
    case Rows(rows, metadata) => Ok(PagedRows(request, statement.driverProtocolVersion, rows, metadata))
  }
}
