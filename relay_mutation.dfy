/**
 * The Relay input-object mutation rewrite (toRelayMutation): a mapped mutation
 * field `m(args): T` becomes `m(input: mInput!): mPayload`, and the resolvers
 * the rewrite needs are recorded in the code registry.
 */
module RelayMutation {
  import opened Wrappers
  import opened Schema
  import opened BuildConfig

  const ClientMutationIdName := "clientMutationId"
  const InputArgumentName := "input"

  /** The non-null String type of both clientMutationId fields. */
  const ClientMutationIdType := NonNull(Scalar("String"))

  function PayloadTypeName(mutation: FieldDefinition): string { mutation.name + "Payload" }

  function InputTypeName(mutation: FieldDefinition): string { mutation.name + "Input" }

  /** The input field for one argument of the mutation: same name, description and type, the default only when set. */
  function ToInputField(arg: Argument): InputObjectField {
    InputObjectField(arg.name, arg.description, arg.ty,
      if arg.defaultValue.IsSet() then Default(arg.defaultValue.value) else NoDefault)
  }

  /** `mInput`: clientMutationId first, then one field per argument, in order. */
  function InputType(mutation: FieldDefinition): GqlType {
    var args := mutation.arguments;
    InputObject(InputTypeName(mutation),
      [InputObjectField(ClientMutationIdName, None, ClientMutationIdType, NoDefault)]
      + seq(|args|, i requires 0 <= i < |args| => ToInputField(args[i])))
  }

  /** The payload's own fields: an object type's fields verbatim, or else one wrapper field holding the value. */
  function OutputFields(mutation: FieldDefinition, relay: RelayMappingConfig): seq<FieldDefinition> {
    if mutation.ty.Object? then mutation.ty.fields
    else [FieldDefinition(relay.wrapperFieldName, relay.wrapperFieldDescription, None, mutation.ty, [], None)]
  }

  /** `mPayload`: clientMutationId first, then the output fields. */
  function PayloadType(mutation: FieldDefinition, relay: RelayMappingConfig): GqlType {
    Object(PayloadTypeName(mutation), [],
      [FieldDefinition(ClientMutationIdName, None, None, ClientMutationIdType, [], None)] + OutputFields(mutation, relay),
      None)
  }

  /**
   * The rewritten mutation: same name, type `<name>Payload`, and one argument
   * `input: <name>Input!`. The payload starts with `clientMutationId: String!`
   * followed by the object type's fields verbatim or by a single wrapper field
   * of the original type. The input object starts with `clientMutationId:
   * String!` followed by one field per original argument, in order, with its
   * name, description and type, and a default only when the argument has one.
   * The rewritten field keeps neither the description nor the deprecation.
   */
  function ToRelayMutationField(mutation: FieldDefinition, relay: RelayMappingConfig): (r: FieldDefinition)
    ensures r.name == mutation.name && r.description == None && r.deprecationReason == None
    ensures r.fetcher == None
    ensures r.ty.Object? && r.ty.mappedFrom == None
    ensures r.ty.Object? && r.ty.name == mutation.name + "Payload" && r.ty.interfaces == []
    ensures |r.ty.fields| >= 1 && r.ty.fields[0].name == ClientMutationIdName && r.ty.fields[0].ty == ClientMutationIdType
    ensures mutation.ty.Object? ==> r.ty.fields[1..] == mutation.ty.fields
    ensures !mutation.ty.Object? ==>
      (&& |r.ty.fields| == 2
       && r.ty.fields[1] == FieldDefinition(relay.wrapperFieldName, relay.wrapperFieldDescription, None, mutation.ty, [], None))
    ensures |r.ty.fields| >= 1 && r.ty.fields[0] == FieldDefinition(ClientMutationIdName, None, None, ClientMutationIdType, [], None)
    ensures |r.arguments| == 1 && r.arguments[0].name == InputArgumentName
    ensures r.arguments[0].ty.NonNull? && r.arguments[0].ty.wrapped.InputObject?
    ensures r.arguments[0] == Argument(InputArgumentName, None, r.arguments[0].ty, NoDefault, None)
    ensures |r.arguments[0].ty.wrapped.inputFields| >= 1
         && r.arguments[0].ty.wrapped.inputFields[0] == InputObjectField(ClientMutationIdName, None, ClientMutationIdType, NoDefault)
    ensures var input := r.arguments[0].ty.wrapped;
      && input.name == mutation.name + "Input"
      && |input.inputFields| == |mutation.arguments| + 1
      && input.inputFields[0].name == ClientMutationIdName
      && input.inputFields[0].ty == ClientMutationIdType
      && forall i | 0 <= i < |mutation.arguments| ::
           && input.inputFields[i + 1].name == mutation.arguments[i].name
           && input.inputFields[i + 1].description == mutation.arguments[i].description
           && input.inputFields[i + 1].ty == mutation.arguments[i].ty
           && (input.inputFields[i + 1].defaultValue.IsSet() <==> mutation.arguments[i].defaultValue.IsSet())
           && input.inputFields[i + 1].defaultValue == mutation.arguments[i].defaultValue
  {
    FieldDefinition(mutation.name, None, None, PayloadType(mutation, relay),
      [Argument(InputArgumentName, None, NonNull(InputType(mutation)), NoDefault, None)], None)
  }

  /** An input field read back as an argument definition, the way the wrapped resolver is handed it. */
  function AsArgument(f: InputObjectField): Argument {
    Argument(f.name, f.description, f.ty, f.defaultValue, None)
  }

  /**
   * The argument definitions a rewritten mutation's input object hands back to
   * the wrapped resolver: its fields after clientMutationId, read as arguments.
   */
  function InputArguments(relayMutation: FieldDefinition): seq<Argument> {
    if |relayMutation.arguments| == 1 && relayMutation.arguments[0].ty.NonNull?
       && relayMutation.arguments[0].ty.wrapped.InputObject? && |relayMutation.arguments[0].ty.wrapped.inputFields| >= 1
    then
      var fields := relayMutation.arguments[0].ty.wrapped.inputFields[1..];
      seq(|fields|, i requires 0 <= i < |fields| => AsArgument(fields[i]))
    else []
  }

  /** The rewrite loses no argument: the input object gives back the mutation's own argument definitions, in order. */
  lemma InputObjectRestoresArguments(mutation: FieldDefinition, relay: RelayMappingConfig)
    requires forall a | a in mutation.arguments :: a.value == None
    ensures InputArguments(ToRelayMutationField(mutation, relay)) == mutation.arguments
  {
    var r := InputArguments(ToRelayMutationField(mutation, relay));
    assert |r| == |mutation.arguments|;
    forall i | 0 <= i < |r| ensures r[i] == mutation.arguments[i] {
      var a := mutation.arguments[i];
      assert a in mutation.arguments;
      assert r[i] == AsArgument(ToInputField(a));
    }
  }

  /** The registry keys the rewrite writes, for a mutation under `parentType`. */
  function RelayCoordinates(parentType: string, mutation: FieldDefinition, relay: RelayMappingConfig): set<Coordinates> {
    {Coordinates(PayloadTypeName(mutation), ClientMutationIdName), Coordinates(parentType, mutation.name)}
    + if mutation.ty.Object? then {} else {Coordinates(PayloadTypeName(mutation), relay.wrapperFieldName)}
  }

  /**
   * The code registry after the rewrite: the wrapper field (only for a non-object
   * type) returns its source, the payload's clientMutationId reads the
   * submitted id, and the mutation itself runs the wrapped original resolver;
   * later writes win on a shared key, and every other entry is unchanged.
   */
  function RelayRegistrations(registry: map<Coordinates, Resolver>, parentType: string, mutation: FieldDefinition,
                              resolver: Resolver, relay: RelayMappingConfig): (r: map<Coordinates, Resolver>)
    ensures r.Keys == registry.Keys + RelayCoordinates(parentType, mutation, relay)
    ensures forall k | k in registry && k !in RelayCoordinates(parentType, mutation, relay) :: r[k] == registry[k]
    ensures r[Coordinates(parentType, mutation.name)] == RelayMutation(resolver)
    ensures Coordinates(PayloadTypeName(mutation), ClientMutationIdName) != Coordinates(parentType, mutation.name) ==>
      r[Coordinates(PayloadTypeName(mutation), ClientMutationIdName)] == ClientMutationId
    ensures (&& !mutation.ty.Object?
             && relay.wrapperFieldName != ClientMutationIdName
             && Coordinates(PayloadTypeName(mutation), relay.wrapperFieldName) != Coordinates(parentType, mutation.name)) ==>
      r[Coordinates(PayloadTypeName(mutation), relay.wrapperFieldName)] == ReturnSource
  {
    var payload := PayloadTypeName(mutation);
    var withWrapper := if mutation.ty.Object? then registry
                       else registry[Coordinates(payload, relay.wrapperFieldName) := ReturnSource];
    withWrapper[Coordinates(payload, ClientMutationIdName) := ClientMutationId]
               [Coordinates(parentType, mutation.name) := RelayMutation(resolver)]
  }
}
