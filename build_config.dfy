/**
 * The parts of the shared build context that schema assembly reads but never
 * changes: the operation registry, the Relay settings, the type cache and
 * registry as they stand when the node query is considered, and the
 * collaborators whose code is not part of this model.
 */
module BuildConfig {
  import opened Wrappers
  import opened Metadata
  import opened Schema

  /** The Relay settings that assembly consults. */
  datatype RelayMappingConfig = RelayMappingConfig(
    relayCompliantMutations: bool,
    strictConnectionSpec: bool,
    wrapperFieldName: string,
    wrapperFieldDescription: Option<string>)

  /**
   * Collaborators whose code is outside this model, as functions.
   * - outputType, inputType: the recursive type mapping of a Java type (toGraphQLType, toGraphQLInputType).
   * - isRelayConnectionType: whether a mapped type is a Relay connection type.
   * - isRelayId: whether an argument is a Relay id.
   * - isSuperType(a, b): whether Java type a is a supertype of Java type b.
   * - fromGlobalId: the type name a Relay global id encodes, None when it cannot be decoded.
   */
  datatype Collaborators = Collaborators(
    outputType: NativeType -> GqlType,
    inputType: NativeType -> GqlType,
    isRelayConnectionType: GqlType -> bool,
    isRelayId: Argument -> bool,
    isSuperType: (NativeType, NativeType) -> bool,
    fromGlobalId: string -> Option<string>)

  /** The operations discovered for the three root types. */
  datatype OperationRegistry = OperationRegistry(
    rootQueries: seq<Operation>,
    mutations: seq<Operation>,
    subscriptions: seq<Operation>)

  /**
   * Everything in the build context but the code registry. `typeCache` resolves
   * a type name to the completed type; `typeRegistry` lists, per interface or
   * union name, the object types that can stand for it.
   */
  datatype Config = Config(
    operationRegistry: OperationRegistry,
    additionalDirectives: seq<Metadata.Directive>,
    relayMappingConfig: RelayMappingConfig,
    collaborators: Collaborators,
    typeCache: map<string, GqlType>,
    typeRegistry: map<string, seq<ObjectType>>)
  {
    /** The object types registered for an interface or union name; none for an unknown name. */
    function PossibleTypes(typeName: string): seq<ObjectType> {
      if typeName in typeRegistry then typeRegistry[typeName] else []
    }
  }
}
