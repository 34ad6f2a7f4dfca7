/**
 * The operation metadata that schema assembly consumes read-only. The discovery
 * phase extracts it from the Java classes and their annotations; this model
 * takes it as given.
 */
module Metadata {
  import opened Wrappers

  /** A Java type, identified by its canonical name. It is never inspected, only handed to the type mappers. */
  type NativeType = string

  /** A literal value as the metadata carries it. It is never interpreted. */
  type Value = string

  /**
   * The default value of an argument or input field. It is either not set, set to
   * null, or set to a value. Its value reads as null both when it is not set and
   * when it is set to null, so only IsSet tells the two apart.
   */
  datatype DefaultValue = Empty | NullValue | Given(v: Value) {
    predicate IsSet() { !Empty? }

    function GetValue(): Option<Value> {
      if Given? then Some(v) else None
    }
  }

  /** An argument of an operation; resolver-internal ones (an injected context, say) are not mappable. */
  datatype OperationArgument = OperationArgument(
    name: string,
    description: Option<string>,
    javaType: NativeType,
    defaultValue: DefaultValue,
    mappable: bool)

  /** A field or property of a Java type that becomes a field of an input object. */
  datatype InputField = InputField(
    name: string,
    description: Option<string>,
    javaType: NativeType,
    defaultValue: DefaultValue)

  /** An argument of a directive; unlike an operation argument it always carries a value. */
  datatype DirectiveArgument = DirectiveArgument(
    name: string,
    description: Option<string>,
    javaType: NativeType,
    value: Option<Value>,
    defaultValue: DefaultValue)

  /** A directive as the directive builder describes it. */
  datatype Directive = Directive(
    name: string,
    description: Option<string>,
    locations: set<string>,
    arguments: seq<DirectiveArgument>)

  /**
   * A query, mutation or subscription. `idResolverReturnType` is the declared
   * return type of the resolver that `getResolver("id")` finds, and None when it
   * finds none.
   */
  datatype Operation = Operation(
    name: string,
    description: Option<string>,
    deprecationReason: Option<string>,
    javaType: NativeType,
    arguments: seq<OperationArgument>,
    idResolverReturnType: Option<NativeType>)
}
