/**
 * The GraphQL schema elements that assembly produces, as a closed universe of
 * types, plus the resolver table's keys and entries.
 */
module Schema {
  import opened Wrappers
  import Metadata

  type Value = Metadata.Value
  type NativeType = Metadata.NativeType

  /** The default of a schema argument or input field: never given, or given (None is an explicit null). */
  datatype InputDefault = NoDefault | Default(value: Option<Value>) {
    predicate IsSet() { Default? }
  }

  /**
   * A schema type. `Ref` is a lazy reference to a type still being built.
   * `mappedFrom` stands for the directive that marks an object type as mapped from a Java type.
   */
  datatype GqlType =
    | Object(name: string, interfaces: seq<string>, fields: seq<FieldDefinition>, mappedFrom: Option<NativeType>)
    | Interface(name: string)
    | Union(name: string)
    | Scalar(name: string)
    | InputObject(name: string, inputFields: seq<InputObjectField>)
    | Ref(name: string)
    | NonNull(wrapped: GqlType)
    | List(wrapped: GqlType)
  {
    /** Every type but the two wrappers has a name of its own. */
    predicate IsNamed() { !NonNull? && !List? }
  }

  /** The object types, which a type registry lists as the possible types of an interface or union. */
  type ObjectType = t: GqlType | t.Object? witness Object("", [], [], None)

  /** An argument of a field or directive; `value` is set only on directive arguments. */
  datatype Argument = Argument(
    name: string,
    description: Option<string>,
    ty: GqlType,
    defaultValue: InputDefault,
    value: Option<Value>)

  datatype InputObjectField = InputObjectField(
    name: string,
    description: Option<string>,
    ty: GqlType,
    defaultValue: InputDefault)

  /**
   * A field. `fetcher` is a resolver attached to the definition itself; only the
   * synthesized `node` query has one, every other resolver lives in the code registry.
   */
  datatype FieldDefinition = FieldDefinition(
    name: string,
    description: Option<string>,
    deprecationReason: Option<string>,
    ty: GqlType,
    arguments: seq<Argument>,
    fetcher: Option<Resolver>)

  datatype Directive = Directive(
    name: string,
    description: Option<string>,
    locations: set<string>,
    arguments: seq<Argument>)

  /**
   * The resolvers assembly wires. Each is named by what it does when a request runs.
   * - Execute: invokes the operation's Java method through the operation executor.
   * - ReturnSource: returns the parent object unchanged.
   * - ClientMutationId: reads `clientMutationId` from the request context, or else as a property of the parent.
   * - RelayMutation: exposes the fields of the `input` argument as top-level arguments and delegates to `wrapped`.
   * - NodeResolver: decodes a global id and delegates to the query the table names (see NodeDispatch.ResolveNode).
   */
  datatype Resolver =
    | Execute(operation: Metadata.Operation)
    | ReturnSource
    | ClientMutationId
    | RelayMutation(wrapped: Resolver)
    | NodeResolver(nodeQueriesByType: map<string, string>)

  /** The key of the code registry: a field of a parent type. */
  datatype Coordinates = Coordinates(parentType: string, fieldName: string)

  /** One layer of wrapping around a type. */
  datatype Wrapper = NonNullOf | ListOf

  /** The type `inner` inside the given wrappers, outermost first. */
  function Wrap(ws: seq<Wrapper>, inner: GqlType): GqlType {
    if ws == [] then inner
    else if ws[0] == NonNullOf then NonNull(Wrap(ws[1..], inner))
    else List(Wrap(ws[1..], inner))
  }

  /** The type `inner` inside k NonNull wrappers. */
  function NonNulls(k: nat, inner: GqlType): GqlType {
    if k == 0 then inner else NonNull(NonNulls(k - 1, inner))
  }

  /**
   * Strips NonNull wrappers only: the input is the result inside some number
   * of NonNull wrappers, and the result is not itself NonNull, which together
   * determine it.
   */
  function UnwrapNonNull(t: GqlType): (r: GqlType)
    ensures !r.NonNull?
    ensures !t.NonNull? ==> r == t
    ensures exists k: nat :: NonNulls(k, r) == t
    ensures Unwrap(r) == Unwrap(t)
  {
    if t.NonNull? then
      var r := UnwrapNonNull(t.wrapped);
      ghost var k: nat :| NonNulls(k, r) == t.wrapped;
      assert NonNulls(k + 1, r) == t;
      r
    else
      assert NonNulls(0, t) == t;
      t
  }

  /**
   * Strips every NonNull and List wrapper: the result is a named type and the
   * input is that type inside some stack of wrappers, which determines it.
   */
  function Unwrap(t: GqlType): (r: GqlType)
    ensures r.IsNamed()
    ensures exists ws :: Wrap(ws, r) == t
  {
    if t.NonNull? || t.List? then
      var r := Unwrap(t.wrapped);
      ghost var ws :| Wrap(ws, r) == t.wrapped;
      var w := if t.NonNull? then NonNullOf else ListOf;
      assert ([w] + ws)[1..] == ws;
      assert Wrap([w] + ws, r) == t;
      r
    else
      assert Wrap([], t) == t;
      t
  }

  /** Any stack of wrappers around a named type unwraps to that type: Unwrap inverts Wrap. */
  lemma {:induction false} UnwrapWrap(ws: seq<Wrapper>, inner: GqlType)
    requires inner.IsNamed()
    ensures Unwrap(Wrap(ws, inner)) == inner
    decreases |ws|
  {
    if ws != [] {
      UnwrapWrap(ws[1..], inner);
    }
  }

  /** Unwrapping sees through one more NonNull or List layer. */
  lemma UnwrapThroughWrappers(t: GqlType)
    ensures Unwrap(NonNull(t)) == Unwrap(t) && Unwrap(List(t)) == Unwrap(t)
  {
  }

  /** The first argument with the given name, as graphql-java's `getArgument(name)` finds it. */
  function FindArgument(args: seq<Argument>, name: string): (r: Option<Argument>)
    ensures r.None? <==> forall i | 0 <= i < |args| :: args[i].name != name
    ensures r.Some? ==> exists i | 0 <= i < |args| ::
      args[i] == r.value && args[i].name == name && forall j | 0 <= j < i :: args[j].name != name
  {
    if args == [] then None
    else if args[0].name == name then Some(args[0])
    else
      var r := FindArgument(args[1..], name);
      assert r.Some? ==> exists i | 0 <= i < |args[1..]| ::
        args[1..][i] == r.value && args[1..][i].name == name && forall j | 0 <= j < i :: args[1..][j].name != name;
      r
  }
}
