# Relay conventions of graphql-spqr's operation mapper

This project is a Dafny model of `OperationMapper`, the schema-assembly step of graphql-spqr. The model covers:

- how queries, mutations and subscriptions become root fields;
- how each field's resolver is recorded in the code registry under its (parent type, field name) coordinates;
- the Relay rules layered on top of that assembly:
  - the connection-argument compliance check (sections 4.1 and 4.2 of the Relay Cursor Connections Specification);
  - the rewrite of a mutation into the `<name>Input` / `<name>Payload` shape with a `clientMutationId`;
  - the type-name to query-name dispatch table behind the `node` root field of the GraphQL Global Object Identification Specification, and the resolver that uses it.

Schema types form a closed datatype (`Schema.GqlType`). The operation metadata produced by discovery is taken as given (`Metadata`). Everything the mapper obtains from code it does not own is a function-valued field of `BuildConfig.Collaborators`:

- the recursive type mappers;
- `GraphQLUtils.isRelayConnectionType` and `isRelayId`;
- `GenericTypeReflector.isSuperType`;
- `Relay.fromGlobalId`.

The mapper's state follows the source's own shape:

- The shared code registry is a `map` field of the class `OperationMapping.BuildContext`. It is updated in place by `DataFetcher`, which models graphql-java's `codeRegistry.dataFetcher`.
- The node dispatch table is built by a loop (`NodeDispatch.NodeQueriesByType`) that calls `put` and `putIfAbsent` on a map.
- `OperationMapping.Build` runs what the Java constructor runs, in the same order. A `MappingException` becomes an `Err` result.

Each method is proved against a specification function:

| method | specification function |
|---|---|
| `GenerateQueries` | `Queries` |
| `MapOperations` | `MapAll` and `RegisterAll` |
| `NodeQueriesByType` | `NodeTable`, the fold of `RegistrationOf` (the loop body for one query: skip, `put` or `putIfAbsent`) over the queries |

The lemmas then state what the source promises about those functions. The table lemmas (`NodeTableDomain` and the three after it) hold for the fold of any per-query registration function; `NodeTable` is that fold under `Registrations(cfg)`, which is `RegistrationOf` under the build configuration.

Modules, one file each:

| module | file |
|---|---|
| `Wrappers` | `wrappers.dfy` |
| `Metadata` | `metadata.dfy` |
| `Schema` | `schema.dfy` |
| `BuildConfig` | `build_config.dfy` |
| `ConnectionSpec` | `connection_spec.dfy` |
| `FieldMapping` | `field_mapping.dfy` |
| `RelayMutation` | `relay_mutation.dfy` |
| `NodeDispatch` | `node_dispatch.dfy` |
| `OperationMapping` | `operation_mapping.dfy` |

## Model

| member | source | states |
|---|---|---|
| Schema.UnwrapNonNull | src/main/java/io/leangen/graphql/generator/OperationMapper.java:413 | the input is the result inside some number of non-null wrappers and the result is not non-null, which pins it down; a type that is not non-null is returned as is; unwrapping the result fully gives what unwrapping the input gives |
| Schema.Unwrap | src/main/java/io/leangen/graphql/generator/OperationMapper.java:463 | the result is a named type and the input is that type inside some stack of non-null and list wrappers |
| Schema.UnwrapWrap | src/main/java/io/leangen/graphql/generator/OperationMapper.java:463 | any stack of wrappers around a named type unwraps to that named type |
| Schema.UnwrapThroughWrappers | src/main/java/io/leangen/graphql/generator/OperationMapper.java:463 | one more non-null or list layer does not change the unwrapped type |
| Schema.FindArgument | src/main/java/io/leangen/graphql/generator/OperationMapper.java:409-410 | `getArgument("id")`: None exactly when no argument has the name, otherwise the first argument with that name |
| ConnectionSpec.AnyNamed | src/main/java/io/leangen/graphql/generator/OperationMapper.java:453 | the inner `anyMatch`: true exactly when some argument has the name |
| ConnectionSpec.AllPresent | src/main/java/io/leangen/graphql/generator/OperationMapper.java:452-455 | the `allMatch` over a pagination set: true exactly when every spec argument's name is among the argument names |
| ConnectionSpec.AnyMistypedAs | src/main/java/io/leangen/graphql/generator/OperationMapper.java:461-463 | true exactly when some argument has the spec argument's name but a different unwrapped type name |
| ConnectionSpec.AnyMistyped | src/main/java/io/leangen/graphql/generator/OperationMapper.java:461-463 | true exactly when some spec argument has a mistyped namesake among the arguments |
| ConnectionSpec.SpecArgumentsMistyped | src/main/java/io/leangen/graphql/generator/OperationMapper.java:461-463 | over the four connection arguments, the mismatch test holds exactly when some argument is mistyped against the spec type of its name |
| ConnectionSpec.ValidateConnectionSpecCompliance | src/main/java/io/leangen/graphql/generator/OperationMapper.java:447-466 | "required arguments missing" exactly when neither the full forward set (after, first) nor the full backward set (before, last) is present. Otherwise "argument type mismatch" exactly when some argument named like a spec argument has another type. Otherwise it passes. Errors name the operation |
| ConnectionSpec.NonSpecArgumentIgnored | src/main/java/io/leangen/graphql/generator/OperationMapper.java:452-465 | inserting an argument whose name is not a connection argument, anywhere in the list, never changes the outcome |
| ConnectionSpec.ForwardPaginationAlonePasses | src/main/java/io/leangen/graphql/generator/OperationMapper.java:452-459 | `first: Int, after: String` alone passes: one full pagination set is enough |
| ConnectionSpec.IncompletePaginationFails | src/main/java/io/leangen/graphql/generator/OperationMapper.java:452-458 | `first` alone (half of the forward set, none of the backward set) fails with "required arguments missing" |
| ConnectionSpec.MissingReportedBeforeMismatch | src/main/java/io/leangen/graphql/generator/OperationMapper.java:457-465 | a lone `first` of the wrong type is reported as missing arguments, not as a type mismatch: the name check runs first |
| FieldMapping.CopyDefault | src/main/java/io/leangen/graphql/generator/OperationMapper.java:238-240 | the default is given to the builder only when it is set, with the value `getValue` returns |
| FieldMapping.CopyDefaultInjective | src/main/java/io/leangen/graphql/generator/OperationMapper.java:238-240 | the guarded copy keeps unset, explicit null and a value apart |
| FieldMapping.ToGraphQLArgument | src/main/java/io/leangen/graphql/generator/OperationMapper.java:229-242 | keeps the name and description, takes the mapped input type, and carries a default only when the argument's default is set |
| FieldMapping.ToGraphQLInputField | src/main/java/io/leangen/graphql/generator/OperationMapper.java:192-206 | keeps the name and description, takes the mapped input type, and carries a default only when the field's default is set |
| FieldMapping.ToDirectiveArgument | src/main/java/io/leangen/graphql/generator/OperationMapper.java:260-274 | like an operation argument, and it also keeps the argument's value |
| FieldMapping.ToGraphQLDirective | src/main/java/io/leangen/graphql/generator/OperationMapper.java:251-258 | keeps the name, description and locations, and has one argument per directive argument, in order, each the `toGraphQLArgument` of the directive argument at the same index (name, description, mapped type, value, default only when set) |
| FieldMapping.MappableArguments | src/main/java/io/leangen/graphql/generator/OperationMapper.java:135-136 | an argument reaches the schema exactly when it is one of the operation's arguments and is mappable |
| FieldMapping.MappableArgumentsConcat | src/main/java/io/leangen/graphql/generator/OperationMapper.java:135-136 | filtering a concatenation concatenates the filtered pieces: the filter keeps the order and the number of occurrences of the mappable arguments |
| FieldMapping.MappableArgumentsSingle | src/main/java/io/leangen/graphql/generator/OperationMapper.java:136 | a single argument passes the filter exactly when it is mappable |
| FieldMapping.FieldArguments | src/main/java/io/leangen/graphql/generator/OperationMapper.java:135-138 | one schema argument per mappable argument, in order. As a set, each comes from a mappable argument and every mappable argument yields one, and a set default traces back to a set default of the argument of the same name |
| FieldMapping.ToGraphQLField | src/main/java/io/leangen/graphql/generator/OperationMapper.java:123-145 | the field keeps the operation's name, description and deprecation and takes the mapped output type. Its arguments are the mapped mappable arguments in the operation's order (`FieldArguments`), and a default appears only where the operation's argument has one set. An error is exactly the compliance check's own violation, category included. The check runs only for a Relay connection type in strict mode, and then the field is built exactly when the check passes |
| RelayMutation.ToRelayMutationField | src/main/java/io/leangen/graphql/generator/OperationMapper.java:276-349 | see the note below the table |
| RelayMutation.InputObjectRestoresArguments | src/main/java/io/leangen/graphql/generator/OperationMapper.java:292-314 | reading the input object's fields after `clientMutationId` back as arguments gives the original argument list: the rewrite loses no argument, name, type or default |
| RelayMutation.RelayRegistrations | src/main/java/io/leangen/graphql/generator/OperationMapper.java:289-346 | see the note below the table |
| NodeDispatch.EligibleNames | src/main/java/io/leangen/graphql/generator/OperationMapper.java:421-433 | a possible type's name is offered exactly when it implements Node. For a union it must also be a mapped type and a subtype of the id resolver's return type |
| NodeDispatch.PutAllIfAbsent | src/main/java/io/leangen/graphql/generator/OperationMapper.java:424-433 | the `putIfAbsent` run adds the names that are not yet keys, mapped to the query, and never replaces an existing entry |
| NodeDispatch.NodeTableDomain | src/main/java/io/leangen/graphql/generator/OperationMapper.java:405-437 | a type name is a key of the table exactly when some query offers it: the query has a Relay `id` argument and an `id` resolver, and its unwrapped type is a Node object with that name, or an interface or union whose eligible possible types include it |
| NodeDispatch.NodeTableValues | src/main/java/io/leangen/graphql/generator/OperationMapper.java:405-437 | every entry names a query that offers the type |
| NodeDispatch.NodeTableLastDirectMatchWins | src/main/java/io/leangen/graphql/generator/OperationMapper.java:417-419 | when a query matches a Node object type directly and no later query does, the type maps to that query (`put` overwrites) |
| NodeDispatch.NodeTableFirstDerivedMatchWins | src/main/java/io/leangen/graphql/generator/OperationMapper.java:420-433 | when the first query offering a type reaches it through an interface or union and no later query matches it directly, it keeps that first query (`putIfAbsent`) |
| NodeDispatch.PutEligibleIfAbsent | src/main/java/io/leangen/graphql/generator/OperationMapper.java:421-433 | the stream over the possible types leaves the table that `PutAllIfAbsent` specifies for the eligible names |
| NodeDispatch.NodeQueriesByType | src/main/java/io/leangen/graphql/generator/OperationMapper.java:399-439 | the indexed loop builds exactly `NodeTable`, about which the lemmas above are proved |
| NodeDispatch.ResolveNode | src/main/java/io/leangen/graphql/generator/OperationMapper.java:381-396 | an undecodable id is an invalid-id error; a decoded type name missing from the table is a not-a-node-type error; otherwise the answer is the query the table names |
| OperationMapping.MapAll | src/main/java/io/leangen/graphql/generator/OperationMapper.java:97-109 | the stream over operations succeeds exactly when every operation maps, and then yields their fields in order; otherwise it throws the error of the first operation that fails |
| OperationMapping.MapAllPrefixError | src/main/java/io/leangen/graphql/generator/OperationMapper.java:72-75 | once a prefix of the operations throws, the whole stream throws the same error |
| OperationMapping.DirectStep | src/main/java/io/leangen/graphql/generator/OperationMapper.java:155-160 | a directly mapped operation registers its resolver under (parent type, its own name) and changes nothing else |
| OperationMapping.KeyedRegistrationsFrame | src/main/java/io/leangen/graphql/generator/OperationMapper.java:155-160 | registering a list of operations adds exactly their (parent type, name) coordinates and leaves every other entry alone |
| OperationMapping.KeyedRegistrationsLastWins | src/main/java/io/leangen/graphql/generator/OperationMapper.java:155-160 | among operations sharing a name, the last one's resolver is the one registered |
| OperationMapping.DirectRegistrations | src/main/java/io/leangen/graphql/generator/OperationMapper.java:155-160 | after direct mapping, the registry holds every operation's coordinates, the last operation of each name wins, and no other entry changes |
| OperationMapping.RegisteredUnderName | src/main/java/io/leangen/graphql/generator/OperationMapper.java:155-160 | after direct mapping, the coordinates of each operation hold the resolver of an operation of that name |
| OperationMapping.NodeDispatchReachesRegisteredQuery | src/main/java/io/leangen/graphql/generator/OperationMapper.java:381-396 | when the node resolver accepts an id, the query it names offers the decoded type, and the query root has a resolver registered under that name, so the delegation in lines 392-395 finds one |
| OperationMapping.Queries | src/main/java/io/leangen/graphql/generator/OperationMapper.java:71-86 | the mapped root queries, then the `node` field exactly when no root query is named `node` and the dispatch table is non-empty |
| OperationMapping.Mutations | src/main/java/io/leangen/graphql/generator/OperationMapper.java:97-103 | every mutation is mapped, and rewritten into the Relay shape exactly when Relay-compliant mutations are configured; on failure the error is that of the first mutation whose mapping fails |
| OperationMapping.Directives | src/main/java/io/leangen/graphql/generator/OperationMapper.java:111-121 | one schema directive per additional directive, in order, each mapped by `toGraphQLDirective` |
| OperationMapping.Subscriptions | src/main/java/io/leangen/graphql/generator/OperationMapper.java:105-109 | every subscription is mapped directly, whatever the Relay configuration; on failure the error is that of the first subscription whose mapping fails |
| OperationMapping.BuildContext.DataFetcher | src/main/java/io/leangen/graphql/generator/OperationMapper.java:158 | a registration replaces whatever the coordinates held and changes nothing else |
| OperationMapping.ToGraphQLFieldWithResolver | src/main/java/io/leangen/graphql/generator/OperationMapper.java:155-160 | returns the mapped field and registers the operation's resolver under (parent type, field name), only when the mapping succeeds |
| OperationMapping.ToRelayMutation | src/main/java/io/leangen/graphql/generator/OperationMapper.java:276-349 | returns the rewritten field and leaves the registry exactly as `RelayRegistrations` specifies |
| OperationMapping.MapOne | src/main/java/io/leangen/graphql/generator/OperationMapper.java:98-101 | one step of the mutation stream: the rewrite in Relay mode, the direct mapping with registration otherwise |
| OperationMapping.MapOperations | src/main/java/io/leangen/graphql/generator/OperationMapper.java:97-109 | the stream yields `MapAll`, and on success the registry is the `RegisterAll` fold of the per-operation registrations |
| OperationMapping.GenerateQueries | src/main/java/io/leangen/graphql/generator/OperationMapper.java:71-86 | yields `Queries` and registers every root query |
| OperationMapping.GenerateMutations | src/main/java/io/leangen/graphql/generator/OperationMapper.java:97-103 | yields `Mutations` and registers every mutation in the configured mode |
| OperationMapping.GenerateSubscriptions | src/main/java/io/leangen/graphql/generator/OperationMapper.java:105-109 | yields `Subscriptions` and registers every subscription directly |
| OperationMapping.OperationMapper.constructor | src/main/java/io/leangen/graphql/generator/OperationMapper.java:44-47 | holds the four lists it is given |
| OperationMapping.Build | src/main/java/io/leangen/graphql/generator/OperationMapper.java:55-61 | runs queries, then mutations, then subscriptions, then directives. On success the lists are as specified and the registry holds the three rounds of registrations in that order. The first error aborts the build and is the one reported |

Notes on the longer contracts:

- **RelayMutation.ToRelayMutationField.** The rewritten mutation:
  - keeps the name, has no description or deprecation, and carries no resolver of its own (its resolver goes to the code registry);
  - both `clientMutationId` fields and the `input` argument carry no description, default or resolver; the payload field takes no arguments, and the payload type is not mapped from a Java type;
  - returns an object named `<name>Payload` whose first field is `clientMutationId: String!`. That field is followed by the original object type's fields verbatim, or, when the original type is not an object, by a single wrapper field with the configured name and description, the original type and no arguments;
  - takes exactly one argument, `input`, whose type is a non-null `<name>Input`. That input object starts with `clientMutationId: String!` and then has one field per original argument, in order, with the same name, description and type, and the argument's own default (present only when set).
- **RelayMutation.RelayRegistrations.** The mutation's coordinates get the wrapping resolver. `(<name>Payload, clientMutationId)` gets the clientMutationId resolver. For a non-object type, `(<name>Payload, wrapper)` gets a resolver that returns its source unchanged. The registry gains exactly those coordinates, and no other entry changes.

## Left out

- Type mapping: `toGraphQLType` and `toGraphQLInputType` (lines 162-182 and 208-227) are the `outputType` and `inputType` collaborators. The model does not include type-mapper selection, `TypeMappingEnvironment` or the uniqueness validation and its logging (lines 441-445). The type cache's completion of references is the fixed `typeCache` map, and `resolveTypeReferences` (lines 60 and 77) is not modelled.
- Directives attached to fields, arguments and input fields (`toGraphQLDirectives`, `Directives.mappedOperation`, `mappedInputField`), lines 130-133, 197-200, 235-236 and 267-268. They are outside the Relay rules and come from builders that are not part of this model.
- `generateDirectives` (lines 111-121): the directive builder and the abstract-input lookup are not part of this model. The additional directives enter already built, and only `toGraphQLDirective` is applied to them (`OperationMapping.Directives`).
- The transformer pipeline (`buildContext.transformers.transform`) is taken as the identity.
- `createResolver` and `OperationExecutor` (lines 361-368). The resolver of an operation is the tag `Execute(operation)`, and the value mappers are not modelled.
- Request-time behaviour of the resolvers is not modelled. This covers the `clientMutationId` context handling and `RelayDataFetchingEnvironmentDecorator` (lines 324-330 and 341-345), and `getSource`. These resolvers appear only as tags in the registry.
- graphql-java's builders are not modelled. A builder keyed by name keeps one field per name, but the model keeps fields and arguments as plain sequences, so duplicate names are not merged. Schema validation by graphql-java is also not modelled.
- `Operation.getResolver("id")` is reduced to the declared return type of that resolver (`idResolverReturnType`), and `Directives.isMappedType` / `getMappedType` to the optional `mappedFrom` of an object type.
- `Relay.nodeField` belongs to graphql-java. `NodeDispatch.NodeField` builds `node(id: ID!): Node` with the dispatching resolver attached to the field itself rather than to the code registry.
- Exceptions thrown by the collaborators are not modelled. Only the `MappingException`s of the compliance check are modelled. The node resolver's `IllegalArgumentException`s are modelled as the `NodeError` results of `ResolveNode`.
- The getters (lines 473-492) are the `OperationMapper` class's constant fields.
