/**
 * Schema assembly (OperationMapper): maps the root queries, mutations and
 * subscriptions in that order, registers each field's resolver in the shared
 * code registry under (parent type, field name), rewrites mutations into the
 * Relay input-object shape when configured, and synthesizes the Relay `node`
 * query when no root query is named `node` and some query can fetch a Node
 * type by id.
 */
module OperationMapping {
  import opened Wrappers
  import opened Metadata
  import opened Schema
  import opened BuildConfig
  import opened ConnectionSpec
  import opened FieldMapping
  import opened RelayMutation
  import opened NodeDispatch

  /** How an operation is mapped: directly, or rewritten into a Relay input-object mutation. */
  datatype Mode = Direct | RelayCompliant

  /** The field one operation becomes. */
  function OperationField(op: Operation, cfg: Config, mode: Mode): Result<FieldDefinition, MappingError> {
    match ToGraphQLField(op, cfg)
    case Err(e) => Err(e)
    case Ok(field) => Ok(if mode == RelayCompliant then ToRelayMutationField(field, cfg.relayMappingConfig) else field)
  }

  /** The code registry after one operation is mapped under `parentType`. */
  function Register(registry: map<Coordinates, Resolver>, parentType: string, op: Operation, cfg: Config, mode: Mode)
    : map<Coordinates, Resolver>
  {
    match ToGraphQLField(op, cfg)
    case Err(_) => registry
    case Ok(field) =>
      if mode == RelayCompliant then RelayRegistrations(registry, parentType, field, Execute(op), cfg.relayMappingConfig)
      else registry[Coordinates(parentType, field.name) := Execute(op)]
  }

  /** The per-operation mapping a generate method applies. */
  function Mapper(cfg: Config, mode: Mode): Operation -> Result<FieldDefinition, MappingError> {
    op => OperationField(op, cfg, mode)
  }

  /** The per-operation registry update a generate method applies under `parentType`. */
  function Registrar(parentType: string, cfg: Config, mode: Mode)
    : (map<Coordinates, Resolver>, Operation) -> map<Coordinates, Resolver>
  {
    (registry, op) => Register(registry, parentType, op, cfg, mode)
  }

  /**
   * The fields of a list of operations, in order. The first operation whose
   * mapping throws aborts the rest, and its error is the result.
   */
  function MapAll(ops: seq<Operation>, mapOne: Operation -> Result<FieldDefinition, MappingError>)
    : (r: Result<seq<FieldDefinition>, MappingError>)
    ensures r.Ok? <==> forall i | 0 <= i < |ops| :: mapOne(ops[i]).Ok?
    ensures r.Ok? ==> |r.value| == |ops| && forall i | 0 <= i < |ops| :: mapOne(ops[i]) == Ok(r.value[i])
    ensures r.Err? ==> exists i | 0 <= i < |ops| ::
      mapOne(ops[i]) == Err(r.error) && forall j | 0 <= j < i :: mapOne(ops[j]).Ok?
    decreases |ops|
  {
    if ops == [] then Ok([])
    else
      var init := ops[..|ops| - 1];
      assert forall i | 0 <= i < |init| :: init[i] == ops[i];
      match MapAll(init, mapOne)
      case Err(e) => Err(e)
      case Ok(fields) =>
        match mapOne(ops[|ops| - 1])
        case Err(e) => Err(e)
        case Ok(field) => Ok(fields + [field])
  }

  /** The code registry after every operation of the list is registered, in order. */
  function RegisterAll(registry: map<Coordinates, Resolver>, ops: seq<Operation>,
                       registerOne: (map<Coordinates, Resolver>, Operation) -> map<Coordinates, Resolver>)
    : map<Coordinates, Resolver>
    decreases |ops|
  {
    if ops == [] then registry
    else registerOne(RegisterAll(registry, ops[..|ops| - 1], registerOne), ops[|ops| - 1])
  }

  /** No root query is named `node`, so none is provided explicitly. */
  predicate NoExplicitNodeQuery(rootQueries: seq<Operation>) {
    forall q | q in rootQueries :: q.name != NodeQueryName
  }

  /**
   * generateQueries: the mapped root queries, followed by the node query
   * exactly when no root query is named `node` and the dispatch table of
   * node-fetching queries is non-empty.
   */
  function Queries(cfg: Config): (r: Result<seq<FieldDefinition>, MappingError>)
    ensures var rootQueries := cfg.operationRegistry.rootQueries;
      var mapped := MapAll(rootQueries, Mapper(cfg, Direct));
      && (r.Err? <==> mapped.Err?)
      && (r.Err? ==> r.error == mapped.error)
      && (r.Ok? ==> && |rootQueries| <= |r.value| <= |rootQueries| + 1
                    && r.value[..|rootQueries|] == mapped.value
                    && (|r.value| == |rootQueries| + 1 <==>
                          NoExplicitNodeQuery(rootQueries) && NodeTable(rootQueries, mapped.value, cfg) != map[])
                    && (|r.value| == |rootQueries| + 1 ==>
                          r.value[|rootQueries|] == NodeField(NodeTable(rootQueries, mapped.value, cfg))))
  {
    var rootQueries := cfg.operationRegistry.rootQueries;
    match MapAll(rootQueries, Mapper(cfg, Direct))
    case Err(e) => Err(e)
    case Ok(queries) =>
      var nodeQueriesByType := NodeTable(rootQueries, queries, cfg);
      if NoExplicitNodeQuery(rootQueries) && nodeQueriesByType != map[] then
        assert (queries + [NodeField(nodeQueriesByType)])[..|rootQueries|] == queries;
        Ok(queries + [NodeField(nodeQueriesByType)])
      else
        assert queries[..|rootQueries|] == queries;
        Ok(queries)
  }

  /** The mode mutations are mapped in. */
  function MutationMode(cfg: Config): Mode {
    if cfg.relayMappingConfig.relayCompliantMutations then RelayCompliant else Direct
  }

  /**
   * generateMutations: every mutation is mapped, and rewritten into the Relay
   * input-object shape exactly when Relay-compliant mutations are configured.
   */
  function Mutations(cfg: Config): (r: Result<seq<FieldDefinition>, MappingError>)
    ensures var mutations := cfg.operationRegistry.mutations;
      && (r.Ok? <==> forall i | 0 <= i < |mutations| :: ToGraphQLField(mutations[i], cfg).Ok?)
      && (r.Ok? ==> && |r.value| == |mutations|
                    && forall i | 0 <= i < |mutations| ::
                         r.value[i] == if cfg.relayMappingConfig.relayCompliantMutations
                                       then ToRelayMutationField(ToGraphQLField(mutations[i], cfg).value, cfg.relayMappingConfig)
                                       else ToGraphQLField(mutations[i], cfg).value)
    ensures var mutations := cfg.operationRegistry.mutations;
      r.Err? ==> exists i | 0 <= i < |mutations| ::
        ToGraphQLField(mutations[i], cfg) == Err(r.error) && forall j | 0 <= j < i :: ToGraphQLField(mutations[j], cfg).Ok?
  {
    MapAll(cfg.operationRegistry.mutations, Mapper(cfg, MutationMode(cfg)))
  }

  /** generateSubscriptions: every subscription is mapped directly, whatever the Relay configuration. */
  function Subscriptions(cfg: Config): (r: Result<seq<FieldDefinition>, MappingError>)
    ensures var subscriptions := cfg.operationRegistry.subscriptions;
      && (r.Ok? <==> forall i | 0 <= i < |subscriptions| :: ToGraphQLField(subscriptions[i], cfg).Ok?)
      && (r.Ok? ==> && |r.value| == |subscriptions|
                    && forall i | 0 <= i < |subscriptions| :: Ok(r.value[i]) == ToGraphQLField(subscriptions[i], cfg))
    ensures var subscriptions := cfg.operationRegistry.subscriptions;
      r.Err? ==> exists i | 0 <= i < |subscriptions| ::
        ToGraphQLField(subscriptions[i], cfg) == Err(r.error) && forall j | 0 <= j < i :: ToGraphQLField(subscriptions[j], cfg).Ok?
  {
    MapAll(cfg.operationRegistry.subscriptions, Mapper(cfg, Direct))
  }

  /** generateDirectives: one schema directive per additional directive, in order. */
  function Directives(cfg: Config): (r: seq<Schema.Directive>)
    ensures |r| == |cfg.additionalDirectives|
    ensures forall i | 0 <= i < |r| :: r[i] == ToGraphQLDirective(cfg.additionalDirectives[i], cfg.collaborators)
  {
    var additional := cfg.additionalDirectives;
    seq(|additional|, i requires 0 <= i < |additional| => ToGraphQLDirective(additional[i], cfg.collaborators))
  }

  /** Once some prefix of the operations throws, the whole list throws the same error. */
  lemma {:induction false} MapAllPrefixError(ops: seq<Operation>, k: nat, mapOne: Operation -> Result<FieldDefinition, MappingError>)
    requires k <= |ops| && MapAll(ops[..k], mapOne).Err?
    ensures MapAll(ops, mapOne) == MapAll(ops[..k], mapOne)
    decreases |ops| - k
  {
    if k < |ops| {
      assert ops[..k + 1][..k] == ops[..k];
      MapAllPrefixError(ops, k + 1, mapOne);
    } else {
      assert ops[..k] == ops;
    }
  }

  /** A directly mapped operation registers its resolver under (parentType, its name) and nothing else. */
  lemma DirectStep(registry: map<Coordinates, Resolver>, parentType: string, op: Operation, cfg: Config)
    requires ToGraphQLField(op, cfg).Ok?
    ensures Registrar(parentType, cfg, Direct)(registry, op) == registry[Coordinates(parentType, op.name) := Execute(op)]
  {
  }

  /** The coordinates direct mapping writes for a list of operations. */
  function DirectCoordinates(parentType: string, ops: seq<Operation>): set<Coordinates> {
    set op | op in ops :: Coordinates(parentType, op.name)
  }

  /**
   * Registering each operation of a list under (parentType, its name) adds
   * exactly those coordinates and leaves every other entry as it was.
   */
  lemma {:induction false} KeyedRegistrationsFrame(registry: map<Coordinates, Resolver>, parentType: string, ops: seq<Operation>,
                                                   registerOne: (map<Coordinates, Resolver>, Operation) -> map<Coordinates, Resolver>)
    requires forall before, op | op in ops :: registerOne(before, op) == before[Coordinates(parentType, op.name) := Execute(op)]
    ensures RegisterAll(registry, ops, registerOne).Keys == registry.Keys + DirectCoordinates(parentType, ops)
    ensures forall k | k in registry && k !in DirectCoordinates(parentType, ops) :: RegisterAll(registry, ops, registerOne)[k] == registry[k]
    decreases |ops|
  {
    if ops != [] {
      var init, last := ops[..|ops| - 1], ops[|ops| - 1];
      assert forall op | op in init :: op in ops;
      KeyedRegistrationsFrame(registry, parentType, init, registerOne);
      assert DirectCoordinates(parentType, ops) == DirectCoordinates(parentType, init) + {Coordinates(parentType, last.name)} by {
        assert forall op :: op in ops <==> op in init || op == last;
      }
    }
  }

  /** Registering each operation of a list under (parentType, its name): the last operation of a name wins. */
  lemma {:induction false} KeyedRegistrationsLastWins(registry: map<Coordinates, Resolver>, parentType: string, ops: seq<Operation>,
                                                      registerOne: (map<Coordinates, Resolver>, Operation) -> map<Coordinates, Resolver>)
    requires forall before, op | op in ops :: registerOne(before, op) == before[Coordinates(parentType, op.name) := Execute(op)]
    ensures forall i | 0 <= i < |ops| && (forall j | i < j < |ops| :: ops[j].name != ops[i].name) ::
      && Coordinates(parentType, ops[i].name) in RegisterAll(registry, ops, registerOne)
      && RegisterAll(registry, ops, registerOne)[Coordinates(parentType, ops[i].name)] == Execute(ops[i])
    decreases |ops|
  {
    if ops != [] {
      var init, last := ops[..|ops| - 1], ops[|ops| - 1];
      assert forall i | 0 <= i < |init| :: init[i] == ops[i];
      assert forall op | op in init :: op in ops;
      KeyedRegistrationsLastWins(registry, parentType, init, registerOne);
      assert RegisterAll(registry, ops, registerOne)
        == RegisterAll(registry, init, registerOne)[Coordinates(parentType, last.name) := Execute(last)];
      forall i | 0 <= i < |ops| - 1 && (forall j | i < j < |ops| :: ops[j].name != ops[i].name)
        ensures && Coordinates(parentType, ops[i].name) in RegisterAll(registry, ops, registerOne)
                && RegisterAll(registry, ops, registerOne)[Coordinates(parentType, ops[i].name)] == Execute(ops[i])
      {
        assert forall j | i < j < |init| :: init[j].name != init[i].name;
        assert last.name != ops[i].name;
      }
    }
  }

  /**
   * Direct mapping registers every operation under (parentType, its name): the
   * last operation of a name wins, and no other entry changes.
   */
  lemma DirectRegistrations(registry: map<Coordinates, Resolver>, parentType: string, ops: seq<Operation>, cfg: Config)
    requires MapAll(ops, Mapper(cfg, Direct)).Ok?
    ensures RegisterAll(registry, ops, Registrar(parentType, cfg, Direct)).Keys == registry.Keys + DirectCoordinates(parentType, ops)
    ensures forall k | k in registry && k !in DirectCoordinates(parentType, ops) ::
      RegisterAll(registry, ops, Registrar(parentType, cfg, Direct))[k] == registry[k]
    ensures forall i | 0 <= i < |ops| && (forall j | i < j < |ops| :: ops[j].name != ops[i].name) ::
      RegisterAll(registry, ops, Registrar(parentType, cfg, Direct))[Coordinates(parentType, ops[i].name)] == Execute(ops[i])
  {
    forall before, op | op in ops
      ensures Registrar(parentType, cfg, Direct)(before, op) == before[Coordinates(parentType, op.name) := Execute(op)]
    {
      assert Mapper(cfg, Direct)(op).Ok?;
      DirectStep(before, parentType, op, cfg);
    }
    KeyedRegistrationsFrame(registry, parentType, ops, Registrar(parentType, cfg, Direct));
    KeyedRegistrationsLastWins(registry, parentType, ops, Registrar(parentType, cfg, Direct));
  }

  /**
   * The node query reaches a registered resolver: when the synthesized node
   * resolver accepts an id, the query it delegates to is a root query that
   * offers the decoded type, and (query root, that name) holds the resolver
   * of a root query of that name once the root queries are registered.
   */
  lemma NodeDispatchReachesRegisteredQuery(cfg: Config, queryRoot: string, registry: map<Coordinates, Resolver>, id: string)
    requires MapAll(cfg.operationRegistry.rootQueries, Mapper(cfg, Direct)).Ok?
    requires ResolveNode(NodeTable(cfg.operationRegistry.rootQueries, MapAll(cfg.operationRegistry.rootQueries, Mapper(cfg, Direct)).value, cfg),
                         cfg.collaborators.fromGlobalId, id).Ok?
    ensures var rootQueries := cfg.operationRegistry.rootQueries;
      var queries := MapAll(rootQueries, Mapper(cfg, Direct)).value;
      var target := ResolveNode(NodeTable(rootQueries, queries, cfg), cfg.collaborators.fromGlobalId, id).value;
      var registered := RegisterAll(registry, rootQueries, Registrar(queryRoot, cfg, Direct));
      && (exists i | 0 <= i < |rootQueries| ::
            rootQueries[i].name == target && OfferedBy(rootQueries, queries, Registrations(cfg), i, cfg.collaborators.fromGlobalId(id).value))
      && Coordinates(queryRoot, target) in registered
      && registered[Coordinates(queryRoot, target)].Execute?
      && registered[Coordinates(queryRoot, target)].operation in rootQueries
      && registered[Coordinates(queryRoot, target)].operation.name == target
  {
    var rootQueries := cfg.operationRegistry.rootQueries;
    var queries := MapAll(rootQueries, Mapper(cfg, Direct)).value;
    var typeName := cfg.collaborators.fromGlobalId(id).value;
    NodeTableValues(rootQueries, queries, |rootQueries|, Registrations(cfg), typeName);
    var i :| 0 <= i < |rootQueries| && OfferedBy(rootQueries, queries, Registrations(cfg), i, typeName)
             && NodeTable(rootQueries, queries, cfg)[typeName] == rootQueries[i].name;
    RegisteredUnderName(registry, queryRoot, rootQueries, cfg, i);
  }

  /** After direct mapping, (parentType, name of operation i) holds the resolver of an operation of that name. */
  lemma RegisteredUnderName(registry: map<Coordinates, Resolver>, parentType: string, ops: seq<Operation>, cfg: Config, i: nat)
    requires MapAll(ops, Mapper(cfg, Direct)).Ok? && i < |ops|
    ensures var registered := RegisterAll(registry, ops, Registrar(parentType, cfg, Direct));
      && Coordinates(parentType, ops[i].name) in registered
      && registered[Coordinates(parentType, ops[i].name)].Execute?
      && registered[Coordinates(parentType, ops[i].name)].operation in ops
      && registered[Coordinates(parentType, ops[i].name)].operation.name == ops[i].name
  {
    DirectRegistrations(registry, parentType, ops, cfg);
    var last := LastNamed(ops, i);
    assert ops[last] in ops && ops[i] in ops;
  }

  /** The index of the last operation that shares the name of operation i. */
  function LastNamed(ops: seq<Operation>, i: nat): (r: nat)
    requires i < |ops|
    ensures i <= r < |ops| && ops[r].name == ops[i].name
    ensures forall j | r < j < |ops| :: ops[j].name != ops[i].name
    decreases |ops| - i
  {
    var later := NextNamed(ops, i, i + 1);
    if later == |ops| then i else LastNamed(ops, later)
  }

  /** The first index from `from` on whose operation shares the name of operation i, or |ops| when none does. */
  function NextNamed(ops: seq<Operation>, i: nat, from: nat): (r: nat)
    requires i < |ops| && i < from <= |ops|
    ensures from <= r <= |ops|
    ensures r < |ops| ==> ops[r].name == ops[i].name
    ensures forall j | from <= j < r :: ops[j].name != ops[i].name
    decreases |ops| - from
  {
    if from == |ops| || ops[from].name == ops[i].name then from else NextNamed(ops, i, from + 1)
  }

  /** The shared build context: fixed configuration, and the code registry that assembly fills. */
  class BuildContext {
    const config: Config
    var codeRegistry: map<Coordinates, Resolver>

    constructor(config: Config)
      ensures this.config == config && codeRegistry == map[]
    {
      this.config := config;
      codeRegistry := map[];
    }

    /** codeRegistry.dataFetcher(coordinates, resolver): a later registration replaces an earlier one. */
    method DataFetcher(coordinates: Coordinates, resolver: Resolver)
      modifies this
      ensures codeRegistry == old(codeRegistry)[coordinates := resolver]
    {
      codeRegistry := codeRegistry[coordinates := resolver];
    }
  }

  /** toGraphQLField(parentType, operation): maps the operation, then registers its resolver under (parentType, field name). */
  method ToGraphQLFieldWithResolver(parentType: string, op: Operation, ctx: BuildContext)
    returns (r: Result<FieldDefinition, MappingError>)
    modifies ctx
    ensures r == ToGraphQLField(op, ctx.config)
    ensures ctx.codeRegistry == Register(old(ctx.codeRegistry), parentType, op, ctx.config, Direct)
  {
    r := ToGraphQLField(op, ctx.config);
    if r.Ok? {
      ctx.DataFetcher(Coordinates(parentType, r.value.name), Execute(op));
    }
  }

  /** toRelayMutation: rewrites a mapped mutation and registers the wrapper, clientMutationId and mutation resolvers. */
  method ToRelayMutation(parentType: string, mutation: FieldDefinition, resolver: Resolver, ctx: BuildContext)
    returns (r: FieldDefinition)
    modifies ctx
    ensures r == ToRelayMutationField(mutation, ctx.config.relayMappingConfig)
    ensures ctx.codeRegistry == RelayRegistrations(old(ctx.codeRegistry), parentType, mutation, resolver, ctx.config.relayMappingConfig)
  {
    var relay := ctx.config.relayMappingConfig;
    var payloadTypeName := PayloadTypeName(mutation);
    if !mutation.ty.Object? {
      ctx.DataFetcher(Coordinates(payloadTypeName, relay.wrapperFieldName), ReturnSource);
    }
    ctx.DataFetcher(Coordinates(payloadTypeName, ClientMutationIdName), ClientMutationId);
    r := ToRelayMutationField(mutation, relay);
    ctx.DataFetcher(Coordinates(parentType, r.name), RelayMutation(resolver));
  }

  /**
   * The per-operation step of a generate method: in Relay mode the mapped
   * mutation is rewritten by toRelayMutation, otherwise it is registered by
   * toGraphQLField(parentType, operation).
   */
  method MapOne(parentType: string, op: Operation, mode: Mode, ctx: BuildContext)
    returns (r: Result<FieldDefinition, MappingError>)
    modifies ctx
    ensures r == Mapper(ctx.config, mode)(op)
    ensures ctx.codeRegistry == Registrar(parentType, ctx.config, mode)(old(ctx.codeRegistry), op)
  {
    if mode == RelayCompliant {
      var mapped := ToGraphQLField(op, ctx.config);
      if mapped.Err? {
        return Err(mapped.error);
      }
      var field := ToRelayMutation(parentType, mapped.value, Execute(op), ctx);
      r := Ok(field);
    } else {
      r := ToGraphQLFieldWithResolver(parentType, op, ctx);
    }
  }

  /** One more operation extends both folds by one step. */
  lemma FoldStep(registry: map<Coordinates, Resolver>, ops: seq<Operation>, i: nat,
                 mapOne: Operation -> Result<FieldDefinition, MappingError>,
                 registerOne: (map<Coordinates, Resolver>, Operation) -> map<Coordinates, Resolver>)
    requires i < |ops| && MapAll(ops[..i], mapOne).Ok? && mapOne(ops[i]).Ok?
    ensures MapAll(ops[..i + 1], mapOne) == Ok(MapAll(ops[..i], mapOne).value + [mapOne(ops[i]).value])
    ensures RegisterAll(registry, ops[..i + 1], registerOne) == registerOne(RegisterAll(registry, ops[..i], registerOne), ops[i])
  {
    assert ops[..i + 1][..i] == ops[..i];
  }

  /**
   * One turn of the mapping loop, for any mapper and registrar: a failure ends
   * the whole fold with that error; a success extends both folds by one operation.
   */
  lemma LoopStep(registry: map<Coordinates, Resolver>, ops: seq<Operation>, i: nat, fields: seq<FieldDefinition>,
                 mapOne: Operation -> Result<FieldDefinition, MappingError>,
                 registerOne: (map<Coordinates, Resolver>, Operation) -> map<Coordinates, Resolver>,
                 before: map<Coordinates, Resolver>, after: map<Coordinates, Resolver>,
                 mapped: Result<FieldDefinition, MappingError>)
    requires i < |ops| && MapAll(ops[..i], mapOne) == Ok(fields)
    requires before == RegisterAll(registry, ops[..i], registerOne)
    requires mapped == mapOne(ops[i]) && after == registerOne(before, ops[i])
    ensures mapped.Err? ==> MapAll(ops, mapOne) == Err(mapped.error)
    ensures mapped.Ok? ==> MapAll(ops[..i + 1], mapOne) == Ok(fields + [mapped.value])
    ensures mapped.Ok? ==> after == RegisterAll(registry, ops[..i + 1], registerOne)
  {
    if mapped.Err? {
      assert ops[..i + 1][..i] == ops[..i];
      MapAllPrefixError(ops, i + 1, mapOne);
    } else {
      FoldStep(registry, ops, i, mapOne, registerOne);
    }
  }

  /**
   * The stream each generate method runs: maps the operations under
   * `parentType` in order and stops at the first that throws.
   */
  method MapOperations(parentType: string, ops: seq<Operation>, mode: Mode, ctx: BuildContext)
    returns (r: Result<seq<FieldDefinition>, MappingError>)
    modifies ctx
    ensures r == MapAll(ops, Mapper(ctx.config, mode))
    ensures r.Ok? ==> ctx.codeRegistry == RegisterAll(old(ctx.codeRegistry), ops, Registrar(parentType, ctx.config, mode))
  {
    var fields: seq<FieldDefinition> := [];
    for i := 0 to |ops|
      invariant MapAll(ops[..i], Mapper(ctx.config, mode)) == Ok(fields)
      invariant ctx.codeRegistry == RegisterAll(old(ctx.codeRegistry), ops[..i], Registrar(parentType, ctx.config, mode))
    {
      ghost var before := ctx.codeRegistry;
      var mapped := MapOne(parentType, ops[i], mode, ctx);
      LoopStep(old(ctx.codeRegistry), ops, i, fields, Mapper(ctx.config, mode), Registrar(parentType, ctx.config, mode),
               before, ctx.codeRegistry, mapped);
      if mapped.Err? {
        return Err(mapped.error);
      }
      fields := fields + [mapped.value];
    }
    assert ops[..|ops|] == ops;
    r := Ok(fields);
  }

  /** generateQueries: maps the root queries, then appends the node query when it is due. */
  method GenerateQueries(queryRoot: string, ctx: BuildContext) returns (r: Result<seq<FieldDefinition>, MappingError>)
    modifies ctx
    ensures r == Queries(ctx.config)
    ensures r.Ok? ==> ctx.codeRegistry == RegisterAll(old(ctx.codeRegistry), ctx.config.operationRegistry.rootQueries, Registrar(queryRoot, ctx.config, Direct))
  {
    var rootQueries := ctx.config.operationRegistry.rootQueries;
    var mapped := MapOperations(queryRoot, rootQueries, Direct, ctx);
    if mapped.Err? {
      return Err(mapped.error);
    }
    var queries := mapped.value;
    if NoExplicitNodeQuery(rootQueries) {
      var nodeQueriesByType := NodeQueriesByType(rootQueries, queries, ctx.config);
      if nodeQueriesByType != map[] {
        queries := queries + [NodeField(nodeQueriesByType)];
      }
    }
    r := Ok(queries);
  }

  /** generateMutations: each mutation is rewritten into the Relay shape when configured, else mapped directly. */
  method GenerateMutations(mutationRoot: string, ctx: BuildContext) returns (r: Result<seq<FieldDefinition>, MappingError>)
    modifies ctx
    ensures r == Mutations(ctx.config)
    ensures r.Ok? ==> ctx.codeRegistry == RegisterAll(old(ctx.codeRegistry), ctx.config.operationRegistry.mutations,
                                                      Registrar(mutationRoot, ctx.config, MutationMode(ctx.config)))
  {
    r := MapOperations(mutationRoot, ctx.config.operationRegistry.mutations, MutationMode(ctx.config), ctx);
  }

  /** generateSubscriptions: always mapped directly. */
  method GenerateSubscriptions(subscriptionRoot: string, ctx: BuildContext) returns (r: Result<seq<FieldDefinition>, MappingError>)
    modifies ctx
    ensures r == Subscriptions(ctx.config)
    ensures r.Ok? ==> ctx.codeRegistry == RegisterAll(old(ctx.codeRegistry), ctx.config.operationRegistry.subscriptions,
                                                      Registrar(subscriptionRoot, ctx.config, Direct))
  {
    r := MapOperations(subscriptionRoot, ctx.config.operationRegistry.subscriptions, Direct, ctx);
  }

  /** The four lists of a finished assembly. */
  class OperationMapper {
    const queries: seq<FieldDefinition>
    const mutations: seq<FieldDefinition>
    const subscriptions: seq<FieldDefinition>
    const directives: seq<Schema.Directive>

    constructor(queries: seq<FieldDefinition>, mutations: seq<FieldDefinition>, subscriptions: seq<FieldDefinition>,
                directives: seq<Schema.Directive>)
      ensures this.queries == queries && this.mutations == mutations
      ensures this.subscriptions == subscriptions && this.directives == directives
    {
      this.queries := queries;
      this.mutations := mutations;
      this.subscriptions := subscriptions;
      this.directives := directives;
    }
  }

  /**
   * The assembly the OperationMapper constructor runs: queries, then
   * mutations, then subscriptions, then directives. The first MappingException
   * aborts the build and is the result; otherwise every list is as specified
   * and the registry holds the three rounds of registrations, in that order.
   */
  method Build(queryRoot: string, mutationRoot: string, subscriptionRoot: string, ctx: BuildContext)
    returns (r: Result<OperationMapper, MappingError>)
    modifies ctx
    ensures r.Ok? ==> (
      && fresh(r.value)
      && Queries(ctx.config) == Ok(r.value.queries)
      && Mutations(ctx.config) == Ok(r.value.mutations)
      && Subscriptions(ctx.config) == Ok(r.value.subscriptions)
      && r.value.directives == Directives(ctx.config))
    ensures r.Ok? ==> (
      var cfg := ctx.config;
      var afterQueries := RegisterAll(old(ctx.codeRegistry), cfg.operationRegistry.rootQueries, Registrar(queryRoot, cfg, Direct));
      var afterMutations := RegisterAll(afterQueries, cfg.operationRegistry.mutations, Registrar(mutationRoot, cfg, MutationMode(cfg)));
      ctx.codeRegistry == RegisterAll(afterMutations, cfg.operationRegistry.subscriptions, Registrar(subscriptionRoot, cfg, Direct)))
    ensures r.Err? <==> Queries(ctx.config).Err? || Mutations(ctx.config).Err? || Subscriptions(ctx.config).Err?
    ensures r.Err? ==> (
      r.error == if Queries(ctx.config).Err? then Queries(ctx.config).error
                 else if Mutations(ctx.config).Err? then Mutations(ctx.config).error
                 else Subscriptions(ctx.config).error)
  {
    var queries := GenerateQueries(queryRoot, ctx);
    if queries.Err? {
      return Err(queries.error);
    }
    var mutations := GenerateMutations(mutationRoot, ctx);
    if mutations.Err? {
      return Err(mutations.error);
    }
    var subscriptions := GenerateSubscriptions(subscriptionRoot, ctx);
    if subscriptions.Err? {
      return Err(subscriptions.error);
    }
    var directives := Directives(ctx.config);
    var mapper := new OperationMapper(queries.value, mutations.value, subscriptions.value, directives);
    r := Ok(mapper);
  }
}
