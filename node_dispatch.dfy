/**
 * The Relay `node` query (GraphQL Global Object Identification): the table
 * from object type name to the root query that fetches that type by id
 * (getNodeQueriesByType), and the node resolver that dispatches through it
 * (createNodeResolver).
 */
module NodeDispatch {
  import opened Wrappers
  import opened Metadata
  import opened Schema
  import opened BuildConfig

  const RelayIdFieldName := "id"
  const NodeInterfaceName := "Node"
  const NodeQueryName := "node"

  /**
   * What one root query writes into the table: nothing, one type name with
   * `put`, or several type names with `putIfAbsent`, in order.
   */
  datatype Registration = Skip | Put(typeName: string) | PutIfAbsent(typeNames: seq<string>) {
    predicate Offers(t: string) {
      (Put? && typeName == t) || (PutIfAbsent? && t in typeNames)
    }
  }

  predicate ImplementsNode(t: ObjectType) {
    NodeInterfaceName in t.interfaces
  }

  /** The query has an argument named `id` that is a Relay id, and a resolver registered for that argument. */
  predicate FetchesById(query: Operation, field: FieldDefinition, c: Collaborators) {
    var idArgument := FindArgument(field.arguments, RelayIdFieldName);
    idArgument.Some? && c.isRelayId(idArgument.value) && query.idResolverReturnType.Some?
  }

  /**
   * A possible type the table may take: it implements Node and, for a union,
   * it is also a mapped type whose Java type the id resolver's return type is a supertype of.
   */
  predicate Eligible(t: ObjectType, forUnion: bool, returnType: NativeType, c: Collaborators) {
    ImplementsNode(t) && (forUnion ==> t.mappedFrom.Some? && c.isSuperType(returnType, t.mappedFrom.value))
  }

  /** The names of the eligible possible types, in registry order. */
  function EligibleNames(ts: seq<ObjectType>, forUnion: bool, returnType: NativeType, c: Collaborators): (r: seq<string>)
    ensures forall n :: n in r <==> exists t | t in ts :: Eligible(t, forUnion, returnType, c) && t.name == n
    decreases |ts|
  {
    if ts == [] then []
    else
      var last := ts[|ts| - 1];
      assert forall t :: t in ts <==> t in ts[..|ts| - 1] || t == last;
      EligibleNames(ts[..|ts| - 1], forUnion, returnType, c)
      + (if Eligible(last, forUnion, returnType, c) then [last.name] else [])
  }

  /** The body of the dispatch-table loop for one query: which type names it writes, and whether it may overwrite. */
  function RegistrationOf(query: Operation, field: FieldDefinition, cfg: Config): Registration {
    if !FetchesById(query, field, cfg.collaborators) then Skip
    else
      var unwrapped := UnwrapNonNull(field.ty);
      if !unwrapped.IsNamed() || unwrapped.name !in cfg.typeCache then Skip
      else
        var resolved := cfg.typeCache[unwrapped.name];
        var returnType := query.idResolverReturnType.value;
        if resolved.Object? && NodeInterfaceName in resolved.interfaces then Put(unwrapped.name)
        else if resolved.Interface? then
          PutIfAbsent(EligibleNames(cfg.PossibleTypes(unwrapped.name), false, returnType, cfg.collaborators))
        else if resolved.Union? then
          PutIfAbsent(EligibleNames(cfg.PossibleTypes(unwrapped.name), true, returnType, cfg.collaborators))
        else Skip
  }

  /** `putIfAbsent` for each name in turn: new names get the query, names already present keep their entry. */
  function PutAllIfAbsent(table: map<string, string>, typeNames: seq<string>, queryName: string): (r: map<string, string>)
    ensures r.Keys == table.Keys + (set t | t in typeNames)
    ensures forall t | t in table :: r[t] == table[t]
    ensures forall t | t in r && t !in table :: r[t] == queryName
    decreases |typeNames|
  {
    if typeNames == [] then table
    else
      var init := typeNames[..|typeNames| - 1];
      var t := typeNames[|typeNames| - 1];
      assert (set u | u in typeNames) == (set u | u in init) + {t} by {
        assert forall u :: u in typeNames <==> u in init || u == t;
      }
      var before := PutAllIfAbsent(table, init, queryName);
      if t in before then before else before[t := queryName]
  }

  function Apply(table: map<string, string>, registration: Registration, queryName: string): map<string, string> {
    match registration
    case Skip => table
    case Put(t) => table[t := queryName]
    case PutIfAbsent(ts) => PutAllIfAbsent(table, ts, queryName)
  }

  /** The loop body for one query under a configuration, as a function of the query and its field. */
  /** What decides the registration of one query, given the query and its mapped field. */
  type QueryRegistration = (Operation, FieldDefinition) -> Registration

  function Registrations(cfg: Config): QueryRegistration {
    (query, field) => RegistrationOf(query, field, cfg)
  }

  /**
   * The table after the loop has handled the first n queries. The lemmas below
   * hold whatever decides each query's registration, so they are stated for
   * any `registrationOf`; the table of getNodeQueriesByType is the one under `Registrations(cfg)`.
   */
  function NodeTableUpTo(queries: seq<Operation>, fields: seq<FieldDefinition>, n: nat,
                         registrationOf: QueryRegistration): map<string, string>
    requires n <= |queries| && n <= |fields|
  {
    if n == 0 then map[]
    else Apply(NodeTableUpTo(queries, fields, n - 1, registrationOf), registrationOf(queries[n - 1], fields[n - 1]), queries[n - 1].name)
  }

  function NodeTable(queries: seq<Operation>, fields: seq<FieldDefinition>, cfg: Config): map<string, string>
    requires |queries| <= |fields|
  {
    NodeTableUpTo(queries, fields, |queries|, Registrations(cfg))
  }

  /** Query i offers type t, by `put` or by `putIfAbsent`. */
  predicate OfferedBy(queries: seq<Operation>, fields: seq<FieldDefinition>, registrationOf: QueryRegistration, i: nat, t: string)
    requires i < |queries| && i < |fields|
  {
    registrationOf(queries[i], fields[i]).Offers(t)
  }

  /** Query i returns object type t, which implements Node, and so writes it with `put`. */
  predicate PutBy(queries: seq<Operation>, fields: seq<FieldDefinition>, registrationOf: QueryRegistration, i: nat, t: string)
    requires i < |queries| && i < |fields|
  {
    registrationOf(queries[i], fields[i]) == Put(t)
  }

  /** A type name is in the table exactly when some query offers it. */
  lemma {:induction false} NodeTableDomain(queries: seq<Operation>, fields: seq<FieldDefinition>, n: nat,
                                           registrationOf: QueryRegistration, t: string)
    requires n <= |queries| && n <= |fields|
    ensures t in NodeTableUpTo(queries, fields, n, registrationOf) <==> exists i | 0 <= i < n :: OfferedBy(queries, fields, registrationOf, i, t)
  {
    if n > 0 {
      NodeTableDomain(queries, fields, n - 1, registrationOf, t);
      var registration := registrationOf(queries[n - 1], fields[n - 1]);
      assert t in NodeTableUpTo(queries, fields, n, registrationOf) <==>
             t in NodeTableUpTo(queries, fields, n - 1, registrationOf) || registration.Offers(t);
      if registration.Offers(t) {
        assert OfferedBy(queries, fields, registrationOf, n - 1, t);
      }
    }
  }

  /** Every entry names a query that offers the type. */
  lemma {:induction false} NodeTableValues(queries: seq<Operation>, fields: seq<FieldDefinition>, n: nat,
                                           registrationOf: QueryRegistration, t: string)
    requires n <= |queries| && n <= |fields|
    requires t in NodeTableUpTo(queries, fields, n, registrationOf)
    ensures exists i | 0 <= i < n ::
      OfferedBy(queries, fields, registrationOf, i, t) && NodeTableUpTo(queries, fields, n, registrationOf)[t] == queries[i].name
  {
    var before := NodeTableUpTo(queries, fields, n - 1, registrationOf);
    var registration := registrationOf(queries[n - 1], fields[n - 1]);
    var table := NodeTableUpTo(queries, fields, n, registrationOf);
    if t in before && table[t] == before[t] {
      NodeTableValues(queries, fields, n - 1, registrationOf, t);
    } else {
      assert registration.Offers(t) && table[t] == queries[n - 1].name;
      assert OfferedBy(queries, fields, registrationOf, n - 1, t);
    }
  }

  /** `put` overwrites: a type returned directly by some query maps to the last such query, whatever came between. */
  lemma {:induction false} NodeTableLastDirectMatchWins(queries: seq<Operation>, fields: seq<FieldDefinition>, n: nat,
                                                        registrationOf: QueryRegistration, i: nat, t: string)
    requires n <= |queries| && n <= |fields|
    requires i < n && PutBy(queries, fields, registrationOf, i, t)
    requires forall j | i < j < n :: !PutBy(queries, fields, registrationOf, j, t)
    ensures t in NodeTableUpTo(queries, fields, n, registrationOf) && NodeTableUpTo(queries, fields, n, registrationOf)[t] == queries[i].name
  {
    if i < n - 1 {
      NodeTableLastDirectMatchWins(queries, fields, n - 1, registrationOf, i, t);
      assert !PutBy(queries, fields, registrationOf, n - 1, t);
    }
  }

  /**
   * `putIfAbsent` never replaces: a type no query returns directly maps to the
   * first query whose interface or union offers it.
   */
  lemma {:induction false} NodeTableFirstDerivedMatchWins(queries: seq<Operation>, fields: seq<FieldDefinition>, n: nat,
                                                          registrationOf: QueryRegistration, i: nat, t: string)
    requires n <= |queries| && n <= |fields|
    requires forall j | 0 <= j < n :: !PutBy(queries, fields, registrationOf, j, t)
    requires i < n && OfferedBy(queries, fields, registrationOf, i, t)
    requires forall j | 0 <= j < i :: !OfferedBy(queries, fields, registrationOf, j, t)
    ensures t in NodeTableUpTo(queries, fields, n, registrationOf) && NodeTableUpTo(queries, fields, n, registrationOf)[t] == queries[i].name
  {
    assert !PutBy(queries, fields, registrationOf, n - 1, t);
    if i < n - 1 {
      NodeTableFirstDerivedMatchWins(queries, fields, n - 1, registrationOf, i, t);
    } else {
      NodeTableDomain(queries, fields, n - 1, registrationOf, t);
    }
  }

  /** putIfAbsent for each eligible possible type, filtering as it goes: the interface and union branches of getNodeQueriesByType. */
  method PutEligibleIfAbsent(table: map<string, string>, possibleTypes: seq<ObjectType>, forUnion: bool,
                             returnType: NativeType, c: Collaborators, queryName: string)
    returns (r: map<string, string>)
    ensures r == PutAllIfAbsent(table, EligibleNames(possibleTypes, forUnion, returnType, c), queryName)
  {
    r := table;
    for k := 0 to |possibleTypes|
      invariant r == PutAllIfAbsent(table, EligibleNames(possibleTypes[..k], forUnion, returnType, c), queryName)
    {
      var implementation := possibleTypes[k];
      PutEligibleStep(table, possibleTypes, k, forUnion, returnType, c, queryName);
      if Eligible(implementation, forUnion, returnType, c) && implementation.name !in r {
        r := r[implementation.name := queryName];
      }
    }
    assert possibleTypes[..|possibleTypes|] == possibleTypes;
  }

  /** One step of the filtering loop: the next possible type is written only when eligible and absent. */
  lemma PutEligibleStep(table: map<string, string>, ts: seq<ObjectType>, k: nat, forUnion: bool, returnType: NativeType,
                        c: Collaborators, queryName: string)
    requires k < |ts|
    ensures PutAllIfAbsent(table, EligibleNames(ts[..k + 1], forUnion, returnType, c), queryName) ==
      var before := PutAllIfAbsent(table, EligibleNames(ts[..k], forUnion, returnType, c), queryName);
      if Eligible(ts[k], forUnion, returnType, c) && ts[k].name !in before then before[ts[k].name := queryName] else before
  {
    EligibleNamesAppend(ts, k, forUnion, returnType, c);
    if Eligible(ts[k], forUnion, returnType, c) {
      PutAllIfAbsentAppend(table, EligibleNames(ts[..k], forUnion, returnType, c), ts[k].name, queryName);
    }
  }

  /** One more possible type: its name joins the eligible names when it is eligible. */
  lemma EligibleNamesAppend(ts: seq<ObjectType>, k: nat, forUnion: bool, returnType: NativeType, c: Collaborators)
    requires k < |ts|
    ensures EligibleNames(ts[..k + 1], forUnion, returnType, c) ==
      EligibleNames(ts[..k], forUnion, returnType, c) + (if Eligible(ts[k], forUnion, returnType, c) then [ts[k].name] else [])
  {
    assert ts[..k + 1][..k] == ts[..k];
  }

  /** One more name: `putIfAbsent` on the table the earlier names left. */
  lemma PutAllIfAbsentAppend(table: map<string, string>, typeNames: seq<string>, t: string, queryName: string)
    ensures PutAllIfAbsent(table, typeNames + [t], queryName) ==
      var before := PutAllIfAbsent(table, typeNames, queryName);
      if t in before then before else before[t := queryName]
  {
    assert (typeNames + [t])[..|typeNames|] == typeNames;
  }

  /**
   * getNodeQueriesByType: walks the root queries and their mapped fields in
   * step and builds the table from object type name to query name.
   */
  method NodeQueriesByType(queries: seq<Operation>, graphQLQueries: seq<FieldDefinition>, cfg: Config)
    returns (nodeQueriesByType: map<string, string>)
    requires |queries| <= |graphQLQueries|
    ensures nodeQueriesByType == NodeTable(queries, graphQLQueries, cfg)
  {
    nodeQueriesByType := map[];
    for i := 0 to |queries|
      invariant nodeQueriesByType == NodeTableUpTo(queries, graphQLQueries, i, Registrations(cfg))
    {
      var query := queries[i];
      var graphQLQuery := graphQLQueries[i];
      var idArgument := FindArgument(graphQLQuery.arguments, RelayIdFieldName);
      if idArgument.Some? && cfg.collaborators.isRelayId(idArgument.value) && query.idResolverReturnType.Some? {
        var unwrappedQueryType := UnwrapNonNull(graphQLQuery.ty);
        if unwrappedQueryType.IsNamed() && unwrappedQueryType.name in cfg.typeCache {
          var resolved := cfg.typeCache[unwrappedQueryType.name];
          var returnType := query.idResolverReturnType.value;
          if resolved.Object? && NodeInterfaceName in resolved.interfaces {
            nodeQueriesByType := nodeQueriesByType[unwrappedQueryType.name := query.name];
          } else if resolved.Interface? {
            nodeQueriesByType := PutEligibleIfAbsent(nodeQueriesByType, cfg.PossibleTypes(unwrappedQueryType.name),
                                                     false, returnType, cfg.collaborators, query.name);
          } else if resolved.Union? {
            nodeQueriesByType := PutEligibleIfAbsent(nodeQueriesByType, cfg.PossibleTypes(unwrappedQueryType.name),
                                                     true, returnType, cfg.collaborators, query.name);
          }
        }
      }
    }
  }

  /** The ways the node resolver fails, both reported as invalid arguments. */
  datatype NodeError = InvalidNodeId(id: string) | NotNodeType(typeName: string)

  /**
   * createNodeResolver's lookup: the id that cannot be decoded and the type
   * name the table lacks are errors; otherwise the answer is the query whose
   * resolver the node query delegates to.
   */
  function ResolveNode(nodeQueriesByType: map<string, string>, fromGlobalId: string -> Option<string>, id: string)
    : (r: Result<string, NodeError>)
    ensures r == Err(InvalidNodeId(id)) <==> fromGlobalId(id).None?
    ensures fromGlobalId(id).Some? ==>
      (r.Ok? <==> fromGlobalId(id).value in nodeQueriesByType)
    ensures fromGlobalId(id).Some? && r.Err? ==> r.error == NotNodeType(fromGlobalId(id).value)
    ensures r.Ok? ==> r.value == nodeQueriesByType[fromGlobalId(id).value]
  {
    match fromGlobalId(id)
    case None => Err(InvalidNodeId(id))
    case Some(typeName) =>
      if typeName !in nodeQueriesByType then Err(NotNodeType(typeName))
      else Ok(nodeQueriesByType[typeName])
  }

  /** The `node(id: ID!): Node` field, carrying its dispatching resolver, as graphql-java's Relay helper builds it. */
  function NodeField(nodeQueriesByType: map<string, string>): FieldDefinition {
    FieldDefinition(NodeQueryName, Some("Fetches an object given its ID"), None, Interface(NodeInterfaceName),
      [Argument(RelayIdFieldName, Some("The ID of an object"), NonNull(Scalar("ID")), NoDefault, None)],
      Some(NodeResolver(nodeQueriesByType)))
  }
}
