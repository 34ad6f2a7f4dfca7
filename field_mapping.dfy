/**
 * Mapping one operation to a schema field (toGraphQLField without a parent
 * type), its arguments, input fields and directives. The recursive type
 * mapping is a collaborator; the transformer pipeline is the identity.
 */
module FieldMapping {
  import opened Wrappers
  import Metadata
  import opened Schema
  import opened BuildConfig
  import opened ConnectionSpec

  /**
   * The guarded copy of a default value: the builder is given the value only
   * when the default is set, so an unset default stays apart from an explicit null.
   */
  function CopyDefault(dv: Metadata.DefaultValue): (r: InputDefault)
    ensures r.IsSet() <==> dv.IsSet()
    ensures r.IsSet() ==> r.value == dv.GetValue()
  {
    if dv.IsSet() then Default(dv.GetValue()) else NoDefault
  }

  /** The copy loses nothing: unset, explicit null and a value stay three different defaults. */
  lemma CopyDefaultInjective(a: Metadata.DefaultValue, b: Metadata.DefaultValue)
    ensures CopyDefault(a) == CopyDefault(b) ==> a == b
  {
  }

  /** toGraphQLArgument for an operation argument: name, description and mapped type, and the default only when it is set. */
  function ToGraphQLArgument(arg: Metadata.OperationArgument, c: Collaborators): (r: Argument)
    ensures r.name == arg.name && r.description == arg.description && r.ty == c.inputType(arg.javaType)
    ensures r.defaultValue.IsSet() <==> arg.defaultValue.IsSet()
    ensures r.defaultValue.IsSet() ==> r.defaultValue.value == arg.defaultValue.GetValue()
    ensures r.value == None
  {
    Argument(arg.name, arg.description, c.inputType(arg.javaType), CopyDefault(arg.defaultValue), None)
  }

  /** toGraphQLInputField: name, description and mapped type, and the default only when it is set. */
  function ToGraphQLInputField(field: Metadata.InputField, c: Collaborators): (r: InputObjectField)
    ensures r.name == field.name && r.description == field.description && r.ty == c.inputType(field.javaType)
    ensures r.defaultValue.IsSet() <==> field.defaultValue.IsSet()
    ensures r.defaultValue.IsSet() ==> r.defaultValue.value == field.defaultValue.GetValue()
  {
    InputObjectField(field.name, field.description, c.inputType(field.javaType), CopyDefault(field.defaultValue))
  }

  /** toGraphQLArgument for a directive argument: like an operation argument, and it keeps its value too. */
  function ToDirectiveArgument(arg: Metadata.DirectiveArgument, c: Collaborators): (r: Argument)
    ensures r.name == arg.name && r.description == arg.description && r.ty == c.inputType(arg.javaType)
    ensures r.defaultValue.IsSet() <==> arg.defaultValue.IsSet()
    ensures r.defaultValue.IsSet() ==> r.defaultValue.value == arg.defaultValue.GetValue()
    ensures r.value == arg.value
  {
    Argument(arg.name, arg.description, c.inputType(arg.javaType), CopyDefault(arg.defaultValue), arg.value)
  }

  /** toGraphQLDirective: name, description and locations carried over, one argument per argument, in order. */
  function ToGraphQLDirective(directive: Metadata.Directive, c: Collaborators): (r: Schema.Directive)
    ensures r.name == directive.name && r.description == directive.description
    ensures r.locations == directive.locations
    ensures |r.arguments| == |directive.arguments|
    // A summary of the next clause, through ToDirectiveArgument's contract
    ensures forall i | 0 <= i < |r.arguments| ::
      && r.arguments[i].name == directive.arguments[i].name
      && r.arguments[i].value == directive.arguments[i].value
      && (r.arguments[i].defaultValue.IsSet() <==> directive.arguments[i].defaultValue.IsSet())
    ensures forall i | 0 <= i < |r.arguments| :: r.arguments[i] == ToDirectiveArgument(directive.arguments[i], c)
  {
    var arguments := seq(|directive.arguments|, i requires 0 <= i < |directive.arguments| =>
      ToDirectiveArgument(directive.arguments[i], c));
    Schema.Directive(directive.name, directive.description, directive.locations, arguments)
  }

  /** The mappable arguments, in their order: resolver-internal ones never reach the schema. */
  function MappableArguments(args: seq<Metadata.OperationArgument>): (r: seq<Metadata.OperationArgument>)
    ensures |r| <= |args|
    ensures forall a :: a in r <==> a in args && a.mappable
  {
    if args == [] then []
    else if args[0].mappable then [args[0]] + MappableArguments(args[1..])
    else MappableArguments(args[1..])
  }

  /**
   * The filter works piece by piece: filtering a concatenation concatenates
   * the filtered pieces, so the mappable arguments keep their order and their
   * number of occurrences.
   */
  lemma {:induction false} MappableArgumentsConcat(a: seq<Metadata.OperationArgument>, b: seq<Metadata.OperationArgument>)
    ensures MappableArguments(a + b) == MappableArguments(a) + MappableArguments(b)
    decreases |a|
  {
    if a != [] {
      assert (a + b)[0] == a[0];
      assert (a + b)[1..] == a[1..] + b;
      MappableArgumentsConcat(a[1..], b);
    } else {
      assert a + b == b;
    }
  }

  /** A single argument passes the filter exactly when it is mappable. */
  lemma MappableArgumentsSingle(a: Metadata.OperationArgument)
    ensures MappableArguments([a]) == if a.mappable then [a] else []
  {
    assert [a][1..] == [];
  }

  /**
   * The schema arguments of an operation: one per mappable argument, in order.
   * As a set, each comes from a mappable argument and every mappable argument
   * yields one; a set default goes back to a set default of the argument of the same name.
   */
  function FieldArguments(op: Metadata.Operation, c: Collaborators): (r: seq<Argument>)
    ensures |r| == |MappableArguments(op.arguments)|
    ensures forall i | 0 <= i < |r| :: r[i] == ToGraphQLArgument(MappableArguments(op.arguments)[i], c)
    ensures forall a | a in r :: exists oa | oa in op.arguments :: oa.mappable && a == ToGraphQLArgument(oa, c)
    ensures forall oa | oa in op.arguments && oa.mappable :: ToGraphQLArgument(oa, c) in r
    ensures forall a | a in r ::
      a.defaultValue.IsSet() ==> exists oa | oa in op.arguments ::
        oa.mappable && oa.name == a.name && oa.defaultValue.IsSet() && a.defaultValue.value == oa.defaultValue.GetValue()
  {
    var mappable := MappableArguments(op.arguments);
    var arguments := seq(|mappable|, i requires 0 <= i < |mappable| => ToGraphQLArgument(mappable[i], c));
    ConvertedMembers(op.arguments, mappable, arguments, c);
    arguments
  }

  /** Converting the filtered arguments one by one: the converted set is the image of the mappable set. */
  lemma ConvertedMembers(args: seq<Metadata.OperationArgument>, mappable: seq<Metadata.OperationArgument>,
                         arguments: seq<Argument>, c: Collaborators)
    requires mappable == MappableArguments(args) && |arguments| == |mappable|
    requires forall i | 0 <= i < |arguments| :: arguments[i] == ToGraphQLArgument(mappable[i], c)
    ensures forall a | a in arguments :: exists oa | oa in args :: oa.mappable && a == ToGraphQLArgument(oa, c)
    ensures forall oa | oa in args && oa.mappable :: ToGraphQLArgument(oa, c) in arguments
  {
    forall a | a in arguments
      ensures exists oa | oa in args :: oa.mappable && a == ToGraphQLArgument(oa, c)
    {
      var i :| 0 <= i < |arguments| && arguments[i] == a;
      assert mappable[i] in mappable;
    }
    forall oa | oa in args && oa.mappable
      ensures ToGraphQLArgument(oa, c) in arguments
    {
      assert oa in mappable;
      var i :| 0 <= i < |mappable| && mappable[i] == oa;
      assert arguments[i] == ToGraphQLArgument(oa, c);
    }
  }

  /** The field as built, before the connection check decides whether it is returned. */
  function FieldOf(op: Metadata.Operation, c: Collaborators): (r: FieldDefinition)
    ensures r.name == op.name && r.description == op.description && r.deprecationReason == op.deprecationReason
    ensures r.ty == c.outputType(op.javaType) && r.arguments == FieldArguments(op, c) && r.fetcher == None
  {
    FieldDefinition(op.name, op.description, op.deprecationReason, c.outputType(op.javaType), FieldArguments(op, c), None)
  }

  /** The connection check applies: the mapped type is a Relay connection type and strict mode is on. */
  predicate ComplianceChecked(op: Metadata.Operation, cfg: Config) {
    cfg.collaborators.isRelayConnectionType(cfg.collaborators.outputType(op.javaType))
    && cfg.relayMappingConfig.strictConnectionSpec
  }

  /**
   * toGraphQLField(operation): the field carries the operation's name,
   * description, deprecation and mapped type, and exactly the mappable
   * arguments, each with its default only when set. The connection check runs
   * only on a Relay connection type under strict mode, and then decides whether
   * the field is built.
   */
  function ToGraphQLField(op: Metadata.Operation, cfg: Config): (r: Result<FieldDefinition, MappingError>)
    ensures r.Err? ==> r.error.operation == op.name
    ensures r.Err? ==> ValidateConnectionSpecCompliance(op.name, FieldArguments(op, cfg.collaborators)) == Fail(r.error)
    ensures r.Err? ==> ComplianceChecked(op, cfg)
    ensures ComplianceChecked(op, cfg) ==>
      (r.Ok? <==> ValidateConnectionSpecCompliance(op.name, FieldArguments(op, cfg.collaborators)) == Pass)
    ensures r.Ok? ==>
      && r.value.name == op.name
      && r.value.description == op.description
      && r.value.deprecationReason == op.deprecationReason
      && r.value.ty == cfg.collaborators.outputType(op.javaType)
      && r.value.fetcher == None
    ensures r.Ok? ==> r.value.arguments == FieldArguments(op, cfg.collaborators)
    ensures r.Ok? ==>
      && (forall a | a in r.value.arguments ::
            exists oa | oa in op.arguments :: oa.mappable && a == ToGraphQLArgument(oa, cfg.collaborators))
      && (forall oa | oa in op.arguments && oa.mappable ::
            ToGraphQLArgument(oa, cfg.collaborators) in r.value.arguments)
    ensures r.Ok? ==> forall a | a in r.value.arguments ::
      a.defaultValue.IsSet() ==> exists oa | oa in op.arguments ::
        oa.mappable && oa.name == a.name && oa.defaultValue.IsSet() && a.defaultValue.value == oa.defaultValue.GetValue()
  {
    var field := FieldOf(op, cfg.collaborators);
    var outcome := ValidateConnectionSpecCompliance(op.name, field.arguments);
    if ComplianceChecked(op, cfg) && outcome.Fail? then Err(outcome.error) else Ok(field)
  }
}
