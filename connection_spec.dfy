/**
 * The strict check that a field returning a Relay connection type takes the
 * pagination arguments the Relay Cursor Connections Specification defines:
 * `first` and `after` for forward pagination (its section 4.1), `last` and
 * `before` for backward pagination (its section 4.2).
 */
module ConnectionSpec {
  import opened Wrappers
  import opened Schema

  /** A pagination argument of the specification: its name and the name of its type. */
  datatype SpecArgument = SpecArgument(name: string, typeName: string)

  const Before := SpecArgument("before", "String")
  const After := SpecArgument("after", "String")
  const First := SpecArgument("first", "Int")
  const Last := SpecArgument("last", "Int")

  /** The forward pagination arguments, section 4.1 of the Relay Cursor Connections Specification. */
  const ForwardPagination: seq<SpecArgument> := [After, First]

  /** The backward pagination arguments, section 4.2 of the Relay Cursor Connections Specification. */
  const BackwardPagination: seq<SpecArgument> := [Before, Last]

  /** All four connection arguments. */
  const ConnectionArguments: seq<SpecArgument> := [Before, After, First, Last]

  /** The two categories of violation, in the order they are checked. */
  datatype Violation = RequiredArgumentsMissing | ArgumentTypeMismatch

  /** The MappingException that aborts the build, naming the operation and the violation. */
  datatype MappingError = ConnectionSpecViolation(operation: string, violation: Violation)

  // Reference definitions, stated over sets and maps

  function ArgumentNames(args: seq<Argument>): set<string> {
    set a | a in args :: a.name
  }

  function SpecNames(spec: seq<SpecArgument>): set<string> {
    set s | s in spec :: s.name
  }

  /** The specification's type name for each connection argument name. */
  const SpecTypeName: map<string, string> :=
    map["before" := "String", "after" := "String", "first" := "Int", "last" := "Int"]

  /** An argument shares its name with a connection argument but its unwrapped type has another name. */
  predicate Mistyped(a: Argument) {
    a.name in SpecTypeName && Unwrap(a.ty).name != SpecTypeName[a.name]
  }

  /** The arguments cover one of the two pagination sets by name. */
  predicate PaginationSupported(args: seq<Argument>) {
    SpecNames(ForwardPagination) <= ArgumentNames(args) || SpecNames(BackwardPagination) <= ArgumentNames(args)
  }

  // The check as the source computes it, one stream operation per function

  /** Some argument has the given name. */
  predicate AnyNamed(args: seq<Argument>, name: string)
    ensures AnyNamed(args, name) <==> name in ArgumentNames(args)
  {
    if args == [] then false
    else
      assert ArgumentNames(args) == {args[0].name} + ArgumentNames(args[1..]) by {
        assert forall a :: a in args <==> a == args[0] || a in args[1..];
      }
      args[0].name == name || AnyNamed(args[1..], name)
  }

  /** Every specification argument is matched by name by some argument. */
  predicate AllPresent(spec: seq<SpecArgument>, args: seq<Argument>)
    ensures AllPresent(spec, args) <==> SpecNames(spec) <= ArgumentNames(args)
  {
    if spec == [] then true
    else
      assert SpecNames(spec) == {spec[0].name} + SpecNames(spec[1..]) by {
        assert forall s :: s in spec <==> s == spec[0] || s in spec[1..];
      }
      AnyNamed(args, spec[0].name) && AllPresent(spec[1..], args)
  }

  /** Some argument is named like `s` but its unwrapped type is named otherwise. */
  predicate AnyMistypedAs(args: seq<Argument>, s: SpecArgument)
    ensures AnyMistypedAs(args, s) <==> exists a | a in args :: a.name == s.name && Unwrap(a.ty).name != s.typeName
  {
    if args == [] then false
    else
      (args[0].name == s.name && Unwrap(args[0].ty).name != s.typeName) || AnyMistypedAs(args[1..], s)
  }

  /** For some specification argument, some argument is mistyped against it. */
  predicate AnyMistyped(spec: seq<SpecArgument>, args: seq<Argument>)
    ensures AnyMistyped(spec, args) <==> exists s, a | s in spec && a in args ::
      a.name == s.name && Unwrap(a.ty).name != s.typeName
  {
    if spec == [] then false
    else AnyMistypedAs(args, spec[0]) || AnyMistyped(spec[1..], args)
  }

  /** Being mistyped against one of the four connection arguments is being Mistyped. */
  lemma SpecArgumentsMistyped(args: seq<Argument>)
    ensures AnyMistyped(ConnectionArguments, args) <==> exists a | a in args :: Mistyped(a)
  {
    forall a | a in args
      ensures Mistyped(a) <==> exists s | s in ConnectionArguments :: a.name == s.name && Unwrap(a.ty).name != s.typeName
    {
      assert ConnectionArguments == [Before, After, First, Last];
    }
  }

  /**
   * validateConnectionSpecCompliance: fails with "required arguments missing"
   * exactly when the arguments cover neither pagination set by name; otherwise
   * fails with "argument type mismatch" exactly when some argument named like a
   * connection argument has another type name; arguments with other names play
   * no part.
   */
  function ValidateConnectionSpecCompliance(operationName: string, arguments: seq<Argument>): (r: Outcome<MappingError>)
    ensures r.Fail? ==> r.error.operation == operationName
    ensures r == Fail(ConnectionSpecViolation(operationName, RequiredArgumentsMissing))
      <==> !PaginationSupported(arguments)
    ensures r == Fail(ConnectionSpecViolation(operationName, ArgumentTypeMismatch))
      <==> PaginationSupported(arguments) && exists a | a in arguments :: Mistyped(a)
    ensures r == Pass <==> PaginationSupported(arguments) && forall a | a in arguments :: !Mistyped(a)
  {
    SpecArgumentsMistyped(arguments);
    var forwardPageSupported := AllPresent(ForwardPagination, arguments);
    var backwardPageSupported := AllPresent(BackwardPagination, arguments);
    if !forwardPageSupported && !backwardPageSupported then
      Fail(ConnectionSpecViolation(operationName, RequiredArgumentsMissing))
    else if AnyMistyped(ConnectionArguments, arguments) then
      Fail(ConnectionSpecViolation(operationName, ArgumentTypeMismatch))
    else
      Pass
  }

  /** An argument whose name is not a connection argument name never changes the verdict, wherever it stands. */
  lemma {:induction false} NonSpecArgumentIgnored(operationName: string, front: seq<Argument>, extra: Argument, back: seq<Argument>)
    requires extra.name !in SpecTypeName
    ensures ValidateConnectionSpecCompliance(operationName, front + [extra] + back)
         == ValidateConnectionSpecCompliance(operationName, front + back)
  {
    var with, without := front + [extra] + back, front + back;
    assert ArgumentNames(with) == ArgumentNames(without) + {extra.name} by {
      assert forall a :: a in with <==> a in without || a == extra;
    }
    assert SpecNames(ForwardPagination) == {"after", "first"};
    assert SpecNames(BackwardPagination) == {"before", "last"};
    assert PaginationSupported(with) == PaginationSupported(without);
    assert (exists a | a in with :: Mistyped(a)) == (exists a | a in without :: Mistyped(a)) by {
      assert forall a :: a in with <==> a in without || a == extra;
      assert !Mistyped(extra);
    }
  }

  /** A connection field taking only `first: Int` and `after: String` passes: forward pagination alone is enough. */
  lemma ForwardPaginationAlonePasses(operationName: string)
    ensures ValidateConnectionSpecCompliance(operationName, [
      Argument("first", None, Scalar("Int"), NoDefault, None),
      Argument("after", None, Scalar("String"), NoDefault, None)]) == Pass
  {
    var args := [Argument("first", None, Scalar("Int"), NoDefault, None),
                 Argument("after", None, Scalar("String"), NoDefault, None)];
    assert ArgumentNames(args) == {"first", "after"};
    assert SpecNames(ForwardPagination) == {"after", "first"};
  }

  /** A connection field with `first` but neither `after` nor the backward pair fails for missing arguments. */
  lemma IncompletePaginationFails(operationName: string)
    ensures ValidateConnectionSpecCompliance(operationName, [Argument("first", None, Scalar("Int"), NoDefault, None)])
         == Fail(ConnectionSpecViolation(operationName, RequiredArgumentsMissing))
  {
    var args := [Argument("first", None, Scalar("Int"), NoDefault, None)];
    assert ArgumentNames(args) == {"first"};
    assert "after" in SpecNames(ForwardPagination) && "last" in SpecNames(BackwardPagination);
  }

  /** Missing arguments are reported even when a present argument is also mistyped: that check runs first. */
  lemma MissingReportedBeforeMismatch(operationName: string)
    ensures ValidateConnectionSpecCompliance(operationName, [Argument("first", None, NonNull(Scalar("String")), NoDefault, None)])
         == Fail(ConnectionSpecViolation(operationName, RequiredArgumentsMissing))
  {
    var args := [Argument("first", None, NonNull(Scalar("String")), NoDefault, None)];
    assert ArgumentNames(args) == {"first"};
    assert "after" in SpecNames(ForwardPagination) && "last" in SpecNames(BackwardPagination);
  }
}
